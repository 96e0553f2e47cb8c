/** What every call keeps: the index, the ids, the accounts, the records, and the log's agreement with all of them. */
module Invariants {
  import opened Machine
  import opened Chain
  import opened RegistrySpec
  import opened Effects
  import opened History

  // ----- the registry's own fields -----------------------------------------

  /** Position i holds id exactly when id's record is Active with activeIndex i. */
  ghost predicate IndexInv(reg: Registry) {
    && (forall i :: 0 <= i < |reg.active| ==>
          VolumeAt(reg, reg.active[i]).status == Active && VolumeAt(reg, reg.active[i]).activeIndex == i)
    && (forall id :: VolumeAt(reg, id).status == Active ==>
          VolumeAt(reg, id).activeIndex < |reg.active| && reg.active[VolumeAt(reg, id).activeIndex] == id)
  }

  /** The issued ids are exactly the hashes of (owner, k) for k below the owner's nonce. */
  ghost predicate IdInv(reg: Registry) {
    && (forall id :: VolumeAt(reg, id).status != Absent ==>
          id.Keccak? && id.who == VolumeAt(reg, id).owner && id.salt < AccountAt(reg, id.who).nonce)
    && (forall owner, k: nat :: k < AccountAt(reg, owner).nonce ==> VolumeAt(reg, Keccak(owner, k)).status != Absent)
  }

  /** Every active account is paid for by an outsider, and every recorded volume can be topped up. */
  ghost predicate RecordInv(cfg: Config, reg: Registry) {
    && (forall owner :: AccountAt(reg, owner).active ==> Outsider(cfg, AccountAt(reg, owner).payer))
    && (forall id :: VolumeAt(reg, id).status != Absent ==>
          VolumeAt(reg, id).depth > cfg.minimumBucketDepth && VolumeAt(reg, id).chunkSigner != ZERO_ADDRESS)
    && (forall id :: VolumeAt(reg, id).status == Absent ==> VolumeAt(reg, id) == NO_VOLUME)
    && (forall id :: VolumeAt(reg, id).status != Absent ==> VolumeAt(reg, id).owner != ZERO_ADDRESS)
  }

  /** PostageStamp and everyone else hold no allowance from the registry between calls. */
  ghost predicate NoAllowance(cfg: Config, t: Token) {
    forall s :: Allowance(t, cfg.registry, s) == 0
  }

  // ----- the log ------------------------------------------------------------

  /** Replaying the account rows gives the designations and accounts. */
  ghost predicate AuthReplay(reg: Registry, log: seq<Row>) {
    && (forall o :: DesignatedIn(log, o) == DesignatedAt(reg, o))
    && (forall o :: AuthIn(log, o) == Auth(AccountAt(reg, o).payer, AccountAt(reg, o).active))
    && (forall o :: o in OwnersIn(log) <==> AccountAt(reg, o).active)
  }

  /** Replaying the volume rows gives the owners, the nonces, and the Active volumes with their depths. */
  ghost predicate VolumeReplay(reg: Registry, log: seq<Row>) {
    && (forall id :: OwnerIn(log, id) ==
                     if VolumeAt(reg, id).status == Absent then None else Some(VolumeAt(reg, id).owner))
    && (forall o :: AdmitsBy(log, o) == AccountAt(reg, o).nonce)
    && (forall id :: id in VolumesIn(log) <==> VolumeAt(reg, id).status == Active)
    && (forall id :: id in VolumesIn(log) ==> VolumesIn(log)[id] == VolumeAt(reg, id).depth)
  }

  ghost predicate ClockInv(env: Env) {
    && Ordered(env.log)
    && forall i :: 0 <= i < |env.log| ==>
         var next := Stamped(env.clock, FeeTransfer(0));
         Precedes(env.log[i], next) && Consistent(env.log[i], next)
  }

  /** Fees pair with payments, only designated payers activate, only the two sides revoke, only active accounts pay,
      volumes are admitted once. */
  ghost predicate LogInv(log: seq<Row>) {
    Paired(log) && Bilateral(log) && RevokedBySides(log) && Authorised(log) && AdmittedOnce(log)
  }

  ghost predicate RegInv(cfg: Config, reg: Registry) {
    IndexInv(reg) && IdInv(reg) && RecordInv(cfg, reg)
  }

  ghost predicate Inv(cfg: Config, w: World) {
    && ValidConfig(cfg)
    && RegInv(cfg, w.reg)
    && NoAllowance(cfg, w.env.token)
    && AuthReplay(w.reg, w.env.log) && VolumeReplay(w.reg, w.env.log)
    && ClockInv(w.env) && LogInv(w.env.log)
  }

  /** The parts of the invariant about the registry's own fields. */
  lemma InvFields(cfg: Config, w: World)
    requires Inv(cfg, w)
    ensures ValidConfig(cfg) && IndexInv(w.reg) && IdInv(w.reg) && RecordInv(cfg, w.reg)
  {
  }

  /** The parts of the invariant about the log and the world around it. */
  lemma InvRest(cfg: Config, w: World)
    requires Inv(cfg, w)
    ensures RegInv(cfg, w.reg) && NoAllowance(cfg, w.env.token)
    ensures AuthReplay(w.reg, w.env.log) && VolumeReplay(w.reg, w.env.log) && ClockInv(w.env) && LogInv(w.env.log)
  {
  }

  // ----- appending rows -----------------------------------------------------

  lemma AppendReplays(log: seq<Row>, r: Row)
    ensures Init(log + [r]) == log && Last(log + [r]) == r
    ensures forall o :: DesignatedIn(log + [r], o) ==
                        if r.event.PayerDesignated? && r.event.owner == o then r.event.payer else DesignatedIn(log, o)
    ensures forall id :: OwnerIn(log + [r], id) ==
                         if IsAdmit(r.event) && r.event.id == id then Some(r.event.owner) else OwnerIn(log, id)
    ensures forall o :: AdmitsBy(log + [r], o) ==
                        AdmitsBy(log, o) + if IsAdmit(r.event) && r.event.owner == o then 1 else 0
    ensures VolumesIn(log + [r]) == if IsAdmit(r.event) then VolumesIn(log)[r.event.id := r.event.depth]
                                    else if r.event.VolumeRetired? then VolumesIn(log) - {r.event.id}
                                    else VolumesIn(log)
    ensures forall p :: Charged(log + [r], p) == Charged(log, p) + RowCharge(log, r.event, p)
    ensures Fees(log + [r]) == Fees(log) + if r.event.FeeTransfer? then r.event.value else 0
  {
    assert Init(log + [r]) == log;
  }

  lemma AppendAuth(log: seq<Row>, r: Row)
    ensures forall o :: AuthIn(log + [r], o) ==
                        if r.event.AccountActivated? && r.event.owner == o then Auth(r.event.payer, true)
                        else if r.event.AccountRevoked? && r.event.owner == o then Auth(r.event.payer, false)
                        else AuthIn(log, o)
    ensures OwnersIn(log + [r]) == if r.event.AccountActivated? then OwnersIn(log) + {r.event.owner}
                                   else if r.event.AccountRevoked? then OwnersIn(log) - {r.event.owner}
                                   else OwnersIn(log)
  {
    assert Init(log + [r]) == log;
  }

  lemma EmitKeepsClock(env: Env, e: Event)
    requires ClockInv(env)
    ensures ClockInv(EmitEnv(env, e))
  {
    var env' := EmitEnv(env, e);
    forall i, j | 0 <= i < j < |env'.log|
      ensures Precedes(env'.log[i], env'.log[j]) && Consistent(env'.log[i], env'.log[j])
    {
      if j == |env.log| {
        var next := Stamped(env.clock, FeeTransfer(0));
        assert Precedes(env.log[i], next) && Consistent(env.log[i], next);
      }
    }
  }

  lemma BilateralAppend(log: seq<Row>, r: Row)
    requires Bilateral(log)
    requires r.event.AccountActivated? ==>
               r.event.payer != ZERO_ADDRESS && DesignatedIn(log, r.event.owner) == r.event.payer
    ensures Bilateral(log + [r])
  {
    var log' := log + [r];
    forall k | 0 <= k < |log'| && log'[k].event.AccountActivated?
      ensures log'[k].event.payer != ZERO_ADDRESS
      ensures DesignatedIn(log'[..k], log'[k].event.owner) == log'[k].event.payer
    {
      assert log'[..k] == log[..k];
      assert k == |log| ==> log[..k] == log;
    }
  }

  lemma RevokedAppend(log: seq<Row>, r: Row)
    requires RevokedBySides(log) && RevocationFits(log, r.event)
    ensures RevokedBySides(log + [r])
  {
    var log' := log + [r];
    forall k | 0 <= k < |log'| && log'[k].event.AccountRevoked?
      ensures log'[k].event.payer == AuthIn(log'[..k], log'[k].event.owner).payer
      ensures log'[k].event.revoker == log'[k].event.owner || log'[k].event.revoker == log'[k].event.payer
    {
      assert log'[..k] == log[..k];
      assert k == |log| ==> log[..k] == log;
    }
  }

  /** A revocation row after these rows names the confirmed payer, and its revoker is one of the two sides. */
  predicate RevocationFits(log: seq<Row>, e: Event) {
    e.AccountRevoked? ==> e.payer == AuthIn(log, e.owner).payer && (e.revoker == e.owner || e.revoker == e.payer)
  }

  lemma AdmittedOnceAppend(log: seq<Row>, r: Row)
    requires AdmittedOnce(log)
    requires IsAdmit(r.event) ==> OwnerIn(log, r.event.id).None?
    ensures AdmittedOnce(log + [r])
  {
    if IsAdmit(r.event) {
      OwnerInSome(log, r.event.id);
    }
  }

  lemma AuthorisedAppend(log: seq<Row>, r: Row)
    requires Authorised(log)
    requires IsPayment(r.event) ==> BilledIn(log, r.event).Some? && AuthIn(log, BilledIn(log, r.event).value).active
    ensures Authorised(log + [r])
  {
    var log' := log + [r];
    forall k | 0 <= k < |log'| && IsPayment(log'[k].event)
      ensures BilledIn(log'[..k], log'[k].event).Some?
      ensures AuthIn(log'[..k], BilledIn(log'[..k], log'[k].event).value).active
    {
      assert log'[..k] == log[..k];
      assert k == |log| ==> log[..k] == log;
    }
  }

  lemma PairedAppend(log: seq<Row>, fee: Row, r: Row)
    requires Paired(log) && fee.event.FeeTransfer? && IsPayment(r.event) && fee.tx == r.tx
    requires r.event.Toppedup? ==> r.event.amount == fee.event.value
    ensures Paired(log + [fee] + [r])
  {
    var log' := log + [fee] + [r];
    assert forall k :: 0 <= k < |log| ==> log'[k] == log[k];
    assert log'[|log|] == fee && log'[|log| + 1] == r;
  }

  /** Appending one row that is neither a fee nor a payment. */
  lemma LogKeepsOne(log: seq<Row>, r: Row)
    requires LogInv(log) && !r.event.FeeTransfer? && !IsPayment(r.event)
    requires r.event.AccountActivated? ==>
               r.event.payer != ZERO_ADDRESS && DesignatedIn(log, r.event.owner) == r.event.payer
    requires RevocationFits(log, r.event)
    requires IsAdmit(r.event) ==> OwnerIn(log, r.event.id).None?
    ensures LogInv(log + [r])
  {
    hide Bilateral, RevokedBySides, RevocationFits, Authorised, AdmittedOnce;
    BilateralAppend(log, r);
    RevokedAppend(log, r);
    AuthorisedAppend(log, r);
    AdmittedOnceAppend(log, r);
  }

  /** Appending a fee and its payment. */
  lemma LogKeepsPayment(log: seq<Row>, fee: Row, r: Row)
    requires LogInv(log) && fee.event.FeeTransfer? && IsPayment(r.event) && fee.tx == r.tx
    requires r.event.Toppedup? ==> r.event.amount == fee.event.value
    requires IsAdmit(r.event) ==> OwnerIn(log, r.event.id).None?
    requires BilledIn(log, r.event).Some? && AuthIn(log, BilledIn(log, r.event).value).active
    ensures LogInv(log + [fee] + [r])
  {
    hide Paired, Bilateral, RevokedBySides, Authorised, AdmittedOnce;
    AppendReplays(log, fee);
    AppendAuth(log, fee);
    BilateralAppend(log, fee);
    BilateralAppend(log + [fee], r);
    RevokedAppend(log, fee);
    RevokedAppend(log + [fee], r);
    AuthorisedAppend(log, fee);
    AuthorisedAppend(log + [fee], r);
    AdmittedOnceAppend(log, fee);
    AdmittedOnceAppend(log + [fee], r);
    PairedAppend(log, fee, r);
  }

  // ----- registry transitions ----------------------------------------------

  lemma RecordKeepsIndex(reg: Registry, now: nat, caller: Addr, batchId: Bytes32, chunkSigner: Addr, depth: nat,
                         ttlExpiry: nat, reg': Registry, id: Bytes32)
    requires IndexInv(reg) && |reg.active| < U32
    requires Records(reg, now, caller, batchId, chunkSigner, depth, ttlExpiry, reg', id)
    ensures IndexInv(reg')
  {
    forall i | 0 <= i < |reg'.active|
      ensures VolumeAt(reg', reg'.active[i]).status == Active && VolumeAt(reg', reg'.active[i]).activeIndex == i
    {
      if i < |reg.active| {
        assert reg.active[i] != id;
      }
    }
    assert |reg.active| % U32 == |reg.active|;
    assert reg'.active[|reg.active|] == id;
    forall other | VolumeAt(reg', other).status == Active
      ensures VolumeAt(reg', other).activeIndex < |reg'.active|
      ensures reg'.active[VolumeAt(reg', other).activeIndex] == other
    {
      assert other != id ==> VolumeAt(reg', other) == VolumeAt(reg, other);
    }
  }

  lemma RecordKeepsIds(reg: Registry, now: nat, caller: Addr, batchId: Bytes32, chunkSigner: Addr, depth: nat,
                       ttlExpiry: nat, reg': Registry, id: Bytes32)
    requires IdInv(reg) && AccountAt(reg, caller).nonce + 1 < U64
    requires Records(reg, now, caller, batchId, chunkSigner, depth, ttlExpiry, reg', id)
    ensures IdInv(reg')
  {
    hide IdInv, AccountAt, VolumeAt, Records;
    forall other
      ensures RecordedUnderNonce(reg', other)
    {
      RecordKeepsOneId(reg, now, caller, batchId, chunkSigner, depth, ttlExpiry, reg', id, other);
    }
    forall owner, k: nat | k < AccountAt(reg', owner).nonce
      ensures VolumeAt(reg', Keccak(owner, k)).status != Absent
    {
      RecordIssuesOneId(reg, now, caller, batchId, chunkSigner, depth, ttlExpiry, reg', id, owner, k);
    }
    IdsFromParts(reg');
  }

  ghost predicate RecordedUnderNonce(reg: Registry, id: Bytes32) {
    VolumeAt(reg, id).status != Absent ==>
      id.Keccak? && id.who == VolumeAt(reg, id).owner && id.salt < AccountAt(reg, id.who).nonce
  }

  lemma IdsFromParts(reg: Registry)
    requires forall id :: RecordedUnderNonce(reg, id)
    requires forall owner, k: nat :: k < AccountAt(reg, owner).nonce ==> VolumeAt(reg, Keccak(owner, k)).status != Absent
    ensures IdInv(reg)
  {
    hide AccountAt, VolumeAt;
    forall id
      ensures VolumeAt(reg, id).status != Absent ==>
                id.Keccak? && id.who == VolumeAt(reg, id).owner && id.salt < AccountAt(reg, id.who).nonce
    {
      assert RecordedUnderNonce(reg, id);
    }
  }

  lemma RecordKeepsOneId(reg: Registry, now: nat, caller: Addr, batchId: Bytes32, chunkSigner: Addr, depth: nat,
                         ttlExpiry: nat, reg': Registry, id: Bytes32, other: Bytes32)
    requires IdInv(reg) && AccountAt(reg, caller).nonce + 1 < U64
    requires Records(reg, now, caller, batchId, chunkSigner, depth, ttlExpiry, reg', id)
    ensures RecordedUnderNonce(reg', other)
  {
    assert other != id ==> VolumeAt(reg', other) == VolumeAt(reg, other);
  }

  lemma RecordIssuesOneId(reg: Registry, now: nat, caller: Addr, batchId: Bytes32, chunkSigner: Addr, depth: nat,
                          ttlExpiry: nat, reg': Registry, id: Bytes32, owner: Addr, k: nat)
    requires IdInv(reg) && AccountAt(reg, caller).nonce + 1 < U64
    requires Records(reg, now, caller, batchId, chunkSigner, depth, ttlExpiry, reg', id)
    requires k < AccountAt(reg', owner).nonce
    ensures VolumeAt(reg', Keccak(owner, k)).status != Absent
  {
    if Keccak(owner, k) != id {
      assert k < AccountAt(reg, owner).nonce;
    }
  }

  /** What retirement does to the fields: one record marked and unindexed, at most one other record re-indexed. */
  ghost predicate Retires(reg: Registry, id: Bytes32, reg': Registry) {
    && reg' == reg.(volumes := reg'.volumes, active := reg'.active)
    && |reg'.active| == |reg.active| - 1
    && VolumeAt(reg', id) == VolumeAt(reg, id).(status := Retired, activeIndex := 0)
    && (forall other :: other != id ==>
          VolumeAt(reg', other) == VolumeAt(reg, other).(activeIndex := VolumeAt(reg', other).activeIndex))
    && (forall other :: VolumeAt(reg, other).status != Active ==> VolumeAt(reg', other) == VolumeAt(reg, other))
  }

  lemma RetireEffect(w: World, id: Bytes32, reason: RetireReason)
    requires IndexInv(w.reg) && VolumeAt(w.reg, id).status == Active
    ensures Retire(w, id, reason).Ok?
    ensures Retires(w.reg, id, Retire(w, id, reason).value.reg)
    ensures Retire(w, id, reason).value.env == EmitEnv(w.env, VolumeRetired(id, reason))
  {
    var last := w.reg.active[|w.reg.active| - 1];
    assert VolumeAt(w.reg, last).status == Active;
  }

  lemma RetireKeepsIndex(w: World, id: Bytes32, reason: RetireReason)
    requires IndexInv(w.reg) && VolumeAt(w.reg, id).status == Active
    requires Retire(w, id, reason).Ok?
    ensures IndexInv(Retire(w, id, reason).value.reg)
  {
    var reg, reg' := w.reg, Retire(w, id, reason).value.reg;
    var n, at := |reg.active|, VolumeAt(reg, id).activeIndex;
    var last := reg.active[n - 1];
    assert VolumeAt(reg, last).status == Active && VolumeAt(reg, last).activeIndex == n - 1;
    assert forall other :: other != id && other != last ==> VolumeAt(reg', other) == VolumeAt(reg, other);
    assert last != id ==> VolumeAt(reg', last) == VolumeAt(reg, last).(activeIndex := at);
    assert VolumeAt(reg', id).status == Retired;
    assert forall i :: 0 <= i < n - 1 ==> reg'.active[i] == if i == at then last else reg.active[i];
  }

  /** Swap-and-pop is removal: the index loses exactly the retired id, wherever it stood. */
  lemma RetireIsRemoval(w: World, id: Bytes32, reason: RetireReason, x: Bytes32)
    requires IndexInv(w.reg) && VolumeAt(w.reg, id).status == Active
    ensures Retire(w, id, reason).Ok?
    ensures x in Retire(w, id, reason).value.reg.active <==> x in w.reg.active && x != id
  {
    RetireEffect(w, id, reason);
    RetireKeepsIndex(w, id, reason);
    var reg' := Retire(w, id, reason).value.reg;
    hide Retire;
    InIndex(w.reg, x);
    InIndex(reg', x);
  }

  lemma InIndex(reg: Registry, x: Bytes32)
    requires IndexInv(reg)
    ensures x in reg.active <==> VolumeAt(reg, x).status == Active
  {
    if x in reg.active {
      var i :| 0 <= i < |reg.active| && reg.active[i] == x;
      assert VolumeAt(reg, reg.active[i]).status == Active;
    }
  }
}
