/** When each call goes through and what it then says, on records, accounts, batches, balances and allowances alone. */
module Outcomes {
  import opened Machine
  import opened Chain
  import opened RegistrySpec
  import opened Effects
  import opened History
  import opened Invariants
  import opened Steps
  import opened Trigger

  // ----- what a trigger finds ------------------------------------------------

  /** An id some creating call of its owner has issued. */
  predicate Issued(reg: Registry, id: Bytes32) {
    id.Keccak? && id.salt < AccountAt(reg, id.who).nonce
  }

  /** An Active volume with nothing to retire it: its batch live, still its signer's and of its depth, its time not up. */
  predicate Standing(w: World, id: Bytes32) {
    var v, p := VolumeAt(w.reg, id), w.env.postage;
    && v.status == Active
    && v.batchId in p.batches && p.batches[v.batchId].owner != ZERO_ADDRESS
    && p.batches[v.batchId].normalisedBalance > p.outPayment
    && p.batches[v.batchId].owner == v.chunkSigner && p.batches[v.batchId].depth == v.depth
    && (v.ttlExpiry == 0 || w.env.clock.now < v.ttlExpiry)
  }

  /** What its batch lacks, per chunk, for `graceBlocks` more blocks at the current price; negative when it has more. */
  function Shortfall(cfg: Config, w: World, id: Bytes32): int
    requires Standing(w, id)
  {
    var p := w.env.postage;
    p.lastPrice * cfg.graceBlocks - (p.batches[VolumeAt(w.reg, id).batchId].normalisedBalance - p.outPayment)
  }

  /** Balance and allowance reach the amount, and no expiry that this deployment reads has passed. */
  predicate Covers(cfg: Config, w: World, payer: Addr, amount: int) {
    && BalanceOf(w.env.token, payer) >= amount && Allowance(w.env.token, payer, cfg.registry) >= amount
    && (cfg.bzzPermitExpiry && Allowance(w.env.token, payer, cfg.registry) == MAX_UINT256 ==>
          Expiration(w.env.token, payer, cfg.registry) == 0
          || Expiration(w.env.token, payer, cfg.registry) >= w.env.clock.now)
  }

  /** A standing volume of an active account whose batch falls short. */
  predicate Due(cfg: Config, w: World, id: Bytes32) {
    Standing(w, id) && AccountAt(w.reg, VolumeAt(w.reg, id).owner).active && Shortfall(cfg, w, id) > 0
  }

  predicate DueAndCovered(cfg: Config, w: World, id: Bytes32) {
    && Due(cfg, w, id)
    && Covers(cfg, w, AccountAt(w.reg, VolumeAt(w.reg, id).owner).payer,
              Shortfall(cfg, w, id) * Pow2(VolumeAt(w.reg, id).depth))
  }

  // ----- what it says ----------------------------------------------------------

  predicate Skips(cfg: Config, w: World, id: Bytes32, reason: SkipReason) {
    TriggerOne(cfg, w, id) == Ok((Emit(w, TopupSkipped(id, reason)), Skipped))
  }

  predicate Reaches(cfg: Config, w: World, id: Bytes32, outcome: TriggerOutcome) {
    TriggerOne(cfg, w, id).Ok? && TriggerOne(cfg, w, id).value.1 == outcome
  }

  lemma SkipNames(w: World, id: Bytes32, a: SkipReason, b: SkipReason)
    ensures Emit(w, TopupSkipped(id, a)) == Emit(w, TopupSkipped(id, b)) <==> a == b
  {
    if a != b {
      assert (w.env.log + [Stamped(w.env.clock, TopupSkipped(id, a))])[|w.env.log|]
             != (w.env.log + [Stamped(w.env.clock, TopupSkipped(id, b))])[|w.env.log|];
    }
  }

  lemma DropsAreActive(cfg: Config, w: World, id: Bytes32)
    ensures Decide(cfg, w, id).Drop? ==> VolumeAt(w.reg, id).status == Active
  {
  }

  /** The decision behind each outcome. */
  lemma DecisionShows(cfg: Config, w: World, id: Bytes32, reason: SkipReason)
    requires IndexInv(w.reg)
    ensures Skips(cfg, w, id, reason) <==> Decide(cfg, w, id) == Skip(reason)
    ensures Reaches(cfg, w, id, RetiredNow) <==> Decide(cfg, w, id).Drop?
    ensures Reaches(cfg, w, id, NoDeficit) <==> Decide(cfg, w, id).Enough?
    ensures Reaches(cfg, w, id, ToppedUp) <==> Decide(cfg, w, id).Pay? && TriggerOne(cfg, w, id).Ok?
  {
    DropsAreActive(cfg, w, id);
    hide Retire, IndexInv, PayDeficit, Decide, Emit;
    match Decide(cfg, w, id)
    case Skip(other) => SkipNames(w, id, other, reason);
    case Drop(cause) => RetireEffect(w, id, cause);
    case Enough =>
    case Pay(_, _, _) =>
  }

  lemma UnknownIsUnissued(reg: Registry, id: Bytes32)
    requires IdInv(reg)
    ensures Issued(reg, id) <==> VolumeAt(reg, id).status != Absent
  {
  }

  lemma DecisionOnFields(cfg: Config, w: World, id: Bytes32)
    requires Standing(w, id) ==> Due(cfg, w, id) ==>
               Shl(Shortfall(cfg, w, id), VolumeAt(w.reg, id).depth) == Shortfall(cfg, w, id) * Pow2(VolumeAt(w.reg, id).depth)
    ensures Decide(cfg, w, id) == Skip(NotFound) <==> VolumeAt(w.reg, id).status == Absent
    ensures Decide(cfg, w, id) == Skip(NotActive) <==> VolumeAt(w.reg, id).status == Retired
    ensures Decide(cfg, w, id).Drop? <==> VolumeAt(w.reg, id).status == Active && !Standing(w, id)
    ensures Decide(cfg, w, id) == Skip(NoAuth) <==>
            Standing(w, id) && !AccountAt(w.reg, VolumeAt(w.reg, id).owner).active
    ensures Decide(cfg, w, id).Enough? <==>
            Standing(w, id) && AccountAt(w.reg, VolumeAt(w.reg, id).owner).active && Shortfall(cfg, w, id) <= 0
    ensures Decide(cfg, w, id) == Skip(PaymentFailed) <==> Due(cfg, w, id) && !DueAndCovered(cfg, w, id)
    ensures Decide(cfg, w, id).Pay? <==> DueAndCovered(cfg, w, id)
    ensures Decide(cfg, w, id).Pay? ==> Decide(cfg, w, id).payer == AccountAt(w.reg, VolumeAt(w.reg, id).owner).payer
  {
    hide Shl, Pow2;
  }

  lemma ShortfallShifts(cfg: Config, w: World, id: Bytes32)
    requires ValidConfig(cfg) && WithinLimits(w) && Due(cfg, w, id)
    ensures Shl(Shortfall(cfg, w, id), VolumeAt(w.reg, id).depth) ==
            Shortfall(cfg, w, id) * Pow2(VolumeAt(w.reg, id).depth)
  {
    ProductOfUint64(w.env.postage.lastPrice, cfg.graceBlocks);
    ShlIsExact(Shortfall(cfg, w, id), VolumeAt(w.reg, id).depth);
  }

  /** Every trigger ends in exactly one of seven ways, and which one is decided by the id, the record, the account, the
      batch and the payer's money alone, in the contract's order: an unissued id, a retired volume, a lapsed one, an
      inactive account whatever the batch holds, a full runway, a payer who cannot cover the shortfall, a payment. */
  lemma TriggerEndsInOrder(cfg: Config, w: World, id: Bytes32)
    requires Inv(cfg, w) && WithinLimits(w)
    ensures var v := VolumeAt(w.reg, id);
            var active := AccountAt(w.reg, v.owner).active;
            && (Skips(cfg, w, id, NotFound) <==> !Issued(w.reg, id))
            && (Skips(cfg, w, id, NotActive) <==> v.status == Retired)
            && (Reaches(cfg, w, id, RetiredNow) <==> v.status == Active && !Standing(w, id))
            && (Skips(cfg, w, id, NoAuth) <==> Standing(w, id) && !active)
            && (Reaches(cfg, w, id, NoDeficit) <==> Standing(w, id) && active && Shortfall(cfg, w, id) <= 0)
            && (Skips(cfg, w, id, PaymentFailed) <==> Due(cfg, w, id) && !DueAndCovered(cfg, w, id))
            && (Reaches(cfg, w, id, ToppedUp) <==> DueAndCovered(cfg, w, id) && !Blocked(cfg, w, AccountAt(w.reg, v.owner).payer))
            && (TriggerOne(cfg, w, id).Revert? <==>
                DueAndCovered(cfg, w, id) && Blocked(cfg, w, AccountAt(w.reg, v.owner).payer))
  {
    hide Inv, IndexInv, IdInv, RecordInv, WithinLimits, Decide, Standing, Due, DueAndCovered, Shortfall, Skips, Reaches,
         TriggerOne, Blocked, Issued;
    InvFields(cfg, w);
    if Due(cfg, w, id) {
      ShortfallShifts(cfg, w, id);
    }
    DecisionOnFields(cfg, w, id);
    UnknownIsUnissued(w.reg, id);
    DecisionShows(cfg, w, id, NotFound);
    DecisionShows(cfg, w, id, NotActive);
    DecisionShows(cfg, w, id, NoAuth);
    DecisionShows(cfg, w, id, PaymentFailed);
    TriggerRevertsExactlyWhen(cfg, w, id);
  }

  /** A full runway leaves no trace at all. */
  lemma FullRunwayIsSilent(cfg: Config, w: World, id: Bytes32)
    requires Reaches(cfg, w, id, NoDeficit)
    ensures TriggerOne(cfg, w, id) == Ok((w, NoDeficit))
  {
    hide Decide, Retire, PayDeficit;
  }

  /** A top-up logs the fee and, right after it, the batch's new balance: always the out-payment plus the whole runway. */
  lemma TopUpSays(cfg: Config, w: World, id: Bytes32)
    requires Inv(cfg, w) && WithinLimits(w) && Reaches(cfg, w, id, ToppedUp)
    ensures Standing(w, id)
    ensures var p, amount := w.env.postage, Shortfall(cfg, w, id) * Pow2(VolumeAt(w.reg, id).depth);
            amount > 0 && TopsUp(w, TriggerOne(cfg, w, id).value.0, id, amount, p.outPayment + p.lastPrice * cfg.graceBlocks)
  {
    hide Inv, IndexInv, IdInv, RecordInv, WithinLimits, Blocked, TriggerOne, TriggerFrame, Retires, Decide, Shortfall;
    TriggerEndsInOrder(cfg, w, id);
    TriggerWrites(cfg, w, id);
    InvFields(cfg, w);
    ShortfallShifts(cfg, w, id);
    hide Skips, Reaches, Issued;
    PaidShortfall(cfg, w, id, TriggerOne(cfg, w, id).value.0);
  }

  predicate TopsUp(w: World, w': World, id: Bytes32, amount: nat, newBalance: nat) {
    && w'.reg == w.reg
    && w'.env.log == w.env.log
                     + [Stamped(w.env.clock, FeeTransfer(amount))]
                     + [Stamped(w.env.clock.(logIndex := w.env.clock.logIndex + 1), Toppedup(id, amount, newBalance))]
  }

  lemma PaidShortfall(cfg: Config, w: World, id: Bytes32, w': World)
    requires RecordInv(cfg, w.reg) && Decide(cfg, w, id).Pay? && Due(cfg, w, id)
    requires var Pay(payer, deficit, amount) := Decide(cfg, w, id); PayEffect(cfg, w, id, payer, deficit, amount, w')
    ensures var p, amount := w.env.postage, Shortfall(cfg, w, id) * Pow2(VolumeAt(w.reg, id).depth);
            amount > 0 && TopsUp(w, w', id, amount, p.outPayment + p.lastPrice * cfg.graceBlocks)
  {
    PayDecision(cfg, w, id);
    hide RecordInv, Decide, PaidThrough;
    MulMono(1, Shortfall(cfg, w, id), Pow2(VolumeAt(w.reg, id).depth));
  }

  // ----- creating, registering -------------------------------------------------

  /** The token would let the registry take the amount, whatever the deployment reads. */
  predicate CanTake(cfg: Config, w: World, payer: Addr, amount: nat) {
    && !w.env.token.paused
    && BalanceOf(w.env.token, payer) >= amount && Allowance(w.env.token, payer, cfg.registry) >= amount
    && (w.env.token.permittable && Allowance(w.env.token, payer, cfg.registry) == MAX_UINT256 ==>
          Expiration(w.env.token, payer, cfg.registry) == 0
          || Expiration(w.env.token, payer, cfg.registry) >= w.env.clock.now)
  }

  lemma PullsExactlyWhen(cfg: Config, w: World, payer: Addr, amount: nat)
    requires ValidConfig(cfg) && Outsider(cfg, payer)
    ensures PullAndApprove(cfg, w, payer, amount).Ok? <==> CanTake(cfg, w, payer, amount)
    ensures PullAndApprove(cfg, w, payer, amount).Ok? ==>
              var pulled := TransferFrom(w.env.token, w.env.clock.now, cfg.registry, payer, cfg.registry, amount);
              pulled.Ok? && PullAndApprove(cfg, w, payer, amount).value ==
                            w.(env := w.env.(token := Approve(pulled.value, cfg.registry, cfg.stamp, amount)))
  {
  }

  /** A batch PostageStamp would mint under the registry's next salt. */
  predicate CanMint(cfg: Config, w: World, chunkSigner: Addr, perChunk: nat, depth: nat, bucketDepth: nat) {
    var p, batchId := w.env.postage, Keccak(cfg.registry, w.reg.nextNonce);
    && !p.paused && chunkSigner != ZERO_ADDRESS
    && cfg.minimumBucketDepth <= bucketDepth < depth
    && (batchId in p.batches ==> p.batches[batchId].owner == ZERO_ADDRESS)
    && perChunk >= p.minimumValidityBlocks * p.lastPrice
    && perChunk * Pow2(depth) < U256 && 0 < p.outPayment + perChunk < U256
  }

  lemma MintsExactlyWhen(cfg: Config, w: World, payer: Addr, chunkSigner: Addr, perChunk: nat, charge: nat, depth: nat,
                         bucketDepth: nat)
    requires ValidConfig(cfg) && Outsider(cfg, payer) && ShiftedOrLost(perChunk, depth, charge)
    ensures MintBatch(cfg, w, payer, chunkSigner, perChunk, charge, depth, bucketDepth).Ok? <==>
            CanMint(cfg, w, chunkSigner, perChunk, depth, bucketDepth)
            && CanTake(cfg, w, payer, perChunk * Pow2(depth))
  {
    PullsExactlyWhen(cfg, w, payer, charge);
    hide CanTake;
    if CanMint(cfg, w, chunkSigner, perChunk, depth, bucketDepth) && CanTake(cfg, w, payer, charge) {
      NeverUnlimited(perChunk, depth);
      ForwardSucceeds(cfg, w.env.token, w.env.clock.now, payer, charge);
    }
  }

  /** A creation goes through exactly when the account is active, the signer is not the zero address, PostageStamp would
      mint the batch and the confirmed payer's money covers price times runway for every chunk of it: the signer may be
      the owner itself, and nothing else is asked. */
  lemma CreateSucceedsExactlyWhen(cfg: Config, w: World, caller: Addr, chunkSigner: Addr, depth: nat, bucketDepth: nat,
                                  ttlExpiry: nat)
    requires Inv(cfg, w)
    ensures var perChunk := w.env.postage.lastPrice * cfg.graceBlocks;
            CreateVolume(cfg, w, caller, chunkSigner, depth, bucketDepth, ttlExpiry).Ok? <==>
              && AccountAt(w.reg, caller).active
              && CanMint(cfg, w, chunkSigner, perChunk, depth, bucketDepth)
              && CanTake(cfg, w, AccountAt(w.reg, caller).payer, perChunk * Pow2(depth))
    ensures !AccountAt(w.reg, caller).active ==>
              CreateVolume(cfg, w, caller, chunkSigner, depth, bucketDepth, ttlExpiry) == Revert(AccountNotActive)
    ensures AccountAt(w.reg, caller).active && chunkSigner == ZERO_ADDRESS ==>
              CreateVolume(cfg, w, caller, chunkSigner, depth, bucketDepth, ttlExpiry) == Revert(ZeroAddress)
  {
    PayersAreOutsiders(cfg, w, caller);
    InvFields(cfg, w);
    hide Inv, IndexInv, IdInv, RecordInv, MintBatch, CanTake, Outsider, ValidConfig, Shl, Pow2;
    if AccountAt(w.reg, caller).active {
      var perChunk := w.env.postage.lastPrice * cfg.graceBlocks;
      MintsExactlyWhen(cfg, w, AccountAt(w.reg, caller).payer, chunkSigner, perChunk, Shl(perChunk, depth), depth, bucketDepth);
      MintKeepsRegistry(cfg, w, AccountAt(w.reg, caller).payer, chunkSigner, perChunk, Shl(perChunk, depth), depth, bucketDepth);
      NoCollision(w.reg, caller);
    }
  }

  lemma MintKeepsRegistry(cfg: Config, w: World, payer: Addr, chunkSigner: Addr, perChunk: nat, charge: nat, depth: nat,
                          bucketDepth: nat)
    ensures var r := MintBatch(cfg, w, payer, chunkSigner, perChunk, charge, depth, bucketDepth);
            r.Ok? ==> r.value.0.reg == w.reg.(nextNonce := (w.reg.nextNonce + 1) % U256)
  {
  }

  /** A registration goes through exactly over a live batch deeper than the minimum bucket depth, for an active account. It
      moves no BZZ, changes no batch, and logs the batch's own signer, depth and balance. */
  lemma RegisterSucceedsExactlyWhen(cfg: Config, w: World, caller: Addr, batchId: Bytes32, ttlExpiry: nat)
    requires Inv(cfg, w)
    ensures var r, p := RegisterVolume(cfg, w, caller, batchId, ttlExpiry), w.env.postage;
            if !AccountAt(w.reg, caller).active then r == Revert(AccountNotActive)
            else if batchId !in p.batches || p.batches[batchId].owner == ZERO_ADDRESS
                    || p.batches[batchId].normalisedBalance <= p.outPayment then r == Revert(BatchNotLive)
            else if p.batches[batchId].depth <= cfg.minimumBucketDepth then r == Revert(BatchDepthTooSmall)
            else
              var id, b := Keccak(caller, AccountAt(w.reg, caller).nonce), p.batches[batchId];
              && r.Ok? && r.value.1 == id
              && r.value.0.env == EmitEnv(w.env, VolumeImported(id, caller, batchId, b.owner, b.depth, ttlExpiry,
                                                                b.normalisedBalance))
              && VolumeAt(r.value.0.reg, id) == Volume(caller, b.owner, batchId, w.env.clock.now % U64, ttlExpiry, b.depth,
                                                       Active, |w.reg.active| % U32)
  {
    InvFields(cfg, w);
    hide Inv, IndexInv, IdInv, RecordInv;
    NoCollision(w.reg, caller);
  }

  // ----- ending ------------------------------------------------------------------

  /** A delete goes through exactly for the owner of an Active volume, and retires it; anyone else is refused first. */
  lemma DeletesExactlyWhen(cfg: Config, w: World, caller: Addr, id: Bytes32)
    requires Inv(cfg, w)
    ensures var r, v := DeleteVolume(w, caller, id), VolumeAt(w.reg, id);
            if v.owner != caller then r == Revert(NotVolumeOwner)
            else if v.status != Active then r == Revert(VolumeNotActive)
            else r.Ok? && VolumeAt(r.value.reg, id).status == Retired
                 && r.value.env == EmitEnv(w.env, VolumeRetired(id, OwnerDeleted))
  {
    InvFields(cfg, w);
    hide Inv, IndexInv, IdInv, RecordInv, Retire;
    if VolumeAt(w.reg, id).status == Active {
      RetireEffect(w, id, OwnerDeleted);
    }
  }

  /** A reap by anyone retires exactly an Active volume at or past its expiry, and is otherwise a no-op. */
  lemma ReapsExactlyWhen(cfg: Config, w: World, id: Bytes32)
    requires Inv(cfg, w)
    ensures var r, v := Reap(w, id), VolumeAt(w.reg, id);
            && r.Ok?
            && if v.status == Active && v.ttlExpiry != 0 && v.ttlExpiry <= w.env.clock.now
               then VolumeAt(r.value.reg, id).status == Retired
                    && r.value.env == EmitEnv(w.env, VolumeRetired(id, VolumeExpired))
               else r.value == w
  {
    InvFields(cfg, w);
    hide Inv, IndexInv, IdInv, RecordInv, Retire;
    if VolumeAt(w.reg, id).status == Active {
      RetireEffect(w, id, VolumeExpired);
    }
  }
}
