/** The keeper's calls: they never revert on volume, account or payer state, and charge exactly the formula. */
module Trigger {
  import opened Machine
  import opened Chain
  import opened RegistrySpec
  import opened Effects
  import opened History
  import opened Invariants
  import opened Steps

  // ----- what one trigger writes -------------------------------------------

  /** A trigger adds no volume and changes no account; among the records only `id`'s status can change. */
  ghost predicate TriggerFrame(reg: Registry, id: Bytes32, reg': Registry) {
    && reg'.accounts == reg.accounts && reg'.designated == reg.designated && reg'.nextNonce == reg.nextNonce
    && (forall other :: SameIdentity(VolumeAt(reg, other), VolumeAt(reg', other)))
    && (forall other :: other != id ==> VolumeAt(reg', other).status == VolumeAt(reg, other).status)
  }

  /** The rows a trigger appends, decided by its outcome alone, and all about `id`. */
  ghost predicate TriggerRows(cfg: Config, w: World, id: Bytes32, w': World, outcome: TriggerOutcome) {
    var d := Decide(cfg, w, id);
    match outcome
    case RetiredNow => d.Drop? && w'.env == EmitEnv(w.env, VolumeRetired(id, d.retireReason))
    case Skipped => d.Skip? && w' == Emit(w, TopupSkipped(id, d.skipReason))
    case NoDeficit => d.Enough? && w' == w
    case ToppedUp => d.Pay? && Outsider(cfg, d.payer) && PayEffect(cfg, w, id, d.payer, d.deficit, d.amount, w')
  }

  lemma TriggerWrites(cfg: Config, w: World, id: Bytes32)
    requires Inv(cfg, w) && TriggerOne(cfg, w, id).Ok?
    ensures var (w', outcome) := TriggerOne(cfg, w, id).value;
            && TriggerFrame(w.reg, id, w'.reg)
            && TriggerRows(cfg, w, id, w', outcome)
            && (outcome == RetiredNow ==> Retires(w.reg, id, w'.reg))
  {
    hide Inv, PaidThrough, IndexInv, IdInv, RecordInv, Retire, Retires, PayEffect, PayDeficit, CanPull;
    InvFields(cfg, w);
    match Decide(cfg, w, id)
    case Skip(_) =>
    case Drop(reason) => RetireEffect(w, id, reason);
    case Enough =>
    case Pay(payer, deficit, amount) => PayWrites(cfg, w, id);
  }

  lemma PayWrites(cfg: Config, w: World, id: Bytes32)
    requires Inv(cfg, w) && Decide(cfg, w, id).Pay?
    requires var Pay(payer, deficit, amount) := Decide(cfg, w, id); PayDeficit(cfg, w, id, payer, deficit, amount).Ok?
    ensures var Pay(payer, deficit, amount) := Decide(cfg, w, id);
            PayEffect(cfg, w, id, payer, deficit, amount, PayDeficit(cfg, w, id, payer, deficit, amount).value)
            && Outsider(cfg, payer)
  {
    PaidGood(cfg, w, id);
    PayDecision(cfg, w, id);
  }

  // ----- charge correctness -------------------------------------------------

  /** The charge the design allows for one trigger: the shortfall against the target runway, for every chunk. */
  function FormulaCharge(cfg: Config, p: Postage, v: Volume): nat
    requires Live(p, v.batchId)
  {
    (if Target(cfg, p) > Remaining(p, v.batchId) then Target(cfg, p) - Remaining(p, v.batchId) else 0) * Pow2(v.depth)
  }

  /** Only a top-up moves BZZ; it takes the formula's charge from the current payer and fills the batch to the target. */
  lemma ChargeIsTheFormula(cfg: Config, w: World, id: Bytes32)
    requires Inv(cfg, w) && TriggerOne(cfg, w, id).Ok?
    ensures var (w', outcome) := TriggerOne(cfg, w, id).value;
            var v := VolumeAt(w.reg, id);
            var p, p' := w.env.postage, w'.env.postage;
            if outcome == ToppedUp then
              && v.status == Active && Live(p, v.batchId) && Live(p', v.batchId)
              && AccountAt(w.reg, v.owner).active
              && FormulaCharge(cfg, p, v) > 0
              && PaidThrough(cfg, w.env.token, w'.env.token, AccountAt(w.reg, v.owner).payer, FormulaCharge(cfg, p, v))
              && p' == RaisedBy(p, v.batchId, Target(cfg, p) - Remaining(p, v.batchId))
              && Remaining(p', v.batchId) == Target(cfg, p)
            else
              w'.env.token == w.env.token && p' == p
  {
    TriggerWrites(cfg, w, id);
    assert RecordInv(cfg, w.reg);
    hide Inv, TriggerOne, TriggerFrame, Decide, PayEffect, Retires, RecordInv;
    if Decide(cfg, w, id).Pay? {
      PaymentIsTheFormula(cfg, w, id, TriggerOne(cfg, w, id).value.0);
    }
  }

  lemma PaymentIsTheFormula(cfg: Config, w: World, id: Bytes32, w': World)
    requires RecordInv(cfg, w.reg) && Decide(cfg, w, id).Pay?
    requires var Pay(payer, deficit, amount) := Decide(cfg, w, id); PayEffect(cfg, w, id, payer, deficit, amount, w')
    ensures var v := VolumeAt(w.reg, id);
            var p, p' := w.env.postage, w'.env.postage;
            && v.status == Active && Live(p, v.batchId) && Live(p', v.batchId)
            && AccountAt(w.reg, v.owner).active
            && FormulaCharge(cfg, p, v) > 0 && Decide(cfg, w, id).amount == FormulaCharge(cfg, p, v)
            && PaidThrough(cfg, w.env.token, w'.env.token, AccountAt(w.reg, v.owner).payer, FormulaCharge(cfg, p, v))
            && p' == RaisedBy(p, v.batchId, Target(cfg, p) - Remaining(p, v.batchId))
            && Remaining(p', v.batchId) == Target(cfg, p)
  {
    PayDecision(cfg, w, id);
    hide RecordInv, Decide, PaidThrough;
    assert Pow2(VolumeAt(w.reg, id).depth) * 1 > 0;
    MulMono(1, Decide(cfg, w, id).deficit, Pow2(VolumeAt(w.reg, id).depth));
  }

  // ----- totality -----------------------------------------------------------

  /** The machine's own limits: a uint64 price, room for a target above the total out-payment, 256-bit allowances,
      depths up to 128. */
  ghost predicate WithinLimits(w: World) {
    && w.env.postage.lastPrice < U64
    && w.env.postage.outPayment + U128 <= U256
    && (forall holder, spender :: Allowance(w.env.token, holder, spender) <= MAX_UINT256)
    && forall id :: VolumeAt(w.reg, id).depth <= 128
  }

  /** PostageStamp or the token is paused, or PostageStamp's floor has been raised above the registry's runway. */
  predicate OutOfService(cfg: Config, w: World) {
    w.env.postage.paused || w.env.token.paused || w.env.postage.minimumValidityBlocks > cfg.graceBlocks
  }

  /** What stops a payment that the precheck let through: the system out of service, or an expired unlimited permit on a
      deployment that does not read expiries. */
  predicate Blocked(cfg: Config, w: World, payer: Addr) {
    OutOfService(cfg, w) || PermitExpired(w.env.token, w.env.clock.now, payer, cfg.registry)
  }

  /** The trigger of this id would pay, and could not. */
  predicate WouldFail(cfg: Config, w: World, id: Bytes32) {
    Decide(cfg, w, id).Pay? && Blocked(cfg, w, Decide(cfg, w, id).payer)
  }

  lemma PayRevertsExactlyWhen(cfg: Config, w: World, id: Bytes32)
    requires Inv(cfg, w) && WithinLimits(w) && Decide(cfg, w, id).Pay?
    ensures var Pay(payer, deficit, amount) := Decide(cfg, w, id);
            PayDeficit(cfg, w, id, payer, deficit, amount).Revert? <==> Blocked(cfg, w, payer)
  {
    var Pay(payer, deficit, amount) := Decide(cfg, w, id);
    var p, v := w.env.postage, VolumeAt(w.reg, id);
    PayDecision(cfg, w, id);
    assert v.depth > cfg.minimumBucketDepth;
    hide Inv, WithinLimits, Decide;
    ProductOfUint64(p.lastPrice, cfg.graceBlocks);
    ShlIsExact(deficit, v.depth);
    NeverUnlimited(deficit, v.depth);
    TopUpFloor(p.minimumValidityBlocks, cfg.graceBlocks, p.lastPrice);
    if !w.env.token.paused {
      CanPullIsExact(cfg, w.env, payer, amount);
      if !PermitExpired(w.env.token, w.env.clock.now, payer, cfg.registry) {
        ForwardSucceeds(cfg, w.env.token, w.env.clock.now, payer, amount);
      }
    }
  }

  lemma TopUpFloor(floor: nat, grace: nat, price: nat)
    requires price > 0
    ensures price * grace < floor * price <==> floor > grace
  {
    if floor > grace {
      MulMono(grace + 1, floor, price);
    } else {
      MulMono(floor, grace, price);
    }
  }

  /** A trigger that has nothing to pay goes through and moves no BZZ. */
  lemma UnpaidGoesThrough(cfg: Config, w: World, id: Bytes32)
    requires IndexInv(w.reg) && !Decide(cfg, w, id).Pay?
    ensures TriggerOne(cfg, w, id).Ok?
    ensures var w' := TriggerOne(cfg, w, id).value.0;
            w'.env.token == w.env.token && w'.env.postage == w.env.postage
  {
    hide Retire, IndexInv;
    match Decide(cfg, w, id)
    case Skip(_) =>
    case Drop(reason) => RetireEffect(w, id, reason);
    case Enough =>
  }

  /** A trigger reverts exactly when it would pay and is blocked: no other volume, account or payer state ever makes it
      revert. */
  lemma TriggerRevertsExactlyWhen(cfg: Config, w: World, id: Bytes32)
    requires Inv(cfg, w) && WithinLimits(w)
    ensures TriggerOne(cfg, w, id).Revert? <==> WouldFail(cfg, w, id)
  {
    hide Inv, WithinLimits, IndexInv, IdInv, RecordInv, Decide, TriggerOne, PayDeficit, Blocked;
    if Decide(cfg, w, id).Pay? {
      PayRevertsExactlyWhen(cfg, w, id);
      DuePays(cfg, w, id);
    } else {
      InvFields(cfg, w);
      UnpaidGoesThrough(cfg, w, id);
    }
  }

  lemma DuePays(cfg: Config, w: World, id: Bytes32)
    requires Decide(cfg, w, id).Pay?
    ensures var Pay(payer, deficit, amount) := Decide(cfg, w, id);
            TriggerOne(cfg, w, id).Revert? <==> PayDeficit(cfg, w, id, payer, deficit, amount).Revert?
  {
    hide Decide, PayDeficit, Retire;
  }

  /** No trigger unblocks or blocks a payer, or leaves the machine's limits. */
  lemma TriggerKeepsService(cfg: Config, w: World, id: Bytes32, payer: Addr)
    requires Inv(cfg, w) && WithinLimits(w) && TriggerOne(cfg, w, id).Ok? && Outsider(cfg, payer)
    ensures var w' := TriggerOne(cfg, w, id).value.0;
            WithinLimits(w') && (Blocked(cfg, w', payer) <==> Blocked(cfg, w, payer))
  {
    var (w', outcome) := TriggerOne(cfg, w, id).value;
    TriggerWrites(cfg, w, id);
    hide Inv, TriggerOne, TriggerFrame, TriggerRows, Retires, Decide, WithinLimits, Blocked;
    if outcome == ToppedUp {
      PaymentsArePositive(cfg, w, id);
    }
    RowsKeepService(cfg, w, id, w', outcome, payer);
  }

  lemma RowsKeepService(cfg: Config, w: World, id: Bytes32, w': World, outcome: TriggerOutcome, payer: Addr)
    requires TriggerFrame(w.reg, id, w'.reg) && TriggerRows(cfg, w, id, w', outcome) && WithinLimits(w)
    requires outcome == ToppedUp ==> Decide(cfg, w, id).Pay? && Decide(cfg, w, id).amount > 0
    requires Outsider(cfg, payer)
    ensures WithinLimits(w') && (Blocked(cfg, w', payer) <==> Blocked(cfg, w, payer))
  {
    hide Decide, PermitExpired;
    forall other
      ensures VolumeAt(w'.reg, other).depth <= 128
    {
      assert SameIdentity(VolumeAt(w.reg, other), VolumeAt(w'.reg, other));
    }
    if outcome == ToppedUp {
      PaymentKeepsPermits(cfg, w, id, w', payer);
      forall holder, spender
        ensures Allowance(w'.env.token, holder, spender) <= MAX_UINT256
      {
        assert Allowance(w'.env.token, holder, spender) <= Allowance(w.env.token, holder, spender);
      }
    }
  }

  lemma PaymentsArePositive(cfg: Config, w: World, id: Bytes32)
    requires Inv(cfg, w) && TriggerOne(cfg, w, id).Ok? && TriggerOne(cfg, w, id).value.1 == ToppedUp
    ensures Decide(cfg, w, id).Pay? && Decide(cfg, w, id).amount > 0
  {
    TriggerWrites(cfg, w, id);
    PayDecision(cfg, w, id);
    var v := VolumeAt(w.reg, id);
    hide Inv, Decide, PaidThrough;
    MulMono(1, Decide(cfg, w, id).deficit, Pow2(v.depth));
    assert Pow2(v.depth) * 1 > 0;
  }

  lemma PaymentKeepsPermits(cfg: Config, w: World, id: Bytes32, w': World, payer: Addr)
    requires TriggerRows(cfg, w, id, w', ToppedUp) && Outsider(cfg, payer)
    requires Allowance(w.env.token, payer, cfg.registry) <= MAX_UINT256 && Decide(cfg, w, id).amount > 0
    ensures PermitExpired(w'.env.token, w'.env.clock.now, payer, cfg.registry)
            <==> PermitExpired(w.env.token, w.env.clock.now, payer, cfg.registry)
  {
    hide Decide;
    assert Allowance(w'.env.token, payer, cfg.registry) == MAX_UINT256
           <==> Allowance(w.env.token, payer, cfg.registry) == MAX_UINT256;
  }

  lemma ReapNeverReverts(cfg: Config, w: World, id: Bytes32)
    requires Inv(cfg, w)
    ensures Reap(w, id).Ok?
  {
    hide Inv, IndexInv, IdInv, RecordInv, Reap;
    InvFields(cfg, w);
    ReapIsARetirement(w, id);
  }

  // ----- import -------------------------------------------------------------

  /** Right after registration only four decisions are possible; of the failures, only expiry and payment. */
  lemma AfterRegistration(cfg: Config, w: World, caller: Addr, batchId: Bytes32, ttlExpiry: nat)
    requires Inv(cfg, w) && RegisterVolume(cfg, w, caller, batchId, ttlExpiry).Ok?
    ensures var (w', id) := RegisterVolume(cfg, w, caller, batchId, ttlExpiry).value;
            var v := VolumeAt(w'.reg, id);
            && Records(w.reg, w.env.clock.now, caller, batchId, w.env.postage.batches[batchId].owner,
                       w.env.postage.batches[batchId].depth, ttlExpiry, w'.reg, id)
            && v == Volume(caller, w.env.postage.batches[batchId].owner, batchId, w.env.clock.now % U64, ttlExpiry,
                           w.env.postage.batches[batchId].depth, Active, |w.reg.active| % U32)
            && AccountAt(w'.reg, caller) == AccountAt(w.reg, caller).(nonce := (AccountAt(w.reg, caller).nonce + 1) % U64)
            && w'.env.postage == w.env.postage && w'.env.token == w.env.token
            && w'.env.clock.now == w.env.clock.now
            && var d := Decide(cfg, w', id); d == Drop(VolumeExpired) || d == Skip(PaymentFailed) || d.Enough? || d.Pay?
  {
    hide Inv, RegisterVolume, CanPull, Target;
    RegisterEffect(cfg, w, caller, batchId, ttlExpiry);
  }

  /** Topped up or already full, a triggered volume keeps its record and ends on a live batch at or above the target. */
  lemma FundedAfterTrigger(cfg: Config, w: World, id: Bytes32)
    requires Inv(cfg, w) && TriggerOne(cfg, w, id).Ok?
    ensures var (w', outcome) := TriggerOne(cfg, w, id).value;
            var v := VolumeAt(w.reg, id);
            outcome == ToppedUp || outcome == NoDeficit ==>
              && w'.reg == w.reg && v.status == Active
              && Live(w'.env.postage, v.batchId)
              && Remaining(w'.env.postage, v.batchId) >= Target(cfg, w'.env.postage)
              && w'.env.postage == w.env.postage.(batches := w'.env.postage.batches)
  {
    TriggerWrites(cfg, w, id);
    ChargeIsTheFormula(cfg, w, id);
    EnoughMeansFunded(cfg, w, id);
    hide Inv, TriggerOne, TriggerFrame, PaidThrough, Decide, FormulaCharge, Retires;
  }

  lemma EnoughMeansFunded(cfg: Config, w: World, id: Bytes32)
    ensures Decide(cfg, w, id).Enough? ==>
              && VolumeAt(w.reg, id).status == Active && Live(w.env.postage, VolumeAt(w.reg, id).batchId)
              && Remaining(w.env.postage, VolumeAt(w.reg, id).batchId) >= Target(cfg, w.env.postage)
  {
  }

  lemma ImportParts(cfg: Config, w: World, caller: Addr, batchId: Bytes32, ttlExpiry: nat)
    returns (registered: World, id: Bytes32)
    requires ImportVolume(cfg, w, caller, batchId, ttlExpiry).Ok?
    ensures RegisterVolume(cfg, w, caller, batchId, ttlExpiry) == Ok((registered, id))
    ensures TriggerOne(cfg, registered, id).Ok?
    ensures TriggerOne(cfg, registered, id).value.1 == ToppedUp || TriggerOne(cfg, registered, id).value.1 == NoDeficit
    ensures ImportVolume(cfg, w, caller, batchId, ttlExpiry) == Ok((TriggerOne(cfg, registered, id).value.0, id))
  {
    hide RegisterVolume, TriggerOne;
    registered := RegisterVolume(cfg, w, caller, batchId, ttlExpiry).value.0;
    id := RegisterVolume(cfg, w, caller, batchId, ttlExpiry).value.1;
  }

  /** A successful import leaves a fresh Active volume over a live batch holding at least the target, one nonce later. */
  lemma ImportedVolumeIsFunded(cfg: Config, w: World, caller: Addr, batchId: Bytes32, ttlExpiry: nat)
    requires Inv(cfg, w) && Outsider(cfg, caller) && HasRoom(w, caller)
    requires ImportVolume(cfg, w, caller, batchId, ttlExpiry).Ok?
    ensures var (w', id) := ImportVolume(cfg, w, caller, batchId, ttlExpiry).value;
            var v := VolumeAt(w'.reg, id);
            && VolumeAt(w.reg, id).status == Absent && id == Keccak(caller, AccountAt(w.reg, caller).nonce)
            && v.status == Active && v.owner == caller && v.batchId == batchId
            && AccountAt(w'.reg, caller).nonce == AccountAt(w.reg, caller).nonce + 1
            && Live(w'.env.postage, batchId)
            && Remaining(w'.env.postage, batchId) >= Target(cfg, w'.env.postage)
  {
    hide RegisterVolume, ImportVolume, TriggerOne, Decide, Inv, Keeps;
    var registered, id := ImportParts(cfg, w, caller, batchId, ttlExpiry);
    AfterRegistration(cfg, w, caller, batchId, ttlExpiry);
    RegisterGood(cfg, w, caller, batchId, ttlExpiry);
    FundedAfterTrigger(cfg, registered, id);
  }

  /** An import succeeds exactly when the caller's account is active, the batch is live and deep enough, the expiry is
      not already past, and either there is no shortfall or the payer can cover it and is not blocked. */
  lemma ImportSucceedsExactlyWhen(cfg: Config, w: World, caller: Addr, batchId: Bytes32, ttlExpiry: nat)
    requires Inv(cfg, w) && Outsider(cfg, caller) && HasRoom(w, caller)
    requires WithinLimits(w)
    requires Live(w.env.postage, batchId) ==> w.env.postage.batches[batchId].depth <= 128
    ensures ImportVolume(cfg, w, caller, batchId, ttlExpiry).Ok? <==>
            && AccountAt(w.reg, caller).active
            && Live(w.env.postage, batchId) && w.env.postage.batches[batchId].depth > cfg.minimumBucketDepth
            && !(ttlExpiry != 0 && w.env.clock.now >= ttlExpiry)
            && (Remaining(w.env.postage, batchId) >= Target(cfg, w.env.postage)
                || (&& !Blocked(cfg, w, AccountAt(w.reg, caller).payer)
                    && CanPull(cfg, w.env, AccountAt(w.reg, caller).payer,
                               Shl(Target(cfg, w.env.postage) - Remaining(w.env.postage, batchId),
                                   w.env.postage.batches[batchId].depth))))
  {
    hide RegisterVolume, TriggerOne, Inv, Keeps;
    RegistersExactlyWhen(cfg, w, caller, batchId, ttlExpiry);
    if RegisterVolume(cfg, w, caller, batchId, ttlExpiry).Ok? {
      var (registered, id) := RegisterVolume(cfg, w, caller, batchId, ttlExpiry).value;
      AfterRegistration(cfg, w, caller, batchId, ttlExpiry);
      RegisterGood(cfg, w, caller, batchId, ttlExpiry);
      forall other
        ensures VolumeAt(registered.reg, other).depth <= 128
      {
        assert other != id ==> VolumeAt(registered.reg, other) == VolumeAt(w.reg, other);
      }
      TriggerRevertsExactlyWhen(cfg, registered, id);
      OutcomeFollowsDecision(cfg, registered, id);
    }
  }

  lemma RegistersExactlyWhen(cfg: Config, w: World, caller: Addr, batchId: Bytes32, ttlExpiry: nat)
    requires Inv(cfg, w)
    ensures RegisterVolume(cfg, w, caller, batchId, ttlExpiry).Ok? <==>
            && AccountAt(w.reg, caller).active
            && Live(w.env.postage, batchId) && w.env.postage.batches[batchId].depth > cfg.minimumBucketDepth
  {
    NoCollision(w.reg, caller);
  }

  lemma OutcomeFollowsDecision(cfg: Config, w: World, id: Bytes32)
    ensures TriggerOne(cfg, w, id).Ok? ==>
              var outcome := TriggerOne(cfg, w, id).value.1;
              && (outcome == ToppedUp <==> Decide(cfg, w, id).Pay?)
              && (outcome == NoDeficit <==> Decide(cfg, w, id).Enough?)
  {
  }

  // ----- ids ----------------------------------------------------------------

  /** The id an owner's next creating call derives has never been issued: the collision check cannot fire. */
  lemma NoCollision(reg: Registry, caller: Addr)
    requires IdInv(reg)
    ensures VolumeAt(reg, Keccak(caller, AccountAt(reg, caller).nonce)).status == Absent
  {
  }

  predicate IsCreating(call: Call) {
    call.CallCreate? || call.CallRegister? || call.CallImport?
  }

  lemma {:induction false} TriggersKeepAccounts(cfg: Config, w: World, ids: seq<Bytes32>)
    requires Inv(cfg, w) && TriggerMany(cfg, w, ids).Ok?
    ensures TriggerMany(cfg, w, ids).value.reg.accounts == w.reg.accounts
    decreases |ids|
  {
    if ids != [] {
      var init := ids[..|ids| - 1];
      TriggersKeepAccounts(cfg, w, init);
      TriggerManyGood(cfg, w, init);
      TriggerKeepsAccounts(cfg, TriggerMany(cfg, w, init).value, ids[|ids| - 1]);
    }
  }

  lemma TriggerKeepsAccounts(cfg: Config, w: World, id: Bytes32)
    requires Inv(cfg, w) && TriggerOne(cfg, w, id).Ok?
    ensures TriggerOne(cfg, w, id).value.0.reg.accounts == w.reg.accounts
  {
    hide Inv, TriggerOne, TriggerRows, Retires;
    TriggerWrites(cfg, w, id);
  }

  lemma RetireKeepsAccounts(w: World, id: Bytes32, reason: RetireReason)
    requires IndexInv(w.reg) && VolumeAt(w.reg, id).status == Active
    ensures Retire(w, id, reason).Ok? && Retire(w, id, reason).value.reg.accounts == w.reg.accounts
  {
    RetireEffect(w, id, reason);
  }

  lemma PayersAreOutsiders(cfg: Config, w: World, owner: Addr)
    requires Inv(cfg, w)
    ensures ValidConfig(cfg) && (AccountAt(w.reg, owner).active ==> Outsider(cfg, AccountAt(w.reg, owner).payer))
  {
  }

  lemma CreationTakesOneNonce(cfg: Config, w: World, caller: Addr, chunkSigner: Addr, depth: nat, bucketDepth: nat,
                              ttlExpiry: nat, owner: Addr)
    requires Inv(cfg, w) && HasRoom(w, caller)
    requires CreateVolume(cfg, w, caller, chunkSigner, depth, bucketDepth, ttlExpiry).Ok?
    ensures AccountAt(CreateVolume(cfg, w, caller, chunkSigner, depth, bucketDepth, ttlExpiry).value.0.reg, owner).nonce ==
            AccountAt(w.reg, owner).nonce + if owner == caller then 1 else 0
  {
    hide Inv, CreateVolume, Mints, Records, Outsider, ValidConfig;
    PayersAreOutsiders(cfg, w, caller);
    var minted, batchId := CreateVolumeEffect(cfg, w, caller, chunkSigner, depth, bucketDepth, ttlExpiry);
    var (w', id) := CreateVolume(cfg, w, caller, chunkSigner, depth, bucketDepth, ttlExpiry).value;
    RecordTakesOneNonce(minted.reg, w.env.clock.now, caller, batchId, chunkSigner, depth, ttlExpiry, w'.reg, id, owner);
  }

  lemma RecordTakesOneNonce(reg: Registry, now: nat, caller: Addr, batchId: Bytes32, chunkSigner: Addr, depth: nat,
                            ttlExpiry: nat, reg': Registry, id: Bytes32, owner: Addr)
    requires Records(reg, now, caller, batchId, chunkSigner, depth, ttlExpiry, reg', id)
    requires AccountAt(reg, caller).nonce + 1 < U64
    ensures AccountAt(reg', owner).nonce == AccountAt(reg, owner).nonce + if owner == caller then 1 else 0
  {
    var n := AccountAt(reg, caller).nonce;
    assert (n + 1) % U64 == n + 1;
  }

  lemma RegistrationTakesOneNonce(cfg: Config, w: World, caller: Addr, batchId: Bytes32, ttlExpiry: nat, owner: Addr)
    requires HasRoom(w, caller) && RegisterVolume(cfg, w, caller, batchId, ttlExpiry).Ok?
    ensures AccountAt(RegisterVolume(cfg, w, caller, batchId, ttlExpiry).value.0.reg, owner).nonce ==
            AccountAt(w.reg, owner).nonce + if owner == caller then 1 else 0
  {
    hide RegisterVolume, Records;
    RegisterEffect(cfg, w, caller, batchId, ttlExpiry);
    var (w', id) := RegisterVolume(cfg, w, caller, batchId, ttlExpiry).value;
    var b := w.env.postage.batches[batchId];
    RecordTakesOneNonce(w.reg, w.env.clock.now, caller, batchId, b.owner, b.depth, ttlExpiry, w'.reg, id, owner);
  }

  lemma ImportTakesOneNonce(cfg: Config, w: World, caller: Addr, batchId: Bytes32, ttlExpiry: nat, owner: Addr)
    requires Inv(cfg, w) && Outsider(cfg, caller) && HasRoom(w, caller)
    requires ImportVolume(cfg, w, caller, batchId, ttlExpiry).Ok?
    ensures AccountAt(ImportVolume(cfg, w, caller, batchId, ttlExpiry).value.0.reg, owner).nonce ==
            AccountAt(w.reg, owner).nonce + if owner == caller then 1 else 0
  {
    hide Inv, RegisterVolume, TriggerOne, ImportVolume, Decide, Keeps, Outsider;
    var registered, id := ImportParts(cfg, w, caller, batchId, ttlExpiry);
    RegistrationTakesOneNonce(cfg, w, caller, batchId, ttlExpiry, owner);
    RegisterGood(cfg, w, caller, batchId, ttlExpiry);
    TriggerKeepsAccounts(cfg, registered, id);
  }

  lemma CreatingCallTakesOneNonce(cfg: Config, w: World, caller: Addr, call: Call, owner: Addr)
    requires Inv(cfg, w) && Outsider(cfg, caller) && HasRoom(w, caller) && IsCreating(call)
    requires Exec(cfg, w, caller, call).Ok?
    ensures AccountAt(Exec(cfg, w, caller, call).value.reg, owner).nonce ==
            AccountAt(w.reg, owner).nonce + if owner == caller then 1 else 0
  {
    hide Inv, CreateVolume, RegisterVolume, ImportVolume, Decide, HasRoom, Outsider;
    match call
    case CallCreate(signer, depth, bucketDepth, ttl) =>
      CreationTakesOneNonce(cfg, w, caller, signer, depth, bucketDepth, ttl, owner);
    case CallRegister(batchId, ttl) => RegistrationTakesOneNonce(cfg, w, caller, batchId, ttl, owner);
    case CallImport(batchId, ttl) => ImportTakesOneNonce(cfg, w, caller, batchId, ttl, owner);
  }

  lemma AccountCallTakesNoNonce(cfg: Config, w: World, caller: Addr, call: Call, owner: Addr)
    requires call.CallDesignate? || call.CallConfirmAuth? || call.CallRevoke?
    requires Exec(cfg, w, caller, call).Ok?
    ensures AccountAt(Exec(cfg, w, caller, call).value.reg, owner).nonce == AccountAt(w.reg, owner).nonce
    ensures Exec(cfg, w, caller, call).value.reg.volumes == w.reg.volumes
  {
    hide TriggerOne, TriggerMany, CreateVolume, RegisterVolume, ImportVolume, DeleteVolume, Reap;
  }

  lemma ReapIsARetirement(w: World, id: Bytes32)
    requires IndexInv(w.reg)
    ensures Reap(w, id).Ok?
    ensures Reap(w, id).value == w
            || (VolumeAt(w.reg, id).status == Active && Retire(w, id, VolumeExpired) == Ok(Reap(w, id).value))
  {
    if VolumeAt(w.reg, id).status == Active {
      RetireEffect(w, id, VolumeExpired);
    }
    hide Retire;
  }

  lemma DeleteIsARetirement(w: World, caller: Addr, id: Bytes32)
    requires DeleteVolume(w, caller, id).Ok?
    ensures VolumeAt(w.reg, id).status == Active && Retire(w, id, OwnerDeleted) == DeleteVolume(w, caller, id)
  {
    hide Retire;
  }

  lemma OtherCallTakesNoNonce(cfg: Config, w: World, caller: Addr, call: Call, owner: Addr)
    requires Inv(cfg, w) && !IsCreating(call) && Exec(cfg, w, caller, call).Ok?
    ensures AccountAt(Exec(cfg, w, caller, call).value.reg, owner).nonce == AccountAt(w.reg, owner).nonce
  {
    hide Inv, TriggerOne, TriggerMany, Retire, IndexInv, IdInv, RecordInv, DeleteVolume, Reap, Designate, ConfirmAuth,
         Revoke, CreateVolume, RegisterVolume, ImportVolume;
    InvFields(cfg, w);
    match call
    case CallDelete(id) =>
      DeleteIsARetirement(w, caller, id);
      RetireKeepsAccounts(w, id, OwnerDeleted);
    case CallTrigger(id) => TriggerKeepsAccounts(cfg, w, id);
    case CallTriggerMany(ids) => TriggersKeepAccounts(cfg, w, ids);
    case CallReap(id) =>
      ReapIsARetirement(w, id);
      if VolumeAt(w.reg, id).status == Active {
        RetireKeepsAccounts(w, id, VolumeExpired);
      }
    case _ => AccountCallTakesNoNonce(cfg, w, caller, call, owner);
  }

  /** A nonce moves only by its owner's own successful creating call, and then by one: no other call, and no other
      caller, changes the next id an owner will get. */
  lemma NonceCountsCreatingCalls(cfg: Config, w: World, caller: Addr, call: Call, owner: Addr)
    requires Inv(cfg, w) && Outsider(cfg, caller) && HasRoom(w, caller)
    ensures AccountAt(Apply(cfg, w, caller, call).reg, owner).nonce ==
            AccountAt(w.reg, owner).nonce
            + if owner == caller && IsCreating(call) && Exec(cfg, w, caller, call).Ok? then 1 else 0
  {
    hide Inv, Exec, IsCreating, HasRoom, Outsider;
    if Exec(cfg, w, caller, call).Ok? {
      if IsCreating(call) {
        CreatingCallTakesOneNonce(cfg, w, caller, call, owner);
      } else {
        OtherCallTakesNoNonce(cfg, w, caller, call, owner);
      }
    }
  }

  // ----- non-interference ---------------------------------------------------

  /** The volumes a call is about. A creating call is about the one it makes, which had no record before. */
  predicate About(call: Call, id: Bytes32) {
    match call
    case CallDelete(target) => id == target
    case CallTrigger(target) => id == target
    case CallReap(target) => id == target
    case CallTriggerMany(ids) => id in ids
    case _ => false
  }

  predicate Untouched(reg: Registry, reg': Registry, id: Bytes32) {
    VolumeAt(reg', id) == VolumeAt(reg, id).(activeIndex := VolumeAt(reg', id).activeIndex)
  }

  lemma {:induction false} TriggersTouchOnlyTheirs(cfg: Config, w: World, ids: seq<Bytes32>, other: Bytes32)
    requires Inv(cfg, w) && TriggerMany(cfg, w, ids).Ok? && other !in ids
    ensures Untouched(w.reg, TriggerMany(cfg, w, ids).value.reg, other)
    decreases |ids|
  {
    hide Inv, TriggerOne, TriggerRows, Retires, Keeps;
    if ids != [] {
      var init, last := ids[..|ids| - 1], ids[|ids| - 1];
      TriggersTouchOnlyTheirs(cfg, w, init, other);
      TriggerManyGood(cfg, w, init);
      var mid := TriggerMany(cfg, w, init).value;
      TriggerWrites(cfg, mid, last);
      assert SameIdentity(VolumeAt(mid.reg, other), VolumeAt(TriggerMany(cfg, w, ids).value.reg, other));
    }
  }

  lemma ImportTouchesOnlyItsOwn(cfg: Config, w: World, caller: Addr, batchId: Bytes32, ttlExpiry: nat, other: Bytes32)
    requires Inv(cfg, w) && Outsider(cfg, caller) && HasRoom(w, caller) && VolumeAt(w.reg, other).status != Absent
    requires ImportVolume(cfg, w, caller, batchId, ttlExpiry).Ok?
    ensures Untouched(w.reg, ImportVolume(cfg, w, caller, batchId, ttlExpiry).value.0.reg, other)
  {
    hide RegisterVolume, ImportVolume, TriggerOne, TriggerMany, Decide, Inv, Keeps;
    var registered, id := ImportParts(cfg, w, caller, batchId, ttlExpiry);
    AfterRegistration(cfg, w, caller, batchId, ttlExpiry);
    RegisterGood(cfg, w, caller, batchId, ttlExpiry);
    TriggerOneAsMany(cfg, registered, id);
    assert VolumeAt(registered.reg, other) == VolumeAt(w.reg, other);
    TriggersTouchOnlyTheirs(cfg, registered, [id], other);
  }

  lemma CreatingCallTouchesNoOther(cfg: Config, w: World, caller: Addr, call: Call, other: Bytes32)
    requires Inv(cfg, w) && Outsider(cfg, caller) && HasRoom(w, caller) && IsCreating(call)
    requires VolumeAt(w.reg, other).status != Absent && Exec(cfg, w, caller, call).Ok?
    ensures Untouched(w.reg, Exec(cfg, w, caller, call).value.reg, other)
  {
    hide Inv, CreateVolume, RegisterVolume, ImportVolume, Untouched, HasRoom, Outsider;
    match call
    case CallCreate(signer, depth, bucketDepth, ttl) =>
      CreateTouchesOnlyItsOwn(cfg, w, caller, signer, depth, bucketDepth, ttl, other);
    case CallRegister(batchId, ttl) => RegisterTouchesOnlyItsOwn(cfg, w, caller, batchId, ttl, other);
    case CallImport(batchId, ttl) => ImportTouchesOnlyItsOwn(cfg, w, caller, batchId, ttl, other);
  }

  lemma OtherCallTouchesNoOther(cfg: Config, w: World, caller: Addr, call: Call, other: Bytes32)
    requires Inv(cfg, w) && !IsCreating(call) && !About(call, other) && Exec(cfg, w, caller, call).Ok?
    ensures Untouched(w.reg, Exec(cfg, w, caller, call).value.reg, other)
  {
    hide Inv, TriggerOne, TriggerMany, Retire, IndexInv, IdInv, RecordInv, DeleteVolume, Reap, Designate, ConfirmAuth,
         Revoke, CreateVolume, RegisterVolume, ImportVolume;
    InvFields(cfg, w);
    match call
    case CallDelete(id) =>
      DeleteIsARetirement(w, caller, id);
      RetireTouchesOnlyItsOwn(w, id, OwnerDeleted, other);
    case CallTrigger(id) =>
      TriggerOneAsMany(cfg, w, id);
      TriggersTouchOnlyTheirs(cfg, w, [id], other);
    case CallTriggerMany(ids) => TriggersTouchOnlyTheirs(cfg, w, ids, other);
    case CallReap(id) =>
      ReapIsARetirement(w, id);
      if VolumeAt(w.reg, id).status == Active {
        RetireTouchesOnlyItsOwn(w, id, VolumeExpired, other);
      }
    case _ => AccountCallTakesNoNonce(cfg, w, caller, call, caller);
  }

  /** No call changes a recorded volume it is not about, except for its position in the swap-and-pop index. */
  lemma OtherVolumesUntouched(cfg: Config, w: World, caller: Addr, call: Call, other: Bytes32)
    requires Inv(cfg, w) && Outsider(cfg, caller) && HasRoom(w, caller)
    requires VolumeAt(w.reg, other).status != Absent && !About(call, other)
    ensures Untouched(w.reg, Apply(cfg, w, caller, call).reg, other)
  {
    hide Inv, Exec, IsCreating, About, HasRoom, Outsider;
    if Exec(cfg, w, caller, call).Ok? {
      if IsCreating(call) {
        CreatingCallTouchesNoOther(cfg, w, caller, call, other);
      } else {
        OtherCallTouchesNoOther(cfg, w, caller, call, other);
      }
    }
  }

  lemma RetireTouchesOnlyItsOwn(w: World, id: Bytes32, reason: RetireReason, other: Bytes32)
    requires IndexInv(w.reg) && VolumeAt(w.reg, id).status == Active && other != id
    ensures Retire(w, id, reason).Ok? && Untouched(w.reg, Retire(w, id, reason).value.reg, other)
  {
    RetireEffect(w, id, reason);
  }

  lemma RecordTouchesOnlyItsOwn(reg: Registry, now: nat, caller: Addr, batchId: Bytes32, chunkSigner: Addr, depth: nat,
                                ttlExpiry: nat, reg': Registry, id: Bytes32, other: Bytes32)
    requires Records(reg, now, caller, batchId, chunkSigner, depth, ttlExpiry, reg', id)
    requires VolumeAt(reg, other).status != Absent
    ensures VolumeAt(reg', other) == VolumeAt(reg, other)
  {
  }

  lemma CreateTouchesOnlyItsOwn(cfg: Config, w: World, caller: Addr, chunkSigner: Addr, depth: nat, bucketDepth: nat,
                                ttlExpiry: nat, other: Bytes32)
    requires Inv(cfg, w) && VolumeAt(w.reg, other).status != Absent
    requires CreateVolume(cfg, w, caller, chunkSigner, depth, bucketDepth, ttlExpiry).Ok?
    ensures Untouched(w.reg, CreateVolume(cfg, w, caller, chunkSigner, depth, bucketDepth, ttlExpiry).value.0.reg, other)
  {
    PayersAreOutsiders(cfg, w, caller);
    hide CreateVolume, Mints, Inv, Records;
    var minted, batchId := CreateVolumeEffect(cfg, w, caller, chunkSigner, depth, bucketDepth, ttlExpiry);
    var (w', id) := CreateVolume(cfg, w, caller, chunkSigner, depth, bucketDepth, ttlExpiry).value;
    RecordTouchesOnlyItsOwn(minted.reg, w.env.clock.now, caller, batchId, chunkSigner, depth, ttlExpiry, w'.reg, id, other);
  }

  lemma RegisterTouchesOnlyItsOwn(cfg: Config, w: World, caller: Addr, batchId: Bytes32, ttlExpiry: nat, other: Bytes32)
    requires Inv(cfg, w) && VolumeAt(w.reg, other).status != Absent
    requires RegisterVolume(cfg, w, caller, batchId, ttlExpiry).Ok?
    ensures Untouched(w.reg, RegisterVolume(cfg, w, caller, batchId, ttlExpiry).value.0.reg, other)
  {
    hide RegisterVolume, Inv, Decide;
    AfterRegistration(cfg, w, caller, batchId, ttlExpiry);
  }

  lemma TriggerOneAsMany(cfg: Config, w: World, id: Bytes32)
    ensures TriggerMany(cfg, w, [id]) ==
            match TriggerOne(cfg, w, id)
            case Ok((w', _)) => Ok(w')
            case Revert(e) => Revert(e)
  {
    assert [id][..0] == [];
    assert TriggerMany(cfg, w, []) == Ok(w);
  }
}
