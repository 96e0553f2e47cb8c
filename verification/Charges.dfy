/** What a run pulls from anyone is the sum of the design's own formulas, step by step. */
module Charges {
  import opened Machine
  import opened Chain
  import opened RegistrySpec
  import opened Effects
  import History
  import opened Invariants
  import opened Steps
  import opened Runs
  import opened Trigger

  /** The formula's charge for one trigger, billed to the payer of that moment; nothing unless it ends in a top-up. */
  ghost function TriggerCharge(cfg: Config, w: World, id: Bytes32, a: Addr): nat {
    var v := VolumeAt(w.reg, id);
    if TriggerOne(cfg, w, id).Ok? && TriggerOne(cfg, w, id).value.1 == ToppedUp && Live(w.env.postage, v.batchId)
       && AccountAt(w.reg, v.owner).payer == a
    then FormulaCharge(cfg, w.env.postage, v) else 0
  }

  /** The formulas of a list of triggers, each at its own moment. */
  ghost function ListCharge(cfg: Config, w: World, ids: seq<Bytes32>, a: Addr): nat
    decreases |ids|
  {
    if ids == [] then 0
    else
      var init := ids[..|ids| - 1];
      ListCharge(cfg, w, init, a)
      + match TriggerMany(cfg, w, init)
        case Ok(mid) => TriggerCharge(cfg, mid, ids[|ids| - 1], a)
        case Revert(_) => 0
  }

  /** What the design lets one successful call charge `a`: the target for every chunk at a creation, the shortfall for
      every chunk at a trigger or an import, and nothing anywhere else. */
  ghost function CallCharge(cfg: Config, w: World, caller: Addr, call: Call, a: Addr): nat {
    match call
    case CallCreate(_, depth, _, _) =>
      if AccountAt(w.reg, caller).payer == a then Target(cfg, w.env.postage) * Pow2(depth) else 0
    case CallImport(batchId, ttl) =>
      (match RegisterVolume(cfg, w, caller, batchId, ttl)
       case Ok((registered, id)) => TriggerCharge(cfg, registered, id, a)
       case Revert(_) => 0)
    case CallTrigger(id) => TriggerCharge(cfg, w, id, a)
    case CallTriggerMany(ids) => ListCharge(cfg, w, ids, a)
    case _ => 0
  }

  ghost function Fallen(w: World, w': World, a: Addr): int {
    BalanceOf(w.env.token, a) - BalanceOf(w'.env.token, a)
  }

  lemma TriggerPullsFormula(cfg: Config, w: World, id: Bytes32, a: Addr)
    requires Inv(cfg, w) && TriggerOne(cfg, w, id).Ok? && Outsider(cfg, a)
    ensures Fallen(w, TriggerOne(cfg, w, id).value.0, a) == TriggerCharge(cfg, w, id, a)
  {
    ChargeIsTheFormula(cfg, w, id);
    hide Inv, TriggerOne, FormulaCharge;
  }

  lemma {:induction false} ListPullsFormula(cfg: Config, w: World, ids: seq<Bytes32>, a: Addr)
    requires Inv(cfg, w) && TriggerMany(cfg, w, ids).Ok? && Outsider(cfg, a)
    ensures Fallen(w, TriggerMany(cfg, w, ids).value, a) == ListCharge(cfg, w, ids, a)
    decreases |ids|
  {
    hide Inv, Keeps, TriggerOne, TriggerCharge, Outsider;
    if ids != [] {
      var init := ids[..|ids| - 1];
      ListPullsFormula(cfg, w, init, a);
      TriggerManyGood(cfg, w, init);
      TriggerPullsFormula(cfg, TriggerMany(cfg, w, init).value, ids[|ids| - 1], a);
    }
  }

  lemma CreatePullsFormula(cfg: Config, w: World, caller: Addr, chunkSigner: Addr, depth: nat, bucketDepth: nat,
                           ttlExpiry: nat, a: Addr)
    requires Inv(cfg, w) && CreateVolume(cfg, w, caller, chunkSigner, depth, bucketDepth, ttlExpiry).Ok?
    requires Outsider(cfg, a)
    ensures Fallen(w, CreateVolume(cfg, w, caller, chunkSigner, depth, bucketDepth, ttlExpiry).value.0, a) ==
            if AccountAt(w.reg, caller).payer == a then Target(cfg, w.env.postage) * Pow2(depth) else 0
  {
    PayersAreOutsiders(cfg, w, caller);
    hide Inv, CreateVolume, Target;
    var _, _ := CreateVolumeEffect(cfg, w, caller, chunkSigner, depth, bucketDepth, ttlExpiry);
  }

  lemma ImportPullsFormula(cfg: Config, w: World, caller: Addr, batchId: Bytes32, ttlExpiry: nat, a: Addr)
    requires Inv(cfg, w) && Outsider(cfg, caller) && HasRoom(w, caller)
    requires ImportVolume(cfg, w, caller, batchId, ttlExpiry).Ok? && Outsider(cfg, a)
    ensures Fallen(w, ImportVolume(cfg, w, caller, batchId, ttlExpiry).value.0, a) ==
            CallCharge(cfg, w, caller, CallImport(batchId, ttlExpiry), a)
  {
    hide RegisterVolume, ImportVolume, TriggerOne, TriggerCharge, Inv, Keeps, Outsider;
    var registered, id := ImportParts(cfg, w, caller, batchId, ttlExpiry);
    AfterRegistration(cfg, w, caller, batchId, ttlExpiry);
    RegisterGood(cfg, w, caller, batchId, ttlExpiry);
    TriggerPullsFormula(cfg, registered, id, a);
  }

  /** The calls that can pay. */
  predicate MayPay(call: Call) {
    call.CallCreate? || call.CallImport? || call.CallTrigger? || call.CallTriggerMany?
  }

  /** No other call moves any BZZ. */
  lemma OthersPullNothing(cfg: Config, w: World, caller: Addr, call: Call)
    requires Inv(cfg, w) && Exec(cfg, w, caller, call).Ok? && !MayPay(call)
    ensures Exec(cfg, w, caller, call).value.env.token == w.env.token
  {
    assert IndexInv(w.reg);
    hide Inv, RegisterVolume, Retire, IndexInv;
    match call
    case CallDesignate(_) =>
    case CallConfirmAuth(_) =>
    case CallRevoke(_) =>
    case CallRegister(batchId, ttl) => RegisterEffect(cfg, w, caller, batchId, ttl);
    case CallDelete(id) => RetireEffect(w, id, OwnerDeleted);
    case CallReap(id) =>
      if VolumeAt(w.reg, id).status == Active {
        RetireEffect(w, id, VolumeExpired);
      }
  }

  /** One call takes from an outsider exactly what the formulas allow, and nothing when it reverts. */
  lemma CallPullsFormula(cfg: Config, w: World, caller: Addr, call: Call, a: Addr)
    requires Inv(cfg, w) && Outsider(cfg, caller) && HasRoom(w, caller) && Outsider(cfg, a)
    ensures Fallen(w, Apply(cfg, w, caller, call), a) ==
            if Exec(cfg, w, caller, call).Ok? then CallCharge(cfg, w, caller, call, a) else 0
  {
    hide Inv, CreateVolume, RegisterVolume, ImportVolume, TriggerOne, TriggerMany, TriggerCharge, ListCharge, Outsider,
         HasRoom, Target;
    if Exec(cfg, w, caller, call).Ok? {
      if !MayPay(call) {
        OthersPullNothing(cfg, w, caller, call);
        hide Exec;
      } else {
        match call
        case CallCreate(signer, depth, bucketDepth, ttl) =>
          CreatePullsFormula(cfg, w, caller, signer, depth, bucketDepth, ttl, a);
        case CallImport(batchId, ttl) => ImportPullsFormula(cfg, w, caller, batchId, ttl, a);
        case CallTrigger(id) => TriggerPullsFormula(cfg, w, id, a);
        case CallTriggerMany(ids) => ListPullsFormula(cfg, w, ids, a);
      }
    }
  }

  /** The formulas of the first i steps of a run, for one address. */
  ghost function FormulaSum(cfg: Config, ws: seq<World>, ls: seq<Label>, a: Addr, i: nat): nat
    requires |ws| == |ls| + 1 && i <= |ls|
  {
    if i == 0 then 0
    else
      var l := ls[i - 1];
      FormulaSum(cfg, ws, ls, a, i - 1)
      + if l.Invoke? && Exec(cfg, ws[i - 1], l.caller, l.call).Ok?
        then CallCharge(cfg, ws[i - 1], l.caller, l.call, a) else 0
  }

  lemma {:induction false} PullsAreFormulas(cfg: Config, ws: seq<World>, ls: seq<Label>, a: Addr, i: nat)
    requires Run(cfg, ws, ls) && i <= |ls| && Outsider(cfg, a)
    ensures PulledFrom(ws, ls, a, i) == FormulaSum(cfg, ws, ls, a, i)
  {
    hide Inv, StepOf, Apply, Exec, CallCharge, Outsider, HasRoom;
    if i > 0 {
      PullsAreFormulas(cfg, ws, ls, a, i - 1);
      InvAlways(cfg, ws, ls, i - 1);
      assert StepOf(cfg, ws[i - 1], ls[i - 1], ws[i]);
      if ls[i - 1].Invoke? {
        StepPullsFormula(cfg, ws[i - 1], ls[i - 1], ws[i], a);
      }
    }
  }

  lemma StepPullsFormula(cfg: Config, w: World, l: Label, w': World, a: Addr)
    requires Inv(cfg, w) && l.Invoke? && StepOf(cfg, w, l, w') && Outsider(cfg, a)
    ensures Fallen(w, w', a) == if Exec(cfg, w, l.caller, l.call).Ok? then CallCharge(cfg, w, l.caller, l.call, a) else 0
  {
    hide Inv, Apply, Exec, CallCharge, Outsider, HasRoom;
    CallPullsFormula(cfg, w, l.caller, l.call, a);
  }

  /** Over every run, what the registry has pulled from an outsider, read off the token alone, is the sum of the formula
      charges of its steps; and the log's own charges add up to the same. */
  lemma EveryPullIsTheFormula(cfg: Config, ws: seq<World>, ls: seq<Label>, a: Addr, i: nat)
    requires Run(cfg, ws, ls) && i <= |ls| && Outsider(cfg, a)
    ensures PulledFrom(ws, ls, a, i) == FormulaSum(cfg, ws, ls, a, i) == History.Charged(ws[i].env.log, a)
  {
    hide StepOf, PulledFrom, FormulaSum, History.Charged;
    EveryPullIsCharged(cfg, ws, ls, i, a);
    PullsAreFormulas(cfg, ws, ls, a, i);
  }
}
