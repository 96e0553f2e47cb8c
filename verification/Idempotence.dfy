/** Within one block and at one price: each batch is topped up at most once, and a second pass is free. */
module Idempotence {
  import opened Machine
  import opened Chain
  import opened RegistrySpec
  import opened Effects
  import opened History
  import opened Invariants
  import opened Steps
  import opened Trigger

  /** Triggering `id` now would move no BZZ. */
  predicate Settled(cfg: Config, w: World, id: Bytes32) {
    !Decide(cfg, w, id).Pay?
  }

  // ----- payments only make other payments harder --------------------------

  lemma PullsOnlyShrink(cfg: Config, env: Env, env': Env, from: Addr, paid: nat, payer: Addr, amount: nat)
    requires PaidThrough(cfg, env.token, env'.token, from, paid) && env'.clock.now == env.clock.now
    requires Outsider(cfg, payer) && !CanPull(cfg, env, payer, amount)
    requires from == payer ==> CanPull(cfg, env, from, paid)
    ensures !CanPull(cfg, env', payer, amount)
  {
    assert BalanceOf(env'.token, payer) <= BalanceOf(env.token, payer);
    assert Allowance(env'.token, payer, cfg.registry) <= Allowance(env.token, payer, cfg.registry);
  }

  /** A volume that would pay after someone else's payment would have paid before it: its batch was not the one
      raised, and its payer was at least as able. */
  lemma SettledAfterPayment(cfg: Config, w: World, other: Bytes32, w': World, id: Bytes32)
    requires ValidConfig(cfg) && RecordInv(cfg, w.reg) && Decide(cfg, w, other).Pay?
    requires TriggerRows(cfg, w, other, w', ToppedUp)
    requires Decide(cfg, w', id).Pay?
    ensures Decide(cfg, w, id).Pay?
  {
    PayDecision(cfg, w, other);
    PayDecision(cfg, w', id);
    var v := VolumeAt(w.reg, id);
    var Pay(from, deficit, paid) := Decide(cfg, w, other);
    var Pay(payer, _, amount) := Decide(cfg, w', id);
    hide RecordInv;
    assert v.batchId != VolumeAt(w.reg, other).batchId;
    assert w'.env.postage.batches[v.batchId] == w.env.postage.batches[v.batchId];
    if !CanPull(cfg, w.env, payer, amount) {
      PullsOnlyShrink(cfg, w.env, w'.env, from, paid, payer, amount);
    }
    hide CanPull, PaidThrough;
  }

  lemma SettledAfterNoPayment(cfg: Config, w: World, w': World, id: Bytes32)
    requires w'.env.token == w.env.token && w'.env.postage == w.env.postage
    requires w'.env.clock.now == w.env.clock.now && w'.reg.accounts == w.reg.accounts
    requires SameIdentity(VolumeAt(w.reg, id), VolumeAt(w'.reg, id))
    requires VolumeAt(w'.reg, id).status == Active ==> VolumeAt(w.reg, id).status == Active
    requires Decide(cfg, w', id).Pay?
    ensures Decide(cfg, w, id).Pay?
  {
  }

  lemma SettledStays(cfg: Config, w: World, other: Bytes32, id: Bytes32)
    requires Inv(cfg, w) && TriggerOne(cfg, w, other).Ok? && Settled(cfg, w, id)
    ensures Settled(cfg, TriggerOne(cfg, w, other).value.0, id)
  {
    TriggerWrites(cfg, w, other);
    assert ValidConfig(cfg) && RecordInv(cfg, w.reg);
    var (w', outcome) := TriggerOne(cfg, w, other).value;
    hide Inv, TriggerOne, Decide, RecordInv, PayEffect;
    if Decide(cfg, w', id).Pay? {
      if outcome == ToppedUp {
        SettledAfterPayment(cfg, w, other, w', id);
      } else {
        assert SameIdentity(VolumeAt(w.reg, id), VolumeAt(w'.reg, id));
        SettledAfterNoPayment(cfg, w, w', id);
      }
    }
  }

  /** One trigger settles its own volume, whatever the outcome. */
  lemma TriggerSettles(cfg: Config, w: World, id: Bytes32)
    requires Inv(cfg, w) && TriggerOne(cfg, w, id).Ok?
    ensures Settled(cfg, TriggerOne(cfg, w, id).value.0, id)
  {
    TriggerWrites(cfg, w, id);
    ChargeIsTheFormula(cfg, w, id);
    hide Inv, PaidThrough, TriggerOne, PayEffect, FormulaCharge, Decide;
    var (w', outcome) := TriggerOne(cfg, w, id).value;
    NothingToPay(cfg, w', id);
    if Decide(cfg, w', id).Pay? && outcome == Skipped {
      SettledAfterNoPayment(cfg, w, w', id);
    }
  }

  lemma NothingToPay(cfg: Config, w: World, id: Bytes32)
    ensures VolumeAt(w.reg, id).status != Active ==> !Decide(cfg, w, id).Pay?
    ensures Live(w.env.postage, VolumeAt(w.reg, id).batchId)
            && Remaining(w.env.postage, VolumeAt(w.reg, id).batchId) >= Target(cfg, w.env.postage)
            ==> !Decide(cfg, w, id).Pay?
  {
  }

  lemma {:induction false} SettledStaysThrough(cfg: Config, w: World, ids: seq<Bytes32>, id: Bytes32)
    requires Inv(cfg, w) && TriggerMany(cfg, w, ids).Ok? && Settled(cfg, w, id)
    ensures Settled(cfg, TriggerMany(cfg, w, ids).value, id)
    decreases |ids|
  {
    hide Inv, Keeps, TriggerOne, Settled;
    if ids != [] {
      var init := ids[..|ids| - 1];
      SettledStaysThrough(cfg, w, init, id);
      TriggerManyGood(cfg, w, init);
      SettledStays(cfg, TriggerMany(cfg, w, init).value, ids[|ids| - 1], id);
    }
  }

  lemma {:induction false} PassSettles(cfg: Config, w: World, ids: seq<Bytes32>, id: Bytes32)
    requires Inv(cfg, w) && TriggerMany(cfg, w, ids).Ok? && id in ids
    ensures Settled(cfg, TriggerMany(cfg, w, ids).value, id)
    decreases |ids|
  {
    hide Inv, Keeps, TriggerOne, Settled;
    var init, last := ids[..|ids| - 1], ids[|ids| - 1];
    TriggerManyGood(cfg, w, init);
    var mid := TriggerMany(cfg, w, init).value;
    if id == last {
      TriggerSettles(cfg, mid, id);
    } else {
      PassSettles(cfg, w, init, id);
      SettledStays(cfg, mid, last, id);
    }
  }

  /** A trigger that has nothing to pay goes through. */
  lemma SettledTriggerIsFree(cfg: Config, w: World, id: Bytes32)
    requires Inv(cfg, w) && Settled(cfg, w, id)
    ensures TriggerOne(cfg, w, id).Ok?
    ensures var w' := TriggerOne(cfg, w, id).value.0;
            w'.env.token == w.env.token && w'.env.postage == w.env.postage
  {
    assert IndexInv(w.reg);
    hide Inv, IndexInv, TriggerOne, Decide;
    UnpaidGoesThrough(cfg, w, id);
  }

  lemma {:induction false} SettledPassIsFree(cfg: Config, w: World, ids: seq<Bytes32>)
    requires Inv(cfg, w) && forall id :: id in ids ==> Settled(cfg, w, id)
    ensures TriggerMany(cfg, w, ids).Ok?
    ensures var w' := TriggerMany(cfg, w, ids).value;
            w'.env.token == w.env.token && w'.env.postage == w.env.postage
    decreases |ids|
  {
    hide Inv, Keeps, Settled, TriggerOne;
    if ids != [] {
      var init, last := ids[..|ids| - 1], ids[|ids| - 1];
      SettledPassIsFree(cfg, w, init);
      SettledStaysThrough(cfg, w, init, last);
      TriggerManyGood(cfg, w, init);
      SettledTriggerIsFree(cfg, TriggerMany(cfg, w, init).value, last);
    }
  }

  /** Running any list of ids again in the same block goes through, moves no BZZ and raises no batch. */
  lemma SecondPassIsFree(cfg: Config, w: World, ids: seq<Bytes32>)
    requires Inv(cfg, w) && TriggerMany(cfg, w, ids).Ok?
    ensures TriggerMany(cfg, TriggerMany(cfg, w, ids).value, ids).Ok?
    ensures var first := TriggerMany(cfg, w, ids).value;
            var second := TriggerMany(cfg, first, ids).value;
            second.env.token == first.env.token && second.env.postage == first.env.postage
  {
    var first := TriggerMany(cfg, w, ids).value;
    TriggerManyGood(cfg, w, ids);
    hide Inv, Keeps, Settled, TriggerMany;
    forall id | id in ids
      ensures Settled(cfg, first, id)
    {
      PassSettles(cfg, w, ids, id);
    }
    SettledPassIsFree(cfg, first, ids);
  }

  // ----- at most one top-up per batch --------------------------------------

  /** The top-up amounts the rows report for volumes over one batch, in order. */
  function TopUpsOf(reg: Registry, rows: seq<Row>, batchId: Bytes32): seq<nat> {
    if rows == [] then []
    else
      var e := Last(rows).event;
      TopUpsOf(reg, Init(rows), batchId)
      + if e.Toppedup? && VolumeAt(reg, e.id).batchId == batchId then [e.amount] else []
  }

  lemma {:induction false} TopUpsAppend(reg: Registry, rows: seq<Row>, more: seq<Row>, batchId: Bytes32)
    ensures TopUpsOf(reg, rows + more, batchId) == TopUpsOf(reg, rows, batchId) + TopUpsOf(reg, more, batchId)
    decreases |more|
  {
    if more == [] {
      assert rows + more == rows;
    } else {
      assert Init(rows + more) == rows + Init(more);
      TopUpsAppend(reg, rows, Init(more), batchId);
    }
  }

  function NewRows(w: World, w': World): seq<Row>
    requires |w.env.log| <= |w'.env.log|
  {
    w'.env.log[|w.env.log|..]
  }

  ghost predicate BatchUnchanged(p: Postage, p': Postage, batchId: Bytes32) {
    && (batchId in p.batches <==> batchId in p'.batches)
    && (batchId in p.batches ==> p'.batches[batchId] == p.batches[batchId])
  }

  /** Either untouched and unreported, or reported once, for its whole initial shortfall, and now exactly at the target. */
  ghost predicate Once(cfg: Config, p: Postage, p': Postage, reported: seq<nat>, batchId: Bytes32) {
    || (reported == [] && BatchUnchanged(p, p', batchId))
    || (&& Live(p, batchId) && Live(p', batchId)
        && Remaining(p, batchId) < Target(cfg, p) == Remaining(p', batchId)
        && reported == [(Target(cfg, p) - Remaining(p, batchId)) * Pow2(p.batches[batchId].depth)])
  }

  ghost predicate ToppedUpAtMostOnce(cfg: Config, w: World, w': World, batchId: Bytes32) {
    && w.env.log <= w'.env.log
    && Once(cfg, w.env.postage, w'.env.postage, TopUpsOf(w.reg, NewRows(w, w'), batchId), batchId)
  }

  /** What one trigger adds to the account of one batch: nothing, or its whole shortfall in one report. */
  ghost predicate OneMoreOrNothing(cfg: Config, p: Postage, p': Postage, reported: seq<nat>, batchId: Bytes32) {
    || (reported == [] && BatchUnchanged(p, p', batchId))
    || (&& Live(p, batchId) && Remaining(p, batchId) < Target(cfg, p)
        && p' == RaisedBy(p, batchId, Target(cfg, p) - Remaining(p, batchId))
        && reported == [(Target(cfg, p) - Remaining(p, batchId)) * Pow2(p.batches[batchId].depth)])
  }

  lemma PaymentOnBatch(cfg: Config, w: World, id: Bytes32, w': World, reg: Registry, batchId: Bytes32)
    requires RecordInv(cfg, w.reg) && Decide(cfg, w, id).Pay? && TriggerRows(cfg, w, id, w', ToppedUp)
    requires VolumeAt(reg, id).batchId == VolumeAt(w.reg, id).batchId
    ensures w.env.log <= w'.env.log
    ensures w'.env.postage == w.env.postage.(batches := w'.env.postage.batches)
    ensures OneMoreOrNothing(cfg, w.env.postage, w'.env.postage, TopUpsOf(reg, NewRows(w, w'), batchId), batchId)
  {
    PayDecision(cfg, w, id);
    hide PaidThrough, Decide, RecordInv;
    var rows := NewRows(w, w');
    assert rows == [rows[0], rows[1]] && Init(rows) == [rows[0]] && Init([rows[0]]) == [];
    assert rows[0].event.FeeTransfer? && rows[1].event.Toppedup? && rows[1].event.id == id;
    assert TopUpsOf(reg, [], batchId) == [];
    assert TopUpsOf(reg, [rows[0]], batchId) == [];
  }

  lemma TriggerOnBatch(cfg: Config, w: World, id: Bytes32, reg: Registry, batchId: Bytes32)
    requires Inv(cfg, w) && TriggerOne(cfg, w, id).Ok?
    requires VolumeAt(reg, id).batchId == VolumeAt(w.reg, id).batchId
    ensures var w' := TriggerOne(cfg, w, id).value.0;
            && w.env.log <= w'.env.log
            && w'.env.postage == w.env.postage.(batches := w'.env.postage.batches)
            && OneMoreOrNothing(cfg, w.env.postage, w'.env.postage, TopUpsOf(reg, NewRows(w, w'), batchId), batchId)
  {
    TriggerWrites(cfg, w, id);
    var (w', outcome) := TriggerOne(cfg, w, id).value;
    assert RecordInv(cfg, w.reg);
    hide Inv, PaidThrough, TriggerOne, TriggerFrame, Decide, PayEffect, RecordInv, Retires, OneMoreOrNothing;
    if outcome == ToppedUp {
      PaymentOnBatch(cfg, w, id, w', reg, batchId);
    } else {
      NoPaymentOnBatch(cfg, w, id, w', outcome, reg, batchId);
    }
  }

  lemma NoPaymentOnBatch(cfg: Config, w: World, id: Bytes32, w': World, outcome: TriggerOutcome, reg: Registry,
                         batchId: Bytes32)
    requires TriggerRows(cfg, w, id, w', outcome) && outcome != ToppedUp
    ensures w.env.log <= w'.env.log && w'.env.postage == w.env.postage
    ensures OneMoreOrNothing(cfg, w.env.postage, w'.env.postage, TopUpsOf(reg, NewRows(w, w'), batchId), batchId)
  {
    hide Decide;
    var rows := NewRows(w, w');
    if outcome == NoDeficit {
      assert rows == [];
    } else {
      assert rows == [rows[0]] && Init(rows) == [];
    }
  }

  /** However the volumes of many owners share batches and however ids repeat, one pass tops each batch up at most
      once, by exactly its initial shortfall. */
  lemma {:induction false} EachBatchOnce(cfg: Config, w: World, ids: seq<Bytes32>, batchId: Bytes32)
    requires Inv(cfg, w) && TriggerMany(cfg, w, ids).Ok?
    ensures ToppedUpAtMostOnce(cfg, w, TriggerMany(cfg, w, ids).value, batchId)
    decreases |ids|
  {
    if ids == [] {
      assert NewRows(w, w) == [];
    } else {
      var init, last := ids[..|ids| - 1], ids[|ids| - 1];
      var mid, end := TriggerMany(cfg, w, init).value, TriggerMany(cfg, w, ids).value;
      EachBatchOnce(cfg, w, init, batchId);
      TriggerManyGood(cfg, w, init);
      TriggersKeepBatches(cfg, w, init, last);
      assert end == TriggerOne(cfg, mid, last).value.0;
      hide Inv, Keeps, TriggerMany, TriggerOne, ToppedUpAtMostOnce;
      OneMoreTrigger(cfg, w, mid, last, batchId);
    }
  }

  lemma OneMoreTrigger(cfg: Config, w: World, mid: World, id: Bytes32, batchId: Bytes32)
    requires Inv(cfg, mid) && TriggerOne(cfg, mid, id).Ok?
    requires SameIdentity(VolumeAt(w.reg, id), VolumeAt(mid.reg, id))
    requires mid.env.postage == w.env.postage.(batches := mid.env.postage.batches)
    requires ToppedUpAtMostOnce(cfg, w, mid, batchId)
    ensures ToppedUpAtMostOnce(cfg, w, TriggerOne(cfg, mid, id).value.0, batchId)
  {
    hide Inv, TriggerOne, TopUpsOf, OneMoreOrNothing, Once;
    var end := TriggerOne(cfg, mid, id).value.0;
    TriggerOnBatch(cfg, mid, id, w.reg, batchId);
    assert NewRows(w, end) == NewRows(w, mid) + NewRows(mid, end);
    TopUpsAppend(w.reg, NewRows(w, mid), NewRows(mid, end), batchId);
    OnceAndOnceMore(cfg, w.env.postage, mid.env.postage, end.env.postage, batchId,
                    TopUpsOf(w.reg, NewRows(w, mid), batchId), TopUpsOf(w.reg, NewRows(mid, end), batchId));
  }

  lemma OnceAndOnceMore(cfg: Config, p: Postage, mid: Postage, end: Postage, batchId: Bytes32, first: seq<nat>,
                        more: seq<nat>)
    requires mid == p.(batches := mid.batches) && end == mid.(batches := end.batches)
    requires Once(cfg, p, mid, first, batchId) && OneMoreOrNothing(cfg, mid, end, more, batchId)
    ensures Once(cfg, p, end, first + more, batchId)
  {
    if more == [] {
      assert first + more == first;
    } else {
      assert first == [] && first + more == more;
    }
  }

  lemma {:induction false} TriggersKeepIdentity(cfg: Config, w: World, ids: seq<Bytes32>, id: Bytes32)
    requires Inv(cfg, w) && TriggerMany(cfg, w, ids).Ok?
    ensures SameIdentity(VolumeAt(w.reg, id), VolumeAt(TriggerMany(cfg, w, ids).value.reg, id))
    decreases |ids|
  {
    hide Inv, TriggerOne, TriggerRows, Retires, Keeps;
    if ids != [] {
      var init := ids[..|ids| - 1];
      var mid := TriggerMany(cfg, w, init).value;
      TriggersKeepIdentity(cfg, w, init, id);
      TriggerManyGood(cfg, w, init);
      TriggerWrites(cfg, mid, ids[|ids| - 1]);
      assert SameIdentity(VolumeAt(mid.reg, id), VolumeAt(TriggerMany(cfg, w, ids).value.reg, id));
    }
  }

  lemma TriggersKeepBatches(cfg: Config, w: World, ids: seq<Bytes32>, id: Bytes32)
    requires Inv(cfg, w) && TriggerMany(cfg, w, ids).Ok?
    ensures SameIdentity(VolumeAt(w.reg, id), VolumeAt(TriggerMany(cfg, w, ids).value.reg, id))
    ensures BatchesOnlyRise(w.env.postage, TriggerMany(cfg, w, ids).value.env.postage)
  {
    hide Inv, TriggerMany, RecordsKept, BatchesOnlyRise, MoneyKept, LogGrows;
    TriggerManyGood(cfg, w, ids);
    TriggersKeepIdentity(cfg, w, ids, id);
  }

  // ----- no list reverts unless one trigger does ----------------------------

  lemma {:induction false} TriggersKeepService(cfg: Config, w: World, ids: seq<Bytes32>, payer: Addr)
    requires Inv(cfg, w) && WithinLimits(w) && TriggerMany(cfg, w, ids).Ok? && Outsider(cfg, payer)
    ensures var w' := TriggerMany(cfg, w, ids).value;
            WithinLimits(w') && (Blocked(cfg, w', payer) <==> Blocked(cfg, w, payer))
    decreases |ids|
  {
    hide Inv, Keeps, TriggerOne, WithinLimits, Blocked;
    if ids != [] {
      var init := ids[..|ids| - 1];
      TriggersKeepService(cfg, w, init, payer);
      TriggerManyGood(cfg, w, init);
      TriggerKeepsService(cfg, TriggerMany(cfg, w, init).value, ids[|ids| - 1], payer);
    }
  }

  /** An id that would fail after a pass would have failed before it. */
  lemma FailureWasThere(cfg: Config, w: World, ids: seq<Bytes32>, id: Bytes32)
    requires Inv(cfg, w) && WithinLimits(w) && TriggerMany(cfg, w, ids).Ok?
    requires WouldFail(cfg, TriggerMany(cfg, w, ids).value, id)
    ensures WouldFail(cfg, w, id)
  {
    var w' := TriggerMany(cfg, w, ids).value;
    TriggerManyGood(cfg, w, ids);
    TriggersKeepAccounts(cfg, w, ids);
    TriggersKeepIdentity(cfg, w, ids, id);
    assert RecordInv(cfg, w'.reg) && RecordInv(cfg, w.reg);
    PayDecision(cfg, w', id);
    hide Inv, TriggerMany, WithinLimits, Blocked, RecordInv, Decide, Keeps;
    TriggersKeepService(cfg, w, ids, Decide(cfg, w', id).payer);
    if Settled(cfg, w, id) {
      SettledStaysThrough(cfg, w, ids, id);
    } else {
      PayDecision(cfg, w, id);
    }
  }

  /** A batched trigger goes through whenever none of its ids would fail on its own, however often they repeat. */
  lemma {:induction false} TriggerManyNeverReverts(cfg: Config, w: World, ids: seq<Bytes32>)
    requires Inv(cfg, w) && WithinLimits(w) && forall id :: id in ids ==> !WouldFail(cfg, w, id)
    ensures TriggerMany(cfg, w, ids).Ok?
    decreases |ids|
  {
    hide Inv, Keeps, TriggerOne, WithinLimits, WouldFail;
    if ids != [] {
      var init, last := ids[..|ids| - 1], ids[|ids| - 1];
      assert last in ids && forall id :: id in init ==> id in ids;
      TriggerManyNeverReverts(cfg, w, init);
      var mid := TriggerMany(cfg, w, init).value;
      TriggerManyGood(cfg, w, init);
      TriggersKeepLimits(cfg, w, init);
      TriggerRevertsExactlyWhen(cfg, mid, last);
      if WouldFail(cfg, mid, last) {
        FailureWasThere(cfg, w, init, last);
      }
    }
  }

  lemma TriggersKeepLimits(cfg: Config, w: World, ids: seq<Bytes32>)
    requires Inv(cfg, w) && WithinLimits(w) && TriggerMany(cfg, w, ids).Ok?
    ensures WithinLimits(TriggerMany(cfg, w, ids).value)
  {
    hide Inv, TriggerMany, WithinLimits;
    var someone := cfg.registry + cfg.stamp + 1;
    TriggersKeepService(cfg, w, ids, someone);
  }

  ghost predicate EveryListPasses(cfg: Config, w: World) {
    forall ids :: TriggerMany(cfg, w, ids).Ok?
  }

  ghost predicate NoneWouldFail(cfg: Config, w: World) {
    forall id :: !WouldFail(cfg, w, id)
  }

  /** So every list goes through exactly when no single trigger would fail. */
  lemma ListsRevertExactlyWhen(cfg: Config, w: World)
    requires Inv(cfg, w) && WithinLimits(w)
    ensures EveryListPasses(cfg, w) <==> NoneWouldFail(cfg, w)
  {
    hide Inv, TriggerOne, TriggerMany, WithinLimits, WouldFail;
    if NoneWouldFail(cfg, w) {
      forall ids
        ensures TriggerMany(cfg, w, ids).Ok?
      {
        TriggerManyNeverReverts(cfg, w, ids);
      }
    } else {
      var id :| WouldFail(cfg, w, id);
      TriggerOneAsMany(cfg, w, id);
      TriggerRevertsExactlyWhen(cfg, w, id);
      assert !TriggerMany(cfg, w, [id]).Ok?;
    }
  }

  // ----- one list -----------------------------------------------------------

  /** No permit expires unread: the deployment reads expiries, or the token has none. */
  predicate ReadsPermits(cfg: Config, w: World) {
    cfg.bzzPermitExpiry || !w.env.token.permittable
  }

  /** Then only an outage can fail a payment. */
  lemma OutageAlone(cfg: Config, w: World, id: Bytes32)
    requires ReadsPermits(cfg, w)
    ensures WouldFail(cfg, w, id) <==> Decide(cfg, w, id).Pay? && OutOfService(cfg, w)
  {
  }

  /** Whether a volume is due depends on nothing a trigger that pays nothing changes about another volume. */
  lemma SameDecision(cfg: Config, w: World, w': World, id: Bytes32)
    requires w'.env.token == w.env.token && w'.env.postage == w.env.postage
    requires w'.env.clock.now == w.env.clock.now && w'.reg.accounts == w.reg.accounts
    requires SameIdentity(VolumeAt(w.reg, id), VolumeAt(w'.reg, id))
    requires VolumeAt(w'.reg, id).status == VolumeAt(w.reg, id).status
    ensures Decide(cfg, w', id).Pay? <==> Decide(cfg, w, id).Pay?
  {
  }

  lemma OneTriggerInAnOutage(cfg: Config, w: World, other: Bytes32, id: Bytes32)
    requires Inv(cfg, w) && WithinLimits(w) && ReadsPermits(cfg, w) && OutOfService(cfg, w)
    requires TriggerOne(cfg, w, other).Ok? && Decide(cfg, w, id).Pay?
    ensures other != id
    ensures var w' := TriggerOne(cfg, w, other).value.0;
            ReadsPermits(cfg, w') && OutOfService(cfg, w') && Decide(cfg, w', id).Pay?
  {
    hide Inv, WithinLimits, Decide, TriggerOne, PayEffect, Retires;
    OutageAlone(cfg, w, other);
    TriggerRevertsExactlyWhen(cfg, w, other);
    TriggerWrites(cfg, w, other);
    SameDecision(cfg, w, TriggerOne(cfg, w, other).value.0, id);
  }

  /** A list that goes through in an outage names no volume that is due. */
  lemma {:induction false} DueInAnOutage(cfg: Config, w: World, ids: seq<Bytes32>, id: Bytes32)
    requires Inv(cfg, w) && WithinLimits(w) && ReadsPermits(cfg, w) && OutOfService(cfg, w)
    requires TriggerMany(cfg, w, ids).Ok? && Decide(cfg, w, id).Pay?
    ensures id !in ids
    ensures var w' := TriggerMany(cfg, w, ids).value;
            ReadsPermits(cfg, w') && OutOfService(cfg, w') && Decide(cfg, w', id).Pay?
    decreases |ids|
  {
    hide Inv, Keeps, TriggerOne, WithinLimits, Decide, ReadsPermits, OutOfService;
    if ids != [] {
      var init, last := ids[..|ids| - 1], ids[|ids| - 1];
      DueInAnOutage(cfg, w, init, id);
      TriggerManyGood(cfg, w, init);
      TriggersKeepLimits(cfg, w, init);
      OneTriggerInAnOutage(cfg, TriggerMany(cfg, w, init).value, last, id);
      assert ids == init + [last];
    }
  }

  /** Where no permit expires unread, a given list goes through if and only if none of its ids would fail on its own. */
  lemma ListRevertsExactlyWhen(cfg: Config, w: World, ids: seq<Bytes32>)
    requires Inv(cfg, w) && WithinLimits(w) && ReadsPermits(cfg, w)
    ensures TriggerMany(cfg, w, ids).Ok? <==> forall id :: id in ids ==> !WouldFail(cfg, w, id)
  {
    hide Inv, WithinLimits, TriggerMany, ReadsPermits, Decide, OutOfService;
    if forall id :: id in ids ==> !WouldFail(cfg, w, id) {
      TriggerManyNeverReverts(cfg, w, ids);
    } else {
      var id :| id in ids && WouldFail(cfg, w, id);
      OutageAlone(cfg, w, id);
      if TriggerMany(cfg, w, ids).Ok? {
        DueInAnOutage(cfg, w, ids, id);
      }
    }
  }
}
