/** What a revocation means for the owner's volumes: their triggers go through, pay nothing and say NoAuth. */
module Revocation {
  import opened Machine
  import opened Chain
  import opened RegistrySpec
  import opened Effects
  import opened History
  import opened Invariants
  import opened Steps
  import opened Runs
  import opened Trigger
  import opened Outcomes
  import opened Idempotence
  import opened Lifetimes
  import opened Consent

  /** What the rows say about one volume after its admission, in order. */
  function SaidOf(rows: seq<Row>, id: Bytes32): seq<Event> {
    if rows == [] then []
    else
      var e := Last(rows).event;
      SaidOf(Init(rows), id)
      + if (e.Toppedup? || e.TopupSkipped? || e.VolumeRetired?) && e.id == id then [e] else []
  }

  lemma {:induction false} SaidOfAppend(rows: seq<Row>, more: seq<Row>, id: Bytes32)
    ensures SaidOf(rows + more, id) == SaidOf(rows, id) + SaidOf(more, id)
    decreases |more|
  {
    if more == [] {
      assert rows + more == rows;
    } else {
      assert Init(rows + more) == rows + Init(more);
      SaidOfAppend(rows, Init(more), id);
    }
  }

  function NoAuths(id: Bytes32, n: nat): seq<Event> {
    seq(n, _ => TopupSkipped(id, NoAuth))
  }

  /** A standing volume whose owner's account is inactive. */
  predicate Unpaid(w: World, id: Bytes32) {
    Standing(w, id) && !AccountAt(w.reg, VolumeAt(w.reg, id).owner).active
  }

  lemma UnpaidIsSkipped(cfg: Config, w: World, id: Bytes32)
    requires Inv(cfg, w) && Unpaid(w, id)
    ensures Skips(cfg, w, id, NoAuth)
  {
    hide Inv, IndexInv, IdInv, RecordInv, Skips;
    InvFields(cfg, w);
    DecisionShows(cfg, w, id, NoAuth);
  }

  lemma StandingUnlapsed(w: World, id: Bytes32)
    ensures Standing(w, id) <==> VolumeAt(w.reg, id).status == Active && !Lapsed(w, id)
  {
  }

  lemma SaidOfOne(r: Row, id: Bytes32)
    ensures SaidOf([r], id) ==
            if (r.event.Toppedup? || r.event.TopupSkipped? || r.event.VolumeRetired?) && r.event.id == id then [r.event]
            else []
  {
    assert Init([r]) == [];
  }

  /** A trigger says nothing about any other volume. */
  lemma SaysNothingElse(cfg: Config, w: World, other: Bytes32, id: Bytes32)
    requires Inv(cfg, w) && TriggerOne(cfg, w, other).Ok? && other != id
    ensures w.env.log <= TriggerOne(cfg, w, other).value.0.env.log
    ensures SaidOf(NewRows(w, TriggerOne(cfg, w, other).value.0), id) == []
  {
    hide Inv, TriggerOne, TriggerFrame, Retires, Decide, PaidThrough, SaidOf;
    TriggerWrites(cfg, w, other);
    var w' := TriggerOne(cfg, w, other).value.0;
    var rows := NewRows(w, w');
    match TriggerOne(cfg, w, other).value.1
    case ToppedUp =>
      SaidOfOne(rows[0], id);
      SaidOfOne(rows[1], id);
      assert rows == [rows[0]] + [rows[1]];
      SaidOfAppend([rows[0]], [rows[1]], id);
    case NoDeficit => NothingSaid(w, id);
    case _ =>
      assert rows == [rows[0]];
      SaidOfOne(rows[0], id);
  }

  /** One trigger in a list: the unpaid volume's own logs NoAuth, any other says nothing of it. */
  lemma SaysOfUnpaid(cfg: Config, w: World, other: Bytes32, id: Bytes32)
    requires Inv(cfg, w) && TriggerOne(cfg, w, other).Ok? && Unpaid(w, id)
    ensures w.env.log <= TriggerOne(cfg, w, other).value.0.env.log
    ensures SaidOf(NewRows(w, TriggerOne(cfg, w, other).value.0), id) == NoAuths(id, if other == id then 1 else 0)
  {
    hide Inv, TriggerOne, Unpaid, SaidOf;
    if other == id {
      UnpaidIsSkipped(cfg, w, id);
      var r := Stamped(w.env.clock, TopupSkipped(id, NoAuth));
      assert NewRows(w, TriggerOne(cfg, w, other).value.0) == [r];
      SaidOfOne(r, id);
    } else {
      SaysNothingElse(cfg, w, other, id);
    }
  }

  lemma SaidAlong(w: World, mid: World, w': World, id: Bytes32, n: nat, m: nat)
    requires w.env.log <= mid.env.log <= w'.env.log
    requires SaidOf(NewRows(w, mid), id) == NoAuths(id, n) && SaidOf(NewRows(mid, w'), id) == NoAuths(id, m)
    ensures SaidOf(NewRows(w, w'), id) == NoAuths(id, n + m)
  {
    hide SaidOf;
    assert NewRows(w, w') == NewRows(w, mid) + NewRows(mid, w');
    SaidOfAppend(NewRows(w, mid), NewRows(mid, w'), id);
  }

  lemma LastMention(ids: seq<Bytes32>, id: Bytes32)
    requires ids != []
    ensures multiset(ids)[id] == multiset(ids[..|ids| - 1])[id] + if ids[|ids| - 1] == id then 1 else 0
  {
    assert ids == ids[..|ids| - 1] + [ids[|ids| - 1]];
  }

  /** However often a list names an unpaid volume, each time it logs NoAuth, and the list says nothing else about it. */
  lemma {:induction false} ListSkipsUnpaid(cfg: Config, w: World, ids: seq<Bytes32>, id: Bytes32)
    requires Inv(cfg, w) && TriggerMany(cfg, w, ids).Ok? && Unpaid(w, id)
    ensures var w' := TriggerMany(cfg, w, ids).value;
            w.env.log <= w'.env.log && SaidOf(NewRows(w, w'), id) == NoAuths(id, multiset(ids)[id]) && Unpaid(w', id)
    decreases |ids|
  {
    hide Inv, TriggerOne, Unpaid, Keeps, SaidOf, NewRows, NoAuths;
    if ids == [] {
      NothingSaid(w, id);
    } else {
      var init, last := ids[..|ids| - 1], ids[|ids| - 1];
      var mid, w' := TriggerMany(cfg, w, init).value, TriggerMany(cfg, w, ids).value;
      ListSkipsUnpaid(cfg, w, init, id);
      TriggerManyGood(cfg, w, init);
      StaysUnpaid(cfg, w, ids, id);
      SaysOfUnpaid(cfg, mid, last, id);
      SaidAlong(w, mid, w', id, multiset(init)[id], if last == id then 1 else 0);
      LastMention(ids, id);
    }
  }

  lemma NothingSaid(w: World, id: Bytes32)
    ensures SaidOf(NewRows(w, w), id) == [] == NoAuths(id, 0)
  {
  }

  lemma StaysUnpaid(cfg: Config, w: World, ids: seq<Bytes32>, id: Bytes32)
    requires Inv(cfg, w) && TriggerMany(cfg, w, ids).Ok? && Unpaid(w, id)
    ensures Unpaid(TriggerMany(cfg, w, ids).value, id)
  {
    hide Inv, TriggerMany, Standing, Lapsed;
    var w' := TriggerMany(cfg, w, ids).value;
    StandingUnlapsed(w, id);
    StandingUnlapsed(w', id);
    TriggersEndExactlyWhen(cfg, w, ids, id);
    TriggersKeepAccounts(cfg, w, ids);
    TriggersKeepIdentity(cfg, w, ids, id);
  }

  lemma {:induction false} InactiveByLast(log: seq<Row>, k: nat, owner: Addr)
    requires k < |log| && log[k].event.AccountRevoked? && log[k].event.owner == owner && LastWord(log, k, owner)
    ensures !AuthIn(log, owner).active
  {
    if k < |log| - 1 {
      assert !(log[|log| - 1].event.AccountActivated? && log[|log| - 1].event.owner == owner);
      assert !(log[|log| - 1].event.AccountRevoked? && log[|log| - 1].event.owner == owner);
      assert forall m :: k < m < |Init(log)| ==> Init(log)[m] == log[m];
      InactiveByLast(Init(log), k, owner);
    }
  }

  /** Over every run: while an owner's last word on the account is a revocation, every trigger of its standing volumes
      goes through, moves nothing and logs NoAuth, whatever their batches hold; and so does each mention in a list. */
  lemma RevokedOwnersAreSkipped(cfg: Config, ws: seq<World>, ls: seq<Label>, i: nat, k: nat, id: Bytes32,
                                ids: seq<Bytes32>)
    requires Run(cfg, ws, ls) && i < |ws| && Standing(ws[i], id)
    requires k < |ws[i].env.log| && ws[i].env.log[k].event.AccountRevoked?
    requires ws[i].env.log[k].event.owner == VolumeAt(ws[i].reg, id).owner
    requires LastWord(ws[i].env.log, k, VolumeAt(ws[i].reg, id).owner)
    ensures TriggerOne(cfg, ws[i], id) == Ok((Emit(ws[i], TopupSkipped(id, NoAuth)), Skipped))
    ensures TriggerMany(cfg, ws[i], ids).Ok? ==>
              var w' := TriggerMany(cfg, ws[i], ids).value;
              ws[i].env.log <= w'.env.log && SaidOf(NewRows(ws[i], w'), id) == NoAuths(id, multiset(ids)[id])
  {
    hide StepOf, Inv, RegInv, VolumeReplay, ClockInv, LogInv, NoAllowance, Standing, TriggerOne, TriggerMany, LastWord,
         AuthReplay, SaidOf;
    InvAlways(cfg, ws, ls, i);
    InvRest(cfg, ws[i]);
    AccountReplayed(ws[i].reg, ws[i].env.log, VolumeAt(ws[i].reg, id).owner);
    InactiveByLast(ws[i].env.log, k, VolumeAt(ws[i].reg, id).owner);
    UnpaidIsSkipped(cfg, ws[i], id);
    if TriggerMany(cfg, ws[i], ids).Ok? {
      ListSkipsUnpaid(cfg, ws[i], ids, id);
    }
  }
}
