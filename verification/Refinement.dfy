/** The indexer against the contract: replaying the log of any run gives the state the contract had at the cutoff. */
module Refinement {
  import opened Chain
  import opened RegistrySpec
  import opened Effects
  import opened History
  import opened Invariants
  import opened Steps
  import opened Runs
  import opened EventStore
  import opened Projector
  import opened DailySeries

  /** Every row logged after moment i carries a timestamp no earlier than moment i + 1. */
  lemma {:induction false} LaterRowsAreLater(cfg: Config, ws: seq<World>, ls: seq<Label>, i: nat, n: nat)
    requires Run(cfg, ws, ls) && i < n < |ws|
    ensures ws[i].env.log <= ws[n].env.log
    ensures forall k :: |ws[i].env.log| <= k < |ws[n].env.log| ==> ws[n].env.log[k].ts >= ws[i + 1].env.clock.now
    decreases n
  {
    hide StepOf, Inv, MoneyKept, RecordsKept;
    InvAlways(cfg, ws, ls, n - 1);
    assert StepOf(cfg, ws[n - 1], ls[n - 1], ws[n]);
    RowsOfOneStep(cfg, ws[n - 1], ls[n - 1], ws[n]);
    RetirementIsFinal(cfg, ws, ls, i, n - 1);
    if i < n - 1 {
      LaterRowsAreLater(cfg, ws, ls, i, n - 1);
      RetirementIsFinal(cfg, ws, ls, i + 1, n - 1);
    }
  }

  lemma RowsOfOneStep(cfg: Config, w: World, l: Label, w': World)
    requires StepOf(cfg, w, l, w') && Inv(cfg, w)
    ensures w.env.log <= w'.env.log && w.env.clock.now <= w'.env.clock.now
    ensures forall k :: |w.env.log| <= k < |w'.env.log| ==> w'.env.log[k].ts == w'.env.clock.now
  {
    hide Inv, Apply, MoneyKept, RecordsKept, BatchesOnlyRise;
    if l.Invoke? {
      ApplyGood(cfg, w, l.caller, l.call);
    }
  }

  /** Moment i is the last one whose time is within the cutoff. */
  predicate LastMomentBy(ws: seq<World>, i: nat, cutoff: nat) {
    && i < |ws| && ws[i].env.clock.now <= cutoff
    && (i + 1 < |ws| ==> cutoff < ws[i + 1].env.clock.now)
  }

  lemma {:induction false} UpToSplit(log: seq<Row>, n: nat, cutoff: nat)
    requires n <= |log|
    requires forall k :: 0 <= k < n ==> log[k].ts <= cutoff
    requires forall k :: n <= k < |log| ==> log[k].ts > cutoff
    ensures UpTo(log, cutoff) == log[..n]
  {
    if log != [] {
      var init, last := Init(log), Last(log);
      assert log == init + [last];
      if n == |log| {
        UpToSplit(init, n - 1, cutoff);
        assert init[..n - 1] == init;
      } else {
        UpToSplit(init, n, cutoff);
        assert init[..n] == log[..n];
      }
    }
  }

  /** Cutting the whole run's log by time leaves exactly the log as it stood at that moment. */
  lemma CutIsTheLogThen(cfg: Config, ws: seq<World>, ls: seq<Label>, i: nat, cutoff: nat)
    requires Run(cfg, ws, ls) && LastMomentBy(ws, i, cutoff)
    ensures UpTo(ws[|ws| - 1].env.log, cutoff) == ws[i].env.log
  {
    hide StepOf, RegInv, AuthReplay, VolumeReplay, LogInv, NoAllowance, RecordsKept;
    var log, n := ws[|ws| - 1].env.log, |ws[i].env.log|;
    InvAlways(cfg, ws, ls, i);
    RetirementIsFinal(cfg, ws, ls, i, |ws| - 1);
    if i + 1 < |ws| {
      LaterRowsAreLater(cfg, ws, ls, i, |ws| - 1);
    }
    forall k | 0 <= k < n
      ensures log[k].ts <= cutoff
    {
      assert log[k] == ws[i].env.log[k];
      assert Consistent(ws[i].env.log[k], Stamped(ws[i].env.clock, FeeTransfer(0)));
    }
    UpToSplit(log, n, cutoff);
  }

  lemma {:induction false} DistinctCount(ids: seq<Bytes32>, all: set<Bytes32>)
    requires forall i, j :: 0 <= i < j < |ids| ==> ids[i] != ids[j]
    requires forall id :: id in all <==> id in ids
    ensures |all| == |ids|
  {
    if ids == [] {
      assert all == {};
    } else {
      var last := ids[|ids| - 1];
      assert ids == ids[..|ids| - 1] + [last];
      DistinctCount(ids[..|ids| - 1], all - {last});
    }
  }

  /** No id appears twice in the active index, so its length counts the Active volumes. */
  lemma IndexCounts(reg: Registry, active: map<Bytes32, nat>)
    requires IndexInv(reg)
    requires forall id :: id in active <==> VolumeAt(reg, id).status == Active
    ensures |active| == |reg.active|
  {
    forall i, j | 0 <= i < j < |reg.active|
      ensures reg.active[i] != reg.active[j]
    {
      assert VolumeAt(reg, reg.active[i]).activeIndex == i && VolumeAt(reg, reg.active[j]).activeIndex == j;
    }
    forall id
      ensures id in active.Keys <==> id in reg.active
    {
      if id in reg.active {
        var i :| 0 <= i < |reg.active| && reg.active[i] == id;
        assert VolumeAt(reg, reg.active[i]).status == Active;
      }
    }
    DistinctCount(reg.active, active.Keys);
  }

  ghost function ActiveOwners(reg: Registry): set<Addr> {
    set o | o in reg.accounts && reg.accounts[o].active
  }

  /** The Active volumes with their recorded depths. */
  ghost function ActiveDepths(reg: Registry): map<Bytes32, nat> {
    map id | id in reg.volumes && reg.volumes[id].status == Active :: reg.volumes[id].depth
  }

  /** After any run, rows of its log fed in any order and any number of times, replayed to any moment, give the
      contract's state at that moment: its Active volumes with their recorded depths, as many as the active index holds,
      and its active accounts. */
  lemma ReplayIsTheContract(cfg: Config, ws: seq<World>, ls: seq<Label>, i: nat, rows: seq<Row>, cutoff: nat)
    requires Run(cfg, ws, ls) && LastMomentBy(ws, i, cutoff)
    requires SameRows(ws[|ws| - 1].env.log, rows)
    ensures var active := VolumesIn(TakeUntil(Of(FromRows(rows), ACTIVE_SET), cutoff));
            && (forall id :: id in active <==> VolumeAt(ws[i].reg, id).status == Active)
            && (forall id :: id in active ==> active[id] == VolumeAt(ws[i].reg, id).depth)
            && |active| == |ws[i].reg.active|
    ensures OwnersIn(TakeUntil(Of(FromRows(rows), ACCOUNTS), cutoff)) == ActiveOwners(ws[i].reg)
  {
    hide StepOf, TakeUntil, Of, FromRows, VolumesIn, OwnersIn, IndexInv, IdInv, RecordInv, NoAllowance, LogInv, OwnerIn,
         AdmitsBy, AuthIn, DesignatedIn, UpTo, Ordered, SameRows;
    InvAlways(cfg, ws, ls, |ws| - 1);
    InvAlways(cfg, ws, ls, i);
    CutIsTheLogThen(cfg, ws, ls, i, cutoff);
    ReplaySeesTheChain(ws[|ws| - 1].env.log, rows, cutoff);
    IndexCounts(ws[i].reg, VolumesIn(ws[i].env.log));
    forall o
      ensures o in OwnersIn(ws[i].env.log) <==> o in ActiveOwners(ws[i].reg)
    {
      assert o in OwnersIn(ws[i].env.log) <==> AccountAt(ws[i].reg, o).active;
    }
  }

  /** Before the first moment of the run the replays are empty, as the contract was. */
  lemma ReplayBeforeDeployment(cfg: Config, ws: seq<World>, ls: seq<Label>, rows: seq<Row>, cutoff: nat)
    requires Run(cfg, ws, ls) && cutoff < ws[0].env.clock.now
    requires SameRows(ws[|ws| - 1].env.log, rows)
    ensures VolumesIn(TakeUntil(Of(FromRows(rows), ACTIVE_SET), cutoff)) == map[]
    ensures OwnersIn(TakeUntil(Of(FromRows(rows), ACCOUNTS), cutoff)) == {}
  {
    hide StepOf, TakeUntil, Of, FromRows, RegInv, NoAllowance, LogInv, AuthReplay, VolumeReplay;
    InvAlways(cfg, ws, ls, |ws| - 1);
    var log := ws[|ws| - 1].env.log;
    if |ws| > 1 {
      LaterRowsAreLater(cfg, ws, ls, 0, |ws| - 1);
      RetirementIsFinal(cfg, ws, ls, 0, 1);
    }
    UpToSplit(log, 0, cutoff);
    ReplaySeesTheChain(log, rows, cutoff);
  }

  /** The last moment of the run within the cutoff. */
  function LastMoment(ws: seq<World>, cutoff: nat): (i: nat)
    requires ws != [] && ws[0].env.clock.now <= cutoff
    ensures LastMomentBy(ws, i, cutoff)
  {
    if ws[|ws| - 1].env.clock.now <= cutoff then |ws| - 1 else LastMoment(ws[..|ws| - 1], cutoff)
  }

  /** The capacity of the contract's Active volumes at a moment of the run; before it there is none. */
  ghost function ContractCapacity(ws: seq<World>, cutoff: nat): DailyCapacity
    requires ws != []
  {
    if cutoff < ws[0].env.clock.now then NO_CAPACITY else CapacityOf(ActiveDepths(ws[LastMoment(ws, cutoff)].reg))
  }

  ghost function ContractAccounts(ws: seq<World>, cutoff: nat): nat
    requires ws != []
  {
    if cutoff < ws[0].env.clock.now then 0 else |ActiveOwners(ws[LastMoment(ws, cutoff)].reg)|
  }

  lemma ReplayedLevels(cfg: Config, ws: seq<World>, ls: seq<Label>, rows: seq<Row>, cutoff: nat)
    requires Run(cfg, ws, ls) && SameRows(ws[|ws| - 1].env.log, rows)
    ensures CapacityOf(VolumesIn(TakeUntil(Of(FromRows(rows), ACTIVE_SET), cutoff))) == ContractCapacity(ws, cutoff)
    ensures |OwnersIn(TakeUntil(Of(FromRows(rows), ACCOUNTS), cutoff))| == ContractAccounts(ws, cutoff)
  {
    hide StepOf, TakeUntil, Of, FromRows, VolumesIn, OwnersIn, LastMoment, SameRows, CapacityOf, ActiveOwners;
    if cutoff < ws[0].env.clock.now {
      ReplayBeforeDeployment(cfg, ws, ls, rows, cutoff);
      NothingTotals();
    } else {
      var i := LastMoment(ws, cutoff);
      ReplayIsTheContract(cfg, ws, ls, i, rows, cutoff);
      assert VolumesIn(TakeUntil(Of(FromRows(rows), ACTIVE_SET), cutoff)) == ActiveDepths(ws[i].reg);
    }
  }

  /** Hence a day's reported level is the contract's own level at the end of that day. */
  lemma DailyLevelIsTheContract(cfg: Config, ws: seq<World>, ls: seq<Label>, rows: seq<Row>, day: nat, asOf: nat)
    requires Run(cfg, ws, ls) && SameRows(ws[|ws| - 1].env.log, rows)
    ensures Capacities(FromRows(rows), asOf)(day) == ContractCapacity(ws, DayEnd(day, asOf))
    ensures Authorisations(FromRows(rows), asOf)(day) == ContractAccounts(ws, DayEnd(day, asOf))
  {
    ReplayedLevels(cfg, ws, ls, rows, DayEnd(day, asOf));
  }

  /** What PostageStamp has received from registry calls by a moment, read off the token alone. */
  ghost function ReceivedBy(cfg: Config, ws: seq<World>, ls: seq<Label>, cutoff: nat): int
    requires ws != [] && |ws| == |ls| + 1
  {
    if cutoff < ws[0].env.clock.now then 0 else -PulledFrom(ws, ls, cfg.stamp, LastMoment(ws, cutoff))
  }

  lemma FeesByCutoff(cfg: Config, ws: seq<World>, ls: seq<Label>, rows: seq<Row>, cutoff: nat)
    requires Run(cfg, ws, ls) && multiset(rows) == multiset(ws[|ws| - 1].env.log)
    ensures FeesUpTo(Of(FromRows(rows), TRANSFERS), cutoff) == ReceivedBy(cfg, ws, ls, cutoff)
  {
    hide StepOf, Inv, Of, FromRows, PulledFrom, UpTo, FeesUpTo, Fees, Charged, LastMoment;
    var log := ws[|ls|].env.log;
    FeeFoldIsTheSum(rows, cutoff);
    FeesOfAPermutation(rows, log, cutoff);
    FeesOfTheCut(log, cutoff);
    if cutoff < ws[0].env.clock.now {
      NothingBefore(cfg, ws, ls, cutoff);
    } else {
      var i := LastMoment(ws, cutoff);
      EveryPullIsCharged(cfg, ws, ls, i, cfg.stamp);
      CutIsTheLogThen(cfg, ws, ls, i, cutoff);
    }
  }

  lemma NothingBefore(cfg: Config, ws: seq<World>, ls: seq<Label>, cutoff: nat)
    requires Run(cfg, ws, ls) && cutoff < ws[0].env.clock.now
    ensures Fees(UpTo(ws[|ws| - 1].env.log, cutoff)) == 0
  {
    hide StepOf, UpTo;
    var log := ws[|ws| - 1].env.log;
    if |ws| > 1 {
      LaterRowsAreLater(cfg, ws, ls, 0, |ws| - 1);
      RetirementIsFinal(cfg, ws, ls, 0, 1);
    }
    UpToSplit(log, 0, cutoff);
  }

  /** And the projected fee total is exactly what PostageStamp received from the registry over the run. */
  lemma FeeTotalIsReceived(cfg: Config, ws: seq<World>, ls: seq<Label>, rows: seq<Row>, asOf: nat)
    requires Run(cfg, ws, ls) && ws[|ws| - 1].env.clock.now <= asOf
    requires multiset(rows) == multiset(ws[|ws| - 1].env.log)
    ensures FeesUpTo(Of(FromRows(rows), TRANSFERS), asOf) == -PulledFrom(ws, ls, cfg.stamp, |ls|)
  {
    hide StepOf, Of, FromRows, PulledFrom, FeesUpTo;
    RetirementIsFinal(cfg, ws, ls, 0, |ws| - 1);
    FeesByCutoff(cfg, ws, ls, rows, asOf);
  }

  /** The fees of any span of days are exactly what PostageStamp received from the registry on those days. */
  lemma SpanIsReceived(cfg: Config, ws: seq<World>, ls: seq<Label>, rows: seq<Row>, first: nat, n: nat, asOf: nat)
    requires Run(cfg, ws, ls) && multiset(rows) == multiset(ws[|ws| - 1].env.log)
    requires n > 0 && first + n - 1 <= Day(asOf)
    ensures SpanFees(Of(FromRows(rows), TRANSFERS), first, n, asOf) ==
            ReceivedBy(cfg, ws, ls, DayEnd(first + n - 1, asOf))
            - if first == 0 then 0 else ReceivedBy(cfg, ws, ls, first * ONE_DAY - 1)
  {
    hide Run, Of, FromRows, ReceivedBy, SpanFees, FeesUpTo, DayEnd, Day;
    SpanIsBetween(Of(FromRows(rows), TRANSFERS), first, n, asOf);
    FeesByCutoff(cfg, ws, ls, rows, DayEnd(first + n - 1, asOf));
    if first > 0 {
      FeesByCutoff(cfg, ws, ls, rows, first * ONE_DAY - 1);
    }
  }

  lemma {:induction false} FeesOfTheCut(log: seq<Row>, asOf: nat)
    ensures FeesUpTo(log, asOf) == Fees(UpTo(log, asOf))
  {
    if log != [] {
      FeesOfTheCut(Init(log), asOf);
      if Last(log).ts <= asOf {
        assert Init(UpTo(log, asOf)) == UpTo(Init(log), asOf);
      } else {
        assert UpTo(log, asOf) == UpTo(Init(log), asOf);
      }
    }
  }
}
