/** The projector's folds: loops over the merged rows, each proved against a replay of the log. */
module Projector {
  import opened Machine
  import opened Chain
  import opened History
  import opened EventStore

  const ONE_DAY: nat := 86400

  const ADMITS: seq<EventName> := [NameVolumeCreated, NameVolumeImported]
  const ACTIVE_SET: seq<EventName> := [NameVolumeCreated, NameVolumeImported, NameVolumeRetired]
  const ACCOUNTS: seq<EventName> := [NameAccountActivated, NameAccountRevoked]
  const TRANSFERS: seq<EventName> := [NameTransfer]

  // ----- cutoffs ------------------------------------------------------------

  /** The rows before the first one past the cutoff: where the replay loops break. */
  function TakeUntil(rows: seq<Row>, cutoff: nat): seq<Row> {
    if rows == [] || rows[0].ts > cutoff then [] else [rows[0]] + TakeUntil(rows[1..], cutoff)
  }

  /** All the rows at or before the cutoff. */
  function UpTo(rows: seq<Row>, cutoff: nat): seq<Row> {
    if rows == [] then []
    else UpTo(Init(rows), cutoff) + (if Last(rows).ts <= cutoff then [Last(rows)] else [])
  }

  ghost predicate TimeOrdered(rows: seq<Row>) {
    forall i, j :: 0 <= i < j < |rows| ==> rows[i].ts <= rows[j].ts
  }

  lemma {:induction false} TakeUntilIsPrefix(rows: seq<Row>, cutoff: nat)
    ensures TakeUntil(rows, cutoff) <= rows
    ensures forall k :: 0 <= k < |TakeUntil(rows, cutoff)| ==> rows[k].ts <= cutoff
    ensures |TakeUntil(rows, cutoff)| < |rows| ==> rows[|TakeUntil(rows, cutoff)|].ts > cutoff
  {
    if rows != [] && rows[0].ts <= cutoff {
      TakeUntilIsPrefix(rows[1..], cutoff);
      var rest := TakeUntil(rows[1..], cutoff);
      assert forall k :: 0 < k < |rows| ==> rows[k] == rows[1..][k - 1];
    }
  }

  lemma {:induction false} UpToMembers(rows: seq<Row>, cutoff: nat, x: Row)
    ensures x in UpTo(rows, cutoff) <==> x in rows && x.ts <= cutoff
  {
    if rows != [] {
      UpToMembers(Init(rows), cutoff, x);
      assert rows == Init(rows) + [Last(rows)];
    }
  }

  lemma {:induction false} UpToStrict(rows: seq<Row>, cutoff: nat)
    requires StrictlyInOrder(rows)
    ensures StrictlyInOrder(UpTo(rows, cutoff))
  {
    if rows != [] {
      UpToStrict(Init(rows), cutoff);
      var head := UpTo(Init(rows), cutoff);
      forall i | 0 <= i < |head|
        ensures Precedes(head[i], Last(rows))
      {
        assert head[i] in head;
        UpToMembers(Init(rows), cutoff, head[i]);
        var k :| 0 <= k < |Init(rows)| && Init(rows)[k] == head[i];
        assert Precedes(rows[k], rows[|rows| - 1]);
      }
    }
  }

  /** In time order, stopping at the first late row keeps exactly the rows in time. */
  lemma TakeUntilMembers(rows: seq<Row>, cutoff: nat, x: Row)
    requires TimeOrdered(rows)
    ensures x in TakeUntil(rows, cutoff) <==> x in rows && x.ts <= cutoff
  {
    TakeUntilIsPrefix(rows, cutoff);
    var n := |TakeUntil(rows, cutoff)|;
    if x in rows && x.ts <= cutoff {
      var k :| 0 <= k < |rows| && rows[k] == x;
      assert k < n;
      assert TakeUntil(rows, cutoff)[k] == x;
    }
  }

  // ----- replays do not see copies, or rows of other types -------------------

  lemma {:induction false} ReplaysIgnoreCopies(rows: seq<Row>)
    ensures VolumesIn(Collapse(rows)) == VolumesIn(rows)
    ensures OwnersIn(Collapse(rows)) == OwnersIn(rows)
    ensures |rows| > 0 ==> |Collapse(rows)| > 0 && Last(Collapse(rows)) == Last(rows)
  {
    if |rows| > 1 {
      ReplaysIgnoreCopies(Init(rows));
      if rows[|rows| - 1] == rows[|rows| - 2] {
        assert Last(Init(rows)) == Last(rows);
      } else {
        assert Init(Collapse(rows)) == Collapse(Init(rows));
      }
    }
  }

  lemma NameSets()
    ensures NameSet(ACTIVE_SET) == {NameVolumeCreated, NameVolumeImported, NameVolumeRetired}
    ensures NameSet(ACCOUNTS) == {NameAccountActivated, NameAccountRevoked}
  {
    assert ACTIVE_SET[0] == NameVolumeCreated && ACTIVE_SET[1] == NameVolumeImported && ACTIVE_SET[2] == NameVolumeRetired;
    assert ACCOUNTS[0] == NameAccountActivated && ACCOUNTS[1] == NameAccountRevoked;
  }

  lemma ReplayOneMore(rows: seq<Row>, r: Row)
    ensures VolumesIn(rows + [r]) == if IsAdmit(r.event) then VolumesIn(rows)[r.event.id := r.event.depth]
                                     else if r.event.VolumeRetired? then VolumesIn(rows) - {r.event.id}
                                     else VolumesIn(rows)
    ensures OwnersIn(rows + [r]) == if r.event.AccountActivated? then OwnersIn(rows) + {r.event.owner}
                                    else if r.event.AccountRevoked? then OwnersIn(rows) - {r.event.owner}
                                    else OwnersIn(rows)
  {
    assert Init(rows + [r]) == rows && Last(rows + [r]) == r;
  }

  lemma NamedInOneMore(rows: seq<Row>, r: Row, names: set<EventName>)
    ensures NamedIn(rows + [r], names) == if NameOf(r.event) in names then NamedIn(rows, names) + [r] else NamedIn(rows, names)
  {
    assert Init(rows + [r]) == rows && Last(rows + [r]) == r;
  }

  lemma NothingNamed(names: set<EventName>)
    ensures NamedIn([], names) == []
  {
  }

  lemma {:induction false} VolumesReadTheirTypes(rows: seq<Row>)
    ensures VolumesIn(NamedIn(rows, NameSet(ACTIVE_SET))) == VolumesIn(rows)
  {
    hide VolumesIn, NamedIn, NameSet;
    NothingNamed(NameSet(ACTIVE_SET));
    if rows != [] {
      var before, r := Init(rows), Last(rows);
      assert before + [r] == rows;
      VolumesReadTheirTypes(before);
      NameSets();
      NamedInOneMore(before, r, NameSet(ACTIVE_SET));
      ReplayOneMore(before, r);
      ReplayOneMore(NamedIn(before, NameSet(ACTIVE_SET)), r);
    }
  }

  lemma {:induction false} OwnersReadTheirTypes(rows: seq<Row>)
    ensures OwnersIn(NamedIn(rows, NameSet(ACCOUNTS))) == OwnersIn(rows)
  {
    hide OwnersIn, NamedIn, NameSet;
    NothingNamed(NameSet(ACCOUNTS));
    if rows != [] {
      var before, r := Init(rows), Last(rows);
      assert before + [r] == rows;
      OwnersReadTheirTypes(before);
      NameSets();
      NamedInOneMore(before, r, NameSet(ACCOUNTS));
      ReplayOneMore(before, r);
      ReplayOneMore(NamedIn(before, NameSet(ACCOUNTS)), r);
    }
  }

  lemma PlacesInOrder(chain: seq<Row>, a: nat, b: nat)
    requires Ordered(chain) && a < |chain| && b < |chain| && NotAfter(chain[a], chain[b])
    ensures a <= b
  {
  }

  /** The merged rows of a fed chain are in time order, like the chain. */
  lemma MergedInTime(chain: seq<Row>, rows: seq<Row>, names: seq<EventName>)
    requires Ordered(chain) && SameRows(chain, rows)
    ensures TimeOrdered(Of(FromRows(rows), names))
  {
    var merged := Of(FromRows(rows), names);
    SortInOrder(Gather(FromRows(rows), names));
    forall i, j | 0 <= i < j < |merged|
      ensures merged[i].ts <= merged[j].ts
    {
      OfMembers(rows, names, merged[i]);
      OfMembers(rows, names, merged[j]);
      var a :| 0 <= a < |chain| && chain[a] == merged[i];
      var b :| 0 <= b < |chain| && chain[b] == merged[j];
      assert NotAfter(merged[i], merged[j]);
      PlacesInOrder(chain, a, b);
      assert chain[a].ts <= chain[b].ts by {
        if a < b {
          assert Consistent(chain[a], chain[b]);
        }
      }
    }
  }

  /** Cut at a moment and rid of copies, the merged rows are the chain's own, of those types, up to that moment. */
  lemma CutRebuildsTheChain(chain: seq<Row>, rows: seq<Row>, names: seq<EventName>, cutoff: nat)
    requires Ordered(chain) && SameRows(chain, rows)
    ensures Collapse(TakeUntil(Of(FromRows(rows), names), cutoff)) == NamedIn(UpTo(chain, cutoff), NameSet(names))
  {
    var merged := Of(FromRows(rows), names);
    var cut := TakeUntil(merged, cutoff);
    MergedInTime(chain, rows, names);
    TakeUntilIsPrefix(merged, cutoff);
    SortInOrder(Gather(FromRows(rows), names));
    KeyedByTheChain(chain, rows, names);
    assert forall x :: x in cut ==> x in merged;
    CollapseStrict(cut);
    UpToStrict(chain, cutoff);
    NamedInStrict(UpTo(chain, cutoff), NameSet(names));
    forall x
      ensures x in Collapse(cut) <==> x in NamedIn(UpTo(chain, cutoff), NameSet(names))
    {
      CollapseMembers(cut, x);
      TakeUntilMembers(merged, cutoff, x);
      OfMembers(rows, names, x);
      NamedInMembers(UpTo(chain, cutoff), NameSet(names), x);
      UpToMembers(chain, cutoff, x);
    }
    StrictOrderIsUnique(Collapse(cut), NamedIn(UpTo(chain, cutoff), NameSet(names)));
  }

  /** Whatever order and however many copies the rows come in, the replay loops see the chain up to the cutoff. */
  lemma ReplaySeesTheChain(chain: seq<Row>, rows: seq<Row>, cutoff: nat)
    requires Ordered(chain) && SameRows(chain, rows)
    ensures VolumesIn(TakeUntil(Of(FromRows(rows), ACTIVE_SET), cutoff)) == VolumesIn(UpTo(chain, cutoff))
    ensures OwnersIn(TakeUntil(Of(FromRows(rows), ACCOUNTS), cutoff)) == OwnersIn(UpTo(chain, cutoff))
  {
    CutRebuildsTheChain(chain, rows, ACTIVE_SET, cutoff);
    CutRebuildsTheChain(chain, rows, ACCOUNTS, cutoff);
    ReplaysIgnoreCopies(TakeUntil(Of(FromRows(rows), ACTIVE_SET), cutoff));
    ReplaysIgnoreCopies(TakeUntil(Of(FromRows(rows), ACCOUNTS), cutoff));
    VolumesReadTheirTypes(UpTo(chain, cutoff));
    OwnersReadTheirTypes(UpTo(chain, cutoff));
  }

  // ----- the replay loops ---------------------------------------------------

  lemma ReplayStep(rows: seq<Row>, i: nat)
    requires i < |rows|
    ensures var e, before := rows[i].event, VolumesIn(rows[..i]);
            VolumesIn(rows[..i + 1]) == if IsAdmit(e) then before[e.id := e.depth]
                                        else if e.VolumeRetired? then before - {e.id} else before
    ensures var e, before := rows[i].event, OwnersIn(rows[..i]);
            OwnersIn(rows[..i + 1]) == if e.AccountActivated? then before + {e.owner}
                                       else if e.AccountRevoked? then before - {e.owner} else before
  {
    ReplayOneMore(rows[..i], rows[i]);
    assert rows[..i] + [rows[i]] == rows[..i + 1];
  }

  lemma NothingReplayed(rows: seq<Row>)
    ensures VolumesIn(rows[..0]) == map[] && OwnersIn(rows[..0]) == {}
  {
  }

  /** `_active_set_at`. */
  method ActiveSetAt(events: EventLog, cutoff: nat) returns (active: map<Bytes32, nat>)
    requires Typed(events)
    ensures active == VolumesIn(TakeUntil(Of(events, ACTIVE_SET), cutoff))
  {
    var rows := Of(events, ACTIVE_SET);
    TakeUntilIsPrefix(rows, cutoff);
    hide Of, TakeUntil, VolumesIn, Typed;
    active := map[];
    var i := 0;
    assert active == VolumesIn(rows[..0]) by {
      NothingReplayed(rows);
    }
    while i < |rows|
      invariant i <= |TakeUntil(rows, cutoff)|
      invariant active == VolumesIn(rows[..i])
    {
      if rows[i].ts > cutoff {
        break;
      }
      var e := rows[i].event;
      ReplayStep(rows, i);
      OfIsTyped(events, ACTIVE_SET, rows[i]);
      if IsAdmit(e) {
        active := active[e.id := e.depth];
      } else {
        active := active - {e.id};
      }
      i := i + 1;
    }
    assert TakeUntil(rows, cutoff) == rows[..i];
  }

  /** `_authorized_at`. */
  method AuthorizedAt(events: EventLog, cutoff: nat) returns (count: nat)
    requires Typed(events)
    ensures count == |OwnersIn(TakeUntil(Of(events, ACCOUNTS), cutoff))|
  {
    var rows := Of(events, ACCOUNTS);
    TakeUntilIsPrefix(rows, cutoff);
    hide Of, TakeUntil, OwnersIn, Typed;
    var active: set<Addr> := {};
    var i := 0;
    assert active == OwnersIn(rows[..0]) by {
      NothingReplayed(rows);
    }
    while i < |rows|
      invariant i <= |TakeUntil(rows, cutoff)|
      invariant active == OwnersIn(rows[..i])
    {
      if rows[i].ts > cutoff {
        break;
      }
      ReplayStep(rows, i);
      OfIsTyped(events, ACCOUNTS, rows[i]);
      if rows[i].event.AccountActivated? {
        active := active + {rows[i].event.owner};
      } else {
        active := active - {rows[i].event.owner};
      }
      i := i + 1;
    }
    assert TakeUntil(rows, cutoff) == rows[..i];
    count := |active|;
  }

  // ----- fee volume ---------------------------------------------------------

  function Day(ts: nat): nat {
    ts / ONE_DAY
  }

  function FeeOf(r: Row): nat {
    if r.event.FeeTransfer? then r.event.value else 0
  }

  /** The fees of one UTC day, among the rows at or before `asOf`. */
  function DayFees(rows: seq<Row>, day: nat, asOf: nat): nat {
    if rows == [] then 0
    else DayFees(Init(rows), day, asOf)
         + (if Last(rows).ts <= asOf && Day(Last(rows).ts) == day then FeeOf(Last(rows)) else 0)
  }

  /** The fees of every row at or before `asOf`. */
  function FeesUpTo(rows: seq<Row>, asOf: nat): nat {
    if rows == [] then 0
    else FeesUpTo(Init(rows), asOf) + (if Last(rows).ts <= asOf then FeeOf(Last(rows)) else 0)
  }

  /** A contiguous run of UTC days: `days[k]` belongs to day `first + k`. */
  datatype Series<T> = Series(first: nat, days: seq<T>)

  /** The first day an in-time row falls on, or the day of `asOf` when there is none. */
  function FirstDay(rows: seq<Row>, asOf: nat): nat {
    if rows == [] then Day(asOf)
    else
      var before := FirstDay(Init(rows), asOf);
      if Last(rows).ts <= asOf && Day(Last(rows).ts) < before then Day(Last(rows).ts) else before
  }

  lemma {:induction false} FirstDayIsFirst(rows: seq<Row>, asOf: nat)
    ensures FirstDay(rows, asOf) <= Day(asOf)
    ensures forall r :: r in rows && r.ts <= asOf ==> FirstDay(rows, asOf) <= Day(r.ts)
    ensures FirstDay(rows, asOf) == Day(asOf)
            || exists r :: r in rows && r.ts <= asOf && Day(r.ts) == FirstDay(rows, asOf)
  {
    if rows != [] {
      FirstDayIsFirst(Init(rows), asOf);
      assert rows == Init(rows) + [Last(rows)];
      assert Last(rows) in rows;
    }
  }

  /** `fee_volume_daily`, in integer atomic units: buckets filled in a loop, then one entry per day, gaps as zero. */
  method FeeVolumeDaily(events: EventLog, asOf: nat) returns (series: Series<nat>)
    requires Typed(events)
    ensures var rows := Of(events, TRANSFERS);
            && series.first == FirstDay(rows, asOf)
            && |series.days| == Day(asOf) + 1 - series.first
            && forall k :: 0 <= k < |series.days| ==> series.days[k] == DayFees(rows, series.first + k, asOf)
  {
    var rows := Of(events, TRANSFERS);
    var perDay: map<nat, nat> := map[];
    var first: Option<nat> := None;
    hide Of;
    for i := 0 to |rows|
      invariant forall d :: (if d in perDay then perDay[d] else 0) == DayFees(rows[..i], d, asOf)
      invariant FirstDay(rows[..i], asOf) == if first.Some? then first.value else Day(asOf)
      invariant first.Some? ==> first.value <= Day(asOf)
    {
      var r := rows[i];
      OfIsTyped(events, TRANSFERS, r);
      assert Init(rows[..i + 1]) == rows[..i] && Last(rows[..i + 1]) == r;
      if r.ts <= asOf {
        var day := Day(r.ts);
        perDay := perDay[day := (if day in perDay then perDay[day] else 0) + r.event.value];
        first := Some(if first.None? || day < first.value then day else first.value);
      }
    }
    assert rows[..|rows|] == rows;
    FirstDayIsFirst(rows, asOf);
    var from := if first.Some? then first.value else Day(asOf);
    var days := seq(Day(asOf) + 1 - from,
                    k requires 0 <= k < Day(asOf) + 1 - from => if from + k in perDay then perDay[from + k] else 0);
    series := Series(from, days);
  }

  function Sum(days: seq<nat>): nat {
    if days == [] then 0 else Sum(days[..|days| - 1]) + days[|days| - 1]
  }

  /** The fees of the first `n` days from `first`. */
  function SpanFees(rows: seq<Row>, first: nat, n: nat, asOf: nat): nat {
    if n == 0 then 0 else SpanFees(rows, first, n - 1, asOf) + DayFees(rows, first + n - 1, asOf)
  }

  lemma {:induction false} SpanAddsOneRow(rows: seq<Row>, first: nat, n: nat, asOf: nat)
    requires rows != []
    ensures SpanFees(rows, first, n, asOf) ==
            SpanFees(Init(rows), first, n, asOf)
            + if Last(rows).ts <= asOf && first <= Day(Last(rows).ts) < first + n then FeeOf(Last(rows)) else 0
  {
    if n > 0 {
      SpanAddsOneRow(rows, first, n - 1, asOf);
    }
  }

  lemma {:induction false} SpanHoldsAll(rows: seq<Row>, first: nat, n: nat, asOf: nat)
    requires forall r :: r in rows && r.ts <= asOf ==> first <= Day(r.ts)
    requires first + n == Day(asOf) + 1
    ensures SpanFees(rows, first, n, asOf) == FeesUpTo(rows, asOf)
  {
    if rows == [] {
      EmptySpan(first, n, asOf);
    } else {
      assert forall r :: r in Init(rows) ==> r in rows;
      assert Last(rows) in rows;
      SpanHoldsAll(Init(rows), first, n, asOf);
      SpanAddsOneRow(rows, first, n, asOf);
      if Last(rows).ts <= asOf {
        assert Day(Last(rows).ts) <= Day(asOf);
      }
    }
  }

  lemma {:induction false} EmptySpan(first: nat, n: nat, asOf: nat)
    ensures SpanFees([], first, n, asOf) == 0
  {
    if n > 0 {
      EmptySpan(first, n - 1, asOf);
    }
  }

  lemma {:induction false} SumIsSpan(days: seq<nat>, rows: seq<Row>, first: nat, asOf: nat)
    requires forall k :: 0 <= k < |days| ==> days[k] == DayFees(rows, first + k, asOf)
    ensures Sum(days) == SpanFees(rows, first, |days|, asOf)
  {
    if days != [] {
      SumIsSpan(days[..|days| - 1], rows, first, asOf);
    }
  }

  /** Nothing is lost or counted twice between days: the daily series sums to every fee at or before `asOf`. */
  lemma FeeSeriesConserves(rows: seq<Row>, asOf: nat, series: Series<nat>)
    requires series.first == FirstDay(rows, asOf) && |series.days| == Day(asOf) + 1 - series.first
    requires forall k :: 0 <= k < |series.days| ==> series.days[k] == DayFees(rows, series.first + k, asOf)
    ensures Sum(series.days) == FeesUpTo(rows, asOf)
  {
    FirstDayIsFirst(rows, asOf);
    SumIsSpan(series.days, rows, series.first, asOf);
    SpanHoldsAll(rows, series.first, |series.days|, asOf);
  }

  // ----- copies and the fee fold --------------------------------------------

  lemma {:induction false} InsertFees(rows: seq<Row>, r: Row, asOf: nat)
    ensures FeesUpTo(Insert(rows, r), asOf) == FeesUpTo(rows, asOf) + if r.ts <= asOf then FeeOf(r) else 0
  {
    if rows == [] || NotAfter(Last(rows), r) {
      assert Init(rows + [r]) == rows;
    } else {
      InsertFees(Init(rows), r, asOf);
      assert Init(Insert(rows, r)) == Insert(Init(rows), r);
    }
  }

  lemma {:induction false} SortFees(rows: seq<Row>, asOf: nat)
    ensures FeesUpTo(Sort(rows), asOf) == FeesUpTo(rows, asOf)
  {
    if rows != [] {
      SortFees(Init(rows), asOf);
      InsertFees(Sort(Init(rows)), Last(rows), asOf);
    }
  }

  lemma {:induction false} NamedFees(rows: seq<Row>, asOf: nat)
    ensures FeesUpTo(Named(rows, NameTransfer), asOf) == FeesUpTo(rows, asOf)
  {
    if rows != [] {
      NamedFees(Init(rows), asOf);
      var named := Named(rows, NameTransfer);
      if NameOf(Last(rows).event) == NameTransfer {
        assert Init(named) == Named(Init(rows), NameTransfer) && Last(named) == Last(rows);
      } else {
        assert named == Named(Init(rows), NameTransfer);
      }
    }
  }

  /** The fee fold counts every row it is fed, copies included: it is the plain sum over the fed rows. */
  lemma FeeFoldIsTheSum(rows: seq<Row>, asOf: nat)
    ensures FeesUpTo(Of(FromRows(rows), TRANSFERS), asOf) == FeesUpTo(rows, asOf)
  {
    var log := FromRows(rows);
    var named := Named(rows, NameTransfer);
    assert TRANSFERS[..0] == [] && TRANSFERS[0] == NameTransfer;
    assert Gather(log, []) == [];
    assert Gather(log, TRANSFERS) == Get(log, NameTransfer);
    if named != [] {
      NamedMembers(rows, NameTransfer, named[0]);
      assert NameTransfer in NamesOf(rows);
    }
    assert Get(log, NameTransfer) == Sort(named);
    SortFees(Sort(named), asOf);
    SortFees(named, asOf);
    NamedFees(rows, asOf);
  }

  lemma {:induction false} FeesAppend(a: seq<Row>, b: seq<Row>, asOf: nat)
    ensures FeesUpTo(a + b, asOf) == FeesUpTo(a, asOf) + FeesUpTo(b, asOf)
  {
    if b == [] {
      assert a + b == a;
    } else {
      assert Init(a + b) == a + Init(b) && Last(a + b) == Last(b);
      FeesAppend(a, Init(b), asOf);
    }
  }

  lemma {:induction false} FeesOfAPermutation(a: seq<Row>, b: seq<Row>, asOf: nat)
    requires multiset(a) == multiset(b)
    ensures FeesUpTo(a, asOf) == FeesUpTo(b, asOf)
  {
    if a == [] {
      assert |multiset(b)| == 0;
    } else {
      var r := Last(a);
      assert a == Init(a) + [r];
      assert r in multiset(b);
      var k :| 0 <= k < |b| && b[k] == r;
      var before, after := b[..k], b[k + 1..];
      assert b == before + [r] + after;
      OneOutCounts(Init(a), before, r, after);
      FeesOfAPermutation(Init(a), before + after, asOf);
      FeesOfOneOut(before, r, after, asOf);
    }
  }

  lemma OneOutCounts(init: seq<Row>, before: seq<Row>, r: Row, after: seq<Row>)
    requires multiset(init + [r]) == multiset(before + [r] + after)
    ensures multiset(init) == multiset(before + after)
  {
    assert multiset(init) == multiset(init + [r]) - multiset{r};
    assert multiset(before + after) == multiset(before + [r] + after) - multiset{r};
  }

  lemma FeesOfOneOut(a: seq<Row>, r: Row, b: seq<Row>, asOf: nat)
    ensures FeesUpTo(a + [r] + b, asOf) == FeesUpTo(a + b, asOf) + if r.ts <= asOf then FeeOf(r) else 0
  {
    FeesAppend(a, b, asOf);
    FeesAppend(a + [r], b, asOf);
    assert Init(a + [r]) == a;
  }
}
