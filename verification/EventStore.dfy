/** One log per event type, each in chain order, and the merge that reads several of them as one stream. */
module EventStore {
  import opened Chain
  import opened History

  datatype EventName =
    | NamePayerDesignated | NameAccountActivated | NameAccountRevoked | NameVolumeCreated | NameVolumeImported
    | NameVolumeRetired | NameToppedup | NameTopupSkipped | NameTransfer

  function NameOf(e: Event): EventName {
    match e
    case PayerDesignated(_, _) => NamePayerDesignated
    case AccountActivated(_, _) => NameAccountActivated
    case AccountRevoked(_, _, _) => NameAccountRevoked
    case VolumeCreated(_, _, _, _, _, _) => NameVolumeCreated
    case VolumeImported(_, _, _, _, _, _, _) => NameVolumeImported
    case VolumeRetired(_, _) => NameVolumeRetired
    case Toppedup(_, _, _) => NameToppedup
    case TopupSkipped(_, _) => NameTopupSkipped
    case FeeTransfer(_) => NameTransfer
  }

  // ----- the stable sort on (block_number, log_index) ------------------------

  predicate NotAfter(a: Row, b: Row) {
    a.block < b.block || (a.block == b.block && a.logIndex <= b.logIndex)
  }

  ghost predicate InOrder(rows: seq<Row>) {
    forall i, j :: 0 <= i < j < |rows| ==> NotAfter(rows[i], rows[j])
  }

  /** Insertion behind every row that is not after it. */
  function Insert(rows: seq<Row>, r: Row): (out: seq<Row>)
    ensures |out| == |rows| + 1
  {
    if rows == [] || NotAfter(Last(rows), r) then rows + [r] else Insert(Init(rows), r) + [Last(rows)]
  }

  function Sort(rows: seq<Row>): (out: seq<Row>)
    ensures |out| == |rows|
  {
    if rows == [] then [] else Insert(Sort(Init(rows)), Last(rows))
  }

  lemma {:induction false} InsertMembers(rows: seq<Row>, r: Row, x: Row)
    ensures x in Insert(rows, r) <==> x in rows || x == r
  {
    if rows != [] && !NotAfter(Last(rows), r) {
      InsertMembers(Init(rows), r, x);
    }
    if rows != [] {
      assert rows == Init(rows) + [Last(rows)];
    }
  }

  lemma {:induction false} InsertInOrder(rows: seq<Row>, r: Row)
    requires InOrder(rows)
    ensures InOrder(Insert(rows, r))
  {
    if rows != [] && !NotAfter(Last(rows), r) {
      InsertInOrder(Init(rows), r);
      var head := Insert(Init(rows), r);
      forall x | x in head
        ensures NotAfter(x, Last(rows))
      {
        InsertMembers(Init(rows), r, x);
      }
    }
  }

  lemma {:induction false} SortMembers(rows: seq<Row>, x: Row)
    ensures x in Sort(rows) <==> x in rows
  {
    if rows != [] {
      SortMembers(Init(rows), x);
      InsertMembers(Sort(Init(rows)), Last(rows), x);
      assert rows == Init(rows) + [Last(rows)];
    }
  }

  lemma {:induction false} SortInOrder(rows: seq<Row>)
    ensures InOrder(Sort(rows))
  {
    if rows != [] {
      SortInOrder(Init(rows));
      InsertInOrder(Sort(Init(rows)), Last(rows));
    }
  }

  // ----- one position, one row ----------------------------------------------

  /** A position in the chain identifies its row, so rows that agree on it are copies of one log. */
  ghost predicate Keyed(rows: seq<Row>) {
    forall a, b :: a in rows && b in rows && a.block == b.block && a.logIndex == b.logIndex ==> a == b
  }

  ghost predicate StrictlyInOrder(rows: seq<Row>) {
    forall i, j :: 0 <= i < j < |rows| ==> Precedes(rows[i], rows[j])
  }

  ghost predicate SameRows(a: seq<Row>, b: seq<Row>) {
    forall x :: x in a <==> x in b
  }

  /** Two strictly ordered sequences of the same rows are the same sequence. */
  lemma {:induction false} StrictOrderIsUnique(a: seq<Row>, b: seq<Row>)
    requires StrictlyInOrder(a) && StrictlyInOrder(b) && SameRows(a, b)
    ensures a == b
  {
    assert b != [] ==> b[0] in a;
    if a != [] {
      assert Last(a) in a;
      StrictIsOrdered(a);
      StrictIsOrdered(b);
      OrderedLastsAgree(a, b);
      forall x
        ensures x in Init(a) <==> x in Init(b)
      {
        InitMembers(a, x);
        InitMembers(b, x);
      }
      StrictOrderIsUnique(Init(a), Init(b));
      assert a == Init(a) + [Last(a)] && b == Init(b) + [Last(b)];
    }
  }

  lemma InitMembers(rows: seq<Row>, x: Row)
    requires rows != [] && StrictlyInOrder(rows)
    ensures x in Init(rows) <==> x in rows && x != Last(rows)
  {
    assert rows == Init(rows) + [Last(rows)];
    if x in Init(rows) {
      var i :| 0 <= i < |Init(rows)| && Init(rows)[i] == x;
      assert Precedes(rows[i], rows[|rows| - 1]);
    }
  }

  /** Repeated neighbours dropped. */
  function Collapse(rows: seq<Row>): seq<Row> {
    if |rows| <= 1 then rows
    else if rows[|rows| - 1] == rows[|rows| - 2] then Collapse(Init(rows))
    else Collapse(Init(rows)) + [Last(rows)]
  }

  lemma {:induction false} CollapseMembers(rows: seq<Row>, x: Row)
    ensures x in Collapse(rows) <==> x in rows
  {
    if |rows| > 1 {
      CollapseMembers(Init(rows), x);
      assert rows == Init(rows) + [Last(rows)];
      assert Init(rows)[|rows| - 2] in Init(rows);
    }
  }

  lemma {:induction false} CollapseStrict(rows: seq<Row>)
    requires InOrder(rows) && Keyed(rows)
    ensures StrictlyInOrder(Collapse(rows))
  {
    if |rows| > 1 {
      assert forall x :: x in Init(rows) ==> x in rows;
      CollapseStrict(Init(rows));
      if rows[|rows| - 1] != rows[|rows| - 2] {
        var head := Collapse(Init(rows));
        forall i | 0 <= i < |head|
          ensures Precedes(head[i], Last(rows))
        {
          CollapseMembers(Init(rows), head[i]);
          var k :| 0 <= k < |Init(rows)| && Init(rows)[k] == head[i];
          StepsAfter(rows, k);
        }
      }
    }
  }

  /** If the last row is no copy of the one before, it comes strictly after every other row. */
  lemma StepsAfter(rows: seq<Row>, k: nat)
    requires InOrder(rows) && Keyed(rows) && k < |rows| - 1 && rows[|rows| - 1] != rows[|rows| - 2]
    ensures Precedes(rows[k], Last(rows))
  {
    var prior := rows[|rows| - 2];
    assert prior in rows && Last(rows) in rows;
    assert NotAfter(prior, Last(rows)) && Precedes(prior, Last(rows));
    assert k < |rows| - 2 ==> NotAfter(rows[k], prior);
  }

  // ----- the partitioned log ------------------------------------------------

  datatype EventLog = EventLog(byEvent: map<EventName, seq<Row>>)

  function Named(rows: seq<Row>, name: EventName): seq<Row> {
    if rows == [] then []
    else Named(Init(rows), name) + (if NameOf(Last(rows).event) == name then [Last(rows)] else [])
  }

  function NamedIn(rows: seq<Row>, names: set<EventName>): seq<Row> {
    if rows == [] then []
    else NamedIn(Init(rows), names) + (if NameOf(Last(rows).event) in names then [Last(rows)] else [])
  }

  function NamesOf(rows: seq<Row>): set<EventName> {
    set r | r in rows :: NameOf(r.event)
  }

  function FromRows(rows: seq<Row>): EventLog {
    EventLog(map name | name in NamesOf(rows) :: Sort(Named(rows, name)))
  }

  function Get(log: EventLog, name: EventName): seq<Row> {
    if name in log.byEvent then log.byEvent[name] else []
  }

  function Gather(log: EventLog, names: seq<EventName>): seq<Row> {
    if names == [] then [] else Gather(log, names[..|names| - 1]) + Get(log, names[|names| - 1])
  }

  /** The requested types merged into one stream in chain order. */
  function Of(log: EventLog, names: seq<EventName>): seq<Row> {
    Sort(Gather(log, names))
  }

  ghost predicate Partitions(buckets: map<EventName, seq<Row>>, rows: seq<Row>) {
    && buckets.Keys == NamesOf(rows)
    && (forall name :: Named(rows, name) == if name in buckets then buckets[name] else [])
  }

  lemma PartitionOneMore(buckets: map<EventName, seq<Row>>, rows: seq<Row>, r: Row)
    requires Partitions(buckets, rows)
    ensures var name := NameOf(r.event);
            Partitions(buckets[name := (if name in buckets then buckets[name] else []) + [r]], rows + [r])
  {
    NamesOneMore(rows, r);
    hide NamesOf, Named;
    forall name
      ensures Named(rows + [r], name) == if NameOf(r.event) == name then Named(rows, name) + [r] else Named(rows, name)
    {
      NamedOneMore(rows, r, name);
    }
  }

  lemma PartitionNext(buckets: map<EventName, seq<Row>>, rows: seq<Row>, i: nat)
    requires i < |rows| && Partitions(buckets, rows[..i])
    ensures var name := NameOf(rows[i].event);
            Partitions(buckets[name := (if name in buckets then buckets[name] else []) + [rows[i]]], rows[..i + 1])
  {
    hide Partitions;
    PartitionOneMore(buckets, rows[..i], rows[i]);
    Sliced(rows, i);
  }

  lemma NamedOneMore(rows: seq<Row>, r: Row, name: EventName)
    ensures Named(rows + [r], name) == if NameOf(r.event) == name then Named(rows, name) + [r] else Named(rows, name)
  {
    assert Init(rows + [r]) == rows && Last(rows + [r]) == r;
  }

  lemma NamesOneMore(rows: seq<Row>, r: Row)
    ensures NamesOf(rows + [r]) == NamesOf(rows) + {NameOf(r.event)}
  {
    assert forall x :: x in rows + [r] <==> x in rows || x == r;
  }

  /** `from_rows`: bucket the rows by type, then sort each bucket. */
  method PartitionRows(rows: seq<Row>) returns (log: EventLog)
    ensures log == FromRows(rows)
  {
    hide *;
    var buckets: map<EventName, seq<Row>> := map[];
    NothingPartitioned(rows);
    for i := 0 to |rows|
      invariant Partitions(buckets, rows[..i])
    {
      var name := NameOf(rows[i].event);
      var before := if name in buckets then buckets[name] else [];
      PartitionNext(buckets, rows, i);
      buckets := buckets[name := before + [rows[i]]];
    }
    SortedBuckets(buckets, rows, rows[..|rows|]);
    log := SortBuckets(buckets);
  }

  lemma Sliced(rows: seq<Row>, i: nat)
    requires i < |rows|
    ensures rows[..i + 1] == rows[..i] + [rows[i]]
  {
  }

  function SortBuckets(buckets: map<EventName, seq<Row>>): EventLog {
    EventLog(map name | name in buckets :: Sort(buckets[name]))
  }

  lemma NothingPartitioned(rows: seq<Row>)
    ensures Partitions(map[], rows[..0])
  {
  }

  lemma SortedBuckets(buckets: map<EventName, seq<Row>>, rows: seq<Row>, all: seq<Row>)
    requires all == rows && Partitions(buckets, all)
    ensures SortBuckets(buckets) == FromRows(rows)
  {
    assert forall name :: name in buckets ==> Named(rows, name) == buckets[name];
  }

  lemma {:induction false} NamedMembers(rows: seq<Row>, name: EventName, x: Row)
    ensures x in Named(rows, name) <==> x in rows && NameOf(x.event) == name
  {
    if rows != [] {
      NamedMembers(Init(rows), name, x);
      assert rows == Init(rows) + [Last(rows)];
    }
  }

  lemma {:induction false} NamedInMembers(rows: seq<Row>, names: set<EventName>, x: Row)
    ensures x in NamedIn(rows, names) <==> x in rows && NameOf(x.event) in names
  {
    if rows != [] {
      NamedInMembers(Init(rows), names, x);
      assert rows == Init(rows) + [Last(rows)];
    }
  }

  lemma GetMembers(rows: seq<Row>, name: EventName, x: Row)
    ensures x in Get(FromRows(rows), name) <==> x in rows && NameOf(x.event) == name
  {
    NamedMembers(rows, name, x);
    SortMembers(Named(rows, name), x);
    if x in rows && NameOf(x.event) == name {
      assert name in NamesOf(rows);
    }
  }

  lemma {:induction false} GatherMembers(rows: seq<Row>, names: seq<EventName>, x: Row)
    ensures x in Gather(FromRows(rows), names) <==> x in rows && NameOf(x.event) in names
  {
    if names != [] {
      hide FromRows, NameOf;
      var init, last := names[..|names| - 1], names[|names| - 1];
      GatherMembers(rows, init, x);
      GetMembers(rows, last, x);
      assert names == init + [last];
      assert Gather(FromRows(rows), names) == Gather(FromRows(rows), init) + Get(FromRows(rows), last);
      hide Gather, Get;
    }
  }

  lemma OfMembers(rows: seq<Row>, names: seq<EventName>, x: Row)
    ensures x in Of(FromRows(rows), names) <==> x in rows && NameOf(x.event) in names
  {
    GatherMembers(rows, names, x);
    SortMembers(Gather(FromRows(rows), names), x);
  }

  lemma {:induction false} NamedInStrict(rows: seq<Row>, names: set<EventName>)
    requires StrictlyInOrder(rows)
    ensures StrictlyInOrder(NamedIn(rows, names))
  {
    if rows != [] {
      NamedInStrict(Init(rows), names);
      var head := NamedIn(Init(rows), names);
      forall i | 0 <= i < |head|
        ensures Precedes(head[i], Last(rows))
      {
        assert head[i] in head;
        NamedInMembers(Init(rows), names, head[i]);
        var k :| 0 <= k < |Init(rows)| && Init(rows)[k] == head[i];
        assert Precedes(rows[k], rows[|rows| - 1]);
      }
    }
  }

  ghost function NameSet(names: seq<EventName>): set<EventName> {
    set n | n in names
  }

  /** Copies of a chain's rows still agree with each other wherever they share a position. */
  lemma KeyedByTheChain(chain: seq<Row>, rows: seq<Row>, names: seq<EventName>)
    requires StrictlyInOrder(chain) && SameRows(chain, rows)
    ensures Keyed(Of(FromRows(rows), names))
  {
    var merged := Of(FromRows(rows), names);
    forall a, b | a in merged && b in merged && a.block == b.block && a.logIndex == b.logIndex
      ensures a == b
    {
      OfMembers(rows, names, a);
      OfMembers(rows, names, b);
      var i :| 0 <= i < |chain| && chain[i] == a;
      var j :| 0 <= j < |chain| && chain[j] == b;
      assert i == j;
    }
  }

  /** Partitioned, merged and rid of copies, rows fed in any order and any number of times give back the chain's own
      rows of the requested types, in chain order. */
  lemma OfRebuildsTheChain(chain: seq<Row>, rows: seq<Row>, names: seq<EventName>)
    requires StrictlyInOrder(chain) && SameRows(chain, rows)
    ensures Collapse(Of(FromRows(rows), names)) == NamedIn(chain, NameSet(names))
  {
    var merged := Of(FromRows(rows), names);
    SortInOrder(Gather(FromRows(rows), names));
    KeyedByTheChain(chain, rows, names);
    CollapseStrict(merged);
    NamedInStrict(chain, NameSet(names));
    forall x
      ensures x in Collapse(merged) <==> x in NamedIn(chain, NameSet(names))
    {
      CollapseMembers(merged, x);
      OfMembers(rows, names, x);
      NamedInMembers(chain, NameSet(names), x);
    }
    StrictOrderIsUnique(Collapse(merged), NamedIn(chain, NameSet(names)));
  }

  /** What a partitioned log is: each type's rows under that type's name. */
  ghost predicate Typed(log: EventLog) {
    forall name, r :: name in log.byEvent && r in log.byEvent[name] ==> NameOf(r.event) == name
  }

  lemma FromRowsIsTyped(rows: seq<Row>)
    ensures Typed(FromRows(rows))
  {
    forall name, r | name in FromRows(rows).byEvent && r in FromRows(rows).byEvent[name]
      ensures NameOf(r.event) == name
    {
      GetMembers(rows, name, r);
    }
  }

  lemma {:induction false} GatherIsTyped(log: EventLog, names: seq<EventName>, x: Row)
    requires Typed(log) && x in Gather(log, names)
    ensures NameOf(x.event) in names
  {
    if x in Gather(log, names[..|names| - 1]) {
      GatherIsTyped(log, names[..|names| - 1], x);
    }
  }

  lemma OfIsTyped(log: EventLog, names: seq<EventName>, x: Row)
    requires Typed(log) && x in Of(log, names)
    ensures NameOf(x.event) in names
  {
    SortMembers(Gather(log, names), x);
    GatherIsTyped(log, names, x);
  }

  // ----- rows fed exactly once ----------------------------------------------

  lemma {:induction false} InsertCounts(rows: seq<Row>, r: Row)
    ensures multiset(Insert(rows, r)) == multiset(rows) + multiset{r}
  {
    if rows != [] && !NotAfter(Last(rows), r) {
      InsertCounts(Init(rows), r);
    }
    if rows != [] {
      assert rows == Init(rows) + [Last(rows)];
    }
  }

  lemma {:induction false} SortCounts(rows: seq<Row>)
    ensures multiset(Sort(rows)) == multiset(rows)
  {
    if rows != [] {
      SortCounts(Init(rows));
      InsertCounts(Sort(Init(rows)), Last(rows));
      assert rows == Init(rows) + [Last(rows)];
    }
  }

  lemma {:induction false} NamedCounts(rows: seq<Row>, name: EventName, x: Row)
    ensures multiset(Named(rows, name))[x] == if NameOf(x.event) == name then multiset(rows)[x] else 0
  {
    if rows != [] {
      NamedCounts(Init(rows), name, x);
      assert multiset(rows) == multiset(Init(rows)) + multiset{Last(rows)} by {
        assert rows == Init(rows) + [Last(rows)];
      }
    }
  }

  lemma {:induction false} NamedInCounts(rows: seq<Row>, names: set<EventName>, x: Row)
    ensures multiset(NamedIn(rows, names))[x] == if NameOf(x.event) in names then multiset(rows)[x] else 0
  {
    if rows != [] {
      NamedInCounts(Init(rows), names, x);
      assert multiset(rows) == multiset(Init(rows)) + multiset{Last(rows)} by {
        assert rows == Init(rows) + [Last(rows)];
      }
    }
  }

  lemma GetCounts(rows: seq<Row>, name: EventName, x: Row)
    ensures multiset(Get(FromRows(rows), name))[x] == if NameOf(x.event) == name then multiset(rows)[x] else 0
  {
    NamedCounts(rows, name, x);
    SortCounts(Named(rows, name));
    if x in rows && NameOf(x.event) == name {
      assert name in NamesOf(rows);
    }
  }

  ghost predicate DistinctNames(names: seq<EventName>) {
    forall i, j :: 0 <= i < j < |names| ==> names[i] != names[j]
  }

  lemma {:induction false} GatherCounts(rows: seq<Row>, names: seq<EventName>, x: Row)
    requires DistinctNames(names)
    ensures multiset(Gather(FromRows(rows), names))[x] == if NameOf(x.event) in names then multiset(rows)[x] else 0
  {
    if names != [] {
      var last := names[|names| - 1];
      GatherCounts(rows, names[..|names| - 1], x);
      GetCounts(rows, last, x);
      assert names == names[..|names| - 1] + [last];
    }
  }

  lemma OrderedLastsAgree(a: seq<Row>, b: seq<Row>)
    requires a != [] && b != [] && InOrder(a) && InOrder(b) && Keyed(a) && SameRows(a, b)
    ensures Last(a) == Last(b)
  {
    assert Last(a) in a && Last(b) in b;
    assert Last(a) in b && Last(b) in a;
    var i :| 0 <= i < |b| && b[i] == Last(a);
    var j :| 0 <= j < |a| && a[j] == Last(b);
    assert NotAfter(Last(a), Last(b)) && NotAfter(Last(b), Last(a));
  }

  lemma SameCountsSameRows(a: seq<Row>, b: seq<Row>)
    requires multiset(a) == multiset(b)
    ensures SameRows(a, b) && |a| == |b|
  {
    assert |a| == |multiset(a)| && |b| == |multiset(b)|;
    assert forall x :: x in a <==> x in multiset(a);
    assert forall x :: x in b <==> x in multiset(b);
  }

  lemma InitCounts(rows: seq<Row>)
    requires rows != []
    ensures multiset(Init(rows)) == multiset(rows) - multiset{Last(rows)}
  {
    assert rows == Init(rows) + [Last(rows)];
  }

  /** Copies included, the order is determined: two ordered arrangements of the same rows are the same. */
  lemma {:induction false} OrderIsUnique(a: seq<Row>, b: seq<Row>)
    requires InOrder(a) && InOrder(b) && Keyed(a) && multiset(a) == multiset(b)
    ensures a == b
  {
    SameCountsSameRows(a, b);
    if a != [] {
      OrderedLastsAgree(a, b);
      InitCounts(a);
      InitCounts(b);
      assert forall x :: x in Init(a) ==> x in a;
      OrderIsUnique(Init(a), Init(b));
      assert a == Init(a) + [Last(a)] && b == Init(b) + [Last(b)];
    }
  }

  lemma OrderedIsStrict(log: seq<Row>)
    requires Ordered(log)
    ensures StrictlyInOrder(log)
  {
  }

  lemma StrictIsOrdered(rows: seq<Row>)
    requires StrictlyInOrder(rows)
    ensures InOrder(rows) && Keyed(rows)
  {
    forall a, b | a in rows && b in rows && a.block == b.block && a.logIndex == b.logIndex
      ensures a == b
    {
      var i :| 0 <= i < |rows| && rows[i] == a;
      var j :| 0 <= j < |rows| && rows[j] == b;
      assert i == j;
    }
    assert forall i, j :: 0 <= i < j < |rows| ==> Precedes(rows[i], rows[j]);
  }

  /** Rows fed exactly once, in any order, merge into the chain's own rows of those types, in chain order. */
  lemma OnceFedIsTheChain(chain: seq<Row>, rows: seq<Row>, names: seq<EventName>)
    requires StrictlyInOrder(chain) && multiset(rows) == multiset(chain) && DistinctNames(names)
    ensures Of(FromRows(rows), names) == NamedIn(chain, NameSet(names))
  {
    var merged, kept := Of(FromRows(rows), names), NamedIn(chain, NameSet(names));
    SortInOrder(Gather(FromRows(rows), names));
    SortCounts(Gather(FromRows(rows), names));
    NamedInStrict(chain, NameSet(names));
    StrictIsOrdered(kept);
    forall x
      ensures multiset(merged)[x] == multiset(kept)[x]
    {
      GatherCounts(rows, names, x);
      NamedInCounts(chain, NameSet(names), x);
    }
    OrderIsUnique(kept, merged);
  }
}
