/** Sync across crashes: what the store holds at every moment, and what a completed run projects from it. */
module Resume {
  import opened Machine
  import opened Chain
  import opened History
  import opened EventStore
  import opened Projector
  import opened Sync

  // ----- the invariant of the store -----------------------------------------

  predicate Stored(d: Disk, r: Row) {
    r in FileOf(d.files, NameOf(r.event))
  }

  /** Files hold only rows of the chain, from genesis on, each in its own type's file; and everything up to the head. */
  ghost predicate StoreInv(chain: seq<Row>, genesis: nat, d: Disk) {
    && (forall name, r :: r in FileOf(d.files, name) ==>
          NameOf(r.event) == name && r in chain && genesis <= r.block)
    && (forall r :: d.head.Some? && r in chain && genesis <= r.block <= d.head.value ==> Stored(d, r))
  }

  lemma {:induction false} AfterJoin(d: Disk, a: seq<Write>, b: seq<Write>)
    ensures After(d, a + b) == After(After(d, a), b)
  {
    if b == [] {
      assert a + b == a;
    } else {
      assert (a + b)[..|a + b| - 1] == a + b[..|b| - 1];
      AfterJoin(d, a, b[..|b| - 1]);
    }
  }

  /** Lines only add: the head stays, nothing stored is lost, and exactly the written rows are new. */
  lemma {:induction false} AfterLines(d: Disk, rows: seq<Row>, n: nat, name: EventName, r: Row)
    requires n <= |rows|
    ensures After(d, Lines(rows)[..n]).head == d.head
    ensures r in FileOf(After(d, Lines(rows)[..n]).files, name) <==>
            r in FileOf(d.files, name) || (NameOf(r.event) == name && r in rows[..n])
  {
    if n > 0 {
      AfterLines(d, rows, n - 1, name, r);
      var writes := Lines(rows)[..n];
      assert writes[..|writes| - 1] == Lines(rows)[..n - 1] && writes[|writes| - 1] == Line(rows[n - 1]);
      assert rows[..n] == rows[..n - 1] + [rows[n - 1]];
    }
  }

  lemma {:induction false} RangeMembers(chain: seq<Row>, start: nat, end: nat, x: Row)
    ensures x in RangeRows(chain, start, end) <==> x in chain && start <= x.block <= end
  {
    if chain != [] {
      RangeMembers(Init(chain), start, end, x);
      assert chain == Init(chain) + [Last(chain)];
    }
  }

  lemma {:induction false} RegistryLegMembers(rows: seq<Row>, x: Row)
    ensures x in RegistryLeg(rows) <==> x in rows && NameOf(x.event) != NameTransfer
  {
    if rows != [] {
      RegistryLegMembers(Init(rows), x);
      assert rows == Init(rows) + [Last(rows)];
    }
  }

  /** Both legs together hold every row of the range and nothing else. */
  lemma ChunkMembers(chain: seq<Row>, start: nat, end: nat, x: Row)
    ensures x in ChunkRows(chain, start, end) <==> x in chain && start <= x.block <= end
  {
    RangeMembers(chain, start, end, x);
    RegistryLegMembers(RangeRows(chain, start, end), x);
    NamedMembers(RangeRows(chain, start, end), NameTransfer, x);
  }

  lemma {:induction false} FirstNamesMembers(rows: seq<Row>, name: EventName)
    ensures name in FirstNames(rows) <==> exists r :: r in rows && NameOf(r.event) == name
  {
    if rows != [] {
      FirstNamesMembers(Init(rows), name);
      assert rows == Init(rows) + [Last(rows)];
    }
  }

  lemma {:induction false} FileByFileMembers(rows: seq<Row>, names: seq<EventName>, x: Row)
    ensures x in FileByFile(rows, names) <==> x in rows && NameOf(x.event) in names
  {
    if names != [] {
      FileByFileMembers(rows, names[..|names| - 1], x);
      NamedMembers(rows, names[|names| - 1], x);
      assert names == names[..|names| - 1] + [names[|names| - 1]];
    }
  }

  lemma ByFileMembers(rows: seq<Row>, x: Row)
    ensures x in ByFile(rows) <==> x in rows
  {
    FileByFileMembers(rows, FirstNames(rows), x);
    if x in rows {
      FirstNamesMembers(rows, NameOf(x.event));
    }
  }

  lemma LinesLength(rows: seq<Row>)
    ensures |Lines(rows)| == |rows|
  {
  }

  lemma PartialChunkRows(chain: seq<Row>, genesis: nat, d: Disk, start: nat, end: nat, n: nat, name: EventName, r: Row)
    requires StoreInv(chain, genesis, d) && genesis <= start
    requires n <= |ByFile(ChunkRows(chain, start, end))|
    requires r in FileOf(After(d, Lines(ByFile(ChunkRows(chain, start, end)))[..n]).files, name)
    ensures NameOf(r.event) == name && r in chain && genesis <= r.block
  {
    hide ByFile, ChunkRows, After, Lines, NameOf, FileOf, StoreInv;
    var rows := ByFile(ChunkRows(chain, start, end));
    AfterLines(d, rows, n, name, r);
    if r in FileOf(d.files, name) {
      StoredRows(chain, genesis, d, name, r);
    } else {
      assert r in rows;
      ByFileMembers(ChunkRows(chain, start, end), r);
      ChunkMembers(chain, start, end, r);
    }
  }

  lemma PartialChunkKeeps(chain: seq<Row>, genesis: nat, d: Disk, rows: seq<Row>, n: nat, r: Row)
    requires StoreInv(chain, genesis, d) && n <= |rows|
    requires var d' := After(d, Lines(rows)[..n]); d'.head.Some? && r in chain && genesis <= r.block <= d'.head.value
    ensures Stored(After(d, Lines(rows)[..n]), r)
  {
    hide After, Lines, NameOf, FileOf, StoreInv;
    AfterLines(d, rows, n, NameOf(r.event), r);
    StoredToHead(chain, genesis, d, r);
  }

  /** Part of a range's lines: the invariant holds with the head still behind. */
  lemma PartialChunk(chain: seq<Row>, genesis: nat, d: Disk, start: nat, end: nat, n: nat)
    requires StoreInv(chain, genesis, d) && genesis <= start
    requires n <= |ByFile(ChunkRows(chain, start, end))|
    ensures var d' := After(d, Lines(ByFile(ChunkRows(chain, start, end)))[..n]);
            StoreInv(chain, genesis, d') && d'.head == d.head
  {
    hide *;
    var rows := ByFile(ChunkRows(chain, start, end));
    LinesLength(rows);
    var d' := After(d, Lines(rows)[..n]);
    AfterLines(d, rows, n, NameTransfer, Row(0, 0, 0, 0, FeeTransfer(0)));
    forall name, r | r in FileOf(d'.files, name)
      ensures NameOf(r.event) == name && r in chain && genesis <= r.block
    {
      PartialChunkRows(chain, genesis, d, start, end, n, name, r);
    }
    forall r | d'.head.Some? && r in chain && genesis <= r.block <= d'.head.value
      ensures Stored(d', r)
    {
      PartialChunkKeeps(chain, genesis, d, rows, n, r);
    }
    StoreFromParts(chain, genesis, d');
  }

  lemma StoredRows(chain: seq<Row>, genesis: nat, d: Disk, name: EventName, r: Row)
    requires StoreInv(chain, genesis, d) && r in FileOf(d.files, name)
    ensures NameOf(r.event) == name && r in chain && genesis <= r.block
  {
  }

  lemma StoredToHead(chain: seq<Row>, genesis: nat, d: Disk, r: Row)
    requires StoreInv(chain, genesis, d) && d.head.Some? && r in chain && genesis <= r.block <= d.head.value
    ensures Stored(d, r)
  {
  }

  lemma StoreFromParts(chain: seq<Row>, genesis: nat, d: Disk)
    requires forall name, r :: r in FileOf(d.files, name) ==> NameOf(r.event) == name && r in chain && genesis <= r.block
    requires forall r :: d.head.Some? && r in chain && genesis <= r.block <= d.head.value ==> Stored(d, r)
    ensures StoreInv(chain, genesis, d)
  {
    hide FileOf, NameOf, Stored;
  }

  lemma WholeChunkEnds(chain: seq<Row>, d: Disk, start: nat, end: nat)
    ensures var rows := ByFile(ChunkRows(chain, start, end));
            && Lines(rows)[..|rows|] == Lines(rows) && rows[..|rows|] == rows
            && After(d, ChunkWrites(chain, start, end)) == After(d, Lines(rows)).(head := Some(end))
  {
    hide After, ByFile, ChunkRows;
    var rows := ByFile(ChunkRows(chain, start, end));
    LinesLength(rows);
    OneMoreWrite(d, Lines(rows), Head(end));
  }

  lemma WholeChunkStores(chain: seq<Row>, genesis: nat, d: Disk, end: nat, r: Row)
    requires StoreInv(chain, genesis, d) && r in chain && genesis <= r.block <= end
    ensures Stored(After(d, Lines(ByFile(ChunkRows(chain, ResumeAt(d, genesis), end)))), r)
  {
    hide After, ByFile, ChunkRows, Lines, FileOf, NameOf, StoreInv;
    var start := ResumeAt(d, genesis);
    var rows := ByFile(ChunkRows(chain, start, end));
    WholeChunkEnds(chain, d, start, end);
    AfterLines(d, rows, |rows|, NameOf(r.event), r);
    if r.block >= start {
      ChunkMembers(chain, start, end, r);
      ByFileMembers(ChunkRows(chain, start, end), r);
    } else {
      StoredToHead(chain, genesis, d, r);
    }
  }

  /** A whole range and its head: everything up to the range's end is stored. */
  lemma WholeChunk(chain: seq<Row>, genesis: nat, d: Disk, end: nat)
    requires StoreInv(chain, genesis, d) && ResumeAt(d, genesis) <= end && genesis <= ResumeAt(d, genesis)
    ensures var d' := After(d, ChunkWrites(chain, ResumeAt(d, genesis), end));
            StoreInv(chain, genesis, d') && d'.head == Some(end)
  {
    hide *;
    var start := ResumeAt(d, genesis);
    var rows := ByFile(ChunkRows(chain, start, end));
    WholeChunkEnds(chain, d, start, end);
    PartialChunk(chain, genesis, d, start, end, |rows|);
    var mid := After(d, Lines(rows));
    forall r | r in chain && genesis <= r.block <= end
      ensures Stored(mid, r)
    {
      WholeChunkStores(chain, genesis, d, end, r);
    }
    HeadMoved(chain, genesis, mid, end);
  }

  lemma HeadMoved(chain: seq<Row>, genesis: nat, d: Disk, end: nat)
    requires StoreInv(chain, genesis, d) && forall r :: r in chain && genesis <= r.block <= end ==> Stored(d, r)
    ensures StoreInv(chain, genesis, d.(head := Some(end)))
  {
    hide NameOf, FileOf;
  }

  lemma AfterNothing(d: Disk)
    ensures After(d, []) == d
  {
  }

  lemma ChunkPrefix(lines: seq<Write>, end: nat, rest: seq<Write>, n: nat)
    requires n <= |lines|
    ensures (lines + [Head(end)] + rest)[..n] == lines[..n]
  {
  }

  /** However many of a run's writes take effect before it is killed, the invariant holds. */
  lemma {:induction false} KillAnywhere(chain: seq<Row>, genesis: nat, d: Disk, toBlock: nat, size: nat, n: nat)
    requires size > 0 && StoreInv(chain, genesis, d) && genesis <= ResumeAt(d, genesis)
    requires n <= |RunWrites(chain, ResumeAt(d, genesis), toBlock, size)|
    ensures var d' := After(d, RunWrites(chain, ResumeAt(d, genesis), toBlock, size)[..n]);
            StoreInv(chain, genesis, d') && genesis <= ResumeAt(d', genesis)
    decreases toBlock + 1 - ResumeAt(d, genesis)
  {
    hide StoreInv, After, ByFile, ChunkRows;
    AfterNothing(d);
    var start := ResumeAt(d, genesis);
    if start <= toBlock {
      var end := ChunkEnd(start, toBlock, size);
      var chunk, rest := ChunkWrites(chain, start, end), RunWrites(chain, end + 1, toBlock, size);
      var lines := Lines(ByFile(ChunkRows(chain, start, end)));
      if n < |chunk| {
        assert (chunk + rest)[..n] == lines[..n] by {
          ChunkPrefix(lines, end, rest, n);
        }
        PartialChunk(chain, genesis, d, start, end, n);
      } else {
        assert (chunk + rest)[..n] == chunk + rest[..n - |chunk|];
        AfterJoin(d, chunk, rest[..n - |chunk|]);
        WholeChunk(chain, genesis, d, end);
        KillAnywhere(chain, genesis, After(d, chunk), toBlock, size, n - |chunk|);
      }
    }
  }

  // ----- every history of runs ----------------------------------------------

  /** One run: how far it meant to go, in ranges of what size, and how many of its writes took effect. */
  datatype Session = Session(toBlock: nat, size: nat, survived: nat)

  ghost predicate SessionOf(chain: seq<Row>, genesis: nat, d: Disk, s: Session, d': Disk) {
    && s.size > 0
    && var writes := RunWrites(chain, ResumeAt(d, genesis), s.toBlock, s.size);
       s.survived <= |writes| && d' == After(d, writes[..s.survived])
  }

  ghost predicate Sessions(chain: seq<Row>, genesis: nat, ds: seq<Disk>, ss: seq<Session>) {
    && |ds| == |ss| + 1 && ds[0] == EMPTY
    && forall i :: 0 <= i < |ss| ==> SessionOf(chain, genesis, ds[i], ss[i], ds[i + 1])
  }

  lemma {:induction false} StoreInvAlways(chain: seq<Row>, genesis: nat, ds: seq<Disk>, ss: seq<Session>, i: nat)
    requires Sessions(chain, genesis, ds, ss) && i < |ds|
    ensures StoreInv(chain, genesis, ds[i]) && genesis <= ResumeAt(ds[i], genesis)
  {
    hide RunWrites, StoreInv, After;
    if i == 0 {
      EmptyStoreInv(chain, genesis);
    } else {
      StoreInvAlways(chain, genesis, ds, ss, i - 1);
      assert SessionOf(chain, genesis, ds[i - 1], ss[i - 1], ds[i]);
      KillAnywhere(chain, genesis, ds[i - 1], ss[i - 1].toBlock, ss[i - 1].size, ss[i - 1].survived);
    }
  }

  lemma EmptyStoreInv(chain: seq<Row>, genesis: nat)
    ensures StoreInv(chain, genesis, EMPTY)
  {
  }

  // ----- what loading gives -------------------------------------------------

  /** Every file is read, each once. */
  ghost predicate ReadsAll(d: Disk, order: seq<EventName>) {
    DistinctNames(order) && forall name :: name in d.files ==> name in order
  }

  lemma {:induction false} AllLinesMembers(d: Disk, order: seq<EventName>, x: Row)
    ensures x in AllLines(d.files, order) <==> exists name :: name in order && x in FileOf(d.files, name)
  {
    if order != [] {
      AllLinesMembers(d, order[..|order| - 1], x);
      assert order == order[..|order| - 1] + [order[|order| - 1]];
    }
  }

  lemma LoadedMembers(chain: seq<Row>, genesis: nat, d: Disk, order: seq<EventName>, x: Row)
    requires StoreInv(chain, genesis, d) && ReadsAll(d, order)
    ensures x in AllLines(d.files, order) <==> Stored(d, x)
  {
    AllLinesMembers(d, order, x);
  }

  lemma {:induction false} DedupMembers(rows: seq<Row>, x: Row)
    requires Keyed(rows)
    ensures x in Dedup(rows) <==> x in rows
  {
    if rows != [] {
      assert rows == Init(rows) + [Last(rows)];
      assert forall r :: r in Init(rows) ==> r in rows;
      assert Last(rows) in rows;
      DedupMembers(Init(rows), x);
      if HasKey(Dedup(Init(rows)), Last(rows)) {
        var r :| r in Dedup(Init(rows)) && r.block == Last(rows).block && r.logIndex == Last(rows).logIndex;
        DedupMembers(Init(rows), r);
        assert r == Last(rows);
      }
    }
  }

  lemma {:induction false} DedupOnce(rows: seq<Row>, x: Row)
    ensures multiset(Dedup(rows))[x] <= 1
  {
    if rows != [] {
      DedupOnce(Init(rows), x);
      var kept, r := Dedup(Init(rows)), Last(rows);
      if !HasKey(kept, r) {
        assert r !in kept;
        assert multiset(kept + [r]) == multiset(kept) + multiset{r};
      }
    }
  }

  lemma LinesAreKeyed(chain: seq<Row>, genesis: nat, d: Disk, order: seq<EventName>)
    requires StrictlyInOrder(chain) && StoreInv(chain, genesis, d) && ReadsAll(d, order)
    ensures Keyed(AllLines(d.files, order))
  {
    StrictIsOrdered(chain);
    forall a | a in AllLines(d.files, order)
      ensures a in chain
    {
      LoadedMembers(chain, genesis, d, order, a);
    }
  }

  /** Loading gives every stored row exactly once. */
  lemma PriorIsTheStored(chain: seq<Row>, genesis: nat, d: Disk, order: seq<EventName>, x: Row)
    requires StrictlyInOrder(chain) && StoreInv(chain, genesis, d) && ReadsAll(d, order)
    ensures multiset(PriorRows(d, order))[x] == if Stored(d, x) then 1 else 0
  {
    hide StrictlyInOrder, StoreInv, ReadsAll, Keyed;
    LinesAreKeyed(chain, genesis, d, order);
    DedupMembers(AllLines(d.files, order), x);
    DedupOnce(AllLines(d.files, order), x);
    LoadedMembers(chain, genesis, d, order, x);
    assert x in PriorRows(d, order) <==> x in multiset(PriorRows(d, order));
  }

  lemma RangeOneMore(chain: seq<Row>, r: Row, start: nat, end: nat)
    ensures RangeRows(chain + [r], start, end) ==
            if start <= r.block <= end then RangeRows(chain, start, end) + [r] else RangeRows(chain, start, end)
  {
    assert Init(chain + [r]) == chain && Last(chain + [r]) == r;
  }

  lemma NothingInRange(start: nat, end: nat)
    ensures RangeRows([], start, end) == []
  {
  }

  lemma {:induction false} RangeCounts(chain: seq<Row>, start: nat, end: nat, x: Row)
    ensures multiset(RangeRows(chain, start, end))[x] == if start <= x.block <= end then multiset(chain)[x] else 0
  {
    hide RangeRows;
    NothingInRange(start, end);
    if chain != [] {
      var before, r := Init(chain), Last(chain);
      assert before + [r] == chain;
      RangeCounts(before, start, end, x);
      RangeOneMore(before, r, start, end);
      assert multiset(RangeRows(before, start, end) + [r]) == multiset(RangeRows(before, start, end)) + multiset{r};
      assert multiset(before + [r]) == multiset(before) + multiset{r};
    }
  }

  lemma {:induction false} LegCounts(rows: seq<Row>, x: Row)
    ensures multiset(RegistryLeg(rows))[x] == if NameOf(x.event) == NameTransfer then 0 else multiset(rows)[x]
  {
    if rows != [] {
      LegCounts(Init(rows), x);
      InitCounts(rows);
      assert Last(rows) in multiset(rows);
      var before := RegistryLeg(Init(rows));
      if NameOf(Last(rows).event) != NameTransfer {
        assert multiset(RegistryLeg(rows)) == multiset(before) + multiset{Last(rows)};
      } else {
        assert RegistryLeg(rows) == before;
      }
    }
  }

  lemma ChunkCounts(chain: seq<Row>, start: nat, end: nat, x: Row)
    ensures multiset(ChunkRows(chain, start, end))[x] == if start <= x.block <= end then multiset(chain)[x] else 0
  {
    RangeCounts(chain, start, end, x);
    LegCounts(RangeRows(chain, start, end), x);
    NamedCounts(RangeRows(chain, start, end), NameTransfer, x);
  }

  /** The ranges tile: every chain row from `start` to the end is acquired exactly once, whatever the range size. */
  lemma {:induction false} RangesTile(chain: seq<Row>, start: nat, toBlock: nat, size: nat, x: Row)
    requires size > 0
    ensures multiset(FreshRows(chain, start, toBlock, size))[x] ==
            if start <= x.block <= toBlock then multiset(chain)[x] else 0
    decreases toBlock + 1 - start
  {
    hide ChunkRows;
    if start <= toBlock {
      var end := ChunkEnd(start, toBlock, size);
      var chunk, rest := ChunkRows(chain, start, end), FreshRows(chain, end + 1, toBlock, size);
      assert FreshRows(chain, start, toBlock, size) == chunk + rest;
      hide FreshRows;
      ChunkCounts(chain, start, end, x);
      RangesTile(chain, end + 1, toBlock, size, x);
      CountsJoin(chunk, rest, x);
    }
  }

  /** The heads a run of writes moves to, in order. */
  function HeadsOf(writes: seq<Write>): seq<nat> {
    if writes == [] then []
    else HeadsOf(writes[..|writes| - 1]) + match writes[|writes| - 1] case Head(block) => [block] case Line(_) => []
  }

  lemma {:induction false} LinesMoveNoHead(rows: seq<Row>)
    ensures HeadsOf(Lines(rows)) == []
  {
    if rows != [] {
      LinesMoveNoHead(rows[..|rows| - 1]);
      assert Lines(rows)[..|rows| - 1] == Lines(rows[..|rows| - 1]);
    }
  }

  lemma {:induction false} HeadsJoin(a: seq<Write>, b: seq<Write>)
    ensures HeadsOf(a + b) == HeadsOf(a) + HeadsOf(b)
  {
    if b == [] {
      assert a + b == a;
    } else {
      assert (a + b)[..|a + b| - 1] == a + b[..|b| - 1];
      HeadsJoin(a, b[..|b| - 1]);
    }
  }

  lemma OneHead(end: nat)
    ensures HeadsOf([Head(end)]) == [end]
  {
    assert [Head(end)][..0] == [];
  }

  lemma NextRange(chain: seq<Row>, start: nat, toBlock: nat, size: nat)
    requires size > 0 && start <= toBlock
    ensures var end := if start + size - 1 <= toBlock then start + size - 1 else toBlock;
            HeadsOf(RunWrites(chain, start, toBlock, size)) ==
            [end] + if end == toBlock then [] else HeadsOf(RunWrites(chain, end + 1, toBlock, size))
  {
    hide HeadsOf, ByFile, ChunkRows, Lines;
    var end := ChunkEnd(start, toBlock, size);
    var lines := Lines(ByFile(ChunkRows(chain, start, end)));
    var rest := RunWrites(chain, end + 1, toBlock, size);
    LinesMoveNoHead(ByFile(ChunkRows(chain, start, end)));
    OneHead(end);
    HeadsJoin(lines, [Head(end)]);
    HeadsJoin(lines + [Head(end)], rest);
    NoHeads();
  }

  lemma NoHeads()
    ensures HeadsOf([]) == []
  {
  }

  /** From `first` by steps of `size` to `last`, where the last step is cut. */
  ghost predicate StepsBy(heads: seq<nat>, first: nat, size: nat, last: nat) {
    && heads != [] && heads[0] == first && heads[|heads| - 1] == last
    && forall k :: 0 < k < |heads| ==> heads[k - 1] < heads[k] == Min(heads[k - 1] + size, last)
  }

  lemma StepMore(first: nat, rest: seq<nat>, size: nat, last: nat)
    requires first < last && StepsBy(rest, Min(first + size, last), size, last) && size > 0
    ensures StepsBy([first] + rest, first, size, last)
  {
    var heads := [first] + rest;
    forall k | 0 < k < |heads|
      ensures heads[k - 1] < heads[k] == Min(heads[k - 1] + size, last)
    {
      assert heads[k] == rest[k - 1];
      if k > 1 {
        assert heads[k - 1] == rest[k - 2];
      }
    }
  }

  /** A run moves the head a whole range at a time, the last range cut at the end, so a killed one repeats at most one. */
  lemma {:induction false} HeadsStepBySize(chain: seq<Row>, start: nat, toBlock: nat, size: nat)
    requires size > 0 && start <= toBlock
    ensures StepsBy(HeadsOf(RunWrites(chain, start, toBlock, size)), Min(start + size - 1, toBlock), size, toBlock)
    decreases toBlock + 1 - start
  {
    hide HeadsOf, RunWrites;
    NextRange(chain, start, toBlock, size);
    var end := Min(start + size - 1, toBlock);
    if end < toBlock {
      hide StepsBy;
      HeadsStepBySize(chain, end + 1, toBlock, size);
      StepMore(end, HeadsOf(RunWrites(chain, end + 1, toBlock, size)), size, toBlock);
    }
  }

  lemma CountsJoin(a: seq<Row>, b: seq<Row>, x: Row)
    ensures multiset(a + b)[x] == multiset(a)[x] + multiset(b)[x]
  {
  }

  lemma StrictCounts(chain: seq<Row>, x: Row)
    requires StrictlyInOrder(chain)
    ensures multiset(chain)[x] == if x in chain then 1 else 0
  {
    if x in chain {
      var i :| 0 <= i < |chain| && chain[i] == x;
      assert chain == chain[..i] + [x] + chain[i + 1..];
      assert x !in chain[..i] && x !in chain[i + 1..] by {
        forall j | 0 <= j < |chain| && chain[j] == x
          ensures j == i
        {
        }
      }
      assert multiset(chain) == multiset(chain[..i]) + multiset{x} + multiset(chain[i + 1..]);
    }
  }

  lemma {:induction false} FirstNamesDistinct(rows: seq<Row>)
    ensures DistinctNames(FirstNames(rows))
  {
    if rows != [] {
      FirstNamesDistinct(Init(rows));
    }
  }

  /** Merging back loses and repeats nothing. */
  lemma MergedCounts(rows: seq<Row>, x: Row)
    ensures multiset(Merged(rows))[x] == multiset(rows)[x]
  {
    FirstNamesDistinct(rows);
    GatherCounts(rows, FirstNames(rows), x);
    SortCounts(Gather(FromRows(rows), FirstNames(rows)));
    if x in rows {
      FirstNamesMembers(rows, NameOf(x.event));
    }
  }

  /** At every moment of every history, the loaded store up to its head is the chain from genesis to the head: the same
      rows, each exactly once, in chain order. */
  lemma LoadedUpToHeadIsTheChain(chain: seq<Row>, genesis: nat, ds: seq<Disk>, ss: seq<Session>, i: nat,
                                 order: seq<EventName>)
    requires StrictlyInOrder(chain) && Sessions(chain, genesis, ds, ss) && i < |ds|
    requires ReadsAll(ds[i], order) && ds[i].head.Some?
    ensures RangeRows(Merged(PriorRows(ds[i], order)), 0, ds[i].head.value) ==
            RangeRows(chain, genesis, ds[i].head.value)
  {
    hide Sessions, ReadsAll, Merged, PriorRows, StoreInv, RangeRows, InOrder, Keyed, StrictlyInOrder;
    var d, head := ds[i], ds[i].head.value;
    StoreInvAlways(chain, genesis, ds, ss, i);
    var loaded := Merged(PriorRows(d, order));
    MergedInOrder(PriorRows(d, order));
    RangeInOrder(loaded, 0, head);
    RangeStrict(chain, genesis, head);
    StrictIsOrdered(RangeRows(chain, genesis, head));
    forall x
      ensures multiset(RangeRows(loaded, 0, head))[x] == multiset(RangeRows(chain, genesis, head))[x]
    {
      RangeCounts(loaded, 0, head, x);
      RangeCounts(chain, genesis, head, x);
      MergedCounts(PriorRows(d, order), x);
      PriorIsTheStored(chain, genesis, d, order, x);
      StrictCounts(chain, x);
      if x.block <= head {
        StoredBelowHead(chain, genesis, d, x);
      }
    }
    OrderIsUnique(RangeRows(chain, genesis, head), RangeRows(loaded, 0, head));
  }

  lemma StoredBelowHead(chain: seq<Row>, genesis: nat, d: Disk, x: Row)
    requires StoreInv(chain, genesis, d) && d.head.Some? && x.block <= d.head.value
    ensures Stored(d, x) <==> x in chain && genesis <= x.block
  {
  }

  lemma MergedInOrder(rows: seq<Row>)
    ensures InOrder(Merged(rows))
  {
    SortInOrder(Gather(FromRows(rows), FirstNames(rows)));
  }

  lemma {:induction false} RangeInOrder(rows: seq<Row>, start: nat, end: nat)
    requires InOrder(rows)
    ensures InOrder(RangeRows(rows, start, end))
  {
    if rows != [] {
      RangeInOrder(Init(rows), start, end);
      forall x | x in RangeRows(Init(rows), start, end)
        ensures NotAfter(x, Last(rows))
      {
        RangeMembers(Init(rows), start, end, x);
      }
    }
  }

  lemma {:induction false} RangeStrict(rows: seq<Row>, start: nat, end: nat)
    requires StrictlyInOrder(rows)
    ensures StrictlyInOrder(RangeRows(rows, start, end))
  {
    if rows != [] {
      RangeStrict(Init(rows), start, end);
      var head := RangeRows(Init(rows), start, end);
      forall i | 0 <= i < |head|
        ensures Precedes(head[i], Last(rows))
      {
        assert head[i] in head;
        RangeMembers(Init(rows), start, end, head[i]);
        var k :| 0 <= k < |Init(rows)| && Init(rows)[k] == head[i];
        assert Precedes(rows[k], rows[|rows| - 1]);
      }
    }
  }

  // ----- a run that starts with nothing stored beyond the head ----------------

  predicate NothingBeyondHead(d: Disk, genesis: nat) {
    forall name :: name in d.files ==> forall r :: r in d.files[name] ==> r.block < ResumeAt(d, genesis)
  }

  lemma FeedCounts(chain: seq<Row>, genesis: nat, d: Disk, order: seq<EventName>, toBlock: nat, size: nat, x: Row)
    requires StrictlyInOrder(chain) && StoreInv(chain, genesis, d) && ReadsAll(d, order) && size > 0
    ensures multiset(Feed(d, order, chain, genesis, toBlock, size))[x] ==
            (if Stored(d, x) then 1 else 0)
            + if x in chain && ResumeAt(d, genesis) <= x.block <= toBlock then 1 else 0
  {
    hide StrictlyInOrder, StoreInv, ReadsAll, Merged, PriorRows, FreshRows;
    MergedCounts(PriorRows(d, order), x);
    PriorIsTheStored(chain, genesis, d, order, x);
    RangesTile(chain, ResumeAt(d, genesis), toBlock, size, x);
    StrictCounts(chain, x);
  }

  lemma SortedNamedCounts(rows: seq<Row>, name: EventName, x: Row)
    ensures multiset(Sort(Named(rows, name)))[x] == if NameOf(x.event) == name then multiset(rows)[x] else 0
    ensures x in Sort(Named(rows, name)) ==> x in rows
  {
    hide Sort, Named, NameOf;
    NamedCounts(rows, name, x);
    SortCounts(Named(rows, name));
    SortMembers(Named(rows, name), x);
    NamedMembers(rows, name, x);
  }

  lemma SameCountsSameFile(a: seq<Row>, b: seq<Row>, name: EventName)
    requires Keyed(a) && multiset(a) == multiset(b)
    ensures Sort(Named(a, name)) == Sort(Named(b, name))
  {
    hide Sort, Named, NameOf, InOrder;
    forall x
      ensures multiset(Sort(Named(a, name)))[x] == multiset(Sort(Named(b, name)))[x]
      ensures x in Sort(Named(a, name)) ==> x in a
    {
      SortedNamedCounts(a, name, x);
      SortedNamedCounts(b, name, x);
    }
    SortInOrder(Named(a, name));
    SortInOrder(Named(b, name));
    OrderIsUnique(Sort(Named(a, name)), Sort(Named(b, name)));
  }

  /** The same rows, counted, give the same partitioned log. */
  lemma SameCountsSameLog(a: seq<Row>, b: seq<Row>)
    requires Keyed(a) && multiset(a) == multiset(b)
    ensures FromRows(a) == FromRows(b)
  {
    hide Sort, Named, NameOf, Keyed;
    SameCountsSameRows(a, b);
    forall name
      ensures Sort(Named(a, name)) == Sort(Named(b, name))
    {
      SameCountsSameFile(a, b, name);
    }
    assert NamesOf(a) == NamesOf(b);
  }

  /** With nothing stored beyond the head, a resumed run hands the projector the very log a one-shot sync would. */
  lemma ResumedIsOneShot(chain: seq<Row>, genesis: nat, d: Disk, order: seq<EventName>, toBlock: nat, size: nat,
                         oneShot: nat)
    requires StrictlyInOrder(chain) && StoreInv(chain, genesis, d) && genesis <= ResumeAt(d, genesis)
    requires ReadsAll(d, order) && size > 0 && oneShot > 0
    requires NothingBeyondHead(d, genesis) && ResumeAt(d, genesis) <= toBlock + 1
    ensures FromRows(Feed(d, order, chain, genesis, toBlock, size)) ==
            FromRows(FreshRows(chain, genesis, toBlock, oneShot))
  {
    hide StrictlyInOrder, ReadsAll, Feed, FreshRows, FromRows, Keyed;
    var feed, once := Feed(d, order, chain, genesis, toBlock, size), FreshRows(chain, genesis, toBlock, oneShot);
    forall x
      ensures multiset(feed)[x] == multiset(once)[x]
      ensures x in once ==> x in chain
    {
      FeedCounts(chain, genesis, d, order, toBlock, size, x);
      RangesTile(chain, genesis, toBlock, oneShot, x);
      StrictCounts(chain, x);
      assert x in once <==> x in multiset(once);
    }
    KeyedSubset(chain, once);
    assert multiset(feed) == multiset(once);
    SameCountsSameLog(once, feed);
  }

  lemma KeyedSubset(chain: seq<Row>, rows: seq<Row>)
    requires StrictlyInOrder(chain) && forall x :: x in rows ==> x in chain
    ensures Keyed(rows)
  {
    StrictIsOrdered(chain);
  }

  // ----- what a completed run leaves ----------------------------------------

  /** Rows are only ever added, and only those written. */
  lemma {:induction false} AfterStores(d: Disk, writes: seq<Write>, r: Row)
    ensures Stored(After(d, writes), r) <==> Stored(d, r) || Line(r) in writes
  {
    if writes != [] {
      var init, last := writes[..|writes| - 1], writes[|writes| - 1];
      assert writes == init + [last];
      AfterStores(d, init, r);
      hide After;
      assert After(d, writes) == ApplyWrite(After(d, init), last) by {
        OneMoreWrite(d, init, last);
      }
    }
  }

  /** A run writes rows of its own range only. */
  lemma {:induction false} RunLines(chain: seq<Row>, start: nat, toBlock: nat, size: nat, r: Row)
    requires size > 0 && Line(r) in RunWrites(chain, start, toBlock, size)
    ensures r in chain && start <= r.block <= toBlock
    decreases toBlock + 1 - start
  {
    hide ByFile, ChunkRows;
    var end := ChunkEnd(start, toBlock, size);
    if Line(r) in ChunkWrites(chain, start, end) {
      var rows := ByFile(ChunkRows(chain, start, end));
      assert Line(r) in Lines(rows);
      assert r in rows;
      ByFileMembers(ChunkRows(chain, start, end), r);
      ChunkMembers(chain, start, end, r);
    } else {
      RunLines(chain, end + 1, toBlock, size, r);
    }
  }

  /** A run that completes and had any range to fetch ends with its last block as the head. */
  lemma {:induction false} RunEndsAt(chain: seq<Row>, d: Disk, start: nat, toBlock: nat, size: nat)
    requires size > 0 && start <= toBlock
    ensures After(d, RunWrites(chain, start, toBlock, size)).head == Some(toBlock)
    decreases toBlock + 1 - start
  {
    var end := ChunkEnd(start, toBlock, size);
    var lines, rest := Lines(ByFile(ChunkRows(chain, start, end))), RunWrites(chain, end + 1, toBlock, size);
    var chunk := ChunkWrites(chain, start, end);
    AfterJoin(d, chunk, rest);
    AfterNothing(After(d, chunk));
    OneMoreWrite(d, lines, Head(end));
    hide After, ChunkWrites;
    if end < toBlock {
      RunEndsAt(chain, After(d, chunk), end + 1, toBlock, size);
    }
  }

  lemma BeyondIsStored(chain: seq<Row>, genesis: nat, d: Disk)
    requires StoreInv(chain, genesis, d)
    ensures NothingBeyondHead(d, genesis) <==> forall r :: Stored(d, r) ==> r.block < ResumeAt(d, genesis)
  {
    if forall r :: Stored(d, r) ==> r.block < ResumeAt(d, genesis) {
      forall name, r | name in d.files && r in d.files[name]
        ensures r.block < ResumeAt(d, genesis)
      {
        assert r in FileOf(d.files, name);
      }
    }
  }

  /** Everything stored lies at or before the head, or at or before the end of the coming run. */
  ghost predicate StoredWithin(d: Disk, genesis: nat, toBlock: nat) {
    forall r :: Stored(d, r) ==> r.block < ResumeAt(d, genesis) || r.block <= toBlock
  }

  /** Whatever was left over, a run that completes leaves nothing beyond the head, if and only if nothing was stored
      beyond both the head it found and the block it went up to. */
  lemma CompletedRunLeavesNothing(chain: seq<Row>, genesis: nat, d: Disk, toBlock: nat, size: nat)
    requires size > 0 && StoreInv(chain, genesis, d) && genesis <= ResumeAt(d, genesis)
    ensures NothingBeyondHead(After(d, RunWrites(chain, ResumeAt(d, genesis), toBlock, size)), genesis) <==>
            StoredWithin(d, genesis, toBlock)
  {
    var start := ResumeAt(d, genesis);
    var writes := RunWrites(chain, start, toBlock, size);
    var d' := After(d, writes);
    if start <= toBlock {
      RunEndsAt(chain, d, start, toBlock, size);
    } else {
      AfterNothing(d);
    }
    KillAnywhere(chain, genesis, d, toBlock, size, |writes|);
    assert writes[..|writes|] == writes;
    hide StoreInv, After, RunWrites, NothingBeyondHead, Stored;
    BeyondIsStored(chain, genesis, d');
    forall r
      ensures Stored(d', r) <==> Stored(d, r) || Line(r) in writes
      ensures Line(r) in writes ==> r.block <= toBlock
    {
      AfterStores(d, writes, r);
      if Line(r) in writes {
        RunLines(chain, start, toBlock, size, r);
      }
    }
  }

  /** Nothing is stored past the furthest block an earlier run meant to reach. */
  lemma {:induction false} StoredWithinReach(chain: seq<Row>, genesis: nat, ds: seq<Disk>, ss: seq<Session>, i: nat,
                                             reach: nat, r: Row)
    requires Sessions(chain, genesis, ds, ss) && i < |ds| && Stored(ds[i], r)
    requires forall j :: 0 <= j < i ==> ss[j].toBlock <= reach
    ensures r.block <= reach
  {
    hide RunWrites, After, Stored;
    if i == 0 {
      NothingStored(r);
    } else {
      assert SessionOf(chain, genesis, ds[i - 1], ss[i - 1], ds[i]);
      SessionStores(chain, genesis, ds[i - 1], ss[i - 1], ds[i], r);
      if Stored(ds[i - 1], r) {
        StoredWithinReach(chain, genesis, ds, ss, i - 1, reach, r);
      }
    }
  }

  lemma NothingStored(r: Row)
    ensures !Stored(EMPTY, r)
  {
  }

  lemma SessionStores(chain: seq<Row>, genesis: nat, d: Disk, s: Session, d': Disk, r: Row)
    requires SessionOf(chain, genesis, d, s, d') && Stored(d', r)
    ensures Stored(d, r) || r.block <= s.toBlock
  {
    var writes := RunWrites(chain, ResumeAt(d, genesis), s.toBlock, s.size);
    hide RunWrites, After, Stored;
    AfterStores(d, writes[..s.survived], r);
    if Line(r) in writes[..s.survived] {
      assert Line(r) in writes;
      RunLines(chain, ResumeAt(d, genesis), s.toBlock, s.size, r);
    }
  }

  /** The session was not killed: all its writes took effect. */
  ghost predicate Completed(chain: seq<Row>, genesis: nat, d: Disk, s: Session) {
    s.size > 0 && s.survived == |RunWrites(chain, ResumeAt(d, genesis), s.toBlock, s.size)|
  }

  /** After any killed runs, one that completes and goes at least as far as every earlier one leaves nothing beyond the
      head: a crash distorts at most the runs up to it. */
  lemma CompletedSessionHeals(chain: seq<Row>, genesis: nat, ds: seq<Disk>, ss: seq<Session>, i: nat)
    requires Sessions(chain, genesis, ds, ss) && i < |ss| && Completed(chain, genesis, ds[i], ss[i])
    requires forall j :: 0 <= j < i ==> ss[j].toBlock <= ss[i].toBlock
    ensures NothingBeyondHead(ds[i + 1], genesis)
  {
    var d, s := ds[i], ss[i];
    assert SessionOf(chain, genesis, d, s, ds[i + 1]);
    StoreInvAlways(chain, genesis, ds, ss, i);
    hide RunWrites, After, Stored, NothingBeyondHead, Sessions, StoreInv;
    forall r | Stored(d, r)
      ensures r.block <= s.toBlock
    {
      StoredWithinReach(chain, genesis, ds, ss, i, s.toBlock, r);
    }
    CompletedRunLeavesNothing(chain, genesis, d, s.toBlock, s.size);
    var writes := RunWrites(chain, ResumeAt(d, genesis), s.toBlock, s.size);
    assert writes[..|writes|] == writes;
  }

  // ----- a completed run with leftovers beyond the head ---------------------

  /** `asOf` is the moment of `toBlock`: what has happened by then lies between genesis and that block. */
  ghost predicate BlocksBy(chain: seq<Row>, genesis: nat, toBlock: nat, asOf: nat) {
    forall r :: r in chain && r.ts <= asOf ==> genesis <= r.block <= toBlock
  }

  /** The chain's rows that were fed. */
  function Among(chain: seq<Row>, rows: seq<Row>): seq<Row> {
    if chain == [] then []
    else Among(Init(chain), rows) + (if Last(chain) in rows then [Last(chain)] else [])
  }

  lemma {:induction false} AmongMembers(chain: seq<Row>, rows: seq<Row>, x: Row)
    ensures x in Among(chain, rows) <==> x in chain && x in rows
  {
    if chain != [] {
      AmongMembers(Init(chain), rows, x);
      assert chain == Init(chain) + [Last(chain)];
    }
  }

  lemma {:induction false} AmongOrdered(chain: seq<Row>, rows: seq<Row>)
    requires Ordered(chain)
    ensures Ordered(Among(chain, rows))
  {
    if chain != [] {
      AmongOrdered(Init(chain), rows);
      var head := Among(Init(chain), rows);
      forall i | 0 <= i < |head|
        ensures Precedes(head[i], Last(chain)) && Consistent(head[i], Last(chain))
      {
        assert head[i] in head;
        AmongMembers(Init(chain), rows, head[i]);
        var k :| 0 <= k < |Init(chain)| && Init(chain)[k] == head[i];
        assert Precedes(chain[k], chain[|chain| - 1]) && Consistent(chain[k], chain[|chain| - 1]);
      }
    }
  }

  lemma {:induction false} AmongUpTo(chain: seq<Row>, rows: seq<Row>, cutoff: nat)
    requires forall r :: r in chain && r.ts <= cutoff ==> r in rows
    ensures UpTo(Among(chain, rows), cutoff) == UpTo(chain, cutoff)
  {
    if chain != [] {
      assert forall r :: r in Init(chain) ==> r in chain;
      assert Last(chain) in chain;
      AmongUpTo(Init(chain), rows, cutoff);
      if Last(chain) in rows {
        assert Init(Among(chain, rows)) == Among(Init(chain), rows) && Last(Among(chain, rows)) == Last(chain);
      } else {
        assert Among(chain, rows) == Among(Init(chain), rows);
      }
    }
  }

  /** After any crashes, with whatever leftovers, a completed run's feed holds chain rows only, and all of them in time. */
  lemma FeedMembers(chain: seq<Row>, genesis: nat, d: Disk, order: seq<EventName>, toBlock: nat, size: nat, asOf: nat,
                    x: Row)
    requires StrictlyInOrder(chain) && StoreInv(chain, genesis, d) && genesis <= ResumeAt(d, genesis)
    requires ReadsAll(d, order) && size > 0 && BlocksBy(chain, genesis, toBlock, asOf)
    ensures x in Feed(d, order, chain, genesis, toBlock, size) ==> x in chain
    ensures x in chain && x.ts <= asOf ==> x in Feed(d, order, chain, genesis, toBlock, size)
  {
    hide StrictlyInOrder, ReadsAll, Feed;
    FeedCounts(chain, genesis, d, order, toBlock, size, x);
    var feed := Feed(d, order, chain, genesis, toBlock, size);
    assert x in feed <==> x in multiset(feed);
  }

  /** The stock replays never see leftovers: they read the chain, exactly as a one-shot sync would. */
  lemma StocksIgnoreLeftovers(chain: seq<Row>, genesis: nat, d: Disk, order: seq<EventName>, toBlock: nat, size: nat,
                              asOf: nat, cutoff: nat)
    requires Ordered(chain) && StoreInv(chain, genesis, d) && genesis <= ResumeAt(d, genesis)
    requires ReadsAll(d, order) && size > 0 && BlocksBy(chain, genesis, toBlock, asOf) && cutoff <= asOf
    ensures var events := FromRows(Feed(d, order, chain, genesis, toBlock, size));
            && VolumesIn(TakeUntil(Of(events, ACTIVE_SET), cutoff)) == VolumesIn(UpTo(chain, cutoff))
            && OwnersIn(TakeUntil(Of(events, ACCOUNTS), cutoff)) == OwnersIn(UpTo(chain, cutoff))
  {
    OrderedIsStrict(chain);
    hide Ordered, StrictlyInOrder, StoreInv, ReadsAll, BlocksBy, Feed, Of, FromRows, TakeUntil, VolumesIn, OwnersIn;
    var feed := Feed(d, order, chain, genesis, toBlock, size);
    forall x
      ensures x in feed ==> x in chain
      ensures x in chain && x.ts <= cutoff ==> x in feed
    {
      FeedMembers(chain, genesis, d, order, toBlock, size, asOf, x);
    }
    FedStocks(chain, feed, cutoff);
  }

  /** The replays read the chain whenever every fed row is the chain's and every chain row in time is fed. */
  lemma FedStocks(chain: seq<Row>, feed: seq<Row>, cutoff: nat)
    requires Ordered(chain)
    requires forall x :: x in feed ==> x in chain
    requires forall x :: x in chain && x.ts <= cutoff ==> x in feed
    ensures VolumesIn(TakeUntil(Of(FromRows(feed), ACTIVE_SET), cutoff)) == VolumesIn(UpTo(chain, cutoff))
    ensures OwnersIn(TakeUntil(Of(FromRows(feed), ACCOUNTS), cutoff)) == OwnersIn(UpTo(chain, cutoff))
  {
    hide Of, FromRows, TakeUntil, VolumesIn, OwnersIn, Ordered;
    var kept := Among(chain, feed);
    forall x
      ensures x in kept <==> x in feed
    {
      AmongMembers(chain, feed, x);
    }
    AmongOrdered(chain, feed);
    AmongUpTo(chain, feed, cutoff);
    ReplaySeesTheChain(kept, feed, cutoff);
  }

  // ----- fees and leftovers -------------------------------------------------

  /** The loaded rows the next run acquires again. */
  function Beyond(d: Disk, order: seq<EventName>, genesis: nat): seq<Row> {
    FromBlock(PriorRows(d, order), ResumeAt(d, genesis))
  }

  function FromBlock(rows: seq<Row>, start: nat): seq<Row> {
    if rows == [] then []
    else FromBlock(Init(rows), start) + (if Last(rows).block >= start then [Last(rows)] else [])
  }

  lemma {:induction false} FromBlockCounts(rows: seq<Row>, start: nat, x: Row)
    ensures multiset(FromBlock(rows, start))[x] == if x.block >= start then multiset(rows)[x] else 0
  {
    if rows != [] {
      FromBlockCounts(Init(rows), start, x);
      assert multiset(rows) == multiset(Init(rows)) + multiset{Last(rows)} by {
        assert rows == Init(rows) + [Last(rows)];
      }
    }
  }

  lemma {:induction false} UpToCounts(rows: seq<Row>, cutoff: nat, x: Row)
    ensures multiset(UpTo(rows, cutoff))[x] == if x.ts <= cutoff then multiset(rows)[x] else 0
  {
    if rows != [] {
      UpToCounts(Init(rows), cutoff, x);
      assert multiset(rows) == multiset(Init(rows)) + multiset{Last(rows)} by {
        assert rows == Init(rows) + [Last(rows)];
      }
    }
  }

  lemma {:induction false} FeesAreInTime(rows: seq<Row>, asOf: nat)
    ensures FeesUpTo(UpTo(rows, asOf), asOf) == FeesUpTo(rows, asOf)
  {
    if rows != [] {
      FeesAreInTime(Init(rows), asOf);
      if Last(rows).ts <= asOf {
        assert Init(UpTo(rows, asOf)) == UpTo(Init(rows), asOf);
      } else {
        assert UpTo(rows, asOf) == UpTo(Init(rows), asOf);
      }
    }
  }

  /** A completed run counts the chain's fees, and once more the fees of whatever was stored beyond its head. */
  lemma FeesCountLeftoversTwice(chain: seq<Row>, genesis: nat, d: Disk, order: seq<EventName>, toBlock: nat, size: nat,
                                asOf: nat)
    requires Ordered(chain) && StoreInv(chain, genesis, d) && genesis <= ResumeAt(d, genesis)
    requires ReadsAll(d, order) && size > 0 && BlocksBy(chain, genesis, toBlock, asOf)
    ensures FeesUpTo(Of(FromRows(Feed(d, order, chain, genesis, toBlock, size)), TRANSFERS), asOf) ==
            FeesUpTo(chain, asOf) + FeesUpTo(Beyond(d, order, genesis), asOf)
  {
    OrderedIsStrict(chain);
    hide Ordered, StrictlyInOrder, ReadsAll, Feed, Of, FromRows, Beyond, UpTo, FeesUpTo;
    var feed, extra := Feed(d, order, chain, genesis, toBlock, size), Beyond(d, order, genesis);
    forall x
      ensures multiset(UpTo(feed, asOf))[x] == multiset(UpTo(chain, asOf) + UpTo(extra, asOf))[x]
    {
      UpToCounts(feed, asOf, x);
      UpToCounts(chain, asOf, x);
      UpToCounts(extra, asOf, x);
      LeftoverCounts(chain, genesis, d, order, toBlock, size, asOf, x);
    }
    FeeFoldIsTheSum(feed, asOf);
    FeesAreInTime(feed, asOf);
    FeesAreInTime(chain, asOf);
    FeesAreInTime(extra, asOf);
    FeesOfAPermutation(UpTo(feed, asOf), UpTo(chain, asOf) + UpTo(extra, asOf), asOf);
    FeesAppend(UpTo(chain, asOf), UpTo(extra, asOf), asOf);
  }

  lemma LeftoverCounts(chain: seq<Row>, genesis: nat, d: Disk, order: seq<EventName>, toBlock: nat, size: nat,
                       asOf: nat, x: Row)
    requires StrictlyInOrder(chain) && StoreInv(chain, genesis, d) && genesis <= ResumeAt(d, genesis)
    requires ReadsAll(d, order) && size > 0 && BlocksBy(chain, genesis, toBlock, asOf)
    ensures x.ts <= asOf ==> multiset(Feed(d, order, chain, genesis, toBlock, size))[x] ==
                             multiset(chain)[x] + multiset(Beyond(d, order, genesis))[x]
    ensures multiset(Beyond(d, order, genesis))[x] == if Stored(d, x) && x.block >= ResumeAt(d, genesis) then 1 else 0
  {
    hide StrictlyInOrder, ReadsAll, Feed;
    FeedCounts(chain, genesis, d, order, toBlock, size, x);
    StrictCounts(chain, x);
    FromBlockCounts(PriorRows(d, order), ResumeAt(d, genesis), x);
    PriorIsTheStored(chain, genesis, d, order, x);
  }

  lemma {:induction false} NoFeesExactlyWhen(rows: seq<Row>, asOf: nat)
    ensures FeesUpTo(rows, asOf) == 0 <==> forall r :: r in rows && r.ts <= asOf ==> FeeOf(r) == 0
  {
    if rows != [] {
      NoFeesExactlyWhen(Init(rows), asOf);
      assert rows == Init(rows) + [Last(rows)];
      assert Last(rows) in rows && forall r :: r in Init(rows) ==> r in rows;
    }
  }

  /** The fee total is right exactly when no transfer of any value, in time, is stored beyond the head. */
  lemma FeesAreRightExactlyWhen(chain: seq<Row>, genesis: nat, d: Disk, order: seq<EventName>, toBlock: nat, size: nat,
                                asOf: nat)
    requires Ordered(chain) && StoreInv(chain, genesis, d) && genesis <= ResumeAt(d, genesis)
    requires ReadsAll(d, order) && size > 0 && BlocksBy(chain, genesis, toBlock, asOf)
    ensures FeesUpTo(Of(FromRows(Feed(d, order, chain, genesis, toBlock, size)), TRANSFERS), asOf) ==
            FeesUpTo(chain, asOf)
            <==> forall r :: Stored(d, r) && r.block >= ResumeAt(d, genesis) && r.ts <= asOf ==> FeeOf(r) == 0
  {
    OrderedIsStrict(chain);
    FeesCountLeftoversTwice(chain, genesis, d, order, toBlock, size, asOf);
    hide Ordered, StrictlyInOrder, ReadsAll, Feed, Of, FromRows, Beyond, FeesUpTo, StoreInv, BlocksBy;
    var extra := Beyond(d, order, genesis);
    NoFeesExactlyWhen(extra, asOf);
    forall r
      ensures r in extra <==> Stored(d, r) && r.block >= ResumeAt(d, genesis)
    {
      LeftoverCounts(chain, genesis, d, order, toBlock, size, asOf, r);
      assert r in extra <==> r in multiset(extra);
    }
  }
}
