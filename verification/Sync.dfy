/** The resumable sync: an append-only store written one range at a time, killed anywhere, and what it then projects. */
module Sync {
  import opened Chain
  import opened History
  import opened EventStore

  // ----- the store ----------------------------------------------------------

  datatype Write = Line(row: Row) | Head(block: nat)

  /** One append-only file per event type, and the head marker. */
  datatype Disk = Disk(files: map<EventName, seq<Row>>, head: Option<nat>)

  const EMPTY: Disk := Disk(map[], None)

  function FileOf(files: map<EventName, seq<Row>>, name: EventName): seq<Row> {
    if name in files then files[name] else []
  }

  function ApplyWrite(d: Disk, w: Write): Disk {
    match w
    case Line(r) => d.(files := d.files[NameOf(r.event) := FileOf(d.files, NameOf(r.event)) + [r]])
    case Head(block) => d.(head := Some(block))
  }

  function After(d: Disk, writes: seq<Write>): Disk {
    if writes == [] then d else ApplyWrite(After(d, writes[..|writes| - 1]), writes[|writes| - 1])
  }

  function Lines(rows: seq<Row>): seq<Write> {
    seq(|rows|, i requires 0 <= i < |rows| => Line(rows[i]))
  }

  /** The event types of the rows, in order of first appearance. */
  function FirstNames(rows: seq<Row>): seq<EventName> {
    if rows == [] then []
    else
      var before := FirstNames(Init(rows));
      if NameOf(Last(rows).event) in before then before else before + [NameOf(Last(rows).event)]
  }

  /** The rows regrouped file by file. */
  function FileByFile(rows: seq<Row>, names: seq<EventName>): seq<Row> {
    if names == [] then [] else FileByFile(rows, names[..|names| - 1]) + Named(rows, names[|names| - 1])
  }

  function ByFile(rows: seq<Row>): seq<Row> {
    FileByFile(rows, FirstNames(rows))
  }

  /** Where the next run starts. */
  function ResumeAt(d: Disk, genesis: nat): nat {
    if d.head.Some? then d.head.value + 1 else genesis
  }

  // ----- one run's writes ---------------------------------------------------

  function RangeRows(chain: seq<Row>, start: nat, end: nat): seq<Row> {
    if chain == [] then []
    else RangeRows(Init(chain), start, end) + (if start <= Last(chain).block <= end then [Last(chain)] else [])
  }

  function FeeLeg(rows: seq<Row>): seq<Row> {
    Named(rows, NameTransfer)
  }

  function RegistryLeg(rows: seq<Row>): seq<Row> {
    if rows == [] then []
    else RegistryLeg(Init(rows)) + (if NameOf(Last(rows).event) != NameTransfer then [Last(rows)] else [])
  }

  /** Both legs of one range: every registry event, then the fee transfers. */
  function ChunkRows(chain: seq<Row>, start: nat, end: nat): seq<Row> {
    RegistryLeg(RangeRows(chain, start, end)) + FeeLeg(RangeRows(chain, start, end))
  }

  /** The end of the range that starts at `start`. */
  function ChunkEnd(start: nat, toBlock: nat, size: nat): nat
    requires size > 0
  {
    if start + size - 1 <= toBlock then start + size - 1 else toBlock
  }

  /** Rows first, then the head. */
  function ChunkWrites(chain: seq<Row>, start: nat, end: nat): seq<Write> {
    Lines(ByFile(ChunkRows(chain, start, end))) + [Head(end)]
  }

  function RunWrites(chain: seq<Row>, start: nat, toBlock: nat, size: nat): seq<Write>
    requires size > 0
    decreases toBlock + 1 - start
  {
    if start > toBlock then []
    else
      var end := ChunkEnd(start, toBlock, size);
      ChunkWrites(chain, start, end) + RunWrites(chain, end + 1, toBlock, size)
  }

  function FreshRows(chain: seq<Row>, start: nat, toBlock: nat, size: nat): seq<Row>
    requires size > 0
    decreases toBlock + 1 - start
  {
    if start > toBlock then []
    else
      var end := ChunkEnd(start, toBlock, size);
      ChunkRows(chain, start, end) + FreshRows(chain, end + 1, toBlock, size)
  }

  // ----- loading ------------------------------------------------------------

  function AllLines(files: map<EventName, seq<Row>>, order: seq<EventName>): seq<Row> {
    if order == [] then [] else AllLines(files, order[..|order| - 1]) + FileOf(files, order[|order| - 1])
  }

  predicate HasKey(rows: seq<Row>, r: Row) {
    exists x :: x in rows && x.block == r.block && x.logIndex == r.logIndex
  }

  /** The first row of each position. */
  function Dedup(rows: seq<Row>): seq<Row> {
    if rows == [] then []
    else
      var kept := Dedup(Init(rows));
      if HasKey(kept, Last(rows)) then kept else kept + [Last(rows)]
  }

  /** Every type merged back into one stream. */
  function Merged(rows: seq<Row>): seq<Row> {
    Of(FromRows(rows), FirstNames(rows))
  }

  function PriorRows(d: Disk, order: seq<EventName>): seq<Row> {
    Dedup(AllLines(d.files, order))
  }

  /** What a run that completes hands to the projector: the prior history, then the fresh rows. */
  function Feed(d: Disk, order: seq<EventName>, chain: seq<Row>, genesis: nat, toBlock: nat, size: nat): seq<Row>
    requires size > 0
  {
    Merged(PriorRows(d, order)) + FreshRows(chain, ResumeAt(d, genesis), toBlock, size)
  }

  // ----- the store as an object ---------------------------------------------

  lemma OneMoreWrite(d: Disk, writes: seq<Write>, w: Write)
    ensures After(d, writes + [w]) == ApplyWrite(After(d, writes), w)
  {
    assert (writes + [w])[..|writes + [w]| - 1] == writes;
  }

  class Store {
    var files: map<EventName, seq<Row>>
    var head: Option<nat>
    ghost var writes: seq<Write>

    ghost predicate Valid()
      reads this
    {
      OnDisk() == After(EMPTY, writes)
    }

    ghost function OnDisk(): Disk
      reads this
    {
      Disk(files, head)
    }

    constructor ()
      ensures Valid() && OnDisk() == EMPTY && writes == []
    {
      files, head, writes := map[], None, [];
    }

    method WriteLine(r: Row)
      requires Valid()
      modifies this
      ensures Valid() && writes == old(writes) + [Line(r)]
      ensures OnDisk() == ApplyWrite(old(OnDisk()), Line(r)) && head == old(head)
    {
      OneMoreWrite(EMPTY, writes, Line(r));
      var name := NameOf(r.event);
      files := files[name := FileOf(files, name) + [r]];
      writes := writes + [Line(r)];
    }

    method SaveHead(block: nat)
      requires Valid()
      modifies this
      ensures Valid() && writes == old(writes) + [Head(block)]
      ensures OnDisk() == old(OnDisk()).(head := Some(block))
    {
      OneMoreWrite(EMPTY, writes, Head(block));
      head := Some(block);
      writes := writes + [Head(block)];
    }

    method AppendFile(rows: seq<Row>)
      requires Valid()
      modifies this
      ensures Valid() && writes == old(writes) + Lines(rows) && head == old(head)
    {
      hide After, ApplyWrite;
      for k := 0 to |rows|
        invariant Valid() && head == old(head)
        invariant writes == old(writes) + Lines(rows[..k])
      {
        WriteLine(rows[k]);
        assert Lines(rows[..k + 1]) == Lines(rows[..k]) + [Line(rows[k])];
      }
      assert rows[..|rows|] == rows;
    }

    /** `append_rows`: grouped by file, then appended file by file. */
    method AppendRows(rows: seq<Row>)
      requires Valid()
      modifies this
      ensures Valid() && writes == old(writes) + Lines(ByFile(rows)) && head == old(head)
    {
      hide After, ApplyWrite, Lines, Named, FirstNames;
      NoLines();
      var byFile, names := GroupByFile(rows);
      for i := 0 to |names|
        invariant Valid() && head == old(head)
        invariant writes == old(writes) + Lines(FileByFile(rows, names[..i]))
      {
        AppendFile(byFile[names[i]]);
        assert names[..i + 1][..i] == names[..i];
        LinesJoin(FileByFile(rows, names[..i]), Named(rows, names[i]));
      }
      assert names[..|names|] == names;
    }

    /** `load_event_log`, reading the files in any order: the first line of each position wins. */
    method LoadRows(order: seq<EventName>) returns (rows: seq<Row>)
      ensures rows == PriorRows(OnDisk(), order)
    {
      rows := [];
      for i := 0 to |order|
        invariant rows == Dedup(AllLines(files, order[..i]))
      {
        assert order[..i + 1][..i] == order[..i];
        rows := LoadFile(AllLines(files, order[..i]), rows, FileOf(files, order[i]));
      }
      assert order[..|order|] == order;
    }
  }

  lemma NoLines()
    ensures Lines([]) == []
  {
  }

  lemma LinesJoin(a: seq<Row>, b: seq<Row>)
    ensures Lines(a + b) == Lines(a) + Lines(b)
  {
  }

  method LoadFile(ghost before: seq<Row>, kept: seq<Row>, lines: seq<Row>) returns (rows: seq<Row>)
    requires kept == Dedup(before)
    ensures rows == Dedup(before + lines)
  {
    hide HasKey;
    rows := kept;
    assert before + lines[..0] == before;
    for k := 0 to |lines|
      invariant rows == Dedup(before + lines[..k])
    {
      DedupStep(before + lines[..k], lines[k]);
      assert before + lines[..k + 1] == before + lines[..k] + [lines[k]];
      if !HasKey(rows, lines[k]) {
        rows := rows + [lines[k]];
      }
    }
    assert lines[..|lines|] == lines;
  }

  lemma DedupStep(rows: seq<Row>, r: Row)
    ensures Dedup(rows + [r]) == if HasKey(Dedup(rows), r) then Dedup(rows) else Dedup(rows) + [r]
  {
    assert Init(rows + [r]) == rows && Last(rows + [r]) == r;
  }

  /** The grouping of `append_rows`: a bucket per file, files in order of first appearance. */
  method GroupByFile(rows: seq<Row>) returns (byFile: map<EventName, seq<Row>>, names: seq<EventName>)
    ensures names == FirstNames(rows)
    ensures forall name :: name in names ==> name in byFile && byFile[name] == Named(rows, name)
  {
    byFile, names := map[], [];
    assert Partitions(byFile, rows[..0]);
    hide Partitions, FirstNames, Named, NamesOf;
    NoNames();
    for i := 0 to |rows|
      invariant Partitions(byFile, rows[..i])
      invariant names == FirstNames(rows[..i])
      invariant forall name :: name in names <==> name in byFile
    {
      var name := NameOf(rows[i].event);
      PartitionNext(byFile, rows, i);
      FirstNamesOneMore(rows[..i], rows[i]);
      Sliced(rows, i);
      if name !in byFile {
        names := names + [name];
      }
      byFile := byFile[name := (if name in byFile then byFile[name] else []) + [rows[i]]];
    }
    assert rows[..|rows|] == rows;
    PartitionsAreNamed(byFile, rows);
  }

  lemma NoNames()
    ensures FirstNames([]) == []
  {
  }

  lemma FirstNamesOneMore(rows: seq<Row>, r: Row)
    ensures FirstNames(rows + [r]) == if NameOf(r.event) in FirstNames(rows) then FirstNames(rows)
                                      else FirstNames(rows) + [NameOf(r.event)]
  {
    assert Init(rows + [r]) == rows && Last(rows + [r]) == r;
  }

  lemma PartitionsAreNamed(byFile: map<EventName, seq<Row>>, rows: seq<Row>)
    requires Partitions(byFile, rows)
    ensures forall name :: name in byFile ==> byFile[name] == Named(rows, name)
  {
    forall name | name in byFile
      ensures byFile[name] == Named(rows, name)
    {
      assert Named(rows, name) == if name in byFile then byFile[name] else [];
    }
  }

  /** One range: append its rows, save its end as the head, and keep the rows. */
  method AcquireRange(store: Store, chain: seq<Row>, ghost fromBlock: nat, toBlock: nat, size: nat,
                      ghost before: seq<Write>, start: nat, newRows: seq<Row>) returns (next: nat, moreRows: seq<Row>)
    requires store.Valid() && size > 0 && start <= toBlock
    requires Remains(chain, fromBlock, toBlock, size, before, start, store.writes, newRows)
    modifies store
    ensures store.Valid() && start < next
    ensures Remains(chain, fromBlock, toBlock, size, before, next, store.writes, moreRows)
  {
    hide *;
    RunStep(chain, fromBlock, toBlock, size, before, start, store.writes, newRows);
    var end := ChunkEnd(start, toBlock, size);
    var rows := ChunkRows(chain, start, end);
    store.AppendRows(rows);
    store.SaveHead(end);
    next, moreRows := end + 1, newRows + rows;
  }

  /** The acquisition loop: range by range from the resume point, keeping the rows for the projector. */
  method AcquireRanges(store: Store, chain: seq<Row>, fromBlock: nat, toBlock: nat, size: nat)
    returns (newRows: seq<Row>)
    requires store.Valid() && size > 0
    modifies store
    ensures store.Valid()
    ensures store.writes == old(store.writes) + RunWrites(chain, fromBlock, toBlock, size)
    ensures newRows == FreshRows(chain, fromBlock, toBlock, size)
  {
    newRows := [];
    var start := fromBlock;
    ghost var before := store.writes;
    hide *;
    NothingDone(chain, fromBlock, toBlock, size, before);
    while start <= toBlock
      invariant store.Valid()
      invariant Remains(chain, fromBlock, toBlock, size, before, start, store.writes, newRows)
      decreases toBlock + 1 - start
    {
      start, newRows := AcquireRange(store, chain, fromBlock, toBlock, size, before, start, newRows);
    }
    NothingLeft(chain, fromBlock, toBlock, size, before, start, store.writes, newRows);
  }

  /** What is written so far and what a run from `start` would write make up the whole run, and the rows alike. */
  ghost predicate Remains(chain: seq<Row>, fromBlock: nat, toBlock: nat, size: nat, before: seq<Write>, start: nat,
                          writes: seq<Write>, rows: seq<Row>)
    requires size > 0
  {
    && writes + RunWrites(chain, start, toBlock, size) == before + RunWrites(chain, fromBlock, toBlock, size)
    && rows + FreshRows(chain, start, toBlock, size) == FreshRows(chain, fromBlock, toBlock, size)
  }

  lemma NothingDone(chain: seq<Row>, fromBlock: nat, toBlock: nat, size: nat, before: seq<Write>)
    requires size > 0
    ensures Remains(chain, fromBlock, toBlock, size, before, fromBlock, before, [])
  {
  }

  lemma NothingLeft(chain: seq<Row>, fromBlock: nat, toBlock: nat, size: nat, before: seq<Write>, start: nat,
                    writes: seq<Write>, rows: seq<Row>)
    requires size > 0 && start > toBlock
    requires Remains(chain, fromBlock, toBlock, size, before, start, writes, rows)
    ensures writes == before + RunWrites(chain, fromBlock, toBlock, size)
    ensures rows == FreshRows(chain, fromBlock, toBlock, size)
  {
    assert writes + [] == writes && rows + [] == rows;
  }

  lemma RunStep(chain: seq<Row>, fromBlock: nat, toBlock: nat, size: nat, before: seq<Write>, start: nat,
                writes: seq<Write>, rows: seq<Row>)
    requires size > 0 && start <= toBlock
    requires Remains(chain, fromBlock, toBlock, size, before, start, writes, rows)
    ensures var end := ChunkEnd(start, toBlock, size);
            && start <= end <= toBlock
            && Remains(chain, fromBlock, toBlock, size, before, end + 1,
                       writes + Lines(ByFile(ChunkRows(chain, start, end))) + [Head(end)],
                       rows + ChunkRows(chain, start, end))
  {
    hide ChunkRows, ByFile, Lines;
    var end := ChunkEnd(start, toBlock, size);
    var lines, acquired := Lines(ByFile(ChunkRows(chain, start, end))), ChunkRows(chain, start, end);
    Regroup(writes, lines, [Head(end)]);
    Regroup(writes, lines + [Head(end)], RunWrites(chain, end + 1, toBlock, size));
    Regroup(rows, acquired, FreshRows(chain, end + 1, toBlock, size));
  }

  lemma Regroup<T>(a: seq<T>, b: seq<T>, c: seq<T>)
    ensures a + b + c == a + (b + c)
  {
  }

  /** `_sync_and_project` up to the projection: resume after the head, then feed prior history and fresh rows. */
  method SyncDelta(store: Store, chain: seq<Row>, genesis: nat, toBlock: nat, size: nat, order: seq<EventName>)
    returns (events: EventLog)
    requires store.Valid() && size > 0
    modifies store
    ensures store.Valid()
    ensures store.writes == old(store.writes) + RunWrites(chain, ResumeAt(old(store.OnDisk()), genesis), toBlock, size)
    ensures events == FromRows(Feed(old(store.OnDisk()), order, chain, genesis, toBlock, size))
  {
    hide PriorRows, Merged, FreshRows, RunWrites, FromRows, After;
    var prior := store.LoadRows(order);
    var fromBlock := if store.head.Some? then store.head.value + 1 else genesis;
    var newRows := AcquireRanges(store, chain, fromBlock, toBlock, size);
    events := PartitionRows(Merged(prior) + newRows);
  }
}
