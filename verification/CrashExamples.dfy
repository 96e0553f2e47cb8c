/** One chain the registry logs, killed at two places: fees are counted twice, or a paying owner goes missing. */
module CrashExamples {
  import opened Machine
  import opened Chain
  import opened History
  import opened Runs
  import opened EventStore
  import opened Projector
  import opened DailySeries
  import opened Payments
  import opened Attribution
  import opened Sync
  import opened Resume
  import opened Crash
  import opened EndToEnd
  import opened ExampleRun

  const WRITES: seq<Write> := [Line(DESIGNATED_1), Line(DESIGNATED_2), Line(ACTIVE_1), Line(ACTIVE_2), Line(IMPORTED_1),
                               Line(IMPORTED_2), Head(1), Line(TOPPED_1), Line(TOPPED_2), Line(FEE_1), Line(FEE_2),
                               Head(2)]
  const FILES: seq<EventName> := [NamePayerDesignated, NameAccountActivated, NameVolumeImported, NameToppedup,
                                  NameTransfer]

  // ----- what a run over the chain writes -----------------------------------

  lemma SliceSteps<T>(rows: seq<T>, i: nat, j: nat)
    requires i <= j <= |rows| && rows != []
    ensures var n := |rows| - 1;
            rows[i..j] == rows[..n][Min(i, n)..Min(j, n)] + if i <= n < j then [rows[n]] else []
  {
  }

  lemma {:induction false} RangeSlice(rows: seq<Row>, start: nat, end: nat, i: nat, j: nat)
    requires i <= j <= |rows|
    requires forall k :: 0 <= k < |rows| ==> (start <= rows[k].block <= end <==> i <= k < j)
    ensures RangeRows(rows, start, end) == rows[i..j]
  {
    if rows != [] {
      var n := |rows| - 1;
      RangeSlice(Init(rows), start, end, Min(i, n), Min(j, n));
      SliceSteps(rows, i, j);
    }
  }

  lemma {:induction false} NamedSlice(rows: seq<Row>, name: EventName, i: nat, j: nat)
    requires i <= j <= |rows|
    requires forall k :: 0 <= k < |rows| ==> (NameOf(rows[k].event) == name <==> i <= k < j)
    ensures Named(rows, name) == rows[i..j]
  {
    hide NameOf;
    if rows != [] {
      var n := |rows| - 1;
      NamedSlice(Init(rows), name, Min(i, n), Min(j, n));
      SliceSteps(rows, i, j);
    }
  }

  lemma {:induction false} AllRegistry(rows: seq<Row>)
    requires forall k :: 0 <= k < |rows| ==> NameOf(rows[k].event) != NameTransfer
    ensures RegistryLeg(rows) == rows
  {
    hide NameOf, RegistryLeg;
    if rows == [] {
      NoLegs(NameTransfer);
    } else {
      var init, last := Init(rows), Last(rows);
      assert rows == init + [last];
      AllRegistry(init);
      LegsOneMore(init, last, NameTransfer);
    }
  }

  lemma OneFile(rows: seq<Row>, names: seq<EventName>, name: EventName)
    ensures FileByFile(rows, names + [name]) == FileByFile(rows, names) + Named(rows, name)
  {
    assert (names + [name])[..|names + [name]| - 1] == names;
  }

  lemma NoFiles(rows: seq<Row>)
    ensures FileByFile(rows, []) == []
  {
  }

  lemma PrefixNames(k: nat)
    requires k < 6
    ensures FirstNames(CHAIN[..k + 1]) == if NameOf(CHAIN[k].event) in FirstNames(CHAIN[..k]) then FirstNames(CHAIN[..k])
                                          else FirstNames(CHAIN[..k]) + [NameOf(CHAIN[k].event)]
  {
    assert CHAIN[..k + 1] == CHAIN[..k] + [CHAIN[k]];
    FirstNamesOneMore(CHAIN[..k], CHAIN[k]);
  }

  lemma NamesOfBlockOne()
    ensures FirstNames(CHAIN[..6]) == [NamePayerDesignated, NameAccountActivated, NameVolumeImported]
  {
    hide FirstNames;
    NoNames();
    assert CHAIN[..0] == [];
    PrefixNames(0);
    PrefixNames(1);
    PrefixNames(2);
    PrefixNames(3);
    PrefixNames(4);
    PrefixNames(5);
  }

  lemma ThreeFiles(rows: seq<Row>, a: EventName, b: EventName, c: EventName)
    ensures FileByFile(rows, [a, b, c]) == Named(rows, a) + Named(rows, b) + Named(rows, c)
  {
    hide Named, FileByFile;
    NoFiles(rows);
    OneFile(rows, [], a);
    OneFile(rows, [a], b);
    OneFile(rows, [a, b], c);
    assert [] + [a] == [a] && [a] + [b] == [a, b] && [a, b] + [c] == [a, b, c];
    assert [] + Named(rows, a) == Named(rows, a);
  }

  lemma FilesOfBlockOne()
    ensures ByFile(CHAIN[..6]) == CHAIN[..6]
  {
    var rows := CHAIN[..6];
    NamedSlice(rows, NamePayerDesignated, 0, 2);
    NamedSlice(rows, NameAccountActivated, 2, 4);
    NamedSlice(rows, NameVolumeImported, 4, 6);
    hide Named, FirstNames, FileByFile, NameOf;
    NamesOfBlockOne();
    ThreeFiles(rows, NamePayerDesignated, NameAccountActivated, NameVolumeImported);
    assert rows[0..2] + rows[2..4] + rows[4..6] == rows;
  }

  lemma FirstChunk()
    ensures ByFile(ChunkRows(CHAIN, 1, 1)) == CHAIN[..6]
  {
    RangeSlice(CHAIN, 1, 1, 0, 6);
    var rows := CHAIN[..6];
    assert CHAIN[0..6] == rows;
    AllRegistry(rows);
    NamedSlice(rows, NameTransfer, 0, 0);
    hide RangeRows, RegistryLeg, Named;
    assert ChunkRows(CHAIN, 1, 1) == rows;
    FilesOfBlockOne();
  }

  lemma LegsOneMore(rows: seq<Row>, r: Row, name: EventName)
    ensures RegistryLeg(rows + [r]) == if NameOf(r.event) != NameTransfer then RegistryLeg(rows) + [r] else RegistryLeg(rows)
    ensures Named(rows + [r], name) == if NameOf(r.event) == name then Named(rows, name) + [r] else Named(rows, name)
  {
    assert Init(rows + [r]) == rows && Last(rows + [r]) == r;
  }

  lemma NoLegs(name: EventName)
    ensures RegistryLeg([]) == [] && Named([], name) == []
  {
  }

  /** Two transfers interleaved with two top-ups, split into legs. */
  lemma LegsOfFour(f1: Row, t1: Row, f2: Row, t2: Row)
    requires NameOf(f1.event) == NameOf(f2.event) == NameTransfer
    requires NameOf(t1.event) == NameOf(t2.event) == NameToppedup
    ensures RegistryLeg([f1, t1, f2, t2]) == [t1, t2] && Named([f1, t1, f2, t2], NameTransfer) == [f1, f2]
  {
    hide RegistryLeg, Named, NameOf;
    NoLegs(NameTransfer);
    LegsOneMore([], f1, NameTransfer);
    LegsOneMore([f1], t1, NameTransfer);
    LegsOneMore([f1, t1], f2, NameTransfer);
    LegsOneMore([f1, t1, f2], t2, NameTransfer);
    assert [] + [f1] == [f1] && [f1] + [t1] == [f1, t1];
    assert [f1, t1] + [f2] == [f1, t1, f2] && [f1, t1, f2] + [t2] == [f1, t1, f2, t2];
  }

  lemma NamesOfFour(t1: Row, t2: Row, f1: Row, f2: Row)
    requires NameOf(f1.event) == NameOf(f2.event) == NameTransfer
    requires NameOf(t1.event) == NameOf(t2.event) == NameToppedup
    ensures FirstNames([t1, t2, f1, f2]) == [NameToppedup, NameTransfer]
  {
    hide FirstNames, NameOf;
    NoNames();
    FirstNamesOneMore([], t1);
    FirstNamesOneMore([t1], t2);
    FirstNamesOneMore([t1, t2], f1);
    FirstNamesOneMore([t1, t2, f1], f2);
    assert [] + [t1] == [t1] && [t1] + [t2] == [t1, t2];
    assert [t1, t2] + [f1] == [t1, t2, f1] && [t1, t2, f1] + [f2] == [t1, t2, f1, f2];
  }

  /** File by file the top-ups come first: the fees' file is the last one written. */
  lemma FilesOfFour(t1: Row, t2: Row, f1: Row, f2: Row)
    requires NameOf(f1.event) == NameOf(f2.event) == NameTransfer
    requires NameOf(t1.event) == NameOf(t2.event) == NameToppedup
    ensures ByFile([t1, t2, f1, f2]) == [t1, t2, f1, f2]
  {
    hide Named, FirstNames, FileByFile, NameOf;
    var rows := [t1, t2, f1, f2];
    NamesOfFour(t1, t2, f1, f2);
    NamedSlice(rows, NameToppedup, 0, 2);
    NamedSlice(rows, NameTransfer, 2, 4);
    NoFiles(rows);
    OneFile(rows, [], NameToppedup);
    OneFile(rows, [NameToppedup], NameTransfer);
    assert [] + [NameToppedup] == [NameToppedup] && [NameToppedup] + [NameTransfer] == [NameToppedup, NameTransfer];
    assert [] + rows[0..2] == rows[0..2] && rows[0..2] + rows[2..4] == rows;
  }

  lemma SecondChunk()
    ensures ByFile(ChunkRows(CHAIN, 2, 2)) == [TOPPED_1, TOPPED_2, FEE_1, FEE_2]
  {
    RangeSlice(CHAIN, 2, 2, 6, 10);
    assert CHAIN[6..10] == [FEE_1, TOPPED_1, FEE_2, TOPPED_2];
    hide RangeRows, RegistryLeg, Named, ByFile;
    LegsOfFour(FEE_1, TOPPED_1, FEE_2, TOPPED_2);
    FilesOfFour(TOPPED_1, TOPPED_2, FEE_1, FEE_2);
    assert [TOPPED_1, TOPPED_2] + [FEE_1, FEE_2] == [TOPPED_1, TOPPED_2, FEE_1, FEE_2];
  }

  lemma WritesOfChain()
    ensures RunWrites(CHAIN, 1, 2, 1) == WRITES
  {
    FirstChunk();
    SecondChunk();
    hide ByFile, ChunkRows;
    assert RunWrites(CHAIN, 3, 2, 1) == [];
    assert RunWrites(CHAIN, 2, 2, 1) == ChunkWrites(CHAIN, 2, 2) + [];
    assert RunWrites(CHAIN, 1, 2, 1) == ChunkWrites(CHAIN, 1, 1) + RunWrites(CHAIN, 2, 2, 1);
    assert Lines(CHAIN[..6]) == WRITES[..6];
    assert Lines([TOPPED_1, TOPPED_2, FEE_1, FEE_2]) == WRITES[7..11];
  }

  // ----- the disk after a killed run ----------------------------------------

  function BlockOneFiles(): map<EventName, seq<Row>> {
    map[NamePayerDesignated := [DESIGNATED_1, DESIGNATED_2], NameAccountActivated := [ACTIVE_1, ACTIVE_2],
        NameVolumeImported := [IMPORTED_1, IMPORTED_2]]
  }

  /** The disk after a run killed with `n` of its writes done, the files of the last range at least begun. */
  function Killed(n: nat): Disk
    requires 9 <= n <= 11
  {
    var files := BlockOneFiles()[NameToppedup := [TOPPED_1, TOPPED_2]];
    Disk(if n == 9 then files else files[NameTransfer := if n == 10 then [FEE_1] else [FEE_1, FEE_2]], Some(1))
  }

  lemma WriteStep(k: nat)
    requires k < |WRITES|
    ensures After(EMPTY, WRITES[..k + 1]) == ApplyWrite(After(EMPTY, WRITES[..k]), WRITES[k])
  {
    assert WRITES[..k + 1] == WRITES[..k] + [WRITES[k]];
    OneMoreWrite(EMPTY, WRITES[..k], WRITES[k]);
  }

  /** Two lines of one file not begun before. */
  lemma TwoLines(k: nat, files: map<EventName, seq<Row>>, head: Option<nat>, a: Row, b: Row)
    requires k + 1 < |WRITES| && After(EMPTY, WRITES[..k]) == Disk(files, head)
    requires WRITES[k] == Line(a) && WRITES[k + 1] == Line(b)
    requires NameOf(a.event) == NameOf(b.event) && NameOf(a.event) !in files
    ensures After(EMPTY, WRITES[..k + 2]) == Disk(files[NameOf(a.event) := [a, b]], head)
  {
    hide After, NameOf;
    WriteStep(k);
    WriteStep(k + 1);
    assert [] + [a] == [a] && [a] + [b] == [a, b];
  }

  lemma AfterSeven()
    ensures After(EMPTY, WRITES[..7]) == Disk(BlockOneFiles(), Some(1))
  {
    hide After;
    AfterNothing(EMPTY);
    assert WRITES[..0] == [];
    TwoLines(0, map[], None, DESIGNATED_1, DESIGNATED_2);
    var files := map[NamePayerDesignated := [DESIGNATED_1, DESIGNATED_2]];
    TwoLines(2, files, None, ACTIVE_1, ACTIVE_2);
    TwoLines(4, files[NameAccountActivated := [ACTIVE_1, ACTIVE_2]], None, IMPORTED_1, IMPORTED_2);
    WriteStep(6);
  }

  lemma AfterNine()
    ensures After(EMPTY, WRITES[..9]) == Killed(9)
  {
    hide After;
    AfterSeven();
    TwoLines(7, BlockOneFiles(), Some(1), TOPPED_1, TOPPED_2);
  }

  lemma AfterWrites(n: nat)
    requires 9 <= n <= 11
    ensures After(EMPTY, WRITES[..n]) == Killed(n)
  {
    hide After;
    AfterNine();
    WriteStep(9);
    WriteStep(10);
    assert [] + [FEE_1] == [FEE_1] && [FEE_1] + [FEE_2] == [FEE_1, FEE_2];
    assert After(EMPTY, WRITES[..10]) == Killed(10);
  }

  lemma FilesAreRead(n: nat)
    requires 9 <= n <= 11
    ensures ReadsAll(Killed(n), FILES)
  {
    assert FILES[0] == NamePayerDesignated && FILES[1] == NameAccountActivated && FILES[2] == NameVolumeImported;
    assert FILES[3] == NameToppedup && FILES[4] == NameTransfer;
  }

  lemma KilledSession(n: nat)
    requires 9 <= n <= 11
    ensures SessionOf(CHAIN, 1, EMPTY, Session(2, 1, n), Killed(n))
  {
    WritesOfChain();
    AfterWrites(n);
    hide RunWrites, After, Killed;
  }

  lemma KilledSessions(n: nat)
    requires 9 <= n <= 11
    ensures Sessions(CHAIN, 1, [EMPTY, Killed(n)], [Session(2, 1, n)])
    ensures StoreInv(CHAIN, 1, Killed(n)) && ReadsAll(Killed(n), FILES)
  {
    FilesAreRead(n);
    KilledSession(n);
    hide StoreInv, SessionOf, Killed, ReadsAll, ResumeAt;
    StoreInvAlways(CHAIN, 1, [EMPTY, Killed(n)], [Session(2, 1, n)], 1);
  }

  // ----- the chain is one the registry logs ---------------------------------

  lemma ChainIsGood()
    ensures GoodLog(CHAIN) && InRange(CHAIN, 1, 2) && BlocksBy(CHAIN, 1, 2, 20)
  {
    LogOfTheRun();
    hide Run, GoodLog;
    RunLogIsGood(CFG, Moments(), Labels(), 13);
  }

  lemma OwnerOneMore(log: seq<Row>, r: Row, id: Bytes32)
    ensures OwnerIn(log + [r], id) == if IsAdmit(r.event) && r.event.id == id then Some(r.event.owner) else OwnerIn(log, id)
  {
    assert Init(log + [r]) == log && Last(log + [r]) == r;
  }

  lemma PrefixOwner(k: nat, id: Bytes32)
    requires 4 <= k < |CHAIN| && (id == ID_1 || id == ID_2)
    ensures OwnerIn(CHAIN[..k + 1], id) == if id == ID_1 then Some(1) else if k >= 5 then Some(2) else OwnerIn(CHAIN[..4], id)
  {
    assert CHAIN[..k + 1] == CHAIN[..k] + [CHAIN[k]];
    hide OwnerIn;
    OwnerOneMore(CHAIN[..k], CHAIN[k], id);
    if k > 4 {
      PrefixOwner(k - 1, id);
    }
  }

  /** The two payments bill the two owners. */
  lemma BilledOwners()
    ensures BilledIn(CHAIN[..7], CHAIN[7].event) == Some(1) && BilledIn(CHAIN[..9], CHAIN[9].event) == Some(2)
    ensures forall m :: 0 <= m < |CHAIN| && IsPayment(CHAIN[m].event) ==> m == 7 || m == 9
  {
    hide OwnerIn;
    PrefixOwner(6, ID_1);
    PrefixOwner(8, ID_2);
  }

  // ----- fees counted twice -------------------------------------------------

  lemma FeeLeftOver()
    ensures ResumeAt(Killed(11), 1) == 2
    ensures Stored(Killed(11), FEE_1) && FEE_1.block == 2 && FEE_1.ts == 20 && FeeOf(FEE_1) != 0
  {
  }

  /** Killed after its last rows and before its last head, a run over the registry's own log leaves fees the next run
      counts again. */
  lemma FeesCountedTwice()
    ensures Run(CFG, Moments(), Labels()) && Moments()[13].env.log == CHAIN
    ensures Sessions(CHAIN, 1, [EMPTY, Killed(11)], [Session(2, 1, 11)])
    ensures FeesUpTo(Of(FromRows(Feed(Killed(11), FILES, CHAIN, 1, 2, 1)), TRANSFERS), 20) > FeesUpTo(CHAIN, 20)
  {
    LogOfTheRun();
    KilledSessions(11);
    ChainIsGood();
    FeeLeftOver();
    hide Run, StoreInv, ReadsAll, Feed, Of, FromRows, FeesUpTo, BlocksBy, Sessions, Stored, ResumeAt, Killed, FeeOf, Ordered,
         Paired, Authorised, AdmittedOnce;
    FeesCountLeftoversTwice(CHAIN, 1, Killed(11), FILES, 2, 1, 20);
    FeesAreRightExactlyWhen(CHAIN, 1, Killed(11), FILES, 2, 1, 20);
  }

  // ----- a payer missed -----------------------------------------------------

  lemma StoredBeyond(x: Row)
    ensures Stored(Killed(9), x) && x.block >= ResumeAt(Killed(9), 1) <==> x == TOPPED_1 || x == TOPPED_2
  {
    assert x in [TOPPED_1, TOPPED_2] <==> x == TOPPED_1 || x == TOPPED_2;
    assert forall r :: r in [DESIGNATED_1, DESIGNATED_2] ==> r.block == 1;
    assert forall r :: r in [ACTIVE_1, ACTIVE_2] ==> r.block == 1;
    assert forall r :: r in [IMPORTED_1, IMPORTED_2] ==> r.block == 1;
  }

  lemma LeftoverAt(x: Row)
    requires StoreInv(CHAIN, 1, Killed(9)) && ReadsAll(Killed(9), FILES) && GoodLog(CHAIN) && BlocksBy(CHAIN, 1, 2, 20)
    ensures var extra := Beyond(Killed(9), FILES, 1);
            && multiset(Earlier(SiblingsOf(extra, 7), TOPPED_2))[x] == (if x == TOPPED_1 then 1 else 0)
            && multiset(TransfersOf(extra, 7))[x] == 0
  {
    var extra := Beyond(Killed(9), FILES, 1);
    OrderedIsStrict(CHAIN);
    ResumePoint();
    StoredBeyond(x);
    hide StoreInv, ReadsAll, BlocksBy, GoodLog, StrictlyInOrder, SiblingsOf, TransfersOf, Beyond, Stored, Earlier, ResumeAt,
         Killed, Feed;
    LeftoverCounts(CHAIN, 1, Killed(9), FILES, 2, 1, 20, x);
    JoinCounts(extra, 7, x);
    EarlierCounts(SiblingsOf(extra, 7), TOPPED_2, x);
  }

  lemma LeftoverSizes(earlier: seq<Row>, transfers: seq<Row>)
    requires forall x :: multiset(earlier)[x] == (if x == TOPPED_1 then 1 else 0) && multiset(transfers)[x] == 0
    ensures |earlier| == 1 && |transfers| == 0
  {
    SizeByCounts(earlier, multiset{TOPPED_1});
    SizeByCounts(transfers, multiset{});
  }

  /** What is left over is the two top-ups and no transfer. */
  lemma LeftoverTopUps()
    requires StoreInv(CHAIN, 1, Killed(9)) && ReadsAll(Killed(9), FILES) && GoodLog(CHAIN) && BlocksBy(CHAIN, 1, 2, 20)
    ensures var extra := Beyond(Killed(9), FILES, 1);
            |Earlier(SiblingsOf(extra, 7), TOPPED_2)| == 1 && |TransfersOf(extra, 7)| == 0
  {
    var extra := Beyond(Killed(9), FILES, 1);
    var earlier, transfers := Earlier(SiblingsOf(extra, 7), TOPPED_2), TransfersOf(extra, 7);
    hide *;
    forall x
      ensures multiset(earlier)[x] == (if x == TOPPED_1 then 1 else 0) && multiset(transfers)[x] == 0
    {
      LeftoverAt(x);
    }
    LeftoverSizes(earlier, transfers);
  }

  lemma ResumePoint()
    ensures ResumeAt(Killed(9), 1) == 2
  {
  }

  lemma SizeByCounts(rows: seq<Row>, counts: multiset<Row>)
    requires forall x :: multiset(rows)[x] == counts[x]
    ensures |rows| == |counts|
  {
    assert multiset(rows) == counts;
    assert |multiset(rows)| == |rows|;
  }

  lemma {:induction false} NoJoinBefore(rows: seq<Row>, tx: nat)
    requires forall r :: r in rows ==> r.tx != tx
    ensures TransfersOf(rows, tx) == [] && SiblingsOf(rows, tx) == []
  {
    if rows != [] {
      assert Last(rows) in rows && forall r :: r in Init(rows) ==> r in rows;
      NoJoinBefore(Init(rows), tx);
    }
  }

  lemma JoinFour(rows: seq<Row>, f1: Row, t1: Row, f2: Row, t2: Row, tx: nat)
    requires TransfersOf(rows, tx) == [] && SiblingsOf(rows, tx) == []
    requires f1.event.FeeTransfer? && f2.event.FeeTransfer? && IsPayment(t1.event) && IsPayment(t2.event)
    requires f1.tx == t1.tx == f2.tx == t2.tx == tx
    ensures TransfersOf(rows + [f1] + [t1] + [f2] + [t2], tx) == [f1, f2]
    ensures SiblingsOf(rows + [f1] + [t1] + [f2] + [t2], tx) == [t1, t2]
  {
    hide TransfersOf, SiblingsOf;
    JoinOneMore(rows, f1, tx);
    JoinOneMore(rows + [f1], t1, tx);
    JoinOneMore(rows + [f1] + [t1], f2, tx);
    JoinOneMore(rows + [f1] + [t1] + [f2], t2, tx);
    assert [] + [f1] == [f1] && [f1] + [f2] == [f1, f2] && [] + [t1] == [t1] && [t1] + [t2] == [t1, t2];
  }

  lemma ChainJoin()
    ensures TransfersOf(CHAIN, 7) == [FEE_1, FEE_2] && SiblingsOf(CHAIN, 7) == [TOPPED_1, TOPPED_2]
  {
    NoJoinBefore(CHAIN[..6], 7);
    hide TransfersOf, SiblingsOf;
    JoinFour(CHAIN[..6], FEE_1, TOPPED_1, FEE_2, TOPPED_2, 7);
    assert CHAIN[..6] + [FEE_1] + [TOPPED_1] + [FEE_2] + [TOPPED_2] == CHAIN;
  }

  lemma OneBeforeTheSecond()
    ensures |Earlier([TOPPED_1, TOPPED_2], TOPPED_2)| == 1
  {
    EarlierIsPrefix([TOPPED_1, TOPPED_2], TOPPED_2, 1);
  }

  /** Of the second top-up: two siblings stand before it, the first one twice, and there are two transfers. */
  lemma SecondMissesCount()
    requires StoreInv(CHAIN, 1, Killed(9)) && ReadsAll(Killed(9), FILES) && GoodLog(CHAIN) && BlocksBy(CHAIN, 1, 2, 20)
    ensures !MeetsCount(CHAIN, Beyond(Killed(9), FILES, 1), TOPPED_2)
  {
    LeftoverTopUps();
    ChainJoin();
    OneBeforeTheSecond();
    hide StoreInv, ReadsAll, GoodLog, BlocksBy, Beyond, SiblingsOf, TransfersOf, Earlier;
  }

  /** Killed between two files of one append, with the top-ups written and their transfers not, a run over the registry's
      own log leaves the next one with four siblings to two transfers: both transfers fall to owner 1, and owner 2,
      charged, is not counted. */
  lemma PayerMissed()
    ensures Run(CFG, Moments(), Labels()) && Moments()[13].env.log == CHAIN
    ensures Sessions(CHAIN, 1, [EMPTY, Killed(9)], [Session(2, 1, 9)])
    ensures IsChargedIn(CHAIN, 20, 20, 2)
    ensures var events := FromRows(Feed(Killed(9), FILES, CHAIN, 1, 2, 1));
            2 !in PayersIn(Of(events, PAYMENTS), Of(events, ADMITS), 20, 20)
  {
    LogOfTheRun();
    KilledSessions(9);
    ChainIsGood();
    hide *;
    OnlyTheSecondChargesTwo();
    KilledIsResumable();
    SecondMissesCount();
    TwoIsNotCounted(Beyond(Killed(9), FILES, 1));
    PaidAfterCrash(CHAIN, 1, Killed(9), FILES, 2, 1, 20, 20, 2);
  }

  lemma KilledIsResumable()
    requires StoreInv(CHAIN, 1, Killed(9)) && ReadsAll(Killed(9), FILES) && GoodLog(CHAIN) && InRange(CHAIN, 1, 2)
    ensures Resumable(CHAIN, 1, Killed(9), FILES, 2, 1)
  {
    ResumePoint();
    hide StoreInv, ReadsAll, GoodLog, InRange, Killed, ResumeAt;
  }

  lemma OnlyTheSecondChargesTwo()
    ensures IsChargedIn(CHAIN, 20, 20, 2)
    ensures forall m :: ChargedAt(CHAIN, m, 20, 20, 2) ==> m == 9
  {
    BilledOwners();
    assert ChargedAt(CHAIN, 9, 20, 20, 2);
  }

  lemma TwoIsNotCounted(extra: seq<Row>)
    requires !MeetsCount(CHAIN, extra, TOPPED_2) && forall m :: ChargedAt(CHAIN, m, 20, 20, 2) ==> m == 9
    ensures !IsCountedIn(CHAIN, extra, 20, 20, 2)
  {
    assert CHAIN[9] == TOPPED_2;
    hide MeetsCount, ChargedAt;
  }
}
