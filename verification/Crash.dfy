/** What a crash between appends does to the payments projected by the next completed run. */
module Crash {
  import opened Machine
  import opened Chain
  import opened History
  import opened EventStore
  import opened Projector
  import opened DailySeries
  import opened Payments
  import opened Attribution
  import opened Sync
  import opened Resume

  // ----- a sibling's place --------------------------------------------------

  /** The rows before this one in chain order. */
  function Earlier(rows: seq<Row>, s: Row): seq<Row> {
    if rows == [] then []
    else Earlier(Init(rows), s) + (if Precedes(Last(rows), s) then [Last(rows)] else [])
  }

  lemma {:induction false} EarlierCounts(rows: seq<Row>, s: Row, x: Row)
    ensures multiset(Earlier(rows, s))[x] == if Precedes(x, s) then multiset(rows)[x] else 0
    ensures |Earlier(rows, s)| <= |rows|
  {
    if rows != [] {
      EarlierCounts(Init(rows), s, x);
      InitCounts(rows);
      assert Last(rows) in rows;
    }
  }

  lemma {:induction false} EarlierIsPrefix(rows: seq<Row>, s: Row, i: nat)
    requires i <= |rows|
    requires forall j :: 0 <= j < |rows| ==> (Precedes(rows[j], s) <==> j < i)
    ensures |Earlier(rows, s)| == i
  {
    hide Precedes;
    if rows != [] {
      EarlierIsPrefix(Init(rows), s, if i < |rows| then i else i - 1);
    }
  }

  lemma {:induction false} FirstIndex(rows: seq<Row>, s: Row) returns (i: nat)
    requires s in rows
    ensures i < |rows| && rows[i] == s && s !in rows[..i]
  {
    if s in Init(rows) {
      i := FirstIndex(Init(rows), s);
      assert rows[..i] == Init(rows)[..i];
    } else {
      i := |rows| - 1;
    }
  }

  /** In ordered rows the first copy of a row stands just behind those before it. */
  lemma FirstCopy(rows: seq<Row>, s: Row, n: nat)
    requires InOrder(rows) && Keyed(rows) && s in rows && n <= |rows|
    ensures s in rows[..n] <==> |Earlier(rows, s)| < n
  {
    var i := FirstIndex(rows, s);
    forall j | 0 <= j < |rows|
      ensures Precedes(rows[j], s) <==> j < i
    {
      if j < i {
        assert rows[j] in rows && rows[j] in rows[..i] && NotAfter(rows[j], rows[i]);
      } else if j > i {
        assert NotAfter(rows[i], rows[j]);
      }
    }
    hide InOrder, Keyed, Earlier, Precedes;
    EarlierIsPrefix(rows, s, i);
    if i < n {
      assert rows[..n][i] == s;
    } else {
      assert rows[..n] == rows[..i][..n];
    }
  }

  /** Of rows none of which is past s, those before it are all but its copies. */
  lemma {:induction false} AllButCopies(rows: seq<Row>, s: Row)
    requires forall x :: x in rows ==> x == s || Precedes(x, s)
    ensures |Earlier(rows, s)| == |rows| - multiset(rows)[s]
  {
    if rows != [] {
      assert Last(rows) in rows && forall x :: x in Init(rows) ==> x in rows;
      AllButCopies(Init(rows), s);
      InitCounts(rows);
    }
  }

  lemma {:induction false} EarlierThanLater(rows: seq<Row>, s: Row, later: Row)
    requires s == later || Precedes(s, later)
    ensures |Earlier(rows, s)| <= |Earlier(rows, later)|
  {
    if rows != [] {
      EarlierThanLater(Init(rows), s, later);
    }
  }

  lemma {:induction false} SiblingsInOrder(rows: seq<Row>, tx: nat)
    requires InOrder(rows)
    ensures InOrder(SiblingsOf(rows, tx))
  {
    if rows != [] {
      SiblingsInOrder(Init(rows), tx);
      forall s | s in SiblingsOf(Init(rows), tx)
        ensures NotAfter(s, Last(rows))
      {
        JoinMembers(Init(rows), tx, s);
      }
    }
  }

  /** A sibling is joined exactly when fewer siblings stand before it than there are transfers. */
  lemma JoinedByPlace(rows: seq<Row>, s: Row)
    requires InOrder(rows) && Keyed(rows) && s in rows && IsPayment(s.event)
    ensures Joined(rows, s) <==> |Earlier(SiblingsOf(rows, s.tx), s)| < |TransfersOf(rows, s.tx)|
  {
    var siblings := SiblingsOf(rows, s.tx);
    SiblingsInOrder(rows, s.tx);
    forall x
      ensures x in siblings <==> x in rows && IsPayment(x.event) && x.tx == s.tx
    {
      JoinMembers(rows, s.tx, x);
    }
    assert Keyed(siblings);
    hide InOrder, Keyed, SiblingsOf, TransfersOf, Earlier;
    FirstCopy(siblings, s, Min(|TransfersOf(rows, s.tx)|, |siblings|));
  }

  // ----- counting what a completed run feeds --------------------------------

  lemma {:induction false} TransferCounts(rows: seq<Row>, tx: nat, x: Row)
    ensures multiset(TransfersOf(rows, tx))[x] == if x.event.FeeTransfer? && x.tx == tx then multiset(rows)[x] else 0
  {
    if rows != [] {
      TransferCounts(Init(rows), tx, x);
      InitCounts(rows);
      assert Last(rows) in rows;
    }
  }

  lemma {:induction false} SiblingCounts(rows: seq<Row>, tx: nat, x: Row)
    ensures multiset(SiblingsOf(rows, tx))[x] == if IsPayment(x.event) && x.tx == tx then multiset(rows)[x] else 0
  {
    if rows != [] {
      SiblingCounts(Init(rows), tx, x);
      InitCounts(rows);
      assert Last(rows) in rows;
    }
  }

  lemma JoinCounts(rows: seq<Row>, tx: nat, x: Row)
    ensures multiset(TransfersOf(rows, tx))[x] == if x.event.FeeTransfer? && x.tx == tx then multiset(rows)[x] else 0
    ensures multiset(SiblingsOf(rows, tx))[x] == if IsPayment(x.event) && x.tx == tx then multiset(rows)[x] else 0
  {
    TransferCounts(rows, tx, x);
    SiblingCounts(rows, tx, x);
  }

  /** The chain lies between genesis and the block this run goes up to. */
  ghost predicate InRange(chain: seq<Row>, genesis: nat, toBlock: nat) {
    forall r :: r in chain ==> genesis <= r.block <= toBlock
  }

  ghost predicate Resumable(chain: seq<Row>, genesis: nat, d: Disk, order: seq<EventName>, toBlock: nat, size: nat) {
    && GoodLog(chain) && InRange(chain, genesis, toBlock) && size > 0
    && StoreInv(chain, genesis, d) && genesis <= ResumeAt(d, genesis) && ReadsAll(d, order)
  }

  /** Every row is fed once for the chain, and once more if it was left over. */
  lemma FedCounts(chain: seq<Row>, genesis: nat, d: Disk, order: seq<EventName>, toBlock: nat, size: nat, x: Row)
    requires Resumable(chain, genesis, d, order, toBlock, size)
    ensures multiset(Feed(d, order, chain, genesis, toBlock, size))[x] ==
            multiset(chain)[x] + multiset(Beyond(d, order, genesis))[x]
    ensures multiset(chain)[x] <= 1 && multiset(Beyond(d, order, genesis))[x] <= multiset(chain)[x]
  {
    hide Paired, Authorised, AdmittedOnce, ReadsAll, Feed, Beyond;
    OrderedIsStrict(chain);
    StrictCounts(chain, x);
    RangeCovers(chain, genesis, toBlock, x.ts);
    LeftoverCounts(chain, genesis, d, order, toBlock, size, x.ts, x);
  }

  lemma RangeCovers(chain: seq<Row>, genesis: nat, toBlock: nat, asOf: nat)
    requires InRange(chain, genesis, toBlock)
    ensures BlocksBy(chain, genesis, toBlock, asOf)
  {
  }

  /** The join of a completed run holds the chain's transfers and siblings, and the leftover ones again. */
  lemma FedJoinAt(chain: seq<Row>, genesis: nat, d: Disk, order: seq<EventName>, toBlock: nat, size: nat, tx: nat, x: Row)
    requires Resumable(chain, genesis, d, order, toBlock, size)
    ensures var fed, extra := Of(FromRows(Feed(d, order, chain, genesis, toBlock, size)), PAYMENTS),
                              Beyond(d, order, genesis);
            && multiset(TransfersOf(fed, tx))[x] == multiset(TransfersOf(chain, tx))[x] + multiset(TransfersOf(extra, tx))[x]
            && multiset(SiblingsOf(fed, tx))[x] == multiset(SiblingsOf(chain, tx))[x] + multiset(SiblingsOf(extra, tx))[x]
  {
    var feed, extra := Feed(d, order, chain, genesis, toBlock, size), Beyond(d, order, genesis);
    hide Resumable, Feed, Of, FromRows, TransfersOf, SiblingsOf, Beyond;
    FedCounts(chain, genesis, d, order, toBlock, size, x);
    MergedPaymentCounts(feed, x);
    JoinCounts(Of(FromRows(feed), PAYMENTS), tx, x);
    JoinCounts(chain, tx, x);
    JoinCounts(extra, tx, x);
  }

  lemma MergedPaymentCounts(feed: seq<Row>, x: Row)
    ensures multiset(Of(FromRows(feed), PAYMENTS))[x] ==
            if x.event.FeeTransfer? || IsPayment(x.event) then multiset(feed)[x] else 0
  {
    assert DistinctNames(PAYMENTS);
    AdmitNames(x);
    GatherCounts(feed, PAYMENTS, x);
    SortCounts(Gather(FromRows(feed), PAYMENTS));
  }

  lemma FedSameRows(chain: seq<Row>, genesis: nat, d: Disk, order: seq<EventName>, toBlock: nat, size: nat)
    requires Resumable(chain, genesis, d, order, toBlock, size)
    ensures SameRows(chain, Feed(d, order, chain, genesis, toBlock, size))
  {
    var feed := Feed(d, order, chain, genesis, toBlock, size);
    hide Resumable, Feed, Beyond;
    forall x
      ensures x in chain <==> x in feed
    {
      FedCounts(chain, genesis, d, order, toBlock, size, x);
      assert x in feed <==> x in multiset(feed);
      assert x in chain <==> x in multiset(chain);
    }
  }

  /** Of a payment's transaction, in the chain and again among the leftovers: fewer siblings before it than transfers. */
  predicate MeetsCount(chain: seq<Row>, extra: seq<Row>, s: Row) {
    |Earlier(SiblingsOf(chain, s.tx), s)| + |Earlier(SiblingsOf(extra, s.tx), s)|
    < |TransfersOf(chain, s.tx)| + |TransfersOf(extra, s.tx)|
  }

  /** After any crashes, a payment is joined if and only if it meets the count. */
  lemma PairingAfterCrash(chain: seq<Row>, genesis: nat, d: Disk, order: seq<EventName>, toBlock: nat, size: nat, s: Row)
    requires Resumable(chain, genesis, d, order, toBlock, size) && s in chain && IsPayment(s.event)
    ensures Joined(Of(FromRows(Feed(d, order, chain, genesis, toBlock, size)), PAYMENTS), s) <==>
            MeetsCount(chain, Beyond(d, order, genesis), s)
  {
    var feed, extra := Feed(d, order, chain, genesis, toBlock, size), Beyond(d, order, genesis);
    var fed := Of(FromRows(feed), PAYMENTS);
    assert GoodLog(chain);
    hide Resumable, GoodLog, Feed, Of, FromRows, TransfersOf, SiblingsOf, Beyond, InOrder, Keyed, Joined, Earlier,
         StrictlyInOrder;
    forall x
      ensures multiset(TransfersOf(fed, s.tx))[x] ==
              multiset(TransfersOf(chain, s.tx))[x] + multiset(TransfersOf(extra, s.tx))[x]
      ensures multiset(SiblingsOf(fed, s.tx))[x] ==
              multiset(SiblingsOf(chain, s.tx))[x] + multiset(SiblingsOf(extra, s.tx))[x]
    {
      FedJoinAt(chain, genesis, d, order, toBlock, size, s.tx, x);
    }
    FedSameRows(chain, genesis, d, order, toBlock, size);
    FedOrdered(chain, feed);
    OfMembers(feed, PAYMENTS, s);
    AdmitNames(s);
    JoinedByPlace(fed, s);
    JoinSizes(TransfersOf(fed, s.tx), TransfersOf(chain, s.tx), TransfersOf(extra, s.tx));
    EarlierSizes(SiblingsOf(fed, s.tx), SiblingsOf(chain, s.tx), SiblingsOf(extra, s.tx), s);
  }

  lemma EarlierSizes(all: seq<Row>, a: seq<Row>, b: seq<Row>, s: Row)
    requires forall x :: multiset(all)[x] == multiset(a)[x] + multiset(b)[x]
    ensures |Earlier(all, s)| == |Earlier(a, s)| + |Earlier(b, s)|
  {
    hide Earlier;
    forall x
      ensures multiset(Earlier(all, s))[x] == multiset(Earlier(a, s))[x] + multiset(Earlier(b, s))[x]
    {
      EarlierCounts(all, s, x);
      EarlierCounts(a, s, x);
      EarlierCounts(b, s, x);
    }
    JoinSizes(Earlier(all, s), Earlier(a, s), Earlier(b, s));
  }

  lemma JoinSizes(all: seq<Row>, a: seq<Row>, b: seq<Row>)
    requires forall x :: multiset(all)[x] == multiset(a)[x] + multiset(b)[x]
    ensures |all| == |a| + |b|
  {
    assert multiset(all) == multiset(a) + multiset(b);
    assert |all| == |multiset(all)| && |a| == |multiset(a)| && |b| == |multiset(b)|;
  }

  lemma FedOrdered(chain: seq<Row>, feed: seq<Row>)
    requires GoodLog(chain) && SameRows(chain, feed)
    ensures InOrder(Of(FromRows(feed), PAYMENTS)) && Keyed(Of(FromRows(feed), PAYMENTS))
  {
    OrderedIsStrict(chain);
    SortInOrder(Gather(FromRows(feed), PAYMENTS));
    KeyedByTheChain(chain, feed, PAYMENTS);
  }

  // ----- the counted owners -------------------------------------------------

  /** The owner was charged in the window by a payment that meets the count. */
  ghost predicate IsCountedIn(chain: seq<Row>, extra: seq<Row>, lo: int, hi: nat, owner: Addr) {
    exists m :: 0 <= m < |chain| && ChargedAt(chain, m, lo, hi, owner) && MeetsCount(chain, extra, chain[m])
  }

  /** After any crashes, an owner is counted if and only if a payment charged to it in the window meets the count. */
  lemma PaidAfterCrash(chain: seq<Row>, genesis: nat, d: Disk, order: seq<EventName>, toBlock: nat, size: nat,
                       lo: int, hi: nat, owner: Addr)
    requires Resumable(chain, genesis, d, order, toBlock, size)
    ensures var events := FromRows(Feed(d, order, chain, genesis, toBlock, size));
            owner in PayersIn(Of(events, PAYMENTS), Of(events, ADMITS), lo, hi) <==>
            IsCountedIn(chain, Beyond(d, order, genesis), lo, hi, owner)
  {
    var feed := Feed(d, order, chain, genesis, toBlock, size);
    var fed := Of(FromRows(feed), PAYMENTS);
    FedSameRows(chain, genesis, d, order, toBlock, size);
    assert GoodLog(chain);
    hide Resumable, GoodLog, Feed, Of, FromRows, Beyond, PayersIn, ChargedAt, Joined, MeetsCount, SameRows;
    PayersAreTheJoined(chain, feed, lo, hi, owner);
    forall m: nat | m < |chain| && ChargedAt(chain, m, lo, hi, owner)
      ensures Joined(fed, chain[m]) <==> MeetsCount(chain, Beyond(d, order, genesis), chain[m])
    {
      ChargedPlace(chain, m, lo, hi, owner);
      PairingAfterCrash(chain, genesis, d, order, toBlock, size, chain[m]);
    }
  }

  /** So the counted owners are those charged if and only if each owner charged in the window has a payment in it that
      meets the count. */
  lemma PaidIsRightExactlyWhen(chain: seq<Row>, genesis: nat, d: Disk, order: seq<EventName>, toBlock: nat, size: nat,
                               lo: int, hi: nat)
    requires Resumable(chain, genesis, d, order, toBlock, size)
    ensures var events := FromRows(Feed(d, order, chain, genesis, toBlock, size));
            (forall owner :: owner in PayersIn(Of(events, PAYMENTS), Of(events, ADMITS), lo, hi) <==>
                             IsChargedIn(chain, lo, hi, owner))
            <==> forall owner :: IsChargedIn(chain, lo, hi, owner) ==>
                                 IsCountedIn(chain, Beyond(d, order, genesis), lo, hi, owner)
  {
    var events := FromRows(Feed(d, order, chain, genesis, toBlock, size));
    hide Resumable, Feed, Of, FromRows, Beyond, PayersIn, IsChargedIn, IsCountedIn;
    forall owner
      ensures owner in PayersIn(Of(events, PAYMENTS), Of(events, ADMITS), lo, hi) <==>
              IsCountedIn(chain, Beyond(d, order, genesis), lo, hi, owner)
    {
      PaidAfterCrash(chain, genesis, d, order, toBlock, size, lo, hi, owner);
    }
  }

  // ----- when every payment is joined ---------------------------------------

  /** The leftover siblings of one transaction, its last one apart. */
  ghost function LeftoverSiblings(chain: seq<Row>, extra: seq<Row>, tx: nat): int
    requires SiblingsOf(chain, tx) != []
  {
    |SiblingsOf(extra, tx)| - if Last(SiblingsOf(chain, tx)) in extra then 1 else 0
  }

  /** No transaction is short of transfers. */
  ghost predicate NeverShort(chain: seq<Row>, extra: seq<Row>) {
    forall tx :: SiblingsOf(chain, tx) != [] ==> LeftoverSiblings(chain, extra, tx) <= |TransfersOf(extra, tx)|
  }

  /** The leftovers are rows of the chain, each at most once. */
  ghost predicate PartOf(extra: seq<Row>, chain: seq<Row>) {
    forall x :: x in extra ==> x in chain && multiset(extra)[x] == 1
  }

  lemma BeyondIsPartOf(chain: seq<Row>, genesis: nat, d: Disk, order: seq<EventName>, toBlock: nat, size: nat)
    requires Resumable(chain, genesis, d, order, toBlock, size)
    ensures PartOf(Beyond(d, order, genesis), chain)
  {
    var extra := Beyond(d, order, genesis);
    hide Resumable, Beyond, Feed;
    forall x | x in extra
      ensures x in chain && multiset(extra)[x] == 1
    {
      FedCounts(chain, genesis, d, order, toBlock, size, x);
      assert x in multiset(extra) && (x in chain <==> x in multiset(chain));
    }
  }

  lemma {:induction false} SiblingsStrict(rows: seq<Row>, tx: nat)
    requires StrictlyInOrder(rows)
    ensures StrictlyInOrder(SiblingsOf(rows, tx))
  {
    if rows != [] {
      SiblingsStrict(Init(rows), tx);
      forall s | s in SiblingsOf(Init(rows), tx)
        ensures Precedes(s, Last(rows))
      {
        JoinMembers(Init(rows), tx, s);
      }
    }
  }

  /** The last sibling of a transaction meets the count exactly when the transaction is not short of transfers, and then
      every sibling does. */
  lemma LastMeetsCount(chain: seq<Row>, extra: seq<Row>, s: Row)
    requires GoodLog(chain) && PartOf(extra, chain) && s in SiblingsOf(chain, s.tx)
    ensures var last := Last(SiblingsOf(chain, s.tx));
            && (MeetsCount(chain, extra, last) <==> LeftoverSiblings(chain, extra, s.tx) <= |TransfersOf(extra, s.tx)|)
            && (MeetsCount(chain, extra, last) ==> MeetsCount(chain, extra, s))
  {
    var chainS, extraS := SiblingsOf(chain, s.tx), SiblingsOf(extra, s.tx);
    var last := Last(chainS);
    assert last in chainS;
    SiblingsUpToLast(chain, extra, s.tx);
    TransfersMatchSiblings(chain, s.tx);
    hide GoodLog, PartOf, SiblingsOf, TransfersOf, Earlier;
    AllButCopies(chainS, last);
    AllButCopies(extraS, last);
    EarlierThanLater(chainS, s, last);
    EarlierThanLater(extraS, s, last);
  }

  lemma SiblingsUpToLast(chain: seq<Row>, extra: seq<Row>, tx: nat)
    requires GoodLog(chain) && PartOf(extra, chain) && SiblingsOf(chain, tx) != []
    ensures var chainS, extraS := SiblingsOf(chain, tx), SiblingsOf(extra, tx);
            && (forall x :: x in chainS ==> x == Last(chainS) || Precedes(x, Last(chainS)))
            && (forall x :: x in extraS ==> x == Last(chainS) || Precedes(x, Last(chainS)))
            && multiset(chainS)[Last(chainS)] == 1
            && multiset(extraS)[Last(chainS)] == if Last(chainS) in extra then 1 else 0
  {
    var chainS := SiblingsOf(chain, tx);
    assert Last(chainS) in chainS;
    OrderedIsStrict(chain);
    SiblingsStrict(chain, tx);
    JoinMembers(chain, tx, Last(chainS));
    ExtraSiblings(chain, extra, tx);
    OnceAmongSiblings(extra, tx, Last(chainS));
    hide GoodLog, PartOf, SiblingsOf;
    UpToLast(chainS);
  }

  lemma ExtraSiblings(chain: seq<Row>, extra: seq<Row>, tx: nat)
    requires PartOf(extra, chain)
    ensures forall x :: x in SiblingsOf(extra, tx) ==> x in SiblingsOf(chain, tx)
  {
    hide SiblingsOf;
    forall x | x in SiblingsOf(extra, tx)
      ensures x in SiblingsOf(chain, tx)
    {
      JoinMembers(extra, tx, x);
      JoinMembers(chain, tx, x);
    }
  }

  lemma OnceAmongSiblings(extra: seq<Row>, tx: nat, s: Row)
    requires IsPayment(s.event) && s.tx == tx && (s in extra ==> multiset(extra)[s] == 1)
    ensures multiset(SiblingsOf(extra, tx))[s] == if s in extra then 1 else 0
  {
    SiblingCounts(extra, tx, s);
    hide SiblingsOf;
    assert s in extra <==> s in multiset(extra);
  }

  lemma UpToLast(rows: seq<Row>)
    requires StrictlyInOrder(rows) && rows != []
    ensures forall x :: x in rows ==> x == Last(rows) || Precedes(x, Last(rows))
    ensures multiset(rows)[Last(rows)] == 1
  {
    StrictCounts(rows, Last(rows));
    assert Last(rows) in rows && Last(rows) in multiset(rows);
  }

  /** Every payment of the chain is joined if and only if no transaction is short of transfers: of its rows stored beyond
      the head, the siblings but the last are no more than the transfers. */
  lemma JoinedExactlyWhen(chain: seq<Row>, genesis: nat, d: Disk, order: seq<EventName>, toBlock: nat, size: nat)
    requires Resumable(chain, genesis, d, order, toBlock, size)
    ensures var fed := Of(FromRows(Feed(d, order, chain, genesis, toBlock, size)), PAYMENTS);
            (forall s :: s in chain && IsPayment(s.event) ==> Joined(fed, s))
            <==> NeverShort(chain, Beyond(d, order, genesis))
  {
    var extra := Beyond(d, order, genesis);
    var fed := Of(FromRows(Feed(d, order, chain, genesis, toBlock, size)), PAYMENTS);
    assert GoodLog(chain);
    BeyondIsPartOf(chain, genesis, d, order, toBlock, size);
    hide Resumable, GoodLog, PartOf, Feed, Of, FromRows, Beyond, Joined, LeftoverSiblings, MeetsCount;
    forall s | s in chain && IsPayment(s.event)
      ensures Joined(fed, s) <==> MeetsCount(chain, extra, s)
    {
      PairingAfterCrash(chain, genesis, d, order, toBlock, size, s);
    }
    if NeverShort(chain, extra) {
      forall s | s in chain && IsPayment(s.event)
        ensures Joined(fed, s)
      {
        JoinMembers(chain, s.tx, s);
        LastMeetsCount(chain, extra, s);
      }
    }
    if forall s :: s in chain && IsPayment(s.event) ==> Joined(fed, s) {
      forall tx | SiblingsOf(chain, tx) != []
        ensures LeftoverSiblings(chain, extra, tx) <= |TransfersOf(extra, tx)|
      {
        var last := Last(SiblingsOf(chain, tx));
        assert last in SiblingsOf(chain, tx);
        JoinMembers(chain, tx, last);
        LastMeetsCount(chain, extra, last);
      }
    }
  }
}
