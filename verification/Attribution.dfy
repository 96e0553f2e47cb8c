/** The paid-in-window count against the chain: it bills exactly the owners the registry charged. */
module Attribution {
  import opened Machine
  import opened Chain
  import opened RegistrySpec
  import opened History
  import opened Invariants
  import opened Runs
  import opened EventStore
  import opened Projector
  import opened DailySeries
  import opened Payments

  // ----- resolving a payment's owner ----------------------------------------

  lemma {:induction false} TimelineEntries(admits: seq<Row>, id: Bytes32, entry: (nat, Addr))
    ensures entry in Timeline(admits, id) <==>
            exists r :: r in admits && IsAdmit(r.event) && r.event.id == id && entry == (r.block, r.event.owner)
  {
    if admits != [] {
      TimelineEntries(Init(admits), id, entry);
      assert admits == Init(admits) + [Last(admits)];
    }
  }

  lemma {:induction false} UniformOwner(timeline: seq<(nat, Addr)>, block: nat, entry: (nat, Addr))
    requires timeline != [] && entry.0 <= block
    requires forall e :: e in timeline ==> e == entry
    ensures OwnerAt(timeline, block) == Some(entry.1)
  {
    assert timeline[0] in timeline;
    if |timeline| > 1 {
      assert forall e :: e in timeline[1..] ==> e in timeline;
      UniformOwner(timeline[1..], block, entry);
    }
  }

  lemma AdmitNames(r: Row)
    ensures IsAdmit(r.event) <==> NameOf(r.event) in ADMITS
    ensures r.event.FeeTransfer? || IsPayment(r.event) <==> NameOf(r.event) in PAYMENTS
  {
    assert ADMITS[0] == NameVolumeCreated && ADMITS[1] == NameVolumeImported;
    assert PAYMENTS[0] == NameTransfer && PAYMENTS[1] == NameToppedup && PAYMENTS[2] == NameVolumeCreated;
  }

  /** The row that admitted a payment's volume: at or before the payment. */
  lemma AdmittedBy(log: seq<Row>, k: nat) returns (m: nat)
    requires Ordered(log) && Authorised(log) && k < |log| && IsPayment(log[k].event)
    ensures m <= k && IsAdmit(log[m].event) && log[m].event.id == VolumeOf(log[k])
    ensures BilledIn(log[..k], log[k].event) == Some(log[m].event.owner)
    ensures log[m].block <= log[k].block
  {
    if log[k].event.VolumeCreated? {
      m := k;
    } else {
      OwnerInSome(log[..k], log[k].event.id);
      var j :| 0 <= j < k && IsAdmit(log[..k][j].event) && log[..k][j].event.id == log[k].event.id
               && log[..k][j].event.owner == OwnerIn(log[..k], log[k].event.id).value;
      m := j;
      assert Precedes(log[m], log[k]);
    }
  }

  /** Resolved at the payment's block, the owner is the one the contract billed. */
  lemma OwnerResolves(log: seq<Row>, rows: seq<Row>, k: nat)
    requires Ordered(log) && Authorised(log) && AdmittedOnce(log) && SameRows(log, rows)
    requires k < |log| && IsPayment(log[k].event)
    ensures OwnerAt(Timeline(Of(FromRows(rows), ADMITS), VolumeOf(log[k])), log[k].block) ==
            BilledIn(log[..k], log[k].event)
  {
    hide Of, FromRows, Timeline, OwnerAt, Ordered, Authorised;
    var id := VolumeOf(log[k]);
    var admits := Of(FromRows(rows), ADMITS);
    var timeline := Timeline(admits, id);
    var m := AdmittedBy(log, k);
    var entry := (log[m].block, log[m].event.owner);
    OfMembers(rows, ADMITS, log[m]);
    AdmitNames(log[m]);
    TimelineEntries(admits, id, entry);
    forall e | e in timeline
      ensures e == entry
    {
      TimelineEntries(admits, id, e);
      var r :| r in admits && IsAdmit(r.event) && r.event.id == id && e == (r.block, r.event.owner);
      OfMembers(rows, ADMITS, r);
      var j :| 0 <= j < |log| && log[j] == r;
      assert j == m;
    }
    UniformOwner(timeline, log[k].block, entry);
  }

  // ----- the owners charged in a window -------------------------------------

  ghost predicate ChargedAt(log: seq<Row>, k: int, lo: int, hi: nat, owner: Addr) {
    && 0 <= k < |log| && IsPayment(log[k].event) && lo <= log[k].ts <= hi
    && BilledIn(log[..k], log[k].event) == Some(owner)
  }

  ghost predicate IsChargedIn(log: seq<Row>, lo: int, hi: nat, owner: Addr) {
    exists k :: ChargedAt(log, k, lo, hi, owner)
  }

  lemma {:induction false} JoinMembers(rows: seq<Row>, tx: nat, x: Row)
    ensures x in TransfersOf(rows, tx) <==> x in rows && x.event.FeeTransfer? && x.tx == tx
    ensures x in SiblingsOf(rows, tx) <==> x in rows && IsPayment(x.event) && x.tx == tx
  {
    if rows != [] {
      var init, last := Init(rows), Last(rows);
      assert rows == init + [last];
      JoinMembers(init, tx, x);
      hide TransfersOf, SiblingsOf;
      JoinOneMore(init, last, tx);
    }
  }

  /** Rows of one transaction share its block and its timestamp. */
  lemma OneTxOneBlock(log: seq<Row>, a: Row, b: Row)
    requires Ordered(log) && a in log && b in log && a.tx == b.tx
    ensures a.block == b.block && a.ts == b.ts
  {
    var i :| 0 <= i < |log| && log[i] == a;
    var j :| 0 <= j < |log| && log[j] == b;
    assert i < j ==> Consistent(log[i], log[j]);
    assert j < i ==> Consistent(log[j], log[i]);
  }

  ghost predicate GoodLog(log: seq<Row>) {
    Ordered(log) && Paired(log) && Authorised(log) && AdmittedOnce(log)
  }

  /** However transfers and siblings are matched within a transaction, a joined payment has its sibling's moment and
      owner. */
  lemma JoinedPaymentIsItsSibling(log: seq<Row>, rows: seq<Row>, tx: nat, k: nat)
    returns (m: nat)
    requires GoodLog(log) && SameRows(log, rows)
    requires k < |Zip(TransfersOf(Of(FromRows(rows), PAYMENTS), tx), SiblingsOf(Of(FromRows(rows), PAYMENTS), tx))|
    ensures var fed := Of(FromRows(rows), PAYMENTS);
            var p := Zip(TransfersOf(fed, tx), SiblingsOf(fed, tx))[k];
            && m < |log| && log[m] == SiblingsOf(fed, tx)[k]
            && p.ts == log[m].ts && p.id == VolumeOf(log[m]) && p.block == log[m].block
            && OwnerAt(Timeline(Of(FromRows(rows), ADMITS), p.id), p.block) == BilledIn(log[..m], log[m].event)
            && BilledIn(log[..m], log[m].event).Some?
  {
    hide Of, FromRows, Timeline, OwnerAt, Ordered, AdmittedOnce, Paired;
    var fed := Of(FromRows(rows), PAYMENTS);
    var t, s := TransfersOf(fed, tx)[k], SiblingsOf(fed, tx)[k];
    assert t in TransfersOf(fed, tx) && s in SiblingsOf(fed, tx);
    JoinMembers(fed, tx, t);
    JoinMembers(fed, tx, s);
    OfMembers(rows, PAYMENTS, t);
    OfMembers(rows, PAYMENTS, s);
    OneTxOneBlock(log, t, s);
    var j :| 0 <= j < |log| && log[j] == s;
    m := j;
    OwnerResolves(log, rows, m);
  }

  // ----- which owners are counted -------------------------------------------

  /** Some transfer stands opposite the sibling, or opposite a copy of it. */
  predicate Joined(rows: seq<Row>, s: Row) {
    s in SiblingsOf(rows, s.tx)[..Min(|TransfersOf(rows, s.tx)|, |SiblingsOf(rows, s.tx)|)]
  }

  /** The owner was charged in the window by a payment that is joined. */
  ghost predicate IsJoinedIn(log: seq<Row>, fed: seq<Row>, lo: int, hi: nat, owner: Addr) {
    exists m :: 0 <= m < |log| && ChargedAt(log, m, lo, hi, owner) && Joined(fed, log[m])
  }

  lemma FoundPayerIsJoined(log: seq<Row>, rows: seq<Row>, lo: int, hi: nat, owner: Addr)
    requires GoodLog(log) && SameRows(log, rows)
    requires owner in PayersIn(Of(FromRows(rows), PAYMENTS), Of(FromRows(rows), ADMITS), lo, hi)
    ensures IsJoinedIn(log, Of(FromRows(rows), PAYMENTS), lo, hi, owner)
  {
    hide Of, FromRows, Timeline, OwnerAt, GoodLog, TransfersOf, SiblingsOf, BilledIn;
    var fed, admits := Of(FromRows(rows), PAYMENTS), Of(FromRows(rows), ADMITS);
    var p :| p in PaymentsIn(fed) && lo <= p.ts <= hi && OwnerAt(Timeline(admits, p.id), p.block) == Some(owner);
    var r :| r in fed && p in Zip(TransfersOf(fed, r.tx), SiblingsOf(fed, r.tx));
    var payments := Zip(TransfersOf(fed, r.tx), SiblingsOf(fed, r.tx));
    var k :| 0 <= k < |payments| && payments[k] == p;
    var m := JoinedPaymentIsItsSibling(log, rows, r.tx, k);
    assert ChargedAt(log, m, lo, hi, owner);
    assert log[m] == SiblingsOf(fed, r.tx)[..|payments|][k] && log[m].tx == r.tx;
  }

  /** Whatever copies the rows hold, no owner is counted who was not charged in the window. */
  lemma NoPayerInvented(log: seq<Row>, rows: seq<Row>, lo: int, hi: nat, owner: Addr)
    requires GoodLog(log) && SameRows(log, rows)
    requires owner in PayersIn(Of(FromRows(rows), PAYMENTS), Of(FromRows(rows), ADMITS), lo, hi)
    ensures IsChargedIn(log, lo, hi, owner)
  {
    hide Of, FromRows, PayersIn, GoodLog, ChargedAt, SameRows;
    FoundPayerIsJoined(log, rows, lo, hi, owner);
  }

  lemma JoinedPlace(rows: seq<Row>, s: Row) returns (k: nat)
    requires Joined(rows, s)
    ensures s in rows && k < |SiblingsOf(rows, s.tx)| && k < |TransfersOf(rows, s.tx)| && SiblingsOf(rows, s.tx)[k] == s
  {
    var siblings := SiblingsOf(rows, s.tx);
    var n := Min(|TransfersOf(rows, s.tx)|, |siblings|);
    hide TransfersOf, SiblingsOf;
    var j :| 0 <= j < n && siblings[..n][j] == s;
    k := j;
    assert siblings[k] in siblings;
    JoinMembers(rows, s.tx, s);
  }

  /** An owner charged by a joined payment is counted. */
  lemma JoinedPayerIsFound(log: seq<Row>, rows: seq<Row>, m: nat, lo: int, hi: nat, owner: Addr)
    requires GoodLog(log) && SameRows(log, rows) && ChargedAt(log, m, lo, hi, owner)
    requires Joined(Of(FromRows(rows), PAYMENTS), log[m])
    ensures owner in PayersIn(Of(FromRows(rows), PAYMENTS), Of(FromRows(rows), ADMITS), lo, hi)
  {
    hide Of, FromRows, Timeline, OwnerAt, GoodLog, TransfersOf, SiblingsOf, BilledIn, Joined, Zip, SameRows;
    var fed, admits := Of(FromRows(rows), PAYMENTS), Of(FromRows(rows), ADMITS);
    var tx := log[m].tx;
    var k := JoinedPlace(fed, log[m]);
    var j := JoinedPaymentIsItsSibling(log, rows, tx, k);
    SameRowSamePlace(log, j, m);
    var p := Zip(TransfersOf(fed, tx), SiblingsOf(fed, tx))[k];
    assert log[m] in fed && p in Zip(TransfersOf(fed, log[m].tx), SiblingsOf(fed, log[m].tx));
    assert p in PaymentsIn(fed);
    assert OwnerAt(Timeline(admits, p.id), p.block) == Some(owner);
  }

  lemma SameRowSamePlace(log: seq<Row>, i: nat, j: nat)
    requires GoodLog(log) && i < |log| && j < |log| && log[i] == log[j]
    ensures i == j
  {
    hide Paired, Authorised, AdmittedOnce;
  }

  /** Whatever copies the rows hold, an owner is counted if and only if a payment charged to it in the window is joined. */
  lemma PayersAreTheJoined(log: seq<Row>, rows: seq<Row>, lo: int, hi: nat, owner: Addr)
    requires GoodLog(log) && SameRows(log, rows)
    ensures owner in PayersIn(Of(FromRows(rows), PAYMENTS), Of(FromRows(rows), ADMITS), lo, hi)
            <==> IsJoinedIn(log, Of(FromRows(rows), PAYMENTS), lo, hi, owner)
  {
    hide Of, FromRows, PayersIn, GoodLog, Joined, ChargedAt, SameRows;
    var fed := Of(FromRows(rows), PAYMENTS);
    if owner in PayersIn(fed, Of(FromRows(rows), ADMITS), lo, hi) {
      FoundPayerIsJoined(log, rows, lo, hi, owner);
    }
    if IsJoinedIn(log, fed, lo, hi, owner) {
      var m :| 0 <= m < |log| && ChargedAt(log, m, lo, hi, owner) && Joined(fed, log[m]);
      JoinedPayerIsFound(log, rows, m, lo, hi, owner);
    }
  }

  lemma ChargedPlace(log: seq<Row>, m: int, lo: int, hi: nat, owner: Addr)
    requires ChargedAt(log, m, lo, hi, owner)
    ensures 0 <= m < |log| && IsPayment(log[m].event)
  {
  }

  // ----- rows fed once ------------------------------------------------------

  ghost predicate PairAt(log: seq<Row>, j: nat, transfer: Row, sibling: Row) {
    j + 1 < |log| && log[j] == transfer && log[j + 1] == sibling
  }

  ghost predicate Adjacent(log: seq<Row>, transfer: Row, sibling: Row) {
    exists j :: PairAt(log, j, transfer, sibling)
  }

  lemma Adjoin(log: seq<Row>, j: nat)
    requires Paired(log) && j + 1 < |log| && log[j].event.FeeTransfer?
    ensures Adjacent(log, log[j], log[j + 1])
  {
    assert PairAt(log, j, log[j], log[j + 1]);
  }

  /** In any prefix, a transaction's transfers and siblings pair off, but for a transfer still waiting at the end. */
  lemma {:induction false} PrefixPairs(log: seq<Row>, n: nat, tx: nat)
    requires Paired(log) && n <= |log|
    ensures var t, s := TransfersOf(log[..n], tx), SiblingsOf(log[..n], tx);
            && (if n > 0 && log[n - 1].event.FeeTransfer? && log[n - 1].tx == tx
                then |t| == |s| + 1 && Last(t) == log[n - 1] else |t| == |s|)
            && forall k :: 0 <= k < |s| ==> Adjacent(log, t[k], s[k])
  {
    hide Adjacent;
    if n > 0 {
      PrefixPairs(log, n - 1, tx);
      assert Init(log[..n]) == log[..n - 1] && Last(log[..n]) == log[n - 1];
      var r := log[n - 1];
      var t, s := TransfersOf(log[..n - 1], tx), SiblingsOf(log[..n - 1], tx);
      if IsPayment(r.event) && r.tx == tx {
        assert n - 1 > 0 && log[n - 2].event.FeeTransfer? && log[n - 2].tx == tx;
        Adjoin(log, n - 2);
      }
    }
  }

  /** In any transaction there are as many transfers as siblings, the k-th transfer stands right before the k-th
      sibling, and a top-up's amount is its transfer's value. */
  lemma TransfersMatchSiblings(log: seq<Row>, tx: nat)
    requires Paired(log)
    ensures var t, s := TransfersOf(log, tx), SiblingsOf(log, tx);
            && |t| == |s|
            && forall k :: 0 <= k < |s| ==>
                 Adjacent(log, t[k], s[k])
                 && (s[k].event.Toppedup? ==> s[k].event.amount == t[k].event.value)
  {
    assert log[..|log|] == log;
    PrefixPairs(log, |log|, tx);
    hide TransfersOf, SiblingsOf;
    var t, s := TransfersOf(log, tx), SiblingsOf(log, tx);
    forall k | 0 <= k < |s|
      ensures s[k].event.Toppedup? ==> s[k].event.amount == t[k].event.value
    {
      assert Adjacent(log, t[k], s[k]);
      var j: nat :| PairAt(log, j, t[k], s[k]);
      assert log[j + 1].event == s[k].event && log[j].event == t[k].event;
    }
  }

  lemma {:induction false} JoinReadsItsTypes(rows: seq<Row>, tx: nat)
    ensures TransfersOf(NamedIn(rows, NameSet(PAYMENTS)), tx) == TransfersOf(rows, tx)
    ensures SiblingsOf(NamedIn(rows, NameSet(PAYMENTS)), tx) == SiblingsOf(rows, tx)
  {
    if rows != [] {
      JoinReadsItsTypes(Init(rows), tx);
      AdmitNames(Last(rows));
      var named := NamedIn(rows, NameSet(PAYMENTS));
      if NameOf(Last(rows).event) in PAYMENTS {
        assert Init(named) == NamedIn(Init(rows), NameSet(PAYMENTS)) && Last(named) == Last(rows);
      } else {
        assert named == NamedIn(Init(rows), NameSet(PAYMENTS));
      }
    }
  }

  /** Fed once, in any order, the merged rows hold each transaction's transfers and siblings as the chain does. */
  lemma OnceFedJoins(log: seq<Row>, rows: seq<Row>, tx: nat)
    requires GoodLog(log) && multiset(rows) == multiset(log)
    ensures TransfersOf(Of(FromRows(rows), PAYMENTS), tx) == TransfersOf(log, tx)
    ensures SiblingsOf(Of(FromRows(rows), PAYMENTS), tx) == SiblingsOf(log, tx)
  {
    OrderedIsStrict(log);
    assert DistinctNames(PAYMENTS);
    OnceFedIsTheChain(log, rows, PAYMENTS);
    JoinReadsItsTypes(log, tx);
  }

  lemma OnceFedIsJoined(log: seq<Row>, rows: seq<Row>, s: Row)
    requires GoodLog(log) && multiset(rows) == multiset(log) && s in log && IsPayment(s.event)
    ensures Joined(Of(FromRows(rows), PAYMENTS), s)
  {
    OnceFedJoins(log, rows, s.tx);
    TransfersMatchSiblings(log, s.tx);
    JoinMembers(log, s.tx, s);
    hide Of, FromRows, TransfersOf, SiblingsOf, GoodLog;
    var siblings := SiblingsOf(log, s.tx);
    assert siblings[..|siblings|] == siblings;
  }

  /** After any run, rows fed once count exactly the owners the registry charged in the window. */
  lemma PaidInWindowIsCharged(cfg: Config, ws: seq<World>, ls: seq<Label>, i: nat, rows: seq<Row>, lo: int, hi: nat,
                              owner: Addr)
    requires Run(cfg, ws, ls) && i < |ws| && multiset(rows) == multiset(ws[i].env.log)
    ensures owner in PayersIn(Of(FromRows(rows), PAYMENTS), Of(FromRows(rows), ADMITS), lo, hi)
            <==> IsChargedIn(ws[i].env.log, lo, hi, owner)
  {
    hide StepOf, Run, Of, FromRows, PayersIn, RegInv, AuthReplay, VolumeReplay, NoAllowance;
    var log := ws[i].env.log;
    InvAlways(cfg, ws, ls, i);
    OnceFedCounts(log, rows, lo, hi, owner);
  }

  lemma OnceFedCounts(log: seq<Row>, rows: seq<Row>, lo: int, hi: nat, owner: Addr)
    requires GoodLog(log) && multiset(rows) == multiset(log)
    ensures owner in PayersIn(Of(FromRows(rows), PAYMENTS), Of(FromRows(rows), ADMITS), lo, hi)
            <==> IsChargedIn(log, lo, hi, owner)
  {
    SameCountsSameRows(log, rows);
    hide Of, FromRows, PayersIn, GoodLog, Joined, ChargedAt, SameRows;
    PayersAreTheJoined(log, rows, lo, hi, owner);
    forall m | ChargedAt(log, m, lo, hi, owner)
      ensures Joined(Of(FromRows(rows), PAYMENTS), log[m])
    {
      ChargedPlace(log, m, lo, hi, owner);
      OnceFedIsJoined(log, rows, log[m]);
    }
  }

  /** The owner a payment bills is the one the contract has on record for its volume. */
  lemma BilledOwnerIsOnRecord(cfg: Config, ws: seq<World>, ls: seq<Label>, i: nat, k: nat)
    requires Run(cfg, ws, ls) && i < |ws| && k < |ws[i].env.log| && IsPayment(ws[i].env.log[k].event)
    ensures BilledIn(ws[i].env.log[..k], ws[i].env.log[k].event) ==
            Some(VolumeAt(ws[i].reg, VolumeOf(ws[i].env.log[k])).owner)
  {
    hide StepOf, Run, RegInv, AuthReplay, NoAllowance, Paired, Bilateral, BilledIn, OwnerIn;
    InvAlways(cfg, ws, ls, i);
    var log := ws[i].env.log;
    var m := AdmittedBy(log, k);
    OwnerInSome(log, log[m].event.id);
    var j :| 0 <= j < |log| && IsAdmit(log[j].event) && log[j].event.id == log[m].event.id
             && log[j].event.owner == OwnerIn(log, log[m].event.id).value;
    assert j == m;
  }
}
