/** Who paid: each fee transfer is matched to its sibling event by transaction and order, and billed to the owner. */
module Payments {
  import opened Machine
  import opened Chain
  import opened History
  import opened EventStore
  import opened Projector

  const PAYMENTS: seq<EventName> := [NameTransfer, NameToppedup, NameVolumeCreated]

  const PAID_IN_WINDOW_DAYS: seq<nat> := [1, 7, 30]

  datatype Payment = Payment(ts: nat, id: Bytes32, block: nat)

  // ----- the join -----------------------------------------------------------

  function TransfersOf(rows: seq<Row>, tx: nat): (transfers: seq<Row>)
    ensures forall k :: 0 <= k < |transfers| ==> transfers[k].event.FeeTransfer? && transfers[k].tx == tx
  {
    if rows == [] then []
    else TransfersOf(Init(rows), tx) + (if Last(rows).event.FeeTransfer? && Last(rows).tx == tx then [Last(rows)] else [])
  }

  function SiblingsOf(rows: seq<Row>, tx: nat): (siblings: seq<Row>)
    ensures forall k :: 0 <= k < |siblings| ==> IsPayment(siblings[k].event) && siblings[k].tx == tx
  {
    if rows == [] then []
    else SiblingsOf(Init(rows), tx) + (if IsPayment(Last(rows).event) && Last(rows).tx == tx then [Last(rows)] else [])
  }

  function VolumeOf(sibling: Row): Bytes32
    requires IsPayment(sibling.event)
  {
    sibling.event.id
  }

  /** Matched by order; whichever side is longer is cut. */
  function Zip(transfers: seq<Row>, siblings: seq<Row>): (payments: seq<Payment>)
    requires forall k :: 0 <= k < |siblings| ==> IsPayment(siblings[k].event)
    ensures |payments| == Min(|transfers|, |siblings|)
    ensures forall k :: 0 <= k < |payments| ==>
              payments[k] == Payment(transfers[k].ts, VolumeOf(siblings[k]), transfers[k].block)
  {
    seq(Min(|transfers|, |siblings|),
        k requires 0 <= k < Min(|transfers|, |siblings|) =>
          Payment(transfers[k].ts, VolumeOf(siblings[k]), transfers[k].block))
  }

  function PaymentsIn(rows: seq<Row>): set<Payment> {
    set r, p | r in rows && p in Zip(TransfersOf(rows, r.tx), SiblingsOf(rows, r.tx)) :: p
  }

  // ----- owners -------------------------------------------------------------

  /** The admissions of one volume, in chain order: (block, owner). */
  function Timeline(admits: seq<Row>, id: Bytes32): seq<(nat, Addr)> {
    if admits == [] then []
    else
      var r := Last(admits);
      Timeline(Init(admits), id) + (if IsAdmit(r.event) && r.event.id == id then [(r.block, r.event.owner)] else [])
  }

  /** The last owner whose block is not past the payment's. */
  function OwnerAt(timeline: seq<(nat, Addr)>, block: nat): Option<Addr> {
    if timeline == [] || timeline[0].0 > block then None
    else
      var later := OwnerAt(timeline[1..], block);
      if later.Some? then later else Some(timeline[0].1)
  }

  /** The distinct owners of the payments between two moments. */
  function PayersIn(rows: seq<Row>, admits: seq<Row>, lo: int, hi: nat): set<Addr> {
    set p | p in PaymentsIn(rows) && lo <= p.ts <= hi && OwnerAt(Timeline(admits, p.id), p.block).Some? ::
      OwnerAt(Timeline(admits, p.id), p.block).value
  }

  /** `_owner_timeline`. */
  method OwnerTimeline(events: EventLog) returns (timeline: map<Bytes32, seq<(nat, Addr)>>)
    requires Typed(events)
    ensures forall id :: (if id in timeline then timeline[id] else []) == Timeline(Of(events, ADMITS), id)
  {
    var rows := Of(events, ADMITS);
    hide Of, Typed;
    timeline := map[];
    for i := 0 to |rows|
      invariant forall id :: (if id in timeline then timeline[id] else []) == Timeline(rows[..i], id)
    {
      var r := rows[i];
      OfIsTyped(events, ADMITS, r);
      assert Init(rows[..i + 1]) == rows[..i] && Last(rows[..i + 1]) == r;
      var before := if r.event.id in timeline then timeline[r.event.id] else [];
      timeline := timeline[r.event.id := before + [(r.block, r.event.owner)]];
    }
    assert rows[..|rows|] == rows;
  }

  /** `owner_at`: the scan that stops at the first admission past the block. */
  method FindOwner(timeline: seq<(nat, Addr)>, block: nat) returns (owner: Option<Addr>)
    ensures owner == OwnerAt(timeline, block)
  {
    owner := None;
    var i := 0;
    while i < |timeline|
      invariant i <= |timeline|
      invariant OwnerAt(timeline, block) ==
                if OwnerAt(timeline[i..], block).Some? then OwnerAt(timeline[i..], block) else owner
    {
      if timeline[i].0 > block {
        return;
      }
      owner := Some(timeline[i].1);
      assert timeline[i..][1..] == timeline[i + 1..];
      i := i + 1;
    }
  }

  function Bucket(buckets: map<nat, seq<Row>>, tx: nat): seq<Row> {
    if tx in buckets then buckets[tx] else []
  }

  /** The buckets hold exactly each transaction's transfers and siblings among the rows. */
  ghost predicate Split(transfers: map<nat, seq<Row>>, siblings: map<nat, seq<Row>>, rows: seq<Row>) {
    && (forall tx :: Bucket(transfers, tx) == TransfersOf(rows, tx) && Bucket(siblings, tx) == SiblingsOf(rows, tx))
    && (forall tx :: tx in transfers ==> exists r :: r in rows && r.tx == tx)
  }

  lemma JoinOneMore(rows: seq<Row>, r: Row, tx: nat)
    ensures TransfersOf(rows + [r], tx) ==
            if r.event.FeeTransfer? && r.tx == tx then TransfersOf(rows, tx) + [r] else TransfersOf(rows, tx)
    ensures SiblingsOf(rows + [r], tx) ==
            if IsPayment(r.event) && r.tx == tx then SiblingsOf(rows, tx) + [r] else SiblingsOf(rows, tx)
  {
    assert Init(rows + [r]) == rows && Last(rows + [r]) == r;
  }

  lemma SplitOneMore(transfers: map<nat, seq<Row>>, siblings: map<nat, seq<Row>>, rows: seq<Row>, r: Row)
    requires Split(transfers, siblings, rows) && (r.event.FeeTransfer? || IsPayment(r.event))
    ensures if r.event.FeeTransfer? then Split(transfers[r.tx := Bucket(transfers, r.tx) + [r]], siblings, rows + [r])
            else Split(transfers, siblings[r.tx := Bucket(siblings, r.tx) + [r]], rows + [r])
  {
    hide TransfersOf, SiblingsOf;
    assert r in rows + [r] && forall x :: x in rows ==> x in rows + [r];
    forall tx
      ensures Bucket(if r.event.FeeTransfer? then transfers[r.tx := Bucket(transfers, r.tx) + [r]] else transfers, tx)
              == TransfersOf(rows + [r], tx)
      ensures Bucket(if r.event.FeeTransfer? then siblings else siblings[r.tx := Bucket(siblings, r.tx) + [r]], tx)
              == SiblingsOf(rows + [r], tx)
    {
      JoinOneMore(rows, r, tx);
      assert Bucket(transfers, tx) == TransfersOf(rows, tx) && Bucket(siblings, tx) == SiblingsOf(rows, tx);
    }
  }

  /** The two buckets of every transaction, filled in one pass. */
  method SplitByTx(rows: seq<Row>) returns (transfers: map<nat, seq<Row>>, siblings: map<nat, seq<Row>>)
    requires forall r :: r in rows ==> r.event.FeeTransfer? || IsPayment(r.event)
    ensures Split(transfers, siblings, rows)
  {
    transfers, siblings := map[], map[];
    assert Split(transfers, siblings, rows[..0]);
    hide Split;
    for i := 0 to |rows|
      invariant Split(transfers, siblings, rows[..i])
    {
      var r := rows[i];
      assert r in rows && rows[..i + 1] == rows[..i] + [r];
      SplitOneMore(transfers, siblings, rows[..i], r);
      if r.event.FeeTransfer? {
        transfers := transfers[r.tx := Bucket(transfers, r.tx) + [r]];
      } else {
        siblings := siblings[r.tx := Bucket(siblings, r.tx) + [r]];
      }
    }
    assert rows[..|rows|] == rows;
  }

  /** Every transaction's transfers zipped with its siblings, transaction by transaction. */
  method JoinPayments(rows: seq<Row>) returns (payments: seq<Payment>)
    requires forall r :: r in rows ==> r.event.FeeTransfer? || IsPayment(r.event)
    ensures forall p :: p in payments <==> p in PaymentsIn(rows)
  {
    var transfers, siblings := SplitByTx(rows);
    payments := [];
    var pending := transfers.Keys;
    while pending != {}
      invariant pending <= transfers.Keys
      invariant forall p :: p in payments <==>
                  exists tx :: tx in transfers.Keys - pending && p in Zip(TransfersOf(rows, tx), SiblingsOf(rows, tx))
    {
      var tx :| tx in pending;
      assert Bucket(transfers, tx) == TransfersOf(rows, tx) && Bucket(siblings, tx) == SiblingsOf(rows, tx);
      var joined := Zip(Bucket(transfers, tx), Bucket(siblings, tx));
      pending := pending - {tx};
      payments := payments + joined;
    }
    forall p
      ensures p in payments <==> p in PaymentsIn(rows)
    {
      if p in PaymentsIn(rows) {
        var r :| r in rows && p in Zip(TransfersOf(rows, r.tx), SiblingsOf(rows, r.tx));
        assert Bucket(transfers, r.tx) == TransfersOf(rows, r.tx);
      }
    }
  }

  function EntriesOf(timeline: map<Bytes32, seq<(nat, Addr)>>, id: Bytes32): seq<(nat, Addr)> {
    if id in timeline then timeline[id] else []
  }

  function ListedPayers(payments: seq<Payment>, timeline: map<Bytes32, seq<(nat, Addr)>>, lo: int, hi: nat): set<Addr> {
    set p | p in payments && lo <= p.ts <= hi && OwnerAt(EntriesOf(timeline, p.id), p.block).Some? ::
      OwnerAt(EntriesOf(timeline, p.id), p.block).value
  }

  lemma SamePayers(rows: seq<Row>, admits: seq<Row>, payments: seq<Payment>,
                   timeline: map<Bytes32, seq<(nat, Addr)>>, lo: int, hi: nat)
    requires forall p :: p in payments <==> p in PaymentsIn(rows)
    requires forall id :: (if id in timeline then timeline[id] else []) == Timeline(admits, id)
    ensures ListedPayers(payments, timeline, lo, hi) == PayersIn(rows, admits, lo, hi)
  {
    hide PaymentsIn, Timeline, OwnerAt;
    assert forall id :: EntriesOf(timeline, id) == Timeline(admits, id);
  }

  method OwnersBetween(payments: seq<Payment>, timeline: map<Bytes32, seq<(nat, Addr)>>, lo: int, hi: nat)
    returns (owners: set<Addr>)
    ensures owners == ListedPayers(payments, timeline, lo, hi)
  {
    owners := {};
    for i := 0 to |payments|
      invariant owners == ListedPayers(payments[..i], timeline, lo, hi)
    {
      var p := payments[i];
      assert payments[..i + 1] == payments[..i] + [p];
      if lo <= p.ts <= hi {
        var owner := FindOwner(EntriesOf(timeline, p.id), p.block);
        if owner.Some? {
          owners := owners + {owner.value};
        }
      }
    }
    assert payments[..|payments|] == payments;
  }

  lemma PaymentRowsAreTyped(events: EventLog)
    requires Typed(events)
    ensures forall r :: r in Of(events, PAYMENTS) ==> r.event.FeeTransfer? || IsPayment(r.event)
  {
    forall r | r in Of(events, PAYMENTS)
      ensures r.event.FeeTransfer? || IsPayment(r.event)
    {
      OfIsTyped(events, PAYMENTS, r);
    }
  }

  /** One count for each window of days ending at `asOf`: of the distinct owners who paid in it. */
  ghost predicate CountsPayers(events: EventLog, asOf: nat, windows: seq<nat>, counts: seq<nat>) {
    && |counts| == |windows|
    && forall i :: 0 <= i < |windows| ==>
         counts[i] == |PayersIn(Of(events, PAYMENTS), Of(events, ADMITS), asOf - windows[i] * ONE_DAY, asOf)|
  }

  /** `paid_in_window`: for each window of days ending at `asOf`, the number of distinct owners who paid in it. */
  method PaidInWindow(events: EventLog, asOf: nat, windows: seq<nat>) returns (counts: seq<nat>)
    requires Typed(events)
    ensures CountsPayers(events, asOf, windows, counts)
  {
    hide Of, Typed, PaymentsIn, PayersIn, Timeline, ListedPayers, OwnerAt;
    PaymentRowsAreTyped(events);
    var rows := Of(events, PAYMENTS);
    var timeline := OwnerTimeline(events);
    var payments := JoinPayments(rows);
    counts := CountPayers(rows, Of(events, ADMITS), payments, timeline, asOf, windows);
  }

  method CountPayers(ghost rows: seq<Row>, ghost admits: seq<Row>, payments: seq<Payment>,
                     timeline: map<Bytes32, seq<(nat, Addr)>>, asOf: nat, windows: seq<nat>) returns (counts: seq<nat>)
    requires forall p :: p in payments <==> p in PaymentsIn(rows)
    requires forall id :: (if id in timeline then timeline[id] else []) == Timeline(admits, id)
    ensures |counts| == |windows|
    ensures forall i :: 0 <= i < |windows| ==>
              counts[i] == |PayersIn(rows, admits, asOf - windows[i] * ONE_DAY, asOf)|
  {
    hide PaymentsIn, PayersIn, Timeline, ListedPayers;
    counts := [];
    for i := 0 to |windows|
      invariant |counts| == i
      invariant forall k :: 0 <= k < i ==> counts[k] == |PayersIn(rows, admits, asOf - windows[k] * ONE_DAY, asOf)|
    {
      var owners := OwnersBetween(payments, timeline, asOf - windows[i] * ONE_DAY, asOf);
      SamePayers(rows, admits, payments, timeline, asOf - windows[i] * ONE_DAY, asOf);
      counts := counts + [|owners|];
    }
  }
}
