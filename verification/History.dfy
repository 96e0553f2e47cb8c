/** The captured log as the only source: what its rows say about accounts, volumes and charges. */
module History {
  import opened Chain

  function Init(log: seq<Row>): seq<Row>
    requires log != []
  {
    log[..|log| - 1]
  }

  function Last(log: seq<Row>): Row
    requires log != []
  {
    log[|log| - 1]
  }

  /** The payer an owner's latest designation names; the zero address if none does. */
  function DesignatedIn(log: seq<Row>, owner: Addr): Addr {
    if log == [] then ZERO_ADDRESS
    else if Last(log).event.PayerDesignated? && Last(log).event.owner == owner then Last(log).event.payer
    else DesignatedIn(Init(log), owner)
  }

  datatype Auth = Auth(payer: Addr, active: bool)

  function AuthIn(log: seq<Row>, owner: Addr): Auth {
    if log == [] then Auth(ZERO_ADDRESS, false)
    else match Last(log).event
      case AccountActivated(o, payer) => if o == owner then Auth(payer, true) else AuthIn(Init(log), owner)
      case AccountRevoked(o, payer, _) => if o == owner then Auth(payer, false) else AuthIn(Init(log), owner)
      case _ => AuthIn(Init(log), owner)
  }

  predicate IsAdmit(e: Event) {
    e.VolumeCreated? || e.VolumeImported?
  }

  /** The volumes admitted and not since retired, with the depth each was admitted at. */
  function VolumesIn(log: seq<Row>): map<Bytes32, nat> {
    if log == [] then map[]
    else
      var before := VolumesIn(Init(log));
      var e := Last(log).event;
      if IsAdmit(e) then before[e.id := e.depth]
      else if e.VolumeRetired? then before - {e.id}
      else before
  }

  /** The owners whose latest account event is an activation. */
  function OwnersIn(log: seq<Row>): set<Addr> {
    if log == [] then {}
    else
      var before := OwnersIn(Init(log));
      var e := Last(log).event;
      if e.AccountActivated? then before + {e.owner}
      else if e.AccountRevoked? then before - {e.owner}
      else before
  }

  datatype Option<+T> = None | Some(value: T)

  function OwnerIn(log: seq<Row>, id: Bytes32): Option<Addr> {
    if log == [] then None
    else if IsAdmit(Last(log).event) && Last(log).event.id == id then Some(Last(log).event.owner)
    else OwnerIn(Init(log), id)
  }

  /** How many volumes the log admits for one owner. */
  function AdmitsBy(log: seq<Row>, owner: Addr): nat {
    if log == [] then 0
    else AdmitsBy(Init(log), owner) + (if IsAdmit(Last(log).event) && Last(log).event.owner == owner then 1 else 0)
  }

  /** The two events that accompany a fee. */
  predicate IsPayment(e: Event) {
    e.Toppedup? || e.VolumeCreated?
  }

  predicate IsChargedTo(before: seq<Row>, owner: Addr, payer: Addr) {
    AuthIn(before, owner) == Auth(payer, true)
  }

  /** What one row charges `payer`, given the rows before it. */
  function RowCharge(before: seq<Row>, e: Event, payer: Addr): nat {
    match e
    case Toppedup(id, amount, _) =>
      if OwnerIn(before, id).Some? && IsChargedTo(before, OwnerIn(before, id).value, payer) then amount else 0
    case VolumeCreated(_, owner, _, _, _, _) =>
      if before != [] && Last(before).event.FeeTransfer? && IsChargedTo(before, owner, payer)
      then Last(before).event.value else 0
    case _ => 0
  }

  /** Everything the log says was charged to `payer`. */
  function Charged(log: seq<Row>, payer: Addr): nat {
    if log == [] then 0 else Charged(Init(log), payer) + RowCharge(Init(log), Last(log).event, payer)
  }

  /** The sum of the fee transfers. */
  function Fees(log: seq<Row>): nat {
    if log == [] then 0
    else Fees(Init(log)) + (if Last(log).event.FeeTransfer? then Last(log).event.value else 0)
  }

  predicate Precedes(a: Row, b: Row) {
    a.block < b.block || (a.block == b.block && a.logIndex < b.logIndex)
  }

  predicate Consistent(a: Row, b: Row) {
    && a.ts <= b.ts && a.tx <= b.tx
    && (a.block == b.block ==> a.ts == b.ts)
    && (a.tx == b.tx ==> a.block == b.block)
  }

  /** Chain order: positions strictly increase, timestamps and transactions never go back. */
  ghost predicate Ordered(log: seq<Row>) {
    forall i, j :: 0 <= i < j < |log| ==> Precedes(log[i], log[j]) && Consistent(log[i], log[j])
  }

  /** Every fee transfer is followed at once by its payment event, and every payment event has one. */
  ghost predicate Paired(log: seq<Row>) {
    && (forall k :: 0 <= k < |log| && log[k].event.FeeTransfer? ==>
          k + 1 < |log| && IsPayment(log[k + 1].event) && log[k + 1].tx == log[k].tx)
    && (forall k :: 0 <= k < |log| && IsPayment(log[k].event) ==>
          k > 0 && log[k - 1].event.FeeTransfer? && log[k - 1].tx == log[k].tx)
    && (forall k :: 0 < k < |log| && log[k].event.Toppedup? ==>
          log[k - 1].event.FeeTransfer? && log[k - 1].event.value == log[k].event.amount)
  }

  /** Every activation was by the payer the owner had designated at that moment. */
  ghost predicate Bilateral(log: seq<Row>) {
    forall k :: 0 <= k < |log| && log[k].event.AccountActivated? ==>
      && log[k].event.payer != ZERO_ADDRESS
      && DesignatedIn(log[..k], log[k].event.owner) == log[k].event.payer
  }

  /** Every revocation was by the owner or its confirmed payer, and names that payer. */
  ghost predicate RevokedBySides(log: seq<Row>) {
    forall k :: 0 <= k < |log| && log[k].event.AccountRevoked? ==>
      && log[k].event.payer == AuthIn(log[..k], log[k].event.owner).payer
      && (log[k].event.revoker == log[k].event.owner || log[k].event.revoker == log[k].event.payer)
  }

  /** The owner a payment bills, given the rows before it. */
  function BilledIn(before: seq<Row>, e: Event): Option<Addr>
    requires IsPayment(e)
  {
    if e.Toppedup? then OwnerIn(before, e.id) else Some(e.owner)
  }

  /** Every payment bills an owner whose account is active at that moment. */
  ghost predicate Authorised(log: seq<Row>) {
    forall k :: 0 <= k < |log| && IsPayment(log[k].event) ==>
      BilledIn(log[..k], log[k].event).Some? && AuthIn(log[..k], BilledIn(log[..k], log[k].event).value).active
  }

  /** A volume is admitted at most once. */
  ghost predicate AdmittedOnce(log: seq<Row>) {
    forall i, j :: 0 <= i < j < |log| && IsAdmit(log[i].event) && IsAdmit(log[j].event) ==>
      log[i].event.id != log[j].event.id
  }

  lemma {:induction false} OwnerInSome(log: seq<Row>, id: Bytes32)
    ensures OwnerIn(log, id).Some? ==>
              exists k :: 0 <= k < |log| && IsAdmit(log[k].event) && log[k].event.id == id
                          && log[k].event.owner == OwnerIn(log, id).value
    ensures OwnerIn(log, id).None? ==> forall k :: 0 <= k < |log| && IsAdmit(log[k].event) ==> log[k].event.id != id
  {
    if log != [] && !(IsAdmit(Last(log).event) && Last(log).event.id == id) {
      OwnerInSome(Init(log), id);
      if OwnerIn(log, id).Some? {
        var k :| 0 <= k < |Init(log)| && IsAdmit(Init(log)[k].event) && Init(log)[k].event.id == id
                 && Init(log)[k].event.owner == OwnerIn(log, id).value;
        assert log[k] == Init(log)[k];
      } else {
        forall k | 0 <= k < |log| && IsAdmit(log[k].event)
          ensures log[k].event.id != id
        {
          if k < |log| - 1 {
            assert log[k] == Init(log)[k];
          }
        }
      }
    } else if log != [] {
      assert IsAdmit(log[|log| - 1].event);
    }
  }
}
