/** One keeper cycle: page the active index, rotate it, send one transaction per volume, and account for each. */
module Keeper {
  import opened Machine
  import opened Chain
  import opened RegistrySpec
  import opened History
  import opened Invariants
  import opened Receipt
  import opened Trigger
  import opened Outcomes

  // ----- paging -------------------------------------------------------------

  function PageCount(total: nat, size: nat): nat
    requires size > 0
  {
    (total + size - 1) / size
  }

  /** The first `count` pages joined; one failing call fails them all. */
  function Pages(reg: Registry, size: nat, count: nat): Result<seq<VolumeView>> {
    if count == 0 then Ok([])
    else
      var before :- Pages(reg, size, count - 1);
      var page :- ActivePage(reg, (count - 1) * size, size);
      Ok(before + page)
  }

  /** `collectActiveVolumes`, every page read at one state; nothing when the page size is refused or a call fails. */
  function CollectActiveVolumes(reg: Registry, pageSize: int): Option<seq<VolumeView>> {
    if pageSize < 1 then None
    else if reg.active == [] then Some([])
    else
      match Pages(reg, pageSize, PageCount(|reg.active|, pageSize))
      case Ok(volumes) => Some(volumes)
      case Revert(_) => None
  }

  function AllViews(reg: Registry): (views: seq<VolumeView>)
    ensures |views| == |reg.active|
  {
    seq(|reg.active|, i requires 0 <= i < |reg.active| => ViewOf(reg, reg.active[i]))
  }

  lemma CeilBounds(total: nat, size: nat)
    requires size > 0
    ensures PageCount(total, size) * size >= total
    ensures PageCount(total, size) > 0 ==> (PageCount(total, size) - 1) * size < total
  {
    var count := PageCount(total, size);
    assert count * size + (total + size - 1) % size == total + size - 1;
    assert (count - 1) * size == count * size - size;
  }

  lemma PageIsSlice(reg: Registry, offset: nat, size: nat)
    requires offset < |reg.active| && |reg.active| + size < U256
    ensures ActivePage(reg, offset, size) == Ok(AllViews(reg)[offset..Min(offset + size, |reg.active|)])
  {
    hide ViewOf;
    assert ActivePage(reg, offset, size).value == AllViews(reg)[offset..Min(offset + size, |reg.active|)];
  }

  lemma {:induction false} PagesArePrefix(reg: Registry, size: nat, count: nat)
    requires size > 0 && |reg.active| + size < U256
    requires count > 0 ==> (count - 1) * size < |reg.active|
    ensures Pages(reg, size, count) == Ok(AllViews(reg)[..Min(count * size, |reg.active|)])
  {
    hide ActivePage, AllViews;
    if count > 0 {
      var offset := (count - 1) * size;
      assert offset + size == count * size;
      assert count > 1 ==> (count - 2) * size + size == offset;
      PagesArePrefix(reg, size, count - 1);
      PageIsSlice(reg, offset, size);
      SliceJoin(AllViews(reg), offset, Min(offset + size, |reg.active|));
    }
  }

  lemma SliceJoin(views: seq<VolumeView>, mid: nat, end: nat)
    requires mid <= end <= |views|
    ensures views[..mid] + views[mid..end] == views[..end]
  {
  }

  /** Whatever the page size, the pages joined are the whole index, in order, each volume once. */
  lemma PagingIsTheIndex(reg: Registry, pageSize: int)
    requires |reg.active| + pageSize < U256
    ensures CollectActiveVolumes(reg, pageSize) == if pageSize < 1 then None else Some(AllViews(reg))
  {
    if pageSize >= 1 {
      if reg.active != [] {
        CeilBounds(|reg.active|, pageSize);
        PagesArePrefix(reg, pageSize, PageCount(|reg.active|, pageSize));
        assert AllViews(reg)[..|reg.active|] == AllViews(reg);
      } else {
        assert AllViews(reg) == [];
      }
    }
  }

  function IdsOfViews(views: seq<VolumeView>): seq<Bytes32> {
    seq(|views|, i requires 0 <= i < |views| => views[i].volumeId)
  }

  lemma ListedIdsAreTheIndex(reg: Registry, pageSize: int)
    requires |reg.active| + pageSize < U256 && pageSize >= 1
    ensures CollectActiveVolumes(reg, pageSize).Some?
    ensures IdsOfViews(CollectActiveVolumes(reg, pageSize).value) == reg.active
  {
    PagingIsTheIndex(reg, pageSize);
  }

  // ----- selected ids -------------------------------------------------------

  function WithActive(reg: Registry, ids: seq<Bytes32>, active: bool): seq<Bytes32> {
    if ids == [] then []
    else
      var before, last := WithActive(reg, ids[..|ids| - 1], active), ids[|ids| - 1];
      if (VolumeAt(reg, last).status == Active) == active then before + [last] else before
  }

  /** The status check of `selected` mode. */
  method CollectSelected(reg: Registry, ids: seq<Bytes32>) returns (active: seq<Bytes32>, notActive: seq<Bytes32>)
    ensures active == WithActive(reg, ids, true) && notActive == WithActive(reg, ids, false)
  {
    active, notActive := [], [];
    for i := 0 to |ids|
      invariant active == WithActive(reg, ids[..i], true) && notActive == WithActive(reg, ids[..i], false)
    {
      assert ids[..i + 1][..i] == ids[..i];
      if ViewOf(reg, ids[i]).status == Active {
        active := active + [ids[i]];
      } else {
        notActive := notActive + [ids[i]];
      }
    }
    assert ids[..|ids|] == ids;
  }

  /** Every named id is answered for: it is listed as Active or reported as not, and neither twice. */
  lemma {:induction false} SelectedPartition(reg: Registry, ids: seq<Bytes32>)
    ensures multiset(WithActive(reg, ids, true)) + multiset(WithActive(reg, ids, false)) == multiset(ids)
    ensures forall id :: id in WithActive(reg, ids, true) ==> VolumeAt(reg, id).status == Active
    ensures forall id :: id in WithActive(reg, ids, false) ==> VolumeAt(reg, id).status != Active
  {
    if ids != [] {
      SelectedPartition(reg, ids[..|ids| - 1]);
      assert ids == ids[..|ids| - 1] + [ids[|ids| - 1]];
    }
  }

  // ----- rotation -----------------------------------------------------------

  /** `rotateVolumes`, from the position a hash picks. */
  function Rotate(ids: seq<Bytes32>, hash: nat): seq<Bytes32> {
    if |ids| < 2 then ids
    else
      var start := hash % |ids|;
      ids[start..] + ids[..start]
  }

  lemma Turned(ids: seq<Bytes32>, start: nat)
    requires start <= |ids|
    ensures multiset(ids[start..] + ids[..start]) == multiset(ids)
    ensures forall i :: 0 <= i < |ids| ==>
              (ids[start..] + ids[..start])[i] == if i < |ids| - start then ids[i + start] else ids[i - (|ids| - start)]
  {
    assert ids == ids[..start] + ids[start..];
  }

  /** A rotation: every id as often as before, each moved round by the same number of places. */
  lemma RotatePermutes(ids: seq<Bytes32>, hash: nat) returns (start: nat)
    ensures start <= |ids| && (|ids| >= 2 ==> start == hash % |ids|)
    ensures multiset(Rotate(ids, hash)) == multiset(ids) && |Rotate(ids, hash)| == |ids|
    ensures forall i :: 0 <= i < |ids| ==>
              Rotate(ids, hash)[i] == if i < |ids| - start then ids[i + start] else ids[i - (|ids| - start)]
  {
    start := if |ids| < 2 then 0 else hash % |ids|;
    Turned(ids, start);
    if |ids| < 2 {
      assert ids[0..] + ids[..0] == ids;
    }
  }

  lemma ModOnce(a: nat, n: nat)
    requires a < n + n
    ensures a % n == if a < n then a else a - n
  {
    assert a >= n ==> (a - n) % n == a - n && a % n == (a - n) % n;
  }

  /** Each position of a rotation, counted round from the hashed start. */
  lemma RotationFromStart(ids: seq<Bytes32>, hash: nat)
    requires ids != []
    ensures |Rotate(ids, hash)| == |ids|
    ensures forall j :: 0 <= j < |ids| ==> Rotate(ids, hash)[j] == ids[(hash % |ids| + j) % |ids|]
  {
    var start := RotatePermutes(ids, hash);
    hide Rotate;
    forall j | 0 <= j < |ids|
      ensures Rotate(ids, hash)[j] == ids[(hash % |ids| + j) % |ids|]
    {
      ModOnce(hash % |ids| + j, |ids|);
    }
  }

  // ----- one cycle ----------------------------------------------------------

  /** What became of one send: the node turned it away (having, unknown to the keeper, accepted it or not), its receipt
      never came, or it was mined. */
  datatype Sent = Refused(accepted: bool) | Unconfirmed | Mined(success: bool, logs: seq<Log>)

  /** Everything the world answers while one volume is attempted. */
  datatype Answer = Answer(deadlinePassed: bool, simulates: bool, readable: bool, sent: Sent)

  datatype TxStatus = Success | Reverted | Simulated | NotConfirmed

  datatype VolumeResult = VolumeResult(id: Bytes32, status: TxStatus, hashed: bool, summary: Option<Summary>)

  datatype Warning =
    | CapReached(deferred: nat)
    | DeadlineReached(attempted: nat, deferred: nat)
    | WasRetired(id: Bytes32, reason: string)
    | NotFunded(id: Bytes32, reason: string)
    | RequestedNotActive(id: Bytes32)

  /** The keeper's nonce, and the nonces the node has accepted from it. The node's pending count is taken as accurate:
      it is `base` plus what it has accepted. */
  datatype Wallet = Wallet(base: nat, nonce: Option<nat>, accepted: seq<nat>)

  function PendingCount(w: Wallet): nat {
    w.base + |w.accepted|
  }

  /** The wallet after one attempt: read when unknown, counted up when a send returns, forgotten after any failure. */
  function Attempt(w: Wallet, dryRun: bool, a: Answer): Wallet {
    if dryRun then (if a.simulates then w else w.(nonce := None))
    else if w.nonce.None? && !a.readable then w
    else
      var nonce := if w.nonce.Some? then w.nonce.value else PendingCount(w);
      match a.sent
      case Refused(accepted) => w.(nonce := None, accepted := if accepted then w.accepted + [nonce] else w.accepted)
      case Unconfirmed => w.(nonce := None, accepted := w.accepted + [nonce])
      case Mined(_, _) => w.(nonce := Some(nonce + 1), accepted := w.accepted + [nonce])
  }

  function ResultOf(registry: Addr, w: Wallet, dryRun: bool, a: Answer, id: Bytes32): VolumeResult {
    if dryRun then VolumeResult(id, if a.simulates then Simulated else NotConfirmed, false, None)
    else if w.nonce.None? && !a.readable then VolumeResult(id, NotConfirmed, false, None)
    else
      match a.sent
      case Refused(_) => VolumeResult(id, NotConfirmed, false, None)
      case Unconfirmed => VolumeResult(id, NotConfirmed, true, None)
      case Mined(success, logs) =>
        if success then VolumeResult(id, Success, true, Some(Summarize(Decode(EmittedBy(logs, registry)), id)))
        else VolumeResult(id, Reverted, true, None)
  }

  function WalletAfter(base: nat, dryRun: bool, answers: nat -> Answer, n: nat): Wallet {
    if n == 0 then Wallet(base, None, []) else Attempt(WalletAfter(base, dryRun, answers, n - 1), dryRun, answers(n - 1))
  }

  function ResultsOf(registry: Addr, base: nat, dryRun: bool, answers: nat -> Answer, ids: seq<Bytes32>)
    : (results: seq<VolumeResult>)
    ensures |results| == |ids|
  {
    if ids == [] then []
    else
      var n := |ids| - 1;
      ResultsOf(registry, base, dryRun, answers, ids[..n])
      + [ResultOf(registry, WalletAfter(base, dryRun, answers, n), dryRun, answers(n), ids[n])]
  }

  // ----- the lists a report sorts its results into ---------------------------

  function LastOf(results: seq<VolumeResult>): VolumeResult
    requires results != []
  {
    results[|results| - 1]
  }

  predicate IsFailed(r: VolumeResult) {
    r.status == NotConfirmed || r.status == Reverted
  }

  function FailedOf(results: seq<VolumeResult>): seq<Bytes32> {
    if results == [] then []
    else
      var before := FailedOf(results[..|results| - 1]);
      if IsFailed(LastOf(results)) then before + [LastOf(results).id] else before
  }

  function ToppedUpOf(results: seq<VolumeResult>): seq<TopUp> {
    if results == [] then []
    else
      var before, r := ToppedUpOf(results[..|results| - 1]), LastOf(results);
      if r.status == Success && r.summary.Some? && r.summary.value.SummaryToppedUp?
      then before + [TopUp(r.id, r.summary.value.amount)] else before
  }

  function RetiredOf(results: seq<VolumeResult>): seq<Outcome> {
    if results == [] then []
    else
      var before, r := RetiredOf(results[..|results| - 1]), LastOf(results);
      if r.status == Success && r.summary.Some? && r.summary.value.SummaryRetired?
      then before + [Outcome(r.id, r.summary.value.reason)] else before
  }

  function SkippedOf(results: seq<VolumeResult>): seq<Outcome> {
    if results == [] then []
    else
      var before, r := SkippedOf(results[..|results| - 1]), LastOf(results);
      if r.status == Success && r.summary.Some? && r.summary.value.SummarySkipped?
      then before + [Outcome(r.id, r.summary.value.reason)] else before
  }

  function NoopOf(results: seq<VolumeResult>): seq<Bytes32> {
    if results == [] then []
    else
      var before, r := NoopOf(results[..|results| - 1]), LastOf(results);
      if r.status == Success && r.summary == Some(Noop) then before + [r.id] else before
  }

  function WarningsOf(results: seq<VolumeResult>): seq<Warning> {
    if results == [] then []
    else
      var before, r := WarningsOf(results[..|results| - 1]), LastOf(results);
      if r.status == Success && r.summary.Some? && r.summary.value.SummaryRetired?
      then before + [WasRetired(r.id, r.summary.value.reason)]
      else if r.status == Success && r.summary.Some? && r.summary.value.SummarySkipped?
      then before + [NotFunded(r.id, r.summary.value.reason)]
      else before
  }

  function NotActiveWarnings(ids: seq<Bytes32>): seq<Warning> {
    seq(|ids|, i requires 0 <= i < |ids| => RequestedNotActive(ids[i]))
  }

  datatype Mode = All | Selected(ids: seq<Bytes32>)

  /** What a cycle is started with: the registry's state at the pinned block, and what the world will answer. */
  datatype Plan = Plan(registry: Addr, reg: Registry, mode: Mode, pageSize: int, maxVolumes: nat, dryRun: bool,
                       hash: nat, reachable: bool, base: nat)

  /** The volumes a plan lists; nothing if the listing itself fails. */
  function Listed(p: Plan): Option<seq<Bytes32>> {
    if !p.reachable then None
    else
      match p.mode
      case All =>
        (match CollectActiveVolumes(p.reg, p.pageSize)
         case Some(views) => Some(IdsOfViews(views))
         case None => None)
      case Selected(ids) => Some(WithActive(p.reg, ids, true))
  }

  function Capped(p: Plan, ids: seq<Bytes32>): seq<Bytes32> {
    var rotated := Rotate(ids, p.hash);
    if p.maxVolumes < |rotated| then rotated[..p.maxVolumes] else rotated
  }

  class Report {
    var ok: bool
    var volumeCount: nat
    var skipped: bool
    var volumes: seq<VolumeResult>
    var toppedUp: seq<TopUp>
    var retired: seq<Outcome>
    var topupSkipped: seq<Outcome>
    var noop: seq<Bytes32>
    var failed: seq<Bytes32>
    var notActive: seq<Bytes32>
    var warnings: seq<Warning>
    var error: bool
    var wallet: Wallet

    /** Each list holds exactly the results that belong in it, in order, and `ok` says that none failed. */
    ghost predicate Sorted()
      reads this
    {
      && toppedUp == ToppedUpOf(volumes) && retired == RetiredOf(volumes) && topupSkipped == SkippedOf(volumes)
      && noop == NoopOf(volumes) && failed == FailedOf(volumes)
      && (ok <==> failed == [] && !error)
    }

    constructor (base: nat)
      ensures Sorted() && volumes == [] && warnings == [] && notActive == [] && !error && volumeCount == 0 && !skipped
      ensures wallet == Wallet(base, None, [])
    {
      ok, volumeCount, skipped, error := true, 0, false, false;
      volumes, toppedUp, retired, topupSkipped, noop, failed, notActive, warnings := [], [], [], [], [], [], [], [];
      wallet := Wallet(base, None, []);
    }

    /** The sending half of `sendOne`: nonce handling and the fate of one transaction. */
    method Dispatch(registry: Addr, dryRun: bool, a: Answer, id: Bytes32) returns (r: VolumeResult)
      modifies this`wallet
      ensures r == ResultOf(registry, old(wallet), dryRun, a, id)
      ensures wallet == Attempt(old(wallet), dryRun, a)
    {
      r := VolumeResult(id, NotConfirmed, false, None);
      if dryRun {
        if a.simulates {
          r := r.(status := Simulated);
        } else {
          wallet := wallet.(nonce := None);
        }
        return;
      }
      if wallet.nonce.None? {
        if !a.readable {
          return;
        }
        wallet := wallet.(nonce := Some(PendingCount(wallet)));
      }
      var nonce := wallet.nonce.value;
      match a.sent
      case Refused(accepted) =>
        wallet := wallet.(nonce := None, accepted := if accepted then wallet.accepted + [nonce] else wallet.accepted);
      case Unconfirmed =>
        wallet := wallet.(nonce := None, accepted := wallet.accepted + [nonce]);
        r := r.(hashed := true);
      case Mined(success, logs) =>
        wallet := wallet.(nonce := Some(nonce + 1), accepted := wallet.accepted + [nonce]);
        r := VolumeResult(id, Reverted, true, None);
        if success {
          var decoded := DecodeCycleEvents(logs, registry);
          r := VolumeResult(id, Success, true, Some(Summarize(decoded, id)));
        }
    }

    /** The booking half: the result goes to the one list it belongs in. */
    method Record(r: VolumeResult)
      requires Sorted()
      requires r.summary.Some? ==> r.status == Success
      modifies this
      ensures Sorted() && volumes == old(volumes) + [r] && warnings == old(warnings) + WarningsOf([r])
      ensures error == old(error) && volumeCount == old(volumeCount) && skipped == old(skipped)
      ensures notActive == old(notActive) && wallet == old(wallet)
    {
      SortOneMore(volumes, r);
      WarningsOfOne(r);
      hide ToppedUpOf, RetiredOf, SkippedOf, NoopOf, FailedOf, WarningsOf;
      volumes := volumes + [r];
      if r.summary.Some? {
        match r.summary.value
        case SummaryToppedUp(amount) => toppedUp := toppedUp + [TopUp(r.id, amount)];
        case SummaryRetired(reason) =>
          retired := retired + [Outcome(r.id, reason)];
          warnings := warnings + [WasRetired(r.id, reason)];
        case SummarySkipped(reason) =>
          topupSkipped := topupSkipped + [Outcome(r.id, reason)];
          warnings := warnings + [NotFunded(r.id, reason)];
        case Noop => noop := noop + [r.id];
      }
      if IsFailed(r) {
        ok := false;
        failed := failed + [r.id];
      }
    }

    /** The cycle's loop: each volume in turn, until the deadline has passed. */
    method SendAll(p: Plan, answers: nat -> Answer, attempting: seq<Bytes32>)
      requires Sorted() && volumes == [] && wallet == Wallet(p.base, None, [])
      modifies this
      ensures Sorted() && error == old(error) && volumeCount == old(volumeCount) && skipped == old(skipped)
      ensures notActive == old(notActive)
      ensures Attempted(p, answers, attempting, volumes, wallet)
      ensures warnings == old(warnings) + LoopWarnings(attempting, volumes)
    {
      hide ToppedUpOf, RetiredOf, SkippedOf, NoopOf, FailedOf, ResultOf, Attempt, ResultsOf, WalletAfter, WarningsOf;
      ghost var before := warnings;
      NothingAttempted(p, answers);
      var i := 0;
      while i < |attempting|
        invariant i == |volumes| <= |attempting|
        invariant Sorted() && error == old(error) && volumeCount == old(volumeCount) && skipped == old(skipped)
        invariant notActive == old(notActive)
        invariant volumes == ResultsOf(p.registry, p.base, p.dryRun, answers, attempting[..i])
        invariant wallet == WalletAfter(p.base, p.dryRun, answers, i)
        invariant forall k :: 0 < k < i ==> !answers(k).deadlinePassed
        invariant warnings == before + WarningsOf(volumes)
      {
        if i > 0 && answers(i).deadlinePassed {
          warnings := warnings + [DeadlineReached(i, |attempting| - i)];
          return;
        }
        AttemptOneMore(p, answers, attempting, i);
        ghost var soFar := volumes;
        var r := Dispatch(p.registry, p.dryRun, answers(i), attempting[i]);
        WarnOneMore(soFar, r);
        Record(r);
        i := i + 1;
      }
    }

    /** Where the ids come from; the ones asked for and not Active are noted. */
    method ListVolumes(p: Plan) returns (ids: Option<seq<Bytes32>>)
      requires notActive == [] && warnings == []
      modifies this`notActive, this`warnings
      ensures ids == Listed(p)
      ensures notActive == (if p.reachable && p.mode.Selected? then WithActive(p.reg, p.mode.ids, false) else [])
      ensures warnings == NotActiveWarnings(notActive)
    {
      if !p.reachable {
        return None;
      }
      match p.mode
      case All =>
        var views := CollectActiveVolumes(p.reg, p.pageSize);
        ids := match views case Some(list) => Some(IdsOfViews(list)) case None => None;
      case Selected(wanted) =>
        var active, others := CollectSelected(p.reg, wanted);
        notActive, warnings := others, NotActiveWarnings(others);
        ids := Some(active);
    }

    /** `runKeeperCycle`. */
    method Run(p: Plan, answers: nat -> Answer)
      requires Sorted() && volumes == [] && warnings == [] && notActive == [] && !error && volumeCount == 0 && !skipped
      requires wallet == Wallet(p.base, None, [])
      modifies this
      ensures Sorted() && (error <==> Listed(p).None?)
      ensures notActive == (if p.reachable && p.mode.Selected? then WithActive(p.reg, p.mode.ids, false) else [])
      ensures match Listed(p)
              case None => volumes == [] && warnings == NotActiveWarnings(notActive)
              case Some(ids) =>
                && volumeCount == |ids| && (skipped <==> ids == [])
                && Attempted(p, answers, Capped(p, ids), volumes, wallet)
                && warnings == NotActiveWarnings(notActive) + CapWarnings(p, ids) + LoopWarnings(Capped(p, ids), volumes)
    {
      hide Listed, WithActive, Rotate;
      var listed := ListVolumes(p);
      if listed.None? {
        ok, error := false, true;
        return;
      }
      var ids := listed.value;
      volumeCount := |ids|;
      var attempting := Capped(p, ids);
      warnings := warnings + CapWarnings(p, ids);
      skipped := ids == [];
      if ids == [] {
        NothingToAttempt(p, answers);
        return;
      }
      SendAll(p, answers, attempting);
    }
  }

  /** What the loop leaves behind: a prefix of the list attempted, each result its own answer's, cut only by the
      deadline and never before the first volume. */
  ghost predicate Attempted(p: Plan, answers: nat -> Answer, attempting: seq<Bytes32>, volumes: seq<VolumeResult>,
                            wallet: Wallet)
  {
    var n := |volumes|;
    && n <= |attempting|
    && volumes == ResultsOf(p.registry, p.base, p.dryRun, answers, attempting[..n])
    && wallet == WalletAfter(p.base, p.dryRun, answers, n)
    && (forall i :: 0 < i < n ==> !answers(i).deadlinePassed)
    && (n < |attempting| ==> n > 0 && answers(n).deadlinePassed)
  }

  function CapWarnings(p: Plan, ids: seq<Bytes32>): seq<Warning> {
    if |Capped(p, ids)| < |ids| then [CapReached(|ids| - |Capped(p, ids)|)] else []
  }

  function LoopWarnings(attempting: seq<Bytes32>, volumes: seq<VolumeResult>): seq<Warning> {
    WarningsOf(volumes)
    + if |volumes| < |attempting| then [DeadlineReached(|volumes|, |attempting| - |volumes|)] else []
  }

  lemma NothingAttempted(p: Plan, answers: nat -> Answer)
    ensures ResultsOf(p.registry, p.base, p.dryRun, answers, []) == [] && WarningsOf([]) == []
    ensures WalletAfter(p.base, p.dryRun, answers, 0) == Wallet(p.base, None, [])
  {
  }

  lemma NothingToAttempt(p: Plan, answers: nat -> Answer)
    ensures Capped(p, []) == [] && Attempted(p, answers, [], [], Wallet(p.base, None, [])) && LoopWarnings([], []) == []
  {
  }

  lemma AttemptOneMore(p: Plan, answers: nat -> Answer, attempting: seq<Bytes32>, i: nat)
    requires i < |attempting|
    ensures ResultsOf(p.registry, p.base, p.dryRun, answers, attempting[..i + 1]) ==
            ResultsOf(p.registry, p.base, p.dryRun, answers, attempting[..i])
            + [ResultOf(p.registry, WalletAfter(p.base, p.dryRun, answers, i), p.dryRun, answers(i), attempting[i])]
    ensures WalletAfter(p.base, p.dryRun, answers, i + 1) ==
            Attempt(WalletAfter(p.base, p.dryRun, answers, i), p.dryRun, answers(i))
    ensures ResultOf(p.registry, WalletAfter(p.base, p.dryRun, answers, i), p.dryRun, answers(i), attempting[i])
            .summary.Some? ==>
            ResultOf(p.registry, WalletAfter(p.base, p.dryRun, answers, i), p.dryRun, answers(i), attempting[i])
            .status == Success
  {
    assert attempting[..i + 1][..i] == attempting[..i];
  }

  lemma SortOneMore(results: seq<VolumeResult>, r: VolumeResult)
    ensures ToppedUpOf(results + [r]) ==
            if r.status == Success && r.summary.Some? && r.summary.value.SummaryToppedUp?
            then ToppedUpOf(results) + [TopUp(r.id, r.summary.value.amount)] else ToppedUpOf(results)
    ensures RetiredOf(results + [r]) ==
            if r.status == Success && r.summary.Some? && r.summary.value.SummaryRetired?
            then RetiredOf(results) + [Outcome(r.id, r.summary.value.reason)] else RetiredOf(results)
    ensures SkippedOf(results + [r]) ==
            if r.status == Success && r.summary.Some? && r.summary.value.SummarySkipped?
            then SkippedOf(results) + [Outcome(r.id, r.summary.value.reason)] else SkippedOf(results)
    ensures NoopOf(results + [r]) ==
            if r.status == Success && r.summary == Some(Noop) then NoopOf(results) + [r.id] else NoopOf(results)
    ensures FailedOf(results + [r]) == if IsFailed(r) then FailedOf(results) + [r.id] else FailedOf(results)
  {
    assert (results + [r])[..|results|] == results;
  }

  lemma WarnOneMore(results: seq<VolumeResult>, r: VolumeResult)
    ensures WarningsOf(results + [r]) == WarningsOf(results) + WarningsOf([r])
  {
    assert (results + [r])[..|results|] == results;
    assert [r][..0] == [];
  }

  lemma WarningsOfOne(r: VolumeResult)
    ensures WarningsOf([r]) ==
            if r.status == Success && r.summary.Some? && r.summary.value.SummaryRetired?
            then [WasRetired(r.id, r.summary.value.reason)]
            else if r.status == Success && r.summary.Some? && r.summary.value.SummarySkipped?
            then [NotFunded(r.id, r.summary.value.reason)]
            else []
  {
    assert [r][..0] == [];
  }

  // ----- what every cycle keeps ---------------------------------------------

  function IdsOf(results: seq<VolumeResult>): seq<Bytes32> {
    seq(|results|, i requires 0 <= i < |results| => results[i].id)
  }

  function TopUpIds(found: seq<TopUp>): seq<Bytes32> {
    seq(|found|, i requires 0 <= i < |found| => found[i].id)
  }

  function OutcomeIds(found: seq<Outcome>): seq<Bytes32> {
    seq(|found|, i requires 0 <= i < |found| => found[i].id)
  }

  lemma ResultIsFor(registry: Addr, w: Wallet, dryRun: bool, a: Answer, id: Bytes32)
    ensures ResultOf(registry, w, dryRun, a, id).id == id
  {
  }

  /** Attempted ids are, in order, a prefix of a rotation of the listed ones. */
  lemma {:induction false} ResultsAreInOrder(registry: Addr, base: nat, dryRun: bool, answers: nat -> Answer,
                                             ids: seq<Bytes32>)
    ensures IdsOf(ResultsOf(registry, base, dryRun, answers, ids)) == ids
  {
    hide ResultOf, WalletAfter;
    if ids != [] {
      var n := |ids| - 1;
      ResultIsFor(registry, WalletAfter(base, dryRun, answers, n), dryRun, answers(n), ids[n]);
      ResultsAreInOrder(registry, base, dryRun, answers, ids[..n]);
      var before := ResultsOf(registry, base, dryRun, answers, ids[..n]);
      assert forall i :: 0 <= i < n ==> IdsOf(before)[i] == before[i].id == ids[i];
    }
  }

  lemma AttemptedIsPrefix(p: Plan, answers: nat -> Answer, ids: seq<Bytes32>, volumes: seq<VolumeResult>, wallet: Wallet)
    requires Attempted(p, answers, Capped(p, ids), volumes, wallet)
    ensures IdsOf(volumes) <= Rotate(ids, p.hash)
    ensures |volumes| <= p.maxVolumes && |volumes| <= |ids|
  {
    ResultsAreInOrder(p.registry, p.base, p.dryRun, answers, Capped(p, ids)[..|volumes|]);
    var start := RotatePermutes(ids, p.hash);
  }

  ghost predicate WasSent(r: VolumeResult) {
    r.status != Simulated && (r.status == Success <==> r.summary.Some?)
  }

  lemma {:induction false} SentResults(registry: Addr, base: nat, answers: nat -> Answer, ids: seq<Bytes32>)
    ensures forall r :: r in ResultsOf(registry, base, false, answers, ids) ==> WasSent(r)
  {
    if ids != [] {
      SentResults(registry, base, answers, ids[..|ids| - 1]);
    }
  }

  /** The five lists together, as ids. */
  ghost function Booked(results: seq<VolumeResult>): multiset<Bytes32> {
    multiset(TopUpIds(ToppedUpOf(results))) + multiset(OutcomeIds(RetiredOf(results)))
    + multiset(OutcomeIds(SkippedOf(results))) + multiset(NoopOf(results)) + multiset(FailedOf(results))
  }

  lemma TopUpIdsJoin(found: seq<TopUp>, more: TopUp)
    ensures TopUpIds(found + [more]) == TopUpIds(found) + [more.id]
  {
  }

  lemma OutcomeIdsJoin(found: seq<Outcome>, more: Outcome)
    ensures OutcomeIds(found + [more]) == OutcomeIds(found) + [more.id]
  {
  }

  lemma BookedOneMore(results: seq<VolumeResult>, r: VolumeResult)
    requires WasSent(r)
    ensures Booked(results + [r]) == Booked(results) + multiset{r.id}
  {
    SortOneMore(results, r);
    hide ToppedUpOf, RetiredOf, SkippedOf, NoopOf, FailedOf, TopUpIds, OutcomeIds;
    if r.status == Success {
      match r.summary.value
      case SummaryToppedUp(amount) => TopUpIdsJoin(ToppedUpOf(results), TopUp(r.id, amount));
      case SummaryRetired(reason) => OutcomeIdsJoin(RetiredOf(results), Outcome(r.id, reason));
      case SummarySkipped(reason) => OutcomeIdsJoin(SkippedOf(results), Outcome(r.id, reason));
      case Noop =>
    }
  }

  /** Each attempted id falls in exactly one list, as often as it was attempted. */
  lemma {:induction false} ListsSplitTheAttempts(results: seq<VolumeResult>)
    requires forall r :: r in results ==> WasSent(r)
    ensures multiset(IdsOf(results)) == Booked(results)
  {
    if results != [] {
      var before, r := results[..|results| - 1], LastOf(results);
      assert results == before + [r];
      assert r in results && forall x :: x in before ==> x in results;
      ListsSplitTheAttempts(before);
      BookedOneMore(before, r);
      assert IdsOf(results) == IdsOf(before) + [r.id];
    }
  }

  /** A run that sends splits what it attempted exactly into the five lists. */
  lemma EveryAttemptIsAccountedFor(p: Plan, answers: nat -> Answer, ids: seq<Bytes32>, volumes: seq<VolumeResult>,
                                   wallet: Wallet)
    requires Attempted(p, answers, Capped(p, ids), volumes, wallet) && !p.dryRun
    ensures multiset(IdsOf(volumes)) == Booked(volumes)
  {
    SentResults(p.registry, p.base, answers, Capped(p, ids)[..|volumes|]);
    ListsSplitTheAttempts(volumes);
  }

  function DeferredBy(w: Warning): nat {
    match w
    case CapReached(deferred) => deferred
    case DeadlineReached(_, deferred) => deferred
    case _ => 0
  }

  function Deferred(warnings: seq<Warning>): nat {
    if warnings == [] then 0 else Deferred(warnings[..|warnings| - 1]) + DeferredBy(warnings[|warnings| - 1])
  }

  lemma {:induction false} DeferredJoin(a: seq<Warning>, b: seq<Warning>)
    ensures Deferred(a + b) == Deferred(a) + Deferred(b)
  {
    if b == [] {
      assert a + b == a;
    } else {
      assert (a + b)[..|a + b| - 1] == a + b[..|b| - 1];
      DeferredJoin(a, b[..|b| - 1]);
    }
  }

  lemma NothingDeferred()
    ensures Deferred(WarningsOf([])) == 0
  {
  }

  lemma {:induction false} ReportsDeferNothing(results: seq<VolumeResult>)
    ensures Deferred(WarningsOf(results)) == 0
  {
    hide WarningsOf, Deferred;
    NothingDeferred();
    if results != [] {
      var before := results[..|results| - 1];
      ReportsDeferNothing(before);
      WarnOneMore(before, LastOf(results));
      assert before + [LastOf(results)] == results;
      DeferredJoin(WarningsOf(before), WarningsOf([LastOf(results)]));
      WarningsOfOne(LastOf(results));
      DeferredOne(WarningsOf([LastOf(results)]));
    }
  }

  lemma DeferredOne(warnings: seq<Warning>)
    requires |warnings| <= 1
    ensures Deferred(warnings) == if warnings == [] then 0 else DeferredBy(warnings[0])
  {
    if |warnings| == 1 {
      assert warnings[..0] == [];
    }
  }

  lemma {:induction false} RequestsDeferNothing(ids: seq<Bytes32>)
    ensures Deferred(NotActiveWarnings(ids)) == 0
  {
    if ids != [] {
      RequestsDeferNothing(ids[..|ids| - 1]);
      assert NotActiveWarnings(ids)[..|ids| - 1] == NotActiveWarnings(ids[..|ids| - 1]);
    }
  }

  /** Nothing listed goes unmentioned: attempted and deferred add up to the volume count. */
  lemma AttemptedPlusDeferred(p: Plan, answers: nat -> Answer, ids: seq<Bytes32>, volumes: seq<VolumeResult>,
                              wallet: Wallet, notActive: seq<Bytes32>)
    requires Attempted(p, answers, Capped(p, ids), volumes, wallet)
    ensures |volumes|
            + Deferred(NotActiveWarnings(notActive) + CapWarnings(p, ids) + LoopWarnings(Capped(p, ids), volumes))
            == |ids|
  {
    var attempting := Capped(p, ids);
    LoopDefers(attempting, volumes);
    CapDefers(p, ids);
    RequestsDeferNothing(notActive);
    hide *;
    DeferredJoin(NotActiveWarnings(notActive) + CapWarnings(p, ids), LoopWarnings(attempting, volumes));
    DeferredJoin(NotActiveWarnings(notActive), CapWarnings(p, ids));
  }

  lemma CapDefers(p: Plan, ids: seq<Bytes32>)
    ensures |Capped(p, ids)| + Deferred(CapWarnings(p, ids)) == |ids|
  {
    var start := RotatePermutes(ids, p.hash);
    hide Deferred, Rotate;
    DeferredOne(CapWarnings(p, ids));
  }

  lemma LoopDefers(attempting: seq<Bytes32>, volumes: seq<VolumeResult>)
    requires |volumes| <= |attempting|
    ensures |volumes| + Deferred(LoopWarnings(attempting, volumes)) == |attempting|
  {
    var tail := if |volumes| < |attempting| then [DeadlineReached(|volumes|, |attempting| - |volumes|)] else [];
    hide Deferred, WarningsOf;
    ReportsDeferNothing(volumes);
    DeferredJoin(WarningsOf(volumes), tail);
    DeferredOne(tail);
  }

  /** Given an accurate pending count, the accepted nonces are consecutive from the first: no two sends share one. */
  lemma {:induction false} NoncesNeverRepeat(base: nat, dryRun: bool, answers: nat -> Answer, n: nat)
    ensures var w := WalletAfter(base, dryRun, answers, n);
            && w.base == base
            && (w.nonce.Some? ==> w.nonce.value == PendingCount(w))
            && forall k :: 0 <= k < |w.accepted| ==> w.accepted[k] == base + k
  {
    if n > 0 {
      NoncesNeverRepeat(base, dryRun, answers, n - 1);
    }
  }

  lemma NothingBooked()
    ensures ToppedUpOf([]) == [] && RetiredOf([]) == [] && SkippedOf([]) == [] && NoopOf([]) == []
  {
  }

  /** A dry run sends nothing and books nothing but failures. */
  lemma {:induction false} DryRunSendsNothing(registry: Addr, base: nat, answers: nat -> Answer, ids: seq<Bytes32>)
    ensures WalletAfter(base, true, answers, |ids|).accepted == []
    ensures var results := ResultsOf(registry, base, true, answers, ids);
            && ToppedUpOf(results) == [] && RetiredOf(results) == [] && SkippedOf(results) == [] && NoopOf(results) == []
            && forall i :: 0 <= i < |ids| ==> results[i].status == if answers(i).simulates then Simulated else NotConfirmed
  {
    hide ToppedUpOf, RetiredOf, SkippedOf, NoopOf, FailedOf;
    NothingBooked();
    if ids != [] {
      var n := |ids| - 1;
      DryRunSendsNothing(registry, base, answers, ids[..n]);
      SortOneMore(ResultsOf(registry, base, true, answers, ids[..n]),
                  ResultOf(registry, WalletAfter(base, true, answers, n), true, answers(n), ids[n]));
    }
  }

  /** A transaction leaves the keeper exactly when it is not a dry run and a nonce is known or can be read; the nonce it
      spends is the next pending one, and only a mined send carries the count to the next volume unread. */
  lemma SendsExactlyWhen(base: nat, dryRun: bool, answers: nat -> Answer, n: nat)
    ensures var before, after := WalletAfter(base, dryRun, answers, n), WalletAfter(base, dryRun, answers, n + 1);
            var a := answers(n);
            var sends := !dryRun && (before.nonce.Some? || a.readable);
            && after.accepted == before.accepted
                                 + (if sends && a.sent != Refused(false) then [base + |before.accepted|] else [])
            && (after.nonce.Some? <==> if sends then a.sent.Mined? else before.nonce.Some? && dryRun && a.simulates)
  {
    NoncesNeverRepeat(base, dryRun, answers, n);
  }

  /** A volume fails exactly when its dry run does not simulate, or when its transaction could not be sent, was not
      confirmed or reverted: nothing else is a failure. */
  lemma FailsExactlyWhen(registry: Addr, w: Wallet, dryRun: bool, a: Answer, id: Bytes32)
    ensures var r := ResultOf(registry, w, dryRun, a, id);
            && FailedOf([r]) == (if r.status == Success || r.status == Simulated then [] else [id])
            && (r.status == Success || r.status == Simulated <==>
                if dryRun then a.simulates
                else (w.nonce.Some? || a.readable) && a.sent.Mined? && a.sent.success)
            && (r.hashed <==> !dryRun && (w.nonce.Some? || a.readable) && !a.sent.Refused?)
  {
    var r := ResultOf(registry, w, dryRun, a, id);
    assert [r][..0] == [];
  }

  lemma {:induction false} FailedJoin(a: seq<VolumeResult>, b: seq<VolumeResult>)
    ensures FailedOf(a + b) == FailedOf(a) + FailedOf(b)
  {
    hide FailedOf;
    if b == [] {
      assert a + b == a;
      NothingFailed();
    } else {
      var init := b[..|b| - 1];
      assert a + b == (a + init) + [LastOf(b)] && b == init + [LastOf(b)];
      FailedJoin(a, init);
      SortOneMore(a + init, LastOf(b));
      SortOneMore(init, LastOf(b));
    }
  }

  lemma NothingFailed()
    ensures FailedOf([]) == []
  {
  }

  /** A dry run fails for exactly the volumes whose simulation does, in order; when all pass, it fails for none. */
  lemma {:induction false} DryRunFailures(registry: Addr, base: nat, answers: nat -> Answer, ids: seq<Bytes32>)
    ensures var failed := FailedOf(ResultsOf(registry, base, true, answers, ids));
            && (failed == [] <==> forall i :: 0 <= i < |ids| ==> answers(i).simulates)
            && (ids != [] ==>
                  failed == FailedOf(ResultsOf(registry, base, true, answers, ids[..|ids| - 1]))
                            + if answers(|ids| - 1).simulates then [] else [ids[|ids| - 1]])
  {
    hide FailedOf, ResultOf;
    NothingFailed();
    if ids != [] {
      var n := |ids| - 1;
      var before := ResultsOf(registry, base, true, answers, ids[..n]);
      var last := ResultOf(registry, WalletAfter(base, true, answers, n), true, answers(n), ids[n]);
      DryRunFailures(registry, base, answers, ids[..n]);
      FailsExactlyWhen(registry, WalletAfter(base, true, answers, n), true, answers(n), ids[n]);
      FailedJoin(before, [last]);
    }
  }

  /** A dry run whose simulations all pass ends with nothing failed, so its report says `ok`. */
  lemma DryRunPasses(p: Plan, answers: nat -> Answer, ids: seq<Bytes32>, volumes: seq<VolumeResult>, wallet: Wallet)
    requires Attempted(p, answers, Capped(p, ids), volumes, wallet) && p.dryRun
    ensures FailedOf(volumes) == [] <==> forall i :: 0 <= i < |volumes| ==> answers(i).simulates
  {
    DryRunFailures(p.registry, p.base, answers, Capped(p, ids)[..|volumes|]);
    hide FailedOf, ResultsOf, WalletAfter, Rotate;
  }

  lemma CappedFromStart(p: Plan, ids: seq<Bytes32>)
    ensures |Capped(p, ids)| == if |ids| <= p.maxVolumes then |ids| else p.maxVolumes
    ensures forall j :: 0 <= j < |Capped(p, ids)| ==> Capped(p, ids)[j] == ids[(p.hash % |ids| + j) % |ids|]
  {
    if ids != [] {
      RotationFromStart(ids, p.hash);
    }
  }

  /** The cap is used in full: unless a deadline cuts it short, a cycle attempts as many of the listed volumes as the cap
      allows, from the rotation's start and round past the end of the list. */
  lemma CapIsUsed(p: Plan, answers: nat -> Answer, ids: seq<Bytes32>, volumes: seq<VolumeResult>, wallet: Wallet)
    requires Attempted(p, answers, Capped(p, ids), volumes, wallet)
    requires forall i: nat :: 0 < i < |ids| && i < p.maxVolumes ==> !answers(i).deadlinePassed
    ensures |volumes| == if |ids| <= p.maxVolumes then |ids| else p.maxVolumes
    ensures forall j :: 0 <= j < |volumes| ==> volumes[j].id == ids[(p.hash % |ids| + j) % |ids|]
  {
    hide ResultsOf, WalletAfter, Rotate, Capped;
    ResultsAreInOrder(p.registry, p.base, p.dryRun, answers, Capped(p, ids)[..|volumes|]);
    CappedFromStart(p, ids);
    assert forall j :: 0 <= j < |volumes| ==> volumes[j].id == IdsOf(volumes)[j] == Capped(p, ids)[j];
  }

  lemma {:induction false} NoCapAmongResults(results: seq<VolumeResult>)
    ensures forall w :: w in WarningsOf(results) ==> w.WasRetired? || w.NotFunded?
  {
    if results != [] {
      NoCapAmongResults(results[..|results| - 1]);
    }
  }

  /** A cycle warns that the cap was reached exactly when more volumes are listed than it allows, with how many too many;
      and that the deadline was exactly when it cut the attempts short, with how many it left. */
  lemma WarnsExactlyWhen(p: Plan, ids: seq<Bytes32>, volumes: seq<VolumeResult>, notActive: seq<Bytes32>, done: nat,
                         deferred: nat)
    requires |volumes| <= |ids| && |volumes| <= p.maxVolumes
    ensures var warnings := NotActiveWarnings(notActive) + CapWarnings(p, ids) + LoopWarnings(Capped(p, ids), volumes);
            && (CapReached(deferred) in warnings <==> |ids| == p.maxVolumes + deferred && deferred > 0)
            && (DeadlineReached(done, deferred) in warnings <==>
                deferred > 0 && done == |volumes|
                && (|volumes| + deferred == |ids| <= p.maxVolumes || |volumes| + deferred == p.maxVolumes <= |ids|))
            && forall id :: RequestedNotActive(id) in warnings <==> id in notActive
  {
    var start := RotatePermutes(ids, p.hash);
    NoCapAmongResults(volumes);
    hide Rotate, WarningsOf;
    forall id | id in notActive
      ensures RequestedNotActive(id) in NotActiveWarnings(notActive)
    {
      var i :| 0 <= i < |notActive| && notActive[i] == id;
      assert NotActiveWarnings(notActive)[i] == RequestedNotActive(id);
    }
  }

  /** With room under the cap and no deadline met, a full cycle attempts every Active volume, each exactly once. */
  lemma EveryActiveVolumeIsAttempted(p: Plan, answers: nat -> Answer, volumes: seq<VolumeResult>, wallet: Wallet,
                                     id: Bytes32)
    requires IndexInv(p.reg) && p.mode.All? && p.reachable && p.pageSize >= 1 && |p.reg.active| + p.pageSize < U256
    requires |p.reg.active| <= p.maxVolumes && forall i: nat :: i > 0 ==> !answers(i).deadlinePassed
    requires Listed(p).Some? && Attempted(p, answers, Capped(p, Listed(p).value), volumes, wallet)
    ensures multiset(IdsOf(volumes))[id] == if VolumeAt(p.reg, id).status == Active then 1 else 0
  {
    hide IndexInv, CollectActiveVolumes, ResultsOf, WalletAfter;
    ListedIdsAreTheIndex(p.reg, p.pageSize);
    var start := RotatePermutes(p.reg.active, p.hash);
    ResultsAreInOrder(p.registry, p.base, p.dryRun, answers, Capped(p, p.reg.active)[..|volumes|]);
    assert Capped(p, p.reg.active)[..|volumes|] == Rotate(p.reg.active, p.hash);
    EachOnceInIndex(p.reg, id);
  }

  lemma EachOnceInIndex(reg: Registry, id: Bytes32)
    requires IndexInv(reg)
    ensures multiset(reg.active)[id] == if VolumeAt(reg, id).status == Active then 1 else 0
  {
    if VolumeAt(reg, id).status == Active {
      var i := VolumeAt(reg, id).activeIndex;
      assert reg.active == reg.active[..i] + [id] + reg.active[i + 1..];
      assert id !in reg.active[..i] && id !in reg.active[i + 1..] by {
        forall j | 0 <= j < |reg.active| && reg.active[j] == id
          ensures j == i
        {
          assert VolumeAt(reg, reg.active[j]).activeIndex == j;
        }
      }
      assert multiset(reg.active) == multiset(reg.active[..i]) + multiset{id} + multiset(reg.active[i + 1..]);
    }
  }

  /** A result that says `success` says what the contract did: the outcome, reason and amount of the trigger that was
      mined. */
  lemma ResultTellsTheTruth(cfg: Config, w: World, id: Bytes32, logs: seq<Log>, wallet: Wallet, a: Answer)
    requires Inv(cfg, w) && TriggerOne(cfg, w, id).Ok?
    requires ReceiptOf(cfg, w, TriggerOne(cfg, w, id).value.0, logs) && a.sent == Mined(true, logs)
    requires wallet.nonce.Some? || a.readable
    ensures ResultOf(cfg.registry, wallet, false, a, id) ==
            VolumeResult(id, Success, true, Some(SummaryOf(Decide(cfg, w, id))))
  {
    SummaryAgrees(cfg, w, id, logs);
    hide Inv, TriggerOne, Decide, Summarize, Decode, EmittedBy;
  }

  /** The result names the end the contract's own facts called for, with the shortfall's whole price when it was paid. */
  predicate SaysWhy(cfg: Config, w: World, id: Bytes32, r: VolumeResult) {
    var v := VolumeAt(w.reg, id);
    var active := AccountAt(w.reg, v.owner).active;
    && r.id == id && r.status == Success && r.summary.Some?
    && (r.summary.value == SummarySkipped("NoAuth") <==> Standing(w, id) && !active)
    && (r.summary.value == SummarySkipped("PaymentFailed") <==> Due(cfg, w, id) && !DueAndCovered(cfg, w, id))
    && (r.summary.value == Noop <==> Standing(w, id) && active && Shortfall(cfg, w, id) <= 0)
    && (r.summary.value.SummaryRetired? <==> v.status == Active && !Standing(w, id))
    && (r.summary.value.SummaryToppedUp? <==> DueAndCovered(cfg, w, id))
    && (DueAndCovered(cfg, w, id) ==> r.summary.value == SummaryToppedUp(Shortfall(cfg, w, id) * Pow2(v.depth)))
  }

  /** So the report of a mined trigger says why, and is right about it: which of the contract's ends it names is decided by
      the record, the account, the batch and the payer's money. */
  lemma ReportSaysWhy(cfg: Config, w: World, id: Bytes32, logs: seq<Log>, wallet: Wallet, a: Answer)
    requires Inv(cfg, w) && WithinLimits(w) && TriggerOne(cfg, w, id).Ok?
    requires ReceiptOf(cfg, w, TriggerOne(cfg, w, id).value.0, logs) && a.sent == Mined(true, logs)
    requires wallet.nonce.Some? || a.readable
    ensures SaysWhy(cfg, w, id, ResultOf(cfg.registry, wallet, false, a, id))
  {
    hide Inv, IndexInv, IdInv, RecordInv, WithinLimits, TriggerOne, Decide, ReceiptOf, ResultOf, SaysWhy;
    InvFields(cfg, w);
    ResultTellsTheTruth(cfg, w, id, logs, wallet, a);
    if Due(cfg, w, id) {
      ShortfallShifts(cfg, w, id);
    }
    hide Due, DueAndCovered, Standing, Shortfall, SummaryOf;
    SaysWhyOfDecision(cfg, w, id);
  }

  lemma SaysWhyOfDecision(cfg: Config, w: World, id: Bytes32)
    requires Due(cfg, w, id) ==>
               Shl(Shortfall(cfg, w, id), VolumeAt(w.reg, id).depth) == Shortfall(cfg, w, id) * Pow2(VolumeAt(w.reg, id).depth)
    ensures SaysWhy(cfg, w, id, VolumeResult(id, Success, true, Some(SummaryOf(Decide(cfg, w, id)))))
  {
    DecisionOnFields(cfg, w, id);
    DecisionPays(cfg, w, id);
    SummaryNames(Decide(cfg, w, id));
    hide Decide, SummaryOf, Standing, Due, DueAndCovered, Shortfall;
  }

  lemma DecisionPays(cfg: Config, w: World, id: Bytes32)
    requires Due(cfg, w, id) ==>
               Shl(Shortfall(cfg, w, id), VolumeAt(w.reg, id).depth) == Shortfall(cfg, w, id) * Pow2(VolumeAt(w.reg, id).depth)
    ensures DueAndCovered(cfg, w, id) ==>
              Decide(cfg, w, id).Pay? && Decide(cfg, w, id).amount == Shortfall(cfg, w, id) * Pow2(VolumeAt(w.reg, id).depth)
  {
    hide Shl, Pow2;
  }

  lemma SummaryNames(d: Decision)
    ensures SummaryOf(d) == SummarySkipped("NoAuth") <==> d == Skip(NoAuth)
    ensures SummaryOf(d) == SummarySkipped("PaymentFailed") <==> d == Skip(PaymentFailed)
    ensures SummaryOf(d) == Noop <==> d.Enough?
    ensures SummaryOf(d).SummaryRetired? <==> d.Drop?
    ensures SummaryOf(d).SummaryToppedUp? <==> d.Pay?
    ensures d.Pay? ==> SummaryOf(d) == SummaryToppedUp(d.amount)
  {
    if d.Skip? {
      NamesAgreeExactlyWhen(OwnerDeleted, d.skipReason);
      hide NameIn, SkipCode;
      assert "Unknown(3)"[0] == "Unknown(4)"[0] == 'U' && "NoAuth"[0] == 'N' && "PaymentFailed"[0] == 'P';
    }
  }
}
