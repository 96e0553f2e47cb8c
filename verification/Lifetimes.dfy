/** Ids, records and the keeper's calls over whole runs. */
module Lifetimes {
  import opened Machine
  import opened Chain
  import opened RegistrySpec
  import opened Effects
  import opened Invariants
  import opened Steps
  import opened Runs
  import opened Trigger
  import opened Idempotence

  // ----- ids ----------------------------------------------------------------

  /** How many of the first i steps were successful creating calls by `owner`. */
  ghost function Creations(cfg: Config, ws: seq<World>, ls: seq<Label>, owner: Addr, i: nat): nat
    requires |ws| == |ls| + 1 && i <= |ls|
  {
    if i == 0 then 0
    else
      var l := ls[i - 1];
      Creations(cfg, ws, ls, owner, i - 1)
      + if l.Invoke? && l.caller == owner && IsCreating(l.call) && Exec(cfg, ws[i - 1], owner, l.call).Ok? then 1 else 0
  }

  /** Over every run an owner's nonce is the number of its own successful creating calls, the ids issued to it are
      exactly the hashes of (owner, k) for k below that number, and the next one is always free. */
  lemma {:induction false} IdsCountCreations(cfg: Config, ws: seq<World>, ls: seq<Label>, owner: Addr, i: nat)
    requires Run(cfg, ws, ls) && i <= |ls|
    ensures AccountAt(ws[i].reg, owner).nonce == Creations(cfg, ws, ls, owner, i)
    ensures forall id :: VolumeAt(ws[i].reg, id).status != Absent && VolumeAt(ws[i].reg, id).owner == owner ==>
              id.Keccak? && id == Keccak(owner, id.salt) && id.salt < Creations(cfg, ws, ls, owner, i)
    ensures forall k: nat :: k < Creations(cfg, ws, ls, owner, i) ==>
              VolumeAt(ws[i].reg, Keccak(owner, k)).status != Absent
    ensures VolumeAt(ws[i].reg, Keccak(owner, Creations(cfg, ws, ls, owner, i))).status == Absent
  {
    NonceIsCreations(cfg, ws, ls, owner, i);
    InvAlways(cfg, ws, ls, i);
    hide StepOf, Creations, IndexInv, RecordInv, AuthReplay, VolumeReplay, ClockInv, LogInv;
    NoCollision(ws[i].reg, owner);
  }

  lemma {:induction false} NonceIsCreations(cfg: Config, ws: seq<World>, ls: seq<Label>, owner: Addr, i: nat)
    requires Run(cfg, ws, ls) && i <= |ls|
    ensures AccountAt(ws[i].reg, owner).nonce == Creations(cfg, ws, ls, owner, i)
  {
    hide Inv, Apply, Exec;
    if i > 0 {
      NonceIsCreations(cfg, ws, ls, owner, i - 1);
      InvAlways(cfg, ws, ls, i - 1);
      assert StepOf(cfg, ws[i - 1], ls[i - 1], ws[i]);
      if ls[i - 1].Invoke? {
        NonceCountsCreatingCalls(cfg, ws[i - 1], ls[i - 1].caller, ls[i - 1].call, owner);
      }
    }
  }

  // ----- non-interference ---------------------------------------------------

  /** A recorded volume no step is about stays as it is, whatever happens to the others, but for its index position. */
  lemma {:induction false} LeftAloneStaysPut(cfg: Config, ws: seq<World>, ls: seq<Label>, id: Bytes32, i: nat, j: nat)
    requires Run(cfg, ws, ls) && i <= j < |ws| && VolumeAt(ws[i].reg, id).status != Absent
    requires forall k :: i <= k < j && ls[k].Invoke? ==> !About(ls[k].call, id)
    ensures Untouched(ws[i].reg, ws[j].reg, id)
    decreases j
  {
    hide Inv, Apply, About, RecordsKept;
    if i < j {
      LeftAloneStaysPut(cfg, ws, ls, id, i, j - 1);
      InvAlways(cfg, ws, ls, j - 1);
      assert StepOf(cfg, ws[j - 1], ls[j - 1], ws[j]);
      if ls[j - 1].Invoke? {
        OtherVolumesUntouched(cfg, ws[j - 1], ls[j - 1].caller, ls[j - 1].call, id);
      }
    }
  }

  // ----- the keeper's calls -------------------------------------------------

  /** In every reachable state: a trigger goes through if and only if it would not pay while blocked; a list of triggers
      when none of its own would, and, where no permit expires unread, only then; and a reap always. */
  lemma KeeperCallsNeverRevert(cfg: Config, ws: seq<World>, ls: seq<Label>, i: nat, id: Bytes32, ids: seq<Bytes32>)
    requires Run(cfg, ws, ls) && i < |ws| && WithinLimits(ws[i])
    ensures TriggerOne(cfg, ws[i], id).Ok? <==> !WouldFail(cfg, ws[i], id)
    ensures (forall other :: other in ids ==> !WouldFail(cfg, ws[i], other)) ==> TriggerMany(cfg, ws[i], ids).Ok?
    ensures ReadsPermits(cfg, ws[i]) ==>
              (TriggerMany(cfg, ws[i], ids).Ok? <==> forall other :: other in ids ==> !WouldFail(cfg, ws[i], other))
    ensures Reap(ws[i], id).Ok?
  {
    hide StepOf, Inv, WithinLimits, WouldFail, TriggerOne, TriggerMany, Reap, ReadsPermits;
    InvAlways(cfg, ws, ls, i);
    TriggerRevertsExactlyWhen(cfg, ws[i], id);
    if forall other :: other in ids ==> !WouldFail(cfg, ws[i], other) {
      TriggerManyNeverReverts(cfg, ws[i], ids);
    }
    if ReadsPermits(cfg, ws[i]) {
      ListRevertsExactlyWhen(cfg, ws[i], ids);
    }
    ReapNeverReverts(cfg, ws[i], id);
  }

  // ----- retirement ---------------------------------------------------------

  /** A volume with nothing left to keep: its batch dead, owned by another signer or of another depth, or its time up. */
  predicate Lapsed(w: World, id: Bytes32) {
    var v, p := VolumeAt(w.reg, id), w.env.postage;
    || !Live(p, v.batchId)
    || p.batches[v.batchId].owner != v.chunkSigner
    || p.batches[v.batchId].depth != v.depth
    || TtlPassed(v, w.env.clock.now)
  }

  /** The calls that end a volume's life, and when. */
  predicate Ends(w: World, caller: Addr, call: Call, id: Bytes32) {
    match call
    case CallDelete(target) => target == id && caller == VolumeAt(w.reg, id).owner
    case CallReap(target) => target == id && TtlPassed(VolumeAt(w.reg, id), w.env.clock.now)
    case CallTrigger(target) => target == id && Lapsed(w, id)
    case CallTriggerMany(ids) => id in ids && Lapsed(w, id)
    case _ => false
  }

  /** A trigger retires exactly its own volume, exactly when it has lapsed. */
  lemma TriggerEndsExactlyWhen(cfg: Config, w: World, other: Bytes32, id: Bytes32)
    requires Inv(cfg, w) && TriggerOne(cfg, w, other).Ok? && VolumeAt(w.reg, id).status == Active
    ensures var status := VolumeAt(TriggerOne(cfg, w, other).value.0.reg, id).status;
            status == if other == id && Lapsed(w, id) then Retired else Active
  {
    TriggerWrites(cfg, w, other);
    OutcomeOfLapse(cfg, w, id);
    hide Inv, TriggerOne, PayEffect, Decide, Lapsed;
  }

  lemma OutcomeOfLapse(cfg: Config, w: World, id: Bytes32)
    requires VolumeAt(w.reg, id).status == Active
    ensures Decide(cfg, w, id).Drop? <==> Lapsed(w, id)
  {
  }

  /** A retirement names the first cause that holds: a dead batch before its owner, its owner before its depth, its depth
      before the volume's own time. */
  lemma FirstCauseIsNamed(cfg: Config, w: World, id: Bytes32)
    requires Inv(cfg, w) && VolumeAt(w.reg, id).status == Active && Lapsed(w, id)
    ensures TriggerOne(cfg, w, id).Ok?
    ensures var v, p := VolumeAt(w.reg, id), w.env.postage;
            TriggerOne(cfg, w, id).value.0.env ==
            EmitEnv(w.env, VolumeRetired(id, if !Live(p, v.batchId) then BatchDied
                                             else if p.batches[v.batchId].owner != v.chunkSigner then BatchOwnerMismatch
                                             else if p.batches[v.batchId].depth != v.depth then DepthChanged
                                             else VolumeExpired))
  {
    RetireEffect(w, id, BatchDied);
    RetireEffect(w, id, BatchOwnerMismatch);
    RetireEffect(w, id, DepthChanged);
    RetireEffect(w, id, VolumeExpired);
    hide Retire, Retires, Inv;
  }

  /** Nothing a trigger does makes another Active volume lapse, or saves one that has. */
  lemma LapseStays(cfg: Config, w: World, other: Bytes32, id: Bytes32)
    requires Inv(cfg, w) && TriggerOne(cfg, w, other).Ok?
    ensures Lapsed(TriggerOne(cfg, w, other).value.0, id) <==> Lapsed(w, id)
  {
    hide Inv, TriggerOne, PaidThrough, Decide, Lapsed, Live, SameIdentity, RaisedBy, Target, AccountAt, Pow2;
    TriggerKeepsRecord(cfg, w, other, id);
    ChargeIsTheFormula(cfg, w, other);
    var (w', outcome) := TriggerOne(cfg, w, other).value;
    var batchId := VolumeAt(w.reg, other).batchId;
    if outcome == ToppedUp {
      LapseFrame(w, w', id, batchId, Target(cfg, w.env.postage) - Remaining(w.env.postage, batchId));
    } else {
      SamePostageSameLapse(w, w', id);
    }
  }

  lemma TriggerKeepsRecord(cfg: Config, w: World, other: Bytes32, id: Bytes32)
    requires Inv(cfg, w) && TriggerOne(cfg, w, other).Ok?
    ensures var w' := TriggerOne(cfg, w, other).value.0;
            SameIdentity(VolumeAt(w.reg, id), VolumeAt(w'.reg, id)) && w'.env.clock.now == w.env.clock.now
  {
    TriggerWrites(cfg, w, other);
    hide Inv, TriggerOne, PaidThrough, Decide, Retires;
  }

  lemma LapseFrame(w: World, w': World, id: Bytes32, batchId: Bytes32, perChunk: nat)
    requires SameIdentity(VolumeAt(w.reg, id), VolumeAt(w'.reg, id)) && w'.env.clock.now == w.env.clock.now
    requires Live(w.env.postage, batchId) && w'.env.postage == RaisedBy(w.env.postage, batchId, perChunk)
    ensures Lapsed(w', id) <==> Lapsed(w, id)
  {
  }

  lemma SamePostageSameLapse(w: World, w': World, id: Bytes32)
    requires SameIdentity(VolumeAt(w.reg, id), VolumeAt(w'.reg, id)) && w'.env.clock.now == w.env.clock.now
    requires w'.env.postage == w.env.postage
    ensures Lapsed(w', id) <==> Lapsed(w, id)
  {
  }

  lemma {:induction false} TriggersEndExactlyWhen(cfg: Config, w: World, ids: seq<Bytes32>, id: Bytes32)
    requires Inv(cfg, w) && TriggerMany(cfg, w, ids).Ok? && VolumeAt(w.reg, id).status == Active
    ensures var w' := TriggerMany(cfg, w, ids).value;
            && VolumeAt(w'.reg, id).status == (if id in ids && Lapsed(w, id) then Retired else Active)
            && (Lapsed(w', id) <==> Lapsed(w, id))
    decreases |ids|
  {
    hide Inv, TriggerOne, Keeps, Lapsed;
    if ids != [] {
      var init, last := ids[..|ids| - 1], ids[|ids| - 1];
      assert ids == init + [last];
      var mid := TriggerMany(cfg, w, init).value;
      TriggersEndExactlyWhen(cfg, w, init, id);
      TriggerManyGood(cfg, w, init);
      LapseStays(cfg, mid, last, id);
      if VolumeAt(mid.reg, id).status == Active {
        TriggerEndsExactlyWhen(cfg, mid, last, id);
      } else {
        RetiredStays(cfg, mid, last, id);
      }
    }
  }

  lemma RetiredStays(cfg: Config, w: World, other: Bytes32, id: Bytes32)
    requires Inv(cfg, w) && TriggerOne(cfg, w, other).Ok? && VolumeAt(w.reg, id).status == Retired
    ensures VolumeAt(TriggerOne(cfg, w, other).value.0.reg, id).status == Retired
  {
    TriggerGood(cfg, w, other);
    hide Inv, TriggerOne;
  }

  /** An Active volume is retired by a call if and only if the call goes through and is one that ends it: its owner's
      delete, a reap past its time, or a trigger once it has lapsed. */
  lemma RetiredExactlyWhen(cfg: Config, w: World, caller: Addr, call: Call, id: Bytes32)
    requires Inv(cfg, w) && Outsider(cfg, caller) && HasRoom(w, caller)
    requires VolumeAt(w.reg, id).status == Active
    ensures VolumeAt(Apply(cfg, w, caller, call).reg, id).status ==
            if Exec(cfg, w, caller, call).Ok? && Ends(w, caller, call, id) then Retired else Active
  {
    assert IndexInv(w.reg);
    if Exec(cfg, w, caller, call).Ok? {
      if !About(call, id) {
        OtherVolumesUntouched(cfg, w, caller, call, id);
        hide Inv, Exec, Apply, IndexInv;
      } else {
        hide Inv, TriggerOne, TriggerMany, Retire, IndexInv, Lapsed, Outsider, HasRoom;
        match call
        case CallDelete(_) => RetireEffect(w, id, OwnerDeleted);
        case CallReap(_) => RetireEffect(w, id, VolumeExpired);
        case CallTrigger(_) => TriggerEndsExactlyWhen(cfg, w, id, id);
        case CallTriggerMany(ids) => TriggersEndExactlyWhen(cfg, w, ids, id);
      }
    }
  }
}
