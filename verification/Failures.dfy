/** Four runs of the registry on which it, or the projection of its log, falls short of what is said of it: an unread
    permit, a revoked owner's dead batch, a price of zero and a volume too deep for the table. */
module Failures {
  import opened Machine
  import opened Chain
  import opened RegistrySpec
  import opened Effects
  import opened History
  import opened Invariants
  import opened Steps
  import opened Runs
  import opened Trigger
  import opened Survival
  import opened EventStore
  import opened Projector
  import opened DailySeries
  import opened Refinement

  // ----- an owner with a confirmed payer ------------------------------------

  const DESIGNATED := Row(1, 10, 1, 0, PayerDesignated(1, 9))
  const ACTIVE := Row(1, 10, 2, 1, AccountActivated(1, 9))

  /** Owner 1, paid for by 9, in the third transaction of block 1. */
  function Ready(token: Token, postage: Postage): World {
    World(Registry(map[], map[1 := 9], map[1 := Account(9, true, 0)], [], 0),
          Env(token, postage, Clock(1, 10, 3, 2), [DESIGNATED, ACTIVE]))
  }

  ghost predicate Deployable(cfg: Config, token: Token) {
    ValidConfig(cfg) && NoAllowance(cfg, token) && Outsider(cfg, 1) && Outsider(cfg, 9)
  }

  lemma OneMoreStep(cfg: Config, ws: seq<World>, ls: seq<Label>, l: Label, w: World)
    requires Run(cfg, ws, ls) && StepOf(cfg, ws[|ws| - 1], l, w)
    ensures Run(cfg, ws + [w], ls + [l])
  {
    hide StepOf, Initial;
    var vs, ms := ws + [w], ls + [l];
    forall i | 0 <= i < |ms|
      ensures StepOf(cfg, vs[i], ms[i], vs[i + 1])
    {
      if i < |ls| {
        assert vs[i] == ws[i] && ms[i] == ls[i] && vs[i + 1] == ws[i + 1];
      }
    }
  }

  /** A designation and its confirmation, each in a transaction of its own. */
  lemma ReadyRun(cfg: Config, token: Token, postage: Postage) returns (ws: seq<World>, ls: seq<Label>)
    requires Deployable(cfg, token)
    ensures Run(cfg, ws, ls) && ws[|ws| - 1] == Ready(token, postage)
  {
    var w0 := World(Registry(map[], map[], map[], [], 0), Env(token, postage, Clock(1, 10, 1, 0), []));
    var w1 := World(Registry(map[], map[1 := 9], map[], [], 0), Env(token, postage, Clock(1, 10, 1, 1), [DESIGNATED]));
    var w2 := w1.(env := w1.env.(clock := Clock(1, 10, 2, 1)));
    var w4 := Ready(token, postage);
    var w3 := w4.(env := w4.env.(clock := Clock(1, 10, 2, 2)));
    assert StepOf(cfg, w0, Invoke(1, CallDesignate(9)), w1);
    assert StepOf(cfg, w2, Invoke(9, CallConfirmAuth(1)), w3) by {
      assert [DESIGNATED] + [ACTIVE] == [DESIGNATED, ACTIVE];
    }
    assert Run(cfg, [w0], []);
    assert StepOf(cfg, w1, Environment, w2) && StepOf(cfg, w3, Environment, w4);
    hide *;
    OneMoreStep(cfg, [w0], [], Invoke(1, CallDesignate(9)), w1);
    OneMoreStep(cfg, [w0] + [w1], [] + [Invoke(1, CallDesignate(9))], Environment, w2);
    ws, ls := [w0] + [w1] + [w2], [] + [Invoke(1, CallDesignate(9))] + [Environment];
    OneMoreStep(cfg, ws, ls, Invoke(9, CallConfirmAuth(1)), w3);
    ws, ls := ws + [w3], ls + [Invoke(9, CallConfirmAuth(1))];
    OneMoreStep(cfg, ws, ls, Environment, w4);
    ws, ls := ws + [w4], ls + [Environment];
  }

  // ----- an import ----------------------------------------------------------

  const ID := Keccak(1, 0)
  const BATCH := Keccak(6, 0)

  /** One batch of 7, holding ten blocks less than the runway at a price of 24000. */
  function OneBatch(depth: nat, outPayment: nat): Postage {
    Postage(map[BATCH := Batch(7, depth, 414480000)], outPayment, 24000, 17280, false)
  }

  function Imported(token: Token, depth: nat): World {
    World(Registry(map[ID := Volume(1, 7, BATCH, 10, 0, depth, Active, 0)], map[1 := 9], map[1 := Account(9, true, 1)],
                   [ID], 0),
          Env(token, OneBatch(depth, 0), Clock(1, 10, 3, 3),
              [DESIGNATED, ACTIVE, Row(1, 10, 3, 2, VolumeImported(ID, 1, BATCH, 7, depth, 0, 414480000))]))
  }

  lemma ImportedRun(cfg: Config, token: Token, depth: nat) returns (ws: seq<World>, ls: seq<Label>)
    requires Deployable(cfg, token) && depth > cfg.minimumBucketDepth
    ensures Run(cfg, ws, ls) && ws[|ws| - 1] == Imported(token, depth)
  {
    ws, ls := ReadyRun(cfg, token, OneBatch(depth, 0));
    ImportStep(cfg, token, depth);
    hide *;
    OneMoreStep(cfg, ws, ls, Invoke(1, CallRegister(BATCH, 0)), Imported(token, depth));
    ws, ls := ws + [Imported(token, depth)], ls + [Invoke(1, CallRegister(BATCH, 0))];
  }

  lemma ImportStep(cfg: Config, token: Token, depth: nat)
    requires Deployable(cfg, token) && depth > cfg.minimumBucketDepth
    ensures StepOf(cfg, Ready(token, OneBatch(depth, 0)), Invoke(1, CallRegister(BATCH, 0)), Imported(token, depth))
  {
    var r := Row(1, 10, 3, 2, VolumeImported(ID, 1, BATCH, 7, depth, 0, 414480000));
    assert [DESIGNATED, ACTIVE] + [r] == [DESIGNATED, ACTIVE, r];
  }

  // ----- an unread permit ---------------------------------------------------

  /** A permit-expiry token behind a deployment that does not read expiries. */
  const UNREAD := Config(100, 101, 102, 17280, false, 16)

  /** The payer's one permit: unlimited, until time 15. */
  const PERMITTED := Token(map[9 := 1000000000000], map[(9, 100) := MAX_UINT256], map[(9, 100) := 15], true, false)

  /** The world one block after the import, past the permit's expiry. */
  function Expired(): World {
    var w := Imported(PERMITTED, 17);
    w.(env := w.env.(postage := OneBatch(17, 24000), clock := Clock(2, 20, 4, 0)))
  }

  lemma ExpiredRun() returns (ws: seq<World>, ls: seq<Label>)
    ensures Run(UNREAD, ws, ls) && ws[|ws| - 1] == Expired()
  {
    ws, ls := ImportedRun(UNREAD, PERMITTED, 17);
    assert StepOf(UNREAD, Imported(PERMITTED, 17), Environment, Expired());
    hide *;
    OneMoreStep(UNREAD, ws, ls, Environment, Expired());
    ws, ls := ws + [Expired()], ls + [Environment];
  }

  lemma ShortfallOfEleven(depth: nat)
    requires depth == 17
    ensures Shl(24000 * 11, depth) == 34603008000
  {
    Pow2Add(8, 9);
    assert Pow2(8) == 256 && Pow2(9) == 512;
  }

  lemma ExpiredInService()
    ensures WithinLimits(Expired()) && !OutOfService(UNREAD, Expired())
  {
  }

  lemma ExpiredWouldFail()
    ensures WouldFail(UNREAD, Expired(), ID)
  {
    ShortfallOfEleven(17);
    hide Shl, OutOfService;
    assert Remaining(OneBatch(17, 24000), BATCH) == 24000 * 17269;
    assert Target(UNREAD, OneBatch(17, 24000)) - 24000 * 17269 == 24000 * 11;
  }

  /** A run in full service in whose last state a trigger reverts, on an expired unlimited permit alone. */
  lemma UnreadPermitReverts() returns (ws: seq<World>, ls: seq<Label>)
    ensures Run(UNREAD, ws, ls)
    ensures var w := ws[|ws| - 1];
            !OutOfService(UNREAD, w) && TriggerOne(UNREAD, w, ID).Revert? && TriggerMany(UNREAD, w, [ID]).Revert?
  {
    ws, ls := ExpiredRun();
    ExpiredInService();
    ExpiredWouldFail();
    hide *;
    RunNotEmpty(UNREAD, ws, ls);
    InvAlways(UNREAD, ws, ls, |ws| - 1);
    TriggerRevertsExactlyWhen(UNREAD, Expired(), ID);
    TriggerOneAsMany(UNREAD, Expired(), ID);
  }

  lemma RunNotEmpty(cfg: Config, ws: seq<World>, ls: seq<Label>)
    requires Run(cfg, ws, ls)
    ensures |ws| == |ls| + 1
  {
  }

  // ----- a revoked owner's dead batch -----------------------------------------

  const READING := Config(100, 101, 102, 17280, true, 16)

  const NO_FUNDS := Token(map[], map[], map[], true, false)

  /** The import's batch run dry, one block later. */
  function Dried(): World {
    var w := Imported(NO_FUNDS, 17);
    w.(env := w.env.(postage := OneBatch(17, 414480000), clock := Clock(2, 20, 4, 0)))
  }

  lemma DriedSteps()
    ensures StepOf(READING, Imported(NO_FUNDS, 17), Environment, Dried())
    ensures Revoke(Dried(), 9, 1).Ok? && StepOf(READING, Dried(), Invoke(9, CallRevoke(1)), Revoke(Dried(), 9, 1).value)
  {
    assert AccountAt(Dried().reg, 1) == Account(9, true, 1);
  }

  lemma DriedIsDead()
    ensures Revoke(Dried(), 9, 1).Ok?
    ensures var w := Revoke(Dried(), 9, 1).value;
            && !AccountAt(w.reg, 1).active && VolumeAt(w.reg, ID).owner == 1 && VolumeAt(w.reg, ID).status == Active
            && Decide(READING, w, ID) == Drop(BatchDied)
  {
  }

  /** A run in whose last state the payer has just revoked, and a trigger of the owner's one volume does not log NoAuth:
      its batch has died, and it is retired. */
  lemma RevokedButRetired() returns (ws: seq<World>, ls: seq<Label>)
    ensures Run(READING, ws, ls) && |ls| > 0 && ls[|ls| - 1] == Invoke(9, CallRevoke(1))
    ensures var w := ws[|ls|];
            && !AccountAt(w.reg, 1).active && VolumeAt(w.reg, ID).owner == 1 && VolumeAt(w.reg, ID).status == Active
            && TriggerOne(READING, w, ID).Ok?
            && TriggerOne(READING, w, ID).value.0.env == EmitEnv(w.env, VolumeRetired(ID, BatchDied))
  {
    ReadingDeployable();
    DriedSteps();
    DriedIsDead();
    ws, ls := ImportedRun(READING, NO_FUNDS, 17);
    hide *;
    var w := Revoke(Dried(), 9, 1).value;
    OneMoreStep(READING, ws, ls, Environment, Dried());
    ws, ls := ws + [Dried()], ls + [Environment];
    OneMoreStep(READING, ws, ls, Invoke(9, CallRevoke(1)), w);
    ws, ls := ws + [w], ls + [Invoke(9, CallRevoke(1))];
    RunNotEmpty(READING, ws, ls);
    InvAlways(READING, ws, ls, |ws| - 1);
    DropRetires(READING, w, ID, BatchDied);
  }

  lemma DropRetires(cfg: Config, w: World, id: Bytes32, reason: RetireReason)
    requires Inv(cfg, w) && VolumeAt(w.reg, id).status == Active && Decide(cfg, w, id) == Drop(reason)
    ensures TriggerOne(cfg, w, id).Ok? && TriggerOne(cfg, w, id).value.0.env == EmitEnv(w.env, VolumeRetired(id, reason))
  {
    hide Inv, IndexInv, IdInv, RecordInv, Retire, Decide;
    InvFields(cfg, w);
    RetireEffect(w, id, reason);
  }

  // ----- a price of zero ----------------------------------------------------

  /** PostageStamp at a price of zero, with payments behind it. */
  const FREE := Postage(map[], 24000, 0, 17280, false)

  /** At a price of zero the creation goes through, for nothing, and the volume is Active over a batch already dead. */
  lemma BornDead() returns (ws: seq<World>, ls: seq<Label>)
    ensures Run(READING, ws, ls) && |ls| > 0 && ls[|ls| - 1] == Invoke(1, CallCreate(7, 17, 16, 0))
    ensures CreateVolume(READING, ws[|ls| - 1], 1, 7, 17, 16, 0).Ok?
    ensures var (w, id) := CreateVolume(READING, ws[|ls| - 1], 1, 7, 17, 16, 0).value;
            && w == ws[|ls|] && VolumeAt(w.reg, id).status == Active
            && VolumeAt(w.reg, id).batchId in w.env.postage.batches && !Live(w.env.postage, VolumeAt(w.reg, id).batchId)
  {
    var call := CallCreate(7, 17, 16, 0);
    var w := Ready(NO_FUNDS, FREE);
    ReadingDeployable();
    CreatesForNothing();
    ReadyHasRoom();
    hide *;
    ws, ls := ReadyRun(READING, NO_FUNDS, FREE);
    RunNotEmpty(READING, ws, ls);
    InvAlways(READING, ws, ls, |ws| - 1);
    CreationFunds(READING, w, 1, 7, 17, 16, 0);
    var w' := CreateVolume(READING, w, 1, 7, 17, 16, 0).value.0;
    CreationStep(READING, w);
    OneMoreStep(READING, ws, ls, Invoke(1, call), w');
    ws, ls := ws + [w'], ls + [Invoke(1, call)];
  }

  lemma ReadingDeployable()
    ensures Deployable(READING, NO_FUNDS)
  {
  }

  lemma ReadyHasRoom()
    ensures Outsider(READING, 1) && HasRoom(Ready(NO_FUNDS, FREE), 1)
  {
  }

  lemma PullsNothing()
    ensures PullAndApprove(READING, Ready(NO_FUNDS, FREE), 9, 0).Ok?
    ensures var w' := PullAndApprove(READING, Ready(NO_FUNDS, FREE), 9, 0).value;
            && w' == Ready(NO_FUNDS, FREE).(env := w'.env) && w'.env == Ready(NO_FUNDS, FREE).env.(token := w'.env.token)
            && TransferFrom(w'.env.token, 10, READING.stamp, READING.registry, READING.stamp, 0).Ok?
  {
  }

  lemma MintsForNothing(depth: nat)
    requires depth == 17
    ensures MintBatch(READING, Ready(NO_FUNDS, FREE), 9, 7, 0, 0, depth, 16).Ok?
    ensures var w' := MintBatch(READING, Ready(NO_FUNDS, FREE), 9, 7, 0, 0, depth, 16).value.0;
            w'.env.postage.lastPrice == 0 && w'.reg == Ready(NO_FUNDS, FREE).reg.(nextNonce := 1)
  {
    PullsNothing();
    hide PullAndApprove, TransferFrom;
    assert 0 * Pow2(depth) == 0;
    hide Pow2;
  }

  lemma CreatesForNothing()
    ensures CreateVolume(READING, Ready(NO_FUNDS, FREE), 1, 7, 17, 16, 0).Ok?
    ensures Target(READING, CreateVolume(READING, Ready(NO_FUNDS, FREE), 1, 7, 17, 16, 0).value.0.env.postage) == 0
  {
    MintsForNothing(17);
    assert Target(READING, FREE) == 0 && 0 * Pow2(17) == 0 && Shl(0, 17) == 0;
    hide MintBatch, Shl;
  }

  lemma CreationStep(cfg: Config, w: World)
    requires Outsider(cfg, 1) && HasRoom(w, 1) && CreateVolume(cfg, w, 1, 7, 17, 16, 0).Ok?
    ensures StepOf(cfg, w, Invoke(1, CallCreate(7, 17, 16, 0)), CreateVolume(cfg, w, 1, 7, 17, 16, 0).value.0)
  {
    hide CreateVolume, HasRoom;
  }

  // ----- a volume too deep --------------------------------------------------

  /** One live batch of depth 42, one past the table, imported: the projection of the log has no entry. */
  lemma TooDeepToProject() returns (ws: seq<World>, ls: seq<Label>)
    ensures Run(READING, ws, ls)
    ensures var w := ws[|ws| - 1];
            && VolumeAt(w.reg, ID).status == Active && VolumeAt(w.reg, ID).depth == 42
            && Live(w.env.postage, VolumeAt(w.reg, ID).batchId)
            && !DepthsTabled(FromRows(w.env.log), w.env.clock.now)
  {
    ws, ls := ImportedRun(READING, NO_FUNDS, 42);
    var w := Imported(NO_FUNDS, 42);
    assert VolumeAt(w.reg, ID).status == Active && VolumeAt(w.reg, ID).depth == 42;
    assert Live(w.env.postage, VolumeAt(w.reg, ID).batchId);
    assert w.env.clock.now == 10;
    DeepOnItsDay(ws, ls);
  }

  lemma DeepOnItsDay(ws: seq<World>, ls: seq<Label>)
    requires Run(READING, ws, ls) && ws[|ws| - 1] == Imported(NO_FUNDS, 42)
    ensures !DepthsTabled(FromRows(Imported(NO_FUNDS, 42).env.log), 10)
  {
    var w := Imported(NO_FUNDS, 42);
    var events := FromRows(w.env.log);
    assert Day(10) == 0 && DayEnd(0, 10) == 10 && VolumeAt(w.reg, ID).depth == 42 && !Tabled(42);
    assert LastMomentBy(ws, |ws| - 1, 10) && VolumeAt(w.reg, ID).status == Active;
    hide Run, FromRows, Of, TakeUntil, VolumesIn, FirstDay, OwnersIn, Tabled, Imported;
    ReplayIsTheContract(READING, ws, ls, |ws| - 1, w.env.log, 10);
    FirstDayIsFirst(Of(events, ADMITS), 10);
    assert ActiveOn(events, 0, 10)[ID] == 42;
    assert !AllTabled(ActiveOn(events, 0, 10));
  }
}
