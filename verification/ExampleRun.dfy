/** A short run of the registry: two owners import a batch each, and one keeper call tops both batches up. */
module ExampleRun {
  import opened Machine
  import opened Chain
  import opened RegistrySpec
  import opened Effects
  import opened History
  import opened Invariants
  import opened Steps
  import opened Runs
  import opened Trigger
  import opened Idempotence

  const CFG := Config(100, 101, 102, 17280, true, 16)

  const ID_1 := Keccak(1, 0)
  const ID_2 := Keccak(2, 0)
  const BATCH_1 := Keccak(6, 0)
  const BATCH_2 := Keccak(6, 1)

  /** Funds ten blocks short of the runway at a price of 24000, and one block more has passed when the keeper comes. */
  const FUNDS: nat := 24000 * 17270
  const DEFICIT: nat := 24000 * 11
  const FEE: nat := DEFICIT * 131072

  // Two designations, two confirmations and two imports in block 1; one keeper call in block 2.
  const DESIGNATED_1 := Row(1, 10, 1, 0, PayerDesignated(1, 9))
  const DESIGNATED_2 := Row(1, 10, 2, 1, PayerDesignated(2, 9))
  const ACTIVE_1 := Row(1, 10, 3, 2, AccountActivated(1, 9))
  const ACTIVE_2 := Row(1, 10, 4, 3, AccountActivated(2, 9))
  const IMPORTED_1 := Row(1, 10, 5, 4, VolumeImported(ID_1, 1, BATCH_1, 7, 17, 0, FUNDS))
  const IMPORTED_2 := Row(1, 10, 6, 5, VolumeImported(ID_2, 2, BATCH_2, 7, 17, 0, FUNDS))
  const FEE_1 := Row(2, 20, 7, 0, FeeTransfer(FEE))
  const TOPPED_1 := Row(2, 20, 7, 1, Toppedup(ID_1, FEE, FUNDS + DEFICIT))
  const FEE_2 := Row(2, 20, 7, 2, FeeTransfer(FEE))
  const TOPPED_2 := Row(2, 20, 7, 3, Toppedup(ID_2, FEE, FUNDS + DEFICIT))

  const CHAIN: seq<Row> := [DESIGNATED_1, DESIGNATED_2, ACTIVE_1, ACTIVE_2, IMPORTED_1, IMPORTED_2,
                            FEE_1, TOPPED_1, FEE_2, TOPPED_2]

  // ----- the moments --------------------------------------------------------

  const TOKEN := Token(map[9 := 1000000000000], map[(9, 100) := 1000000000000], map[], true, false)

  function PostageAt(outPayment: nat): Postage {
    Postage(map[BATCH_1 := Batch(7, 17, FUNDS), BATCH_2 := Batch(7, 17, FUNDS)], outPayment, 24000, 17280, false)
  }

  const VOLUME_1 := Volume(1, 7, BATCH_1, 10, 0, 17, Active, 0)
  const VOLUME_2 := Volume(2, 7, BATCH_2, 10, 0, 17, Active, 1)

  /** The registry after the first k of six calls. */
  function RegistryAfter(k: nat): Registry
    requires k <= 6
  {
    match k
    case 0 => Registry(map[], map[], map[], [], 0)
    case 1 => Registry(map[], map[1 := 9], map[], [], 0)
    case 2 => Registry(map[], map[1 := 9, 2 := 9], map[], [], 0)
    case 3 => Registry(map[], map[1 := 9, 2 := 9], map[1 := Account(9, true, 0)], [], 0)
    case 4 => Registry(map[], map[1 := 9, 2 := 9], map[1 := Account(9, true, 0), 2 := Account(9, true, 0)], [], 0)
    case 5 => Registry(map[ID_1 := VOLUME_1], map[1 := 9, 2 := 9],
                       map[1 := Account(9, true, 1), 2 := Account(9, true, 0)], [ID_1], 0)
    case _ => Registry(map[ID_1 := VOLUME_1, ID_2 := VOLUME_2], map[1 := 9, 2 := 9],
                       map[1 := Account(9, true, 1), 2 := Account(9, true, 1)], [ID_1, ID_2], 0)
  }

  function CallAt(k: nat): Label
    requires k < 6
  {
    match k
    case 0 => Invoke(1, CallDesignate(9))
    case 1 => Invoke(2, CallDesignate(9))
    case 2 => Invoke(9, CallConfirmAuth(1))
    case 3 => Invoke(9, CallConfirmAuth(2))
    case 4 => Invoke(1, CallRegister(BATCH_1, 0))
    case _ => Invoke(2, CallRegister(BATCH_2, 0))
  }

  /** In block 1, in transaction tx, after k calls. */
  function InBlockOne(k: nat, tx: nat): World
    requires k <= 6
  {
    World(RegistryAfter(k), Env(TOKEN, PostageAt(0), Clock(1, 10, tx, k), CHAIN[..k]))
  }

  const BEFORE_KEEPER: World := World(RegistryAfter(6), Env(TOKEN, PostageAt(24000), Clock(2, 20, 7, 0), CHAIN[..6]))

  function KeeperCall(): Call {
    CallTriggerMany([ID_1, ID_2])
  }

  /** Each call in a transaction of its own, the chain moving on in between. */
  function Moment(i: nat): World
    requires i <= 13
  {
    if i < 12 then InBlockOne((i + 1) / 2, i / 2 + 1)
    else if i == 12 then BEFORE_KEEPER
    else Apply(CFG, BEFORE_KEEPER, 5, KeeperCall())
  }

  function Step(i: nat): Label
    requires i < 13
  {
    if i == 12 then Invoke(5, KeeperCall()) else if i % 2 == 0 then CallAt(i / 2) else Environment
  }

  function Moments(): seq<World> {
    seq(14, i requires 0 <= i < 14 => Moment(i))
  }

  function Labels(): seq<Label> {
    seq(13, i requires 0 <= i < 13 => Step(i))
  }

  lemma AccountStep(k: nat)
    requires k < 4
    ensures StepOf(CFG, InBlockOne(k, k + 1), CallAt(k), InBlockOne(k + 1, k + 1))
  {
    assert CHAIN[..k + 1] == CHAIN[..k] + [CHAIN[k]];
  }

  lemma ImportStep(k: nat)
    requires k == 4 || k == 5
    ensures StepOf(CFG, InBlockOne(k, k + 1), CallAt(k), InBlockOne(k + 1, k + 1))
  {
    assert CHAIN[..k + 1] == CHAIN[..k] + [CHAIN[k]];
  }

  lemma EnvironmentStep(k: nat)
    requires 1 <= k <= 6
    ensures k < 6 ==> StepOf(CFG, InBlockOne(k, k), Environment, InBlockOne(k, k + 1))
    ensures k == 6 ==> StepOf(CFG, InBlockOne(6, 6), Environment, BEFORE_KEEPER)
  {
  }

  lemma KeeperStep()
    ensures StepOf(CFG, Moment(12), Step(12), Moment(13))
  {
    hide Apply;
  }

  /** It is a run of the registry: every call is one the contract carries out, and every row but the last four is its. */
  lemma IsRun()
    ensures Run(CFG, Moments(), Labels())
  {
    hide StepOf, Apply, InBlockOne, CallAt;
    forall i: nat | i < 13
      ensures StepOf(CFG, Moment(i), Step(i), Moment(i + 1))
    {
      if i == 12 {
        KeeperStep();
      } else if i % 2 == 0 {
        if i < 8 {
          AccountStep(i / 2);
        } else {
          ImportStep(i / 2);
        }
      } else {
        EnvironmentStep((i + 1) / 2);
      }
    }
    FirstMoment();
  }

  lemma FirstMoment()
    ensures Initial(CFG, Moment(0))
  {
  }

  // ----- the keeper's call --------------------------------------------------

  /** What a payment for one of the two batches needs of the world. */
  ghost predicate Ready(w: World, id: Bytes32) {
    && w.reg == RegistryAfter(6) && Inv(CFG, w) && WithinLimits(w) && !OutOfService(CFG, w)
    && w.env.postage.outPayment == 24000 && w.env.postage.lastPrice == 24000
    && VolumeAt(w.reg, id).batchId in w.env.postage.batches
    && w.env.postage.batches[VolumeAt(w.reg, id).batchId] == Batch(7, 17, FUNDS)
    && BalanceOf(w.env.token, 9) >= FEE && FEE <= Allowance(w.env.token, 9, 100) < MAX_UINT256
  }

  lemma FeeOfDeficit(depth: nat)
    requires depth == 17
    ensures Shl(DEFICIT, depth) == FEE
  {
    Pow2Add(8, 9);
    assert Pow2(8) == 256 && Pow2(9) == 512;
  }

  lemma Imported(reg: Registry, id: Bytes32)
    requires reg == RegistryAfter(6) && (id == ID_1 || id == ID_2)
    ensures var v := VolumeAt(reg, id);
            && v.status == Active && v.chunkSigner == 7 && v.depth == 17
            && AccountAt(reg, v.owner).active && AccountAt(reg, v.owner).payer == 9 && v.ttlExpiry == 0
  {
  }

  lemma Numbers(w: World, id: Bytes32)
    requires Ready(w, id)
    ensures var batchId := VolumeAt(w.reg, id).batchId;
            && Live(w.env.postage, batchId) && w.env.postage.batches[batchId] == Batch(7, 17, FUNDS)
            && Remaining(w.env.postage, batchId) < Target(CFG, w.env.postage)
            && Target(CFG, w.env.postage) - Remaining(w.env.postage, batchId) == DEFICIT
    ensures CanPull(CFG, w.env, 9, FEE) && !PermitExpired(w.env.token, w.env.clock.now, 9, CFG.registry)
  {
    hide Inv, WithinLimits, RegistryAfter, VolumeAt, OutOfService;
  }

  lemma WillPay(w: World, id: Bytes32)
    requires Ready(w, id) && (id == ID_1 || id == ID_2)
    ensures Decide(CFG, w, id) == Pay(9, DEFICIT, FEE) && !WouldFail(CFG, w, id)
  {
    assert w.reg == RegistryAfter(6) && !OutOfService(CFG, w);
    Imported(w.reg, id);
    FeeOfDeficit(VolumeAt(w.reg, id).depth);
    Numbers(w, id);
    hide Ready, Shl, RegistryAfter, VolumeAt, AccountAt, OutOfService, CanPull, Live, Remaining, Target, PermitExpired;
  }

  lemma PayWritesRows(w: World, id: Bytes32)
    requires Inv(CFG, w) && TriggerOne(CFG, w, id).Ok? && Decide(CFG, w, id) == Pay(9, DEFICIT, FEE)
    ensures PayEffect(CFG, w, id, 9, DEFICIT, FEE, TriggerOne(CFG, w, id).value.0)
  {
    hide Inv, Decide, PayEffect, TriggerFrame, Retires, TriggerOne;
    OutcomeFollowsDecision(CFG, w, id);
    TriggerWrites(CFG, w, id);
  }

  lemma PaysOk(w: World, id: Bytes32)
    requires Inv(CFG, w) && WithinLimits(w) && !WouldFail(CFG, w, id)
    ensures TriggerOne(CFG, w, id).Ok?
    ensures var w' := TriggerOne(CFG, w, id).value.0; Inv(CFG, w') && WithinLimits(w')
  {
    hide Inv, WithinLimits, WouldFail, TriggerOne, Blocked, Keeps;
    TriggerRevertsExactlyWhen(CFG, w, id);
    TriggerKeepsService(CFG, w, id, 9);
    TriggerGood(CFG, w, id);
  }

  /** A ready batch is topped up: two rows, and 9 pays the fee. */
  lemma Pays(w: World, id: Bytes32)
    requires Ready(w, id) && (id == ID_1 || id == ID_2)
    ensures TriggerOne(CFG, w, id).Ok?
    ensures var w' := TriggerOne(CFG, w, id).value.0;
            && PayEffect(CFG, w, id, 9, DEFICIT, FEE, w') && Inv(CFG, w') && WithinLimits(w')
  {
    WillPay(w, id);
    ReadyIsGood(w, id);
    hide *;
    PaysOk(w, id);
    PayWritesRows(w, id);
  }

  lemma ReadyIsGood(w: World, id: Bytes32)
    requires Ready(w, id)
    ensures Inv(CFG, w) && WithinLimits(w)
  {
  }

  lemma KeeperInv()
    ensures Inv(CFG, BEFORE_KEEPER)
  {
    IsRun();
    assert Moments()[12] == BEFORE_KEEPER;
    hide *;
    InvAlways(CFG, Moments(), Labels(), 12);
  }

  lemma KeeperLimits()
    ensures WithinLimits(BEFORE_KEEPER) && !OutOfService(CFG, BEFORE_KEEPER)
  {
  }

  lemma KeeperFindsBoth()
    ensures Ready(BEFORE_KEEPER, ID_1) && Ready(BEFORE_KEEPER, ID_2)
    ensures BalanceOf(BEFORE_KEEPER.env.token, 9) >= 2 * FEE && Allowance(BEFORE_KEEPER.env.token, 9, 100) >= 2 * FEE
  {
    KeeperInv();
    KeeperLimits();
    hide Inv, WithinLimits, OutOfService;
  }

  /** Paying for the first batch leaves the second ready. */
  lemma StillReady(w: World, w': World)
    requires Ready(w, ID_1) && Ready(w, ID_2)
    requires BalanceOf(w.env.token, 9) >= 2 * FEE && Allowance(w.env.token, 9, 100) >= 2 * FEE
    requires PayEffect(CFG, w, ID_1, 9, DEFICIT, FEE, w') && Inv(CFG, w') && WithinLimits(w')
    ensures Ready(w', ID_2)
  {
    hide Inv, WithinLimits;
  }

  lemma TwoRows(w: World, id: Bytes32, w': World)
    requires Ready(w, id) && PayEffect(CFG, w, id, 9, DEFICIT, FEE, w')
    ensures w'.env.log == w.env.log + [Stamped(w.env.clock, FeeTransfer(FEE)),
                                       Stamped(w.env.clock.(logIndex := w.env.clock.logIndex + 1),
                                               Toppedup(id, FEE, FUNDS + DEFICIT))]
    ensures w'.env.clock == w.env.clock.(logIndex := w.env.clock.logIndex + 2)
  {
    hide Inv, WithinLimits, PaidThrough;
  }

  lemma TriggerTwo(w: World, a: Bytes32, b: Bytes32)
    requires TriggerOne(CFG, w, a).Ok? && TriggerOne(CFG, TriggerOne(CFG, w, a).value.0, b).Ok?
    ensures TriggerMany(CFG, w, [a, b]) == Ok(TriggerOne(CFG, TriggerOne(CFG, w, a).value.0, b).value.0)
  {
    hide TriggerOne;
    TriggerOneAsMany(CFG, w, a);
    assert [a, b][..1] == [a];
  }

  /** The log of the run is the chain: the keeper's one call adds two fees, each with its top-up. */
  lemma LogOfTheRun()
    ensures Run(CFG, Moments(), Labels()) && Moments()[13].env.log == CHAIN
  {
    IsRun();
    KeeperFindsBoth();
    var w := BEFORE_KEEPER;
    hide Run, Ready, PayEffect, Inv, WithinLimits, TriggerOne, TriggerMany;
    Pays(w, ID_1);
    var w1 := TriggerOne(CFG, w, ID_1).value.0;
    TwoRows(w, ID_1, w1);
    StillReady(w, w1);
    Pays(w1, ID_2);
    TwoRows(w1, ID_2, TriggerOne(CFG, w1, ID_2).value.0);
    TriggerTwo(w, ID_1, ID_2);
    assert CHAIN[..6] + [FEE_1, TOPPED_1] + [FEE_2, TOPPED_2] == CHAIN;
  }
}
