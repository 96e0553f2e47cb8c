/** How long a funded batch lives if no keeper ever comes back: exactly until the drain reaches its balance. */
module Survival {
  import opened Machine
  import opened Chain
  import opened RegistrySpec
  import opened Effects
  import opened Invariants
  import opened Steps
  import opened Trigger

  // ----- blocks -------------------------------------------------------------

  /** One block adds the price in force to the out-payment. Anyone may top the batch up; while its balance covers the
      new out-payment it is neither removed nor reduced. */
  predicate NextBlock(p: Postage, p': Postage, batchId: Bytes32) {
    && p'.outPayment == p.outPayment + p.lastPrice
    && (Exists(p, batchId) && p.batches[batchId].normalisedBalance > p'.outPayment ==>
          Exists(p', batchId) && p'.batches[batchId].normalisedBalance >= p.batches[batchId].normalisedBalance)
  }

  ghost predicate BlockPath(ps: seq<Postage>, batchId: Bytes32) {
    |ps| > 0 && forall k :: 0 <= k < |ps| - 1 ==> NextBlock(ps[k], ps[k + 1], batchId)
  }

  /** `prices[k]` is the price in force from block k to block k + 1. */
  function Drain(prices: seq<nat>, t: nat): nat
    requires t <= |prices|
  {
    if t == 0 then 0 else Drain(prices, t - 1) + prices[t - 1]
  }

  function PricesOf(ps: seq<Postage>): seq<nat> {
    seq(|ps|, k requires 0 <= k < |ps| => ps[k].lastPrice)
  }

  /** A batch is live as long as the drain stays strictly below what it held. */
  lemma {:induction false} LiveWhileCovered(ps: seq<Postage>, batchId: Bytes32, t: nat)
    requires BlockPath(ps, batchId) && t < |ps| && Live(ps[0], batchId)
    requires Drain(PricesOf(ps), t) < Remaining(ps[0], batchId)
    ensures Live(ps[t], batchId)
    ensures Remaining(ps[t], batchId) >= Remaining(ps[0], batchId) - Drain(PricesOf(ps), t)
  {
    if t > 0 {
      LiveWhileCovered(ps, batchId, t - 1);
      assert NextBlock(ps[t - 1], ps[t], batchId);
    }
  }

  /** Left alone, it is live exactly that long: a balance the drain has reached is dead. */
  lemma {:induction false} LeftAloneLivesExactly(ps: seq<Postage>, batchId: Bytes32, t: nat)
    requires BlockPath(ps, batchId) && t < |ps| && Live(ps[0], batchId)
    requires forall k :: 0 <= k < |ps| && batchId in ps[k].batches ==>
               ps[k].batches[batchId].normalisedBalance == ps[0].batches[batchId].normalisedBalance
    ensures Live(ps[t], batchId) <==> Drain(PricesOf(ps), t) < Remaining(ps[0], batchId)
    ensures ps[t].outPayment == ps[0].outPayment + Drain(PricesOf(ps), t)
  {
    if t > 0 {
      LeftAloneLivesExactly(ps, batchId, t - 1);
      assert NextBlock(ps[t - 1], ps[t], batchId);
    }
    if Drain(PricesOf(ps), t) < Remaining(ps[0], batchId) {
      LiveWhileCovered(ps, batchId, t);
    }
  }

  // ----- funding ------------------------------------------------------------

  /** A batch funded for the runway at price p0 and watched for |ps| - 1 blocks. */
  ghost predicate FundedPath(ps: seq<Postage>, batchId: Bytes32, graceBlocks: nat, p0: nat) {
    BlockPath(ps, batchId) && Live(ps[0], batchId) && Remaining(ps[0], batchId) >= graceBlocks * p0
  }

  /** A successful creation mints a batch holding exactly the target. It is live exactly when the target is positive:
      at a zero price it is born dead. */
  lemma CreationFunds(cfg: Config, w: World, caller: Addr, chunkSigner: Addr, depth: nat, bucketDepth: nat,
                      ttlExpiry: nat)
    requires Inv(cfg, w) && CreateVolume(cfg, w, caller, chunkSigner, depth, bucketDepth, ttlExpiry).Ok?
    ensures var (w', id) := CreateVolume(cfg, w, caller, chunkSigner, depth, bucketDepth, ttlExpiry).value;
            var batchId, p' := VolumeAt(w'.reg, id).batchId, w'.env.postage;
            && VolumeAt(w'.reg, id).status == Active
            && !Exists(w.env.postage, batchId)
            && batchId in p'.batches
            && p'.batches[batchId] == Batch(chunkSigner, depth, p'.outPayment + Target(cfg, p'))
            && (Live(p', batchId) <==> Target(cfg, p') > 0)
            && (Live(p', batchId) ==> Remaining(p', batchId) == Target(cfg, p'))
  {
    PayersAreOutsiders(cfg, w, caller);
    hide Inv, PaidThrough;
    var _, _ := CreateVolumeEffect(cfg, w, caller, chunkSigner, depth, bucketDepth, ttlExpiry);
  }

  /** A trigger that tops up or finds nothing missing leaves the volume's batch funded for the runway at the price of
      that moment; so does an import, whose trigger it is. */
  lemma TriggerFunds(cfg: Config, w: World, id: Bytes32, ps: seq<Postage>)
    requires Inv(cfg, w) && TriggerOne(cfg, w, id).Ok?
    requires TriggerOne(cfg, w, id).value.1 == ToppedUp || TriggerOne(cfg, w, id).value.1 == NoDeficit
    requires BlockPath(ps, VolumeAt(w.reg, id).batchId) && ps[0] == TriggerOne(cfg, w, id).value.0.env.postage
    ensures FundedPath(ps, VolumeAt(w.reg, id).batchId, cfg.graceBlocks, w.env.postage.lastPrice)
  {
    hide Inv, TriggerOne;
    FundedAfterTrigger(cfg, w, id);
  }

  // ----- prices that never rise ---------------------------------------------

  lemma {:induction false} DrainUnderCap(prices: seq<nat>, t: nat, cap: nat)
    requires t <= |prices| && forall k :: 0 <= k < t ==> prices[k] <= cap
    ensures Drain(prices, t) <= t * cap
  {
    if t > 0 {
      DrainUnderCap(prices, t - 1, cap);
      assert t * cap == (t - 1) * cap + cap;
    }
  }

  /** If the price never exceeds p0, the batch is live at every block before the runway ends. */
  lemma SurvivesFlatPrices(ps: seq<Postage>, batchId: Bytes32, graceBlocks: nat, p0: nat, t: nat)
    requires FundedPath(ps, batchId, graceBlocks, p0) && t < |ps| && t < graceBlocks
    requires forall k :: 0 <= k < t ==> ps[k].lastPrice <= p0
    ensures Live(ps[t], batchId)
  {
    DrainUnderCap(PricesOf(ps), t, p0);
    if p0 == 0 {
      assert t * p0 == 0;
    } else {
      MulMono(t + 1, graceBlocks, p0);
      assert (t + 1) * p0 == t * p0 + p0;
    }
    LiveWhileCovered(ps, batchId, t);
  }

  // ----- the oracle's compound ceiling --------------------------------------

  /** An oracle that may multiply the price by at most num/den once a round of `every` blocks, catching up on rounds it
      skipped. */
  datatype Oracle = Oracle(every: nat, num: nat, den: nat)

  ghost predicate ValidOracle(o: Oracle) {
    o.every > 0 && 0 < o.den <= o.num
  }

  /** Where a batch stands in the oracle's rounds when it is funded: how many adjustments are pending, the current round's
      and those of skipped rounds, and in how many blocks the next round begins. */
  datatype Phase = Phase(pending: nat, first: nat)

  /** The adjustments, caught-up ones included, that may have applied by block k after funding. */
  function Adjustments(o: Oracle, ph: Phase, k: nat): nat
    requires o.every > 0
  {
    ph.pending + if k < ph.first then 0 else 1 + (k - ph.first) / o.every
  }

  function Power(q: real, n: nat): real {
    if n == 0 then 1.0 else q * Power(q, n - 1)
  }

  function Geometric(q: real, n: nat): real {
    if n == 0 then 0.0 else Geometric(q, n - 1) + Power(q, n - 1)
  }

  function Rate(o: Oracle): real
    requires o.den > 0
  {
    o.num as real / o.den as real
  }

  /** The largest price at block k, in units of the price at funding. */
  function CapAt(o: Oracle, ph: Phase, k: nat): real
    requires o.every > 0 && o.den > 0
  {
    Power(Rate(o), Adjustments(o, ph, k))
  }

  /** So many times the price p0. */
  function Scaled(p0: nat, x: real): real {
    p0 as real * x
  }

  /** Every price within the compound ceiling; nothing is said of how the prices move below it. */
  ghost predicate UnderCeiling(prices: seq<nat>, p0: nat, o: Oracle, ph: Phase)
    requires ValidOracle(o)
  {
    forall k :: 0 <= k < |prices| ==> prices[k] as real <= Scaled(p0, CapAt(o, ph, k))
  }

  /** The drain of t blocks at the ceiling, in units of the price at funding. */
  function Ceiling(o: Oracle, ph: Phase, t: nat): real
    requires o.every > 0 && o.den > 0
  {
    if t == 0 then 0.0 else Ceiling(o, ph, t - 1) + CapAt(o, ph, t - 1)
  }

  lemma RateAtLeastOne(o: Oracle)
    requires ValidOracle(o)
    ensures Rate(o) >= 1.0
  {
    assert Rate(o) * o.den as real == o.num as real;
  }

  lemma {:induction false} PowerAtLeastOne(q: real, n: nat)
    requires q >= 1.0
    ensures Power(q, n) >= 1.0
  {
    if n > 0 {
      PowerAtLeastOne(q, n - 1);
      ScaleUp(q, Power(q, n - 1));
    }
  }

  lemma {:induction false} PowerAdd(q: real, a: nat, b: nat)
    ensures Power(q, a + b) == Power(q, a) * Power(q, b)
  {
    if a > 0 {
      PowerAdd(q, a - 1, b);
      assert q * (Power(q, a - 1) * Power(q, b)) == (q * Power(q, a - 1)) * Power(q, b);
    }
  }

  lemma {:induction false} PowerMono(q: real, a: nat, b: nat)
    requires q >= 1.0 && a <= b
    ensures Power(q, a) <= Power(q, b)
    decreases b
  {
    if a < b {
      PowerMono(q, a, b - 1);
      PowerAtLeastOne(q, b - 1);
      ScaleUp(q, Power(q, b - 1));
    }
  }

  lemma ScaleUp(x: real, y: real)
    requires x >= 1.0 && y >= 0.0
    ensures y <= x * y
  {
    assert (x - 1.0) * y >= 0.0;
  }

  lemma {:induction false} DrainUnderCeiling(prices: seq<nat>, p0: nat, o: Oracle, ph: Phase, t: nat)
    requires ValidOracle(o) && t <= |prices| && UnderCeiling(prices, p0, o, ph)
    ensures Drain(prices, t) as real <= Scaled(p0, Ceiling(o, ph, t))
  {
    hide CapAt, Scaled;
    if t > 0 {
      DrainUnderCeiling(prices, p0, o, ph, t - 1);
      assert prices[t - 1] as real <= Scaled(p0, CapAt(o, ph, t - 1));
      ScaledSum(p0, Ceiling(o, ph, t - 1), CapAt(o, ph, t - 1));
    } else {
      ScaledNothing(p0);
    }
  }

  lemma ScaledNothing(p0: nat)
    ensures Scaled(p0, 0.0) == 0.0
  {
  }

  lemma ScaledOnce(p0: nat)
    ensures Scaled(p0, 1.0) == p0 as real
  {
  }

  lemma ScaledSum(p0: nat, a: real, b: real)
    ensures Scaled(p0, a + b) == Scaled(p0, a) + Scaled(p0, b)
  {
    Distribute(p0 as real, a, b);
  }

  lemma Distribute(x: real, a: real, b: real)
    ensures x * (a + b) == x * a + x * b
  {
  }

  /** Whatever the prices do below the ceiling, the batch is live at every block whose ceiling drain the runway exceeds. */
  lemma SurvivesRisingPrices(ps: seq<Postage>, batchId: Bytes32, grace: nat, p0: nat, o: Oracle, ph: Phase, t: nat)
    requires ValidOracle(o) && FundedPath(ps, batchId, grace, p0) && t < |ps|
    requires UnderCeiling(PricesOf(ps), p0, o, ph) && Ceiling(o, ph, t) < grace as real
    ensures Live(ps[t], batchId)
  {
    hide UnderCeiling, Ceiling, BlockPath;
    DrainUnderCeiling(PricesOf(ps), p0, o, ph, t);
    BelowFunds(Drain(PricesOf(ps), t), p0, grace, Ceiling(o, ph, t));
    LiveWhileCovered(ps, batchId, t);
  }

  lemma BelowFunds(drain: nat, p0: nat, grace: nat, ceiling: real)
    requires drain as real <= Scaled(p0, ceiling) && ceiling < grace as real
    ensures drain < grace * p0 || (p0 == 0 && drain == 0)
  {
    Distribute(p0 as real, grace as real - ceiling, ceiling);
    assert (grace * p0) as real == p0 as real * grace as real;
    assert p0 > 0 ==> p0 as real * (grace as real - ceiling) > 0.0;
  }

  lemma ReachesFunds(drain: nat, p0: nat, grace: nat, ceiling: real)
    requires drain as real == Scaled(p0, ceiling) && ceiling >= grace as real
    ensures drain >= grace * p0
  {
    Distribute(p0 as real, ceiling - grace as real, grace as real);
    assert (grace * p0) as real == p0 as real * grace as real;
    assert p0 as real * (ceiling - grace as real) >= 0.0;
  }

  // ----- the ceiling is attained --------------------------------------------

  /** A batch of `funds`, left alone while the prices pass. */
  function PathOf(prices: seq<nat>, funds: nat): seq<Postage> {
    seq(|prices|, k requires 0 <= k < |prices| =>
          Postage(map[Word(0) := Batch(1, 17, funds)], Drain(prices, k), prices[k], 0, false))
  }

  lemma PathSteps(prices: seq<nat>, funds: nat, k: nat)
    requires k + 1 < |prices|
    ensures NextBlock(PathOf(prices, funds)[k], PathOf(prices, funds)[k + 1], Word(0))
  {
  }

  lemma PathAt(prices: seq<nat>, funds: nat, k: nat)
    requires k < |prices| && funds > 0
    ensures var p := PathOf(prices, funds)[k];
            && p.lastPrice == prices[k]
            && (Live(p, Word(0)) <==> Drain(prices, k) < funds)
            && (Live(p, Word(0)) ==> Remaining(p, Word(0)) == funds - Drain(prices, k))
  {
  }

  lemma PathLives(prices: seq<nat>, funds: nat)
    requires prices != [] && funds > 0
    ensures PricesOf(PathOf(prices, funds)) == prices && BlockPath(PathOf(prices, funds), Word(0))
    ensures forall k :: 0 <= k < |prices| ==> (Live(PathOf(prices, funds)[k], Word(0)) <==> Drain(prices, k) < funds)
    ensures Live(PathOf(prices, funds)[0], Word(0)) && Remaining(PathOf(prices, funds)[0], Word(0)) == funds
  {
    var ps := PathOf(prices, funds);
    assert |ps| == |prices| && Drain(prices, 0) == 0;
    hide PathOf, NextBlock, Live, Drain;
    forall k: nat | k < |prices|
      ensures ps[k].lastPrice == prices[k] && (Live(ps[k], Word(0)) <==> Drain(prices, k) < funds)
    {
      PathAt(prices, funds, k);
    }
    forall k: nat | k + 1 < |prices|
      ensures NextBlock(ps[k], ps[k + 1], Word(0))
    {
      PathSteps(prices, funds, k);
    }
    PathAt(prices, funds, 0);
  }

  lemma PathIsFunded(prices: seq<nat>, grace: nat, p0: nat)
    requires prices != [] && grace > 0 && p0 > 0
    ensures var ps := PathOf(prices, grace * p0);
            && |ps| == |prices| && PricesOf(ps) == prices && FundedPath(ps, Word(0), grace, p0)
            && forall k :: 0 <= k < |prices| ==> (Live(ps[k], Word(0)) <==> Drain(prices, k) < grace * p0)
  {
    MulMono(1, grace, p0);
    PathLives(prices, grace * p0);
    hide BlockPath, Live, Drain;
  }

  function IntPower(b: nat, n: nat): nat {
    if n == 0 then 1 else b * IntPower(b, n - 1)
  }

  lemma {:induction false} IntPowerPositive(b: nat, n: nat)
    requires b > 0
    ensures IntPower(b, n) > 0
  {
    if n > 0 {
      IntPowerPositive(b, n - 1);
    }
  }

  /** The price j adjustments above den^top, a whole number. */
  function CeilingPrice(o: Oracle, top: nat, j: nat): nat
    requires j <= top
  {
    IntPower(o.num, j) * IntPower(o.den, top - j)
  }

  lemma {:induction false} CeilingIsWhole(o: Oracle, top: nat, j: nat)
    requires o.den > 0 && j <= top
    ensures CeilingPrice(o, top, j) as real == Scaled(IntPower(o.den, top), Power(Rate(o), j))
  {
    hide Rate, Scaled, CeilingPrice;
    if j > 0 {
      CeilingIsWhole(o, top, j - 1);
      NextPrice(o, top, j, Power(Rate(o), j - 1), Power(Rate(o), j));
    } else {
      ScaledOnce(IntPower(o.den, top));
      FirstPrice(o, top);
    }
  }

  lemma FirstPrice(o: Oracle, top: nat)
    ensures CeilingPrice(o, top, 0) == IntPower(o.den, top)
  {
  }

  lemma NextPrice(o: Oracle, top: nat, j: nat, power: real, next: real)
    requires o.den > 0 && 0 < j <= top && next == Rate(o) * power
    requires CeilingPrice(o, top, j - 1) as real == Scaled(IntPower(o.den, top), power)
    ensures CeilingPrice(o, top, j) as real == Scaled(IntPower(o.den, top), next)
  {
    hide Rate, Scaled;
    assert IntPower(o.num, j) == o.num * IntPower(o.num, j - 1);
    assert IntPower(o.den, top - (j - 1)) == o.den * IntPower(o.den, top - j);
    hide IntPower;
    WholeStep(o, IntPower(o.num, j - 1), IntPower(o.den, top - j), IntPower(o.den, top), power);
  }

  lemma WholeStep(o: Oracle, nums: nat, dens: nat, p0: nat, power: real)
    requires o.den > 0 && (nums * (o.den * dens)) as real == Scaled(p0, power)
    ensures ((o.num * nums) * dens) as real == Scaled(p0, Rate(o) * power)
  {
    var n, d, x, y, q := o.num as real, o.den as real, nums as real, dens as real, Rate(o);
    assert q * d == n;
    assert (nums * (o.den * dens)) as real == x * (d * y);
    assert ((o.num * nums) * dens) as real == (n * x) * y;
    assert (n * x) * y == q * (x * (d * y));
    assert q * (p0 as real * power) == p0 as real * (q * power);
  }

  ghost predicate AtMost(o: Oracle, ph: Phase, top: nat, length: nat)
    requires o.every > 0
  {
    forall k :: 0 <= k < length ==> Adjustments(o, ph, k) <= top
  }

  /** Funded at the price den^top and never below the ceiling. */
  ghost function CeilingPrices(o: Oracle, ph: Phase, top: nat, length: nat): (prices: seq<nat>)
    requires o.every > 0 && AtMost(o, ph, top, length)
    ensures |prices| == length
  {
    seq(length, k requires 0 <= k < length => CeilingPrice(o, top, Adjustments(o, ph, k)))
  }

  lemma CeilingPriceAt(o: Oracle, ph: Phase, top: nat, length: nat, k: nat)
    requires o.every > 0 && o.den > 0 && AtMost(o, ph, top, length) && k < length
    ensures CeilingPrices(o, ph, top, length)[k] as real == Scaled(IntPower(o.den, top), CapAt(o, ph, k))
  {
    hide Adjustments, IntPower, Power, Rate, CeilingPrice, Scaled;
    CeilingIsWhole(o, top, Adjustments(o, ph, k));
  }

  lemma {:induction false} CeilingPricesDrain(o: Oracle, ph: Phase, top: nat, length: nat, t: nat)
    requires ValidOracle(o) && t <= length && AtMost(o, ph, top, length)
    ensures Drain(CeilingPrices(o, ph, top, length), t) as real == Scaled(IntPower(o.den, top), Ceiling(o, ph, t))
  {
    hide CapAt, IntPower, Adjustments, CeilingPrices, AtMost, Scaled;
    if t > 0 {
      CeilingPricesDrain(o, ph, top, length, t - 1);
      CeilingPriceAt(o, ph, top, length, t - 1);
      ScaledSum(IntPower(o.den, top), Ceiling(o, ph, t - 1), CapAt(o, ph, t - 1));
    } else {
      ScaledNothing(IntPower(o.den, top));
    }
  }

  lemma AdjustmentsRise(o: Oracle, ph: Phase, j: nat, k: nat)
    requires o.every > 0 && j <= k
    ensures Adjustments(o, ph, j) <= Adjustments(o, ph, k)
  {
    if ph.first <= j {
      QuotientRises(j - ph.first, k - ph.first, o.every);
    }
  }

  lemma QuotientRises(x: nat, y: nat, every: nat)
    requires every > 0 && x <= y
    ensures x / every <= y / every
  {
    DividesInto(x, every);
    DividesInto(y, every);
    var a, b := x / every, y / every;
    assert (b + 1) * every == b * every + every;
    CancelFactor(a, b + 1, every);
  }

  lemma DividesInto(x: nat, every: nat)
    requires every > 0
    ensures (x / every) * every <= x < (x / every) * every + every
  {
    assert x == (x / every) * every + x % every;
  }

  lemma CancelFactor(a: nat, b: nat, k: nat)
    requires a * k < b * k
    ensures a < b
  {
    if b <= a {
      MulMono(b, a, k);
    }
  }

  lemma CeilingPricesAreUnder(o: Oracle, ph: Phase, top: nat, length: nat)
    requires ValidOracle(o) && AtMost(o, ph, top, length)
    ensures UnderCeiling(CeilingPrices(o, ph, top, length), IntPower(o.den, top), o, ph)
  {
    hide CapAt, IntPower, CeilingPrices, AtMost, Scaled;
    forall k | 0 <= k < length
      ensures CeilingPrices(o, ph, top, length)[k] as real <= Scaled(IntPower(o.den, top), CapAt(o, ph, k))
    {
      CeilingPriceAt(o, ph, top, length, k);
    }
  }

  lemma LaterIsMore(o: Oracle, ph: Phase, t: nat)
    requires o.every > 0
    ensures AtMost(o, ph, Adjustments(o, ph, t), t + 1)
  {
    forall k: nat | k <= t
      ensures Adjustments(o, ph, k) <= Adjustments(o, ph, t)
    {
      AdjustmentsRise(o, ph, k, t);
    }
  }

  lemma PathDies(prices: seq<nat>, grace: nat, p0: nat, ceiling: real, t: nat) returns (ps: seq<Postage>)
    requires t < |prices| && grace > 0 && p0 > 0
    requires Drain(prices, t) as real == Scaled(p0, ceiling) && ceiling >= grace as real
    ensures |ps| == |prices| && PricesOf(ps) == prices && FundedPath(ps, Word(0), grace, p0) && !Live(ps[t], Word(0))
  {
    ReachesFunds(Drain(prices, t), p0, grace, ceiling);
    PathIsFunded(prices, grace, p0);
    hide *;
    ps := PathOf(prices, grace * p0);
  }

  /** A funded path on the ceiling: some batch is dead at the first block whose ceiling drain reaches the runway. */
  lemma CeilingKills(grace: nat, o: Oracle, ph: Phase, t: nat) returns (ps: seq<Postage>, p0: nat)
    requires ValidOracle(o) && grace > 0 && Ceiling(o, ph, t) >= grace as real
    ensures FundedPath(ps, Word(0), grace, p0) && t < |ps| && UnderCeiling(PricesOf(ps), p0, o, ph)
    ensures !Live(ps[t], Word(0))
  {
    var top := Adjustments(o, ph, t);
    LaterIsMore(o, ph, t);
    IntPowerPositive(o.den, top);
    CeilingPricesDrain(o, ph, top, t + 1, t);
    CeilingPricesAreUnder(o, ph, top, t + 1);
    p0 := IntPower(o.den, top);
    hide *;
    ps := PathDies(CeilingPrices(o, ph, top, t + 1), grace, p0, Ceiling(o, ph, t), t);
  }

  // ----- exactly how long ---------------------------------------------------

  /** Every batch funded for `grace` blocks, at any price and under any prices within the ceiling, is live at block t. */
  ghost predicate AlwaysLive(grace: nat, o: Oracle, ph: Phase, t: nat)
    requires ValidOracle(o)
  {
    forall ps: seq<Postage>, batchId: Bytes32, p0: nat ::
      FundedPath(ps, batchId, grace, p0) && t < |ps| && UnderCeiling(PricesOf(ps), p0, o, ph) ==> Live(ps[t], batchId)
  }

  /** The survival bound is exact: all such batches are live at block t if and only if the ceiling drain of t blocks is
      below the runway. */
  lemma AlwaysLiveExactlyWhen(grace: nat, o: Oracle, ph: Phase, t: nat)
    requires ValidOracle(o) && grace > 0
    ensures AlwaysLive(grace, o, ph, t) <==> Ceiling(o, ph, t) < grace as real
  {
    hide UnderCeiling, FundedPath, Ceiling, Live;
    if Ceiling(o, ph, t) < grace as real {
      forall ps: seq<Postage>, batchId: Bytes32, p0: nat |
        FundedPath(ps, batchId, grace, p0) && t < |ps| && UnderCeiling(PricesOf(ps), p0, o, ph)
        ensures Live(ps[t], batchId)
      {
        SurvivesRisingPrices(ps, batchId, grace, p0, o, ph, t);
      }
    } else {
      var ps, p0 := CeilingKills(grace, o, ph, t);
      assert !Live(ps[t], Word(0));
    }
  }

  lemma {:induction false} CeilingAtLeast(o: Oracle, ph: Phase, t: nat)
    requires ValidOracle(o)
    ensures Ceiling(o, ph, t) >= t as real
  {
    if t > 0 {
      CeilingAtLeast(o, ph, t - 1);
      RateAtLeastOne(o);
      PowerAtLeastOne(Rate(o), Adjustments(o, ph, t - 1));
    }
  }

  lemma {:induction false} CeilingRises(o: Oracle, ph: Phase, s: nat, t: nat)
    requires ValidOracle(o) && s <= t
    ensures Ceiling(o, ph, s) + (t - s) as real <= Ceiling(o, ph, t)
    decreases t
  {
    if s < t {
      CeilingRises(o, ph, s, t - 1);
      RateAtLeastOne(o);
      PowerAtLeastOne(Rate(o), Adjustments(o, ph, t - 1));
    }
  }

  /** The first block, from `t` on, whose ceiling drain reaches the runway. */
  ghost function FirstDead(grace: nat, o: Oracle, ph: Phase, t: nat): (d: nat)
    requires ValidOracle(o)
    ensures t <= d && Ceiling(o, ph, d) >= grace as real
    ensures forall k :: t <= k < d ==> Ceiling(o, ph, k) < grace as real
    decreases grace - t
  {
    CeilingAtLeast(o, ph, t);
    if Ceiling(o, ph, t) >= grace as real then t else FirstDead(grace, o, ph, t + 1)
  }

  /** The block by which a batch funded for `grace` blocks may be dead, as a function of where in the oracle's rounds it
      was funded. */
  ghost function DeathBlock(grace: nat, o: Oracle, ph: Phase): nat
    requires ValidOracle(o)
  {
    FirstDead(grace, o, ph, 0)
  }

  lemma BeforeDeathBlock(grace: nat, o: Oracle, ph: Phase, t: nat)
    requires ValidOracle(o)
    ensures Ceiling(o, ph, t) < grace as real <==> t < DeathBlock(grace, o, ph)
  {
    hide Ceiling;
    if t >= DeathBlock(grace, o, ph) {
      CeilingRises(o, ph, DeathBlock(grace, o, ph), t);
    }
  }

  /** It is the exact floor: every batch is live at t if and only if t comes before it. */
  lemma LiveBeforeDeathBlock(grace: nat, o: Oracle, ph: Phase, t: nat)
    requires ValidOracle(o) && grace > 0
    ensures AlwaysLive(grace, o, ph, t) <==> t < DeathBlock(grace, o, ph)
  {
    hide AlwaysLive, Ceiling, DeathBlock;
    AlwaysLiveExactlyWhen(grace, o, ph, t);
    BeforeDeathBlock(grace, o, ph, t);
  }

  /** So two neighbouring ceilings pin it down. */
  lemma DeathBlockIs(grace: nat, o: Oracle, ph: Phase, t: nat)
    requires ValidOracle(o) && Ceiling(o, ph, t) < grace as real <= Ceiling(o, ph, t + 1)
    ensures DeathBlock(grace, o, ph) == t + 1
  {
    hide Ceiling;
    var d := DeathBlock(grace, o, ph);
    if d <= t {
      CeilingRises(o, ph, d, t);
    }
  }

  // ----- the ceiling in closed form -----------------------------------------

  lemma {:induction false} CeilingBeforeRise(o: Oracle, ph: Phase, t: nat)
    requires ValidOracle(o) && t <= ph.first
    ensures Ceiling(o, ph, t) == Power(Rate(o), ph.pending) * t as real
  {
    if t > 0 {
      CeilingBeforeRise(o, ph, t - 1);
      Distribute(Power(Rate(o), ph.pending), (t - 1) as real, 1.0);
    }
  }

  /** The drain in one round's units: `first` blocks before the next round, `rounds` whole rounds, `rest` blocks more. */
  function InRounds(o: Oracle, ph: Phase, rounds: nat, rest: nat): real
    requires o.den > 0
  {
    var q := Rate(o);
    Power(q, ph.pending)
    * (ph.first as real + q * (o.every as real * Geometric(q, rounds) + rest as real * Power(q, rounds)))
  }

  lemma {:induction false} CeilingInRounds(o: Oracle, ph: Phase, rounds: nat, rest: nat, t: nat)
    requires ValidOracle(o) && rest <= o.every && t == ph.first + rounds * o.every + rest
    ensures Ceiling(o, ph, t) == InRounds(o, ph, rounds, rest)
    decreases rounds, rest
  {
    hide InRounds, Power, Geometric, Rate, CapAt;
    if rest > 0 {
      CeilingInRounds(o, ph, rounds, rest - 1, t - 1);
      CapInRounds(o, ph, rounds, rest - 1, t - 1);
      InRoundsBlock(o, ph, rounds, rest);
    } else if rounds > 0 {
      assert rounds * o.every == (rounds - 1) * o.every + o.every;
      CeilingInRounds(o, ph, rounds - 1, o.every, t);
      InRoundsRound(o, ph, rounds);
    } else {
      CeilingBeforeRise(o, ph, t);
      InRoundsStart(o, ph);
    }
  }

  lemma InRoundsBlock(o: Oracle, ph: Phase, rounds: nat, rest: nat)
    requires o.den > 0 && rest > 0
    ensures InRounds(o, ph, rounds, rest) ==
            InRounds(o, ph, rounds, rest - 1) + Power(Rate(o), ph.pending) * (Rate(o) * Power(Rate(o), rounds))
  {
    hide Power, Geometric, Rate;
    var q := Rate(o);
    OneMoreBlock(Power(q, ph.pending), ph.first as real, q, o.every as real * Geometric(q, rounds), (rest - 1) as real,
                 Power(q, rounds));
  }

  lemma InRoundsRound(o: Oracle, ph: Phase, rounds: nat)
    requires o.den > 0 && rounds > 0
    ensures InRounds(o, ph, rounds, 0) == InRounds(o, ph, rounds - 1, o.every)
  {
    var q := Rate(o);
    assert Geometric(q, rounds) == Geometric(q, rounds - 1) + Power(q, rounds - 1);
    hide Power, Geometric, Rate;
    Distribute(o.every as real, Geometric(q, rounds - 1), Power(q, rounds - 1));
  }

  lemma InRoundsStart(o: Oracle, ph: Phase)
    requires o.den > 0
    ensures InRounds(o, ph, 0, 0) == Power(Rate(o), ph.pending) * ph.first as real
  {
    assert Geometric(Rate(o), 0) == 0.0;
    hide Rate;
  }

  lemma RoundOf(rounds: nat, rest: nat, every: nat)
    requires rest < every
    ensures (rounds * every + rest) / every == rounds
  {
    var a := (rounds * every + rest) / every;
    DividesInto(rounds * every + rest, every);
    assert (a + 1) * every == a * every + every;
    assert (rounds + 1) * every == rounds * every + every;
    CancelFactor(rounds, a + 1, every);
    CancelFactor(a, rounds + 1, every);
  }

  lemma CapInRounds(o: Oracle, ph: Phase, rounds: nat, rest: nat, k: nat)
    requires ValidOracle(o) && rest < o.every && k == ph.first + rounds * o.every + rest
    ensures CapAt(o, ph, k) == Power(Rate(o), ph.pending) * (Rate(o) * Power(Rate(o), rounds))
  {
    RoundOf(rounds, rest, o.every);
    MulMono(0, rounds, o.every);
    assert Adjustments(o, ph, k) == ph.pending + (1 + rounds);
    hide Adjustments, Rate;
    PowerAdd(Rate(o), ph.pending, 1 + rounds);
    assert Power(Rate(o), 1 + rounds) == Rate(o) * Power(Rate(o), rounds);
  }

  lemma OneMoreBlock(pending: real, first: real, q: real, whole: real, rest: real, power: real)
    ensures pending * (first + q * (whole + (rest + 1.0) * power)) ==
            pending * (first + q * (whole + rest * power)) + pending * (q * power)
  {
    assert (rest + 1.0) * power == rest * power + power;
    Distribute(q, whole + rest * power, power);
    Distribute(pending, first + q * (whole + rest * power), q * power);
  }

  // ----- one phase against another ------------------------------------------

  /** More adjustments by every block, a higher ceiling. */
  lemma {:induction false} CeilingInPhase(o: Oracle, a: Phase, b: Phase, t: nat)
    requires ValidOracle(o) && forall k: nat :: k < t ==> Adjustments(o, a, k) <= Adjustments(o, b, k)
    ensures Ceiling(o, a, t) <= Ceiling(o, b, t)
  {
    hide Adjustments, Rate;
    if t > 0 {
      CeilingInPhase(o, a, b, t - 1);
      RateAtLeastOne(o);
      PowerMono(Rate(o), Adjustments(o, a, t - 1), Adjustments(o, b, t - 1));
    }
  }

  lemma RiseSooner(o: Oracle, pending: nat, a: nat, b: nat, t: nat)
    requires ValidOracle(o) && a <= b
    ensures Ceiling(o, Phase(pending, b), t) <= Ceiling(o, Phase(pending, a), t)
  {
    forall k: nat | k < t
      ensures Adjustments(o, Phase(pending, b), k) <= Adjustments(o, Phase(pending, a), k)
    {
      if k >= b {
        QuotientRises(k - b, k - a, o.every);
      }
    }
    CeilingInPhase(o, Phase(pending, b), Phase(pending, a), t);
  }

  /** A pending round with the next a whole round away is a round beginning at once. */
  lemma {:induction false} PendingIsAtOnce(o: Oracle, pending: nat, t: nat)
    requires ValidOracle(o)
    ensures Ceiling(o, Phase(pending + 1, o.every), t) == Ceiling(o, Phase(pending, 0), t)
  {
    if t > 0 {
      PendingIsAtOnce(o, pending, t - 1);
      SameCap(o, pending, t - 1);
    }
  }

  lemma SameCap(o: Oracle, pending: nat, k: nat)
    requires ValidOracle(o)
    ensures CapAt(o, Phase(pending + 1, o.every), k) == CapAt(o, Phase(pending, 0), k)
  {
    if k < o.every {
      RoundOf(0, k, o.every);
    } else {
      OneRoundLater(o, Phase(pending, 0), k - o.every);
    }
  }

  /** One more pending round multiplies the ceiling by the rate. */
  lemma {:induction false} PendingScales(o: Oracle, pending: nat, first: nat, t: nat)
    requires ValidOracle(o)
    ensures Ceiling(o, Phase(pending + 1, first), t) == Rate(o) * Ceiling(o, Phase(pending, first), t)
  {
    hide Adjustments, Rate, CapAt;
    if t > 0 {
      PendingScales(o, pending, first, t - 1);
      PendingCap(o, pending, first, t - 1);
      Distribute(Rate(o), Ceiling(o, Phase(pending, first), t - 1), CapAt(o, Phase(pending, first), t - 1));
    }
  }

  lemma PendingCap(o: Oracle, pending: nat, first: nat, k: nat)
    requires ValidOracle(o)
    ensures CapAt(o, Phase(pending + 1, first), k) == Rate(o) * CapAt(o, Phase(pending, first), k)
  {
    hide Rate;
  }

  lemma CapRises(o: Oracle, ph: Phase, s: nat, t: nat)
    requires ValidOracle(o) && s <= t
    ensures CapAt(o, ph, s) <= CapAt(o, ph, t)
  {
    hide Adjustments, Rate;
    RateAtLeastOne(o);
    AdjustmentsRise(o, ph, s, t);
    PowerMono(Rate(o), Adjustments(o, ph, s), Adjustments(o, ph, t));
  }

  lemma ScaledOneMore(n: nat, x: real)
    ensures Scaled(n + 1, x) == Scaled(n, x) + x
  {
    Distribute(x, n as real, 1.0);
  }

  /** From block s on the ceiling price is at least that of block s. */
  lemma {:induction false} CeilingRisesBy(o: Oracle, ph: Phase, s: nat, n: nat, cap: real)
    requires ValidOracle(o) && CapAt(o, ph, s) >= cap
    ensures Ceiling(o, ph, s) + Scaled(n, cap) <= Ceiling(o, ph, s + n)
  {
    hide CapAt, Scaled;
    if n > 0 {
      CeilingRisesBy(o, ph, s, n - 1, cap);
      CapRises(o, ph, s, s + n - 1);
      ScaledOneMore(n - 1, cap);
    } else {
      NoneScaled(cap);
    }
  }

  lemma NoneScaled(x: real)
    ensures Scaled(0, x) == 0.0
  {
  }

  /** Up to block s + n it is at most that of block s + n. */
  lemma {:induction false} CeilingRisesAtMost(o: Oracle, ph: Phase, s: nat, n: nat, cap: real)
    requires ValidOracle(o) && CapAt(o, ph, s + n) <= cap
    ensures Ceiling(o, ph, s + n) <= Ceiling(o, ph, s) + Scaled(n, cap)
  {
    hide CapAt, Scaled;
    if n > 0 {
      CapRises(o, ph, s + n - 1, s + n);
      CeilingRisesAtMost(o, ph, s, n - 1, cap);
      ScaledOneMore(n - 1, cap);
    } else {
      NoneScaled(cap);
    }
  }

  // ----- at one price -------------------------------------------------------

  lemma CapAtLeastOne(o: Oracle, ph: Phase, k: nat)
    requires ValidOracle(o)
    ensures CapAt(o, ph, k) >= 1.0
  {
    hide Adjustments;
    RateAtLeastOne(o);
    PowerAtLeastOne(Rate(o), Adjustments(o, ph, k));
  }

  /** The largest whole price at block k after funding at p0. */
  ghost function TopPrice(o: Oracle, ph: Phase, p0: nat, k: nat): (price: nat)
    requires ValidOracle(o)
    ensures price as real <= Scaled(p0, CapAt(o, ph, k)) < price as real + 1.0
  {
    CapAtLeastOne(o, ph, k);
    Scaled(p0, CapAt(o, ph, k)).Floor
  }

  ghost function TopPrices(o: Oracle, ph: Phase, p0: nat, length: nat): (prices: seq<nat>)
    requires ValidOracle(o)
    ensures |prices| == length && forall k :: 0 <= k < length ==> prices[k] == TopPrice(o, ph, p0, k)
  {
    seq(length, k requires 0 <= k < length => TopPrice(o, ph, p0, k))
  }

  lemma TopPricesAreUnder(o: Oracle, ph: Phase, p0: nat, length: nat)
    requires ValidOracle(o)
    ensures UnderCeiling(TopPrices(o, ph, p0, length), p0, o, ph)
  {
    hide CapAt, Scaled;
  }

  lemma {:induction false} DrainUnderTop(prices: seq<nat>, p0: nat, o: Oracle, ph: Phase, t: nat, length: nat)
    requires ValidOracle(o) && UnderCeiling(prices, p0, o, ph) && t <= |prices| && t <= length
    ensures Drain(prices, t) <= Drain(TopPrices(o, ph, p0, length), t)
  {
    hide CapAt, Scaled;
    if t > 0 {
      DrainUnderTop(prices, p0, o, ph, t - 1, length);
      assert prices[t - 1] as real <= Scaled(p0, CapAt(o, ph, t - 1)) < (TopPrice(o, ph, p0, t - 1) + 1) as real;
    }
  }

  /** Every batch funded for `grace` blocks at this price, under any prices within the ceiling, is live at block t. */
  ghost predicate LiveFromPrice(grace: nat, p0: nat, o: Oracle, ph: Phase, t: nat)
    requires ValidOracle(o)
  {
    forall ps: seq<Postage>, batchId: Bytes32 ::
      FundedPath(ps, batchId, grace, p0) && t < |ps| && UnderCeiling(PricesOf(ps), p0, o, ph) ==> Live(ps[t], batchId)
  }

  lemma LiveUnderTop(ps: seq<Postage>, batchId: Bytes32, grace: nat, p0: nat, o: Oracle, ph: Phase, t: nat, length: nat)
    requires ValidOracle(o) && FundedPath(ps, batchId, grace, p0) && t < |ps| && t <= length
    requires UnderCeiling(PricesOf(ps), p0, o, ph) && Drain(TopPrices(o, ph, p0, length), t) < grace * p0
    ensures Live(ps[t], batchId)
  {
    hide UnderCeiling, Drain, BlockPath, TopPrices;
    DrainUnderTop(PricesOf(ps), p0, o, ph, t, length);
    LiveWhileCovered(ps, batchId, t);
  }

  /** A batch funded at p0 is dead once the drain at the largest whole prices reaches its funds. */
  lemma TopPricesKill(grace: nat, p0: nat, o: Oracle, ph: Phase, t: nat) returns (ps: seq<Postage>)
    requires ValidOracle(o) && grace > 0 && p0 > 0 && Drain(TopPrices(o, ph, p0, t + 1), t) >= grace * p0
    ensures FundedPath(ps, Word(0), grace, p0) && |ps| == t + 1 && UnderCeiling(PricesOf(ps), p0, o, ph)
    ensures !Live(ps[t], Word(0))
  {
    var tops := TopPrices(o, ph, p0, t + 1);
    hide UnderCeiling, FundedPath, Live, Drain, TopPrices, PathOf, PricesOf;
    TopPricesAreUnder(o, ph, p0, t + 1);
    PathIsFunded(tops, grace, p0);
    ps := PathOf(tops, grace * p0);
  }

  /** At one price the bound is exact in whole numbers: the drain at the largest whole prices decides. */
  lemma LiveFromPriceExactlyWhen(grace: nat, p0: nat, o: Oracle, ph: Phase, t: nat)
    requires ValidOracle(o) && grace > 0 && p0 > 0
    ensures LiveFromPrice(grace, p0, o, ph, t) <==> Drain(TopPrices(o, ph, p0, t + 1), t) < grace * p0
  {
    var tops := TopPrices(o, ph, p0, t + 1);
    hide UnderCeiling, FundedPath, Live, Drain, TopPrices;
    if Drain(tops, t) < grace * p0 {
      forall ps: seq<Postage>, batchId: Bytes32 |
        FundedPath(ps, batchId, grace, p0) && t < |ps| && UnderCeiling(PricesOf(ps), p0, o, ph)
        ensures Live(ps[t], batchId)
      {
        LiveUnderTop(ps, batchId, grace, p0, o, ph, t, t + 1);
      }
    } else {
      var ps := TopPricesKill(grace, p0, o, ph, t);
      assert !Live(ps[t], Word(0));
    }
  }

  /** Rounding the ceiling down to whole prices loses less than one unit a block. */
  lemma {:induction false} TopDrainIsNear(o: Oracle, ph: Phase, p0: nat, t: nat, length: nat)
    requires ValidOracle(o) && t <= length
    ensures Scaled(p0, Ceiling(o, ph, t)) - t as real <= Drain(TopPrices(o, ph, p0, length), t) as real
  {
    hide CapAt, Scaled, TopPrice;
    if t > 0 {
      TopDrainIsNear(o, ph, p0, t - 1, length);
      ScaledSum(p0, Ceiling(o, ph, t - 1), CapAt(o, ph, t - 1));
    } else {
      ScaledNothing(p0);
    }
  }

  // ----- a rate limit round by round ----------------------------------------

  /** No price exceeds the price a round earlier by more than one adjustment. */
  ghost predicate RateLimited(prices: seq<nat>, o: Oracle) {
    forall k :: 0 <= k && k + o.every < |prices| ==> prices[k + o.every] * o.den <= prices[k] * o.num
  }

  /** A price that never catches up, limited round by round and within the ceiling for the first round, stays under it. */
  lemma {:induction false} RateLimitedIsUnderCeiling(prices: seq<nat>, p0: nat, o: Oracle, ph: Phase, k: nat)
    requires ValidOracle(o) && RateLimited(prices, o) && k < |prices| && ph.first <= o.every
    requires forall i :: 0 <= i < o.every && i < |prices| ==> prices[i] as real <= Scaled(p0, CapAt(o, ph, i))
    ensures prices[k] as real <= Scaled(p0, CapAt(o, ph, k))
  {
    if k >= o.every {
      RateLimitedIsUnderCeiling(prices, p0, o, ph, k - o.every);
      assert prices[k - o.every + o.every] * o.den <= prices[k - o.every] * o.num;
      OneRoundLater(o, ph, k - o.every);
      CeilingStep(o, prices[k - o.every], prices[k], p0, CapAt(o, ph, k - o.every));
    }
  }

  lemma OneRoundLater(o: Oracle, ph: Phase, k: nat)
    requires o.every > 0 && ph.first <= o.every
    ensures Adjustments(o, ph, k + o.every) >= Adjustments(o, ph, k) + 1
    ensures k >= ph.first ==> Adjustments(o, ph, k + o.every) == Adjustments(o, ph, k) + 1
  {
    if k >= ph.first {
      var x := k - ph.first;
      assert x == (x / o.every) * o.every + x % o.every;
      assert (x / o.every + 1) * o.every == (x / o.every) * o.every + o.every;
      RoundOf(x / o.every + 1, x % o.every, o.every);
    }
  }

  lemma CeilingStep(o: Oracle, before: nat, after: nat, p0: nat, cap: real)
    requires o.den > 0 && after * o.den <= before * o.num && before as real <= p0 as real * cap
    ensures after as real <= p0 as real * (Rate(o) * cap)
  {
    var n, d, a, b, q := o.num as real, o.den as real, after as real, before as real, Rate(o);
    assert q * d == n;
    assert (after * o.den) as real == a * d && (before * o.num) as real == b * n;
    assert a * d <= b * (q * d);
    assert b * (q * d) == (b * q) * d;
    CancelReal(a, b * q, d);
    assert q >= 0.0;
    assert (p0 as real * cap - b) * q >= 0.0;
    assert (p0 as real * cap - b) * q == p0 as real * (q * cap) - b * q;
  }

  lemma CancelReal(x: real, y: real, d: real)
    requires d > 0.0 && x * d <= y * d
    ensures x <= y
  {
  }
}
