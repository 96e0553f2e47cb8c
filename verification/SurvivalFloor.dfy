/** The floor documented for Gnosis, checked against the exact bound: where it holds, where it fails, and what skipped
    rounds cost. */
module SurvivalFloor {
  import opened Machine
  import opened Chain
  import opened RegistrySpec
  import opened Survival

  /** Rounds of 152 blocks and at most 1049417/1048576 a round. */
  const GNOSIS := Oracle(152, 1049417, 1048576)

  const GRACE: nat := 17280

  /** A price at which a batch of depth 17, funded for the runway, costs less than a quarter of one BZZ. */
  const PRICE: nat := 1000000

  function Q(): real {
    Rate(GNOSIS)
  }

  // ----- powers of the rate -------------------------------------------------

  ghost predicate Between(n: nat, low: real, high: real) {
    0.0 < low <= Power(Q(), n) <= high
  }

  lemma MulBetween(x: real, y: real, a: real, b: real, c: real, d: real)
    requires 0.0 < a <= x <= b && 0.0 < c <= y <= d
    ensures 0.0 < a * c <= x * y <= b * d
  {
    assert (x - a) * y >= 0.0 && a * (y - c) >= 0.0;
    assert (b - x) * y >= 0.0 && b * (d - y) >= 0.0;
    assert a * c > 0.0;
  }

  lemma Compose(m: nat, n: nat, a: real, b: real, c: real, d: real, low: real, high: real)
    requires Between(m, a, b) && Between(n, c, d) && 0.0 < low <= a * c && b * d <= high
    ensures Between(m + n, low, high)
  {
    PowerAdd(Q(), m, n);
    hide Power, Q;
    MulBetween(Power(Q(), m), Power(Q(), n), a, b, c, d);
  }

  lemma OneRound()
    ensures Between(1, 1.0008020401, 1.0008020401001)
  {
    assert Power(Q(), 1) == Q() * Power(Q(), 0);
  }

  lemma ThreeRounds()
    ensures Between(3, 1.0024080506208, 1.0024080506213)
  {
    OneRound();
    hide Between;
    Compose(1, 1, 1.0008020401, 1.0008020401001, 1.0008020401, 1.0008020401001, 1.0016047234683, 1.0016047234686);
    Compose(2, 1, 1.0016047234683, 1.0016047234686, 1.0008020401, 1.0008020401001, 1.0024080506208, 1.0024080506213);
  }

  lemma TenRounds()
    ensures Between(10, 1.0080494100722, 1.0080494100741)
  {
    OneRound();
    ThreeRounds();
    hide Between;
    Compose(3, 3, 1.0024080506208, 1.0024080506213, 1.0024080506208, 1.0024080506213, 1.0048218999493, 1.0048218999504);
    Compose(6, 3, 1.0048218999493, 1.0048218999504, 1.0024080506208, 1.0024080506213, 1.0072415619492, 1.0072415619509);
    Compose(9, 1, 1.0072415619492, 1.0072415619509, 1.0008020401, 1.0008020401001, 1.0080494100722, 1.0080494100741);
  }

  lemma ThirteenRounds()
    ensures Between(13, 1.0104768440799, 1.0104768440825)
  {
    ThreeRounds();
    TenRounds();
    hide Between;
    Compose(10, 3, 1.0080494100722, 1.0080494100741, 1.0024080506208, 1.0024080506213, 1.0104768440799, 1.0104768440825);
  }

  /** Six bits of the exponent 108, each a squaring: the rate after the rounds of a whole runway. */
  lemma RunwayRounds()
    ensures Between(108, 1.09044471981, 1.09044471986)
    ensures Between(162, 1.13868993217, 1.13868993225)
  {
    OneRound();
    ThirteenRounds();
    hide Between;
    Compose(13, 13, 1.0104768440799, 1.0104768440825, 1.0104768440799, 1.0104768440825, 1.021063452421, 1.021063452427);
    Compose(26, 1, 1.021063452421, 1.021063452427, 1.0008020401, 1.0008020401001, 1.021882386254, 1.021882386261);
    Compose(27, 27, 1.021882386254, 1.021882386261, 1.021882386254, 1.021882386261, 1.044243611336, 1.044243611351);
    Compose(54, 54, 1.044243611336, 1.044243611351, 1.044243611336, 1.044243611351, 1.09044471981, 1.09044471986);
    Compose(108, 54, 1.09044471981, 1.09044471986, 1.044243611336, 1.044243611351, 1.13868993217, 1.13868993225);
  }

  /** The rounds of a runway of a week. */
  lemma WeekRounds()
    ensures Between(614, 1.63600164462, 1.63600164513)
  {
    TenRounds();
    RunwayRounds();
    hide Between;
    Compose(108, 108, 1.09044471981, 1.09044471986, 1.09044471981, 1.09044471986, 1.18906968696, 1.18906968708);
    Compose(216, 216, 1.18906968696, 1.18906968708, 1.18906968696, 1.18906968708, 1.41388672044, 1.41388672074);
    Compose(432, 162, 1.41388672044, 1.41388672074, 1.13868993217, 1.13868993225, 1.60997857379, 1.60997857425);
    Compose(10, 10, 1.0080494100722, 1.0080494100741, 1.0080494100722, 1.0080494100741, 1.01616361314, 1.01616361316);
    Compose(594, 20, 1.60997857379, 1.60997857425, 1.01616361314, 1.01616361316, 1.63600164462, 1.63600164513);
  }

  lemma {:induction false} GeometricSum(q: real, n: nat)
    ensures Geometric(q, n) * (q - 1.0) == Power(q, n) - 1.0
  {
    if n > 0 {
      GeometricSum(q, n - 1);
      assert (Geometric(q, n - 1) + Power(q, n - 1)) * (q - 1.0) ==
             Geometric(q, n - 1) * (q - 1.0) + Power(q, n - 1) * (q - 1.0);
    }
  }

  // ----- ceilings of a whole runway -----------------------------------------

  lemma SumOf(n: nat)
    ensures 841.0 * Geometric(Q(), n) == 1048576.0 * (Power(Q(), n) - 1.0)
    ensures Power(Q(), n + 1) == Q() * Power(Q(), n)
  {
    GeometricSum(Q(), n);
    assert Q() == 1049417.0 / 1048576.0;
  }

  /** The ceiling with no adjustment pending, cleared of the denominator. */
  lemma UnitCeiling(first: nat, rounds: nat, rest: nat)
    requires rest <= 152
    ensures 1048576.0 * Ceiling(GNOSIS, Phase(0, first), first + rounds * 152 + rest) ==
            1048576.0 * first as real + 1049417.0 * (152.0 * Geometric(Q(), rounds) + rest as real * Power(Q(), rounds))
  {
    CeilingInRounds(GNOSIS, Phase(0, first), rounds, rest, first + rounds * 152 + rest);
    assert Power(Q(), 0) == 1.0;
    hide Power, Geometric, Ceiling;
    assert Q() == 1049417.0 / 1048576.0;
  }

  /** How far the ceiling reaches after `first` blocks, 108 rounds and `rest` blocks more. */
  lemma RunwayCeiling(first: nat, rest: nat, t: nat)
    requires rest <= 152 && t == first + 16416 + rest
    ensures first as real + 17154.53321 + 1.09131930 * rest as real <= Ceiling(GNOSIS, Phase(0, first), t)
    ensures Ceiling(GNOSIS, Phase(0, first), t) <= first as real + 17154.53323 + 1.09131931 * rest as real
  {
    hide Power, Geometric, Ceiling, Q;
    RunwayRounds();
    SumOf(108);
    UnitCeiling(first, 108, rest);
    RunwayNumbers(Power(Q(), 108), Geometric(Q(), 108), first, rest, Ceiling(GNOSIS, Phase(0, first), t));
  }

  lemma RunwayNumbers(p: real, g: real, first: nat, rest: nat, c: real)
    requires 1.09044471981 <= p <= 1.09044471986 && 841.0 * g == 1048576.0 * (p - 1.0) && rest <= 152
    requires 1048576.0 * c == 1048576.0 * first as real + 1049417.0 * (152.0 * g + rest as real * p)
    ensures first as real + 17154.53321 + 1.09131930 * rest as real <= c
    ensures c <= first as real + 17154.53323 + 1.09131931 * rest as real
  {
    Product(rest as real, p - 1.09044471981);
    Product(rest as real, 1.09044471986 - p);
  }

  lemma Product(x: real, y: real)
    requires x >= 0.0 && y >= 0.0
    ensures x * y >= 0.0
  {
  }

  // ----- the documented floor -----------------------------------------------

  /** No batch dies before block 16532, as documented, if and only if no adjustment is pending at funding and the next
      round begins at least one block later. */
  lemma FloorHoldsExactlyWhen(ph: Phase)
    requires ph.first <= 152
    ensures AlwaysLive(GRACE, GNOSIS, ph, 16531) <==> ph.pending == 0 && ph.first >= 1
  {
    hide AlwaysLive, Ceiling;
    AlwaysLiveExactlyWhen(GRACE, GNOSIS, ph, 16531);
    if ph.pending == 0 && ph.first >= 1 {
      RiseSooner(GNOSIS, 0, 1, ph.first, 16531);
      RunwayCeiling(1, 114, 16531);
    } else {
      PastTheFloor(ph, 16531);
      RunwayCeiling(0, 115, 16531);
    }
  }

  lemma PastTheFloor(ph: Phase, t: nat)
    requires ph.first <= 152 && (ph.pending > 0 || ph.first == 0)
    ensures Ceiling(GNOSIS, ph, t) >= Ceiling(GNOSIS, Phase(0, 0), t)
  {
    forall k: nat | k < t
      ensures Adjustments(GNOSIS, Phase(0, 0), k) <= Adjustments(GNOSIS, ph, k)
    {
    }
    CeilingInPhase(GNOSIS, Phase(0, 0), ph, t);
  }

  /** It is still live at block 16532 itself if and only if the next round begins at least thirteen blocks later. */
  lemma LiveAtTheFloorExactlyWhen(ph: Phase)
    requires ph.first <= 152
    ensures AlwaysLive(GRACE, GNOSIS, ph, 16532) <==> ph.pending == 0 && ph.first >= 13
  {
    hide AlwaysLive, Ceiling;
    AlwaysLiveExactlyWhen(GRACE, GNOSIS, ph, 16532);
    if ph.pending == 0 && ph.first >= 13 {
      RiseSooner(GNOSIS, 0, 13, ph.first, 16532);
      RunwayCeiling(13, 103, 16532);
    } else if ph.pending == 0 && ph.first >= 1 {
      RiseSooner(GNOSIS, 0, ph.first, 12, 16532);
      RunwayCeiling(12, 104, 16532);
    } else {
      PastTheFloor(ph, 16532);
      RunwayCeiling(0, 116, 16532);
    }
  }

  // ----- rounds skipped before funding --------------------------------------

  lemma PowersFarOut(n: nat)
    ensures n >= 108 ==> Power(Q(), n) >= 1.0904
    ensures n <= 162 ==> Power(Q(), n) <= 1.1388
  {
    hide Power;
    RunwayRounds();
    RateAtLeastOne(GNOSIS);
    if n >= 108 {
      PowerMono(Q(), 108, n);
    }
    if n <= 162 {
      PowerMono(Q(), n, 162);
    }
  }

  lemma {:induction false} PendingLives(pending: nat)
    requires 13 * pending <= 16530
    ensures Ceiling(GNOSIS, Phase(pending, 0), 16530 - 13 * pending) < 17280.0
  {
    hide Ceiling, Power;
    if pending == 0 {
      RunwayCeiling(0, 114, 16530);
    } else {
      var ph, t := Phase(pending - 1, 0), 16530 - 13 * pending;
      PendingLives(pending - 1);
      PowersFarOut(Adjustments(GNOSIS, ph, t));
      CeilingRisesBy(GNOSIS, ph, t, 13, 1.0904);
      PendingScales(GNOSIS, pending - 1, 0, t);
      OneRoundMore(Ceiling(GNOSIS, ph, t), Ceiling(GNOSIS, ph, t + 13), Ceiling(GNOSIS, Phase(pending, 0), t));
    }
  }

  lemma OneRoundMore(c: real, later: real, next: real)
    requires c + 1.0904 * 13.0 <= later < 17280.0 && next == Q() * c
    ensures next < 17280.0
  {
    assert 1048576.0 * next == 1049417.0 * c;
  }

  lemma {:induction false} PendingDies(pending: nat)
    requires pending <= 50
    ensures Ceiling(GNOSIS, Phase(pending, 0), 16531 - 12 * pending) >= 17280.0
  {
    hide Ceiling, Power;
    if pending == 0 {
      RunwayCeiling(0, 115, 16531);
    } else {
      var ph, t := Phase(pending - 1, 0), 16531 - 12 * pending;
      PendingDies(pending - 1);
      PowersFarOut(Adjustments(GNOSIS, ph, t + 12));
      CeilingRisesAtMost(GNOSIS, ph, t, 12, 1.1388);
      PendingScales(GNOSIS, pending - 1, 0, t);
      OneRoundLess(Ceiling(GNOSIS, ph, t), Ceiling(GNOSIS, ph, t + 12), Ceiling(GNOSIS, Phase(pending, 0), t));
    }
  }

  lemma OneRoundLess(c: real, later: real, next: real)
    requires 17280.0 <= later <= c + 1.1388 * 12.0 && next == Q() * c
    ensures next >= 17280.0
  {
    assert 1048576.0 * next == 1049417.0 * c;
  }

  /** Every round skipped before funding costs at most thirteen blocks, wherever the next round begins. */
  lemma SkippedRoundsCost(ph: Phase)
    requires 13 * ph.pending <= 16530
    ensures AlwaysLive(GRACE, GNOSIS, ph, 16530 - 13 * ph.pending)
  {
    var t := 16530 - 13 * ph.pending;
    hide Ceiling, AlwaysLive;
    PendingLives(ph.pending);
    RiseSooner(GNOSIS, ph.pending, 0, ph.first, t);
    AlwaysLiveExactlyWhen(GRACE, GNOSIS, ph, t);
  }

  /** With the next round at hand each costs twelve or thirteen. */
  lemma SkippedRoundsFloor(pending: nat)
    requires pending <= 50
    ensures 16531 - 13 * pending <= DeathBlock(GRACE, GNOSIS, Phase(pending, 0)) <= 16531 - 12 * pending
  {
    var ph := Phase(pending, 0);
    hide Ceiling, DeathBlock;
    PendingLives(pending);
    PendingDies(pending);
    BeforeDeathBlock(GRACE, GNOSIS, ph, 16530 - 13 * pending);
    BeforeDeathBlock(GRACE, GNOSIS, ph, 16531 - 12 * pending);
  }

  /** The two ends of a round, and one skipped round. */
  lemma DeathBlocks()
    ensures DeathBlock(GRACE, GNOSIS, Phase(0, 152)) == 16544
    ensures DeathBlock(GRACE, GNOSIS, Phase(0, 0)) == 16531
    ensures DeathBlock(GRACE, GNOSIS, Phase(1, 0)) == 16519
  {
    hide Ceiling, DeathBlock;
    RunwayCeiling(0, 114, 16530);
    RunwayCeiling(0, 115, 16531);
    DeathBlockIs(GRACE, GNOSIS, Phase(0, 0), 16530);
    ScaledOnceMore(102, 16518);
    ScaledOnceMore(103, 16519);
    DeathBlockIs(GRACE, GNOSIS, Phase(1, 0), 16518);
    ScaledOnceMore(127, 16543);
    ScaledOnceMore(128, 16544);
    DeathBlockIs(GRACE, GNOSIS, Phase(0, 152), 16543);
  }

  lemma ScaledOnceMore(rest: nat, t: nat)
    requires rest <= 152 && t == 16416 + rest
    ensures 1.00080204 * (17154.53321 + 1.09131930 * rest as real) <= Ceiling(GNOSIS, Phase(1, 0), t)
    ensures Ceiling(GNOSIS, Phase(1, 0), t) <= 1.00080205 * (17154.53323 + 1.09131931 * rest as real)
    ensures 17154.53321 + 1.09131930 * rest as real <= 1.00080205 * Ceiling(GNOSIS, Phase(0, 152), t)
    ensures 1.00080204 * Ceiling(GNOSIS, Phase(0, 152), t) <= 17154.53323 + 1.09131931 * rest as real
  {
    hide Ceiling;
    RunwayCeiling(0, rest, t);
    PendingScales(GNOSIS, 0, 0, t);
    PendingScales(GNOSIS, 0, 152, t);
    PendingIsAtOnce(GNOSIS, 0, t);
    CeilingAtLeast(GNOSIS, Phase(0, 0), t);
    CeilingAtLeast(GNOSIS, Phase(0, 152), t);
    AboutTheRate(Ceiling(GNOSIS, Phase(0, 0), t));
    AboutTheRate(Ceiling(GNOSIS, Phase(0, 152), t));
  }

  lemma AboutTheRate(x: real)
    requires x >= 0.0
    ensures 1.00080204 * x <= Q() * x <= 1.00080205 * x
  {
    assert 1048576.0 * (Q() * x) == 1049417.0 * x;
  }

  // ----- the failing paths --------------------------------------------------

  /** Wherever the documented floor fails it fails at a price anyone can pay: a batch funded at it is dead at 16531. */
  lemma FloorFails(ph: Phase) returns (ps: seq<Postage>)
    requires ph.first <= 152 && (ph.pending > 0 || ph.first == 0)
    ensures FundedPath(ps, Word(0), GRACE, PRICE) && |ps| == 16532 && UnderCeiling(PricesOf(ps), PRICE, GNOSIS, ph)
    ensures !Live(ps[16531], Word(0))
  {
    hide Ceiling, FundedPath, UnderCeiling, Live, PricesOf;
    RunwayCeiling(0, 115, 16531);
    PastTheFloor(ph, 16531);
    ps := FailsAtPrice(GRACE, ph, 16531);
  }

  /** The same at the floor itself: with a round beginning twelve blocks after funding or sooner, dead at 16532. */
  lemma FailsAtTheFloor(ph: Phase) returns (ps: seq<Postage>)
    requires ph.first <= 152 && (ph.pending > 0 || ph.first <= 12)
    ensures FundedPath(ps, Word(0), GRACE, PRICE) && |ps| == 16533 && UnderCeiling(PricesOf(ps), PRICE, GNOSIS, ph)
    ensures !Live(ps[16532], Word(0))
  {
    hide Ceiling, FundedPath, UnderCeiling, Live, PricesOf;
    if ph.pending == 0 {
      RunwayCeiling(12, 104, 16532);
      RiseSooner(GNOSIS, 0, ph.first, 12, 16532);
    } else {
      RunwayCeiling(0, 116, 16532);
      PastTheFloor(ph, 16532);
    }
    ps := FailsAtPrice(GRACE, ph, 16532);
  }

  /** The ceiling exceeds the runway by enough that rounding to whole prices does not save the batch. */
  lemma FailsAtPrice(grace: nat, ph: Phase, t: nat) returns (ps: seq<Postage>)
    requires grace > 0 && 1000000.0 * (Ceiling(GNOSIS, ph, t) - grace as real) >= t as real
    ensures FundedPath(ps, Word(0), grace, PRICE) && |ps| == t + 1 && UnderCeiling(PricesOf(ps), PRICE, GNOSIS, ph)
    ensures !Live(ps[t], Word(0))
  {
    TopDrainIsNear(GNOSIS, ph, PRICE, t, t + 1);
    assert Scaled(PRICE, Ceiling(GNOSIS, ph, t)) >= (grace * PRICE) as real + t as real;
    hide *;
    ps := TopPricesKill(grace, PRICE, GNOSIS, ph, t);
  }

  // ----- a runway of a week -------------------------------------------------

  const WEEK: nat := 120960

  /** How far the ceiling reaches after `first` blocks, 614 rounds and `rest` blocks more. */
  lemma WeekCeiling(first: nat, rest: nat, t: nat)
    requires rest <= 152 && t == first + 93328 + rest
    ensures first as real + 120629.6106 + 1.63731378 * rest as real <= Ceiling(GNOSIS, Phase(0, first), t)
    ensures Ceiling(GNOSIS, Phase(0, first), t) <= first as real + 120629.6108 + 1.63731379 * rest as real
  {
    hide Power, Geometric, Ceiling, Q;
    WeekRounds();
    SumOf(614);
    UnitCeiling(first, 614, rest);
    WeekNumbers(Power(Q(), 614), Geometric(Q(), 614), first, rest, Ceiling(GNOSIS, Phase(0, first), t));
  }

  lemma WeekNumbers(p: real, g: real, first: nat, rest: nat, c: real)
    requires 1.63600164462 <= p <= 1.63600164513 && 841.0 * g == 1048576.0 * (p - 1.0) && rest <= 152
    requires 1048576.0 * c == 1048576.0 * first as real + 1049417.0 * (152.0 * g + rest as real * p)
    ensures first as real + 120629.6106 + 1.63731378 * rest as real <= c
    ensures c <= first as real + 120629.6108 + 1.63731379 * rest as real
  {
    Product(rest as real, p - 1.63600164462);
    Product(rest as real, 1.63600164513 - p);
  }

  /** No batch funded for a week dies before block 93576, as documented, if and only if no adjustment is pending at funding
      and the next round begins at least 117 blocks later. */
  lemma WeekFloorHoldsExactlyWhen(ph: Phase)
    requires ph.first <= 152
    ensures AlwaysLive(WEEK, GNOSIS, ph, 93575) <==> ph.pending == 0 && ph.first >= 117
  {
    hide AlwaysLive, Ceiling;
    AlwaysLiveExactlyWhen(WEEK, GNOSIS, ph, 93575);
    if ph.pending == 0 && ph.first >= 117 {
      RiseSooner(GNOSIS, 0, 117, ph.first, 93575);
      WeekCeiling(117, 130, 93575);
    } else {
      PastTheWeek(ph);
    }
  }

  lemma PastTheWeek(ph: Phase)
    requires ph.first <= 152 && (ph.pending > 0 || ph.first <= 116)
    ensures Ceiling(GNOSIS, ph, 93575) >= 120960.098
  {
    hide Ceiling;
    WeekCeiling(116, 131, 93575);
    if ph.pending == 0 {
      RiseSooner(GNOSIS, 0, ph.first, 116, 93575);
    } else {
      PastTheFloor(ph, 93575);
      RiseSooner(GNOSIS, 0, 0, 116, 93575);
    }
  }

  /** And where it fails it fails at a price anyone can pay. */
  lemma WeekFloorFails(ph: Phase) returns (ps: seq<Postage>)
    requires ph.first <= 152 && (ph.pending > 0 || ph.first <= 116)
    ensures FundedPath(ps, Word(0), WEEK, PRICE) && |ps| == 93576 && UnderCeiling(PricesOf(ps), PRICE, GNOSIS, ph)
    ensures !Live(ps[93575], Word(0))
  {
    hide Ceiling, FundedPath, UnderCeiling, Live, PricesOf;
    PastTheWeek(ph);
    ps := FailsAtPrice(WEEK, ph, 93575);
  }

  /** The exact floor of a week at both ends of a round, and after one skipped round. */
  lemma WeekDeathBlocks()
    ensures DeathBlock(WEEK, GNOSIS, Phase(0, 152)) == 93589
    ensures DeathBlock(WEEK, GNOSIS, Phase(0, 0)) == 93530
    ensures DeathBlock(WEEK, GNOSIS, Phase(1, 0)) == 93471
  {
    hide Ceiling, DeathBlock;
    WeekCeiling(152, 108, 93588);
    WeekCeiling(152, 109, 93589);
    DeathBlockIs(WEEK, GNOSIS, Phase(0, 152), 93588);
    WeekCeiling(152, 49, 93529);
    PendingTimes(0, 152, 93529);
    PendingIsAtOnce(GNOSIS, 0, 93529);
    WeekCeiling(152, 50, 93530);
    PendingTimes(0, 152, 93530);
    PendingIsAtOnce(GNOSIS, 0, 93530);
    DeathBlockIs(WEEK, GNOSIS, Phase(0, 0), 93529);
    WeekCeiling(0, 142, 93470);
    PendingTimes(0, 0, 93470);
    WeekCeiling(0, 143, 93471);
    PendingTimes(0, 0, 93471);
    DeathBlockIs(WEEK, GNOSIS, Phase(1, 0), 93470);
  }

  /** One more adjustment pending multiplies the ceiling by about the rate. */
  lemma PendingTimes(pending: nat, first: nat, t: nat)
    ensures 1.00080204 * Ceiling(GNOSIS, Phase(pending, first), t) <= Ceiling(GNOSIS, Phase(pending + 1, first), t)
    ensures Ceiling(GNOSIS, Phase(pending + 1, first), t) <= 1.00080205 * Ceiling(GNOSIS, Phase(pending, first), t)
  {
    hide Ceiling;
    PendingScales(GNOSIS, pending, first, t);
    CeilingAtLeast(GNOSIS, Phase(pending, first), t);
    AboutTheRate(Ceiling(GNOSIS, Phase(pending, first), t));
  }

  // ----- a runway of an hour ------------------------------------------------

  const HOUR: nat := 300

  /** Two rounds into the runway, the first of them `first` blocks ahead. */
  lemma HourCeiling(first: nat, rest: nat)
    requires first + rest == 147
    ensures first as real + 152.121910095 + 1.001604723 * rest as real <= Ceiling(GNOSIS, Phase(0, first), 299)
    ensures Ceiling(GNOSIS, Phase(0, first), 299) <= first as real + 152.121910096 + 1.001604724 * rest as real
  {
    OneRound();
    SumOf(1);
    hide Power, Geometric, Ceiling, Q;
    UnitCeiling(first, 1, rest);
    HourNumbers(Power(Q(), 1), Geometric(Q(), 1), first, rest, Ceiling(GNOSIS, Phase(0, first), 299));
  }

  lemma HourNumbers(p: real, g: real, first: nat, rest: nat, c: real)
    requires 1.0008020401 <= p <= 1.0008020401001 && 841.0 * g == 1048576.0 * (p - 1.0) && 1048576.0 * p == 1049417.0
    requires 1048576.0 * c == 1048576.0 * first as real + 1049417.0 * (152.0 * g + rest as real * p)
    ensures first as real + 152.121910095 + 1.001604723 * rest as real <= c
    ensures c <= first as real + 152.121910096 + 1.001604724 * rest as real
  {
    assert 1048576.0 * (rest as real * p) == 1049417.0 * rest as real;
  }

  /** No batch funded for an hour dies before block 300 if and only if at most two adjustments are pending, or three and
      the next round begins at least 49 blocks later. */
  lemma HourFloorHoldsExactlyWhen(ph: Phase)
    requires ph.first <= 152
    ensures AlwaysLive(HOUR, GNOSIS, ph, 299) <==> ph.pending <= 2 || (ph.pending == 3 && ph.first >= 49)
  {
    hide AlwaysLive, Ceiling;
    AlwaysLiveExactlyWhen(HOUR, GNOSIS, ph, 299);
    HourCeilings();
    if ph.pending <= 2 {
      RiseSooner(GNOSIS, ph.pending, 0, ph.first, 299);
      MorePending(ph.pending, 2, 0);
    } else if ph.pending == 3 && ph.first >= 49 {
      RiseSooner(GNOSIS, 3, 49, ph.first, 299);
    } else {
      PastTheHour(ph);
    }
  }

  lemma PastTheHour(ph: Phase)
    requires ph.first <= 152 && (ph.pending > 3 || (ph.pending == 3 && ph.first <= 48))
    ensures Ceiling(GNOSIS, ph, 299) > 300.001
  {
    hide Ceiling;
    HourCeilings();
    if ph.pending == 3 {
      RiseSooner(GNOSIS, 3, ph.first, 48, 299);
    } else {
      RiseSooner(GNOSIS, ph.pending, ph.first, 152, 299);
      MorePending(4, ph.pending, 152);
      PendingIsAtOnce(GNOSIS, 3, 299);
      RiseSooner(GNOSIS, 3, 0, 48, 299);
    }
  }

  lemma HourFloorFails(ph: Phase) returns (ps: seq<Postage>)
    requires ph.first <= 152 && (ph.pending > 3 || (ph.pending == 3 && ph.first <= 48))
    ensures FundedPath(ps, Word(0), HOUR, PRICE) && |ps| == 300 && UnderCeiling(PricesOf(ps), PRICE, GNOSIS, ph)
    ensures !Live(ps[299], Word(0))
  {
    hide Ceiling, FundedPath, UnderCeiling, Live, PricesOf;
    PastTheHour(ph);
    ps := FailsAtPrice(HOUR, ph, 299);
  }

  lemma HourCeilings()
    ensures Ceiling(GNOSIS, Phase(2, 0), 299) < 300.0 && Ceiling(GNOSIS, Phase(3, 49), 299) < 300.0
    ensures Ceiling(GNOSIS, Phase(3, 48), 299) > 300.001
  {
    hide Ceiling;
    HourCeiling(0, 147);
    PendingTimes(0, 0, 299);
    PendingTimes(1, 0, 299);
    HourCeiling(49, 98);
    PendingTimes(0, 49, 299);
    PendingTimes(1, 49, 299);
    PendingTimes(2, 49, 299);
    HourCeiling(48, 99);
    PendingTimes(0, 48, 299);
    PendingTimes(1, 48, 299);
    PendingTimes(2, 48, 299);
  }

  lemma MorePending(a: nat, b: nat, first: nat)
    requires a <= b
    ensures Ceiling(GNOSIS, Phase(a, first), 299) <= Ceiling(GNOSIS, Phase(b, first), 299)
  {
    forall k: nat | k < 299
      ensures Adjustments(GNOSIS, Phase(a, first), k) <= Adjustments(GNOSIS, Phase(b, first), k)
    {
    }
    CeilingInPhase(GNOSIS, Phase(a, first), Phase(b, first), 299);
  }
}
