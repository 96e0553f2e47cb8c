/** The client's view of an entry: a window of days cut into buckets, flows summed, stocks read at the right edge. */
module View {
  import opened Machine
  import opened Chain
  import opened History
  import opened EventStore
  import opened Projector
  import opened DailySeries

  // ----- windows and buckets ------------------------------------------------

  datatype Window = Since(day: nat) | LastBuckets(count: nat)

  function Dates(entry: Entry): seq<nat> {
    seq(|entry.fees.days|, k => entry.fees.first + k)
  }

  function OnOrAfter(dates: seq<nat>, day: nat): seq<nat> {
    if dates == [] then []
    else (if dates[0] >= day then [dates[0]] else []) + OnOrAfter(dates[1..], day)
  }

  /** The slice `dates[-n:]`: everything when n is zero, or at least the length. */
  function LastDates(dates: seq<nat>, n: nat): seq<nat> {
    if n == 0 || n >= |dates| then dates else dates[|dates| - n..]
  }

  function WindowDates(entry: Entry, window: Window, width: nat): seq<nat> {
    match window
    case Since(day) => OnOrAfter(Dates(entry), day)
    case LastBuckets(count) => LastDates(Dates(entry), count * width)
  }

  /** Left-aligned runs of `width` dates; only the last may be shorter. */
  function Buckets(dates: seq<nat>, width: nat): (buckets: seq<seq<nat>>)
    requires width > 0
    ensures forall i :: 0 <= i < |buckets| ==> 0 < |buckets[i]| <= width
    ensures buckets == [] <==> dates == []
  {
    if dates == [] then []
    else if |dates| <= width then [dates]
    else [dates[..width]] + Buckets(dates[width..], width)
  }

  /** `i * width`, added up. */
  function Offset(i: nat, width: nat): nat {
    if i == 0 then 0 else Offset(i - 1, width) + width
  }

  lemma {:induction false} OffsetIsProduct(i: nat, width: nat)
    ensures Offset(i, width) == i * width
  {
    if i > 0 {
      OffsetIsProduct(i - 1, width);
    }
  }

  /** Bucket i is the slice of `width` dates from i * width, and the slices stop where the dates do. */
  lemma {:induction false} BucketIsSlice(dates: seq<nat>, width: nat, i: nat)
    requires width > 0 && i < |Buckets(dates, width)|
    ensures Offset(i, width) < |dates|
    ensures Buckets(dates, width)[i] == dates[Offset(i, width)..Min(Offset(i + 1, width), |dates|)]
    ensures i == |Buckets(dates, width)| - 1 <==> Offset(i + 1, width) >= |dates|
    decreases |dates|
  {
    hide Buckets, Offset;
    MoreBuckets(dates, width);
    NextOffset(i, width);
    if |dates| > width {
      if i == 0 {
        MoreBuckets(dates[width..], width);
      } else {
        NextOffset(i - 1, width);
        BucketIsSlice(dates[width..], width, i - 1);
        SliceOfRest(dates, width, Offset(i - 1, width), Min(Offset(i, width), |dates| - width));
      }
    }
  }

  lemma MoreBuckets(dates: seq<nat>, width: nat)
    requires width > 0
    ensures |dates| <= width && dates != [] ==> Buckets(dates, width) == [dates]
    ensures |dates| > width ==> Buckets(dates, width) == [dates[..width]] + Buckets(dates[width..], width)
  {
  }

  lemma NextOffset(i: nat, width: nat)
    ensures Offset(0, width) == 0 && Offset(i + 1, width) == Offset(i, width) + width
  {
  }

  lemma SliceOfRest(dates: seq<nat>, width: nat, lo: nat, hi: nat)
    requires width <= |dates| && lo <= hi <= |dates| - width
    ensures dates[width..][lo..hi] == dates[lo + width..hi + width]
  {
  }

  function Flatten(buckets: seq<seq<nat>>): seq<nat> {
    if buckets == [] then [] else buckets[0] + Flatten(buckets[1..])
  }

  /** The buckets partition the window: joined up they are the window's dates, each once and in order. */
  lemma {:induction false} BucketsPartition(dates: seq<nat>, width: nat)
    requires width > 0
    ensures Flatten(Buckets(dates, width)) == dates
    decreases |dates|
  {
    if |dates| > width {
      BucketsPartition(dates[width..], width);
      assert Buckets(dates, width)[1..] == Buckets(dates[width..], width);
      assert dates == dates[..width] + dates[width..];
    } else if dates != [] {
      assert Buckets(dates, width)[1..] == [];
    }
  }

  // ----- the view -----------------------------------------------------------

  /** The day's value in a series, or `zero` for a date the series does not hold. */
  function ValueOn<T>(series: Series<T>, day: nat, zero: T): T {
    if series.first <= day < series.first + |series.days| then series.days[day - series.first] else zero
  }

  function SumOn(series: Series<nat>, dates: seq<nat>): nat {
    if dates == [] then 0
    else SumOn(series, dates[..|dates| - 1]) + ValueOn(series, dates[|dates| - 1], 0)
  }

  datatype Basis = Nominal | Effective
  datatype FeePoint = FeePoint(start: nat, fee: nat)
  datatype CapacityPoint = CapacityPoint(start: nat, activeVolumes: nat, bytes: nat)
  datatype AccountPoint = AccountPoint(start: nat, authorized: nat)

  datatype ViewModel = ViewModel(feeTotal: nat, feeWindow: nat, fees: seq<FeePoint>, capacity: seq<CapacityPoint>,
                                 accounts: seq<AccountPoint>, paid: seq<nat>)

  function CapacityBytes(c: DailyCapacity, basis: Basis): nat {
    if basis == Nominal then c.nominalBytes else c.effectiveBytes
  }

  function Edge(bucket: seq<nat>): nat
    requires bucket != []
  {
    bucket[|bucket| - 1]
  }

  function FeePointOf(entry: Entry, bucket: seq<nat>): FeePoint
    requires bucket != []
  {
    FeePoint(bucket[0], SumOn(entry.fees, bucket))
  }

  function CapacityPointOf(entry: Entry, bucket: seq<nat>, basis: Basis): CapacityPoint
    requires bucket != []
  {
    var c := ValueOn(entry.capacity, Edge(bucket), NO_CAPACITY);
    CapacityPoint(bucket[0], c.activeVolumes, CapacityBytes(c, basis))
  }

  function AccountPointOf(entry: Entry, bucket: seq<nat>): AccountPoint
    requires bucket != []
  {
    AccountPoint(bucket[0], ValueOn(entry.accounts, Edge(bucket), 0))
  }

  method SumDates(series: Series<nat>, dates: seq<nat>) returns (sum: nat)
    ensures sum == SumOn(series, dates)
  {
    sum := 0;
    for i := 0 to |dates|
      invariant sum == SumOn(series, dates[..i])
    {
      assert dates[..i + 1][..i] == dates[..i];
      sum := sum + ValueOn(series, dates[i], 0);
    }
    assert dates[..|dates|] == dates;
  }

  /** `resolve_view`, in atomic units. */
  method ResolveView(entry: Entry, width: nat, window: Window, basis: Basis) returns (view: ViewModel)
    requires width > 0
    ensures var buckets := Buckets(WindowDates(entry, window, width), width);
            && |view.fees| == |view.capacity| == |view.accounts| == |buckets|
            && (forall i :: 0 <= i < |buckets| ==> view.fees[i] == FeePointOf(entry, buckets[i]))
            && (forall i :: 0 <= i < |buckets| ==> view.capacity[i] == CapacityPointOf(entry, buckets[i], basis))
            && (forall i :: 0 <= i < |buckets| ==> view.accounts[i] == AccountPointOf(entry, buckets[i]))
    ensures view.feeTotal == entry.feeTotal && view.paid == entry.paid
    ensures view.feeWindow == SumOn(entry.fees, WindowDates(entry, window, width))
  {
    hide WindowDates, ValueOn, SumOn;
    var dates := WindowDates(entry, window, width);
    var buckets := Buckets(dates, width);
    hide Buckets;
    var fees, capacity := [], [];
    for i := 0 to |buckets|
      invariant |fees| == i
      invariant forall k :: 0 <= k < i ==> fees[k] == FeePointOf(entry, buckets[k])
    {
      var fee := SumDates(entry.fees, buckets[i]);
      fees := fees + [FeePoint(buckets[i][0], fee)];
    }
    var feeWindow := SumDates(entry.fees, dates);
    for i := 0 to |buckets|
      invariant |capacity| == i
      invariant forall k :: 0 <= k < i ==> capacity[k] == CapacityPointOf(entry, buckets[k], basis)
    {
      var edge := ValueOn(entry.capacity, Edge(buckets[i]), NO_CAPACITY);
      capacity := capacity + [CapacityPoint(buckets[i][0], edge.activeVolumes, CapacityBytes(edge, basis))];
    }
    var accounts := seq(|buckets|, i requires 0 <= i < |buckets| => AccountPointOf(entry, buckets[i]));
    view := ViewModel(entry.feeTotal, feeWindow, fees, capacity, accounts, entry.paid);
  }

  // ----- flows --------------------------------------------------------------

  function PointSum(points: seq<FeePoint>): nat {
    if points == [] then 0 else points[0].fee + PointSum(points[1..])
  }

  lemma {:induction false} SumOnJoins(series: Series<nat>, a: seq<nat>, b: seq<nat>)
    ensures SumOn(series, a + b) == SumOn(series, a) + SumOn(series, b)
  {
    if b == [] {
      assert a + b == a;
    } else {
      assert (a + b)[..|a + b| - 1] == a + b[..|b| - 1];
      SumOnJoins(series, a, b[..|b| - 1]);
    }
  }

  lemma {:induction false} PointsSumToJoined(entry: Entry, buckets: seq<seq<nat>>, points: seq<FeePoint>)
    requires |points| == |buckets|
    requires forall i :: 0 <= i < |buckets| ==> points[i].fee == SumOn(entry.fees, buckets[i])
    ensures PointSum(points) == SumOn(entry.fees, Flatten(buckets))
  {
    if buckets != [] {
      forall i | 0 <= i < |buckets[1..]|
        ensures points[1..][i].fee == SumOn(entry.fees, buckets[1..][i])
      {
        assert points[1..][i] == points[i + 1] && buckets[1..][i] == buckets[i + 1];
      }
      PointsSumToJoined(entry, buckets[1..], points[1..]);
      SumOnJoins(entry.fees, buckets[0], Flatten(buckets[1..]));
    }
  }

  /** No fee of the window is lost or counted twice between buckets. */
  lemma BucketFeesConserve(entry: Entry, dates: seq<nat>, width: nat, points: seq<FeePoint>)
    requires width > 0 && |points| == |Buckets(dates, width)|
    requires forall i :: 0 <= i < |points| ==> points[i] == FeePointOf(entry, Buckets(dates, width)[i])
    ensures PointSum(points) == SumOn(entry.fees, dates)
  {
    BucketsPartition(dates, width);
    PointsSumToJoined(entry, Buckets(dates, width), points);
  }

  lemma {:induction false} AllDatesSum(entry: Entry, n: nat)
    requires n <= |entry.fees.days|
    ensures SumOn(entry.fees, Dates(entry)[..n]) == Sum(entry.fees.days[..n])
  {
    if n > 0 {
      AllDatesSum(entry, n - 1);
      assert Dates(entry)[..n][..n - 1] == Dates(entry)[..n - 1];
      assert entry.fees.days[..n][..n - 1] == entry.fees.days[..n - 1];
    }
  }

  lemma {:induction false} AllOnOrAfter(dates: seq<nat>, day: nat)
    requires forall d :: d in dates ==> d >= day
    ensures OnOrAfter(dates, day) == dates
  {
    if dates != [] {
      assert dates[0] in dates;
      assert forall d :: d in dates[1..] ==> d in dates;
      AllOnOrAfter(dates[1..], day);
    }
  }

  /** A window reaching back to the first date reports the whole history: window and total agree. */
  lemma WholeWindowIsTotal(events: EventLog, genesisDay: nat, asOf: nat, entry: Entry, window: Window, width: nat)
    requires IsEntry(events, genesisDay, asOf, entry)
    requires match window
             case Since(day) => day <= entry.fees.first
             case LastBuckets(count) => count * width == 0 || count * width >= |entry.fees.days|
    ensures SumOn(entry.fees, WindowDates(entry, window, width)) == entry.feeTotal
  {
    hide Samples, SumOn, Sum;
    if window.Since? {
      AllOnOrAfter(Dates(entry), window.day);
    }
    AllDatesSum(entry, |entry.fees.days|);
    assert Dates(entry)[..|entry.fees.days|] == Dates(entry);
    assert entry.fees.days[..|entry.fees.days|] == entry.fees.days;
  }

  // ----- every point is the true value --------------------------------------

  /** A run of days without a gap. */
  ghost predicate Contiguous(dates: seq<nat>) {
    forall k :: 0 <= k < |dates| ==> dates[k] == dates[0] + k
  }

  lemma {:induction false} SuffixOnOrAfter(dates: seq<nat>, day: nat)
    requires Contiguous(dates)
    ensures |OnOrAfter(dates, day)| <= |dates|
    ensures OnOrAfter(dates, day) == dates[|dates| - |OnOrAfter(dates, day)|..]
  {
    if dates != [] {
      if dates[0] >= day {
        AllOnOrAfter(dates, day);
      } else {
        assert forall k :: 0 <= k < |dates[1..]| ==> dates[1..][k] == dates[k + 1];
        SuffixOnOrAfter(dates[1..], day);
      }
    }
  }

  /** Every window is a suffix of the fee dates, so its buckets are gap-free too. */
  lemma WindowIsSuffix(entry: Entry, window: Window, width: nat)
    ensures var dates := WindowDates(entry, window, width);
            |dates| <= |entry.fees.days| && dates == Dates(entry)[|entry.fees.days| - |dates|..]
  {
    if window.Since? {
      assert Contiguous(Dates(entry));
      SuffixOnOrAfter(Dates(entry), window.day);
    }
  }

  /** The day a window starts on: its own `day`, or the first of the last `count` buckets' worth of days, but never
      outside the fee dates; zero buckets' worth is, as the slice `[-0:]` has it, all of them. */
  function WindowStart(entry: Entry, window: Window, width: nat): nat {
    var first, n := entry.fees.first, |entry.fees.days|;
    match window
    case Since(day) => if day <= first then first else Min(day, first + n)
    case LastBuckets(count) => if count * width == 0 || count * width >= n then first else first + n - count * width
  }

  /** The dates run without a gap from `start` up to `end`. */
  ghost predicate RunsFrom(dates: seq<nat>, start: nat, end: nat) {
    start + |dates| == end && forall k :: 0 <= k < |dates| ==> dates[k] == start + k
  }

  lemma {:induction false} RunOnOrAfter(dates: seq<nat>, first: nat, day: nat)
    requires RunsFrom(dates, first, first + |dates|)
    ensures OnOrAfter(dates, day) == dates[if day <= first then 0 else Min(day - first, |dates|)..]
  {
    if dates != [] {
      if day <= first {
        assert forall d :: d in dates ==> d >= day;
        AllOnOrAfter(dates, day);
      } else {
        RunOnOrAfter(dates[1..], first + 1, day);
      }
    }
  }

  lemma RunOfWindow(entry: Entry, window: Window, width: nat)
    ensures RunsFrom(WindowDates(entry, window, width), WindowStart(entry, window, width),
                     entry.fees.first + |entry.fees.days|)
  {
    if window.Since? {
      RunOnOrAfter(Dates(entry), entry.fees.first, window.day);
    }
  }

  lemma InRun(dates: seq<nat>, start: nat, end: nat, d: nat)
    requires RunsFrom(dates, start, end)
    ensures d in dates <==> start <= d < end
  {
    if start <= d < end {
      assert dates[d - start] == d;
    }
  }

  /** A window holds a date exactly when it is one of the fee dates and the window reaches back to it; its dates run
      without a gap from where it starts to the last fee date. */
  lemma WindowHolds(entry: Entry, window: Window, width: nat, d: nat)
    ensures var first, n := entry.fees.first, |entry.fees.days|;
            && RunsFrom(WindowDates(entry, window, width), WindowStart(entry, window, width), first + n)
            && (d in WindowDates(entry, window, width) <==>
                && first <= d < first + n
                && match window
                   case Since(day) => d >= day
                   case LastBuckets(count) => count * width == 0 || d >= first + n - count * width)
  {
    RunOfWindow(entry, window, width);
    InRun(WindowDates(entry, window, width), WindowStart(entry, window, width), entry.fees.first + |entry.fees.days|, d);
    hide WindowDates, RunsFrom;
  }

  /** The window's fee is the fees of exactly its days. */
  lemma WindowFeeIsOfItsDays(events: EventLog, genesisDay: nat, asOf: nat, entry: Entry, window: Window, width: nat)
    requires IsEntry(events, genesisDay, asOf, entry)
    ensures WindowStart(entry, window, width) <= Day(asOf) + 1
    ensures SumOn(entry.fees, WindowDates(entry, window, width)) ==
            SpanFees(Of(events, TRANSFERS), WindowStart(entry, window, width),
                     Day(asOf) + 1 - WindowStart(entry, window, width), asOf)
  {
    hide WindowDates, WindowStart, SumOn, SpanFees, Of, Sum, FeesUpTo, CapacityOf, VolumesIn, OwnersIn, TakeUntil, FirstDay;
    RunOfWindow(entry, window, width);
    StartIsAFeeDate(entry, window, width);
    SumIsSpanFees(events, asOf, entry.fees, entry.fees.first, WindowDates(entry, window, width));
    EmptySpanFees(Of(events, TRANSFERS), WindowStart(entry, window, width), asOf);
  }

  lemma StartIsAFeeDate(entry: Entry, window: Window, width: nat)
    ensures entry.fees.first <= WindowStart(entry, window, width) <= entry.fees.first + |entry.fees.days|
  {
  }

  lemma EmptySpanFees(rows: seq<Row>, first: nat, asOf: nat)
    ensures SpanFees(rows, first, 0, asOf) == 0
  {
  }

  lemma BucketDays(entry: Entry, window: Window, width: nat, i: nat)
    requires width > 0 && i < |Buckets(WindowDates(entry, window, width), width)|
    ensures var bucket := Buckets(WindowDates(entry, window, width), width)[i];
            && bucket != [] && Contiguous(bucket)
            && entry.fees.first <= bucket[0] && Edge(bucket) < entry.fees.first + |entry.fees.days|
  {
    hide WindowDates, Buckets;
    WindowIsSuffix(entry, window, width);
    var dates := WindowDates(entry, window, width);
    BucketIsSlice(dates, width, i);
    var bucket, from, skipped := Buckets(dates, width)[i], Offset(i, width), |entry.fees.days| - |dates|;
    assert forall k :: 0 <= k < |bucket| ==> bucket[k] == dates[from + k] == entry.fees.first + skipped + from + k;
  }

  lemma {:induction false} SumIsSpanFees(events: EventLog, asOf: nat, fees: Series<nat>, first: nat, bucket: seq<nat>)
    requires Samples(fees, first, asOf, DailyFees(events, asOf)) && Contiguous(bucket)
    requires bucket != [] ==> first <= bucket[0] && Edge(bucket) <= Day(asOf)
    ensures bucket == [] ==> SumOn(fees, bucket) == 0
    ensures bucket != [] ==> SumOn(fees, bucket) == SpanFees(Of(events, TRANSFERS), bucket[0], |bucket|, asOf)
  {
    hide Of, DayFees;
    if bucket != [] {
      var rest := bucket[..|bucket| - 1];
      SumIsSpanFees(events, asOf, fees, first, rest);
      assert ValueOn(fees, Edge(bucket), 0) == DailyFees(events, asOf)(Edge(bucket));
      assert SpanFees(Of(events, TRANSFERS), bucket[0], 0, asOf) == 0;
    }
  }

  /** Every point of the view is the truth about its bucket: the fees of its days, and the level at its last day's end.
      A date a stock series does not hold reads as zero, and zero is then the true level. */
  lemma EveryPointIsTrue(events: EventLog, genesisDay: nat, asOf: nat, entry: Entry, window: Window, width: nat,
                         basis: Basis, i: nat)
    requires Typed(events) && IsEntry(events, genesisDay, asOf, entry)
    requires width > 0 && i < |Buckets(WindowDates(entry, window, width), width)|
    ensures var bucket := Buckets(WindowDates(entry, window, width), width)[i];
            && bucket != [] && Contiguous(bucket)
            && var first, last := bucket[0], bucket[|bucket| - 1];
            var level := CapacityOf(ActiveOn(events, last, asOf));
            && last <= Day(asOf)
            && FeePointOf(entry, bucket) ==
               FeePoint(first, SpanFees(Of(events, TRANSFERS), first, last + 1 - first, asOf))
            && CapacityPointOf(entry, bucket, basis) ==
               CapacityPoint(first, level.activeVolumes,
                             match basis case Nominal => level.nominalBytes case Effective => level.effectiveBytes)
            && AccountPointOf(entry, bucket) == AccountPoint(first, |OwnersOn(events, last, asOf)|)
  {
    hide Typed, WindowDates, Buckets, Of, FirstDay, CapacityOf, OwnersOn, ActiveOn, Sum, FeesUpTo, VolumesIn, OwnersIn,
         TakeUntil;
    var bucket := Buckets(WindowDates(entry, window, width), width)[i];
    BucketDays(entry, window, width, i);
    SumIsSpanFees(events, asOf, entry.fees, entry.fees.first, bucket);
    StockIsTrue(events, genesisDay, asOf, entry, Edge(bucket));
  }

  lemma StockIsTrue(events: EventLog, genesisDay: nat, asOf: nat, entry: Entry, day: nat)
    requires Typed(events) && IsEntry(events, genesisDay, asOf, entry) && day <= Day(asOf)
    ensures ValueOn(entry.capacity, day, NO_CAPACITY) == CapacityOf(ActiveOn(events, day, asOf))
    ensures ValueOn(entry.accounts, day, 0) == |OwnersOn(events, day, asOf)|
  {
    hide Typed, Of, FirstDay, CapacityOf, OwnersOn, ActiveOn, Sum, FeesUpTo, VolumesIn, OwnersIn, TakeUntil;
    if day < entry.capacity.first {
      NoVolumesBefore(events, day, asOf);
    }
    if day < entry.accounts.first {
      NoOwnersBefore(events, day, asOf);
    }
  }

  /** With one date list no point ever falls back on the zero of a missing date. */
  lemma NeverAMissingEdge(entry: Entry, window: Window, width: nat, i: nat)
    requires OneDateList(entry) && width > 0 && i < |Buckets(WindowDates(entry, window, width), width)|
    ensures var edge := Edge(Buckets(WindowDates(entry, window, width), width)[i]);
            && entry.capacity.first <= edge < entry.capacity.first + |entry.capacity.days|
            && entry.accounts.first <= edge < entry.accounts.first + |entry.accounts.days|
  {
    BucketDays(entry, window, width, i);
    var bucket := Buckets(WindowDates(entry, window, width), width)[i];
    assert Edge(bucket) == bucket[0] + (|bucket| - 1);
  }
}
