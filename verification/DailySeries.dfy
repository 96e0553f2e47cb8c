/** Stocks sampled at each day's end, series padded back to the genesis day, and the entry that holds them. */
module DailySeries {
  import opened Machine
  import opened Chain
  import opened History
  import opened EventStore
  import opened Projector
  import opened Payments

  // ----- days ---------------------------------------------------------------

  /** The inclusive right edge of a day; the day of `asOf` ends at `asOf`. */
  function DayEnd(day: nat, asOf: nat): nat {
    if day == Day(asOf) then asOf else (day + 1) * ONE_DAY - 1
  }

  /** A moment is within the edge exactly when it is in time and on that day or an earlier one. */
  lemma WithinDayEnd(day: nat, asOf: nat, ts: nat)
    requires day <= Day(asOf)
    ensures ts <= DayEnd(day, asOf) <==> ts <= asOf && Day(ts) <= day
  {
  }

  /** The fees of every row before a day. */
  function FeesBefore(rows: seq<Row>, day: nat): nat {
    if day == 0 then 0 else FeesUpTo(rows, day * ONE_DAY - 1)
  }

  lemma BeforeDay(day: nat, ts: nat)
    ensures Day(ts) < day <==> day > 0 && ts <= day * ONE_DAY - 1
  {
  }

  /** A span of days holds exactly the fees between the moment before its first day and the end of its last. */
  lemma {:induction false} SpanIsBetween(rows: seq<Row>, first: nat, n: nat, asOf: nat)
    requires n > 0 && first + n - 1 <= Day(asOf)
    ensures FeesBefore(rows, first) + SpanFees(rows, first, n, asOf) == FeesUpTo(rows, DayEnd(first + n - 1, asOf))
  {
    hide SpanFees, DayEnd, Day;
    if rows == [] {
      EmptySpan(first, n, asOf);
    } else {
      SpanIsBetween(Init(rows), first, n, asOf);
      SpanAddsOneRow(rows, first, n, asOf);
      WithinDayEnd(first + n - 1, asOf, Last(rows).ts);
      BeforeDay(first, Last(rows).ts);
      DaysInOrder(Last(rows).ts, asOf);
    }
  }

  lemma DaysInOrder(ts: nat, asOf: nat)
    ensures Day(ts) < Day(asOf) ==> ts <= asOf
  {
  }

  // ----- capacity -----------------------------------------------------------

  const CHUNK_SIZE_BYTES: nat := 4096
  const SHALLOWEST: nat := 17

  function NominalBytes(depth: nat): nat {
    Pow2(depth) * CHUNK_SIZE_BYTES
  }

  /** Usable bytes at depths 17 to 41. */
  function EffectiveTable(): (table: seq<nat>)
    ensures |table| == 25
  {
    [44700, 6660000, 112060000, 687620000, 2600000000, 7730000000, 19940000000, 47060000000, 105510000000,
     227980000000, 476680000000, 993650000000, 2040000000000, 4170000000000, 8450000000000, 17070000000000,
     34360000000000, 69040000000000, 138540000000000, 277720000000000, 556350000000000, 1110000000000000,
     2230000000000000, 4460000000000000, 8930000000000000]
  }

  predicate Tabled(depth: nat) {
    SHALLOWEST <= depth < SHALLOWEST + |EffectiveTable()|
  }

  /** The lookup; a depth off the table has no entry, and no capacity that needs it is ever reported. */
  function EffectiveBytes(depth: nat): nat {
    if Tabled(depth) then EffectiveTable()[depth - SHALLOWEST] else 0
  }

  datatype DailyCapacity = DailyCapacity(activeVolumes: nat, nominalBytes: nat, effectiveBytes: nat)

  const NO_CAPACITY := DailyCapacity(0, 0, 0)

  ghost function Total(active: map<Bytes32, nat>, bytes: nat -> nat): nat
    decreases |active|
  {
    if active == map[] then 0
    else
      var id :| id in active;
      Smaller(active, id);
      bytes(active[id]) + Total(active - {id}, bytes)
  }

  lemma Smaller(active: map<Bytes32, nat>, id: Bytes32)
    requires id in active
    ensures |active - {id}| == |active| - 1
  {
    assert (active - {id}).Keys == active.Keys - {id};
    assert |active.Keys| == |active| && |(active - {id}).Keys| == |active - {id}|;
  }

  /** The total does not depend on the order the volumes are taken in. */
  lemma {:induction false} TotalTakes(active: map<Bytes32, nat>, bytes: nat -> nat, id: Bytes32)
    requires id in active
    ensures Total(active, bytes) == bytes(active[id]) + Total(active - {id}, bytes)
    decreases |active|
  {
    var chosen :| chosen in active && Total(active, bytes) == bytes(active[chosen]) + Total(active - {chosen}, bytes);
    if chosen != id {
      Smaller(active, chosen);
      Smaller(active, id);
      TotalTakes(active - {chosen}, bytes, id);
      TotalTakes(active - {id}, bytes, chosen);
      assert active - {chosen} - {id} == active - {id} - {chosen};
    }
  }

  ghost predicate AllTabled(active: map<Bytes32, nat>) {
    forall id :: id in active ==> Tabled(active[id])
  }

  ghost function CapacityOf(active: map<Bytes32, nat>): DailyCapacity {
    DailyCapacity(|active|, Total(active, NominalBytes), Total(active, EffectiveBytes))
  }

  /** Each volume adds itself: one to the count, 4096 bytes per chunk to the nominal figure, its table entry to the
      effective one. */
  lemma CapacityAddsOne(active: map<Bytes32, nat>, id: Bytes32, depth: nat)
    requires id !in active && Tabled(depth)
    ensures CapacityOf(map[]) == NO_CAPACITY
    ensures var before := CapacityOf(active);
            CapacityOf(active[id := depth]) ==
            DailyCapacity(before.activeVolumes + 1, before.nominalBytes + 4096 * Pow2(depth),
                          before.effectiveBytes + EffectiveTable()[depth - 17])
  {
    hide Total, Pow2, EffectiveTable;
    NothingTotals();
    TotalAddsOne(active, NominalBytes, id, depth);
    TotalAddsOne(active, EffectiveBytes, id, depth);
  }

  lemma TotalAddsOne(active: map<Bytes32, nat>, bytes: nat -> nat, id: Bytes32, depth: nat)
    requires id !in active
    ensures Total(active[id := depth], bytes) == bytes(depth) + Total(active, bytes)
    ensures |active[id := depth]| == |active| + 1
  {
    hide Total;
    TotalTakes(active[id := depth], bytes, id);
    assert active[id := depth] - {id} == active;
    Smaller(active[id := depth], id);
  }

  lemma NothingTotals()
    ensures CapacityOf(map[]) == NO_CAPACITY
  {
  }

  /** The exact bytes at depths 17 to 41. */
  function ExactTable(): (table: seq<nat>)
    ensures |table| == 25
  {
    [536870912, 1073741824, 2147483648, 4294967296, 8589934592, 17179869184, 34359738368, 68719476736,
     137438953472, 274877906944, 549755813888, 1099511627776, 2199023255552, 4398046511104, 8796093022208,
     17592186044416, 35184372088832, 70368744177664, 140737488355328, 281474976710656, 562949953421312,
     1125899906842624, 2251799813685248, 4503599627370496, 9007199254740992]
  }

  lemma {:induction false} NominalIsExact(depth: nat, shallowest: nat)
    requires shallowest == 17 && shallowest <= depth <= 41
    ensures NominalBytes(depth) == ExactTable()[depth - 17]
  {
    if depth == shallowest {
      Pow2Of17(shallowest);
    } else {
      NominalIsExact(depth - 1, shallowest);
      assert ExactTable()[depth - 17] == 2 * ExactTable()[depth - 1 - 17];
    }
  }

  lemma Pow2Of17(n: nat)
    requires n == 17
    ensures Pow2(n) == 131072
  {
    assert Pow2(4) == 16;
    var n8, n16 := 8, 16;
    Pow2Doubles(4, n8, 16);
    Pow2Doubles(n8, n16, 0x100);
  }

  lemma TableIsBelowExact(depth: nat)
    requires Tabled(depth)
    ensures EffectiveBytes(depth) < NominalBytes(depth)
  {
    NominalIsExact(depth, 17);
    hide Pow2, NominalBytes;
    assert EffectiveTable()[depth - 17] < ExactTable()[depth - 17];
  }

  /** The usable figure never reaches the nominal one, unless there is nothing to hold. */
  lemma {:induction false} EffectiveIsBelowNominal(active: map<Bytes32, nat>)
    requires AllTabled(active)
    ensures var c := CapacityOf(active);
            if active == map[] then c == NO_CAPACITY else c.effectiveBytes < c.nominalBytes
    decreases |active|
  {
    hide EffectiveBytes, NominalBytes, EffectiveTable;
    if active != map[] {
      var id :| id in active;
      TableIsBelowExact(active[id]);
      TotalTakes(active, NominalBytes, id);
      TotalTakes(active, EffectiveBytes, id);
      Smaller(active, id);
      EffectiveIsBelowNominal(active - {id});
    }
  }

  /** The sums of one day; a depth off the effective table has no figure at all. */
  method CapacityAt(active: map<Bytes32, nat>) returns (capacity: Option<DailyCapacity>)
    ensures capacity.Some? <==> AllTabled(active)
    ensures capacity.Some? ==> capacity.value == CapacityOf(active)
  {
    hide Tabled, EffectiveBytes, NominalBytes;
    var rest, nominal, effective := active, 0, 0;
    while rest != map[]
      invariant forall id :: id in rest ==> id in active && rest[id] == active[id]
      invariant forall id :: id in active && id !in rest ==> Tabled(active[id])
      invariant nominal + Total(rest, NominalBytes) == Total(active, NominalBytes)
      invariant effective + Total(rest, EffectiveBytes) == Total(active, EffectiveBytes)
      decreases |rest|
    {
      var id :| id in rest;
      if !Tabled(rest[id]) {
        return None;
      }
      Smaller(rest, id);
      TotalTakes(rest, NominalBytes, id);
      TotalTakes(rest, EffectiveBytes, id);
      nominal, effective := nominal + NominalBytes(rest[id]), effective + EffectiveBytes(rest[id]);
      rest := rest - {id};
    }
    capacity := Some(DailyCapacity(|active|, nominal, effective));
  }

  // ----- stocks, day by day -------------------------------------------------

  function ActiveOn(events: EventLog, day: nat, asOf: nat): map<Bytes32, nat> {
    VolumesIn(TakeUntil(Of(events, ACTIVE_SET), DayEnd(day, asOf)))
  }

  function OwnersOn(events: EventLog, day: nat, asOf: nat): set<Addr> {
    OwnersIn(TakeUntil(Of(events, ACCOUNTS), DayEnd(day, asOf)))
  }

  ghost function Capacities(events: EventLog, asOf: nat): nat -> DailyCapacity {
    (day: nat) => CapacityOf(ActiveOn(events, day, asOf))
  }

  ghost function Authorisations(events: EventLog, asOf: nat): nat -> nat {
    (day: nat) => |OwnersOn(events, day, asOf)|
  }

  ghost function DailyFees(events: EventLog, asOf: nat): nat -> nat {
    (day: nat) => DayFees(Of(events, TRANSFERS), day, asOf)
  }

  /** One entry per day, without a gap, from `first` to the day of `asOf`. */
  ghost predicate Samples<T(!new)>(series: Series<T>, first: nat, asOf: nat, value: nat -> T) {
    && series.first == first && first + |series.days| == Day(asOf) + 1
    && forall k :: 0 <= k < |series.days| ==> series.days[k] == value(first + k)
  }

  ghost predicate DepthsTabled(events: EventLog, asOf: nat) {
    forall day :: FirstDay(Of(events, ADMITS), asOf) <= day <= Day(asOf) ==> AllTabled(ActiveOn(events, day, asOf))
  }

  /** `capacity_daily`. */
  method CapacityDaily(events: EventLog, asOf: nat) returns (series: Option<Series<DailyCapacity>>)
    requires Typed(events)
    ensures series.Some? <==> DepthsTabled(events, asOf)
    ensures series.Some? ==> Samples(series.value, FirstDay(Of(events, ADMITS), asOf), asOf, Capacities(events, asOf))
  {
    var first := FirstDay(Of(events, ADMITS), asOf);
    FirstDayIsFirst(Of(events, ADMITS), asOf);
    hide Typed, Of, FirstDay, TakeUntil, VolumesIn, CapacityOf, AllTabled;
    var days := [];
    for day := first to Day(asOf) + 1
      invariant |days| == day - first
      invariant forall k :: 0 <= k < |days| ==> days[k] == CapacityOf(ActiveOn(events, first + k, asOf))
      invariant forall d :: first <= d < day ==> AllTabled(ActiveOn(events, d, asOf))
    {
      var active := ActiveSetAt(events, DayEnd(day, asOf));
      var capacity := CapacityAt(active);
      if capacity.None? {
        assert !AllTabled(ActiveOn(events, day, asOf));
        return None;
      }
      days := days + [capacity.value];
    }
    series := Some(Series(first, days));
  }

  /** `accounts_daily`. */
  method AccountsDaily(events: EventLog, asOf: nat) returns (series: Series<nat>)
    requires Typed(events)
    ensures Samples(series, FirstDay(Of(events, ACCOUNTS), asOf), asOf, Authorisations(events, asOf))
  {
    var first := FirstDay(Of(events, ACCOUNTS), asOf);
    FirstDayIsFirst(Of(events, ACCOUNTS), asOf);
    hide Typed, Of, FirstDay, TakeUntil, OwnersIn;
    var days := [];
    for day := first to Day(asOf) + 1
      invariant |days| == day - first
      invariant forall k :: 0 <= k < |days| ==> days[k] == |OwnersOn(events, first + k, asOf)|
    {
      var count := AuthorizedAt(events, DayEnd(day, asOf));
      days := days + [count];
    }
    series := Series(first, days);
  }

  // ----- padding back to genesis --------------------------------------------

  /** `_pad_front`: zero days from genesis up to a later first day. */
  function PadFront<T>(series: Series<T>, genesisDay: nat, zero: T): Series<T> {
    if series.days == [] || genesisDay >= series.first then series
    else Series(genesisDay, seq(series.first - genesisDay, _ => zero) + series.days)
  }

  lemma PaddingSamples<T(!new)>(series: Series<T>, genesisDay: nat, zero: T, first: nat, asOf: nat, value: nat -> T)
    requires Samples(series, first, asOf, value) && first <= Day(asOf)
    requires forall d: nat :: d < first ==> value(d) == zero
    ensures Samples(PadFront(series, genesisDay, zero), Min(genesisDay, first), asOf, value)
  {
    var padded := PadFront(series, genesisDay, zero);
    if genesisDay < first {
      forall k | 0 <= k < |padded.days|
        ensures padded.days[k] == value(genesisDay + k)
      {
        if k >= first - genesisDay {
          assert padded.days[k] == series.days[k - (first - genesisDay)];
        }
      }
    }
  }

  lemma {:induction false} InGather(events: EventLog, names: seq<EventName>, x: Row)
    ensures x in Gather(events, names) <==> exists name :: name in names && x in Get(events, name)
  {
    if names != [] {
      InGather(events, names[..|names| - 1], x);
      assert names == names[..|names| - 1] + [names[|names| - 1]];
    }
  }

  lemma InOf(events: EventLog, names: seq<EventName>, x: Row)
    ensures x in Of(events, names) <==> exists name :: name in names && x in Get(events, name)
  {
    SortMembers(Gather(events, names), x);
    InGather(events, names, x);
  }

  lemma {:induction false} NoAdmitsNoVolumes(rows: seq<Row>)
    requires forall r :: r in rows ==> !IsAdmit(r.event)
    ensures VolumesIn(rows) == map[]
  {
    if rows != [] {
      assert rows == Init(rows) + [Last(rows)];
      assert Last(rows) in rows;
      NoAdmitsNoVolumes(Init(rows));
    }
  }

  /** Before the first admit's day there is no active volume: a padded zero is the true level. */
  lemma NoVolumesBefore(events: EventLog, day: nat, asOf: nat)
    requires Typed(events) && day < FirstDay(Of(events, ADMITS), asOf)
    ensures ActiveOn(events, day, asOf) == map[] && Capacities(events, asOf)(day) == NO_CAPACITY
  {
    hide Of, VolumesIn, FirstDay;
    var rows, admits := Of(events, ACTIVE_SET), Of(events, ADMITS);
    var cut := TakeUntil(rows, DayEnd(day, asOf));
    TakeUntilIsPrefix(rows, DayEnd(day, asOf));
    FirstDayIsFirst(admits, asOf);
    forall r | r in cut
      ensures !IsAdmit(r.event)
    {
      var k :| 0 <= k < |cut| && cut[k] == r;
      assert rows[k] == r && r in rows && r.ts <= DayEnd(day, asOf);
      WithinDayEnd(day, asOf, r.ts);
      assert r !in admits;
      InOf(events, ACTIVE_SET, r);
      InOf(events, ADMITS, r);
      var name :| name in ACTIVE_SET && r in Get(events, name);
      assert NameOf(r.event) == name;
      assert ADMITS[0] == NameVolumeCreated && ADMITS[1] == NameVolumeImported;
    }
    NoAdmitsNoVolumes(cut);
  }

  lemma NoOwnersBefore(events: EventLog, day: nat, asOf: nat)
    requires day < FirstDay(Of(events, ACCOUNTS), asOf)
    ensures OwnersOn(events, day, asOf) == {}
  {
    var rows := Of(events, ACCOUNTS);
    TakeUntilIsPrefix(rows, DayEnd(day, asOf));
    FirstDayIsFirst(rows, asOf);
    if TakeUntil(rows, DayEnd(day, asOf)) != [] {
      assert rows[0] in rows;
      WithinDayEnd(day, asOf, rows[0].ts);
      assert false;
    }
  }

  lemma {:induction false} NoFeesBefore(rows: seq<Row>, day: nat, asOf: nat)
    requires forall r :: r in rows && r.ts <= asOf ==> Day(r.ts) != day
    ensures DayFees(rows, day, asOf) == 0
  {
    if rows != [] {
      assert rows == Init(rows) + [Last(rows)];
      assert Last(rows) in rows;
      NoFeesBefore(Init(rows), day, asOf);
    }
  }

  // ----- the entry ----------------------------------------------------------

  datatype Entry = Entry(fees: Series<nat>, capacity: Series<DailyCapacity>, accounts: Series<nat>,
                         feeTotal: nat, latest: DailyCapacity, authorized: nat, paid: seq<nat>)

  /** Every day of every series, the padded ones included, is the true value of that day. */
  ghost predicate IsEntry(events: EventLog, genesisDay: nat, asOf: nat, entry: Entry) {
    && Samples(entry.fees, Min(genesisDay, FirstDay(Of(events, TRANSFERS), asOf)), asOf, DailyFees(events, asOf))
    && Samples(entry.capacity, Min(genesisDay, FirstDay(Of(events, ADMITS), asOf)), asOf, Capacities(events, asOf))
    && Samples(entry.accounts, Min(genesisDay, FirstDay(Of(events, ACCOUNTS), asOf)), asOf,
               Authorisations(events, asOf))
    && entry.feeTotal == Sum(entry.fees.days) == FeesUpTo(Of(events, TRANSFERS), asOf)
    && entry.latest == CapacityOf(VolumesIn(TakeUntil(Of(events, ACTIVE_SET), asOf)))
    && entry.authorized == |OwnersIn(TakeUntil(Of(events, ACCOUNTS), asOf))|
    && CountsPayers(events, asOf, PAID_IN_WINDOW_DAYS, entry.paid)
  }

  lemma PaddedSeries(events: EventLog, genesisDay: nat, asOf: nat, fees: Series<nat>, capacity: Series<DailyCapacity>,
                     accounts: Series<nat>)
    requires Typed(events)
    requires Samples(fees, FirstDay(Of(events, TRANSFERS), asOf), asOf, DailyFees(events, asOf))
    requires Samples(capacity, FirstDay(Of(events, ADMITS), asOf), asOf, Capacities(events, asOf))
    requires Samples(accounts, FirstDay(Of(events, ACCOUNTS), asOf), asOf, Authorisations(events, asOf))
    ensures Samples(PadFront(fees, genesisDay, 0), Min(genesisDay, FirstDay(Of(events, TRANSFERS), asOf)), asOf,
                    DailyFees(events, asOf))
    ensures Samples(PadFront(capacity, genesisDay, NO_CAPACITY), Min(genesisDay, FirstDay(Of(events, ADMITS), asOf)),
                    asOf, Capacities(events, asOf))
    ensures Samples(PadFront(accounts, genesisDay, 0), Min(genesisDay, FirstDay(Of(events, ACCOUNTS), asOf)), asOf,
                    Authorisations(events, asOf))
  {
    hide Typed, Of, CapacityOf, ActiveOn, OwnersOn, FirstDay, Samples;
    FirstDayIsFirst(Of(events, TRANSFERS), asOf);
    FirstDayIsFirst(Of(events, ADMITS), asOf);
    FirstDayIsFirst(Of(events, ACCOUNTS), asOf);
    forall d: nat | d < FirstDay(Of(events, TRANSFERS), asOf)
      ensures DailyFees(events, asOf)(d) == 0
    {
      NoFeesBefore(Of(events, TRANSFERS), d, asOf);
    }
    forall d: nat | d < FirstDay(Of(events, ADMITS), asOf)
      ensures Capacities(events, asOf)(d) == NO_CAPACITY
    {
      NoVolumesBefore(events, d, asOf);
    }
    forall d: nat | d < FirstDay(Of(events, ACCOUNTS), asOf)
      ensures Authorisations(events, asOf)(d) == 0
    {
      NoOwnersBefore(events, d, asOf);
    }
    PaddingSamples(fees, genesisDay, 0, FirstDay(Of(events, TRANSFERS), asOf), asOf, DailyFees(events, asOf));
    PaddingSamples(capacity, genesisDay, NO_CAPACITY, FirstDay(Of(events, ADMITS), asOf), asOf,
                   Capacities(events, asOf));
    PaddingSamples(accounts, genesisDay, 0, FirstDay(Of(events, ACCOUNTS), asOf), asOf, Authorisations(events, asOf));
  }

  lemma {:induction false} PaddingAddsNothing(n: nat, days: seq<nat>)
    ensures Sum(seq(n, _ => 0) + days) == Sum(days)
  {
    var zeros := seq(n, _ => 0);
    if days != [] {
      var more := zeros + days;
      assert more[..|more| - 1] == zeros + days[..|days| - 1];
      PaddingAddsNothing(n, days[..|days| - 1]);
    } else if n > 0 {
      PaddingAddsNothing(n - 1, []);
      assert zeros + [] == zeros && zeros[..n - 1] == seq(n - 1, _ => 0) + [];
    }
  }

  lemma LastSample<T(!new)>(series: Series<T>, first: nat, asOf: nat, value: nat -> T)
    requires Samples(series, first, asOf, value) && first <= Day(asOf)
    ensures series.days != [] && series.days[|series.days| - 1] == value(Day(asOf))
  {
  }

  lemma LastDayIsAsOf(events: EventLog, asOf: nat)
    ensures Capacities(events, asOf)(Day(asOf)) == CapacityOf(VolumesIn(TakeUntil(Of(events, ACTIVE_SET), asOf)))
    ensures Authorisations(events, asOf)(Day(asOf)) == |OwnersIn(TakeUntil(Of(events, ACCOUNTS), asOf))|
  {
  }

  lemma PaddedSum(series: Series<nat>, genesisDay: nat)
    ensures Sum(PadFront(series, genesisDay, 0).days) == Sum(series.days)
  {
    if series.days != [] && genesisDay < series.first {
      PaddingAddsNothing(series.first - genesisDay, series.days);
      assert PadFront(series, genesisDay, 0).days == seq(series.first - genesisDay, _ => 0) + series.days;
    }
  }

  /** `project_entry`, for one deployment's rows. */
  method ProjectEntry(events: EventLog, genesisDay: nat, asOf: nat) returns (entry: Option<Entry>)
    requires Typed(events)
    ensures entry.Some? <==> DepthsTabled(events, asOf)
    ensures entry.Some? ==> IsEntry(events, genesisDay, asOf, entry.value)
  {
    hide Typed, Of, FirstDay, DepthsTabled, Samples, PadFront, Capacities, Authorisations, Sum, CapacityOf, CountsPayers;
    var fees := FeeVolumeDaily(events, asOf);
    var capacity := CapacityDaily(events, asOf);
    var accounts := AccountsDaily(events, asOf);
    if capacity.None? {
      return None;
    }
    var paid := PaidInWindow(events, asOf, PAID_IN_WINDOW_DAYS);
    FeeSeriesConserves(Of(events, TRANSFERS), asOf, fees);
    FirstDayIsFirst(Of(events, TRANSFERS), asOf);
    FirstDayIsFirst(Of(events, ADMITS), asOf);
    FirstDayIsFirst(Of(events, ACCOUNTS), asOf);
    FeesAreSamples(events, asOf, fees);
    PaddedSeries(events, genesisDay, asOf, fees, capacity.value, accounts);
    var paddedFees := PadFront(fees, genesisDay, 0);
    var paddedCapacity := PadFront(capacity.value, genesisDay, NO_CAPACITY);
    var paddedAccounts := PadFront(accounts, genesisDay, 0);
    PaddedSum(fees, genesisDay);
    LastDayIsAsOf(events, asOf);
    LastSample(paddedCapacity, Min(genesisDay, FirstDay(Of(events, ADMITS), asOf)), asOf, Capacities(events, asOf));
    LastSample(paddedAccounts, Min(genesisDay, FirstDay(Of(events, ACCOUNTS), asOf)), asOf,
               Authorisations(events, asOf));
    entry := Some(Entry(paddedFees, paddedCapacity, paddedAccounts, Sum(paddedFees.days),
                        paddedCapacity.days[|paddedCapacity.days| - 1],
                        paddedAccounts.days[|paddedAccounts.days| - 1], paid));
  }

  lemma FeesAreSamples(events: EventLog, asOf: nat, fees: Series<nat>)
    requires var rows := Of(events, TRANSFERS);
             && fees.first == FirstDay(rows, asOf)
             && |fees.days| == Day(asOf) + 1 - fees.first
             && forall k :: 0 <= k < |fees.days| ==> fees.days[k] == DayFees(rows, fees.first + k, asOf)
    ensures Samples(fees, FirstDay(Of(events, TRANSFERS), asOf), asOf, DailyFees(events, asOf))
  {
  }

  // ----- one date list ------------------------------------------------------

  ghost predicate OneDateList(entry: Entry) {
    && entry.capacity.first == entry.fees.first == entry.accounts.first
    && |entry.capacity.days| == |entry.fees.days| == |entry.accounts.days|
  }

  /** The three series share their dates exactly when no measure starts before genesis, or all start on one day. */
  lemma DatesAgreeExactlyWhen(events: EventLog, genesisDay: nat, asOf: nat, entry: Entry)
    requires IsEntry(events, genesisDay, asOf, entry)
    ensures var fees, admits, accounts := FirstDay(Of(events, TRANSFERS), asOf), FirstDay(Of(events, ADMITS), asOf),
                                          FirstDay(Of(events, ACCOUNTS), asOf);
            OneDateList(entry) <==>
              || (genesisDay <= fees && genesisDay <= admits && genesisDay <= accounts)
              || fees == admits == accounts
  {
    hide FirstDay, Of, Sum, FeesUpTo, CapacityOf, VolumesIn, OwnersIn;
  }

  /** When no event in time precedes the genesis day, they do, whatever the events are. */
  lemma DatesAgreeFromGenesis(rows: seq<Row>, genesisDay: nat, asOf: nat, entry: Entry)
    requires IsEntry(FromRows(rows), genesisDay, asOf, entry)
    requires forall r :: r in rows && r.ts <= asOf ==> genesisDay <= Day(r.ts)
    ensures OneDateList(entry)
  {
    hide IsEntry, FirstDay, Of, FromRows;
    var events := FromRows(rows);
    FirstDayAfter(rows, TRANSFERS, genesisDay, asOf);
    FirstDayAfter(rows, ADMITS, genesisDay, asOf);
    FirstDayAfter(rows, ACCOUNTS, genesisDay, asOf);
    DatesAgreeExactlyWhen(events, genesisDay, asOf, entry);
  }

  lemma FirstDayAfter(rows: seq<Row>, names: seq<EventName>, genesisDay: nat, asOf: nat)
    requires forall r :: r in rows && r.ts <= asOf ==> genesisDay <= Day(r.ts)
    ensures var first := FirstDay(Of(FromRows(rows), names), asOf);
            first <= Day(asOf) && (genesisDay <= first || first == Day(asOf))
  {
    var merged := Of(FromRows(rows), names);
    FirstDayIsFirst(merged, asOf);
    if FirstDay(merged, asOf) != Day(asOf) {
      var r :| r in merged && r.ts <= asOf && Day(r.ts) == FirstDay(merged, asOf);
      OfMembers(rows, names, r);
    }
  }
}
