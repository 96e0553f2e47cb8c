/** From the contract to the artifact, through any number of killed syncs; and what a crash can still distort. */
module EndToEnd {
  import opened Chain
  import opened RegistrySpec
  import opened History
  import opened Invariants
  import opened Runs
  import opened EventStore
  import opened Projector
  import opened DailySeries
  import opened Payments
  import opened Attribution
  import opened Refinement
  import View
  import opened Sync
  import opened Resume
  import opened Crash

  /** However often syncing was killed before, a run that completes reports, for any moment up to its own, exactly the
      Active volumes and active accounts the contract had at that moment. */
  lemma StocksSurviveCrashes(cfg: Config, ws: seq<World>, ls: seq<Label>, k: nat, genesis: nat, ds: seq<Disk>,
                             ss: seq<Session>, i: nat, order: seq<EventName>, toBlock: nat, size: nat, asOf: nat,
                             cutoff: nat)
    requires Run(cfg, ws, ls) && LastMomentBy(ws, k, cutoff)
    requires Sessions(ws[|ws| - 1].env.log, genesis, ds, ss) && i < |ds| && ReadsAll(ds[i], order) && size > 0
    requires BlocksBy(ws[|ws| - 1].env.log, genesis, toBlock, asOf) && cutoff <= asOf
    ensures var events := FromRows(Feed(ds[i], order, ws[|ws| - 1].env.log, genesis, toBlock, size));
            var active := VolumesIn(TakeUntil(Of(events, ACTIVE_SET), cutoff));
            && (forall id :: id in active <==> VolumeAt(ws[k].reg, id).status == Active)
            && (forall id :: id in active ==> active[id] == VolumeAt(ws[k].reg, id).depth)
            && |active| == |ws[k].reg.active|
            && OwnersIn(TakeUntil(Of(events, ACCOUNTS), cutoff)) == ActiveOwners(ws[k].reg)
  {
    var log := ws[|ws| - 1].env.log;
    RunLogIsGood(cfg, ws, ls, |ws| - 1);
    hide Run, Sessions, GoodLog, BlocksBy, ReadsAll, Feed, Of, FromRows, TakeUntil, VolumesIn, OwnersIn, UpTo, Ordered;
    StoreInvAlways(log, genesis, ds, ss, i);
    StocksIgnoreLeftovers(log, genesis, ds[i], order, toBlock, size, asOf, cutoff);
    ReplayIsTheContract(cfg, ws, ls, k, log, cutoff);
    ReplaySeesTheChain(log, log, cutoff);
  }

  lemma RunLogIsGood(cfg: Config, ws: seq<World>, ls: seq<Label>, i: nat)
    requires Run(cfg, ws, ls) && i < |ws|
    ensures GoodLog(ws[i].env.log) && Ordered(ws[i].env.log)
  {
    hide StepOf, RegInv, AuthReplay, VolumeReplay, NoAllowance;
    InvAlways(cfg, ws, ls, i);
  }

  /** With nothing stored beyond the head, a resumed run also reports every fee PostageStamp received, and in every
      window exactly the owners charged. */
  lemma ResumedRunIsExact(cfg: Config, ws: seq<World>, ls: seq<Label>, genesis: nat, ds: seq<Disk>, ss: seq<Session>,
                          i: nat, order: seq<EventName>, toBlock: nat, size: nat, asOf: nat, lo: int, owner: Addr)
    requires Run(cfg, ws, ls) && ws[|ws| - 1].env.clock.now <= asOf
    requires Sessions(ws[|ws| - 1].env.log, genesis, ds, ss) && i < |ds| && ReadsAll(ds[i], order) && size > 0
    requires NothingBeyondHead(ds[i], genesis) && InRange(ws[|ws| - 1].env.log, genesis, toBlock)
    ensures var events := FromRows(Feed(ds[i], order, ws[|ws| - 1].env.log, genesis, toBlock, size));
            && FeesUpTo(Of(events, TRANSFERS), asOf) == -PulledFrom(ws, ls, cfg.stamp, |ls|)
            && (owner in PayersIn(Of(events, PAYMENTS), Of(events, ADMITS), lo, asOf)
                <==> IsChargedIn(ws[|ws| - 1].env.log, lo, asOf, owner))
  {
    var log := ws[|ws| - 1].env.log;
    var feed := Feed(ds[i], order, log, genesis, toBlock, size);
    RunLogIsGood(cfg, ws, ls, |ws| - 1);
    hide Run, Sessions, GoodLog, ReadsAll, Feed, Of, FromRows, PayersIn, IsChargedIn, Ordered, NothingBeyondHead, PulledFrom;
    StoreInvAlways(log, genesis, ds, ss, i);
    forall x
      ensures multiset(feed)[x] == multiset(log)[x]
    {
      FedOnce(log, genesis, ds[i], order, toBlock, size, x);
    }
    FeeTotalIsReceived(cfg, ws, ls, feed, asOf);
    PaidInWindowIsCharged(cfg, ws, ls, |ws| - 1, feed, lo, asOf, owner);
  }

  // ----- the entry ----------------------------------------------------------

  /** `_sync_and_project`: sync what is new and project the entry from the prior history and the fresh rows. */
  method SyncAndProject(store: Store, chain: seq<Row>, genesis: nat, toBlock: nat, size: nat, order: seq<EventName>,
                        genesisDay: nat, asOf: nat) returns (entry: Option<Entry>)
    requires store.Valid() && size > 0
    modifies store
    ensures store.Valid()
    ensures store.writes == old(store.writes) + RunWrites(chain, ResumeAt(old(store.OnDisk()), genesis), toBlock, size)
    ensures var events := FromRows(Feed(old(store.OnDisk()), order, chain, genesis, toBlock, size));
            && (entry.Some? <==> DepthsTabled(events, asOf))
            && (entry.Some? ==> IsEntry(events, genesisDay, asOf, entry.value))
  {
    hide After, RunWrites, Feed, FromRows, Typed, IsEntry, DepthsTabled;
    ghost var before := store.OnDisk();
    var events := SyncDelta(store, chain, genesis, toBlock, size, order);
    FromRowsIsTyped(Feed(before, order, chain, genesis, toBlock, size));
    entry := ProjectEntry(events, genesisDay, asOf);
  }

  /** Every day the entry reports, and its latest figures, are the contract's own levels at that day's end. */
  ghost predicate ReportsLevels(ws: seq<World>, asOf: nat, entry: Entry)
    requires ws != []
  {
    && (forall k :: 0 <= k < |entry.capacity.days| ==>
          entry.capacity.days[k] == ContractCapacity(ws, DayEnd(entry.capacity.first + k, asOf)))
    && (forall k :: 0 <= k < |entry.accounts.days| ==>
          entry.accounts.days[k] == ContractAccounts(ws, DayEnd(entry.accounts.first + k, asOf)))
    && entry.latest == ContractCapacity(ws, asOf) && entry.authorized == ContractAccounts(ws, asOf)
  }

  lemma EntryReportsLevels(cfg: Config, ws: seq<World>, ls: seq<Label>, rows: seq<Row>, genesisDay: nat, asOf: nat,
                           entry: Entry)
    requires Run(cfg, ws, ls) && SameRows(ws[|ws| - 1].env.log, rows)
    requires IsEntry(FromRows(rows), genesisDay, asOf, entry)
    ensures ReportsLevels(ws, asOf, entry)
  {
    assert ws != [];
    hide *;
    ReplayedLevels(cfg, ws, ls, rows, asOf);
    forall day: nat
      ensures Capacities(FromRows(rows), asOf)(day) == ContractCapacity(ws, DayEnd(day, asOf))
      ensures Authorisations(FromRows(rows), asOf)(day) == ContractAccounts(ws, DayEnd(day, asOf))
    {
      DailyLevelIsTheContract(cfg, ws, ls, rows, day, asOf);
    }
    LevelsOfEntry(ws, FromRows(rows), genesisDay, asOf, entry);
  }

  lemma LevelsOfEntry(ws: seq<World>, events: EventLog, genesisDay: nat, asOf: nat, entry: Entry)
    requires ws != [] && IsEntry(events, genesisDay, asOf, entry)
    requires forall day: nat :: Capacities(events, asOf)(day) == ContractCapacity(ws, DayEnd(day, asOf))
    requires forall day: nat :: Authorisations(events, asOf)(day) == ContractAccounts(ws, DayEnd(day, asOf))
    requires CapacityOf(VolumesIn(TakeUntil(Of(events, ACTIVE_SET), asOf))) == ContractCapacity(ws, asOf)
    requires |OwnersIn(TakeUntil(Of(events, ACCOUNTS), asOf))| == ContractAccounts(ws, asOf)
    ensures ReportsLevels(ws, asOf, entry)
  {
    hide Of, FirstDay, TakeUntil, VolumesIn, OwnersIn, Capacities, Authorisations, CapacityOf, ContractCapacity,
         ContractAccounts, CountsPayers, DayEnd;
  }

  /** The owners the registry charged in a window. */
  ghost function ChargedOwners(log: seq<Row>, lo: int, hi: nat): set<Addr> {
    set m | 0 <= m < |log| && IsPayment(log[m].event) && lo <= log[m].ts <= hi && BilledIn(log[..m], log[m].event).Some? ::
      BilledIn(log[..m], log[m].event).value
  }

  /** Those of them with a payment in the window that meets the count. */
  ghost function CountedOwners(chain: seq<Row>, extra: seq<Row>, lo: int, hi: nat): set<Addr> {
    set owner | owner in ChargedOwners(chain, lo, hi) && IsCountedIn(chain, extra, lo, hi, owner)
  }

  lemma ChargedOwner(log: seq<Row>, lo: int, hi: nat, owner: Addr)
    ensures owner in ChargedOwners(log, lo, hi) <==> IsChargedIn(log, lo, hi, owner)
  {
    hide BilledIn;
    if IsChargedIn(log, lo, hi, owner) {
      var m :| ChargedAt(log, m, lo, hi, owner);
      assert BilledIn(log[..m], log[m].event).value in ChargedOwners(log, lo, hi);
    }
    if owner in ChargedOwners(log, lo, hi) {
      var m :| 0 <= m < |log| && IsPayment(log[m].event) && lo <= log[m].ts <= hi
               && BilledIn(log[..m], log[m].event) == Some(owner);
      assert ChargedAt(log, m, lo, hi, owner);
    }
  }

  lemma CountsOf(events: EventLog, asOf: nat, counts: seq<nat>, chain: seq<Row>, extra: seq<Row>, w: nat)
    requires w < |PAID_IN_WINDOW_DAYS| && CountsPayers(events, asOf, PAID_IN_WINDOW_DAYS, counts)
    requires forall lo: int, owner :: owner in PayersIn(Of(events, PAYMENTS), Of(events, ADMITS), lo, asOf) <==>
                                      IsCountedIn(chain, extra, lo, asOf, owner)
    ensures w < |counts|
    ensures counts[w] == |CountedOwners(chain, extra, asOf - PAID_IN_WINDOW_DAYS[w] * ONE_DAY, asOf)|
  {
    hide Of, PayersIn, IsCountedIn, ChargedOwners;
    var lo := asOf - PAID_IN_WINDOW_DAYS[w] * ONE_DAY;
    forall owner
      ensures owner in PayersIn(Of(events, PAYMENTS), Of(events, ADMITS), lo, asOf) <==>
              owner in CountedOwners(chain, extra, lo, asOf)
    {
      ChargedOwner(chain, lo, asOf, owner);
      CountedIsCharged(chain, extra, lo, asOf, owner);
    }
    assert PayersIn(Of(events, PAYMENTS), Of(events, ADMITS), lo, asOf) == CountedOwners(chain, extra, lo, asOf);
  }

  lemma CountedIsCharged(chain: seq<Row>, extra: seq<Row>, lo: int, hi: nat, owner: Addr)
    ensures IsCountedIn(chain, extra, lo, hi, owner) ==> IsChargedIn(chain, lo, hi, owner)
  {
  }

  /** However often syncing was killed before, what a completed run projects is: on every reported day and at the end,
      the contract's own levels; as fees, those logged and those of the leftovers again; and in each window, the owners
      charged by a payment that meets the count. */
  lemma EntryAfterCrashes(cfg: Config, ws: seq<World>, ls: seq<Label>, genesis: nat, ds: seq<Disk>, ss: seq<Session>,
                          i: nat, order: seq<EventName>, toBlock: nat, size: nat, genesisDay: nat, asOf: nat, entry: Entry)
    requires Run(cfg, ws, ls) && Sessions(ws[|ws| - 1].env.log, genesis, ds, ss) && i < |ds|
    requires ReadsAll(ds[i], order) && size > 0 && InRange(ws[|ws| - 1].env.log, genesis, toBlock)
    requires IsEntry(FromRows(Feed(ds[i], order, ws[|ws| - 1].env.log, genesis, toBlock, size)), genesisDay, asOf, entry)
    ensures var log, extra := ws[|ws| - 1].env.log, Beyond(ds[i], order, genesis);
            && ReportsLevels(ws, asOf, entry)
            && entry.feeTotal == FeesUpTo(log, asOf) + FeesUpTo(extra, asOf)
            && |entry.paid| == |PAID_IN_WINDOW_DAYS|
            && forall w :: 0 <= w < |entry.paid| ==>
                 entry.paid[w] == |CountedOwners(log, extra, asOf - PAID_IN_WINDOW_DAYS[w] * ONE_DAY, asOf)|
  {
    var log, extra := ws[|ws| - 1].env.log, Beyond(ds[i], order, genesis);
    var feed := Feed(ds[i], order, log, genesis, toBlock, size);
    var events := FromRows(feed);
    RunLogIsGood(cfg, ws, ls, |ws| - 1);
    StoreInvAlways(log, genesis, ds, ss, i);
    RangeCovers(log, genesis, toBlock, asOf);
    EntryParts(events, genesisDay, asOf, entry);
    assert Resumable(log, genesis, ds[i], order, toBlock, size);
    hide *;
    FedSameRows(log, genesis, ds[i], order, toBlock, size);
    EntryReportsLevels(cfg, ws, ls, feed, genesisDay, asOf, entry);
    FeesCountLeftoversTwice(log, genesis, ds[i], order, toBlock, size, asOf);
    forall lo: int, owner
      ensures owner in PayersIn(Of(events, PAYMENTS), Of(events, ADMITS), lo, asOf) <==>
              IsCountedIn(log, extra, lo, asOf, owner)
    {
      PaidAfterCrash(log, genesis, ds[i], order, toBlock, size, lo, asOf, owner);
    }
    forall w | 0 <= w < |entry.paid|
      ensures entry.paid[w] == |CountedOwners(log, extra, asOf - PAID_IN_WINDOW_DAYS[w] * ONE_DAY, asOf)|
    {
      CountsOf(events, asOf, entry.paid, log, extra, w);
    }
  }

  lemma EntryParts(events: EventLog, genesisDay: nat, asOf: nat, entry: Entry)
    requires IsEntry(events, genesisDay, asOf, entry)
    ensures entry.feeTotal == FeesUpTo(Of(events, TRANSFERS), asOf)
    ensures CountsPayers(events, asOf, PAID_IN_WINDOW_DAYS, entry.paid) && |entry.paid| == |PAID_IN_WINDOW_DAYS|
  {
  }

  /** With nothing stored beyond the head, the entry is the contract's: its levels, every fee PostageStamp received, and
      in each window exactly the owners charged. */
  lemma EntryIsTheContract(cfg: Config, ws: seq<World>, ls: seq<Label>, genesis: nat, ds: seq<Disk>, ss: seq<Session>,
                           i: nat, order: seq<EventName>, toBlock: nat, size: nat, genesisDay: nat, asOf: nat, entry: Entry)
    requires Run(cfg, ws, ls) && ws[|ws| - 1].env.clock.now <= asOf
    requires Sessions(ws[|ws| - 1].env.log, genesis, ds, ss) && i < |ds|
    requires ReadsAll(ds[i], order) && size > 0 && InRange(ws[|ws| - 1].env.log, genesis, toBlock)
    requires NothingBeyondHead(ds[i], genesis)
    requires IsEntry(FromRows(Feed(ds[i], order, ws[|ws| - 1].env.log, genesis, toBlock, size)), genesisDay, asOf, entry)
    ensures ReportsLevels(ws, asOf, entry)
    ensures entry.feeTotal == -PulledFrom(ws, ls, cfg.stamp, |ls|)
    ensures |entry.paid| == |PAID_IN_WINDOW_DAYS|
    ensures forall w :: 0 <= w < |entry.paid| ==>
              entry.paid[w] == |ChargedOwners(ws[|ws| - 1].env.log, asOf - PAID_IN_WINDOW_DAYS[w] * ONE_DAY, asOf)|
  {
    var log := ws[|ws| - 1].env.log;
    var events := FromRows(Feed(ds[i], order, log, genesis, toBlock, size));
    EntryAfterCrashes(cfg, ws, ls, genesis, ds, ss, i, order, toBlock, size, genesisDay, asOf, entry);
    EntryParts(events, genesisDay, asOf, entry);
    ResumedRunIsExact(cfg, ws, ls, genesis, ds, ss, i, order, toBlock, size, asOf, asOf, 0);
    hide *;
    forall w | 0 <= w < |entry.paid|
      ensures entry.paid[w] == |ChargedOwners(log, asOf - PAID_IN_WINDOW_DAYS[w] * ONE_DAY, asOf)|
    {
      forall owner, lo: int
        ensures owner in PayersIn(Of(events, PAYMENTS), Of(events, ADMITS), lo, asOf) <==>
                IsChargedIn(log, lo, asOf, owner)
      {
        ResumedRunIsExact(cfg, ws, ls, genesis, ds, ss, i, order, toBlock, size, asOf, lo, owner);
      }
      ChargedCounts(events, asOf, entry.paid, log, w);
    }
  }

  /** So a crash distorts at most the runs up to the next one that completes: after any killed runs and then one that
      survives whole, going at least as far as every earlier one, the entry is the contract's again. */
  lemma OneCompletedRunHeals(cfg: Config, ws: seq<World>, ls: seq<Label>, genesis: nat, ds: seq<Disk>, ss: seq<Session>,
                             i: nat, order: seq<EventName>, toBlock: nat, size: nat, genesisDay: nat, asOf: nat,
                             entry: Entry)
    requires Run(cfg, ws, ls) && ws[|ws| - 1].env.clock.now <= asOf
    requires Sessions(ws[|ws| - 1].env.log, genesis, ds, ss) && i < |ss|
    requires Completed(ws[|ws| - 1].env.log, genesis, ds[i], ss[i])
    requires forall j :: 0 <= j < i ==> ss[j].toBlock <= ss[i].toBlock
    requires ReadsAll(ds[i + 1], order) && size > 0 && InRange(ws[|ws| - 1].env.log, genesis, toBlock)
    requires IsEntry(FromRows(Feed(ds[i + 1], order, ws[|ws| - 1].env.log, genesis, toBlock, size)), genesisDay, asOf,
                     entry)
    ensures ReportsLevels(ws, asOf, entry)
    ensures entry.feeTotal == -PulledFrom(ws, ls, cfg.stamp, |ls|)
    ensures |entry.paid| == |PAID_IN_WINDOW_DAYS|
    ensures forall w :: 0 <= w < |entry.paid| ==>
              entry.paid[w] == |ChargedOwners(ws[|ws| - 1].env.log, asOf - PAID_IN_WINDOW_DAYS[w] * ONE_DAY, asOf)|
  {
    var log := ws[|ws| - 1].env.log;
    hide *;
    SessionDisks(log, genesis, ds, ss);
    CompletedSessionHeals(log, genesis, ds, ss, i);
    EntryIsTheContract(cfg, ws, ls, genesis, ds, ss, i + 1, order, toBlock, size, genesisDay, asOf, entry);
  }

  lemma SessionDisks(log: seq<Row>, genesis: nat, ds: seq<Disk>, ss: seq<Session>)
    requires Sessions(log, genesis, ds, ss)
    ensures |ds| == |ss| + 1
  {
  }

  lemma ChargedCounts(events: EventLog, asOf: nat, counts: seq<nat>, log: seq<Row>, w: nat)
    requires w < |PAID_IN_WINDOW_DAYS| && CountsPayers(events, asOf, PAID_IN_WINDOW_DAYS, counts)
    requires forall owner, lo: int :: owner in PayersIn(Of(events, PAYMENTS), Of(events, ADMITS), lo, asOf) <==>
                                      IsChargedIn(log, lo, asOf, owner)
    ensures w < |counts|
    ensures counts[w] == |ChargedOwners(log, asOf - PAID_IN_WINDOW_DAYS[w] * ONE_DAY, asOf)|
  {
    hide Of, PayersIn, IsChargedIn, ChargedOwners;
    var lo := asOf - PAID_IN_WINDOW_DAYS[w] * ONE_DAY;
    forall owner
      ensures owner in PayersIn(Of(events, PAYMENTS), Of(events, ADMITS), lo, asOf) <==>
              owner in ChargedOwners(log, lo, asOf)
    {
      ChargedOwner(log, lo, asOf, owner);
    }
    assert PayersIn(Of(events, PAYMENTS), Of(events, ADMITS), lo, asOf) == ChargedOwners(log, lo, asOf);
  }

  lemma FedOnce(chain: seq<Row>, genesis: nat, d: Disk, order: seq<EventName>, toBlock: nat, size: nat, x: Row)
    requires GoodLog(chain) && StoreInv(chain, genesis, d) && genesis <= ResumeAt(d, genesis)
    requires ReadsAll(d, order) && size > 0 && NothingBeyondHead(d, genesis) && InRange(chain, genesis, toBlock)
    ensures multiset(Feed(d, order, chain, genesis, toBlock, size))[x] == multiset(chain)[x]
  {
    OrderedIsStrict(chain);
    hide GoodLog, ReadsAll, Feed, StrictlyInOrder;
    FeedCounts(chain, genesis, d, order, toBlock, size, x);
    StrictCounts(chain, x);
    if Stored(d, x) {
      assert x in FileOf(d.files, NameOf(x.event));
      assert x in d.files[NameOf(x.event)];
    }
  }

  /** A view's window fee is exactly what PostageStamp received from the registry since its first day began. */
  lemma WindowFeeIsReceived(cfg: Config, ws: seq<World>, ls: seq<Label>, rows: seq<Row>, genesisDay: nat, asOf: nat,
                            entry: Entry, window: View.Window, width: nat)
    requires Run(cfg, ws, ls) && multiset(rows) == multiset(ws[|ws| - 1].env.log)
    requires IsEntry(FromRows(rows), genesisDay, asOf, entry)
    ensures var start := View.WindowStart(entry, window, width);
            View.SumOn(entry.fees, View.WindowDates(entry, window, width)) ==
            if start > Day(asOf) then 0
            else ReceivedBy(cfg, ws, ls, asOf) - if start == 0 then 0 else ReceivedBy(cfg, ws, ls, start * ONE_DAY - 1)
  {
    hide Run, IsEntry, FromRows, Of, ReceivedBy, Day, SpanFees, View.WindowStart, View.WindowDates, View.SumOn;
    View.WindowFeeIsOfItsDays(FromRows(rows), genesisDay, asOf, entry, window, width);
    var start := View.WindowStart(entry, window, width);
    if start > Day(asOf) {
      View.EmptySpanFees(Of(FromRows(rows), TRANSFERS), start, asOf);
    } else {
      SpanIsReceived(cfg, ws, ls, rows, start, Day(asOf) + 1 - start, asOf);
    }
  }
}
