/** firmware/main/node_power_logger.cpp: the per-day split files, computed once and
    chained from day to day, against the fold they memoise. Dates are day numbers
    and the card is a map from date to contents. */
module SplitCache {
  import opened Options
  import opened DaySplit
  import opened LedgerLaws

  type Days = map<int, Day>
  type Cache = map<int, Split>

  /** Days back that ledger_before may recompute. */
  const CHAIN_DEPTH: nat := 7

  // ---- The fold without a cache ----------------------------------------------------------

  function DaysUpTo(days: Days, date: int): set<int> {
    set k | k in days && k <= date
  }

  /** The ledger at the end of a day, chained from the first day with grid data. */
  function Fold(days: Days, date: int): Ledger
    decreases DaysUpTo(days, date)
  {
    if date !in days then UNKNOWN
    else
      assert date in DaysUpTo(days, date) && date !in DaysUpTo(days, date - 1);
      SplitOf(days[date], Fold(days, date - 1)).end
  }

  /** A day's split with the whole history behind it. */
  function TrueSplit(days: Days, date: int): Option<Split> {
    if date in days then Some(SplitOf(days[date], Fold(days, date - 1))) else None
  }

  /** A cached day agrees with the fold. */
  ghost predicate Agrees(days: Days, cache: Cache, date: int)
    requires date in cache
  {
    TrueSplit(days, date) == Some(cache[date])
  }

  ghost predicate Coherent(days: Days, cache: Cache) {
    forall d :: d in cache ==> Agrees(days, cache, d)
  }

  ghost predicate CoherentBefore(days: Days, cache: Cache, date: int) {
    forall d :: d in cache && d < date ==> Agrees(days, cache, d)
  }

  /** What was recorded on a later day does not change the fold. */
  lemma {:induction false} FoldIgnoresLater(days: Days, more: Days, date: int)
    requires forall k :: k <= date ==> (k in days <==> k in more) && (k in days ==> days[k] == more[k])
    ensures Fold(days, date) == Fold(more, date)
    decreases DaysUpTo(days, date)
  {
    if date in days {
      assert date in DaysUpTo(days, date) && date !in DaysUpTo(days, date - 1);
      FoldIgnoresLater(days, more, date - 1);
    }
  }

  /** Over every chain of days, gaps included, the ledger is sound. */
  lemma {:induction false} FoldSound(days: Days, date: int)
    ensures Sound(Fold(days, date))
    decreases DaysUpTo(days, date)
  {
    if date in days {
      assert date in DaysUpTo(days, date) && date !in DaysUpTo(days, date - 1);
      FoldSound(days, date - 1);
      DaySound(days[date], Fold(days, date - 1));
    }
  }

  // ---- day_split and ledger_before -----------------------------------------------------------

  datatype Outcome<T> = Outcome(value: T, cache: Cache)

  function CachedSplit(days: Days, cache: Cache, date: int, isToday: bool, start: Ledger): Outcome<Option<Split>> {
    if !isToday && date in cache then Outcome(Some(cache[date]), cache)
    else if date !in days then Outcome(None, cache)
    else
      var split := SplitOf(days[date], start);
      Outcome(Some(split), if isToday then cache else cache[date := split])
  }

  function EndOf(split: Option<Split>): Ledger {
    if split.Some? then split.value.end else UNKNOWN
  }

  function LedgerBefore(days: Days, cache: Cache, date: int, depth: nat): Outcome<Ledger>
    decreases depth, date
  {
    var prev := date - 1;
    if prev in cache then Outcome(cache[prev].end, cache)
    else if depth == 0 || prev !in days then Outcome(UNKNOWN, cache)
    else
      var before := LedgerBefore(days, cache, prev, depth - 1);
      var split := CachedSplit(days, before.cache, prev, false, before.value);
      Outcome(EndOf(split.value), split.cache)
  }

  ghost predicate SoundCache(cache: Cache) {
    forall d :: d in cache ==> Sound(cache[d].end)
  }

  /** Whatever sound splits the cache holds, stale ones included, the chain from it is sound. */
  lemma {:induction false} LedgerBeforeSound(days: Days, cache: Cache, date: int, depth: nat)
    requires SoundCache(cache)
    ensures var o := LedgerBefore(days, cache, date, depth);
            Sound(o.value) && SoundCache(o.cache)
    decreases depth
  {
    var prev := date - 1;
    if prev !in cache && depth > 0 && prev in days {
      LedgerBeforeSound(days, cache, prev, depth - 1);
      DaySound(days[prev], LedgerBefore(days, cache, prev, depth - 1).value);
    }
  }

  /** One of the n days before date is cached or has no grid file. */
  ghost predicate AnchoredWithin(present: set<int>, cached: set<int>, date: int, n: nat) {
    exists d :: date - n <= d < date && Anchor(present, cached, d)
  }

  ghost predicate Anchor(present: set<int>, cached: set<int>, date: int) {
    date in cached || date !in present
  }

  ghost predicate Anchored(present: set<int>, cached: set<int>, date: int) {
    AnchoredWithin(present, cached, date, CHAIN_DEPTH + 1)
  }

  lemma SplitKeepsCoherence(days: Days, cache: Cache, limit: int, date: int)
    requires CoherentBefore(days, cache, limit) && date < limit
    ensures var o := CachedSplit(days, cache, date, false, Fold(days, date - 1));
            && o.value == TrueSplit(days, date)
            && CoherentBefore(days, o.cache, limit)
            && EndOf(o.value) == Fold(days, date)
            && cache.Keys <= o.cache.Keys <= cache.Keys + {date}
            && (forall d :: d in cache ==> o.cache[d] == cache[d])
            && Anchor(days.Keys, o.cache.Keys, date)
  {
    if date in cache {
      assert Agrees(days, cache, date);
    }
  }

  /** Anchored, ledger_before returns the fold's ledger and keeps the cache coherent,
      adding days before date only. */
  lemma {:induction false} LedgerBeforeIsFold(days: Days, cache: Cache, date: int, limit: int, depth: nat)
    requires CoherentBefore(days, cache, limit) && date <= limit
    requires AnchoredWithin(days.Keys, cache.Keys, date, depth + 1)
    ensures var o := LedgerBefore(days, cache, date, depth);
            && o.value == Fold(days, date - 1)
            && CoherentBefore(days, o.cache, limit)
            && cache.Keys <= o.cache.Keys
            && (forall d :: d in cache ==> o.cache[d] == cache[d])
            && (forall d :: d in o.cache && d !in cache ==> d < date)
            && Anchor(days.Keys, o.cache.Keys, date - 1)
    decreases depth
  {
    var prev := date - 1;
    if prev in cache {
      assert Agrees(days, cache, prev);
    } else if prev in days {
      assert !Anchor(days.Keys, cache.Keys, prev);
      LedgerBeforeIsFold(days, cache, prev, limit, depth - 1);
      SplitKeepsCoherence(days, LedgerBefore(days, cache, prev, depth - 1).cache, limit, prev);
    }
  }

  // ---- Where the chain is too short --------------------------------------------------------------

  function Zeros(): Minutes {
    seq(MINUTES, _ => 0)
  }

  function IdleDay(): Day {
    Day(Zeros(), Zeros(), Zeros(), None, [])
  }

  /** One minute of charging from the sun, then nothing. */
  function ChargeDay(): Day {
    Day(Zeros(), Zeros(), Zeros()[0 := -1000], None, [])
  }

  lemma {:induction false} IdleKeepsLedger(start: Ledger, n: nat)
    requires n <= MINUTES && !start.soc
    ensures BatteryAt(IdleDay(), start, n) == Battery(start, 0.0, 0.0, false)
  {
    if n > 0 {
      IdleKeepsLedger(start, n - 1);
    }
  }

  lemma {:induction false} ChargeMakesKnown(start: Ledger, n: nat)
    requires 0 < n <= MINUTES
    ensures BatteryAt(ChargeDay(), start, n).ledger.known
  {
    if n == 1 {
      assert BatteryAt(ChargeDay(), start, 1) == AdvanceBattery(BatteryAt(ChargeDay(), start, 0), ChargeDay(), 0);
    } else {
      ChargeMakesKnown(start, n - 1);
    }
  }

  /** Idle days hand the ledger on, in the fold as in the chain. */
  lemma {:induction false} IdleDaysKeepFold(days: Days, first: int, date: int)
    requires first <= date && !Fold(days, first).soc
    requires forall d :: first < d <= date ==> d in days && days[d] == IdleDay()
    ensures Fold(days, date) == Fold(days, first)
    decreases date - first
  {
    if first < date {
      IdleDaysKeepFold(days, first, date - 1);
      IdleKeepsLedger(Fold(days, date - 1), MINUTES);
    }
  }

  lemma {:induction false} IdleChainUnknown(days: Days, cache: Cache, date: int, depth: nat)
    requires forall d :: date - depth <= d < date ==> d in days && days[d] == IdleDay()
    requires forall d :: date - depth - 1 <= d < date ==> d !in cache
    ensures var o := LedgerBefore(days, cache, date, depth);
            o.value == UNKNOWN && (forall d :: d in o.cache && d !in cache ==> d < date)
    decreases depth
  {
    if depth > 0 {
      IdleChainUnknown(days, cache, date - 1, depth - 1);
      IdleKeepsLedger(UNKNOWN, MINUTES);
    }
  }

  /** A history whose only charge fell on one day. */
  ghost predicate OneCharge(days: Days, first: int) {
    forall d :: d in days ==> days[d] == if d == first then ChargeDay() else IdleDay()
  }

  lemma OneChargeFold(days: Days, first: int, date: int)
    requires OneCharge(days, first) && first <= date && forall d :: first <= d <= date ==> d in days
    ensures Fold(days, date).known && !Fold(days, date).soc
  {
    ChargeMakesKnown(Fold(days, first - 1), MINUTES);
    IdleDaysKeepFold(days, first, date);
  }

  lemma TrueCache(days: Days, cached: set<int>) returns (cache: Cache)
    requires cached <= days.Keys
    ensures cache.Keys == cached && Coherent(days, cache)
  {
    cache := map d | d in cached :: SplitOf(days[d], Fold(days, d - 1));
  }

  /** Charged on the eighth day before and idle since: ledger_before misses it. */
  lemma ChainTooShort(present: set<int>, cached: set<int>, date: int) returns (days: Days, cache: Cache)
    requires cached <= present && !Anchored(present, cached, date)
    ensures days.Keys == present && cache.Keys == cached && Coherent(days, cache)
    ensures LedgerBefore(days, cache, date, CHAIN_DEPTH).value == UNKNOWN
    ensures Fold(days, date - 1).known && !Fold(days, date - 1).soc
    ensures date in present ==> days[date] == IdleDay()
  {
    var first := date - (CHAIN_DEPTH + 1);
    forall d | first <= d < date
      ensures d in present && d !in cached
    {
      assert !Anchor(present, cached, d);
    }
    days := map d | d in present :: if d == first then ChargeDay() else IdleDay();
    cache := TrueCache(days, cached);
    OneChargeFold(days, first, date - 1);
    IdleChainUnknown(days, cache, date, CHAIN_DEPTH);
  }

  /** For a given set of recorded and cached days: ledger_before is right for every
      content of those days exactly when one of the eight days before is an anchor. */
  lemma LedgerBeforeExact(present: set<int>, cached: set<int>, date: int)
    requires cached <= present
    ensures Anchored(present, cached, date) <==>
      forall days: Days, cache: Cache ::
        days.Keys == present && cache.Keys == cached && Coherent(days, cache) ==>
          && LedgerBefore(days, cache, date, CHAIN_DEPTH).value == Fold(days, date - 1)
          && Coherent(days, LedgerBefore(days, cache, date, CHAIN_DEPTH).cache)
  {
    if Anchored(present, cached, date) {
      forall days: Days, cache: Cache | days.Keys == present && cache.Keys == cached && Coherent(days, cache)
        ensures LedgerBefore(days, cache, date, CHAIN_DEPTH).value == Fold(days, date - 1)
        ensures Coherent(days, LedgerBefore(days, cache, date, CHAIN_DEPTH).cache)
      {
        AnchoredIsCoherent(days, cache, date);
      }
    } else {
      var days, cache := ChainTooShort(present, cached, date);
    }
  }

  lemma AnchoredIsCoherent(days: Days, cache: Cache, date: int)
    requires Coherent(days, cache) && Anchored(days.Keys, cache.Keys, date)
    ensures var o := LedgerBefore(days, cache, date, CHAIN_DEPTH);
            o.value == Fold(days, date - 1) && Coherent(days, o.cache)
  {
    LedgerBeforeIsFold(days, cache, date, date, CHAIN_DEPTH);
    var o := LedgerBefore(days, cache, date, CHAIN_DEPTH);
    forall d | d in o.cache
      ensures Agrees(days, o.cache, d)
    {
      if d in cache {
        assert Agrees(days, cache, d);
      }
    }
  }

  // ---- The day chain of the daily-energy and recompute loops ------------------------------------------

  datatype Chain = Chain(splits: seq<Option<Split>>, ledger: Ledger, cache: Cache)

  /** n consecutive days from `from`, each split from the ledger of the one before. */
  function RunDays(days: Days, cache: Cache, today: int, from: int, n: nat, start: Ledger): Chain {
    if n == 0 then Chain([], start, cache)
    else
      var before := RunDays(days, cache, today, from, n - 1, start);
      var date := from + n - 1;
      var o := CachedSplit(days, before.cache, date, date == today, before.ledger);
      Chain(before.splits + [o.value], EndOf(o.value), o.cache)
  }

  function TrueSplits(days: Days, from: int, n: nat): seq<Option<Split>> {
    if n == 0 then [] else TrueSplits(days, from, n - 1) + [TrueSplit(days, from + n - 1)]
  }

  /** Only finished days are cached, and each as the fold has it. */
  ghost predicate Settled(days: Days, cache: Cache, today: int) {
    Coherent(days, cache) && forall d :: d in cache ==> d < today
  }

  lemma CoherentWhenBefore(days: Days, cache: Cache, today: int)
    requires CoherentBefore(days, cache, today) && forall d :: d in cache ==> d < today
    ensures Coherent(days, cache)
  {
  }

  lemma SplitSettled(days: Days, cache: Cache, today: int, date: int)
    requires Settled(days, cache, today) && date < today
    ensures var o := CachedSplit(days, cache, date, false, Fold(days, date - 1));
            && o.value == TrueSplit(days, date)
            && Settled(days, o.cache, today)
            && EndOf(o.value) == Fold(days, date)
            && cache.Keys <= o.cache.Keys
            && Anchor(days.Keys, o.cache.Keys, date)
  {
    SplitKeepsCoherence(days, cache, today, date);
    CoherentWhenBefore(days, CachedSplit(days, cache, date, false, Fold(days, date - 1)).cache, today);
  }

  /** c covers n true days from `from`. */
  ghost predicate TrueChain(days: Days, cache: Cache, today: int, from: int, n: nat, c: Chain) {
    && c.splits == TrueSplits(days, from, n)
    && c.ledger == Fold(days, from + n - 1)
    && Settled(days, c.cache, today)
    && cache.Keys <= c.cache.Keys
    && (forall d :: from <= d < from + n && d < today && d in days ==> d in c.cache)
  }

  lemma DayAdded(days: Days, cache: Cache, today: int, from: int, n: nat, c: Chain, split: Option<Split>, after: Cache)
    requires n > 0 && from + n - 1 <= today && TrueChain(days, cache, today, from, n - 1, c)
    requires split == TrueSplit(days, from + n - 1) && EndOf(split) == Fold(days, from + n - 1)
    requires Settled(days, after, today) && c.cache.Keys <= after.Keys
    requires from + n - 1 < today && from + n - 1 in days ==> from + n - 1 in after
    ensures TrueChain(days, cache, today, from, n, Chain(c.splits + [split], EndOf(split), after))
  {
    forall d | from <= d < from + n && d < today && d in days
      ensures d in after
    {
      assert d < from + n - 1 ==> d in c.cache.Keys;
    }
  }

  lemma ChainExtends(days: Days, cache: Cache, today: int, from: int, n: nat, c: Chain)
    requires n > 0 && from + n - 1 <= today && TrueChain(days, cache, today, from, n - 1, c)
    ensures var date := from + n - 1;
            var o := CachedSplit(days, c.cache, date, date == today, c.ledger);
            TrueChain(days, cache, today, from, n, Chain(c.splits + [o.value], EndOf(o.value), o.cache))
  {
    var date := from + n - 1;
    if date < today {
      SplitSettled(days, c.cache, today, date);
    }
    var o := CachedSplit(days, c.cache, date, date == today, c.ledger);
    DayAdded(days, cache, today, from, n, c, o.value, o.cache);
  }

  lemma EmptyChain(days: Days, cache: Cache, today: int, from: int, start: Ledger)
    requires Settled(days, cache, today) && start == Fold(days, from - 1)
    ensures TrueChain(days, cache, today, from, 0, RunDays(days, cache, today, from, 0, start))
  {
  }

  lemma ChainStep(days: Days, cache: Cache, today: int, from: int, n: nat, start: Ledger)
    requires n > 0 && from + n - 1 <= today
    requires TrueChain(days, cache, today, from, n - 1, RunDays(days, cache, today, from, n - 1, start))
    ensures TrueChain(days, cache, today, from, n, RunDays(days, cache, today, from, n, start))
  {
    var c, date := RunDays(days, cache, today, from, n - 1, start), from + n - 1;
    var o := CachedSplit(days, c.cache, date, date == today, c.ledger);
    ChainExtends(days, cache, today, from, n, c);
    assert RunDays(days, cache, today, from, n, start) == Chain(c.splits + [o.value], EndOf(o.value), o.cache);
  }

  /** Every day of the chain comes out as the fold has it, and is cached so. */
  lemma {:induction false} RunDaysTrue(days: Days, cache: Cache, today: int, from: int, n: nat, start: Ledger)
    requires Settled(days, cache, today) && from + n - 1 <= today && start == Fold(days, from - 1)
    ensures TrueChain(days, cache, today, from, n, RunDays(days, cache, today, from, n, start))
  {
    if n == 0 {
      EmptyChain(days, cache, today, from, start);
    } else {
      RunDaysTrue(days, cache, today, from, n - 1, start);
      ChainStep(days, cache, today, from, n, start);
    }
  }

  // ---- A device's life ------------------------------------------------------------------------------

  /** The card and the clock. */
  datatype World = World(days: Days, cache: Cache, today: int)

  datatype Op =
    | Log(day: Day)            // today's minute files as they stand
    | NextDay
    | SplitDay(date: int)      // the midnight job's split of the day just finished
    | BatterySource            // today's split so far
    | MixTrace(date: int)
    | DailyEnergy(count: nat)  // the last count days, today included
    | Recompute(date: int)

  datatype Reply = NoReply | OneSplit(split: Option<Split>) | Splits(splits: seq<Option<Split>>) | Done(count: int)

  const RECOMPUTE_DAYS: nat := 60

  function PresentDays(days: Days, from: int, n: nat): nat {
    if n == 0 then 0 else PresentDays(days, from, n - 1) + if from + n - 1 in days then 1 else 0
  }

  /** The days counted are the recorded ones of the span. */
  lemma {:induction false} PresentDaysAre(days: Days, from: int, n: nat)
    ensures PresentDays(days, from, n) == |RecordedIn(days, from, n)|
  {
    if n == 0 {
      assert RecordedIn(days, from, 0) == {};
    } else {
      PresentDaysAre(days, from, n - 1);
      var last := from + n - 1;
      assert RecordedIn(days, from, n) == RecordedIn(days, from, n - 1) + if last in days then {last} else {};
    }
  }

  function RecordedIn(days: Days, from: int, n: nat): set<int> {
    set d | d in days && from <= d < from + n
  }

  function DropDays(cache: Cache, from: int, n: nat): Cache {
    if n == 0 then cache else DropDays(cache, from, n - 1) - {from + n - 1}
  }

  function CountSplits(splits: seq<Option<Split>>): nat {
    if splits == [] then 0
    else CountSplits(splits[..|splits| - 1]) + if splits[|splits| - 1].Some? then 1 else 0
  }

  /** split_day_cached. */
  function SplitDate(w: World, date: int): World {
    var before := LedgerBefore(w.days, w.cache, date, CHAIN_DEPTH);
    w.(cache := CachedSplit(w.days, before.cache, date, false, before.value).cache)
  }

  function SplitLive(w: World, date: int): (World, Reply) {
    var before := LedgerBefore(w.days, w.cache, date, CHAIN_DEPTH);
    (w.(cache := before.cache), OneSplit(Computed(w.days, date, before.value)))
  }

  function SplitDays(w: World, from: int, n: nat): (World, seq<Option<Split>>) {
    var before := LedgerBefore(w.days, w.cache, from, CHAIN_DEPTH);
    var chain := RunDays(w.days, before.cache, w.today, from, n, before.value);
    (w.(cache := chain.cache), chain.splits)
  }

  function RecomputeFrom(w: World, date: int): (World, int) {
    var none: int := 0;
    if date >= w.today then (w, none)
    else if w.today - date > RECOMPUTE_DAYS then (w.(cache := DropDays(w.cache, date, RECOMPUTE_DAYS)), -1)
    else
      var (after, splits) := SplitDays(w.(cache := DropDays(w.cache, date, w.today - date)), date, w.today - date);
      (after, CountSplits(splits) as int)
  }

  function Step(w: World, op: Op): (World, Reply) {
    match op
    case Log(day) => (w.(days := w.days[w.today := day]), NoReply)
    case NextDay => (w.(today := w.today + 1), NoReply)
    case SplitDay(date) => (SplitDate(w, date), NoReply)
    case BatterySource => SplitLive(w, w.today)
    case MixTrace(date) => if date > w.today then (w, NoReply) else SplitLive(w, date)
    case DailyEnergy(count) =>
      if count == 0 then (w, Splits([]))
      else
        var (after, splits) := SplitDays(w, w.today - (count - 1), count);
        (after, Splits(splits))
    case Recompute(date) =>
      var (after, done) := RecomputeFrom(w, date);
      (after, Done(done))
  }

  /** compute_day_split on a day's files, cached or not. */
  function Computed(days: Days, date: int, start: Ledger): Option<Split> {
    if date in days then Some(SplitOf(days[date], start)) else None
  }

  /** What a device without a cache would answer. */
  function Ideal(days: Days, today: int, op: Op): Reply {
    match op
    case Log(_) => NoReply
    case NextDay => NoReply
    case SplitDay(_) => NoReply
    case BatterySource => OneSplit(TrueSplit(days, today))
    case MixTrace(date) => if date > today then NoReply else OneSplit(TrueSplit(days, date))
    case DailyEnergy(count) => Splits(if count == 0 then [] else TrueSplits(days, today - (count - 1), count))
    case Recompute(date) =>
      Done(if date >= today then 0 else if today - date > RECOMPUTE_DAYS then -1
           else PresentDays(days, date, today - date))
  }

  /** The first day an operation chains from is anchored. */
  ghost predicate Ready(w: World, op: Op) {
    var days, cached := w.days.Keys, w.cache.Keys;
    match op
    case SplitDay(date) => date < w.today && Anchored(days, cached, date)
    case BatterySource => Anchored(days, cached, w.today)
    case MixTrace(date) => date > w.today || Anchored(days, cached, date)
    case DailyEnergy(count) => count == 0 || Anchored(days, cached, w.today - (count - 1))
    case Recompute(date) =>
      date >= w.today || w.today - date > RECOMPUTE_DAYS || Anchored(days, cached, date)
    case _ => true
  }

  lemma LedgerBeforeSettled(w: World, date: int)
    requires Settled(w.days, w.cache, w.today) && date <= w.today && Anchored(w.days.Keys, w.cache.Keys, date)
    ensures var o := LedgerBefore(w.days, w.cache, date, CHAIN_DEPTH);
            o.value == Fold(w.days, date - 1) && Settled(w.days, o.cache, w.today)
  {
    LedgerBeforeIsFold(w.days, w.cache, date, w.today, CHAIN_DEPTH);
    var o := LedgerBefore(w.days, w.cache, date, CHAIN_DEPTH);
    CoherentWhenBefore(w.days, o.cache, w.today);
  }

  lemma LogKeepsSettled(w: World, day: Day)
    requires Settled(w.days, w.cache, w.today)
    ensures Settled(w.days[w.today := day], w.cache, w.today)
  {
    forall d | d in w.cache
      ensures Agrees(w.days[w.today := day], w.cache, d)
    {
      assert Agrees(w.days, w.cache, d);
      FoldIgnoresLater(w.days, w.days[w.today := day], d - 1);
    }
  }

  lemma {:induction false} DropDaysDrops(cache: Cache, from: int, n: nat)
    ensures forall d :: d in DropDays(cache, from, n) <==> d in cache && !(from <= d < from + n)
    ensures forall d :: d in DropDays(cache, from, n) ==> DropDays(cache, from, n)[d] == cache[d]
  {
    if n > 0 {
      DropDaysDrops(cache, from, n - 1);
    }
  }

  lemma {:induction false} CountTrueSplits(days: Days, from: int, n: nat)
    ensures CountSplits(TrueSplits(days, from, n)) == PresentDays(days, from, n)
  {
    if n > 0 {
      CountTrueSplits(days, from, n - 1);
      var all := TrueSplits(days, from, n);
      assert all[..|all| - 1] == TrueSplits(days, from, n - 1);
    }
  }

  lemma SplitDaysTrue(w: World, from: int, n: nat)
    requires Settled(w.days, w.cache, w.today) && from + n - 1 <= w.today && from <= w.today
    requires Anchored(w.days.Keys, w.cache.Keys, from)
    ensures var (after, splits) := SplitDays(w, from, n);
            && after == w.(cache := after.cache) && Settled(w.days, after.cache, w.today)
            && splits == TrueSplits(w.days, from, n)
            && (forall d :: from <= d < from + n && d < w.today && d in w.days ==> d in after.cache)
  {
    LedgerBeforeSettled(w, from);
    var before := LedgerBefore(w.days, w.cache, from, CHAIN_DEPTH);
    RunDaysTrue(w.days, before.cache, w.today, from, n, before.value);
  }

  lemma DroppedSettled(w: World, date: int, n: nat)
    requires CoherentBefore(w.days, w.cache, date) && forall d :: d in w.cache ==> d < w.today <= date + n
    ensures Settled(w.days, DropDays(w.cache, date, n), w.today)
  {
    DropDaysDrops(w.cache, date, n);
    forall d | d in DropDays(w.cache, date, n)
      ensures Agrees(w.days, DropDays(w.cache, date, n), d)
    {
      assert Agrees(w.days, w.cache, d);
    }
  }

  lemma DroppedAnchored(days: Days, cache: Cache, date: int, n: nat)
    requires Anchored(days.Keys, cache.Keys, date)
    ensures Anchored(days.Keys, DropDays(cache, date, n).Keys, date)
  {
    DropDaysDrops(cache, date, n);
    var anchor :| date - (CHAIN_DEPTH + 1) <= anchor < date && Anchor(days.Keys, cache.Keys, anchor);
    assert Anchor(days.Keys, DropDays(cache, date, n).Keys, anchor);
  }

  /** Rebuilding from a date makes the whole cache coherent, whatever the dropped
      days held, and counts the days rebuilt. */
  lemma RecomputeRestores(w: World, date: int)
    requires date < w.today <= date + RECOMPUTE_DAYS && Anchored(w.days.Keys, w.cache.Keys, date)
    requires CoherentBefore(w.days, w.cache, date) && forall d :: d in w.cache ==> d < w.today
    ensures var (after, done) := RecomputeFrom(w, date);
            && after == w.(cache := after.cache) && Settled(w.days, after.cache, w.today)
            && done == PresentDays(w.days, date, w.today - date) == |RecordedIn(w.days, date, w.today - date)|
            && (forall d :: date <= d < w.today ==> (d in after.cache <==> d in w.days))
  {
    var n := w.today - date;
    DroppedSettled(w, date, n);
    DroppedAnchored(w.days, w.cache, date, n);
    SplitDaysTrue(w.(cache := DropDays(w.cache, date, n)), date, n);
    CountTrueSplits(w.days, date, n);
    PresentDaysAre(w.days, date, n);
    var after := RecomputeFrom(w, date).0;
    forall d | d in after.cache
      ensures d in w.days
    {
      assert Agrees(w.days, after.cache, d);
    }
  }

  /** A refused recompute has dropped sixty days: what stays cached is right, but anchors
      are gone. */
  lemma RefusedRecompute(w: World, date: int)
    requires w.today - date > RECOMPUTE_DAYS && Settled(w.days, w.cache, w.today)
    ensures RecomputeFrom(w, date).1 == -1 && Settled(w.days, RecomputeFrom(w, date).0.cache, w.today)
    ensures RecomputeFrom(w, date).0.cache.Keys == Spared(w.cache.Keys, date)
  {
    DropDaysDrops(w.cache, date, RECOMPUTE_DAYS);
    var after := RecomputeFrom(w, date).0;
    assert forall d :: d in after.cache.Keys <==> d in Spared(w.cache.Keys, date);
    forall d | d in after.cache
      ensures Agrees(w.days, after.cache, d)
    {
      assert Agrees(w.days, w.cache, d);
    }
  }

  /** The cached days outside the sixty from date on. */
  function Spared(cached: set<int>, date: int): set<int> {
    set d | d in cached && !(date <= d < date + RECOMPUTE_DAYS)
  }

  /** One of the eight days before first has no grid file, or is cached and spared. */
  ghost predicate AnchorSpared(present: set<int>, cached: set<int>, date: int, first: int) {
    exists d :: first - (CHAIN_DEPTH + 1) <= d < first && SparedAnchor(present, cached, date, d)
  }

  predicate SparedAnchor(present: set<int>, cached: set<int>, date: int, d: int) {
    d !in present || (d in cached && !(date <= d < date + RECOMPUTE_DAYS))
  }

  lemma SparedAnchored(present: set<int>, cached: set<int>, date: int, first: int)
    ensures Anchored(present, Spared(cached, date), first) <==> AnchorSpared(present, cached, date, first)
  {
    assert forall d :: Anchor(present, Spared(cached, date), d) <==> SparedAnchor(present, cached, date, d);
  }

  /** The chain before first, as it is once a recompute from date was refused. */
  function AfterRefusal(days: Days, cache: Cache, today: int, date: int, first: int): Outcome<Ledger> {
    LedgerBefore(days, RecomputeFrom(World(days, cache, today), date).0.cache, first, CHAIN_DEPTH)
  }

  /** Right after a refusal, for every content of the recorded and cached days, exactly
      when an anchor within the eight days before was spared. */
  lemma RefusalExactly(present: set<int>, cached: set<int>, today: int, date: int, first: int)
    requires cached <= present && (forall d :: d in cached ==> d < today) && today - date > RECOMPUTE_DAYS
    ensures AnchorSpared(present, cached, date, first) <==>
      forall days: Days, cache: Cache ::
        days.Keys == present && cache.Keys == cached && Coherent(days, cache) ==>
          && AfterRefusal(days, cache, today, date, first).value == Fold(days, first - 1)
          && Coherent(days, AfterRefusal(days, cache, today, date, first).cache)
  {
    SparedAnchored(present, cached, date, first);
    if AnchorSpared(present, cached, date, first) {
      forall days: Days, cache: Cache | days.Keys == present && cache.Keys == cached && Coherent(days, cache)
        ensures AfterRefusal(days, cache, today, date, first).value == Fold(days, first - 1)
        ensures Coherent(days, AfterRefusal(days, cache, today, date, first).cache)
      {
        var w := World(days, cache, today);
        RefusedRecompute(w, date);
        AnchoredIsCoherent(days, RecomputeFrom(w, date).0.cache, first);
      }
    } else {
      var days, cache := RefusalMisleads(present, cached, today, date, first);
    }
  }

  /** A coherent cache is decided by the days it holds. */
  lemma CoherentUnique(days: Days, a: Cache, b: Cache)
    requires Coherent(days, a) && Coherent(days, b) && a.Keys == b.Keys
    ensures a == b
  {
    forall d | d in a
      ensures a[d] == b[d]
    {
      assert Agrees(days, a, d) && Agrees(days, b, d);
    }
  }

  /** With no anchor spared, contents for which the chain after the refusal is wrong. */
  lemma RefusalMisleads(present: set<int>, cached: set<int>, today: int, date: int, first: int)
    returns (days: Days, cache: Cache)
    requires cached <= present && (forall d :: d in cached ==> d < today) && today - date > RECOMPUTE_DAYS
    requires !AnchorSpared(present, cached, date, first)
    ensures days.Keys == present && cache.Keys == cached && Coherent(days, cache)
    ensures AfterRefusal(days, cache, today, date, first).value == UNKNOWN
    ensures Fold(days, first - 1).known && !Fold(days, first - 1).soc
    ensures first in present ==> days[first] == IdleDay()
  {
    SparedAnchored(present, cached, date, first);
    var spared;
    days, spared := ChainTooShort(present, Spared(cached, date), first);
    cache := TrueCache(days, cached);
    var w := World(days, cache, today);
    RefusedRecompute(w, date);
    CoherentUnique(days, RecomputeFrom(w, date).0.cache, spared);
  }

  /** The daily-energy request answers otherwise than without a cache, and spoils the cache. */
  ghost predicate ServedWrongly(w: World, count: nat) {
    var (after, reply) := Step(w, DailyEnergy(count));
    reply != Ideal(w.days, w.today, DailyEnergy(count)) && !Coherent(after.days, after.cache)
  }

  function Refused(w: World, date: int): World {
    Step(w, Recompute(date)).0
  }

  lemma RefusedIs(w: World, date: int)
    requires w.today - date > RECOMPUTE_DAYS && Settled(w.days, w.cache, w.today)
    ensures Step(w, Recompute(date)).1 == Done(-1)
    ensures Refused(w, date) == w.(cache := RecomputeFrom(w, date).0.cache)
    ensures Refused(w, date).cache.Keys == Spared(w.cache.Keys, date)
  {
    RefusedRecompute(w, date);
  }

  /** A daily-energy request that begins on a past day whose split was dropped, with no
      anchor spared: contents that are served wrongly after the refusal, and cached so. */
  lemma RefusalServesWrong(present: set<int>, cached: set<int>, today: int, date: int, count: nat)
    returns (days: Days, cache: Cache)
    requires cached <= present && (forall d :: d in cached ==> d < today) && today - date > RECOMPUTE_DAYS
    requires count > 1 && today - (count - 1) in present && today - (count - 1) !in Spared(cached, date)
    requires !AnchorSpared(present, cached, date, today - (count - 1))
    ensures days.Keys == present && cache.Keys == cached && Settled(days, cache, today)
    ensures ServedWrongly(Refused(World(days, cache, today), date), count)
  {
    var first := today - (count - 1);
    days, cache := RefusalMisleads(present, cached, today, date, first);
    RefusalLeavesMisled(days, cache, today, date, first);
    WrongWeek(Refused(World(days, cache, today), date), count);
  }

  lemma RefusalLeavesMisled(days: Days, cache: Cache, today: int, date: int, first: int)
    requires today - date > RECOMPUTE_DAYS && Settled(days, cache, today) && first < today
    requires first in days && days[first] == IdleDay() && first !in Spared(cache.Keys, date)
    requires AfterRefusal(days, cache, today, date, first).value == UNKNOWN
    requires Fold(days, first - 1).known && !Fold(days, first - 1).soc
    ensures Misled(Refused(World(days, cache, today), date), first)
  {
    RefusedIs(World(days, cache, today), date);
  }

  /** A past idle day whose split is to be made from a chain that misses a charge. */
  ghost predicate Misled(w: World, first: int) {
    && first in w.days && w.days[first] == IdleDay() && first !in w.cache && first < w.today
    && LedgerBefore(w.days, w.cache, first, CHAIN_DEPTH).value == UNKNOWN
    && Fold(w.days, first - 1).known && !Fold(w.days, first - 1).soc
  }

  lemma WrongWeek(w: World, count: nat)
    requires count > 1 && Misled(w, w.today - (count - 1))
    ensures ServedWrongly(w, count)
  {
    DailyEnergyIs(w, count);
    WrongFirstDay(w, w.today - (count - 1), count);
  }

  lemma DailyEnergyIs(w: World, count: nat)
    requires count > 0
    ensures var (after, splits) := SplitDays(w, w.today - (count - 1), count);
            Step(w, DailyEnergy(count)) == (after, Splits(splits)) && after == w.(cache := after.cache)
    ensures Ideal(w.days, w.today, DailyEnergy(count)) == Splits(TrueSplits(w.days, w.today - (count - 1), count))
  {
  }

  function Span(from: int, n: nat): (s: set<int>)
    ensures forall d :: d in s <==> from <= d < from + n
  {
    if n == 0 then {} else Span(from, n - 1) + {from + n - 1}
  }

  /** With every past day cached, the refusal takes all anchors of a first day that lies
      in the dropped days, eight days in. */
  lemma NoneSpared(today: int, history: nat, date: int, first: int)
    requires today - date <= history && date + CHAIN_DEPTH + 1 <= first < date + RECOMPUTE_DAYS && first < today
    ensures var present := Span(today - history, history + 1);
            Anchored(present, present - {today}, first) && !AnchorSpared(present, present - {today}, date, first)
  {
    var present := Span(today - history, history + 1);
    assert Anchor(present, present - {today}, first - 1);
  }

  /** A device with every past day cached serves the last count days rightly, until a
      recompute that drops the first of them and the eight before is refused. */
  lemma RefusedThenWrong(today: int, history: nat, date: int, count: nat) returns (days: Days, cache: Cache)
    requires RECOMPUTE_DAYS < today - date <= history && count > 1
    requires date + CHAIN_DEPTH + 1 <= today - (count - 1) < date + RECOMPUTE_DAYS
    ensures var w := World(days, cache, today);
            && days.Keys == Span(today - history, history + 1) && cache.Keys == days.Keys - {today}
            && Settled(days, cache, today) && Ready(w, DailyEnergy(count))
            && Step(w, Recompute(date)).1 == Done(-1)
            && !Ready(Refused(w, date), DailyEnergy(count)) && ServedWrongly(Refused(w, date), count)
  {
    var present := Span(today - history, history + 1);
    var cached := present - {today};
    NoneSpared(today, history, date, today - (count - 1));
    days, cache := RefusalServesWrong(present, cached, today, date, count);
    RefusedIs(World(days, cache, today), date);
    SparedAnchored(present, cached, date, today - (count - 1));
  }

  lemma {:induction false} SplitsPrefix(days: Days, cache: Cache, today: int, from: int, n: nat, start: Ledger)
    requires n > 0
    ensures |RunDays(days, cache, today, from, n, start).splits| == n
    ensures |TrueSplits(days, from, n)| == n && TrueSplits(days, from, n)[0] == TrueSplit(days, from)
    ensures RunDays(days, cache, today, from, n, start).splits[0]
         == RunDays(days, cache, today, from, 1, start).splits[0]
    ensures from in RunDays(days, cache, today, from, 1, start).cache ==>
              var c := RunDays(days, cache, today, from, n, start).cache;
              from in c && c[from] == RunDays(days, cache, today, from, 1, start).cache[from]
  {
    if n > 1 {
      SplitsPrefix(days, cache, today, from, n - 1, start);
    }
  }

  lemma {:induction false} LedgerBeforeEarlier(days: Days, cache: Cache, date: int, depth: nat)
    ensures forall d :: d in LedgerBefore(days, cache, date, depth).cache && d !in cache ==> d < date
    decreases depth
  {
    if depth > 0 {
      LedgerBeforeEarlier(days, cache, date - 1, depth - 1);
    }
  }

  /** An idle past day split from a ledger that misses a charge. */
  lemma WrongFirstDay(w: World, first: int, n: nat)
    requires n > 0 && Misled(w, first)
    ensures var (after, splits) := SplitDays(w, first, n);
            splits != TrueSplits(w.days, first, n) && !Coherent(w.days, after.cache)
  {
    LedgerBeforeEarlier(w.days, w.cache, first, CHAIN_DEPTH);
    var before := LedgerBefore(w.days, w.cache, first, CHAIN_DEPTH);
    SplitsPrefix(w.days, before.cache, w.today, first, n, UNKNOWN);
    var wrong := SplitOf(IdleDay(), UNKNOWN);
    assert RunDays(w.days, before.cache, w.today, first, 0, UNKNOWN) == Chain([], UNKNOWN, before.cache);
    assert RunDays(w.days, before.cache, w.today, first, 1, UNKNOWN).splits == [Some(wrong)];
    IdleKeepsLedger(UNKNOWN, MINUTES);
    IdleKeepsLedger(Fold(w.days, first - 1), MINUTES);
    assert TrueSplit(w.days, first) != Some(wrong);
    var after := SplitDays(w, first, n).0;
    assert !Agrees(w.days, after.cache, first);
  }

  lemma SplitDateSettled(w: World, date: int)
    requires Settled(w.days, w.cache, w.today) && date < w.today && Anchored(w.days.Keys, w.cache.Keys, date)
    ensures Settled(w.days, SplitDate(w, date).cache, w.today)
    ensures Anchor(w.days.Keys, SplitDate(w, date).cache.Keys, date)
  {
    LedgerBeforeSettled(w, date);
    var before := LedgerBefore(w.days, w.cache, date, CHAIN_DEPTH);
    SplitSettled(w.days, before.cache, w.today, date);
  }

  ghost predicate Faithful(w: World, op: Op) {
    var (after, reply) := Step(w, op);
    Settled(after.days, after.cache, after.today) && reply == Ideal(w.days, w.today, op)
  }

  lemma BatterySourceFaithful(w: World)
    requires Settled(w.days, w.cache, w.today) && Ready(w, BatterySource)
    ensures Faithful(w, BatterySource)
  {
    LedgerBeforeSettled(w, w.today);
  }

  lemma MixTraceFaithful(w: World, date: int)
    requires Settled(w.days, w.cache, w.today) && Ready(w, MixTrace(date))
    ensures Faithful(w, MixTrace(date))
  {
    if date <= w.today {
      LedgerBeforeSettled(w, date);
    }
  }

  lemma DailyEnergyFaithful(w: World, count: nat)
    requires Settled(w.days, w.cache, w.today) && Ready(w, DailyEnergy(count))
    ensures Faithful(w, DailyEnergy(count))
  {
    if count > 0 {
      DailyEnergyIs(w, count);
      SplitDaysTrue(w, w.today - (count - 1), count);
    }
  }

  lemma RecomputeFaithful(w: World, date: int)
    requires Settled(w.days, w.cache, w.today) && Ready(w, Recompute(date))
    ensures Faithful(w, Recompute(date))
  {
    if w.today - date > RECOMPUTE_DAYS {
      RefusedRecompute(w, date);
    } else if date < w.today {
      RecomputeRestores(w, date);
    }
  }

  /** Every operation whose first day is anchored answers as if there were no cache
      and leaves the cache settled. */
  lemma StepFaithful(w: World, op: Op)
    requires Settled(w.days, w.cache, w.today) && Ready(w, op)
    ensures Faithful(w, op)
  {
    match op
    case Log(day) => LogKeepsSettled(w, day);
    case NextDay =>
    case SplitDay(date) => SplitDateSettled(w, date);
    case BatterySource => BatterySourceFaithful(w);
    case MixTrace(date) => MixTraceFaithful(w, date);
    case DailyEnergy(count) => DailyEnergyFaithful(w, count);
    case Recompute(date) => RecomputeFaithful(w, date);
  }

  function Replies(w: World, ops: seq<Op>): seq<Reply>
    decreases |ops|
  {
    if ops == [] then [] else [Step(w, ops[0]).1] + Replies(Step(w, ops[0]).0, ops[1..])
  }

  ghost predicate AllReady(w: World, ops: seq<Op>)
    decreases |ops|
  {
    ops == [] || (Ready(w, ops[0]) && AllReady(Step(w, ops[0]).0, ops[1..]))
  }

  /** The replies of a device that logs and ages the same way but caches nothing. */
  function IdealReplies(days: Days, today: int, ops: seq<Op>): seq<Reply>
    decreases |ops|
  {
    if ops == [] then []
    else
      var next := if ops[0].Log? then days[today := ops[0].day] else days;
      [Ideal(days, today, ops[0])] + IdealReplies(next, if ops[0].NextDay? then today + 1 else today, ops[1..])
  }

  /** Over every run of a device, in whatever order it is asked, caching is invisible. */
  lemma {:induction false} CacheInvisible(w: World, ops: seq<Op>)
    requires Settled(w.days, w.cache, w.today) && AllReady(w, ops)
    ensures Replies(w, ops) == IdealReplies(w.days, w.today, ops)
    decreases |ops|
  {
    if ops != [] {
      StepFaithful(w, ops[0]);
      CacheInvisible(Step(w, ops[0]).0, ops[1..]);
    }
  }

  /** A midnight split anchors the following eight days, whatever they record. */
  lemma MidnightAnchors(w: World, date: int, later: World)
    requires Settled(w.days, w.cache, w.today) && Ready(w, SplitDay(date))
    requires SplitDate(w, date).cache.Keys <= later.cache.Keys
    requires date in later.days ==> date in w.days
    requires date < later.today <= date + CHAIN_DEPTH + 1
    ensures Ready(later, BatterySource)
  {
    SplitDateSettled(w, date);
    assert Anchor(later.days.Keys, later.cache.Keys, date);
  }

  // ---- The split files, read, written and unlinked in place ---------------------------------------------

  class Card {
    const days: Days
    const today: int
    var cache: Cache

    constructor (days: Days, today: int)
      ensures this.days == days && this.today == today && cache == map[]
    {
      this.days, this.today, cache := days, today, map[];
    }

    function State(): World
      reads this
    {
      World(days, cache, today)
    }

    method DaySplit(date: int, isToday: bool, start: Ledger) returns (split: Option<Split>)
      modifies this`cache
      ensures Outcome(split, cache) == CachedSplit(days, old(cache), date, isToday, start)
    {
      if !isToday && date in cache {
        return Some(cache[date]);
      }
      var hourly;
      split, hourly := ComputeDaySplit(if date in days then Some(days[date]) else None, start);
      if split.Some? && !isToday {
        cache := cache[date := split.value];
      }
    }

    method LedgerBeforeDay(date: int, depth: nat) returns (ledger: Ledger)
      modifies this`cache
      ensures Outcome(ledger, cache) == LedgerBefore(days, old(cache), date, depth)
      decreases depth
    {
      var prev := date - 1;
      if prev in cache {
        return cache[prev].end;
      }
      if depth == 0 || prev !in days {
        return UNKNOWN;
      }
      var before := LedgerBeforeDay(prev, depth - 1);
      var split := DaySplit(prev, false, before);
      ledger := if split.Some? then split.value.end else UNKNOWN;
    }

    method SplitDayCached(date: int)
      modifies this`cache
      ensures State() == SplitDate(old(State()), date)
    {
      var before := LedgerBeforeDay(date, CHAIN_DEPTH);
      var split := DaySplit(date, false, before);
    }

    method BatterySourceSplit() returns (split: Option<Split>)
      modifies this`cache
      ensures (State(), OneSplit(split)) == Step(old(State()), BatterySource)
    {
      var before := LedgerBeforeDay(today, CHAIN_DEPTH);
      var hourly;
      split, hourly := ComputeDaySplit(if today in days then Some(days[today]) else None, before);
    }

    /** The chain loop shared by the daily-energy and recompute jobs. */
    method RunChain(from: int, n: nat) returns (splits: seq<Option<Split>>)
      modifies this`cache
      ensures (State(), splits) == SplitDays(old(State()), from, n)
    {
      splits := [];
      var ledger: Ledger := LedgerBeforeDay(from, CHAIN_DEPTH);
      ghost var seeded: Cache, start: Ledger := cache, ledger;
      for i := 0 to n
        invariant Chain(splits, ledger, cache) == RunDays(days, seeded, today, from, i, start)
      {
        var split := DaySplit(from + i, from + i == today, ledger);
        splits := splits + [split];
        ledger := if split.Some? then split.value.end else UNKNOWN;
      }
    }

    method DailyEnergySplits(count: nat) returns (splits: seq<Option<Split>>)
      modifies this`cache
      ensures (State(), Splits(splits)) == Step(old(State()), DailyEnergy(count))
    {
      if count == 0 {
        return [];
      }
      splits := RunChain(today - (count - 1), count);
    }

    method RecomputeFromDate(date: int) returns (done: int)
      modifies this`cache
      ensures (State(), done) == RecomputeFrom(old(State()), date)
    {
      var d, n: nat := date, 0;
      while d < today
        invariant d == date + n && n <= RECOMPUTE_DAYS && (date < today ==> d <= today)
        invariant date >= today ==> n == 0
        invariant cache == DropDays(old(cache), date, n)
      {
        if n >= RECOMPUTE_DAYS {
          return -1;
        }
        cache := cache - {d};
        d, n := d + 1, n + 1;
      }
      if n == 0 {
        return 0;
      }
      var splits := RunChain(date, n);
      done := 0;
      for i := 0 to |splits|
        invariant done == CountSplits(splits[..i])
      {
        assert splits[..i + 1][..i] == splits[..i];
        if splits[i].Some? {
          done := done + 1;
        }
      }
      assert splits[..|splits|] == splits;
    }
  }
}
