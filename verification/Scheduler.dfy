/** firmware/main/scheduler.c: greedy placement of appliance runs on one day's
    surplus curve. Watts and watt-hours are reals. */
module Scheduler {
  import opened Options
  import opened Sums

  const HOURS: nat := 24
  const SCHEDULER_MAX_RUNS: nat := 16

  datatype Profile = Profile(programCount: nat, avgPowerMw: int, avgLenMin: nat)

  datatype Appliance = Appliance(id: string, name: string, excluded: bool, profile: Option<Profile>)

  datatype Run = Run(graphId: string, name: string, start: int, duration: nat,
                     power: real, energy: real, selfUse: real)

  type Curve = v: seq<real> | |v| == HOURS witness seq(HOURS, _ => 0.0)

  // ---- What a schedule is worth ------------------------------------------------

  function LoadAt(r: Run, h: int): real {
    if 0 <= r.start <= h < r.start + r.duration then r.power else 0.0
  }

  function LoadOf(h: int): Run -> real {
    r => LoadAt(r, h)
  }

  /** Power of all runs active in hour h. */
  function Load(runs: seq<Run>, h: int): real {
    Sum(LoadOf(h), runs)
  }

  function CappedCurve(cap: Curve, runs: seq<Run>): Curve {
    seq(HOURS, h requires 0 <= h < HOURS => Min(cap[h], Load(runs, h)))
  }

  /** The energy runs can draw from a curve: per hour, never more than the curve
      holds and never more than what runs then. */
  function Worth(cap: Curve, runs: seq<Run>): real {
    Total(CappedCurve(cap, runs))
  }

  function SelfUse(): Run -> real {
    (r: Run) => r.selfUse
  }

  function TotalSelfUse(runs: seq<Run>): real {
    Sum(SelfUse(), runs)
  }

  predicate ValidStart(s: int, duration: nat) {
    0 <= s && s + duration <= HOURS
  }

  /** The same appliances, each started at some hour of the day or not at all. */
  ghost predicate SameAppliances(runs: seq<Run>, alt: seq<Run>) {
    |alt| == |runs|
    && forall i :: 0 <= i < |runs| ==>
      alt[i].power == runs[i].power && alt[i].duration == runs[i].duration
      && (alt[i].start == -1 || ValidStart(alt[i].start, alt[i].duration))
  }

  // ---- Window search -----------------------------------------------------------

  /** Self-consumption of the first n hours of a window at s. */
  function Score(left: Curve, power: real, s: nat, n: nat): real
    requires s + n <= HOURS
  {
    if n == 0 then 0.0 else Score(left, power, s, n - 1) + Min(power, left[s + n - 1])
  }

  /** s is the earliest start of greatest score, or -1 when no window scores. */
  ghost predicate IsBestStart(left: Curve, power: real, duration: nat, s: int) {
    if s == -1 then
      forall t :: ValidStart(t, duration) ==> Score(left, power, t, duration) <= 0.0
    else
      ValidStart(s, duration) && Score(left, power, s, duration) > 0.0
      && forall t {:trigger Score(left, power, t, duration)} :: ValidStart(t, duration) ==>
        && Score(left, power, t, duration) <= Score(left, power, s, duration)
        && (t < s ==> Score(left, power, t, duration) < Score(left, power, s, duration))
  }

  lemma BestStartUnique(left: Curve, power: real, duration: nat, s: int, t: int)
    requires IsBestStart(left, power, duration, s) && IsBestStart(left, power, duration, t)
    ensures s == t
  {
    if s != -1 {
      assert Score(left, power, s, duration) > 0.0;
    }
  }

  /** The best start among the first n hours. */
  function BestAmong(left: Curve, power: real, duration: nat, n: nat): (s: int)
    ensures s == -1 || (s < n && ValidStart(s, duration) && Score(left, power, s, duration) > 0.0)
  {
    if n == 0 then -1
    else
      var s := BestAmong(left, power, duration, n - 1);
      if n - 1 + duration > HOURS then s
      else
        var best := if s == -1 then 0.0 else Score(left, power, s, duration);
        if Score(left, power, n - 1, duration) > best then n - 1 else s
  }

  lemma {:induction false} BestAmongIsBest(left: Curve, power: real, duration: nat, n: nat)
    ensures var s := BestAmong(left, power, duration, n);
            forall t {:trigger Score(left, power, t, duration)} :: ValidStart(t, duration) && t < n ==>
              if s == -1 then Score(left, power, t, duration) <= 0.0
              else Score(left, power, t, duration) <= Score(left, power, s, duration)
                   && (t < s ==> Score(left, power, t, duration) < Score(left, power, s, duration))
  {
    if n > 0 {
      BestAmongIsBest(left, power, duration, n - 1);
    }
  }

  function BestStart(left: Curve, power: real, duration: nat): (s: int)
    ensures IsBestStart(left, power, duration, s)
  {
    BestAmongIsBest(left, power, duration, HOURS + 1);
    BestAmong(left, power, duration, HOURS + 1)
  }

  function Deplete(left: Curve, power: real, s: int, duration: nat): Curve {
    seq(HOURS, h requires 0 <= h < HOURS =>
      if s <= h < s + duration then left[h] - Min(power, left[h]) else left[h])
  }

  // ---- Greedy placement --------------------------------------------------------

  datatype Placement = Placement(runs: seq<Run>, left: Curve)

  function Place(p: Placement, i: nat): Placement
    requires i < |p.runs|
  {
    var r := p.runs[i];
    var s := BestStart(p.left, r.power, r.duration);
    if s < 0 then p
    else Placement(p.runs[i := r.(start := s, selfUse := Score(p.left, r.power, s, r.duration))],
                   Deplete(p.left, r.power, s, r.duration))
  }

  ghost predicate Indices(order: seq<nat>, n: nat) {
    (forall k :: 0 <= k < |order| ==> order[k] < n)
    && (forall j, k :: 0 <= j < k < |order| ==> order[j] != order[k])
  }

  /** The first n runs of order placed one after another on what is left. */
  function Greedy(surplus: Curve, runs: seq<Run>, order: seq<nat>, n: nat): (p: Placement)
    requires n <= |order|
    requires forall k :: 0 <= k < |order| ==> order[k] < |runs|
    ensures |p.runs| == |runs|
  {
    if n == 0 then Placement(runs, surplus)
    else Place(Greedy(surplus, runs, order, n - 1), order[n - 1])
  }

  ghost predicate Unplaced(r: Run) {
    r.start == -1 && r.selfUse == 0.0 && r.power >= 0.0
  }

  ghost predicate AllUnplaced(runs: seq<Run>) {
    forall i :: 0 <= i < |runs| ==> Unplaced(runs[i])
  }

  ghost predicate NonNegative(v: Curve) {
    forall h :: 0 <= h < HOURS ==> v[h] >= 0.0
  }

  /** What is left is exactly the surplus no placed run draws, and the recorded
      self-consumption is exactly what the placed runs draw. */
  ghost predicate Balanced(surplus: Curve, runs: seq<Run>, left: Curve) {
    (forall h :: 0 <= h < HOURS ==>
      left[h] == surplus[h] - Min(surplus[h], Load(runs, h)) && left[h] >= 0.0)
    && TotalSelfUse(runs) == Worth(surplus, runs)
  }

  /** No window still open to r is worth more than what r was given. */
  ghost predicate Settled(r: Run, left: Curve) {
    forall t {:trigger Score(left, r.power, t, r.duration)} ::
      ValidStart(t, r.duration) ==> Score(left, r.power, t, r.duration) <= r.selfUse
  }

  lemma {:induction false} ScoreMonotone(less: Curve, more: Curve, power: real, s: nat, n: nat)
    requires s + n <= HOURS
    requires forall h :: 0 <= h < HOURS ==> less[h] <= more[h]
    ensures Score(less, power, s, n) <= Score(more, power, s, n)
  {
    if n > 0 {
      ScoreMonotone(less, more, power, s, n - 1);
    }
  }

  /** A window's score is the drop it causes in the curve. */
  lemma {:induction false} ScoreIsDrop(left: Curve, power: real, s: nat, duration: nat, n: nat)
    requires s + duration <= HOURS && n <= HOURS
    ensures Prefix(left, n) - Prefix(Deplete(left, power, s, duration), n)
         == Score(left, power, s, if n <= s then 0 else if n <= s + duration then n - s else duration)
  {
    if n > 0 {
      ScoreIsDrop(left, power, s, duration, n - 1);
    }
  }

  lemma WorthIsDrop(surplus: Curve, runs: seq<Run>, left: Curve)
    requires forall h :: 0 <= h < HOURS ==> left[h] == surplus[h] - Min(surplus[h], Load(runs, h))
    ensures Worth(surplus, runs) == Total(surplus) - Total(left)
  {
    PrefixAdd(CappedCurve(surplus, runs), left, surplus, HOURS);
  }

  lemma {:induction false} LoadNonNegative(runs: seq<Run>, h: int)
    requires forall r :: r in runs ==> r.power >= 0.0
    ensures Load(runs, h) >= 0.0
  {
    if runs != [] {
      LoadNonNegative(runs[1..], h);
    }
  }

  lemma LoadSingle(r: Run, h: int)
    ensures Load([r], h) == LoadAt(r, h)
  {
    SumSingle(LoadOf(h), r);
  }

  lemma {:induction false} UnplacedLoad(runs: seq<Run>, h: int)
    requires AllUnplaced(runs)
    ensures Load(runs, h) == 0.0 && TotalSelfUse(runs) == 0.0
  {
    if runs != [] {
      UnplacedLoad(runs[1..], h);
    }
  }

  lemma UnplacedBalanced(surplus: Curve, runs: seq<Run>)
    requires NonNegative(surplus)
    requires AllUnplaced(runs)
    ensures Balanced(surplus, runs, surplus)
  {
    forall h | 0 <= h < HOURS
      ensures Load(runs, h) == 0.0
    {
      UnplacedLoad(runs, h);
    }
    UnplacedLoad(runs, 0);
    WorthIsDrop(surplus, runs, surplus);
  }

  lemma PlaceKeepsBalance(surplus: Curve, p: Placement, i: nat)
    requires i < |p.runs| && Unplaced(p.runs[i])
    requires NonNegative(surplus) && Balanced(surplus, p.runs, p.left)
    requires forall r :: r in p.runs ==> r.power >= 0.0
    ensures Balanced(surplus, Place(p, i).runs, Place(p, i).left)
    ensures forall h :: 0 <= h < HOURS ==> Place(p, i).left[h] <= p.left[h]
    ensures Settled(Place(p, i).runs[i], Place(p, i).left)
  {
    var r := p.runs[i];
    var s := BestStart(p.left, r.power, r.duration);
    var q := Place(p, i);
    if s >= 0 {
      forall h | 0 <= h < HOURS
        ensures q.left[h] == surplus[h] - Min(surplus[h], Load(q.runs, h)) && 0.0 <= q.left[h] <= p.left[h]
      {
        SumUpdate(LoadOf(h), p.runs, i, q.runs[i]);
        LoadNonNegative(p.runs, h);
      }
      SumUpdate(SelfUse(), p.runs, i, q.runs[i]);
      WorthIsDrop(surplus, p.runs, p.left);
      WorthIsDrop(surplus, q.runs, q.left);
      ScoreIsDrop(p.left, r.power, s, r.duration, HOURS);
      forall t | ValidStart(t, r.duration)
        ensures Score(q.left, r.power, t, r.duration) <= q.runs[i].selfUse
      {
        ScoreMonotone(q.left, p.left, r.power, t, r.duration);
      }
    }
  }

  lemma SettledMonotone(r: Run, less: Curve, more: Curve)
    requires Settled(r, more)
    requires forall h :: 0 <= h < HOURS ==> less[h] <= more[h]
    ensures Settled(r, less)
  {
    forall t | ValidStart(t, r.duration)
      ensures Score(less, r.power, t, r.duration) <= r.selfUse
    {
      ScoreMonotone(less, more, r.power, t, r.duration);
      assert Score(more, r.power, t, r.duration) <= r.selfUse;
    }
  }

  /** p is runs after the first n runs of order were placed. */
  ghost predicate PlacedFirst(runs: seq<Run>, order: seq<nat>, n: nat, p: Placement)
    requires n <= |order| && Indices(order, |runs|)
  {
    |p.runs| == |runs|
    && (forall i :: 0 <= i < |runs| ==>
      p.runs[i].power == runs[i].power && p.runs[i].duration == runs[i].duration
      && p.runs[i].power >= 0.0 && p.runs[i].selfUse >= 0.0
      && (p.runs[i].start == -1 || ValidStart(p.runs[i].start, p.runs[i].duration)))
    && (forall i :: 0 <= i < |runs| && i !in order[..n] ==> p.runs[i] == runs[i])
    && (forall k :: 0 <= k < n ==> Settled(p.runs[order[k]], p.left))
  }

  /** The invariant of placement: nothing is booked twice and what was placed is settled. */
  ghost predicate Accounted(surplus: Curve, runs: seq<Run>, order: seq<nat>, n: nat, p: Placement)
    requires n <= |order| && Indices(order, |runs|)
  {
    Balanced(surplus, p.runs, p.left) && PlacedFirst(runs, order, n, p)
  }

  lemma PlaceAdvances(surplus: Curve, runs: seq<Run>, order: seq<nat>, n: nat, p: Placement)
    requires 0 < n <= |order| && Indices(order, |runs|) && Accounted(surplus, runs, order, n - 1, p)
    requires NonNegative(surplus) && Unplaced(runs[order[n - 1]])
    ensures Accounted(surplus, runs, order, n, Place(p, order[n - 1]))
  {
    var i, q := order[n - 1], Place(p, order[n - 1]);
    assert i !in order[..n - 1];
    assert order[..n] == order[..n - 1] + [i];
    PlaceKeepsBalance(surplus, p, i);
    forall k | 0 <= k < n - 1
      ensures Settled(q.runs[order[k]], q.left)
    {
      SettledMonotone(p.runs[order[k]], q.left, p.left);
    }
  }

  /** No watt is booked twice, whatever the placement order: the placed runs and
      the remainder account for the whole surplus, and every placed run is settled. */
  lemma {:induction false} GreedyAccounted(surplus: Curve, runs: seq<Run>, order: seq<nat>, n: nat)
    requires NonNegative(surplus) && Indices(order, |runs|) && n <= |order|
    requires AllUnplaced(runs)
    ensures Accounted(surplus, runs, order, n, Greedy(surplus, runs, order, n))
  {
    if n == 0 {
      UnplacedBalanced(surplus, runs);
    } else {
      GreedyAccounted(surplus, runs, order, n - 1);
      PlaceAdvances(surplus, runs, order, n, Greedy(surplus, runs, order, n - 1));
    }
  }

  /** The k-th run placed keeps, to the end, the earliest best window of the surplus
      its predecessors left, or no window exactly when every window was empty. */
  lemma {:induction false} PlacedAtEarliestBest(surplus: Curve, runs: seq<Run>, order: seq<nat>, k: nat, n: nat)
    requires NonNegative(surplus) && Indices(order, |runs|) && AllUnplaced(runs) && k < n <= |order|
    ensures var left := Greedy(surplus, runs, order, k).left;
            var r := Greedy(surplus, runs, order, n).runs[order[k]];
            && IsBestStart(left, r.power, r.duration, r.start)
            && r.selfUse == (if r.start == -1 then 0.0 else Score(left, r.power, r.start, r.duration))
  {
    if k == n - 1 {
      GreedyAccounted(surplus, runs, order, k);
      assert order[k] !in order[..k];
    } else {
      PlacedAtEarliestBest(surplus, runs, order, k, n - 1);
    }
  }

  // ---- The approximation bound ---------------------------------------------------

  /** The worth of one run on its own is the score of its window. */
  lemma {:induction false} SingleWorth(left: Curve, r: Run, n: nat)
    requires NonNegative(left) && r.power >= 0.0 && n <= HOURS
    requires ValidStart(r.start, r.duration)
    ensures Prefix(CappedCurve(left, [r]), n)
         == Score(left, r.power, r.start,
                  if n <= r.start then 0 else if n <= r.start + r.duration then n - r.start else r.duration)
  {
    if n > 0 {
      SingleWorth(left, r, n - 1);
      LoadSingle(r, n - 1);
    }
  }

  /** The worth of a schedule on what is left is at most the runs' separate scores. */
  lemma {:induction false} WorthSubadditive(left: Curve, runs: seq<Run>, alt: seq<Run>)
    requires NonNegative(left) && SameAppliances(runs, alt)
    requires forall r :: r in runs ==> r.power >= 0.0 && Settled(r, left) && r.selfUse >= 0.0
    ensures Worth(left, alt) <= TotalSelfUse(runs)
  {
    if alt == [] {
      PrefixZero(CappedCurve(left, alt), HOURS);
    } else {
      var head, tail := CappedCurve(left, [alt[0]]), CappedCurve(left, alt[1..]);
      assert alt[0].power == runs[0].power && alt[0].duration == runs[0].duration;
      forall r | r in alt[1..]
        ensures r.power >= 0.0
      {
        var i :| 1 <= i < |alt| && alt[i] == r;
        assert runs[i] in runs;
      }
      forall h | 0 <= h < HOURS
        ensures CappedCurve(left, alt)[h] <= head[h] + tail[h]
      {
        LoadSingle(alt[0], h);
        LoadNonNegative(alt[1..], h);
      }
      var both := seq(HOURS, h requires 0 <= h < HOURS => head[h] + tail[h]);
      PrefixAdd(head, tail, both, HOURS);
      PrefixLe(CappedCurve(left, alt), both, HOURS);
      if alt[0].start == -1 {
        forall h | 0 <= h < HOURS
          ensures head[h] == 0.0
        {
          LoadSingle(alt[0], h);
        }
        PrefixZero(head, HOURS);
      } else {
        SingleWorth(left, alt[0], HOURS);
      }
      assert runs[0] in runs;
      WorthSubadditive(left, runs[1..], alt[1..]);
    }
  }

  /** Splitting a curve into what the greedy schedule drew and what it left. */
  lemma WorthSplit(surplus: Curve, left: Curve, runs: seq<Run>, alt: seq<Run>)
    requires forall h :: 0 <= h < HOURS ==>
      left[h] == surplus[h] - Min(surplus[h], Load(runs, h)) && left[h] >= 0.0 && Load(runs, h) >= 0.0
    requires NonNegative(surplus)
    ensures Worth(surplus, alt) <= Worth(surplus, runs) + Worth(left, alt)
  {
    var drawn, rest := CappedCurve(surplus, runs), CappedCurve(left, alt);
    var both := seq(HOURS, h requires 0 <= h < HOURS => drawn[h] + rest[h]);
    PrefixAdd(drawn, rest, both, HOURS);
    PrefixLe(CappedCurve(surplus, alt), both, HOURS);
  }

  /** A balanced schedule in which every run is settled draws at least half of
      what any other choice of one start hour per appliance could draw. */
  lemma HalfOptimal(surplus: Curve, left: Curve, runs: seq<Run>, alt: seq<Run>)
    requires NonNegative(surplus) && Balanced(surplus, runs, left)
    requires forall r :: r in runs ==> r.power >= 0.0 && r.selfUse >= 0.0 && Settled(r, left)
    requires SameAppliances(runs, alt)
    ensures Worth(surplus, alt) <= 2.0 * TotalSelfUse(runs)
  {
    forall h | 0 <= h < HOURS
      ensures Load(runs, h) >= 0.0
    {
      LoadNonNegative(runs, h);
    }
    WorthSplit(surplus, left, runs, alt);
    WorthSubadditive(left, runs, alt);
  }

  // ---- The day's inputs --------------------------------------------------------

  predicate SafeDate(date: string) {
    1 <= |date| <= 15 && forall i :: 0 <= i < |date| ==> '0' <= date[i] <= '9' || date[i] == '-'
  }

  function Schedulable(a: Appliance): bool {
    a.profile.Some? && a.profile.value.programCount > 0 && a.profile.value.avgPowerMw > 0
  }

  /** ceil(minutes / 60), within 1..24. */
  function HoursOf(minutes: nat): (d: nat)
    ensures 1 <= d <= HOURS
    ensures 60 * (d - 1) < minutes || d == 1
    ensures if minutes <= 60 * HOURS then minutes <= 60 * d else d == HOURS
  {
    var d := (minutes + 59) / 60;
    if d < 1 then 1 else if d > HOURS then HOURS else d
  }

  function FreshRun(a: Appliance): Run {
    if Schedulable(a) then
      var d := HoursOf(a.profile.value.avgLenMin);
      var w := a.profile.value.avgPowerMw as real / 1000.0;
      Run(a.id, a.name, -1, d, w, w * d as real, 0.0)
    else
      Run(a.id, a.name, -1, 0, 0.0, 0.0, 0.0)
  }

  /** An appliance's run before it is placed: as long as the program lasts, rounded up to
      hours, at its power, and nothing when there is no usable profile. */
  predicate RunOf(r: Run, a: Appliance) {
    && r.graphId == a.id && r.name == a.name && r.start == -1 && r.selfUse == 0.0
    && if a.profile.Some? && a.profile.value.programCount > 0 && a.profile.value.avgPowerMw > 0 then
      && r.power == a.profile.value.avgPowerMw as real / 1000.0
      && 1 <= r.duration <= 24
      && (r.duration == 1 || 60 * (r.duration - 1) < a.profile.value.avgLenMin)
      && (r.duration == 24 || a.profile.value.avgLenMin <= 60 * r.duration)
      && r.energy == r.power * r.duration as real
    else r.duration == 0 && r.power == 0.0 && r.energy == 0.0
  }

  /** Of the first n appliances those the user lets be moved, and the first max of them. */
  ghost predicate FirstDeferrable(appliances: seq<Appliance>, n: nat, max: int, chosen: seq<nat>)
    requires n <= |appliances|
  {
    && (forall j, k :: 0 <= j < k < |chosen| ==> chosen[j] < chosen[k])
    && (forall k :: 0 <= k < |chosen| ==> chosen[k] < n && !appliances[chosen[k]].excluded)
    && (chosen != [] ==> |chosen| <= max)
    && (forall i :: 0 <= i < n && !appliances[i].excluded && i !in chosen ==>
          |chosen| >= max && forall k :: 0 <= k < |chosen| ==> chosen[k] < i)
  }

  /** jobs are the runs of the first deferrable appliances. */
  ghost predicate RunsOf(appliances: seq<Appliance>, max: int, jobs: seq<Run>) {
    exists chosen ::
      FirstDeferrable(appliances, |appliances|, max, chosen) && AreRunsOf(jobs, appliances, chosen)
  }

  ghost predicate AreRunsOf(jobs: seq<Run>, appliances: seq<Appliance>, chosen: seq<nat>) {
    |jobs| == |chosen| && forall k :: 0 <= k < |jobs| ==>
      chosen[k] < |appliances| && RunOf(jobs[k], appliances[chosen[k]])
  }

  function Chosen(appliances: seq<Appliance>, n: nat, max: int): (chosen: seq<nat>)
    requires n <= |appliances|
    ensures forall k :: 0 <= k < |chosen| ==> chosen[k] < n
  {
    if n == 0 then []
    else
      var before := Chosen(appliances, n - 1, max);
      if |before| >= max || appliances[n - 1].excluded then before else before + [n - 1]
  }

  lemma {:induction false} ChosenFirst(appliances: seq<Appliance>, n: nat, max: int)
    requires n <= |appliances|
    ensures FirstDeferrable(appliances, n, max, Chosen(appliances, n, max))
  {
    if n > 0 {
      var before := Chosen(appliances, n - 1, max);
      ChosenFirst(appliances, n - 1, max);
      OneMoreDeferrable(appliances, n - 1, max, before);
      if |before| >= max || appliances[n - 1].excluded {
        assert Chosen(appliances, n, max) == before;
      } else {
        assert Chosen(appliances, n, max) == before + [n - 1];
      }
    }
  }

  lemma OneMoreDeferrable(appliances: seq<Appliance>, i: nat, max: int, chosen: seq<nat>)
    requires i < |appliances| && FirstDeferrable(appliances, i, max, chosen)
    ensures |chosen| >= max || appliances[i].excluded ==> FirstDeferrable(appliances, i + 1, max, chosen)
    ensures |chosen| < max && !appliances[i].excluded ==> FirstDeferrable(appliances, i + 1, max, chosen + [i])
  {
    if |chosen| < max && !appliances[i].excluded {
      AllDeferrable(appliances, i, max, chosen);
    }
  }

  lemma AllDeferrable(appliances: seq<Appliance>, i: nat, max: int, chosen: seq<nat>)
    requires i < |appliances| && FirstDeferrable(appliances, i, max, chosen) && |chosen| < max
    ensures forall j :: 0 <= j < i + 1 && !appliances[j].excluded ==> j in chosen + [i]
  {
    forall j | 0 <= j < i + 1 && !appliances[j].excluded
      ensures j in chosen + [i]
    {
      assert j < i ==> j in chosen;
    }
  }

  lemma FreshRunIs(a: Appliance)
    ensures RunOf(FreshRun(a), a)
  {
  }

  lemma {:induction false} FreshRunsListed(appliances: seq<Appliance>, n: nat, max: int)
    requires n <= |appliances|
    ensures AreRunsOf(FreshRuns(appliances, n, max), appliances, Chosen(appliances, n, max))
  {
    if n > 0 {
      FreshRunsListed(appliances, n - 1, max);
      FreshRunIs(appliances[n - 1]);
    }
  }

  /** The runs that are computed are those of the first appliances that may be moved. */
  lemma FreshRunsAre(appliances: seq<Appliance>, max: int)
    ensures RunsOf(appliances, max, FreshRuns(appliances, |appliances|, max))
  {
    ChosenFirst(appliances, |appliances|, max);
    FreshRunsListed(appliances, |appliances|, max);
  }

  /** The runs of the first n appliances: excluded ones dropped, at most max kept. */
  function FreshRuns(appliances: seq<Appliance>, n: nat, max: int): (runs: seq<Run>)
    requires n <= |appliances|
    ensures |runs| <= n && (max <= 0 ==> runs == []) && (max > 0 ==> |runs| <= max)
    ensures AllUnplaced(runs)
  {
    if n == 0 then []
    else
      var before := FreshRuns(appliances, n - 1, max);
      if |before| >= max || appliances[n - 1].excluded then before
      else before + [FreshRun(appliances[n - 1])]
  }

  /** The day's positive surplus in watts; hours past the end of the file are 0. */
  function SurplusCurve(records: seq<int>): (surplus: Curve)
    ensures NonNegative(surplus)
    ensures forall h :: 0 <= h < HOURS ==>
      surplus[h] == if h < |records| then Positive(records[h] as real / 1000.0) else 0.0
  {
    seq(HOURS, h requires 0 <= h < HOURS =>
      if h < |records| && records[h] > 0 then records[h] as real / 1000.0 else 0.0)
  }

  method LoadSurplus(records: seq<int>) returns (surplus: Curve)
    ensures surplus == SurplusCurve(records)
  {
    var watts := new real[HOURS](_ => 0.0);
    var n := 0;
    while n < HOURS && n < |records|
      invariant 0 <= n <= HOURS && n <= |records|
      invariant forall h :: 0 <= h < HOURS ==> watts[h] == if h < n then records[h] as real / 1000.0 else 0.0
    {
      watts[n] := records[n] as real / 1000.0;
      n := n + 1;
    }
    for h := 0 to HOURS
      invariant forall k :: 0 <= k < HOURS ==>
        watts[k] == if k < h then SurplusCurve(records)[k]
                    else if k < |records| then records[k] as real / 1000.0 else 0.0
    {
      watts[h] := if watts[h] > 0.0 then watts[h] else 0.0;
    }
    surplus := watts[..];
  }

  // ---- Placement order -----------------------------------------------------------

  function Swapped<T>(s: seq<T>, i: nat, j: nat): seq<T>
    requires i < j < |s|
  {
    s[i := s[j]][j := s[i]]
  }

  /** A pass of an exchange sort: s[i] compared with each element between i and j, and
      swapped for every one that goes before it. */
  function Pass<T>(s: seq<T>, before: (T, T) -> bool, i: nat, j: nat): (r: seq<T>)
    requires i < j <= |s|
    ensures |r| == |s|
    decreases j
  {
    if j == i + 1 then s
    else
      var r := Pass(s, before, i, j - 1);
      if before(r[j - 1], r[i]) then Swapped(r, i, j - 1) else r
  }

  /** The first n passes. */
  function ExchangeSort<T>(s: seq<T>, before: (T, T) -> bool, n: nat): (r: seq<T>)
    requires n <= |s|
    ensures |r| == |s|
  {
    if n == 0 then s else Pass(ExchangeSort(s, before, n - 1), before, n - 1, |s|)
  }

  ghost predicate StrictOrder<T(!new)>(before: (T, T) -> bool) {
    && (forall x, y :: before(x, y) ==> !before(y, x))
    && (forall x, y, z :: before(x, y) && before(y, z) ==> before(x, z))
  }

  /** Nothing behind one of the first n goes before it. */
  ghost predicate SortedTo<T>(s: seq<T>, before: (T, T) -> bool, n: nat)
    requires n <= |s|
  {
    forall j, k :: 0 <= j < n && j < k < |s| ==> !before(s[k], s[j])
  }

  lemma SwapKeepsSorted<T(!new)>(s: seq<T>, before: (T, T) -> bool, i: nat, j: nat)
    requires i < j < |s| && SortedTo(s, before, i)
    ensures SortedTo(Swapped(s, i, j), before, i) && multiset(Swapped(s, i, j)) == multiset(s)
  {
  }

  lemma {:induction false} PassSorts<T(!new)>(s: seq<T>, before: (T, T) -> bool, i: nat, j: nat)
    requires StrictOrder(before) && i < j <= |s| && SortedTo(s, before, i)
    ensures var r := Pass(s, before, i, j);
            && multiset(r) == multiset(s) && SortedTo(r, before, i)
            && forall k :: i < k < j ==> !before(r[k], r[i])
    decreases j
  {
    if j > i + 1 {
      PassSorts(s, before, i, j - 1);
      var r := Pass(s, before, i, j - 1);
      SwapKeepsSorted(r, before, i, j - 1);
    }
  }

  /** The first n places are right after n passes, and no element is lost. */
  lemma {:induction false} ExchangeSorts<T(!new)>(s: seq<T>, before: (T, T) -> bool, n: nat)
    requires StrictOrder(before) && n <= |s|
    ensures SortedTo(ExchangeSort(s, before, n), before, n)
    ensures multiset(ExchangeSort(s, before, n)) == multiset(s)
  {
    if n > 0 {
      ExchangeSorts(s, before, n - 1);
      PassSorts(ExchangeSort(s, before, n - 1), before, n - 1, |s|);
    }
  }

  /** order lists every run with a duration once, larger energy first. */
  ghost predicate EnergyOrder(runs: seq<Run>, order: seq<nat>) {
    Indices(order, |runs|)
    && (forall i :: 0 <= i < |runs| ==> (runs[i].duration > 0 <==> i in order))
    && (forall j, k :: 0 <= j < k < |order| ==> runs[order[j]].energy >= runs[order[k]].energy)
  }

  /** order lists every run with a duration once, the greatest power times duration first. */
  ghost predicate HeaviestFirst(runs: seq<Run>, order: seq<nat>) {
    Indices(order, |runs|)
    && (forall i :: 0 <= i < |runs| ==> (runs[i].duration > 0 <==> i in order))
    && (forall j, k :: 0 <= j < k < |order| ==> Work(runs[order[j]]) >= Work(runs[order[k]]))
  }

  function Work(r: Run): real {
    r.power * r.duration as real
  }

  lemma PlacedByWork(appliances: seq<Appliance>, max: int, jobs: seq<Run>)
    requires RunsOf(appliances, max, jobs)
    ensures HeaviestFirst(jobs, PlacementOrder(jobs))
  {
    var chosen :| FirstDeferrable(appliances, |appliances|, max, chosen) && AreRunsOf(jobs, appliances, chosen);
    PlacementOrders(jobs);
    forall i | 0 <= i < |jobs|
      ensures jobs[i].energy == Work(jobs[i])
    {
      EnergyIsWork(jobs[i], appliances[chosen[i]]);
    }
  }

  lemma EnergyIsWork(r: Run, a: Appliance)
    requires RunOf(r, a)
    ensures r.energy == Work(r)
  {
  }

  function Heavier(runs: seq<Run>): (nat, nat) -> bool {
    (a: nat, b: nat) => a < |runs| && b < |runs| && runs[a].energy > runs[b].energy
  }

  /** The first n runs' indices, those with a duration. */
  function WithDuration(runs: seq<Run>, n: nat): seq<nat>
    requires n <= |runs|
  {
    if n == 0 then []
    else WithDuration(runs, n - 1) + if runs[n - 1].duration > 0 then [n - 1] else []
  }

  /** The order in which runs are placed, ties included. */
  function PlacementOrder(runs: seq<Run>): seq<nat> {
    var listed := WithDuration(runs, |runs|);
    ExchangeSort(listed, Heavier(runs), |listed|)
  }

  lemma {:induction false} WithDurationLists(runs: seq<Run>, n: nat)
    requires n <= |runs|
    ensures Indices(WithDuration(runs, n), n)
    ensures forall i :: 0 <= i < n ==> (runs[i].duration > 0 <==> i in WithDuration(runs, n))
  {
    if n > 0 {
      WithDurationLists(runs, n - 1);
    }
  }

  lemma {:induction false} PassIndices(s: seq<nat>, before: (nat, nat) -> bool, i: nat, j: nat, n: nat)
    requires i < j <= |s| && Indices(s, n)
    ensures Indices(Pass(s, before, i, j), n)
    decreases j
  {
    if j > i + 1 {
      PassIndices(s, before, i, j - 1, n);
    }
  }

  lemma {:induction false} SortIndices(s: seq<nat>, before: (nat, nat) -> bool, k: nat, n: nat)
    requires k <= |s| && Indices(s, n)
    ensures Indices(ExchangeSort(s, before, k), n)
  {
    if k > 0 {
      SortIndices(s, before, k - 1, n);
      PassIndices(ExchangeSort(s, before, k - 1), before, k - 1, |s|, n);
    }
  }

  /** It lists the runs with a duration once each, larger energy first. */
  lemma PlacementOrders(runs: seq<Run>)
    ensures EnergyOrder(runs, PlacementOrder(runs))
  {
    var listed, order := WithDuration(runs, |runs|), PlacementOrder(runs);
    WithDurationLists(runs, |runs|);
    SortIndices(listed, Heavier(runs), |listed|, |runs|);
    ExchangeSorts(listed, Heavier(runs), |listed|);
    forall x
      ensures x in order <==> x in listed
    {
      assert x in multiset(order) <==> x in multiset(listed);
    }
    forall j, k | 0 <= j < k < |order|
      ensures runs[order[j]].energy >= runs[order[k]].energy
    {
      assert !Heavier(runs)(order[k], order[j]);
    }
  }

  /** Equal energies do not keep their order when a larger one is behind them. */
  lemma TiesReordered(runs: seq<Run>)
    requires |runs| == 3 && forall r :: r in runs ==> r.duration > 0
    requires runs[0].energy == runs[1].energy < runs[2].energy
    ensures PlacementOrder(runs) == [2, 1, 0]
  {
    var listed, before := WithDuration(runs, 3), Heavier(runs);
    var sorted: seq<nat> := [2, 1, 0];
    assert WithDuration(runs, 1) == [0] && WithDuration(runs, 2) == [0, 1];
    assert listed == [0, 1, 2];
    assert Pass(listed, before, 0, 2) == listed;
    assert Pass(listed, before, 0, 3) == sorted;
    assert ExchangeSort(listed, before, 0) == listed;
    assert ExchangeSort(listed, before, 1) == sorted;
    assert Pass(sorted, before, 1, 3) == sorted;
    assert ExchangeSort(listed, before, 2) == sorted;
  }

  /** One pass over the order of the runs. */
  method ExchangePass(runs: seq<Run>, order: seq<nat>, i: nat) returns (next: seq<nat>)
    requires i < |order| && Indices(order, |runs|)
    ensures next == Pass(order, Heavier(runs), i, |order|)
  {
    next := order;
    for j := i + 1 to |order|
      invariant next == Pass(order, Heavier(runs), i, j)
      invariant forall k :: 0 <= k < |next| ==> next[k] < |runs|
    {
      if runs[next[j]].energy > runs[next[i]].energy {
        next := Swapped(next, i, j);
      }
    }
  }

  method OrderByEnergy(runs: seq<Run>) returns (order: seq<nat>)
    ensures EnergyOrder(runs, order) && order == PlacementOrder(runs)
  {
    order := [];
    for i := 0 to |runs|
      invariant order == WithDuration(runs, i)
    {
      if runs[i].duration > 0 {
        order := order + [i];
      }
    }
    ghost var listed := order;
    WithDurationLists(runs, |runs|);
    for i := 0 to |order|
      invariant |order| == |listed| && order == ExchangeSort(listed, Heavier(runs), i)
    {
      SortIndices(listed, Heavier(runs), i, |runs|);
      order := ExchangePass(runs, order, i);
    }
    PlacementOrders(runs);
  }

  // ---- Placing and ordering the result --------------------------------------------

  method ScoreWindow(left: Curve, power: real, s: nat, duration: nat) returns (score: real)
    requires ValidStart(s, duration)
    ensures score == Score(left, power, s, duration)
  {
    score := 0.0;
    for i := 0 to duration
      invariant score == Score(left, power, s, i)
    {
      score := score + if power < left[s + i] then power else left[s + i];
    }
  }

  method FindBestStart(left: Curve, power: real, duration: nat) returns (best: int, bestScore: real)
    ensures best == BestStart(left, power, duration)
    ensures bestScore == if best == -1 then 0.0 else Score(left, power, best, duration)
  {
    bestScore, best := 0.0, -1;
    var s := 0;
    while s + duration <= HOURS
      invariant 0 <= s <= HOURS + 1
      invariant best == BestAmong(left, power, duration, s)
      invariant bestScore == if best == -1 then 0.0 else Score(left, power, best, duration)
    {
      var score := ScoreWindow(left, power, s, duration);
      if score > bestScore {
        bestScore, best := score, s;
      }
      s := s + 1;
    }
    NoLaterStart(left, power, duration, s);
  }

  method DepleteWindow(left: array<real>, power: real, s: nat, duration: nat)
    requires left.Length == HOURS && s + duration <= HOURS
    modifies left
    ensures left[..] == Deplete(old(left[..]), power, s, duration)
  {
    ghost var was := left[..];
    for i := 0 to duration
      invariant left[..] == Deplete(was, power, s, i)
    {
      var use := if power < left[s + i] then power else left[s + i];
      left[s + i] := left[s + i] - use;
    }
  }

  /** The window search and depletion loops, run by run in the given order. */
  method PlaceRuns(surplus: Curve, order: seq<nat>, out: array<Run>, count: nat)
    requires count <= out.Length && Indices(order, count)
    modifies out
    ensures out[..count] == Greedy(surplus, old(out[..count]), order, |order|).runs
    ensures out[count..] == old(out[count..])
  {
    var left := new real[HOURS](h requires 0 <= h < HOURS => surplus[h]);
    ghost var runs, tail := out[..count], out[count..];
    assert left[..] == surplus;
    for k := 0 to |order|
      invariant out[..count] == Greedy(surplus, runs, order, k).runs
      invariant out[count..] == tail
      invariant left[..] == Greedy(surplus, runs, order, k).left
    {
      var r := out[order[k]];
      var best, bestScore := FindBestStart(left[..], r.power, r.duration);
      if best >= 0 {
        ghost var next := out[..count][order[k] := r.(start := best, selfUse := bestScore)];
        out[order[k]] := r.(start := best, selfUse := bestScore);
        assert out[..count] == next;
        DepleteWindow(left, r.power, best, r.duration);
      }
    }
  }

  lemma NoLaterStart(left: Curve, power: real, duration: nat, n: nat)
    requires n + duration > HOURS
    ensures BestAmong(left, power, duration, n) == BestStart(left, power, duration)
  {
    BestAmongIsBest(left, power, duration, n);
    BestStartUnique(left, power, duration, BestAmong(left, power, duration, n), BestStart(left, power, duration));
  }

  function StartKey(r: Run): int {
    if r.start >= 0 then r.start else HOURS
  }

  function Sooner(): (Run, Run) -> bool {
    (a: Run, b: Run) => StartKey(a) < StartKey(b)
  }

  /** Nor do unplaced runs when a placed one is behind them. */
  lemma UnplacedReordered(a: Run, b: Run, c: Run)
    requires a.start < 0 && b.start < 0 && 0 <= c.start < HOURS
    ensures ExchangeSort([a, b, c], Sooner(), 3) == [c, b, a]
  {
    var runs, before := [a, b, c], Sooner();
    assert Pass(runs, before, 0, 2) == runs;
    assert Pass(runs, before, 0, 3) == [c, b, a];
    assert ExchangeSort(runs, before, 0) == runs;
    assert ExchangeSort(runs, before, 1) == [c, b, a];
    assert Pass([c, b, a], before, 1, 3) == [c, b, a];
    assert ExchangeSort(runs, before, 2) == [c, b, a];
  }

  ghost predicate Ascending(runs: seq<Run>) {
    forall j, k :: 0 <= j < k < |runs| ==> StartKey(runs[j]) <= StartKey(runs[k])
  }

  method SwapRuns(out: array<Run>, count: nat, i: nat, j: nat)
    requires i < j < count <= out.Length
    modifies out
    ensures out[..count] == Swapped(old(out[..count]), i, j)
    ensures out[count..] == old(out[count..])
  {
    out[i], out[j] := out[j], out[i];
  }

  method CompareAndSwap(out: array<Run>, count: nat, ghost was: seq<Run>, i: nat, j: nat)
    requires i < j < count <= out.Length && |was| == count && out[..count] == Pass(was, Sooner(), i, j)
    modifies out
    ensures out[..count] == Pass(was, Sooner(), i, j + 1)
    ensures out[count..] == old(out[count..])
  {
    ghost var runs := out[..count];
    assert Sooner()(runs[j], runs[i]) <==> StartKey(out[j]) < StartKey(out[i]);
    if StartKey(out[j]) < StartKey(out[i]) {
      SwapRuns(out, count, i, j);
    }
  }

  /** One pass over the runs. */
  method StartPass(out: array<Run>, count: nat, i: nat)
    requires i < count <= out.Length
    modifies out
    ensures out[..count] == Pass(old(out[..count]), Sooner(), i, count)
    ensures out[count..] == old(out[count..])
  {
    ghost var tail, was := out[count..], out[..count];
    for j := i + 1 to count
      invariant out[..count] == Pass(was, Sooner(), i, j)
      invariant out[count..] == tail
    {
      CompareAndSwap(out, count, was, i, j);
    }
  }

  method OrderByStart(out: array<Run>, count: nat)
    requires count <= out.Length
    modifies out
    ensures out[..count] == ExchangeSort(old(out[..count]), Sooner(), count)
    ensures multiset(out[..count]) == multiset(old(out[..count])) && Ascending(out[..count])
    ensures out[count..] == old(out[count..])
  {
    ghost var tail, was := out[count..], out[..count];
    for i := 0 to count
      invariant out[..count] == ExchangeSort(was, Sooner(), i)
      invariant out[count..] == tail
    {
      StartPass(out, count, i);
    }
    StartsAscend(was);
  }

  lemma StartsAscend(runs: seq<Run>)
    ensures var r := ExchangeSort(runs, Sooner(), |runs|);
            multiset(r) == multiset(runs) && Ascending(r)
  {
    ExchangeSorts(runs, Sooner(), |runs|);
    var r := ExchangeSort(runs, Sooner(), |runs|);
    forall j, k | 0 <= j < k < |r|
      ensures StartKey(r[j]) <= StartKey(r[k])
    {
      assert !Sooner()(r[k], r[j]);
    }
  }

  // ---- scheduler_compute -----------------------------------------------------------

  lemma EveryRunSettled(surplus: Curve, jobs: seq<Run>, order: seq<nat>, i: nat)
    requires NonNegative(surplus) && AllUnplaced(jobs) && EnergyOrder(jobs, order) && i < |jobs|
    ensures var p := Greedy(surplus, jobs, order, |order|);
            && Settled(p.runs[i], p.left) && p.runs[i].power >= 0.0 && p.runs[i].selfUse >= 0.0
            && (p.runs[i].start == -1 || ValidStart(p.runs[i].start, p.runs[i].duration))
  {
    GreedyAccounted(surplus, jobs, order, |order|);
    assert order[..|order|] == order;
    if jobs[i].duration > 0 {
      var k :| 0 <= k < |order| && order[k] == i;
    }
  }

  /** Placing changes nothing of a run but its start and what it draws from the surplus. */
  lemma {:induction false} OnlyPlaced(surplus: Curve, jobs: seq<Run>, order: seq<nat>, n: nat)
    requires n <= |order| && forall k :: 0 <= k < |order| ==> order[k] < |jobs|
    ensures IsPlaced(Greedy(surplus, jobs, order, n).runs, jobs)
  {
    if n > 0 {
      OnlyPlaced(surplus, jobs, order, n - 1);
    }
  }

  ghost predicate IsPlaced(runs: seq<Run>, jobs: seq<Run>) {
    |runs| == |jobs| && forall i :: 0 <= i < |jobs| ==>
      runs[i] == jobs[i].(start := runs[i].start, selfUse := runs[i].selfUse)
  }

  lemma SameSums(runs: seq<Run>, other: seq<Run>)
    requires multiset(runs) == multiset(other)
    ensures TotalSelfUse(runs) == TotalSelfUse(other) && forall h :: Load(runs, h) == Load(other, h)
  {
    SumPermutation(SelfUse(), runs, other);
    forall h
      ensures Load(runs, h) == Load(other, h)
    {
      SumPermutation(LoadOf(h), runs, other);
    }
  }

  /** What a placement guarantees survives reordering its runs. */
  lemma AnyOrderBalanced(surplus: Curve, jobs: seq<Run>, order: seq<nat>, runs: seq<Run>)
    requires NonNegative(surplus) && AllUnplaced(jobs) && EnergyOrder(jobs, order)
    requires multiset(runs) == multiset(Greedy(surplus, jobs, order, |order|).runs)
    ensures Balanced(surplus, runs, Greedy(surplus, jobs, order, |order|).left)
  {
    var p := Greedy(surplus, jobs, order, |order|);
    GreedyAccounted(surplus, jobs, order, |order|);
    SameSums(runs, p.runs);
    WorthIsDrop(surplus, runs, p.left);
    WorthIsDrop(surplus, p.runs, p.left);
  }

  lemma AnyOrderSettled(surplus: Curve, jobs: seq<Run>, order: seq<nat>, r: Run)
    requires NonNegative(surplus) && AllUnplaced(jobs) && EnergyOrder(jobs, order)
    requires r in multiset(Greedy(surplus, jobs, order, |order|).runs)
    ensures r.power >= 0.0 && r.selfUse >= 0.0
    ensures Settled(r, Greedy(surplus, jobs, order, |order|).left)
    ensures r.start == -1 || ValidStart(r.start, r.duration)
  {
    var p := Greedy(surplus, jobs, order, |order|);
    var i :| 0 <= i < |p.runs| && p.runs[i] == r;
    EveryRunSettled(surplus, jobs, order, i);
  }

  /** Any list holding the runs of a greedy placement, in any order, is worth what
      it records and at least half of every alternative. */
  lemma ScheduleQuality(surplus: Curve, jobs: seq<Run>, order: seq<nat>, runs: seq<Run>)
    requires NonNegative(surplus) && AllUnplaced(jobs) && EnergyOrder(jobs, order)
    requires multiset(runs) == multiset(Greedy(surplus, jobs, order, |order|).runs)
    ensures TotalSelfUse(runs) == Worth(surplus, runs)
    ensures forall alt :: SameAppliances(runs, alt) ==> Worth(surplus, alt) <= 2.0 * TotalSelfUse(runs)
    ensures forall r :: r in runs ==> r.start == -1 || ValidStart(r.start, r.duration)
  {
    var left := Greedy(surplus, jobs, order, |order|).left;
    AnyOrderBalanced(surplus, jobs, order, runs);
    forall r | r in runs
      ensures r.power >= 0.0 && r.selfUse >= 0.0 && Settled(r, left)
      ensures r.start == -1 || ValidStart(r.start, r.duration)
    {
      assert r in multiset(runs);
      AnyOrderSettled(surplus, jobs, order, r);
    }
    forall alt | SameAppliances(runs, alt)
      ensures Worth(surplus, alt) <= 2.0 * TotalSelfUse(runs)
    {
      HalfOptimal(surplus, left, runs, alt);
    }
  }

  /** -1 when the day has no surplus file; otherwise the schedule, largest energy
      placed first, in ascending start order. */
  method SchedulerCompute(date: string, surplusFiles: map<string, seq<int>>,
                          appliances: seq<Appliance>, max: int, out: array<Run>)
    returns (count: int)
    requires |appliances| <= SCHEDULER_MAX_RUNS && max <= out.Length
    modifies out
    ensures count == -1 <==> !SafeDate(date) || date !in surplusFiles || surplusFiles[date] == []
    ensures !(1 <= |date| <= 15 && forall c :: c in date ==> '0' <= c <= '9' || c == '-') ==> count == -1
    ensures count == -1 ==> out[..] == old(out[..])
    ensures count != -1 ==>
      && count == |FreshRuns(appliances, |appliances|, max)| <= out.Length
      && out[count..] == old(out[count..])
      && (var surplus := SurplusCurve(surplusFiles[date]);
      && (forall h :: 0 <= h < HOURS ==>
           surplus[h] == if h < |surplusFiles[date]| then Positive(surplusFiles[date][h] as real / 1000.0) else 0.0)
      && (var jobs := FreshRuns(appliances, |appliances|, max);
          var order := PlacementOrder(jobs);
          && RunsOf(appliances, max, jobs) && HeaviestFirst(jobs, order)
          && IsPlaced(Greedy(surplus, jobs, order, |order|).runs, jobs)
          && out[..count] == ExchangeSort(Greedy(surplus, jobs, order, |order|).runs, Sooner(), count)
          && multiset(out[..count]) == multiset(Greedy(surplus, jobs, order, |order|).runs))
      && Ascending(out[..count])
      && TotalSelfUse(out[..count]) == Worth(surplus, out[..count])
      && (forall alt :: SameAppliances(out[..count], alt) ==>
           Worth(surplus, alt) <= 2.0 * TotalSelfUse(out[..count]))
      && (forall r :: r in out[..count] ==> r.start == -1 || ValidStart(r.start, r.duration)))
  {
    if !SafeDate(date) || date !in surplusFiles || surplusFiles[date] == [] {
      return -1;
    }
    var surplus := LoadSurplus(surplusFiles[date]);
    count := ListRuns(appliances, max, out);
    ghost var jobs := out[..count];
    var order := OrderByEnergy(out[..count]);
    PlaceRuns(surplus, order, out, count);
    OrderByStart(out, count);
    ScheduleQuality(surplus, jobs, order, out[..count]);
    FreshRunsAre(appliances, max);
    PlacedByWork(appliances, max, jobs);
    OnlyPlaced(surplus, jobs, order, |order|);
  }

  /** Lists the runs to place. */
  method ListRuns(appliances: seq<Appliance>, max: int, out: array<Run>) returns (count: nat)
    requires max <= out.Length
    modifies out
    ensures count <= out.Length && out[..count] == FreshRuns(appliances, |appliances|, max)
    ensures out[count..] == old(out[..])[count..]
  {
    count := 0;
    var a := 0;
    while a < |appliances| && count < max
      invariant 0 <= a <= |appliances| && 0 <= count <= out.Length
      invariant out[..count] == FreshRuns(appliances, a, max)
      invariant out[count..] == old(out[..])[count..]
    {
      if !appliances[a].excluded {
        ghost var before := out[..count];
        out[count] := FreshRun(appliances[a]);
        count := count + 1;
        assert out[..count] == before + [FreshRun(appliances[a])];
      }
      a := a + 1;
    }
    FullAtMax(appliances, a, max);
  }

  /** Once max runs are listed the remaining appliances add nothing. */
  lemma {:induction false} FullAtMax(appliances: seq<Appliance>, a: nat, max: int)
    requires a <= |appliances|
    requires a == |appliances| || |FreshRuns(appliances, a, max)| >= max
    ensures FreshRuns(appliances, |appliances|, max) == FreshRuns(appliances, a, max)
    decreases |appliances| - a
  {
    if a < |appliances| {
      FullAtMax(appliances, a + 1, max);
    }
  }
}
