/** firmware/main/appliance_profile.c: one-pass detection of appliance cycles in a
    day's minute readings, with hysteresis and a tolerance for short gaps. */
module CycleDetector {
  import opened Options
  import opened CArithmetic

  const ON_MARGIN_MW: int := 30000
  const OFF_MARGIN_MW: int := 15000
  const ON_REL_NUM: int := 3
  const ON_REL_DEN: int := 10
  const GAP_TOLERANCE_MIN: nat := 5
  const MIN_CYCLE_MIN: nat := 5

  // ---- What a cycle is ---------------------------------------------------------------

  /** From its first reading to its last active one, both included. */
  datatype Cycle = Cycle(first: nat, last: nat)

  predicate LowRun(p: seq<int>, off: int, from: int, to: int) {
    forall i :: 0 <= i < |p| && from <= i < to ==> p[i] < off
  }

  /** No reading within the tolerance after i is active again. */
  predicate EndsAt(p: seq<int>, off: int, i: nat) {
    LowRun(p, off, i + 1, i + GAP_TOLERANCE_MIN + 2)
  }

  /** A run: it starts at or above the on-threshold, ends with a reading at or above the
      off-threshold (or is that one reading) that six lower ones or the end of the data
      follow, and no earlier reading of it does. */
  ghost predicate IsCycle(p: seq<int>, on: int, off: int, c: Cycle) {
    && c.first <= c.last < |p| && p[c.first] >= on
    && (c.last == c.first || p[c.last] >= off)
    && EndsAt(p, off, c.last)
    && forall i :: c.first <= i < c.last && (i == c.first || p[i] >= off) ==> !EndsAt(p, off, i)
  }

  /** Where the search for the next cycle resumes. */
  function Resume(c: Cycle): nat {
    c.last + GAP_TOLERANCE_MIN + 2
  }

  /** cs are all the cycles from `from` on, in order: before, between and after them
      nothing reaches the on-threshold. */
  ghost predicate AllCycles(p: seq<int>, on: int, off: int, from: nat, cs: seq<Cycle>)
    decreases |cs|
  {
    if cs == [] then forall i :: from <= i < |p| ==> p[i] < on
    else
      && IsCycle(p, on, off, cs[0]) && from <= cs[0].first
      && (forall i :: from <= i < cs[0].first ==> p[i] < on)
      && AllCycles(p, on, off, Resume(cs[0]), cs[1..])
  }

  /** The definition picks out one list of cycles. */
  lemma {:induction false} CyclesUnique(p: seq<int>, on: int, off: int, from: nat, a: seq<Cycle>, b: seq<Cycle>)
    requires AllCycles(p, on, off, from, a) && AllCycles(p, on, off, from, b)
    ensures a == b
    decreases |a|
  {
    if a != [] && b != [] {
      assert a[0].first == b[0].first;
      assert a[0].last == b[0].last;
      CyclesUnique(p, on, off, Resume(a[0]), a[1..], b[1..]);
    }
  }

  // ---- Finding them -----------------------------------------------------------------------

  /** The next reading at or above off after i, within the tolerance; i when there is none. */
  function NextActive(p: seq<int>, off: int, i: nat, gap: nat): (j: nat)
    requires i < |p| && gap <= GAP_TOLERANCE_MIN + 1
    ensures i <= j < |p|
    ensures j == i <==> LowRun(p, off, i + gap + 1, i + GAP_TOLERANCE_MIN + 2)
    ensures j > i ==> i + gap < j <= i + GAP_TOLERANCE_MIN + 1 && p[j] >= off && LowRun(p, off, i + gap + 1, j)
    decreases GAP_TOLERANCE_MIN + 1 - gap
  {
    if gap == GAP_TOLERANCE_MIN + 1 || i + gap + 1 >= |p| then i
    else if p[i + gap + 1] >= off then i + gap + 1
    else NextActive(p, off, i, gap + 1)
  }

  /** The last reading of the cycle i belongs to. */
  function LastActive(p: seq<int>, off: int, i: nat): (last: nat)
    requires i < |p|
    ensures i <= last < |p|
    decreases |p| - i
  {
    var j := NextActive(p, off, i, 0);
    if j == i then i else LastActive(p, off, j)
  }

  function Cycles(p: seq<int>, on: int, off: int, from: nat): seq<Cycle>
    decreases |p| - from
  {
    if from >= |p| then []
    else if p[from] < on then Cycles(p, on, off, from + 1)
    else
      var c := Cycle(from, LastActive(p, off, from));
      [c] + Cycles(p, on, off, Resume(c))
  }

  lemma {:induction false} LastActiveEnds(p: seq<int>, off: int, i: nat)
    requires i < |p|
    ensures var last := LastActive(p, off, i);
            && EndsAt(p, off, last) && (last == i || p[last] >= off)
            && forall k :: i <= k < last && (k == i || p[k] >= off) ==> !EndsAt(p, off, k)
    decreases |p| - i
  {
    var j := NextActive(p, off, i, 0);
    if j != i {
      LastActiveEnds(p, off, j);
      assert !EndsAt(p, off, i);
    }
  }

  lemma {:induction false} CyclesAreAll(p: seq<int>, on: int, off: int, from: nat)
    ensures AllCycles(p, on, off, from, Cycles(p, on, off, from))
    decreases |p| - from
  {
    if from < |p| {
      if p[from] < on {
        CyclesAreAll(p, on, off, from + 1);
      } else {
        var c := Cycle(from, LastActive(p, off, from));
        LastActiveEnds(p, off, from);
        CyclesAreAll(p, on, off, Resume(c));
      }
    }
  }

  // ---- What is recorded ----------------------------------------------------------------------

  function SumMw(p: seq<int>, from: nat, to: nat): int
    requires from <= to <= |p|
  {
    if from == to then 0 else SumMw(p, from, to - 1) + p[to - 1]
  }

  datatype Stats = Stats(count: nat, sumPow: real, sumSqPow: real, sumLen: real, sumSqLen: real)

  /** A cycle of len minutes with power sum; shorter than the minimum it is noise. */
  function Recorded(s: Stats, sum: int, len: nat): Stats
    requires len > 0
  {
    if len < MIN_CYCLE_MIN then s
    else
      var mean := sum as real / len as real;
      Stats(s.count + 1, s.sumPow + mean, s.sumSqPow + Square(mean),
            s.sumLen + len as real, s.sumSqLen + Square(len as real))
  }

  function Square(x: real): real {
    x * x
  }

  ghost predicate CyclesOf(p: seq<int>, cs: seq<Cycle>) {
    forall c :: c in cs ==> c.first <= c.last < |p|
  }

  /** Every cycle recorded with its whole sum and length, tolerated gaps included. */
  function RecordedAll(p: seq<int>, s: Stats, cs: seq<Cycle>): Stats
    requires CyclesOf(p, cs)
    decreases |cs|
  {
    if cs == [] then s
    else
      assert cs[0] in cs;
      RecordedAll(p, Recorded(s, SumMw(p, cs[0].first, cs[0].last + 1), cs[0].last + 1 - cs[0].first), cs[1..])
  }

  function CountLong(cs: seq<Cycle>): nat {
    if cs == [] then 0
    else (if IsLong(cs[0]) then 1 else 0) + CountLong(cs[1..])
  }

  /** Exactly the cycles of at least five minutes are counted. */
  lemma {:induction false} LongOnesCounted(p: seq<int>, s: Stats, cs: seq<Cycle>)
    requires CyclesOf(p, cs)
    ensures RecordedAll(p, s, cs).count == s.count + CountLong(cs)
    decreases |cs|
  {
    if cs != [] {
      assert cs[0] in cs;
      LongOnesCounted(p, Recorded(s, SumMw(p, cs[0].first, cs[0].last + 1), cs[0].last + 1 - cs[0].first), cs[1..]);
    }
  }

  function LongCycles(cs: seq<Cycle>): seq<Cycle> {
    if cs == [] then []
    else if IsLong(cs[0]) then [cs[0]] + LongCycles(cs[1..])
    else LongCycles(cs[1..])
  }

  predicate IsLong(c: Cycle) {
    c.last + 1 - c.first >= MIN_CYCLE_MIN
  }

  /** A cycle's mean power in mW, and its length in minutes. */
  function Power(p: seq<int>, c: Cycle): real {
    if c.first <= c.last < |p| then SumMw(p, c.first, c.last + 1) as real / Length(c) else 0.0
  }

  function Length(c: Cycle): real {
    if c.first <= c.last then (c.last + 1 - c.first) as real else 1.0
  }

  /** The moments of power and length over some cycles. */
  function Moments(p: seq<int>, cs: seq<Cycle>): Stats {
    if cs == [] then Stats(0, 0.0, 0.0, 0.0, 0.0) else Plus(Moment(p, cs[0]), Moments(p, cs[1..]))
  }

  function Moment(p: seq<int>, c: Cycle): Stats {
    Stats(1, Power(p, c), Square(Power(p, c)), Length(c), Square(Length(c)))
  }

  function Plus(a: Stats, b: Stats): Stats {
    Stats(a.count + b.count, a.sumPow + b.sumPow, a.sumSqPow + b.sumSqPow,
          a.sumLen + b.sumLen, a.sumSqLen + b.sumSqLen)
  }

  lemma MomentRecorded(p: seq<int>, s: Stats, c: Cycle)
    requires c.first <= c.last < |p|
    ensures Recorded(s, SumMw(p, c.first, c.last + 1), c.last + 1 - c.first)
         == if IsLong(c) then Plus(s, Moment(p, c)) else s
  {
  }

  /** What is recorded are the moments of power and length over the cycles that are long
      enough, their mean power and length each taken whole. */
  lemma {:induction false} StatsAreMoments(p: seq<int>, s: Stats, cs: seq<Cycle>)
    requires CyclesOf(p, cs)
    ensures RecordedAll(p, s, cs) == Plus(s, Moments(p, LongCycles(cs)))
    decreases |cs|
  {
    if cs != [] {
      assert cs[0] in cs;
      var c, rest := cs[0], LongCycles(cs[1..]);
      MomentRecorded(p, s, c);
      StatsAreMoments(p, Recorded(s, SumMw(p, c.first, c.last + 1), c.last + 1 - c.first), cs[1..]);
      assert ([c] + rest)[1..] == rest;
    }
  }

  /** The sum and the squares of n readings: their variance is not negative. */
  predicate Bounded(n: nat, sum: real, squares: real) {
    (n == 0 ==> sum == squares == 0.0) && Square(sum) <= n as real * squares
  }

  predicate Spread(s: Stats) {
    Bounded(s.count, s.sumPow, s.sumSqPow) && Bounded(s.count, s.sumLen, s.sumSqLen)
  }

  lemma SquareOfSum(a: real, b: real)
    ensures Square(a + b) == Square(a) + 2.0 * (a * b) + Square(b)
    ensures Square(a - b) == Square(a) - 2.0 * (a * b) + Square(b)
    ensures Square(a) >= 0.0
  {
  }

  /** m times the sum of squared distances from x of m readings. */
  lemma GapScaled(m: real, sum: real, squares: real, x: real)
    ensures m * (squares - 2.0 * (sum * x) + m * Square(x)) == m * squares - 2.0 * (sum * (m * x)) + Square(m * x)
  {
    assert m * (m * Square(x)) == Square(m * x);
    assert m * (sum * x) == sum * (m * x);
  }

  lemma GapNonNegative(m: real, sum: real, squares: real, x: real)
    requires m > 0.0 && Square(sum) <= m * squares
    ensures squares - 2.0 * (sum * x) + m * Square(x) >= 0.0
  {
    var gap := squares - 2.0 * (sum * x) + m * Square(x);
    GapScaled(m, sum, squares, x);
    SquareOfSum(sum, m * x);
    SquareOfSum(sum - m * x, 0.0);
    assert m * gap >= 0.0;
    if gap < 0.0 {
      ProductNegative(m, gap);
    }
  }

  lemma ProductNegative(a: real, b: real)
    requires a > 0.0 && b < 0.0
    ensures a * b < 0.0
  {
  }

  lemma SpreadGrows(n: nat, sum: real, squares: real, x: real)
    requires Bounded(n, sum, squares)
    ensures Bounded(n + 1, sum + x, squares + Square(x))
  {
    var m := n as real;
    SquareOfSum(sum, x);
    if n > 0 {
      GapNonNegative(m, sum, squares, x);
    }
    assert (m + 1.0) * (squares + Square(x)) == m * squares + m * Square(x) + squares + Square(x);
  }

  lemma MomentSpread(s: Stats, power: real, length: real)
    requires Spread(s)
    ensures Spread(Stats(s.count + 1, s.sumPow + power, s.sumSqPow + Square(power),
                         s.sumLen + length, s.sumSqLen + Square(length)))
  {
    SpreadGrows(s.count, s.sumPow, s.sumSqPow, power);
    SpreadGrows(s.count, s.sumLen, s.sumSqLen, length);
  }

  lemma RecordedSpread(s: Stats, sum: int, len: nat)
    requires Spread(s) && len > 0
    ensures Spread(Recorded(s, sum, len))
  {
    if len >= MIN_CYCLE_MIN {
      MomentSpread(s, sum as real / len as real, len as real);
    }
  }

  /** Whatever cycles are recorded, on however many days, the variances the profile takes
      from the sums are not negative. */
  lemma {:induction false} SpreadKept(p: seq<int>, s: Stats, cs: seq<Cycle>)
    requires CyclesOf(p, cs) && Spread(s)
    ensures Spread(RecordedAll(p, s, cs))
    decreases |cs|
  {
    if cs != [] {
      assert cs[0] in cs;
      var sum, len := SumMw(p, cs[0].first, cs[0].last + 1), cs[0].last + 1 - cs[0].first;
      RecordedSpread(s, sum, len);
      SpreadKept(p, Recorded(s, sum, len), cs[1..]);
    }
  }

  lemma {:induction false} CyclesInRange(p: seq<int>, on: int, off: int, from: nat)
    ensures CyclesOf(p, Cycles(p, on, off, from))
    decreases |p| - from
  {
    if from < |p| {
      if p[from] < on {
        CyclesInRange(p, on, off, from + 1);
      } else {
        CyclesInRange(p, on, off, Resume(Cycle(from, LastActive(p, off, from))));
      }
    }
  }

  class CycleStats {
    var stats: Stats

    constructor ()
      ensures stats == Stats(0, 0.0, 0.0, 0.0, 0.0)
    {
      stats := Stats(0, 0.0, 0.0, 0.0, 0.0);
    }

    method RecordCycle(sum: int, len: nat)
      requires len > 0
      modifies this
      ensures stats == Recorded(old(stats), sum, len)
    {
      if len < MIN_CYCLE_MIN {
        return;
      }
      var mean := sum as real / len as real;
      stats := Stats(stats.count + 1, stats.sumPow + mean, stats.sumSqPow + mean * mean,
                     stats.sumLen + len as real, stats.sumSqLen + len as real * len as real);
    }
  }

  lemma {:induction false} SumSplit(p: seq<int>, a: nat, b: nat, c: nat)
    requires a <= b <= c <= |p|
    ensures SumMw(p, a, c) == SumMw(p, a, b) + SumMw(p, b, c)
    decreases c
  {
    if b < c {
      SumSplit(p, a, b, c - 1);
    }
  }

  /** The statistics once every cycle from `from` on is recorded. */
  ghost function Rest(p: seq<int>, on: int, off: int, from: nat, s: Stats): Stats {
    CyclesInRange(p, on, off, from);
    RecordedAll(p, s, Cycles(p, on, off, from))
  }

  ghost function AfterCycle(p: seq<int>, on: int, off: int, first: nat, s: Stats): Stats
    requires first < |p|
  {
    var last := LastActive(p, off, first);
    Rest(p, on, off, Resume(Cycle(first, last)), Recorded(s, SumMw(p, first, last + 1), last + 1 - first))
  }

  datatype Machine = Machine(inCycle: bool, sum: int, len: nat, pendSum: int, pendLen: nat, gap: nat)

  const IDLE := Machine(false, 0, 0, 0, 0, 0)

  /** Inside a cycle at position i: what was summed up since its first reading, and
      what a gap since its last active one would add. */
  ghost predicate Inside(p: seq<int>, off: int, i: nat, m: Machine, first: nat, last: nat) {
    && first <= last < i <= |p| && m.gap == i - 1 - last <= GAP_TOLERANCE_MIN
    && LowRun(p, off, last + 1, i)
    && LastActive(p, off, first) == LastActive(p, off, last)
    && m.sum == SumMw(p, first, last + 1) && m.len == last + 1 - first
    && m.pendSum == SumMw(p, last + 1, i) && m.pendLen == m.gap
  }

  /** Recording what is left to find leads to the goal. */
  ghost predicate Tracks(p: seq<int>, on: int, off: int, i: nat, m: Machine, first: nat, last: nat,
                         s: Stats, goal: Stats)
  {
    if m.inCycle then Inside(p, off, i, m, first, last) && AfterCycle(p, on, off, first, s) == goal
    else Rest(p, on, off, i, s) == goal
  }

  lemma StartsCycle(p: seq<int>, on: int, off: int, i: nat, m: Machine, s: Stats, goal: Stats)
    requires i < |p| && p[i] >= on && !m.inCycle && Tracks(p, on, off, i, m, 0, 0, s, goal)
    ensures Tracks(p, on, off, i + 1, Machine(true, p[i], 1, 0, 0, 0), i, i, s, goal)
  {
    var c := Cycle(i, LastActive(p, off, i));
    CyclesInRange(p, on, off, i);
    assert ([c] + Cycles(p, on, off, Resume(c)))[1..] == Cycles(p, on, off, Resume(c));
    assert SumMw(p, i, i + 1) == SumMw(p, i, i) + p[i];
  }

  lemma SkipsReading(p: seq<int>, on: int, off: int, i: nat, m: Machine, s: Stats, goal: Stats)
    requires i < |p| && p[i] < on && !m.inCycle && Tracks(p, on, off, i, m, 0, 0, s, goal)
    ensures Tracks(p, on, off, i + 1, m, 0, 0, s, goal)
  {
  }

  lemma ContinuesCycle(p: seq<int>, on: int, off: int, i: nat, m: Machine, first: nat, last: nat, s: Stats, goal: Stats)
    requires i < |p| && p[i] >= off && m.inCycle && Tracks(p, on, off, i, m, first, last, s, goal)
    ensures Tracks(p, on, off, i + 1, Machine(true, m.sum + m.pendSum + p[i], m.len + m.pendLen + 1, 0, 0, 0),
                   first, i, s, goal)
  {
    NextIsActive(p, off, i, m, first, last);
    SumSplit(p, first, last + 1, i + 1);
    assert SumMw(p, last + 1, i + 1) == m.pendSum + p[i];
  }

  lemma NextIsActive(p: seq<int>, off: int, i: nat, m: Machine, first: nat, last: nat)
    requires i < |p| && p[i] >= off && Inside(p, off, i, m, first, last)
    ensures LastActive(p, off, first) == LastActive(p, off, i)
    ensures LowRun(p, off, i + 1, i + 1)
  {
    assert NextActive(p, off, last, 0) == i;
  }

  lemma ToleratesGap(p: seq<int>, on: int, off: int, i: nat, m: Machine, first: nat, last: nat, s: Stats, goal: Stats)
    requires i < |p| && p[i] < off && m.inCycle && m.gap < GAP_TOLERANCE_MIN
    requires Tracks(p, on, off, i, m, first, last, s, goal)
    ensures Tracks(p, on, off, i + 1,
                   m.(gap := m.gap + 1, pendSum := m.pendSum + p[i], pendLen := m.pendLen + 1), first, last, s, goal)
  {
  }

  /** At the sixth low reading, or when the data ends, the cycle is what was summed up. */
  lemma EndsCycle(p: seq<int>, on: int, off: int, i: nat, m: Machine, first: nat, last: nat, s: Stats, goal: Stats)
    requires i <= |p| && m.inCycle && Tracks(p, on, off, i, m, first, last, s, goal)
    requires if i < |p| then p[i] < off && m.gap == GAP_TOLERANCE_MIN else true
    ensures m.len > 0
    ensures Tracks(p, on, off, if i < |p| then i + 1 else i, IDLE, 0, 0, Recorded(s, m.sum, m.len), goal)
  {
    assert NextActive(p, off, last, 0) == last;
    assert LastActive(p, off, first) == last;
    if i == |p| {
      assert Cycles(p, on, off, i) == [] == Cycles(p, on, off, Resume(Cycle(first, last)));
    }
  }

  /** One reading through the machine. */
  method TakeReading(p: seq<int>, on: int, off: int, i: nat, m: Machine, ghost first: nat, ghost last: nat,
                     st: CycleStats, ghost goal: Stats)
    returns (next: Machine, ghost nextFirst: nat, ghost nextLast: nat)
    requires i < |p| && Tracks(p, on, off, i, m, first, last, st.stats, goal)
    modifies st
    ensures Tracks(p, on, off, i + 1, next, nextFirst, nextLast, st.stats, goal)
  {
    var mw := p[i];
    next, nextFirst, nextLast := m, first, last;
    if !m.inCycle {
      if mw >= on {
        StartsCycle(p, on, off, i, m, st.stats, goal);
        next, nextFirst, nextLast := Machine(true, mw, 1, 0, 0, 0), i, i;
      } else {
        SkipsReading(p, on, off, i, m, st.stats, goal);
      }
    } else if mw >= off {
      ContinuesCycle(p, on, off, i, m, first, last, st.stats, goal);
      next := Machine(true, m.sum + m.pendSum + mw, m.len + m.pendLen + 1, 0, 0, 0);
      nextLast := i;
    } else if m.gap + 1 > GAP_TOLERANCE_MIN {
      EndsCycle(p, on, off, i, m, first, last, st.stats, goal);
      st.RecordCycle(m.sum, m.len);
      next := IDLE;
    } else {
      ToleratesGap(p, on, off, i, m, first, last, st.stats, goal);
      next := m.(gap := m.gap + 1, pendSum := m.pendSum + mw, pendLen := m.pendLen + 1);
    }
  }

  /** A day's readings in one pass: the cycles of the definition, recorded in order.
      Nothing is recorded when the file is missing. */
  method ScanDay(file: Option<seq<int>>, on: int, off: int, st: CycleStats) returns (haveData: bool)
    modifies st
    ensures haveData == (file.Some? && file.value != [])
    ensures file.None? ==> st.stats == old(st.stats)
    ensures file.Some? ==> exists cs: seq<Cycle> ::
      AllCycles(file.value, on, off, 0, cs) && CyclesOf(file.value, cs)
      && st.stats == RecordedAll(file.value, old(st.stats), cs)
  {
    if file.None? {
      return false;
    }
    var p := file.value;
    ghost var goal := Rest(p, on, off, 0, st.stats);
    ghost var first, last := 0, 0;
    var m := IDLE;
    for i := 0 to |p|
      invariant Tracks(p, on, off, i, m, first, last, st.stats, goal)
    {
      m, first, last := TakeReading(p, on, off, i, m, first, last, st, goal);
    }
    if m.inCycle {
      EndsCycle(p, on, off, |p|, m, first, last, st.stats, goal);
      st.RecordCycle(m.sum, m.len);
    }
    CyclesInRange(p, on, off, 0);
    CyclesAreAll(p, on, off, 0);
    haveData := p != [];
  }

  // ---- Thresholds -------------------------------------------------------------------------------

  datatype Thresholds = Thresholds(on: int, off: int)

  /** Hysteresis holds whatever was measured: a cycle starts at least 15 W above the
      level that keeps it going. It starts three tenths of the way from standby to the peak,
      in whole milliwatts, or at 30 W above standby if that is more. */
  function ThresholdsOf(standby: int, peak: int): (t: Thresholds)
    ensures t.on - t.off >= 15000 && t.off == standby + 15000
    ensures 10 * (t.on - standby) > 3 * (peak - standby) - 10 && t.on - standby >= 30000
    ensures t.on == standby + 30000 || 10 * (t.on - standby) <= 3 * (peak - standby)
  {
    var rel := TruncDiv((peak - standby) * ON_REL_NUM, ON_REL_DEN);
    Thresholds(standby + if ON_MARGIN_MW > rel then ON_MARGIN_MW else rel, standby + OFF_MARGIN_MW)
  }
}
