/** firmware/main/surplus_model.c: the per-hour surplus regression trained from paired
    solar forecasts and grid actuals. Doubles and floats are reals. */
module SurplusModel {
  import opened Options
  import opened Sums

  const HOURS: nat := 24
  const DOWS: nat := 7
  const MIN_SLOPE_DAYS: nat := 4
  /** Below this variance (mW^2) the forecast counts as constant. */
  const VAR_EPS_MW2: real := 100000000.0

  /** An hour's forecast x, surplus y and day of the week. */
  datatype Sample = Sample(x: real, y: real, dow: nat)

  /** A day's two hourly files, as maps from local hour to mW. */
  datatype DayFiles = DayFiles(dow: nat, grid: Option<map<nat, int>>, solar: Option<map<nat, int>>)

  ghost predicate ValidDays(days: seq<DayFiles>) {
    forall d :: d in days ==> d.dow < DOWS
  }

  // ---- The training set ---------------------------------------------------------------

  predicate Usable(d: DayFiles) {
    d.grid.Some? && d.solar.Some?
  }

  predicate Teaches(d: DayFiles, h: nat) {
    Usable(d) && h in d.grid.value
  }

  function SampleOf(d: DayFiles, h: nat): Sample
    requires Teaches(d, h)
  {
    Sample(if h in d.solar.value then d.solar.value[h] as real else 0.0, -(d.grid.value[h] as real), d.dow)
  }

  /** The samples of hour h; a day lacking either file teaches nothing. */
  function Samples(days: seq<DayFiles>, h: nat): (s: seq<Sample>)
    ensures ValidDays(days) ==> forall p :: p in s ==> p.dow < DOWS
  {
    if days == [] then []
    else
      var last := days[|days| - 1];
      assert last in days;
      Samples(days[..|days| - 1], h) + if Teaches(last, h) then [SampleOf(last, h)] else []
  }

  function Bucket(s: seq<Sample>, dow: nat): (b: seq<Sample>)
    ensures forall p :: p in b ==> p.dow == dow
  {
    if s == [] then []
    else Bucket(s[..|s| - 1], dow) + if s[|s| - 1].dow == dow then [s[|s| - 1]] else []
  }

  /** The days that teach hour h, in order. */
  function Teachers(days: seq<DayFiles>, h: nat): (t: seq<nat>)
    ensures forall k :: 0 <= k < |t| ==> t[k] < |days|
  {
    if days == [] then []
    else Teachers(days[..|days| - 1], h) + if Teaches(days[|days| - 1], h) then [|days| - 1] else []
  }

  predicate IsSample(p: Sample, d: DayFiles, h: nat) {
    && d.grid.Some? && d.solar.Some? && h in d.grid.value && p.dow == d.dow
    && p.y + d.grid.value[h] as real == 0.0
    && p.x == if h in d.solar.value then d.solar.value[h] as real else 0.0
  }

  /** The samples of an hour are those of the days that have both files and a grid record of
      it, in order: the forecast, 0 where it has none for the hour, and what was exported. */
  ghost predicate AreSamples(s: seq<Sample>, days: seq<DayFiles>, h: nat, t: seq<nat>) {
    && |s| == |t| && (forall j, k :: 0 <= j < k < |t| ==> t[j] < t[k])
    && (forall i :: 0 <= i < |days| ==>
          (i in t <==> days[i].grid.Some? && days[i].solar.Some? && h in days[i].grid.value))
    && (forall k :: 0 <= k < |t| ==> t[k] < |days| && IsSample(s[k], days[t[k]], h))
  }

  lemma {:induction false} TeachersAre(days: seq<DayFiles>, h: nat)
    ensures var t := Teachers(days, h);
            && (forall j, k :: 0 <= j < k < |t| ==> t[j] < t[k])
            && (forall i :: 0 <= i < |days| ==> (i in t <==> Teaches(days[i], h)))
  {
    if days != [] {
      var init, last := days[..|days| - 1], |days| - 1;
      TeachersAre(init, h);
      assert forall i :: 0 <= i < last ==> init[i] == days[i];
      assert forall i :: i in Teachers(days, h) <==> i in Teachers(init, h) || (i == last && Teaches(days[last], h));
    }
  }

  lemma {:induction false} SamplesMatch(days: seq<DayFiles>, h: nat)
    ensures |Samples(days, h)| == |Teachers(days, h)|
    ensures forall k :: 0 <= k < |Samples(days, h)| ==> IsSample(Samples(days, h)[k], days[Teachers(days, h)[k]], h)
  {
    if days != [] {
      var init := days[..|days| - 1];
      SamplesMatch(init, h);
      assert forall k :: 0 <= k < |Samples(init, h)| ==> IsSample(Samples(init, h)[k], init[Teachers(init, h)[k]], h);
    }
  }

  lemma SamplesListed(days: seq<DayFiles>, h: nat)
    ensures AreSamples(Samples(days, h), days, h, Teachers(days, h))
  {
    TeachersAre(days, h);
    SamplesMatch(days, h);
  }

  predicate TeachesSome(d: DayFiles) {
    d.grid.Some? && d.solar.Some? && exists h :: 0 <= h < 24 && h in d.grid.value
  }

  function UsableDays(days: seq<DayFiles>): set<int> {
    set i | 0 <= i < |days| && TeachesSome(days[i])
  }

  /** The usable days are those that teach some hour. */
  lemma {:induction false} UsableCounted(days: seq<DayFiles>)
    ensures CountUsable(days) == |UsableDays(days)|
  {
    if days == [] {
      assert UsableDays(days) == {};
    } else {
      var init, last := days[..|days| - 1], |days| - 1;
      UsableCounted(init);
      assert forall i :: 0 <= i < last ==> init[i] == days[i];
      assert UsableDays(days) == UsableDays(init) + if TeachesSome(days[last]) then {last} else {};
    }
  }

  // ---- The running sums -----------------------------------------------------------------

  /** The sum of f over the samples. */
  function SumOf(s: seq<Sample>, f: Sample -> real): real {
    if s == [] then 0.0 else SumOf(s[..|s| - 1], f) + f(s[|s| - 1])
  }

  function OfX(): Sample -> real {
    (p: Sample) => p.x
  }

  function OfY(): Sample -> real {
    (p: Sample) => p.y
  }

  function OfXX(): Sample -> real {
    (p: Sample) => p.x * p.x
  }

  function OfXY(): Sample -> real {
    (p: Sample) => p.x * p.y
  }

  function SumX(s: seq<Sample>): real {
    SumOf(s, OfX())
  }

  function SumY(s: seq<Sample>): real {
    SumOf(s, OfY())
  }

  function SumXX(s: seq<Sample>): real {
    SumOf(s, OfXX())
  }

  function SumXY(s: seq<Sample>): real {
    SumOf(s, OfXY())
  }

  lemma SumOfGrows(s: seq<Sample>, p: Sample, f: Sample -> real)
    ensures SumOf(s + [p], f) == SumOf(s, f) + f(p)
  {
    assert (s + [p])[..|s|] == s;
  }

  // ---- The closed form ----------------------------------------------------------------------

  function VarianceOf(n: nat, sx: real, sxx: real): real
    requires n > 0
  {
    var mean := sx / n as real;
    sxx / n as real - mean * mean
  }

  function Variance(s: seq<Sample>): real
    requires s != []
  {
    VarianceOf(|s|, SumX(s), SumXX(s))
  }

  /** Enough days, and enough spread in the forecast, to fit a slope. */
  predicate Fits(s: seq<Sample>) {
    |s| >= MIN_SLOPE_DAYS && Variance(s) > VAR_EPS_MW2
  }

  function Determinant(n: nat, u: real, v: real, w: real): real {
    n as real * u - v * w
  }

  function Denominator(s: seq<Sample>): real {
    Determinant(|s|, SumXX(s), SumX(s), SumX(s))
  }

  function Slope(s: seq<Sample>): real {
    if Fits(s) then
      DenominatorPositive(s);
      Determinant(|s|, SumXY(s), SumX(s), SumY(s)) / Denominator(s)
    else 0.0
  }

  function MeanResidual(sy: real, slope: real, sx: real, n: nat): real
    requires n > 0
  {
    (sy - slope * sx) / n as real
  }

  function Intercept(s: seq<Sample>, slope: real): real {
    if s == [] then 0.0 else MeanResidual(SumY(s), slope, SumX(s), |s|)
  }

  /** The stored intercept of a weekday: its own, or the hour-wide one without samples. */
  function DayIntercept(s: seq<Sample>, slope: real, dow: nat): real {
    if Bucket(s, dow) == [] then Intercept(s, slope) else Intercept(Bucket(s, dow), slope)
  }

  /** The squared distance of a forecast from x. */
  function OfDistance(x: real): Sample -> real {
    (p: Sample) => (p.x - x) * (p.x - x)
  }

  /** n times a value. */
  function Times(n: nat, v: real): real {
    n as real * v
  }

  /** The sum of n squared distances from m, from the sums of the forecasts and their squares. */
  function Distances(n: nat, m: real, x: real, xx: real): real {
    xx - 2.0 * (m * x) + Times(n, m * m)
  }

  lemma DistancesGrow(n: nat, m: real, x: real, xx: real, p: Sample)
    ensures Distances(n + 1, m, x + p.x, xx + p.x * p.x) == Distances(n, m, x, xx) + OfDistance(m)(p)
  {
    assert m * (x + p.x) == m * x + m * p.x;
    assert Times(n + 1, m * m) == Times(n, m * m) + m * m;
  }

  lemma {:induction false} DistancesSum(s: seq<Sample>, m: real)
    ensures SumOf(s, OfDistance(m)) == Distances(|s|, m, SumX(s), SumXX(s))
  {
    if s == [] {
      assert Times(0, m * m) == 0.0;
    } else {
      var t, p := s[..|s| - 1], s[|s| - 1];
      DistancesSum(t, m);
      DistancesGrow(|t|, m, SumX(t), SumXX(t), p);
    }
  }

  lemma VarianceParts(n: nat, mean: real, x: real, xx: real)
    requires n > 0 && Times(n, mean) == x
    ensures Distances(n, mean, x, xx) == Times(n, VarianceOf(n, x, xx))
  {
    var m := n as real;
    Quotient(x, m);
    SameFactor(mean, x / m, m);
    Quotient(xx, m);
    SpreadParts(m, mean, x, xx, xx / m);
  }

  lemma SpreadParts(n: real, mean: real, x: real, xx: real, meanXX: real)
    requires mean * n == x && meanXX * n == xx
    ensures xx - 2.0 * (mean * x) + n * (mean * mean) == n * (meanXX - mean * mean)
  {
    assert mean * x == n * (mean * mean);
    assert n * (meanXX - mean * mean) == meanXX * n - n * (mean * mean);
  }

  lemma SameFactor(a: real, b: real, n: real)
    requires n > 0.0
    ensures a * n == b * n ==> a == b
    ensures a > b <==> n * a > n * b
  {
    if a != b {
      PositiveProduct(n, if a > b then a - b else b - a);
    }
  }

  /** A slope is fitted exactly to at least four days whose forecasts lie, in the mean square,
      more than ten watts from their mean. */
  lemma FitsExactly(s: seq<Sample>, mean: real)
    requires Times(|s|, mean) == SumX(s)
    ensures Fits(s) <==> (|s| >= 4 && SumOf(s, OfDistance(mean)) > Times(|s|, 100000000.0))
  {
    if s != [] {
      DistancesSum(s, mean);
      VarianceParts(|s|, mean, SumX(s), SumXX(s));
      SpreadOver(Variance(s), |s|, SumOf(s, OfDistance(mean)));
    }
  }

  lemma SpreadOver(v: real, n: nat, sum: real)
    requires n > 0 && sum == Times(n, v)
    ensures v > VAR_EPS_MW2 <==> sum > Times(n, 100000000.0)
  {
    SameFactor(v, 100000000.0, n as real);
  }

  lemma PositiveProduct(a: real, b: real)
    requires a > 0.0 && b > 0.0
    ensures a * b > 0.0
  {
  }

  lemma Quotient(num: real, n: real)
    requires n != 0.0
    ensures num / n * n == num
  {
  }

  /** The denominator is the squared count times the variance. */
  lemma DenominatorPositive(s: seq<Sample>)
    requires Fits(s)
    ensures Denominator(s) > 0.0
  {
    var n, x, xx := |s| as real, SumX(s), SumXX(s);
    var mean, meanXX := x / n, xx / n;
    Quotient(x, n);
    Quotient(xx, n);
    VarianceScaled(n, x, xx, mean, meanXX);
  }

  lemma VarianceScaled(n: real, x: real, xx: real, mean: real, meanXX: real)
    requires n > 0.0 && mean * n == x && meanXX * n == xx && meanXX - mean * mean > 0.0
    ensures n * xx - x * x > 0.0
  {
    var v := meanXX - mean * mean;
    PositiveProduct(n, v);
    PositiveProduct(n, n * v);
    assert n * (n * v) == n * (meanXX * n) - (mean * n) * (mean * n);
  }

  // ---- Training error -------------------------------------------------------------------------

  function Square(r: real): (q: real)
    ensures q >= 0.0
  {
    r * r
  }

  function Residual(p: Sample, a: real, c: real): real {
    p.y - a * p.x - c
  }

  function OfSquare(a: real, c: real): Sample -> real {
    (p: Sample) => Square(Residual(p, a, c))
  }

  /** Squared error of the line y = a x + c. */
  function Err(s: seq<Sample>, a: real, c: real): real {
    SumOf(s, OfSquare(a, c))
  }

  /** Squared error with slope a and an intercept per weekday. */
  function ErrByDay(s: seq<Sample>, a: real, b: seq<real>): real
    requires |b| == DOWS && forall p :: p in s ==> p.dow < DOWS
  {
    if s == [] then 0.0
    else
      assert s[|s| - 1] in s;
      ErrByDay(s[..|s| - 1], a, b) + Square(Residual(s[|s| - 1], a, b[s[|s| - 1].dow]))
  }

  function OfResidual(a: real, c: real): Sample -> real {
    (p: Sample) => Residual(p, a, c)
  }

  function OfResidualX(a: real, c: real): Sample -> real {
    (p: Sample) => Residual(p, a, c) * p.x
  }

  function Residuals(s: seq<Sample>, a: real, c: real): real {
    SumOf(s, OfResidual(a, c))
  }

  function ResidualsX(s: seq<Sample>, a: real, c: real): real {
    SumOf(s, OfResidualX(a, c))
  }

  function ShiftAt(p: Sample, da: real, dc: real): (q: real)
    ensures q >= 0.0
  {
    Square(da * p.x + dc)
  }

  function OfShift(da: real, dc: real): Sample -> real {
    (p: Sample) => ShiftAt(p, da, dc)
  }

  function Shift(s: seq<Sample>, da: real, dc: real): real {
    SumOf(s, OfShift(da, dc))
  }

  lemma {:induction false} ShiftNonNegative(s: seq<Sample>, da: real, dc: real)
    ensures Shift(s, da, dc) >= 0.0
  {
    if s != [] {
      ShiftNonNegative(s[..|s| - 1], da, dc);
      assert OfShift(da, dc)(s[|s| - 1]) == ShiftAt(s[|s| - 1], da, dc);
    }
  }

  /** What moving the line by (da, dc) takes off the error, to first order. */
  function Drift(da: real, rx: real, dc: real, r: real): real {
    2.0 * (da * rx + dc * r)
  }

  lemma DriftAdds(da: real, rx: real, drx: real, dc: real, r: real, dr: real)
    ensures Drift(da, rx + drx, dc, r + dr) == Drift(da, rx, dc, r) + Drift(da, drx, dc, dr)
  {
  }

  lemma MovedSample(p: Sample, a: real, c: real, da: real, dc: real)
    ensures Square(Residual(p, a + da, c + dc))
         == Square(Residual(p, a, c)) - Drift(da, Residual(p, a, c) * p.x, dc, Residual(p, a, c))
            + Square(da * p.x + dc)
  {
    var r, d := Residual(p, a, c), da * p.x + dc;
    assert Residual(p, a + da, c + dc) == r - d;
    assert Square(r - d) == Square(r) - 2.0 * (r * d) + Square(d);
    assert r * d == da * (r * p.x) + dc * r;
  }

  lemma {:induction false} SumOfMoved(s: seq<Sample>, after: Sample -> real, before: Sample -> real,
                                      rx: Sample -> real, r: Sample -> real, q: Sample -> real, da: real, dc: real)
    requires forall p :: after(p) == before(p) - Drift(da, rx(p), dc, r(p)) + q(p)
    ensures SumOf(s, after) == SumOf(s, before) - Drift(da, SumOf(s, rx), dc, SumOf(s, r)) + SumOf(s, q)
  {
    if s != [] {
      var t, p := s[..|s| - 1], s[|s| - 1];
      SumOfMoved(t, after, before, rx, r, q, da, dc);
      DriftAdds(da, SumOf(t, rx), rx(p), dc, SumOf(t, r), r(p));
    }
  }

  lemma Applied(p: Sample, a: real, c: real)
    ensures OfSquare(a, c)(p) == Square(Residual(p, a, c))
    ensures OfResidualX(a, c)(p) == Residual(p, a, c) * p.x && OfResidual(a, c)(p) == Residual(p, a, c)
    ensures OfShift(a, c)(p) == ShiftAt(p, a, c)
  {
  }

  lemma MovedPoint(p: Sample, a: real, c: real, da: real, dc: real, e1: real, e0: real, rx: real, r: real, q: real)
    requires e1 == Square(Residual(p, a + da, c + dc)) && e0 == Square(Residual(p, a, c))
    requires r == Residual(p, a, c) && rx == Residual(p, a, c) * p.x && q == ShiftAt(p, da, dc)
    ensures e1 == e0 - Drift(da, rx, dc, r) + q
  {
    MovedSample(p, a, c, da, dc);
  }

  /** How the error changes when the line moves by (da, dc). */
  lemma MovedLine(s: seq<Sample>, a: real, c: real, da: real, dc: real)
    ensures Err(s, a + da, c + dc)
         == Err(s, a, c) - Drift(da, ResidualsX(s, a, c), dc, Residuals(s, a, c)) + Shift(s, da, dc)
  {
    var after, before, rx, r := OfSquare(a + da, c + dc), OfSquare(a, c), OfResidualX(a, c), OfResidual(a, c);
    forall p: Sample
      ensures after(p) == before(p) - Drift(da, rx(p), dc, r(p)) + OfShift(da, dc)(p)
    {
      Applied(p, a, c);
      Applied(p, a + da, c + dc);
      Applied(p, da, dc);
      MovedPoint(p, a, c, da, dc, after(p), before(p), rx(p), r(p), OfShift(da, dc)(p));
    }
    SumOfMoved(s, after, before, rx, r, OfShift(da, dc), da, dc);
  }

  /** a u + c v. */
  function Combination(a: real, u: real, c: real, v: real): real {
    a * u + c * v
  }

  lemma CombinationAdds(a: real, u: real, du: real, c: real, v: real, dv: real)
    ensures Combination(a, u + du, c, v + dv) == Combination(a, u, c, v) + Combination(a, du, c, dv)
  {
  }

  lemma ResidualTerms(p: Sample, a: real, c: real)
    ensures Residual(p, a, c) == p.y - Combination(a, p.x, c, 1.0)
    ensures Residual(p, a, c) * p.x == p.x * p.y - Combination(a, p.x * p.x, c, p.x)
  {
  }

  lemma {:induction false} ResidualSum(s: seq<Sample>, a: real, c: real)
    ensures Residuals(s, a, c) == SumY(s) - Combination(a, SumX(s), c, |s| as real)
  {
    if s != [] {
      var t, p := s[..|s| - 1], s[|s| - 1];
      ResidualSum(t, a, c);
      ResidualTerms(p, a, c);
      CombinationAdds(a, SumX(t), p.x, c, |t| as real, 1.0);
      assert |s| as real == |t| as real + 1.0;
    }
  }

  lemma {:induction false} SumOfCombination(s: seq<Sample>, r: Sample -> real, w: Sample -> real,
                                            u: Sample -> real, v: Sample -> real, a: real, c: real)
    requires forall p :: r(p) == w(p) - Combination(a, u(p), c, v(p))
    ensures SumOf(s, r) == SumOf(s, w) - Combination(a, SumOf(s, u), c, SumOf(s, v))
  {
    if s != [] {
      var t, p := s[..|s| - 1], s[|s| - 1];
      SumOfCombination(t, r, w, u, v, a, c);
      CombinationAdds(a, SumOf(t, u), u(p), c, SumOf(t, v), v(p));
    }
  }

  lemma ResidualXSum(s: seq<Sample>, a: real, c: real)
    ensures ResidualsX(s, a, c) == SumXY(s) - Combination(a, SumXX(s), c, SumX(s))
  {
    forall p: Sample
      ensures OfResidualX(a, c)(p) == OfXY()(p) - Combination(a, OfXX()(p), c, OfX()(p))
    {
      ResidualTerms(p, a, c);
    }
    SumOfCombination(s, OfResidualX(a, c), OfXY(), OfXX(), OfX(), a, c);
  }

  /** The intercept makes the residuals vanish. */
  lemma InterceptNormal(s: seq<Sample>, a: real)
    requires s != []
    ensures Residuals(s, a, Intercept(s, a)) == 0.0
  {
    ResidualSum(s, a, Intercept(s, a));
    Quotient(SumY(s) - a * SumX(s), |s| as real);
  }

  /** For its slope, the mean-residual intercept beats every other. */
  lemma InterceptOptimal(s: seq<Sample>, a: real, c: real)
    ensures Err(s, a, Intercept(s, a)) <= Err(s, a, c)
  {
    if s != [] {
      var best := Intercept(s, a);
      InterceptNormal(s, a);
      MovedLine(s, a, best, 0.0, c - best);
      ShiftNonNegative(s, 0.0, c - best);
      assert a + 0.0 == a && best + (c - best) == c;
    }
  }

  lemma SlopeSolves(s: seq<Sample>)
    requires Fits(s)
    ensures Slope(s) * Denominator(s) == Determinant(|s|, SumXY(s), SumX(s), SumY(s))
  {
    DenominatorPositive(s);
    Quotient(Determinant(|s|, SumXY(s), SumX(s), SumY(s)), Denominator(s));
  }

  lemma InterceptSolves(s: seq<Sample>, a: real)
    requires s != []
    ensures Intercept(s, a) * |s| as real == SumY(s) - a * SumX(s)
  {
    Quotient(SumY(s) - a * SumX(s), |s| as real);
  }

  lemma SlopeNormal(s: seq<Sample>)
    requires Fits(s)
    ensures ResidualsX(s, Slope(s), Intercept(s, Slope(s))) == 0.0
  {
    var a := Slope(s);
    ResidualXSum(s, a, Intercept(s, a));
    SlopeSolves(s);
    InterceptSolves(s, a);
    NormalEquation(a, Intercept(s, a), |s|, SumX(s), SumY(s), SumXX(s), SumXY(s));
  }

  lemma NormalEquation(a: real, c: real, n: nat, x: real, y: real, xx: real, xy: real)
    requires n > 0 && a * Determinant(n, xx, x, x) == Determinant(n, xy, x, y) && c * n as real == y - a * x
    ensures xy - Combination(a, xx, c, x) == 0.0
  {
    var m, r := n as real, xy - a * xx - c * x;
    assert c * m * x == y * x - a * x * x;
    assert m * r == m * xy - a * (m * xx) - c * m * x;
    assert a * (m * xx - x * x) == a * (m * xx) - a * x * x;
    assert m * r == 0.0;
    if r != 0.0 {
      ProductNonZero(m, r);
    }
  }

  lemma ProductNonZero(a: real, b: real)
    requires a > 0.0 && b != 0.0
    ensures a * b != 0.0
  {
  }

  /** Where a slope is fitted, the stored line beats every other line. */
  lemma LineOptimal(s: seq<Sample>, a: real, c: real)
    requires Fits(s)
    ensures Err(s, Slope(s), Intercept(s, Slope(s))) <= Err(s, a, c)
  {
    var a0 := Slope(s);
    var c0 := Intercept(s, a0);
    SlopeNormal(s);
    InterceptNormal(s, a0);
    MovedLine(s, a0, c0, a - a0, c - c0);
    ShiftNonNegative(s, a - a0, c - c0);
    assert a0 + (a - a0) == a && c0 + (c - c0) == c;
  }

  // ---- Weekdays ----------------------------------------------------------------------------------

  /** The error of each weekday's bucket with its own intercept. */
  function BucketErrs(s: seq<Sample>, a: real, b: seq<real>): (v: seq<real>)
    ensures |v| == |b| && forall dow :: 0 <= dow < |b| ==> v[dow] == Err(Bucket(s, dow), a, b[dow])
  {
    seq(|b|, dow requires 0 <= dow < |b| => Err(Bucket(s, dow), a, b[dow]))
  }

  lemma Appended(s: seq<Sample>, p: Sample, a: real, c: real, dow: nat)
    ensures Err(s + [p], a, c) == Err(s, a, c) + Square(Residual(p, a, c))
    ensures Bucket(s + [p], dow) == Bucket(s, dow) + if p.dow == dow then [p] else []
  {
    SumOfGrows(s, p, OfSquare(a, c));
    assert (s + [p])[..|s|] == s;
  }

  lemma BucketErrGrows(s: seq<Sample>, p: Sample, a: real, c: real, dow: nat)
    ensures Err(Bucket(s + [p], dow), a, c)
         == Err(Bucket(s, dow), a, c) + if p.dow == dow then Square(Residual(p, a, c)) else 0.0
  {
    var bucket := Bucket(s, dow);
    Appended(s, p, a, c, dow);
    if p.dow == dow {
      Appended(bucket, p, a, c, dow);
    } else {
      assert bucket + [] == bucket;
    }
  }

  lemma BucketErrsGrow(s: seq<Sample>, p: Sample, a: real, b: seq<real>)
    requires p.dow < |b|
    ensures Total(BucketErrs(s + [p], a, b)) == Total(BucketErrs(s, a, b)) + Square(Residual(p, a, b[p.dow]))
  {
    var before, after, q := BucketErrs(s, a, b), BucketErrs(s + [p], a, b), Square(Residual(p, a, b[p.dow]));
    forall dow | 0 <= dow < |b|
      ensures after[dow] == before[dow] + if dow == p.dow then q else 0.0
    {
      BucketErrGrows(s, p, a, b[dow], dow);
    }
    PrefixBump(before, after, p.dow, q, |b|);
  }

  /** Every sample is in exactly one weekday's bucket. */
  lemma {:induction false} ErrByBuckets(s: seq<Sample>, a: real, b: seq<real>)
    requires |b| == DOWS && forall p :: p in s ==> p.dow < DOWS
    ensures ErrByDay(s, a, b) == Total(BucketErrs(s, a, b))
  {
    if s == [] {
      PrefixZero(BucketErrs(s, a, b), DOWS);
    } else {
      var init, p := s[..|s| - 1], s[|s| - 1];
      assert p in s;
      assert s == init + [p];
      ErrByBuckets(init, a, b);
      BucketErrsGrow(init, p, a, b);
    }
  }

  lemma {:induction false} SameInterceptAllDays(s: seq<Sample>, a: real, b: seq<real>, c: real)
    requires |b| == DOWS && (forall p :: p in s ==> p.dow < DOWS) && forall k :: 0 <= k < DOWS ==> b[k] == c
    ensures ErrByDay(s, a, b) == Err(s, a, c)
  {
    if s != [] {
      SameInterceptAllDays(s[..|s| - 1], a, b, c);
    }
  }

  lemma BucketwiseOptimal(s: seq<Sample>, a: real, b: seq<real>, other: seq<real>)
    requires |b| == |other| == DOWS
    requires forall dow :: 0 <= dow < DOWS ==> b[dow] == DayIntercept(s, a, dow)
    ensures Total(BucketErrs(s, a, b)) <= Total(BucketErrs(s, a, other))
  {
    forall dow | 0 <= dow < DOWS
      ensures BucketErrs(s, a, b)[dow] <= BucketErrs(s, a, other)[dow]
    {
      InterceptOptimal(Bucket(s, dow), a, other[dow]);
    }
    PrefixLe(BucketErrs(s, a, b), BucketErrs(s, a, other), DOWS);
  }

  /** For the stored slope, the weekday intercepts beat every other choice of seven. */
  lemma DayInterceptsOptimal(s: seq<Sample>, a: real, b: seq<real>, other: seq<real>)
    requires |b| == |other| == DOWS && forall p :: p in s ==> p.dow < DOWS
    requires forall dow :: 0 <= dow < DOWS ==> b[dow] == DayIntercept(s, a, dow)
    ensures ErrByDay(s, a, b) <= ErrByDay(s, a, other)
  {
    ErrByBuckets(s, a, b);
    ErrByBuckets(s, a, other);
    BucketwiseOptimal(s, a, b, other);
  }

  /** The stored fit of an hour, for any number of days: weekday intercepts do at
      least as well as the hour-wide one, which does at least as well as every line
      where a slope was fitted and as every constant where none was. */
  lemma FitIsLeastSquares(s: seq<Sample>, b: seq<real>)
    requires |b| == DOWS && forall p :: p in s ==> p.dow < DOWS
    requires forall dow :: 0 <= dow < DOWS ==> b[dow] == DayIntercept(s, Slope(s), dow)
    ensures ErrByDay(s, Slope(s), b) <= Err(s, Slope(s), Intercept(s, Slope(s)))
    ensures Fits(s) ==> forall a, c :: Err(s, Slope(s), Intercept(s, Slope(s))) <= Err(s, a, c)
    ensures !Fits(s) ==> forall c :: Err(s, Slope(s), Intercept(s, Slope(s))) <= Err(s, 0.0, c)
  {
    var a := Slope(s);
    var c := Intercept(s, a);
    var flat := seq(DOWS, _ => c);
    DayInterceptsOptimal(s, a, b, flat);
    SameInterceptAllDays(s, a, flat, c);
    if Fits(s) {
      forall a', c'
        ensures Err(s, a, c) <= Err(s, a', c')
      {
        LineOptimal(s, a', c');
      }
    } else {
      forall c'
        ensures Err(s, a, c) <= Err(s, 0.0, c')
      {
        InterceptOptimal(s, 0.0, c');
      }
    }
  }

  // ---- surplus_model_train ---------------------------------------------------------------------------

  datatype BucketSums = BucketSums(sx: real, sy: real, count: nat)
  datatype HourSums = HourSums(sx: real, sy: real, sxx: real, sxy: real, count: nat, buckets: seq<BucketSums>)

  datatype Model = Model(slope: seq<real>, intercept: seq<seq<real>>, samples: seq<seq<nat>>, usableDays: nat)

  /** The accumulators of an hour hold exactly its samples. */
  ghost predicate Holds(acc: HourSums, s: seq<Sample>) {
    && acc.sx == SumX(s) && acc.sy == SumY(s) && acc.sxx == SumXX(s) && acc.sxy == SumXY(s) && acc.count == |s|
    && |acc.buckets| == DOWS
    && forall dow :: 0 <= dow < DOWS ==>
      acc.buckets[dow] == BucketSums(SumX(Bucket(s, dow)), SumY(Bucket(s, dow)), |Bucket(s, dow)|)
  }

  function CountUsable(days: seq<DayFiles>): nat {
    if days == [] then 0
    else
      var last := days[|days| - 1];
      CountUsable(days[..|days| - 1])
        + if Usable(last) && exists h :: 0 <= h < HOURS && h in last.grid.value then 1 else 0
  }

  lemma SumsAppended(s: seq<Sample>, p: Sample)
    ensures SumX(s + [p]) == SumX(s) + p.x && SumY(s + [p]) == SumY(s) + p.y
    ensures SumXX(s + [p]) == SumXX(s) + p.x * p.x && SumXY(s + [p]) == SumXY(s) + p.x * p.y
    ensures forall dow :: Bucket(s + [p], dow) == Bucket(s, dow) + if p.dow == dow then [p] else []
  {
    SumOfGrows(s, p, OfX());
    SumOfGrows(s, p, OfY());
    SumOfGrows(s, p, OfXX());
    SumOfGrows(s, p, OfXY());
    assert (s + [p])[..|s|] == s;
  }

  method AddSample(acc: HourSums, ghost s: seq<Sample>, p: Sample) returns (next: HourSums)
    requires Holds(acc, s) && p.dow < DOWS
    ensures Holds(next, s + [p])
  {
    var b := acc.buckets[p.dow];
    next := HourSums(acc.sx + p.x, acc.sy + p.y, acc.sxx + p.x * p.x, acc.sxy + p.x * p.y, acc.count + 1,
                     acc.buckets[p.dow := BucketSums(b.sx + p.x, b.sy + p.y, b.count + 1)]);
    SumsAppended(s, p);
    SumsAppended(Bucket(s, p.dow), p);
    forall dow | 0 <= dow < DOWS && dow != p.dow
      ensures Bucket(s + [p], dow) == Bucket(s, dow)
    {
      assert Bucket(s, dow) + [] == Bucket(s, dow);
    }
  }

  ghost predicate HoldsDays(acc: seq<HourSums>, days: seq<DayFiles>, from: nat, to: nat) {
    |acc| == HOURS && forall h :: from <= h < to <= HOURS ==> Holds(acc[h], Samples(days, h))
  }

  /** Adds one day to every hour it teaches; whether it taught any. */
  method AddDay(acc: array<HourSums>, ghost days: seq<DayFiles>, d: DayFiles) returns (contributed: bool)
    requires ValidDays(days + [d]) && HoldsDays(acc[..], days, 0, HOURS)
    modifies acc
    ensures HoldsDays(acc[..], days + [d], 0, HOURS)
    ensures contributed == (Usable(d) && exists h :: 0 <= h < HOURS && h in d.grid.value)
  {
    contributed := false;
    assert d in days + [d];
    ghost var more := days + [d];
    assert more[..|days|] == days;
    for h := 0 to HOURS
      invariant HoldsDays(acc[..], more, 0, h) && HoldsDays(acc[..], days, h, HOURS)
      invariant contributed == (Usable(d) && exists k :: 0 <= k < h && k in d.grid.value)
    {
      ghost var was := acc[..];
      if d.grid.Some? && d.solar.Some? && h in d.grid.value {
        var x := if h in d.solar.value then d.solar.value[h] as real else 0.0;
        var p := Sample(x, -(d.grid.value[h] as real), d.dow);
        acc[h] := AddSample(acc[h], Samples(days, h), p);
        contributed := true;
      } else {
        assert Samples(days, h) + [] == Samples(days, h);
      }
      assert forall k :: 0 <= k < HOURS && k != h ==> acc[..][k] == was[k];
    }
  }

  method FitSlope(acc: HourSums, ghost s: seq<Sample>) returns (slope: real)
    requires Holds(acc, s)
    ensures slope == Slope(s)
  {
    slope := 0.0;
    if acc.count >= MIN_SLOPE_DAYS {
      if VarianceOf(acc.count, acc.sx, acc.sxx) > VAR_EPS_MW2 {
        DenominatorPositive(s);
        var denominator := Determinant(acc.count, acc.sxx, acc.sx, acc.sx);
        slope := Determinant(acc.count, acc.sxy, acc.sx, acc.sy) / denominator;
      }
    }
  }

  method FitIntercepts(acc: HourSums, ghost s: seq<Sample>, slope: real) returns (b: seq<real>, n: seq<nat>)
    requires Holds(acc, s)
    ensures |b| == |n| == DOWS
    ensures forall dow :: 0 <= dow < DOWS ==> b[dow] == DayIntercept(s, slope, dow) && n[dow] == |Bucket(s, dow)|
  {
    var c := if acc.count > 0 then MeanResidual(acc.sy, slope, acc.sx, acc.count) else 0.0;
    b, n := [], [];
    for dow := 0 to DOWS
      invariant |b| == |n| == dow
      invariant forall k :: 0 <= k < dow ==> b[k] == DayIntercept(s, slope, k) && n[k] == |Bucket(s, k)|
    {
      var bucket := acc.buckets[dow];
      b := b + [if bucket.count > 0 then MeanResidual(bucket.sy, slope, bucket.sx, bucket.count) else c];
      n := n + [bucket.count];
    }
  }

  /** The slope, and for each weekday the mean residual of its samples, or of all the
      hour's where it has none. */
  ghost predicate FittedHour(s: seq<Sample>, a: real, b: seq<real>, n: seq<nat>) {
    a == Slope(s) && |b| == |n| == DOWS
    && forall dow :: 0 <= dow < DOWS ==> b[dow] == DayIntercept(s, a, dow) && n[dow] == |Bucket(s, dow)|
  }

  /** The training pass over the window. */
  method Accumulate(days: seq<DayFiles>) returns (sums: seq<HourSums>, usable: nat)
    requires ValidDays(days)
    ensures HoldsDays(sums, days, 0, HOURS) && usable == CountUsable(days)
  {
    var acc := new HourSums[HOURS](_ => HourSums(0.0, 0.0, 0.0, 0.0, 0, seq(DOWS, _ => BucketSums(0.0, 0.0, 0))));
    usable := 0;
    for d := 0 to |days|
      invariant HoldsDays(acc[..], days[..d], 0, HOURS)
      invariant usable == CountUsable(days[..d])
    {
      assert days[..d] + [days[d]] == days[..d + 1];
      assert days[..d + 1][..d] == days[..d];
      var contributed := AddDay(acc, days[..d], days[d]);
      if contributed {
        usable := usable + 1;
      }
    }
    assert days[..|days|] == days;
    sums := acc[..];
  }

  predicate SampledOn(s: seq<Sample>, dow: nat) {
    exists p :: p in s && p.dow == dow
  }

  lemma {:induction false} BucketFilled(s: seq<Sample>, dow: nat)
    ensures Bucket(s, dow) != [] <==> SampledOn(s, dow)
  {
    if s != [] {
      BucketFilled(s[..|s| - 1], dow);
      assert forall p :: p in s <==> p in s[..|s| - 1] || p == s[|s| - 1];
    }
  }

  /** b is the best intercept there is for the samples, or 0 without any. */
  ghost predicate BestIntercept(s: seq<Sample>, a: real, b: real) {
    if s == [] then b == 0.0 else forall c :: Err(s, a, b) <= Err(s, a, c)
  }

  /** A weekday's intercept is the best for its own samples; one without samples gets the
      best for all samples of the hour. */
  lemma WeekdayIntercept(s: seq<Sample>, a: real, b: seq<real>, n: seq<nat>, dow: nat)
    requires FittedHour(s, a, b, n) && dow < DOWS
    ensures BestIntercept(if SampledOn(s, dow) then Bucket(s, dow) else s, a, b[dow])
  {
    BucketFilled(s, dow);
    var basis := if SampledOn(s, dow) then Bucket(s, dow) else s;
    forall c
      ensures Err(basis, a, Intercept(basis, a)) <= Err(basis, a, c)
    {
      InterceptOptimal(basis, a, c);
    }
  }

  /** The training pass and the fit of every hour. */
  method Train(days: seq<DayFiles>) returns (m: Model)
    requires ValidDays(days)
    ensures |m.slope| == |m.intercept| == |m.samples| == HOURS && m.usableDays == CountUsable(days)
    ensures forall h :: 0 <= h < HOURS ==>
      var s := Samples(days, h);
      && m.slope[h] == Slope(s) && |m.intercept[h]| == |m.samples[h]| == DOWS
      && FittedHour(s, m.slope[h], m.intercept[h], m.samples[h])
      && ErrByDay(s, m.slope[h], m.intercept[h]) <= Err(s, m.slope[h], Intercept(s, m.slope[h]))
    ensures forall h, dow :: 0 <= h < HOURS && 0 <= dow < DOWS ==>
      var s := Samples(days, h);
      BestIntercept(if SampledOn(s, dow) then Bucket(s, dow) else s, m.slope[h], m.intercept[h][dow])
  {
    var acc, usable := Accumulate(days);
    var a: seq<real>, b: seq<seq<real>>, n: seq<seq<nat>> := [], [], [];
    for h := 0 to HOURS
      invariant |a| == |b| == |n| == h
      invariant forall k :: 0 <= k < h ==> FittedHour(Samples(days, k), a[k], b[k], n[k])
    {
      assert Holds(acc[h], Samples(days, h));
      var slope := FitSlope(acc[h], Samples(days, h));
      var bs, ns := FitIntercepts(acc[h], Samples(days, h), slope);
      a, b, n := a + [slope], b + [bs], n + [ns];
    }
    forall h | 0 <= h < HOURS
      ensures ErrByDay(Samples(days, h), a[h], b[h]) <= Err(Samples(days, h), a[h], Intercept(Samples(days, h), a[h]))
    {
      FitIsLeastSquares(Samples(days, h), b[h]);
    }
    forall h, dow | 0 <= h < HOURS && 0 <= dow < DOWS
      ensures var s := Samples(days, h);
              BestIntercept(if SampledOn(s, dow) then Bucket(s, dow) else s, a[h], b[h][dow])
    {
      WeekdayIntercept(Samples(days, h), a[h], b[h], n[h], dow);
    }
    m := Model(a, b, n, usable);
  }
}
