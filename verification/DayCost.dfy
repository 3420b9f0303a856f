/** firmware/main/node_power_logger.cpp: the day's import cost shared between the
    loads and the unmonitored remainder. */
module DayCost {
  import opened Options
  import opened Slots
  import opened DaySplit
  import opened Sums

  /** The tariff slot of a minute of the day; minutes past 24 h fall on the next
      day's local clock. */
  function SlotOf(i: nat): (slot: nat)
    ensures slot < TARIFF_SLOTS
  {
    i % 1440 / TARIFF_SLOT_MINUTES
  }

  predicate Charged(d: Day, p: Prices, i: nat)
    requires i < MINUTES
  {
    d.grid[i] > 0 && p[SlotOf(i)] != TARIFF_NO_PRICE
  }

  /** What minute i's import costs. */
  function MinuteCost(d: Day, p: Prices, i: nat): real
    requires i < MINUTES
  {
    if Charged(d, p, i) then d.grid[i] as real / 60.0 / 1000000.0 * p[SlotOf(i)] as real else 0.0
  }

  function ImportCost(d: Day, p: Prices, n: nat): real
    requires n <= MINUTES
  {
    if n == 0 then 0.0 else ImportCost(d, p, n - 1) + MinuteCost(d, p, n - 1)
  }

  function DrawnMw(mw: int): int {
    if mw > 0 then mw else 0
  }

  /** Milliwatts of the first n loads in minute i. */
  function LoadsMw(loads: seq<Load>, i: nat, n: nat): (sum: int)
    requires i < MINUTES && n <= |loads|
    ensures sum >= 0
  {
    if n == 0 then 0 else LoadsMw(loads, i, n - 1) + DrawnMw(loads[n - 1].mw[i])
  }

  function TotalMw(d: Day, i: nat): (total: int)
    requires i < MINUTES
    ensures total >= LoadsMw(d.loads, i, |d.loads|) && total >= d.grid[i] + d.inverter[i]
    ensures total == LoadsMw(d.loads, i, |d.loads|) || total == d.grid[i] + d.inverter[i]
  {
    var sum := LoadsMw(d.loads, i, |d.loads|);
    var supply := d.grid[i] + d.inverter[i];
    if sum > supply then sum else supply
  }

  /** Cost of mw out of the minute's total. */
  function CostOf(d: Day, p: Prices, i: nat, mw: int): real
    requires i < MINUTES && TotalMw(d, i) > 0
  {
    Portion(MinuteCost(d, p, i), mw as real / TotalMw(d, i) as real)
  }

  function LoadStep(d: Day, p: Prices, k: nat, i: nat): real
    requires i < MINUTES && k < |d.loads|
  {
    if Charged(d, p, i) && TotalMw(d, i) > 0 then CostOf(d, p, i, DrawnMw(d.loads[k].mw[i])) else 0.0
  }

  function UnmonitoredStep(d: Day, p: Prices, i: nat): real
    requires i < MINUTES
  {
    if !Charged(d, p, i) then 0.0
    else if TotalMw(d, i) <= 0 then MinuteCost(d, p, i)
    else CostOf(d, p, i, TotalMw(d, i) - LoadsMw(d.loads, i, |d.loads|))
  }

  function LoadCost(d: Day, p: Prices, k: nat, n: nat): real
    requires n <= MINUTES && k < |d.loads|
  {
    if n == 0 then 0.0 else LoadCost(d, p, k, n - 1) + LoadStep(d, p, k, n - 1)
  }

  function UnmonitoredCost(d: Day, p: Prices, n: nat): real
    requires n <= MINUTES
  {
    if n == 0 then 0.0 else UnmonitoredCost(d, p, n - 1) + UnmonitoredStep(d, p, n - 1)
  }

  // ---- Conservation --------------------------------------------------------------------

  /** Cost of the first k loads over the first n minutes. */
  function LoadCosts(d: Day, p: Prices, k: nat, n: nat): real
    requires n <= MINUTES && k <= |d.loads|
  {
    if k == 0 then 0.0 else LoadCosts(d, p, k - 1, n) + LoadCost(d, p, k - 1, n)
  }

  function LoadSteps(d: Day, p: Prices, k: nat, i: nat): real
    requires i < MINUTES && k <= |d.loads|
  {
    if k == 0 then 0.0 else LoadSteps(d, p, k - 1, i) + LoadStep(d, p, k - 1, i)
  }

  lemma {:induction false} CostsByMinute(d: Day, p: Prices, k: nat, n: nat)
    requires n < MINUTES && k <= |d.loads|
    ensures LoadCosts(d, p, k, n + 1) == LoadCosts(d, p, k, n) + LoadSteps(d, p, k, n)
    ensures n == 0 ==> LoadCosts(d, p, k, n) == 0.0
  {
    if k > 0 {
      CostsByMinute(d, p, k - 1, n);
    }
  }

  lemma PortionAdds(cost: real, a: real, b: real, total: real)
    requires total > 0.0
    ensures Portion(cost, a / total) + Portion(cost, b / total) == Portion(cost, (a + b) / total)
  {
    assert a / total + b / total == (a + b) / total;
    var x, y := a / total, b / total;
    assert cost * x + cost * y == cost * (x + y);
  }

  lemma CompletePortions(cost: real, a: real, b: real, total: real)
    requires total > 0.0 && a + b == total
    ensures Portion(cost, a / total) + Portion(cost, b / total) == cost
  {
    PortionAdds(cost, a, b, total);
    assert total / total == 1.0;
  }

  lemma {:induction false} StepsOfMinute(d: Day, p: Prices, k: nat, i: nat)
    requires i < MINUTES && k <= |d.loads| && Charged(d, p, i) && TotalMw(d, i) > 0
    ensures LoadSteps(d, p, k, i) == CostOf(d, p, i, LoadsMw(d.loads, i, k))
  {
    var cost, total := MinuteCost(d, p, i), TotalMw(d, i) as real;
    if k == 0 {
      assert 0.0 / total == 0.0;
    } else {
      StepsOfMinute(d, p, k - 1, i);
      PortionAdds(cost, LoadsMw(d.loads, i, k - 1) as real, DrawnMw(d.loads[k - 1].mw[i]) as real, total);
    }
  }

  lemma {:induction false} NothingCharged(d: Day, p: Prices, k: nat, i: nat)
    requires i < MINUTES && k <= |d.loads| && !(Charged(d, p, i) && TotalMw(d, i) > 0)
    ensures LoadSteps(d, p, k, i) == 0.0
  {
    if k > 0 {
      NothingCharged(d, p, k - 1, i);
    }
  }

  lemma MinuteConserved(d: Day, p: Prices, i: nat)
    requires i < MINUTES
    ensures LoadSteps(d, p, |d.loads|, i) + UnmonitoredStep(d, p, i) == MinuteCost(d, p, i)
  {
    if Charged(d, p, i) && TotalMw(d, i) > 0 {
      StepsOfMinute(d, p, |d.loads|, i);
      var drawn, total := LoadsMw(d.loads, i, |d.loads|), TotalMw(d, i);
      CompletePortions(MinuteCost(d, p, i), drawn as real, (total - drawn) as real, total as real);
    } else {
      NothingCharged(d, p, |d.loads|, i);
    }
  }

  /** The per-load costs and the unmonitored cost add up to the priced import. */
  lemma {:induction false} CostConserved(d: Day, p: Prices, n: nat)
    requires n <= MINUTES
    ensures LoadCosts(d, p, |d.loads|, n) + UnmonitoredCost(d, p, n) == ImportCost(d, p, n)
  {
    if n == 0 {
      CostsByMinute(d, p, |d.loads|, 0);
    } else {
      CostConserved(d, p, n - 1);
      CostsByMinute(d, p, |d.loads|, n - 1);
      MinuteConserved(d, p, n - 1);
    }
  }

  lemma CostShare(d: Day, p: Prices, i: nat, mw: int)
    requires i < MINUTES && TotalMw(d, i) > 0 && 0 <= mw && Charged(d, p, i) && p[SlotOf(i)] >= 0
    ensures CostOf(d, p, i, mw) >= 0.0
  {
    var cost, share := MinuteCost(d, p, i), mw as real / TotalMw(d, i) as real;
    assert d.grid[i] as real / 60.0 / 1000000.0 * p[SlotOf(i)] as real >= 0.0;
    assert cost * share >= 0.0;
  }

  /** Under non-negative prices nobody's cost is negative. */
  lemma {:induction false} CostsNonNegative(d: Day, p: Prices, k: nat, n: nat)
    requires n <= MINUTES && k < |d.loads|
    requires forall i :: 0 <= i < TARIFF_SLOTS ==> p[i] == TARIFF_NO_PRICE || p[i] >= 0
    ensures LoadCost(d, p, k, n) >= 0.0 && UnmonitoredCost(d, p, n) >= 0.0
  {
    if n > 0 {
      CostsNonNegative(d, p, k, n - 1);
      if Charged(d, p, n - 1) && TotalMw(d, n - 1) > 0 {
        CostShare(d, p, n - 1, DrawnMw(d.loads[k].mw[n - 1]));
        CostShare(d, p, n - 1, TotalMw(d, n - 1) - LoadsMw(d.loads, n - 1, |d.loads|));
      } else if Charged(d, p, n - 1) {
        assert d.grid[n - 1] as real / 60.0 / 1000000.0 * p[SlotOf(n - 1)] as real >= 0.0;
      }
    }
  }

  // ---- The bill --------------------------------------------------------------------------

  /** kWh imported in the first n minutes while the clock is within slot s. */
  function Imported(d: Day, s: nat, n: nat): real
    requires n <= MINUTES
  {
    if n == 0 then 0.0
    else
      var kwh := Positive(d.grid[n - 1] as real) / 60.0 / 1000000.0;
      Imported(d, s, n - 1) + if 15 * s <= (n - 1) % (24 * 60) < 15 * s + 15 then kwh else 0.0
  }

  /** What that is worth at the slot's price; nothing where it has none. */
  function Billed(d: Day, p: Prices, s: nat, n: nat): real
    requires n <= MINUTES && s < TARIFF_SLOTS
  {
    if p[s] == TARIFF_NO_PRICE then 0.0 else Imported(d, s, n) * p[s] as real
  }

  function Bill(d: Day, p: Prices, n: nat): (v: seq<real>)
    requires n <= MINUTES
    ensures |v| == TARIFF_SLOTS && forall s :: 0 <= s < TARIFF_SLOTS ==> v[s] == Billed(d, p, s, n)
  {
    seq(TARIFF_SLOTS, s requires 0 <= s < TARIFF_SLOTS => Billed(d, p, s, n))
  }

  lemma MinuteBilled(d: Day, p: Prices, s: nat, i: nat)
    requires i < MINUTES && s < TARIFF_SLOTS
    ensures Billed(d, p, s, i + 1) == Billed(d, p, s, i) + if s == SlotOf(i) then MinuteCost(d, p, i) else 0.0
  {
    assert 15 * s <= i % 1440 < 15 * s + 15 <==> s == SlotOf(i);
    if s == SlotOf(i) && p[s] != TARIFF_NO_PRICE {
      var kwh, before := Positive(d.grid[i] as real) / 60.0 / 1000000.0, Imported(d, s, i);
      assert (before + kwh) * p[s] as real == before * p[s] as real + kwh * p[s] as real;
    }
  }

  /** The day's import is billed by the clock: what was imported in each quarter of an hour,
      at its price. */
  lemma {:induction false} BilledBySlot(d: Day, p: Prices, n: nat)
    requires n <= MINUTES
    ensures ImportCost(d, p, n) == Total(Bill(d, p, n))
  {
    if n == 0 {
      PrefixZero(Bill(d, p, 0), TARIFF_SLOTS);
    } else {
      BilledBySlot(d, p, n - 1);
      forall s | 0 <= s < TARIFF_SLOTS
        ensures Bill(d, p, n)[s] == Bill(d, p, n - 1)[s] + if s == SlotOf(n - 1) then MinuteCost(d, p, n - 1) else 0.0
      {
        MinuteBilled(d, p, s, n - 1);
      }
      PrefixBump(Bill(d, p, n - 1), Bill(d, p, n), SlotOf(n - 1), MinuteCost(d, p, n - 1), TARIFF_SLOTS);
    }
  }

  /** A load pays for a minute in the proportion of what it draws to what the house takes. */
  lemma PaidInProportion(d: Day, p: Prices, k: nat, i: nat)
    requires i < MINUTES && k < |d.loads|
    ensures TotalMw(d, i) > 0 ==>
      LoadStep(d, p, k, i) * TotalMw(d, i) as real == MinuteCost(d, p, i) * Positive(d.loads[k].mw[i] as real)
    ensures TotalMw(d, i) <= 0 ==> LoadStep(d, p, k, i) == 0.0
  {
    if TotalMw(d, i) > 0 && Charged(d, p, i) {
      var total, drawn := TotalMw(d, i) as real, DrawnMw(d.loads[k].mw[i]) as real;
      PartOfWhole(MinuteCost(d, p, i), drawn, total);
      assert drawn == Positive(d.loads[k].mw[i] as real);
    }
  }

  lemma PartOfWhole(cost: real, part: real, whole: real)
    requires whole > 0.0
    ensures Portion(cost, part / whole) * whole == cost * part
  {
    var share := part / whole;
    assert share * whole == part;
    assert cost * share * whole == cost * (share * whole);
  }

  // ---- compute_day_cost -------------------------------------------------------------------

  datatype Cost = Cost(loads: seq<real>, unmonitored: real)

  method SumMw(loads: seq<Load>, i: nat) returns (sum: int)
    requires i < MINUTES
    ensures sum == LoadsMw(loads, i, |loads|)
  {
    sum := 0;
    for k := 0 to |loads|
      invariant sum == LoadsMw(loads, i, k)
    {
      sum := sum + if loads[k].mw[i] > 0 then loads[k].mw[i] else 0;
    }
  }

  ghost predicate Accumulated(d: Day, p: Prices, cost: array<real>, i: nat)
    requires i <= MINUTES
    reads cost
  {
    cost.Length == |d.loads| && forall k :: 0 <= k < |d.loads| ==> cost[k] == LoadCost(d, p, k, i)
  }

  /** Charges load k its part of the minute's cost. */
  method ChargeLoad(d: Day, p: Prices, i: nat, k: nat, minuteCost: real, total: int, cost: array<real>)
    requires i < MINUTES && k < |d.loads| == cost.Length && cost[k] == LoadCost(d, p, k, i)
    requires Charged(d, p, i) && minuteCost == MinuteCost(d, p, i) && total == TotalMw(d, i) > 0
    modifies cost
    ensures cost[k] == LoadCost(d, p, k, i + 1)
    ensures forall j :: 0 <= j < |d.loads| && j != k ==> cost[j] == old(cost[j])
  {
    var v := d.loads[k].mw[i];
    if v > 0 {
      cost[k] := cost[k] + Portion(minuteCost, v as real / total as real);
    } else {
      NoPart(minuteCost, total);
    }
  }

  lemma NoPart(cost: real, total: int)
    requires total > 0
    ensures Portion(cost, 0 as real / total as real) == 0.0
  {
  }

  /** Charges minute i's import; returns the remainder's part. */
  method ChargeMinute(d: Day, p: Prices, i: nat, cost: array<real>) returns (rest: real)
    requires i < MINUTES && Accumulated(d, p, cost, i)
    modifies cost
    ensures Accumulated(d, p, cost, i + 1) && rest == UnmonitoredStep(d, p, i)
  {
    if d.grid[i] <= 0 || p[SlotOf(i)] == TARIFF_NO_PRICE {
      return 0.0;
    }
    var minuteCost := d.grid[i] as real / 60.0 / 1000000.0 * p[SlotOf(i)] as real;
    var total := d.grid[i] + d.inverter[i];
    var sum := SumMw(d.loads, i);
    if sum > total {
      total := sum;
    }
    if total <= 0 {
      return minuteCost;
    }
    for k := 0 to |d.loads|
      invariant forall j :: 0 <= j < k ==> cost[j] == LoadCost(d, p, j, i + 1)
      invariant forall j :: k <= j < |d.loads| ==> cost[j] == LoadCost(d, p, j, i)
    {
      ChargeLoad(d, p, i, k, minuteCost, total, cost);
    }
    rest := Portion(minuteCost, (total - sum) as real / total as real);
  }

  /** None without a tariff or grid data; otherwise every party's cost of the day. */
  method ComputeDayCost(tariff: Option<Prices>, day: Option<Day>) returns (out: Option<Cost>)
    ensures out.None? <==> tariff.None? || day.None?
    ensures out.Some? ==>
      && |out.value.loads| == |day.value.loads|
      && (forall k :: 0 <= k < |out.value.loads| ==>
            out.value.loads[k] == LoadCost(day.value, tariff.value, k, MINUTES))
      && out.value.unmonitored == ImportCost(day.value, tariff.value, MINUTES)
           - LoadCosts(day.value, tariff.value, |out.value.loads|, MINUTES)
  {
    if tariff.None? || day.None? {
      return None;
    }
    var d, p := day.value, tariff.value;
    var cost := new real[|d.loads|](_ => 0.0);
    var unmonitored := 0.0;
    for i := 0 to MINUTES
      invariant Accumulated(d, p, cost, i)
      invariant unmonitored == UnmonitoredCost(d, p, i)
    {
      var rest := ChargeMinute(d, p, i, cost);
      unmonitored := unmonitored + rest;
    }
    CostConserved(d, p, MINUTES);
    out := Some(Cost(cost[..], unmonitored));
  }
}
