/** firmware/main/node_power_logger.cpp: the solar/grid split of one day's energy
    and the battery mixing ledger it carries. Doubles are reals. */
module DaySplit {
  import opened Options

  /** Minutes indexed from local midnight; a day has up to 25 hours. */
  const MINUTES: nat := 1500
  const ROUND_TRIP: real := 0.9
  /** Charge the inverter never discharges below, in half-percent units. */
  const RESERVE_HALF_PCT: int := 20

  type Minutes = m: seq<int> | |m| == MINUTES witness seq(MINUTES, _ => 0)

  /** Energy held and the fraction of it that came from the sun. While `soc` the
      energy is usable charge in half-percent, otherwise Wh. */
  datatype Mix = Mix(energy: real, solar: real, known: bool, soc: bool)

  type Ledger = m: Mix | m.known ==> m.energy > 0.0 witness Mix(0.0, 0.0, false, false)

  const UNKNOWN: Ledger := Mix(0.0, 0.0, false, false)

  datatype Load = Load(id: string, mw: Minutes)

  /** One day's minute readings in mW, inverter and battery as power supplied. */
  datatype Day = Day(grid: Minutes, inverter: Minutes, battery: Minutes,
                     charge: Option<Minutes>, loads: seq<Load>)

  /** A ledger is unknown, with nothing in it, or holds energy of a proper mix. */
  ghost predicate Sound(l: Ledger) {
    if l.known then l.energy > 0.0 && 0.0 <= l.solar <= 1.0
    else l.energy == 0.0 && l.solar == 0.0
  }

  /** A share of an amount. */
  function Portion(amount: real, share: real): real {
    amount * share
  }

  /** The solar fraction of `den`, made of `held` at fraction f and `extra` solar. */
  function Diluted(f: real, held: real, extra: real, den: real): real
    requires den > 0.0
  {
    (f * held + extra) / den
  }

  // ---- Sharing one minute ---------------------------------------------------------

  function Watts(mw: int): real {
    mw as real / 1000.0
  }

  function Drawn(mw: int): real {
    if mw > 0 then Watts(mw) else 0.0
  }

  /** Power of the first n loads in minute i. */
  function LoadsDrawn(loads: seq<Load>, i: nat, n: nat): (w: real)
    requires i < MINUTES && n <= |loads|
    ensures w >= 0.0
  {
    if n == 0 then 0.0 else LoadsDrawn(loads, i, n - 1) + Drawn(loads[n - 1].mw[i])
  }

  /** House consumption: grid plus inverter, or the loads where the meters disagree. */
  function HouseWatts(d: Day, i: nat): (w: real)
    requires i < MINUTES
    ensures w >= LoadsDrawn(d.loads, i, |d.loads|)
  {
    var supply := Watts(d.grid[i]) + Watts(d.inverter[i]);
    var drawn := LoadsDrawn(d.loads, i, |d.loads|);
    if drawn > supply then drawn else supply
  }

  /** Share of the house supply imported from the grid, capped at all of it. */
  function GridPart(gridW: real, house: real): real
    requires house > 0.0
  {
    var share := if gridW > 0.0 then gridW / house else 0.0;
    if share > 1.0 then 1.0 else share
  }

  /** Part of the inverter's output that came out of the battery. */
  function BatteryPart(invW: real, batW: real): real {
    var inv := if invW > 0.0 then invW else 0.0;
    var dis := if batW > 0.0 then batW else 0.0;
    if inv > 0.0 then (if dis < inv then dis else inv) / inv else 0.0
  }

  /** Part of the house supply that came from the sun, directly or via the battery. */
  function SolarShare(gridW: real, invW: real, batW: real, house: real, l: Ledger): real
    requires house > 0.0
  {
    var g, b := GridPart(gridW, house), BatteryPart(invW, batW);
    var f := if l.known then l.solar else 0.0;
    Portion(1.0 - g, (1.0 - b) + Portion(b, f))
  }

  // ---- Advancing the ledger one minute ----------------------------------------------

  /** The ledger and the charge seen since the last state-of-charge step. */
  datatype Battery = Battery(ledger: Ledger, pendSolar: real, pendGrid: real, rebase: bool)

  /** The part of a charge of c watts pulled from the AC side. */
  function GridCharge(invW: real, c: real): real {
    if invW < 0.0 then (if -invW < c then -invW else c) else 0.0
  }

  function AddPending(b: Battery, invW: real, batW: real): Battery {
    if batW < 0.0 then
      var cg := GridCharge(invW, -batW);
      b.(pendSolar := b.pendSolar + (-batW - cg), pendGrid := b.pendGrid + cg)
    else b
  }

  function Usable(reading: int): real {
    if reading > RESERVE_HALF_PCT then (reading - RESERVE_HALF_PCT) as real else 0.0
  }

  function TakeReading(b: Battery, reading: int): Battery {
    var l := b.ledger;
    var u := Usable(reading);
    var held := if l.known then l.energy else 0.0;
    if u <= 0.0 then
      Battery(UNKNOWN, 0.0, 0.0, false)
    else if b.rebase && l.known then
      Battery(l.(energy := u), 0.0, 0.0, false)
    else if u > held then
      var pend := b.pendSolar + b.pendGrid;
      var r := if pend > 0.0 then b.pendSolar / pend else if l.known then l.solar else 0.0;
      Battery(Mix(u, Diluted(l.solar, held, Portion(u - held, r), u), true, l.soc), 0.0, 0.0, false)
    else if u < held then
      Battery(l.(energy := u), 0.0, 0.0, false)
    else b.(rebase := false)
  }

  /** A day without state-of-charge readings: integrate the battery's power. */
  function Integrate(l: Ledger, invW: real, batW: real): Ledger
  {
    if batW < 0.0 then
      var c := -batW;
      var cs := c - GridCharge(invW, c);
      var held := if l.known then l.energy else 0.0;
      Mix(held + c / 60.0, Diluted(if l.known then l.solar else 0.0, held, cs / 60.0, held + c / 60.0), true, l.soc)
    else if batW > 0.0 && l.known then
      var energy := l.energy - batW / 60.0 / ROUND_TRIP;
      if energy <= 0.0 then UNKNOWN else l.(energy := energy)
    else l
  }

  function AdvanceBattery(b: Battery, d: Day, i: nat): Battery
    requires i < MINUTES
  {
    var invW, batW := Watts(d.inverter[i]), Watts(d.battery[i]);
    if d.charge.Some? then
      var charged := AddPending(b, invW, batW);
      if d.charge.value[i] >= 0 then TakeReading(charged, d.charge.value[i]) else charged
    else b.(ledger := Integrate(b.ledger, invW, batW))
  }

  /** How a day begins: Wh are re-based onto the first reading, charge units are
      dropped when the day has no readings. */
  function StartOf(d: Day, start: Ledger): Battery {
    Battery(if d.charge.None? && start.soc then UNKNOWN else start,
            0.0, 0.0, d.charge.Some? && !start.soc)
  }

  /** The battery after the first n minutes. */
  function BatteryAt(d: Day, start: Ledger, n: nat): Battery
    requires n <= MINUTES
  {
    if n == 0 then StartOf(d, start)
    else AdvanceBattery(BatteryAt(d, start, n - 1), d, n - 1)
  }

  // ---- The day's split ---------------------------------------------------------------

  function ShareAt(d: Day, start: Ledger, i: nat): real
    requires i < MINUTES
  {
    if HouseWatts(d, i) > 0.0 then
      SolarShare(Watts(d.grid[i]), Watts(d.inverter[i]), Watts(d.battery[i]), HouseWatts(d, i),
                 BatteryAt(d, start, i).ledger)
    else 0.0
  }

  /** Solar and grid Wh of a consumer of w watts in minute i. */
  function SolarStep(d: Day, start: Ledger, w: real, i: nat): real
    requires i < MINUTES
  {
    if HouseWatts(d, i) > 0.0 then Portion(w / 60.0, ShareAt(d, start, i)) else 0.0
  }

  function GridStep(d: Day, start: Ledger, w: real, i: nat): real
    requires i < MINUTES
  {
    if HouseWatts(d, i) > 0.0 then Portion(w / 60.0, 1.0 - ShareAt(d, start, i)) else 0.0
  }

  /** Solar Wh of a metered load over the first n minutes. */
  function LoadSolar(d: Day, start: Ledger, mw: Minutes, n: nat): real
    requires n <= MINUTES
  {
    if n == 0 then 0.0
    else LoadSolar(d, start, mw, n - 1) + SolarStep(d, start, Drawn(mw[n - 1]), n - 1)
  }

  function LoadGrid(d: Day, start: Ledger, mw: Minutes, n: nat): real
    requires n <= MINUTES
  {
    if n == 0 then 0.0
    else LoadGrid(d, start, mw, n - 1) + GridStep(d, start, Drawn(mw[n - 1]), n - 1)
  }

  /** House consumption no load accounts for, in watts. */
  function Unmonitored(d: Day, i: nat): (w: real)
    requires i < MINUTES
    ensures w >= 0.0
  {
    if HouseWatts(d, i) > 0.0 then HouseWatts(d, i) - LoadsDrawn(d.loads, i, |d.loads|) else 0.0
  }

  function UnmonitoredSolar(d: Day, start: Ledger, n: nat): real
    requires n <= MINUTES
  {
    if n == 0 then 0.0
    else UnmonitoredSolar(d, start, n - 1) + SolarStep(d, start, Unmonitored(d, n - 1), n - 1)
  }

  function UnmonitoredGrid(d: Day, start: Ledger, n: nat): real
    requires n <= MINUTES
  {
    if n == 0 then 0.0
    else UnmonitoredGrid(d, start, n - 1) + GridStep(d, start, Unmonitored(d, n - 1), n - 1)
  }

  datatype Energy = Energy(id: string, solarWh: real, gridWh: real)
  datatype Split = Split(loads: seq<Energy>, unmonitored: Energy, end: Ledger)

  const UNMONITORED_KEY := "__unmonitored"

  function SplitOf(d: Day, start: Ledger): Split {
    Split(seq(|d.loads|, k requires 0 <= k < |d.loads| =>
            Energy(d.loads[k].id, LoadSolar(d, start, d.loads[k].mw, MINUTES),
                   LoadGrid(d, start, d.loads[k].mw, MINUTES))),
          Energy(UNMONITORED_KEY, UnmonitoredSolar(d, start, MINUTES), UnmonitoredGrid(d, start, MINUTES)),
          BatteryAt(d, start, MINUTES).ledger.(soc := d.charge.Some?))
  }

  // ---- compute_day_split ---------------------------------------------------------------

  function HourlyLedgers(d: Day, start: Ledger, hours: nat): seq<Ledger>
    requires 60 * hours <= MINUTES
  {
    if hours == 0 then []
    else HourlyLedgers(d, start, hours - 1) + [BatteryAt(d, start, 60 * hours).ledger.(soc := d.charge.Some?)]
  }

  method SumLoads(loads: seq<Load>, i: nat) returns (sum: real)
    requires i < MINUTES
    ensures sum == LoadsDrawn(loads, i, |loads|)
  {
    sum := 0.0;
    for k := 0 to |loads|
      invariant sum == LoadsDrawn(loads, i, k)
    {
      sum := sum + if loads[k].mw[i] > 0 then loads[k].mw[i] as real / 1000.0 else 0.0;
    }
  }

  /** The accumulators hold the first i minutes. */
  ghost predicate Accumulated(d: Day, start: Ledger, solar: array<real>, grid: array<real>, i: nat)
    requires i <= MINUTES
    reads solar, grid
  {
    solar != grid && solar.Length == grid.Length == |d.loads|
    && forall k :: 0 <= k < |d.loads| ==>
      solar[k] == LoadSolar(d, start, d.loads[k].mw, i) && grid[k] == LoadGrid(d, start, d.loads[k].mw, i)
  }

  /** Credits load k, drawing mw, with a minute's energy at solar share s. */
  method CreditLoad(mw: int, s: real, k: nat, solar: array<real>, grid: array<real>)
    requires k < solar.Length == grid.Length && solar != grid
    modifies solar, grid
    ensures solar[..] == old(solar[..])[k := old(solar[k]) + Portion(Drawn(mw) / 60.0, s)]
    ensures grid[..] == old(grid[..])[k := old(grid[k]) + Portion(Drawn(mw) / 60.0, 1.0 - s)]
  {
    if mw > 0 {
      var wh := mw as real / 1000.0 / 60.0;
      solar[k] := solar[k] + Portion(wh, s);
      grid[k] := grid[k] + Portion(wh, 1.0 - s);
    }
  }

  /** Credits each load with its part of minute i, solar share s. */
  method CreditLoads(d: Day, ghost start: Ledger, i: nat, s: real, solar: array<real>, grid: array<real>)
    requires i < MINUTES && Accumulated(d, start, solar, grid, i)
    requires HouseWatts(d, i) > 0.0 && s == ShareAt(d, start, i)
    modifies solar, grid
    ensures Accumulated(d, start, solar, grid, i + 1)
  {
    for k := 0 to |d.loads|
      invariant forall j :: k <= j < |d.loads| ==>
        && solar[j] == LoadSolar(d, start, d.loads[j].mw, i)
        && grid[j] == LoadGrid(d, start, d.loads[j].mw, i)
      invariant forall j :: 0 <= j < k ==>
        && solar[j] == LoadSolar(d, start, d.loads[j].mw, i + 1)
        && grid[j] == LoadGrid(d, start, d.loads[j].mw, i + 1)
    {
      CreditLoad(d.loads[k].mw[i], s, k, solar, grid);
    }
  }

  /** Shares minute i between the loads and the unmonitored remainder. */
  method ShareMinute(d: Day, ghost start: Ledger, b: Battery, i: nat, solar: array<real>, grid: array<real>)
    returns (unSolar: real, unGrid: real)
    requires i < MINUTES && b == BatteryAt(d, start, i) && Accumulated(d, start, solar, grid, i)
    modifies solar, grid
    ensures Accumulated(d, start, solar, grid, i + 1)
    ensures unSolar == SolarStep(d, start, Unmonitored(d, i), i)
    ensures unGrid == GridStep(d, start, Unmonitored(d, i), i)
  {
    unSolar, unGrid := 0.0, 0.0;
    var sum := SumLoads(d.loads, i);
    var gridW, invW := d.grid[i] as real / 1000.0, d.inverter[i] as real / 1000.0;
    var total := gridW + invW;
    if sum > total {
      total := sum;
    }
    assert total == HouseWatts(d, i);
    if total > 0.0 {
      var s := SolarShare(gridW, invW, d.battery[i] as real / 1000.0, total, b.ledger);
      CreditLoads(d, start, i, s, solar, grid);
      var unWh := (total - sum) / 60.0;
      unSolar, unGrid := Portion(unWh, s), Portion(unWh, 1.0 - s);
    }
  }

  method AdvanceMinute(b: Battery, d: Day, i: nat) returns (next: Battery)
    requires i < MINUTES
    ensures next == AdvanceBattery(b, d, i)
  {
    var invW, batW := d.inverter[i] as real / 1000.0, d.battery[i] as real / 1000.0;
    var l, pendS, pendG, rebase := b.ledger, b.pendSolar, b.pendGrid, b.rebase;
    if d.charge.Some? {
      if batW < 0.0 {
        var c := -batW;
        var cg := if invW < 0.0 then (if -invW < c then -invW else c) else 0.0;
        pendS, pendG := pendS + (c - cg), pendG + cg;
      }
      var reading := d.charge.value[i];
      if reading >= 0 {
        var u := if reading > RESERVE_HALF_PCT then (reading - RESERVE_HALF_PCT) as real else 0.0;
        var held := if l.known then l.energy else 0.0;
        if u <= 0.0 {
          l, pendS, pendG := UNKNOWN, 0.0, 0.0;
        } else if rebase && l.known {
          l, pendS, pendG := l.(energy := u), 0.0, 0.0;
        } else if u > held {
          var pend := pendS + pendG;
          var r := if pend > 0.0 then pendS / pend else if l.known then l.solar else 0.0;
          l, pendS, pendG := Mix(u, Diluted(l.solar, held, Portion(u - held, r), u), true, l.soc), 0.0, 0.0;
        } else if u < held {
          l, pendS, pendG := l.(energy := u), 0.0, 0.0;
        }
        rebase := false;
      }
    } else if batW < 0.0 {
      var c := -batW;
      var cg := if invW < 0.0 then (if -invW < c then -invW else c) else 0.0;
      var held, f := if l.known then l.energy else 0.0, if l.known then l.solar else 0.0;
      var energy := held + c / 60.0;
      l := Mix(energy, Diluted(f, held, (c - cg) / 60.0, energy), true, l.soc);
    } else if batW > 0.0 && l.known {
      var energy := l.energy - batW / 60.0 / ROUND_TRIP;
      l := if energy <= 0.0 then UNKNOWN else l.(energy := energy);
    }
    next := Battery(l, pendS, pendG, rebase);
  }

  method NoteHour(d: Day, ghost start: Ledger, b: Battery, i: nat, hourly: seq<Ledger>) returns (next: seq<Ledger>)
    requires i < MINUTES && b == BatteryAt(d, start, i + 1) && hourly == HourlyLedgers(d, start, i / 60)
    ensures next == HourlyLedgers(d, start, (i + 1) / 60)
  {
    next := if i % 60 == 59 then hourly + [b.ledger.(soc := d.charge.Some?)] else hourly;
  }

  /** The minute loop of a day with grid data. */
  method RunMinutes(d: Day, start: Ledger, solar: array<real>, grid: array<real>)
    returns (unSolar: real, unGrid: real, b: Battery, hourly: seq<Ledger>)
    requires solar != grid && Accumulated(d, start, solar, grid, 0)
    modifies solar, grid
    ensures Accumulated(d, start, solar, grid, MINUTES) && b == BatteryAt(d, start, MINUTES)
    ensures unSolar == UnmonitoredSolar(d, start, MINUTES) && unGrid == UnmonitoredGrid(d, start, MINUTES)
    ensures hourly == HourlyLedgers(d, start, MINUTES / 60)
  {
    hourly, unSolar, unGrid := [], 0.0, 0.0;
    b := Battery(if d.charge.None? && start.soc then UNKNOWN else start, 0.0, 0.0, d.charge.Some? && !start.soc);
    for i := 0 to MINUTES
      invariant Accumulated(d, start, solar, grid, i)
      invariant b == BatteryAt(d, start, i)
      invariant unSolar == UnmonitoredSolar(d, start, i) && unGrid == UnmonitoredGrid(d, start, i)
      invariant hourly == HourlyLedgers(d, start, i / 60)
    {
      var us, ug := ShareMinute(d, start, b, i, solar, grid);
      unSolar, unGrid := unSolar + us, unGrid + ug;
      b := AdvanceMinute(b, d, i);
      hourly := NoteHour(d, start, b, i, hourly);
    }
  }

  method RunDay(d: Day, start: Ledger) returns (out: Split, hourly: seq<Ledger>)
    ensures out == SplitOf(d, start) && hourly == HourlyLedgers(d, start, MINUTES / 60)
  {
    var solar, grid := new real[|d.loads|](_ => 0.0), new real[|d.loads|](_ => 0.0);
    var unSolar, unGrid, b;
    unSolar, unGrid, b, hourly := RunMinutes(d, start, solar, grid);
    var loads := ListLoads(d, start, solar, grid);
    out := Split(loads, Energy(UNMONITORED_KEY, unSolar, unGrid), b.ledger.(soc := d.charge.Some?));
  }

  /** None when the day has no grid file; otherwise the day's split and the ledger
      at the end of each hour. */
  method ComputeDaySplit(day: Option<Day>, start: Ledger) returns (out: Option<Split>, hourly: seq<Ledger>)
    ensures day.None? ==> out.None? && hourly == []
    ensures day.Some? ==> out == Some(SplitOf(day.value, start))
                          && hourly == HourlyLedgers(day.value, start, MINUTES / 60)
  {
    if day.None? {
      return None, [];
    }
    var split;
    split, hourly := RunDay(day.value, start);
    out := Some(split);
  }

  method ListLoads(d: Day, ghost start: Ledger, solar: array<real>, grid: array<real>) returns (loads: seq<Energy>)
    requires Accumulated(d, start, solar, grid, MINUTES)
    ensures loads == SplitOf(d, start).loads
  {
    loads := [];
    for k := 0 to |d.loads|
      invariant loads == SplitOf(d, start).loads[..k]
    {
      loads := loads + [Energy(d.loads[k].id, solar[k], grid[k])];
    }
  }
}
