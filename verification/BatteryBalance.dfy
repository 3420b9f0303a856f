/** Solar energy through the battery, on days in Wh: when a minute, and with it a day,
    credits the house no more than the inverter made, the battery was charged with and
    the ledger began with. */
module BatteryBalance {
  import opened Options
  import opened Sums
  import opened DaySplit
  import opened LedgerLaws

  // ---- One minute's power -------------------------------------------------------------------

  /** The part of the inverter's output that the battery supplies. */
  function Output(invW: real, batW: real): real {
    if Positive(batW) < Positive(invW) then Positive(batW) else Positive(invW)
  }

  lemma PortionAssociates(a: real, x: real, y: real)
    ensures Portion(a, Portion(x, y)) == Portion(Portion(a, x), y)
    ensures Portion(a, x + y) == Portion(a, x) + Portion(a, y)
  {
  }

  lemma PortionPositive(a: real, x: real)
    requires 0.0 < a && 0.0 < x
    ensures Portion(a, x) > 0.0
  {
  }

  lemma PortionSplits(a: real, b: real, x: real)
    ensures Portion(a + b, x) == Portion(a, x) + Portion(b, x)
    ensures Portion(a / 60.0, x) == Portion(a, x) / 60.0
  {
  }

  lemma PortionSwaps(a: real, b: real, x: real)
    ensures Portion(a, Portion(b, x)) == Portion(b, Portion(a, x))
  {
  }

  lemma PortionCompares(a: real, x: real, y: real)
    requires a > 0.0
    ensures Portion(a, x) <= Portion(a, y) <==> x <= y
    ensures Portion(a, x) == Portion(x, a)
  {
    if x > y {
      PortionPositive(a, x - y);
    }
  }

  lemma PortionOfRatio(a: real, part: real)
    requires a > 0.0
    ensures Portion(a, part / a) == part
    ensures Portion(a, 1.0 - part / a) == a - part
  {
  }

  /** What the house takes that the grid does not deliver. */
  function Net(gridW: real, house: real): real {
    house - Min(Positive(gridW), house)
  }

  lemma NetPower(gridW: real, house: real)
    requires house > 0.0
    ensures Portion(house, 1.0 - GridPart(gridW, house)) == Net(gridW, house) >= 0.0
  {
    if gridW > 0.0 {
      PortionOfRatio(house, gridW);
      if gridW <= house {
        RatioBounds(gridW, house);
      } else if gridW / house <= 1.0 {
        PortionOrder(house, gridW / house, 1.0);
      }
    }
  }

  /** Of the inverter's output, the battery's part and the rest. */
  lemma OutputParts(invW: real, batW: real)
    ensures Portion(Positive(invW), BatteryPart(invW, batW)) == Output(invW, batW)
    ensures Portion(Positive(invW), 1.0 - BatteryPart(invW, batW)) == Positive(invW) - Output(invW, batW)
  {
    if invW > 0.0 {
      PortionOfRatio(invW, Output(invW, batW));
    }
  }

  function Fraction(l: Ledger): real {
    if l.known then l.solar else 0.0
  }

  /** Solar watts at hand: what the inverter makes beside the battery, and the battery's
      output at the ledger's mix. */
  function Sources(invW: real, batW: real, f: real): real {
    Positive(invW) - Output(invW, batW) + Portion(Output(invW, batW), f)
  }

  /** Solar watts the house is credited. */
  function Credited(gridW: real, invW: real, batW: real, house: real, l: Ledger): real {
    if house > 0.0 then Portion(house, SolarShare(gridW, invW, batW, house, l)) else 0.0
  }

  lemma SourcesNonNegative(invW: real, batW: real, f: real)
    requires 0.0 <= f <= 1.0
    ensures 0.0 <= Portion(Output(invW, batW), f) && 0.0 <= Sources(invW, batW, f)
    ensures Sources(invW, batW, f) == 0.0 <==> invW <= 0.0 || (batW >= invW && f == 0.0)
  {
    var output := Output(invW, batW);
    Portions(output, f);
    if output > 0.0 && f > 0.0 {
      PortionPositive(output, f);
    }
  }

  /** The house is credited the sources in the ratio of what it takes beside the grid to
      what the inverter gives; without output, all it takes beside the grid. */
  lemma CreditedIsScaled(gridW: real, invW: real, batW: real, house: real, l: Ledger)
    requires house > 0.0 && Sound(l)
    ensures var credited, net := Credited(gridW, invW, batW, house, l), Net(gridW, house);
            if invW > 0.0 then Portion(invW, credited) == Portion(net, Sources(invW, batW, Fraction(l)))
            else credited == net
  {
    var f := Fraction(l);
    var g, b := GridPart(gridW, house), BatteryPart(invW, batW);
    var mix, net := (1.0 - b) + Portion(b, f), Net(gridW, house);
    NetPower(gridW, house);
    PortionAssociates(house, 1.0 - g, mix);
    assert Credited(gridW, invW, batW, house, l) == Portion(net, mix);
    if invW > 0.0 {
      OutputParts(invW, batW);
      PortionAssociates(invW, 1.0 - b, Portion(b, f));
      PortionAssociates(invW, b, f);
      assert Portion(invW, mix) == Sources(invW, batW, f);
      PortionSwaps(invW, net, mix);
    }
  }

  lemma ScaledCompares(a: real, b: real, x: real, y: real)
    requires a > 0.0 && 0.0 <= y && Portion(a, x) == Portion(b, y)
    ensures x <= y <==> b <= a || y == 0.0
    ensures a == b ==> x == y
  {
    PortionCompares(a, x, y);
    PortionCompares(a, y, x);
    if y > 0.0 {
      PortionCompares(y, a, b);
      PortionCompares(y, b, a);
    }
  }

  /** A minute credits no more solar power than there is exactly when the house takes no
      more beside the grid than the inverter gives, or there is none and none is given. */
  lemma SourcesExact(gridW: real, invW: real, batW: real, house: real, l: Ledger)
    requires house > 0.0 && Sound(l)
    ensures Credited(gridW, invW, batW, house, l) <= Sources(invW, batW, Fraction(l))
            <==> Net(gridW, house) <= Positive(invW) || (invW > 0.0 && batW >= invW && Fraction(l) == 0.0)
    ensures Net(gridW, house) == Positive(invW) ==>
              Credited(gridW, invW, batW, house, l) == Sources(invW, batW, Fraction(l))
  {
    var f, net := Fraction(l), Net(gridW, house);
    var credited, sources := Credited(gridW, invW, batW, house, l), Sources(invW, batW, f);
    CreditedIsScaled(gridW, invW, batW, house, l);
    NetPower(gridW, house);
    SourcesNonNegative(invW, batW, f);
    if invW > 0.0 {
      ScaledCompares(invW, net, credited, sources);
    }
  }

  // ---- One minute's energy ---------------------------------------------------------------------

  function SolarHeld(l: Ledger): real {
    if l.known then Portion(l.energy, l.solar) else 0.0
  }

  /** Wh a minute puts into the battery. */
  function ChargedIn(batW: real): real {
    Positive(-batW) / 60.0
  }

  /** Those of them that are not drawn from the AC side. */
  function SolarIn(invW: real, batW: real): real {
    ChargedIn(batW) - Min(ChargedIn(batW), Positive(-invW) / 60.0)
  }

  function EnergyHeld(l: Ledger): real {
    if l.known then l.energy else 0.0
  }

  /** Wh the battery's discharge takes from the ledger. */
  function Released(l: Ledger, batW: real): real {
    if batW > 0.0 && l.known then Min(l.energy, batW / 60.0 / ROUND_TRIP) else 0.0
  }

  lemma DilutedWhole(f: real, held: real, extra: real, den: real)
    requires den > 0.0
    ensures Portion(den, Diluted(f, held, extra, den)) == Portion(held, f) + extra
  {
    var sum := f * held + extra;
    PortionOfRatio(den, sum);
  }

  /** The energy held, and the solar part of it, changes by exactly what is charged and what
      is released. */
  lemma HeldBalances(l: Ledger, invW: real, batW: real)
    requires Sound(l)
    ensures EnergyHeld(Integrate(l, invW, batW)) + Released(l, batW) == EnergyHeld(l) + ChargedIn(batW)
    ensures SolarHeld(Integrate(l, invW, batW)) + Portion(Released(l, batW), Fraction(l))
         == SolarHeld(l) + SolarIn(invW, batW)
  {
    var after := Integrate(l, invW, batW);
    if batW < 0.0 {
      var held := if l.known then l.energy else 0.0;
      DilutedWhole(Fraction(l), held, SolarIn(invW, batW), after.energy);
    } else if batW > 0.0 && l.known {
      PortionSplits(l.energy - Released(l, batW), Released(l, batW), l.solar);
    }
  }

  /** The ledger holds what the battery gives to the house in the minute, by its meter. */
  predicate Covered(l: Ledger, invW: real, batW: real) {
    l.known && l.solar > 0.0 ==> Output(invW, batW) / 60.0 <= l.energy
  }

  /** The battery's output carries no more solar energy than the ledger releases exactly
      when the ledger covers it. */
  lemma OutputCovered(l: Ledger, invW: real, batW: real)
    requires Sound(l)
    ensures Portion(Output(invW, batW) / 60.0, Fraction(l)) <= Portion(Released(l, batW), Fraction(l))
            <==> Covered(l, invW, batW)
  {
    if l.known && l.solar > 0.0 {
      PortionCompares(l.solar, Output(invW, batW) / 60.0, Released(l, batW));
      PortionCompares(l.solar, Released(l, batW), Output(invW, batW) / 60.0);
    }
  }

  // ---- What a minute credits and what backs it ------------------------------------------------

  /** Solar Wh made beside the battery or released by its ledger. */
  function Backing(l: Ledger, invW: real, batW: real): real {
    (Positive(invW) - Output(invW, batW)) / 60.0 + Portion(Released(l, batW), Fraction(l))
  }

  /** What the house takes beside the grid, at the inverter's solar part, does not exceed
      the backing. */
  predicate Backed(gridW: real, invW: real, batW: real, house: real, l: Ledger) {
    house > 0.0 ==>
      if invW > 0.0 then
        Portion(Net(gridW, house), Sources(invW, batW, Fraction(l))) <= Portion(invW, 60.0 * Backing(l, invW, batW))
      else Net(gridW, house) <= 60.0 * Backing(l, invW, batW)
  }

  lemma BackingNonNegative(l: Ledger, invW: real, batW: real)
    requires Sound(l)
    ensures 0.0 <= Backing(l, invW, batW)
  {
    Portions(Released(l, batW), Fraction(l));
  }

  /** For every reading of every meter: the minute credits and keeps no more solar energy
      than was held, made and charged exactly when it is backed. */
  lemma MinuteExact(gridW: real, invW: real, batW: real, house: real, l: Ledger)
    requires Sound(l)
    ensures Credited(gridW, invW, batW, house, l) / 60.0 + SolarHeld(Integrate(l, invW, batW))
              <= SolarHeld(l) + (Positive(invW) - Output(invW, batW)) / 60.0 + SolarIn(invW, batW)
            <==> Backed(gridW, invW, batW, house, l)
  {
    var backing := Backing(l, invW, batW);
    HeldBalances(l, invW, batW);
    BackingNonNegative(l, invW, batW);
    if house > 0.0 {
      CreditedIsScaled(gridW, invW, batW, house, l);
      if invW > 0.0 {
        PortionCompares(invW, Credited(gridW, invW, batW, house, l), 60.0 * backing);
      }
    }
  }

  /** Where the house takes beside the grid just what the inverter gives, as it does when
      the meters agree and nothing is exported, that is exactly when the ledger covers the
      battery's output; where it takes less, that is enough. */
  lemma BackedWhenCovered(gridW: real, invW: real, batW: real, house: real, l: Ledger)
    requires Sound(l) && Net(gridW, house) <= Positive(invW)
    ensures Covered(l, invW, batW) ==> Backed(gridW, invW, batW, house, l)
    ensures house > 0.0 && Net(gridW, house) == Positive(invW) && Backed(gridW, invW, batW, house, l) ==>
              Covered(l, invW, batW)
  {
    if house > 0.0 {
      var f := Fraction(l);
      var sources, backing := Sources(invW, batW, f), Backing(l, invW, batW);
      SourcesExact(gridW, invW, batW, house, l);
      OutputCovered(l, invW, batW);
      PortionSplits(Output(invW, batW), 0.0, f);
      MinuteExact(gridW, invW, batW, house, l);
      HeldBalances(l, invW, batW);
      assert sources / 60.0 <= backing <==> Covered(l, invW, batW);
    }
  }

  /** A minute in which only the loads' meters have a reading credits sun nobody made. */
  lemma LoadsAloneOverstate(gridW: real, invW: real, batW: real, house: real, l: Ledger)
    requires Sound(l) && gridW == invW == batW == 0.0 && house > 0.0
    ensures Covered(l, invW, batW) && !Backed(gridW, invW, batW, house, l)
    ensures Credited(gridW, invW, batW, house, l) == house && Backing(l, invW, batW) == 0.0
  {
    CreditedIsScaled(gridW, invW, batW, house, l);
  }

  /** While exporting, a discharge the ledger does not cover need not overstate. */
  lemma ExportMayBeBacked()
    ensures var l: Ledger := Mix(1.0, 1.0, true, false);
            !Covered(l, 6060.0, 120.0) && Backed(-6000.0, 6060.0, 120.0, 60.0, l)
  {
    var l: Ledger := Mix(1.0, 1.0, true, false);
    assert Released(l, 120.0) == 1.0;
    assert Output(6060.0, 120.0) == 120.0;
    assert Sources(6060.0, 120.0, 1.0) == 6060.0;
    assert Backing(l, 6060.0, 120.0) == 100.0;
  }

  /** With agreeing meters and nothing exported, an empty ledger is what overstates. */
  lemma UncoveredOverstates()
    ensures var l: Ledger := Mix(1.0, 1.0, true, false);
            !Covered(l, 120.0, 120.0) && !Backed(0.0, 120.0, 120.0, 120.0, l)
  {
    var l: Ledger := Mix(1.0, 1.0, true, false);
    assert Output(120.0, 120.0) == 120.0;
    BackedWhenCovered(0.0, 120.0, 120.0, 120.0, l);
  }

  // ---- A day ------------------------------------------------------------------------------------------

  /** Solar Wh credited to the whole house. */
  function HouseSolar(d: Day, start: Ledger, n: nat): real
    requires n <= MINUTES
  {
    if n == 0 then 0.0 else HouseSolar(d, start, n - 1) + SolarStep(d, start, HouseWatts(d, n - 1), n - 1)
  }

  /** Solar Wh credited to the first k loads. */
  function LoadsSolar(d: Day, start: Ledger, k: nat, n: nat): real
    requires k <= |d.loads| && n <= MINUTES
  {
    if k == 0 then 0.0 else LoadsSolar(d, start, k - 1, n) + LoadSolar(d, start, d.loads[k - 1].mw, n)
  }

  lemma {:induction false} LoadsSolarMinute(d: Day, start: Ledger, k: nat, n: nat)
    requires k <= |d.loads| && n < MINUTES
    ensures LoadsSolar(d, start, k, n + 1)
         == LoadsSolar(d, start, k, n) + SolarStep(d, start, LoadsDrawn(d.loads, n, k), n)
  {
    if k > 0 {
      LoadsSolarMinute(d, start, k - 1, n);
      StepAdds(d, start, LoadsDrawn(d.loads, n, k - 1), Drawn(d.loads[k - 1].mw[n]), n);
    } else {
      assert Portion(0.0, ShareAt(d, start, n)) == 0.0;
    }
  }

  lemma StepAdds(d: Day, start: Ledger, v: real, w: real, i: nat)
    requires i < MINUTES
    ensures SolarStep(d, start, v + w, i) == SolarStep(d, start, v, i) + SolarStep(d, start, w, i)
  {
    var s := ShareAt(d, start, i);
    assert Portion((v + w) / 60.0, s) == Portion(v / 60.0, s) + Portion(w / 60.0, s);
  }

  lemma {:induction false} NoLoadsSolar(d: Day, start: Ledger, k: nat)
    requires k <= |d.loads|
    ensures LoadsSolar(d, start, k, 0) == 0.0
  {
    if k > 0 {
      NoLoadsSolar(d, start, k - 1);
    }
  }

  /** Loads and remainder together are credited the house's solar energy. */
  lemma {:induction false} SolarAddsUp(d: Day, start: Ledger, n: nat)
    requires n <= MINUTES
    ensures LoadsSolar(d, start, |d.loads|, n) + UnmonitoredSolar(d, start, n) == HouseSolar(d, start, n)
  {
    if n == 0 {
      NoLoadsSolar(d, start, |d.loads|);
    } else {
      SolarAddsUp(d, start, n - 1);
      LoadsSolarMinute(d, start, |d.loads|, n - 1);
      StepAdds(d, start, LoadsDrawn(d.loads, n - 1, |d.loads|), Unmonitored(d, n - 1), n - 1);
    }
  }

  function Inv(d: Day, i: nat): real
    requires i < MINUTES
  {
    Watts(d.inverter[i])
  }

  function Bat(d: Day, i: nat): real
    requires i < MINUTES
  {
    Watts(d.battery[i])
  }

  /** Solar Wh the inverter made beside the battery, and those charged into it. */
  function SolarMade(d: Day, n: nat): real
    requires n <= MINUTES
  {
    if n == 0 then 0.0
    else
      SolarMade(d, n - 1) + MadeBeside(d, n - 1) + SolarIn(Inv(d, n - 1), Bat(d, n - 1))
  }

  /** Minute i of the day is backed. */
  predicate BackedAt(d: Day, start: Ledger, i: nat)
    requires i < MINUTES
  {
    Backed(Watts(d.grid[i]), Inv(d, i), Bat(d, i), HouseWatts(d, i), BatteryAt(d, start, i).ledger)
  }

  function MadeBeside(d: Day, i: nat): real
    requires i < MINUTES
  {
    (Positive(Inv(d, i)) - Output(Inv(d, i), Bat(d, i))) / 60.0
  }

  /** What the house is credited in a minute and the battery holds after it was held
      before or made in it exactly when the minute is backed. */
  lemma MinuteOverstatesExactly(d: Day, start: Ledger, i: nat)
    requires i < MINUTES && d.charge.None? && Sound(start)
    ensures SolarStep(d, start, HouseWatts(d, i), i) + SolarHeld(BatteryAt(d, start, i + 1).ledger)
              <= SolarHeld(BatteryAt(d, start, i).ledger) + MadeBeside(d, i) + SolarIn(Inv(d, i), Bat(d, i))
            <==> BackedAt(d, start, i)
  {
    var house, l := HouseWatts(d, i), BatteryAt(d, start, i).ledger;
    BatterySound(d, start, i);
    MinuteExact(Watts(d.grid[i]), Inv(d, i), Bat(d, i), house, l);
    PortionSplits(house, 0.0, ShareAt(d, start, i));
  }

  /** Over any part of a day in Wh whose minutes are backed, the solar energy credited
      to the house and still held is no more than was held at the start and made since. */
  lemma {:induction false} SolarNeverOverstated(d: Day, start: Ledger, n: nat)
    requires n <= MINUTES && d.charge.None? && Sound(start)
    requires forall i :: 0 <= i < n ==> BackedAt(d, start, i)
    ensures HouseSolar(d, start, n) + SolarHeld(BatteryAt(d, start, n).ledger)
         <= SolarHeld(StartOf(d, start).ledger) + SolarMade(d, n)
  {
    if n > 0 {
      SolarNeverOverstated(d, start, n - 1);
      MinuteOverstatesExactly(d, start, n - 1);
    }
  }

  /** One minute that is not backed overstates the day it begins. */
  lemma UnbackedOverstates(d: Day, start: Ledger)
    requires d.charge.None? && Sound(start) && !BackedAt(d, start, 0)
    ensures HouseSolar(d, start, 1) + SolarHeld(BatteryAt(d, start, 1).ledger)
          > SolarHeld(StartOf(d, start).ledger) + SolarMade(d, 1)
  {
    MinuteOverstatesExactly(d, start, 0);
    assert HouseSolar(d, start, 0) == 0.0 && SolarMade(d, 0) == 0.0;
  }

  /** A first minute of which only loads have readings, as when the grid's file has a gap. */
  predicate OnlyLoadsMetered(d: Day) {
    d.charge.None? && d.grid[0] == d.inverter[0] == d.battery[0] == 0 && LoadsDrawn(d.loads, 0, |d.loads|) == 60.0
  }

  lemma UnmeteredNotBacked(d: Day, start: Ledger)
    requires OnlyLoadsMetered(d) && Sound(start)
    ensures !BackedAt(d, start, 0)
  {
    BatterySound(d, start, 0);
    LoadsAloneOverstate(Watts(d.grid[0]), Inv(d, 0), Bat(d, 0), HouseWatts(d, 0), BatteryAt(d, start, 0).ledger);
  }

  /** It is credited sun that nobody held or made. */
  lemma UnmeteredOverstates(d: Day, start: Ledger)
    requires OnlyLoadsMetered(d) && Sound(start)
    ensures HouseSolar(d, start, 1) + SolarHeld(BatteryAt(d, start, 1).ledger)
          > SolarHeld(StartOf(d, start).ledger) + SolarMade(d, 1)
  {
    UnmeteredNotBacked(d, start);
    UnbackedOverstates(d, start);
  }

  function Flat(mw: int): Minutes {
    seq(MINUTES, _ => mw)
  }

  lemma UnmeteredDayExists() returns (d: Day)
    ensures OnlyLoadsMetered(d)
  {
    var load := Load("load", Flat(60000));
    d := Day(Flat(0), Flat(0), Flat(0), None, [load]);
    assert LoadsDrawn(d.loads, 0, 1) == LoadsDrawn(d.loads, 0, 0) + Drawn(load.mw[0]);
  }

  // ---- Days in charge units ------------------------------------------------------------------------------

  /** A reading above what is held adds charge of the mix recorded since the last step, or of
      the mix held when none was recorded. Any other keeps the mix, and so does the first
      reading of a day that began with Wh. A reading at the reserve leaves nothing. */
  lemma ReadingMixes(b: Battery, reading: int, held: real)
    requires SoundBattery(b) && held == if b.ledger.known then b.ledger.energy else 0.0
    ensures var u, l, next := Usable(reading), b.ledger, TakeReading(b, reading).ledger;
            var pend := b.pendSolar + b.pendGrid;
            && (next.known <==> u > 0.0) && (u > 0.0 ==> next.energy == u)
            && (u > 0.0 && (u <= held || (b.rebase && l.known)) ==> next.solar == l.solar)
            && (u > held && !(b.rebase && l.known) ==>
                 SolarHeld(next) - SolarHeld(l)
                 == Portion(u - held, if pend > 0.0 then b.pendSolar / pend else Fraction(l)))
  {
    var l, u := b.ledger, Usable(reading);
    if u > held && !(b.rebase && l.known) {
      var pend := b.pendSolar + b.pendGrid;
      var r := if pend > 0.0 then b.pendSolar / pend else if l.known then l.solar else 0.0;
      DilutedWhole(l.solar, held, Portion(u - held, r), u);
    }
  }
}
