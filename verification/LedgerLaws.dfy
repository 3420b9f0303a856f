/** Laws of the battery ledger and of the day split, for every day and every
    starting ledger. */
module LedgerLaws {
  import opened DaySplit
  import opened Sums

  // ---- Products and ratios ---------------------------------------------------------------

  lemma MulOrder(x: real, y: real, b: real)
    requires x <= y && 0.0 <= b
    ensures x * b <= y * b
  {
    var d := y - x;
    assert d * b >= 0.0;
    assert (x + d) * b == x * b + d * b;
  }

  lemma PortionOrder(amount: real, x: real, y: real)
    requires 0.0 <= amount && x <= y
    ensures Portion(amount, x) <= Portion(amount, y)
  {
    MulOrder(x, y, amount);
  }

  lemma Portions(a: real, s: real)
    requires 0.0 <= a && 0.0 <= s <= 1.0
    ensures 0.0 <= Portion(a, s) <= a && 0.0 <= Portion(a, 1.0 - s) <= a
    ensures Portion(a, s) + Portion(a, 1.0 - s) == a
  {
    MulOrder(0.0, s, a);
    MulOrder(s, 1.0, a);
  }

  lemma RatioBounds(num: real, den: real)
    requires 0.0 <= num <= den && den > 0.0
    ensures 0.0 <= num / den <= 1.0
  {
  }

  lemma RatioOrder(a: real, b: real, den: real)
    requires den > 0.0 && a <= b
    ensures a / den <= b / den
  {
  }

  lemma RatioDifference(a: real, b: real, den: real)
    requires den > 0.0
    ensures b / den - a / den == (b - a) / den
  {
  }

  lemma RatioOfProduct(x: real, den: real)
    requires den > 0.0
    ensures x * den / den == x
  {
  }

  lemma DilutedBounds(f: real, held: real, extra: real, den: real)
    requires 0.0 <= f <= 1.0 && 0.0 <= held && 0.0 <= extra && held + extra <= den && den > 0.0
    ensures 0.0 <= Diluted(f, held, extra, den) <= 1.0
  {
    MulOrder(0.0, f, held);
    MulOrder(f, 1.0, held);
    RatioBounds(f * held + extra, den);
  }

  lemma DilutedKeeps(f: real, held: real, den: real)
    requires den > 0.0
    ensures Diluted(f, held, Portion(den - held, f), den) == f
  {
    assert f * held + (den - held) * f == f * den;
  }

  lemma DilutedRises(f: real, held: real, den: real)
    requires f <= 1.0 && 0.0 <= held <= den && den > 0.0
    ensures f <= Diluted(f, held, den - held, den)
  {
    DilutedKeeps(f, held, den);
    MulOrder(f, 1.0, den - held);
    RatioOrder(f * held + Portion(den - held, f), f * held + (den - held), den);
  }

  lemma HeldDifference(f: real, h: real, held: real, den: real)
    requires f <= h && 0.0 <= held <= den
    ensures 0.0 <= h * held - f * held <= (h - f) * den
  {
    MulOrder(f, h, held);
    MulOrder(held, den, h - f);
    assert held * (h - f) == h * held - f * held;
  }

  lemma DilutedGap(f: real, h: real, held: real, extra: real, den: real)
    requires f <= h && 0.0 <= held <= den && den > 0.0
    ensures 0.0 <= Diluted(h, held, extra, den) - Diluted(f, held, extra, den) <= h - f
  {
    HeldDifference(f, h, held, den);
    RatioGap(f * held + extra, h * held + extra, (h - f) * den, den);
    RatioOfProduct(h - f, den);
  }

  lemma RatioGap(a: real, b: real, most: real, den: real)
    requires den > 0.0 && a <= b && b - a <= most
    ensures 0.0 <= b / den - a / den <= most / den
  {
    RatioOrder(a, b, den);
    RatioOrder(b - a, most, den);
    RatioDifference(a, b, den);
  }

  // ---- The ledger invariant ------------------------------------------------------------

  ghost predicate SoundBattery(b: Battery) {
    Sound(b.ledger) && b.pendSolar >= 0.0 && b.pendGrid >= 0.0
  }

  lemma PendingMix(b: Battery)
    requires SoundBattery(b) && b.pendSolar + b.pendGrid > 0.0
    ensures 0.0 <= b.pendSolar / (b.pendSolar + b.pendGrid) <= 1.0
    ensures b.pendGrid == 0.0 ==> b.pendSolar / (b.pendSolar + b.pendGrid) == 1.0
  {
    RatioBounds(b.pendSolar, b.pendSolar + b.pendGrid);
  }

  lemma ReadingKeepsSound(b: Battery, reading: int)
    requires SoundBattery(b)
    ensures SoundBattery(TakeReading(b, reading))
  {
    var l, u := b.ledger, Usable(reading);
    var held := if l.known then l.energy else 0.0;
    if u > held && !(b.rebase && l.known) {
      var r := if b.pendSolar + b.pendGrid > 0.0 then b.pendSolar / (b.pendSolar + b.pendGrid)
               else if l.known then l.solar else 0.0;
      if b.pendSolar + b.pendGrid > 0.0 {
        PendingMix(b);
      }
      Portions(u - held, r);
      DilutedBounds(l.solar, held, Portion(u - held, r), u);
    }
  }

  lemma IntegrateKeepsSound(l: Ledger, invW: real, batW: real)
    requires Sound(l)
    ensures Sound(Integrate(l, invW, batW))
  {
    if batW < 0.0 {
      var c := -batW;
      var held := if l.known then l.energy else 0.0;
      DilutedBounds(if l.known then l.solar else 0.0, held, (c - GridCharge(invW, c)) / 60.0, held + c / 60.0);
    }
  }

  lemma AdvanceKeepsSound(b: Battery, d: Day, i: nat)
    requires i < MINUTES && SoundBattery(b)
    ensures SoundBattery(AdvanceBattery(b, d, i))
  {
    var invW, batW := Watts(d.inverter[i]), Watts(d.battery[i]);
    if d.charge.Some? {
      ReadingKeepsSound(AddPending(b, invW, batW), d.charge.value[i]);
    } else {
      IntegrateKeepsSound(b.ledger, invW, batW);
    }
  }

  /** In every minute of every day the ledger is unknown and empty, or holds energy
      with a solar fraction in [0, 1]. */
  lemma {:induction false} BatterySound(d: Day, start: Ledger, n: nat)
    requires n <= MINUTES && Sound(start)
    ensures SoundBattery(BatteryAt(d, start, n))
  {
    if n > 0 {
      BatterySound(d, start, n - 1);
      AdvanceKeepsSound(BatteryAt(d, start, n - 1), d, n - 1);
    }
  }

  /** A day begun with a sound ledger ends with one. */
  lemma DaySound(d: Day, start: Ledger)
    requires Sound(start)
    ensures Sound(SplitOf(d, start).end)
  {
    BatterySound(d, start, MINUTES);
  }

  /** After a state-of-charge reading the ledger is unknown exactly at or below the
      reserve, and otherwise holds exactly the charge above it. */
  lemma AnchoredToReading(d: Day, start: Ledger, i: nat)
    requires i < MINUTES && Sound(start) && d.charge.Some? && d.charge.value[i] >= 0
    ensures var l := BatteryAt(d, start, i + 1).ledger;
            && (l.known <==> d.charge.value[i] > RESERVE_HALF_PCT)
            && (l.known ==> l.energy == (d.charge.value[i] - RESERVE_HALF_PCT) as real)
  {
    BatterySound(d, start, i);
  }

  // ---- Units ---------------------------------------------------------------------------

  /** Charge units never enter a Wh day: its outcome is that of an unknown start. */
  lemma {:induction false} ChargeNeverReadAsWh(d: Day, start: Ledger, n: nat)
    requires n <= MINUTES && d.charge.None? && start.soc
    ensures BatteryAt(d, start, n) == BatteryAt(d, UNKNOWN, n)
  {
    if n > 0 {
      ChargeNeverReadAsWh(d, start, n - 1);
    }
  }

  ghost predicate ReadingBefore(d: Day, n: nat)
    requires n <= MINUTES && d.charge.Some?
  {
    exists i :: 0 <= i < n && d.charge.value[i] >= 0
  }

  /** Wh never enter a charge day: two starts of one mix that differ only in Wh keep
      that difference untouched until the first reading and are equal from then on. */
  lemma {:induction false} WhNeverReadAsCharge(d: Day, a: Ledger, b: Ledger, n: nat)
    requires n <= MINUTES && d.charge.Some?
    requires Sound(a) && Sound(b) && a.known && !a.soc && b == a.(energy := b.energy)
    ensures var x, y := BatteryAt(d, a, n), BatteryAt(d, b, n);
            if ReadingBefore(d, n) then x == y && !x.rebase
            else x.ledger == a && y.ledger == b && x == y.(ledger := a) && x.rebase
  {
    if n > 0 {
      WhNeverReadAsCharge(d, a, b, n - 1);
      assert ReadingBefore(d, n) <==> ReadingBefore(d, n - 1) || d.charge.value[n - 1] >= 0;
    }
  }

  // ---- Solar fraction over one day ---------------------------------------------------------

  ghost predicate NoGridCharging(d: Day) {
    forall i :: 0 <= i < MINUTES ==> d.battery[i] >= 0 || d.inverter[i] >= 0
  }

  lemma {:induction false} NoGridPending(d: Day, start: Ledger, n: nat)
    requires n <= MINUTES && NoGridCharging(d)
    ensures BatteryAt(d, start, n).pendGrid == 0.0
  {
    if n > 0 {
      NoGridPending(d, start, n - 1);
    }
  }

  /** With no grid charging in the day the solar fraction never falls while the
      ledger stays known. */
  lemma SolarNeverFalls(d: Day, start: Ledger, i: nat)
    requires i < MINUTES && Sound(start) && NoGridCharging(d)
    requires BatteryAt(d, start, i).ledger.known && BatteryAt(d, start, i + 1).ledger.known
    ensures BatteryAt(d, start, i).ledger.solar <= BatteryAt(d, start, i + 1).ledger.solar
  {
    BatterySound(d, start, i);
    NoGridPending(d, start, i);
    AdvanceNeverFalls(BatteryAt(d, start, i), d, i);
  }

  lemma ReadingNeverFalls(b: Battery, reading: int)
    requires SoundBattery(b) && b.pendGrid == 0.0 && b.ledger.known && TakeReading(b, reading).ledger.known
    ensures b.ledger.solar <= TakeReading(b, reading).ledger.solar
  {
    var l, u := b.ledger, Usable(reading);
    if u > l.energy && !b.rebase {
      if b.pendSolar + b.pendGrid > 0.0 {
        PendingMix(b);
        DilutedRises(l.solar, l.energy, u);
        assert Portion(u - l.energy, 1.0) == u - l.energy;
      } else {
        DilutedKeeps(l.solar, l.energy, u);
      }
    }
  }

  lemma AdvanceNeverFalls(b: Battery, d: Day, i: nat)
    requires i < MINUTES && SoundBattery(b) && b.pendGrid == 0.0
    requires d.battery[i] >= 0 || d.inverter[i] >= 0
    requires b.ledger.known && AdvanceBattery(b, d, i).ledger.known
    ensures b.ledger.solar <= AdvanceBattery(b, d, i).ledger.solar
  {
    var invW, batW := Watts(d.inverter[i]), Watts(d.battery[i]);
    if d.charge.Some? {
      if d.charge.value[i] >= 0 {
        ReadingNeverFalls(AddPending(b, invW, batW), d.charge.value[i]);
      }
    } else if batW < 0.0 {
      DilutedRises(b.ledger.solar, b.ledger.energy, b.ledger.energy + -batW / 60.0);
    }
  }

  // ---- Two runs over one day -----------------------------------------------------------------

  /** In lock-step: same flags, energy and pending charge; ordered solar fractions
      no more than gap apart. */
  ghost predicate LockStep(a: Battery, b: Battery, gap: real) {
    a == b.(ledger := a.ledger) && a.ledger == b.ledger.(solar := a.ledger.solar)
    && (if a.ledger.known then 0.0 <= b.ledger.solar - a.ledger.solar <= gap else a.ledger == b.ledger)
  }

  function Gap(a: Battery, b: Battery): real {
    if a.ledger.known then b.ledger.solar - a.ledger.solar else 0.0
  }

  lemma ReadingInLockStep(a: Battery, b: Battery, gap: real, reading: int)
    requires SoundBattery(a) && SoundBattery(b) && gap >= 0.0 && LockStep(a, b, gap)
    ensures LockStep(TakeReading(a, reading), TakeReading(b, reading), gap)
  {
    var f, h, e, u := a.ledger.solar, b.ledger.solar, a.ledger.energy, Usable(reading);
    if a.ledger.known && u > e && !a.rebase {
      var pend := a.pendSolar + a.pendGrid;
      if pend > 0.0 {
        DilutedGap(f, h, e, Portion(u - e, a.pendSolar / pend), u);
      } else {
        DilutedKeeps(f, e, u);
        DilutedKeeps(h, e, u);
      }
    }
  }

  lemma AdvanceInLockStep(a: Battery, b: Battery, gap: real, d: Day, i: nat)
    requires i < MINUTES && SoundBattery(a) && SoundBattery(b)
    requires gap >= 0.0 && LockStep(a, b, gap)
    ensures LockStep(AdvanceBattery(a, d, i), AdvanceBattery(b, d, i), gap)
  {
    var invW, batW := Watts(d.inverter[i]), Watts(d.battery[i]);
    if d.charge.Some? {
      ReadingInLockStep(AddPending(a, invW, batW), AddPending(b, invW, batW), gap, d.charge.value[i]);
    } else if a.ledger.known && batW < 0.0 {
      var c := -batW;
      DilutedGap(a.ledger.solar, b.ledger.solar, a.ledger.energy, (c - GridCharge(invW, c)) / 60.0,
                 a.ledger.energy + c / 60.0);
    }
  }

  ghost predicate DifferInSolar(a: Ledger, b: Ledger) {
    Sound(a) && Sound(b) && a.known && b == a.(solar := b.solar) && a.solar <= b.solar
  }

  lemma {:induction false} RunsInLockStep(d: Day, a: Ledger, b: Ledger, n: nat)
    requires n <= MINUTES && DifferInSolar(a, b)
    ensures LockStep(BatteryAt(d, a, n), BatteryAt(d, b, n), Gap(BatteryAt(d, a, n), BatteryAt(d, b, n)))
    ensures Gap(BatteryAt(d, a, n), BatteryAt(d, b, n)) >= 0.0
  {
    if n > 0 {
      RunsInLockStep(d, a, b, n - 1);
      BatterySound(d, a, n - 1);
      BatterySound(d, b, n - 1);
      var x, y := BatteryAt(d, a, n - 1), BatteryAt(d, b, n - 1);
      AdvanceInLockStep(x, y, Gap(x, y), d, n - 1);
    }
  }

  /** Two runs over one day from known ledgers that differ only in solar fraction
      stay in lock-step, keep their order and never draw apart. */
  lemma {:induction false} GapNeverGrows(d: Day, a: Ledger, b: Ledger, m: nat, n: nat)
    requires m <= n <= MINUTES && DifferInSolar(a, b)
    ensures LockStep(BatteryAt(d, a, n), BatteryAt(d, b, n), Gap(BatteryAt(d, a, m), BatteryAt(d, b, m)))
    ensures 0.0 <= Gap(BatteryAt(d, a, n), BatteryAt(d, b, n)) <= Gap(BatteryAt(d, a, m), BatteryAt(d, b, m))
  {
    RunsInLockStep(d, a, b, m);
    if m < n {
      GapNeverGrows(d, a, b, m, n - 1);
      BatterySound(d, a, n - 1);
      BatterySound(d, b, n - 1);
      AdvanceInLockStep(BatteryAt(d, a, n - 1), BatteryAt(d, b, n - 1),
                        Gap(BatteryAt(d, a, m), BatteryAt(d, b, m)), d, n - 1);
    }
  }

  /** The runs coincide from the minute the battery is down to its reserve or drained. */
  lemma {:induction false} RunsCoincideOnceEmpty(d: Day, a: Ledger, b: Ledger, m: nat, n: nat)
    requires m <= n <= MINUTES
    requires DifferInSolar(a, b)
    requires !BatteryAt(d, a, m).ledger.known
    ensures BatteryAt(d, a, n) == BatteryAt(d, b, n)
  {
    if m == n {
      RunsInLockStep(d, a, b, m);
    } else {
      RunsCoincideOnceEmpty(d, a, b, m, n - 1);
    }
  }

  // ---- Shares of a minute ----------------------------------------------------------------------

  lemma PartsInRange(gridW: real, invW: real, batW: real, house: real)
    requires house > 0.0
    ensures 0.0 <= GridPart(gridW, house) <= 1.0 && 0.0 <= BatteryPart(invW, batW) <= 1.0
  {
    if gridW > 0.0 {
      RatioOrder(0.0, gridW, house);
    }
    if invW > 0.0 {
      var dis := if batW > 0.0 then batW else 0.0;
      var part := if dis < invW then dis else invW;
      RatioBounds(part, invW);
    }
  }

  lemma MixInRange(g: real, b: real, f: real, h: real)
    requires 0.0 <= g <= 1.0 && 0.0 <= b <= 1.0 && 0.0 <= f <= h <= 1.0
    ensures 0.0 <= Portion(1.0 - g, (1.0 - b) + Portion(b, f))
              <= Portion(1.0 - g, (1.0 - b) + Portion(b, h)) <= 1.0
  {
    Portions(b, f);
    Portions(b, h);
    PortionOrder(b, f, h);
    Portions(1.0 - g, (1.0 - b) + Portion(b, f));
    Portions(1.0 - g, (1.0 - b) + Portion(b, h));
    PortionOrder(1.0 - g, (1.0 - b) + Portion(b, f), (1.0 - b) + Portion(b, h));
  }

  /** The solar share is a share, and grows with the battery's solar fraction. */
  lemma ShareBounds(gridW: real, invW: real, batW: real, house: real, l: Ledger, m: Ledger)
    requires house > 0.0 && Sound(l) && Sound(m)
    requires l.known == m.known && l.solar <= m.solar
    ensures 0.0 <= SolarShare(gridW, invW, batW, house, l) <= SolarShare(gridW, invW, batW, house, m) <= 1.0
  {
    PartsInRange(gridW, invW, batW, house);
    MixInRange(GridPart(gridW, house), BatteryPart(invW, batW), l.solar, m.solar);
  }

  lemma ShareInRange(d: Day, start: Ledger, i: nat)
    requires i < MINUTES && Sound(start)
    ensures 0.0 <= ShareAt(d, start, i) <= 1.0
  {
    BatterySound(d, start, i);
    if HouseWatts(d, i) > 0.0 {
      var l := BatteryAt(d, start, i).ledger;
      ShareBounds(Watts(d.grid[i]), Watts(d.inverter[i]), Watts(d.battery[i]), HouseWatts(d, i), l, l);
    }
  }

  lemma ShareOrdered(d: Day, a: Ledger, b: Ledger, i: nat)
    requires i < MINUTES
    requires DifferInSolar(a, b)
    ensures ShareAt(d, a, i) <= ShareAt(d, b, i)
  {
    BatterySound(d, a, i);
    BatterySound(d, b, i);
    RunsInLockStep(d, a, b, i);
    if HouseWatts(d, i) > 0.0 {
      ShareBounds(Watts(d.grid[i]), Watts(d.inverter[i]), Watts(d.battery[i]), HouseWatts(d, i),
                  BatteryAt(d, a, i).ledger, BatteryAt(d, b, i).ledger);
    }
  }

  lemma StepOrdered(d: Day, a: Ledger, b: Ledger, w: real, i: nat)
    requires i < MINUTES && w >= 0.0
    requires DifferInSolar(a, b)
    ensures SolarStep(d, a, w, i) <= SolarStep(d, b, w, i)
  {
    ShareOrdered(d, a, b, i);
    PortionOrder(w / 60.0, ShareAt(d, a, i), ShareAt(d, b, i));
  }

  /** The sunnier start credits every consumer with at least as much solar energy. */
  lemma {:induction false} SolarOrdered(d: Day, a: Ledger, b: Ledger, mw: Minutes, n: nat)
    requires n <= MINUTES
    requires DifferInSolar(a, b)
    ensures LoadSolar(d, a, mw, n) <= LoadSolar(d, b, mw, n)
    ensures UnmonitoredSolar(d, a, n) <= UnmonitoredSolar(d, b, n)
  {
    if n > 0 {
      SolarOrdered(d, a, b, mw, n - 1);
      StepOrdered(d, a, b, Drawn(mw[n - 1]), n - 1);
      StepOrdered(d, a, b, Unmonitored(d, n - 1), n - 1);
    }
  }

  // ---- Conservation -----------------------------------------------------------------------------

  /** The positive metered energy of the first n minutes. */
  function MeteredWh(mw: Minutes, n: nat): real
    requires n <= MINUTES
  {
    if n == 0 then 0.0 else MeteredWh(mw, n - 1) + Positive(mw[n - 1] as real / 1000.0) / 60.0
  }

  function RemainderWh(d: Day, n: nat): real
    requires n <= MINUTES
  {
    if n == 0 then 0.0 else RemainderWh(d, n - 1) + Unmonitored(d, n - 1) / 60.0
  }

  lemma {:induction false} LoadCovered(loads: seq<Load>, i: nat, n: nat, k: nat)
    requires i < MINUTES && k < n <= |loads|
    ensures Drawn(loads[k].mw[i]) <= LoadsDrawn(loads, i, n)
  {
    if k < n - 1 {
      LoadCovered(loads, i, n - 1, k);
    }
  }

  lemma StepConserved(d: Day, start: Ledger, w: real, i: nat)
    requires i < MINUTES && Sound(start) && w >= 0.0
    requires HouseWatts(d, i) <= 0.0 ==> w == 0.0
    ensures SolarStep(d, start, w, i) + GridStep(d, start, w, i) == w / 60.0
    ensures SolarStep(d, start, w, i) >= 0.0 && GridStep(d, start, w, i) >= 0.0
  {
    ShareInRange(d, start, i);
    Portions(w / 60.0, ShareAt(d, start, i));
  }

  /** Each load's solar and grid parts are non-negative and make up its metered
      energy exactly, minutes without house consumption included. */
  lemma {:induction false} LoadConserved(d: Day, start: Ledger, k: nat, n: nat)
    requires n <= MINUTES && k < |d.loads| && Sound(start)
    ensures LoadSolar(d, start, d.loads[k].mw, n) + LoadGrid(d, start, d.loads[k].mw, n) == MeteredWh(d.loads[k].mw, n)
    ensures LoadSolar(d, start, d.loads[k].mw, n) >= 0.0 && LoadGrid(d, start, d.loads[k].mw, n) >= 0.0
  {
    if n > 0 {
      LoadConserved(d, start, k, n - 1);
      LoadCovered(d.loads, n - 1, |d.loads|, k);
      StepConserved(d, start, Drawn(d.loads[k].mw[n - 1]), n - 1);
    }
  }

  lemma {:induction false} RemainderConserved(d: Day, start: Ledger, n: nat)
    requires n <= MINUTES && Sound(start)
    ensures UnmonitoredSolar(d, start, n) + UnmonitoredGrid(d, start, n) == RemainderWh(d, n)
    ensures UnmonitoredSolar(d, start, n) >= 0.0 && UnmonitoredGrid(d, start, n) >= 0.0
  {
    if n > 0 {
      RemainderConserved(d, start, n - 1);
      StepConserved(d, start, Unmonitored(d, n - 1), n - 1);
    }
  }

  /** Metered energy of the first k loads. */
  function AllMeteredWh(loads: seq<Load>, k: nat, n: nat): real
    requires k <= |loads| && n <= MINUTES
  {
    if k == 0 then 0.0 else AllMeteredWh(loads, k - 1, n) + MeteredWh(loads[k - 1].mw, n)
  }

  /** What the meters of the first k loads read in minute i, in watts. */
  function MeteredAt(loads: seq<Load>, i: nat, k: nat): real
    requires i < MINUTES && k <= |loads|
  {
    if k == 0 then 0.0 else MeteredAt(loads, i, k - 1) + Positive(loads[k - 1].mw[i] as real / 1000.0)
  }

  /** What the house took in a minute: what grid and inverter supplied, or what the loads'
      meters read if that is more. */
  function TakenAt(d: Day, i: nat): real
    requires i < MINUTES
  {
    Positive(Max((d.grid[i] + d.inverter[i]) as real / 1000.0, MeteredAt(d.loads, i, |d.loads|)))
  }

  function HouseWh(d: Day, n: nat): real
    requires n <= MINUTES
  {
    if n == 0 then 0.0 else HouseWh(d, n - 1) + TakenAt(d, n - 1) / 60.0
  }

  lemma {:induction false} LoadsAreMetered(loads: seq<Load>, i: nat, k: nat)
    requires i < MINUTES && k <= |loads|
    ensures LoadsDrawn(loads, i, k) == MeteredAt(loads, i, k)
  {
    if k > 0 {
      LoadsAreMetered(loads, i, k - 1);
    }
  }

  lemma HouseIsTaken(d: Day, i: nat)
    requires i < MINUTES
    ensures Positive(HouseWatts(d, i)) == TakenAt(d, i)
  {
    LoadsAreMetered(d.loads, i, |d.loads|);
  }

  /** All that draws in a minute takes the same mix of sun and grid. */
  lemma SameMix(d: Day, start: Ledger, v: real, w: real, i: nat)
    requires i < MINUTES
    ensures Portion(SolarStep(d, start, v, i), w) == Portion(SolarStep(d, start, w, i), v)
    ensures Portion(GridStep(d, start, v, i), w) == Portion(GridStep(d, start, w, i), v)
  {
    var s := ShareAt(d, start, i);
    MixScales(v, w, s);
    MixScales(v, w, 1.0 - s);
  }

  lemma MixScales(v: real, w: real, s: real)
    ensures Portion(Portion(v / 60.0, s), w) == Portion(Portion(w / 60.0, s), v)
  {
    var x, y := v / 60.0, w / 60.0;
    assert x * s * (60.0 * y) == y * s * (60.0 * x);
  }

  lemma {:induction false} MeteredMinute(loads: seq<Load>, k: nat, n: nat)
    requires k <= |loads| && n < MINUTES
    ensures AllMeteredWh(loads, k, n + 1) == AllMeteredWh(loads, k, n) + LoadsDrawn(loads, n, k) / 60.0
  {
    if k > 0 {
      MeteredMinute(loads, k - 1, n);
    }
  }

  lemma {:induction false} NothingMetered(loads: seq<Load>, k: nat)
    requires k <= |loads|
    ensures AllMeteredWh(loads, k, 0) == 0.0
  {
    if k > 0 {
      NothingMetered(loads, k - 1);
    }
  }

  /** Loads and remainder together are the energy the house consumed. */
  lemma {:induction false} HouseConserved(d: Day, n: nat)
    requires n <= MINUTES
    ensures AllMeteredWh(d.loads, |d.loads|, n) + RemainderWh(d, n) == HouseWh(d, n)
  {
    if n == 0 {
      NothingMetered(d.loads, |d.loads|);
    } else {
      HouseConserved(d, n - 1);
      HouseIsTaken(d, n - 1);
      MeteredMinute(d.loads, |d.loads|, n - 1);
    }
  }

  /** What the runs credit after the battery was empty no longer depends on the start. */
  lemma {:induction false} CreditsCoincideOnceEmpty(d: Day, a: Ledger, b: Ledger, mw: Minutes, m: nat, n: nat)
    requires m <= n <= MINUTES && DifferInSolar(a, b) && !BatteryAt(d, a, m).ledger.known
    ensures LoadSolar(d, a, mw, n) - LoadSolar(d, a, mw, m) == LoadSolar(d, b, mw, n) - LoadSolar(d, b, mw, m)
    ensures UnmonitoredSolar(d, a, n) - UnmonitoredSolar(d, a, m)
         == UnmonitoredSolar(d, b, n) - UnmonitoredSolar(d, b, m)
  {
    if m < n {
      CreditsCoincideOnceEmpty(d, a, b, mw, m, n - 1);
      RunsCoincideOnceEmpty(d, a, b, m, n - 1);
    }
  }
}
