/** firmware/main/node_power_logger.cpp: the battery ledger on days with state-of-charge
    readings, told by the day's series alone: which charge a rise takes its mix from, and
    what every reading does. */
module ChargeLaws {
  import opened Options
  import opened Sums
  import opened DaySplit
  import opened LedgerLaws
  import opened BatteryBalance

  // ---- What the meters say ------------------------------------------------------------------

  /** Watts that go into the battery in minute k. */
  function ChargedAt(d: Day, k: nat): real
    requires k < MINUTES
  {
    Positive(-(d.battery[k] as real / 1000.0))
  }

  /** Those of them drawn from the AC side. */
  function GridChargedAt(d: Day, k: nat): real
    requires k < MINUTES
  {
    Min(ChargedAt(d, k), Positive(-(d.inverter[k] as real / 1000.0)))
  }

  /** Charged over the minutes from..to-1. */
  function Charged(d: Day, from: nat, to: nat): real
    requires from <= to <= MINUTES
  {
    if from == to then 0.0 else Charged(d, from, to - 1) + ChargedAt(d, to - 1)
  }

  /** Charged by the sun over those minutes. */
  function SunCharged(d: Day, from: nat, to: nat): real
    requires from <= to <= MINUTES
  {
    if from == to then 0.0 else SunCharged(d, from, to - 1) + (ChargedAt(d, to - 1) - GridChargedAt(d, to - 1))
  }

  // ---- What the readings say -----------------------------------------------------------------

  predicate HasReading(d: Day, k: nat)
    requires k < MINUTES && d.charge.Some?
  {
    d.charge.value[k] >= 0
  }

  /** Half-percent above the reserve of a tenth. */
  function ChargeAt(d: Day, k: nat): real
    requires k < MINUTES && d.charge.Some?
  {
    Positive((d.charge.value[k] - 20) as real)
  }

  /** What the ledger holds before minute n: the last reading's charge, or before the first
      what the day began with. */
  function HeldBefore(d: Day, start: Ledger, n: nat): real
    requires n <= MINUTES && d.charge.Some?
  {
    if n == 0 then (if start.known then start.energy else 0.0)
    else if HasReading(d, n - 1) then ChargeAt(d, n - 1)
    else HeldBefore(d, start, n - 1)
  }

  /** The first reading of a day that began with Wh known: it tells what those are worth. */
  predicate Rebases(d: Day, start: Ledger, k: nat)
    requires k < MINUTES && d.charge.Some?
  {
    HasReading(d, k) && start.known && !start.soc && forall j :: 0 <= j < k ==> !HasReading(d, j)
  }

  /** The reading of minute k moves the ledger, or finds it at the reserve. */
  predicate Moves(d: Day, start: Ledger, k: nat)
    requires k < MINUTES && d.charge.Some?
  {
    HasReading(d, k) && (ChargeAt(d, k) == 0.0 || Rebases(d, start, k) || ChargeAt(d, k) != HeldBefore(d, start, k))
  }

  /** w is the first minute after the last reading before n that moved the ledger, or 0. */
  ghost predicate SinceMoved(d: Day, start: Ledger, w: nat, n: nat)
    requires n <= MINUTES && d.charge.Some?
  {
    w <= n && (w > 0 ==> Moves(d, start, w - 1)) && forall k :: w <= k < n ==> !Moves(d, start, k)
  }

  lemma {:induction false} SinceExists(d: Day, start: Ledger, n: nat) returns (w: nat)
    requires n <= MINUTES && d.charge.Some?
    ensures SinceMoved(d, start, w, n)
  {
    if n == 0 || Moves(d, start, n - 1) {
      w := n;
    } else {
      w := SinceExists(d, start, n - 1);
    }
  }

  // ---- The battery by the series ---------------------------------------------------------------

  /** The ledger holds what the readings say, and the charge recorded is what the meters
      say since the last reading that moved it. */
  ghost predicate Follows(d: Day, start: Ledger, b: Battery, w: nat, n: nat)
    requires w <= n <= MINUTES && d.charge.Some?
  {
    && b.pendSolar == SunCharged(d, w, n) && b.pendSolar + b.pendGrid == Charged(d, w, n)
    && (if b.ledger.known then b.ledger.energy else 0.0) == HeldBefore(d, start, n)
    && (b.rebase && b.ledger.known <==> start.known && !start.soc && forall j :: 0 <= j < n ==> !HasReading(d, j))
  }

  lemma ChargeRecorded(b: Battery, d: Day, k: nat)
    requires k < MINUTES
    ensures var invW, batW := Watts(d.inverter[k]), Watts(d.battery[k]);
            var next := AddPending(b, invW, batW);
            && next == b.(pendSolar := b.pendSolar + (ChargedAt(d, k) - GridChargedAt(d, k)),
                          pendGrid := b.pendGrid + GridChargedAt(d, k))
  {
  }

  lemma LedgerAfter(b: Battery, reading: int, held: real)
    requires held == if b.ledger.known then b.ledger.energy else 0.0
    ensures var u, next := Usable(reading), TakeReading(b, reading);
            && (if next.ledger.known then next.ledger.energy else 0.0) == u
            && !(next.rebase && next.ledger.known)
            && (u == 0.0 || (b.rebase && b.ledger.known) || u != held ==> next.pendSolar == next.pendGrid == 0.0)
            && (u > 0.0 && !(b.rebase && b.ledger.known) && u == held ==>
                 next.pendSolar == b.pendSolar && next.pendGrid == b.pendGrid)
  {
  }

  lemma FollowsStep(d: Day, start: Ledger, b: Battery, w: nat, k: nat)
    requires w <= k < MINUTES && d.charge.Some? && Follows(d, start, b, w, k)
    ensures Follows(d, start, AdvanceBattery(b, d, k), if Moves(d, start, k) then k + 1 else w, k + 1)
  {
    ChargeRecorded(b, d, k);
    var charged := AddPending(b, Watts(d.inverter[k]), Watts(d.battery[k]));
    if HasReading(d, k) {
      LedgerAfter(charged, d.charge.value[k], HeldBefore(d, start, k));
    }
  }

  lemma {:induction false} DayFollows(d: Day, start: Ledger, w: nat, n: nat)
    requires n <= MINUTES && d.charge.Some? && SinceMoved(d, start, w, n)
    ensures Follows(d, start, BatteryAt(d, start, n), w, n)
  {
    if n > 0 {
      var before := w;
      if w == n {
        before := SinceExists(d, start, n - 1);
      }
      DayFollows(d, start, before, n - 1);
      FollowsStep(d, start, BatteryAt(d, start, n - 1), before, n - 1);
    }
  }

  /** Every minute of a charge day. Without a reading the ledger stays; at the reserve nothing
      is left; else it holds the charge read. The mix stays at a fall, at an unchanged reading
      and when Wh are re-based; a rise takes the mix of the charge that the meters saw since
      the last reading that moved the ledger, or the ledger's own when they saw none. */
  lemma ReadingLaw(d: Day, start: Ledger, w: nat, k: nat)
    requires k < MINUTES && d.charge.Some? && Sound(start) && SinceMoved(d, start, w, k)
    ensures var before, after := BatteryAt(d, start, k).ledger, BatteryAt(d, start, k + 1).ledger;
            var u, held, charged := ChargeAt(d, k), HeldBefore(d, start, k), Charged(d, w, k + 1);
            && (!HasReading(d, k) ==> after == before)
            && (HasReading(d, k) ==> (after.known <==> u > 0.0) && (u > 0.0 ==> after.energy == u))
            && (HasReading(d, k) && u > 0.0 && (u <= held || Rebases(d, start, k)) ==> after.solar == before.solar)
            && (HasReading(d, k) && u > held && !Rebases(d, start, k) ==>
                 SolarHeld(after) - SolarHeld(before)
                 == if charged > 0.0 then Portion(u - held, SunCharged(d, w, k + 1) / charged)
                    else Portion(u - held, Fraction(before)))
  {
    var b := BatteryAt(d, start, k);
    DayFollows(d, start, w, k);
    BatterySound(d, start, k);
    ChargeRecorded(b, d, k);
    if HasReading(d, k) {
      var charged := AddPending(b, Watts(d.inverter[k]), Watts(d.battery[k]));
      ReadingMixes(charged, d.charge.value[k], HeldBefore(d, start, k));
    }
  }

  // ---- From one day to the next ----------------------------------------------------------------

  /** Until the first reading of a charge day the ledger is what the day began with. */
  lemma {:induction false} UntilFirstReading(d: Day, start: Ledger, n: nat)
    requires n <= MINUTES && d.charge.Some? && forall j :: 0 <= j < n ==> !HasReading(d, j)
    ensures BatteryAt(d, start, n).ledger == start
  {
    if n > 0 {
      UntilFirstReading(d, start, n - 1);
      assert !HasReading(d, n - 1);
    }
  }

  /** Day e's first reading is that of minute k. */
  predicate FirstReading(e: Day, k: nat)
    requires k < MINUTES && e.charge.Some?
  {
    HasReading(e, k) && forall j :: 0 <= j < k ==> !HasReading(e, j)
  }

  /** What day e makes of the ledger day d ends with. Charge units are dropped by a day in Wh,
      which begins empty, and Wh go on in Wh. A day with readings takes over the mix: Wh at
      once, whatever they are worth; charge units only as far as its first reading is no
      higher, a rise being day e's own charge. */
  lemma NextDay(d: Day, start: Ledger, e: Day, n: nat)
    requires Sound(start) && n <= MINUTES
    ensures var last, end := BatteryAt(d, start, MINUTES).ledger, SplitOf(d, start).end;
            && end.known == last.known && end.energy == last.energy && end.solar == last.solar
            && (d.charge.Some? && e.charge.None? ==> BatteryAt(e, end, n) == BatteryAt(e, UNKNOWN, n))
            && (d.charge.None? && e.charge.None? ==> BatteryAt(e, end, 0).ledger == end)
            && (e.charge.Some? && n < MINUTES && FirstReading(e, n) && ChargeAt(e, n) > 0.0 && last.known ==>
                 var after := BatteryAt(e, end, n + 1).ledger;
                 && after.known && after.energy == ChargeAt(e, n)
                 && (d.charge.None? || ChargeAt(e, n) <= last.energy ==> after.solar == last.solar)
                 && (d.charge.Some? && ChargeAt(e, n) > last.energy && Charged(e, 0, n + 1) > 0.0 ==>
                      SolarHeld(after) - SolarHeld(last)
                      == Portion(ChargeAt(e, n) - last.energy, SunCharged(e, 0, n + 1) / Charged(e, 0, n + 1))))
  {
    var end := SplitOf(d, start).end;
    DaySound(d, start);
    if d.charge.Some? && e.charge.None? {
      ChargeNeverReadAsWh(e, end, n);
    }
    if e.charge.Some? && n < MINUTES && FirstReading(e, n) {
      UntilFirstReading(e, end, n);
      HeldUntilFirst(e, end, n);
      assert SinceMoved(e, end, 0, n);
      ReadingLaw(e, end, 0, n);
    }
  }

  lemma {:induction false} HeldUntilFirst(d: Day, start: Ledger, n: nat)
    requires n <= MINUTES && d.charge.Some? && forall j :: 0 <= j < n ==> !HasReading(d, j)
    ensures HeldBefore(d, start, n) == if start.known then start.energy else 0.0
  {
    if n > 0 {
      HeldUntilFirst(d, start, n - 1);
    }
  }

  /** The ledgers noted at the full hours are those of the last minute, marked by the day's
      kind. */
  lemma {:induction false} HourlyAt(d: Day, start: Ledger, hours: nat, h: nat)
    requires 60 * hours <= MINUTES && h < hours
    ensures |HourlyLedgers(d, start, hours)| == hours
    ensures var noted, held := HourlyLedgers(d, start, hours)[h], BatteryAt(d, start, 60 * h + 60).ledger;
            && noted.known == held.known && noted.energy == held.energy && noted.solar == held.solar
            && (noted.soc <==> d.charge.Some?)
  {
    if hours > 1 {
      HourlyAt(d, start, hours - 1, if h < hours - 1 then h else 0);
    }
  }
}
