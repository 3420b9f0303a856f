/** firmware/main/commodity_price.cpp: reported prices stamped onto 15-minute slots,
    buffered and merged into day files. Local time is UTC plus a fixed offset; slots
    are numbered across days. */
module PriceRecorder {
  import opened Slots

  const SLOT_SECONDS: int := 900
  const MAX_BACKFILL_S: int := 172800
  const MAX_STAMPS: nat := 193

  type Store = map<int, Prices>

  datatype Price = Price(valid: bool, start: int, hasEnd: bool, end: int, price: int)

  // ---- Slots ------------------------------------------------------------------------------

  /** The slot holding time t. */
  function SlotOf(t: int, offset: int): int {
    (t + offset) / SLOT_SECONDS
  }

  function SlotStart(slot: int, offset: int): int {
    slot * SLOT_SECONDS - offset
  }

  function At(store: Store, slot: int): int {
    if slot / TARIFF_SLOTS in store then store[slot / TARIFF_SLOTS][slot % TARIFF_SLOTS] else TARIFF_NO_PRICE
  }

  function BlankDay(): Prices {
    seq(TARIFF_SLOTS, _ => TARIFF_NO_PRICE)
  }

  function Stamped(store: Store, slot: int, price: int): Store {
    var date := slot / TARIFF_SLOTS;
    var day := if date in store then store[date] else BlankDay();
    store[date := day[slot % TARIFF_SLOTS := price]]
  }

  lemma SlotsDistinct(a: int, b: int)
    requires a / TARIFF_SLOTS == b / TARIFF_SLOTS && a % TARIFF_SLOTS == b % TARIFF_SLOTS
    ensures a == b
  {
  }

  lemma StampedAt(store: Store, slot: int, price: int, other: int)
    ensures At(Stamped(store, slot, price), other) == if other == slot then price else At(store, other)
  {
    if other != slot && other / TARIFF_SLOTS == slot / TARIFF_SLOTS && other % TARIFF_SLOTS == slot % TARIFF_SLOTS {
      SlotsDistinct(other, slot);
    }
  }

  // ---- Periods ----------------------------------------------------------------------------------

  function ClippedStart(p: Price, now: int): int {
    if p.start < now - MAX_BACKFILL_S then now - MAX_BACKFILL_S else p.start
  }

  function PeriodEnd(p: Price, now: int): int {
    if p.hasEnd && p.end < now then p.end else now
  }

  predicate Records(p: Price, now: int) {
    p.valid && ClippedStart(p, now) <= now && !(p.hasEnd && p.end <= ClippedStart(p, now))
  }

  /** The period covers the slot holding its start and every slot that begins strictly
      between its start and its end. */
  predicate Covers(start: int, end: int, offset: int, slot: int) {
    slot == SlotOf(start, offset) || start < SlotStart(slot, offset) < end
  }

  /** The time lies in the slot. */
  predicate InSlot(t: int, offset: int, slot: int) {
    900 * slot <= t + offset < 900 * slot + 900
  }

  /** What a report records. Its period begins at its start, or two days ago if that is
      later; it must have begun, and not be over by then. A slot is recorded exactly when the
      period's first instant lies in it, or one after that, in the past and before the
      period's own end. */
  lemma PeriodCovers(p: Price, now: int, first: int, offset: int, slot: int)
    requires first >= p.start && first >= now - 2 * 86400 && (first == p.start || first == now - 2 * 86400)
    ensures Records(p, now) <==> (p.valid && first <= now && (p.hasEnd ==> first < p.end))
    ensures Records(p, now) ==>
      (Covers(ClippedStart(p, now), PeriodEnd(p, now), offset, slot) <==>
       exists t :: InSlot(t, offset, slot) && (t == first || (first < t < now && (p.hasEnd ==> t < p.end))))
  {
    assert ClippedStart(p, now) == first;
    if slot == SlotOf(first, offset) {
      assert InSlot(first, offset, slot);
    } else if first < SlotStart(slot, offset) {
      assert InSlot(SlotStart(slot, offset), offset, slot);
    }
  }

  /** Seconds the loop adds at t, from the local minute and second. */
  function Advance(t: int, offset: int): int {
    var minute, second := (t + offset) / 60 % 60, (t + offset) % 60;
    (15 - minute % 15) * 60 - second
  }

  /** The loop moves to the start of the next slot, 1 to 900 seconds on. */
  lemma AdvanceToNextSlot(t: int, offset: int)
    ensures t + Advance(t, offset) == SlotStart(SlotOf(t, offset) + 1, offset)
    ensures 1 <= Advance(t, offset) <= SLOT_SECONDS
  {
    var local := t + offset;
    var m := local / 60;
    assert m % 60 % 15 == m % 15;
    assert local / 900 == m / 15;
  }

  // ---- Reading through the buffers -----------------------------------------------------------------

  datatype Buffers = Buffers(pending: Store, inFlight: Store, files: Store, current: Price)

  const NO_CURRENT := Price(false, 0, false, 0, 0)

  /** Pending stamps over stamps being written over the day file. */
  function Seen(b: Buffers, slot: int): int {
    if At(b.pending, slot) != TARIFF_NO_PRICE then At(b.pending, slot)
    else if At(b.inFlight, slot) != TARIFF_NO_PRICE then At(b.inFlight, slot)
    else At(b.files, slot)
  }

  function Merged(file: Prices, slots: Prices): Prices {
    seq(TARIFF_SLOTS, i requires 0 <= i < TARIFF_SLOTS => if slots[i] != TARIFF_NO_PRICE then slots[i] else file[i])
  }

  /** One day of the buffer being flushed merged into its file. */
  function DayWritten(b: Buffers, date: int): Buffers {
    if date in b.inFlight then
      var day := if date in b.files then b.files[date] else BlankDay();
      b.(files := b.files[date := Merged(day, b.inFlight[date])], inFlight := b.inFlight - {date})
    else b
  }

  lemma WriteInvisible(b: Buffers, date: int, slot: int)
    ensures Seen(DayWritten(b, date), slot) == Seen(b, slot)
  {
  }

  /** A stamp is seen as such exactly when it is not the sentinel, or there is nothing
      beneath it to show through. */
  lemma StampSeenExactly(b: Buffers, slot: int, price: int)
    ensures var after := b.(pending := Stamped(b.pending, slot, price));
            (forall k :: Seen(after, k) == if k == slot then price else Seen(b, k))
            <==> price != TARIFF_NO_PRICE
                 || (At(b.inFlight, slot) == TARIFF_NO_PRICE && At(b.files, slot) == TARIFF_NO_PRICE)
  {
    var after := b.(pending := Stamped(b.pending, slot, price));
    forall k
      ensures At(after.pending, k) == if k == slot then price else At(b.pending, k)
    {
      StampedAt(b.pending, slot, price, k);
    }
    if price == TARIFF_NO_PRICE {
      assert Seen(after, slot) == if At(b.inFlight, slot) != TARIFF_NO_PRICE then At(b.inFlight, slot)
                                  else At(b.files, slot);
    }
  }

  /** A day whose file cannot be written loses nothing exactly when each of its stamps
      has been overtaken by a newer one or is what the file already holds. */
  lemma FailedWriteSeenExactly(b: Buffers, date: int)
    requires date in b.inFlight
    ensures (forall k :: Seen(b.(inFlight := b.inFlight - {date}), k) == Seen(b, k))
            <==> forall k :: k / TARIFF_SLOTS == date && At(b.inFlight, k) != TARIFF_NO_PRICE ==>
                   At(b.pending, k) != TARIFF_NO_PRICE || At(b.files, k) == At(b.inFlight, k)
  {
    var after := b.(inFlight := b.inFlight - {date});
    forall k
      ensures At(after.inFlight, k) == if k / TARIFF_SLOTS == date then TARIFF_NO_PRICE else At(b.inFlight, k)
    {
    }
    forall k | Seen(after, k) == Seen(b, k) && k / TARIFF_SLOTS == date && At(b.inFlight, k) != TARIFF_NO_PRICE
      ensures At(b.pending, k) != TARIFF_NO_PRICE || At(b.files, k) == At(b.inFlight, k)
    {
    }
  }

  // ---- The recorder, changed in place -------------------------------------------------------------

  class Recorder {
    const offset: int
    var pending: Store
    var inFlight: Store
    var files: Store
    var current: Price

    constructor (offset: int)
      ensures this.offset == offset && State() == Buffers(map[], map[], map[], NO_CURRENT)
    {
      this.offset := offset;
      pending, inFlight, files, current := map[], map[], map[], NO_CURRENT;
    }

    function State(): Buffers
      reads this
    {
      Buffers(pending, inFlight, files, current)
    }

    method StampSlot(t: int, price: int)
      modifies this`pending
      ensures pending == Stamped(old(pending), SlotOf(t, offset), price)
    {
      var local := t + offset;
      var date := local / 86400;
      var minuteOfDay := local % 86400 / 60;
      var slot := minuteOfDay / 15;
      DateAndSlot(local);
      var day := if date in pending then pending[date] else BlankDay();
      pending := pending[date := day[slot := price]];
    }

    /** Stamps exactly the slots the period covers; at most 193 of them. */
    method StampPeriod(p: Price, now: int) returns (stamped: bool, ghost stamps: nat)
      modifies this`pending
      ensures stamped == Records(p, now) && stamps <= MAX_STAMPS
      ensures !stamped ==> pending == old(pending)
      ensures stamped ==> forall k ::
        At(pending, k) == if Covers(ClippedStart(p, now), PeriodEnd(p, now), offset, k) then p.price
                          else old(At(pending, k))
    {
      stamps := 0;
      if !p.valid {
        return false, 0;
      }
      var start := if p.start < now - MAX_BACKFILL_S then now - MAX_BACKFILL_S else p.start;
      var end := if p.hasEnd && p.end < now then p.end else now;
      if start > now || (p.hasEnd && p.end <= start) {
        return false, 0;
      }
      ghost var was, first := pending, SlotOf(start, offset);
      var t := start;
      StampNext(start, p.price, was, first, 0);
      stamps := 1;
      AdvanceToNextSlot(t, offset);
      t := t + Advance(t, offset);
      while t < end
        invariant t == SlotStart(first + stamps, offset) && stamps >= 1
        invariant stamps > 1 ==> SlotStart(first + stamps - 1, offset) < end
        invariant StampedFrom(was, first, stamps, p.price)
        decreases end - t
      {
        SlotOfStart(first + stamps, offset);
        StampNext(t, p.price, was, first, stamps);
        AdvanceToNextSlot(t, offset);
        t := t + Advance(t, offset);
        stamps := stamps + 1;
      }
      CoveredRange(start, end, offset, stamps);
      stamped := true;
    }

    /** The pending prices are those of `was` but for n slots from `first` on. */
    ghost predicate StampedFrom(was: Store, first: int, n: nat, price: int)
      reads this`pending
    {
      forall k :: At(pending, k) == if first <= k < first + n then price else At(was, k)
    }

    /** One more stamp of a period. */
    method StampNext(t: int, price: int, ghost was: Store, ghost first: int, ghost n: nat)
      requires first + n == SlotOf(t, offset) && StampedFrom(was, first, n, price)
      modifies this`pending
      ensures StampedFrom(was, first, n + 1, price)
    {
      ghost var before := pending;
      StampSlot(t, price);
      forall k
        ensures At(pending, k) == if first <= k < first + n + 1 then price else At(was, k)
      {
        StampedAt(before, first + n, price, k);
      }
    }

    /** apply_price: the newer price becomes current, the period's slots are stamped. */
    method ApplyPrice(p: Price, now: int) returns (stamped: bool)
      modifies this`current, this`pending
      ensures current == NewerPrice(old(current), p) && stamped == Records(p, now)
      ensures forall k ::
        At(pending, k) == if Stamps(Report(p, now), old(current), offset, k) then p.price else old(At(pending, k))
    {
      if !current.valid || !p.valid || p.start >= current.start {
        current := p;
      }
      ghost var n;
      stamped, n := StampPeriod(p, now);
    }

    method OnTickTimer(now: int) returns (stamped: bool)
      modifies this`pending
      ensures stamped == InForce(current, now)
      ensures stamped <==> (current.valid && current.start <= now && (current.hasEnd ==> now < current.end))
      ensures forall k ::
        At(pending, k) == if Stamps(Tick(now), current, offset, k) then current.price else old(At(pending, k))
    {
      stamped := current.valid && current.start <= now && (!current.hasEnd || now < current.end);
      if stamped {
        ghost var was := pending;
        StampSlot(now, current.price);
        forall k
          ensures At(pending, k) == if k == SlotOf(now, offset) then current.price else At(was, k)
        {
          StampedAt(was, SlotOf(now, offset), current.price, k);
        }
      }
    }

    /** The locked part of on_flush_timer; a reader sees no change. */
    method TakePending()
      requires inFlight == map[]
      modifies this`pending, this`inFlight
      ensures pending == map[] && inFlight == old(pending)
      ensures forall k :: Seen(State(), k) == Seen(old(State()), k)
    {
      inFlight, pending := pending, map[];
    }

    /** One day of the unlocked part: read, merge, write back. */
    method WriteDay(date: int)
      requires date in inFlight
      modifies this`files, this`inFlight
      ensures State() == DayWritten(old(State()), date)
    {
      var day := if date in files then files[date] else BlankDay();
      var merged: seq<int> := day;
      var slots := inFlight[date];
      for i := 0 to TARIFF_SLOTS
        invariant |merged| == TARIFF_SLOTS
        invariant forall j :: 0 <= j < TARIFF_SLOTS ==>
          merged[j] == if j < i && slots[j] != TARIFF_NO_PRICE then slots[j] else day[j]
      {
        if slots[i] != TARIFF_NO_PRICE {
          merged := merged[i := slots[i]];
        }
      }
      assert merged == Merged(day, slots);
      files := files[date := merged];
      inFlight := inFlight - {date};
    }
  }

  lemma DateAndSlot(local: int)
    ensures local / 86400 == local / SLOT_SECONDS / TARIFF_SLOTS
    ensures local % 86400 / 60 / 15 == local / SLOT_SECONDS % TARIFF_SLOTS
  {
    var q := local / 900;
    var d, r := local / 86400, local % 86400;
    assert local == 86400 * d + r;
    assert q == 96 * d + r / 900;
    assert r / 60 / 15 == r / 900;
  }

  lemma SlotOfStart(slot: int, offset: int)
    ensures SlotOf(SlotStart(slot, offset), offset) == slot
  {
  }

  /** Consecutive slots from the start's, as long as they begin before the end, are
      exactly the covered ones. */
  lemma CoveredRange(start: int, end: int, offset: int, n: nat)
    requires n >= 1 && SlotStart(SlotOf(start, offset) + n, offset) >= end
    requires n > 1 ==> SlotStart(SlotOf(start, offset) + n - 1, offset) < end
    ensures forall k :: Covers(start, end, offset, k) <==> SlotOf(start, offset) <= k < SlotOf(start, offset) + n
    ensures start <= end <= start + MAX_BACKFILL_S ==> n <= MAX_STAMPS
  {
    var first := SlotOf(start, offset);
    assert SlotStart(first, offset) <= start < SlotStart(first + 1, offset);
  }

  // ---- Runs of the recorder ---------------------------------------------------------------------------

  datatype Step =
    | Report(p: Price, now: int)
    | Tick(now: int)
    | SourceChanged
    | Swap               // the flush takes the pending stamps
    | Write(date: int)   // and writes one of their days

  function NewerPrice(current: Price, p: Price): Price {
    if !current.valid || !p.valid || p.start >= current.start then p else current
  }

  predicate InForce(current: Price, now: int) {
    current.valid && current.start <= now && (!current.hasEnd || now < current.end)
  }

  /** The step records a price for the slot. */
  predicate Stamps(step: Step, current: Price, offset: int, slot: int) {
    match step
    case Report(p, now) => Records(p, now) && Covers(ClippedStart(p, now), PeriodEnd(p, now), offset, slot)
    case Tick(now) => InForce(current, now) && slot == SlotOf(now, offset)
    case _ => false
  }

  function StampedPrice(step: Step, current: Price): int
    requires step.Report? || step.Tick?
  {
    if step.Report? then step.p.price else current.price
  }

  function CurrentAfter(steps: seq<Step>): Price {
    if steps == [] then NO_CURRENT
    else
      var before := CurrentAfter(steps[..|steps| - 1]);
      match steps[|steps| - 1]
      case Report(p, _) => NewerPrice(before, p)
      case SourceChanged => NO_CURRENT
      case _ => before
  }

  /** A change of source, or a report without a price, ends what was reported before. */
  predicate Resets(step: Step) {
    step.SourceChanged? || (step.Report? && !step.p.valid)
  }

  /** Step i reported a price, and nothing has ended it. */
  ghost predicate Live(steps: seq<Step>, i: int) {
    0 <= i < |steps| && steps[i].Report? && steps[i].p.valid && forall j :: i < j < |steps| ==> !Resets(steps[j])
  }

  lemma LiveGrows(steps: seq<Step>, i: int)
    requires steps != []
    ensures var init, last := steps[..|steps| - 1], steps[|steps| - 1];
            Live(steps, i) <==>
            if i == |init| then last.Report? && last.p.valid else Live(init, i) && !Resets(last)
  {
    var init := steps[..|steps| - 1];
    assert forall j :: 0 <= j < |init| ==> init[j] == steps[j];
  }

  /** Step i reported it, and no live report has a later start, nor the same one later on. */
  ghost predicate IsCurrent(steps: seq<Step>, i: int, c: Price) {
    && Live(steps, i) && steps[i].p == c
    && forall j :: Live(steps, j) ==> steps[j].p.start <= c.start && (j > i ==> steps[j].p.start < c.start)
  }

  ghost predicate LatestKnown(steps: seq<Step>, c: Price) {
    if c.valid then exists i :: IsCurrent(steps, i, c) else forall i :: !Live(steps, i)
  }

  /** The current price is the last of those with the latest start that are live. */
  lemma {:induction false} CurrentIsLatest(steps: seq<Step>)
    ensures LatestKnown(steps, CurrentAfter(steps))
  {
    if steps != [] {
      CurrentIsLatest(steps[..|steps| - 1]);
      LatestGrows(steps, CurrentAfter(steps[..|steps| - 1]));
    }
  }

  lemma LatestGrows(steps: seq<Step>, before: Price)
    requires steps != [] && LatestKnown(steps[..|steps| - 1], before)
    requires before == CurrentAfter(steps[..|steps| - 1])
    ensures LatestKnown(steps, CurrentAfter(steps))
  {
    var init, last, now := steps[..|steps| - 1], steps[|steps| - 1], CurrentAfter(steps);
    forall j
      ensures Live(steps, j) <==>
              if j == |init| then last.Report? && last.p.valid else Live(init, j) && !Resets(last)
      ensures Live(init, j) ==> steps[j] == init[j] && before.valid && init[j].p.start <= before.start
    {
      LiveGrows(steps, j);
    }
    if last.Report? && now == last.p && now.valid {
      assert IsCurrent(steps, |init|, now);
    } else if now.valid {
      var i :| IsCurrent(init, i, before);
      assert Live(steps, i);
      forall j | Live(steps, j)
        ensures steps[j].p.start <= now.start && (j > i ==> steps[j].p.start < now.start)
      {
        assert j != |init| ==> Live(init, j);
      }
      assert IsCurrent(steps, i, now);
    }
  }

  /** The plain map: the last price recorded for a slot. */
  function LastPrice(steps: seq<Step>, offset: int, slot: int): int {
    if steps == [] then TARIFF_NO_PRICE
    else
      var init, step := steps[..|steps| - 1], steps[|steps| - 1];
      if Stamps(step, CurrentAfter(init), offset, slot) then StampedPrice(step, CurrentAfter(init))
      else LastPrice(init, offset, slot)
  }

  /** What a step may do to the buffers. */
  ghost predicate Does(b: Buffers, step: Step, offset: int, after: Buffers) {
    match step
    case Report(p, now) =>
      && after == b.(pending := after.pending, current := NewerPrice(b.current, p))
      && forall k :: At(after.pending, k) == if Stamps(step, b.current, offset, k) then p.price else At(b.pending, k)
    case Tick(now) =>
      && after == b.(pending := after.pending)
      && forall k ::
        At(after.pending, k) == if Stamps(step, b.current, offset, k) then b.current.price else At(b.pending, k)
    case SourceChanged => after == b.(current := NO_CURRENT)
    case Swap => after == if b.inFlight == map[] then b.(pending := map[], inFlight := b.pending) else b
    case Write(date) => after == DayWritten(b, date)
  }

  /** trace[i] is the state before step i. */
  ghost predicate IsTrace(trace: seq<Buffers>, steps: seq<Step>, offset: int) {
    |trace| == |steps| + 1 && trace[0] == Buffers(map[], map[], map[], NO_CURRENT)
    && forall i :: 0 <= i < |steps| ==> Does(trace[i], steps[i], offset, trace[i + 1])
  }

  ghost predicate NoSentinel(steps: seq<Step>) {
    forall s :: s in steps && s.Report? && s.p.valid ==> s.p.price != TARIFF_NO_PRICE
  }

  lemma {:induction false} CurrentHasPrice(steps: seq<Step>)
    requires NoSentinel(steps)
    ensures CurrentAfter(steps).valid ==> CurrentAfter(steps).price != TARIFF_NO_PRICE
  {
    if steps != [] {
      CurrentHasPrice(steps[..|steps| - 1]);
      assert steps[|steps| - 1] in steps;
    }
  }

  /** After any interleaving of reports, ticks and flushes, halfway through a flush
      included, reading through the buffers gives the last price recorded. */
  lemma {:induction false} WriteBehindRefinesMap(trace: seq<Buffers>, steps: seq<Step>, offset: int, slot: int)
    requires IsTrace(trace, steps, offset) && NoSentinel(steps)
    ensures Seen(trace[|steps|], slot) == LastPrice(steps, offset, slot)
    ensures trace[|steps|].current == CurrentAfter(steps)
    decreases |steps|
  {
    if steps != [] {
      var n := |steps| - 1;
      WriteBehindRefinesMap(trace[..n + 1], steps[..n], offset, slot);
      assert Does(trace[n], steps[n], offset, trace[n + 1]);
      CurrentHasPrice(steps[..n]);
      assert steps[n] in steps;
      if steps[n].Write? {
        WriteInvisible(trace[n], steps[n].date, slot);
      }
    }
  }
}
