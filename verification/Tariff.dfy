/** firmware/main/tariff.cpp: a schedule resolved to 15-minute slots, and recorded
    prices laid over it. */
module Tariff {
  import opened Options
  import opened CArithmetic
  import opened Slots
  import opened Sums

  /** A negative duration lasts until the next entry. */
  datatype Entry = Entry(id: nat, start: nat, duration: int)
  datatype Period = Period(entryIds: seq<nat>, componentIds: seq<nat>)
  datatype Component = Component(id: nat, hasPrice: bool, price: int, hasThreshold: bool, threshold: int)

  datatype Schedule = Schedule(entries: seq<Entry>, periods: seq<Period>, components: seq<Component>)

  // ---- entry_price ---------------------------------------------------------------------

  /** The priced components with an id, in table order. */
  function Priced(components: seq<Component>, id: nat): seq<Component> {
    if components == [] then []
    else
      var last := components[|components| - 1];
      Priced(components[..|components| - 1], id) + if last.id == id && last.hasPrice then [last] else []
  }

  function PricedIds(components: seq<Component>, ids: seq<nat>): seq<Component> {
    if ids == [] then []
    else PricedIds(components, ids[..|ids| - 1]) + Priced(components, ids[|ids| - 1])
  }

  /** Every priced component the entry's periods list, once per listing. */
  function Applicable(s: Schedule, periods: seq<Period>, entryId: nat): seq<Component> {
    if periods == [] then []
    else
      var last := periods[|periods| - 1];
      Applicable(s, periods[..|periods| - 1], entryId)
        + if entryId in last.entryIds then PricedIds(s.components, last.componentIds) else []
  }

  function SumOpen(cs: seq<Component>): int {
    if cs == [] then 0
    else SumOpen(cs[..|cs| - 1]) + if cs[|cs| - 1].hasThreshold then 0 else cs[|cs| - 1].price
  }

  /** The first of the lowest-threshold blocks. */
  function LowestBlock(cs: seq<Component>): Option<Component> {
    if cs == [] then None
    else
      var last := cs[|cs| - 1];
      var best := LowestBlock(cs[..|cs| - 1]);
      if last.hasThreshold && (best.None? || last.threshold < best.value.threshold) then Some(last) else best
  }

  predicate HasOpen(cs: seq<Component>) {
    cs != [] && (!cs[|cs| - 1].hasThreshold || HasOpen(cs[..|cs| - 1]))
  }

  /** What the tally finds: some component without a threshold, or the block no other
      block undercuts. */
  lemma {:induction false} TallyFinds(cs: seq<Component>)
    ensures HasOpen(cs) <==> exists c :: c in cs && !c.hasThreshold
    ensures LowestBlock(cs).None? <==> forall c :: c in cs ==> !c.hasThreshold
    ensures LowestBlock(cs).Some? ==>
      var b := LowestBlock(cs).value;
      b in cs && b.hasThreshold && forall c :: c in cs && c.hasThreshold ==> b.threshold <= c.threshold
  {
    if cs != [] {
      var init, last := cs[..|cs| - 1], cs[|cs| - 1];
      TallyFinds(init);
      assert cs == init + [last];
      assert forall c :: c in cs <==> c in init || c == last;
    }
  }

  function EntryPrice(s: Schedule, entryId: nat): int {
    var cs := Applicable(s, s.periods, entryId);
    if HasOpen(cs) then SumOpen(cs)
    else if LowestBlock(cs).Some? then LowestBlock(cs).value.price
    else TARIFF_NO_PRICE
  }

  /** A component counts for an entry when a period that lists the entry lists it, and it
      carries a price. */
  predicate CountsFor(s: Schedule, periods: seq<Period>, entryId: nat, c: Component) {
    c in s.components && c.hasPrice
    && exists p :: p in periods && entryId in p.entryIds && c.id in p.componentIds
  }

  lemma {:induction false} PricedAre(components: seq<Component>, id: nat)
    ensures forall c :: c in Priced(components, id) <==> c in components && c.id == id && c.hasPrice
  {
    if components != [] {
      PricedAre(components[..|components| - 1], id);
      assert forall c :: c in components <==>
               c in components[..|components| - 1] || c == components[|components| - 1];
    }
  }

  lemma {:induction false} PricedIdsAre(components: seq<Component>, ids: seq<nat>)
    ensures forall c :: c in PricedIds(components, ids) <==> c in components && c.id in ids && c.hasPrice
  {
    if ids != [] {
      PricedIdsAre(components, ids[..|ids| - 1]);
      PricedAre(components, ids[|ids| - 1]);
      assert forall id :: id in ids <==> id in ids[..|ids| - 1] || id == ids[|ids| - 1];
    }
  }

  lemma {:induction false} ApplicableAre(s: Schedule, periods: seq<Period>, entryId: nat)
    ensures forall c :: c in Applicable(s, periods, entryId) <==> CountsFor(s, periods, entryId, c)
  {
    if periods != [] {
      var init, last := periods[..|periods| - 1], periods[|periods| - 1];
      ApplicableAre(s, init, entryId);
      PricedIdsAre(s.components, last.componentIds);
      assert forall p :: p in periods <==> p in init || p == last;
    }
  }

  /** What a component adds to the price where it has no threshold. */
  function OpenPrice(): Component -> real {
    (c: Component) => if c.hasThreshold then 0.0 else c.price as real
  }

  lemma {:induction false} SumOpenIs(cs: seq<Component>)
    ensures SumOpen(cs) as real == Sum(OpenPrice(), cs)
  {
    if cs != [] {
      var init, last := cs[..|cs| - 1], cs[|cs| - 1];
      SumOpenIs(init);
      assert cs == init + [last];
      SumAppend(OpenPrice(), init, [last]);
      SumSingle(OpenPrice(), last);
    }
  }

  /** cs[i] is the first of the components with the lowest threshold. */
  predicate IsLowest(cs: seq<Component>, i: int) {
    0 <= i < |cs| && cs[i].hasThreshold
    && forall j :: 0 <= j < |cs| && cs[j].hasThreshold ==>
      cs[i].threshold <= cs[j].threshold && (j < i ==> cs[i].threshold < cs[j].threshold)
  }

  lemma {:induction false} LowestIsFirst(cs: seq<Component>)
    ensures LowestBlock(cs).Some? ==> exists i :: IsLowest(cs, i) && cs[i] == LowestBlock(cs).value
    ensures LowestBlock(cs).None? ==> forall c :: c in cs ==> !c.hasThreshold
  {
    if cs != [] {
      var init, last := cs[..|cs| - 1], cs[|cs| - 1];
      LowestIsFirst(init);
      assert forall j :: 0 <= j < |init| ==> init[j] == cs[j];
      var best := LowestBlock(init);
      if last.hasThreshold && (best.None? || last.threshold < best.value.threshold) {
        assert IsLowest(cs, |init|);
      } else if best.Some? {
        var i :| IsLowest(init, i) && init[i] == best.value;
        assert IsLowest(cs, i);
      }
    }
  }

  /** The price of an entry: the sum of what counts for it without a threshold, if anything
      does; else the first of its lowest blocks; else none. */
  lemma EntryPriceMeans(s: Schedule, entryId: nat)
    ensures var cs, price := Applicable(s, s.periods, entryId), EntryPrice(s, entryId);
            && (forall c :: c in cs <==> CountsFor(s, s.periods, entryId, c))
            && (if exists c :: c in cs && !c.hasThreshold then price as real == Sum(OpenPrice(), cs)
                else if cs != [] then exists i :: IsLowest(cs, i) && price == cs[i].price
                else price == TARIFF_NO_PRICE)
  {
    var cs := Applicable(s, s.periods, entryId);
    ApplicableAre(s, s.periods, entryId);
    TallyFinds(cs);
    SumOpenIs(cs);
    LowestIsFirst(cs);
    if cs != [] && LowestBlock(cs).None? {
      assert cs[0] in cs;
    }
  }

  datatype Tally = Tally(found: bool, total: int, block: Option<Component>)

  ghost predicate TallyOf(t: Tally, cs: seq<Component>) {
    t.found == HasOpen(cs) && t.total == SumOpen(cs) && t.block == LowestBlock(cs)
  }

  lemma TallyGrows(cs: seq<Component>, c: Component)
    ensures SumOpen(cs + [c]) == SumOpen(cs) + if c.hasThreshold then 0 else c.price
    ensures HasOpen(cs + [c]) == (HasOpen(cs) || !c.hasThreshold)
    ensures var best := LowestBlock(cs);
            LowestBlock(cs + [c]) ==
              if c.hasThreshold && (best.None? || c.threshold < best.value.threshold) then Some(c) else best
  {
    assert (cs + [c])[..|cs|] == cs;
  }

  method TallyOne(c: Component, t: Tally, ghost cs: seq<Component>) returns (next: Tally)
    requires TallyOf(t, cs)
    ensures TallyOf(next, cs + [c])
  {
    TallyGrows(cs, c);
    next := t;
    if !c.hasThreshold {
      next := next.(total := next.total + c.price, found := true);
    } else if next.block.None? || c.threshold < next.block.value.threshold {
      next := next.(block := Some(c));
    }
  }

  lemma PricedGrows(components: seq<Component>, k: nat, id: nat)
    requires k < |components|
    ensures var c := components[k];
            Priced(components[..k + 1], id)
            == Priced(components[..k], id) + if c.id == id && c.hasPrice then [c] else []
  {
    assert components[..k + 1][..k] == components[..k];
  }

  /** The component loop: every priced component with the id enters the tally. */
  method TallyComponents(components: seq<Component>, id: nat, t: Tally, ghost cs: seq<Component>) returns (next: Tally)
    requires TallyOf(t, cs)
    ensures TallyOf(next, cs + Priced(components, id))
  {
    next := t;
    ghost var seen, found := cs, [];
    assert cs + found == cs;
    for k := 0 to |components|
      invariant found == Priced(components[..k], id) && seen == cs + found && TallyOf(next, seen)
    {
      var c := components[k];
      PricedGrows(components, k, id);
      if c.id == id && c.hasPrice {
        next := TallyOne(c, next, seen);
        seen, found := seen + [c], found + [c];
        assert seen == cs + found;
      } else {
        assert found + [] == found;
      }
    }
    assert components[..|components|] == components;
  }

  lemma PricedIdsGrows(components: seq<Component>, ids: seq<nat>, k: nat, cs: seq<Component>)
    requires k < |ids|
    ensures cs + PricedIds(components, ids[..k + 1])
         == cs + PricedIds(components, ids[..k]) + Priced(components, ids[k])
  {
    assert ids[..k + 1][..k] == ids[..k];
  }

  method TallyPeriod(s: Schedule, p: Period, t: Tally, ghost cs: seq<Component>) returns (next: Tally)
    requires TallyOf(t, cs)
    ensures TallyOf(next, cs + PricedIds(s.components, p.componentIds))
  {
    next := t;
    assert cs + [] == cs;
    var ids := p.componentIds;
    for k := 0 to |ids|
      invariant TallyOf(next, cs + PricedIds(s.components, ids[..k]))
    {
      PricedIdsGrows(s.components, ids, k, cs);
      next := TallyComponents(s.components, ids[k], next, cs + PricedIds(s.components, ids[..k]));
    }
    assert ids[..|ids|] == ids;
  }

  method ComputeEntryPrice(s: Schedule, entryId: nat) returns (price: int)
    ensures price == EntryPrice(s, entryId)
  {
    var t := Tally(false, 0, None);
    for k := 0 to |s.periods|
      invariant TallyOf(t, Applicable(s, s.periods[..k], entryId))
    {
      var p := s.periods[k];
      assert s.periods[..k + 1][..k] == s.periods[..k];
      ghost var cs := Applicable(s, s.periods[..k], entryId);
      if entryId in p.entryIds {
        t := TallyPeriod(s, p, t, cs);
      } else {
        assert cs + [] == cs;
      }
    }
    assert s.periods[..|s.periods|] == s.periods;
    if t.found {
      price := t.total;
    } else if t.block.Some? {
      price := t.block.value.price;
    } else {
      price := TARIFF_NO_PRICE;
    }
  }

  // ---- resolve_day -----------------------------------------------------------------------

  /** An entry the day lists that has begun by the minute. */
  predicate Begun(s: Schedule, ids: seq<nat>, minute: int, e: Entry) {
    e in s.entries && e.id in ids && e.start <= minute
  }

  /** e is in force at the minute: listed, begun, and none begun later. */
  ghost predicate Latest(s: Schedule, ids: seq<nat>, minute: int, e: Entry) {
    Begun(s, ids, minute, e) && forall d :: Begun(s, ids, minute, d) ==> d.start <= e.start
  }

  predicate Elapsed(e: Entry, minute: int) {
    e.duration >= 0 && minute >= e.start + e.duration
  }

  /** An entry prices as many minutes as it lasts, and all of them if it has no duration. */
  function PriceUnder(s: Schedule, e: Entry, minute: int): (price: int)
    ensures e.duration < 0 || minute - e.start < e.duration ==> price == EntryPrice(s, e.id)
    ensures 0 <= e.duration <= minute - e.start ==> price == TARIFF_NO_PRICE
  {
    if Elapsed(e, minute) then TARIFF_NO_PRICE else EntryPrice(s, e.id)
  }

  /** Entry q of the table is the day's listing p, and has begun. */
  predicate Listed(s: Schedule, ids: seq<nat>, minute: int, p: int, q: int) {
    0 <= p < |ids| && 0 <= q < |s.entries| && s.entries[q].id == ids[p] && s.entries[q].start <= minute
  }

  /** Listing (p, q) yields to (i, j): an earlier start, or the same start listed no sooner. */
  predicate YieldsTo(s: Schedule, p: int, q: int, i: int, j: int)
    requires 0 <= q < |s.entries| && 0 <= j < |s.entries|
  {
    var a, b := s.entries[q].start, s.entries[j].start;
    a < b || (a == b && (i < p || (i == p && j <= q)))
  }

  /** e is the first listed of the entries that begun last. */
  ghost predicate InForce(s: Schedule, ids: seq<nat>, minute: int, e: Entry) {
    exists i, j :: Listed(s, ids, minute, i, j) && s.entries[j] == e
      && forall p, q :: Listed(s, ids, minute, p, q) ==> YieldsTo(s, p, q, i, j)
  }

  /** The price of a slot follows from the entry in force: none begun, or its duration
      over, leaves the slot without a price. */
  ghost predicate Resolves(s: Schedule, ids: seq<nat>, minute: int, price: int) {
    if forall e :: !Begun(s, ids, minute, e) then price == TARIFF_NO_PRICE
    else exists e :: InForce(s, ids, minute, e) && price == PriceUnder(s, e, minute)
  }

  lemma BegunListed(s: Schedule, ids: seq<nat>, minute: int, e: Entry)
    requires Begun(s, ids, minute, e)
    ensures exists p, q :: Listed(s, ids, minute, p, q) && s.entries[q] == e
  {
    var q :| 0 <= q < |s.entries| && s.entries[q] == e;
    var p :| 0 <= p < |ids| && ids[p] == e.id;
    assert Listed(s, ids, minute, p, q);
  }

  /** The entry in force has begun, and none has begun later. */
  lemma InForceIsLatest(s: Schedule, ids: seq<nat>, minute: int, e: Entry)
    requires InForce(s, ids, minute, e)
    ensures Latest(s, ids, minute, e)
  {
    forall d | Begun(s, ids, minute, d)
      ensures d.start <= e.start
    {
      BegunListed(s, ids, minute, d);
    }
  }

  /** One entry is in force, so a slot has one price, equal starts or not. */
  lemma OneInForce(s: Schedule, ids: seq<nat>, minute: int, d: Entry, e: Entry)
    requires InForce(s, ids, minute, d) && InForce(s, ids, minute, e)
    ensures d == e
  {
  }

  lemma OnePrice(s: Schedule, ids: seq<nat>, minute: int, a: int, b: int)
    requires Resolves(s, ids, minute, a) && Resolves(s, ids, minute, b)
    ensures a == b
  {
    if d, e :| InForce(s, ids, minute, d) && InForce(s, ids, minute, e) && a == PriceUnder(s, d, minute)
               && b == PriceUnder(s, e, minute) {
      OneInForce(s, ids, minute, d, e);
    }
  }

  /** The best among the listings seen, the first k ids in full and j entries of the next,
      is listing at. */
  ghost predicate BestSoFar(s: Schedule, ids: seq<nat>, minute: int, k: nat, j: nat, best: Option<Entry>,
                            at: (int, int)) {
    && (best.Some? ==> Listed(s, ids, minute, at.0, at.1) && s.entries[at.1] == best.value
                       && (at.0 < k || (at.0 == k && at.1 < j)))
    && (forall p, q :: Listed(s, ids, minute, p, q) && (p < k || (p == k && q < j)) ==>
          best.Some? && YieldsTo(s, p, q, at.0, at.1))
  }

  /** The first listed of the latest entries begun, if any has. */
  method FindLatest(s: Schedule, ids: seq<nat>, minute: int) returns (best: Option<Entry>)
    ensures best.Some? ==> InForce(s, ids, minute, best.value)
    ensures best.None? ==> forall e :: !Begun(s, ids, minute, e)
  {
    best := None;
    ghost var at := (0, 0);
    for k := 0 to |ids|
      invariant BestSoFar(s, ids, minute, k, 0, best, at)
    {
      for j := 0 to |s.entries|
        invariant BestSoFar(s, ids, minute, k, j, best, at)
      {
        var e := s.entries[j];
        if e.id == ids[k] && e.start <= minute {
          if best.None? || e.start > best.value.start {
            best, at := Some(e), (k, j);
          }
        }
      }
    }
    if best.None? {
      forall e
        ensures !Begun(s, ids, minute, e)
      {
        if Begun(s, ids, minute, e) {
          BegunListed(s, ids, minute, e);
        }
      }
    }
  }

  method ResolveDay(s: Schedule, ids: seq<nat>) returns (out: Prices)
    ensures forall slot :: 0 <= slot < TARIFF_SLOTS ==> Resolves(s, ids, slot * TARIFF_SLOT_MINUTES, out[slot])
  {
    var prices := new int[TARIFF_SLOTS](_ => TARIFF_NO_PRICE);
    for slot := 0 to TARIFF_SLOTS
      invariant forall k :: 0 <= k < slot ==> Resolves(s, ids, k * TARIFF_SLOT_MINUTES, prices[k])
    {
      var minute := slot * TARIFF_SLOT_MINUTES;
      var best := FindLatest(s, ids, minute);
      if best.None? || (best.value.duration >= 0 && minute >= best.value.start + best.value.duration) {
        prices[slot] := TARIFF_NO_PRICE;
      } else {
        prices[slot] := ComputeEntryPrice(s, best.value.id);
      }
      if best.Some? {
        InForceIsLatest(s, ids, minute, best.value);
      }
      assert Resolves(s, ids, minute, prices[slot]);
    }
    out := prices[..];
  }

  ghost predicate DistinctStarts(s: Schedule, ids: seq<nat>) {
    forall d, e :: d in s.entries && e in s.entries && d.id in ids && e.id in ids && d.start == e.start ==> d == e
  }

  lemma SameBegun(s: Schedule, ids: seq<nat>, t: Schedule, jds: seq<nat>, minute: int)
    requires forall e :: e in s.entries <==> e in t.entries
    requires forall id :: id in ids <==> id in jds
    ensures forall e :: Begun(s, ids, minute, e) <==> Begun(t, jds, minute, e)
  {
  }

  /** With distinct starts a slot has one possible price, and the order in which the
      day lists its entries and the cluster its table does not matter. */
  lemma OrderDoesNotMatter(s: Schedule, ids: seq<nat>, t: Schedule, jds: seq<nat>, minute: int, a: int, b: int)
    requires DistinctStarts(s, ids)
    requires forall e :: e in s.entries <==> e in t.entries
    requires forall id :: id in ids <==> id in jds
    requires s.periods == t.periods && s.components == t.components
    requires Resolves(s, ids, minute, a) && Resolves(t, jds, minute, b)
    ensures a == b
  {
    SameBegun(s, ids, t, jds, minute);
    if exists e :: Begun(s, ids, minute, e) {
      var d :| InForce(s, ids, minute, d) && a == PriceUnder(s, d, minute);
      var e :| InForce(t, jds, minute, e) && b == PriceUnder(t, e, minute);
      SameInForce(s, ids, t, jds, minute, d, e);
      SamePriceUnder(s, t, d, minute);
    }
  }

  lemma SamePriceUnder(s: Schedule, t: Schedule, e: Entry, minute: int)
    requires s.periods == t.periods && s.components == t.components
    ensures PriceUnder(s, e, minute) == PriceUnder(t, e, minute)
  {
    SamePrices(s, t, s.periods, e.id);
  }

  lemma SameInForce(s: Schedule, ids: seq<nat>, t: Schedule, jds: seq<nat>, minute: int, d: Entry, e: Entry)
    requires DistinctStarts(s, ids)
    requires forall e :: Begun(s, ids, minute, e) <==> Begun(t, jds, minute, e)
    requires InForce(s, ids, minute, d) && InForce(t, jds, minute, e)
    ensures d == e
  {
    InForceIsLatest(s, ids, minute, d);
    InForceIsLatest(t, jds, minute, e);
    LatestUnique(s, ids, minute, d, e);
  }

  lemma LatestUnique(s: Schedule, ids: seq<nat>, minute: int, d: Entry, e: Entry)
    requires DistinctStarts(s, ids) && Latest(s, ids, minute, d) && Begun(s, ids, minute, e) && e.start >= d.start
    ensures d == e
  {
    assert e.start <= d.start;
  }

  lemma {:induction false} SamePrices(s: Schedule, t: Schedule, periods: seq<Period>, id: nat)
    requires s.components == t.components
    ensures Applicable(s, periods, id) == Applicable(t, periods, id)
  {
    if periods != [] {
      SamePrices(s, t, periods[..|periods| - 1], id);
    }
  }

  /** With equal starts the order of listing does: the first listed sets the price. */
  lemma EqualStartsFollowListing(s: Schedule, minute: int, d: Entry, e: Entry)
    requires s.entries == [d, e] && d.id != e.id && d.start == e.start <= minute
    ensures Resolves(s, [d.id, e.id], minute, PriceUnder(s, d, minute))
    ensures Resolves(s, [e.id, d.id], minute, PriceUnder(s, e, minute))
  {
    assert Listed(s, [d.id, e.id], minute, 0, 0) && Listed(s, [e.id, d.id], minute, 0, 1);
    assert Begun(s, [d.id, e.id], minute, d) && Begun(s, [e.id, d.id], minute, e);
    assert InForce(s, [d.id, e.id], minute, d) && InForce(s, [e.id, d.id], minute, e);
  }

  // ---- The overlay ---------------------------------------------------------------------------

  datatype TariffDay = TariffDay(currency: nat, decimals: nat, unit: nat, price: Prices)

  function Pow10(n: nat): (p: int)
    ensures p > 0
  {
    if n == 0 then 1 else 10 * Pow10(n - 1)
  }

  /** A recorded value in the schedule's precision: exact scaling up, one truncating
      division scaling down. */
  function Rescaled(v: int, from: nat, to: nat): int {
    if from <= to then v * Pow10(to - from) else TruncDiv(v, Pow10(from - to))
  }

  lemma DivTwice(a: nat, b: int, c: int)
    requires b > 0 && c > 0
    ensures a / b / c == a / (b * c)
  {
    var q, x := a / b, a % b;
    var r, y := q / c, q % c;
    assert a == b * q + x && q == c * r + y;
    Distribute(b, c, r, y);
    RemainderBound(b, c, x, y);
    QuotientUnique(a, b * c, r, b * y + x);
  }

  lemma RemainderBound(b: int, c: int, x: int, y: int)
    requires 0 <= x < b && 0 <= y < c
    ensures 0 <= b * y + x < b * c
  {
    MulMonotone(b, 0, y);
    MulMonotone(b, y + 1, c);
    assert b * (y + 1) == b * y + b;
  }

  lemma Distribute(b: int, c: int, r: int, y: int)
    ensures b * (c * r + y) == (b * c) * r + b * y
  {
    assert b * (c * r) == (b * c) * r;
  }

  lemma MulMonotone(b: int, x: int, y: int)
    requires b >= 0 && x <= y
    ensures b * x <= b * y
  {
  }

  lemma QuotientUnique(a: int, m: int, q: int, r: int)
    requires m > 0 && a == m * q + r && 0 <= r < m
    ensures a / m == q
  {
    var p := a / m;
    var s := a % m;
    assert m * (p - q) == r - s;
    SmallMultiple(m, p - q);
  }

  lemma SmallMultiple(m: int, k: int)
    requires m > 0 && -m < m * k < m
    ensures k == 0
  {
    assert k >= 1 ==> m * (k - 1) >= 0;
    assert k <= -1 ==> m * (-1 - k) >= 0;
  }

  lemma DivNonNegative(a: nat, b: int)
    requires b > 0
    ensures a / b >= 0
  {
    if a / b < 0 {
      MulMonotone(b, a / b, -1);
    }
  }

  lemma TruncDivTwice(v: int, p: int)
    requires p > 0
    ensures TruncDiv(TruncDiv(v, p), 10) == TruncDiv(v, p * 10)
  {
    var m: nat := if v >= 0 then v else -v;
    DivTwice(m, p, 10);
    DivNonNegative(m, p);
    DivNonNegative(m, p * 10);
  }

  /** Ten more decimals off is one more truncating division by ten. */
  lemma TruncDivTen(v: int, n: nat)
    ensures TruncDiv(TruncDiv(v, Pow10(n)), 10) == TruncDiv(v, Pow10(n + 1))
  {
    TruncDivTwice(v, Pow10(n));
  }

  method ScaleUp(v: int, from: nat, to: nat) returns (r: int)
    ensures r == if from <= to then v * Pow10(to - from) else v
  {
    r := v;
    var d := from;
    while d < to
      invariant from <= d <= (if from <= to then to else from)
      invariant r == v * Pow10(d - from)
    {
      assert v * Pow10(d - from + 1) == v * Pow10(d - from) * 10;
      r := r * 10;
      d := d + 1;
    }
  }

  method ScaleDown(v: int, from: nat, to: nat) returns (r: int)
    ensures r == if to <= from then TruncDiv(v, Pow10(from - to)) else v
  {
    r := v;
    var d := to;
    while d < from
      invariant to <= d <= (if to <= from then from else to)
      invariant r == TruncDiv(v, Pow10(d - to))
    {
      TruncDivTen(v, d - to);
      r := TruncDiv(r, 10);
      d := d + 1;
    }
  }

  /** The two conversion loops, of which at most one turns. */
  method RescaleLoop(v: int, from: nat, to: nat) returns (r: int)
    ensures r == Rescaled(v, from, to)
  {
    r := ScaleUp(v, from, to);
    r := ScaleDown(r, from, to);
  }

  /** None without either file; the recorded file alone as it is; otherwise the
      schedule with exactly the recorded slots replaced. */
  method LoadDay(schedule: Option<TariffDay>, recorded: Option<TariffDay>) returns (out: Option<TariffDay>)
    ensures recorded.None? ==> out == schedule
    ensures schedule.None? ==> out == recorded
    ensures schedule.Some? && recorded.Some? ==>
      && out.Some? && out.value == schedule.value.(price := out.value.price)
      && forall i :: 0 <= i < TARIFF_SLOTS ==>
        out.value.price[i] ==
          (var v := recorded.value.price[i];
           if v == TARIFF_NO_PRICE then schedule.value.price[i]
           else Rescaled(v, recorded.value.decimals, schedule.value.decimals))
  {
    if recorded.None? {
      return schedule;
    }
    if schedule.None? {
      return recorded;
    }
    var prices: seq<int> := schedule.value.price;
    for i := 0 to TARIFF_SLOTS
      invariant |prices| == TARIFF_SLOTS
      invariant forall k :: i <= k < TARIFF_SLOTS ==> prices[k] == schedule.value.price[k]
      invariant forall k :: 0 <= k < i ==>
        prices[k] == if recorded.value.price[k] == TARIFF_NO_PRICE then schedule.value.price[k]
                     else Rescaled(recorded.value.price[k], recorded.value.decimals, schedule.value.decimals)
    {
      var v := recorded.value.price[i];
      if v != TARIFF_NO_PRICE {
        var r := RescaleLoop(v, recorded.value.decimals, schedule.value.decimals);
        prices := prices[i := r];
      }
    }
    out := Some(schedule.value.(price := prices));
  }

  /** Scaling up keeps the amount of money; scaling down loses less than one unit of
      the schedule's last decimal, towards zero. */
  lemma RescaledMoney(v: int, from: nat, to: nat)
    ensures from <= to ==> Rescaled(v, from, to) * Pow10(from) == v * Pow10(to)
    ensures from > to ==>
      && (v >= 0 ==> 0 <= v - Rescaled(v, from, to) * Pow10(from - to) < Pow10(from - to))
      && (v < 0 ==> 0 <= Rescaled(v, from, to) * Pow10(from - to) - v < Pow10(from - to))
  {
    if from <= to {
      PowAdds(to - from, from);
      Regrouped(v, Pow10(to - from), Pow10(from));
    } else {
      TruncationLoss(v, Pow10(from - to));
    }
  }

  lemma Regrouped(a: int, b: int, c: int)
    ensures a * b * c == a * (b * c)
  {
  }

  lemma TruncationLoss(v: int, p: int)
    requires p > 0
    ensures v >= 0 ==> 0 <= v - TruncDiv(v, p) * p < p
    ensures v < 0 ==> 0 <= TruncDiv(v, p) * p - v < p
  {
    var u := if v >= 0 then v else -v;
    assert u == p * (u / p) + u % p;
  }

  lemma {:induction false} PowAdds(a: nat, b: nat)
    ensures Pow10(a) * Pow10(b) == Pow10(a + b)
  {
    if a > 0 {
      PowAdds(a - 1, b);
      Regrouped(10, Pow10(a - 1), Pow10(b));
    }
  }
}
