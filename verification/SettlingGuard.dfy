/** When deriving the flows twice is deriving them once, decided on the edges as they are
    before. */
module SettlingGuard {
  import opened Options
  import opened Sums
  import opened Topology
  import opened DerivedFlows
  import opened WiringLoops
  import opened FlowBalance

  // ---- The handle behind a remainder ----------------------------------------------------------

  /** Where the last entry for an id stands; n when there is none. */
  function LastEntry(entries: seq<Option<Entry>>, id: string, n: nat): (m: nat)
    requires n <= |entries|
    ensures m <= n && (m < n ==> entries[m].Some? && entries[m].value.id == id)
    ensures m == n ==> forall j :: 0 <= j < n && entries[j].Some? ==> entries[j].value.id != id
  {
    if n == 0 then 0
    else if entries[n - 1].Some? && entries[n - 1].value.id == id then n - 1
    else
      var m := LastEntry(entries, id, n - 1);
      if m == n - 1 then n else m
  }

  lemma {:induction false} LastEntryWins(entries: seq<Option<Entry>>, id: string, n: nat)
    requires n <= |entries|
    ensures var m := LastEntry(entries, id, n);
            && (id in Remainders(entries, n) <==> m < n)
            && (m < n ==> Remainders(entries, n)[id] == entries[m].value.kw)
  {
    if n > 0 {
      LastEntryWins(entries, id, n - 1);
    }
  }

  /** The last handle, in order of appearance, on which the edge with this id is alone and
      metered. */
  function RemainderHandle(edges: seq<Edge>, subs: set<string>, id: string): (key: Option<string>)
    ensures key.Some? ==> SoleIs(edges, subs, key.value, id)
  {
    var order := KeyOrder(edges, subs, |edges|);
    var m := LastEntry(Entries(edges, subs, AllTotals(edges, subs), order), id, |order|);
    if m < |order| then Some(order[m]) else None
  }

  lemma HandleRecords(edges: seq<Edge>, subs: set<string>, id: string)
    ensures var totals := AllTotals(edges, subs);
            var key, remainders := RemainderHandle(edges, subs, id), AllRemainders(edges, subs, totals);
            && (id in remainders <==> key.Some?)
            && (key.Some? ==> Some(Entry(id, remainders[id])) == EntryFor(edges, subs, totals, key.value))
  {
    var order := KeyOrder(edges, subs, |edges|);
    LastEntryWins(Entries(edges, subs, AllTotals(edges, subs), order), id, |order|);
  }

  /** What the boards on a handle add to the flow of the edge beside them. */
  function Beside(edges: seq<Edge>, subs: set<string>, key: string): real
    requires Sole(edges, subs, key)
  {
    var drawn := Drawn(edges, subs, AllTotals(edges, subs), key, |edges|);
    if SoleSibling(edges, subs, key).atSource then drawn else -drawn
  }

  /** On every shared handle with one other, metered edge: the boards' feeds and that edge
      take away what the meter says exactly when the edge's remainder is this handle's,
      or another handle's of the same size. */
  lemma SharedHandleExactly(edges: seq<Edge>, subs: set<string>, key: string)
    requires Shared(edges, subs, key, |edges|) && Sole(edges, subs, key)
    ensures var s, totals := SoleSibling(edges, subs, key), AllTotals(edges, subs);
            var handle := RemainderHandle(edges, subs, s.id);
            && handle.Some?
            && (AwayFrom(Feeds(edges, subs), subs, key, |edges|) == MeteredAway(s) <==>
                 RemainderOf(SoleSibling(edges, subs, handle.value), Drawn(edges, subs, totals, handle.value, |edges|))
                   == RemainderOf(s, Drawn(edges, subs, totals, key, |edges|)))
  {
    var s, totals, order := SoleSibling(edges, subs, key), AllTotals(edges, subs), KeyOrder(edges, subs, |edges|);
    KeyIsShared(edges, subs, key, |edges|);
    var m :| 0 <= m < |order| && order[m] == key;
    var entries := Entries(edges, subs, totals, order);
    assert entries[m].Some? && entries[m].value.id == s.id;
    HandleRecords(edges, subs, s.id);
    var remainders := AllRemainders(edges, subs, totals);
    AllPrefixes(edges, subs, key, SiblingsOn(edges, subs, key, |edges|));
    AwayInAll(edges, Feeds(edges, subs), subs, totals, remainders, key, SiblingsOn(edges, subs, key, |edges|),
              RemainderAway(s, remainders[s.id]));
  }

  /** By how much deriving changes the flow of an edge that feeds no board. */
  function Shift(edges: seq<Edge>, subs: set<string>, e: Edge): real {
    var key := RemainderHandle(edges, subs, e.id);
    if key.Some? then SoleSibling(edges, subs, key.value).metered.value + Beside(edges, subs, key.value) - KwOf(e)
    else 0.0
  }

  function Shifted(edges: seq<Edge>, subs: set<string>, e: Edge): Total {
    Total(KwOf(e) + Shift(edges, subs, e), e.idle == Some(true))
  }

  lemma ShiftedReading(edges: seq<Edge>, subs: set<string>, i: nat)
    requires i < |edges| && edges[i].target !in subs && !IsUnallocated(edges[i])
    ensures Reading(Derived(edges, subs)[i]) == Shifted(edges, subs, edges[i])
  {
    var totals, e := AllTotals(edges, subs), edges[i];
    HandleRecords(edges, subs, e.id);
    assert Derived(edges, subs)[i] == Fed(e, subs, totals, AllRemainders(edges, subs, totals));
  }

  // ---- The boards ---------------------------------------------------------------------------

  function EdgeShift(edges: seq<Edge>, subs: set<string>, b: string, e: Edge): real {
    if e.source == b && e.target !in subs then Shift(edges, subs, e) else 0.0
  }

  /** The shifts of board b's own circuits, edge by edge. */
  function BoardShifts(edges: seq<Edge>, subs: set<string>, b: string): (v: seq<real>)
    ensures |v| == |edges| && forall i :: 0 <= i < |edges| ==> v[i] == EdgeShift(edges, subs, b, edges[i])
  {
    seq(|edges|, i requires 0 <= i < |edges| => EdgeShift(edges, subs, b, edges[i]))
  }

  /** What an edge of a board carries to its total, before or after deriving. */
  function Carried(edges: seq<Edge>, subs: set<string>, e: Edge, derived: bool): Total {
    if e.target in subs then Lookup(KnownTo(edges, subs, e.source), e.target)
    else if derived then Shifted(edges, subs, e)
    else Reading(e)
  }

  /** All of board b's circuits are quiet. */
  ghost predicate Rests(edges: seq<Edge>, subs: set<string>, b: string, derived: bool) {
    forall i :: 0 <= i < |edges| && edges[i].source == b ==> Quiet(Carried(edges, subs, edges[i], derived))
  }

  /** No unallocated edge leads to or from a board. */
  predicate UnallocatedApart(edges: seq<Edge>, subs: set<string>) {
    forall i :: 0 <= i < |edges| && IsUnallocated(edges[i]) ==> edges[i].source !in subs && edges[i].target !in subs
  }

  lemma {:induction false} CircuitsRest(edges: seq<Edge>, subs: set<string>, totals: Totals, b: string, k: nat)
    requires k <= |edges|
    ensures Circuits(edges, subs, totals, b, k).idle <==>
            forall i :: 0 <= i < k && edges[i].source == b ==> Quiet(FlowOf(subs, totals, b, edges[i]))
  {
    if k > 0 {
      CircuitsRest(edges, subs, totals, b, k - 1);
    }
  }

  function FlowsOf(edges: seq<Edge>, subs: set<string>, totals: Totals, b: string): (v: seq<real>)
    ensures |v| == |edges| && forall i :: 0 <= i < |edges| ==> v[i] == FlowOf(subs, totals, b, edges[i]).kw
  {
    seq(|edges|, i requires 0 <= i < |edges| => FlowOf(subs, totals, b, edges[i]).kw)
  }

  lemma {:induction false} CircuitsAddUp(edges: seq<Edge>, subs: set<string>, totals: Totals, b: string, k: nat)
    requires k <= |edges|
    ensures Circuits(edges, subs, totals, b, k).kw == Prefix(FlowsOf(edges, subs, totals, b), k)
  {
    if k > 0 {
      CircuitsAddUp(edges, subs, totals, b, k - 1);
    }
  }

  lemma FlowShifts(edges: seq<Edge>, subs: set<string>, b: string, i: nat)
    requires i < |edges| && b in subs && UnallocatedApart(edges, subs)
    ensures FlowOf(subs, KnownTo(edges, subs, b), b, Derived(edges, subs)[i]).kw
         == FlowOf(subs, KnownTo(edges, subs, b), b, edges[i]).kw + EdgeShift(edges, subs, b, edges[i])
  {
    DerivedFlow(edges, subs, b, i);
  }

  lemma CircuitsShift(edges: seq<Edge>, subs: set<string>, b: string)
    requires b in subs && UnallocatedApart(edges, subs)
    ensures Circuits(Derived(edges, subs), subs, KnownTo(edges, subs, b), b, |edges|).kw
         == Circuits(edges, subs, KnownTo(edges, subs, b), b, |edges|).kw + Sums.Total(BoardShifts(edges, subs, b))
  {
    var once, totals := Derived(edges, subs), KnownTo(edges, subs, b);
    CircuitsAddUp(edges, subs, totals, b, |edges|);
    CircuitsAddUp(once, subs, totals, b, |edges|);
    var before, after := FlowsOf(edges, subs, totals, b), FlowsOf(once, subs, totals, b);
    var shifts := BoardShifts(edges, subs, b);
    forall i | 0 <= i < |edges|
      ensures after[i] == before[i] + shifts[i]
    {
      FlowShifts(edges, subs, b, i);
    }
    PrefixAdd(before, shifts, after, |edges|);
  }

  /** An edge of board b after deriving. */
  lemma DerivedFlow(edges: seq<Edge>, subs: set<string>, b: string, i: nat)
    requires i < |edges| && b in subs && UnallocatedApart(edges, subs)
    ensures var e, d := edges[i], Derived(edges, subs)[i];
            && d.source == e.source && d.target == e.target
            && (e.source == b ==> FlowOf(subs, KnownTo(edges, subs, b), b, d) == Carried(edges, subs, e, true))
            && (e.source == b ==> FlowOf(subs, KnownTo(edges, subs, b), b, e) == Carried(edges, subs, e, false))
  {
    DerivedSameWiring(edges, subs);
    assert Wiring(edges[i]) == Wiring(Derived(edges, subs)[i]);
    if edges[i].source == b && edges[i].target !in subs {
      ShiftedReading(edges, subs, i);
    }
  }

  lemma RestsAsCircuits(edges: seq<Edge>, subs: set<string>, b: string)
    requires b in subs && UnallocatedApart(edges, subs)
    ensures var totals := KnownTo(edges, subs, b);
            && (Circuits(edges, subs, totals, b, |edges|).idle <==> Rests(edges, subs, b, false))
            && (Circuits(Derived(edges, subs), subs, totals, b, |edges|).idle <==> Rests(edges, subs, b, true))
  {
    var totals, once := KnownTo(edges, subs, b), Derived(edges, subs);
    CircuitsRest(edges, subs, totals, b, |edges|);
    CircuitsRest(once, subs, totals, b, |edges|);
    forall i | 0 <= i < |edges|
      ensures once[i].source == edges[i].source
      ensures edges[i].source == b ==> FlowOf(subs, totals, b, once[i]) == Carried(edges, subs, edges[i], true)
      ensures edges[i].source == b ==> FlowOf(subs, totals, b, edges[i]) == Carried(edges, subs, edges[i], false)
    {
      DerivedFlow(edges, subs, b, i);
    }
  }

  /** The shifts on board b cancel, and leave it idle or not as it was. */
  ghost predicate Undisturbed(edges: seq<Edge>, subs: set<string>, b: string) {
    Sums.Total(BoardShifts(edges, subs, b)) == 0.0 && (Rests(edges, subs, b, true) <==> Rests(edges, subs, b, false))
  }

  lemma UndisturbedExactly(edges: seq<Edge>, subs: set<string>, b: string)
    requires b in subs && UnallocatedApart(edges, subs)
    ensures Undisturbed(edges, subs, b) <==> BoardKept(edges, subs, b)
  {
    CircuitsShift(edges, subs, b);
    RestsAsCircuits(edges, subs, b);
  }

  /** On every wiring, loops included, and whatever is stamped on it: deriving twice is
      deriving once exactly when no fed board is disturbed. */
  lemma SettlesByShift(edges: seq<Edge>, subs: set<string>)
    requires UnallocatedApart(edges, subs)
    ensures Derived(Derived(edges, subs), subs) == Derived(edges, subs)
            <==> forall i :: 0 <= i < |edges| && edges[i].target in subs ==> Undisturbed(edges, subs, edges[i].target)
  {
    SettlesExactly(edges, subs);
    forall i | 0 <= i < |edges| && edges[i].target in subs
      ensures Undisturbed(edges, subs, edges[i].target) <==> BoardKept(edges, subs, edges[i].target)
    {
      UndisturbedExactly(edges, subs, edges[i].target);
    }
  }

  // ---- Fresh readings -------------------------------------------------------------------------

  /** Every edge that will carry a remainder carries its meter's reading. */
  ghost predicate Fresh(edges: seq<Edge>, subs: set<string>) {
    forall i :: 0 <= i < |edges| ==>
      var key := RemainderHandle(edges, subs, edges[i].id);
      key.Some? ==> KwOf(edges[i]) == SoleSibling(edges, subs, key.value).metered.value
  }

  ghost predicate DistinctIds(edges: seq<Edge>) {
    forall i, j :: 0 <= i < j < |edges| ==> edges[i].id != edges[j].id
  }

  lemma {:induction false} SiblingIsEdge(edges: seq<Edge>, subs: set<string>, key: string, k: nat, m: nat)
    returns (j: nat)
    requires k <= |edges| && m < |SiblingsOn(edges, subs, key, k)|
    ensures j < k
    ensures var s := SiblingsOn(edges, subs, key, k)[m]; s.id == edges[j].id && s.metered == edges[j].metered
  {
    if m < |SiblingsOn(edges, subs, key, k - 1)| {
      j := SiblingIsEdge(edges, subs, key, k - 1, m);
    } else {
      j := k - 1;
    }
  }

  /** As when every metered edge has just been stamped with its reading. */
  lemma StampedFresh(edges: seq<Edge>, subs: set<string>)
    requires DistinctIds(edges)
    requires forall e :: e in edges && e.metered.Some? ==> e.kw == e.metered
    ensures Fresh(edges, subs)
  {
    forall i | 0 <= i < |edges|
      ensures var key := RemainderHandle(edges, subs, edges[i].id);
              key.Some? ==> KwOf(edges[i]) == SoleSibling(edges, subs, key.value).metered.value
    {
      var key := RemainderHandle(edges, subs, edges[i].id);
      if key.Some? {
        SoleIsStamped(edges, subs, key.value, i);
      }
    }
  }

  lemma SoleIsStamped(edges: seq<Edge>, subs: set<string>, key: string, i: nat)
    requires DistinctIds(edges) && i < |edges| && SoleIs(edges, subs, key, edges[i].id)
    requires edges[i].metered.Some? ==> edges[i].kw == edges[i].metered
    ensures KwOf(edges[i]) == SoleSibling(edges, subs, key).metered.value
  {
    var j := SiblingIsEdge(edges, subs, key, |edges|, 0);
    assert edges[j].id == edges[i].id;
  }

  /** What boards draw beside the edge: all that deriving changes then. */
  function DrawnBeside(edges: seq<Edge>, subs: set<string>, e: Edge): real {
    var key := RemainderHandle(edges, subs, e.id);
    if key.Some? then Beside(edges, subs, key.value) else 0.0
  }

  function EdgeDrawn(edges: seq<Edge>, subs: set<string>, b: string, e: Edge): real {
    if e.source == b && e.target !in subs then DrawnBeside(edges, subs, e) else 0.0
  }

  /** The draws beside board b's own circuits, edge by edge. */
  function BoardDraws(edges: seq<Edge>, subs: set<string>, b: string): (v: seq<real>)
    ensures |v| == |edges| && forall i :: 0 <= i < |edges| ==> v[i] == EdgeDrawn(edges, subs, b, edges[i])
  {
    seq(|edges|, i requires 0 <= i < |edges| => EdgeDrawn(edges, subs, b, edges[i]))
  }

  lemma FreshShifts(edges: seq<Edge>, subs: set<string>, b: string)
    requires Fresh(edges, subs)
    ensures BoardShifts(edges, subs, b) == BoardDraws(edges, subs, b)
  {
    forall i | 0 <= i < |edges|
      ensures EdgeShift(edges, subs, b, edges[i]) == EdgeDrawn(edges, subs, b, edges[i])
    {
      FreshShift(edges, subs, i);
    }
  }

  lemma FreshShift(edges: seq<Edge>, subs: set<string>, i: nat)
    requires i < |edges| && Fresh(edges, subs)
    ensures Shift(edges, subs, edges[i]) == DrawnBeside(edges, subs, edges[i])
  {
  }

  /** On freshly stamped edges: exactly when for each fed board the draws
      beside its circuits cancel and leave its idle flag as it was. */
  lemma SettlesWhenFresh(edges: seq<Edge>, subs: set<string>)
    requires UnallocatedApart(edges, subs) && Fresh(edges, subs)
    ensures Derived(Derived(edges, subs), subs) == Derived(edges, subs)
            <==> forall i :: 0 <= i < |edges| && edges[i].target in subs ==>
                   && Sums.Total(BoardDraws(edges, subs, edges[i].target)) == 0.0
                   && (Rests(edges, subs, edges[i].target, true) <==> Rests(edges, subs, edges[i].target, false))
  {
    SettlesByShift(edges, subs);
    forall b
      ensures BoardShifts(edges, subs, b) == BoardDraws(edges, subs, b)
    {
      FreshShifts(edges, subs, b);
    }
  }

  // ---- Boards that only consume ----------------------------------------------------------------

  /** No circuit of a board feeds power back. */
  predicate OnlyConsume(edges: seq<Edge>, subs: set<string>) {
    forall i :: 0 <= i < |edges| && edges[i].source in subs && edges[i].target !in subs ==> KwOf(edges[i]) <= 0.0
  }

  /** Edge i leaves a fed board, other than for a nested one, and carries a remainder. */
  predicate RemainderLeaves(edges: seq<Edge>, subs: set<string>, i: nat)
    requires i < |edges|
  {
    && edges[i].source in subs && IsFed(edges, edges[i].source) && edges[i].target !in subs
    && RemainderHandle(edges, subs, edges[i].id).Some?
  }

  function HandleOf(edges: seq<Edge>, subs: set<string>, i: nat): (key: string)
    requires i < |edges| && RemainderLeaves(edges, subs, i)
    ensures SoleIs(edges, subs, key, edges[i].id)
  {
    RemainderHandle(edges, subs, edges[i].id).value
  }

  /** It does so at the board's own handle. */
  predicate AtSource(edges: seq<Edge>, subs: set<string>) {
    forall i :: 0 <= i < |edges| && RemainderLeaves(edges, subs, i) ==>
      SoleSibling(edges, subs, HandleOf(edges, subs, i)).atSource
  }

  lemma {:induction false} PrefixNonPositive(v: seq<real>, n: nat)
    requires n <= |v| && forall i :: 0 <= i < n ==> v[i] <= 0.0
    ensures Prefix(v, n) <= 0.0
  {
    if n > 0 {
      PrefixNonPositive(v, n - 1);
    }
  }

  lemma {:induction false} KnownConsume(edges: seq<Edge>, subs: set<string>, n: nat)
    requires OnlyConsume(edges, subs) && n <= |TotalOrder(edges, subs)|
    ensures forall j :: 0 <= j < n ==> Lookup(AllTotals(edges, subs), TotalOrder(edges, subs)[j]).kw <= 0.0
  {
    if n > 0 {
      KnownConsume(edges, subs, n - 1);
      var b := TotalOrder(edges, subs)[n - 1];
      var totals := KnownTo(edges, subs, b);
      TotalledAreFed(edges, subs, b);
      forall i | 0 <= i < |edges|
        ensures FlowOf(subs, totals, b, edges[i]).kw <= 0.0
      {
      }
      TotalOnEveryWiring(edges, subs, b);
      CircuitsAddUp(edges, subs, totals, b, |edges|);
      PrefixNonPositive(FlowsOf(edges, subs, totals, b), |edges|);
    }
  }

  lemma TotalsConsume(edges: seq<Edge>, subs: set<string>, b: string)
    requires OnlyConsume(edges, subs) && IsFedBoard(edges, subs, b)
    ensures Lookup(AllTotals(edges, subs), b).kw <= 0.0
  {
    KnownConsume(edges, subs, |TotalOrder(edges, subs)|);
    TotalledAreFed(edges, subs, b);
  }

  lemma {:induction false} DrawnNonNegative(edges: seq<Edge>, subs: set<string>, totals: Totals, key: string, k: nat)
    requires k <= |edges|
    requires forall i :: 0 <= i < |edges| && edges[i].target in subs ==> Lookup(totals, edges[i].target).kw <= 0.0
    ensures Drawn(edges, subs, totals, key, k) >= 0.0
  {
    if k > 0 {
      DrawnNonNegative(edges, subs, totals, key, k - 1);
    }
  }

  /** No board draws on the handle whose remainder edge i carries away. */
  predicate Undrawn(edges: seq<Edge>, subs: set<string>, i: nat)
    requires i < |edges|
  {
    RemainderLeaves(edges, subs, i) ==>
      Drawn(edges, subs, AllTotals(edges, subs), HandleOf(edges, subs, i), |edges|) == 0.0
  }

  /** The draws beside a fed board's circuits are not negative, and cancel exactly when
      there are none. */
  lemma DrawsCancelExactly(edges: seq<Edge>, subs: set<string>, b: string)
    requires OnlyConsume(edges, subs) && AtSource(edges, subs)
    requires b in subs && IsFed(edges, b)
    ensures Sums.Total(BoardDraws(edges, subs, b)) == 0.0 <==>
            forall i :: 0 <= i < |edges| && edges[i].source == b ==> Undrawn(edges, subs, i)
  {
    var totals, draws := AllTotals(edges, subs), BoardDraws(edges, subs, b);
    forall i | 0 <= i < |edges| && edges[i].target in subs
      ensures Lookup(totals, edges[i].target).kw <= 0.0
    {
      assert IsFed(edges, edges[i].target);
      TotalsConsume(edges, subs, edges[i].target);
    }
    forall i | 0 <= i < |edges|
      ensures draws[i] >= 0.0
      ensures draws[i] == 0.0 <==> (edges[i].source == b ==> Undrawn(edges, subs, i))
    {
      if edges[i].source == b && RemainderLeaves(edges, subs, i) {
        DrawnNonNegative(edges, subs, totals, HandleOf(edges, subs, i), |edges|);
      }
    }
    PrefixZeroExactly(draws, |edges|);
  }

  /** Boards that only consume, on freshly stamped edges: deriving twice is
      deriving once exactly when nothing is drawn on any handle whose remainder leaves a
      fed board. */
  lemma SettlesWhenConsuming(edges: seq<Edge>, subs: set<string>)
    requires UnallocatedApart(edges, subs) && Fresh(edges, subs)
    requires OnlyConsume(edges, subs) && AtSource(edges, subs)
    ensures Derived(Derived(edges, subs), subs) == Derived(edges, subs)
            <==> forall i :: 0 <= i < |edges| ==> Undrawn(edges, subs, i)
  {
    SettlesWhenFresh(edges, subs);
    if forall i :: 0 <= i < |edges| ==> Undrawn(edges, subs, i) {
      forall f | 0 <= f < |edges| && edges[f].target in subs
        ensures Sums.Total(BoardDraws(edges, subs, edges[f].target)) == 0.0
        ensures Rests(edges, subs, edges[f].target, true) <==> Rests(edges, subs, edges[f].target, false)
      {
        assert IsFed(edges, edges[f].target);
        DrawsCancelExactly(edges, subs, edges[f].target);
        NoDrawRests(edges, subs, edges[f].target);
      }
    } else {
      var i :| 0 <= i < |edges| && !Undrawn(edges, subs, i);
      DrawsCancelExactly(edges, subs, edges[i].source);
      var f :| 0 <= f < |edges| && edges[f].target == edges[i].source;
      assert Sums.Total(BoardDraws(edges, subs, edges[f].target)) != 0.0;
    }
  }

  lemma NoDrawRests(edges: seq<Edge>, subs: set<string>, b: string)
    requires b in subs && IsFed(edges, b) && Fresh(edges, subs)
    requires forall i :: 0 <= i < |edges| ==> Undrawn(edges, subs, i)
    ensures Rests(edges, subs, b, true) <==> Rests(edges, subs, b, false)
  {
    forall i | 0 <= i < |edges| && edges[i].source == b
      ensures Carried(edges, subs, edges[i], true) == Carried(edges, subs, edges[i], false)
    {
      if edges[i].target !in subs {
        FreshShift(edges, subs, i);
        assert Undrawn(edges, subs, i);
      }
    }
  }
}
