/** What the derived flows are for: nothing is lost behind a shared meter or at the
    consumer unit, and deriving them again changes nothing unless a remainder leaves a
    sub-board. */
module FlowBalance {
  import opened Options
  import opened Sums
  import opened Topology
  import opened DerivedFlows
  import opened WiringLoops

  // ---- The consumer unit ---------------------------------------------------------------

  /** What the first k power edges bring into the consumer unit, the unallocated included. */
  function NetIntake(edges: seq<Edge>, k: nat): real
    requires k <= |edges|
  {
    if k == 0 then 0.0
    else
      var e := edges[k - 1];
      NetIntake(edges, k - 1) + if e.targetHandle == "tariff" || e.sourceHandle == "tariff" then 0.0 else BroughtIn(e)
  }

  /** Power that an edge brings into the consumer unit. */
  function BroughtIn(e: Edge): real {
    if e.kw.None? then 0.0
    else if e.target == "consumer_unit" then -e.kw.value
    else if e.source == "consumer_unit" then e.kw.value
    else 0.0
  }

  /** Edge u is the one edge to the unallocated load. */
  predicate UnallocatedAt(edges: seq<Edge>, u: nat) {
    && u < |edges|
    && (forall i :: 0 <= i < |edges| ==> (IsUnallocated(edges[i]) <==> i == u))
    && edges[u].source == CONSUMER_UNIT && edges[u].target != CONSUMER_UNIT
    && edges[u].targetHandle != "tariff" && edges[u].sourceHandle != "tariff"
  }

  lemma {:induction false} NetIntakeUpTo(edges: seq<Edge>, u: nat, k: nat)
    requires UnallocatedAt(edges, u) && k <= |edges|
    ensures NetIntake(Unallocated(edges), k)
         == RawKw(edges, k) - if u < k then Positive(RawKw(edges, |edges|)) else 0.0
  {
    if k > 0 {
      NetIntakeUpTo(edges, u, k - 1);
    }
  }

  /** The consumer unit balances exactly when the metered circuits take no more than
      comes in; otherwise the shortfall is what they take too much. */
  lemma ConsumerUnitBalances(edges: seq<Edge>, u: nat)
    requires UnallocatedAt(edges, u)
    ensures var raw := RawKw(edges, |edges|);
            && NetIntake(Unallocated(edges), |edges|) == (if raw < 0.0 then raw else 0.0)
            && (NetIntake(Unallocated(edges), |edges|) == 0.0 <==> raw >= 0.0)
            && KwOf(Unallocated(edges)[u]) <= 0.0 && Unallocated(edges)[u].raw == Some(raw)
            && forall i :: 0 <= i < |edges| && i != u ==> Unallocated(edges)[i] == edges[i]
  {
    NetIntakeUpTo(edges, u, |edges|);
  }

  // ---- A shared handle -------------------------------------------------------------------

  /** What an edge takes away from a handle. */
  function AwayOf(e: Edge, subs: set<string>, key: string): real {
    (if e.target !in subs && TargetKey(e) == key then KwOf(e) else 0.0)
      - (if SourceKey(e) == key then KwOf(e) else 0.0)
  }

  /** What the first k edges take away from a handle. */
  function AwayFrom(edges: seq<Edge>, subs: set<string>, key: string, k: nat): real
    requires k <= |edges|
  {
    if k == 0 then 0.0
    else AwayFrom(edges, subs, key, k - 1) + AwayOf(edges[k - 1], subs, key)
  }

  /** What the meter on a handle says leaves it. */
  function MeteredAway(s: Sibling): real
    requires s.metered.Some?
  {
    if s.atSource then -s.metered.value else s.metered.value
  }

  predicate SoleIs(edges: seq<Edge>, subs: set<string>, key: string, id: string) {
    Sole(edges, subs, key) && SoleSibling(edges, subs, key).id == id
  }

  /** The edge is the one sibling of no other shared handle. */
  ghost predicate SoleOnlyOn(edges: seq<Edge>, subs: set<string>, key: string)
    requires Sole(edges, subs, key)
  {
    forall other :: other != key && Shared(edges, subs, other, |edges|) ==>
      !SoleIs(edges, subs, other, SoleSibling(edges, subs, key).id)
  }

  lemma {:induction false} EntryRecorded(entries: seq<Option<Entry>>, e: Entry, m: nat, n: nat)
    requires m < n <= |entries| && entries[m] == Some(e)
    requires forall i :: 0 <= i < |entries| ==> entries[i].None? || entries[i].value.id != e.id || entries[i].value == e
    ensures e.id in Remainders(entries, n) && Remainders(entries, n)[e.id] == e.kw
  {
    if m < n - 1 {
      EntryRecorded(entries, e, m, n - 1);
    }
  }

  lemma PrefixExtends<T>(a: seq<T>, b: seq<T>, more: seq<T>)
    requires a <= b
    ensures a <= b + more
  {
  }

  /** The first m edges give the handle these siblings first. */
  ghost predicate Finds(edges: seq<Edge>, subs: set<string>, key: string, found: seq<Sibling>, m: nat)
    requires m <= |edges|
  {
    found <= SiblingsOn(edges, subs, key, m)
  }

  lemma SiblingsStep(edges: seq<Edge>, subs: set<string>, key: string, found: seq<Sibling>, m: nat)
    requires m < |edges| && Finds(edges, subs, key, found, m)
    ensures Finds(edges, subs, key, found, m + 1)
  {
    PrefixExtends(found, SiblingsOn(edges, subs, key, m),
                  if edges[m].target in subs then [] else SiblingsFrom(edges[m], key));
  }

  lemma {:induction false} SiblingsPrefix(edges: seq<Edge>, subs: set<string>, key: string, found: seq<Sibling>,
                                          k: nat, m: nat)
    requires k <= m <= |edges| && found == SiblingsOn(edges, subs, key, k)
    ensures Finds(edges, subs, key, found, m)
  {
    if k < m {
      SiblingsPrefix(edges, subs, key, found, k, m - 1);
      SiblingsStep(edges, subs, key, found, m - 1);
    }
  }

  function RemainderAway(s: Sibling, kw: real): real {
    if s.atSource then -kw else kw
  }

  /** A feed takes its board's total away, a lone sibling its remainder, others nothing. */
  lemma AwayOfFed(e: Edge, subs: set<string>, totals: Totals, remainders: map<string, real>, key: string)
    ensures var away := AwayOf(Fed(e, subs, totals, remainders), subs, key);
            && (e.target in subs ==> away == if SourceKey(e) == key then -Lookup(totals, e.target).kw else 0.0)
            && (e.target !in subs && SiblingsFrom(e, key) == [] ==> away == 0.0)
            && (e.target !in subs && |SiblingsFrom(e, key)| == 1 && e.id in remainders ==>
                 away == RemainderAway(SiblingsFrom(e, key)[0], remainders[e.id]))
  {
    var after := Fed(e, subs, totals, remainders);
    assert SourceKey(after) == SourceKey(e) && TargetKey(after) == TargetKey(e) && after.target == e.target;
  }

  function OnceFound(found: seq<Sibling>, away: real): real {
    if found == [] then 0.0 else away
  }

  function SiblingsAt(e: Edge, subs: set<string>, key: string): seq<Sibling> {
    if e.target in subs then [] else SiblingsFrom(e, key)
  }

  function DrawnAt(e: Edge, subs: set<string>, totals: Totals, key: string): real {
    if e.target in subs && SourceKey(e) == key then Lookup(totals, e.target).kw else 0.0
  }

  lemma Unfolds(edges: seq<Edge>, subs: set<string>, totals: Totals, key: string, k: nat)
    requires k < |edges|
    ensures SiblingsOn(edges, subs, key, k + 1) == SiblingsOn(edges, subs, key, k) + SiblingsAt(edges[k], subs, key)
    ensures Drawn(edges, subs, totals, key, k + 1)
         == Drawn(edges, subs, totals, key, k) - DrawnAt(edges[k], subs, totals, key)
  {
  }

  lemma AwayStep(e: Edge, subs: set<string>, totals: Totals, remainders: map<string, real>, key: string,
                 before: seq<Sibling>, now: seq<Sibling>, all: seq<Sibling>, left: real)
    requires |all| == 1 && all[0].id in remainders && left == RemainderAway(all[0], remainders[all[0].id])
    requires now == before + SiblingsAt(e, subs, key) && now <= all
    ensures AwayOf(Fed(e, subs, totals, remainders), subs, key)
         == OnceFound(now, left) - OnceFound(before, left) - DrawnAt(e, subs, totals, key)
  {
    AwayOfFed(e, subs, totals, remainders, key);
    SoleStep(before, SiblingsAt(e, subs, key), all);
  }

  /** Drawn by boards, and left for the lone sibling once it is found. */
  function DrawnAndLeft(edges: seq<Edge>, subs: set<string>, totals: Totals, key: string, left: real, k: nat): real
    requires k <= |edges|
  {
    Drawn(edges, subs, totals, key, k) + OnceFound(SiblingsOn(edges, subs, key, k), left)
  }

  /** What edge k takes away is the change in that. */
  lemma AwayNext(edges: seq<Edge>, subs: set<string>, totals: Totals, remainders: map<string, real>, key: string,
                 all: seq<Sibling>, left: real, k: nat)
    requires k < |edges| && SiblingsOn(edges, subs, key, k + 1) <= all
    requires |all| == 1 && all[0].id in remainders && left == RemainderAway(all[0], remainders[all[0].id])
    ensures AwayOf(Fed(edges[k], subs, totals, remainders), subs, key)
         == DrawnAndLeft(edges, subs, totals, key, left, k + 1) - DrawnAndLeft(edges, subs, totals, key, left, k)
  {
    Unfolds(edges, subs, totals, key, k);
    AwayStep(edges[k], subs, totals, remainders, key,
             SiblingsOn(edges, subs, key, k), SiblingsOn(edges, subs, key, k + 1), all, left);
  }

  ghost predicate Steps(fed: seq<Edge>, subs: set<string>, key: string, g: seq<real>, i: nat) {
    i < |fed| == |g| - 1 && AwayOf(fed[i], subs, key) == g[i + 1] - g[i]
  }

  lemma {:induction false} AwayTelescopes(fed: seq<Edge>, subs: set<string>, key: string, g: seq<real>, k: nat)
    requires k <= |fed| == |g| - 1 && g[0] == 0.0
    requires forall i :: 0 <= i < |fed| ==> Steps(fed, subs, key, g, i)
    ensures AwayFrom(fed, subs, key, k) == g[k]
  {
    if k > 0 {
      AwayTelescopes(fed, subs, key, g, k - 1);
      assert Steps(fed, subs, key, g, k - 1);
    }
  }

  function AwaySums(edges: seq<Edge>, subs: set<string>, totals: Totals, key: string, left: real): (g: seq<real>)
    ensures |g| == |edges| + 1
    ensures forall k :: 0 <= k <= |edges| ==> g[k] == DrawnAndLeft(edges, subs, totals, key, left, k)
  {
    seq(|edges| + 1, k requires 0 <= k < |edges| + 1 => DrawnAndLeft(edges, subs, totals, key, left, k))
  }

  lemma AwayStepsAt(edges: seq<Edge>, fed: seq<Edge>, subs: set<string>, totals: Totals, remainders: map<string, real>,
                    key: string, all: seq<Sibling>, left: real, g: seq<real>, i: nat)
    requires i < |edges| == |fed| && fed[i] == Fed(edges[i], subs, totals, remainders)
    requires SiblingsOn(edges, subs, key, i + 1) <= all
    requires |all| == 1 && all[0].id in remainders && left == RemainderAway(all[0], remainders[all[0].id])
    requires g == AwaySums(edges, subs, totals, key, left)
    ensures Steps(fed, subs, key, g, i)
  {
    AwayNext(edges, subs, totals, remainders, key, all, left, i);
    assert g[i + 1] == DrawnAndLeft(edges, subs, totals, key, left, i + 1);
  }

  lemma AllPrefixes(edges: seq<Edge>, subs: set<string>, key: string, all: seq<Sibling>)
    requires all == SiblingsOn(edges, subs, key, |edges|)
    ensures forall k :: 0 <= k <= |edges| ==> SiblingsOn(edges, subs, key, k) <= all
  {
    forall k | 0 <= k <= |edges|
      ensures SiblingsOn(edges, subs, key, k) <= all
    {
      SiblingsPrefix(edges, subs, key, SiblingsOn(edges, subs, key, k), k, |edges|);
    }
  }

  lemma AwayInAll(edges: seq<Edge>, fed: seq<Edge>, subs: set<string>, totals: Totals, remainders: map<string, real>,
                  key: string, all: seq<Sibling>, left: real)
    requires |edges| == |fed|
    requires forall i :: 0 <= i < |edges| ==> fed[i] == Fed(edges[i], subs, totals, remainders)
    requires forall k :: 0 <= k <= |edges| ==> SiblingsOn(edges, subs, key, k) <= all
    requires |all| == 1 && all[0].id in remainders && left == RemainderAway(all[0], remainders[all[0].id])
    ensures AwayFrom(fed, subs, key, |edges|) == DrawnAndLeft(edges, subs, totals, key, left, |edges|)
  {
    var g := AwaySums(edges, subs, totals, key, left);
    forall i | 0 <= i < |fed|
      ensures Steps(fed, subs, key, g, i)
    {
      AwayStepsAt(edges, fed, subs, totals, remainders, key, all, left, g, i);
    }
    assert g[0] == DrawnAndLeft(edges, subs, totals, key, left, 0) == 0.0;
    AwayTelescopes(fed, subs, key, g, |fed|);
  }

  lemma SoleStep(before: seq<Sibling>, more: seq<Sibling>, all: seq<Sibling>)
    ensures before + more <= all && |all| == 1 && more != [] ==> before == [] && more == all
    ensures before + [] == before
  {
    if before + more <= all && |all| == 1 && more != [] {
      assert (before + more)[|before|] == more[0];
    }
  }

  /** What boards and remainder take from a shared handle is what its meter says. */
  lemma SharedHandleBalances(edges: seq<Edge>, subs: set<string>, key: string)
    requires Shared(edges, subs, key, |edges|) && Sole(edges, subs, key) && SoleOnlyOn(edges, subs, key)
    ensures AwayFrom(Feeds(edges, subs), subs, key, |edges|) == MeteredAway(SoleSibling(edges, subs, key))
  {
    var totals, order, s := AllTotals(edges, subs), KeyOrder(edges, subs, |edges|), SoleSibling(edges, subs, key);
    var e, entries := EntryFor(edges, subs, totals, key).value, Entries(edges, subs, totals, order);
    forall i | 0 <= i < |order|
      ensures entries[i].None? || entries[i].value.id != e.id || entries[i].value == e
    {
      KeyIsShared(edges, subs, order[i], |edges|);
      assert order[i] == key || !SoleIs(edges, subs, order[i], s.id);
    }
    KeyIsShared(edges, subs, key, |edges|);
    var m :| 0 <= m < |order| && order[m] == key;
    EntryRecorded(entries, e, m, |order|);
    var remainders := AllRemainders(edges, subs, totals);
    AllPrefixes(edges, subs, key, SiblingsOn(edges, subs, key, |edges|));
    AwayInAll(edges, Feeds(edges, subs), subs, totals, remainders, key, SiblingsOn(edges, subs, key, |edges|),
              RemainderAway(s, remainders[s.id]));
  }

  // ---- Deriving again --------------------------------------------------------------------

  function Wiring(e: Edge): Edge {
    e.(kw := None, idle := None, raw := None)
  }

  /** The same edges, stamped differently. */
  ghost predicate SameWiring(edges: seq<Edge>, other: seq<Edge>) {
    |edges| == |other| && forall i :: 0 <= i < |edges| ==> Wiring(edges[i]) == Wiring(other[i])
  }

  lemma DerivedSameWiring(edges: seq<Edge>, subs: set<string>)
    ensures SameWiring(edges, Feeds(edges, subs))
    ensures SameWiring(edges, Derived(edges, subs))
  {
    var fed := Feeds(edges, subs);
    forall i | 0 <= i < |edges|
      ensures Wiring(edges[i]) == Wiring(fed[i]) == Wiring(Unallocated(fed)[i])
    {
    }
  }

  lemma SharedSame(edges: seq<Edge>, other: seq<Edge>, subs: set<string>, key: string)
    requires SameWiring(edges, other)
    ensures Shared(other, subs, key, |other|) == Shared(edges, subs, key, |edges|)
  {
    forall i | 0 <= i < |edges|
      ensures edges[i].target == other[i].target && SourceKey(edges[i]) == SourceKey(other[i])
    {
      assert Wiring(edges[i]) == Wiring(other[i]);
    }
  }

  lemma {:induction false} KeysSame(edges: seq<Edge>, other: seq<Edge>, subs: set<string>, k: nat)
    requires SameWiring(edges, other) && k <= |edges|
    ensures KeyOrder(other, subs, k) == KeyOrder(edges, subs, k)
  {
    if k > 0 {
      KeysSame(edges, other, subs, k - 1);
      assert Wiring(edges[k - 1]) == Wiring(other[k - 1]);
      SharedSame(edges, other, subs, SourceKey(edges[k - 1]));
      SharedSame(edges, other, subs, TargetKey(edges[k - 1]));
    }
  }

  lemma {:induction false} SiblingsSame(edges: seq<Edge>, other: seq<Edge>, subs: set<string>, key: string, k: nat)
    requires SameWiring(edges, other) && k <= |edges|
    ensures SiblingsOn(other, subs, key, k) == SiblingsOn(edges, subs, key, k)
  {
    if k > 0 {
      SiblingsSame(edges, other, subs, key, k - 1);
      assert Wiring(edges[k - 1]) == Wiring(other[k - 1]);
      assert SiblingsFrom(edges[k - 1], key) == SiblingsFrom(other[k - 1], key);
    }
  }

  /** The fed boards have the same totals in both tables. */
  ghost predicate SameFeeds(edges: seq<Edge>, subs: set<string>, s: Totals, t: Totals) {
    forall i :: 0 <= i < |edges| && edges[i].target in subs ==>
      Lookup(s, edges[i].target) == Lookup(t, edges[i].target)
  }

  lemma {:induction false} DrawnSame(edges: seq<Edge>, other: seq<Edge>, subs: set<string>, s: Totals, t: Totals,
                                     key: string, k: nat)
    requires SameWiring(edges, other) && SameFeeds(edges, subs, s, t) && k <= |edges|
    ensures Drawn(other, subs, t, key, k) == Drawn(edges, subs, s, key, k)
  {
    if k > 0 {
      DrawnSame(edges, other, subs, s, t, key, k - 1);
      assert Wiring(edges[k - 1]) == Wiring(other[k - 1]);
    }
  }

  lemma EntrySame(edges: seq<Edge>, other: seq<Edge>, subs: set<string>, s: Totals, t: Totals, key: string)
    requires SameWiring(edges, other) && SameFeeds(edges, subs, s, t)
    ensures EntryFor(other, subs, t, key) == EntryFor(edges, subs, s, key)
  {
    SiblingsSame(edges, other, subs, key, |edges|);
    DrawnSame(edges, other, subs, s, t, key, |edges|);
  }

  lemma AllRemaindersSame(edges: seq<Edge>, other: seq<Edge>, subs: set<string>, s: Totals, t: Totals)
    requires SameWiring(edges, other) && SameFeeds(edges, subs, s, t)
    ensures AllRemainders(other, subs, t) == AllRemainders(edges, subs, s)
  {
    KeysSame(edges, other, subs, |edges|);
    var order := KeyOrder(edges, subs, |edges|);
    forall i | 0 <= i < |order|
      ensures Entries(other, subs, t, order)[i] == Entries(edges, subs, s, order)[i]
    {
      EntrySame(edges, other, subs, s, t, order[i]);
    }
    assert Entries(other, subs, t, order) == Entries(edges, subs, s, order);
  }

  lemma {:induction false} RawSame(edges: seq<Edge>, other: seq<Edge>, k: nat)
    requires |edges| == |other| && k <= |edges|
    requires forall i :: 0 <= i < |edges| ==> IsUnallocated(edges[i]) == IsUnallocated(other[i])
    requires forall i :: 0 <= i < |edges| && !IsUnallocated(edges[i]) ==> edges[i] == other[i]
    ensures RawKw(other, k) == RawKw(edges, k)
  {
    if k > 0 {
      RawSame(edges, other, k - 1);
    }
  }

  /** No unallocated edge leads to a board. */
  predicate UnallocatedFeedsNoBoard(edges: seq<Edge>, subs: set<string>) {
    forall i :: 0 <= i < |edges| && IsUnallocated(edges[i]) ==> edges[i].target !in subs
  }

  ghost predicate TotalsSettle(edges: seq<Edge>, subs: set<string>) {
    SameFeeds(edges, subs, AllTotals(edges, subs), AllTotals(Derived(edges, subs), subs))
  }

  lemma SettledFeeds(edges: seq<Edge>, subs: set<string>)
    requires TotalsSettle(edges, subs)
    ensures var once, fed := Derived(edges, subs), Feeds(edges, subs);
            var again := Feeds(once, subs);
            && |again| == |fed|
            && forall i :: 0 <= i < |edges| ==>
              && (!IsUnallocated(edges[i]) ==> again[i] == fed[i] == once[i])
              && (IsUnallocated(edges[i]) ==>
                   IsUnallocated(fed[i]) && again[i].(kw := None) == once[i].(kw := None))
  {
    var once := Derived(edges, subs);
    var s, t := AllTotals(edges, subs), AllTotals(once, subs);
    DerivedSameWiring(edges, subs);
    AllRemaindersSame(edges, once, subs, s, t);
    forall i | 0 <= i < |edges|
      ensures var fed, again := Feeds(edges, subs), Feeds(once, subs);
              && (!IsUnallocated(edges[i]) ==> again[i] == fed[i] == once[i])
              && (IsUnallocated(edges[i]) ==>
                   IsUnallocated(fed[i]) && again[i].(kw := None) == once[i].(kw := None))
    {
      assert edges[i].target in subs ==> Lookup(s, edges[i].target) == Lookup(t, edges[i].target);
    }
  }

  lemma SettledTwice(edges: seq<Edge>, subs: set<string>)
    requires TotalsSettle(edges, subs)
    ensures Derived(Derived(edges, subs), subs) == Derived(edges, subs)
  {
    var once := Derived(edges, subs);
    var twice := Derived(once, subs);
    SettledFeeds(edges, subs);
    RawSame(Feeds(edges, subs), Feeds(once, subs), |edges|);
    assert forall i :: 0 <= i < |edges| ==> twice[i] == once[i];
  }

  /** Deriving again changes nothing exactly when it finds the same totals. */
  lemma SettlesIff(edges: seq<Edge>, subs: set<string>)
    requires UnallocatedFeedsNoBoard(edges, subs)
    ensures Derived(Derived(edges, subs), subs) == Derived(edges, subs) <==> TotalsSettle(edges, subs)
  {
    var once := Derived(edges, subs);
    var twice := Derived(once, subs);
    if TotalsSettle(edges, subs) {
      SettledTwice(edges, subs);
    }
    if twice == once {
      forall i | 0 <= i < |edges| && edges[i].target in subs
        ensures Lookup(AllTotals(edges, subs), edges[i].target) == Lookup(AllTotals(once, subs), edges[i].target)
      {
        assert !IsUnallocated(edges[i]);
        assert once[i] == Feeds(edges, subs)[i] && twice[i] == Feeds(once, subs)[i];
      }
    }
  }

  /** No circuit of a fed board is read differently in the two. */
  ghost predicate CircuitsKept(edges: seq<Edge>, other: seq<Edge>, subs: set<string>)
    requires |edges| == |other|
  {
    forall i :: 0 <= i < |edges| && edges[i].source in subs && edges[i].target !in subs
                && IsFed(edges, edges[i].source) ==>
      Reading(other[i]) == Reading(edges[i])
  }

  lemma {:induction false} TotalOfSame(edges: seq<Edge>, other: seq<Edge>, subs: set<string>, totals: Totals,
                                       visiting: set<string>, b: string)
    requires SameWiring(edges, other) && CircuitsKept(edges, other, subs)
    requires b in subs && visiting <= subs && IsFed(edges, b)
    ensures TotalOf(other, subs, totals, visiting, b) == TotalOf(edges, subs, totals, visiting, b)
    decreases subs - visiting, 0
  {
    if b !in totals && b !in visiting {
      GatherSame(edges, other, subs, totals, visiting + {b}, b, |edges|);
    }
  }

  lemma {:induction false} GatherSame(edges: seq<Edge>, other: seq<Edge>, subs: set<string>, totals: Totals,
                                      visiting: set<string>, b: string, k: nat)
    requires SameWiring(edges, other) && CircuitsKept(edges, other, subs)
    requires b in visiting && visiting <= subs && IsFed(edges, b) && k <= |edges|
    ensures Gather(other, subs, totals, visiting, b, k) == Gather(edges, subs, totals, visiting, b, k)
    decreases subs - visiting, k
  {
    if k > 0 {
      GatherSame(edges, other, subs, totals, visiting, b, k - 1);
      var e := edges[k - 1];
      assert Wiring(e) == Wiring(other[k - 1]);
      if e.source == b && e.target in subs {
        assert IsFed(edges, e.target);
        TotalOfSame(edges, other, subs, Gather(edges, subs, totals, visiting, b, k - 1).1, visiting, e.target);
      }
    }
  }

  lemma {:induction false} FeedTotalsSame(edges: seq<Edge>, other: seq<Edge>, subs: set<string>, k: nat)
    requires SameWiring(edges, other) && CircuitsKept(edges, other, subs) && k <= |edges|
    ensures FeedTotals(other, subs, k) == FeedTotals(edges, subs, k)
  {
    if k > 0 {
      FeedTotalsSame(edges, other, subs, k - 1);
      assert Wiring(edges[k - 1]) == Wiring(other[k - 1]);
      if edges[k - 1].target in subs {
        assert IsFed(edges, edges[k - 1].target);
        TotalOfSame(edges, other, subs, FeedTotals(edges, subs, k - 1), {}, edges[k - 1].target);
      }
    }
  }

  /** The edge with this id is metered and alone beside the boards on some handle. */
  ghost predicate IsRemainder(edges: seq<Edge>, subs: set<string>, id: string) {
    exists key :: Shared(edges, subs, key, |edges|) && SoleIs(edges, subs, key, id)
  }

  lemma {:induction false} RecordedMeansEntry(entries: seq<Option<Entry>>, id: string, n: nat) returns (m: nat)
    requires n <= |entries| && id in Remainders(entries, n)
    ensures m < n && entries[m].Some? && entries[m].value.id == id
  {
    m := n - 1;
    if entries[n - 1].None? || entries[n - 1].value.id != id {
      m := RecordedMeansEntry(entries, id, n - 1);
    }
  }

  lemma RecordedIsRemainder(edges: seq<Edge>, subs: set<string>, totals: Totals, id: string)
    requires id in AllRemainders(edges, subs, totals)
    ensures IsRemainder(edges, subs, id)
  {
    var order := KeyOrder(edges, subs, |edges|);
    var m := RecordedMeansEntry(Entries(edges, subs, totals, order), id, |order|);
    KeyIsShared(edges, subs, order[m], |edges|);
    assert SoleIs(edges, subs, order[m], id);
  }

  /** Edge i carries a remainder, or the unallocated load, from a fed board. */
  ghost predicate RemainderLeavesBoard(edges: seq<Edge>, subs: set<string>, i: nat)
    requires i < |edges|
  {
    && edges[i].source in subs && IsFed(edges, edges[i].source) && edges[i].target !in subs
    && (IsUnallocated(edges[i]) || IsRemainder(edges, subs, edges[i].id))
  }

  /** On every wiring, loops included, deriving twice is deriving once when no remainder
      leaves a sub-board. */
  lemma DerivingSettles(edges: seq<Edge>, subs: set<string>)
    requires forall i :: 0 <= i < |edges| ==> !RemainderLeavesBoard(edges, subs, i)
    ensures Derived(Derived(edges, subs), subs) == Derived(edges, subs)
  {
    var once := Derived(edges, subs);
    DerivedSameWiring(edges, subs);
    forall i | 0 <= i < |edges| && edges[i].source in subs && IsFed(edges, edges[i].source) && edges[i].target !in subs
      ensures Reading(once[i]) == Reading(edges[i])
    {
      assert !RemainderLeavesBoard(edges, subs, i);
      if edges[i].id in AllRemainders(edges, subs, AllTotals(edges, subs)) {
        RecordedIsRemainder(edges, subs, AllTotals(edges, subs), edges[i].id);
      }
    }
    FeedTotalsSame(edges, once, subs, |edges|);
    SettledTwice(edges, subs);
  }

  /** Each fed board's circuits, with the nested boards known to it as they were, add up as
      they did before the remainders were stamped. */
  ghost predicate BoardsKept(edges: seq<Edge>, subs: set<string>) {
    forall i :: 0 <= i < |edges| && edges[i].target in subs ==> BoardKept(edges, subs, edges[i].target)
  }

  ghost predicate BoardKept(edges: seq<Edge>, subs: set<string>, b: string) {
    Circuits(Derived(edges, subs), subs, KnownTo(edges, subs, b), b, |edges|)
      == Circuits(edges, subs, KnownTo(edges, subs, b), b, |edges|)
  }

  lemma FedSame(edges: seq<Edge>, other: seq<Edge>, b: string)
    requires SameWiring(edges, other)
    ensures IsFed(other, b) <==> IsFed(edges, b)
  {
    assert forall i :: 0 <= i < |edges| ==> Wiring(edges[i]) == Wiring(other[i]);
    if i :| 0 <= i < |edges| && edges[i].target == b {
      assert other[i].target == b;
    }
    if i :| 0 <= i < |other| && other[i].target == b {
      assert edges[i].target == b;
    }
  }

  lemma {:induction false} GatherOrderSame(edges: seq<Edge>, other: seq<Edge>, subs: set<string>, order: seq<string>,
                                           visiting: set<string>, b: string, k: nat)
    requires SameWiring(edges, other) && b in visiting && visiting <= subs && k <= |edges|
    ensures GatherOrder(other, subs, order, visiting, b, k) == GatherOrder(edges, subs, order, visiting, b, k)
    decreases subs - visiting, k
  {
    if k > 0 {
      GatherOrderSame(edges, other, subs, order, visiting, b, k - 1);
      var e := edges[k - 1];
      assert Wiring(e) == Wiring(other[k - 1]);
      if e.source == b && e.target in subs {
        OrderSame(edges, other, subs, GatherOrder(edges, subs, order, visiting, b, k - 1), visiting, e.target);
      }
    }
  }

  lemma {:induction false} OrderSame(edges: seq<Edge>, other: seq<Edge>, subs: set<string>, order: seq<string>,
                                     visiting: set<string>, b: string)
    requires SameWiring(edges, other) && b in subs && visiting <= subs
    ensures OrderOf(other, subs, order, visiting, b) == OrderOf(edges, subs, order, visiting, b)
    decreases subs - visiting, 0
  {
    if b !in order && b !in visiting {
      GatherOrderSame(edges, other, subs, order, visiting + {b}, b, |edges|);
    }
  }

  /** Boards are totalled in an order that the wiring decides. */
  lemma {:induction false} FeedOrderSame(edges: seq<Edge>, other: seq<Edge>, subs: set<string>, k: nat)
    requires SameWiring(edges, other) && k <= |edges|
    ensures FeedOrder(other, subs, k) == FeedOrder(edges, subs, k)
  {
    if k > 0 {
      FeedOrderSame(edges, other, subs, k - 1);
      assert Wiring(edges[k - 1]) == Wiring(other[k - 1]);
      if edges[k - 1].target in subs {
        OrderSame(edges, other, subs, FeedOrder(edges, subs, k - 1), {}, edges[k - 1].target);
      }
    }
  }

  /** The two tables agree on the first n boards of an order. */
  ghost predicate AgreeOn(s: Totals, t: Totals, order: seq<string>, n: nat)
    requires n <= |order|
  {
    forall j :: 0 <= j < n ==> Lookup(s, order[j]) == Lookup(t, order[j])
  }

  lemma KnownSame(edges: seq<Edge>, other: seq<Edge>, subs: set<string>, b: string)
    requires SameWiring(edges, other)
    requires var order := TotalOrder(edges, subs);
             AgreeOn(AllTotals(other, subs), AllTotals(edges, subs), order, Position(order, b))
    ensures KnownTo(other, subs, b) == KnownTo(edges, subs, b)
  {
    FeedOrderSame(edges, other, subs, |edges|);
    forall x | x in TotalOrder(edges, subs)
      ensures x in AllTotals(edges, subs) && x in AllTotals(other, subs)
    {
      TotalledAreFed(edges, subs, x);
      TotalledAreFed(other, subs, x);
    }
  }

  /** A board kept, and all boards totalled before it: its total stays. */
  lemma KeptNext(edges: seq<Edge>, other: seq<Edge>, subs: set<string>, b: string)
    requires SameWiring(edges, other) && IsFedBoard(edges, subs, b)
    requires Circuits(other, subs, KnownTo(edges, subs, b), b, |edges|)
          == Circuits(edges, subs, KnownTo(edges, subs, b), b, |edges|)
    requires var order := TotalOrder(edges, subs);
             AgreeOn(AllTotals(other, subs), AllTotals(edges, subs), order, Position(order, b))
    ensures Lookup(AllTotals(other, subs), b) == Lookup(AllTotals(edges, subs), b)
  {
    FedSame(edges, other, b);
    KnownSame(edges, other, subs, b);
    TotalOnEveryWiring(edges, subs, b);
    TotalOnEveryWiring(other, subs, b);
  }

  lemma AgreeOnMore(s: Totals, t: Totals, order: seq<string>, n: nat, b: string)
    requires n < |order| && order[n] == b && AgreeOn(s, t, order, n)
    ensures AgreeOn(s, t, order, Position(order, b))
    ensures Lookup(s, b) == Lookup(t, b) ==> AgreeOn(s, t, order, n + 1)
  {
  }

  /** Board by board in the order they are totalled, the totals stay. */
  lemma {:induction false} KeptTotals(edges: seq<Edge>, other: seq<Edge>, subs: set<string>, s: Totals, t: Totals,
                                      order: seq<string>, n: nat)
    requires SameWiring(edges, other) && order == TotalOrder(edges, subs) && n <= |order|
    requires s == AllTotals(other, subs) && t == AllTotals(edges, subs)
    requires forall b :: IsFedBoard(edges, subs, b) ==>
               Circuits(other, subs, KnownTo(edges, subs, b), b, |edges|)
                 == Circuits(edges, subs, KnownTo(edges, subs, b), b, |edges|)
    ensures AgreeOn(s, t, order, n)
  {
    if n > 0 {
      KeptTotals(edges, other, subs, s, t, order, n - 1);
      TotalledAreFed(edges, subs, order[n - 1]);
      AgreeOnMore(s, t, order, n - 1, order[n - 1]);
      KeptNext(edges, other, subs, order[n - 1]);
    }
  }

  lemma KeptSettles(edges: seq<Edge>, subs: set<string>)
    requires BoardsKept(edges, subs)
    ensures TotalsSettle(edges, subs)
  {
    var once, order := Derived(edges, subs), TotalOrder(edges, subs);
    DerivedSameWiring(edges, subs);
    forall b | IsFedBoard(edges, subs, b)
      ensures BoardKept(edges, subs, b)
    {
      var i :| 0 <= i < |edges| && edges[i].target == b;
    }
    KeptTotals(edges, once, subs, AllTotals(once, subs), AllTotals(edges, subs), order, |order|);
    forall i | 0 <= i < |edges| && edges[i].target in subs
      ensures Lookup(AllTotals(edges, subs), edges[i].target) == Lookup(AllTotals(once, subs), edges[i].target)
    {
      assert IsFed(edges, edges[i].target);
      TotalledAreFed(edges, subs, edges[i].target);
    }
  }

  lemma SettledKeeps(edges: seq<Edge>, subs: set<string>, b: string)
    requires TotalsSettle(edges, subs) && IsFedBoard(edges, subs, b)
    ensures BoardKept(edges, subs, b)
  {
    var once, order := Derived(edges, subs), TotalOrder(edges, subs);
    DerivedSameWiring(edges, subs);
    FedSame(edges, once, b);
    forall x | IsFedBoard(edges, subs, x)
      ensures Lookup(AllTotals(once, subs), x) == Lookup(AllTotals(edges, subs), x)
    {
      var i :| 0 <= i < |edges| && edges[i].target == x;
    }
    forall j | 0 <= j < |order|
      ensures Lookup(AllTotals(once, subs), order[j]) == Lookup(AllTotals(edges, subs), order[j])
    {
      TotalledAreFed(edges, subs, order[j]);
    }
    KnownSame(edges, once, subs, b);
    TotalOnEveryWiring(edges, subs, b);
    TotalOnEveryWiring(once, subs, b);
  }

  /** On every wiring, loops included, deriving twice is deriving once exactly when the
      remainders leave every fed board's circuits with the sum they had. */
  lemma SettlesExactly(edges: seq<Edge>, subs: set<string>)
    requires UnallocatedFeedsNoBoard(edges, subs)
    ensures Derived(Derived(edges, subs), subs) == Derived(edges, subs) <==> BoardsKept(edges, subs)
  {
    SettlesIff(edges, subs);
    if BoardsKept(edges, subs) {
      KeptSettles(edges, subs);
    }
    if TotalsSettle(edges, subs) {
      forall i | 0 <= i < |edges| && edges[i].target in subs
        ensures BoardKept(edges, subs, edges[i].target)
      {
        assert IsFed(edges, edges[i].target);
        SettledKeeps(edges, subs, edges[i].target);
      }
    }
  }

  /** Board s with a 3 kW meter on a handle that also feeds board t, which carries 1 kW. */
  predicate MeterBesideBoard(edges: seq<Edge>, subs: set<string>, s: string, t: string) {
    && s != t && subs == {s, t} && |edges| == 4
    && (forall i :: 0 <= i < 4 ==> !IsUnallocated(edges[i]))
    && edges[0].source !in subs && edges[0].target == s
    && edges[1].source == s && edges[1].target == t
    && edges[2].source == s && edges[2].target !in subs && SourceKey(edges[2]) == SourceKey(edges[1])
    && edges[3].source == t && edges[3].target !in subs
    && SourceKey(edges[0]) != SourceKey(edges[1]) && SourceKey(edges[3]) != SourceKey(edges[1])
    && TargetKey(edges[2]) != SourceKey(edges[1]) && TargetKey(edges[3]) != SourceKey(edges[1])
    && (forall i :: 2 <= i < 4 ==>
          SourceKey(edges[i]) != SourceKey(edges[0]) && TargetKey(edges[i]) != SourceKey(edges[0]))
    && Reading(edges[2]) == Total(-3.0, false) && edges[2].metered == Some(-3.0)
    && Reading(edges[3]) == Total(-1.0, false)
  }

  /** Such wiring exists. */
  function Sample(): seq<Edge> {
    [Edge("f", "u", "a", "s", "in", None, None, None, None),
     Edge("t", "s", "c", "t", "in", None, None, None, None),
     Edge("x", "s", "c", "x", "in", Some(-3.0), Some(false), Some(-3.0), None),
     Edge("y", "t", "c", "y", "in", Some(-1.0), Some(false), Some(-1.0), None)]
  }

  lemma SampleFits()
    ensures MeterBesideBoard(Sample(), {"s", "t"}, "s", "t")
  {
    assert forall i :: 0 <= i < 4 ==> |Sample()[i].id| == 1;
    assert forall i :: 0 <= i < 4 ==> SourceKey(Sample()[i])[0] == Sample()[i].source[0];
    assert forall i :: 0 <= i < 4 ==> |SourceKey(Sample()[i])| == 3 && |TargetKey(Sample()[i])| == 4;
  }

  lemma MeterCircuits(edges: seq<Edge>, subs: set<string>, totals: Totals, s: string, t: string, kw: real)
    requires s != t && subs == {s, t} && |edges| == 4 && edges[0].source !in subs
    requires edges[1].source == s && edges[1].target == t && edges[2].source == s && edges[2].target !in subs
    requires edges[3].source == t && Reading(edges[2]) == Total(kw, false)
    requires Lookup(totals, t) == Total(-1.0, false)
    ensures Circuits(edges, subs, totals, s, 4).kw == kw - 1.0
    ensures kw < 0.0 ==> !Circuits(edges, subs, totals, s, 4).idle
  {
    assert Circuits(edges, subs, totals, s, 1) == Total(0.0, true);
    assert Circuits(edges, subs, totals, s, 2) == Total(-1.0, false);
    assert Circuits(edges, subs, totals, s, 3).kw == kw - 1.0;
  }

  lemma MeterTotals(edges: seq<Edge>, subs: set<string>, s: string, t: string)
    requires MeterBesideBoard(edges, subs, s, t)
    ensures Ranked(edges, subs, map[s := 1, t := 0])
    ensures Lookup(AllTotals(edges, subs), t) == Total(-1.0, false)
  {
    var totals := AllTotals(edges, subs);
    assert IsFed(edges, t);
    TotalsAreLoads(edges, subs, map[s := 1, t := 0], t);
    assert Circuits(edges, subs, totals, t, 1) == Total(0.0, true);
    assert Circuits(edges, subs, totals, t, 2) == Total(0.0, true);
    assert Circuits(edges, subs, totals, t, 3) == Total(0.0, true);
  }

  /** Nothing but the feed hangs off its handle. */
  lemma FeedHandleAlone(edges: seq<Edge>, subs: set<string>, s: string, t: string)
    requires MeterBesideBoard(edges, subs, s, t)
    ensures SiblingsOn(edges, subs, SourceKey(edges[0]), 4) == []
  {
    var key := SourceKey(edges[0]);
    assert edges[0].target in subs && edges[1].target in subs;
    assert SiblingsOn(edges, subs, key, 1) == SiblingsOn(edges, subs, key, 0);
    assert SiblingsOn(edges, subs, key, 2) == SiblingsOn(edges, subs, key, 1);
    assert SiblingsFrom(edges[2], key) == [] && SiblingsFrom(edges[3], key) == [];
    assert SiblingsOn(edges, subs, key, 3) == SiblingsOn(edges, subs, key, 2);
  }

  lemma OneHandle(edges: seq<Edge>, subs: set<string>, s: string, t: string, key: string)
    requires MeterBesideBoard(edges, subs, s, t) && key != SourceKey(edges[1])
    ensures key !in KeyOrder(edges, subs, 4)
  {
    KeyIsShared(edges, subs, key, 4);
    if key == SourceKey(edges[0]) {
      FeedHandleAlone(edges, subs, s, t);
    } else {
      assert !Shared(edges, subs, key, 4);
    }
  }

  lemma MeterEntry(edges: seq<Edge>, subs: set<string>, totals: Totals, s: string, t: string)
    requires MeterBesideBoard(edges, subs, s, t) && Lookup(totals, t) == Total(-1.0, false)
    ensures Shared(edges, subs, SourceKey(edges[1]), 4)
    ensures SiblingsOn(edges, subs, SourceKey(edges[1]), 4) == [Sibling(edges[2].id, Some(-3.0), true)]
    ensures EntryFor(edges, subs, totals, SourceKey(edges[1])) == Some(Entry(edges[2].id, -2.0))
  {
    var key := SourceKey(edges[1]);
    assert edges[0].target in subs && edges[1].target in subs;
    assert SiblingsFrom(edges[2], key) == [Sibling(edges[2].id, Some(-3.0), true)] && SiblingsFrom(edges[3], key) == [];
    assert SiblingsOn(edges, subs, key, 1) == SiblingsOn(edges, subs, key, 0);
    assert SiblingsOn(edges, subs, key, 2) == SiblingsOn(edges, subs, key, 1);
    assert SiblingsOn(edges, subs, key, 3) == [Sibling(edges[2].id, Some(-3.0), true)];
    assert Drawn(edges, subs, totals, key, 1) == 0.0;
    assert Drawn(edges, subs, totals, key, 2) == 1.0;
    assert Drawn(edges, subs, totals, key, 3) == 1.0;
  }

  /** The meter's edge is left with 2 kW. */
  lemma MeterRemainder(edges: seq<Edge>, subs: set<string>, s: string, t: string)
    requires MeterBesideBoard(edges, subs, s, t)
    ensures Feeds(edges, subs)[2] == edges[2].(kw := Some(-2.0))
  {
    var key, totals, order := SourceKey(edges[1]), AllTotals(edges, subs), KeyOrder(edges, subs, |edges|);
    MeterTotals(edges, subs, s, t);
    MeterEntry(edges, subs, totals, s, t);
    var entries, e := Entries(edges, subs, totals, order), Entry(edges[2].id, -2.0);
    forall i | 0 <= i < |order|
      ensures order[i] == key
    {
      if order[i] != key {
        OneHandle(edges, subs, s, t, order[i]);
        assert false;
      }
    }
    KeyIsShared(edges, subs, key, |edges|);
    var m :| 0 <= m < |order| && order[m] == key;
    EntryRecorded(entries, e, m, |order|);
  }

  /** Deriving twice is not deriving once there: the feed shows 4 kW, then 3 kW. */
  lemma MeterBesideBoardDrifts(edges: seq<Edge>, subs: set<string>, s: string, t: string)
    requires MeterBesideBoard(edges, subs, s, t)
    ensures Derived(Derived(edges, subs), subs) != Derived(edges, subs)
  {
    var once := Derived(edges, subs);
    MeterTotals(edges, subs, s, t);
    MeterRemainder(edges, subs, s, t);
    DerivedSameWiring(edges, subs);
    assert forall i :: 0 <= i < 4 ==> Wiring(edges[i]) == Wiring(once[i]);
    SettlesIff(edges, subs);
    assert edges[0].target in subs && edges[1].target in subs;
    MeterTotal(edges, subs, s, t, -3.0);
    if Lookup(AllTotals(once, subs), t) == Total(-1.0, false) {
      MeterTotal(once, subs, s, t, -2.0);
    }
  }

  lemma MeterTotal(edges: seq<Edge>, subs: set<string>, s: string, t: string, kw: real)
    requires s != t && subs == {s, t} && |edges| == 4 && edges[0].source !in subs && edges[0].target == s
    requires edges[1].source == s && edges[1].target == t && edges[2].source == s && edges[2].target !in subs
    requires edges[3].source == t && edges[3].target !in subs && Reading(edges[2]) == Total(kw, false)
    requires Lookup(AllTotals(edges, subs), t) == Total(-1.0, false)
    ensures Lookup(AllTotals(edges, subs), s).kw == kw - 1.0
  {
    assert IsFed(edges, s);
    TotalsAreLoads(edges, subs, map[s := 1, t := 0], s);
    MeterCircuits(edges, subs, AllTotals(edges, subs), s, t, kw);
  }
}
