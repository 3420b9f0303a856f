/** firmware/html_app/src/Topology.tsx: board feeds, remainders behind a shared meter and
    the unallocated load, derived from the metered edges. */
module DerivedFlows {
  import opened Options
  import opened Sums
  import opened Topology

  // ---- Metered edges -------------------------------------------------------------------

  function EdgePowerNodeId(e: Edge): string {
    if e.sourceHandle == "power-out" then e.source else e.target
  }

  function EdgeKw(e: Edge, meteredId: string, powerMw: real): real {
    var kw := powerMw / 1000000.0;
    var atTarget := if e.targetHandle == "grid" then true
                    else if e.sourceHandle == "grid" then false
                    else meteredId == e.target;
    if atTarget then -kw else kw
  }

  /** The power that flows into a node along an edge it touches. */
  function FlowInto(e: Edge, kw: real, node: string): real {
    if e.target == node then -kw else kw
  }

  function Flipped(e: Edge): Edge {
    e.(source := e.target, sourceHandle := e.targetHandle, target := e.source, targetHandle := e.sourceHandle)
  }

  /** A reading drives the edges that leave its node by the power-out handle, and of those
      that come to it the ones that leave by another. */
  lemma MeteredBy(e: Edge, node: string)
    requires e.source != e.target
    ensures EdgePowerNodeId(e) == node <==>
            (e.source == node && e.sourceHandle == "power-out") || (e.target == node && e.sourceHandle != "power-out")
  {
  }

  /** So a node that fans out over several handles meters the edges of one of them at most. */
  lemma OneHandleMetered(e: Edge, f: Edge, node: string)
    requires e.source == f.source == node && e.target != node && f.target != node
    requires EdgePowerNodeId(e) == EdgePowerNodeId(f) == node
    ensures e.sourceHandle == f.sourceHandle == "power-out"
  {
    MeteredBy(e, node);
    MeteredBy(f, node);
  }

  /** A positive reading flows into the metered device, or, at a grid meter, into the
      node on whose grid handle the edge ends (Matter specification, section 9.2.6.1). */
  lemma ReadingFlowsIn(e: Edge, powerMw: real)
    requires e.source != e.target
    ensures var kw := EdgeKw(e, EdgePowerNodeId(e), powerMw);
            var meeting := if e.targetHandle == "grid" then e.target
                           else if e.sourceHandle == "grid" then e.source
                           else if e.sourceHandle == "power-out" then e.source else e.target;
            FlowInto(e, kw, meeting) == powerMw / 1000000.0
  {
  }

  /** An edge once a batch of readings has come in, by node, and the nodes at standby are known. */
  function WithReading(e: Edge, subs: set<string>, powerMw: map<string, real>, standby: set<string>): Edge {
    var node := EdgePowerNodeId(e);
    if e.target in subs || node !in powerMw then e
    else
      var kw := EdgeKw(e, node, powerMw[node]);
      e.(kw := Some(kw), metered := Some(kw), idle := Some(node in standby))
  }

  /** What one node's reading does to an edge: feeds of boards and edges it does not meter
      stay, and on the others the reading flows as it should. */
  lemma ReadingStamps(e: Edge, subs: set<string>, node: string, powerMw: real, standby: set<string>)
    requires e.source != e.target
    ensures var out := WithReading(e, subs, map[node := powerMw], standby);
            var metered := (e.source == node && e.sourceHandle == "power-out")
                           || (e.target == node && e.sourceHandle != "power-out");
            if e.target in subs || !metered then out == e
            else
              && out.kw.Some? && out.metered == out.kw && out.idle == Some(node in standby)
              && out == e.(kw := out.kw, metered := out.metered, idle := out.idle)
              && FlowInto(e, out.kw.value, if e.targetHandle == "grid" then e.target
                                           else if e.sourceHandle == "grid" then e.source else node)
                 == powerMw / 1000000.0
  {
    MeteredBy(e, node);
    ReadingFlowsIn(e, powerMw);
  }

  /** How an edge was drawn: turned round, it has the same meter exactly when one of its
      ends is a power-out handle, and by one meter it carries the same power into either
      node exactly when not both ends are grid handles, or no power flows. */
  lemma DrawnEitherWay(e: Edge, powerMw: real, node: string)
    requires e.source != e.target && (node == e.source || node == e.target)
    ensures EdgePowerNodeId(Flipped(e)) == EdgePowerNodeId(e) <==>
            (e.sourceHandle == "power-out") != (e.targetHandle == "power-out")
    ensures var f, meter := Flipped(e), EdgePowerNodeId(e);
            FlowInto(f, EdgeKw(f, meter, powerMw), node) == FlowInto(e, EdgeKw(e, meter, powerMw), node)
            <==> !(e.sourceHandle == "grid" && e.targetHandle == "grid") || powerMw == 0.0
  {
  }

  // ---- The totals of the fed boards ---------------------------------------------------------

  /** The table of totals once the first k edges have asked for theirs. */
  function FeedTotals(edges: seq<Edge>, subs: set<string>, k: nat): Totals
    requires k <= |edges|
  {
    if k == 0 then map[]
    else
      var before := FeedTotals(edges, subs, k - 1);
      if edges[k - 1].target in subs then TotalOf(edges, subs, before, {}, edges[k - 1].target).1 else before
  }

  function AllTotals(edges: seq<Edge>, subs: set<string>): Totals {
    FeedTotals(edges, subs, |edges|)
  }

  lemma {:induction false} FeedTotalsGrow(edges: seq<Edge>, subs: set<string>, j: nat, k: nat)
    requires j <= k <= |edges|
    ensures Extends(FeedTotals(edges, subs, k), FeedTotals(edges, subs, j))
  {
    if j < k {
      FeedTotalsGrow(edges, subs, j, k - 1);
    }
  }

  /** A feed's total is known from its edge on, and stays as it was found there. */
  lemma FeedTotalFinal(edges: seq<Edge>, subs: set<string>, i: nat)
    requires i < |edges| && edges[i].target in subs
    ensures edges[i].target in AllTotals(edges, subs)
    ensures AllTotals(edges, subs)[edges[i].target]
         == TotalOf(edges, subs, FeedTotals(edges, subs, i), {}, edges[i].target).0
  {
    FeedTotalsGrow(edges, subs, i + 1, |edges|);
  }

  lemma {:induction false} FeedTotalsBalanced(edges: seq<Edge>, subs: set<string>, rank: map<string, nat>, k: nat)
    requires Ranked(edges, subs, rank) && k <= |edges|
    ensures Balanced(edges, subs, FeedTotals(edges, subs, k))
  {
    if k > 0 {
      FeedTotalsBalanced(edges, subs, rank, k - 1);
      if edges[k - 1].target in subs {
        TotalBalanced(edges, subs, rank, FeedTotals(edges, subs, k - 1), {}, edges[k - 1].target);
      }
    }
  }

  predicate IsFed(edges: seq<Edge>, b: string) {
    exists i :: 0 <= i < |edges| && edges[i].target == b
  }

  /** On loop-free wiring every fed board's total is what its circuits carry, which is the
      load below it, counted once for each way down. */
  lemma TotalsAreLoads(edges: seq<Edge>, subs: set<string>, rank: map<string, nat>, b: string)
    requires Ranked(edges, subs, rank) && b in subs && IsFed(edges, b)
    ensures var totals := AllTotals(edges, subs);
            && Balanced(edges, subs, totals) && b in totals
            && totals[b].kw == Loads(edges, subs, c => Routes(edges, subs, rank, b, c), |edges|)
  {
    var i :| 0 <= i < |edges| && edges[i].target == b;
    FeedTotalFinal(edges, subs, i);
    FeedTotalsBalanced(edges, subs, rank, |edges|);
    TotalByRoutes(edges, subs, rank, AllTotals(edges, subs), b);
  }

  /** The order of the edges has no effect on the totals of loop-free wiring. */
  lemma EdgeOrderDoesNotMatter(edges: seq<Edge>, other: seq<Edge>, subs: set<string>, b: string)
    requires NoLoop(edges, subs) && multiset(edges) == multiset(other)
    requires b in subs && IsFed(edges, b)
    ensures b in AllTotals(edges, subs) && b in AllTotals(other, subs)
    ensures AllTotals(edges, subs)[b] == AllTotals(other, subs)[b]
  {
    NoLoopIffRanked(edges, subs);
    var rank :| Ranked(edges, subs, rank);
    assert forall e :: e in other ==> e in multiset(edges);
    var i :| 0 <= i < |edges| && edges[i].target == b;
    assert edges[i] in multiset(other);
    var j :| 0 <= j < |other| && other[j] == edges[i];
    TotalsAreLoads(edges, subs, rank, b);
    TotalsAreLoads(other, subs, rank, b);
    BalancedReordered(other, edges, subs, AllTotals(other, subs));
    BalanceUnique(edges, subs, rank, AllTotals(edges, subs), AllTotals(other, subs), b);
  }

  // ---- Shared handles -------------------------------------------------------------------

  function SourceKey(e: Edge): string {
    e.source + "|" + e.sourceHandle
  }

  function TargetKey(e: Edge): string {
    e.target + "|" + e.targetHandle
  }

  /** One of the first k edges feeds a board from this handle. */
  predicate Shared(edges: seq<Edge>, subs: set<string>, key: string, k: nat)
    requires k <= |edges|
  {
    exists i :: 0 <= i < k && edges[i].target in subs && SourceKey(edges[i]) == key
  }

  /** What the first k edges take from a handle for boards. */
  function Drawn(edges: seq<Edge>, subs: set<string>, totals: Totals, key: string, k: nat): real
    requires k <= |edges|
  {
    if k == 0 then 0.0
    else
      var e := edges[k - 1];
      Drawn(edges, subs, totals, key, k - 1)
        - if e.target in subs && SourceKey(e) == key then Lookup(totals, e.target).kw else 0.0
  }

  datatype Sibling = Sibling(id: string, metered: Option<real>, atSource: bool)

  function SiblingsFrom(e: Edge, key: string): seq<Sibling> {
    (if SourceKey(e) == key then [Sibling(e.id, e.metered, true)] else [])
      + (if TargetKey(e) == key then [Sibling(e.id, e.metered, false)] else [])
  }

  /** The ends on a handle of the first k edges that feed no board. */
  function SiblingsOn(edges: seq<Edge>, subs: set<string>, key: string, k: nat): seq<Sibling>
    requires k <= |edges|
  {
    if k == 0 then []
    else
      var e := edges[k - 1];
      SiblingsOn(edges, subs, key, k - 1) + if e.target in subs then [] else SiblingsFrom(e, key)
  }

  function AddKey(order: seq<string>, key: string, shared: bool): seq<string> {
    if shared && key !in order then order + [key] else order
  }

  /** The shared handles that have siblings, by first appearance. */
  function KeyOrder(edges: seq<Edge>, subs: set<string>, k: nat): seq<string>
    requires k <= |edges|
  {
    if k == 0 then []
    else
      var e, before := edges[k - 1], KeyOrder(edges, subs, k - 1);
      if e.target in subs then before
      else AddKey(AddKey(before, SourceKey(e), Shared(edges, subs, SourceKey(e), |edges|)),
                  TargetKey(e), Shared(edges, subs, TargetKey(e), |edges|))
  }

  /** The kW of the one other edge on a handle from which the boards draw. */
  function RemainderOf(s: Sibling, drawn: real): real
    requires s.metered.Some?
  {
    var away := (if s.atSource then -s.metered.value else s.metered.value) - drawn;
    if s.atSource then -away else away
  }

  predicate Sole(edges: seq<Edge>, subs: set<string>, key: string) {
    && |SiblingsOn(edges, subs, key, |edges|)| == 1
    && SiblingsOn(edges, subs, key, |edges|)[0].metered.Some?
  }

  function SoleSibling(edges: seq<Edge>, subs: set<string>, key: string): Sibling
    requires Sole(edges, subs, key)
  {
    SiblingsOn(edges, subs, key, |edges|)[0]
  }

  datatype Entry = Entry(id: string, kw: real)

  /** One handle's entry in the remainders. */
  function EntryFor(edges: seq<Edge>, subs: set<string>, totals: Totals, key: string): Option<Entry> {
    if Sole(edges, subs, key) then
      var s := SoleSibling(edges, subs, key);
      Some(Entry(s.id, RemainderOf(s, Drawn(edges, subs, totals, key, |edges|))))
    else None
  }

  function Record(before: map<string, real>, entry: Option<Entry>): map<string, real> {
    if entry.Some? then before[entry.value.id := entry.value.kw] else before
  }

  /** The remainders by edge id, after the first n entries; a later one wins. */
  function Remainders(entries: seq<Option<Entry>>, n: nat): map<string, real>
    requires n <= |entries|
  {
    if n == 0 then map[] else Record(Remainders(entries, n - 1), entries[n - 1])
  }

  function Entries(edges: seq<Edge>, subs: set<string>, totals: Totals, order: seq<string>):
    (entries: seq<Option<Entry>>)
    ensures |entries| == |order|
    ensures forall i :: 0 <= i < |order| ==> entries[i] == EntryFor(edges, subs, totals, order[i])
  {
    seq(|order|, i requires 0 <= i < |order| => EntryFor(edges, subs, totals, order[i]))
  }

  function AllRemainders(edges: seq<Edge>, subs: set<string>, totals: Totals): map<string, real> {
    var entries := Entries(edges, subs, totals, KeyOrder(edges, subs, |edges|));
    Remainders(entries, |entries|)
  }

  function Fed(e: Edge, subs: set<string>, totals: Totals, remainders: map<string, real>): Edge {
    if e.target in subs then
      e.(kw := Some(Lookup(totals, e.target).kw), idle := Some(Lookup(totals, e.target).idle))
    else if e.id in remainders then e.(kw := Some(remainders[e.id]))
    else e
  }

  function Feeds(edges: seq<Edge>, subs: set<string>): (out: seq<Edge>)
    ensures |out| == |edges|
  {
    var totals := AllTotals(edges, subs);
    var remainders := AllRemainders(edges, subs, totals);
    seq(|edges|, i requires 0 <= i < |edges| => Fed(edges[i], subs, totals, remainders))
  }

  // ---- withSubCuFeeds ------------------------------------------------------------------

  lemma AddKeyIn(order: seq<string>, key: string, shared: bool, x: string)
    ensures x in AddKey(order, key, shared) <==> x in order || (shared && x == key)
  {
  }

  /** Edge k gives key a sibling. */
  predicate GivesSibling(edges: seq<Edge>, subs: set<string>, key: string, k: nat)
    requires k < |edges|
  {
    edges[k].target !in subs && SiblingsFrom(edges[k], key) != []
  }

  lemma KeysAdded(edges: seq<Edge>, subs: set<string>, key: string, k: nat)
    requires k < |edges|
    ensures key in KeyOrder(edges, subs, k + 1) <==>
              || key in KeyOrder(edges, subs, k)
              || (Shared(edges, subs, key, |edges|) && GivesSibling(edges, subs, key, k))
  {
    var e, before := edges[k], KeyOrder(edges, subs, k);
    if e.target !in subs {
      var fromSource := Shared(edges, subs, SourceKey(e), |edges|);
      var fromTarget := Shared(edges, subs, TargetKey(e), |edges|);
      AddKeyIn(before, SourceKey(e), fromSource, key);
      AddKeyIn(AddKey(before, SourceKey(e), fromSource), TargetKey(e), fromTarget, key);
    }
  }

  /** One of the first k edges gives key a sibling. */
  predicate HasSibling(edges: seq<Edge>, subs: set<string>, key: string, k: nat)
    requires k <= |edges|
  {
    k > 0 && (HasSibling(edges, subs, key, k - 1) || GivesSibling(edges, subs, key, k - 1))
  }

  lemma EitherNonEmpty<T>(a: seq<T>, b: seq<T>)
    ensures |a + b| == 0 <==> |a| == 0 && |b| == 0
  {
  }

  lemma SiblingsAdded(edges: seq<Edge>, subs: set<string>, key: string, k: nat)
    requires k < |edges|
    ensures |SiblingsOn(edges, subs, key, k + 1)| > 0 <==>
              |SiblingsOn(edges, subs, key, k)| > 0 || GivesSibling(edges, subs, key, k)
  {
    EitherNonEmpty(SiblingsOn(edges, subs, key, k),
                   if edges[k].target in subs then [] else SiblingsFrom(edges[k], key));
  }

  lemma {:induction false} SiblingsExist(edges: seq<Edge>, subs: set<string>, key: string, k: nat)
    requires k <= |edges|
    ensures |SiblingsOn(edges, subs, key, k)| > 0 <==> HasSibling(edges, subs, key, k)
  {
    if k > 0 {
      SiblingsExist(edges, subs, key, k - 1);
      SiblingsAdded(edges, subs, key, k - 1);
      assert HasSibling(edges, subs, key, k) <==>
             HasSibling(edges, subs, key, k - 1) || GivesSibling(edges, subs, key, k - 1);
    }
  }

  lemma {:induction false} KeysExist(edges: seq<Edge>, subs: set<string>, key: string, shared: bool, k: nat)
    requires k <= |edges| && shared == Shared(edges, subs, key, |edges|)
    ensures key in KeyOrder(edges, subs, k) <==> shared && HasSibling(edges, subs, key, k)
  {
    if k > 0 {
      KeysExist(edges, subs, key, shared, k - 1);
      KeysAdded(edges, subs, key, k - 1);
    }
  }

  lemma KeyIsShared(edges: seq<Edge>, subs: set<string>, key: string, k: nat)
    requires k <= |edges|
    ensures key in KeyOrder(edges, subs, k) <==>
              Shared(edges, subs, key, |edges|) && SiblingsOn(edges, subs, key, k) != []
  {
    SiblingsExist(edges, subs, key, k);
    KeysExist(edges, subs, key, Shared(edges, subs, key, |edges|), k);
  }

  lemma {:induction false} NoKeys(edges: seq<Edge>, k: nat)
    requires k <= |edges|
    ensures KeyOrder(edges, {}, k) == []
  {
    if k > 0 {
      NoKeys(edges, k - 1);
    }
  }

  /** Without boards nothing is derived. */
  lemma NoBoards(edges: seq<Edge>)
    ensures Feeds(edges, {}) == edges
  {
    NoKeys(edges, |edges|);
  }

  method AddSibling(order0: seq<string>, siblings0: map<string, seq<Sibling>>, toSubCus: map<string, real>,
                    key: string, s: Sibling) returns (order: seq<string>, siblings: map<string, seq<Sibling>>)
    requires InOrder(siblings0, order0)
    ensures order == AddKey(order0, key, key in toSubCus) && InOrder(siblings, order)
    ensures siblings == WithSibling(siblings0, key, s, key in toSubCus)
  {
    order, siblings := order0, siblings0;
    if key in toSubCus {
      if key !in siblings {
        order := order + [key];
      }
      siblings := siblings[key := (if key in siblings then siblings[key] else []) + [s]];
    }
  }

  function Listed(siblings: map<string, seq<Sibling>>, key: string): seq<Sibling> {
    if key in siblings then siblings[key] else []
  }

  ghost predicate Collected(edges: seq<Edge>, subs: set<string>, siblings: map<string, seq<Sibling>>, k: nat)
    requires k <= |edges|
  {
    forall key :: Shared(edges, subs, key, |edges|) ==> Listed(siblings, key) == SiblingsOn(edges, subs, key, k)
  }

  function WithSibling(siblings: map<string, seq<Sibling>>, key: string, s: Sibling, shared: bool):
    map<string, seq<Sibling>>
  {
    if shared then siblings[key := Listed(siblings, key) + [s]] else siblings
  }

  lemma SiblingListed(siblings: map<string, seq<Sibling>>, at: string, s: Sibling, shared: bool, key: string)
    requires key == at ==> shared
    ensures Listed(WithSibling(siblings, at, s, shared), key) == Listed(siblings, key) + if at == key then [s] else []
  {
  }

  lemma SiblingsCollected(edges: seq<Edge>, subs: set<string>, siblings: map<string, seq<Sibling>>, k: nat)
    requires k < |edges| && Collected(edges, subs, siblings, k) && edges[k].target !in subs
    ensures var e := edges[k];
            var half := WithSibling(siblings, SourceKey(e), Sibling(e.id, e.metered, true),
                                    Shared(edges, subs, SourceKey(e), |edges|));
            Collected(edges, subs, WithSibling(half, TargetKey(e), Sibling(e.id, e.metered, false),
                                               Shared(edges, subs, TargetKey(e), |edges|)), k + 1)
  {
    var e := edges[k];
    var atSource, atTarget := Sibling(e.id, e.metered, true), Sibling(e.id, e.metered, false);
    var fromSource := Shared(edges, subs, SourceKey(e), |edges|);
    var fromTarget := Shared(edges, subs, TargetKey(e), |edges|);
    var half := WithSibling(siblings, SourceKey(e), atSource, fromSource);
    forall key | Shared(edges, subs, key, |edges|)
      ensures Listed(WithSibling(half, TargetKey(e), atTarget, fromTarget), key) == SiblingsOn(edges, subs, key, k + 1)
    {
      SiblingListed(siblings, SourceKey(e), atSource, fromSource, key);
      SiblingListed(half, TargetKey(e), atTarget, fromTarget, key);
      Appended(Listed(siblings, key), if SourceKey(e) == key then [atSource] else [],
               if TargetKey(e) == key then [atTarget] else []);
    }
  }

  lemma Appended<T>(a: seq<T>, b: seq<T>, c: seq<T>)
    ensures a + b + c == a + (b + c)
  {
  }

  /** The order in which the table's keys were added. */
  ghost predicate InOrder(siblings: map<string, seq<Sibling>>, order: seq<string>) {
    forall key :: key in siblings <==> key in order
  }

  ghost predicate KeysShared(edges: seq<Edge>, subs: set<string>, toSubCus: map<string, real>) {
    forall key :: key in toSubCus <==> Shared(edges, subs, key, |edges|)
  }

  /** Both ends of edge k are listed under their handles, if those are shared. */
  method CollectEdge(edges: seq<Edge>, subs: set<string>, toSubCus: map<string, real>, k: nat,
                     order0: seq<string>, siblings0: map<string, seq<Sibling>>)
    returns (order: seq<string>, siblings: map<string, seq<Sibling>>)
    requires k < |edges| && edges[k].target !in subs
    requires SourceKey(edges[k]) in toSubCus <==> Shared(edges, subs, SourceKey(edges[k]), |edges|)
    requires TargetKey(edges[k]) in toSubCus <==> Shared(edges, subs, TargetKey(edges[k]), |edges|)
    requires order0 == KeyOrder(edges, subs, k)
    requires InOrder(siblings0, order0) && Collected(edges, subs, siblings0, k)
    ensures order == KeyOrder(edges, subs, k + 1)
    ensures InOrder(siblings, order) && Collected(edges, subs, siblings, k + 1)
  {
    var e := edges[k];
    SiblingsCollected(edges, subs, siblings0, k);
    order, siblings := AddSibling(order0, siblings0, toSubCus, SourceKey(e), Sibling(e.id, e.metered, true));
    order, siblings := AddSibling(order, siblings, toSubCus, TargetKey(e), Sibling(e.id, e.metered, false));
  }

  lemma FeedCollects(edges: seq<Edge>, subs: set<string>, siblings: map<string, seq<Sibling>>, k: nat)
    requires k < |edges| && Collected(edges, subs, siblings, k) && edges[k].target in subs
    ensures Collected(edges, subs, siblings, k + 1)
  {
  }

  method CollectSiblings(edges: seq<Edge>, subs: set<string>, toSubCus: map<string, real>)
    returns (order: seq<string>, siblings: map<string, seq<Sibling>>)
    requires KeysShared(edges, subs, toSubCus)
    ensures order == KeyOrder(edges, subs, |edges|)
    ensures InOrder(siblings, order) && Collected(edges, subs, siblings, |edges|)
  {
    order, siblings := [], map[];
    for k := 0 to |edges|
      invariant order == KeyOrder(edges, subs, k)
      invariant InOrder(siblings, order) && Collected(edges, subs, siblings, k)
    {
      if edges[k].target in subs {
        FeedCollects(edges, subs, siblings, k);
      } else {
        order, siblings := CollectEdge(edges, subs, toSubCus, k, order, siblings);
      }
    }
  }

  ghost predicate DrawnBy(edges: seq<Edge>, subs: set<string>, totals: Totals, toSubCus: map<string, real>, k: nat)
    requires k <= |edges|
  {
    && (forall key :: key in toSubCus <==> Shared(edges, subs, key, k))
    && forall key :: Drawn(edges, subs, totals, key, k) == if key in toSubCus then toSubCus[key] else 0.0
  }

  method ApplyRemainder(edges: seq<Edge>, subs: set<string>, toSubCus: map<string, real>, ghost totals: Totals,
                        siblings: map<string, seq<Sibling>>, before: map<string, real>, key: string)
    returns (remainderKw: map<string, real>)
    requires key in toSubCus && toSubCus[key] == Drawn(edges, subs, totals, key, |edges|)
    requires key in siblings && siblings[key] == SiblingsOn(edges, subs, key, |edges|)
    ensures remainderKw == Record(before, EntryFor(edges, subs, totals, key))
  {
    remainderKw := before;
    var list := siblings[key];
    if |list| == 1 && list[0].metered.Some? {
      var away := (if list[0].atSource then -list[0].metered.value else list[0].metered.value) - toSubCus[key];
      remainderKw := before[list[0].id := if list[0].atSource then -away else away];
    }
  }

  method ComputeRemainders(edges: seq<Edge>, subs: set<string>, toSubCus: map<string, real>, ghost totals: Totals)
    returns (remainderKw: map<string, real>)
    requires DrawnBy(edges, subs, totals, toSubCus, |edges|)
    ensures remainderKw == AllRemainders(edges, subs, totals)
  {
    var order, siblings := CollectSiblings(edges, subs, toSubCus);
    ghost var entries := Entries(edges, subs, totals, order);
    remainderKw := map[];
    for n := 0 to |order|
      invariant remainderKw == Remainders(entries, n)
    {
      var key := order[n];
      KeyIsShared(edges, subs, key, |edges|);
      assert Listed(siblings, key) == SiblingsOn(edges, subs, key, |edges|);
      remainderKw := ApplyRemainder(edges, subs, toSubCus, totals, siblings, remainderKw, key);
    }
  }

  lemma DrawnStep(edges: seq<Edge>, subs: set<string>, totals: Totals, toSubCus: map<string, real>, k: nat)
    requires k < |edges| && edges[k].target in subs && DrawnBy(edges, subs, totals, toSubCus, k)
    ensures var key := SourceKey(edges[k]);
            var sum := if key in toSubCus then toSubCus[key] else 0.0;
            DrawnBy(edges, subs, totals, toSubCus[key := sum - Lookup(totals, edges[k].target).kw], k + 1)
  {
    assert Shared(edges, subs, SourceKey(edges[k]), k + 1);
  }

  lemma NoDrawStep(edges: seq<Edge>, subs: set<string>, totals: Totals, toSubCus: map<string, real>, k: nat)
    requires k < |edges| && edges[k].target !in subs && DrawnBy(edges, subs, totals, toSubCus, k)
    ensures DrawnBy(edges, subs, totals, toSubCus, k + 1)
  {
  }

  /** The first pass: what each handle hands to boards. */
  method DrawFeeds(board: BoardTotals, edges: seq<Edge>, subs: set<string>) returns (toSubCus: map<string, real>)
    requires board.edges == edges && board.subs == subs && board.totals == map[] && board.visiting == {}
    modifies board
    ensures board.visiting == {} && board.totals == AllTotals(edges, subs)
    ensures DrawnBy(edges, subs, AllTotals(edges, subs), toSubCus, |edges|)
  {
    ghost var all := AllTotals(edges, subs);
    toSubCus := map[];
    for k := 0 to |edges|
      invariant board.visiting == {} && board.totals == FeedTotals(edges, subs, k)
      invariant DrawnBy(edges, subs, all, toSubCus, k)
    {
      var e := edges[k];
      if e.target in subs {
        FeedTotalFinal(edges, subs, k);
        DrawnStep(edges, subs, all, toSubCus, k);
        var total := board.TotalFor(e.target);
        var key := SourceKey(e);
        toSubCus := toSubCus[key := (if key in toSubCus then toSubCus[key] else 0.0) - total.kw];
      } else {
        NoDrawStep(edges, subs, all, toSubCus, k);
      }
    }
  }

  /** The last pass: feeds and remainders stamped on their edges. */
  method StampFeeds(board: BoardTotals, edges: seq<Edge>, subs: set<string>, remainderKw: map<string, real>)
    returns (out: seq<Edge>)
    requires board.edges == edges && board.subs == subs
    requires board.totals == AllTotals(edges, subs) && board.visiting == {}
    modifies board
    ensures |out| == |edges|
    ensures forall i :: 0 <= i < |edges| ==> out[i] == Fed(edges[i], subs, AllTotals(edges, subs), remainderKw)
  {
    ghost var all := AllTotals(edges, subs);
    out := [];
    for k := 0 to |edges|
      invariant board.visiting == {} && board.totals == all && |out| == k
      invariant forall i :: 0 <= i < k ==> out[i] == Fed(edges[i], subs, all, remainderKw)
    {
      var e := edges[k];
      if e.target in subs {
        FeedTotalFinal(edges, subs, k);
        var total := board.TotalFor(e.target);
        e := e.(kw := Some(total.kw), idle := Some(total.idle));
      } else if e.id in remainderKw {
        e := e.(kw := Some(remainderKw[e.id]));
      }
      out := out + [e];
    }
  }

  method WithSubCuFeeds(edges: seq<Edge>, subs: set<string>) returns (out: seq<Edge>)
    ensures out == Feeds(edges, subs)
  {
    if subs == {} {
      NoBoards(edges);
      return edges;
    }
    var board := new BoardTotals(edges, subs);
    var toSubCus := DrawFeeds(board, edges, subs);
    var remainderKw := ComputeRemainders(edges, subs, toSubCus, board.totals);
    out := StampFeeds(board, edges, subs, remainderKw);
  }

  // ---- withUnallocated -------------------------------------------------------------------

  const UNALLOCATED_EDGE_ID: string := "consumer_unit-unallocated-unallocated-power-in"
  const CONSUMER_UNIT: string := "consumer_unit"

  predicate IsTariffEdge(e: Edge) {
    e.targetHandle == "tariff" || e.sourceHandle == "tariff"
  }

  predicate IsUnallocated(e: Edge) {
    e.id == UNALLOCATED_EDGE_ID
  }

  /** What an edge brings into the consumer unit. */
  function Intake(e: Edge): real {
    if e.target == CONSUMER_UNIT then -KwOf(e)
    else if e.source == CONSUMER_UNIT then KwOf(e)
    else 0.0
  }

  /** What the first k edges bring in and no metered circuit takes out. */
  function RawKw(edges: seq<Edge>, k: nat): real
    requires k <= |edges|
  {
    if k == 0 then 0.0
    else
      var e := edges[k - 1];
      RawKw(edges, k - 1) + if IsUnallocated(e) || IsTariffEdge(e) then 0.0 else Intake(e)
  }

  function Allotted(e: Edge, raw: real): Edge {
    if IsUnallocated(e) then e.(kw := Some(-Positive(raw)), raw := Some(raw)) else e
  }

  function Unallocated(edges: seq<Edge>): (out: seq<Edge>)
    ensures |out| == |edges|
  {
    seq(|edges|, i requires 0 <= i < |edges| => Allotted(edges[i], RawKw(edges, |edges|)))
  }

  method WithUnallocated(edges: seq<Edge>) returns (out: seq<Edge>)
    ensures out == Unallocated(edges)
  {
    var rawKw := 0.0;
    for k := 0 to |edges|
      invariant rawKw == RawKw(edges, k)
    {
      var e := edges[k];
      if !(e.id == UNALLOCATED_EDGE_ID || IsTariffEdge(e)) {
        if e.target == CONSUMER_UNIT {
          rawKw := rawKw - KwOf(e);
        } else if e.source == CONSUMER_UNIT {
          rawKw := rawKw + KwOf(e);
        }
      }
    }
    var kw := -(if rawKw > 0.0 then rawKw else 0.0);
    out := seq(|edges|, i requires 0 <= i < |edges| =>
      if edges[i].id != UNALLOCATED_EDGE_ID then edges[i] else edges[i].(kw := Some(kw), raw := Some(rawKw)));
  }

  function Derived(edges: seq<Edge>, subs: set<string>): (out: seq<Edge>)
    ensures |out| == |edges|
  {
    Unallocated(Feeds(edges, subs))
  }

  method WithDerivedFlows(edges: seq<Edge>, subs: set<string>) returns (out: seq<Edge>)
    ensures out == Derived(edges, subs)
  {
    out := WithSubCuFeeds(edges, subs);
    out := WithUnallocated(out);
  }
}
