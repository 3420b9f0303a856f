/** firmware/html_app/src/Topology.tsx: the power flows that no meter reads. */
module Topology {
  import opened Options
  import Finite
  import opened Sums

  /** kw is negative from source to target. A missing handle is the empty string. */
  datatype Edge = Edge(id: string, source: string, sourceHandle: string, target: string, targetHandle: string,
                       kw: Option<real>, idle: Option<bool>, metered: Option<real>, raw: Option<real>)

  datatype Total = Total(kw: real, idle: bool)

  type Totals = map<string, Total>

  function KwOf(e: Edge): real {
    if e.kw.Some? then e.kw.value else 0.0
  }

  function Reading(e: Edge): Total {
    Total(KwOf(e), e.idle == Some(true))
  }

  /** A flow added to a board's total; an idle or empty circuit leaves the board idle. */
  function Join(total: Total, flow: Total): Total {
    Total(total.kw + flow.kw, total.idle && (flow.idle || flow.kw == 0.0))
  }

  function Lookup(totals: Totals, b: string): Total {
    if b in totals then totals[b] else Total(0.0, true)
  }

  // ---- The memoised recursion -------------------------------------------------------

  ghost predicate Extends(after: Totals, before: Totals) {
    forall b :: b in before ==> b in after && after[b] == before[b]
  }

  /** The total of board b, and the table of totals afterwards. */
  function TotalOf(edges: seq<Edge>, subs: set<string>, totals: Totals, visiting: set<string>, b: string):
    (r: (Total, Totals))
    requires b in subs && visiting <= subs
    ensures Extends(r.1, totals)
    ensures forall x :: x in visiting && x in r.1 ==> x in totals
    ensures b !in visiting ==> b in r.1 && r.1[b] == r.0
    decreases subs - visiting, 0
  {
    if b in totals then (totals[b], totals)
    else if b in visiting then (Total(0.0, true), totals)
    else
      var (total, after) := Gather(edges, subs, totals, visiting + {b}, b, |edges|);
      (total, after[b := total])
  }

  /** What the first k edges add to board b. */
  function Gather(edges: seq<Edge>, subs: set<string>, totals: Totals, visiting: set<string>, b: string, k: nat):
    (r: (Total, Totals))
    requires b in visiting && visiting <= subs && k <= |edges|
    ensures Extends(r.1, totals)
    ensures forall x :: x in visiting && x in r.1 ==> x in totals
    decreases subs - visiting, k
  {
    if k == 0 then (Total(0.0, true), totals)
    else
      var (total, after) := Gather(edges, subs, totals, visiting, b, k - 1);
      var e := edges[k - 1];
      if e.source != b then (total, after)
      else if e.target !in subs then (Join(total, Reading(e)), after)
      else
        var (flow, deeper) := TotalOf(edges, subs, after, visiting, e.target);
        (Join(total, flow), deeper)
  }

  class BoardTotals {
    const edges: seq<Edge>
    const subs: set<string>
    var totals: Totals
    var visiting: set<string>

    constructor (edges: seq<Edge>, subs: set<string>)
      ensures this.edges == edges && this.subs == subs && totals == map[] && visiting == {}
    {
      this.edges, this.subs := edges, subs;
      totals, visiting := map[], {};
    }

    /** Returns on every wiring, loops included. */
    method TotalFor(b: string) returns (total: Total)
      requires b in subs && visiting <= subs
      modifies this
      ensures (total, totals) == TotalOf(edges, subs, old(totals), old(visiting), b)
      ensures visiting == old(visiting)
      decreases subs - visiting
    {
      if b in totals {
        return totals[b];
      }
      if b in visiting {
        return Total(0.0, true);
      }
      ghost var outer := visiting;
      visiting := visiting + {b};
      var kw, idle := 0.0, true;
      for k := 0 to |edges|
        invariant visiting == outer + {b}
        invariant (Total(kw, idle), totals) == Gather(edges, subs, old(totals), outer + {b}, b, k)
      {
        var e := edges[k];
        if e.source == b {
          var flow := Reading(e);
          if e.target in subs {
            flow := TotalFor(e.target);
          }
          kw := kw + flow.kw;
          if !flow.idle && flow.kw != 0.0 {
            idle := false;
          }
        }
      }
      visiting := visiting - {b};
      total := Total(kw, idle);
      totals := totals[b := total];
    }
  }

  /** A board that feeds nothing but itself carries nothing. */
  lemma {:induction false} SelfFedBoard(edges: seq<Edge>, subs: set<string>, b: string, k: nat)
    requires b in subs && k <= |edges| && forall e :: e in edges && e.source == b ==> e.target == b
    ensures Gather(edges, subs, map[], {b}, b, k) == (Total(0.0, true), map[])
    ensures k == |edges| ==> TotalOf(edges, subs, map[], {}, b).0 == Total(0.0, true)
  {
    if k > 0 {
      SelfFedBoard(edges, subs, b, k - 1);
      assert edges[k - 1] in edges;
    }
    assert {} + {b} == {b};
  }

  // ---- The declarative total ------------------------------------------------------------

  /** The circuits of board b among the first k edges, added up with nested boards
      at the totals given. */
  function Circuits(edges: seq<Edge>, subs: set<string>, totals: Totals, b: string, k: nat): Total
    requires k <= |edges|
  {
    if k == 0 then Total(0.0, true)
    else
      var e, total := edges[k - 1], Circuits(edges, subs, totals, b, k - 1);
      if e.source != b then total
      else Join(total, if e.target in subs then Lookup(totals, e.target) else Reading(e))
  }

  predicate NestedKnown(edges: seq<Edge>, subs: set<string>, totals: Totals, b: string, k: nat)
    requires k <= |edges|
  {
    forall i :: 0 <= i < k && edges[i].source == b && edges[i].target in subs ==> edges[i].target in totals
  }

  /** Every board in the table carries exactly what its circuits carry. */
  ghost predicate Balanced(edges: seq<Edge>, subs: set<string>, totals: Totals) {
    forall b :: b in totals ==>
      NestedKnown(edges, subs, totals, b, |edges|) && totals[b] == Circuits(edges, subs, totals, b, |edges|)
  }

  /** rank falls along every nesting of boards. */
  ghost predicate Ranked(edges: seq<Edge>, subs: set<string>, rank: map<string, nat>) {
    && subs <= rank.Keys
    && forall e :: e in edges && e.source in subs && e.target in subs ==> rank[e.target] < rank[e.source]
  }

  lemma {:induction false} CircuitsStable(edges: seq<Edge>, subs: set<string>, totals: Totals, after: Totals,
                                          b: string, k: nat)
    requires k <= |edges| && NestedKnown(edges, subs, totals, b, k) && Extends(after, totals)
    ensures Circuits(edges, subs, after, b, k) == Circuits(edges, subs, totals, b, k)
  {
    if k > 0 {
      CircuitsStable(edges, subs, totals, after, b, k - 1);
    }
  }

  lemma {:induction false} GatherBalanced(edges: seq<Edge>, subs: set<string>, rank: map<string, nat>,
                                          totals: Totals, visiting: set<string>, b: string, k: nat)
    requires Ranked(edges, subs, rank) && b in visiting && visiting <= subs && k <= |edges|
    requires forall v :: v in visiting ==> rank[v] >= rank[b]
    requires Balanced(edges, subs, totals)
    ensures var (total, after) := Gather(edges, subs, totals, visiting, b, k);
            && Balanced(edges, subs, after) && NestedKnown(edges, subs, after, b, k)
            && total == Circuits(edges, subs, after, b, k)
    decreases rank[b], k
  {
    if k > 0 {
      GatherBalanced(edges, subs, rank, totals, visiting, b, k - 1);
      var (_, after) := Gather(edges, subs, totals, visiting, b, k - 1);
      var e := edges[k - 1];
      if e.source == b && e.target in subs {
        assert e in edges;
        TotalBalanced(edges, subs, rank, after, visiting, e.target);
        var (flow, deeper) := TotalOf(edges, subs, after, visiting, e.target);
        CircuitsStable(edges, subs, after, deeper, b, k - 1);
      }
    }
  }

  /** Without loops the recursion keeps the table balanced. */
  lemma {:induction false} TotalBalanced(edges: seq<Edge>, subs: set<string>, rank: map<string, nat>,
                                         totals: Totals, visiting: set<string>, b: string)
    requires Ranked(edges, subs, rank) && b in subs && visiting <= subs
    requires forall v :: v in visiting ==> rank[v] > rank[b]
    requires Balanced(edges, subs, totals)
    ensures Balanced(edges, subs, TotalOf(edges, subs, totals, visiting, b).1)
    decreases rank[b], |edges| + 1
  {
    if b !in totals {
      GatherBalanced(edges, subs, rank, totals, visiting + {b}, b, |edges|);
      var (total, after) := Gather(edges, subs, totals, visiting + {b}, b, |edges|);
      Enter(edges, subs, after, b, total);
    }
  }

  lemma Enter(edges: seq<Edge>, subs: set<string>, totals: Totals, b: string, total: Total)
    requires Balanced(edges, subs, totals) && b !in totals
    requires NestedKnown(edges, subs, totals, b, |edges|) && total == Circuits(edges, subs, totals, b, |edges|)
    ensures Balanced(edges, subs, totals[b := total])
  {
    forall x | x in totals || x == b
      ensures Circuits(edges, subs, totals[b := total], x, |edges|) == Circuits(edges, subs, totals, x, |edges|)
      ensures NestedKnown(edges, subs, totals[b := total], x, |edges|)
    {
      CircuitsStable(edges, subs, totals, totals[b := total], x, |edges|);
    }
  }

  lemma {:induction false} CircuitsAgree(edges: seq<Edge>, subs: set<string>, s: Totals, t: Totals, b: string, k: nat)
    requires k <= |edges|
    requires forall i :: 0 <= i < k && edges[i].source == b && edges[i].target in subs ==>
               Lookup(s, edges[i].target) == Lookup(t, edges[i].target)
    ensures Circuits(edges, subs, s, b, k) == Circuits(edges, subs, t, b, k)
  {
    if k > 0 {
      CircuitsAgree(edges, subs, s, t, b, k - 1);
    }
  }

  /** Without loops there is one way to balance. */
  lemma {:induction false} BalanceUnique(edges: seq<Edge>, subs: set<string>, rank: map<string, nat>,
                                         s: Totals, t: Totals, b: string)
    requires Ranked(edges, subs, rank) && b in subs
    requires Balanced(edges, subs, s) && Balanced(edges, subs, t) && b in s && b in t
    ensures s[b] == t[b]
    decreases rank[b]
  {
    forall i | 0 <= i < |edges| && edges[i].source == b && edges[i].target in subs
      ensures Lookup(s, edges[i].target) == Lookup(t, edges[i].target)
    {
      assert edges[i] in edges;
      BalanceUnique(edges, subs, rank, s, t, edges[i].target);
    }
    CircuitsAgree(edges, subs, s, t, b, |edges|);
  }

  // ---- Loops and ranks ------------------------------------------------------------------

  predicate Nests(edges: seq<Edge>, subs: set<string>, a: string, b: string) {
    a in subs && b in subs && exists i :: 0 <= i < |edges| && edges[i].source == a && edges[i].target == b
  }

  predicate NestsAt(edges: seq<Edge>, subs: set<string>, w: seq<string>, i: int) {
    0 <= i < |w| - 1 && Nests(edges, subs, w[i], w[i + 1])
  }

  ghost predicate IsNesting(edges: seq<Edge>, subs: set<string>, w: seq<string>) {
    w != [] && forall i :: 0 <= i < |w| - 1 ==> NestsAt(edges, subs, w, i)
  }

  /** No board hangs off itself, however indirectly. */
  ghost predicate NoLoop(edges: seq<Edge>, subs: set<string>) {
    forall w :: IsNesting(edges, subs, w) && |w| > 1 ==> w[0] != w[|w| - 1]
  }

  lemma {:induction false} RankFalls(edges: seq<Edge>, subs: set<string>, rank: map<string, nat>, w: seq<string>)
    requires Ranked(edges, subs, rank) && IsNesting(edges, subs, w) && |w| > 1
    ensures w[0] in subs && w[|w| - 1] in subs && rank[w[|w| - 1]] < rank[w[0]]
  {
    var n := |w| - 2;
    assert NestsAt(edges, subs, w, n);
    var i :| 0 <= i < |edges| && edges[i].source == w[n] && edges[i].target == w[n + 1];
    assert edges[i] in edges;
    if n > 0 {
      var init := w[..n + 1];
      forall i | 0 <= i < |init| - 1
        ensures NestsAt(edges, subs, init, i)
      {
        assert NestsAt(edges, subs, w, i);
      }
      RankFalls(edges, subs, rank, init);
    }
  }

  lemma NestingGrows(edges: seq<Edge>, subs: set<string>, w: seq<string>, b: string)
    requires IsNesting(edges, subs, w) && Nests(edges, subs, w[|w| - 1], b)
    ensures IsNesting(edges, subs, w + [b])
  {
    forall i | 0 <= i < |w|
      ensures NestsAt(edges, subs, w + [b], i)
    {
      if i < |w| - 1 {
        assert NestsAt(edges, subs, w, i);
      }
    }
  }

  lemma NestingPart(edges: seq<Edge>, subs: set<string>, w: seq<string>, i: nat, j: nat)
    requires IsNesting(edges, subs, w) && i < j < |w|
    ensures IsNesting(edges, subs, w[i..j + 1])
  {
    var part := w[i..j + 1];
    forall k | 0 <= k < |part| - 1
      ensures NestsAt(edges, subs, part, k)
    {
      assert NestsAt(edges, subs, w, i + k);
    }
  }

  ghost predicate Onward(edges: seq<Edge>, subs: set<string>, rest: set<string>, a: string) {
    exists b :: b in rest && Nests(edges, subs, a, b)
  }

  /** A walk of n steps that stays inside rest, when every board there has a next one there. */
  lemma {:induction false} WalkInside(edges: seq<Edge>, subs: set<string>, rest: set<string>, n: nat)
    returns (w: seq<string>)
    requires rest != {}
    requires forall a {:trigger Onward(edges, subs, rest, a)} :: a in rest ==> Onward(edges, subs, rest, a)
    ensures IsNesting(edges, subs, w) && |w| == n + 1 && forall x :: x in w ==> x in rest
  {
    if n == 0 {
      var a :| a in rest;
      w := [a];
    } else {
      var init := WalkInside(edges, subs, rest, n - 1);
      assert init[n - 1] in rest && Onward(edges, subs, rest, init[n - 1]);
      var b :| b in rest && Nests(edges, subs, init[n - 1], b);
      w := init + [b];
      NestingGrows(edges, subs, init, b);
    }
  }

  /** Boards that always lead to one another contain a loop. */
  lemma TrappedMeansLoop(edges: seq<Edge>, subs: set<string>, rest: set<string>)
    requires rest != {}
    requires forall a {:trigger Onward(edges, subs, rest, a)} :: a in rest ==> Onward(edges, subs, rest, a)
    ensures !NoLoop(edges, subs)
  {
    var w := WalkInside(edges, subs, rest, |rest|);
    Finite.Repeats(w, rest);
    var i, j :| 0 <= i < j < |w| && w[i] == w[j];
    var loop := w[i..j + 1];
    NestingPart(edges, subs, w, i, j);
    assert loop[0] == loop[|loop| - 1];
  }

  /** Ranks handed out so far: to boards all of whose nested boards have lower ones. */
  ghost predicate RankedSoFar(edges: seq<Edge>, subs: set<string>, rank: map<string, nat>) {
    && rank.Keys <= subs
    && (forall a :: a in rank ==> rank[a] < |rank|)
    && forall a, b :: a in rank && Nests(edges, subs, a, b) ==> b in rank && rank[b] < rank[a]
  }

  lemma AllRanked(edges: seq<Edge>, subs: set<string>, rank: map<string, nat>)
    requires RankedSoFar(edges, subs, rank) && subs - rank.Keys == {}
    ensures Ranked(edges, subs, rank)
  {
    assert forall b :: b in subs ==> b in subs - rank.Keys || b in rank;
    forall e | e in edges && e.source in subs && e.target in subs
      ensures e.source in rank && e.target in rank && rank[e.target] < rank[e.source]
    {
      assert Nests(edges, subs, e.source, e.target);
    }
  }

  lemma {:induction false} RankRest(edges: seq<Edge>, subs: set<string>, done: map<string, nat>)
    returns (rank: map<string, nat>)
    requires NoLoop(edges, subs) && RankedSoFar(edges, subs, done)
    ensures Ranked(edges, subs, rank)
    decreases subs - done.Keys
  {
    var rest := subs - done.Keys;
    if rest == {} {
      rank := done;
      AllRanked(edges, subs, rank);
    } else {
      if forall a {:trigger Onward(edges, subs, rest, a)} :: a in rest ==> Onward(edges, subs, rest, a) {
        TrappedMeansLoop(edges, subs, rest);
      }
      var a :| a in rest && !Onward(edges, subs, rest, a);
      assert forall b :: b in rest ==> !Nests(edges, subs, a, b);
      rank := RankRest(edges, subs, done[a := |done|]);
    }
  }

  /** Boards can be ranked exactly when no board hangs off itself. */
  lemma NoLoopIffRanked(edges: seq<Edge>, subs: set<string>)
    ensures NoLoop(edges, subs) <==> exists rank :: Ranked(edges, subs, rank)
  {
    if NoLoop(edges, subs) {
      var rank := RankRest(edges, subs, map[]);
    }
    if rank :| Ranked(edges, subs, rank) {
      forall w | IsNesting(edges, subs, w) && |w| > 1
        ensures w[0] != w[|w| - 1]
      {
        RankFalls(edges, subs, rank, w);
      }
    }
  }

  // ---- The order of the edges ----------------------------------------------------------------

  function FlowOf(subs: set<string>, totals: Totals, b: string, e: Edge): Total {
    if e.source != b then Total(0.0, true)
    else if e.target in subs then Lookup(totals, e.target) else Reading(e)
  }

  predicate Quiet(flow: Total) {
    flow.idle || flow.kw == 0.0
  }

  lemma {:induction false} CircuitsAsSum(edges: seq<Edge>, subs: set<string>, totals: Totals, b: string, k: nat)
    requires k <= |edges|
    ensures var total := Circuits(edges, subs, totals, b, k);
            && total.kw == Sum(e => FlowOf(subs, totals, b, e).kw, edges[..k])
            && (total.idle <==> forall e :: e in edges[..k] ==> Quiet(FlowOf(subs, totals, b, e)))
  {
    if k > 0 {
      var f := (e: Edge) => FlowOf(subs, totals, b, e).kw;
      CircuitsAsSum(edges, subs, totals, b, k - 1);
      assert edges[..k] == edges[..k - 1] + [edges[k - 1]];
      SumAppend(f, edges[..k - 1], [edges[k - 1]]);
      SumSingle(f, edges[k - 1]);
    }
  }

  /** What an edge of board b shows; nothing while it has not been read. */
  function Shown(b: string): Edge -> real {
    (e: Edge) => if e.source == b && e.kw.Some? then e.kw.value else 0.0
  }

  /** A board without nested boards: its total is what its edges show, and it is idle exactly
      when each of them is known idle, unread or shows nothing. */
  lemma {:induction false} PlainBoard(edges: seq<Edge>, subs: set<string>, totals: Totals, b: string, k: nat)
    requires k <= |edges| && forall e :: e in edges && e.source == b ==> e.target !in subs
    ensures Circuits(edges, subs, totals, b, k).kw == Sum(Shown(b), edges[..k])
    ensures Circuits(edges, subs, totals, b, k).idle <==>
            forall e :: e in edges[..k] && e.source == b ==>
              e.idle == Some(true) || e.kw.None? || e.kw.value == 0.0
  {
    if k > 0 {
      PlainBoard(edges, subs, totals, b, k - 1);
      assert edges[k - 1] in edges;
      assert edges[..k] == edges[..k - 1] + [edges[k - 1]];
      SumAppend(Shown(b), edges[..k - 1], [edges[k - 1]]);
      SumSingle(Shown(b), edges[k - 1]);
    }
  }

  /** A board's circuits add up to the same in any order. */
  lemma CircuitsReordered(edges: seq<Edge>, other: seq<Edge>, subs: set<string>, totals: Totals, b: string)
    requires multiset(edges) == multiset(other)
    ensures Circuits(edges, subs, totals, b, |edges|) == Circuits(other, subs, totals, b, |other|)
  {
    CircuitsAsSum(edges, subs, totals, b, |edges|);
    CircuitsAsSum(other, subs, totals, b, |other|);
    assert edges[..|edges|] == edges && other[..|other|] == other;
    SumPermutation(e => FlowOf(subs, totals, b, e).kw, edges, other);
    assert forall e :: e in edges <==> e in multiset(edges);
    assert forall e :: e in other <==> e in multiset(other);
  }

  lemma BalancedReordered(edges: seq<Edge>, other: seq<Edge>, subs: set<string>, totals: Totals)
    requires multiset(edges) == multiset(other) && Balanced(edges, subs, totals)
    ensures Balanced(other, subs, totals)
  {
    assert forall e :: e in other ==> e in multiset(other);
    forall b | b in totals
      ensures NestedKnown(other, subs, totals, b, |other|)
      ensures totals[b] == Circuits(other, subs, totals, b, |other|)
    {
      CircuitsReordered(edges, other, subs, totals, b);
      forall i | 0 <= i < |other| && other[i].source == b && other[i].target in subs
        ensures other[i].target in totals
      {
        assert other[i] in multiset(edges);
        var j :| 0 <= j < |edges| && edges[j] == other[i];
      }
    }
  }

  // ---- Routes -----------------------------------------------------------------------------

  /** In how many ways board c hangs below board a. */
  function Routes(edges: seq<Edge>, subs: set<string>, rank: map<string, nat>, a: string, c: string): nat
    requires Ranked(edges, subs, rank) && a in subs
    decreases rank[a], |edges| + 1
  {
    (if a == c then 1 else 0) + RoutesVia(edges, subs, rank, a, c, |edges|)
  }

  /** Those that start along one of the first k edges. */
  function RoutesVia(edges: seq<Edge>, subs: set<string>, rank: map<string, nat>, a: string, c: string, k: nat): nat
    requires Ranked(edges, subs, rank) && a in subs && k <= |edges|
    decreases rank[a], k
  {
    if k == 0 then 0
    else
      var e := edges[k - 1];
      assert e in edges;
      RoutesVia(edges, subs, rank, a, c, k - 1)
        + if e.source == a && e.target in subs then Routes(edges, subs, rank, e.target, c) else 0
  }

  /** The loads of all boards, each counted as often as its board is. */
  function Loads(edges: seq<Edge>, subs: set<string>, times: string -> int, k: nat): real
    requires k <= |edges|
  {
    if k == 0 then 0.0
    else
      var e := edges[k - 1];
      Loads(edges, subs, times, k - 1)
        + if e.source in subs && e.target !in subs then Counted(times(e.source), KwOf(e)) else 0.0
  }

  function Counted(n: int, kw: real): real {
    n as real * kw
  }

  lemma {:induction false} LoadsAdd(edges: seq<Edge>, subs: set<string>, f: string -> int, g: string -> int,
                                    h: string -> int, k: nat)
    requires k <= |edges| && forall c :: h(c) == f(c) + g(c)
    ensures Loads(edges, subs, h, k) == Loads(edges, subs, f, k) + Loads(edges, subs, g, k)
  {
    if k > 0 {
      LoadsAdd(edges, subs, f, g, h, k - 1);
      var e := edges[k - 1];
      assert h(e.source) as real == f(e.source) as real + g(e.source) as real;
      assert Counted(h(e.source), KwOf(e)) == Counted(f(e.source), KwOf(e)) + Counted(g(e.source), KwOf(e));
    }
  }

  lemma {:induction false} LoadsNone(edges: seq<Edge>, subs: set<string>, f: string -> int, k: nat)
    requires k <= |edges| && forall c :: f(c) == 0
    ensures Loads(edges, subs, f, k) == 0.0
  {
    if k > 0 {
      LoadsNone(edges, subs, f, k - 1);
    }
  }

  /** The loads on board b itself among the first k edges. */
  function OwnLoads(edges: seq<Edge>, subs: set<string>, b: string, k: nat): real
    requires k <= |edges|
  {
    if k == 0 then 0.0
    else
      var e := edges[k - 1];
      OwnLoads(edges, subs, b, k - 1) + if e.source == b && e.target !in subs then KwOf(e) else 0.0
  }

  lemma {:induction false} OwnLoadsCounted(edges: seq<Edge>, subs: set<string>, b: string, f: string -> int, k: nat)
    requires k <= |edges| && b in subs && forall c :: f(c) == if c == b then 1 else 0
    ensures Loads(edges, subs, f, k) == OwnLoads(edges, subs, b, k)
  {
    if k > 0 {
      OwnLoadsCounted(edges, subs, b, f, k - 1);
      var e := edges[k - 1];
      assert Counted(1, KwOf(e)) == KwOf(e) && Counted(0, KwOf(e)) == 0.0;
    }
  }

  lemma {:induction false} CircuitsByRoutes(edges: seq<Edge>, subs: set<string>, rank: map<string, nat>, totals: Totals,
                                            b: string, k: nat)
    requires Ranked(edges, subs, rank) && Balanced(edges, subs, totals) && b in subs && k <= |edges|
    requires NestedKnown(edges, subs, totals, b, k)
    ensures Circuits(edges, subs, totals, b, k).kw
         == OwnLoads(edges, subs, b, k) + Loads(edges, subs, c => RoutesVia(edges, subs, rank, b, c, k), |edges|)
    decreases rank[b], k
  {
    var after: string -> int := c => RoutesVia(edges, subs, rank, b, c, k);
    if k == 0 {
      LoadsNone(edges, subs, after, |edges|);
    } else {
      CircuitsByRoutes(edges, subs, rank, totals, b, k - 1);
      var before: string -> int := c => RoutesVia(edges, subs, rank, b, c, k - 1);
      var e := edges[k - 1];
      if e.source == b && e.target in subs {
        assert e in edges;
        TotalByRoutes(edges, subs, rank, totals, e.target);
        LoadsAdd(edges, subs, before, c => Routes(edges, subs, rank, e.target, c), after, |edges|);
      } else {
        var none: string -> int := c => 0;
        LoadsNone(edges, subs, none, |edges|);
        LoadsAdd(edges, subs, before, none, after, |edges|);
      }
    }
  }

  /** A board's total is the sum of the loads below it, once for each way down to them. */
  lemma {:induction false} TotalByRoutes(edges: seq<Edge>, subs: set<string>, rank: map<string, nat>, totals: Totals,
                                         b: string)
    requires Ranked(edges, subs, rank) && Balanced(edges, subs, totals) && b in subs && b in totals
    ensures totals[b].kw == Loads(edges, subs, c => Routes(edges, subs, rank, b, c), |edges|)
    decreases rank[b], |edges| + 1
  {
    CircuitsByRoutes(edges, subs, rank, totals, b, |edges|);
    var own: string -> int := c => if c == b then 1 else 0;
    OwnLoadsCounted(edges, subs, b, own, |edges|);
    LoadsAdd(edges, subs, own, c => RoutesVia(edges, subs, rank, b, c, |edges|),
             c => Routes(edges, subs, rank, b, c), |edges|);
  }
}
