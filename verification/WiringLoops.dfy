/** firmware/html_app/src/Topology.tsx: what the memoised totals are on wiring with loops. A
    board that is reached again while it is being totalled counts nothing, so each board
    carries its circuits with those nested boards that were totalled before it. */
module WiringLoops {
  import opened Options
  import opened Topology
  import opened DerivedFlows

  // ---- The order in which boards are totalled ----------------------------------------------

  /** The boards totalled once b was asked for; the readings have no part in it. */
  function OrderOf(edges: seq<Edge>, subs: set<string>, order: seq<string>, visiting: set<string>, b: string):
    (r: seq<string>)
    requires b in subs && visiting <= subs
    ensures order <= r
    decreases subs - visiting, 0
  {
    if b in order || b in visiting then order
    else GatherOrder(edges, subs, order, visiting + {b}, b, |edges|) + [b]
  }

  function GatherOrder(edges: seq<Edge>, subs: set<string>, order: seq<string>, visiting: set<string>, b: string,
                       k: nat): (r: seq<string>)
    requires b in visiting && visiting <= subs && k <= |edges|
    ensures order <= r
    decreases subs - visiting, k
  {
    if k == 0 then order
    else
      var before, e := GatherOrder(edges, subs, order, visiting, b, k - 1), edges[k - 1];
      if e.source != b || e.target !in subs then before else OrderOf(edges, subs, before, visiting, e.target)
  }

  function FeedOrder(edges: seq<Edge>, subs: set<string>, k: nat): seq<string>
    requires k <= |edges|
  {
    if k == 0 then []
    else
      var before := FeedOrder(edges, subs, k - 1);
      if edges[k - 1].target in subs then OrderOf(edges, subs, before, {}, edges[k - 1].target) else before
  }

  function TotalOrder(edges: seq<Edge>, subs: set<string>): seq<string> {
    FeedOrder(edges, subs, |edges|)
  }

  function Position(order: seq<string>, b: string): (i: nat)
    ensures i <= |order| && (i < |order| ==> order[i] == b) && (i == |order| ==> b !in order)
    ensures forall j :: 0 <= j < i ==> order[j] != b
  {
    if order == [] || order[0] == b then 0 else 1 + Position(order[1..], b)
  }

  function Within(totals: Totals, order: seq<string>): Totals {
    map x | x in totals && x in order :: totals[x]
  }

  /** The totals known when b was totalled. */
  function KnownTo(edges: seq<Edge>, subs: set<string>, b: string): Totals {
    var order := TotalOrder(edges, subs);
    Within(AllTotals(edges, subs), order[..Position(order, b)])
  }

  // ---- The totals in that order --------------------------------------------------------------

  ghost predicate Distinct(order: seq<string>) {
    forall i, j :: 0 <= i < j < |order| ==> order[i] != order[j]
  }

  /** Board j of the order carries its circuits with the boards before it. */
  ghost predicate CarriesAt(edges: seq<Edge>, subs: set<string>, totals: Totals, order: seq<string>, j: nat)
    requires j < |order|
  {
    order[j] in totals && totals[order[j]] == Circuits(edges, subs, Within(totals, order[..j]), order[j], |edges|)
  }

  /** The table holds the boards of the order, each with its circuits and the boards before it. */
  ghost predicate Ordered(edges: seq<Edge>, subs: set<string>, totals: Totals, order: seq<string>) {
    && Distinct(order) && (forall b :: b in totals <==> b in order)
    && forall j :: 0 <= j < |order| ==> CarriesAt(edges, subs, totals, order, j)
  }

  /** The boards that b nests along the first k edges are totalled or in progress. */
  ghost predicate Met(edges: seq<Edge>, subs: set<string>, totals: Totals, visiting: set<string>, b: string, k: nat)
    requires k <= |edges|
  {
    forall i :: 0 <= i < k && edges[i].source == b && edges[i].target in subs ==>
      edges[i].target in totals || edges[i].target in visiting
  }

  lemma AlreadyMet(edges: seq<Edge>, subs: set<string>, totals: Totals, after: Totals, visiting: set<string>,
                   b: string, k: nat)
    requires k <= |edges| && Met(edges, subs, totals, visiting, b, k) && Extends(after, totals)
    requires visiting !! after.Keys
    ensures Met(edges, subs, after, visiting, b, k)
    ensures Circuits(edges, subs, after, b, k) == Circuits(edges, subs, totals, b, k)
  {
    CircuitsAgree(edges, subs, after, totals, b, k);
  }

  lemma Totalled(edges: seq<Edge>, subs: set<string>, totals: Totals, order: seq<string>, b: string)
    requires Ordered(edges, subs, totals, order) && b !in totals
    ensures Ordered(edges, subs, totals[b := Circuits(edges, subs, totals, b, |edges|)], order + [b])
  {
    var after, more := totals[b := Circuits(edges, subs, totals, b, |edges|)], order + [b];
    forall j | 0 <= j < |more|
      ensures CarriesAt(edges, subs, after, more, j)
    {
      if j < |order| {
        assert CarriesAt(edges, subs, totals, order, j);
        assert more[..j] == order[..j];
        assert Within(after, more[..j]) == Within(totals, order[..j]);
      } else {
        assert more[..j] == order;
        assert Within(after, order) == totals;
      }
    }
  }

  lemma {:induction false} GatherOrdered(edges: seq<Edge>, subs: set<string>, totals: Totals, order: seq<string>,
                                         visiting: set<string>, b: string, k: nat)
    requires b in visiting && visiting <= subs && k <= |edges| && visiting !! totals.Keys
    requires Ordered(edges, subs, totals, order)
    ensures var (total, after) := Gather(edges, subs, totals, visiting, b, k);
            && Ordered(edges, subs, after, GatherOrder(edges, subs, order, visiting, b, k))
            && visiting !! after.Keys && Met(edges, subs, after, visiting, b, k)
            && total == Circuits(edges, subs, after, b, k)
    decreases subs - visiting, k
  {
    if k > 0 {
      GatherOrdered(edges, subs, totals, order, visiting, b, k - 1);
      var e, before := edges[k - 1], GatherOrder(edges, subs, order, visiting, b, k - 1);
      var (_, after) := Gather(edges, subs, totals, visiting, b, k - 1);
      if e.source == b && e.target in subs {
        TotalOrdered(edges, subs, after, before, visiting, e.target);
        AlreadyMet(edges, subs, after, TotalOf(edges, subs, after, visiting, e.target).1, visiting, b, k - 1);
      }
    }
  }

  /** Asking for a board keeps the table in order, on every wiring. */
  lemma {:induction false} TotalOrdered(edges: seq<Edge>, subs: set<string>, totals: Totals, order: seq<string>,
                                        visiting: set<string>, b: string)
    requires b in subs && visiting <= subs && visiting !! totals.Keys
    requires Ordered(edges, subs, totals, order)
    ensures var (total, after) := TotalOf(edges, subs, totals, visiting, b);
            && Ordered(edges, subs, after, OrderOf(edges, subs, order, visiting, b))
            && visiting !! after.Keys && (b in after || b in visiting) && total == Lookup(after, b)
    decreases subs - visiting, 0
  {
    if b !in totals && b !in visiting {
      GatherOrdered(edges, subs, totals, order, visiting + {b}, b, |edges|);
      Totalled(edges, subs, Gather(edges, subs, totals, visiting + {b}, b, |edges|).1,
               GatherOrder(edges, subs, order, visiting + {b}, b, |edges|), b);
    }
  }

  lemma {:induction false} FeedsOrdered(edges: seq<Edge>, subs: set<string>, k: nat)
    requires k <= |edges|
    ensures Ordered(edges, subs, FeedTotals(edges, subs, k), FeedOrder(edges, subs, k))
  {
    if k > 0 {
      FeedsOrdered(edges, subs, k - 1);
      if edges[k - 1].target in subs {
        TotalOrdered(edges, subs, FeedTotals(edges, subs, k - 1), FeedOrder(edges, subs, k - 1), {},
                     edges[k - 1].target);
      }
    }
  }

  /** On every wiring a fed board's total is what its circuits carry, nested boards at
      their totals if those were known before it, and at nothing otherwise. */
  lemma TotalOnEveryWiring(edges: seq<Edge>, subs: set<string>, b: string)
    requires b in subs && IsFed(edges, b)
    ensures Lookup(AllTotals(edges, subs), b) == Circuits(edges, subs, KnownTo(edges, subs, b), b, |edges|)
  {
    var i :| 0 <= i < |edges| && edges[i].target == b;
    FeedTotalFinal(edges, subs, i);
    FeedsOrdered(edges, subs, |edges|);
    var order := TotalOrder(edges, subs);
    assert CarriesAt(edges, subs, AllTotals(edges, subs), order, Position(order, b));
  }

  // ---- Which boards are totalled ---------------------------------------------------------------

  predicate IsFedBoard(edges: seq<Edge>, subs: set<string>, b: string) {
    b in subs && IsFed(edges, b)
  }

  lemma {:induction false} GatherOrderFed(edges: seq<Edge>, subs: set<string>, order: seq<string>,
                                          visiting: set<string>, b: string, k: nat)
    requires b in visiting && visiting <= subs && k <= |edges|
    requires forall x :: x in order ==> IsFedBoard(edges, subs, x)
    ensures forall x :: x in GatherOrder(edges, subs, order, visiting, b, k) ==> IsFedBoard(edges, subs, x)
    decreases subs - visiting, k
  {
    if k > 0 {
      GatherOrderFed(edges, subs, order, visiting, b, k - 1);
      if edges[k - 1].source == b && edges[k - 1].target in subs {
        OrderFed(edges, subs, GatherOrder(edges, subs, order, visiting, b, k - 1), visiting, edges[k - 1].target);
      }
    }
  }

  lemma {:induction false} OrderFed(edges: seq<Edge>, subs: set<string>, order: seq<string>, visiting: set<string>,
                                    b: string)
    requires IsFedBoard(edges, subs, b) && visiting <= subs
    requires forall x :: x in order ==> IsFedBoard(edges, subs, x)
    ensures forall x :: x in OrderOf(edges, subs, order, visiting, b) ==> IsFedBoard(edges, subs, x)
    decreases subs - visiting, 0
  {
    if b !in order && b !in visiting {
      GatherOrderFed(edges, subs, order, visiting + {b}, b, |edges|);
    }
  }

  lemma {:induction false} FeedOrderFed(edges: seq<Edge>, subs: set<string>, k: nat)
    requires k <= |edges|
    ensures forall x :: x in FeedOrder(edges, subs, k) ==> IsFedBoard(edges, subs, x)
  {
    if k > 0 {
      FeedOrderFed(edges, subs, k - 1);
      if edges[k - 1].target in subs {
        assert IsFed(edges, edges[k - 1].target);
        OrderFed(edges, subs, FeedOrder(edges, subs, k - 1), {}, edges[k - 1].target);
      }
    }
  }

  /** The table holds the fed boards. */
  lemma TotalledAreFed(edges: seq<Edge>, subs: set<string>, b: string)
    ensures b in AllTotals(edges, subs) <==> IsFedBoard(edges, subs, b)
    ensures b in TotalOrder(edges, subs) <==> IsFedBoard(edges, subs, b)
  {
    FeedsOrdered(edges, subs, |edges|);
    FeedOrderFed(edges, subs, |edges|);
    if IsFedBoard(edges, subs, b) {
      var i :| 0 <= i < |edges| && edges[i].target == b;
      FeedTotalFinal(edges, subs, i);
    }
  }
}
