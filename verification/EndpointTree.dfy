/** firmware/main/managers/device_manager.cpp and web_server.c: the parent of every
    endpoint of a device, and the search for a label up the parents. */
module EndpointTree {
  import opened Options
  import Finite

  type Id = n: int | 0 <= n < 0x1_0000 witness 0

  const NO_PARENT: Id := 0xFFFF

  datatype Endpoint = Endpoint(id: Id, name: string, parts: seq<Id>, parent: Id)

  type Device = seq<Endpoint>

  // ---- The parts relation -----------------------------------------------------------------

  /** The first endpoint with an id; |dev| when there is none. */
  function Find(dev: Device, id: Id): (i: nat)
    ensures i <= |dev| && (i < |dev| ==> dev[i].id == id)
    ensures forall j :: 0 <= j < i ==> dev[j].id != id
  {
    if dev == [] || dev[0].id == id then 0 else 1 + Find(dev[1..], id)
  }

  function PartsOf(dev: Device, id: Id): seq<Id> {
    if Find(dev, id) < |dev| then dev[Find(dev, id)].parts else []
  }

  /** Step i of w goes down to a part. */
  predicate Descends(dev: Device, w: seq<Id>, i: int) {
    0 <= i < |w| - 1 && w[i + 1] in PartsOf(dev, w[i])
  }

  /** A walk down the parts of each endpoint in turn. */
  ghost predicate IsWalk(dev: Device, w: seq<Id>) {
    w != [] && forall i :: 0 <= i < |w| - 1 ==> Descends(dev, w, i)
  }

  ghost predicate WalkBetween(dev: Device, w: seq<Id>, a: Id, b: Id) {
    IsWalk(dev, w) && w[0] == a && w[|w| - 1] == b
  }

  ghost predicate ReachedIn(dev: Device, a: Id, b: Id, n: nat) {
    exists w :: WalkBetween(dev, w, a, b) && |w| == n + 1
  }

  /** b is n parts-steps from a at the least. */
  ghost predicate Distance(dev: Device, a: Id, b: Id, n: nat) {
    && ReachedIn(dev, a, b, n)
    && forall w :: WalkBetween(dev, w, a, b) ==> n + 1 <= |w|
  }

  // ---- Breadth-first depths ----------------------------------------------------------------------

  type Depths = map<Id, nat>

  ghost predicate DepthsFit(dev: Device, depth: Depths, queue: seq<Id>) {
    && (forall x :: x in depth ==> ReachedIn(dev, 0, x, depth[x]))
    && (forall i :: 0 <= i < |queue| ==> queue[i] in depth)
    && (forall i, j :: 0 <= i < j < |queue| ==> depth[queue[i]] <= depth[queue[j]])
    && (queue != [] ==> forall x :: x in depth ==> depth[x] <= depth[queue[0]] + 1)
  }

  /** All parts of x are discovered, at most one step deeper. */
  ghost predicate PartsKnown(dev: Device, depth: Depths, x: Id)
    requires x in depth
  {
    forall y :: y in PartsOf(dev, x) ==> y in depth && depth[y] <= depth[x] + 1
  }

  /** So it is for every discovered endpoint outside the queue. */
  ghost predicate Expanded(dev: Device, depth: Depths, queue: seq<Id>) {
    forall x :: x in depth && x !in queue ==> PartsKnown(dev, depth, x)
  }

  function AllParts(dev: Device): (ids: set<Id>)
    ensures forall e :: e in dev ==> forall p :: p in e.parts ==> p in ids
    ensures 0 in ids
  {
    if dev == [] then {0} else (set p | p in dev[0].parts) + AllParts(dev[1..])
  }

  lemma {:induction false} NoShorterWalk(dev: Device, depth: Depths, w: seq<Id>, x: Id)
    requires Expanded(dev, depth, []) && 0 in depth && depth[0] == 0
    requires WalkBetween(dev, w, 0, x)
    ensures x in depth && depth[x] + 1 <= |w|
    decreases |w|
  {
    if |w| > 1 {
      var init := w[..|w| - 1];
      forall i | 0 <= i < |init| - 1
        ensures Descends(dev, init, i)
      {
        assert Descends(dev, w, i);
      }
      NoShorterWalk(dev, depth, init, init[|init| - 1]);
      assert Descends(dev, w, |w| - 2);
      assert PartsKnown(dev, depth, init[|init| - 1]);
    }
  }

  lemma ExtendWalk(dev: Device, depth: Depths, x: Id, y: Id)
    requires x in depth && y in PartsOf(dev, x) && ReachedIn(dev, 0, x, depth[x])
    ensures ReachedIn(dev, 0, y, depth[x] + 1)
  {
    var w :| WalkBetween(dev, w, 0, x) && |w| == depth[x] + 1;
    var longer := w + [y];
    forall i | 0 <= i < |longer| - 1
      ensures Descends(dev, longer, i)
    {
      assert i < |w| - 1 ==> Descends(dev, w, i);
    }
    assert WalkBetween(dev, longer, 0, y);
  }

  /** The parts loop of endpoint cur after its first k parts. */
  ghost predicate PartWay(dev: Device, depth: Depths, cur: Id, queue: seq<Id>, k: nat)
    requires k <= |PartsOf(dev, cur)|
  {
    && cur in depth && DepthsFit(dev, depth, [cur] + queue)
    && (forall x :: x in depth && x != cur && x !in queue ==> PartsKnown(dev, depth, x))
    && (forall j :: 0 <= j < k ==> PartsOf(dev, cur)[j] in depth && depth[PartsOf(dev, cur)[j]] <= depth[cur] + 1)
  }

  lemma StartPart(dev: Device, depth: Depths, cur: Id, queue: seq<Id>)
    requires DepthsFit(dev, depth, [cur] + queue) && Expanded(dev, depth, [cur] + queue)
    ensures PartWay(dev, depth, cur, queue, 0)
  {
    assert ([cur] + queue)[0] == cur;
  }

  lemma KnownPart(dev: Device, depth: Depths, cur: Id, queue: seq<Id>, k: nat)
    requires k < |PartsOf(dev, cur)| && PartWay(dev, depth, cur, queue, k) && PartsOf(dev, cur)[k] in depth
    ensures PartWay(dev, depth, cur, queue, k + 1)
  {
    assert ([cur] + queue)[0] == cur;
  }

  lemma NewPart(dev: Device, depth: Depths, cur: Id, queue: seq<Id>, k: nat)
    requires k < |PartsOf(dev, cur)| && PartWay(dev, depth, cur, queue, k) && PartsOf(dev, cur)[k] !in depth
    ensures var part := PartsOf(dev, cur)[k];
            PartWay(dev, depth[part := depth[cur] + 1], cur, queue + [part], k + 1)
  {
    var part := PartsOf(dev, cur)[k];
    ExtendWalk(dev, depth, cur, part);
    forall x | x in depth && x != cur && x !in queue
      ensures PartsKnown(dev, depth[part := depth[cur] + 1], x)
    {
      assert PartsKnown(dev, depth, x);
    }
    QueuePart(dev, depth, cur, queue, part);
  }

  lemma Dequeue(dev: Device, depth: Depths, cur: Id, queue: seq<Id>)
    requires DepthsFit(dev, depth, [cur] + queue)
    ensures DepthsFit(dev, depth, queue)
  {
    var q := [cur] + queue;
    assert q[0] == cur;
    assert forall i :: 0 <= i < |queue| ==> queue[i] == q[i + 1];
  }

  lemma EndPart(dev: Device, depth: Depths, cur: Id, queue: seq<Id>)
    requires PartWay(dev, depth, cur, queue, |PartsOf(dev, cur)|)
    ensures DepthsFit(dev, depth, queue) && Expanded(dev, depth, queue)
  {
    Dequeue(dev, depth, cur, queue);
    assert PartsKnown(dev, depth, cur);
  }

  lemma QueuePart(dev: Device, depth: Depths, cur: Id, queue: seq<Id>, part: Id)
    requires cur in depth && DepthsFit(dev, depth, [cur] + queue) && part !in depth
    requires ReachedIn(dev, 0, part, depth[cur] + 1)
    ensures DepthsFit(dev, depth[part := depth[cur] + 1], [cur] + (queue + [part]))
  {
    var d, was, q := depth[part := depth[cur] + 1], [cur] + queue, [cur] + (queue + [part]);
    assert was[0] == cur;
    assert q == was + [part];
    forall i | 0 <= i < |was|
      ensures q[i] in depth && d[q[i]] == depth[was[i]] <= depth[cur] + 1
    {
      assert q[i] == was[i];
    }
  }

  /** The parts loop for one dequeued endpoint. */
  method Expand(dev: Device, cur: Id, depth0: Depths, queue0: seq<Id>) returns (depth: Depths, queue: seq<Id>)
    requires DepthsFit(dev, depth0, [cur] + queue0) && Expanded(dev, depth0, [cur] + queue0)
    requires depth0.Keys <= AllParts(dev)
    ensures DepthsFit(dev, depth, queue) && Expanded(dev, depth, queue)
    ensures depth0.Keys <= depth.Keys <= AllParts(dev)
    ensures forall x :: x in depth0 ==> depth[x] == depth0[x]
    ensures depth.Keys == depth0.Keys ==> queue == queue0
  {
    depth, queue := depth0, queue0;
    StartPart(dev, depth, cur, queue);
    var parts := PartsOf(dev, cur);
    assert forall p :: p in parts ==> p in AllParts(dev) by {
      if Find(dev, cur) < |dev| {
        assert dev[Find(dev, cur)] in dev;
      }
    }
    for k := 0 to |parts|
      invariant depth0.Keys <= depth.Keys <= AllParts(dev)
      invariant forall x :: x in depth0 ==> depth[x] == depth0[x]
      invariant depth.Keys == depth0.Keys ==> queue == queue0
      invariant PartWay(dev, depth, cur, queue, k)
    {
      var part := parts[k];
      if part !in depth {
        NewPart(dev, depth, cur, queue, k);
        depth := depth[part := depth[cur] + 1];
        queue := queue + [part];
        assert part in depth.Keys && part !in depth0.Keys;
      } else {
        KnownPart(dev, depth, cur, queue, k);
      }
    }
    EndPart(dev, depth, cur, queue);
  }

  /** Exactly the endpoints that endpoint 0 reaches, each at its shortest distance;
      none when the device lacks endpoint 0. */
  ghost predicate IsDepths(dev: Device, depth: Depths) {
    && (Find(dev, 0) == |dev| ==> depth == map[])
    && (Find(dev, 0) < |dev| ==> forall x ::
          && (x in depth <==> exists n :: ReachedIn(dev, 0, x, n))
          && (x in depth ==> Distance(dev, 0, x, depth[x])))
  }

  /** With the queue empty the depths are the shortest distances. */
  lemma DepthsAreDistances(dev: Device, depth: Depths)
    requires Find(dev, 0) < |dev| && 0 in depth && depth[0] == 0
    requires DepthsFit(dev, depth, []) && Expanded(dev, depth, [])
    ensures IsDepths(dev, depth)
  {
    forall w, x | WalkBetween(dev, w, 0, x)
      ensures x in depth && depth[x] + 1 <= |w|
    {
      NoShorterWalk(dev, depth, w, x);
    }
  }

  lemma RootDepth(dev: Device)
    ensures DepthsFit(dev, map[0 := 0], [0]) && Expanded(dev, map[0 := 0], [0])
  {
    assert WalkBetween(dev, [0], 0, 0);
  }

  method ComputeDepths(dev: Device) returns (depth: Depths)
    ensures IsDepths(dev, depth)
  {
    depth := map[];
    if Find(dev, 0) == |dev| {
      return;
    }
    depth := map[0 := 0];
    var queue: seq<Id> := [0];
    ghost var known := AllParts(dev);
    RootDepth(dev);
    while queue != []
      invariant 0 in depth && depth[0] == 0
      invariant DepthsFit(dev, depth, queue) && Expanded(dev, depth, queue)
      invariant depth.Keys <= known == AllParts(dev)
      decreases known - depth.Keys, |queue|
    {
      var cur := queue[0];
      assert queue == [cur] + queue[1..];
      depth, queue := Expand(dev, cur, depth, queue[1..]);
    }
    DepthsAreDistances(dev, depth);
  }

  // ---- Parents ------------------------------------------------------------------------------------

  /** p lists c among its parts. */
  predicate Claims(dev: Device, p: Id, c: Id) {
    exists i :: 0 <= i < |dev| && ClaimsAt(dev[i], p, c)
  }

  predicate ClaimsAt(ep: Endpoint, p: Id, c: Id) {
    ep.id == p && c in ep.parts
  }

  /** How often a part list names c, as claims by p. */
  function ClaimsIn(parts: seq<Id>, p: Id, c: Id): seq<Id> {
    if parts == [] then []
    else ClaimsIn(parts[..|parts| - 1], p, c) + if parts[|parts| - 1] == c then [p] else []
  }

  /** Every claimant of c, in endpoint order. */
  function Claimants(dev: Device, c: Id): seq<Id> {
    if dev == [] then []
    else
      var last := dev[|dev| - 1];
      Claimants(dev[..|dev| - 1], c) + ClaimsIn(last.parts, last.id, c)
  }

  lemma {:induction false} ClaimsInAre(parts: seq<Id>, p: Id, c: Id)
    ensures ClaimsIn(parts, p, c) != [] <==> c in parts
    ensures forall x :: x in ClaimsIn(parts, p, c) ==> x == p
  {
    if parts != [] {
      ClaimsInAre(parts[..|parts| - 1], p, c);
      assert parts == parts[..|parts| - 1] + [parts[|parts| - 1]];
    }
  }

  /** The claims of a device are those of its last endpoint and of the rest. */
  lemma ClaimsSplit(dev: Device, p: Id, c: Id)
    requires dev != []
    ensures var last := dev[|dev| - 1];
            Claims(dev, p, c) <==> Claims(dev[..|dev| - 1], p, c) || (last.id == p && c in last.parts)
  {
    var init := dev[..|dev| - 1];
    if Claims(init, p, c) {
      var i :| 0 <= i < |init| && ClaimsAt(init[i], p, c);
      assert ClaimsAt(dev[i], p, c);
    }
    if Claims(dev, p, c) {
      var i :| 0 <= i < |dev| && ClaimsAt(dev[i], p, c);
      if i < |init| {
        assert ClaimsAt(init[i], p, c);
      }
    }
  }

  lemma {:induction false} ClaimantsClaim(dev: Device, c: Id)
    ensures forall p :: p in Claimants(dev, c) <==> Claims(dev, p, c)
  {
    if dev != [] {
      var last := dev[|dev| - 1];
      ClaimantsClaim(dev[..|dev| - 1], c);
      var own := ClaimsIn(last.parts, last.id, c);
      ClaimsInAre(last.parts, last.id, c);
      assert own != [] ==> own[0] in own;
      forall p
        ensures p in Claimants(dev, c) <==> Claims(dev, p, c)
      {
        ClaimsSplit(dev, p, c);
      }
    }
  }

  function DepthOf(depth: Depths, id: Id): nat {
    if id in depth then depth[id] else 0
  }

  /** Claimant k is deeper than those before it and no shallower than those after. */
  predicate FirstDeepest(depth: Depths, claimants: seq<Id>, k: nat) {
    && k < |claimants|
    && (forall j :: 0 <= j < k ==> DepthOf(depth, claimants[j]) < DepthOf(depth, claimants[k]))
    && (forall j :: k < j < |claimants| ==> DepthOf(depth, claimants[j]) <= DepthOf(depth, claimants[k]))
  }

  /** The first claimant of greatest depth; none exactly without claimants. */
  ghost predicate IsParent(depth: Depths, claimants: seq<Id>, parent: Option<Id>) {
    match parent
    case None => claimants == []
    case Some(p) => exists k: nat :: FirstDeepest(depth, claimants, k) && claimants[k] == p
  }

  function Encoded(parent: Option<Id>): Id {
    if parent.Some? then parent.value else NO_PARENT
  }

  method DeepestClaimant(depth: Depths, claimants: seq<Id>) returns (best: Option<Id>)
    ensures IsParent(depth, claimants, best)
  {
    best := None;
    var bestDepth: int := -1;
    ghost var at: nat := 0;
    for k := 0 to |claimants|
      invariant best.None? ==> k == 0 && bestDepth == -1
      invariant best.Some? ==> FirstDeepest(depth, claimants[..k], at) && claimants[at] == best.value
      invariant best.Some? ==> bestDepth == DepthOf(depth, best.value)
    {
      var d := if claimants[k] in depth then depth[claimants[k]] else 0;
      if d > bestDepth {
        bestDepth, best, at := d, Some(claimants[k]), k;
      }
    }
    assert claimants[..|claimants|] == claimants;
  }

  function Listed(claimants: map<Id, seq<Id>>, c: Id): seq<Id> {
    if c in claimants then claimants[c] else []
  }

  /** Every claim of dev and of ep's first k parts is listed. */
  ghost predicate ListedUpTo(claimants: map<Id, seq<Id>>, dev: Device, ep: Endpoint, k: nat)
    requires k <= |ep.parts|
  {
    forall c :: Listed(claimants, c) == Claimants(dev, c) + ClaimsIn(ep.parts[..k], ep.id, c)
  }

  function WithClaim(claimants: map<Id, seq<Id>>, part: Id, claimant: Id): map<Id, seq<Id>> {
    claimants[part := Listed(claimants, part) + [claimant]]
  }

  lemma ClaimsInStep(parts: seq<Id>, p: Id, c: Id, k: nat)
    requires k < |parts|
    ensures ClaimsIn(parts[..k + 1], p, c) == ClaimsIn(parts[..k], p, c) + if parts[k] == c then [p] else []
  {
    assert parts[..k + 1][..k] == parts[..k];
  }

  lemma WithClaimListed(claimants: map<Id, seq<Id>>, part: Id, claimant: Id, c: Id, earlier: seq<Id>, own: seq<Id>)
    requires Listed(claimants, c) == earlier + own
    ensures Listed(WithClaim(claimants, part, claimant), c)
         == earlier + (own + if part == c then [claimant] else [])
  {
    if part == c {
      assert (earlier + own) + [claimant] == earlier + (own + [claimant]);
    } else {
      assert own + [] == own;
    }
  }

  lemma ListPart(claimants: map<Id, seq<Id>>, dev: Device, ep: Endpoint, k: nat)
    requires k < |ep.parts| && ListedUpTo(claimants, dev, ep, k)
    ensures ListedUpTo(WithClaim(claimants, ep.parts[k], ep.id), dev, ep, k + 1)
  {
    forall c
      ensures Listed(WithClaim(claimants, ep.parts[k], ep.id), c)
           == Claimants(dev, c) + ClaimsIn(ep.parts[..k + 1], ep.id, c)
    {
      ClaimsInStep(ep.parts, ep.id, c, k);
      WithClaimListed(claimants, ep.parts[k], ep.id, c, Claimants(dev, c), ClaimsIn(ep.parts[..k], ep.id, c));
    }
  }

  method ListParts(claimants0: map<Id, seq<Id>>, ep: Endpoint, ghost dev: Device)
    returns (claimants: map<Id, seq<Id>>)
    requires forall c :: Listed(claimants0, c) == Claimants(dev, c)
    ensures forall c :: Listed(claimants, c) == Claimants(dev + [ep], c)
  {
    claimants := claimants0;
    for k := 0 to |ep.parts|
      invariant ListedUpTo(claimants, dev, ep, k)
    {
      ListPart(claimants, dev, ep, k);
      var part := ep.parts[k];
      claimants := claimants[part := (if part in claimants then claimants[part] else []) + [ep.id]];
    }
    assert ep.parts[..|ep.parts|] == ep.parts;
    assert (dev + [ep])[..|dev|] == dev;
  }

  method BuildClaimants(dev: Device) returns (claimants: map<Id, seq<Id>>)
    ensures forall c :: Listed(claimants, c) == Claimants(dev, c)
  {
    claimants := map[];
    for i := 0 to |dev|
      invariant forall c :: Listed(claimants, c) == Claimants(dev[..i], c)
    {
      claimants := ListParts(claimants, dev[i], dev[..i]);
      assert dev[..i + 1] == dev[..i] + [dev[i]];
    }
    assert dev[..|dev|] == dev;
  }

  /** ep with its parent resolved against the depths. */
  ghost predicate ResolvedEndpoint(dev: Device, depth: Depths, ep: Endpoint, after: Endpoint) {
    exists parent ::
      IsParent(depth, Claimants(dev, ep.id), parent) && after == ep.(parent := Encoded(parent))
  }

  /** after is dev with every parent resolved against the depths. */
  ghost predicate Resolved(dev: Device, depth: Depths, after: Device) {
    |after| == |dev| && forall i :: 0 <= i < |dev| ==> ResolvedEndpoint(dev, depth, dev[i], after[i])
  }

  method AssignParent(dev: Device, claimants: map<Id, seq<Id>>, depth: Depths, ep: Endpoint)
    returns (after: Endpoint)
    requires Listed(claimants, ep.id) == Claimants(dev, ep.id)
    ensures ResolvedEndpoint(dev, depth, ep, after)
  {
    var best := DeepestClaimant(depth, if ep.id in claimants then claimants[ep.id] else []);
    after := ep.(parent := if best.Some? then best.value else NO_PARENT);
    assert after == ep.(parent := Encoded(best));
  }

  method ResolveDevice(dev: Device) returns (after: Device)
    ensures exists depth :: IsDepths(dev, depth) && Resolved(dev, depth, after)
  {
    var claimants := BuildClaimants(dev);
    var found := ComputeDepths(dev);
    after := dev;
    for i := 0 to |dev|
      invariant |after| == |dev|
      invariant forall k :: i <= k < |dev| ==> after[k] == dev[k]
      invariant forall k :: 0 <= k < i ==> ResolvedEndpoint(dev, found, dev[k], after[k])
    {
      var ep := AssignParent(dev, claimants, found, dev[i]);
      after := after[i := ep];
    }
  }

  class DeviceManager {
    var devices: map<int, Device>

    constructor ()
      ensures devices == map[]
    {
      devices := map[];
    }

    /** False for an unknown node; otherwise its endpoints' parents are resolved. */
    method ResolveParents(nodeId: int) returns (found: bool)
      modifies this
      ensures found == (nodeId in old(devices))
      ensures !found ==> devices == old(devices)
      ensures found ==> nodeId in devices && devices == old(devices)[nodeId := devices[nodeId]]
      ensures found ==> exists depth ::
        IsDepths(old(devices)[nodeId], depth) && Resolved(old(devices)[nodeId], depth, devices[nodeId])
    {
      found := nodeId in devices;
      if found {
        var after := ResolveDevice(devices[nodeId]);
        devices := devices[nodeId := after];
      }
    }
  }

  /** A parent is always a claimant. */
  lemma ParentClaims(dev: Device, depth: Depths, after: Device, i: nat)
    requires Resolved(dev, depth, after) && i < |dev| && after[i].parent != NO_PARENT
    ensures Claims(after, after[i].parent, after[i].id)
  {
    assert ResolvedEndpoint(dev, depth, dev[i], after[i]);
    var claimants := Claimants(dev, dev[i].id);
    var parent :| IsParent(depth, claimants, parent) && after[i] == dev[i].(parent := Encoded(parent));
    var k: nat :| FirstDeepest(depth, claimants, k) && claimants[k] == parent.value;
    assert parent.value in claimants;
    ClaimantsClaim(dev, dev[i].id);
    SameClaims(dev, after, depth, parent.value, dev[i].id);
  }

  /** No claimant lies deeper than the parent; one that endpoint 0 does not reach is parent
      only where no other is below endpoint 0. */
  lemma ParentDeepest(dev: Device, depth: Depths, after: Device, i: nat, other: Id)
    requires Resolved(dev, depth, after) && i < |dev| && after[i].parent != NO_PARENT
    requires Claims(dev, other, dev[i].id) && other in depth && depth[other] > 0
    ensures after[i].parent in depth && depth[after[i].parent] >= depth[other]
  {
    assert ResolvedEndpoint(dev, depth, dev[i], after[i]);
    var claimants := Claimants(dev, dev[i].id);
    var parent :| IsParent(depth, claimants, parent) && after[i] == dev[i].(parent := Encoded(parent));
    var k: nat :| FirstDeepest(depth, claimants, k) && claimants[k] == parent.value;
    ClaimantsClaim(dev, dev[i].id);
    var j :| 0 <= j < |claimants| && claimants[j] == other;
    assert DepthOf(depth, claimants[j]) <= DepthOf(depth, claimants[k]);
  }

  /** Unless an endpoint carries the reserved id, the absence of a parent says exactly
      that nobody claims the endpoint. */
  lemma NoParentMeansUnclaimed(dev: Device, depth: Depths, after: Device, i: nat)
    requires Resolved(dev, depth, after) && i < |dev|
    requires forall e :: e in dev ==> e.id != NO_PARENT
    ensures after[i].parent == NO_PARENT <==> forall p :: !Claims(after, p, after[i].id)
  {
    assert ResolvedEndpoint(dev, depth, dev[i], after[i]);
    var claimants := Claimants(dev, dev[i].id);
    var parent :| IsParent(depth, claimants, parent) && after[i] == dev[i].(parent := Encoded(parent));
    ClaimantsClaim(dev, dev[i].id);
    if parent.Some? {
      var k: nat :| FirstDeepest(depth, claimants, k) && claimants[k] == parent.value;
      assert parent.value in claimants;
      var j :| 0 <= j < |dev| && ClaimsAt(dev[j], parent.value, dev[i].id);
      assert dev[j] in dev;
      ParentClaims(dev, depth, after, i);
    } else {
      forall p
        ensures !Claims(after, p, dev[i].id)
      {
        SameClaims(dev, after, depth, p, dev[i].id);
        assert p !in claimants;
      }
    }
  }

  lemma SameClaims(dev: Device, after: Device, depth: Depths, p: Id, c: Id)
    requires Resolved(dev, depth, after)
    ensures Claims(after, p, c) <==> Claims(dev, p, c)
  {
    forall i | 0 <= i < |dev|
      ensures ClaimsAt(after[i], p, c) <==> ClaimsAt(dev[i], p, c)
    {
      assert ResolvedEndpoint(dev, depth, dev[i], after[i]);
    }
  }

  // ---- The label walk --------------------------------------------------------------------------------

  predicate ClaimsNext(dev: Device, chain: seq<Id>, i: int) {
    0 <= i < |chain| - 1 && Claims(dev, chain[i], chain[i + 1])
  }

  ghost predicate IsChain(dev: Device, chain: seq<Id>) {
    forall i :: 0 <= i < |chain| - 1 ==> ClaimsNext(dev, chain, i)
  }

  /** No endpoint is its own part, however indirectly. */
  ghost predicate Acyclic(dev: Device) {
    forall chain :: |chain| >= 2 && IsChain(dev, chain) ==> chain[0] != chain[|chain| - 1]
  }

  ghost predicate ParentsClaim(dev: Device) {
    forall i :: 0 <= i < |dev| && dev[i].parent != NO_PARENT ==> Claims(dev, dev[i].parent, dev[i].id)
  }

  /** The parent an endpoint lists, if any. */
  function ListedParent(ep: Endpoint): Option<Id> {
    if ep.parent != NO_PARENT then Some(ep.parent) else None
  }

  /** Endpoint j is the one that i, unnamed, takes its name from. */
  predicate Above(dev: Device, i: nat, j: nat) {
    && i < |dev| && j < |dev| && dev[i].name == ""
    && ListedParent(dev[i]).Some? && j == Find(dev, dev[i].parent)
  }

  predicate Climbs(dev: Device, path: seq<nat>, k: int) {
    0 <= k < |path| - 1 && Above(dev, path[k], path[k + 1])
  }

  predicate IsAscent(dev: Device, path: seq<nat>) {
    && path != [] && path[0] < |dev|
    && forall k :: 0 <= k < |path| - 1 ==> Climbs(dev, path, k)
  }

  /** Nothing to take a name from: no parent, or one the device does not have. */
  predicate Rootless(dev: Device, i: nat)
    requires i < |dev|
  {
    ListedParent(dev[i]).None? || Find(dev, dev[i].parent) == |dev|
  }

  function IdsUp(dev: Device, path: seq<nat>): (ids: seq<Id>)
    requires forall k :: 0 <= k < |path| ==> path[k] < |dev|
    ensures |ids| == |path| && forall k :: 0 <= k < |path| ==> ids[k] == dev[path[|path| - 1 - k]].id
  {
    seq(|path|, k requires 0 <= k < |path| => dev[path[|path| - 1 - k]].id)
  }

  lemma AscentGrows(dev: Device, path: seq<nat>, j: nat)
    requires IsAscent(dev, path) && Above(dev, path[|path| - 1], j)
    ensures IsAscent(dev, path + [j])
  {
    var longer := path + [j];
    forall k | 0 <= k < |longer| - 1
      ensures Climbs(dev, longer, k)
    {
      assert k < |path| - 1 ==> Climbs(dev, path, k);
    }
  }

  lemma AscentInRange(dev: Device, path: seq<nat>)
    requires IsAscent(dev, path)
    ensures forall k :: 0 <= k < |path| ==> path[k] < |dev|
  {
    forall k | 0 <= k < |path|
      ensures path[k] < |dev|
    {
      if k > 0 {
        assert Climbs(dev, path, k - 1);
      }
    }
  }

  /** Every step of an ascent leads to an endpoint that claims the one left. */
  lemma AscentClaims(dev: Device, path: seq<nat>, k: nat)
    requires IsAscent(dev, path) && ParentsClaim(dev) && k + 1 < |path|
    ensures path[k] < |dev| && path[k + 1] < |dev| && Claims(dev, dev[path[k + 1]].id, dev[path[k]].id)
  {
    assert Climbs(dev, path, k);
  }

  /** No climb from i comes to an endpoint twice. */
  ghost predicate NeverRevisits(dev: Device, i: nat) {
    forall path: seq<nat> :: IsAscent(dev, path) && path[0] == i ==> Finite.Distinct(path)
  }

  /** A climb that does not is no longer than the device has endpoints. */
  lemma AscentBounded(dev: Device, path: seq<nat>)
    requires IsAscent(dev, path) && Finite.Distinct(path)
    ensures |path| <= |dev|
  {
    AscentInRange(dev, path);
    Finite.DistinctSize(path);
    Finite.SubsetSize(Finite.Elements(path), Finite.Below(|dev|));
  }

  /** path climbs from i to the first endpoint with a name, or to where the ancestors end. */
  ghost predicate NamedBy(dev: Device, path: seq<nat>, i: nat, name: string) {
    && IsAscent(dev, path) && path[0] == i && path[|path| - 1] < |dev|
    && name == dev[path[|path| - 1]].name
    && (name == "" ==> Rootless(dev, path[|path| - 1]))
  }

  /** There is one such path, and so one name. */
  lemma {:induction false} NameUnique(dev: Device, p: seq<nat>, q: seq<nat>, i: nat, a: string, b: string)
    requires NamedBy(dev, p, i, a) && NamedBy(dev, q, i, b)
    ensures p == q && a == b
    decreases |p|
  {
    assert |p| > 1 ==> Climbs(dev, p, 0);
    assert |q| > 1 ==> Climbs(dev, q, 0);
    if |p| > 1 {
      AscentTail(dev, p);
      AscentTail(dev, q);
      NameUnique(dev, p[1..], q[1..], p[1], a, b);
      assert p == [p[0]] + p[1..] && q == [q[0]] + q[1..];
    }
  }

  lemma AscentTail(dev: Device, path: seq<nat>)
    requires IsAscent(dev, path) && |path| > 1
    ensures IsAscent(dev, path[1..])
  {
    assert Climbs(dev, path, 0);
    forall k | 0 <= k < |path[1..]| - 1
      ensures Climbs(dev, path[1..], k)
    {
      assert Climbs(dev, path, k + 1);
    }
  }

  lemma {:induction false} NamedTail(dev: Device, p: seq<nat>, i: nat, name: string, a: nat)
    requires NamedBy(dev, p, i, name) && a < |p|
    ensures NamedBy(dev, p[a..], p[a], name)
    decreases |p|
  {
    if a == 0 {
      assert p[0..] == p;
    } else {
      AscentTail(dev, p);
      NamedTail(dev, p[1..], p[1], name, a - 1);
      assert p[1..][a - 1..] == p[a..];
    }
  }

  /** The climb to a name passes no endpoint twice: the rest of it would be there twice. */
  lemma NamedDistinct(dev: Device, p: seq<nat>, i: nat, name: string)
    requires NamedBy(dev, p, i, name)
    ensures Finite.Distinct(p)
  {
    forall a, b | 0 <= a < b < |p|
      ensures p[a] != p[b]
    {
      NamedTail(dev, p, i, name, a);
      NamedTail(dev, p, i, name, b);
      assert |p[b..]| < |p[a..]|;
      if p[a] == p[b] {
        NameUnique(dev, p[a..], p[b..], p[a], name, name);
      }
    }
  }

  /** Every climb from there is the beginning of it. */
  lemma {:induction false} AscentOfNamed(dev: Device, q: seq<nat>, p: seq<nat>, i: nat, name: string)
    requires NamedBy(dev, p, i, name) && IsAscent(dev, q) && q[0] == i
    ensures q <= p
    decreases |q|
  {
    if |q| > 1 {
      assert Climbs(dev, q, 0);
      assert |p| > 1;
      assert Climbs(dev, p, 0);
      AscentTail(dev, p);
      AscentTail(dev, q);
      AscentOfNamed(dev, q[1..], p[1..], p[1], name);
      assert p == [p[0]] + p[1..] && q == [q[0]] + q[1..];
    }
  }

  /** A climb that cannot go round gets to a name, or to where the ancestors end. */
  lemma {:induction false} ClimbOn(dev: Device, path: seq<nat>) returns (all: seq<nat>, name: string)
    requires IsAscent(dev, path) && NeverRevisits(dev, path[0])
    ensures NamedBy(dev, all, path[0], name)
    decreases |dev| - |path|
  {
    AscentInRange(dev, path);
    var last := path[|path| - 1];
    if dev[last].name != "" || Rootless(dev, last) {
      all, name := path, dev[last].name;
    } else {
      var longer := path + [Find(dev, dev[last].parent)];
      AscentGrows(dev, path, Find(dev, dev[last].parent));
      AscentBounded(dev, longer);
      all, name := ClimbOn(dev, longer);
    }
  }

  /** On every device, resolved or not: the search from i ends exactly when no climb
      from i comes to an endpoint twice. */
  lemma EndsExactly(dev: Device, i: nat)
    requires i < |dev|
    ensures (exists path, name :: NamedBy(dev, path, i, name)) <==> NeverRevisits(dev, i)
  {
    if p, name :| NamedBy(dev, p, i, name) {
      NamedDistinct(dev, p, i, name);
      forall q: seq<nat> | IsAscent(dev, q) && q[0] == i
        ensures Finite.Distinct(q)
      {
        AscentOfNamed(dev, q, p, i, name);
        assert forall k :: 0 <= k < |q| ==> q[k] == p[k];
      }
    }
    if NeverRevisits(dev, i) {
      var all, name := ClimbOn(dev, [i]);
    }
  }

  /** Otherwise it goes on for ever. */
  lemma {:induction false} RevisitNeverEnds(dev: Device, i: nat, n: nat) returns (path: seq<nat>)
    requires i < |dev| && !NeverRevisits(dev, i)
    ensures IsAscent(dev, path) && path[0] == i && |path| == n + 1
  {
    if n == 0 {
      path := [i];
    } else {
      var init := RevisitNeverEnds(dev, i, n - 1);
      AscentInRange(dev, init);
      EndsExactly(dev, i);
      var last := init[n - 1];
      assert !NamedBy(dev, init, i, dev[last].name);
      AscentGrows(dev, init, Find(dev, dev[last].parent));
      path := init + [Find(dev, dev[last].parent)];
    }
  }

  /** The name shown for endpoint i: its own or that of the nearest named ancestor,
      and empty only where the ancestors end. */
  method LabelOf(dev: Device, i: nat) returns (name: string)
    requires i < |dev| && NeverRevisits(dev, i)
    ensures exists path :: NamedBy(dev, path, i, name)
  {
    name := dev[i].name;
    var parent := ListedParent(dev[i]);
    ghost var path: seq<nat>, last: nat := [i], i;
    AscentBounded(dev, path);
    while name == "" && parent.Some?
      invariant IsAscent(dev, path) && path[0] == i && last == path[|path| - 1] < |dev|
      invariant name == dev[last].name
      invariant parent == ListedParent(dev[last]) || (parent.None? && Rootless(dev, last))
      invariant |path| <= |dev|
      decreases parent.Some?, |dev| - |path|
    {
      var j := Find(dev, parent.value);
      if j == |dev| {
        parent := None;
      } else {
        AscentGrows(dev, path, j);
        path, last := path + [j], j;
        AscentBounded(dev, path);
        name := dev[j].name;
        parent := ListedParent(dev[j]);
      }
    }
    assert NamedBy(dev, path, i, name);
  }

  /** A chain of claims in an acyclic device names each endpoint at most once. */
  lemma ChainDistinct(dev: Device, chain: seq<Id>)
    requires Acyclic(dev) && IsChain(dev, chain)
    ensures Finite.Distinct(chain)
  {
    forall i, j | 0 <= i < j < |chain|
      ensures chain[i] != chain[j]
    {
      var part := chain[i..j + 1];
      forall k | 0 <= k < |part| - 1
        ensures ClaimsNext(dev, part, k)
      {
        assert ClaimsNext(dev, chain, i + k);
      }
      assert part[0] == chain[i] && part[|part| - 1] == chain[j];
    }
  }

  /** So the search ends wherever parts have no cycle and parents are claimants. */
  lemma AcyclicNeverRevisits(dev: Device, i: nat)
    requires ParentsClaim(dev) && Acyclic(dev)
    ensures NeverRevisits(dev, i)
  {
    forall path: seq<nat> | IsAscent(dev, path) && path[0] == i
      ensures Finite.Distinct(path)
    {
      AscentInRange(dev, path);
      var chain := IdsUp(dev, path);
      forall k | 0 <= k < |chain| - 1
        ensures ClaimsNext(dev, chain, k)
      {
        AscentClaims(dev, path, |path| - 2 - k);
      }
      ChainDistinct(dev, chain);
      forall a, b | 0 <= a < b < |path|
        ensures path[a] != path[b]
      {
        assert chain[|path| - 1 - b] != chain[|path| - 1 - a];
      }
    }
  }

  /** Resolving a device whose parts have no cycle gives one on which the walk works. */
  lemma ResolvedWalkable(dev: Device, depth: Depths, after: Device)
    requires Resolved(dev, depth, after)
    ensures ParentsClaim(after)
    ensures Acyclic(dev) ==> Acyclic(after) && forall i :: NeverRevisits(after, i)
  {
    forall i | 0 <= i < |after| && after[i].parent != NO_PARENT
      ensures Claims(after, after[i].parent, after[i].id)
    {
      ParentClaims(dev, depth, after, i);
    }
    if Acyclic(dev) {
      forall chain | |chain| >= 2 && IsChain(after, chain)
        ensures chain[0] != chain[|chain| - 1]
      {
        forall k | 0 <= k < |chain| - 1
          ensures ClaimsNext(dev, chain, k)
        {
          assert ClaimsNext(after, chain, k);
          SameClaims(dev, after, depth, chain[k], chain[k + 1]);
        }
        assert IsChain(dev, chain);
      }
      forall i
        ensures NeverRevisits(after, i)
      {
        AcyclicNeverRevisits(after, i);
      }
    }
  }

  function SelfPart(): Endpoint {
    Endpoint(0, "", [0], 0)
  }

  lemma SelfPartClaimants()
    ensures Claimants([SelfPart()], 0) == [0]
  {
    var parts: seq<Id> := [0];
    var dev := [SelfPart()];
    assert ClaimsIn(parts, 0, 0) == [0] by {
      assert parts[..0] == [];
      assert ClaimsIn(parts[..0], 0, 0) == [];
    }
    assert dev[..0] == [];
    assert Claimants(dev[..0], 0) == [];
  }

  lemma SelfPartResolved()
    ensures Resolved([SelfPart()], map[0 := 0], [SelfPart()])
  {
    var dev, depth := [SelfPart()], map[0 := 0];
    var claimants := Claimants(dev, 0);
    SelfPartClaimants();
    assert FirstDeepest(depth, claimants, 0) && claimants[0] == 0;
    assert IsParent(depth, claimants, Some(0));
    assert ResolvedEndpoint(dev, depth, SelfPart(), SelfPart());
  }

  /** An unnamed endpoint that lists itself as a part: there the walk has no end. */
  lemma SelfPartNeverEnds(n: nat)
    ensures Resolved([SelfPart()], map[0 := 0], [SelfPart()])
    ensures IsAscent([SelfPart()], seq(n + 1, _ => 0)) && !NeverRevisits([SelfPart()], 0)
  {
    SelfPartResolved();
    assert Find([SelfPart()], 0) == 0;
    var round: seq<nat> := [0, 0];
    assert IsAscent([SelfPart()], round) && round[0] == round[1];
  }
}
