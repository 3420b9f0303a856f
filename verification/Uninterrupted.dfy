/** firmware/main/managers/subscription_manager.cpp: what the sweep, a callback, a request
    and the worker leave behind when nothing comes between their steps, told in the node
    table, the queue and the slots. */
module Uninterrupted {
  import opened Subscriptions
  import Finite

  /** A task's own next steps, with these answers to what it asks. */
  function Play(s: State, task: Task, answers: seq<bool>): State
    decreases |answers|
  {
    if answers == [] then s else Play(Next(s, Continue(task, answers[0])), task, answers[1..])
  }

  function Continues(task: Task, answers: seq<bool>): (actions: seq<Action>)
    ensures |actions| == |answers|
    ensures forall i :: 0 <= i < |answers| ==> actions[i] == Continue(task, answers[i])
  {
    seq(|answers|, i requires 0 <= i < |answers| => Continue(task, answers[i]))
  }

  lemma {:induction false} PlayIsRun(s: State, task: Task, answers: seq<bool>)
    ensures Play(s, task, answers) == Run(s, Continues(task, answers))
    decreases |answers|
  {
    if answers != [] {
      PlayIsRun(Next(s, Continue(task, answers[0])), task, answers[1..]);
      assert Continues(task, answers)[1..] == Continues(task, answers[1..]);
    }
  }

  /** The other tasks have done nothing. */
  ghost predicate OthersStay(s: State, after: State, task: Task) {
    forall other :: other != task ==> TodoOf(after, other) == TodoOf(s, other)
  }

  // ---- Lists of enqueuing steps ------------------------------------------------------------

  /** Steps it takes at most. */
  function Effort(t: Todo): nat {
    match t
    case SweepCheck(_) => 3
    case Enqueue(_) => 2
    case _ => 1
  }

  function Efforts(list: seq<Todo>): nat {
    if list == [] then 0 else Effort(list[0]) + Efforts(list[1..])
  }

  lemma {:induction false} EffortsAdd(a: seq<Todo>, b: seq<Todo>)
    ensures Efforts(a + b) == Efforts(a) + Efforts(b)
  {
    if a == [] {
      assert a + b == b;
    } else {
      assert (a + b)[1..] == a[1..] + b;
      EffortsAdd(a[1..], b);
    }
  }

  lemma EnqueuingOne(sh: Shared, t: Todo, yes: bool)
    requires IsEnqueuing(t)
    ensures Do(sh, t, yes) == Do(sh, t, true)
    ensures var more := Do(sh, t, true).1;
            more == [] || (|more| == 1 && IsEnqueuing(more[0]) && Effort(more[0]) < Effort(t))
  {
  }

  lemma EffortOfOne(list: seq<Todo>)
    requires |list| == 1
    ensures Efforts(list) == Effort(list[0])
  {
    assert list[1..] == [];
  }

  /** A list without its first step, and what that step put in its place. */
  function Rest(sh: Shared, list: seq<Todo>): seq<Todo>
    requires list != []
  {
    Do(sh, list[0], true).1 + list[1..]
  }

  lemma RestIsLess(sh: Shared, list: seq<Todo>)
    requires AllEnqueuing(list) && list != []
    ensures AllEnqueuing(Rest(sh, list)) && Efforts(Rest(sh, list)) < Efforts(list)
  {
    assert list[0] in list;
    assert forall t :: t in list[1..] ==> t in list;
    EnqueuingOne(sh, list[0], true);
    var more := Do(sh, list[0], true).1;
    EffortsAdd(more, list[1..]);
    if more != [] {
      EffortOfOne(more);
    }
  }

  /** The shared state once the list is done. */
  function Outcome(sh: Shared, list: seq<Todo>): Shared
    requires AllEnqueuing(list)
    decreases Efforts(list)
  {
    if list == [] then sh
    else
      RestIsLess(sh, list);
      Outcome(Do(sh, list[0], true).0, Rest(sh, list))
  }

  lemma {:induction false} PlaysOut(s: State, task: Task, answers: seq<bool>)
    requires AllEnqueuing(TodoOf(s, task)) && |answers| >= Efforts(TodoOf(s, task))
    ensures var after := Play(s, task, answers);
            && TodoOf(after, task) == [] && OthersStay(s, after, task)
            && after.shared == Outcome(s.shared, TodoOf(s, task))
    decreases |answers|
  {
    var list := TodoOf(s, task);
    if answers != [] {
      var next := Next(s, Continue(task, answers[0]));
      if list != [] {
        assert list[0] in list;
        EnqueuingOne(s.shared, list[0], answers[0]);
        RestIsLess(s.shared, list);
        assert TodoOf(next, task) == Rest(s.shared, list);
      }
      PlaysOut(next, task, answers[1..]);
    }
  }

  lemma RestOfBoth(sh: Shared, a: seq<Todo>, b: seq<Todo>)
    requires a != []
    ensures Rest(sh, a + b) == Rest(sh, a) + b && (a + b)[0] == a[0]
  {
  }

  lemma {:induction false} OutcomeOfBoth(sh: Shared, a: seq<Todo>, b: seq<Todo>)
    requires AllEnqueuing(a) && AllEnqueuing(b)
    ensures AllEnqueuing(a + b) && Outcome(sh, a + b) == Outcome(Outcome(sh, a), b)
    decreases Efforts(a)
  {
    if a == [] {
      assert a + b == b;
    } else {
      RestIsLess(sh, a);
      OutcomeOfBoth(Do(sh, a[0], true).0, Rest(sh, a), b);
      RestOfBoth(sh, a, b);
    }
  }

  // ---- The sweep, node by node ---------------------------------------------------------------

  predicate Fits(nodes: Nodes, n: NodeId) {
    n in nodes || |nodes| < MAX_NODES
  }

  function Known(nodes: Nodes, n: NodeId): Node {
    if n in nodes then nodes[n] else NEW_NODE
  }

  /** Known as no sleepy device, neither subscribed nor pending, or not known yet. */
  predicate IdleIn(nodes: Nodes, n: NodeId) {
    n in nodes ==> !nodes[n].icd && !nodes[n].subscribed && !nodes[n].pending
  }

  datatype Tables = Tables(nodes: Nodes, queue: seq<NodeId>)

  function SweptOne(b: Tables, n: NodeId): Tables {
    if !Fits(b.nodes, n) || !IdleIn(b.nodes, n) then b
    else if |b.queue| < QUEUE_DEPTH then
      Tables(b.nodes[n := Known(b.nodes, n).(pending := true)], b.queue + [n])
    else Tables(b.nodes[n := Known(b.nodes, n).(subId := 0)], b.queue)
  }

  function SweptAll(b: Tables, wanted: seq<NodeId>): Tables {
    if wanted == [] then b else SweptOne(SweptAll(b, wanted[..|wanted| - 1]), wanted[|wanted| - 1])
  }

  lemma OutcomeOfOne(sh: Shared, t: Todo)
    requires IsEnqueuing(t)
    ensures AllEnqueuing([t]) && AllEnqueuing(Do(sh, t, true).1)
    ensures Outcome(sh, [t]) == Outcome(Do(sh, t, true).0, Do(sh, t, true).1)
  {
    EnqueuingOne(sh, t, true);
    assert Rest(sh, [t]) == Do(sh, t, true).1;
    assert Outcome(sh, [t]) == Outcome(Do(sh, [t][0], true).0, Rest(sh, [t]));
  }

  /** What enqueue_subscription leaves: a node that is pending stays as it is; another is
      marked and queued, or dropped when the queue is full. */
  function Enqueued(b: Tables, n: NodeId): Tables {
    if !Fits(b.nodes, n) || Known(b.nodes, n).pending then b
    else if |b.queue| < QUEUE_DEPTH then
      Tables(b.nodes[n := Known(b.nodes, n).(pending := true)], b.queue + [n])
    else Tables(b.nodes[n := Known(b.nodes, n).(subscribed := false, subId := 0)], b.queue)
  }

  function TablesOf(sh: Shared): Tables {
    Tables(sh.nodes, sh.queue)
  }

  function WithTables(sh: Shared, b: Tables): Shared {
    sh.(nodes := b.nodes, queue := b.queue)
  }

  lemma EnqueueLeaves(sh: Shared, n: NodeId)
    ensures AllEnqueuing([Enqueue(n)])
    ensures Outcome(sh, [Enqueue(n)]) == WithTables(sh, Enqueued(TablesOf(sh), n))
  {
    OutcomeOfOne(sh, Enqueue(n));
    var (first, more) := Do(sh, Enqueue(n), true);
    if more == [Send(n)] {
      OutcomeOfOne(first, Send(n));
    } else {
      assert first == sh;
    }
  }

  lemma SweptCheck(sh: Shared, n: NodeId)
    ensures AllEnqueuing([SweepCheck(n)])
    ensures Outcome(sh, [SweepCheck(n)]) == WithTables(sh, SweptOne(TablesOf(sh), n))
  {
    OutcomeOfOne(sh, SweepCheck(n));
    var (first, more) := Do(sh, SweepCheck(n), true);
    if more == [Enqueue(n)] {
      EnqueueLeaves(first, n);
    }
  }

  lemma {:induction false} ChecksOfBoth(a: seq<NodeId>, b: seq<NodeId>)
    ensures Checks(a + b) == Checks(a) + Checks(b)
  {
    if a == [] {
      assert a + b == b;
    } else {
      assert (a + b)[1..] == a[1..] + b;
      ChecksOfBoth(a[1..], b);
    }
  }

  lemma {:induction false} SweptChecks(sh: Shared, wanted: seq<NodeId>)
    ensures AllEnqueuing(Checks(wanted)) && Efforts(Checks(wanted)) == 3 * |wanted|
    ensures Outcome(sh, Checks(wanted)) == WithTables(sh, SweptAll(TablesOf(sh), wanted))
  {
    ChecksEnqueue(wanted);
    if wanted != [] {
      var init, n := wanted[..|wanted| - 1], wanted[|wanted| - 1];
      assert wanted == init + [n];
      SweptChecks(sh, init);
      ChecksOfBoth(init, [n]);
      assert Checks([n]) == [SweepCheck(n)];
      EffortsAdd(Checks(init), [SweepCheck(n)]);
      OutcomeOfBoth(sh, Checks(init), [SweepCheck(n)]);
      SweptCheck(Outcome(sh, Checks(init)), n);
    }
  }

  // ---- What the sweep leaves -------------------------------------------------------------------

  /** The nodes of a list that satisfy p, each once, by first appearance. */
  function Firsts(list: seq<NodeId>, p: NodeId -> bool): seq<NodeId> {
    if list == [] then []
    else
      var before, n := Firsts(list[..|list| - 1], p), list[|list| - 1];
      if p(n) && n !in before then before + [n] else before
  }

  function Take(list: seq<NodeId>, k: int): seq<NodeId> {
    if k <= 0 then [] else if k >= |list| then list else list[..k]
  }

  lemma {:induction false} FirstsAre(list: seq<NodeId>, p: NodeId -> bool)
    ensures Finite.Distinct(Firsts(list, p))
    ensures forall n :: n in Firsts(list, p) <==> n in list && p(n)
  {
    if list != [] {
      FirstsAre(list[..|list| - 1], p);
      assert forall n :: n in list <==> n in list[..|list| - 1] || n == list[|list| - 1];
    }
  }

  lemma {:induction false} FirstsSame(list: seq<NodeId>, p: NodeId -> bool, q: NodeId -> bool)
    requires forall n :: n in list ==> p(n) == q(n)
    ensures Firsts(list, p) == Firsts(list, q)
  {
    if list != [] {
      FirstsSame(list[..|list| - 1], p, q);
    }
  }

  function NotIn(nodes: Nodes): NodeId -> bool {
    n => n !in nodes
  }

  function IdleAmong(nodes: Nodes, admitted: seq<NodeId>): NodeId -> bool {
    n => (n in nodes || n in admitted) && IdleIn(nodes, n)
  }

  /** The wanted nodes that the table does not know and has room for. */
  function Admitted(nodes: Nodes, wanted: seq<NodeId>): seq<NodeId> {
    Take(Firsts(wanted, NotIn(nodes)), MAX_NODES - |nodes|)
  }

  /** The wanted nodes, known or admitted, that are idle and no sleepy device. */
  function Needy(nodes: Nodes, wanted: seq<NodeId>): seq<NodeId> {
    Firsts(wanted, IdleAmong(nodes, Admitted(nodes, wanted)))
  }

  /** Those of them the queue has room for. */
  function Queued(b: Tables, wanted: seq<NodeId>): seq<NodeId> {
    Take(Needy(b.nodes, wanted), QUEUE_DEPTH - |b.queue|)
  }

  /** A node of the table after the sweep. */
  function NodeAfter(nodes: Nodes, needy: seq<NodeId>, queued: seq<NodeId>, n: NodeId): Node {
    if n !in needy then Known(nodes, n)
    else if n in queued then Known(nodes, n).(pending := true)
    else Known(nodes, n).(subId := 0)
  }

  /** The tables have grown by these nodes, these were queued, and of the needy ones those
      that were not are unmarked. */
  ghost predicate LeavesBy(b: Tables, admitted: seq<NodeId>, needy: seq<NodeId>, queued: seq<NodeId>, after: Tables) {
    && after.queue == b.queue + queued
    && (forall n :: n in after.nodes <==> n in b.nodes || n in admitted)
    && (forall n :: n in after.nodes ==> after.nodes[n] == NodeAfter(b.nodes, needy, queued, n))
  }

  ghost predicate Leaves(b: Tables, wanted: seq<NodeId>, after: Tables) {
    LeavesBy(b, Admitted(b.nodes, wanted), Needy(b.nodes, wanted), Queued(b, wanted), after)
  }

  lemma TakeGrows(list: seq<NodeId>, n: NodeId, k: int)
    ensures Take(list + [n], k) == if |list| < k then Take(list, k) + [n] else Take(list, k)
    ensures |Take(list, k)| == if k <= 0 then 0 else if k >= |list| then |list| else k
    ensures forall x :: x in Take(list, k) ==> x in list
  {
  }

  lemma AdmittedGrow(nodes: Nodes, init: seq<NodeId>, n: NodeId)
    ensures var before, isNew := Admitted(nodes, init), n !in nodes && n !in init;
            Admitted(nodes, init + [n]) == if isNew && |nodes| + |before| < MAX_NODES then before + [n] else before
  {
    assert (init + [n])[..|init|] == init;
    FirstsAre(init, NotIn(nodes));
    TakeGrows(Firsts(init, NotIn(nodes)), n, MAX_NODES - |nodes|);
  }

  lemma AdmittedAre(nodes: Nodes, wanted: seq<NodeId>)
    ensures forall n :: n in Admitted(nodes, wanted) ==> n in wanted && n !in nodes
    ensures Finite.Distinct(Admitted(nodes, wanted))
    ensures |nodes| + |Admitted(nodes, wanted)| < MAX_NODES ==>
              forall n :: n in wanted && n !in nodes ==> n in Admitted(nodes, wanted)
  {
    FirstsAre(wanted, NotIn(nodes));
  }

  lemma NeedyAre(nodes: Nodes, wanted: seq<NodeId>)
    ensures forall n :: n in Needy(nodes, wanted) <==>
      n in wanted && (n in nodes || n in Admitted(nodes, wanted)) && IdleIn(nodes, n)
    ensures Finite.Distinct(Needy(nodes, wanted))
  {
    FirstsAre(wanted, IdleAmong(nodes, Admitted(nodes, wanted)));
  }

  lemma NeedyGrow(nodes: Nodes, init: seq<NodeId>, n: NodeId)
    ensures var before := Needy(nodes, init);
            Needy(nodes, init + [n]) ==
              if (n in nodes || n in Admitted(nodes, init + [n])) && IdleIn(nodes, n) && n !in before then before + [n]
              else before
  {
    var was, now := Admitted(nodes, init), Admitted(nodes, init + [n]);
    AdmittedGrow(nodes, init, n);
    FirstsSame(init, IdleAmong(nodes, was), IdleAmong(nodes, now));
    assert (init + [n])[..|init|] == init;
  }

  /** The table has grown by the admitted. */
  lemma TableSize(nodes: Nodes, after: Nodes, wanted: seq<NodeId>)
    requires forall n :: n in after <==> n in nodes || n in Admitted(nodes, wanted)
    ensures |after| == |nodes| + |Admitted(nodes, wanted)|
  {
    var admitted := Admitted(nodes, wanted);
    AdmittedAre(nodes, wanted);
    Finite.DistinctSize(admitted);
    assert after.Keys == nodes.Keys + Finite.Elements(admitted);
    assert |after.Keys| == |nodes.Keys| + |Finite.Elements(admitted)|;
    assert |after| == |after.Keys| && |nodes| == |nodes.Keys|;
  }

  /** What one more wanted node adds to the admitted. */
  lemma AdmittedNext(nodes: Nodes, init: seq<NodeId>, mid: Nodes, n: NodeId)
    requires forall x :: x in mid <==> x in nodes || x in Admitted(nodes, init)
    ensures Admitted(nodes, init + [n]) == With(Admitted(nodes, init), n, n !in mid && Fits(mid, n))
  {
    TableSize(nodes, mid, init);
    AdmittedGrow(nodes, init, n);
    AdmittedAre(nodes, init);
  }

  /** To the needy. */
  lemma NeedyNext(nodes: Nodes, init: seq<NodeId>, mid: Nodes, n: NodeId)
    requires forall x :: x in mid <==> x in nodes || x in Admitted(nodes, init)
    ensures Needy(nodes, init + [n])
         == With(Needy(nodes, init), n, Fits(mid, n) && IdleIn(nodes, n) && n !in Needy(nodes, init))
  {
    AdmittedNext(nodes, init, mid, n);
    NeedyGrow(nodes, init, n);
  }

  /** And to the queued. */
  lemma QueuedNext(b: Tables, init: seq<NodeId>, mid: Tables, n: NodeId)
    requires Leaves(b, init, mid)
    ensures var added := Fits(mid.nodes, n) && IdleIn(b.nodes, n) && n !in Needy(b.nodes, init);
            Queued(b, init + [n]) == With(Queued(b, init), n, added && |mid.queue| < QUEUE_DEPTH)
  {
    NeedyNext(b.nodes, init, mid.nodes, n);
    TakeGrows(Needy(b.nodes, init), n, QUEUE_DEPTH - |b.queue|);
  }

  lemma NeedyAfter(b: Tables, init: seq<NodeId>, mid: Tables, n: NodeId)
    requires Leaves(b, init, mid)
    ensures n in Needy(b.nodes, init) ==>
      n in mid.nodes && (n in Queued(b, init) || |mid.queue| >= QUEUE_DEPTH)
    ensures n in Queued(b, init) ==> n in Needy(b.nodes, init) && mid.nodes[n].pending
    ensures forall x :: x in Needy(b.nodes, init) ==> x in init
  {
    NeedyAre(b.nodes, init);
    TakeGrows(Needy(b.nodes, init), n, QUEUE_DEPTH - |b.queue|);
  }

  function With(list: seq<NodeId>, n: NodeId, added: bool): seq<NodeId> {
    if added then list + [n] else list
  }

  lemma LeavesByNext(b: Tables, admitted: seq<NodeId>, needy: seq<NodeId>, queued: seq<NodeId>, mid: Tables, n: NodeId)
    requires LeavesBy(b, admitted, needy, queued, mid)
    requires n in needy ==> n in mid.nodes && (n in queued || |mid.queue| >= QUEUE_DEPTH)
    requires n in queued ==> n in needy
    ensures var added := Fits(mid.nodes, n) && IdleIn(b.nodes, n) && n !in needy;
            LeavesBy(b, With(admitted, n, n !in mid.nodes && Fits(mid.nodes, n)), With(needy, n, added),
                     With(queued, n, added && |mid.queue| < QUEUE_DEPTH), SweptOne(mid, n))
  {
    if n in needy {
      assert mid.nodes[n] == NodeAfter(b.nodes, needy, queued, n);
      assert SweptOne(mid, n) == mid;
    } else {
      assert Known(mid.nodes, n) == Known(b.nodes, n);
      if Fits(mid.nodes, n) && IdleIn(b.nodes, n) {
        LeavesByAdded(b, admitted, needy, queued, mid, n);
      } else {
        assert SweptOne(mid, n) == mid;
      }
    }
  }

  lemma LeavesByAdded(b: Tables, admitted: seq<NodeId>, needy: seq<NodeId>, queued: seq<NodeId>, mid: Tables, n: NodeId)
    requires LeavesBy(b, admitted, needy, queued, mid)
    requires n !in needy && n !in queued && Fits(mid.nodes, n) && IdleIn(b.nodes, n)
    requires Known(mid.nodes, n) == Known(b.nodes, n)
    ensures LeavesBy(b, With(admitted, n, n !in mid.nodes), needy + [n],
                     With(queued, n, |mid.queue| < QUEUE_DEPTH), SweptOne(mid, n))
  {
    var after, room := SweptOne(mid, n), |mid.queue| < QUEUE_DEPTH;
    forall x | x in after.nodes
      ensures after.nodes[x] == NodeAfter(b.nodes, needy + [n], With(queued, n, room), x)
    {
      assert x != n ==> after.nodes[x] == mid.nodes[x] == NodeAfter(b.nodes, needy, queued, x);
    }
  }

  /** One more wanted node. */
  lemma LeavesNext(b: Tables, init: seq<NodeId>, mid: Tables, n: NodeId)
    requires Leaves(b, init, mid)
    ensures Leaves(b, init + [n], SweptOne(mid, n))
  {
    AdmittedNext(b.nodes, init, mid.nodes, n);
    NeedyNext(b.nodes, init, mid.nodes, n);
    QueuedNext(b, init, mid, n);
    NeedyAfter(b, init, mid, n);
    LeavesByNext(b, Admitted(b.nodes, init), Needy(b.nodes, init), Queued(b, init), mid, n);
  }

  lemma LeavesNone(b: Tables)
    ensures Leaves(b, [], b)
  {
    assert Firsts([], NotIn(b.nodes)) == [];
    assert Admitted(b.nodes, []) == [];
    assert Needy(b.nodes, []) == [];
  }

  lemma {:induction false} SweepLeaves(b: Tables, wanted: seq<NodeId>)
    ensures Leaves(b, wanted, SweptAll(b, wanted))
  {
    if wanted == [] {
      LeavesNone(b);
    } else {
      var init, n := wanted[..|wanted| - 1], wanted[|wanted| - 1];
      assert init + [n] == wanted;
      SweepLeaves(b, init);
      LeavesNext(b, init, SweptAll(b, init), n);
    }
  }

  /** The queue has grown by `added`: each once, wanted, in the table, and before the sweep
      idle and no sleepy device; any other such node found the queue full. */
  ghost predicate PickedUp(b: Tables, wanted: seq<NodeId>, after: Tables, added: seq<NodeId>) {
    && after.queue == b.queue + added && Finite.Distinct(added)
    && (forall n :: n in added ==> n in wanted && n in after.nodes && IdleIn(b.nodes, n))
    && (forall n :: n in wanted && n in after.nodes && IdleIn(b.nodes, n) ==>
          n in added || |after.queue| >= QUEUE_DEPTH)
    && (added != [] ==> |after.queue| <= QUEUE_DEPTH)
  }

  lemma LeavesPicksUp(b: Tables, wanted: seq<NodeId>, after: Tables)
    requires Leaves(b, wanted, after)
    ensures PickedUp(b, wanted, after, Queued(b, wanted))
    ensures forall n :: n in wanted && n in after.nodes && !after.nodes[n].icd ==>
      after.nodes[n].subscribed || after.nodes[n].pending || (IdleIn(b.nodes, n) && |after.queue| >= QUEUE_DEPTH)
    ensures forall n :: n in wanted && n !in after.nodes ==> |after.nodes| >= MAX_NODES
  {
    NeedyAre(b.nodes, wanted);
    AdmittedAre(b.nodes, wanted);
    TableSize(b.nodes, after.nodes, wanted);
    var needy, queued := Needy(b.nodes, wanted), Queued(b, wanted);
    TakenFrom(needy, QUEUE_DEPTH - |b.queue|);
    forall n | n in wanted && n in after.nodes && !after.nodes[n].icd
      ensures after.nodes[n].subscribed || after.nodes[n].pending
              || (IdleIn(b.nodes, n) && |after.queue| >= QUEUE_DEPTH)
    {
      assert after.nodes[n] == NodeAfter(b.nodes, needy, queued, n);
    }
  }

  lemma TakenFrom(list: seq<NodeId>, k: int)
    requires Finite.Distinct(list)
    ensures var taken := Take(list, k);
            && Finite.Distinct(taken) && (forall x :: x in taken ==> x in list)
            && (|taken| < k ==> taken == list) && |taken| <= if k <= 0 then 0 else k
  {
  }

  /** A sweep of an idle task, run to its end by its own steps, in any state: the idle nodes
      among the wanted ones are picked up, and nothing else is touched. */
  lemma SweepPicksUp(s: State, task: Task, wanted: seq<NodeId>, answers: seq<bool>)
    requires TodoOf(s, task) == [] && task != CHIP && |answers| >= 3 * |wanted|
    ensures var after := Play(Next(s, Sweep(task, wanted)), task, answers);
            var was, now := TablesOf(s.shared), TablesOf(after.shared);
            && TodoOf(after, task) == [] && OthersStay(s, after, task)
            && after.shared == WithTables(s.shared, now)
            && Leaves(was, wanted, now) && PickedUp(was, wanted, now, Queued(was, wanted))
            && (forall n :: n in wanted && n in now.nodes && !now.nodes[n].icd ==>
                 now.nodes[n].subscribed || now.nodes[n].pending || |now.queue| >= QUEUE_DEPTH)
            && (forall n :: n in wanted && n !in now.nodes ==> |now.nodes| >= MAX_NODES)
  {
    var begun := Next(s, Sweep(task, wanted));
    SweptChecks(s.shared, wanted);
    assert TodoOf(begun, task) == Checks(wanted);
    PlaysOut(begun, task, answers);
    SweepLeaves(TablesOf(s.shared), wanted);
    LeavesPicksUp(TablesOf(s.shared), wanted, SweptAll(TablesOf(s.shared), wanted));
  }

  /** sweep_for_unsubscribed_nodes on the tables. */
  method SweepForUnsubscribed(m: Manager, wanted: seq<NodeId>)
    requires m.Valid()
    modifies m, m.entries
    ensures m.Valid() && Leaves(Tables(old(m.nodes), old(m.queue)), wanted, Tables(m.nodes, m.queue))
  {
    ghost var b := Tables(m.nodes, m.queue);
    for i := 0 to |wanted|
      invariant m.Valid() && Tables(m.nodes, m.queue) == SweptAll(b, wanted[..i])
    {
      assert wanted[..i + 1][..i] == wanted[..i];
      SweepNode(m, wanted[i]);
    }
    assert wanted[..|wanted|] == wanted;
    SweepLeaves(b, wanted);
  }

  /** A node created first and enqueued if it is idle. */
  lemma SweptIsEnqueued(b: Tables, n: NodeId)
    ensures var made := Tables(Created(b.nodes, n), b.queue);
            SweptOne(b, n) == if n in made.nodes && IdleIn(made.nodes, n) then Enqueued(made, n) else made
  {
  }

  method SweepNode(m: Manager, n: NodeId)
    requires m.Valid()
    modifies m, m.entries
    ensures m.Valid() && Tables(m.nodes, m.queue) == SweptOne(Tables(old(m.nodes), old(m.queue)), n)
  {
    SweptIsEnqueued(Tables(m.nodes, m.queue), n);
    var i := m.FindOrCreate(n);
    if i < MAX_NODES {
      var node := m.entries[i].node;
      m.EntryIs(i);
      if !node.icd && !node.subscribed && !node.pending {
        EnqueueSubscription(m, n);
      }
    }
  }

  lemma EnqueuedInParts(b: Tables, n: NodeId)
    ensures var marked := MarkedPending(b.nodes, n);
            Enqueued(b, n) ==
              if n !in marked || (n in b.nodes && b.nodes[n].pending) then Tables(marked, b.queue)
              else if |b.queue| < QUEUE_DEPTH then Tables(marked, b.queue + [n])
              else Tables(Cleared(marked, n, 0), b.queue)
  {
  }

  /** enqueue_subscription on the tables. */
  method EnqueueSubscription(m: Manager, n: NodeId)
    requires m.Valid()
    modifies m, m.entries
    ensures m.Valid() && Tables(m.nodes, m.queue) == Enqueued(Tables(old(m.nodes), old(m.queue)), n)
  {
    EnqueuedInParts(Tables(m.nodes, m.queue), n);
    ghost var marked, queue := MarkedPending(m.nodes, n), m.queue;
    var queueIt := m.MarkPending(n);
    assert m.nodes == marked && m.queue == queue;
    if queueIt {
      m.QueueSend(n);
    }
  }
}
