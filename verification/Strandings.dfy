/** firmware/main/managers/subscription_manager.cpp: the two ways a node is stranded when
    attempts may die without reporting, each shown by a run from the start, and what
    exactly a termination that is not current does. */
module Strandings {
  import opened Subscriptions

  // ---- A termination that is not current ---------------------------------------------------

  /** n holds a slot other than its first that nobody is about to free. */
  ghost predicate SecondSlot(s: State, n: NodeId) {
    && (exists i :: 0 <= i < MAX_ATTEMPTS && i != FirstWith(s.shared.slots, n)
          && s.shared.slots[i] == n && FreeSlot(i) !in TodoOf(s, WORKER))
    && Finish(n) !in TodoOf(s, WORKER)
  }

  /** Once it has run, the node is kept exactly by what does not rest on its first slot. */
  lemma StaleTerminationExactly(s: State, n: NodeId, subId: nat, yes: bool)
    requires TodoOf(s, CHIP) == [] && subId != 0 && !Concerns(s.shared.nodes, n, subId)
    ensures var after := Next(Next(s, Terminated(n, subId)), Continue(CHIP, yes));
            && after.shared.nodes == s.shared.nodes
            && (Kept(after, n) <==>
                 n in s.shared.queue || (exists task :: Handed(TodoOf(s, task), n)) || SecondSlot(s, n))
  {
    var mid := Next(s, Terminated(n, subId));
    var after := Next(mid, Continue(CHIP, yes));
    assert TodoOf(mid, CHIP) == [Finish(n)];
    assert forall task :: TodoOf(after, task) == TodoOf(s, task);
    var first := FirstWith(s.shared.slots, n);
    assert after.shared.slots == Finished(s.shared.slots, n);
    assert forall i :: 0 <= i < MAX_ATTEMPTS ==>
      after.shared.slots[i] == if i == first then 0 else s.shared.slots[i];
    assert Sheltered(after, n) <==> SecondSlot(s, n);
  }

  // ---- Runs joined ---------------------------------------------------------------------------

  lemma {:induction false} RunOn(s: State, a: seq<Action>, b: seq<Action>)
    ensures Run(s, a + b) == Run(Run(s, a), b)
    ensures AllOrderly(s, a + b) <==> AllOrderly(s, a) && AllOrderly(Run(s, a), b)
    ensures AllTimely(s, a + b) <==> AllTimely(s, a) && AllTimely(Run(s, a), b)
    decreases |a|
  {
    if a == [] {
      assert a + b == b;
    } else {
      assert (a + b)[1..] == a[1..] + b;
      RunOn(Next(s, a[0]), a[1..], b);
    }
  }

  lemma RunOne(s: State, a: Action)
    ensures Run(s, [a]) == Next(s, a)
    ensures AllOrderly(s, [a]) <==> Orderly(s, a)
    ensures AllTimely(s, [a]) <==> Timely(s, a)
  {
    assert [a][1..] == [];
    assert Run(Next(s, a), []) == Next(s, a);
  }

  /** A run together with where it leads and what it keeps to. */
  ghost predicate Leads(s: State, actions: seq<Action>, t: State, orderly: bool, timely: bool) {
    Run(s, actions) == t && (orderly ==> AllOrderly(s, actions)) && (timely ==> AllTimely(s, actions))
  }

  lemma LeadsOne(s: State, a: Action, orderly: bool, timely: bool)
    requires (orderly ==> Orderly(s, a)) && (timely ==> Timely(s, a))
    ensures Leads(s, [a], Next(s, a), orderly, timely)
  {
    RunOne(s, a);
  }

  lemma LeadsOn(s: State, a: seq<Action>, t: State, b: seq<Action>, u: State, orderly: bool, timely: bool)
    requires Leads(s, a, t, orderly, timely) && Leads(t, b, u, orderly, timely)
    ensures Leads(s, a + b, u, orderly, timely)
  {
    RunOn(s, a, b);
  }

  // ---- One node on its own -------------------------------------------------------------------

  /** All there is to know of a state in which only node n and tasks 0 to 2 have been active. */
  datatype View = View(node: Node, slots: Slots, queue: seq<NodeId>, scheduled: multiset<NodeId>,
                       sent: multiset<NodeId>, worker: seq<Todo>, chip: seq<Todo>, caller: seq<Todo>)

  const CALLER: Task := 2

  function TodoIn(v: View, task: Task): seq<Todo> {
    if task == WORKER then v.worker
    else if task == CHIP then v.chip
    else if task == CALLER then v.caller
    else []
  }

  ghost predicate SharedShows(sh: Shared, n: NodeId, v: View) {
    n in sh.nodes && sh.nodes[n] == v.node && sh.slots == v.slots && sh.queue == v.queue
    && sh.scheduled == v.scheduled && sh.sent == v.sent
  }

  ghost predicate Shows(s: State, n: NodeId, v: View) {
    SharedShows(s.shared, n, v) && forall task :: TodoOf(s, task) == TodoIn(v, task)
  }

  const FREE: Slots := [0, 0, 0, 0]

  /** The node subscribed under id, with nothing going on. */
  function Settled(id: nat): View {
    View(Node(true, false, id, false), FREE, [], multiset{}, multiset{}, [], [], [])
  }

  /** The node marked pending, with nothing left that would take it further. */
  function Stranded(): View {
    View(Node(false, true, 0, false), FREE, [], multiset{}, multiset{}, [], [], [])
  }

  lemma StrandedIsLost(s: State, n: NodeId)
    requires Shows(s, n, Stranded())
    ensures Waiting(s.shared.nodes, n) && !Attended(s, n) && !Kept(s, n)
  {
    assert forall task :: TodoOf(s, task) == [];
  }

  /** A task's next step, w being the view after it. */
  lemma Continues(s: State, n: NodeId, v: View, task: Task, yes: bool, more: seq<Todo>, w: View)
    requires Shows(s, n, v) && TodoIn(v, task) != []
    requires more == Do(s.shared, TodoIn(v, task)[0], yes).1
    requires SharedShows(Do(s.shared, TodoIn(v, task)[0], yes).0, n, w)
    requires TodoIn(w, task) == more + TodoIn(v, task)[1..]
    requires forall other :: other != task ==> TodoIn(w, other) == TodoIn(v, other)
    requires task == WORKER && v.worker[0].TryClaim? && FirstWith(v.slots, 0) < MAX_ATTEMPTS ==>
               Finish(v.worker[0].n) !in v.chip
    ensures var t := Next(s, Continue(task, yes));
            Shows(t, n, w) && Leads(s, [Continue(task, yes)], t, true, true)
  {
    assert TodoOf(s, task) == TodoIn(v, task) && TodoOf(s, WORKER) == v.worker && TodoOf(s, CHIP) == v.chip;
    LeadsOne(s, Continue(task, yes), true, true);
  }

  /** A run taken one such step further. */
  lemma Then(origin: State, actions: seq<Action>, s: State, n: NodeId, v: View, task: Task, yes: bool, more: seq<Todo>,
             w: View, orderly: bool, timely: bool) returns (longer: seq<Action>, t: State)
    requires Leads(origin, actions, s, orderly, timely) && Shows(s, n, v) && TodoIn(v, task) != []
    requires more == Do(s.shared, TodoIn(v, task)[0], yes).1
    requires SharedShows(Do(s.shared, TodoIn(v, task)[0], yes).0, n, w)
    requires TodoIn(w, task) == more + TodoIn(v, task)[1..]
    requires forall other :: other != task ==> TodoIn(w, other) == TodoIn(v, other)
    requires task == WORKER && v.worker[0].TryClaim? && FirstWith(v.slots, 0) < MAX_ATTEMPTS ==>
               Finish(v.worker[0].n) !in v.chip
    ensures Leads(origin, longer, t, orderly, timely) && Shows(t, n, w)
  {
    Continues(s, n, v, task, yes, more, w);
    t := Next(s, Continue(task, yes));
    longer := actions + [Continue(task, yes)];
    LeadsOn(origin, actions, s, [Continue(task, yes)], t, orderly, timely);
  }

  /** An event that sets an idle task to work. */
  lemma Starts(s: State, n: NodeId, v: View, a: Action, task: Task, shared: Shared, todo: seq<Todo>, w: View)
    requires Shows(s, n, v) && TodoIn(v, task) == [] && TodoIn(w, task) == todo && SharedShows(shared, n, w)
    requires !a.Continue? && Next(s, a) == Begin(s, task, shared, todo)
    requires forall other :: other != task ==> TodoIn(w, other) == TodoIn(v, other)
    ensures Shows(Next(s, a), n, w)
    ensures Leads(s, [a], Next(s, a), true, !a.Terminated? || Concerns(s.shared.nodes, a.n, a.subId))
  {
    assert TodoOf(s, task) == [];
    LeadsOne(s, a, true, !a.Terminated? || Concerns(s.shared.nodes, a.n, a.subId));
  }

  function OnTask(v: View, task: Task, todo: seq<Todo>): View
    requires task == CHIP || task == CALLER
  {
    if task == CHIP then v.(chip := todo) else v.(caller := todo)
  }

  lemma MarksPending(sh: Shared, n: NodeId, v: View)
    requires SharedShows(sh, n, v) && !v.node.pending
    ensures var (after, more) := Do(sh, Enqueue(n), true);
            more == [Send(n)] && SharedShows(after, n, v.(node := v.node.(pending := true)))
  {
  }

  /** enqueue_subscription, for a node not yet pending. */
  lemma Enqueues(origin: State, actions: seq<Action>, s: State, n: NodeId, v: View, task: Task,
                 orderly: bool, timely: bool) returns (longer: seq<Action>, t: State)
    requires Leads(origin, actions, s, orderly, timely) && (task == CHIP || task == CALLER)
    requires Shows(s, n, v) && TodoIn(v, task) == [Enqueue(n)] && !v.node.pending && |v.queue| < QUEUE_DEPTH
    ensures Leads(origin, longer, t, orderly, timely)
    ensures Shows(t, n, OnTask(v.(node := v.node.(pending := true), queue := v.queue + [n]), task, []))
  {
    var v1 := OnTask(v.(node := v.node.(pending := true)), task, [Send(n)]);
    MarksPending(s.shared, n, v);
    longer, t := Then(origin, actions, s, n, v, task, true, [Send(n)], v1, orderly, timely);
    longer, t := Then(origin, longer, t, n, v1, task, true, [], OnTask(v1.(queue := v.queue + [n]), task, []),
                      orderly, timely);
  }

  /** A caller requests a node not yet pending. */
  lemma Requests(s: State, n: NodeId, v: View) returns (actions: seq<Action>, t: State)
    requires Shows(s, n, v) && v.caller == [] && !v.node.pending && |v.queue| < QUEUE_DEPTH
    ensures Leads(s, actions, t, true, true)
    ensures Shows(t, n, v.(node := v.node.(pending := true), queue := v.queue + [n]))
  {
    var v1 := v.(caller := [Enqueue(n)]);
    Starts(s, n, v, Request(CALLER, n), CALLER, s.shared, [Enqueue(n)], v1);
    actions, t := Enqueues(s, [Request(CALLER, n)], Next(s, Request(CALLER, n)), n, v1, CALLER, true, true);
  }

  /** The worker finds no slot expired. */
  lemma PassesSlots(s: State, n: NodeId, v: View, rest: seq<Todo>) returns (actions: seq<Action>, t: State)
    requires Shows(s, n, v) && v.worker == [Reclaim(0), Reclaim(1), Reclaim(2), Reclaim(3)] + rest
    ensures Leads(s, actions, t, true, true) && Shows(t, n, v.(worker := rest))
  {
    var c := Continue(WORKER, false);
    var v1 := v.(worker := [Reclaim(1), Reclaim(2), Reclaim(3)] + rest);
    var v2, v3 := v.(worker := [Reclaim(2), Reclaim(3)] + rest), v.(worker := [Reclaim(3)] + rest);
    Continues(s, n, v, WORKER, false, [], v1);
    var s1 := Next(s, c);
    Continues(s1, n, v1, WORKER, false, [], v2);
    var s2 := Next(s1, c);
    Continues(s2, n, v2, WORKER, false, [], v3);
    var s3 := Next(s2, c);
    Continues(s3, n, v3, WORKER, false, [], v.(worker := rest));
    t := Next(s3, c);
    LeadsOn(s, [c], s1, [c], s2, true, true);
    LeadsOn(s2, [c], s3, [c], t, true, true);
    LeadsOn(s, [c] + [c], s2, [c] + [c], t, true, true);
    actions := ([c] + [c]) + ([c] + [c]);
  }

  /** The worker takes a queued node up to waiting for a slot. */
  lemma Receives(s: State, n: NodeId, v: View) returns (actions: seq<Action>, t: State)
    requires Shows(s, n, v) && v.queue == [n] && v.worker == [] && !v.node.subscribed
    ensures Leads(s, actions, t, true, true)
    ensures Shows(t, n, v.(queue := [], worker := ClaimLoop(n)))
  {
    var c, v0 := Continue(WORKER, true), v.(queue := []);
    var v1, v2 := v0.(worker := [CheckWanted(n)]), v0.(worker := [CheckSubscribed(n)]);
    var s1 := Next(s, Receive);
    Starts(s, n, v, Receive, WORKER, s.shared.(queue := []), [CheckWanted(n)], v1);
    var s2 := Next(s1, c);
    Continues(s1, n, v1, WORKER, true, [CheckSubscribed(n)], v2);
    t := Next(s2, c);
    Continues(s2, n, v2, WORKER, true, ClaimLoop(n), v0.(worker := ClaimLoop(n)));
    LeadsOn(s, [Receive], s1, [c], s2, true, true);
    LeadsOn(s, [Receive] + [c], s2, [c], t, true, true);
    actions := ([Receive] + [c]) + [c];
  }

  /** The worker claims the first of four free slots and schedules the attempt. */
  lemma Claims(s: State, n: NodeId, v: View, orderly: bool) returns (actions: seq<Action>, t: State)
    requires Shows(s, n, v) && v.worker == [TryClaim(n)] && v.slots == FREE
    requires orderly ==> Finish(n) !in v.chip
    ensures Leads(s, actions, t, orderly, true)
    ensures Shows(t, n, v.(worker := [], slots := FREE[0 := n], scheduled := v.scheduled + multiset{n}))
  {
    var c := Continue(WORKER, true);
    var v1 := v.(worker := [Schedule(n)], slots := FREE[0 := n]);
    var s1 := Next(s, c);
    assert TodoOf(s, WORKER) == TodoIn(v, WORKER) && TodoOf(s, CHIP) == TodoIn(v, CHIP);
    assert FirstWith(FREE, 0) == 0;
    assert [Schedule(n)] + [TryClaim(n)][1..] == [Schedule(n)];
    assert TodoOf(s1, WORKER) == [Schedule(n)];
    assert forall task :: task != WORKER ==> TodoOf(s1, task) == TodoOf(s, task);
    LeadsOne(s, c, orderly, true);
    t := Next(s1, c);
    Continues(s1, n, v1, WORKER, true, [], v1.(worker := [], scheduled := v.scheduled + multiset{n}));
    LeadsOn(s, [c], s1, [c], t, orderly, true);
    actions := [c] + [c];
  }

  /** From the queue into an attempt. */
  lemma Attempts(s: State, n: NodeId, v: View, orderly: bool) returns (actions: seq<Action>, t: State)
    requires Shows(s, n, v) && v.queue == [n] && v.worker == [] && v.slots == FREE && !v.node.subscribed
    requires orderly ==> Finish(n) !in v.chip
    ensures Leads(s, actions, t, orderly, true)
    ensures Shows(t, n, v.(queue := [], slots := FREE[0 := n], scheduled := v.scheduled + multiset{n}))
  {
    var v1 := v.(queue := [], worker := ClaimLoop(n));
    var first, s1 := Receives(s, n, v);
    assert ClaimLoop(n) == [Reclaim(0), Reclaim(1), Reclaim(2), Reclaim(3)] + [TryClaim(n)];
    var second, s2 := PassesSlots(s1, n, v1, [TryClaim(n)]);
    var third, s3 := Claims(s2, n, v1.(worker := [TryClaim(n)]), orderly);
    LeadsOn(s, first, s1, second, s2, orderly, true);
    LeadsOn(s, first + second, s2, third, s3, orderly, true);
    actions, t := (first + second) + third, s3;
  }

  lemma SendGoesOut(sh: Shared, n: NodeId, v: View)
    requires SharedShows(sh, n, v) && v.scheduled == multiset{n} && v.sent == multiset{}
    ensures var (after, more) := Do(sh, SendResult(n), true);
            more == [] && SharedShows(after, n, v.(scheduled := multiset{}, sent := multiset{n}))
  {
  }

  /** The CHIP task sends the subscription of a node that is not an ICD. */
  lemma Sends(s: State, n: NodeId, v: View) returns (actions: seq<Action>, t: State)
    requires Shows(s, n, v) && v.chip == [] && v.scheduled == multiset{n} && v.sent == multiset{}
    ensures Leads(s, actions, t, true, true)
    ensures Shows(t, n, v.(node := v.node.(icd := false), scheduled := multiset{}, sent := multiset{n}))
  {
    var v1, v2 := v.(chip := [Refresh(n), SendResult(n)]), v.(node := v.node.(icd := false), chip := [SendResult(n)]);
    Starts(s, n, v, RunSend(n), CHIP, s.shared, [Refresh(n), SendResult(n)], v1);
    actions, t := [RunSend(n)], Next(s, RunSend(n));
    actions, t := Then(s, actions, t, n, v1, CHIP, false, [], v2, true, true);
    SendGoesOut(t.shared, n, v2);
    var v3 := v2.(chip := [], scheduled := multiset{}, sent := multiset{n});
    actions, t := Then(s, actions, t, n, v2, CHIP, true, [], v3, true, true);
  }

  /** A callback frees the node's slot. */
  lemma Frees(s: State, n: NodeId, v: View, rest: seq<Todo>) returns (t: State)
    requires Shows(s, n, v) && v.chip == [Finish(n)] + rest && v.slots == FREE[0 := n]
    ensures Leads(s, [Continue(CHIP, true)], t, true, true) && Shows(t, n, v.(chip := rest, slots := FREE))
  {
    t := Next(s, Continue(CHIP, true));
    assert Finished(v.slots, n) == FREE;
    Continues(s, n, v, CHIP, true, [], v.(chip := rest, slots := FREE));
  }

  /** The device answers: the node is subscribed under id. */
  lemma Establishes(s: State, n: NodeId, v: View, id: nat) returns (actions: seq<Action>, t: State)
    requires Shows(s, n, v) && v.chip == [] && v.sent == multiset{n} && v.slots == FREE[0 := n]
    ensures Leads(s, actions, t, true, true)
    ensures Shows(t, n, v.(node := Node(true, false, id, v.node.icd), sent := multiset{}, slots := FREE))
  {
    var a := Established(n, id);
    var v1 := v.(node := Node(true, false, id, v.node.icd), sent := multiset{}, chip := [Finish(n)]);
    var s1 := Next(s, a);
    var shared := s.shared.(nodes := MarkedSubscribed(s.shared.nodes, n, id), sent := multiset{});
    Starts(s, n, v, a, CHIP, shared, [Finish(n)], v1);
    t := Frees(s1, n, v1, []);
    LeadsOn(s, [a], s1, [Continue(CHIP, true)], t, true, true);
    actions := [a] + [Continue(CHIP, true)];
  }

  /** A request for a node not heard of before has marked it pending. */
  lemma FirstMarked(n: NodeId) returns (actions: seq<Action>, t: State)
    ensures Leads(INITIAL, actions, t, true, true)
    ensures Shows(t, n, View(Node(false, true, 0, false), FREE, [], multiset{}, multiset{}, [], [], [Send(n)]))
  {
    var a, c := Request(CALLER, n), Continue(CALLER, true);
    var s := Next(INITIAL, a);
    assert TodoOf(s, CALLER) == [Enqueue(n)] && forall task :: task != CALLER ==> TodoOf(s, task) == [];
    t := Next(s, c);
    assert [Send(n)] + [Enqueue(n)][1..] == [Send(n)];
    LeadsOne(INITIAL, a, true, true);
    LeadsOne(s, c, true, true);
    LeadsOn(INITIAL, [a], s, [c], t, true, true);
    actions := [a] + [c];
  }

  /** The first request for a node, from the start. */
  lemma FirstRequest(n: NodeId) returns (actions: seq<Action>, t: State)
    ensures Leads(INITIAL, actions, t, true, true)
    ensures Shows(t, n, View(Node(false, true, 0, false), FREE, [n], multiset{}, multiset{}, [], [], []))
  {
    var v := View(Node(false, true, 0, false), FREE, [], multiset{}, multiset{}, [], [], [Send(n)]);
    actions, t := FirstMarked(n);
    actions, t := Then(INITIAL, actions, t, n, v, CALLER, true, [], v.(caller := [], queue := [n]), true, true);
  }

  /** A node comes to be subscribed under id. */
  lemma Subscribes(n: NodeId, id: nat) returns (actions: seq<Action>, t: State)
    ensures Leads(INITIAL, actions, t, true, true) && Shows(t, n, Settled(id))
  {
    var first, s1 := FirstRequest(n);
    var v := View(Node(false, true, 0, false), FREE, [n], multiset{}, multiset{}, [], [], []);
    var second, s2 := Attempts(s1, n, v, true);
    var v2 := v.(queue := [], slots := FREE[0 := n], scheduled := multiset{n});
    var third, s3 := Sends(s2, n, v2);
    var fourth, s4 := Establishes(s3, n, v2.(scheduled := multiset{}, sent := multiset{n}), id);
    LeadsOn(INITIAL, first, s1, second, s2, true, true);
    LeadsOn(INITIAL, first + second, s2, third, s3, true, true);
    LeadsOn(INITIAL, (first + second) + third, s3, fourth, s4, true, true);
    actions, t := ((first + second) + third) + fourth, s4;
  }

  // ---- The two strandings ---------------------------------------------------------------------

  /** The current subscription ends. */
  lemma Ends(s: State, n: NodeId, v: View, id: nat) returns (t: State)
    requires Shows(s, n, v) && v.chip == [] && v.node.subId == id != 0
    ensures Leads(s, [Terminated(n, id)], t, true, true)
    ensures Shows(t, n, v.(node := Node(false, false, 0, v.node.icd), chip := [Finish(n), Enqueue(n)]))
  {
    var shared := s.shared.(nodes := Cleared(s.shared.nodes, n, id));
    t := Next(s, Terminated(n, id));
    assert [Finish(n)] + [Enqueue(n)] == [Finish(n), Enqueue(n)];
    Starts(s, n, v, Terminated(n, id), CHIP, shared, [Finish(n), Enqueue(n)],
           v.(node := Node(false, false, 0, v.node.icd), chip := [Finish(n), Enqueue(n)]));
  }

  /** Another one ends. */
  lemma EndsStale(s: State, n: NodeId, v: View, id: nat) returns (t: State)
    requires Shows(s, n, v) && v.chip == [] && v.node.subId != id && id != 0
    ensures Leads(s, [Terminated(n, id)], t, true, false) && Shows(t, n, v.(chip := [Finish(n)]))
  {
    t := Next(s, Terminated(n, id));
    assert [Finish(n)] + [] == [Finish(n)];
    Starts(s, n, v, Terminated(n, id), CHIP, s.shared, [Finish(n)], v.(chip := [Finish(n)]));
  }

  /** An attempt that dies leaves a waiting node without a slot stranded. */
  lemma Dies(s: State, n: NodeId, v: View) returns (t: State)
    requires Shows(s, n, v) && v.sent == multiset{n} && v.(sent := multiset{}) == Stranded()
    ensures Leads(s, [DieSilently(n)], t, true, true) && Shows(t, n, Stranded())
  {
    t := Next(s, DieSilently(n));
    LeadsOne(s, DieSilently(n), true, true);
    assert forall task :: TodoOf(t, task) == TodoOf(s, task);
  }

  /** The view of a node with an attempt scheduled while a callback ends its subscription. */
  function Overtaken(n: NodeId): View {
    View(Node(false, true, 0, false), FREE[0 := n], [], multiset{n}, multiset{}, [], [Finish(n), Enqueue(n)], [])
  }

  /** The current subscription ends; before its callback has freed the attempt's slot, a
      caller requests the node and the worker claims it a slot. */
  lemma Overtakes(n: NodeId) returns (actions: seq<Action>, t: State)
    ensures Leads(INITIAL, actions, t, false, true) && Shows(t, n, Overtaken(n))
  {
    var first, s1 := Subscribes(n, 7);
    var v2 := Settled(7).(node := Node(false, false, 0, false), chip := [Finish(n), Enqueue(n)]);
    var s2 := Ends(s1, n, Settled(7), 7);
    var third, s3 := Requests(s2, n, v2);
    var fourth, s4 := Attempts(s3, n, v2.(node := Node(false, true, 0, false), queue := [n]), false);
    LeadsOn(INITIAL, first, s1, [Terminated(n, 7)], s2, false, true);
    LeadsOn(INITIAL, first + [Terminated(n, 7)], s2, third, s3, false, true);
    LeadsOn(INITIAL, (first + [Terminated(n, 7)]) + third, s3, fourth, s4, false, true);
    actions, t := ((first + [Terminated(n, 7)]) + third) + fourth, s4;
  }

  /** The callback then frees the new slot, and finds the node pending already; the attempt
      is sent and dies. */
  lemma GoesUnder(s: State, n: NodeId) returns (actions: seq<Action>, t: State)
    requires Shows(s, n, Overtaken(n))
    ensures Leads(s, actions, t, false, true) && Shows(t, n, Stranded())
  {
    var c, v := Continue(CHIP, true), Overtaken(n);
    var s1 := Frees(s, n, v, [Enqueue(n)]);
    var v1 := v.(slots := FREE, chip := [Enqueue(n)]);
    var s2 := Next(s1, c);
    Continues(s1, n, v1, CHIP, true, [], v1.(chip := []));
    var third, s3 := Sends(s2, n, v1.(chip := []));
    t := Dies(s3, n, v1.(chip := [], scheduled := multiset{}, sent := multiset{n}));
    LeadsOn(s, [c], s1, [c], s2, false, true);
    LeadsOn(s, [c] + [c], s2, third, s3, false, true);
    LeadsOn(s, ([c] + [c]) + third, s3, [DieSilently(n)], t, false, true);
    actions := (([c] + [c]) + third) + [DieSilently(n)];
  }

  /** So a claim out of order strands a node, every termination being timely. */
  lemma DisorderStrands(n: NodeId) returns (actions: seq<Action>)
    ensures AllTimely(INITIAL, actions)
    ensures var s := Run(INITIAL, actions); Waiting(s.shared.nodes, n) && !Attended(s, n) && !Kept(s, n)
  {
    var first, s := Overtakes(n);
    var second, t := GoesUnder(s, n);
    LeadsOn(INITIAL, first, s, second, t, false, true);
    actions := first + second;
    StrandedIsLost(t, n);
  }

  /** A check-in clears the node and queues it anew. */
  lemma ChecksIn(s: State, n: NodeId, id: nat) returns (actions: seq<Action>, t: State)
    requires Shows(s, n, Settled(id))
    ensures Leads(s, actions, t, true, true)
    ensures Shows(t, n, Settled(id).(node := Node(false, true, 0, false), queue := [n]))
  {
    var v := Settled(id);
    var v1, v2 := v.(chip := [Refresh(n), Clear(n), Enqueue(n)]), v.(chip := [Clear(n), Enqueue(n)]);
    var v3 := v.(node := Node(false, false, 0, false), chip := [Enqueue(n)]);
    Starts(s, n, v, CheckIn(n), CHIP, s.shared, [Refresh(n), Clear(n), Enqueue(n)], v1);
    actions, t := [CheckIn(n)], Next(s, CheckIn(n));
    actions, t := Then(s, actions, t, n, v1, CHIP, false, [], v2, true, true);
    actions, t := Then(s, actions, t, n, v2, CHIP, true, [], v3, true, true);
    actions, t := Enqueues(s, actions, t, n, v3, CHIP, true, true);
  }

  /** A check-in replaces a subscription, whose termination arrives late, while the new
      attempt holds its slot. No claim is out of order; only the termination is stale. */
  lemma StaleStrands(n: NodeId) returns (actions: seq<Action>)
    ensures AllOrderly(INITIAL, actions)
    ensures var s := Run(INITIAL, actions); Waiting(s.shared.nodes, n) && !Attended(s, n) && !Kept(s, n)
  {
    var first, s1 := Subscribes(n, 7);
    var second, s2 := ChecksIn(s1, n, 7);
    var v2 := Settled(7).(node := Node(false, true, 0, false), queue := [n]);
    var third, s3 := Attempts(s2, n, v2, true);
    var v3 := v2.(queue := [], slots := FREE[0 := n], scheduled := multiset{n});
    var fourth, s4 := Sends(s3, n, v3);
    var v4 := v3.(scheduled := multiset{}, sent := multiset{n});
    var a := Terminated(n, 7);
    var s5 := EndsStale(s4, n, v4, 7);
    var s6 := Frees(s5, n, v4.(chip := [Finish(n)]), []);
    var s7 := Dies(s6, n, v4.(slots := FREE));
    LeadsOn(INITIAL, first, s1, second, s2, true, false);
    LeadsOn(INITIAL, first + second, s2, third, s3, true, false);
    LeadsOn(INITIAL, (first + second) + third, s3, fourth, s4, true, false);
    var early := ((first + second) + third) + fourth;
    LeadsOn(INITIAL, early, s4, [a], s5, true, false);
    LeadsOn(INITIAL, early + [a], s5, [Continue(CHIP, true)], s6, true, false);
    LeadsOn(INITIAL, (early + [a]) + [Continue(CHIP, true)], s6, [DieSilently(n)], s7, true, false);
    actions := ((early + [a]) + [Continue(CHIP, true)]) + [DieSilently(n)];
    StrandedIsLost(s7, n);
  }
}
