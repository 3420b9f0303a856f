/** firmware/main/managers/subscription_manager.cpp as a protocol: the worker, the
    CHIP task and any number of callers interleave, one mutex-protected section or
    queue operation at a time. */
module Subscriptions {
  import Finite

  type NodeId = n: int | n > 0 witness 1

  const QUEUE_DEPTH: nat := 16
  const MAX_ATTEMPTS: nat := 4
  const MAX_NODES: nat := 32

  datatype Node = Node(subscribed: bool, pending: bool, subId: nat, icd: bool)

  const NEW_NODE := Node(false, false, 0, false)

  type Nodes = map<NodeId, Node>

  /** Slot holders; 0 when free. */
  type Slots = s: seq<int> | |s| == MAX_ATTEMPTS witness [0, 0, 0, 0]

  // ---- The table and slot operations -------------------------------------------------------

  /** find_node_locked with create: the table unchanged when it is full. */
  function Created(nodes: Nodes, n: NodeId): Nodes {
    if n in nodes || |nodes| >= MAX_NODES then nodes else nodes[n := NEW_NODE]
  }

  function MarkedSubscribed(nodes: Nodes, n: NodeId, subId: nat): Nodes {
    var table := Created(nodes, n);
    if n in table then table[n := table[n].(subscribed := true, pending := false, subId := subId)] else table
  }

  /** Does a termination of subscription subId concern what n holds? 0 means whatever it is. */
  predicate Concerns(nodes: Nodes, n: NodeId, subId: nat) {
    n in nodes && (subId == 0 || nodes[n].subId == subId)
  }

  function Cleared(nodes: Nodes, n: NodeId, subId: nat): Nodes {
    if Concerns(nodes, n, subId) then nodes[n := nodes[n].(subscribed := false, pending := false, subId := 0)]
    else nodes
  }

  function Refreshed(nodes: Nodes, n: NodeId, icd: bool): Nodes {
    var table := Created(nodes, n);
    if n in table then table[n := table[n].(icd := icd)] else table
  }

  function MarkedPending(nodes: Nodes, n: NodeId): Nodes {
    var table := Created(nodes, n);
    if n in table then table[n := table[n].(pending := true)] else table
  }

  function FirstWith(slots: seq<int>, holder: int): (i: nat)
    ensures i <= |slots|
    ensures i < |slots| ==> slots[i] == holder
    ensures forall j :: 0 <= j < i ==> slots[j] != holder
  {
    if slots == [] || slots[0] == holder then 0 else 1 + FirstWith(slots[1..], holder)
  }

  /** subscription_attempt_finished: the first slot of n is freed. */
  function Finished(slots: Slots, n: NodeId): Slots {
    var i := FirstWith(slots, n);
    if i < MAX_ATTEMPTS then slots[i := 0] else slots
  }

  // ---- What a task still has to do --------------------------------------------------------------

  datatype Todo =
    | CheckWanted(n: NodeId)          // worker: dequeued, is it still wanted?
    | CheckSubscribed(n: NodeId)
    | Reclaim(slot: nat)              // worker: has this slot expired?
    | FreeSlot(slot: nat)
    | TryClaim(n: NodeId)
    | Schedule(n: NodeId)
    | Finish(n: NodeId)               // subscription_attempt_finished
    | Refresh(n: NodeId)
    | SendResult(n: NodeId)           // send_subscription past its ICD refresh
    | Clear(n: NodeId)
    | EnqueueUnlessIcd(n: NodeId)
    | Enqueue(n: NodeId)              // enqueue_subscription: mark pending
    | Send(n: NodeId)                 // enqueue_subscription: queue it
    | SweepCheck(n: NodeId)

  /** Attempts the CHIP task has been given: scheduled, or sent and not reported. */
  datatype Shared = Shared(nodes: Nodes, slots: Slots, queue: seq<NodeId>,
                           scheduled: multiset<NodeId>, sent: multiset<NodeId>)

  /** The waiting for a slot: every slot is examined, then one is claimed. */
  function ClaimLoop(n: NodeId): seq<Todo> {
    [Reclaim(0), Reclaim(1), Reclaim(2), Reclaim(3), TryClaim(n)]
  }

  /** One step of a task and what it does next. `yes` is the outcome the step
      cannot decide itself: wanted, expired, scheduled, sent, an ICD. */
  function Do(s: Shared, t: Todo, yes: bool): (Shared, seq<Todo>) {
    match t
    case CheckWanted(n) =>
      if yes then (s, [CheckSubscribed(n)]) else (s.(nodes := Cleared(s.nodes, n, 0)), [])
    case CheckSubscribed(n) =>
      (s, if n in s.nodes && s.nodes[n].subscribed then [] else ClaimLoop(n))
    case Reclaim(i) =>
      if yes && i < MAX_ATTEMPTS && s.slots[i] > 0 then
        (s.(nodes := Cleared(s.nodes, s.slots[i], 0)), [FreeSlot(i)])
      else (s, [])
    case FreeSlot(i) =>
      (if i < MAX_ATTEMPTS then s.(slots := s.slots[i := 0]) else s, [])
    case TryClaim(n) =>
      var i := FirstWith(s.slots, 0);
      if i < MAX_ATTEMPTS then (s.(slots := s.slots[i := n]), [Schedule(n)]) else (s, ClaimLoop(n))
    case Schedule(n) =>
      if yes then (s.(scheduled := s.scheduled + multiset{n}), [])
      else (s.(nodes := Cleared(s.nodes, n, 0)), [Finish(n)])
    case Finish(n) => (s.(slots := Finished(s.slots, n)), [])
    case Refresh(n) => (s.(nodes := Refreshed(s.nodes, n, yes)), [])
    case SendResult(n) =>
      var gone := s.(scheduled := s.scheduled - multiset{n});
      if yes then (gone.(sent := s.sent + multiset{n}), [])
      else (gone.(nodes := Cleared(s.nodes, n, 0)), [Finish(n)])
    case Clear(n) => (s.(nodes := Cleared(s.nodes, n, 0)), [])
    case EnqueueUnlessIcd(n) => (s, if n in s.nodes && s.nodes[n].icd then [] else [Enqueue(n)])
    case Enqueue(n) =>
      var already := n in s.nodes && s.nodes[n].pending;
      var table := MarkedPending(s.nodes, n);
      (s.(nodes := table), if already || n !in table then [] else [Send(n)])
    case Send(n) =>
      (if |s.queue| < QUEUE_DEPTH then s.(queue := s.queue + [n]) else s.(nodes := Cleared(s.nodes, n, 0)), [])
    case SweepCheck(n) =>
      var table := Created(s.nodes, n);
      (s.(nodes := table),
       if n in table && !table[n].icd && !table[n].subscribed && !table[n].pending then [Enqueue(n)] else [])
  }

  // ---- Runs ------------------------------------------------------------------------------------

  type Task = nat
  const WORKER: Task := 0
  const CHIP: Task := 1

  datatype State = State(shared: Shared, todo: map<Task, seq<Todo>>)

  function TodoOf(s: State, task: Task): seq<Todo> {
    if task in s.todo then s.todo[task] else []
  }

  /** A callback begins with its state change and goes on as the CHIP task's to-do list. */
  datatype Action =
    | Continue(task: Task, yes: bool)
    | Receive
    | Sweep(task: Task, wanted: seq<NodeId>)
    | Request(task: Task, n: NodeId)          // enqueue_subscription from elsewhere
    | RunSend(n: NodeId)
    | Established(n: NodeId, subId: nat)
    | Terminated(n: NodeId, subId: nat)
    | Failed(n: NodeId)
    | CheckIn(n: NodeId)                       // of a wanted node
    | DieSilently(n: NodeId)

  function Checks(wanted: seq<NodeId>): seq<Todo> {
    if wanted == [] then [] else [SweepCheck(wanted[0])] + Checks(wanted[1..])
  }

  function Begin(s: State, task: Task, shared: Shared, todo: seq<Todo>): State {
    if TodoOf(s, task) == [] then State(shared, s.todo[task := todo]) else s
  }

  /** The state after an action; one whose task is busy, or that cannot happen, changes nothing. */
  function Next(s: State, a: Action): State {
    var sh := s.shared;
    match a
    case Continue(task, yes) =>
      var list := TodoOf(s, task);
      if list == [] then s
      else
        var (after, more) := Do(sh, list[0], yes);
        State(after, s.todo[task := more + list[1..]])
    case Receive =>
      if sh.queue == [] then s
      else Begin(s, WORKER, sh.(queue := sh.queue[1..]), [CheckWanted(sh.queue[0])])
    case Sweep(task, wanted) => if task == CHIP then s else Begin(s, task, sh, Checks(wanted))
    case Request(task, n) => if task == WORKER then s else Begin(s, task, sh, [Enqueue(n)])
    case RunSend(n) => if n in sh.scheduled then Begin(s, CHIP, sh, [Refresh(n), SendResult(n)]) else s
    case Established(n, subId) =>
      if n in sh.sent then
        Begin(s, CHIP, sh.(nodes := MarkedSubscribed(sh.nodes, n, subId), sent := sh.sent - multiset{n}), [Finish(n)])
      else s
    case Terminated(n, subId) =>
      Begin(s, CHIP,
            sh.(nodes := Cleared(sh.nodes, n, subId), sent := if subId == 0 then sh.sent - multiset{n} else sh.sent),
            [Finish(n)] + if Concerns(sh.nodes, n, subId) then [Enqueue(n)] else [])
    case Failed(n) =>
      if n in sh.sent then
        Begin(s, CHIP, sh.(nodes := Cleared(sh.nodes, n, 0), sent := sh.sent - multiset{n}),
              [Finish(n), Refresh(n), EnqueueUnlessIcd(n)])
      else s
    case CheckIn(n) => Begin(s, CHIP, sh, [Refresh(n), Clear(n), Enqueue(n)])
    case DieSilently(n) => State(sh.(sent := sh.sent - multiset{n}), s.todo)
  }

  const INITIAL := State(Shared(map[], [0, 0, 0, 0], [], multiset{}, multiset{}), map[])

  function Run(s: State, actions: seq<Action>): State
    decreases |actions|
  {
    if actions == [] then s else Run(Next(s, actions[0]), actions[1..])
  }

  // ---- No node is stranded --------------------------------------------------------------------

  /** Pending and not subscribed: the sweep skips it and nobody else will retry it. */
  predicate Waiting(nodes: Nodes, n: NodeId) {
    n in nodes && nodes[n].pending && !nodes[n].subscribed
  }

  /** The step has n being enqueued or in the worker's hand. */
  predicate Carries(t: Todo, n: NodeId) {
    match t
    case CheckWanted(m) => m == n
    case CheckSubscribed(m) => m == n
    case TryClaim(m) => m == n
    case Schedule(m) => m == n
    case Send(m) => m == n
    case _ => false
  }

  ghost predicate CarriedBy(list: seq<Todo>, n: NodeId) {
    exists i :: 0 <= i < |list| && Carries(list[i], n)
  }

  ghost predicate Carried(s: State, n: NodeId) {
    exists task :: CarriedBy(TodoOf(s, task), n)
  }

  ghost predicate Held(sh: Shared, n: NodeId) {
    n in sh.queue || n in sh.scheduled || n in sh.sent
  }

  /** n is being enqueued, in the queue, in the worker's hand, or has an attempt
      that has not reported. */
  ghost predicate Attended(s: State, n: NodeId) {
    Held(s.shared, n) || Carried(s, n)
  }

  ghost predicate NoneStranded(s: State) {
    forall n :: Waiting(s.shared.nodes, n) ==> Attended(s, n)
  }

  lemma CarriedAppend(a: seq<Todo>, b: seq<Todo>, n: NodeId)
    ensures CarriedBy(a + b, n) <==> CarriedBy(a, n) || CarriedBy(b, n)
  {
    if CarriedBy(a, n) {
      var i :| 0 <= i < |a| && Carries(a[i], n);
      assert (a + b)[i] == a[i];
    }
    if CarriedBy(b, n) {
      var i :| 0 <= i < |b| && Carries(b[i], n);
      assert (a + b)[|a| + i] == b[i];
    }
  }

  lemma ClaimLoopCarries(n: NodeId)
    ensures CarriedBy(ClaimLoop(n), n)
  {
    assert Carries(ClaimLoop(n)[4], n);
  }

  /** A step that had a waiting node in hand passes it on, and no step makes a node
      wait without enqueuing it. */
  lemma StepPassesOn(sh: Shared, t: Todo, yes: bool, n: NodeId)
    requires Waiting(Do(sh, t, yes).0.nodes, n)
    ensures var (after, more) := Do(sh, t, yes);
            || Held(after, n) || CarriedBy(more, n)
            || (Waiting(sh.nodes, n) && !Carries(t, n) && !Held(sh, n))
  {
    var (after, more) := Do(sh, t, yes);
    if more != [] && Carries(more[0], n) {
      assert CarriedBy(more, n);
    }
    if t.CheckSubscribed? || t.TryClaim? {
      ClaimLoopCarries(t.n);
    }
  }

  lemma ContinueKeeps(s: State, task: Task, yes: bool)
    requires NoneStranded(s)
    ensures NoneStranded(Next(s, Continue(task, yes)))
  {
    var list := TodoOf(s, task);
    if list != [] {
      var next := Next(s, Continue(task, yes));
      var (after, more) := Do(s.shared, list[0], yes);
      forall n | Waiting(after.nodes, n)
        ensures Attended(next, n)
      {
        StepPassesOn(s.shared, list[0], yes, n);
        CarriedAppend(more, list[1..], n);
        CarriedAppend([list[0]], list[1..], n);
        assert list == [list[0]] + list[1..];
        assert TodoOf(next, task) == more + list[1..];
        if !Held(after, n) && !CarriedBy(more, n) {
          var other :| CarriedBy(TodoOf(s, other), n);
          assert other != task ==> TodoOf(next, other) == TodoOf(s, other);
          if other == task {
            assert !CarriedBy([list[0]], n);
          }
          assert CarriedBy(TodoOf(next, other), n);
        }
      }
    }
  }

  /** Starting a to-do list on an idle task loses nothing any other task carries. */
  lemma BeginKeeps(s: State, task: Task, shared: Shared, todo: seq<Todo>, n: NodeId)
    requires TodoOf(s, task) == []
    requires Held(shared, n) || CarriedBy(todo, n) || Carried(s, n)
    ensures Attended(Begin(s, task, shared, todo), n)
  {
    var next := Begin(s, task, shared, todo);
    assert TodoOf(next, task) == todo;
    if !Held(shared, n) && !CarriedBy(todo, n) {
      var other :| CarriedBy(TodoOf(s, other), n);
      assert TodoOf(next, other) == TodoOf(s, other);
    }
  }

  lemma ActionKeeps(s: State, a: Action)
    requires NoneStranded(s) && !a.DieSilently?
    ensures NoneStranded(Next(s, a))
  {
    if a.Continue? {
      ContinueKeeps(s, a.task, a.yes);
    } else {
      var next := Next(s, a);
      forall n | Waiting(next.shared.nodes, n)
        ensures Attended(next, n)
      {
        if next != s {
          var task := if a.Receive? then WORKER else if a.Sweep? || a.Request? then a.task else CHIP;
          var todo := TodoOf(next, task);
          assert next == Begin(s, task, next.shared, todo);
          if a.Receive? {
            assert s.shared.queue == [s.shared.queue[0]] + s.shared.queue[1..];
            assert n == s.shared.queue[0] ==> Carries(todo[0], n);
          }
          assert Waiting(s.shared.nodes, n);
          assert Held(s.shared, n) || Carried(s, n);
          BeginKeeps(s, task, next.shared, todo, n);
        }
      }
    }
  }

  lemma {:induction false} StaysAttended(s: State, actions: seq<Action>)
    requires NoneStranded(s) && forall a :: a in actions ==> !a.DieSilently?
    ensures NoneStranded(Run(s, actions))
    decreases |actions|
  {
    if actions != [] {
      ActionKeeps(s, actions[0]);
      StaysAttended(Next(s, actions[0]), actions[1..]);
    }
  }

  /** In every state any interleaving can reach, no node is stranded, provided every
      attempt reports. */
  lemma NeverStranded(actions: seq<Action>)
    requires forall a :: a in actions ==> !a.DieSilently?
    ensures NoneStranded(Run(INITIAL, actions))
  {
    StaysAttended(INITIAL, actions);
  }

  // ---- When attempts may die without reporting ------------------------------------------------------

  predicate IsEnqueuing(t: Todo) {
    t.Enqueue? || t.Send? || t.SweepCheck?
  }

  predicate AllEnqueuing(list: seq<Todo>) {
    forall t :: t in list ==> IsEnqueuing(t)
  }

  /** What the worker can be in the middle of. */
  predicate WorkerOk(list: seq<Todo>) {
    || AllEnqueuing(list)
    || (|list| == 1 && (list[0].CheckWanted? || list[0].CheckSubscribed? || list[0].Schedule? || list[0].Finish?))
    || InLoop(list)
  }

  predicate ChipOk(list: seq<Todo>) {
    forall t :: t in list ==>
      IsEnqueuing(t) || t.Finish? || t.Refresh? || t.SendResult? || t.Clear? || t.EnqueueUnlessIcd?
  }

  ghost predicate Shaped(s: State) {
    forall task :: if task == WORKER then WorkerOk(TodoOf(s, task))
                   else if task == CHIP then ChipOk(TodoOf(s, task))
                   else AllEnqueuing(TodoOf(s, task))
  }

  /** Being enqueued, or in the worker's hand short of its last step. */
  ghost predicate Handed(list: seq<Todo>, n: NodeId) {
    exists i :: 0 <= i < |list| && Carries(list[i], n) && !list[i].Schedule?
  }

  /** n holds a slot that nobody is about to free. */
  ghost predicate Sheltered(s: State, n: NodeId) {
    && (exists i :: 0 <= i < MAX_ATTEMPTS && s.shared.slots[i] == n && FreeSlot(i) !in TodoOf(s, WORKER))
    && Finish(n) !in TodoOf(s, WORKER) && Finish(n) !in TodoOf(s, CHIP)
  }

  /** n is being enqueued, in the queue, in the worker's hand, or holds a slot. */
  ghost predicate Kept(s: State, n: NodeId) {
    n in s.shared.queue || (exists task :: Handed(TodoOf(s, task), n)) || Sheltered(s, n)
  }

  ghost predicate NoneLost(s: State) {
    Shaped(s) && forall n :: Waiting(s.shared.nodes, n) ==> Kept(s, n)
  }

  // ---- The two steps that may lose a node ------------------------------------------------------------

  /** A termination that is not of the current subscription reaches a waiting node. */
  predicate Stale(s: State, a: Action) {
    a.Terminated? && TodoOf(s, CHIP) == [] && a.subId != 0
    && !Concerns(s.shared.nodes, a.n, a.subId) && Waiting(s.shared.nodes, a.n)
  }

  /** The worker is about to take a slot for n. */
  predicate Claiming(s: State, a: Action, n: NodeId) {
    a.Continue? && a.task == WORKER && TodoOf(s, WORKER) != [] && TodoOf(s, WORKER)[0] == TryClaim(n)
    && FirstWith(s.shared.slots, 0) < MAX_ATTEMPTS
  }

  /** ... for a waiting node, while a callback has still to free a slot of it. */
  predicate Disorderly(s: State, a: Action, n: NodeId) {
    Claiming(s, a, n) && Waiting(s.shared.nodes, n) && Finish(n) in TodoOf(s, CHIP)
  }

  /** n is in the queue or in some hand other than the worker's. */
  ghost predicate KeptElsewhere(s: State, n: NodeId) {
    n in s.shared.queue || exists task :: task != WORKER && Handed(TodoOf(s, task), n)
  }

  /** Either of the two happens only to a node that the queue or a task keeps anyway. */
  ghost predicate Safe(s: State, a: Action) {
    && (Stale(s, a) ==> a.n in s.shared.queue || exists task :: Handed(TodoOf(s, task), a.n))
    && (forall n :: Disorderly(s, a, n) ==> KeptElsewhere(s, n))
  }

  /** The outcome of a step for a node that waits afterwards: queued, handed on, or
      safe in a slot as it was before, unless the step itself claimed one for it. */
  lemma StepShelters(sh: Shared, t: Todo, yes: bool, n: NodeId)
    requires Waiting(Do(sh, t, yes).0.nodes, n)
    ensures var (after, more) := Do(sh, t, yes);
            || n in after.queue || Handed(more, n)
            || (t == TryClaim(n) && n in after.slots && more == [Schedule(n)])
            || (&& Waiting(sh.nodes, n) && n !in sh.queue && (Carries(t, n) ==> t.Schedule?)
                && Finish(n) !in more
                && (forall i :: 0 <= i < MAX_ATTEMPTS && sh.slots[i] == n && t != FreeSlot(i) && t != Finish(n) ==>
                      after.slots[i] == n && FreeSlot(i) !in more))
  {
    StepHands(sh, t, yes, n);
    StepSpares(sh, t, yes, n);
  }

  lemma StepFinishesNone(sh: Shared, t: Todo, yes: bool, n: NodeId)
    requires Waiting(Do(sh, t, yes).0.nodes, n)
    ensures Finish(n) !in Do(sh, t, yes).1
  {
  }

  lemma StepTakesNone(sh: Shared, t: Todo, yes: bool, n: NodeId, i: nat)
    requires Waiting(Do(sh, t, yes).0.nodes, n)
    requires i < MAX_ATTEMPTS && sh.slots[i] == n && t != FreeSlot(i) && t != Finish(n)
    ensures Do(sh, t, yes).0.slots[i] == n && FreeSlot(i) !in Do(sh, t, yes).1
  {
  }

  /** No step takes a slot from a node that goes on waiting, but by freeing or finishing. */
  lemma StepSpares(sh: Shared, t: Todo, yes: bool, n: NodeId)
    requires Waiting(Do(sh, t, yes).0.nodes, n)
    ensures var (after, more) := Do(sh, t, yes);
            && Finish(n) !in more
            && forall i :: 0 <= i < MAX_ATTEMPTS && sh.slots[i] == n && t != FreeSlot(i) && t != Finish(n) ==>
                 after.slots[i] == n && FreeSlot(i) !in more
  {
    StepFinishesNone(sh, t, yes, n);
    forall i | 0 <= i < MAX_ATTEMPTS && sh.slots[i] == n && t != FreeSlot(i) && t != Finish(n)
      ensures Do(sh, t, yes).0.slots[i] == n && FreeSlot(i) !in Do(sh, t, yes).1
    {
      StepTakesNone(sh, t, yes, n, i);
    }
  }

  lemma StepHands(sh: Shared, t: Todo, yes: bool, n: NodeId)
    requires Waiting(Do(sh, t, yes).0.nodes, n)
    ensures var (after, more) := Do(sh, t, yes);
            || n in after.queue || Handed(more, n)
            || (t == TryClaim(n) && n in after.slots && more == [Schedule(n)])
            || (Waiting(sh.nodes, n) && n !in sh.queue && (Carries(t, n) ==> t.Schedule?))
  {
    var (after, more) := Do(sh, t, yes);
    if more != [] && Carries(more[0], n) && !more[0].Schedule? {
      assert Handed(more, n);
    }
    if t == CheckSubscribed(n) || t == TryClaim(n) {
      assert Carries(ClaimLoop(n)[4], n);
    }
    if t.TryClaim? && FirstWith(sh.slots, 0) < MAX_ATTEMPTS {
      assert after.slots[FirstWith(sh.slots, 0)] == t.n;
    }
  }

  lemma ShapeKept(s: State, task: Task, yes: bool)
    requires Shaped(s) && TodoOf(s, task) != []
    ensures Shaped(Next(s, Continue(task, yes)))
  {
    var list := TodoOf(s, task);
    var next := Next(s, Continue(task, yes));
    var more := Do(s.shared, list[0], yes).1;
    assert TodoOf(next, task) == more + list[1..];
    assert forall other :: other != task ==> TodoOf(next, other) == TodoOf(s, other);
    assert forall t :: t in list[1..] ==> t in list;
    assert list[0] in list;
    if task == WORKER {
      WorkerShapeKept(list, more, s.shared, yes);
    } else if task != CHIP {
      assert AllEnqueuing(list);
    }
  }

  lemma WorkerShapeKept(list: seq<Todo>, more: seq<Todo>, sh: Shared, yes: bool)
    requires list != [] && WorkerOk(list) && more == Do(sh, list[0], yes).1
    ensures WorkerOk(more + list[1..])
  {
    assert list[0] in list;
    assert forall t :: t in list[1..] ==> t in list;
    if AllEnqueuing(list) {
      assert AllEnqueuing(more + list[1..]);
    } else if |list| > 1 {
      LoopShapeKept(list, more, sh, yes);
    } else {
      assert more + list[1..] == more;
    }
  }

  /** In the middle of claim_slot's loop. */
  predicate InLoop(list: seq<Todo>) {
    list != [] && list[|list| - 1].TryClaim?
    && forall i :: 0 <= i < |list| - 1 ==> list[i].Reclaim? || (i == 0 && list[i].FreeSlot?)
  }

  lemma LoopShapeKept(list: seq<Todo>, more: seq<Todo>, sh: Shared, yes: bool)
    requires |list| > 1 && InLoop(list) && more == Do(sh, list[0], yes).1
    ensures InLoop(more + list[1..])
  {
    var rest := list[1..];
    assert forall i :: 0 <= i < |rest| ==> rest[i] == list[i + 1];
    assert list[0].Reclaim? || list[0].FreeSlot?;
    if more == [] {
      assert more + rest == rest;
    } else {
      assert more == [FreeSlot(list[0].slot)];
      assert forall i :: 0 < i < |more + rest| ==> (more + rest)[i] == rest[i - 1];
    }
  }

  lemma ContinueShelters(s: State, task: Task, yes: bool)
    requires NoneLost(s) && Safe(s, Continue(task, yes)) && TodoOf(s, task) != []
    ensures NoneLost(Next(s, Continue(task, yes)))
  {
    ShapeKept(s, task, yes);
    var list := TodoOf(s, task);
    var next := Next(s, Continue(task, yes));
    forall n | Waiting(next.shared.nodes, n)
      ensures Kept(next, n)
    {
      ContinueKeepsOne(s, task, yes, n);
    }
  }

  lemma HandedAppend(a: seq<Todo>, b: seq<Todo>, n: NodeId)
    ensures Handed(a + b, n) <==> Handed(a, n) || Handed(b, n)
  {
    if Handed(a, n) {
      var i :| 0 <= i < |a| && Carries(a[i], n) && !a[i].Schedule?;
      assert (a + b)[i] == a[i];
    }
    if Handed(b, n) {
      var i :| 0 <= i < |b| && Carries(b[i], n) && !b[i].Schedule?;
      assert (a + b)[|a| + i] == b[i];
    }
  }

  lemma HandedSingle(t: Todo, n: NodeId)
    ensures Handed([t], n) <==> Carries(t, n) && !t.Schedule?
  {
    assert Carries([t][0], n) <==> Carries(t, n);
  }

  lemma ContinueKeepsOne(s: State, task: Task, yes: bool, n: NodeId)
    requires NoneLost(s) && Safe(s, Continue(task, yes)) && TodoOf(s, task) != []
    requires Waiting(Next(s, Continue(task, yes)).shared.nodes, n)
    ensures Kept(Next(s, Continue(task, yes)), n)
  {
    var list := TodoOf(s, task);
    var next := Next(s, Continue(task, yes));
    var (after, more) := Do(s.shared, list[0], yes);
    var rest := list[1..];
    assert list == [list[0]] + rest;
    HandedAppend(more, rest, n);
    HandedAppend([list[0]], rest, n);
    HandedSingle(list[0], n);
    assert TodoOf(next, task) == more + rest;
    assert forall other :: other != task ==> TodoOf(next, other) == TodoOf(s, other);
    StepShelters(s.shared, list[0], yes, n);
    if n in after.queue || Handed(more, n) {
    } else if list[0] == TryClaim(n) {
      ClaimKeeps(s, task, yes, n);
    } else if exists other :: Handed(TodoOf(s, other), n) {
      var other :| Handed(TodoOf(s, other), n);
      assert Handed(TodoOf(next, other), n);
    } else {
      assert Sheltered(s, n);
      var i :| 0 <= i < MAX_ATTEMPTS && s.shared.slots[i] == n && FreeSlot(i) !in TodoOf(s, WORKER);
      assert list[0] in list;
      if task != WORKER && task != CHIP {
        assert AllEnqueuing(list);
        assert !list[0].FreeSlot? && !list[0].Finish?;
      }
      if task == CHIP {
        assert ChipOk(list);
      }
      assert after.slots[i] == n;
      assert Sheltered(next, n);
    }
  }

  /** Only the worker claims, and has nothing else to do then. */
  lemma ClaimsAlone(s: State, task: Task, n: NodeId)
    requires Shaped(s) && TodoOf(s, task) != [] && TodoOf(s, task)[0] == TryClaim(n)
    ensures task == WORKER && TodoOf(s, WORKER) == [TryClaim(n)]
  {
    var list := TodoOf(s, task);
    assert list[0] in list;
    assert task == CHIP ==> ChipOk(list);
    assert task != CHIP && task != WORKER ==> AllEnqueuing(list);
    assert WorkerOk(list);
  }

  /** What a claimed slot is worth: it keeps the node exactly if no callback is to free one. */
  lemma ClaimedKept(s: State, yes: bool, n: NodeId)
    requires TodoOf(s, WORKER) == [TryClaim(n)] && FirstWith(s.shared.slots, 0) < MAX_ATTEMPTS
    ensures var next := Next(s, Continue(WORKER, yes));
            next.shared.nodes == s.shared.nodes
            && (Kept(next, n) <==> KeptElsewhere(s, n) || Finish(n) !in TodoOf(s, CHIP))
  {
    var next := Next(s, Continue(WORKER, yes));
    assert TodoOf(next, WORKER) == [Schedule(n)];
    assert forall other :: other != WORKER ==> TodoOf(next, other) == TodoOf(s, other);
    var i := FirstWith(s.shared.slots, 0);
    assert next.shared.slots[i] == n;
    assert Sheltered(next, n) <==> Finish(n) !in TodoOf(s, CHIP);
  }

  lemma ClaimKeeps(s: State, task: Task, yes: bool, n: NodeId)
    requires NoneLost(s) && Safe(s, Continue(task, yes)) && TodoOf(s, task) != []
    requires TodoOf(s, task)[0] == TryClaim(n) && Do(s.shared, TryClaim(n), yes).1 == [Schedule(n)]
    requires Waiting(s.shared.nodes, n)
    ensures Kept(Next(s, Continue(task, yes)), n)
  {
    ClaimsAlone(s, task, n);
    ClaimedKept(s, yes, n);
    assert Claiming(s, Continue(task, yes), n);
  }

  lemma ActionShelters(s: State, a: Action)
    requires NoneLost(s) && Safe(s, a)
    ensures NoneLost(Next(s, a))
  {
    if a.Continue? {
      if TodoOf(s, a.task) != [] {
        ContinueShelters(s, a.task, a.yes);
      }
    } else if a.DieSilently? {
      assert forall task :: TodoOf(Next(s, a), task) == TodoOf(s, task);
      forall n | Waiting(s.shared.nodes, n)
        ensures Kept(Next(s, a), n)
      {
        assert Kept(s, n);
      }
    } else if Next(s, a) != s {
      EventShelters(s, a);
    }
  }

  lemma {:induction false} ChecksEnqueue(wanted: seq<NodeId>)
    ensures AllEnqueuing(Checks(wanted))
  {
    if wanted != [] {
      ChecksEnqueue(wanted[1..]);
    }
  }

  function TaskOf(a: Action): Task {
    if a.Receive? then WORKER else if a.Sweep? || a.Request? || a.Continue? then a.task else CHIP
  }

  ghost predicate Starts(s: State, a: Action) {
    !a.Continue? && !a.DieSilently? && Next(s, a) != s
  }

  lemma EventFrame(s: State, a: Action)
    requires Starts(s, a)
    ensures TodoOf(s, TaskOf(a)) == []
    ensures forall other :: other != TaskOf(a) ==> TodoOf(Next(s, a), other) == TodoOf(s, other)
  {
  }

  lemma EventShape(s: State, a: Action)
    requires Shaped(s) && Starts(s, a)
    ensures Shaped(Next(s, a))
  {
    EventFrame(s, a);
    if a.Sweep? {
      ChecksEnqueue(a.wanted);
    }
  }

  lemma EventKeepsOne(s: State, a: Action, n: NodeId)
    requires NoneLost(s) && Safe(s, a) && Starts(s, a) && Waiting(Next(s, a).shared.nodes, n)
    ensures Kept(Next(s, a), n)
  {
    EventFrame(s, a);
    var next := Next(s, a);
    assert Waiting(s.shared.nodes, n);
    if a.Receive? {
      assert s.shared.queue == [s.shared.queue[0]] + s.shared.queue[1..];
      var todo := TodoOf(next, WORKER);
      assert n == s.shared.queue[0] ==> Carries(todo[0], n) && !todo[0].Schedule?;
    }
    if exists other :: Handed(TodoOf(s, other), n) {
      var other :| Handed(TodoOf(s, other), n);
      assert Handed(TodoOf(next, other), n);
    } else if n !in s.shared.queue && !(Stale(s, a) && a.n == n) {
      EventShelter(s, a, n);
    }
  }

  /** No event takes the slot of a node that goes on waiting. */
  lemma EventShelter(s: State, a: Action, n: NodeId)
    requires Starts(s, a) && Sheltered(s, n) && Waiting(Next(s, a).shared.nodes, n)
    requires !(Stale(s, a) && a.n == n)
    ensures Sheltered(Next(s, a), n)
  {
    EventFrame(s, a);
    var next := Next(s, a);
    assert next.shared.slots == s.shared.slots;
    assert n in s.shared.slots;
    if a.Receive? {
      assert TodoOf(next, WORKER) == [CheckWanted(s.shared.queue[0])];
    }
    if a.Sweep? {
      ChecksEnqueue(a.wanted);
    }
  }

  lemma EventShelters(s: State, a: Action)
    requires NoneLost(s) && Safe(s, a) && Starts(s, a)
    ensures NoneLost(Next(s, a))
  {
    EventShape(s, a);
    forall n | Waiting(Next(s, a).shared.nodes, n)
      ensures Kept(Next(s, a), n)
    {
      EventKeepsOne(s, a, n);
    }
  }

  /** A step that is not safe loses the node it concerns. */
  lemma UnsafeLoses(s: State, a: Action)
    requires NoneLost(s) && !Safe(s, a)
    ensures !NoneLost(Next(s, a))
  {
    if Stale(s, a) && !(a.n in s.shared.queue || exists task :: Handed(TodoOf(s, task), a.n)) {
      StaleLoses(s, a);
    } else {
      var n :| Disorderly(s, a, n) && !KeptElsewhere(s, n);
      ClaimsAlone(s, WORKER, n);
      ClaimedKept(s, a.yes, n);
    }
  }

  lemma StaleLoses(s: State, a: Action)
    requires Stale(s, a) && a.n !in s.shared.queue && forall task :: !Handed(TodoOf(s, task), a.n)
    ensures !NoneLost(Next(s, a))
  {
    var next := Next(s, a);
    assert TodoOf(next, CHIP) == [Finish(a.n)];
    forall task
      ensures !Handed(TodoOf(next, task), a.n)
    {
      assert task != CHIP ==> TodoOf(next, task) == TodoOf(s, task);
    }
    assert !Kept(next, a.n);
  }

  /** From a state with no node lost, a step loses none exactly when it is safe. */
  lemma StepExactly(s: State, a: Action)
    requires NoneLost(s)
    ensures NoneLost(Next(s, a)) <==> Safe(s, a)
  {
    if Safe(s, a) {
      ActionShelters(s, a);
    } else {
      UnsafeLoses(s, a);
    }
  }

  ghost predicate AllSafe(s: State, actions: seq<Action>)
    decreases |actions|
  {
    actions == [] || (Safe(s, actions[0]) && AllSafe(Next(s, actions[0]), actions[1..]))
  }

  /** No node is lost after any of the first actions of a run. */
  ghost predicate KeptThroughout(s: State, actions: seq<Action>) {
    forall k :: 0 <= k <= |actions| ==> NoneLost(Run(s, actions[..k]))
  }

  lemma KeptOn(s: State, actions: seq<Action>)
    requires actions != [] && NoneLost(s)
    ensures KeptThroughout(s, actions) <==> KeptThroughout(Next(s, actions[0]), actions[1..])
  {
    var next, rest := Next(s, actions[0]), actions[1..];
    forall k | 0 < k <= |actions|
      ensures Run(s, actions[..k]) == Run(next, rest[..k - 1])
    {
      assert actions[..k][1..] == rest[..k - 1];
    }
    if KeptThroughout(s, actions) {
      forall k | 0 <= k <= |rest|
        ensures NoneLost(Run(next, rest[..k]))
      {
        assert NoneLost(Run(s, actions[..k + 1]));
      }
    }
    if KeptThroughout(next, rest) {
      forall k | 0 <= k <= |actions|
        ensures NoneLost(Run(s, actions[..k]))
      {
        assert k > 0 ==> NoneLost(Run(next, rest[..k - 1]));
      }
    }
  }

  lemma {:induction false} KeptFrom(s: State, actions: seq<Action>)
    requires NoneLost(s)
    ensures KeptThroughout(s, actions) <==> AllSafe(s, actions)
    decreases |actions|
  {
    if actions != [] {
      KeptOn(s, actions);
      StepExactly(s, actions[0]);
      if NoneLost(Next(s, actions[0])) {
        KeptFrom(Next(s, actions[0]), actions[1..]);
      } else {
        assert Run(Next(s, actions[0]), actions[1..][..0]) == Next(s, actions[0]);
        assert !KeptThroughout(Next(s, actions[0]), actions[1..]);
      }
    }
  }

  lemma NoneLostAtStart()
    ensures NoneLost(INITIAL)
  {
    assert forall task :: TodoOf(INITIAL, task) == [];
  }

  /** However attempts end, a waiting node is in every state of a run being enqueued, in the
      queue, in the worker's hand or safe in a slot, exactly when every step was safe. */
  lemma KeptExactly(actions: seq<Action>)
    ensures KeptThroughout(INITIAL, actions) <==> AllSafe(INITIAL, actions)
  {
    NoneLostAtStart();
    KeptFrom(INITIAL, actions);
  }

  // ---- Two simpler assumptions that make every step safe ----------------------------------------------

  /** The worker claims no slot for a node while a callback has still to free one of it. */
  predicate Orderly(s: State, a: Action) {
    a.Continue? && a.task == WORKER && TodoOf(s, WORKER) != [] && TodoOf(s, WORKER)[0].TryClaim?
    && FirstWith(s.shared.slots, 0) < MAX_ATTEMPTS ==>
      Finish(TodoOf(s, WORKER)[0].n) !in TodoOf(s, CHIP)
  }

  /** No termination of a subscription other than the current one reaches a node that
      waits on a slot. */
  predicate Timely(s: State, a: Action) {
    a.Terminated? && a.subId != 0 && !Concerns(s.shared.nodes, a.n, a.subId) ==>
      !(Waiting(s.shared.nodes, a.n) && a.n in s.shared.slots)
  }

  ghost predicate AllOrderly(s: State, actions: seq<Action>)
    decreases |actions|
  {
    actions == [] || (Orderly(s, actions[0]) && AllOrderly(Next(s, actions[0]), actions[1..]))
  }

  ghost predicate AllTimely(s: State, actions: seq<Action>)
    decreases |actions|
  {
    actions == [] || (Timely(s, actions[0]) && AllTimely(Next(s, actions[0]), actions[1..]))
  }

  lemma {:induction false} OrderlyIsSafe(s: State, actions: seq<Action>)
    requires NoneLost(s) && AllOrderly(s, actions) && AllTimely(s, actions)
    ensures AllSafe(s, actions) && NoneLost(Run(s, actions))
    decreases |actions|
  {
    if actions != [] {
      assert Stale(s, actions[0]) ==> Kept(s, actions[0].n);
      assert Safe(s, actions[0]);
      ActionShelters(s, actions[0]);
      OrderlyIsSafe(Next(s, actions[0]), actions[1..]);
    }
  }

  /** In every state of such a run no node is lost. */
  lemma NeverLost(actions: seq<Action>)
    requires AllOrderly(INITIAL, actions) && AllTimely(INITIAL, actions)
    ensures KeptThroughout(INITIAL, actions) && NoneLost(Run(INITIAL, actions))
  {
    NoneLostAtStart();
    OrderlyIsSafe(INITIAL, actions);
    KeptExactly(actions);
  }

  // ---- The tables, changed in place ---------------------------------------------------------------------

  datatype Entry = Entry(id: int, node: Node)
  datatype Slot = Slot(holder: int, started: int)

  const TICKS: int := 0x1_0000_0000
  const ATTEMPT_TIMEOUT_MS: int := 90000

  function Holders(slots: seq<Slot>): (h: seq<int>)
    ensures |h| == |slots| && forall i :: 0 <= i < |slots| ==> h[i] == slots[i].holder
  {
    seq(|slots|, i requires 0 <= i < |slots| => slots[i].holder)
  }

  /** Held longer than the timeout, on the 32-bit tick counter. */
  predicate Expired(slot: Slot, now: int) {
    slot.holder > 0 && (now - slot.started) % TICKS > ATTEMPT_TIMEOUT_MS
  }

  /** However often the counter wraps: a slot taken at tick t is expired d ticks later, d
      being less than a full turn, exactly after ninety seconds. */
  lemma ExpiresExactly(n: NodeId, t: nat, d: nat)
    requires d < TICKS
    ensures Expired(Slot(n, t % TICKS), (t + d) % TICKS) <==> d > 90 * 1000
  {
    var turns := t / TICKS;
    assert t == TICKS * turns + t % TICKS;
    assert ((t + d) % TICKS - t % TICKS) % TICKS == d;
  }

  /** Nodes and slots once the first k slots were examined. */
  function Reclaimed(nodes: Nodes, slots: seq<Slot>, now: int, k: nat): (r: (Nodes, seq<Slot>))
    requires k <= |slots|
    ensures |r.1| == |slots| && forall i :: k <= i < |slots| ==> r.1[i] == slots[i]
  {
    if k == 0 then (nodes, slots)
    else
      var (n, s) := Reclaimed(nodes, slots, now, k - 1);
      if Expired(s[k - 1], now) then (Cleared(n, s[k - 1].holder, 0), s[k - 1 := s[k - 1].(holder := 0)]) else (n, s)
  }

  /** The protocol's slot-by-slot reclaiming of the first k slots, each uninterrupted. */
  function ReclaimSteps(sh: Shared, slots: seq<Slot>, now: int, k: nat): Shared
    requires k <= |slots| == MAX_ATTEMPTS
  {
    if k == 0 then sh
    else
      var before := ReclaimSteps(sh, slots, now, k - 1);
      var (after, more) := Do(before, Reclaim(k - 1), Expired(slots[k - 1], now));
      if more == [] then after else Do(after, more[0], true).0
  }

  /** reclaim_expired_slots_locked is those steps in one go. */
  lemma {:induction false} ReclaimedIsSteps(sh: Shared, slots: seq<Slot>, now: int, k: nat)
    requires k <= |slots| == MAX_ATTEMPTS && Holders(slots) == sh.slots
    ensures var (nodes, after) := Reclaimed(sh.nodes, slots, now, k);
            var steps := ReclaimSteps(sh, slots, now, k);
            steps == sh.(nodes := nodes, slots := Holders(after))
  {
    if k > 0 {
      ReclaimedIsSteps(sh, slots, now, k - 1);
      var (nodes, after) := Reclaimed(sh.nodes, slots, now, k - 1);
      assert Holders(after[k - 1 := after[k - 1].(holder := 0)]) == Holders(after)[k - 1 := 0];
    }
  }

  /** The table holds each known node once, free entries carry id 0, and nothing else. */
  ghost predicate Lists(entries: seq<Entry>, nodes: Nodes) {
    && (forall i :: 0 <= i < |entries| ==> entries[i].id >= 0)
    && (forall i, j :: 0 <= i < j < |entries| && entries[i].id > 0 ==> entries[i].id != entries[j].id)
    && (forall i :: 0 <= i < |entries| && entries[i].id > 0 ==>
          entries[i].id in nodes && nodes[entries[i].id] == entries[i].node)
    && (forall n :: n in nodes ==> exists i :: 0 <= i < |entries| && entries[i].id == n)
  }

  lemma StoreLists(entries: seq<Entry>, nodes: Nodes, i: nat, node: Node)
    requires Lists(entries, nodes) && i < |entries| && entries[i].id > 0
    ensures Lists(entries[i := Entry(entries[i].id, node)], nodes[entries[i].id := node])
  {
    var after, table := entries[i := Entry(entries[i].id, node)], nodes[entries[i].id := node];
    forall n | n in table
      ensures exists j :: 0 <= j < |after| && after[j].id == n
    {
      var j :| 0 <= j < |entries| && entries[j].id == n;
      assert after[j].id == n;
    }
  }

  lemma InsertLists(entries: seq<Entry>, nodes: Nodes, i: nat, n: NodeId)
    requires Lists(entries, nodes) && i < |entries| && entries[i].id == 0
    requires forall j :: 0 <= j < |entries| ==> entries[j].id != n
    ensures Lists(entries[i := Entry(n, NEW_NODE)], nodes[n := NEW_NODE]) && n !in nodes
  {
    var after := entries[i := Entry(n, NEW_NODE)];
    assert after[i].id == n;
    forall m | m in nodes
      ensures exists j :: 0 <= j < |after| && after[j].id == m
    {
      var j :| 0 <= j < |entries| && entries[j].id == m;
      assert after[j].id == m;
    }
  }

  class Manager {
    ghost var nodes: Nodes
    const entries: array<Entry>
    const slots: array<Slot>
    var queue: seq<NodeId>

    ghost predicate Valid()
      reads this, entries, slots
    {
      && entries.Length == MAX_NODES && slots.Length == MAX_ATTEMPTS && |queue| <= QUEUE_DEPTH
      && (forall i :: 0 <= i < MAX_ATTEMPTS ==> slots[i].holder >= 0)
      && Lists(entries[..], nodes)
    }

    constructor ()
      ensures Valid() && nodes == map[] && queue == [] && fresh(entries) && fresh(slots)
      ensures forall i :: 0 <= i < MAX_ATTEMPTS ==> slots[i].holder == 0
    {
      entries := new Entry[MAX_NODES](_ => Entry(0, NEW_NODE));
      slots := new Slot[MAX_ATTEMPTS](_ => Slot(0, 0));
      queue, nodes := [], map[];
    }

    method IndexOf(id: int) returns (i: nat)
      requires Valid()
      ensures i <= MAX_NODES && (i < MAX_NODES ==> entries[i].id == id)
      ensures forall j :: 0 <= j < i ==> entries[j].id != id
    {
      i := 0;
      while i < MAX_NODES && entries[i].id != id
        invariant 0 <= i <= MAX_NODES
        invariant forall j :: 0 <= j < i ==> entries[j].id != id
      {
        i := i + 1;
      }
    }

    /** find_node_locked with create; MAX_NODES when the table is full. */
    method FindOrCreate(n: NodeId) returns (i: nat)
      requires Valid()
      modifies this`nodes, entries
      ensures Valid() && nodes == Created(old(nodes), n)
      ensures i <= MAX_NODES && (i < MAX_NODES <==> n in nodes) && (i < MAX_NODES ==> entries[i].id == n)
    {
      i := IndexOf(n);
      if i < MAX_NODES {
        return;
      }
      i := IndexOf(0);
      if i < MAX_NODES {
        TableNotFull(entries[..], nodes, i);
        Insert(i, n);
      } else {
        TableFull(entries[..], nodes);
      }
    }

    /** A record in use is what the table holds for its node. */
    lemma EntryIs(i: nat)
      requires Valid() && i < MAX_NODES && entries[i].id > 0
      ensures entries[i].id in nodes && nodes[entries[i].id] == entries[i].node
    {
      assert entries[..][i] == entries[i];
    }

    /** Takes a free record for a node that has none. */
    method Insert(i: nat, n: NodeId)
      requires Valid() && i < MAX_NODES && entries[i].id == 0
      requires forall j :: 0 <= j < MAX_NODES ==> entries[j].id != n
      modifies this`nodes, entries
      ensures Valid() && n !in old(nodes) && nodes == old(nodes)[n := NEW_NODE] && entries[i].id == n
    {
      InsertLists(entries[..], nodes, i, n);
      ghost var after := entries[..][i := Entry(n, NEW_NODE)];
      entries[i] := Entry(n, NEW_NODE);
      nodes := nodes[n := NEW_NODE];
      assert entries[..] == after;
    }

    /** Overwrites the record of a node in the table. */
    method Store(i: nat, node: Node)
      requires Valid() && i < MAX_NODES && entries[i].id > 0
      modifies this`nodes, entries
      ensures Valid() && nodes == old(nodes)[old(entries[i].id) := node]
    {
      StoreLists(entries[..], nodes, i, node);
      ghost var after := entries[..][i := Entry(entries[i].id, node)];
      nodes := nodes[entries[i].id := node];
      entries[i] := Entry(entries[i].id, node);
      assert entries[..] == after;
    }

    method MarkHasSubscription(n: NodeId, subId: nat)
      requires Valid()
      modifies this`nodes, entries
      ensures Valid() && nodes == MarkedSubscribed(old(nodes), n, subId)
    {
      var i := FindOrCreate(n);
      if i < MAX_NODES {
        Store(i, entries[i].node.(subscribed := true, pending := false, subId := subId));
      }
    }

    method MarkHasNoSubscription(n: NodeId, subId: nat) returns (createNew: bool)
      requires Valid()
      modifies this`nodes, entries
      ensures Valid() && nodes == Cleared(old(nodes), n, subId) && createNew == Concerns(old(nodes), n, subId)
    {
      var i := IndexOf(n);
      createNew := i < MAX_NODES && (entries[i].node.subId == subId || subId == 0);
      if createNew {
        Store(i, entries[i].node.(subscribed := false, pending := false, subId := 0));
      }
    }

    method RefreshIcdFlag(n: NodeId, icd: bool)
      requires Valid()
      modifies this`nodes, entries
      ensures Valid() && nodes == Refreshed(old(nodes), n, icd)
    {
      var i := FindOrCreate(n);
      if i < MAX_NODES {
        Store(i, entries[i].node.(icd := icd));
      }
    }

    /** The marking half of enqueue_subscription; whether the node is to be queued. */
    method MarkPending(n: NodeId) returns (queueIt: bool)
      requires Valid()
      modifies this`nodes, entries
      ensures Valid() && nodes == MarkedPending(old(nodes), n)
      ensures queueIt == (n in nodes && !(n in old(nodes) && old(nodes)[n].pending))
    {
      var i := FindOrCreate(n);
      if i == MAX_NODES {
        return false;
      }
      queueIt := !entries[i].node.pending;
      Store(i, entries[i].node.(pending := true));
    }

    /** The queueing half: a full queue clears the mark again. */
    method QueueSend(n: NodeId)
      requires Valid()
      modifies this, entries
      ensures Valid()
      ensures |old(queue)| < QUEUE_DEPTH ==> queue == old(queue) + [n] && nodes == old(nodes)
      ensures |old(queue)| == QUEUE_DEPTH ==> queue == old(queue) && nodes == Cleared(old(nodes), n, 0)
    {
      if |queue| < QUEUE_DEPTH {
        queue := queue + [n];
      } else {
        var createNew := MarkHasNoSubscription(n, 0);
      }
    }

    /** One slot of the reclaiming. */
    method ReclaimSlot(k: nat, now: int)
      requires Valid() && k < MAX_ATTEMPTS
      modifies this`nodes, entries, slots
      ensures Valid()
      ensures var expired := Expired(old(slots[k]), now);
              && nodes == (if expired then Cleared(old(nodes), old(slots[k].holder), 0) else old(nodes))
              && slots[..] == if expired then old(slots[..])[k := old(slots[k]).(holder := 0)] else old(slots[..])
    {
      if slots[k].holder != 0 && (now - slots[k].started) % TICKS > ATTEMPT_TIMEOUT_MS {
        var createNew := MarkHasNoSubscription(slots[k].holder, 0);
        slots[k] := slots[k].(holder := 0);
      }
    }

    method ReclaimExpiredSlots(now: int)
      requires Valid()
      modifies this`nodes, entries, slots
      ensures Valid() && (nodes, slots[..]) == Reclaimed(old(nodes), old(slots[..]), now, MAX_ATTEMPTS)
    {
      for k := 0 to MAX_ATTEMPTS
        invariant Valid() && (nodes, slots[..]) == Reclaimed(old(nodes), old(slots[..]), now, k)
      {
        ReclaimSlot(k, now);
      }
    }

    /** One round of claim_slot. */
    method TryClaimSlot(n: NodeId, now: int) returns (claimed: bool)
      requires Valid()
      modifies this`nodes, entries, slots
      ensures Valid()
      ensures var r := Reclaimed(old(nodes), old(slots[..]), now, MAX_ATTEMPTS);
              var i := FirstWith(Holders(r.1), 0);
              && nodes == r.0 && claimed == (i < MAX_ATTEMPTS)
              && slots[..] == if claimed then r.1[i := Slot(n, now)] else r.1
    {
      ReclaimExpiredSlots(now);
      ghost var reclaimed := slots[..];
      for i := 0 to MAX_ATTEMPTS
        invariant Valid() && slots[..] == reclaimed
        invariant nodes == Reclaimed(old(nodes), old(slots[..]), now, MAX_ATTEMPTS).0
        invariant forall j :: 0 <= j < i ==> slots[j].holder != 0
      {
        if slots[i].holder == 0 {
          slots[i] := Slot(n, now);
          FirstWithIs(Holders(reclaimed), 0, i);
          return true;
        }
      }
      return false;
    }

    method AttemptFinished(n: NodeId)
      requires Valid()
      modifies slots
      ensures Valid() && Holders(slots[..]) == Finished(old(Holders(slots[..])), n)
      ensures forall i :: 0 <= i < MAX_ATTEMPTS ==> slots[i].started == old(slots[i].started)
    {
      for i := 0 to MAX_ATTEMPTS
        invariant Valid() && slots[..] == old(slots[..])
        invariant forall j :: 0 <= j < i ==> slots[j].holder != n
      {
        if slots[i].holder == n {
          FirstWithIs(Holders(slots[..]), n, i);
          slots[i] := slots[i].(holder := 0);
          return;
        }
      }
    }
  }

  lemma FirstWithIs(s: seq<int>, holder: int, i: nat)
    requires i < |s| && s[i] == holder && forall j :: 0 <= j < i ==> s[j] != holder
    ensures FirstWith(s, holder) == i
  {
    var k := FirstWith(s, holder);
    assert k < |s| ==> s[k] == holder;
  }

  function IdsOf(entries: seq<Entry>): (ids: seq<int>)
    ensures |ids| == |entries| && forall i :: 0 <= i < |entries| ==> ids[i] == entries[i].id
  {
    seq(|entries|, i requires 0 <= i < |entries| => entries[i].id)
  }

  /** A table without a free entry lists MAX_NODES nodes. */
  lemma TableFull(entries: seq<Entry>, nodes: Nodes)
    requires |entries| == MAX_NODES && Lists(entries, nodes)
    requires forall i :: 0 <= i < MAX_NODES ==> entries[i].id != 0
    ensures |nodes| >= MAX_NODES
  {
    var ids := IdsOf(entries);
    Finite.DistinctSize(ids);
    var listed, known: set<int> := Finite.Elements(ids), nodes.Keys;
    forall n | n in listed
      ensures n in known
    {
      var i :| 0 <= i < |ids| && ids[i] == n;
      assert entries[i].id > 0;
    }
    Finite.SubsetSize(listed, known);
    assert |known| == |nodes.Keys|;
  }

  lemma KnownListed(entries: seq<Entry>, nodes: Nodes)
    requires Lists(entries, nodes)
    ensures forall n :: n in nodes ==> n in Finite.Elements(IdsOf(entries))
  {
    forall n | n in nodes
      ensures n in Finite.Elements(IdsOf(entries))
    {
      var i :| 0 <= i < |entries| && entries[i].id == n;
      assert IdsOf(entries)[i] == n;
    }
  }

  /** A table with a free entry lists fewer. */
  lemma TableNotFull(entries: seq<Entry>, nodes: Nodes, free: nat)
    requires |entries| == MAX_NODES && Lists(entries, nodes) && free < MAX_NODES && entries[free].id == 0
    ensures |nodes| < MAX_NODES
  {
    var ids := IdsOf(entries);
    Finite.AtMostSize(ids);
    var listed, known: set<int> := Finite.Elements(ids), nodes.Keys;
    assert ids[free] == 0;
    KnownListed(entries, nodes);
    Finite.SubsetSize(known + {0}, listed);
    assert 0 !in known;
  }
}
