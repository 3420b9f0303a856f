/** firmware/main/managers/subscription_manager.cpp: what each callback, each request and
    each pass of the worker leaves behind when nothing comes between its steps. */
module Callbacks {
  import opened Subscriptions
  import opened Uninterrupted

  /** The task is done, and has changed the shared state to sh and nothing else. */
  ghost predicate Ends(s: State, after: State, task: Task, sh: Shared) {
    TodoOf(after, task) == [] && OthersStay(s, after, task) && after.shared == sh
  }

  /** The first slot of n is freed, if it holds one. */
  ghost predicate FreesFirst(slots: Slots, n: NodeId, after: Slots) {
    if n in slots then
      exists i :: 0 <= i < MAX_ATTEMPTS && slots[i] == n && n !in slots[..i] && after == slots[i := 0]
    else after == slots
  }

  lemma FinishedFrees(slots: Slots, n: NodeId)
    ensures FreesFirst(slots, n, Finished(slots, n))
  {
    var i := FirstWith(slots, n);
    if i < MAX_ATTEMPTS {
      assert slots[i] == n && n !in slots[..i];
    }
  }

  lemma {:induction false} PlayIdle(s: State, task: Task, answers: seq<bool>)
    requires TodoOf(s, task) == []
    ensures Play(s, task, answers) == s
    decreases |answers|
  {
    if answers != [] {
      PlayIdle(s, task, answers[1..]);
    }
  }

  lemma PlayStep(s: State, task: Task, answers: seq<bool>) returns (next: State)
    requires TodoOf(s, task) != [] && answers != []
    ensures Play(s, task, answers) == Play(next, task, answers[1..]) && OthersStay(s, next, task)
    ensures var (after, more) := Do(s.shared, TodoOf(s, task)[0], answers[0]);
            next.shared == after && TodoOf(next, task) == more + TodoOf(s, task)[1..]
  {
    next := Next(s, Continue(task, answers[0]));
  }

  /** The last of a task's steps, when nothing comes of it. */
  lemma PlayLast(s: State, task: Task, answers: seq<bool>)
    requires |TodoOf(s, task)| == 1 && answers != []
    requires Do(s.shared, TodoOf(s, task)[0], answers[0]).1 == []
    ensures Ends(s, Play(s, task, answers), task, Do(s.shared, TodoOf(s, task)[0], answers[0]).0)
  {
    var next := PlayStep(s, task, answers);
    PlayIdle(next, task, answers[1..]);
  }

  /** An idle task begins. */
  lemma Begins(s: State, next: State, task: Task, shared: Shared, todo: seq<Todo>)
    requires TodoOf(s, task) == [] && next == Begin(s, task, shared, todo)
    ensures next.shared == shared && TodoOf(next, task) == todo && OthersStay(s, next, task)
  {
  }

  // ---- Enqueuing ---------------------------------------------------------------------------

  /** n, not pending, as `node` in the table: marked and queued while there is room, and
      otherwise left unmarked. */
  function Queueing(sh: Shared, n: NodeId, node: Node): Shared {
    if |sh.queue| < QUEUE_DEPTH then sh.(nodes := sh.nodes[n := node.(pending := true)], queue := sh.queue + [n])
    else sh.(nodes := sh.nodes[n := node.(subscribed := false, subId := 0)])
  }

  lemma QueueingOver(sh: Shared, n: NodeId, before: Node, node: Node)
    ensures Queueing(sh.(nodes := sh.nodes[n := before]), n, node) == Queueing(sh, n, node)
  {
    assert sh.nodes[n := before][n := node.(pending := true)] == sh.nodes[n := node.(pending := true)];
    var dropped := node.(subscribed := false, subId := 0);
    assert sh.nodes[n := before][n := dropped] == sh.nodes[n := dropped];
  }

  lemma PlayEnqueue(s: State, task: Task, n: NodeId, answers: seq<bool>)
    requires TodoOf(s, task) == [Enqueue(n)] && |answers| >= 2
    ensures var nodes := s.shared.nodes;
            Ends(s, Play(s, task, answers), task,
                 if (n !in nodes && |nodes| >= MAX_NODES) || (n in nodes && nodes[n].pending) then s.shared
                 else Queueing(s.shared, n, if n in nodes then nodes[n] else Node(false, false, 0, false)))
  {
    EnqueueLeaves(s.shared, n);
    assert AllEnqueuing(TodoOf(s, task));
    EffortOfOne(TodoOf(s, task));
    PlaysOut(s, task, answers);
  }

  /** A request: a node already pending, or one the table has no room for, changes nothing. */
  lemma RequestLeaves(s: State, task: Task, n: NodeId, answers: seq<bool>)
    requires TodoOf(s, task) == [] && task != WORKER && |answers| >= 2
    ensures var nodes := s.shared.nodes;
            Ends(s, Play(Next(s, Request(task, n)), task, answers), task,
                 if (n !in nodes && |nodes| >= MAX_NODES) || (n in nodes && nodes[n].pending) then s.shared
                 else Queueing(s.shared, n, if n in nodes then nodes[n] else Node(false, false, 0, false)))
  {
    var begun := Next(s, Request(task, n));
    Begins(s, begun, task, s.shared, [Enqueue(n)]);
    PlayEnqueue(begun, task, n, answers);
  }

  // ---- Callbacks -----------------------------------------------------------------------------

  /** An attempt succeeded: the node is subscribed under the id, and its slot free. */
  lemma EstablishedLeaves(s: State, n: NodeId, subId: nat, answers: seq<bool>)
    requires TodoOf(s, CHIP) == [] && n in s.shared.sent && answers != []
    ensures var sh, after := s.shared, Play(Next(s, Established(n, subId)), CHIP, answers);
            var icd := n in sh.nodes && sh.nodes[n].icd;
            && FreesFirst(sh.slots, n, after.shared.slots)
            && Ends(s, after, CHIP, sh.(
                 nodes := if n in sh.nodes || |sh.nodes| < MAX_NODES then sh.nodes[n := Node(true, false, subId, icd)]
                          else sh.nodes,
                 sent := sh.sent - multiset{n}, slots := after.shared.slots))
  {
    var sh, begun := s.shared, Next(s, Established(n, subId));
    Begins(s, begun, CHIP, sh.(nodes := MarkedSubscribed(sh.nodes, n, subId), sent := sh.sent - multiset{n}),
           [Finish(n)]);
    PlayLast(begun, CHIP, answers);
    FinishedFrees(sh.slots, n);
  }

  /** A subscription ended: its slot is free, and a node of which it is the current one, or
      whatever it is by id 0, is no longer subscribed but queued. */
  lemma TerminatedLeaves(s: State, n: NodeId, subId: nat, answers: seq<bool>)
    requires TodoOf(s, CHIP) == [] && |answers| >= 3
    ensures var sh, after := s.shared, Play(Next(s, Terminated(n, subId)), CHIP, answers);
            var freed := sh.(slots := after.shared.slots,
                             sent := if subId == 0 then sh.sent - multiset{n} else sh.sent);
            && FreesFirst(sh.slots, n, after.shared.slots)
            && Ends(s, after, CHIP,
                    if n in sh.nodes && (subId == 0 || sh.nodes[n].subId == subId)
                    then Queueing(freed, n, Node(false, false, 0, sh.nodes[n].icd)) else freed)
  {
    var sh, begun := s.shared, Next(s, Terminated(n, subId));
    var ended := sh.(nodes := Cleared(sh.nodes, n, subId),
                     sent := if subId == 0 then sh.sent - multiset{n} else sh.sent);
    FinishedFrees(sh.slots, n);
    if Concerns(sh.nodes, n, subId) {
      assert [Finish(n)] + [Enqueue(n)] == [Finish(n), Enqueue(n)];
      Begins(s, begun, CHIP, ended, [Finish(n), Enqueue(n)]);
      FinishesAndEnqueues(begun, n, answers);
      var node := Node(false, false, 0, sh.nodes[n].icd);
      QueueingOver(sh.(slots := Finished(sh.slots, n), sent := ended.sent), n, node, node);
    } else {
      assert [Finish(n)] + [] == [Finish(n)];
      Begins(s, begun, CHIP, ended, [Finish(n)]);
      PlayLast(begun, CHIP, answers);
    }
  }

  lemma FinishesAndEnqueues(s: State, n: NodeId, answers: seq<bool>)
    requires TodoOf(s, CHIP) == [Finish(n), Enqueue(n)] && |answers| >= 3
    requires n in s.shared.nodes && !s.shared.nodes[n].pending
    ensures Ends(s, Play(s, CHIP, answers), CHIP,
                 Queueing(s.shared.(slots := Finished(s.shared.slots, n)), n, s.shared.nodes[n]))
  {
    var next := PlayStep(s, CHIP, answers);
    assert TodoOf(next, CHIP) == [Enqueue(n)];
    PlayEnqueue(next, CHIP, n, answers[1..]);
  }

  /** An attempt failed: its slot is free, the node unmarked, and queued anew unless it is
      found to be a sleepy device, the second answer. */
  lemma FailedLeaves(s: State, n: NodeId, answers: seq<bool>)
    requires TodoOf(s, CHIP) == [] && n in s.shared.sent && |answers| >= 5
    ensures var sh, icd, after := s.shared, answers[1], Play(Next(s, Failed(n)), CHIP, answers);
            var freed := sh.(slots := after.shared.slots, sent := sh.sent - multiset{n});
            && FreesFirst(sh.slots, n, after.shared.slots)
            && Ends(s, after, CHIP,
                    if n !in sh.nodes && |sh.nodes| >= MAX_NODES then freed
                    else if icd then freed.(nodes := sh.nodes[n := Node(false, false, 0, true)])
                    else Queueing(freed, n, Node(false, false, 0, false)))
  {
    var sh, begun := s.shared, Next(s, Failed(n));
    Begins(s, begun, CHIP, sh.(nodes := Cleared(sh.nodes, n, 0), sent := sh.sent - multiset{n}),
           [Finish(n), Refresh(n), EnqueueUnlessIcd(n)]);
    FinishedFrees(sh.slots, n);
    var next := FinishesAndRefreshes(begun, n, answers);
    FailedGoesOn(next, n, answers[2..]);
    RefreshedNode(sh.nodes, n, answers[1]);
    var node := Node(false, false, 0, answers[1]);
    QueueingOver(sh.(slots := Finished(sh.slots, n), sent := sh.sent - multiset{n}), n, node, node);
  }

  lemma RefreshedNode(nodes: Nodes, n: NodeId, icd: bool)
    ensures Refreshed(Cleared(nodes, n, 0), n, icd)
         == if n !in nodes && |nodes| >= MAX_NODES then nodes else nodes[n := Node(false, false, 0, icd)]
  {
  }

  lemma FinishesAndRefreshes(s: State, n: NodeId, answers: seq<bool>) returns (next: State)
    requires TodoOf(s, CHIP) == [Finish(n), Refresh(n), EnqueueUnlessIcd(n)] && |answers| >= 2
    ensures Play(s, CHIP, answers) == Play(next, CHIP, answers[2..]) && OthersStay(s, next, CHIP)
    ensures TodoOf(next, CHIP) == [EnqueueUnlessIcd(n)]
    ensures next.shared == s.shared.(slots := Finished(s.shared.slots, n),
                                     nodes := Refreshed(s.shared.nodes, n, answers[1]))
  {
    var mid := PlayStep(s, CHIP, answers);
    assert TodoOf(mid, CHIP) == [Refresh(n), EnqueueUnlessIcd(n)];
    next := PlayStep(mid, CHIP, answers[1..]);
    assert answers[1..][1..] == answers[2..];
  }

  lemma FailedGoesOn(s: State, n: NodeId, answers: seq<bool>)
    requires TodoOf(s, CHIP) == [EnqueueUnlessIcd(n)] && |answers| >= 3
    requires n in s.shared.nodes ==> !s.shared.nodes[n].pending
    requires n !in s.shared.nodes ==> |s.shared.nodes| >= MAX_NODES
    ensures Ends(s, Play(s, CHIP, answers), CHIP,
                 if n !in s.shared.nodes || s.shared.nodes[n].icd then s.shared
                 else Queueing(s.shared, n, s.shared.nodes[n]))
  {
    if n in s.shared.nodes && s.shared.nodes[n].icd {
      PlayLast(s, CHIP, answers);
    } else {
      var next := PlayStep(s, CHIP, answers);
      assert TodoOf(next, CHIP) == [Enqueue(n)];
      PlayEnqueue(next, CHIP, n, answers[1..]);
    }
  }

  /** A sleepy device checked in: it has no subscription, whatever was believed, and is
      queued. The first answer is what is known of it. */
  lemma CheckInLeaves(s: State, n: NodeId, answers: seq<bool>)
    requires TodoOf(s, CHIP) == [] && |answers| >= 4
    ensures var sh := s.shared;
            Ends(s, Play(Next(s, CheckIn(n)), CHIP, answers), CHIP,
                 if n !in sh.nodes && |sh.nodes| >= MAX_NODES then sh
                 else Queueing(sh, n, Node(false, false, 0, answers[0])))
  {
    var sh, begun := s.shared, Next(s, CheckIn(n));
    Begins(s, begun, CHIP, sh, [Refresh(n), Clear(n), Enqueue(n)]);
    var next := RefreshesAndClears(begun, n, answers);
    ClearedNode(sh.nodes, n, answers[0]);
    PlayEnqueue(next, CHIP, n, answers[2..]);
    var node := Node(false, false, 0, answers[0]);
    QueueingOver(sh, n, node, node);
  }

  lemma RefreshesAndClears(s: State, n: NodeId, answers: seq<bool>) returns (next: State)
    requires TodoOf(s, CHIP) == [Refresh(n), Clear(n), Enqueue(n)] && |answers| >= 2
    ensures Play(s, CHIP, answers) == Play(next, CHIP, answers[2..]) && OthersStay(s, next, CHIP)
    ensures TodoOf(next, CHIP) == [Enqueue(n)]
    ensures next.shared == s.shared.(nodes := Cleared(Refreshed(s.shared.nodes, n, answers[0]), n, 0))
  {
    var mid := PlayStep(s, CHIP, answers);
    assert TodoOf(mid, CHIP) == [Clear(n), Enqueue(n)];
    next := PlayStep(mid, CHIP, answers[1..]);
    assert answers[1..][1..] == answers[2..];
  }

  lemma ClearedNode(nodes: Nodes, n: NodeId, icd: bool)
    ensures Cleared(Refreshed(nodes, n, icd), n, 0)
         == if n !in nodes && |nodes| >= MAX_NODES then nodes else nodes[n := Node(false, false, 0, icd)]
  {
  }

  lemma RefreshesToSend(s: State, n: NodeId, answers: seq<bool>) returns (next: State)
    requires TodoOf(s, CHIP) == [] && n in s.shared.scheduled && answers != []
    ensures Play(Next(s, RunSend(n)), CHIP, answers) == Play(next, CHIP, answers[1..]) && OthersStay(s, next, CHIP)
    ensures TodoOf(next, CHIP) == [SendResult(n)]
    ensures next.shared == s.shared.(nodes := Refreshed(s.shared.nodes, n, answers[0]))
  {
    var begun := Next(s, RunSend(n));
    Begins(s, begun, CHIP, s.shared, [Refresh(n), SendResult(n)]);
    next := PlayStep(begun, CHIP, answers);
  }

  /** A scheduled attempt runs and is out. */
  lemma SentLeaves(s: State, n: NodeId, answers: seq<bool>)
    requires TodoOf(s, CHIP) == [] && n in s.shared.scheduled && |answers| >= 2 && answers[1]
    ensures var sh := s.shared;
            Ends(s, Play(Next(s, RunSend(n)), CHIP, answers), CHIP, sh.(
              nodes := if Fits(sh.nodes, n) then sh.nodes[n := Known(sh.nodes, n).(icd := answers[0])] else sh.nodes,
              scheduled := sh.scheduled - multiset{n}, sent := sh.sent + multiset{n}))
  {
    var next := RefreshesToSend(s, n, answers);
    PlayLast(next, CHIP, answers[1..]);
    FlaggedNode(s.shared.nodes, n, answers[0]);
  }

  lemma FlaggedNode(nodes: Nodes, n: NodeId, icd: bool)
    ensures Refreshed(nodes, n, icd)
         == if n in nodes || |nodes| < MAX_NODES then nodes[n := Known(nodes, n).(icd := icd)] else nodes
  {
  }

  /** What is left to do when it cannot be sent. */
  lemma GivesUp(s: State, n: NodeId, answers: seq<bool>)
    requires TodoOf(s, CHIP) == [SendResult(n)] && |answers| >= 2 && !answers[0]
    ensures Ends(s, Play(s, CHIP, answers), CHIP, s.shared.(
              nodes := Cleared(s.shared.nodes, n, 0), scheduled := s.shared.scheduled - multiset{n},
              slots := Finished(s.shared.slots, n)))
  {
    var last := PlayStep(s, CHIP, answers);
    assert TodoOf(last, CHIP) == [Finish(n)];
    PlayLast(last, CHIP, answers[1..]);
  }

  /** Or cannot be sent: the node is unmarked and its slot free. */
  lemma UnsentLeaves(s: State, n: NodeId, answers: seq<bool>)
    requires TodoOf(s, CHIP) == [] && n in s.shared.scheduled && |answers| >= 3 && !answers[1]
    ensures var sh, after := s.shared, Play(Next(s, RunSend(n)), CHIP, answers);
            && FreesFirst(sh.slots, n, after.shared.slots)
            && Ends(s, after, CHIP, sh.(
                 nodes := if Fits(sh.nodes, n) then sh.nodes[n := Node(false, false, 0, answers[0])] else sh.nodes,
                 scheduled := sh.scheduled - multiset{n}, slots := after.shared.slots))
  {
    var next := RefreshesToSend(s, n, answers);
    GivesUp(next, n, answers[1..]);
    FinishedFrees(s.shared.slots, n);
    ClearedNode(s.shared.nodes, n, answers[0]);
  }

  // ---- The worker --------------------------------------------------------------------------------

  /** The head of the queue is taken, and left alone if it is subscribed or unmarked if no
      longer wanted, the first answer. */
  lemma DropsHead(s: State, n: NodeId, rest: seq<NodeId>, answers: seq<bool>)
    requires TodoOf(s, WORKER) == [] && s.shared.queue == [n] + rest && |answers| >= 2
    requires !answers[0] || (n in s.shared.nodes && s.shared.nodes[n].subscribed)
    ensures var sh := s.shared;
            Ends(s, Play(Next(s, Receive), WORKER, answers), WORKER, sh.(
              queue := rest,
              nodes := if !answers[0] && n in sh.nodes then sh.nodes[n := Node(false, false, 0, sh.nodes[n].icd)]
                       else sh.nodes))
  {
    var begun := Next(s, Receive);
    Begins(s, begun, WORKER, s.shared.(queue := rest), [CheckWanted(n)]);
    if answers[0] {
      var next := PlayStep(begun, WORKER, answers);
      assert TodoOf(next, WORKER) == [CheckSubscribed(n)];
      PlayLast(next, WORKER, answers[1..]);
    } else {
      PlayLast(begun, WORKER, answers);
    }
  }

  /** A wanted node that is not subscribed comes to wait for a slot. */
  lemma TakesHead(s: State, n: NodeId, rest: seq<NodeId>, answers: seq<bool>) returns (waits: State)
    requires TodoOf(s, WORKER) == [] && s.shared.queue == [n] + rest && |answers| >= 2
    requires answers[0] && !(n in s.shared.nodes && s.shared.nodes[n].subscribed)
    ensures Play(Next(s, Receive), WORKER, answers) == Play(waits, WORKER, answers[2..])
    ensures waits.shared == s.shared.(queue := rest) && TodoOf(waits, WORKER) == ClaimLoop(n)
    ensures OthersStay(s, waits, WORKER)
  {
    var begun := Next(s, Receive);
    Begins(s, begun, WORKER, s.shared.(queue := rest), [CheckWanted(n)]);
    var next := PlayStep(begun, WORKER, answers);
    assert TodoOf(next, WORKER) == [CheckSubscribed(n)];
    waits := PlayStep(next, WORKER, answers[1..]);
    assert TodoOf(waits, WORKER) == ClaimLoop(n) + [] == ClaimLoop(n);
    assert answers[1..][1..] == answers[2..];
  }

  /** Finding no slot expired. */
  lemma {:induction false} PassesSlots(s: State, slots: seq<nat>, last: Todo, answers: seq<bool>) returns (next: State)
    requires |TodoOf(s, WORKER)| == |slots| + 1 && TodoOf(s, WORKER)[|slots|] == last
    requires forall i :: 0 <= i < |slots| ==> TodoOf(s, WORKER)[i] == Reclaim(slots[i])
    requires |answers| >= |slots| && forall i :: 0 <= i < |slots| ==> !answers[i]
    ensures Play(s, WORKER, answers) == Play(next, WORKER, answers[|slots|..]) && OthersStay(s, next, WORKER)
    ensures next.shared == s.shared && TodoOf(next, WORKER) == [last]
    decreases |slots|
  {
    if slots == [] {
      next := s;
    } else {
      var mid := PlayStep(s, WORKER, answers);
      assert TodoOf(mid, WORKER) == TodoOf(s, WORKER)[1..];
      next := PassesSlots(mid, slots[1..], last, answers[1..]);
      assert answers[1..][|slots[1..]|..] == answers[|slots|..];
    }
  }

  /** Waiting for a slot, none free and none expired: a round changes nothing. */
  lemma WaitsOn(s: State, n: NodeId, answers: seq<bool>)
    requires TodoOf(s, WORKER) == ClaimLoop(n) && |answers| == 5 && forall i :: 0 <= i < 4 ==> !answers[i]
    requires 0 !in s.shared.slots
    ensures var after := Play(s, WORKER, answers);
            after.shared == s.shared && TodoOf(after, WORKER) == ClaimLoop(n) && OthersStay(s, after, WORKER)
  {
    var next := PassesSlots(s, [0, 1, 2, 3], TryClaim(n), answers);
    var again := PlayStep(next, WORKER, answers[4..]);
    assert TodoOf(again, WORKER) == ClaimLoop(n) + [] == ClaimLoop(n);
    assert answers[4..][1..] == [];
  }

  /** The first free slot is taken and the attempt scheduled, or the slot given back and the
      node unmarked. */
  lemma ClaimLeaves(s: State, n: NodeId, i: nat, answers: seq<bool>)
    requires TodoOf(s, WORKER) == ClaimLoop(n) && |answers| >= 7 && forall i :: 0 <= i < 4 ==> !answers[i]
    requires i < MAX_ATTEMPTS && s.shared.slots[i] == 0 && 0 !in s.shared.slots[..i]
    ensures Claimed(s, n, Play(s, WORKER, answers), s.shared.slots[i := n], answers[5])
  {
    FirstWithIs(s.shared.slots, 0, i);
    var next := PassesSlots(s, [0, 1, 2, 3], TryClaim(n), answers);
    var claimed := PlayStep(next, WORKER, answers[4..]);
    assert TodoOf(claimed, WORKER) == [Schedule(n)];
    assert answers[4..][1..] == answers[5..];
    ScheduleLeaves(claimed, n, answers[5..]);
  }

  /** With the slots as they are after the claim. */
  ghost predicate Claimed(s: State, n: NodeId, after: State, slots: Slots, scheduled: bool) {
    var sh := s.shared;
    if scheduled then Ends(s, after, WORKER, sh.(slots := slots, scheduled := sh.scheduled + multiset{n}))
    else
      && FreesFirst(slots, n, after.shared.slots)
      && Ends(s, after, WORKER, sh.(
           slots := after.shared.slots,
           nodes := if n in sh.nodes then sh.nodes[n := Node(false, false, 0, sh.nodes[n].icd)] else sh.nodes))
  }

  lemma ScheduleLeaves(s: State, n: NodeId, answers: seq<bool>)
    requires TodoOf(s, WORKER) == [Schedule(n)] && |answers| >= 2
    ensures Claimed(s, n, Play(s, WORKER, answers), s.shared.slots, answers[0])
  {
    if answers[0] {
      PlayLast(s, WORKER, answers);
    } else {
      var next := PlayStep(s, WORKER, answers);
      assert TodoOf(next, WORKER) == [Finish(n)];
      PlayLast(next, WORKER, answers[1..]);
      FinishedFrees(s.shared.slots, n);
    }
  }
}
