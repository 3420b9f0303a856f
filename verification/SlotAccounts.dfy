/** firmware/main/managers/subscription_manager.cpp: no attempt slot leaks. As long as every
    attempt reports, each slot a node holds is owed to an attempt on its way or to a step
    that is about to give it back. */
module SlotAccounts {
  import opened Subscriptions

  /** Slots that n holds. */
  function Holding(slots: Slots, n: NodeId): nat {
    multiset(slots)[n]
  }

  /** Steps of a list that are about to hand on, or to free, a slot of n. */
  function Owing(list: seq<Todo>, n: NodeId): nat {
    multiset(list)[Schedule(n)] + multiset(list)[Finish(n)]
  }

  /** Attempts at n that are scheduled or out. */
  function Attempts(sh: Shared, n: NodeId): nat {
    sh.scheduled[n] + sh.sent[n]
  }

  function Owed(s: State, n: NodeId): nat {
    Attempts(s.shared, n) + Owing(TodoOf(s, WORKER), n) + Owing(TodoOf(s, CHIP), n)
  }

  ghost predicate Accounted(s: State) {
    Shaped(s) && forall n :: Holding(s.shared.slots, n) <= Owed(s, n)
  }

  lemma OwingBoth(a: seq<Todo>, b: seq<Todo>, n: NodeId)
    ensures Owing(a + b, n) == Owing(a, n) + Owing(b, n)
  {
  }

  lemma OwingNone(list: seq<Todo>, n: NodeId)
    requires AllEnqueuing(list)
    ensures Owing(list, n) == 0
  {
    assert Schedule(n) !in list && Finish(n) !in list;
  }

  lemma SlotChanged(slots: Slots, i: nat, x: int, n: NodeId)
    requires i < MAX_ATTEMPTS
    ensures Holding(slots[i := x], n)
         == Holding(slots, n) - (if slots[i] == n then 1 else 0) + (if x == n then 1 else 0)
  {
    assert slots[i] in multiset(slots);
  }

  lemma FinishedHolding(slots: Slots, m: NodeId, n: NodeId)
    ensures Holding(Finished(slots, m), n)
         == Holding(slots, n) - if m == n && Holding(slots, n) > 0 then 1 else 0
  {
    var i := FirstWith(slots, m);
    if i < MAX_ATTEMPTS {
      SlotChanged(slots, i, 0, n);
      assert slots[i] in multiset(slots);
    } else {
      assert m !in slots;
    }
  }

  lemma OwingOne(t: Todo, n: NodeId)
    ensures Owing([t], n) == if t == Schedule(n) || t == Finish(n) then 1 else 0
  {
  }

  lemma OwingHead(list: seq<Todo>, n: NodeId)
    requires list != [] && (list[0] == Schedule(n) || list[0] == Finish(n))
    ensures Owing(list, n) >= 1
  {
    assert list[0] in multiset(list);
  }

  /** Does the step take a slot for n? */
  predicate Takes(sh: Shared, t: Todo, n: NodeId) {
    t == TryClaim(n) && FirstWith(sh.slots, 0) < MAX_ATTEMPTS
  }

  lemma StepHolds(sh: Shared, t: Todo, yes: bool, n: NodeId)
    ensures Holding(Do(sh, t, yes).0.slots, n)
         <= Holding(sh.slots, n) + (if Takes(sh, t, n) then 1 else 0)
            - (if t == Finish(n) && Holding(sh.slots, n) > 0 then 1 else 0)
  {
    if t.FreeSlot? && t.slot < MAX_ATTEMPTS {
      SlotChanged(sh.slots, t.slot, 0, n);
    }
    if t.TryClaim? && FirstWith(sh.slots, 0) < MAX_ATTEMPTS {
      SlotChanged(sh.slots, FirstWith(sh.slots, 0), t.n, n);
    }
    if t.Finish? {
      FinishedHolding(sh.slots, t.n, n);
    }
  }

  lemma StepOwes(sh: Shared, t: Todo, yes: bool, n: NodeId)
    ensures var (after, more) := Do(sh, t, yes);
            Attempts(after, n) + Owing(more, n)
              >= Attempts(sh, n) + Owing([t], n)
                 + (if Takes(sh, t, n) then 1 else 0) - (if t == Finish(n) then 1 else 0)
  {
    OwingOne(t, n);
    var more := Do(sh, t, yes).1;
    if t.TryClaim? || t.Schedule? || t.SendResult? {
      if more != [] && (more[0] == Schedule(n) || more[0] == Finish(n)) {
        OwingHead(more, n);
      }
    }
  }

  /** A step takes no more slots than it comes to owe. */
  lemma StepAccounts(sh: Shared, t: Todo, yes: bool, n: NodeId, owed: nat)
    requires Holding(sh.slots, n) <= Attempts(sh, n) + Owing([t], n) + owed
    ensures var (after, more) := Do(sh, t, yes);
            Holding(after.slots, n) <= Attempts(after, n) + Owing(more, n) + owed
  {
    StepHolds(sh, t, yes, n);
    StepOwes(sh, t, yes, n);
  }

  lemma ContinueAccounts(s: State, task: Task, yes: bool)
    requires Accounted(s) && TodoOf(s, task) != []
    ensures Accounted(Next(s, Continue(task, yes)))
  {
    ShapeKept(s, task, yes);
    var list, next := TodoOf(s, task), Next(s, Continue(task, yes));
    var (after, more) := Do(s.shared, list[0], yes);
    assert list == [list[0]] + list[1..];
    assert TodoOf(next, task) == more + list[1..];
    assert forall other :: other != task ==> TodoOf(next, other) == TodoOf(s, other);
    forall n
      ensures Holding(next.shared.slots, n) <= Owed(next, n)
    {
      OwingBoth([list[0]], list[1..], n);
      OwingBoth(more, list[1..], n);
      if task != WORKER && task != CHIP {
        OwingNone(list, n);
        assert AllEnqueuing(TodoOf(next, task));
        OwingNone(TodoOf(next, task), n);
      }
      StepAccounts(s.shared, list[0], yes, n, Owed(s, n) - Attempts(s.shared, n) - Owing([list[0]], n));
    }
  }

  predicate Reports(a: Action) {
    a.Established? || a.Terminated? || a.Failed?
  }

  /** A report takes at most one attempt away, and is about to free its slot. */
  lemma EventReports(s: State, a: Action)
    requires Starts(s, a)
    ensures var sh, next := s.shared, Next(s, a);
            && next.shared.scheduled == sh.scheduled
            && (next.shared.sent == sh.sent || (Reports(a) && next.shared.sent == sh.sent - multiset{a.n}))
            && (Reports(a) ==> TodoOf(next, CHIP) != [] && TodoOf(next, CHIP)[0] == Finish(a.n) && TaskOf(a) == CHIP)
  {
  }

  lemma OneLess(m: multiset<NodeId>, x: NodeId, n: NodeId)
    ensures (m - multiset{x})[n] + (if x == n then 1 else 0) >= m[n]
  {
  }

  lemma EventOwes(s: State, a: Action, n: NodeId)
    requires Starts(s, a)
    ensures Attempts(Next(s, a).shared, n) + Owing(TodoOf(Next(s, a), TaskOf(a)), n) >= Attempts(s.shared, n)
  {
    EventReports(s, a);
    if Reports(a) {
      OneLess(s.shared.sent, a.n, n);
      if a.n == n {
        OwingHead(TodoOf(Next(s, a), CHIP), n);
      }
    }
  }

  lemma EventAccounts(s: State, a: Action)
    requires Accounted(s) && Starts(s, a)
    ensures Accounted(Next(s, a))
  {
    EventShape(s, a);
    EventFrame(s, a);
    var next := Next(s, a);
    forall n
      ensures Holding(next.shared.slots, n) <= Owed(next, n)
    {
      assert next.shared.slots == s.shared.slots;
      EventOwes(s, a, n);
      assert Owing([], n) == 0;
      if TaskOf(a) != WORKER && TaskOf(a) != CHIP {
        assert AllEnqueuing(TodoOf(next, TaskOf(a)));
        OwingNone(TodoOf(next, TaskOf(a)), n);
      }
    }
  }

  lemma ActionAccounts(s: State, a: Action)
    requires Accounted(s) && !a.DieSilently?
    ensures Accounted(Next(s, a))
  {
    if a.Continue? {
      if TodoOf(s, a.task) != [] {
        ContinueAccounts(s, a.task, a.yes);
      }
    } else if Next(s, a) != s {
      EventAccounts(s, a);
    }
  }

  lemma {:induction false} StaysAccounted(s: State, actions: seq<Action>)
    requires Accounted(s) && forall a :: a in actions ==> !a.DieSilently?
    ensures Accounted(Run(s, actions))
    decreases |actions|
  {
    if actions != [] {
      ActionAccounts(s, actions[0]);
      StaysAccounted(Next(s, actions[0]), actions[1..]);
    }
  }

  /** In every interleaving in which attempts report, no node holds more slots than are owed;
      once the worker and the callbacks are done and no attempt is on its way, none is held. */
  lemma NoSlotLeaks(actions: seq<Action>)
    requires forall a :: a in actions ==> !a.DieSilently?
    ensures var s := Run(INITIAL, actions);
            && (forall n :: Holding(s.shared.slots, n) <= Owed(s, n))
            && (TodoOf(s, WORKER) == TodoOf(s, CHIP) == [] && s.shared.scheduled == s.shared.sent == multiset{} ==>
                 forall n: NodeId :: n !in s.shared.slots)
  {
    assert forall task :: TodoOf(INITIAL, task) == [];
    forall n: NodeId
      ensures Holding(INITIAL.shared.slots, n) == 0
    {
      assert n !in INITIAL.shared.slots;
    }
    StaysAccounted(INITIAL, actions);
    var s := Run(INITIAL, actions);
    forall n: NodeId | n in s.shared.slots
      ensures Holding(s.shared.slots, n) > 0
    {
    }
  }
}
