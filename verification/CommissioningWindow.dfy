/** firmware/main/commands/commissioning_window_command.cpp: the handshake between the
    HTTP task that waits for a commissioning window and the Matter task that calls back.
    Each action is one access to what the two tasks share. */
module CommissioningWindow {

  type Request = nat

  /** What s_result holds: nothing, half a payload, or a whole one, and whose. */
  datatype Result = Blank | Partial(of: Request) | Full(of: Request)

  datatype Caller =
    | Idle
    | Allocated(r: Request)
    | Cleared(r: Request)   // s_result zeroed
    | Drained(r: Request)   // s_done taken if it was given
    | Armed(r: Request)     // s_waiting set
    | Failing(r: Request)   // the start failed and s_waiting is off again
    | Waiting(r: Request)
    | TimedOut(r: Request)  // about to exchange s_waiting
    | Blocked(r: Request)   // the callback was first; its give is on the way
    | Signalled(r: Request) // about to read

  datatype Callback =
    | Quiet
    | Claimed(r: Request)   // exchanged s_waiting and found it set
    | Writing(r: Request)
    | Written(r: Request)
    | Stamped(r: Request)   // s_status stored
    | Given(r: Request)     // s_done given
    | Late(r: Request)      // found nobody waiting

  /** A finished wait: the call, and the result and status it read. */
  datatype Reading = Reading(call: Request, result: Result, status: Request)

  datatype State = State(
    waiting: bool, done: bool, result: Result, status: Request,
    caller: Caller, callback: Callback,
    outstanding: set<Request>,       // started, callback still to come
    issued: nat, deleted: multiset<Request>,
    readings: seq<Reading>, started: set<Request>, abandoned: set<Request>, answered: set<Request>,
    writers: set<Request>)

  datatype Action =
    | Allocate | ClearResult | Drain | Arm | Start(ok: bool) | DeleteFailed
    | Take | TimeOut | Exchange | Read
    | Begin(r: Request) | WriteHalf | WriteRest | StoreStatus | Give | Delete

  const INITIAL := State(false, false, Blank, 0, Idle, Quiet, {}, 0, multiset{}, [], {}, {}, {}, {})

  /** One step; an action that is not due changes nothing. */
  function Next(s: State, a: Action): State {
    match (a, s.caller, s.callback)
    case (Allocate, Idle, _) => s.(caller := Allocated(s.issued), issued := s.issued + 1)
    case (ClearResult, Allocated(r), _) => s.(caller := Cleared(r), result := Blank)
    case (Drain, Cleared(r), _) => s.(caller := Drained(r), done := false)
    case (Arm, Drained(r), _) => s.(caller := Armed(r), waiting := true)
    case (Start(ok), Armed(r), _) =>
      if ok then s.(caller := Waiting(r), outstanding := s.outstanding + {r}, started := s.started + {r})
      else s.(caller := Failing(r), waiting := false)
    case (DeleteFailed, Failing(r), _) => s.(caller := Idle, deleted := s.deleted + multiset{r})
    case (Take, Waiting(r), _) => if s.done then s.(caller := Signalled(r), done := false) else s
    case (Take, Blocked(r), _) => if s.done then s.(caller := Signalled(r), done := false) else s
    case (TimeOut, Waiting(r), _) => if s.done then s else s.(caller := TimedOut(r))
    case (Exchange, TimedOut(r), _) =>
      if s.waiting then s.(caller := Idle, waiting := false, abandoned := s.abandoned + {r})
      else s.(caller := Blocked(r))
    case (Read, Signalled(r), _) => s.(caller := Idle, readings := s.readings + [Reading(r, s.result, s.status)])
    case (Begin(r), _, Quiet) =>
      if r !in s.outstanding then s
      else if s.waiting then
        s.(callback := Claimed(r), waiting := false, outstanding := s.outstanding - {r}, answered := s.answered + {r})
      else s.(callback := Late(r), outstanding := s.outstanding - {r})
    case (WriteHalf, _, Claimed(r)) => s.(callback := Writing(r), result := Partial(r), writers := s.writers + {r})
    case (WriteRest, _, Writing(r)) => s.(callback := Written(r), result := Full(r))
    case (StoreStatus, _, Written(r)) => s.(callback := Stamped(r), status := r)
    case (Give, _, Stamped(r)) => s.(callback := Given(r), done := true)
    case (Delete, _, Given(r)) => s.(callback := Quiet, deleted := s.deleted + multiset{r})
    case (Delete, _, Late(r)) => s.(callback := Quiet, deleted := s.deleted + multiset{r})
    case _ => s
  }

  /** No request given up on is still to call back when a new call arms the wait. */
  predicate Allowed(s: State, a: Action) {
    a.Arm? && s.caller.Drained? ==> s.outstanding == {}
  }

  function Run(s: State, actions: seq<Action>): State
    decreases |actions|
  {
    if actions == [] then s else Run(Next(s, actions[0]), actions[1..])
  }

  ghost predicate AllAllowed(s: State, actions: seq<Action>)
    decreases |actions|
  {
    actions == [] || (Allowed(s, actions[0]) && AllAllowed(Next(s, actions[0]), actions[1..]))
  }

  // ---- The invariant --------------------------------------------------------------------

  function CallOf(s: State): set<Request> {
    if s.caller.Idle? then {} else {s.caller.r}
  }

  function CallbackOf(s: State): set<Request> {
    if s.callback.Quiet? then {} else {s.callback.r}
  }

  /** The call is set up but its request has not been started. */
  predicate Unstarted(c: Caller) {
    c.Allocated? || c.Cleared? || c.Drained? || c.Armed? || c.Failing?
  }

  /** The callback has taken the wait and not yet given the semaphore. */
  predicate Filling(c: Callback) {
    c.Claimed? || c.Writing? || c.Written? || c.Stamped?
  }

  /** The call is set up but has not armed the wait. */
  predicate Unarmed(c: Caller) {
    c.Allocated? || c.Cleared? || c.Drained?
  }

  predicate AwaitsAnswer(c: Caller) {
    c.Waiting? || c.TimedOut? || c.Blocked?
  }

  /** Requests the allocator handed out are accounted for one by one. */
  ghost predicate Owned(s: State) {
    && (forall r :: r in s.outstanding ==> r < s.issued && s.deleted[r] == 0)
    && (forall r :: r in s.deleted ==> r < s.issued && s.deleted[r] == 1)
    && (!s.callback.Quiet? ==> s.callback.r < s.issued && s.deleted[s.callback.r] == 0
                               && s.callback.r !in s.outstanding)
    && (!s.caller.Idle? ==> s.caller.r < s.issued)
    && (Unstarted(s.caller) ==> s.caller.r !in s.outstanding && s.deleted[s.caller.r] == 0
                                && CallbackOf(s) != {s.caller.r})
    && (forall r :: 0 <= r < s.issued ==>
          r in s.deleted || r in s.outstanding || r in CallbackOf(s) || (Unstarted(s.caller) && r == s.caller.r))
  }

  /** Who may still answer whom. */
  ghost predicate Paired(s: State) {
    && (s.waiting <==> s.caller.Armed? || ((s.caller.Waiting? || s.caller.TimedOut?) && s.caller.r in s.outstanding))
    && (s.caller.Blocked? ==> !s.waiting && s.caller.r !in s.outstanding)
    && (!s.caller.Idle? && !Unarmed(s.caller) ==> s.outstanding <= {s.caller.r})
    && (Filling(s.callback) ==> AwaitsAnswer(s.caller) && s.caller.r == s.callback.r)
    && (s.done ==> (s.caller.Waiting? || s.caller.Blocked? || s.caller.TimedOut?) && s.caller.r in s.answered
                   && s.result == Full(s.caller.r) && s.status == s.caller.r && !Filling(s.callback))
    && (AwaitsAnswer(s.caller) ==> s.caller.r in s.outstanding || Filling(s.callback) || s.done)
    && (s.caller.Signalled? ==> s.result == Full(s.caller.r) && s.status == s.caller.r && !Filling(s.callback)
                                && s.outstanding == {} && s.caller.r in s.answered)
    && (Unstarted(s.caller) ==> !Filling(s.callback))
    && (s.caller.Armed? || s.caller.Failing? ==> s.outstanding == {})
    && (s.callback.Written? ==> s.result == Full(s.callback.r))
    && (s.callback.Stamped? ==> s.result == Full(s.callback.r) && s.status == s.callback.r)
  }

  /** Who took which wait. */
  ghost predicate Decided(s: State) {
    && s.abandoned !! s.answered
    && (forall r :: r in s.started ==> r < s.issued)
    && s.abandoned <= s.started && s.answered <= s.started && s.outstanding <= s.started
    && (forall r :: r in s.started ==>
          r in s.abandoned || r in s.answered || (AwaitsAnswer(s.caller) && s.caller.r == r))
    && (forall r :: r in s.outstanding ==> r !in s.answered)
    && (Unstarted(s.caller) ==> s.caller.r !in s.started)
    && (AwaitsAnswer(s.caller) || s.caller.Signalled? ==> s.caller.r !in s.abandoned)
    && (AwaitsAnswer(s.caller) && s.caller.r !in s.outstanding ==> s.caller.r in s.answered)
    && (Filling(s.callback) || s.callback.Given? ==> s.callback.r in s.answered)
    && (s.callback.Late? ==> s.callback.r in s.abandoned)
    && (forall r :: r in s.outstanding && CallOf(s) != {r} ==> r in s.abandoned)
    && s.writers <= s.answered
  }

  /** Every result was read whole, by the call it was meant for. */
  ghost predicate GoodReadings(s: State) {
    forall i :: 0 <= i < |s.readings| ==>
      s.readings[i].result == Full(s.readings[i].call) && s.readings[i].status == s.readings[i].call
      && s.readings[i].call in s.answered
  }

  ghost predicate Inv(s: State) {
    Owned(s) && Paired(s) && Decided(s) && GoodReadings(s)
  }

  // Each part of the invariant is kept by each side: the caller as it sets a call up,
  // the caller as it waits, and the callback.

  predicate SetsUp(a: Action) {
    a.Allocate? || a.ClearResult? || a.Drain? || a.Arm? || a.Start? || a.DeleteFailed?
  }

  predicate Waits(a: Action) {
    a.Take? || a.TimeOut? || a.Exchange? || a.Read?
  }

  lemma SetUpKeepsOwned(s: State, a: Action)
    requires Inv(s) && Allowed(s, a) && SetsUp(a)
    ensures Owned(Next(s, a))
  {
  }

  lemma WaitKeepsOwned(s: State, a: Action)
    requires Inv(s) && Waits(a)
    ensures Owned(Next(s, a))
  {
  }

  lemma CallbackKeepsOwned(s: State, a: Action)
    requires Inv(s) && !SetsUp(a) && !Waits(a)
    ensures Owned(Next(s, a))
  {
  }

  lemma CallerKeepsPaired(s: State, a: Action)
    requires Inv(s) && Allowed(s, a) && (SetsUp(a) || Waits(a))
    ensures Paired(Next(s, a))
  {
  }

  lemma CallbackKeepsPaired(s: State, a: Action)
    requires Inv(s) && !SetsUp(a) && !Waits(a)
    ensures Paired(Next(s, a))
  {
  }

  lemma SetUpKeepsDecided(s: State, a: Action)
    requires Inv(s) && Allowed(s, a) && SetsUp(a)
    ensures Decided(Next(s, a))
  {
  }

  lemma WaitKeepsDecided(s: State, a: Action)
    requires Inv(s) && Waits(a)
    ensures Decided(Next(s, a))
  {
  }

  lemma CallbackKeepsDecided(s: State, a: Action)
    requires Inv(s) && !SetsUp(a) && !Waits(a)
    ensures Decided(Next(s, a))
  {
  }

  lemma KeepsReadings(s: State, a: Action)
    requires Inv(s)
    ensures GoodReadings(Next(s, a))
  {
  }

  lemma StepKeepsInv(s: State, a: Action)
    requires Inv(s) && Allowed(s, a)
    ensures Inv(Next(s, a))
  {
    KeepsReadings(s, a);
    if SetsUp(a) {
      SetUpKeepsOwned(s, a);
      CallerKeepsPaired(s, a);
      SetUpKeepsDecided(s, a);
    } else if Waits(a) {
      WaitKeepsOwned(s, a);
      CallerKeepsPaired(s, a);
      WaitKeepsDecided(s, a);
    } else {
      CallbackKeepsOwned(s, a);
      CallbackKeepsPaired(s, a);
      CallbackKeepsDecided(s, a);
    }
  }

  /** In every interleaving in which no abandoned request is outstanding when a call
      arms the wait. */
  lemma {:induction false} AlwaysInv(s: State, actions: seq<Action>)
    requires Inv(s) && AllAllowed(s, actions)
    ensures Inv(Run(s, actions))
    decreases |actions|
  {
    if actions != [] {
      StepKeepsInv(s, actions[0]);
      AlwaysInv(Next(s, actions[0]), actions[1..]);
    }
  }

  /** The handshake, over every allowed run: no wait is taken by both sides, a result is
      read whole and by its own call, the callback of an abandoned call writes nothing,
      the semaphore is empty between calls, and no request is deleted twice. */
  lemma HandshakeHolds(actions: seq<Action>)
    requires AllAllowed(INITIAL, actions)
    ensures var s := Run(INITIAL, actions);
            && s.abandoned !! s.answered && s.abandoned !! s.writers
            && (forall i :: 0 <= i < |s.readings| ==>
                  var reading := s.readings[i];
                  reading == Reading(reading.call, Full(reading.call), reading.call) && reading.call in s.answered)
            && (s.caller.Idle? ==> !s.done && !s.waiting)
            && (forall r :: r in s.deleted ==> s.deleted[r] == 1)
  {
    AlwaysInv(INITIAL, actions);
  }

  /** Once both tasks are idle and nothing is outstanding, every request handed out has
      been deleted exactly once. */
  lemma NothingLeaks(actions: seq<Action>, r: Request)
    requires AllAllowed(INITIAL, actions)
    requires var s := Run(INITIAL, actions); s.caller.Idle? && s.callback.Quiet? && s.outstanding == {}
    ensures Run(INITIAL, actions).deleted[r] == if r < Run(INITIAL, actions).issued then 1 else 0
  {
    AlwaysInv(INITIAL, actions);
  }

  /** A wait that was started and is over was taken by exactly one side. */
  lemma WaitTakenOnce(actions: seq<Action>, r: Request)
    requires AllAllowed(INITIAL, actions) && r in Run(INITIAL, actions).started
    requires CallOf(Run(INITIAL, actions)) != {r}
    ensures r in Run(INITIAL, actions).abandoned <==> r !in Run(INITIAL, actions).answered
  {
    AlwaysInv(INITIAL, actions);
  }

  // ---- Why a call must not overtake an abandoned request -------------------------------------

  lemma RunStep(s: State, a: Action, rest: seq<Action>)
    ensures Run(s, [a] + rest) == Run(Next(s, a), rest)
  {
    assert ([a] + rest)[1..] == rest;
  }

  /** A new call, set up and started. */
  function CallStarted(s: State): State {
    Next(Next(Next(Next(Next(s, Allocate), ClearResult), Drain), Arm), Start(true))
  }

  /** A callback from its claim to its give, and the caller reading what it wrote. */
  function Answered(s: State, r: Request): State {
    Next(Next(Next(Next(Next(Next(Next(s, Begin(r)), WriteHalf), WriteRest), StoreStatus), Give), Take), Read)
  }

  lemma CallStartedRuns(s: State, rest: seq<Action>) returns (actions: seq<Action>)
    requires Allocate !in rest
    ensures Run(s, actions) == Run(CallStarted(s), rest) && OneCall(actions)
  {
    var s1 := Next(s, Allocate);
    var s2 := Next(s1, ClearResult);
    var s3 := Next(s2, Drain);
    var s4 := Next(s3, Arm);
    RunStep(s4, Start(true), rest);
    RunStep(s3, Arm, [Start(true)] + rest);
    RunStep(s2, Drain, [Arm] + ([Start(true)] + rest));
    RunStep(s1, ClearResult, [Drain] + ([Arm] + ([Start(true)] + rest)));
    RunStep(s, Allocate, [ClearResult] + ([Drain] + ([Arm] + ([Start(true)] + rest))));
    actions := [Allocate] + ([ClearResult] + ([Drain] + ([Arm] + ([Start(true)] + rest))));
  }

  lemma AnsweredRuns(s: State, r: Request) returns (actions: seq<Action>)
    ensures Run(s, actions) == Answered(s, r) && Allocate !in actions
  {
    var s1 := Next(s, Begin(r));
    var s2 := Next(s1, WriteHalf);
    var s3 := Next(s2, WriteRest);
    var s4 := Next(s3, StoreStatus);
    var s5 := Next(s4, Give);
    var s6 := Next(s5, Take);
    RunStep(s6, Read, []);
    RunStep(s5, Take, [Read] + []);
    RunStep(s4, Give, [Take] + ([Read] + []));
    RunStep(s3, StoreStatus, [Give] + ([Take] + ([Read] + [])));
    RunStep(s2, WriteRest, [StoreStatus] + ([Give] + ([Take] + ([Read] + []))));
    RunStep(s1, WriteHalf, [WriteRest] + ([StoreStatus] + ([Give] + ([Take] + ([Read] + [])))));
    actions := [Begin(r)] + ([WriteHalf] + ([WriteRest] + ([StoreStatus] + ([Give] + ([Take] + ([Read] + []))))));
    RunStep(s, Begin(r), [WriteHalf] + ([WriteRest] + ([StoreStatus] + ([Give] + ([Take] + ([Read] + []))))));
  }

  /** A run that sets up one call and no other. */
  predicate OneCall(actions: seq<Action>) {
    actions != [] && actions[0] == Allocate && Allocate !in actions[1..]
  }

  lemma {:induction false} NoSetupAllowed(s: State, actions: seq<Action>)
    requires Allocate !in actions
    requires Unarmed(s.caller) ==> s.outstanding == {}
    ensures AllAllowed(s, actions)
    decreases |actions|
  {
    if actions != [] {
      var next := Next(s, actions[0]);
      assert Unarmed(next.caller) ==> Unarmed(s.caller) && next.outstanding <= s.outstanding;
      NoSetupAllowed(next, actions[1..]);
    }
  }

  lemma CallStartedState(s: State)
    requires s.caller.Idle?
    ensures var t := CallStarted(s);
            && t.caller == Waiting(s.issued) && t.waiting && !t.done && t.callback == s.callback
            && s.outstanding <= t.outstanding && t.readings == s.readings
  {
    var s2 := Next(Next(s, Allocate), ClearResult);
    assert s2.caller == Cleared(s.issued);
    assert Next(Next(s2, Drain), Arm).caller == Armed(s.issued);
  }

  lemma FilledState(s: State, n: Request, r: Request)
    requires s.caller == Waiting(n) && s.waiting && s.callback.Quiet? && r in s.outstanding
    ensures var t := Next(Next(Next(s, Begin(r)), WriteHalf), WriteRest);
            && t.callback == Written(r) && t.result == Full(r) && t.caller == Waiting(n) && t.readings == s.readings
  {
    var s1 := Next(s, Begin(r));
    assert s1.callback == Claimed(r) && s1.caller == Waiting(n);
    assert Next(s1, WriteHalf).callback == Writing(r);
  }

  lemma GivenState(s: State, n: Request, r: Request)
    requires s.caller == Waiting(n) && s.callback == Written(r) && s.result == Full(r)
    ensures Next(Next(Next(Next(s, StoreStatus), Give), Take), Read).readings == s.readings + [Reading(n, Full(r), r)]
  {
    var s1 := Next(s, StoreStatus);
    assert s1.callback == Stamped(r) && s1.status == r && s1.caller == Waiting(n);
    var s2 := Next(s1, Give);
    assert s2.done && s2.caller == Waiting(n);
    assert Next(s2, Take).caller == Signalled(n);
  }

  lemma AnsweredState(s: State, n: Request, r: Request)
    requires s.caller == Waiting(n) && s.waiting && s.callback.Quiet? && r in s.outstanding
    ensures Answered(s, r).readings == s.readings + [Reading(n, Full(r), r)]
  {
    FilledState(s, n, r);
    GivenState(Next(Next(Next(s, Begin(r)), WriteHalf), WriteRest), n, r);
  }

  /** Set up a call while an abandoned request is outstanding, and its callback can
      answer the new call. */
  lemma OvertakenCallMisread(s: State, stale: Request) returns (actions: seq<Action>)
    requires s.caller.Idle? && s.callback.Quiet? && stale in s.outstanding
    ensures OneCall(actions) && Run(s, actions).readings == s.readings + [Reading(s.issued, Full(stale), stale)]
  {
    CallStartedState(s);
    AnsweredState(CallStarted(s), s.issued, stale);
    var tail := AnsweredRuns(CallStarted(s), stale);
    actions := CallStartedRuns(s, tail);
  }

  // ---- One call from beginning to end ----------------------------------------------------------

  /** Idle again, with nothing new outstanding, and the call's request deleted. */
  ghost predicate CallOver(s: State, after: State) {
    && after.caller.Idle? && after.callback.Quiet? && !after.waiting && !after.done
    && after.outstanding == s.outstanding && after.issued == s.issued + 1
    && after.deleted == s.deleted + multiset{s.issued}
  }

  /** The call set up on its own: the wait is armed and one request more is outstanding. */
  lemma CallSetUp(s: State)
    requires s.caller.Idle? && s.issued !in s.outstanding
    ensures CallStarted(s) == s.(caller := Waiting(s.issued), waiting := true, done := false, result := Blank,
                                 issued := s.issued + 1, outstanding := s.outstanding + {s.issued},
                                 started := s.started + {s.issued})
  {
    var cleared := Next(Next(s, Allocate), ClearResult);
    assert cleared == s.(caller := Cleared(s.issued), result := Blank, issued := s.issued + 1);
    var armed := Next(Next(cleared, Drain), Arm);
    assert armed == cleared.(caller := Armed(s.issued), waiting := true, done := false);
  }

  lemma CallbackFills(s: State, n: Request)
    requires s.callback == Claimed(n)
    ensures Next(Next(Next(Next(s, WriteHalf), WriteRest), StoreStatus), Give)
         == s.(callback := Given(n), result := Full(n), writers := s.writers + {n}, status := n, done := true)
  {
    var written := Next(Next(s, WriteHalf), WriteRest);
    assert written == s.(callback := Written(n), result := Full(n), writers := s.writers + {n});
    assert Next(written, StoreStatus) == written.(callback := Stamped(n), status := n);
  }

  lemma CallReads(s: State, n: Request)
    requires s.callback == Given(n) && s.done && (s.caller == Waiting(n) || s.caller == Blocked(n))
    ensures Next(Next(Next(s, Take), Read), Delete)
         == s.(caller := Idle, callback := Quiet, done := false, deleted := s.deleted + multiset{n},
               readings := s.readings + [Reading(n, s.result, s.status)])
  {
    var taken := Next(s, Take);
    assert taken == s.(caller := Signalled(n), done := false);
    assert Next(taken, Read) == taken.(caller := Idle, readings := s.readings + [Reading(n, s.result, s.status)]);
  }

  /** A call whose callback comes in time reads its own result, whole. */
  lemma CallAnswered(s: State)
    requires s.caller.Idle? && s.callback.Quiet? && s.issued !in s.outstanding
    ensures var after := Next(Answered(CallStarted(s), s.issued), Delete);
            CallOver(s, after) && after.readings == s.readings + [Reading(s.issued, Full(s.issued), s.issued)]
  {
    var n, started := s.issued, CallStarted(s);
    CallSetUp(s);
    var claimed := Next(started, Begin(n));
    assert claimed == started.(callback := Claimed(n), waiting := false, outstanding := started.outstanding - {n},
                               answered := s.answered + {n});
    CallbackFills(claimed, n);
    CallReads(Next(Next(Next(Next(claimed, WriteHalf), WriteRest), StoreStatus), Give), n);
    assert (s.outstanding + {n}) - {n} == s.outstanding;
  }

  /** A call given up on reads nothing; its callback, late, finds nobody and cleans up. */
  lemma CallGivenUp(s: State)
    requires s.caller.Idle? && s.callback.Quiet? && s.issued !in s.outstanding
    ensures var after := Next(Next(Next(Next(CallStarted(s), TimeOut), Exchange), Begin(s.issued)), Delete);
            CallOver(s, after) && after.readings == s.readings && s.issued in after.abandoned
  {
    var n, started := s.issued, CallStarted(s);
    CallSetUp(s);
    var late := Next(Next(started, TimeOut), Exchange);
    assert late == started.(caller := Idle, waiting := false, abandoned := s.abandoned + {n});
    assert Next(late, Begin(n)) == late.(callback := Late(n), outstanding := late.outstanding - {n});
    assert (s.outstanding + {n}) - {n} == s.outstanding;
  }

  /** The callback claims the wait just as it times out: the caller waits for what it writes. */
  lemma CallOvertakenByAnswer(s: State)
    requires s.caller.Idle? && s.callback.Quiet? && s.issued !in s.outstanding
    ensures var claimed := Next(Next(CallStarted(s), TimeOut), Begin(s.issued));
            var blocked := Next(claimed, Exchange);
            var given := Next(Next(Next(Next(blocked, WriteHalf), WriteRest), StoreStatus), Give);
            var after := Next(Next(Next(given, Take), Read), Delete);
            CallOver(s, after) && after.readings == s.readings + [Reading(s.issued, Full(s.issued), s.issued)]
  {
    var n, started := s.issued, CallStarted(s);
    CallSetUp(s);
    var claimed := Next(Next(started, TimeOut), Begin(n));
    assert claimed == started.(caller := TimedOut(n), callback := Claimed(n), waiting := false,
                               outstanding := started.outstanding - {n}, answered := s.answered + {n});
    var blocked := Next(claimed, Exchange);
    assert blocked == claimed.(caller := Blocked(n));
    CallbackFills(blocked, n);
    CallReads(Next(Next(Next(Next(blocked, WriteHalf), WriteRest), StoreStatus), Give), n);
    assert (s.outstanding + {n}) - {n} == s.outstanding;
  }

  /** A call that cannot be started deletes its request itself. */
  lemma CallRefused(s: State)
    requires s.caller.Idle? && s.callback.Quiet?
    ensures var armed := Next(Next(Next(Next(s, Allocate), ClearResult), Drain), Arm);
            var after := Next(Next(armed, Start(false)), DeleteFailed);
            CallOver(s, after) && after.readings == s.readings && after.started == s.started
  {
    var cleared := Next(Next(s, Allocate), ClearResult);
    assert cleared == s.(caller := Cleared(s.issued), result := Blank, issued := s.issued + 1);
    var armed := Next(Next(cleared, Drain), Arm);
    assert armed == cleared.(caller := Armed(s.issued), waiting := true, done := false);
  }

  lemma {:induction false} RunOn(s: State, a: seq<Action>, b: seq<Action>)
    ensures Run(s, a + b) == Run(Run(s, a), b)
    decreases |a|
  {
    if a == [] {
      assert a + b == b;
    } else {
      assert (a + b)[1..] == a[1..] + b;
      RunOn(Next(s, a[0]), a[1..], b);
    }
  }

  /** A call that times out comes to such a state, by a run that the handshake allows. */
  lemma AbandonedReached() returns (actions: seq<Action>)
    ensures AllAllowed(INITIAL, actions)
    ensures var s := Run(INITIAL, actions);
            s.caller.Idle? && s.callback.Quiet? && s.outstanding == {0} && s.issued == 1 && s.readings == []
  {
    var called := CallStarted(INITIAL);
    assert called.caller == Waiting(0) && called.waiting && !called.done && called.outstanding == {0};
    assert called.callback.Quiet? && called.issued == 1 && called.readings == [];
    var late := Next(called, TimeOut);
    actions := CallStartedRuns(INITIAL, [TimeOut] + ([Exchange] + []));
    RunStep(called, TimeOut, [Exchange] + []);
    RunStep(late, Exchange, []);
    NoSetupAllowed(Next(INITIAL, Allocate), actions[1..]);
  }

  /** So from the start: one call times out, and the next is told the first one's result. */
  lemma MisreadReached() returns (actions: seq<Action>)
    ensures Run(INITIAL, actions).readings == [Reading(1, Full(0), 0)]
  {
    var first := AbandonedReached();
    var second := OvertakenCallMisread(Run(INITIAL, first), 0);
    actions := first + second;
    RunOn(INITIAL, first, second);
  }

  /** From an idle, quiet state every wait of the next call is answered by its own
      callback, whatever happens, exactly when nothing is outstanding. */
  lemma NextCallSafeExactly(s: State)
    requires Inv(s) && s.caller.Idle? && s.callback.Quiet?
    ensures s.outstanding == {} <==>
      forall actions :: OneCall(actions) ==> GoodReadings(Run(s, actions))
  {
    if s.outstanding == {} {
      forall actions | OneCall(actions)
        ensures GoodReadings(Run(s, actions))
      {
        NoSetupAllowed(Next(s, Allocate), actions[1..]);
        AlwaysInv(s, actions);
      }
    } else {
      var stale :| stale in s.outstanding;
      var actions := OvertakenCallMisread(s, stale);
      var readings := Run(s, actions).readings;
      assert readings[|s.readings|].call == s.issued;
    }
  }

  /** From a call about to arm the wait, likewise: callbacks that land before are harmless. */
  lemma ArmingSafeExactly(s: State)
    requires Inv(s) && s.caller.Drained? && s.callback.Quiet?
    ensures s.outstanding == {} <==>
      forall actions :: Allocate !in actions ==> GoodReadings(Run(s, actions))
  {
    if s.outstanding == {} {
      forall actions | Allocate !in actions
        ensures GoodReadings(Run(s, actions))
      {
        NoSetupAllowed(s, actions);
        AlwaysInv(s, actions);
      }
    } else {
      var stale :| stale in s.outstanding;
      var n, armed := s.caller.r, Next(s, Arm);
      var waiting := Next(armed, Start(true));
      AnsweredState(waiting, n, stale);
      var tail := AnsweredRuns(waiting, stale);
      RunStep(armed, Start(true), tail);
      RunStep(s, Arm, [Start(true)] + tail);
      var actions := [Arm] + ([Start(true)] + tail);
      assert Run(s, actions).readings[|s.readings|] == Reading(n, Full(stale), stale);
      assert Allocate !in actions && !GoodReadings(Run(s, actions));
    }
  }
}
