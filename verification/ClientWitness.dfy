/** Runs that show what the theorems cannot do without: two cancel calls, and a repeated id. */
module ClientWitness {
  import opened Wrappers
  import opened TraceContextCodec
  import opened ClientProtocol
  import opened ClientAlone
  import opened ClientTheorems
  import opened ClientProgress
  import opened ClientCalls
  import opened ClientInvariant

  const IO := Io(0)
  const CALLER := User(0)
  const CANCELLER := User(1)

  /** Steps are no calls. */
  lemma {:induction false} StepsCancelNothing(run: seq<Action>, t: Thread, n: nat, id: RequestId)
    ensures CancelCalls(run + Steps(t, n), id) == CancelCalls(run, id)
    decreases n
  {
    StepsPush(run, t, n);
    if n > 0 {
      StepsCancelNothing(run + [Step(t)], t, n - 1, id);
      assert (run + [Step(t)])[..|run|] == run;
    }
  }

  /** The runs below cancel no id but 7. */
  ghost predicate Cancels(run: seq<Action>, count: nat) {
    forall id :: CancelCalls(run, id) == if id == 7 then count else 0
  }

  lemma StepsCancels(run: seq<Action>, t: Thread, n: nat, count: nat)
    requires Cancels(run, count)
    ensures Cancels(run + Steps(t, n), count)
  {
    forall id
      ensures CancelCalls(run + Steps(t, n), id) == if id == 7 then count else 0
    {
      StepsCancelNothing(run, t, n, id);
    }
  }

  lemma CallCancels(run: seq<Action>, a: Action, count: nat)
    requires Cancels(run, count) && (a.BeginCancel? ==> a.id == 7)
    ensures Cancels(run + [a], count + Bit(a.BeginCancel?))
  {
    assert (run + [a])[..|run|] == run;
  }

  /** A run goes on with an action of a thread and some steps of the same thread. */
  lemma Extend(run: seq<Action>, count: nat, a: Action, t: Thread, n: nat, end: State) returns (more: seq<Action>)
    requires IsRun(1, run) && Enabled(Final(1, run), a) && StepMany(Apply(Final(1, run), a), t, n) == Some(end)
    requires Cancels(run, count) && (a.BeginCancel? ==> a.id == 7)
    ensures IsRun(1, more) && Final(1, more) == end && Cancels(more, count + Bit(a.BeginCancel?))
  {
    var first := run + [a];
    CallCancels(run, a, count);
    RunPush(1, run, a);
    StepManyExtends(1, first, t, n, end);
    StepsCancels(first, t, n, count + Bit(a.BeginCancel?));
    more := first + Steps(t, n);
  }

  /** One session whose connect is pending. */
  function Launched(c: SpanContext): State {
    Started(Init(1), 7, 10, c)
  }

  lemma LaunchRun(c: SpanContext) returns (run: seq<Action>)
    ensures IsRun(1, run) && Final(1, run) == Launched(c) && Cancels(run, 0)
  {
    StartRunsAlone(Init(1), CALLER, 7, 10, c);
    run := Extend([], 0, BeginStart(CALLER, 7, 10, c), CALLER, 4, Launched(c));
  }

  /** The connect has succeeded and its handler is about to take the cancel guard. */
  function InHandler(c: SpanContext): State {
    Launched(c).(sessions := [NewSession(7, 10, c).(drawn := Some(c))], queue := multiset{}, tasks := map[IO := Handling(0, HandlerLock(AfterConnect(c)))],
                 log := [Inserted(0), Completed(0, Connect, Success, "", Some(c))])
  }

  lemma HandlerRun(c: SpanContext) returns (run: seq<Action>)
    ensures IsRun(1, run) && Final(1, run) == InHandler(c) && Cancels(run, 0)
  {
    run := LaunchRun(c);
    var s0 := Apply(Launched(c), Dispatch(IO, 0, Connected(Success, c)));
    assert s0.queue == InHandler(c).queue && s0.log == InHandler(c).log;
    assert StepTask(s0, IO).tasks == InHandler(c).tasks;
    assert StepTask(s0, IO).sessions == InHandler(c).sessions;
    OneStep(s0, IO, 0);
    run := Extend(run, 0, Dispatch(IO, 0, Connected(Success, c)), IO, 1, InHandler(c));
  }

  /** A whole cancel call has marked the session, and the handler, which saw that, wants the sessions guard. */
  function Blocking(c: SpanContext): State {
    Guarded(Cancelled(InHandler(c), 7), IO, 0, Completing(0, ConnectCancelled, CompleteLock))
  }

  lemma BlockingRun(c: SpanContext) returns (run: seq<Action>)
    ensures IsRun(1, run) && Final(1, run) == Blocking(c) && Cancels(run, 1)
  {
    run := HandlerRun(c);
    CancelRunsAlone(InHandler(c), CANCELLER, 7);
    run := Extend(run, 0, BeginCancel(CANCELLER, 7), CANCELLER, 6, Cancelled(InHandler(c), 7));
    LockRunsAlone(Cancelled(InHandler(c), 7), IO, 0, AfterConnect(c), 0);
    StepManyExtends(1, run, IO, 2, Blocking(c));
    StepsCancels(run, IO, 2, 1);
    run := run + Steps(IO, 2);
  }

  /** A second cancel call holds the sessions guard and waits for the cancel guard. */
  function Stuck(c: SpanContext): State {
    var s := Blocking(c);
    s.(sessionsGuard := Some(CANCELLER), log := s.log + [Found(0)], tasks := s.tasks[CANCELLER := Cancelling(7, CancelGuard(0))])
  }

  lemma StuckRun(c: SpanContext) returns (run: seq<Action>)
    ensures IsRun(1, run) && Final(1, run) == Stuck(c) && Cancels(run, 2)
  {
    run := BlockingRun(c);
    var s0 := Apply(Blocking(c), BeginCancel(CANCELLER, 7));
    var s1 := s0.(sessionsGuard := Some(CANCELLER), tasks := s0.tasks[CANCELLER := Cancelling(7, CancelFind)]);
    OneStep(s0, CANCELLER, 1);
    OneStep(s1, CANCELLER, 0);
    assert StepTask(s1, CANCELLER).tasks == Stuck(c).tasks;
    run := Extend(run, 1, BeginCancel(CANCELLER, 7), CANCELLER, 2, Stuck(c));
  }

  lemma FoundInStuck(c: SpanContext, sid: Sid)
    ensures FoundCount(Stuck(c).log, sid) == if sid == 0 then 2 else 0
  {
    assert Stuck(c).log == [Inserted(0), Completed(0, Connect, Success, "", Some(c)), Found(0), Found(0)];
  }

  lemma StuckCannotStep(c: SpanContext)
    ensures CANCELLER in Stuck(c).tasks && !SomeTaskSteps(Stuck(c)) && GuardCycle(Stuck(c), CANCELLER, IO, 0)
  {
  }

  /**
    Two cancel calls of one session can block the client for good: the first one marks the
    session, the handler sees the mark and waits for the sessions guard while it holds the
    cancel guard, and the second one holds the sessions guard and waits for the cancel guard.
   */
  lemma TwoCancelsDeadlock(c: SpanContext) returns (run: seq<Action>)
    ensures IsRun(1, run) && Cancels(run, 2)
    ensures var s := Final(1, run);
            && FoundCount(s.log, 0) == 2 && s.tasks != map[]
            && FoundAtMost(s, 2) && !SomeTaskSteps(s)
            && GuardCycle(s, CANCELLER, IO, 0)
  {
    run := StuckRun(c);
    StuckCannotStep(c);
    forall sid: Sid
      ensures FoundCount(Final(1, run).log, sid) == if sid == 0 then 2 else 0
    {
      FoundInStuck(c, sid);
    }
  }

  ghost predicate StuckAfter(ioThreads: nat, run: seq<Action>) {
    IsRun(ioThreads, run) && Final(ioThreads, run).tasks != map[] && !SomeTaskSteps(Final(ioThreads, run))
  }

  /** No run that finds each session at most `limit` times gets stuck. */
  ghost predicate NeverStuckByFinds(limit: nat) {
    forall ioThreads: nat, run: seq<Action> ::
      StuckAfter(ioThreads, run) ==> !FoundAtMost(Final(ioThreads, run), limit)
  }

  /** No run that cancels each id at most `limit` times gets stuck. */
  ghost predicate NeverStuckByCalls(limit: nat) {
    forall ioThreads: nat, run: seq<Action> :: StuckAfter(ioThreads, run) ==> !CancelsAtMost(run, limit)
  }

  /** The client is free of deadlocks exactly when no session is found twice, and exactly when no id is cancelled twice. */
  lemma NeverStuckIffOneCancel(limit: nat, c: SpanContext)
    ensures NeverStuckByFinds(limit) <==> limit <= 1
    ensures NeverStuckByCalls(limit) <==> limit <= 1
  {
    if limit <= 1 {
      forall ioThreads: nat, run: seq<Action> | StuckAfter(ioThreads, run)
        ensures !FoundAtMost(Final(ioThreads, run), limit) && !CancelsAtMost(run, limit)
      {
        if FoundAtMost(Final(ioThreads, run), 1) {
          NoDeadlock(ioThreads, run);
        }
        if CancelsAtMost(run, 1) {
          NoDeadlockIfCancelledOnce(ioThreads, run);
        }
      }
    } else {
      var run := TwoCancelsDeadlock(c);
      assert StuckAfter(1, run) && FoundAtMost(Final(1, run), limit) && CancelsAtMost(run, limit);
    }
  }

  /** Two sessions under one id. */
  function Repeated(c: SpanContext): State {
    Started(Launched(c), 7, 10, c)
  }

  lemma RepeatedFields(c: SpanContext)
    ensures var s := Repeated(c);
            && s.log == [Inserted(0), Inserted(1)] && s.sessions == [NewSession(7, 10, c), NewSession(7, 10, c)]
            && s.active == map[7 := 1]
  {
  }

  /**
    A second session under the same id takes the first one's entry: the first is live and
    cannot be found any more, so a cancel call of that id marks the second.
   */
  lemma RepeatedIdHidesSession(c: SpanContext) returns (run: seq<Action>)
    ensures IsRun(1, run)
    ensures var s := Final(1, run);
            && |s.sessions| == 2 && s.active == map[7 := 1]
            && Inserted(0) in s.log && Erased(0) !in s.log && !Mapped(s, 0) && !MapExact(s)
            && Cancelled(s, 7).sessions == [s.sessions[0], s.sessions[1].(wasCancelled := true)]
  {
    run := LaunchRun(c);
    StartRunsAlone(Launched(c), CALLER, 7, 10, c);
    run := Extend(run, 0, BeginStart(CALLER, 7, 10, c), CALLER, 4, Repeated(c));
    RepeatedFields(c);
    assert !Mapped(Repeated(c), 0);
  }
}
