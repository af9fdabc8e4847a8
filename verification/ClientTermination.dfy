/** Every run of the client is finite, and one that cannot go on has called every session back. */
module ClientTermination {
  import opened TraceContextCodec
  import opened ClientProtocol
  import opened ClientInvariant
  import opened ClientPreservation
  import opened ClientTheorems
  import opened ClientProgress

  // Every action but the start of a call uses up some of a finite amount of work.

  function StartWork(step: StartStep): nat {
    match step
    case StartLock => 24
    case StartInsert => 23
    case StartUnlock => 22
    case StartConnect => 21
  }

  function OpWork(op: Operation): nat {
    match op
    case Connect => 20
    case Write => 14
    case Read => 8
  }

  function CancelWork(step: CancelStep): nat {
    match step
    case CancelLock => 6
    case CancelFind => 5
    case CancelGuard(_) => 4
    case CancelMark(_) => 3
    case CancelRelease(_) => 2
    case CancelUnlock => 1
  }

  function HandlerWork(step: HandlerStep): nat {
    match step
    case HandlerEntry(c) => OpWork(c.Op()) - 1
    case HandlerLock(r) => OpWork(r.Next()) + 4
    case HandlerCheck(r) => OpWork(r.Next()) + 3
    case HandlerNext(r) => OpWork(r.Next()) + 2
    case HandlerTail => 1
  }

  function CompleteWork(step: CompleteStep): nat {
    match step
    case CompleteLock => 6
    case CompleteErase => 5
    case CompleteUnlock => 4
    case CompleteReport => 3
    case CompleteCall(_) => 2
    case CompleteReturn => 1
  }

  function TaskWork(k: Task): nat {
    match k
    case Starting(_, step) => StartWork(step)
    case Cancelling(_, step) => CancelWork(step)
    case Handling(_, step) => HandlerWork(step)
    case Completing(_, _, step) => CompleteWork(step)
  }

  ghost function TasksWork(tasks: map<Thread, Task>): nat
    decreases |tasks|
  {
    if tasks == map[] then 0
    else
      var t :| t in tasks;
      TaskWork(tasks[t]) + TasksWork(tasks - {t})
  }

  ghost function QueueWork(queue: multiset<PendingOp>): nat
    decreases |queue|
  {
    if queue == multiset{} then 0
    else
      var p :| p in queue;
      OpWork(p.op) + QueueWork(queue - multiset{p})
  }

  lemma {:induction false} TasksWorkSplit(tasks: map<Thread, Task>, t: Thread)
    requires t in tasks
    ensures TasksWork(tasks) == TaskWork(tasks[t]) + TasksWork(tasks - {t})
    decreases |tasks|
  {
    var u :| u in tasks && TasksWork(tasks) == TaskWork(tasks[u]) + TasksWork(tasks - {u});
    if u != t {
      TasksWorkSplit(tasks - {u}, t);
      TasksWorkSplit(tasks - {t}, u);
      assert tasks - {u} - {t} == tasks - {t} - {u};
    }
  }

  lemma {:induction false} QueueWorkSplit(queue: multiset<PendingOp>, p: PendingOp)
    requires p in queue
    ensures QueueWork(queue) == OpWork(p.op) + QueueWork(queue - multiset{p})
    decreases |queue|
  {
    var q :| q in queue && QueueWork(queue) == OpWork(q.op) + QueueWork(queue - multiset{q});
    if q != p {
      QueueWorkSplit(queue - multiset{q}, p);
      QueueWorkSplit(queue - multiset{p}, q);
      assert queue - multiset{q} - multiset{p} == queue - multiset{p} - multiset{q};
    }
  }

  lemma TasksWorkUpdate(tasks: map<Thread, Task>, t: Thread, k: Task)
    ensures TasksWork(tasks[t := k]) == TasksWork(tasks) + TaskWork(k) - (if t in tasks then TaskWork(tasks[t]) else 0)
  {
    TasksWorkSplit(tasks[t := k], t);
    assert tasks[t := k] - {t} == tasks - {t};
    if t in tasks {
      TasksWorkSplit(tasks, t);
    } else {
      assert tasks - {t} == tasks;
    }
  }

  lemma QueueWorkAdd(queue: multiset<PendingOp>, p: PendingOp)
    ensures QueueWork(queue + multiset{p}) == QueueWork(queue) + OpWork(p.op)
  {
    QueueWorkSplit(queue + multiset{p}, p);
    assert queue + multiset{p} - multiset{p} == queue;
  }

  /** The work that is left in a state, over all threads, all pending operations and the event loop. */
  ghost function Work(s: State): nat {
    TasksWork(s.tasks) + QueueWork(s.queue) + Bit(s.work) + Bit(!s.stopped)
  }

  /** What a new call brings in. */
  function NewWork(a: Action): nat {
    if a.BeginStart? then 25 else if a.BeginCancel? then 7 else 0
  }

  lemma ActionUsesWork(s: State, a: Action)
    requires Enabled(s, a)
    ensures Work(Apply(s, a)) + 1 <= Work(s) + NewWork(a)
  {
    match a
    case BeginStart(t, _, _, _) => TasksWorkUpdate(s.tasks, t, Starting(|s.sessions|, StartLock));
    case BeginCancel(t, id) => TasksWorkUpdate(s.tasks, t, Cancelling(id, CancelLock));
    case Dispatch(t, sid, c) =>
      TasksWorkUpdate(s.tasks, t, Handling(sid, HandlerEntry(c)));
      QueueWorkSplit(s.queue, PendingOp(sid, c.Op()));
    case Step(t) => StepUsesWork(s, t);
    case ResetWork =>
    case StopIo =>
  }

  /** A step of `t` replaces its task, or ends it, and may start one operation, within its own work. */
  ghost predicate Spends(s: State, s': State, t: Thread) {
    && t in s.tasks
    && s'.tasks == (if t in s'.tasks then s.tasks[t := s'.tasks[t]] else s.tasks - {t})
    && s'.work == s.work && s'.stopped == s.stopped && s'.ioThreads == s.ioThreads
    && ((s'.queue == s.queue && WorkOf(s', t) < WorkOf(s, t))
        || exists p :: s'.queue == s.queue + multiset{p} && WorkOf(s', t) + OpWork(p.op) < WorkOf(s, t))
  }

  function WorkOf(s: State, t: Thread): nat {
    if t in s.tasks then TaskWork(s.tasks[t]) else 0
  }

  lemma StartSpends(s: State, t: Thread)
    requires CanStep(s, t) && s.tasks[t].Starting?
    ensures Spends(s, StepStart(s, t), t)
  {
    if s.tasks[t].start.StartConnect? {
      assert StepStart(s, t).queue == s.queue + multiset{PendingOp(s.tasks[t].sid, Connect)};
    }
  }

  lemma HandlerSpends(s: State, t: Thread)
    requires CanStep(s, t) && s.tasks[t].Handling? && !s.tasks[t].handler.HandlerEntry?
    ensures Spends(s, StepHandler(s, t), t)
  {
    if s.tasks[t].handler.HandlerNext? {
      assert StepHandler(s, t).queue == s.queue + multiset{PendingOp(s.tasks[t].sid, s.tasks[t].handler.resume.Next())};
    }
  }

  lemma CancelSpends(s: State, t: Thread)
    requires CanStep(s, t) && s.tasks[t].Cancelling?
    ensures Spends(s, StepCancel(s, t), t)
  {
  }

  lemma EntrySpends(s: State, t: Thread)
    requires CanStep(s, t) && s.tasks[t].Handling? && s.tasks[t].handler.HandlerEntry?
    ensures Spends(s, StepEntry(s, t), t)
  {
  }

  lemma CompleteSpends(s: State, t: Thread)
    requires CanStep(s, t) && s.tasks[t].Completing?
    ensures Spends(s, StepComplete(s, t), t)
  {
  }

  lemma StepSpends(s: State, t: Thread)
    requires CanStep(s, t)
    ensures Spends(s, StepTask(s, t), t)
  {
    match s.tasks[t]
    case Starting(_, _) => StartSpends(s, t);
    case Cancelling(_, _) => CancelSpends(s, t);
    case Handling(_, step) =>
      if step.HandlerEntry? {
        EntrySpends(s, t);
      } else {
        HandlerSpends(s, t);
      }
    case Completing(_, _, _) => CompleteSpends(s, t);
  }

  lemma StepUsesWork(s: State, t: Thread)
    requires CanStep(s, t)
    ensures Work(StepTask(s, t)) < Work(s)
  {
    var s' := StepTask(s, t);
    StepSpends(s, t);
    TasksWorkSplit(s.tasks, t);
    if t in s'.tasks {
      TasksWorkUpdate(s.tasks, t, s'.tasks[t]);
    }
    if s'.queue != s.queue {
      var p :| s'.queue == s.queue + multiset{p} && WorkOf(s', t) + OpWork(p.op) < WorkOf(s, t);
      QueueWorkAdd(s.queue, p);
    }
  }

  function TotalNewWork(run: seq<Action>): nat {
    if run == [] then 0 else TotalNewWork(run[..|run| - 1]) + NewWork(run[|run| - 1])
  }

  /** Every run is finite: its length is bounded by the numbers of its start and cancel calls. */
  lemma {:induction false} RunsAreBounded(ioThreads: nat, run: seq<Action>)
    requires IsRun(ioThreads, run)
    ensures |run| + Work(Final(ioThreads, run)) <= TotalNewWork(run) + 2
    decreases |run|
  {
    if run != [] {
      RunsAreBounded(ioThreads, run[..|run| - 1]);
      ActionUsesWork(Final(ioThreads, run[..|run| - 1]), run[|run| - 1]);
    }
  }

  lemma {:induction false} IoThreadsConstant(ioThreads: nat, run: seq<Action>)
    requires IsRun(ioThreads, run)
    ensures Final(ioThreads, run).ioThreads == ioThreads
    decreases |run|
  {
    if run != [] {
      IoThreadsConstant(ioThreads, run[..|run| - 1]);
      var s, a := Final(ioThreads, run[..|run| - 1]), run[|run| - 1];
      if a.Step? {
        StepSpends(s, a.thread);
      }
    }
  }

  /**
    Every run can be completed: while the event loop is running with at least one thread,
    and no session has been found twice, either something other than a new call can
    happen, or no thread is busy and every session has been called back.
   */
  lemma QuietMeansAllCalledBack(ioThreads: nat, run: seq<Action>)
    requires IsRun(ioThreads, run) && ioThreads > 0 && !Final(ioThreads, run).stopped
    requires FoundAtMost(Final(ioThreads, run), 1)
    ensures var s := Final(ioThreads, run);
            || SomeTaskSteps(s)
            || (exists t, sid, c :: Enabled(s, Dispatch(t, sid, c)))
            || (s.tasks == map[] && s.queue == multiset{} && forall sid :: 0 <= sid < |s.sessions| ==> CalledBack(s, sid))
  {
    var s, w := Final(ioThreads, run), Places(ioThreads, run);
    IoThreadsConstant(ioThreads, run);
    if s.tasks != map[] {
      NoDeadlock(ioThreads, run);
    } else if s.queue != multiset{} {
      var p :| p in s.queue;
      var c := match p.op case Connect => Connected(OperationAborted, INVALID_CONTEXT) case Write => Written(OperationAborted)
                          case Read => Received(OperationAborted, "");
      assert Enabled(s, Dispatch(Io(0), p.sid, c));
    } else {
      forall sid | 0 <= sid < |w|
        ensures CalledBack(s, sid)
      {
        SessionFacts(s, w, sid);
        assert SessionPlaced(s, w, sid) by { assert SessionOk(s, w, sid); }
      }
    }
  }

  // Closing

  /** The work object is there until a close takes it away. */
  lemma {:induction false} WorkUntilClose(ioThreads: nat, run: seq<Action>)
    requires IsRun(ioThreads, run)
    ensures Final(ioThreads, run).work <==> ResetWork !in run
    ensures Enabled(Final(ioThreads, run), ResetWork) <==> ResetWork !in run
    decreases |run|
  {
    if run != [] {
      var before, a := run[..|run| - 1], run[|run| - 1];
      WorkUntilClose(ioThreads, before);
      assert run == before + [a];
    }
  }

  /** A close takes nothing from anybody: whatever could happen before can happen after it, with the same sessions. */
  lemma CloseLeavesTheRest(ioThreads: nat, run: seq<Action>, a: Action)
    requires IsRun(ioThreads, run) && Enabled(Final(ioThreads, run), ResetWork)
    requires Enabled(Final(ioThreads, run), a) && a != ResetWork
    ensures var s, s' := Final(ioThreads, run), Apply(Final(ioThreads, run), ResetWork);
            && Enabled(s', a) && !s'.work && s'.(work := s.work) == s
  {
  }

  /**
    Whatever action lets the event loop stop, after whatever run: at that point all sessions
    have been called back exactly if no start call is under way, and then the map is empty.
   */
  lemma LoopStopsWhenDone(ioThreads: nat, run: seq<Action>, a: Action)
    requires IsRun(ioThreads, run) && Enabled(Final(ioThreads, run), a)
    requires !Final(ioThreads, run).stopped && Apply(Final(ioThreads, run), a).stopped
    ensures var s := Apply(Final(ioThreads, run), a);
            && ResetWork in run && s.queue == multiset{}
            && ((forall sid :: 0 <= sid < |s.sessions| ==> CalledBack(s, sid))
                <==> (forall t :: t in s.tasks ==> !s.tasks[t].Starting?))
            && ((forall t :: t in s.tasks ==> !s.tasks[t].Starting?) ==> s.active == map[])
  {
    WorkUntilClose(ioThreads, run);
    CloseFinishesAll(ioThreads, run);
    var s, s' := Final(ioThreads, run), Apply(Final(ioThreads, run), a);
    assert forall sid: Sid :: CalledBack(s', sid) <==> CalledBack(s, sid);
  }

  /** The loop can stop exactly if it was closed, nothing is pending and no handler is running. */
  lemma LoopCanStopIffIdle(ioThreads: nat, run: seq<Action>)
    requires IsRun(ioThreads, run) && !Final(ioThreads, run).stopped
    ensures var s := Final(ioThreads, run);
            (exists a :: Enabled(s, a) && Apply(s, a).stopped)
            <==> ResetWork in run && s.queue == multiset{} && forall t :: t in s.tasks ==> t.User?
  {
    WorkUntilClose(ioThreads, run);
    var s := Final(ioThreads, run);
    if ResetWork in run && s.queue == multiset{} && forall t :: t in s.tasks ==> t.User? {
      assert Enabled(s, StopIo) && Apply(s, StopIo).stopped;
    }
  }

  /**
    A closed client gets to its end: as long as the loop has not stopped, something other
    than a new call can happen, or the loop can stop. With the bound on runs it does.
   */
  lemma ClosedLoopGoesOn(ioThreads: nat, run: seq<Action>)
    requires IsRun(ioThreads, run) && ioThreads > 0 && !Final(ioThreads, run).stopped && ResetWork in run
    requires FoundAtMost(Final(ioThreads, run), 1)
    ensures var s := Final(ioThreads, run);
            || SomeTaskSteps(s)
            || (exists t, sid, c :: Enabled(s, Dispatch(t, sid, c)))
            || (exists a :: Enabled(s, a) && Apply(s, a).stopped)
  {
    QuietMeansAllCalledBack(ioThreads, run);
    LoopCanStopIffIdle(ioThreads, run);
  }

  /** An idle user thread can make any call at any time. */
  lemma CallsCanBegin(ioThreads: nat, run: seq<Action>, t: Thread, id: RequestId, duration: nat, active: SpanContext)
    requires IsRun(ioThreads, run) && t.User? && t !in Final(ioThreads, run).tasks
    ensures Enabled(Final(ioThreads, run), BeginStart(t, id, duration, active))
    ensures Enabled(Final(ioThreads, run), BeginCancel(t, id))
  {
  }

  /** A pending operation can end in any way, on any idle thread of a loop that has not stopped. */
  lemma PendingCanEnd(ioThreads: nat, run: seq<Action>, t: nat, sid: Sid, c: Completion)
    requires IsRun(ioThreads, run) && !Final(ioThreads, run).stopped && t < ioThreads && Io(t) !in Final(ioThreads, run).tasks
    requires PendingOp(sid, c.Op()) in Final(ioThreads, run).queue
    ensures Enabled(Final(ioThreads, run), Dispatch(Io(t), sid, c))
  {
    IoThreadsConstant(ioThreads, run);
  }
}
