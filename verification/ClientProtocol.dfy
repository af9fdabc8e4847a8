/**
  The asynchronous client as a state machine. One action is one access to shared state:
  taking or releasing a mutex, one read or write of a session or of the session map, the
  start or the completion of an asynchronous operation. Any thread may act next.
 */
module ClientProtocol {
  import opened Wrappers
  import opened TraceContextCodec
  import opened WireFrame

  type RequestId = int

  /** A session's number is its position in the order of creation; request ids may repeat. */
  type Sid = nat

  datatype ErrorCode = Success | OperationAborted | OtherError(value: int)

  datatype Thread = Io(index: nat) | User(name: nat)

  datatype Operation = Connect | Write | Read

  datatype PendingOp = PendingOp(sid: Sid, op: Operation)

  /** A request line, kept as the parts it is written from: the duration and the span context of its writer. */
  datatype Request = Request(duration: nat, active: SpanContext)
  {
    function Line(): string {
      RequestLine(duration, TraceInfo(active))
    }
  }

  /**
    The span that the tracer starts under a parent, from the ids that it draws: a child of a
    valid parent is in its parent's trace. A tracer that is off draws invalid ids.
   */
  function StartedUnder(parent: SpanContext, drawn: SpanContext): SpanContext {
    if parent.IsValid() && drawn.IsValid() then drawn.(traceId := parent.traceId) else drawn
  }

  lemma ChildSharesTrace(parent: SpanContext, drawn: SpanContext)
    ensures var span := StartedUnder(parent, drawn);
            && (span.IsValid() <==> drawn.IsValid()) && span.spanId == drawn.spanId && span.flags == drawn.flags
            && span.traceId == if parent.IsValid() && drawn.IsValid() then parent.traceId else drawn.traceId
  {
  }

  /**
    `caller` is the context of the start call's span, which the connect handler captures;
    `drawn` are the ids of the span that a successful connect hands to its handler and to
    the handlers after it.
   */
  datatype Session = Session(
    id: RequestId, caller: SpanContext, request: Request, response: string, ec: ErrorCode, drawn: Option<SpanContext>,
    wasCancelled: bool, cancelGuard: Option<Thread>)
  {
    /** The code that `onRequestComplete` reports. */
    function Verdict(): ErrorCode {
      if ec == Success && wasCancelled then OperationAborted else ec
    }
  }

  /** The five places that call `onRequestComplete`. Two of them hold the session's cancel guard. */
  datatype CallSite = ConnectFailed | ConnectCancelled | WriteFailed | WriteCancelled | ReadDone
  {
    predicate Guarded() {
      ConnectCancelled? || WriteCancelled?
    }

    function Op(): Operation {
      if ConnectFailed? || ConnectCancelled? then Connect
      else if WriteFailed? || WriteCancelled? then Write
      else Read
    }
  }

  /** A handler that has seen its operation succeed and will start the next one. */
  datatype Resume = AfterConnect(drawn: SpanContext) | AfterWrite
  {
    function Next(): Operation {
      if AfterConnect? then Write else Read
    }

    function CancelledSite(): CallSite {
      if AfterConnect? then ConnectCancelled else WriteCancelled
    }

    /** The connect handler replaces the request by a line with the context of its own span. */
    function Prepare(x: Session): Session {
      if AfterConnect? then x.(request := Request(SENT_DURATION, StartedUnder(x.caller, drawn))) else x
    }
  }

  /** How an operation ended. A connect handler that starts its span gets `drawn` from the tracer. */
  datatype Completion =
    | Connected(ec: ErrorCode, drawn: SpanContext)
    | Written(ec: ErrorCode)
    | Received(ec: ErrorCode, line: string)
  {
    function Op(): Operation {
      if Connected? then Connect else if Written? then Write else Read
    }

    function FailureSite(): CallSite {
      if Connected? then ConnectFailed else if Written? then WriteFailed else ReadDone
    }

    function Resume(): Resume
      requires !Received?
    {
      if Connected? then AfterConnect(drawn) else AfterWrite
    }

    /** What a successful read leaves in the session. */
    function Text(): string {
      if Received? && ec == Success then line else ""
    }

    /** What a successful connect gives to the handlers. */
    function Drawn(): Option<SpanContext> {
      if Connected? && ec == Success then Some(drawn) else None
    }
  }

  // Where a thread is, named after what it does next.

  /** In `emulateLongComputationOp`. */
  datatype StartStep = StartLock | StartInsert | StartUnlock | StartConnect

  /** In `cancelRequest`. */
  datatype CancelStep =
    CancelLock | CancelFind | CancelGuard(sid: Sid) | CancelMark(sid: Sid) | CancelRelease(sid: Sid) | CancelUnlock

  /** In the connect, write or read handler. */
  datatype HandlerStep =
    | HandlerEntry(completion: Completion)
    | HandlerLock(resume: Resume)
    | HandlerCheck(resume: Resume)
    | HandlerNext(resume: Resume)
    | HandlerTail

  /** In `onRequestComplete` and the return from it to the end of the handler. */
  datatype CompleteStep = CompleteLock | CompleteErase | CompleteUnlock | CompleteReport | CompleteCall(ec: ErrorCode) | CompleteReturn

  datatype Task =
    | Starting(sid: Sid, start: StartStep)
    | Cancelling(id: RequestId, cancel: CancelStep)
    | Handling(sid: Sid, handler: HandlerStep)
    | Completing(sid: Sid, site: CallSite, complete: CompleteStep)

  /** What an observer sees of the sessions. */
  datatype Event =
    | Inserted(sid: Sid)
    | Found(sid: Sid)
    | Completed(sid: Sid, op: Operation, ec: ErrorCode, text: string, drawn: Option<SpanContext>)
    | Erased(sid: Sid)
    | Called(sid: Sid, id: RequestId, response: string, ec: ErrorCode)

  datatype State = State(
    ioThreads: nat,
    sessions: seq<Session>,
    active: map<RequestId, Sid>,
    sessionsGuard: Option<Thread>,
    queue: multiset<PendingOp>,
    tasks: map<Thread, Task>,
    work: bool,
    stopped: bool,
    log: seq<Event>)

  function Init(ioThreads: nat): State {
    State(ioThreads, [], map[], None, multiset{}, map[], true, false, [])
  }

  datatype Action =
    | BeginStart(thread: Thread, id: RequestId, duration: nat, active: SpanContext)
    | BeginCancel(thread: Thread, id: RequestId)
    | Dispatch(thread: Thread, sid: Sid, completion: Completion)
    | Step(thread: Thread)
    | ResetWork
    | StopIo

  /** The session a task works on, if any. */
  function TaskSid(k: Task): Option<Sid> {
    match k
    case Starting(sid, _) => Some(sid)
    case Cancelling(_, c) => if c.CancelGuard? || c.CancelMark? || c.CancelRelease? then Some(c.sid) else None
    case Handling(sid, _) => Some(sid)
    case Completing(sid, _, _) => Some(sid)
  }

  predicate WantsSessions(k: Task) {
    match k
    case Starting(_, step) => step.StartLock?
    case Cancelling(_, step) => step.CancelLock?
    case Handling(_, _) => false
    case Completing(_, _, step) => step.CompleteLock?
  }

  predicate WantsGuard(k: Task) {
    match k
    case Starting(_, _) => false
    case Cancelling(_, step) => step.CancelGuard?
    case Handling(_, step) => step.HandlerLock?
    case Completing(_, _, _) => false
  }

  /** A thread in a task can act unless it waits for a mutex that is taken. */
  predicate CanStep(s: State, t: Thread) {
    && t in s.tasks
    && var k := s.tasks[t];
    && (TaskSid(k).Some? ==> TaskSid(k).value < |s.sessions|)
    && (WantsSessions(k) ==> s.sessionsGuard.None?)
    && (WantsGuard(k) ==> s.sessions[TaskSid(k).value].cancelGuard.None?)
  }

  predicate Enabled(s: State, a: Action) {
    match a
    case BeginStart(t, _, _, _) => t.User? && t !in s.tasks
    case BeginCancel(t, _) => t.User? && t !in s.tasks
    case Dispatch(t, sid, c) =>
      t.Io? && t.index < s.ioThreads && t !in s.tasks && !s.stopped && PendingOp(sid, c.Op()) in s.queue
    case Step(t) => CanStep(s, t)
    case ResetWork => s.work
    // the event loop runs out of work: nothing pending and no handler running
    case StopIo => !s.work && !s.stopped && s.queue == multiset{} && forall t :: t in s.tasks ==> t.User?
  }

  function StepStart(s: State, t: Thread): (s': State)
    requires CanStep(s, t) && s.tasks[t].Starting?
    ensures |s'.sessions| == |s.sessions| && s'.work == s.work && s'.stopped == s.stopped && s'.ioThreads == s.ioThreads
  {
    var sid := s.tasks[t].sid;
    match s.tasks[t].start
    case StartLock => s.(sessionsGuard := Some(t), tasks := s.tasks[t := Starting(sid, StartInsert)])
    case StartInsert =>
      s.(active := s.active[s.sessions[sid].id := sid], log := s.log + [Inserted(sid)],
         tasks := s.tasks[t := Starting(sid, StartUnlock)])
    case StartUnlock => s.(sessionsGuard := None, tasks := s.tasks[t := Starting(sid, StartConnect)])
    case StartConnect => s.(queue := s.queue + multiset{PendingOp(sid, Connect)}, tasks := s.tasks - {t})
  }

  function StepCancel(s: State, t: Thread): (s': State)
    requires CanStep(s, t) && s.tasks[t].Cancelling?
    ensures |s'.sessions| == |s.sessions| && s'.work == s.work && s'.stopped == s.stopped && s'.ioThreads == s.ioThreads
  {
    var id := s.tasks[t].id;
    match s.tasks[t].cancel
    case CancelLock => s.(sessionsGuard := Some(t), tasks := s.tasks[t := Cancelling(id, CancelFind)])
    case CancelFind =>
      if id in s.active then
        s.(log := s.log + [Found(s.active[id])], tasks := s.tasks[t := Cancelling(id, CancelGuard(s.active[id]))])
      else s.(tasks := s.tasks[t := Cancelling(id, CancelUnlock)])
    case CancelGuard(sid) =>
      s.(sessions := s.sessions[sid := s.sessions[sid].(cancelGuard := Some(t))],
         tasks := s.tasks[t := Cancelling(id, CancelMark(sid))])
    // marks the session and cancels its socket, whose pending operation may then complete with any code
    case CancelMark(sid) =>
      s.(sessions := s.sessions[sid := s.sessions[sid].(wasCancelled := true)],
         tasks := s.tasks[t := Cancelling(id, CancelRelease(sid))])
    case CancelRelease(sid) =>
      s.(sessions := s.sessions[sid := s.sessions[sid].(cancelGuard := None)],
         tasks := s.tasks[t := Cancelling(id, CancelUnlock)])
    case CancelUnlock => s.(sessionsGuard := None, tasks := s.tasks - {t})
  }

  /** The body of a handler up to its first mutex: look at the code the operation ended with. */
  function StepEntry(s: State, t: Thread): (s': State)
    requires CanStep(s, t) && s.tasks[t].Handling? && s.tasks[t].handler.HandlerEntry?
    ensures |s'.sessions| == |s.sessions| && s'.work == s.work && s'.stopped == s.stopped && s'.ioThreads == s.ioThreads
  {
    var sid, c := s.tasks[t].sid, s.tasks[t].handler.completion;
    var x := s.sessions[sid];
    if c.ec != Success then
      s.(sessions := s.sessions[sid := x.(ec := c.ec)], tasks := s.tasks[t := Completing(sid, c.FailureSite(), CompleteLock)])
    else if c.Received? then
      s.(sessions := s.sessions[sid := x.(response := c.line)], tasks := s.tasks[t := Completing(sid, ReadDone, CompleteLock)])
    else if c.Connected? then
      s.(sessions := s.sessions[sid := x.(drawn := Some(c.drawn))], tasks := s.tasks[t := Handling(sid, HandlerLock(c.Resume()))])
    else s.(tasks := s.tasks[t := Handling(sid, HandlerLock(c.Resume()))])
  }

  function StepHandler(s: State, t: Thread): (s': State)
    requires CanStep(s, t) && s.tasks[t].Handling? && !s.tasks[t].handler.HandlerEntry?
    ensures |s'.sessions| == |s.sessions| && s'.work == s.work && s'.stopped == s.stopped && s'.ioThreads == s.ioThreads
  {
    var sid := s.tasks[t].sid;
    var x := s.sessions[sid];
    match s.tasks[t].handler
    case HandlerLock(r) =>
      s.(sessions := s.sessions[sid := x.(cancelGuard := Some(t))], tasks := s.tasks[t := Handling(sid, HandlerCheck(r))])
    case HandlerCheck(r) =>
      s.(tasks := s.tasks[t := if x.wasCancelled then Completing(sid, r.CancelledSite(), CompleteLock)
                               else Handling(sid, HandlerNext(r))])
    // the next operation starts while this handler still holds the cancel guard
    case HandlerNext(r) =>
      s.(sessions := s.sessions[sid := r.Prepare(x)], queue := s.queue + multiset{PendingOp(sid, r.Next())},
         tasks := s.tasks[t := Handling(sid, HandlerTail)])
    case HandlerTail => s.(sessions := s.sessions[sid := x.(cancelGuard := None)], tasks := s.tasks - {t})
  }

  function StepComplete(s: State, t: Thread): (s': State)
    requires CanStep(s, t) && s.tasks[t].Completing?
    ensures |s'.sessions| == |s.sessions| && s'.work == s.work && s'.stopped == s.stopped && s'.ioThreads == s.ioThreads
  {
    var Completing(sid, site, step) := s.tasks[t];
    match step
    case CompleteLock => s.(sessionsGuard := Some(t), tasks := s.tasks[t := Completing(sid, site, CompleteErase)])
    case CompleteErase =>
      s.(active := s.active - {s.sessions[sid].id}, log := s.log + [Erased(sid)],
         tasks := s.tasks[t := Completing(sid, site, CompleteUnlock)])
    case CompleteUnlock => s.(sessionsGuard := None, tasks := s.tasks[t := Completing(sid, site, CompleteReport)])
    // the one read of the flag without its guard
    case CompleteReport => s.(tasks := s.tasks[t := Completing(sid, site, CompleteCall(s.sessions[sid].Verdict()))])
    case CompleteCall(ec) =>
      s.(log := s.log + [Called(sid, s.sessions[sid].id, s.sessions[sid].response, ec)],
         tasks := s.tasks[t := Completing(sid, site, CompleteReturn)])
    case CompleteReturn =>
      if site.Guarded() then
        s.(sessions := s.sessions[sid := s.sessions[sid].(cancelGuard := None)], tasks := s.tasks - {t})
      else s.(tasks := s.tasks - {t})
  }

  function StepTask(s: State, t: Thread): (s': State)
    requires CanStep(s, t)
    ensures |s'.sessions| == |s.sessions| && s'.work == s.work && s'.stopped == s.stopped && s'.ioThreads == s.ioThreads
  {
    match s.tasks[t]
    case Starting(_, _) => StepStart(s, t)
    case Cancelling(_, _) => StepCancel(s, t)
    case Handling(_, step) => if step.HandlerEntry? then StepEntry(s, t) else StepHandler(s, t)
    case Completing(_, _, _) => StepComplete(s, t)
  }

  function NewSession(id: RequestId, duration: nat, active: SpanContext): Session {
    Session(id, active, Request(duration, active), "", Success, None, false, None)
  }

  function Apply(s: State, a: Action): State
    requires Enabled(s, a)
  {
    match a
    case BeginStart(t, id, duration, active) =>
      s.(sessions := s.sessions + [NewSession(id, duration, active)],
         tasks := s.tasks[t := Starting(|s.sessions|, StartLock)])
    case BeginCancel(t, id) => s.(tasks := s.tasks[t := Cancelling(id, CancelLock)])
    case Dispatch(t, sid, c) =>
      s.(queue := s.queue - multiset{PendingOp(sid, c.Op())},
         log := s.log + [Completed(sid, c.Op(), c.ec, c.Text(), c.Drawn())],
         tasks := s.tasks[t := Handling(sid, HandlerEntry(c))])
    case Step(t) => StepTask(s, t)
    case ResetWork => s.(work := false)
    case StopIo => s.(stopped := true)
  }

  /** A run is the sequence of its actions. */
  predicate IsRun(ioThreads: nat, run: seq<Action>)
    decreases |run|, 0
  {
    run == [] || (IsRun(ioThreads, run[..|run| - 1]) && Enabled(Final(ioThreads, run[..|run| - 1]), run[|run| - 1]))
  }

  function Final(ioThreads: nat, run: seq<Action>): State
    requires IsRun(ioThreads, run)
    decreases |run|, 1
  {
    if run == [] then Init(ioThreads) else Apply(Final(ioThreads, run[..|run| - 1]), run[|run| - 1])
  }

  /** The events of one session in their order, without the lookups by cancel calls. */
  function Trace(log: seq<Event>, sid: Sid): seq<Event> {
    if log == [] then []
    else
      var e := log[|log| - 1];
      var before := Trace(log[..|log| - 1], sid);
      if e.sid == sid && !e.Found? then before + [e] else before
  }

  /** How often cancel calls have found the session. */
  function FoundCount(log: seq<Event>, sid: Sid): nat {
    multiset(log)[Found(sid)]
  }
}
