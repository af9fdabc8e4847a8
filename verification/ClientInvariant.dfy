/** What every reachable state of the client keeps. */
module ClientInvariant {
  import opened Wrappers
  import opened TraceContextCodec
  import opened WireFrame
  import opened ClientProtocol

  /**
    Where the work of a session is: with the thread whose task continues it, in the one
    operation that is pending, or over. A witness of the invariant, not part of the state.
   */
  datatype Place = WithThread(thread: Thread) | Queued(op: Operation) | Finished(site: CallSite)

  /** A task that carries its session's work on, as opposed to a cancel call or a returning handler. */
  predicate Carries(k: Task, sid: Sid) {
    match k
    case Starting(x, _) => x == sid
    case Cancelling(_, _) => false
    case Handling(x, step) => x == sid && !step.HandlerTail?
    case Completing(x, _, step) => x == sid && !step.CompleteReturn?
  }

  predicate HoldsSessions(k: Task) {
    match k
    case Starting(_, step) => step.StartInsert? || step.StartUnlock?
    case Cancelling(_, step) => !step.CancelLock?
    case Handling(_, _) => false
    case Completing(_, _, step) => step.CompleteErase? || step.CompleteUnlock?
  }

  predicate HoldsGuard(k: Task, sid: Sid) {
    match k
    case Starting(_, _) => false
    case Cancelling(_, step) => step == CancelMark(sid) || step == CancelRelease(sid)
    case Handling(x, step) => x == sid && !step.HandlerEntry? && !step.HandlerLock?
    case Completing(x, site, _) => x == sid && site.Guarded()
  }

  predicate UserTask(k: Task) {
    k.Starting? || k.Cancelling?
  }

  /** The trace of a session up to the start of an operation. */
  function Before(sid: Sid, op: Operation, drawn: Option<SpanContext>): seq<Event> {
    match op
    case Connect => [Inserted(sid)]
    case Write => [Inserted(sid), Completed(sid, Connect, Success, "", drawn)]
    case Read => [Inserted(sid), Completed(sid, Connect, Success, "", drawn), Completed(sid, Write, Success, "", None)]
  }

  /** The last operation of a session, as its completion finds it. */
  function LastOf(sid: Sid, site: CallSite, x: Session): Event {
    Completed(sid, site.Op(), x.ec, x.response, if site.ConnectCancelled? then x.drawn else None)
  }

  /** The trace of a session up to its completion from a given place. */
  function Ended(sid: Sid, site: CallSite, x: Session): seq<Event> {
    Before(sid, site.Op(), x.drawn) + [LastOf(sid, site, x)]
  }

  predicate Clean(x: Session) {
    x.ec == Success && x.response == ""
  }

  /** What each call of `onRequestComplete` may rely on. */
  predicate SiteExplained(site: CallSite, x: Session) {
    match site
    case ConnectFailed => x.ec != Success && x.response == ""
    case WriteFailed => x.ec != Success && x.response == ""
    case ConnectCancelled => Clean(x) && x.wasCancelled && x.drawn.Some?
    case WriteCancelled => Clean(x) && x.wasCancelled
    case ReadDone => x.ec == Success || x.response == ""
  }

  /** The events that `onRequestComplete` has added so far. */
  function CompletionEvents(sid: Sid, step: CompleteStep): seq<Event> {
    if step.CompleteLock? || step.CompleteErase? then [] else [Erased(sid)]
  }

  predicate TaskTraced(k: Task, sid: Sid, tr: seq<Event>, x: Session) {
    match k
    case Starting(_, step) =>
      tr == (if step.StartLock? || step.StartInsert? then [] else Before(sid, Connect, None)) && Clean(x)
    case Cancelling(_, _) => true
    case Handling(_, step) => HandlerTraced(step, sid, tr, x)
    case Completing(_, site, step) =>
      && tr == Ended(sid, site, x) + CompletionEvents(sid, step)
      && SiteExplained(site, x)
      && (step.CompleteCall? ==> step.ec == x.Verdict())
  }

  predicate HandlerTraced(step: HandlerStep, sid: Sid, tr: seq<Event>, x: Session) {
    && Clean(x)
    && match step
       case HandlerEntry(c) =>
         tr == Before(sid, c.Op(), x.drawn) + [Completed(sid, c.Op(), c.ec, c.Text(), c.Drawn())]
       case HandlerLock(r) => ResumeTraced(r, sid, tr, x)
       case HandlerCheck(r) => ResumeTraced(r, sid, tr, x)
       case HandlerNext(r) => ResumeTraced(r, sid, tr, x)
       case HandlerTail => true
  }

  predicate ResumeTraced(r: Resume, sid: Sid, tr: seq<Event>, x: Session) {
    tr == Before(sid, r.Next(), x.drawn) && (r.AfterConnect? ==> x.drawn == Some(r.drawn))
  }

  /** The whole life of a session whose callback has run. */
  predicate FinishedTrace(site: CallSite, sid: Sid, tr: seq<Event>, x: Session) {
    && tr == Ended(sid, site, x) + [Erased(sid), Called(sid, x.id, x.response, x.Verdict())]
    && SiteExplained(site, x)
  }

  predicate SessionTraced(s: State, w: seq<Place>, sid: Sid)
    requires sid < |w| == |s.sessions|
  {
    var tr := Trace(s.log, sid);
    match w[sid]
    case WithThread(t) => t in s.tasks && TaskTraced(s.tasks[t], sid, tr, s.sessions[sid])
    case Queued(op) => tr == Before(sid, op, s.sessions[sid].drawn) && Clean(s.sessions[sid])
    case Finished(site) => FinishedTrace(site, sid, tr, s.sessions[sid])
  }

  /** The operation whose start a session has reached. */
  predicate PastConnect(s: State, w: seq<Place>, sid: Sid)
    requires sid < |w|
  {
    match w[sid]
    case WithThread(t) => t in s.tasks && PastConnectTask(s.tasks[t])
    case Queued(op) => op != Connect
    case Finished(site) => site.Op() != Connect
  }

  predicate PastConnectTask(k: Task) {
    match k
    case Starting(_, _) => false
    case Cancelling(_, _) => false
    case Handling(_, step) =>
      (match step
       case HandlerEntry(c) => !c.Connected?
       case HandlerLock(r) => r.AfterWrite?
       case HandlerCheck(r) => r.AfterWrite?
       case HandlerNext(r) => r.AfterWrite?
       case HandlerTail => false)
    case Completing(_, site, _) => site.Op() != Connect
  }

  /** The session's map entry has been made. */
  predicate InsertedAt(s: State, w: seq<Place>, sid: Sid)
    requires sid < |w|
  {
    w[sid].WithThread? && w[sid].thread in s.tasks && s.tasks[w[sid].thread].Starting? ==>
      !s.tasks[w[sid].thread].start.StartLock? && !s.tasks[w[sid].thread].start.StartInsert?
  }

  /** The session's completion has erased the entry under its id. */
  predicate ErasedAt(s: State, w: seq<Place>, sid: Sid)
    requires sid < |w|
  {
    match w[sid]
    case WithThread(t) =>
      && t in s.tasks && s.tasks[t].Completing?
      && !s.tasks[t].complete.CompleteLock? && !s.tasks[t].complete.CompleteErase?
    case Queued(_) => false
    case Finished(_) => true
  }

  /** A cancel call that has found the session and not yet marked it; it holds the sessions guard. */
  predicate BeingCancelled(s: State, sid: Sid) {
    && s.sessionsGuard.Some? && s.sessionsGuard.value in s.tasks
    && s.tasks[s.sessionsGuard.value].Cancelling?
    && (s.tasks[s.sessionsGuard.value].cancel == CancelGuard(sid) || s.tasks[s.sessionsGuard.value].cancel == CancelMark(sid))
  }

  function Bit(b: bool): nat {
    if b then 1 else 0
  }

  /** The work of a session is where its place says, in its queue, with its thread, and nowhere else. */
  ghost predicate SessionPlaced(s: State, w: seq<Place>, sid: Sid)
    requires sid < |w| == |s.sessions|
  {
    && (w[sid].WithThread? ==> w[sid].thread in s.tasks && Carries(s.tasks[w[sid].thread], sid))
    && (forall op :: s.queue[PendingOp(sid, op)] == Bit(w[sid] == Queued(op)))
  }

  /** The owner of a session's cancel guard is in a task that holds it. */
  predicate SessionLocked(s: State, sid: Sid)
    requires sid < |s.sessions|
  {
    s.sessions[sid].cancelGuard.Some? ==>
      s.sessions[sid].cancelGuard.value in s.tasks && HoldsGuard(s.tasks[s.sessions[sid].cancelGuard.value], sid)
  }

  /** A session is marked as cancelled iff it was found, up to the one cancel call that is on its way. */
  predicate SessionCancelled(s: State, w: seq<Place>, sid: Sid)
    requires sid < |w| == |s.sessions|
  {
    && FoundCount(s.log, sid) >= Bit(s.sessions[sid].wasCancelled) + Bit(BeingCancelled(s, sid))
    && (FoundCount(s.log, sid) > 0 ==> s.sessions[sid].wasCancelled || BeingCancelled(s, sid))
    && (BeingCancelled(s, sid) ==> InsertedAt(s, w, sid) && !ErasedAt(s, w, sid))
  }

  /** The request is the line that the connect handler has made with the span it was given. */
  predicate Sends(x: Session) {
    x.drawn.Some? && x.request == Request(SENT_DURATION, StartedUnder(x.caller, x.drawn.value))
  }

  /** The trace and the fields are those of the place; from the write on, so is the request. */
  predicate SessionSound(s: State, w: seq<Place>, sid: Sid)
    requires sid < |w| == |s.sessions|
  {
    SessionTraced(s, w, sid) && (PastConnect(s, w, sid) ==> Sends(s.sessions[sid]))
  }

  ghost predicate SessionOk(s: State, w: seq<Place>, sid: Sid)
    requires sid < |w| == |s.sessions|
  {
    SessionPlaced(s, w, sid) && SessionLocked(s, sid) && SessionSound(s, w, sid) && SessionCancelled(s, w, sid)
  }

  /**
    A task's session exists, its work is with this thread, and the mutexes it holds are owned
    by it; a handler about to start the next operation has a session that is not cancelled.
   */
  predicate TaskOk(s: State, w: seq<Place>, t: Thread)
    requires |w| == |s.sessions| && t in s.tasks
  {
    var k := s.tasks[t];
    && (t.User? <==> UserTask(k))
    && (HoldsSessions(k) ==> s.sessionsGuard == Some(t))
    && (TaskSid(k).Some? ==>
         var sid := TaskSid(k).value;
         && sid < |w|
         && (Carries(k, sid) ==> w[sid] == WithThread(t))
         && (HoldsGuard(k, sid) ==> s.sessions[sid].cancelGuard == Some(t))
         && (k.Handling? && k.handler.HandlerNext? ==> !s.sessions[sid].wasCancelled))
  }

  /** Sessions in the map are under their own id, inserted, and not past their erase. */
  predicate MapOk(s: State, w: seq<Place>, id: RequestId)
    requires |w| == |s.sessions| && id in s.active
  {
    var sid := s.active[id];
    sid < |w| && s.sessions[sid].id == id && InsertedAt(s, w, sid) && !ErasedAt(s, w, sid)
  }

  predicate NoEvents(s: State, sid: Sid) {
    Trace(s.log, sid) == [] && FoundCount(s.log, sid) == 0
  }

  ghost predicate Inv(s: State, w: seq<Place>) {
    && |w| == |s.sessions|
    && (s.sessionsGuard.Some? ==> s.sessionsGuard.value in s.tasks && HoldsSessions(s.tasks[s.sessionsGuard.value]))
    && (forall p :: p in s.queue ==> p.sid < |w|)
    && (forall sid :: sid >= |w| ==> NoEvents(s, sid))
    && (forall sid :: 0 <= sid < |w| ==> SessionOk(s, w, sid))
    && (forall t :: t in s.tasks ==> TaskOk(s, w, t))
    && (forall id :: id in s.active ==> MapOk(s, w, id))
  }

  predicate GuardOwner(s: State, t: Thread) {
    s.sessionsGuard == Some(t) ==> t in s.tasks && HoldsSessions(s.tasks[t])
  }

  /** A task names one session at most. */
  predicate Names(k: Task, sid: Sid) {
    TaskSid(k) == Some(sid)
  }

  /** The one step that changes a session's flag. */
  predicate Marks(s: State, t: Thread, sid: Sid) {
    t in s.tasks && s.tasks[t].Cancelling? && s.tasks[t].cancel == CancelMark(sid)
  }

  predicate SameEvents(s: State, s': State, sid: Sid) {
    Trace(s'.log, sid) == Trace(s.log, sid) && FoundCount(s'.log, sid) == FoundCount(s.log, sid)
  }

  /**
    What an action of thread `t` on one session leaves alone: other tasks, other sessions
    with their places, traces and operations, and mutexes that `t` neither held nor took.
   */
  ghost predicate Frame(s: State, w: seq<Place>, s': State, w': seq<Place>, t: Thread, touched: Sid) {
    && |w| == |s.sessions| == |w'| == |s'.sessions|
    && (forall u :: u != t ==> (u in s.tasks <==> u in s'.tasks) && (u in s.tasks ==> s'.tasks[u] == s.tasks[u]))
    && (s'.sessionsGuard == s.sessionsGuard
        || (s.sessionsGuard == None && s'.sessionsGuard == Some(t)) || (s.sessionsGuard == Some(t) && s'.sessionsGuard == None))
    && (forall j: Sid :: j != touched ==> SameEvents(s, s', j))
    && (touched >= |w| ==> s'.log == s.log)
    && (forall p :: p in s'.queue ==> p in s.queue || p.sid == touched < |w|)
    && (forall j :: 0 <= j < |w| && j != touched ==>
         && w'[j] == w[j] && s'.sessions[j] == s.sessions[j]
         && (forall op :: s'.queue[PendingOp(j, op)] == s.queue[PendingOp(j, op)])
         && (t in s.tasks ==> !Names(s.tasks[t], j)) && (t in s'.tasks ==> !Names(s'.tasks[t], j)))
    && (touched < |w| ==>
         && s'.sessions[touched].id == s.sessions[touched].id && s'.sessions[touched].caller == s.sessions[touched].caller
         && (s'.sessions[touched].wasCancelled == s.sessions[touched].wasCancelled 
             || (Marks(s, t, touched) && s.sessions[touched].cancelGuard == Some(t)))
         && (w'[touched] == w[touched] || w[touched] == WithThread(t) || w[touched].Queued?)
         && (s'.sessions[touched].cancelGuard == s.sessions[touched].cancelGuard
             || s.sessions[touched].cancelGuard == None || s.sessions[touched].cancelGuard == Some(t)))
  }
}
