/** What holds on every run of the client, for any number of threads, sessions and cancel calls. */
module ClientTheorems {
  import opened Wrappers
  import opened Hex
  import opened TraceContextCodec
  import opened WireFrame
  import opened TraceServer
  import opened ClientProtocol
  import opened ClientInvariant
  import opened ClientPreservation

  /**
    The whole life of a session: its operations in order, all but the last one successful,
    the erase from the map, and one callback. A session that was found by a cancel call may
    end after any operation, and its success is reported as aborted.
   */
  function Life(last: Event, id: RequestId, drawn: Option<SpanContext>, found: bool): seq<Event>
    requires last.Completed?
  {
    Before(last.sid, last.op, drawn)
    + [last, Erased(last.sid), Called(last.sid, id, last.text, Report(last.ec, found))]
  }

  function Report(ec: ErrorCode, found: bool): ErrorCode {
    if ec == Success && found then OperationAborted else ec
  }

  /**
    A session stops early only on an error or a cancel; only a successful read leaves a
    text, and exactly a successful connect gives ids for a span to the later handlers.
   */
  predicate LifeAllowed(last: Event, drawn: Option<SpanContext>, found: bool)
    requires last.Completed?
  {
    && (last.op != Read && last.ec == Success ==> found)
    && (last.op != Read || last.ec != Success ==> last.text == "")
    && (last.drawn.Some? <==> last.op == Connect && last.ec == Success)
    && (last.op != Connect ==> drawn.Some?)
  }

  /** A finished session has been found iff it is marked, and its trace is its whole life. */
  lemma FinishedLife(s: State, w: seq<Place>, sid: Sid)
    requires sid < |w| == |s.sessions| && w[sid].Finished?
    requires SessionSound(s, w, sid) && SessionCancelled(s, w, sid)
    ensures var last, x, found := LastOf(sid, w[sid].site, s.sessions[sid]), s.sessions[sid], FoundCount(s.log, sid) > 0;
            && (found <==> x.wasCancelled)
            && Trace(s.log, sid) == Life(last, x.id, x.drawn, found) && LifeAllowed(last, x.drawn, found)
  {
    var site, x := w[sid].site, s.sessions[sid];
    assert Life(LastOf(sid, site, x), x.id, x.drawn, x.wasCancelled)
        == Ended(sid, site, x) + [Erased(sid), Called(sid, x.id, x.response, x.Verdict())];
  }

  /** The same for a session whose completion is under way. */
  lemma CompletingLife(sid: Sid, site: CallSite, x: Session, step: CompleteStep, tr: seq<Event>, found: bool)
    requires TaskTraced(Completing(sid, site, step), sid, tr, x) && (x.wasCancelled ==> found) && !step.CompleteReturn?
    requires site.Op() != Connect ==> x.drawn.Some?
    ensures var last := LastOf(sid, site, x); LifeAllowed(last, x.drawn, found) && tr <= Life(last, x.id, x.drawn, found)
  {
    assert Life(LastOf(sid, site, x), x.id, x.drawn, found)
        == Ended(sid, site, x) + [Erased(sid), Called(sid, x.id, x.response, Report(x.ec, found))];
  }

  ghost predicate BeginsLife(tr: seq<Event>, sid: Sid, id: RequestId, found: bool) {
    exists last: Event, drawn: Option<SpanContext> ::
      last.Completed? && last.sid == sid && LifeAllowed(last, drawn, found) && tr <= Life(last, id, drawn, found)
  }

  /** A session that waits for an operation can always go on to fail in it. */
  lemma PendingLife(sid: Sid, id: RequestId, op: Operation, drawn: Option<SpanContext>, found: bool)
    requires op != Connect ==> drawn.Some?
    ensures BeginsLife(Before(sid, op, drawn), sid, id, found)
  {
    var last := Completed(sid, op, OtherError(0), "", None);
    assert LifeAllowed(last, drawn, found) && Before(sid, op, drawn) <= Life(last, id, drawn, found);
  }

  lemma PlaceLife(s: State, w: seq<Place>, sid: Sid)
    requires sid < |w| == |s.sessions|
    requires SessionPlaced(s, w, sid) && SessionSound(s, w, sid) && SessionCancelled(s, w, sid)
    ensures BeginsLife(Trace(s.log, sid), sid, s.sessions[sid].id, FoundCount(s.log, sid) > 0)
  {
    var x, found := s.sessions[sid], FoundCount(s.log, sid) > 0;
    match w[sid]
    case Finished(site) => FinishedLife(s, w, sid);
    case Queued(op) => PendingLife(sid, x.id, op, x.drawn, found);
    case WithThread(t) => TaskLife(s.tasks[t], sid, Trace(s.log, sid), x, found);
  }

  lemma TaskLife(k: Task, sid: Sid, tr: seq<Event>, x: Session, found: bool)
    requires Carries(k, sid) && TaskTraced(k, sid, tr, x) && (x.wasCancelled ==> found) && (PastConnectTask(k) ==> Sends(x))
    ensures BeginsLife(tr, sid, x.id, found)
  {
    match k
    case Starting(_, _) =>
      PendingLife(sid, x.id, Connect, x.drawn, found);
      var last: Event, drawn: Option<SpanContext> :| last.Completed? && last.sid == sid && LifeAllowed(last, drawn, found)
                      && Before(sid, Connect, x.drawn) <= Life(last, x.id, drawn, found);
      assert tr <= Life(last, x.id, drawn, found);
    case Handling(_, step) =>
      if step.HandlerEntry? {
        EntryLife(sid, x.id, step.completion, x.drawn, found);
      } else {
        PendingLife(sid, x.id, step.resume.Next(), x.drawn, found);
      }
    case Completing(_, site, step) => CompletingLife(sid, site, x, step, tr, found);
  }

  /** On every interleaving the events of a session are the beginning of an allowed life. */
  lemma TracesAreLives(ioThreads: nat, run: seq<Action>, sid: Sid)
    requires IsRun(ioThreads, run) && sid < |Final(ioThreads, run).sessions|
    ensures var s := Final(ioThreads, run);
            BeginsLife(Trace(s.log, sid), sid, s.sessions[sid].id, FoundCount(s.log, sid) > 0)
  {
    assert SessionOk(Final(ioThreads, run), Places(ioThreads, run), sid);
    PlaceLife(Final(ioThreads, run), Places(ioThreads, run), sid);
  }

  /** An operation that has just completed leads on to the next one, or ends the session. */
  lemma EntryLife(sid: Sid, id: RequestId, c: Completion, drawn: Option<SpanContext>, found: bool)
    requires !c.Connected? ==> drawn.Some?
    ensures BeginsLife(Before(sid, c.Op(), drawn) + [Completed(sid, c.Op(), c.ec, c.Text(), c.Drawn())], sid, id, found)
  {
    var last := Completed(sid, c.Op(), c.ec, c.Text(), c.Drawn());
    var tr := Before(sid, c.Op(), drawn) + [last];
    if c.ec == Success && !c.Received? {
      var later := if c.Connected? then c.Drawn() else drawn;
      assert tr == Before(sid, c.Resume().Next(), later);
      PendingLife(sid, id, c.Resume().Next(), later, found);
    } else {
      assert Life(last, id, drawn, found) == tr + [Erased(sid), Called(sid, id, last.text, Report(last.ec, found))];
      assert LifeAllowed(last, drawn, found) && tr <= Life(last, id, drawn, found);
    }
  }

  // Callbacks

  lemma {:induction false} InTrace(log: seq<Event>, e: Event)
    requires e in log && !e.Found?
    ensures e in Trace(log, e.sid)
  {
    if log[|log| - 1] != e {
      InTrace(log[..|log| - 1], e);
    }
  }

  /** A session is called back at most once: the callback is the last event, and there iff the work is over. */
  lemma CalledOnce(ioThreads: nat, run: seq<Action>, sid: Sid, i: nat)
    requires IsRun(ioThreads, run) && sid < |Final(ioThreads, run).sessions|
    requires i < |Trace(Final(ioThreads, run).log, sid)|
    ensures var tr := Trace(Final(ioThreads, run).log, sid);
            tr[i].Called? <==> Places(ioThreads, run)[sid].Finished? && i == |tr| - 1
  {
    assert SessionOk(Final(ioThreads, run), Places(ioThreads, run), sid);
    CallIsLast(Final(ioThreads, run), Places(ioThreads, run), sid, i);
  }

  lemma CallIsLast(s: State, w: seq<Place>, sid: Sid, i: nat)
    requires sid < |w| == |s.sessions| && SessionPlaced(s, w, sid) && SessionTraced(s, w, sid)
    requires i < |Trace(s.log, sid)|
    ensures Trace(s.log, sid)[i].Called? <==> w[sid].Finished? && i == |Trace(s.log, sid)| - 1
  {
    var x := s.sessions[sid];
    NoCallBefore(sid, Connect, x.drawn);
    NoCallBefore(sid, Write, x.drawn);
    NoCallBefore(sid, Read, x.drawn);
    match w[sid]
    case Queued(op) =>
    case Finished(site) =>
    case WithThread(t) =>
      assert TaskTraced(s.tasks[t], sid, Trace(s.log, sid), s.sessions[sid]);
  }

  lemma NoCallBefore(sid: Sid, op: Operation, drawn: Option<SpanContext>)
    ensures forall i :: 0 <= i < |Before(sid, op, drawn)| ==> !Before(sid, op, drawn)[i].Called?
  {
  }

  /** Insert, connect, write, read, erase, callback, with every operation successful. */
  function SuccessfulTrace(sid: Sid, drawn: Option<SpanContext>, response: string, call: Event): seq<Event> {
    Before(sid, Read, drawn) + [Completed(sid, Read, Success, response, None), Erased(sid), call]
  }

  /**
    What a callback reports, on every run: it is the session's own id, and it reports
    success exactly when no cancel call has found the session, at any time before or after,
    and connect, write and read have all succeeded; then the text is what the read stored.
    The code is that of the last operation, if that failed; only for a session that was found
    and whose last operation succeeded is it the code of an aborted one.
   */
  lemma CallbackContract(ioThreads: nat, run: seq<Action>, k: nat)
    requires IsRun(ioThreads, run)
    requires k < |Final(ioThreads, run).log| && Final(ioThreads, run).log[k].Called?
    ensures var s := Final(ioThreads, run);
            var Called(sid, id, response, ec) := s.log[k];
            && sid < |s.sessions| && id == s.sessions[sid].id
            && (ec == Success <==>
                 && FoundCount(s.log, sid) == 0
                 && Trace(s.log, sid) == SuccessfulTrace(sid, s.sessions[sid].drawn, response, s.log[k]))
            && var tr := Trace(s.log, sid);
               |tr| >= 3 && tr[|tr| - 3].Completed? && tr[|tr| - 3].text == response
               && ec == if tr[|tr| - 3].ec != Success then tr[|tr| - 3].ec
                        else if FoundCount(s.log, sid) > 0 then OperationAborted else Success
  {
    var s, w := Final(ioThreads, run), Places(ioThreads, run);
    var e := s.log[k];
    InTrace(s.log, e);
    assert e.sid >= |w| ==> NoEvents(s, e.sid);
    assert SessionOk(s, w, e.sid);
    CallMeansFinished(s, w, e.sid, e);
    LifeEnd(e, s, w);
  }

  lemma CallMeansFinished(s: State, w: seq<Place>, sid: Sid, e: Event)
    requires sid < |w| == |s.sessions| && SessionPlaced(s, w, sid) && SessionTraced(s, w, sid)
    requires e.Called? && e in Trace(s.log, sid)
    ensures w[sid].Finished?
  {
    var i :| 0 <= i < |Trace(s.log, sid)| && Trace(s.log, sid)[i] == e;
    CallIsLast(s, w, sid, i);
  }

  lemma LifeEnd(e: Event, s: State, w: seq<Place>)
    requires e.Called? && e.sid < |w| == |s.sessions| && SessionOk(s, w, e.sid) && w[e.sid].Finished?
    requires e in Trace(s.log, e.sid)
    ensures var x := s.sessions[e.sid];
            && e == Called(e.sid, x.id, x.response, x.Verdict())
            && (e.ec == Success <==>
                 && FoundCount(s.log, e.sid) == 0
                 && Trace(s.log, e.sid) == SuccessfulTrace(e.sid, x.drawn, e.response, e))
            && var tr := Trace(s.log, e.sid);
               |tr| >= 3 && tr[|tr| - 3] == LastOf(e.sid, w[e.sid].site, x)
               && e.ec == if x.ec != Success then x.ec else if FoundCount(s.log, e.sid) > 0 then OperationAborted else Success
  {
    var x, site := s.sessions[e.sid], w[e.sid].site;
    var full := Ended(e.sid, site, x) + [Erased(e.sid), Called(e.sid, x.id, x.response, x.Verdict())];
    assert full == Before(e.sid, site.Op(), x.drawn) + [LastOf(e.sid, site, x), Erased(e.sid), e];
    if Trace(s.log, e.sid) == SuccessfulTrace(e.sid, x.drawn, e.response, e) {
      assert |Before(e.sid, site.Op(), x.drawn)| == 3;
      assert full[3] == Completed(e.sid, Read, Success, e.response, None);
    }
  }

  /** Cancel is linearizable against completion: a session that was found never reports success. */
  lemma FoundNeverSucceeds(ioThreads: nat, run: seq<Action>, j: nat, k: nat)
    requires IsRun(ioThreads, run)
    requires var log := Final(ioThreads, run).log;
             j < |log| && k < |log| && log[j].Found? && log[k].Called? && log[j].sid == log[k].sid
    ensures Final(ioThreads, run).log[k].ec != Success
  {
    var log := Final(ioThreads, run).log;
    CallbackContract(ioThreads, run, k);
    assert log[j] in multiset(log);
  }

  // The unguarded read of the flag

  lemma NoMarkAt(s: State, w: seq<Place>, t: Thread, sid: Sid)
    requires Inv(s, w) && sid < |w| && Marks(s, t, sid)
    ensures !ErasedAt(s, w, sid)
  {
    assert TaskOk(s, w, t) && SessionOk(s, w, sid);
    assert BeingCancelled(s, sid);
  }

  /**
    No cancel call is about to set a session's flag while its completion is past the erase,
    so the read of the flag without its guard races with no write.
   */
  lemma FlagReadIsSafe(ioThreads: nat, run: seq<Action>, t: Thread, u: Thread, sid: Sid)
    requires IsRun(ioThreads, run) && sid < |Final(ioThreads, run).sessions| && Marks(Final(ioThreads, run), t, sid)
    requires var s := Final(ioThreads, run); u in s.tasks && s.tasks[u].Completing? && s.tasks[u].sid == sid
    ensures var step := Final(ioThreads, run).tasks[u].complete;
            step.CompleteLock? || step.CompleteReturn?
  {
    var s, w := Final(ioThreads, run), Places(ioThreads, run);
    NoMarkAt(s, w, t, sid);
    assert TaskOk(s, w, t) && TaskOk(s, w, u);
  }

  /** Once a session is erased, no action of any thread changes its flag. */
  lemma FlagIsSettled(ioThreads: nat, run: seq<Action>, a: Action, sid: Sid)
    requires IsRun(ioThreads, run) && Enabled(Final(ioThreads, run), a) && Erased(sid) in Final(ioThreads, run).log
    ensures var s, s' := Final(ioThreads, run), Apply(Final(ioThreads, run), a);
            sid < |s.sessions| <= |s'.sessions| && s'.sessions[sid].wasCancelled == s.sessions[sid].wasCancelled
  {
    var s, w := Final(ioThreads, run), Places(ioThreads, run);
    InTrace(s.log, Erased(sid));
    assert sid >= |w| ==> NoEvents(s, sid);
    assert SessionOk(s, w, sid);
    LogTellsPlace(s, w, sid);
    if a.Step? {
      StepFrame(s, w, a.thread);
      if Marks(s, a.thread, sid) {
        NoMarkAt(s, w, a.thread, sid);
      }
    }
  }

  /** A session has been found exactly if it is marked, or a cancel call that holds the sessions guard is about to mark it. */
  lemma MarkedIffFound(ioThreads: nat, run: seq<Action>, sid: Sid)
    requires IsRun(ioThreads, run) && sid < |Final(ioThreads, run).sessions|
    ensures var s := Final(ioThreads, run);
            FoundCount(s.log, sid) > 0
            <==> s.sessions[sid].wasCancelled
                 || exists t :: t in s.tasks && s.sessionsGuard == Some(t)
                       && (s.tasks[t].Cancelling? && (s.tasks[t].cancel == CancelGuard(sid) || s.tasks[t].cancel == CancelMark(sid)))
  {
    var s, w := Final(ioThreads, run), Places(ioThreads, run);
    assert SessionOk(s, w, sid);
    if BeingCancelled(s, sid) {
      assert s.sessionsGuard.value in s.tasks;
    }
  }

  /** A cancelled session starts no further operation, however the threads interleave. */
  lemma CancelledStartsNothing(ioThreads: nat, run: seq<Action>, a: Action, sid: Sid, op: Operation)
    requires IsRun(ioThreads, run) && Enabled(Final(ioThreads, run), a) && op != Connect
    ensures var s := Final(ioThreads, run);
            Apply(s, a).queue[PendingOp(sid, op)] > s.queue[PendingOp(sid, op)]
            ==> sid < |s.sessions| && !s.sessions[sid].wasCancelled
  {
    var s, w := Final(ioThreads, run), Places(ioThreads, run);
    if a.Step? {
      assert TaskOk(s, w, a.thread);
      QueueAfter(s, a.thread);
    }
  }

  /** A start launches a connect, a handler the next operation, and no other step anything. */
  lemma QueueAfter(s: State, t: Thread)
    requires CanStep(s, t)
    ensures var k, s' := s.tasks[t], StepTask(s, t);
            s'.queue == if k.Starting? && k.start.StartConnect? then s.queue + multiset{PendingOp(k.sid, Connect)}
                        else if k.Handling? && k.handler.HandlerNext? then s.queue + multiset{PendingOp(k.sid, k.handler.resume.Next())}
                        else s.queue
  {
    match s.tasks[t]
    case Starting(_, _) =>
    case Cancelling(_, _) => CancelQueue(s, t);
    case Handling(_, _) =>
    case Completing(_, _, _) => CompleteQueue(s, t);
  }

  lemma CancelQueue(s: State, t: Thread)
    requires CanStep(s, t) && s.tasks[t].Cancelling?
    ensures StepCancel(s, t).queue == s.queue
  {
  }

  lemma CompleteQueue(s: State, t: Thread)
    requires CanStep(s, t) && s.tasks[t].Completing?
    ensures StepComplete(s, t).queue == s.queue
  {
  }

  // Outstanding work

  ghost predicate CalledBack(s: State, sid: Sid) {
    exists i :: 0 <= i < |Trace(s.log, sid)| && Trace(s.log, sid)[i].Called?
  }

  lemma CalledBackIffFinished(s: State, w: seq<Place>, sid: Sid)
    requires sid < |w| == |s.sessions| && SessionPlaced(s, w, sid) && SessionTraced(s, w, sid)
    ensures CalledBack(s, sid) <==> w[sid].Finished?
  {
    var tr := Trace(s.log, sid);
    if w[sid].Finished? {
      CallIsLast(s, w, sid, |tr| - 1);
    }
    if i :| 0 <= i < |tr| && tr[i].Called? {
      CallIsLast(s, w, sid, i);
    }
  }

  ghost predicate Carried(s: State, sid: Sid) {
    exists t :: t in s.tasks && Carries(s.tasks[t], sid)
  }

  function PendingCount(s: State, sid: Sid): nat {
    s.queue[PendingOp(sid, Connect)] + s.queue[PendingOp(sid, Write)] + s.queue[PendingOp(sid, Read)]
  }

  lemma PendingIffQueued(s: State, w: seq<Place>, sid: Sid)
    requires sid < |w| == |s.sessions| && SessionPlaced(s, w, sid)
    ensures PendingCount(s, sid) == Bit(w[sid].Queued?)
  {
    assert s.queue[PendingOp(sid, Connect)] == Bit(w[sid] == Queued(Connect));
    assert s.queue[PendingOp(sid, Write)] == Bit(w[sid] == Queued(Write));
    assert s.queue[PendingOp(sid, Read)] == Bit(w[sid] == Queued(Read));
    if w[sid].Queued? {
      assert w[sid].op == Connect || w[sid].op == Write || w[sid].op == Read;
    }
  }

  lemma CarriedIffWithThread(s: State, w: seq<Place>, sid: Sid)
    requires Inv(s, w) && sid < |w|
    ensures Carried(s, sid) <==> w[sid].WithThread?
    ensures forall t, u :: t in s.tasks && u in s.tasks && Carries(s.tasks[t], sid) && Carries(s.tasks[u], sid) ==> t == u
  {
    assert SessionPlaced(s, w, sid) by { assert SessionOk(s, w, sid); }
    forall t | t in s.tasks && Carries(s.tasks[t], sid)
      ensures w[sid] == WithThread(t)
    {
      assert TaskOk(s, w, t);
    }
  }

  /**
    At any time exactly one of these is there for a session: one pending operation, one
    thread that carries its work, or its callback. Returning handlers do not count.
   */
  lemma OneOutstanding(ioThreads: nat, run: seq<Action>, sid: Sid)
    requires IsRun(ioThreads, run) && sid < |Final(ioThreads, run).sessions|
    ensures var s := Final(ioThreads, run);
            && PendingCount(s, sid) + Bit(Carried(s, sid)) + Bit(CalledBack(s, sid)) == 1
            && forall t, u :: t in s.tasks && u in s.tasks && Carries(s.tasks[t], sid) && Carries(s.tasks[u], sid) ==> t == u
  {
    var s, w := Final(ioThreads, run), Places(ioThreads, run);
    SessionFacts(s, w, sid);
    CarriedIffWithThread(s, w, sid);
  }

  lemma SessionFacts(s: State, w: seq<Place>, sid: Sid)
    requires Inv(s, w) && sid < |w|
    ensures CalledBack(s, sid) <==> w[sid].Finished?
    ensures PendingCount(s, sid) == Bit(w[sid].Queued?)
  {
    assert SessionOk(s, w, sid);
    CalledBackIffFinished(s, w, sid);
    PendingIffQueued(s, w, sid);
  }

  /**
    When the event loop runs out of work, which is when `close` returns, every session has
    been called back exactly when no start call is under way; and then the map is empty.
   */
  lemma CloseFinishesAll(ioThreads: nat, run: seq<Action>)
    requires IsRun(ioThreads, run) && Enabled(Final(ioThreads, run), StopIo)
    ensures var s := Final(ioThreads, run);
            && ((forall sid :: 0 <= sid < |s.sessions| ==> CalledBack(s, sid))
                <==> (forall t :: t in s.tasks ==> !s.tasks[t].Starting?))
            && ((forall t :: t in s.tasks ==> !s.tasks[t].Starting?) ==> s.active == map[])
  {
    CloseAt(Final(ioThreads, run), Places(ioThreads, run));
  }

  lemma CloseAt(s: State, w: seq<Place>)
    requires Inv(s, w) && Enabled(s, StopIo)
    ensures (forall sid :: 0 <= sid < |w| ==> CalledBack(s, sid)) <==> (forall t :: t in s.tasks ==> !s.tasks[t].Starting?)
    ensures (forall t :: t in s.tasks ==> !s.tasks[t].Starting?) ==> s.active == map[]
  {
    if t :| t in s.tasks && s.tasks[t].Starting? {
      assert TaskOk(s, w, t);
      SessionFacts(s, w, s.tasks[t].sid);
    } else {
      forall sid | 0 <= sid < |w|
        ensures CalledBack(s, sid) && w[sid].Finished?
      {
        SessionFacts(s, w, sid);
        LeftByStart(s, w, sid);
      }
      EntryMeansUnfinished(s, w);
    }
  }

  lemma LeftByStart(s: State, w: seq<Place>, sid: Sid)
    requires Inv(s, w) && Enabled(s, StopIo) && sid < |w|
    ensures w[sid].Finished? || (w[sid].WithThread? && w[sid].thread in s.tasks && s.tasks[w[sid].thread].Starting?)
  {
    assert SessionPlaced(s, w, sid) by { assert SessionOk(s, w, sid); }
    PendingIffQueued(s, w, sid);
    if w[sid].WithThread? {
      assert TaskOk(s, w, w[sid].thread);
    }
  }

  lemma EntryMeansUnfinished(s: State, w: seq<Place>)
    requires Inv(s, w)
    ensures s.active == map[] || exists sid :: 0 <= sid < |w| && !w[sid].Finished?
  {
    if s.active != map[] {
      var id := SomeKey(s.active);
      assert MapOk(s, w, id) && !w[s.active[id]].Finished?;
    }
  }

  /**
    The line that a session writes is never the one its caller asked for: it carries eleven
    and the context of the span that the connect handler started, under the caller's span,
    with the ids that the completed connect drew. The server continues that span's trace,
    which is the caller's, and refuses the line when the tracer was off.
   */
  lemma WrittenLineContinuesTrace(ioThreads: nat, run: seq<Action>, sid: Sid, flagsFromHex: string -> Byte)
    requires IsRun(ioThreads, run) && PendingOp(sid, Write) in Final(ioThreads, run).queue
    ensures var s := Final(ioThreads, run);
            && sid < |s.sessions| && s.sessions[sid].drawn.Some?
            && Trace(s.log, sid) == Before(sid, Write, s.sessions[sid].drawn)
            && var x := s.sessions[sid];
               var span := StartedUnder(x.caller, x.drawn.value);
            && x.request.Line() == "EMULATE_LONG_CALC_OP -11-" + TraceInfo(span) + "-\n" && SliceInRange(x.request.Line())
            && ReplyTo(x.request.Line(), flagsFromHex) == ReplyUnder(x.caller, x.drawn.value, flagsFromHex)
  {
    var s, w := Final(ioThreads, run), Places(ioThreads, run);
    assert SessionOk(s, w, sid) && w[sid] == Queued(Write);
    LineText(SENT_DURATION, TraceInfo(StartedUnder(s.sessions[sid].caller, s.sessions[sid].drawn.value)));
    SentLineReply(s.sessions[sid].caller, s.sessions[sid].drawn.value, flagsFromHex);
  }

  /** The server's reply to a line under the caller's span: in the caller's trace, if there is one. */
  function ReplyUnder(caller: SpanContext, drawn: SpanContext, flagsFromHex: string -> Byte): Reply {
    if drawn.IsValid() then
      var traceId := if caller.IsValid() then caller.traceId else drawn.traceId;
      Reply("Response\n", Some(ChildOf(SpanContext(traceId, drawn.spanId, flagsFromHex(ToLowerBase16([drawn.flags])), true))))
    else Reply("invalid format", None)
  }

  lemma SentLineReply(caller: SpanContext, drawn: SpanContext, flagsFromHex: string -> Byte)
    ensures var line := RequestLine(SENT_DURATION, TraceInfo(StartedUnder(caller, drawn)));
            SliceInRange(line) && ReplyTo(line, flagsFromHex) == ReplyUnder(caller, drawn, flagsFromHex)
  {
    var span := StartedUnder(caller, drawn);
    if span.IsValid() {
      ServerContinuesTraceIffTwoDigits(SENT_DURATION, span, flagsFromHex);
    } else {
      ServerRefusesLineWithoutContext(SENT_DURATION, span, flagsFromHex);
    }
  }

  // The session map

  lemma {:induction false} TraceInLog(log: seq<Event>, sid: Sid, e: Event)
    requires e in Trace(log, sid)
    ensures e in log && e.sid == sid
  {
    if e in Trace(log[..|log| - 1], sid) {
      TraceInLog(log[..|log| - 1], sid, e);
    }
  }

  /** What the log says about a session's map entry is what its place says. */
  lemma LogTellsPlace(s: State, w: seq<Place>, sid: Sid)
    requires sid < |w| == |s.sessions| && SessionPlaced(s, w, sid) && SessionTraced(s, w, sid)
    ensures Inserted(sid) in s.log <==> InsertedAt(s, w, sid)
    ensures Erased(sid) in s.log <==> ErasedAt(s, w, sid)
  {
    var tr := Trace(s.log, sid);
    PlaceEvents(s, w, sid);
    if Inserted(sid) in s.log { InTrace(s.log, Inserted(sid)); }
    if Erased(sid) in s.log { InTrace(s.log, Erased(sid)); }
    if Inserted(sid) in tr { TraceInLog(s.log, sid, Inserted(sid)); }
    if Erased(sid) in tr { TraceInLog(s.log, sid, Erased(sid)); }
  }

  lemma PlaceEvents(s: State, w: seq<Place>, sid: Sid)
    requires sid < |w| == |s.sessions| && SessionPlaced(s, w, sid) && SessionTraced(s, w, sid)
    ensures Inserted(sid) in Trace(s.log, sid) <==> InsertedAt(s, w, sid)
    ensures Erased(sid) in Trace(s.log, sid) <==> ErasedAt(s, w, sid)
  {
    var x := s.sessions[sid];
    match w[sid]
    case Queued(op) => InsertedFirst(sid, op, x.drawn);
    case Finished(site) => InsertedFirst(sid, site.Op(), x.drawn);
    case WithThread(t) =>
      InsertedFirst(sid, Connect, x.drawn);
      InsertedFirst(sid, Write, x.drawn);
      InsertedFirst(sid, Read, x.drawn);
  }

  lemma InsertedFirst(sid: Sid, op: Operation, drawn: Option<SpanContext>)
    ensures |Before(sid, op, drawn)| >= 1 && Before(sid, op, drawn)[0] == Inserted(sid)
    ensures Erased(sid) !in Before(sid, op, drawn)
  {
  }

  predicate Mapped(s: State, sid: Sid)
    requires sid < |s.sessions|
  {
    s.sessions[sid].id in s.active && s.active[s.sessions[sid].id] == sid
  }

  /** Without any assumption on ids, a mapped session has been inserted and not yet erased. */
  lemma MappedMeansLive(ioThreads: nat, run: seq<Action>, id: RequestId)
    requires IsRun(ioThreads, run) && id in Final(ioThreads, run).active
    ensures var s := Final(ioThreads, run);
            var sid := s.active[id];
            sid < |s.sessions| && s.sessions[sid].id == id && Inserted(sid) in s.log && Erased(sid) !in s.log
  {
    var s, w := Final(ioThreads, run), Places(ioThreads, run);
    assert MapOk(s, w, id) && SessionOk(s, w, s.active[id]);
    LogTellsPlace(s, w, s.active[id]);
  }

  /** The map holds exactly the sessions that were inserted and not yet erased. */
  ghost predicate MapExact(s: State) {
    forall sid :: 0 <= sid < |s.sessions| ==> (Mapped(s, sid) <==> Inserted(sid) in s.log && Erased(sid) !in s.log)
  }

  /** An insertion that takes the place of another session's entry. */
  predicate Overwrites(s: State, a: Action)
    requires Enabled(s, a)
  {
    a.Step? && s.tasks[a.thread].Starting? && s.tasks[a.thread].start.StartInsert?
    && s.sessions[s.tasks[a.thread].sid].id in s.active
  }

  ghost predicate AlwaysExact(ioThreads: nat, run: seq<Action>)
    requires IsRun(ioThreads, run)
    decreases |run|
  {
    MapExact(Final(ioThreads, run)) && (run == [] || AlwaysExact(ioThreads, run[..|run| - 1]))
  }

  predicate NeverOverwrites(ioThreads: nat, run: seq<Action>)
    requires IsRun(ioThreads, run)
    decreases |run|
  {
    run == [] || (NeverOverwrites(ioThreads, run[..|run| - 1])
                  && !Overwrites(Final(ioThreads, run[..|run| - 1]), run[|run| - 1]))
  }

  /** The exactness of the map in terms of places. */
  ghost predicate ExactAt(s: State, w: seq<Place>) {
    |w| == |s.sessions| && forall sid :: 0 <= sid < |w| && InsertedAt(s, w, sid) && !ErasedAt(s, w, sid) ==> Mapped(s, sid)
  }

  lemma ExactIffExactAt(s: State, w: seq<Place>)
    requires Inv(s, w)
    ensures MapExact(s) <==> ExactAt(s, w)
  {
    forall sid | 0 <= sid < |w|
      ensures InsertedAt(s, w, sid) <==> Inserted(sid) in s.log
      ensures ErasedAt(s, w, sid) <==> Erased(sid) in s.log
      ensures Mapped(s, sid) ==> InsertedAt(s, w, sid) && !ErasedAt(s, w, sid)
    {
      assert SessionOk(s, w, sid);
      LogTellsPlace(s, w, sid);
      assert Mapped(s, sid) ==> MapOk(s, w, s.sessions[sid].id);
    }
  }

  lemma LiveKept(s: State, w: seq<Place>, s': State, w': seq<Place>, t: Thread, touched: Sid, j: Sid)
    requires Frame(s, w, s', w', t, touched) && j < |w| && j != touched && SessionPlaced(s, w, j)
    ensures LiveAt(s', w', j) == LiveAt(s, w, j) && s'.sessions[j].id == s.sessions[j].id
  {
  }

  /** A step, by what it does to the map and to the session it touches. */
  ghost predicate MapStep(s: State, w: seq<Place>, s': State, w': seq<Place>, t: Thread) {
    && Acting(s, w, t) && |w'| == |w| == |s'.sessions|
    && s'.active == ActiveThen(s, s.tasks[t])
    && (Touched(s, t) < |w| ==> LiveAfter(s, w, s', w', s.tasks[t], Touched(s, t)))
    && (forall j :: 0 <= j < |w| && j != Touched(s, t) ==>
         LiveAt(s', w', j) == LiveAt(s, w, j) && s'.sessions[j].id == s.sessions[j].id)
    && (forall id :: id in s.active ==> MapOk(s, w, id))
  }

  lemma StepIsMapStep(s: State, w: seq<Place>, t: Thread)
    requires Inv(s, w) && CanStep(s, t)
    ensures MapStep(s, w, StepTask(s, t), PlacesAfterStep(s.tasks[t], w), t)
  {
    var s', w', touched := StepTask(s, t), PlacesAfterStep(s.tasks[t], w), Touched(s, t);
    assert TaskOk(s, w, t);
    StepFrame(s, w, t);
    ActiveAfter(s, t);
    if touched < |w| {
      TouchedLive(s, w, t);
    }
    forall j | 0 <= j < |w| && j != touched
      ensures LiveAt(s', w', j) == LiveAt(s, w, j) && s'.sessions[j].id == s.sessions[j].id
    {
      assert SessionPlaced(s, w, j) by { assert SessionOk(s, w, j); }
      LiveKept(s, w, s', w', t, touched, j);
    }
  }

  lemma MapStepExact(s: State, w: seq<Place>, s': State, w': seq<Place>, t: Thread)
    requires MapStep(s, w, s', w', t) && ExactAt(s, w)
    ensures ExactAt(s', w') <==> !Overwrites(s, Step(t))
  {
    if Overwrites(s, Step(t)) {
      var other := s.active[s.sessions[Touched(s, t)].id];
      assert MapOk(s, w, s.sessions[Touched(s, t)].id);
      assert LiveAt(s', w', other) && !Mapped(s', other);
    } else {
      forall j | 0 <= j < |w'| && LiveAt(s', w', j)
        ensures Mapped(s', j)
      {
        assert j != Touched(s, t) ==> Mapped(s, j);
      }
    }
  }

  lemma ExactStep(s: State, w: seq<Place>, t: Thread)
    requires Inv(s, w) && CanStep(s, t) && ExactAt(s, w)
    ensures ExactAt(StepTask(s, t), PlacesAfterStep(s.tasks[t], w)) <==> !Overwrites(s, Step(t))
  {
    StepIsMapStep(s, w, t);
    MapStepExact(s, w, StepTask(s, t), PlacesAfterStep(s.tasks[t], w), t);
  }

  /** Other actions neither insert nor erase. */
  lemma ExactOther(s: State, w: seq<Place>, a: Action)
    requires Inv(s, w) && Enabled(s, a) && !a.Step? && ExactAt(s, w)
    ensures ExactAt(Apply(s, a), NextPlaces(s, w, a))
  {
    var s', w' := Apply(s, a), NextPlaces(s, w, a);
    forall sid | 0 <= sid < |w'| && LiveAt(s', w', sid)
      ensures Mapped(s', sid)
    {
      if sid < |w| {
        assert SessionOk(s, w, sid);
        LiveBefore(s, w, a, sid);
      }
    }
  }

  lemma LiveBefore(s: State, w: seq<Place>, a: Action, sid: Sid)
    requires |w| == |s.sessions| && Enabled(s, a) && !a.Step? && sid < |w| && SessionPlaced(s, w, sid)
    requires LiveAt(Apply(s, a), NextPlaces(s, w, a), sid)
    ensures LiveAt(s, w, sid) && Apply(s, a).active == s.active && Apply(s, a).sessions[sid] == s.sessions[sid]
  {
    if a.Dispatch? && a.sid == sid {
      assert s.queue[PendingOp(sid, a.completion.Op())] == 1;
    }
  }

  lemma ExactAction(s: State, w: seq<Place>, a: Action)
    requires Inv(s, w) && Enabled(s, a) && ExactAt(s, w)
    ensures ExactAt(Apply(s, a), NextPlaces(s, w, a)) <==> !Overwrites(s, a)
  {
    if a.Step? {
      ExactStep(s, w, a.thread);
    } else {
      ExactOther(s, w, a);
    }
  }

  /**
    In every state of a run the map holds exactly the sessions that were inserted and not
    yet erased, if and only if no insertion of the run finds its id in the map.
   */
  lemma {:induction false} MapExactIffNoOverwrite(ioThreads: nat, run: seq<Action>)
    requires IsRun(ioThreads, run)
    ensures AlwaysExact(ioThreads, run) <==> NeverOverwrites(ioThreads, run)
    decreases |run|
  {
    ExactIffExactAt(Final(ioThreads, run), Places(ioThreads, run));
    if run != [] {
      var before, a := run[..|run| - 1], run[|run| - 1];
      var s, w := Final(ioThreads, before), Places(ioThreads, before);
      MapExactIffNoOverwrite(ioThreads, before);
      ExactIffExactAt(s, w);
      if AlwaysExact(ioThreads, before) {
        ExactAction(s, w, a);
      }
    }
  }

  /** An insertion makes the session findable under its id, and an erase leaves nothing under its id, whose entry it was. */
  lemma MapAfterEvent(ioThreads: nat, run: seq<Action>, a: Action, sid: Sid)
    requires IsRun(ioThreads, run) && Enabled(Final(ioThreads, run), a) && sid < |Final(ioThreads, run).sessions|
    ensures var s, s' := Final(ioThreads, run), Apply(Final(ioThreads, run), a);
            && (s'.log == s.log + [Inserted(sid)] ==> s'.active == s.active[s.sessions[sid].id := sid])
            && (s'.log == s.log + [Erased(sid)] ==> s'.active == s.active - {s.sessions[sid].id})
  {
    var s, s' := Final(ioThreads, run), Apply(Final(ioThreads, run), a);
    if a.Step? {
      ActiveAfter(s, a.thread);
      LogAfter(s, a.thread);
    }
    if s'.log == s.log + [Inserted(sid)] || s'.log == s.log + [Erased(sid)] {
      assert s'.log[|s.log|] == Inserted(sid) || s'.log[|s.log|] == Erased(sid);
    }
  }

  /** The insertion and the erase are the events of the two steps that change the map, and of no other. */
  lemma LogAfter(s: State, t: Thread)
    requires CanStep(s, t)
    ensures var k, s' := s.tasks[t], StepTask(s, t);
            && |s.log| <= |s'.log| <= |s.log| + 1
            && (|s'.log| == |s.log| + 1 ==>
                 && (s'.log[|s.log|].Inserted? <==> Inserts(k)) && (Inserts(k) ==> s'.log[|s.log|].sid == k.sid)
                 && (s'.log[|s.log|].Erased? <==> Erases(k)) && (Erases(k) ==> s'.log[|s.log|].sid == k.sid))
  {
    match s.tasks[t]
    case Starting(_, _) => StartEvent(s, t);
    case Cancelling(_, _) => CancelEvent(s, t);
    case Handling(_, step) =>
      assert StepTask(s, t).log == s.log;
    case Completing(_, _, _) => CompleteEvent(s, t);
  }

  lemma StartEvent(s: State, t: Thread)
    requires CanStep(s, t) && s.tasks[t].Starting?
    ensures StepStart(s, t).log == if Inserts(s.tasks[t]) then s.log + [Inserted(s.tasks[t].sid)] else s.log
  {
  }

  lemma CancelEvent(s: State, t: Thread)
    requires CanStep(s, t) && s.tasks[t].Cancelling?
    ensures StepCancel(s, t).log == s.log || exists sid :: StepCancel(s, t).log == s.log + [Found(sid)]
  {
    if s.tasks[t].cancel.CancelFind? && s.tasks[t].id in s.active {
      assert StepCancel(s, t).log == s.log + [Found(s.active[s.tasks[t].id])];
    } else {
      assert StepCancel(s, t).log == s.log;
    }
  }

  lemma CompleteEvent(s: State, t: Thread)
    requires CanStep(s, t) && s.tasks[t].Completing?
    ensures var k, log := s.tasks[t], StepComplete(s, t).log;
            if Erases(k) then log == s.log + [Erased(k.sid)]
            else log == s.log || (|log| == |s.log| + 1 && log[|s.log|].Called?)
  {
  }

  predicate DistinctIds(sessions: seq<Session>) {
    forall i, j :: 0 <= i < j < |sessions| ==> sessions[i].id != sessions[j].id
  }

  lemma OverwriteRepeatsId(s: State, w: seq<Place>, a: Action)
    requires Inv(s, w) && Enabled(s, a) && Overwrites(s, a)
    ensures !DistinctIds(s.sessions)
  {
    var sid := s.tasks[a.thread].sid;
    var other := s.active[s.sessions[sid].id];
    assert TaskOk(s, w, a.thread) && MapOk(s, w, s.sessions[sid].id);
    assert other != sid && s.sessions[other].id == s.sessions[sid].id;
  }

  lemma IdsStay(s: State, w: seq<Place>, a: Action)
    requires Inv(s, w) && Enabled(s, a)
    ensures |Apply(s, a).sessions| >= |s.sessions|
    ensures forall sid :: 0 <= sid < |s.sessions| ==> Apply(s, a).sessions[sid].id == s.sessions[sid].id
  {
    if a.Step? {
      StepFrame(s, w, a.thread);
    }
  }

  /** Sessions with distinct ids never overwrite each other. */
  lemma {:induction false} DistinctIdsNeverOverwrite(ioThreads: nat, run: seq<Action>)
    requires IsRun(ioThreads, run) && DistinctIds(Final(ioThreads, run).sessions)
    ensures NeverOverwrites(ioThreads, run)
    decreases |run|
  {
    if run != [] {
      var before, a := run[..|run| - 1], run[|run| - 1];
      var s := Final(ioThreads, before);
      IdsStay(s, Places(ioThreads, before), a);
      assert DistinctIds(s.sessions);
      DistinctIdsNeverOverwrite(ioThreads, before);
      if Overwrites(s, a) {
        OverwriteRepeatsId(s, Places(ioThreads, before), a);
      }
    }
  }
}
