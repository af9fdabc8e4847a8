/** What the client does in terms of the calls that its users make. */
module ClientCalls {
  import opened Wrappers
  import opened Hex
  import opened TraceContextCodec
  import opened TraceServer
  import opened ClientProtocol
  import opened ClientInvariant
  import opened ClientPreservation
  import opened ClientTheorems
  import opened ClientProgress

  /** The start calls of a run, in their order. */
  function Starts(run: seq<Action>): (starts: seq<Action>)
    ensures forall sid :: 0 <= sid < |starts| ==> starts[sid].BeginStart?
  {
    if run == [] then []
    else if run[|run| - 1].BeginStart? then Starts(run[..|run| - 1]) + [run[|run| - 1]]
    else Starts(run[..|run| - 1])
  }

  /** A session keeps its first request until its connect hands out ids. */
  predicate KeepsRequest(x: Session, y: Session) {
    y.drawn.None? ==> x.drawn.None? && y.request == x.request
  }

  lemma CancelKeepsRequest(s: State, w: seq<Place>, t: Thread, sid: Sid)
    requires Acting(s, w, t) && s.tasks[t].Cancelling? && sid < |w|
    ensures KeepsRequest(s.sessions[sid], StepCancel(s, t).sessions[sid])
  {
  }

  lemma HandlerKeepsRequest(s: State, w: seq<Place>, t: Thread, sid: Sid)
    requires Acting(s, w, t) && s.tasks[t].Handling? && !s.tasks[t].handler.HandlerEntry? && sid < |w|
    requires SessionPlaced(s, w, sid) && SessionTraced(s, w, sid)
    ensures KeepsRequest(s.sessions[sid], StepHandler(s, t).sessions[sid])
  {
    if s.tasks[t].handler.HandlerNext? && s.tasks[t].sid == sid {
      assert w[sid] == WithThread(t);
      assert ResumeTraced(s.tasks[t].handler.resume, sid, Trace(s.log, sid), s.sessions[sid]);
    }
  }

  lemma EntryKeepsRequest(s: State, w: seq<Place>, t: Thread, sid: Sid)
    requires Acting(s, w, t) && s.tasks[t].Handling? && s.tasks[t].handler.HandlerEntry? && sid < |w|
    ensures KeepsRequest(s.sessions[sid], StepEntry(s, t).sessions[sid])
  {
  }

  lemma CompleteKeepsRequest(s: State, w: seq<Place>, t: Thread, sid: Sid)
    requires Acting(s, w, t) && s.tasks[t].Completing? && sid < |w|
    ensures KeepsRequest(s.sessions[sid], StepComplete(s, t).sessions[sid])
  {
  }

  lemma StepKeepsRequest(s: State, w: seq<Place>, t: Thread, sid: Sid)
    requires Inv(s, w) && CanStep(s, t) && sid < |w|
    ensures KeepsRequest(s.sessions[sid], StepTask(s, t).sessions[sid])
  {
    assert TaskOk(s, w, t) && SessionOk(s, w, sid);
    match s.tasks[t]
    case Starting(_, _) => assert StepStart(s, t).sessions == s.sessions;
    case Cancelling(_, _) => CancelKeepsRequest(s, w, t, sid);
    case Handling(_, step) =>
      if step.HandlerEntry? {
        EntryKeepsRequest(s, w, t, sid);
      } else {
        HandlerKeepsRequest(s, w, t, sid);
      }
    case Completing(_, _, _) => CompleteKeepsRequest(s, w, t, sid);
  }

  /**
    Session number `sid` is that of the start call number `sid`, with its id and its span, and
    until the connect succeeds with the request that the call has written.
   */
  lemma {:induction false} SessionsAreStarts(ioThreads: nat, run: seq<Action>)
    requires IsRun(ioThreads, run)
    ensures var s, starts := Final(ioThreads, run), Starts(run);
            && |s.sessions| == |starts|
            && forall sid :: 0 <= sid < |starts| ==>
                 && s.sessions[sid].id == starts[sid].id && s.sessions[sid].caller == starts[sid].active
                 && (s.sessions[sid].drawn.None? ==>
                      s.sessions[sid].request == Request(starts[sid].duration, starts[sid].active))
    decreases |run|
  {
    if run != [] {
      var before, a := run[..|run| - 1], run[|run| - 1];
      SessionsAreStarts(ioThreads, before);
      if a.Step? {
        StepFrame(Final(ioThreads, before), Places(ioThreads, before), a.thread);
        forall sid | 0 <= sid < |Final(ioThreads, before).sessions|
          ensures KeepsRequest(Final(ioThreads, before).sessions[sid], Final(ioThreads, run).sessions[sid])
        {
          StepKeepsRequest(Final(ioThreads, before), Places(ioThreads, before), a.thread, sid);
        }
      }
    }
  }

  /**
    On every interleaving, the caller's span, the line that its session writes and the span
    that the server starts for it are in one trace: the server's parent is the span of the
    connect handler, whose parent is the caller's span.
   */
  lemma OneTraceFromCallerToServer(ioThreads: nat, run: seq<Action>, sid: Sid, flagsFromHex: string -> Byte)
    requires IsRun(ioThreads, run) && PendingOp(sid, Write) in Final(ioThreads, run).queue
    ensures var s := Final(ioThreads, run);
            && sid < |Starts(run)| == |s.sessions| && s.sessions[sid].drawn.Some?
            && Completed(sid, Connect, Success, "", s.sessions[sid].drawn) in s.log
            && var caller, drawn, line := Starts(run)[sid].active, s.sessions[sid].drawn.value, s.sessions[sid].request.Line();
            && SliceInRange(line)
            && (caller.IsValid() && drawn.IsValid() ==>
                 var span := drawn.(traceId := caller.traceId);
                 && |line| >= CONTEXT_OFFSET + TRAILER && ContextSlice(line) == Serialize(span)
                 && ReplyTo(line, flagsFromHex)
                    == Reply("Response\n", Some(ChildOf(SpanContext(caller.traceId, drawn.spanId,
                                                                    flagsFromHex(ToLowerBase16([drawn.flags])), true)))))
  {
    var s := Final(ioThreads, run);
    SessionsAreStarts(ioThreads, run);
    WrittenLineContinuesTrace(ioThreads, run, sid, flagsFromHex);
    assert Trace(s.log, sid)[1] == Completed(sid, Connect, Success, "", s.sessions[sid].drawn);
    TraceInLog(s.log, sid, Trace(s.log, sid)[1]);
    var caller, drawn := Starts(run)[sid].active, s.sessions[sid].drawn.value;
    if caller.IsValid() && drawn.IsValid() {
      ChildSharesTrace(caller, drawn);
      SentLineContinuesTrace(StartedUnder(caller, drawn), flagsFromHex);
    }
  }

  // Cancel calls

  /** How often a run cancels an id. */
  function CancelCalls(run: seq<Action>, id: RequestId): nat {
    if run == [] then 0
    else CancelCalls(run[..|run| - 1], id) + Bit(run[|run| - 1].BeginCancel? && run[|run| - 1].id == id)
  }

  /** A cancel call that has not looked its id up yet. */
  predicate Seeks(k: Task, id: RequestId) {
    k.Cancelling? && k.id == id && (k.cancel.CancelLock? || k.cancel.CancelFind?)
  }

  ghost function Seekers(s: State, id: RequestId): set<Thread> {
    set t | t in s.tasks && Seeks(s.tasks[t], id)
  }

  predicate LooksUp(s: State, a: Action, id: RequestId) {
    a.Step? && a.thread in s.tasks && Seeks(s.tasks[a.thread], id) && s.tasks[a.thread].cancel.CancelFind?
  }

  lemma StepSeeks(s: State, t: Thread, id: RequestId)
    requires CanStep(s, t) && s.tasks[t].Cancelling?
    ensures var s' := StepCancel(s, t);
            t in s'.tasks && Seeks(s'.tasks[t], id) <==> Seeks(s.tasks[t], id) && s.tasks[t].cancel.CancelLock?
  {
  }

  lemma StartSeeksNothing(s: State, t: Thread)
    requires CanStep(s, t) && s.tasks[t].Starting?
    ensures t in StepStart(s, t).tasks ==> StepStart(s, t).tasks[t].Starting?
  {
  }

  lemma ActorSeeks(s: State, w: seq<Place>, t: Thread, id: RequestId)
    requires Inv(s, w) && CanStep(s, t)
    ensures var s' := StepTask(s, t);
            t in s'.tasks && Seeks(s'.tasks[t], id) <==> Seeks(s.tasks[t], id) && s.tasks[t].cancel.CancelLock?
  {
    ActorOk(s, w, t);
    assert TaskOk(s, w, t);
    if s.tasks[t].Cancelling? {
      StepSeeks(s, t, id);
    } else if s.tasks[t].Starting? {
      StartSeeksNothing(s, t);
    }
  }

  /** Only a new cancel call starts to look for an id, and its lookup ends that. */
  lemma SeekersAfter(s: State, w: seq<Place>, a: Action, id: RequestId)
    requires Inv(s, w) && Enabled(s, a)
    ensures Seekers(Apply(s, a), id)
         == if a.BeginCancel? && a.id == id then Seekers(s, id) + {a.thread}
            else if LooksUp(s, a, id) then Seekers(s, id) - {a.thread}
            else Seekers(s, id)
  {
    if a.Step? {
      StepFrame(s, w, a.thread);
      ActorSeeks(s, w, a.thread, id);
    }
  }

  lemma SeekersCount(s: State, w: seq<Place>, a: Action, id: RequestId)
    requires Inv(s, w) && Enabled(s, a)
    ensures |Seekers(Apply(s, a), id)| + Bit(LooksUp(s, a, id)) <= |Seekers(s, id)| + Bit(a.BeginCancel? && a.id == id)
  {
    SeekersAfter(s, w, a, id);
  }

  lemma CancelLog(s: State, t: Thread, sid: Sid)
    requires CanStep(s, t) && s.tasks[t].Cancelling?
    ensures var k := s.tasks[t];
            FoundCount(StepCancel(s, t).log, sid)
            == FoundCount(s.log, sid) + Bit(k.cancel.CancelFind? && k.id in s.active && s.active[k.id] == sid)
  {
    if s.tasks[t].cancel.CancelFind? && s.tasks[t].id in s.active {
      TraceAppend(s.log, Found(s.active[s.tasks[t].id]));
    }
  }

  lemma StartLog(s: State, t: Thread, sid: Sid)
    requires CanStep(s, t) && s.tasks[t].Starting?
    ensures FoundCount(StepStart(s, t).log, sid) == FoundCount(s.log, sid)
  {
    TraceAppend(s.log, Inserted(s.tasks[t].sid));
  }

  lemma HandlerLog(s: State, t: Thread, sid: Sid)
    requires CanStep(s, t) && s.tasks[t].Handling? && !s.tasks[t].handler.HandlerEntry?
    ensures FoundCount(StepHandler(s, t).log, sid) == FoundCount(s.log, sid)
  {
    assert StepHandler(s, t).log == s.log;
  }

  lemma CompleteLog(s: State, t: Thread, sid: Sid)
    requires CanStep(s, t) && s.tasks[t].Completing?
    ensures FoundCount(StepComplete(s, t).log, sid) == FoundCount(s.log, sid)
  {
    var Completing(own, _, step) := s.tasks[t];
    if step.CompleteErase? {
      TraceAppend(s.log, Erased(own));
    } else if step.CompleteCall? {
      TraceAppend(s.log, Called(own, s.sessions[own].id, s.sessions[own].response, step.ec));
    } else {
      assert StepComplete(s, t).log == s.log;
    }
  }

  /** A lookup finds the session that the map has under the id, if it has one, and finds nothing otherwise. */
  lemma LookupFindsEntry(ioThreads: nat, run: seq<Action>, a: Action, id: RequestId)
    requires IsRun(ioThreads, run) && Enabled(Final(ioThreads, run), a) && LooksUp(Final(ioThreads, run), a, id)
    ensures var s := Final(ioThreads, run);
            Apply(s, a).log == if id in s.active then s.log + [Found(s.active[id])] else s.log
  {
    assert Apply(Final(ioThreads, run), a) == StepCancel(Final(ioThreads, run), a.thread);
  }

  lemma StepFound(s: State, w: seq<Place>, t: Thread, sid: Sid)
    requires Inv(s, w) && CanStep(s, t) && sid < |w|
    ensures FoundCount(StepTask(s, t).log, sid)
         <= FoundCount(s.log, sid) + Bit(LooksUp(s, Step(t), s.sessions[sid].id))
  {
    match s.tasks[t]
    case Starting(_, _) => StartLog(s, t, sid);
    case Cancelling(id, _) =>
      assert id in s.active ==> MapOk(s, w, id);
      CancelLog(s, t, sid);
    case Handling(_, step) =>
      if !step.HandlerEntry? {
        HandlerLog(s, t, sid);
      }
    case Completing(_, _, _) => CompleteLog(s, t, sid);
  }

  /** A session is found only by a lookup of its own id. */
  lemma FoundAfter(s: State, w: seq<Place>, a: Action, sid: Sid)
    requires Inv(s, w) && Enabled(s, a) && sid < |w|
    ensures FoundCount(Apply(s, a).log, sid) <= FoundCount(s.log, sid) + Bit(LooksUp(s, a, s.sessions[sid].id))
  {
    match a
    case Dispatch(_, own, c) => TraceAppend(s.log, Completed(own, c.Op(), c.ec, c.Text(), c.Drawn()));
    case Step(t) => StepFound(s, w, t, sid);
    case _ =>
  }

  /** Calls that are still looking an id up were made, and each call finds one session at most. */
  ghost predicate Counted(s: State, run: seq<Action>) {
    && (forall id :: |Seekers(s, id)| <= CancelCalls(run, id))
    && (forall sid :: 0 <= sid < |s.sessions| ==>
         FoundCount(s.log, sid) + |Seekers(s, s.sessions[sid].id)| <= CancelCalls(run, s.sessions[sid].id))
  }

  lemma CountedAfter(s: State, w: seq<Place>, run: seq<Action>)
    requires run != [] && Inv(s, w) && Enabled(s, run[|run| - 1]) && Counted(s, run[..|run| - 1])
    ensures Counted(Apply(s, run[|run| - 1]), run)
  {
    var a := run[|run| - 1];
    var s' := Apply(s, a);
    forall id
      ensures |Seekers(s', id)| <= CancelCalls(run, id)
    {
      SeekersCount(s, w, a, id);
    }
    IdsStay(s, w, a);
    forall sid | 0 <= sid < |s'.sessions|
      ensures FoundCount(s'.log, sid) + |Seekers(s', s'.sessions[sid].id)| <= CancelCalls(run, s'.sessions[sid].id)
    {
      SeekersCount(s, w, a, s'.sessions[sid].id);
      if sid < |w| {
        FoundAfter(s, w, a, sid);
      } else {
        assert NoEvents(s, sid);
        NewSessionIsUnfound(s, a, sid);
      }
    }
  }

  lemma NewSessionIsUnfound(s: State, a: Action, sid: Sid)
    requires Enabled(s, a) && |s.sessions| <= sid < |Apply(s, a).sessions|
    ensures Apply(s, a).log == s.log
  {
  }

  lemma {:induction false} CallsAreCounted(ioThreads: nat, run: seq<Action>)
    requires IsRun(ioThreads, run)
    ensures Counted(Final(ioThreads, run), run)
    decreases |run|
  {
    if run != [] {
      var before := run[..|run| - 1];
      CallsAreCounted(ioThreads, before);
      CountedAfter(Final(ioThreads, before), Places(ioThreads, before), run);
    }
  }

  /** A session is found no more often than its id was cancelled. */
  lemma FoundWithinCalls(ioThreads: nat, run: seq<Action>, sid: Sid)
    requires IsRun(ioThreads, run) && sid < |Final(ioThreads, run).sessions|
    ensures FoundCount(Final(ioThreads, run).log, sid) <= CancelCalls(run, Final(ioThreads, run).sessions[sid].id)
  {
    CallsAreCounted(ioThreads, run);
  }

  ghost predicate CancelsAtMost(run: seq<Action>, limit: nat) {
    forall id :: CancelCalls(run, id) <= limit
  }

  /** No deadlock as long as no id is cancelled twice. */
  lemma NoDeadlockIfCancelledOnce(ioThreads: nat, run: seq<Action>)
    requires IsRun(ioThreads, run) && Final(ioThreads, run).tasks != map[] && CancelsAtMost(run, 1)
    ensures SomeTaskSteps(Final(ioThreads, run))
  {
    forall sid | 0 <= sid < |Final(ioThreads, run).sessions|
      ensures FoundCount(Final(ioThreads, run).log, sid) <= 1
    {
      FoundWithinCalls(ioThreads, run, sid);
    }
    NoDeadlock(ioThreads, run);
  }
}
