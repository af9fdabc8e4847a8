/** Every action keeps the invariant: first what it leaves alone, then the one session it touches. */
module ClientPreservation {
  import opened Wrappers
  import opened ClientProtocol
  import opened ClientInvariant

  /** A session keeps its trace and progress as long as its place, its task and its fields stay. */
  lemma TraceKept(s: State, w: seq<Place>, s': State, w': seq<Place>, sid: Sid)
    requires sid < |w| == |s.sessions| && sid < |w'| == |s'.sessions|
    requires w'[sid] == w[sid] && SamePlaceTask(s, w, s', sid)
    requires Trace(s'.log, sid) == Trace(s.log, sid)
    requires s'.sessions[sid].(cancelGuard := None) == s.sessions[sid].(cancelGuard := None)
    requires SessionSound(s, w, sid)
    ensures SessionSound(s', w', sid)
  {
  }

  predicate SamePlaceTask(s: State, w: seq<Place>, s': State, sid: Sid)
    requires sid < |w|
  {
    w[sid].WithThread? && w[sid].thread in s.tasks ==>
      w[sid].thread in s'.tasks && s'.tasks[w[sid].thread] == s.tasks[w[sid].thread]
  }

  /** Only cancel calls are on their way to a mark, so other steps do not change who is being cancelled. */
  lemma BeingKept(s: State, s': State, t: Thread, sid: Sid)
    requires t in s.tasks && !s.tasks[t].Cancelling? && GuardOwner(s, t)
    requires t in s'.tasks ==> !s'.tasks[t].Cancelling?
    requires forall u :: u != t ==> (u in s.tasks <==> u in s'.tasks) && (u in s.tasks ==> s'.tasks[u] == s.tasks[u])
    requires s'.sessionsGuard == s.sessionsGuard
             || (s.sessionsGuard == None && s'.sessionsGuard == Some(t)) || (s.sessionsGuard == Some(t) && s'.sessionsGuard == None)
    ensures BeingCancelled(s', sid) == BeingCancelled(s, sid)
  {
  }

  lemma CancelledKept(s: State, w: seq<Place>, s': State, w': seq<Place>, sid: Sid)
    requires sid < |w| == |s.sessions| && sid < |w'| == |s'.sessions|
    requires w'[sid] == w[sid] && (w[sid].WithThread? ==> w[sid].thread in s.tasks) && SamePlaceTask(s, w, s', sid)
    requires SameEvents(s, s', sid)
    requires s'.sessions[sid].wasCancelled == s.sessions[sid].wasCancelled
    requires BeingCancelled(s', sid) == BeingCancelled(s, sid)
    requires SessionCancelled(s, w, sid)
    ensures SessionCancelled(s', w', sid)
  {
  }

  lemma FrameSession(s: State, w: seq<Place>, s': State, w': seq<Place>, t: Thread, touched: Sid, j: Sid)
    requires Frame(s, w, s', w', t, touched) && j < |w| && j != touched
    requires SessionOk(s, w, j)
    ensures SessionOk(s', w', j)
  {
    assert w[j] != WithThread(t) && SameEvents(s, s', j);
    TraceKept(s, w, s', w', j);
    CancelledKept(s, w, s', w', j);
  }

  lemma FrameTask(s: State, w: seq<Place>, s': State, w': seq<Place>, t: Thread, touched: Sid, u: Thread)
    requires Frame(s, w, s', w', t, touched) && u != t && u in s.tasks
    requires TaskOk(s, w, u)
    ensures TaskOk(s', w', u)
  {
  }

  lemma FrameMap(s: State, w: seq<Place>, s': State, w': seq<Place>, t: Thread, touched: Sid, id: RequestId)
    requires Frame(s, w, s', w', t, touched) && id in s.active && id in s'.active
    requires s'.active[id] == s.active[id] != touched
    requires MapOk(s, w, id) && SessionOk(s, w, s.active[id])
    ensures MapOk(s', w', id)
  {
  }

  /** Where the work is after an action. */
  function NextPlaces(s: State, w: seq<Place>, a: Action): seq<Place>
    requires Enabled(s, a) && |w| == |s.sessions|
  {
    match a
    case BeginStart(t, _, _, _) => w + [WithThread(t)]
    case Dispatch(t, sid, _) => if sid < |w| then w[sid := WithThread(t)] else w
    case Step(t) => PlacesAfterStep(s.tasks[t], w)
    case _ => w
  }

  function PlacesAfterStep(k: Task, w: seq<Place>): seq<Place>
    requires TaskSid(k).Some? ==> TaskSid(k).value < |w|
  {
    match k
    case Starting(sid, step) => if step.StartConnect? then w[sid := Queued(Connect)] else w
    case Cancelling(_, _) => w
    case Handling(sid, step) => if step.HandlerNext? then w[sid := Queued(step.resume.Next())] else w
    case Completing(sid, site, step) => if step.CompleteCall? then w[sid := Finished(site)] else w
  }

  /** The obligations of one action of thread `t` on the session it touches. */
  ghost predicate Moves(s: State, w: seq<Place>, s': State, w': seq<Place>, t: Thread, touched: Sid) {
    && Frame(s, w, s', w', t, touched)
    && (touched < |w'| ==> SessionOk(s', w', touched))
    && (t in s'.tasks ==> TaskOk(s', w', t))
    && (s'.sessionsGuard == Some(t) ==> t in s'.tasks && HoldsSessions(s'.tasks[t]))
    && (forall id :: id in s'.active ==> (id in s.active && s'.active[id] == s.active[id] != touched) || MapOk(s', w', id))
  }

  lemma MovesKeepInv(s: State, w: seq<Place>, s': State, w': seq<Place>, t: Thread, touched: Sid)
    requires Inv(s, w) && Moves(s, w, s', w', t, touched)
    ensures Inv(s', w')
  {
    forall sid | 0 <= sid < |w'|
      ensures SessionOk(s', w', sid)
    {
      if sid != touched {
        FrameSession(s, w, s', w', t, touched, sid);
      }
    }
    forall sid: Sid | sid >= |w'|
      ensures NoEvents(s', sid)
    {
      assert NoEvents(s, sid) && (sid != touched ==> SameEvents(s, s', sid));
    }
    forall u | u in s'.tasks
      ensures TaskOk(s', w', u)
    {
      if u != t {
        FrameTask(s, w, s', w', t, touched, u);
      }
    }
    forall id | id in s'.active
      ensures MapOk(s', w', id)
    {
      if id in s.active && s'.active[id] == s.active[id] != touched {
        FrameMap(s, w, s', w', t, touched, id);
      }
    }
  }

  lemma TraceAppend(log: seq<Event>, e: Event)
    ensures forall sid :: Trace(log + [e], sid) == if e.sid == sid && !e.Found? then Trace(log, sid) + [e] else Trace(log, sid)
    ensures forall sid :: FoundCount(log + [e], sid) == FoundCount(log, sid) + Bit(e == Found(sid))
  {
    assert (log + [e])[..|log|] == log;
  }

  /** The session that a step touches; a number out of range when there is none. */
  function Touched(s: State, t: Thread): Sid
    requires CanStep(s, t)
  {
    var k := s.tasks[t];
    if k.Cancelling? && k.cancel.CancelFind? && k.id in s.active then s.active[k.id]
    else if TaskSid(k).Some? then TaskSid(k).value
    else |s.sessions|
  }

  /** A task that can act, as the invariant describes it. */
  predicate Acting(s: State, w: seq<Place>, t: Thread) {
    |w| == |s.sessions| && CanStep(s, t) && TaskOk(s, w, t)
  }

  lemma FrameStartConnect(s: State, w: seq<Place>, t: Thread)
    requires Acting(s, w, t) && s.tasks[t].Starting?
    requires s.tasks[t].start.StartConnect?
    ensures Frame(s, w, StepStart(s, t), PlacesAfterStep(s.tasks[t], w), t, Touched(s, t))
  {
    var s' := StepStart(s, t);
    assert s'.log == s.log && s'.queue == s.queue + multiset{PendingOp(s.tasks[t].sid, Connect)};
  }

  lemma FrameStartElse(s: State, w: seq<Place>, t: Thread)
    requires Acting(s, w, t) && s.tasks[t].Starting?
    requires !s.tasks[t].start.StartConnect?
    ensures Frame(s, w, StepStart(s, t), PlacesAfterStep(s.tasks[t], w), t, Touched(s, t))
  {
    var sid, s' := s.tasks[t].sid, StepStart(s, t);
    TraceAppend(s.log, Inserted(sid));
    assert s'.log == (if s.tasks[t].start.StartInsert? then s.log + [Inserted(sid)] else s.log) && s'.queue == s.queue;
  }

  lemma FrameStart(s: State, w: seq<Place>, t: Thread)
    requires Acting(s, w, t) && s.tasks[t].Starting?
    ensures Frame(s, w, StepStart(s, t), PlacesAfterStep(s.tasks[t], w), t, Touched(s, t))
  {
    if s.tasks[t].start.StartConnect? {
      FrameStartConnect(s, w, t);
    } else {
      FrameStartElse(s, w, t);
    }
  }

  lemma TaskStart(s: State, w: seq<Place>, t: Thread)
    requires Acting(s, w, t) && GuardOwner(s, t) && s.tasks[t].Starting?
    ensures var s' := StepStart(s, t);
            (t in s'.tasks ==> TaskOk(s', PlacesAfterStep(s.tasks[t], w), t)) && GuardOwner(s', t)
  {
  }

  lemma PlacedStart(s: State, w: seq<Place>, t: Thread)
    requires Acting(s, w, t) && GuardOwner(s, t) && s.tasks[t].Starting?
    requires Touched(s, t) < |w| && SessionPlaced(s, w, Touched(s, t)) && SessionLocked(s, Touched(s, t))
    ensures var s', w' := StepStart(s, t), PlacesAfterStep(s.tasks[t], w);
            SessionPlaced(s', w', Touched(s, t)) && SessionLocked(s', Touched(s, t))
  {
  }

  lemma SoundStartInsert(s: State, w: seq<Place>, t: Thread)
    requires Acting(s, w, t) && GuardOwner(s, t) && s.tasks[t].Starting?
    requires Touched(s, t) < |w| && SessionPlaced(s, w, Touched(s, t)) && SessionSound(s, w, Touched(s, t))
    requires s.tasks[t].start.StartInsert?
    ensures var s', w' := StepStart(s, t), PlacesAfterStep(s.tasks[t], w);
            SessionSound(s', w', Touched(s, t))
  {
    TraceAppend(s.log, Inserted(s.tasks[t].sid));
  }

  lemma SoundStartElse(s: State, w: seq<Place>, t: Thread)
    requires Acting(s, w, t) && GuardOwner(s, t) && s.tasks[t].Starting?
    requires Touched(s, t) < |w| && SessionPlaced(s, w, Touched(s, t)) && SessionSound(s, w, Touched(s, t))
    requires !s.tasks[t].start.StartInsert?
    ensures var s', w' := StepStart(s, t), PlacesAfterStep(s.tasks[t], w);
            SessionSound(s', w', Touched(s, t))
  {
  }

  lemma SoundStart(s: State, w: seq<Place>, t: Thread)
    requires Acting(s, w, t) && GuardOwner(s, t) && s.tasks[t].Starting?
    requires Touched(s, t) < |w| && SessionPlaced(s, w, Touched(s, t)) && SessionSound(s, w, Touched(s, t))
    ensures var s', w' := StepStart(s, t), PlacesAfterStep(s.tasks[t], w);
            SessionSound(s', w', Touched(s, t))
  {
    if s.tasks[t].start.StartInsert? {
      SoundStartInsert(s, w, t);
    } else {
      SoundStartElse(s, w, t);
    }
  }

  lemma CancelledStart(s: State, w: seq<Place>, t: Thread)
    requires Acting(s, w, t) && GuardOwner(s, t) && s.tasks[t].Starting?
    requires Touched(s, t) < |w| && SessionPlaced(s, w, Touched(s, t)) && SessionCancelled(s, w, Touched(s, t))
    ensures var s', w' := StepStart(s, t), PlacesAfterStep(s.tasks[t], w);
            SessionCancelled(s', w', Touched(s, t))
  {
    TraceAppend(s.log, Inserted(s.tasks[t].sid));
  }

  lemma FrameCancelFind(s: State, w: seq<Place>, t: Thread)
    requires Acting(s, w, t) && s.tasks[t].Cancelling?
    requires s.tasks[t].cancel.CancelFind? && (s.tasks[t].id in s.active ==> MapOk(s, w, s.tasks[t].id))
    ensures Frame(s, w, StepCancel(s, t), PlacesAfterStep(s.tasks[t], w), t, Touched(s, t))
  {
    if s.tasks[t].id in s.active {
      TraceAppend(s.log, Found(s.active[s.tasks[t].id]));
    }
  }

  lemma FrameCancelGuarded(s: State, w: seq<Place>, t: Thread)
    requires Acting(s, w, t) && s.tasks[t].Cancelling?
    requires s.tasks[t].cancel.CancelGuard? || s.tasks[t].cancel.CancelMark? || s.tasks[t].cancel.CancelRelease?
    ensures Frame(s, w, StepCancel(s, t), PlacesAfterStep(s.tasks[t], w), t, Touched(s, t))
  {
    var s' := StepCancel(s, t);
    assert s'.log == s.log && s'.queue == s.queue && s'.sessionsGuard == s.sessionsGuard;
  }

  lemma FrameCancelEnds(s: State, w: seq<Place>, t: Thread)
    requires Acting(s, w, t) && s.tasks[t].Cancelling? && (s.tasks[t].cancel.CancelLock? || s.tasks[t].cancel.CancelUnlock?)
    ensures Frame(s, w, StepCancel(s, t), PlacesAfterStep(s.tasks[t], w), t, Touched(s, t))
  {
    var s' := StepCancel(s, t);
    assert s'.log == s.log && s'.queue == s.queue && s'.sessions == s.sessions;
  }

  lemma FrameCancel(s: State, w: seq<Place>, t: Thread)
    requires Acting(s, w, t) && s.tasks[t].Cancelling?
    requires s.tasks[t].cancel.CancelFind? && s.tasks[t].id in s.active ==> MapOk(s, w, s.tasks[t].id)
    ensures Frame(s, w, StepCancel(s, t), PlacesAfterStep(s.tasks[t], w), t, Touched(s, t))
  {
    if s.tasks[t].cancel.CancelFind? {
      FrameCancelFind(s, w, t);
    } else if s.tasks[t].cancel.CancelLock? || s.tasks[t].cancel.CancelUnlock? {
      FrameCancelEnds(s, w, t);
    } else {
      FrameCancelGuarded(s, w, t);
    }
  }

  lemma TaskCancel(s: State, w: seq<Place>, t: Thread)
    requires Acting(s, w, t) && GuardOwner(s, t) && s.tasks[t].Cancelling?
    requires s.tasks[t].cancel.CancelFind? && s.tasks[t].id in s.active ==> MapOk(s, w, s.tasks[t].id)
    ensures var s' := StepCancel(s, t);
            (t in s'.tasks ==> TaskOk(s', PlacesAfterStep(s.tasks[t], w), t)) && GuardOwner(s', t)
  {
  }

  lemma PlacedCancel(s: State, w: seq<Place>, t: Thread)
    requires Acting(s, w, t) && GuardOwner(s, t) && s.tasks[t].Cancelling?
    requires s.tasks[t].cancel.CancelFind? && s.tasks[t].id in s.active ==> MapOk(s, w, s.tasks[t].id)
    requires Touched(s, t) < |w| && SessionPlaced(s, w, Touched(s, t)) && SessionLocked(s, Touched(s, t))
    ensures var s', w' := StepCancel(s, t), PlacesAfterStep(s.tasks[t], w);
            SessionPlaced(s', w', Touched(s, t)) && SessionLocked(s', Touched(s, t))
  {
  }

  /** The mark comes before the erase, so no verdict has been read yet. */
  lemma SoundCancelMark(s: State, w: seq<Place>, t: Thread)
    requires Acting(s, w, t) && GuardOwner(s, t) && s.tasks[t].Cancelling? && s.tasks[t].cancel.CancelMark?
    requires SessionPlaced(s, w, Touched(s, t)) && SessionSound(s, w, Touched(s, t))
    requires SessionCancelled(s, w, Touched(s, t))
    ensures SessionSound(StepCancel(s, t), PlacesAfterStep(s.tasks[t], w), Touched(s, t))
  {
    assert BeingCancelled(s, Touched(s, t));
  }

  /** The other steps change no more of a session than its cancel guard. */
  lemma CancelTouches(s: State, w: seq<Place>, t: Thread)
    requires Acting(s, w, t) && s.tasks[t].Cancelling? && !s.tasks[t].cancel.CancelMark?
    requires s.tasks[t].cancel.CancelFind? && s.tasks[t].id in s.active ==> MapOk(s, w, s.tasks[t].id)
    requires Touched(s, t) < |w| && SessionPlaced(s, w, Touched(s, t))
    ensures var s', sid := StepCancel(s, t), Touched(s, t);
            && |s'.sessions| == |s.sessions| && SamePlaceTask(s, w, s', sid)
            && Trace(s'.log, sid) == Trace(s.log, sid)
            && s'.sessions[sid].(cancelGuard := None) == s.sessions[sid].(cancelGuard := None)
  {
    if s.tasks[t].cancel.CancelFind? && s.tasks[t].id in s.active {
      TraceAppend(s.log, Found(s.active[s.tasks[t].id]));
    }
  }

  lemma SoundCancel(s: State, w: seq<Place>, t: Thread)
    requires Acting(s, w, t) && GuardOwner(s, t) && s.tasks[t].Cancelling?
    requires s.tasks[t].cancel.CancelFind? && s.tasks[t].id in s.active ==> MapOk(s, w, s.tasks[t].id)
    requires Touched(s, t) < |w| && SessionPlaced(s, w, Touched(s, t)) && SessionSound(s, w, Touched(s, t))
    requires SessionCancelled(s, w, Touched(s, t))
    ensures SessionSound(StepCancel(s, t), PlacesAfterStep(s.tasks[t], w), Touched(s, t))
  {
    if s.tasks[t].cancel.CancelMark? {
      SoundCancelMark(s, w, t);
    } else {
      CancelTouches(s, w, t);
      TraceKept(s, w, StepCancel(s, t), PlacesAfterStep(s.tasks[t], w), Touched(s, t));
    }
  }

  lemma CancelledCancel(s: State, w: seq<Place>, t: Thread)
    requires Acting(s, w, t) && GuardOwner(s, t) && s.tasks[t].Cancelling?
    requires s.tasks[t].cancel.CancelFind? && s.tasks[t].id in s.active ==> MapOk(s, w, s.tasks[t].id)
    requires Touched(s, t) < |w| && SessionPlaced(s, w, Touched(s, t)) && SessionCancelled(s, w, Touched(s, t))
    ensures var s', w' := StepCancel(s, t), PlacesAfterStep(s.tasks[t], w);
            SessionCancelled(s', w', Touched(s, t))
  {
    if s.tasks[t].cancel.CancelFind? && s.tasks[t].id in s.active {
      TraceAppend(s.log, Found(s.active[s.tasks[t].id]));
    }
  }

  lemma FrameEntry(s: State, w: seq<Place>, t: Thread)
    requires Acting(s, w, t) && s.tasks[t].Handling? && s.tasks[t].handler.HandlerEntry?
    ensures Frame(s, w, StepEntry(s, t), PlacesAfterStep(s.tasks[t], w), t, Touched(s, t))
  {
    assert StepEntry(s, t).log == s.log && StepEntry(s, t).queue == s.queue;
  }

  lemma TaskEntry(s: State, w: seq<Place>, t: Thread)
    requires Acting(s, w, t) && GuardOwner(s, t) && s.tasks[t].Handling? && s.tasks[t].handler.HandlerEntry?
    ensures TaskOk(StepEntry(s, t), PlacesAfterStep(s.tasks[t], w), t) && GuardOwner(StepEntry(s, t), t)
  {
  }

  lemma PlacedEntry(s: State, w: seq<Place>, t: Thread)
    requires Acting(s, w, t) && s.tasks[t].Handling? && s.tasks[t].handler.HandlerEntry?
    requires SessionPlaced(s, w, Touched(s, t)) && SessionLocked(s, Touched(s, t))
    ensures var s', w' := StepEntry(s, t), PlacesAfterStep(s.tasks[t], w);
            SessionPlaced(s', w', Touched(s, t)) && SessionLocked(s', Touched(s, t))
  {
  }

  lemma SoundEntrySuccess(s: State, w: seq<Place>, t: Thread)
    requires Acting(s, w, t) && s.tasks[t].Handling? && s.tasks[t].handler.HandlerEntry?
    requires SessionPlaced(s, w, Touched(s, t)) && SessionSound(s, w, Touched(s, t))
    requires s.tasks[t].handler.completion.ec == Success
    ensures SessionSound(StepEntry(s, t), PlacesAfterStep(s.tasks[t], w), Touched(s, t))
  {
  }

  lemma SoundEntryElse(s: State, w: seq<Place>, t: Thread)
    requires Acting(s, w, t) && s.tasks[t].Handling? && s.tasks[t].handler.HandlerEntry?
    requires SessionPlaced(s, w, Touched(s, t)) && SessionSound(s, w, Touched(s, t))
    requires s.tasks[t].handler.completion.ec != Success
    ensures SessionSound(StepEntry(s, t), PlacesAfterStep(s.tasks[t], w), Touched(s, t))
  {
  }

  lemma SoundEntry(s: State, w: seq<Place>, t: Thread)
    requires Acting(s, w, t) && s.tasks[t].Handling? && s.tasks[t].handler.HandlerEntry?
    requires SessionPlaced(s, w, Touched(s, t)) && SessionSound(s, w, Touched(s, t))
    ensures SessionSound(StepEntry(s, t), PlacesAfterStep(s.tasks[t], w), Touched(s, t))
  {
    if s.tasks[t].handler.completion.ec == Success {
      SoundEntrySuccess(s, w, t);
    } else {
      SoundEntryElse(s, w, t);
    }
  }

  lemma CancelledEntry(s: State, w: seq<Place>, t: Thread)
    requires Acting(s, w, t) && GuardOwner(s, t) && s.tasks[t].Handling? && s.tasks[t].handler.HandlerEntry?
    requires SessionPlaced(s, w, Touched(s, t)) && SessionCancelled(s, w, Touched(s, t))
    ensures SessionCancelled(StepEntry(s, t), PlacesAfterStep(s.tasks[t], w), Touched(s, t))
  {
    BeingKept(s, StepEntry(s, t), t, s.tasks[t].sid);
  }

  lemma FrameHandlerNext(s: State, w: seq<Place>, t: Thread)
    requires Acting(s, w, t) && s.tasks[t].Handling? && !s.tasks[t].handler.HandlerEntry?
    requires s.tasks[t].handler.HandlerNext?
    ensures Frame(s, w, StepHandler(s, t), PlacesAfterStep(s.tasks[t], w), t, Touched(s, t))
  {
    var s' := StepHandler(s, t);
    assert s'.log == s.log && s'.queue == s.queue + multiset{PendingOp(s.tasks[t].sid, s.tasks[t].handler.resume.Next())};
  }

  lemma FrameHandlerElse(s: State, w: seq<Place>, t: Thread)
    requires Acting(s, w, t) && s.tasks[t].Handling? && !s.tasks[t].handler.HandlerEntry?
    requires !s.tasks[t].handler.HandlerNext?
    ensures Frame(s, w, StepHandler(s, t), PlacesAfterStep(s.tasks[t], w), t, Touched(s, t))
  {
    var s' := StepHandler(s, t);
    assert s'.log == s.log && s'.queue == s.queue;
  }

  lemma FrameHandler(s: State, w: seq<Place>, t: Thread)
    requires Acting(s, w, t) && s.tasks[t].Handling? && !s.tasks[t].handler.HandlerEntry?
    ensures Frame(s, w, StepHandler(s, t), PlacesAfterStep(s.tasks[t], w), t, Touched(s, t))
  {
    if s.tasks[t].handler.HandlerNext? {
      FrameHandlerNext(s, w, t);
    } else {
      FrameHandlerElse(s, w, t);
    }
  }

  lemma TaskHandlerTail(s: State, w: seq<Place>, t: Thread)
    requires Acting(s, w, t) && GuardOwner(s, t) && s.tasks[t].Handling? && !s.tasks[t].handler.HandlerEntry?
    requires s.tasks[t].handler.HandlerTail?
    ensures t !in StepHandler(s, t).tasks && GuardOwner(StepHandler(s, t), t)
  {
  }

  lemma TaskHandlerElse(s: State, w: seq<Place>, t: Thread)
    requires Acting(s, w, t) && GuardOwner(s, t) && s.tasks[t].Handling? && !s.tasks[t].handler.HandlerEntry?
    requires !s.tasks[t].handler.HandlerTail?
    ensures var s' := StepHandler(s, t);
            (t in s'.tasks ==> TaskOk(s', PlacesAfterStep(s.tasks[t], w), t)) && GuardOwner(s', t)
  {
  }

  lemma TaskHandler(s: State, w: seq<Place>, t: Thread)
    requires Acting(s, w, t) && GuardOwner(s, t) && s.tasks[t].Handling? && !s.tasks[t].handler.HandlerEntry?
    ensures var s' := StepHandler(s, t);
            (t in s'.tasks ==> TaskOk(s', PlacesAfterStep(s.tasks[t], w), t)) && GuardOwner(s', t)
  {
    if s.tasks[t].handler.HandlerTail? {
      TaskHandlerTail(s, w, t);
    } else {
      TaskHandlerElse(s, w, t);
    }
  }

  lemma PlacedHandler(s: State, w: seq<Place>, t: Thread)
    requires Acting(s, w, t) && GuardOwner(s, t) && s.tasks[t].Handling? && !s.tasks[t].handler.HandlerEntry?
    requires Touched(s, t) < |w| && SessionPlaced(s, w, Touched(s, t)) && SessionLocked(s, Touched(s, t))
    ensures var s', w' := StepHandler(s, t), PlacesAfterStep(s.tasks[t], w);
            SessionPlaced(s', w', Touched(s, t)) && SessionLocked(s', Touched(s, t))
  {
    var sid, s', w' := s.tasks[t].sid, StepHandler(s, t), PlacesAfterStep(s.tasks[t], w);
    if s.tasks[t].handler.HandlerNext? {
      var op := s.tasks[t].handler.resume.Next();
      assert w[sid] == WithThread(t) && w'[sid] == Queued(op);
      assert s'.queue == s.queue + multiset{PendingOp(sid, op)};
    } else {
      assert w' == w && s'.queue == s.queue;
    }
  }

  lemma SoundHandlerGuarded(s: State, w: seq<Place>, t: Thread)
    requires Acting(s, w, t) && s.tasks[t].Handling? && (s.tasks[t].handler.HandlerLock? || s.tasks[t].handler.HandlerCheck?)
    requires var sid := s.tasks[t].sid; SessionPlaced(s, w, sid) && SessionSound(s, w, sid)
    ensures SessionSound(StepHandler(s, t), PlacesAfterStep(s.tasks[t], w), s.tasks[t].sid)
  {
  }

  lemma SoundHandlerNext(s: State, w: seq<Place>, t: Thread)
    requires Acting(s, w, t) && s.tasks[t].Handling? && s.tasks[t].handler.HandlerNext?
    requires var sid := s.tasks[t].sid; SessionPlaced(s, w, sid) && SessionSound(s, w, sid)
    ensures SessionSound(StepHandler(s, t), PlacesAfterStep(s.tasks[t], w), s.tasks[t].sid)
  {
  }

  lemma SoundHandlerTail(s: State, w: seq<Place>, t: Thread)
    requires Acting(s, w, t) && s.tasks[t].Handling? && s.tasks[t].handler.HandlerTail?
    requires var sid := s.tasks[t].sid; SessionPlaced(s, w, sid) && SessionSound(s, w, sid)
    ensures SessionSound(StepHandler(s, t), PlacesAfterStep(s.tasks[t], w), s.tasks[t].sid)
  {
  }

  lemma SoundHandler(s: State, w: seq<Place>, t: Thread)
    requires Acting(s, w, t) && s.tasks[t].Handling? && !s.tasks[t].handler.HandlerEntry?
    requires var sid := s.tasks[t].sid; SessionPlaced(s, w, sid) && SessionSound(s, w, sid)
    ensures SessionSound(StepHandler(s, t), PlacesAfterStep(s.tasks[t], w), s.tasks[t].sid)
  {
    if s.tasks[t].handler.HandlerNext? {
      SoundHandlerNext(s, w, t);
    } else if s.tasks[t].handler.HandlerTail? {
      SoundHandlerTail(s, w, t);
    } else {
      SoundHandlerGuarded(s, w, t);
    }
  }

  /** A handler before its tail carries its session's work, so the session is in the map's care before and after. */
  lemma CancelledWithin(s: State, w: seq<Place>, s': State, w': seq<Place>, sid: Sid)
    requires sid < |w| == |s.sessions| && sid < |w'| == |s'.sessions|
    requires s'.sessions[sid].wasCancelled == s.sessions[sid].wasCancelled && SameEvents(s, s', sid)
    requires BeingCancelled(s', sid) == BeingCancelled(s, sid) && InsertedAt(s', w', sid) && !ErasedAt(s', w', sid)
    requires SessionCancelled(s, w, sid)
    ensures SessionCancelled(s', w', sid)
  {
  }

  lemma CancelledHandlerTail(s: State, w: seq<Place>, t: Thread)
    requires Acting(s, w, t) && GuardOwner(s, t) && s.tasks[t].Handling? && !s.tasks[t].handler.HandlerEntry?
    requires Touched(s, t) < |w| && SessionPlaced(s, w, Touched(s, t)) && SessionCancelled(s, w, Touched(s, t))
    requires s.tasks[t].handler.HandlerTail?
    ensures var s', w' := StepHandler(s, t), PlacesAfterStep(s.tasks[t], w);
            SessionCancelled(s', w', Touched(s, t))
  {
    var sid, s', w' := s.tasks[t].sid, StepHandler(s, t), PlacesAfterStep(s.tasks[t], w);
    BeingKept(s, s', t, sid);
    CancelledKept(s, w, s', w', sid);
  }

  lemma CancelledHandlerElse(s: State, w: seq<Place>, t: Thread)
    requires Acting(s, w, t) && GuardOwner(s, t) && s.tasks[t].Handling? && !s.tasks[t].handler.HandlerEntry?
    requires Touched(s, t) < |w| && SessionPlaced(s, w, Touched(s, t)) && SessionCancelled(s, w, Touched(s, t))
    requires !s.tasks[t].handler.HandlerTail?
    ensures var s', w' := StepHandler(s, t), PlacesAfterStep(s.tasks[t], w);
            SessionCancelled(s', w', Touched(s, t))
  {
    var sid, s', w' := s.tasks[t].sid, StepHandler(s, t), PlacesAfterStep(s.tasks[t], w);
    BeingKept(s, s', t, sid);
    CancelledWithin(s, w, s', w', sid);
  }

  lemma CancelledHandler(s: State, w: seq<Place>, t: Thread)
    requires Acting(s, w, t) && GuardOwner(s, t) && s.tasks[t].Handling? && !s.tasks[t].handler.HandlerEntry?
    requires Touched(s, t) < |w| && SessionPlaced(s, w, Touched(s, t)) && SessionCancelled(s, w, Touched(s, t))
    ensures var s', w' := StepHandler(s, t), PlacesAfterStep(s.tasks[t], w);
            SessionCancelled(s', w', Touched(s, t))
  {
    if s.tasks[t].handler.HandlerTail? {
      CancelledHandlerTail(s, w, t);
    } else {
      CancelledHandlerElse(s, w, t);
    }
  }

  lemma FrameCompleteLog(s: State, w: seq<Place>, t: Thread)
    requires Acting(s, w, t) && s.tasks[t].Completing?
    requires s.tasks[t].complete.CompleteErase? || s.tasks[t].complete.CompleteCall?
    ensures Frame(s, w, StepComplete(s, t), PlacesAfterStep(s.tasks[t], w), t, Touched(s, t))
  {
    var sid, x, s' := s.tasks[t].sid, s.sessions[s.tasks[t].sid], StepComplete(s, t);
    var e := if s.tasks[t].complete.CompleteErase? then Erased(sid) else Called(sid, x.id, x.response, s.tasks[t].complete.ec);
    TraceAppend(s.log, e);
    assert s'.log == s.log + [e] && s'.queue == s.queue && s'.sessions == s.sessions;
  }

  lemma FrameCompleteQuiet(s: State, w: seq<Place>, t: Thread)
    requires Acting(s, w, t) && s.tasks[t].Completing?
    requires s.tasks[t].complete.CompleteLock? || s.tasks[t].complete.CompleteUnlock? || s.tasks[t].complete.CompleteReport?
    ensures Frame(s, w, StepComplete(s, t), PlacesAfterStep(s.tasks[t], w), t, Touched(s, t))
  {
    var s' := StepComplete(s, t);
    assert s'.log == s.log && s'.queue == s.queue && s'.sessions == s.sessions;
  }

  lemma FrameCompleteReturn(s: State, w: seq<Place>, t: Thread)
    requires Acting(s, w, t) && s.tasks[t].Completing? && s.tasks[t].complete.CompleteReturn?
    ensures Frame(s, w, StepComplete(s, t), PlacesAfterStep(s.tasks[t], w), t, Touched(s, t))
  {
    var s' := StepComplete(s, t);
    assert s'.log == s.log && s'.queue == s.queue && s'.sessionsGuard == s.sessionsGuard;
  }

  lemma FrameComplete(s: State, w: seq<Place>, t: Thread)
    requires Acting(s, w, t) && s.tasks[t].Completing?
    ensures Frame(s, w, StepComplete(s, t), PlacesAfterStep(s.tasks[t], w), t, Touched(s, t))
  {
    if s.tasks[t].complete.CompleteErase? || s.tasks[t].complete.CompleteCall? {
      FrameCompleteLog(s, w, t);
    } else if s.tasks[t].complete.CompleteReturn? {
      FrameCompleteReturn(s, w, t);
    } else {
      FrameCompleteQuiet(s, w, t);
    }
  }

  lemma TaskCompleteReturn(s: State, w: seq<Place>, t: Thread)
    requires Acting(s, w, t) && GuardOwner(s, t) && s.tasks[t].Completing?
    requires s.tasks[t].complete.CompleteReturn?
    ensures t !in StepComplete(s, t).tasks && GuardOwner(StepComplete(s, t), t)
  {
  }

  lemma TaskCompleteElse(s: State, w: seq<Place>, t: Thread)
    requires Acting(s, w, t) && GuardOwner(s, t) && s.tasks[t].Completing?
    requires !s.tasks[t].complete.CompleteReturn?
    ensures var s' := StepComplete(s, t);
            (t in s'.tasks ==> TaskOk(s', PlacesAfterStep(s.tasks[t], w), t)) && GuardOwner(s', t)
  {
  }

  lemma TaskComplete(s: State, w: seq<Place>, t: Thread)
    requires Acting(s, w, t) && GuardOwner(s, t) && s.tasks[t].Completing?
    ensures var s' := StepComplete(s, t);
            (t in s'.tasks ==> TaskOk(s', PlacesAfterStep(s.tasks[t], w), t)) && GuardOwner(s', t)
  {
    if s.tasks[t].complete.CompleteReturn? {
      TaskCompleteReturn(s, w, t);
    } else {
      TaskCompleteElse(s, w, t);
    }
  }

  lemma PlacedCompleteReturn(s: State, w: seq<Place>, t: Thread)
    requires Acting(s, w, t) && GuardOwner(s, t) && s.tasks[t].Completing?
    requires Touched(s, t) < |w| && SessionPlaced(s, w, Touched(s, t)) && SessionLocked(s, Touched(s, t))
    requires s.tasks[t].complete.CompleteReturn?
    ensures var s', w' := StepComplete(s, t), PlacesAfterStep(s.tasks[t], w);
            SessionPlaced(s', w', Touched(s, t)) && SessionLocked(s', Touched(s, t))
  {
  }

  lemma PlacedCompleteElse(s: State, w: seq<Place>, t: Thread)
    requires Acting(s, w, t) && GuardOwner(s, t) && s.tasks[t].Completing?
    requires Touched(s, t) < |w| && SessionPlaced(s, w, Touched(s, t)) && SessionLocked(s, Touched(s, t))
    requires !s.tasks[t].complete.CompleteReturn?
    ensures var s', w' := StepComplete(s, t), PlacesAfterStep(s.tasks[t], w);
            SessionPlaced(s', w', Touched(s, t)) && SessionLocked(s', Touched(s, t))
  {
  }

  lemma PlacedComplete(s: State, w: seq<Place>, t: Thread)
    requires Acting(s, w, t) && GuardOwner(s, t) && s.tasks[t].Completing?
    requires Touched(s, t) < |w| && SessionPlaced(s, w, Touched(s, t)) && SessionLocked(s, Touched(s, t))
    ensures var s', w' := StepComplete(s, t), PlacesAfterStep(s.tasks[t], w);
            SessionPlaced(s', w', Touched(s, t)) && SessionLocked(s', Touched(s, t))
  {
    if s.tasks[t].complete.CompleteReturn? {
      PlacedCompleteReturn(s, w, t);
    } else {
      PlacedCompleteElse(s, w, t);
    }
  }

  lemma SoundCompleteQuiet(s: State, w: seq<Place>, t: Thread)
    requires Acting(s, w, t) && s.tasks[t].Completing? && !s.tasks[t].complete.CompleteErase?
    requires !s.tasks[t].complete.CompleteCall? && !s.tasks[t].complete.CompleteReturn?
    requires var sid := s.tasks[t].sid; SessionPlaced(s, w, sid) && SessionSound(s, w, sid)
    ensures SessionSound(StepComplete(s, t), PlacesAfterStep(s.tasks[t], w), s.tasks[t].sid)
  {
  }

  lemma SoundCompleteErase(s: State, w: seq<Place>, t: Thread)
    requires Acting(s, w, t) && s.tasks[t].Completing? && s.tasks[t].complete.CompleteErase?
    requires var sid := s.tasks[t].sid; SessionPlaced(s, w, sid) && SessionSound(s, w, sid)
    ensures SessionSound(StepComplete(s, t), PlacesAfterStep(s.tasks[t], w), s.tasks[t].sid)
  {
    TraceAppend(s.log, Erased(s.tasks[t].sid));
  }

  lemma SoundCompleteCall(s: State, w: seq<Place>, t: Thread)
    requires Acting(s, w, t) && s.tasks[t].Completing? && s.tasks[t].complete.CompleteCall?
    requires var sid := s.tasks[t].sid; SessionPlaced(s, w, sid) && SessionSound(s, w, sid)
    ensures SessionSound(StepComplete(s, t), PlacesAfterStep(s.tasks[t], w), s.tasks[t].sid)
  {
    var sid, x := s.tasks[t].sid, s.sessions[s.tasks[t].sid];
    TraceAppend(s.log, Called(sid, x.id, x.response, s.tasks[t].complete.ec));
  }

  lemma SoundCompleteReturn(s: State, w: seq<Place>, t: Thread)
    requires Acting(s, w, t) && s.tasks[t].Completing? && s.tasks[t].complete.CompleteReturn?
    requires var sid := s.tasks[t].sid; SessionPlaced(s, w, sid) && SessionSound(s, w, sid)
    ensures SessionSound(StepComplete(s, t), PlacesAfterStep(s.tasks[t], w), s.tasks[t].sid)
  {
    TraceKept(s, w, StepComplete(s, t), w, s.tasks[t].sid);
  }

  lemma SoundComplete(s: State, w: seq<Place>, t: Thread)
    requires Acting(s, w, t) && s.tasks[t].Completing?
    requires var sid := s.tasks[t].sid; SessionPlaced(s, w, sid) && SessionSound(s, w, sid)
    ensures SessionSound(StepComplete(s, t), PlacesAfterStep(s.tasks[t], w), s.tasks[t].sid)
  {
    match s.tasks[t].complete
    case CompleteErase => SoundCompleteErase(s, w, t);
    case CompleteCall(_) => SoundCompleteCall(s, w, t);
    case CompleteReturn => SoundCompleteReturn(s, w, t);
    case _ => SoundCompleteQuiet(s, w, t);
  }

  lemma CancelledCompleteReturn(s: State, w: seq<Place>, t: Thread)
    requires Acting(s, w, t) && GuardOwner(s, t) && s.tasks[t].Completing?
    requires Touched(s, t) < |w| && SessionPlaced(s, w, Touched(s, t)) && SessionCancelled(s, w, Touched(s, t))
    requires s.tasks[t].complete.CompleteReturn?
    ensures var s', w' := StepComplete(s, t), PlacesAfterStep(s.tasks[t], w);
            SessionCancelled(s', w', Touched(s, t))
  {
    BeingKept(s, StepComplete(s, t), t, s.tasks[t].sid);
  }

  lemma CancelledCompleteElse(s: State, w: seq<Place>, t: Thread)
    requires Acting(s, w, t) && GuardOwner(s, t) && s.tasks[t].Completing?
    requires Touched(s, t) < |w| && SessionPlaced(s, w, Touched(s, t)) && SessionCancelled(s, w, Touched(s, t))
    requires !s.tasks[t].complete.CompleteReturn?
    ensures var s', w' := StepComplete(s, t), PlacesAfterStep(s.tasks[t], w);
            SessionCancelled(s', w', Touched(s, t))
  {
    BeingKept(s, StepComplete(s, t), t, s.tasks[t].sid);
    var sid := s.tasks[t].sid;
    if s.tasks[t].complete.CompleteErase? {
      TraceAppend(s.log, Erased(sid));
    } else if s.tasks[t].complete.CompleteCall? {
      TraceAppend(s.log, Called(sid, s.sessions[sid].id, s.sessions[sid].response, s.tasks[t].complete.ec));
    }
  }

  lemma CancelledComplete(s: State, w: seq<Place>, t: Thread)
    requires Acting(s, w, t) && GuardOwner(s, t) && s.tasks[t].Completing?
    requires Touched(s, t) < |w| && SessionPlaced(s, w, Touched(s, t)) && SessionCancelled(s, w, Touched(s, t))
    ensures var s', w' := StepComplete(s, t), PlacesAfterStep(s.tasks[t], w);
            SessionCancelled(s', w', Touched(s, t))
  {
    if s.tasks[t].complete.CompleteReturn? {
      CancelledCompleteReturn(s, w, t);
    } else {
      CancelledCompleteElse(s, w, t);
    }
  }

  predicate LiveAt(s: State, w: seq<Place>, sid: Sid)
    requires sid < |w|
  {
    InsertedAt(s, w, sid) && !ErasedAt(s, w, sid)
  }

  predicate Inserts(k: Task) {
    k.Starting? && k.start.StartInsert?
  }

  predicate Erases(k: Task) {
    k.Completing? && k.complete.CompleteErase?
  }

  /** Only the insertion makes the touched session live, and only the erase ends that. */
  predicate LiveAfter(s: State, w: seq<Place>, s': State, w': seq<Place>, k: Task, sid: Sid) {
    && sid < |w| == |s.sessions| && sid < |w'| == |s'.sessions|
    && s'.sessions[sid].id == s.sessions[sid].id
    && LiveAt(s', w', sid) == (Inserts(k) || (LiveAt(s, w, sid) && !Erases(k)))
    && (Inserts(k) ==> !LiveAt(s, w, sid))
    && (Erases(k) ==> LiveAt(s, w, sid))
  }

  lemma LiveStart(s: State, w: seq<Place>, t: Thread)
    requires Acting(s, w, t) && s.tasks[t].Starting?
    requires Touched(s, t) < |w| && SessionPlaced(s, w, Touched(s, t))
    ensures LiveAfter(s, w, StepStart(s, t), PlacesAfterStep(s.tasks[t], w), s.tasks[t], Touched(s, t))
  {
  }

  lemma LiveCancel(s: State, w: seq<Place>, t: Thread)
    requires Acting(s, w, t) && s.tasks[t].Cancelling?
    requires s.tasks[t].cancel.CancelFind? && s.tasks[t].id in s.active ==> MapOk(s, w, s.tasks[t].id)
    requires Touched(s, t) < |w| && SessionPlaced(s, w, Touched(s, t))
    ensures LiveAfter(s, w, StepCancel(s, t), PlacesAfterStep(s.tasks[t], w), s.tasks[t], Touched(s, t))
  {
  }

  lemma LiveEntry(s: State, w: seq<Place>, t: Thread)
    requires Acting(s, w, t) && s.tasks[t].Handling? && s.tasks[t].handler.HandlerEntry?
    requires Touched(s, t) < |w| && SessionPlaced(s, w, Touched(s, t))
    ensures LiveAfter(s, w, StepEntry(s, t), PlacesAfterStep(s.tasks[t], w), s.tasks[t], Touched(s, t))
  {
  }

  lemma LiveHandler(s: State, w: seq<Place>, t: Thread)
    requires Acting(s, w, t) && s.tasks[t].Handling? && !s.tasks[t].handler.HandlerEntry?
    requires Touched(s, t) < |w| && SessionPlaced(s, w, Touched(s, t))
    ensures LiveAfter(s, w, StepHandler(s, t), PlacesAfterStep(s.tasks[t], w), s.tasks[t], Touched(s, t))
  {
  }

  lemma LiveComplete(s: State, w: seq<Place>, t: Thread)
    requires Acting(s, w, t) && s.tasks[t].Completing?
    requires Touched(s, t) < |w| && SessionPlaced(s, w, Touched(s, t))
    ensures LiveAfter(s, w, StepComplete(s, t), PlacesAfterStep(s.tasks[t], w), s.tasks[t], Touched(s, t))
  {
  }

  function ActiveThen(s: State, k: Task): map<RequestId, Sid>
    requires k.Starting? || k.Completing? ==> k.sid < |s.sessions|
  {
    if Inserts(k) then s.active[s.sessions[k.sid].id := k.sid]
    else if Erases(k) then s.active - {s.sessions[k.sid].id}
    else s.active
  }

  lemma ActiveStart(s: State, t: Thread)
    requires CanStep(s, t) && s.tasks[t].Starting?
    ensures StepStart(s, t).active == ActiveThen(s, s.tasks[t])
  {
  }

  lemma ActiveCancel(s: State, t: Thread)
    requires CanStep(s, t) && s.tasks[t].Cancelling?
    ensures StepCancel(s, t).active == s.active
  {
  }

  lemma ActiveEntry(s: State, t: Thread)
    requires CanStep(s, t) && s.tasks[t].Handling? && s.tasks[t].handler.HandlerEntry?
    ensures StepEntry(s, t).active == s.active
  {
  }

  lemma ActiveHandler(s: State, t: Thread)
    requires CanStep(s, t) && s.tasks[t].Handling? && !s.tasks[t].handler.HandlerEntry?
    ensures StepHandler(s, t).active == s.active
  {
  }

  lemma ActiveComplete(s: State, t: Thread)
    requires CanStep(s, t) && s.tasks[t].Completing?
    ensures StepComplete(s, t).active == ActiveThen(s, s.tasks[t])
  {
  }

  /** Entries under other ids stay; the touched session's own entry is there only while it is live. */
  lemma MapMoves(s: State, w: seq<Place>, s': State, w': seq<Place>, t: Thread, id: RequestId)
    requires Acting(s, w, t) && |w| == |w'| == |s'.sessions|
    requires Touched(s, t) < |w| ==> LiveAfter(s, w, s', w', s.tasks[t], Touched(s, t))
    requires s'.active == ActiveThen(s, s.tasks[t]) && id in s'.active && (id in s.active ==> MapOk(s, w, id))
    ensures (id in s.active && s'.active[id] == s.active[id] != Touched(s, t)) || MapOk(s', w', id)
  {
  }

  // One step of any task

  lemma StepFrame(s: State, w: seq<Place>, t: Thread)
    requires Inv(s, w) && CanStep(s, t)
    ensures Frame(s, w, StepTask(s, t), PlacesAfterStep(s.tasks[t], w), t, Touched(s, t))
  {
    assert TaskOk(s, w, t);
    match s.tasks[t]
    case Starting(_, _) => FrameStart(s, w, t);
    case Cancelling(id, _) =>
      assert id in s.active ==> MapOk(s, w, id);
      FrameCancel(s, w, t);
    case Handling(_, step) =>
      if step.HandlerEntry? {
        FrameEntry(s, w, t);
      } else {
        FrameHandler(s, w, t);
      }
    case Completing(_, _, _) => FrameComplete(s, w, t);
  }

  lemma TouchedLive(s: State, w: seq<Place>, t: Thread)
    requires Inv(s, w) && CanStep(s, t) && Touched(s, t) < |w|
    ensures LiveAfter(s, w, StepTask(s, t), PlacesAfterStep(s.tasks[t], w), s.tasks[t], Touched(s, t))
  {
    assert TaskOk(s, w, t) && SessionOk(s, w, Touched(s, t));
    match s.tasks[t]
    case Starting(_, _) => LiveStart(s, w, t);
    case Cancelling(id, _) =>
      assert id in s.active ==> MapOk(s, w, id);
      LiveCancel(s, w, t);
    case Handling(_, step) =>
      if step.HandlerEntry? {
        LiveEntry(s, w, t);
      } else {
        LiveHandler(s, w, t);
      }
    case Completing(_, _, _) => LiveComplete(s, w, t);
  }

  lemma ActiveAfter(s: State, t: Thread)
    requires CanStep(s, t)
    ensures StepTask(s, t).active == ActiveThen(s, s.tasks[t])
  {
    if s.tasks[t].Starting? {
      ActiveStart(s, t);
    } else if s.tasks[t].Cancelling? {
      ActiveCancel(s, t);
    } else if s.tasks[t].Completing? {
      ActiveComplete(s, t);
    } else if s.tasks[t].handler.HandlerEntry? {
      ActiveEntry(s, t);
    } else {
      ActiveHandler(s, t);
    }
  }

  lemma ActorOk(s: State, w: seq<Place>, t: Thread)
    requires Inv(s, w) && CanStep(s, t)
    ensures var s' := StepTask(s, t);
            (t in s'.tasks ==> TaskOk(s', PlacesAfterStep(s.tasks[t], w), t)) && GuardOwner(s', t)
  {
    assert TaskOk(s, w, t) && GuardOwner(s, t);
    match s.tasks[t]
    case Starting(_, _) => TaskStart(s, w, t);
    case Cancelling(id, _) =>
      assert id in s.active ==> MapOk(s, w, id);
      TaskCancel(s, w, t);
    case Handling(_, step) =>
      if step.HandlerEntry? {
        TaskEntry(s, w, t);
      } else {
        TaskHandler(s, w, t);
      }
    case Completing(_, _, _) => TaskComplete(s, w, t);
  }

  lemma TouchedOk(s: State, w: seq<Place>, t: Thread)
    requires Inv(s, w) && CanStep(s, t) && Touched(s, t) < |w|
    ensures SessionOk(StepTask(s, t), PlacesAfterStep(s.tasks[t], w), Touched(s, t))
  {
    assert TaskOk(s, w, t) && GuardOwner(s, t) && SessionOk(s, w, Touched(s, t));
    match s.tasks[t]
    case Starting(_, _) =>
      PlacedStart(s, w, t);
      SoundStart(s, w, t);
      CancelledStart(s, w, t);
    case Cancelling(id, _) =>
      assert id in s.active ==> MapOk(s, w, id);
      PlacedCancel(s, w, t);
      SoundCancel(s, w, t);
      CancelledCancel(s, w, t);
    case Handling(_, step) =>
      if step.HandlerEntry? {
        PlacedEntry(s, w, t);
        SoundEntry(s, w, t);
        CancelledEntry(s, w, t);
      } else {
        PlacedHandler(s, w, t);
        SoundHandler(s, w, t);
        CancelledHandler(s, w, t);
      }
    case Completing(_, _, _) =>
      PlacedComplete(s, w, t);
      SoundComplete(s, w, t);
      CancelledComplete(s, w, t);
  }

  lemma StepKeepsInv(s: State, w: seq<Place>, t: Thread)
    requires Inv(s, w) && CanStep(s, t)
    ensures Inv(StepTask(s, t), PlacesAfterStep(s.tasks[t], w))
  {
    var s', w', touched := StepTask(s, t), PlacesAfterStep(s.tasks[t], w), Touched(s, t);
    assert TaskOk(s, w, t);
    StepFrame(s, w, t);
    ActorOk(s, w, t);
    ActiveAfter(s, t);
    if touched < |w| {
      TouchedOk(s, w, t);
      TouchedLive(s, w, t);
    }
    forall id | id in s'.active
      ensures (id in s.active && s'.active[id] == s.active[id] != touched) || MapOk(s', w', id)
    {
      assert id in s.active ==> MapOk(s, w, id);
      MapMoves(s, w, s', w', t, id);
    }
    MovesKeepInv(s, w, s', w', t, touched);
  }

  lemma FrameDispatch(s: State, w: seq<Place>, t: Thread, sid: Sid, c: Completion)
    requires |w| == |s.sessions| && Enabled(s, Dispatch(t, sid, c)) && sid < |w| && w[sid] == Queued(c.Op())
    ensures Frame(s, w, Apply(s, Dispatch(t, sid, c)), w[sid := WithThread(t)], t, sid)
  {
    var s', e := Apply(s, Dispatch(t, sid, c)), Completed(sid, c.Op(), c.ec, c.Text(), c.Drawn());
    TraceAppend(s.log, e);
    assert s'.log == s.log + [e] && s'.queue == s.queue - multiset{PendingOp(sid, c.Op())};
  }

  lemma SessionDispatch(s: State, w: seq<Place>, t: Thread, sid: Sid, c: Completion)
    requires |w| == |s.sessions| && Enabled(s, Dispatch(t, sid, c)) && sid < |w| && w[sid] == Queued(c.Op())
    requires SessionPlaced(s, w, sid) && SessionLocked(s, sid) && SessionSound(s, w, sid)
    ensures var s', w' := Apply(s, Dispatch(t, sid, c)), w[sid := WithThread(t)];
            SessionPlaced(s', w', sid) && SessionLocked(s', sid) && SessionSound(s', w', sid) && TaskOk(s', w', t)
  {
    var s', e := Apply(s, Dispatch(t, sid, c)), Completed(sid, c.Op(), c.ec, c.Text(), c.Drawn());
    TraceAppend(s.log, e);
    assert s'.log == s.log + [e] && s'.queue == s.queue - multiset{PendingOp(sid, c.Op())};
  }

  lemma CancelledDispatch(s: State, w: seq<Place>, t: Thread, sid: Sid, c: Completion)
    requires |w| == |s.sessions| && Enabled(s, Dispatch(t, sid, c)) && sid < |w| && w[sid] == Queued(c.Op())
    requires SessionCancelled(s, w, sid) && GuardOwner(s, t)
    ensures SessionCancelled(Apply(s, Dispatch(t, sid, c)), w[sid := WithThread(t)], sid)
  {
    var s', e := Apply(s, Dispatch(t, sid, c)), Completed(sid, c.Op(), c.ec, c.Text(), c.Drawn());
    TraceAppend(s.log, e);
    assert s'.log == s.log + [e];
    assert BeingCancelled(s', sid) == BeingCancelled(s, sid);
  }

  lemma DispatchKeepsInv(s: State, w: seq<Place>, t: Thread, sid: Sid, c: Completion)
    requires Inv(s, w) && Enabled(s, Dispatch(t, sid, c))
    ensures Inv(Apply(s, Dispatch(t, sid, c)), NextPlaces(s, w, Dispatch(t, sid, c)))
  {
    var s', w' := Apply(s, Dispatch(t, sid, c)), w[sid := WithThread(t)];
    assert SessionOk(s, w, sid);
    assert w[sid] == Queued(c.Op());
    FrameDispatch(s, w, t, sid, c);
    SessionDispatch(s, w, t, sid, c);
    CancelledDispatch(s, w, t, sid, c);
    forall id | id in s'.active
      ensures (id in s.active && s'.active[id] == s.active[id] != sid) || MapOk(s', w', id)
    {
      assert MapOk(s, w, id);
    }
    MovesKeepInv(s, w, s', w', t, sid);
  }

  lemma BeginStartKeepsInv(s: State, w: seq<Place>, a: Action)
    requires Inv(s, w) && Enabled(s, a) && a.BeginStart?
    ensures Inv(Apply(s, a), NextPlaces(s, w, a))
  {
    var s', w' := Apply(s, a), NextPlaces(s, w, a);
    forall sid | 0 <= sid < |w'|
      ensures SessionOk(s', w', sid)
    {
      if sid < |w| {
        assert SessionOk(s, w, sid) && SameEvents(s, s', sid);
        TraceKept(s, w, s', w', sid);
        CancelledKept(s, w, s', w', sid);
      } else {
        assert NoEvents(s, sid);
        assert forall op :: PendingOp(sid, op) !in s.queue;
      }
    }
    forall sid: Sid | sid >= |w'|
      ensures NoEvents(s', sid)
    {
      assert NoEvents(s, sid);
    }
    forall u | u in s'.tasks
      ensures TaskOk(s', w', u)
    {
      assert u in s.tasks ==> TaskOk(s, w, u);
    }
    forall id | id in s'.active
      ensures MapOk(s', w', id)
    {
      assert MapOk(s, w, id) && SessionOk(s, w, s.active[id]);
    }
  }

  /** Only tasks of idle threads and the event loop differ, and the new tasks are cancel calls at their start. */
  predicate Quiet(s: State, s': State) {
    && s'.sessions == s.sessions && s'.log == s.log && s'.queue == s.queue && s'.active == s.active
    && s'.sessionsGuard == s.sessionsGuard
    && (forall u :: u in s.tasks ==> u in s'.tasks && s'.tasks[u] == s.tasks[u])
    && (forall u :: u in s'.tasks && u !in s.tasks ==> u.User? && s'.tasks[u].Cancelling? && s'.tasks[u].cancel.CancelLock?)
  }

  lemma QuietSession(s: State, w: seq<Place>, s': State, sid: Sid)
    requires Quiet(s, s') && sid < |w| == |s.sessions| && SessionOk(s, w, sid)
    requires s.sessionsGuard.Some? ==> s.sessionsGuard.value in s.tasks
    ensures SessionOk(s', w, sid)
  {
    TraceKept(s, w, s', w, sid);
    CancelledKept(s, w, s', w, sid);
  }

  lemma QuietTask(s: State, w: seq<Place>, s': State, u: Thread)
    requires Quiet(s, s') && |w| == |s.sessions| && u in s'.tasks && (u in s.tasks ==> TaskOk(s, w, u))
    ensures TaskOk(s', w, u)
  {
  }

  lemma QuietMap(s: State, w: seq<Place>, s': State, id: RequestId)
    requires Quiet(s, s') && |w| == |s.sessions| && id in s.active && MapOk(s, w, id) && SessionPlaced(s, w, s.active[id])
    ensures MapOk(s', w, id)
  {
  }

  lemma QuietKeepsInv(s: State, w: seq<Place>, s': State)
    requires Inv(s, w) && Quiet(s, s')
    ensures Inv(s', w)
  {
    forall sid | 0 <= sid < |w|
      ensures SessionOk(s', w, sid)
    {
      QuietSession(s, w, s', sid);
    }
    forall sid: Sid | sid >= |w|
      ensures NoEvents(s', sid)
    {
      assert NoEvents(s, sid);
    }
    forall u | u in s'.tasks
      ensures TaskOk(s', w, u)
    {
      QuietTask(s, w, s', u);
    }
    forall id | id in s'.active
      ensures MapOk(s', w, id)
    {
      assert MapOk(s, w, id) && SessionOk(s, w, s.active[id]);
      QuietMap(s, w, s', id);
    }
  }

  lemma ActionKeepsInv(s: State, w: seq<Place>, a: Action)
    requires Inv(s, w) && Enabled(s, a)
    ensures Inv(Apply(s, a), NextPlaces(s, w, a))
  {
    match a
    case BeginStart(_, _, _, _) => BeginStartKeepsInv(s, w, a);
    case BeginCancel(_, _) => QuietKeepsInv(s, w, Apply(s, a));
    case Dispatch(t, sid, c) => DispatchKeepsInv(s, w, t, sid, c);
    case Step(t) => StepKeepsInv(s, w, t);
    case ResetWork => QuietKeepsInv(s, w, Apply(s, a));
    case StopIo => QuietKeepsInv(s, w, Apply(s, a));
  }

  /** The places after a run. */
  function Places(ioThreads: nat, run: seq<Action>): (w: seq<Place>)
    requires IsRun(ioThreads, run)
    ensures Inv(Final(ioThreads, run), w)
    decreases |run|
  {
    if run == [] then []
    else
      var before, a := run[..|run| - 1], run[|run| - 1];
      var w := Places(ioThreads, before);
      ActionKeepsInv(Final(ioThreads, before), w, a);
      NextPlaces(Final(ioThreads, before), w, a)
  }
}
