/**
  Each procedure of the client in one piece: what it does when its mutexes are free and no
  other thread moves until it returns. The objects below have the procedures' own text;
  the lemmas show that the small steps of the state machine add up to the same.
 */
module ClientAlone {
  import opened Wrappers
  import opened TraceContextCodec
  import opened ClientProtocol

  function Goto(s: State, t: Thread, k: Task): State {
    s.(tasks := s.tasks[t := k])
  }

  function Return(s: State, t: Thread): State {
    s.(tasks := s.tasks - {t})
  }

  function Put(s: State, sid: Sid, session: Session): State
    requires sid < |s.sessions|
  {
    s.(sessions := s.sessions[sid := session])
  }

  function Log(s: State, e: Event): State {
    s.(log := s.log + [e])
  }

  function Launch(s: State, sid: Sid, op: Operation): State {
    s.(queue := s.queue + multiset{PendingOp(sid, op)})
  }

  /** `n` steps of one thread, as far as it can go. */
  function StepMany(s: State, t: Thread, n: nat): Option<State>
    decreases n
  {
    if n == 0 then Some(s)
    else if CanStep(s, t) then StepMany(StepTask(s, t), t, n - 1)
    else None
  }

  /** `emulateLongComputationOp`. */
  function Started(s: State, id: RequestId, duration: nat, active: SpanContext): State {
    var sid := |s.sessions|;
    Launch(Log(s.(sessions := s.sessions + [NewSession(id, duration, active)], active := s.active[id := sid]), Inserted(sid)),
           sid, Connect)
  }

  /** `cancelRequest`. */
  function Cancelled(s: State, id: RequestId): State
    requires id in s.active ==> s.active[id] < |s.sessions|
  {
    if id in s.active then
      var sid := s.active[id];
      Log(Put(s, sid, s.sessions[sid].(wasCancelled := true)), Found(sid))
    else s
  }

  /** `onRequestComplete`. */
  function Concluded(s: State, sid: Sid): State
    requires sid < |s.sessions|
  {
    var x := s.sessions[sid];
    Log(Log(s.(active := s.active - {x.id}), Erased(sid)), Called(sid, x.id, x.response, x.Verdict()))
  }

  /** The connect, write and read handlers. */
  function Handled(s: State, sid: Sid, c: Completion): State
    requires sid < |s.sessions|
  {
    var x := s.sessions[sid];
    var s1 := Log(s.(queue := s.queue - multiset{PendingOp(sid, c.Op())}),
                  Completed(sid, c.Op(), c.ec, c.Text(), c.Drawn()));
    if c.ec != Success then Concluded(Put(s1, sid, x.(ec := c.ec)), sid)
    else if c.Received? then Concluded(Put(s1, sid, x.(response := c.line)), sid)
    else Resumed(Put(s1, sid, Given(x, c)), sid, c.Resume())
  }

  /** The session, with what its completed connect hands to the later handlers. */
  function Given(x: Session, c: Completion): Session {
    if c.Connected? then x.(drawn := Some(c.drawn)) else x
  }

  /** A handler whose operation has succeeded. */
  function Resumed(s: State, sid: Sid, r: Resume): State
    requires sid < |s.sessions|
  {
    if s.sessions[sid].wasCancelled then Concluded(s, sid)
    else Launch(Put(s, sid, r.Prepare(s.sessions[sid])), sid, r.Next())
  }

  lemma OneStep(s: State, t: Thread, n: nat)
    requires CanStep(s, t)
    ensures StepMany(s, t, n + 1) == StepMany(StepTask(s, t), t, n)
  {
  }

  function Steps(t: Thread, n: nat): seq<Action> {
    if n == 0 then [] else [Step(t)] + Steps(t, n - 1)
  }

  lemma RunPush(ioThreads: nat, run: seq<Action>, a: Action)
    requires IsRun(ioThreads, run) && Enabled(Final(ioThreads, run), a)
    ensures IsRun(ioThreads, run + [a]) && Final(ioThreads, run + [a]) == Apply(Final(ioThreads, run), a)
  {
    assert (run + [a])[..|run|] == run;
  }

  lemma FirstStep(s: State, t: Thread, n: nat, end: State)
    requires n > 0 && StepMany(s, t, n) == Some(end)
    ensures CanStep(s, t) && StepMany(StepTask(s, t), t, n - 1) == Some(end)
  {
  }

  lemma StepsPush(run: seq<Action>, t: Thread, n: nat)
    ensures run + Steps(t, 0) == run
    ensures n > 0 ==> run + [Step(t)] + Steps(t, n - 1) == run + Steps(t, n)
  {
  }

  /** Steps of one thread continue a run. */
  lemma {:induction false} StepManyExtends(ioThreads: nat, run: seq<Action>, t: Thread, n: nat, end: State)
    requires IsRun(ioThreads, run) && StepMany(Final(ioThreads, run), t, n) == Some(end)
    ensures IsRun(ioThreads, run + Steps(t, n)) && Final(ioThreads, run + Steps(t, n)) == end
    decreases n
  {
    StepsPush(run, t, n);
    if n > 0 {
      FirstStep(Final(ioThreads, run), t, n, end);
      RunPush(ioThreads, run, Step(t));
      StepManyExtends(ioThreads, run + [Step(t)], t, n - 1, end);
    }
  }

  lemma StartRunsAlone(s: State, t: Thread, id: RequestId, duration: nat, active: SpanContext)
    requires Enabled(s, BeginStart(t, id, duration, active)) && s.sessionsGuard.None?
    ensures StepMany(Apply(s, BeginStart(t, id, duration, active)), t, 4) == Some(Started(s, id, duration, active))
  {
    var sid := |s.sessions|;
    var s0 := s.(sessions := s.sessions + [NewSession(id, duration, active)], tasks := s.tasks[t := Starting(sid, StartLock)]);
    var s1 := s0.(sessionsGuard := Some(t), tasks := s.tasks[t := Starting(sid, StartInsert)]);
    var s2 := s1.(active := s.active[id := sid], log := s.log + [Inserted(sid)], tasks := s.tasks[t := Starting(sid, StartUnlock)]);
    var s3 := s2.(sessionsGuard := None, tasks := s.tasks[t := Starting(sid, StartConnect)]);
    assert s0.tasks[t := Starting(sid, StartInsert)] == s1.tasks;
    assert s1.tasks[t := Starting(sid, StartUnlock)] == s2.tasks;
    assert s2.tasks[t := Starting(sid, StartConnect)] == s3.tasks;
    assert s3.tasks - {t} == s.tasks;
    OneStep(s0, t, 3);
    OneStep(s1, t, 2);
    OneStep(s2, t, 1);
    OneStep(s3, t, 0);
  }

  /** The part of a cancel call that follows a successful lookup. */
  lemma MarkRunsAlone(s1: State, t: Thread, id: RequestId)
    requires t in s1.tasks && s1.tasks[t] == Cancelling(id, CancelFind) && id in s1.active
    requires s1.active[id] < |s1.sessions| && s1.sessions[s1.active[id]].cancelGuard.None?
    ensures CanStep(s1, t)
    ensures StepMany(StepTask(s1, t), t, 4) == Some(Cancelled(s1, id).(sessionsGuard := None, tasks := s1.tasks - {t}))
  {
    var sid, x := s1.active[id], s1.sessions[s1.active[id]];
    var s2 := s1.(log := s1.log + [Found(sid)], tasks := s1.tasks[t := Cancelling(id, CancelGuard(sid))]);
    var s3 := s2.(sessions := s1.sessions[sid := x.(cancelGuard := Some(t))], tasks := s1.tasks[t := Cancelling(id, CancelMark(sid))]);
    var s4 := s3.(sessions := s1.sessions[sid := x.(cancelGuard := Some(t), wasCancelled := true)],
                  tasks := s1.tasks[t := Cancelling(id, CancelRelease(sid))]);
    var s5 := s4.(sessions := s1.sessions[sid := x.(wasCancelled := true)], tasks := s1.tasks[t := Cancelling(id, CancelUnlock)]);
    assert s2.tasks[t := Cancelling(id, CancelMark(sid))] == s3.tasks;
    assert s3.tasks[t := Cancelling(id, CancelRelease(sid))] == s4.tasks;
    assert s3.sessions[sid := s3.sessions[sid].(wasCancelled := true)] == s4.sessions;
    assert s4.tasks[t := Cancelling(id, CancelUnlock)] == s5.tasks;
    assert s4.sessions[sid := s4.sessions[sid].(cancelGuard := None)] == s5.sessions;
    assert s5.tasks - {t} == s1.tasks - {t};
    OneStep(s2, t, 3);
    OneStep(s3, t, 2);
    OneStep(s4, t, 1);
    OneStep(s5, t, 0);
  }

  lemma CancelRunsAlone(s: State, t: Thread, id: RequestId)
    requires Enabled(s, BeginCancel(t, id)) && s.sessionsGuard.None?
    requires id in s.active ==> s.active[id] < |s.sessions| && s.sessions[s.active[id]].cancelGuard.None?
    ensures StepMany(Apply(s, BeginCancel(t, id)), t, if id in s.active then 6 else 3) == Some(Cancelled(s, id))
  {
    var s0 := s.(tasks := s.tasks[t := Cancelling(id, CancelLock)]);
    var s1 := s.(sessionsGuard := Some(t), tasks := s.tasks[t := Cancelling(id, CancelFind)]);
    assert s0.tasks[t := Cancelling(id, CancelFind)] == s1.tasks;
    assert s1.tasks - {t} == s.tasks;
    if id in s.active {
      OneStep(s0, t, 5);
      OneStep(s1, t, 4);
      MarkRunsAlone(s1, t, id);
    } else {
      var s5 := s1.(tasks := s.tasks[t := Cancelling(id, CancelUnlock)]);
      assert s1.tasks[t := Cancelling(id, CancelUnlock)] == s5.tasks;
      assert s5.tasks - {t} == s.tasks;
      OneStep(s0, t, 2);
      OneStep(s1, t, 1);
      OneStep(s5, t, 0);
    }
  }

  function Unmapped(s: State, t: Thread, sid: Sid, site: CallSite): State
    requires sid < |s.sessions|
  {
    Goto(Log(s.(active := s.active - {s.sessions[sid].id}), Erased(sid)), t, Completing(sid, site, CompleteReport))
  }

  /** The first half of a completion, which takes the session out of the map. */
  lemma EraseRunsAlone(s: State, t: Thread, sid: Sid, site: CallSite, m: nat)
    requires t in s.tasks && s.tasks[t] == Completing(sid, site, CompleteLock) && sid < |s.sessions|
    requires s.sessionsGuard.None?
    ensures StepMany(s, t, m + 3) == StepMany(Unmapped(s, t, sid, site), t, m)
  {
    var x := s.sessions[sid];
    var s1 := s.(sessionsGuard := Some(t), tasks := s.tasks[t := Completing(sid, site, CompleteErase)]);
    var s2 := s1.(active := s.active - {x.id}, log := s.log + [Erased(sid)], tasks := s.tasks[t := Completing(sid, site, CompleteUnlock)]);
    var s3 := s2.(sessionsGuard := None, tasks := s.tasks[t := Completing(sid, site, CompleteReport)]);
    assert s1.tasks[t := Completing(sid, site, CompleteUnlock)] == s2.tasks;
    assert s2.tasks[t := Completing(sid, site, CompleteReport)] == s3.tasks;
    OneStep(s, t, m + 2);
    OneStep(s1, t, m + 1);
    OneStep(s2, t, m);
  }

  function Unguard(s: State, sid: Sid, site: CallSite): State
    requires sid < |s.sessions|
  {
    if site.Guarded() then Put(s, sid, s.sessions[sid].(cancelGuard := None)) else s
  }

  function Reported(s: State, t: Thread, sid: Sid, site: CallSite): State
    requires sid < |s.sessions|
  {
    var x := s.sessions[sid];
    Return(Unguard(Log(s, Called(sid, x.id, x.response, x.Verdict())), sid, site), t)
  }

  /** The second half, which reports. */
  lemma ReportRunsAlone(s: State, t: Thread, sid: Sid, site: CallSite, m: nat)
    requires t in s.tasks && s.tasks[t] == Completing(sid, site, CompleteReport) && sid < |s.sessions|
    ensures StepMany(s, t, m + 3) == StepMany(Reported(s, t, sid, site), t, m)
  {
    var x := s.sessions[sid];
    var s4 := s.(tasks := s.tasks[t := Completing(sid, site, CompleteCall(x.Verdict()))]);
    var s5 := s4.(log := s.log + [Called(sid, x.id, x.response, x.Verdict())], tasks := s.tasks[t := Completing(sid, site, CompleteReturn)]);
    assert s4.tasks[t := Completing(sid, site, CompleteReturn)] == s5.tasks;
    assert s5.tasks - {t} == s.tasks - {t};
    OneStep(s, t, m + 2);
    OneStep(s4, t, m + 1);
    OneStep(s5, t, m);
  }

  lemma BothHalves(s: State, t: Thread, sid: Sid, site: CallSite)
    requires sid < |s.sessions|
    ensures Reported(Unmapped(s, t, sid, site), t, sid, site) == Return(Unguard(Concluded(s, sid), sid, site), t)
  {
    assert Unmapped(s, t, sid, site).tasks - {t} == s.tasks - {t};
  }

  /** A completion, from its lock to the return of the handler that made it. */
  lemma CompletionRunsAlone(s: State, t: Thread, sid: Sid, site: CallSite, m: nat)
    requires t in s.tasks && s.tasks[t] == Completing(sid, site, CompleteLock) && sid < |s.sessions|
    requires s.sessionsGuard.None?
    ensures StepMany(s, t, m + 6) == StepMany(Return(Unguard(Concluded(s, sid), sid, site), t), t, m)
  {
    EraseRunsAlone(s, t, sid, site, m + 3);
    ReportRunsAlone(Unmapped(s, t, sid, site), t, sid, site, m);
    BothHalves(s, t, sid, site);
  }

  /** With the cancel guard taken. */
  function Guarded(s: State, t: Thread, sid: Sid, k: Task): State
    requires sid < |s.sessions|
  {
    Goto(Put(s, sid, s.sessions[sid].(cancelGuard := Some(t))), t, k)
  }

  /** The lock of a handler whose operation has succeeded. */
  lemma LockRunsAlone(s: State, t: Thread, sid: Sid, r: Resume, m: nat)
    requires t in s.tasks && s.tasks[t] == Handling(sid, HandlerLock(r)) && sid < |s.sessions|
    requires s.sessions[sid].cancelGuard.None?
    ensures StepMany(s, t, m + 2)
         == StepMany(Guarded(s, t, sid, if s.sessions[sid].wasCancelled then Completing(sid, r.CancelledSite(), CompleteLock)
                                        else Handling(sid, HandlerNext(r))), t, m)
  {
    var s2 := Guarded(s, t, sid, Handling(sid, HandlerCheck(r)));
    var s3 := StepTask(s2, t);
    OneStep(s, t, m + 1);
    OneStep(s2, t, m);
    assert s3.tasks == s.tasks[t := s3.tasks[t]];
  }

  lemma GuardTakenAndReleased(s: State, t: Thread, sid: Sid, site: CallSite)
    requires sid < |s.sessions| && s.sessions[sid].cancelGuard.None? && site.Guarded()
    ensures var s3 := Guarded(s, t, sid, Completing(sid, site, CompleteLock));
            Return(Unguard(Concluded(s3, sid), sid, site), t) == Return(Concluded(s, sid), t)
  {
    var s3 := Guarded(s, t, sid, Completing(sid, site, CompleteLock));
    assert s3.tasks - {t} == s.tasks - {t};
    assert s3.sessions[sid := s.sessions[sid]] == s.sessions;
  }

  /** It ends a session that was cancelled meanwhile. */
  lemma CancelledRunsAlone(s: State, t: Thread, sid: Sid, r: Resume, m: nat)
    requires t in s.tasks && s.tasks[t] == Handling(sid, HandlerLock(r)) && sid < |s.sessions|
    requires s.sessions[sid].cancelGuard.None?
    requires s.sessionsGuard.None? && s.sessions[sid].wasCancelled
    ensures StepMany(s, t, m + 8) == StepMany(Return(Concluded(s, sid), t), t, m)
  {
    var s3 := Guarded(s, t, sid, Completing(sid, r.CancelledSite(), CompleteLock));
    LockRunsAlone(s, t, sid, r, m + 6);
    CompletionRunsAlone(s3, t, sid, r.CancelledSite(), m);
    GuardTakenAndReleased(s, t, sid, r.CancelledSite());
  }

  /** Otherwise it starts the next operation. */
  lemma NextRunsAlone(s: State, t: Thread, sid: Sid, r: Resume, m: nat)
    requires t in s.tasks && s.tasks[t] == Handling(sid, HandlerLock(r)) && sid < |s.sessions|
    requires s.sessions[sid].cancelGuard.None?
    requires !s.sessions[sid].wasCancelled
    ensures StepMany(s, t, m + 4)
         == StepMany(Return(Launch(Put(s, sid, r.Prepare(s.sessions[sid])), sid, r.Next()), t), t, m)
  {
    var x := s.sessions[sid];
    var s3 := Guarded(s, t, sid, Handling(sid, HandlerNext(r)));
    var s4 := Goto(Launch(Put(s3, sid, r.Prepare(x.(cancelGuard := Some(t)))), sid, r.Next()), t, Handling(sid, HandlerTail));
    LockRunsAlone(s, t, sid, r, m + 2);
    OneStep(s3, t, m + 1);
    OneStep(s4, t, m);
    assert s4.sessions[sid := s4.sessions[sid].(cancelGuard := None)] == s.sessions[sid := r.Prepare(x)];
    assert s4.tasks - {t} == s.tasks - {t};
  }

  function HandlerSteps(x: Session, c: Completion): nat {
    if c.ec != Success || c.Received? then 7 else if x.wasCancelled then 9 else 5
  }

  lemma EndState(s: State, t: Thread, sid: Sid, c: Completion)
    requires Enabled(s, Dispatch(t, sid, c)) && sid < |s.sessions| && (c.ec != Success || c.Received?)
    ensures var s0 := Apply(s, Dispatch(t, sid, c));
            && CanStep(s0, t) && StepTask(s0, t).tasks == s.tasks[t := Completing(sid, c.FailureSite(), CompleteLock)]
            && StepTask(s0, t).sessionsGuard == s.sessionsGuard && |StepTask(s0, t).sessions| == |s.sessions|
            && Return(Concluded(StepTask(s0, t), sid), t) == Handled(s, sid, c)
  {
    var s1 := StepTask(Apply(s, Dispatch(t, sid, c)), t);
    assert s1.tasks == s.tasks[t := Completing(sid, c.FailureSite(), CompleteLock)];
    assert s1.tasks - {t} == s.tasks;
  }

  /** A handler that ends its session at once. */
  lemma EndRunsAlone(s: State, t: Thread, sid: Sid, c: Completion, m: nat)
    requires Enabled(s, Dispatch(t, sid, c)) && s.sessionsGuard.None? && sid < |s.sessions| && (c.ec != Success || c.Received?)
    ensures StepMany(Apply(s, Dispatch(t, sid, c)), t, m + 7) == StepMany(Handled(s, sid, c), t, m)
  {
    var s0 := Apply(s, Dispatch(t, sid, c));
    EndState(s, t, sid, c);
    OneStep(s0, t, m + 6);
    CompletionRunsAlone(StepTask(s0, t), t, sid, c.FailureSite(), m);
  }

  lemma ResumeState(s: State, t: Thread, sid: Sid, c: Completion)
    requires Enabled(s, Dispatch(t, sid, c)) && sid < |s.sessions| && c.ec == Success && !c.Received?
    ensures var s0 := Apply(s, Dispatch(t, sid, c));
            && CanStep(s0, t) && StepTask(s0, t).tasks == s.tasks[t := Handling(sid, HandlerLock(c.Resume()))]
            && StepTask(s0, t).sessionsGuard == s.sessionsGuard && |StepTask(s0, t).sessions| == |s.sessions|
            && StepTask(s0, t).sessions[sid] == Given(s.sessions[sid], c)
            && Return(Resumed(StepTask(s0, t), sid, c.Resume()), t) == Handled(s, sid, c)
  {
    var s1 := StepTask(Apply(s, Dispatch(t, sid, c)), t);
    assert s1.tasks == s.tasks[t := Handling(sid, HandlerLock(c.Resume()))];
    assert s1.tasks - {t} == s.tasks;
    assert s1.sessions == s.sessions[sid := Given(s.sessions[sid], c)];
  }

  /** A handler that goes on with its session, unless it was cancelled. */
  lemma ResumeRunsAlone(s: State, t: Thread, sid: Sid, c: Completion, m: nat)
    requires Enabled(s, Dispatch(t, sid, c)) && s.sessionsGuard.None? && sid < |s.sessions|
    requires c.ec == Success && !c.Received? && s.sessions[sid].cancelGuard.None?
    ensures StepMany(Apply(s, Dispatch(t, sid, c)), t, m + HandlerSteps(s.sessions[sid], c))
         == StepMany(Handled(s, sid, c), t, m)
  {
    var s0 := Apply(s, Dispatch(t, sid, c));
    ResumeState(s, t, sid, c);
    if s.sessions[sid].wasCancelled {
      OneStep(s0, t, m + 8);
      CancelledRunsAlone(StepTask(s0, t), t, sid, c.Resume(), m);
    } else {
      OneStep(s0, t, m + 4);
      NextRunsAlone(StepTask(s0, t), t, sid, c.Resume(), m);
    }
  }

  /** A handler from its first step on, with any number of steps to follow. */
  lemma HandlerRunsAlone(s: State, t: Thread, sid: Sid, c: Completion, m: nat)
    requires Enabled(s, Dispatch(t, sid, c)) && s.sessionsGuard.None?
    requires sid < |s.sessions| && s.sessions[sid].cancelGuard.None?
    ensures StepMany(Apply(s, Dispatch(t, sid, c)), t, m + HandlerSteps(s.sessions[sid], c))
         == StepMany(Handled(s, sid, c), t, m)
  {
    if c.ec != Success || c.Received? {
      EndRunsAlone(s, t, sid, c, m);
    } else {
      ResumeRunsAlone(s, t, sid, c, m);
    }
  }
}
