/**
  The client never gets stuck as long as no session is found by two cancel calls, although
  the two kinds of mutex are taken in opposite orders.
 */
module ClientProgress {
  import opened Wrappers
  import opened ClientProtocol
  import opened ClientInvariant
  import opened ClientPreservation
  import opened ClientTheorems

  /**
    The one deadlock: a cancel call holds the sessions guard and waits for a session's
    cancel guard, whose holder saw the session already cancelled and waits for the
    sessions guard.
   */
  predicate GuardCycle(s: State, t: Thread, h: Thread, sid: Sid) {
    && t in s.tasks && h in s.tasks && sid < |s.sessions|
    && s.tasks[t].Cancelling? && s.tasks[t].cancel == CancelGuard(sid) && s.sessionsGuard == Some(t)
    && s.tasks[h].Completing? && s.tasks[h].sid == sid && s.tasks[h].site.Guarded() && s.tasks[h].complete.CompleteLock?
    && s.sessions[sid].cancelGuard == Some(h)
  }

  /** The holder of a cancel guard can act, unless it waits for the sessions guard. */
  lemma HolderSteps(s: State, w: seq<Place>, sid: Sid)
    requires Inv(s, w) && sid < |w| && s.sessions[sid].cancelGuard.Some?
    ensures var h := s.sessions[sid].cancelGuard.value;
            && h in s.tasks
            && (CanStep(s, h)
                || (s.sessionsGuard.Some? && s.tasks[h].Completing? && s.tasks[h].sid == sid && s.tasks[h].site.Guarded()
                    && s.tasks[h].complete.CompleteLock?))
  {
    assert SessionOk(s, w, sid);
    assert TaskOk(s, w, s.sessions[sid].cancelGuard.value);
  }

  /** If no task can act, then a cancel call and a completion wait for each other. */
  lemma StuckMeansCycle(s: State, w: seq<Place>)
    requires Inv(s, w) && s.tasks != map[] && forall t :: t in s.tasks ==> !CanStep(s, t)
    ensures exists t, h, sid :: GuardCycle(s, t, h, sid)
  {
    if s.sessionsGuard == None {
      var t := SomeKey(s.tasks);
      assert TaskOk(s, w, t);
      if WantsGuard(s.tasks[t]) {
        HolderSteps(s, w, TaskSid(s.tasks[t]).value);
      }
    } else {
      var t := s.sessionsGuard.value;
      assert TaskOk(s, w, t);
      var sid := TaskSid(s.tasks[t]).value;
      HolderSteps(s, w, sid);
      assert GuardCycle(s, t, s.sessions[sid].cancelGuard.value, sid);
    }
  }

  /** The cycle needs a session that was found twice: once to be marked, once to be waited for. */
  lemma CycleMeansFoundTwice(s: State, w: seq<Place>, t: Thread, h: Thread, sid: Sid)
    requires Inv(s, w) && GuardCycle(s, t, h, sid)
    ensures FoundCount(s.log, sid) >= 2
  {
    assert SessionOk(s, w, sid) && TaskOk(s, w, h);
    assert w[sid] == WithThread(h);
    assert BeingCancelled(s, sid);
  }

  ghost predicate FoundAtMost(s: State, limit: nat) {
    forall sid :: 0 <= sid < |s.sessions| ==> FoundCount(s.log, sid) <= limit
  }

  ghost predicate SomeTaskSteps(s: State) {
    exists t :: t in s.tasks && CanStep(s, t)
  }

  /** No deadlock: on every run that finds each session at most once, some busy thread can act. */
  lemma NoDeadlock(ioThreads: nat, run: seq<Action>)
    requires IsRun(ioThreads, run) && Final(ioThreads, run).tasks != map[] && FoundAtMost(Final(ioThreads, run), 1)
    ensures SomeTaskSteps(Final(ioThreads, run))
  {
    var s, w := Final(ioThreads, run), Places(ioThreads, run);
    if !SomeTaskSteps(s) {
      StuckMeansCycle(s, w);
      var t, h, sid :| GuardCycle(s, t, h, sid);
      CycleMeansFoundTwice(s, w, t, h, sid);
    }
  }

  lemma CycleStays(s: State, w: seq<Place>, a: Action, t: Thread, h: Thread, sid: Sid)
    requires Inv(s, w) && GuardCycle(s, t, h, sid) && Enabled(s, a)
    ensures GuardCycle(Apply(s, a), t, h, sid)
  {
    if a.Step? {
      StepFrame(s, w, a.thread);
    }
  }

  lemma NotCalledInCycle(s: State, w: seq<Place>, t: Thread, h: Thread, sid: Sid)
    requires Inv(s, w) && GuardCycle(s, t, h, sid)
    ensures !CalledBack(s, sid)
  {
    assert TaskOk(s, w, h);
    SessionFacts(s, w, sid);
  }

  /** Once closed the cycle stays for ever: whatever the run does next, its session is never called back. */
  lemma {:induction false} CycleIsForever(ioThreads: nat, run: seq<Action>, more: seq<Action>, t: Thread, h: Thread, sid: Sid)
    requires IsRun(ioThreads, run) && GuardCycle(Final(ioThreads, run), t, h, sid)
    requires IsRun(ioThreads, run + more)
    ensures var s := Final(ioThreads, run + more);
            GuardCycle(s, t, h, sid) && !CalledBack(s, sid)
    decreases |more|
  {
    var whole := run + more;
    if more == [] {
      assert whole == run;
    } else {
      var before := run + more[..|more| - 1];
      assert whole[..|whole| - 1] == before && whole[|whole| - 1] == more[|more| - 1];
      CycleIsForever(ioThreads, run, more[..|more| - 1], t, h, sid);
      CycleStays(Final(ioThreads, before), Places(ioThreads, before), whole[|whole| - 1], t, h, sid);
    }
    NotCalledInCycle(Final(ioThreads, whole), Places(ioThreads, whole), t, h, sid);
  }
}
