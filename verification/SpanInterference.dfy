/** Threads do not disturb each other's spans, in any interleaving that does not abort. */
module SpanInterference {
  import opened Wrappers
  import opened SpanThread
  import opened SpanRuns

  /** The initialization and the actions of one thread. */
  predicate ActsIn(a: Action, t: ThreadId) {
    a.Initialize? || a.thread == t
  }

  function Only(run: seq<Action>, t: ThreadId): seq<Action> {
    if run == [] then []
    else if ActsIn(run[|run| - 1], t) then Only(run[..|run| - 1], t) + [run[|run| - 1]]
    else Only(run[..|run| - 1], t)
  }

  /** The handle owns a live span of the thread. */
  predicate Arms(s: State, h: HandleId, t: ThreadId) {
    Potent(s, h) && s.handles[h].impl.value.thread == t
  }

  /** What the whole run and the thread's own run have in common. */
  ghost predicate Alike(s: State, own: State, t: ThreadId) {
    && s.fault.None? && own.fault.None?
    && s.config == own.config
    && Thread(s, t) == Thread(own, t)
    && own.handles.Keys <= s.handles.Keys
    && (forall h :: Arms(s, h, t) <==> Potent(own, h))
    && (forall h :: Potent(own, h) ==> h in s.handles && s.handles[h].impl == own.handles[h].impl)
  }

  /** Ending through a handle that does not own a span of the thread leaves the thread alone, or aborts. */
  lemma ForeignEnd(s: State, own: State, t: ThreadId, u: ThreadId, h: HandleId, rest: seq<SpanNo>)
    requires Alike(s, own, t) && HandlesOk(s) && (u != t || !Potent(own, h))
    ensures EndHandle(s, u, h, rest).fault.None? ==> Alike(EndHandle(s, u, h, rest), own, t)
  {
    if Potent(s, h) {
      assert LiveRef(s, s.handles[h].impl.value);
      assert Arms(s, h, t) <==> Potent(own, h);
    }
  }

  lemma OwnEnd(s: State, own: State, t: ThreadId, h: HandleId, rest: seq<SpanNo>)
    requires Alike(s, own, t) && HandlesOk(own) && Potent(own, h)
    ensures var s' := EndHandle(s, t, h, rest);
            s'.fault.None? ==> Alike(s', EndHandle(own, t, h, rest), t)
  {
    assert Arms(s, h, t);
    assert LiveRef(own, own.handles[h].impl.value);
    var s', own' := EndHandle(s, t, h, rest), EndHandle(own, t, h, rest);
    forall g
      ensures s'.fault.None? ==> (Arms(s', g, t) <==> Potent(own', g))
    {
      assert Arms(s, g, t) <==> Potent(own, g);
    }
  }

  lemma EndAlike(s: State, own: State, t: ThreadId, h: HandleId, rest: seq<SpanNo>)
    requires Alike(s, own, t) && HandlesOk(s) && HandlesOk(own)
    ensures EndHandle(s, t, h, rest).fault.None? ==> Alike(EndHandle(s, t, h, rest), EndHandle(own, t, h, rest), t)
  {
    if Potent(own, h) {
      OwnEnd(s, own, t, h, rest);
    } else {
      ForeignEnd(s, own, t, t, h, rest);
    }
  }

  lemma OpenAlike(s: State, own: State, t: ThreadId, h: HandleId, remote: Option<ValidContext>, ids: ValidContext)
    requires Alike(s, own, t) && h !in s.handles
    ensures Alike(OpenHandle(s, t, h, remote, ids), OpenHandle(own, t, h, remote, ids), t)
  {
    var s', own' := OpenHandle(s, t, h, remote, ids), OpenHandle(own, t, h, remote, ids);
    forall g
      ensures Arms(s', g, t) <==> Potent(own', g)
    {
      assert Arms(s, g, t) <==> Potent(own, g);
    }
  }

  /** A span that another thread opens is none of the thread's. */
  lemma ForeignOpen(s: State, own: State, t: ThreadId, u: ThreadId, h: HandleId, remote: Option<ValidContext>, ids: ValidContext)
    requires Alike(s, own, t) && h !in s.handles && u != t
    ensures Alike(OpenHandle(s, u, h, remote, ids), own, t)
  {
    forall g
      ensures Arms(OpenHandle(s, u, h, remote, ids), g, t) <==> Potent(own, g)
    {
      assert Arms(s, g, t) <==> Potent(own, g);
    }
  }

  /** Storing a handle that owns nothing, under a name that owned nothing, in both runs or in the whole one only. */
  lemma StoreAlike(s: State, own: State, t: ThreadId, h: HandleId, x: Handle)
    requires Alike(s, own, t) && !Potent(s, h) && !(x.scoped && x.impl.Some?)
    ensures Alike(SetHandle(s, h, x), SetHandle(own, h, x), t) && Alike(SetHandle(s, h, x), own, t)
  {
    assert Arms(s, h, t) <==> Potent(own, h);
    forall g
      ensures Arms(SetHandle(s, h, x), g, t) <==> Potent(own, g)
      ensures Potent(SetHandle(own, h, x), g) <==> Potent(own, g)
    {
      assert Arms(s, g, t) <==> Potent(own, g);
    }
  }

  lemma OwnAction(s: State, own: State, a: Action, t: ThreadId)
    requires Alike(s, own, t) && HandlesOk(s) && HandlesOk(own) && Enabled(s, a) && ActsIn(a, t)
    ensures Enabled(own, a)
    ensures Apply(s, a).fault.None? ==> Alike(Apply(s, a), Apply(own, a), t)
  {
    match a
    case Initialize(_) => assert forall h :: Arms(Apply(s, a), h, t) <==> Arms(s, h, t);
    case Create(_, h, _, origin, ids) =>
      if CreatesSpan(s, a) {
        OpenAlike(s, own, t, h, RemoteOf(origin), ids);
      } else {
        StoreAlike(s, own, t, h, NO_SPAN);
      }
    case GetActive(_, h) => StoreAlike(s, own, t, h, Apply(s, a).handles[h]);
    case End(_, h, rest) => EndAlike(s, own, t, h, rest);
    case Drop(_, h, rest) =>
      EndAlike(s, own, t, h, rest);
      if h in s.handles && EndHandle(s, t, h, rest).fault.None? {
        StoreAlike(EndHandle(s, t, h, rest), EndHandle(own, t, h, rest), t, h, NO_SPAN);
      }
  }

  lemma ForeignAction(s: State, own: State, a: Action, t: ThreadId)
    requires Alike(s, own, t) && HandlesOk(s) && Enabled(s, a) && !ActsIn(a, t)
    ensures Apply(s, a).fault.None? ==> Alike(Apply(s, a), own, t)
  {
    match a
    case Create(u, h, _, origin, ids) =>
      if CreatesSpan(s, a) {
        ForeignOpen(s, own, t, u, h, RemoteOf(origin), ids);
      } else {
        StoreAlike(s, own, t, h, NO_SPAN);
      }
    case GetActive(_, h) => StoreAlike(s, own, t, h, Apply(s, a).handles[h]);
    case End(u, h, rest) => ForeignEnd(s, own, t, u, h, rest);
    case Drop(u, h, rest) =>
      ForeignEnd(s, own, t, u, h, rest);
      if h in s.handles && EndHandle(s, u, h, rest).fault.None? {
        StoreAlike(EndHandle(s, u, h, rest), own, t, h, NO_SPAN);
      }
  }

  lemma RunPush(run: seq<Action>, a: Action)
    requires IsRun(run) && Enabled(Final(run), a)
    ensures IsRun(run + [a]) && Final(run + [a]) == Apply(Final(run), a)
  {
    assert (run + [a])[..|run|] == run;
  }

  lemma {:induction false} OwnRunAlike(run: seq<Action>, t: ThreadId)
    requires IsRun(run) && Final(run).fault.None?
    ensures IsRun(Only(run, t)) && Alike(Final(run), Final(Only(run, t)), t)
    decreases |run|
  {
    if run != [] {
      var before, a := run[..|run| - 1], run[|run| - 1];
      OwnRunAlike(before, t);
      DepthAndHandles(before);
      DepthAndHandles(Only(before, t));
      if ActsIn(a, t) {
        OwnAction(Final(before), Final(Only(before, t)), a, t);
        RunPush(Only(before, t), a);
      } else {
        ForeignAction(Final(before), Final(Only(before, t)), a, t);
      }
    }
  }

  /**
    For every interleaving of the threads that does not abort, a thread ends with the same
    spans, the same stacks and so the same active span as when it runs its own actions alone.
   */
  lemma ThreadsDoNotInterfere(run: seq<Action>, t: ThreadId)
    requires IsRun(run) && Final(run).fault.None?
    ensures IsRun(Only(run, t)) && Thread(Final(run), t) == Thread(Final(Only(run, t)), t)
  {
    OwnRunAlike(run, t);
  }

  lemma OpenKeepsLive(s: State, t: ThreadId, h: HandleId, remote: Option<ValidContext>, ids: ValidContext, r: Ref)
    requires LiveRef(s, r)
    ensures LiveRef(OpenHandle(s, t, h, remote, ids), r)
  {
  }

  lemma EndEnds(s: State, t: ThreadId, h: HandleId, rest: seq<SpanNo>, r: Ref)
    requires LiveRef(s, r) && s.fault.None? && EndHandle(s, t, h, rest).fault.None?
    ensures !LiveRef(EndHandle(s, t, h, rest), r) <==> r.thread == t && Potent(s, h) && s.handles[h].impl == Some(r)
  {
  }

  /** A live span is ended on the thread that created it, through an owning handle, or the process aborts. */
  lemma EndedWhereCreated(run: seq<Action>, a: Action, t: ThreadId, no: SpanNo)
    requires IsRun(run) && Enabled(Final(run), a) && Apply(Final(run), a).fault.None?
    requires LiveRef(Final(run), Ref(t, no))
    ensures !LiveRef(Apply(Final(run), a), Ref(t, no))
       <==> (a.End? || a.Drop?) && a.thread == t && Potent(Final(run), a.handle)
            && Final(run).handles[a.handle].impl == Some(Ref(t, no))
  {
    if a.Create? && CreatesSpan(Final(run), a) {
      OpenKeepsLive(Final(run), a.thread, a.handle, RemoteOf(a.origin), a.ids, Ref(t, no));
    } else if a.End? || a.Drop? {
      EndEnds(Final(run), a.thread, a.handle, a.rest, Ref(t, no));
    }
  }
}
