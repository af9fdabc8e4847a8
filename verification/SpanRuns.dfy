/** Runs of many threads that create, look up and end spans through handles. */
module SpanRuns {
  import opened Wrappers
  import opened Hex
  import opened FilterMask
  import opened TracingSetup
  import opened TraceContextCodec
  import opened SpanThread

  /** The number of trace filter classes. */
  const FILTER_CLASS_END := 10

  type FilterClass = i: nat | i < FILTER_CLASS_END

  type ThreadId = nat
  type HandleId = nat

  datatype Ref = Ref(thread: ThreadId, no: SpanNo)

  /** A handle owns its span, or is an alias of it; without a span it does nothing. */
  datatype Handle = Handle(impl: Option<Ref>, scoped: bool)

  const NO_SPAN := Handle(None, false)

  /** How the process can die: an end from a foreign thread, or a pop of an empty stack. */
  datatype Fault = ForeignThread | EmptyPop

  datatype State = State(config: Config, threads: map<ThreadId, ThreadState>, handles: map<HandleId, Handle>, fault: Option<Fault>)

  const START := State(UNINITIALIZED, map[], map[], None)

  /** What to create: a child of the active span, or a child of the span that serialized ids decode to, if they do. */
  datatype Origin = FromActive | FromRemote(decoded: Option<ValidContext>)

  datatype Action =
    | Initialize(outcome: Option<Word>)
    | Create(thread: ThreadId, handle: HandleId, filter: FilterClass, origin: Origin, ids: ValidContext)
    | GetActive(thread: ThreadId, handle: HandleId)
    | End(thread: ThreadId, handle: HandleId, rest: seq<SpanNo>)
    | Drop(thread: ThreadId, handle: HandleId, rest: seq<SpanNo>)

  function Thread(s: State, t: ThreadId): ThreadState {
    if t in s.threads then s.threads[t] else IDLE
  }

  function SetThread(s: State, t: ThreadId, x: ThreadState): State {
    s.(threads := s.threads[t := x])
  }

  function SetHandle(s: State, h: HandleId, x: Handle): State {
    s.(handles := s.handles[h := x])
  }

  /** `CreateSpan` and `CreateChildSpanOfRemoteTrace` give a no-op span unless tracing is on for the class. */
  predicate CreatesSpan(s: State, a: Action)
    requires a.Create?
  {
    && s.config.tracer && IsEnabled(s.config.mask, a.filter)
    && (a.origin.FromRemote? ==> a.origin.decoded.Some?)
  }

  function RemoteOf(origin: Origin): Option<ValidContext> {
    if origin.FromActive? then None else origin.decoded
  }

  /** A handle that would end a live span. */
  predicate Potent(s: State, h: HandleId) {
    h in s.handles && s.handles[h].scoped && s.handles[h].impl.Some?
  }

  predicate RefOk(s: State, r: Ref) {
    r.no < |Thread(s, r.thread).spans|
  }

  predicate LiveRef(s: State, r: Ref) {
    RefOk(s, r) && Thread(s, r.thread).spans[r.no].live
  }

  /** `SpanImpl::End`, called by thread `t`. */
  function EndImpl(s: State, t: ThreadId, r: Ref, rest: seq<SpanNo>): State {
    if !LiveRef(s, r) then s
    else if r.thread != t then s.(fault := Some(ForeignThread))
    else if Thread(s, t).stack == [] then s.(fault := Some(EmptyPop))
    else SetThread(s, t, Close(Thread(s, t), r.no, rest))
  }

  /** `Span::End`: only an owning handle ends its span, and then lets go of it. */
  function EndHandle(s: State, t: ThreadId, h: HandleId, rest: seq<SpanNo>): State {
    if Potent(s, h) then SetHandle(EndImpl(s, t, s.handles[h].impl.value, rest), h, s.handles[h].(impl := None))
    else s
  }

  /** `CreateSpanImpl`, with the owning handle it returns. */
  function OpenHandle(s: State, t: ThreadId, h: HandleId, remote: Option<ValidContext>, ids: ValidContext): State {
    SetHandle(SetThread(s, t, Open(Thread(s, t), remote, ids)), h, Handle(Some(Ref(t, |Thread(s, t).spans|)), true))
  }

  predicate Enabled(s: State, a: Action) {
    && s.fault.None?
    && match a
       case Initialize(_) => true
       case Create(_, h, _, _, _) => h !in s.handles
       case GetActive(_, h) => h !in s.handles
       case End(_, _, _) => true
       case Drop(_, _, _) => true
  }

  function Apply(s: State, a: Action): State
    requires Enabled(s, a)
  {
    match a
    case Initialize(outcome) => s.(config := Once(s.config, outcome).0)
    case Create(t, h, _, origin, ids) =>
      if !CreatesSpan(s, a) then SetHandle(s, h, NO_SPAN)
      else OpenHandle(s, t, h, RemoteOf(origin), ids)
    case GetActive(t, h) =>
      (match Top(Thread(s, t).stack)
       case None => SetHandle(s, h, NO_SPAN)
       case Some(no) => SetHandle(s, h, Handle(Some(Ref(t, no)), false)))
    case End(t, h, rest) => EndHandle(s, t, h, rest)
    // the destructor ends the span and leaves a handle that nobody can use
    case Drop(t, h, rest) => if h in s.handles then SetHandle(EndHandle(s, t, h, rest), h, NO_SPAN) else s
  }

  predicate IsRun(run: seq<Action>)
    decreases |run|, 0
  {
    run == [] || (IsRun(run[..|run| - 1]) && Enabled(Final(run[..|run| - 1]), run[|run| - 1]))
  }

  function Final(run: seq<Action>): State
    requires IsRun(run)
    decreases |run|, 1
  {
    if run == [] then START else Apply(Final(run[..|run| - 1]), run[|run| - 1])
  }

  /** The ends of live spans: owning handles own live spans, each one its own. */
  ghost predicate HandlesOk(s: State) {
    && (forall h :: Potent(s, h) ==> LiveRef(s, s.handles[h].impl.value))
    && (forall h, g :: Potent(s, h) && Potent(s, g) && h != g ==> s.handles[h].impl.value != s.handles[g].impl.value)
  }

  ghost predicate DepthsOk(s: State) {
    forall t :: t in s.threads ==> DepthOk(s.threads[t])
  }

  lemma {:induction false} DepthAndHandles(run: seq<Action>)
    requires IsRun(run)
    ensures Final(run).fault.None? ==> HandlesOk(Final(run)) && DepthsOk(Final(run))
    ensures Final(run).fault != Some(EmptyPop)
    decreases |run|
  {
    if run != [] {
      DepthAndHandles(run[..|run| - 1]);
      StepDepthAndHandles(Final(run[..|run| - 1]), run[|run| - 1]);
    }
  }

  lemma StepDepthAndHandles(s: State, a: Action)
    requires Enabled(s, a) && HandlesOk(s) && DepthsOk(s)
    ensures var s' := Apply(s, a); s'.fault.None? ==> HandlesOk(s') && DepthsOk(s')
    ensures Apply(s, a).fault != Some(EmptyPop)
  {
    match a
    case Initialize(outcome) => SameThreadsDepth(s, Apply(s, a));
    case Create(t, h, _, origin, ids) =>
      if CreatesSpan(s, a) {
        OpenHandlesOk(s, t, h, RemoteOf(origin), ids);
        OpenDepth(s, t, h, RemoteOf(origin), ids);
      } else {
        SameThreadsDepth(s, Apply(s, a));
      }
    case GetActive(_, _) => SameThreadsDepth(s, Apply(s, a));
    case End(t, h, rest) => EndDepth(s, t, h, rest);
    case Drop(t, h, rest) =>
      EndDepth(s, t, h, rest);
      if h in s.handles && EndHandle(s, t, h, rest).fault.None? {
        SameThreadsDepth(EndHandle(s, t, h, rest), Apply(s, a));
      }
  }

  /** New handles without a span, aliases and disarmed handles put nothing at risk. */
  lemma SameThreadsDepth(s: State, s': State)
    requires HandlesOk(s) && DepthsOk(s) && s'.threads == s.threads
    requires forall h :: Potent(s', h) ==> Potent(s, h) && s'.handles[h] == s.handles[h]
    ensures HandlesOk(s') && DepthsOk(s')
  {
  }

  lemma OpenHandlesOk(s: State, t: ThreadId, h: HandleId, remote: Option<ValidContext>, ids: ValidContext)
    requires h !in s.handles && HandlesOk(s)
    ensures HandlesOk(OpenHandle(s, t, h, remote, ids))
  {
    var s' := OpenHandle(s, t, h, remote, ids);
    assert forall g :: g != h && Potent(s', g) ==> Potent(s, g) && s'.handles[g] == s.handles[g];
  }

  lemma OpenDepth(s: State, t: ThreadId, h: HandleId, remote: Option<ValidContext>, ids: ValidContext)
    requires DepthsOk(s)
    ensures DepthsOk(OpenHandle(s, t, h, remote, ids))
  {
    OpenKeepsDepth(Thread(s, t), remote, ids);
  }

  lemma EndDepth(s: State, t: ThreadId, h: HandleId, rest: seq<SpanNo>)
    requires s.fault.None? && HandlesOk(s) && DepthsOk(s)
    ensures var s' := EndHandle(s, t, h, rest);
            && s'.fault != Some(EmptyPop)
            && (s'.fault.None? ==> HandlesOk(s') && DepthsOk(s'))
  {
    if Potent(s, h) {
      var r := s.handles[h].impl.value;
      assert DepthOk(Thread(s, r.thread));
      CloseKeepsDepth(Thread(s, r.thread), r.no, rest);
    }
  }

  /** Each thread's stack is as deep as it has live spans, in every order of ends, so no pop finds it empty. */
  lemma StackDepthIsLiveSpans(run: seq<Action>, t: ThreadId)
    requires IsRun(run)
    ensures Final(run).fault != Some(EmptyPop)
    ensures Final(run).fault.None? ==> |Thread(Final(run), t).stack| == |LiveSpans(Thread(Final(run), t).spans)|
  {
    DepthAndHandles(run);
    assert t in Final(run).threads ==> DepthOk(Final(run).threads[t]);
  }

  // Agreement of the two stacks

  /** An end that takes effect: an owning handle, a live span, and the thread that created it. */
  predicate EffectiveEnd(s: State, a: Action) {
    && (a.End? || a.Drop?) && Potent(s, a.handle)
    && LiveRef(s, s.handles[a.handle].impl.value) && s.handles[a.handle].impl.value.thread == a.thread
  }

  predicate EndsInnermost(s: State, a: Action) {
    EffectiveEnd(s, a) ==> Innermost(Thread(s, a.thread), s.handles[a.handle].impl.value.no)
  }

  predicate InnermostFirst(run: seq<Action>)
    requires IsRun(run)
    decreases |run|
  {
    run == [] || (InnermostFirst(run[..|run| - 1]) && EndsInnermost(Final(run[..|run| - 1]), run[|run| - 1]))
  }

  predicate AllAgree(s: State) {
    forall t :: t in s.threads ==> Agree(s.threads[t])
  }

  predicate AlwaysAgree(run: seq<Action>)
    requires IsRun(run)
    decreases |run|
  {
    AllAgree(Final(run)) && (run == [] || AlwaysAgree(run[..|run| - 1]))
  }

  lemma EndAgrees(s: State, a: Action)
    requires s.fault.None? && AllAgree(s) && (a.End? || a.Drop?)
    ensures AllAgree(EndHandle(s, a.thread, a.handle, a.rest)) <==> EndsInnermost(s, a)
  {
    if EffectiveEnd(s, a) {
      var x, no := Thread(s, a.thread), s.handles[a.handle].impl.value.no;
      assert Agree(x);
      CloseAgreesIffInnermost(x, no, a.rest);
      var s' := EndHandle(s, a.thread, a.handle, a.rest);
      assert s'.threads == s.threads[a.thread := Close(x, no, a.rest)];
      assert AllAgree(s') <==> Agree(Close(x, no, a.rest)) by {
        assert a.thread in s'.threads;
        assert forall u :: u in s'.threads && u != a.thread ==> s'.threads[u] == s.threads[u];
      }
    }
  }

  lemma OpenAgrees(s: State, t: ThreadId, h: HandleId, remote: Option<ValidContext>, ids: ValidContext)
    requires AllAgree(s)
    ensures AllAgree(OpenHandle(s, t, h, remote, ids))
  {
    OpenKeepsAgree(Thread(s, t), remote, ids);
  }

  lemma StepAgrees(s: State, a: Action)
    requires Enabled(s, a) && AllAgree(s)
    ensures AllAgree(Apply(s, a)) <==> EndsInnermost(s, a)
  {
    match a
    case Initialize(_) =>
    case Create(t, h, _, origin, ids) => OpenAgrees(s, t, h, RemoteOf(origin), ids);
    case GetActive(_, _) =>
    case End(_, _, _) => EndAgrees(s, a);
    case Drop(_, _, _) => EndAgrees(s, a);
  }

  /**
    The two stacks of every thread hold the live spans in the order of creation, all of them
    recording, throughout a run, if and only if every end that takes effect in the run is on
    the innermost live span of its thread.
   */
  lemma {:induction false} AgreeIffInnermostFirst(run: seq<Action>)
    requires IsRun(run)
    ensures AlwaysAgree(run) <==> InnermostFirst(run)
    decreases |run|
  {
    if run != [] {
      var before := run[..|run| - 1];
      AgreeIffInnermostFirst(before);
      if AlwaysAgree(before) {
        StepAgrees(Final(before), run[|run| - 1]);
      }
    }
  }

  // Parents

  predicate AllChained(s: State) {
    forall t :: t in s.threads ==> Chained(s.threads[t])
  }

  lemma StepChained(s: State, a: Action)
    requires Enabled(s, a) && AllAgree(s) && AllChained(s) && EndsInnermost(s, a)
    ensures AllChained(Apply(s, a))
  {
    match a
    case Initialize(_) =>
    case Create(t, h, _, origin, ids) => OpenKeepsChained(Thread(s, t), RemoteOf(origin), ids);
    case GetActive(_, _) =>
    case End(_, _, _) => EndChained(s, a);
    case Drop(_, _, _) => EndChained(s, a);
  }

  lemma EndChained(s: State, a: Action)
    requires s.fault.None? && AllAgree(s) && AllChained(s) && (a.End? || a.Drop?) && EndsInnermost(s, a)
    ensures AllChained(EndHandle(s, a.thread, a.handle, a.rest))
  {
    if EffectiveEnd(s, a) {
      var x, no := Thread(s, a.thread), s.handles[a.handle].impl.value.no;
      CloseAgreesIffInnermost(x, no, a.rest);
      CloseKeepsChained(x, no, a.rest);
    }
  }

  lemma {:induction false} InnermostFirstChains(run: seq<Action>)
    requires IsRun(run) && InnermostFirst(run)
    ensures AllAgree(Final(run)) && AllChained(Final(run))
    decreases |run|
  {
    AgreeIffInnermostFirst(run);
    if run != [] {
      var before := run[..|run| - 1];
      InnermostFirstChains(before);
      StepChained(Final(before), run[|run| - 1]);
    }
  }

  /**
    In any run, `GetActiveSpan` gives an alias of the last span of the thread's stack, or a
    no-op for an empty stack, and changes nothing but the new handle.
   */
  lemma GetActiveIsBackOfStack(run: seq<Action>, t: ThreadId, h: HandleId)
    requires IsRun(run) && Final(run).fault.None? && h !in Final(run).handles
    ensures Enabled(Final(run), GetActive(t, h))
    ensures var s, s', stack := Final(run), Apply(Final(run), GetActive(t, h)), Thread(Final(run), t).stack;
            && s'.threads == s.threads && s'.config == s.config && s'.fault == s.fault
            && s'.handles == s.handles[h := s'.handles[h]] && !s'.handles[h].scoped
            && s'.handles[h].impl == if stack == [] then None else Some(Ref(t, stack[|stack| - 1]))
  {
  }

  /**
    In an innermost-first run `GetActiveSpan` reports the innermost live span of its thread,
    which is recording, and a no-op exactly when no span of the thread is live: a new span
    becomes active, and its end makes the span active that was active before.
   */
  lemma ActiveSpanIsInnermost(run: seq<Action>, t: ThreadId, h: HandleId, no: SpanNo)
    requires IsRun(run) && InnermostFirst(run) && Final(run).fault.None? && h !in Final(run).handles
    ensures Enabled(Final(run), GetActive(t, h))
    ensures var x, active := Thread(Final(run), t), Apply(Final(run), GetActive(t, h)).handles[h].impl;
            && (active == Some(Ref(t, no)) <==> Innermost(x, no))
            && (Innermost(x, no) ==> x.spans[no].recording)
            && (active.Some? ==> active.value.thread == t)
            && (active.None? <==> forall m :: 0 <= m < |x.spans| ==> !x.spans[m].live)
  {
    InnermostFirstChains(run);
    var x := Thread(Final(run), t);
    assert Agree(x) by {
      assert t in Final(run).threads ==> Agree(Final(run).threads[t]);
    }
    LiveSpansAre(x.spans);
    if no < |x.spans| && x.spans[no].live {
      InnermostIsLast(x, no);
    }
  }

  /** Along a thread's stack, local children share the trace of the nearest root or remote child below them. */
  lemma StackSharesTrace(run: seq<Action>, t: ThreadId, i: nat, j: nat)
    requires IsRun(run) && InnermostFirst(run) && i <= j < |Thread(Final(run), t).stack|
    requires var x := Thread(Final(run), t);
             forall m :: i < m <= j && x.stack[m] < |x.spans| ==> !x.spans[x.stack[m]].parent.Remote?
    ensures var x := Thread(Final(run), t);
            && x.stack[i] < |x.spans| && x.stack[j] < |x.spans|
            && x.spans[x.stack[i]].context.traceId == x.spans[x.stack[j]].context.traceId
  {
    InnermostFirstChains(run);
    LocalChildrenShareTrace(Thread(Final(run), t), i, j);
  }

  // Before the initialization, and across threads

  ghost predicate NothingTraced(s: State) {
    && (forall t :: t in s.threads ==> s.threads[t] == IDLE)
    && (forall h :: h in s.handles ==> s.handles[h].impl.None?)
  }

  /** Until an initialization has enabled tracing, every handle is a no-op and every thread's stacks are empty. */
  lemma {:induction false} NothingTracedUntilEnabled(run: seq<Action>)
    requires IsRun(run) && !Final(run).config.tracer
    ensures NothingTraced(Final(run)) && Final(run).fault.None?
    decreases |run|
  {
    if run != [] {
      NothingTracedUntilEnabled(run[..|run| - 1]);
    }
  }

  /** What the first initialization of a run came to, if there was one. */
  function FirstOutcome(run: seq<Action>): Option<Option<Word>> {
    if run == [] then None
    else if run[0].Initialize? then Some(run[0].outcome)
    else FirstOutcome(run[1..])
  }

  lemma {:induction false} FirstOutcomePush(run: seq<Action>, a: Action)
    ensures FirstOutcome(run + [a])
         == if FirstOutcome(run).Some? then FirstOutcome(run) else if a.Initialize? then Some(a.outcome) else None
    decreases |run|
  {
    if run != [] {
      assert (run + [a])[1..] == run[1..] + [a];
      FirstOutcomePush(run[1..], a);
    }
  }

  /** Only the first initialization of a run counts, wherever it happens and whatever the threads do around it. */
  lemma {:induction false} ConfigIsFirstOutcome(run: seq<Action>)
    requires IsRun(run)
    ensures Final(run).config
         == match FirstOutcome(run)
            case None => UNINITIALIZED
            case Some(None) => Config(true, ZERO, false)
            case Some(Some(mask)) => Config(true, mask, true)
    decreases |run|
  {
    if run != [] {
      var before, a := run[..|run| - 1], run[|run| - 1];
      ConfigIsFirstOutcome(before);
      FirstOutcomePush(before, a);
      assert run == before + [a];
    }
  }

  /** The handle owns a live span of the thread that has the given span as its remote parent, in its trace. */
  predicate ContinuesTrace(s: State, t: ThreadId, h: HandleId, sender: ValidContext, flagsFromHex: string -> Byte) {
    && Potent(s, h) && LiveRef(s, s.handles[h].impl.value) && s.handles[h].impl.value.thread == t
    && var child := Thread(s, t).spans[s.handles[h].impl.value.no];
       && child.context.traceId == sender.traceId
       && child.parent == Remote(SpanContext(sender.traceId, sender.spanId, flagsFromHex(ToLowerBase16([sender.flags])), true))
  }

  /**
    Serialized ids link threads: a span that any thread creates from the ids of any other
    span, ended or not, is in that span's trace and has it as its remote parent.
   */
  lemma ChildOfIdsContinuesTrace(
    run: seq<Action>, r: Ref, t: ThreadId, h: HandleId, filter: FilterClass, ids: ValidContext, flagsFromHex: string -> Byte)
    requires IsRun(run) && RefOk(Final(run), r)
    requires var s := Final(run); s.fault.None? && h !in s.handles && s.config.tracer
                                     && IsEnabled(s.config.mask, filter)
    ensures var s := Final(run);
            var sender := Thread(s, r.thread).spans[r.no].context;
            var a := Create(t, h, filter, FromRemote(DecodeIds(Serialize(sender), flagsFromHex)), ids);
            Enabled(s, a) && ContinuesTrace(Apply(s, a), t, h, sender, flagsFromHex)
  {
    DecodeEncoded(Thread(Final(run), r.thread).spans[r.no].context, flagsFromHex);
  }

  // What creating and ending a span does, in terms of the run alone

  /** Tracing was enabled by the run's first initialization, for this class. */
  predicate TracedFor(run: seq<Action>, filter: FilterClass) {
    && FirstOutcome(run).Some? && FirstOutcome(run).value.Some?
    && IsEnabled(FirstOutcome(run).value.value, filter)
  }

  /** A span of the thread is new, live and on top of both stacks, and only the named handle owns it. */
  predicate Opened(s: State, s': State, t: ThreadId, h: HandleId, ids: ValidContext) {
    var x, x' := Thread(s, t), Thread(s', t);
    var no := |x.spans|;
    && s'.config == s.config && s'.fault == s.fault && s'.threads.Keys == s.threads.Keys + {t}
    && (forall u :: u in s.threads && u != t ==> s'.threads[u] == s.threads[u])
    && s'.handles == s.handles[h := Handle(Some(Ref(t, no)), true)]
    && |x'.spans| == no + 1 && x'.spans[..no] == x.spans
    && x'.stack == x.stack + [no] && x'.contexts == x.contexts + [no]
    && x'.spans[no].live && x'.spans[no].recording
    && x'.spans[no].context.spanId == ids.spanId && x'.spans[no].context.flags == ids.flags
  }

  /** After any run, a local span is created exactly if the first initialization enabled its class. */
  lemma LocalSpanIsOpened(run: seq<Action>, t: ThreadId, h: HandleId, filter: FilterClass, ids: ValidContext)
    requires IsRun(run) && Final(run).fault.None? && h !in Final(run).handles
    ensures Enabled(Final(run), Create(t, h, filter, FromActive, ids))
    ensures var s, s' := Final(run), Apply(Final(run), Create(t, h, filter, FromActive, ids));
            if TracedFor(run, filter) then Opened(s, s', t, h, ids) else s' == s.(handles := s.handles[h := NO_SPAN])
  {
    ConfigIsFirstOutcome(run);
  }

  /** A remote child is created exactly if, besides, its ids decode; it is in the remote span's trace. */
  lemma RemoteChildIsOpened(
    run: seq<Action>, t: ThreadId, h: HandleId, filter: FilterClass, decoded: Option<ValidContext>, ids: ValidContext)
    requires IsRun(run) && Final(run).fault.None? && h !in Final(run).handles
    ensures Enabled(Final(run), Create(t, h, filter, FromRemote(decoded), ids))
    ensures var s, s' := Final(run), Apply(Final(run), Create(t, h, filter, FromRemote(decoded), ids));
            if TracedFor(run, filter) && decoded.Some? then
              && Opened(s, s', t, h, ids)
              && var child := Thread(s', t).spans[|Thread(s, t).spans|];
                 child.parent == Remote(decoded.value) && child.context.traceId == decoded.value.traceId
            else s' == s.(handles := s.handles[h := NO_SPAN])
  {
    ConfigIsFirstOutcome(run);
  }

  /** What a local span inherits from the active one: it is its parent, and they share a trace. */
  predicate ChildOfActive(s: State, active: Option<Ref>, child: SpanImpl, ids: ValidContext) {
    match active
    case None => child.parent == Root && child.context.traceId == ids.traceId
    case Some(r) =>
      && RefOk(s, r) && child.parent == Local(r.no)
      && child.context.traceId == Thread(s, r.thread).spans[r.no].context.traceId
  }

  lemma NewLocalSpan(s: State, t: ThreadId, ids: ValidContext)
    requires Agree(Thread(s, t))
    ensures var stack := Thread(s, t).stack;
            ChildOfActive(s, if stack == [] then None else Some(Ref(t, stack[|stack| - 1])), NewSpan(Thread(s, t), None, ids), ids)
  {
    var x := Thread(s, t);
    if LiveSpans(x.spans) != [] {
      LiveSpanInRange(x.spans, |LiveSpans(x.spans)| - 1);
    }
  }

  /** Creating a local span in a state whose tracing is on for the class. */
  lemma CreateIsOpen(s: State, t: ThreadId, h: HandleId, filter: FilterClass, ids: ValidContext)
    requires s.fault.None? && h !in s.handles && s.config.tracer && IsEnabled(s.config.mask, filter)
    ensures var a := Create(t, h, filter, FromActive, ids);
            && Enabled(s, a) && Opened(s, Apply(s, a), t, h, ids)
            && Thread(Apply(s, a), t).spans[|Thread(s, t).spans|] == NewSpan(Thread(s, t), None, ids)
  {
  }

  /**
    In an innermost-first run the parent of a new local span is the span that `GetActiveSpan`
    reports just before on the same thread; when that is a no-op, the new span is a root.
   */
  lemma ParentIsActiveSpan(run: seq<Action>, t: ThreadId, g: HandleId, h: HandleId, filter: FilterClass, ids: ValidContext)
    requires IsRun(run) && InnermostFirst(run) && Final(run).fault.None? && TracedFor(run, filter)
    requires g !in Final(run).handles && h !in Final(run).handles && g != h
    ensures Enabled(Final(run), GetActive(t, g))
    ensures var s1 := Apply(Final(run), GetActive(t, g));
            && Enabled(s1, Create(t, h, filter, FromActive, ids))
            && var s2 := Apply(s1, Create(t, h, filter, FromActive, ids));
               Opened(s1, s2, t, h, ids)
               && ChildOfActive(Final(run), s1.handles[g].impl, Thread(s2, t).spans[|Thread(s1, t).spans|], ids)
  {
    ConfigIsFirstOutcome(run);
    InnermostFirstChains(run);
    assert t in Final(run).threads ==> Agree(Final(run).threads[t]);
    NewLocalSpan(Final(run), t, ids);
    GetActiveIsBackOfStack(run, t, g);
    CreateIsOpen(Apply(Final(run), GetActive(t, g)), t, h, filter, ids);
  }

  /** An action aborts the process exactly if it ends a live span through its owner on a foreign thread. */
  lemma AbortsIffForeignEnd(run: seq<Action>, a: Action)
    requires IsRun(run) && Enabled(Final(run), a)
    ensures Apply(Final(run), a).fault
         == if (a.End? || a.Drop?) && a.handle in Final(run).handles && Final(run).handles[a.handle].scoped
               && Final(run).handles[a.handle].impl.Some? && Final(run).handles[a.handle].impl.value.thread != a.thread
            then Some(ForeignThread) else None
  {
    DepthAndHandles(run);
    if (a.End? || a.Drop?) && Potent(Final(run), a.handle) {
      var r := Final(run).handles[a.handle].impl.value;
      assert LiveRef(Final(run), r);
      assert DepthOk(Thread(Final(run), r.thread));
      CloseKeepsDepth(Thread(Final(run), r.thread), r.no, a.rest);
    }
  }

  /** Ends and destructors are always possible, touch no other handle, and disarm an owner; an alias stays what it is. */
  lemma HandlesAfterEnd(run: seq<Action>, t: ThreadId, h: HandleId, rest: seq<SpanNo>)
    requires IsRun(run) && Final(run).fault.None? && h in Final(run).handles
    ensures Enabled(Final(run), End(t, h, rest)) && Enabled(Final(run), Drop(t, h, rest))
    ensures var s := Final(run);
            && (var x := s.handles[h];
                Apply(s, End(t, h, rest)).handles == s.handles[h := if x.scoped then x.(impl := None) else x])
            && Apply(s, Drop(t, h, rest)).handles == s.handles[h := Handle(None, false)]
  {
  }
}
