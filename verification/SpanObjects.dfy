/**
  The tracing classes in the shape of the program: spans that end themselves, the stack of
  each thread, and the handles that own or alias spans. What each method does to its
  thread is what `SpanThread` says.
 */
module SpanObjects {
  import opened Wrappers
  import opened Hex
  import opened TraceContextCodec
  import opened FilterMask
  import opened TracingSetup
  import opened SpanThread
  import opened SpanRuns

  /** `SpanImpl`: a span with its token. */
  class Impl {
    const thread: ThreadId
    const context: ValidContext
    const ids: string
    var token: bool
    var recording: bool
    ghost const no: SpanNo  // the number of the span in its thread, in the order of creation
    ghost const parent: Parent

    constructor (thread: ThreadId, context: ValidContext, ghost no: SpanNo, ghost parent: Parent)
      ensures this.thread == thread && this.no == no && ids == Serialize(context)
      ensures Value() == SpanImpl(context, parent, true, true)
    {
      var buffer := GetIds(context);
      this.thread, this.no, this.context, this.parent := thread, no, context, parent;
      ids := buffer[..];
      token, recording := true, true;
    }

    ghost function Value(): SpanImpl
      reads this
    {
      SpanImpl(context, parent, token, recording)
    }

    /**
      Ends the span on the thread with the given locals. A foreign thread aborts the
      process; `rest` is what the runtime makes of a token that is not the top one.
     */
    method End(locals: ThreadLocals, rest: seq<Impl>) returns (aborted: bool)
      requires locals.Valid() && (thread == locals.id ==> locals.Owns(this))
      requires token && thread == locals.id ==> locals.stack != []
      requires forall x :: x in rest ==> locals.Owns(x)
      modifies this, locals
      ensures aborted <==> old(token) && thread != locals.id
      ensures locals.Valid() && locals.impls == old(locals.impls)
      ensures if aborted || !old(token) then locals.View() == old(locals.View()) && Value() == old(Value())
              else locals.View() == Close(old(locals.View()), no, Numbers(rest)) && !token && !recording
    {
      aborted := false;
      if token {
        if thread != locals.id {
          return true;
        }
        ghost var before := locals.View();
        recording := false;
        token := false;
        locals.Release(this, rest);
        locals.Pop();
        assert locals.View().spans == before.spans[no := before.spans[no].(live := false, recording := false)];
      }
    }
  }

  ghost function Numbers(impls: seq<Impl>): seq<SpanNo> {
    seq(|impls|, i requires 0 <= i < |impls| => impls[i].no)
  }

  /** Every span has the text of its own context. */
  ghost predicate Named(impls: seq<Impl>) {
    forall i :: 0 <= i < |impls| ==> impls[i].ids == Serialize(impls[i].context)
  }

  ghost function Values(impls: seq<Impl>): seq<SpanImpl>
    reads impls
  {
    seq(|impls|, i requires 0 <= i < |impls| reads impls => impls[i].Value())
  }

  /** What is local to a thread: the library's stack and the runtime's stack of attached contexts. */
  class ThreadLocals {
    const id: ThreadId
    var stack: seq<Impl>
    var contexts: seq<Impl>
    ghost var impls: seq<Impl>  // all spans that the thread has created

    constructor (id: ThreadId)
      ensures this.id == id && Valid() && View() == IDLE && impls == [] && Named(impls)
    {
      this.id := id;
      stack, contexts, impls := [], [], [];
    }

    ghost predicate Owns(x: Impl)
      reads this
    {
      x.no < |impls| && impls[x.no] == x
    }

    ghost predicate Valid()
      reads this
    {
      && (forall i :: 0 <= i < |impls| ==> impls[i].no == i && impls[i].thread == id)
      && (forall x :: x in stack ==> Owns(x))
      && (forall x :: x in contexts ==> Owns(x))
    }

    ghost function View(): ThreadState
      reads this, impls
    {
      ThreadState(Values(impls), Numbers(stack), Numbers(contexts))
    }

    method Push(span: Impl)
      requires Valid() && Owns(span) && span.recording
      modifies this`stack
      ensures Valid() && View() == old(View()).(stack := old(View()).stack + [span.no])
    {
      stack := stack + [span];
    }

    method Pop()
      requires Valid() && stack != []
      modifies this`stack
      ensures Valid() && View() == old(View()).(stack := old(View()).stack[..|old(stack)| - 1])
    {
      assert forall i :: 0 <= i < |stack| ==> Owns(stack[i]);
      stack := stack[..|stack| - 1];
    }

    /** The token of a span is given back to the runtime. */
    method Release(span: Impl, rest: seq<Impl>)
      requires Valid() && Owns(span) && forall x :: x in rest ==> Owns(x)
      modifies this`contexts
      ensures Valid()
      ensures View() == old(View()).(contexts := SpanThread.Release(old(View()).contexts, span.no, Numbers(rest)))
    {
      assert forall i :: 0 <= i < |contexts| ==> Owns(contexts[i]);
      if contexts != [] && contexts[|contexts| - 1] == span {
        contexts := contexts[..|contexts| - 1];
      } else {
        contexts := rest;
      }
    }

    /** The tracer starts a span under the given remote parent or the current context. */
    method StartSpan(remote: Option<ValidContext>, ids: ValidContext) returns (impl: Impl)
      requires Valid()
      modifies this`impls
      ensures Valid() && View() == old(View()).(spans := old(View()).spans + [NewSpan(old(View()), remote, ids)])
      ensures fresh(impl) && impls == old(impls) + [impl] && impl.no == |old(impls)| && impl.recording
      ensures Named([impl])
    {
      ghost var before := View();
      assert contexts != [] ==> Owns(contexts[|contexts| - 1]);
      var traceId := match remote
        case Some(context) => context.traceId
        case None => if contexts == [] then ids.traceId else contexts[|contexts| - 1].context.traceId;
      var context := SpanContext(traceId, ids.spanId, ids.flags, false);
      assert context == NewSpan(before, remote, ids).context;
      impl := new Impl(id, context, |impls|, ParentOf(before, remote));
      impls := impls + [impl];
    }

    /** Starts a span, attaches its context, and pushes it. */
    method CreateSpanImpl(remote: Option<ValidContext>, ids: ValidContext) returns (span: Span)
      requires Valid()
      modifies this
      ensures Valid() && View() == Open(old(View()), remote, ids)
      ensures fresh(span) && span.impl != null && fresh(span.impl) && span.isScoped
      ensures impls == old(impls) + [span.impl] && span.impl.no == |old(impls)| && Named([span.impl])
    {
      var impl := StartSpan(remote, ids);
      contexts := contexts + [impl];
      Push(impl);
      span := new Span(impl, true);
    }

    method GetActiveSpan() returns (span: Span)
      requires Valid()
      ensures fresh(span) && !span.isScoped
      ensures match Top(View().stack)
              case None => span.impl == null
              case Some(no) => no < |impls| && span.impl == impls[no]
    {
      assert stack != [] ==> Owns(stack[|stack| - 1]);
      if stack == [] {
        span := new Span(null, false);
      } else {
        span := new Span(stack[|stack| - 1], false);
      }
    }
  }

  /** A handle: an owner of its span, or an alias, or a no-op without a span. */
  class Span {
    var impl: Impl?
    const isScoped: bool

    constructor (impl: Impl?, isScoped: bool)
      ensures this.impl == impl && this.isScoped == isScoped
    {
      this.impl, this.isScoped := impl, isScoped;
    }

    /** The explicit end, and all that the destructor does: an owner ends its span and lets go of it, once. */
    method End(locals: ThreadLocals, rest: seq<Impl>) returns (aborted: bool)
      requires locals.Valid()
      requires impl != null && impl.thread == locals.id ==> locals.Owns(impl) && (impl.token ==> locals.stack != [])
      requires forall x :: x in rest ==> locals.Owns(x)
      modifies this, locals, if impl == null then {} else {impl}
      ensures locals.Valid() && locals.impls == old(locals.impls)
      ensures aborted <==> isScoped && old(impl) != null && old(impl.token) && old(impl).thread != locals.id
      ensures if isScoped && old(impl) != null && old(impl.token) && !aborted
              then locals.View() == Close(old(locals.View()), old(impl).no, Numbers(rest))
              else locals.View() == old(locals.View())
      ensures old(impl) != null && (aborted || !isScoped) ==> old(impl).Value() == old(impl.Value())
      ensures impl == if isScoped && !aborted then null else old(impl)
    {
      aborted := false;
      if isScoped && impl != null {
        aborted := impl.End(locals, rest);
        if !aborted {
          impl := null;
        }
      }
    }

    /** The serialized ids of the span, for other threads and processes; empty without a span. */
    function Ids(): string
      reads this
    {
      if impl == null then "" else impl.ids
    }

    /** An owner and every alias of a span have the text of its context, also after its end. */
    lemma IdsAreTextOfContext(locals: ThreadLocals)
      requires locals.Valid() && Named(locals.impls) && (impl != null ==> locals.Owns(impl))
      ensures Ids() == if impl == null then "" else Serialize(locals.View().spans[impl.no].context)
    {
    }
  }

  /** `CreateSpan`. */
  method CreateSpan(tracing: TracingState, locals: ThreadLocals, filter: FilterClass, ids: ValidContext) returns (span: Span)
    requires locals.Valid()
    modifies locals
    ensures locals.Valid() && fresh(span)
    ensures if tracing.config.tracer && IsEnabled(tracing.config.mask, filter)
            then && locals.View() == Open(old(locals.View()), None, ids)
                 && span.impl != null && span.isScoped && locals.impls == old(locals.impls) + [span.impl]
                 && (Named(old(locals.impls)) ==> Named(locals.impls))
            else locals.View() == old(locals.View()) && locals.impls == old(locals.impls) && span.impl == null
  {
    if tracing.config.tracer && IsEnabled(tracing.config.mask, filter) {
      span := locals.CreateSpanImpl(None, ids);
    } else {
      span := new Span(null, false);
    }
  }

  /** `CreateChildSpanOfRemoteTrace`. */
  method CreateChildSpanOfRemoteTrace(
    tracing: TracingState, locals: ThreadLocals, filter: FilterClass, remoteTraceInfo: string, flagsFromHex: string -> Byte,
    ids: ValidContext)
    returns (span: Span)
    requires locals.Valid()
    modifies locals
    ensures locals.Valid() && fresh(span)
    ensures if tracing.config.tracer && IsEnabled(tracing.config.mask, filter) && WellFormedIds(remoteTraceInfo)
            then && locals.View() == Open(old(locals.View()), DecodeIds(remoteTraceInfo, flagsFromHex), ids)
                 && span.impl != null && span.isScoped && locals.impls == old(locals.impls) + [span.impl]
                 && (Named(old(locals.impls)) ==> Named(locals.impls))
            else locals.View() == old(locals.View()) && locals.impls == old(locals.impls) && span.impl == null
  {
    AcceptedIffWellFormed(remoteTraceInfo, flagsFromHex);
    if tracing.config.tracer && IsEnabled(tracing.config.mask, filter) {
      var decoded := DecodeIds(remoteTraceInfo, flagsFromHex);
      if decoded.None? {
        span := new Span(null, false);
        return;
      }
      span := locals.CreateSpanImpl(decoded, ids);
    } else {
      span := new Span(null, false);
    }
  }
}
