/**
  The spans of one thread. Two stacks are kept in parallel: the library's own thread-local
  stack, and the stack of runtime contexts that the tokens of the spans stand for.
 */
module SpanThread {
  import opened Wrappers
  import opened Hex
  import opened TraceContextCodec

  /** Spans of a thread are numbered in the order of their creation. */
  type SpanNo = nat

  /** Ids that the tracer generates are never all zero, so every span has a valid context. */
  type ValidContext = c: SpanContext | c.IsValid()
    witness var c := SpanContext([1, 0, 0, 0, 0, 0, 0, 0, 0, 0, 0, 0, 0, 0, 0, 0], [1, 0, 0, 0, 0, 0, 0, 0], 0, false);
            assert c.traceId[0] == 1 && c.spanId[0] == 1; c

  /** What serialized ids decode to, which is always a valid context. */
  function DecodeIds(ids: string, flagsFromHex: string -> Byte): (decoded: Option<ValidContext>)
    ensures decoded.Some? <==> ExtractSpanContextFromIds(ids, flagsFromHex).Some?
    ensures decoded.Some? ==> decoded.value == ExtractSpanContextFromIds(ids, flagsFromHex).value
  {
    match ExtractSpanContextFromIds(ids, flagsFromHex)
    case None => None
    case Some(context) => EncodeDecoded(ids, flagsFromHex); Some(context)
  }

  datatype Parent = Root | Local(no: SpanNo) | Remote(context: ValidContext)

  /** A span is live while it holds its token. */
  datatype SpanImpl = SpanImpl(context: ValidContext, parent: Parent, live: bool, recording: bool)

  datatype ThreadState = ThreadState(spans: seq<SpanImpl>, stack: seq<SpanNo>, contexts: seq<SpanNo>)

  const IDLE := ThreadState([], [], [])

  function Top(stack: seq<SpanNo>): Option<SpanNo> {
    if stack == [] then None else Some(stack[|stack| - 1])
  }

  /** The span of the current runtime context is the parent, unless a remote one is given. */
  function ParentOf(x: ThreadState, remote: Option<ValidContext>): Parent {
    match remote
    case Some(context) => Remote(context)
    case None => if x.contexts == [] then Root else Local(x.contexts[|x.contexts| - 1])
  }

  /** A child has the trace id of its parent, a root one of its own. */
  function TraceUnder(x: ThreadState, parent: Parent, ids: ValidContext): (traceId: TraceId)
    ensures !AllZero(traceId)
  {
    match parent
    case Root => ids.traceId
    case Local(no) => if no < |x.spans| then x.spans[no].context.traceId else ids.traceId
    case Remote(context) => context.traceId
  }

  function NewSpan(x: ThreadState, remote: Option<ValidContext>, ids: ValidContext): SpanImpl {
    var parent := ParentOf(x, remote);
    SpanImpl(SpanContext(TraceUnder(x, parent, ids), ids.spanId, ids.flags, false), parent, true, true)
  }

  /** `CreateSpanImpl`: start the span, attach its context, push it. */
  function Open(x: ThreadState, remote: Option<ValidContext>, ids: ValidContext): ThreadState {
    ThreadState(x.spans + [NewSpan(x, remote, ids)], x.stack + [|x.spans|], x.contexts + [|x.spans|])
  }

  /**
    Releasing a token that is on top pops the context stack. What the runtime does with a
    token below the top is not known here, so `rest` stands for any outcome.
   */
  function Release(contexts: seq<SpanNo>, no: SpanNo, rest: seq<SpanNo>): seq<SpanNo> {
    if Top(contexts) == Some(no) then contexts[..|contexts| - 1] else rest
  }

  /** `SpanImpl::End` of a live span: end it, release its token, pop whatever is on top of the stack. */
  function Close(x: ThreadState, no: SpanNo, rest: seq<SpanNo>): ThreadState
    requires no < |x.spans| && x.stack != []
  {
    ThreadState(x.spans[no := x.spans[no].(live := false, recording := false)],
                x.stack[..|x.stack| - 1],
                Release(x.contexts, no, rest))
  }

  /** The numbers of the live spans, in the order of creation. */
  function LiveSpans(spans: seq<SpanImpl>): seq<SpanNo> {
    if spans == [] then []
    else if spans[|spans| - 1].live then LiveSpans(spans[..|spans| - 1]) + [|spans| - 1]
    else LiveSpans(spans[..|spans| - 1])
  }

  lemma {:induction false} LiveSpansAre(spans: seq<SpanImpl>)
    ensures var live := LiveSpans(spans);
            && (forall i :: 0 <= i < |live| ==> live[i] < |spans| && spans[live[i]].live)
            && (forall i, j :: 0 <= i < j < |live| ==> live[i] < live[j])
            && (forall no :: 0 <= no < |spans| && spans[no].live ==> no in live)
  {
    if spans != [] {
      LiveSpansAre(spans[..|spans| - 1]);
    }
  }

  lemma {:induction false} LiveSpanInRange(spans: seq<SpanImpl>, i: nat)
    requires i < |LiveSpans(spans)|
    ensures LiveSpans(spans)[i] < |spans|
  {
    if i < |LiveSpans(spans[..|spans| - 1])| {
      LiveSpanInRange(spans[..|spans| - 1], i);
    }
  }

  lemma LiveSpansPush(spans: seq<SpanImpl>, x: SpanImpl)
    ensures LiveSpans(spans + [x]) == if x.live then LiveSpans(spans) + [|spans|] else LiveSpans(spans)
  {
    assert (spans + [x])[..|spans|] == spans;
  }

  function Without(numbers: seq<SpanNo>, no: SpanNo): seq<SpanNo> {
    if numbers == [] then []
    else if numbers[|numbers| - 1] == no then Without(numbers[..|numbers| - 1], no)
    else Without(numbers[..|numbers| - 1], no) + [numbers[|numbers| - 1]]
  }

  lemma {:induction false} WithoutAbsent(numbers: seq<SpanNo>, no: SpanNo)
    requires no !in numbers
    ensures Without(numbers, no) == numbers
  {
    if numbers != [] {
      WithoutAbsent(numbers[..|numbers| - 1], no);
    }
  }

  lemma WithoutPush(numbers: seq<SpanNo>, no: SpanNo, last: SpanNo)
    ensures Without(numbers + [last], no) == if last == no then Without(numbers, no) else Without(numbers, no) + [last]
  {
    assert (numbers + [last])[..|numbers|] == numbers;
  }

  lemma LiveSpansCloseLast(before: seq<SpanImpl>, last: SpanImpl, x: SpanImpl)
    requires !x.live
    ensures LiveSpans(before + [x]) == Without(LiveSpans(before + [last]), |before|)
  {
    LiveSpansAre(before);
    LiveSpansPush(before, x);
    LiveSpansPush(before, last);
    WithoutAbsent(LiveSpans(before), |before|);
    WithoutPush(LiveSpans(before), |before|, |before|);
  }

  lemma LiveSpansCloseEarlier(before: seq<SpanImpl>, closed: seq<SpanImpl>, last: SpanImpl, no: SpanNo)
    requires |closed| == |before| && no < |before|
    requires LiveSpans(closed) == Without(LiveSpans(before), no)
    ensures LiveSpans(closed + [last]) == Without(LiveSpans(before + [last]), no)
  {
    LiveSpansPush(before, last);
    LiveSpansPush(closed, last);
    if last.live {
      WithoutPush(LiveSpans(before), no, |before|);
    }
  }

  /** Ending a span takes its number out of the live ones. */
  lemma {:induction false} LiveSpansClose(spans: seq<SpanImpl>, no: SpanNo, x: SpanImpl)
    requires no < |spans| && !x.live
    ensures LiveSpans(spans[no := x]) == Without(LiveSpans(spans), no)
  {
    var before, last := spans[..|spans| - 1], spans[|spans| - 1];
    assert spans == before + [last];
    if no == |before| {
      assert spans[no := x] == before + [x];
      LiveSpansCloseLast(before, last, x);
    } else {
      assert spans[no := x] == before[no := x] + [last];
      LiveSpansClose(before, no, x);
      LiveSpansCloseEarlier(before, before[no := x], last, no);
    }
  }

  lemma {:induction false} WithoutOne(numbers: seq<SpanNo>, no: SpanNo)
    requires no in numbers && forall i, j :: 0 <= i < j < |numbers| ==> numbers[i] < numbers[j]
    ensures |Without(numbers, no)| == |numbers| - 1
    ensures forall m :: m in Without(numbers, no) <==> m in numbers && m != no
  {
    var before, last := numbers[..|numbers| - 1], numbers[|numbers| - 1];
    if last == no {
      WithoutAbsent(before, no);
    } else {
      WithoutOne(before, no);
    }
  }

  /** The library's stack and the context stack hold the live spans in the order of creation, all recording. */
  predicate Agree(x: ThreadState) {
    && x.stack == LiveSpans(x.spans) && x.contexts == LiveSpans(x.spans)
    && forall no :: 0 <= no < |x.spans| ==> (x.spans[no].recording <==> x.spans[no].live)
  }

  predicate Innermost(x: ThreadState, no: SpanNo) {
    && no < |x.spans| && x.spans[no].live
    && forall later :: no < later < |x.spans| ==> !x.spans[later].live
  }

  lemma InnermostIsLast(x: ThreadState, no: SpanNo)
    requires no < |x.spans| && x.spans[no].live
    ensures Innermost(x, no) <==> Top(LiveSpans(x.spans)) == Some(no)
  {
    LiveSpansAre(x.spans);
  }

  lemma OpenKeepsAgree(x: ThreadState, remote: Option<ValidContext>, ids: ValidContext)
    requires Agree(x)
    ensures Agree(Open(x, remote, ids))
  {
    LiveSpansPush(x.spans, NewSpan(x, remote, ids));
  }

  /** From agreeing stacks, ending a live span leaves them agreeing exactly when it is the innermost one. */
  lemma CloseAgreesIffInnermost(x: ThreadState, no: SpanNo, rest: seq<SpanNo>)
    requires Agree(x) && no < |x.spans| && x.spans[no].live
    ensures x.stack != [] && (Agree(Close(x, no, rest)) <==> Innermost(x, no))
  {
    var live := LiveSpans(x.spans);
    LiveSpansAre(x.spans);
    InnermostIsLast(x, no);
    LiveSpansClose(x.spans, no, x.spans[no].(live := false, recording := false));
    WithoutOne(live, no);
    var last := live[|live| - 1];
    if last == no {
      WithoutAbsent(live[..|live| - 1], no);
    } else {
      assert last in Without(live, no);
    }
  }

  /** Whatever the order, the stack is as deep as there are live spans. */
  predicate DepthOk(x: ThreadState) {
    |x.stack| == |LiveSpans(x.spans)|
  }

  lemma OpenKeepsDepth(x: ThreadState, remote: Option<ValidContext>, ids: ValidContext)
    requires DepthOk(x)
    ensures DepthOk(Open(x, remote, ids))
  {
    LiveSpansPush(x.spans, NewSpan(x, remote, ids));
  }

  lemma CloseKeepsDepth(x: ThreadState, no: SpanNo, rest: seq<SpanNo>)
    requires DepthOk(x) && no < |x.spans| && x.spans[no].live
    ensures x.stack != [] && DepthOk(Close(x, no, rest))
  {
    LiveSpansAre(x.spans);
    LiveSpansClose(x.spans, no, x.spans[no].(live := false, recording := false));
    WithoutOne(LiveSpans(x.spans), no);
  }

  /** Along the stack each span is a child of the one below it, or of a remote span; only the lowest is a root. */
  predicate Chained(x: ThreadState) {
    && (forall i :: 0 <= i < |x.stack| ==> x.stack[i] < |x.spans|)
    && (forall i :: 0 <= i < |x.stack| ==> LinkOk(x, i))
  }

  predicate LinkOk(x: ThreadState, i: nat)
    requires i < |x.stack| && forall j :: 0 <= j <= i ==> x.stack[j] < |x.spans|
  {
    match x.spans[x.stack[i]].parent
    case Root => i == 0
    case Local(no) =>
      i > 0 && no == x.stack[i - 1]
      && x.spans[x.stack[i]].context.traceId == x.spans[x.stack[i - 1]].context.traceId
    case Remote(context) => x.spans[x.stack[i]].context.traceId == context.traceId
  }

  lemma OpenKeepsChained(x: ThreadState, remote: Option<ValidContext>, ids: ValidContext)
    requires Agree(x) && Chained(x)
    ensures Chained(Open(x, remote, ids))
  {
    LiveSpansAre(x.spans);
    var y := Open(x, remote, ids);
    forall i | 0 <= i < |y.stack|
      ensures y.stack[i] < |y.spans| && LinkOk(y, i)
    {
      assert i < |x.stack| ==> LinkOk(x, i);
    }
  }

  lemma CloseKeepsChained(x: ThreadState, no: SpanNo, rest: seq<SpanNo>)
    requires Agree(x) && Chained(x) && Innermost(x, no) && x.stack != []
    ensures Chained(Close(x, no, rest))
  {
    var y := Close(x, no, rest);
    LiveSpansAre(x.spans);
    InnermostIsLast(x, no);
    forall i | 0 <= i < |y.stack|
      ensures y.stack[i] < |y.spans| && LinkOk(y, i)
    {
      assert LinkOk(x, i);
    }
  }

  /** Spans with only local children in between are in one trace, down to the nearest root or remote child. */
  lemma {:induction false} LocalChildrenShareTrace(x: ThreadState, i: nat, j: nat)
    requires Chained(x) && i <= j < |x.stack|
    requires forall m :: i < m <= j ==> !x.spans[x.stack[m]].parent.Remote?
    ensures x.spans[x.stack[i]].context.traceId == x.spans[x.stack[j]].context.traceId
    decreases j
  {
    if i < j {
      LocalChildrenShareTrace(x, i, j - 1);
      assert LinkOk(x, j);
    }
  }
}
