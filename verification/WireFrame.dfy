/** The request line that carries a trace context, as the client writes it. */
module WireFrame {
  import opened Hex
  import opened Text
  import opened TraceContextCodec

  const COMMAND := "EMULATE_LONG_CALC_OP "

  /** The duration that the connect handler writes whatever the caller asked for. */
  const SENT_DURATION := 11

  function RequestLine(duration: nat, context: string): string {
    COMMAND + "-" + Decimal(duration) + "-" + context + "-\n"
  }

  /** Every line, by its characters; the one that is sent says eleven. */
  lemma LineText(duration: nat, context: string)
    ensures RequestLine(duration, context) == "EMULATE_LONG_CALC_OP -" + Decimal(duration) + "-" + context + "-\n"
    ensures RequestLine(SENT_DURATION, context) == "EMULATE_LONG_CALC_OP -11-" + context + "-\n"
  {
    DecimalDigit(1);
    assert Decimal(11) == "11";
    assert RequestLine(SENT_DURATION, context)[..25] == "EMULATE_LONG_CALC_OP -11-";
  }

  /** The pieces of a line with a serialized context, in the order they are written. */
  function LinePieces(duration: nat, c: SpanContext): seq<string> {
    [COMMAND, Decimal(duration), ToLowerBase16([c.flags]), ToLowerBase16(c.spanId), ToLowerBase16(c.traceId), "\n"]
  }

  lemma HexHasNoDash(bytes: seq<Byte>)
    ensures '-' !in ToLowerBase16(bytes)
  {
    assert forall c :: IsHexChar(c) ==> c != '-';
  }

  lemma ContextSplits(c: SpanContext)
    ensures Split(Serialize(c) + "-\n", '-') == LinePieces(0, c)[2..]
  {
    var flags, spanId, traceId := ToLowerBase16([c.flags]), ToLowerBase16(c.spanId), ToLowerBase16(c.traceId);
    HexHasNoDash([c.flags]);
    HexHasNoDash(c.spanId);
    HexHasNoDash(c.traceId);
    var third := traceId + ['-'] + "\n";
    var second := spanId + ['-'] + third;
    assert Serialize(c) + "-\n" == flags + ['-'] + second;
    SplitFirst(flags, second, '-');
    SplitFirst(spanId, third, '-');
    SplitFirst(traceId, "\n", '-');
    SplitWhole("\n", '-');
  }

  /** The command and the duration come off first, whatever the context is. */
  lemma HeadSplits(duration: nat, context: string)
    ensures Split(RequestLine(duration, context), '-') == [COMMAND, Decimal(duration)] + Split(context + "-\n", '-')
  {
    var rest := context + "-\n";
    var timed := Decimal(duration) + ['-'] + rest;
    assert RequestLine(duration, context) == COMMAND + ['-'] + timed;
    SplitFirst(COMMAND, timed, '-');
    SplitFirst(Decimal(duration), rest, '-');
  }

  lemma LineSplits(duration: nat, c: SpanContext)
    ensures Split(RequestLine(duration, Serialize(c)), '-') == LinePieces(duration, c)
  {
    HeadSplits(duration, Serialize(c));
    ContextSplits(c);
  }

  /** A line built without an active span has four pieces only. */
  lemma EmptyLineSplits(duration: nat)
    ensures Split(RequestLine(duration, ""), '-') == [COMMAND, Decimal(duration), "", "\n"]
  {
    HeadSplits(duration, "");
    assert "" + "-\n" == "" + ['-'] + "\n";
    SplitFirst("", "\n", '-');
    SplitWhole("\n", '-');
  }
}

/** The server's side: split the line, slice it at fixed offsets, start the child span. */
module TraceServer {
  import opened Wrappers
  import opened Hex
  import opened Text
  import opened TraceContextCodec
  import opened WireFrame

  const MAX_FIELDS := 5
  const CONTEXT_OFFSET := 25
  const TRAILER := 2

  /** The span under which the server works: a child of a remote parent, or the current span. */
  datatype ServerSpan = ChildOf(parent: SpanContext) | CurrentSpan

  datatype Reply = Reply(response: string, span: Option<ServerSpan>)

  /** `CreateChildSpan`. */
  function CreateChildSpan(info: string, flagsFromHex: string -> Byte): ServerSpan {
    var parent := ExtractSpanContextFromTraceInfo(info, flagsFromHex);
    if !parent.IsValid() then CurrentSpan else ChildOf(parent)
  }

  /** The slice of the line that the server takes for the context. */
  function ContextSlice(line: string): string
    requires |line| >= CONTEXT_OFFSET + TRAILER
  {
    line[CONTEXT_OFFSET..|line| - TRAILER]
  }

  /** The slice bounds make sense whenever the server reaches the slice. */
  predicate SliceInRange(line: string) {
    line == "" || |Split(line, '-')| >= MAX_FIELDS ==> |line| >= CONTEXT_OFFSET + TRAILER
  }

  /** What the server answers to a line, and under which span. */
  function ReplyTo(line: string, flagsFromHex: string -> Byte): Reply
    requires SliceInRange(line)
  {
    var pieces := Split(line, '-');
    if |pieces| < MAX_FIELDS then Reply("invalid format", None)
    else
      var span := CreateChildSpan(ContextSlice(line), flagsFromHex);
      if !IsValidHex(pieces[2]) || !IsValidHex(pieces[3]) then Reply("invalid hex", Some(span))
      else Reply("Response\n", Some(span))
  }

  class Service {
    var request: string    // the unread part of the stream buffer
    var response: string

    constructor (received: string)
      ensures request == received && response == ""
    {
      request := received;
      response := "";
    }

    /** Drains the buffer and answers its content. */
    method ProcessRequest(flagsFromHex: string -> Byte) returns (answer: string, span: Option<ServerSpan>)
      requires SliceInRange(request)
      modifies this`request
      ensures request == ""
      ensures Reply(answer, span) == ReplyTo(old(request), flagsFromHex)
    {
      var buf := request;
      request := "";
      span := None;
      var traceIdHex, spanIdHex := "", "";
      if buf != "" {
        var fields := Split(buf, '-');
        if |fields| < MAX_FIELDS {
          answer := "invalid format";
          return;
        }
        traceIdHex, spanIdHex := fields[2], fields[3];
      }
      var child := CreateChildSpan(buf[CONTEXT_OFFSET..|buf| - TRAILER], flagsFromHex);
      span := Some(child);
      if !IsValidHex(traceIdHex) || !IsValidHex(spanIdHex) {
        answer := "invalid hex";
        return;
      }
      answer := "Response\n";
    }

    /**
      The handler of a received request: after an error the service is finished and writes
      nothing, otherwise it keeps the answer as the response to write.
     */
    method OnRequestReceived(ec: int, flagsFromHex: string -> Byte) returns (finished: bool, span: Option<ServerSpan>)
      requires ec == 0 ==> SliceInRange(request)
      modifies this
      ensures finished <==> ec != 0
      ensures finished ==> span == None && request == old(request) && response == old(response)
      ensures !finished ==> request == "" && Reply(response, span) == ReplyTo(old(request), flagsFromHex)
    {
      finished, span := ec != 0, None;
      if finished {
        return;
      }
      response, span := ProcessRequest(flagsFromHex);
    }
  }

  /** For every duration: the slice is the serialized context just when the duration has two digits. */
  lemma SliceExactIffTwoDigits(duration: nat, context: string)
    requires context != ""
    ensures var line := RequestLine(duration, context);
            |line| >= CONTEXT_OFFSET + TRAILER && (ContextSlice(line) == context <==> 10 <= duration <= 99)
  {
    var line := RequestLine(duration, context);
    DecimalWidth(duration);
    if |Decimal(duration)| == 2 {
      assert ContextSlice(line) == context;
    } else {
      assert |ContextSlice(line)| == |context| + |Decimal(duration)| - 2;
    }
  }

  /**
    End to end, for every sender, duration and flag reader: the server always answers
    the request, and it continues the sender's trace (the sender's trace id and span id
    as remote parent) exactly when the duration has two digits. Otherwise it works under
    its own current span and the trace is cut.
   */
  lemma ServerContinuesTraceIffTwoDigits(duration: nat, sender: SpanContext, flagsFromHex: string -> Byte)
    requires sender.IsValid()
    ensures var line := RequestLine(duration, TraceInfo(sender));
            && SliceInRange(line)
            && ReplyTo(line, flagsFromHex).response == "Response\n"
            && ReplyTo(line, flagsFromHex).span
               == if 10 <= duration <= 99
                  then Some(ChildOf(SpanContext(sender.traceId, sender.spanId,
                                                flagsFromHex(ToLowerBase16([sender.flags])), true)))
                  else Some(CurrentSpan)
  {
    var line := RequestLine(duration, Serialize(sender));
    LineSplits(duration, sender);
    SliceExactIffTwoDigits(duration, Serialize(sender));
    DecimalWidth(duration);
    var slice := ContextSlice(line);
    if 10 <= duration <= 99 {
      DecodeEncoded(sender, flagsFromHex);
      ReadersAgree(slice, flagsFromHex);
    } else {
      assert |slice| == TRACE_INFO_SIZE + |Decimal(duration)| - 2;
    }
  }

  /**
    A line of at least five fields whose third or fourth one is not all digits is refused,
    but the server has started its span by then.
   */
  lemma ServerRefusesNonHexFields(line: string, i: nat, flagsFromHex: string -> Byte)
    requires SliceInRange(line) && |Split(line, '-')| >= 5
    requires i < |Split(line, '-')[2]| + |Split(line, '-')[3]|
    requires var c := (Split(line, '-')[2] + Split(line, '-')[3])[i];
             !('0' <= c <= '9') && !('a' <= c <= 'f') && !('A' <= c <= 'F')
    ensures ReplyTo(line, flagsFromHex)
         == Reply("invalid hex", Some(CreateChildSpan(line[25..|line| - 2], flagsFromHex)))
  {
    var third, fourth := Split(line, '-')[2], Split(line, '-')[3];
    if i < |third| {
      assert (third + fourth)[i] == third[i];
    } else {
      assert (third + fourth)[i] == fourth[i - |third|];
    }
  }

  /** Without an active span on the client the line has too few fields and is refused. */
  lemma ServerRefusesLineWithoutContext(duration: nat, sender: SpanContext, flagsFromHex: string -> Byte)
    requires !sender.IsValid()
    ensures var line := RequestLine(duration, TraceInfo(sender));
            SliceInRange(line) && ReplyTo(line, flagsFromHex) == Reply("invalid format", None)
  {
    EmptyLineSplits(duration);
  }

  /** The line that is really sent carries eleven, so the trace always goes on. */
  lemma SentLineContinuesTrace(sender: SpanContext, flagsFromHex: string -> Byte)
    requires sender.IsValid()
    ensures var line := RequestLine(SENT_DURATION, TraceInfo(sender));
            && SliceInRange(line) && ContextSlice(line) == TraceInfo(sender)
            && |Split(line, '-')| >= MAX_FIELDS
            && ReplyTo(line, flagsFromHex).response == "Response\n"
            && ReplyTo(line, flagsFromHex).span.Some?
            && ReplyTo(line, flagsFromHex).span.value.ChildOf?
            && ReplyTo(line, flagsFromHex).span.value.parent.traceId == sender.traceId
            && ReplyTo(line, flagsFromHex).span.value.parent.spanId == sender.spanId
  {
    ServerContinuesTraceIffTwoDigits(SENT_DURATION, sender, flagsFromHex);
    SliceExactIffTwoDigits(SENT_DURATION, Serialize(sender));
    LineSplits(SENT_DURATION, sender);
  }
}
