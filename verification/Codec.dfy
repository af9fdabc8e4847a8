/** Base-16 text of byte strings. */
module Hex {

  type Byte = x: int | 0 <= x < 256

  function LowerDigit(n: int): char
    requires 0 <= n < 16
  {
    if n < 10 then ('0' as int + n) as char else ('a' as int + n - 10) as char
  }

  predicate IsHexChar(c: char) {
    '0' <= c <= '9' || 'a' <= c <= 'f' || 'A' <= c <= 'F'
  }

  predicate IsValidHex(s: string) {
    forall i :: 0 <= i < |s| ==> IsHexChar(s[i])
  }

  function DigitValue(c: char): (v: int)
    requires IsHexChar(c)
    ensures 0 <= v < 16
  {
    if c <= '9' then c as int - '0' as int
    else if c <= 'F' then c as int - 'A' as int + 10
    else c as int - 'a' as int + 10
  }

  function LowerChar(c: char): char {
    if 'A' <= c <= 'Z' then (c as int + 32) as char else c
  }

  function LowerCase(s: string): string {
    seq(|s|, i requires 0 <= i < |s| => LowerChar(s[i]))
  }

  /** Two lower-case digits a byte, most significant first. */
  function ToLowerBase16(bytes: seq<Byte>): (s: string)
    ensures |s| == 2 * |bytes|
    ensures IsValidHex(s)
  {
    seq(2 * |bytes|, i requires 0 <= i < 2 * |bytes| =>
        LowerDigit(if i % 2 == 0 then bytes[i / 2] / 16 else bytes[i / 2] % 16))
  }

  function FromHex(s: string): (bytes: seq<Byte>)
    requires |s| % 2 == 0 && IsValidHex(s)
    ensures |bytes| == |s| / 2
  {
    seq(|s| / 2, i requires 0 <= i < |s| / 2 => (16 * DigitValue(s[2 * i]) + DigitValue(s[2 * i + 1])) as Byte)
  }

  predicate AllZero(bytes: seq<Byte>) {
    forall i :: 0 <= i < |bytes| ==> bytes[i] == 0
  }

  /** The text of each byte, by its characters: the high half first. */
  lemma HexIsStandard(bytes: seq<Byte>, i: nat)
    requires i < |bytes|
    ensures ToLowerBase16(bytes)[2 * i] == "0123456789abcdef"[bytes[i] / 16]
    ensures ToLowerBase16(bytes)[2 * i + 1] == "0123456789abcdef"[bytes[i] % 16]
  {
    assert 2 * i % 2 == 0 && 2 * i / 2 == i;
    assert (2 * i + 1) % 2 == 1 && (2 * i + 1) / 2 == i;
    DigitIsStandard(bytes[i] / 16);
    DigitIsStandard(bytes[i] % 16);
  }

  lemma DigitIsStandard(n: int)
    requires 0 <= n < 16
    ensures LowerDigit(n) == "0123456789abcdef"[n]
  {
  }

  lemma DigitOfLower(n: int)
    requires 0 <= n < 16
    ensures DigitValue(LowerDigit(n)) == n
  {
  }

  lemma LowerOfDigit(c: char)
    requires IsHexChar(c)
    ensures LowerDigit(DigitValue(c)) == LowerChar(c)
  {
  }

  lemma ByteHalves(high: int, low: int)
    requires 0 <= high < 16 && 0 <= low < 16
    ensures (16 * high + low) / 16 == high && (16 * high + low) % 16 == low
  {
  }

  lemma FromToHex(bytes: seq<Byte>)
    ensures FromHex(ToLowerBase16(bytes)) == bytes
  {
    var s := ToLowerBase16(bytes);
    forall i | 0 <= i < |bytes|
      ensures FromHex(s)[i] == bytes[i]
    {
      assert 2 * i % 2 == 0 && 2 * i / 2 == i;
      assert (2 * i + 1) % 2 == 1 && (2 * i + 1) / 2 == i;
      DigitOfLower(bytes[i] / 16);
      DigitOfLower(bytes[i] % 16);
    }
  }

  lemma ToFromHexAt(s: string, i: nat)
    requires |s| % 2 == 0 && IsValidHex(s) && i < |s|
    ensures ToLowerBase16(FromHex(s))[i] == LowerChar(s[i])
  {
    var j := i / 2;
    ByteHalves(DigitValue(s[2 * j]), DigitValue(s[2 * j + 1]));
    LowerOfDigit(s[i]);
    assert i == if i % 2 == 0 then 2 * j else 2 * j + 1;
  }

  lemma ToFromHex(s: string)
    requires |s| % 2 == 0 && IsValidHex(s)
    ensures ToLowerBase16(FromHex(s)) == LowerCase(s)
  {
    forall i | 0 <= i < |s|
      ensures ToLowerBase16(FromHex(s))[i] == LowerCase(s)[i]
    {
      ToFromHexAt(s, i);
    }
  }

  lemma ZeroHex(s: string)
    requires |s| % 2 == 0 && IsValidHex(s)
    ensures AllZero(FromHex(s)) <==> forall i :: 0 <= i < |s| ==> s[i] == '0'
  {
    var bytes := FromHex(s);
    if AllZero(bytes) {
      forall i | 0 <= i < |s|
        ensures s[i] == '0'
      {
        assert bytes[i / 2] == 16 * DigitValue(s[2 * (i / 2)]) + DigitValue(s[2 * (i / 2) + 1]);
        assert i == 2 * (i / 2) || i == 2 * (i / 2) + 1;
      }
    }
    if forall i :: 0 <= i < |s| ==> s[i] == '0' {
      forall i | 0 <= i < |bytes|
        ensures bytes[i] == 0
      {
        assert s[2 * i] == '0' && s[2 * i + 1] == '0';
      }
    }
  }
}

/**
  The 52-character text form `flags-spanid-traceid` of a span context, its writer and
  its two readers. Widths and the rule that all-zero ids are invalid follow section
  3.2.2 of W3C Trace Context; the order of the fields is the repository's own.
 */
module TraceContextCodec {
  import opened Wrappers
  import opened Hex

  const FLAGS_OFFSET := 0
  const FLAGS_SIZE := 2
  const SPAN_ID_OFFSET := FLAGS_SIZE + 1
  const SPAN_ID_SIZE := 16
  const TRACE_ID_OFFSET := SPAN_ID_OFFSET + SPAN_ID_SIZE + 1
  const TRACE_ID_SIZE := 32
  const TRACE_INFO_SIZE := FLAGS_SIZE + 1 + SPAN_ID_SIZE + 1 + TRACE_ID_SIZE

  type SpanId = s: seq<Byte> | |s| == 8 witness seq(8, _ => 0)
  type TraceId = s: seq<Byte> | |s| == 16 witness seq(16, _ => 0)

  datatype SpanContext = SpanContext(traceId: TraceId, spanId: SpanId, flags: Byte, remote: bool)
  {
    predicate IsValid() {
      !AllZero(traceId) && !AllZero(spanId)
    }
  }

  const INVALID_CONTEXT := SpanContext(seq(16, _ => 0), seq(8, _ => 0), 0, false)

  /** The text form as one expression; the writers below fill a buffer instead. */
  function Serialize(c: SpanContext): (s: string)
    ensures |s| == TRACE_INFO_SIZE
  {
    ToLowerBase16([c.flags]) + "-" + ToLowerBase16(c.spanId) + "-" + ToLowerBase16(c.traceId)
  }

  /** Writes two digits a byte into the buffer from `offset` on. */
  method WriteLowerBase16(out: array<char>, offset: nat, bytes: seq<Byte>)
    requires offset + 2 * |bytes| <= out.Length
    modifies out
    ensures out[..] == old(out[..offset]) + ToLowerBase16(bytes) + old(out[offset + 2 * |bytes|..])
  {
    for i := 0 to |bytes|
      invariant out[..offset] == old(out[..offset])
      invariant forall k :: 0 <= k < 2 * i ==> out[offset + k] == ToLowerBase16(bytes)[k]
      invariant out[offset + 2 * |bytes|..] == old(out[offset + 2 * |bytes|..])
    {
      out[offset + 2 * i] := LowerDigit(bytes[i] / 16);
      out[offset + 2 * i + 1] := LowerDigit(bytes[i] % 16);
      assert ToLowerBase16(bytes)[2 * i] == LowerDigit(bytes[i] / 16);
      assert ToLowerBase16(bytes)[2 * i + 1] == LowerDigit(bytes[i] % 16);
    }
    assert out[offset..offset + 2 * |bytes|] == ToLowerBase16(bytes);
  }

  /** A field written into a buffer with dashes after it is followed by a dash, and the rest is dashes still. */
  lemma FieldThenDash(before: string, offset: nat, field: string, after: string)
    requires offset + |field| < |before| && forall k :: offset <= k < |before| ==> before[k] == '-'
    requires after == before[..offset] + field + before[offset + |field|..]
    ensures |after| == |before| && after[..offset + |field| + 1] == before[..offset] + field + "-"
    ensures forall k :: offset + |field| <= k < |after| ==> after[k] == '-'
  {
    var end := offset + |field|;
    assert after[end] == before[end..][0];
    assert after[..end + 1] == after[..end] + [after[end]];
    forall k | end <= k < |after|
      ensures after[k] == '-'
    {
      assert after[k] == before[end..][k - end];
    }
  }

  /** `GetIdsImpl`: a buffer of dashes into which the three fields are written. */
  method GetIds(c: SpanContext) returns (out: array<char>)
    ensures fresh(out) && out[..] == Serialize(c)
  {
    out := new char[TRACE_INFO_SIZE](_ => '-');
    ghost var flags, spanId, traceId := ToLowerBase16([c.flags]), ToLowerBase16(c.spanId), ToLowerBase16(c.traceId);
    ghost var dashes := out[..];
    WriteLowerBase16(out, FLAGS_OFFSET, [c.flags]);
    ghost var first := out[..];
    FieldThenDash(dashes, FLAGS_OFFSET, flags, first);
    WriteLowerBase16(out, SPAN_ID_OFFSET, c.spanId);
    ghost var second := out[..];
    FieldThenDash(first, SPAN_ID_OFFSET, spanId, second);
    WriteLowerBase16(out, TRACE_ID_OFFSET, c.traceId);
    assert second[..TRACE_ID_OFFSET] == flags + "-" + spanId + "-";
    assert out[..] == second[..TRACE_ID_OFFSET] + traceId;
  }

  /** What `ExtractTraceInfoFromActiveSpan` leaves in its output string. */
  function TraceInfo(active: SpanContext): string {
    if active.IsValid() then Serialize(active) else ""
  }

  /** The same operation, on the string it overwrites. */
  method ExtractTraceInfoFromActiveSpan(active: SpanContext) returns (out: string)
    ensures out == TraceInfo(active)
  {
    if !active.IsValid() {
      out := "";
      return;
    }
    var buffer := GetIds(active);
    out := buffer[..];
  }

  /** The three fields of a string of the right length. */
  function FlagsField(s: string): string requires |s| == TRACE_INFO_SIZE {
    s[FLAGS_OFFSET..FLAGS_OFFSET + FLAGS_SIZE]
  }

  function SpanIdField(s: string): string requires |s| == TRACE_INFO_SIZE {
    s[SPAN_ID_OFFSET..SPAN_ID_OFFSET + SPAN_ID_SIZE]
  }

  function TraceIdField(s: string): string requires |s| == TRACE_INFO_SIZE {
    s[TRACE_ID_OFFSET..TRACE_ID_OFFSET + TRACE_ID_SIZE]
  }

  /**
    `ExtractSpanContextFromIds`. The reader of the two flag characters belongs to the
    tracing library and is unknown here, so it is a parameter.
   */
  function ExtractSpanContextFromIds(s: string, flagsFromHex: string -> Byte): Option<SpanContext> {
    if |s| != TRACE_INFO_SIZE then None
    else if s[SPAN_ID_OFFSET - 1] != '-' || s[TRACE_ID_OFFSET - 1] != '-' then None
    else if !IsValidHex(TraceIdField(s)) || !IsValidHex(SpanIdField(s)) || !IsValidHex(FlagsField(s)) then None
    else
      var traceId := FromHex(TraceIdField(s));
      var spanId := FromHex(SpanIdField(s));
      var flags := flagsFromHex(FlagsField(s));
      if AllZero(traceId) || AllZero(spanId) then None
      else Some(SpanContext(traceId, spanId, flags, true))
  }

  /** `ExtractSpanContextFromTraceInfo`, which reports failure as an invalid context. */
  function ExtractSpanContextFromTraceInfo(s: string, flagsFromHex: string -> Byte): SpanContext {
    if |s| != TRACE_INFO_SIZE then INVALID_CONTEXT
    else if s[SPAN_ID_OFFSET - 1] != '-' || s[TRACE_ID_OFFSET - 1] != '-' then INVALID_CONTEXT
    else if !IsValidHex(TraceIdField(s)) || !IsValidHex(SpanIdField(s)) || !IsValidHex(FlagsField(s)) then
      INVALID_CONTEXT
    else
      var traceId := FromHex(TraceIdField(s));
      var spanId := FromHex(SpanIdField(s));
      var flags := flagsFromHex(FlagsField(s));
      if AllZero(traceId) || AllZero(spanId) then INVALID_CONTEXT
      else SpanContext(traceId, spanId, flags, true)
  }

  lemma SerializeFields(c: SpanContext)
    ensures var s := Serialize(c);
            && s[SPAN_ID_OFFSET - 1] == '-' && s[TRACE_ID_OFFSET - 1] == '-'
            && FlagsField(s) == ToLowerBase16([c.flags])
            && SpanIdField(s) == ToLowerBase16(c.spanId)
            && TraceIdField(s) == ToLowerBase16(c.traceId)
  {
  }

  /** The places of the fields in the text. */
  lemma TextLayout(c: SpanContext)
    ensures var s := Serialize(c);
            && |s| == 52 && s[2] == '-' && s[19] == '-'
            && s[..2] == ToLowerBase16([c.flags]) && s[3..19] == ToLowerBase16(c.spanId) && s[20..] == ToLowerBase16(c.traceId)
  {
    SerializeFields(c);
    var s := Serialize(c);
    assert FlagsField(s) == s[..2] && SpanIdField(s) == s[3..19] && TraceIdField(s) == s[20..];
  }

  /** Reading back a written valid context gives its ids; only the flags go through the library. */
  lemma DecodeEncoded(c: SpanContext, flagsFromHex: string -> Byte)
    requires c.IsValid()
    ensures ExtractSpanContextFromIds(Serialize(c), flagsFromHex)
         == Some(SpanContext(c.traceId, c.spanId, flagsFromHex(ToLowerBase16([c.flags])), true))
  {
    SerializeFields(c);
    FromToHex(c.spanId);
    FromToHex(c.traceId);
  }

  /** With a flag reader that inverts the flag writer, the whole context comes back. */
  lemma DecodeEncodedWithFlags(c: SpanContext, flagsFromHex: string -> Byte)
    requires c.IsValid() && c.remote
    requires forall b: Byte :: flagsFromHex(ToLowerBase16([b])) == b
    ensures ExtractSpanContextFromIds(Serialize(c), flagsFromHex) == Some(c)
  {
    DecodeEncoded(c, flagsFromHex);
  }

  /** The accepted strings, by their characters alone. */
  predicate WellFormedIds(s: string) {
    && |s| == 52
    && (forall i :: 0 <= i < |s| ==>
         if i == 2 || i == 19 then s[i] == '-'
         else '0' <= s[i] <= '9' || 'a' <= s[i] <= 'f' || 'A' <= s[i] <= 'F')
    && (exists i :: 3 <= i < 19 && s[i] != '0')
    && (exists i :: 20 <= i < 52 && s[i] != '0')
  }

  /** The reader accepts exactly the well-formed strings, whatever the flag reader does. */
  lemma AcceptedIffWellFormed(s: string, flagsFromHex: string -> Byte)
    ensures ExtractSpanContextFromIds(s, flagsFromHex).Some? <==> WellFormedIds(s)
  {
    if |s| == TRACE_INFO_SIZE {
      var f, p, t := FlagsField(s), SpanIdField(s), TraceIdField(s);
      assert forall i :: 0 <= i < FLAGS_SIZE ==> f[i] == s[i];
      assert forall i :: 0 <= i < SPAN_ID_SIZE ==> p[i] == s[SPAN_ID_OFFSET + i];
      assert forall i :: 0 <= i < TRACE_ID_SIZE ==> t[i] == s[TRACE_ID_OFFSET + i];
      assert forall i :: SPAN_ID_OFFSET <= i < SPAN_ID_OFFSET + SPAN_ID_SIZE ==> s[i] == p[i - SPAN_ID_OFFSET];
      assert forall i :: TRACE_ID_OFFSET <= i < TRACE_ID_OFFSET + TRACE_ID_SIZE ==> s[i] == t[i - TRACE_ID_OFFSET];
      if IsValidHex(p) { ZeroHex(p); }
      if IsValidHex(t) { ZeroHex(t); }
    }
  }

  lemma LowerCaseFields(s: string)
    requires |s| == TRACE_INFO_SIZE && s[SPAN_ID_OFFSET - 1] == '-' && s[TRACE_ID_OFFSET - 1] == '-'
    ensures LowerCase(s)[FLAGS_SIZE..] == "-" + LowerCase(SpanIdField(s)) + "-" + LowerCase(TraceIdField(s))
    ensures LowerCase(s) == LowerCase(FlagsField(s)) + LowerCase(s)[FLAGS_SIZE..]
  {
  }

  lemma TextFields(c: SpanContext)
    ensures Serialize(c)[FLAGS_SIZE..] == "-" + ToLowerBase16(c.spanId) + "-" + ToLowerBase16(c.traceId)
    ensures Serialize(c) == ToLowerBase16([c.flags]) + Serialize(c)[FLAGS_SIZE..]
  {
  }

  /** Writing the ids of an accepted string gives its id fields in lower case. */
  lemma EncodeDecoded(s: string, flagsFromHex: string -> Byte)
    requires ExtractSpanContextFromIds(s, flagsFromHex).Some?
    ensures var c := ExtractSpanContextFromIds(s, flagsFromHex).value;
            && c.IsValid() && c.remote
            && Serialize(c)[FLAGS_SIZE..] == LowerCase(s)[FLAGS_SIZE..]
            && (ToLowerBase16([flagsFromHex(FlagsField(s))]) == LowerCase(FlagsField(s)) ==> Serialize(c) == LowerCase(s))
  {
    ToFromHex(SpanIdField(s));
    ToFromHex(TraceIdField(s));
    LowerCaseFields(s);
    TextFields(ExtractSpanContextFromIds(s, flagsFromHex).value);
  }

  /** The two readers accept the same strings and agree on every string. */
  lemma ReadersAgree(s: string, flagsFromHex: string -> Byte)
    ensures ExtractSpanContextFromIds(s, flagsFromHex)
         == if ExtractSpanContextFromTraceInfo(s, flagsFromHex).IsValid()
            then Some(ExtractSpanContextFromTraceInfo(s, flagsFromHex)) else None
    ensures ExtractSpanContextFromIds(s, flagsFromHex).None?
        ==> ExtractSpanContextFromTraceInfo(s, flagsFromHex) == INVALID_CONTEXT
  {
    assert !INVALID_CONTEXT.IsValid();
  }

  /** Two contexts have the same text exactly when they have the same ids and flags. */
  lemma SerializeInjective(c: SpanContext, d: SpanContext)
    ensures Serialize(c) == Serialize(d) <==> c.(remote := d.remote) == d
  {
    SerializeFields(c);
    SerializeFields(d);
    FromToHex([c.flags]);
    FromToHex([d.flags]);
    FromToHex(c.spanId);
    FromToHex(d.spanId);
    FromToHex(c.traceId);
    FromToHex(d.traceId);
  }
}
