/**
  The comma-separated filter lists, folded into a 64-bit mask, and the one-time
  initialization of tracing that uses the fold.
 */
module FilterMask {
  import opened Wrappers
  import opened Text

  /** A 64-bit word, as the set of the positions of its one-bits. */
  type Word = w: set<nat> | forall b :: b in w ==> b < 64

  const ZERO: Word := {}
  const ALL: Word := set b: nat | b < 64

  /**
    The word `1 << i`: the shift is computed in a 32-bit `int`, whose sign bit is 31, and
    the result is sign-extended to 64 bits, so class 31 owns the whole upper half. From
    class 32 on the shift is undefined.
   */
  function ClassBits(i: nat): Word
    requires i < 32
  {
    if i == 31 then set b | b in ALL && 31 <= b else {i}
  }

  /** A list of class names as the filter macros take it: enumerator names are distinct and not empty. */
  ghost predicate ClassList(names: seq<string>) {
    && |names| <= 32
    && (forall i :: 0 <= i < |names| ==> names[i] != "")
    && (forall i, j :: 0 <= i < j < |names| ==> names[i] != names[j])
  }

  const TRACE_FILTER_CLASSES := [
    "EVM_CLIENT", "EVM_CLIENT_LOW_LEVEL", "SCILLA_PROCESSING", "SCILLA_IPC", "EVM_RPC",
    "LOOKUP_SERVER", "QUEUE", "ACC_EVM", "NODE", "ACC_HISTOGRAM"]

  const METRICS_FILTER_CLASSES := [
    "EVM_CLIENT", "EVM_CLIENT_LOW_LEVEL", "SCILLA_IPC", "EVM_RPC", "LOOKUP_SERVER", "MSG_DISPATCH",
    "ACCOUNTSTORE_EVM", "ACCOUNTSTORE_SCILLA", "ACCOUNTSTORE_HISTOGRAMS", "TRANSACTION_VERIFY", "CPS", "API_SERVER"]

  /** The names stand in the order of the enumerators, so a name's position is its enumerator's number. */
  lemma ShippedNumbers()
    ensures TRACE_FILTER_CLASSES[0] == "EVM_CLIENT" && TRACE_FILTER_CLASSES[1] == "EVM_CLIENT_LOW_LEVEL"
    ensures TRACE_FILTER_CLASSES[2] == "SCILLA_PROCESSING" && TRACE_FILTER_CLASSES[3] == "SCILLA_IPC"
    ensures TRACE_FILTER_CLASSES[4] == "EVM_RPC" && TRACE_FILTER_CLASSES[5] == "LOOKUP_SERVER"
    ensures TRACE_FILTER_CLASSES[6] == "QUEUE" && TRACE_FILTER_CLASSES[7] == "ACC_EVM"
    ensures TRACE_FILTER_CLASSES[8] == "NODE" && TRACE_FILTER_CLASSES[9] == "ACC_HISTOGRAM"
    ensures METRICS_FILTER_CLASSES[0] == "EVM_CLIENT" && METRICS_FILTER_CLASSES[1] == "EVM_CLIENT_LOW_LEVEL"
    ensures METRICS_FILTER_CLASSES[2] == "SCILLA_IPC" && METRICS_FILTER_CLASSES[3] == "EVM_RPC"
    ensures METRICS_FILTER_CLASSES[4] == "LOOKUP_SERVER" && METRICS_FILTER_CLASSES[5] == "MSG_DISPATCH"
    ensures METRICS_FILTER_CLASSES[6] == "ACCOUNTSTORE_EVM" && METRICS_FILTER_CLASSES[7] == "ACCOUNTSTORE_SCILLA"
    ensures METRICS_FILTER_CLASSES[8] == "ACCOUNTSTORE_HISTOGRAMS" && METRICS_FILTER_CLASSES[9] == "TRANSACTION_VERIFY"
    ensures METRICS_FILTER_CLASSES[10] == "CPS" && METRICS_FILTER_CLASSES[11] == "API_SERVER"
    ensures |TRACE_FILTER_CLASSES| == 10 && |METRICS_FILTER_CLASSES| == 12
  {
  }

  function Pow2(n: nat): nat {
    if n == 0 then 1 else 2 * Pow2(n - 1)
  }

  /** The number that the lowest `n` bits of a word stand for. */
  function Value(w: Word, n: nat): nat {
    if n == 0 then 0 else Value(w, n - 1) + (if n - 1 in w then Pow2(n - 1) else 0)
  }

  lemma {:induction false} ValueOfBit(i: nat, n: nat)
    requires i < 31
    ensures Value(ClassBits(i), n) == if i < n then Pow2(i) else 0
  {
    if n > 0 {
      ValueOfBit(i, n - 1);
    }
  }

  lemma {:induction false} ValueOfSign(n: nat)
    requires n <= 64
    ensures Value(ClassBits(31), n) == if n <= 31 then 0 else Pow2(n) - Pow2(31)
  {
    if n > 0 {
      ValueOfSign(n - 1);
    }
  }

  lemma {:induction false} ValueOfAll(n: nat)
    requires n <= 64
    ensures Value(ALL, n) == Pow2(n) - 1 && Value(ZERO, n) == 0
  {
    if n > 0 {
      ValueOfAll(n - 1);
    }
  }

  /**
    The words as 64-bit numbers: class `i` has the number two to the `i`, only class 31 has
    that of the negative `int` in 64 bits; the full mask is the largest number.
   */
  lemma WordsAreNumbers(i: nat)
    requires i < 32
    ensures Value(ClassBits(i), 64) == if i < 31 then Pow2(i) else Pow2(64) - Pow2(31)
    ensures Value(ALL, 64) == Pow2(64) - 1 && Value(ZERO, 64) == 0
  {
    if i < 31 {
      ValueOfBit(i, 64);
    } else {
      ValueOfSign(64);
    }
    ValueOfAll(64);
  }

  /** The first class with the given name, which is where the comparison macro stops. */
  function FindClass(names: seq<string>, filter: string): (found: Option<nat>)
    ensures found.Some? ==> found.value < |names| && names[found.value] == filter
    ensures found.None? ==> filter !in names
  {
    if names == [] then None
    else if names[0] == filter then Some(0)
    else match FindClass(names[1..], filter)
      case Some(i) => Some(i + 1)
      case None => None
  }

  /** `UpdateMask` and both `UpdateMetricsMask`. */
  function UpdateMask(names: seq<string>, mask: Word, filter: string): Word
    requires |names| <= 32
  {
    if filter == "" then mask
    else if filter == "ALL" then ALL
    else match FindClass(names, filter)
      case Some(i) => mask + ClassBits(i)
      case None => mask
  }

  function Fold(names: seq<string>, mask: Word, tokens: seq<string>): Word
    requires |names| <= 32
    decreases |tokens|
  {
    if tokens == [] then mask else Fold(names, UpdateMask(names, mask, tokens[0]), tokens[1..])
  }

  /** `mask & (1 << i)` is not zero. */
  predicate IsEnabled(mask: Word, i: nat)
    requires i < 32
  {
    mask * ClassBits(i) != {}
  }

  lemma EnabledBits(mask: Word, i: nat)
    requires i < 32
    ensures i < 31 ==> (IsEnabled(mask, i) <==> i in mask)
    ensures i == 31 ==> (IsEnabled(mask, i) <==> exists b :: 31 <= b && b in mask)
  {
    var both := mask * ClassBits(i);
    if i < 31 && i in mask {
      assert i in both;
    }
    if i == 31 {
      if b :| 31 <= b && b in mask {
        assert b in both;
      }
      if both != {} {
        var b :| b in both;
        assert 31 <= b && b in mask;
      }
    }
  }

  /** The plain meaning of a filter list for one class. */
  predicate Selected(names: seq<string>, tokens: seq<string>, i: nat)
    requires i < |names|
  {
    names[i] in tokens || "ALL" in tokens
  }

  /** A filter object: its mask starts at zero and `Init` folds the configured list into it. */
  class Filter {
    const names: seq<string>
    var mask: Word

    constructor (names: seq<string>)
      requires |names| <= 32
      ensures this.names == names && mask == ZERO
    {
      this.names := names;
      mask := ZERO;
    }

    method Init(config: string)
      requires |names| <= 32
      modifies this`mask
      ensures mask == Fold(names, old(mask), Split(config, ','))
    {
      mask := FoldUntilFull(names, mask, Split(config, ','));
    }

    /** A class is enabled iff its bit is set, and class 31 iff any bit of the upper half is. */
    predicate Enabled(i: nat)
      reads this
      requires i < 32
      ensures i < 31 ==> (Enabled(i) <==> i in mask)
      ensures i == 31 ==> (Enabled(i) <==> exists b :: 31 <= b && b in mask)
    {
      EnabledBits(mask, i);
      IsEnabled(mask, i)
    }
  }

  /** The loop of all three folds, with its early exit. */
  method FoldUntilFull(names: seq<string>, start: Word, tokens: seq<string>) returns (mask: Word)
    requires |names| <= 32
    ensures mask == Fold(names, start, tokens)
  {
    mask := start;
    for k := 0 to |tokens|
      invariant Fold(names, start, tokens) == Fold(names, mask, tokens[k..])
    {
      mask := UpdateMask(names, mask, tokens[k]);
      assert tokens[k..][1..] == tokens[k + 1..];
      if mask == ALL {
        FoldFull(names, tokens[k + 1..]);
        return;
      }
    }
  }

  /** What one token contributes. */
  ghost function TokenBits(names: seq<string>, filter: string): Word
    requires |names| <= 32
  {
    UpdateMask(names, ZERO, filter)
  }

  lemma UpdateAdds(names: seq<string>, mask: Word, filter: string)
    requires |names| <= 32
    ensures UpdateMask(names, mask, filter) == mask + TokenBits(names, filter)
  {
  }

  /** The fold is a union: a bit is set iff it was, or some token sets it. */
  lemma {:induction false} FoldBits(names: seq<string>, mask: Word, tokens: seq<string>, b: nat)
    requires |names| <= 32
    ensures b in Fold(names, mask, tokens) <==> b in mask || exists token :: token in tokens && b in TokenBits(names, token)
    decreases |tokens|
  {
    if tokens != [] {
      UpdateAdds(names, mask, tokens[0]);
      FoldBits(names, UpdateMask(names, mask, tokens[0]), tokens[1..], b);
      assert forall token :: token in tokens <==> token == tokens[0] || token in tokens[1..];
    }
  }

  /** The early exit changes nothing: a full mask stays full. */
  lemma FoldFull(names: seq<string>, tokens: seq<string>)
    requires |names| <= 32
    ensures Fold(names, ALL, tokens) == ALL
  {
    forall b: nat | b < 64
      ensures b in Fold(names, ALL, tokens)
    {
      FoldBits(names, ALL, tokens, b);
    }
  }

  /** The bits of a class come from its own name or from "ALL", and classes share no bit. */
  lemma BitsOfClass(names: seq<string>, filter: string, i: nat)
    requires ClassList(names) && i < |names|
    ensures if names[i] == filter || filter == "ALL" then ClassBits(i) <= TokenBits(names, filter)
            else TokenBits(names, filter) !! ClassBits(i)
  {
  }

  /** For every list of at most 32 names and every start mask, a class is enabled iff it was or is selected. */
  lemma FoldEnables(names: seq<string>, mask: Word, tokens: seq<string>, i: nat)
    requires ClassList(names) && i < |names|
    ensures IsEnabled(Fold(names, mask, tokens), i) <==> IsEnabled(mask, i) || Selected(names, tokens, i)
  {
    forall b | b in ClassBits(i)
      ensures b in Fold(names, mask, tokens) <==> b in mask || Selected(names, tokens, i)
    {
      FoldBits(names, mask, tokens, b);
      forall token {
        BitsOfClass(names, token, i);
      }
    }
    var before, after := mask * ClassBits(i), Fold(names, mask, tokens) * ClassBits(i);
    if Selected(names, tokens, i) {
      assert i in after;
    } else {
      assert after == before;
    }
    if b :| b in before {
      assert b in after;
    }
  }

  /** The whole mask is empty iff it was and no token names a class or "ALL". */
  lemma FoldNonzero(names: seq<string>, mask: Word, tokens: seq<string>)
    requires ClassList(names)
    ensures Fold(names, mask, tokens) != ZERO
       <==> mask != ZERO || exists token :: token in tokens && (token == "ALL" || token in names)
  {
    if b :| b in Fold(names, mask, tokens) {
      FoldBits(names, mask, tokens, b);
    }
    if b :| b in mask {
      FoldBits(names, mask, tokens, b);
    }
    if token :| token in tokens && (token == "ALL" || token in names) {
      var b := if token == "ALL" then 0 else FindClass(names, token).value;
      assert b in TokenBits(names, token);
      FoldBits(names, mask, tokens, b);
    }
  }

  /** Order and repetition of the tokens do not matter: lists with the same tokens fold to the same mask. */
  lemma FoldDependsOnSetOnly(names: seq<string>, mask: Word, tokens: seq<string>, others: seq<string>)
    requires |names| <= 32
    requires forall token :: token in tokens <==> token in others
    ensures Fold(names, mask, tokens) == Fold(names, mask, others)
  {
    forall b
      ensures b in Fold(names, mask, tokens) <==> b in Fold(names, mask, others)
    {
      if b >= 0 {
        FoldBits(names, mask, tokens, b);
        FoldBits(names, mask, others, b);
      }
    }
  }

  /** Running the fold again on the same list keeps the mask. */
  lemma FoldAgain(names: seq<string>, mask: Word, tokens: seq<string>)
    requires |names| <= 32
    ensures Fold(names, Fold(names, mask, tokens), tokens) == Fold(names, mask, tokens)
  {
    var full := Fold(names, mask, tokens);
    forall b: nat
      ensures b in Fold(names, full, tokens) <==> b in full
    {
      FoldBits(names, mask, tokens, b);
      FoldBits(names, full, tokens, b);
    }
  }

  /** The trace filter runs `init` from its constructor and once more from the tracing set-up. */
  method TraceFilterStart(config: string) returns (filter: Filter)
    ensures fresh(filter) && filter.names == TRACE_FILTER_CLASSES
    ensures filter.mask == Fold(TRACE_FILTER_CLASSES, ZERO, Split(config, ','))
  {
    filter := new Filter(TRACE_FILTER_CLASSES);
    filter.Init(config);
    if config != "" && config != "NONE" {
      filter.Init(config);
      FoldAgain(TRACE_FILTER_CLASSES, ZERO, Split(config, ','));
    }
  }

  lemma ShippedListsAreClassLists()
    ensures ClassList(TRACE_FILTER_CLASSES) && ClassList(METRICS_FILTER_CLASSES)
  {
  }

  /** Every filter string, both shipped lists: a class is enabled iff the string lists its name or "ALL". */
  lemma ShippedFiltersMeanTheirLists(config: string, i: nat)
    ensures i < |TRACE_FILTER_CLASSES| ==>
      (IsEnabled(Fold(TRACE_FILTER_CLASSES, ZERO, Split(config, ',')), i)
       <==> Selected(TRACE_FILTER_CLASSES, Split(config, ','), i))
    ensures i < |METRICS_FILTER_CLASSES| ==>
      (IsEnabled(Fold(METRICS_FILTER_CLASSES, ZERO, Split(config, ',')), i)
       <==> Selected(METRICS_FILTER_CLASSES, Split(config, ','), i))
  {
    ShippedListsAreClassLists();
    if i < |TRACE_FILTER_CLASSES| {
      FoldEnables(TRACE_FILTER_CLASSES, ZERO, Split(config, ','), i);
    }
    if i < |METRICS_FILTER_CLASSES| {
      FoldEnables(METRICS_FILTER_CLASSES, ZERO, Split(config, ','), i);
    }
  }
}

/** `Tracing::Initialize`: takes effect at most once, and enables tracing or leaves it disabled for good. */
module TracingSetup {
  import opened Wrappers
  import opened Text
  import opened FilterMask

  /** What setting up the exporter for the configured provider came to. */
  datatype ProviderSetup = Ready | UnknownProvider | Threw

  /** `attempted` is the once-flag; the tracer is set or null. */
  datatype Config = Config(attempted: bool, mask: Word, tracer: bool)

  const UNINITIALIZED := Config(false, ZERO, false)

  datatype Call = Call(filters: string, setup: ProviderSetup)

  function FilterText(filters: string, config: string): string {
    if filters == "" then config else filters
  }

  /** Whether a first call with these arguments enables tracing, in terms of the list alone. */
  predicate Usable(filters: string, config: string, setup: ProviderSetup) {
    var text := FilterText(filters, config);
    && text != "" && text != "NONE"
    && (exists token :: token in Split(text, ',') && (token == "ALL" || token in TRACE_FILTER_CLASSES))
    && setup == Ready
  }

  /** Some token of the list is "ALL" or a class name. */
  predicate Listed(text: string) {
    exists token :: token in Split(text, ',') && (token == "ALL" || token in TRACE_FILTER_CLASSES)
  }

  class TracingState {
    var config: Config

    constructor ()
      ensures config == UNINITIALIZED
    {
      config := UNINITIALIZED;
    }

    /** The body that the once-flag protects. */
    method InitializeImpl(filters: string, configured: string, setup: ProviderSetup) returns (result: bool)
      modifies this
      ensures result == Usable(filters, configured, setup)
      ensures filters != "" ==> (result <==> filters != "NONE" && Listed(filters) && setup == Ready)
      ensures filters == "" ==> (result <==> configured != "" && configured != "NONE" && Listed(configured) && setup == Ready)
      ensures config == if result
                        then old(config).(mask := Fold(TRACE_FILTER_CLASSES, ZERO, Split(FilterText(filters, configured), ',')),
                                          tracer := true)
                        else old(config)
    {
      var text := if filters == "" then configured else filters;
      if text == "" || text == "NONE" {
        return false;
      }
      var mask := FoldUntilFull(TRACE_FILTER_CLASSES, ZERO, Split(text, ','));
      ShippedListsAreClassLists();
      FoldNonzero(TRACE_FILTER_CLASSES, ZERO, Split(text, ','));
      if mask == ZERO {
        return false;
      }
      if setup != Ready {
        return false;
      }
      config := config.(mask := mask, tracer := true);
      return true;
    }

    method Initialize(filters: string, configured: string, setup: ProviderSetup) returns (result: bool)
      modifies this
      ensures (config, result) == Once(old(config), Outcome(configured, Call(filters, setup)))
    {
      result := false;
      if !config.attempted {
        config := config.(attempted := true);
        result := InitializeImpl(filters, configured, setup);
      }
    }
  }

  /** The mask that a first call with these arguments would set, if it enables tracing. */
  function Outcome(configured: string, call: Call): Option<Word> {
    if Usable(call.filters, configured, call.setup)
    then Some(Fold(TRACE_FILTER_CLASSES, ZERO, Split(FilterText(call.filters, configured), ',')))
    else None
  }

  /** The once-flag: only the first call has its outcome. */
  function Once(c: Config, outcome: Option<Word>): (Config, bool) {
    if c.attempted then (c, false)
    else match outcome
      case None => (c.(attempted := true), false)
      case Some(mask) => (Config(true, mask, true), true)
  }

  /** The state and the results after a sequence of calls. */
  function InitializeAll(configured: string, calls: seq<Call>): (r: (Config, seq<bool>))
    ensures |r.1| == |calls|
  {
    if calls == [] then (UNINITIALIZED, [])
    else
      var before := InitializeAll(configured, calls[..|calls| - 1]);
      var (c, result) := Once(before.0, Outcome(configured, calls[|calls| - 1]));
      (c, before.1 + [result])
  }

  /** What one call has to offer: a mask that is not zero, exactly if it is usable. */
  lemma OutcomeIsUsable(configured: string, call: Call)
    ensures Outcome(configured, call).Some? <==> Usable(call.filters, configured, call.setup)
    ensures Outcome(configured, call).Some? ==> Outcome(configured, call).value != ZERO
  {
    ShippedListsAreClassLists();
    FoldNonzero(TRACE_FILTER_CLASSES, ZERO, Split(FilterText(call.filters, configured), ','));
  }

  /** The state after any calls is that after the first one, and later calls report false. */
  lemma {:induction false} LaterCallsChangeNothing(configured: string, calls: seq<Call>)
    requires calls != []
    ensures var (c, results) := InitializeAll(configured, calls);
            var first := Once(UNINITIALIZED, Outcome(configured, calls[0]));
            c == first.0 && results[0] == first.1 && forall k :: 0 < k < |results| ==> !results[k]
  {
    if |calls| == 1 {
      assert calls[..0] == [];
    } else {
      LaterCallsChangeNothing(configured, calls[..|calls| - 1]);
    }
  }

  /**
    Only the first call counts: it reports whether it enabled tracing, every later one
    reports false, and the mask and the tracer are set together, exactly then.
   */
  lemma OnlyFirstInitializeCounts(configured: string, calls: seq<Call>)
    requires calls != []
    ensures var (c, results) := InitializeAll(configured, calls);
            && c.attempted
            && results[0] == Usable(calls[0].filters, configured, calls[0].setup)
            && (forall k :: 0 < k < |results| ==> !results[k])
            && (c.tracer <==> results[0]) && (c.mask != ZERO <==> results[0])
            && c == InitializeAll(configured, calls[..1]).0
  {
    OutcomeIsUsable(configured, calls[0]);
    LaterCallsChangeNothing(configured, calls);
    LaterCallsChangeNothing(configured, calls[..1]);
  }

  /** After the first call a class is enabled iff that call enabled tracing and its list selects the class. */
  lemma EnabledAfterInitialize(configured: string, calls: seq<Call>, i: nat)
    requires calls != [] && i < |TRACE_FILTER_CLASSES|
    ensures var c := InitializeAll(configured, calls).0;
            IsEnabled(c.mask, i)
            <==> && Usable(calls[0].filters, configured, calls[0].setup)
                 && Selected(TRACE_FILTER_CLASSES, Split(FilterText(calls[0].filters, configured), ','), i)
  {
    OnlyFirstInitializeCounts(configured, calls);
    ShippedFiltersMeanTheirLists(FilterText(calls[0].filters, configured), i);
    assert calls[..1][..0] == [];
  }

  /** The argument decides, whatever is configured: each class and the result of the first call. */
  lemma ArgumentDecides(configured: string, calls: seq<Call>, i: nat)
    requires calls != [] && calls[0].filters != "" && i < |TRACE_FILTER_CLASSES|
    ensures var (c, results), call := InitializeAll(configured, calls), calls[0];
            && (results[0] <==> && call.filters != "NONE" && call.setup == Ready
                                && exists token :: token in Split(call.filters, ',')
                                     && (token == "ALL" || token in TRACE_FILTER_CLASSES))
            && (IsEnabled(c.mask, i) <==> && call.filters != "NONE" && call.setup == Ready
                                          && (TRACE_FILTER_CLASSES[i] in Split(call.filters, ',') || "ALL" in Split(call.filters, ',')))
  {
    OnlyFirstInitializeCounts(configured, calls);
    EnabledAfterInitialize(configured, calls, i);
  }

  /** Without an argument the configuration decides. */
  lemma ConfigurationDecides(configured: string, calls: seq<Call>, i: nat)
    requires calls != [] && calls[0].filters == "" && i < |TRACE_FILTER_CLASSES|
    ensures var (c, results), call := InitializeAll(configured, calls), calls[0];
            && (results[0] <==> && configured != "NONE" && call.setup == Ready
                                && exists token :: token in Split(configured, ',')
                                     && (token == "ALL" || token in TRACE_FILTER_CLASSES))
            && (IsEnabled(c.mask, i) <==> && configured != "NONE" && call.setup == Ready
                                          && (TRACE_FILTER_CLASSES[i] in Split(configured, ',') || "ALL" in Split(configured, ',')))
  {
    OnlyFirstInitializeCounts(configured, calls);
    EnabledAfterInitialize(configured, calls, i);
  }
}
