/** The API cost tracker: a static rate table, the pricing of one call, the session
    accumulator that tracked calls update, and the heuristic token estimator. */
module CostTracker {
  import opened Wrappers
  import opened JsStrings

  // ===========================================================================
  // Rate table
  // ===========================================================================

  /** Prices of one model in dollars per million tokens. `cachedInput` is carried as
      data only: no cost computation reads it. */
  datatype Rate = Rate(input: real, output: real, cachedInput: Option<real>)

  /** The rate table, keyed by upper-cased provider, then by exact model id. */
  const ApiPricing: map<string, map<string, Rate>> := map[
    "OPENAI" := map[
      "gpt-4o" := Rate(2.50, 10.00, None),
      "gpt-4o-mini" := Rate(0.15, 0.60, None),
      "gpt-4.1" := Rate(2.00, 8.00, None),
      "gpt-4.1-mini" := Rate(0.40, 1.60, None),
      "gpt-4.1-nano" := Rate(0.10, 0.40, None),
      "gpt-4-turbo" := Rate(10.00, 30.00, None),
      "gpt-4" := Rate(30.00, 60.00, None),
      "gpt-3.5-turbo" := Rate(0.50, 1.50, None),
      "o3" := Rate(1.00, 4.00, Some(0.25)),
      "o1" := Rate(15.00, 60.00, None),
      "o1-mini" := Rate(3.00, 12.00, None),
      "o1-preview" := Rate(15.00, 60.00, None),
      "gpt-o3" := Rate(1.00, 4.00, None),
      "o3-mini" := Rate(0.30, 1.20, None)
    ],
    "CLAUDE" := map[
      "claude-4-opus" := Rate(15.00, 75.00, None),
      "claude-4.1-opus" := Rate(15.00, 75.00, None),
      "claude-4-sonnet" := Rate(3.00, 15.00, None),
      "claude-opus-4-1-20250805" := Rate(3.00, 15.00, None),
      "claude-3.7-sonnet" := Rate(3.00, 15.00, None),
      "claude-3.5-sonnet" := Rate(3.00, 15.00, None),
      "claude-3.5-haiku" := Rate(0.80, 4.00, None),
      "claude-3-opus" := Rate(15.00, 75.00, None),
      "claude-3-sonnet" := Rate(3.00, 15.00, None),
      "claude-3-haiku" := Rate(0.25, 1.25, None)
    ]
  ]

  /** The rate of `model` under `provider`: the provider is upper-cased before the
      lookup, the model id is matched exactly. Only keys the table itself lists are
      found. */
  function LookupRate(provider: string, model: string): Option<Rate> {
    var key := ToUpperCase(provider);
    if key in ApiPricing && model in ApiPricing[key] then Some(ApiPricing[key][model]) else None
  }

  /** A rate is found exactly when the upper-cased provider is a key of the table
      and its entry lists the model id as given, and it is that entry's rate. */
  lemma {:induction false} LookupRateReadsTable(provider: string, model: string)
    ensures LookupRate(provider, model).Some? <==>
      ToUpperCase(provider) in ApiPricing && model in ApiPricing[ToUpperCase(provider)]
    ensures LookupRate(provider, model).Some? ==>
      LookupRate(provider, model).value == ApiPricing[ToUpperCase(provider)][model]
  {
  }

  /** Every price in the table is non-negative. */
  lemma {:induction false} RatesNonNegative(provider: string, model: string)
    requires LookupRate(provider, model).Some?
    ensures LookupRate(provider, model).value.input >= 0.0
    ensures LookupRate(provider, model).value.output >= 0.0
  {
  }

  // ===========================================================================
  // Pricing one call
  // ===========================================================================

  /** A cost breakdown. `error` is present exactly when the model is not priced, and
      then every cost is zero. */
  datatype CostInfo = CostInfo(inputCost: real, outputCost: real, totalCost: real, error: Option<string>)

  /** The message that reports an unknown model; it names the provider as given. */
  function UnknownModelMessage(provider: string, model: string): string {
    "Unknown model: " + provider + ":" + model
  }

  /** Prices a call: tokens over a million times the per-million price, for input
      and output separately, and their sum. An unknown provider or model yields an
      all-zero breakdown that carries an error. */
  function CalculateCost(provider: string, model: string, inputTokens: int, outputTokens: int): (r: CostInfo)
    ensures r.totalCost == r.inputCost + r.outputCost
    ensures r.error.None? <==> LookupRate(provider, model).Some?
    ensures r.error.Some? ==>
      r.inputCost == 0.0 && r.outputCost == 0.0 && r.error.value == UnknownModelMessage(provider, model)
    ensures r.error.None? ==>
      var rate := LookupRate(provider, model).value;
      && r.inputCost == inputTokens as real / 1000000.0 * rate.input
      && r.outputCost == outputTokens as real / 1000000.0 * rate.output
  {
    match LookupRate(provider, model)
    case None => CostInfo(0.0, 0.0, 0.0, Some(UnknownModelMessage(provider, model)))
    case Some(rate) =>
      var inputCost := inputTokens as real / 1000000.0 * rate.input;
      var outputCost := outputTokens as real / 1000000.0 * rate.output;
      CostInfo(inputCost, outputCost, inputCost + outputCost, None)
  }

  /** The provider is matched without regard to the case of its letters: providers
      that are equal ignoring case price every call alike (only the wording of the
      error, which quotes the provider as given, can differ). */
  lemma ProviderCaseInsensitive(p: string, q: string, model: string, inputTokens: int, outputTokens: int)
    requires EqualIgnoringCase(p, q)
    ensures var a, b := CalculateCost(p, model, inputTokens, outputTokens), CalculateCost(q, model, inputTokens, outputTokens);
      && a.inputCost == b.inputCost && a.outputCost == b.outputCost && a.totalCost == b.totalCost
      && a.error.Some? == b.error.Some?
  {
    ToUpperCaseIdentifiesCase(p, q);
    assert LookupRate(p, model) == LookupRate(q, model);
  }

  /** The model id is matched exactly: "gpt-4o" is priced, "GPT-4o" is not. */
  lemma ModelCaseSensitive()
    ensures CalculateCost("openai", "gpt-4o", 0, 0).error.None?
    ensures CalculateCost("openai", "GPT-4o", 0, 0).error.Some?
  {
    assert ToUpperCase("openai") == "OPENAI";
  }

  /** For a priced model, a million input tokens cost the listed input price and a
      million output tokens the listed output price. */
  lemma MillionTokensCostListedPrice(provider: string, model: string)
    requires LookupRate(provider, model).Some?
    ensures CalculateCost(provider, model, 1000000, 0).totalCost == LookupRate(provider, model).value.input
    ensures CalculateCost(provider, model, 0, 1000000).totalCost == LookupRate(provider, model).value.output
  {
  }

  /** Pricing is additive: the cost of two calls' tokens together is the sum of
      their costs. */
  lemma {:induction false} CostIsAdditive(provider: string, model: string, i1: int, o1: int, i2: int, o2: int)
    ensures CalculateCost(provider, model, i1 + i2, o1 + o2).totalCost
         == CalculateCost(provider, model, i1, o1).totalCost + CalculateCost(provider, model, i2, o2).totalCost
  {
  }

  /** Non-negative token counts never cost a negative amount. */
  lemma {:induction false} CostNonNegative(provider: string, model: string, inputTokens: int, outputTokens: int)
    requires inputTokens >= 0 && outputTokens >= 0
    ensures var r := CalculateCost(provider, model, inputTokens, outputTokens);
      r.inputCost >= 0.0 && r.outputCost >= 0.0 && r.totalCost >= 0.0
  {
  }

  /** Worked examples: a million input and half a million output tokens of gpt-4o,
      and two million input and a million output tokens of claude-3-haiku. */
  lemma CalculateCostExamples()
    ensures CalculateCost("openai", "gpt-4o", 1000000, 500000) == CostInfo(2.50, 5.00, 7.50, None)
    ensures CalculateCost("claude", "claude-3-haiku", 2000000, 1000000) == CostInfo(0.50, 1.25, 1.75, None)
  {
    assert LookupRate("openai", "gpt-4o") == Some(Rate(2.50, 10.00, None)) by {
      assert ToUpperCase("openai") == "OPENAI";
    }
    assert LookupRate("claude", "claude-3-haiku") == Some(Rate(0.25, 1.25, None)) by {
      assert ToUpperCase("claude") == "CLAUDE";
    }
  }

  // ---------------------------------------------------------------------------
  // The lookup as written: JavaScript property reads also see inherited members
  // ---------------------------------------------------------------------------

  /** Names every JavaScript object literal inherits from Object.prototype. Reading
      such a name off a rate table yields a function or an object, which is truthy. */
  const InheritedProperties: set<string> := {
    "constructor", "hasOwnProperty", "isPrototypeOf", "propertyIsEnumerable",
    "toLocaleString", "toString", "valueOf", "__proto__",
    "__defineGetter__", "__defineSetter__", "__lookupGetter__", "__lookupSetter__"
  }

  /** A JavaScript number: an exact value or NaN. */
  datatype JsNumber = Finite(value: real) | NaN

  /** The breakdown the source builds, with JavaScript numbers for the costs. */
  datatype JsCostInfo = JsCostInfo(inputCost: JsNumber, outputCost: JsNumber, totalCost: JsNumber, error: Option<string>)

  /** Upper-cased provider keys never name an inherited member, so the provider
      lookup sees only the table's own keys. */
  lemma UpperCasedKeyNotInherited(provider: string)
    ensures ToUpperCase(provider) !in InheritedProperties
  {
    var key := ToUpperCase(provider);
    if |provider| > 4 {
      ToUpperCaseHasNoLowerAscii(provider, 4);
    }
    if key in InheritedProperties {
      // Every inherited name has a lower-case letter at index 4.
      assert false;
    }
  }

  /** `calculateCost` as written: `pricing[model]` is truthy for an inherited member
      name, so such a model id escapes the error path, and reading `.input` and
      `.output` off that function or object gives undefined, which turns every cost into NaN. */
  function CalculateCostAsWritten(provider: string, model: string, inputTokens: int, outputTokens: int): (r: JsCostInfo)
    ensures model !in InheritedProperties ==>
      var c := CalculateCost(provider, model, inputTokens, outputTokens);
      r == JsCostInfo(Finite(c.inputCost), Finite(c.outputCost), Finite(c.totalCost), c.error)
  {
    var key := ToUpperCase(provider);
    if key in ApiPricing && model !in ApiPricing[key] && model in InheritedProperties then
      JsCostInfo(NaN, NaN, NaN, None)
    else
      var c := CalculateCost(provider, model, inputTokens, outputTokens);
      JsCostInfo(Finite(c.inputCost), Finite(c.outputCost), Finite(c.totalCost), c.error)
  }

  /** The model id "constructor" is not in the table, yet as written it is priced at
      NaN with no error; the corrected lookup reports it as unknown. */
  lemma InheritedModelEscapesErrorPath(inputTokens: int, outputTokens: int)
    ensures CalculateCostAsWritten("openai", "constructor", inputTokens, outputTokens) == JsCostInfo(NaN, NaN, NaN, None)
    ensures CalculateCost("openai", "constructor", inputTokens, outputTokens).error
         == Some("Unknown model: openai:constructor")
  {
    assert ToUpperCase("openai") == "OPENAI";
    assert "constructor" !in ApiPricing["OPENAI"];
    assert UnknownModelMessage("openai", "constructor") == "Unknown model: openai:constructor";
  }

  // ===========================================================================
  // Session accumulator
  // ===========================================================================

  /** What a caller reports about one API call. `success` defaults to true in the
      source; the caller label and the duration only feed the log. */
  datatype CallData = CallData(provider: string, model: string, inputTokens: int, outputTokens: int, success: bool)

  /** The pair of running totals that getSessionSummary reports. */
  datatype Summary = Summary(totalCalls: nat, totalCost: real)

  /** The breakdown a tracked call yields, or None when its model is unknown. */
  function CostOf(call: CallData): Option<CostInfo> {
    var info := CalculateCost(call.provider, call.model, call.inputTokens, call.outputTokens);
    if info.error.Some? then None else Some(info)
  }

  /** The totals after tracking `call`: a successful call with a priced model adds
      one call and its total cost; any other call changes nothing. */
  function Track(totals: Summary, call: CallData): Summary {
    match CostOf(call)
    case Some(info) =>
      if call.success then Summary(totals.totalCalls + 1, totals.totalCost + info.totalCost) else totals
    case None => totals
  }

  /** The totals after tracking `calls` in order. */
  function Replay(totals: Summary, calls: seq<CallData>): Summary
    decreases |calls|
  {
    if calls == [] then totals else Replay(Track(totals, calls[0]), calls[1..])
  }

  /** The costs the session is charged for, in order: one per successful call with
      a priced model. */
  function BilledCosts(calls: seq<CallData>): seq<real> {
    if calls == [] then []
    else
      var rest := BilledCosts(calls[1..]);
      match CostOf(calls[0])
      case Some(info) => if calls[0].success then [info.totalCost] + rest else rest
      case None => rest
  }

  function Sum(costs: seq<real>): real {
    if costs == [] then 0.0 else costs[0] + Sum(costs[1..])
  }

  /** Tracking a sequence of calls adds the number of billed calls to the call count
      and the sum of their costs to the running cost. */
  lemma {:induction false} ReplayAccumulates(totals: Summary, calls: seq<CallData>)
    ensures Replay(totals, calls)
         == Summary(totals.totalCalls + |BilledCosts(calls)|, totals.totalCost + Sum(BilledCosts(calls)))
    decreases |calls|
  {
    if calls != [] {
      var rest := BilledCosts(calls[1..]);
      ReplayAccumulates(Track(totals, calls[0]), calls[1..]);
      match CostOf(calls[0])
      case Some(info) =>
        if calls[0].success {
          assert ([info.totalCost] + rest)[1..] == rest;
        }
      case None =>
    }
  }

  /** Tracking two batches one after the other is tracking them together. */
  lemma {:induction false} ReplayAppend(totals: Summary, first: seq<CallData>, second: seq<CallData>)
    ensures Replay(totals, first + second) == Replay(Replay(totals, first), second)
    decreases |first|
  {
    if first != [] {
      assert (first + second)[1..] == first[1..] + second;
      ReplayAppend(Track(totals, first[0]), first[1..], second);
    } else {
      assert first + second == second;
    }
  }

  /** Failed calls are never billed: a batch of failed calls leaves the totals as
      they were. */
  lemma {:induction false} FailedCallsLeaveTotals(totals: Summary, calls: seq<CallData>)
    requires forall k :: 0 <= k < |calls| ==> !calls[k].success
    ensures Replay(totals, calls) == totals
    decreases |calls|
  {
    if calls != [] {
      FailedCallsLeaveTotals(totals, calls[1..]);
    }
  }

  /** Between resets the totals never decrease when every call reports
      non-negative token counts. */
  lemma {:induction false} ReplayNeverDecreases(totals: Summary, calls: seq<CallData>)
    requires forall k :: 0 <= k < |calls| ==> calls[k].inputTokens >= 0 && calls[k].outputTokens >= 0
    ensures Replay(totals, calls).totalCalls >= totals.totalCalls
    ensures Replay(totals, calls).totalCost >= totals.totalCost
    decreases |calls|
  {
    if calls != [] {
      var c := calls[0];
      CostNonNegative(c.provider, c.model, c.inputTokens, c.outputTokens);
      ReplayNeverDecreases(Track(totals, c), calls[1..]);
    }
  }

  /** The session accumulator: the running cost and count of successful, priced
      calls since start-up or the last reset. */
  class Session {
    var totalCost: real
    var totalCalls: nat

    /** The accumulated cost is never negative. */
    predicate Valid()
      reads this
    {
      totalCost >= 0.0
    }

    function Totals(): Summary
      reads this
    {
      Summary(totalCalls, totalCost)
    }

    constructor ()
      ensures Valid()
      ensures totalCost == 0.0 && totalCalls == 0
    {
      totalCost := 0.0;
      totalCalls := 0;
    }

    /** trackAPICallCost: prices the call; an unknown model yields None and leaves the
        totals alone; otherwise the breakdown is returned, and only a successful call
        adds to the totals. */
    method TrackApiCallCost(call: CallData) returns (r: Option<CostInfo>)
      modifies this
      ensures r == CostOf(call)
      ensures Totals() == Track(old(Totals()), call)
      ensures r.None? || !call.success ==> totalCost == old(totalCost) && totalCalls == old(totalCalls)
      ensures r.Some? && call.success ==>
        totalCalls == old(totalCalls) + 1 && totalCost == old(totalCost) + r.value.totalCost
      ensures old(Valid()) && call.inputTokens >= 0 && call.outputTokens >= 0 ==> Valid()
    {
      var info := CalculateCost(call.provider, call.model, call.inputTokens, call.outputTokens);
      if info.error.Some? {
        return None;
      }
      if call.success {
        totalCost := totalCost + info.totalCost;
        totalCalls := totalCalls + 1;
      }
      if call.inputTokens >= 0 && call.outputTokens >= 0 {
        CostNonNegative(call.provider, call.model, call.inputTokens, call.outputTokens);
      }
      r := Some(info);
    }

    /** getSessionSummary: the current totals. It changes nothing, so two calls with
        nothing tracked or reset in between agree. */
    method GetSessionSummary() returns (s: Summary)
      ensures s.totalCalls == totalCalls && s.totalCost == totalCost
    {
      s := Summary(totalCalls, totalCost);
    }

    /** resetSessionTracking: both totals back to zero, whatever they were. */
    method ResetSessionTracking()
      modifies this
      ensures Valid()
      ensures totalCost == 0.0 && totalCalls == 0
    {
      totalCost := 0.0;
      totalCalls := 0;
    }
  }

  // ===========================================================================
  // Token estimation
  // ===========================================================================

  /** `Math.ceil(words / 0.75)`: the least integer at or above four thirds of the
      word count. */
  function WordBasedTokens(words: nat): (r: nat)
    ensures 3 * r >= 4 * words && 3 * (r - 1) < 4 * words
  {
    (4 * words + 2) / 3
  }

  /** `Math.ceil(chars / 4)`: the least integer at or above a quarter of the length. */
  function CharBasedTokens(chars: nat): (r: nat)
    ensures 4 * r >= chars && 4 * (r - 1) < chars
  {
    (chars + 3) / 4
  }

  function Max(a: nat, b: nat): nat {
    if a >= b then a else b
  }

  /** The word count the estimator works with: `text.trim().split(/\s+/).length`. */
  function SplitWordCount(s: string): nat {
    |SplitOnWhitespace(Trim(s))|
  }

  /** estimateTokens: 0 for a non-string (None) or empty text; otherwise the larger
      of the word-based and the character-based estimate. The word count is the
      number of words of the text, or 1 when it has none. */
  function EstimateTokens(text: Option<string>): (r: nat)
    ensures text.None? || text == Some("") ==> r == 0
    ensures text.Some? && text.value != "" ==>
      var words := if WordCount(text.value) == 0 then 1 else WordCount(text.value);
      var chars := |text.value|;
      && 3 * r >= 4 * words && 4 * r >= chars
      && (3 * (r - 1) < 4 * words || 4 * (r - 1) < chars)
    ensures text.Some? && text.value != "" ==> r >= 2
  {
    match text
    case None => 0
    case Some(s) =>
      if s == "" then 0
      else
        TrimSplitLength(s);
        Max(WordBasedTokens(SplitWordCount(s)), CharBasedTokens(|s|))
  }

  /** "a b c d" has four words. */
  lemma {:induction false} FourWords()
    ensures WordCount("a b c d") == 4
  {
    var s := "a b c d";
    assert s[1..] == " b c d";
    assert s[1..][1..] == "b c d";
    assert s[1..][1..][1..] == " c d";
    assert s[1..][1..][1..][1..] == "c d";
    assert s[1..][1..][1..][1..][1..] == " d";
    assert s[1..][1..][1..][1..][1..][1..] == "d";
    assert s[1..][1..][1..][1..][1..][1..][1..] == "";
  }

  /** Four one-letter words in seven characters: six tokens by words, two by
      characters. */
  lemma EstimateTokensExample()
    ensures EstimateTokens(Some("a b c d")) == 6
  {
    FourWords();
    var r: int := EstimateTokens(Some("a b c d"));
    assert |"a b c d"| == 7;
    // 3r >= 16 gives r >= 6; the "least such r" clause then rules out r > 6.
    assert 6 <= r && (r <= 6 || r <= 2);
  }
}
