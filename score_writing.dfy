/**
 * The writing scorer edge function: four trait scores from the model's
 * reply, each defaulted and clamped to the 0-90 scale, and an overall score
 * that is their mean weighted by the test type.
 */
module WritingScorer {
  import opened Wrappers
  import opened JsMath
  import opened Text

  /** `clamp`: round, then bound into [0, 90]. */
  function Clamp(v: real): (r: int)
    ensures 0 <= r <= 90
    ensures 0.0 <= v <= 90.0 ==> r == Round(v)
    ensures v < 0.0 ==> r == 0
    ensures v > 90.0 ==> r == 90
  {
    RoundBetween(if v < 0.0 then 0.0 else if v > 90.0 then 90.0 else v, 0, 90);
    if v < 0.0 then RoundMonotone(v, 0.0); RoundInt(0); MinInt(90, MaxInt(0, Round(v)))
    else if v > 90.0 then RoundMonotone(90.0, v); RoundInt(90); MinInt(90, MaxInt(0, Round(v)))
    else MinInt(90, MaxInt(0, Round(v)))
  }

  /** Clamping an integer score already on the scale leaves it unchanged. */
  lemma ClampKeepsScaleScores(n: int)
    requires 0 <= n <= 90
    ensures Clamp(n as real) == n
  {
    RoundInt(n);
  }

  datatype Weights = Weights(content: nat, grammar: nat, vocabulary: nat, form: nat)

  /** The weight table; a test type without a row is weighted equally. */
  function WeightsFor(testType: string): (w: Weights)
    ensures w in {Weights(2, 2, 1, 2), Weights(3, 2, 2, 2), Weights(1, 1, 1, 1)}
    ensures testType !in {"summarize-written-text", "write-essay", "summarize-written-text-core", "write-email"} ==>
      w == Weights(1, 1, 1, 1)
  {
    if testType == "summarize-written-text" then Weights(2, 2, 1, 2)
    else if testType == "write-essay" then Weights(3, 2, 2, 2)
    else if testType == "summarize-written-text-core" then Weights(2, 2, 1, 2)
    else if testType == "write-email" then Weights(2, 2, 1, 2)
    else Weights(1, 1, 1, 1)
  }

  /** The overall score: the weighted mean of the clamped traits, rounded, rounded again and clamped. */
  function Overall(content: int, grammar: int, vocabulary: int, form: int, w: Weights): int
    requires w.content + w.grammar + w.vocabulary + w.form > 0
  {
    var total := w.content + w.grammar + w.vocabulary + w.form;
    var sum := content * w.content + grammar * w.grammar + vocabulary * w.vocabulary + form * w.form;
    Clamp(Round(sum as real / total as real) as real)
  }

  function Min4(a: int, b: int, c: int, d: int): int { MinInt(MinInt(a, b), MinInt(c, d)) }

  function Max4(a: int, b: int, c: int, d: int): int { MaxInt(MaxInt(a, b), MaxInt(c, d)) }

  /**
   * With any of the tabled weights, the overall score lies between the
   * lowest and the highest trait, hence on the 0-90 scale.
   */
  lemma OverallBetweenTraits(content: int, grammar: int, vocabulary: int, form: int, testType: string)
    requires 0 <= content <= 90 && 0 <= grammar <= 90 && 0 <= vocabulary <= 90 && 0 <= form <= 90
    ensures var o := Overall(content, grammar, vocabulary, form, WeightsFor(testType));
      Min4(content, grammar, vocabulary, form) <= o <= Max4(content, grammar, vocabulary, form)
  {
    var w := WeightsFor(testType);
    var lo := Min4(content, grammar, vocabulary, form);
    var hi := Max4(content, grammar, vocabulary, form);
    WeightedSumBetween(content, grammar, vocabulary, form, w, lo, hi);
    var total := w.content + w.grammar + w.vocabulary + w.form;
    var sum := content * w.content + grammar * w.grammar + vocabulary * w.vocabulary + form * w.form;
    MeanBetween(sum, total, lo, hi);
    var mean := sum as real / total as real;
    RoundBetween(mean, lo, hi);
    ClampKeepsScaleScores(Round(mean));
  }

  lemma WeightedSumBetween(c: int, g: int, v: int, f: int, w: Weights, lo: int, hi: int)
    requires lo <= c <= hi && lo <= g <= hi && lo <= v <= hi && lo <= f <= hi
    ensures var sum := c * w.content + g * w.grammar + v * w.vocabulary + f * w.form;
      lo * (w.content + w.grammar + w.vocabulary + w.form) <= sum <=
      hi * (w.content + w.grammar + w.vocabulary + w.form)
  {
    ScaleInt(lo, c, hi, w.content);
    ScaleInt(lo, g, hi, w.grammar);
    ScaleInt(lo, v, hi, w.vocabulary);
    ScaleInt(lo, f, hi, w.form);
    Distribute(lo, w);
    Distribute(hi, w);
  }

  lemma Distribute(k: int, w: Weights)
    ensures k * (w.content + w.grammar + w.vocabulary + w.form) ==
      k * w.content + k * w.grammar + k * w.vocabulary + k * w.form
  {
  }

  /** A total between lo and hi per unit of weight has a mean between lo and hi. */
  lemma MeanBetween(sum: int, total: int, lo: int, hi: int)
    requires total > 0 && lo * total <= sum <= hi * total
    ensures lo as real <= sum as real / total as real <= hi as real
  {
    assert (lo * total) as real == lo as real * total as real;
    assert (hi * total) as real == hi as real * total as real;
    DivBetween(sum as real, total as real, lo as real, hi as real);
  }

  /** The fields of the model's reply that the scorer reads. */
  datatype Reply = Reply(
    content: Option<real>, grammar: Option<real>, vocabulary: Option<real>, form: Option<real>,
    strengths: Option<seq<string>>, improvements: Option<seq<string>>, tips: Option<seq<string>>)

  datatype ScoreResult = ScoreResult(
    overallScore: int, content: int, grammar: int, vocabulary: int, form: int,
    feedback: seq<string>, strengths: seq<string>, improvements: seq<string>, tips: seq<string>)

  /** A trait: `clamp(parsed.x || 50)`. */
  function Trait(x: Option<real>): (r: int)
    ensures 0 <= r <= 90
    ensures x.None? || x.value == 0.0 ==> r == 50
    ensures x.Some? && x.value != 0.0 ==> r == Clamp(x.value)
  {
    RoundInt(50);
    Clamp(NumberOr(x, 50.0))
  }

  function TraitLine(name: string, score: nat): string {
    name + ": " + NatToString(score) + "/90"
  }

  /**
   * The result assembled from a parsed reply: each trait defaulted and
   * clamped, the overall the type's weighted mean of the four, and the
   * lists taken from the reply or defaulted.
   */
  function Assemble(testType: string, parsed: Reply): (r: ScoreResult)
    ensures r.content == Trait(parsed.content) && r.grammar == Trait(parsed.grammar)
    ensures r.vocabulary == Trait(parsed.vocabulary) && r.form == Trait(parsed.form)
    ensures r.overallScore == Overall(r.content, r.grammar, r.vocabulary, r.form, WeightsFor(testType))
    ensures parsed.strengths.Some? ==> r.strengths == parsed.strengths.value
    ensures parsed.strengths.None? ==> r.strengths == ["Good attempt"]
    ensures parsed.improvements.Some? ==> r.improvements == parsed.improvements.value
    ensures parsed.improvements.None? ==> r.improvements == ["Continue practicing"]
    ensures parsed.tips.Some? ==> r.tips == parsed.tips.value
    ensures parsed.tips.None? ==> r.tips == ["Practice regularly"]
    ensures 0 <= r.content <= 90 && 0 <= r.grammar <= 90 && 0 <= r.vocabulary <= 90 && 0 <= r.form <= 90
    ensures Min4(r.content, r.grammar, r.vocabulary, r.form) <= r.overallScore <=
            Max4(r.content, r.grammar, r.vocabulary, r.form)
    ensures r.feedback == [TraitLine("Content", r.content), TraitLine("Grammar", r.grammar),
                           TraitLine("Vocabulary", r.vocabulary), TraitLine("Form", r.form)]
  {
    var c := Trait(parsed.content);
    var g := Trait(parsed.grammar);
    var v := Trait(parsed.vocabulary);
    var f := Trait(parsed.form);
    OverallBetweenTraits(c, g, v, f, testType);
    ScoreResult(
      Overall(c, g, v, f, WeightsFor(testType)), c, g, v, f,
      [TraitLine("Content", c), TraitLine("Grammar", g), TraitLine("Vocabulary", v), TraitLine("Form", f)],
      if parsed.strengths.Some? then parsed.strengths.value else ["Good attempt"],
      if parsed.improvements.Some? then parsed.improvements.value else ["Continue practicing"],
      if parsed.tips.Some? then parsed.tips.value else ["Practice regularly"])
  }

  /** `line` is "<name>: <digits>/90" and its digits read back as `score`. */
  predicate ReadsAs(line: string, name: string, score: nat) {
    var start := |name| + 2;
    start <= |line| - 3 && line[..start] == name + ": " && line[|line| - 3..] == "/90" &&
    AllDigits(line[start..|line| - 3]) && StringToNat(line[start..|line| - 3]) == score
  }

  /** The four feedback lines report content, grammar, vocabulary and form, in that order, each with its score. */
  lemma FeedbackLinesReadBack(testType: string, parsed: Reply)
    ensures var r := Assemble(testType, parsed);
      ReadsAs(r.feedback[0], "Content", r.content) && ReadsAs(r.feedback[1], "Grammar", r.grammar) &&
      ReadsAs(r.feedback[2], "Vocabulary", r.vocabulary) && ReadsAs(r.feedback[3], "Form", r.form)
  {
    var r := Assemble(testType, parsed);
    var lines := r.feedback;
    assert lines[0] == TraitLine("Content", r.content) && lines[1] == TraitLine("Grammar", r.grammar);
    assert lines[2] == TraitLine("Vocabulary", r.vocabulary) && lines[3] == TraitLine("Form", r.form);
    TraitLineReadsBack("Content", r.content);
    TraitLineReadsBack("Grammar", r.grammar);
    TraitLineReadsBack("Vocabulary", r.vocabulary);
    TraitLineReadsBack("Form", r.form);
  }

  lemma TraitLineReadsBack(name: string, score: nat)
    ensures ReadsAs(TraitLine(name, score), name, score)
  {
    NatToStringRoundTrip(score);
    var line := TraitLine(name, score);
    var digits := NatToString(score);
    assert line == (name + ": ") + digits + "/90";
    assert line[|name| + 2..|line| - 3] == digits;
  }

  /** The model gateway: an error status, or the reply's message text ("" when it has none). */
  datatype Gateway = GatewayFailed(status: int) | GatewayReply(content: string)

  datatype Response = Response(status: int, result: Option<ScoreResult>, error: Option<string>)

  /**
   * The handler. `decoded` is what the JSON parser yields for the reply's
   * brace span (None when it throws). Rate and usage limits pass through as
   * 429 and 402; every other failure is a 500.
   */
  function Handle(testType: string, keyConfigured: bool, call: Gateway, decoded: Option<Reply>): (r: Response)
    ensures r.status == 200 <==> r.result.Some?
    ensures r.status != 200 ==> r.error.Some?
    ensures !keyConfigured ==> r == Response(500, None, Some("LOVABLE_API_KEY is not configured"))
    ensures keyConfigured && call.GatewayFailed? ==>
      r.status == (if call.status in {429, 402} then call.status else 500)
    ensures keyConfigured && call.GatewayFailed? && call.status == 429 ==>
      r.error == Some("Rate limit exceeded. Please try again later.")
    ensures keyConfigured && call.GatewayFailed? && call.status == 402 ==>
      r.error == Some("Usage limit reached. Please add credits.")
    ensures keyConfigured && call.GatewayFailed? && call.status != 429 && call.status != 402 ==>
      r.error == Some("Scoring failed: " + IntToString(call.status))
    ensures keyConfigured && call.GatewayReply? && (!HasBracePair(call.content) || decoded.None?) ==>
      r == Response(500, None, Some("Failed to parse scoring response"))
    ensures keyConfigured && call.GatewayReply? && HasBracePair(call.content) && decoded.Some? ==>
      r == Response(200, Some(Assemble(testType, decoded.value)), None)
    ensures r.result.Some? ==> 0 <= r.result.value.overallScore <= 90
  {
    if !keyConfigured then Response(500, None, Some("LOVABLE_API_KEY is not configured"))
    else match call
      case GatewayFailed(status) =>
        if status == 429 then Response(429, None, Some("Rate limit exceeded. Please try again later."))
        else if status == 402 then Response(402, None, Some("Usage limit reached. Please add credits."))
        else Response(500, None, Some("Scoring failed: " + IntToString(status)))
      case GatewayReply(content) =>
        if JsonSpan(content).None? || decoded.None? then
          Response(500, None, Some("Failed to parse scoring response"))
        else
          Response(200, Some(Assemble(testType, decoded.value)), None)
  }

  /** A reply the parser reads but that carries no trait scores scores 50 on every trait and overall. */
  lemma EmptyReplyScoresFifty(testType: string)
    ensures var r := Assemble(testType, Reply(None, None, None, None, None, None, None));
      r.content == r.grammar == r.vocabulary == r.form == r.overallScore == 50
  {
  }
}
