/**
 * The speaking scorer edge function: the model's reply is stripped of
 * markdown fences and parsed, and its overall score is checked against the
 * weighted mean of its trait scores.
 */
module SpeakingScorer {
  import opened Wrappers
  import opened JsMath
  import opened Text

  datatype Weights = Weights(content: real, fluency: real, pronunciation: real)

  /** The weight table; a test type without a row has no weights. */
  function WeightsFor(testType: string): (w: Option<Weights>)
    ensures w.Some? <==> testType in {"read-aloud", "repeat-sentence", "describe-image", "retell-lecture",
                                      "answer-short-question", "summarize-spoken-text", "read-and-retell"}
    ensures w.Some? ==> 0.0 < w.value.content && 0.0 < w.value.fluency && 0.0 < w.value.pronunciation
  {
    if testType == "read-aloud" then Some(Weights(0.4, 0.3, 0.3))
    else if testType in {"repeat-sentence", "describe-image", "retell-lecture", "summarize-spoken-text", "read-and-retell"} then
      Some(Weights(0.5, 0.25, 0.25))
    else if testType == "answer-short-question" then Some(Weights(0.8, 0.1, 0.1))
    else None
  }

  /** Every row of the table divides the whole score between the three traits. */
  lemma WeightsAreShares(testType: string)
    requires WeightsFor(testType).Some?
    ensures var w := WeightsFor(testType).value; w.content + w.fluency + w.pronunciation == 1.0
  {
  }

  /** `calculatedOverall`: the weighted mean of the trait scores, rounded. */
  function CalculatedOverall(content: real, fluency: real, pronunciation: real, w: Weights): int {
    Round(content * w.content + fluency * w.fluency + pronunciation * w.pronunciation)
  }

  /** With tabled weights, trait scores on the 0-90 scale give a calculated overall on that scale, between the lowest and highest trait. */
  lemma CalculatedOverallBetween(content: int, fluency: int, pronunciation: int, testType: string)
    requires WeightsFor(testType).Some?
    requires 0 <= content <= 90 && 0 <= fluency <= 90 && 0 <= pronunciation <= 90
    ensures var o := CalculatedOverall(content as real, fluency as real, pronunciation as real, WeightsFor(testType).value);
      MinInt(content, MinInt(fluency, pronunciation)) <= o <= MaxInt(content, MaxInt(fluency, pronunciation))
  {
    TableRows(testType);
    RowOverallBetween(content, fluency, pronunciation, WeightsFor(testType).value);
  }

  /** The table has three distinct rows. */
  lemma TableRows(testType: string)
    requires WeightsFor(testType).Some?
    ensures IsRow(WeightsFor(testType).value)
  {
  }

  predicate IsRow(w: Weights) {
    w == Weights(0.4, 0.3, 0.3) || w == Weights(0.5, 0.25, 0.25) || w == Weights(0.8, 0.1, 0.1)
  }

  lemma RowOverallBetween(content: int, fluency: int, pronunciation: int, w: Weights)
    requires IsRow(w)
    ensures var o := CalculatedOverall(content as real, fluency as real, pronunciation as real, w);
      MinInt(content, MinInt(fluency, pronunciation)) <= o <= MaxInt(content, MaxInt(fluency, pronunciation))
  {
    var lo := MinInt(content, MinInt(fluency, pronunciation));
    var hi := MaxInt(content, MaxInt(fluency, pronunciation));
    WeightedBetween(content as real, fluency as real, pronunciation as real, w, lo as real, hi as real);
    RoundBetween(content as real * w.content + fluency as real * w.fluency + pronunciation as real * w.pronunciation, lo, hi);
  }

  /** The three rows of the table keep the weighted sum between the lowest and highest value. */
  lemma WeightedBetween(x: real, y: real, z: real, w: Weights, lo: real, hi: real)
    requires IsRow(w)
    requires lo <= x <= hi && lo <= y <= hi && lo <= z <= hi
    ensures lo <= x * w.content + y * w.fluency + z * w.pronunciation <= hi
  {
    if w == Weights(0.4, 0.3, 0.3) {
      assert x * w.content + y * w.fluency + z * w.pronunciation == x * 0.4 + y * 0.3 + z * 0.3;
    } else if w == Weights(0.5, 0.25, 0.25) {
      assert x * w.content + y * w.fluency + z * w.pronunciation == x * 0.5 + y * 0.25 + z * 0.25;
    } else {
      assert x * w.content + y * w.fluency + z * w.pronunciation == x * 0.8 + y * 0.1 + z * 0.1;
    }
  }

  /** The discrepancy rule: the calculated overall replaces the reported one only when they differ by more than 5. */
  function Reconciled(reported: real, calculated: int): (r: real)
    ensures r == reported <==> (reported == calculated as real || -5.0 <= calculated as real - reported <= 5.0)
    ensures r != reported ==> r == calculated as real
    ensures -5.0 <= r - calculated as real <= 5.0
  {
    if calculated as real - reported > 5.0 || reported - calculated as real > 5.0 then calculated as real
    else reported
  }

  /** Applying the rule a second time changes nothing. */
  lemma ReconcileIdempotent(reported: real, calculated: int)
    ensures Reconciled(Reconciled(reported, calculated), calculated) == Reconciled(reported, calculated)
  {
  }

  /** The parsed reply; the handler corrects its overall score in place. */
  class ScoreReport {
    var overallScore: real
    var content: real
    var fluency: real
    var pronunciation: real
    var feedback: seq<string>

    constructor (overallScore: real, content: real, fluency: real, pronunciation: real, feedback: seq<string>)
      ensures this.overallScore == overallScore && this.content == content && this.fluency == fluency
      ensures this.pronunciation == pronunciation && this.feedback == feedback
    {
      this.overallScore := overallScore;
      this.content := content;
      this.fluency := fluency;
      this.pronunciation := pronunciation;
      this.feedback := feedback;
    }

    /** Recompute the weighted overall and overwrite the reported one when they disagree by more than 5. */
    method ReconcileOverall(w: Weights)
      modifies this
      ensures overallScore == Reconciled(old(overallScore), CalculatedOverall(content, fluency, pronunciation, w))
      ensures content == old(content) && fluency == old(fluency) && pronunciation == old(pronunciation)
      ensures feedback == old(feedback)
    {
      var calculated := CalculatedOverall(content, fluency, pronunciation, w);
      if calculated as real - overallScore > 5.0 || overallScore - calculated as real > 5.0 {
        overallScore := calculated as real;
      }
    }
  }

  // ---------------------------------------------------------------------
  // Fence stripping
  // ---------------------------------------------------------------------

  /** Remove every "```json", with the line break after it if any, scanning left to right. */
  function StripJsonFences(s: string): string
    decreases |s|
  {
    if |s| >= 7 && s[..7] == "```json" then
      if |s| >= 8 && s[7] == '\n' then StripJsonFences(s[8..]) else StripJsonFences(s[7..])
    else if s == [] then []
    else [s[0]] + StripJsonFences(s[1..])
  }

  /** Remove every "```", with the line break after it if any, scanning left to right. */
  function StripFences(s: string): string
    decreases |s|
  {
    if |s| >= 3 && s[..3] == "```" then
      if |s| >= 4 && s[3] == '\n' then StripFences(s[4..]) else StripFences(s[3..])
    else if s == [] then []
    else [s[0]] + StripFences(s[1..])
  }

  /** The text handed to the JSON parser. */
  function CleanContent(s: string): string {
    Trim(StripFences(StripJsonFences(s)))
  }

  /** Text without backticks passes through both removals unchanged. */
  lemma {:induction false} NoTicksKept(a: string, b: string)
    requires '`' !in a
    ensures StripJsonFences(a + b) == a + StripJsonFences(b)
    ensures StripFences(a + b) == a + StripFences(b)
  {
    if a == [] {
      assert a + b == b;
    } else {
      var s := a + b;
      assert s[0] == a[0] && a[0] != '`';
      assert s[1..] == a[1..] + b;
      TickFreeHead(s);
      NoTicksKept(a[1..], b);
      HeadTail(a);
      AppendAssoc([a[0]], a[1..], StripJsonFences(b));
      AppendAssoc([a[0]], a[1..], StripFences(b));
    }
  }

  /** A first character other than a backtick is kept by both removals. */
  lemma TickFreeHead(s: string)
    requires s != [] && s[0] != '`'
    ensures StripJsonFences(s) == [s[0]] + StripJsonFences(s[1..])
    ensures StripFences(s) == [s[0]] + StripFences(s[1..])
  {
    assert !(|s| >= 7 && s[..7] == "```json") by {
      if |s| >= 7 {
        assert s[..7][0] == s[0];
      }
    }
    assert !(|s| >= 3 && s[..3] == "```") by {
      if |s| >= 3 {
        assert s[..3][0] == s[0];
      }
    }
  }

  /**
   * A JSON body wrapped in a "```json" fence is recovered exactly, provided
   * it has no backticks and no white space at its ends.
   */
  lemma FencedBodyRecovered(body: string)
    requires '`' !in body
    requires body == [] || (!IsSpace(body[0]) && !IsSpace(body[|body| - 1]))
    ensures CleanContent("```json\n" + body + "\n```") == body
  {
    OpeningFenceRemoved(body);
    ClosingFenceRemoved(body);
    TrailingBreakTrimmed(body);
  }

  lemma OpeningFenceRemoved(body: string)
    requires '`' !in body
    ensures StripJsonFences("```json\n" + body + "\n```") == body + "\n```"
  {
    var s := "```json\n" + body + "\n```";
    assert s[..7] == "```json" && s[7] == '\n';
    assert s[8..] == body + "\n```";
    NoTicksKept(body, "\n```");
    NoTicksKept("\n", "```");
    assert StripJsonFences("```") == "```";
  }

  lemma ClosingFenceRemoved(body: string)
    requires '`' !in body
    ensures StripFences(body + "\n```") == body + "\n"
  {
    assert body + "\n```" == (body + "\n") + "```";
    NoTicksKept(body + "\n", "```");
    assert StripFences("```") == [];
  }

  lemma TrailingBreakTrimmed(body: string)
    requires body == [] || (!IsSpace(body[0]) && !IsSpace(body[|body| - 1]))
    ensures Trim(body + "\n") == body
  {
    var t := body + "\n";
    if body == [] {
      assert TrimStart(t) == [];
    } else {
      assert TrimStart(t) == t;
      assert t[..|t| - 1] == body;
    }
  }

  /** A reply without backticks is only trimmed. */
  lemma UnfencedReplyOnlyTrimmed(s: string)
    requires '`' !in s
    ensures CleanContent(s) == Trim(s)
  {
    NoTicksKept(s, []);
    assert s + [] == s;
  }

  // ---------------------------------------------------------------------
  // Handler
  // ---------------------------------------------------------------------

  /** The model's scores as the JSON parser yields them. */
  datatype ParsedScores = ParsedScores(overallScore: real, content: real, fluency: real, pronunciation: real, feedback: seq<string>)

  /** The gateway: an error status, or the reply's message content (None when absent). */
  datatype Gateway = GatewayFailed(status: int) | GatewayReply(content: Option<string>)

  datatype Response = Response(status: int, scores: Option<ParsedScores>, error: Option<string>)

  /**
   * The message of the TypeError the runtime raises when the prompt reads a
   * weight of a test type the table has no row for.
   */
  const MissingWeightsError := "Cannot read properties of undefined (reading 'content')"

  /**
   * The handler. `decoded` is what the JSON parser yields for the cleaned
   * content (None when it throws). The prompt reads the type's weights
   * before the gateway is called, so a type without a row fails first.
   * Rate and usage limits pass through as 429 and 402; every other failure,
   * including an empty reply, is a 500.
   */
  method Handle(testType: string, keyConfigured: bool, call: Gateway, decoded: Option<ParsedScores>)
    returns (r: Response)
    ensures r.status == 200 <==> r.scores.Some?
    ensures r.status != 200 ==> r.error.Some?
    ensures !keyConfigured ==> r == Response(500, None, Some("LOVABLE_API_KEY is not configured"))
    ensures keyConfigured && WeightsFor(testType).None? ==> r == Response(500, None, Some(MissingWeightsError))
    ensures keyConfigured && WeightsFor(testType).Some? && call.GatewayFailed? ==>
      r.status == (if call.status in {429, 402} then call.status else 500) &&
      r.error == Some(if call.status == 429 then "Rate limit exceeded. Please try again in a moment."
                      else if call.status == 402 then "AI usage limit reached. Please add credits to continue."
                      else "AI gateway error: " + IntToString(call.status))
    ensures keyConfigured && WeightsFor(testType).Some? && call.GatewayReply? &&
            (call.content.None? || call.content.value == []) ==>
      r == Response(500, None, Some("No response from AI"))
    ensures keyConfigured && WeightsFor(testType).Some? && call.GatewayReply? &&
            call.content.Some? && call.content.value != [] && decoded.None? ==>
      r == Response(500, None, Some("Failed to parse scoring response"))
    ensures keyConfigured && WeightsFor(testType).Some? && call.GatewayReply? &&
            call.content.Some? && call.content.value != [] && decoded.Some? ==>
      var d := decoded.value;
      r == Response(200, Some(d.(overallScore := Reconciled(d.overallScore,
        CalculatedOverall(d.content, d.fluency, d.pronunciation, WeightsFor(testType).value)))), None)
  {
    if !keyConfigured {
      return Response(500, None, Some("LOVABLE_API_KEY is not configured"));
    }
    var weights := WeightsFor(testType);
    if weights.None? {
      return Response(500, None, Some(MissingWeightsError));
    }
    match call {
      case GatewayFailed(status) =>
        if status == 429 {
          r := Response(429, None, Some("Rate limit exceeded. Please try again in a moment."));
        } else if status == 402 {
          r := Response(402, None, Some("AI usage limit reached. Please add credits to continue."));
        } else {
          r := Response(500, None, Some("AI gateway error: " + IntToString(status)));
        }
      case GatewayReply(content) =>
        if content.None? || content.value == [] {
          return Response(500, None, Some("No response from AI"));
        }
        if decoded.None? {
          return Response(500, None, Some("Failed to parse scoring response"));
        }
        var d := decoded.value;
        var report := new ScoreReport(d.overallScore, d.content, d.fluency, d.pronunciation, d.feedback);
        report.ReconcileOverall(weights.value);
        r := Response(200, Some(ParsedScores(report.overallScore, report.content, report.fluency,
                                             report.pronunciation, report.feedback)), None);
    }
  }
}
