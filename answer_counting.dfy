/**
 * Counting rules shared by the deterministic scorers: multiple-choice
 * hits and misses, adjacent pairs in a reordering, positional matches,
 * and the rounded percentage of a score.
 */
module AnswerCounting {
  import opened Wrappers
  import opened JsMath
  import opened Text
  import opened Counting

  /** `xs?.[0]`: the first entry, or undefined for an absent or empty array. */
  function First(xs: Option<seq<string>>): Option<string> {
    if xs.Some? && |xs.value| > 0 then Some(xs.value[0]) else None
  }

  /** `xs || []` for an optional array. */
  function OrEmpty<T>(xs: Option<seq<T>>): seq<T> {
    if xs.Some? then xs.value else []
  }

  /** How many of the selections occur among the correct answers. */
  function CountIn(selected: seq<string>, correct: seq<string>): (n: nat)
    ensures n <= |selected|
    ensures n == |selected| <==> forall i :: 0 <= i < |selected| ==> selected[i] in correct
  {
    if selected == [] then 0
    else
      var k := |selected| - 1;
      CountIn(selected[..k], correct) + (if selected[k] in correct then 1 else 0)
  }

  /** How many of the selections do not occur among the correct answers. */
  function CountNotIn(selected: seq<string>, correct: seq<string>): (n: nat)
    ensures n <= |selected|
    ensures n == 0 <==> forall i :: 0 <= i < |selected| ==> selected[i] in correct
  {
    if selected == [] then 0
    else
      var k := |selected| - 1;
      CountNotIn(selected[..k], correct) + (if selected[k] in correct then 0 else 1)
  }

  /** Every selection is counted exactly once, as correct or as incorrect. */
  lemma {:induction false} CountsPartition(selected: seq<string>, correct: seq<string>)
    ensures CountIn(selected, correct) + CountNotIn(selected, correct) == |selected|
  {
    if selected != [] {
      CountsPartition(selected[..|selected| - 1], correct);
    }
  }

  /** The set of distinct correct selections among the first `k` selections. */
  function HitSet(selected: seq<string>, correct: seq<string>): (r: set<string>)
    ensures r <= Elements(correct)
  {
    if selected == [] then {}
    else
      var k := |selected| - 1;
      HitSet(selected[..k], correct) + (if selected[k] in correct then {selected[k]} else {})
  }

  /**
   * With no option selected twice, the multiple-choice score never exceeds
   * the number of correct answers, which the scorer reports as the maximum.
   */
  lemma {:induction false} MultiChoiceWithinMaximum(selected: seq<string>, correct: seq<string>)
    requires Distinct(selected)
    ensures MaxInt(0, CountIn(selected, correct) - CountNotIn(selected, correct)) <= |correct|
  {
    HitSetSize(selected, correct);
    SubsetCard(HitSet(selected, correct), Elements(correct));
  }

  lemma {:induction false} HitSetSize(selected: seq<string>, correct: seq<string>)
    requires Distinct(selected)
    ensures |HitSet(selected, correct)| == CountIn(selected, correct)
  {
    if selected != [] {
      var k := |selected| - 1;
      var prefix := selected[..k];
      DistinctPrefix(selected, k);
      LastNotInPrefix(selected);
      HitSetSize(prefix, correct);
      HitSetMembers(prefix, correct);
      var h := HitSet(prefix, correct);
      assert selected[k] !in h;
      if selected[k] in correct {
        assert HitSet(selected, correct) == h + {selected[k]};
      } else {
        assert HitSet(selected, correct) == h;
      }
    }
  }

  /** A prefix of a sequence without repeats has none either. */
  lemma DistinctPrefix<T>(s: seq<T>, k: nat)
    requires Distinct(s) && k <= |s|
    ensures Distinct(s[..k])
  {
    var p := s[..k];
    forall i, j | 0 <= i < j < |p| ensures p[i] != p[j] {
      assert p[i] == s[i] && p[j] == s[j];
    }
  }

  /** In a sequence without repeats, the last entry does not occur before it. */
  lemma LastNotInPrefix<T>(s: seq<T>)
    requires Distinct(s) && |s| >= 1
    ensures s[|s| - 1] !in s[..|s| - 1]
  {
    var p := s[..|s| - 1];
    forall i | 0 <= i < |p| ensures p[i] != s[|s| - 1] {
      assert p[i] == s[i];
    }
  }

  lemma {:induction false} HitSetMembers(selected: seq<string>, correct: seq<string>)
    ensures forall x :: x in HitSet(selected, correct) ==> x in selected
  {
    if selected != [] {
      var k := |selected| - 1;
      HitSetMembers(selected[..k], correct);
      forall x | x in HitSet(selected[..k], correct) ensures x in selected {
        assert x in selected[..k];
      }
    }
  }

  /**
   * The reorder count as written: adjacent pairs of the submitted order
   * whose positions in the correct order differ by one, where a paragraph
   * absent from the correct order has position -1.
   */
  function AdjacentPairs(items: seq<string>, order: seq<string>): (n: nat)
    ensures |items| < 2 ==> n == 0
    ensures |items| >= 2 ==> n <= |items| - 1
  {
    if |items| < 2 then 0
    else
      var k := |items| - 1;
      AdjacentPairs(items[..k], order) +
        (if IndexOf(order, items[k]) == IndexOf(order, items[k - 1]) + 1 then 1 else 0)
  }

  /** The positions at which a selection equals the correct answer. */
  function MatchedPositions(selected: seq<string>, correct: seq<string>): set<int> {
    set i | 0 <= i < |selected| && i < |correct| && selected[i] == correct[i]
  }

  /** How many selections equal the correct answer at the same position. */
  function PositionalMatches(selected: seq<string>, correct: seq<string>): (n: nat)
    ensures n == |MatchedPositions(selected, correct)|
    ensures n <= |selected| && n <= |correct|
  {
    if selected == [] then
      assert MatchedPositions(selected, correct) == {};
      0
    else
      var k := |selected| - 1;
      MatchedPositionsSnoc(selected, correct);
      PositionalMatches(selected[..k], correct) +
        (if k < |correct| && selected[k] == correct[k] then 1 else 0)
  }

  /** Extending the selection by one adds its last position exactly when that one matches. */
  lemma MatchedPositionsSnoc(selected: seq<string>, correct: seq<string>)
    requires selected != []
    ensures var k := |selected| - 1;
      |MatchedPositions(selected, correct)| ==
        |MatchedPositions(selected[..k], correct)| + (if k < |correct| && selected[k] == correct[k] then 1 else 0)
    ensures |MatchedPositions(selected, correct)| <= |correct|
  {
    var k := |selected| - 1;
    var before := MatchedPositions(selected[..k], correct);
    var after := MatchedPositions(selected, correct);
    assert k !in before;
    if k < |correct| && selected[k] == correct[k] {
      assert after == before + {k};
    } else {
      assert after == before;
    }
    PositionsWithin(after, |correct|);
  }

  /** A set of indices below `n` has at most `n` elements. */
  lemma {:induction false} PositionsWithin(s: set<int>, n: nat)
    requires forall i :: i in s ==> 0 <= i < n
    ensures |s| <= n
  {
    if n > 0 {
      PositionsWithin(s - {n - 1}, n - 1);
    } else {
      assert forall i :: i !in s;
      assert s == {};
    }
  }

  /** Submitting exactly the answer key fills every position. */
  lemma {:induction false} PositionalMatchesSelf(answers: seq<string>)
    ensures PositionalMatches(answers, answers) == |answers|
  {
    if answers != [] {
      var k := |answers| - 1;
      PositionalMatchesPrefix(answers[..k], answers);
    }
  }

  lemma {:induction false} PositionalMatchesPrefix(selected: seq<string>, correct: seq<string>)
    requires selected <= correct
    ensures PositionalMatches(selected, correct) == |selected|
  {
    if selected != [] {
      PositionalMatchesPrefix(selected[..|selected| - 1], correct);
    }
  }

  /** A fraction between 0 and 1, as a rounded percentage, lies in [0, 100]. */
  lemma PercentageBetween(part: int, whole: int)
    requires 0 <= part <= whole && whole > 0
    ensures 0 <= Round(part as real / whole as real * 100.0) <= 100
    ensures part == whole ==> Round(part as real / whole as real * 100.0) == 100
  {
    var q := part as real / whole as real;
    DivUnit(part as real, whole as real);
    RoundBetween(q * 100.0, 0, 100);
    if part == whole {
      DivBetween(part as real, whole as real, 1.0, 1.0);
      RoundInt(100);
    }
  }

  /**
   * The reorder loop as written, one adjacent pair at a time: a pair counts
   * when the second paragraph's first position in the correct order is one
   * past the first's, -1 standing for a missing paragraph.
   */
  method CountAdjacentPairs(items: seq<string>, order: seq<string>) returns (score: nat)
    ensures score == AdjacentPairs(items, order)
    ensures AdjacentPairsCorrected(items, order) <= score
    ensures AllFound(items, order) ==> score == AdjacentPairsCorrected(items, order)
    ensures |items| >= 2 ==> score <= |items| - 1
  {
    score := 0;
    if |items| == 0 {
      return;
    }
    var i := 0;
    while i < |items| - 1
      invariant 0 <= i <= |items| - 1
      invariant score == AdjacentPairs(items[..i + 1], order)
    {
      var currentIdx := IndexOf(order, items[i]);
      var nextIdx := IndexOf(order, items[i + 1]);
      assert items[..i + 2][..i + 1] == items[..i + 1];
      if nextIdx == currentIdx + 1 {
        score := score + 1;
      }
      i := i + 1;
    }
    assert items[..i + 1] == items;
    CorrectedAtMostAsWritten(items, order);
    CorrectedAgreesWhenAllFound(items, order);
  }

  /** The option-by-option loop: a selection scores when it equals the key at its position. */
  method CountPositionalMatches(selected: seq<string>, correct: seq<string>) returns (score: nat)
    ensures score == PositionalMatches(selected, correct)
    ensures score <= |selected| && score <= |correct|
  {
    score := 0;
    for idx := 0 to |selected|
      invariant score == PositionalMatches(selected[..idx], correct)
    {
      assert selected[..idx + 1][..idx] == selected[..idx];
      if idx < |correct| && selected[idx] == correct[idx] {
        score := score + 1;
      }
    }
    assert selected[..|selected|] == selected;
  }

  /**
   * Submitting the correct order itself, when no paragraph repeats, earns
   * every adjacent pair: the full |correctOrder| - 1.
   */
  lemma {:induction false} ReorderIdentityFullMarks(order: seq<string>)
    requires Distinct(order) && |order| >= 1
    ensures AdjacentPairs(order, order) == |order| - 1
  {
    PrefixPairs(order, |order|);
    assert order[..|order|] == order;
  }

  lemma {:induction false} PrefixPairs(order: seq<string>, n: nat)
    requires Distinct(order) && 1 <= n <= |order|
    ensures AdjacentPairs(order[..n], order) == n - 1
  {
    if n >= 2 {
      var items := order[..n];
      assert items[..n - 1] == order[..n - 1];
      PrefixPairs(order, n - 1);
      IndexOfDistinct(order, n - 1);
      IndexOfDistinct(order, n - 2);
    } else {
      assert |order[..n]| == 1;
    }
  }

  /** In a sequence without repeats, an entry's first position is its position. */
  lemma IndexOfDistinct(s: seq<string>, k: nat)
    requires Distinct(s) && k < |s|
    ensures IndexOf(s, s[k]) == k
  {
    var r := IndexOf(s, s[k]);
    assert s[k] in s;
    assert s[r] == s[k];
  }

  /**
   * As written, a paragraph missing from the correct order followed by the
   * first correct paragraph counts as a pair (-1 + 1 == 0): submitting
   * ["x", "a", "b"] against ["a", "b"] scores 2 against a maximum of 1.
   */
  lemma ReorderAbsentItemOvercounts()
    ensures AdjacentPairs(["x", "a", "b"], ["a", "b"]) == 2 > |["a", "b"]| - 1
  {
    var order := ["a", "b"];
    assert IndexOf(order, "x") == -1;
    assert IndexOf(order, "a") == 0;
    assert IndexOf(order, "b") == 1;
    assert ["x", "a", "b"][..2] == ["x", "a"];
    assert ["x", "a"][..1] == ["x"];
  }

  /** The reorder count with the evident intent: only paragraphs found in the correct order start a pair. */
  function AdjacentPairsCorrected(items: seq<string>, order: seq<string>): (n: nat)
    ensures |items| < 2 ==> n == 0
  {
    if |items| < 2 then 0
    else
      var k := |items| - 1;
      var cur := IndexOf(order, items[k - 1]);
      AdjacentPairsCorrected(items[..k], order) +
        (if cur >= 0 && IndexOf(order, items[k]) == cur + 1 then 1 else 0)
  }

  /** The correction only ever takes credit away. */
  lemma {:induction false} CorrectedAtMostAsWritten(items: seq<string>, order: seq<string>)
    ensures AdjacentPairsCorrected(items, order) <= AdjacentPairs(items, order)
  {
    if |items| >= 2 {
      CorrectedAtMostAsWritten(items[..|items| - 1], order);
    }
  }

  /** Every submitted paragraph occurs in the correct order. */
  predicate AllFound(items: seq<string>, order: seq<string>) {
    forall i :: 0 <= i < |items| ==> items[i] in order
  }

  /** When every submitted paragraph is found in the correct order, the correction changes nothing. */
  lemma {:induction false} CorrectedAgreesWhenAllFound(items: seq<string>, order: seq<string>)
    ensures AllFound(items, order) ==> AdjacentPairsCorrected(items, order) == AdjacentPairs(items, order)
  {
    if |items| >= 2 && AllFound(items, order) {
      var k := |items| - 1;
      var prefix := items[..k];
      assert AllFound(prefix, order) by {
        forall i | 0 <= i < k ensures prefix[i] in order {
          assert prefix[i] == items[i];
        }
      }
      CorrectedAgreesWhenAllFound(prefix, order);
      assert items[k - 1] in order;
    }
  }

  /** The starting positions (in the correct order) of the pairs the corrected count credits. */
  function PairStarts(items: seq<string>, order: seq<string>): (r: set<int>)
    ensures r <= Range(0, |order| - 1)
  {
    if |items| < 2 then {}
    else
      var k := |items| - 1;
      var cur := IndexOf(order, items[k - 1]);
      PairStarts(items[..k], order) +
        (if cur >= 0 && IndexOf(order, items[k]) == cur + 1 then {cur} else {})
  }

  /**
   * With the correction, a submission without repeated paragraphs never
   * scores above the maximum |correctOrder| - 1, and the correct order
   * itself still earns exactly that maximum.
   */
  lemma {:induction false} ReorderCorrectedWithinMaximum(items: seq<string>, order: seq<string>)
    requires Distinct(items)
    ensures AdjacentPairsCorrected(items, order) <= MaxInt(0, |order| - 1)
    ensures items == order && order != [] ==> AdjacentPairsCorrected(items, order) == |order| - 1
  {
    PairStartsSize(items, order);
    SubsetCard(PairStarts(items, order), Range(0, |order| - 1));
    if items == order && order != [] {
      CorrectedAgreesWhenAllFound(items, order);
      ReorderIdentityFullMarks(order);
    }
  }

  lemma {:induction false} PairStartsSize(items: seq<string>, order: seq<string>)
    requires Distinct(items)
    ensures |PairStarts(items, order)| == AdjacentPairsCorrected(items, order)
  {
    if |items| >= 2 {
      var k := |items| - 1;
      var prefix := items[..k];
      DistinctPrefix(items, k);
      PairStartsSize(prefix, order);
      var cur := IndexOf(order, items[k - 1]);
      var hit := cur >= 0 && IndexOf(order, items[k]) == cur + 1;
      assert PairStarts(items, order) == PairStarts(prefix, order) + (if hit then {cur} else {});
      assert AdjacentPairsCorrected(items, order) == AdjacentPairsCorrected(prefix, order) + (if hit then 1 else 0);
      if hit {
        assert items[k - 1] == prefix[k - 1];
        PairStartsBelow(prefix, order, cur);
      }
    }
  }

  /**
   * Every start credited within a prefix belongs to an earlier paragraph, so
   * it differs from the position of the prefix's last paragraph.
   */
  lemma {:induction false} PairStartsBelow(prefix: seq<string>, order: seq<string>, cur: int)
    requires Distinct(prefix) && |prefix| >= 1
    requires cur >= 0 && cur == IndexOf(order, prefix[|prefix| - 1])
    ensures cur !in PairStarts(prefix, order)
  {
    if |prefix| >= 2 {
      var k := |prefix| - 1;
      var shorter := prefix[..k];
      DistinctPrefix(prefix, k);
      StartsFromEntries(shorter, order);
      forall i | 0 <= i < |shorter| ensures IndexOf(order, shorter[i]) != cur {
        assert shorter[i] == prefix[i];
        assert prefix[i] != prefix[k];
        IndexOfInjective(order, prefix[k], prefix[i]);
      }
      var prev := IndexOf(order, prefix[k - 1]);
      assert prev != cur by {
        assert prefix[k - 1] == shorter[k - 1];
      }
    }
  }

  /** Every credited start is the position of some paragraph other than the last one. */
  lemma {:induction false} StartsFromEntries(items: seq<string>, order: seq<string>)
    ensures forall p :: p in PairStarts(items, order) ==>
      exists i :: 0 <= i < |items| - 1 && IndexOf(order, items[i]) == p
  {
    if |items| >= 2 {
      var k := |items| - 1;
      var prefix := items[..k];
      StartsFromEntries(prefix, order);
      forall p | p in PairStarts(items, order)
        ensures exists i :: 0 <= i < |items| - 1 && IndexOf(order, items[i]) == p
      {
        if p in PairStarts(prefix, order) {
          var i :| 0 <= i < |prefix| - 1 && IndexOf(order, prefix[i]) == p;
          assert prefix[i] == items[i];
        } else {
          assert IndexOf(order, items[k - 1]) == p;
        }
      }
    }
  }

  /** Two different values found in a sequence have different first positions. */
  lemma IndexOfInjective(s: seq<string>, x: string, y: string)
    requires x != y && IndexOf(s, x) >= 0
    ensures IndexOf(s, x) != IndexOf(s, y)
  {
  }

  datatype Blank = Blank(id: string, correctAnswer: string)

  /** Whether a blank's answer matches its key, ignoring case; an unanswered blank does not. */
  predicate BlankCorrect(blank: Blank, answers: map<string, string>) {
    blank.id in answers && Lower(answers[blank.id]) == Lower(blank.correctAnswer)
  }

  /** How many blanks are answered correctly. */
  function BlanksCorrect(blanks: seq<Blank>, answers: map<string, string>): (n: nat)
    ensures n <= |blanks|
    ensures n == |blanks| <==> forall i :: 0 <= i < |blanks| ==> BlankCorrect(blanks[i], answers)
  {
    if blanks == [] then 0
    else
      var k := |blanks| - 1;
      BlanksCorrect(blanks[..k], answers) + (if BlankCorrect(blanks[k], answers) then 1 else 0)
  }

  /** The blank-by-blank loop: a case-insensitive comparison of each answered blank. */
  method CountBlanksCorrect(blanks: seq<Blank>, answers: map<string, string>) returns (score: nat)
    ensures score == BlanksCorrect(blanks, answers)
    ensures score <= |blanks|
  {
    score := 0;
    for i := 0 to |blanks|
      invariant score == BlanksCorrect(blanks[..i], answers)
    {
      assert blanks[..i + 1][..i] == blanks[..i];
      if blanks[i].id in answers && Lower(answers[blanks[i].id]) == Lower(blanks[i].correctAnswer) {
        score := score + 1;
      }
    }
    assert blanks[..|blanks|] == blanks;
  }
}
