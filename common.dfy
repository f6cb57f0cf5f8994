/** Failure-compatible wrappers shared by every module of the model. */
module Wrappers {
  datatype Option<+T> = None | Some(value: T)

  datatype Result<+T, +E> = Ok(value: T) | Err(error: E)
}

/**
 * JavaScript number helpers. Numbers are exact rationals (`real`);
 * `Math.round(x)` is floor(x + 1/2), `Math.ceil(x)` is the least integer >= x.
 */
module JsMath {
  import opened Wrappers

  /** `Math.round`: the nearest integer, halves rounded up. */
  function Round(x: real): (r: int)
    ensures r as real <= x + 0.5 < r as real + 1.0
  {
    (x + 0.5).Floor
  }

  /** `Math.ceil`. */
  function Ceil(x: real): (r: int)
    ensures x <= r as real < x + 1.0
  {
    -((-x).Floor)
  }

  /** `Math.floor` of a quotient of naturals, as JavaScript computes it for non-negative operands. */
  function FloorDiv(a: nat, b: nat): (q: nat)
    requires b > 0
    ensures q * b <= a < q * b + b
  {
    a / b
  }

  function MinReal(a: real, b: real): real { if a <= b then a else b }

  function MaxReal(a: real, b: real): real { if a >= b then a else b }

  function MinInt(a: int, b: int): int { if a <= b then a else b }

  function MaxInt(a: int, b: int): int { if a >= b then a else b }

  /**
   * `x || d` for a numeric field read from parsed JSON: a missing field
   * (None, which also stands for NaN) and 0 are falsy and give `d`.
   */
  function NumberOr(x: Option<real>, d: real): (r: real)
    ensures (x.None? || x.value == 0.0) ==> r == d
    ensures x.Some? && x.value != 0.0 ==> r == x.value
  {
    if x.Some? && x.value != 0.0 then x.value else d
  }

  /** Rounding an integer gives it back. */
  lemma RoundInt(n: int)
    ensures Round(n as real) == n
  {
  }

  /** Rounding is monotone. */
  lemma RoundMonotone(x: real, y: real)
    requires x <= y
    ensures Round(x) <= Round(y)
  {
  }

  /** A value between two integers rounds to a value between them. */
  lemma RoundBetween(x: real, lo: int, hi: int)
    requires lo as real <= x <= hi as real
    ensures lo <= Round(x) <= hi
  {
    RoundInt(lo);
    RoundInt(hi);
    RoundMonotone(lo as real, x);
    RoundMonotone(x, hi as real);
  }

  /** The product of two positive numbers is positive. */
  lemma MulPos(a: real, b: real)
    requires 0.0 < a && 0.0 < b
    ensures 0.0 < a * b
  {
  }

  lemma MulNonneg(a: real, b: real)
    requires 0.0 <= a && 0.0 <= b
    ensures 0.0 <= a * b
  {
  }

  lemma MulNonnegInt(a: int, b: int)
    requires 0 <= a && 0 <= b
    ensures 0 <= a * b
  {
  }

  /** A share between 0 and 1 of a non-negative amount lies between 0 and the amount. */
  lemma ShareOf(a: real, m: real)
    requires 0.0 <= a <= 1.0 && 0.0 <= m
    ensures 0.0 <= a * m <= m
  {
    MulNonneg(a, m);
    MulNonneg(1.0 - a, m);
  }

  /** A share between 0 and 1 of a non-negative integer rounds to between 0 and that integer. */
  lemma RoundShare(a: real, m: int)
    requires 0.0 <= a <= 1.0 && 0 <= m
    ensures 0 <= Round(a * m as real) <= m
  {
    ShareOf(a, m as real);
    RoundBetween(a * m as real, 0, m);
  }

  /** Multiplying by a non-negative integer keeps the order of a range. */
  lemma ScaleInt(lo: int, x: int, hi: int, k: int)
    requires lo <= x <= hi && 0 <= k
    ensures lo * k <= x * k <= hi * k
  {
    MulNonnegInt(x - lo, k);
    MulNonnegInt(hi - x, k);
  }

  /** A quotient by a positive number lies between the bounds its numerator does, scaled. */
  lemma DivBetween(sum: real, n: real, lo: real, hi: real)
    requires 0.0 < n && lo * n <= sum <= hi * n
    ensures lo <= sum / n <= hi
  {
    var q := sum / n;
    assert q * n == sum;
    if q < lo {
      MulPos(lo - q, n);
    }
    if q > hi {
      MulPos(q - hi, n);
    }
  }

  /** A part over a positive whole it does not exceed lies between 0 and 1. */
  lemma DivUnit(part: real, whole: real)
    requires 0.0 <= part <= whole && whole > 0.0
    ensures 0.0 <= part / whole <= 1.0
  {
    DivBetween(part, whole, 0.0, 1.0);
  }
}

/** Character and string helpers (ASCII; no Unicode case folding). */
module Text {
  import opened Wrappers

  /**
   * Characters JavaScript's `\s` and `trim` treat as white space: the
   * ECMAScript WhiteSpace set (tab, vertical tab, form feed, space, no-break
   * space, the byte order mark and the other Unicode space separators) and
   * the four line terminators.
   */
  predicate IsSpace(c: char) {
    c == ' ' || c == '\t' || c == '\n' || c == '\r' || c == '\U{000B}' || c == '\U{000C}'
    || c == '\U{00A0}' || c == '\U{1680}' || ('\U{2000}' <= c <= '\U{200A}')
    || c == '\U{2028}' || c == '\U{2029}' || c == '\U{202F}' || c == '\U{205F}'
    || c == '\U{3000}' || c == '\U{FEFF}'
  }

  predicate IsDigit(c: char) { '0' <= c <= '9' }

  /** `toLowerCase` on one character, ASCII letters only. */
  function LowerChar(c: char): (r: char)
    ensures 'A' <= c <= 'Z' ==> r != c && 'a' <= r <= 'z'
    ensures !('A' <= c <= 'Z') ==> r == c
  {
    if 'A' <= c <= 'Z' then (c as int - 'A' as int + 'a' as int) as char else c
  }

  /** `toLowerCase` on a string. */
  function Lower(s: string): (r: string)
    ensures |r| == |s|
    ensures forall i :: 0 <= i < |s| ==> r[i] == LowerChar(s[i])
  {
    if s == [] then [] else [LowerChar(s[0])] + Lower(s[1..])
  }

  /** `Array.prototype.indexOf`: the first position of `x`, or -1 when absent. */
  function IndexOf<T(==)>(s: seq<T>, x: T): (r: int)
    ensures -1 <= r < |s|
    ensures r == -1 <==> x !in s
    ensures r >= 0 ==> s[r] == x && x !in s[..r]
  {
    if s == [] then -1
    else if s[0] == x then 0
    else var k := IndexOf(s[1..], x); if k == -1 then -1 else k + 1
  }

  /** `String.prototype.trimStart`. */
  function TrimStart(s: string): (r: string)
    ensures |r| <= |s| && r == s[|s| - |r|..]
    ensures r == [] || !IsSpace(r[0])
    ensures forall i :: 0 <= i < |s| - |r| ==> IsSpace(s[i])
  {
    if s != [] && IsSpace(s[0]) then TrimStart(s[1..]) else s
  }

  /** `String.prototype.trimEnd`. */
  function TrimEnd(s: string): (r: string)
    ensures |r| <= |s| && r == s[..|r|]
    ensures r == [] || !IsSpace(r[|r| - 1])
    ensures forall i :: |r| <= i < |s| ==> IsSpace(s[i])
  {
    if s != [] && IsSpace(s[|s| - 1]) then TrimEnd(s[..|s| - 1]) else s
  }

  /** `String.prototype.trim`. */
  function Trim(s: string): (r: string)
    ensures r == [] || (!IsSpace(r[0]) && !IsSpace(r[|r| - 1]))
  {
    TrimEnd(TrimStart(s))
  }

  /** A string made of white space only (or empty) trims to the empty string, and only such a string does. */
  lemma TrimBlank(s: string)
    ensures Trim(s) == [] <==> forall i :: 0 <= i < |s| ==> IsSpace(s[i])
  {
    var t := TrimStart(s);
    if t != [] {
      assert !IsSpace(s[|s| - |t|]);
      assert TrimEnd(t) != [];
    }
  }

  /** `s.includes(sub)`: `sub` occurs somewhere in `s`. */
  predicate Contains(s: string, sub: string)
    decreases |s|
  {
    |sub| <= |s| && (s[..|sub|] == sub || (s != [] && Contains(s[1..], sub)))
  }

  /** The longest prefix of `s` without white space. */
  function Run(s: string): (w: string)
    ensures |w| <= |s| && w == s[..|w|]
    ensures forall i :: 0 <= i < |w| ==> !IsSpace(w[i])
    ensures |w| == |s| || IsSpace(s[|w|])
    ensures s != [] && !IsSpace(s[0]) ==> |w| > 0
  {
    if s == [] || IsSpace(s[0]) then [] else [s[0]] + Run(s[1..])
  }

  predicate IsWord(w: string) {
    |w| > 0 && forall j :: 0 <= j < |w| ==> !IsSpace(w[j])
  }

  /** The white-space-separated tokens of `s`, none empty: `s.trim().split(/\s+/).filter(Boolean)`. */
  function Words(s: string): (ws: seq<string>)
    ensures forall i :: 0 <= i < |ws| ==> IsWord(ws[i])
    decreases |s|
  {
    var t := TrimStart(s);
    if t == [] then []
    else
      var w := Run(t);
      assert IsWord(w);
      var rest := Words(t[|w|..]);
      ConsWords(w, rest);
      [w] + rest
  }

  lemma ConsWords(w: string, rest: seq<string>)
    requires IsWord(w) && forall i :: 0 <= i < |rest| ==> IsWord(rest[i])
    ensures forall i :: 0 <= i < |[w] + rest| ==> IsWord(([w] + rest)[i])
  {
    forall i | 0 <= i < |[w] + rest|
      ensures IsWord(([w] + rest)[i])
    {
      if i > 0 {
        assert ([w] + rest)[i] == rest[i - 1];
      }
    }
  }

  /** Words joined by single spaces. */
  function JoinWords(ws: seq<string>): string {
    if ws == [] then [] else if |ws| == 1 then ws[0] else ws[0] + " " + JoinWords(ws[1..])
  }

  /** Splitting words joined by single spaces gives the words back. */
  lemma {:induction false} WordsOfJoin(ws: seq<string>)
    requires forall i :: 0 <= i < |ws| ==> IsWord(ws[i])
    ensures Words(JoinWords(ws)) == ws
  {
    if ws == [] {
    } else if |ws| == 1 {
      assert JoinWords(ws) == ws[0];
      WordsOfWord(ws[0]);
    } else {
      var rest := ws[1..];
      HeadTail(ws);
      assert forall i :: 0 <= i < |rest| ==> rest[i] == ws[i + 1];
      WordsOfJoin(rest);
      WordsOfJoinStep(ws[0], rest);
    }
  }

  lemma WordsOfJoinStep(w: string, rest: seq<string>)
    requires IsWord(w) && |rest| >= 1
    requires Words(JoinWords(rest)) == rest
    ensures Words(JoinWords([w] + rest)) == [w] + rest
  {
    var tail := JoinWords(rest);
    HeadTail([w] + rest);
    assert JoinWords([w] + rest) == w + " " + tail;
    WordsAfterWord(w, tail);
  }

  /** A non-empty sequence is its head followed by its tail. */
  lemma AppendAssoc<T>(a: seq<T>, b: seq<T>, c: seq<T>)
    ensures a + (b + c) == (a + b) + c
  {
  }

  lemma HeadTail<T>(s: seq<T>)
    requires |s| >= 1
    ensures s == [s[0]] + s[1..]
  {
  }

  lemma WordsOfWord(w: string)
    requires IsWord(w)
    ensures Words(w) == [w]
  {
    assert TrimStart(w) == w by { assert !IsSpace(w[0]); }
    RunOfWord(w, []);
    assert w + [] == w;
    assert w[|w|..] == [];
    assert Words([]) == [];
  }

  lemma WordsAfterWord(w: string, tail: string)
    requires IsWord(w)
    ensures Words(w + " " + tail) == [w] + Words(tail)
  {
    assert w + " " + tail == w + (" " + tail);
    WordsCons(w, " " + tail);
    LeadingSpaceSkipped(tail);
  }

  /** A word followed by a break or the end is the first token. */
  lemma WordsCons(w: string, rest: string)
    requires IsWord(w)
    requires rest == [] || IsSpace(rest[0])
    ensures Words(w + rest) == [w] + Words(rest)
  {
    var s := w + rest;
    assert s[0] == w[0];
    assert TrimStart(s) == s;
    RunOfWord(w, rest);
    assert s[|w|..] == rest;
  }

  lemma LeadingSpaceSkipped(x: string)
    ensures Words(" " + x) == Words(x)
  {
    assert (" " + x)[1..] == x;
    assert TrimStart(" " + x) == TrimStart(x);
  }

  lemma {:induction false} RunOfWord(w: string, rest: string)
    requires forall j :: 0 <= j < |w| ==> !IsSpace(w[j])
    requires rest == [] || IsSpace(rest[0])
    ensures Run(w + rest) == w
    decreases |w|
  {
    if w == [] {
      assert w + rest == rest;
    } else {
      assert (w + rest)[1..] == w[1..] + rest;
      RunOfWord(w[1..], rest);
    }
  }

  function DigitChar(d: nat): (c: char)
    requires d < 10
    ensures IsDigit(c)
  {
    (d + '0' as int) as char
  }

  function DigitValue(c: char): (d: nat)
    requires IsDigit(c)
    ensures d < 10
  {
    c as int - '0' as int
  }

  predicate AllDigits(s: string) {
    forall i :: 0 <= i < |s| ==> IsDigit(s[i])
  }

  /** `n.toString()` for a non-negative integer. */
  function NatToString(n: nat): (s: string)
    ensures 1 <= |s| && AllDigits(s)
    ensures n < 10 <==> |s| == 1
    decreases n
  {
    if n < 10 then [DigitChar(n)] else NatToString(n / 10) + [DigitChar(n % 10)]
  }

  /** Reading back a string of decimal digits. */
  function StringToNat(s: string): nat
    requires AllDigits(s)
    decreases |s|
  {
    if s == [] then 0 else StringToNat(s[..|s| - 1]) * 10 + DigitValue(s[|s| - 1])
  }

  /** Printing then reading a natural number gives it back. */
  lemma {:induction false} NatToStringRoundTrip(n: nat)
    ensures StringToNat(NatToString(n)) == n
    decreases n
  {
    if n >= 10 {
      NatToStringRoundTrip(n / 10);
      var s := NatToString(n);
      assert s[..|s| - 1] == NatToString(n / 10);
    }
  }

  /** `n.toString().padStart(2, '0')`. */
  function Pad2(n: nat): (s: string)
    ensures AllDigits(s) && |s| >= 2
    ensures n < 100 ==> |s| == 2
    ensures StringToNat(s) == n
  {
    NatToStringRoundTrip(n);
    var d := NatToString(n);
    if |d| < 2 then
      assert StringToNat(['0'] + d) == n by {
        assert (['0'] + d)[..1] == ['0'];
      }
      ['0'] + d
    else
      assert n >= 10 ==> |d| >= 2;
      assert n < 100 ==> |NatToString(n / 10)| == 1;
      d
  }

  /** `n.toString()` for any integer. */
  function IntToString(n: int): (s: string)
    ensures 1 <= |s|
    ensures n >= 0 ==> s == NatToString(n)
    ensures n < 0 ==> s[0] == '-' && s[1..] == NatToString(-n)
  {
    if n < 0 then "-" + NatToString(-n) else NatToString(n)
  }

  /** The last position of `x` in `s`, or -1 when absent. */
  function LastIndexOf<T(==)>(s: seq<T>, x: T): (r: int)
    ensures -1 <= r < |s|
    ensures r == -1 <==> x !in s
    ensures r >= 0 ==> s[r] == x && x !in s[r + 1..]
  {
    if s == [] then -1
    else if s[|s| - 1] == x then |s| - 1
    else LastIndexOf(s[..|s| - 1], x)
  }

  /** Some `{` occurs before some `}` in `s`. */
  predicate HasBracePair(s: string) {
    exists i, j :: 0 <= i < j < |s| && s[i] == '{' && s[j] == '}'
  }

  /**
   * The match of the greedy pattern "a `{`, anything, a `}`" in a model reply:
   * from the first `{` to the last `}` after it, or None when there is no such pair.
   */
  function JsonSpan(s: string): (r: Option<string>)
    ensures r.None? <==> !HasBracePair(s)
    ensures r.Some? ==>
      exists i, j :: 0 <= i < j < |s| && r.value == s[i..j + 1] &&
        s[i] == '{' && '{' !in s[..i] && s[j] == '}' && '}' !in s[j + 1..]
  {
    var i := IndexOf(s, '{');
    var j := LastIndexOf(s, '}');
    if i == -1 || j <= i then
      NoBracePair(s, i, j);
      None
    else
      Some(s[i..j + 1])
  }

  lemma NoBracePair(s: string, i: int, j: int)
    requires i == IndexOf(s, '{') && j == LastIndexOf(s, '}')
    requires i == -1 || j <= i
    ensures !HasBracePair(s)
  {
    forall a, b | 0 <= a < b < |s|
      ensures s[a] != '{' || s[b] != '}'
    {
      if a < i {
        assert s[a] == s[..i][a];
      } else if j < b {
        assert s[b] == s[j + 1..][b - j - 1];
      } else {
        assert s[a] in s;
      }
    }
  }
}

/** Cardinality facts used by the counting proofs. */
module Counting {
  /** The integers lo, lo + 1, ..., hi - 1. */
  function Range(lo: int, hi: int): (r: set<int>)
    ensures forall k :: k in r <==> lo <= k < hi
    ensures |r| == if lo <= hi then hi - lo else 0
    decreases hi - lo
  {
    if lo >= hi then {} else {lo} + Range(lo + 1, hi)
  }

  /** A subset is no larger than its superset. */
  lemma {:induction false} SubsetCard<T>(a: set<T>, b: set<T>)
    requires a <= b
    ensures |a| <= |b|
    decreases |a|
  {
    if a != {} {
      var x :| x in a;
      SubsetCard(a - {x}, b - {x});
    }
  }

  /** The elements of a sequence, as a set. */
  function Elements<T(!new)>(s: seq<T>): (r: set<T>)
    ensures forall x :: x in r <==> x in s
    ensures |r| <= |s|
  {
    if s == [] then {} else {s[0]} + Elements(s[1..])
  }

  /** No element occurs twice. */
  predicate Distinct<T(==)>(s: seq<T>) {
    forall i, j :: 0 <= i < j < |s| ==> s[i] != s[j]
  }
}
