/** String operations of the JavaScript standard library that the analysis
    code relies on, written over `seq<char>`: `includes`, `indexOf`,
    `startsWith`, a literal global `replace`, ASCII `toLowerCase`, `trim`,
    `split`, `join`, and the `\s` and `\d` character classes. */
module Text {
  import opened Wrappers

  // ---------------------------------------------------------------------------
  // Character classes

  /** The characters matched by `\s` in a JavaScript regular expression; the
      same set is removed by `String.prototype.trim`. */
  predicate IsSpace(c: char) {
    || c == ' ' || c == '\t' || c == '\n' || c == '\r' || c == '\U{000B}' || c == '\U{000C}'
    || c == '\U{00A0}' || c == '\U{1680}' || ('\U{2000}' <= c <= '\U{200A}')
    || c == '\U{2028}' || c == '\U{2029}' || c == '\U{202F}' || c == '\U{205F}'
    || c == '\U{3000}' || c == '\U{FEFF}'
  }

  /** `\d`: the ASCII digits only. */
  predicate IsDigit(c: char) {
    '0' <= c <= '9'
  }

  predicate AllSpace(s: string) {
    forall i :: 0 <= i < |s| ==> IsSpace(s[i])
  }

  predicate AllDigits(s: string) {
    forall i :: 0 <= i < |s| ==> IsDigit(s[i])
  }

  // ---------------------------------------------------------------------------
  // Searching

  /** `p` occurs in `s` starting at index `i`. */
  predicate OccursAt(s: string, p: string, i: nat) {
    i + |p| <= |s| && s[i..i + |p|] == p
  }

  /** `s.includes(p)`. */
  predicate Contains(s: string, p: string)
    decreases |s|
  {
    p <= s || (|s| > 0 && Contains(s[1..], p))
  }

  lemma {:induction false} ContainsIff(s: string, p: string)
    ensures Contains(s, p) <==> exists i: nat :: OccursAt(s, p, i)
    decreases |s|
  {
    if p <= s {
      assert OccursAt(s, p, 0);
    } else if |s| == 0 {
      assert forall i: nat :: !OccursAt(s, p, i);
    } else {
      ContainsIff(s[1..], p);
      if Contains(s[1..], p) {
        var i: nat :| OccursAt(s[1..], p, i);
        assert s[i + 1..i + 1 + |p|] == s[1..][i..i + |p|];
        assert OccursAt(s, p, i + 1);
      } else {
        forall i: nat ensures !OccursAt(s, p, i) {
          if i == 0 {
            if |p| <= |s| { assert s[..|p|] == s[0..|p|]; }
          } else if i + |p| <= |s| {
            assert s[1..][i - 1..i - 1 + |p|] == s[i..i + |p|];
            assert !OccursAt(s[1..], p, i - 1);
          }
        }
      }
    }
  }

  /** A witness occurrence makes `Contains` true. */
  lemma ContainsWitness(s: string, p: string, i: nat)
    requires OccursAt(s, p, i)
    ensures Contains(s, p)
  {
    ContainsIff(s, p);
  }

  /** A pattern found in a part is found in the whole. */
  lemma ContainsInfix(a: string, p: string, b: string)
    ensures Contains(a + p + b, p)
  {
    assert (a + p + b)[|a|..|a| + |p|] == p;
    ContainsWitness(a + p + b, p, |a|);
  }

  lemma ContainsAppend(a: string, b: string, p: string)
    requires Contains(a, p)
    ensures Contains(a + b, p)
  {
    ContainsIff(a, p);
    var i: nat :| OccursAt(a, p, i);
    assert (a + b)[i..i + |p|] == a[i..i + |p|];
    ContainsWitness(a + b, p, i);
  }

  lemma ContainsPrepend(a: string, b: string, p: string)
    requires Contains(b, p)
    ensures Contains(a + b, p)
  {
    ContainsIff(b, p);
    var i: nat :| OccursAt(b, p, i);
    assert (a + b)[|a| + i..|a| + i + |p|] == b[i..i + |p|];
    ContainsWitness(a + b, p, |a| + i);
  }

  /** `s.indexOf(p)`, with `None` for -1. */
  function IndexOf(s: string, p: string): (r: Option<nat>)
    ensures r.Some? ==> OccursAt(s, p, r.value) && forall j: nat :: j < r.value ==> !OccursAt(s, p, j)
    ensures r.None? ==> forall j: nat :: !OccursAt(s, p, j)
    decreases |s|
  {
    if p <= s then
      assert s[..|p|] == p;
      Some(0)
    else if |s| == 0 then
      assert forall j: nat :: !OccursAt(s, p, j);
      None
    else
      var rest := IndexOf(s[1..], p);
      assert forall j: nat :: 1 <= j ==> (OccursAt(s, p, j) <==> OccursAt(s[1..], p, j - 1)) by {
        forall j: nat | 1 <= j ensures OccursAt(s, p, j) <==> OccursAt(s[1..], p, j - 1) {
          if j + |p| <= |s| { DropOneSlice(s, j, |p|); }
        }
      }
      assert !OccursAt(s, p, 0) by { if |p| <= |s| { assert s[..|p|] == s[0..|p|]; } }
      match rest
      case Some(k) => Some(k + 1)
      case None => None
  }

  /** A slice of the string without its first character is the slice of the
      string one further on. */
  lemma DropOneSlice(s: string, j: nat, n: nat)
    requires 1 <= j && j + n <= |s|
    ensures s[j..j + n] == s[1..][j - 1..j - 1 + n]
  {
    var a, b := s[j..j + n], s[1..][j - 1..j - 1 + n];
    assert forall k :: 0 <= k < n ==> a[k] == b[k];
  }

  lemma IndexOfContains(s: string, p: string)
    ensures IndexOf(s, p).Some? <==> Contains(s, p)
  {
    ContainsIff(s, p);
  }

  // ---------------------------------------------------------------------------
  // Rewriting

  /** `s.replace(/p/g, r)` for a literal pattern `p`: every occurrence, found
      from left to right without overlap, is replaced. */
  function ReplaceAll(s: string, p: string, r: string): string
    requires |p| > 0
    decreases |s|
  {
    if |s| == 0 then ""
    else if p <= s then r + ReplaceAll(s[|p|..], p, r)
    else [s[0]] + ReplaceAll(s[1..], p, r)
  }

  /** Replacing never introduces a character that neither the input nor the
      replacement holds. */
  lemma {:induction false} ReplaceAllKeepsOut(s: string, p: string, r: string, c: char)
    requires |p| > 0 && c !in s && c !in r
    ensures c !in ReplaceAll(s, p, r)
    decreases |s|
  {
    if |s| == 0 {
    } else if p <= s {
      assert c !in s[|p|..] by { assert forall i :: 0 <= i < |s| - |p| ==> s[|p|..][i] == s[|p| + i]; }
      ReplaceAllKeepsOut(s[|p|..], p, r, c);
    } else {
      assert c !in s[1..] by { assert forall i :: 0 <= i < |s| - 1 ==> s[1..][i] == s[1 + i]; }
      ReplaceAllKeepsOut(s[1..], p, r, c);
    }
  }

  /** Removing a one-character pattern removes every occurrence of it. */
  lemma {:induction false} ReplaceCharRemoves(s: string, c: char, r: string)
    requires c !in r
    ensures c !in ReplaceAll(s, [c], r)
    decreases |s|
  {
    if |s| == 0 {
    } else if [c] <= s {
      ReplaceCharRemoves(s[1..], c, r);
    } else {
      assert s[0] != c by { assert [s[0]] == s[..1]; }
      ReplaceCharRemoves(s[1..], c, r);
    }
  }

  /** A character absent from `s` does not occur in it as a pattern. */
  lemma AbsentChar(s: string, c: char)
    requires c !in s
    ensures !Contains(s, [c])
  {
    forall i: nat | i + 1 <= |s| ensures !OccursAt(s, [c], i) {
      assert s[i..i + 1][0] == s[i];
    }
    ContainsIff(s, [c]);
  }

  /** A string without the pattern is left as it is. */
  lemma {:induction false} ReplaceAllAbsent(s: string, p: string, r: string)
    requires |p| > 0 && !Contains(s, p)
    ensures ReplaceAll(s, p, r) == s
    decreases |s|
  {
    if |s| > 0 {
      ReplaceAllAbsent(s[1..], p, r);
    }
  }

  lemma ConcatAssoc<T>(a: seq<T>, b: seq<T>, c: seq<T>)
    ensures a + b + c == a + (b + c)
  {
  }

  lemma ConcatAssoc4<T>(a: seq<T>, b: seq<T>, c: seq<T>, d: seq<T>)
    ensures a + (b + c + d) == a + b + c + d
  {
  }

  lemma ConcatEmpty<T>(a: seq<T>, b: seq<T>)
    requires |a| == 0
    ensures a + b == b
  {
  }

  /** An occurrence of a pattern holds the pattern's first character. */
  lemma ContainsFirstChar(s: string, p: string)
    requires |p| > 0 && Contains(s, p)
    ensures p[0] in s
  {
    ContainsIff(s, p);
    var i: nat :| OccursAt(s, p, i);
    assert s[i] == s[i..i + |p|][0];
  }

  /** A character that cannot start the pattern is copied. */
  lemma ReplaceAllSkip(c: char, t: string, p: string, r: string)
    requires |p| > 0 && c != p[0]
    ensures ReplaceAll([c] + t, p, r) == [c] + ReplaceAll(t, p, r)
  {
    assert ([c] + t)[0] == c;
    assert ([c] + t)[1..] == t;
  }

  /** An occurrence at the front is replaced. */
  lemma ReplaceAllHead(p: string, t: string, r: string)
    requires |p| > 0
    ensures ReplaceAll(p + t, p, r) == r + ReplaceAll(t, p, r)
  {
    assert p <= p + t;
    assert (p + t)[|p|..] == t;
  }

  /** ASCII case folding. `toLowerCase` also folds non-ASCII letters; the
      keywords this code looks for are not affected by that difference. */
  function LowerChar(c: char): char {
    if 'A' <= c <= 'Z' then (c as int + 32) as char else c
  }

  function AsciiLower(s: string): (r: string)
    ensures |r| == |s| && forall i :: 0 <= i < |s| ==> r[i] == LowerChar(s[i])
    decreases |s|
  {
    if |s| == 0 then "" else [LowerChar(s[0])] + AsciiLower(s[1..])
  }

  /** No ASCII letter of either case: such a string is unchanged by
      lower-casing, and nothing else lowers onto it. */
  predicate NoAsciiLetter(p: string) {
    forall i :: 0 <= i < |p| ==> !('A' <= p[i] <= 'Z') && !('a' <= p[i] <= 'z')
  }

  /** Looking for a keyword without ASCII letters in the lower-cased text is
      the same as looking for it in the text. */
  lemma LowerContainsKeyword(s: string, p: string)
    requires NoAsciiLetter(p)
    ensures Contains(AsciiLower(s), p) <==> Contains(s, p)
  {
    ContainsIff(AsciiLower(s), p);
    ContainsIff(s, p);
    forall i: nat | i + |p| <= |s|
      ensures OccursAt(AsciiLower(s), p, i) <==> OccursAt(s, p, i)
    {
      OccursLower(s, p, i);
    }
  }

  /** The same, at one position. */
  lemma OccursLower(s: string, p: string, i: nat)
    requires NoAsciiLetter(p) && i + |p| <= |s|
    ensures OccursAt(AsciiLower(s), p, i) <==> OccursAt(s, p, i)
  {
    var l := AsciiLower(s);
    var x, y := l[i..i + |p|], s[i..i + |p|];
    forall k | 0 <= k < |p| ensures x[k] == p[k] <==> y[k] == p[k] {
      assert x[k] == LowerChar(y[k]);
      LowerOnto(y[k], p[k]);
    }
    assert x == p <==> y == p by {
      if x == p { assert forall k :: 0 <= k < |p| ==> y[k] == p[k]; }
      if y == p { assert forall k :: 0 <= k < |p| ==> x[k] == p[k]; }
    }
  }

  /** Only the character itself lowers onto a character that is not an
      ASCII letter. */
  lemma LowerOnto(c: char, d: char)
    requires !('A' <= d <= 'Z') && !('a' <= d <= 'z')
    ensures LowerChar(c) == d <==> c == d
  {
  }

  // ---------------------------------------------------------------------------
  // Character positions

  /** The index of the first `c` in `s`. */
  function FirstOf(s: string, c: char): (r: Option<nat>)
    ensures r.Some? ==> r.value < |s| && s[r.value] == c && c !in s[..r.value]
    ensures r.None? ==> c !in s
    decreases |s|
  {
    if |s| == 0 then None
    else if s[0] == c then Some(0)
    else
      var t := FirstOf(s[1..], c);
      if t.Some? then
        assert s[..t.value + 1] == [s[0]] + s[1..][..t.value];
        Some(t.value + 1)
      else None
  }

  /** The index of the last `c` in `s`. */
  function LastOf(s: string, c: char): (r: Option<nat>)
    ensures r.Some? ==> r.value < |s| && s[r.value] == c && c !in s[r.value + 1..]
    ensures r.None? ==> c !in s
    decreases |s|
  {
    if |s| == 0 then None
    else if s[|s| - 1] == c then Some(|s| - 1)
    else
      var t := LastOf(s[..|s| - 1], c);
      if t.Some? then
        assert s[t.value + 1..] == s[..|s| - 1][t.value + 1..] + [s[|s| - 1]];
        Some(t.value)
      else
        assert s == s[..|s| - 1] + [s[|s| - 1]];
        None
  }

  /** A `c` at or after the first `c`, and at or before the last one. */
  lemma BetweenFirstAndLast(s: string, c: char, a: nat)
    requires a < |s| && s[a] == c
    ensures FirstOf(s, c).Some? && FirstOf(s, c).value <= a
    ensures LastOf(s, c).Some? && a <= LastOf(s, c).value
  {
    assert s[a] in s;
    var p := FirstOf(s, c).value;
    var q := LastOf(s, c).value;
    assert forall t :: 0 <= t < p ==> s[..p][t] == s[t];
    assert forall t :: q + 1 <= t < |s| ==> s[t] == s[q + 1..][t - q - 1];
  }

  // ---------------------------------------------------------------------------
  // Trimming

  /** The number of leading white-space characters: what `\s*` consumes. */
  function SpaceSpan(s: string): (n: nat)
    ensures n <= |s| && AllSpace(s[..n])
    ensures n < |s| ==> !IsSpace(s[n])
    decreases |s|
  {
    if |s| > 0 && IsSpace(s[0]) then
      var m := SpaceSpan(s[1..]);
      1 + m
    else 0
  }

  /** The index where the trailing white space of `s` begins. */
  function SpaceTail(s: string): (n: nat)
    ensures n <= |s| && AllSpace(s[n..])
    ensures n > 0 ==> !IsSpace(s[n - 1])
    decreases |s|
  {
    if |s| > 0 && IsSpace(s[|s| - 1]) then
      var m := SpaceTail(s[..|s| - 1]);
      assert forall i :: m <= i < |s| - 1 ==> s[i] == s[..|s| - 1][i];
      m
    else |s|
  }

  lemma AllSpaceConcat(a: string, b: string)
    ensures AllSpace(a + b) <==> AllSpace(a) && AllSpace(b)
  {
    if AllSpace(a + b) {
      forall t | 0 <= t < |a| ensures IsSpace(a[t]) { assert a[t] == (a + b)[t]; }
      forall t | 0 <= t < |b| ensures IsSpace(b[t]) { assert b[t] == (a + b)[|a| + t]; }
    }
  }

  /** `s.trimStart()`. */
  function TrimStart(s: string): string {
    s[SpaceSpan(s)..]
  }

  /** `s.trim()`: `s` is white space, then the result, then white space, and
      the result neither starts nor ends with white space. */
  function Trim(s: string): (r: string)
    ensures |r| > 0 ==> !IsSpace(r[0]) && !IsSpace(r[|r| - 1])
    ensures r == "" <==> AllSpace(s)
    ensures exists i, j :: 0 <= i <= j <= |s| && r == s[i..j] && AllSpace(s[..i]) && AllSpace(s[j..])
  {
    var i := SpaceSpan(s);
    var j := i + SpaceTail(s[i..]);
    assert AllSpace(s[j..]) by {
      assert forall t :: j <= t < |s| ==> s[t] == s[i..][j - i..][t - j];
    }
    if i == j then
      assert s == s[..i] + s[j..];
      AllSpaceConcat(s[..i], s[j..]);
      s[i..j]
    else
      assert s[i..j][0] == s[i];
      assert s[i..j][j - i - 1] == s[i..][j - i - 1];
      s[i..j]
  }

  /** A span of white space followed by something else is what `\s*`
      consumes. */
  lemma {:induction false} SpaceSpanExact(s: string, n: nat)
    requires n <= |s| && AllSpace(s[..n]) && (n < |s| ==> !IsSpace(s[n]))
    ensures SpaceSpan(s) == n
    decreases n
  {
    if n > 0 {
      assert IsSpace(s[..n][0]);
      assert s[1..][..n - 1] == s[1..n];
      assert forall t :: 0 <= t < n - 1 ==> s[1..n][t] == s[..n][t + 1];
      SpaceSpanExact(s[1..], n - 1);
    }
  }

  /** `\s*` stops before a last character that is not white space. */
  lemma {:induction false} SpaceSpanStops(s: string)
    requires |s| > 0 && !IsSpace(s[|s| - 1])
    ensures SpaceSpan(s) < |s|
    decreases |s|
  {
    if IsSpace(s[0]) {
      assert |s| > 1;
      assert s[1..][|s| - 2] == s[|s| - 1];
      SpaceSpanStops(s[1..]);
    }
  }

  /** A string that neither starts nor ends with white space is its own
      trim. */
  lemma TrimOfTrimmed(s: string)
    requires |s| > 0 ==> !IsSpace(s[0]) && !IsSpace(s[|s| - 1])
    ensures Trim(s) == s
  {
    var i, j :| 0 <= i <= j <= |s| && Trim(s) == s[i..j] && AllSpace(s[..i]) && AllSpace(s[j..]);
    if i > 0 { assert s[..i][0] == s[0]; }
    if j < |s| { assert s[j..][|s| - 1 - j] == s[|s| - 1]; }
    assert s[0..|s|] == s;
  }

  // ---------------------------------------------------------------------------
  // Split and join

  /** `s.split(sep)` for a one-character separator. */
  function Split(s: string, sep: char): (r: seq<string>)
    ensures |r| >= 1
    ensures forall i :: 0 <= i < |r| ==> sep !in r[i]
    decreases |s|
  {
    if |s| == 0 then [""]
    else
      var t := Split(s[1..], sep);
      if s[0] == sep then [""] + t
      else [[s[0]] + t[0]] + t[1..]
  }

  /** `parts.join(sep)`. */
  function Join(parts: seq<string>, sep: string): string
    decreases |parts|
  {
    if |parts| == 0 then ""
    else if |parts| == 1 then parts[0]
    else parts[0] + sep + Join(parts[1..], sep)
  }

  /** Splitting and joining back with the same separator gives the text back. */
  lemma {:induction false} JoinSplit(s: string, sep: char)
    ensures Join(Split(s, sep), [sep]) == s
    decreases |s|
  {
    if |s| > 0 {
      var t := Split(s[1..], sep);
      JoinSplit(s[1..], sep);
      if s[0] == sep {
        assert Split(s, sep) == [""] + t;
        assert ([""] + t)[1..] == t;
      } else {
        var u := [[s[0]] + t[0]] + t[1..];
        assert Split(s, sep) == u;
        if |t| == 1 {
          assert Join(t, [sep]) == t[0];
        } else {
          assert u[1..] == t[1..];
          assert Join(t, [sep]) == t[0] + [sep] + Join(t[1..], [sep]);
        }
      }
    }
  }

  // ---------------------------------------------------------------------------
  // Digits

  /** Every character of `s[i..e]` is white space. */
  predicate SpacesIn(s: string, i: nat, e: nat)
    requires i <= e <= |s|
  {
    forall t :: i <= t < e ==> IsSpace(s[t])
  }

  /** Every character of `s[i..e]` is a digit. */
  predicate DigitsIn(s: string, i: nat, e: nat)
    requires i <= e <= |s|
  {
    forall t :: i <= t < e ==> IsDigit(s[t])
  }

  /** The end of the run of white space that starts at `i` (`\s*`). */
  function SpaceEnd(s: string, i: nat): (e: nat)
    requires i <= |s|
    ensures i <= e <= |s| && SpacesIn(s, i, e)
    ensures e < |s| ==> !IsSpace(s[e])
    decreases |s| - i
  {
    if i < |s| && IsSpace(s[i]) then SpaceEnd(s, i + 1) else i
  }

  /** The end of the run of digits that starts at `i` (`\d*`). */
  function DigitEnd(s: string, i: nat): (e: nat)
    requires i <= |s|
    ensures i <= e <= |s| && DigitsIn(s, i, e)
    ensures e < |s| ==> !IsDigit(s[e])
    decreases |s| - i
  {
    if i < |s| && IsDigit(s[i]) then DigitEnd(s, i + 1) else i
  }

  /** A run of white space that stops at a non-space is what `SpaceEnd`
      measures. */
  lemma {:induction false} SpaceEndExact(s: string, i: nat, e: nat)
    requires i <= e <= |s| && SpacesIn(s, i, e) && (e < |s| ==> !IsSpace(s[e]))
    ensures SpaceEnd(s, i) == e
    decreases e - i
  {
    if i < e {
      SpaceEndExact(s, i + 1, e);
    }
  }

  /** A run of digits that stops at a non-digit is what `DigitEnd` measures. */
  lemma {:induction false} DigitEndExact(s: string, i: nat, e: nat)
    requires i <= e <= |s| && DigitsIn(s, i, e) && (e < |s| ==> !IsDigit(s[e]))
    ensures DigitEnd(s, i) == e
    decreases e - i
  {
    if i < e {
      DigitEndExact(s, i + 1, e);
    }
  }

  /** The longest prefix of digits: what a greedy `\d+` takes. */
  function DigitPrefix(s: string): (r: string)
    ensures r <= s && AllDigits(r)
    ensures |r| < |s| ==> !IsDigit(s[|r|])
    decreases |s|
  {
    if |s| > 0 && IsDigit(s[0]) then [s[0]] + DigitPrefix(s[1..]) else ""
  }

  /** The value of a run of decimal digits, as `parseInt(ds, 10)` reads it. */
  function DecimalValue(ds: string): nat
    requires AllDigits(ds)
    decreases |ds|
  {
    if |ds| == 0 then 0
    else DecimalValue(ds[..|ds| - 1]) * 10 + (ds[|ds| - 1] as int - '0' as int)
  }
}
