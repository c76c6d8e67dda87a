/** The total-calorie scan shared by two backends: the first match of the
    pattern `总热量[：:]\s*(\d+)\s*kcal` (case-insensitive) in the provider's
    text, and the decimal value of its digit group. */
module Calories {
  import opened Wrappers
  import opened Text

  const LABEL := "总热量"

  /** The full-width or the ASCII colon. */
  predicate IsColon(c: char) {
    c == ':' || c == '：'
  }

  /** The label and a colon occupy `s[p..p+4]`. */
  predicate LabelAt(s: string, p: nat) {
    p + 4 <= |s| && s[p] == '总' && s[p + 1] == '热' && s[p + 2] == '量' && IsColon(s[p + 3])
  }

  /** `kcal`, in any mix of upper and lower case, occupies `s[k..k+4]`. */
  predicate KcalAt(s: string, k: nat) {
    && k + 4 <= |s|
    && LowerChar(s[k]) == 'k' && LowerChar(s[k + 1]) == 'c'
    && LowerChar(s[k + 2]) == 'a' && LowerChar(s[k + 3]) == 'l'
  }

  /** The pattern matches at `p` with optional white space in `s[p+4..i]`,
      the digit group in `s[i..j]`, optional white space in `s[j..k]` and
      the unit in `s[k..k+4]`. */
  predicate MatchShape(s: string, p: nat, i: nat, j: nat, k: nat) {
    && LabelAt(s, p) && p + 4 <= i < j <= k && KcalAt(s, k)
    && SpacesIn(s, p + 4, i) && DigitsIn(s, i, j) && SpacesIn(s, j, k)
  }

  /** The digits of `s[i..j]` as a string of digits. */
  lemma DigitsSlice(s: string, i: nat, j: nat)
    requires i <= j <= |s| && DigitsIn(s, i, j)
    ensures AllDigits(s[i..j])
  {
    assert forall t :: 0 <= t < j - i ==> s[i..j][t] == s[i + t];
  }

  /** The attempt to match at position `p`: the value of the digit group,
      or `None` when the pattern does not match there. White space, digits
      and the letter `k` are disjoint classes, so the greedy groups leave
      the regular expression nothing to backtrack into. */
  function MatchAt(s: string, p: nat): Option<nat>
    requires p <= |s|
  {
    if !LabelAt(s, p) then None
    else
      var i := SpaceEnd(s, p + 4);
      var j := DigitEnd(s, i);
      if j == i then None
      else
        var k := SpaceEnd(s, j);
        if KcalAt(s, k) then DigitsSlice(s, i, j); Some(DecimalValue(s[i..j])) else None
  }

  /** A successful attempt has the shape of the pattern. */
  lemma MatchAtShape(s: string, p: nat)
    requires p <= |s| && MatchAt(s, p).Some?
    ensures var i := SpaceEnd(s, p + 4); var j := DigitEnd(s, i);
      MatchShape(s, p, i, j, SpaceEnd(s, j)) && AllDigits(s[i..j]) && MatchAt(s, p) == Some(DecimalValue(s[i..j]))
  {
    var i := SpaceEnd(s, p + 4);
    DigitsSlice(s, i, DigitEnd(s, i));
  }

  /** Text of the pattern's shape is matched, with the digits of the shape. */
  lemma ShapeMatchAt(s: string, p: nat, i: nat, j: nat, k: nat)
    requires MatchShape(s, p, i, j, k)
    ensures AllDigits(s[i..j]) && MatchAt(s, p) == Some(DecimalValue(s[i..j]))
  {
    SpaceEndExact(s, p + 4, i);
    assert !IsDigit(s[j]) by {
      if j == k {
        assert LowerChar(s[k]) == 'k';
      }
    }
    DigitEndExact(s, i, j);
    SpaceEndExact(s, j, k);
    DigitsSlice(s, i, j);
  }

  /** The match attempt succeeds with value `n` exactly when the text has the
      shape of the pattern at `p` and its digit group spells `n`. */
  lemma MatchAtIff(s: string, p: nat, n: nat)
    requires p <= |s|
    ensures MatchAt(s, p) == Some(n) <==>
      exists i: nat, j: nat, k: nat :: MatchShape(s, p, i, j, k) && AllDigits(s[i..j]) && DecimalValue(s[i..j]) == n
  {
    if MatchAt(s, p) == Some(n) {
      MatchAtShape(s, p);
    }
    if exists i: nat, j: nat, k: nat :: MatchShape(s, p, i, j, k) && AllDigits(s[i..j]) && DecimalValue(s[i..j]) == n {
      var i: nat, j: nat, k: nat :| MatchShape(s, p, i, j, k) && AllDigits(s[i..j]) && DecimalValue(s[i..j]) == n;
      ShapeMatchAt(s, p, i, j, k);
    }
  }

  /** The outcome of the match attempt at every position, in order. */
  function Attempts(s: string): (r: seq<Option<nat>>)
    ensures |r| == |s| + 1 && forall q :: 0 <= q <= |s| ==> r[q] == MatchAt(s, q)
  {
    seq(|s| + 1, q requires 0 <= q <= |s| => MatchAt(s, q))
  }

  /** The first outcome at or after `p` that is a match: what a regular
      expression search returns when it tries positions left to right. */
  function FirstSomeFrom(xs: seq<Option<nat>>, p: nat): (r: Option<nat>)
    requires p <= |xs|
    ensures r.None? <==> forall q :: p <= q < |xs| ==> xs[q].None?
    ensures r.Some? ==> exists q :: p <= q < |xs| && xs[q] == r && forall q' :: p <= q' < q ==> xs[q'].None?
    decreases |xs| - p
  {
    if p == |xs| then None
    else if xs[p].Some? then xs[p]
    else FirstSomeFrom(xs, p + 1)
  }

  /** The first match in the whole text, as `text.match(pattern)`. */
  function FirstCalorie(s: string): (r: Option<nat>)
    ensures r.None? <==> forall q :: 0 <= q <= |s| ==> MatchAt(s, q).None?
    ensures r.Some? ==> exists q :: 0 <= q <= |s| && MatchAt(s, q) == r && (forall q' :: 0 <= q' < q ==> MatchAt(s, q').None?)
  {
    var xs := Attempts(s);
    assert forall q :: 0 <= q < |xs| ==> xs[q] == MatchAt(s, q);
    FirstSomeFrom(xs, 0)
  }

  /** The total: the matched value, or 0 when the pattern does not occur. */
  function TotalCalories(s: string): nat {
    FirstCalorie(s).GetOr(0)
  }

  /** A position that matches, with none before it, fixes the total. */
  lemma TotalCaloriesAt(s: string, p: nat, n: nat)
    requires p <= |s| && MatchAt(s, p) == Some(n)
    requires forall q :: 0 <= q < p ==> MatchAt(s, q).None?
    ensures TotalCalories(s) == n
  {
    var r := FirstCalorie(s);
    var q :| 0 <= q <= |s| && MatchAt(s, q) == r && forall q' :: 0 <= q' < q ==> MatchAt(s, q').None?;
    assert !(q < p) && !(p < q);
  }

  /** Outcomes that are all failures in front do not change the first match. */
  lemma {:induction false} FirstSomeSkips(xs: seq<Option<nat>>, p: nat, e: nat)
    requires p <= e <= |xs|
    requires forall q :: p <= q < e ==> xs[q].None?
    ensures FirstSomeFrom(xs, p) == FirstSomeFrom(xs, e)
    decreases e - p
  {
    if p < e {
      FirstSomeSkips(xs, p + 1, e);
    }
  }

  /** Searching a suffix from its start is searching the whole from where the
      suffix begins. */
  lemma {:induction false} FirstSomeSuffix(xs: seq<Option<nat>>, d: nat, t: nat)
    requires d <= |xs| && t <= |xs| - d
    ensures FirstSomeFrom(xs, d + t) == FirstSomeFrom(xs[d..], t)
    decreases |xs| - d - t
  {
    if t < |xs| - d {
      assert xs[d..][t] == xs[d + t];
      FirstSomeSuffix(xs, d, t + 1);
    }
  }

  /** The shape of the pattern is the same inside `b` and inside `a + b`. */
  lemma ShapeShift(a: string, b: string, t: nat, i: nat, j: nat, k: nat)
    requires t <= |b| && i <= j <= |b|
    ensures MatchShape(b, t, i, j, k) <==> MatchShape(a + b, |a| + t, |a| + i, |a| + j, |a| + k)
    ensures (a + b)[|a| + i..|a| + j] == b[i..j]
  {
    var s := a + b;
    assert forall x :: 0 <= x < |b| ==> s[|a| + x] == b[x];
  }

  /** A match inside `b` is a match inside `a + b`. */
  lemma MatchShiftRight(a: string, b: string, t: nat)
    requires t <= |b| && MatchAt(b, t).Some?
    ensures MatchAt(a + b, |a| + t) == MatchAt(b, t)
  {
    MatchAtShape(b, t);
    var i := SpaceEnd(b, t + 4);
    var j := DigitEnd(b, i);
    ShapeShiftMatch(a, b, t, i, j, SpaceEnd(b, j));
  }

  /** The shape of the pattern in `b` is a match in `a + b`, with the same
      digits. */
  lemma ShapeShiftMatch(a: string, b: string, t: nat, i: nat, j: nat, k: nat)
    requires t <= |b| && MatchShape(b, t, i, j, k)
    ensures i <= j <= |b| && MatchAt(a + b, |a| + t) == Some(DecimalValue(b[i..j]))
  {
    ShapeShift(a, b, t, i, j, k);
    ShapeMatchAt(a + b, |a| + t, |a| + i, |a| + j, |a| + k);
  }

  /** A match inside `a + b` past `a` is a match inside `b`. */
  lemma MatchShiftLeft(a: string, b: string, t: nat)
    requires t <= |b| && MatchAt(a + b, |a| + t).Some?
    ensures MatchAt(a + b, |a| + t) == MatchAt(b, t)
  {
    var s := a + b;
    MatchAtShape(s, |a| + t);
    var i := SpaceEnd(s, |a| + t + 4);
    var j := DigitEnd(s, i);
    ShapeUnshift(a, b, t, i, j, SpaceEnd(s, j));
  }

  /** The shape of the pattern in `a + b` past `a` is a match in `b`, with
      the same digits. */
  lemma ShapeUnshift(a: string, b: string, t: nat, i: nat, j: nat, k: nat)
    requires t <= |b| && MatchShape(a + b, |a| + t, i, j, k)
    ensures i <= j <= |a + b| && MatchAt(b, t) == Some(DecimalValue((a + b)[i..j]))
  {
    var i', j', k' := i - |a|, j - |a|, k - |a|;
    ShapeShift(a, b, t, i', j', k');
    ShapeMatchAt(b, t, i', j', k');
  }

  /** A match attempt inside `b` does not look at a prefix put before it. */
  lemma MatchAtShift(a: string, b: string, t: nat)
    requires t <= |b|
    ensures MatchAt(a + b, |a| + t) == MatchAt(b, t)
  {
    if MatchAt(b, t).Some? {
      MatchShiftRight(a, b, t);
    } else if MatchAt(a + b, |a| + t).Some? {
      MatchShiftLeft(a, b, t);
    }
  }

  /** The attempts in `a + b` from the start of `b` on are the attempts in
      `b`. */
  lemma AttemptsShift(a: string, b: string)
    ensures Attempts(a + b)[|a|..] == Attempts(b)
  {
    forall t | 0 <= t <= |b| ensures Attempts(a + b)[|a|..][t] == Attempts(b)[t] {
      MatchAtShift(a, b, t);
    }
  }

  /** A prefix in which no match can start does not change the total. */
  lemma SkipPrefix(a: string, b: string)
    requires forall q :: 0 <= q < |a| ==> MatchAt(a + b, q).None?
    ensures TotalCalories(a + b) == TotalCalories(b)
  {
    var xs := Attempts(a + b);
    FirstSomeSkips(xs, 0, |a|);
    FirstSomeSuffix(xs, |a|, 0);
    AttemptsShift(a, b);
  }

  /** No match starts inside a piece that holds no `总热` and does not end in
      `总`, since every match begins with the label. */
  lemma NoStartIn(a: string, b: string)
    requires !Contains(a, "总热") && (|a| > 0 ==> a[|a| - 1] != '总')
    ensures forall q :: 0 <= q < |a| ==> MatchAt(a + b, q).None?
  {
    forall q | 0 <= q < |a| ensures MatchAt(a + b, q).None? {
      if q + 1 < |a| {
        if a[q] == '总' && a[q + 1] == '热' {
          assert a[q..q + 2] == "总热";
          ContainsWitness(a, "总热", q);
        }
        assert (a + b)[q] == a[q] && (a + b)[q + 1] == a[q + 1];
      } else {
        assert (a + b)[q] == a[q];
      }
    }
  }
}
