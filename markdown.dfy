/** The cleaning chain `formatAnalysisResult` in `public/renderer.js` runs on
    the model's answer before looking for sections: Markdown emphasis, list
    dashes and heading marks removed, runs of blank lines collapsed to one
    blank line, and the ends trimmed. */
module Markdown {
  import opened Wrappers
  import opened Text

  // ---------------------------------------------------------------------------
  // Counting line breaks

  /** The number of line breaks in `s`. */
  function Newlines(s: string): nat
    decreases |s|
  {
    if |s| == 0 then 0 else (if s[0] == '\n' then 1 else 0) + Newlines(s[1..])
  }

  lemma {:induction false} NewlinesConcat(a: string, b: string)
    ensures Newlines(a + b) == Newlines(a) + Newlines(b)
    decreases |a|
  {
    if |a| == 0 {
      assert a + b == b;
    } else {
      assert (a + b)[0] == a[0];
      assert (a + b)[1..] == a[1..] + b;
      NewlinesConcat(a[1..], b);
    }
  }

  /** A piece of a string holds no more line breaks than the whole. */
  lemma NewlinesSlice(s: string, i: nat, j: nat)
    requires i <= j <= |s|
    ensures Newlines(s[i..j]) <= Newlines(s)
  {
    assert s == s[..i] + s[i..j] + s[j..];
    NewlinesConcat(s[..i] + s[i..j], s[j..]);
    NewlinesConcat(s[..i], s[i..j]);
  }

  /** A string without line breaks counts none. */
  lemma {:induction false} NewlinesAbsent(s: string)
    requires '\n' !in s
    ensures Newlines(s) == 0
    decreases |s|
  {
    if |s| > 0 {
      assert s[0] in s;
      assert forall t :: 0 <= t < |s| - 1 ==> s[1..][t] == s[t + 1];
      NewlinesAbsent(s[1..]);
    }
  }

  // ---------------------------------------------------------------------------
  // The white-space skeleton

  /** The characters of `s` that are not white space, in order. */
  function Solid(s: string): string
    decreases |s|
  {
    if |s| == 0 then "" else (if IsSpace(s[0]) then "" else [s[0]]) + Solid(s[1..])
  }

  lemma {:induction false} SolidConcat(a: string, b: string)
    ensures Solid(a + b) == Solid(a) + Solid(b)
    decreases |a|
  {
    if |a| == 0 {
      assert a + b == b;
    } else {
      assert (a + b)[0] == a[0];
      assert (a + b)[1..] == a[1..] + b;
      SolidConcat(a[1..], b);
    }
  }

  lemma {:induction false} SolidOfSpace(s: string)
    requires AllSpace(s)
    ensures Solid(s) == ""
    decreases |s|
  {
    if |s| > 0 {
      assert forall t :: 0 <= t < |s| - 1 ==> s[1..][t] == s[t + 1];
      SolidOfSpace(s[1..]);
    }
  }

  /** A character that is not white space occurs in `s` exactly when it
      occurs in its skeleton. */
  lemma {:induction false} SolidHas(s: string, c: char)
    requires !IsSpace(c)
    ensures c in s <==> c in Solid(s)
    decreases |s|
  {
    if |s| > 0 {
      assert s == [s[0]] + s[1..];
      SolidHas(s[1..], c);
    }
  }

  // ---------------------------------------------------------------------------
  // Blank-line runs

  /** No white-space stretch holds three line breaks: the pattern
      `\n\s*\n\s*\n` finds nothing. */
  predicate NoTriple(t: string) {
    forall i, j :: 0 <= i <= j <= |t| && AllSpace(t[i..j]) ==> Newlines(t[i..j]) <= 2
  }

  /** A white-space string with at most two line breaks has no triple. */
  lemma NoTripleOfRun(r: string)
    requires AllSpace(r) && Newlines(r) <= 2
    ensures NoTriple(r)
  {
    forall i, j | 0 <= i <= j <= |r| ensures Newlines(r[i..j]) <= 2 {
      NewlinesSlice(r, i, j);
    }
  }

  /** Gluing two strings without a triple creates none when a character
      that is not white space sits at the seam. */
  lemma NoTripleConcat(a: string, b: string)
    requires NoTriple(a) && NoTriple(b)
    requires (|a| > 0 && !IsSpace(a[|a| - 1])) || |b| == 0 || !IsSpace(b[0])
    ensures NoTriple(a + b)
  {
    var t := a + b;
    forall i, j | 0 <= i <= j <= |t| && AllSpace(t[i..j]) ensures Newlines(t[i..j]) <= 2 {
      if j <= |a| {
        SliceOfLeft(a, b, i, j);
      } else if |a| <= i {
        SliceOfRight(a, b, i, j);
      } else {
        SeamNotSpace(a, b, i, j);
      }
    }
  }

  /** A stretch across the seam holds the character on either side of it. */
  lemma SeamNotSpace(a: string, b: string, i: nat, j: nat)
    requires i < |a| < j <= |a| + |b|
    requires (|a| > 0 && !IsSpace(a[|a| - 1])) || |b| == 0 || !IsSpace(b[0])
    ensures !AllSpace((a + b)[i..j])
  {
    var u := (a + b)[i..j];
    assert u[|a| - i] == b[0];
    assert u[|a| - 1 - i] == a[|a| - 1];
  }

  lemma SliceOfLeft(a: string, b: string, i: nat, j: nat)
    requires i <= j <= |a|
    ensures (a + b)[i..j] == a[i..j]
  {
    var u, v := (a + b)[i..j], a[i..j];
    assert forall k :: 0 <= k < j - i ==> u[k] == v[k];
  }

  lemma SliceOfRight(a: string, b: string, i: nat, j: nat)
    requires |a| <= i <= j <= |a| + |b|
    ensures (a + b)[i..j] == b[i - |a|..j - |a|]
  {
    var u, v := (a + b)[i..j], b[i - |a|..j - |a|];
    assert forall k :: 0 <= k < j - i ==> u[k] == v[k];
  }

  /** A piece of a string without a triple has none. */
  lemma NoTripleSlice(t: string, i: nat, j: nat)
    requires NoTriple(t) && i <= j <= |t|
    ensures NoTriple(t[i..j])
  {
    forall a, b | 0 <= a <= b <= j - i ensures t[i..j][a..b] == t[i + a..i + b] {
      assert forall k :: 0 <= k < b - a ==> t[i..j][a..b][k] == t[i + a..i + b][k];
    }
  }

  /** One maximal white-space run, rewritten the way the regex rewrites it:
      with three or more line breaks, everything from the first line break
      to the last becomes two line breaks; otherwise the run stays. */
  function CollapseRun(run: string): (r: string)
    requires AllSpace(run)
    ensures AllSpace(r) && Newlines(r) <= 2
    ensures Newlines(run) <= 2 ==> r == run
    ensures Newlines(run) > 2 ==> Newlines(r) == 2
    ensures Newlines(run) > 2 ==>
      exists f, l :: 0 <= f <= l < |run| && run[f] == '\n' && run[l] == '\n'
        && '\n' !in run[..f] && '\n' !in run[l + 1..] && r == run[..f] + "\n\n" + run[l + 1..]
  {
    if Newlines(run) <= 2 then run
    else
      assert '\n' in run by { if '\n' !in run { NewlinesAbsent(run); } }
      var f := FirstOf(run, '\n').value;
      var l := LastOf(run, '\n').value;
      assert f <= l by { BetweenFirstAndLast(run, '\n', l); }
      var before, after := run[..f], run[l + 1..];
      var r := before + "\n\n" + after;
      assert 0 <= f <= l < |run| && run[f] == '\n' && run[l] == '\n';
      assert '\n' !in before && '\n' !in after;
      assert AllSpace(before) && AllSpace(after) && AllSpace("\n\n");
      AllSpaceConcat(before, "\n\n");
      AllSpaceConcat(before + "\n\n", after);
      NewlinesAbsent(run[..f]);
      NewlinesAbsent(run[l + 1..]);
      NewlinesConcat(run[..f] + "\n\n", run[l + 1..]);
      NewlinesConcat(run[..f], "\n\n");
      r
  }

  /** `.replace(/\n\s*\n\s*\n/g, '\n\n')`. A match can only start at a line
      break, spans white space only, and its greedy `\s*` reach the last
      line break of the run, so the rewrite works run by run. */
  function Collapse(s: string): (r: string)
    ensures NoTriple(r)
    ensures Solid(r) == Solid(s)
    ensures |s| > 0 && !IsSpace(s[0]) ==> |r| > 0 && r[0] == s[0]
    decreases |s|
  {
    if |s| == 0 then ""
    else if IsSpace(s[0]) then
      var n := SpaceSpan(s);
      var head := CollapseRun(s[..n]);
      var tail := Collapse(s[n..]);
      NoTripleOfRun(head);
      NoTripleConcat(head, tail);
      assert s == s[..n] + s[n..];
      SolidConcat(s[..n], s[n..]);
      SolidConcat(head, tail);
      SolidOfSpace(s[..n]);
      SolidOfSpace(head);
      head + tail
    else
      var tail := Collapse(s[1..]);
      NoTripleOfRun("");
      assert NoTriple([s[0]]) by {
        forall i, j | 0 <= i <= j <= 1 && AllSpace([s[0]][i..j]) ensures Newlines([s[0]][i..j]) <= 2 {
          assert |[s[0]][i..j]| <= 1;
        }
      }
      NoTripleConcat([s[0]], tail);
      assert s == [s[0]] + s[1..];
      SolidConcat([s[0]], s[1..]);
      SolidConcat([s[0]], tail);
      [s[0]] + tail
  }

  /** The rewrite works run by run: a white-space run between two
      characters that are not white space is collapsed on its own, and the
      text on either side is rewritten as if the run were not there. */
  lemma {:induction false} CollapseSplit(a: string, w: string, b: string)
    requires AllSpace(w)
    requires |a| == 0 || !IsSpace(a[|a| - 1])
    requires |b| == 0 || !IsSpace(b[0])
    ensures Collapse(a + w + b) == Collapse(a) + CollapseRun(w) + Collapse(b)
    decreases |a|, 1
  {
    if |a| == 0 {
      CollapseSplitFront(w, b);
      ConcatEmpty(a, w);
      ConcatEmpty(Collapse(a), CollapseRun(w));
    } else if IsSpace(a[0]) {
      CollapseSplitRun(a, w, b);
    } else {
      CollapseSplitSolid(a, w, b);
    }
  }

  /** The case of `CollapseSplit` with nothing before the run. */
  lemma CollapseSplitFront(w: string, b: string)
    requires AllSpace(w)
    requires |b| == 0 || !IsSpace(b[0])
    ensures Collapse(w + b) == CollapseRun(w) + Collapse(b)
  {
    if |w| == 0 {
      assert w + b == b;
      assert CollapseRun(w) == "";
    } else {
      assert (w + b)[..|w|] == w;
      assert (w + b)[|w|..] == b;
      CollapseSpaceStep(w + b, |w|);
    }
  }

  /** The case of `CollapseSplit` where `a` starts with white space. */
  lemma {:induction false} CollapseSplitRun(a: string, w: string, b: string)
    requires AllSpace(w) && |a| > 0 && IsSpace(a[0]) && !IsSpace(a[|a| - 1])
    requires |b| == 0 || !IsSpace(b[0])
    ensures Collapse(a + w + b) == Collapse(a) + CollapseRun(w) + Collapse(b)
    decreases |a|, 0
  {
    var m := SpaceSpan(a);
    var rest := a[m..];
    SpaceSpanStops(a);
    assert rest[|rest| - 1] == a[|a| - 1];
    CollapseSplit(rest, w, b);
    ShiftRun(a, w + b, m);
    ConcatAssoc(a, w, b);
    ConcatAssoc(rest, w, b);
    ConcatAssoc4(CollapseRun(a[..m]), Collapse(rest), CollapseRun(w), Collapse(b));
  }

  /** The case of `CollapseSplit` where `a` starts with another character. */
  lemma {:induction false} CollapseSplitSolid(a: string, w: string, b: string)
    requires AllSpace(w) && |a| > 0 && !IsSpace(a[0]) && !IsSpace(a[|a| - 1])
    requires |b| == 0 || !IsSpace(b[0])
    ensures Collapse(a + w + b) == Collapse(a) + CollapseRun(w) + Collapse(b)
    decreases |a|, 0
  {
    var rest := a[1..];
    assert |rest| == 0 || rest[|rest| - 1] == a[|a| - 1];
    CollapseSplit(rest, w, b);
    ShiftSolid(a, w + b);
    ConcatAssoc(a, w, b);
    ConcatAssoc(rest, w, b);
    ConcatAssoc4([a[0]], Collapse(rest), CollapseRun(w), Collapse(b));
  }

  /** A leading run found in `a` is the leading run of `a + t`. */
  lemma ShiftRun(a: string, t: string, m: nat)
    requires 0 < m < |a| && AllSpace(a[..m]) && !IsSpace(a[m])
    ensures Collapse(a + t) == CollapseRun(a[..m]) + Collapse(a[m..] + t)
    ensures Collapse(a) == CollapseRun(a[..m]) + Collapse(a[m..])
  {
    var s := a + t;
    assert s[..m] == a[..m];
    assert s[m] == a[m];
    assert s[m..] == a[m..] + t;
    CollapseSpaceStep(s, m);
    CollapseSpaceStep(a, m);
  }

  /** A leading character of `a` that is not white space leads `a + t`. */
  lemma ShiftSolid(a: string, t: string)
    requires |a| > 0 && !IsSpace(a[0])
    ensures Collapse(a + t) == [a[0]] + Collapse(a[1..] + t)
    ensures Collapse(a) == [a[0]] + Collapse(a[1..])
  {
    var s := a + t;
    assert s[0] == a[0];
    assert s[1..] == a[1..] + t;
    CollapseSolidStep(s);
    CollapseSolidStep(a);
  }

  /** A leading white-space run of length `m` is collapsed on its own. */
  lemma CollapseSpaceStep(s: string, m: nat)
    requires 0 < m <= |s| && AllSpace(s[..m]) && (m < |s| ==> !IsSpace(s[m]))
    ensures Collapse(s) == CollapseRun(s[..m]) + Collapse(s[m..])
  {
    assert IsSpace(s[..m][0]);
    SpaceSpanExact(s, m);
  }

  /** A leading character that is not white space is copied. */
  lemma CollapseSolidStep(s: string)
    requires |s| > 0 && !IsSpace(s[0])
    ensures Collapse(s) == [s[0]] + Collapse(s[1..])
  {
  }

  // ---------------------------------------------------------------------------
  // The chain

  /** The four removals: `**`, then `*`, then `- `, then every run of `#`
      (removing each run of `#` is removing each `#`). */
  function StripMarks(s: string): (r: string)
    ensures '*' !in r && '#' !in r
  {
    var bold := ReplaceAll(s, "**", "");
    var emphasis := ReplaceAll(bold, "*", "");
    ReplaceCharRemoves(bold, '*', "");
    var dashes := ReplaceAll(emphasis, "- ", "");
    ReplaceAllKeepsOut(emphasis, "- ", "", '*');
    var hashes := ReplaceAll(dashes, "#", "");
    ReplaceCharRemoves(dashes, '#', "");
    ReplaceAllKeepsOut(dashes, "#", "", '*');
    hashes
  }

  /** A text without marks is left as it is. */
  lemma StripMarksPlain(s: string)
    requires '*' !in s && '#' !in s && !Contains(s, "- ")
    ensures StripMarks(s) == s
  {
    assert !Contains(s, "**") by { if Contains(s, "**") { ContainsFirstChar(s, "**"); } }
    ReplaceAllAbsent(s, "**", "");
    AbsentChar(s, '*');
    ReplaceAllAbsent(s, "*", "");
    ReplaceAllAbsent(s, "- ", "");
    AbsentChar(s, '#');
    ReplaceAllAbsent(s, "#", "");
  }

  /** A list dash at the front is removed and the rest is stripped as it
      would be on its own. */
  lemma StripMarksDash(t: string)
    ensures StripMarks("- " + t) == StripMarks(t)
  {
    var bold := ReplaceAll(t, "**", "");
    var emphasis := ReplaceAll(bold, "*", "");
    assert "- " + t == ['-'] + ([' '] + t);
    assert "- " + bold == ['-'] + ([' '] + bold);
    assert "- " + emphasis == ['-'] + ([' '] + emphasis);
    ReplaceAllSkip('-', [' '] + t, "**", "");
    ReplaceAllSkip(' ', t, "**", "");
    assert ReplaceAll("- " + t, "**", "") == "- " + bold;
    ReplaceAllSkip('-', [' '] + bold, "*", "");
    ReplaceAllSkip(' ', bold, "*", "");
    assert ReplaceAll("- " + bold, "*", "") == "- " + emphasis;
    ReplaceAllHead("- ", emphasis, "");
    assert "" + ReplaceAll(emphasis, "- ", "") == ReplaceAll(emphasis, "- ", "");
  }

  /** A heading mark at the front is removed and the rest is stripped as it
      would be on its own. */
  lemma StripMarksHeading(t: string)
    ensures StripMarks("#" + t) == StripMarks(t)
  {
    var bold := ReplaceAll(t, "**", "");
    var emphasis := ReplaceAll(bold, "*", "");
    var dashes := ReplaceAll(emphasis, "- ", "");
    assert "#" + t == ['#'] + t;
    ReplaceAllSkip('#', t, "**", "");
    ReplaceAllSkip('#', bold, "*", "");
    ReplaceAllSkip('#', emphasis, "- ", "");
    ReplaceAllHead("#", dashes, "");
    assert "" + ReplaceAll(dashes, "#", "") == ReplaceAll(dashes, "#", "");
  }

  /** Cutting white space off both ends leaves the skeleton as it is. */
  lemma SolidInner(t: string, i: nat, j: nat)
    requires i <= j <= |t| && AllSpace(t[..i]) && AllSpace(t[j..])
    ensures Solid(t[i..j]) == Solid(t)
  {
    var a, m, b := t[..i], t[i..j], t[j..];
    assert t == a + t[i..];
    assert t[i..] == m + b;
    ConcatAssoc(a, m, b);
    SolidConcat(a + m, b);
    SolidConcat(a, m);
    SolidOfSpace(a);
    SolidOfSpace(b);
    assert Solid(t) == Solid(a) + Solid(m) + Solid(b);
  }

  /** Trimming keeps the absence of triples and touches only white space. */
  lemma TrimKeeps(t: string)
    requires NoTriple(t)
    ensures NoTriple(Trim(t)) && Solid(Trim(t)) == Solid(t)
  {
    var i, j :| 0 <= i <= j <= |t| && Trim(t) == t[i..j] && AllSpace(t[..i]) && AllSpace(t[j..]);
    NoTripleSlice(t, i, j);
    SolidInner(t, i, j);
  }

  /** The cleaned text: no `*` and no `#`, no blank-line run longer than one
      blank line, no white space at either end, and nothing but white space
      changed after the marks are stripped. */
  function Clean(s: string): (r: string)
    ensures '*' !in r && '#' !in r
    ensures NoTriple(r)
    ensures |r| > 0 ==> !IsSpace(r[0]) && !IsSpace(r[|r| - 1])
    ensures Solid(r) == Solid(StripMarks(s))
  {
    var stripped := StripMarks(s);
    var collapsed := Collapse(stripped);
    TrimKeeps(collapsed);
    SolidHas(stripped, '*');
    SolidHas(stripped, '#');
    SolidHas(Trim(collapsed), '*');
    SolidHas(Trim(collapsed), '#');
    Trim(collapsed)
  }

  /** Cleaning twice is cleaning once for the blank lines: a cleaned text
      has no run for the regex to rewrite. */
  lemma {:induction false} CollapseKeeps(s: string)
    requires NoTriple(s)
    ensures Collapse(s) == s
    decreases |s|
  {
    if |s| > 0 {
      if IsSpace(s[0]) {
        var n := SpaceSpan(s);
        assert s[..n] == s[0..n];
        assert Newlines(s[..n]) <= 2;
        assert CollapseRun(s[..n]) == s[..n];
        assert s[n..] == s[n..|s|];
        NoTripleSlice(s, n, |s|);
        CollapseKeeps(s[n..]);
        assert s == s[..n] + s[n..];
      } else {
        assert s[1..] == s[1..|s|];
        NoTripleSlice(s, 1, |s|);
        CollapseKeeps(s[1..]);
        assert s == [s[0]] + s[1..];
      }
    }
  }

  /** A text the chain has nothing to do to: no marks, no dash followed by
      a space, no triple, and no white space at either end. */
  predicate Tidy(t: string) {
    && '*' !in t && '#' !in t && !Contains(t, "- ") && NoTriple(t)
    && (|t| > 0 ==> !IsSpace(t[0]) && !IsSpace(t[|t| - 1]))
  }

  /** The chain leaves a tidy text as it is. */
  lemma CleanKeeps(s: string)
    requires Tidy(s)
    ensures Clean(s) == s
  {
    StripMarksPlain(s);
    CollapseKeeps(s);
    TrimOfTrimmed(s);
  }

  /** The chain on two tidy texts with white space between them: the text on
      either side is kept and the white space is collapsed as one run. */
  lemma CleanJoins(x: string, w: string, y: string)
    requires Tidy(x) && Tidy(y) && |x| > 0 && |y| > 0 && AllSpace(w)
    requires !Contains(x + w + y, "- ")
    ensures Clean(x + w + y) == x + CollapseRun(w) + y
  {
    var s := x + w + y;
    assert '*' !in s && '#' !in s by {
      assert forall k :: 0 <= k < |s| ==> s[k] in x || s[k] in w || s[k] in y;
      assert '*' !in w && '#' !in w by {
        assert forall k :: 0 <= k < |w| ==> IsSpace(w[k]);
      }
    }
    StripMarksPlain(s);
    CollapseSplit(x, w, y);
    CollapseKeeps(x);
    CollapseKeeps(y);
    var c := x + CollapseRun(w) + y;
    assert c[0] == x[0] && c[|c| - 1] == y[|y| - 1];
    TrimOfTrimmed(c);
  }
}
