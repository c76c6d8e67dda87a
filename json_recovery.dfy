// Recovering a JSON object from the prose a vision model answers with:
// strip the Markdown code fences, keep the span from the first `{` to the
// last `}`, and drop `//` and `/* … */` comments before parsing.
module JsonRecovery {
  import opened Wrappers
  import opened Text
  import Json

  const JSON_FENCE := "```json"
  const FENCE := "```"
  const NO_JSON := "未找到有效的JSON格式"

  // ---------------------------------------------------------------------------
  // Code fences

  // `s.replace(/<f>\s*/g, '')`: every occurrence of `f`, found left to
  // right, is removed together with the white space that follows it.
  function StripFence(s: string, f: string): string
    requires |f| > 0
    decreases |s|
  {
    if |s| == 0 then ""
    else if f <= s then
      var rest := s[|f|..];
      StripFence(rest[SpaceSpan(rest)..], f)
    else [s[0]] + StripFence(s[1..], f)
  }

  /** Both fence removals, the `json`-tagged one first. */
  function StripFences(s: string): string {
    StripFence(StripFence(s, JSON_FENCE), FENCE)
  }

  /** A text without the fence is left as it is. */
  lemma {:induction false} StripFenceAbsent(s: string, f: string)
    requires |f| > 0 && !Contains(s, f)
    ensures StripFence(s, f) == s
    decreases |s|
  {
    if |s| > 0 {
      StripFenceAbsent(s[1..], f);
    }
  }

  /** A fence is removed with the white space after it, and the rest is
      stripped as it would be on its own. */
  lemma StripFenceHead(f: string, w: string, t: string)
    requires |f| > 0 && AllSpace(w) && (|t| == 0 || !IsSpace(t[0]))
    ensures StripFence(f + w + t, f) == StripFence(t, f)
  {
    var s := f + w + t;
    assert f <= s;
    var rest := s[|f|..];
    assert rest == w + t;
    assert rest[..|w|] == w;
    SpaceSpanExact(rest, |w|);
    assert rest[|w|..] == t;
  }

  /** A text in which the fence's first character does not occur passes
      through unchanged. */
  lemma {:induction false} StripFenceKeeps(a: string, b: string, f: string)
    requires |f| > 0 && f[0] !in a
    ensures StripFence(a + b, f) == a + StripFence(b, f)
    decreases |a|
  {
    if |a| == 0 {
      assert a + b == b;
    } else {
      var s := a + b;
      assert s[0] == a[0] && a[0] in a;
      assert !(f <= s);
      assert s[1..] == a[1..] + b;
      assert f[0] !in a[1..] by { assert forall k :: 0 <= k < |a| - 1 ==> a[1..][k] == a[k + 1]; }
      StripFenceKeeps(a[1..], b, f);
      ConcatAssoc([a[0]], a[1..], StripFence(b, f));
      assert [a[0]] + a[1..] == a;
    }
  }

  /** A stripped text that begins with a backtick comes from a text that
      begins with one. */
  lemma StripTickHead(u: string)
    ensures |StripFence(u, FENCE)| > 0 && StripFence(u, FENCE)[0] == '`' ==> |u| > 0 && u[0] == '`'
  {
    if |u| > 0 && FENCE <= u {
      assert u[0] == FENCE[0];
    }
  }

  /** A stripped text that begins with two backticks comes from a text that
      begins with two. */
  lemma StripTwoTicksHead(t: string)
    ensures |StripFence(t, FENCE)| >= 2 && StripFence(t, FENCE)[..2] == "``" ==> |t| >= 2 && t[..2] == "``"
  {
    if FENCE <= t {
      assert t[..2] == FENCE[..2];
    } else if |t| > 0 {
      var r := StripFence(t[1..], FENCE);
      assert StripFence(t, FENCE) == [t[0]] + r;
      StripTickHead(t[1..]);
      assert |t| >= 2 ==> t[..2] == [t[0], t[1..][0]];
    }
  }

  /** After the second removal no fence is left anywhere: the removal never
      glues leftover backticks back into a fence. */
  lemma {:induction false} NoFenceLeft(s: string)
    ensures !Contains(StripFence(s, FENCE), FENCE)
    decreases |s|
  {
    if |s| == 0 {
    } else if FENCE <= s {
      var rest := s[|FENCE|..];
      NoFenceLeft(rest[SpaceSpan(rest)..]);
    } else {
      var r := StripFence(s[1..], FENCE);
      NoFenceLeft(s[1..]);
      StripTwoTicksHead(s[1..]);
      assert ([s[0]] + r)[1..] == r;
      assert |s| >= 3 ==> s[..3] == [s[0]] + s[1..][..2];
      assert |r| >= 2 ==> ([s[0]] + r)[..3] == [s[0]] + r[..2];
    }
  }

  /** The fully stripped text holds no fence. */
  lemma StripFencesComplete(s: string)
    ensures !Contains(StripFences(s), FENCE)
  {
    NoFenceLeft(StripFence(s, JSON_FENCE));
  }

  /** The usual answer: an object in a `json` code block comes out as the
      object and the line break before the closing fence. */
  lemma StripFencedBlock(o: string)
    requires |o| > 0 && o[0] == '{' && '`' !in o
    ensures StripFences("```json\n" + o + "\n```") == o + "\n"
  {
    var text := "```json\n" + o + "\n```";
    assert text == JSON_FENCE + "\n" + (o + "\n```");
    StripFenceHead(JSON_FENCE, "\n", o + "\n```");
    StripFenceKeeps(o + "\n", "```", JSON_FENCE);
    assert o + "\n```" == (o + "\n") + "```";
    assert StripFence("```", JSON_FENCE) == "```";
    assert StripFence(text, JSON_FENCE) == (o + "\n") + "```";
    StripFenceKeeps(o + "\n", "```", FENCE);
    assert StripFence("```", FENCE) == "";
  }

  // ---------------------------------------------------------------------------
  // The brace span

  /** `text.match(/\{[\s\S]*\}/)`: the greedy span from the first `{` to the
      last `}`, present exactly when some `{` comes before some `}`. */
  function BraceSpan(s: string): (r: Option<string>)
    ensures r.Some? <==> exists p, q :: 0 <= p < q < |s| && s[p] == '{' && s[q] == '}'
    ensures r.Some? ==> exists p, e :: 0 <= p < e <= |s| && r.value == s[p..e] && '{' !in s[..p] && '}' !in s[e..]
  {
    var p := FirstOf(s, '{');
    var q := LastOf(s, '}');
    assert forall a, b :: 0 <= a < b < |s| && s[a] == '{' && s[b] == '}' ==> p.Some? && q.Some? && p.value < q.value by {
      forall a, b | 0 <= a < b < |s| && s[a] == '{' && s[b] == '}' ensures p.Some? && q.Some? && p.value < q.value {
        BetweenFirstAndLast(s, '{', a);
        BetweenFirstAndLast(s, '}', b);
      }
    }
    if p.Some? && q.Some? && p.value < q.value then
      Some(s[p.value..q.value + 1])
    else
      None
  }

  /** The span begins with `{` and ends with `}`. */
  lemma BraceSpanEnds(s: string)
    requires BraceSpan(s).Some?
    ensures var r := BraceSpan(s).value; |r| >= 2 && r[0] == '{' && r[|r| - 1] == '}'
  {
    var p := FirstOf(s, '{').value;
    var q := LastOf(s, '}').value;
    assert BraceSpan(s).value == s[p..q + 1];
  }

  /** An object followed by a line break is its own span. */
  lemma BraceSpanOfObject(o: string)
    requires |o| >= 2 && o[0] == '{' && o[|o| - 1] == '}'
    ensures BraceSpan(o + "\n") == Some(o)
  {
    var s := o + "\n";
    assert s[0] == '{';
    assert FirstOf(s, '{') == Some(0);
    assert s[..|s| - 1] == o;
    assert LastOf(s, '}') == Some(|o| - 1);
    assert s[0..|o|] == o;
  }

  // ---------------------------------------------------------------------------
  // Comments

  /** The first index at or after `i` holding a line break, or the end. */
  function LineEnd(s: string, i: nat): (e: nat)
    requires i <= |s|
    ensures i <= e <= |s| && (e < |s| ==> s[e] == '\n' || s[e] == '\r')
    ensures forall t :: i <= t < e ==> s[t] != '\n' && s[t] != '\r'
    decreases |s| - i
  {
    if i == |s| || s[i] == '\n' || s[i] == '\r' then i else LineEnd(s, i + 1)
  }

  // `s.replace(/\/\/[^\n\r]*/g, '')`: every `//` is removed together
  // with the rest of its line, the line break itself kept.
  function RemoveLineComments(s: string): string
    decreases |s|
  {
    if |s| == 0 then ""
    else if "//" <= s then RemoveLineComments(s[LineEnd(s, 2)..])
    else [s[0]] + RemoveLineComments(s[1..])
  }

  /** A text that begins with a slash after the removal began with one
      before it. */
  lemma LineSlashHead(u: string)
    ensures |RemoveLineComments(u)| > 0 && RemoveLineComments(u)[0] == '/' ==> |u| > 0 && u[0] == '/'
  {
    if |u| > 0 && "//" <= u {
      var e := LineEnd(u, 2);
      var v := u[e..];
      assert |v| > 0 ==> v[0] == u[e];
      assert |v| > 0 ==> RemoveLineComments(v) == [v[0]] + RemoveLineComments(v[1..]);
    }
  }

  /** After the removal no `//` is left. */
  lemma {:induction false} NoLineCommentLeft(s: string)
    ensures !Contains(RemoveLineComments(s), "//")
    decreases |s|
  {
    if |s| == 0 {
    } else if "//" <= s {
      NoLineCommentLeft(s[LineEnd(s, 2)..]);
    } else {
      var r := RemoveLineComments(s[1..]);
      NoLineCommentLeft(s[1..]);
      LineSlashHead(s[1..]);
      assert ([s[0]] + r)[1..] == r;
      assert |s| >= 2 ==> s[..2] == [s[0], s[1..][0]];
      assert |r| >= 1 ==> ([s[0]] + r)[..2] == [s[0], r[0]];
    }
  }

  /** A text without `//` is left as it is. */
  lemma {:induction false} NoLineCommentNoChange(s: string)
    requires !Contains(s, "//")
    ensures RemoveLineComments(s) == s
    decreases |s|
  {
    if |s| > 0 {
      NoLineCommentNoChange(s[1..]);
    }
  }

  /** A comment runs to the end of its line and no further. */
  lemma LineCommentToEnd(a: string, b: string)
    requires '\n' !in a && '\r' !in a
    ensures RemoveLineComments("//" + a + "\n" + b) == "\n" + RemoveLineComments(b)
  {
    var s := "//" + a + "\n" + b;
    assert forall t :: 2 <= t < 2 + |a| ==> s[t] == a[t - 2];
    assert s[2 + |a|] == '\n';
    assert LineEnd(s, 2) == 2 + |a|;
    assert s[2 + |a|..] == "\n" + b;
    assert ("\n" + b)[1..] == b;
  }

  // `s.replace(/\/\*[\s\S]*?\*\//g, '')`: every `/*` that has a `*/`
  // after it is removed up to and including the FIRST such `*/`; a `/*`
  // without one is kept.
  function RemoveBlockComments(s: string): string
    decreases |s|
  {
    if |s| == 0 then ""
    else if "/*" <= s && IndexOf(s[2..], "*/").Some? then
      RemoveBlockComments(s[2 + IndexOf(s[2..], "*/").value + 2..])
    else [s[0]] + RemoveBlockComments(s[1..])
  }

  // The match is lazy: a comment closes at the first `*/`, so the text after
  // it is not swallowed up to a later one.
  lemma BlockCommentLazy(a: string, b: string)
    requires !Contains(a, "*/")
    ensures RemoveBlockComments("/*" + a + "*/" + b) == RemoveBlockComments(b)
  {
    var s := "/*" + a + "*/" + b;
    var body := a + "*/" + b;
    assert s[2..] == body;
    FirstClose(a, b);
    assert s[2 + |a| + 2..] == b;
  }

  // The first `*/` after a text without one is the one that follows it.
  lemma FirstClose(a: string, b: string)
    requires !Contains(a, "*/")
    ensures IndexOf(a + "*/" + b, "*/") == Some(|a|)
  {
    var body := a + "*/" + b;
    assert OccursAt(body, "*/", |a|) by {
      var w := body[|a|..|a| + 2];
      assert w[0] == '*' && w[1] == '/';
    }
    forall j: nat | j < |a| ensures !OccursAt(body, "*/", j) {
      NoCloseBefore(a, b, j);
    }
  }

  // No `*/` starts inside a text without one, even where it touches the
  // `*/` that follows.
  lemma NoCloseBefore(a: string, b: string, j: nat)
    requires !Contains(a, "*/") && j < |a|
    ensures !OccursAt(a + "*/" + b, "*/", j)
  {
    var body := a + "*/" + b;
    if j + 1 < |a| {
      if OccursAt(body, "*/", j) {
        var x, y := a[j..j + 2], body[j..j + 2];
        assert x[0] == y[0] && x[1] == y[1];
        assert x == y;
        ContainsWitness(a, "*/", j);
      }
    } else {
      assert body[j + 1] == '*';
      if j + 2 <= |body| {
        assert body[j..j + 2][1] == body[j + 1];
      }
    }
  }

  /** What occurs in a suffix occurs in the whole. */
  lemma ContainsDrop(s: string, k: nat, p: string)
    requires k <= |s|
    ensures Contains(s[k..], p) ==> Contains(s, p)
  {
    ContainsIff(s[k..], p);
    ContainsIff(s, p);
    forall i: nat | OccursAt(s[k..], p, i) ensures OccursAt(s, p, k + i) {
      assert s[k + i..k + i + |p|] == s[k..][i..i + |p|];
    }
  }

  // Without any `*/` the text is left as it is.
  lemma {:induction false} NoBlockNoChange(s: string)
    requires !Contains(s, "*/")
    ensures RemoveBlockComments(s) == s
    decreases |s|
  {
    if |s| > 0 {
      if |s| >= 2 {
        ContainsDrop(s, 2, "*/");
        IndexOfContains(s[2..], "*/");
      }
      NoBlockNoChange(s[1..]);
    }
  }

  // Line comments go first: whatever a line comment holds, a `/*`
  // included, is gone before block comments are looked for.
  lemma LineCommentsFirst(a: string, b: string)
    requires '\n' !in a && '\r' !in a
    ensures
      RemoveBlockComments(RemoveLineComments("//" + a + "\n" + b))
      == "\n" + RemoveBlockComments(RemoveLineComments(b))
  {
    LineCommentToEnd(a, b);
    var u := RemoveLineComments(b);
    assert ("\n" + u)[0] == '\n';
    assert !("/*" <= "\n" + u);
    assert ("\n" + u)[1..] == u;
  }

  // ---------------------------------------------------------------------------
  // The pipeline

  /** The text handed to `JSON.parse`, or `None` when the stripped text has no
      brace span. */
  function Candidate(text: string): (r: Option<string>)
    ensures r.None? <==> BraceSpan(StripFences(text)).None?
    ensures r.Some? ==> r.value == RemoveBlockComments(RemoveLineComments(BraceSpan(StripFences(text)).value))
  {
    match BraceSpan(StripFences(text))
    case None => None
    case Some(span) => Some(RemoveBlockComments(RemoveLineComments(span)))
  }

  /** The recovered value, or the message of the error that sends the
      handler to its fallback: no span, or the parser's own complaint. */
  function Recover(text: string, parse: Json.Parser): (r: Result<Json.Value, string>)
    ensures Candidate(text).None? ==> r == Failure(NO_JSON)
    ensures Candidate(text).Some? ==> r == parse(Candidate(text).value)
  {
    match Candidate(text)
    case None => Failure(NO_JSON)
    case Some(c) => parse(c)
  }

  /** The round trip the recovery is for: an object without backticks and
      comment markers, sent back inside a `json` code block, reaches the
      parser exactly as it was. */
  lemma FencedObject(o: string, parse: Json.Parser)
    requires |o| >= 2 && o[0] == '{' && o[|o| - 1] == '}' && '`' !in o
    requires !Contains(o, "//") && !Contains(o, "*/")
    ensures Candidate("```json\n" + o + "\n```") == Some(o)
    ensures Recover("```json\n" + o + "\n```", parse) == parse(o)
  {
    StripFencedBlock(o);
    BraceSpanOfObject(o);
    NoLineCommentNoChange(o);
    NoBlockNoChange(o);
  }
}
