/** `extractSections` in `public/renderer.js`: the text after each bracketed
    section title, up to the next title (or, for the totals, a closing
    remark). */
module Sections {
  import opened Wrappers
  import opened Text

  const FOOD_MARK := "【食物识别】"
  const NUTRITION_MARK := "【营养分析】"
  const TOTAL_MARK := "【总计】"
  const OPEN_BRACKET := "【"
  const SUPPLEMENT := "补充说明"
  const FINAL_TOTAL := "最终总计"

  /** The stop words of the food and nutrition sections, and of the totals. */
  const SECTION_STOPS := [OPEN_BRACKET]
  const TOTAL_STOPS := [OPEN_BRACKET, SUPPLEMENT, FINAL_TOTAL]

  /** Some stop word starts at `j`. */
  predicate StopAt(s: string, stops: seq<string>, j: nat) {
    exists m :: 0 <= m < |stops| && OccursAt(s, stops[m], j)
  }

  /** Where the lazy `[\s\S]*?` before `(?=stop|$)` ends when it starts at
      `j`: the first index from `j` on where a stop word starts, or the end. */
  function StopFrom(s: string, stops: seq<string>, j: nat): (e: nat)
    requires j <= |s|
    ensures j <= e <= |s|
    ensures forall t :: j <= t < e ==> !StopAt(s, stops, t)
    ensures e == |s| || StopAt(s, stops, e)
    decreases |s| - j
  {
    if j == |s| || StopAt(s, stops, j) then j else StopFrom(s, stops, j + 1)
  }

  /** The group `text[p + |marker|..e]` is what the pattern captures: `p` is
      the first occurrence of the marker, no stop word starts inside the
      group, and a stop word or the end of the text follows it. */
  predicate CapturedAt(text: string, marker: string, stops: seq<string>, p: nat, e: nat) {
    && OccursAt(text, marker, p) && (forall q: nat :: q < p ==> !OccursAt(text, marker, q))
    && p + |marker| <= e <= |text|
    && (forall t :: p + |marker| <= t < e ==> !StopAt(text, stops, t))
    && (e == |text| || StopAt(text, stops, e))
  }

  /** `text.match(/<marker>([\s\S]*?)(?=<stops>|$)/)`, its captured group:
      absent without the marker, otherwise the captured piece. */
  function SectionMatch(text: string, marker: string, stops: seq<string>): (r: Option<string>)
    ensures r.None? <==> !Contains(text, marker)
    ensures r.Some? ==> exists p: nat, e: nat :: CapturedAt(text, marker, stops, p, e) && r.value == text[p + |marker|..e]
  {
    IndexOfContains(text, marker);
    match IndexOf(text, marker)
    case None => None
    case Some(p) =>
      var e := StopFrom(text, stops, p + |marker|);
      assert CapturedAt(text, marker, stops, p, e);
      Some(text[p + |marker|..e])
  }

  /** No stop word occurs in a stretch where none starts. */
  lemma NoStopInside(text: string, stops: seq<string>, d: nat, e: nat, m: nat)
    requires d <= e <= |text| && m < |stops| && |stops[m]| > 0
    requires forall t :: d <= t < e ==> !StopAt(text, stops, t)
    ensures !Contains(text[d..e], stops[m])
  {
    var r := text[d..e];
    var w := stops[m];
    forall i: nat | i + |w| <= |r| ensures !OccursAt(r, w, i) {
      var piece, whole := r[i..i + |w|], text[d + i..d + i + |w|];
      assert forall k :: 0 <= k < |w| ==> piece[k] == whole[k];
      assert piece == whole;
      assert !StopAt(text, stops, d + i);
    }
    ContainsIff(r, w);
  }

  /** No stop word occurs inside a captured section. */
  lemma SectionStops(text: string, marker: string, stops: seq<string>, m: nat)
    requires m < |stops| && |stops[m]| > 0
    requires SectionMatch(text, marker, stops).Some?
    ensures !Contains(SectionMatch(text, marker, stops).value, stops[m])
  {
    var r := SectionMatch(text, marker, stops).value;
    var p: nat, e: nat :| CapturedAt(text, marker, stops, p, e) && r == text[p + |marker|..e];
    NoStopInside(text, stops, p + |marker|, e, m);
  }

  /** `sections`: each field `null` until its pattern matches, then the
      trimmed captured group. */
  datatype Sections = Sections(foods: Option<string>, nutrition: Option<string>, total: Option<string>)

  /** The three sections of a text: each `null` without a match, otherwise
      the captured group trimmed (`match[1].trim()`). */
  function SectionsOf(text: string): Sections {
    var f := SectionMatch(text, FOOD_MARK, SECTION_STOPS);
    var n := SectionMatch(text, NUTRITION_MARK, SECTION_STOPS);
    var t := SectionMatch(text, TOTAL_MARK, TOTAL_STOPS);
    Sections(
      if f.Some? then Some(Trim(f.value)) else None,
      if n.Some? then Some(Trim(n.value)) else None,
      if t.Some? then Some(Trim(t.value)) else None)
  }

  /** A section is shown when it is a non-empty string (JavaScript truthiness). */
  predicate Present(section: Option<string>) {
    section.Some? && section.value != ""
  }

  /** Filling the `sections` object field by field. */
  method ExtractSections(text: string) returns (sections: Sections)
    ensures sections == SectionsOf(text)
  {
    sections := Sections(None, None, None);
    var foodMatch := SectionMatch(text, FOOD_MARK, SECTION_STOPS);
    if foodMatch.Some? {
      sections := sections.(foods := Some(Trim(foodMatch.value)));
    }
    var nutritionMatch := SectionMatch(text, NUTRITION_MARK, SECTION_STOPS);
    if nutritionMatch.Some? {
      sections := sections.(nutrition := Some(Trim(nutritionMatch.value)));
    }
    var totalMatch := SectionMatch(text, TOTAL_MARK, TOTAL_STOPS);
    if totalMatch.Some? {
      sections := sections.(total := Some(Trim(totalMatch.value)));
    }
  }

  /** A trimmed section is a piece of the captured one, so it holds no stop
      word either: the food and nutrition sections never contain `【`, the
      totals never contain `【`, `补充说明` or `最终总计`. */
  lemma SectionsClean(text: string)
    ensures var s := SectionsOf(text);
      && (s.foods.Some? ==> !Contains(s.foods.value, OPEN_BRACKET))
      && (s.nutrition.Some? ==> !Contains(s.nutrition.value, OPEN_BRACKET))
      && (s.total.Some? ==>
            !Contains(s.total.value, OPEN_BRACKET) && !Contains(s.total.value, SUPPLEMENT) && !Contains(s.total.value, FINAL_TOTAL))
  {
    var f := SectionMatch(text, FOOD_MARK, SECTION_STOPS);
    var n := SectionMatch(text, NUTRITION_MARK, SECTION_STOPS);
    var t := SectionMatch(text, TOTAL_MARK, TOTAL_STOPS);
    if f.Some? {
      SectionStops(text, FOOD_MARK, SECTION_STOPS, 0);
      TrimKeepsOut(f.value, OPEN_BRACKET);
    }
    if n.Some? {
      SectionStops(text, NUTRITION_MARK, SECTION_STOPS, 0);
      TrimKeepsOut(n.value, OPEN_BRACKET);
    }
    if t.Some? {
      SectionStops(text, TOTAL_MARK, TOTAL_STOPS, 0);
      SectionStops(text, TOTAL_MARK, TOTAL_STOPS, 1);
      SectionStops(text, TOTAL_MARK, TOTAL_STOPS, 2);
      TrimKeepsOut(t.value, OPEN_BRACKET);
      TrimKeepsOut(t.value, SUPPLEMENT);
      TrimKeepsOut(t.value, FINAL_TOTAL);
    }
  }

  /** Trimming cannot create an occurrence. */
  lemma TrimKeepsOut(s: string, w: string)
    requires !Contains(s, w)
    ensures !Contains(Trim(s), w)
  {
    var i, j :| 0 <= i <= j <= |s| && Trim(s) == s[i..j] && AllSpace(s[..i]) && AllSpace(s[j..]);
    assert s == s[..i] + s[i..j] + s[j..];
    if Contains(s[i..j], w) {
      ContainsPrepend(s[..i], s[i..j], w);
      ContainsAppend(s[..i] + s[i..j], s[j..], w);
    }
  }
}
