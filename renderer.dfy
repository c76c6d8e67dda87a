/** The result formatter of `public/renderer.js`: the model's answer becomes
    a placeholder, a "no food" card, up to three section blocks, or a list
    of classified lines. HTML markup and styles are left out: each `<div>`
    is an `Entry` holding its icon and text. */
module Renderer {
  import opened Wrappers
  import opened Text
  import opened Markdown
  import opened Sections

  const FIRE_ICON := "🔥"
  const DRINK_ICON := "🥤"
  const DISH_ICON := "🍽️"
  const STEW_ICON := "🥘"
  const BOLT_ICON := "⚡"
  const NOTE_ICON := "📋"
  const NO_FOOD_INFO := "暂无食物识别信息"
  const NO_NUTRITION_INFO := "暂无营养分析信息"
  const NO_TOTAL_INFO := "暂无总计信息"
  const UNKNOWN := "未知"
  const NOT_RECOGNISED := "未识别到食物"
  const FORMAT_NOTE := "格式："

  /** The alternatives of the drink pattern. Its `i` flag changes nothing:
      none of them holds a letter. */
  const DRINKS := ["饮料", "酒", "茶", "咖啡", "水", "汽水", "果汁", "牛奶", "啤酒", "红酒", "白酒", "可乐", "雪碧", "矿泉水", "奶茶"]

  /** One `<div>`: an icon and a line, a bare line, the total headline, or a
      placeholder. */
  datatype Entry = Item(icon: string, text: string) | Plain(text: string) | Headline(calories: string) | Notice(text: string)

  /** One section block, with its title implied by the constructor. */
  datatype Block = FoodBlock(entries: seq<Entry>) | NutritionBlock(entries: seq<Entry>) | TotalBlock(entries: seq<Entry>)

  /** What `formatAnalysisResult` renders. */
  datatype View = EmptyView | NoFoodCard | Structured(blocks: seq<Block>) | Simple(entries: seq<Entry>)

  // ---------------------------------------------------------------------------
  // Lines

  /** Each part trimmed, the blank ones dropped, the order kept. */
  function TrimmedLines(parts: seq<string>): (r: seq<string>)
    ensures |r| <= |parts|
    ensures forall i :: 0 <= i < |r| ==> r[i] != "" && !IsSpace(r[i][0]) && !IsSpace(r[i][|r[i]| - 1])
    decreases |parts|
  {
    if |parts| == 0 then []
    else (if Trim(parts[0]) != "" then [Trim(parts[0])] else []) + TrimmedLines(parts[1..])
  }

  /** The filter works part by part, so the kept lines keep their order. */
  lemma {:induction false} TrimmedLinesAppend(a: seq<string>, b: seq<string>)
    ensures TrimmedLines(a + b) == TrimmedLines(a) + TrimmedLines(b)
    decreases |a|
  {
    if |a| == 0 {
      ConcatEmpty(a, b);
      ConcatEmpty(TrimmedLines(a), TrimmedLines(b));
    } else {
      assert (a + b)[0] == a[0];
      assert (a + b)[1..] == a[1..] + b;
      TrimmedLinesAppend(a[1..], b);
      var head := if Trim(a[0]) != "" then [Trim(a[0])] else [];
      ConcatAssoc(head, TrimmedLines(a[1..]), TrimmedLines(b));
    }
  }

  /** One part gives its trimmed form, or nothing when it is blank. */
  lemma TrimmedLinesOne(part: string)
    ensures TrimmedLines([part]) == (if AllSpace(part) then [] else [Trim(part)])
  {
    assert [part][1..] == [];
  }

  /** `content.split('\n').filter(line => line.trim() !== '')`, each line
      then trimmed by the loop. */
  function Lines(content: string): seq<string> {
    TrimmedLines(Split(content, '\n'))
  }

  predicate HasColon(line: string) {
    ':' in line || '：' in line
  }

  predicate IsDrink(line: string) {
    exists m :: 0 <= m < |DRINKS| && Contains(line, DRINKS[m])
  }

  /** A closing remark, skipped by the section formatters. */
  predicate Closing(line: string) {
    Contains(line, SUPPLEMENT) || Contains(line, FINAL_TOTAL)
  }

  /** `/^\d+\./`. */
  predicate Numbered(line: string) {
    var d := DigitEnd(line, 0);
    0 < d < |line| && line[d] == '.'
  }

  /** `line.replace(/^\d+\.\s*\/, '')` on a numbered line: the number, the
      dot and the white space after them removed. */
  function StripNumber(line: string): (r: string)
    requires Numbered(line)
    ensures |r| < |line| && r == line[|line| - |r|..]
    ensures r == "" || !IsSpace(r[0])
    ensures exists d :: 0 < d < |line| - |r| && DigitsIn(line, 0, d) && line[d] == '.' && SpacesIn(line, d + 1, |line| - |r|)
  {
    var d := DigitEnd(line, 0);
    var k := SpaceEnd(line, d + 1);
    assert |line| - |line[k..]| == k;
    line[k..]
  }

  // ---------------------------------------------------------------------------
  // Simple format

  /** One line of the simple format: `kcal` wins over a colon; a colon line
      gets the drink icon or the dish icon; any other line is bare. */
  function SimpleEntry(line: string): (e: Entry)
    ensures (e.Item? || e.Plain?) && e.text == line
    ensures e.Item? && e.icon == FIRE_ICON <==> Contains(line, "kcal")
    ensures e.Plain? <==> !Contains(line, "kcal") && !HasColon(line)
    ensures e.Item? && !Contains(line, "kcal") ==> e.icon == (if IsDrink(line) then DRINK_ICON else DISH_ICON)
  {
    if Contains(line, "kcal") then Item(FIRE_ICON, line)
    else if HasColon(line) then Item(if IsDrink(line) then DRINK_ICON else DISH_ICON, line)
    else Plain(line)
  }

  /** The entries of the simple format, one per line. */
  function SimpleEntries(lines: seq<string>): (r: seq<Entry>)
    ensures |r| == |lines| && forall i :: 0 <= i < |lines| ==> r[i] == SimpleEntry(lines[i])
  {
    seq(|lines|, i requires 0 <= i < |lines| => SimpleEntry(lines[i]))
  }

  /** `formatSimpleResult`: appends one entry per non-blank line. */
  method FormatSimpleResult(text: string) returns (entries: seq<Entry>)
    ensures entries == SimpleEntries(Lines(text))
  {
    var lines := Lines(text);
    entries := [];
    var i := 0;
    while i < |lines|
      invariant 0 <= i <= |lines| && |entries| == i
      invariant forall k :: 0 <= k < i ==> entries[k] == SimpleEntry(lines[k])
    {
      var line := lines[i];
      if Contains(line, "kcal") {
        entries := entries + [Item(FIRE_ICON, line)];
      } else if ':' in line || '：' in line {
        var icon := if IsDrink(line) then DRINK_ICON else DISH_ICON;
        entries := entries + [Item(icon, line)];
      } else {
        entries := entries + [Plain(line)];
      }
      i := i + 1;
    }
  }

  // ---------------------------------------------------------------------------
  // Food section

  /** One line of the food section: a colon line gets the drink or the stew
      icon; any other line is kept bare unless it is a closing remark or
      starts with a number. */
  function FoodEntry(line: string): (e: Option<Entry>)
    ensures HasColon(line) ==> e == Some(Item(if IsDrink(line) then DRINK_ICON else STEW_ICON, line))
    ensures !HasColon(line) ==> (e.Some? <==> !Closing(line) && !Numbered(line))
    ensures !HasColon(line) && e.Some? ==> e.value == Plain(line)
  {
    if HasColon(line) then Some(Item(if IsDrink(line) then DRINK_ICON else STEW_ICON, line))
    else if !Closing(line) && !Numbered(line) then Some(Plain(line))
    else None
  }

  function Listed(e: Option<Entry>): seq<Entry> {
    if e.Some? then [e.value] else []
  }

  /** The entries of the kept lines, in order. */
  function FoodEntries(lines: seq<string>): seq<Entry>
    decreases |lines|
  {
    if |lines| == 0 then []
    else FoodEntries(lines[..|lines| - 1]) + Listed(FoodEntry(lines[|lines| - 1]))
  }

  /** An entry is listed exactly when some line produces it. */
  lemma {:induction false} FoodEntriesFilter(lines: seq<string>, e: Entry)
    ensures e in FoodEntries(lines) <==> exists i :: 0 <= i < |lines| && FoodEntry(lines[i]) == Some(e)
    decreases |lines|
  {
    if |lines| > 0 {
      var init := lines[..|lines| - 1];
      FoodEntriesFilter(init, e);
      assert forall i :: 0 <= i < |init| ==> init[i] == lines[i];
      if FoodEntry(lines[|lines| - 1]) == Some(e) {
        assert e in Listed(FoodEntry(lines[|lines| - 1]));
      }
    }
  }

  /** The entries are made line by line: those of `a + b` are those of `a`
      followed by those of `b`. */
  lemma {:induction false} FoodEntriesAppend(a: seq<string>, b: seq<string>)
    ensures FoodEntries(a + b) == FoodEntries(a) + FoodEntries(b)
    decreases |b|
  {
    if |b| == 0 {
      assert a + b == a;
    } else {
      var n := |b| - 1;
      FoodEntriesAppend(a, b[..n]);
      assert (a + b)[..|a + b| - 1] == a + b[..n];
      assert (a + b)[|a + b| - 1] == b[n];
      ConcatAssoc(FoodEntries(a), FoodEntries(b[..n]), Listed(FoodEntry(b[n])));
    }
  }

  /** One line gives its entry, or nothing when it is not kept. */
  lemma FoodEntriesOne(line: string)
    ensures FoodEntries([line]) == Listed(FoodEntry(line))
  {
    assert [line][..0] == [];
  }

  /** `formatFoodItems`, placeholder included. */
  function FoodItems(content: string): (r: seq<Entry>)
    ensures |r| > 0
    ensures var lines := Lines(content);
      (forall i :: 0 <= i < |lines| ==> FoodEntry(lines[i]).None?) <==> r == [Notice(NO_FOOD_INFO)]
    ensures var lines := Lines(content);
      r != [Notice(NO_FOOD_INFO)] ==> forall e :: e in r <==> exists i :: 0 <= i < |lines| && FoodEntry(lines[i]) == Some(e)
    ensures r != [Notice(NO_FOOD_INFO)] ==> r == FoodEntries(Lines(content))
  {
    var lines := Lines(content);
    var entries := FoodEntries(lines);
    FoodEntriesNone(lines);
    FoodEntriesFilter(lines, Notice(NO_FOOD_INFO));
    assert entries == [Notice(NO_FOOD_INFO)] ==> Notice(NO_FOOD_INFO) in entries;
    assert forall e :: e in entries <==> exists i :: 0 <= i < |lines| && FoodEntry(lines[i]) == Some(e) by {
      forall e { FoodEntriesFilter(lines, e); }
    }
    if entries == [] then [Notice(NO_FOOD_INFO)] else entries
  }

  /** No entry at all exactly when no line is kept. */
  lemma {:induction false} FoodEntriesNone(lines: seq<string>)
    ensures FoodEntries(lines) == [] <==> forall i :: 0 <= i < |lines| ==> FoodEntry(lines[i]).None?
    decreases |lines|
  {
    if |lines| > 0 {
      var init := lines[..|lines| - 1];
      FoodEntriesNone(init);
      assert forall i :: 0 <= i < |init| ==> init[i] == lines[i];
    }
  }

  /** `formatFoodItems`: appends an entry for each kept line. */
  method FormatFoodItems(content: string) returns (entries: seq<Entry>)
    ensures entries == FoodItems(content)
  {
    var lines := Lines(content);
    var result: seq<Entry> := [];
    var i := 0;
    while i < |lines|
      invariant 0 <= i <= |lines|
      invariant result == FoodEntries(lines[..i])
    {
      FoodEntriesNext(lines, i);
      result := FoodLine(result, lines[i]);
      i := i + 1;
    }
    assert lines[..i] == lines;
    entries := if result == [] then [Notice(NO_FOOD_INFO)] else result;
  }

  /** The loop body of `formatFoodItems` on one line. */
  method FoodLine(result: seq<Entry>, line: string) returns (r: seq<Entry>)
    ensures r == result + Listed(FoodEntry(line))
  {
    r := result;
    if ':' in line || '：' in line {
      var icon := if IsDrink(line) then DRINK_ICON else STEW_ICON;
      r := r + [Item(icon, line)];
    } else if !Contains(line, SUPPLEMENT) && !Contains(line, FINAL_TOTAL) && !Numbered(line) {
      r := r + [Plain(line)];
    }
  }

  /** One more line is one more step. */
  lemma FoodEntriesNext(lines: seq<string>, i: nat)
    requires i < |lines|
    ensures FoodEntries(lines[..i + 1]) == FoodEntries(lines[..i]) + Listed(FoodEntry(lines[i]))
  {
    assert lines[..i + 1][..i] == lines[..i];
  }

  // ---------------------------------------------------------------------------
  // Nutrition section

  /** The loop state of `formatNutritionItems`: the finished entries and
      the item being assembled. */
  datatype Pending = Pending(done: seq<Entry>, current: string)

  /** The entry for a finished item, if there is one. */
  function Flush(current: string): seq<Entry> {
    if current == "" then [] else [Item(if IsDrink(current) then DRINK_ICON else BOLT_ICON, current)]
  }

  predicate NutrientWord(line: string) {
    Contains(line, "kcal") || Contains(line, "蛋白质") || Contains(line, "碳水") || Contains(line, "脂肪")
  }

  /** One line of the nutrition section. A numbered line finishes the
      pending item and starts the next without its number; a nutrient line
      is appended with " - " (or starts the item); another line is appended
      with a space when an item is pending and it is not a format note. */
  function NutritionStep(acc: Pending, line: string): Pending {
    if Closing(line) then acc
    else if Numbered(line) then Pending(acc.done + Flush(acc.current), StripNumber(line))
    else if NutrientWord(line) then acc.(current := if acc.current != "" then acc.current + " - " + line else line)
    else if acc.current != "" && !Contains(line, FORMAT_NOTE) then acc.(current := acc.current + " " + line)
    else acc
  }

  /** The state after the lines, from `acc`. */
  function NutritionRun(acc: Pending, lines: seq<string>): Pending
    decreases |lines|
  {
    if |lines| == 0 then acc else NutritionStep(NutritionRun(acc, lines[..|lines| - 1]), lines[|lines| - 1])
  }

  /** The entries of a nutrition section: the finished items, then the
      pending one. */
  function NutritionEntries(lines: seq<string>): seq<Entry> {
    var acc := NutritionRun(Pending([], ""), lines);
    acc.done + Flush(acc.current)
  }

  /** A line that leaves an empty state empty: a closing remark, a bare
      number, or a line that is neither numbered nor about a nutrient. */
  predicate Silent(line: string) {
    || Closing(line)
    || (Numbered(line) && StripNumber(line) == "")
    || (!Numbered(line) && !NutrientWord(line))
  }

  /** Something is finished or pending. */
  predicate Busy(acc: Pending) {
    acc.done != [] || acc.current != ""
  }

  /** Once something is finished or pending, it stays so. */
  lemma StepKeepsBusy(acc: Pending, line: string)
    requires Busy(acc)
    ensures Busy(NutritionStep(acc, line))
  {
  }

  /** From the empty state a silent line changes nothing and any other line
      leaves something pending. */
  lemma StepFromEmpty(line: string)
    ensures Silent(line) ==> NutritionStep(Pending([], ""), line) == Pending([], "")
    ensures !Silent(line) ==> Busy(NutritionStep(Pending([], ""), line))
  {
  }

  /** The section yields nothing exactly when every line is silent. */
  lemma {:induction false} NutritionQuiet(lines: seq<string>)
    ensures (forall i :: 0 <= i < |lines| ==> Silent(lines[i])) ==> NutritionRun(Pending([], ""), lines) == Pending([], "")
    ensures !(forall i :: 0 <= i < |lines| ==> Silent(lines[i])) ==> Busy(NutritionRun(Pending([], ""), lines))
    decreases |lines|
  {
    if |lines| > 0 {
      var n := |lines| - 1;
      var init := lines[..n];
      NutritionQuiet(init);
      assert forall i :: 0 <= i < n ==> init[i] == lines[i];
      var acc := NutritionRun(Pending([], ""), init);
      if forall i :: 0 <= i < n ==> Silent(init[i]) {
        StepFromEmpty(lines[n]);
      } else {
        StepKeepsBusy(acc, lines[n]);
      }
    }
  }

  /** Every entry of the section is an item with an icon. */
  lemma {:induction false} NutritionItemsOnly(acc: Pending, lines: seq<string>)
    requires forall k :: 0 <= k < |acc.done| ==> acc.done[k].Item?
    ensures forall k :: 0 <= k < |NutritionRun(acc, lines).done| ==> NutritionRun(acc, lines).done[k].Item?
    decreases |lines|
  {
    if |lines| > 0 {
      var init := lines[..|lines| - 1];
      NutritionItemsOnly(acc, init);
      StepItemsOnly(NutritionRun(acc, init), lines[|lines| - 1]);
    }
  }

  lemma StepItemsOnly(acc: Pending, line: string)
    requires forall k :: 0 <= k < |acc.done| ==> acc.done[k].Item?
    ensures forall k :: 0 <= k < |NutritionStep(acc, line).done| ==> NutritionStep(acc, line).done[k].Item?
  {
    var f := Flush(acc.current);
    assert forall k :: 0 <= k < |f| ==> f[k].Item?;
    assert forall k :: 0 <= k < |acc.done + f| ==> (acc.done + f)[k] == if k < |acc.done| then acc.done[k] else f[k - |acc.done|];
  }

  /** The entries of a section: none exactly when every line is silent,
      and items only. */
  lemma NutritionEntriesNone(lines: seq<string>)
    ensures NutritionEntries(lines) == [] <==> forall i :: 0 <= i < |lines| ==> Silent(lines[i])
    ensures var r := NutritionEntries(lines); forall k :: 0 <= k < |r| ==> r[k].Item?
  {
    NutritionQuiet(lines);
    var acc := NutritionRun(Pending([], ""), lines);
    NutritionItemsOnly(Pending([], ""), lines);
    var f := Flush(acc.current);
    assert forall k :: 0 <= k < |f| ==> f[k].Item?;
    assert forall k :: 0 <= k < |acc.done + f| ==> (acc.done + f)[k] == if k < |acc.done| then acc.done[k] else f[k - |acc.done|];
  }

  /** `formatNutritionItems`, placeholder included. */
  function NutritionItems(content: string): (r: seq<Entry>)
    ensures |r| > 0
    ensures var lines := Lines(content);
      (forall i :: 0 <= i < |lines| ==> Silent(lines[i])) <==> r == [Notice(NO_NUTRITION_INFO)]
    ensures r != [Notice(NO_NUTRITION_INFO)] ==>
      r == NutritionEntries(Lines(content)) && forall k :: 0 <= k < |r| ==> r[k].Item?
  {
    var lines := Lines(content);
    var entries := NutritionEntries(lines);
    NutritionEntriesNone(lines);
    if entries == [] then [Notice(NO_NUTRITION_INFO)]
    else
      assert entries[0].Item?;
      entries
  }

  /** `formatNutritionItems`: `result` and `currentItem` updated line by line,
      and the last item added after the loop. */
  method FormatNutritionItems(content: string) returns (entries: seq<Entry>)
    ensures entries == NutritionItems(content)
  {
    var lines := Lines(content);
    var result: seq<Entry> := [];
    var currentItem := "";
    var i := 0;
    while i < |lines|
      invariant 0 <= i <= |lines|
      invariant Pending(result, currentItem) == NutritionRun(Pending([], ""), lines[..i])
    {
      NutritionRunNext(lines, i);
      result, currentItem := NutritionLine(result, currentItem, lines[i]);
      i := i + 1;
    }
    assert lines[..i] == lines;
    if currentItem != "" {
      var icon := if IsDrink(currentItem) then DRINK_ICON else BOLT_ICON;
      result := result + [Item(icon, currentItem)];
    }
    entries := if result == [] then [Notice(NO_NUTRITION_INFO)] else result;
  }

  /** The loop body of `formatNutritionItems` on one line. */
  method NutritionLine(result: seq<Entry>, currentItem: string, line: string) returns (done: seq<Entry>, current: string)
    ensures Pending(done, current) == NutritionStep(Pending(result, currentItem), line)
  {
    done, current := result, currentItem;
    if !Contains(line, SUPPLEMENT) && !Contains(line, FINAL_TOTAL) {
      if Numbered(line) {
        if current != "" {
          var icon := if IsDrink(current) then DRINK_ICON else BOLT_ICON;
          done := done + [Item(icon, current)];
        }
        current := StripNumber(line);
      } else if Contains(line, "kcal") || Contains(line, "蛋白质") || Contains(line, "碳水") || Contains(line, "脂肪") {
        if current != "" {
          current := current + " - " + line;
        } else {
          current := line;
        }
      } else if current != "" && !Contains(line, FORMAT_NOTE) {
        current := current + " " + line;
      }
    }
  }

  /** One more line is one more step. */
  lemma NutritionRunNext(lines: seq<string>, i: nat)
    requires i < |lines|
    ensures NutritionRun(Pending([], ""), lines[..i + 1]) == NutritionStep(NutritionRun(Pending([], ""), lines[..i]), lines[i])
  {
    assert lines[..i + 1][..i] == lines[..i];
  }

  lemma {:induction false} NutritionRunAppend(acc: Pending, a: seq<string>, b: seq<string>)
    ensures NutritionRun(acc, a + b) == NutritionRun(NutritionRun(acc, a), b)
    decreases |b|
  {
    if |b| == 0 {
      assert a + b == a;
    } else {
      assert (a + b)[..|a + b| - 1] == a + b[..|b| - 1];
      assert (a + b)[|a + b| - 1] == b[|b| - 1];
      NutritionRunAppend(acc, a, b[..|b| - 1]);
    }
  }

  /** Finished entries are only ever appended to: the run from `done` is the
      run from nothing with `done` in front. */
  lemma {:induction false} NutritionRunDone(done: seq<Entry>, current: string, lines: seq<string>)
    ensures var r := NutritionRun(Pending([], current), lines);
      NutritionRun(Pending(done, current), lines) == Pending(done + r.done, r.current)
    decreases |lines|
  {
    if |lines| > 0 {
      NutritionRunDone(done, current, lines[..|lines| - 1]);
      var r := NutritionRun(Pending([], current), lines[..|lines| - 1]);
      var line := lines[|lines| - 1];
      assert done + (r.done + Flush(r.current)) == (done + r.done) + Flush(r.current);
    }
  }

  /** Numbered lines are item boundaries: the items of `a` followed by text
      starting with a numbered line are those of `a` then those of the rest,
      so the item pending at the boundary is never lost or merged. */
  lemma ItemsSplit(a: seq<string>, b: seq<string>)
    requires |b| > 0 && Numbered(b[0]) && !Closing(b[0])
    ensures NutritionEntries(a + b) == NutritionEntries(a) + NutritionEntries(b)
  {
    var init := Pending([], "");
    var rest := b[1..];
    assert b == [b[0]] + rest;
    assert a + b == (a + [b[0]]) + rest;
    NutritionRunAppend(init, a + [b[0]], rest);
    NutritionRunAppend(init, a, [b[0]]);
    NutritionRunAppend(init, [b[0]], rest);
    assert [b[0]][..0] == [];
    var ra := NutritionRun(init, a);
    var x := StripNumber(b[0]);
    assert NutritionRun(ra, [b[0]]) == NutritionStep(ra, b[0]) == Pending(ra.done + Flush(ra.current), x);
    assert NutritionRun(init, [b[0]]) == NutritionStep(init, b[0]) == Pending([], x);
    NutritionRunDone(ra.done + Flush(ra.current), x, rest);
    var r := NutritionRun(Pending([], x), rest);
    assert NutritionRun(init, a + b) == Pending(ra.done + Flush(ra.current) + r.done, r.current);
    assert NutritionRun(init, b) == r;
    assert NutritionEntries(a + b) == ra.done + Flush(ra.current) + r.done + Flush(r.current);
  }

  // ---------------------------------------------------------------------------
  // Totals section

  /** `(\d+)\s*kcal` tried at `p` (case-sensitive): the digit run from `p`,
      white space, then the unit. */
  function KcalNumberAt(s: string, p: nat): (r: Option<string>)
    ensures r.Some? ==> r.value != "" && AllDigits(r.value)
  {
    if p < |s| && IsDigit(s[p]) then
      var j := DigitEnd(s, p);
      var k := SpaceEnd(s, j);
      if OccursAt(s, "kcal", k) then
        assert forall t :: 0 <= t < j - p ==> s[p..j][t] == s[p + t];
        Some(s[p..j])
      else None
    else None
  }

  /** The shape `(\d+)\s*kcal` at `p`: digits from `p` to `j`, not followed
      by another digit, white space from `j` to `k`, then `kcal`. */
  predicate KcalShape(s: string, p: nat, j: nat, k: nat) {
    && p < j <= k <= |s| && DigitsIn(s, p, j) && (j < |s| ==> !IsDigit(s[j]))
    && SpacesIn(s, j, k) && OccursAt(s, "kcal", k)
  }

  /** The attempt at `p` succeeds exactly when the text has that shape
      there, and then yields the digits. Neither greedy run can give back a
      character: a shorter digit run is followed by a digit and a shorter
      space run by white space, and `kcal` starts with neither. */
  lemma KcalNumberAtIff(s: string, p: nat)
    ensures KcalNumberAt(s, p).Some? <==> exists j: nat, k: nat :: KcalShape(s, p, j, k)
    ensures forall j: nat, k: nat :: KcalShape(s, p, j, k) ==> KcalNumberAt(s, p) == Some(s[p..j])
  {
    if KcalNumberAt(s, p).Some? {
      var j := DigitEnd(s, p);
      assert KcalShape(s, p, j, SpaceEnd(s, j));
    }
    forall j: nat, k: nat | KcalShape(s, p, j, k) ensures KcalNumberAt(s, p) == Some(s[p..j]) {
      DigitEndExact(s, p, j);
      assert s[k..k + 4][0] == s[k];
      SpaceEndExact(s, j, k);
    }
  }

  /** The leftmost match from `p` on. */
  function FirstKcalNumber(s: string, p: nat): (r: Option<string>)
    requires p <= |s|
    ensures r.None? <==> forall q :: p <= q < |s| ==> KcalNumberAt(s, q).None?
    ensures r.Some? ==> exists q :: p <= q < |s| && KcalNumberAt(s, q) == r && forall t :: p <= t < q ==> KcalNumberAt(s, t).None?
    decreases |s| - p
  {
    if p == |s| then None
    else if KcalNumberAt(s, p).Some? then KcalNumberAt(s, p)
    else FirstKcalNumber(s, p + 1)
  }

  /** The number shown in the headline: the digits of the first match, or
      `未知`. */
  function HeadlineCalories(line: string): string {
    match FirstKcalNumber(line, 0)
    case Some(digits) => digits
    case None => UNKNOWN
  }

  predicate HeadlineLine(line: string) {
    !Closing(line) && (Contains(line, "总卡路里") || Contains(line, "总热量"))
  }

  predicate NutrientLine(line: string) {
    !Closing(line) && !HeadlineLine(line) &&
    (Contains(line, "营养成分") || Contains(line, "碳水化合物") || Contains(line, "蛋白质") || Contains(line, "脂肪"))
  }

  /** The loop state of `formatTotalCalories`: the headline, and the
      nutrient lines so far. */
  datatype Totals = Totals(headline: Option<string>, nutrients: seq<Entry>)

  function TotalsStep(acc: Totals, line: string): Totals {
    if HeadlineLine(line) then acc.(headline := Some(HeadlineCalories(line)))
    else if NutrientLine(line) then acc.(nutrients := acc.nutrients + [Item(NOTE_ICON, line)])
    else acc
  }

  function TotalsRun(acc: Totals, lines: seq<string>): Totals
    decreases |lines|
  {
    if |lines| == 0 then acc else TotalsStep(TotalsRun(acc, lines[..|lines| - 1]), lines[|lines| - 1])
  }

  /** The headline (if any), then the nutrient lines. */
  function TotalEntries(lines: seq<string>): seq<Entry> {
    var acc := TotalsRun(Totals(None, []), lines);
    (if acc.headline.Some? then [Headline(acc.headline.value)] else []) + acc.nutrients
  }

  /** There are nutrient lines exactly when some line is one, and each
      becomes an item. */
  lemma {:induction false} NutrientsPresent(lines: seq<string>)
    ensures var n := TotalsRun(Totals(None, []), lines).nutrients;
      (|n| > 0 <==> exists i :: 0 <= i < |lines| && NutrientLine(lines[i]))
      && forall k :: 0 <= k < |n| ==> n[k].Item?
    decreases |lines|
  {
    if |lines| > 0 {
      var m := |lines| - 1;
      var init := lines[..m];
      NutrientsPresent(init);
      assert forall i :: 0 <= i < m ==> init[i] == lines[i];
      if !NutrientLine(lines[m]) {
        assert TotalsRun(Totals(None, []), lines).nutrients == TotalsRun(Totals(None, []), init).nutrients;
        assert (exists i :: 0 <= i < |lines| && NutrientLine(lines[i])) ==> exists i :: 0 <= i < m && NutrientLine(init[i]);
      }
    }
  }

  /** `formatTotalCalories`, placeholder included. */
  function TotalItems(content: string): (r: seq<Entry>)
    ensures |r| > 0
    ensures var lines := Lines(content);
      (forall i :: 0 <= i < |lines| ==> !HeadlineLine(lines[i]) && !NutrientLine(lines[i])) <==> r == [Notice(NO_TOTAL_INFO)]
    ensures r != [Notice(NO_TOTAL_INFO)] ==> r == TotalEntries(Lines(content))
  {
    var lines := Lines(content);
    var entries := TotalEntries(lines);
    HeadlinePresent(lines);
    NutrientsPresent(lines);
    if entries == [] then [Notice(NO_TOTAL_INFO)]
    else
      assert !entries[0].Notice?;
      entries
  }

  /** `formatTotalCalories`: the headline is overwritten by each total line,
      nutrient lines are appended. */
  method FormatTotalCalories(content: string) returns (entries: seq<Entry>)
    ensures entries == TotalItems(content)
  {
    var lines := Lines(content);
    var totalCalories: Option<string> := None;
    var nutrients: seq<Entry> := [];
    var i := 0;
    while i < |lines|
      invariant 0 <= i <= |lines|
      invariant Totals(totalCalories, nutrients) == TotalsRun(Totals(None, []), lines[..i])
    {
      TotalsRunNext(lines, i);
      totalCalories, nutrients := TotalsLine(totalCalories, nutrients, lines[i]);
      i := i + 1;
    }
    assert lines[..i] == lines;
    var combined := (if totalCalories.Some? then [Headline(totalCalories.value)] else []) + nutrients;
    entries := if combined == [] then [Notice(NO_TOTAL_INFO)] else combined;
  }

  /** The loop body of `formatTotalCalories` on one line. */
  method TotalsLine(totalCalories: Option<string>, nutrients: seq<Entry>, line: string) returns (headline: Option<string>, items: seq<Entry>)
    ensures Totals(headline, items) == TotalsStep(Totals(totalCalories, nutrients), line)
  {
    headline, items := totalCalories, nutrients;
    if !Contains(line, SUPPLEMENT) && !Contains(line, FINAL_TOTAL) {
      if Contains(line, "总卡路里") || Contains(line, "总热量") {
        var calorieMatch := FirstKcalNumber(line, 0);
        var calories := if calorieMatch.Some? then calorieMatch.value else UNKNOWN;
        headline := Some(calories);
      } else if Contains(line, "营养成分") || Contains(line, "碳水化合物") || Contains(line, "蛋白质") || Contains(line, "脂肪") {
        items := items + [Item(NOTE_ICON, line)];
      }
    }
  }

  /** One more line is one more step. */
  lemma TotalsRunNext(lines: seq<string>, i: nat)
    requires i < |lines|
    ensures TotalsRun(Totals(None, []), lines[..i + 1]) == TotalsStep(TotalsRun(Totals(None, []), lines[..i]), lines[i])
  {
    assert lines[..i + 1][..i] == lines[..i];
  }

  /** There is a headline exactly when some line is a total line. */
  lemma {:induction false} HeadlinePresent(lines: seq<string>)
    ensures TotalsRun(Totals(None, []), lines).headline.Some? <==> exists i :: 0 <= i < |lines| && HeadlineLine(lines[i])
    decreases |lines|
  {
    if |lines| > 0 {
      var n := |lines| - 1;
      var init := lines[..n];
      HeadlinePresent(init);
      assert forall i :: 0 <= i < n ==> init[i] == lines[i];
      if !HeadlineLine(lines[n]) {
        assert TotalsRun(Totals(None, []), lines).headline == TotalsRun(Totals(None, []), init).headline;
        assert (exists i :: 0 <= i < |lines| && HeadlineLine(lines[i])) ==> exists i :: 0 <= i < n && HeadlineLine(init[i]);
      }
    }
  }

  /** The headline's number is that of the last total line. */
  lemma {:induction false} HeadlineIsLast(lines: seq<string>, i: nat)
    requires i < |lines| && HeadlineLine(lines[i])
    requires forall j :: i < j < |lines| ==> !HeadlineLine(lines[j])
    ensures TotalsRun(Totals(None, []), lines).headline == Some(HeadlineCalories(lines[i]))
    decreases |lines|
  {
    var n := |lines| - 1;
    var init := lines[..n];
    HeadlineStep(lines);
    if i < n {
      assert init[i] == lines[i];
      forall j | i < j < n ensures !HeadlineLine(init[j]) {
        assert init[j] == lines[j];
      }
      HeadlineIsLast(init, i);
    }
  }

  /** A last line that is a total line sets the headline; any other last
      line leaves it. */
  lemma HeadlineStep(lines: seq<string>)
    requires |lines| > 0
    ensures var n := |lines| - 1;
      TotalsRun(Totals(None, []), lines).headline
      == if HeadlineLine(lines[n]) then Some(HeadlineCalories(lines[n])) else TotalsRun(Totals(None, []), lines[..n]).headline
  {
  }

  // ---------------------------------------------------------------------------
  // The whole result

  /** The blocks of the non-empty sections, in the order foods, nutrition,
      totals. */
  function StructuredBlocks(s: Sections): seq<Block> {
    (if Present(s.foods) then [FoodBlock(FoodItems(s.foods.value))] else [])
    + (if Present(s.nutrition) then [NutritionBlock(NutritionItems(s.nutrition.value))] else [])
    + (if Present(s.total) then [TotalBlock(TotalItems(s.total.value))] else [])
  }

  /** The rank of a block kind in the layout. */
  function Rank(b: Block): nat {
    match b
    case FoodBlock(_) => 0
    case NutritionBlock(_) => 1
    case TotalBlock(_) => 2
  }

  /** One block per non-empty section, strictly in layout order, none
      empty. */
  lemma StructuredLayout(s: Sections)
    ensures var b := StructuredBlocks(s);
      && |b| == (if Present(s.foods) then 1 else 0) + (if Present(s.nutrition) then 1 else 0) + (if Present(s.total) then 1 else 0)
      && (forall i :: 0 <= i < |b| - 1 ==> Rank(b[i]) < Rank(b[i + 1]))
      && (forall i :: 0 <= i < |b| ==> |b[i].entries| > 0)
  {
    var f: seq<Block> := if Present(s.foods) then [FoodBlock(FoodItems(s.foods.value))] else [];
    var n: seq<Block> := if Present(s.nutrition) then [NutritionBlock(NutritionItems(s.nutrition.value))] else [];
    var t: seq<Block> := if Present(s.total) then [TotalBlock(TotalItems(s.total.value))] else [];
    assert StructuredBlocks(s) == f + n + t;
    BlocksInOrder(f, n, t);
  }

  lemma BlocksInOrder(f: seq<Block>, n: seq<Block>, t: seq<Block>)
    requires |f| <= 1 && |n| <= 1 && |t| <= 1
    requires forall i :: 0 <= i < |f| ==> Rank(f[i]) == 0
    requires forall i :: 0 <= i < |n| ==> Rank(n[i]) == 1
    requires forall i :: 0 <= i < |t| ==> Rank(t[i]) == 2
    requires forall i :: 0 <= i < |f| ==> |f[i].entries| > 0
    requires forall i :: 0 <= i < |n| ==> |n[i].entries| > 0
    requires forall i :: 0 <= i < |t| ==> |t[i].entries| > 0
    ensures var b := f + n + t; forall i :: 0 <= i < |b| - 1 ==> Rank(b[i]) < Rank(b[i + 1])
    ensures var b := f + n + t; forall i :: 0 <= i < |b| ==> |b[i].entries| > 0
  {
  }

  /** `formatStructuredResult`: appends the block of each non-empty section. */
  method FormatStructuredResult(sections: Sections) returns (blocks: seq<Block>)
    ensures blocks == StructuredBlocks(sections)
  {
    ghost var f: seq<Block> := if Present(sections.foods) then [FoodBlock(FoodItems(sections.foods.value))] else [];
    ghost var n: seq<Block> := if Present(sections.nutrition) then [NutritionBlock(NutritionItems(sections.nutrition.value))] else [];
    ghost var t: seq<Block> := if Present(sections.total) then [TotalBlock(TotalItems(sections.total.value))] else [];
    blocks := [];
    if Present(sections.foods) {
      var items := FormatFoodItems(sections.foods.value);
      blocks := blocks + [FoodBlock(items)];
    }
    assert blocks == f;
    if Present(sections.nutrition) {
      var items := FormatNutritionItems(sections.nutrition.value);
      blocks := blocks + [NutritionBlock(items)];
    }
    assert blocks == f + n;
    if Present(sections.total) {
      var items := FormatTotalCalories(sections.total.value);
      blocks := blocks + [TotalBlock(items)];
    }
    assert blocks == f + n + t;
  }

  predicate SaysNoFood(result: string) {
    Contains(result, NOT_RECOGNISED) || Contains(AsciiLower(result), "no food")
  }

  predicate AnyPresent(s: Sections) {
    Present(s.foods) || Present(s.nutrition) || Present(s.total)
  }

  /** `formatAnalysisResult`: blank input gives the placeholder; a "no food"
      answer gives the card before any parsing; otherwise the cleaned text
      is shown by sections when one is non-empty, else line by line. */
  method FormatAnalysisResult(result: string) returns (view: View)
    ensures view == EmptyView <==> AllSpace(result)
    ensures view == NoFoodCard <==> !AllSpace(result) && SaysNoFood(result)
    ensures view.Structured? <==> !AllSpace(result) && !SaysNoFood(result) && AnyPresent(SectionsOf(Clean(result)))
    ensures view.Structured? ==> view.blocks == StructuredBlocks(SectionsOf(Clean(result)))
    ensures view.Simple? ==> view.entries == SimpleEntries(Lines(Clean(result)))
  {
    if Trim(result) == "" {
      return EmptyView;
    }
    if Contains(result, NOT_RECOGNISED) || Contains(AsciiLower(result), "no food") {
      return NoFoodCard;
    }
    var cleanedResult := Clean(result);
    var sections := ExtractSections(cleanedResult);
    if Present(sections.foods) || Present(sections.nutrition) || Present(sections.total) {
      var blocks := FormatStructuredResult(sections);
      return Structured(blocks);
    }
    var entries := FormatSimpleResult(cleanedResult);
    return Simple(entries);
  }
}
