/** The output template every backend copies into its prompt, read back as
    if the provider had answered with it: the total line `- 总热量: 990 kcal`
    gives 990 calories, and both keyword rules call the text food. */
module WorkedExamples {
  import opened Wrappers
  import opened Text
  import opened Calories
  import Provider
  import NetlifyAnalyze
  import AnalysisLogic

  /** The template, as one text, with the given label on its drink line. */
  function Template(drinkLabel: string): string {
    Provider.Concat(Provider.TemplatePieces(drinkLabel))
  }

  /** Concatenating from piece `i` on is piece `i` before the rest. */
  lemma ConcatStep(ps: seq<string>, i: nat)
    requires i < |ps|
    ensures Provider.Concat(ps[i..]) == ps[i] + Provider.Concat(ps[i + 1..])
  {
    assert ps[i..][1..] == ps[i + 1..];
  }

  /** A prefix without `总` cannot start a match. */
  lemma NoLabelIn(a: string, b: string)
    requires '总' !in a
    ensures TotalCalories(a + b) == TotalCalories(b)
  {
    forall q | 0 <= q < |a| ensures MatchAt(a + b, q).None? {
      assert (a + b)[q] == a[q];
      assert a[q] in a;
    }
    SkipPrefix(a, b);
  }

  /** Pieces without `总` in front of piece `n` do not change the total. */
  lemma {:induction false} SkipPieces(ps: seq<string>, i: nat, n: nat)
    requires i <= n <= |ps|
    requires forall k :: i <= k < n ==> '总' !in ps[k]
    ensures TotalCalories(Provider.Concat(ps[i..])) == TotalCalories(Provider.Concat(ps[n..]))
    decreases n - i
  {
    if i < n {
      ConcatStep(ps, i);
      NoLabelIn(ps[i], Provider.Concat(ps[i + 1..]));
      SkipPieces(ps, i + 1, n);
    }
  }

  /** The value 990 spelt in decimal digits. */
  lemma NineNineZero()
    ensures AllDigits("990") && DecimalValue("990") == 990
  {
    assert "990"[..2] == "99" && "99"[..1] == "9" && "9"[..0] == "";
  }

  /** The label line matches at its start, whatever follows it. */
  lemma LabelLine(t: string)
    requires "总热量: 990 kcal\n" <= t
    ensures TotalCalories(t) == 990
  {
    var tail := "总热量: 990 kcal\n";
    assert t[..|tail|] == tail;
    assert t[0] == '总' && t[1] == '热' && t[2] == '量' && t[3] == ':' && t[4] == ' ';
    assert t[5] == '9' && t[6] == '9' && t[7] == '0' && t[8] == ' ';
    assert t[9] == 'k' && t[10] == 'c' && t[11] == 'a' && t[12] == 'l';
    assert MatchShape(t, 0, 5, 8, 9);
    ShapeMatchAt(t, 0, 5, 8, 9);
    assert t[5..8] == "990";
    NineNineZero();
    TotalCaloriesAt(t, 0, 990);
  }

  /** The total line is a dash and a space before the label line. */
  lemma DashBefore(s: string)
    requires "- 总热量: 990 kcal\n" <= s
    ensures s == "- " + s[2..] && "总热量: 990 kcal\n" <= s[2..]
  {
    var t := s[2..];
    assert forall k :: 0 <= k < 14 ==> t[k] == s[k + 2];
  }

  /** The total line matches at its label, whatever follows it. */
  lemma TotalLine(s: string)
    requires "- 总热量: 990 kcal\n" <= s
    ensures TotalCalories(s) == 990
  {
    DashBefore(s);
    TotalAfterDash(s[2..]);
  }

  /** A dash and a space in front of the label line change nothing. */
  lemma TotalAfterDash(t: string)
    requires "总热量: 990 kcal\n" <= t
    ensures TotalCalories("- " + t) == 990
  {
    LabelLine(t);
    NoLabelIn("- ", t);
  }

  /** The heading `【总计】` starts no match: its `总` is not followed by `热`. */
  lemma HeadingSkip(rest: string)
    ensures TotalCalories("【总计】\n" + rest) == TotalCalories(rest)
  {
    var a := "【总计】\n";
    var s := a + rest;
    assert s[0] == '【' && s[1] == '总' && s[2] == '计' && s[3] == '】' && s[4] == '\n';
    assert forall q :: 0 <= q < |a| ==> MatchAt(s, q).None?;
    SkipPrefix(a, rest);
  }

  /** Pieces without `总` up to the total heading, then the total line: the
      total is the one on that line. */
  predicate TotalAtTwelve(ps: seq<string>) {
    && |ps| > 12 && (forall k :: 0 <= k < 11 ==> '总' !in ps[k])
    && ps[11] == "【总计】\n" && ps[12] == "- 总热量: 990 kcal\n"
  }

  lemma PiecesTotal(ps: seq<string>)
    requires TotalAtTwelve(ps)
    ensures TotalCalories(Provider.Concat(ps)) == 990
  {
    SkipPieces(ps, 0, 11);
    ConcatStep(ps, 11);
    HeadingSkip(Provider.Concat(ps[12..]));
    ConcatStep(ps, 12);
    TotalLine(ps[12] + Provider.Concat(ps[13..]));
    assert ps[0..] == ps;
  }

  /** The pieces of the food section hold no `总` (every copy of the
      template uses a drink label without it). */
  lemma FoodPieces(drinkLabel: string)
    requires '总' !in drinkLabel
    ensures forall k :: 0 <= k < 5 ==> '总' !in Provider.TemplatePieces(drinkLabel)[k]
  {
    var ps := Provider.TemplatePieces(drinkLabel);
    assert '总' !in ps[0] && '总' !in ps[1] && '总' !in ps[2];
    assert '总' !in ps[3] && '总' !in ps[4];
  }

  /** Nor do those of the nutrition section, */
  lemma NutritionPieces(drinkLabel: string)
    ensures forall k :: 5 <= k < 11 ==> '总' !in Provider.TemplatePieces(drinkLabel)[k]
  {
    var ps := Provider.TemplatePieces(drinkLabel);
    FirstNutritionPieces(ps);
    LastNutritionPieces(ps);
  }

  /** the first three of them, */
  lemma FirstNutritionPieces(ps: seq<string>)
    requires |ps| > 7 && ps[5] == "- 红烧肉: 热量: 595 kcal, "
    requires ps[6] == "蛋白质: 15g, 碳水: 5g, 脂肪: 58g\n" && ps[7] == "- 米饭: 热量: 260 kcal, "
    ensures '总' !in ps[5] && '总' !in ps[6] && '总' !in ps[7]
  {
  }

  /** and the last three. */
  lemma LastNutritionPieces(ps: seq<string>)
    requires |ps| > 10 && ps[8] == "蛋白质: 5g, 碳水: 58g, 脂肪: 1g\n"
    requires ps[9] == "- 橙汁: 热量: 135 kcal, " && ps[10] == "蛋白质: 2g, 碳水: 30g, 脂肪: 0g\n\n"
    ensures '总' !in ps[8] && '总' !in ps[9] && '总' !in ps[10]
  {
  }

  /** The template has that layout. */
  lemma TemplateLayout(drinkLabel: string)
    requires '总' !in drinkLabel
    ensures TotalAtTwelve(Provider.TemplatePieces(drinkLabel))
  {
    FoodPieces(drinkLabel);
    NutritionPieces(drinkLabel);
  }

  /** The template yields a total of 990 calories. */
  lemma TemplateTotal(drinkLabel: string)
    requires '总' !in drinkLabel
    ensures TotalCalories(Template(drinkLabel)) == 990
  {
    TemplateLayout(drinkLabel);
    PiecesTotal(Provider.TemplatePieces(drinkLabel));
  }

  /** Naming `食物` is enough for both keyword rules. */
  lemma FoodWordIsFood(text: string)
    requires Contains(text, "食物")
    ensures NetlifyAnalyze.KeywordIsFood(text) && AnalysisLogic.IsFood(text)
  {
    LowerContainsKeyword(text, "食物");
  }

  /** The template's first section title holds `食物`. */
  lemma TemplateMentionsFood(drinkLabel: string)
    ensures Contains(Template(drinkLabel), "食物")
  {
    HeadingMentionsFood(Provider.TemplatePieces(drinkLabel));
  }

  /** Pieces that start with the food section's title mention food. */
  lemma HeadingMentionsFood(ps: seq<string>)
    requires |ps| > 0 && ps[0] == "【食物识别】\n"
    ensures Contains(Provider.Concat(ps), "食物")
  {
    var title := ps[0];
    var rest := Provider.Concat(ps[1..]);
    ConcatStep(ps, 0);
    assert ps[0..] == ps;
    assert title[1..3] == "食物";
    ContainsWitness(title, "食物", 1);
    ContainsAppend(title, rest, "食物");
  }

  /** The Netlify function reads its own template as food with 990
      calories; by the contract of `BuildResult` its result is then food,
      no list, 990 calories and the text itself as the description. */
  lemma NetlifyTemplateResult(drinkLabel: string)
    requires '总' !in drinkLabel
    ensures var text := Template(drinkLabel);
      NetlifyAnalyze.KeywordIsFood(text) && TotalCalories(text) == 990
  {
    TemplateTotal(drinkLabel);
    TemplateMentionsFood(drinkLabel);
    FoodWordIsFood(Template(drinkLabel));
  }

  /** The shared analysis reads its template the same way: food, 990
      calories. */
  lemma SharedTemplateResult(drinkLabel: string)
    requires '总' !in drinkLabel
    ensures var text := Template(drinkLabel);
      AnalysisLogic.IsFood(text) && TotalCalories(text) == 990
  {
    TemplateTotal(drinkLabel);
    TemplateMentionsFood(drinkLabel);
    FoodWordIsFood(Template(drinkLabel));
  }
}
