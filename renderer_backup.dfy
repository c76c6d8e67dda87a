/** The helpers of `public/renderer_backup.js`: the endpoint chosen from the
    page's host name, the result card built from the backend's JSON answer
    with its `||` defaults, and the per-food nutrient grid. The file check
    it shares with `public/renderer.js` is `Upload.AcceptFile`. */
module RendererBackup {
  import opened Wrappers
  import opened Text
  import opened Json
  import Provider

  const NETLIFY_PATH := "/.netlify/functions/analyze"
  const VERCEL_PATH := "/api/analyze"
  const NETLIFY_HOST := "netlify.app"
  const MISSING_RESULT := "API响应中缺少result字段"
  const NO_DETAILS := "无详细信息"
  const NOT_RECOGNISED := "无法识别图片内容"
  const ANALYSIS_FAILED := "分析失败"
  const LINE_BREAK := "<br>"

  /** `getApiUrl`, with `window.location.hostname` passed in: the Netlify
      function path exactly on a `netlify.app` host, the Vercel path
      otherwise. */
  function GetApiUrl(hostname: string): (url: string)
    ensures url == NETLIFY_PATH <==> Contains(hostname, NETLIFY_HOST)
    ensures url == VERCEL_PATH <==> !Contains(hostname, NETLIFY_HOST)
  {
    if Contains(hostname, NETLIFY_HOST) then NETLIFY_PATH else VERCEL_PATH
  }

  // ---------------------------------------------------------------------------
  // The result card

  /** What the click handler shows once the backend has answered: the food
      card with its calories and description, the warning card for a
      non-food image, or the error card of the `catch` block. */
  datatype Card = FoodCard(calories: Value, description: string) | WarningCard(description: string) | ErrorCard(message: string)

  /** The `catch` block's message: the error's own, or the generic one. */
  function ErrorMessage(message: string): (r: string)
    ensures r != ""
    ensures message != "" ==> r == message
    ensures message == "" ==> r == ANALYSIS_FAILED
  {
    if message != "" then message else ANALYSIS_FAILED
  }

  /** `(text).replace(/\n/g, '<br>')` on a value: a string gets its line
      breaks replaced, anything else throws because it has no `replace`. */
  function Breaks(v: Value): (r: Result<string, string>)
    ensures r.Success? <==> v.Str?
    ensures r.Success? ==> '\n' !in r.value && r.value == ReplaceAll(v.s, "\n", LINE_BREAK)
    ensures r.Failure? ==> r.error == Provider.TYPE_ERROR_TEXT
  {
    if v.Str? then
      ReplaceCharRemoves(v.s, '\n', LINE_BREAK);
      Success(ReplaceAll(v.s, "\n", LINE_BREAK))
    else Failure(Provider.TYPE_ERROR_TEXT)
  }

  /** The card for the backend's JSON answer `data`. Reading `data.result`
      throws on `null`; a falsy `result` throws the missing-field error; a
      truthy `isFood` selects the food card with `totalCalories || 0` and
      `description || '无详细信息'`, otherwise the warning card with
      `description || '无法识别图片内容'`. */
  function ShowResult(data: Value): (card: Card)
    ensures data.Null? ==> card == ErrorCard(ErrorMessage(Provider.TYPE_ERROR_TEXT))
    ensures !data.Null? && !IsTruthy(Prop(data, "result")) ==> card == ErrorCard(MISSING_RESULT)
    ensures card.FoodCard? ==>
      var response := Prop(data, "result").value;
      && IsTruthy(Prop(response, "isFood"))
      && card.calories == (if IsTruthy(Prop(response, "totalCalories")) then Prop(response, "totalCalories").value else Num(0.0))
      && Breaks(Or(Prop(response, "description"), Str(NO_DETAILS))) == Success(card.description)
    ensures card.WarningCard? ==>
      var response := Prop(data, "result").value;
      && !IsTruthy(Prop(response, "isFood"))
      && Breaks(Or(Prop(response, "description"), Str(NOT_RECOGNISED))) == Success(card.description)
    ensures card.FoodCard? ==> '\n' !in card.description
    ensures card.WarningCard? ==> '\n' !in card.description
    ensures !data.Null? && IsTruthy(Prop(data, "result")) ==>
      var response := Prop(data, "result").value;
      var d := Prop(response, "description");
      var shown := !IsTruthy(d) || d.value.Str?;
      && (card.FoodCard? <==> shown && IsTruthy(Prop(response, "isFood")))
      && (card.WarningCard? <==> shown && !IsTruthy(Prop(response, "isFood")))
      && (!shown ==> card == ErrorCard(ErrorMessage(Provider.TYPE_ERROR_TEXT)))
  {
    if data.Null? then ErrorCard(ErrorMessage(Provider.TYPE_ERROR_TEXT))
    else
      var response := Prop(data, "result");
      if !IsTruthy(response) then ErrorCard(ErrorMessage(MISSING_RESULT))
      else if IsTruthy(Prop(response.value, "isFood")) then
        var calories := Or(Prop(response.value, "totalCalories"), Num(0.0));
        match Breaks(Or(Prop(response.value, "description"), Str(NO_DETAILS)))
        case Success(text) => FoodCard(calories, text)
        case Failure(e) => ErrorCard(ErrorMessage(e))
      else
        match Breaks(Or(Prop(response.value, "description"), Str(NOT_RECOGNISED)))
        case Success(text) => WarningCard(text)
        case Failure(e) => ErrorCard(ErrorMessage(e))
  }

  /** A food result whose total and description are missing or falsy
      shows 0 and the default text. */
  lemma FoodCardDefaults(data: Value)
    requires IsTruthy(Prop(data, "result"))
    requires IsTruthy(Prop(Prop(data, "result").value, "isFood"))
    requires !IsTruthy(Prop(Prop(data, "result").value, "totalCalories"))
    requires !IsTruthy(Prop(Prop(data, "result").value, "description"))
    ensures ShowResult(data) == FoodCard(Num(0.0), NO_DETAILS)
  {
    AbsentChar(NO_DETAILS, '\n');
    ReplaceAllAbsent(NO_DETAILS, "\n", LINE_BREAK);
  }

  /** A non-food result whose description is missing or empty (`""` is
      falsy) shows the default text. */
  lemma WarningCardDefault(data: Value)
    requires IsTruthy(Prop(data, "result"))
    requires !IsTruthy(Prop(Prop(data, "result").value, "isFood"))
    requires !IsTruthy(Prop(Prop(data, "result").value, "description"))
    ensures ShowResult(data) == WarningCard(NOT_RECOGNISED)
  {
    AbsentChar(NOT_RECOGNISED, '\n');
    ReplaceAllAbsent(NOT_RECOGNISED, "\n", LINE_BREAK);
  }

  // ---------------------------------------------------------------------------
  // The nutrient grid

  /** One food's block: its name (possibly missing) and the four amounts with
      `|| 0` defaults. */
  datatype FoodNutrients = FoodNutrients(name: Option<Value>, calories: Value, protein: Value, carbs: Value, fat: Value)

  /** What `formatNutrients` returns: the "no data" paragraph, the grid, or
      a thrown `TypeError`. */
  datatype NutrientsView = NoData | Grid(foods: seq<FoodNutrients>) | Crashed

  /** The block of one list element (not `null`). */
  function NutrientsOf(food: Value): (r: FoodNutrients)
    ensures r.name == Prop(food, "name")
    ensures r.calories == Or(Prop(food, "calories"), Num(0.0)) && r.protein == Or(Prop(food, "protein"), Num(0.0))
    ensures r.carbs == Or(Prop(food, "carbs"), Num(0.0)) && r.fat == Or(Prop(food, "fat"), Num(0.0))
    ensures !food.Obj? ==> r == FoodNutrients(None, Num(0.0), Num(0.0), Num(0.0), Num(0.0))
  {
    FoodNutrients(
      Prop(food, "name"),
      Or(Prop(food, "calories"), Num(0.0)),
      Or(Prop(food, "protein"), Num(0.0)),
      Or(Prop(food, "carbs"), Num(0.0)),
      Or(Prop(food, "fat"), Num(0.0)))
  }

  /** `!foods || foods.length === 0`. */
  predicate NoFoods(foods: Option<Value>) {
    || !IsTruthy(foods)
    || (foods.value.Arr? && |foods.value.items| == 0)
    || (foods.value.Obj? && Prop(foods.value, "length") == Some(Num(0.0)))
  }

  /** `formatNutrients`: the placeholder for a missing or empty list;
      otherwise one block per food in list order, appended by the loop,
      which throws at the first `null` element and on anything that is not
      an array. */
  method FormatNutrients(foods: Option<Value>) returns (view: NutrientsView)
    ensures NoFoods(foods) ==> view == NoData
    ensures !NoFoods(foods) && !foods.value.Arr? ==> view == Crashed
    ensures !NoFoods(foods) && foods.value.Arr? ==>
      var items := foods.value.items;
      && (view == Crashed <==> exists k :: 0 <= k < |items| && items[k].Null?)
      && (view.Grid? <==> forall k :: 0 <= k < |items| ==> !items[k].Null?)
      && (view.Grid? ==> |view.foods| == |items| && forall k :: 0 <= k < |items| ==> view.foods[k] == NutrientsOf(items[k]))
    ensures view == NoData <==> NoFoods(foods)
  {
    if NoFoods(foods) {
      return NoData;
    }
    if !foods.value.Arr? {
      return Crashed;
    }
    var items := foods.value.items;
    var html: seq<FoodNutrients> := [];
    var i := 0;
    while i < |items|
      invariant 0 <= i <= |items| && |html| == i
      invariant forall k :: 0 <= k < i ==> !items[k].Null? && html[k] == NutrientsOf(items[k])
    {
      if items[i].Null? {
        return Crashed;
      }
      html := html + [NutrientsOf(items[i])];
      i := i + 1;
    }
    return Grid(html);
  }
}
