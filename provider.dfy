/** The vision provider (the DashScope multimodal-generation endpoint) as the
    three backends see it: the request they build, the response envelope they
    read, the errors `axios` throws, and the text flattening of a message's
    content. The HTTP transport itself is a function parameter. */
module Provider {
  import opened Wrappers
  import opened Text
  import Json

  const MAINLAND_ENDPOINT := "https://dashscope.aliyuncs.com/api/v1/services/aigc/multimodal-generation/generation"
  const INTL_ENDPOINT := "https://dashscope-intl.aliyuncs.com/api/v1/services/aigc/multimodal-generation/generation"
  const MODEL := "qwen-vl-max"
  const USER_ROLE := "user"
  const MESSAGE_FORMAT := "message"

  // ---------------------------------------------------------------------------
  // Request

  /** One entry of the user message: `{ image: dataUrl }` or `{ text: prompt }`. */
  datatype Item = Image(image: Json.Value) | Text(text: string)

  /** The request body and the one header that varies: a single user message
      with its content items, the optional `parameters.result_format`, and
      the `Authorization` header. */
  datatype Request = Request(
    model: string,
    role: string,
    content: seq<Item>,
    resultFormat: Option<string>,
    authorization: string)

  /** One POST: where it goes and what it carries. */
  datatype Call = Call(url: string, request: Request)

  // ---------------------------------------------------------------------------
  // Response envelope `{ output: { choices: [ { message: { content } } ] } }`

  /** A content fragment; `text` is `None` when the fragment has no truthy
      `text` field (an echoed image, say). */
  datatype Part = Part(text: Option<string>)

  /** `message.content`: a string, an array of fragments, or anything else
      (`undefined`, a number, an object). */
  datatype Content = Plain(s: string) | Fragments(parts: seq<Part>) | Unexpected

  /** A choice; `message` is `None` when the choice has no message object. */
  datatype Choice = Choice(message: Option<Content>)

  /** `output`, with `choices` missing or present. */
  datatype Output = Output(choices: Option<seq<Choice>>)

  /** `response.data`, with a falsy `output` as `None`. */
  datatype Envelope = Envelope(output: Option<Output>)

  /** `output && output.choices && output.choices.length > 0`. */
  predicate HasChoices(e: Envelope) {
    e.output.Some? && e.output.value.choices.Some? && |e.output.value.choices.value| > 0
  }

  /** `output.choices[0].message`, for an envelope that has choices. */
  function FirstMessage(e: Envelope): Option<Content>
    requires HasChoices(e)
  {
    e.output.value.choices.value[0].message
  }

  // ---------------------------------------------------------------------------
  // Errors

  /** `data` of an error response, with its `message` when truthy. */
  datatype ErrorData = ErrorData(message: Option<string>)

  /** `error.response` of an axios error: the provider answered with a
      non-success status. */
  datatype ErrorResponse = ErrorResponse(status: int, statusText: string, data: Option<ErrorData>)

  /** A thrown JavaScript error with the fields the handlers inspect: `code`
      ("" when absent), `message`, `response`, and whether `request` is set
      (a request went out but no response came back). */
  datatype JsError = JsError(code: string, message: string, response: Option<ErrorResponse>, request: bool)

  /** `new Error(message)`. */
  function Thrown(message: string): JsError {
    JsError("", message, None, false)
  }

  /** Stand-in for the text of a `TypeError` raised by the engine (property
      access on `undefined` or `null`); the source does not fix that text. */
  const TYPE_ERROR_TEXT := "TypeError"

  /** The result object the backends hand to the browser when every field
      has its expected type. */
  datatype Analysis = Analysis(isFood: bool, foods: seq<Json.Value>, totalCalories: nat, description: string)

  /** What one POST yields: the response envelope, or the error axios throws. */
  datatype Reply = Replied(envelope: Envelope) | Threw(error: JsError)

  /** The network, as a function from the call to its outcome. */
  type Transport = Call -> Reply

  // ---------------------------------------------------------------------------
  // Content flattening

  /** `parts.filter(item => item.text).map(item => item.text)`. */
  function Texts(parts: seq<Part>): (r: seq<string>)
    ensures |r| <= |parts|
    ensures forall i :: 0 <= i < |r| ==> r[i] != ""
    decreases |parts|
  {
    if |parts| == 0 then []
    else
      var p := parts[0];
      (if p.text.Some? && p.text.value != "" then [p.text.value] else []) + Texts(parts[1..])
  }

  /** Filtering commutes with concatenation: the texts keep their order. */
  lemma {:induction false} TextsAppend(a: seq<Part>, b: seq<Part>)
    ensures Texts(a + b) == Texts(a) + Texts(b)
    decreases |a|
  {
    if |a| == 0 {
      assert a + b == b;
    } else {
      assert (a + b)[0] == a[0];
      assert (a + b)[1..] == a[1..] + b;
      TextsAppend(a[1..], b);
    }
  }

  /** A fragment list without any text fields flattens to nothing. */
  lemma {:induction false} TextsNone(parts: seq<Part>)
    requires forall i :: 0 <= i < |parts| ==> parts[i].text.None?
    ensures Texts(parts) == []
    decreases |parts|
  {
    if |parts| > 0 {
      TextsNone(parts[1..]);
    }
  }

  /** The text of a fragment list: its text fields joined by newlines. */
  function Flatten(parts: seq<Part>): string {
    Join(Texts(parts), "\n")
  }

  /** `[{text:"A"}, {image}, {text:"B"}]` flattens to `"A\nB"`: the image is
      dropped and the order is kept. */
  lemma FlattenDropsImages(a: string, b: string, image: seq<Part>)
    requires a != "" && b != ""
    requires forall i :: 0 <= i < |image| ==> image[i].text.None?
    ensures Flatten([Part(Some(a))] + image + [Part(Some(b))]) == a + "\n" + b
  {
    TextsNone(image);
    TextsAppend([Part(Some(a))] + image, [Part(Some(b))]);
    TextsAppend([Part(Some(a))], image);
    assert Texts([Part(Some(a))]) == [a];
    assert Texts([Part(Some(b))]) == [b];
    assert Texts([Part(Some(a))] + image + [Part(Some(b))]) == [a, b];
    assert Join([a, b], "\n") == a + "\n" + Join([b], "\n");
  }

  /** The text of a message's content as the two backends that accept both
      shapes read it: a string as it is, a fragment list flattened, anything
      else refused. */
  function ContentText(c: Content): Option<string> {
    match c
    case Plain(s) => Some(s)
    case Fragments(parts) => Some(Flatten(parts))
    case Unexpected => None
  }

  /** `Bearer ${apiKey}`. */
  function Bearer(apiKey: string): string {
    "Bearer " + apiKey
  }

  // ---------------------------------------------------------------------------
  // Prompt

  /** The fixed instruction sent with every image. It is copied by hand into
      each backend; the copies differ in the label of the drink line
      ("饮料 1" or "饮料1") and in the quotation marks around "未知物品". */
  function Prompt(drinkLabel: string, openQuote: string, closeQuote: string): string {
    "你是一位顶级的营养分析师。请严格按照下面的【输出格式示例】，分析图片中的所有食物和饮料，并提供精确的营养估算。\n\n"
    + "【输出格式示例】\n"
    + Concat(TemplatePieces(drinkLabel))
    + "【分析要求】\n"
    + "1.  **全面识别**：不要遗漏任何食物、饮料、酱料或配菜。\n"
    + "2.  **精确估算**：根据视觉信息合理估算每项的重量(g)或容量(ml)。\n"
    + "3.  **考虑烹饪**：评估烹饪方式（如炒、炸、蒸）对营养的影响。\n"
    + "4.  **处理未知**：如果无法识别，请在对应位置标注为" + openQuote + "未知物品" + closeQuote + "。\n"
    + "5.  **严格格式**：最终输出必须严格遵守【输出格式示例】，不要添加任何额外的解释或说明文字。"
  }

  /** The output template inside the prompt, line by line (each nutrient
      line in two halves at its first comma): the text the provider is
      asked to answer with. */
  function TemplatePieces(drinkLabel: string): seq<string> {
    [ "【食物识别】\n",
      "- 菜品1: 红烧肉, 约150g\n",
      "- 菜品2: 米饭, 约200g\n",
      "- " + drinkLabel + ": 橙汁, 约300ml\n\n",
      "【营养分析】\n",
      "- 红烧肉: 热量: 595 kcal, ",
      "蛋白质: 15g, 碳水: 5g, 脂肪: 58g\n",
      "- 米饭: 热量: 260 kcal, ",
      "蛋白质: 5g, 碳水: 58g, 脂肪: 1g\n",
      "- 橙汁: 热量: 135 kcal, ",
      "蛋白质: 2g, 碳水: 30g, 脂肪: 0g\n\n",
      "【总计】\n",
      "- 总热量: 990 kcal\n",
      "- 总蛋白质: 22g\n",
      "- 总碳水化合物: 93g\n",
      "- 总脂肪: 59g\n\n" ]
  }

  /** String concatenation of pieces, as the source's `'…' + '…'` chains. */
  function Concat(pieces: seq<string>): string
    decreases |pieces|
  {
    if |pieces| == 0 then "" else pieces[0] + Concat(pieces[1..])
  }

  const SHARED_PROMPT := Prompt("饮料 1", "“", "”")
  const API_PROMPT := Prompt("饮料1", "“", "”")
  const NETLIFY_PROMPT := Prompt("饮料1", "\"", "\"")
}
