/** The Netlify function `netlify/functions/analyze.js`: the preflight and
    method gates, body parsing, the call to the mainland endpoint, the
    four-keyword food verdict, the calorie scan written into the result in
    place, and the classification of errors into statuses. */
module NetlifyAnalyze {
  import opened Wrappers
  import opened Text
  import opened Json
  import opened Provider
  import opened Calories

  const POST_ONLY := "只支持POST方法"
  const MISSING_IMAGE := "缺少图片数据"
  const KEY_MISSING := "服务器配置错误：API密钥未设置"
  const BAD_ENVELOPE := "Qwen API返回数据格式错误"
  const BAD_CONTENT := "API返回内容格式异常"
  const TIMED_OUT := "API请求超时，请重试"
  const INTERNAL_ERROR := "服务器内部错误"
  const ABORTED := "ECONNABORTED"

  /** A response body: empty (preflight), `{ error }`, or
      `{ success: true, result }`. */
  datatype Body = Empty | ErrorBody(error: string) | SuccessBody(result: Analysis)

  /** The object the function returns. */
  datatype Response = Response(statusCode: int, body: Body)

  /** The request: image and instruction, asking for the `message` format. */
  function BuildRequest(dataUrl: Value, apiKey: string): Request {
    Request(MODEL, USER_ROLE, [Image(dataUrl), Text(NETLIFY_PROMPT)], Some(MESSAGE_FORMAT), Bearer(apiKey))
  }

  /** `event.body` as `JSON.parse` receives it: an absent body is `null`,
      which parses to `null`. */
  function RawBody(body: Option<string>): string {
    body.GetOr("null")
  }

  /** The food verdict: the lowercased text names food, a dish, calories or
      the unit. */
  predicate KeywordIsFood(text: string) {
    var lower := AsciiLower(text);
    Contains(lower, "食物") || Contains(lower, "菜品") || Contains(lower, "热量") || Contains(lower, "kcal")
  }

  /** Lowercasing matters only for the unit: the Chinese keywords are found
      in the text as it is, `kcal` in any case. */
  lemma KeywordIsFoodIff(text: string)
    ensures KeywordIsFood(text) <==>
      Contains(text, "食物") || Contains(text, "菜品") || Contains(text, "热量") || Contains(AsciiLower(text), "kcal")
  {
    LowerContainsKeyword(text, "食物");
    LowerContainsKeyword(text, "菜品");
    LowerContainsKeyword(text, "热量");
  }

  /** The text of the first choice, or the error thrown while reading it. */
  function Extract(e: Envelope): (r: Result<string, JsError>)
    ensures !HasChoices(e) ==> r == Failure(Thrown(BAD_ENVELOPE))
    ensures r.Success? <==> HasChoices(e) && FirstMessage(e).Some? && !FirstMessage(e).value.Unexpected?
    ensures HasChoices(e) && FirstMessage(e) == Some(Unexpected) ==> r == Failure(Thrown(BAD_CONTENT))
    ensures HasChoices(e) && FirstMessage(e).None? ==> r == Failure(Thrown(TYPE_ERROR_TEXT))
    ensures HasChoices(e) && FirstMessage(e).Some? && FirstMessage(e).value.Plain? ==>
      r == Success(FirstMessage(e).value.s)
    ensures HasChoices(e) && FirstMessage(e).Some? && FirstMessage(e).value.Fragments? ==>
      r == Success(Flatten(FirstMessage(e).value.parts))
  {
    if !HasChoices(e) then Failure(Thrown(BAD_ENVELOPE))
    else
      match FirstMessage(e)
      case None => Failure(Thrown(TYPE_ERROR_TEXT))
      case Some(c) =>
        match ContentText(c)
        case None => Failure(Thrown(BAD_CONTENT))
        case Some(text) => Success(text)
  }

  /** The error classification: a timeout first, then a provider response,
      then the error's own message, then the generic message. */
  predicate IsTimeout(e: JsError) {
    e.code == ABORTED || Contains(e.message, "timeout")
  }

  /** The status and message the `catch` block settles on. */
  function Classification(e: JsError): (r: (int, string))
    ensures IsTimeout(e) ==> r == (504, TIMED_OUT)
    ensures !IsTimeout(e) && e.response.Some? ==> r.0 == e.response.value.status
    ensures !IsTimeout(e) && e.response.Some? ==> var resp := e.response.value;
      if resp.data.Some? && resp.data.value.message.Some? && resp.data.value.message.value != ""
      then r.1 == "API调用失败: " + resp.statusText + " - " + resp.data.value.message.value
      else r.1 == "API调用失败: " + resp.statusText
    ensures !IsTimeout(e) && e.response.None? && e.message != "" ==> r == (500, e.message)
    ensures !IsTimeout(e) && e.response.None? && e.message == "" ==> r == (500, INTERNAL_ERROR)
    ensures r.1 != ""
  {
    if IsTimeout(e) then (504, TIMED_OUT)
    else if e.response.Some? then
      var resp := e.response.value;
      var head := "API调用失败: " + resp.statusText;
      if resp.data.Some? && resp.data.value.message.Some? && resp.data.value.message.value != "" then
        (resp.status, head + " - " + resp.data.value.message.value)
      else (resp.status, head)
    else if e.message != "" then (500, e.message)
    else (500, INTERNAL_ERROR)
  }

  /** The response for a caught error. */
  function ErrorResponse(e: JsError): Response {
    Response(Classification(e).0, ErrorBody(Classification(e).1))
  }

  /** The `catch` block, which starts from the generic answer and overwrites
      the status and message branch by branch. */
  method ClassifyError(e: JsError) returns (statusCode: int, errorMessage: string)
    ensures (statusCode, errorMessage) == Classification(e)
  {
    errorMessage := INTERNAL_ERROR;
    statusCode := 500;
    if e.code == ABORTED || Contains(e.message, "timeout") {
      errorMessage := TIMED_OUT;
      statusCode := 504;
    } else if e.response.Some? {
      statusCode := e.response.value.status;
      errorMessage := "API调用失败: " + e.response.value.statusText;
      var data := e.response.value.data;
      if data.Some? && data.value.message.Some? && data.value.message.value != "" {
        errorMessage := errorMessage + " - " + data.value.message.value;
      }
    } else if e.message != "" {
      errorMessage := e.message;
    }
  }

  /** Building the result: the keyword verdict with a total of 0, the total
      overwritten when the calorie pattern matches, then the `||` defaults. */
  method BuildResult(text: string) returns (result: Analysis)
    ensures result == Analysis(KeywordIsFood(text), [], TotalCalories(text), text)
  {
    var analysis := Analysis(KeywordIsFood(text), [], 0, text);
    var found := FirstCalorie(text);
    if found.Some? {
      analysis := analysis.(totalCalories := found.value);
    }
    result := Analysis(
      analysis.isFood || false,
      analysis.foods,
      if analysis.totalCalories != 0 then analysis.totalCalories else 0,
      if analysis.description != "" then analysis.description else text);
  }

  /** One invocation, with the key read from the environment, `JSON.parse`
      and the network passed in. */
  method Handle(httpMethod: string, body: Option<string>, apiKey: Option<string>, parse: Parser, transport: Transport)
    returns (call: Option<Call>, response: Response)
    ensures httpMethod == "OPTIONS" ==> call.None? && response == Response(200, Empty)
    ensures httpMethod != "OPTIONS" && httpMethod != "POST" ==> call.None? && response == Response(405, ErrorBody(POST_ONLY))
    ensures httpMethod == "POST" ==> match parse(RawBody(body))
      case Failure(msg) => call.None? && response == ErrorResponse(Thrown(msg))
      case Success(v) =>
        if v.Null? then call.None? && response == ErrorResponse(Thrown(TYPE_ERROR_TEXT))
        else if !IsTruthy(Prop(v, "dataUrl")) then call.None? && response == Response(400, ErrorBody(MISSING_IMAGE))
        else if apiKey.None? || apiKey.value == "" then call.None? && response == Response(500, ErrorBody(KEY_MISSING))
        else
          && call == Some(Call(MAINLAND_ENDPOINT, BuildRequest(Prop(v, "dataUrl").value, apiKey.value)))
          && response == match transport(call.value)
             case Threw(err) => ErrorResponse(err)
             case Replied(e) =>
               match Extract(e)
               case Failure(err) => ErrorResponse(err)
               case Success(text) => Response(200, SuccessBody(Analysis(KeywordIsFood(text), [], TotalCalories(text), text)))
  {
    call := None;
    if httpMethod == "OPTIONS" {
      response := Response(200, Empty);
      return;
    }
    if httpMethod != "POST" {
      response := Response(405, ErrorBody(POST_ONLY));
      return;
    }
    var thrown: JsError;
    var parsed := parse(RawBody(body));
    if parsed.Failure? {
      thrown := Thrown(parsed.error);
    } else if parsed.value.Null? {
      thrown := Thrown(TYPE_ERROR_TEXT);
    } else {
      var dataUrl := Prop(parsed.value, "dataUrl");
      if !IsTruthy(dataUrl) {
        response := Response(400, ErrorBody(MISSING_IMAGE));
        return;
      }
      if apiKey.None? || apiKey.value == "" {
        response := Response(500, ErrorBody(KEY_MISSING));
        return;
      }
      call := Some(Call(MAINLAND_ENDPOINT, BuildRequest(dataUrl.value, apiKey.value)));
      match transport(call.value)
      case Threw(err) =>
        thrown := err;
      case Replied(e) =>
        var text := Extract(e);
        if text.Failure? {
          thrown := text.error;
        } else {
          var result := BuildResult(text.value);
          response := Response(200, SuccessBody(result));
          return;
        }
    }
    var statusCode, errorMessage := ClassifyError(thrown);
    response := Response(statusCode, ErrorBody(errorMessage));
  }
}
