/** The Vercel handler `api/analyze.js`: method and input gates, the call to
    the mainland endpoint, content flattening, JSON recovery from the model's
    prose with a keyword fallback, field normalisation with `||` defaults,
    and the mapping of errors to HTTP statuses. */
module ApiAnalyze {
  import opened Wrappers
  import opened Text
  import opened Json
  import opened Provider
  import opened JsonRecovery

  const METHOD_NOT_ALLOWED := "Method Not Allowed"
  const MISSING_DATA_URL := "Missing dataUrl in request body"
  const CONFIG_ERROR := "Server configuration error."
  const BAD_ENVELOPE := "API returned an unexpected data structure."
  const BAD_CONTENT := "API returned unexpected content format"
  const NO_RESPONSE := "Network Error: No response from API server."
  const NO_VALID_RESPONSE := "Failed to get a valid response"

  /** The `result` object sent back: each field is whatever JSON value the
      recovery produced, or its default. */
  datatype ApiResult = ApiResult(isFood: Value, foods: Value, totalCalories: Value, description: Value)

  /** A JSON response body: `{ error }` or `{ success: true, result }`. */
  datatype Body = ErrorBody(error: string) | SuccessBody(result: ApiResult)

  /** What the handler sends: a JSON response, the plain-text 405, or nothing
      at all because an exception escaped the handler. */
  datatype HttpReply = JsonReply(status: int, body: Body) | TextReply(status: int, text: string) | Crashed

  /** One invocation: the provider call made, if any, and the reply. */
  datatype Outcome = Outcome(call: Option<Call>, reply: HttpReply)

  /** The request: image and instruction, with no `parameters` block. */
  function BuildRequest(dataUrl: Value, apiKey: string): Request {
    Request(MODEL, USER_ROLE, [Image(dataUrl), Text(API_PROMPT)], None, Bearer(apiKey))
  }

  /** The fallback verdict: the lowercased text mentions food in Chinese or
      in English. */
  predicate FallbackIsFood(text: string) {
    Contains(AsciiLower(text), "食物") || Contains(AsciiLower(text), "food")
  }

  /** The object built when no JSON could be recovered. */
  function Fallback(text: string): Value {
    Obj(map[
      "isFood" := Bool(FallbackIsFood(text)),
      "foods" := Arr([]),
      "totalCalories" := Num(0.0),
      "description" := Str(text)])
  }

  /** `{ isFood: r.isFood || false, foods: r.foods || [], … }` on a value
      that is not `null`. */
  function Normalise(v: Value, text: string): (r: ApiResult)
    requires !v.Null?
    ensures IsTruthy(Prop(v, "isFood")) ==> r.isFood == Prop(v, "isFood").value
    ensures IsTruthy(Prop(v, "foods")) ==> r.foods == Prop(v, "foods").value
    ensures IsTruthy(Prop(v, "totalCalories")) ==> r.totalCalories == Prop(v, "totalCalories").value
    ensures IsTruthy(Prop(v, "description")) ==> r.description == Prop(v, "description").value
    ensures !IsTruthy(Prop(v, "isFood")) ==> r.isFood == Bool(false)
    ensures !IsTruthy(Prop(v, "foods")) ==> r.foods == Arr([])
    ensures !IsTruthy(Prop(v, "totalCalories")) ==> r.totalCalories == Num(0.0)
    ensures !IsTruthy(Prop(v, "description")) ==> r.description == Str(text)
  {
    ApiResult(
      Or(Prop(v, "isFood"), Bool(false)),
      Or(Prop(v, "foods"), Arr([])),
      Or(Prop(v, "totalCalories"), Num(0.0)),
      Or(Prop(v, "description"), Str(text)))
  }

  /** Every normalised field is either truthy or exactly its default, so
      none is ever missing or `null`. */
  lemma NormaliseDefaults(v: Value, text: string)
    requires !v.Null?
    ensures var r := Normalise(v, text);
      && (Truthy(r.isFood) || r.isFood == Bool(false))
      && (Truthy(r.foods) || r.foods == Arr([]))
      && (Truthy(r.totalCalories) || r.totalCalories == Num(0.0))
      && (Truthy(r.description) || r.description == Str(text))
  {
  }

  /** Normalising the fallback changes nothing: its booleans, empty list,
      zero and text come through as they are. */
  lemma NormaliseFallback(text: string)
    ensures Normalise(Fallback(text), text) ==
      ApiResult(Bool(FallbackIsFood(text)), Arr([]), Num(0.0), Str(text))
  {
  }

  /** The `catch` block. Reading `error.response.data.message` throws when
      the response carries no data, and that escapes the handler. */
  function Catch(e: JsError): (r: HttpReply)
    ensures e.response.Some? && e.response.value.data.Some? ==>
      var m := e.response.value.data.value.message;
      r == JsonReply(e.response.value.status, ErrorBody("API Error: " + (if m.Some? && m.value != "" then m.value else NO_VALID_RESPONSE)))
    ensures e.response.Some? && e.response.value.data.None? ==> r.Crashed?
    ensures e.response.None? && e.request ==> r == JsonReply(504, ErrorBody(NO_RESPONSE))
    ensures e.response.None? && !e.request ==> r == JsonReply(500, ErrorBody("Request Error: " + e.message))
  {
    match e.response
    case Some(resp) =>
      if resp.data.None? then Crashed
      else
        var detail := resp.data.value.message;
        JsonReply(resp.status, ErrorBody("API Error: " + (if detail.Some? && detail.value != "" then detail.value else NO_VALID_RESPONSE)))
    case None =>
      if e.request then JsonReply(504, ErrorBody(NO_RESPONSE))
      else JsonReply(500, ErrorBody("Request Error: " + e.message))
  }

  /** The analysis value: the recovered JSON, or the fallback object when
      recovery fails. */
  function Recovered(text: string, parse: Parser): (v: Value)
    ensures Recover(text, parse).Success? ==> v == Recover(text, parse).value
    ensures Recover(text, parse).Failure? ==> v == Fallback(text)
  {
    match Recover(text, parse)
    case Success(v) => v
    case Failure(_) => Fallback(text)
  }

  /** Reading the provider's envelope into a reply. */
  function Respond(e: Envelope, parse: Parser): (r: HttpReply)
    ensures !HasChoices(e) ==> r == JsonReply(500, ErrorBody(BAD_ENVELOPE))
    ensures HasChoices(e) && FirstMessage(e) == Some(Unexpected) ==> r == JsonReply(500, ErrorBody(BAD_CONTENT))
    ensures HasChoices(e) && FirstMessage(e).None? ==> r == Catch(Thrown(TYPE_ERROR_TEXT))
    ensures r.JsonReply? && r.status == 200 <==>
      HasChoices(e) && FirstMessage(e).Some? && ContentText(FirstMessage(e).value).Some? &&
      !Recovered(ContentText(FirstMessage(e).value).value, parse).Null?
    ensures r.JsonReply? && r.status == 200 ==> var text := ContentText(FirstMessage(e).value).value;
      r.body == SuccessBody(Normalise(Recovered(text, parse), text))
  {
    if !HasChoices(e) then JsonReply(500, ErrorBody(BAD_ENVELOPE))
    else
      match FirstMessage(e)
      case None => Catch(Thrown(TYPE_ERROR_TEXT))
      case Some(c) =>
        match ContentText(c)
        case None => JsonReply(500, ErrorBody(BAD_CONTENT))
        case Some(text) =>
          var v := Recovered(text, parse);
          if v.Null? then Catch(Thrown(TYPE_ERROR_TEXT))
          else JsonReply(200, SuccessBody(Normalise(v, text)))
  }

  /** One invocation of the handler, with the key read from the environment,
      `JSON.parse` and the network passed in. `body` is `req.body`, `None`
      when it is undefined. */
  function Analyze(httpMethod: string, body: Option<Value>, apiKey: Option<string>, parse: Parser, transport: Transport)
    : (o: Outcome)
    ensures httpMethod != "POST" ==> o == Outcome(None, TextReply(405, METHOD_NOT_ALLOWED))
    ensures httpMethod == "POST" && (body.None? || body.value.Null?) ==> o == Outcome(None, Crashed)
    ensures httpMethod == "POST" && body.Some? && !body.value.Null? && !IsTruthy(Prop(body.value, "dataUrl")) ==>
      o == Outcome(None, JsonReply(400, ErrorBody(MISSING_DATA_URL)))
    ensures (httpMethod == "POST" && body.Some? && !body.value.Null? && IsTruthy(Prop(body.value, "dataUrl")) &&
      (apiKey.None? || apiKey.value == "")) ==> o == Outcome(None, JsonReply(500, ErrorBody(CONFIG_ERROR)))
    ensures o.call.Some? ==>
      && httpMethod == "POST" && body.Some? && IsTruthy(Prop(body.value, "dataUrl"))
      && apiKey.Some? && apiKey.value != ""
      && o.call.value == Call(MAINLAND_ENDPOINT, BuildRequest(Prop(body.value, "dataUrl").value, apiKey.value))
      && o.reply == match transport(o.call.value)
         case Threw(err) => Catch(err)
         case Replied(e) => Respond(e, parse)
    ensures (httpMethod == "POST" && body.Some? && !body.value.Null? && IsTruthy(Prop(body.value, "dataUrl"))
      && apiKey.Some? && apiKey.value != "") ==> o.call.Some?
  {
    if httpMethod != "POST" then Outcome(None, TextReply(405, METHOD_NOT_ALLOWED))
    else if body.None? || body.value.Null? then Outcome(None, Crashed)
    else
      var dataUrl := Prop(body.value, "dataUrl");
      if !IsTruthy(dataUrl) then Outcome(None, JsonReply(400, ErrorBody(MISSING_DATA_URL)))
      else if apiKey.None? || apiKey.value == "" then Outcome(None, JsonReply(500, ErrorBody(CONFIG_ERROR)))
      else
        var call := Call(MAINLAND_ENDPOINT, BuildRequest(dataUrl.value, apiKey.value));
        match transport(call)
        case Threw(err) => Outcome(Some(call), Catch(err))
        case Replied(e) => Outcome(Some(call), Respond(e, parse))
  }

  /** Without recoverable JSON the result is the keyword verdict, no foods,
      a total of 0, and the text: this handler does not scan for calories. */
  lemma FallbackReply(e: Envelope, parse: Parser)
    requires HasChoices(e) && FirstMessage(e).Some? && ContentText(FirstMessage(e).value).Some?
    requires Recover(ContentText(FirstMessage(e).value).value, parse).Failure?
    ensures var text := ContentText(FirstMessage(e).value).value;
      Respond(e, parse) == JsonReply(200, SuccessBody(ApiResult(Bool(FallbackIsFood(text)), Arr([]), Num(0.0), Str(text))))
  {
    NormaliseFallback(ContentText(FirstMessage(e).value).value);
  }

  /** The answer the prompt asks for: an object in a `json` code block is
      parsed as it was sent and, when it is not `null`, normalised into the
      200 body. */
  lemma FencedAnswer(e: Envelope, parse: Parser, o: string, v: Value)
    requires HasChoices(e) && FirstMessage(e).Some?
    requires ContentText(FirstMessage(e).value) == Some("```json\n" + o + "\n```")
    requires |o| >= 2 && o[0] == '{' && o[|o| - 1] == '}' && '`' !in o
    requires !Contains(o, "//") && !Contains(o, "*/")
    requires parse(o) == Success(v) && !v.Null?
    ensures Respond(e, parse) == JsonReply(200, SuccessBody(Normalise(v, "```json\n" + o + "\n```")))
  {
    FencedObject(o, parse);
  }
}
