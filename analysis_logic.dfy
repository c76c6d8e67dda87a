/** `performAnalysis`, the analysis routine behind the Express server: pick
    the endpoint for the platform, refuse to run without a key, post the
    image with the prompt, and read the total calories and the food verdict
    out of the provider's text. */
module AnalysisLogic {
  import opened Wrappers
  import opened Text
  import Json
  import opened Provider
  import opened Calories

  const KEY_MISSING := "服务器配置错误：API密钥未设置"
  const BAD_ENVELOPE := "API返回了意料之外的数据结构"

  /** What one run of `performAnalysis` does: the POST it makes, if any, and
      the value it resolves to or the error it rejects with. */
  datatype Outcome = Outcome(call: Option<Call>, result: Result<Analysis, JsError>)

  /** The endpoint for a platform hint. */
  function ApiUrl(platform: Option<string>): (url: string)
    ensures url == INTL_ENDPOINT <==> platform == Some("netlify")
    ensures url == MAINLAND_ENDPOINT <==> platform != Some("netlify")
  {
    if platform == Some("netlify") then INTL_ENDPOINT else MAINLAND_ENDPOINT
  }

  /** `!apiKey`: the key is unset or empty. */
  predicate KeyMissing(apiKey: Option<string>) {
    apiKey.None? || apiKey.value == ""
  }

  /** The request body: the image and the instruction, asking for the
      `message` result format. */
  function BuildRequest(dataUrl: Json.Value, apiKey: string): Request {
    Request(MODEL, USER_ROLE, [Image(dataUrl), Text(SHARED_PROMPT)], Some(MESSAGE_FORMAT), Bearer(apiKey))
  }

  /** The verdict: the text mentions food, or a positive total was found. */
  predicate IsFood(text: string) {
    Contains(AsciiLower(text), "食物") || TotalCalories(text) > 0
  }

  /** Reading the provider's envelope. Only string content is understood;
      any other content, or a choice without a message, makes the string
      methods fail with a `TypeError`. */
  function Interpret(e: Envelope): (r: Result<Analysis, JsError>)
    ensures !HasChoices(e) ==> r == Failure(Thrown(BAD_ENVELOPE))
    ensures r.Success? <==> HasChoices(e) && FirstMessage(e).Some? && FirstMessage(e).value.Plain?
    ensures r.Success? ==> var text := FirstMessage(e).value.s;
      && r.value.description == text
      && r.value.foods == []
      && r.value.totalCalories == TotalCalories(text)
      && (r.value.isFood <==> Contains(text, "食物") || r.value.totalCalories > 0)
    ensures r.Failure? && HasChoices(e) ==> r.error == Thrown(TYPE_ERROR_TEXT)
  {
    if !HasChoices(e) then Failure(Thrown(BAD_ENVELOPE))
    else
      match FirstMessage(e)
      case Some(Plain(text)) =>
        LowerContainsKeyword(text, "食物");
        Success(Analysis(IsFood(text), [], TotalCalories(text), text))
      case _ => Failure(Thrown(TYPE_ERROR_TEXT))
  }

  /** One run of `performAnalysis`, with the key read from the environment
      and the network passed in. */
  function PerformAnalysis(dataUrl: Json.Value, platform: Option<string>, apiKey: Option<string>, transport: Transport)
    : (o: Outcome)
    ensures KeyMissing(apiKey) <==> o.call.None?
    ensures KeyMissing(apiKey) ==> o.result == Failure(Thrown(KEY_MISSING))
    ensures o.call.Some? ==>
      && o.call.value.url == ApiUrl(platform)
      && o.call.value.request.model == MODEL
      && o.call.value.request.content == [Image(dataUrl), Text(SHARED_PROMPT)]
      && o.call.value.request.resultFormat == Some(MESSAGE_FORMAT)
      && o.call.value.request.authorization == "Bearer " + apiKey.value
    ensures o.call.Some? ==> match transport(o.call.value)
      case Threw(err) => o.result == Failure(err)
      case Replied(e) => o.result == Interpret(e)
  {
    if KeyMissing(apiKey) then Outcome(None, Failure(Thrown(KEY_MISSING)))
    else
      var call := Call(ApiUrl(platform), BuildRequest(dataUrl, apiKey.value));
      match transport(call)
      case Threw(err) => Outcome(Some(call), Failure(err))
      case Replied(e) => Outcome(Some(call), Interpret(e))
  }

  /** The run depends on the network only through the answer to the one call
      it makes. */
  lemma OnlyTheCallMatters(dataUrl: Json.Value, platform: Option<string>, apiKey: Option<string>, t1: Transport, t2: Transport)
    requires !KeyMissing(apiKey)
    requires var c := Call(ApiUrl(platform), BuildRequest(dataUrl, apiKey.value)); t1(c) == t2(c)
    ensures PerformAnalysis(dataUrl, platform, apiKey, t1) == PerformAnalysis(dataUrl, platform, apiKey, t2)
  {
  }

  /** Without a key nothing is sent, whatever the network would answer. */
  lemma NoKeyNoNetwork(dataUrl: Json.Value, platform: Option<string>, apiKey: Option<string>, t1: Transport, t2: Transport)
    requires KeyMissing(apiKey)
    ensures PerformAnalysis(dataUrl, platform, apiKey, t1) == PerformAnalysis(dataUrl, platform, apiKey, t2)
    ensures PerformAnalysis(dataUrl, platform, apiKey, t1).call.None?
  {
  }
}
