/**
 * The `/api/analyze-architecture` handler: an early-return validation chain
 * in front of one call to the upstream model, whose reply text is parsed as
 * JSON and relayed verbatim. `JSON.parse` is a parameter of the model.
 */
module AnalyzeArchitecture {
  import opened JsCore
  import opened Http

  /** What is forwarded upstream: the image data and its MIME type, unchanged. */
  datatype ImagePayload = ImagePayload(data: string, mimeType: string)

  /** The result of `JSON.parse(text)`, after its coercion of `text` to a string. */
  datatype Parsed = Parsed(value: Json) | SyntaxError(message: string)

  /** The outcome of the `try` block: the parsed profile, or what it threw. */
  datatype Attempt = Succeeded(profile: Json) | Failed(error: Thrown)

  /** The `try` block from the `fetch` to `JSON.parse`. */
  function Analyse(upstream: Upstream, parse: JsValue -> Parsed): (a: Attempt)
    ensures a.Succeeded? <==>
      upstream.Replied? && upstream.ok && Truthy(upstream.text) && parse(upstream.text).Parsed?
    ensures a.Succeeded? ==> a.profile == parse(upstream.text).value
  {
    match upstream
    case Threw(e) => Failed(e)
    case Replied(ok, status, text) =>
      if !ok then Failed(ErrorValue("Gemini API request failed: " + NatToString(status)))
      else if !Truthy(text) then Failed(ErrorValue("No response from Gemini"))
      else match parse(text)
        case Parsed(v) => Succeeded(v)
        case SyntaxError(m) => Failed(ErrorValue(m))
  }

  /** The payload sent upstream, present exactly when every check before the `try` passed. */
  function Forwarded(req: Request, apiKey: Option<string>): (p: Option<ImagePayload>)
    ensures p.Some? <==>
      req.verb == "POST" && IsNonEmptyString(Field(req, "base64Image")) &&
      IsNonEmptyString(Field(req, "mimeType")) && KeyConfigured(apiKey)
    ensures p.Some? ==>
      Field(req, "base64Image") == Str(p.value.data) && Field(req, "mimeType") == Str(p.value.mimeType)
  {
    if req.verb == "POST" && IsNonEmptyString(Field(req, "base64Image")) &&
       IsNonEmptyString(Field(req, "mimeType")) && KeyConfigured(apiKey)
    then Some(ImagePayload(Field(req, "base64Image").s, Field(req, "mimeType").s))
    else None
  }

  const AnalysisFailed := "Analysis failed. Please try again."

  /** The status and body the handler ends with. */
  function Decide(req: Request, apiKey: Option<string>, upstream: Upstream, parse: JsValue -> Parsed): (r: Reply)
    ensures r.status in {200, 400, 405, 500}
    ensures r.body.Empty? <==> req.verb == "OPTIONS"
    ensures r.status == 405 <==> req.verb != "OPTIONS" && req.verb != "POST"
    ensures r.status == 400 ==> req.verb == "POST"
  {
    if req.verb == "OPTIONS" then Reply(200, Empty)
    else if req.verb != "POST" then ErrorReply(405, "Method not allowed")
    else if !IsNonEmptyString(Field(req, "base64Image")) then ErrorReply(400, "Invalid image data")
    else if !IsNonEmptyString(Field(req, "mimeType")) then ErrorReply(400, "Invalid mime type")
    else if !KeyConfigured(apiKey) then ErrorReply(500, "API key not configured")
    else match Analyse(upstream, parse)
      case Succeeded(profile) => Reply(200, JsonBody(profile))
      case Failed(e) =>
        Reply(500, JsonBody(JObj(map["error" := JStr(AnalysisFailed), "details" := JStr(Details(e))])))
  }

  /** The handler: CORS headers first on every path, then the decided status and body. */
  method Handle(req: Request, apiKey: Option<string>, upstream: Upstream, parse: JsValue -> Parsed,
                res: ResponseWriter)
    modifies res
    ensures res.headers == old(res.headers) + CorsHeaders
    ensures res.sent
    ensures Reply(res.statusCode, res.body) == Decide(req, apiKey, upstream, parse)
  {
    WriteCors(res);
    var reply := Decide(req, apiKey, upstream, parse);
    Send(res, reply);
  }

  /** A preflight is answered 200 with no body whatever the body, the key or the upstream. */
  lemma OptionsPreflight(req: Request, apiKey: Option<string>, upstream: Upstream, parse: JsValue -> Parsed)
    requires req.verb == "OPTIONS"
    ensures Decide(req, apiKey, upstream, parse) == Reply(200, Empty)
  {
  }

  /** Every method but OPTIONS and POST, GET included, is refused. */
  lemma OtherMethodsRefused(req: Request, apiKey: Option<string>, upstream: Upstream, parse: JsValue -> Parsed)
    requires req.verb != "OPTIONS" && req.verb != "POST"
    ensures Decide(req, apiKey, upstream, parse) == ErrorReply(405, "Method not allowed")
    ensures CorsHeaders["Access-Control-Allow-Methods"][..3] == "GET"
  {
  }

  /** The image is checked before the MIME type, and both before the key. */
  lemma ValidationOrder(req: Request, apiKey: Option<string>, upstream: Upstream, parse: JsValue -> Parsed)
    requires req.verb == "POST"
    ensures !IsNonEmptyString(Field(req, "base64Image")) ==>
      Decide(req, apiKey, upstream, parse) == ErrorReply(400, "Invalid image data")
    ensures IsNonEmptyString(Field(req, "base64Image")) && !IsNonEmptyString(Field(req, "mimeType")) ==>
      Decide(req, apiKey, upstream, parse) == ErrorReply(400, "Invalid mime type")
    ensures (IsNonEmptyString(Field(req, "base64Image")) && IsNonEmptyString(Field(req, "mimeType")) &&
             !KeyConfigured(apiKey)) ==>
      Decide(req, apiKey, upstream, parse) == ErrorReply(500, "API key not configured")
  {
  }

  /** An empty image string is invalid input, not a missing-key or upstream error. */
  lemma EmptyImageRejected(req: Request, apiKey: Option<string>, upstream: Upstream, parse: JsValue -> Parsed)
    requires req.verb == "POST" && Field(req, "base64Image") == Str("")
    ensures Decide(req, apiKey, upstream, parse).status == 400
    ensures BodyField(Decide(req, apiKey, upstream, parse), "error") == Some(JStr("Invalid image data"))
  {
  }

  /** Until the payload is forwarded, the upstream outcome cannot influence the reply. */
  lemma UpstreamOnlyAfterChecks(req: Request, apiKey: Option<string>, u1: Upstream, u2: Upstream,
                                parse: JsValue -> Parsed)
    requires Forwarded(req, apiKey).None?
    ensures Decide(req, apiKey, u1, parse) == Decide(req, apiKey, u2, parse)
  {
  }

  /**
   * Once forwarded, the reply is 200 with exactly the parsed text, or 500 with
   * the fixed error and a `details` string; nothing else.
   */
  lemma ForwardedOutcomes(req: Request, apiKey: Option<string>, upstream: Upstream, parse: JsValue -> Parsed)
    requires Forwarded(req, apiKey).Some?
    ensures var r := Decide(req, apiKey, upstream, parse);
      (r.status == 200 <==> Analyse(upstream, parse).Succeeded?) &&
      (r.status == 200 ==> r.body == JsonBody(parse(upstream.text).value)) &&
      (r.status != 200 ==>
         (r.status == 500 &&
          BodyField(r, "error") == Some(JStr(AnalysisFailed)) &&
          BodyField(r, "details").Some? && BodyField(r, "details").value.JStr?))
  {
  }

  /** A non-ok upstream status is reported in `details` with that status in decimal. */
  lemma UpstreamStatusInDetails(req: Request, apiKey: Option<string>, status: nat, text: JsValue,
                                parse: JsValue -> Parsed)
    requires Forwarded(req, apiKey).Some?
    ensures BodyField(Decide(req, apiKey, Replied(false, status, text), parse), "details") ==
      Some(JStr("Gemini API request failed: " + NatToString(status)))
  {
  }

  /** A reply without text never reaches `JSON.parse`. */
  lemma MissingTextIsFailure(req: Request, apiKey: Option<string>, status: nat, text: JsValue,
                             parse: JsValue -> Parsed)
    requires Forwarded(req, apiKey).Some? && !Truthy(text)
    ensures BodyField(Decide(req, apiKey, Replied(true, status, text), parse), "details") ==
      Some(JStr("No response from Gemini"))
  {
  }
}
