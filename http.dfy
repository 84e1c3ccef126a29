/**
 * What the two serverless handlers share: the request they read, the JSON
 * they write, the reply the upstream generative-AI service gives them, and
 * the Vercel response object they write headers, a status and a body to.
 */
module Http {
  import opened JsCore

  /** A JSON value as serialised by `res.json(...)`. */
  datatype Json =
    | JNull
    | JBool(b: bool)
    | JNum(x: real)
    | JStr(s: string)
    | JArr(items: seq<Json>)
    | JObj(fields: map<string, Json>)

  /** An incoming request: its method (`verb`) and its parsed JSON body. */
  datatype Request = Request(verb: string, body: map<string, JsValue>)

  /** Destructuring `const { key } = req.body`: a missing key reads as undefined. */
  function Field(req: Request, key: string): (v: JsValue)
    ensures key !in req.body ==> v == Undefined
  {
    if key in req.body then req.body[key] else Undefined
  }

  /** `process.env.GEMINI_API_KEY` passes `if (!API_KEY)` only when set and non-empty. */
  predicate KeyConfigured(apiKey: Option<string>) {
    apiKey.Some? && apiKey.value != ""
  }

  /** What a `catch (error)` clause receives. */
  datatype Thrown = ErrorValue(message: string) | NonErrorValue

  /** `error instanceof Error ? error.message : 'Unknown error'`. */
  function Details(e: Thrown): string {
    match e
    case ErrorValue(m) => m
    case NonErrorValue => "Unknown error"
  }

  /**
   * The outcome of the `fetch` to the upstream service: either the call (or
   * reading its JSON body) threw, or a reply arrived with its `ok` flag, its
   * status and `data?.candidates?.[0]?.content?.parts?.[0]?.text` (undefined
   * when any link of that chain is missing).
   */
  datatype Upstream =
    | Threw(error: Thrown)
    | Replied(ok: bool, status: nat, text: JsValue)

  datatype Body = Empty | JsonBody(json: Json)

  /** The status and body a handler ends with. */
  datatype Reply = Reply(status: nat, body: Body)

  /** `res.status(code).json({ error: message })`. */
  function ErrorReply(code: nat, message: string): (r: Reply)
    ensures r.status == code
    ensures r.body.JsonBody? && r.body.json.JObj? && r.body.json.fields.Keys == {"error"}
    ensures r.body.json.fields["error"] == JStr(message)
  {
    Reply(code, JsonBody(JObj(map["error" := JStr(message)])))
  }

  /** The value `res.json({...})` stored under `key`, if the reply carries an object holding it. */
  function BodyField(r: Reply, key: string): Option<Json> {
    if r.body.JsonBody? && r.body.json.JObj? && key in r.body.json.fields
    then Some(r.body.json.fields[key]) else None
  }

  const AllowCredentials: string := "Access-Control-Allow-Credentials"
  const AllowOrigin: string := "Access-Control-Allow-Origin"
  const AllowMethods: string := "Access-Control-Allow-Methods"
  const AllowHeaders: string := "Access-Control-Allow-Headers"
  const AllowedHeaderList: string :=
    "X-CSRF-Token, X-Requested-With, Accept, Accept-Version, Content-Length, Content-MD5, Content-Type, Date, X-Api-Version"

  /** The four CORS headers both handlers set before anything else. */
  const CorsHeaders: map<string, string> := map[
    AllowCredentials := "true",
    AllowOrigin := "*",
    AllowMethods := "GET,OPTIONS,POST",
    AllowHeaders := AllowedHeaderList
  ]

  /** Setting the four headers one after the other overrides exactly those four. */
  lemma CorsOverride(h: map<string, string>)
    ensures h[AllowCredentials := "true"][AllowOrigin := "*"][AllowMethods := "GET,OPTIONS,POST"]
             [AllowHeaders := AllowedHeaderList] == h + CorsHeaders
  {
    assert AllowMethods[21] != AllowHeaders[21];
    assert |AllowCredentials| != |AllowOrigin| && |AllowOrigin| != |AllowMethods|;
    assert |AllowCredentials| != |AllowMethods| && |AllowCredentials| != |AllowHeaders|;
    assert |AllowOrigin| != |AllowHeaders|;
    var l := h[AllowCredentials := "true"][AllowOrigin := "*"][AllowMethods := "GET,OPTIONS,POST"]
             [AllowHeaders := AllowedHeaderList];
    var r := h + CorsHeaders;
    assert l.Keys == r.Keys;
    forall k | k in l
      ensures l[k] == r[k]
    {
      if k in CorsHeaders {
        assert r[k] == CorsHeaders[k];
      }
    }
  }

  /** The Vercel response object, reduced to what the handlers write to it. */
  class ResponseWriter {
    var headers: map<string, string>
    var statusCode: nat
    var body: Body
    var sent: bool

    constructor ()
      ensures headers == map[] && statusCode == 200 && body == Empty && !sent
    {
      headers := map[];
      statusCode := 200;
      body := Empty;
      sent := false;
    }

    /** `res.setHeader(name, value)`: replaces any earlier value of that header. */
    method SetHeader(name: string, value: string)
      modifies this
      ensures headers == old(headers)[name := value]
      ensures statusCode == old(statusCode) && body == old(body) && sent == old(sent)
    {
      headers := headers[name := value];
    }

    /** `res.status(code)`. */
    method Status(code: nat)
      modifies this
      ensures statusCode == code
      ensures headers == old(headers) && body == old(body) && sent == old(sent)
    {
      statusCode := code;
    }

    /** `res.end()`: sends the response with no body. */
    method End()
      modifies this
      ensures sent && body == Empty
      ensures headers == old(headers) && statusCode == old(statusCode)
    {
      body := Empty;
      sent := true;
    }

    /** `res.json(value)`: sends the response with a JSON body. */
    method SendJson(value: Json)
      modifies this
      ensures sent && body == JsonBody(value)
      ensures headers == old(headers) && statusCode == old(statusCode)
    {
      body := JsonBody(value);
      sent := true;
    }
  }

  /** The four `res.setHeader` calls at the top of each handler. */
  method WriteCors(res: ResponseWriter)
    modifies res
    ensures res.headers == old(res.headers) + CorsHeaders
    ensures res.statusCode == old(res.statusCode) && res.body == old(res.body) && res.sent == old(res.sent)
  {
    ghost var h := res.headers;
    res.SetHeader(AllowCredentials, "true");
    res.SetHeader(AllowOrigin, "*");
    res.SetHeader(AllowMethods, "GET,OPTIONS,POST");
    res.SetHeader(AllowHeaders, AllowedHeaderList);
    CorsOverride(h);
  }

  /** `res.status(reply.status)` followed by `.end()` or `.json(...)`. */
  method Send(res: ResponseWriter, reply: Reply)
    modifies res
    ensures res.sent && res.statusCode == reply.status && res.body == reply.body
    ensures res.headers == old(res.headers)
  {
    res.Status(reply.status);
    match reply.body
    case Empty => res.End();
    case JsonBody(j) => res.SendJson(j);
  }
}
