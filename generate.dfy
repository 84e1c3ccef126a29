/**
 * The `/api/generate` handler: the same early-return validation as the
 * image endpoint, a fixed prompt template around the user's text, and the
 * extraction of the reply text with its `|| 'silence returned.'` fallback
 * and `trim`.
 */
module Generate {
  import opened JsCore
  import opened Http

  const PromptHead: string :=
    "\n      You are a strict design historian.\n      The user provides an everyday object or concept: \""

  const NotFoundSentence: string := "archive data unavailable." + " please try another object."

  const PromptTail: string :=
    "\".\n\n      Task: Identify a REAL, VERIFIED avant-garde design object or artwork from history that challenged the archetype of this concept.\n\n      CRITICAL RULES:\n      1. Do NOT hallucinate. Do NOT invent artworks, products, or dates. Verify the existence of the object before answering.\n      2. If you cannot find a specific, famous example (e.g. from movements like Droog, Memphis, Bauhaus, Dada, etc.), strictly reply with: \""
    + NotFoundSentence +
    "\"\n      3. If a valid example exists, explain strictly HOW it challenged the norm.\n\n      Format: Minimalist, sophisticated, lower-case aesthetic. Max 3 sentences.\n    "

  const Silence: string := "silence returned."
  const StaticNoise: string := "static noise. connection interrupted."

  /** The prompt sent upstream: the template with the user's text spliced in verbatim. */
  function Prompt(input: string): (p: string)
    ensures |p| == |PromptHead| + |input| + |PromptTail|
    ensures p[|PromptHead|..|PromptHead| + |input|] == input
    ensures p[..|PromptHead|] == PromptHead && p[|PromptHead| + |input|..] == PromptTail
  {
    PromptHead + input + PromptTail
  }

  /** Every check before the `try` passes: a POST with a non-empty string `input` and a key. */
  predicate PassesChecks(req: Request, apiKey: Option<string>) {
    req.verb == "POST" && IsNonEmptyString(Field(req, "input")) && KeyConfigured(apiKey)
  }

  /** The prompt sent upstream, present exactly when every check before the `try` passed. */
  function Forwarded(req: Request, apiKey: Option<string>): (p: Option<string>)
    ensures p.Some? <==> PassesChecks(req, apiKey)
    ensures p.Some? ==> p.value == Prompt(Field(req, "input").s)
  {
    if PassesChecks(req, apiKey)
    then Some(Prompt(Field(req, "input").s)) else None
  }

  /** `s` occurs in `p` starting at position `k`. */
  predicate OccursAt(p: string, s: string, k: int) {
    0 <= k <= |p| - |s| && p[k..k + |s|] == s
  }

  lemma SilenceIsTrimmed()
    ensures Trim(Silence) == Silence
  {
    assert Silence[0] == 's' && Silence[|Silence| - 1] == '.';
    TrimUntouched(Silence);
  }

  /**
   * `(text || 'silence returned.').trim()`: `None` when the fallback leaves a
   * value that is not a string, whose missing `trim` method throws.
   */
  function ReplyText(text: JsValue): (r: Option<string>)
    ensures !Truthy(text) ==> r == Some(Silence)
    ensures text.Str? && text.s != "" ==> r == Some(Trim(text.s))
    ensures r.None? <==> Truthy(text) && !text.Str?
  {
    var chosen := if Truthy(text) then text else Str(Silence);
    SilenceIsTrimmed();
    if chosen.Str? then Some(Trim(chosen.s)) else None
  }

  /** The status and body the handler ends with. */
  function Decide(req: Request, apiKey: Option<string>, upstream: Upstream): (r: Reply)
    ensures r.status in {200, 400, 405, 500}
    ensures r.body.Empty? <==> req.verb == "OPTIONS"
    ensures r.status == 405 <==> req.verb != "OPTIONS" && req.verb != "POST"
    ensures r.status == 400 <==> req.verb == "POST" && !IsNonEmptyString(Field(req, "input"))
  {
    if req.verb == "OPTIONS" then Reply(200, Empty)
    else if req.verb != "POST" then ErrorReply(405, "Method not allowed")
    else if !IsNonEmptyString(Field(req, "input")) then ErrorReply(400, "Invalid input")
    else if !KeyConfigured(apiKey) then ErrorReply(500, "API key not configured")
    else Answer(upstream)
  }

  /** The `try` block: the upstream call and the extraction of its text. */
  function Answer(upstream: Upstream): Reply {
    match upstream
    case Threw(_) => ErrorReply(500, StaticNoise)
    case Replied(ok, _, text) =>
      if !ok then ErrorReply(500, StaticNoise)
      else match ReplyText(text)
        case Some(t) => Reply(200, JsonBody(JObj(map["text" := JStr(t)])))
        case None => ErrorReply(500, StaticNoise)
  }

  /** The handler: CORS headers first on every path, then the decided status and body. */
  method Handle(req: Request, apiKey: Option<string>, upstream: Upstream, res: ResponseWriter)
    modifies res
    ensures res.headers == old(res.headers) + CorsHeaders
    ensures res.sent
    ensures Reply(res.statusCode, res.body) == Decide(req, apiKey, upstream)
  {
    WriteCors(res);
    var reply := Decide(req, apiKey, upstream);
    Send(res, reply);
  }

  /** A preflight is answered 200 with no body; any other non-POST method gets 405. */
  lemma MethodGate(req: Request, apiKey: Option<string>, upstream: Upstream)
    ensures req.verb == "OPTIONS" ==> Decide(req, apiKey, upstream) == Reply(200, Empty)
    ensures req.verb != "OPTIONS" && req.verb != "POST" ==>
      Decide(req, apiKey, upstream) == ErrorReply(405, "Method not allowed")
  {
  }

  /** The input is checked before the key. */
  lemma ValidationOrder(req: Request, apiKey: Option<string>, upstream: Upstream)
    requires req.verb == "POST"
    ensures !IsNonEmptyString(Field(req, "input")) ==>
      Decide(req, apiKey, upstream) == ErrorReply(400, "Invalid input")
    ensures IsNonEmptyString(Field(req, "input")) && !KeyConfigured(apiKey) ==>
      Decide(req, apiKey, upstream) == ErrorReply(500, "API key not configured")
  {
  }

  /** The user's text appears verbatim in the prompt that is forwarded. */
  lemma {:induction false} PromptCarriesInput(req: Request, apiKey: Option<string>)
    requires Forwarded(req, apiKey).Some?
    ensures var p := Forwarded(req, apiKey).value; var input := Field(req, "input").s;
      exists k :: OccursAt(p, input, k)
  {
    var p := Forwarded(req, apiKey).value;
    var input := Field(req, "input").s;
    assert OccursAt(p, input, |PromptHead|);
  }

  /**
   * After the checks, every failure of the upstream call, and a reply text
   * that is not a string, gives the one fixed 500; otherwise the reply is
   * 200 with the trimmed text or the fallback.
   */
  lemma ForwardedOutcomes(req: Request, apiKey: Option<string>, upstream: Upstream)
    requires PassesChecks(req, apiKey)
    ensures var r := Decide(req, apiKey, upstream);
      (r.status == 200 <==> upstream.Replied? && upstream.ok && ReplyText(upstream.text).Some?) &&
      (r.status == 200 ==> BodyField(r, "text") == Some(JStr(ReplyText(upstream.text).value))) &&
      (r.status != 200 ==> r == ErrorReply(500, StaticNoise))
  {
    assert Decide(req, apiKey, upstream) == Answer(upstream);
  }

  /** Whitespace-only reply text is not replaced by the fallback: it becomes `{text: ''}`. */
  lemma WhitespaceReplyIsEmptyText(req: Request, apiKey: Option<string>, status: nat, t: string)
    requires PassesChecks(req, apiKey)
    requires t != "" && AllWhitespace(t)
    ensures Decide(req, apiKey, Replied(true, status, Str(t))) ==
      Reply(200, JsonBody(JObj(map["text" := JStr("")])))
  {
    TrimEmptyIff(t);
  }

  /** The model's own "not found" sentence is an ordinary 200 answer, passed through intact. */
  lemma NotFoundIsNotAnError(req: Request, apiKey: Option<string>, status: nat)
    requires PassesChecks(req, apiKey)
    ensures Decide(req, apiKey, Replied(true, status, Str(NotFoundSentence))) ==
      Reply(200, JsonBody(JObj(map["text" := JStr(NotFoundSentence)])))
  {
    assert NotFoundSentence[0] == 'a';
    TrimUntouched(NotFoundSentence);
  }

  /** A reply text that already has no surrounding whitespace comes back unchanged. */
  lemma CleanTextUnchanged(req: Request, apiKey: Option<string>, status: nat, t: string)
    requires PassesChecks(req, apiKey)
    requires t != "" && !IsWhitespace(t[0]) && !IsWhitespace(t[|t| - 1])
    ensures BodyField(Decide(req, apiKey, Replied(true, status, Str(t))), "text") == Some(JStr(t))
  {
    TrimUntouched(t);
  }
}
