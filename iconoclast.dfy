/**
 * "The Iconoclast" prototype: a text field whose submit handler does nothing
 * for blank input, and otherwise posts the trimmed text to `/api/generate`
 * and shows the reply text, a fallback, or a fixed error line.
 */
module Iconoclast {
  import opened JsCore
  import opened Http
  import Generate

  /** What the client's `fetch('/api/generate', ...)` gives back. */
  datatype Fetched = NetworkError | Received(reply: Reply)

  /** A serialised JSON value as seen again by `response.json()`. */
  function ToJs(j: Json): (v: JsValue)
    ensures j.JStr? <==> v.Str?
    ensures j.JStr? ==> v.s == j.s
  {
    match j
    case JNull => Null
    case JBool(b) => Bool(b)
    case JNum(x) => Num(x)
    case JStr(s) => Str(s)
    case JArr(_) => Obj
    case JObj(_) => Obj
  }

  /** `data.text`: undefined unless the body is an object with a `text` member. */
  function TextOf(reply: Reply): JsValue {
    match BodyField(reply, "text")
    case None => Undefined
    case Some(j) => ToJs(j)
  }

  /** `response.ok`: a status in 200..299. */
  predicate IsOk(status: nat) {
    200 <= status < 300
  }

  const StaticNoise: string := "static noise. connection interrupted."

  /**
   * A body the client cannot read `text` from: `response.json()` rejects an
   * empty body, and `data.text` throws on a body that is JSON `null`.
   */
  predicate Unreadable(reply: Reply) {
    reply.body.Empty? || reply.body.json.JNull?
  }

  /**
   * What ends up in `output` once the request settles: a failed request, a non-ok
   * status or an unreadable body gives the fixed error line; otherwise
   * `data.text || 'silence returned.'`.
   */
  function Displayed(fetched: Fetched): (v: JsValue)
    ensures Truthy(v)
    ensures fetched.NetworkError? || !IsOk(fetched.reply.status) || Unreadable(fetched.reply) ==>
      v == Str(StaticNoise)
    ensures fetched.Received? && IsOk(fetched.reply.status) && !Unreadable(fetched.reply) ==>
      v == (if Truthy(TextOf(fetched.reply)) then TextOf(fetched.reply) else Str(Generate.Silence))
  {
    match fetched
    case NetworkError => Str(StaticNoise)
    case Received(reply) =>
      if !IsOk(reply.status) || Unreadable(reply) then Str(StaticNoise)
      else if Truthy(TextOf(reply)) then TextOf(reply)
      else Str(Generate.Silence)
  }

  /** The request body `JSON.stringify({ input: input.trim() })`. */
  function RequestFor(input: string): Request {
    Request("POST", map["input" := Str(Trim(input))])
  }

  /**
   * The component's state. `handleDeconstruct` is asynchronous: `Deconstruct`
   * is its part up to the `await`, and `Settle` is its continuation once a
   * reply (or a failure) arrives. Requests may overlap, since the Enter key
   * bypasses the button's `disabled`; `pending` counts those not yet settled.
   */
  class Prototype {
    var input: string
    var output: Option<JsValue>  // null until the first reply
    var loading: bool
    var pending: nat

    constructor ()
      ensures input == "" && output == None && !loading && pending == 0
    {
      input := "";
      output := None;
      loading := false;
      pending := 0;
    }

    /** The field's `onChange`. */
    method Type(value: string)
      modifies this
      ensures input == value && output == old(output) && loading == old(loading) && pending == old(pending)
    {
      input := value;
    }

    /** The submit button is disabled while loading or while the field is empty. */
    predicate ButtonDisabled()
      reads this
    {
      loading || input == ""
    }

    /**
     * `handleDeconstruct` up to the `await`: blank input (after trimming)
     * returns at once; any other input turns loading on and sends the trimmed
     * text, whether or not an earlier request is still pending.
     */
    method Deconstruct() returns (sent: Option<Request>)
      modifies this`loading, this`pending
      ensures sent.None? <==> Trim(input) == ""
      ensures sent.None? ==> loading == old(loading) && pending == old(pending)
      ensures sent.Some? ==> sent.value == RequestFor(input) && loading && pending == old(pending) + 1
    {
      if Trim(input) == "" {
        return None;
      }
      loading := true;
      pending := pending + 1;
      sent := Some(RequestFor(input));
    }

    /**
     * The continuation of one pending request: the reply decides `output`, and
     * loading is switched off even when other requests are still pending.
     */
    method Settle(fetched: Fetched)
      requires pending > 0
      modifies this`output, this`loading, this`pending
      ensures output == Some(Displayed(fetched)) && !loading && pending == old(pending) - 1
    {
      output := Some(Displayed(fetched));
      loading := false;
      pending := pending - 1;
    }

    /** `handleKeyDown`: Enter submits, even while a request is loading. */
    method KeyDown(key: string) returns (sent: Option<Request>)
      modifies this`loading, this`pending
      ensures key != "Enter" ==> sent.None? && loading == old(loading) && pending == old(pending)
      ensures key == "Enter" ==> (sent.None? <==> Trim(input) == "")
      ensures key == "Enter" && sent.Some? ==> sent.value == RequestFor(input) && loading && pending == old(pending) + 1
    {
      sent := None;
      if key == "Enter" {
        sent := Deconstruct();
      }
    }

    /** The button's `onClick`: a disabled button swallows the click. */
    method Click() returns (sent: Option<Request>)
      modifies this`loading, this`pending
      ensures old(ButtonDisabled()) ==> sent.None? && loading == old(loading) && pending == old(pending)
      ensures !old(ButtonDisabled()) ==> (sent.None? <==> Trim(input) == "")
      ensures !old(ButtonDisabled()) && sent.Some? ==>
        sent.value == RequestFor(input) && loading && pending == old(pending) + 1
    {
      sent := None;
      if !ButtonDisabled() {
        sent := Deconstruct();
      }
    }
  }

  /** A whitespace-only field leaves the button enabled but sends nothing. */
  lemma {:induction false} BlankInputSendsNothing(input: string)
    requires input != "" && AllWhitespace(input)
    ensures Trim(input) == ""
  {
    TrimEmptyIff(input);
  }

  /** Whatever the Iconoclast sends passes the endpoint's input check. */
  lemma {:induction false} SentRequestPassesValidation(input: string, apiKey: Option<string>, upstream: Upstream)
    requires Trim(input) != ""
    ensures Generate.Decide(RequestFor(input), apiKey, upstream).status != 400
  {
    assert Field(RequestFor(input), "input") == Str(Trim(input));
  }

  /**
   * End to end: a string reply from the upstream model is shown trimmed, and
   * falls back to "silence returned." exactly when trimming leaves nothing.
   */
  lemma {:induction false} EndToEndText(input: string, apiKey: Option<string>, status: nat, t: string)
    requires Trim(input) != "" && KeyConfigured(apiKey)
    ensures Displayed(Received(Generate.Decide(RequestFor(input), apiKey, Replied(true, status, Str(t))))) ==
      Str(if Trim(t) != "" then Trim(t) else Generate.Silence)
  {
    assert Field(RequestFor(input), "input") == Str(Trim(input));
    if t == "" {
      Generate.SilenceIsTrimmed();
    }
  }

  /** End to end: any upstream failure shows the fixed error line. */
  lemma {:induction false} EndToEndFailure(input: string, apiKey: Option<string>, e: Thrown)
    requires Trim(input) != "" && KeyConfigured(apiKey)
    ensures Displayed(Received(Generate.Decide(RequestFor(input), apiKey, Threw(e)))) == Str(StaticNoise)
  {
    assert Field(RequestFor(input), "input") == Str(Trim(input));
  }
}
