/**
 * The footer's newsletter form: the `^\S+@\S+\.\S+$` address check, the
 * idle/loading/success/error status machine around the Formspree request,
 * and the field's reset-on-edit and disabled rules. The request itself is an
 * input of the model.
 */
module Newsletter {
  import opened JsCore

  // ------------------------------------------------------------ the address check

  /** `\S` everywhere: no character of the ECMAScript white-space or line-terminator sets. */
  predicate NoWhitespace(s: string) {
    forall k :: 0 <= k < |s| ==> !IsWhitespace(s[k])
  }

  /**
   * What `/^\S+@\S+\.\S+$/` accepts: no white space anywhere, an '@' with at
   * least one character before it, and a later '.' with at least one
   * character between them and at least one after it.
   */
  predicate IsValidEmail(s: string) {
    NoWhitespace(s) &&
    exists i, j :: 1 <= i && i + 2 <= j <= |s| - 2 && s[i] == '@' && s[j] == '.'
  }

  /** The first position at or after `k` holding `c`, or `|s|` when there is none. */
  function IndexFrom(s: string, c: char, k: nat): (r: nat)
    requires k <= |s|
    ensures k <= r <= |s|
    ensures r < |s| ==> s[r] == c
    ensures forall t :: k <= t < r ==> s[t] != c
    decreases |s| - k
  {
    if k == |s| then |s| else if s[k] == c then k else IndexFrom(s, c, k + 1)
  }

  /** The last position below `n` holding `c`, or -1 when there is none. */
  function LastIndexBelow(s: string, c: char, n: nat): (r: int)
    requires n <= |s|
    ensures -1 <= r < n
    ensures r >= 0 ==> s[r] == c
    ensures forall t :: r < t < n ==> s[t] != c
  {
    if n == 0 then -1 else if s[n - 1] == c then n - 1 else LastIndexBelow(s, c, n - 1)
  }

  /** A direct scan: the first '@' after the first character and the last '.' before the final one. */
  predicate EmailAccepted(s: string) {
    |s| >= 1 && NoWhitespace(s) &&
    var i := IndexFrom(s, '@', 1);
    var j := LastIndexBelow(s, '.', |s| - 1);
    i < |s| && i + 2 <= j
  }

  /** The scan and the pattern accept exactly the same strings. */
  lemma EmailAcceptedIff(s: string)
    ensures EmailAccepted(s) <==> IsValidEmail(s)
  {
    if EmailAccepted(s) {
      var i := IndexFrom(s, '@', 1);
      var j := LastIndexBelow(s, '.', |s| - 1);
      assert 1 <= i && i + 2 <= j <= |s| - 2 && s[i] == '@' && s[j] == '.';
    }
    if IsValidEmail(s) {
      var i, j :| 1 <= i && i + 2 <= j <= |s| - 2 && s[i] == '@' && s[j] == '.';
      var i0 := IndexFrom(s, '@', 1);
      var j0 := LastIndexBelow(s, '.', |s| - 1);
      assert i0 <= i;
      assert j <= j0;
    }
  }

  /** Some addresses the pattern accepts and rejects. */
  lemma EmailExamples()
    ensures IsValidEmail("a@b.co")
    ensures !IsValidEmail("a@.co")
    ensures !IsValidEmail("@b.co")
    ensures !IsValidEmail("a@b.")
    ensures !IsValidEmail("")
  {
    var ok := "a@b.co";
    assert ok[1] == '@' && ok[3] == '.';
    EmailAcceptedIff("a@.co");
    EmailAcceptedIff("@b.co");
    EmailAcceptedIff("a@b.");
  }

  // ------------------------------------------------------------ the status machine

  datatype Status = Idle | Loading | Success | Error

  /**
   * `data.errors` on a non-ok reply: absent; an array, each entry's `message`
   * (None when it is undefined or null, which `join` renders as ""); or
   * something that makes the handler throw (not an array, or a null body).
   */
  datatype ErrorsField = Absent | Listed(messages: seq<Option<string>>) | Unusable

  /** The Formspree round trip: a thrown `fetch` or `response.json()`, or a parsed reply. */
  datatype Reply = Threw | Replied(ok: bool, errors: ErrorsField)

  const InvalidEmail: string := "Invalid email address."
  const ThankYou: string := "Thank you. You have been added to the list."
  const Generic: string := "Something went wrong. Please try again."
  const NetworkError: string := "Network error. Please try again later."

  /** `Array.prototype.join` renders undefined and null entries as the empty string. */
  function Rendered(m: Option<string>): string {
    if m.Some? then m.value else ""
  }

  function RenderedAll(ms: seq<Option<string>>): (r: seq<string>)
    ensures |r| == |ms|
    ensures forall k :: 0 <= k < |ms| ==> r[k] == Rendered(ms[k])
  {
    if ms == [] then [] else [Rendered(ms[0])] + RenderedAll(ms[1..])
  }

  /** The status and message a settled request leaves, and whether the field is cleared. */
  datatype Feedback = Feedback(status: Status, message: string, clearEmail: bool)

  function Settled(reply: Reply): (f: Feedback)
    ensures f.status == Success <==> reply.Replied? && reply.ok
    ensures f.status != Success ==> f.status == Error && !f.clearEmail
    ensures f.status == Success ==> f.message == ThankYou && f.clearEmail
    ensures reply.Replied? && !reply.ok && reply.errors.Listed? ==>
      f.message == Join(RenderedAll(reply.errors.messages), ", ")
    ensures reply.Threw? || (reply.Replied? && !reply.ok && reply.errors.Unusable?) ==> f.message == NetworkError
    ensures reply.Replied? && !reply.ok && reply.errors.Absent? ==> f.message == Generic
  {
    match reply
    case Threw => Feedback(Error, NetworkError, false)
    case Replied(ok, errors) =>
      if ok then Feedback(Success, ThankYou, true)
      else match errors
        case Listed(ms) => Feedback(Error, Join(RenderedAll(ms), ", "), false)
        case Absent => Feedback(Error, Generic, false)
        case Unusable => Feedback(Error, NetworkError, false)
  }

  /** A single reported error is shown as is; an empty list leaves the message empty. */
  lemma ListedMessages(m: string)
    ensures Settled(Replied(false, Listed([Some(m)]))).message == m
    ensures Settled(Replied(false, Listed([]))).message == ""
  {
  }

  /** The form's state. */
  class Form {
    var email: string
    var status: Status
    var message: string

    constructor ()
      ensures email == "" && status == Idle && message == ""
    {
      email := "";
      status := Idle;
      message := "";
    }

    /** The input and the button are disabled while a request is in flight and after success. */
    predicate Disabled()
      reads this
    {
      status == Loading || status == Success
    }

    /**
     * `handleSubscribe` up to the request: an address the pattern rejects
     * sets the error state and sends nothing; otherwise the form goes to
     * loading with the message cleared, and the address is sent.
     */
    method Submit() returns (sent: Option<string>)
      modifies this`status, this`message
      ensures sent.Some? <==> IsValidEmail(email)
      ensures sent.None? ==> status == Error && message == InvalidEmail
      ensures sent.Some? ==> sent.value == email && status == Loading && message == ""
    {
      if email == "" || !EmailAccepted(email) {
        EmailAcceptedIff(email);
        status := Error;
        message := InvalidEmail;
        return None;
      }
      EmailAcceptedIff(email);
      status := Loading;
      message := "";
      sent := Some(email);
    }

    /**
     * A submit from the page. The input and the button are both disabled
     * while a request is in flight and after success, so no submit gets
     * through then; otherwise it is `handleSubscribe`.
     */
    method Attempt() returns (sent: Option<string>)
      modifies this`status, this`message
      ensures old(Disabled()) ==> sent.None? && status == old(status) && message == old(message)
      ensures !old(Disabled()) ==> (sent.Some? <==> IsValidEmail(email))
      ensures !old(Disabled()) && sent.None? ==> status == Error && message == InvalidEmail
      ensures !old(Disabled()) && sent.Some? ==> sent.value == email && status == Loading && message == ""
    {
      sent := None;
      if !Disabled() {
        sent := Submit();
      }
    }

    /** The rest of `handleSubscribe`, once the request settles. */
    method Settle(reply: Reply)
      requires status == Loading
      modifies this`status, this`message, this`email
      ensures var f := Settled(reply);
        status == f.status && message == f.message &&
        email == (if f.clearEmail then "" else old(email))
    {
      match reply
      case Threw =>
        status := Error;
        message := NetworkError;
      case Replied(ok, errors) =>
        if ok {
          status := Success;
          message := ThankYou;
          email := "";
        } else {
          match errors
          case Listed(ms) =>
            status := Error;
            message := Join(RenderedAll(ms), ", ");
          case Absent =>
            status := Error;
            message := Generic;
          case Unusable =>
            status := Error;
            message := NetworkError;
        }
    }

    /** The field's `onChange`: any edit returns the form to idle with no message. */
    method Edit(value: string)
      modifies this`email, this`status, this`message
      ensures email == value && status == Idle && message == ""
    {
      email := value;
      if status != Idle {
        status := Idle;
      }
      if message != "" {
        message := "";
      }
    }
  }
}
