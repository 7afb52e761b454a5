/**
 * The lead-intake endpoint: a POST whose JSON body is validated against the
 * lead schema and, when valid and a webhook URL is configured, forwarded to
 * that webhook; the webhook's outcome is turned into the reply
 * `{ ok, error? }` with status 200, 400, 500 or 502.
 *
 * The handler is modelled as a function of its inputs: the parsed body, the
 * configured URL, the email-format test, the schema library's wording of
 * type failures, and `send`, which stands for the outbound HTTP call and
 * gives what came back for a given request. Besides the reply, the model
 * returns the outbound request the handler made, if any.
 */
module LeadRoute {
  import opened Wrappers
  import opened Text
  import opened LeadSchema

  /** How many characters of a failing webhook's body are quoted back. */
  const PREVIEW_LENGTH := 200

  const JSON_CONTENT_TYPE := "application/json"

  const SERVER_ERROR := "Server error occurred"
  const NOT_CONFIGURED := "Webhook URL is not configured"
  const CONNECT_FAILED := "Failed to connect to webhook: "
  const UNKNOWN_ERROR := "Unknown error"
  const SCENARIO_MARKER := "There is no scenario listening"
  const SCENARIO_NOT_LISTENING := "Make scenario is not listening. Click Save, then Run once in Make, then retry."
  const SEND_FAILED := "Failed to send to webhook (Status: "

  /** The request body: text that is not JSON, or the JSON value it parses to. */
  datatype Body = Malformed | Json(input: Input)

  /** The JSON object sent to the webhook. */
  datatype Payload = Payload(name: string, email: string, phone: string)

  /** The outbound POST: where it goes, its Content-Type header and its JSON body. */
  datatype Outbound = Outbound(url: string, contentType: string, payload: Payload)

  /**
   * What the outbound call gave back. `Unreachable` is a rejected call; its
   * cause is the thrown error's message, or `None` when what was thrown is
   * not an Error. `Responded` carries the status and the body text, `None`
   * when reading the body failed.
   */
  datatype Downstream =
    | Unreachable(cause: Option<string>)
    | Responded(status: nat, text: Option<string>)

  /** The reply: its HTTP status and its JSON body `{ ok, error? }`. */
  datatype Response = Response(status: nat, ok: bool, error: Option<string>)

  /** One handled request: the outbound call made, if any, and the reply. */
  datatype Exchange = Exchange(call: Option<Outbound>, response: Response)

  /** An ok status: one in the range 200 to 299 inclusive, as the Fetch Standard defines it. */
  predicate IsOkStatus(status: nat) {
    200 <= status <= 299
  }

  /** A URL setting counts as configured unless it is unset or empty (both are falsy). */
  predicate IsConfigured(webhookUrl: Option<string>) {
    webhookUrl.Some? && webhookUrl.value != ""
  }

  function Fail(status: nat, message: string): Response {
    Response(status, false, Some(message))
  }

  /** The outbound payload: exactly the three validated fields. */
  function PayloadOf(lead: Lead): Payload {
    Payload(lead.name, lead.email, lead.phone)
  }

  /** The error text for a failing webhook status: the status, then up to 200 characters of the body when there are any. */
  function StatusMessage(status: nat, responseText: string): string {
    var preview := Prefix(responseText, PREVIEW_LENGTH);
    SEND_FAILED + ToDecimal(status) + ")" + (if preview != "" then " - " + preview else "")
  }

  /** Turns the outcome of the outbound call into the reply. */
  function ClassifyDownstream(d: Downstream): (r: Response)
    ensures r.status == 200 || r.status == 502
    ensures r.ok <==> d.Responded? && IsOkStatus(d.status)
    ensures r.ok <==> r.status == 200
    ensures r.ok <==> r.error.None?
  {
    match d
    case Unreachable(cause) =>
      Fail(502, CONNECT_FAILED + (if cause.Some? then cause.value else UNKNOWN_ERROR))
    case Responded(status, text) =>
      var responseText := if text.Some? then text.value else "";
      if IsOkStatus(status) then Response(200, true, None)
      else if status == 410 && Includes(responseText, SCENARIO_MARKER) then Fail(502, SCENARIO_NOT_LISTENING)
      else Fail(502, StatusMessage(status, responseText))
  }

  /** The POST handler. */
  function Handle(
    body: Body,
    webhookUrl: Option<string>,
    isEmail: string -> bool,
    typeMessage: Issue -> string,
    send: Outbound -> Downstream
  ): (r: Exchange)
    ensures r.response.status in {200, 400, 500, 502}
    ensures r.response.ok <==> r.response.status == 200
    ensures r.response.ok <==> r.response.error.None?
    ensures r.call.Some? <==> body.Json? && SafeParse(body.input, isEmail).Success? && IsConfigured(webhookUrl)
    ensures r.response.ok <==>
      r.call.Some? && send(r.call.value).Responded? && IsOkStatus(send(r.call.value).status)
  {
    match body
    case Malformed => Exchange(None, Fail(500, SERVER_ERROR))
    case Json(input) =>
      match SafeParse(input, isEmail)
      case Failure(issues) => Exchange(None, Fail(400, FirstMessage(issues, typeMessage)))
      case Success(lead) =>
        if !IsConfigured(webhookUrl) then Exchange(None, Fail(500, NOT_CONFIGURED))
        else
          var request := Outbound(webhookUrl.value, JSON_CONTENT_TYPE, PayloadOf(lead));
          Exchange(Some(request), ClassifyDownstream(send(request)))
  }

  /** What each status means: 400 an invalid body, 500 an unparsable body or no URL, 502 a failed call, 200 success. */
  lemma StatusMeaning(
    body: Body, webhookUrl: Option<string>, isEmail: string -> bool,
    typeMessage: Issue -> string, send: Outbound -> Downstream
  )
    ensures var r := Handle(body, webhookUrl, isEmail, typeMessage, send).response;
      && (r.status == 400 <==> body.Json? && SafeParse(body.input, isEmail).Failure?)
      && (r.status == 500 <==>
            body.Malformed? || (SafeParse(body.input, isEmail).Success? && !IsConfigured(webhookUrl)))
      && (r.status == 502 <==>
            && body.Json? && SafeParse(body.input, isEmail).Success? && IsConfigured(webhookUrl)
            && !ClassifyDownstream(send(Handle(body, webhookUrl, isEmail, typeMessage, send).call.value)).ok)
  {
  }

  /** A body that is not JSON is answered by the catch-all: 500 with the generic message, and nothing is sent. */
  lemma MalformedBodyIsServerError(
    webhookUrl: Option<string>, isEmail: string -> bool,
    typeMessage: Issue -> string, send: Outbound -> Downstream
  )
    ensures Handle(Malformed, webhookUrl, isEmail, typeMessage, send)
      == Exchange(None, Response(500, false, Some("Server error occurred")))
  {
  }

  /**
   * An invalid body gets 400 and the first issue's message; neither the URL
   * nor the outbound call plays any part.
   */
  lemma InvalidBodyRejected(
    input: Input, isEmail: string -> bool, typeMessage: Issue -> string,
    webhookUrl: Option<string>, send: Outbound -> Downstream,
    otherUrl: Option<string>, otherSend: Outbound -> Downstream
  )
    requires SafeParse(input, isEmail).Failure?
    ensures Handle(Json(input), webhookUrl, isEmail, typeMessage, send)
      == Exchange(None, Fail(400, FirstMessage(SchemaIssues(input, isEmail), typeMessage)))
    ensures Handle(Json(input), webhookUrl, isEmail, typeMessage, send)
      == Handle(Json(input), otherUrl, isEmail, typeMessage, otherSend)
  {
  }

  /** With no usable URL a valid body gets 500 and the fixed message, and nothing is sent whatever `send` would answer. */
  lemma MissingUrlRejected(
    input: Input, isEmail: string -> bool, typeMessage: Issue -> string,
    webhookUrl: Option<string>, send: Outbound -> Downstream, otherSend: Outbound -> Downstream
  )
    requires SafeParse(input, isEmail).Success?
    requires webhookUrl == None || webhookUrl == Some("")
    ensures Handle(Json(input), webhookUrl, isEmail, typeMessage, send)
      == Exchange(None, Response(500, false, Some("Webhook URL is not configured")))
    ensures Handle(Json(input), webhookUrl, isEmail, typeMessage, send)
      == Handle(Json(input), webhookUrl, isEmail, typeMessage, otherSend)
  {
  }

  /**
   * A valid body with a URL is posted as JSON to that URL, carrying the name
   * and email as given and the phone's digits, and nothing else; the reply
   * is what the outcome of that call maps to.
   */
  lemma ValidBodyForwarded(
    name: string, email: string, phone: string, isEmail: string -> bool,
    typeMessage: Issue -> string, url: string, send: Outbound -> Downstream
  )
    requires |name| >= 1 && isEmail(email) && |NormalizePhone(phone)| >= MIN_PHONE_DIGITS
    requires url != ""
    ensures var r := Handle(Json(Object(Some(Str(name)), Some(Str(email)), Some(Str(phone)))), Some(url), isEmail, typeMessage, send);
      && r.call == Some(Outbound(url, "application/json", Payload(name, email, NormalizePhone(phone))))
      && r.response == ClassifyDownstream(send(r.call.value))
  {
    ValidExactly(Object(Some(Str(name)), Some(Str(email)), Some(Str(phone))), isEmail);
  }

  /** A call that never reaches the webhook gets 502 naming the cause, or "Unknown error" when the thrown value has no message. */
  lemma ConnectionFailureReported(cause: Option<string>)
    ensures var r := ClassifyDownstream(Unreachable(cause));
      && r.status == 502 && !r.ok
      && r.error.Some? && CONNECT_FAILED <= r.error.value
      && r.error.value[|CONNECT_FAILED|..] == (if cause.Some? then cause.value else "Unknown error")
  {
  }

  /** The fixed "not listening" message is given exactly for a 410 whose body mentions that no scenario is listening. */
  lemma ScenarioNotListeningExactly(status: nat, text: Option<string>)
    ensures var r := ClassifyDownstream(Responded(status, text));
      r.error == Some(SCENARIO_NOT_LISTENING) <==>
        status == 410 && Includes(if text.Some? then text.value else "", SCENARIO_MARKER)
  {
    var responseText := if text.Some? then text.value else "";
    if !IsOkStatus(status) && !(status == 410 && Includes(responseText, SCENARIO_MARKER)) {
      var m := StatusMessage(status, responseText);
      assert m[34] == ' ' && SCENARIO_NOT_LISTENING[34] == 'i';
    }
  }

  /**
   * Any other failing status gets 502 and a message that starts with the
   * status in decimal and, when the body is non-empty, goes on with " - "
   * and the body's first 200 characters; an empty or unreadable body adds
   * nothing.
   */
  lemma FailingStatusReported(status: nat, text: Option<string>)
    requires !IsOkStatus(status)
    requires !(status == 410 && Includes(if text.Some? then text.value else "", SCENARIO_MARKER))
    ensures var responseText := if text.Some? then text.value else "";
      var r := ClassifyDownstream(Responded(status, text));
      var head := "Failed to send to webhook (Status: " + ToDecimal(status) + ")";
      && r.status == 502 && !r.ok && r.error.Some?
      && head <= r.error.value
      && (responseText == "" <==> r.error.value == head)
      && (responseText != "" ==>
            var suffix := r.error.value[|head|..];
            && suffix[..3] == " - "
            && suffix[3..] <= responseText
            && |suffix[3..]| == if |responseText| < 200 then |responseText| else 200)
  {
  }

  /** The status quoted in the failure message is the webhook's own: it reads back as that number. */
  lemma FailingStatusReadsBack(status: nat, responseText: string)
    ensures var m := StatusMessage(status, responseText);
      var start := |SEND_FAILED|;
      exists end :: start < end <= |m| && AllDigits(m[start..end]) && ParseDecimal(m[start..end]) == status
  {
    var m := StatusMessage(status, responseText);
    var digits := ToDecimal(status);
    var end := |SEND_FAILED| + |digits|;
    assert m[|SEND_FAILED|..end] == digits;
    DecimalRoundTrip(status);
  }

  /** A 410 without the marker text is an ordinary failure. */
  lemma GoneWithoutMarker(text: string)
    requires !Includes(text, SCENARIO_MARKER)
    ensures ClassifyDownstream(Responded(410, Some(text))) == Fail(502, StatusMessage(410, text))
  {
  }

  /** A 503 answering "overloaded" yields 502 and a message quoting both. */
  lemma OverloadedReported()
    ensures var r := ClassifyDownstream(Responded(503, Some("overloaded")));
      && r.status == 502 && r.error.Some?
      && Includes(r.error.value, "503") && Includes(r.error.value, "overloaded")
  {
    var m := StatusMessage(503, "overloaded");
    assert ToDecimal(503) == "503";
    assert OccursAt(m, "503", |SEND_FAILED|);
    assert OccursAt(m, "overloaded", |SEND_FAILED| + 3 + 1 + 3);
    IncludesIff(m, "503");
    IncludesIff(m, "overloaded");
    assert !Includes("overloaded", SCENARIO_MARKER);
  }

  /** The ordering example at the handler: an empty name is reported ahead of a bad email and a short phone. */
  lemma EmptyNameAnswered(
    isEmail: string -> bool, typeMessage: Issue -> string,
    webhookUrl: Option<string>, send: Outbound -> Downstream
  )
    ensures Handle(Json(Object(Some(Str("")), Some(Str("bad")), Some(Str("1")))), webhookUrl, isEmail, typeMessage, send)
      == Exchange(None, Response(400, false, Some("Name is required")))
  {
    EmptyNameReportedFirst(isEmail, typeMessage);
  }
}
