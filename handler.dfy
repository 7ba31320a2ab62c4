/**
  The feedback endpoint: one request in, one response out. The checks run in a
  fixed order — method, body decoding, required fields, webhook configuration —
  and the first that fails answers the request. Only when all pass is the one
  outbound POST made; its outcome then decides the response. The network
  call's result, the configured webhook URL and the clock are inputs.
 */
module Feedback {
  import opened Wrappers
  import Decimal
  import opened Embed

  /** The three fields the handler reads from the body; absent keys are None. */
  datatype Fields = Fields(username: Option<string>, serverLink: Option<string>, feedback: Option<string>)

  /** The destructuring of `{}`: every field undefined. */
  const NoFields: Fields := Fields(None, None, None)

  /**
    The request body as the runtime hands it over: an already decoded object,
    a string (with the outcome of decoding it as JSON: a JSON value that is not
    an object gives NoFields), or null/undefined.
   */
  datatype Body = Object(fields: Fields) | Text(decoded: Option<Fields>) | Absent

  datatype Request = Request(httpMethod: string, body: Body)

  /**
    What the one call to the webhook gives: a response with its status and the
    result of reading its body text (None when reading it failed), or a
    transport failure (the promise of fetch rejected).
   */
  datatype ForwardResult = Responded(status: nat, text: Option<string>) | TransportError

  /** The JSON body of the handler's response: `{message}` or `{success: true}`. */
  datatype ResponseBody = Message(text: string) | Success

  datatype Response = Response(status: nat, body: ResponseBody)

  /** The outbound POST to the webhook, with its JSON payload. */
  datatype Outbound = Outbound(url: string, payload: Envelope)

  /** The response and the forward call made on the way, if any. */
  datatype Outcome = Outcome(response: Response, forward: Option<Outbound>)

  const AllowedMethod: string := "POST"
  const MethodNotAllowed: string := "Method not allowed"
  const InvalidJson: string := "Invalid JSON body"
  const MissingFields: string := "Missing username or feedback"
  const NoWebhookUrl: string := "Server misconfigured (no WEBHOOK_URL)"
  const SendError: string := "Error sending webhook"

  /** `Response.ok` of the Fetch standard: a status in the range 200 to 299. */
  predicate IsOkStatus(status: nat): (ok: bool)
    ensures ok <==> status / 100 == 2
  {
    200 <= status <= 299
  }

  /** The message that names a status the webhook refused with; the status can be parsed back out of it. */
  function WebhookFailed(status: nat): (m: string)
    ensures |m| >= 26 && m[..24] == "Discord webhook failed (" && m[|m| - 1] == ')'
    ensures forall i :: 24 <= i < |m| - 1 ==> Decimal.IsDigit(m[i])
    ensures m[24..|m| - 1] == Decimal.NatToDecimal(status)
    ensures Decimal.DigitsValue(m[24..|m| - 1]) == status
  {
    var digits := Decimal.NatToDecimal(status);
    var m := "Discord webhook failed (" + digits + ")";
    assert m[24..|m| - 1] == digits;
    Decimal.DecimalRoundTrip(status);
    m
  }

  /** The fields of the body after the string case is decoded; None when decoding failed. */
  function DecodeBody(b: Body): (r: Option<Fields>)
    ensures r.None? <==> b == Text(None)
    ensures b.Absent? ==> r == Some(NoFields)
    ensures b.Object? ==> r == Some(b.fields)
    ensures b.Text? ==> r == b.decoded
  {
    match b
    case Object(f) => Some(f)
    case Text(d) => d
    case Absent => Some(NoFields)
  }

  /** The submission when both username and feedback are truthy. */
  function Validate(f: Fields): (r: Option<Submission>)
    ensures r.Some? <==> Truthy(f.username) && Truthy(f.feedback)
    ensures r.Some? ==> r.value.username != "" && r.value.feedback != ""
    ensures r.Some? ==> r.value == Submission(f.username.value, f.serverLink, f.feedback.value)
  {
    if !Truthy(f.username) || !Truthy(f.feedback) then None
    else Some(Submission(f.username.value, f.serverLink, f.feedback.value))
  }

  /** An early return: a `{message}` response, and no forward call on that path. */
  function Reply(status: nat, message: string): (o: Outcome)
    ensures o.forward.None?
    ensures o.response.status == status && o.response.body == Message(message)
  {
    Outcome(Response(status, Message(message)), None)
  }

  /** Maps the result of the forward call to the handler's response. */
  function ForwardResponse(d: ForwardResult): (r: Response)
    ensures r.status == 200 <==> d.Responded? && IsOkStatus(d.status)
    ensures r.status != 200 ==> r.status == 500 && r.body.Message?
  {
    match d
    case TransportError => Response(500, Message(SendError))
    case Responded(status, text) =>
      if IsOkStatus(status) then Response(200, Success)
      else if text.None? then Response(500, Message(SendError))
      else Response(500, Message(WebhookFailed(status)))
  }

  /** The handler. */
  function Handle(req: Request, webhookUrl: Option<string>, timestamp: string, delivery: ForwardResult): (o: Outcome)
    ensures o.response.status in {200, 400, 405, 500}
    ensures o.forward.Some? ==> Truthy(webhookUrl) && o.forward.value.url == webhookUrl.value
    ensures o.response.status == 200 ==> o.forward.Some? && o.response.body == Success
  {
    if req.httpMethod != AllowedMethod then Reply(405, MethodNotAllowed)
    else match DecodeBody(req.body)
      case None => Reply(400, InvalidJson)
      case Some(fields) =>
        match Validate(fields)
        case None => Reply(400, MissingFields)
        case Some(sub) =>
          if !Truthy(webhookUrl) then Reply(500, NoWebhookUrl)
          else Outcome(ForwardResponse(delivery), Some(Outbound(webhookUrl.value, Payload(sub, timestamp))))
  }

  /** The fields a decodable body holds, read without going through DecodeBody. */
  function RawFields(b: Body): Fields
    requires b != Text(None)
  {
    if b.Object? then b.fields else if b.Text? then b.decoded.value else NoFields
  }

  /** All checks pass: POST, a decodable body with username and feedback, a webhook URL. */
  predicate Admitted(req: Request, webhookUrl: Option<string>) {
    && req.httpMethod == "POST"
    && req.body != Text(None)
    && Truthy(RawFields(req.body).username)
    && Truthy(RawFields(req.body).feedback)
    && Truthy(webhookUrl)
  }

  /** Any method other than POST: 405, and no call is made. */
  lemma NonPostRejected(req: Request, webhookUrl: Option<string>, timestamp: string, delivery: ForwardResult)
    requires req.httpMethod != "POST"
    ensures Handle(req, webhookUrl, timestamp, delivery)
      == Outcome(Response(405, Message("Method not allowed")), None)
  {
  }

  /**
    "Invalid JSON body" is answered exactly to a POST whose body is a string
    that does not decode; an object body or an absent one never gets it.
   */
  lemma InvalidJsonExactly(req: Request, webhookUrl: Option<string>, timestamp: string, delivery: ForwardResult)
    ensures var o := Handle(req, webhookUrl, timestamp, delivery);
      (o.response.body == Message("Invalid JSON body"))
        <==> (req.httpMethod == "POST" && req.body == Text(None))
    ensures req.httpMethod == "POST" && req.body == Text(None)
      ==> Handle(req, webhookUrl, timestamp, delivery) == Reply(400, "Invalid JSON body")
  {
  }

  /**
    A POST with a decodable body lacking a truthy username or feedback gets
    400 whatever the configuration: the fields are checked before the URL.
   */
  lemma MissingFieldsRejected(req: Request, webhookUrl: Option<string>, timestamp: string, delivery: ForwardResult)
    requires req.httpMethod == "POST"
    requires DecodeBody(req.body).Some?
    requires var f := DecodeBody(req.body).value; !Truthy(f.username) || !Truthy(f.feedback)
    ensures Handle(req, webhookUrl, timestamp, delivery)
      == Outcome(Response(400, Message("Missing username or feedback")), None)
  {
  }

  /** A null or undefined body is read as `{}`, so it is missing its fields. */
  lemma AbsentBodyRejected(webhookUrl: Option<string>, timestamp: string, delivery: ForwardResult)
    ensures Handle(Request("POST", Absent), webhookUrl, timestamp, delivery)
      == Outcome(Response(400, Message("Missing username or feedback")), None)
  {
  }

  /** Valid fields but no WEBHOOK_URL: 500, and no call is made. */
  lemma MissingWebhookRejected(req: Request, webhookUrl: Option<string>, timestamp: string, delivery: ForwardResult)
    requires req.httpMethod == "POST"
    requires DecodeBody(req.body).Some?
    requires var f := DecodeBody(req.body).value; Truthy(f.username) && Truthy(f.feedback)
    requires !Truthy(webhookUrl)
    ensures Handle(req, webhookUrl, timestamp, delivery)
      == Outcome(Response(500, Message("Server misconfigured (no WEBHOOK_URL)")), None)
  {
  }

  /**
    The forward call is made exactly when every check passes, to the
    configured URL, carrying the formatted submission.
   */
  lemma ForwardOnlyWhenAdmitted(req: Request, webhookUrl: Option<string>, timestamp: string, delivery: ForwardResult)
    ensures Handle(req, webhookUrl, timestamp, delivery).forward.Some? <==> Admitted(req, webhookUrl)
    ensures Admitted(req, webhookUrl) ==>
      && DecodeBody(req.body).Some?
      && Validate(DecodeBody(req.body).value).Some?
      && Handle(req, webhookUrl, timestamp, delivery).forward
         == Some(Outbound(webhookUrl.value, Payload(
              Submission(RawFields(req.body).username.value, RawFields(req.body).serverLink,
                         RawFields(req.body).feedback.value), timestamp)))
  {
  }

  /**
    Once admitted, the one forward's result decides the response: 200 with
    `{success: true}` on an ok status; 500 naming the status on any other
    status; 500 "Error sending webhook" when the call or reading the error
    body fails. There is no second attempt.
   */
  lemma DeliveryOutcomes(req: Request, webhookUrl: Option<string>, timestamp: string, delivery: ForwardResult)
    requires Admitted(req, webhookUrl)
    ensures var r := Handle(req, webhookUrl, timestamp, delivery).response;
      match delivery
      case TransportError => r == Response(500, Message("Error sending webhook"))
      case Responded(s, text) =>
        if 200 <= s <= 299 then r == Response(200, Success)
        else if text.Some? then r == Response(500, Message("Discord webhook failed (" + Decimal.NatToDecimal(s) + ")"))
        else r == Response(500, Message("Error sending webhook"))
  {
  }

  /**
    A rejected request does not depend on what the network or the clock would
    have given: nothing is sent, so neither is consulted.
   */
  lemma RejectionIgnoresNetworkAndClock(req: Request, webhookUrl: Option<string>,
                                        t1: string, t2: string, d1: ForwardResult, d2: ForwardResult)
    requires !Admitted(req, webhookUrl)
    ensures Handle(req, webhookUrl, t1, d1) == Handle(req, webhookUrl, t2, d2)
    ensures Handle(req, webhookUrl, t1, d1).forward.None?
  {
  }

  /** The webhook's response text reaches only the log, never the caller. */
  lemma ProviderTextNotExposed(req: Request, webhookUrl: Option<string>, timestamp: string,
                               status: nat, a: string, b: string)
    ensures Handle(req, webhookUrl, timestamp, Responded(status, Some(a)))
      == Handle(req, webhookUrl, timestamp, Responded(status, Some(b)))
  {
  }

  /** The failure message names the webhook's status unambiguously. */
  lemma {:induction false} WebhookFailedInjective(s1: nat, s2: nat)
    requires WebhookFailed(s1) == WebhookFailed(s2)
    ensures s1 == s2
  {
    var prefix := "Discord webhook failed (";
    var m1, m2 := WebhookFailed(s1), WebhookFailed(s2);
    var d1, d2 := Decimal.NatToDecimal(s1), Decimal.NatToDecimal(s2);
    assert |d1| == |d2|;
    assert m1[|prefix|..|m1| - 1] == d1;
    assert m2[|prefix|..|m2| - 1] == d2;
    Decimal.NatToDecimalInjective(s1, s2);
  }

  /** A 200 answer means the one forward was made and the webhook accepted it. */
  lemma SuccessMeansDelivered(req: Request, webhookUrl: Option<string>, timestamp: string, delivery: ForwardResult)
    ensures Handle(req, webhookUrl, timestamp, delivery).response.status == 200
      <==> Admitted(req, webhookUrl) && delivery.Responded? && 200 <= delivery.status <= 299
  {
  }

  /**
    A decodable body — an object, or a string that parses — with a truthy
    username and feedback, and a webhook URL: exactly those fields are forwarded.
   */
  lemma DecodedBodyForwarded(body: Body, username: string, link: Option<string>, feedback: string,
                             url: string, timestamp: string, delivery: ForwardResult)
    requires body != Text(None)
    requires RawFields(body) == Fields(Some(username), link, Some(feedback))
    requires username != "" && feedback != "" && url != ""
    ensures Handle(Request("POST", body), Some(url), timestamp, delivery)
      == Outcome(ForwardResponse(delivery), Some(Outbound(url, Payload(Submission(username, link, feedback), timestamp))))
  {
  }

  /** Minimal valid input, accepted by the webhook: 200 and one forward. */
  lemma AliceScenario(url: string, timestamp: string)
    requires url != ""
    ensures var o := Handle(Request("POST", Object(Fields(Some("alice"), None, Some("great tool")))),
                           Some(url), timestamp, Responded(204, Some("")));
      && o.response == Response(200, Success)
      && o.forward == Some(Outbound(url, Payload(Submission("alice", None, "great tool"), timestamp)))
      && o.forward.value.payload.embeds[0].fields[1].value == "_Not provided_"
  {
    DecodedBodyForwarded(Object(Fields(Some("alice"), None, Some("great tool"))),
                         "alice", None, "great tool", url, timestamp, Responded(204, Some("")));
  }

  /** A two-line feedback is forwarded as a block quote with a marker on each line. */
  lemma MultiLineFeedbackForwarded(body: Body, username: string, link: Option<string>,
                                   url: string, timestamp: string, delivery: ForwardResult)
    requires body != Text(None)
    requires RawFields(body) == Fields(Some(username), link, Some("line1\nline2"))
    requires username != "" && url != ""
    ensures var o := Handle(Request("POST", body), Some(url), timestamp, delivery);
      && o.forward.Some?
      && o.forward.value.payload.embeds[0].fields[2].value == "> line1\n> line2"
  {
    DecodedBodyForwarded(body, username, link, "line1\nline2", url, timestamp, delivery);
    Quote.TwoLineExample();
  }

  /** Once admitted, the response is the forward result's response. */
  lemma AdmittedAnsweredByForward(req: Request, webhookUrl: Option<string>, timestamp: string, delivery: ForwardResult)
    requires Admitted(req, webhookUrl)
    ensures Handle(req, webhookUrl, timestamp, delivery).response == ForwardResponse(delivery)
  {
  }

  /** The webhook answers 429: 500 with the status in the message. */
  lemma RateLimitedScenario(req: Request, url: string, timestamp: string)
    requires Admitted(req, Some(url))
    ensures Handle(req, Some(url), timestamp, Responded(429, Some("rate limited"))).response
      == Response(500, Message("Discord webhook failed (429)"))
  {
    var d := Responded(429, Some("rate limited"));
    assert WebhookFailed(429) == "Discord webhook failed (429)" by {
      assert Decimal.NatToDecimal(429) == "429";
    }
    assert ForwardResponse(d) == Response(500, Message(WebhookFailed(429)));
    AdmittedAnsweredByForward(req, Some(url), timestamp, d);
  }
}
