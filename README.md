# Feedback relay endpoint, modelled in Dafny

This project models `api/feedback.js`, a serverless HTTP handler that relays a
web feedback form to a chat webhook. The model has two parts, both written as
pure functions with lemmas about them.

- **The decision pipeline** (`Feedback.Handle`). The handler makes these checks
  in a fixed order, and the first one that fails sends the response:
  1. The method must be `POST`.
  2. A string body must decode as JSON.
  3. `username` and `feedback` must be truthy.
  4. `WEBHOOK_URL` must be set.

  When all the checks pass, the handler makes exactly one POST to the webhook.
  The result of that POST picks the response. The result is an input to the
  model: a status plus the outcome of reading the body text, or a transport
  failure. The model returns the response and the outbound request, if one was
  made. The outbound request holds the URL and the `{content, embeds}` envelope.
- **The message formatter** (`Embed.Format`, `Quote.BlockQuote`). It turns the
  validated fields into the single embed of that envelope:
  - the username goes in backticks;
  - the server link is used verbatim, or `_Not provided_` when it is missing;
  - the feedback becomes a block quote, `"> "` followed by the text with every
    `\n` replaced by `"\n> "`.

  Carriage returns are not touched, so `\r\n` turns into `\r\n> `.

Modules:
- `Wrappers` holds `Option` and JavaScript truthiness of an optional string.
- `Decimal` holds `${n}` for a status code, with a parser and a round-trip proof.
- `Quote` holds the block-quote substitution and its laws.
- `Embed` holds the embed datatypes, the constants, the formatter and a read-back function.
- `Feedback` holds the request model, the handler and its laws.

Notes on the model:
- `ok` is read as the Fetch standard's `Response.ok`, meaning a status from 200 to 299.
- When the webhook answers with an error status and reading its body text then
  fails, the handler's `catch` block answers "Error sending webhook". The model
  keeps that path: it is `Responded(status, None)`.
- A string body that decodes to JSON that is not an object (`null`, a number,
  an array) behaves like `{}`. Its fields are all `None`.
- The webhook URL is taken as the string it is. An invalid URL makes `fetch`
  reject, and that shows up as `TransportError`.

The handler has no captcha step, and it inserts the server link verbatim rather
than formatting it as a link.

## Model

| member | source | states |
|---|---|---|
| `Feedback.Handle` | api/feedback.js:1-73 | every request gets exactly one response with status 200, 400, 405 or 500; any forward goes to the configured, truthy URL; a 200 means a forward was made and the body is `{success: true}` |
| `Feedback.DecodeBody` | api/feedback.js:8-17 | decoding fails exactly for a string body that does not parse; an object body keeps its fields, a parsed string gives its decoded fields, and a null body reads as `{}` |
| `Feedback.Validate` | api/feedback.js:17-21 | a submission comes out exactly when username and feedback are both truthy; it carries exactly the given username, server link and feedback, and the first and last are non-empty |
| `Feedback.ForwardResponse` | api/feedback.js:50-72 | the response is 200 exactly for an answer with an ok status; every other outcome is a 500 with a message |
| `Feedback.IsOkStatus` | api/feedback.js:60 | `ok` is the 2xx status class, 200 to 299; `DeliveryOutcomes` and `SuccessMeansDelivered` state the same range on their own |
| `Feedback.WebhookFailed` | api/feedback.js:64 | the message is `Discord webhook failed (` + `${status}` + `)`: the digits are exactly `NatToDecimal(status)`, with no leading zero, and they parse back to the status; `WebhookFailedInjective` builds on this |
| `Feedback.Reply` | api/feedback.js:4 | an early return answers with the given status and `{message}`, and makes no forward call; each rejection lemma below states which reply each check gives |
| `Feedback.NonPostRejected` | api/feedback.js:3-5 | any method other than `POST` gets 405 "Method not allowed" and no forward, whatever the body and configuration |
| `Feedback.InvalidJsonExactly` | api/feedback.js:8-15 | "Invalid JSON body" is answered if and only if a POST has a string body that fails to decode; then the status is 400 and there is no forward |
| `Feedback.MissingFieldsRejected` | api/feedback.js:17-21 | a decodable POST whose username or feedback is missing or empty gets 400 "Missing username or feedback" and no forward, for any webhook URL, because fields are checked before configuration |
| `Feedback.AbsentBodyRejected` | api/feedback.js:17-21 | a null or undefined body is treated as `{}` and gets the 400 for missing fields |
| `Feedback.MissingWebhookRejected` | api/feedback.js:23-27 | valid fields without a truthy `WEBHOOK_URL` get 500 "Server misconfigured (no WEBHOOK_URL)" and no forward |
| `Feedback.ForwardOnlyWhenAdmitted` | api/feedback.js:3-58 | the forward is made if and only if every check passes; it goes to the configured URL, and its payload is the submission made of the body's own username, server link and feedback |
| `Feedback.DeliveryOutcomes` | api/feedback.js:50-72 | after the checks, the single forward's result decides the response: an ok status gives 200 success; another status with readable text gives 500 "Discord webhook failed (status)"; a transport failure or unreadable text gives 500 "Error sending webhook" |
| `Feedback.RejectionIgnoresNetworkAndClock` | api/feedback.js:3-27 | a rejected request gives the same outcome for every network result and every timestamp, and it makes no forward |
| `Feedback.ProviderTextNotExposed` | api/feedback.js:60-65 | the webhook's response text never changes what the caller receives |
| `Feedback.WebhookFailedInjective` | api/feedback.js:63-65 | the failure message identifies the webhook's status uniquely |
| `Feedback.SuccessMeansDelivered` | api/feedback.js:60-68 | the status is 200 if and only if every check passed and the webhook answered with an ok status |
| `Feedback.DecodedBodyForwarded` | api/feedback.js:8-58 | a decodable body, either an object or a string that parses, with a truthy username and feedback, plus a URL, has exactly those fields forwarded |
| `Feedback.AliceScenario` | api/feedback.js:1-73 | for `alice` / `great tool` with no link, a webhook that accepts gives 200 success, one forward to the URL, and the placeholder in the link field |
| `Feedback.AdmittedAnsweredByForward` | api/feedback.js:50-72 | once every check passes, the response is the one the forward's result maps to |
| `Feedback.MultiLineFeedbackForwarded` | api/feedback.js:42-56 | a forwarded `"line1\nline2"` arrives in the embed's feedback field as `"> line1\n> line2"` |
| `Feedback.RateLimitedScenario` | api/feedback.js:60-65 | a webhook answer of 429 gives 500 "Discord webhook failed (429)" |
| `Decimal.NatToDecimal` | api/feedback.js:64 | `${status}` for a status code is a non-empty string of decimal digits with no leading zero |
| `Decimal.DecimalRoundTrip` | api/feedback.js:64 | parsing the decimal rendering gives the status back |
| `Decimal.NatToDecimalInjective` | api/feedback.js:64 | different statuses render differently |
| `Quote.ReplaceNewlines` | api/feedback.js:42 | the global replace of `\n` by `\n> ` adds two characters for each line feed |
| `Quote.BlockQuote` | api/feedback.js:42 | the quoted feedback starts with `"> "` and its length is the feedback's length + 2 + 2 × (number of line feeds) |
| `Quote.ReplaceNewlinesIdentity` | api/feedback.js:42 | text without a line feed is unchanged |
| `Quote.ReplaceNewlinesAppend` | api/feedback.js:42 | the replacement distributes over concatenation |
| `Quote.ReplaceNewlinesOfLines` | api/feedback.js:42 | lines joined by `\n` become the same lines joined by `\n> ` |
| `Quote.BlockQuoteOfLines` | api/feedback.js:42 | the quote of lines joined by `\n` is `"> "` followed by the lines joined by `"\n> "` |
| `Quote.StripMarkersRoundTrip` | api/feedback.js:42 | removing the marker after each line feed restores the original text |
| `Quote.UnquoteRoundTrip` | api/feedback.js:42 | the feedback can be recovered exactly from its block quote |
| `Quote.ReplaceNewlinesCounts` | api/feedback.js:42 | the replacement keeps the count of every character; line feeds and carriage returns included; only `>` and space grow, by one per line feed |
| `Quote.BlockQuoteMarkerCount` | api/feedback.js:42 | the quote has one `>` marker per line more than the feedback; it has the same number of `\n` and of `\r` |
| `Quote.NewlineStartsQuotedLine` | api/feedback.js:42 | every line feed of the replaced text is followed by `"> "` |
| `Quote.EveryLineQuoted` | api/feedback.js:42 | every line of the block quote, the first included, starts with `"> "` |
| `Quote.OneLineQuote` | api/feedback.js:42 | a one-line feedback is just prefixed with `"> "` |
| `Quote.TwoLineQuote` | api/feedback.js:42 | two lines `a\nb` are quoted as `> a\n> b` |
| `Quote.TwoLineExample` | api/feedback.js:42 | `"line1\nline2"` is quoted as `"> line1\n> line2"` |
| `Quote.CrLfExample` | api/feedback.js:42 | `"a\r\nb"` is quoted as `"> a\r\n> b"`: the carriage return stays before the line feed |
| `Embed.InlineCode` | api/feedback.js:34 | the username is wrapped in one backtick on each side and can be read back between them |
| `Embed.Format` | api/feedback.js:29-48 | the embed has three fields and the given timestamp; the values are the username in backticks, the link text, and the block quote of the feedback; `EmbedLayout` adds the constant title, description, color, footer and labels, and `FormatReadBack` the read-back |
| `Embed.Payload` | api/feedback.js:54-57 | the envelope has the fixed announcement as its content, and its `embeds` is exactly the one formatted embed of the submission |
| `Embed.LinkText` | api/feedback.js:37 | the server-link value is never empty |
| `Embed.ServerLinkRendering` | api/feedback.js:37 | a truthy server link appears verbatim; a missing or empty one gives `_Not provided_` |
| `Embed.EmbedLayout` | api/feedback.js:29-47 | the embed always has three fields: username, server link, feedback, in that order and none inline; the title is "💌 New Feedback Received", the description "✨ **Someone submitted new feedback!**", the color `0x5865f2` and the footer "📩 From Web Feedback Form", and they and the labels do not depend on the submission; the timestamp is the one given |
| `Embed.FormatReadBack` | api/feedback.js:29-45 | the username (between backticks), the feedback (unquoted) and any link other than the placeholder text can be read back from the embed |
| `Embed.FormatInjective` | api/feedback.js:29-45 | two submissions with the same embed share username, feedback and visible link |
| `Embed.PlaceholderIndistinguishable` | api/feedback.js:37 | a link spelled `_Not provided_` gives the same embed as no link |

## Left out

- Network and runtime I/O are not modelled: `fetch`, `await`, `res.status().json()` and reading the webhook's response text. The forward's result is an input (`ForwardResult`). The response and the outbound request are returned values.
- `JSON.parse` and `JSON.stringify` are library calls. Only their outcome is modelled: decoded fields, or a decode error. The outgoing envelope is a datatype, not serialised text.
- `process.env.WEBHOOK_URL` is passed in as an `Option<string>`.
- `new Date().toISOString()` reads the wall clock. The timestamp is a string parameter.
- `console.error` logging is left out: it is an operator-visible side effect with no contract.
- Truthiness of non-string fields is not covered. A numeric `username` is one example. Another is a truthy `feedback` that is not a string: its `.replace` call would throw outside the `try` block. Fields are modelled as optional strings, so that crash path is not modelled.
- `Decimal.NatToDecimal` renders any natural number in plain decimal. JavaScript switches to exponent form from 10^21; a status code never comes near that.
- Strings are sequences of Unicode scalar values, while JavaScript strings are sequences of UTF-16 code units. A lone surrogate, as `JSON.parse('"\ud800"')` can produce, cannot be represented. The length law of `Quote.BlockQuote` counts scalar values, not `.length`. The replacement itself is unaffected.
- Async execution and concurrent requests are left out. Each invocation is independent and shares no state.
