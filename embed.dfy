/**
  The message formatter: the fields of a validated submission become the one
  embed of the message posted to the chat webhook. Only the three field values
  and the timestamp depend on the submission; everything else is constant.
 */
module Embed {
  import opened Wrappers
  import Quote

  /** A submission that passed validation: username and feedback are non-empty. */
  datatype Submission = Submission(username: string, serverLink: Option<string>, feedback: string)

  datatype EmbedField = EmbedField(name: string, value: string, inline: bool)

  datatype Embed = Embed(
    title: string,
    description: string,
    color: nat,
    fields: seq<EmbedField>,
    footerText: string,
    timestamp: string)

  /** The JSON object posted to the webhook: `{content, embeds: [embed]}`. */
  datatype Envelope = Envelope(content: string, embeds: seq<Embed>)

  const Title: string := "💌 New Feedback Received"
  const Description: string := "✨ **Someone submitted new feedback!**"
  const AccentColor: nat := 0x5865f2
  const UsernameLabel: string := "👤 Username ⬇️"
  const ServerLinkLabel: string := "🌐 Server Link ⬇️"
  const FeedbackLabel: string := "📝 Feedback ⬇️"
  const FooterText: string := "📩 From Web Feedback Form"
  const NotProvided: string := "_Not provided_"
  const Announcement: string := "📬 **New Feedback!**"

  /** The username as inline code. */
  function InlineCode(s: string): (r: string)
    ensures |r| == |s| + 2 && r[0] == '`' && r[|r| - 1] == '`'
    ensures r[1..|r| - 1] == s
  {
    "`" + s + "`"
  }

  /** The server link if it is truthy, the placeholder otherwise. */
  function LinkText(link: Option<string>): (r: string)
    ensures r != ""
  {
    if Truthy(link) then link.value else NotProvided
  }

  /** The embed for `sub`, stamped with `timestamp` (the clock reading, an ISO-8601 string). */
  function Format(sub: Submission, timestamp: string): (e: Embed)
    ensures |e.fields| == 3 && e.timestamp == timestamp
    ensures e.fields[0].value == InlineCode(sub.username)
    ensures e.fields[1].value == LinkText(sub.serverLink)
    ensures e.fields[2].value == Quote.BlockQuote(sub.feedback)
    ensures Quote.Unquote(e.fields[2].value) == sub.feedback
  {
    Quote.UnquoteRoundTrip(sub.feedback);
    Embed(
      Title,
      Description,
      AccentColor,
      [ EmbedField(UsernameLabel, InlineCode(sub.username), false),
        EmbedField(ServerLinkLabel, LinkText(sub.serverLink), false),
        EmbedField(FeedbackLabel, Quote.BlockQuote(sub.feedback), false) ],
      FooterText,
      timestamp)
  }

  /** What the outbound request carries. */
  function Payload(sub: Submission, timestamp: string): (env: Envelope)
    ensures env.content == "📬 **New Feedback!**"
    ensures env.embeds == [Format(sub, timestamp)]
    ensures env.embeds[0].timestamp == timestamp
  {
    Envelope(Announcement, [Format(sub, timestamp)])
  }

  /** The link as the formatter tells it apart: truthy and not the placeholder text. */
  function VisibleLink(link: Option<string>): Option<string> {
    if Truthy(link) && link.value != NotProvided then link else None
  }

  /** Reads a submission back out of an embed of the formatter's shape. */
  function ReadEmbed(e: Embed): Option<Submission> {
    if |e.fields| != 3 then None
    else
      var u := e.fields[0].value;
      var l := e.fields[1].value;
      if |u| < 2 || u[0] != '`' || u[|u| - 1] != '`' then None
      else Some(Submission(
        u[1..|u| - 1],
        if l == NotProvided then None else Some(l),
        Quote.Unquote(e.fields[2].value)))
  }

  /**
    The layout: three fields in the order username, server link, feedback,
    none inline, with the same labels, title, description, color and footer
    whatever the submission; the timestamp is the one given.
   */
  lemma EmbedLayout(a: Submission, b: Submission, ta: string, tb: string)
    ensures var ea, eb := Format(a, ta), Format(b, tb);
      && |ea.fields| == 3 == |eb.fields|
      && ea.title == eb.title == "💌 New Feedback Received"
      && ea.description == eb.description == "✨ **Someone submitted new feedback!**"
      && ea.color == eb.color == 0x5865f2
      && ea.footerText == eb.footerText == "📩 From Web Feedback Form"
      && (forall i :: 0 <= i < 3 ==>
            ea.fields[i].name == eb.fields[i].name && !ea.fields[i].inline)
      && ea.fields[0].name == UsernameLabel
      && ea.fields[1].name == ServerLinkLabel
      && ea.fields[2].name == FeedbackLabel
      && ea.timestamp == ta
  {
  }

  /**
    The embed renders the submission faithfully: the username, the feedback
    and any link other than the placeholder text can all be read back.
   */
  lemma FormatReadBack(sub: Submission, timestamp: string)
    ensures ReadEmbed(Format(sub, timestamp))
      == Some(Submission(sub.username, VisibleLink(sub.serverLink), sub.feedback))
  {
    var u := InlineCode(sub.username);
    assert u[1..|u| - 1] == sub.username;
    Quote.UnquoteRoundTrip(sub.feedback);
  }

  /** The server-link value: verbatim when truthy, the placeholder when absent or empty. */
  lemma ServerLinkRendering(sub: Submission, timestamp: string)
    ensures var v := Format(sub, timestamp).fields[1].value;
      (Truthy(sub.serverLink) ==> v == sub.serverLink.value)
      && (!Truthy(sub.serverLink) ==> v == "_Not provided_")
  {
  }

  /**
    A link that is literally "_Not provided_" cannot be told apart from no
    link: the two submissions give the same embed.
   */
  lemma PlaceholderIndistinguishable(username: string, feedback: string, timestamp: string)
    ensures Format(Submission(username, None, feedback), timestamp)
      == Format(Submission(username, Some(NotProvided), feedback), timestamp)
  {
  }

  /** Formatting loses nothing else: different visible content gives different embeds. */
  lemma FormatInjective(a: Submission, b: Submission, timestamp: string)
    requires Format(a, timestamp) == Format(b, timestamp)
    ensures a.username == b.username && a.feedback == b.feedback
    ensures VisibleLink(a.serverLink) == VisibleLink(b.serverLink)
  {
    FormatReadBack(a, timestamp);
    FormatReadBack(b, timestamp);
  }
}
