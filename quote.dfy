/**
  The block-quote rendering of the feedback text: the marker "> " in front,
  and every line feed replaced by a line feed followed by the marker, exactly
  as a global replace of /\n/ by "\n> " does. Carriage returns are ordinary
  characters here and are kept where they are.
 */
module Quote {

  const Marker: string := "> "

  /** Number of occurrences of `c` in `s`. */
  function Count(s: string, c: char): nat {
    if s == [] then 0
    else (if s[0] == c then 1 else 0) + Count(s[1..], c)
  }

  /** `s` with every "\n" replaced by "\n> " (the replace with the /g flag). */
  function ReplaceNewlines(s: string): (r: string)
    ensures |r| == |s| + 2 * Count(s, '\n')
  {
    if s == [] then []
    else (if s[0] == '\n' then "\n" + Marker else [s[0]]) + ReplaceNewlines(s[1..])
  }

  /** The value of the feedback field of the embed. */
  function BlockQuote(feedback: string): (r: string)
    ensures |r| == |feedback| + 2 + 2 * Count(feedback, '\n')
    ensures r[..2] == Marker
  {
    Marker + ReplaceNewlines(feedback)
  }

  /** The inverse of ReplaceNewlines: drop the marker after each line feed. */
  function StripMarkers(t: string): string
    decreases |t|
  {
    if t == [] then []
    else if |t| >= 3 && t[..3] == "\n" + Marker then "\n" + StripMarkers(t[3..])
    else [t[0]] + StripMarkers(t[1..])
  }

  /** The inverse of BlockQuote on quoted text. */
  function Unquote(q: string): string {
    if |q| >= 2 && q[..2] == Marker then StripMarkers(q[2..]) else q
  }

  /** Joins `lines` with `sep` between consecutive elements (String.prototype.join). */
  function Join(lines: seq<string>, sep: string): string
    decreases |lines|
  {
    if |lines| == 0 then ""
    else if |lines| == 1 then lines[0]
    else lines[0] + sep + Join(lines[1..], sep)
  }

  lemma {:induction false} CountAppend(a: string, b: string, c: char)
    ensures Count(a + b, c) == Count(a, c) + Count(b, c)
  {
    if a == [] {
      assert a + b == b;
    } else {
      assert (a + b)[1..] == a[1..] + b;
      CountAppend(a[1..], b, c);
    }
  }

  /** The replacement works line by line: it distributes over concatenation. */
  lemma {:induction false} ReplaceNewlinesAppend(a: string, b: string)
    ensures ReplaceNewlines(a + b) == ReplaceNewlines(a) + ReplaceNewlines(b)
  {
    if a == [] {
      assert a + b == b;
    } else {
      assert (a + b)[1..] == a[1..] + b;
      ReplaceNewlinesAppend(a[1..], b);
    }
  }

  /** Text without a line feed is left as it is. */
  lemma {:induction false} ReplaceNewlinesIdentity(s: string)
    requires '\n' !in s
    ensures ReplaceNewlines(s) == s
  {
    if s != [] {
      assert s[0] in s;
      assert forall c :: c in s[1..] ==> c in s;
      ReplaceNewlinesIdentity(s[1..]);
    }
  }

  /**
    An independent statement of the transformation: quoting the lines of a
    text joined by "\n" gives the same lines joined by "\n> ", behind "> ".
   */
  lemma {:induction false} BlockQuoteOfLines(lines: seq<string>)
    requires forall i :: 0 <= i < |lines| ==> '\n' !in lines[i]
    ensures BlockQuote(Join(lines, "\n")) == Marker + Join(lines, "\n" + Marker)
  {
    ReplaceNewlinesOfLines(lines);
  }

  lemma {:induction false} ReplaceNewlinesOfLines(lines: seq<string>)
    requires forall i :: 0 <= i < |lines| ==> '\n' !in lines[i]
    ensures ReplaceNewlines(Join(lines, "\n")) == Join(lines, "\n" + Marker)
    decreases |lines|
  {
    if |lines| == 1 {
      ReplaceNewlinesIdentity(lines[0]);
    } else if |lines| > 1 {
      var rest := Join(lines[1..], "\n");
      ReplaceNewlinesOfLines(lines[1..]);
      ReplaceNewlinesIdentity(lines[0]);
      ReplaceNewlinesAppend(lines[0], "\n" + rest);
      ReplaceNewlinesAfterNewline(rest);
      assert Join(lines, "\n") == lines[0] + ("\n" + rest);
    }
  }

  /** Nothing is lost: the original feedback is recovered from its quotation. */
  lemma {:induction false} StripMarkersRoundTrip(s: string)
    ensures StripMarkers(ReplaceNewlines(s)) == s
  {
    if s != [] {
      var t := ReplaceNewlines(s);
      var rest := ReplaceNewlines(s[1..]);
      StripMarkersRoundTrip(s[1..]);
      if s[0] == '\n' {
        assert t[..3] == "\n" + Marker;
        assert t[3..] == rest;
      } else {
        assert t[0] == s[0] && t[1..] == rest;
      }
    }
  }

  lemma UnquoteRoundTrip(s: string)
    ensures Unquote(BlockQuote(s)) == s
  {
    var q := BlockQuote(s);
    assert q[2..] == ReplaceNewlines(s);
    StripMarkersRoundTrip(s);
  }

  /**
    Per-character accounting: the line feeds stay as many as they were, one
    marker is added per line feed, and every other character, carriage return
    included, occurs exactly as often as in the input.
   */
  lemma {:induction false} ReplaceNewlinesCounts(s: string, c: char)
    ensures Count(ReplaceNewlines(s), c) ==
      Count(s, c) + (if c == '>' || c == ' ' then Count(s, '\n') else 0)
  {
    if s != [] {
      var head := if s[0] == '\n' then "\n" + Marker else [s[0]];
      ReplaceNewlinesCounts(s[1..], c);
      CountAppend(head, ReplaceNewlines(s[1..]), c);
      if s[0] == '\n' {
        assert head[1..] == Marker && Marker[1..] == " " && " "[1..] == "";
        assert Count(" ", c) == if c == ' ' then 1 else 0;
        assert Count(Marker, c) == (if c == '>' then 1 else 0) + Count(" ", c);
        assert Count(head, c) == (if c == '\n' then 1 else 0) + Count(Marker, c);
      }
    }
  }

  /** One quote marker per line of feedback. */
  lemma BlockQuoteMarkerCount(feedback: string)
    ensures Count(BlockQuote(feedback), '>') == Count(feedback, '>') + Count(feedback, '\n') + 1
    ensures Count(BlockQuote(feedback), '\n') == Count(feedback, '\n')
    ensures Count(BlockQuote(feedback), '\r') == Count(feedback, '\r')
  {
    CountAppend(Marker, ReplaceNewlines(feedback), '>');
    CountAppend(Marker, ReplaceNewlines(feedback), '\n');
    CountAppend(Marker, ReplaceNewlines(feedback), '\r');
    ReplaceNewlinesCounts(feedback, '>');
    ReplaceNewlinesCounts(feedback, '\n');
    ReplaceNewlinesCounts(feedback, '\r');
  }

  /** Every line feed in `t` is followed by the quote marker. */
  ghost predicate LinesQuoted(t: string) {
    forall i :: 0 <= i < |t| && t[i] == '\n' ==> i + 3 <= |t| && t[i + 1..i + 3] == Marker
  }

  /** Every line feed of the replaced text starts a quoted line. */
  lemma {:induction false} NewlineStartsQuotedLine(s: string)
    ensures LinesQuoted(ReplaceNewlines(s))
  {
    if s != [] {
      var r := ReplaceNewlines(s);
      var rest := ReplaceNewlines(s[1..]);
      var k := if s[0] == '\n' then 3 else 1;
      NewlineStartsQuotedLine(s[1..]);
      assert r[..k] == (if s[0] == '\n' then "\n" + Marker else [s[0]]);
      assert r[k..] == rest;
      forall i | 0 <= i < |r| && r[i] == '\n'
        ensures i + 3 <= |r| && r[i + 1..i + 3] == Marker
      {
        if i >= k {
          assert rest[i - k] == '\n';
          assert i - k + 3 <= |rest|;
          assert r[i + 1..i + 3] == rest[i - k + 1..i - k + 3];
        } else if s[0] == '\n' {
          assert r[1] == '>' && r[2] == ' ';
          assert i == 0;
        }
      }
    }
  }

  /** Every line of the block quote, the first included, starts with the marker. */
  lemma EveryLineQuoted(feedback: string)
    ensures BlockQuote(feedback)[..2] == Marker
    ensures LinesQuoted(BlockQuote(feedback))
  {
    var q := BlockQuote(feedback);
    var r := ReplaceNewlines(feedback);
    NewlineStartsQuotedLine(feedback);
    assert q[2..] == r;
    forall i | 0 <= i < |q| && q[i] == '\n'
      ensures i + 3 <= |q| && q[i + 1..i + 3] == Marker
    {
      assert q[0] == '>' && q[1] == ' ';
      assert r[i - 2] == '\n';
      assert i - 2 + 3 <= |r|;
      assert q[i + 1..i + 3] == r[i - 1..i + 1];
    }
  }

  /** A one-line feedback is only prefixed with the marker. */
  lemma OneLineQuote(s: string)
    requires '\n' !in s
    ensures BlockQuote(s) == "> " + s
  {
    ReplaceNewlinesIdentity(s);
  }

  lemma ReplaceNewlinesAfterNewline(s: string)
    ensures ReplaceNewlines("\n" + s) == "\n" + Marker + ReplaceNewlines(s)
  {
    assert ("\n" + s)[0] == '\n' && ("\n" + s)[1..] == s;
  }

  /** Two lines: the second gets the marker after the line feed. */
  lemma TwoLineQuote(a: string, b: string)
    requires '\n' !in a && '\n' !in b
    ensures BlockQuote(a + "\n" + b) == Marker + a + "\n" + Marker + b
  {
    var s := a + "\n" + b;
    var tail := "\n" + b;
    assert s == a + tail;
    ReplaceNewlinesIdentity(a);
    ReplaceNewlinesIdentity(b);
    ReplaceNewlinesAfterNewline(b);
    ReplaceNewlinesAppend(a, tail);
    assert ReplaceNewlines(s) == a + ("\n" + Marker + b);
    assert BlockQuote(s) == Marker + (a + ("\n" + Marker + b));
  }

  /** The worked example: "line1\nline2" is quoted as "> line1\n> line2". */
  lemma TwoLineExample()
    ensures BlockQuote("line1\nline2") == "> line1\n> line2"
  {
    TwoLineQuote("line1", "line2");
    assert "line1" + "\n" + "line2" == "line1\nline2";
    assert Marker + "line1" + "\n" + Marker + "line2" == "> line1\n> line2";
  }

  /**
    Windows line endings: the carriage return stays before the line feed, so
    the quoted text reads "\r\n> ", not "\n> " — the substitution is kept as is.
   */
  lemma CrLfExample()
    ensures BlockQuote("a\r\nb") == "> a\r\n> b"
  {
    TwoLineQuote("a\r", "b");
    assert "a\r" + "\n" + "b" == "a\r\nb";
    assert Marker + "a\r" + "\n" + Marker + "b" == "> a\r\n> b";
  }
}
