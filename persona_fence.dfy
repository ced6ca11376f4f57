/**
 * The cleaning the persona route applies to the generator's answer before
 * parsing it (src/app/api/persona/route.ts): a reply wrapped in a Markdown
 * code fence loses the fence lines.
 */
module PersonaFence {
  import opened Text

  /** The first line goes; the last one only when, trimmed, it is exactly a closing fence. */
  function DropFenceLines(lines: seq<string>): seq<string>
    requires |lines| >= 1
  {
    var rest := lines[1..];
    if |rest| > 0 && Trim(rest[|rest| - 1]) == "```" then rest[..|rest| - 1] else rest
  }

  /**
   * The cleaning of the generator's answer: trim it; when it starts with
   * "```", drop its first line and a last line that is a closing fence,
   * join what is left with "\n" and trim again.
   */
  function StripFence(raw: string): string
  {
    var cleaned := Trim(raw);
    if StartsWith(cleaned, "```") then Trim(Join(DropFenceLines(SplitLines(cleaned)), "\n")) else cleaned
  }

  /** A body wrapped in a Markdown code fence: an opening line with a language tag, the body, a closing fence line. */
  function Fenced(tag: string, body: string): string
  {
    "```" + tag + "\n" + body + "\n```"
  }

  /**
   * Wrapping a text without carriage returns in a Markdown code fence, with
   * any language tag, and cleaning it gives the trimmed text back.
   */
  lemma FencedRoundTrip(tag: string, body: string)
    requires '\n' !in tag && '\r' !in tag && '\r' !in body
    ensures StripFence(Fenced(tag, body)) == Trim(body)
  {
    FencedUntrimmed(tag, body);
    FencedOpens(tag, body);
    FencedLines(tag, body);
    var lines := Split(body, '\n');
    DropClosingFence("```" + tag, lines);
    JoinSplit(body, '\n');
  }

  /** A fenced text neither starts nor ends with white space. */
  lemma FencedUntrimmed(tag: string, body: string)
    ensures Trim(Fenced(tag, body)) == Fenced(tag, body)
  {
    var s := Fenced(tag, body);
    assert s[0] == '`';
    assert s[|s| - 1] == '`';
    TrimKeepsUnpadded(s);
  }

  /** A fenced text is recognised as fenced. */
  lemma FencedOpens(tag: string, body: string)
    ensures StartsWith(Fenced(tag, body), "```")
  {
    var s := Fenced(tag, body);
    assert s == "```" + (tag + "\n" + body + "\n```");
  }

  /** The lines of a fenced text are the opening line, the lines of the body, and the closing fence. */
  lemma FencedLines(tag: string, body: string)
    requires '\n' !in tag && '\r' !in tag && '\r' !in body
    ensures SplitLines(Fenced(tag, body)) == ["```" + tag] + Split(body, '\n') + ["```"]
  {
    var opening := "```" + tag;
    var s := Fenced(tag, body);
    assert '\n' !in opening && '\r' !in opening by {
      assert forall k :: 0 <= k < |opening| ==> opening[k] == if k < 3 then '`' else tag[k - 3];
    }
    assert s == opening + ['\n'] + (body + ['\n'] + "```");
    assert '\r' !in s;
    SplitLinesWithoutCR(s);
    SplitConcat(opening, body + ['\n'] + "```", '\n');
    SplitConcat(body, "```", '\n');
    SplitWithoutSep(opening, '\n');
    SplitWithoutSep("```", '\n');
  }

  /** The opening line and a closing fence line both go. */
  lemma DropClosingFence(first: string, lines: seq<string>)
    ensures DropFenceLines([first] + lines + ["```"]) == lines
  {
    var all := [first] + lines + ["```"];
    var rest := all[1..];
    assert rest == lines + ["```"];
    assert rest[|rest| - 1] == "```";
    TrimKeepsUnpadded("```");
    assert rest[..|rest| - 1] == lines;
  }

  /** The cleaning step by step, as the handler does it on an array of lines. */
  method CleanOutput(raw: string) returns (cleaned: string)
    ensures cleaned == StripFence(raw)
    ensures !StartsWith(Trim(raw), "```") ==> cleaned == Trim(raw)
  {
    cleaned := Trim(raw);
    if StartsWith(cleaned, "```") {
      var lines := SplitLines(cleaned);
      lines := lines[1..];
      if |lines| > 0 && Trim(lines[|lines| - 1]) == "```" {
        lines := lines[..|lines| - 1];
      }
      cleaned := Trim(Join(lines, "\n"));
    }
  }

  /** The cleaned answer, fenced or not, never starts or ends with white space: cleaning it again changes nothing. */
  lemma StripFenceTrimmed(raw: string)
    ensures var c := StripFence(raw); Trim(c) == c && (c == [] || (!IsSpace(c[0]) && !IsSpace(c[|c| - 1])))
  {
    var cleaned := Trim(raw);
    if StartsWith(cleaned, "```") {
      TrimIdempotent(Join(DropFenceLines(SplitLines(cleaned)), "\n"));
    } else {
      TrimIdempotent(raw);
    }
  }

  /** Without a closing fence line, only the opening line is dropped. */
  lemma OpenFenceOnly(raw: string)
    requires StartsWith(Trim(raw), "```")
    requires var rest := SplitLines(Trim(raw))[1..]; rest == [] || Trim(rest[|rest| - 1]) != "```"
    ensures StripFence(raw) == Trim(Join(SplitLines(Trim(raw))[1..], "\n"))
  {
  }
}
