/** What the assembled request contains, and when no request is sent at all. */
module AiProperties {
  import opened Wrappers
  import opened Text
  import Profiles
  import opened AiService

  // ---------------------------------------------------------------------------
  // Profile context

  lemma JoinIndent(xs: seq<string>)
    ensures Indent + JoinLines(xs) == JoinLines(IndentFirst(xs))
  {
    if |xs| == 1 {
      assert IndentFirst(xs) == [Indent + xs[0]];
    } else if |xs| > 1 {
      assert IndentFirst(xs)[1..] == xs[1..];
    }
  }

  lemma IndentFirstPlain(xs: seq<string>)
    requires AllNoNewline(xs)
    ensures |IndentFirst(xs)| >= 1 && AllNoNewline(IndentFirst(xs))
  {
    assert NoNewline(Indent);
    if xs != [] {
      assert NoNewline(xs[0]);
      NoNewlineAppend(Indent, xs[0]);
      assert forall i :: 1 <= i < |IndentFirst(xs)| ==> IndentFirst(xs)[i] == xs[i];
    }
  }

  lemma BulletsPlain(cs: seq<string>)
    requires AllNoNewline(cs)
    ensures AllNoNewline(Bullets(cs)) && |Bullets(cs)| == |cs|
  {
    forall i | 0 <= i < |cs| ensures NoNewline(Bullets(cs)[i]) {
      assert NoNewline(cs[i]);
      NoNewlineAppend("- ", cs[i]);
    }
  }

  lemma StyleLinesPlain(es: seq<Profiles.StyleEntry>)
    requires forall i :: 0 <= i < |es| ==> NoNewline(es[i].key) && NoNewline(StyleText(es[i].value))
    ensures AllNoNewline(StyleLines(es)) && |StyleLines(es)| == |es|
  {
    forall i | 0 <= i < |es| ensures NoNewline(StyleLines(es)[i]) {
      NoNewlineAppend("- ", es[i].key);
      NoNewlineAppend("- " + es[i].key, ": ");
      NoNewlineAppend("- " + es[i].key + ": ", StyleText(es[i].value));
    }
  }

  /** The template's fixed lines, and its name and description lines, hold no newline. */
  lemma TemplateLinesPlain(p: Profiles.Profile)
    requires NoNewline(p.name) && NoNewline(p.description)
    ensures var t := ContextTemplate(p);
      NoNewline(t[0]) && NoNewline(t[1]) && NoNewline(t[2]) && NoNewline(t[3])
      && NoNewline(t[5]) && NoNewline(t[7]) && NoNewline(t[8])
  {
    assert NoNewline("Please provide your response ") && NoNewline("according to the following profile:");
    NoNewlineAppend("Please provide your response ", "according to the following profile:");
    assert NoNewline(Indent) && NoNewline("Name: ") && NoNewline("Description: ");
    assert NoNewline(Indent + "Constraints:") && NoNewline(Indent + "Output Style:") && NoNewline("");
    NoNewlineAppend(Indent, "Name: ");
    NoNewlineAppend(Indent + "Name: ", p.name);
    NoNewlineAppend(Indent, "Description: ");
    NoNewlineAppend(Indent + "Description: ", p.description);
  }

  /** An indented joined block splits back into its lines, the first one indented. */
  lemma BlockLines(xs: seq<string>)
    requires AllNoNewline(xs)
    ensures SplitLines(Indent + JoinLines(xs)) == IndentFirst(xs)
  {
    IndentFirstPlain(xs);
    JoinIndent(xs);
    SplitJoin(IndentFirst(xs));
  }

  lemma Regroup<T>(x0: T, x1: T, x2: T, x3: T, b: seq<T>, x5: T, s: seq<T>, x7: T, x8: T)
    ensures [x0] + ([x1] + ([x2] + ([x3] + (b + ([x5] + (s + ([x7] + [x8])))))))
         == [x0, x1, x2, x3] + b + [x5] + s + [x7, x8]
  {
    assert [x7] + [x8] == [x7, x8];
    assert [x0] + ([x1] + ([x2] + [x3])) == [x0, x1, x2, x3];
  }

  /** Splitting a nine-line template whose lines 4 and 6 are blocks. */
  lemma SplitTemplate(t: seq<string>, b: seq<string>, s: seq<string>)
    requires |t| == 9
    requires NoNewline(t[0]) && NoNewline(t[1]) && NoNewline(t[2]) && NoNewline(t[3])
    requires NoNewline(t[5]) && NoNewline(t[7]) && NoNewline(t[8])
    requires SplitLines(t[4]) == b && SplitLines(t[6]) == s
    ensures SplitLines(JoinLines(t)) == [t[0], t[1], t[2], t[3]] + b + [t[5]] + s + [t[7], t[8]]
  {
    SplitNoNewline(t[0]);
    SplitNoNewline(t[1]);
    SplitNoNewline(t[2]);
    SplitNoNewline(t[3]);
    SplitNoNewline(t[5]);
    SplitNoNewline(t[7]);
    SplitNoNewline(t[8]);
    SplitOfJoin(t);
    var e8 := [t[8]];
    assert SplitEach(t[8..]) == e8 by { assert t[8..][1..] == []; }
    var e7 := [t[7]] + e8;
    assert SplitEach(t[7..]) == e7 by { assert t[7..][0] == t[7] && t[7..][1..] == t[8..]; }
    var e6 := s + e7;
    assert SplitEach(t[6..]) == e6 by { assert t[6..][0] == t[6] && t[6..][1..] == t[7..]; }
    var e5 := [t[5]] + e6;
    assert SplitEach(t[5..]) == e5 by { assert t[5..][0] == t[5] && t[5..][1..] == t[6..]; }
    var e4 := b + e5;
    assert SplitEach(t[4..]) == e4 by { assert t[4..][0] == t[4] && t[4..][1..] == t[5..]; }
    var e3 := [t[3]] + e4;
    assert SplitEach(t[3..]) == e3 by { assert t[3..][0] == t[3] && t[3..][1..] == t[4..]; }
    var e2 := [t[2]] + e3;
    assert SplitEach(t[2..]) == e2 by { assert t[2..][0] == t[2] && t[2..][1..] == t[3..]; }
    var e1 := [t[1]] + e2;
    assert SplitEach(t[1..]) == e1 by { assert t[1..][0] == t[1] && t[1..][1..] == t[2..]; }
    assert SplitEach(t) == [t[0]] + e1;
    Regroup(t[0], t[1], t[2], t[3], b, t[5], s, t[7], t[8]);
  }

  /** Split at its newlines, the context of a profile whose fields hold no newline is: the
      preamble, the name line, the description line, the constraints header, one `- c` line per
      constraint in order, the output-style header, one `- k: v` line per style entry in order,
      an empty line and the trailing indentation. Only the first line of each block is indented. */
  lemma ProfileContextLines(p: Profiles.Profile)
    requires PlainProfile(p)
    ensures SplitLines(ProfileContext(Some(p))) ==
      [ Preamble,
        Indent + "Name: " + p.name,
        Indent + "Description: " + p.description,
        Indent + "Constraints:" ]
      + IndentFirst(Bullets(p.constraints))
      + [Indent + "Output Style:"]
      + IndentFirst(StyleLines(p.outputStyle))
      + ["", Indent]
  {
    TemplateLinesPlain(p);
    BulletsPlain(p.constraints);
    BlockLines(Bullets(p.constraints));
    StyleLinesPlain(p.outputStyle);
    BlockLines(StyleLines(p.outputStyle));
    SplitTemplate(ContextTemplate(p), IndentFirst(Bullets(p.constraints)), IndentFirst(StyleLines(p.outputStyle)));
  }

  lemma LinePositions(lines: seq<string>, l0: string, l1: string, l2: string, l3: string,
                      cs: seq<string>, l5: string, st: seq<string>)
    requires lines == [l0, l1, l2, l3] + IndentFirst(Bullets(cs)) + [l5] + IndentFirst(st) + ["", Indent]
    ensures |lines| == 7 + (if cs == [] then 1 else |cs|) + (if st == [] then 1 else |st|)
    ensures lines[1] == l1 && lines[2] == l2
    ensures forall i :: 0 <= i < |cs| ==> lines[4 + i] == (if i == 0 then Indent else "") + "- " + cs[i]
  {
    var b := IndentFirst(Bullets(cs));
    var tail := [l5] + IndentFirst(st) + ["", Indent];
    assert lines == [l0, l1, l2, l3] + (b + tail);
    forall i | 0 <= i < |cs|
      ensures lines[4 + i] == (if i == 0 then Indent else "") + "- " + cs[i]
    {
      assert lines[4 + i] == (b + tail)[i] == b[i];
      if i == 0 {
        assert b[0] == Indent + ("- " + cs[0]);
      } else {
        assert b[i] == Bullets(cs)[i];
      }
    }
  }

  /** The context has one line per constraint and per style entry (one empty block line when
      there are none) besides its seven fixed lines; it names the profile on its second line,
      describes it on its third, and gives constraint `i` on line `4 + i`, with the indentation
      only on the first of them. */
  lemma ProfileContextNamesProfile(p: Profiles.Profile)
    requires PlainProfile(p)
    ensures |SplitLines(ProfileContext(Some(p)))| ==
      7 + (if p.constraints == [] then 1 else |p.constraints|) + (if p.outputStyle == [] then 1 else |p.outputStyle|)
    ensures SplitLines(ProfileContext(Some(p)))[1] == Indent + "Name: " + p.name
    ensures SplitLines(ProfileContext(Some(p)))[2] == Indent + "Description: " + p.description
    ensures forall i :: 0 <= i < |p.constraints| ==>
      SplitLines(ProfileContext(Some(p)))[4 + i] == (if i == 0 then Indent else "") + "- " + p.constraints[i]
  {
    ProfileContextLines(p);
    LinePositions(SplitLines(ProfileContext(Some(p))), Preamble, Indent + "Name: " + p.name,
                  Indent + "Description: " + p.description, Indent + "Constraints:",
                  p.constraints, Indent + "Output Style:", StyleLines(p.outputStyle));
  }

  // ---------------------------------------------------------------------------
  // The error short-circuit

  /** `chat_with_ai` returns without sending anything exactly when a file is given and its
      content string begins with `Error:`; what it returns then is that string, unchanged. */
  lemma ShortCircuitIff(message: string, filePath: Option<string>, model: string, useProfile: bool,
                        active: Option<Profiles.Profile>, history: Option<seq<Turn>>,
                        readFile: string -> ReadOutcome)
    ensures ChatPlan(message, filePath, model, useProfile, active, history, readFile).ReturnError? <==>
      Given(filePath) && StartsWith(ReadFileContent(readFile(filePath.value)), ErrorMarker)
    ensures ChatPlan(message, filePath, model, useProfile, active, history, readFile).ReturnError? ==>
      ChatPlan(message, filePath, model, useProfile, active, history, readFile).text
        == ReadFileContent(readFile(filePath.value))
  {
  }

  /** Every read failure short-circuits with its error string. */
  lemma ReadFailureShortCircuits(message: string, path: string, model: string, useProfile: bool,
                                 active: Option<Profiles.Profile>, history: Option<seq<Turn>>,
                                 readFile: string -> ReadOutcome)
    requires path != "" && !readFile(path).Decoded?
    ensures ChatPlan(message, Some(path), model, useProfile, active, history, readFile)
      == ReturnError(ReadFileContent(readFile(path)))
    ensures StartsWith(ChatPlan(message, Some(path), model, useProfile, active, history, readFile).text, ErrorMarker)
  {
  }

  /** A readable file whose own text begins with `Error:` is reported as a failure too. */
  lemma ErrorLookingFileShortCircuits(message: string, path: string, model: string, useProfile: bool,
                                      active: Option<Profiles.Profile>, history: Option<seq<Turn>>,
                                      readFile: string -> ReadOutcome)
    requires path != "" && readFile(path).Decoded? && StartsWith(readFile(path).text, ErrorMarker)
    ensures ChatPlan(message, Some(path), model, useProfile, active, history, readFile)
      == ReturnError(readFile(path).text)
  {
  }

  // ---------------------------------------------------------------------------
  // The outbound list

  /** The outbound list replays every turn but the last, in order and with its role, then
      adds exactly one user turn holding the full message. */
  lemma OutboundShape(history: Option<seq<Turn>>, full: string)
    ensures var n := if history.None? || |history.value| == 0 then 0 else |history.value| - 1;
      && |Outbound(history, full)| == n + 1
      && (forall i :: 0 <= i < n ==>
            Outbound(history, full)[i].role == history.value[i].role
            && Outbound(history, full)[i].text == history.value[i].content)
      && Outbound(history, full)[n] == Message("user", full)
  {
  }

  /** The text of the new user turn: the profile context (with `use_profile`), then the file
      prefix and content (with a readable file), then the message. */
  lemma SentUserText(message: string, filePath: Option<string>, model: string, useProfile: bool,
                     active: Option<Profiles.Profile>, history: Option<seq<Turn>>,
                     readFile: string -> ReadOutcome)
    requires ChatPlan(message, filePath, model, useProfile, active, history, readFile).Send?
    ensures var req := ChatPlan(message, filePath, model, useProfile, active, history, readFile).request;
      var body := if Given(filePath)
        then "Here is the content of the file:\n\n" + ReadFileContent(readFile(filePath.value)) + "\n\n" + message
        else message;
      && req.model == model
      && |req.messages| >= 1
      && req.messages[|req.messages| - 1] == Message("user", (if useProfile then ProfileContext(active) else "") + body)
  {
    var req := ChatPlan(message, filePath, model, useProfile, active, history, readFile).request;
    if Given(filePath) {
      var content := ReadFileContent(readFile(filePath.value));
      assert FileMessage(content, message) == "Here is the content of the file:\n\n" + content + "\n\n" + message;
    }
    if !useProfile {
      assert "" + (if Given(filePath) then FileMessage(ReadFileContent(readFile(filePath.value)), message) else message)
        == (if Given(filePath) then FileMessage(ReadFileContent(readFile(filePath.value)), message) else message);
    }
  }

  /** With no active profile, `use_profile` makes no difference to what is sent. */
  lemma NoActiveProfileNoPrefix(message: string, filePath: Option<string>, model: string,
                                history: Option<seq<Turn>>, readFile: string -> ReadOutcome)
    ensures ChatPlan(message, filePath, model, true, None, history, readFile)
      == ChatPlan(message, filePath, model, false, None, history, readFile)
  {
    assert forall m: string :: FullMessage(true, None, m) == m by {
      forall m: string ensures FullMessage(true, None, m) == m {
        assert "" + m == m;
      }
    }
  }

  // ---------------------------------------------------------------------------
  // explain_paper

  /** For a paper given by URL, no file is read, so a request is always sent, with the profile
      context in front of the URL message and no earlier turns. */
  lemma ExplainUrlAlwaysSends(kind: string, url: Option<string>, model: string,
                              active: Option<Profiles.Profile>, readFile: string -> ReadOutcome)
    requires kind != "file"
    ensures var plan := ChatPlan(ExplainMessage(kind, url), None, model, true, active, None, readFile);
      && plan.Send?
      && plan.request.messages == [Message("user", ProfileContext(active) + UrlMessagePrefix
                                                   + (if url.None? then "None" else url.value))]
  {
    var m := UrlMessagePrefix + (if url.None? then "None" else url.value);
    assert ProfileContext(active) + m == ProfileContext(active) + UrlMessagePrefix + (if url.None? then "None" else url.value);
  }
}
