/** Request assembly for the remote model: profile context, file prefix, history replay. */
module AiService {
  import opened Wrappers
  import opened Text
  import Profiles

  /** A turn of the conversation history as the callers keep it: `{"role", "content"}`. */
  datatype Turn = Turn(role: string, content: string)

  /** An outbound message: a role and a content list holding one `{"type": "text"}` part. */
  datatype Message = Message(role: string, text: string)

  /** The arguments of the one call to the completions endpoint. */
  datatype Request = Request(model: string, messages: seq<Message>)

  /** What reading a file yields, before `_read_file_content` turns it into a string. */
  datatype ReadOutcome =
    | Decoded(text: string)       // the extracted PDF text or the UTF-8 decoded file
    | NotUtf8                     // `UnicodeDecodeError`
    | ReadFailed(reason: string)  // any other exception, with its message

  /** What `chat_with_ai` does: return a read error unchanged, or send one request. */
  datatype Plan = ReturnError(text: string) | Send(request: Request)

  const ErrorMarker := "Error:"
  const UnsupportedFormat := ErrorMarker + " File format not supported. Please provide a text or PDF file."
  const ReadFailurePrefix := ErrorMarker + " Failed to read file: "
  /** The first line of the f-string in `_get_profile_context`. It is written as two literals so
      that the proof that it holds no newline can check each piece on its own. */
  const Preamble := "Please provide your response " + "according to the following profile:"
  /** The f-string's continuation lines carry sixteen spaces of source indentation. */
  const Indent := "                "
  const FileIntro := "Here is the content of the file:\n\n"
  const AnalyzeMessage := "Please analyze and explain the following paper:"
  const UrlMessagePrefix := "Please analyze and explain the paper at this URL: "

  // ---------------------------------------------------------------------------
  // Profile context

  /** `str(v)` of an output-style value. */
  function StyleText(v: Profiles.StyleValue): string {
    match v
    case Str(s) => s
    case Bool(b) => if b then "True" else "False"
  }

  function Bullets(cs: seq<string>): seq<string> {
    seq(|cs|, i requires 0 <= i < |cs| => "- " + cs[i])
  }

  function StyleLines(es: seq<Profiles.StyleEntry>): seq<string> {
    seq(|es|, i requires 0 <= i < |es| => "- " + es[i].key + ": " + StyleText(es[i].value))
  }

  /** The lines of the f-string in `_get_profile_context`, each placeholder filled in. */
  function ContextTemplate(p: Profiles.Profile): seq<string> {
    [ Preamble,
      Indent + "Name: " + p.name,
      Indent + "Description: " + p.description,
      Indent + "Constraints:",
      Indent + JoinLines(Bullets(p.constraints)),
      Indent + "Output Style:",
      Indent + JoinLines(StyleLines(p.outputStyle)),
      "",
      Indent ]
  }

  /** `_get_profile_context` for the active profile `active`. */
  function ProfileContext(active: Option<Profiles.Profile>): (r: string)
    ensures active.None? ==> r == ""
    ensures active.Some? ==> StartsWith(r, Preamble + "\n")
  {
    match active
    case None => ""
    case Some(p) =>
      var r := JoinLines(ContextTemplate(p));
      assert r == Preamble + "\n" + JoinLines(ContextTemplate(p)[1..]);
      assert (Preamble + "\n" + JoinLines(ContextTemplate(p)[1..]))[..|Preamble + "\n"|] == Preamble + "\n";
      r
  }

  /** Lines after a split: only the first line of a joined block carries the indentation. */
  function IndentFirst(xs: seq<string>): seq<string> {
    if xs == [] then [Indent] else [Indent + xs[0]] + xs[1..]
  }

  predicate PlainProfile(p: Profiles.Profile) {
    && NoNewline(p.name)
    && NoNewline(p.description)
    && AllNoNewline(p.constraints)
    && forall i :: 0 <= i < |p.outputStyle| ==>
         NoNewline(p.outputStyle[i].key) && NoNewline(StyleText(p.outputStyle[i].value))
  }

  // ---------------------------------------------------------------------------
  // File content and the outbound message

  /** `_read_file_content`'s result string. */
  function ReadFileContent(o: ReadOutcome): (r: string)
    ensures !o.Decoded? ==> StartsWith(r, ErrorMarker)
    ensures o.Decoded? ==> r == o.text
  {
    match o
    case Decoded(t) => t
    case NotUtf8 =>
      assert UnsupportedFormat[..|ErrorMarker|] == ErrorMarker;
      UnsupportedFormat
    case ReadFailed(reason) =>
      assert (ReadFailurePrefix + reason)[..|ErrorMarker|] == ErrorMarker;
      ReadFailurePrefix + reason
  }

  function FileMessage(content: string, message: string): string {
    FileIntro + content + "\n\n" + message
  }

  function FullMessage(useProfile: bool, active: Option<Profiles.Profile>, message: string): string {
    if useProfile then ProfileContext(active) + message else message
  }

  /** The turns that are replayed: all but the last, none when there is no history. */
  function Prior(history: Option<seq<Turn>>): seq<Turn> {
    if history.None? || history.value == [] then [] else history.value[..|history.value| - 1]
  }

  function ToMessage(t: Turn): Message {
    Message(t.role, t.content)
  }

  function Outbound(history: Option<seq<Turn>>, full: string): seq<Message> {
    var prior := Prior(history);
    seq(|prior|, i requires 0 <= i < |prior| => ToMessage(prior[i])) + [Message("user", full)]
  }

  /** What `chat_with_ai` decides to do; `active` is what the store's `get_active_profile` gives. */
  function ChatPlan(message: string, filePath: Option<string>, model: string, useProfile: bool,
                    active: Option<Profiles.Profile>, history: Option<seq<Turn>>,
                    readFile: string -> ReadOutcome): Plan
  {
    if Given(filePath) then
      var content := ReadFileContent(readFile(filePath.value));
      if StartsWith(content, ErrorMarker) then ReturnError(content)
      else Send(Request(model, Outbound(history, FullMessage(useProfile, active, FileMessage(content, message)))))
    else
      Send(Request(model, Outbound(history, FullMessage(useProfile, active, message))))
  }

  /** The reply and the request sent agree with the plan: an error string comes back with nothing
      sent; otherwise the planned request is sent and the client's answer comes back. */
  predicate Answered(plan: Plan, complete: Request -> string, reply: string, sent: Option<Request>) {
    match plan
    case ReturnError(text) => reply == text && sent == None
    case Send(request) => sent == Some(request) && reply == complete(request)
  }

  /** The message `explain_paper` sends; an absent URL prints as `None`. */
  function ExplainMessage(kind: string, url: Option<string>): string {
    if kind == "file" then AnalyzeMessage
    else UrlMessagePrefix + (if url.None? then "None" else url.value)
  }

  // ---------------------------------------------------------------------------
  // The operations

  /** `chat_with_ai`. `readFile` stands for the file system and `complete` for the completions
      client; `sent` records the request the client received. */
  method ChatWithAi(message: string, filePath: Option<string>, model: string, useProfile: bool,
                    history: Option<seq<Turn>>, store: Profiles.ProfileManager,
                    readFile: string -> ReadOutcome, complete: Request -> string)
    returns (reply: string, sent: Option<Request>)
    ensures Answered(ChatPlan(message, filePath, model, useProfile, Profiles.ActiveOf(store.profiles),
                              history, readFile), complete, reply, sent)
  {
    var msg := message;
    if Given(filePath) {
      var fileContent := ReadFileContent(readFile(filePath.value));
      if StartsWith(fileContent, ErrorMarker) {
        return fileContent, None;
      }
      msg := FileMessage(fileContent, msg);
    }
    var fullMessage := msg;
    if useProfile {
      var active := store.GetActiveProfile();
      fullMessage := ProfileContext(active) + msg;
    }

    var messages: seq<Message> := [];
    if history.Some? && history.value != [] {
      var prior := history.value[..|history.value| - 1];
      var i := 0;
      while i < |prior|
        invariant 0 <= i <= |prior|
        invariant |messages| == i
        invariant forall j :: 0 <= j < i ==> messages[j] == ToMessage(prior[j])
      {
        messages := messages + [ToMessage(prior[i])];
        i := i + 1;
      }
    }
    messages := messages + [Message("user", fullMessage)];

    var request := Request(model, messages);
    assert request.messages == Outbound(history, fullMessage);
    reply := complete(request);
    sent := Some(request);
  }

  /** `explain_paper`: always with the profile, the file path only for kind `"file"`. */
  method ExplainPaper(kind: string, paperPath: Option<string>, url: Option<string>, model: string,
                      store: Profiles.ProfileManager,
                      readFile: string -> ReadOutcome, complete: Request -> string)
    returns (reply: string, sent: Option<Request>)
    ensures Answered(ChatPlan(ExplainMessage(kind, url), if kind == "file" then paperPath else None,
                              model, true, Profiles.ActiveOf(store.profiles), None, readFile),
                     complete, reply, sent)
  {
    if kind == "file" {
      var message := AnalyzeMessage;
      reply, sent := ChatWithAi(message, paperPath, model, true, None, store, readFile, complete);
    } else {
      var message := UrlMessagePrefix + (if url.None? then "None" else url.value);
      reply, sent := ChatWithAi(message, None, model, true, None, store, readFile, complete);
    }
  }
}
