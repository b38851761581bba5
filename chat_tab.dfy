/**
  The chat tab of the application: the conversation-specific controls, the
  sidebar list, loading a stored conversation into the chat window, and the
  wrapper that runs one chat turn and turns the engine's status texts into
  chat-window messages.

  The chat window's message list is shared with the UI and changed in place;
  `ChatWindow` holds it together with the wrapper's two pieces of
  bookkeeping (the index of the message showing a running tool, and the last
  final text).
 */
module ChatTab {
  import opened Wrappers
  import opened Text
  import opened Transcript
  import opened ChatEngine

  // ---------------------------------------------------------------------
  // Controls

  /** Visibility of the delete, report, report-file, visualise and neighbours
      controls, and the report file shown. */
  datatype Controls = Controls(deleteVisible: bool, reportVisible: bool, reportFileVisible: bool,
                               reportFile: Option<string>, visualizeVisible: bool, neighborsVisible: bool)

  /** `_get_conversation_controls_updates`: every control follows `visible`,
      except that the report file shows only when there is one. */
  function ControlsUpdate(visible: bool, reportFile: Option<string>): (c: Controls)
    ensures c.deleteVisible == c.reportVisible == c.visualizeVisible == c.neighborsVisible == visible
    ensures c.reportFileVisible <==> visible && reportFile.Some? && reportFile.value != ""
    ensures c.reportFile == reportFile
  {
    Controls(visible, visible, visible && reportFile.Some? && reportFile.value != "", reportFile, visible, visible)
  }

  // ---------------------------------------------------------------------
  // Loading a stored conversation

  /** `tool_call.get('args', {})` where a dictionary is needed; `None` for a
      JSON string, on which `.get` raises. */
  function ArgsOf(a: Args): Option<map<string, string>> {
    match a
    case NoArgs => Some(map[])
    case Dict(m) => Some(m)
    case Encoded(_) => None
  }

  predicate NeedsArg(name: string) {
    name in {"read_file", "search_knowledge_graph", "list_files"}
  }

  /** The status line re-created for one stored tool call; `None` when reading
      its argument raises. */
  function ToolLine(r: ToolRecord): Option<string> {
    var name := RecordName(r);
    if NeedsArg(name) && ArgsOf(r.args).None? then None
    else Some(CheckMark + " `" + name + "`" + Detail(RightArrow, ArgDesc(name, ArgsOf(r.args).GetOr(map[]))) + " " + Tick + "\n")
  }

  function ToolLines(calls: seq<ToolRecord>): Option<string>
    decreases |calls|
  {
    if calls == [] then Some("")
    else
      var prev := ToolLines(calls[..|calls| - 1]);
      var line := ToolLine(calls[|calls| - 1]);
      if prev.None? || line.None? then None else Some(prev.value + line.value)
  }

  /** The tool calls stored with a row; malformed JSON counts as none. */
  function StoredCalls(toolCalls: Option<string>, decode: string -> Option<seq<ToolRecord>>): seq<ToolRecord> {
    if toolCalls.None? || toolCalls.value == "" then [] else decode(toolCalls.value).GetOr([])
  }

  /** The two chat-window messages of one stored row. */
  function RowMessages(row: Row, decode: string -> Option<seq<ToolRecord>>): Option<seq<Message>> {
    var calls := StoredCalls(row.toolCalls, decode);
    var lines := ToolLines(calls);
    if lines.None? then None
    else
      var meta := if calls == [] then NoMeta else ToolCallsMeta(calls);
      Some([UserMessage(row.query), Message("assistant", lines.value + row.response, meta)])
  }

  function LoadedMessages(rows: seq<Row>, decode: string -> Option<seq<ToolRecord>>): Option<seq<Message>>
    decreases |rows|
  {
    if rows == [] then Some([])
    else
      var prev := LoadedMessages(rows[..|rows| - 1], decode);
      var last := RowMessages(rows[|rows| - 1], decode);
      if prev.None? || last.None? then None else Some(prev.value + last.value)
  }

  /** What loading returns: the chat-window messages, the conversation state,
      the sidebar selection and the controls; or the error that escapes. */
  datatype Loaded =
    | Loaded(messages: seq<Message>, conversationId: Option<string>, selected: Option<string>, controls: Controls)
    | LoadRaised(error: string)

  const LoadError := "'str' object has no attribute 'get'"

  /** `load_conversation`; `rows` is what loading from the database gives. */
  function LoadView(conversationId: string, rows: seq<Row>, decode: string -> Option<seq<ToolRecord>>): Loaded {
    if conversationId == "" then Loaded([], None, None, ControlsUpdate(false, None))
    else if rows == [] then Loaded([], None, Some(conversationId), ControlsUpdate(true, None))
    else match LoadedMessages(rows, decode)
      case None => LoadRaised(LoadError)
      case Some(messages) => Loaded(messages, Some(conversationId), Some(conversationId), ControlsUpdate(true, None))
  }

  /** The loop re-creating the status lines of one row's tool calls. */
  method RowToolLines(calls: seq<ToolRecord>) returns (lines: Option<string>)
    ensures lines == ToolLines(calls)
  {
    var text := "";
    for i := 0 to |calls|
      invariant ToolLines(calls[..i]) == Some(text)
    {
      assert calls[..i + 1][..i] == calls[..i];
      var line := ToolLine(calls[i]);
      if line.None? {
        ToolLinesFailureSticks(calls, i + 1);
        return None;
      }
      text := text + line.value;
    }
    assert calls[..|calls|] == calls;
    return Some(text);
  }

  lemma {:induction false} ToolLinesFailureSticks(calls: seq<ToolRecord>, n: nat)
    requires n <= |calls| && ToolLines(calls[..n]).None?
    ensures ToolLines(calls).None?
    decreases |calls| - n
  {
    if n < |calls| {
      assert calls[..n + 1][..n] == calls[..n];
      ToolLinesFailureSticks(calls, n + 1);
    } else {
      assert calls[..n] == calls;
    }
  }

  lemma {:induction false} LoadFailureSticks(rows: seq<Row>, n: nat, decode: string -> Option<seq<ToolRecord>>)
    requires n <= |rows| && LoadedMessages(rows[..n], decode).None?
    ensures LoadedMessages(rows, decode).None?
    decreases |rows| - n
  {
    if n < |rows| {
      assert rows[..n + 1][..n] == rows[..n];
      LoadFailureSticks(rows, n + 1, decode);
    } else {
      assert rows[..n] == rows;
    }
  }

  method LoadConversation(conversationId: string, rows: seq<Row>, decode: string -> Option<seq<ToolRecord>>)
    returns (view: Loaded)
    ensures view == LoadView(conversationId, rows, decode)
  {
    if conversationId == "" {
      return Loaded([], None, None, ControlsUpdate(false, None));
    }
    if rows == [] {
      return Loaded([], None, Some(conversationId), ControlsUpdate(true, None));
    }
    var messages: seq<Message> := [];
    for i := 0 to |rows|
      invariant LoadedMessages(rows[..i], decode) == Some(messages)
    {
      assert rows[..i + 1][..i] == rows[..i];
      var row := rows[i];
      var calls := StoredCalls(row.toolCalls, decode);
      var lines := RowToolLines(calls);
      if lines.None? {
        LoadFailureSticks(rows, i + 1, decode);
        return LoadRaised(LoadError);
      }
      var meta := if calls == [] then NoMeta else ToolCallsMeta(calls);
      messages := messages + [UserMessage(row.query), Message("assistant", lines.value + row.response, meta)];
    }
    assert rows[..|rows|] == rows;
    return Loaded(messages, Some(conversationId), Some(conversationId), ControlsUpdate(true, None));
  }

  /** The two messages a stored row loads as: the user's query, then an
      assistant message ending with the response and carrying the stored calls. */
  ghost predicate LoadedRow(user: Message, reply: Message, row: Row, decode: string -> Option<seq<ToolRecord>>) {
    var calls := StoredCalls(row.toolCalls, decode);
    && user == UserMessage(row.query)
    && reply.role == "assistant"
    && EndsWith(reply.content, row.response)
    && reply.meta == (if calls == [] then NoMeta else ToolCallsMeta(calls))
  }

  /** A loaded conversation alternates user and assistant messages, one pair
      per stored row in order: the query, then the re-created tool status
      lines followed by the response, carrying the stored tool calls when
      there are any. */
  lemma {:induction false} LoadedShape(rows: seq<Row>, decode: string -> Option<seq<ToolRecord>>)
    requires LoadedMessages(rows, decode).Some?
    ensures var ms := LoadedMessages(rows, decode).value;
      && |ms| == 2 * |rows|
      && forall i :: 0 <= i < |rows| ==> LoadedRow(ms[2 * i], ms[2 * i + 1], rows[i], decode)
    decreases |rows|
  {
    if rows != [] {
      var prefix := rows[..|rows| - 1];
      LoadedShape(prefix, decode);
      var ms := LoadedMessages(rows, decode).value;
      var prev := LoadedMessages(prefix, decode).value;
      var k := |rows| - 1;
      var last := RowMessages(rows[k], decode).value;
      RowShape(rows[k], decode);
      assert ms == prev + last;
      forall i | 0 <= i < |rows|
        ensures LoadedRow(ms[2 * i], ms[2 * i + 1], rows[i], decode)
      {
        if i < k {
          assert prefix[i] == rows[i];
          assert ms[2 * i] == prev[2 * i] && ms[2 * i + 1] == prev[2 * i + 1];
        } else {
          assert ms[2 * i] == last[0] && ms[2 * i + 1] == last[1];
        }
      }
    }
  }

  lemma RowShape(row: Row, decode: string -> Option<seq<ToolRecord>>)
    requires RowMessages(row, decode).Some?
    ensures var m := RowMessages(row, decode).value;
      |m| == 2 && LoadedRow(m[0], m[1], row, decode)
  {
    var lines := ToolLines(StoredCalls(row.toolCalls, decode)).value;
    assert (lines + row.response)[|lines|..] == row.response;
  }

  /** Loading fails exactly when a stored call to a tool whose argument is
      shown keeps its arguments as a JSON string. */
  lemma {:induction false} ToolLinesFail(calls: seq<ToolRecord>)
    ensures ToolLines(calls).None? <==>
      exists j :: 0 <= j < |calls| && NeedsArg(RecordName(calls[j])) && calls[j].args.Encoded?
    decreases |calls|
  {
    if calls != [] {
      var prefix := calls[..|calls| - 1];
      ToolLinesFail(prefix);
      if ToolLines(prefix).None? {
        var j :| 0 <= j < |prefix| && NeedsArg(RecordName(prefix[j])) && prefix[j].args.Encoded?;
        assert calls[j] == prefix[j];
      }
      if exists j :: 0 <= j < |calls| && NeedsArg(RecordName(calls[j])) && calls[j].args.Encoded? {
        var j :| 0 <= j < |calls| && NeedsArg(RecordName(calls[j])) && calls[j].args.Encoded?;
        if j < |prefix| {
          assert prefix[j] == calls[j];
        }
      }
    }
  }

  /** Without a conversation id nothing is loaded and the controls hide; a
      conversation with no rows is selected but leaves the conversation state
      empty; otherwise the conversation state is the loaded id. */
  lemma LoadViewGuards(conversationId: string, rows: seq<Row>, decode: string -> Option<seq<ToolRecord>>)
    ensures var v := LoadView(conversationId, rows, decode);
      && (conversationId == "" ==> v == Loaded([], None, None, ControlsUpdate(false, None)))
      && (v.Loaded? && v.conversationId.Some? <==> conversationId != "" && rows != [] && LoadedMessages(rows, decode).Some?)
      && (v.Loaded? ==> (v.controls.deleteVisible <==> conversationId != ""))
      && (v.Loaded? && conversationId != "" ==> v.selected == Some(conversationId))
  {
  }

  // ---------------------------------------------------------------------
  // Status texts in the chat window

  /** The first characters the wrapper treats as a status marker
      (the characters of "🛠️✅❌🧠⚠️"). */
  const StatusChars: set<char> := {'\U{1F6E0}', '\U{FE0F}', '\U{2705}', '\U{274C}', '\U{1F9E0}', '\U{26A0}'}

  datatype Kind = Started | Done | Errored | Progress | Ignored | Final

  /** How the wrapper handles a yielded text. A text starting with a marker
      character but none of the five markers is ignored. */
  function KindOf(text: string): Kind {
    if text == [] || text[0] !in StatusChars then Final
    else if StartsWith(text, Hammer) then Started
    else if StartsWith(text, CheckMark) then Done
    else if StartsWith(text, CrossMark) then Errored
    else if StartsWith(text, Brain) || StartsWith(text, Warning) then Progress
    else Ignored
  }

  /** The text after the first backtick. */
  function AfterTick(s: string): string
    decreases |s|
  {
    if s == [] then [] else if s[0] == '`' then s[1..] else AfterTick(s[1..])
  }

  /** The text before the first backtick. */
  function UpToTick(s: string): (r: string)
    ensures '`' !in r
    decreases |s|
  {
    if s == [] then [] else if s[0] == '`' then [] else [s[0]] + UpToTick(s[1..])
  }

  /** `text.split("`")[1] if "`" in text else "tool"` */
  function ToolName(text: string): (name: string)
    ensures '`' !in text ==> name == "tool"
  {
    if '`' in text then UpToTick(AfterTick(text)) else "tool"
  }

  lemma {:induction false} AfterTickSkips(prefix: string, rest: string)
    requires '`' !in prefix
    ensures AfterTick(prefix + "`" + rest) == rest
    decreases |prefix|
  {
    if prefix == [] {
      assert prefix + "`" + rest == "`" + rest;
    } else {
      assert (prefix + "`" + rest)[1..] == prefix[1..] + "`" + rest;
      AfterTickSkips(prefix[1..], rest);
    }
  }

  lemma {:induction false} UpToTickStops(name: string, rest: string)
    requires '`' !in name
    ensures UpToTick(name + "`" + rest) == name
    decreases |name|
  {
    if name == [] {
      assert name + "`" + rest == "`" + rest;
    } else {
      assert (name + "`" + rest)[1..] == name[1..] + "`" + rest;
      UpToTickStops(name[1..], rest);
    }
  }

  /** The name between the first two backticks of a status text is the tool's name. */
  lemma ToolNameBetweenTicks(prefix: string, name: string, rest: string)
    requires '`' !in prefix && '`' !in name
    ensures ToolName(prefix + "`" + name + "`" + rest) == name
  {
    var text := prefix + "`" + name + "`" + rest;
    assert text[|prefix|] == '`';
    assert text == prefix + "`" + (name + "`" + rest);
    AfterTickSkips(prefix, name + "`" + rest);
    UpToTickStops(name, rest);
  }

  const Thinking := Brain + " *Thinking...*"
  const Analyzing := Brain + " *Analyzing...*"
  const Continuing := Brain + " *Continuing...*"
  const Using := "\U{1F504} Using "
  const Boom := "\U{1F4A5}"

  /** The chat window's messages and the wrapper's bookkeeping. */
  datatype Window = Window(history: seq<Message>, pending: Option<nat>, finalText: string)

  /** `history[pending] = m` when the pending index is set and in range. */
  function Settle(h: seq<Message>, pending: Option<nat>, m: Message): (r: seq<Message>)
    ensures |r| == |h|
  {
    if pending.Some? && pending.value < |h| then h[pending.value := m] else h
  }

  /** The effect of one yielded text on the window. */
  function Step(w: Window, text: string): (next: Window)
    requires w.history != []
    ensures |next.history| == |w.history| + (if KindOf(text) == Done || KindOf(text) == Errored then 1 else 0)
  {
    var h := w.history;
    var last := |h| - 1;
    match KindOf(text)
    case Started => Window(h[last := Message("assistant", text, TitleMeta(Using + ToolName(text) + "..."))], Some(last), w.finalText)
    case Done =>
      Window(Settle(h, w.pending, Message("assistant", text, TitleMeta(CheckMark + " " + ToolName(text)))) + [AssistantMessage(Analyzing)],
             None, w.finalText)
    case Errored =>
      Window(Settle(h, w.pending, Message("assistant", text, TitleMeta(Boom + " " + ToolName(text) + " error"))) + [AssistantMessage(Continuing)],
             None, w.finalText)
    case Progress => Window(h[last := h[last].(content := text)], w.pending, w.finalText)
    case Ignored => w
    case Final => Window(h[last := AssistantMessage(text)], w.pending, text)
  }

  /** How many texts add a message (a finished or failed tool). */
  function Added(texts: seq<string>): nat
    decreases |texts|
  {
    if texts == [] then 0
    else
      var last := texts[|texts| - 1];
      Added(texts[..|texts| - 1]) + (if KindOf(last) == Done || KindOf(last) == Errored then 1 else 0)
  }

  /** The effect of the yielded texts in order. */
  function Steps(w: Window, texts: seq<string>): (r: Window)
    requires w.history != []
    ensures |r.history| == |w.history| + Added(texts)
    decreases |texts|
  {
    if texts == [] then w
    else Step(Steps(w, texts[..|texts| - 1]), texts[|texts| - 1])
  }

  /** The window keeps `base` as its first messages, has a message after it,
      and a pending index, if any, points past `base`. */
  ghost predicate Keeps(w: Window, base: seq<Message>) {
    |w.history| > |base| && w.history[..|base|] == base
    && (w.pending.Some? ==> |base| <= w.pending.value < |w.history|)
  }

  lemma StepKeeps(w: Window, text: string, base: seq<Message>)
    requires Keeps(w, base)
    ensures Keeps(Step(w, text), base)
  {
    var h := w.history;
    var next := Step(w, text);
    if KindOf(text) == Done || KindOf(text) == Errored {
      var m := if KindOf(text) == Done then Message("assistant", text, TitleMeta(CheckMark + " " + ToolName(text)))
               else Message("assistant", text, TitleMeta(Boom + " " + ToolName(text) + " error"));
      var settled := Settle(h, w.pending, m);
      assert settled[..|base|] == base;
      assert next.history[..|base|] == settled[..|base|];
    } else if KindOf(text) != Ignored {
      assert next.history[..|base|] == h[..|base|];
    }
  }

  lemma {:induction false} StepsKeep(w: Window, texts: seq<string>, base: seq<Message>)
    requires Keeps(w, base)
    ensures Keeps(Steps(w, texts), base)
    decreases |texts|
  {
    if texts != [] {
      StepsKeep(w, texts[..|texts| - 1], base);
      StepKeeps(Steps(w, texts[..|texts| - 1]), texts[|texts| - 1], base);
    }
  }

  /** A final text becomes the last message, as the assistant's, and the final text. */
  lemma FinalTextShown(w: Window, texts: seq<string>)
    requires w.history != [] && texts != [] && KindOf(texts[|texts| - 1]) == Final
    ensures var r := Steps(w, texts);
      r.history[|r.history| - 1] == AssistantMessage(texts[|texts| - 1]) && r.finalText == texts[|texts| - 1]
  {
  }

  // ---------------------------------------------------------------------
  // chat_wrapper

  /** The inputs `chat_fn` takes from outside the chat tab. */
  datatype Backend = Backend(stamp: string, storeError: Option<string>, parse: string -> Option<map<string, string>>,
                             script: seq<Outcome>, execute: (string, map<string, string>) -> ToolOutcome)

  const Criticality := "\n\nPlease also provide a detailed criticality assessment for the identified impacts, "
    + "prioritizing them from most to least critical."

  /** The message sent to the engine. */
  function Query(message: string, assessCriticality: bool): string {
    if assessCriticality then message + Criticality else message
  }

  /** The chat window right after the user's message: the message and a thinking placeholder. */
  function Opened(prior: seq<Message>, message: string): Window {
    Window(prior + [UserMessage(message), AssistantMessage(Thinking)], None, "")
  }

  function IntendedTexts(events: seq<Event>): (texts: seq<string>)
    ensures |texts| == |events|
  {
    seq(|events|, i requires 0 <= i < |events| => events[i].Intended())
  }

  /** The end of one chat turn: the exception escaping the engine, or the
      window, the engine run and the states handed back (whether a session is
      open, the conversation id, whether to refresh the sidebar list). */
  datatype Wrapped =
    | WrapperRaised(window: Window)
    | Finished(window: Window, run: ChatRun, sessionOpen: bool, conversationId: string, refreshList: bool)

  /** The texts the engine yields, as it spells them. */
  function EngineTexts(events: seq<Event>): (texts: seq<string>)
    ensures |texts| == |events|
  {
    seq(|events|, i requires 0 <= i < |events| => events[i].Text())
  }

  /** One chat turn from the window history `prior`: the engine is handed
      `engineHistory`, and `asSpelled` chooses between the engine's texts as
      it spells them and as intended. */
  function WrapWith(prior: seq<Message>, engineHistory: seq<Message>, asSpelled: bool, message: string,
                    assessCriticality: bool, hasSession: bool, conversationId: string, repoPath: string,
                    b: Backend): (r: Wrapped)
    ensures Keeps(r.window, prior + [UserMessage(message)])
    ensures r.Finished? ==> r.run == Chat(Query(message, assessCriticality), engineHistory, hasSession, conversationId,
                                          b.stamp, repoPath, b.storeError, b.parse, b.script, b.execute)
  {
    var w := Opened(prior, message);
    var run := Chat(Query(message, assessCriticality), engineHistory, hasSession, conversationId, b.stamp, repoPath,
                    b.storeError, b.parse, b.script, b.execute);
    assert w.history[..|prior| + 1] == prior + [UserMessage(message)];
    if run.ReplayFailed? then WrapperRaised(w)
    else
      var texts := if asSpelled then EngineTexts(run.Yielded()) else IntendedTexts(run.Yielded());
      StepsKeep(w, texts, prior + [UserMessage(message)]);
      var shown := Steps(w, texts);
      if run.StoreFailed? then Finished(shown, run, hasSession, conversationId, false)
      else Finished(shown, run, true, run.conversationId, run.newConversation)
  }

  /** `chat_wrapper` as written: the engine gets `history[:-1]`, which ends
      with the user's message, and yields its status texts mis-encoded. */
  function WrapAsWritten(prior: seq<Message>, message: string, assessCriticality: bool, hasSession: bool,
                         conversationId: string, repoPath: string, b: Backend): (r: Wrapped)
    ensures Keeps(r.window, prior + [UserMessage(message)])
    ensures r.Finished? ==> r.run == Chat(Query(message, assessCriticality), prior + [UserMessage(message)], hasSession,
                                          conversationId, b.stamp, repoPath, b.storeError, b.parse, b.script, b.execute)
  {
    WrapWith(prior, prior + [UserMessage(message)], true, message, assessCriticality, hasSession, conversationId, repoPath, b)
  }

  /** `chat_wrapper` as intended: the engine gets the history before the new
      message, which it sends itself, and yields its status texts as emoji. */
  function Wrap(prior: seq<Message>, message: string, assessCriticality: bool, hasSession: bool,
                conversationId: string, repoPath: string, b: Backend): Wrapped
  {
    WrapWith(prior, prior, false, message, assessCriticality, hasSession, conversationId, repoPath, b)
  }

  class ChatWindow {
    var history: seq<Message>
    var pending: Option<nat>
    var finalText: string

    function State(): Window
      reads this
    {
      Window(history, pending, finalText)
    }

    constructor(history: seq<Message>)
      ensures State() == Window(history, None, "")
    {
      this.history := history;
      pending := None;
      finalText := "";
    }

    /** Show the user's message and the thinking placeholder. */
    method Open(message: string)
      modifies this
      ensures State() == Opened(old(history), message)
    {
      history := history + [UserMessage(message), AssistantMessage(Thinking)];
      pending := None;
      finalText := "";
    }

    /** The display loop of `chat_wrapper`: each yielded text in turn. */
    method ApplyAll(texts: seq<string>)
      requires history != []
      modifies this
      ensures State() == Steps(old(State()), texts)
    {
      ghost var start := State();
      for i := 0 to |texts|
        invariant history != []
        invariant State() == Steps(start, texts[..i])
      {
        StepsStep(start, texts, i);
        Apply(texts[i]);
      }
      assert texts[..|texts|] == texts;
    }

    /** Handle one yielded text. */
    method Apply(text: string)
      requires history != []
      modifies this
      ensures State() == Step(old(State()), text)
    {
      var kind := KindOf(text);
      var last := |history| - 1;
      if kind == Started {
        history := history[last := Message("assistant", text, TitleMeta(Using + ToolName(text) + "..."))];
        pending := Some(last);
      } else if kind == Done || kind == Errored {
        var m := if kind == Done then Message("assistant", text, TitleMeta(CheckMark + " " + ToolName(text)))
                 else Message("assistant", text, TitleMeta(Boom + " " + ToolName(text) + " error"));
        if pending.Some? && pending.value < |history| {
          history := history[pending.value := m];
        }
        pending := None;
        history := history + [AssistantMessage(if kind == Done then Analyzing else Continuing)];
      } else if kind == Progress {
        history := history[last := history[last].(content := text)];
      } else if kind == Final {
        history := history[last := AssistantMessage(text)];
        finalText := text;
      }
    }

    /** `chat_wrapper` (see `Wrap`). */
    method ChatWrapper(message: string, assessCriticality: bool, hasSession: bool, conversationId: string,
                       repoPath: string, b: Backend) returns (outcome: Wrapped)
      modifies this
      ensures outcome == Wrap(old(history), message, assessCriticality, hasSession, conversationId, repoPath, b)
      ensures State() == outcome.window
    {
      var prior := history;
      Open(message);
      var run := ChatFn(Query(message, assessCriticality), prior, hasSession, conversationId, b.stamp, repoPath,
                        b.storeError, b.parse, b.script, b.execute);
      if run.ReplayFailed? {
        return WrapperRaised(State());
      }
      ApplyAll(IntendedTexts(run.Yielded()));
      if run.StoreFailed? {
        outcome := Finished(State(), run, hasSession, conversationId, false);
      } else {
        outcome := Finished(State(), run, true, run.conversationId, run.newConversation);
      }
    }
  }

  /** The turn keeps the earlier messages and the user's message in place;
      the window grows by the placeholder and one message per finished or
      failed tool; the sidebar list is refreshed exactly when the engine
      started a new conversation. */
  lemma WrapperKeepsConversation(prior: seq<Message>, message: string, assessCriticality: bool, hasSession: bool,
                                 conversationId: string, repoPath: string, b: Backend)
    ensures var out := Wrap(prior, message, assessCriticality, hasSession, conversationId, repoPath, b);
      && out.window.history[..|prior| + 1] == prior + [UserMessage(message)]
      && |out.window.history| >= |prior| + 2
      && (out.window.pending.Some? ==> |prior| + 1 <= out.window.pending.value < |out.window.history|)
      && (out.Finished? ==>
            && |out.window.history| == |prior| + 2 + Added(IntendedTexts(out.run.Yielded()))
            && (out.refreshList <==> out.run.Answered? && conversationId == ""))
  {
    var base := prior + [UserMessage(message)];
    var w := Opened(prior, message);
    assert w.history[..|base|] == base;
    var run := Chat(Query(message, assessCriticality), prior, hasSession, conversationId, b.stamp, repoPath,
                    b.storeError, b.parse, b.script, b.execute);
    StepsKeep(w, IntendedTexts(run.Yielded()), base);
    ChatConversationId(Query(message, assessCriticality), prior, hasSession, conversationId, b.stamp, repoPath,
                       b.storeError, b.parse, b.script, b.execute);
  }

  /** Without an open session, the engine's new session starts from the
      history before this turn, so the user's message reaches the model once,
      as the message sent; a history that cannot be replayed makes the turn
      raise. */
  lemma WrapperSessionFromPrior(prior: seq<Message>, message: string, assessCriticality: bool,
                                conversationId: string, repoPath: string, b: Backend)
    requires b.storeError.None?
    ensures var out := Wrap(prior, message, assessCriticality, false, conversationId, repoPath, b);
      && (out.WrapperRaised? <==> ReplayHistory(prior, b.parse).None?)
      && (out.Finished? ==> out.run.Answered? && out.run.session == CreatedWith(ReplayHistory(prior, b.parse).value))
  {
    ChatSession(Query(message, assessCriticality), prior, false, conversationId, b.stamp, repoPath,
                b.storeError, b.parse, b.script, b.execute);
  }

  /** As written, the wrapper hands the engine the history that already ends
      with the user's message: a new session then starts with that message as
      its last user turn, and the engine sends the same message again. */
  lemma SessionRepeatsMessage(prior: seq<Message>, message: string, conversationId: string, repoPath: string, b: Backend)
    requires b.storeError.None?
    requires ReplayHistory(prior, b.parse).Some?
    ensures var out := WrapAsWritten(prior, message, false, false, conversationId, repoPath, b);
      && out.Finished? && out.run.Answered?
      && out.run.session == CreatedWith(ReplayHistory(prior, b.parse).value + [Turn("user", [TextPart(message)])])
  {
    ReplayUserAppended(prior, message, b.parse);
    ChatSession(message, prior + [UserMessage(message)], false, conversationId, b.stamp, repoPath,
                b.storeError, b.parse, b.script, b.execute);
  }

  /** As the engine spells its markers, no status text starts with a marker
      the wrapper recognises: each one replaces the last message as if it
      were the answer, and becomes the final text. */
  lemma EngineStatusShownAsAnswer(w: Window, e: Event)
    requires w.history != [] && !e.Reply?
    ensures KindOf(e.Text()) == Final
    ensures Step(w, e.Text()) == Window(w.history[|w.history| - 1 := AssistantMessage(e.Text())], w.pending, e.Text())
  {
    var t := e.Text();
    match e
    case ToolStarted(name, desc) =>
      assert t[0] == '\U{F0}';
    case ToolFinished(name, desc) =>
      assert t[0] == '\U{E2}';
    case ToolFailed(name, error) =>
      assert t[0] == '\U{E2}';
    case Processing =>
      assert t[0] == '\U{F0}';
    case SourcesFound(count) =>
      assert t[0] == '\U{F0}';
  }

  /** Steps over one more text is Step applied after Steps over the texts before it. */
  lemma StepsStep(w: Window, texts: seq<string>, i: nat)
    requires w.history != [] && i < |texts|
    ensures Steps(w, texts[..i + 1]) == Step(Steps(w, texts[..i]), texts[i])
  {
    assert texts[..i + 1][..i] == texts[..i];
  }

  /** Texts that are all answers leave the pending index unset and add no message. */
  lemma {:induction false} AnswersAddNothing(w: Window, texts: seq<string>)
    requires w.history != [] && w.pending.None?
    requires forall i :: 0 <= i < |texts| ==> KindOf(texts[i]) == Final
    ensures Added(texts) == 0 && Steps(w, texts).pending.None?
    decreases |texts|
  {
    if texts != [] {
      AnswersAddNothing(w, texts[..|texts| - 1]);
    }
  }

  /** As written, a turn whose reply is not itself marked never shows a tool
      message: the window ends with the user's message and one assistant
      message, and no tool is left pending. */
  lemma AsWrittenShowsNoToolMessages(prior: seq<Message>, message: string, assessCriticality: bool, hasSession: bool,
                                     conversationId: string, repoPath: string, b: Backend)
    requires var out := WrapAsWritten(prior, message, assessCriticality, hasSession, conversationId, repoPath, b);
      out.Finished? && forall i :: 0 <= i < |out.run.Yielded()| && out.run.Yielded()[i].Reply? ==>
        KindOf(out.run.Yielded()[i].text) == Final
    ensures var out := WrapAsWritten(prior, message, assessCriticality, hasSession, conversationId, repoPath, b);
      |out.window.history| == |prior| + 2 && out.window.pending.None?
  {
    var out := WrapAsWritten(prior, message, assessCriticality, hasSession, conversationId, repoPath, b);
    SpelledAnswersOnly(prior, message, out.run.Yielded());
  }

  /** The engine's texts as spelled, when no reply is itself marked, leave the
      opened window with no tool message and nothing pending. */
  lemma SpelledAnswersOnly(prior: seq<Message>, message: string, events: seq<Event>)
    requires forall i :: 0 <= i < |events| && events[i].Reply? ==> KindOf(events[i].text) == Final
    ensures var w := Steps(Opened(prior, message), EngineTexts(events));
      |w.history| == |prior| + 2 && w.pending.None?
  {
    var texts := EngineTexts(events);
    forall i | 0 <= i < |texts|
      ensures KindOf(texts[i]) == Final
    {
      if !events[i].Reply? {
        EngineStatusShownAsAnswer(Opened(prior, message), events[i]);
      }
    }
    AnswersAddNothing(Opened(prior, message), texts);
  }

  /** With the markers spelled as the emoji they were encoded from, a tool
      start opens a pending tool message, a finish or failure settles it, and
      processing updates the placeholder; each names the tool the engine ran. */
  lemma IntendedStatusRecognised(e: Event)
    ensures e.ToolStarted? ==> KindOf(e.Intended()) == Started
    ensures e.ToolFinished? ==> KindOf(e.Intended()) == Done
    ensures e.ToolFailed? ==> KindOf(e.Intended()) == Errored
    ensures e.Processing? ==> KindOf(e.Intended()) == Progress
    ensures (e.ToolStarted? || e.ToolFinished? || e.ToolFailed?) && '`' !in e.name ==> ToolName(e.Intended()) == e.name
  {
    match e
    case ToolStarted(name, desc) => StartedRecognised(name, desc);
    case ToolFinished(name, desc) => FinishedRecognised(name, desc);
    case ToolFailed(name, error) => FailedRecognised(name, error);
    case Processing => MarkerLeads(Brain, " Processing tool outputs...");
    case SourcesFound(count) =>
    case Reply(text) =>
  }

  lemma StartedRecognised(name: string, desc: string)
    ensures KindOf(ToolStarted(name, desc).Intended()) == Started
    ensures '`' !in name ==> ToolName(ToolStarted(name, desc).Intended()) == name
  {
    var rest := Detail(RightArrow, desc) + "...";
    var t := ToolStarted(name, desc).Intended();
    assert t == Hammer + (" " + "`" + name + "`" + rest);
    MarkerLeads(Hammer, " " + "`" + name + "`" + rest);
    if '`' !in name {
      ToolNameAfterMarker(Hammer, " ", name, rest);
    }
  }

  lemma FinishedRecognised(name: string, desc: string)
    ensures KindOf(ToolFinished(name, desc).Intended()) == Done
    ensures '`' !in name ==> ToolName(ToolFinished(name, desc).Intended()) == name
  {
    var rest := Detail(RightArrow, desc) + " " + Tick;
    var t := ToolFinished(name, desc).Intended();
    assert t == CheckMark + (" " + "`" + name + "`" + rest);
    MarkerLeads(CheckMark, " " + "`" + name + "`" + rest);
    if '`' !in name {
      ToolNameAfterMarker(CheckMark, " ", name, rest);
    }
  }

  lemma FailedRecognised(name: string, error: string)
    ensures KindOf(ToolFailed(name, error).Intended()) == Errored
    ensures '`' !in name ==> ToolName(ToolFailed(name, error).Intended()) == name
  {
    var rest := ": " + error;
    var t := ToolFailed(name, error).Intended();
    assert t == CrossMark + (" Error in " + "`" + name + "`" + rest);
    MarkerLeads(CrossMark, " Error in " + "`" + name + "`" + rest);
    if '`' !in name {
      ToolNameAfterMarker(CrossMark, " Error in ", name, rest);
    }
  }

  lemma MarkerLeads(marker: string, rest: string)
    requires marker != []
    ensures StartsWith(marker + rest, marker) && (marker + rest)[0] == marker[0]
  {
    assert (marker + rest)[..|marker|] == marker;
  }

  lemma ToolNameAfterMarker(marker: string, lead: string, name: string, rest: string)
    requires '`' !in marker && '`' !in lead && '`' !in name
    ensures ToolName(marker + (lead + "`" + name + "`" + rest)) == name
  {
    assert marker + (lead + "`" + name + "`" + rest) == (marker + lead) + "`" + name + "`" + rest;
    ToolNameBetweenTicks(marker + lead, name, rest);
  }
}
