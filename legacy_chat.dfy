/**
  The earlier chat page: a chat turn against the file-search store only
  (no local tools), loading a stored conversation of query/response pairs,
  the wrapper that shows one turn, and the sidebar refresh.
 */
module LegacyChat {
  import opened Wrappers
  import opened Text
  import opened Transcript
  import opened ChatEngine

  /** The model's role for a chat-window role. */
  function ModelRole(role: string): string {
    if role == "assistant" then "model" else role
  }

  /** The history handed to a new model session: one text turn per message. */
  function ConvertHistory(history: seq<Message>): seq<Turn>
    decreases |history|
  {
    if history == [] then []
    else
      var m := history[|history| - 1];
      ConvertHistory(history[..|history| - 1]) + [Turn(ModelRole(m.role), [TextPart(m.content)])]
  }

  method Convert(history: seq<Message>) returns (turns: seq<Turn>)
    ensures turns == ConvertHistory(history)
  {
    turns := [];
    for i := 0 to |history|
      invariant turns == ConvertHistory(history[..i])
    {
      assert history[..i + 1][..i] == history[..i];
      var m := history[i];
      turns := turns + [Turn(ModelRole(m.role), [TextPart(m.content)])];
    }
    assert history[..|history|] == history;
  }

  /** Every message becomes one turn, in order, carrying its text; only the
      assistant's role is renamed, and metadata is dropped. */
  lemma {:induction false} ConvertKeepsMessages(history: seq<Message>)
    ensures |ConvertHistory(history)| == |history|
    ensures forall i :: 0 <= i < |history| ==>
      && ConvertHistory(history)[i].parts == [TextPart(history[i].content)]
      && (ConvertHistory(history)[i].role == "model" <==> history[i].role in {"assistant", "model"})
      && (history[i].role != "assistant" ==> ConvertHistory(history)[i].role == history[i].role)
    decreases |history|
  {
    if history != [] {
      var prefix := history[..|history| - 1];
      ConvertKeepsMessages(prefix);
      forall i | 0 <= i < |history| - 1
        ensures ConvertHistory(history)[i] == ConvertHistory(prefix)[i] && prefix[i] == history[i]
      {
      }
    }
  }

  /** What sending the message gave: an exception, or a response with its text
      (`None` when the model returned none) and its grounding titles. */
  datatype Reply = SendRaised | Received(text: Option<string>, titles: seq<string>)

  const Apology := "I'm sorry, but I encountered an error while processing your request. "
    + "This could be due to a temporary issue with the service. Please try again in a moment."

  const ConcatError := "unsupported operand type(s) for +=: 'NoneType' and 'str'"

  /** A row written by `add_chat_history`. */
  datatype Stored = Stored(conversationId: string, query: string, response: string)

  /** What one call of the earlier `chat_fn` did: the error that escapes, or
      the reply text, how the session was obtained, the conversation id,
      whether it is new, and the row stored. */
  datatype LegacyRun =
    | Escaped(error: string)
    | Done(reply: Option<string>, session: SessionUse, conversationId: string, newConversation: bool,
           stored: Option<Stored>)

  /** The earlier `chat_fn`. */
  function LegacyChatRun(message: string, history: seq<Message>, hasSession: bool, conversationId: string,
                         stamp: string, reply: Reply): LegacyRun
  {
    var newConversation := conversationId == "";
    var id := if newConversation then "conv_" + stamp else conversationId;
    var session := if hasSession then Reused else CreatedWith(ConvertHistory(history));
    match reply
    case SendRaised => Done(Some(Apology), session, id, newConversation, None)
    case Received(text, titles) =>
      if titles != [] && text.None? then Escaped(ConcatError)
      else
        var full := if text.None? then None else Some(text.value + Citations(titles));
        var stored := if message != "" && full.Some? && full.value != "" then Some(Stored(id, message, full.value)) else None;
        Done(full, session, id, newConversation, stored)
  }

  method LegacyChatFn(message: string, history: seq<Message>, hasSession: bool, conversationId: string,
                      stamp: string, reply: Reply) returns (run: LegacyRun)
    ensures run == LegacyChatRun(message, history, hasSession, conversationId, stamp, reply)
  {
    var newConversation := false;
    var id := conversationId;
    if id == "" {
      newConversation := true;
      id := "conv_" + stamp;
    }
    var session := Reused;
    if !hasSession {
      var turns := Convert(history);
      session := CreatedWith(turns);
    }
    if reply.SendRaised? {
      return Done(Some(Apology), session, id, newConversation, None);
    }
    var text := reply.text;
    if reply.titles != [] {
      if text.None? {
        return Escaped(ConcatError);
      }
      text := Some(text.value + Citations(reply.titles));
    } else if text.Some? {
      assert text.value + Citations(reply.titles) == text.value;
    }
    var stored := None;
    if message != "" && text.Some? && text.value != "" {
      stored := Some(Stored(id, message, text.value));
    }
    return Done(text, session, id, newConversation, stored);
  }

  /** A failed send gives the apology and stores nothing; otherwise the reply
      is the model's text followed by the citation block of its distinct
      titles, and the turn is stored exactly when the message and the reply
      are non-empty; a new id is made exactly when none was given. */
  lemma LegacyChatOutcomes(message: string, history: seq<Message>, hasSession: bool, conversationId: string,
                           stamp: string, reply: Reply)
    ensures var run := LegacyChatRun(message, history, hasSession, conversationId, stamp, reply);
      && (run.Escaped? <==> reply.Received? && reply.titles != [] && reply.text.None?)
      && (run.Done? ==>
            && (run.newConversation <==> conversationId == "")
            && run.conversationId != ""
            && (run.session == Reused <==> hasSession)
            && (reply.SendRaised? ==> run.reply == Some(Apology) && run.stored.None?)
            && (reply.Received? && reply.text.Some? ==>
                  run.reply == Some(reply.text.value + Citations(reply.titles))
                  && (reply.titles == [] ==> run.reply == reply.text))
            && (run.stored.Some? <==> reply.Received? && message != "" && run.reply.Some? && run.reply.value != "")
            && (run.stored.Some? ==> run.stored.value == Stored(run.conversationId, message, run.reply.value)))
  {
    if reply.Received? && reply.text.Some? && reply.titles == [] {
      assert reply.text.value + Citations(reply.titles) == reply.text.value;
    }
  }

  // ---------------------------------------------------------------------
  // Loading

  /** The chat-window messages of stored query/response pairs. */
  function PairMessages(rows: seq<(string, string)>): seq<Message>
    decreases |rows|
  {
    if rows == [] then []
    else
      var (query, response) := rows[|rows| - 1];
      PairMessages(rows[..|rows| - 1]) + [UserMessage(query), AssistantMessage(response)]
  }

  /** What loading returns: the messages, the conversation state, the sidebar
      selection and whether the delete control shows (the session is always cleared). */
  datatype LegacyLoaded = LegacyLoaded(messages: seq<Message>, conversationId: Option<string>,
                                       selected: Option<string>, deleteVisible: bool)

  function LegacyLoadView(conversationId: string, rows: seq<(string, string)>): LegacyLoaded {
    if conversationId == "" then LegacyLoaded([], None, None, false)
    else if rows == [] then LegacyLoaded([], None, Some(conversationId), true)
    else LegacyLoaded(PairMessages(rows), Some(conversationId), Some(conversationId), true)
  }

  method LegacyLoadConversation(conversationId: string, rows: seq<(string, string)>) returns (view: LegacyLoaded)
    ensures view == LegacyLoadView(conversationId, rows)
  {
    if conversationId == "" {
      return LegacyLoaded([], None, None, false);
    }
    if rows == [] {
      return LegacyLoaded([], None, Some(conversationId), true);
    }
    var messages: seq<Message> := [];
    for i := 0 to |rows|
      invariant messages == PairMessages(rows[..i])
    {
      assert rows[..i + 1][..i] == rows[..i];
      var (query, response) := rows[i];
      messages := messages + [UserMessage(query), AssistantMessage(response)];
    }
    assert rows[..|rows|] == rows;
    return LegacyLoaded(messages, Some(conversationId), Some(conversationId), true);
  }

  /** Loaded pairs alternate user and assistant messages in row order. */
  lemma {:induction false} PairMessagesShape(rows: seq<(string, string)>)
    ensures |PairMessages(rows)| == 2 * |rows|
    ensures forall i :: 0 <= i < |rows| ==>
      PairMessages(rows)[2 * i] == UserMessage(rows[i].0) && PairMessages(rows)[2 * i + 1] == AssistantMessage(rows[i].1)
    decreases |rows|
  {
    if rows != [] {
      var prefix := rows[..|rows| - 1];
      PairMessagesShape(prefix);
      forall i | 0 <= i < |rows| - 1
        ensures prefix[i] == rows[i]
      {
      }
    }
  }

  /** A loaded conversation, handed to a new session, becomes alternating user
      and model turns carrying the stored queries and responses. */
  lemma LoadedConversationReplays(rows: seq<(string, string)>)
    ensures var turns := ConvertHistory(PairMessages(rows));
      && |turns| == 2 * |rows|
      && forall i :: 0 <= i < |rows| ==>
           turns[2 * i] == Turn("user", [TextPart(rows[i].0)]) && turns[2 * i + 1] == Turn("model", [TextPart(rows[i].1)])
  {
    PairMessagesShape(rows);
    ConvertKeepsMessages(PairMessages(rows));
    var ms := PairMessages(rows);
    var turns := ConvertHistory(ms);
    forall i | 0 <= i < |rows|
      ensures turns[2 * i] == Turn("user", [TextPart(rows[i].0)]) && turns[2 * i + 1] == Turn("model", [TextPart(rows[i].1)])
    {
      assert ms[2 * i] == UserMessage(rows[i].0);
      assert ms[2 * i + 1] == AssistantMessage(rows[i].1);
    }
  }

  /** Without an id nothing is loaded; with an id the selection follows it;
      the conversation state is set only when there were rows. */
  lemma LegacyLoadGuards(conversationId: string, rows: seq<(string, string)>)
    ensures var v := LegacyLoadView(conversationId, rows);
      && (v.deleteVisible <==> conversationId != "")
      && (v.selected.Some? <==> conversationId != "")
      && (v.conversationId.Some? <==> conversationId != "" && rows != [])
      && (v.messages == [] <==> conversationId == "" || rows == [])
  {
    if conversationId != "" && rows != [] {
      PairMessagesShape(rows);
    }
  }

  // ---------------------------------------------------------------------
  // The wrapper and the sidebar

  /** The end of one shown turn: the run, whether a session is open, the
      conversation id, and whether to refresh the sidebar list. */
  datatype Shown = ShownRaised(error: string) | Shown(run: LegacyRun, sessionOpen: bool, conversationId: string, refreshList: bool)

  class LegacyWindow {
    var history: seq<Message>

    constructor(history: seq<Message>)
      ensures this.history == history
    {
      this.history := history;
    }

    /** `chat_wrapper`: show the message, run the turn with the history that
        now ends with it, then show the reply (empty when there is none). */
    method ChatWrapper(message: string, hasSession: bool, conversationId: string, stamp: string, reply: Reply)
      returns (shown: Shown)
      modifies this
      ensures var run := LegacyChatRun(message, old(history) + [UserMessage(message)], hasSession, conversationId, stamp, reply);
        && (run.Escaped? ==> shown == ShownRaised(run.error) && history == old(history) + [UserMessage(message)])
        && (run.Done? ==>
              && shown == Shown(run, true, run.conversationId, run.newConversation)
              && history == old(history) + [UserMessage(message), AssistantMessage(run.reply.GetOr(""))])
    {
      history := history + [UserMessage(message)];
      var run := LegacyChatFn(message, history, hasSession, conversationId, stamp, reply);
      if run.Escaped? {
        return ShownRaised(run.error);
      }
      history := history + [AssistantMessage(run.reply.GetOr(""))];
      return Shown(run, true, run.conversationId, run.newConversation);
    }
  }

  /** The wrapper refreshes the list exactly when the turn started a new
      conversation, and a new session is created with the message already at
      the end of its history before the message is sent. */
  lemma LegacyWrapperSession(prior: seq<Message>, message: string, conversationId: string, stamp: string, reply: Reply)
    ensures var run := LegacyChatRun(message, prior + [UserMessage(message)], false, conversationId, stamp, reply);
      run.Done? ==>
        && run.session == CreatedWith(ConvertHistory(prior) + [Turn("user", [TextPart(message)])])
        && (run.newConversation <==> conversationId == "")
  {
  }

  /** `refresh_conversation_list`: the sidebar entries of the stored conversations. */
  function RefreshConversationList(convos: seq<(string, string)>): (choices: seq<(string, string)>)
    ensures |choices| == |convos|
    ensures forall i :: 0 <= i < |convos| ==> choices[i].1 == convos[i].0
  {
    ConversationChoices(convos)
  }
}
