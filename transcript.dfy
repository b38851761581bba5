/**
  The conversation records shared by the chat engine, the chat tab and the
  legacy chat page: stored transcript rows and their tool-call records,
  chat-window messages, the turns handed to the model, and the two text
  rules both chat pages apply (the sidebar title label and the citation
  block).
 */
module Transcript {
  import opened Wrappers
  import opened Text

  /** The `args` of a recorded tool call: missing, a JSON object, or a JSON string. */
  datatype Args = NoArgs | Dict(entries: map<string, string>) | Encoded(text: string)

  /** One entry of a stored `tool_calls` list. The chat engine always writes all
      three keys; a record read back from storage may lack one. */
  datatype ToolRecord = ToolRecord(name: Option<string>, args: Args, result: Option<string>)

  /** `tc.get('name', 'tool')` */
  function RecordName(r: ToolRecord): string {
    r.name.GetOr("tool")
  }

  /** A transcript row: the query, the response and the `tool_calls` JSON text (or NULL). */
  datatype Row = Row(query: string, response: string, toolCalls: Option<string>)

  /** Chat-window message metadata: none, `{"tool_calls": [...]}` or `{"title": ...}`. */
  datatype Meta = NoMeta | ToolCallsMeta(calls: seq<ToolRecord>) | TitleMeta(title: string)

  /** A chat-window message (`ChatMessage` or its dictionary form). */
  datatype Message = Message(role: string, content: string, meta: Meta)

  function UserMessage(text: string): Message {
    Message("user", text, NoMeta)
  }

  function AssistantMessage(text: string): Message {
    Message("assistant", text, NoMeta)
  }

  /** A part of a model turn: text, a function call, or a function response. */
  datatype Part =
    | TextPart(text: string)
    | CallPart(name: string, args: map<string, string>)
    | ResponsePart(name: string, result: string)

  /** `types.Content(role=..., parts=[...])` */
  datatype Turn = Turn(role: string, parts: seq<Part>)

  /** `args.get(key, default)` */
  function Lookup(args: map<string, string>, key: string, default: string): string {
    if key in args then args[key] else default
  }

  /** The argument shown next to a tool's name in a status line; empty for a
      tool without one. */
  function ArgDesc(name: string, args: map<string, string>): (desc: string)
    ensures desc != "" <==> name in {"read_file", "search_knowledge_graph", "list_files"}
  {
    if name == "read_file" then "`" + Lookup(args, "file_path", "?") + "`"
    else if name == "search_knowledge_graph" then "query: `" + Lookup(args, "query", "?") + "`"
    else if name == "list_files" then "`" + Lookup(args, "directory_path", "workspace") + "`"
    else ""
  }

  /** The sidebar label of a conversation title: cut to 40 characters plus "...". */
  function TitleLabel(title: string): (shown: string)
    ensures |title| <= 40 ==> shown == title
    ensures |title| > 40 ==> |shown| == 43 && shown[..40] == title[..40] && EndsWith(shown, "...")
  {
    if |title| > 40 then title[..40] + "..." else title
  }

  /** `[(label(title), conv_id) for conv_id, title in convos]` */
  function ConversationChoices(convos: seq<(string, string)>): (choices: seq<(string, string)>)
    ensures |choices| == |convos|
    ensures forall i :: 0 <= i < |convos| ==> choices[i] == (TitleLabel(convos[i].1), convos[i].0)
  {
    seq(|convos|, i requires 0 <= i < |convos| => (TitleLabel(convos[i].1), convos[i].0))
  }

  /** The sidebar keeps every conversation, in order, under its own id; a label
      is at most 43 characters and starts with the first 40 of the title. */
  lemma ChoicesKeepConversations(convos: seq<(string, string)>)
    ensures var choices := ConversationChoices(convos);
      forall i :: 0 <= i < |convos| ==>
        var title := convos[i].1;
        var n := if |title| < 40 then |title| else 40;
        && choices[i].1 == convos[i].0
        && |choices[i].0| <= 43
        && StartsWith(choices[i].0, title[..n])
        && (|title| <= 40 <==> choices[i].0 == title && |choices[i].0| <= 40)
  {
  }

  const SourcesHeading := "\n\n**Sources:**\n"

  function SourceLine(title: string): string {
    "- `" + title + "`"
  }

  function SourceLines(titles: seq<string>): (lines: seq<string>)
    ensures |lines| == |titles|
    ensures forall i :: 0 <= i < |titles| ==> lines[i] == SourceLine(titles[i])
  {
    seq(|titles|, i requires 0 <= i < |titles| => SourceLine(titles[i]))
  }

  /** The citation block appended to a response: nothing when no source was
      retrieved, otherwise one line per distinct title in ascending order. */
  function Citations(titles: seq<string>): string {
    if titles == [] then "" else SourcesHeading + Join(SourceLines(SortedDistinct(titles)), "\n")
  }

  /** The citation block lists each retrieved title exactly once, sorted, and
      does not depend on the order or repetition in which titles arrive. */
  lemma CitationsListEachSourceOnce(titles: seq<string>, other: seq<string>)
    ensures titles == [] <==> Citations(titles) == ""
    ensures titles != [] ==> StartsWith(Citations(titles), SourcesHeading)
    ensures StrictlySorted(SortedDistinct(titles)) && Elements(SortedDistinct(titles)) == Elements(titles)
    ensures Elements(titles) == Elements(other) ==> Citations(titles) == Citations(other)
  {
    if titles != [] {
      assert (SourcesHeading + Join(SourceLines(SortedDistinct(titles)), "\n"))[..|SourcesHeading|] == SourcesHeading;
    }
    if Elements(titles) == Elements(other) {
      SortedUnique(SortedDistinct(titles), SortedDistinct(other));
      ElementsEmpty(titles);
      ElementsEmpty(other);
    }
  }
}
