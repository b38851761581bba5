/**
  The tool-calling conversation engine: submission with retry on rate
  limits, dispatch of the model's function calls to the local tools with
  argument injection, replay of a chat-window history into model turns, the
  tool loop of one chat turn, the citation block and the decision to store
  the exchange.

  The remote model is a script: the outcome of each successive submission
  attempt, in order. The local tools are one function from a tool name and
  its arguments to what the call returned or raised.
 */
module ChatEngine {
  import opened Wrappers
  import opened Text
  import opened Transcript

  // The status markers exactly as core/chat_engine.py spells them (each is a
  // UTF-8 emoji whose bytes were decoded as Windows-1252 text).
  const ToolMarker := "\U{F0}\U{178}\U{203A}\U{A0}\U{EF}\U{B8}"
  const DoneMarker := "\U{E2}\U{153}\U{2026}"
  const CheckMarker := "\U{E2}\U{153}\U{201C}"
  const ErrorMarker := "\U{E2}\U{152}"
  const ThinkMarker := "\U{F0}\U{178}\U{A7}\U{A0}"
  const WarnMarker := "\U{E2}\U{161}\U{A0}\U{EF}\U{B8}"
  const BooksMarker := "\U{F0}\U{178}\U{201C}\U{161}"
  const Arrow := "\U{E2}\U{2020}\U{2019}"

  // The emoji those markers were encoded from.
  const Hammer := "\U{1F6E0}\U{FE0F}"
  const CheckMark := "\U{2705}"
  const Tick := "\U{2713}"
  const CrossMark := "\U{274C}"
  const Brain := "\U{1F9E0}"
  const Warning := "\U{26A0}\U{FE0F}"
  const Books := "\U{1F4DA}"
  const RightArrow := "\U{2192}"

  /** What `send_message` raised: whether it was a `ClientError`, and its text. */
  datatype Failure = Failure(clientError: bool, text: string)

  /** A function call the model asks for. */
  datatype FunctionCall = FunctionCall(name: string, args: map<string, string>)

  /** A part of the model's reply: its text (possibly empty) and its function call, if any. */
  datatype ModelPart = ModelPart(text: string, call: Option<FunctionCall>)

  /** The first candidate of a reply (a reply without candidates has no parts):
      its parts and the titles of its grounding chunks. */
  datatype Response = Response(parts: seq<ModelPart>, titles: seq<string>)

  /** The outcome of one submission attempt. */
  datatype Outcome = Replied(response: Response) | Failed(failure: Failure)

  /** An attempt past the end of the script: the connection is gone. */
  const NoFurtherReply := Failed(Failure(false, "no further reply"))

  function At(script: seq<Outcome>, k: nat): Outcome {
    if k < |script| then script[k] else NoFurtherReply
  }

  /** `"429" in str(e) or "RESOURCE_EXHAUSTED" in str(e)` */
  predicate RateLimited(text: string) {
    Contains(text, "429") || Contains(text, "RESOURCE_EXHAUSTED")
  }

  /** Only a rate-limited `ClientError` is retried. */
  predicate Retryable(f: Failure) {
    f.clientError && RateLimited(f.text)
  }

  /** `send_message_with_retry`'s result: a reply, a raised failure, or `None`. */
  datatype SendResult = Sent(response: Response) | Raised(failure: Failure) | NoResponse

  /** The result and the waits (in seconds) slept before it. */
  datatype Retried = Retried(result: SendResult, waits: seq<nat>)

  const MaxRetries := 3

  /** The attempts from `attempt` on, the first being script entry `start + attempt`. */
  function Retry(script: seq<Outcome>, start: nat, maxRetries: int, attempt: nat): Retried
    decreases maxRetries - attempt
  {
    if attempt >= maxRetries then Retried(NoResponse, [])
    else match At(script, start + attempt)
      case Replied(resp) => Retried(Sent(resp), [])
      case Failed(f) =>
        if Retryable(f) && attempt < maxRetries - 1 then
          var rest := Retry(script, start, maxRetries, attempt + 1);
          Retried(rest.result, [(attempt + 1) * 10] + rest.waits)
        else Retried(Raised(f), [])
  }

  /** `send_message_with_retry(chat_session, content, max_retries)`, whose attempts
      are script entries `start`, `start + 1`, ... */
  method SendMessageWithRetry(script: seq<Outcome>, start: nat, maxRetries: int) returns (r: Retried)
    ensures r == Retry(script, start, maxRetries, 0)
  {
    var waits: seq<nat> := [];
    var attempt: nat := 0;
    while attempt < maxRetries
      invariant |waits| == attempt
      invariant Retry(script, start, maxRetries, 0)
        == Retried(Retry(script, start, maxRetries, attempt).result, waits + Retry(script, start, maxRetries, attempt).waits)
      decreases maxRetries - attempt
    {
      match At(script, start + attempt) {
        case Replied(resp) =>
          RetryEnds(script, start, maxRetries, attempt, waits, Sent(resp));
          return Retried(Sent(resp), waits);
        case Failed(f) =>
          if Retryable(f) && attempt < maxRetries - 1 {
            ghost var rest := Retry(script, start, maxRetries, attempt + 1);
            assert Retry(script, start, maxRetries, attempt) == Retried(rest.result, [(attempt + 1) * 10] + rest.waits);
            assert waits + ([(attempt + 1) * 10] + rest.waits) == (waits + [(attempt + 1) * 10]) + rest.waits;
            waits := waits + [(attempt + 1) * 10];
            attempt := attempt + 1;
          } else {
            RetryEnds(script, start, maxRetries, attempt, waits, Raised(f));
            return Retried(Raised(f), waits);
          }
      }
    }
    RetryEnds(script, start, maxRetries, attempt, waits, NoResponse);
    return Retried(NoResponse, waits);
  }

  /** An attempt that ends the loop: the waits so far are all the waits. */
  lemma RetryEnds(script: seq<Outcome>, start: nat, maxRetries: int, attempt: nat, waits: seq<nat>, result: SendResult)
    requires Retry(script, start, maxRetries, 0)
      == Retried(Retry(script, start, maxRetries, attempt).result, waits + Retry(script, start, maxRetries, attempt).waits)
    requires Retry(script, start, maxRetries, attempt) == Retried(result, [])
    ensures Retry(script, start, maxRetries, 0) == Retried(result, waits)
  {
    assert waits + [] == waits;
  }

  /** The k-th wait is (k+1)*10 seconds counted from `attempt`, and follows a
      rate-limited failure. */
  ghost predicate WaitsFollowFailures(script: seq<Outcome>, start: nat, attempt: nat, waits: seq<nat>) {
    forall k :: 0 <= k < |waits| ==>
      waits[k] == (attempt + k + 1) * 10
      && At(script, start + attempt + k).Failed?
      && Retryable(At(script, start + attempt + k).failure)
  }

  /** At most `maxRetries` attempts; the k-th wait is (k+1)*10 seconds and
      follows a rate-limited `ClientError` that was not the last attempt; a
      reply ends the attempts, and any other failure is raised at once. */
  lemma {:induction false} RetryFacts(script: seq<Outcome>, start: nat, maxRetries: int, attempt: nat)
    ensures Retry(script, start, maxRetries, attempt).result == NoResponse <==> attempt >= maxRetries
    ensures attempt < maxRetries ==> attempt + |Retry(script, start, maxRetries, attempt).waits| < maxRetries
    ensures attempt >= maxRetries ==> Retry(script, start, maxRetries, attempt).waits == []
    ensures WaitsFollowFailures(script, start, attempt, Retry(script, start, maxRetries, attempt).waits)
    ensures var r := Retry(script, start, maxRetries, attempt);
      r.result.Sent? ==> At(script, start + attempt + |r.waits|) == Replied(r.result.response)
    ensures var r := Retry(script, start, maxRetries, attempt);
      r.result.Raised? ==>
        At(script, start + attempt + |r.waits|) == Failed(r.result.failure)
        && (!Retryable(r.result.failure) || attempt + |r.waits| == maxRetries - 1)
    decreases maxRetries - attempt
  {
    if attempt >= maxRetries {
      assert Retry(script, start, maxRetries, attempt).waits == [];
    } else {
      match At(script, start + attempt) {
        case Replied(resp) =>
          assert Retry(script, start, maxRetries, attempt) == Retried(Sent(resp), []);
        case Failed(f) =>
          if !(Retryable(f) && attempt < maxRetries - 1) {
            assert Retry(script, start, maxRetries, attempt) == Retried(Raised(f), []);
          } else {
            RetryFacts(script, start, maxRetries, attempt + 1);
            var rest := Retry(script, start, maxRetries, attempt + 1);
            var r := Retry(script, start, maxRetries, attempt);
            assert r.waits == [(attempt + 1) * 10] + rest.waits;
            assert r.result == rest.result;
            forall k | 0 <= k < |r.waits|
              ensures r.waits[k] == (attempt + k + 1) * 10
              ensures At(script, start + attempt + k).Failed? && Retryable(At(script, start + attempt + k).failure)
            {
              if k == 0 {
                assert At(script, start + attempt + k) == Failed(f);
              } else {
                assert r.waits[k] == rest.waits[k - 1];
                assert start + attempt + k == start + (attempt + 1) + (k - 1);
              }
            }
            assert WaitsFollowFailures(script, start, attempt, r.waits);
            assert start + attempt + |r.waits| == start + (attempt + 1) + |rest.waits|;
          }
      }
    }
  }

  /** A reply comes from an entry of the script. */
  lemma RetrySentWithin(script: seq<Outcome>, start: nat)
    ensures var r := Retry(script, start, MaxRetries, 0);
      r.result.Sent? ==> start + |r.waits| + 1 <= |script|
  {
    RetryFacts(script, start, MaxRetries, 0);
  }

  /** With the default three attempts the waits are 10 then 20 seconds: never 30. */
  lemma DefaultRetryWaits(script: seq<Outcome>, start: nat)
    ensures var r := Retry(script, start, MaxRetries, 0);
      r.result != NoResponse && (r.waits == [] || r.waits == [10] || r.waits == [10, 20])
  {
    RetryFacts(script, start, MaxRetries, 0);
    var r := Retry(script, start, MaxRetries, 0);
    if |r.waits| == 1 {
      assert r.waits == [r.waits[0]];
    } else if |r.waits| == 2 {
      assert r.waits == [r.waits[0], r.waits[1]];
    }
  }

  // ---------------------------------------------------------------------
  // Dispatch of one function call

  /** The keys of `available_tools`. */
  const AvailableTools: set<string> := {"list_files", "read_file", "search_knowledge_graph", "set_workspace_path"}

  /** `not args.get(key)` */
  predicate Falsy(args: map<string, string>, key: string) {
    key !in args || args[key] == ""
  }

  /** The arguments a known tool is called with: the search always gets the
      session's repository, the listing and workspace tools only in place of a
      missing or empty argument. */
  function InjectArgs(name: string, args: map<string, string>, repoPath: string): (injected: map<string, string>)
    ensures injected.Keys <= args.Keys + {"repo_path", "directory_path", "path"}
    ensures name == "search_knowledge_graph" ==> "repo_path" in injected && injected["repo_path"] == repoPath
    ensures name == "list_files" ==> ("directory_path" in injected &&
      injected["directory_path"] == (if Falsy(args, "directory_path") then repoPath else args["directory_path"]))
    ensures name == "set_workspace_path" ==> ("path" in injected &&
      injected["path"] == (if Falsy(args, "path") then repoPath else args["path"]))
    ensures forall k :: k in args && !Falsy(args, k) && !(name == "search_knowledge_graph" && k == "repo_path") ==>
      k in injected && injected[k] == args[k]
    ensures name !in {"search_knowledge_graph", "list_files", "set_workspace_path"} ==> injected == args
  {
    if name == "search_knowledge_graph" then args["repo_path" := repoPath]
    else if name == "list_files" && Falsy(args, "directory_path") then args["directory_path" := repoPath]
    else if name == "set_workspace_path" && Falsy(args, "path") then args["path" := repoPath]
    else args
  }

  /** What a tool function did when called: returned a value or raised. */
  datatype ToolOutcome = Returned(text: string) | Threw(error: string)

  /** `f" → {arg_desc}" if arg_desc else ""`, with the given arrow. */
  function Detail(arrow: string, desc: string): string {
    if desc == "" then "" else " " + arrow + " " + desc
  }

  /** A value `chat_fn` yields. */
  datatype Event =
    | ToolStarted(name: string, desc: string)
    | ToolFinished(name: string, desc: string)
    | ToolFailed(name: string, error: string)
    | Processing
    | SourcesFound(count: nat)
    | Reply(text: string)
  {
    /** The text yielded. */
    function Text(): string {
      match this
      case ToolStarted(name, desc) => ToolMarker + " `" + name + "`" + Detail(Arrow, desc) + "..."
      case ToolFinished(name, desc) => DoneMarker + " `" + name + "`" + Detail(Arrow, desc) + " " + CheckMarker
      case ToolFailed(name, error) => ErrorMarker + " Error in `" + name + "`: " + error
      case Processing => ThinkMarker + " Processing tool outputs..."
      case SourcesFound(count) =>
        BooksMarker + " `file_search` " + Arrow + " found " + NatToString(count) + " source" + (if count > 1 then "s" else "")
      case Reply(text) => text
    }

    /** The text with each marker spelled as the emoji it was encoded from
        (🛠️ ✅ ✓ ❌ 🧠 📚 →): what the chat tab's status test expects. */
    function Intended(): string {
      match this
      case ToolStarted(name, desc) => Hammer + " `" + name + "`" + Detail(RightArrow, desc) + "..."
      case ToolFinished(name, desc) => CheckMark + " `" + name + "`" + Detail(RightArrow, desc) + " " + Tick
      case ToolFailed(name, error) => CrossMark + " Error in `" + name + "`: " + error
      case Processing => Brain + " Processing tool outputs..."
      case SourcesFound(count) =>
        Books + " `file_search` " + RightArrow + " found " + NatToString(count) + " source" + (if count > 1 then "s" else "")
      case Reply(text) => text
    }
  }

  /** One function call carried out: its record, its function response, and the events yielded for it. */
  datatype CallRun = CallRun(record: ToolRecord, output: Part, events: seq<Event>)

  function RunCall(fc: FunctionCall, repoPath: string, execute: (string, map<string, string>) -> ToolOutcome): (run: CallRun)
    ensures run.record.name == Some(fc.name) && run.record.result.Some?
    ensures run.output == ResponsePart(fc.name, run.record.result.value)
    ensures |run.events| == (if fc.name in AvailableTools then 2 else 1)
    ensures run.events[0] == ToolStarted(fc.name, ArgDesc(fc.name, fc.args))
  {
    var desc := ArgDesc(fc.name, fc.args);
    if fc.name in AvailableTools then
      var args := InjectArgs(fc.name, fc.args, repoPath);
      match execute(fc.name, args)
      case Returned(text) =>
        CallRun(ToolRecord(Some(fc.name), Dict(args), Some(text)), ResponsePart(fc.name, text),
          [ToolStarted(fc.name, desc), ToolFinished(fc.name, desc)])
      case Threw(error) =>
        var result := "Error executing " + fc.name + ": " + error;
        CallRun(ToolRecord(Some(fc.name), Dict(args), Some(result)), ResponsePart(fc.name, result),
          [ToolStarted(fc.name, desc), ToolFailed(fc.name, error)])
    else
      var result := "Error: Function " + fc.name + " is not available.";
      CallRun(ToolRecord(Some(fc.name), Dict(fc.args), Some(result)), ResponsePart(fc.name, result),
        [ToolStarted(fc.name, desc)])
  }

  /** An unknown name is answered with an error text and is not executed; a
      known tool runs on the injected arguments, which is what gets recorded,
      and a raised error becomes an "Error executing" result. */
  lemma RunCallOutcomes(fc: FunctionCall, repoPath: string, execute: (string, map<string, string>) -> ToolOutcome)
    ensures var run := RunCall(fc, repoPath, execute);
      && (fc.name !in AvailableTools ==>
            run.record.result == Some("Error: Function " + fc.name + " is not available.") && run.record.args == Dict(fc.args))
      && (fc.name in AvailableTools ==>
            var args := InjectArgs(fc.name, fc.args, repoPath);
            run.record.args == Dict(args)
            && match execute(fc.name, args)
               case Returned(text) => run.record.result == Some(text) && run.events[1] == ToolFinished(fc.name, ArgDesc(fc.name, fc.args))
               case Threw(error) => run.record.result == Some("Error executing " + fc.name + ": " + error) && run.events[1] == ToolFailed(fc.name, error))
  {
  }

  // ---------------------------------------------------------------------
  // One batch of function calls

  function BatchRecords(calls: seq<FunctionCall>, repoPath: string, execute: (string, map<string, string>) -> ToolOutcome): (records: seq<ToolRecord>)
    ensures |records| == |calls|
  {
    seq(|calls|, i requires 0 <= i < |calls| => RunCall(calls[i], repoPath, execute).record)
  }

  function BatchOutputs(calls: seq<FunctionCall>, repoPath: string, execute: (string, map<string, string>) -> ToolOutcome): (outputs: seq<Part>)
    ensures |outputs| == |calls|
  {
    seq(|calls|, i requires 0 <= i < |calls| => RunCall(calls[i], repoPath, execute).output)
  }

  function BatchEvents(calls: seq<FunctionCall>, repoPath: string, execute: (string, map<string, string>) -> ToolOutcome): seq<Event>
    decreases |calls|
  {
    if calls == [] then []
    else BatchEvents(calls[..|calls| - 1], repoPath, execute) + RunCall(calls[|calls| - 1], repoPath, execute).events
  }

  /** One more call extends the records and outputs by its own. */
  lemma BatchStep(calls: seq<FunctionCall>, i: nat, repoPath: string, execute: (string, map<string, string>) -> ToolOutcome,
                  records: seq<ToolRecord>, outputs: seq<Part>)
    requires i < |calls|
    requires records == BatchRecords(calls[..i], repoPath, execute)
    requires outputs == BatchOutputs(calls[..i], repoPath, execute)
    ensures records + [RunCall(calls[i], repoPath, execute).record] == BatchRecords(calls[..i + 1], repoPath, execute)
    ensures outputs + [RunCall(calls[i], repoPath, execute).output] == BatchOutputs(calls[..i + 1], repoPath, execute)
  {
  }

  /** The `for fc in function_calls` loop: one record and one function response
      per call, in the model's order, with matching names. */
  method RunBatch(calls: seq<FunctionCall>, repoPath: string, execute: (string, map<string, string>) -> ToolOutcome)
    returns (records: seq<ToolRecord>, outputs: seq<Part>, events: seq<Event>)
    ensures records == BatchRecords(calls, repoPath, execute)
    ensures outputs == BatchOutputs(calls, repoPath, execute)
    ensures events == BatchEvents(calls, repoPath, execute)
  {
    records, outputs, events := [], [], [];
    for i := 0 to |calls|
      invariant |records| == i && |outputs| == i
      invariant records == BatchRecords(calls[..i], repoPath, execute)
      invariant outputs == BatchOutputs(calls[..i], repoPath, execute)
      invariant events == BatchEvents(calls[..i], repoPath, execute)
    {
      var run := RunCall(calls[i], repoPath, execute);
      BatchStep(calls, i, repoPath, execute, records, outputs);
      records := records + [run.record];
      outputs := outputs + [run.output];
      events := events + run.events;
      assert calls[..i + 1][..i] == calls[..i];
    }
    assert calls[..|calls|] == calls;
  }

  /** Every call of a batch has one record and one function response, in the
      model's order, with matching names. */
  lemma BatchAligned(calls: seq<FunctionCall>, repoPath: string, execute: (string, map<string, string>) -> ToolOutcome)
    ensures var records := BatchRecords(calls, repoPath, execute);
      var outputs := BatchOutputs(calls, repoPath, execute);
      forall i :: 0 <= i < |calls| ==>
        records[i].name == Some(calls[i].name) && records[i].result.Some?
        && outputs[i] == ResponsePart(calls[i].name, records[i].result.value)
  {
  }

  /** The function calls among a reply's parts, in order. */
  function FunctionCalls(parts: seq<ModelPart>): seq<FunctionCall>
    decreases |parts|
  {
    if parts == [] then []
    else
      var last := parts[|parts| - 1];
      FunctionCalls(parts[..|parts| - 1]) + (if last.call.Some? then [last.call.value] else [])
  }

  /** The concatenated text of a reply's parts. */
  function ReplyText(parts: seq<ModelPart>): string
    decreases |parts|
  {
    if parts == [] then "" else ReplyText(parts[..|parts| - 1]) + parts[|parts| - 1].text
  }

  // ---------------------------------------------------------------------
  // Replaying a chat-window history into model turns

  /** The tool calls a message's metadata carries. */
  function CallsOf(m: Message): seq<ToolRecord> {
    match m.meta
    case ToolCallsMeta(calls) => calls
    case _ => []
  }

  /** `tc.get('args', {})`, a JSON string decoded or `{}` when it does not parse. */
  function ReplayArgs(a: Args, parse: string -> Option<map<string, string>>): map<string, string> {
    match a
    case NoArgs => map[]
    case Dict(entries) => entries
    case Encoded(text) => parse(text).GetOr(map[])
  }

  /** `tc['name']` and `tc['result']` are read without a default: a record lacking either raises. */
  predicate Replayable(calls: seq<ToolRecord>) {
    forall i :: 0 <= i < |calls| ==> calls[i].name.Some? && calls[i].result.Some?
  }

  function CallParts(calls: seq<ToolRecord>, parse: string -> Option<map<string, string>>): (parts: seq<Part>)
    requires Replayable(calls)
    ensures |parts| == |calls|
  {
    seq(|calls|, i requires 0 <= i < |calls| && Replayable(calls) => CallPart(calls[i].name.value, ReplayArgs(calls[i].args, parse)))
  }

  function ResponseParts(calls: seq<ToolRecord>): (parts: seq<Part>)
    requires Replayable(calls)
    ensures |parts| == |calls|
  {
    seq(|calls|, i requires 0 <= i < |calls| && Replayable(calls) => ResponsePart(calls[i].name.value, calls[i].result.value))
  }

  /** The status line that opens a live transcript of the first tool. */
  function StatusPrefix(calls: seq<ToolRecord>): string
    requires calls != []
  {
    DoneMarker + " `" + RecordName(calls[0]) + "`"
  }

  /** Text that only repeats the tool status display. */
  predicate Redundant(content: string, calls: seq<ToolRecord>) {
    calls != [] && StartsWith(Strip(content), StatusPrefix(calls))
  }

  /** The turns one history message becomes; `None` when a stored tool call
      lacks its name or result (the `KeyError` escapes). */
  function ReplayMessage(m: Message, parse: string -> Option<map<string, string>>): Option<seq<Turn>> {
    var role := if m.role == "assistant" then "model" else m.role;
    if role == "" then Some([])
    else if role == "user" then Some([Turn("user", [TextPart(m.content)])])
    else
      var calls := CallsOf(m);
      if !Replayable(calls) then None
      else
        var callTurns := if calls == [] then [] else [Turn("model", CallParts(calls, parse)), Turn("user", ResponseParts(calls))];
        var textTurn := if m.content != "" && !Redundant(m.content, calls) then [Turn("model", [TextPart(m.content)])] else [];
        Some(callTurns + textTurn)
  }

  /** The history a new model session starts from. */
  function ReplayHistory(history: seq<Message>, parse: string -> Option<map<string, string>>): Option<seq<Turn>>
    decreases |history|
  {
    if history == [] then Some([])
    else
      var prev := ReplayHistory(history[..|history| - 1], parse);
      var last := ReplayMessage(history[|history| - 1], parse);
      if prev.None? || last.None? then None else Some(prev.value + last.value)
  }

  /** The `for msg in history` loop building `gemini_history`. */
  method Replay(history: seq<Message>, parse: string -> Option<map<string, string>>) returns (turns: Option<seq<Turn>>)
    ensures turns == ReplayHistory(history, parse)
  {
    var acc: seq<Turn> := [];
    for i := 0 to |history|
      invariant ReplayHistory(history[..i], parse) == Some(acc)
    {
      assert history[..i + 1][..i] == history[..i];
      var next := ReplayMessage(history[i], parse);
      if next.None? {
        ReplayFailureSticks(history, i + 1, parse);
        return None;
      }
      acc := acc + next.value;
    }
    assert history[..|history|] == history;
    return Some(acc);
  }

  /** Once a prefix fails to replay, the whole history does. */
  lemma {:induction false} ReplayFailureSticks(history: seq<Message>, n: nat, parse: string -> Option<map<string, string>>)
    requires n <= |history|
    requires ReplayHistory(history[..n], parse).None?
    ensures ReplayHistory(history, parse).None?
    decreases |history| - n
  {
    if n < |history| {
      assert history[..n + 1][..n] == history[..n];
      ReplayFailureSticks(history, n + 1, parse);
    } else {
      assert history[..n] == history;
    }
  }

  /** A user message becomes one user turn; an assistant message with n tool
      calls becomes a model turn of n function calls followed by a user turn of
      n function responses, pairwise with the same names, then its text as a
      model turn unless it is empty or merely repeats the first status line;
      a message without a role is skipped. */
  lemma ReplayMessageShape(m: Message, parse: string -> Option<map<string, string>>)
    ensures m.role == "" ==> ReplayMessage(m, parse) == Some([])
    ensures m.role == "user" ==> ReplayMessage(m, parse) == Some([Turn("user", [TextPart(m.content)])])
    ensures m.role !in {"", "user"} ==> (ReplayMessage(m, parse).Some? <==> Replayable(CallsOf(m)))
    ensures m.role !in {"", "user"} && ReplayMessage(m, parse).Some? ==>
      var turns := ReplayMessage(m, parse).value;
      var calls := CallsOf(m);
      var n := if calls == [] then 0 else 2;
      && |turns| == n + (if m.content != "" && !Redundant(m.content, calls) then 1 else 0)
      && (calls != [] ==>
            turns[0].role == "model" && turns[1].role == "user"
            && |turns[0].parts| == |calls| == |turns[1].parts|
            && forall i :: 0 <= i < |calls| ==>
                 turns[0].parts[i].CallPart? && turns[1].parts[i].ResponsePart?
                 && turns[0].parts[i].name == turns[1].parts[i].name == calls[i].name.value)
      && (|turns| > n ==> turns[n] == Turn("model", [TextPart(m.content)]))
  {
  }

  /** Appending a user message to a replayable history appends exactly one user turn. */
  lemma ReplayUserAppended(history: seq<Message>, text: string, parse: string -> Option<map<string, string>>)
    requires ReplayHistory(history, parse).Some?
    ensures ReplayHistory(history + [UserMessage(text)], parse)
      == Some(ReplayHistory(history, parse).value + [Turn("user", [TextPart(text)])])
  {
    var h := history + [UserMessage(text)];
    assert h[..|h| - 1] == history;
  }

  // ---------------------------------------------------------------------
  // The tool loop of one chat turn

  /** What the tool loop did: the last submission's result, the executed tool
      calls, the events yielded, the function responses submitted (one list
      per batch) and every wait slept. */
  datatype Exchange = Exchange(final: SendResult, records: seq<ToolRecord>, events: seq<Event>,
                               outputs: seq<seq<Part>>, waits: seq<nat>)

  /** The loop from a submission result `r`, the next attempt being script entry `pos`. */
  function Rounds(script: seq<Outcome>, pos: nat, r: SendResult, repoPath: string,
                  execute: (string, map<string, string>) -> ToolOutcome): Exchange
    requires r.Sent? ==> pos <= |script|
    decreases if r.Sent? then |script| + 1 - pos else 0
  {
    if !r.Sent? || FunctionCalls(r.response.parts) == [] then Exchange(r, [], [], [], [])
    else
      var calls := FunctionCalls(r.response.parts);
      var next := Retry(script, pos, MaxRetries, 0);
      RetrySentWithin(script, pos);
      var rest := Rounds(script, pos + |next.waits| + 1, next.result, repoPath, execute);
      Exchange(rest.final,
               BatchRecords(calls, repoPath, execute) + rest.records,
               BatchEvents(calls, repoPath, execute) + [Processing] + rest.events,
               [BatchOutputs(calls, repoPath, execute)] + rest.outputs,
               next.waits + rest.waits)
  }

  /** One round of the loop: the batch, the processing event, the next submission. */
  lemma RoundsUnfold(script: seq<Outcome>, pos: nat, r: SendResult, repoPath: string,
                     execute: (string, map<string, string>) -> ToolOutcome, calls: seq<FunctionCall>, next: Retried)
    requires r.Sent? && pos <= |script| && calls == FunctionCalls(r.response.parts) && calls != []
    requires next == Retry(script, pos, MaxRetries, 0)
    ensures next.result.Sent? ==> pos + |next.waits| + 1 <= |script|
    ensures Rounds(script, pos, r, repoPath, execute)
         == After(BatchRecords(calls, repoPath, execute), BatchEvents(calls, repoPath, execute) + [Processing],
                  [BatchOutputs(calls, repoPath, execute)], next.waits,
                  Rounds(script, pos + |next.waits| + 1, next.result, repoPath, execute))
  {
    RetrySentWithin(script, pos);
  }

  /** `x` with the effects of earlier rounds in front. */
  function After(records: seq<ToolRecord>, events: seq<Event>, outputs: seq<seq<Part>>, waits: seq<nat>, x: Exchange): Exchange {
    Exchange(x.final, records + x.records, events + x.events, outputs + x.outputs, waits + x.waits)
  }

  /** The `while True` loop of `chat_fn`: run the requested tools, submit their
      outputs, until a reply asks for no tool or a submission fails. */
  method ToolLoop(script: seq<Outcome>, pos0: nat, r0: SendResult, repoPath: string,
                  execute: (string, map<string, string>) -> ToolOutcome) returns (x: Exchange)
    requires r0.Sent? ==> pos0 <= |script|
    ensures x == Rounds(script, pos0, r0, repoPath, execute)
  {
    ghost var goal := Rounds(script, pos0, r0, repoPath, execute);
    var pos: nat, r := pos0, r0;
    x := Exchange(r0, [], [], [], []);
    ThenStart(x, goal);
    while r.Sent? && FunctionCalls(r.response.parts) != []
      invariant r.Sent? ==> pos <= |script|
      invariant x.final == r
      invariant goal == Then(x, Rounds(script, pos, r, repoPath, execute))
      decreases if r.Sent? then |script| + 1 - pos else 0
    {
      x, pos, r := ToolRound(script, pos, r, repoPath, execute, goal, x);
    }
    ThenNothing(x, Rounds(script, pos, r, repoPath, execute));
  }

  /** The loop ends on a failed submission or a reply without function calls. */
  lemma RoundsStop(script: seq<Outcome>, pos: nat, r: SendResult, repoPath: string,
                   execute: (string, map<string, string>) -> ToolOutcome,
                   records: seq<ToolRecord>, events: seq<Event>, outputs: seq<seq<Part>>, waits: seq<nat>)
    requires r.Sent? ==> pos <= |script|
    requires !r.Sent? || FunctionCalls(r.response.parts) == []
    ensures After(records, events, outputs, waits, Rounds(script, pos, r, repoPath, execute))
         == Exchange(r, records, events, outputs, waits)
  {
    assert events + [] == events && records + [] == records && outputs + [] == outputs && waits + [] == waits;
  }

  /** One pass of the loop body: run the batch, then submit its outputs. */
  method ToolRound(script: seq<Outcome>, pos: nat, r: SendResult, repoPath: string,
                   execute: (string, map<string, string>) -> ToolOutcome, ghost goal: Exchange, x: Exchange)
    returns (x': Exchange, pos': nat, r': SendResult)
    requires r.Sent? && pos <= |script| && FunctionCalls(r.response.parts) != []
    requires goal == Then(x, Rounds(script, pos, r, repoPath, execute))
    ensures r'.Sent? ==> pos < pos' <= |script|
    ensures x'.final == r'
    ensures goal == Then(x', Rounds(script, pos', r', repoPath, execute))
  {
    var calls := FunctionCalls(r.response.parts);
    var recs, outs, events := RunBatch(calls, repoPath, execute);
    var next := SendMessageWithRetry(script, pos, MaxRetries);
    RoundsUnfold(script, pos, r, repoPath, execute, calls, next);
    var round := Exchange(next.result, recs, events + [Processing], [outs], next.waits);
    pos', r' := pos + |next.waits| + 1, next.result;
    ThenThen(goal, x, Rounds(script, pos, r, repoPath, execute), round, Rounds(script, pos', r', repoPath, execute));
    x' := Then(x, round);
  }

  /** `x`'s records, events, outputs and waits followed by `y`'s, ending as `y` ends. */
  function Then(x: Exchange, y: Exchange): Exchange {
    After(x.records, x.events, x.outputs, x.waits, y)
  }

  /** Appending a round, then the rest, is appending both. */
  lemma ThenThen(goal: Exchange, x: Exchange, here: Exchange, round: Exchange, rest: Exchange)
    requires goal == Then(x, here) && here == Then(round, rest)
    ensures goal == Then(Then(x, round), rest)
  {
    assert x.records + (round.records + rest.records) == (x.records + round.records) + rest.records;
    assert x.events + (round.events + rest.events) == (x.events + round.events) + rest.events;
    assert x.outputs + (round.outputs + rest.outputs) == (x.outputs + round.outputs) + rest.outputs;
    assert x.waits + (round.waits + rest.waits) == (x.waits + round.waits) + rest.waits;
  }

  /** Nothing accumulated yet. */
  lemma ThenStart(x: Exchange, y: Exchange)
    requires x.records == [] && x.events == [] && x.outputs == [] && x.waits == []
    ensures Then(x, y) == y
  {
    assert [] + y.records == y.records && [] + y.events == y.events;
    assert [] + y.outputs == y.outputs && [] + y.waits == y.waits;
  }

  /** Nothing left to run. */
  lemma ThenNothing(x: Exchange, y: Exchange)
    requires y.records == [] && y.events == [] && y.outputs == [] && y.waits == []
    ensures Then(x, y) == Exchange(y.final, x.records, x.events, x.outputs, x.waits)
  {
    assert x.records + [] == x.records && x.events + [] == x.events;
    assert x.outputs + [] == x.outputs && x.waits + [] == x.waits;
  }

  function Flatten<T>(xss: seq<seq<T>>): seq<T>
    decreases |xss|
  {
    if xss == [] then [] else xss[0] + Flatten(xss[1..])
  }

  /** The function response a record stands for. */
  function ResponseOf(r: ToolRecord): Part {
    ResponsePart(RecordName(r), r.result.GetOr(""))
  }

  function Responses(records: seq<ToolRecord>): (parts: seq<Part>)
    ensures |parts| == |records|
  {
    seq(|records|, i requires 0 <= i < |records| => ResponseOf(records[i]))
  }

  /** Over the whole loop, the function responses submitted are exactly the
      recorded tool calls, one each and in the same order; every record has its
      name and result; and the loop ends on a failure or on a reply that asks
      for no tool. */
  lemma {:induction false} RoundsAligned(script: seq<Outcome>, pos: nat, r: SendResult, repoPath: string,
                                         execute: (string, map<string, string>) -> ToolOutcome)
    requires r.Sent? ==> pos <= |script|
    ensures Aligned(Rounds(script, pos, r, repoPath, execute))
    decreases if r.Sent? then |script| + 1 - pos else 0
  {
    if r.Sent? && FunctionCalls(r.response.parts) != [] {
      var calls := FunctionCalls(r.response.parts);
      var next := Retry(script, pos, MaxRetries, 0);
      RoundsUnfold(script, pos, r, repoPath, execute, calls, next);
      RoundsAligned(script, pos + |next.waits| + 1, next.result, repoPath, execute);
      BatchResponses(calls, repoPath, execute);
      AlignedAfter(BatchRecords(calls, repoPath, execute), BatchEvents(calls, repoPath, execute) + [Processing],
                   BatchOutputs(calls, repoPath, execute), next.waits,
                   Rounds(script, pos + |next.waits| + 1, next.result, repoPath, execute));
    }
  }

  /** Every stored record has a name and a result, the responses sent are
      exactly the records' responses, and the final reply asks for no tool. */
  ghost predicate Aligned(x: Exchange) {
    && Flatten(x.outputs) == Responses(x.records)
    && (forall i :: 0 <= i < |x.records| ==> x.records[i].name.Some? && x.records[i].result.Some?)
    && (x.final.Sent? ==> FunctionCalls(x.final.response.parts) == [])
  }

  /** A batch whose responses match its records keeps the rounds after it aligned. */
  lemma AlignedAfter(recs: seq<ToolRecord>, evs: seq<Event>, outs: seq<Part>, waits: seq<nat>, rest: Exchange)
    requires outs == Responses(recs)
    requires forall i :: 0 <= i < |recs| ==> recs[i].name.Some? && recs[i].result.Some?
    requires Aligned(rest)
    ensures Aligned(After(recs, evs, [outs], waits, rest))
  {
    var x := After(recs, evs, [outs], waits, rest);
    FlattenCons(outs, rest.outputs);
    ResponsesAppend(recs, rest.records);
    forall i | 0 <= i < |x.records|
      ensures x.records[i].name.Some? && x.records[i].result.Some?
    {
      if i >= |recs| {
        assert x.records[i] == rest.records[i - |recs|];
      }
    }
  }

  lemma BatchResponses(calls: seq<FunctionCall>, repoPath: string, execute: (string, map<string, string>) -> ToolOutcome)
    ensures BatchOutputs(calls, repoPath, execute) == Responses(BatchRecords(calls, repoPath, execute))
    ensures forall i :: 0 <= i < |calls| ==>
      BatchRecords(calls, repoPath, execute)[i].name.Some? && BatchRecords(calls, repoPath, execute)[i].result.Some?
  {
  }

  lemma FlattenCons<T>(xs: seq<T>, xss: seq<seq<T>>)
    ensures Flatten([xs] + xss) == xs + Flatten(xss)
  {
    assert ([xs] + xss)[1..] == xss;
  }

  lemma ResponsesAppend(a: seq<ToolRecord>, b: seq<ToolRecord>)
    ensures Responses(a + b) == Responses(a) + Responses(b)
  {
  }

  // ---------------------------------------------------------------------
  // One chat turn

  /** The row stored for an exchange. */
  datatype Saved = Saved(conversationId: string, query: string, response: string, repoPath: string, toolCalls: seq<ToolRecord>)

  /** How the model session was obtained: the existing one, or a new one
      created with the replayed history. */
  datatype SessionUse = Reused | CreatedWith(history: seq<Turn>)

  /** What one call of `chat_fn` did. */
  datatype ChatRun =
      /** `get_or_create_store` raised: one error event, nothing else. */
    | StoreFailed(error: string)
      /** A stored tool call lacked its name or result: the `KeyError` escapes before any event. */
    | ReplayFailed(conversationId: string, newConversation: bool)
    | Answered(events: seq<Event>, conversationId: string, newConversation: bool,
               session: SessionUse, exchange: Exchange, saved: Option<Saved>)
  {
    /** The events yielded, in order. */
    function Yielded(): seq<Event> {
      match this
      case StoreFailed(error) => [Reply("Error connecting to store: " + error)]
      case ReplayFailed(_, _) => []
      case Answered(events, _, _, _, _, _) => events
    }
  }

  const QuotaMessage := WarnMarker + " **High Traffic / Quota Exceeded**\n\n"
    + "The AI model is currently busy or the context is too large (429 Resource Exhausted).\n"
    + "Please wait about a minute and try again. If the problem persists, try clearing the chat history."

  const NoText := "(No response text generated by the model.)"

  /** The message yielded when a submission fails with text `error`. */
  function ErrorMessage(error: string): string {
    if RateLimited(error) then QuotaMessage
    else "I'm sorry, but I encountered an error: " + error + ". Please try again."
  }

  /** `str(e)` of what ended the loop when no reply came back: a raised
      failure, or the `AttributeError` of reading a `None` response. */
  function FailureText(r: SendResult): string {
    match r
    case Raised(f) => f.text
    case _ => "'NoneType' object has no attribute 'candidates'"
  }

  /** The text of the final reply followed by its citation block. */
  function AnswerText(resp: Response): string {
    ReplyText(resp.parts) + Citations(resp.titles)
  }

  /** The events after the tool loop, and the row stored. */
  function Finish(x: Exchange, message: string, conversationId: string, repoPath: string): (seq<Event>, Option<Saved>) {
    if !x.final.Sent? then (x.events + [Reply(ErrorMessage(FailureText(x.final)))], None)
    else
      var resp := x.final.response;
      var text := AnswerText(resp);
      var found := if resp.titles == [] then [] else [SourcesFound(|Elements(resp.titles)|)];
      var saved := if message != "" && (text != "" || x.records != []) && conversationId != ""
        then Some(Saved(conversationId, message, text, repoPath, x.records)) else None;
      (x.events + found + [Reply(if text == "" then NoText else text)], saved)
  }

  /** The submission of the message and the tool loop after it. */
  function Converse(script: seq<Outcome>, repoPath: string, execute: (string, map<string, string>) -> ToolOutcome): Exchange {
    var first := Retry(script, 0, MaxRetries, 0);
    RetrySentWithin(script, 0);
    After([], [], [], first.waits, Rounds(script, |first.waits| + 1, first.result, repoPath, execute))
  }

  method RunConversation(script: seq<Outcome>, repoPath: string, execute: (string, map<string, string>) -> ToolOutcome)
    returns (y: Exchange)
    ensures y == Converse(script, repoPath, execute)
  {
    var first := SendMessageWithRetry(script, 0, MaxRetries);
    RetrySentWithin(script, 0);
    var x := ToolLoop(script, |first.waits| + 1, first.result, repoPath, execute);
    y := After([], [], [], first.waits, x);
  }

  /** `chat_fn(message, history, chat_session, conversation_id_state, client, repo_path, ...)`.
      `hasSession` is the truthiness of `chat_session`; `stamp` the timestamp a
      new conversation id is made of; `storeError` what `get_or_create_store`
      raised, if anything. */
  function Chat(message: string, history: seq<Message>, hasSession: bool, conversationId: string, stamp: string,
                repoPath: string, storeError: Option<string>, parse: string -> Option<map<string, string>>,
                script: seq<Outcome>, execute: (string, map<string, string>) -> ToolOutcome): ChatRun
  {
    if storeError.Some? then StoreFailed(storeError.value)
    else
      var newConversation := conversationId == "";
      var id := if newConversation then "conv_" + stamp else conversationId;
      var replayed := if hasSession then Some([]) else ReplayHistory(history, parse);
      if replayed.None? then ReplayFailed(id, newConversation)
      else
        var session := if hasSession then Reused else CreatedWith(replayed.value);
        var y := Converse(script, repoPath, execute);
        var (events, saved) := Finish(y, message, id, repoPath);
        Answered(events, id, newConversation, session, y, saved)
  }

  method ChatFn(message: string, history: seq<Message>, hasSession: bool, conversationId: string, stamp: string,
                repoPath: string, storeError: Option<string>, parse: string -> Option<map<string, string>>,
                script: seq<Outcome>, execute: (string, map<string, string>) -> ToolOutcome) returns (run: ChatRun)
    ensures run == Chat(message, history, hasSession, conversationId, stamp, repoPath, storeError, parse, script, execute)
  {
    if storeError.Some? {
      return StoreFailed(storeError.value);
    }
    var newConversation := false;
    var id := conversationId;
    if id == "" {
      newConversation := true;
      id := "conv_" + stamp;
    }
    var session := Reused;
    if !hasSession {
      var turns := Replay(history, parse);
      if turns.None? {
        return ReplayFailed(id, newConversation);
      }
      session := CreatedWith(turns.value);
    }
    var y := RunConversation(script, repoPath, execute);
    var events, saved := FinishTurn(y, message, id, repoPath);
    return Answered(events, id, newConversation, session, y, saved);
  }

  /** The part of `chat_fn` after the tool loop: the error reply, or the reply
      text with its citations, the stored row and the final yield. */
  method FinishTurn(x: Exchange, message: string, conversationId: string, repoPath: string)
    returns (events: seq<Event>, saved: Option<Saved>)
    ensures (events, saved) == Finish(x, message, conversationId, repoPath)
  {
    if !x.final.Sent? {
      return x.events + [Reply(ErrorMessage(FailureText(x.final)))], None;
    }
    var resp := x.final.response;
    var text := ReplyText(resp.parts);
    var found: seq<Event> := [];
    if resp.titles != [] {
      found := [SourcesFound(|Elements(resp.titles)|)];
      text := text + Citations(resp.titles);
    } else {
      assert text + Citations(resp.titles) == text;
    }
    assert text == AnswerText(resp);
    saved := None;
    if message != "" && (text != "" || x.records != []) && conversationId != "" {
      saved := Some(Saved(conversationId, message, text, repoPath, x.records));
    }
    if text == "" {
      text := NoText;
    }
    events := x.events + found + [Reply(text)];
  }

  /** A new conversation id is made exactly when none was given; the store
      failure reports the conversation as not new. */
  lemma ChatConversationId(message: string, history: seq<Message>, hasSession: bool, conversationId: string, stamp: string,
                           repoPath: string, storeError: Option<string>, parse: string -> Option<map<string, string>>,
                           script: seq<Outcome>, execute: (string, map<string, string>) -> ToolOutcome)
    ensures var run := Chat(message, history, hasSession, conversationId, stamp, repoPath, storeError, parse, script, execute);
      !run.StoreFailed? ==>
        && (run.newConversation <==> conversationId == "")
        && run.conversationId == (if conversationId == "" then "conv_" + stamp else conversationId)
        && run.conversationId != ""
  {
  }

  /** The exchange is stored exactly when the message is non-empty and the
      reply has text or at least one tool ran; a failed submission yields the
      error text (the quota notice when it mentions 429 or RESOURCE_EXHAUSTED)
      and stores nothing; the last event is the answer. */
  lemma ChatPersistence(message: string, history: seq<Message>, hasSession: bool, conversationId: string, stamp: string,
                        repoPath: string, storeError: Option<string>, parse: string -> Option<map<string, string>>,
                        script: seq<Outcome>, execute: (string, map<string, string>) -> ToolOutcome)
    ensures var run := Chat(message, history, hasSession, conversationId, stamp, repoPath, storeError, parse, script, execute);
      run.Answered? ==>
        var x := run.exchange;
        && (x.final.Sent? ==>
              var text := AnswerText(x.final.response);
              && (run.saved.Some? <==> message != "" && (text != "" || x.records != []))
              && (run.saved.Some? ==> run.saved.value == Saved(run.conversationId, message, text, repoPath, x.records))
              && run.events[|run.events| - 1] == Reply(if text == "" then NoText else text))
        && (!x.final.Sent? ==>
              && run.saved.None?
              && run.events[|run.events| - 1] == Reply(ErrorMessage(FailureText(x.final)))
              && (RateLimited(FailureText(x.final)) ==> run.events[|run.events| - 1] == Reply(QuotaMessage)))
  {
    var run := Chat(message, history, hasSession, conversationId, stamp, repoPath, storeError, parse, script, execute);
    if run.Answered? {
      assert run.conversationId != "";
      FinishPersistence(run.exchange, message, run.conversationId, repoPath);
    }
  }

  /** What `Finish` stores and yields last, for a conversation that has an id. */
  lemma FinishPersistence(x: Exchange, message: string, conversationId: string, repoPath: string)
    requires conversationId != ""
    ensures var (events, saved) := Finish(x, message, conversationId, repoPath);
      && (x.final.Sent? ==>
            var text := AnswerText(x.final.response);
            && (saved.Some? <==> message != "" && (text != "" || x.records != []))
            && (saved.Some? ==> saved.value == Saved(conversationId, message, text, repoPath, x.records))
            && events[|events| - 1] == Reply(if text == "" then NoText else text))
      && (!x.final.Sent? ==>
            && saved.None?
            && events[|events| - 1] == Reply(ErrorMessage(FailureText(x.final)))
            && (RateLimited(FailureText(x.final)) ==> events[|events| - 1] == Reply(QuotaMessage)))
  {
  }

  /** Without an open session, the new session starts from the replayed history;
      an open session is reused and nothing is replayed. */
  lemma ChatSession(message: string, history: seq<Message>, hasSession: bool, conversationId: string, stamp: string,
                    repoPath: string, storeError: Option<string>, parse: string -> Option<map<string, string>>,
                    script: seq<Outcome>, execute: (string, map<string, string>) -> ToolOutcome)
    requires storeError.None?
    ensures var run := Chat(message, history, hasSession, conversationId, stamp, repoPath, storeError, parse, script, execute);
      && (hasSession ==> run.Answered? && run.session == Reused)
      && (!hasSession ==> (run.ReplayFailed? <==> ReplayHistory(history, parse).None?))
      && (!hasSession && run.Answered? ==> run.session == CreatedWith(ReplayHistory(history, parse).value))
  {
  }
}
