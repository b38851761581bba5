# Aurora, modelled in Dafny

Aurora is a code-impact assistant for a Python repository. It has three parts:

- **Ingest page.** Uploads a repository's files to a Gemini file-search store. It also builds a *knowledge graph* from the repository's `.py` files: file, class and function nodes, plus `imports` and `calls` edges.
- **Agent tools.** The chat model can call these: set the workspace, list files, read a file, search the knowledge graph.
- **Chat pages.** Each turn goes to the model. The model may ask for tools, and their results go back to it. The page shows a status line per tool, appends a citation block, stores the exchange, and can render a conversation as a Markdown report or a Mermaid diagram.

This project models that core in Dafny and proves what the code promises about it.

| file | module | models |
|---|---|---|
| `text.dfy` | `Text` | Python string helpers: `startswith`/`endswith`, `in`, ASCII `lower()`, `strip()`, `join`, integer formatting, `sorted(set(...))` of titles |
| `seqs.dfy` | `Wrappers`, `Seqs` | `Option`, de-duplication, filtering |
| `file_tree.dfy` | `FileTree` | POSIX path joining, `basename`, `splitext`, and `os.walk` with `dirs[:]` pruning |
| `knowledge_graph.dfy` | `KnowledgeGraph` | graph records and the edge de-duplication key |
| `python_ast.dfy` | `PythonAst` | the part of Python's syntax tree the analyzer visits |
| `ingest.py` → `ingest.dfy` | `Ingest` | `CodeAnalyzer`, `build_knowledge_graph`, the upload filter and MIME fallback of `ingest_files`, and `view_knowledge_graph` |
| `store_utils.dfy` | `StoreUtils` | `get_store_name`, `get_or_create_store` |
| `tools.dfy` | `Tools` | the workspace, the graph path, the repository list, `list_files`, `read_file`, `search_knowledge_graph`, the tool declarations |
| `transcript.dfy` | `Transcript` | stored rows, chat-window messages, model turns, the sidebar label, the citation block |
| `chat_engine.dfy` | `ChatEngine` | the retry loop, the tool dispatch, history replay, the tool loop, and the `chat_fn` generator |
| `report.dfy` | `Report` | `generate_report` |
| `visualization.dfy` | `Visualization` | `generate_visualization` |
| `chat_tab.dfy` | `ChatTab` | the chat tab: the controls, loading a conversation, and the streaming `chat_wrapper` |
| `legacy_chat.dfy` | `LegacyChat` | the earlier chat page in `chat.py` |

Each part takes the form the source has:

- **Classes.** State the source mutates in place is a class:
  - `CodeAnalyzer` with its node, edge and scope lists;
  - the build log;
  - the workspace global;
  - the repository file;
  - the chat window's message list, with the wrapper's pending-tool index and final text.
- **Methods with loops.** Each source loop is a method proved against a specification function. These include the retry loop, the tool loop, history replay, report writing, subgraph extraction and grouping, loading a conversation, and the wrapper's event loop.
- **Functions and lemmas.** Pure computations are functions, and lemmas state their properties.

Everything outside the program is a parameter:

- the model's replies are a finite script of outcomes;
- a tool run is a function from name and arguments to a result or an exception;
- other parameters stand for the store lookup, the file system (a map of files and directory trees), JSON, MD5 and `abspath`, and the timestamp.

The chat engine's status markers are modelled exactly as `core/chat_engine.py` spells them. The file holds UTF-8 emoji decoded as Windows-1252, for example `ðŸ› ï¸` where `🛠️` was meant (see Findings).

## Model

| member | source | states |
|---|---|---|
| StoreUtils.StoreName | core/store_utils.py:3-10 | every store name carries the "Aurora Store - " prefix; an empty or "." path names the shared "Aurora Store - Current" store |
| StoreUtils.StoreNameByFolder | core/store_utils.py:9-10 | two non-current paths map to the same store exactly when their absolute paths end in the same folder name |
| StoreUtils.CurrentFolderSharesStore | core/store_utils.py:5-10 | a repository in a folder named "Current" shares the working directory's store |
| StoreUtils.GetOrCreateStore | core/store_utils.py:12-29 | a store is created exactly when no listed store has the display name; otherwise the first listed match is returned |
| Tools.Workspace.SetWorkspacePath | core/tools.py:12-23 | an empty or missing path leaves the workspace unchanged and returns the matching error; an existing path becomes the workspace and is confirmed |
| Tools.GraphPath | core/tools.py:27-44 | there is no graph path exactly when the repository path is empty |
| Tools.GraphPathsDistinct | core/tools.py:36-44 | the graph file is named `graph_<md5>.json`, and repositories with different digests get different files |
| Tools.RepositoryFile.AddRepository | core/tools.py:54-64 | succeeds exactly when the path exists; appends it only when it is not yet listed; keeps the list free of duplicates and containing the path |
| Tools.ListedFoundMembers | core/tools.py:83-89 | the listing holds exactly the non-hidden files below non-hidden, non-ignored directories |
| Tools.ListingOutputBounded | core/tools.py:91-96 | the output is the JSON list when it is at most 50000 characters, and otherwise the "File list is too long" error naming its length |
| Tools.Workspace.ListFiles | core/tools.py:66-98 | a config.yaml that fails to load gives "Error listing files: " and its error; otherwise lists the argument directory, or the workspace when the argument is empty, skipping the directories the config names (none without a config), and serialises the listing with the size check |
| Tools.Workspace.Resolve | core/tools.py:106-110 | an absolute path is kept; a relative one is joined to the workspace |
| Tools.Workspace.ReadFile | core/tools.py:100-123 | an existing regular file is returned verbatim; a missing path gives "does not exist"; a directory gives the read error |
| Tools.SearchResultsExact | core/tools.py:142-151 | the results are exactly the nodes whose id or file, and the edges whose source or target, contain the query, after both are lower-cased letter by letter for `A`-`Z` only, in graph order |
| Tools.SearchFindsNodeById | core/tools.py:145-147 | searching for a node's own id finds that node |
| Tools.SearchGraph | core/tools.py:142-151 | the two filtering loops compute the matching nodes and edges |
| Tools.Workspace.SearchKnowledgeGraph | core/tools.py:125-156 | searches the graph of the argument repository, or of the workspace, with the not-found and read errors |
| Tools.SearchReadsSavedGraph | core/tools.py:133-153 | after a graph is written for a repository, searching that repository reads back the same graph |
| Tools.ToolDefinitions | core/tools.py:158-222 | four declarations, each of whose required arguments is a declared property |
| Tools.DeclarationsMatchSignatures | core/tools.py:158-222 | each declaration lists exactly its Python function's parameters and requires exactly those without a default; names are distinct |
| Ingest.CodeAnalyzer.Visit | core/ingest.py:104-143 | visiting a tree appends exactly its nodes and edges and restores the scope |
| Ingest.CodeAnalyzer.VisitDefinition | core/ingest.py:115-127 | a `def` or `class` adds its node, then visits its body with itself as the scope |
| Ingest.CodeAnalyzer.VisitImport | core/ingest.py:129-132 | one `imports` edge from the file per imported name |
| Ingest.CodeAnalyzer.VisitImportFrom | core/ingest.py:134-137 | an `imports` edge from the file to the module, when there is one |
| Ingest.CodeAnalyzer.VisitCall | core/ingest.py:139-143 | a call of a plain name adds a `calls` edge from the current scope, then visits the callee and arguments |
| Ingest.CodeAnalyzer.GenericVisit | core/ingest.py:119 | the children are visited in order |
| Ingest.TreeOutput | core/ingest.py:104-143 | nodes are functions and classes of the file; `imports` edges start at the file; `calls` edges start at the scope or at a definition inside the tree |
| Ingest.ForestOutput | core/ingest.py:104-143 | the same, over a sequence of trees |
| Ingest.ImportEdges | core/ingest.py:129-131 | one edge per name, in order, from the file |
| Ingest.CallUnfolds | core/ingest.py:139-143 | a call's output is its own edge, then the callee's and the arguments' output |
| Ingest.ExampleTrees | core/ingest.py:104-143 | `def foo(): bar()` gives the node `foo` and the edge `foo → bar`; `import a` gives the edge `b.py → a` |
| Ingest.TwoFileExample | core/ingest.py:146-215 | a two-file build gives the expected three nodes and two edges |
| Ingest.AddNodesUnique | core/ingest.py:194-207 | no two merged nodes share an id |
| Ingest.AddNodesFirst | core/ingest.py:194-207 | each merged node is the first one offered with its id |
| Ingest.AddNodesIds | core/ingest.py:194-207 | `existing_node_ids` is exactly the ids of the merged nodes and of the nodes offered |
| Ingest.AnalyzeFilesNodes | core/ingest.py:182-211 | the per-file loop merges exactly the file nodes and analyzer nodes offered, in order |
| Ingest.BuiltGraphProperties | core/ingest.py:179-215 | the built graph has unique ids, covers every id offered with its first node, and drops exactly the repeated edges |
| Ingest.AnalyzedEdgesPlain | core/ingest.py:204-208 | edge targets from Python names contain no '-' |
| KnowledgeGraph.EdgeKeyInjective | core/ingest.py:214 | two edges with plain targets share the `source-target-type` key only when they are equal |
| KnowledgeGraph.DedupKeys | core/ingest.py:213-215 | the de-duplicated edges have each key once, in first-occurrence order |
| KnowledgeGraph.DedupIsDistinct | core/ingest.py:213-215 | with plain targets, the dictionary keeps each distinct edge once, in first-occurrence order |
| KnowledgeGraph.DedupEdgesSound | core/ingest.py:213-215 | with plain targets, the result has no duplicates and the same edges |
| Ingest.CumulativeAt | core/ingest.py:151-154 | progress update `i` is the first `i + 1` messages joined by newlines |
| Ingest.CumulativeGrows | core/ingest.py:151-154 | each progress update extends every earlier one |
| Ingest.ProgressLog.Log | core/ingest.py:152-154 | appends the message and yields the joined log, keeping the updates cumulative |
| Ingest.AnalyzeEntry | core/ingest.py:182-211 | one file: logged, skipped when blank, its file node added, and the analyzer's output merged when it parses |
| Ingest.MergeNodes | core/ingest.py:204-207 | the merge loop adds each node whose id is new |
| Ingest.AnalyzeAll | core/ingest.py:182-211 | the file loop computes the graph so far and the log |
| Ingest.AnalyzeNext | core/ingest.py:182-211 | one turn of the file loop extends the graph and the log of the files analyzed before it by the next file |
| Ingest.BuildKnowledgeGraph | core/ingest.py:146-228 | the guards, scan, analysis, edge de-duplication and save produce the specified log and files; the updates are cumulative |
| Ingest.BuildInto | core/ingest.py:156-228 | an empty or missing directory logs the invalid-directory message and leaves the files as they were; otherwise the builder appends the specified log and returns the specified files, keeping the updates cumulative |
| Ingest.ScanAndBuild | core/ingest.py:160-228 | for an existing directory: the scanning message, the Python files the pruned walk keeps, then the log and files that follow from them |
| Ingest.BuildFound | core/ingest.py:174-228 | no Python files logs only the notice and writes nothing; otherwise the file count, then the analysis and save, with the files written as specified |
| Ingest.InvalidBuildOutcome | core/ingest.py:156-158 | a missing directory or an empty path logs only the error and writes nothing |
| Ingest.AnalyzeAndSave | core/ingest.py:179-228 | after the file count: the per-file log, then the deduplicated graph saved to its path with the success message, or the save error logged, with the file at that path kept when opening it failed and left truncated to what was written when the dump failed |
| Ingest.SaveOutcome | core/ingest.py:222-228 | the save changes only the graph's own path and adds one message, the success notice exactly when nothing failed; a failed open keeps the earlier file, a failed dump leaves the partial text |
| Ingest.BuiltGraphIsSearchable | core/ingest.py:223-226 | a graph saved by the builder is what the search tool reads for that repository |
| FileTree.WalkMembers | core/ingest.py:164-172 | the walk yields exactly the files below unpruned directories that the file filter keeps |
| FileTree.Collect | core/ingest.py:164-172 | the recursive walk computes the specified walk |
| FileTree.CollectFiles | core/ingest.py:166-172 | one directory's kept files, in listing order |
| Ingest.UploadCandidatesMembers | core/ingest.py:41-51 | the uploaded files are exactly those outside ignored directories that are not hidden or ignored and have an allowed extension, if any are given |
| Ingest.MimeType | core/ingest.py:72-79 | an unmapped extension falls back to `text/plain` |
| Ingest.MimeTypeLookup | core/ingest.py:72-79 | a mapped extension, lower-cased for `A`-`Z`, gives its MIME type; a dot-file has no extension |
| FileTree.Extension | core/ingest.py:73 | the extension is empty or starts at the last '.' and ends the name |
| Ingest.ViewKnowledgeGraph | core/ingest.py:231-252 | the graph is shown exactly when a repository is selected and its graph file exists and parses |
| Ingest.ViewAfterBuild | core/ingest.py:231-252 | after a build, viewing shows the built graph with the success message |
| Text.StripEmptyIffBlank | core/ingest.py:189 | `content.strip()` is empty exactly when the content is whitespace |
| ChatEngine.SendMessageWithRetry | core/chat_engine.py:22-35 | the retry loop computes the specified attempts |
| ChatEngine.RetryFacts | core/chat_engine.py:22-35 | at most `max_retries` attempts; wait k is (k+1)*10 s after a rate-limited client error that was not the last attempt; a reply ends the attempts; any other error is raised at once |
| ChatEngine.DefaultRetryWaits | core/chat_engine.py:22-35 | with three retries the waits are none, 10, or 10 then 20 seconds, and `None` is never returned |
| ChatEngine.InjectArgs | core/chat_engine.py:537-551 | the search always gets the session's repository; `list_files` and `set_workspace_path` get it only in place of a missing or empty argument; other arguments are kept |
| Transcript.ArgDesc | core/chat_engine.py:511-527 | a status detail exists exactly for `read_file`, `search_knowledge_graph` and `list_files` |
| ChatEngine.RunCall | core/chat_engine.py:503-569 | each call is recorded with its name and a result, answered with a function response of that result, and announced first |
| ChatEngine.RunCallOutcomes | core/chat_engine.py:503-569 | an unknown tool records the not-available error; a known one records the injected arguments and its result, or the executing error and a failure event |
| ChatEngine.RunBatch | core/chat_engine.py:503-599 | the loop over the requested calls computes their records, responses and events |
| ChatEngine.BatchAligned | core/chat_engine.py:503-599 | the i-th response answers the i-th call under its name |
| ChatEngine.BatchResponses | core/chat_engine.py:503-599 | the responses sent are exactly those of the records stored |
| ChatEngine.Replay | core/chat_engine.py:313-429 | the replay loop computes the specified history, or the escaping `KeyError` |
| ChatEngine.ReplayMessageShape | core/chat_engine.py:319-429 | user text becomes a user turn; an assistant message with calls becomes a call turn and a response turn, aligned by name, then its text unless that is a status echo |
| ChatEngine.ReplayFailureSticks | core/chat_engine.py:321-429 | a record lacking its name or result makes the whole replay fail |
| ChatEngine.ReplayUserAppended | core/chat_engine.py:345-349 | replaying a history that ends with a user message ends with that message as a user turn |
| ChatEngine.ToolLoop | core/chat_engine.py:481-619 | the `while True` loop computes the specified rounds |
| ChatEngine.ToolRound | core/chat_engine.py:503-606 | one round runs the calls, announces processing and resubmits with retry |
| ChatEngine.RoundsUnfold | core/chat_engine.py:481-606 | a reply that requests tools leads to exactly one more round |
| ChatEngine.RoundsStop | core/chat_engine.py:495-497 | a reply without tool requests, or a failed submission, ends the loop |
| ChatEngine.RoundsAligned | core/chat_engine.py:481-619 | over the whole loop, every stored record has a name and result matching the responses sent; a final reply requests no tool |
| ChatEngine.RunConversation | core/chat_engine.py:477-619 | the first submission with retry, then the tool loop |
| ChatEngine.FinishTurn | core/chat_engine.py:621-693 | the error reply, or the text with citations, the sources event and the stored row |
| ChatEngine.ChatFn | core/chat_engine.py:277-693 | the whole generator computes the specified run |
| ChatEngine.ChatConversationId | core/chat_engine.py:303-311 | a new `conv_<timestamp>` id is made exactly when none is given |
| ChatEngine.ChatPersistence | core/chat_engine.py:621-693 | the exchange is stored exactly when the message is non-empty and a reply text or a tool call exists; a failure stores nothing and yields the error or the quota notice; the last event is the answer |
| ChatEngine.FinishPersistence | core/chat_engine.py:621-693 | after the tool loop, for a conversation with an id: the row is stored exactly when the message is non-empty and a reply text or a tool call exists; the last event is the answer, the placeholder, or the error or quota notice |
| ChatEngine.ChatSession | core/chat_engine.py:313-429 | an open session is reused; otherwise a new one starts from the replayed history, and a failed replay escapes |
| Transcript.CitationsListEachSourceOnce | core/chat_engine.py:645-665 | no block without sources; otherwise it lists each distinct title once in ascending order, whatever their arrival order or repetition |
| Transcript.TitleLabel | ui/chat_tab.py:23-26 | a title over 40 characters is cut to 40 plus "..."; a shorter one is unchanged |
| Transcript.ConversationChoices | ui/chat_tab.py:23-26 | one labelled entry per conversation, in order, valued by its id |
| Transcript.ChoicesKeepConversations | ui/chat_tab.py:23-26 | each entry keeps its id, is at most 43 characters, and starts with the title's first 40 |
| Report.GenerateReport | core/chat_engine.py:148-182 | no report without an id or rows; otherwise the header followed by the sections |
| Report.WriteSections | core/chat_engine.py:162-178 | the row loop computes one section per row, in order |
| Report.SectionsPrefix | core/chat_engine.py:162-178 | the sections of earlier rows start the report body |
| Report.SectionAt | core/chat_engine.py:162-178 | row i's section, headed "### Interaction i+1", follows the sections of the rows before it |
| Report.ToolsLineListsTools | core/chat_engine.py:166-175 | a "Tools used" line appears exactly when the stored JSON decodes to a non-empty list; it starts with its label and names each recorded tool in backticks |
| Report.ToolNames | core/chat_engine.py:172 | one backquoted name per recorded call |
| Report.ReportGuards | core/chat_engine.py:148-160 | no report exactly when the id or the rows are missing; a report starts with its header |
| Visualization.NodeMap | core/chat_engine.py:199 | the map's keys are exactly the node ids |
| Visualization.NodeMapOfUniqueIds | core/chat_engine.py:199 | with unique ids, each id maps to its own node |
| Visualization.MentionInRow | core/chat_engine.py:206-208 | a node id occurring in any stored query or response counts as mentioned |
| Visualization.ExtractSubgraph | core/chat_engine.py:213-228 | the edge scan computes the kept edges and the subgraph's nodes |
| Visualization.SubgraphProperties | core/chat_engine.py:213-228 | with neighbours, the edges touching a mentioned node are kept, else those between two mentioned nodes; the nodes are the mentioned ones plus the kept edges' ends, so every kept edge joins two shown nodes |
| Visualization.Safe | core/chat_engine.py:240-241 | same length, with '.', '-' and ' ' mapped to '_' |
| Visualization.SafeProperties | core/chat_engine.py:240-241 | no '.', '-' or ' ' remains; idempotent; other characters kept; "a.b", "a-b", "a b" and "a_b" collide |
| Visualization.GroupOf | core/chat_engine.py:243-250 | unknown nodes go to "unknown", file nodes to "Files", others to their file |
| Visualization.GroupingPartition | core/chat_engine.py:243-250 | groups are listed once each; every node is in its own group and no other |
| Visualization.MembersOf | core/chat_engine.py:243-250 | a group's members are exactly the nodes in it, without duplicates |
| Visualization.GroupOrderOf | core/chat_engine.py:243-250 | the groups appear once each, in first-visit order |
| Visualization.GroupNodes | core/chat_engine.py:243-250 | the grouping loop computes the group order and members |
| Visualization.Enumerate | core/chat_engine.py:243 | set iteration visits each subgraph node once |
| Visualization.RenderGroup | core/chat_engine.py:252-268 | a group's node lines, inside `subgraph … end` when it is named |
| Visualization.NodeLines | core/chat_engine.py:255-265 | one styled line per node, by kind |
| Visualization.EdgeLines | core/chat_engine.py:270-273 | one labelled arrow per kept edge, in order |
| Visualization.RenderLines | core/chat_engine.py:230-275 | the header, the group blocks in order, then the edges |
| Visualization.GenerateVisualization | core/chat_engine.py:184-275 | a guard's notice or the escaping error; otherwise the diagram of the subgraph in set-iteration order |
| Visualization.PrepareGuards | core/chat_engine.py:184-211 | the guards in source order; a drawn diagram has an id, a repository, rows and mentioned nodes that exist and occur in the text |
| Visualization.DiagramShape | core/chat_engine.py:230-275 | the diagram starts with the header and ends with the edges, showing every node and every named group |
| ChatTab.ControlsUpdate | ui/chat_tab.py:13-21 | all controls follow the flag; the report file shows only when there is one |
| ChatTab.LoadConversation | ui/chat_tab.py:40-88 | the loop re-creates the messages of the stored rows, or the escaping error |
| ChatTab.RowToolLines | ui/chat_tab.py:68-84 | the status lines of one row's stored calls |
| ChatTab.ToolLinesFail | ui/chat_tab.py:69-82 | loading fails exactly when a call whose argument is shown has its arguments stored as a string |
| ChatTab.LoadedShape | ui/chat_tab.py:50-86 | a loaded conversation alternates user queries and assistant messages, each ending with its response and carrying the stored calls |
| ChatTab.LoadViewGuards | ui/chat_tab.py:40-48 | without an id nothing loads and the controls hide; an empty conversation is selected but not set; otherwise the id is set |
| ChatTab.ToolNameBetweenTicks | ui/chat_tab.py:135 | the name between the first two backticks of a status line is extracted |
| ChatTab.Step | ui/chat_tab.py:133-174 | a finished or failed tool adds one message; other texts only replace |
| ChatTab.Steps | ui/chat_tab.py:128-176 | the window grows by one message per finished or failed tool |
| ChatTab.StepKeeps | ui/chat_tab.py:133-174 | no text changes the messages before the placeholder, and a pending index stays past them |
| ChatTab.StepsKeep | ui/chat_tab.py:128-176 | the same over a whole turn |
| ChatTab.FinalTextShown | ui/chat_tab.py:170-174 | a final text becomes the last message and the final text |
| ChatTab.ChatWindow.Open | ui/chat_tab.py:108-109 | shows the user's message and the thinking placeholder |
| ChatTab.ChatWindow.Apply | ui/chat_tab.py:133-174 | one yielded text changes the window as specified |
| ChatTab.ChatWindow.ApplyAll | ui/chat_tab.py:127-174 | the display loop leaves the window the specified fold of the yielded texts |
| ChatTab.ChatWindow.ChatWrapper | ui/chat_tab.py:103-179 | one turn with the corrected hand-off (the engine gets the history before the new message and its status texts are the real emoji): the window, the session, the id and the list refresh end as `Wrap` specifies |
| ChatTab.WrapAsWritten | ui/chat_tab.py:103-179 | the turn as written keeps the earlier window and the user's message in place, and hands the engine the history that already ends with that message |
| ChatTab.WrapperKeepsConversation | ui/chat_tab.py:103-179 | earlier messages and the user's message stay in place; the sidebar refreshes exactly for a new conversation |
| ChatTab.WrapperSessionFromPrior | ui/chat_tab.py:117-119 | the corrected wrapper starts a new session from the history before the message, so the message is sent once |
| ChatTab.SessionRepeatsMessage | ui/chat_tab.py:117-119 | as written, a new session already ends with the user's message, which is then sent again |
| ChatTab.EngineStatusShownAsAnswer | ui/chat_tab.py:133 | as spelled by the engine, every status text is taken as the final answer |
| ChatTab.AsWrittenShowsNoToolMessages | ui/chat_tab.py:128-176 | as written, a turn never shows a tool message and leaves nothing pending |
| ChatTab.IntendedStatusRecognised | ui/chat_tab.py:133-166 | with the intended emoji, tool start, finish, failure and processing are recognised, naming the tool that ran |
| ChatTab.StartedRecognised | ui/chat_tab.py:136-145 | an intended start text opens a pending tool message named after the tool |
| ChatTab.FinishedRecognised | ui/chat_tab.py:146-155 | an intended finish text settles the tool message |
| ChatTab.FailedRecognised | ui/chat_tab.py:156-165 | an intended failure text settles it as an error |
| LegacyChat.Convert | chat.py:132-143 | the conversion loop computes one text turn per message |
| LegacyChat.ConvertKeepsMessages | chat.py:132-143 | each message becomes one turn, in order, with its text; only "assistant" becomes "model" |
| LegacyChat.LegacyChatFn | chat.py:114-192 | the earlier `chat_fn` computes the specified run |
| LegacyChat.LegacyChatOutcomes | chat.py:114-192 | a failed send gives the apology and stores nothing; otherwise the reply is the text plus citations, stored exactly when message and reply are non-empty; a missing text with sources escapes |
| LegacyChat.LegacyLoadConversation | chat.py:195-216 | the loop rebuilds the messages of the stored pairs |
| LegacyChat.PairMessagesShape | chat.py:209-211 | user and assistant messages alternate, one pair per row |
| LegacyChat.LoadedConversationReplays | chat.py:209-216 | a loaded conversation becomes alternating user and model turns with the stored texts |
| LegacyChat.LegacyLoadGuards | chat.py:195-216 | no id means nothing loaded and the delete control hidden; the conversation state is set only with rows |
| LegacyChat.LegacyWindow.ChatWrapper | chat.py:220-240 | appends the user's message, then the reply; the list refreshes exactly for a new conversation |
| LegacyChat.LegacyWrapperSession | chat.py:226-231 | a new session's history already ends with the message being sent |
| LegacyChat.RefreshConversationList | chat.py:246-251 | one entry per conversation, valued by its id |

## Left out

- SQLite storage is left out. Rows loaded from the database are inputs, and rows written are returned values. So are `init_db`, `get_conversations`, `delete_conversation` and `start_new_chat`, which only reach the database or clear widgets.
- The Gemini client is a script of send outcomes. Running out of script counts as a failed submission. The source's `while True` loop has no bound.
- Uploading files to the store is left out: the `ingest_files` upload loop, waiting on indexing, and its progress messages. Only its file filter and MIME fallback are modelled.
- The following are parameters rather than models: tool execution, `json.dumps`/`json.loads`, `hashlib.md5`, `os.path.abspath`, `ast.parse`, and the clock.
- `print`, `time.sleep` and temporary files are left out. Retry waits are recorded as numbers, and the report is returned as text instead of a file path.
- A generator's intermediate yields are reduced to its list of events. For the chat tab, only the window's final state is modelled.
- A `None` repository path is modelled as the empty string.
- Python set iteration order is left open. The diagram is proved for whatever order the set is iterated in.
- Graph records always carry every key, because the builder writes them all. The `.get` defaults for missing keys, and the 'uses' default edge type, are not modelled.
- A tool-call JSON that decodes to something other than a list of records is not modelled. Neither are message contents that are not strings.
- Tools.SearchResultsExact: lower-cases `A`-`Z` only, where Python's `str.lower()` folds all of Unicode, so a query such as `É` does not find `é.py`.
- Ingest.MimeTypeLookup: lower-cases the extension for `A`-`Z` only, not with Python's Unicode `lower()`.
- Ingest.AnalyzeAndSave: every listed source file is readable. An `open` failure on one (a permission error, say), which the source reports as an analysis error, is not modelled.
- Ingest.BuildKnowledgeGraph: the ignored directories and files are parameters. A config.yaml without `ingestion.ignored_directories`, whose lookup raises an uncaught `KeyError` out of the builder, is not modelled.
- Tools.Workspace.ListFiles: reading config.yaml is an input (`ConfigLoad`); only `json.dumps` failing inside the `try` is not modelled as an error.
- Tools.GraphPath: the `os.makedirs` that creates `data/graphs` is not modelled; the path is computed only.
- ChatTab.ChatWindow.ChatWrapper: follows the corrected hand-off. What ui/chat_tab.py:117-133 does as written is `ChatTab.WrapAsWritten`, and the difference is listed under Findings.
- Transcript.ArgDesc: the argument is shown as a string, so non-string tool arguments are not modelled.
- ChatEngine.Event.Intended: the quota notice keeps the engine's mis-encoded warning marker, because it is yielded as reply text.
- LegacyChat.LegacyWindow.ChatWrapper: a reply without text is shown as the empty string, not as a `None` content.
- LegacyChat.LegacyWindow.ChatWrapper: keeps the earlier page's as-written history hand-off; the corrected hand-off is modelled for the chat tab only.

## Findings

| source | as written | input that shows it | evidently intended | confidence | as-written member | corrected member |
|---|---|---|---|---|---|---|
| core/chat_engine.py:533 | the status markers are UTF-8 emoji stored as Windows-1252 text (`ðŸ› ï¸`, `âœ…`, `âŒ`, `ðŸ§ `), while the chat tab tests the first character against the real emoji | any tool call, e.g. `read_file`: its start text begins with `ð`, so the chat tab treats it as the final answer and never shows a tool message | the markers are the emoji 🛠️ ✅ ❌ 🧠, which the chat tab recognises and turns into tool messages | medium, not executed | ChatTab.EngineStatusShownAsAnswer | ChatTab.IntendedStatusRecognised |
| ui/chat_tab.py:117-119 | the wrapper passes `history[:-1]`, which already ends with the user's message, and `chat_fn` replays it into a new session before sending the same message | the first message "hi" of a new chat: the new session's history is the user turn "hi", and "hi" is then sent again | the session starts from the history before the new message, which `chat_fn` sends once | medium, not executed | ChatTab.SessionRepeatsMessage | ChatTab.WrapperSessionFromPrior |
