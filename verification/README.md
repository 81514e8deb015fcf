# Dataset specification builder and query executor: a Dafny model

This project models the logic underneath two chat agents that sit over a public tabular dataset service.

- **Specification builder.** A LangGraph loop alternates between a language model and two tools:
  - `update` replaces the in-progress specification document;
  - `save` appends that document to `data/api_data_specifications.json` and clears it.
  
  A routing predicate, `should_continue`, decides after every model turn whether to run the requested tools or to stop. A Streamlit front-end does three things:
  - runs the graph on the chat history;
  - shows the latest answer;
  - offers the saved specification for download once a `save` has succeeded.
- **Query executor.** It picks a stored specification for a request and checks the user against the specification's allow-list. It then hands a prompt to an agent whose one tool queries the dataset, caches the rows locally and returns a sample of at most 30 rows. A second front-end records the exchange and turns each tool output into a table, after trimming the output to its outermost brackets.

Modules, leaf first:

- `Wrappers` (`wrappers.dfy`): `Option`.
- `Text` (`text.dfy`): the Python string operations the code uses, with Python's semantics:
  - `join`;
  - `find` and `rfind` of one character;
  - slicing, where negative bounds count from the end and are then clamped;
  - `strip()`, using Python's full whitespace set;
  - `replace` of one character.
- `Messages` (`messages.dfy`): the message kinds (human, AI with tool calls, tool with name and status, system), the specification, and the draft (`{}` or a specification). It also holds the "last AI message with text" selector used by both front-ends.
- `SpecTools` (`spec_tools.dfy`): `update`, `save`, the specification file, and the tool node that runs the requested calls in order.
- `SpecAgent` (`spec_agent.dfy`): `should_continue`, the agent node (restore rule, model call, one appended message), the tool node step, the three-node graph, and runs of it.
- `DatabaseExecutor` (`database_executor.dfy`): the query text, the cache path and table name, the sample bound, the agent prompt, the authorization gate, `database_agent_entrypoint` and `run_database_agent`.
- `BuilderApp` (`builder_app.dfy`) and `ExecutorApp` (`executor_app.dfy`): the two front-ends' sessions, rendering and submit handlers.

The language model, JSON parsing and printing, the retriever, the executor agent, the dataset backend and table conversion cannot be seen from the code. Each is a function-valued parameter, so every property holds for any behaviour of theirs.

Four behaviours of the code are easy to miss; the model follows the code:

- Both `save` and `update` count as terminal tools for `should_continue`.
- `save` catches its own exceptions and returns the error as ordinary text. Its tool message therefore has status success even when nothing was written (`FailedSaveLooksSuccessful`, `FailedSaveStillEnds`).
- The graph code sets no turn limit of its own.
- The front-end's completion check looks for a successful `save` message anywhere in the history.

Two consequences of the code as written are proved rather than corrected:

- **Restore undoes the reset.** The agent node copies the graph state's draft back into the empty process-wide draft. So the reset done by a successful `save` is undone on the next agent turn (`SaveResetUndoneByRestore`).
- **Same-batch save loses the draft.** Suppose `update` and `save` run in one tool batch while the graph state still holds `{}`, and the model then answers with text. Then the run ends at that agent turn with a `{}` draft (`SameBatchSaveLeavesStateBlank`, `SameBatchRunEnds`). A front-end turn whose `app.invoke` is that run raises `KeyError` when it builds the download file name (`BuilderApp.SameBatchSaveFailsDownload`, outcome `DownloadFailed`).

## Model

| member | source | states |
|---|---|---|
| Text.Find | agent_ingestion_executor/executor_streamlit_app.py:111 | `find('[')` is -1 exactly when there is no '['; otherwise it is the position of the first one |
| Text.RFind | agent_ingestion_executor/executor_streamlit_app.py:112 | `rfind(']')` is -1 exactly when there is no ']'; otherwise it is the position of the last one |
| Text.SliceIndex | agent_ingestion_executor/executor_streamlit_app.py:113 | a slice bound is taken as is within the text, counted from the end when negative, and clamped to the text |
| Text.JoinPlaces | agent_ingestion_executor/database_executor.py:44 | every piece of a join sits at its computed offset, in the given order, followed by the separator unless it is the last |
| Text.StripEmptyIffBlank | app_api_specification_builder/streamlit_app.py:55 | `content.strip()` is empty exactly when every character is Python whitespace |
| Text.ReplaceChar | agent_ingestion_executor/database_executor.py:62 | `replace` keeps the length and changes exactly the matching characters |
| Messages.LastAiIndex | agent_ingestion_executor/executor_streamlit_app.py:89-92 | the position found holds AI text and no later message does; -1 exactly when no message is AI text |
| Messages.LastAiText | app_api_specification_builder/streamlit_app.py:78-82 | the latest AI message is None exactly when no AI message has text; otherwise it is AI text with no AI text after it |
| Messages.LastAiTextAppend | app_api_specification_builder/streamlit_app.py:78-82 | later AI text hides all earlier messages; appending messages without AI text leaves the selection unchanged |
| SpecTools.Update | app_api_specification_builder/api_agent.py:21-38 | `update` raises exactly when the document does not parse; otherwise the draft is the parsed document and the file is untouched |
| SpecTools.UpdateReplacesWholesale | app_api_specification_builder/api_agent.py:32-33 | after `update` the draft is the parsed document whatever it held before; a parse failure gives status error and keeps the old draft |
| SpecTools.Save | app_api_specification_builder/api_agent.py:41-72 | `save` never raises. When the file can be read and written, it stores the old list plus the draft and resets the draft to `{}`. Otherwise draft and file stay as they were. The store is only appended to |
| SpecTools.SaveAppends | app_api_specification_builder/api_agent.py:53-65 | a missing file becomes `[draft]`; an existing list keeps every entry in order and gains the draft last |
| SpecTools.FailedSaveLooksSuccessful | app_api_specification_builder/api_agent.py:71-72 | a save that hit an I/O error yields a tool message with status success and the error text |
| SpecTools.RunCall | app_api_specification_builder/api_agent.py:75 | a call yields one tool message named after it. An unknown tool yields an error. An error changes neither draft nor file, and only `save` touches the file |
| SpecTools.RunCalls | app_api_specification_builder/api_agent.py:129 | the tool node yields exactly one message per requested call, in order, named after the call. Without a `save` call the file is unchanged; with one it is only appended to |
| SpecTools.RunCallsOfOne | app_api_specification_builder/api_agent.py:129 | a batch of one call gives exactly that call's message, draft and file |
| SpecTools.RunCallsConcat | app_api_specification_builder/api_agent.py:129 | a batch `a + b` runs `a`, then `b` on the draft and file `a` left, and lists `a`'s messages before `b`'s; with `RunCallsOfOne`, message i is call i's outcome on what the earlier calls left |
| SpecTools.UpdateThenSave | app_api_specification_builder/api_agent.py:32-67 | `update` then `save` leaves the file ending in the updated document with all earlier entries kept, the draft `{}`, and both messages successful |
| SpecAgent.ShouldContinue | app_api_specification_builder/api_agent.py:108-123 | an empty conversation, or one with a single message, always continues |
| SpecAgent.EndIff | app_api_specification_builder/api_agent.py:114-121 | the loop ends exactly when the conversation ends with a successful `save`/`update` message followed by AI text |
| SpecAgent.ErrorNeverEnds | app_api_specification_builder/api_agent.py:120-123 | a tool message with status error right before the final AI text never ends the loop |
| SpecAgent.FailedSaveStillEnds | app_api_specification_builder/api_agent.py:114-121 | AI text after a save that failed on I/O still ends the loop |
| SpecAgent.EndIgnoresRequestedCalls | app_api_specification_builder/api_agent.py:116-121 | the routing decision ignores the tool calls the final AI message requests |
| SpecAgent.Restore | app_api_specification_builder/api_agent.py:83-84 | a non-empty process-wide draft is kept; an empty one takes the graph state's draft |
| SpecAgent.AgentStep | app_api_specification_builder/api_agent.py:80-105 | the model is sent the system message followed by the conversation. Exactly one AI message, its reply, is appended. The state's draft is the restored draft. The next node is END exactly when `should_continue` says end |
| SpecAgent.ToolsStep | app_api_specification_builder/api_agent.py:129-142 | the tool node appends one named tool message per pending call, returns to the agent, leaves the state's draft alone and only appends to the store |
| SpecAgent.Step | app_api_specification_builder/api_agent.py:127-142 | every move follows a declared edge: agent to tools or END, tools to agent. It only extends the conversation and only appends to the store |
| SpecAgent.StepKeepsReachable | app_api_specification_builder/api_agent.py:133-142 | END is reached only where `should_continue` ends; the tool node only right after an AI message |
| SpecAgent.RunInvariants | app_api_specification_builder/api_agent.py:127-145 | along any run the conversation only grows at its end, stored specifications are never edited or removed, and END implies the end condition |
| SpecAgent.InvokeEndsOnTerminalPair | app_api_specification_builder/api_agent.py:133-145 | a run of `app.invoke` that reaches END extends the input conversation and ends on a successful terminal tool message followed by AI text |
| SpecAgent.SaveResetUndoneByRestore | app_api_specification_builder/api_agent.py:67-84 | a successful save appends the draft and resets it to `{}`; the next agent turn restores the saved document from the graph state |
| SpecAgent.SameBatchSaveLeavesStateBlank | app_api_specification_builder/api_agent.py:83-105 | with `{}` in the graph state, `update` and `save` in one batch store the document and leave both drafts `{}` after the next agent turn. That turn ends the run exactly when the model answers with text, and the conversation holds the successful save |
| SpecAgent.SameBatchRunEnds | app_api_specification_builder/api_agent.py:133-145 | a run that reaches such a batch, with a text answer next, stops after the following agent turn, at END with the state's draft `{}` |
| DatabaseExecutor.QueryShape | agent_ingestion_executor/database_executor.py:43-52 | the query opens with `SELECT`, has the column list after it, then the `FROM ` keyword and `` `bigquery-public-data.<dataset>` ``, then the WHERE line as the whole text before the LIMIT line, and always ends with `LIMIT 10000` |
| DatabaseExecutor.WhereClauseLength | agent_ingestion_executor/database_executor.py:50 | a WHERE line is exactly as long as "WHERE ", the terms and the " AND " separators between them, so nothing follows the last term |
| DatabaseExecutor.WhereClauseShape | agent_ingestion_executor/database_executor.py:50 | the WHERE line is empty exactly when there are no filters; otherwise it starts with `WHERE ` and holds one `k = v` term per filter, in order, separated by " AND " |
| DatabaseExecutor.ColumnListOrder | agent_ingestion_executor/database_executor.py:44 | the columns appear in the given order, separated by ", " |
| DatabaseExecutor.TableName | agent_ingestion_executor/database_executor.py:62 | the table name has the dataset's length and no '.': every '.' becomes '_' and every other character stays in place |
| DatabaseExecutor.DbPathFollowsTableName | agent_ingestion_executor/database_executor.py:60-62 | two datasets share a cache file exactly when they share a table name |
| DatabaseExecutor.CacheNamesCollide | agent_ingestion_executor/database_executor.py:60-62 | distinct datasets "a.b" and "a_b" share one cache file |
| DatabaseExecutor.SampleSize | agent_ingestion_executor/database_executor.py:67 | the sample size is at most 30 and at most the row count, and equals one of them |
| DatabaseExecutor.IngestAndQuery | agent_ingestion_executor/database_executor.py:19-72 | the backend gets the built query. With no rows the result is `[]` and nothing is written. Otherwise only the dataset's table in its cache file is replaced by the rows: that file gains exactly that table name, its other tables and every other file are kept, and the sample has 1 to 30 rows |
| DatabaseExecutor.IngestOverwrites | agent_ingestion_executor/database_executor.py:64-65 | refreshing the cache with the same rows twice equals refreshing once (replace, not append) |
| DatabaseExecutor.PromptHoldsRequestAndSpec | agent_ingestion_executor/database_executor.py:111-128 | the prompt contains the request, the dataset name and the ", "-joined columns, each at its template position |
| DatabaseExecutor.Entrypoint | agent_ingestion_executor/database_executor.py:130-151 | the last message's content is the request. An unlisted user gets exactly one fixed AI message. Otherwise the agent receives exactly one human message holding the prompt |
| DatabaseExecutor.DenialSkipsAgent | agent_ingestion_executor/database_executor.py:141-149 | a denial is one message and does not depend on the executor agent |
| DatabaseExecutor.CaseSensitiveDenial | agent_ingestion_executor/database_executor.py:141-143 | the allow-list is matched with no case folding: "Alice" against `["alice"]` gets the fixed denial message |
| DatabaseExecutor.RunPassesRequest | agent_ingestion_executor/database_executor.py:153-155 | a one-message history makes the request the user request; an authorized user's request reaches the agent inside the prompt |
| BuilderApp.ResetChat | app_api_specification_builder/streamlit_app.py:20-23 | `reset_chat` empties the messages, sets the draft to `{}` and closes the chat |
| BuilderApp.Bubbles | app_api_specification_builder/streamlit_app.py:52-56 | at most one bubble per message; with `DrawnIff` and `BubblesConcat`, each message of the history is drawn in order as its own bubble |
| BuilderApp.DrawnIff | app_api_specification_builder/streamlit_app.py:52-56 | a message is drawn exactly when it is a human message with text or an AI message with a non-whitespace character; tool and system messages never are. A human message becomes a user bubble holding its text, an AI message an assistant bubble holding the robot prefix and its text |
| BuilderApp.BubblesConcat | app_api_specification_builder/streamlit_app.py:52-56 | the history is drawn message by message, in order |
| BuilderApp.CompletionAnywhere | app_api_specification_builder/streamlit_app.py:88-93 | completion does not depend on where the successful `save` message sits, and persists as the history grows |
| BuilderApp.EndAfterSaveCompletes | app_api_specification_builder/streamlit_app.py:88-93 | a loop ended right after `save` is completed; one ended right after `update` is completed only if an earlier save is there |
| BuilderApp.Submit | app_api_specification_builder/streamlit_app.py:60-113 | the graph gets the history plus the prompt and the draft, and the latest AI text is shown. A completed run with a document offers `<dataset>_document.json` and resets the chat. With `{}` the download fails. Otherwise the session holds the run's messages and draft (`[]`/`{}` when absent) |
| BuilderApp.SubmitReplacesSession | app_api_specification_builder/streamlit_app.py:73-76 | after a turn the session depends only on the run's result, not on the previous history or draft |
| BuilderApp.SameBatchSaveFailsDownload | app_api_specification_builder/streamlit_app.py:65-108 | with `app.invoke` given by the graph's run: if the run reaches `update` and `save` in one batch with `{}` in the state and a text answer next, the turn ends in `DownloadFailed` (the `KeyError` on `document_content['dataset']`) |
| BuilderApp.BlankAfterSaveFailsDownload | app_api_specification_builder/streamlit_app.py:95-108 | for any `app.invoke`: a result whose messages hold a successful `save` and whose draft is `{}` ends the turn in `DownloadFailed` |
| ExecutorApp.ResetChat | agent_ingestion_executor/executor_streamlit_app.py:29-32 | `reset_chat` empties the history, sets the draft to `{}`, closes the chat and keeps the user name |
| ExecutorApp.ShowEntry | agent_ingestion_executor/executor_streamlit_app.py:68-75 | an entry is drawn as at most one line, and is not drawn exactly when it is a message that is neither human nor AI. A human message becomes a user line with its text, an AI message an assistant line with the robot prefix, and a table a table |
| ExecutorApp.Show | agent_ingestion_executor/executor_streamlit_app.py:68-75 | at most one line per history entry |
| ExecutorApp.ShowConcat | agent_ingestion_executor/executor_streamlit_app.py:68-75 | the history is drawn entry by entry, in order |
| ExecutorApp.ShowOfOne | agent_ingestion_executor/executor_streamlit_app.py:68-75 | a single entry is drawn as its dispatch says |
| ExecutorApp.RecordedEntriesAllShown | agent_ingestion_executor/executor_streamlit_app.py:68-75 | a history of human, AI and table entries is drawn with one line per entry |
| ExecutorApp.ToolOutputs | agent_ingestion_executor/executor_streamlit_app.py:100-104 | every output is non-empty and is the content of some tool message |
| ExecutorApp.ToolOutputsConcat | agent_ingestion_executor/executor_streamlit_app.py:100-104 | outputs keep message order: those of a history are those of its first part followed by those of the rest |
| ExecutorApp.ToolOutputOfOne | agent_ingestion_executor/executor_streamlit_app.py:100-104 | a non-empty tool message contributes exactly its content; any other message contributes nothing |
| ExecutorApp.TrimBrackets | agent_ingestion_executor/executor_streamlit_app.py:111-113 | no ']' gives "". A first '[' at i before a last ']' at j gives exactly characters i..j. A '[' after the last ']' gives "". No '[' gives "]" when the text ends in ']' and "" otherwise |
| ExecutorApp.TrimmedNonEmptyIff | agent_ingestion_executor/executor_streamlit_app.py:111-113 | the trimmed text is non-empty exactly when a ']' exists and either a '[' precedes the last one, or there is no '[' and the text ends in ']' |
| ExecutorApp.BracketedSpan | agent_ingestion_executor/executor_streamlit_app.py:111-112 | a '[' with none before it is the position `find` returns, and a ']' with none after it is the position `rfind` returns |
| ExecutorApp.Frames | agent_ingestion_executor/executor_streamlit_app.py:106-123 | at most one table per tool output, only tables, and each table is what `load` makes of some output trimmed to its brackets |
| ExecutorApp.FramesConcat | agent_ingestion_executor/executor_streamlit_app.py:106-123 | tables follow the order of the outputs |
| ExecutorApp.FrameOfOne | agent_ingestion_executor/executor_streamlit_app.py:110-123 | one output gives exactly the table `load` makes of its trimmed text, or nothing when the conversion fails |
| ExecutorApp.Submit | agent_ingestion_executor/executor_streamlit_app.py:78-123 | the prompt is recorded first, then the last AI text if there is one. Everything after that is exactly the tables of the tool outputs, each trimmed to its brackets and converted, in order. User name, draft and chat state are unchanged |
| ExecutorApp.DeniedQueryRecordsDenial | agent_ingestion_executor/executor_streamlit_app.py:82-104 | for an unlisted user the history gains exactly the prompt and the denial message, and no table |

## Left out

- The language model, `ChatOpenAI`, `bind_tools` and `create_agent` are parameters: the reply function, the system-instruction text for a draft, and the executor agent. Their behaviour is not modelled.
- LangGraph's `ToolNode` and the `add_messages` reducer are library code. The model assumes that `ToolNode` turns a raised exception or an unknown tool name into a tool message with status error, whose text is a parameter. Some LangGraph releases catch only argument-validation errors and re-raise an exception from inside a tool, such as the `json.loads` failure in `update`; under those releases that turn ends in an exception instead. The error half of `SpecTools.UpdateReplacesWholesale` and `SpecAgent.ErrorNeverEnds` for a failed `update` rest on this assumption.
- SpecTools.RunCalls: runs a batch's calls one after another, in order. The library only promises the order of the resulting messages, not of the side effects. So `UpdateThenSave` and `SameBatchSaveLeavesStateBlank` assume `update` acts before `save`.
- SpecTools.RunCall: the error-message wording of the tool node and of `json.dumps` is not modelled.
- JSON parsing and printing are parameters. A draft is either `{}` or a full specification. A parsed document that lacks some of the keys, or that is not an object, is not modelled.
- File I/O is modelled by the `Disk` value. A read failure other than a missing file, and a failed write, both count as an exception before any change. A partially written file is not modelled.
- `load_dataset_specs`, `build_vector_store` and `retrieve_relevant_spec` (FAISS and embeddings) are left out: the retrieved specification is the result of a parameter function. An empty or missing store, which makes the source raise, is therefore not modelled.
- DatabaseExecutor.IngestAndQuery: only the sample's size is stated. Which rows `df.sample` picks is random, and `to_json` serialisation is library code.
- DatabaseExecutor.IngestAndQuery: the BigQuery client, the sqlite file format and `os.makedirs` are left out. The cache is a map from file path to named tables.
- DatabaseExecutor.Entrypoint: requires a non-empty history. The source indexes `messages[-1]` without a check, and its only caller passes one message.
- BuilderApp.Submit and ExecutorApp.Submit: require a non-empty prompt, as the `if prompt := ...` guard does. ExecutorApp.Submit also requires a user name, as the enclosing `if st.session_state.username` does.
- ExecutorApp.Submit: the table conversion (`json.loads` then `pd.DataFrame`) is one parameter. The sqlite download written after each table, and the error text shown when conversion fails, are UI and are left out.
- Streamlit widgets, `st.rerun`, the "Create dataset specification" button and the user-name prompt are UI and are left out. So is the processing of each `st.json` and download button beyond its file name.
- The process-wide draft is one value threaded through the loop. Concurrency between sessions is left out.
- SpecAgent.Run has a `fuel` bound. It only limits how many steps a lemma looks at; the graph code sets no limit of its own, so a run may never reach END.
- SpecAgent.Run: LangGraph's own default recursion limit for `invoke`, and the `GraphRecursionError` it raises, are library behaviour and are not modelled.
