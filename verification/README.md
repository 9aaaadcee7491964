# ChatTutor orchestration core in Dafny

ChatTutor is a Socratic tutoring agent. Each user turn runs once through a
small graph:

1. An **analyzer** asks a language model for an execution plan: five flags
   and a rationale.
2. A fixed-precedence **router** sends the turn through one of two stretches:
   - the **summary** node, on a review or farewell request;
   - otherwise the flagged workers among **tutor**, **judge** and
     **inquiry**, in that order.
3. An **aggregator** produces the single reply, compresses the aged part of
   the transcript into a rolling summary, and saves the session.

The reply is the summary output verbatim only on an exiting turn. On every
other turn with some worker output, even one where only the tutor ran, the
reply is a fresh model synthesis over the outputs and the latest message
(app/core/agent_builder.py:219-235), not the tutor's text itself.

The worker calls (tutor, judge, inquiry, summary) see a prompt list built by
the **context engine**:
- the instruction;
- the rolling summary;
- up to two recalled older question/answer pairs, chosen by the character
  Jaccard similarity of the query with each older user message;
- the last 12 messages.

The other model calls build their own inputs:
- the analyzer sees its instruction, the summary as context, and the last
  three messages;
- the aggregator's synthesis sees its filled-in prompt and the last message;
- the compressor sends one prompt holding the old summary and the rendered
  history.

This project models the following in Dafny and proves what each part
promises:
- the records of that graph;
- the context engine (retrieval, assembly, compression);
- the router and the nodes;
- session persistence.

The language models, the search tool, the prompt templates, lower-casing, the
alphanumeric test and score formatting are parameters: arrow-typed fields of
`Agent.Capabilities`. The disk is a map from path to document held by the
`Memory.SessionStore` class.

Files, one module each:
- `wrappers.dfy`: `Option` and `Result`.
- `slices.dfy`: Python's one-bound slices, `s[:k]` and `s[k:]`, for any
  integer `k`.
- `models.dfy`: messages, `ExecutionPlan` with its field validation,
  `AgentState`, and a node's update (`Delta`) with the graph's merge
  (`Apply`: messages are appended, any other key present replaces the old
  value).
- `retrieval.dfy`: `retrieve_relevant_messages`, as specification functions
  plus the loop methods.
- `context.dfy`: `build_context` and `manage_memory`.
- `router.dfy`: the routing functions, the edges of `build_agent`, and the
  route of a whole turn.
- `memory.dfy`: paths, snapshot, note, save and load.
- `agent.dfy`: the nodes and the tool loop.
- `turn.dfy`: one execution of the compiled graph.

A key that is absent from the state and a key holding `None` are both
`None` in the model.

## Model

| member | source | states |
|---|---|---|
| Slices.Prefix | app/core/context.py:20 | `s[:k]` for any integer k: a negative k counts from the end; the result is the first min(k, n), or max(0, n+k), elements; so `s[:-0]` is empty |
| Slices.Suffix | app/core/context.py:114 | `s[k:]` for any integer k: a negative k keeps the last min(-k, n) elements, in order |
| Models.NewExecutionPlan | app/core/models.py:7-16 | a plan is five booleans and a rationale, all required: construction succeeds iff all six are given, copies each value, and otherwise reports exactly the missing fields |
| Models.Apply | app/core/models.py:23-24 | the merge of a node's update, key by key: the new transcript is the old one followed by exactly the update's messages; every other key present in the update replaces the old value, and every absent key keeps it; id, topic and intent are kept; the empty update changes nothing |
| Models.ParseStatus | app/core/models.py:57-59 | the judge's status accepts exactly "correct", "incorrect", "partial", and the accepted value prints back as the same literal |
| Models.StatusRoundTrip | app/core/models.py:57-59 | every status survives printing and re-validation |
| Retrieval.Jaccard | app/core/context.py:37-43 | the score \|Q∩M\|/\|Q∪M\| is an exact rational in [0, 1] |
| Retrieval.JaccardThreshold | app/core/context.py:45 | the test score > 0.05 holds iff 20·\|Q∩M\| > \|Q∪M\| |
| Retrieval.PairTextShape | app/core/context.py:47-50 | a pair's text is "User: …", extended by "\nAI: …" exactly when the next entry of the searchable prefix is an assistant message; the test against the whole transcript's length never decides |
| Retrieval.CandidatesExactly | app/core/context.py:30-54 | the scan keeps exactly the user messages of the searchable prefix that clear the threshold, each once, in transcript order |
| Retrieval.CandidatesSound | app/core/context.py:30-54 | every kept entry is a qualifying user message, carries its score and pair text, and anchors increase |
| Retrieval.CandidatesComplete | app/core/context.py:30-54 | no qualifying user message is missed |
| Retrieval.Insert | app/core/context.py:57 | one insertion step of the stable sort keeps every element: the result is the input plus the new element, as a multiset |
| Retrieval.SortByScore | app/core/context.py:57 | the sort is a permutation of its input |
| Retrieval.InsertRanked | app/core/context.py:57 | inserting an element with a larger anchor after all elements of equal or higher score keeps the list ranked: score descending, ties in transcript order |
| Retrieval.SortByScoreRanked | app/core/context.py:57 | with increasing anchors the sort ranks by score descending and keeps ties in their original order, which is stability |
| Retrieval.NatToString | app/core/context.py:66 | a block number renders as a non-empty string of decimal digits, with no leading zero, denoting exactly that number |
| Retrieval.Render | app/core/context.py:63-68 | the numbered blocks are empty iff no pair is kept |
| Retrieval.Recall | app/core/context.py:15-16 | retrieval gives "" on an empty query or a transcript of at most `exclude_last_n` messages, and "" exactly when nothing is selected |
| Retrieval.RecallEmptyIff | app/core/context.py:11-68 | for any top_k ≥ 1, retrieval is "" iff the query is empty, or the transcript is not longer than the window, or no user message of the searchable prefix clears the threshold |
| Retrieval.SelectedSound | app/core/context.py:20-50 | every returned pair is anchored at a user message of `messages[:-exclude_last_n]`, so outside the trailing window; its score is that message's Jaccard score, in (0.05, 1]; its text is its pair text |
| Retrieval.SelectedRanked | app/core/context.py:57-58 | the returned pairs are ranked (score descending, stable), there are min(top_k, #candidates) of them, and every candidate left out ranks below every pair returned |
| Retrieval.TopOfSort | app/core/context.py:57-58 | the first n elements of the sort are ranked and beat every candidate they leave out |
| Retrieval.PrefixOfRanked | app/core/context.py:58 | a prefix of a ranked list is ranked, a sub-multiset, and precedes the rest |
| Retrieval.RetrieveRelevantMessages | app/core/context.py:11-68 | the method (early returns, scan, sort, top-k, formatting) returns exactly `Recall` |
| Retrieval.ScoreHistory | app/core/context.py:27-54 | the while loop collects exactly the candidate list (loop invariant: the candidates among the first i entries) |
| Retrieval.FormatBlocks | app/core/context.py:63-68 | the formatting loop produces blocks numbered from 1, in order |
| Context.Preamble | app/core/context.py:77-105 | the list starts with the instruction; a summary entry follows iff the summary is non-empty; a recall entry follows iff recall is non-empty; all entries are system messages |
| Context.AssembleShape | app/core/context.py:70-117 | the prompt list is the preamble followed by exactly the last min(12, n) messages in order |
| Context.RecallEntryIff | app/core/context.py:95-105 | a recall entry is present iff the last message is a non-empty user message, more than 12 messages exist, and some user message before the last 12 clears the threshold against it |
| Context.BuildContext | app/core/context.py:70-117 | the step-by-step assembly equals `Assemble`; the state is a value and is left as it was |
| Context.RenderHistoryAppend | app/core/context.py:149-152 | the rendered history distributes over concatenation: one "User:"/"AI:" line per message, in order |
| Context.Compress | app/core/context.py:119-192 | the cursor never decreases; it moves iff len − cursor ≥ 16; when it fires, exactly 5 messages remain after the new cursor (so the `end_index <= cursor` guard never fires) and the summariser gets the old summary and exactly `messages[cursor:len−5]` rendered; otherwise summary and cursor come back unchanged; a cursor inside the transcript stays inside |
| Context.ManageMemory | app/core/context.py:119-192 | the method with its rendering loop returns exactly `Compress` |
| Router.RouteFromAnalyzer | app/core/agent_builder.py:274-290 | the result is a declared target; summary is chosen iff a plan exists with a summary request or a conclusion, overriding every worker flag; tutor or judge only with a plan |
| Router.RouteFromTutor | app/core/agent_builder.py:292-299 | the result is one of the tutor's declared targets |
| Router.RouteFromJudge | app/core/agent_builder.py:301-306 | the result is one of the judge's declared targets |
| Router.RouteFromSummary | app/core/agent_builder.py:308-309 | the summary node always hands over to a declared target, the aggregator |
| Router.Next | app/core/agent_builder.py:313-370 | each step follows a declared edge of the graph and moves strictly forward in the waterfall; END is reached exactly from the aggregator |
| Router.TurnRoute | app/core/agent_builder.py:274-368 | a whole turn is start, analyzer, then the summary node alone for a summary or concluding plan, otherwise exactly the flagged workers in the order tutor, judge, inquiry (none without a plan), then aggregator and END; at most 3 nodes run in between |
| Router.TraceIncreasing | app/core/agent_builder.py:325-368 | every run ends at END and no node is visited twice |
| Router.BetweenIsMiddle | app/core/agent_builder.py:274-309 | the nodes reached after the analyzer and before the aggregator are exactly the middle of the turn route |
| Agent.FallbackRaises | app/core/agent_builder.py:65-73 | as written, a planner exception on a non-empty transcript makes the fallback construction itself fail, reporting `request_summary` and `is_concluding` missing |
| Agent.AnalyzerNodeAsWritten | app/core/agent_builder.py:38-82 | as written: an empty transcript gives the empty update; the planner's plan, or no plan when it returns none without raising, is written with the scratch outputs cleared; a planner exception on a non-empty transcript fails |
| Agent.AnalyzerNode | app/core/agent_builder.py:38-82 | on an empty transcript the update is empty (scratch outputs are not cleared); otherwise the plan is written and all four scratch outputs become None; the plan is the planner's answer when it gives one, None when it returns none without raising (and only then), and the completed fallback when it raises |
| Agent.FallbackRoutesToTutor | app/core/agent_builder.py:68-73 | the completed fallback validates, and routes the turn to the tutor alone |
| Agent.AnalyzerSeesLastThree | app/core/agent_builder.py:47-62 | the analyzer's decision depends only on the summary and the last three messages |
| Agent.SearchCalls | app/core/agent_builder.py:104-106 | the served calls are exactly the calls naming the search tool: each served call is one of the reply's calls and names the tool, and every call naming the tool is served |
| Agent.SearchCallsAppend | app/core/agent_builder.py:104-106 | the filter distributes over concatenation, so served calls keep the order in which the reply lists them |
| Agent.ToolExchangeShape | app/core/agent_builder.py:104-121 | the loop appends two entries per search call: the requesting reply, once per call, then that call's answer tagged with its id |
| Agent.ToolLoopInputs | app/core/agent_builder.py:95-129 | exactly one model call without tool calls and exactly two with them (a call naming another tool still triggers the second); the first sees the built context; the second sees that context extended, never the transcript |
| Agent.RunToolLoop | app/core/agent_builder.py:84-129 | the method returns the reply and records the model inputs of `ToolLoopInputs` |
| Agent.ServeToolCalls | app/core/agent_builder.py:104-121 | the for loop extends the call-local list by exactly the tool exchange |
| Agent.TutorNode | app/core/agent_builder.py:131-140 | the update writes only `tutor_output`, with the tool loop's reply under the tutor prompt |
| Agent.JudgeNode | app/core/agent_builder.py:142-151 | the update writes only `judge_output`, with the tool loop's reply under the judge prompt |
| Agent.InquiryNode | app/core/agent_builder.py:153-168 | the update writes only `inquiry_output`: the plain model's answer to the built context under the inquiry prompt, which carries the judge's output as feedback when it is non-empty and "无" otherwise |
| Agent.SummaryNode | app/core/agent_builder.py:170-199 | only `summary_output` and `should_exit` are written; the update is empty iff the plan neither concludes nor requests a summary; `should_exit` is set, to true, iff the plan concludes (which wins over a review); a concluding plan writes the model's answer under the note prompt, a review request the answer under the review prompt |
| Agent.FinalReply | app/core/agent_builder.py:205-235 | the reply is the summary output verbatim when exiting, else the fixed clarification text when all four outputs are empty, else the model's synthesis from the prompt and the last message |
| Agent.StateToSave | app/core/agent_builder.py:240-255 | the saved state holds the transcript plus the reply and the compressor's summary; the cursor is the compressor's when the summary changed and the old one otherwise; id, topic, exit flag, plan and scratch outputs are those of the state |
| Agent.AggregatorOutcomeAsWritten | app/core/agent_builder.py:240-269 | as written: a failure is the missing `summarized_msg_count` key of a state that never had one; a success appends exactly the reply |
| Agent.AggregatorDelta | app/core/agent_builder.py:240-269 | corrected: the update appends exactly the reply, always writes a summary and a cursor, never a cursor below the current one, and touches no other key: plan, exit flag and all four scratch outputs are kept |
| Agent.AsWrittenAgrees | app/core/agent_builder.py:250-269 | as written, reading the cursor fails iff it was never set and the summary did not change; whenever it succeeds it equals the corrected update |
| Agent.ShortResumeRaises | app/core/agent_builder.py:252-268 | as written, a state with a stored summary and no cursor, with fewer than 16 messages after the reply, makes the aggregator fail |
| Agent.AggregatorMerge | app/core/agent_builder.py:240-268 | the update appends exactly the reply; summary and cursor take the compressor's values only when its summary differs from the stored one, and are otherwise written back unchanged |
| Agent.AggregatorCursor | app/core/agent_builder.py:240-268 | after the merge the transcript is one longer, the cursor has not moved backwards, and a cursor inside the transcript stays inside |
| Agent.SaveTurn | app/core/agent_builder.py:205-261 | the method picks `FinalReply`, builds exactly `StateToSave`, and leaves the store as saving that state describes |
| Agent.AggregatorNode | app/core/agent_builder.py:201-269 | corrected: the method returns the aggregator's update and saves, once, exactly the state with the reply appended |
| Agent.AggregatorNodeAsWritten | app/core/agent_builder.py:201-269 | as written: the method saves the turn first, then returns `AggregatorOutcomeAsWritten`, so the save happens whether or not the cursor read fails |
| Agent.RaisedAfterSave | app/core/agent_builder.py:261-268 | as written, when the cursor read fails for a session with an id, the store already holds at the session path the snapshot with the new reply appended and the unchanged summary |
| Memory.Join | app/core/memory.py:17 | POSIX joining of two parts: an absolute name replaces the directory; otherwise the name is appended directly to an empty directory or one ending in "/", and after an inserted "/" to any other |
| Memory.SessionPath | app/core/memory.py:13-17 | fails iff the id is empty; otherwise the path is `memory/sessions/<id>.json`, or `<id>.json` alone for an absolute id |
| Memory.SanitizeTopic | app/core/memory.py:28 | the sanitised topic has the topic's length; every character is alphanumeric, '-' or '_'; allowed characters are kept and every other becomes '_' |
| Memory.SanitizeIdempotent | app/core/memory.py:28 | sanitising twice changes nothing more |
| Memory.NotePath | app/core/memory.py:19-31 | the file name is the id, then "_" and the sanitised topic when the topic is non-empty, then ".md"; the path is that name under `memory/notes`, or the name alone when it is absolute |
| Memory.SessionAndNotePathsDiffer | app/core/memory.py:17-31 | a snapshot and a note never share a path |
| Memory.Snapshot | app/core/memory.py:54-60 | the snapshot carries the id, the timestamp, the topic (with its "General" default), the summary and the full transcript; it has no field for the cursor, the plan or the scratch outputs |
| Memory.NoteDocument | app/core/memory.py:72-79 | the note is the metadata header (session id, date, topic with its "General" default) followed by, and ending with, the summary output |
| Memory.SavedWrites | app/core/memory.py:33-84 | without an id nothing is written and "" is returned; otherwise the snapshot is stored at the session path and a note is written exactly when `should_exit` holds and the summary output is non-empty; every other entry is kept |
| Memory.Reconstruct | app/core/memory.py:98-109 | a reload rebuilds only transcript, id, topic and summary; cursor, plan and exit flag are absent |
| Memory.SaveThenLoad | app/core/memory.py:33-109 | saving then loading gives back transcript, id and summary, and the topic with its "General" default; the cursor comes back as 0 and the plan and outputs as absent |
| Memory.SessionStore.SaveSession | app/core/memory.py:33-84 | the method leaves the store as `Saved` describes and returns the snapshot path, or "" without an id |
| Memory.SessionStore.LoadSession | app/core/memory.py:86-109 | the method's result is `Load`: an empty id fails, a missing file gives None, a snapshot is reconstructed |
| Turn.RunWorker | app/core/agent_builder.py:131-199 | the new state is the node's own update (tutor, judge, inquiry or summary) merged into the state; it leaves plan, transcript, id, topic, summary and cursor as they were |
| Turn.RunWorkers | app/core/agent_builder.py:292-309 | following the routing from the analyzer's branch runs exactly the middle of the turn route, in order, and the state is the fold of those nodes' updates; plan, transcript, summary and cursor stay untouched |
| Turn.AnalyzedClears | app/core/agent_builder.py:38-82 | after the analyzer on a non-empty transcript every scratch output is None, and transcript, exit flag and topic are as before |
| Turn.RunMiddleKeeps | app/core/agent_builder.py:131-199 | any sequence of middle nodes leaves transcript, plan, id, topic, summary and cursor as they were |
| Turn.TurnReply | app/core/agent_builder.py:201-269 | the transcript after a turn is the old one followed by the reply chosen from the outputs the routed nodes produced |
| Turn.TutorOnlyTurn | app/core/agent_builder.py:131-140 | when the plan routes to the tutor alone, the aggregator sees the tutor's tool-loop answer and no other output; unless exiting, the reply is the clarification text if the tutor said nothing, else the model's synthesis of the tutor's answer and the latest message |
| Turn.ConcludingTurn | app/core/agent_builder.py:170-213 | a concluding plan runs only the summary node, raises the exit flag, and the turn's reply is the note the model wrote, verbatim |
| Turn.NoPlanTurn | app/core/agent_builder.py:274-277 | when the planner returns no plan without raising, no node runs between analyzer and aggregator, every output is empty, and unless exiting the reply is the clarification text |
| Turn.RunTurn | app/core/agent_builder.py:313-370 | one run of the graph visits the nodes of `TurnRoute` for the analyzer's plan; the new state is the aggregator's update merged into the state the analyzer and the routed nodes left, and the new transcript is the old one followed by the reply chosen from their outputs; the id is kept; the cursor never moves backwards and stays inside the transcript when it started inside; the store is exactly what saving the aggregator's state gives (`Saved`, so the note is written at the note path only when the turn exits with a non-empty summary output); without an id the store is unchanged; with one, the session path holds the snapshot of the new transcript and summary, and no entry other than the snapshot and the note changed |

## Left out

- The language models (`ChatDeepSeek`, `bind_tools`, `with_structured_output`) are uninterpreted parameters. So are the summariser's prompt text, the Baidu search client, and the prompt templates. Nothing is said about what they answer. The planner's answer is a plan, no plan (returned without raising), or an exception. Exceptions from the other model calls and from the search tool are not modelled.
- The JSON file I/O of `app/utils/file_io.py` is not part of this model. The disk is a map from path to document, and message serialisation is the identity.
- Timestamps are not modelled. `datetime.now()` and the note's date are parameters.
- Debug output (`print`, `rprint`) is not modelled.
- Score formatting (`{score:.2f}`), `str.lower` and `str.isalnum` are parameters. Lower-casing is applied per character. Python lower-cases the whole string, so the model does not capture characters whose lower-case form has several characters, nor context-dependent rules such as the final-sigma rule.
- The terminal loop of `app/cli.py` is not part of this model, and neither is the configuration in `app/core/config.py`.
- LangGraph's execution machinery is written out as `Router.Next` and `Turn.RunTurn`. Checkpointing, streaming and concurrency are not modelled.
- `add_messages` replaces a message whose id is already present. This is not modelled: node updates here carry fresh messages, so the reducer only appends.
- Tool-call arguments are reduced to the query string. The tool's argument-schema validation is not modelled.
- `Models.EvaluationOutput` and `Models.TopicDiscoveryOutput` are declared as records only. Nothing in the core constructs them.
- Retrieval candidates carry the index of their user message. The source's tuples do not. The index is what lets stability be stated.
- Context.Compress: a state that holds `conversation_summary` as an explicit None would give None in the source, where the model gives "". A state from the graph or from `load_session` of a saved session never holds it that way.
- Agent.TutorNode, Agent.JudgeNode, Agent.InquiryNode: a `current_topic` key holding None would put the text "None" into the prompt, where the model uses the "General Knowledge" default. `Memory.Snapshot` likewise uses "General".
- Router.RouteFromTutor, Router.RouteFromJudge: these take a plan. With no plan the source raises. In the graph these branches are reached only after the analyzer routed on a plan.
- Agent.AggregatorNode: models the corrected cursor read (see Findings). `Agent.AggregatorNodeAsWritten` keeps the source's behaviour: it saves the turn before the read that fails.
- Agent.AnalyzerNode: models the completed fallback plan (see Findings). `Agent.AnalyzerNodeAsWritten` keeps the source's behaviour.

## Findings

| source | as written | input that shows it | evidently intended | confidence | as-written member | corrected member |
|---|---|---|---|---|---|---|
| app/core/agent_builder.py:68-73 | the fallback `ExecutionPlan` omits `request_summary` and `is_concluding`, which are required with no default (app/core/models.py:14-15), so building it raises a validation error inside the `except` handler | any non-empty transcript on which the planner call raises, e.g. the model returns malformed JSON | a plain tutor answer with every other flag false, and no error escaping | medium; not executed | Agent.FallbackRaises | Agent.AnalyzerNode |
| app/core/agent_builder.py:268 | the cursor is read as `state_to_save["summarized_msg_count"]` with no default; it is absent when the state never had one and the summary did not change | a session reloaded by `load_session` (which restores no cursor) with any stored summary (at least "") and fewer than 16 messages after the reply: the compressor returns the stored summary unchanged, the summary compares equal, and the read raises KeyError; `save_session` (line 261) has by then already written the snapshot with the new reply, which the raising turn never returns | the default of 0 that `manage_memory` uses for the same key (app/core/context.py:127) | medium; not executed; no caller of `load_session` exists in the repository | Agent.ShortResumeRaises | Agent.AggregatorMerge |
