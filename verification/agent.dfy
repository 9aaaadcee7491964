/**
 * The nodes of the turn graph. Each node reads the state and returns the
 * update it wants merged. The language models, the search tool and the
 * prompt templates are parameters: a node is specified relative to them.
 */
module Agent {
  import opened Wrappers
  import opened Slices
  import opened Models
  import opened Context
  import opened Memory
  import Router

  /** A chat model reply, possibly asking for tool calls. */
  datatype Reply = Reply(content: string, toolCalls: seq<ToolCall>)

  /** The prompt templates, as functions of the values substituted into them. */
  datatype Prompts = Prompts(
    analyzerSystem: string,
    tutorWorker: string -> string,
    judgeWorker: string -> string,
    inquiryWorker: (string, string) -> string,
    summarizerNote: string,
    summarizerReview: string,
    aggregatorSystem: (string, string, string, string) -> string)

  /**
   * What the structured-output call gives: a plan; no plan, returned without
   * raising (the model made no tool call); or an exception.
   */
  datatype PlannerAnswer = Planned(plan: ExecutionPlan) | NoPlan | Raised

  /**
   * Everything outside the orchestration logic. `planner` is the
   * structured-output call; `chatWithTools` is the model bound to
   * the search tool; `chat` the plain model; `search` the search tool on a
   * query; `summarize` the summariser on (old summary, rendered history).
   */
  datatype Capabilities = Capabilities(
    planner: seq<Message> -> PlannerAnswer,
    chatWithTools: seq<Message> -> Reply,
    chat: seq<Message> -> string,
    search: string -> string,
    summarize: (string, string) -> string,
    lower: char -> char,
    formatScore: real -> string,
    isAlnum: char -> bool,
    prompts: Prompts)

  function BuildInputs(state: AgentState, systemPrompt: string, caps: Capabilities): seq<Message> {
    Assemble(state, systemPrompt, caps.lower, caps.formatScore)
  }

  /** An update that touches only scratch keys: no message, no plan, no summary, no cursor. */
  predicate ScratchOnly(d: Delta) {
    d.appended == [] && d.plan.Keep? && d.conversationSummary.Keep? && d.summarizedMsgCount.Keep?
  }

  // ---------------------------------------------------------------- analyzer

  /** The planner's input: its instruction, the summary as context when non-empty, then the last three messages. */
  function AnalyzerInputs(state: AgentState, caps: Capabilities): seq<Message> {
    [System(caps.prompts.analyzerSystem)]
    + (if Truthy(state.conversationSummary) then [System("Context: " + state.conversationSummary.value)] else [])
    + Suffix(state.messages, -3)
  }

  const FALLBACK_THOUGHT: string := "Error in planning, defaulting to simple answer."

  /** The analyzer's reply once the planner has answered: the plan, and all four scratch outputs cleared. */
  function PlanDelta(plan: Option<ExecutionPlan>): Delta {
    NoUpdate.(plan := Put(plan), tutorOutput := Put(None), judgeOutput := Put(None),
              inquiryOutput := Put(None), summaryOutput := Put(None))
  }

  /**
   * The analyzer as written: the fallback plan is constructed with only four
   * of the six required fields, so the construction itself fails.
   */
  function AnalyzerNodeAsWritten(state: AgentState, caps: Capabilities): (r: Result<Delta, ValidationError>)
    ensures state.messages == [] ==> r == Success(NoUpdate)
    ensures state.messages != [] && caps.planner(AnalyzerInputs(state, caps)).Planned? ==>
      r == Success(PlanDelta(Some(caps.planner(AnalyzerInputs(state, caps)).plan)))
    ensures state.messages != [] && caps.planner(AnalyzerInputs(state, caps)).NoPlan? ==>
      r == Success(PlanDelta(None))
    ensures state.messages != [] && caps.planner(AnalyzerInputs(state, caps)).Raised? ==> r.Failure?
  {
    if state.messages == [] then Success(NoUpdate)
    else match caps.planner(AnalyzerInputs(state, caps))
      case Planned(plan) => Success(PlanDelta(Some(plan)))
      case NoPlan => Success(PlanDelta(None))
      case Raised =>
        var fallback := NewExecutionPlan(Some(true), Some(false), Some(false), None, None, Some(FALLBACK_THOUGHT));
        match fallback
        case Success(plan) => Success(PlanDelta(Some(plan)))
        case Failure(error) => Failure(error)
  }

  /** Whenever the planner raises on a non-empty transcript, the written analyzer fails too, naming the two omitted fields. */
  lemma FallbackRaises(state: AgentState, caps: Capabilities)
    requires state.messages != [] && caps.planner(AnalyzerInputs(state, caps)).Raised?
    ensures AnalyzerNodeAsWritten(state, caps) == Failure(MissingFields({RequestSummaryField, IsConcludingField}))
  {
    var fallback := NewExecutionPlan(Some(true), Some(false), Some(false), None, None, Some(FALLBACK_THOUGHT));
    assert fallback.error.fields == {RequestSummaryField, IsConcludingField};
  }

  /** The intended fallback: a plain tutor answer, every other flag off. */
  const FALLBACK_PLAN: ExecutionPlan := ExecutionPlan(true, false, false, false, false, FALLBACK_THOUGHT)

  /**
   * `analyzer_node`, with the fallback plan completed. A planner that returns
   * no plan without raising leaves the plan None, which routes straight to
   * the aggregator.
   */
  function AnalyzerNode(state: AgentState, caps: Capabilities): (r: Delta)
    ensures state.messages == [] <==> r == NoUpdate
    ensures state.messages != [] ==>
      && r.plan.Put?
      && (r.plan.value.None? <==> caps.planner(AnalyzerInputs(state, caps)).NoPlan?)
      && r.tutorOutput == Put(None) && r.judgeOutput == Put(None)
      && r.inquiryOutput == Put(None) && r.summaryOutput == Put(None)
      && r.appended == [] && r.shouldExit.Keep?
      && r.conversationSummary.Keep? && r.summarizedMsgCount.Keep?
    ensures state.messages != [] && caps.planner(AnalyzerInputs(state, caps)).Planned? ==>
      r.plan == Put(Some(caps.planner(AnalyzerInputs(state, caps)).plan))
    ensures state.messages != [] && caps.planner(AnalyzerInputs(state, caps)).NoPlan? ==>
      r.plan == Put(None)
    ensures state.messages != [] && caps.planner(AnalyzerInputs(state, caps)).Raised? ==>
      r.plan == Put(Some(FALLBACK_PLAN))
  {
    if state.messages == [] then NoUpdate
    else match caps.planner(AnalyzerInputs(state, caps))
      case Planned(plan) => PlanDelta(Some(plan))
      case NoPlan => PlanDelta(None)
      case Raised => PlanDelta(Some(FALLBACK_PLAN))
  }

  /**
   * The intended fallback routes to the tutor alone: after it the turn visits
   * the analyzer, the tutor, the aggregator and nothing else.
   */
  lemma FallbackRoutesToTutor()
    ensures Router.Middle(Some(FALLBACK_PLAN)) == [Router.Tutor]
    ensures NewExecutionPlan(Some(true), Some(false), Some(false), Some(false), Some(false), Some(FALLBACK_THOUGHT))
      == Success(FALLBACK_PLAN)
  {
  }

  /**
   * The planner sees only the summary and the last three messages: two
   * states that agree on those get the same analyzer update.
   */
  lemma {:induction false} AnalyzerSeesLastThree(s1: AgentState, s2: AgentState, caps: Capabilities)
    requires s1.conversationSummary == s2.conversationSummary
    requires (s1.messages == []) == (s2.messages == [])
    requires Suffix(s1.messages, -3) == Suffix(s2.messages, -3)
    ensures AnalyzerNode(s1, caps) == AnalyzerNode(s2, caps)
  {
    assert AnalyzerInputs(s1, caps) == AnalyzerInputs(s2, caps);
  }

  // ---------------------------------------------------------------- tool loop

  const SEARCH_TOOL: string := "baidu_search"

  /** The calls the loop actually serves: those naming the search tool, in order. */
  function SearchCalls(calls: seq<ToolCall>): (r: seq<ToolCall>)
    ensures |r| <= |calls|
    ensures forall k | 0 <= k < |r| :: r[k].name == SEARCH_TOOL
    ensures forall c | c in r :: c in calls
    ensures forall c | c in calls && c.name == SEARCH_TOOL :: c in r
  {
    if calls == [] then []
    else
      var call := calls[|calls| - 1];
      SearchCalls(calls[..|calls| - 1]) + (if call.name == SEARCH_TOOL then [call] else [])
  }

  /** The filter distributes over concatenation, so the served calls keep their relative order. */
  lemma {:induction false} SearchCallsAppend(a: seq<ToolCall>, b: seq<ToolCall>)
    ensures SearchCalls(a + b) == SearchCalls(a) + SearchCalls(b)
    decreases |b|
  {
    if b == [] {
      assert a + b == a;
    } else {
      var b', last := b[..|b| - 1], b[|b| - 1];
      var ab := a + b;
      assert ab[..|ab| - 1] == a + b' && ab[|ab| - 1] == last;
      SearchCallsAppend(a, b');
    }
  }

  /**
   * What the loop appends to its local list for the first calls of a reply:
   * for each search call, the requesting reply again, then the tool's answer.
   */
  function ToolExchange(response: Message, calls: seq<ToolCall>, search: string -> string): seq<Message> {
    if calls == [] then []
    else
      var call := calls[|calls| - 1];
      ToolExchange(response, calls[..|calls| - 1], search)
      + (if call.name == SEARCH_TOOL then [response, ToolResult(search(call.query), call.name, call.id)] else [])
  }

  /**
   * The exchange has two entries per search call: at even positions the
   * requesting reply, repeated once per call; at odd positions the answer to
   * the k-th search call, tagged with its id.
   */
  lemma {:induction false} ToolExchangeShape(response: Message, calls: seq<ToolCall>, search: string -> string)
    ensures var x, sc := ToolExchange(response, calls, search), SearchCalls(calls);
      && |x| == 2 * |sc|
      && forall k | 0 <= k < |sc| ::
           x[2 * k] == response && x[2 * k + 1] == ToolResult(search(sc[k].query), SEARCH_TOOL, sc[k].id)
  {
    if calls != [] {
      var init := calls[..|calls| - 1];
      var call := calls[|calls| - 1];
      ToolExchangeShape(response, init, search);
      var x0, sc0 := ToolExchange(response, init, search), SearchCalls(init);
      var x, sc := ToolExchange(response, calls, search), SearchCalls(calls);
      if call.name == SEARCH_TOOL {
        assert x == x0 + [response, ToolResult(search(call.query), call.name, call.id)];
        assert sc == sc0 + [call];
        forall k | 0 <= k < |sc|
          ensures x[2 * k] == response && x[2 * k + 1] == ToolResult(search(sc[k].query), SEARCH_TOOL, sc[k].id)
        {
          if k < |sc0| {
            assert x[2 * k] == x0[2 * k] && x[2 * k + 1] == x0[2 * k + 1];
            assert sc[k] == sc0[k];
          }
        }
      } else {
        assert x == x0 && sc == sc0;
      }
    }
  }

  /** The reply message as it appears in the list: the model's text and its tool calls. */
  function AsMessage(response: Reply): Message {
    AI(response.content, response.toolCalls)
  }

  /** The model inputs of `_run_tool_loop`: one call, or two when the first reply asks for tools. */
  function ToolLoopInputs(promptContent: string, state: AgentState, caps: Capabilities): (r: seq<seq<Message>>)
    ensures 1 <= |r| <= 2
    ensures r[0] == BuildInputs(state, promptContent, caps)
    ensures |r| == 2 <==> caps.chatWithTools(r[0]).toolCalls != []
    ensures |r| == 2 ==> r[0] <= r[1]
  {
    var ctx := BuildInputs(state, promptContent, caps);
    var response := caps.chatWithTools(ctx);
    if response.toolCalls == [] then [ctx]
    else [ctx, ctx + ToolExchange(AsMessage(response), response.toolCalls, caps.search)]
  }

  /** The text `_run_tool_loop` returns: the first reply, or the plain model's answer to the second input. */
  function ToolLoopReply(promptContent: string, state: AgentState, caps: Capabilities): string {
    var inputs := ToolLoopInputs(promptContent, state, caps);
    if |inputs| == 1 then caps.chatWithTools(inputs[0]).content else caps.chat(inputs[1])
  }

  /**
   * `_run_tool_loop`: build the context, ask the tool-bound model, serve the
   * search calls on the local list, then ask the plain model once.
   * `modelInputs` records each model call.
   */
  method RunToolLoop(promptContent: string, state: AgentState, caps: Capabilities)
    returns (content: string, ghost modelInputs: seq<seq<Message>>)
    ensures content == ToolLoopReply(promptContent, state, caps)
    ensures modelInputs == ToolLoopInputs(promptContent, state, caps)
  {
    var currentMessages := BuildContext(state, promptContent, caps.lower, caps.formatScore);
    var response := caps.chatWithTools(currentMessages);
    modelInputs := [currentMessages];
    if response.toolCalls != [] {
      currentMessages := ServeToolCalls(currentMessages, response, caps.search);
      var finalResponse := caps.chat(currentMessages);
      modelInputs := modelInputs + [currentMessages];
      return finalResponse, modelInputs;
    }
    return response.content, modelInputs;
  }

  /**
   * The tool-call loop: for each call naming the search tool, append the
   * requesting reply and the search answer; skip every other call.
   */
  method ServeToolCalls(context: seq<Message>, response: Reply, search: string -> string)
    returns (currentMessages: seq<Message>)
    ensures currentMessages == context + ToolExchange(AsMessage(response), response.toolCalls, search)
  {
    currentMessages := context;
    var calls := response.toolCalls;
    var i := 0;
    while i < |calls|
      invariant 0 <= i <= |calls|
      invariant currentMessages == context + ToolExchange(AsMessage(response), calls[..i], search)
    {
      var toolCall := calls[i];
      assert calls[..i + 1][..i] == calls[..i];
      if toolCall.name == SEARCH_TOOL {
        var toolResult := search(toolCall.query);
        var toolMsg := ToolResult(toolResult, toolCall.name, toolCall.id);
        currentMessages := currentMessages + [AI(response.content, response.toolCalls)];
        currentMessages := currentMessages + [toolMsg];
      }
      i := i + 1;
    }
    assert calls[..i] == calls;
  }

  // ---------------------------------------------------------------- workers

  /** `state.get("current_topic", "General Knowledge")` */
  function WorkerTopic(state: AgentState): string {
    state.currentTopic.GetOr("General Knowledge")
  }

  /** `tutor_node`: the tool loop under the tutor prompt; only `tutor_output` is written. */
  method TutorNode(state: AgentState, caps: Capabilities) returns (d: Delta)
    ensures d == NoUpdate.(tutorOutput := Put(Some(ToolLoopReply(caps.prompts.tutorWorker(WorkerTopic(state)), state, caps))))
    ensures ScratchOnly(d)
  {
    var topic := WorkerTopic(state);
    var promptStr := caps.prompts.tutorWorker(topic);
    var content, _ := RunToolLoop(promptStr, state, caps);
    return NoUpdate.(tutorOutput := Put(Some(content)));
  }

  /** `judge_node`: the tool loop under the judge prompt; only `judge_output` is written. */
  method JudgeNode(state: AgentState, caps: Capabilities) returns (d: Delta)
    ensures d == NoUpdate.(judgeOutput := Put(Some(ToolLoopReply(caps.prompts.judgeWorker(WorkerTopic(state)), state, caps))))
    ensures ScratchOnly(d)
  {
    var topic := WorkerTopic(state);
    var promptStr := caps.prompts.judgeWorker(topic);
    var content, _ := RunToolLoop(promptStr, state, caps);
    return NoUpdate.(judgeOutput := Put(Some(content)));
  }

  /** `inquiry_node`: one plain model call whose prompt carries the judge's feedback ("无" when there is none). */
  function InquiryNode(state: AgentState, caps: Capabilities): (d: Delta)
    ensures ScratchOnly(d) && d.inquiryOutput.Put? && d.inquiryOutput.value.Some?
    ensures d.tutorOutput.Keep? && d.judgeOutput.Keep? && d.summaryOutput.Keep? && d.shouldExit.Keep?
    ensures Truthy(state.judgeOutput) ==> d.inquiryOutput == Put(Some(caps.chat(BuildInputs(state,
      caps.prompts.inquiryWorker(WorkerTopic(state), state.judgeOutput.value), caps))))
    ensures !Truthy(state.judgeOutput) ==> d.inquiryOutput == Put(Some(caps.chat(BuildInputs(state,
      caps.prompts.inquiryWorker(WorkerTopic(state), "无"), caps))))
  {
    var judgeFeedback := OrElse(state.judgeOutput, "无");
    var prompt := caps.prompts.inquiryWorker(WorkerTopic(state), judgeFeedback);
    NoUpdate.(inquiryOutput := Put(Some(caps.chat(BuildInputs(state, prompt, caps)))))
  }

  /**
   * `summary_node`: a concluding plan produces the note and raises the exit
   * flag, winning over a review request; a review request produces a recap
   * only; otherwise nothing changes. Only `summary_output` and `should_exit`
   * are ever written.
   */
  function SummaryNode(state: AgentState, caps: Capabilities): (d: Delta)
    ensures ScratchOnly(d)
    ensures d.tutorOutput.Keep? && d.judgeOutput.Keep? && d.inquiryOutput.Keep?
    ensures d == NoUpdate <==> !(state.plan.Some? && (state.plan.value.isConcluding || state.plan.value.requestSummary))
    ensures d.shouldExit != Keep <==> state.plan.Some? && state.plan.value.isConcluding
    ensures d.shouldExit != Keep ==> d.shouldExit == Put(true)
    ensures d.summaryOutput != Keep ==> d.summaryOutput.value.Some?
    ensures state.plan.Some? && state.plan.value.isConcluding ==>
      d.summaryOutput == Put(Some(caps.chat(BuildInputs(state, caps.prompts.summarizerNote, caps))))
    ensures state.plan.Some? && !state.plan.value.isConcluding && state.plan.value.requestSummary ==>
      d.summaryOutput == Put(Some(caps.chat(BuildInputs(state, caps.prompts.summarizerReview, caps))))
  {
    match state.plan
    case Some(plan) =>
      if plan.isConcluding then
        var summaryText := caps.chat(BuildInputs(state, caps.prompts.summarizerNote, caps));
        NoUpdate.(summaryOutput := Put(Some(summaryText)), shouldExit := Put(true))
      else if plan.requestSummary then
        NoUpdate.(summaryOutput := Put(Some(caps.chat(BuildInputs(state, caps.prompts.summarizerReview, caps)))))
      else NoUpdate
    case None => NoUpdate
  }

  // ---------------------------------------------------------------- aggregator

  const CLARIFICATION: string := "我似乎没听懂你的意思，能再说具体点吗？"

  /** The synthesis input: the filled-in aggregator prompt and the latest message, if any. */
  function SynthesisInputs(state: AgentState, caps: Capabilities): seq<Message> {
    var prompt := caps.prompts.aggregatorSystem(
      OrElse(state.tutorOutput, ""), OrElse(state.judgeOutput, ""),
      OrElse(state.inquiryOutput, ""), OrElse(state.summaryOutput, ""));
    [System(prompt)] + (if state.messages != [] then [state.messages[|state.messages| - 1]] else [])
  }

  /** Every worker output is empty or absent. */
  predicate NothingProduced(state: AgentState) {
    !Truthy(state.tutorOutput) && !Truthy(state.judgeOutput)
    && !Truthy(state.inquiryOutput) && !Truthy(state.summaryOutput)
  }

  /**
   * The reply of the turn: the note verbatim when exiting; the fixed
   * clarification when no worker produced anything; otherwise the model's
   * synthesis of the outputs and the latest message.
   */
  function FinalReply(state: AgentState, caps: Capabilities): (r: string)
    ensures state.shouldExit ==> r == OrElse(state.summaryOutput, "")
    ensures !state.shouldExit && NothingProduced(state) ==> r == CLARIFICATION
    ensures !state.shouldExit && !NothingProduced(state) ==> r == caps.chat(SynthesisInputs(state, caps))
  {
    if state.shouldExit then OrElse(state.summaryOutput, "")
    else if NothingProduced(state) then CLARIFICATION
    else caps.chat(SynthesisInputs(state, caps))
  }

  /** The state with the reply appended, before compression. */
  function WithReply(state: AgentState, caps: Capabilities): AgentState {
    state.(messages := state.messages + [AI(FinalReply(state, caps), [])])
  }

  /** True when the compressor's summary differs from the stored one, the only case summary and cursor are replaced. */
  predicate SummaryChanged(state: AgentState, caps: Capabilities) {
    Some(Compress(WithReply(state, caps), caps.summarize).0) != state.conversationSummary
  }

  /** The state handed to `save_session`. */
  function StateToSave(state: AgentState, caps: Capabilities): (r: AgentState)
    ensures r.messages == state.messages + [AI(FinalReply(state, caps), [])]
    ensures r.conversationSummary == Some(Compress(WithReply(state, caps), caps.summarize).0)
    ensures SummaryChanged(state, caps) ==>
      r.summarizedMsgCount == Some(Compress(WithReply(state, caps), caps.summarize).1)
    ensures !SummaryChanged(state, caps) ==> r.summarizedMsgCount == state.summarizedMsgCount
    ensures r.sessionId == state.sessionId && r.currentTopic == state.currentTopic
    ensures r.shouldExit == state.shouldExit && r.summaryOutput == state.summaryOutput
    ensures r.plan == state.plan && r.tutorOutput == state.tutorOutput && r.judgeOutput == state.judgeOutput
    ensures r.inquiryOutput == state.inquiryOutput && r.lastIntent == state.lastIntent
  {
    var temp := WithReply(state, caps);
    var compressed := Compress(temp, caps.summarize);
    if SummaryChanged(state, caps) then
      temp.(conversationSummary := Some(compressed.0), summarizedMsgCount := Some(compressed.1))
    else temp
  }

  /** Reading `summarized_msg_count` from the saved state fails when it was never set. */
  datatype AggregatorError = MissingKey(key: string)

  /**
   * The aggregator's update as the source writes it: the reply, plus summary
   * and cursor read from the saved state, the cursor read without a default.
   */
  function AggregatorOutcomeAsWritten(state: AgentState, caps: Capabilities): (r: Result<Delta, AggregatorError>)
    ensures r.Failure? ==> r.error == MissingKey("summarized_msg_count") && state.summarizedMsgCount.None?
    ensures r.Success? ==> r.value.appended == [AI(FinalReply(state, caps), [])]
  {
    var saved := StateToSave(state, caps);
    if saved.summarizedMsgCount.None? then Failure(MissingKey("summarized_msg_count"))
    else Success(NoUpdate.(
      appended := [AI(FinalReply(state, caps), [])],
      conversationSummary := Put(saved.conversationSummary.value),
      summarizedMsgCount := Put(saved.summarizedMsgCount.value)))
  }

  /**
   * The aggregator's update with the cursor read under the same default of 0
   * the compressor uses, so that a state without a cursor cannot fail.
   */
  function AggregatorDelta(state: AgentState, caps: Capabilities): (d: Delta)
    ensures d.appended == [AI(FinalReply(state, caps), [])]
    ensures d.summarizedMsgCount.Put? && d.summarizedMsgCount.value >= Cursor(state)
    ensures ScratchOnly(d.(appended := [], conversationSummary := Keep, summarizedMsgCount := Keep))
    ensures d.conversationSummary.Put?
    ensures d.tutorOutput.Keep? && d.judgeOutput.Keep? && d.inquiryOutput.Keep? && d.summaryOutput.Keep?
    ensures d.shouldExit.Keep?
  {
    var saved := StateToSave(state, caps);
    NoUpdate.(
      appended := [AI(FinalReply(state, caps), [])],
      conversationSummary := Put(saved.conversationSummary.value),
      summarizedMsgCount := Put(Cursor(saved)))
  }

  /**
   * The source's read fails exactly when the cursor was never set and the
   * summary did not change; whenever it succeeds it yields the corrected update.
   */
  lemma {:induction false} AsWrittenAgrees(state: AgentState, caps: Capabilities)
    ensures var out := AggregatorOutcomeAsWritten(state, caps);
      && (out.Failure? <==> !SummaryChanged(state, caps) && state.summarizedMsgCount.None?)
      && (out.Success? ==> out.value == AggregatorDelta(state, caps))
  {
    var saved := StateToSave(state, caps);
    assert saved.summarizedMsgCount == if SummaryChanged(state, caps) then
      Some(Compress(WithReply(state, caps), caps.summarize).1) else state.summarizedMsgCount;
  }

  /**
   * A resumed session with a stored summary (every session holds one after
   * its first turn, "" at least) and no cursor (a reload never restores one)
   * makes the source's aggregator raise while fewer than 16 messages exist
   * after the reply: the compressor does not fire, the summary compares
   * equal, and the cursor is read from a state that lacks it.
   */
  lemma {:induction false} ShortResumeRaises(state: AgentState, caps: Capabilities)
    requires state.conversationSummary.Some? && state.summarizedMsgCount.None?
    requires |state.messages| + 1 < COMPRESSION_THRESHOLD
    ensures AggregatorOutcomeAsWritten(state, caps).Failure?
  {
    var temp := WithReply(state, caps);
    assert |temp.messages| - Cursor(temp) < COMPRESSION_THRESHOLD;
    assert Compress(temp, caps.summarize).0 == state.conversationSummary.value;
    AsWrittenAgrees(state, caps);
  }

  /**
   * The aggregator's update appends exactly the reply. Summary and cursor are
   * replaced by the compressor's only when its summary differs from the
   * stored one; otherwise they are written back unchanged, an unset cursor as 0.
   */
  lemma {:induction false} AggregatorMerge(state: AgentState, caps: Capabilities)
    ensures var d, c := AggregatorDelta(state, caps), Compress(WithReply(state, caps), caps.summarize);
      && d.appended == [AI(FinalReply(state, caps), [])]
      && d.conversationSummary == Put(c.0)
      && (SummaryChanged(state, caps) ==> d.summarizedMsgCount == Put(c.1))
      && (!SummaryChanged(state, caps) ==>
            d.summarizedMsgCount == Put(Cursor(state)) && state.conversationSummary == Some(c.0))
      && ScratchOnly(d.(appended := [], conversationSummary := Keep, summarizedMsgCount := Keep))
  {
  }

  /**
   * The cursor the aggregator leaves behind never moves backwards and, when it
   * pointed inside the transcript, still points inside the longer one.
   */
  lemma {:induction false} AggregatorCursor(state: AgentState, caps: Capabilities)
    ensures var after := Apply(state, AggregatorDelta(state, caps));
      && |after.messages| == |state.messages| + 1
      && Cursor(after) >= Cursor(state)
      && (CursorInRange(state) ==> CursorInRange(after))
  {
    var temp := WithReply(state, caps);
    assert Cursor(temp) == Cursor(state);
    var c := Compress(temp, caps.summarize);
    assert c.1 >= Cursor(state);
    assert CursorInRange(state) ==> c.1 <= |temp.messages|;
  }

  /**
   * The part of `aggregator_node` both readings share: pick the reply, append
   * it to a copy of the transcript, compress, take over summary and cursor
   * only if the summary changed, and save that state once.
   */
  method SaveTurn(state: AgentState, caps: Capabilities, store: SessionStore, now: string, today: string)
    returns (finalResponse: Message, stateToSave: AgentState)
    modifies store
    ensures finalResponse == AI(FinalReply(state, caps), [])
    ensures stateToSave == StateToSave(state, caps)
    ensures store.files == Saved(old(store.files), StateToSave(state, caps), now, today, caps.isAlnum)
  {
    var tutorOut := OrElse(state.tutorOutput, "");
    var judgeOut := OrElse(state.judgeOutput, "");
    var inquiryOut := OrElse(state.inquiryOutput, "");
    var summaryOut := OrElse(state.summaryOutput, "");
    if state.shouldExit {
      finalResponse := AI(summaryOut, []);
    } else if tutorOut == "" && judgeOut == "" && inquiryOut == "" && summaryOut == "" {
      assert NothingProduced(state);
      finalResponse := AI(CLARIFICATION, []);
    } else {
      assert !NothingProduced(state);
      var prompt := caps.prompts.aggregatorSystem(tutorOut, judgeOut, inquiryOut, summaryOut);
      var inputs := [System(prompt)];
      if state.messages != [] {
        inputs := inputs + [state.messages[|state.messages| - 1]];
      }
      assert inputs == SynthesisInputs(state, caps);
      finalResponse := AI(caps.chat(inputs), []);
    }
    assert finalResponse == AI(FinalReply(state, caps), []);
    var currentMessages := state.messages + [finalResponse];
    var tempState := state.(messages := currentMessages);
    assert tempState == WithReply(state, caps);
    var newSummary, newCursor := ManageMemory(tempState, caps.summarize);
    stateToSave := tempState;
    if Some(newSummary) != state.conversationSummary {
      stateToSave := stateToSave.(conversationSummary := Some(newSummary), summarizedMsgCount := Some(newCursor));
    }
    assert stateToSave == StateToSave(state, caps);
    var _ := store.SaveSession(stateToSave, now, today, caps.isAlnum);
  }

  /**
   * `aggregator_node` with the cursor read under a default of 0: save the
   * turn, then return the reply with summary and cursor.
   */
  method AggregatorNode(state: AgentState, caps: Capabilities, store: SessionStore, now: string, today: string)
    returns (d: Delta)
    modifies store
    ensures d == AggregatorDelta(state, caps)
    ensures store.files == Saved(old(store.files), StateToSave(state, caps), now, today, caps.isAlnum)
  {
    var finalResponse, stateToSave := SaveTurn(state, caps, store, now, today);
    return NoUpdate.(
      appended := [finalResponse],
      conversationSummary := Put(stateToSave.conversationSummary.value),
      summarizedMsgCount := Put(stateToSave.summarizedMsgCount.GetOr(0)));
  }

  /**
   * `aggregator_node` as written: the session is saved first, and only then
   * is the cursor read without a default, so a turn whose read fails has
   * already persisted its reply and summary.
   */
  method AggregatorNodeAsWritten(state: AgentState, caps: Capabilities, store: SessionStore, now: string, today: string)
    returns (r: Result<Delta, AggregatorError>)
    modifies store
    ensures r == AggregatorOutcomeAsWritten(state, caps)
    ensures store.files == Saved(old(store.files), StateToSave(state, caps), now, today, caps.isAlnum)
  {
    var finalResponse, stateToSave := SaveTurn(state, caps, store, now, today);
    if stateToSave.summarizedMsgCount.None? {
      return Failure(MissingKey("summarized_msg_count"));
    }
    return Success(NoUpdate.(
      appended := [finalResponse],
      conversationSummary := Put(stateToSave.conversationSummary.value),
      summarizedMsgCount := Put(stateToSave.summarizedMsgCount.value)));
  }

  /**
   * When the written aggregator raises for a session with an id, the store
   * already holds the snapshot of the turn: the transcript with the new reply
   * and the (unchanged) summary, at the session path.
   */
  lemma {:induction false} RaisedAfterSave(state: AgentState, caps: Capabilities, files: map<string, Document>,
                                           now: string, today: string)
    requires AggregatorOutcomeAsWritten(state, caps).Failure? && Truthy(state.sessionId)
    ensures var after, p := Saved(files, StateToSave(state, caps), now, today, caps.isAlnum),
                            SessionPath(state.sessionId.value).value;
      && p in after
      && after[p] == Json(SessionRecord(state.sessionId.value, now, TopicOrGeneral(state), state.conversationSummary,
                                        state.messages + [AI(FinalReply(state, caps), [])]))
  {
    var saved := StateToSave(state, caps);
    SavedWrites(files, saved, now, today, caps.isAlnum);
    AsWrittenAgrees(state, caps);
  }
}
