/**
 * The records the tutoring graph passes around: chat messages, the per-turn
 * execution plan, the session state with its per-node updates, and the
 * structured outputs the language model is asked to fill in.
 */
module Models {
  import opened Wrappers

  /** A tool invocation requested by the model; its arguments are reduced to the search query. */
  datatype ToolCall = ToolCall(name: string, query: string, id: string)

  /** LangChain's SystemMessage, HumanMessage, AIMessage and ToolMessage. */
  datatype Message =
    | System(content: string)
    | Human(content: string)
    | AI(content: string, toolCalls: seq<ToolCall>)
    | ToolResult(content: string, name: string, callId: string)

  /** The analyzer's decision record: five flags and a free-text rationale. */
  datatype ExecutionPlan = ExecutionPlan(
    needsTutorAnswer: bool,
    needsJudge: bool,
    needsInquiry: bool,
    requestSummary: bool,
    isConcluding: bool,
    thoughtProcess: string)

  /** The six fields of an ExecutionPlan, as the validator names them. */
  datatype PlanField =
    NeedsTutorAnswerField | NeedsJudgeField | NeedsInquiryField
    | RequestSummaryField | IsConcludingField | ThoughtProcessField

  /** What a failed model validation reports: the required fields that were not supplied. */
  datatype ValidationError = MissingFields(fields: set<PlanField>)

  function MissingPlanFields(
    needsTutorAnswer: Option<bool>, needsJudge: Option<bool>, needsInquiry: Option<bool>,
    requestSummary: Option<bool>, isConcluding: Option<bool>, thoughtProcess: Option<string>): set<PlanField>
  {
    (if needsTutorAnswer.None? then {NeedsTutorAnswerField} else {})
    + (if needsJudge.None? then {NeedsJudgeField} else {})
    + (if needsInquiry.None? then {NeedsInquiryField} else {})
    + (if requestSummary.None? then {RequestSummaryField} else {})
    + (if isConcluding.None? then {IsConcludingField} else {})
    + (if thoughtProcess.None? then {ThoughtProcessField} else {})
  }

  /**
   * Constructing an ExecutionPlan from keyword arguments (None = argument not
   * given). Every field is declared without a default, so construction succeeds
   * exactly when all six are given, and otherwise names each missing one.
   */
  function NewExecutionPlan(
    needsTutorAnswer: Option<bool>, needsJudge: Option<bool>, needsInquiry: Option<bool>,
    requestSummary: Option<bool>, isConcluding: Option<bool>, thoughtProcess: Option<string>)
    : (r: Result<ExecutionPlan, ValidationError>)
    ensures r.Success? <==>
      needsTutorAnswer.Some? && needsJudge.Some? && needsInquiry.Some?
      && requestSummary.Some? && isConcluding.Some? && thoughtProcess.Some?
    ensures r.Success? ==>
      && r.value.needsTutorAnswer == needsTutorAnswer.value
      && r.value.needsJudge == needsJudge.value
      && r.value.needsInquiry == needsInquiry.value
      && r.value.requestSummary == requestSummary.value
      && r.value.isConcluding == isConcluding.value
      && r.value.thoughtProcess == thoughtProcess.value
    ensures r.Failure? ==>
      && (NeedsTutorAnswerField in r.error.fields <==> needsTutorAnswer.None?)
      && (NeedsJudgeField in r.error.fields <==> needsJudge.None?)
      && (NeedsInquiryField in r.error.fields <==> needsInquiry.None?)
      && (RequestSummaryField in r.error.fields <==> requestSummary.None?)
      && (IsConcludingField in r.error.fields <==> isConcluding.None?)
      && (ThoughtProcessField in r.error.fields <==> thoughtProcess.None?)
  {
    var missing := MissingPlanFields(
      needsTutorAnswer, needsJudge, needsInquiry, requestSummary, isConcluding, thoughtProcess);
    if missing == {} then
      Success(ExecutionPlan(
        needsTutorAnswer.value, needsJudge.value, needsInquiry.value,
        requestSummary.value, isConcluding.value, thoughtProcess.value))
    else
      Failure(MissingFields(missing))
  }

  /**
   * The graph state. A key that is missing and a key that holds None are both
   * `None` here. `summarizedMsgCount` is the cursor: the first `count` messages
   * are covered by `conversationSummary`.
   */
  datatype AgentState = AgentState(
    messages: seq<Message>,
    currentTopic: Option<string>,
    sessionId: Option<string>,
    conversationSummary: Option<string>,
    summarizedMsgCount: Option<nat>,
    plan: Option<ExecutionPlan>,
    shouldExit: bool,
    tutorOutput: Option<string>,
    judgeOutput: Option<string>,
    inquiryOutput: Option<string>,
    summaryOutput: Option<string>,
    lastIntent: Option<string>)

  /** Python truthiness of an optional string: present and non-empty. */
  predicate Truthy(s: Option<string>) {
    s.Some? && s.value != ""
  }

  /** Python's `s or default` on an optional string. */
  function OrElse(s: Option<string>, default: string): string {
    if Truthy(s) then s.value else default
  }

  /** `state.get("summarized_msg_count", 0)` */
  function Cursor(s: AgentState): nat {
    s.summarizedMsgCount.GetOr(0)
  }

  /** The cursor's meaning: it points inside the transcript. */
  predicate CursorInRange(s: AgentState) {
    Cursor(s) <= |s.messages|
  }

  /** One key of a node's returned dictionary: absent, or a new value. */
  datatype Update<T> = Keep | Put(value: T)

  /** The dictionary a node returns; `appended` is the value of its "messages" key. */
  datatype Delta = Delta(
    appended: seq<Message>,
    plan: Update<Option<ExecutionPlan>>,
    tutorOutput: Update<Option<string>>,
    judgeOutput: Update<Option<string>>,
    inquiryOutput: Update<Option<string>>,
    summaryOutput: Update<Option<string>>,
    shouldExit: Update<bool>,
    conversationSummary: Update<string>,
    summarizedMsgCount: Update<nat>)

  /** The empty dictionary `{}`. */
  const NoUpdate: Delta := Delta([], Keep, Keep, Keep, Keep, Keep, Keep, Keep, Keep)

  /** After the merge, `next` is the new value when the key is present and `prev` when it is absent. */
  predicate Takes<T(==)>(prev: T, u: Update<T>, next: T) {
    (u.Keep? ==> next == prev) && (u.Put? ==> next == u.value)
  }

  function Merge<T>(prev: T, u: Update<T>): T {
    match u
    case Keep => prev
    case Put(v) => v
  }

  /**
   * How the graph folds a node's dictionary into the state: "messages" goes
   * through the add_messages reducer, which appends; every other key that is
   * present replaces the old value; absent keys leave the state alone.
   */
  function Apply(s: AgentState, d: Delta): (r: AgentState)
    ensures r.messages == s.messages + d.appended
    ensures |r.messages| == |s.messages| + |d.appended| && r.messages[..|s.messages|] == s.messages
    ensures r.sessionId == s.sessionId && r.currentTopic == s.currentTopic && r.lastIntent == s.lastIntent
    ensures Takes(s.plan, d.plan, r.plan) && Takes(s.shouldExit, d.shouldExit, r.shouldExit)
    ensures Takes(s.tutorOutput, d.tutorOutput, r.tutorOutput) && Takes(s.judgeOutput, d.judgeOutput, r.judgeOutput)
    ensures Takes(s.inquiryOutput, d.inquiryOutput, r.inquiryOutput)
    ensures Takes(s.summaryOutput, d.summaryOutput, r.summaryOutput)
    ensures d.conversationSummary.Keep? ==> r.conversationSummary == s.conversationSummary
    ensures d.conversationSummary.Put? ==> r.conversationSummary == Some(d.conversationSummary.value)
    ensures d.summarizedMsgCount.Keep? ==> r.summarizedMsgCount == s.summarizedMsgCount
    ensures d.summarizedMsgCount.Put? ==> r.summarizedMsgCount == Some(d.summarizedMsgCount.value)
    ensures d == NoUpdate ==> r == s
  {
    s.(messages := s.messages + d.appended,
       plan := Merge(s.plan, d.plan),
       tutorOutput := Merge(s.tutorOutput, d.tutorOutput),
       judgeOutput := Merge(s.judgeOutput, d.judgeOutput),
       inquiryOutput := Merge(s.inquiryOutput, d.inquiryOutput),
       summaryOutput := Merge(s.summaryOutput, d.summaryOutput),
       shouldExit := Merge(s.shouldExit, d.shouldExit),
       conversationSummary :=
         (match d.conversationSummary case Keep => s.conversationSummary case Put(v) => Some(v)),
       summarizedMsgCount :=
         (match d.summarizedMsgCount case Keep => s.summarizedMsgCount case Put(v) => Some(v)))
  }

  /** The verdict the judge is asked to return. */
  datatype EvaluationStatus = Correct | Incorrect | Partial

  datatype EvaluationOutput = EvaluationOutput(status: EvaluationStatus, feedback: string, analysis: string)

  datatype TopicDiscoveryOutput = TopicDiscoveryOutput(topic: string)

  function StatusLiteral(st: EvaluationStatus): string {
    match st
    case Correct => "correct"
    case Incorrect => "incorrect"
    case Partial => "partial"
  }

  /** Validation of the `status` literal: only the three spellings are accepted. */
  function ParseStatus(s: string): (r: Option<EvaluationStatus>)
    ensures r.Some? <==> s == "correct" || s == "incorrect" || s == "partial"
    ensures r.Some? ==> StatusLiteral(r.value) == s
  {
    if s == "correct" then Some(Correct)
    else if s == "incorrect" then Some(Incorrect)
    else if s == "partial" then Some(Partial)
    else None
  }

  lemma StatusRoundTrip(st: EvaluationStatus)
    ensures ParseStatus(StatusLiteral(st)) == Some(st)
  {
  }
}
