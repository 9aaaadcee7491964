/**
 * One invocation of the compiled graph: the analyzer, the nodes the plan
 * routes to, then the aggregator, each node's update merged into the state
 * before the next node runs.
 */
module Turn {
  import opened Wrappers
  import opened Models
  import opened Memory
  import opened Agent
  import opened Router

  /** The state once the analyzer's update is merged. */
  function Analyzed(state: AgentState, caps: Capabilities): AgentState {
    Apply(state, AnalyzerNode(state, caps))
  }

  /** The plan in force after the analyzer; no later node replaces it. */
  function PlanAfterAnalyzer(state: AgentState, caps: Capabilities): Option<ExecutionPlan> {
    Analyzed(state, caps).plan
  }

  lemma BetweenStep(node: Node, plan: Option<ExecutionPlan>, middle: seq<Node>)
    requires node != End && node != Aggregator && ((node == Tutor || node == Judge) ==> plan.Some?)
    requires middle + Between(node, plan) == Middle(plan)
    ensures (middle + [node]) + Between(Next(node, plan), plan) == Middle(plan)
  {
    ghost var rest := Between(Next(node, plan), plan);
    assert Between(node, plan) == [node] + rest;
    assert middle + ([node] + rest) == (middle + [node]) + rest;
  }

  /** The parts of the state that the nodes between analyzer and aggregator never write. */
  predicate Untouched(s: AgentState, s0: AgentState) {
    s.plan == s0.plan && s.messages == s0.messages && s.sessionId == s0.sessionId && s.currentTopic == s0.currentTopic
    && s.summarizedMsgCount == s0.summarizedMsgCount && s.conversationSummary == s0.conversationSummary
  }

  /**
   * The update a node between the analyzer and the aggregator returns on
   * state `s`; no other node runs there, and none is given an update.
   */
  function WorkerDelta(node: Node, s: AgentState, caps: Capabilities): Delta {
    match node
    case Tutor => NoUpdate.(tutorOutput := Put(Some(ToolLoopReply(caps.prompts.tutorWorker(WorkerTopic(s)), s, caps))))
    case Judge => NoUpdate.(judgeOutput := Put(Some(ToolLoopReply(caps.prompts.judgeWorker(WorkerTopic(s)), s, caps))))
    case Inquiry => InquiryNode(s, caps)
    case Summary => SummaryNode(s, caps)
    case _ => NoUpdate
  }

  /** The state after running `nodes` in order from `s`, each node's update merged before the next node runs. */
  function RunMiddle(s: AgentState, nodes: seq<Node>, caps: Capabilities): AgentState
    decreases |nodes|
  {
    if nodes == [] then s
    else
      var before := RunMiddle(s, nodes[..|nodes| - 1], caps);
      Apply(before, WorkerDelta(nodes[|nodes| - 1], before, caps))
  }

  /** The state the aggregator sees: the analyzer's update merged, then that of each node the plan routes to. */
  function Worked(state: AgentState, caps: Capabilities): AgentState {
    RunMiddle(Analyzed(state, caps), Middle(PlanAfterAnalyzer(state, caps)), caps)
  }

  /**
   * The state after the analyzer on a non-empty transcript: the plan it
   * chose, every scratch output cleared, everything else as before.
   */
  lemma {:induction false} AnalyzedClears(state: AgentState, caps: Capabilities)
    requires state.messages != []
    ensures var a := Analyzed(state, caps);
      && a.plan == PlanAfterAnalyzer(state, caps)
      && a.tutorOutput == None && a.judgeOutput == None && a.inquiryOutput == None && a.summaryOutput == None
      && a.messages == state.messages && a.shouldExit == state.shouldExit && a.currentTopic == state.currentTopic
  {
  }

  /** No node between the analyzer and the aggregator touches transcript, plan, id, topic, summary or cursor. */
  lemma {:induction false} RunMiddleKeeps(s: AgentState, nodes: seq<Node>, caps: Capabilities)
    ensures Untouched(RunMiddle(s, nodes, caps), s)
    decreases |nodes|
  {
    if nodes != [] {
      var before := RunMiddle(s, nodes[..|nodes| - 1], caps);
      RunMiddleKeeps(s, nodes[..|nodes| - 1], caps);
      var d := WorkerDelta(nodes[|nodes| - 1], before, caps);
      assert ScratchOnly(d);
    }
  }

  /** The turn's new transcript is the old one followed by the reply chosen from the outputs the routed nodes left. */
  lemma {:induction false} TurnReply(state: AgentState, caps: Capabilities)
    ensures var w := Worked(state, caps);
      Apply(w, AggregatorDelta(w, caps)).messages == state.messages + [AI(FinalReply(w, caps), [])]
  {
    var a := Analyzed(state, caps);
    RunMiddleKeeps(a, Middle(a.plan), caps);
  }

  /**
   * A turn whose plan asks for the tutor alone: the aggregator sees the
   * tutor's tool-loop answer and no other output; unless the turn exits, the
   * reply is the clarification text when the tutor said nothing, and
   * otherwise the model's synthesis of the tutor's answer and the latest message.
   */
  lemma {:induction false} TutorOnlyTurn(state: AgentState, caps: Capabilities)
    requires state.messages != [] && Middle(PlanAfterAnalyzer(state, caps)) == [Tutor]
    ensures var a, w := Analyzed(state, caps), Worked(state, caps);
      var tutor := ToolLoopReply(caps.prompts.tutorWorker(WorkerTopic(a)), a, caps);
      && w.tutorOutput == Some(tutor)
      && w.judgeOutput == None && w.inquiryOutput == None && w.summaryOutput == None
      && w.shouldExit == state.shouldExit
      && (!state.shouldExit && tutor == "" ==> FinalReply(w, caps) == CLARIFICATION)
      && (!state.shouldExit && tutor != "" ==>
            FinalReply(w, caps) == caps.chat([System(caps.prompts.aggregatorSystem(tutor, "", "", "")),
                                              state.messages[|state.messages| - 1]]))
  {
    var a := Analyzed(state, caps);
    AnalyzedClears(state, caps);
    var tutor := ToolLoopReply(caps.prompts.tutorWorker(WorkerTopic(a)), a, caps);
    var w := Worked(state, caps);
    assert [Tutor][..0] == [];
    assert w == Apply(a, NoUpdate.(tutorOutput := Put(Some(tutor))));
    assert w.messages == state.messages && w.shouldExit == state.shouldExit;
    assert w.judgeOutput == None && w.inquiryOutput == None && w.summaryOutput == None;
    if !state.shouldExit && tutor != "" {
      assert SynthesisInputs(w, caps) == [System(caps.prompts.aggregatorSystem(tutor, "", "", "")),
                                          state.messages[|state.messages| - 1]];
    }
  }

  /**
   * A turn whose plan concludes the session runs only the summary node, and
   * its reply is the note the model wrote, verbatim.
   */
  lemma {:induction false} ConcludingTurn(state: AgentState, caps: Capabilities)
    requires state.messages != [] && PlanAfterAnalyzer(state, caps).Some? && PlanAfterAnalyzer(state, caps).value.isConcluding
    ensures Middle(PlanAfterAnalyzer(state, caps)) == [Summary]
    ensures var a, w := Analyzed(state, caps), Worked(state, caps);
      var note := caps.chat(BuildInputs(a, caps.prompts.summarizerNote, caps));
      && w.shouldExit && w.summaryOutput == Some(note)
      && FinalReply(w, caps) == note
  {
    var a := Analyzed(state, caps);
    AnalyzedClears(state, caps);
    assert [Summary][..0] == [];
    var d := SummaryNode(a, caps);
    assert Worked(state, caps) == Apply(a, d);
  }

  /**
   * A planner that returns no plan without raising sends the turn from the
   * analyzer straight to the aggregator with every output cleared, so unless
   * the turn exits the reply is the clarification text.
   */
  lemma {:induction false} NoPlanTurn(state: AgentState, caps: Capabilities)
    requires state.messages != [] && caps.planner(AnalyzerInputs(state, caps)).NoPlan?
    ensures Middle(PlanAfterAnalyzer(state, caps)) == []
    ensures Worked(state, caps).plan == None && NothingProduced(Worked(state, caps))
    ensures !state.shouldExit ==> FinalReply(Worked(state, caps), caps) == CLARIFICATION
  {
  }

  /** Run one of the nodes between the analyzer and the aggregator and merge its update. */
  method RunWorker(node: Node, s: AgentState, caps: Capabilities) returns (s': AgentState)
    requires node in {Tutor, Judge, Inquiry, Summary}
    ensures s' == Apply(s, WorkerDelta(node, s, caps))
    ensures Untouched(s', s)
  {
    var d: Delta;
    match node {
      case Tutor => d := TutorNode(s, caps);
      case Judge => d := JudgeNode(s, caps);
      case Inquiry => d := InquiryNode(s, caps);
      case Summary => d := SummaryNode(s, caps);
    }
    s' := Apply(s, d);
  }

  /**
   * The stretch between the analyzer and the aggregator: follow the routing
   * from the analyzer's branch, running each node reached, until the
   * aggregator is next. Transcript, plan, summary and cursor stay as they were.
   */
  method RunWorkers(s0: AgentState, caps: Capabilities) returns (s: AgentState, ghost middle: seq<Node>)
    ensures middle == Middle(s0.plan)
    ensures s == RunMiddle(s0, middle, caps)
    ensures Untouched(s, s0)
  {
    ghost var plan := s0.plan;
    s := s0;
    BetweenIsMiddle(plan);
    middle := [];
    var node := Next(Analyzer, s.plan);
    while node != Aggregator
      invariant node != Start && node != Analyzer && node != End
      invariant Untouched(s, s0) && s.plan == plan
      invariant (node == Tutor || node == Judge) ==> plan.Some?
      invariant middle + Between(node, plan) == Middle(plan)
      invariant s == RunMiddle(s0, middle, caps)
      decreases 6 - Rank(node)
    {
      s := RunWorker(node, s, caps);
      BetweenStep(node, plan, middle);
      assert (middle + [node])[..|middle|] == middle;
      middle := middle + [node];
      node := Next(node, s.plan);
    }
    assert middle + [] == middle;
  }

  /**
   * Run a turn. `visited` lists the nodes in the order they run, and the
   * new state is the aggregator's update merged into the state those nodes
   * leave behind. The transcript grows by exactly the reply, the session id is kept, and the
   * cursor neither moves backwards nor leaves the transcript. With a session
   * id, the store then holds the snapshot of the new transcript and summary
   * at the session path, and nothing but the snapshot and the note changed.
   */
  method RunTurn(state: AgentState, caps: Capabilities, store: SessionStore, now: string, today: string)
    returns (r: AgentState, ghost visited: seq<Node>)
    modifies store
    ensures visited == [Start, Analyzer] + Middle(PlanAfterAnalyzer(state, caps)) + [Aggregator, End]
    ensures r == Apply(Worked(state, caps), AggregatorDelta(Worked(state, caps), caps))
    ensures r.messages == state.messages + [AI(FinalReply(Worked(state, caps), caps), [])]
    ensures |r.messages| == |state.messages| + 1
    ensures r.messages[..|state.messages|] == state.messages
    ensures r.messages[|state.messages|].AI?
    ensures r.sessionId == state.sessionId
    ensures Cursor(r) >= Cursor(state)
    ensures CursorInRange(state) ==> CursorInRange(r)
    ensures r.conversationSummary.Some?
    ensures store.files == Saved(old(store.files), StateToSave(Worked(state, caps), caps), now, today, caps.isAlnum)
    ensures !Truthy(state.sessionId) ==> store.files == old(store.files)
    ensures Truthy(state.sessionId) ==>
      var id := state.sessionId.value;
      var p := SessionPath(id).value;
      && p in store.files
      && store.files[p] == Json(SessionRecord(id, now, state.currentTopic.GetOr("General"), r.conversationSummary, r.messages))
    ensures Truthy(state.sessionId) ==>
      var id := state.sessionId.value;
      var p, q := SessionPath(id).value, NotePath(id, state.currentTopic, caps.isAlnum);
      && store.files.Keys <= old(store.files).Keys + {p, q}
      && forall k | k in old(store.files) && k != p && k != q :: k in store.files && store.files[k] == old(store.files)[k]
  {
    var analyzed := Analyzed(state, caps);
    var s, middle := RunWorkers(analyzed, caps);
    assert s == Worked(state, caps);
    TurnReply(state, caps);
    visited := [Start, Analyzer] + middle + [Aggregator, End];
    ghost var before := store.files;
    var d := AggregatorNode(s, caps, store, now, today);
    AggregatorCursor(s, caps);
    r := Apply(s, d);
    assert r.messages == state.messages + [AI(FinalReply(s, caps), [])];
    SavedWrites(before, StateToSave(s, caps), now, today, caps.isAlnum);
  }
}
