/**
 * The turn graph: its nodes, the edges declared when the graph is built,
 * and the plan-driven routing functions that pick one edge at each branch.
 */
module Router {
  import opened Wrappers
  import opened Models

  datatype Node = Start | Analyzer | Tutor | Judge | Inquiry | Summary | Aggregator | End

  /** The edges the graph declares: fixed edges and the targets of each conditional edge map. */
  function Successors(n: Node): set<Node> {
    match n
    case Start => {Analyzer}
    case Analyzer => {Tutor, Judge, Inquiry, Summary, Aggregator}
    case Tutor => {Judge, Inquiry, Aggregator}
    case Judge => {Inquiry, Aggregator}
    case Inquiry => {Aggregator}
    case Summary => {Aggregator}
    case Aggregator => {End}
    case End => {}
  }

  /** Position in the waterfall; every declared edge goes strictly forward. */
  function Rank(n: Node): nat {
    match n
    case Start => 0
    case Analyzer => 1
    case Tutor => 2
    case Judge => 3
    case Inquiry => 4
    case Summary => 4
    case Aggregator => 5
    case End => 6
  }

  /**
   * Branch after the analyzer: no plan goes straight to the aggregator; a
   * summary request or a conclusion wins over every worker flag; otherwise
   * the first flag set among tutor, judge, inquiry; otherwise the aggregator.
   */
  function RouteFromAnalyzer(plan: Option<ExecutionPlan>): (r: Node)
    ensures r in Successors(Analyzer)
    ensures plan.Some? && (plan.value.requestSummary || plan.value.isConcluding) <==> r == Summary
    ensures (r == Tutor || r == Judge) ==> plan.Some?
  {
    match plan
    case None => Aggregator
    case Some(p) =>
      if p.requestSummary || p.isConcluding then Summary
      else if p.needsTutorAnswer then Tutor
      else if p.needsJudge then Judge
      else if p.needsInquiry then Inquiry
      else Aggregator
  }

  /** Branch after the tutor: judge, then inquiry, then the aggregator. */
  function RouteFromTutor(plan: ExecutionPlan): (r: Node)
    ensures r in Successors(Tutor)
  {
    if plan.needsJudge then Judge
    else if plan.needsInquiry then Inquiry
    else Aggregator
  }

  /** Branch after the judge: inquiry, then the aggregator. */
  function RouteFromJudge(plan: ExecutionPlan): (r: Node)
    ensures r in Successors(Judge)
  {
    if plan.needsInquiry then Inquiry else Aggregator
  }

  /** The summary node always hands over to the aggregator. */
  function RouteFromSummary(): (r: Node)
    ensures r in Successors(Summary)
  {
    Aggregator
  }

  /**
   * One step of the graph under a plan. The tutor and judge branches read
   * the plan's flags, so they need one; they are reached only with one.
   */
  function Next(n: Node, plan: Option<ExecutionPlan>): (r: Node)
    requires n != End
    requires (n == Tutor || n == Judge) ==> plan.Some?
    ensures r in Successors(n)
    ensures Rank(n) < Rank(r)
    ensures (r == Tutor || r == Judge) ==> plan.Some?
    ensures r == End <==> n == Aggregator
  {
    match n
    case Start => Analyzer
    case Analyzer => RouteFromAnalyzer(plan)
    case Tutor => RouteFromTutor(plan.value)
    case Judge => RouteFromJudge(plan.value)
    case Inquiry => Aggregator
    case Summary => RouteFromSummary()
    case Aggregator => End
  }

  /** The nodes visited from `n` to the end when the plan does not change along the way. */
  function Trace(n: Node, plan: Option<ExecutionPlan>): seq<Node>
    requires (n == Tutor || n == Judge) ==> plan.Some?
    decreases 6 - Rank(n)
  {
    if n == End then [End] else [n] + Trace(Next(n, plan), plan)
  }

  /** The worker flags, kept in the fixed order tutor, judge, inquiry. */
  function Flagged(p: ExecutionPlan): seq<Node> {
    (if p.needsTutorAnswer then [Tutor] else [])
    + (if p.needsJudge then [Judge] else [])
    + (if p.needsInquiry then [Inquiry] else [])
  }

  /** What runs between the analyzer and the aggregator under a plan. */
  function Middle(plan: Option<ExecutionPlan>): seq<Node> {
    match plan
    case None => []
    case Some(p) => if p.requestSummary || p.isConcluding then [Summary] else Flagged(p)
  }

  lemma {:induction false} TraceFromInquiry(plan: Option<ExecutionPlan>)
    ensures Trace(Inquiry, plan) == [Inquiry, Aggregator, End]
  {
    assert Trace(Aggregator, plan) == [Aggregator] + Trace(End, plan);
  }

  lemma {:induction false} TraceFromJudge(p: ExecutionPlan)
    ensures Trace(Judge, Some(p)) == [Judge] + (if p.needsInquiry then [Inquiry] else []) + [Aggregator, End]
  {
    assert Trace(Aggregator, Some(p)) == [Aggregator] + Trace(End, Some(p));
    TraceFromInquiry(Some(p));
  }

  lemma {:induction false} TraceFromTutor(p: ExecutionPlan)
    ensures Trace(Tutor, Some(p)) ==
      [Tutor] + (if p.needsJudge then [Judge] else []) + (if p.needsInquiry then [Inquiry] else [])
      + [Aggregator, End]
  {
    assert Trace(Aggregator, Some(p)) == [Aggregator] + Trace(End, Some(p));
    TraceFromInquiry(Some(p));
    TraceFromJudge(p);
  }

  /**
   * The whole turn: start, analyzer, then the summary node alone for a
   * summary or concluding plan, otherwise exactly the flagged workers in the
   * order tutor, judge, inquiry (none without a plan), then aggregator and end.
   */
  lemma {:induction false} TurnRoute(plan: Option<ExecutionPlan>)
    ensures Trace(Start, plan) == [Start, Analyzer] + Middle(plan) + [Aggregator, End]
    ensures |Middle(plan)| <= 3
  {
    var agg := Trace(Aggregator, plan);
    assert agg == [Aggregator] + Trace(End, plan);
    assert Trace(Start, plan) == [Start] + Trace(Analyzer, plan);
    assert Trace(Analyzer, plan) == [Analyzer] + Trace(RouteFromAnalyzer(plan), plan);
    match plan
    case None =>
    case Some(p) =>
      if p.requestSummary || p.isConcluding {
        assert Trace(Summary, plan) == [Summary] + agg;
      } else if p.needsTutorAnswer {
        TraceFromTutor(p);
      } else if p.needsJudge {
        TraceFromJudge(p);
      } else if p.needsInquiry {
        TraceFromInquiry(plan);
      }
  }

  /** No node is visited twice in a turn: ranks strictly increase along a trace, which ends at End. */
  lemma {:induction false} TraceIncreasing(n: Node, plan: Option<ExecutionPlan>)
    requires (n == Tutor || n == Judge) ==> plan.Some?
    ensures var t := Trace(n, plan);
      && t[0] == n && t[|t| - 1] == End
      && forall i | 0 <= i < |t| - 1 :: Rank(t[i]) < Rank(t[i + 1])
    decreases 6 - Rank(n)
  {
    if n != End {
      var m := Next(n, plan);
      TraceIncreasing(m, plan);
      var t, rest := Trace(n, plan), Trace(m, plan);
      assert t == [n] + rest;
      forall i | 0 <= i < |t| - 1
        ensures Rank(t[i]) < Rank(t[i + 1])
      {
        if i > 0 {
          assert t[i] == rest[i - 1] && t[i + 1] == rest[i];
        }
      }
    }
  }

  /** The nodes from `n` up to, but not including, the aggregator. */
  function Between(n: Node, plan: Option<ExecutionPlan>): seq<Node>
    requires n != End && ((n == Tutor || n == Judge) ==> plan.Some?)
    decreases 6 - Rank(n)
  {
    if n == Aggregator then [] else [n] + Between(Next(n, plan), plan)
  }

  /** What runs after the analyzer and before the aggregator is the middle of the turn route. */
  lemma {:induction false} BetweenIsMiddle(plan: Option<ExecutionPlan>)
    ensures Between(RouteFromAnalyzer(plan), plan) == Middle(plan)
  {
    assert Between(Aggregator, plan) == [];
    assert Between(Inquiry, plan) == [Inquiry];
    match plan
    case None =>
    case Some(p) =>
      assert Between(Summary, plan) == [Summary];
      assert Between(Judge, plan) == [Judge] + (if p.needsInquiry then [Inquiry] else []);
      assert Between(Tutor, plan) == [Tutor] + (if p.needsJudge then [Judge] else []) + (if p.needsInquiry then [Inquiry] else []);
  }
}
