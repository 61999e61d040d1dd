/** What each node of the graph posts, node by node, and which paths its edges allow. */
module GraphMeaning {
  import opened Domain
  import opened GraphTrace

  // ── What a node posts ──

  // The event that a node posts for what it decided, if it did.
  ghost predicate Notes(n: Node, o: Outcome, ty: EventType)
    requires o.Returned?
  {
    match n
    case IntakeNormalization => o.directives && ty == DirectivesAccepted
    case ProfileSelector => ty == ProfileSelected
    case HypothesisBuilder => ty == HypothesisCreated
    case InvestigationRound => ty == ResearchQueryPlanned
    case GapAnalysis => ty == GapDetected
    case SkepticReview => o.issues && ty == ReviewIssueFound
    case ToolFingerprint => false
    case AuditPlanBuilder => false
    case FreezeEvidenceBoard => false
    case CheckExecution => false
    case PersistCheckResults => false
    case PassportDraft => false
    case HumanReviewGate => false
  }

  // The types of the events of a visit, in the order in which they are posted.
  ghost predicate Types(n: Node, o: Outcome, types: seq<EventType>) {
    if o.Raised? then types == [NodeStarted, ErrorReported]
    else if n == HumanReviewGate then types == [NodeStarted, NodeFinished] + (if o.waiting then [ApprovalRequired] else [])
    else if |types| == 3 then types[0] == NodeStarted && Notes(n, o, types[1]) && types[2] == NodeFinished
    else types == [NodeStarted, NodeFinished] && forall ty :: !Notes(n, o, ty)
  }

  ghost predicate NamedNode(n: Node, name: string) {
    match n
    case IntakeNormalization => name == "intake_normalization"
    case ToolFingerprint => name == "tool_fingerprint"
    case ProfileSelector => name == "profile_selector"
    case AuditPlanBuilder => name == "audit_plan_builder"
    case HypothesisBuilder => name == "hypothesis_builder"
    case InvestigationRound => name == "investigation_round"
    case GapAnalysis => name == "gap_analysis"
    case FreezeEvidenceBoard => name == "freeze_evidence_board"
    case CheckExecution => name == "check_execution"
    case SkepticReview => name == "skeptic_review"
    case PersistCheckResults => name == "persist_check_results"
    case PassportDraft => name == "passport_draft"
    case HumanReviewGate => name == "human_review_gate"
  }

  // Each event carries the node's name and the payload of its type.
  ghost predicate Carries(n: Node, v: Visit, trace: seq<Posted>, types: seq<EventType>) {
    && |trace| == |types|
    && forall i :: 0 <= i < |trace| ==>
         NamedNode(n, trace[i].nodeId) && trace[i].eventType == types[i] && trace[i].payload == v.payloads(types[i])
  }

  lemma {:induction false} PostCarries(n: Node, v: Visit, ty: EventType)
    ensures NamedNode(n, Post(n, v, ty).nodeId) && Post(n, v, ty).eventType == ty && Post(n, v, ty).payload == v.payloads(ty)
  {
  }

  // The trace of a node is that of its table: started, error; or started, what it noted, finished; and the gate
  // asks for approval after it has finished.
  lemma {:induction false} NodeTraceSays(n: Node, v: Visit) returns (types: seq<EventType>)
    ensures Types(n, v.outcome, types) && Carries(n, v, NodeTrace(n, v), types)
  {
    hide Post, NodeTrace, NamedNode, Types;
    types := NodeTraceTypes(n, v);
    var trace := NodeTrace(n, v);
    forall i | 0 <= i < |trace|
      ensures NamedNode(n, trace[i].nodeId) && trace[i].eventType == types[i] && trace[i].payload == v.payloads(types[i])
    {
      PostCarries(n, v, types[i]);
    }
  }

  lemma {:induction false} NodeTraceTypes(n: Node, v: Visit) returns (types: seq<EventType>)
    ensures Types(n, v.outcome, types)
    ensures |NodeTrace(n, v)| == |types| && forall i :: 0 <= i < |types| ==> NodeTrace(n, v)[i] == Post(n, v, types[i])
  {
    hide Post, Select, Notes, DecisionEvents;
    if v.outcome.Raised? {
      types := [NodeStarted, ErrorReported];
    } else {
      DecisionsSelected(n, v);
      DecisionIsNoted(n, v);
      var d := DecisionEvents(n, v);
      types := if d == [] then [NodeStarted, NodeFinished]
               else if n == HumanReviewGate then [NodeStarted, NodeFinished, ApprovalRequired]
               else [NodeStarted, d[0].eventType, NodeFinished];
    }
  }

  lemma {:induction false} DecisionIsNoted(n: Node, v: Visit)
    requires v.outcome.Returned?
    ensures var d := DecisionEvents(n, v);
            if n == HumanReviewGate then d == if v.outcome.waiting then [Post(n, v, ApprovalRequired)] else []
            else if d == [] then forall ty :: !Notes(n, v.outcome, ty)
            else d == [Post(n, v, d[0].eventType)] && Notes(n, v.outcome, d[0].eventType)
  {
    hide NodeId;
  }

  // ── Which way the edges lead ──

  predicate Edge(a: Node, b: Node) {
    match a
    case IntakeNormalization => b == ToolFingerprint
    case ToolFingerprint => b == ProfileSelector
    case ProfileSelector => b == AuditPlanBuilder
    case AuditPlanBuilder => b == HypothesisBuilder
    case HypothesisBuilder => b == InvestigationRound
    case InvestigationRound => b == GapAnalysis
    case GapAnalysis => b == InvestigationRound || b == FreezeEvidenceBoard
    case FreezeEvidenceBoard => b == CheckExecution
    case CheckExecution => b == SkepticReview
    case SkepticReview => b == PersistCheckResults
    case PersistCheckResults => b == PassportDraft
    case PassportDraft => b == HumanReviewGate
    case HumanReviewGate => false
  }

  // From `start`, along the edges, to the gate.
  ghost predicate Walk(start: Node, nodes: seq<Node>) {
    && nodes != [] && nodes[0] == start && nodes[|nodes| - 1] == HumanReviewGate
    && forall i :: 0 <= i < |nodes| - 1 ==> Edge(nodes[i], nodes[i + 1])
  }

  lemma {:induction false} WalkOn(start: Node, nodes: seq<Node>)
    requires Walk(start, nodes) && start != HumanReviewGate
    ensures |nodes| >= 2 && Edge(start, nodes[1]) && Walk(nodes[1], nodes[1..]) && nodes == [start] + nodes[1..]
  {
    forall i | 0 <= i < |nodes[1..]| - 1 ensures Edge(nodes[1..][i], nodes[1..][i + 1]) {
      assert Edge(nodes[i + 1], nodes[i + 2]);
    }
  }

  lemma {:induction false} WalkFrom(a: Node, b: Node, rest: seq<Node>)
    requires Walk(b, rest) && Edge(a, b)
    ensures Walk(a, [a] + rest)
  {
    var nodes := [a] + rest;
    forall i | 0 <= i < |nodes| - 1 ensures Edge(nodes[i], nodes[i + 1]) {
      if i > 0 { assert Edge(rest[i - 1], rest[i]); }
    }
  }

  lemma {:induction false} AtGate(nodes: seq<Node>)
    requires Walk(HumanReviewGate, nodes)
    ensures nodes == [HumanReviewGate]
  {
    assert |nodes| > 1 ==> Edge(nodes[0], nodes[1]);
  }

  // A walk along nodes that each have one edge.
  ghost predicate OneWay(list: seq<Node>, after: Node) {
    list != [] && forall i, b :: 0 <= i < |list| && Edge(list[i], b) ==> b == (if i + 1 < |list| then list[i + 1] else after)
  }

  lemma {:induction false} GoesAlong(list: seq<Node>, after: Node, nodes: seq<Node>)
    requires OneWay(list, after) && HumanReviewGate !in list && Walk(list[0], nodes)
    ensures |nodes| > |list| && nodes[..|list|] == list && Walk(after, nodes[|list|..])
  {
    hide Walk, Edge;
    WalkOn(list[0], nodes);
    if |list| == 1 {
      assert nodes[1] == after;
    } else {
      var rest := list[1..];
      assert nodes[1] == list[1];
      forall i, b | 0 <= i < |rest| && Edge(rest[i], b) ensures b == (if i + 1 < |rest| then rest[i + 1] else after) {
        assert Edge(list[i + 1], b);
      }
      GoesAlong(rest, after, nodes[1..]);
      assert nodes[1..][|rest|..] == nodes[|list|..];
      assert nodes[..|list|] == [nodes[0]] + nodes[1..][..|rest|];
    }
  }

  const LAST: seq<Node> := [FreezeEvidenceBoard, CheckExecution, SkepticReview, PersistCheckResults, PassportDraft]

  lemma {:induction false} FinallyIs(nodes: seq<Node>)
    requires Walk(FreezeEvidenceBoard, nodes)
    ensures nodes == FINALLY
  {
    GoesAlong(LAST, HumanReviewGate, nodes);
    AtGate(nodes[5..]);
    assert nodes == nodes[..5] + nodes[5..];
  }

  lemma {:induction false} OneRoundMore(rounds: nat)
    ensures Research(rounds + 1) == [InvestigationRound, GapAnalysis] + Research(rounds)
  {
    if rounds > 0 {
      OneRoundMore(rounds - 1);
    } else {
      assert Research(1) == Research(0) + [InvestigationRound, GapAnalysis];
    }
  }

  lemma {:induction false} RoundsThenFreeze(nodes: seq<Node>) returns (rounds: nat)
    requires Walk(InvestigationRound, nodes)
    ensures rounds >= 1 && nodes == Research(rounds) + FINALLY
    decreases |nodes|
  {
    hide Edge;
    GoesToGap(nodes);
    var rest := nodes[2..];
    OneRoundMore(0);
    if rest[0] == InvestigationRound {
      var more := RoundsThenFreeze(rest);
      rounds := more + 1;
      OneRoundMore(more);
    } else {
      rounds := 1;
      FinallyIs(rest);
    }
    assert nodes == nodes[..2] + rest;
  }

  lemma {:induction false} GoesToGap(nodes: seq<Node>)
    requires Walk(InvestigationRound, nodes)
    ensures |nodes| > 2 && nodes[..2] == [InvestigationRound, GapAnalysis]
    ensures Walk(InvestigationRound, nodes[2..]) || Walk(FreezeEvidenceBoard, nodes[2..])
  {
    WalkOn(InvestigationRound, nodes);
    WalkOn(GapAnalysis, nodes[1..]);
    assert nodes[1..][1..] == nodes[2..] && nodes[1..][1] == nodes[2];
  }

  lemma {:induction false} FinallyWalks()
    ensures Walk(FreezeEvidenceBoard, FINALLY)
  {
  }

  lemma {:induction false} RoundsWalk(rounds: nat)
    requires rounds >= 1
    ensures Walk(InvestigationRound, Research(rounds) + FINALLY)
  {
    hide Walk;
    OneRoundMore(rounds - 1);
    var rest := Research(rounds - 1) + FINALLY;
    if rounds > 1 { RoundsWalk(rounds - 1); } else { FinallyWalks(); assert rest == FINALLY; }
    var next := if rounds > 1 then InvestigationRound else FreezeEvidenceBoard;
    WalkFrom(GapAnalysis, next, rest);
    WalkFrom(InvestigationRound, GapAnalysis, [GapAnalysis] + rest);
    assert Research(rounds) + FINALLY == [InvestigationRound] + ([GapAnalysis] + rest);
  }

  // The ways through the graph are exactly the paths with at least one round of research.
  lemma {:induction false} WalksAreThePaths(nodes: seq<Node>)
    ensures Walk(IntakeNormalization, nodes) <==> exists rounds: nat :: rounds >= 1 && nodes == Path(rounds)
  {
    if Walk(IntakeNormalization, nodes) {
      GoesAlong(BEFORE, InvestigationRound, nodes);
      var rounds := RoundsThenFreeze(nodes[5..]);
      assert nodes == nodes[..5] + nodes[5..];
      assert nodes == Path(rounds);
    }
    if rounds: nat :| rounds >= 1 && nodes == Path(rounds) {
      PathWalks(rounds);
    }
  }

  lemma {:induction false} PathWalks(rounds: nat)
    requires rounds >= 1
    ensures Walk(IntakeNormalization, Path(rounds))
  {
    hide Walk, Research;
    RoundsWalk(rounds);
    var rest := Research(rounds) + FINALLY;
    WalkFrom(HypothesisBuilder, InvestigationRound, rest);
    WalkFrom(AuditPlanBuilder, HypothesisBuilder, [HypothesisBuilder] + rest);
    WalkFrom(ProfileSelector, AuditPlanBuilder, [AuditPlanBuilder] + ([HypothesisBuilder] + rest));
    WalkFrom(ToolFingerprint, ProfileSelector, [ProfileSelector] + ([AuditPlanBuilder] + ([HypothesisBuilder] + rest)));
    var tail := [ToolFingerprint] + ([ProfileSelector] + ([AuditPlanBuilder] + ([HypothesisBuilder] + rest)));
    WalkFrom(IntakeNormalization, ToolFingerprint, tail);
    assert Path(rounds) == [IntakeNormalization] + tail;
  }
}
