/** The events the orchestrator's graph posts, against the projection of the trust core. */
module GraphTrace {
  import opened Wrappers
  import opened Domain
  import opened Projection
  import Text

  datatype Node =
    | IntakeNormalization | ToolFingerprint | ProfileSelector | AuditPlanBuilder | HypothesisBuilder
    | InvestigationRound | GapAnalysis
    | FreezeEvidenceBoard | CheckExecution | SkepticReview | PersistCheckResults | PassportDraft | HumanReviewGate

  function NodeId(n: Node): string {
    match n
    case IntakeNormalization => "intake_normalization"
    case ToolFingerprint => "tool_fingerprint"
    case ProfileSelector => "profile_selector"
    case AuditPlanBuilder => "audit_plan_builder"
    case HypothesisBuilder => "hypothesis_builder"
    case InvestigationRound => "investigation_round"
    case GapAnalysis => "gap_analysis"
    case FreezeEvidenceBoard => "freeze_evidence_board"
    case CheckExecution => "check_execution"
    case SkepticReview => "skeptic_review"
    case PersistCheckResults => "persist_check_results"
    case PassportDraft => "passport_draft"
    case HumanReviewGate => "human_review_gate"
  }

  // What a node did: it raised, or returned updates, of which the events need these.
  datatype Outcome = Raised | Returned(directives: bool, issues: bool, waiting: bool)

  // With a payload, of which nothing is assumed, for each event type.
  datatype Visit = Visit(outcome: Outcome, payloads: EventType -> Payload)

  datatype Posted = Posted(nodeId: string, eventType: EventType, payload: Payload)

  function Post(n: Node, v: Visit, ty: EventType): Posted { Posted(NodeId(n), ty, v.payloads(ty)) }

  // `_decision_events`
  function DecisionEvents(n: Node, v: Visit): seq<Posted>
    requires v.outcome.Returned?
  {
    var o := v.outcome;
    if n == IntakeNormalization && o.directives then [Post(n, v, DirectivesAccepted)]
    else if n == ProfileSelector then [Post(n, v, ProfileSelected)]
    else if n == HypothesisBuilder then [Post(n, v, HypothesisCreated)]
    else if n == InvestigationRound then [Post(n, v, ResearchQueryPlanned)]
    else if n == GapAnalysis then [Post(n, v, GapDetected)]
    else if n == SkepticReview && o.issues then [Post(n, v, ReviewIssueFound)]
    else if n == HumanReviewGate && o.waiting then [Post(n, v, ApprovalRequired)]
    else []
  }

  function Select(events: seq<Posted>, approval: bool): seq<Posted> {
    if events == [] then []
    else
      var last := events[|events| - 1];
      var before := Select(events[..|events| - 1], approval);
      if (last.eventType == ApprovalRequired) == approval then before + [last] else before
  }

  // What an instrumented node posts: that it started, then its error, or its decisions, that it
  // finished, and last of all that approval is required.
  function NodeTrace(n: Node, v: Visit): seq<Posted> {
    if v.outcome.Raised? then [Post(n, v, NodeStarted), Post(n, v, ErrorReported)]
    else
      var decisions := DecisionEvents(n, v);
      [Post(n, v, NodeStarted)] + Select(decisions, false) + [Post(n, v, NodeFinished)] + Select(decisions, true)
  }

  // ── The trust core's side ──

  // The run row as its projections move it.
  datatype Row = Row(status: RunStatus, currentNode: Option<string>)

  function Accept(row: Row, e: Posted): Option<Row> {
    match Project(row.status, e.nodeId, e.eventType, e.payload)
    case Err(_) => None
    case Ok(p) => Some(Row(Coalesce(p.status, row.status), CoalesceNode(p.currentNode, row.currentNode)))
  }

  // The row after all events, if each is accepted in its turn.
  function AcceptAll(row: Row, events: seq<Posted>): Option<Row> {
    if events == [] then Some(row)
    else
      match AcceptAll(row, events[..|events| - 1])
      case None => None
      case Some(before) => Accept(before, events[|events| - 1])
  }

  lemma {:induction false} AcceptAllAppend(row: Row, a: seq<Posted>, b: seq<Posted>)
    ensures AcceptAll(row, a + b) == (match AcceptAll(row, a) case None => None case Some(mid) => AcceptAll(mid, b))
  {
    if b == [] {
      assert a + b == a;
    } else {
      var last := b[|b| - 1];
      AcceptAllAppend(row, a, b[..|b| - 1]);
      assert (a + b)[..|a + b| - 1] == a + b[..|b| - 1];
      assert (a + b)[|a + b| - 1] == last;
    }
  }

  // Stopping anywhere leaves an accepted trace.
  lemma {:induction false} PrefixAccepted(row: Row, events: seq<Posted>, k: nat)
    requires AcceptAll(row, events).Some? && k <= |events|
    ensures AcceptAll(row, events[..k]).Some?
  {
    AcceptAllAppend(row, events[..k], events[k..]);
    assert events[..k] + events[k..] == events;
  }

  // A client of the trust core with no other writer of the run.
  class Backend {
    var row: Row
    var posted: seq<Posted>

    constructor (row: Row)
      ensures this.row == row && posted == []
    {
      this.row := row;
      posted := [];
    }

    // `_append_required_event`: posted if the trust core accepts it.
    method Append(e: Posted) returns (ok: bool)
      modifies this
      ensures ok <==> Accept(old(row), e).Some?
      ensures ok ==> row == Accept(old(row), e).value && posted == old(posted) + [e]
      ensures !ok ==> row == old(row) && posted == old(posted)
    {
      var accepted := Accept(row, e);
      ok := accepted.Some?;
      if ok {
        row := accepted.value;
        posted := posted + [e];
      }
    }

    // The decisions that are, or are not, a request for approval, in order.
    method AppendSelected(decisions: seq<Posted>, approval: bool) returns (ok: bool)
      modifies this
      ensures ok <==> AcceptAll(old(row), Select(decisions, approval)).Some?
      ensures ok ==> AcceptAll(old(row), Select(decisions, approval)) == Some(row) && posted == old(posted) + Select(decisions, approval)
    {
      hide Accept, AcceptAll, Select;
      SelectNone(old(row), decisions, approval);
      for i := 0 to |decisions|
        invariant AcceptAll(old(row), Select(decisions[..i], approval)) == Some(row)
        invariant posted == old(posted) + Select(decisions[..i], approval)
      {
        SelectStep(decisions, i, approval);
        AcceptMore(old(row), Select(decisions[..i], approval), decisions[i]);
        if (decisions[i].eventType == ApprovalRequired) == approval {
          var appended := Append(decisions[i]);
          if !appended {
            SelectPrefix(old(row), decisions, i + 1, approval);
            return false;
          }
        }
      }
      assert decisions[..|decisions|] == decisions;
      ok := true;
    }

    // `_instrument_node`: a required event that is refused ends it.
    method RunNode(n: Node, v: Visit) returns (ok: bool)
      modifies this
      ensures ok <==> AcceptAll(old(row), NodeTrace(n, v)).Some?
      ensures ok ==> AcceptAll(old(row), NodeTrace(n, v)) == Some(row) && posted == old(posted) + NodeTrace(n, v)
    {
      hide Accept, AcceptAll, Select, DecisionEvents, Post;
      NodeTraceSplits(row, n, v);
      ok := Append(Post(n, v, NodeStarted));
      if !ok { return; }
      if v.outcome.Raised? {
        ok := Append(Post(n, v, ErrorReported));
        return;
      }
      var decisions := DecisionEvents(n, v);
      ok := AppendSelected(decisions, false);
      if !ok { return; }
      ok := Append(Post(n, v, NodeFinished));
      if !ok { return; }
      ok := AppendSelected(decisions, true);
    }
  }

  lemma {:induction false} SelectNone(row: Row, events: seq<Posted>, approval: bool)
    ensures Select(events[..0], approval) == [] && AcceptAll(row, []) == Some(row)
  {
  }

  lemma {:induction false} AcceptMore(row: Row, events: seq<Posted>, e: Posted)
    ensures AcceptAll(row, events + [e]) == ThenOne(AcceptAll(row, events), e)
  {
    assert (events + [e])[..|events|] == events;
  }

  function Then(row: Option<Row>, events: seq<Posted>): Option<Row> {
    match row case None => None case Some(r) => AcceptAll(r, events)
  }

  function ThenOne(row: Option<Row>, e: Posted): Option<Row> {
    match row case None => None case Some(r) => Accept(r, e)
  }

  // Accepting a node's events is accepting its parts in turn.
  lemma {:induction false} NodeTraceSplits(row: Row, n: Node, v: Visit)
    ensures v.outcome.Raised? ==>
              AcceptAll(row, NodeTrace(n, v)) == ThenOne(Accept(row, Post(n, v, NodeStarted)), Post(n, v, ErrorReported))
    ensures v.outcome.Returned? ==>
              var decisions := DecisionEvents(n, v);
              AcceptAll(row, NodeTrace(n, v)) ==
              Then(ThenOne(Then(Accept(row, Post(n, v, NodeStarted)), Select(decisions, false)), Post(n, v, NodeFinished)),
                  Select(decisions, true))
  {
    hide Accept, AcceptAll, Select, DecisionEvents, Post;
    var started, finished, error := Post(n, v, NodeStarted), Post(n, v, NodeFinished), Post(n, v, ErrorReported);
    AcceptOne(row, started);
    if v.outcome.Raised? {
      assert [started, error] == [started] + [error];
      AcceptAllAppend(row, [started], [error]);
      if Accept(row, started).Some? { AcceptOne(Accept(row, started).value, error); }
    } else {
      var first, last := Select(DecisionEvents(n, v), false), Select(DecisionEvents(n, v), true);
      AcceptAllAppend(row, [started], first);
      AcceptAllAppend(row, [started] + first, [finished]);
      AcceptAllAppend(row, [started] + first + [finished], last);
      var mid := AcceptAll(row, [started] + first);
      if mid.Some? { AcceptOne(mid.value, finished); }
    }
  }

  lemma {:induction false} AcceptOne(row: Row, e: Posted)
    ensures AcceptAll(row, [e]) == Accept(row, e)
  {
    assert [e][..0] == [];
    assert AcceptAll(row, [e][..0]) == Some(row);
  }

  lemma {:induction false} SelectStep(events: seq<Posted>, i: nat, approval: bool)
    requires i < |events|
    ensures Select(events[..i + 1], approval) ==
            if (events[i].eventType == ApprovalRequired) == approval then Select(events[..i], approval) + [events[i]]
            else Select(events[..i], approval)
  {
    assert events[..i + 1][..i] == events[..i];
  }

  // A refused event refuses every longer list.
  lemma {:induction false} SelectPrefix(row: Row, events: seq<Posted>, k: nat, approval: bool)
    requires k <= |events| && AcceptAll(row, Select(events[..k], approval)).None?
    ensures AcceptAll(row, Select(events, approval)).None?
    decreases |events| - k
  {
    if k == |events| {
      assert events[..k] == events;
    } else {
      SelectStep(events, k, approval);
      var s := Select(events[..k], approval);
      assert (s + [events[k]])[..|s|] == s;
      SelectPrefix(row, events, k + 1, approval);
    }
  }

  // ── The graph ──

  const BEFORE: seq<Node> := [IntakeNormalization, ToolFingerprint, ProfileSelector, AuditPlanBuilder, HypothesisBuilder]
  const FINALLY: seq<Node> := [FreezeEvidenceBoard, CheckExecution, SkepticReview, PersistCheckResults, PassportDraft, HumanReviewGate]

  function Research(rounds: nat): seq<Node> {
    if rounds == 0 then [] else Research(rounds - 1) + [InvestigationRound, GapAnalysis]
  }

  // The nodes the edges lead through, with so many rounds of research.
  function Path(rounds: nat): seq<Node> { BEFORE + Research(rounds) + FINALLY }

  // The nodes run in order, up to the first that raises.
  function PathTrace(nodes: seq<Node>, visits: seq<Visit>): seq<Posted>
    requires |nodes| == |visits|
  {
    if nodes == [] then []
    else NodeTrace(nodes[0], visits[0]) + (if visits[0].outcome.Raised? then [] else PathTrace(nodes[1..], visits[1..]))
  }

  lemma {:induction false} NodeIdTrimmed(n: Node)
    ensures Text.Trim(NodeId(n)) == NodeId(n)
  {
    Text.TrimIsProjection(NodeId(n));
  }

  // Event types that the projection accepts in any status and that change nothing.
  predicate Noted(ty: EventType) {
    ty.DirectivesAccepted? || ty.ProfileSelected? || ty.HypothesisCreated? || ty.ResearchQueryPlanned? || ty.GapDetected?
    || ty.ReviewIssueFound?
  }

  lemma {:induction false} NotedChangesNothing(row: Row, e: Posted)
    requires Noted(e.eventType)
    ensures AcceptAll(row, [e]) == Some(row)
  {
    hide AcceptAll;
    AcceptOne(row, e);
  }

  // There is at most one decision, and it is selected on one side.
  lemma {:induction false} DecisionsSelected(n: Node, v: Visit)
    requires v.outcome.Returned?
    ensures var d := DecisionEvents(n, v);
            var approval := n == HumanReviewGate && v.outcome.waiting;
            && |d| <= 1
            && Select(d, true) == (if approval then d else [])
            && Select(d, false) == (if approval then [] else d)
            && (approval ==> d == [Post(n, v, ApprovalRequired)])
            && (!approval ==> d == [] || (d == [d[0]] && Noted(d[0].eventType)))
  {
    hide Select, NodeId;
    var d := DecisionEvents(n, v);
    SelectAtMostOne(d, true);
    SelectAtMostOne(d, false);
    assert |d| == 1 ==> d == [d[0]];
  }

  lemma {:induction false} SelectAtMostOne(d: seq<Posted>, approval: bool)
    requires |d| <= 1
    ensures Select(d, approval) == if d != [] && (d[0].eventType == ApprovalRequired) == approval then d else []
  {
    if |d| == 1 {
      SelectStep(d, 0, approval);
      assert d[..1] == d && d[..0] == [];
    }
  }

  // The decisions before a node finishes change nothing; the one after it leaves the run waiting.
  lemma {:induction false} DecisionsAccepted(row: Row, n: Node, v: Visit)
    requires row.status == Running && v.outcome.Returned?
    ensures AcceptAll(row, Select(DecisionEvents(n, v), false)) == Some(row)
    ensures AcceptAll(row, Select(DecisionEvents(n, v), true)) == Some(
              if n == HumanReviewGate && v.outcome.waiting then Row(WaitingApproval, Some(NodeId(n))) else row)
  {
    hide NodeId, Select, DecisionEvents, AcceptAll;
    NodeIdTrimmed(n);
    DecisionsSelected(n, v);
    AcceptNone(row);
    var d := DecisionEvents(n, v);
    if n == HumanReviewGate && v.outcome.waiting {
      AcceptOne(row, d[0]);
    } else if d != [] {
      NotedChangesNothing(row, d[0]);
    }
  }

  lemma {:induction false} AcceptNone(row: Row)
    ensures AcceptAll(row, []) == Some(row)
  {
  }

  // From a run that is pending or running, a node's events are accepted, and leave it running at the
  // node, but for the gate, which leaves it waiting.
  lemma {:induction false} NodeAccepted(row: Row, n: Node, v: Visit)
    requires row.status == Pending || row.status == Running
    ensures AcceptAll(row, NodeTrace(n, v)) == Some(Row(
              if v.outcome.Returned? && n == HumanReviewGate && v.outcome.waiting then WaitingApproval else Running,
              Some(NodeId(n))))
  {
    hide NodeId, Select, DecisionEvents, AcceptAll;
    NodeIdTrimmed(n);
    NodeTraceSplits(row, n, v);
    if v.outcome.Returned? { DecisionsAccepted(Row(Running, Some(NodeId(n))), n, v); }
  }

  // The gate stands last, or not at all.
  ghost predicate GateIsLast(nodes: seq<Node>) {
    forall i :: 0 <= i < |nodes| - 1 ==> nodes[i] != HumanReviewGate
  }

  predicate NoneRaised(visits: seq<Visit>) { forall i :: 0 <= i < |visits| ==> visits[i].outcome.Returned? }

  lemma {:induction false} PathAccepted(nodes: seq<Node>, visits: seq<Visit>, row: Row)
    requires |nodes| == |visits| > 0 && GateIsLast(nodes) && (row.status == Pending || row.status == Running)
    ensures var after := AcceptAll(row, PathTrace(nodes, visits));
            && after.Some?
            && (!NoneRaised(visits) ==> after.value.status == Running)
            && (NoneRaised(visits) ==> after == Some(Row(
                  if nodes[|nodes| - 1] == HumanReviewGate && visits[|visits| - 1].outcome.waiting then WaitingApproval else Running,
                  Some(NodeId(nodes[|nodes| - 1])))))
    decreases |nodes|
  {
    hide AcceptAll, NodeTrace, NodeId;
    var first := NodeTrace(nodes[0], visits[0]);
    NodeAccepted(row, nodes[0], visits[0]);
    if visits[0].outcome.Raised? {
      assert PathTrace(nodes, visits) == first;
    } else if |nodes| == 1 {
      assert PathTrace(nodes[1..], visits[1..]) == [];
      assert PathTrace(nodes, visits) == first;
    } else {
      var mid := AcceptAll(row, first).value;
      PathAccepted(nodes[1..], visits[1..], mid);
      AcceptAllAppend(row, first, PathTrace(nodes[1..], visits[1..]));
      assert NoneRaised(visits) <==> NoneRaised(visits[1..]) by {
        if NoneRaised(visits[1..]) {
          forall i | 0 <= i < |visits| ensures visits[i].outcome.Returned? {
            if i > 0 { assert visits[1..][i - 1].outcome.Returned?; }
          }
        }
      }
    }
  }

  lemma {:induction false} ResearchHasNoGate(rounds: nat)
    ensures HumanReviewGate !in Research(rounds)
  {
    if rounds > 0 { ResearchHasNoGate(rounds - 1); }
  }

  lemma {:induction false} PathEndsAtGate(rounds: nat)
    ensures GateIsLast(Path(rounds)) && |Path(rounds)| > 0 && Path(rounds)[|Path(rounds)| - 1] == HumanReviewGate
  {
    ResearchHasNoGate(rounds);
    var p := Path(rounds);
    forall i | 0 <= i < |p| - 1 ensures p[i] != HumanReviewGate {
      if 5 <= i < 5 + |Research(rounds)| { assert p[i] == Research(rounds)[i - 5]; }
    }
  }

  // Whatever the nodes do, after any number of research rounds and whichever of them raises, every event
  // the graph posts for a fresh run is accepted in its turn, and so is every part cut off in between. A
  // graph that completes, its gate waiting, leaves the run waiting for approval at the gate.
  lemma {:induction false} GraphTraceAccepted(rounds: nat, visits: seq<Visit>, k: nat)
    requires |visits| == |Path(rounds)| && k <= |PathTrace(Path(rounds), visits)|
    ensures var trace := PathTrace(Path(rounds), visits);
            && AcceptAll(Row(Pending, None), trace[..k]).Some?
            && AcceptAll(Row(Pending, None), trace).Some?
            && (NoneRaised(visits) && visits[|visits| - 1].outcome.waiting ==>
                  AcceptAll(Row(Pending, None), trace) == Some(Row(WaitingApproval, Some("human_review_gate"))))
            && (!NoneRaised(visits) ==> AcceptAll(Row(Pending, None), trace).value.status == Running)
  {
    hide AcceptAll, PathTrace, Path;
    PathEndsAtGate(rounds);
    PathAccepted(Path(rounds), visits, Row(Pending, None));
    PrefixAccepted(Row(Pending, None), PathTrace(Path(rounds), visits), k);
  }

  // The gate's order matters: were approval required before the gate had finished, its last event would
  // be refused.
  lemma {:induction false} ApprovalBeforeFinishIsRefused(row: Row, v: Visit)
    requires row.status == Pending || row.status == Running
    ensures AcceptAll(row, [Post(HumanReviewGate, v, NodeStarted), Post(HumanReviewGate, v, ApprovalRequired),
            Post(HumanReviewGate, v, NodeFinished)]) == None
  {
    hide NodeId;
    var a, b, c := Post(HumanReviewGate, v, NodeStarted), Post(HumanReviewGate, v, ApprovalRequired),
        Post(HumanReviewGate, v, NodeFinished);
    AcceptOne(row, a);
    assert [a, b][..1] == [a];
    assert [a, b, c][..2] == [a, b];
  }
}
