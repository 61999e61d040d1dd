/** How an event moves the run summary: the projection the service computes before it appends a
    caller's event, and the replay of a finished log. */
module Projection {
  import opened Wrappers
  import opened Domain
  import Text

  datatype Projected = Projected(status: Option<RunStatus>, currentNode: Option<string>)

  datatype ProjectionError = GeneratedByTrustCore | NotAllowedInStatus | BadTerminalStatus | BadTransition

  function RequestedTerminalStatus(payload: Payload): Result<RunStatus, ProjectionError> {
    if "status" in payload && payload["status"].Text? then
      match ParseStatus(payload["status"].s)
      case Some(Success) => Ok(Success)
      case Some(Failed) => Ok(Failed)
      case _ => Err(BadTerminalStatus)
    else Err(BadTerminalStatus)
  }

  predicate TerminalTransitionAllowed(from: RunStatus, to: RunStatus) {
    match (from, to)
    case (Pending, Failed) => true
    case (Running, Success) => true
    case (Running, Failed) => true
    case (WaitingApproval, Failed) => true
    case _ => false
  }

  predicate Generated(ty: EventType) {
    ty.RunCreated? || ty.EvidenceBoardFrozen? || ty.ScoreChanged? || ty.ApprovalResolved?
    || ty.AttestationSubmitted? || ty.AttestationConfirmed? || ty.ProvenanceFrozen?
  }

  // `event_projection`
  function Project(status: RunStatus, nodeId: string, ty: EventType, payload: Payload): Result<Projected, ProjectionError> {
    var node := Some(Text.Trim(nodeId));
    if Generated(ty) then Err(GeneratedByTrustCore)
    else
      match ty
      case NodeStarted =>
        if status == Pending then Ok(Projected(Some(Running), node))
        else if status == Running then Ok(Projected(None, node))
        else Err(NotAllowedInStatus)
      case NodeFinished =>
        if status == Running then Ok(Projected(None, node)) else Err(NotAllowedInStatus)
      case ApprovalRequired =>
        if status == Running then Ok(Projected(Some(WaitingApproval), node)) else Err(NotAllowedInStatus)
      case RunStatusChanged =>
        (match RequestedTerminalStatus(payload)
         case Ok(to) =>
           if TerminalTransitionAllowed(status, to) then Ok(Projected(Some(to), node)) else Err(BadTransition)
         case Err(error) => Err(error))
      case _ => Ok(Projected(None, None))
  }

  // ── Which events a run may hold ──

  predicate AsksFor(payload: Payload, status: string) { "status" in payload && payload["status"] == Json.Text(status) }

  // What the status must be when the event is appended to a log that has been begun.
  predicate Allowed(status: RunStatus, ty: EventType, payload: Payload) {
    match ty
    case RunCreated => false
    case NodeStarted => status == Pending || status == Running
    case NodeFinished => status == Running
    case ApprovalRequired => status == Running
    case RunStatusChanged =>
      || (AsksFor(payload, "success") && status == Running)
      || (AsksFor(payload, "failed") && (status == Pending || status == Running || status == WaitingApproval))
    case ApprovalResolved => status == WaitingApproval
    case AttestationSubmitted => status == Running
    case AttestationConfirmed => status == Success
    case _ => true
  }

  // Events that only the trust core writes.
  predicate Reserved(ty: EventType) {
    ty in {RunCreated, EvidenceBoardFrozen, ScoreChanged, ApprovalResolved, EventType.AttestationSubmitted, AttestationConfirmed,
           ProvenanceFrozen}
  }

  // A caller's event is accepted exactly when it is not reserved and the status allows it; then it moves a
  // pending run to `running`, a running one to the gate, and any to the end it asks for.
  lemma {:induction false} ProjectAcceptsExactly(status: RunStatus, nodeId: string, ty: EventType, payload: Payload)
    ensures var r := Project(status, nodeId, ty, payload);
            && (r.Ok? <==> !Reserved(ty) && Allowed(status, ty, payload))
            && (Reserved(ty) ==> r == Err(GeneratedByTrustCore))
            && (r.Err? && ty == RunStatusChanged ==>
                  r == Err(if AsksFor(payload, "success") || AsksFor(payload, "failed") then BadTransition else BadTerminalStatus))
            && (r.Err? && !Reserved(ty) && ty != RunStatusChanged ==> r == Err(NotAllowedInStatus))
            && (r.Ok? ==>
                  var next := r.value;
                  && next.status == (if ty == NodeStarted && status == Pending then Some(Running)
                                     else if ty == ApprovalRequired then Some(WaitingApproval)
                                     else if ty == RunStatusChanged then Some(if AsksFor(payload, "success") then Success else Failed)
                                     else None)
                  && next.currentNode == (if ty in {NodeStarted, NodeFinished, ApprovalRequired, RunStatusChanged}
                                          then Some(Text.Trim(nodeId)) else None))
  {
  }

  // ── Replay ──

  // The columns of `runs` that change.
  datatype Summary = Summary(status: RunStatus, currentNode: Option<string>, updatedAt: int)

  function SummaryOf(run: Run): Summary {
    Summary(run.status, run.currentNode, run.updatedAt)
  }

  function DecidedStatus(payload: Payload, status: RunStatus): RunStatus {
    if "decision" !in payload then status
    else if payload["decision"] == Json.Text("approve_offchain") then Success
    else if payload["decision"] == Json.Text("approve_testnet_attestation") then Running
    else if payload["decision"] == Json.Text("reject") then Failed
    else status
  }

  // What one stored event does to the summary, from the event alone.
  function ReplayStep(s: Summary, e: Event): Summary {
    match e.eventType
    case RunCreated => Summary(Pending, None, e.createdAt)
    case NodeStarted => Summary(if s.status == Pending then Running else s.status, Some(e.nodeId), e.createdAt)
    case NodeFinished => Summary(s.status, Some(e.nodeId), e.createdAt)
    case ApprovalRequired => Summary(WaitingApproval, Some(e.nodeId), e.createdAt)
    case RunStatusChanged =>
      Summary(match RequestedTerminalStatus(e.payload) case Ok(to) => to case Err(_) => s.status,
              Some(e.nodeId), e.createdAt)
    case ApprovalResolved => Summary(DecidedStatus(e.payload, s.status), Some("human_review_gate"), e.createdAt)
    case AttestationSubmitted => Summary(Success, Some("attest_onchain"), e.createdAt)
    case AttestationConfirmed => Summary(Success, Some("attest_onchain"), e.createdAt)
    case _ => s.(updatedAt := e.createdAt)
  }

  function Replay(log: seq<Event>): Summary {
    if log == [] then Summary(Pending, None, 0)
    else ReplayStep(Replay(log[..|log| - 1]), log[|log| - 1])
  }

  lemma {:induction false} ReplayAppend(log: seq<Event>, e: Event)
    ensures Replay(log + [e]) == ReplayStep(Replay(log), e)
  {
    assert (log + [e])[..|log|] == log;
  }

  function Coalesce<T>(next: Option<T>, current: T): T {
    match next case Some(v) => v case None => current
  }

  function CoalesceNode(next: Option<string>, current: Option<string>): Option<string> {
    if next.Some? then next else current
  }

  // An accepted projection, applied to the status it was computed from, is the replay of its event.
  lemma {:induction false} ProjectionIsReplay(s: Summary, e: Event, nodeId: string, p: Projected)
    requires Project(s.status, nodeId, e.eventType, e.payload) == Ok(p) && e.nodeId == Text.Trim(nodeId)
    ensures ReplayStep(s, e) == Summary(Coalesce(p.status, s.status), CoalesceNode(p.currentNode, s.currentNode), e.createdAt)
  {
  }

  predicate Terminal(status: RunStatus) { status == Success || status == Failed }

  // Terminal statuses absorb, nothing reaches `cancelled`, and approval can only be awaited from `running`.
  lemma {:induction false} ProjectionRespectsTerminal(status: RunStatus, nodeId: string, ty: EventType, payload: Payload)
    requires Project(status, nodeId, ty, payload).Ok?
    ensures var next := Coalesce(Project(status, nodeId, ty, payload).value.status, status);
            && (Terminal(status) ==> next == status)
            && (status != Cancelled ==> next != Cancelled)
            && (next == WaitingApproval && status != WaitingApproval ==> status == Running)
  {
  }
}
