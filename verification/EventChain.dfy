/** The hash chain over a run's events, read in sequence order. */
module EventChain {
  import opened Domain

  // `compute_event_hash`: every field of the row except its id and its own hash.
  function HashOf(e: Event): Hash {
    OfEvent(e.runId, e.sequence, e.nodeId, e.eventType, e.payload, e.createdAt, e.prevEventHash)
  }

  function LinkBefore(log: seq<Event>, i: nat): Hash
    requires i <= |log|
  {
    if i == 0 then Zero else log[i - 1].eventHash
  }

  ghost predicate LinkedAt(run: Uuid, log: seq<Event>, i: nat)
    requires i < |log|
  {
    && log[i].runId == run
    && log[i].sequence == i + 1
    && log[i].prevEventHash == LinkBefore(log, i)
    && log[i].eventHash == HashOf(log[i])
  }

  // Numbered 1..n, linked from the zero hash, each row hashed as it stands.
  ghost predicate Chained(run: Uuid, log: seq<Event>) {
    forall i :: 0 <= i < |log| ==> LinkedAt(run, log, i)
  }

  // Two events that agree in every field that is hashed; the event id is not.
  ghost predicate SameContent(a: Event, b: Event) {
    a.(eventId := b.eventId) == b
  }

  ghost predicate SameHistory(a: seq<Event>, b: seq<Event>) {
    && |a| == |b|
    && forall i :: 0 <= i < |a| ==> SameContent(a[i], b[i])
  }

  // An event hash commits to everything up to the event: if two chains contain one hash, the two
  // histories below it agree, at the same positions, in every hashed field.
  lemma {:induction false} HashCommitsToHistory(runA: Uuid, a: seq<Event>, i: nat, runB: Uuid, b: seq<Event>, j: nat)
    requires Chained(runA, a) && Chained(runB, b)
    requires i < |a| && j < |b| && a[i].eventHash == b[j].eventHash
    ensures runA == runB && i == j && SameHistory(a[..i + 1], b[..j + 1])
    decreases i
  {
    assert LinkedAt(runA, a, i) && LinkedAt(runB, b, j);
    if i > 0 {
      HashCommitsToHistory(runA, a, i - 1, runB, b, j - 1);
      forall k | 0 <= k < i + 1 ensures SameContent(a[k], b[k]) {
        if k < i {
          assert a[..i][k] == a[k] && b[..j][k] == b[k];
        }
      }
    }
  }

  // So re-hashing detects tampering below a frozen hash: a log that still checks as a chain and
  // still carries the frozen hash at that place has not been edited, cut, extended or reordered there.
  lemma {:induction false} TamperingIsDetected(run: Uuid, original: seq<Event>, frozen: nat, tampered: seq<Event>)
    requires Chained(run, original) && frozen < |original|
    requires frozen >= |tampered| || !SameHistory(original[..frozen + 1], tampered[..frozen + 1])
    ensures !Chained(run, tampered) || (forall j :: 0 <= j < |tampered| ==> tampered[j].eventHash != original[frozen].eventHash)
  {
    if Chained(run, tampered) {
      forall j | 0 <= j < |tampered| ensures tampered[j].eventHash != original[frozen].eventHash {
        if tampered[j].eventHash == original[frozen].eventHash {
          HashCommitsToHistory(run, original, frozen, run, tampered, j);
        }
      }
    }
  }

  // The events of one type, in order.
  function OfType(log: seq<Event>, ty: EventType): seq<Event> {
    if log == [] then []
    else
      var last := log[|log| - 1];
      var before := OfType(log[..|log| - 1], ty);
      if last.eventType == ty then before + [last] else before
  }

  lemma {:induction false} OfTypeAppend(log: seq<Event>, e: Event, ty: EventType)
    ensures OfType(log + [e], ty) == (if e.eventType == ty then OfType(log, ty) + [e] else OfType(log, ty))
  {
    assert (log + [e])[..|log|] == log;
  }

  lemma {:induction false} OfTypeOccurs(log: seq<Event>, ty: EventType, k: nat) returns (i: nat)
    requires k < |OfType(log, ty)|
    ensures i < |log| && log[i] == OfType(log, ty)[k] && log[i].eventType == ty
  {
    var n := |log| - 1;
    if log[n].eventType == ty && k == |OfType(log[..n], ty)| {
      i := n;
    } else {
      i := OfTypeOccurs(log[..n], ty, k);
    }
  }
}
