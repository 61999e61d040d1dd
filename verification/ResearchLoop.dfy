/** The bounded research loop: rounds of collection and gap analysis until a reason to stop.

    What a round collects, and whether the backend stores it, is arbitrary. */
module ResearchLoop {
  import opened Wrappers

  datatype Entry = Entry(evidenceId: string, sourceUrl: string, supports: seq<string>)

  datatype OpenGap = OpenGap(gapId: string, checkId: string, description: string, resolved: bool)

  datatype StopReason = MaxRounds(limit: int) | MaxSources(limit: int) | AllGapsResolved | SufficientCoverage(left: nat)

  datatype Research = Research(
    round: int, maxRounds: int, maxSources: int, sourcesUsed: int,
    board: seq<Entry>, gaps: seq<OpenGap>, errors: seq<string>, stop: Option<StopReason>)

  // One round's sources, the mode, and what the backend returns for each source, if there is one.
  datatype Collected = Collected(sources: seq<Entry>, live: bool, earlierErrors: seq<string>, backend: Option<nat -> Option<Entry>>)

  // ── A round as a function ──

  // What of source `i` reaches the board: itself without a backend, what the backend stored, or, when
  // the backend refused it, itself for mock evidence and nothing for live evidence.
  function Persisted(c: Collected, i: nat): Option<Entry>
    requires i < |c.sources|
  {
    match c.backend
    case None => Some(c.sources[i])
    case Some(store) =>
      (match store(i)
       case Some(e) => Some(e)
       case None => if c.live then None else Some(c.sources[i]))
  }

  function PersistedUpTo(c: Collected, n: nat): seq<Entry>
    requires n <= |c.sources|
  {
    if n == 0 then []
    else
      match Persisted(c, n - 1)
      case Some(e) => PersistedUpTo(c, n - 1) + [e]
      case None => PersistedUpTo(c, n - 1)
  }

  function FailuresUpTo(c: Collected, n: nat): seq<string>
    requires n <= |c.sources|
  {
    if n == 0 then []
    else
      match Persisted(c, n - 1)
      case Some(_) => FailuresUpTo(c, n - 1)
      case None => FailuresUpTo(c, n - 1) + ["live_evidence_persistence_failed:" + c.sources[n - 1].sourceUrl]
  }

  function Supported(entries: seq<Entry>): set<string> {
    set e, s | e in entries && s in e.supports :: s
  }

  function Max(a: int, b: int): int { if a < b then b else a }

  // How many sources the budget still admits.
  function Admitted(s: Research, c: Collected): nat {
    var remaining := Max(0, s.maxSources - s.sourcesUsed);
    if |c.sources| <= remaining then |c.sources| else remaining
  }

  function UpdatedGaps(gaps: seq<OpenGap>, supported: set<string>): seq<OpenGap> {
    seq(|gaps|, i requires 0 <= i < |gaps| => gaps[i].(resolved := gaps[i].resolved || gaps[i].checkId in supported))
  }

  function Added(s: Research, c: Collected): seq<Entry> { PersistedUpTo(c, Admitted(s, c)) }

  function Investigated(s: Research, c: Collected): Research {
    var added := Added(s, c);
    s.(round := s.round + 1,
       sourcesUsed := s.sourcesUsed + |added|,
       board := s.board + added,
       gaps := UpdatedGaps(s.gaps, Supported(added)),
       errors := s.errors + (c.earlierErrors + FailuresUpTo(c, Admitted(s, c))))
  }

  // ── Gap analysis ──

  function OpenCount(gaps: seq<OpenGap>): nat {
    if gaps == [] then 0 else OpenCount(gaps[..|gaps| - 1]) + (if gaps[|gaps| - 1].resolved then 0 else 1)
  }

  // `gap_analysis`
  function StopOf(s: Research): Option<StopReason> {
    var open := OpenCount(s.gaps);
    if s.round >= s.maxRounds then Some(MaxRounds(s.maxRounds))
    else if s.sourcesUsed >= s.maxSources then Some(MaxSources(s.maxSources))
    else if open == 0 then Some(AllGapsResolved)
    else if open <= Max(1, |s.gaps| / 4) then Some(SufficientCoverage(open))
    else None
  }

  function Round(s: Research, c: Collected): Research {
    var t := Investigated(s, c);
    t.(stop := StopOf(t))
  }

  // The state after `k` rounds.
  function After(s: Research, collect: nat -> Collected, k: nat): Research {
    if k == 0 then s else Round(After(s, collect, k - 1), collect(k - 1))
  }

  // ── The nodes ──

  // `investigation_round`
  method InvestigationRound(s: Research, c: Collected) returns (t: Research)
    ensures t == Investigated(s, c)
  {
    var remaining := Max(0, s.maxSources - s.sourcesUsed);
    var base := if |c.sources| <= remaining then c.sources else c.sources[..remaining];
    var persisted: seq<Entry> := [];
    var failures: seq<string> := [];
    for i := 0 to |base|
      invariant persisted == PersistedUpTo(c, i) && failures == FailuresUpTo(c, i)
    {
      if c.backend.None? {
        persisted := persisted + [base[i]];
      } else {
        var result := c.backend.value(i);
        if result.Some? {
          persisted := persisted + [result.value];
        } else if c.live {
          failures := failures + ["live_evidence_persistence_failed:" + base[i].sourceUrl];
        } else {
          persisted := persisted + [base[i]];
        }
      }
    }
    var newlySupported: set<string> := {};
    for i := 0 to |persisted|
      invariant newlySupported == Supported(persisted[..i])
    {
      assert persisted[..i + 1] == persisted[..i] + [persisted[i]];
      newlySupported := newlySupported + set x | x in persisted[i].supports;
    }
    assert persisted[..|persisted|] == persisted;
    t := s.(round := s.round + 1,
            sourcesUsed := s.sourcesUsed + |persisted|,
            board := s.board + persisted,
            gaps := UpdatedGaps(s.gaps, newlySupported),
            errors := s.errors + (c.earlierErrors + failures));
  }

  // ── What the loop keeps ──

  lemma {:induction false} PersistedBound(c: Collected, n: nat)
    requires n <= |c.sources|
    ensures |PersistedUpTo(c, n)| <= n
    ensures |PersistedUpTo(c, n)| + |FailuresUpTo(c, n)| == n
  {
    if n > 0 { PersistedBound(c, n - 1); }
  }

  // A gap is resolved by what a round adds exactly when something added supports its check.
  ghost predicate Supports(entries: seq<Entry>, checkId: string) {
    exists e :: e in entries && checkId in e.supports
  }

  lemma {:induction false} SupportsAppend(a: seq<Entry>, b: seq<Entry>, checkId: string)
    ensures Supports(a + b, checkId) <==> Supports(a, checkId) || Supports(b, checkId)
  {
    assert forall e :: e in a + b <==> e in a || e in b;
  }

  // Everything collected since the start.
  ghost predicate Kept(s: Research, t: Research) {
    && t.maxRounds == s.maxRounds && t.maxSources == s.maxSources
    && s.board <= t.board
    && t.sourcesUsed == s.sourcesUsed + |t.board| - |s.board|
    && (s.sourcesUsed <= s.maxSources ==> t.sourcesUsed <= t.maxSources)
    && |t.gaps| == |s.gaps|
    && forall i :: 0 <= i < |s.gaps| ==>
         t.gaps[i] == s.gaps[i].(resolved := s.gaps[i].resolved || Supports(t.board[|s.board|..], s.gaps[i].checkId))
  }

  lemma {:induction false} RoundKept(s: Research, t: Research, c: Collected)
    requires Kept(s, t)
    ensures Kept(s, Round(t, c))
  {
    hide StopOf;
    var u := Round(t, c);
    PersistedBound(c, Admitted(t, c));
    var before, added := t.board[|s.board|..], Added(t, c);
    assert u.board == t.board + added;
    assert u.board[|s.board|..] == before + added;
    forall i | 0 <= i < |s.gaps|
      ensures u.gaps[i] == s.gaps[i].(resolved := s.gaps[i].resolved || Supports(u.board[|s.board|..], s.gaps[i].checkId))
    {
      SupportsAppend(before, added, s.gaps[i].checkId);
      assert s.gaps[i].checkId in Supported(added) <==> Supports(added, s.gaps[i].checkId);
    }
  }

  // Whatever is collected, after any number of rounds: the budget is kept, one source is counted for
  // each board entry added, the gaps are the same gaps in the same order, and a gap is resolved exactly
  // when it was, or when an entry added since supports its check.
  lemma {:induction false} LoopKeeps(s: Research, collect: nat -> Collected, k: nat)
    ensures Kept(s, After(s, collect, k))
    ensures After(s, collect, k).round == s.round + k
  {
    hide Kept;
    if k == 0 {
      KeptReflexive(s);
    } else {
      LoopKeeps(s, collect, k - 1);
      RoundKept(s, After(s, collect, k - 1), collect(k - 1));
    }
  }

  lemma {:induction false} KeptReflexive(s: Research)
    ensures Kept(s, s)
  {
    assert s.board[|s.board|..] == [];
  }

  // No gap is unresolved again.
  lemma {:induction false} OpenGapsOnlyClose(s: Research, collect: nat -> Collected, k: nat, l: nat)
    requires k <= l
    ensures var a, b := After(s, collect, k), After(s, collect, l);
            |a.gaps| == |b.gaps| && OpenCount(b.gaps) <= OpenCount(a.gaps)
  {
    hide StopOf;
    if k < l {
      OpenGapsOnlyClose(s, collect, k, l - 1);
      OpenCountDrops(After(s, collect, l - 1).gaps, Supported(Added(After(s, collect, l - 1), collect(l - 1))));
    }
  }

  lemma {:induction false} OpenCountDrops(gaps: seq<OpenGap>, supported: set<string>)
    ensures OpenCount(UpdatedGaps(gaps, supported)) <= OpenCount(gaps)
  {
    if gaps != [] {
      var n := |gaps| - 1;
      OpenCountDrops(gaps[..n], supported);
      assert UpdatedGaps(gaps, supported)[..n] == UpdatedGaps(gaps[..n], supported);
    }
  }

  // ── The loop ──

  // Both budgets remain, and more than a quarter of the gaps, and more than one, are open.
  predicate WorthContinuing(s: Research) {
    && s.round < s.maxRounds && s.sourcesUsed < s.maxSources
    && OpenCount(s.gaps) > 1 && OpenCount(s.gaps) > |s.gaps| / 4
  }

  lemma {:induction false} StopDecides(s: Research)
    ensures StopOf(s).None? <==> WorthContinuing(s)
    ensures s.round >= s.maxRounds ==> StopOf(s).Some?
  {
  }

  lemma {:induction false} RoundMoves(s: Research, c: Collected)
    ensures Investigated(s, c).round == s.round + 1 && Investigated(s, c).maxRounds == s.maxRounds
    ensures StopOf(Round(s, c)) == StopOf(Investigated(s, c)) == Round(s, c).stop
  {
  }

  // At most this many rounds run.
  function RoundLimit(s: Research): nat { Max(1, s.maxRounds - s.round) }

  // The loop of the graph: a round, its gap analysis, and again unless there is a reason to stop. It
  // ends within the round limit, continues exactly while it is worth it, and keeps what rounds keep.
  method RunLoop(s: Research, collect: nat -> Collected) returns (t: Research, ghost rounds: nat)
    ensures 1 <= rounds <= RoundLimit(s)
    ensures t == After(s, collect, rounds) && t.stop.Some?
    ensures !WorthContinuing(t) && forall k :: 1 <= k < rounds ==> WorthContinuing(After(s, collect, k))
    ensures Kept(s, t)
  {
    hide StopOf, WorthContinuing, Investigated, Kept;
    RoundMoves(s, collect(0));
    t := InvestigationRound(s, collect(0));
    t := t.(stop := StopOf(t));
    rounds := 1;
    var next: nat := 1;
    while t.stop.None?
      invariant rounds == next >= 1
      invariant t == After(s, collect, rounds) && t.stop == StopOf(t)
      invariant t.round == s.round + rounds && t.maxRounds == s.maxRounds
      invariant rounds <= RoundLimit(s)
      invariant forall k :: 1 <= k < rounds ==> WorthContinuing(After(s, collect, k))
      decreases t.maxRounds - t.round
    {
      StopDecides(t);
      RoundMoves(t, collect(next));
      t := InvestigationRound(t, collect(next));
      t := t.(stop := StopOf(t));
      next := next + 1;
      rounds := rounds + 1;
    }
    StopDecides(t);
    LoopKeeps(s, collect, rounds);
  }
}
