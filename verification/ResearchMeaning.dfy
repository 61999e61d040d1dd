/** What one round of research adds, and when the loop stops. */
module ResearchMeaning {
  import opened Wrappers
  import opened ResearchLoop

  // ── What a round gathers ──

  // From source `i` on, in their order: what the backend stored, the source itself where there is no backend or
  // mock evidence was refused, and an error where live evidence was.
  ghost predicate Gathers(c: Collected, i: nat, n: nat, added: seq<Entry>, failed: seq<string>)
    requires i <= n <= |c.sources|
    decreases n - i
  {
    if i == n then added == [] && failed == []
    else if c.backend.Some? && c.backend.value(i).None? && c.live then
      && failed != [] && failed[0] == "live_evidence_persistence_failed:" + c.sources[i].sourceUrl
      && Gathers(c, i + 1, n, added, failed[1..])
    else
      && added != []
      && added[0] == (if c.backend.Some? && c.backend.value(i).Some? then c.backend.value(i).value else c.sources[i])
      && Gathers(c, i + 1, n, added[1..], failed)
  }

  lemma {:induction false} GathersFrom(c: Collected, i: nat, n: nat) returns (added: seq<Entry>, failed: seq<string>)
    requires i <= n <= |c.sources|
    ensures Gathers(c, i, n, added, failed)
    ensures PersistedUpTo(c, n) == PersistedUpTo(c, i) + added && FailuresUpTo(c, n) == FailuresUpTo(c, i) + failed
    decreases n - i
  {
    if i == n {
      added, failed := [], [];
    } else {
      var a, f := GathersFrom(c, i + 1, n);
      match Persisted(c, i)
      case Some(e) =>
        added, failed := [e] + a, f;
        assert PersistedUpTo(c, i + 1) == PersistedUpTo(c, i) + [e];
      case None =>
        added, failed := a, ["live_evidence_persistence_failed:" + c.sources[i].sourceUrl] + f;
        assert FailuresUpTo(c, i + 1) == FailuresUpTo(c, i) + ["live_evidence_persistence_failed:" + c.sources[i].sourceUrl];
    }
  }

  // ── When to stop ──

  ghost function OpenGaps(gaps: seq<OpenGap>): set<int> { set i | 0 <= i < |gaps| && !gaps[i].resolved }

  lemma {:induction false} OpenCounts(gaps: seq<OpenGap>)
    ensures OpenCount(gaps) == |OpenGaps(gaps)|
  {
    if gaps != [] {
      var n := |gaps| - 1;
      OpenCounts(gaps[..n]);
      assert OpenGaps(gaps) == OpenGaps(gaps[..n]) + if gaps[n].resolved then {} else {n};
    }
  }

  // The first of four reasons that holds: the rounds are used up, the sources are, no gap is open, or at most one
  // is or a quarter of them.
  ghost predicate StopSays(s: Research, stop: Option<StopReason>) {
    var open := |OpenGaps(s.gaps)|;
    && (s.round >= s.maxRounds ==> stop == Some(MaxRounds(s.maxRounds)))
    && (s.round < s.maxRounds ==>
          && (s.sourcesUsed >= s.maxSources ==> stop == Some(MaxSources(s.maxSources)))
          && (s.sourcesUsed < s.maxSources ==>
                && (open == 0 ==> stop == Some(AllGapsResolved))
                && (open == 1 || 0 < 4 * open <= |s.gaps| ==> stop == Some(SufficientCoverage(open)))
                && (open > 1 && 4 * open > |s.gaps| ==> stop == None)))
  }

  // ── A round ──

  // What the budget admits of the sources, from the first on.
  ghost predicate Admits(s: Research, c: Collected, n: nat) {
    && n <= |c.sources| && (n == 0 || s.sourcesUsed + n <= s.maxSources)
    && (n == |c.sources| || s.sourcesUsed + n >= s.maxSources)
  }

  ghost predicate RoundSays(s: Research, c: Collected, t: Research, n: nat, added: seq<Entry>, failed: seq<string>) {
    && Admits(s, c, n) && Gathers(c, 0, n, added, failed)
    && t.round == s.round + 1 && t.maxRounds == s.maxRounds && t.maxSources == s.maxSources
    && t.board == s.board + added && t.sourcesUsed == s.sourcesUsed + |added|
    && t.errors == s.errors + (c.earlierErrors + failed)
    && |t.gaps| == |s.gaps|
    && (forall i :: 0 <= i < |s.gaps| ==>
          && t.gaps[i].gapId == s.gaps[i].gapId && t.gaps[i].checkId == s.gaps[i].checkId && t.gaps[i].description == s.gaps[i].description
          && (t.gaps[i].resolved <==> s.gaps[i].resolved || Supports(added, s.gaps[i].checkId)))
    && StopSays(t, t.stop)
  }

  // A round takes the sources that the budget admits, in their order, gathers from them what is stored, resolves
  // the gaps that this supports, and says whether to stop and why.
  lemma {:induction false} RoundIsSaid(s: Research, c: Collected) returns (n: nat, added: seq<Entry>, failed: seq<string>)
    ensures RoundSays(s, c, Round(s, c), n, added, failed)
  {
    hide OpenCount, OpenGaps, Gathers;
    n := Admitted(s, c);
    added, failed := GathersFrom(c, 0, n);
    assert PersistedUpTo(c, 0) == [] && FailuresUpTo(c, 0) == [];
    assert PersistedUpTo(c, n) == added && FailuresUpTo(c, n) == failed;
    var t := Round(s, c);
    OpenCounts(t.gaps);
    forall i | 0 <= i < |s.gaps| ensures s.gaps[i].checkId in Supported(added) <==> Supports(added, s.gaps[i].checkId) {}
  }
}
