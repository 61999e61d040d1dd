# ToolPassport: a verified model

ToolPassport audits software tools. A Rust trust core stores runs, evidence, scores, passports,
approvals and attestations in SQLite; a Python graph drives each run; a registry says which tool a set
of URLs means. This project models the parts on which the trust rests, in Dafny 4.11, and proves what
they guarantee. `dafny verify dfyconfig.toml` checks all of it. Every lemma carries
`{:induction false}`, so no proof rests on an induction hypothesis that Dafny chose.

**The run protocol.** Every service call reads some rows, decides, and commits one transaction that
inserts a row, appends a hash-chained event and moves the run's summary. Calls interleave freely. The
model is a system of steps: one read, one transaction that commits or aborts, one submission to the
chain, one arrival or crash of a request. The query for the tail of the log may fail or see an old
snapshot. The only guards are those of the code: the compare-and-swap on the status, the UNIQUE keys,
and rows that are only inserted. One invariant holds in every state that is reachable from a run's creation, and the statements about
chains, summaries, passports, references, approvals and attestations are derived from it for every
sequence of steps. What one call stores and answers is said besides for a request that nothing disturbs,
by the fields of the rows and events alone.

**Hashes.** A hash is a term that names the document that was hashed, so equal hashes mean equal
documents; this stands for the collision freedom of SHA-256 over the canonical JSON of RFC 8785, whose
property order (section 3.2.3) makes it equality of JSON values. Nothing else is assumed of it.

**Modules.**

- `Wrappers`, `Text`, `Sorting`, `Domain`: results, strings and their order, sorting by a key, the stored records.
- `EventChain`, `Projection`, `Repository`: the chain of events, how events move a run, the tables and their transactions, the last also as a store that updates its tables statement by statement and rolls back.
- `StableIds`, `EvidenceFreeze`, `FreezeProperties`, `PassportDraft`: freezing a board, and the narrative of a passport.
- `Scoring`, `ScoringProperties`, `ShippedCatalog`: findings to dimension scores, total and rating, and the standard and the four profiles the backend is compiled with.
- `RunProtocol`, `ProtocolInvariant`, `ProtocolProofs`, `ApprovalProofs`, `ProtocolSteps`, `Submissions`, `ProtocolTheorems`: the step system, its invariant, one lemma per transaction and per step, and the results for every run.
- `RequestHistory`, `Atomicity`: which steps a stored approval and receipt come from, and that nothing is half done.
- `ServiceMeaning`, `FreezeServices`, `DecisionServices`: what each of the eight calls answers and stores when nothing disturbs it.
- `RecordMeaning`, `ScoringMeaning`, `NormalizerMeaning`, `RegistryMeaning`, `ResolverMeaning`, `ResearchMeaning`, `GraphMeaning`: what the functions of the model compute, said again by relations between input and output that do not call them.
- `Normalizer`, `NormalizerProperties`, `ReferenceNormalizer`, `ToolRegistry`, `RegistryProperties`, `Resolver`, `ResolverProperties`, `IdentityTheorems`: from URLs to tools.
- `ResearchLoop`, `GraphTrace`, `GraphOnTrustCore`, `GraphCompletion`: the research loop, the events of the graph against the projection, the graph as a client of the trust core among the other requests of its nodes, and that it can finish.

**Where the code and its documentation part.**

- `docs/technical-design.md:554` lets `approval_resolved` lead from `waiting_approval` to `running` only;
  the code also leads to success and to failed, and the model follows the code.
- A key of the registry is promised one owner. The code keeps that exactly as long as no committed
  creation or addition brings a key that another tool already owns
  (`RegistryProperties.OneOwnerExactly`). `add_identifier` looks this up before its transaction,
  `create_tool` does not, and a namespace with a colon makes two different rows share a key
  (`IdentityTheorems.ColonNamespacesSplitAKey`); namespaces without colons, which the JSON schema of a
  tool demands and the service does not check, rule it out (`RegistryProperties.KeysHaveOneOwner`).
- Within the length limits a proposed tool can be created exactly when its canonical URL normalises to
  itself, which a repository named `a.git.git` does not (`IdentityTheorems.CandidateCreates`,
  `NormalizerProperties.IdempotentExactly`).
- `normalizer.rs` calls itself a direct port of the Python normaliser. The two part on exactly the texts
  of `ReferenceNormalizer.NormalizersPartExactly`, among them those on which the Python one raises.
- `backend/migrations/0005_add_hash_chain_and_decision_events.sql:5-8` promises that the hashes of older
  events are filled in later; nothing in `backend/src` does so. The statements about runs are about runs
  created since, not about those carried over with placeholder hashes.

## Model

| member | source | states |
|---|---|---|
| EventChain.HashCommitsToHistory | backend/src/repository/mod.rs:1173-1192 | If two well-formed chains contain one event hash, they are chains of the same run, hold it at the same place, and agree in every hashed field (the event id is not hashed) of every event up to there |
| EventChain.TamperingIsDetected | backend/src/repository/mod.rs:1197-1204 | A log that was edited, cut, extended or reordered at or below a frozen event either no longer checks as a chain or no longer carries the frozen hash anywhere |
| Repository.NumberedTail | backend/src/repository/mod.rs:1213-1232 | The tail query over any snapshot of a gapless log returns the number after the newest row it sees and that row's hash, or 1 and the zero hash when it sees none |
| Repository.InsertAppendsOrFails | backend/src/repository/mod.rs:1213-1232 | An insert numbered from the whole log appends one linked, hashed row; one numbered from a stale snapshot, or from the fallback of a failed read, meets UNIQUE (run_id, sequence) and is refused, whatever the log holds |
| Repository.RunStore.constructor | backend/src/repository/mod.rs:45-119 | A new run starts with its row and one event, numbered 1 and linked to the zero hash, and with no other row |
| Repository.RunStore.InsertGenerated | backend/src/repository/mod.rs:1396-1442 | Inserts the numbered, linked and hashed event and moves updated_at, returning the stored hash; on refusal nothing changes |
| Repository.RunStore.AppendEvent | backend/src/repository/mod.rs:154-227 | Compare-and-swap on the status that was read, then the event, in one transaction: both or neither |
| Repository.RunStore.CreateArtifact | backend/src/repository/mod.rs:470-501 | The artifact row and its event, or neither |
| Repository.RunStore.CreateEvidence | backend/src/repository/mod.rs:539-583 | The evidence row, whose snapshot must be a stored artifact, and its event, or neither |
| Repository.RunStore.CreateEvidenceFreeze | backend/src/repository/mod.rs:647-696 | Board, manifest and event, or none of them; a second freeze of a version is a unique violation |
| Repository.RunStore.CreateCheckResults | backend/src/repository/mod.rs:603-645 | The results of a board version and their event, or neither; a second set for the version is a unique violation |
| Repository.RunStore.CreatePassportFreeze | backend/src/repository/mod.rs:791-851 | The event first, then the passport and the provenance stamped with that event's hash, all or nothing; the returned provenance is the stored one |
| Repository.RunStore.CreateApproval | backend/src/repository/mod.rs:884-930 | Status compare-and-swap, the one approval of the run and its event, all or nothing |
| Repository.RunStore.ClaimAttempt | backend/src/repository/mod.rs:995-1014 | The first claim of a run is stored, every later one is refused |
| Repository.RunStore.CreateReceipt | backend/src/repository/mod.rs:943-993 | Status compare-and-swap to success, the one receipt of the run and its two events, all or nothing |
| Projection.ProjectionIsReplay | backend/src/services/mod.rs:1326-1377 | What an accepted event makes of the run row, applied to the status it was computed from, is what replaying the stored event makes of it |
| Projection.ProjectAcceptsExactly | backend/src/services/mod.rs:1326-1426 | The whole table: a caller's event is accepted if and only if it is not one of the seven that only the trust core writes and the status allows it (node_started: pending or running; node_finished and approval_required: running; run_status_changed: to success from running, to failed from pending, running or waiting_approval; any other event: always); with the status and node that follow, and which error otherwise |
| Projection.ProjectionRespectsTerminal | backend/src/services/mod.rs:1398-1426 | A consequence: no accepted event leaves success or failed, reaches cancelled, or comes to await approval other than from running |
| ProtocolProofs.AppendEventKeeps | backend/src/services/mod.rs:266-312 | A committed caller event, projected from an earlier read, keeps the whole invariant of the rows and loses none of them |
| ProtocolProofs.CreateArtifactKeeps | backend/src/services/mod.rs:546-598 | So does a committed artifact |
| ProtocolProofs.CreateEvidenceKeeps | backend/src/services/mod.rs:609-682 | So does committed evidence: its snapshot is among the stored artifacts |
| ProtocolProofs.CreateEvidenceFreezeKeeps | backend/src/services/mod.rs:874-917 | So does a committed board whose manifest matches the stored evidence, whatever was stored since it was built |
| ProtocolProofs.CreateCheckResultsKeeps | backend/src/services/mod.rs:722-754 | So do committed check results that cite only their board |
| ProtocolProofs.CreatePassportFreezeKeeps | backend/src/repository/mod.rs:791-851 | So does a committed passport numbered from a read outside the transaction: it follows the last passport, and its event is the next provenance_frozen event and carries the stamped hash |
| ApprovalProofs.CreateApprovalKeeps | backend/src/services/mod.rs:1128-1171 | So does a committed approval: the freeze it binds is earlier in the log, and the stored status is the one its decision replays to |
| ApprovalProofs.ClaimKeeps | backend/src/services/mod.rs:1234-1240 | So does a committed claim: it names the stored testnet approval |
| ApprovalProofs.CreateReceiptKeeps | backend/src/services/mod.rs:1257-1309 | So does a committed receipt: its two events stand together after the approval and the freeze, and it carries the bound commitment |
| ProtocolInvariant.KnowledgeIsStable | backend/src/services/mod.rs:939-1068 | Whatever a pending request has read of the run, board, results, provenance or approval is still true of the rows after any other commit |
| ProtocolSteps.FreezeSucceedsOrRefuses | backend/src/services/mod.rs:772-895 | As evidence is listed before artifacts, a freeze never reports a missing snapshot; a board it builds is canonical and its manifest matches the rows stored at that time |
| ProtocolSteps.ScoredCitesBoard | backend/src/services/mod.rs:705-731 | Check results computed for a board cite only that board's evidence and carry its run and version |
| ProtocolSteps.PassportScoredKnows | backend/src/services/mod.rs:981-1051 | The passport and provenance built from the values read belong together, carry the stored scores, cite only the board, and are numbered after the last stored passport |
| ProtocolSteps.AdvanceKeeps | backend/src/services/mod.rs:266-1309 | Every step of every request (a read, a committed or aborted transaction, a submission) keeps the invariant, loses no row, and leaves the request knowing only true things |
| Submissions.StepMoves | backend/src/services/mod.rs:1234-1309 | Only the request whose claim committed can submit, only it can then record a receipt, and no other step touches attempt, receipt or chain |
| Submissions.NextKeeps | backend/src/services/mod.rs:266-1309 | One step of the system of all pending requests, arrivals and crashes included, keeps the system invariant and loses no row |
| Submissions.AlwaysInv | backend/src/services/mod.rs:179-1309 | The system invariant holds after every sequence of steps from the creation of a run |
| ProtocolTheorems.RowsAreNeverLost | backend/migrations/0005_add_hash_chain_and_decision_events.sql:79-89 | Over any run and any interleaving, what is stored stays stored unchanged, the run's identity stays, and success and failed are never left |
| ProtocolTheorems.ChainIntegrity | backend/migrations/0005_add_hash_chain_and_decision_events.sql:15-53 | In every state reachable from the creation of a run the events are numbered 1..n without a gap, the first links to the zero hash and each other to its predecessor, and each hash is that of its own row |
| ProtocolTheorems.RunBegins | backend/src/repository/mod.rs:45-119 | In every reachable state the first event is that of the creation: node run, run_created, payload status pending, at the time of creation, which is the run's created_at |
| ProtocolTheorems.SummaryIsReplay | backend/src/repository/mod.rs:167-186 | In every reachable state status, current node and update time of the run row are the replay of its log, and no run is cancelled |
| ProtocolTheorems.StatusHasCause | backend/src/services/mod.rs:1379-1415 | A run is in success, or in failed, exactly when its log holds an accepted run_status_changed to it, a decision for it, or (for success) an attestation; so approval is one cause of success, not the only one |
| ProtocolTheorems.EventsAreAllowed | backend/src/services/mod.rs:1326-1426 | In every reachable state every event after the first was allowed, by that table extended to the trust core's own events, in the status that the events before it lead to, although it was checked against an earlier read |
| ProtocolTheorems.GateIsKept | backend/src/services/mod.rs:1398-1415 | In every reachable state: waiting_approval is left only by approval_resolved or by run_status_changed to failed and entered only by approval_required from running; success is reached only by run_status_changed from running, by an offchain approval from waiting_approval, or by an attestation from running |
| ProtocolTheorems.PassportsFollowTheLog | backend/src/repository/mod.rs:774-851 | Passports are numbered 1..n without a gap, and the k-th provenance_frozen event announces passport k, carries its hash, and is the event whose hash is the audit log hash of provenance k |
| ProtocolTheorems.AuditHashCommitsToHistory | backend/src/repository/mod.rs:803-805 | Any chain that carries a provenance's audit log hash is a chain of that run and agrees with the stored log, in every hashed field, up to the freeze |
| ProtocolTheorems.ReferencesResolve | backend/src/services/mod.rs:939-1027 | In every reachable state passports name results and a board of their own run and version, carry exactly the stored scores and cite only board evidence; results cite only their board; manifests list the board's evidence in order with the stored hashes |
| ProtocolTheorems.NeverCorrupt | backend/src/services/mod.rs:850-873 | No request is ever answered that a snapshot artifact is missing |
| ProtocolTheorems.EventsCountRows | backend/src/services/mod.rs:722-917 | Boards, check results, the approval and the receipt are as many as the events that announce them, the receipt by a submission and a confirmation |
| ProtocolTheorems.ApprovalBindsAFreeze | backend/src/services/mod.rs:1107-1158 | A stored approval binds a frozen provenance of its run, its event follows the event of that freeze, and an offchain approval or a rejection is in force as success or failed; which provenance, says RequestHistory.ApprovalWasAsked |
| ProtocolTheorems.SubmitsAtMostOnce | backend/src/services/mod.rs:1182-1256 | Over any run and any interleaving the chain is called at most once, with one commitment, which a receipt repeats and which belongs to the stored approval; what is in it says ProtocolTheorems.SubmissionsCommit |
| ProtocolTheorems.SubmissionsCommit | backend/src/services/mod.rs:1205-1256 | In every reachable state, field by field: whatever was submitted, and a receipt's commitment, names the run, tool id and tool type as created, the chain and contract of the stored approval, the hash of the passport it names, the hash of the provenance_frozen event of that passport, the hash of its board's manifest, and the hash of the run id |
| ProtocolTheorems.LostClaimIsFinal | backend/src/repository/mod.rs:995-1014 | A claim whose holder is gone before its receipt is never taken over: whatever is requested later, nothing more is submitted and no receipt is stored |
| ProtocolTheorems.ReceiptFollowsApproval | backend/src/services/mod.rs:1257-1309 | From the moment a receipt is stored it stays, the run is in success, and its submission and confirmation events are adjacent, after the approval, which follows the freeze it binds |
| ProtocolTheorems.RunsAreIndependent | backend/src/repository/mod.rs:154-227 | In the database of all runs each run is what the steps addressed to it alone make of it |
| ProtocolTheorems.HashesAreUnique | backend/src/repository/mod.rs:1173-1192 | An event hash names one event of the whole database, its run and its sequence |
| RequestHistory.ApprovalWasAsked | backend/src/services/mod.rs:1089-1171 | Over any interleaving: a stored approval is the decision, the passport, the hashes, the chain and the contract of a request that arrived at some step and committed at a later one, and the passport it names was the newest one in a state in between |
| RequestHistory.ReceiptWasSubmitted | backend/src/services/mod.rs:1234-1309 | Over any interleaving: a stored receipt carries what one request did, in this order: the time of its claim, the commitment it then submitted, the transaction the chain answered with, and the time of confirmation |
| Atomicity.CommitsWhole | backend/src/repository/mod.rs:154-227 | The last step of any request but a claim stores its rows and its events or nothing; it is accepted only if it is not aborted, saw the whole log and is not late; a late one, whose status has moved on or whose key is taken, is answered as a conflict |
| ServiceMeaning.ArtifactAlone | backend/src/services/mod.rs:546-598 | A request that nothing disturbs: the artifact is stored with the hash of its content, and announced with its id, hash and size |
| ServiceMeaning.EvidenceAlone | backend/src/services/mod.rs:609-682 | The same: evidence is stored, with the hash of its content and the snapshot named, if and only if that snapshot is stored or none was named; the event says so |
| ServiceMeaning.AppendAlone | backend/src/services/mod.rs:266-312 | The same: a caller's event is stored if and only if the trimmed node id has 1 to 200 characters and the table accepts it; the run moves as the event says |
| FreezeServices.FreezeAlone | backend/src/services/mod.rs:757-917 | The same: a board with all that was requested, its manifest with the stored hashes and its event with the counts are stored if and only if the request is acceptable, its snapshots are stored and the version is new; which answer otherwise |
| FreezeServices.ScoreAlone | backend/src/services/mod.rs:693-754 | The same: check results that say what ScoringMeaning.ScoreSays says are stored if and only if board and submission are acceptable and the version has none; which answer otherwise |
| FreezeServices.PassportAlone | backend/src/services/mod.rs:939-1068 | The same: the next passport, with the narrative asked for and the scores of the board's results, and a provenance with the hashes of the passport, the manifest, the run id and the event that announces it, are stored if and only if header, board, results and narrative are acceptable |
| DecisionServices.ApprovalAlone | backend/src/services/mod.rs:1089-1171 | The same: an approval is stored and the run goes to success, running or failed if and only if it waits for approval, the request is well formed, it names the newest passport by number and hashes, and there is none yet; a request that names another passport is a conflict |
| DecisionServices.AttestAlone | backend/src/services/mod.rs:1182-1309 | The same: the commitment is submitted if and only if the run is running with a testnet approval that names a stored provenance, and has neither receipt nor claim; a refusal of the chain leaves the claim; otherwise the receipt and the two events carry the chain's transaction, the time of the claim and that of the confirmation |
| StableIds.ValidateStableId | backend/src/services/mod.rs:1492-1511 | The scanner with its previous-separator flag accepts exactly the published pattern of stable ids |
| EvidenceFreeze.EnsureUnique | backend/src/services/mod.rs:1526-1536 | Succeeds exactly when no id occurs twice |
| EvidenceFreeze.NormalizeReferences | backend/src/services/mod.rs:1538-1554 | Succeeds exactly when the references are distinct and of the board, and then returns them sorted |
| EvidenceFreeze.NormalizeClaims | backend/src/services/mod.rs:798-828 | In place: succeeds exactly when ids are stable and distinct and every claim is valid, and then every claim is replaced, in its place, by its normal form, which RecordMeaning.FrozenBoardKeeps describes |
| EvidenceFreeze.NormalizeGaps | backend/src/services/mod.rs:831-847 | In place: succeeds exactly when ids are stable and distinct and every gap is valid, and then every gap is normalised |
| EvidenceFreeze.ManifestEntries | backend/src/services/mod.rs:850-873 | One entry per board id in order, with the stored content and snapshot hashes; fails exactly when a snapshot is not stored |
| EvidenceFreeze.FreezeEvidenceBoard | backend/src/services/mod.rs:757-895 | The whole procedure against its specification: refused exactly when a header, reference, claim or gap is unacceptable, otherwise the canonical board and its manifest, which RecordMeaning.FrozenBoardKeeps and FreezeProperties.BoardIsCanonical describe |
| FreezeProperties.FreezeIgnoresOrder | backend/src/services/mod.rs:787-895 | Permuting evidence ids, claims, gaps, and the references inside claims changes neither whether a freeze succeeds nor the board and manifest it yields |
| FreezeProperties.BoardIsCanonical | backend/src/services/mod.rs:787-895 | A frozen board has evidence, claims and gaps strictly sorted by id, trimmed claims with strictly sorted references inside the board, exactly the evidence requested, and a manifest matching the stored rows |
| FreezeProperties.FreezeIsIdempotent | backend/src/services/mod.rs:787-895 | Freezing a frozen board again reproduces it and its manifest |
| RecordMeaning.FrozenBoardKeeps | backend/src/services/mod.rs:787-895 | A frozen board keeps of the request everything but order and outer whitespace: as many claims and gaps, each of one requested, with the same id, check, status, confidence or priority, references, and statement, description and resolution but for outer whitespace; and version, reason, evidence and the run's id and binding |
| RecordMeaning.FreezeAcceptsExactly | backend/src/services/mod.rs:757-873 | Which requests are refused, in terms of the request alone: schema and version, a reason that is not blank, evidence listed once and stored, and for each claim and gap a stable id not used twice, a check of the profile, text that is not blank, a finite confidence from 0 to 1, and references into the board |
| PassportDraft.NormalizeStatements | backend/src/services/mod.rs:1625-1649 | In place: succeeds exactly when ids are stable and distinct and every statement is non-empty and cites distinct board evidence, and then all are normalised |
| PassportDraft.NormalizeRisks | backend/src/services/mod.rs:1651-1685 | In place: succeeds exactly when ids are stable and distinct and every risk is valid, and then all are normalised |
| PassportDraft.NormalizeKnownGaps | backend/src/services/mod.rs:1687-1695 | Succeeds exactly when no gap is blank, and then returns them trimmed in order |
| PassportDraft.NormalizeNarrative | backend/src/services/mod.rs:981-1004 | The narrative is accepted exactly when every part is valid, and then is the normalised and sorted one |
| PassportDraft.NormalisedCitesBoard | backend/src/services/mod.rs:981-998 | A normalised narrative cites only evidence of the board |
| RecordMeaning.NarrativeIsKept | backend/src/services/mod.rs:981-1004 | A frozen narrative keeps everything but order, outer whitespace and blank conditions: statements with their id, status and evidence, risks with their severity, known gaps, summary, scope and revision |
| RecordMeaning.NarrativeAcceptsExactly | backend/src/services/mod.rs:1613-1695 | Which narratives are accepted, in terms of the request and the board alone |
| Scoring.ValidateFinding | backend/src/services/scoring.rs:299-347 | Valid exactly when the rationale is not blank, the evidence is distinct and available, and a reason is given exactly for not-applicable, approved where the rule demands it |
| Scoring.CollectFindings | backend/src/services/scoring.rs:150-169 | Succeeds exactly when no check is answered twice and none is foreign, and then maps each check id to its finding |
| Scoring.ScoreCheck | backend/src/services/scoring.rs:174-228 | One check is scored exactly when its rule and dimension exist and its finding is valid; what the result says is in ScoringMeaning.ScoreSays |
| Scoring.Accumulate | backend/src/services/scoring.rs:204-213 | After a result is added in place, the accumulators of all seven dimensions are the sums over the results so far |
| Scoring.ScoreChecks | backend/src/services/scoring.rs:171-229 | The loop over the profile yields one result per check in profile order, leaves in the accumulators the per-dimension sums over those results, and fails exactly when a check is missing, doubled, invalid or unknown to the standard |
| Scoring.FinalizeDimensionScores | backend/src/services/scoring.rs:349-365 | Each dimension's score is the floor of five times earned over applicable weight, or zero without weight |
| Scoring.CapRating | backend/src/services/scoring.rs:239-249 | The rating after all triggered high-risk caps; fails exactly when a triggered cap names no rating |
| Scoring.ScoreCheckResults | backend/src/services/scoring.rs:137-266 | The loops succeed exactly when submission and catalogue are acceptable, yield the specified results, which ScoringMeaning.ScoreSays describes, and report an invalid catalogue only for a catalogue fault |
| ScoringProperties.NeverInvalidCatalog | scripts/validate_audit_catalog.py:177-213 | For a catalogue that passes the validator no submission is answered with an invalid-catalogue error |
| ScoringProperties.AcceptsExactlyBijections | backend/src/services/scoring.rs:159-229 | For such a catalogue scoring succeeds if and only if the header is valid, the findings are a bijection onto the profile's checks, and each finding is valid for its check's rule |
| ScoringProperties.ScoringIgnoresOrder | backend/src/services/scoring.rs:159-229 | Any permutation of the findings has the same outcome, results in profile order included |
| ScoringProperties.TotalBounds | backend/src/services/scoring.rs:231-238 | Each dimension scores 0..5, the total is floor(20*sum/7), within 0..100 and without overflow, and is 100 if and only if every dimension scores 5 |
| ScoringProperties.RatingIsMinimum | backend/src/services/scoring.rs:239-249 | The final rating is the minimum of the base rating and all triggered caps, so their order does not matter |
| ScoringProperties.ScoringIsMonotone | backend/src/services/scoring.rs:193-249 | Results that earn no less and are capped no more strictly never lower a dimension score, the total or the final rating |
| ScoringProperties.BetterFindingNeverHurts | backend/src/services/scoring.rs:193-249 | Replacing one applicable finding by one with no fewer points and no stricter cap never lowers a dimension score, the total or the final rating |
| ScoringProperties.NotApplicableIsClosed | backend/src/services/mod.rs:719-731 | As the service approves no not-applicable finding, where every rule demands approval an accepted submission answers every check with an applicable finding |
| ScoringMeaning.ScoreSays | backend/src/services/scoring.rs:78-86 | What the results of an accepted submission say, by finding, check and rule alone: pass, partial, fail and unknown each earn the check's weight times the rule's points of that name and not applicable nothing; a dimension's score is five times the points over the weight, rounded down; the total is twenty times the sum over seven, rounded down; the rating is that of the greatest threshold reached, or a cap of a high-risk check if lower |
| ScoringMeaning.ScoreAcceptsExactly | backend/src/services/scoring.rs:288-347 | A submission is scored if and only if schema and version are right, there is exactly one finding for each check of the profile that the binding names and none else, and each finding gives a rationale, cites board evidence once, and gives a reason exactly if not applicable, with approval where the rule demands it |
| ScoringMeaning.ShippedScores | backend/src/services/scoring.rs:231-249 | With the shipped standard and any shipped profile: all pass is total 100 and core_candidate, all unknown or all fail is total 0 and not_recommended, a failed high-risk check is not_recommended, an unknown one at most manual_only and a partial one at most trial |
| ShippedCatalog.ShippedKeepsTheRules | backend/src/services/scoring.rs:14-18 | The standard and all four profiles the backend is compiled with keep the catalogue rules, and every rule demands approval of not-applicable |
| NormalizerProperties.Image | backend/src/services/normalizer.rs:28-153 | Every normalised identifier is a lower-case host and a clean path outside github.com, or an owner that is no dot segment and a repository of github.com |
| NormalizerProperties.AcceptedExactly | backend/src/services/normalizer.rs:28-101 | A text is read as a host and a path if and only if it spells https, a host without credentials or a trailing dot, no port but 443, and a path without query, fragment, percent sign, empty or dot segment, all without whitespace or backslash; the host is all that stands before the first slash, even a query, and is lowered, and the trailing slashes are dropped |
| NormalizerProperties.QueryInHost | backend/src/services/normalizer.rs:53-62 | A query with no slash before it is accepted as a part of the host |
| NormalizerProperties.GithubExactly | backend/src/services/normalizer.rs:103-139 | On github.com a path gives an identifier if and only if it is exactly an owner and a repository of which something is left without .git, and then it is both in lower case |
| NormalizerProperties.SpellingsAgree | backend/src/services/normalizer.rs:38-119 | Scheme and host in any case, port 443 given or not, and a trailing slash or not, all give one identifier |
| NormalizerProperties.IdempotentExactly | backend/src/services/normalizer.rs:103-152 | Normalising a canonical URL gives the same identifier if and only if it is in the url namespace or its repository name neither ends in .git nor is a dot segment |
| NormalizerProperties.DoubleGitIsNotSettled | backend/src/services/normalizer.rs:128-131 | A concrete URL for which normalising is not idempotent |
| NormalizerProperties.KeysDetermineIdentifiers | backend/src/services/normalizer.rs:10-13 | On normalised identifiers equal keys, equal canonical URLs and equal identifiers are one and the same, so no url identifier shares a canonical URL with a github one |
| NormalizerProperties.KeyIsToolId | backend/src/services/normalizer.rs:155-166 | The key of a normalised identifier is a well-formed tool id |
| NormalizerMeaning.NormalizesExactly | backend/src/services/normalizer.rs:28-153 | Character by character: a text has an identifier if and only if it is https in any case, a host with no slash, colon, at sign or final dot, the port 443 with any zeros and a plus sign or none, and a path with no query, fragment, percent or at sign and no empty, single- or double-dot segment; which is url:host/path in lower-case host, or github:owner/repo of exactly two segments without .git |
| ReferenceNormalizer.ReferenceAcceptsExactly | scripts/validate_tool_identity.py:40-72 | The Python reference reads a text without whitespace, backslash or separators as a host and a path if and only if it spells, after any leading control characters, https, a host without marks or what the first bracket of the authority opens, a port that is empty or 443 in at most 4300 plain digits, a clean path that may hold an @, and at most an empty query and an empty fragment; whatever urlsplit takes for an address in brackets |
| ReferenceNormalizer.NormalizersPartExactly | backend/src/services/normalizer.rs:28-31 | On every text, and whatever urlsplit takes for an address in brackets, the port and the Python reference part if and only if the reference raises on its brackets, or reads a tool behind leading controls, in brackets, with an empty query or fragment, with a colon without port or with an @ in the path, or the service reads a tool with a separator character, with brackets, a ? or a # in the host, or with a port that is signed or longer than Python reads |
| ReferenceNormalizer.QueryIsServiceOnly | backend/src/services/normalizer.rs:53-62 | One text that the service accepts and the reference refuses |
| ReferenceNormalizer.ColonIsReferenceOnly | scripts/validate_tool_identity.py:33-37 | One text that the reference accepts and the service refuses |
| ReferenceNormalizer.OpenBracketRaises | scripts/validate_tool_identity.py:51 | One text on which the reference raises |
| ReferenceNormalizer.AddressIsReferenceOnly | backend/src/services/normalizer.rs:62-67 | An address in brackets, which the service refuses and the reference reads if urlsplit takes it for an address |
| ToolRegistry.RegistryStore.InsertIdentifiers | backend/src/repository/mod.rs:276-296 | Identifier rows are inserted one by one until one is refused |
| ToolRegistry.RegistryStore.CreateTool | backend/src/services/mod.rs:316-339 | An accepted request whose rows are all new stores the tool, its identifiers and its aliases; otherwise nothing changes |
| ToolRegistry.RegistryStore.AddIdentifier | backend/src/services/mod.rs:491-544 | Adds a key-checked identifier that no other tool owns to table and JSON array together, or changes nothing |
| RegistryProperties.CreateToolKeeps | backend/src/repository/mod.rs:248-313 | A committed creation keeps every JSON array equal to its identifier rows, and adds exactly the rows requested |
| RegistryProperties.AddExternalIdKeeps | backend/src/repository/mod.rs:405-468 | So does a committed addition |
| RegistryMeaning.CreateExactly | backend/src/services/mod.rs:1858-1939 | A tool is created if and only if the request and the tables allow it, spelled out: tool id, name, URL, one to twenty identifiers whose URLs read as their keys, one of which is the tool id, aliases apart but for case, and no id, row or alias already there; and then the tool's row, its identifier rows and its aliases are those asked for and nothing else changes |
| RegistryMeaning.AddExactly | backend/src/services/mod.rs:491-544 | An identifier is added if and only if the tool exists, its URL reads as its key, no other tool owns the key and the row is new; then both array and rows have it, updated_at is now, and nothing else changes |
| RegistryProperties.RegistryIsConsistent | backend/src/repository/mod.rs:248-468 | After any creations and additions each tool's JSON array lists exactly its identifier rows, none twice, each tool owns the key that is its id, and no row is lost |
| RegistryProperties.StepKeepsOneOwner | backend/src/services/mod.rs:515-527 | A creation or an addition keeps one owner for every key if and only if it is refused or no other tool owns a key that it adds, which is what add_identifier looks up before its transaction |
| RegistryProperties.OneOwnerExactly | backend/src/repository/mod.rs:248-468 | Over any run, every key has one owner if and only if no committed creation or addition added a key that another tool owned |
| RegistryProperties.KeysHaveOneOwner | backend/migrations/0002_create_tools_and_aliases.sql:18-28 | In particular, if no namespace contains a colon (as with github and url), no key is ever owned by two tools |
| IdentityTheorems.ColonNamespacesSplitAKey | backend/src/services/mod.rs:1877-1899 | Two requests that the service accepts and after which two tools own one key, as a namespace may contain a colon |
| IdentityTheorems.SplitKeysResolveApart | scripts/validate_tool_identity.py:174-190 | After those two requests the service reports a conflict for a URL that the reference resolves |
| Resolver.NormalizeUrls | backend/src/services/mod.rs:361-384 | The linear scan keeps the first identifier of each key and notes whether any URL was invalid |
| Resolver.CandidateIds | backend/src/services/mod.rs:395-401 | Whatever order the two sets are enumerated in, the candidates are their union, sorted, each once |
| Resolver.ResolveTool | backend/src/services/mod.rs:352-489 | The whole procedure against its specification, branch by branch, with the JSON arrays of the matched tools as what they own |
| ResolverProperties.SameIdentifiers | scripts/validate_tool_identity.py:160-172 | Keeping the first identifier of each key and sorting gives the list that keeping the last and sorting gives |
| ResolverProperties.OwnedKeysAre | backend/src/services/mod.rs:421-426 | In a consistent registry the JSON arrays of the matched tools hold exactly the keys of their identifier rows |
| ResolverProperties.ResolverMatchesReference | scripts/validate_tool_identity.py:155-224 | In a consistent registry, with the same name matches, and for URLs that both normalisers read alike and whose keys have one owner each, the reference does not raise and the service resolves as it does |
| ResolverProperties.ResolversAgreeExactly | scripts/validate_tool_identity.py:155-224 | For URLs that both normalisers read alike, the service and the reference give the same resolution if and only if they have the same candidates and match the same tools, or the same candidates and an invalid URL or more than one tool that the reference matches |
| ResolverProperties.OneUrlAgreesExactly | scripts/validate_tool_identity.py:174-190 | On one URL that both read alike, they agree if and only if its key has one owner; with two, the service reports the conflict and the reference resolves to the one it listed last |
| ResolverMeaning.ResolveDecides | backend/src/services/mod.rs:352-489 | For any registry, every case and its status, tool and reason in terms of what the URLs read as, which tools have rows of those keys and what their arrays list; the identifiers are those read and the candidates the owners and the named tools, each once and in order |
| IdentityTheorems.ResolvedExactly | backend/src/services/mod.rs:404-446 | With one owner per key, an intake resolves to a tool if and only if its URLs are all valid, yield at least one key, and yield none the tool does not own |
| IdentityTheorems.ResolutionsAreValid | scripts/validate_tool_identity.py:227-292 | A resolution passes the semantic checks of the validator if and only if each of its identifiers normalises to itself |
| IdentityTheorems.CandidateCreates | backend/src/services/mod.rs:1858-1939 | Within the length limits a proposed tool can be created if and only if its identifier normalises to itself |
| IdentityTheorems.RoundTrip | backend/src/services/mod.rs:352-544 | Once a proposed tool is created it owns its key for good; while every key has one owner, as it does when no namespace has a colon, and after any later creations and additions, every intake naming only its identifier resolves to it, and an intake resolves to it if and only if all it names is owned by it |
| ResearchLoop.InvestigationRound | orchestrator/src/toolpassport_orchestrator/nodes.py:259-343 | A round against its specification: sources cut to the remaining budget, each stored, kept or dropped by mode and backend, gaps marked by what was added |
| ResearchLoop.LoopKeeps | orchestrator/src/toolpassport_orchestrator/nodes.py:315-343 | After any number of rounds the source budget is kept, one source is counted per board entry added, the gaps are the same in the same order, and a gap is resolved exactly when it was or an entry added since supports its check |
| ResearchLoop.OpenGapsOnlyClose | orchestrator/src/toolpassport_orchestrator/nodes.py:315-328 | From round to round no more gaps are open than before |
| ResearchLoop.RunLoop | orchestrator/src/toolpassport_orchestrator/graph.py:52-56 | The loop ends within max(1, max_rounds - initial round) rounds, and continues exactly while both budgets remain and more than max(1, total/4) gaps are open |
| ResearchMeaning.RoundIsSaid | orchestrator/src/toolpassport_orchestrator/nodes.py:259-435 | What one round does, in the order of its sources: how many the budget admits, which of them are stored, kept or reported as errors, which gaps that resolves, and which of the four reasons to stop comes first |
| GraphTrace.Backend.AppendSelected | orchestrator/src/toolpassport_orchestrator/graph.py:136-149 | The decision events of one kind are posted in order until one is refused |
| GraphTrace.Backend.RunNode | orchestrator/src/toolpassport_orchestrator/graph.py:112-150 | An instrumented node posts its start, then its error, or its decisions, its finish and last its request for approval; it succeeds exactly when each is accepted in its turn |
| GraphTrace.NodeAccepted | orchestrator/src/toolpassport_orchestrator/graph.py:112-150 | From a pending or running run all events of any node are accepted, whatever the node does, and leave the run running at that node, or waiting when it is the gate |
| GraphTrace.GraphTraceAccepted | orchestrator/src/toolpassport_orchestrator/graph.py:219-244 | For any number of research rounds and any failing node every event of the graph, and every part cut off in between, is accepted by the projection; a completed trace ends in waiting_approval at human_review_gate |
| GraphTrace.ApprovalBeforeFinishIsRefused | orchestrator/src/toolpassport_orchestrator/graph.py:136-149 | Were approval_required posted before node_finished, the last event would be refused |
| GraphMeaning.NodeTraceSays | orchestrator/src/toolpassport_orchestrator/graph.py:68-150 | The table of what each of the thirteen nodes posts, with its name and payloads: started and error, or started, the one decision of that node, and finished; the gate asks for approval after it has finished |
| GraphMeaning.WalksAreThePaths | orchestrator/src/toolpassport_orchestrator/graph.py:219-244 | The ways along the edges from start to end are exactly the paths of the model with at least one round of research |
| GraphOnTrustCore.TraceCommits | backend/src/services/mod.rs:266-312 | The graph posts its events one by one while the uploads, freezes and submissions of its nodes go on in between: however all of these interleave, commit, abort, read stale rows or crash, the callers' events in the log are the trace as far as it was posted, but for a last post that has no answer, and status and node are what those events alone make them |
| GraphOnTrustCore.PostLandsExactly | backend/src/services/mod.rs:266-312 | The service never turns such a post down; it commits if and only if the database lets it and its query for the tail sees the whole log |
| GraphOnTrustCore.GraphReachesTheGate | orchestrator/src/toolpassport_orchestrator/graph.py:219-244 | Whatever its nodes do and whatever becomes of their requests, a graph that runs a fresh run to its end, its gate waiting, has brought the stored run to waiting_approval at human_review_gate, with its trace as all that callers wrote; if a node raised, the run is left running |
| GraphOnTrustCore.GateFollowsFreeze | orchestrator/src/toolpassport_orchestrator/nodes.py:726-736 | When a run that only the graph writes to waits for approval, the log holds the freeze of a passport before the request for approval, and the newest passport and its provenance are found |
| GraphOnTrustCore.NextPostCanLand | orchestrator/src/toolpassport_orchestrator/graph.py:112-150 | Wherever the graph may post its next event, the run can go on so that it commits |
| GraphCompletion.GraphCanFinish | orchestrator/src/toolpassport_orchestrator/graph.py:219-244 | On a run that is bound to a catalogue that keeps its rules, every trace of the graph can be posted to its end: a board, check results and a passport are frozen first, and every post commits |
| GraphCompletion.ShippedIsBound | backend/src/services/scoring.rs:14-18 | A run bound to the shipped standard and its generic profile is such a run |

## Left out

- Scoring: weights, points and confidences are exact reals; the code computes in f64, so rounding just below a whole score is not modelled. A confidence that is not finite is.
- Hashing: the byte form of canonical JSON and SHA-256 itself; see above.
- Repository.Tables: the tables are kept per run, with UUIDs as strings; the collision of two fresh UUIDs, a CHECK constraint on lengths and a lost connection appear as a transaction that aborts.
- RunProtocol.Advance: the services are functions from the values a request holds to its next stage, not methods, because between two of their statements other requests run; a read that fails is the crash of the request.
- The answer of the chain is arbitrary: a transaction hash or a failure. Its RPC, preflight check and gas are not modelled.
- Texts of error messages and HTTP status codes: errors are kept apart only where the code acts on the difference.
- Server-sent events, the broadcaster, HTTP routing and JSON extraction.
- File storage and its path checks: an artifact is its content hash and size.
- Length limits on file names, titles, excerpts and goals, and the enum parsers other than those of status and rating.
- ReferenceNormalizer: `urlsplit` is a library function, modelled as of Python 3.11.4; which authorities with both brackets it lets pass is a parameter, as it differs between versions, and the limit of 4300 digits is the default one.
- Resolver.ResolveTool: the tools whose name or alias matches are a parameter, as Rust lowers ASCII and Python folds Unicode case; the checks of intake version and name length are not repeated.
- ToolRegistry: the lookup before `add_external_id` is any earlier decision in the runs of `RegistryProperties`, as the transaction may commit later; in `ToolRegistry.RegistryStore.AddIdentifier` it is made in the same call.
- ResearchLoop: what is fetched from the web or made up as mock evidence, and what the backend returns for it, is arbitrary; the logs and the language model are not modelled.
- GraphTrace: a node's outcome and payloads are arbitrary; resuming from a checkpoint is not modelled.
- GraphOnTrustCore: nobody but the graph makes requests to its run until it waits for approval, and its side requests may come at any time, in any number, not only where its nodes make them.
- The investigation nodes that prepare requests (claims, findings, skeptic review, passport draft), the dashboard, contracts, scripts and deployment.
