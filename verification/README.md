# Epistemic control plane: a verified model

This project models the Go control plane and proves what its parts keep, over whole runs.

- **Event ledger and hand-off** (`EventLedger`, `HandOff`, `EngineSink`, `EventHistory`): the four linked
  indexes of the portable protocol, updated under one lock that is released while an event is forwarded to
  an engine run. `HandOff` is a step system with one step per lock section or forward; `EngineSink` joins it
  with the in-memory engine.
- **Decision lifecycle** (`Store`, `MemoryStore`, `Service`, `ServiceCode`, `Lifecycle`, `RunHistory`,
  `CallEffects`, `CheckEffects`, `IssuedCertificates`): the repository and the service calls as classes whose
  methods are proved against functions of the contents, an invariant over every history of calls, and what
  each call leaves behind, field by field.
- **Analysis graph** (`Review`, `Rules`, `SupportScore`, `Relabel`, `Policy`, `Projection`, `ReviewGraph`,
  `RulesGraph`, `ReviewFacts`, `RulesFacts`, `Pipeline`, `RulesPipeline`, `CertificateReport`, `PortableResult`):
  from events to claims, fresh IDs, storage, projection, verdict and report.
- **Aggregates and ingest** (`Portfolio`, `DashboardCounts`, `DashboardRows`, `DashboardRuns`, `Dashboard`,
  `BoardFacts`, `Ingest`, `IngestService`): one fold over unordered maps against declarative counts, and an idempotent store.
- **Codecs, transforms, fan-out** (`Header`, `Json`, `StructJson`, `EventJson`, `Protocol`, `WireFormat`, `Seal`,
  `Relay`, `Bus`), over the helpers `Text`, `Selection` and `Sorting`. `StructJson` is how Go's decoder reads objects into structs.

SHA-256 is any function; theorems that need it free of collisions say so. Fresh IDs are numbered draws that
never repeat. Times are integers, floats are reals, JSON is a datatype whose object members are unordered once
decoded (section 4 of RFC 8259). Iteration over a Go map is a loop that picks keys in an arbitrary order.

Seven statements hold under a condition that is part of the theorem, with an input that fails it.
- A header survives printing and merging exactly when no field holds a semicolon or ends in white space.
- An event survives encoding and decoding, and a standard field keeps its own member, exactly when the case variants of
  its fields' names tell them nothing new: Go's decoder takes names in any letter case, and an object under such a name
  is merged into the field (`UpperCaseKeyIsReadBack`, `UpperCaseContextIsMerged`, `ExtensionsAreMerged`, `UpperCaseIdWins`).
- What the relay emits is free of listed values exactly when the event's data decodes or held none
  (`LargeNumberKeepsTheSecret`).
- A certificate's text is accepted whole exactly when all members, written over or not, have their fields' types
  (`WrittenOverIsRefused`).
- An analysis keeps its shape when its IDs are replaced exactly when the service binds no claim on its own
  (`BuildReportOfAnotherKind`).
- Events of a decision cannot be doubled after a publication exactly when none of its forwards was in flight then; a
  decision evaluated once always meets that (`StaleForwardCanDouble` is a run that does not).
- In the in-memory engine each listed event is in one place as long as nobody adds to the run under its ID
  (`UsedIdIsHeldTwice`).

## Model

| member | source | states |
|---|---|---|
| EventLedger.ProtocolState.AcceptSection | apps/control-plane/internal/httpapi/protocol.go:101-156 | the first lock section of an accept: the answer, and the whole new contents of the four indexes, are those of the specification, which the lemmas below are about |
| EventLedger.ProtocolState.CheckEvent | apps/control-plane/internal/httpapi/protocol.go:102-141 | the chain of refusals in the code's order, without changing anything |
| EventLedger.AcceptedExactly | apps/control-plane/internal/httpapi/protocol.go:101-156 | an event under a new ID is accepted exactly when its effective key and its reserved number are free and its parent, if named, is stored and not numbered at or above it in the same written partition; keys, partitions and comparisons are written out over the stored events |
| EventLedger.RefusedExactly | apps/control-plane/internal/httpapi/protocol.go:102-141 | each refusal in the same terms, and which one wins |
| EventLedger.AcceptedIsRecorded | apps/control-plane/internal/httpapi/protocol.go:136-150 | what an accept leaves behind: the event under its ID, its key and number taken by it, its decision listing it last |
| EventLedger.ProtocolState.RecordEvent | apps/control-plane/internal/httpapi/protocol.go:136-150 | all four indexes gain exactly this event |
| EventLedger.ProtocolState.RollBackSection | apps/control-plane/internal/httpapi/protocol.go:160-173 | the second lock section removes the event from every index it may be in |
| EventLedger.ProtocolState.PublishSection | apps/control-plane/internal/httpapi/protocol.go:226-230 | the run is published and the buffered IDs are copied in the same section |
| EventLedger.ProtocolState.ProtocolEvents | apps/control-plane/internal/httpapi/protocol.go:342-361 | the returned history is the stable sort of the decision's events |
| EventLedger.AcceptKeepsConsistent | apps/control-plane/internal/httpapi/protocol.go:101-156 | idempotency is a bijection with the accepted events by effective key, each decision lists exactly its events once, each reserved sequence has one owner; kept by every accept |
| EventLedger.RollBackKeepsConsistent | apps/control-plane/internal/httpapi/protocol.go:157-175 | a rollback, after any other steps, keeps the same agreement of the indexes |
| EventLedger.PublishKeepsConsistent | apps/control-plane/internal/httpapi/protocol.go:226-230 | so does a publication |
| EventLedger.SameKeySameIdIsUnreachable | apps/control-plane/internal/httpapi/protocol.go:111-116 | in a consistent ledger the branch "key known, same ID" cannot be taken |
| EventLedger.DuplicateMeansSameJson | apps/control-plane/internal/httpapi/protocol.go:102-110 | an accepted ID is answered "duplicate" exactly when the two events are equal as JSON values |
| EventLedger.CanonicalHashComparesJson | api/go/canonical.go:15-40 | the canonical hash of a collision-free digest compares events as JSON values |
| EventLedger.RollBackUndoesAccept | apps/control-plane/internal/httpapi/protocol.go:101-175 | an accept followed at once by its rollback restores the same ledger |
| EventLedger.RolledBackIsAcceptedAgain | apps/control-plane/internal/httpapi/protocol.go:157-175 | after a rollback the same event is accepted again as new exactly when it names no parent, or its parent is another event that still stands and precedes it |
| HandOff.StepKeepsInv | apps/control-plane/internal/httpapi/protocol.go:146-182 | every lock section and every forward, in any interleaving, keeps the places of all events and the agreement of ledger, flights, evaluators and runs |
| HandOff.ReachableKeepsInv | apps/control-plane/internal/httpapi/protocol.go:186-249 | the same over every run of the system |
| HandOff.ExactlyOnce | apps/control-plane/internal/httpapi/protocol.go:226-249 | in every state each listed event of a published decision is in at least one place unless the evaluation stopped, and in at most one unless a forward to a superseded run was refused since; the places are the evaluator's pending IDs, its own accept's flight and the run |
| HandOff.OneEvaluationIsExact | apps/control-plane/internal/httpapi/protocol.go:157-249 | a decision evaluated once, whatever forwards are refused: each listed event is in exactly one place, or, once the evaluation stopped, in at most one |
| HandOff.DrainedEvaluationsAreExact | apps/control-plane/internal/httpapi/protocol.go:157-249 | the same for a decision evaluated any number of times, when none of its forwards is in flight at any of the publications |
| HandOff.DoublingExactly | apps/control-plane/internal/httpapi/protocol.go:157-249 | that condition is exact: after a publication, before the next one of the decision, some sequence of steps puts an event in two places if and only if one of the decision's forwards was in flight at the publication |
| HandOff.QuietRunEqualsLedger | apps/control-plane/internal/httpapi/protocol.go:226-249 | when the evaluator is through and nothing is in flight, the run holds exactly the listed events, without duplicates, unless a forward to a superseded run was refused since |
| HandOff.DrainedRunEqualsLedger | apps/control-plane/internal/httpapi/protocol.go:157-249 | the same with no such exception, whatever forwards were refused, when each publication found none of the decision's forwards in flight |
| HandOff.StaleForwardCanDouble | apps/control-plane/internal/httpapi/protocol.go:157-175 | one such sequence in full, from the empty system: re-evaluation, a refused forward to the first run, its rollback and a redelivery |
| HandOff.NoRefusalNoRollback | apps/control-plane/internal/httpapi/protocol.go:157-173 | without refused forwards nothing is rolled back and no decision has such a refusal behind it |
| HandOff.AncestorsAreOlder | apps/control-plane/internal/httpapi/protocol.go:118-128 | every ancestor was accepted strictly earlier; no ancestor repeats |
| HandOff.SequencesIncreaseDownTheChain | apps/control-plane/internal/httpapi/protocol.go:124-128 | every ancestor is in the ledger, and positive sequences strictly increase along parent links in one written partition |
| HandOff.ParentsFormAForest | apps/control-plane/internal/httpapi/protocol.go:118-128 | parent links form a forest in every state reached without a refused forward |
| EngineSink.ForwardIsSinkAdd | apps/control-plane/internal/service/service.go:135-149 | the forward of a validated event to an existing in-memory run never fails, adds the event itself or nothing, changes the run's external IDs by one deduplicated addition, and touches no other run |
| EngineSink.StoredIsSinkAdd | apps/control-plane/internal/store/memory.go:62-80 | the external-ID dedup of the in-memory repository is the abstract sink's |
| EngineSink.JointStepKeepsInv | apps/control-plane/internal/httpapi/protocol.go:157-175 | hand-off and engine together, with runs, events, analyses, checks and evaluations of the engine's own in between, events added to portable runs included: every portable step is one of the abstract hand-off and none is a refusal |
| EngineSink.MemoryNeverRefuses | apps/control-plane/internal/httpapi/protocol.go:146-249 | with the in-memory engine and any calls of the engine's own, events added to portable runs under any external ID included: no refusal, no rollback, no stuck evaluation, no listed event lost, and each listed event whose ID those calls did not use on the run in exactly one of the three places |
| EngineSink.UsedIdIsHeldTwice | apps/control-plane/internal/store/memory.go:62-80 | the exception is real: a call of the engine's own under the ID of an event that still waits puts that ID in two places |
| EngineSink.EngineHoldsTheLedger | apps/control-plane/internal/store/memory.go:62-80 | afterwards the engine run holds every listed event, no external ID twice, and nothing else but what the engine's own callers added (without those: exactly the list, in number too); each event not theirs has the kind, source, correlation, time, payload and written sequence of the ledger's event of that ID |
| EngineSink.EngineEventsAreTheLedgers | apps/control-plane/internal/httpapi/protocol.go:226-249 | in every state, quiet or not, each event of a portable run is the ledger's event of that ID, or carries an ID the engine's own callers used on the run |
| EventHistory.EarlierIsStrictWeakOrder | apps/control-plane/internal/httpapi/protocol.go:350-361 | the history comparator is a strict weak order |
| EventHistory.HistoryIsStableSort | apps/control-plane/internal/httpapi/protocol.go:342-361 | the history is ordered, a permutation of the list, and stable |
| EventHistory.HistoryInOrder | apps/control-plane/internal/httpapi/protocol.go:350-361 | in a history numbered events come first, by number; equal numbers, and unnumbered events, by time |
| EventHistory.HistoryHoldsTheDecision | apps/control-plane/internal/httpapi/protocol.go:342-361 | it holds exactly the accepted events of the decision |
| EventHistory.ParentStandsBeforeChild | apps/control-plane/internal/httpapi/protocol.go:124-128 | a sequenced parent stands before its sequenced child of the same written partition and decision |
| MemoryStore.Memory.AddEvent | apps/control-plane/internal/store/memory.go:62-80 | the loop over stored events: first match by external ID, or append with a sequence |
| MemoryStore.Memory.SaveAnalysis | apps/control-plane/internal/store/memory.go:81-112 | the new contents are the specification's, table by table |
| MemoryStore.Memory.GraphOf | apps/control-plane/internal/store/memory.go:132-176 | the map loops, in any order, with their sorts give the listing of each table |
| Store.Collect | apps/control-plane/internal/store/memory.go:132-176 | one such loop: the sorted list does not depend on the iteration order |
| MemoryStore.Memory.UpdateVerification | apps/control-plane/internal/store/memory.go:194-224 | claim, relation and unknowns change as the outcome says, or nothing |
| CheckEffects.FirstPlan | apps/control-plane/internal/service/service.go:256-288 | the first plan of a decision returns and stores exactly one check for each stored claim that is critical and neither supported nor externally verified, in claim order: planned, in the sandbox, to be approved; and none for any other claim |
| CheckEffects.LaterPlan | apps/control-plane/internal/service/service.go:256-264 | a later plan returns the stored checks and stores nothing |
| CheckEffects.RefusedExecution | apps/control-plane/internal/service/service.go:290-306 | an unknown check, a completed one, one outside sandbox and staging and one without the approval it asks for are refused, each with its error, and nothing is stored |
| CheckEffects.CompletedExecution | apps/control-plane/internal/service/service.go:290-342 | an admitted check with an outcome and an artifact is completed field by field; in the tables the check, its claim, one relation and, if it passed, the open critical unknowns of its decision change, each as written out, and nothing else |
| CheckEffects.UselessResult | apps/control-plane/internal/service/service.go:312-324 | any other result is refused; a check that was run for it stays behind as running |
| CheckEffects.ClaimsFollowTheirChecks | apps/control-plane/internal/store/memory.go:194-224 | in every reachable state a claim is as its analysis saved it, unless its check failed, which makes it contradicted with burden 1 and value 0, or passed, which makes it externally verified with direct strength 1 and value 1; all else stays |
| CheckEffects.FailedCheckBlocks | apps/control-plane/internal/service/service.go:290-389 | once a check of a decision has failed, no certificate issued afterwards allows action |
| MemoryStore.Memory.SaveDecision | apps/control-plane/internal/store/memory.go:225-233 | stored only when known |
| MemoryStore.Memory.SaveCertificate | apps/control-plane/internal/store/memory.go:243-251 | the first certificate stays |
| ServiceCode.ControlPlane.CreateRun | apps/control-plane/internal/service/service.go:67-120 | refused exactly by a blank recommendation or by the lookups of project, account and AI system, in the code's order; otherwise the run gets the project's account, its decision is stored and its AI system is marked as used |
| CallEffects.CreatedRun | apps/control-plane/internal/service/service.go:67-133 | the run and the decision a request makes, field by field, linked to each other and both carrying the recommendation |
| CallEffects.CertificateAnswersTheRun | apps/control-plane/internal/service/service.go:67-389 | in every reachable state a stored certificate certifies the recommendation its run was created with |
| Service.ResolveRefuses | apps/control-plane/internal/service/service.go:89-112 | "not found" exactly when something named is missing, "invalid" exactly when what is named does not fit together, in the order of the lookups |
| Service.ResolvedBelongs | apps/control-plane/internal/service/service.go:89-112 | the lookups pass exactly when everything the request names exists and fits together with the account it names or gets from its project |
| ServiceCode.ControlPlane.AddEvent | apps/control-plane/internal/service/service.go:135-154 | the same, with the defaults and refusals of the code |
| CallEffects.AddedEvent | apps/control-plane/internal/service/service.go:135-154 | refused without kind or payload and for an unknown run; a known external ID is answered with its first event; else the event, with its defaults, is appended and nothing else changes |
| ServiceCode.ControlPlane.Analyze | apps/control-plane/internal/service/service.go:156-250 | an analysed run is only read; a new analysis is relabelled and saved |
| CallEffects.StoredAnalysis | apps/control-plane/internal/store/memory.go:81-112 | storing an analysis marks the run, lists the new claims in its decision, and leaves checks and certificates alone |
| ServiceCode.ControlPlane.Plan | apps/control-plane/internal/service/service.go:256-288 | checks are planned once, for critical claims that are not yet supported or verified |
| ServiceCode.ControlPlane.ExecuteVerification | apps/control-plane/internal/service/service.go:290-342 | every refusal in order, the running state stored first, then the completion |
| ServiceCode.ControlPlane.Evaluate | apps/control-plane/internal/service/service.go:344-389 | the stored certificate, or a new one saved with its decision |
| IssuedCertificates.FirstEvaluation | apps/control-plane/internal/service/service.go:344-389 | the first evaluation returns and stores a certificate whose every field is stated over the tables: verdict, permission and conditions by the stored claims and open unknowns, one condition per critical partially supported claim in claim order and the rollout line last, the claims, the checks, the hashes, the approval, the digest; the decision is marked alike and nothing else changes |
| IssuedCertificates.OtherEvaluation | apps/control-plane/internal/service/service.go:344-350 | any other evaluation stores nothing |
| IssuedCertificates.StoredCertificateSays | apps/control-plane/internal/service/service.go:344-389 | every stored certificate says this of the state in which it was issued |
| ServiceCode.CollectHashes | apps/control-plane/internal/service/service.go:366-377 | the non-empty hashes of evidence and checks, sorted |
| Lifecycle.CallKeepsInv | apps/control-plane/internal/service/service.go:67-389 | every service call keeps the invariant: claims and unknowns are a replay of what was analysed and checked, each claim has at most one check, completed checks are approved, in sandbox or staging and hashed from their artifact, and every stored certificate is as CertificatesAreSafe says |
| Lifecycle.ReachableKeepsInv | apps/control-plane/internal/service/service.go:67-389 | the same in every state reached by any sequence of calls |
| Lifecycle.HistoryGrows | apps/control-plane/internal/service/service.go:290-342 | over whole histories check status never moves back, completed checks are frozen, certificates never change |
| Lifecycle.CertificatesAreSafe | apps/control-plane/internal/service/service.go:344-389 | a certificate agrees with its decision record, carries its own digest and sorted artifact hashes, and allows action only with approval, a critical claim, no contradicted or rejected claim, every critical claim passing and no open critical unknown |
| Lifecycle.CertificatesAreForever | apps/control-plane/internal/service/service.go:344-350 | every later evaluation returns the same certificate and stores nothing |
| Lifecycle.IssuedCertificate | apps/control-plane/internal/service/service.go:344-389 | a fresh certificate lists exactly the non-empty hashes, sorted; its verdict and its permission are the policy's on the stored claims and unknowns |
| Lifecycle.UnanalysedOwnsNothing | apps/control-plane/internal/store/memory.go:81-112 | the decision of an unanalysed run owns no claim, unknown or check, and a certificate it has allows nothing |
| Relabel.RelabelAnalysis | apps/control-plane/internal/service/service.go:172-242 | the in-place loops equal the one-shot rewrite |
| Relabel.RelabelClaims | apps/control-plane/internal/service/service.go:184-212 | the claim loop, whose "no relation yet" test binds only the first decided claim |
| Relabel.RelabelledFields | apps/control-plane/internal/service/service.go:172-242 | field by field, what the rewrite keeps, fills in and replaces in claims, evidence, assumptions and unknowns; an original ID becomes that of the last item named so, claims over evidence |
| Relabel.BoundEdges | apps/control-plane/internal/service/service.go:201-210 | without proposed relations the first claim that is supported or contradicted, and no other, gets one edge from each item of evidence, of the kind its state says |
| Relabel.ProposedEdges | apps/control-plane/internal/service/service.go:213-225 | proposed relations keep kind and rationale, follow the renaming, and are numbered when they have no ID |
| Relabel.RelabellingPreservesTheGraph | apps/control-plane/internal/service/service.go:172-242 | with distinct original IDs the rewrite is an isomorphism - nodes one to one, every edge, list and link renamed - exactly when the service binds no claim on its own |
| Relabel.RelabelledIsClosed | apps/control-plane/internal/service/service.go:172-242 | no rewritten reference dangles; where the service bound a claim on its own, provided no original ID is one still to be drawn |
| RunHistory.HistoryKeepsAnalysed | apps/control-plane/internal/service/service.go:156-250 | what was analysed for a decision never changes again, whatever is called |
| RunHistory.CertificateWasIssued | apps/control-plane/internal/service/service.go:344-389 | every stored certificate was returned by some evaluation of the history |
| RunHistory.ReachableEventsNumbered | apps/control-plane/internal/service/service.go:135-154 | in every reachable state the events of a run have distinct IDs |
| RunHistory.StoredSupportIsBounded | apps/control-plane/internal/store/memory.go:194-224 | when every analysis call proposes claims scored in [0,1], every stored claim stays so in every reachable state, whatever checks were executed |
| Projection.GraphListsItsOwnRelations | apps/control-plane/internal/store/memory.go:132-176 | a decision's graph lists exactly the stored relations between its own objects |
| Projection.ReachableGraphs | apps/control-plane/internal/store/memory.go:81-222 | in every state of a history each stored relation connects two objects of one decision, whatever IDs an analyzer gives its relations, as long as they differ, are not stored yet and are not of a form the service gives out |
| Projection.RelationsAreForever | apps/control-plane/internal/store/memory.go:96-222 | between any two states of a history every relation stays as it was stored: no analysis or check replaces one |
| Projection.AnalysisComesBack | apps/control-plane/internal/store/memory.go:81-176 | the graph read after an analysis is a permutation of what was saved, in all five lists |
| Review.Gather | apps/control-plane/internal/analysis/code_change_review.go:53-75 | what the event loop gathers: all assessments per requirement in order, the last observation per artifact, the last declaration; an error exactly when some event does not decode |
| Review.FollowReferences | apps/control-plane/internal/analysis/code_change_review.go:87-94 | the nested loop collects the cited artifacts in order |
| Review.MissingEvidenceTypes | apps/control-plane/internal/analysis/code_change_review.go:160-172 | nothing is missing exactly when every required kind occurs |
| Review.ReviewState | apps/control-plane/internal/analysis/code_change_review.go:132-158 | state and justification, with any negative assessment deciding first and the last one otherwise |
| Review.AnalyzeCodeChangeReview | apps/control-plane/internal/analysis/code_change_review.go:46-130 | the whole analysis; refused exactly on an undecodable event or a requirement without ID or text |
| ReviewFacts.OneMoreRequirement | apps/control-plane/internal/analysis/code_change_review.go:77-127 | what each requirement adds, stated over the run's events: its assessments in order, the artifacts they cite as last observed, each once; the claim with state, explanation and score; one relation per item of evidence, its kind by the state; an assumption and an unknown if it is critical and pending |
| ReviewFacts.RequirementsAreTheLast | apps/control-plane/internal/analysis/code_change_review.go:53-81 | the requirements are those of the last declaration; refused are exactly undecodable events and requirements without ID or text |
| ReviewFacts.JustificationExplains | apps/control-plane/internal/analysis/code_change_review.go:132-158 | the first failing assessment explains a contradiction, the last one everything else, with the missing kinds named in order |
| Review.StatesMeanCoverage | apps/control-plane/internal/analysis/code_change_review.go:132-158 | the state of a requirement says what its assessments and cited artifacts say: supported means covered, contradicted means refuted, partial means partly covered, each exactly when no evidence IDs collide |
| Review.OneClaimPerRequirement | apps/control-plane/internal/analysis/code_change_review.go:78-127 | one claim per requirement, in order |
| Review.OpenUnknownsArePending | apps/control-plane/internal/analysis/code_change_review.go:123-126 | an unknown is raised exactly when some critical requirement is pending |
| ReviewGraph.ReviewIsSound | apps/control-plane/internal/analysis/code_change_review.go:98-126 | the analysis of a review is closed and has distinct IDs, so its relabelling is an isomorphism and it comes back whole |
| ReviewGraph.ReviewIsBounded | apps/control-plane/internal/analysis/code_change_review.go:98-126 | every claim of a review is scored in [0,1], as the bounds over histories ask |
| Pipeline.ReviewVerdict | apps/control-plane/internal/analysis/code_change_review.go:46-158 | events analysed, relabelled, saved, projected and judged: VERIFIED only if some requirement is critical, none is refuted and every critical one is covered; VERIFIED_WITH_CONDITIONS weakens this to partly covered; both are exact when no evidence IDs collide |
| Pipeline.ReachableEvidenceIsDistinct | apps/control-plane/internal/analysis/analyzer.go:20-33 | in every reachable state they do not collide, given a shortened hash without collisions |
| Pipeline.VerifiedCertificateIsCovered | apps/control-plane/internal/analysis/code_change_review.go:46-158 | any certificate issued at any later time, after any calls, says VERIFIED only if every critical requirement was covered by the reviewed events |
| Pipeline.AnalysedWereSupported | apps/control-plane/internal/store/memory.go:194-224 | whatever analysis a run got, any later certificate says VERIFIED only if that analysis found a critical claim and every critical claim supported |
| Pipeline.VerifiedMeansAnalysedSupported | apps/control-plane/internal/store/memory.go:194-224 | checks executed in between never turn an unsupported critical claim into an unconditional VERIFIED |
| Policy.Evaluate | apps/control-plane/internal/policy/policy.go:13-64 | each verdict exactly characterised; action is allowed exactly with approval and behind the gates; the conditions in claim order |
| Policy.VerifiedExactly | apps/control-plane/internal/policy/policy.go:33-63 | VERIFIED exactly behind the gates with nothing partial and nothing externally verified |
| Policy.JudgedExactly | apps/control-plane/internal/policy/policy.go:13-64 | each verdict, the permission and the conditions in terms of claims and unknowns alone |
| Policy.VerdictIgnoresOrder | apps/control-plane/internal/policy/policy.go:13-64 | verdict and permission do not depend on the order of claims and unknowns |
| SupportScore.DedupeEvidence | apps/control-plane/internal/analysis/rules.go:138-148 | the loop keeps the first item of each ID |
| SupportScore.DedupeKeepsEachIdOnce | apps/control-plane/internal/analysis/rules.go:138-148 | exactly the input's IDs survive, each once |
| ReviewFacts.DedupeKeepsFirsts | apps/control-plane/internal/analysis/rules.go:138-148 | it is the first item of each ID that survives, in order |
| SupportScore.SupportFor | apps/control-plane/internal/analysis/rules.go:150-195 | the score without the clamp on independence equals the code's with it, and every component is in [0,1] |
| SupportScore.ScoredExactly | apps/control-plane/internal/analysis/rules.go:150-195 | each component by counting the items: quality by kind, independence by distinct sources, freshness by the items younger than thirty days; the value is their weighted sum, and 0 for a contradicted claim |
| SupportScore.OneFreshTest | apps/control-plane/internal/analysis/rules.go:150-195 | one fresh test result scores 0.75, 0.95 behind a supported claim, 1 behind an externally verified one |
| SupportScore.SourcesAreFew | apps/control-plane/internal/analysis/rules.go:150-195 | distinct sources never exceed items |
| Rules.Observe | apps/control-plane/internal/analysis/rules.go:30-58 | the flags say what some event showed |
| Rules.BindAll | apps/control-plane/internal/analysis/rules.go:76-93 | one round per claim binds its deduplicated evidence and raises its assumption and unknown; support stays bounded |
| Rules.Analyze | apps/control-plane/internal/analysis/rules.go:17-95 | the whole deployment analysis: flags, claims, bindings and the binding loop, every claim scored in [0,1] |
| RulesFacts.RulesSay | apps/control-plane/internal/analysis/rules.go:17-95 | the five claims in order, stated over what the searches found in the events: state, importance, evidence by kind or term, each item once, score, edges by state, and an assumption and an unknown for each critical pending one |
| RulesFacts.AllGoodSpeaks | apps/control-plane/internal/analysis/rules.go:30-58 | the verdict's condition: for each critical topic some event speaks for it and none against |
| RulesGraph.RulesAreSound | apps/control-plane/internal/analysis/rules.go:60-95 | the deployment analysis of any run without colliding evidence IDs is closed once relabelled, automatic binding included, and is what the graph theorems ask for; its relabelling is an isomorphism exactly when the service binds nothing |
| RulesGraph.RulesAreBounded | apps/control-plane/internal/analysis/rules.go:150-195 | every claim of it is scored in [0,1], as the bounds over histories ask |
| RulesGraph.WhenTheServiceBinds | apps/control-plane/internal/service/service.go:184-212 | the service binds a claim of it on its own exactly when there are events, the analyzer bound none of them, and some topic was decided |
| RulesGraph.BuildReportOfAnotherKind | apps/control-plane/internal/service/service.go:201-210 | an input where that happens: one passing build event filed as "custom"; the saved graph has an edge the analysis had not, and no reference dangles |
| RulesPipeline.RulesVerdict | apps/control-plane/internal/analysis/rules.go:30-93 | events analysed, relabelled, saved, projected and judged: VERIFIED exactly when each of the four critical topics was seen to pass and never to fail |
| RulesPipeline.VerifiedCertificateIsAllGood | apps/control-plane/internal/analysis/rules.go:30-93 | any certificate issued for a deployment review at any later time, after any calls, says VERIFIED only if the analysed events showed that |
| CertificateReport.BuildCertificateReport | apps/control-plane/internal/service/service.go:403-446 | counts are those of the critical claims by state and of the passed checks; supported, contradicted and open add up to critical; one line per critical claim, in order, and one per check, with their fields |
| CertificateReport.PercentIsNearest | apps/control-plane/internal/service/service.go:427-431 | the shown percentage is the whole one nearest to the value |
| CertificateReport.ReachableReports | apps/control-plane/internal/service/service.go:413-437 | when every analysis call proposes claims scored in [0,1], percentages of every reachable report lie in 0..100; a report that says PROCEED shows a critical claim and no contradiction |
| PortableResult.Portable | apps/control-plane/internal/httpapi/protocol.go:282-307 | decision, permission and status; a first reason naming a blocking verdict, then one per contradicted claim in claim order; the certificate's conditions, and one more where approval is missing |
| PortableResult.ReasonsExplainBlocks | apps/control-plane/internal/httpapi/protocol.go:282-307 | under the policy's verdict the answer gives reasons exactly when it blocks |
| DashboardRows.ConnectProjects | apps/control-plane/internal/store/memory_portfolio.go:103-118 | a project is active when some connection is, "disconnected" when it has none, else in the state of one of them |
| DashboardRows.CountReports | apps/control-plane/internal/store/memory_portfolio.go:119-131 | report counts of projects and connections are cardinalities |
| DashboardRows.ListSystems | apps/control-plane/internal/store/memory_portfolio.go:133-147 | so are the counts of systems |
| DashboardRows.TallyRun | apps/control-plane/internal/store/memory_portfolio.go:179-215 | the three inner loops count the claims, evidence and open unknowns of one run |
| DashboardRuns.CountRuns | apps/control-plane/internal/store/memory_portfolio.go:149-235 | after the run loop, in any order, every counter is the cardinality of a set of (run, item) pairs, and each latest run has maximal creation time |
| Dashboard.ReadPublications | apps/control-plane/internal/store/memory_portfolio.go:237-263 | the latest publication of each project and system has maximal issue time, and one line is listed for each publication of the account |
| Dashboard.FinishRows | apps/control-plane/internal/store/memory_portfolio.go:265-310 | certification by the newest publication, else the newest run; last activity is the later of the newest run and the receipt of that publication; coverage percentages |
| Dashboard.CertifySystems | apps/control-plane/internal/store/memory_portfolio.go:283-300 | the same for systems, and how many are not valid |
| Dashboard.GetAccountDashboard | apps/control-plane/internal/store/memory_portfolio.go:80-322 | the dashboard exists exactly for a known account; every counter and state equals the declarative one, and the certificates are, in some order, one line for each certified run shown and one for each publication, with all their fields |
| BoardFacts.DashboardSays | apps/control-plane/internal/store/memory_portfolio.go:80-322 | every number, state, line and metric of every dashboard in terms of the stored tables alone: which runs, claims, evidence, unknowns, reports and publications it counts, and the newest publication or run that decides each certification |
| BoardFacts.StateIsSaid | apps/control-plane/internal/store/memory_portfolio.go:265-300 | "valid" or "blocked" by the newest publication's permission, else by the newest run's certificate, "pending" without one, "uncertified" without runs |
| BoardFacts.PercentageIsNearest | apps/control-plane/internal/store/memory_portfolio.go:354-359 | a coverage is the whole percentage nearest to the ratio |
| Dashboard.DashboardIsSound | apps/control-plane/internal/store/memory_portfolio.go:264-322 | coverage lies in 0..100, supported, contradicted and stale claims never exceed the claims, totals are the sum over projects plus runs without a listed project |
| DashboardCounts.Conservation | apps/control-plane/internal/store/memory_portfolio.go:151-215 | that sum, for all counters at once: nothing counted twice or lost |
| DashboardCounts.PercentageIsBounded | apps/control-plane/internal/store/memory_portfolio.go:354-359 | percentages of a part lie in 0..100 |
| Ingest.IntegrationStore.CreateProjectConnection | apps/control-plane/internal/store/memory_integration.go:10-24 | refused for a foreign project and while another connection is active |
| Ingest.IntegrationStore.RevokeProjectConnection | apps/control-plane/internal/store/memory_integration.go:37-47 | the connection is revoked, nothing else changes |
| Ingest.IntegrationStore.GetProjectConnectionByTokenHash | apps/control-plane/internal/store/memory_integration.go:26-35 | an active connection with this token hash, or none exists |
| Ingest.IntegrationStore.SaveProjectIngest | apps/control-plane/internal/store/memory_integration.go:49-91 | known reports and certificates are answered with the stored record, new ones stored, last-seen set |
| Ingest.ConnectedExactly | apps/control-plane/internal/store/memory_integration.go:10-24 | which connections are refused and which are stored, and as what |
| Ingest.FirstDeliveryIsKept | apps/control-plane/internal/store/memory_integration.go:49-91 | the first accepted delivery of a report or certificate is stored as delivered and stays so |
| Ingest.OneActiveConnection | apps/control-plane/internal/store/memory_integration.go:10-47 | over any history at most one connection of a project is active, and revoked is terminal |
| Ingest.RecordsMatchAccepted | apps/control-plane/internal/store/memory_integration.go:49-91 | stored reports and publications are in bijection with the accepted (connection, external ID) and (project, digest) pairs |
| Ingest.RetryReturnsTheFirst | apps/control-plane/internal/store/memory_integration.go:58-87 | every retry is answered with the first stored record, for certificates also after reconnecting |
| Ingest.ReplayOnlyTouchesLastSeen | apps/control-plane/internal/store/memory_integration.go:49-91 | replaying an accepted delivery changes nothing but the last-seen time |
| IngestService.ProjectService.CreateProjectConnection | apps/control-plane/internal/service/integration.go:29-71 | a connection is made exactly when the project is known, the provider supported, the chosen repository not blank and no connection of the project active; it carries the project's account, the trimmed repository and the token's hash under a fresh ID, and otherwise nothing changes |
| IngestService.ProjectService.IngestProject | apps/control-plane/internal/service/integration.go:102-187 | unauthorised exactly without a matching active connection; otherwise the checks in order, and an accepted ingest is one well-made save whose stored IDs are returned |
| IngestService.PreparedExactly | apps/control-plane/internal/service/integration.go:109-174 | a request is delivered exactly when it is named, brings something, names no foreign AI system, and what it brings is sound; an unknown AI system is told from a malformed request |
| IngestService.PreparedCarries | apps/control-plane/internal/service/integration.go:125-174 | the publication's run, status and permission are those the checked certificate's result decodes to, its decision, artifacts, digest and time the certificate's, its policy version the given one or the default; the report's tool, status, exit code and summary are the decoded ones; identity and project are the connection's |
| Header.ContextHeader | sdk/go/providers/remote/remote.go:81-98 | the client prints the non-empty fields in order |
| Header.SetContextResponse | apps/control-plane/internal/httpapi/protocol.go:447-457 | the server prints the same header, or none |
| Header.PrintedExactly | sdk/go/providers/remote/remote.go:81-98 | the fields that have a value, in the order decision, run, correlation, parent, each as "name=value", joined by semicolons |
| Header.ContextCell.MergeContextHeader | apps/control-plane/internal/httpapi/protocol.go:420-445 | the loop fills the empty fields only |
| Header.MergedExactly | apps/control-plane/internal/httpapi/protocol.go:420-445 | field by field: a value stays, an empty field takes the first value an item of the header gives to its name, and stays empty when none does |
| Header.MergeKeepsBodyAndTakesFirst | apps/control-plane/internal/httpapi/protocol.go:420-445 | a non-empty body field is never overwritten; the first non-empty value of a key wins |
| Header.MergeIsIdempotent | apps/control-plane/internal/httpapi/protocol.go:420-445 | merging a header twice equals merging it once |
| Header.PrintThenMerge | apps/control-plane/internal/httpapi/protocol.go:420-457 | printing and merging into an empty context gives the context back exactly when no field holds a semicolon or ends in white space |
| Json.CanonicalDecidesEquality | api/go/canonical.go:15-31 | two texts have one canonical form exactly when they are equal as JSON values |
| Json.CanonicalIsIdempotent | api/go/canonical.go:15-31 | the canonical form is its own canonical form |
| Json.CanonicalIsInOrder | api/go/canonical.go:15-31 | it denotes the same value and lists the members of every object, at any depth, in the order of their names |
| Json.CanonicalIgnoresMemberOrder | api/go/canonical.go:15-31 | reordering members at any depth does not change it |
| EventJson.UnmarshalJSON | api/go/event_json.go:9-26 | what decoding an event reads: each field from all members of its name in any letter case, merged in order, and the unknown members; none if a value is of the wrong type |
| EventJson.MarshalJSON | api/go/event_json.go:28-48 | what encoding an event writes |
| EventJson.EncodedHoldsEverything | api/go/event_json.go:28-48 | the encoding holds every shown standard field and every unknown member |
| EventJson.DecodeUndoesEncode | api/go/event_json.go:9-48 | for any struct without slices and nil messages, the round trip gives the message back exactly when no unknown member is named like a field and the case variants of every field are typed and tell it nothing it does not hold already |
| Protocol.EventComesBack | api/go/event_json.go:9-48 | the same for events: an event is read back as written exactly when it has data, no unknown member is named like a field, and the case variants of every field are quiet in that sense |
| WireFormat.EventIsTold | api/go/types.go:36-49 | the JSON value of an event: its fields under the wire format's names, empty optional ones left out, and its unknown members under theirs |
| WireFormat.ValidExactly | api/go/validate.go:9-55 | an event is valid exactly when it has the version, a visible ID and source, one of the thirty types, a subject, a time, data, and no negative sequence |
| StructJson.UndisturbedExactly | api/go/event_json.go:9-14 | the condition, type by type and at any depth (events have no slices): reading a value among others gives what it gives alone exactly when the last text or number told after it agrees, no map entry or struct field is told besides its own, and null counts as the type takes it |
| StructJson.WrittenFieldsRead | api/go/event_json.go:28-35 | reading a struct's own encoding gives it back, unless it holds a nil message |
| StructJson.ReadMembersEach | api/go/event_json.go:9-14 | a struct is read field by field: each is what its own members make of it, in order, whatever the others are |
| StructJson.ReadMembersAcceptsTyped | api/go/event_json.go:9-14 | decoding fails exactly when some member that belongs to a field has a value of another type, whether or not it is written over |
| StructJson.MapReads | api/go/event_json.go:9-14 | a decoded map holds the entries of all its objects since the last null |
| StructJson.ListElementsLinger | apps/control-plane/internal/service/integration.go:189-193 | a decoded list shows what an earlier list of its name held through nulls, even after a shorter one in between |
| Protocol.UpperCaseKeyIsReadBack | api/go/event_json.go:9-48 | an input that fails it: an event without a key and with the unknown member "IDEMPOTENCY_KEY" is read back with that key, else unchanged |
| Protocol.NullKeyIsIgnored | api/go/event_json.go:9-48 | an input that meets it: with null in that place the event comes back whole |
| Protocol.UpperCaseContextIsMerged | api/go/event_json.go:9-48 | an input that fails it: the unknown member "CONTEXT" with a parent_id gives an event without a parent that parent, merged into the context the event has |
| Protocol.ExtensionsAreMerged | api/go/event_json.go:9-48 | an input that fails it: "EXTENSIONS" with one entry and "Extensions" with none give an event without extensions that entry |
| EventJson.UnknownMembersSurvive | api/go/event_json.go:9-48 | every unknown member survives decoding and encoding |
| EventJson.StandardFieldKeepsItsMember | api/go/event_json.go:9-48 | a standard field holds what its own member says exactly when the case variants before and after that member disturb it in nothing |
| Protocol.UpperCaseIdWins | api/go/event_json.go:9-26 | an input that fails it: of the members "id" and "ID", in this order, the second is the event's ID and is kept as an unknown member too |
| Protocol.HashDecidesSameJson | api/go/canonical.go:33-40 | two events have one hash exactly when they are equal as JSON values |
| Protocol.SameJsonCoversUnknown | api/go/event_json.go:28-48 | such events have the same unknown members as JSON values |
| Seal.PortableCertificate | apps/control-plane/internal/httpapi/protocol.go:309-323 | the caller's fields pass through, the digest is the hash of the certificate with the digest left empty, and the certificate, delivered as a text with its JSON value, is accepted whole exactly when the text's members are typed and it has a decision and an issue time |
| Seal.ValidatePortableCertificate | apps/control-plane/internal/service/integration.go:189-208 | the text is decoded with names in any letter case and repeated members merged; then the checks in order, with the digest blanked for hashing and restored |
| Seal.AcceptedExactly | apps/control-plane/internal/service/integration.go:189-208 | a text is accepted exactly when it decodes to a certificate with a decision, an issue time, "SHA-256", and the hash of itself with the digest left empty |
| Seal.CertificateMembers | api/go/types.go:106-115 | the members of a certificate's JSON value, by name and type |
| Seal.SealThenCheck | apps/control-plane/internal/service/integration.go:189-208 | a sealed certificate, delivered as a text with its JSON value, passes exactly when the text's members are typed and it has a decision and an issue time |
| Seal.UnrepeatedIsTyped | apps/control-plane/internal/service/integration.go:189-193 | a text with a certificate's JSON value that repeats no name is typed |
| Seal.WrittenOverIsRefused | apps/control-plane/internal/service/integration.go:189-193 | an input that fails it: a number under "id" before the text's own members leaves its JSON value as it is, but the text is undecodable |
| Seal.VariantIsRefused | apps/control-plane/internal/service/integration.go:189-206 | with a collision-free hash, adding another decision's ID as "DECISION_ID" to an accepted text makes the check fail |
| Seal.DigestFixesTheCertificate | apps/control-plane/internal/service/integration.go:189-208 | with a collision-free hash two accepted certificates with one digest are the same certificate |
| Relay.RedactValue | cmd/epistemic-relay/main.go:213-229 | the in-place recursion, map entries in any order, equals the redaction of the value |
| Relay.RedactedAt | cmd/epistemic-relay/main.go:213-229 | path by path: the first listed key leads to the marker, every other path to the redaction of what it led to |
| Relay.NoListedValueRemains | cmd/epistemic-relay/main.go:213-229 | whatever a listed key leads to, at any depth, is the marker |
| Relay.OtherValuesStay | cmd/epistemic-relay/main.go:213-229 | paths without a listed key lead somewhere exactly when they did, and texts, numbers, truth values and nulls there stay as they are |
| Relay.RedactionIsIdempotent | cmd/epistemic-relay/main.go:213-229 | redacting twice equals redacting once |
| Relay.EventRelay.Process | cmd/epistemic-relay/main.go:199-205 | an invalid event is refused and not emitted; otherwise exactly the redacted event is emitted, and it is clean exactly when its data decodes or held no listed value; everything emitted so far is valid |
| Relay.RedactedEventIsClean | cmd/epistemic-relay/main.go:206-212 | only the data changes, validity is kept, and no listed value remains in it exactly when the data decodes or held none: data that does not decode is sent as it is |
| Relay.LargeNumberKeepsTheSecret | cmd/epistemic-relay/main.go:206-211 | an input that fails it: a number beyond float64 beside a listed key, and the listed value is emitted |
| Bus.LifecycleBus.Publish | apps/control-plane/internal/lifecycle/bus.go:20-30 | every subscriber of the run gets the event unless 16 are queued there, no other channel changes |
| Bus.LifecycleBus.Subscribe | apps/control-plane/internal/lifecycle/bus.go:32-39 | a new empty open channel, registered for the run |
| Bus.LifecycleBus.Unsubscribe | apps/control-plane/internal/lifecycle/bus.go:40-46 | removed, then closed |
| Bus.SubscriberSees | apps/control-plane/internal/lifecycle/bus.go:20-46 | over every interleaving: delivered and queued events are an in-order part of those offered, and each publication of the run while subscribed is offered exactly once |
| Bus.SendNeverBlocks | apps/control-plane/internal/lifecycle/bus.go:23-29 | every pending send can happen at once, goes to an open channel, and drops its event exactly when 16 are queued |
| Bus.PromptSubscriberLosesNothing | apps/control-plane/internal/lifecycle/bus.go:20-39 | a subscriber whose queue never fills up receives everything in order |

## Left out

- PostgreSQL, HTTP routing, server-sent events, Docker execution, model clients, the web and command-line tools: input and output.
- The portable stream's subscribers and the lifecycle bus calls inside the service: fan-out is modelled once, in `Bus`.
- Subject, goal, source, risk level and raw payload of a run and its decision: copied through and never read by the modelled code.
- ServiceCode.ControlPlane.CreateRun: accounts, projects and AI systems are kept by an object of their own beside the other tables.
- Dashboard.GetAccountDashboard: the order of its lists, its activity feed, and of an AI system everything but its certification state; the last-used time shown is that of whichever run is iterated last. Rows reached through index maps into a slice are values of a map.
- The substring searches, the email pattern and `evidenceKind` of the analyzers, and the wording of the deployment claims: parameters of `Review.Reader` and `Rules`.
- More than one `requirements.declared` event per run: the model takes the last payload whole, where Go would decode it over the earlier one.
- Byte-level JSON and string escaping, and rounding of numbers in redacted data; which numbers fit a float64 and how Unicode lower-cases a key are parameters of `Relay`. Times are read and written as their count of nanoseconds in digits, not as dates.
- Typed decoding of other payloads than events and certificates: parameters of the modules that read them.
- HandOff.ExactlyOnce: events written to a portable run through the engine's own API are not among its steps; `EngineSink` has them. Its condition speaks of the run so far; `DrainedEvaluationsAreExact` and `DoublingExactly` give the one that can be checked at a publication.
- HandOff.ParentsFormAForest: parents removed by a rollback are excluded, since the code lets a child outlive them.
- Relabel.RelabelledIsClosed: that no original ID is one still to be drawn is a premise for automatic bindings; IDs are random in the code, and `RulesAreSound` shows it for the deployment analyzer.
- Projection.ReachableGraphs: asks of each analysis that its relation IDs are blank or its own, as the row says (by `OtherPrefixIsForeign` any that do not start with "rel_" will do), and its references stay inside, which `ReviewIsSound` and `RulesAreSound` show for both built-in analyzers.
- Pipeline.ReachableEvidenceIsDistinct: evidence IDs hold 64 bits of a hash, so that the shortened hash does not collide is a premise.
- CertificateReport.ReachableReports: asks that proposed claims are scored in [0,1], which `ReviewIsBounded` and `RulesAreBounded` show for both built-in analyzers.
- Concurrent service calls for one decision: histories are sequential, as the repository locks each operation and not each call.
- Report text, decision headlines, tool catalogue, workflow text, JUnit and SARIF parsing, retry and local providers: easy members only.
- IngestService.ProjectService.CreateProjectConnection: its refusals are one outcome, and the workflow text it returns is left out.
- IngestService.ProjectService.IngestProject: a token store failure and the decoding of the two payloads are parameters; a revocation between lookup and save is covered by `Ingest`, whose history consists of the repository's own steps.
