# A verified model of the attention-based recommendation service

The service watches a viewer through a vision gateway, buffers frame observations per session, folds them into
evidence, asks a central model for one recommendation and publishes at most one result per session. This project
models that pipeline in Dafny and proves what its parts promise together.

## How the model is laid out

| files | component |
|---|---|
| `Common`, `Sorting`, `Bytes` | options and results, Python's stable `sorted`, big-endian numbers |
| `Observations`, `Ingestion`, `Confluence`, `MergeOrder`, `Admission`, `Refusals` | frames, the merge and the buffer of a session, its invariant, order independence, the loops of `append_batch`, and what its errors say |
| `Geometry`, `Triangles`, `AoiMetadata`, `SourceAoi`, `Mp4`, `Mp4Headers` | polygon tests and what they mean in the plane, the AOI hierarchy and its mapping, source AOI binding and hits, the MP4 reader and the headers it reads |
| `RunDecomposition`, `Evidence`, `EvidenceSummary`, `EvidenceFacts`, `QualityFacts`, `SummaryFacts` | maximal runs of a labelled sequence, the aggregation loop, its summary, what windows, quality and summaries mean |
| `SourceEvidence`, `Matching`, `FeatureFacts` | source visual evidence, product matching, what scores count |
| `Snapshots`, `Completion`, `CompletionFacts`, `Grounding`, `Readiness` | from a buffer to a prepared request, what a request is grounded in, and when the model is called |
| `Gate`, `Stub`, `StubChoice`, `Answers` | the output gate, the deterministic client and its choice, and which jobs can be answered at all |
| `SessionMemory`, `Store` | the in-memory store: its transitions, and the class that performs them |
| `JobRows` | the durable job row of each decision request |
| `Protocol`, `ProtocolMemory`, `ProtocolRows`, `ProtocolFacts`, `Provenance`, `ProtocolTheorems`, `Polling`, `Progress`, `Traceability` | all of it interleaved: calls, tasks, late or lost database effects, sweeps, cancels, restarts, clock ticks |
| `StreamAdmission`, `FrameOwnership`, `FrameStream`, `WireCodec`, `Joiner`, `JoinerFacts`, `Gateway` | the vision gateway |
| `AcceptedSeries`, `Witnesses`, `Gallery`, `EscapingRuns` | concrete accepted histories on which a promise fails |

Code that updates state is a class or a method with its loop, proved against a function or a relation on values;
the theorems are lemmas about those functions, relations and runs. A dictionary iterated by the source is iterated in
an arbitrary order here, and results are shown not to depend on it.

The protocol is a step machine over one shared clock. A lock-held block of the store is one step: the expiry sweep, the
block of the call that asked for it, and the clearing of a job whose session is gone may be interleaved with anything.
A call of `complete` waits between saving, claiming and submitting; a task waits for the model. A database effect may happen,
happen although its call raised, happen late, happen twice or be lost. A model reply is arbitrary. Shutdown is a restart.

## What the proofs found

- Completion can escape with an exception after the session was marked pending, in exactly four cases
  (`Traceability.EscapesExactly`): a variant that carries windows needs more than 128 of them; the frames of some product
  name a changing expression signal but no rate of change; they hold more than 64 sustained signals between them; or
  source AOIs of more than 32 primary colours were hit. Each case has a concrete accepted history: 129 frames, one frame,
  two frames and 33 frames (`Witnesses`, `Gallery`), and the first three are also shown as runs (`EscapingRuns`). Such
  a session stays pending without frames and without a job until it expires. Every other pending session has a job in
  progress (`ProtocolTheorems.PendingIsDriven`).
- A merge of three submissions may be accepted in one order and refused in another (`Confluence.MergeOrderMatters`).
  Submissions of a frame merge in every order exactly if each two of them merge (`MergeOrder.MergesInEveryOrder`); in
  general, confluence holds for histories that are both accepted.
- The `return_candidate` code of a window is cumulative for the product (`EvidenceFacts.ReturnCodeIsCumulative`).
- The gate looks frames up by id alone, the store by epoch and id. On variant-B requests this decides when the
  deterministic client's own answer is refused (`Stub.StubPassesWithFrames`). `Witnesses.SameIdIsHopeless` is a two-frame
  history on which it is refused, together with every other reply. On the window path and on the source path the client's
  answers always pass.
- A variant-B job with gaze is sent to the model although no reply whatever can pass the gate, exactly when for no
  frame id the last timeline frame of that id maps by one candidate (`Answers.HopelessJobs`). Without any gaze, some
  reply always passes. Both hold for every scan for diagnoses that spares some text. `Witnesses.UnmappedGazeIsHopeless` is a one-frame example.
- Building a decision from a gate-passing source-path output would fail outside variant B; requests built by
  `begin_completion` on that path are always variant B (`Gate.GatePassBuildsDecision`,
  `Grounding.SourcePathIsVariantB`).
- The cycle branch of the AOI hierarchy check is unreachable (`AoiMetadata.ValidateHierarchy`), and so are the
  internal-error branches of `begin_completion` and `get_recommendation`
  (`SessionMemory.CompletionAnswersOneAcceptance`, `Store.V2RecommendationStore.GetRecommendation`).
- On the source path, frames with several hits are counted as ambiguous only if some frame has a single hit: without one
  there is no source evidence, and the ratio is reported as 0 (`QualityFacts.PreparedQuality`).
- The client that also works without signal is called whenever there are frames (`Readiness.DispatchedExactly`), and the
  window branch of the local demonstration is never taken: an undispatched snapshot is variant B
  (`Readiness.UncalledIsTimeline`).
- Runtime initialisation is repeated inside a running process when a readiness check fails (`apps/api/app/main.py`), so
  closing all in-flight rows is a step that may come at any time, not only at start.

## Model

| member | source | states |
|---|---|---|
| Ingestion.MergeIsJoin | apps/api/app/v2_store.py:649-698 | a successful merge is the least upper bound of the two frames, taken modality by modality from one of them, and stays value-xor-reason |
| Ingestion.MergeDefined | apps/api/app/v2_store.py:660-695 | merging succeeds if and only if the contexts agree and each modality of one frame is below the other's |
| Ingestion.IngestPreservesInv | apps/api/app/v2_store.py:902-992 | an accepted batch keeps the buffer invariant: frames and sequence index in bijection, batch tables in bijection, highest epoch and last video times exact, at most 512 frames, hit cache equal to recomputed hits |
| Admission.IngestBatch | apps/api/app/v2_store.py:885-996 | the loops of `append_batch` decide the declarative ingestion relation, the new buffer keeps the invariant, and the answer is "accepted" exactly when the stored frames changed |
| Ingestion.AcceptedMeansChanged | apps/api/app/v2_store.py:902-996 | wherever in the batch a change comes, the answer is "accepted" exactly when the stored frames are not what they were; no stored frame is lost or loses a modality |
| Refusals.RefusalExplains | apps/api/app/v2_store.py:885-971 | whatever error is raised under the lock, the batch is as the error says: an id or sequence taken by another batch, frames that go back in offset or video time, or a first observation that conflicts with the stored frames in the named way |
| Refusals.FrameRefused | apps/api/app/v2_store.py:902-935 | an observation is refused exactly when it conflicts with the stored frames, with the code of a conflict it has |
| Refusals.BatchChecked | apps/api/app/v2_store.py:829-870 | before the lock, a batch is refused for its session, its video, a finished v1 run, or an observation that breaks a rule of the context, and otherwise none of its observations breaks any |
| Refusals.ObservationsRefused | apps/api/app/v2_store.py:838-870 | the rule that is named is broken by the first observation that breaks any |
| Admission.CheckEpochs | apps/api/app/v2_store.py:956-971 | the per-epoch loop accepts exactly when video time never goes back along sequences in any epoch, and then records each epoch's last time |
| Admission.SortedOffsets | apps/api/app/v2_store.py:940-955 | the adjacency check over sorted frames is the order property of the whole dictionary, in any iteration order |
| Confluence.Confluent | apps/api/app/v2_store.py:902-996 | two fully accepted histories over the same batches end in the same buffer, every table included |
| Confluence.HistoryRepresents | apps/api/app/v2_store.py:902-992 | every reachable buffer satisfies the invariant, and each of its frames is the join of the submissions accepted for it |
| Confluence.MergeOrderMatters | apps/api/app/v2_store.py:680-695 | three valid submissions of which one order is refused and another accepted |
| MergeOrder.MergesInEveryOrder | apps/api/app/v2_store.py:649-698 | valid submissions of a frame merge in every order if and only if each two of them merge |
| MergeOrder.EveryOrderAgrees | apps/api/app/v2_store.py:649-698 | and then every order gives the same frame |
| MergeOrder.AdmittedAsMerged | apps/api/app/v2_store.py:902-935 | the admission loop takes submissions of one new frame if and only if they merge in that order, and stores their merge |
| Confluence.Redelivered | apps/api/app/v2_store.py:885-996 | observations accepted before, sent again under a fresh batch id and sequence, are answered "duplicate" and change no frame and no frame index |
| Geometry.PointIsInsidePolygon | apps/api/app/source_aoi.py:261-295 | the source-AOI test accepts exactly the boundary and the points with an odd number of edge crossings |
| Geometry.PointInPolygonV2 | apps/api/app/v2_aoi.py:424-464 | the AOI test accepts exactly the same points, though it writes the crossing and boundary tests differently |
| Geometry.BothTestsAgree | apps/api/app/v2_aoi.py:424-464 | run on the same point and polygon, the two tests give the same answer |
| Geometry.RotationInvariant | apps/api/app/v2_aoi.py:444-464 | starting the vertex list elsewhere does not change the polygon |
| Geometry.ReversalInvariant | apps/api/app/v2_aoi.py:444-464 | walking the vertex list backwards does not change the polygon |
| Triangles.TriangleMeans | apps/api/app/source_aoi.py:261-295 | off its boundary, a point is in a triangle exactly if it is on the triangle's side of all three edges, whichever way its corners are listed |
| Triangles.FanMeans | apps/api/app/source_aoi.py:277-295 | in any polygon, convex or not: off the sides of the fan at its first corner, a point is inside exactly if it is in an odd number of the fan's triangles |
| AoiMetadata.ValidateHierarchy | apps/api/app/v2_aoi.py:109-144 | accepts exactly the approved, unique, well-placed forests; the cycle error is never raised |
| AoiMetadata.PathInherits | apps/api/app/v2_aoi.py:118-144 | every walk up ends in a root of rank 0, ranks strictly falling, with product and time range inherited |
| AoiMetadata.MapFramePermutationInvariant | apps/api/app/v2_aoi.py:467-526 | mapping a frame does not depend on the order of the exposures |
| AoiMetadata.MappedProductGrounded | apps/api/app/v2_evidence.py:137-141 | a frame is attributed to a product if and only if approved AOIs put it on that product and no other |
| AoiMetadata.AmbiguousMeans | apps/api/app/v2_aoi.py:467-526 | a frame maps ambiguously if and only if its point lies in approved AOIs of two different products at that time |
| SourceAoi.BindSourceAois | apps/api/app/source_aoi.py:240-258 | succeeds if and only if revisions match and each exposure is covered by exactly one definition, and binds it to that one |
| SourceAoi.SingleHitMeans | apps/api/app/source_aoi.py:298-327 | a frame has a single hit on a source AOI if and only if its point meets that AOI alone |
| RunDecomposition.RunsExact | apps/api/app/v2_evidence.py:225-328 | the runs collected frame by frame are exactly the maximal same-label stretches inside continuous segments, in order |
| RunDecomposition.RunsReturnsSegments | apps/api/app/v2_evidence.py:246-261 | per label, runs = returns + continuous segments that contain the label |
| RunDecomposition.SeenMeans | apps/api/app/v2_evidence.py:246-288 | a product counts as seen if and only if it was met on an earlier frame of the same segment |
| RunDecomposition.RunCovers | apps/api/app/v2_evidence.py:225-328 | every labelled frame lies in a run of its label |
| Evidence.Aggregate | apps/api/app/v2_evidence.py:205-328 | the loop with its accumulators computes windows, dwell, returns, comparisons, frame counts and marks as functions of the run decomposition |
| EvidenceSummary.SummarizeObservations | apps/api/app/v2_evidence.py:144-450 | the loops compute the declarative evidence, or refuse a product summary, a backward window or too many windows in the source's order; evidence that is not refused satisfies its data models, product summaries and ratios included |
| EvidenceSummary.SummaryFits | apps/api/app/v2_models.py:292-388 | a product's summary fits its data model if and only if its expression summary is not refused: attention, ratios and coverage always fit |
| Evidence.SignalsMean | apps/api/app/v2_evidence.py:290-307 | a movement, change, rate or sustained signal is recorded for a product if and only if some frame mapped to it, that follows continuously, carries it |
| EvidenceSummary.ExpectedCoversObserved | apps/api/app/v2_evidence.py:61-89 | with unique sequences no epoch's span is smaller than its frame count, so the expected count is never below the observed one |
| EvidenceSummary.QualityValid | apps/api/app/v2_evidence.py:61-89 | all quality ratios lie between 0 and 1 |
| QualityFacts.PreparedQuality | apps/api/app/v2_store.py:1158-1202 | whatever completion prepares, its quality counts the stored frames: the expected count is the number of sequence numbers they span, and the ratios times it are the numbers of frames with gaze, with an expression, with both (on the source path: with one hit) and on two products (on the source path: with several hits, left out when no frame has one) |
| QualityFacts.EvidenceQuality | apps/api/app/v2_evidence.py:61-89 | over the frames in analysis order, each ratio times the expected count is the number of places with gaze, an expression, both, or two products |
| QualityFacts.ExpectedIsSpanned | apps/api/app/v2_evidence.py:67-76 | the expected count is the number of sequence numbers that lie, epoch by epoch, between two frames |
| QualityFacts.QualityLaws | apps/api/app/v2_evidence.py:78-88 | matched frames are not more than those with gaze or with an expression, and frames with either are not more than the expected ones |
| SummaryFacts.SummaryCounts | apps/api/app/v2_evidence.py:330-392 | a product has a gaze summary exactly when a frame that maps to it has gaze; it counts those frames, its attention ratio is its share of the mapped frames, and its expression coverage the share of its frames with an expression |
| SummaryFacts.WindowCodesMean | apps/api/app/v2_evidence.py:290-323 | a window carries "gaze_movement" or "face_action_change" exactly when a frame of its product, up to its end and not just after a discontinuity, carries a movement or a changed signal |
| EvidenceSummary.WindowIdInjective | apps/api/app/v2_evidence.py:395-416 | window ids are distinct |
| EvidenceFacts.WindowsAreProductRuns | apps/api/app/v2_evidence.py:225-328 | window k shows the k-th maximal product run, and every maximal product run is some window |
| EvidenceFacts.WindowsReturnsSegments | apps/api/app/v2_evidence.py:283-288 | per product, windows = returns + segments containing the product |
| EvidenceFacts.ReturnCodeIsCumulative | apps/api/app/v2_evidence.py:309-323 | a window carries `return_candidate` if and only if it, or an earlier window of its product, starts with a return |
| EvidenceFacts.WindowsForward | apps/api/app/v2_models.py:420-424 | neither session offset nor video time of a window goes back |
| EvidenceFacts.ProductRunForward | apps/api/app/v2_evidence.py:246-261 | all frames of a window share one playback epoch, and their offsets and video times do not go back |
| EvidenceFacts.FramesPartition | apps/api/app/v2_evidence.py:330-360 | the attributed frames are divided among the catalog products |
| EvidenceFacts.AttentionRatiosSumToOne | apps/api/app/v2_evidence.py:330-360 | attention ratios of observed products sum to one |
| SourceEvidence.BuildSourceVisualEvidence | apps/api/app/source_aoi.py:330-446 | the loop over frames and the score loops compute the declarative evidence: runs, frame ids, returns, attention and scores |
| SourceEvidence.SourceEvidenceConserves | apps/api/app/source_aoi.py:330-446 | single + ambiguous + unhit = all frames; scores of single-valued features sum to the single hits; per source runs = returns + segments, attention adds up over runs, listed ids hit that source alone |
| SourceEvidence.FrameIdsGrounded | apps/api/app/source_aoi.py:345-383 | a listed frame id belongs to a frame whose only hit is that source |
| SourceEvidence.FeatureScoresConserve | apps/api/app/source_aoi.py:400-416 | scores of a feature add up to the hits weighted in |
| FeatureFacts.ScoreCountsFrames | apps/api/app/source_aoi.py:400-416 | a score counts exactly the frames that hit one source AOI alone, that AOI carrying the value, and is at least 1 |
| FeatureFacts.ScoresDescend | apps/api/app/source_aoi.py:405-416 | scores fall along a feature's list, and among equal scores the values do not go back |
| Matching.ProductFeatureMatchScore | apps/api/app/source_aoi.py:449-477 | the accumulated score and matched values are those of all claims of the profile; for a valid profile the score is the weighted sum |
| Matching.ScoreIsWeighted | apps/api/app/source_aoi.py:449-477 | a silhouette in common counts four times its score, a colour family three times, a primary colour, category or pattern twice, an accessory once, and "unknown" nothing |
| Matching.PositiveScore | apps/api/app/v2_central.py:919-927 | the score is positive if and only if some value matched, so the client's and the gate's notion of overlap coincide |
| Matching.MatchedIsObserved | apps/api/app/source_aoi.py:449-477 | a matched value is known and was observed for the same feature |
| Matching.MatchedExactly | apps/api/app/source_aoi.py:449-477 | a value matches if and only if it is known and was observed for a feature in which the profile has it |
| Gate.ValidateCentralOutput | apps/api/app/v2_central.py:877-1080 | the staged checks accept exactly the outputs that `Admits` describes, return them unchanged, and report a catalog mismatch exactly when the product or the catalog is at fault; an accepted output bears tags of the catalog product it names and claims what its path demands |
| Gate.AdmittedClaims | apps/api/app/v2_central.py:928-995 | an admitted reply has tags, all of them controlled tags of the product it names; on the source path it gives both required reasons and both required kinds of evidence, without gaze the catalog reason alone and no claim of an observation, otherwise a product with valid gaze; and none of its texts is one that the scan flags wherever it stands |
| Gate.TagsControlledMeans | apps/api/app/v2_central.py:988-992 | with unique catalog ids, the tag check passes if and only if some catalog product of the named id has all of the listed tags |
| Gate.GatePassBuildsDecision | apps/api/app/v2_models.py:697-732 | a gate-passing output builds a valid completed decision if and only if a source-path request is a variant-B request |
| Gate.RefKinds | apps/api/app/v2_central.py:996-1080 | an admitted reference has the kind its variant requires |
| Gate.DecideReply | apps/api/app/v2_store.py:1316-1399 | any reply becomes a valid decision, completed if and only if it passes the gate, otherwise a failure whose reason names what went wrong: the client's own two codes, a catalog mismatch, or an invalid output |
| Snapshots.OrderedFacts | apps/api/app/v2_evidence.py:49-58 | in analysis order an admitted buffer has at most 512 valid frames, distinct sequences and nondecreasing offsets |
| Completion.PrepareCompletion | apps/api/app/v2_store.py:1128-1302 | aggregation, source evidence and the immediate answers compute the prepared outcome |
| Completion.PrepareIgnoresOrder | apps/api/app/v2_store.py:1102-1302 | the prepared outcome does not depend on the iteration order of the frame dictionary |
| Readiness.DispatchedExactly | apps/api/app/v2_store.py:1204-1302 | evidence that is not refused goes to the model if and only if there are frames and the client also works without signal, or some frame lies on one product (on the source path: some frame has gaze and some frame a single hit) |
| Readiness.InsufficientReason | apps/api/app/v2_store.py:1205-1260 | an insufficient-data decision made at once says "insufficient_valid_signal" if no stored frame has gaze, and "no_eligible_product" otherwise |
| Readiness.ImmediateExactly | apps/api/app/v2_store.py:1221-1260 | a decision made at once is the local demonstration's exactly if it is allowed, the client is the deterministic one and there are frames; otherwise it is insufficient data |
| CompletionFacts.SourceEvidenceRefused | apps/api/app/source_aoi.py:193-207 | source evidence fails its data model if and only if more than 32 primary colours were hit |
| CompletionFacts.AggregationTotal | apps/api/app/v2_store.py:1123-1302 | aggregation fails if and only if more than 128 windows are needed by a variant that carries them, some product has a change signal but no rate signal or more than 64 sustained signals, or more than 32 primary colours were hit |
| CompletionFacts.PreparedValid | apps/api/app/v2_store.py:1128-1302 | immediate decisions and requests satisfy their data models, product summaries and ratios included |
| CompletionFacts.WindowsAreDispatched | apps/api/app/v2_store.py:1150-1302 | on the legacy path a snapshot with windows is sent to the model if and only if its evidence is not refused |
| CompletionFacts.SourcePathAggregates | apps/api/app/v2_store.py:1150-1202 | on the source path only the colours can be refused |
| Witnesses.TooManyWindowsEscape | apps/api/app/v2_models.py:439 | an accepted batch of 129 frames on which completion escapes |
| Witnesses.RatelessChangeEscapes | apps/api/app/v2_models.py:324 | an accepted frame whose expression names a change but no rate, on which completion escapes |
| Witnesses.SustainedSignalsEscape | apps/api/app/v2_models.py:326 | two accepted frames with 33 sustained signals each, on which completion escapes |
| Gallery.TooManyColoursEscape | apps/api/app/source_aoi.py:200 | an accepted batch of 33 frames on 33 source AOIs of different colours, on which completion escapes |
| EscapingRuns.EscapeIsARun | apps/api/app/v2_store.py:1123-1150 | from such a batch, a run of two steps that ends with a session pending without a job, a call or a task |
| Answers.AnswerableExactly | apps/api/app/v2_central.py:877-1080 | for every dispatched request and every scan for diagnoses that spares some text, some reply passes the gate if and only if: on the source path, some product shares a feature with what was observed; otherwise, the variant carries windows, or there is no gaze, or for some frame id the last timeline frame maps by one candidate |
| Answers.PassingIsAnswerable | apps/api/app/v2_central.py:877-1080 | whatever the scan and the request, a reply that passes shows that the request is answerable |
| Answers.RewordedPasses | apps/api/app/v2_central.py:977-986 | a reply that passes but for the scan passes any scan in words that this scan spares |
| Answers.HopelessJobs | apps/api/app/v2_central.py:943-1060 | for every scan that spares some text, the legacy jobs that no reply can answer are exactly the variant-B ones with gaze where no frame id resolves |
| Witnesses.SameIdIsHopeless | apps/api/app/v2_central.py:999 | two accepted frames of one id in two epochs: the bag is eligible, the client answers, and no reply passes under any scan |
| Witnesses.UnmappedGazeIsHopeless | apps/api/app/v2_store.py:1199-1225 | one accepted frame with gaze and no attention point: the low-signal model is asked, and no reply passes under any scan |
| CompletionFacts.OverlapIsGrounded | apps/api/app/v2_central.py:905-942 | on the source path an admitted product shares a known feature with a source AOI that some accepted frame hit alone |
| Grounding.SourcePathIsVariantB | apps/api/app/v2_store.py:1128-1302 | a request with source evidence is a variant-B request without windows |
| Grounding.GatedOutputIsGrounded | apps/api/app/v2_central.py:877-1080 | any gate-passing output names one catalog product and tags of that product, claims what its path demands, and each of its references is grounded in accepted frames the way its variant requires |
| Stub.StubPassesWithWindows | apps/api/app/v2_central.py:657-807 | the deterministic client answers every window-carrying legacy request, and the gate accepts the answer |
| Stub.StubPassesWithFrames | apps/api/app/v2_central.py:745-807 | on variant B its answer passes if and only if the last timeline frame with the referenced id still maps to the product by one candidate |
| Stub.StubPassesOnSourcePath | apps/api/app/v2_central.py:664-744 | on the source path its answer always passes: the closed vocabularies let it match at most five tags |
| Stub.FewTags | apps/api/app/source_aoi.py:24-56 | a profile matches at most five controlled tags |
| StubChoice.LegacyChoice | apps/api/app/v2_central.py:744-807 | without source evidence the answer names a product whose gaze summary no other beats by valid frames, attention, returns and id in this order, under its first tag, and points at the first window, or on variant B the first one-candidate frame, of that product |
| StubChoice.LegacyAnswers | apps/api/app/v2_central.py:744-786 | and there is an answer if and only if such a product is in the catalog and has a window or frame to point at |
| StubChoice.SourceChoice | apps/api/app/v2_central.py:664-742 | with source evidence it names a product that no matching product outscores, the smaller id among equals, with the tags it shares with what was observed, and points at the least grounded frame id |
| StubChoice.SourceAnswers | apps/api/app/v2_central.py:664-707 | and there is an answer if and only if that product scores, has a tag to show, and some frame was hit |
| SessionMemory.RefusedBatchChangesNothing | apps/api/app/v2_store.py:817-996 | a refused batch changes nothing; at most the session's record is opened |
| SessionMemory.SweepClearsInactive | apps/api/app/v2_store.py:782-815 | after it releases the lock, the sweep clears only jobs that are active in no session |
| SessionMemory.CancelClearsInactive | apps/api/app/v2_store.py:1538-1562 | after it releases the lock, `cancel` clears only a job that is active in no session |
| SessionMemory.AppendKeepsInv | apps/api/app/v2_store.py:817-996 | every answer of `append_batch` keeps the store invariant |
| SessionMemory.AcceptedBatchChanged | apps/api/app/v2_store.py:902-996 | a batch is answered "accepted" exactly when it changed the frames stored for the session, it never takes any away, and the session still collects |
| SessionMemory.BeginKeepsInv | apps/api/app/v2_store.py:1074-1302 | `begin_completion` keeps the store invariant, also when it escapes; sessions that no longer collect hold no frame data |
| SessionMemory.CompletionAnswersOneAcceptance | apps/api/app/v2_store.py:1089-1117 | whatever completion answers with is the one acceptance of the remembered session, and its internal error is never raised |
| SessionMemory.CommitKeepsInv | apps/api/app/v2_store.py:1401-1424 | publishing a result keeps the store invariant |
| SessionMemory.AnswersByStatus | apps/api/app/v2_store.py:1499-1512 | a poll is told "not started" exactly for an absent or collecting session, "pending" with the session's acceptance exactly for a pending one, and the session's decision exactly for a terminal one |
| Polling.CommittedIsAnswered | apps/api/app/v2_store.py:1401-1424 | after a commit that published, every poll before expiry is told that very decision |
| Polling.DecidedAtOnceIsAnswered | apps/api/app/v2_store.py:1128-1260 | after a completion that decided at once, every poll before expiry is told the decision that was prepared |
| Polling.TerminalStays | apps/api/app/v2_store.py:1401-1512 | no step but a cancel of the session, a restart or a sweep after its expiry touches the record of a decided session |
| Polling.PublishedIsAnswered | apps/api/app/v2_store.py:1447-1512 | over whole runs: once a decision was published, every poll before it expires is told that very decision, and a `complete` call that reads it back hands it to the database, unless the session was cancelled or the process restarted |
| Polling.AnsweredWasPublished | apps/api/app/v2_store.py:1499-1512 | over whole runs: a decision that a poll is told was published for that session by an earlier step, and has stood since |
| Store.V2RecommendationStore.CleanupExpired | apps/api/app/v2_store.py:782-815 | the sweep removes exactly the expired sessions and their requests, and returns exactly the orphaned decision requests |
| Store.V2RecommendationStore.AppendBatch | apps/api/app/v2_store.py:817-996 | refuses before the sweep, or sweeps and then performs the append relation: replay answers, ingestion; "accepted" exactly when the stored frames changed |
| Store.V2RecommendationStore.BeginCompletion | apps/api/app/v2_store.py:1074-1302 | refuses before the sweep, or sweeps and then performs the begin relation: replayed, decided at once, started with a fresh job, or escaped |
| Store.V2RecommendationStore.CommitTerminal | apps/api/app/v2_store.py:1401-1424 | publishes if and only if the job is the session's active one after the sweep |
| Store.V2RecommendationStore.FinishJob | apps/api/app/v2_store.py:1304-1399 | decides on the reply, commits, and releases the job's request in every case |
| Store.V2RecommendationStore.Cancel | apps/api/app/v2_store.py:1538-1562 | forgets the session and its job, and names the decision request whose row is to be cancelled |
| Store.V2RecommendationStore.GetRecommendation | apps/api/app/v2_store.py:1499-1512 | sweeps and then answers by the status of the session's record: not started, pending with its acceptance, or its decision; the internal-error branch is dead |
| JobRows.PostgresDecisionPersistence.InitializeRuntime | apps/api/app/v2_postgres.py:362-406 | intake opens exactly when every step worked, and then no row is in flight |
| JobRows.PostgresDecisionPersistence.SavePending | apps/api/app/v2_postgres.py:408-457 | inserts an empty pending row unless the request has a row or the session one in flight; succeeds if and only if the row is then the session's own |
| JobRows.PostgresDecisionPersistence.ClaimJob | apps/api/app/v2_postgres.py:459-469 | succeeds if and only if the row is pending; then that row alone changes, to running, with its outcome untouched and its version raised |
| JobRows.OneClaimWins | apps/api/app/v2_postgres.py:459-469 | a second claim of a row fails, also when another statement ran in between |
| JobRows.PostgresDecisionPersistence.SaveDecision | apps/api/app/v2_postgres.py:471-533 | succeeds if and only if the row is absent or in flight for that session; then that row alone changes, and shows the decision's product, reasons and outcome; a terminal row is left alone |
| JobRows.PostgresDecisionPersistence.MarkCancelled | apps/api/app/v2_postgres.py:535-549 | succeeds if and only if the row is in flight; then that row alone changes, to cancelled, without a recommendation |
| JobRows.CancelIsFinal | apps/api/app/v2_postgres.py:535-549 | no claim, decision, failure, cancellation or save moves a row that was cancelled in time |
| JobRows.PostgresDecisionPersistence.FailJob | apps/api/app/v2_postgres.py:551-571 | only with the two cleanup codes: succeeds if and only if the row is in flight; then that row alone fails, for that reason and without a recommendation |
| JobRows.PostgresDecisionPersistence.CleanupOrphanJobs | apps/api/app/v2_postgres.py:573-591 | fails exactly the in-flight rows not updated for the orphan age, leaves every other row as it is, and counts them |
| JobRows.PostgresDecisionPersistence.CleanupRetention | apps/api/app/v2_postgres.py:593-605 | deletes exactly the terminal rows past retention, leaves every other row as it is, and counts them |
| ProtocolRows.TerminalRowIsFinal | apps/api/app/v2_postgres.py:389-605 | whatever step is taken, a terminal row stays as it is or is deleted by retention after its time |
| ProtocolRows.TerminalRowStays | apps/api/app/v2_postgres.py:389-605 | over a whole run a retained terminal row keeps its content |
| ProtocolFacts.StepIsSafe | apps/api/app/v2_store.py:1447-1497 | every step of the interleaved system keeps the global invariant over memory, rows, calls, tasks, late effects and history |
| ProtocolFacts.RunIsSafe | apps/api/app/v2_store.py:1447-1497 | every world of every run satisfies the global invariant |
| ProtocolTheorems.OneDispatchPerRow | apps/api/app/v2_store.py:1304-1345 | while a decision request's row is retained, the model is called at most once for it, and no job calls it twice |
| ProtocolTheorems.PendingIsDriven | apps/api/app/v2_store.py:1074-1302 | a pending session has a job with its request and a call or task that will settle it, or it is the very incarnation, unchanged since, that an escaping completion of the run left behind |
| ProtocolTheorems.OrphanCleanupSparesActiveJobs | apps/api/app/v2_store.py:729-732 | orphan cleanup does not touch a running row claimed for a job that is active with its deadline ahead |
| ProtocolTheorems.OrphanCleanupSparesInRuns | apps/api/app/v2_store.py:763-780 | the same for every orphan cleanup of every run |
| ProtocolTheorems.CompletedRowWasDecided | apps/api/app/v2_store.py:1401-1424 | a row says completed only with a completed decision that its own session held in memory in an earlier world |
| ProtocolTheorems.StaleStaysStale | apps/api/app/v2_store.py:1401-1424 | a job that is no longer active never becomes active again and never publishes |
| ProtocolTheorems.StaleNeverPublishes | apps/api/app/v2_store.py:1401-1424 | the same over whole runs |
| ProtocolTheorems.CancelRetires | apps/api/app/v2_store.py:1538-1562 | cancelling a session retires its job at once |
| ProtocolTheorems.PublishedAtMostOnce | apps/api/app/v2_store.py:1401-1424 | in every run a job publishes at most once and is retired afterwards |
| Progress.UndisturbedJobCompletes | apps/api/app/v2_store.py:1447-1497 | the guards do not block the protocol: from any state with an active job about to save and no conflicting row, six steps publish its decision and record it in its row |
| Progress.ActiveIsAtWork | apps/api/app/v2_store.py:636-646 | in every reachable state an active job within its deadline belongs to a pending session and holds its request |
| Progress.StubDecides | apps/api/app/v2_central.py:657-807 | on the window path the deterministic client's answer is a completed decision that a task may publish |
| Traceability.EscapesExactly | apps/api/app/v2_store.py:1118-1302 | completion of a session with frames escapes if and only if its evidence is refused for its windows, an expression summary or its colours |
| Traceability.RunKeepsDerived | apps/api/app/v2_store.py:1304-1345 | in every run, each held request was built from the buffer that the completion which started that job read, in an earlier step of the run |
| Provenance.BuffersAreAccepted | apps/api/app/v2_store.py:902-996 | in every run, a collecting session's buffer consists of batches that earlier steps of the run accepted for it |
| Provenance.RecordsMove | apps/api/app/v2_store.py:817-996 | in one step a session's record stays, is opened empty, takes in one accepted batch, is completed, or becomes terminal |
| Traceability.RepliesAreGrounded | apps/api/app/v2_store.py:1316-1348 | in every run, a reply that becomes a completed decision names tags of its product, claims what its path demands, and is grounded in frames of the buffer that this job's completion read earlier, and each is the join of submissions in batches that the run had accepted for this session |
| StreamAdmission.StreamState.RejectionReason | apps/vision_gateway/server.py:1061-1077 | admits a context exactly when its key is not in the ring, its epoch does not fall and its sequence rises |
| StreamAdmission.StreamState.Accept | apps/vision_gateway/server.py:1121-1130 | appends to the accepted history; set and deque agree and hold exactly the last 512 keys |
| StreamAdmission.StreamLoop.ReceiveFrame | apps/vision_gateway/server.py:303-429 | answers each frame by the first failing check in the source's order, and admits none while work is in flight; admitted minus sent outcomes is 1 exactly when a task is in flight |
| StreamAdmission.SequencesIncrease | apps/vision_gateway/server.py:1068-1077 | over an unbounded history sequences strictly increase and epochs never decrease |
| StreamAdmission.NeverTwice | apps/vision_gateway/server.py:1068-1130 | no context is accepted twice, even after its key left the ring |
| StreamAdmission.RateBound | apps/vision_gateway/server.py:1082-1087 | in an interval of length T at most T·F+1 frames are accepted, for the largest rate F in force |
| FrameOwnership.LifeIsOwned | apps/vision_gateway/server.py:597-755 | every state of every interleaving satisfies the ownership invariant |
| FrameOwnership.SettledExactlyOnce | apps/vision_gateway/server.py:597-755 | lives are finite, and at the end a decoded frame was closed exactly once or handed over, never both |
| FrameOwnership.NeverClosedInUse | apps/vision_gateway/server.py:61-77 | the gateway never closes a frame that a worker is using |
| FrameOwnership.NeverStuck | apps/vision_gateway/server.py:1089-1116 | a frame that is not at rest can always take a step |
| FrameOwnership.NextFrameWaits | apps/vision_gateway/server.py:395-400 | once the coroutine answered and no deferred work is left, the frame is settled and unused |
| FrameStream.VisionStream.Receive | apps/vision_gateway/server.py:389-420 | a frame is admitted only when no admitted frame has work left; then all of them are settled, and the busy test reads exactly their deferred work |
| FrameStream.VisionStream.OnlyTheNewestIsOpen | apps/vision_gateway/server.py:395-400 | at any time only the newest frame can be unsettled or in use |
| FrameStream.VisionStream.Happen | apps/vision_gateway/server.py:1089-1116 | whatever happens to an admitted frame, the pending tasks stay exactly the frames' deferred work, and settled frames stay settled |
| FrameStream.NoTasks | apps/vision_gateway/server.py:1079-1116 | no task is pending exactly when no frame has deferred work |
| WireCodec.PayloadRoundTrip | apps/vision_gateway/vision_stream.py:90-156 | parsing printed metadata gives it back |
| WireCodec.WireRoundTrip | apps/vision_gateway/vision_stream.py:193-225 | decoding an encoded valid frame within the limits gives the same metadata and image |
| WireCodec.AcceptedShape | apps/vision_gateway/vision_stream.py:193-216 | an accepted message is magic, big-endian header length, header and an image of the declared length |
| WireCodec.ReencodingLosesNothing | apps/vision_gateway/eye_client.py:134-145 | re-encoding a decoded frame for the Eye worker is refused for its header's size or decodes to the same frame |
| WireCodec.TooLargeMeans | apps/vision_gateway/vision_stream.py:193-216 | the too-large error is raised exactly when the header length or the image exceeds its limit |
| Bytes.BigEndianUnique | apps/vision_gateway/vision_stream.py:203-225 | four bytes are the big-endian form of exactly one number |
| Joiner.ObservationJoiner.PushGaze | apps/vision_gateway/gateway.py:184-190 | pairs with the stored face of the same frame or stores the sample; gaze and face keys stay disjoint |
| Joiner.ObservationJoiner.FlushNearest | apps/vision_gateway/gateway.py:199-237 | returns an eligible pair of globally minimal gap, with the smallest gaze key among ties, or nothing if and only if none is eligible |
| JoinerFacts.NoSampleTwice | apps/vision_gateway/gateway.py:184-223 | over any history a sample leaves in pairs at most as often as it was pushed |
| JoinerFacts.FlushingEnds | apps/vision_gateway/gateway.py:199-223 | every successful flush uses up one gaze and one face, so flushing ends |
| JoinerFacts.FlushedMatchingIsStable | apps/vision_gateway/gateway.py:199-223 | flushing until nothing matches is a stable matching: every initially eligible pair lost one of its samples to a pair at least as close |
| JoinerFacts.GapsNeverShrink | apps/vision_gateway/gateway.py:199-223 | successive flushes return pairs in order of their gap |
| Gateway.InProcessVisionGateway.OfferedFramesBalance | apps/vision_gateway/gateway.py:306-322 | offered = dispatched + drop notices + pending, and dispatched = released + in flight |
| Gateway.InProcessVisionGateway.Offer | apps/vision_gateway/gateway.py:306-314 | the newest frame becomes pending, and the replaced one gets its notice |
| Gateway.InProcessVisionGateway.BeginDispatch | apps/vision_gateway/gateway.py:316-323 | takes the pending frame if and only if the gateway is connected and nothing is in flight |
| Gateway.InProcessVisionGateway.Finish | apps/vision_gateway/gateway.py:411-430 | cancel and close drop the pending frame with a notice and clear the joiner |
| Gateway.OnePushPairs | apps/vision_gateway/gateway.py:353-364 | pushing both samples of one frame, in either order, yields exactly one pair, matched by frame id |
| Mp4.ReadBoxes | apps/api/app/v2_aoi.py:182-208 | terminates, and finds the tiling of the byte range by boxes, failing if and only if there is none |
| Mp4.TilingIsUnique | apps/api/app/v2_aoi.py:182-208 | there is at most one way to read a box list |
| Mp4.EveryByteInABox | apps/api/app/v2_aoi.py:182-208 | a box list leaves no gap and stays inside its range |
| Mp4.NoByteInTwoBoxes | apps/api/app/v2_aoi.py:182-208 | boxes do not overlap |
| Mp4.BoxListRoundTrip | apps/api/app/v2_aoi.py:182-208 | reading written boxes gives back kinds and contents, for compact, 64-bit and open-ended sizes, anywhere in a file |
| Mp4.FpsFromStts | apps/api/app/v2_aoi.py:293-308 | answers if and only if the table is complete with positive runs, and then with samples times time scale over the sum of all sample durations |
| Mp4.FpsIsBetween | apps/api/app/v2_aoi.py:293-308 | the average rate lies between time scale / longest and time scale / shortest sample |
| Mp4.ProbeMp4Media | apps/api/app/v2_aoi.py:311-363 | finds the movie's duration to the nearest millisecond and the first of its largest video tracks, failing if and only if there is no such movie |
| Mp4.MovieIsUnique | apps/api/app/v2_aoi.py:311-363 | a file describes at most one movie |
| Mp4.RoundedIsNearest | apps/api/app/v2_aoi.py:268-284 | rounding is to the nearest integer, halves to even |
| Mp4Headers.TimingRoundTrip | apps/api/app/v2_aoi.py:234-265 | reading a written `mvhd` or `mdhd`, of either version, gives back its time scale and duration, and fails exactly if one of them is 0 |
| Mp4Headers.DurationMeansTiming | apps/api/app/v2_aoi.py:234-265 | whatever is read as a time scale and a duration is such a header with these two |
| Mp4Headers.DimensionsRoundTrip | apps/api/app/v2_aoi.py:268-284 | reading a written `tkhd`, of either version, gives back its width and height to the nearest pixel, and fails exactly if one of them is 0 |
| Mp4Headers.DimensionsMeanHeader | apps/api/app/v2_aoi.py:268-284 | whatever is read as dimensions is such a header with these two |

## Left out

- Floating point: ratios, times, coordinates and frame rates are exact reals, the polygon tests' tolerance included; rounding,
  overflow and non-finite numbers are not modelled. In particular an average whose floating-point sum overflows raises in
  the original and not here.
- Averages of expressions and movement, durations of sustained actions, and signal versions: the model carries the counts,
  the names of the signals and the codes that decide windows, eligibility, the data models and the gate.
- In-place update of one session record through several names: the store keeps its records as values in its maps, so
  aliasing of a `V2SessionState` or `CompletionJob` object is not captured; job identity is kept by a table of job ids.
- Dispatcher internals (`AsyncioJobDispatcher`, `ThreadJobDispatcher`, concurrency limits): submitting may succeed or fail.
- HTTP routes, model transport, SQL text, asyncio and threads: a lock-held block is one step, a model reply is arbitrary,
  a database call is a guarded row transition that may fail, come late or be lost.
- SHA-256, UUIDs and JSON text: fingerprints are injective, ids fresh, and JSON text is assumed to be read back as it was printed,
  for the one value that a theorem speaks of.
- Id and media-type patterns, URL and length bounds, and the scan of explanatory texts for diagnosis terms: opaque
  predicates; explanatory texts are stand-ins.
- One clock is read once per lock-held block, shared by memory and database.
- Cancellation of the coroutine that handles a frame: then a frame may be left to the garbage collector; every theorem about
  ownership is for lives without it. A gaze-only frame and calibration frames follow the same pattern and are not repeated.
- Worker processes, restart and error counters of the in-process gateway, and its gaze replay port: a delivered frame is a
  pair of arbitrary samples.
- Reading the media file from disk and comparing it with its reviewed identity.
- The v1 store and mock engine, manager events, catalog seeding, readiness comparison, `vision_token.py`, experiments and
  scripts: they would only add easier members.
