# Crash-safe lineage and the RSI controller: a verified model

This project models how `post_training_rsi` keeps the history of promoted models on disk, and proves what that history and the controller that writes it guarantee.

Four cooperating stores keep the history. `ControlRecordStore` writes immutable records first and a commit marker last; `CheckpointBundleStore` publishes a bundle by one rename; `PeakPointerStore` is a compare-and-swap pointer that re-verifies its links into the other two; `QuarantineStore` keeps immutable markers. `RSIDecisionPolicy` decides promote, reject, rollback, plateau or abort. `ConvergedRSIController` drives iterations, commits, materialises, and resumes from `latest_snapshot`. Beside them stand the data gate, the recovery bundle and the Co-Evolution run store.

## How it is modelled

- A store is a class whose fields are maps from path to content. `write_immutable`, `replace_atomic` and a directory rename are one atomic write each, and every writing method takes the number of durable writes after which the process dies. The same stores also appear as transition systems (`ControlProtocol`, `StoreSystem`, `CrashRecovery`, `RunStore`) in which every durable write is one step and a crash may come between any two; `CommitRefinement` ties the two views of a commit together.
- SHA-256 over canonical JSON is a free constructor, so it is injective; so are identifiers minted by hashing their parts. Times are whole seconds. Scores and costs are `real`, and the 1e-12 slack stands where the code has it.
- Teacher, verifier, trainer, server and approver are oracles: their answers are inputs of a turn.
- Sort orders of text (paths, snapshot ids) are an arbitrary function `rank`, so nothing depends on them.

| files | what they hold |
|---|---|
| `Records`, `ControlStore`, `ControlProtocol`, `CommitRefinement` | records, the marker-last store, its small steps and its lock-free readers |
| `CheckpointStore`, `PeakStore`, `QuarantineStore`, `StoreSystem` | the other three stores, and all four under arbitrary clients |
| `Policy`, `PolicyRuns`, `CostLedger` | one decision, whole runs of decisions, the ledger |
| `TurnOutcomes`, `CandidateOutcomes`, `TurnEntries` | what each turn leaves, in terms of what was given to it |
| `Controller`, `Turns`, `TurnCommits`, `TurnPaths`, `Bootstrap`, `Materialization`, `RunState` | what each turn commits, what any turn guarantees, where a restart continues |
| `CrashRecovery`, `CrashSafety`, `CrashTheorems`, `Progress` | the controller over the stores with crashes: model, proofs, results for runs without reviews |
| `Evaluations` | where the committed records and bundles of a run come from, and that they say what was evaluated |
| `ReviewTimes`, `ReviewedRuns` | runs with reviews: the exact condition under which a restart finds where the run stands |
| `TurnEnds`, `Carries`, `Budgets` | what any turn, reviews included, leaves to be written, passes on within an iteration, and can pay for |
| `Tracks`, `Replays` | what a run on course has behind it, and how a restart from an earlier snapshot makes the same turns again |
| `Forks`, `Barriers` | what holds of every run, on course or not, and the promotion no replay and no fork gets past |
| `LostMarkers`, `Refusals` | the writes after a refusal: the exact condition under which a crash loses them |
| `Books`, `Loading` | the totals and the verdicts of runs with reviews, and what their restarts load |
| `TurnRuns`, `FirstTurns`, `ReviewWitnesses`, `ModelDecisions` | turns carried through one write at a time, and runs that lose a marker, repair one, or stand where a restart does not go on |
| `PeakedTurns`, `BootRecovery` | bootstrap one write at a time, and which of its crash points a later run repairs |
| `RunLoop`, `ConvergedController` | the loop of `run`, and the controller as an object over the stores |
| `DataGate`, `Decontamination` | the accept loop and its replay; the LCS row program |
| `RecoveryBundle`, `RecoveryStaging` | a tree into a deduplicating store and back |
| `RunStore` | the numbered-revision compare-and-swap |

## Hypotheses the code forces

- Byte-identical retry. Controller records use the logical clock, but adapter evidence takes the wall clock (src/post_training_rsi/orchestration/converged.py:138, src/post_training_rsi/adapter_runtime/evidence.py:46) under an id that ignores time. `RetryEquivalence` is about a retry with equal bytes. The crash theorems do not need it: there a retry that differs meets a conflict, and the process stops.
- Finished bootstrap. The runs of `CrashTheorems`, `Progress`, `ReviewedRuns` and what is built on them start from the state `_bootstrap` leaves when it returns. `EveryLifeIsARun` carries their claims over to workspaces that start empty: the loop is only ever in a state of such a run, unless bootstrap crashed between its marker and its pointer, which `RepairableIff` and `UnfinishedBootstrapIsNotRepaired` are about. A repeated bootstrap writes the same bytes, because the start of the logical clock is kept in the workspace (src/post_training_rsi/orchestration/converged.py:179-185).
- Review-free runs, for the claims that resuming always finds the head. With reviews that is true exactly under the condition of `ResumesAtHeadIff`, in every reachable state of every run that has stayed on course so far; `OffCourseReconcilesNothing` says what happens otherwise. The claims about the loop, the budget, the verdicts and the refusals (`RunFrom`, `Run`, `BudgetIsConservedOnCourse`, `ControllerKeepsPace`, `RefusalIsLostIff`) include reviews.
- A human's refusal rests on a decision that refuses its subject. The approval service writes no other (src/post_training_rsi/approval/service.py:410-452); `CommittedRefusalCanBeMarked` shows that with such a decision nothing but a crash keeps the marker from being written.
- Fresh candidate ids: a trainer does not return the id of a checkpoint that already has a bundle. One process owns the workspace, and nobody edits its files.

## Where the code and its documentation differ

- docs/rsi-convergence.md:262-274 pairs a refused candidate or dataset with its quarantine marker. For a dataset, refused by the gate or by a human, and for a candidate a human refused, the marker is written after the transaction from what is in memory only. A process that dies before it loses the marker for good exactly when a restart can find nothing but the stop, or what two promotions have overtaken (`RefusalIsLostIff`). Otherwise the restart goes on from an earlier snapshot, such as a pending review denied at the very time of its request, and the same answers lead it through the same transactions to the same refusal. Two promotions stop it, because the first is no longer the Peak and its compare-and-swap refuses. Before a second promotion times alone decide (`RefusalIsLostByTimes`). Runs that lose the marker exist (`RefusedDatasetMarkerIsLost`, `RefusedCandidateIsLost`), and runs that repair it (`TiedDenialIsRepaired`).
- docs/rsi-convergence.md:126 lets a run resume from durable state. A decision made later than the logical time of a later snapshot hides that snapshot from a restart, in the same iteration or a later one (`LateDatasetApproval`, `LateModelApproval`, `LateDecisionDefeats`), and such runs exist (`LateApprovalHappens`, `LateModelApprovalHappens`). When the approved promotion also ends the run, the restart can load EVALUATE or PROMOTED, for which `run` has no case (`UnsupportedIsLoadedIff`, `UnsupportedIsLoaded`). A crash of `_bootstrap` between its marker and its pointer leaves a workspace without a Peak for good (`UnfinishedBootstrapIsNotRepaired`).
- docs/state-machine.md:60-61 and docs/rsi-convergence.md:51-52 let a model review lead from MODEL_REVIEW_PENDING to PROMOTED or REJECTED. An approval's committed transition starts at EVALUATE instead, so the records of such a turn do not continue from where the run stood (`ModelReviewTakes`), and a refusal stops the run at STOPPED.
- docs/rsi-convergence.md:117 aborts when a limit is crossed. The code lets a limit be crossed by up to 1e-12.

## Model

| member | source | states |
|---|---|---|
| ControlStore.ControlRecordStore.BuildPayload | src/post_training_rsi/lineage/control_store.py:216-250 | a request is accepted exactly when it has records, each of its run and iteration (a snapshot may be of the next one), under distinct keys |
| ControlStore.ControlRecordStore.LoadTransaction | src/post_training_rsi/lineage/control_store.py:307-318 | a marker loads exactly when it sits under its own id and every record it names is there with the recorded digest |
| ControlStore.ControlRecordStore.CommittedRecords | src/post_training_rsi/lineage/control_store.py:398-413 | the scan succeeds exactly when every marker is intact, and returns the files some marker names |
| ControlStore.ControlRecordStore.LoadRecord | src/post_training_rsi/lineage/control_store.py:325-339 | orphans cannot be loaded |
| ControlStore.ControlRecordStore.WriteRecords | src/post_training_rsi/lineage/control_store.py:298-300 | the write loop only adds payload records, stops at the first file with other bytes, and leaves a subset of them when the process dies |
| ControlStore.ControlRecordStore.Commit | src/post_training_rsi/lineage/control_store.py:207-305 | success exactly under the guards, leaving records and marker, and every record of a new transaction then finds what it relies on in the committed view; failure leaves at most orphans; a crash leaves a subset of the records, or everything |
| ControlStore.AdmissibleIff | src/post_training_rsi/lineage/control_store.py:216-250 | exactly which requests are well formed, record kind by record kind: run, iteration (a snapshot may be of the next), no two records of one kind under one id |
| ControlStore.MayStartIff | src/post_training_rsi/lineage/control_store.py:286-296 | exactly which well-formed requests pass the dependency check: the evidence a decision, transition or snapshot cites is committed or brought along, of its run and no later iteration, and so is the decision a transition or snapshot names, of its iteration or, for a snapshot, the one before |
| ControlStore.UncommittedEvidenceIsRefused | src/post_training_rsi/lineage/control_store.py:423-428 | a request that cites evidence neither it nor the committed view has is never committed |
| ControlStore.FinishedView | src/post_training_rsi/lineage/control_store.py:298-305 | a finished commit adds exactly its payload to the committed view |
| ControlStore.OrphansChangeNoView | src/post_training_rsi/lineage/control_store.py:302-303 | whatever orphans a failed or crashed call leaves, the committed view is the same |
| ControlStore.CommitKeepsClosed | src/post_training_rsi/lineage/control_store.py:286-300 | though incoming records shadow committed ones in the dependency check, what commits leaves every record with its dependencies inside the committed view |
| ControlStore.RetryEquivalence | src/post_training_rsi/lineage/control_store.py:273-305 | crash a commit any number of times at any point, with others' unrelated work between: the retry succeeds and leaves the same files and markers as one uncrashed call |
| ControlProtocol.WriterStepKeepsInv | src/post_training_rsi/lineage/control_store.py:273-305 | every write, conflict and crash keeps the disk intact and closed, and loses nothing |
| ControlProtocol.ReachableViewIsClosed | src/post_training_rsi/lineage/control_store.py:416-485 | in every reachable state: the evidence each committed decision, transition and snapshot cites is committed evidence of its run and no later iteration; the decision a transition or snapshot names is a committed decision of its run and iteration, or of the one before for a snapshot |
| ControlProtocol.MarkersNameTheirOwn | src/post_training_rsi/lineage/control_store.py:252-305 | in every reachable state a marker sits under its own id and names committed records of its own run and iteration, each under its kind and id with its digest |
| ControlProtocol.ReachableViewGrows | src/post_training_rsi/lineage/control_store.py:302-305 | what was committed stays committed with the same content |
| ControlProtocol.ScansAreSnapshots | src/post_training_rsi/lineage/control_store.py:398-413 | under any interleaving with a writer no lock-free scan breaks, and a finished one returns the committed view of the moment its markers were listed |
| CommitRefinement.FinishedCommitIsARun | src/post_training_rsi/lineage/control_store.py:298-305 | what a returning call leaves, the small-step writer reaches |
| CommitRefinement.CrashedCommitIsARun | src/post_training_rsi/lineage/control_store.py:298-303 | so is every set of orphans a dying call can leave, whether or not a later record would have conflicted |
| CommitRefinement.ConflictingCommitIsARun | src/post_training_rsi/lineage/control_store.py:298-303 | and every set a call that fails on a conflict can leave |
| CheckpointStore.CheckpointBundleStore.Load | src/post_training_rsi/lineage/checkpoint_store.py:292-358 | a bundle loads exactly when its three files are about the checkpoint and agree, it is not its own parent, its transaction is committed with its run and iteration, and the artifact is the expected one |
| CheckpointStore.CheckpointBundleStore.Commit | src/post_training_rsi/lineage/checkpoint_store.py:176-290 | success exactly under the guards; the bundle appears whole or not at all; an equal bundle is accepted again, a different one refused |
| CheckpointStore.BundleLoadsIff | src/post_training_rsi/lineage/checkpoint_store.py:307-358 | the same for any bundle and any control store, spelled out file by file |
| PeakStore.PeakPointerStore.VerifyLinks | src/post_training_rsi/lineage/peak_store.py:234-296 | true exactly on an intact control store that has, named by the transaction of the pointer, a decision that promotes the checkpoint in its run and iteration, and a whole bundle with its run, iteration, transaction, model and manifest and a score within 1e-12 |
| PeakStore.PeakPointerStore.Load | src/post_training_rsi/lineage/peak_store.py:223-232 | the pointer is returned only with all its links verified |
| PeakStore.PeakPointerStore.CompareAndSwap | src/post_training_rsi/lineage/peak_store.py:172-221 | when it installs, replays or refuses, and what each crash point leaves: the history entry before the pointer; whatever is written is backed by a committed promotion and its bundle |
| PeakStore.LinksHoldIff | src/post_training_rsi/lineage/peak_store.py:234-296 | exactly which pointers have links that hold |
| QuarantineStore.QuarantineStore.VerifyLinks | src/post_training_rsi/lineage/quarantine_store.py:204-247 | true exactly when the marker repeats a committed refusing decision |
| QuarantineStore.QuarantineStore.Commit | src/post_training_rsi/lineage/quarantine_store.py:160-174 | success exactly when the links hold and the marker's file is free or equal |
| QuarantineStore.MarkerLinksIff | src/post_training_rsi/lineage/quarantine_store.py:204-247 | exactly which markers have links that hold: those that repeat subject, reason and evidence of a committed decision to quarantine, reject or roll back |
| StoreSystem.StoresStepKeepsInv | src/post_training_rsi/lineage/_io.py:54-80 | every durable write of every store keeps all four consistent, and only adds |
| StoreSystem.LinksAreStable | src/post_training_rsi/lineage/peak_store.py:234-296 | a pointer's full link check survives anything the stores do |
| StoreSystem.LinksNeverBreak | src/post_training_rsi/lineage/quarantine_store.py:204-247 | in every run, pointers ever installed and markers ever written verify in every later state |
| StoreSystem.PeakChainIsSimple | src/post_training_rsi/lineage/peak_store.py:185-221 | installed pointers form a chain through the previous checkpoint: no checkpoint twice, scores strictly rising, iterations not falling, each byte-exact in history |
| StoreSystem.NoRepeat | src/post_training_rsi/lineage/peak_store.py:216-219 | no checkpoint is installed twice |
| StoreSystem.OnlyHistoryStopsARepeat | src/post_training_rsi/lineage/peak_store.py:291-296 | every other guard would let a checkpoint back in through the score tolerance: the immutable history file is what refuses it |
| StoreSystem.InstalledIsPromoted | src/post_training_rsi/lineage/peak_store.py:234-296 | in every run of the four stores, whatever clients ask: a pointer that was ever installed names a committed decision of its run and iteration that promotes its very checkpoint, and the published bundle has its run, iteration, transaction, model, manifest and, within 1e-12, score |
| StoreSystem.RefusedIsNeverInstalled | src/post_training_rsi/lineage/peak_store.py:256-257 | so a pointer whose decision rejects, rolls back or aborts, or is about something else, is never installed |
| StoreSystem.QuarantinedIsRefused | src/post_training_rsi/lineage/quarantine_store.py:204-247 | in every such run each quarantine marker repeats a committed decision of its run and iteration that quarantines, rejects or rolls back its subject |
| StoreSystem.PublishedIsWhole | src/post_training_rsi/lineage/checkpoint_store.py:292-358 | and each published bundle is about its checkpoint in all three files, never its own parent, and committed by its transaction |
| Policy.PolicyStepIsSound | src/post_training_rsi/orchestration/rsi_policy.py:131-149 | whatever the policy decides, each decision is paired with its transition and snapshot, the accepted checkpoint stays active, and a stop reason is there exactly in terminal states |
| Policy.VerdictIsExact | src/post_training_rsi/orchestration/rsi_policy.py:170-274 | exactly when each verdict is given, with which reason and stop reason, the limit that was crossed included: an improvement is never also a regression, so only the budget takes precedence over another verdict that applies |
| Policy.DecidedIff | src/post_training_rsi/orchestration/rsi_policy.py:276-305 | exactly which inputs the policy decides: an EVALUATE snapshot whose active checkpoint is its Peak, with a score, and a candidate of its iteration that was trained from that Peak |
| Policy.StepRecordsTheCandidate | src/post_training_rsi/orchestration/rsi_policy.py:385-439 | the decision cites the evidence and time of the observation, and the move out of EVALUATE and the snapshot are those the verdict calls for |
| Policy.PolicyStepIsOneStory | src/post_training_rsi/orchestration/rsi_policy.py:341-582 | each decision, its transition and its snapshot agree in evidence, time, stop reason, run and state, and the moves form a path out of the snapshot the policy was asked in |
| Policy.EvaluationMoves | src/post_training_rsi/orchestration/rsi_policy.py:170-274 | how Peak, plateau, total, iteration and stop reason move with each verdict, and that there is one decision about the candidate |
| Policy.AdvanceMoves | src/post_training_rsi/orchestration/rsi_policy.py:442-482 | plateau is reported before maximum iterations, and both before the next iteration, each with its stop reason and reason code, carrying the accepted state unchanged |
| Policy.BoundariesAreAsDocumented | docs/rsi-convergence.md:114-117 | a score at the threshold is not promoted, a cost at the limit is not aborted, and a last-iteration improvement becomes the Peak before the run stops |
| PolicyRuns.RunLengthBound | src/post_training_rsi/orchestration/rsi_policy.py:198-274 | L decided candidates with P promotions: L <= (P + 1) * patience, and Peak >= initial + P * min_improvement |
| PolicyRuns.BoundedScoresBoundTheRun | src/post_training_rsi/orchestration/rsi_policy.py:442-482 | bounded scores and a positive minimum improvement bound the run without max_iterations |
| PolicyRuns.PeakIsNearOptimal | src/post_training_rsi/orchestration/rsi_policy.py:196-274 | the final Peak is the initial one or a promoted candidate, and no candidate that was not aborted scored more than Peak + min_improvement |
| CostLedger.CostLedger.ChargeAmount | src/post_training_rsi/cost.py:25-51 | all or nothing, per-iteration limit reported first; totals are exactly the sums of the charges |
| CostLedger.CostLedger.RecordFailure | src/post_training_rsi/cost.py:53-66 | the circuit opens exactly at the configured run of failures |
| CostLedger.CostLedger.RecordSuccess | src/post_training_rsi/cost.py:68-69 | a success ends the run of failures and leaves the charges alone |
| CostLedger.TotalIsSumOverIterations | src/post_training_rsi/cost.py:39-42 | the run total is the sum of what the iterations were charged |
| Turns.DataTurnIsGood | src/post_training_rsi/orchestration/converged.py:446-779 | every data turn of a run without reviews ends in a state the run can stand at: later in logical time, same Peak, exact charge, within budget, no verdict on a checkpoint, under an id of its iteration and place |
| Turns.CandidateTurnIsGood | src/post_training_rsi/orchestration/converged.py:840-1127 | every candidate turn of such a run that the policy accepts leaves one verdict, its materialisation data, and the accepted state that verdict calls for |
| Turns.PolicyTurnIsGood | src/post_training_rsi/orchestration/converged.py:1205-1290 | the materialised snapshot is later than every other snapshot of its transaction |
| Turns.IterationCostIsWhatWasSpent | src/post_training_rsi/orchestration/converged.py:874-875 | the cost a candidate is judged by is teacher cost plus evaluation cost |
| TurnOutcomes.DataTurnOutcome | src/post_training_rsi/orchestration/converged.py:484-779 | every data turn up to the last iteration, in terms of its input: an open circuit, a failed teacher and each ledger refusal abort the run at no charge, each with its own stop reason; a batch that can be paid is trained on or put before a human when enough was accepted, and otherwise stops the run, charged and in quarantine; decisions, times, evidence and marker are spelled out |
| TurnOutcomes.BatchGoesOnIff | src/post_training_rsi/orchestration/converged.py:629-639 | a batch that can be paid goes on exactly when something was accepted and accepted >= min_acceptance * all; nothing accepted and too little are told apart |
| TurnOutcomes.StagesAreRecorded | src/post_training_rsi/orchestration/converged.py:1427-1536 | whatever becomes of such a batch, its three stages are on record with their times, evidence and cost |
| TurnOutcomes.NoTurnPastTheMaximum | src/post_training_rsi/orchestration/converged.py:448-454 | past the maximum the run stops before the teacher is asked, at no charge |
| CandidateOutcomes.CandidateTurnOutcome | src/post_training_rsi/orchestration/converged.py:840-1127 | every candidate turn in terms of its input: a failed execution aborts at no charge; the policy is asked exactly when the candidate was trained from the Peak and has evidence; the verdict on its score and the whole cost of the iteration, with reason, status, accepted state, total, stop reason and next state, is what the turn carries, unless it is a promotion a human is to be asked about |
| CandidateOutcomes.DataReviewOutcome | src/post_training_rsi/orchestration/converged.py:781-838 | what each answer to a dataset review leads to: nothing, an error, training at the time of the approval, or a stop that charges the iteration and marks the dataset |
| CandidateOutcomes.ModelReviewOutcome | src/post_training_rsi/orchestration/converged.py:1129-1203 | what each answer to a model review leads to: an approval promotes exactly when the policy still would; a denial or an expiry stops the run, charges the iteration and asks for the candidate to be materialised as rejected by a human |
| TurnEntries.DataTurnEnters | src/post_training_rsi/orchestration/converged.py:1427-1757 | each snapshot of a data turn is entered by a transition of the same time, evidence and decision |
| TurnEntries.CandidateTurnEnters | src/post_training_rsi/orchestration/converged.py:885-1127 | so is each of a candidate turn, except that the one to be materialised is a copy of the last snapshot of the policy; serving and evaluation are on record with score and cost |
| TurnEntries.DataReviewEnters | src/post_training_rsi/orchestration/converged.py:781-838 | so is each of a resumed dataset review |
| TurnEntries.ModelReviewEnters | src/post_training_rsi/orchestration/converged.py:1129-1203 | and each of a resumed model review but the evaluation at the time of the approval, which no transition enters |
| TurnCommits.NeatMayStart | src/post_training_rsi/lineage/control_store.py:416-485 | a list of records that fit, differ and bring or find what they depend on passes the store's checks under a free id |
| TurnCommits.DataTurnMayStart | src/post_training_rsi/orchestration/converged.py:757-779 | under a free id, any data turn up to the last iteration, a review requested or not, passes the store's fit, uniqueness and dependency checks |
| TurnCommits.CandidateTurnMayStart | src/post_training_rsi/orchestration/converged.py:1265-1284 | so does any candidate turn from a committed training snapshot, after a dataset review or without one |
| TurnCommits.DataReviewMayStart | src/post_training_rsi/orchestration/converged.py:781-838 | and any answer to a dataset review |
| TurnCommits.ModelReviewMayStart | src/post_training_rsi/orchestration/converged.py:1129-1203 | and any answer to a model review |
| TurnCommits.StepHasEdges | src/post_training_rsi/orchestration/rsi_policy.py:485-582 | the records of a policy step name each other and no two share an id |
| TurnPaths.DataTurnTakes | src/post_training_rsi/orchestration/converged.py:1427-1536 | the transitions of any data turn, reviews requested or not, are a path from DIAGNOSE to the state it leaves |
| TurnPaths.CandidateTurnTakes | src/post_training_rsi/orchestration/converged.py:885-1127 | those of any candidate turn are a path from TRAIN |
| TurnPaths.DataReviewTakes | src/post_training_rsi/orchestration/converged.py:781-838 | those of any resumed data review are a path from DATA_REVIEW_PENDING |
| TurnPaths.ModelReviewTakes | src/post_training_rsi/orchestration/converged.py:1129-1203 | those of a resumed model review continue from MODEL_REVIEW_PENDING exactly when the model was not approved |
| Bootstrap.BootMayStart | src/post_training_rsi/orchestration/converged.py:225-379 | the bootstrap transaction passes the store's checks on an empty disk |
| Bootstrap.BootOutcome | src/post_training_rsi/orchestration/converged.py:231-360 | the two decisions and the two snapshots of the bootstrap: the base promoted on both evidence records, and the first iteration begun with it as active checkpoint and Peak |
| Bootstrap.BootEntries | src/post_training_rsi/orchestration/converged.py:294-360 | each of the two snapshots is entered by a transition of its time, evidence and decision, the first from nothing |
| Bootstrap.BootAgrees | src/post_training_rsi/orchestration/converged.py:365-444 | transaction, bundle and pointer of the bootstrap agree in id and time |
| BootRecovery.RepairableIff | src/post_training_rsi/orchestration/converged.py:188-192 | after a crash inside bootstrap with k of its twelve durable writes on disk, some later run gets to a state whose pointer file holds the Peak if and only if k <= 8 or k = 12 |
| BootRecovery.UncommittedIsRedone | src/post_training_rsi/orchestration/converged.py:225-444 | what a later run then makes of k <= 8 is the very state an uninterrupted bootstrap leaves |
| BootRecovery.UnfinishedBootstrapIsNotRepaired | src/post_training_rsi/orchestration/converged.py:365-444 | for 9 <= k <= 11 every state of every later run, reviews and crashes included, has no Peak pointer and nothing was ever installed |
| BootRecovery.EveryLifeIsARun | src/post_training_rsi/orchestration/converged.py:188-192 | from an empty workspace, through crashes of bootstrap itself, the loop is only ever in a state of a run from a finished bootstrap, or without a Peak for good |
| PeakedTurns.TurnIsPeaked | src/post_training_rsi/orchestration/converged.py:1205-1290 | no turn of any kind commits a snapshot without an accepted checkpoint, or a decided candidate without a parent |
| CrashTheorems.BootInv | src/post_training_rsi/orchestration/converged.py:225-444 | a finished bootstrap satisfies everything the later claims rest on |
| RunState.SnapshotsIn | src/post_training_rsi/orchestration/run_state.py:153-160 | the snapshots one transaction of the run names |
| RunState.Latest | src/post_training_rsi/orchestration/run_state.py:163-170 | no candidate sorts after the one returned |
| RunState.LatestSnapshot | src/post_training_rsi/orchestration/run_state.py:145-170 | fails exactly when a transaction does not load; otherwise the greatest by time, iteration and id of the run's committed snapshots, or none |
| RunState.HeadIsLatest | src/post_training_rsi/orchestration/run_state.py:163-170 | a snapshot later than all others is the only possible result |
| RunState.OnlyLatestIff | src/post_training_rsi/orchestration/run_state.py:163-170 | a committed snapshot is the only possible result exactly when it sorts strictly after all others |
| RunState.IsLatestIff | src/post_training_rsi/orchestration/run_state.py:163-170 | exactly which committed snapshots of a run can be its latest: by time, then iteration, then id as text |
| RunState.ScanIsLatest | src/post_training_rsi/orchestration/run_state.py:145-170 | on a well-shaped disk the scan of the marker files returns exactly the latest snapshots of the committed view |
| Materialization.PointerLinksHold | src/post_training_rsi/orchestration/converged.py:1393-1410 | the pointer built from a committed promotion passes the full link check |
| CrashSafety.ProcessStepKeepsInv | src/post_training_rsi/orchestration/converged.py:188-223 | no step of the controller and no crash breaks the joint invariant of controller and stores |
| CrashSafety.MarkerStep | src/post_training_rsi/orchestration/converged.py:1277-1290 | the moment a turn's marker is on disk, its snapshot is the head and everything its materialisation needs is in place |
| CrashSafety.NextIdIsFree | src/post_training_rsi/orchestration/converged.py:2458-2463 | transaction ids name iteration and place, so the next turn's id has never been used |
| CrashTheorems.PeakPointerIsExact | src/post_training_rsi/orchestration/converged.py:1292-1301 | between two turns of any crashed and resumed run, active checkpoint = Peak, and the pointer file holds exactly that checkpoint and score |
| CrashTheorems.LatestSnapshotIsHead | src/post_training_rsi/orchestration/converged.py:1238-1254 | in every reachable state, for every history length, `latest_snapshot` can only return the snapshot the last committed turn continued from |
| CrashTheorems.ScanReturnsHead | src/post_training_rsi/orchestration/run_state.py:145-170 | so the scan of the marker files returns it |
| CrashTheorems.MaterializationNeverFails | src/post_training_rsi/orchestration/converged.py:1303-1425 | what the policy decided, the stores accept: no CAS, score, iteration, link or byte conflict, first try or after any crashes |
| CrashTheorems.EveryVerdictIsCarriedOut | src/post_training_rsi/orchestration/converged.py:1393-1424 | every committed verdict ends with a bundle and promoted or quarantined, never both; aborted ones neither |
| Evaluations.VerdictsAreOfWhatWasEvaluated | src/post_training_rsi/orchestration/converged.py:1303-1425 | between two turns of any review-free run, for every committed decision about a checkpoint after the bootstrap: some earlier step asked for a verdict on that candidate, the decision and its reason are what the policy says of its score and cost, the bundle has the status of the decision and the score, model, parent and artifact that were evaluated, and the Peak pointer or the quarantine marker repeats them |
| Evaluations.EveryRecordIsATurns | src/post_training_rsi/orchestration/converged.py:1277-1290 | in every state of every run, reviews included, each committed record is of the bootstrap or of a turn an earlier step began, and the run went on from where that turn left it |
| Evaluations.BaseStaysPublished | src/post_training_rsi/orchestration/converged.py:380-444 | in every such state the base model is published as configured and is the first Peak |
| CrashTheorems.BudgetIsConserved | src/post_training_rsi/orchestration/converged.py:484-496 | without reviews: the total at every head is exactly what the heads so far were charged, and every head not ABORTED is within the limit |
| CrashTheorems.ResumeCompletes | src/post_training_rsi/orchestration/converged.py:188-192 | from every reachable crash, once a stale lock is gone, resuming and reconciling reaches the head and finishes what was interrupted |
| Books.BudgetIsConservedOnCourse | src/post_training_rsi/orchestration/converged.py:1859-1862 | with reviews, on course: the same at every head, and what an outstanding review will still charge is within the limit too |
| Forks.EveryCommittedSnapshotIsPaid | src/post_training_rsi/cost.py:25-51 | in every state of every run, reviews, crashes and restarts from elsewhere included: no committed snapshot but an ABORTED one is over the total limit |
| Books.VerdictsAreAPolicyRun | src/post_training_rsi/orchestration/converged.py:980-980 | on course, with reviews and crashes: the verdicts at the heads are one run of the policy, each candidate judged in the state the previous verdict led to |
| Books.ControllerKeepsPace | src/post_training_rsi/orchestration/rsi_policy.py:198-274 | so the controller's runs keep the policy's pace: candidates decided, Peak gained, and no decided candidate more than min_improvement above the Peak |
| LostMarkers.RefusedDatasetMarkedIff | src/post_training_rsi/orchestration/converged.py:1723-1754 | without reviews, for all continuations: a refused dataset's marker is on disk in a later state if and only if it was written before the first crash after the commit |
| LostMarkers.RefusedDatasetMarkerIsLost | src/post_training_rsi/orchestration/converged.py:1723-1754 | a run that loses it: any first batch the gate refuses and one crash; no run that goes on from there writes it |
| Tracks.OnCourseIsTracked | src/post_training_rsi/orchestration/converged.py:188-223 | every state of a run on course: answers lead from head to head by transactions on disk, every verdict before the head is carried through, the last promotion is the Peak, a pending candidate has no bundle, and only a refusal leaves a dataset's marker |
| Replays.TurnsAgain | src/post_training_rsi/lineage/control_store.py:275-285 | from an earlier head, or the snapshot beside it, the same answers lead back to the last commit and leave the stores as they are, as long as the Peak pointer names the promotions on the way |
| Forks.EveryRunWorks | src/post_training_rsi/orchestration/converged.py:2188-2223 | in every state of every run: within an iteration each snapshot a turn can be taken from carries the accepted state its dataset was verified under |
| Forks.HeldForGood | src/post_training_rsi/lineage/peak_store.py:185-221 | a process whose restarts all go back to before a promotion that is no longer the Peak writes no marker of a later iteration, whatever it is answered and however often it dies |
| Barriers.OvertakenIsBehind | src/post_training_rsi/lineage/peak_store.py:185-221 | of two promotions committed since what a restart finds, the first is such a barrier, and it lies before the refusal |
| Refusals.RefusalIsFresh | src/post_training_rsi/orchestration/converged.py:1878-1925 | right after any refusal of a run on course nothing of it is on disk: no marker under its key and no bundle of its candidate |
| Refusals.RefusalIsLostIff | src/post_training_rsi/orchestration/converged.py:1878-1925 | dataset or candidate, gate or human, with or without reviews: in every continuation the marker is there if and only if it was written before the process first died, if and only if a restart can find nothing but the stop or what two promotions have overtaken |
| Refusals.RestartRepairs | src/post_training_rsi/orchestration/converged.py:1292-1301 | in the other case, a run: it dies without the marker, goes on from the snapshot found, makes the same turns again and writes the marker |
| Refusals.OnlyHeadIsFoundIff | src/post_training_rsi/orchestration/run_state.py:163-170 | in every state on course a restart can find only the head exactly when the head sorts strictly after every other snapshot entered at a decision and, if it is one itself, after the one before |
| Refusals.RefusalIsLostByTimes | src/post_training_rsi/orchestration/run_state.py:163-170 | before a second promotion that comparison of times is the whole condition |
| Refusals.CommittedRefusalCanBeMarked | src/post_training_rsi/approval/service.py:410-452 | right after the commit of any refusal whose decision refuses its subject, the marker's links hold |
| Refusals.RefusedBundleIsLost | src/post_training_rsi/orchestration/converged.py:1900-1925 | where the stop sorts last, a refused candidate's marker and bundle are there if and only if they were written before the process first died |
| ModelDecisions.TiedDenialIsRepaired | src/post_training_rsi/approval/service.py:180-184 | a run that is repaired: any promising first candidate denied at the very time of its request, where the stop's id does not sort last, one crash, and the marker is there in the end |
| ReviewWitnesses.RefusedCandidateIsLost | src/post_training_rsi/orchestration/converged.py:1878-1925 | a run that loses both: any promising first candidate whose review expires, and one crash |
| TurnRuns.TurnReachesItsCommit | src/post_training_rsi/orchestration/converged.py:194-222 | a turn the store accepts can be carried through, one durable write at a time, to the state right after its commit |
| Progress.MaterializeCheckpointSucceeds | src/post_training_rsi/orchestration/converged.py:1303-1425 | in every reachable state that calls for it, `_materialize_checkpoint` on free locks succeeds |
| Progress.WhatIsLoadedCanGoOn | src/post_training_rsi/orchestration/converged.py:188-194 | without reviews: in every reachable state, mid-commit and after any crash, what `run` loads is a state its loop can start from, with books that balance |
| Loading.UnsupportedIsLoadedIff | src/post_training_rsi/orchestration/converged.py:220-222 | with reviews, in every state on course: a restart can load a snapshot the loop does not go on from exactly when the run stands at the stop of an approved promotion and the evaluation or promotion entered at the approval sorts neither before that stop nor before anything else entered at a decision |
| ModelDecisions.UnsupportedIsLoaded | src/post_training_rsi/orchestration/converged.py:220-222 | such a run: one iteration, a late approval, and an order of ids in which the evaluation's comes last |
| Progress.NextTurnCanBegin | src/post_training_rsi/orchestration/converged.py:213-221 | between two turns, any well-formed answer leads to a transaction that passes every check of the control store |
| Progress.NextTurnSucceeds | src/post_training_rsi/orchestration/converged.py:1277-1290 | and on free locks that turn, commit and materialisation together, succeeds exactly when no record file holds other bytes |
| ReviewTimes.TurnKeepsTime | src/post_training_rsi/orchestration/converged.py:1238-1254 | every turn of any kind moves the logical clock forward, and the only snapshots entered by another clock are those a decision led to |
| ReviewTimes.EnteredAtTheDecision | src/post_training_rsi/orchestration/converged.py:1129-1203 | those are entered at the decision, all but the one that asks for the materialisation, which stays at its fixed offset |
| ReviewedRuns.ReviewedStepKeepsInv | src/post_training_rsi/orchestration/converged.py:188-223 | no step of a run with reviews, and no crash, breaks its chronicle while each resume goes on from where the run stands |
| ReviewedRuns.ResumesAtHeadIff | src/post_training_rsi/orchestration/run_state.py:145-170 | over the whole committed view, in every state of every run still on course: a restart finds where the run stands if and only if that snapshot sorts after every snapshot entered at a decision, dataset or model, this or an earlier iteration, and, if it is one itself, after the one before |
| ReviewedRuns.OffCourseReconcilesNothing | src/post_training_rsi/orchestration/converged.py:1292-1301 | any other snapshot a restart goes on from asks for no materialisation, so whatever the head still had to install or quarantine is left undone |
| ReviewedRuns.LateDecisionDefeats | src/post_training_rsi/orchestration/run_state.py:163-170 | a decision hides every head entered before it, in later iterations too, until the logical clock has caught up |
| ReviewedRuns.LateDatasetApproval | src/post_training_rsi/orchestration/converged.py:790-838 | after a dataset approved later than its iteration's last offset, whatever the candidate's turn commits is not found by a restart |
| ReviewedRuns.LateModelApproval | src/post_training_rsi/orchestration/converged.py:1148-1196 | after a late model approval the snapshot that asks for the promotion is not found |
| ReviewWitnesses.LateApprovalHappens | src/post_training_rsi/orchestration/converged.py:790-838 | a run on course that stands where a restart does not go on: any first dataset approved that late |
| ModelDecisions.LateModelApprovalHappens | src/post_training_rsi/orchestration/converged.py:1148-1196 | a run that comes to the commit of such an approval: any promising first candidate approved that late |
| RunLoop.PassDescends | src/post_training_rsi/orchestration/converged.py:194-222 | each pass, reviews included, uses up part of a budget of three passes per remaining iteration |
| RunLoop.PassAccounts | src/post_training_rsi/orchestration/converged.py:1859-1862 | each pass charges exactly the iteration cost of the snapshot it reaches, across ledger, policy, data and review stop paths, and stays within the total limit unless it aborts |
| ConvergedController.ConvergedRSIController.RunFrom | src/post_training_rsi/orchestration/converged.py:194-223 | from a resumable state the unsupported-state error, the transition-budget error and the maximum-iterations guard are unreachable, no iteration takes more than three passes, and the books balance |
| ConvergedController.ConvergedRSIController.Run | src/post_training_rsi/orchestration/converged.py:188-223 | continues from the latest committed snapshot, or from a fresh bootstrap when there is none; if the latest one is supported, the loop's error exits are unreachable, no iteration takes more than three passes and the books balance |
| ConvergedController.ConvergedRSIController.Bootstrap | src/post_training_rsi/orchestration/converged.py:225-444 | leaves transaction, bundle and pointer; on free locks it succeeds exactly when there is no Peak yet and the three stores' guards hold one after the other |
| ConvergedController.ConvergedRSIController.CommitTurn | src/post_training_rsi/orchestration/converged.py:1277-1290 | the turn's transaction is on disk, and its marker or its materialisation after it; on free locks it succeeds exactly when the transaction is accepted and, on the disk it leaves, so is what follows |
| ConvergedController.ConvergedRSIController.Settle | src/post_training_rsi/orchestration/converged.py:1393-1424 | pointer for a promotion, marker for a refusal; on free locks it succeeds exactly under the stores' guards |
| ConvergedController.ConvergedRSIController.MaterializeCheckpoint | src/post_training_rsi/orchestration/converged.py:1303-1425 | bundle, then pointer or marker; on free locks it succeeds exactly under the stores' guards |
| ConvergedController.ConvergedRSIController.ReconcileSnapshot | src/post_training_rsi/orchestration/converged.py:1292-1301 | materialises what the snapshot asks for, and touches nothing otherwise |
| ConvergedController.ThreePassesPerIteration | src/post_training_rsi/orchestration/converged.py:194-195 | a descending trace has at most three running passes per iteration and fewer than the step budget |
| DataGate.TokenJaccardNoveltyIndex.MaxSimilarityOf | src/post_training_rsi/verification/semantic.py:20-29 | the loop computes the greatest share, common tokens against all tokens, that a remembered item has with the text: taken by one item and exceeded by none, and 0 for no tokens or no items |
| DataGate.VerificationPipeline.VerifyBatch | src/post_training_rsi/verification/pipeline.py:41-103 | accepted, quarantined, reasons and memory are those of judging each example against everything accepted before it, and each reason is there exactly by the counts of tokens shared and by the flags of the example |
| DataGate.JaccardIsShare | src/post_training_rsi/verification/semantic.py:25-28 | the similarity is the part of all tokens that is common: at most 1, and 1 exactly for equal sets |
| DataGate.FreshGateLaw | src/post_training_rsi/verification/pipeline.py:49-101 | for every row of any list: it is an exact duplicate iff an accepted row has its stripped text, a semantic duplicate iff it is none and shares more than the limit of the joint tokens with an accepted row (or the limit is negative), and accepted iff there is no reason against it |
| DataGate.MaxSimilarityWithin | src/post_training_rsi/verification/semantic.py:24-29 | the maximum is within a limit exactly when every item is |
| DataGate.AcceptedWholeIffHarmonious | src/post_training_rsi/verification/pipeline.py:49-101 | a fresh gate accepts a list whole exactly when its examples are clean and pairwise within the limit |
| DataGate.ReplayRebuildsTheGate | src/post_training_rsi/orchestration/converged.py:2293-2299 | replaying the accepted rows into a fresh gate accepts them all and rebuilds the same hashes and items |
| DataGate.BatchesJoin | src/post_training_rsi/orchestration/converged.py:2294-2299 | batch by batch is the same as all at once |
| DataGate.AnyOrderIsAccepted | src/post_training_rsi/verification/pipeline.py:65-70 | any order of replay is accepted whole and rebuilds the same hashes and, up to order, items |
| DataGate.ReplayedRowsAreDuplicates | src/post_training_rsi/verification/pipeline.py:49-51 | rows already remembered are refused as exact duplicates, every one |
| Decontamination.LcsIsLongest | src/post_training_rsi/verification/decontamination.py:30-37 | the recurrence is the length of a longest common subsequence: one exists, none is longer |
| Decontamination.RollingLcsRatio | src/post_training_rsi/verification/decontamination.py:24-38 | two rolling rows compute that length over the shorter text's |
| Decontamination.RatioIsShare | src/post_training_rsi/verification/decontamination.py:27-38 | the ratio times the shorter length is the length of the longest common subsequence |
| Decontamination.RatioIsSymmetricAndBounded | src/post_training_rsi/verification/decontamination.py:38-38 | the ratio is symmetric and in [0, 1] |
| Decontamination.CopiedSliceScoresOne | src/post_training_rsi/verification/decontamination.py:8-38 | a contiguous slice of at least n tokens scores 1 on LCS and on n-gram overlap |
| Decontamination.CopyingIsRefused | src/post_training_rsi/verification/decontamination.py:46-59 | such a copy exceeds every limit below 1, whatever else is in the benchmark |
| Decontamination.GramsAre | src/post_training_rsi/verification/decontamination.py:8-13 | the n-grams of a text are its runs of n tokens, or the whole of a shorter text |
| Decontamination.OverlapIsShare | src/post_training_rsi/verification/decontamination.py:16-21 | the overlap is the part of the n-grams of the candidate that the benchmark has |
| Decontamination.OverTheLimitIff | src/post_training_rsi/verification/decontamination.py:46-59 | a candidate is over a limit exactly when some benchmark text shares more than that part with it, for both tests and in counts |
| RecoveryBundle.Sort | src/post_training_rsi/recovery_bundle/bundle.py:290-293 | every path once, in order |
| RecoveryBundle.SortedIff | src/post_training_rsi/recovery_bundle/bundle.py:472-491 | the three orders: by path; shallow first and deep first, by path at one depth |
| RecoveryBundle.CreateBundle | src/post_training_rsi/recovery_bundle/bundle.py:260-352 | succeeds exactly for plain trees within the limits on a free target; entries, counts and blobs are those of the tree, and the result verifies |
| RecoveryBundle.ManifestLoadsIff | src/post_training_rsi/recovery_bundle/bundle.py:105-131 | exactly which manifests load: a source, non-empty paths rising without repeats, right counts, and the digest of the content as id |
| RecoveryBundle.VerifiesIff | src/post_training_rsi/recovery_bundle/bundle.py:379-441 | exactly which bundles verify: such a manifest, a blob of the right bytes and size for each file, and nothing else |
| RecoveryStaging.VerifyBlobs | src/post_training_rsi/recovery_bundle/bundle.py:384-433 | true exactly when every referenced blob holds its content and nothing else is there |
| RecoveryStaging.VerifyBundle | src/post_training_rsi/recovery_bundle/bundle.py:379-441 | true exactly when the manifest is sorted, without repeats, with the right counts and identity, and the directory holds exactly its blobs |
| RecoveryStaging.CheckTree | src/post_training_rsi/recovery_bundle/bundle.py:523-569 | true exactly when paths, kinds, modes and contents are those of the manifest |
| RecoveryStaging.MatchesIffTreeOf | src/post_training_rsi/recovery_bundle/bundle.py:523-569 | exactly one tree passes that check |
| RecoveryStaging.StageBundle | src/post_training_rsi/recovery_bundle/bundle.py:444-508 | succeeds exactly on a free destination, a verified bundle and a path set closed under parents; the result is the manifest's tree |
| RecoveryStaging.StagedMeansClosed | src/post_training_rsi/recovery_bundle/bundle.py:476-482 | parents created on the way are caught by the final check |
| RecoveryStaging.ClosedMeansStaged | src/post_training_rsi/recovery_bundle/bundle.py:470-499 | with a closed path set no call on the way fails |
| RecoveryStaging.CreatedBundleRestoresTheSource | src/post_training_rsi/recovery_bundle/bundle.py:260-508 | the round trip: every path with its kind, mode and bytes, and one blob per distinct content |
| RunStore.CoEvolutionRunStore.LoadUnlocked | src/post_training_rsi/harness/coevolution_store.py:298-313 | the pointer loads exactly when history holds the same bytes |
| RunStore.CoEvolutionRunStore.Create | src/post_training_rsi/harness/coevolution_store.py:210-228 | when it creates, repeats or refuses |
| RunStore.CoEvolutionRunStore.CompareAndSwap | src/post_training_rsi/harness/coevolution_store.py:230-272 | when it advances, repeats or refuses, and what each crash point leaves |
| RunStore.RevisionsAreDense | src/post_training_rsi/harness/coevolution_store.py:268-272 | history is 0..rev, or 0..rev+1 with one orphan; with no pointer, empty or revision 0 |
| RunStore.OrphanDecides | src/post_training_rsi/harness/coevolution_store.py:268-272 | after an orphan only that payload can ever take its revision |
| RunStore.RunOnlyAdvances | src/post_training_rsi/harness/coevolution_store.py:250-267 | identity is constant; revision and both cycle counters never fall |

## Left out

- Bytes, fsync, temporary names, symlink checks on stores, permission enforcement and SHA-256 itself: abstracted to atomic writes, plain modes and an injective digest.
- Field validation of ids, timestamps and texts, configuration parsing, command line, reports and preflight: single-branch checks with no state.
- The approval service: its status is an input of the review turns. Its own status test compares timestamp texts (src/post_training_rsi/approval/service.py:267), which is not modelled. Nor are the checks that a pending request's digest and the policy's digest have not changed: with files and configuration unchanged they pass.
- Serving, teardown and subprocess failures: any of them is the one outcome "execution failed" of a candidate turn.
- coevolution.py, the harness policies and `HarnessPointerStore`: the outer loop calls code that is not part of this model, and the harness pointer repeats the Peak argument.
- Entropy, safety, code and benchmark checks of one example: one fixed function of the gate's configuration. Tokenisation is an input. `SentenceTransformerNoveltyIndex` is not modelled.
- The event list and rounded report of the ledger: the model keeps the exact charges.
- Locks of the checkpoint and quarantine stores in the transition systems: their only durable write is one step. The classes have them.
- A second process in the workspace: the controller's crash claims are for one owner; the claims of `StoreSystem` are for any clients.
- Equality of a crashed run with an uncrashed one: not claimed. `_warm_verifier_history` loads the half-finished iteration's own rows (`ReplayedRowsAreDuplicates`), so the second attempt may accept fewer.
- Cost of an abort after the data stage: src/post_training_rsi/orchestration/converged.py:2087 does not add the iteration's cost, so neither does the model.
- A run after a restart has gone on from another snapshot than the last: proved is what that restart leaves undone, whether it can come back to a refusal, what its snapshots agree on and that they are paid for; not everything it may write besides.
- Floating-point rounding.
- ControlStore.RetryEquivalence: other writers' work in between is assumed not to touch the request's keys with other content; a conflicting key makes the retry fail, as it should.
- Refusals.RefusalIsLostIff: nothing is claimed of a human's refusal whose own decision does not refuse its subject; its marker's links never hold, and the approval service writes no such decision.
