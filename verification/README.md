# Proofs about the host admission, scheduling and merge scripts

A Dafny model of the parts of `scripts/` whose correctness depends on interleavings, exact
arithmetic or exact text, with proofs for every run and every input. `dafny verify dfyconfig.toml`
checks all of it. One module per component:

- **Host memory admission.** `HostAdmission` is a step system: clients with a program counter for
  one pass of the admission loop, locks keyed by client as one open file description, slot and
  taste files with their contents, owners that may die at any statement, and a lease holder that
  may outlive its owner. `HostAdmissionSafety` proves the inductive invariant, phase by phase, and
  `HostAdmissionRuns` draws the guarantees for whole runs, `HostGrants` what each grant rests on
  (the memory read for it, the locks let go of around it), `HostTasteLane` the taste lane with the
  states that show its limits. `CountingSlot` is the counting loop as
  the source writes it, tied to the step system. `LeaseHolder` is the holder process and its line
  protocol (`Decimal` and `Numerals`: the numbers it reads).
- **Assembly memory.** `LinkSlots` is the linker slot pool, `RssSampler` the process tree sampler,
  `CompileGuard` the pause/resume controller with its cleanup, `AssemblyBudget` the budget
  arithmetic and the phase admission loop, joined to the taste lane of host admission.
- **Journey scheduler.** `JourneyScheduler` is the class with the in-place state and a history of
  commands over it.
- **Flake publication.** `PublicationLock` is the remote ref as a mutex under lost and delayed
  requests, `Reconcile` the issue reconciliation with its cached listing, `FlakeIssues` the issue it
  leaves for each observation, `FlakeRecord` the issue body with the embedded record. `Json` and `JsonText` are Python's `json.dumps` and `json.loads`
  on code points, which the record and the frames need, and `JsonDecoded` what loading can yield.
- **Exact algorithms.** `FrameDecoder`; `ChangelogMerge` with `ChangelogLaws`, its output line by
  line; `GitTree` with `GitObject`, a reader of Git's object format; `ImpactPlan` with `ImpactLaws`,
  what a changed path runs.
- **Shared.** `Wrappers` (a missing value), `Newlines` (where a line ends), `Closures` (least closed
  sets as reachability), `AssemblyPolicy` (constants and knobs of the assembly scripts).

Where the source changes an object in place the model is a class or a method with loops, proved
against a function of the old state; the laws are lemmas about those functions. Files, clocks,
memory samples, process tables and remote answers are inputs.

## Where the code and its promises differ

- **Taste lane without a proof** (scripts/host_memory.py:311-328, 354-356). A worker's "proof
  running" comes from a refused intent lock or from a successful shared probe of the budget lock.
  The probe succeeds only while no proof is live, so of the passes that end in a taste run only a
  refused intent lock with a failed probe can have a live proof beside it
  (`HostTasteLane.TasteGrantPass`), contrary to the comments at lines 319-321 and 355. More a worker
  cannot tell: the intent lock may be held by a proof that has ended or that never was admitted
  (`IntentRefusedBy`), the budget lock by anyone (`ProbeBlockedBy`), and a proof is live exactly if
  the one holder is that proof. Four reachable states show that each case occurs:
  `TasteRunWithoutProof` (no proof anywhere, intent in hand), `TasteRunAfterLeftover` (refused by a
  proof that never was admitted), `FailedProbeWithoutProof` (the probe fails as well, and still no
  proof was ever admitted) and `TasteRunBesideProof`, the case the lane is for.
- **Stopped build after a signal in the cleanup** (scripts/assembly-memory.py:426-441). A first
  watched signal that lands after the loop was left and before the handlers are ignored raises out
  of the cleanup, and a paused group stays stopped. `CompileGuard.Guard` states this as an
  if-and-only-if, `CutCleanupLeavesStopped` gives the run.
- **Second pass of the changelog resolver** (scripts/cas-merge-drivers.py:81-114). Where no heading
  follows the first kept line that starts with the opening marker, resolving is idempotent if and
  only if no kept line starts with it (`ChangelogMerge.IdempotentIffClean`); a heading there can
  make the second pass refuse what it would otherwise drop. For every text `IdempotentIff` says it
  through the output, and `KeptMarkerIsDropped` is, for every marker size, a text that loses a line.
- **Auditor against planner** (scripts/ci-test-impact.py:186-217, 282-294). For library tests
  `ImpactPlan.JudgedButNotRunIff` says exactly when a failure counts as selected although no filter
  runs it (a neighbour of a rerun test that names no changed module, as in `NeighbourIsJudged`),
  `RunButMissedIff` exactly when one is run and counts as missed; a recorded failure whose name has
  no `::` is such a case (`UnqualifiedRunsButIsMissed`, `UnqualifiedIsMissed`). For suites the auditor looks at the stem and not at its target
  (`SuiteJudgedButNotRunIff`, `ForeignStemIsJudged`).
- **Surrogate pairs.** `json.dumps` in its ASCII form and `json.loads` join every adjacent high and
  low surrogate code point and change nothing else (`JsonText.LoadsPrints`), so exactly the values
  without such a pair survive (`RoundTripIff`). Nothing loaded from decoded text has one
  (`JsonDecoded.LoadedSurvives`): the flake record of every test that a receipt hands to `reconcile`
  is read back as it was written (`FlakeRecord.ReceiptTestSurvives`).
- **Markers from outside.** The issue body has exactly one marker for every failing output; only
  the repository name, the run ids and the commit id could bring another
  (`FlakeRecord.BodyHasOneMarkerIff`).
- **Nested paths in `git_tree`** (scripts/deploy-hub-release.py:118-124). A snapshot's tree is
  independent of its order if and only if no path lies inside another (`GitTree.OrderMattersIff`).
  Otherwise some orders fail, and in every order that builds the inner file is missing
  (`NestedIsLost`).
- **Lock that takes effect late** (scripts/ci-queue-flakes.py:77-82). A lock whose creation is applied
  after its run has read the ref back and given up stays behind, and blocks every run like that of a
  crashed publisher (`PublicationLock.LateCreationLeavesLock`, `LeftoverBlocks`).
- **Requests that take effect late** (scripts/ci-queue-flakes.py:455-465). A create that is given up
  after the re-read and applied later makes a second open issue exactly when an open issue for its
  test exists by then (`Reconcile.NoDuplicateIff`, `LateCreateDuplicates`). An update that is given
  up and applied later loses a run exactly when another reconcile has added one meanwhile
  (`RunsGrowIff`, `LateUpdateOverwrites`).

## Model

| member | source | states |
|---|---|---|
| `HostAdmissionSafety.NextKeeps` | scripts/host_memory.py:276-379 | every step of every client, crash, probe, holder message and holder exit keeps the invariant: conflicting locks exclude, a live lease holds its locks, files show live weights, the running count covers them, live weights fit the last sample |
| `HostAdmissionRuns.LeasesExclude` | scripts/host_memory.py:279-306 | in every state of every run: never two live proofs, never a live proof beside a live slot worker, never two live taste runs |
| `HostAdmissionRuns.LiveWeightsFitLatestSample` | scripts/host_memory.py:289-310 | in every state with a live slot lease, live weights plus headroom are at most the budget sampled by the latest slot admission, which is exhibited |
| `HostGrants.StatementIsPossible` | scripts/host_memory.py:276-337 | every statement of every client can be taken in every state, with any readings: the listing and the fresh name always exist |
| `HostGrants.LiveWeightsFitReading` | scripts/host_memory.py:294-310 | the same against the reading itself: the step that read the budget is exhibited, and no slot was granted between it and the admission, nor since |
| `HostGrants.JudgeDecides` | scripts/host_memory.py:299-310 | a slot is written exactly if the reading holds the count, the estimate and 2 GiB; otherwise slot and mutex are given back |
| `HostGrants.ProbeDecides` | scripts/host_memory.py:395-411 | one probe of the count: the first free file becomes the slot, a busy one adds the positive number it shows, and one that shows anything else ends the client |
| `HostGrants.FilesShow` | scripts/host_memory.py:300-303 | while a weight is written its file may show anything, and after the flush the estimate |
| `HostAdmissionRuns.CountCoversLive` | scripts/host_memory.py:382-424 | the count a client has taken under the budget mutex, once complete, is never below the live reservations, transient probes included |
| `HostAdmissionRuns.NobodyAdmittedBesideWaiter` | scripts/host_memory.py:279-288 | a step taken while a proof holds priority and waits grants no slot and no taste lease |
| `HostAdmissionRuns.WaitingProofDrains` | scripts/host_memory.py:279-337 | while a proof waits with priority, every slot or taste lease live later was already live, as the same kind of lease |
| `HostGrants.ProofKeepsPriority` | scripts/host_memory.py:329-337 | a proof that has priority keeps it until it is admitted or ends |
| `HostGrants.WorkersLetGo` | scripts/host_memory.py:329-349 | in every run a waiting worker holds no lock at all; a running one holds neither priority nor the budget mutex, and exactly one of a slot and the lane |
| `HostAdmissionRuns.OrphanBlocks` | scripts/host_memory.py:354-379 | a killed owner's lease of any kind stays live, hence excluding, as long as a tracked group lives and nobody kills the holder |
| `HostAdmissionRuns.HolderStays` | scripts/host_memory.py:497-516 | a holder whose owner ended without release does not leave while a tracked group is alive |
| `HostGrants.HolderLeavesIff` | scripts/host_memory.py:497-516 | the holder leaves exactly when it was told to, or its owner is gone and no tracked group is alive |
| `HostGrants.LeaseEndsWithGroups` | scripts/host_memory.py:477-516 | when an owner ends and no tracked group is alive, the holder can leave and the lease is over |
| `HostGrants.ClosesIff` | scripts/host_memory.py:354-379 | while the holder lives, a gone owner keeps exactly the locks of its lease: intent and budget, intent and its slot, or the lane alone |
| `HostGrants.ProbeHolds` | scripts/host_memory.py:177-190 | a transient probe of another caller holds that one lock exclusively and no other |
| `HostAdmissionRuns.TasteLaneShowsEstimate` | scripts/host_memory.py:177-223 | a reading of the taste lane beside an admitted taste run is exactly that run's estimate, at most the lane's cap |
| `HostAdmissionRuns.TasteLaneBytes` | scripts/host_memory.py:177-197 | a reading of the lane is 0 exactly when nobody holds it, and never above 4 GiB |
| `HostTasteLane.IntentRefusedBy` | scripts/host_memory.py:285-288 | a worker refused intent is refused by exactly one client: a live proof, an admitted one that has ended, or one that never was admitted; a proof is live if and only if it is that client |
| `HostTasteLane.NoProofBesideSharedIntent` | scripts/host_memory.py:285-288 | beside a client that holds intent shared no proof is live and none holds the lock |
| `HostTasteLane.SharedProbeMeansNoLiveProof` | scripts/host_memory.py:311-318 | a shared probe of the budget lock that succeeds finds no live proof at that instant |
| `HostTasteLane.ProbeBlockedBy` | scripts/host_memory.py:311-318 | a failed probe is blocked by exactly one client; a proof is live if and only if it is that client, and a proof that blocks it was admitted |
| `HostTasteLane.ProofRunningMeans` | scripts/host_memory.py:282-318 | what "proof running" tells when concluded: from a refused intent lock, that some proof holds it; from a successful probe, that none does and none is live |
| `HostTasteLane.TasteGrantPass` | scripts/host_memory.py:200-223 | every taste grant exhibits its conclusion, its probe and its memory sample in the same pass: intent is held exactly if the probe was the conclusion, a live proof at the probe means refused intent and a failed probe, and both the reserve and the available memory sampled hold estimate, headroom and floor |
| `HostGrants.TasteLeaseFits` | scripts/host_memory.py:200-216 | behind every live taste lease of every run stands a sample of the same client whose reserve and available memory each hold its estimate, the headroom and the floor; the client asked for the lane and stays under 4 GiB |
| `HostGrants.TasteSampleDecides` | scripts/host_memory.py:213-223 | a taste sample goes on to write exactly if both readings suffice; otherwise the lane is given back |
| `HostGrants.LaneTriedIff` | scripts/host_memory.py:319-323 | after a failed probe the lane is tried exactly by a worker that asked for it, fits its cap and concluded that a proof runs |
| `HostTasteLane.TasteBesideProofFreesIntent` | scripts/host_memory.py:311-337 | a taste run beside a live proof holds no intent lock |
| `HostTasteLane.RefusedWithoutProof` | scripts/host_memory.py:285-288 | a reachable "proof running" from a refused intent lock with nobody ever admitted |
| `HostTasteLane.TasteRunWithoutProof` | scripts/host_memory.py:311-328 | a reachable taste run among workers only, the intent lock still held |
| `HostTasteLane.TasteRunAfterLeftover` | scripts/host_memory.py:371-379 | a reachable taste run after a refusal by a proof that gave up before it was admitted |
| `HostTasteLane.FailedProbeWithoutProof` | scripts/host_memory.py:311-327 | a reachable failed probe after a refusal, and the taste run it leads to, with no proof ever admitted |
| `HostTasteLane.TasteRunBesideProof` | scripts/host_memory.py:311-327 | a reachable taste run beside a live proof, after a refusal and a failed probe |
| `HostAdmissionRuns.GrantOnlyWhereGranted` | scripts/host_memory.py:299-327 | a live slot or taste lease after a step was live before, or the step is the flush that publishes its weight |
| `HostAdmissionSafety.OneAllocator` | scripts/host_memory.py:289-291 | the budget lock is a mutex: two clients never count or publish at once |
| `HostAdmission.SumPick` | scripts/host_memory.py:401-404 | the sum of reservations does not depend on the order they are added |
| `CountingSlot.CountSlots` | scripts/host_memory.py:389-411 | the loop returns the sum of the busy slots' weights and the first free slot, or fails exactly when a name is not a slot's or a busy slot shows an invalid reservation |
| `CountingSlot.ReplayCounts` | scripts/host_memory.py:389-411 | probing one slot per step, interleaved with others, counts the same sum as the loop |
| `LeaseHolder.ConsumeLines` | scripts/host_memory.py:507-513 | the inner loop equals the line scan of its buffer |
| `LeaseHolder.Listen` | scripts/host_memory.py:501-513 | the reading loop ends with the scan of all received bytes, for every chunking |
| `LeaseHolder.Hold` | scripts/host_memory.py:497-516 | the outcome is a function of the received bytes, the end of stream and the polls: no chunking changes it |
| `LeaseHolder.HoldLeavesOnlyWhenAllowed` | scripts/host_memory.py:497-516 | the holder exits exactly by a complete `release` line, a `pgid` line it cannot read, or at end of stream at a poll that shows every tracked group dead |
| `LeaseHolder.OwnerNeverCrashesHolder` | scripts/host_memory.py:454-472 | nothing that its owner writes makes the holder crash |
| `Numerals.ParseIntIff` | scripts/host_memory.py:511-513 | a `pgid` line's rest is read as the number v exactly if it is blanks around an optional sign and digits with single underscores between them, with value v |
| `LeaseHolder.ScanAppend` | scripts/host_memory.py:505-513 | scanning two chunks one after the other is scanning their concatenation |
| `LeaseHolder.ScanMeansLines` | scripts/host_memory.py:508-513 | release, tracked groups and rest are determined by the complete lines alone |
| `LeaseHolder.DecidedEarly` | scripts/host_memory.py:501-513 | an outcome reached on a prefix of the chunks is not changed by later chunks |
| `LeaseHolder.ScanOwnerStream` | scripts/host_memory.py:454-472 | the holder recovers exactly the groups its owner tracked, and its release |
| `LinkSlots.CapacityIff` | scripts/assembly-memory.py:55-58 | the capacity rule admits one more link exactly when the links stay under the configured maximum, 8 if unset, and (links + 1) × estimate + headroom is at most the budget |
| `LinkSlots.CapacityIsLargest` | scripts/assembly-memory.py:55-58 | the reported capacity is the most links that both rules allow, and at least one |
| `LinkSlots.ProbeAll` | scripts/assembly-memory.py:86-99 | the free files in listing order, the numbers in use and how many files are busy, for every listing, also one with `slot-1.lock` and `slot-01.lock` |
| `LinkSlots.LeastFree` | scripts/assembly-memory.py:102-103 | the first of the free files with the least number |
| `LinkSlots.FirstUnused` | scripts/assembly-memory.py:104-107 | the least index not in use |
| `LinkSlots.ClaimSlot` | scripts/assembly-memory.py:72-117 | admitted if and only if the busy files are fewer than the configured maximum (8 if unset) and (busy + 1) × estimate + headroom fits the budget; then the first free file with the least number, or the first unused number when none is free |
| `LinkSlots.SelectedByNumber` | scripts/assembly-memory.py:86-108 | where every number has one file, the claim sees and selects what the numbers determine |
| `LinkSlots.ClaimFits` | scripts/assembly-memory.py:100-115 | at each admission (live links + 1) × link estimate + headroom is at most the budget just sampled, and the live links are at most the configured maximum |
| `LinkSlots.ClaimAdmitsIff` | scripts/assembly-memory.py:100-117 | a claim adds its link exactly under that condition on the links it counted, and otherwise only forgets ended ones |
| `LinkSlots.FilesStayDense` | scripts/assembly-memory.py:101-108 | slot files stay the indices 0..n-1 with n at most the largest capacity used |
| `LinkSlots.PoolStaysBounded` | scripts/assembly-memory.py:72-117 | from an empty directory, in every state of every run with any mix of caps and samples |
| `LinkSlots.ClaimIsPossible` | scripts/assembly-memory.py:72-117 | a claim is possible with any knob, sample and view of the leases, also while some of them end |
| `LinkSlots.PoolUnderMaximum` | scripts/assembly-memory.py:55-117 | while no claim of a run has a maximum over n, neither slot files nor live links exceed n |
| `RssSampler.Adopt` | scripts/assembly-memory.py:181-190 | the fixpoint loop ends with the least child-closed set around the surviving lifetimes, and every adopted lifetime reaches the driver's by links that snapshots showed |
| `RssSampler.TreeIsReachable` | scripts/assembly-memory.py:181-190 | that set is exactly what parent links of the snapshot reach from the survivors; a member is a survivor or the child of a member, and children of members are members |
| `RssSampler.ReusedNeverSeeds` | scripts/assembly-memory.py:179-182 | a reused PID is followed if and only if its new parent is, below a process whose original lifetime is still shown |
| `RssSampler.Sampler.Sample` | scripts/assembly-memory.py:170-202 | after any samples every tracked lifetime descends from the driver's first; a sample counts exactly the tree's processes that are not in state Z or X; peaks are the maxima of the samples taken and name their process and time; an unreadable snapshot changes only the first error |
| `RssSampler.RaiseWorkerPeak` | scripts/assembly-memory.py:195-201 | in any visiting order the recorded worker is a live process named mold or ld.mold of the greatest size seen |
| `RssSampler.RssPick` | scripts/assembly-memory.py:194 | the tree's total does not depend on the order of summation |
| `CompileGuard.Monitor` | scripts/assembly-memory.py:403-425 | the loop, interrupted anywhere or not, does what the replay of its turns does |
| `CompileGuard.SignalsAlternate` | scripts/assembly-memory.py:410-416 | in every run stop and continue alternate, each in its own turn, a stop only below one headroom and a continue only from two headrooms on |
| `CompileGuard.StoppedIsHysteresis` | scripts/assembly-memory.py:410-416 | while the loop runs, the group is stopped if and only if the last sample outside the band was low |
| `CompileGuard.SampleMeans` | scripts/assembly-memory.py:406-416 | low, high and breach in the host's own numbers: 2 GiB beside the taste run do not leave the reserve, 4 GiB do, and what is available does not cover it |
| `CompileGuard.ReturnMeansReserveKept` | scripts/assembly-memory.py:403-409 | a normal return is the child's own code, after samples none of which fell below the reserve |
| `CompileGuard.BreachedIff` | scripts/assembly-memory.py:403-409 | the reserve abort happens if and only if a turn that the loop reaches samples below the reserve while the child runs, and that turn sends no signal |
| `CompileGuard.PauseIsBounded` | scripts/assembly-memory.py:417-423 | a pause in force is, at the next check, shorter than the deadline plus the gap between checks |
| `CompileGuard.ExpiryMeansDeadline` | scripts/assembly-memory.py:417-420 | the pause abort happens only past the deadline, with the group stopped |
| `CompileGuard.Guard` | scripts/assembly-memory.py:392-441 | on every way out the group is left stopped if and only if the cleanup was cut short by a first signal while the loop had it stopped |
| `CompileGuard.CleanupResumes` | scripts/assembly-memory.py:426-440 | a completed cleanup leaves no existing group stopped and sends TERM to a running group |
| `CompileGuard.CutCleanupLeavesStopped` | scripts/assembly-memory.py:426-431 | a run in which it does stay stopped |
| `AssemblyBudget.BudgetMeansAvailable` | scripts/assembly-proof.py:551-563 | a positive need fits the budget exactly when need, reserve and taste weight together fit available memory |
| `AssemblyBudget.BudgetLeavesReserve` | scripts/assembly-proof.py:556-563 | a positive need fits the budget exactly when what it leaves beside the taste run covers the reserve: the configured gibibytes, else 8 GiB and a quarter of the memory |
| `AssemblyBudget.CountIsLargest` | scripts/assembly-proof.py:611-619 | for every n: n is within the granted count if and only if n is within the cap and its estimate fits |
| `AssemblyBudget.GrantedIff` | scripts/assembly-proof.py:543-619 | in bytes: a phase gets n jobs or threads exactly when the snapshot is possible, n is under the phase's limit, and its bytes leave the reserve |
| `AssemblyBudget.PhaseBesideTasteRun` | scripts/assembly-proof.py:606-630 | a phase granted while an admitted taste run of weight w holds the lane has estimate + reserve + w within available memory, and one more job would not |
| `AssemblyBudget.PlanIsLargest` | scripts/assembly-proof.py:583-595 | the concurrent plan's jobs are the largest under the cap for which both producers, scripts, a link and headroom fit |
| `AssemblyBudget.PlanIff` | scripts/assembly-proof.py:588-593 | in bytes: a plan has n jobs exactly when n is at most the knob or the cores, at most half of the cores but at least one, and both producers, scripts, a link and headroom fit |
| `AssemblyBudget.PlanIsAdmitted` | scripts/assembly-proof.py:589-619 | on the same budget every leg of a concurrent plan is admitted with at least its planned jobs, also while the other legs hold theirs |
| `AssemblyBudget.Execution.AdmitPhase` | scripts/assembly-proof.py:606-630 | the first decisive reading decides, every reading with a snapshot is logged in order, and each outcome is tied to that reading |
| `AssemblyBudget.GrantedMeans` | scripts/assembly-proof.py:611-627 | a grant in the host's own numbers, and that one more would not have fitted |
| `AssemblyBudget.AttemptsAreBounded` | scripts/assembly-proof.py:620-630 | if sleeps last as long as asked, n sleeping attempts have used n polls and are still before the deadline, so the loop ends |
| `JourneyScheduler.Scheduler.Offer` | scripts/journey-background.py:55-72 | the new state is the specified one and the offer is queued exactly when it is green and its tree is not receipted, running or pending |
| `JourneyScheduler.Scheduler.Reap` | scripts/journey-background.py:75-82 | a dead runner's tree gets a FAIL receipt, otherwise nothing changes |
| `JourneyScheduler.Scheduler.Decide` | scripts/journey-background.py:85-98 | answers start exactly when, after reaping, nothing runs, something is pending, the interval has passed and the host is idle |
| `JourneyScheduler.Scheduler.RunTick` | scripts/journey-background.py:200-224 | a start moves the pending record, its inputs and skipped trees into the running one; a wait only reaps |
| `JourneyScheduler.Scheduler.RecordFinish` | scripts/journey-background.py:101-108 | the receipt is stored and the running entry is cleared only for its own tree |
| `JourneyScheduler.EveryHistory` | scripts/journey-background.py:55-108 | over every history the accepted offers are, in order, the starts' skipped trees and trees followed by the queue; pending, running and receipted trees are pairwise disjoint; no tree starts twice; starts keep the interval and happen on an idle host |
| `JourneyScheduler.TickStartsIff` | scripts/journey-background.py:85-98 | over every history a tick starts exactly when nothing runs or what ran is dead, something is queued, the latest start is long enough ago and the host is idle; otherwise starts, runner and queue stay |
| `JourneyScheduler.OfferAcceptedIff` | scripts/journey-background.py:55-72 | an offer joins the queue exactly when it is green, its tree was never started and is not the one queued last; otherwise nothing changes |
| `JourneyScheduler.DeadRunFails` | scripts/journey-background.py:75-82 | a run whose process is gone is recorded as failed, with its own inputs, by the next tick |
| `JourneyScheduler.StartTakesNewest` | scripts/journey-background.py:200-224 | every start runs the newest accepted offer with its own inputs |
| `JourneyScheduler.RunNeverCancelled` | scripts/journey-background.py:85-108 | only its own report or death ends a run |
| `JourneyScheduler.PassWasReported` | scripts/journey-background.py:230-258 | a PASS receipt was reported by the runner started for that very tree |
| `JourneyScheduler.ReuseIsEarned` | scripts/journey-background.py:111-117 | what lookup returns belongs to a run started for that tree with exactly those inputs, offered green and reported PASS |
| `JourneyScheduler.PassIsReusable` | scripts/journey-background.py:101-117 | and every reported pass can be looked up from then on, for the inputs of its start |
| `JourneyScheduler.ReceiptIsFinal` | scripts/journey-background.py:101-108 | no later event changes a receipt |
| `PublicationLock.NextKeeps` | scripts/ci-queue-flakes.py:66-88 | every step, with requests applied late and responses lost, keeps the ref equal to the one applied and undeleted creation |
| `PublicationLock.OnePublisher` | scripts/ci-queue-flakes.py:66-88 | in every run of any number of clients at most one is inside the section |
| `PublicationLock.OwnershipNeverChanges` | scripts/ci-queue-flakes.py:84-88 | a run about to delete finds its own commit: the ownership check never fails |
| `PublicationLock.LeftoverBlocks` | scripts/ci-queue-flakes.py:68-70 | after a publisher died with the lock, or a lock took effect after its run had given up, no run ever publishes |
| `PublicationLock.LateCreationLeavesLock` | scripts/ci-queue-flakes.py:77-82 | a creation that takes effect after its run has given up leaves the lock behind |
| `PublicationLock.FreeLockIsTaken` | scripts/ci-queue-flakes.py:77-84 | from any state with a free lock any new run can come to publish |
| `PublicationLock.LostResponseIsRead` | scripts/ci-queue-flakes.py:79-82 | a run whose response was lost reads its own commit back and publishes |
| `PublicationLock.PublisherGivesBack` | scripts/ci-queue-flakes.py:85-88 | a run that publishes can give the lock back, and then it is free |
| `Reconcile.PublishNeverDuplicates` | scripts/ci-queue-flakes.py:430-469 | with update and create responses lost or requests unapplied, success or failure, no test gets a second open issue |
| `Reconcile.NoDuplicateIff` | scripts/ci-queue-flakes.py:458-465 | over any history of reconciles, late creates and late updates, no test has two open issues if and only if no create took effect late beside an open issue of its test |
| `Reconcile.LateCreateDuplicates` | scripts/ci-queue-flakes.py:458-465 | a create given up, published again and then applied makes two open issues |
| `Reconcile.PublishGrows` | scripts/ci-queue-flakes.py:432-469 | within a reconcile, whatever becomes of the requests, no issue disappears or closes; run lists and labels only grow |
| `Reconcile.RunsGrowIff` | scripts/ci-queue-flakes.py:455-456 | over any history with late requests, run lists only grow if and only if every late update finds the run list it was made from or the one it makes |
| `Reconcile.LateUpdateOverwrites` | scripts/ci-queue-flakes.py:455-456 | an update given up and applied after the next run's loses that run |
| `Reconcile.HistoryKeeps` | scripts/ci-queue-flakes.py:432-469 | over any history issues stay open and keep their tests |
| `Reconcile.PublishPublishes` | scripts/ci-queue-flakes.py:432-469 | after success every observation is shown by an open issue of its test: run, text and labels |
| `FlakeIssues.IssueIs` | scripts/ci-queue-flakes.py:432-462 | after success every observation has exactly one open issue, written out: the run is added once to the runs it had, the labels it had stay, "flaky" and "priority:p1" join them, and "flaky-quarantine" exactly for a step or when two recorded runs differ |
| `FlakeIssues.QuarantinedIff` | scripts/ci-queue-flakes.py:442-444 | that issue carries the quarantine label if and only if it did before, the test is a step, or two of its runs differ |
| `FlakeIssues.LabelsEarned` | scripts/ci-queue-flakes.py:442-444 | whatever becomes of the requests, every issue is untouched or carries exactly the labels it had and those its record calls for |
| `FlakeIssues.PublishOkIff` | scripts/ci-queue-flakes.py:432-469 | a reconcile succeeds if and only if no open issue is unreadable and every observation has a valid run, at most one open issue, and an answer, or an applied create whose answer was lost |
| `FlakeIssues.ValidRunIff` | scripts/ci-queue-flakes.py:440 | the accepted run numbers are the decimal numerals of the positive numbers |
| `Reconcile.ReconcileIdempotent` | scripts/ci-queue-flakes.py:427-469 | repeating a successful reconcile changes nothing, whatever becomes of the repeated requests, and succeeds if and only if they are all answered |
| `Reconcile.FindMatches` | scripts/ci-queue-flakes.py:433-435 | the search of the listing finds the one matching entry, none, several, or a broken record, exactly |
| `Reconcile.MatchesAgree` | scripts/ci-queue-flakes.py:431-435 | the cached listing, stale only for finished tests, answers for a fresh test as the store would |
| `Reconcile.Tracker.Run` | scripts/ci-queue-flakes.py:427-469 | the loop over the cached listing has exactly the effect and outcome of the specification on the store |
| `FlakeRecord.ReplaceRemovesComments` | scripts/ci-queue-flakes.py:451 | after the replacement no comment opening is left in any output |
| `FlakeRecord.ReplaceFirst` | scripts/ci-queue-flakes.py:451 | a replacement keeps what precedes the first occurrence, replaces that, and goes on behind it |
| `FlakeRecord.ShownMeans` | scripts/ci-queue-flakes.py:451 | the issue shows the first 16000 characters of an output, unchanged where they hold neither a fence nor a comment opening |
| `FlakeRecord.BodyMarkers` | scripts/ci-queue-flakes.py:445-452 | the body's markers are those of the outside names followed by the state |
| `FlakeRecord.MarkerIff` | scripts/ci-queue-flakes.py:24 | a line is a marker exactly if it is the two fixed parts with something between them |
| `FlakeRecord.NoteIs` | scripts/ci-queue-flakes.py:446-447 | the note about coverage is for steps, the one about exclusion for all other tests |
| `FlakeRecord.BodyHasOneMarkerIff` | scripts/ci-queue-flakes.py:445-452 | exactly one marker, for every output and state, if and only if the outside names carry none |
| `FlakeRecord.BodyHasOneMarker` | scripts/ci-queue-flakes.py:24-24 | single-line names carry none, so the one marker is the state |
| `FlakeRecord.RecordReadBack` | scripts/ci-queue-flakes.py:98-106 | parsing the generated body of any record gives it back with the surrogate pairs of its test joined |
| `FlakeRecord.RecordIff` | scripts/ci-queue-flakes.py:98-106 | which loaded values are records, exactly: schema 1, runs that are all digit strings, and a test of a known runner |
| `FlakeRecord.RecordSurvivesIff` | scripts/ci-queue-flakes.py:98-106 | the record read back is the record written if and only if no text of the test has an adjacent surrogate pair |
| `FlakeRecord.ReceiptTestSurvives` | scripts/ci-queue-flakes.py:411-421 | every test taken from a receipt's decoded text is without such a pair, so its record survives |
| `FlakeRecord.IdentityInjective` | scripts/ci-queue-flakes.py:153-160 | two tests share a key only if they are the same test |
| `FlakeRecord.RustIdentityIs` | scripts/ci-queue-flakes.py:153-155 | the key as text where no name needs an escape: `["rust", "binary", "name"]` |
| `FlakeRecord.StepIdentityIs` | scripts/ci-queue-flakes.py:158-159 | and `["step", "name"]` |
| `FlakeRecord.FlakyTestsRead` | scripts/ci-queue-flakes.py:411-421 | the flaky tests of a receipt are read as the tests they were stored for |
| `JsonText.LoadsPrints` | scripts/ci-queue-flakes.py:452 | for every value, loading what was dumped gives it with the surrogate pairs of its texts joined, keys included |
| `JsonText.RoundTripIff` | scripts/ci-queue-flakes.py:452 | a value is loaded back as it was if and only if none of its texts has such a pair |
| `JsonText.LoadsPadded` | scripts/ci-queue-flakes.py:98-106 | a dumped value with text around it is loaded if and only if that text is blank, where it cannot go on a number |
| `JsonText.LeadingZeroRejected` | scripts/ci-queue-flakes.py:98-106 | a number with a leading zero is not loaded |
| `JsonText.PrintIntMeans` | scripts/ci-queue-flakes.py:452 | only a negative number has a sign, and the rest is the numeral of its size |
| `Json.ShortUnescapeIff` | scripts/ci-queue-flakes.py:103 | the short escapes that are read, and what for |
| `Json.HexIff` | scripts/ci-queue-flakes.py:452 | escapes are printed with lower-case digits and read in either case |
| `JsonDecoded.LoadedSurvives` | scripts/ci-queue-flakes.py:412 | whatever is loaded from decoded text is a value without such a pair, and survives dumping and loading |
| `JsonText.PrintInjective` | scripts/ci-queue-flakes.py:153-160 | values that survive print differently when they differ |
| `JsonText.PrintHasNoControls` | scripts/ci-queue-flakes.py:24 | every dumped value is one line |
| `Json.AsciiStringReads` | scripts/ci-queue-flakes.py:452 | ASCII printing and reading a text gives exactly the text with adjacent surrogate pairs joined |
| `Json.RawStringReads` | scripts/ci-queue-flakes.py:153-160 | raw printing and reading gives the text itself |
| `Json.AsciiRoundTripIff` | scripts/ci-queue-flakes.py:452 | a text survives the ASCII form if and only if it has no adjacent high and low surrogate |
| `FrameDecoder.Decoder.Feed` | scripts/many-agent-load.py:859-872 | one feed returns the readable bodies of the whole frames of buffer plus data, and keeps the rest |
| `FrameDecoder.SplitAppend` | scripts/many-agent-load.py:859-872 | feeding two chunks splits as feeding their concatenation |
| `FrameDecoder.FeedAllIsOneFeed` | scripts/many-agent-load.py:859-872 | any chunking of a stream gives the frames and rest of one feed |
| `FrameDecoder.ChunkedStreamDecodes` | scripts/many-agent-load.py:847-872 | for every message list and every split of its encoding, the messages in order as the JSON reader gives them back and an empty buffer; exactly those messages if and only if none has an adjacent surrogate pair |
| `FrameDecoder.LeftoverIsPrefix` | scripts/many-agent-load.py:862-867 | the leftover is a strict prefix of one frame |
| `ChangelogMerge.ResolveUnreleased` | scripts/cas-merge-drivers.py:81-114 | the nested loops give the output and count of the parsed items, unterminated hunks included |
| `ChangelogMerge.Gather` | scripts/cas-merge-drivers.py:91-97 | an inner loop collects the lines up to the first with the prefix |
| `ChangelogLaws.OutputIs` | scripts/cas-merge-drivers.py:84-114 | for every text the output is, item by item: ours, a blank line if both sides meet in text, and theirs for a hunk under an Unreleased heading without a heading of its own; every other line and hunk as it was |
| `ChangelogLaws.RefusedIs` | scripts/cas-merge-drivers.py:105-107 | the reported count is the number of hunks that are not resolved |
| `ChangelogLaws.ResolvesIff` | scripts/cas-merge-drivers.py:98-100 | a hunk is resolved exactly if the last heading before it outside hunks names Unreleased and neither side brings a heading |
| `ChangelogLaws.UnreleasedIff` | scripts/cas-merge-drivers.py:77-78 | a heading names Unreleased exactly if it begins with `## [unreleased]` in any mix of cases |
| `ChangelogLaws.SpaceIff` | scripts/cas-merge-drivers.py:78 | the characters that are stripped |
| `ChangelogLaws.ReleasedIsRefused` | scripts/cas-merge-drivers.py:99-107 | a hunk under a heading with a version number is refused, stands as it was and is counted |
| `ChangelogLaws.MarkersMean` | scripts/cas-merge-drivers.py:83 | a line is a marker exactly if it begins with that many of its character |
| `ChangelogMerge.ParseIsLossless` | scripts/cas-merge-drivers.py:84-113 | reading a text as plain lines and hunks loses nothing |
| `ChangelogMerge.ItemsReadBack` | scripts/cas-merge-drivers.py:84-113 | well-formed items are what their lines parse to |
| `ChangelogMerge.OutputKeepsBothSides` | scripts/cas-merge-drivers.py:99-108 | the whole text of ours and of theirs are both subsequences of the output |
| `ChangelogMerge.RefusedStands` | scripts/cas-merge-drivers.py:105-108 | every refused hunk stands unchanged, line for line, between the outputs of its surroundings |
| `ChangelogMerge.LinesConserved` | scripts/cas-merge-drivers.py:99-112 | with multiplicity, only markers of resolved hunks go and only seam blanks come |
| `ChangelogMerge.HunksCounted` | scripts/cas-merge-drivers.py:101-107 | at most one blank line per resolved hunk, and every hunk is resolved or counted |
| `ChangelogMerge.SecondPassReads` | scripts/cas-merge-drivers.py:84-113 | a second pass reads exactly the refused hunks as hunks if and only if no kept line starts with the opening marker |
| `ChangelogMerge.ResolveIsIdempotent` | scripts/cas-merge-drivers.py:81-114 | under that condition resolving twice gives the same text and count |
| `ChangelogMerge.FixedPointIff` | scripts/cas-merge-drivers.py:99-108 | for every text, resolving changes nothing if and only if it has no hunk in Unreleased without a heading |
| `ChangelogMerge.IdempotentIffClean` | scripts/cas-merge-drivers.py:81-114 | where no heading follows the first kept opening marker, text and count are stable under a second pass if and only if no kept line is an opening marker |
| `ChangelogMerge.IdempotentIff` | scripts/cas-merge-drivers.py:81-114 | for every text, they are stable if and only if the output has no resolvable hunk and as many hunks as were refused |
| `ChangelogMerge.KeptMarkerIsDropped` | scripts/cas-merge-drivers.py:88-104 | for every marker size, a text under `## [Unreleased]` whose second pass drops a line the first one kept |
| `GitTree.Build` | scripts/deploy-hub-release.py:118-124 | the insertion loop, with its errors, is the fold of insertions |
| `GitTree.BuildFinds` | scripts/deploy-hub-release.py:118-124 | a prefix-free snapshot builds a tree that holds exactly its files |
| `GitTree.OrderDoesNotMatter` | scripts/deploy-hub-release.py:118-124 | any two orders of a prefix-free snapshot build the same tree |
| `GitTree.OrderMattersIff` | scripts/deploy-hub-release.py:118-124 | every order of a snapshot gives the same result if and only if no path lies inside another |
| `GitTree.NestedIsLost` | scripts/deploy-hub-release.py:121-124 | in every order that builds, a path inside another is missing from the tree |
| `GitTree.LongestFirstBuilds` | scripts/deploy-hub-release.py:121-124 | inserted longest first, any snapshot builds |
| `GitTree.SortIsUnique` | scripts/deploy-hub-release.py:127-134 | whatever order a directory iterates in, sorting its entries by key has one result |
| `GitTree.DirectorySortsWithSlash` | scripts/deploy-hub-release.py:132-134 | a file whose name extends a directory's sorts before it exactly if its next byte is below the slash |
| `GitTree.SameIdentity` | scripts/deploy-hub-release.py:126-134 | equal identities mean equal trees if the digest has no collision among what the two trees hash |
| `GitObject.HashedReads` | scripts/deploy-hub-release.py:115-134 | what is hashed for any file or directory is "blob" or "tree", a space, the number of bytes after the first zero byte in decimal, and those bytes; for a file they are its data |
| `GitObject.DirectoryReads` | scripts/deploy-hub-release.py:126-134 | read as mode, space, name, zero byte and twenty bytes, they are exactly the children: mode 40000 for a directory, the file's own otherwise, the digest of the child's object, strictly ascending with directories sorted as if they ended in a slash |
| `GitObject.AtMostIff` | scripts/deploy-hub-release.py:134 | the order is the one of byte strings: a proper beginning, or the smaller byte at the first difference |
| `GitObject.TreeReads` | scripts/deploy-hub-release.py:126-134 | reading one object after the other from a directory's identity finds exactly the files of its tree |
| `GitObject.IdentityReadsBack` | scripts/deploy-hub-release.py:113-136 | the round trip: from the identity of a prefix-free snapshot and the hashed objects, a reader recovers the bytes and mode at every path |
| `GitTree.IdentityIgnoresOrder` | scripts/deploy-hub-release.py:113-136 | the root identity does not depend on insertion order |
| `GitTree.IdentityInjective` | scripts/deploy-hub-release.py:113-136 | two prefix-free snapshots with the same identity agree on every path, byte string and mode |
| `ImpactPlan.Closure` | scripts/ci-test-impact.py:59-66 | the worklist ends with the least closed set around the seeds |
| `Closures.ClosureIsReachability` | scripts/ci-test-impact.py:59-66 | that set is exactly what edges reach from the seeds |
| `ImpactPlan.Assign` | scripts/ci-test-impact.py:137-151 | every changed path is filed under the first crate that owns it, or the plan widens exactly when a path is policy or unmapped |
| `ImpactLaws.SettledIff` | scripts/ci-test-impact.py:137-150 | the plan is not widened for its paths exactly when none is build or test policy and each lies in a crate or is documentation |
| `ImpactLaws.FiledIff` | scripts/ci-test-impact.py:137-151 | a changed path is filed under the first crate whose directory holds it, and under no other |
| `ImpactPlan.SelectTouched` | scripts/ci-test-impact.py:173-185 | the suites that changed files select, as a condition on each suite |
| `ImpactPlan.AddFailed` | scripts/ci-test-impact.py:186-195 | recorded failures add their suites and library tests, or report an unknown binary exactly when there is one |
| `ImpactPlan.ScopeCas` | scripts/ci-test-impact.py:165-219 | the scoped command's suites, targets, recorded modules and filters, each characterised as a set; refused exactly when a recorded binary is unknown or nothing is left to run (in terms of the changed paths: the `ImpactLaws` rows) |
| `ImpactLaws.ModuleIff` | scripts/ci-test-impact.py:167 | the module of a source file: `m` for `m.rs` and for every file below the directory `m` |
| `ImpactLaws.ClosureIff` | scripts/ci-test-impact.py:167-168 | the changed modules are exactly those of changed source files and what depends on them |
| `ImpactLaws.SuiteChosenIff` | scripts/ci-test-impact.py:165-195 | a suite is in the command exactly if it is in the inventory and some changed path reaches it (a crate root, removed file or macro; a builtin; a module it imports, directly or through others, or any source if its imports are vague; its own file; a test file of no suite) or its binary failed before |
| `ImpactLaws.SuiteTestRunsIff` | scripts/ci-test-impact.py:165-218 | which tests of an integration binary the command runs, exactly |
| `ImpactLaws.LibTestRunsIff` | scripts/ci-test-impact.py:165-218 | which library tests it runs, exactly: all when a source changed and its reach is unclear, otherwise those that name a changed module; the recorded ones; those of chosen suites in the library |
| `ImpactPlan.Plan` | scripts/ci-test-impact.py:117-226 | the whole workspace for exactly the listed reasons; otherwise a command for each affected crate and for no other, merged exactly when none is narrowed |
| `ImpactPlan.EveryAffectedCrateIsCovered` | scripts/ci-test-impact.py:152-224 | every crate reachable from a changed one, or with a recorded failure, is covered by a command |
| `ImpactLaws.AffectedIff` | scripts/ci-test-impact.py:152-161 | the affected crates are exactly those of filed paths, their dependents and those with recorded failures |
| `ImpactLaws.CoversOnlyAffected` | scripts/ci-test-impact.py:152-224 | a plan that is not the whole workspace covers exactly those crates, merged or not |
| `ImpactLaws.RunsOnlyAffected` | scripts/ci-test-impact.py:152-224 | and it runs no test of any other crate |
| `ImpactLaws.ReachedSuiteRuns` | scripts/ci-test-impact.py:117-226 | the planner's promise: every test of every suite that a changed path of `cas` reaches is run by some command of the plan |
| `ImpactLaws.ImporterIsRun` | scripts/ci-test-impact.py:165-218 | in particular a suite that imports the module of a changed source file, or one that depends on it, is run, and a scoped command names it |
| `ImpactLaws.ModuleTestsRun` | scripts/ci-test-impact.py:165-204 | the library's own tests of such a module are run as well |
| `ImpactLaws.DependentsAreRun` | scripts/ci-test-impact.py:152-164 | every test of a crate that depends on the crate of a changed path is run |
| `ImpactLaws.OutsideRunsWhole` | scripts/ci-test-impact.py:161-164 | a changed file of `cas` outside its sources and tests runs the whole crate |
| `ImpactLaws.WidenedIff` | scripts/ci-test-impact.py:117-226 | when the whole workspace runs, exactly: unreadable or without `cas`; a path that is policy or of no crate; an incomplete history, or one with an unknown crate or a binary that is no plain word; an affected name that is no crate, or none affected; `cas` left with nothing to run |
| `ImpactLaws.RecordedRuns` | scripts/ci-test-impact.py:153-211 | every recorded failure is run again: of any crate, and of `cas` every library test and every test that belongs to a suite |
| `ImpactLaws.UncertainHistoryWidens` | scripts/ci-test-impact.py:154-156 | an incomplete history runs everything |
| `ImpactPlan.SelectedFailure` | scripts/ci-test-impact.py:282-294 | the first command that decides judges |
| `ImpactPlan.RecordedFailuresAreSelected` | scripts/ci-test-impact.py:282-294 | every recorded failure whose name leads back to its module or suite is judged selected |
| `ImpactPlan.RecordedFailureMissedIff` | scripts/ci-test-impact.py:282-294 | a recorded failure is missed if and only if its command is scoped and its name is unqualified, or starts with no selected suite |
| `ImpactPlan.RecordedLibRuns` | scripts/ci-test-impact.py:186-211 | every recorded library failure is run again, whatever its name |
| `ImpactPlan.UnqualifiedRunsButIsMissed` | scripts/ci-test-impact.py:206-211 | the auditor misses exactly the unqualified ones unless the library runs whole |
| `ImpactPlan.JudgedButNotRunIff` | scripts/ci-test-impact.py:198-211 | a library test counts as selected and is run by no filter if and only if the library is narrowed, the test is a neighbour of a rerun test and not rerun itself, and no changed module or suite filter takes it |
| `ImpactPlan.NeighbourIsJudged` | scripts/ci-test-impact.py:206-211 | an input: one changed suite and the rerun test `m::x`; `m::y` counts as selected and no filter runs it |
| `ImpactPlan.RunButMissedIff` | scripts/ci-test-impact.py:198-211 | a library test is run and counts as missed if and only if the library is narrowed, its name starts with no recorded module, and some filter takes it |
| `ImpactPlan.UnqualifiedIsMissed` | scripts/ci-test-impact.py:206-211 | an input: the rerun test `x` is run and counts as missed |
| `ImpactPlan.LibRunsIff` | scripts/ci-test-impact.py:198-217 | exactly which library tests a scoped command runs |
| `ImpactPlan.SuiteJudgedButNotRunIff` | scripts/ci-test-impact.py:212-217 | a suite test counts as selected and is not run if and only if its binary is a target, some selected stem matches its name, and no selected stem of that binary does |
| `ImpactPlan.ForeignStemIsJudged` | scripts/ci-test-impact.py:291-293 | a test named after one selected suite in the binary of another counts as selected and is not run |

## Left out

- Subprocess, Git, GitHub, Vercel, Cargo and `/proc` access: their results are inputs or nondeterministic outcomes of the model.
- Deadlines and polling time of host admission: a client may give up at any wait, so no bound on waiting is stated.
- `inherited` ancestry validation, stale holder scans and legacy lock users of scripts/host_memory.py: only the transient lock probes of such callers are steps of the model.
- Locking and closing a surplus free slot in `counting_slot` is one step, as is the window between starting a command and tracking its group.
- Manual removal of the publication ref: after a crash the model has no step that deletes it.
- Within one reconcile an unanswered create is applied before the re-read or not at all; later effects of creates and updates are events between reconciles (`Reconcile.NoDuplicateIff`, `Reconcile.RunsGrowIff`).
- Record fields other than the test and its runs, and issue titles, in `Reconcile`; the printed record is in `FlakeRecord`.
- Floating-point numbers, `NaN` and non-string keys in JSON: values are integers, texts, booleans, null, arrays and objects.
- Digits outside ASCII, which Python's `int`, `isdigit` and `\d` accept, are not digits here.
- `ChangelogMerge.ResolveUnreleased`: works on lines; splitting and joining the text is not modelled, so a lone carriage return that meets an inserted newline is not seen. Lower-casing covers ASCII, which decides the heading test.
- `GitTree.Build`: directories are values, so aliasing of nested dictionaries is not captured; paths are given as parts and names as bytes, and the final hexadecimal printing is omitted.
- `AssemblyBudget.Execution.AdmitPhase`: the logged elapsed time is not rounded, and the snapshot and the taste lane are read as one sample.
- `CompileGuard.Guard`: begins once the child exists; building its environment and the linker wrapper are not modelled, and a signal to a group that no longer exists during cleanup is a signal not sent.
- `RssSampler.Sampler.Sample`: snapshots are given parsed, and one clock reading stands for all of a sample.
- `ImpactPlan.Plan`: reasons, sorting of printed lists and the resolution of the base commit are omitted; file contents and regular-expression matches are given as facts. Nextest's `test(x)` is read as "contains x", `test(=x)` and `binary(x)` as equality.
- The release gate's producer and consumer contexts, reporting scripts, text analysers, and the Rust and TypeScript files: easy members or no protocol of their own.
