# Verified model of the memory runtime's protocols

The runtime keeps canonical memories in Postgres, evidence in Neo4j, hot keys in Redis and jobs in
lifecycle tables, and it has to survive crashes, stale workers and interleavings. This project models
its protocols in Dafny and proves what they promise over every run. `dafny verify dfyconfig.toml`
checks everything.

Database transactions and Cypher commits are atomic steps. A protocol is a state machine
(`Step`, `Run`) whose events include crashes, clock advances and everybody else's transactions; the
theorems quantify over all event sequences. Where the code updates state in place, a class with
methods does the same and is proved against the step functions; worker methods take a budget of
durable writes, so every budget is a crash point. What an operation computes is also stated on the
fields of what goes in and what comes out, apart from the functions that compute it. Hashes are replaced by what they hash
(fingerprints, ids, cursors, plan revisions), floating point by reals, and time by numbers.

## What is modelled

- **Leases and guarded writes** (`Leases`, `LeaseRuns`, `ControlPlane`, `ControlLease`, `LifecycleJobs`,
  `JobRuns`). Claim, renew, release and guarded save over a fenced row; the control plane's
  read-modify-write built from them, and the same pattern in the lifecycle-job table. Each call has its
  own owner, as `worker_owner` gives it. What a lease promises is stated over whole runs, against the
  history of the answers given.
- **Memories and no resurrection** (`Memories`, `MemoryRuns`, `Cutover`). The tables, their
  transactions and the embedding cutover.
- **Forgetting** (`Forget`, `ForgetIntent`, `Attempts`, `ForgetRuns`, `ForgetRedaction`, `ForgetSpread`,
  `ForgetDurability`, `ForgetRepeats`, `ForgetParts`, `ForgetLapses`, `ForgetCascades`, `ForgetReceipts`,
  `ForgetEffects`, `AttemptLeases`, `ForgetWorker`).
  The forget workflow with its checkpoint, its source tombstones, its cascade and its receipts, each
  read and write a step. Any number of attempts interleave with each other and with everyone else.
  Their lease is a row without a fence that anyone takes over after 300 seconds, and an attempt whose
  lease has lapsed goes on. The theorems say which of them hold whoever writes when, and which need
  every write in time.
- **Consolidation** (`Transcript`, `Consolidation`, `ConsolidationAttempts`, `ConsolidationRuns`,
  `ConsolidationInHand`, `ConsolidationLapses`, `ConsolidationWorker`). The chunks and checks of the
  lanes, and the resumable job. Any number of attempts work on one job, each with a request of its own,
  under the same unfenced lease as forgetting: it lapses, others take it over, the attempt that held it
  goes on, and it is renewed before each effect but not before the save that follows the effect. An
  attempt is overtaken once somebody else has claimed the lease since its own claim.
- **Graph evidence** (`GraphModel`, `GraphText`, `GraphValidation`, `SortDedup`, `Graphify`,
  `GraphifyEvidence`, `Contradictions`, `GraphEdges`, `GraphStore`, `GraphContents`, `GraphRowOrder`,
  `GraphSync`, `GraphLapses`). Extraction, sort and dedup, the
  validators, the parallel-array edges and the plan/acknowledge protocol between Postgres and Neo4j,
  with any number of workers per user. Letter casing is a parameter; white space is Unicode's
  White_Space property.
- **Admission and rate limiting** (`Admission`, `RateLimiter`, `RateLimiterExact`,
  `RateLimiterEviction`, `RateLimiterClock`). Relaxed loads may return any value and the weak
  exchange may fail.
- **Paging, listing and scoped keys** (`Paging`, `Listing`, `ScopedKeys`). Pages and cursors over any
  filter; the filters of a listing, and the masks its query puts on status and preview.

`Wrappers`, `Sequences` and `UserLease` hold what several of these share.

## Findings

Some promises do not hold as stated. Each has a lemma with a concrete run, and the exact condition.

- A redaction can be lost, in two ways. It is dropped when a redacting forget stops after recording
  its redaction in the checkpoint and one without redaction takes over: the checkpoint completes with
  the redaction in it, and a later redacting request is answered as completed
  (`ForgetLapses.DroppedRedactionExample`). It is undone when a forget without redaction reads the row,
  stalls past its lease and then writes what it read over the row another has redacted
  (`ForgetLapses.UndoneRedactionExample`). In both, the row is only soft-deleted and its content is
  there, as no redacting tombstone masks what the second attempt reads; with sources that are already
  tombstoned for redaction a dropped one loses the content and keeps the status.
  A redacted row stops being redacted exactly by such a write (`ForgetRedaction.RedactionUndoneIff`).
  With every write in time, a completed attempt carries its redaction out, in status or in content, if
  and only if it does not take over such a checkpoint without asking for redaction, over a record that
  does not show it (`ForgetRedaction.AttemptRedactsIff`). Completed answers keep their promise over all
  runs if and only if no attempt writes late and none drops a redaction (`ForgetLapses.RedactsIff`).
- A redaction can stop at its own row. A redacting forget writes its row and stops before its cascade; one
  without redaction takes the checkpoint over, puts the tombstones back to plain ones, cascades without
  redaction and completes. Nothing was dropped for the row itself, but another row from the same source
  is only soft-deleted and reads with its content (`ForgetCascades.TakenOverExample`). A redacting forget
  that completes in time does leave every row of the user with one of its sources redacted, for good in
  all runs in time (`ForgetSpread.RedactingForgetSpreads`). A redaction that a completed checkpoint
  speaks of has spread like that, in all runs that drop none, if and only if no attempt writes late and
  no plain request takes over an unfinished redaction (`ForgetCascades.SpreadsIff`).
- A completed forget can come undone. A cascade that goes on after its lease lapsed writes a listed row
  back as it was listed, sources included, over the row that another attempt has meanwhile forgotten
  under other sources; the row then carries a source without a tombstone
  (`ForgetLapses.LateCascadeExample`). Completed forgets last if and only if no attempt writes late
  (`ForgetLapses.DurableIff`). Step by step, whoever writes when, a forget stops standing if and only if
  a record is written over its row with a source that has no tombstone or that a live row still carries,
  and only a cascade writes one without a tombstone (`ForgetDurability.DurabilityLostIff`); what else
  breaks the promise is an answer given where it does not hold, or a row forgotten without a trace
  (`ForgetDurability.PromiseBrokenIff`). That the intent comes before the effect, that an inactive row stays
  inactive and that a completed checkpoint is fully acknowledged hold even then
  (`ForgetRuns.IntentPrecedesEffect`, `ForgetRuns.CompletedIsSealed`).
- A completed consolidation can be opened again. An attempt that stalls between its effect and its save
  puts unfinished progress over the checkpoint that another has completed meanwhile, and the next request
  opens the job again and writes (`ConsolidationLapses.LateCheckpointExample`). Renewing does not prevent
  it: once the other has given the lease up, the renewal of the overtaken attempt is granted, and the same
  happens with every write under an unexpired lease (`ConsolidationLapses.RenewedCheckpointExample`). A
  first save that comes late puts other inputs under the job id
  (`ConsolidationLapses.OtherInputsExample`). A step re-opens a completed job exactly by a save that is
  not completed, or by a forget that scrubs it (`ConsolidationInHand.ReopenedIff`), and replaces the
  inputs exactly by a save for others (`ConsolidationInHand.InputsReplacedIff`). Over all runs in which
  nothing is forgotten, completed jobs stay completed if and only if no overtaken attempt writes
  (`ConsolidationLapses.CompletedStaysIff`), and inputs stay if and only if none makes its first save
  (`ConsolidationLapses.InputsStayIff`). What a finished attempt leaves behind is right even then: the
  outputs of overlapping attempts of one request are those of a single attempt without trouble
  (`ConsolidationRuns.CrashRefinement`).
- A listing shows what a read masks. The query masks the preview where a source's tombstone has the status
  `redacted`, but tombstones hold a memory id and a flag, so it never does: the first 256 characters of
  a memory whose source was forgotten with redaction are listed (`Listing.UnmaskedPreviewExample`,
  `Listing.PreviewNeverMasked`). The preview is that of the record as read if and only if no source was
  forgotten with redaction or nothing is left to redact (`Listing.PreviewAgreesIff`). The query also
  takes the user's name as a LIKE pattern, so a tombstone of the user `axb` hides a memory of `a_b`
  (`Listing.MistakenExample`); the status agrees if and only if that does not happen
  (`Listing.StatusAgreesIff`), as it never does for names without wild cards (`Listing.PlainNeverMistaken`).
- The graph can answer with an older plan. A worker that writes after its lease lapsed puts an old
  plan's evidence under a newer, acknowledged one (`GraphLapses.LateWriteExample`). Readers get nothing
  but the latest plan if and only if no worker writes late (`GraphLapses.OnlyThePlanIff`), and all of it
  if and only if, besides, nobody removes the edges of a readable memory and no row is written without
  a plan, as the adapter's own upsert does (`GraphLapses.ThePlanIff`).
- A memory hidden by a source tombstone can be readable again, when it is rewritten with other sources:
  `MemoryRuns.HiddenReappearsExample`, and exactly then, for a step (`MemoryRuns.HiddenReappearsIff`)
  and for a run (`MemoryRuns.HiddenReappearsOverRunIff`). A row whose own status has left Active never
  returns.
- The rate limiter takes its clock sample before its lock, so samples may go back in lock order, and a
  bucket that takes longer than an hour to refill may be evicted; the configuration allows such limits.
  More calls pass then than the window allows (`RateLimiter.BackwardsClockExample`,
  `RateLimiterEviction.WindowBoundBroken`). Over all runs whose samples lag by at most `d` seconds, every
  window keeps its bound if and only if an idle bucket refills within the hour and `d` is zero, or the
  burst is (`RateLimiterClock.WindowsKeptIff`). Eviction by itself is observable exactly when an idle
  hour does not refill the bucket (`RateLimiterEviction.EvictionUnseenIff`).

One more observation depends on the database. `validate_source_graph` admits a repeated triple. If the
query's rows are bound and written one by one, it lists its source twice in one edge; if all rows are
bound first, once (`GraphRowOrder.RepeatedTripleExample`). The two evaluations agree if and only if the
triples are distinct (`GraphRowOrder.RowOrderIff`), and `graphify_record` never produces a repeated one
(`Graphify.OneEdgePerTriple`).

## Model

| member | source | states |
|---|---|---|
| Leases.ClaimedLeaseHolds | src/adapters/postgres.rs:957-986 | a granted claim carries a fresh fence, is held exactly until it runs out, and shuts out every older claim of the key |
| Leases.RenewExtends | src/adapters/postgres.rs:987-1000 | a renewal succeeds exactly for the held lease, which then runs its whole time again |
| Leases.ReleaseFrees | src/adapters/postgres.rs:1001-1013 | after the holder's release any owner may claim at once under the next fence; a release under an old fence changes nothing |
| Leases.SaveTouchesTarget | src/adapters/postgres.rs:1014-1056 | a guarded save is lost exactly without the held lease, superseded exactly by a terminal value, and otherwise changes the target's value and no lease |
| Leases.LeaseExclusive | src/adapters/postgres.rs:957-1013 | two different claims of a key are never both held at one instant |
| Leases.LeasesTouchLocksOnly | src/adapters/postgres.rs:957-1013 | claims, renewals and releases change no stored value and no other key |
| LeaseRuns.AnswersFollowGrants | src/adapters/postgres.rs:957-1056 | over every run the answers are those of the history of grants: a claim is granted if and only if the last grant of the key was given back, is over or is the owner's own, under the fence that counts the grants; a renewal or a save passes if and only if its claim is the last grant, in its time |
| LeaseRuns.GrantExcludes | src/adapters/postgres.rs:957-1056 | while its owner leaves a grant alone nobody else is granted the key until it runs out, and the owner's saves pass before that; once it has run out and nobody has claimed it, everybody is |
| Leases.StateTable.ClaimFenced | src/adapters/postgres.rs:957-986 | the insert-or-update in place equals the claim step, refusal included |
| Leases.StateTable.RenewFenced | src/adapters/postgres.rs:987-1000 | renewal in place extends only the current, unexpired lease |
| Leases.StateTable.ReleaseFenced | src/adapters/postgres.rs:1001-1013 | release in place gives up only the caller's own fence |
| Leases.StateTable.SaveGuardedRow | src/adapters/postgres.rs:1014-1056 | the guarded save writes only under the held lease and never over a terminal value |
| ControlPlane.Serializable | src/package/mod.rs:276-312 | under every interleaving the stored control plane is the initial one with the successful operations run one after another in increasing fence order; success is reported exactly by logged calls, with their serial answers |
| ControlPlane.StaleNeverStores | src/package/mod.rs:276-312 | once a newer claim exists, nothing the older call does is ever stored |
| ControlPlane.UndisturbedCallSucceeds | src/package/mod.rs:276-312 | with no unexpired lock and the save in time, a call stores and answers its operation's result and gives the lease back |
| ControlLease.NeverFencedOff | src/package/mod.rs:276-312 | for 300 seconds from its claim no other call is granted the control plane and nobody fences the call off, under every interleaving |
| ControlLease.LapsedGivesWay | src/package/mod.rs:276-312 | once nobody has claimed or renewed for more than 300 seconds a new call is granted, whoever stopped with the lease |
| ControlLease.ContendedIff | src/package/mod.rs:276-312 | over every run a new call is refused if and only if a call that has not returned is within its time |
| ControlPlane.WithControl | src/package/mod.rs:276-312 | the call as written runs exactly the steps begin, load, save, finish |
| LifecycleJobs.JobTable.JobEnqueue | src/adapters/postgres.rs:1113-1127 | enqueueing an existing job changes nothing |
| LifecycleJobs.JobTable.JobClaimDue | src/adapters/postgres.rs:1193-1246 | claims queued, running and retry_pending jobs whose time has come and whose lock is absent or over, the first in (next_attempt_at, id) order up to the limit, once each under the next fence, and touches no other |
| LifecycleJobs.JobTable.JobSaveGuarded | src/adapters/postgres.rs:1247-1267 | saves only for the current owner and fence before expiry, and gives the lock up exactly with a status other than running |
| LifecycleJobs.TerminalAbsorbs | src/adapters/postgres.rs:1193-1267 | completed, terminal_failed and cancelled rows never change again, over every run |
| LifecycleJobs.FenceCountsClaims | src/adapters/postgres.rs:1193-1246 | a job's fence is the number of its claims, so no two claims share one |
| LifecycleJobs.OlderFenceNeverSaves | src/adapters/postgres.rs:1247-1267 | after a newer claim no save under an older fence takes effect, in any continuation |
| LifecycleJobs.OneSaver | src/adapters/postgres.rs:1247-1267 | in one state of the table at most one (owner, fence) pair can save a job, at whatever times |
| LifecycleJobs.SavesTakeTurns | src/adapters/postgres.rs:1193-1267 | the effective saves of a job form turns of one owner and fence each, in increasing fence order |
| JobRuns.AnswersFollowGrants | src/adapters/postgres.rs:1193-1267 | over every run a job may be claimed if and only if it is queued, running or retry_pending, its time has come, and its last claim was given up or is over; a save takes effect if and only if its claim is the last one, in its time |
| JobRuns.ClaimedAlone | src/adapters/postgres.rs:1193-1267 | once claimed, a job is not claimed again before the lease has run out or a save of its holder has given it up |
| Memories.MemoryTables.MemoryWriteRow | src/adapters/postgres.rs:347-401 | the upsert in place refuses resurrection, tombstoned sources, other users' ids and incomplete rows, and keeps created_at; row and refusal are stated on the columns |
| Memories.WriteMeans | src/adapters/postgres.rs:347-401 | a write is refused exactly for an active record over a row that is not active, a forgotten source, another user's id or a missing embedding column, and otherwise stores the record under its id, keeps created_at and touches nothing else |
| Memories.VisibleMeans | src/adapters/postgres.rs:414-429 | a memory is readable if and only if its row is the user's, active and without a forgotten source |
| Memories.AccessesMean | src/adapters/postgres.rs:402-413 | recording accesses counts and stamps the user's active rows asked for, up to the greatest 64-bit integer, and changes nothing else |
| Memories.MemoryTables.CommitMemory | src/adapters/postgres.rs:552-590 | row and fresh unacknowledged plan are written together or not at all |
| Memories.MemoryTables.CommitGraphReplay | src/adapters/postgres.rs:505-541 | a replay stores a plan only for an unchanged, active, unforgotten row |
| Memories.MemoryTables.AcknowledgeGraph | src/adapters/postgres.rs:542-551 | only the plan's own revision acknowledges it |
| Memories.MemoryTables.GetActiveMemories | src/adapters/postgres.rs:414-429 | returns exactly the user's active rows without a forgotten source among the ids asked for |
| MemoryRuns.InactiveForever | src/adapters/postgres.rs:347-429 | an id that has left Active is never read again, whatever ingests, replays, cutovers and access updates follow |
| MemoryRuns.ForgottenSourcesStayOut | src/adapters/postgres.rs:347-401 | no active row written after a source was forgotten carries that source |
| MemoryRuns.HiddenReappearsIff | src/adapters/postgres.rs:347-429 | a hidden row returns if and only if it is still active and an admitted active write of its id follows |
| MemoryRuns.HiddenReappearsOverRunIff | src/adapters/postgres.rs:347-429 | over a whole run a hidden memory is readable at the end if and only if some step was an admitted active write of its id and no later step forgot one of its sources or wrote it inactive |
| MemoryRuns.HiddenReappearsExample | src/adapters/postgres.rs:347-429 | such a return happens |
| MemoryRuns.GraphFollowsLatestPlan | src/adapters/postgres.rs:430-446 | the graph returns a memory if and only if it is readable in scope, its latest plan was acknowledged under its own revision, and the record still equals the plan's up to reads and embeddings |
| MemoryRuns.StaleAcknowledgement | src/adapters/postgres.rs:542-551 | an acknowledgement of an earlier plan changes nothing |
| MemoryRuns.VolatileUpdatesKeepGraph | src/runtime/graphify.rs:72-88 | access updates and embedding cutovers never change what the graph may return |
| Memories.VersionMeans | src/runtime/graphify.rs:72-88 | two records have one source version if and only if they are equal in every field but the embedding and the accesses |
| Cutover.CutoverKeepsSources | src/adapters/postgres.rs:1268-1294 | success means equal source sets, staged ids once each, every row equal to its staged one in content, sources, privacy, stamp, entities and tags, only embeddings changed, and the route on the target |
| Cutover.CutoverAdmitsIff | src/adapters/postgres.rs:1268-1294 | it succeeds if and only if there is a staged row, all of them are in scope, as many as active rows, each active row has an equal staged one, and each is ready to be written |
| Cutover.WriteOne | src/adapters/postgres.rs:1268-1294 | one more row is written exactly when it admits the staged record |
| Cutover.CutoverRows | src/adapters/postgres.rs:1268-1294 | the row-by-row transaction applies everything or leaves all tables unchanged |
| Forget.StepKept | src/runtime/governance.rs:123-259 | every step of an attempt, a crash or a write of anyone but another attempt of the user keeps the workflow's invariant |
| Forget.StepCareful | src/runtime/governance.rs:123-259 | under that invariant durable facts only accumulate, newly forgotten rows have their trace, and no forgotten source gains a live row |
| Forget.EnvClean | src/adapters/postgres.rs:347-401 | other writers cannot bring a forgotten source back into an active row |
| Forget.MergedTail | src/runtime/governance.rs:205-245 | a refused cascade row keeps the merged receipts from being all acknowledged |
| ForgetReceipts.SettledMeans | src/runtime/governance.rs:205-245 | of the receipts that come in each store's last is kept for each operation, earlier ones of other stores stay, and no other appears; a failure keeps what there was |
| ForgetReceipts.CompletesIff | src/runtime/governance.rs:205-259 | over every run, late writes included, an attempt that settles keeps each store's last receipt and no other, and completes the checkpoint if and only if there is one and all acknowledge |
| ForgetEffects.ProtectMeans | src/runtime/storage.rs:621-639 | a read shows an active record as soft-deleted when one of its sources was forgotten, and any record as erased when one was with redaction |
| ForgetEffects.DecideMeans | src/runtime/governance.rs:123-148 | an attempt answers at once exactly from a completed checkpoint that has what the request asks for; otherwise it goes on with one more attempt counted |
| ForgetEffects.ResolveMeans | src/runtime/governance.rs:149-178 | resolving records the soft deletion of a record not yet forgotten and, where it is asked for, the redaction of one not yet redacted |
| ForgetEffects.AttemptWrites | src/runtime/governance.rs:149-204 | over every run, late writes included, what an attempt puts over its row is the record it read, soft-deleted or erased as its request and the tombstones at its decision have it |
| ForgetEffects.ListMeans | src/runtime/storage.rs:2078-2110 | the cascade lists exactly the user's other rows that have a source in common with the row |
| ForgetEffects.CascadeMeans | src/runtime/storage.rs:2078-2110 | each listed row is written as it was listed, soft-deleted or erased, or remembered as failed, and no other row changes |
| ForgetIntent.StepPrepares | src/runtime/governance.rs:123-259 | whoever else writes, every step of an attempt makes its intent durable before its effect and takes back no tombstone, checkpoint or forgotten row |
| Attempts.StepIntent | src/adapters/postgres.rs:885-897 | the same over any number of attempts with leases that lapse and change hands at any time |
| Attempts.HoldersDiffer | src/adapters/postgres.rs:885-894 | two workers within their leases serve different users |
| AttemptLeases.ClaimExcludes | src/adapters/postgres.rs:885-897 | while a worker that was granted the user's lease does not release it, everybody else is refused for 300 seconds; after that, if nobody asked meanwhile, everybody is granted |
| Attempts.ActElsewhere | src/runtime/governance.rs:123-259 | an attempt touches no row, tombstone or checkpoint of another user |
| Attempts.StepInv | src/runtime/governance.rs:32-73 | while writes are in time, every step of any attempt keeps what is durable and what each worker within its lease relies on |
| ForgetRuns.CompletedIsSealed | src/runtime/governance.rs:205-259 | over every run, late writes included, a completed checkpoint has non-empty acknowledged receipts and a forgotten row, and no forgotten row comes back |
| ForgetRuns.IntentPrecedesEffect | src/runtime/governance.rs:149-204 | lease or no lease, when the record's write lands, checkpoint and tombstones are there and stay for good |
| ForgetRuns.ForgetIsDurable | src/runtime/governance.rs:123-259 | at every point of every run without late writes a forgotten row has its checkpoint and all tombstones or fell to the cascade, and a completed checkpoint has non-empty acknowledged receipts, a forgotten row and no live row left with its sources |
| ForgetRedaction.AttemptRedactsIff | src/runtime/governance.rs:123-259 | with every write in time, among any other attempts, a completed attempt redacts what its checkpoint records, in status or content, if and only if it did not drop an unfinished redaction, and always what its own request asks |
| ForgetRedaction.RedactionUndoneIff | src/adapters/postgres.rs:347-401 | in any state a step makes a redacted row unredacted if and only if an attempt writes a record that is not redacted over it |
| ForgetRedaction.InTimeNeverUndoes | src/runtime/governance.rs:123-259 | an attempt within its lease never does that |
| ForgetRedaction.RedactionIsSound | src/runtime/governance.rs:123-259 | over runs that drop no redaction and write nothing late, no completed answer promises a redaction that did not happen |
| ForgetSpread.RedactingForgetSpreads | src/runtime/storage.rs:2078-2110 | a redacting forget that completes in time has left its row and every row of the user with one of its sources redacted, and no run in time takes that back |
| ForgetSpread.SpreadStays | src/adapters/postgres.rs:347-401 | a redaction that has spread stays spread over every run without late writes |
| ForgetSpread.PromisesKept | src/runtime/governance.rs:123-259 | over runs in time without such a takeover, every completed checkpoint that speaks of a redaction finds it spread |
| ForgetDurability.DurabilityLostIff | src/runtime/storage.rs:2078-2110 | in any state a step takes a forget's standing away if and only if a record goes over its row with a source that has no tombstone or that a live row carries, the former by a cascade only |
| ForgetDurability.InTimeNeverTakesBack | src/runtime/governance.rs:123-259 | an attempt within its lease never does that |
| ForgetDurability.PromiseBrokenIff | src/runtime/governance.rs:123-259 | in any state a step breaks what forgets promise if and only if it does that to a completed one, forgets a row without a trace, or answers as completed what does not stand |
| ForgetRepeats.RepeatChangesNothing | src/runtime/governance.rs:123-148 | repeating a completed request changes nothing and gives the same answer, after any run in time without a request for the same memory |
| ForgetLapses.DroppedRedactionExample | src/runtime/governance.rs:123-259 | with every write in time, a completed answer to a redacting request over a row that keeps its status and content |
| ForgetLapses.UndoneRedactionExample | src/adapters/postgres.rs:885-894 | without a dropped redaction, the same by a write after the lease lapsed |
| ForgetLapses.LateCascadeExample | src/runtime/storage.rs:2078-2110 | a late cascade leaves a completed forget's row with a source that has no tombstone |
| ForgetLapses.DurableIff | src/runtime/governance.rs:32-73 | completed forgets last over all runs if and only if no attempt writes after its lease lapsed |
| ForgetLapses.RedactsIff | src/runtime/governance.rs:32-73 | completed answers redact what they promise, in status or in content, over all runs if and only if no attempt writes late and none drops a redaction |
| ForgetCascades.TakenOverExample | src/runtime/governance.rs:123-259 | with every write in time and no redaction of the row dropped, a completed checkpoint speaks of a redaction while a row from the same source reads with its content |
| ForgetCascades.SpreadsIff | src/runtime/governance.rs:32-73 | over all runs that drop no redaction, promised redactions have spread if and only if no attempt writes late and no plain request takes over an unfinished redaction |
| ForgetWorker.Worker.ForgetMemory | src/runtime/governance.rs:32-73 | claim, attempt and release as written end where their steps end among the other attempts; the call is refused exactly under somebody's unexpired lease, gives its own back, and completes when nothing refuses; a completed call has marked the sources, forgotten its row and every row sharing one, as asked, and kept the rest |
| ForgetWorker.Worker.ForgetClaimed | src/runtime/governance.rs:123-259 | the workflow as written reaches, for every crash point, what the steps reach; it completes when rows are fit, receipts acknowledge and the worker lives; and when it completes, row, cascade, tombstones and every other row are as asked, column by column |
| ForgetWorker.Worker.MarkSources | src/runtime/governance.rs:179-201 | one tombstone per source, with the redaction asked for, before the record is touched |
| ForgetWorker.Worker.CascadeAll | src/runtime/storage.rs:2078-2110 | every row sharing a source is soft-deleted or redacted, and a refused one is remembered as a failure |
| ForgetWorker.Worker.Conclude | src/runtime/governance.rs:205-259 | completion is recorded exactly when the receipts, each store's last one for each operation, are non-empty and all acknowledged |
| Transcript.ChunksCover | src/runtime/consolidation.rs:53-84 | the chunks' source ids concatenate to the session's message ids in order, for every positive size |
| Transcript.ChunkCount | src/runtime/consolidation.rs:53-84 | as many chunks as the messages need and no more |
| Transcript.ChunkSize | src/runtime/consolidation.rs:53-84 | no chunk is empty and all but the last are full |
| Transcript.ChunkAt | src/runtime/consolidation.rs:53-84 | chunk i is exactly the messages from i times the size on, their ids, and their lines joined |
| Transcript.TranscriptChunks | src/runtime/consolidation.rs:53-84 | a zero size is an error, any other gives the deterministic chunks |
| Transcript.IndexMessages | src/runtime/consolidation.rs:154-200 | the index is built exactly when ids are distinct and none was forgotten |
| Transcript.CheckRequest | src/runtime/consolidation.rs:201-238 | the checks accept exactly the candidates in scope with known sources and sufficient privacy, chunk for chunk in the deep lane |
| Transcript.AcceptedIff | src/runtime/consolidation.rs:201-238 | a request is accepted if and only if the session has 1 to 100000 messages with distinct ids, none forgotten, every candidate is in scope with known sources and no less private than any, and in the deep lane there is one candidate per slice of the transcript and it repeats it |
| Transcript.AcceptedCovers | src/runtime/consolidation.rs:201-238 | accepted deep candidates cover the transcript in order, and no candidate ranks below the privacy of a source, restricted over sensitive over private over shared |
| Consolidation.StepSound | src/runtime/consolidation.rs:255-400 | an attempt's step removes no memory, and its checkpoint and its own progress list the first outputs of its request in order, all stored, and all of them once completed |
| Consolidation.BeginMeans | src/runtime/consolidation.rs:254-287 | an attempt refuses other inputs, answers from a completed checkpoint, and otherwise goes on from the stored progress with one more attempt counted, up to the counter's maximum |
| Consolidation.FinishMeans | src/runtime/consolidation.rs:354-400 | the last save records completion without an error, or the error for a retry, and keeps the progress |
| AttemptLeases.JobClaimExcludes | src/runtime/lifecycle.rs:171-190 | while a worker that was granted a job's lease does not release it, nobody else claims or renews for 300 seconds; after that, if nobody asked meanwhile, everybody may |
| ConsolidationAttempts.InvAlways | src/runtime/consolidation.rs:119-152 | the same over every run of any number of overlapping attempts with any requests, lapsed leases included |
| ConsolidationRuns.FinishedOutcome | src/runtime/consolidation.rs:255-400 | attempts that crash, fail, overlap and write at any time: where those of one request write, whichever finishes finds under each index-derived id an active memory with exactly its candidate's content and fields, no other output, and the archive and summary asked for |
| ConsolidationRuns.CrashFreeFinishes | src/runtime/consolidation.rs:255-400 | a single attempt without trouble finishes if and only if every candidate passes ingestion |
| ConsolidationRuns.CrashRefinement | src/runtime/consolidation.rs:255-400 | whatever overlapping attempts of one request do before one finishes, it leaves what the single attempt without trouble leaves, up to timestamps |
| ConsolidationRuns.ForgottenOutputStays | src/runtime/consolidation.rs:321-330 | a forgotten output is never written again, whoever asks and whenever |
| ConsolidationInHand.ReopenedIff | src/adapters/postgres.rs:801-803 | in any state a step makes a completed job unfinished if and only if an attempt saves unfinished progress or forgetting scrubs the checkpoint |
| ConsolidationInHand.InputsReplacedIff | src/runtime/consolidation.rs:254-265 | in any state a step replaces the checkpoint's inputs if and only if an attempt with others saves |
| ConsolidationInHand.InputsStayOver | src/runtime/consolidation.rs:254-265 | without overtaken first saves, a checkpoint keeps its inputs in every continuation |
| ConsolidationInHand.InOneHand | src/runtime/consolidation.rs:254-265 | then all that is ever written for a job is written for the inputs in its checkpoint, whatever others ask under its id |
| ConsolidationInHand.FinishedInHand | src/runtime/consolidation.rs:255-400 | then whichever attempt finishes finds what its own request asks for |
| ConsolidationInHand.ReplayWritesNothing | src/runtime/consolidation.rs:255-270 | a completed job is replayed without a write, with the stored answer for its own inputs and a refusal for others, over every run without overtaken writes |
| ConsolidationLapses.LateCheckpointExample | src/runtime/consolidation.rs:344-349 | the save after an ingestion that stalled past the lease re-opens a completed job |
| ConsolidationLapses.RenewedCheckpointExample | src/runtime/lifecycle.rs:171-190 | the same with every write of the run under an unexpired lease of its writer |
| ConsolidationLapses.LateFirstSaveExample | src/runtime/consolidation.rs:285-287 | a late first save re-opens a completed job |
| ConsolidationLapses.OtherInputsExample | src/runtime/consolidation.rs:285-287 | a late first save replaces the checkpoint's inputs |
| ConsolidationLapses.CompletedStaysIff | src/runtime/consolidation.rs:119-152 | completed checkpoints stay over all runs if and only if no overtaken attempt writes |
| ConsolidationLapses.InputsStayIff | src/runtime/consolidation.rs:119-152 | checkpoints keep their inputs over all runs if and only if no overtaken attempt makes its first save |
| ConsolidationLapses.HeldKeepsInputs | src/runtime/lifecycle.rs:171-190 | writing under an unexpired lease only keeps the inputs, and every answer is the one asked for |
| ConsolidationWorker.Worker.ConsolidateSession | src/runtime/consolidation.rs:119-152 | claim, attempt and release as written end where their steps end among the other attempts; the call is refused exactly under somebody's unexpired lease, gives its own back, and answers when nothing refuses; what an answered call leaves holds the candidates' content and fields |
| ConsolidationWorker.Worker.ConsolidateClaimed | src/runtime/consolidation.rs:255-400 | the job as written reaches, for every crash point and every answer to its renewals, what the steps reach; and from whatever was left behind it finishes when nothing refuses and the worker lives |
| ConsolidationWorker.Worker.IngestCandidates | src/runtime/consolidation.rs:315-352 | accepted candidates are skipped, the rest written with their content and fields and checkpointed one by one |
| GraphModel.CanonicalIgnoresTrim | src/domain/graph.rs:269-278 | outer white space does not reach the canonical name |
| GraphModel.Canonicalize | src/domain/graph.rs:269-278 | the loop joins the lowercased words with underscores |
| GraphText.CanonicalMeans | src/domain/graph.rs:269-278 | a text without white space is lowercased, white space joins what is around it with an underscore, blank text adds nothing |
| GraphText.ValidComponentMeans | src/store.rs:10-21 | a component is valid if and only if something of it is visible and it has no slash, backslash or control character |
| GraphText.InferLabelMeans | src/domain/graph.rs:280-298 | texts that mention one of four stores in any casing are technologies; of the others those that start in upper case are entities |
| GraphText.HeuristicRelationMeans | src/domain/graph.rs:300-328 | use goes before ownership and ownership before decision, in any casing |
| GraphModel.NewNodeValid | src/domain/graph.rs:91-123 | a constructed node passes the validator and its key can be an endpoint |
| GraphModel.NewEdgeValid | src/domain/graph.rs:126-162 | a constructed edge passes the validator |
| GraphValidation.NodeValidIff | src/domain/graph.rs:356-375 | the validator accepts exactly the nodes the constructor builds from their own fields, up to white space around the name |
| GraphValidation.EdgeValidIff | src/domain/graph.rs:377-393 | the validator accepts exactly the edges the constructor gives back for each of their sources |
| GraphValidation.SourceGraphIff | src/domain/graph.rs:395-426 | a source graph is accepted if and only if its nodes and edges are valid and of the one scope, its edges from the one memory, and every endpoint among its nodes |
| GraphModel.KeyIdentifies | src/domain/graph.rs:356-375 | among valid nodes the key determines label and canonical name |
| SortDedup.SortSorts | src/domain/graph.rs:215-226 | the sort yields an ordered permutation |
| SortDedup.OneBestPerKey | src/domain/graph.rs:215-226 | sort and adjacent dedup leave one original element per key, with the greatest score of its group |
| SortDedup.SortDedupExact | src/domain/graph.rs:215-226 | the result is in ascending order of keys, and each element is the first of the best of its key |
| SortDedup.StringLeqMeans | src/domain/graph.rs:215-226 | strings are ordered by the first place where they differ, and a prefix goes first |
| Graphify.GraphifyRecord | src/domain/graph.rs:164-244 | the loops collect, deduplicate and report as specified, and fail at the first failing entity or hint; nodes and edges come out in order, with the class of the contradictions and the count of the evidence |
| GraphifyEvidence.HintsCovered | src/domain/graph.rs:164-244 | every hint used has an edge from the key of its first label and name to that of its second, under its upper-cased relation, with at least its confidence, and both ends have nodes |
| GraphifyEvidence.EdgesWarranted | src/domain/graph.rs:164-244 | every edge comes from such a hint with exactly its confidence, no two with the same ends and relation |
| GraphifyEvidence.EntitiesCovered | src/domain/graph.rs:164-244 | every entity that is not blank has its node |
| GraphifyEvidence.NodesWarranted | src/domain/graph.rs:164-244 | every node is that of an entity or of an endpoint of a hint, no two with the same key |
| GraphifyEvidence.SucceedsIff | src/domain/graph.rs:164-244 | it succeeds if and only if the scope is valid where an entity is to be kept and every hint used has valid labels, names, relation, confidence and source |
| Graphify.NodesInOrder | src/domain/graph.rs:256-267 | nodes come out by tenant, user and key, and of those with one key the first of the most confident |
| Graphify.EdgesInOrder | src/domain/graph.rs:215-226 | edges come out by start, relation and end, and of those with one triple the first of the most confident |
| Graphify.OneNodePerKey | src/domain/graph.rs:256-267 | one node per key, from the input, with the greatest confidence of its group |
| Graphify.OneEdgePerTriple | src/domain/graph.rs:215-226 | one edge per triple, from the input, with the greatest confidence of its group |
| Graphify.ProducerMeetsConsumer | src/domain/graph.rs:395-426 | produced graphs pass the store's validator if and only if the record's identity is valid |
| Contradictions.ConflictsExact | src/domain/graph.rs:428-453 | each scoped proposition is reported once if and only if both its forms occur |
| Contradictions.MessagesExact | src/domain/graph.rs:428-453 | one message for each relation between two ends in one scope that an edge asserts and an edge negates with NOT_, and no other |
| Contradictions.ConflictsIgnoreOrder | src/domain/graph.rs:428-453 | neither order nor multiplicity of the edges matters |
| Contradictions.FindContradictions | src/domain/graph.rs:428-453 | the one-pass mask reports exactly these, with the relation and the ends in the message |
| GraphEdges.RemoveSourceMeans | src/adapters/neo4j.rs:76-86 | removal forgets one source's evidence and no other's |
| GraphEdges.AppendSourceMeans | src/adapters/neo4j.rs:95-105 | appending adds one source's evidence and leaves the others |
| GraphEdges.MergeSourcesMeans | src/adapters/neo4j.rs:198-212 | a merge sets the evidence of exactly the named sources |
| GraphEdges.CachedAreMaxima | src/adapters/neo4j.rs:82-84 | the cached values are attained maxima over the sources' evidence |
| GraphEdges.EvidenceDecides | src/adapters/neo4j.rs:73-105 | edges with the same evidence have the same cached values and sources |
| GraphStore.ReplaceMeans | src/adapters/neo4j.rs:73-109 | a replacement sets its source's evidence in its scope to what the edges propose, touches nothing else, and keeps edges valid, non-empty and their maxima true |
| GraphStore.ReplaceValidIff | src/adapters/neo4j.rs:90-105 | with rows evaluated one by one, validity is kept if and only if the triples are distinct |
| GraphContents.ReplaceSays | src/adapters/neo4j.rs:73-109 | after a replacement the memory is listed in its scope with exactly the scores and stamps the edges give for their triples, and every other memory and scope as before |
| GraphContents.ReplaceRows | src/adapters/neo4j.rs:73-109 | a triple is stored afterwards if and only if the edges name it or another memory is listed there; its creation time is the one it had then, else that of the first edge naming it |
| GraphContents.NodesMean | src/adapters/neo4j.rs:88-94 | a node keeps its creation time and gets name and score of the last node written for it |
| GraphRowOrder.RowOrderIff | src/adapters/neo4j.rs:90-105 | evaluating all rows first gives the same graph if and only if the triples are distinct, and always a valid one |
| GraphRowOrder.RepeatedTripleExample | src/adapters/neo4j.rs:90-105 | one edge given twice lists its source twice row by row, and once with all rows first |
| GraphStore.MergeMeans | src/adapters/neo4j.rs:198-212 | a merge changes the evidence of its triple and sources only |
| GraphContents.MergeSays | src/adapters/neo4j.rs:198-212 | after a merge exactly the sources the edge names are listed with its score and stamp under its triple, and all else as before |
| GraphContents.RedactSays | src/adapters/neo4j.rs:286-311 | after a redaction the memory is listed nowhere in its scope, and all else as before |
| GraphStore.MergeValid | src/adapters/neo4j.rs:198-212 | a merge keeps edges valid and maxima true |
| GraphStore.LastWriteDecides | src/adapters/neo4j.rs:58-115 | after any writes a source's evidence is what its last write proposed |
| GraphStore.EvidenceDeterminesGraph | src/adapters/neo4j.rs:58-115 | the evidence map determines triples, sources and cached values |
| GraphStore.Converges | src/adapters/neo4j.rs:58-115 | the graph depends only on the last write of each source memory |
| GraphStore.WritesSettle | src/adapters/neo4j.rs:286-311 | repeating a write changes nothing, different sources commute, an empty replacement is a redaction |
| GraphStore.GraphDatabase.ReplaceMemoryGraph | src/adapters/neo4j.rs:58-115 | the transaction in place equals the replacement, acknowledges exactly valid graphs and refuses others unchanged |
| GraphStore.GraphDatabase.RedactMemoryEdges | src/adapters/neo4j.rs:286-311 | redaction in place equals the empty replacement |
| GraphStore.GraphDatabase.MergeEdge | src/adapters/neo4j.rs:197-236 | merges exactly valid edges whose two endpoints are stored in the edge's scope |
| GraphSync.GraphAnswersFromLatestPlan | src/runtime/storage.rs:640-731 | over every run without late writes, all evidence the graph holds for a visible memory is what its latest plan proposes |
| GraphSync.GraphAnswersLatestPlan | src/runtime/storage.rs:640-731 | without stray removals and writes without a plan, it is all that the latest plan proposes |
| GraphSync.PassInstallsPlan | src/runtime/storage.rs:640-731 | one undisturbed pass makes a current plan visible with exactly its evidence |
| GraphSync.PassClears | src/runtime/storage.rs:640-731 | one undisturbed pass over a memory found hidden takes it out of the graph in its scope and changes nothing else |
| GraphSync.RedactClears | src/runtime/storage.rs:2122-2127 | so does a forget's own removal |
| GraphLapses.LateWriteExample | src/runtime/storage.rs:640-731 | a write after the lease lapsed puts an older plan's edge under the acknowledged newer one |
| GraphLapses.StrayRemovalExample | src/runtime/storage.rs:2122-2127 | a forget that works from an old list removes a readable memory's edges |
| GraphLapses.BareUpsertExample | src/adapters/postgres.rs:1341-1342 | a row written without a plan is readable under an acknowledged plan whose edges are gone |
| GraphLapses.OnlyThePlanIff | src/runtime/storage.rs:640-731 | readers get nothing but the latest plan over all runs if and only if no worker writes late |
| GraphLapses.ThePlanIff | src/runtime/storage.rs:640-731 | readers get all of the latest plan over all runs if and only if there is no late write, no stray removal and no write without a plan |
| Admission.AdmissionConserves | src/package/mod.rs:418-470 | at every step the counters equal the count and byte sum of the calls holding them, within their limits, and running tasks never exceed the permits |
| Admission.ReleasesFit | src/package/mod.rs:338-350 | no release ever wraps a counter |
| Admission.NothingLeaks | src/package/mod.rs:338-350 | when every call is gone the counters are zero and every permit is free |
| Admission.NotStartedIsTrue | src/package/mod.rs:401-535 | a call told it was not started is never dispatched, before or after |
| Admission.StopWaitingFreesNothing | src/package/mod.rs:537-578 | a caller that times out leaves its task's count, bytes and permit held |
| Admission.ArrivalMeans | src/package/mod.rs:401-466 | an arriving call is turned away at once if and only if the client is closed or its payload is over 10485760 bytes, each with its own code, and otherwise goes on to the counters |
| Admission.ClosedForever | src/package/mod.rs:401-470 | after close no call is admitted, in any continuation |
| Admission.ClientInner.Admit | src/package/mod.rs:401-466 | undisturbed, a call is admitted exactly when open, of at most 10485760 bytes and within both limits, and a refusal restores both counters and has its code |
| Admission.ClientInner.DropGuard | src/package/mod.rs:338-350 | the guard gives back one call and its bytes |
| RateLimiter.ScopedRateLimiter.CheckAndConsume | src/api/mod.rs:134-159 | the locked update equals the check step, eviction included; a call is allowed exactly if the burst or the tokens with what accrued since come to one, and only its own bucket and those idle for an hour over 10000 change |
| RateLimiter.WindowBound | src/api/mod.rs:134-159 | allowed calls of a scope in any window number at most the burst plus the rate times the clock's forward moves |
| RateLimiter.BackwardsClockExample | src/api/mod.rs:138-153 | samples that go back let more through |
| RateLimiter.EvictionUnobservable | src/api/mod.rs:140-144 | where idle buckets refill within the hour, the limiter answers as one that never evicts |
| RateLimiterExact.RefusedIff | src/api/mod.rs:145-159 | a call is refused if and only if allowing it would exceed the bound of some window ending with it |
| RateLimiterEviction.EvictionUnseenIff | src/api/mod.rs:140-144 | eviction is unobservable if and only if an idle bucket refills within the hour |
| RateLimiterEviction.WindowBoundIff | src/api/mod.rs:134-159 | every window keeps the bound if and only if an idle bucket refills within the hour |
| RateLimiterClock.WindowsKeptIff | src/api/mod.rs:134-159 | over all runs whose samples lag their running maximum by at most d, every window keeps the burst plus what accrues in it if and only if an idle bucket refills within the hour and d or the burst is zero |
| RateLimiterClock.SwungBreaks | src/api/mod.rs:138-153 | for every positive rate, burst and lag: after the burst, samples that go back and forth within the lag let one more call through than their window allows |
| Paging.QueryMemories | src/adapters/postgres.rs:591-786 | the loops filter, retain beyond the cursor and take a page, and refuse bad limits and foreign cursors |
| Paging.QueryMeans | src/adapters/postgres.rs:591-786 | over rows newest first by created_at and id, a query is answered if and only if the limit is within 1 to 100 and the cursor of this version, scope and filters, and its page has the newest rows that pass the filter and are older than the cursor, with a cursor at its last row exactly if there are more |
| Paging.PagesAreExact | src/adapters/postgres.rs:765-783 | querying with each page's cursor serves the filtered list in order without gap or repeat |
| Paging.PageCountIsCeiling | src/adapters/postgres.rs:771-783 | in as many pages as the rows need, at least one |
| Paging.WalkIsExact | src/adapters/postgres.rs:765-783 | with rows coming and going between pages, the served rows strictly descend and every row listed throughout is served |
| Paging.StayingRowServedOnce | src/adapters/postgres.rs:765-783 | a row present and matching throughout is served exactly once |
| Paging.CursorRoundTrip | src/domain/memory.rs:778-819 | a cursor gives its position back to its own scope and filters and is refused by any other |
| Paging.QueryFrom | src/adapters/postgres.rs:765-783 | a query with a cursor of its own scope and filters serves the page after its position, and with any other cursor fails |
| Listing.KeyLike | src/adapters/postgres.rs:625-628 | the pattern `forgotten-source/{user}/%` matches another user's key exactly if the user's name, as a pattern, matches the other's |
| Listing.SelectsMeans | src/adapters/postgres.rs:642-745 | a row passes the filters if and only if it meets each one that is set, on its own columns |
| Listing.ShownMeans | src/adapters/postgres.rs:642-745 | a listed row shows its record's session, kind, privacy, tags and entities, its creation time, and at most 256 characters of its content |
| Listing.Candidates | src/adapters/postgres.rs:642-745 | the loop keeps exactly the rows that pass, in order |
| Listing.PreviewNeverMasked | src/adapters/postgres.rs:631-635 | the preview is always the first 256 characters of the stored content |
| Listing.PreviewAgreesIff | src/runtime/storage.rs:621-639 | it is the preview of the record as read if and only if no source was forgotten with redaction or nothing is left to redact |
| Listing.StatusAgreesIff | src/runtime/storage.rs:621-639 | the listed status is that of the record as read if and only if no other user's tombstone is mistaken for its own |
| Listing.PlainNeverMistaken | src/adapters/postgres.rs:625-630 | that never happens to names without LIKE's wild cards |
| Listing.ListingShowsReadable | src/adapters/postgres.rs:623-745 | following a listing without filters shows exactly the memories a read would return, but for restricted ones and mistaken ones |
| Listing.UnmaskedPreviewExample | src/runtime/governance.rs:179-186 | a memory that is read as redacted is listed with what it says |
| Listing.MistakenExample | src/adapters/postgres.rs:625-630 | a readable memory is left out for another user's tombstone |
| ScopedKeys.KeyComponent | src/adapters/transport.rs:101-109 | the loop writes two lowercase base16 digits per byte |
| ScopedKeys.HexAt | src/adapters/transport.rs:101-109 | bytes 2i and 2i+1 are the lowercase digits of the high and the low half of byte i |
| ScopedKeys.HexInjective | src/adapters/transport.rs:101-109 | base16 is injective |
| ScopedKeys.HexPrefix | src/adapters/transport.rs:101-109 | base16 preserves and reflects prefixes |
| ScopedKeys.NoGlobSyntax | src/adapters/redis.rs:268-271 | every encoded byte is one of 0-9 and a-f, so none is glob syntax |
| ScopedKeys.NamespaceMatches | src/adapters/redis.rs:122-124 | a namespaced prefix matches exactly its namespace's keys with that prefix |
| ScopedKeys.ScopePatternIsExact | src/adapters/redis.rs:125-137 | a scope's pattern matches all keys of its namespace, tenant and user and no others |
| ScopedKeys.RedisAdapter.InvalidatePrefix | src/adapters/redis.rs:268-291 | the cursor loop removes every matching key but those others write meanwhile, and no other key |
| ScopedKeys.RedisAdapter.InvalidateScope | src/adapters/redis.rs:164-166 | invalidating a scope removes its keys and leaves every other scope's |

## Left out

- Network, HTTP, gRPC, TLS, JWT, S3, Qdrant requests, JSON and base64 details, SHA-256: library behaviour.
- Retrieval scoring, reminders, outbox draining, embedding execution, telemetry and audit rows: they carry no protocol modelled here.
- Vector stores in the forget workflow: their receipts are inputs; only the canonical cascade is modelled row by row.
- `retain_memory` and its archive checks: it takes the same lease and runs the same `forget_claimed`.
- Slash-joined state keys are kept as tuples; user and memory ids contain no slash, which `validate_scope_component` enforces.
- Record validation beyond the columns `memory_write` insists on: length limits, timestamps and score ranges of a record.
- The clock of the forget lease is one number for all workers, which each takes in its own process in the code; a worker that trusts a wrong clock is one more late writer.
- Reads that a step of the workflow makes together: the tombstones that mask a record, and the row and the list that `lifecycle_forget` starts from.
- GraphSync: a worker reads the row and its plan in one step, and a lease may lapse at any time; that renewing it before each write makes late writes rare is not counted on.
- GraphStore.ReplaceValidIff: applies the edges of one call row by row; `GraphRowOrder.RowOrderIff` says when that matters.
- GraphStore.Converges: creation times of edges depend on history and are not compared; node properties are last-writer-wins and not part of the claim.
- Graphify.GraphifyRecord: one clock sample per call stands for several, as a replay overwrites them with the record's own time.
- Admission.AdmissionConserves: the semaphore's queue order and the runtime's scheduling are arbitrary; that a waiting call is eventually served is not claimed.
- RateLimiter.WindowBound: reals instead of double precision, so rounding is not modelled.
- Paging.QueryMemories: the filter is any predicate on rows, its clauses are in `Listing`; the check that a cursor string is at most 4096 bytes is not modelled (ids have at most 256 bytes, so a cursor the adapter made always fits).
- Listing.ListingShowsReadable: memory type stands for the type filters alike, unparsable column values are not modelled, and the table is read in one step with its tombstones, as the query does.
- ScopedKeys.RedisAdapter.InvalidatePrefix: keys do not expire and are not deleted by others during the loop; the server's promise that a full iteration visits every key present throughout is a precondition.
- Consolidation: the summary row of a session, which jobs of other versions write too, is followed for one job; audit records and the checks before the claim that need no store write nothing.
- ConsolidationWorker.Worker.ConsolidateSession: renewals cost no budget, and the lift to overlapping attempts is for a worker that is not overtaken; overtaken ones are in the runs of `ConsolidationAttempts`.
- ConsolidationRuns.CrashRefinement: timestamps are erased, and the receipts list, which may repeat the summary's receipt after a failed attempt, is not compared.
- Fairness and termination of the connection pool, of the exchange loops under contention and of `close`.
