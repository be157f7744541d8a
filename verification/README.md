# KubeTemplater: verified model

KubeTemplater is a Kubernetes operator. A KubeTemplate lists objects to create; a controller moves it
through its phases and puts it on an in-memory retry queue; workers take it from there, check it against
the policy of its namespace and apply its objects; an admission webhook checks it beforehand with
certificates that the operator issues and rotates itself. This project models the parts of the operator
that carry state and proves what they keep, step by step and over whole runs.

`dafny verify dfyconfig.toml` checks everything. The modules follow the program:

| module | models |
|---|---|
| `Common` | the option type and the unit of time |
| `Backoff` | backoff delay in int64 nanoseconds, the two-level retry budget, time until the pause |
| `QueueSpec` | the work queue as a value: its calls, what every run of calls keeps |
| `QueueHistory` | what counters, due times and priorities tell about the calls of a run |
| `WorkQueue` | the work queue as it is stored: a heap of item pointers with back-pointers, a name index, counters; proved to refine `QueueSpec` |
| `Protocol` | API objects, Reconcile, queue and workers as one step system |
| `StrandedTemplates`, `LostEdits`, `PausedTemplates` | safety of that system over whole runs |
| `GuardsNeeded` | the states and the steps from which an edit can be lost, exactly |
| `ProtocolRounds` | whole Reconciles and turns of workers, from an edit to its completion, and the end of a deleted template's item |
| `ProtocolExamples` | concrete runs that show why the assumptions of those theorems are needed |
| `StatusUpdate` | the worker's fetch-modify-write loop against other writers |
| `CertRotation` | CA and server certificate rotation |
| `PolicyCache`, `CacheRuns`, `CacheStaleness` | the policy cache, its agreement with the API at rest, and bounded staleness |
| `Policies`, `Admission`, `TemplateLoop` | rules and objects, the webhook's validation, the worker's pass over the templates |
| `Drift` | the periodic drift pass |

Foreign code enters as function values that the theorems quantify over: YAML parsing, CEL, regular
expressions, server-side merge. Spec hashes are injective, certificate serial numbers are unique, and a
signature verifies when its issuer is in the pool and both certificates are within their validity (path
validation, section 6.1 of RFC 5280). Clock readings are parameters. A step of the protocol is one API call
or one queue call; between two steps everything interleaves.

`applied` in the protocol is the spec that a worker or a drift pass last went through completely, refused and
skipped templates included.

The theorems about runs of the protocol hold from every start that has the property in question; an empty
cluster is one, and `LostEdits.StartupIsSound` says which clusters a process may start with. The controller's
reads come from a cache: a read may be older than the stored object, and then the watch still has an event for
it (`more` in the step `CtrlGet`).

What turned out not to hold is kept as the code has it, with a lemma that exhibits it and the exact condition
under which it holds:

- docs/architecture.md:393-395 says that an item is dropped after five failures; the code runs through
  cycles of retries and then pauses the template. The model follows the code.
- The cap of 30 on the backoff exponent prevents overflow exactly for initial delays below 2^33 ns, that is
  for settings of at most eight seconds. Nine seconds pass the configuration clamps, and the 31st retry is then
  scheduled in the past (`Backoff.CapSufficesIff`, `Backoff.EightSecondsIff`, `Backoff.NineSecondsOverflow`).
- Index and heap get out of step, and a name gets queued or held twice, exactly when a name is enqueued while a
  worker holds it (`QueueSpec.SingleFlightStep`, `QueueSpec.SingleFlightRun`, `PausedTemplates.SingleFlightRun`,
  `QueueSpec.TwoItemsOneName`).
- A waiting head holds back due items exactly when a due item of lower priority is queued
  (`QueueSpec.HeldBackIff`, `QueueSpec.MixedPriorityCanWait`).
- A step strands a template exactly when it loses the pause of a template that no queued item, other worker or
  enqueuing Reconcile covers (`StrandedTemplates.StepStrandsIff`, `ProtocolExamples.LostPauseStrands`).
- An edit can be lost when two workers are at work on one template, when a refused template is edited and
  Reconcile does not react, when a refusal finds an edit, when a status write is lost that was needed, and when a
  drift pass applies an old spec after a worker has applied a newer one. Without these five no edit is lost, with
  any number of workers (`LostEdits.NoLostEdit`). They are exact: with one worker per template, the states from
  which a continuation that keeps all five and reads only what is stored still loses an edit are those that break
  the invariant (`GuardsNeeded.SoundIffSafe`), and a step from a state that keeps it leads to such a state if and
  only if it is one of the five (`GuardsNeeded.GuardsAreExact`, `GuardsNeeded.TakeIsExact`). `ProtocolExamples`
  has a complete run for each.
- A paused template comes back without a resume annotation exactly when a Reconcile that read an older version
  is still going to enqueue it (`PausedTemplates.PausedStaysOutIff`, `ProtocolExamples.PausedButQueued`).
- A policy that changes its source namespace leaves its old cache entry behind exactly when that entry is live
  (`CacheRuns.ArrivalAgreesIff`, `CacheRuns.MovedSourceLingers`), and an answer that is stored late is wrong
  exactly when a list of its namespace would return something else by then (`CacheStaleness.LateStoreIff`,
  `CacheStaleness.DeletedPolicyCanLinger`); both last at most one time to live.
- A failed patch of the trust bundle is not repeated (`CertRotation.FailedPatchIsNotRepeated`); clients are
  served exactly when some certificate of the current issuer had its patch land (`CertRotation.ContinuityIff`).
- Field validations are enforced by the webhook only (`TemplateLoop.WorkerIsLaxer`,
  `TemplateLoop.MissingFieldIsApplied`).
- Drift passes come to rest exactly when templates for one resource agree about what drift detection looks at
  (`Drift.IdempotentIff`, `Drift.TwoSpecsFlap`).

## Model

| member | source | states |
|---|---|---|
| Backoff.NoOverflowIff | internal/queue/work_queue.go:255-261 | no product of a cycle leaves the int64 range, in either direction, if and only if that of its last retry does not |
| Backoff.CapSufficesIff | internal/queue/work_queue.go:258-261 | the exponent cap of 30 protects every number of retries if and only if the initial delay lies between -2^33 and 2^33 ns |
| Backoff.DelayIsIdeal | internal/queue/work_queue.go:254-265 | without overflow the delay is min(initial * 2^min(k,30), max), at most max, and positive for positive settings |
| Backoff.DelayNonDecreasing | internal/queue/work_queue.go:254-265 | within a cycle delays never shrink |
| Backoff.DelayIsIdealIff | internal/queue/work_queue.go:261-264 | a single delay is the ideal one if and only if its product fits or wraps to at least the maximum |
| Backoff.EightSecondsIff | cmd/main.go:365-393 | for every setting, after the clamps no number of retries overflows if and only if the initial delay, wrapped or not, is within 2^33 ns; where it does not wrap, if and only if it is at most eight seconds |
| Backoff.NineSecondsOverflow | cmd/main.go:365-393 | nine seconds and 31 retries pass the clamps and give a negative delay |
| Backoff.WorkerNeverGivesUp | internal/queue/work_queue.go:231-243 | the give-up branch of Requeue is unreachable when the worker checks the budget first |
| Backoff.GivesUpIff | internal/queue/work_queue.go:231-243 | Requeue itself drops an item if and only if the worker would pause it and its retries are used up |
| Backoff.RemainingDecreases | internal/queue/work_queue.go:224-253 | (cycles - cycle) * (retries + 1) - count drops by one with every requeue and is positive before the pause |
| Backoff.PausesExactly | internal/worker/template_processor.go:98-133 | after k requeued failures the next failure pauses if and only if k = cycles * (retries + 1); before that Requeue always retries |
| Backoff.UnlimitedNeverPauses | internal/worker/template_processor.go:101-102 | with zero maximum cycles no number of failures pauses |
| Backoff.SettingsMean | cmd/main.go:365-393 | in terms of the settings: an always-failing template is paused after exactly cycles * (retries + 1) requeues and never with zero or negative cycles; waits last at most the maximal delay, exactly that between cycles, and the initial delay at the start of one |
| Backoff.SettingsClamped | cmd/main.go:365-393 | settings below their minimum count as the minimum |
| Backoff.RunUntilPaused | internal/worker/template_processor.go:86-140 | an item whose attempts all fail leaves the loop at attempt cycles * (retries + 1) + 1 after waiting cycles * (sum of the backoffs + max), which lies between cycles * max and cycles * (retries + 1) * max |
| QueueSpec.EnqueueKeepsInv | internal/queue/work_queue.go:129-168 | Enqueue keeps queued and held items apart, the index inside the queue and the counters balanced |
| QueueSpec.DequeueKeepsInv | internal/queue/work_queue.go:199-209 | the same for Dequeue |
| QueueSpec.RequeueKeepsInv | internal/queue/work_queue.go:218-280 | the same for Requeue, in both its branches |
| QueueSpec.RunKeepsInv | internal/queue/work_queue.go:129-287 | the same after every sequence of calls in which Requeue and Done get only items their caller dequeued |
| QueueSpec.ProcessingBalance | internal/queue/work_queue.go:203-242 | over every run the in-progress gauge is the number of held items less the number of give-ups, which decrement it twice |
| QueueSpec.MetricsConservation | internal/queue/work_queue.go:160-287 | in worker-driven runs enqueued + retried = dequeued + queued, the depth gauge is the number of queued items, and the in-progress gauge the number of held ones |
| QueueSpec.GiveUpMiscounts | internal/queue/work_queue.go:226-242 | a direct Requeue of a spent item leaves the gauge one too low |
| QueueSpec.SingleFlightStep | internal/queue/work_queue.go:135-158 | a call ends the bijection of index and queue, or the uniqueness of names, if and only if it enqueues a held name |
| QueueSpec.SingleFlightRun | internal/queue/work_queue.go:135-158 | every state of a run has single flight if and only if no call of it enqueues a held name |
| QueueSpec.TwoItemsOneName | internal/queue/work_queue.go:199-201 | an Enqueue of a held name, at any priority, and a Requeue put two items with one name into the queue |
| QueueSpec.WaitsOnlyIfNothingDue | internal/queue/work_queue.go:182-197 | in runs with one priority the head is due if and only if some queued item is due |
| QueueSpec.HeldBackIff | internal/queue/work_queue.go:76-82 | behind a head that is not due some item is due if and only if a due item of strictly lower priority is queued |
| QueueSpec.MixedPriorityCanWait | internal/queue/work_queue.go:182-197 | a run that ends with a delayed high-priority head while another item is due |
| QueueHistory.CountersTell | internal/queue/work_queue.go:160-280 | over every run the three counters count the items made, handed out and put back, each its own kind |
| QueueHistory.BackoffIsRespected | internal/queue/work_queue.go:245-280 | after a failure an item is not handed out before its delay has passed, and comes back with its name, its time of enqueueing and the charged budget |
| QueueHistory.FailQueuesIff | internal/worker/template_processor.go:98-133 | a failed item leaves its worker, and is queued again if and only if its cycles are not used up |
| QueueHistory.StaysQueued | internal/queue/work_queue.go:129-287 | an item that is not taken stays queued with its budget and due time; only its priority may rise |
| QueueHistory.PriorityIsHighest | internal/queue/work_queue.go:135-141 | while single flight lasts a queued item has the highest priority its name was enqueued with since it was queued |
| QueueHistory.NewItem | internal/queue/work_queue.go:143-158 | an unknown name gets one new item with a fresh budget, due at the time of the call |
| WorkQueue.RootIsHead | internal/queue/work_queue.go:76-82 | in a heap under Less no item precedes the root |
| WorkQueue.PriorityQueue.Swap | internal/queue/work_queue.go:84-88 | exchanges two items and keeps every stored index equal to the position |
| WorkQueue.PriorityQueue.Up | internal/queue/work_queue.go:157 | sifting up restores heap order from a heap that is broken at one item towards its parent, permuting the items |
| WorkQueue.PriorityQueue.Down | internal/queue/work_queue.go:200 | sifting down restores heap order below an item, leaves the positions from n on alone, and tells whether it moved |
| WorkQueue.PriorityQueue.Push | internal/queue/work_queue.go:90-95 | heap.Push adds exactly the item and keeps heap order and indices |
| WorkQueue.PriorityQueue.Pop | internal/queue/work_queue.go:97-105 | heap.Pop removes exactly the root, whose index becomes -1, and keeps heap order and indices |
| WorkQueue.PriorityQueue.Fix | internal/queue/work_queue.go:140 | heap.Fix restores heap order after the key of one item changed either way |
| WorkQueue.PriorityQueue.Raise | internal/queue/work_queue.go:137-141 | raising a priority goes through the stored index, which is always valid, and keeps the heap |
| WorkQueue.WorkQueue.constructor | internal/queue/work_queue.go:113-126 | a new queue is valid and empty |
| WorkQueue.WorkQueue.Enqueue | internal/queue/work_queue.go:129-168 | keeps the representation invariant and acts on the abstract queue as QueueSpec.Enqueue: a known name is only raised, a new one gets a fresh item |
| WorkQueue.WorkQueue.TryDequeue | internal/queue/work_queue.go:171-215 | one turn of Dequeue: a returned item is due, is preceded by no queued item, and is exactly what leaves the queue; waiting changes nothing and happens only when no head is due, and then every due item has a lower priority than the heads |
| WorkQueue.WorkQueue.Charge | internal/queue/work_queue.go:224-267 | charges a failure to the item: new counters and due time as the retry arithmetic says, or, when the budget is used up, the raised counter and the verdict to drop it |
| WorkQueue.WorkQueue.Requeue | internal/queue/work_queue.go:218-280 | keeps the representation invariant and acts on the abstract queue as QueueSpec.Requeue |
| WorkQueue.WorkQueue.Done | internal/queue/work_queue.go:283-287 | the item leaves its worker and the gauge drops by one |
| WorkQueue.WorkQueue.Fail | internal/worker/template_processor.go:98-133 | the worker's reaction to a failure: pause exactly when the cycles are used up, otherwise the item is queued again; the gauge stays equal to the number of held items |
| WorkQueue.WorkQueue.Contains | internal/queue/work_queue.go:322-328 | tells whether the index knows the name, and then an item with that name is queued |
| WorkQueue.WorkQueue.Len | internal/queue/work_queue.go:313-318 | the number of queued items, equal to the depth gauge |
| Protocol.StepKeepsBook | internal/controller/kubetemplater.io/kubetemplate_controller.go:58-315 | every step keeps the queue invariant, one worker per held item, and versions that identify contents |
| Protocol.PathKeepsBook | internal/worker/template_processor.go:82-369 | the same over every run, from every start that has it |
| StrandedTemplates.StepStrandsIff | internal/controller/kubetemplater.io/kubetemplate_controller.go:81-312 | a step leaves a template in Queued, Processing or Failed uncovered if and only if it loses the pause of such a template while no queued item, no other active worker and no Reconcile about to enqueue covers it |
| StrandedTemplates.NoStrandedRunIff | internal/worker/template_processor.go:82-369 | over every interleaving from every start without stranded templates, with stale controller reads and failing writes: no state of the run strands a template if and only if no step loses a pause that way |
| ProtocolExamples.LostPauseStrands | internal/worker/template_processor.go:109-129 | a run in which a lost pause strands a template |
| ProtocolRounds.GoneItemStays | internal/worker/template_processor.go:143-151 | while a template does not exist, an item of it in a worker's hands stays there uncharged over every path without a failing fetch |
| ProtocolRounds.GoneItemIsDropped | internal/worker/template_processor.go:134-151 | the worker's last step then drops it: it is neither held nor queued, and never was queued again |
| ProtocolRounds.ReconcileRound | internal/controller/kubetemplater.io/kubetemplate_controller.go:58-315 | an undisturbed Reconcile enqueues a template if and only if it is new or on its way, resumed, or Completed or Failed with the hash of another spec; it leaves the status that says so, and nothing else changes |
| ProtocolRounds.FailedWrite | internal/controller/kubetemplater.io/kubetemplate_controller.go:91-300 | a status write of Reconcile that fails changes no object; a conflict still leads to Enqueue, unless the template is new, and every other failure repeats the request |
| ProtocolRounds.PeriodicRound | internal/controller/kubetemplater.io/kubetemplate_controller.go:232-268 | a Completed template that is up to date goes through its timer and an idle Reconcile back to where it was, with the timer armed again |
| ProtocolRounds.WorkerTurn | internal/worker/template_processor.go:143-369 | a turn in which everything works leaves the template Completed with its stored spec applied and recorded, and the item gone |
| ProtocolRounds.FailingTurn | internal/worker/template_processor.go:86-140 | a turn in which an apply fails leaves the template Failed and queued again, or Paused and out of the queue if the budget is used up |
| ProtocolRounds.BareFailure | internal/worker/template_processor.go:86-166 | a failing fetch, and a failure or completion whose status write is lost, are charged like every failure: the item is queued again, or the worker turns to pausing the template |
| ProtocolRounds.EditIsProcessed | internal/controller/kubetemplater.io/kubetemplate_controller.go:183-312 | from every template at rest, an edit that leaves work to do has a path to Completed at rest with the new spec applied and recorded |
| LostEdits.StepKeepsSound | internal/worker/template_processor.go:163-169 | with any number of workers every guarded step keeps an unapplied spec pending and a Completed hash equal to what was applied |
| LostEdits.FineStep | internal/worker/template_processor.go:143-369 | a template that a worker will fetch again, or whose workers apply the stored spec and which has it applied if Completed, stays so until a user changes it |
| LostEdits.EditsSeenIsGood | internal/controller/kubetemplater.io/kubetemplate_controller.go:58-315 | a Reconcile whose read has seen the last edit makes the template be enqueued or need not, however old the status it found |
| LostEdits.NoLostEdit | internal/controller/kubetemplater.io/kubetemplate_controller.go:183-312 | in every state of a guarded run from a sound start, a Completed template at rest has its stored spec applied, edits during processing included, with any number of workers and any lag of the controller's cache |
| LostEdits.StartupIsSound | internal/controller/kubetemplater.io/kubetemplate_controller.go:183-230 | a process may start with any objects whose Completed ones record the hash of what was applied; nothing is stranded at the start if and only if no object is in Queued, Processing or Failed |
| GuardsNeeded.SoundIffSafe | internal/worker/template_processor.go:143-369 | with at most one worker per template, the invariant holds if and only if no continuation that keeps every guard and reads what is stored ends with a Completed template that nobody will look at and whose stored spec is not applied |
| GuardsNeeded.GuardsAreExact | internal/controller/kubetemplater.io/kubetemplate_controller.go:116-312 | from every sound state, any step other than taking an item has such a continuation after it if and only if it breaks a guard (an edit that will not be noticed, a refusal that finds another spec, a status write that is lost, a drift pass with an old spec) and is not a lost write that a pending Reconcile heals |
| GuardsNeeded.TakeIsExact | internal/queue/work_queue.go:199-201 | taking the last item of a template from a sound state has such a continuation after it if and only if another worker is still at work on the template |
| LostEdits.SingleFlightLosesNoEdit | internal/queue/work_queue.go:135-158 | the same without the guard on taking items, for runs that enqueue no held name |
| LostEdits.OneWorkerLosesNoEdit | cmd/main.go:321-331 | the same without the guard on taking items, for runs with a single worker |
| LostEdits.OrderlyRunLosesNoEdit | cmd/main.go:321-331 | for one worker whose runs have no refusal, lose no first or last status write while the object exists, and drift passes that apply nothing old, no edit is lost whatever users, controller and watch do |
| ProtocolExamples.LateFinisher | internal/worker/template_processor.go:353-366 | two workers on one template and no other guard broken: the one that finishes late leaves the old spec applied and the new one stored |
| ProtocolExamples.RefusalLosesEdit | internal/controller/kubetemplater.io/kubetemplate_controller.go:116-179 | one worker and no other guard broken: an edit after a refusal is lost, because Reconcile ignores a Failed template without a hash |
| ProtocolExamples.LateRefusalLosesEdit | internal/worker/template_processor.go:229-297 | no other guard broken: a refusal that finds an edit records the hash of a spec that was not applied |
| ProtocolExamples.UnmarkedLosesEdit | internal/worker/template_processor.go:163-169 | no other guard broken: a worker that cannot mark its template Processing hides an edit back to the recorded spec |
| ProtocolExamples.DriftRevertsEdit | internal/controller/kubetemplater.io/kubetemplate_controller.go:232-268 | no other guard broken: a drift pass applies the spec that its Reconcile read before a worker applied a later one |
| PausedTemplates.SingleFlightRun | internal/queue/work_queue.go:135-158 | in runs of controller and workers, every state has every name queued or held at most once and indexed if and only if no step enqueues a held name |
| PausedTemplates.PausedStaysOutIff | internal/controller/kubetemplater.io/kubetemplate_controller.go:80-113 | a paused template out of queue and hands stays so over every continuation without delete in which Reconcile reads nothing of it to react to, if and only if no Reconcile in flight is going to enqueue it |
| PausedTemplates.FreshReadIsCalm | internal/controller/kubetemplater.io/kubetemplate_controller.go:80-113 | a fresh read of a paused template leaves nothing to react to if and only if it finds no resume annotation |
| PausedTemplates.PauseHoldsIff | internal/worker/template_processor.go:101-129 | over whole runs that enqueue no held name: a worker that leaves its template paused leaves it out of queue and hands, and it stays there that way if and only if no Reconcile was going to enqueue it at that moment |
| PausedTemplates.ResumingPath | internal/controller/kubetemplater.io/kubetemplate_controller.go:80-113 | whatever interleaves, a Reconcile that read the resume annotation stays on its way until it enqueues, unless its own write fails for good |
| PausedTemplates.ResumeHasFullBudget | internal/controller/kubetemplater.io/kubetemplate_controller.go:80-109 | on every path from a parked template its first Enqueue creates a fresh item, whose budget is that of as many requeues as it fails afterwards; it is paused again exactly after the full number of failures |
| ProtocolExamples.PausedButQueued | internal/controller/kubetemplater.io/kubetemplate_controller.go:303-312 | a run in which an overlapping Reconcile queues a paused template that nobody resumed |
| StatusUpdate.Server.Update | internal/worker/template_processor.go:69-75 | an update lands if and only if the object exists at the version it is based on |
| StatusUpdate.UpdateStatusWithRetry | internal/worker/template_processor.go:53-79 | on success the stored object is the update function of the object at that moment with every write by others in it; on failure nothing of its own was written; at most three tries |
| StatusUpdate.AttemptIff | internal/worker/template_processor.go:56-78 | an attempt succeeds, or is tried again, if and only if both its calls go through on an existing object and nobody, or somebody, writes in between |
| StatusUpdate.UpdatedIff | internal/worker/template_processor.go:56-78 | the call succeeds if and only if some attempt is undisturbed after conflicts only |
| CertRotation.Manager.EnsureCa | internal/cert/manager.go:163-276 | creates, renews, promotes or loads a CA as the reference function says, error case included |
| CertRotation.Manager.NeedsServerCertGeneration | internal/cert/manager.go:374-452 | true if and only if the certificate is missing or unusable, expires within the threshold, or verifies against neither CA |
| CertRotation.Manager.EnsureCertificate | internal/cert/manager.go:134-160 | one check takes the secrets and the bundle to the reference state; a bundle patch that fails leaves the bundle alone and is not an error |
| CertRotation.Manager.Renew | internal/cert/manager.go:87-131 | from whatever secrets exist, the start and every tick of the renewal loop apply one check each |
| CertRotation.SignerIs | internal/cert/manager.go:163-276 | from every cluster: which CA signs, when a new one is made, and that the check fails if and only if the primary is unusable and no new one is readable |
| CertRotation.PromotedIff | internal/cert/manager.go:163-276 | the new CA replaces the primary if and only if the primary has expired |
| CertRotation.CheckRepairs | internal/cert/manager.go:374-452 | from every cluster with a valid signer a check leaves a certificate that verifies and lasts another threshold, reissues a missing or unusable one under a bundle that trusts its issuer, and leaves a good one alone |
| CertRotation.CheckIsSmooth | internal/cert/manager.go:163-276 | within a threshold of the last check: the signing CA has a certificate lifetime left, the certificate is replaced if and only if it expires soon, and promotion finds it signed by the new CA |
| CertRotation.Continuity | internal/cert/manager.go:42-52 | for all checks at most 30 days apart clients accept the server certificate at every moment until the next check is due, the bundle is its issuer, and it does not outlive it |
| CertRotation.NonDisruptive | internal/cert/manager.go:418-446 | at every further check the branch for an untrusted signature does not fire, promotion changes nothing for clients, and signing CAs have a full certificate lifetime left |
| CertRotation.ContinuityIff | internal/cert/manager.go:134-160 | with bundle patches that may fail at any check: until the next check is due clients accept the certificate if and only if some check that issued under its issuer had its patch land |
| CertRotation.FailedPatchIsNotRepeated | internal/cert/manager.go:149-157 | after a first check whose patch fails the next check leaves clients unserved |
| CertRotation.SafeGapIff | internal/cert/manager.go:46-51 | a gap between checks is safe if and only if it is at most 30 days |
| PolicyCache.Cache.constructor | internal/cache/policy_cache.go:49-58 | an empty cache; a zero time to live means five minutes |
| PolicyCache.Cache.Get | internal/cache/policy_cache.go:62-82 | a live entry answers and changes nothing, a negative one with "not found"; otherwise the list answers and is stored |
| PolicyCache.Cache.Refresh | internal/cache/policy_cache.go:85-119 | zero or one policy is stored and answered; list errors and ambiguous lists leave the cache alone |
| PolicyCache.Cache.ReconcilePolicy | internal/controller/kubetemplater.io/kubetemplatepolicy_controller.go:51-80 | an existing policy is stored under its source namespace, a deleted one clears the cache |
| PolicyCache.Cache.ReconcileCache | internal/controller/kubetemplater.io/policy_cache_controller.go:38-58 | an existing policy is stored, a deleted one removes only the entry of the empty namespace |
| CacheRuns.StepAgrees | internal/controller/kubetemplater.io/kubetemplatepolicy_controller.go:51-80 | every step, moves of policies included unless they leave a live entry behind, keeps each live entry equal to the list or with a correcting event pending |
| CacheRuns.AgreementAtRest | internal/cache/policy_cache.go:62-173 | once the policy controller has handled its events every live entry, negative ones included, is what a fresh list returns; policies may move as long as none leaves a live entry behind |
| CacheRuns.MissAnswers | internal/cache/policy_cache.go:85-119 | a miss answers with the one policy of the namespace if and only if it exists, "not found" if and only if none does, and an error if and only if there are several or the list fails |
| CacheRuns.HitAnswers | internal/cache/policy_cache.go:66-82 | the same of a hit on an entry that is what a list returns |
| CacheRuns.AnswersAtRest | internal/cache/policy_cache.go:62-119 | at rest every lookup, hit or miss, answers with the policy that exists, or "not found" if and only if none does |
| CacheRuns.DeletionNeedsPolicyController | internal/controller/kubetemplater.io/policy_cache_controller.go:38-58 | after a deletion the cache controller drops the entry of the empty namespace and no other, so that the wrong entry lives on until the policy controller clears the cache |
| CacheRuns.ArrivalAgreesIff | internal/cache/policy_cache.go:165-173 | where all live entries agree, a policy that arrives and is handled, after a deletion or not, keeps them in agreement if and only if it does not come from another source namespace with a live entry |
| CacheRuns.MovedSourceLingers | internal/cache/policy_cache.go:165-173 | a policy that changes its source namespace leaves a wrong entry with no event pending |
| CacheStaleness.EntryWasStored | internal/cache/policy_cache.go:85-130 | with reading and storing interleaved, every entry was read from the API, then stored, and expires one time to live after the store |
| CacheStaleness.BoundedStaleness | internal/cache/policy_cache.go:66-82 | every hit at time t returns a value that was in the API when read and was stored at some s with t < s + ttl |
| CacheStaleness.LateStoreIff | internal/cache/policy_cache.go:85-119 | an answer read at one step of a history and stored at a later one keeps all live entries true if and only if a list of its namespace returns the same at both |
| CacheStaleness.FailedListKeepsCache | internal/cache/policy_cache.go:85-103 | a list that fails or is ambiguous is answered with an error and leaves the entries alone |
| CacheStaleness.DeletedPolicyCanLinger | internal/cache/policy_cache.go:85-119 | a refresh that overlaps a deletion caches the deleted policy |
| Policies.KeysRoundTrip | internal/webhook/kubetemplate_webhook.go:380-382 | joining the keys of a field path with dots gives the path back |
| Policies.KeysHaveNoDots | internal/webhook/kubetemplate_webhook.go:380-382 | no key contains a dot |
| Policies.KeysWithoutDots | internal/webhook/kubetemplate_webhook.go:380-382 | a path without dots is its own only key |
| Policies.NestedAssigned | internal/webhook/kubetemplate_webhook.go:256-273 | a lookup of nested keys finds what was set there, and nothing after a removal |
| Policies.NestedElsewhere | internal/webhook/kubetemplate_webhook.go:256-273 | values set on one path are invisible on paths that part from it |
| Policies.NestedBrokenIff | internal/webhook/kubetemplate_webhook.go:256-273 | a path is an error if and only if a beginning of it leads to a value that is neither an object nor null |
| Policies.PlacedNamespace | internal/webhook/kubetemplate_webhook.go:127-130 | an explicit namespace is kept, a missing one supplied, and nothing outside the metadata changes |
| Policies.FindRule | internal/worker/template_processor.go:207-227 | the first rule for the kind, or none |
| Policies.Contains | internal/worker/template_processor.go:407-414 | membership |
| Admission.RequiredAgainstForbidden | internal/webhook/kubetemplate_webhook.go:336-377 | required and forbidden never both pass on one path; neither passes if and only if the path is empty or broken or leads to null or the empty string |
| Admission.FieldChecksOfValue | internal/webhook/kubetemplate_webhook.go:215-377 | for every object and path that can hold it, what range, regex, CEL, required and forbidden checks accept once the field is set to a value |
| Admission.FieldChecksOfMissing | internal/webhook/kubetemplate_webhook.go:215-377 | the same once the field is removed; CEL sees null |
| Admission.FieldChecksElsewhere | internal/webhook/kubetemplate_webhook.go:185-377 | on a broken path all checks fail; a CEL check without a path sees the whole object, the others fail without one, and so do unknown kinds |
| Admission.Validator.ValidateFieldRegex | internal/webhook/kubetemplate_webhook.go:256-298 | the regex cache is invisible in the answer and holds only patterns that compile |
| Admission.Validator.ValidateFieldValidations | internal/webhook/kubetemplate_webhook.go:185-213 | passes if and only if every field validation passes |
| Admission.Validator.ValidateTemplate | internal/webhook/kubetemplate_webhook.go:116-172 | the checks of one template, in order, with the first reason that applies |
| Admission.Validator.ValidateKubeTemplate | internal/webhook/kubetemplate_webhook.go:96-182 | accepted if and only if the lookup gave a policy, there are at most 50 templates and each passes; otherwise the missing policy, the count or the first failing template is reported; one warning per passed template with replace, in order |
| Admission.AllowedIsPermitted | internal/worker/template_processor.go:185-297 | the worker applies a template if and only if it parses and its first matching rule names the object's namespace and its expression holds |
| Admission.WebhookIsStricter | internal/webhook/kubetemplate_webhook.go:115-172 | the webhook passes a template if and only if the worker would apply it and size, evaluation limits and field validations hold; both see the same object |
| Admission.WorkerReasonIff | internal/worker/template_processor.go:185-297 | the worker gives a reason if and only if it is the first of its reasons that applies |
| Admission.WebhookReasonIff | internal/webhook/kubetemplate_webhook.go:116-172 | the webhook gives a reason if and only if it is the first of its reasons that applies, limits on the expression included |
| Admission.AdmittedOneByOne | internal/webhook/kubetemplate_webhook.go:110-178 | up to fifty templates are admitted together if and only if each is on its own; more never are |
| Admission.ReplacingIff | internal/webhook/kubetemplate_webhook.go:174-177 | the warnings name exactly the templates that ask to be replaced, in order |
| TemplateLoop.CheckTemplate | internal/worker/template_processor.go:186-297 | the worker's checks of one template, in order |
| TemplateLoop.ProcessTemplates | internal/worker/template_processor.go:185-351 | tries to apply exactly the allowed templates, in order, and passes over the others; it aborts at k if and only if k is the first attempt whose apply failed, or was refused as invalid without replace, and finishes otherwise; it writes phase Failed exactly for templates refused by policy and for k |
| TemplateLoop.BelowIff | internal/worker/template_processor.go:185-297 | the attempted and the refused positions are exactly those that the checks allow and refuse, ascending |
| TemplateLoop.AttemptsArePermitted | internal/worker/template_processor.go:229-297 | no object is applied that its first matching rule forbids |
| TemplateLoop.AdmittedIsAllowed | internal/worker/template_processor.go:185-297 | every template of an admitted KubeTemplate gets the webhook's verdict from the worker too, with the very object the webhook saw |
| TemplateLoop.AdmissionImpliesProcessing | internal/webhook/kubetemplate_webhook.go:115-178 | for an admitted KubeTemplate the worker refuses and passes over nothing and tries every template in order, however far it gets |
| TemplateLoop.WorkerIsLaxer | internal/worker/template_processor.go:272-297 | what the worker applies is rejected by the webhook if and only if it breaks a field validation, an evaluation limit or the size limit |
| TemplateLoop.MissingFieldIsApplied | internal/worker/template_processor.go:207-297 | a concrete template that the worker applies and the webhook rejects for a missing required field |
| Drift.DriftIsProjection | internal/controller/kubetemplater.io/kubetemplate_controller.go:455-484 | drift is inequality of one projection: spec, else data, else nothing |
| Drift.DriftOfFields | internal/controller/kubetemplater.io/kubetemplate_controller.go:455-484 | on the fields: specs are compared if both objects have one, then data; having one on one side only is drift, having neither is none |
| Drift.Reconciler.ApplyTemplateResources | internal/controller/kubetemplater.io/kubetemplate_controller.go:319-441 | cluster, counters and status after a pass, with API faults at any object and a failing status write |
| Drift.PassSettles | internal/controller/kubetemplater.io/kubetemplate_controller.go:326-406 | after a pass without faults every resource exists and shows no drift |
| Drift.PassActs | internal/controller/kubetemplater.io/kubetemplate_controller.go:326-406 | over templates for distinct resources, with any faults: a pass finds drift if and only if it could read a drifted resource, and counts as applied and as synced exactly the resources that are |
| Drift.PassStores | internal/controller/kubetemplater.io/kubetemplate_controller.go:326-406 | each resource is afterwards the merge if it was missing or drifted and nothing failed, and otherwise what it was |
| Drift.PassKeepsPromise | internal/controller/kubetemplater.io/kubetemplate_controller.go:387-404 | after a pass without faults the cluster holds, semantically, the spec of the template, or its data if it has no spec |
| Drift.StatusCountsDrift | internal/controller/kubetemplater.io/kubetemplate_controller.go:408-441 | over any number of passes the status counts exactly those that found drift and could record it, and remembers the last |
| Drift.VisitLeaves | internal/controller/kubetemplater.io/kubetemplate_controller.go:408-441 | the first pass and every pass with drift leave their figures in the status, other passes leave it alone |
| Drift.DriftPassIsIdempotent | internal/controller/kubetemplater.io/kubetemplate_controller.go:319-441 | the next pass applies nothing, finds no drift and writes no status |
| Drift.IdempotentIff | internal/controller/kubetemplater.io/kubetemplate_controller.go:319-441 | for every list of templates and every replacing merge: the pass after a pass applies nothing if and only if any two templates for one resource agree on the compared projection |
| Drift.SharedResourceFlaps | internal/controller/kubetemplater.io/kubetemplate_controller.go:326-406 | two templates that disagree about one resource are both applied again by every further pass, which ends where the one before ended |
| Drift.TwoSpecsFlap | internal/controller/kubetemplater.io/kubetemplate_controller.go:326-406 | such templates exist |

## Left out

- Wake-up timing of Dequeue (condition variable, timers): one turn of its loop is modelled, so nothing is said about when a waiting worker wakes.
- Locks: each queue and cache operation is one atomic step, as its mutex makes it; CacheStaleness splits the refresh, which holds no lock between list and store.
- Process restarts, leader election and shutdown of workers: runs cover one process life, from a start that has the property in question; templates left in Queued, Processing or Failed by an earlier life are not such a start for StrandedTemplates.NoStrandedRunIff.
- LostEdits.NoLostEdit: a drift pass applies the whole spec that its Reconcile read in one step; its skips for queued and recently reconciled templates, and passes that apply some of the objects only, are not modelled there.
- GuardsNeeded.TakeIsExact: not for an item taken while another one for the template is still to come, or while the other worker has failed and only has to give its item back; either brings a worker once more.
- CacheRuns.AgreementAtRest: a cache refresh and each reconcile are single steps, policies live in the operator's namespace and no two share a source namespace.
- CertRotation.Manager.EnsureCa: API failures while a CA secret is created, renewed or promoted are not modelled; unusable secret contents are.
- CertRotation.Manager.EnsureCertificate: a failed write of the server certificate secret, and the reload of the serving certificate, are not modelled.
- TemplateLoop.ProcessTemplates: tracking labels and owner references that the worker adds before applying are not modelled.
- Drift: the merge is any idempotent function for distinct resources, and any replacing one for templates that share resources; field ownership of server-side apply is not modelled.
- Reconcile, processItem and the worker loop as procedures: their API calls interleave, so Protocol models them as steps over values; the template loop, the status update and the retry loop are also modelled as methods.
- WorkQueue.WorkItem keeps the item's record in one field beside its heap index; int64 wrap-around of the counters is not modelled.
- GetMetrics copies the counters, Size counts the cache entries, Invalidate removes one of them as Delete does, Shutdown wakes the waiting workers, and events and log lines are emitted along the way; none of this feeds back into the state modelled here.
- internal/cert/secret_watcher.go, internal/controller/namespace_controller.go, internal/controller/kubetemplater.io/resource_watcher_controller.go and the wiring in cmd/main.go beyond the clamps of the retry settings.
