# Zone-aware controllers: a verified model

This project models the two state machines of the zone-aware controllers for Kubernetes and proves what they keep over
whole runs.

**The zone disruption budget (ZDB).** A reconciler computes, from a list of pods, how many pods every zone is expected
to have, how many are healthy, and how many evictions each zone may still take. Concurrent handlers of the eviction
webhook spend those allowances: each works on a private copy of the object, takes one from its pod's zone, puts the pod
on record, and commits only if nobody has written the object since it was read; otherwise it reads again and retries.

**The zone-aware update (ZAU).** A reconciler replaces the old pods of a StatefulSet by deleting them, one zone at a
time, highest ordinal first, in batches whose size grows exponentially up to `maxUnavailable`.

The loops and in-place updates of the source are methods over classes, maps and sequences, each proved against a
function; the protocols are step relations over those same functions. `dafny verify dfyconfig.toml` checks everything.

| files | what they hold |
|---|---|
| `Seqs`, `Sorting`, `SortMap`, `Pods` | sequences and sums, in-place sorting, pods and their grouping by zone |
| `PodZone` | the pod-to-zone lookup and its cache |
| `ExpectedPods`, `TopUpFacts` | expected counts: controller scales, the round-robin top-up, its closed form and balance |
| `ZdbStore`, `ZdbController`, `EvictionWebhook` | the versioned object, the reconciler, the webhook |
| `BudgetFacts`, `SyncFacts`, `BudgetRuns` | one sync: whom it counts and what each field of its status says of the pods; and every history of versions the atomic specification allows |
| `BudgetCluster`, `BudgetSafety`, `BudgetContinuity`, `BudgetExclusivity` | handlers, reconcilers and pods racing on the store: serializability, safety at every moment and across syncs, exclusivity |
| `EvictionHandlers` | each handler among others begins and attempts as the handler of the webhook does |
| `BudgetGrace`, `BudgetPaidFor` | who is charged: never a pod evicted in time under a grant; the same safety where pods stop serving only under grants |
| `BudgetExample`, `BudgetRaces`, `BudgetEviction` | example runs, races lost, and an eviction from its grant through a sync to the end of the pod |
| `ZauController`, `RampArithmetic`, `RolloutStatus` | one rollout reconcile, the growth of the batches, the recorded status over runs |
| `RolloutOutcomes` | every outcome of a reconcile: exactly when it is decided on, in terms of the pods listed, and what it answers, deletes and records |
| `RolloutDecisions` | exactly when a reconcile panics, deletes beside pods that are not ready, deletes ready pods and moves the step, and what it counts |
| `RolloutOrder`, `CleanRollout`, `RolloutFigures`, `RolloutBounds`, `RevisionChange` | rollouts without trouble: the documented sequence and its figures, the number of steps, revision changes half way |
| `RolloutCycle` | rollouts without trouble are runs of those with trouble |
| `RolloutSafety`, `RolloutBlindSpot` | rollouts with trouble: failed deletes, any revisions, pods that fail, pods not ready or not back yet |

## How to read the budget theorems

`BudgetCluster.Cluster` holds the whole history of the object, any number of handlers and reconcilers, the pods and the
clock. A client may read any version, however old; a commit succeeds only on the newest. `lost` is bookkeeping: the
pods *charged* since the snapshot of the last sync, that is those that stopped serving without being on record, and
those on record whose deadline was the very instant of the sync.

No pod is charged that the budget has paid for. From the commit that grants it a pod is on record, on the object and in
every status that may still be written, through any events and syncs, for as long as it is listed, not terminating and
not past its deadline (`BudgetGrace.GrantedStaysOnRecord`), and a change of the pods charges none on record
(`BudgetGrace.NotCharged`). So whoever is charged has *failed*: it has stopped serving without a grant in time, or the
newest version was read at the very instant of its deadline (`BudgetGrace.OnlyFailuresAreCharged`).

A zone is *met* when the last sync has counted at least its desired number of healthy pods in it; every zone that has
been granted an eviction since is one of them (`BudgetSafety.GrantedZoneIsMet`). `BudgetSafety.BudgetSafety` says that
at every moment of every run a zone that is met has its desired number of serving, unrecorded pods, and as many more as
may still be granted, short only of charged ones. `BudgetSafety.WithinLimit` turns that into the limit: at most
`maxUnavailable`, at the scale of the controllers the sync has found, short of the expected count.
`BudgetContinuity.SafetyAcrossSyncs` follows a zone from a sync that has found it met across any number of further
syncs, grants, terminations, replacements and timeouts, for as long as nothing is charged and no sync raises its
desired count. `BudgetPaidFor` states each of these for runs in which no pod of the zone fails, with nothing charged to
anybody: `BudgetPaidFor.SafetyWithoutFailures` and those after it.

## Where the code does something else than one might expect

Each of these is kept in the model as the code has it and stated exactly.

- A record whose deadline equals the time of the sync is kept while its pod is counted as healthy: `BudgetFacts.HandOff`.
- The webhook lets a recorded pod pass without looking at the deadline of the record: `EvictionWebhook.BypassAgreement`,
  with an instance in `EvictionWebhook.ExpiredRecordBypasses`.
- Between two syncs grants may go to different zones, although the API comment says evictions are not allowed while pods
  of other zones are unavailable: `BudgetExclusivity.SecondZoneBeforeSync` and `BudgetExclusivity.OneZoneAllowed`, with a
  run in `BudgetExample.TwoZonesGranted`. With a sync between any two grants and no pod failing, one zone it is:
  `BudgetExclusivity.ZoneExclusivity` and `BudgetPaidFor.ExclusivityWithoutFailures`.
- A retry does not look again whether the pod is on record already, so one pod may be granted twice, as in the run of
  `BudgetExample.OnePodGrantedTwice`. Allowances and grants balance exactly, and new records balance with them if and
  only if no pod is granted while it is on record: `BudgetRuns.LedgerIsExact`.
- A paused reconcile records the new revision next to the old step, and once that is saved the ramp does not start over:
  `RolloutStatus.RampRestartsUnlessPaused`, with an instance in `RolloutStatus.PausedRampJumps`.
- A batch whose status update is refused has been deleted but is not recorded, and the next reconcile goes on from what
  is stored: `RolloutStatus.RampOverRuns` counts recorded batches. When a ramp is left for another revision and then gone
  back to, it goes on where it was if and only if nothing saved has changed the status meanwhile:
  `RolloutStatus.RampGoesOnIffNothingSaved`, with an instance in `RolloutStatus.RefusedUpdateIsForgotten`.
- A pod that has been removed and is not back yet is in no list and in no replica count, so that a reconcile may delete
  pods of another zone beside it: `RolloutBlindSpot.TwoZonesDisturbed`. A reconcile keeps the rollout safe if and only if
  it takes no ready pod, or the pods it has removed are in the first zone and within the limit together with what it
  takes: `RolloutSafety.ReconcileIsSafeIff`.
- The README says the controller waits for deleted pods to become ready. It deletes while some labelled pod is not up if
  and only if the old pods that are not ready have one known zone between them, the first of all old pods; those of
  unknown zone are overlooked: `RolloutDecisions.DeletesWhileNotReadyIff`, with an instance in
  `RolloutDecisions.NotReadyPodIsDeleted`. Ready pods do wait for all to be ready: `RolloutDecisions.DeletesReadyIff`.
- The API comment says that the step grows whenever pods are deleted. It grows if and only if all deletes of a batch go
  through and the update is saved, so a batch that fails half way leaves it alone, while an empty one or one in dry run
  moves it: `RolloutDecisions.StepMovesIff`, with an instance in `RolloutDecisions.OneOfTwoDeleted`.
- The API comment says that old replicas are those of the current revision. While there is a new one, the counts are
  that if and only if all old pods of known zone are at it: `RolloutDecisions.CountsCurrentIff`, with an instance in
  `RolloutDecisions.ThirdRevisionIsCounted`; what is counted in general is in `RolloutDecisions.CountsAllOldPods`.
- A factor strictly between 0 and 1, or a limit below one pod, makes batches of no pods: `RampArithmetic.ProgressIff`.
- When there are old pods and none has a known zone, a reconcile that is not stopped before that indexes an empty list:
  `RolloutDecisions.CrashIff`, with an instance in `RolloutDecisions.UnscheduledPodCrashes`.

## Model

| member | source | states |
|---|---|---|
| Pods.GroupStep | pkg/podzone/helper.go:29-33 | one pod more extends the list of its own zone at the end, or opens it, and touches no other; a pod of unknown zone changes nothing |
| Pods.GroupsPartition | pkg/podzone/helper.go:21-36 | grouping partitions the pods of known zone: each is in the group of its zone and in no other, nothing else is in any, and no group is empty |
| PodZone.Helper.GetPodZone | pkg/podzone/helper.go:47-72 | the zone label of the pod's node when it can be read, whatever the cache holds, and otherwise what the cache holds; the cache learns exactly what was read and forgets nothing |
| PodZone.Helper.GetZonePodsMap | pkg/podzone/helper.go:21-36 | the groups are the pods appended one by one by the zone found at that moment; for distinct names, the order-preserving partition by the zones the cache ends up with |
| PodZone.PlacedIsGroup | pkg/podzone/helper.go:23-34 | building groups while the cache is still learning gives the same as grouping by the final cache |
| PodZone.CacheHoldsLookups | pkg/podzone/helper.go:47-72 | after a pass the cache agrees with the zone every pod was given, and no pod's lookup depends on the others |
| PodZone.CacheIsSettled | controllers/zau_controller.go:168-178 | grouping some of the same pods a second time, as the rollout does for those not ready, teaches the cache nothing |
| PodZone.ZoneSurvivesNodeLoss | pkg/podzone/helper.go:49-56 | a pod placed once keeps its zone when its node can no longer be read |
| PodZone.Helper.GetSortedZonesFromMap | pkg/podzone/helper.go:38-45 | every zone exactly once, each before all that follow in lexical order |
| Seqs.LessIsLexical | pkg/podzone/helper.go:43 | a string comes before another exactly when the other goes on where it ends, or has the greater character where the two first differ |
| SortMap.SortMapByValue | pkg/utils/sort_map.go:17-26 | every key exactly once, with values that never fall: the reversed comparison sorts ascending |
| ExpectedPods.Scaled | controllers/zdb_controller.go:168-171 | a percentage is the least integer not below it; a missing or malformed value is an error |
| ExpectedPods.EachControllerCountsOnce | controllers/zdb_controller.go:276-313 | the scale is found if and only if every referenced controller is, and then the table holds exactly the referenced controllers, each with its own scale |
| ExpectedPods.GetExpectedScale | controllers/zdb_controller.go:276-322 | the sum over distinct controllers, an error as soon as one cannot be found, and the unmanaged pods in order |
| ExpectedPods.PassShares | controllers/zdb_controller.go:187-196 | a further pass over the first m of n zones turns the shares of d dealt pods into those of d + m |
| ExpectedPods.DealPass | controllers/zdb_controller.go:189-195 | one pass gives one pod to each zone in order until the total is reached, and never overshoots it |
| ExpectedPods.DealMissing | controllers/zdb_controller.go:186-196 | the nested loops end, and the zone of rank i has gained the quotient of shortfall by zones, plus one if i is below the remainder |
| ExpectedPods.LowerBounds | controllers/zdb_controller.go:198-203 | desired is expected less the limit, and never negative |
| ExpectedPods.GetExpectedPodCount | controllers/zdb_controller.go:153-206 | the expected counts have the observed zones, add up to the larger of controller scale and listed pods, are nowhere below the observed counts and share out what is missing evenly, zones with fewer pods first; desired is less by the limit; it fails exactly when a controller or the limit cannot be read, and then leaves the cache alone |
| TopUpFacts.TopUpReachesTotal | controllers/zdb_controller.go:181-196 | the expected counts add up to the larger of controller scale and observed pods, or to nothing when no zone is known |
| TopUpFacts.TopUpKeepsBalance | controllers/zdb_controller.go:186-196 | no two zones end further apart than they were, or than one pod |
| TopUpFacts.TopUpIsSharedOut | controllers/zdb_controller.go:181-196 | every zone keeps what it has, gains differ by at most one pod, zones with fewer pods gain no less, no two end further apart than they were or than one pod, and the total is reached |
| TopUpFacts.RankedValueAtMost | pkg/utils/sort_map.go:13-24 | any two ascending orders of a map have the same value at the same rank |
| TopUpFacts.TiesDoNotMatter | controllers/zdb_controller.go:186-196 | the zone of a given rank is expected to have the same count whichever way the unstable sort breaks ties |
| TopUpFacts.TopUpCountsAreFixed | controllers/zdb_controller.go:186-196 | the number of zones expected to hold any given count is independent of tie-breaking |
| ZdbStore.Store.UpdateStatus | controllers/zdb_controller.go:375-378 | a status update takes effect exactly when the copy is of the newest version, replaces nothing but the status, and leaves no trace on conflict |
| ZdbStore.Copy.Refresh | webhooks/eviction_webhook.go:159-161 | reading again overwrites the whole private copy |
| ZdbController.BuildDisruptedPodMap | controllers/zdb_controller.go:210-240 | exactly the records of present, non-terminating pods whose deadline is not before now, unchanged; the recheck is the earliest of their deadlines |
| ZdbController.CountHealthyPods | controllers/zdb_controller.go:244-272 | per zone, the number of its pods that count as healthy, and the rest |
| ZdbController.CountZone | controllers/zdb_controller.go:248-267 | the inner loop counts the pods of one zone that are not terminating, not about to be deleted, and running and ready |
| ZdbController.AllowDisruptions | controllers/zdb_controller.go:330-355 | a zone is allowed its room above the desired count if no other zone has unhealthy pods, and nothing otherwise; never a negative number |
| ZdbController.UpdateStatus | controllers/zdb_controller.go:326-383 | at most one new version, which holds the whole computed status and the copy's generation; nothing is written when nothing has changed or the copy is stale |
| ZdbController.Sync | controllers/zdb_controller.go:103-128 | one reconcile either aborts without effect, or leaves the object as it is, or adds one version holding the status computed from this copy, these pods and this time |
| BudgetFacts.HealthyCount | controllers/zdb_controller.go:210-267 | the healthy count of a zone is the number of its serving unrecorded pods plus those whose record expires right now |
| BudgetFacts.HandOff | controllers/zdb_controller.go:230-257 | the healthy count is the number of serving unrecorded pods if and only if no serving pod of the zone is on record with a deadline equal to now |
| BudgetFacts.CountsCoverZone | controllers/zdb_controller.go:247-270 | healthy and unhealthy add up to the size of the zone, and nothing is unhealthy exactly when every pod counts as healthy |
| BudgetFacts.RecordedPodHasOneFate | controllers/zdb_controller.go:219-267 | a recorded pod still there is exactly one of: terminating and dropped, kept and unhealthy, expired and judged by readiness |
| BudgetFacts.UnhealthyShows | controllers/zdb_controller.go:330-335 | a pod that does not count as healthy makes its zone a disrupted one |
| SyncFacts.SyncExpects | controllers/zdb_controller.go:160-203 | in every status a sync writes, the expected counts share out the scale of the controllers over the pods listed per zone, and the desired ones are less by the scaled limit |
| SyncFacts.SyncExpectsAll | controllers/zdb_controller.go:179-196 | with a zone known, they add up to the larger of the scale and the number of listed pods of known zone |
| SyncFacts.SyncRecords | controllers/zdb_controller.go:210-240 | a record is kept, unchanged, if and only if its pod is listed and not terminating and its two minutes are not over |
| SyncFacts.RecheckIff | controllers/zdb_controller.go:230-237 | a look at the same pods later on still keeps all records if and only if it is not after the recheck time |
| SyncFacts.SyncCounts | controllers/zdb_controller.go:244-272 | for exactly the zones of listed pods, healthy is the number of pods running, ready, not terminating and not on record within two minutes, unhealthy the number of the others |
| SyncFacts.SyncAllows | controllers/zdb_controller.go:330-355 | a zone is allowed its room above the desired count if every pod of any other zone is healthy, whether or not its own are, and nothing otherwise |
| EvictionWebhook.CheckAndDecrement | webhooks/eviction_webhook.go:184-249 | refuses or passes without touching copy or store; otherwise the copy has one allowance less in the zone and the pod on record, and the store takes exactly that if the copy was newest |
| EvictionWebhook.DecideIff | webhooks/eviction_webhook.go:185-243 | an attempt is refused unless the observed generation is current, the zone can be read and has an allowance, and at most 2000 pods are on record; in dry run it then passes, and otherwise takes one allowance of the zone, records the pod at that time and changes nothing else |
| EvictionWebhook.AsksIff | webhooks/eviction_webhook.go:118-150 | a budgeted pod asks for an allowance exactly when it is ready, not terminating, running or of unknown phase, and not on record |
| EvictionWebhook.BypassAgreement | webhooks/eviction_webhook.go:118-150 | a pod let through without an allowance counts as unhealthy, except exactly when it is up and on record past its deadline |
| EvictionWebhook.ExpiredRecordBypasses | webhooks/eviction_webhook.go:147-150 | an instance: a healthy pod with an expired record is let through |
| EvictionWebhook.ScreenedOrBypassed | webhooks/eviction_webhook.go:118-150 | without dry run, a budgeted pod is answered before the retry loop exactly when it bypasses the budget, and then it is allowed |
| EvictionWebhook.TryOnce | webhooks/eviction_webhook.go:153-170 | one attempt reads again if it must, whatever version the cache holds, and then decides on its copy and commits only if that is still the newest |
| EvictionWebhook.RoundEndIff | webhooks/eviction_webhook.go:153-170 | how each attempt ends, exactly: on the copy given at first and on what the cache holds at every retry, by lack of the object, refusal, passing in dry run, a commit if that version is the newest, or another round |
| EvictionWebhook.Contend | webhooks/eviction_webhook.go:152-181 | the loop goes on exactly as long as attempts conflict, at most 20 times; without dry run it allows if it has made a commit of its own and denies if not, in dry run it allows and commits nothing |
| EvictionWebhook.AllowedMeansCommitted | webhooks/eviction_webhook.go:152-181 | without dry run the answer is to allow if and only if the handler has made one commit, decided on the newest version whatever others wrote and however outdated the cache was, and to deny if and only if it has not; in dry run it is to allow, without a commit |
| EvictionWebhook.DeniedForAReason | webhooks/eviction_webhook.go:153-178 | a denial means that the last attempt was refused or could not read the object, or that every attempt was made on an outdated copy or lost to a commit of somebody else after its read |
| EvictionWebhook.Handle | webhooks/eviction_webhook.go:85-182 | one answer per kind of request: other operations and other creations are allowed, an undecodable eviction is an error, an unreadable pod or budget list is an error and allowed in dry run, pods that are over, on their way out, not ready, without a budget or on record are allowed, all without touching the store; a dry run of the request or of the budget never denies and never commits; all others are allowed with a commit of their own or denied without one |
| EvictionHandlers.BeginIsScreened | webhooks/eviction_webhook.go:87-150 | a handler in a run of the budget begins as the webhook screens the request: let through or to decide, with the dry run of the request or of the budget |
| EvictionHandlers.AttemptIsRound | webhooks/eviction_webhook.go:153-181 | its attempts come to what a round of the retry loop comes to, answer and commit included, and it gives up after the twentieth |
| BudgetRuns.SyncedStatus | controllers/zdb_controller.go:330-373 | every status a sync writes is of the generation it read, allows no negative numbers, and a positive allowance is the room of the only disrupted zone |
| BudgetRuns.AllowancesStayNatural | webhooks/eviction_webhook.go:202-231 | in every history no allowance is ever negative |
| BudgetRuns.Ledger | webhooks/eviction_webhook.go:202-240 | between syncs, allowance left plus grants made is exactly the allowance written, newly recorded pods never outnumber the grants, and nothing else in the status moves |
| BudgetRuns.ObservedNeverAhead | controllers/zdb_controller.go:363-373 | in every history the observed generation never exceeds the generation |
| BudgetRuns.CurrentMeansUnchanged | controllers/zdb_controller.go:363-373 | while the generation is that of the last sync, the spec is too, and only grants have happened since |
| BudgetRuns.GenerationFence | webhooks/eviction_webhook.go:185-191 | every grant spends allowances of a sync computed from the very spec in force at the grant, with only grants in between |
| BudgetRuns.SpendingIsPositive | webhooks/eviction_webhook.go:202-224 | a grant finds a positive allowance in its zone and a current generation, and changes neither generation nor spec |
| BudgetRuns.GrantsFollowTheDisruptedZone | controllers/zdb_controller.go:337-355 | a grant is in the one zone its sync found unhealthy pods in, if any; after a sync that saw two such zones there is none |
| BudgetRuns.GrantsArePaidFor | controllers/zdb_controller.go:198-203 | all grants to a zone since its sync together leave the counted healthy pods at the desired count or above |
| BudgetRuns.AllowanceAtSync | controllers/zdb_controller.go:337-355 | the sync a grant spends from had computed a positive room above the desired count for that zone |
| BudgetRuns.LimitAtSync | controllers/zdb_controller.go:160-203 | from a sync to the next, the desired count of every zone is short of the expected one by at most maxUnavailable of the spec that sync has read, scaled by the controllers of the pods it has listed |
| BudgetRuns.LimitInForce | controllers/zdb_controller.go:160-203 | from a grant until the next sync that limit is, at the scale its sync has found, the maxUnavailable of the spec in force at the grant |
| BudgetRuns.LedgerIsExact | webhooks/eviction_webhook.go:147-167 | between syncs the pods newly on record account for every allowance spent if and only if no pod was granted while on record in the version it was decided on |
| BudgetSafety.Serializability | webhooks/eviction_webhook.go:152-170 | in every run of any number of handlers and reconcilers on stale copies, the committed versions form a run of the atomic specification, and grants answered and grants committed correspond one to one |
| BudgetSafety.SerialStep | controllers/zdb_controller.go:367-378 | every single event keeps the history atomic |
| BudgetSafety.GrantsMatchStep | webhooks/eviction_webhook.go:231-245 | every single event keeps handlers and commits matched: a conflict or refusal adds no version |
| BudgetSafety.InitiallySerial | controllers/zdb_controller.go:80-99 | a newly created budget starts such a run |
| BudgetSafety.FreshSyncIsBacked | controllers/zdb_controller.go:198-203 | in every zone where a sync counts at least the desired number of healthy pods, serving unrecorded pods and those just expiring cover that number and the allowance it writes |
| BudgetSafety.GrantStaysBacked | webhooks/eviction_webhook.go:231-240 | a grant costs its zone at most the one pod it pays for, and other zones nothing |
| BudgetSafety.ChangeStaysBacked | controllers/zdb_controller.go:251-266 | terminations, replacements and recoveries take nothing from a zone that is not charged |
| BudgetSafety.BackedStep | webhooks/eviction_webhook.go:218-245 | every single event keeps every such zone covered, on the object and in every status about to be written |
| BudgetSafety.BudgetSafety | controllers/zdb_controller.go:337-355 | at every moment of every run, a zone in which the last sync counted at least the desired number of healthy pods, granted or not, has that number of serving unrecorded pods plus what may still be granted, short only of charged pods, of which `BudgetGrace.OnlyFailuresAreCharged` says that they have failed |
| BudgetSafety.GrantedZoneIsMet | controllers/zdb_controller.go:337-355 | a zone granted an eviction since the last sync is one of those |
| BudgetSafety.WithinLimit | controllers/zdb_controller.go:160-203 | at every moment of every run such a zone is short of its expected count by at most the scaled limit of the last sync and the pods charged, that is failed |
| BudgetSafety.GrantWithinLimit | webhooks/eviction_webhook.go:185-240 | in particular from a grant until the next sync, with the limit of the spec in force at the grant |
| BudgetContinuity.SyncCountsAvailable | controllers/zdb_controller.go:219-267 | a sync counts every pod that was serving and unrecorded before it: pruning frees pods and takes none |
| BudgetContinuity.InheritsStep | controllers/zdb_controller.go:367-378 | every event keeps this: a reconcile about to write on the newest version finds an uncharged zone met that was met before, unless it raises its desired count |
| BudgetContinuity.SafetyAcrossSyncs | controllers/zdb_controller.go:103-128 | once a sync has counted healthy >= desired in a zone, and while nothing is charged and no sync raises its desired count, the zone has its desired number of serving unrecorded pods plus what may still be granted, across any number of syncs, grants and timeouts |
| BudgetGrace.OnRecordStep | controllers/zdb_controller.go:210-240 | every event, syncs among them, keeps a granted pod on record on the object and in every status that may still be written, while it is listed, not terminating and not past its deadline |
| BudgetGrace.GrantedStaysOnRecord | webhooks/eviction_webhook.go:231-240 | in every run, from the commit that grants a pod it stays on record for as long as that |
| BudgetGrace.NotCharged | controllers/zdb_controller.go:251-266 | when a pod on record stops serving it is charged neither on the object nor to any reconcile that may still write |
| BudgetGrace.OnlyFailuresAreCharged | controllers/zdb_controller.go:210-267 | in every run only pods that stopped serving without a grant in time, or were read from the newest version on their deadline, are ever charged |
| BudgetPaidFor.SafetyUnderFailures | controllers/zdb_controller.go:337-355 | at every moment of every run, a zone met at the last sync has its desired number of serving unrecorded pods plus what may still be granted, short only of its pods that have failed |
| BudgetPaidFor.SafetyWithoutFailures | controllers/zdb_controller.go:337-355 | in runs in which none of its pods fails it is short of nothing |
| BudgetPaidFor.WithinLimitWithoutFailures | controllers/zdb_controller.go:160-203 | in such runs it is short of its expected count by at most the scaled limit of the last sync |
| BudgetPaidFor.GrantWithinLimitWithoutFailures | webhooks/eviction_webhook.go:185-240 | in such runs a zone granted an eviction since the last sync is short of its expected count by at most the limit of the spec in force at the grant |
| BudgetPaidFor.SafetyAcrossSyncsWithoutFailures | controllers/zdb_controller.go:103-128 | from a sync that has found a zone met, and while none of its pods fails and no sync raises its desired count, the zone keeps its desired number of serving unrecorded pods across any number of syncs, grants, evictions and timeouts |
| BudgetExample.FirstSync | controllers/zdb_controller.go:103-128 | for serving pods without controllers the first sync writes all of them as healthy and expected, and allows what the limit leaves |
| BudgetExample.GrantHappens | webhooks/eviction_webhook.go:184-249 | from a new budget over any serving pods there is a run that grants the eviction of any of them: the runs spoken of exist |
| BudgetExample.TwoZonesGranted | api/v1/zdb_types.go:41-43 | there is a run that grants pods of two zones without a sync in between, so that both are on record |
| BudgetExample.OnePodGrantedTwice | webhooks/eviction_webhook.go:152-170 | there is a run in which two handlers begin on one pod, one commits, the other conflicts, reads again and commits: two allowances are spent for one record |
| BudgetRaces.SpecChangeRefuses | webhooks/eviction_webhook.go:185-191 | there is a run in which the spec changes after a sync and a handler that has read that is refused, whatever allowances are left |
| BudgetRaces.LostRaceRefuses | webhooks/eviction_webhook.go:152-181 | there is a run in which two handlers read one version, one commits, and the other conflicts, is handed the outdated version again, conflicts again, and is refused when the object cannot be read |
| BudgetEviction.EvictionInTime | controllers/zdb_controller.go:210-240 | from a new budget over any serving pods there is a run in which a pod is granted, a sync a minute later keeps it on record, and it then goes, without counting as failed |
| BudgetExclusivity.FreshSyncConfines | controllers/zdb_controller.go:330-355 | a sync at whose instant no record expires allows disruptions only in the zone that holds all unavailable pods |
| BudgetExclusivity.ExclusiveStep | webhooks/eviction_webhook.go:218-240 | every orderly event keeps unavailable pods in one zone |
| BudgetExclusivity.ZoneExclusivity | controllers/zdb_controller.go:330-355 | in every run with a sync between grants, replacement in place and nothing charged, unavailable pods never span two zones |
| BudgetPaidFor.ExclusivityWithoutFailures | controllers/zdb_controller.go:330-355 | from the beginning, with a sync between grants, replacement in place and no pod failing, unavailable pods that lie in one zone at first always do |
| BudgetExclusivity.SecondZoneBeforeSync | api/v1/zdb_types.go:41-43 | after a grant, another zone is granted too exactly when it had an allowance and the records are not too many |
| BudgetExclusivity.OneZoneAllowed | controllers/zdb_controller.go:337-350 | a sync opens at most one zone if and only if it found an unhealthy pod or at most one zone with room |
| RampArithmetic.CapBounds | controllers/zau_controller.go:368-385 | for a positive limit and a factor of 0 or at least 1, the batch limit is between one and maxUnavailable, never falls, and starts at one pod when the factor is not 0 |
| RampArithmetic.CapMonotone | controllers/zau_controller.go:378-384 | a later step never has a smaller batch limit |
| RampArithmetic.PowAdds | controllers/zau_controller.go:378 | the power is the factor at step one, and steps add up as exponents do |
| RampArithmetic.CapIs | controllers/zau_controller.go:368-385 | without a factor the limit of a step is maxUnavailable, otherwise the greatest whole number up to it, the greatest int32 and the power of the factor, with the fraction dropped below zero too |
| RampArithmetic.ProgressIff | controllers/zau_controller.go:374-384 | every step may delete something if and only if the limit is positive and the factor is 0 or at least 1 |
| RampArithmetic.ClampIsUnobservable | controllers/zau_controller.go:379-381 | the cut at the largest int32 never changes the result for a limit that is an int32 |
| RampArithmetic.DoublingIsShort | controllers/zau_controller.go:378-384 | doubling reaches the limit within its rounded-up binary logarithm |
| RampArithmetic.GrowthReaches | controllers/zau_controller.go:378-384 | a factor that exceeds one reaches the limit within the limit divided by the excess |
| ZauController.FirstZone | controllers/zau_controller.go:169-176 | the zone no other zone comes before |
| ZauController.FirstZonePrecedes | controllers/zau_controller.go:169-176 | the first zone is the one that precedes all others in lexical order |
| ZauController.ZoneAwareUpdate.UpdateZauStatus | controllers/zau_controller.go:262-306 | the fields take the given values and the replica counts are merged; no update is sent when nothing differs |
| ZauController.ZoneAwareUpdate.MergeLoops | controllers/zau_controller.go:283-296 | zones ever recorded keep an entry, zero for those without old pods, and new zones get theirs |
| ZauController.DeletePods | controllers/zau_controller.go:328-366 | deletes a prefix of the pool as large as the ramp allows, stops at the first refusal and then records nothing |
| ZauController.SortPods | controllers/zau_controller.go:234-249 | the pods by descending ordinal |
| ZauController.Scan | controllers/zau_controller.go:126-154 | stops on a terminating pod or an updated one not ready; otherwise the labelled pods of other revisions, and those of them not ready, in order |
| ZauController.StatefulSet.UpdateStatefulSetRevision | controllers/zau_controller.go:251-260 | the current revision becomes the update revision, with an update only if they differ |
| ZauController.ChooseZone | controllers/zau_controller.go:165-205 | decides on zones, readiness and the alarm as the plan does, whose every outcome is in `RolloutOutcomes` |
| ZauController.MakePlan | controllers/zau_controller.go:113-205 | what a reconcile decides, from scan to alarm |
| ZauController.CarryOut | controllers/zau_controller.go:156-208 | what it then does to status, revision and pods |
| ZauController.UpdateStatefulSet | controllers/zau_controller.go:113-209 | one reconcile has exactly the effect of its plan; only a completed rollout moves the current revision |
| ZauController.SortKeepsNames | controllers/zau_controller.go:165-166 | sorting the selected pods is a permutation of them in descending order of ordinal |
| RolloutOutcomes.StopIff | controllers/zau_controller.go:114-117 | the set is left alone exactly when its update strategy is not OnDelete and there is no dry run |
| RolloutOutcomes.WaitIff | controllers/zau_controller.go:126-192 | a reconcile waits exactly when a pod is terminating or updated but not serving, or when pods or replicas are down and the known zones of the old pods that are down are not just the next zone |
| RolloutOutcomes.CompleteIff | controllers/zau_controller.go:156-163 | a rollout is taken as complete exactly when nothing holds it up and no labelled pod is at another revision |
| RolloutOutcomes.PauseIff | controllers/zau_controller.go:194-205 | a reconcile pauses if and only if nothing holds it up, an old pod has a known zone, all old pods and all replicas are ready, and the alarm it heeds is in alarm |
| RolloutOutcomes.AlarmFailureIff | controllers/zau_controller.go:194-200 | it fails over the alarm if and only if the same holds and the alarm it heeds cannot be read |
| RolloutOutcomes.DeleteIff | controllers/zau_controller.go:177-208 | it deletes in all other cases: from the zone that precedes all others, from the highest ordinal down, all old pods there or, while any is down, just those that are |
| RolloutOutcomes.PauseEffect | controllers/zau_controller.go:200-204 | a pause deletes nothing, asks to be called again, and leaves a status that reads paused at this revision with these counts and with step and last batch as they were |
| RolloutOutcomes.RecheckIffPause | controllers/zau_controller.go:94-111 | only a pause asks to be called again, and only an empty list of zones panics |
| RolloutOutcomes.AlarmFailureEffect | controllers/zau_controller.go:196-199 | an unreadable alarm fails the reconcile, deletes nothing and leaves the status alone |
| RolloutOutcomes.IdleEffect | controllers/zau_controller.go:113-193 | nothing to do or nothing to be done yet succeeds, deletes nothing and leaves the status alone |
| RolloutOutcomes.CompleteEffect | controllers/zau_controller.go:156-163 | the end of a rollout deletes nothing; it fails without a trace if the revision of the set is not saved, and otherwise reads step and last batch zero, no counts and no pause at the new revision, and succeeds if that is saved or nothing differs |
| RolloutOutcomes.BatchDeletes | controllers/zau_controller.go:344-363 | what is deleted is the front of the pool, as long as the batch or up to the first refusal, and nothing in dry run |
| RolloutOutcomes.BatchEffect | controllers/zau_controller.go:335-366 | a refused delete fails without a trace in the status; otherwise the step is one more than at this revision before, the size and the counts are recorded, a pause is over, and the reconcile succeeds if that is saved or nothing differs |
| RolloutOutcomes.NoSizeEffect | controllers/zau_controller.go:331-348 | a limit or a factor that cannot be read fails a batch, deletes nothing and leaves the status alone, and nothing else does |
| RolloutDecisions.CrashIff | controllers/zau_controller.go:113-176 | a reconcile panics if and only if the set or the dry run lets it proceed, nothing blocks, there are old pods, and none of them has a known zone |
| RolloutDecisions.UnscheduledPodCrashes | controllers/zau_controller.go:168-176 | an instance: the only old pod is pending, its node cannot be read and the cache does not know it |
| RolloutDecisions.DeletesWhileNotReadyIff | controllers/zau_controller.go:177-193 | a reconcile sets out to delete while some labelled pod is not up if and only if it may proceed, nothing blocks, and the known zones of the old pods that are not ready are just the first zone of the old pods |
| RolloutDecisions.NotReadyPodIsDeleted | controllers/zau_controller.go:177-188 | an instance: of two old pods that are not ready the one of known zone is deleted |
| RolloutDecisions.DeletesReadyIff | controllers/zau_controller.go:126-205 | a ready pod is to be deleted if and only if the reconcile may proceed, nothing blocks, all old pods are ready, all replicas are, some old pod has a known zone and no alarm stands in the way; the pool is then the whole first zone, and any other pool has no ready pod in it |
| RolloutDecisions.StepMovesIff | api/v1/zau_types.go:79-82 | the stored step moves by one if and only if all deletes of the batch go through and the update is saved; pods go without it exactly when some but not all of them do, or the update is not saved |
| RolloutDecisions.OneOfTwoDeleted | controllers/zau_controller.go:352-365 | an instance: the second of two deletes is refused, one pod is gone and the stored status is as before |
| RolloutDecisions.CountsAllOldPods | controllers/zau_controller.go:168-174 | the count of a zone is the pods of the current revision, none when the set goes back to it, and those of any third revision |
| RolloutDecisions.CountsCurrentIff | api/v1/zau_types.go:74-77 | while there is a new revision the counts are those of the current revision if and only if every old pod of known zone is at it |
| RolloutDecisions.ThirdRevisionIsCounted | api/v1/zau_types.go:74-77 | an instance: with one pod at the current and one at a third revision two are counted |
| RolloutOrder.CutIsWhole | README.md:23-40 | the batches put together are the sequence: nothing lost, repeated or moved |
| RolloutOrder.CutBatch | README.md:15-40 | every batch of the cut stays in one zone and within the limit of its step, and falls short of it only by finishing the zone |
| RolloutOrder.CanonIsUnique | README.md:21 | the documented order is the only arrangement with zones ascending and ordinals descending |
| RolloutOrder.CanonAscends | README.md:21 | in the documented order zones follow in lexical order, and ordinals fall within a zone |
| RolloutOrder.FirstPoolLeads | controllers/zau_controller.go:165-176 | sorting by ordinal and grouping by zone yields the head of the documented order: the whole first zone, highest ordinal first |
| RolloutOrder.PoolThenRest | controllers/zau_controller.go:168-176 | the first zone's pods followed by all others in order are in the documented order |
| CleanRollout.ReconcileDeletesHead | controllers/zau_controller.go:344-365 | with everything ready, a reconcile deletes exactly the head of what is left of the documented order, cut by the ramp, and moves on one step |
| CleanRollout.NextIsTail | controllers/zau_controller.go:148-173 | once the deleted pods are back, what is left to do is the rest of the documented order |
| CleanRollout.RunIsCut | README.md:23-40 | deciding afresh at every reconcile carries out the documented sequence, batch by batch |
| CleanRollout.RunBatch | controllers/zau_controller.go:344-363 | the i-th reconcile deletes pods of one zone, as many as the ramp allows at its step or all that are left there |
| CleanRollout.RolloutFollowsSequence | README.md:21 | the deleted pods are the old pods in the documented order, each exactly once |
| RolloutFigures.FirstFigure | README.md:23-29 | a doubling rollout of the pods of the first figure, found in any order, at most four at a time, deletes the very ordinals drawn, batch by batch |
| RolloutFigures.SecondFigure | README.md:34-40 | without growth it goes as the second figure is drawn, ordinal by ordinal |
| RolloutFigures.PoolIsChopped | README.md:17 | the batches of one zone take its pods apart in order and are finished before those of the next, which go on with the same ramp |
| RolloutBounds.CeilRoundsUp | controllers/zau_controller.go:350 | n pods taken m at a time are n divided by m, rounded up |
| RolloutBounds.CutLength | controllers/zau_controller.go:344-365 | once the ramp has reached the limit the batches are exactly the full ones per zone; until then at most one more per step |
| RolloutBounds.FullBatchesByZone | controllers/zau_controller.go:168-176 | full batches add up zone by zone |
| RolloutBounds.StepsWithoutGrowth | controllers/zau_controller.go:374-376 | with factor 0 the number of deleting reconciles is exactly the sum over zones of pods by limit, rounded up |
| RolloutBounds.StepsOnceAtLimit | controllers/zau_controller.go:368-385 | if the ramp is at the limit from some step on, the number of deleting reconciles exceeds that sum by at most the steps left until then, and is exactly it from there on |
| RolloutBounds.StepsWithFactorOne | controllers/zau_controller.go:378-384 | with factor 1 it is exactly the number of old pods |
| RolloutBounds.StepsWithDoubling | controllers/zau_controller.go:378-384 | with factor 2 it exceeds that sum by at most the rounded-up logarithm of the limit, less the steps already taken |
| RolloutBounds.StepsWithGrowth | controllers/zau_controller.go:378-384 | with any factor above 1 it exceeds the sum by at most the limit divided by what the factor exceeds 1 by, less the steps already taken |
| RolloutBounds.StepsWithAnyGrowth | controllers/zau_controller.go:368-385 | with any factor of at least 1, or 0, it is at least that sum and at most the number of old pods |
| RevisionChange.RoundKeepsLayers | controllers/zau_controller.go:148-169 | a reconcile, by renewing the head of the old pods, keeps every pod of a later revision before every pod of an earlier one in the documented order |
| RevisionChange.RunResumes | controllers/zau_controller.go:148-173 | a rollout looked at after n reconciles goes on with the rest of the same batches |
| RevisionChange.RoundsGoOn | README.md:21 | after any number of reconciles the pods of later revisions still come first, and what is left is the rest of the sequence |
| RevisionChange.CourseIsLayered | README.md:21 | in every clean course through any number of distinct revisions, changed at any moment, the later a pod's revision has appeared the earlier the pod comes in the documented order |
| RevisionChange.NextRevision | README.md:21 | wherever such a course has got to, the next revision, new or old, starts a clean rollout that replaces exactly the pods not at it, each once, those of the latest revisions first |
| RevisionChange.NewerIsGone | README.md:21 | in that rollout, once a batch touches a pod of some revision, no later batch holds one of a newer revision |
| RevisionChange.Rollback | README.md:21 | going back to the original revision deletes exactly the pods of the abandoned one, each once |
| RolloutSafety.BatchIsBounded | controllers/zau_controller.go:344-352 | what a reconcile deletes is a prefix of its pool and no more than maxUnavailable |
| RolloutSafety.PoolFacts | controllers/zau_controller.go:176-208 | everything a reconcile may delete is labelled, in one zone and among the listed pods |
| RolloutSafety.ReadyPodsNeedAllReady | controllers/zau_controller.go:126-192 | a reconcile deletes only if no pod is terminating, and a ready pod only if every labelled pod is up; exactly when that is the case is in `RolloutDecisions.DeletesReadyIff` |
| RolloutSafety.ReconcileIsSafeIff | controllers/zau_controller.go:126-205 | from a safe state a reconcile leads to a safe one if and only if it takes no ready pod, or the pods the rollout has removed and not got back are in the first zone and, with as many old pods of that zone as the ramp allows, number at most the limit |
| RolloutSafety.NobodyMissing | controllers/zau_controller.go:176-205 | there is always room within maxUnavailable when every pod the rollout has removed is back in the list |
| RolloutSafety.StepIsSafe | controllers/zau_controller.go:350-363 | every reconcile with room, and every delete, refusal, removal, re-creation, recovery and failure of a pod, keeps what the rollout has taken in one zone and within the limit |
| RolloutSafety.RolloutSafety | README.md:15-19 | in every run in which reconciles find room, under arbitrary revisions, statuses, alarms, refused deletes and failing pods, the pods the rollout has taken or is about to delete lie in one zone and number at most the limit |
| RolloutBlindSpot.TwoZonesDisturbed | controllers/zau_controller.go:176-177 | a run without room: a pod of the first zone is deleted and removed, and before it is back a reconcile finds the rest ready and deletes a pod of the next zone |
| RolloutSafety.InitiallySafe | README.md:19 | a set whose pods are all there and up starts such a run |
| RolloutSafety.TroubleHappens | controllers/zau_controller.go:352-363 | deletes may be refused and pods may fail in such a run: a pod that fails is charged to itself |
| RolloutCycle.CleanRoundIsRun | README.md:19 | a reconcile that finds all pods ready, the deletes of its batch one by one, and the removal, re-creation and recovery of every pod are legal events of such a run, and end in the pods the clean rollout goes on with |
| RolloutCycle.CleanRolloutIsRun | README.md:15-21 | so a whole rollout without trouble is such a run, with room at every reconcile, and ends with all pods up and none at another revision |
| RolloutStatus.RecordShowsLatest | controllers/zau_controller.go:280-297 | after any calls the recorded old replicas show the latest count of every zone, zero by default, and no zone is forgotten |
| RolloutStatus.RepeatIsIdle | controllers/zau_controller.go:265-272 | repeating a call changes nothing |
| RolloutStatus.CompletionClears | controllers/zau_controller.go:156-163 | a reconcile without old pods either succeeds, and then the stored record reads zero for every zone and the step is zero at the new revision, or fails and stores nothing |
| RolloutStatus.EffectsAreEntries | controllers/zau_controller.go:156-208 | a reconcile changes the stored status exactly when its update is saved and it is a batch all of whose deletes go through, the end of a rollout whose revision is saved or up to date, or a pause; and then by exactly that entry |
| RolloutStatus.StepCountsBatches | api/v1/zau_types.go:79-82 | without pauses, the step is the number of batches recorded since the recorded revision changed or the rollout ended |
| RolloutStatus.RampRestarts | controllers/zau_controller.go:337-350 | in every run that saves no pause, the k-th batch recorded since then is within the k-th limit of the ramp, at the replicas its own reconcile found |
| RolloutStatus.RunIsLogged | controllers/zau_controller.go:85-90 | when every reconcile reads what is stored, the status after any run is accounted for by the log of what was saved |
| RolloutStatus.RampOverRuns | controllers/zau_controller.go:337-365 | in every run that saves no pause, under any revisions and whichever deletes and updates are refused, a reconcile deletes at most the limit for the batches recorded for its revision, the first at most one pod |
| RolloutStatus.RampRestartsUnlessPaused | controllers/zau_controller.go:202 | when a new revision appears in the middle of a ramp, the ramp starts over if and only if no pause has been saved since |
| RolloutStatus.PausedRampJumps | controllers/zau_controller.go:337-342 | an instance: one saved pause lets the first batch of a new revision delete sixteen pods instead of one |
| RolloutStatus.RampGoesOnIffNothingSaved | controllers/zau_controller.go:299-302 | when a ramp is left for reconciles at another revision and gone back to, it goes on where it was if and only if nothing saved has changed the status, and otherwise starts over |
| RolloutStatus.RefusedUpdateIsForgotten | controllers/zau_controller.go:299-302 | an instance: a batch of a new revision whose update is refused leaves the ramp of the stored revision where it was, at sixteen pods |

## Left out

- Label selectors, list calls, watches, requeueing, metrics and logging: the matching pods, the budget found for a pod and the answers of the API server are inputs.
- More than one matching budget: the source takes the first, and so does `EvictionWebhook.Found`.
- CloudWatch: the state of the alarm, or the failure to read it, is an input.
- Admission decoding and the parsing of the dry-run option: its result, or that it does not parse, is an input.
- Staleness of pod lists: the object may be read at any version, but a sync and a rollout reconcile see the pods as they are at that moment, and a sync reads its clock together with its list.
- The zone of a pod over time: runs of the budget and of the rollout use one fixed map from pod names to zones, with names unique in the namespace.
- Expiry of the zone cache and failures of the cache itself: the cache keeps what it has learnt.
- Deletion and re-creation of the budget object, and writers other than syncs, grants and spec changes.
- Widths of integers: counts, steps and generations are unbounded; only the cut at the largest int32 is kept.
- Rounding in floating point, infinities and NaN: the factor is an exact real and powers are exact.
- Precision of stored times: the API server keeps seconds, the model keeps the time as given.
- Absent as opposed to empty maps: the source compares them as different before an update, the model as equal, so it may skip an update that would write the same content.
- Pods whose name does not end in a number: an ordinal is a number, and clean rollouts have no two equal ones.
- The algorithm inside Go's sort package: sorting in place is modelled by insertion, and nothing but the order of the result is used where ties matter.
- The order in which maps are iterated is arbitrary in the model as it is in the source.
- ZauController.MakePlan: the source decides and acts in one function; the model splits it into a plan and its execution, joined again in `ZauController.UpdateStatefulSet`.
- ZdbController.CountZone: an inner loop of the source, written as a method of its own, like `ExpectedPods.DealPass`.
- BudgetSafety.BudgetSafety: a zone that the last sync has found below its desired count, because pods were charged or the count was raised, is allowed nothing and promised nothing until a sync finds it met again.
- BudgetExclusivity.ZoneExclusivity: does not hold without its conditions, as `BudgetExclusivity.SecondZoneBeforeSync` and `BudgetExclusivity.OneZoneAllowed` make precise.
- RolloutSafety.RolloutSafety: charges pods that stop serving on their own to a set of failed pods until they serve again without being up for deletion, and says nothing of those; assumes that a pod comes back under its name with a revision label and not ready, that one worker handles a StatefulSet at a time, and that reconciles find room beside the pods not back yet; without the last it fails, as `RolloutBlindSpot.TwoZonesDisturbed` shows.
- RolloutStatus.RampOverRuns: takes the spec as fixed over the run, starts from a step of zero, and has every reconcile read the status last stored.
- RevisionChange.CourseIsLayered: speaks of runs in which every reconcile finds all pods ready and revisions that do not come back; `RolloutSafety.RolloutSafety` covers the others.
