# Nexa scheduler: a verified model

Nexa is an out-of-tree Kubernetes scheduler for workloads that must not meet each other. Filter plugins
keep pods in their region, off dirty nodes and away from other organisations; a node state controller
records on each node which organisation ran there last and whether the node is still clean; an
attestation controller records which nodes proved their hardware; a webhook decides who may use which
labels; an audit plugin logs every decision, and a compliance report is computed from that log. This
project models these parts in Dafny and proves what they promise, most of it over whole runs.

## How the model is laid out

| file | what it models |
|---|---|
| `Labels.dfy`, `Objects.dfy`, `Wrappers.dfy` | label maps and JSON merge patches, pods and policies |
| `Instants.dfy`, `Rfc3339.dfy` | Go's int64 durations; timestamps as text, with a calendar, a printer and a reader |
| `Metrics.dfy`, `Region.dfy`, `Privacy.dfy`, `Confidential.dfy`, `Ranking.dfy` | the plugins, their counters, and what scoring can still decide |
| `WorkQueue.dfy`, `NodeState.dfy`, `Controller.dfy`, `Attestation.dfy` | the two controllers |
| `Cluster.dfy` | everything above as one state machine |
| `Agreement.dfy`, `Retry.dfy`, `WipeSafety.dfy`, `WipeEscapes.dfy`, `Isolation.dfy`, `AttestedRuns.dfy`, `Interleaving.dfy` | what holds in every reachable state |
| `Audit.dfy`, `Reader.dfy`, `Report.dfy`, `ReportLaws.dfy`, `Fidelity.dfy` | from a scheduling decision to the compliance report |
| `WebhookConfig.dfy`, `Webhook.dfy`, `Tenancy.dfy` | admission rules, admission histories, and admission together with scheduling |

Code that works step by step is a method over a class or an array, proved equal to a function; the
functions are what the state machine is made of and what the theorems are about. What those functions
mean is stated a second time in the terms of the outside world: label keys and values as they are spelled,
fields of pods and entries, dates. The lemmas called `...ByLabels`, `...ByName`, `...ByFields` and
`...ByArithmetic`, and the further `ensures` of the methods, do that.

In the state machine any event may fall between any two others. An informer's notice is delivered
later than the change it reports. A reconcile is four events (take the key, read the node, list the
pods, patch), and a patch may be done, refused, or done although the controller sees an error.
`Cluster.UninterruptedTurn` says that the four events in a row are one turn of the controller's loop.
The assumptions are: a read of a node sees earlier patches; filtering a node and binding the pod to it are
one step on the node's current labels and pods, as in one scheduler whose cache is up to date, on which
co-residency and the claims about high-privacy bindings rest; a key is never given to two workers
(`Cluster.Sound` keeps this as an invariant); a terminated pod does not change any more, while the labels
of a live pod may; nobody but the two controllers and the operator's wipe writes the labels the
controllers own; the set of nodes is fixed.

Strings stand for Go's byte strings, one character for one byte. Instants are nanoseconds since Go's zero
time. The policy a provider returns, the clock, the answers of listers, of the API server and of the
attestation service, and the JSON codec are parameters.

## What the proofs found

- `docs/verification.md:129` says that a wiped node accepts another organisation's high-privacy pod. The
  code rejects it as long as the node's last-workload-org differs (`Isolation.WipeDoesNotChangeOrganisation`);
  under strict isolation a node keeps its organisation for good (`Isolation.OrganisationIsSticky`).
- Without strict isolation organisations can share a node: a standard pod joins another organisation's
  high-privacy pod (`Isolation.NonStrictMixes`).
- A running pod without an organisation can be labelled for one that does not belong on its node. The
  webhook looks only at the namespace and no Filter runs again (`Tenancy.LabellingMixes`). Which steps are
  harmless is settled exactly, for organisations (`Isolation.StepCoResidency`) and for namespaces
  (`Tenancy.StepKin`).
- The clean mark may be trusted only on a node that the controller has settled or that has no finished pod
  listed (`WipeEscapes.UnsettledNodeAccepts` gives the two-event run that shows why).
- Even there it misleads in three ways, each shown by a run after which another organisation's
  high-privacy pod is admitted right behind an un-wiped workload:
  - The workload does not finish as a pod with an org label and a recorded time, for example because the
    pod is deleted while it runs (`WipeEscapes.DeletedWorkloadIsFollowed`; `WipeEscapes.MarkStaysExactly`
    and `WipeSafety.SettledCleanNodeWasWiped` say exactly when).
  - It does finish so, but its pod, the only trace of it, is removed before a worker lists the pods
    (`WipeEscapes.RemovedWorkloadIsFollowed`).
  - The controller fails on the node until it drops it after the last retry
    (`WipeEscapes.DroppedNodeMisleads`).

  `WipeSafety.StepGuardedExactly` says that the last two, and taking the wipe-on-complete label away, are
  all that must not happen.
- A successful verification that names no trust anchor leaves the previous anchor in place, and the
  Filter goes on accepting it (`AttestedRuns.AnchorMayBeStale`). An accepted anchor is the last
  verification's exactly when that one named any (`AttestedRuns.AcceptedMeansVerified`).
- Both freshness limits are exact up to 2562047 hours and wrong for every larger value
  (`Instants.FreshnessExact`).
- The log reader stops without a word at the first line of 64 KiB or more; everything after it is missing
  from the report (`Reader.ScanWritten`, `Reader.ReadableExactly`).
- `docs/architecture.md:75` and `pkg/metrics/metrics.go` list three reasons for isolation violations; the
  code has a fourth, `stale_wipe`, and the violations add up only with it (`Privacy.CountersBalance`).

## Model

| member | source | states |
|---|---|---|
| `Agreement.QueuedOrAgreesAlways` | pkg/nodestate/controller.go:47-180 | in every state reachable from an agreeing start, whatever lands between a reconcile's reads and its patch, a node is queued, being processed, waiting for a retry, on its way from the informer, dropped after its last retry, or its last-workload-org is the org of a latest-finished org-labelled pod still listed on it |
| `Agreement.InvariantOverRuns` | pkg/nodestate/controller.go:108-181 | the inductive form: what a worker has read stays current until its patch unless the node is queued again |
| `Agreement.PodStepNoticed` | pkg/nodestate/controller.go:47-81 | a pod change either leaves a node's finished pods alone or produces a notice for that node |
| `Agreement.GoodRoundAgrees` | pkg/nodestate/controller.go:129-181 | a round that ends without error leaves the node in agreement, unless the node was touched meanwhile and is going to be processed again |
| `Agreement.NodeStepKeepsOrg` | pkg/nodestate/attestation_controller.go:84-109 | operators and the attestation controller never move the org label |
| `Retry.RetriesAreBounded` | pkg/nodestate/controller.go:108-127 | with k notices for a node, under any pattern of failures, at most 6k rounds are started and at most 64k controller steps are taken for it |
| `Retry.SixRoundsExactly` | pkg/nodestate/controller.go:115-126 | the bound is tight: an always failing node is processed six times, then leaves the queue with nothing left behind |
| `Retry.WorkStepSpends` | pkg/nodestate/controller.go:108-127 | the measure: each step for a node costs fuel, each finished round costs budget, only a notice adds any |
| `Retry.ServedInTurn` | pkg/nodestate/controller.go:103-113 | no node starves: at place i of the line it is taken within the next i+1 turns of the workers |
| `Retry.NeverStuck` | pkg/nodestate/controller.go:103-127 | while the queue holds anything some worker can make progress, without a lister having to fail |
| `Retry.QueueDrains` | pkg/nodestate/controller.go:103-127 | the queue drains under any failures: while no notice comes in the workers take at most 192 steps per key, and where they cannot go on the queue is empty and no worker is busy |
| `Retry.CanDrain` | pkg/nodestate/controller.go:103-127 | from every state the workers can empty the queue |
| `WipeSafety.SettledCleanNodeWasWiped` | pkg/nodestate/controller.go:141-174 | over every careful run, a wipe-on-complete node that shows wiped=true and is settled, or has no finished pod listed, was wiped after the last org-labelled workload finished on it; after the last org-labelled departure of any kind if none was deleted alive or left no time; and after every departure if and only if none escaped the controller since the wipe |
| `WipeSafety.StepGuardedExactly` | pkg/nodestate/controller.go:108-181 | what the careful run must respect is exact: a step keeps the promise that an un-wiped node with the mark will be processed and found dirty if and only if it does not remove the only listed trace of the workload, does not give the node up after its last retry, and leaves the wipe-on-complete label |
| `WipeSafety.RemovalGuardedExactly` | pkg/nodestate/controller.go:66-81 | removing a finished pod keeps the promise if and only if it is not the only finished pod listed on a marked node that was not wiped since |
| `WipeSafety.HighPrivacyBindIsClean` | pkg/plugins/privacy/privacy.go:103-113 | so a pod labelled "high", or unlabelled under that default, bound to such a node never follows an un-wiped workload that finished there with an org label and a time, and none at all if and only if none escaped the controller since the wipe |
| `WipeEscapes.DeletedWorkloadIsFollowed` | pkg/nodestate/controller.go:141-174 | a pod deleted while running escapes: after a careful run from a clean start the node is settled and marked, and another organisation's high-privacy pod is admitted right behind it |
| `WipeEscapes.MarkStaysExactly` | pkg/nodestate/controller.go:66-181 | in every idle state, the controller's whole undisturbed reaction to the end of a workload leaves the mark on the un-wiped node if and only if the workload did not finish as a pod with an org label and a time, and no earlier finished pod is still listed |
| `WipeEscapes.InvisibleEndsKeepMark` | pkg/nodestate/controller.go:143-174 | over every run in which no workload ends visibly on a marked node without listed finished pods, the mark stays, whatever is deleted meanwhile |
| `WipeEscapes.LostTraceKeepsMark` | pkg/nodestate/controller.go:66-81 | once the only trace of an un-wiped workload is removed before a worker lists it, the mark stays over every run until another workload ends visibly |
| `WipeEscapes.RemovedWorkloadIsFollowed` | pkg/nodestate/controller.go:66-81 | a run on which a pod finishes and is removed before any worker lists the pods: the node ends settled and marked, and another organisation's high-privacy pod is admitted |
| `WipeEscapes.DroppedNodeMisleads` | pkg/nodestate/controller.go:115-126 | a run of a finish and six failed rounds: nothing is pending any more, the mark is still there, and another organisation's high-privacy pod is admitted |
| `WipeSafety.OwnPatchTakesMark` | pkg/nodestate/controller.go:168-180 | the patch of a round that saw the mark and a finished pod takes mark and timestamp away whatever came in between, and on a dirty node no round ends well with nothing pending and leaves the mark |
| `WipeSafety.OwnPatchGuarded` | pkg/nodestate/controller.go:115-126 | the end of a round, failed or not, keeps that promise unless the last retry failed without its patch being applied and nothing else brings the node back |
| `WipeEscapes.UnsettledNodeAccepts` | pkg/plugins/privacy/privacy.go:98-113 | on a node that is not settled this fails: a clean start and one event after which the Filter accepts |
| `Isolation.OrganisationsNeverShareANode` | pkg/plugins/privacy/privacy.go:67-101 | over every run, at most one non-empty organisation has running pods on a node, if the Filter looks at organisations for every org-labelled pod (strict policy or high level) and nobody else binds or labels a pod where another organisation runs |
| `Isolation.StepCoResidency` | pkg/plugins/privacy/privacy.go:67-101 | the condition is exact step by step: whoever binds, relabels, creates, finishes or deletes, the node stays with one organisation if and only if the pod placed or relabelled there is apart from all others |
| `Isolation.PlacingCoResidency` | pkg/webhook/handler.go:88-157 | binding a pod to a node, or relabelling it there, keeps the node to one organisation exactly when its organisation is empty or no other running pod has a different one |
| `Isolation.NonStrictMixes` | pkg/plugins/privacy/privacy.go:98-101 | a run of two bindings that a non-strict policy admits and that mixes organisations on an empty wiped node |
| `Isolation.NonStrictAdmitsAnyStandardPod` | pkg/plugins/privacy/privacy.go:69-101 | which placements a non-strict policy admits unconditionally, and that strict or high ones never meet another organisation |
| `Isolation.ChecksOrgExactly` | pkg/plugins/privacy/privacy.go:67-101 | over all nodes, pods and times, the Filter accepts a pod only where no other organisation runs if and only if the policy is enabled and strict or the pod's level high, or the pod has no organisation |
| `Isolation.OrganisationIsSticky` | pkg/plugins/privacy/privacy.go:70-96 | a node whose history and pods belong to one organisation keeps it under guarded binding, relabelling within the organisation, finishing, deleting, reconciling and wiping |
| `Isolation.PatchBelongs` | pkg/nodestate/controller.go:141-166 | a reconcile of such a node cannot write another organisation, even from old reads |
| `Isolation.WipeDoesNotChangeOrganisation` | pkg/plugins/privacy/privacy.go:152-161 | a freshly wiped empty node admits a high-privacy pod exactly when its last-workload-org is absent, empty or the pod's own |
| `AttestedRuns.AcceptedMeansVerified` | pkg/plugins/confidential/confidential.go:114-164 | over every run: acceptance under required attestation means that the last attestation patch came from a successful verification, no older than a limit of up to 2562047 hours; a required anchor is the one that verification named exactly when it named any, and in any case that of the last patched success that named one, or the node's at the start |
| `AttestedRuns.AnchorOverRuns` | pkg/nodestate/attestation_controller.go:98-100 | over every run the anchor label is that of the last patched success that named an anchor, or the node's at the start |
| `AttestedRuns.BackedOverRuns` | pkg/nodestate/attestation_controller.go:86-109 | the invariant: a node marked attested carries the time and anchor of the verification behind its last patch |
| `AttestedRuns.AttestationPatchEffect` | pkg/nodestate/attestation_controller.go:89-106 | an attestation patch fails closed, and takes over the time and, if there is one, the anchor |
| `AttestedRuns.AnchorMayBeStale` | pkg/nodestate/attestation_controller.go:98-100 | two verifications in a row, the second without an anchor: the Filter accepts the node for the first one's anchor, on every node and for every pod and policy that only attestation could stop |
| `AttestedRuns.FreshLabel` | pkg/plugins/confidential/confidential.go:126-150 | cutting the label to seconds errs only toward rejection, and by less than a second |
| `Attestation.PassIsPerNode` | pkg/nodestate/attestation_controller.go:72-81 | one pass gives every listed node what a visit of its own would, whatever failed before it, and touches no other node |
| `Attestation.PassOutcome` | pkg/nodestate/attestation_controller.go:72-109 | after a pass every listed node whose nexa.io/tee is neither empty nor "none" and whose patch was not refused is attested if and only if its own verification succeeded, whatever it carried before, with that verification's time and anchor; all other nodes keep all their labels |
| `Attestation.AttestationController.VerifyAllNodes` | pkg/nodestate/attestation_controller.go:65-82 | the loop computes that pass and so leaves that outcome; a lister error changes nothing |
| `Attestation.AttestationController.VerifyNode` | pkg/nodestate/attestation_controller.go:86-109 | the patch built step by step is the specified one; what it leaves on the node label by label, and when it counts as done |
| `Labels.InterleavingSeparates` | pkg/nodestate/controller.go:183-198 | merge patches over disjoint keys: every interleaving gives each writer's keys the value they have when it writes alone, null meaning delete (section 2 of RFC 7396) |
| `Interleaving.ControllersDoNotDisturb` | pkg/nodestate/attestation_controller.go:111-131 | the two controllers' patches are of that kind, whatever each of them had read |
| `NodeState.ScanFindsLatest` | pkg/nodestate/controller.go:141-156 | the scan finds the org and time of a latest finished pod, and nothing only if there is none |
| `NodeState.TiesGoToFirst` | pkg/nodestate/controller.go:152-155 | among pods that tie for the latest time the one listed first decides |
| `NodeState.ScanOrderIndependent` | pkg/nodestate/controller.go:143-156 | the latest time does not depend on the list's order, nor does the org unless different organisations tie |
| `NodeState.PatchEffect` | pkg/nodestate/controller.go:158-180 | what a reconcile's patch does to labels that changed since they were read: org, clean mark and timestamp as promised, nothing else |
| `NodeState.ReconcileFixpoint` | pkg/nodestate/controller.go:158-180 | reconciling again on the same list finds nothing to do |
| `NodeState.ReconcileFixpointAnyOrder` | pkg/nodestate/controller.go:143-166 | on a reordered list it finds something exactly when the scan picks another org, which takes a tie between organisations |
| `NodeState.FirstContainerDecides` | pkg/nodestate/controller.go:209-214 | the termination time is that of the first container with a real finish time, not of the latest |
| `NodeState.StartTimeDecides` | pkg/nodestate/controller.go:215-218 | without one it is the start time, or the zero time |
| `Controller.NodeStateController.LastWorkload` | pkg/nodestate/controller.go:141-156 | the loop computes the specified scan: the organisation and time of a listed pod that ended on the node with an org label and a time, than which none ended later, or "" if there is no such pod |
| `Controller.NodeStateController.PodTerminationTime` | pkg/nodestate/controller.go:209-219 | the loop computes the specified time |
| `Controller.NodeStateController.ReconcileNode` | pkg/nodestate/controller.go:129-181 | when a reconcile fails, and the node labels it leaves, for every outcome of the listers and the patch: a lister error is always a failure and changes nothing; otherwise it fails exactly if the labels read were stale and the patch was not seen to succeed |
| `Controller.RoundOutcome` | pkg/nodestate/controller.go:129-199 | the same of the rounds of the state machine, with the labels that result |
| `Controller.NodeStateController.ProcessNextWorkItem` | pkg/nodestate/controller.go:108-127 | one turn of a worker: the new queue and the new labels; after a lister error the node waits with its failure counted, unless it had failed five times before |
| `Controller.NodeStateController.PodUpdated` | pkg/nodestate/controller.go:48-57 | only the step of a pod on a named node from another phase into Succeeded or Failed is queued |
| `Controller.NodeStateController.HandlePodDelete` | pkg/nodestate/controller.go:66-81 | pods and tombstones that hold a pod are queued, anything else is ignored |
| `Controller.ApiServer.PatchNode` | pkg/nodestate/controller.go:194-199 | the effect and the reported outcome of a patch |
| `WorkQueue.OperationsWellFormed` | pkg/nodestate/controller.go:108-126 | the queue operations keep the contract: in line are exactly the keys that need work and are not being processed, each once |
| `Cluster.UninterruptedTurn` | pkg/nodestate/controller.go:108-127 | the machine's worker steps without interruption are one turn of the loop |
| `Cluster.UninterruptedFailure` | pkg/nodestate/controller.go:129-139 | and so is a turn in which the node lister, or after the node was read the pod lister, fails |
| `Cluster.ReadsInOneGo` | pkg/nodestate/controller.go:109-136 | the steps up to the patch are possible in a row, and what the worker then holds |
| `Privacy.Plugin.Filter` | pkg/plugins/privacy/privacy.go:56-179 | the decision with its reason, and the counters it leaves, for every policy, pod, node and clock; a pod labelled "high" is accepted only on a wiped node whatever the default, one labelled otherwise on any node without strict isolation, and one without the label as if it carried the default |
| `Privacy.AdmitsByLabels` | pkg/plugins/privacy/privacy.go:50-179 | acceptance in terms of the labels of pod and node: level, wipe mark and timestamp, organisations in history and among the running pods |
| `Privacy.OwnLevelFirst` | pkg/plugins/base.go:63-71 | the pod's own privacy label comes before the policy's default |
| `Privacy.DecideIsAdmission` | pkg/plugins/privacy/privacy.go:50-179 | the chain of checks accepts exactly the admissible placements, and gives each reason exactly when that check is the first to fail |
| `Privacy.CountersBalance` | pkg/plugins/privacy/privacy.go:56-179 | over every sequence of calls, from registration or any later moment: accepted + rejected + error = calls, policy successes = accepted + rejected, violations = rejected, and cross_org grows by at most the number of non-strict calls |
| `Privacy.NonStrictCallsCount` | pkg/plugins/privacy/privacy.go:69-81 | there are no such calls exactly when isolation is strict or the policy off in all of them |
| `Privacy.DecisionCounted` | pkg/plugins/privacy/privacy.go:56-179 | which counters each decision moves, by their label values |
| `Privacy.ScoreByLabels` | pkg/plugins/privacy/privacy.go:201-218 | 100 on a wiped node, 50 on an unclean one whose history is empty or the pod's own, for high-privacy pods only |
| `Privacy.Plugin.CheckWipe` | pkg/plugins/privacy/privacy.go:105-144 | the wipe mark and cooldown checks |
| `Privacy.Plugin.MeetsOtherOrg` | pkg/plugins/privacy/privacy.go:152-175 | the organisation checks on history and running pods |
| `Metrics.Base.GetPolicyOrFail` | pkg/plugins/base.go:38-47 | what fetching the policy records |
| `Metrics.Registry.Register` | pkg/metrics/metrics.go:36-71 | starts all counters at zero, from when on they count |
| `Metrics.Registry.RecordFilter` | pkg/metrics/metrics.go:74-78 | one increment after registration, none before |
| `Region.Filter` | pkg/plugins/region/region.go:45-91 | accepts exactly the nodes that meet every affinity asked for, and what it counts; a region or zone on the pod itself is always met |
| `Region.AdmitsByLabels` | pkg/plugins/region/region.go:45-91 | acceptance in terms of the labels: the pod's own region and zone, or else the policy's defaults, must be the node's |
| `Region.ScoreByLabels` | pkg/plugins/region/region.go:98-131 | 100 for the zone asked for, else 50 for the region asked for, else 0 |
| `Confidential.Filter` | pkg/plugins/confidential/confidential.go:61-168 | accepts exactly the nodes that meet every applicable requirement, and what it counts |
| `Confidential.Checks` | pkg/plugins/confidential/confidential.go:67-164 | the chain of checks is that condition |
| `Confidential.AdmitsByLabels` | pkg/plugins/confidential/confidential.go:61-168 | acceptance in terms of labels, runtime class and clock: TEE, encrypted disk, runtime class of pods that require confidentiality, attestation, its age and its anchor |
| `Confidential.ScoreByLabels` | pkg/plugins/confidential/confidential.go:185-219 | the score in terms of the labels |
| `Ranking.FilterDeterminesScore` | pkg/plugins/region/region.go:98-131 | among nodes that pass the region and privacy Filters both scores are fixed by the request, so any weighted sum ranks them by the confidential score alone, whether or not its Filter is enabled |
| `Ranking.ConfidentialMarks` | pkg/plugins/confidential/confidential.go:185-219 | where the confidential Filter passes, a TEE-needing pod scores 100 if the TEE type is the wanted one and 50 otherwise, never 0 |
| `Ranking.FeasibleScoresHighest` | pkg/plugins/region/region.go:98-131 | no node, feasible or not, gets better region or privacy marks than a feasible one |
| `Isolation.HalfMarksMeanWipeOpens` | pkg/plugins/privacy/privacy.go:201-218 | half marks in scoring go exactly to org-labelled high-privacy pods on unclean nodes that an operator's wipe would open to them |
| `Objects.FreshExactly` | pkg/plugins/privacy/privacy.go:116-143 | for limits up to 2562047 hours freshness is exact arithmetic on the parsed instant |
| `Instants.FreshnessExact` | pkg/plugins/privacy/privacy.go:135-136 | the wrapped and clamped int64 test agrees with exact arithmetic on all instants if and only if the limit is at most 2562047 hours |
| `Instants.FreshnessInRange` | pkg/plugins/confidential/confidential.go:143-144 | the same for the attestation limit, one pair of instants at a time |
| `Rfc3339.TextOrderIsTimeOrder` | pkg/compliance/report.go:97-102 | byte-wise order of printed timestamps is the order of the instants to the second, for all UTC years 0000-9999 (section 5.1 of RFC 3339) |
| `Rfc3339.UtcFaithful` | pkg/plugins/audit/logger.go:63-67 | reading back a printed timestamp gives the instant cut to the second |
| `Rfc3339.PrintOrder` | pkg/compliance/report.go:97-102 | fixed-width fields make text order the lexicographic order of the fields |
| `Rfc3339.StampOfSeconds` | pkg/plugins/audit/logger.go:65 | the calendar reading of an instant is a valid date and denotes that instant |
| `Rfc3339.PrintsDate` | pkg/plugins/audit/logger.go:65 | every instant is printed as the date and time that Gregorian arithmetic, without the calendar's own recursion, assigns to it, in the layout of section 5.6 of RFC 3339 |
| `Rfc3339.DaysBeforeYearClosed` | pkg/plugins/audit/logger.go:65 | the calendar's years in closed form |
| `Rfc3339.FourCenturies` | pkg/plugins/audit/logger.go:65 | 146097 days every 400 years |
| `Rfc3339.LeapYears` | pkg/plugins/audit/logger.go:65 | which years the closed form makes long |
| `Rfc3339.MonthLengths` | pkg/plugins/audit/logger.go:65 | the lengths of the months, 29 days in February exactly in long years |
| `Rfc3339.KnownDates` | pkg/plugins/audit/logger.go:65 | Go's zero time, the Unix epoch and a day of a leap year in full text |
| `Audit.Logger.LogDecision` | pkg/plugins/audit/logger.go:63-67 | appends one line: the entry at level INFO with the UTC time |
| `Audit.Logger.LogFilterDetail` | pkg/plugins/audit/logger.go:71-78 | appends a DEBUG line in debug mode only |
| `Audit.Plugin.PostBind` | pkg/plugins/audit/audit.go:66-75 | appends the line of a placement: event, node, the pod's name, namespace and four labels, and which policies were enabled |
| `Audit.Plugin.PostFilter` | pkg/plugins/audit/audit.go:80-128 | appends the summary and, in debug mode if there are any rejections, the details of a failure, field by field, with the rejections of all status codes |
| `Audit.RejectionsByCode` | pkg/plugins/audit/audit.go:86-105 | the rejections of several status codes are those of each, one after the other |
| `Audit.RejectionsOfOneCode` | pkg/plugins/audit/audit.go:88-91 | a code whose lookup fails adds none |
| `Audit.RejectionsListed` | pkg/plugins/audit/audit.go:92-103 | one rejection per node, in order, with its message or an empty one |
| `Reader.ReadEntries` | pkg/compliance/reader.go:22-44 | the loop decodes exactly the scanner's lines and numbers the malformed ones |
| `Reader.EveryLineAccounted` | pkg/compliance/reader.go:27-42 | entries + warnings + empty lines = lines, warning numbers strictly increase and point at undecodable lines |
| `Reader.ScanWritten` | pkg/compliance/reader.go:25-29 | scanning a log gives back the lines up to the first over-long one, each without a carriage return at its end |
| `Reader.ReadableExactly` | pkg/compliance/reader.go:25-29 | that is all of them if and only if none has more than 65535 bytes |
| `Reader.OneReturnDropped` | pkg/compliance/reader.go:25-29 | one carriage return is dropped, and only at the end of a line |
| `Fidelity.ReportCountsDecisions` | pkg/compliance/report.go:62-144 | for every history of placements, failures and foreign lines, read back and reported over any time span: per organisation exactly the placements, failures and shortfalls that occurred |
| `Fidelity.MissingMeansNoDecision` | pkg/compliance/report.go:68-77 | an organisation is missing from the report exactly when no decision about its pods was taken in the span |
| `Fidelity.LogGrows` | pkg/plugins/audit/logger.go:80-87 | each plugin call appends to the log what the history says |
| `Fidelity.SelectedAreContributions` | pkg/compliance/report.go:88-115 | what is selected from the log for an organisation is, in order, what its decisions contributed; debug details contribute nothing |
| `Report.FilterEntries` | pkg/compliance/report.go:88-106 | the loop keeps exactly the matching decisions, in order |
| `Report.KeepsByFields` | pkg/compliance/report.go:88-106 | which those are, by event, organisation and timestamp text |
| `Report.GroupByOrg` | pkg/compliance/report.go:109-115 | one group per organisation that occurs, each the organisation's entries in order |
| `Report.BuildOrgReport` | pkg/compliance/report.go:117-144 | the account of an organisation: totals, and the violations as descriptions of the violating entries in order |
| `Report.ViolatesExactly` | pkg/compliance/report.go:146-167 | an entry violates a standard exactly when it misses one of its requirements |
| `Report.StandardsByName` | pkg/compliance/report.go:20-24 | the three keys, the names they print as, and what each of them demands of an entry's labels and policies |
| `Report.ReasonIsFirst` | pkg/compliance/report.go:146-167 | the reason given is that of the first requirement missed |
| `Report.GenerateReport` | pkg/compliance/report.go:62-85 | keys other than hipaa, soc2 and gdpr are refused; otherwise the organisations are strictly ascending and complete, and each is accounted for by what the named standard demands, its violations identified field by field, in whatever order the map is visited |
| `Report.ReportIsDetermined` | pkg/compliance/report.go:71-77 | the result does not depend on map iteration order |
| `ReportLaws.AccountBalances` | pkg/compliance/report.go:124-142 | total = scheduled + failed = compliant + violations |
| `ReportLaws.TotalsCoverLog` | pkg/compliance/report.go:68-74 | the organisations partition the filtered entries: their totals add up to all of them |
| `ReportLaws.ReportsConcatenate` | pkg/compliance/report.go:88-144 | the report of a concatenated log adds counts and concatenates violations per organisation |
| `ReportLaws.FilterIsChronological` | pkg/compliance/report.go:97-102 | on logger-written timestamps the text filter keeps exactly the decisions of the closed interval |
| `ReportLaws.StandardsHierarchy` | pkg/compliance/report.go:20-24 | SOC 2 violations are among GDPR's and GDPR's among HIPAA's, in terms of what each demands, so compliant counts go the other way |
| `Webhook.ProvenanceOverHistories` | pkg/webhook/handler.go:88-157 | after any history of admitted requests every stored pod's org and privacy label is absent, empty or allowed for its namespace |
| `Webhook.ValidateExactly` | pkg/webhook/handler.go:88-157 | a request is allowed exactly when it is an update that leaves the nexa.io/ labels alone or the namespace's rule lists every label present |
| `Webhook.ValidateByLabels` | pkg/webhook/handler.go:88-157 | the decision on any request in terms of its labels and the rules: sub-resources pass, what is no pod does not, and without a rule no org or privacy label does |
| `Webhook.MayUseByRules` | pkg/webhook/config.go:59-72 | a namespace may use what its own rule lists, or the wildcard's if it has none |
| `Webhook.UnchangedExactly` | pkg/webhook/handler.go:160-176 | what counts as unchanged: every nexa.io/ key reads the same and none went away |
| `Webhook.AllowedMeansLegitimate` | pkg/webhook/handler.go:99-156 | an allowed request leaves legitimate labels, through the shortcut as well |
| `Webhook.StoredPrivacyIsKnown` | pkg/webhook/config.go:31-35 | with a validated configuration no stored pod has an unknown privacy level |
| `WebhookConfig.ValidateConfig` | pkg/webhook/config.go:74-92 | accepts exactly the rule lists with named, distinct namespaces and known privacy levels |
| `WebhookConfig.ApplyDefaults` | pkg/webhook/config.go:94-100 | every empty privacy list, and nothing else, becomes the full list, in place |
| `WebhookConfig.FinishParsing` | pkg/webhook/config.go:43-47 | only a valid configuration gets defaults, and it stays valid with them |
| `WebhookConfig.RuleForNamespace` | pkg/webhook/config.go:61-72 | the loop computes the first exact or else the last wildcard rule |
| `WebhookConfig.RuleIsLookup` | pkg/webhook/config.go:59-72 | on a valid configuration that is a lookup by namespace with "*" as default |
| `WebhookConfig.RuleOrderIrrelevant` | pkg/webhook/config.go:61-72 | whatever the order of the rules |
| `Tenancy.DisjointNamespacesNeverShareANode` | pkg/webhook/handler.go:136-144 | admission of pods and of label changes together with scheduling: org-labelled pods of namespaces that share no organisation never run on one node, if the Filter looks at organisations and nobody else binds a pod, or gives a running pod its first organisation, next to a pod of a namespace that shares none; running pods may be moved between the organisations the webhook allows |
| `Tenancy.StepKin` | pkg/webhook/handler.go:88-157 | that condition is exact: whoever takes the step, the node stays with namespaces that share organisations pairwise if and only if the pod bound or labelled there comes from one that shares one with each of them |
| `Tenancy.LabellingMixes` | pkg/webhook/handler.go:88-157 | a run where it fails: after admitted pods and strict bindings the webhook allows a running unlabelled pod an organisation that meets a pod of a namespace that shares none |
| `Tenancy.RunHasHistory` | pkg/webhook/handler.go:88-157 | the pods of an admitted cluster run are what its admission history makes of the webhook's store, so what holds of histories holds of runs |

## Left out

- HTTP servers, TLS, clients, the MAA adapter, the evidence agent and JWT decoding: transport around the modelled decisions.
- JSON: marshalling an entry gives one non-empty line that unmarshals to the entry; merge patches and webhook configurations start after decoding. Strings that are not valid UTF-8, which Go's encoder alters, are outside this assumption.
- Go's time parser: any partial function that inverts the formatter to the second; only the UTC printer, and a reader for its output, are concrete.
- Legality of label values in the API server: any string is accepted.
- Sub-resource admission requests: assumed to leave labels alone.
- Informers, policy providers and caches: the policy is an input of each binding, notices arrive in order and late, and node reads are current.
- Adding or removing nodes: no controller reacts to it, every run has a fixed set of nodes.
- Pods bound by other schedulers: present in the machine; where isolation is claimed they must not meet another organisation; pods already terminated when first seen send no notice, hence the agreeing start.
- Rate-limiter delays, goroutine scheduling and tickers: only the order of steps matters; verifications may fall on any node, not only on nodes listed as TEE nodes.
- Status message wording, Markdown and JSON report formatting, score and duration histograms, Helm charts and manifests.
- WipeSafety.HighPrivacyBindIsClean: does not promise that every earlier workload was wiped away, because the code does not; the condition in it is exact.
- AttestedRuns.AcceptedMeansVerified: does not promise that the last verification named the required anchor, because the code leaves the old label otherwise; the condition in it is exact.
- Attestation.AttestationController.VerifyAllNodes: verifications and replies are functions of the node name, one answer per node and pass.
- Reader.ReadEntries: a warning keeps the line number, not the decoder's error text.
- Audit.Plugin.PostFilter: the returned status is reduced to the number of rejections in its message; the scheduling duration is not observed.
