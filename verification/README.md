# GMHA Manager: verified model

A Dafny model of the parts of the Manager where a mistake costs a cluster: changing
replication topology, choosing a new master, submitting automated actions, and the
arithmetic of backups and alerts.

* **Topology changes** (`ClusterFleet`, `VipControl`, `Switchover`, `RollingUpgrade`,
  `UpgradeExecution`). The fleet is an environment of nodes (version, the two read-only
  flags, offline mode, replication source), holders per VIP address, recorded holders and
  the failover lock. Each Agent command is one step that succeeds with its effect, or fails
  with or without it. The fleet keeps every state it passes through; what is watched has to hold of all of
  them, and no command may be sent whose effect could break it. So the contracts of the
  executor's and the upgrade's methods speak of every run, cut at any step. Next to safety
  the contracts say when a run gets through: `faults` counts the commands, probes and checks
  that reported failure, and a run in which none did succeeds if nothing else stands in the
  way; and unless somebody forced it, a run succeeds only if none did. What a run has to
  have seen (a passed check, a drained node, compared data, the lock still held) is a note that
  carries the state of the fleet it was seen in, so a contract can say in which state, and
  before which change, the check was made.
* **GTID sets and live election** (`GtidSet`, `GtidOperations`, `LiveElection`,
  `ArchitectureRequest`, `StableSort`). Interval lists with 64-bit bounds, the sets of
  transactions they denote (section 19.1.3.1 of the MySQL 8.4 Reference Manual), the merge
  with its wrapping successor, inclusion, and the election filter that overwrites the array
  it reads.
* **AI workflows** (`Workflow`, `WorkflowGraph`, `WorkflowBuilder`, `WorkflowEngine`,
  `WorkflowStore`, `WorkflowLifecycle`). The depth-first dependency check, the builder that
  regroups and rewrites plans in place, and the reconciler as a transition system: it takes a
  snapshot, decides and commits later, while approval, pause, resume, rejection and crashes interleave
  and any save may be lost. `WorkflowStore` holds the main transitions as in-place updates, each proved
  equal to its counterpart in the transition system. `WorkflowLifecycle` carries the results
  about runs over to every workflow the builder accepts.
* **Candidate ranking** (`CandidateRanking`): synthesised scores and the six-key sort.
* **Backups and alerts** (`BackupChain`, `BackupSchedule`, `ShellQuote`, `AlertTarget`).

## What the model found

* *Merged GTID intervals are not canonical at the top of the range.* An interval that ends
  at 2^64-1 makes `end+1` wrap to zero, so an interval it covers is kept. The inclusion test
  is still right (`Subset`); `MergeSeparatedIff` says exactly when the form is separated.
* *At most one submission holds exactly while the "submitting" mark is saved.* The error of
  that save is ignored, the action is executed all the same, and the operation still reads
  pending. Wherever that happens the operation can go out twice (`LostMarkSendsTwice`), and
  the saved mark is the exact condition (`SentOnceIffMarkSaved`). Over a whole run the number
  of submissions is at most one more than the number of lost marks (`SubmittedOncePerMark`),
  and every workflow has runs that reach it (`BoundIsAttained`).
* *A bind to another machine than the recorded holder is always rolled back.* The verifying
  scan compares with the recorded holder and reports a mismatch, so without any failure
  `BindLocked` succeeds exactly when the record is empty or already names the target
  (`RebindIsRolledBack` is an input for which it does not).
* *The next custom run is right only within the largest duration* (about 292 years) of the
  start (`WrongAfterThreeCenturies`); an interval that wraps to zero, and no other, divides by
  zero (`PanicsOnWrappingInterval`).
* *Code and comment differ* at internal/app/ai_service.go:1960-1962: the reconciler is said
  never to repeat an operation after an ambiguous submission boundary. The model follows the
  code, see the second point.

## Assumptions

Saves succeed unless the model lets them fail; a task has one terminal outcome; the failover
lock excludes others while it is held, and a run sends nothing after it ended; the version
upgrade sets the target version and keeps read-only flags and replication source; the
machines of the inventory are the fleet, and the enabled addresses are all the addresses it
carries; nobody else changes the nodes during a run. A failed detach is not reported; `silent`
counts these, and `Fleet.Promote` promises a node without source only where there was none.
Whether somebody confirms a forced switch when asked (`confirms`), and whether replication uses
the management account (`sharesAccount`), is fixed for a fleet. A switchover
that waits for a forced switch does so for a second at least
(internal/app/architecture_executor.go:1766-1786), and the rolling upgrade, which looks every
second, is taken always to see it. Role and architecture names are parsed before the model
begins, so differences in blanks and letter case are not part of it.

## Model

| member | source | states |
|---|---|---|
| `GtidSet.MergeSound` | internal/app/architecture_executor.go:837-851 | Merging sorted intervals covers exactly the transactions of the input, leaves no interval inside another and keeps starts increasing, also when `end+1` wraps |
| `GtidSet.AbsorbKeeps` | internal/app/architecture_executor.go:839-847 | One step of the merge keeps the coalesced form and adds exactly the new interval's transactions |
| `GtidSet.RunInsideOne` | internal/app/architecture_executor.go:854-874 | An interval whose transactions are all covered by a coalesced list lies inside a single element of it, which is what makes the element-wise subset test complete |
| `GtidSet.BelowMax` | internal/app/architecture_executor.go:837-851 | With every end below 2^64-1 the merged intervals are strictly separated (`end+1 < next.start`) |
| `GtidSet.SeparatedIsCanonical` | internal/app/architecture_executor.go:837-851 | Two separated lists covering the same transactions are equal |
| `GtidSet.MergeSeparatedIff` | internal/app/architecture_executor.go:837-851 | Exactly when the merged list is separated: no interval stands behind one that ends at 2^64-1 (unless it starts at zero, as the wrapped successor does) |
| `GtidSet.WrappedSuccessorKeepsCoveredInterval` | internal/app/architecture_executor.go:842-844 | An input whose merge is not canonical: 1..2^64-1 followed by 5..10 stays two intervals although one covers the other |
| `GtidOperations.Coalesce` | internal/app/architecture_executor.go:837-851 | The result is the merge of some sorted arrangement of the input, whatever the unstable sort does with ties |
| `GtidOperations.Parse` | internal/app/architecture_executor.go:813-852 | Every server id is present with the coalescing of its own intervals, and no other |
| `GtidOperations.ParseDenotes` | internal/app/architecture_executor.go:813-852 | The parsed form denotes exactly the transactions of the entries |
| `GtidOperations.ParseIsCanonical` | internal/app/architecture_executor.go:837-851 | Entry lists that denote the same transactions, all ends below 2^64-1, parse to the same result |
| `GtidOperations.Subset` | internal/app/architecture_executor.go:854-874 | True exactly when every transaction of the first set is one of the second, for all well-formed lists in any order with overlaps, including ends at 2^64-1 |
| `GtidOperations.InsideAllIffIncluded` | internal/app/architecture_executor.go:854-874 | The element-wise test on the parsed forms is equivalent to inclusion of the denoted sets |
| `GtidOperations.TransactionCount` | internal/app/architecture_executor.go:876-898 | The count is the total length of the listed intervals modulo 2^64 |
| `GtidOperations.TotalLengthIsSize` | internal/app/architecture_executor.go:876-898 | The total length is at least the number of transactions denoted, and equal exactly when no transaction is listed twice |
| `GtidOperations.EqualSetsCountAlike` | internal/app/architecture_executor.go:876-898 | Disjoint lists that include one another have the same total |
| `ArchitectureRequest.Validate` | internal/app/architecture_planner.go:133-226 | Accepts exactly the requests with distinct, complete nodes, roles that fit the architecture and consistent VIP flags |
| `ArchitectureRequest.OneMaster` | internal/app/architecture_planner.go:216-218 | An accepted master_slave request has a single master |
| `ArchitectureRequest.ParticipationRequest` | internal/app/architecture_executor.go:566-584 | Removes exactly the detached machines, keeping order and everything else |
| `ArchitectureRequest.ParticipantsAccepted` | internal/app/architecture_executor.go:566-584 | The remaining nodes still satisfy the node checks |
| `LiveElection.FilterSupersets` | internal/app/architecture_executor.go:691-706 | The in-place filter over the array it is still reading leaves exactly the candidates that contain every original candidate's set, in order |
| `LiveElection.OverwrittenIsDominated` | internal/app/architecture_executor.go:691-703 | Containing all entries of the partly overwritten array is the same as containing all original candidates |
| `LiveElection.Elect` | internal/app/architecture_executor.go:643-729 | Succeeds with the one candidate that the specification elects, and fails only where none is, each error naming its cause: the first probe error, invalid or duplicate server id, an empty field, no survivor of the filter, a replica ahead of the winner |
| `LiveElection.WinnerIsAskedFor` | internal/app/architecture_executor.go:643-729 | From the request and the answers alone: the winner is a node asked for as master, not delayed, with GTID on, and not the current master unless that one is preferred; its set contains that of every other such node and of every replica that is checked; no node that contains all the others has more transactions; the preferred master has 1,000,000 added to its priority |
| `LiveElection.BadAnswerIs` | internal/app/architecture_executor.go:650-672 | Which error an answer gives: a failed probe, an unreadable state, a server id of zero or less, or one already given by an earlier node |
| `LiveElection.WinnerContainsEveryCandidate` | internal/app/architecture_executor.go:691-706 | The winner is an eligible requested node whose set contains that of every eligible node |
| `LiveElection.ReplicasFollow` | internal/app/architecture_executor.go:717-725 | Outside the independent start every target replica other than the old master must be contained in the winner, and this is checked both ways |
| `LiveElection.RefusedForReplica` | internal/app/architecture_executor.go:717-725 | The best survivor is elected exactly when, outside the independent start, it contains every node asked for as replica but the old master |
| `LiveElection.TransactionsTie` | internal/app/architecture_executor.go:707-712 | All survivors of the filter have the same transaction count |
| `LiveElection.WinnerIsEarliestOfHighestPriority` | internal/app/architecture_executor.go:707-716 | So the winner is the earliest survivor of highest priority |
| `LiveElection.LoneCandidateWinsIff` | internal/app/architecture_executor.go:643-729 | Where one node at most is eligible, it is elected exactly when all answers are acceptable and it contains every replica that is checked |
| `LiveElection.PreferredWinsIff` | internal/app/architecture_executor.go:678-683 | A surviving preferred master wins exactly when no earlier survivor ties and no survivor outbids its bonus |
| `LiveElection.PreferredWinsWithinBonus` | internal/app/architecture_executor.go:678-683 | It wins whenever requested priorities lie within 1,000,000 of each other |
| `CandidateRanking.Select` | internal/app/ha_service.go:736-772 | The ranking is a sorted permutation with every ineligible node last; selection fails exactly when none is eligible, else takes the first of the best |
| `CandidateRanking.KeysDecide` | internal/app/ha_service.go:750-767 | One score precedes another exactly when it is better at the first of the six keys in which they differ |
| `CandidateRanking.FinalMoves` | internal/app/ha_service.go:736-749 | What one unit of each score is worth in the final one: 100,000 for data, 1,000 for received, 1 for executed, priority and health, minus 1 for risk, minus 100 a second of delay, minus 50 for a replay; an ineligible node has -1,000,000 |
| `CandidateRanking.FinalOfElectable` | internal/app/architecture_planner.go:228-281 | The final score of an electable node in figures: 10,100,200 and its priority, 1,000,000 more if it is the preferred master and as much less if another one is |
| `CandidateRanking.CandidateScores` | internal/app/architecture_planner.go:228-281 | Each score is eligible exactly when the node is electable by the planner's rules, with the priority shifted by the preference |
| `CandidateRanking.PlanCandidate` | internal/app/architecture_planner.go:80-87 | For accepted requests, selection fails exactly when no node is electable and otherwise takes the chosen one |
| `CandidateRanking.KeysReduce` | internal/app/ha_service.go:750-767 | On synthesised scores the six keys reduce to eligibility and adjusted priority |
| `CandidateRanking.ChosenIsUnique` | internal/app/architecture_planner.go:80-87 | At most one node meets the description of the choice |
| `CandidateRanking.PreferredIsChosenIff` | internal/app/architecture_planner.go:271-277 | The preferred master is chosen exactly when electable and no electable rival outbids it by 2,000,000 (by more than that from a later position) |
| `CandidateRanking.OtherwiseEarliestOfHighest` | internal/app/architecture_planner.go:271-277 | Without an electable preferred master the choice is the earliest electable node of highest requested priority |
| `ClusterFleet.Fleet.Do` | internal/app/architecture_executor.go:1431-1469 | One command: success means its effect, failure means its effect or none; it is only sent under the lock and only if the state it may lead to keeps what is watched |
| `ClusterFleet.Fleet.Promote` | internal/app/architecture_executor.go:488-495 | Opens a node for writes behind offline_mode; may only be asked for while all others are fenced, and a detach that is lost on the way is not reported |
| `ClusterFleet.Fleet.Repoint` | internal/app/architecture_executor.go:1588-1663 | Detach, follow, fence: the node ends fenced behind offline_mode on its source, and a failure leaves its old source, none or the new one |
| `ClusterFleet.Fleet.Bind` | internal/app/architecture_executor.go:1284-1293 | A bind may only be sent while nobody holds the address, and adds at most the target |
| `ClusterFleet.HarmlessIsPermitted` | internal/app/architecture_executor.go:446-486 | Fencing, offline_mode and detaching keep the single writer and the order of links |
| `ClusterFleet.FollowIsPermitted` | internal/app/architecture_executor.go:1588-1663 | Pointing a node at a source no newer than itself keeps the order of links |
| `ClusterFleet.NeverMoreHolders` | internal/app/architecture_executor.go:1224-1308 | Along any run the number of holders of an address never exceeds the larger of one and what it was |
| `VipControl.MoveOne` | internal/app/architecture_executor.go:1237-1305 | One address: success means the target alone holds it and is recorded, after three scans of the holders at least; an undoubted rollback leaves nobody; no other address is touched; it is refused exactly where neither its own mode nor, if it has none, that of the plan is one of the two known; else, without command failures, it succeeds |
| `VipControl.MoveAll` | internal/app/architecture_executor.go:1224-1308 | Addresses are moved in turn; those already moved stay on the target, those not reached stay as they were |
| `VipControl.ProveSingleHolder` | internal/app/architecture_executor.go:1268-1277 | Two rounds of probes must find the target alone, and without failures they do exactly when it is alone |
| `VipControl.BindLocked` | internal/app/ha_service.go:493-580 | Success leaves the target sole holder, is recorded and took three scans at least; without failures it succeeds exactly when the target is in the cluster and the recorded holder is empty or the target, and otherwise rolls back to nobody with the record as it was |
| `VipControl.RebindIsRolledBack` | internal/app/ha_service.go:493-580 | Such an input: two machines, the record names the first, the address goes to the second, nothing fails; the bind fails, nobody holds the address, and the record still names the first, so the next try fails as well |
| `VipControl.RemoveLocked` | internal/app/ha_service.go:588-627 | Success means nobody holds the address, as a scan has shown, and it succeeds exactly without failures |
| `VipControl.UnderVipLock` | internal/app/ha_service.go:455-491 | Nothing is sent without the lock; a lock once taken is handed back, or its release was seen to fail; success means the renewals held and no failure but that of the release; without failures the operation succeeds exactly when it is a removal or its target is in the cluster and the record is empty or names it |
| `Switchover.ConfigureTopology` | internal/app/architecture_executor.go:1588-1663 | On success every node but the primary ends with the source its request names, if that takes part, and with the primary as source otherwise, fenced and offline; no command is sent before the replication account is ready; nothing outside the request changes; nothing fenced opens; without failures it succeeds |
| `Switchover.PrepareAccount` | internal/app/architecture_executor.go:1593-1610 | Unless replication uses the management account, the account is ready on the primary; if it does, nothing is asked |
| `Switchover.CheckNodes` | internal/app/architecture_executor.go:1497-1507 | Success means the check passed on every node but the one exempted, in the state the check was made in; the exempted one is not asked; without failures it succeeds |
| `Switchover.VerifyRoles` | internal/app/architecture_executor.go:900-914 | Succeeds only if the primary is open, all others are fenced and the check was made on every node, and always does when the roles hold and no probe fails |
| `Switchover.CheckConflicts` | internal/app/architecture_executor.go:1071-1095 | Passes only if no address is held by anyone but the declared master, and passes whenever that holds and no probe fails |
| `Switchover.VerifyHolders` | internal/app/architecture_executor.go:1337-1366 | Passes exactly, up to probe failures, when the target alone holds every address, and records it |
| `Switchover.Prepare` | internal/app/architecture_executor.go:410-438 | Before the first change: every node passed its preflight, the elected node is the one the request wants as master and not the current one unless that is preferred, and addresses are held by the declared master at most |
| `Switchover.FenceOld` | internal/app/architecture_executor.go:440-486 | The old master ends fenced and keeps its source; while both were fenced, its sessions were drained, then the candidate replayed everything or somebody confirmed to go on without, and then the fence was confirmed once more |
| `Switchover.DrainAndWait` | internal/app/architecture_executor.go:449-479 | Draining and catch-up are each waited for behind the fence, in this order; if the candidate does not catch up, the run goes on exactly if somebody confirms, and without failures nobody is asked |
| `Switchover.VerifyData` | internal/app/architecture_executor.go:933-965 | Passes only if the toolkit is on every node, the checksum was then computed on the primary and every other participant then compared equal to it, all in one state of the cluster |
| `Switchover.TakeOver` | internal/app/architecture_executor.go:440-495 | After fencing and promotion the elected node is the only one open, still offline, and what its predecessor's hand-over needs was seen |
| `Switchover.Rebuild` | internal/app/architecture_executor.go:497-529 | Success, on the normal and the forced repair path, means every participant on the source its request names, with roles and replication verified in the final state; a forced run only fails in the repair or in the verification after it; nothing fenced was opened on the way |
| `Switchover.Repair` | internal/app/architecture_executor.go:967-1037 | The forced repair repoints every replica as asked before the toolkit runs on the result |
| `Switchover.RunToolkit` | internal/app/architecture_executor.go:978-1036 | Success means, in this order: the toolkit installed everywhere, replication restarted on every replica, the source summed, every replica synchronised, the source summed again, and every replica found free of differences |
| `Switchover.Finish` | internal/app/architecture_executor.go:530-551 | No address moves and no node takes traffic before the data check passed in the state it found; success means every participant online, and every address on the new master, seen there while that was open and still offline |
| `Switchover.Execute` | internal/app/architecture_executor.go:119-564 | On every path, cut anywhere, no state has two writers; no command is sent before preflight, election and conflict check; success means the wanted master, which is not the current one unless that is preferred, open and every participant on the source its own request names, fenced; all addresses on it, verified before traffic resumed; the old master drained and the new one caught up (or confirmed) before it opened, roles and data of every participant verified while it was open, offline and without address; a success nobody confirmed had no failure; and if no command fails and nothing stands in the way, it succeeds without asking |
| `Switchover.Adjust` | internal/app/architecture_executor.go:119-564 | The same with the run's own lock: without the lock nothing is sent; from the declared sole writer on, every state of the run has at most one writer; the lock is handed back, or its release was seen to fail, and a success has found it still held at the end |
| `RollingUpgrade.SwitchRequestAcceptedIff` | internal/app/cluster_upgrade_service.go:1062-1082 | Validation accepts a nested switchover exactly when its new primary is not a delayed node |
| `RollingUpgrade.BuildPlan` | internal/app/cluster_upgrade_service.go:233-434 | Confirms only a fleet with one open primary below the target, all others its fenced replicas below the target and seen to replicate, an undelayed temporary primary first in name order and every address on the primary; and confirms every such fleet if no probe fails |
| `RollingUpgrade.PrecheckAll` | internal/app/cluster_upgrade_service.go:763-795 | Success means the upgrade check passed on every member |
| `RollingUpgrade.ReplicaOrder` | internal/app/cluster_upgrade_service.go:810-827 | All replicas, each once, by id, with the temporary primary behind every other one |
| `RollingUpgrade.LexLessIs` | internal/app/cluster_upgrade_service.go:824 | Ids compare by their first difference, a proper prefix first |
| `RollingUpgrade.TurnsAreOrdered` | internal/app/cluster_upgrade_service.go:797-827 | Upgrading in that order means: no replica is touched before every replica of smaller id, or every other one for the temporary primary, was verified at the target |
| `RollingUpgrade.UpgradeNode` | internal/app/cluster_upgrade_service.go:829-859 | The node handed over is fenced and holds no address; it ends at its old version or the target |
| `RollingUpgrade.InstallIsPermitted` | internal/app/cluster_upgrade_service.go:797-808 | Upgrading a node fed by nothing newer and feeding nothing older keeps the order of links |
| `RollingUpgrade.UpgradeReplicas` | internal/app/cluster_upgrade_service.go:797-808 | All replicas reach the target, still fenced and following the original primary, which keeps every address; one at a time: wherever the stage ends, a replica has only changed if those before it were verified after their own upgrade |
| `RollingUpgrade.VerifyReplicas` | internal/app/cluster_upgrade_service.go:861-871 | Passes exactly, up to probe failures, when every replica follows the primary, fenced, at the target, and was seen to |
| `RollingUpgrade.ElectsIffAnswered` | internal/app/cluster_upgrade_service.go:1062-1082 | The election of a nested switchover picks its new primary exactly when that is undelayed and its answer contains those of all nodes but the current primary |
| `RollingUpgrade.NestedSwitchover` | internal/app/cluster_upgrade_service.go:1010-1060 | A full switchover under the outer lock: success is the executor's success for the upgrade's request, so with the preflight, the hand-over, roles and data seen in the states they must be seen in, and no failure; a run that waits for a forced switch is an error; without failures and with fitting answers it succeeds |
| `RollingUpgrade.AllFollowNewPrimary` | internal/app/cluster_upgrade_service.go:1072-1080 | No node of the request asks for a source other than the new primary |
| `RollingUpgrade.SwitchAway` | internal/app/cluster_upgrade_service.go:873-878 | The old primary ends fenced, detached and without addresses; the temporary primary is open with the rest of the replicas behind it, after a switchover seen to drain, catch up and verify, and without a failure |
| `RollingUpgrade.DetachedKeepsSource` | internal/app/cluster_upgrade_service.go:1068-1070 | The detached old primary is left out of the repoint: it keeps having no source and stays fenced |
| `RollingUpgrade.VerifyDetached` | internal/app/cluster_upgrade_service.go:900-919 | Passes exactly, up to probe failures, when the node is fenced and has no source |
| `RollingUpgrade.UpgradeOriginal` | internal/app/cluster_upgrade_service.go:880-891 | No command is sent before the node was found detached and fenced; only then is it upgraded, attached as a replica of the temporary primary, and compared with it while still offline |
| `RollingUpgrade.UpgradeDetached` | internal/app/cluster_upgrade_service.go:880-891 | The detached node alone changes, and only its version, to the target; no command is sent before it was found detached |
| `RollingUpgrade.AttachOriginal` | internal/app/cluster_upgrade_service.go:921-959 | The original primary ends as a fenced, online replica of the temporary one, its data compared while it was offline; no other node changes |
| `RollingUpgrade.CompareOriginal` | internal/app/cluster_upgrade_service.go:949-953 | Success means the data of the two was compared in this state |
| `RollingUpgrade.SwitchBack` | internal/app/cluster_upgrade_service.go:961-966 | The original primary ends open with all others behind it at the target and every address on it, after a switchover seen to drain, catch up and verify |
| `RollingUpgrade.VerifyCluster` | internal/app/cluster_upgrade_service.go:968-1008 | Passes only if the original primary is open, without source, at the target, all others follow it and were seen to, and it alone holds and is recorded for every address |
| `UpgradeExecution.UpgradeRun.RunStage` | internal/app/cluster_upgrade_service.go:674-701 | A stage ends as success, with the state it promises and the checks it has to have made, or as failed with the run; the first two send nothing |
| `UpgradeExecution.UpgradeRun.FailRun` | internal/app/cluster_upgrade_service.go:703-715 | The stage is marked failed although it never began |
| `UpgradeExecution.UpgradeRun.NextStage` | internal/app/cluster_upgrade_service.go:653-665 | No stage begins unless the lock was found held; a lost lock fails the run at the stage that would have come next |
| `UpgradeExecution.UpgradeRun.RunStages` | internal/app/cluster_upgrade_service.go:614-672 | Stages run in order; the first failure stops the rest, which stay pending; nothing is sent before every member passed its upgrade check; success means every stage found the lock held and made its checks |
| `UpgradeExecution.UpgradeRun.Execute` | internal/app/cluster_upgrade_service.go:592-672 | Over every run, cut anywhere: at most one writer in each state; links ordered by version in each state if they were at the start; no state is reached at all before every member passed its upgrade check; success means the whole cluster at the target behind the original primary with every address on it, the lock found held before each stage, every check of every stage made in the state that stage requires, two switchovers each drained, caught up and verified, no failure, and the lock released; failure leaves a prefix of successes, one failed stage and the rest pending, and the lock handed back or its release seen to fail; and a run whose lock is free, whose plan holds and whose elections succeed is only stopped by a failing command |
| `WorkflowGraph.Validate` | internal/app/ai_service.go:3352-3395 | True exactly when ids are non-empty and unique, dependencies known and not on the operation itself, and no walk along dependencies returns to its start |
| `WorkflowGraph.Search` | internal/app/ai_service.go:3387-3394 | Whatever the iteration order, true exactly when the graph has no cycle |
| `WorkflowGraph.CycleCheck.Visit` | internal/app/ai_service.go:3369-3386 | A refusal exhibits a cycle; an acceptance extends the set of finished ids, whose finishing order is topological |
| `WorkflowGraph.TopologicalIsAcyclic` | internal/app/ai_service.go:3369-3386 | A complete topological order excludes cycles |
| `WorkflowGraph.MinimalMember` | internal/app/ai_service.go:2139-2160 | In an acyclic graph every nonempty set of operations has one that depends on nothing in the set |
| `WorkflowBuilder.BuildWorkflows` | internal/app/ai_service.go:3234-3350 | One workflow per group; each is built from its plans as they came, and its plans are rewritten in place without touching any other group |
| `WorkflowBuilder.GroupPlans` | internal/app/ai_service.go:3242-3255 | The plans are split by key in order of appearance, and every plan has a place |
| `WorkflowBuilder.GroupedTogether` | internal/app/ai_service.go:3242-3255 | Two different plans stand in one group exactly when they name the same workflow, blanks aside, or one names none and the other names the key made of its position |
| `WorkflowBuilder.InExactlyOneGroup` | internal/app/ai_service.go:3242-3255 | No plan stands in two groups or twice in one |
| `WorkflowBuilder.AssignIds` | internal/app/ai_service.go:3260-3273 | Each plan gets its own id or, if that is empty or taken, a positional one; the last plan of an id owns its alias |
| `WorkflowBuilder.NewIdIs` | internal/app/ai_service.go:3261-3268 | The id of a plan is its own where that is neither blank nor taken, and otherwise operation- and, in decimal, its position from one |
| `WorkflowBuilder.RewriteGroup` | internal/app/ai_service.go:3274-3306 | Dependencies are mapped through the aliases or chained to the plan before; the risk is the highest of the group |
| `WorkflowBuilder.BuildWorkflow` | internal/app/ai_service.go:3257-3348 | The workflow is blocked exactly when a plan was or its graph is invalid, and otherwise is rooted at its first operation; its operations, plans, risk and status are those of the specification, of which the next rows speak; the root plan carries status and risk, the rest is staged |
| `WorkflowBuilder.RiskOfWorkflow` | internal/app/ai_service.go:3274-3308 | A workflow is critical if some plan is, else high if some plan is, else medium if some plan is; one that is not blocked needs approval exactly when some plan is one of the three, by the words, whatever their case and the blanks around them |
| `WorkflowBuilder.TrimIs` | internal/app/ai_service.go:3398 | The trimmed text is the part between the first and the last character that is not white space |
| `WorkflowBuilder.LowerIs` | internal/app/ai_service.go:3398 | Each of the 26 capital letters becomes its small one and the dotted capital I becomes i; the others stay |
| `WorkflowBuilder.AcceptedIsRooted` | internal/app/ai_service.go:3286-3289 | In an accepted workflow the first operation alone has no dependencies and every other depends on it, directly or not |
| `WorkflowBuilder.RejectedForClashOrCycle` | internal/app/ai_service.go:3279-3289 | Rewritten dependencies are always known and never on the operation itself: rejection means clashing ids or a cycle |
| `WorkflowBuilder.ForwardOnlyIsAccepted` | internal/app/ai_service.go:3279-3289 | If plans only name earlier ones and ids are distinct, the rewriting introduces no cycle |
| `WorkflowEngine.InvAlways` | internal/app/ai_service.go:1963-2102 | The invariant of store, worker, submission log and counts holds after every run of decisions, user actions, crashes and lost saves |
| `WorkflowEngine.NeverPendingAgain` | internal/app/ai_service.go:2405-2843 | No transition returns an operation to pending |
| `WorkflowEngine.SubmittedOncePerMark` | internal/app/ai_service.go:1960-1962 | Over every interleaving an operation is sent at most once, plus once for each submitting mark whose save was lost |
| `WorkflowEngine.SubmittedAtMostOnce` | internal/app/ai_service.go:1960-1962 | While the marks are saved no operation is sent twice, whatever other saves are lost and wherever the process crashes |
| `WorkflowEngine.SentOnceIffMarkSaved` | internal/app/ai_service.go:2744-2752 | From any decision to submit that the invariant allows: the save of the mark is kept if and only if the operation goes out at most once more, over every continuation |
| `WorkflowEngine.LostMarkSendsTwice` | internal/app/ai_service.go:2744-2752 | Whatever the state in which a mark is lost, a continuation without crash and without another lost mark sends the operation two more times |
| `WorkflowEngine.BoundIsAttained` | internal/app/ai_service.go:1960-1962 | For every fresh workflow and every n a run without crash loses n marks of one operation and sends it n+1 times |
| `WorkflowEngine.LostMarkSubmitsTwice` | internal/app/ai_service.go:2744-2752 | One lost mark, no crash: a workflow of one operation sends it twice |
| `WorkflowEngine.RetiredForever` | internal/app/ai_service.go:2709-2712 | An operation that left pending and is not held by a worker is never sent again |
| `WorkflowEngine.AmbiguousIsNeverResent` | internal/app/ai_service.go:1997-2000 | After a crash the current operation, in particular one without task id, is never sent again by anything that can follow |
| `WorkflowEngine.AlwaysAReadyStep` | internal/app/ai_service.go:2052-2056 | A running workflow without current operation that is not finished always has a ready operation |
| `WorkflowEngine.SubmittedInOrder` | internal/app/ai_service.go:2139-2172 | Submissions come in a topological order, and a workflow marked succeeded has every operation succeeded or skipped; when an operation may read succeeded is the matter of the next rows |
| `WorkflowEngine.OperationEnds` | internal/app/ai_service.go:1963-2102 | In every step of a run: an operation comes to read succeeded exactly by a saved decision about it, taken while it is current, that found it verified; failed exactly by one that found its task failed or by an action settled with an error; blocked exactly by a refused check, a revoked policy or a blocked approval |
| `WorkflowEngine.OperationAdvances` | internal/app/ai_service.go:2405-2843 | The same for marked, submitted and awaiting verification, and the task id of an operation is the one its action was settled with |
| `WorkflowEngine.StatusChanges` | internal/app/ai_service.go:1742-2102 | The status of a workflow comes to read running, rejected, paused, interrupted, failed, blocked or succeeded exactly for the causes given; ended ones never change |
| `WorkflowEngine.WorkerMoves` | internal/app/ai_service.go:1963-2102 | A worker takes a snapshot only when idle, holds a mark only by a decision on the first ready operation of that snapshot, sends only what it has marked, and a mark is lost exactly when its save is |
| `WorkflowEngine.OnlySavesReachTheStore` | internal/app/ai_service.go:2405-2843 | A crash, a look at the store, the sending of an action and a lost save leave the store as it was |
| `WorkflowEngine.SucceededOnlyIfVerified` | internal/app/ai_service.go:2021-2043 | After any run an operation reads succeeded only if the run holds a saved decision about it, taken while it was current, that found its result verified |
| `WorkflowEngine.FailedOnlyForCause` | internal/app/ai_service.go:2014-2020 | It reads failed only if the run holds one that found its task failed, or its action settled with an error |
| `WorkflowEngine.FailureEndsTheRun` | internal/app/ai_service.go:2560-2616 | After either of these the operation stays failed and the workflow failed, and nothing is sent any more, whatever follows |
| `WorkflowEngine.SucceededMeansVerified` | internal/app/ai_service.go:2045-2048 | In a workflow that reads succeeded every operation was verified by such a decision |
| `WorkflowEngine.EndedStays` | internal/app/ai_service.go:1963-2102 | A workflow that succeeded, failed or was rejected stays as it is and sends nothing |
| `WorkflowEngine.SilentUntilResumed` | internal/app/ai_service.go:1742-1849 | A workflow that does not run sends nothing until somebody approves or resumes it, unless an action was already marked |
| `WorkflowLifecycle.BuiltIsFresh` | internal/app/ai_service.go:3257-3348 | Every workflow the builder does not block is one the results about runs speak of |
| `WorkflowLifecycle.BuiltAwaitsApproval` | internal/app/ai_service.go:3306-3308 | A built workflow starts in need of approval exactly when some plan is medium, high or critical |
| `WorkflowLifecycle.BuiltSucceedsVerified` | internal/app/ai_service.go:2021-2048 | A built workflow reads succeeded only if the run verified every one of its operations |
| `WorkflowLifecycle.BuiltNeverStalls` | internal/app/ai_service.go:2052-2056 | A built workflow that runs, has no current operation and is not finished has a ready operation, whatever happened before |
| `WorkflowLifecycle.BuiltRunsInOrder` | internal/app/ai_service.go:2139-2172 | A built workflow is sent in an order its dependencies allow, its first operation first, and is marked succeeded only when every operation is done |
| `WorkflowLifecycle.BuiltSubmitsOnce` | internal/app/ai_service.go:1960-1962 | While its marks are saved, a built workflow sends no operation twice |
| `WorkflowLifecycle.BuiltMaySubmitTwice` | internal/app/ai_service.go:2744-2752 | Any built workflow has a run without crash that loses one mark and sends one operation twice |
| `WorkflowStore.FindNextReady` | internal/app/ai_service.go:2139-2160 | The first operation in order that is pending with all dependencies succeeded or skipped, or none if there is none |
| `WorkflowStore.EverySucceeded` | internal/app/ai_service.go:2162-2172 | True exactly when there are operations and all succeeded or were skipped |
| `WorkflowStore.AiState.MarkSubmitting` | internal/app/ai_service.go:2695-2753 | Marks only a pending operation of a running workflow without current operation, blocks it if the policy was revoked, and reports success even if the save is lost |
| `WorkflowStore.AiState.RecordSubmission` | internal/app/ai_service.go:2755-2796 | Stores the task id only while the operation is current |
| `WorkflowStore.AiState.VerifyOperation` | internal/app/ai_service.go:2497-2558 | Succeeds the operation and clears it as current, only while it is current |
| `WorkflowStore.AiState.FailOperation` | internal/app/ai_service.go:2560-2616 | Fails operation and workflow and clears the current operation |
| `WorkflowStore.AiState.Complete` | internal/app/ai_service.go:2798-2843 | Succeeds the workflow only if every operation did |
| `WorkflowStore.AiState.Pause` | internal/app/ai_service.go:1742-1789 | Refused unless the workflow runs; changes its status only |
| `WorkflowStore.AiState.Resume` | internal/app/ai_service.go:1791-1849 | Refused where an interrupted workflow has a current operation without task id |
| `BackupChain.RestoreChain` | internal/app/backup_service.go:640-671 | Succeeds with the reverse of the one path of recorded bases from the selected run to a full backup, of at most 100 runs and one instance; fails, with the reason, exactly where no such path exists; ends on cyclic records |
| `BackupChain.NoRunTwice` | internal/app/backup_service.go:640-671 | A path to a full backup repeats no run |
| `BackupChain.NoIdTwice` | internal/app/backup_service.go:640-671 | With runs recorded under their own ids it repeats no id |
| `BackupChain.PathsAgree` | internal/app/backup_service.go:643-662 | Two paths from the same run agree as far as both go |
| `BackupSchedule.NextBackupTime` | internal/app/backup_service.go:711-747 | The earliest matching instant strictly after the given one, or none exactly when there is none; for custom schedules exactly while that instant lies within the largest 64-bit duration of the start; divides by zero exactly when a running custom interval is a multiple of 2^64 nanoseconds |
| `BackupSchedule.WeekdaysAre` | internal/app/backup_service.go:738-743 | Day zero is a Thursday, 29 February 2000 a Tuesday, and one weekday follows another |
| `BackupSchedule.QuotientTruncates` | internal/app/backup_service.go:726-728 | Division rounds towards zero |
| `BackupSchedule.WrongAfterThreeCenturies` | internal/app/backup_service.go:726-728 | Such an input: one-minute intervals, 300 years on, give an instant 292 years before the start |
| `BackupSchedule.PanicsOnWrappingInterval` | internal/app/backup_service.go:726-728 | Such an input: an interval of 2^53 minutes |
| `BackupSchedule.NextWeekly` | internal/app/backup_service.go:732-744 | Finds nothing exactly when no weekday is allowed |
| `BackupSchedule.EightSuffice` | internal/app/backup_service.go:738-743 | Where any day offset hits, one of 0..7 does |
| `BackupSchedule.CustomOffsetExact` | internal/app/backup_service.go:726-728 | The saturating, wrapping 64-bit computation gives the next multiple exactly while that fits |
| `BackupSchedule.OffsetIsNext` | internal/app/backup_service.go:726-728 | The next multiple of the interval is the earliest matching instant |
| `ShellQuote.RenderCommand` | internal/app/backup_service.go:753-757 | Writes the quoted path and a blank and the quoted form of each argument, in order |
| `ShellQuote.EscapedReadsBack` | internal/app/backup_service.go:762 | Inside single quotes the replaced text reads back as the original |
| `ShellQuote.ShellReadsExactly` | internal/app/backup_service.go:753-762 | Splitting the rendered command by the shell's quoting rules gives exactly path and arguments, whatever characters they hold |
| `ShellQuote.DoubleQuotesReadBack` | internal/app/backup_service.go:753-762 | The reader these rows rest on takes double quotes as the shell does: text escaped for them reads back |
| `ShellQuote.BackslashesReadBack` | internal/app/backup_service.go:753-762 | And text with a backslash before every character, outside quotes |
| `AlertTarget.MatchingThreshold` | internal/app/alert_service.go:591-604 | The earliest of the matching levels of highest rank, and none exactly when no enabled level matches |
| `AlertTarget.FiringIs` | internal/app/alert_service.go:591-604 | A rule fires exactly when its own threshold, or one of its enabled levels if it has levels, is reached |
| `AlertTarget.ComparesAs` | internal/app/alert_service.go:1091-1107 | What the six operators mean in terms of one another, and that no other operator ever fires |
| `AlertTarget.StaleIs` | internal/app/alert_service.go:485-487 | A sample is stale exactly when both times are known and it is not later than the last one |
| `AlertTarget.SeverityIsMonotone` | internal/app/alert_service.go:591-604 | With an ordered operator a worse value never gets a milder severity |
| `AlertTarget.ThresholdOrderValid` | internal/app/alert_service.go:1073-1090 | Accepts exactly a single level, or several in the operator's order |
| `AlertTarget.OrderMeansNested` | internal/app/alert_service.go:1073-1090 | The order is accepted exactly when no value reaches a level without reaching all milder ones |
| `AlertTarget.TrailingRunIs` | internal/app/alert_service.go:488-493 | The number of samples at the end of the history that fire without a break |
| `AlertTarget.Target.Evaluate` | internal/app/alert_service.go:479-557 | A stale sample changes nothing; one that does not fire clears the run and resolves every active event with its reason and time; one that fires on a long enough run leaves exactly one active event, with the selected level, the value, the times and the count it must have, and a notification is counted exactly when silence, cap, spacing and queue allow |
| `AlertTarget.Target.KeepOneActive` | internal/app/alert_service.go:512-535 | The first active event is kept, further ones are merged into it, or a new one is opened |
| `AlertTarget.ResolvedIs` | internal/app/alert_service.go:580-589 | A resolved event takes value and time of the sample and keeps everything else |
| `AlertTarget.Target.Notify` | internal/app/alert_service.go:536-556 | Counts a notification exactly when the event is not silenced, the cap is not reached, the interval has passed and the queue accepts; cap and spacing of each event are kept |
| `AlertTarget.Target.ObserveAll` | internal/app/alert_service.go:479-557 | After any sequence of samples Consecutive is the trailing run of counted firing samples, and an event is active, and only one, exactly when that run reaches the rule's count; its first and last time, its value, severity, threshold and number of occurrences are those the samples of that run give |
| `StableSort.HeadIsFirstBest` | internal/app/ha_service.go:750-767 | The head of the stably sorted slice is the earliest of the best elements |
| `StableSort.SortSorts` | internal/app/ha_service.go:750-767 | The stable sort orders by any strict weak order |

## Left out

- LiveElection.Elect: does not model the text of probe answers; entries are well-formed interval lists, because the two parsers of the text treat malformed upper bounds differently. GTID tags are not part of the model either.
- ClusterFleet.Fleet.Do: does not model commands that change several nodes at once or effects that arrive after the command was reported as failed.
- Switchover.ConfigureTopology: the branch for several masters is left out; the primary is the only node asked for as master.
- Switchover.Execute: covers the master_slave path with a declared current master; the standalone split, the start from independent writers, dual and multi master and the VIP-only path are not modelled, nor the way a session drain, a catch-up wait or a data check works inside: they are facts a run waits for and notes.
- RollingUpgrade.NestedSwitchover: does not model the outer run giving up, after 20 minutes or at the sight of a pending force confirmation, while the nested run goes on; the nested run is taken to end first.
- RollingUpgrade.UpgradeNode: versions are numbers, so the compatibility rules between release series are reduced to "strictly newer"; the running list of active upgrades and the tracking task are left out.
- RollingUpgrade.BuildPlan: machine names are taken as distinct, so the temporary primary is the first undelayed replica in name order; packages, capabilities, server ids and GTID mode only appear as a probe that may fail.
- WorkflowEngine.InvAlways: plan texts, checkpoints, evidence, messages and the parent tracking task are left out; approval is one step after which the worker creates the parent; the limit of 12 transitions per pass and the map of active workflows reduce to one worker at a time.
- WorkflowBuilder.BuildWorkflows: titles, summaries, confirmation phrases and error texts are left out, and generated workflow ids are an argument; a letter no risk word can come from keeps its case.
- CandidateRanking.PlanCandidate: the lookup of instances by port is an argument; warnings, plan steps and `architectureTransitionKind` are left out as easy case analyses.
- BackupSchedule.NextBackupTime: zones with changing offset are left out.
- ShellQuote.ShellReadsExactly: the fixed text around the command (the encoded script, its clean-up) is left out, and the word splitter refuses text that uses more of the language than quoting.
- AlertTarget.Target.Evaluate: the setting of silences by users, filters, labels and delivery are left out; thresholds are reals and instants unbounded integers.
- Fixed-width overflow of priorities and scores is left out; they are unbounded integers.
- Heartbeats, machine and Agent lifecycle, configuration, chat, and all transport and storage code are left out.

