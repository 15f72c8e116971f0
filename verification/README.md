# Verified model of k0smotron's protocols and transformations

k0smotron is a Kubernetes operator that runs k0s control planes and plugs them into Cluster API.
Most of it calls other systems. This project models, in Dafny, the parts that carry state machines
or transformations of their own, and proves what they are for:

* **In-place upgrades.** The control-plane controller, its background version updaters and the
  `UpdateMachine` hook share one autopilot plan per workload cluster. `PlanWorld` is a labelled
  transition system over reconciles (with the in-place extension on or off), updater polls and
  exits, controller restarts, hook calls, autopilot progress, and writes that fail or land without
  an answer. `PlanTables` says what each step does, case by case. `PlanSafety` proves what holds over every run, `PlanProgress` that a driver of one
  machine at a time gets there, and `PlanController` that the imperative code (a controller object
  with a concurrent map of cancel handles, and a hook handler) performs exactly the steps of the
  transition system.
* **The trigger.** `Trigger` interleaves the four patches of a Cluster API update, each of which can
  fail, with the machine controller that completes the update. `HookList` is the text in which the
  pending hooks are kept.
* **Plan text.** `PlanText` prints the plan as the source does and reads it back through the JSON
  reader of `JsonText` (sections 5 and 7 of RFC 8259).
* **Manifest pruning** in `Prune`, over the JSON trees of `Json`.
* **Byte pipelines.** `LineWriter`; `Base64` (section 4 of RFC 4648), `FilePath` and `PowerShell`.
* **Upgrade detection and API conversion.** `UpgradeDetection` and `ClusterConversion`.
* **Run-level cores.** `Remediation`, `InitialController` (both over the creation order of
  `Oldest`), `ReconcileCounters` and `NodeSearch`.

`dafny verify dfyconfig.toml` checks the whole project.

## Where the code falls short of the obvious claim

Each of these is a lemma, with the exact condition under which the claim does hold where there is
one.

* A hook call that takes a completed plan away under a live updater makes the updater record its old
  version for a node that was taken to another one (`PlanSafety.HookCallMisleadsUpdater`), or lets
  the next reconcile start a second updater while the first cannot be cancelled any more
  (`PlanSafety.HookCallDoublesUpdater`). `PlanSafety.CallKeepsStandaloneIff` and
  `PlanSafety.UndercutBreaks` have the exact condition.
* The trigger replaces the list of pending hooks as one text, so a hook that another controller adds
  after the last refresh of its copy is lost (`Trigger.OtherHooksSurvive`,
  `Trigger.ConcurrentHookLost`).
* The trigger believes its cached copies of the infra machine and the config, which may show marks
  of an update that is over, and it may start while an earlier update is being completed. Either
  can make the hook pending over unmarked objects (`Trigger.StaleCopyMisleads`,
  `Trigger.RetriggerWhileFinishing`); `Trigger.HookOverMarks` and `Trigger.UnsafeStart` have the
  exact condition on the start. What `Trigger.TriggerSafety` says holds for unsafe starts too. Recovery never starts with the hook pending, and before a new
  trigger the reconcile waits while any Machine reports that it is being updated
  (internal/controller/controlplane/scale.go:297-302).
* A plan for no nodes reads back as a plan for one nameless node (`PlanText.PlanRoundTrip`). As far
  as the printer goes, a node name with quotes passes for two names (`PlanText.QuoteCollision`);
  Kubernetes refuses such names for Machines.
* `deepEqual` takes a null entry for a missing key, so pruning can swap objects inside lists
  (`Prune.NullSwap`, `Prune.PrunePreservesMeaning`). This is about the functions: the command prunes
  against zero values, which have no lists with objects in them.
* A path with a carriage return is changed by newline normalisation (`PowerShell.PathKept`), and one
  with a typographic single quote is not read back by PowerShell's own rule, which changes what the
  whole script does (`PowerShell.QuoteRoundTrip`, `PowerShell.ScriptWritesFiles`).
* A config with an explicitly empty list is taken for changed (`UpgradeDetection.NoNeedlessRollout`).
* A v1beta1 client cannot remove Service labels that were stored once, because their annotation
  outlives the field (`ClusterConversion.V1Unchanged`, `ClusterConversion.RemovedLabelsReturn`).
* Remediation looks at the Machines once per pass: a deletion by somebody else between that read
  and its own delete can leave no active Machine (`Remediation.OutsiderRace`, and
  `Remediation.StepLeavesActive` for exactly when). A failed status
  patch at the end of a pass is not reported, since the error it wraps is nil there.
* A reconcile that does not see the first Machine can start a second cluster
  (`InitialController.FirstRemoved`); `InitialController.SingleInitialController` and
  `InitialController.CrownedTwice` have the exact condition.
* A reconcile of the control plane that finds the completed plan of a hook call before the call's
  retry can delete it, which costs another plan (`PlanProgress.EventRank` for exactly when).
* Counter differences under-report when a restarted pod comes up to its old count again
  (`ReconcileCounters.RestartHides`, and `ReconcileCounters.ExactIff` for exactly when).

## Model

| member | source | states |
|---|---|---|
| `PlanSafety.SharedPlanSafety` | internal/controller/controlplane/inplace.go:103-149 | over every run of reconciles, updaters, hook calls, restarts and autopilot progress: a Completed plan has put its version on every node it targets, an unfinished plan is never deleted or replaced, and the hook reports an update only for a machine that runs the version |
| `PlanSafety.UpdatedMeansInstalled` | extensions/inplaceversionupdate/handler.go:191-222 | the answer "completed" for a machine and a version implies that the version is installed there and was reported finished, and changes nothing |
| `PlanSafety.StepKeepsUnfinishedPlan` | internal/autopilot/autopilot.go:136-156 | no step of anybody removes or replaces a plan that is not Completed |
| `PlanSafety.StandaloneSafety` | internal/controller/controlplane/inplace.go:189-208 | over every run in which no hook call takes the plan away under a live updater without renewing it for the same version: at most one uncancelled updater per control plane, its handle is the stored one, and outside triggers a recorded version becomes v only after a plan for v finished on that node |
| `PlanSafety.CallKeepsStandaloneIff` | extensions/inplaceversionupdate/handler.go:191-217 | a hook call keeps the invariant behind that exactly when it is not such a call |
| `PlanSafety.StepRecordsFinished` | internal/controller/controlplane/inplace.go:223-248 | one step of any kind but a trigger: whoever changes a Machine's recorded version writes one that a plan has finished there |
| `PlanSafety.ReconcileRecordsFinished` | internal/controller/controlplane/inplace.go:119-131 | the same for a reconcile that brings the Machines of a completed plan up to its version |
| `PlanSafety.PollRecordsFinished` | internal/controller/controlplane/inplace.go:282-339 | the same for one round of a background updater |
| `PlanSafety.ExitKeepsNewerHandle` | internal/controller/controlplane/inplace.go:265-271 | the exit of an old updater never removes a newer cancel handle |
| `PlanSafety.StopLeavesNoneLive` | internal/controller/controlplane/inplace.go:274-280 | stopping leaves no live updater of that control plane |
| `PlanSafety.RecordAllComplete` | internal/controller/controlplane/inplace.go:234-247 | after a loop over the target nodes that ends without error, a Machine it knows has the version exactly when it had it before or its copy did not show it yet |
| `PlanSafety.UndercutBreaks` | extensions/inplaceversionupdate/handler.go:191-217 | the condition is exact for the claim too: from every world every such call has a continuation with two live updaters of one control plane |
| `PlanSafety.NoPlanDoublesUpdater` | internal/controller/controlplane/inplace.go:84-95 | a reconcile that finds no plan starts a second updater beside a live one, which then cannot be cancelled |
| `PlanSafety.HookCallDoublesUpdater` | extensions/inplaceversionupdate/handler.go:203-210 | such a run from a fresh controller: the delete of the call succeeds and its create does not |
| `PlanSafety.HookCallMisleadsUpdater` | internal/controller/controlplane/inplace.go:310-335 | a run in which a hook call makes a live updater record a version the node does not run |
| `PlanTables.RecordAllTable` | internal/controller/controlplane/inplace.go:234-247 | the loop over Machines ends well exactly when every patch it sends goes through, and then every named Machine whose copy showed another version has this one and nothing else is changed |
| `PlanTables.RecordAllStops` | internal/controller/controlplane/inplace.go:241-244 | otherwise it stops at the first patch that does not, with everything before it done |
| `PlanTables.PollTable` | internal/controller/controlplane/inplace.go:282-339 | a poll records exactly the signalled controllers, and the updater ends exactly on an error or when everyone is signalled |
| `PlanTables.PollRecordsEveryone` | internal/controller/controlplane/inplace.go:311-335 | with all patches answered well every signalled controller has the version |
| `PlanTables.HookTable` | extensions/inplaceversionupdate/handler.go:129-222 | the hook's three answers and the plan it leaves, case by case over the plan's state and the replies |
| `PlanTables.ReconcileTable` | internal/controller/controlplane/inplace.go:83-149 | the versions and the plan after a reconcile, case by case, with other clusters left alone |
| `PlanTables.ReconcileUpdaters` | internal/controller/controlplane/inplace.go:119-148 | which updater a reconcile stops, and which it starts, for which version and with which copies of the Machines |
| `PlanTables.CleanUpTable` | internal/controller/controlplane/inplace.go:265-271 | the exit of an updater forgets its handle exactly if that is the one stored |
| `PlanProgress.DriverProgress` | extensions/inplaceversionupdate/handler.go:129-145 | over every run that drives one machine with any failures, any plan states and reconciles that do not delete the job's completed plan: productive events are bounded by the initial rank, and at most one plan is created for the machine |
| `PlanProgress.UpdatedIffRankZero` | extensions/inplaceversionupdate/handler.go:175-222 | rank zero is exactly "the next undisturbed call answers completed" |
| `PlanProgress.EventRank` | extensions/inplaceversionupdate/handler.go:191-217 | an event moves the job back, and makes it owe another plan, exactly when it is a reconcile whose recording succeeds and whose delete of the job's completed plan lands; productive events move it on, also after a delete that landed without its create |
| `PlanProgress.NextEventHelps` | extensions/inplaceversionupdate/handler.go:167-173 | short of rank zero there is always an event that lowers it |
| `PlanProgress.DriveOne` | extensions/inplaceversionupdate/handler.go:96-223 | calling until retry is zero ends, with the version installed and no more plans created than owed, whatever finite faults occur |
| `PlanProgress.DriveAll` | extensions/inplaceversionupdate/handler.go:96-223 | driving any finite list in turn ends with every machine on the version last asked for it and at most one plan per machine |
| `PlanController.CancelMap.LoadAndDelete` | internal/controller/controlplane/inplace.go:277-279 | gives the stored handle, if any, and removes it |
| `PlanController.CancelMap.CompareAndDelete` | internal/controller/controlplane/inplace.go:266-266 | removes the entry only if it is the given handle |
| `PlanController.K0sController.StartUpdateMachineVersions` | internal/controller/controlplane/inplace.go:259-272 | performs the start step: a new updater whose handle replaces the stored one |
| `PlanController.K0sController.StopUpdateMachineVersions` | internal/controller/controlplane/inplace.go:275-280 | performs the stop step, keeps the standalone invariant and leaves no live updater of the control plane |
| `PlanController.K0sController.FinishUpdater` | internal/controller/controlplane/inplace.go:265-271 | performs the exit step and keeps the standalone invariant |
| `PlanController.K0sController.UpdateMachineVersion` | internal/controller/controlplane/inplace.go:341-358 | one version patch, which may be refused, lost or aimed at a Machine that is gone |
| `PlanController.K0sController.RecordVersions` | internal/controller/controlplane/inplace.go:223-248 | the loop records the version node by node up to the first failure, as the transition system does |
| `PlanController.K0sController.RunStandaloneAutopilotPlan` | internal/controller/controlplane/inplace.go:189-208 | creates the plan and starts an updater only if that succeeded |
| `PlanController.K0sController.RunInplaceUpdate` | internal/controller/controlplane/inplace.go:164-187 | takes the standalone way only without the extension |
| `PlanController.K0sController.ReconcileInplaceK0sVersionUpdate` | internal/controller/controlplane/inplace.go:62-149 | performs the reconcile step of the transition system, branch by branch, and keeps the standalone invariant |
| `PlanController.K0sController.UpdateMachineVersions` | internal/controller/controlplane/inplace.go:282-339 | performs the poll step and, for a live updater, keeps the standalone invariant |
| `PlanController.UpdateMachineHandler.CreateAutopilotPlanForMachine` | extensions/inplaceversionupdate/autopilot.go:38-68 | never replaces a plan that is there, touches nothing but the plan, keeps the cluster's reports truthful, and answers "updating" exactly when no plan was there and the one-node plan for the machine is known to be |
| `PlanController.UpdateMachineHandler.UpdateMachine` | extensions/inplaceversionupdate/handler.go:96-223 | performs the hook-call step; its answer and the plan it leaves are given case by case, it keeps the cluster's reports truthful, leaves an unfinished plan alone, and answers "completed" only for an installed version and exactly at rank zero |
| `Trigger.TriggerSafety` | internal/controller/controlplane/inplace.go:395-461 | over every run with a failure possible at each patch, other writers and completion anywhere, and starts from any copies: the hook becomes pending only in a trigger's hook patch and with the desired version, exactly unless the copy showed it while another was stored, which takes another writer since; a trigger moves the version at no other moment; and no Machine that is merely finishing is taken for an interrupted one |
| `Trigger.HookOverMarks` | internal/controller/controlplane/inplace.go:400-448 | over every such run with safe starts the hook becomes pending only over three marked objects |
| `Trigger.UnsafeStart` | internal/controller/controlplane/inplace.go:400-448 | the condition on starts is exact: after every run with no trigger in flight, every other start has a continuation that makes the hook pending over an object without its mark |
| `Trigger.StaleCopyMisleads` | internal/controller/controlplane/inplace.go:412-424 | such a run with a cached infra machine that still shows the mark of an update that is over |
| `Trigger.StepHookLast` | internal/controller/controlplane/inplace.go:438-448 | one step: all three marks are there when the hook patch lands |
| `Trigger.RetriggerWhileFinishing` | internal/controller/controlplane/inplace.go:400-448 | such a run on a Machine whose last update is being completed, with copies that are up to date |
| `Trigger.RecordedVersionStays` | internal/controller/controlplane/inplace.go:440-447 | a run in which a version recorded by somebody else stays under the hook, since the patch carries the version only if the copy did not show it |
| `Trigger.UnfinishedHistory` | internal/controller/controlplane/inplace.go:398-410 | what the history flag of interrupted triggers means |
| `Trigger.PatchDecreasesMissing` | internal/controller/controlplane/inplace.go:400-448 | a patch that changes something leaves one of four things fewer to do, and what is there is not written again |
| `Trigger.TriggerRecovers` | internal/controller/controlplane/inplace.go:397-451 | from every state without the hook an undisturbed pass ends with latch, hook and version, over three marks exactly when the cached copies show no mark that is gone; a disturbed one loses nothing and moves the version only together with the hook |
| `Trigger.TriggerOkIff` | internal/controller/controlplane/inplace.go:397-451 | an undisturbed trigger succeeds exactly when every patch its copies show as missing is answered well |
| `Trigger.TriggerTable` | internal/controller/controlplane/inplace.go:397-451 | the marks, hooks and version it leaves, whatever the answers |
| `Trigger.TriggerIsRun` | internal/controller/controlplane/inplace.go:397-451 | an undisturbed trigger is a run of the protocol: a begin and its patches |
| `Trigger.Store.TriggerCAPIInplaceVersionUpdate` | internal/controller/controlplane/inplace.go:397-451 | sends exactly what its copies show as missing, in order, up to the first patch that fails, with the outcome of the specification and, from a Machine without the hook, everything marked exactly when the copies show no mark that is gone |
| `Trigger.CompleteInOrder` | internal/controller/controlplane/inplace.go:483-497 | the loop gets through exactly when every interrupted Machine has its objects in scope and every patch its copies show as missing answered well; else it stops at the first that has not, as far as its trigger got, and touches nothing else |
| `Trigger.CompleteInterruptedTriggers` | internal/controller/controlplane/inplace.go:455-500 | true exactly when enabled, deployed, with work and every interrupted trigger getting through, and then latch, hook and version are on every interrupted Machine, its marks exactly when the cached copies show none that is gone; false exactly when disabled, not deployed or without work, and then nothing is written; no latched Machine is left without the hook by a pass that gets through |
| `Trigger.OtherHooksSurvive` | internal/controller/controlplane/inplace.go:383-393 | over a whole trigger, whatever others do: once its hook patch lands, another controller's hook is listed exactly when it was at the last refresh of the Machine copy, which is the latch reply or the begin |
| `Trigger.ConcurrentHookLost` | internal/controller/controlplane/inplace.go:438-448 | a run in which it does not |
| `HookList.SplitJoin` | internal/controller/controlplane/inplace.go:367-375 | splitting undoes joining for every non-empty list of comma-free names |
| `HookList.AscendingUnique` | internal/controller/controlplane/inplace.go:383-393 | the text written does not depend on the order in which the set hands out its members |
| `HookList.MarkHookMeaning` | internal/controller/controlplane/inplace.go:367-393 | for every annotation text: marking adds exactly the hook, writes ascending names without duplicates, and marking twice equals marking once |
| `HookList.Annotated.MarkHookPending` | internal/controller/controlplane/inplace.go:383-393 | does so on the object's annotation and touches no other |
| `JsonText.ReadRendered` | internal/autopilot/autopilot.go:90-126 | reading a rendered JSON document gives its value, whatever the white space |
| `PlanText.NodesAreJoined` | internal/autopilot/autopilot.go:118-118 | the node array is the names joined by quote-comma-quote between brackets and quotes |
| `PlanText.GetPlanTargetNodes` | internal/autopilot/autopilot.go:159-201 | the nodes of all targets one after the other in some order of the targets; it fails exactly when a target cannot be read |
| `PlanText.ReadsPrinted` | internal/autopilot/autopilot.go:204-216 | what the readers find in a printed plan |
| `PlanText.PlanRoundTrip` | internal/autopilot/autopilot.go:76-216 | for texts free of quotes, backslashes and control characters the version reads back, and the nodes exactly when there are any |
| `PlanText.ReadersYieldClean` | internal/autopilot/autopilot.go:159-216 | from whatever text, a reader of JSON without escapes gets only clean versions and nodes |
| `PlanText.PlanReadsBackIff` | internal/autopilot/autopilot.go:76-216 | for every version and node list, the rest being clean: the plan reads back exactly when version and nodes are clean and there are nodes |
| `PlanText.PlanContents` | internal/autopilot/autopilot.go:76-126 | the printed text is the whole plan object: each download URL under its platform, identity, timestamp, version, target and nodes in their places |
| `PlanText.ReadersIff` | internal/autopilot/autopilot.go:159-216 | from any plan, version and targets are read exactly if they are in their place under the first command |
| `PlanText.TargetIff` | internal/autopilot/autopilot.go:183-198 | a target lists nodes exactly if it is an object with such an array in its place |
| `PlanText.PrintAndRead` | internal/autopilot/autopilot.go:159-216 | the same of the reading code |
| `PlanText.QuoteCollision` | internal/autopilot/autopilot.go:118-118 | a plan for one node with quote-comma-quote in its name is read as a plan for two |
| `Prune.DeepEqualExact` | hack/convert/v1beta2.go:242-269 | values that deepEqual accepts are equal exactly when no null entry dangles |
| `Prune.PruneBaselineFields` | hack/convert/v1beta2.go:221-240 | the loop, in any key order, computes the baseline prune |
| `Prune.PruneEmptyMaps` | hack/convert/v1beta2.go:272-281 | the loop, in any key order, computes the prune of empty objects |
| `Prune.PrunePreservesMeaning` | hack/convert/v1beta2.go:221-269 | overlaying the pruned tree on the baseline equals overlaying the original exactly when no null dangles in a compared value |
| `Prune.NoNullInListsIsFaithful` | hack/convert/v1beta2.go:221-269 | having no null inside lists is enough for that |
| `Prune.NullSwap` | hack/convert/v1beta2.go:249-252 | a tree whose meaning pruning changes |
| `Prune.PruneBaselineLeaves` | hack/convert/v1beta2.go:221-240 | surviving leaves keep path and value, removed ones are the baseline's |
| `Prune.LeafRemovedIff` | hack/convert/v1beta2.go:221-240 | where tree and baseline both have a leaf, either prune removes it exactly when deepEqual takes it for the baseline's |
| `Prune.EmptiesWereThere` | hack/convert/v1beta2.go:229-235 | an object that the baseline prune empties goes with its key |
| `Prune.PrunedManifest` | hack/convert/v1beta2.go:209-210 | after both prunes: no empty object outside lists, surviving leaves in place, removed leaves the baseline's, and a second round changes nothing |
| `Prune.PruneEmptyMeaning` | hack/convert/v1beta2.go:272-281 | when removing empty objects keeps the meaning, exactly |
| `Prune.PipelineMeaning` | hack/convert/v1beta2.go:209-210 | for every manifest: the meaning survives both prunes exactly when no null dangles in a compared value and no hollow object hides a baseline leaf |
| `LineWriter.LinesUnique` | inttest/util/k0sutil.go:73-90 | lines and remainder are the only way to spell a stream |
| `LineWriter.LinesOfParts` | inttest/util/k0sutil.go:66-70 | splitting a stream in two parts and carrying the remainder over gives the same lines |
| `LineWriter.LineWriter.Append` | inttest/util/k0sutil.go:67-67 | the buffer grows by the bytes, in place or in a larger array |
| `LineWriter.LineWriter.LogLines` | inttest/util/k0sutil.go:73-90 | emits every terminated line of the buffer in order and compacts the newline-free remainder to its front |
| `LineWriter.LineWriter.Write` | inttest/util/k0sutil.go:66-70 | the same of the old remainder followed by the new bytes |
| `LineWriter.LineWriter.Flush` | inttest/util/k0sutil.go:94-100 | emits the remainder unless it is empty |
| `LineWriter.WriteAll` | inttest/util/k0sutil.go:60-100 | for every split of a stream into writes the lines are its terminated segments, and with the flushed remainder they spell the stream |
| `Base64.DecodeEncode` | internal/provisioner/powershell.go:86-87 | decoding undoes encoding for every byte sequence |
| `Base64.DigitsAreAlphabet` | internal/provisioner/powershell.go:86-87 | the digits are the standard alphabet in order, and no other character is one |
| `Base64.GroupBits` | internal/provisioner/powershell.go:86-87 | the digits of a group are the bits of its bytes, high ones first |
| `Base64.PaddedBits` | internal/provisioner/powershell.go:86-87 | likewise for the padded groups |
| `Base64.DecodesIff` | internal/provisioner/provisioner.go:86-89 | exactly whole groups of digits with padding only at the end decode |
| `Base64.EncodeInert` | internal/provisioner/powershell.go:86-87 | encoded text holds no quote, line break or white space |
| `Base64.GlueFields` | internal/provisioner/provisioner.go:86-86 | splitting into fields and joining drops the white space and nothing else |
| `Base64.SpaceIsIgnored` | internal/provisioner/provisioner.go:83-91 | an encoding with white space anywhere in it decodes to the encoded bytes |
| `Base64.DecodeDependsOnNonSpace` | internal/provisioner/provisioner.go:83-91 | white space never changes the result, also for malformed input |
| `Base64.ContentTable` | internal/provisioner/provisioner.go:95-104 | which encodings are decoded how, and that any other is refused |
| `Base64.Utf8Spells` | internal/provisioner/provisioner.go:97-98 | the bytes of a text spell its characters (section 3 of RFC 3629) |
| `PowerShell.QuoteRoundTrip` | internal/provisioner/powershell.go:107-109 | reading a quoted literal gives the string and stops at the closing quote, by the ASCII doubled-quote rule always, and by PowerShell's own rule exactly when the string has no typographic single quote |
| `PowerShell.NormaliseFixes` | internal/provisioner/powershell.go:57-58 | normalised text has no carriage return, and exactly texts without one are left alone |
| `PowerShell.BreaksBecomeLineFeeds` | internal/provisioner/powershell.go:57-58 | every line break becomes one line feed |
| `PowerShell.NormaliseQuoted` | internal/provisioner/powershell.go:57-58 | normalising a literal normalises what it quotes |
| `PowerShell.ToProvisionData` | internal/provisioner/powershell.go:31-60 | fails exactly when a file cannot be decoded, otherwise the normalised blocks, commands and user data |
| `PowerShell.TailReadsBack` | internal/provisioner/powershell.go:41-55 | every command is there, whole, in order and on its own line, and the user data comes last |
| `PowerShell.ScriptWritesFiles` | internal/provisioner/powershell.go:67-103 | the normalised script writes every file with exactly its decoded bytes and ends where the rest of the input begins, exactly when no name has a quote that is not doubled: always by the ASCII quote rule, by PowerShell's own for names without typographic quotes |
| `FilePath.DirIsClean` | internal/provisioner/powershell.go:68-68 | the directory made for a file is rooted exactly when its path is, has no empty or dot element and double dots only in front of a relative one, and is left alone by another cleaning |
| `FilePath.DirOfFile` | internal/provisioner/powershell.go:68-68 | the directory of a file is what its path names in front of it |
| `PowerShell.ProvisionAndRun` | internal/provisioner/powershell.go:31-103 | the same, in both directions, of the script that is returned, with the rest of the input after it |
| `PowerShell.PathKept` | internal/provisioner/powershell.go:57-58 | the path is kept exactly when it has no carriage return, the bytes and the mode always |
| `UpgradeDetection.ConversionRoundTrip` | api/bootstrap/v1beta1/k0s_controller_config_conversion.go:55-146 | nothing of v1beta1 is lost; of v1beta2 exactly what v1beta1 has no place for |
| `UpgradeDetection.ConvertedFields` | api/bootstrap/v1beta1/k0s_controller_config_conversion.go:55-91 | where each member of a converted config comes from |
| `UpgradeDetection.DefaultsIdempotent` | internal/controller/controlplane/helper.go:316-342 | defaulting is idempotent and absorbs the API server's own defaults |
| `UpgradeDetection.DecoderChoice` | internal/controller/controlplane/helper.go:389-419 | the tag `provisioner` is in every v1beta2 annotation and in no v1beta1 one |
| `UpgradeDetection.TagsDiffer` | internal/controller/controlplane/helper.go:389-419 | no two members of the schemas share a json tag |
| `UpgradeDetection.V1RoundTrip` | internal/controller/controlplane/helper.go:389-419 | a v1beta1 annotation reads as the converted config, up to explicitly empty lists |
| `UpgradeDetection.V2RoundTrip` | internal/controller/controlplane/helper.go:389-419 | the same for a v1beta2 annotation |
| `UpgradeDetection.NoNeedlessRollout` | internal/controller/controlplane/helper.go:273-342 | a Machine annotated by an old release is up to date against the converted and defaulted config, whatever its K0s block, exactly when no list is explicitly empty |
| `UpgradeDetection.UpToDateIsEquality` | internal/controller/controlplane/helper.go:273-342 | for v1beta2 annotations being up to date is equality up to defaults and the K0s block |
| `UpgradeDetection.VerdictTable` | internal/controller/controlplane/helper.go:273-342 | the verdict field by field: all members but the K0s block agree, those with defaults after them; and the cases without config, without annotation and with a garbled one |
| `UpgradeDetection.OldVerdict` | internal/controller/controlplane/helper.go:273-342 | the same for v1beta1 annotations and their converted form |
| `UpgradeDetection.UpToDateIsEquivalence` | internal/controller/controlplane/helper.go:273-342 | hence reflexive, symmetric and transitive on specs without explicitly empty lists |
| `UpgradeDetection.ReflexiveIff` | internal/controller/controlplane/helper.go:273-342 | and a spec is up to date with itself exactly when it has none |
| `ClusterConversion.ReadBack` | api/k0smotron.io/v1beta1/k0smotroncluster_service_annotations.go:27-72 | what every reader finds after the dropped fields were stored |
| `ClusterConversion.ReadersIff` | api/k0smotron.io/v1beta1/k0smotroncluster_service_annotations.go:50-72 | what each reader makes of any annotation |
| `ClusterConversion.HubFields` | api/k0smotron.io/v1beta1/k0smotroncluster_conversion.go:90-140 | where each member of a stored spec comes from |
| `ClusterConversion.V1Unchanged` | api/k0smotron.io/v1beta1/k0smotroncluster_conversion.go:90-184 | a v1beta1 spec comes back unchanged exactly when its load balancer class is not the empty string and no annotation is left over for an unset field |
| `ClusterConversion.SecondTripSettled` | api/k0smotron.io/v1beta1/k0smotroncluster_conversion.go:90-184 | a second trip changes nothing more |
| `ClusterConversion.RemovedLabelsReturn` | api/k0smotron.io/v1beta1/k0smotroncluster_conversion.go:118-121 | labels stored once come back after a v1beta1 client removed them |
| `ClusterConversion.V2Unchanged` | api/k0smotron.io/v1beta1/k0smotroncluster_conversion.go:144-200 | which v1beta2 specs survive v1beta1, exactly |
| `ClusterConversion.V2KeepsService` | api/k0smotron.io/v1beta1/k0smotroncluster_conversion.go:172-182 | annotations that were read and stored again read the same |
| `ClusterConversion.AddDropped` | api/k0smotron.io/v1beta1/k0smotroncluster_conversion.go:48-59 | the annotations of the destination, in any map order |
| `ClusterConversion.Convert` | api/k0smotron.io/v1beta1/k0smotroncluster_conversion.go:38-87 | there and back, with the condition for the identity |
| `Remediation.RemoveIff` | internal/controller/controlplane/remediation.go:50-124 | a Machine is deleted exactly when no remediation is in progress, it is the oldest candidate and, once initialised, another Machine stays, every healthy one has a node and none is deleting |
| `Remediation.VerdictNamesOldest` | internal/controller/controlplane/remediation.go:55-67 | a pass leaves everything alone exactly when remediation is in progress or nobody needs it, and otherwise speaks of the oldest candidate |
| `Remediation.WaitIff` | internal/controller/controlplane/remediation.go:82-120 | a Machine has to wait, and for which reason, exactly by the first guard that does not hold |
| `Remediation.CarryTable` | internal/controller/controlplane/remediation.go:84-132 | what the conclusion of a pass writes on which Machine |
| `Remediation.CleaningKeepsVerdict` | internal/controller/controlplane/remediation.go:39-49 | cleaning healthy Machines never changes whose turn it is |
| `Remediation.RemediationSafety` | internal/controller/controlplane/remediation.go:36-142 | over every run of an initialised control plane, whatever the annotation says: remediation has at most one Machine on its way out; when it deletes, the Machines deleting are exactly those that others asked to delete after the pass had read them, and those healthy without a node were reported on since; and an active Machine is left exactly when others spared or created one, in particular when they removed fewer than the pass had besides its own |
| `Remediation.DeleteIsSafe` | internal/controller/controlplane/remediation.go:82-132 | the guarantees of one remediation delete |
| `Remediation.Histories` | internal/controller/controlplane/remediation.go:135-139 | what the recorded histories of a run mean |
| `Remediation.StepLeavesActive` | internal/controller/controlplane/remediation.go:82-124 | a step leaves an active Machine exactly unless it is a deletion of the last one by others, or a remediation delete for which others spared none |
| `Remediation.ActiveNeverEmpty` | internal/controller/controlplane/remediation.go:83-93 | over every run, with others deleting as they like: there is always an active Machine exactly when no step is of that kind |
| `Remediation.AloneKeepsActive` | internal/controller/controlplane/remediation.go:83-93 | so remediation alone never takes the active count below one |
| `Remediation.PassIsRun` | internal/controller/controlplane/remediation.go:36-142 | what an undisturbed pass does to the Machines is what a run of its steps does |
| `Remediation.OutsiderRace` | internal/controller/controlplane/remediation.go:110-124 | a run in which another deletion between read and delete leaves none |
| `Remediation.Fleet.SanitizeHealthyMachines` | internal/controller/controlplane/remediation.go:162-183 | sends a patch to every healthy Machine that is marked for remediation and to no other, goes on after failures and reports them |
| `Remediation.Fleet.RemediateOldest` | internal/controller/controlplane/remediation.go:55-141 | carries out the verdict: condition, delete, annotation and error |
| `Remediation.Fleet.ReconcileUnhealthyMachines` | internal/controller/controlplane/remediation.go:36-142 | the whole pass and its result |
| `Oldest.FindOldest` | internal/controller/controlplane/remediation.go:62-62 | the member that comes before all others by creation time, then name |
| `InitialController.FirstIsOldest` | internal/controller/bootstrap/controlplane_bootstrap_controller.go:357-357 | whatever part of the Machines is seen, the first one is elected exactly when it is seen |
| `InitialController.ReconcileTable` | internal/controller/bootstrap/controlplane_bootstrap_controller.go:178-334 | when a reconcile stores data, of which kind, and when the latch with it |
| `InitialController.SingleInitialController` | internal/controller/bootstrap/controlplane_bootstrap_controller.go:231-369 | over every interleaving of creations and reconciles with views as old and partial as they like: only the first Machine's config ever receives initial data exactly when no reconcile that misses the first Machine stores data for the oldest it sees, and then at most one config does |
| `InitialController.CrownedTwice` | internal/controller/bootstrap/controlplane_bootstrap_controller.go:357-369 | from every state such a reconcile followed by one of the first Machine leaves two configs with initial data |
| `InitialController.KindNeverChanges` | internal/controller/bootstrap/controlplane_bootstrap_controller.go:309-331 | if besides no reconcile of the first Machine's config misses that Machine and stores its data, the first config has initial data, every other data to join, and none ever changes its kind, even when its latch was never stored |
| `InitialController.StepKeepsKindsIff` | internal/controller/bootstrap/controlplane_bootstrap_controller.go:357-369 | one step keeps these kinds exactly when it is neither of those reconciles |
| `InitialController.KindChanges` | internal/controller/bootstrap/controlplane_bootstrap_controller.go:357-369 | from every state each of them followed by an undisturbed reconcile of the same config changes the kind of its data |
| `InitialController.LatchHolds` | internal/controller/bootstrap/controlplane_bootstrap_controller.go:178-182 | a latched config whose own reconciles see the latch keeps its data whatever becomes of the Machines |
| `InitialController.FirstRemoved` | internal/controller/bootstrap/controlplane_bootstrap_controller.go:357-363 | a run with two initial configs once the first Machine is no longer listed |
| `InitialController.ControlPlaneController.Reconcile` | internal/controller/bootstrap/controlplane_bootstrap_controller.go:178-334 | performs the reconcile step: latch, oldest Machine, secret, status |
| `ReconcileCounters.Diff` | e2e/util/metrics.go:69-82 | for every order of the maps: one entry per reported controller, the sum over the pods of the growth of its counter |
| `ReconcileCounters.Total` | e2e/util/metrics.go:55-63 | the sum over the pods, which is the difference from nothing |
| `ReconcileCounters.OnePod` | e2e/util/metrics.go:73-78 | one counter after a history: start plus increments without resets, the increments since the last reset with them |
| `ReconcileCounters.OnePodExact` | e2e/util/metrics.go:73-78 | what one pod adds is at most its increments, and all of them exactly when it loses nothing |
| `ReconcileCounters.NeverOverReports` | e2e/util/metrics.go:65-82 | for every history and every scrape of its end a difference is at most the reconciles in the window |
| `ReconcileCounters.ExactIff` | e2e/util/metrics.go:65-82 | for every history and every scrape of its end the difference is exact if and only if no pod loses anything: a scraped pod was not reset, or was reset before its first increment and has not come up to its old count, and any other pod did not increment |
| `ReconcileCounters.ExactWithoutResets` | e2e/util/metrics.go:65-82 | in particular when no pod was reset or disappeared and the scrape missed none |
| `ReconcileCounters.RestartHides` | e2e/util/metrics.go:75-77 | a restart can hide a reconcile |
| `NodeSearch.SearchMeaning` | internal/controller/bootstrap/providerid_controller.go:133-159 | the flat search gives the verdict at the first matching node |
| `NodeSearch.SearchIff` | internal/controller/bootstrap/providerid_controller.go:133-159 | the three answers in terms of identity, name, label and addresses of the nodes |
| `NodeSearch.NodeForMachine` | internal/controller/bootstrap/providerid_controller.go:124-167 | for every finite page chain the verdict on the concatenated list, and an error only if no earlier page matched |
| `NodeSearch.PagingDoesNotMatter` | internal/controller/bootstrap/providerid_controller.go:124-167 | two listings of the same nodes have the same answer |
| `NodeSearch.SearchPage` | internal/controller/bootstrap/providerid_controller.go:133-159 | one page, with the order identity, name, label, address |
| `NodeSearch.AddressesMeet` | internal/controller/bootstrap/providerid_controller.go:152-158 | the two loops find a shared address that is not a loopback one |
| `NodeSearch.ClaimIsFound` | internal/controller/bootstrap/providerid_controller.go:92-114 | after the identity was set the next search reports it as set, and a node with another identity is left alone |

## Left out

- Atomicity: each hook call, reconcile of the plan and updater poll is one step, since deleting the plan has no precondition (internal/autopilot/autopilot.go:55-57); trigger patches and remediation passes are interleaved step by step.
- Stale reads: the initialised flag seen by remediation is taken as stored at the time of the read.
- Unavailable control planes: whether a rollout is held while the control plane is unavailable (internal/controller/controlplane/inplace.go:62-74) only concerns requeueing and has no step here.
- PlanSafety.StandaloneSafety: says nothing about the version written by the trigger of the in-place extension, which comes before the plan by design.
- Progress of two machines polled alternately through the hook: each can replace the other's completed plan, so only one machine at a time is driven.
- Trigger.TriggerSafety: hooks are a set there, while that the text is such a set is proved in HookList.
- Classification of Machines (internal/controller/controlplane/k0s_controlplane_controller.go:763-822): the reconcile step takes any classification, so the safety results hold for every one; modelling it would only add easy members.
- Prune.PruneBaselineFields: maps are values, so the update in place of nested maps shared with others is not modelled.
- LineWriter.LineWriter.LogLines: a line is what the callback is given at the time of the call; that the slice it gets is overwritten by later writes is not modelled.
- LineWriter.LineWriter.Flush: likewise, for the buffer that is handed out.
- PowerShell.ScriptWritesFiles: only the statements the provisioner writes are read, not PowerShell in general.
- PowerShell.ProvisionAndRun: likewise.
- JSON: escapes, numbers and case-insensitive member names, which a clean plan text does not need; what an escape in an unclean text would decode to is not modelled; annotation values of Clusters are modelled by what they decode to, an empty text like a malformed one.
- UpgradeDetection.UpToDateIsEquality: the comparison kept for Machines without the annotation (internal/controller/controlplane/helper.go:350-386) enters as its verdict, and configs refer to no JSON null.
- ReconcileCounters.Diff: counts are integers; rounding of floating-point counters is not modelled.
- NodeSearch.NodeForMachine: whether an address is a loopback one is a parameter, and page chains that never end are not covered, as the source would not return either.
- Status fields of converted objects, worker config conversion, failure domains, scaling, join tokens, tunneling, ingress, webhooks, YAML, gzip, Ignition, version parsing and generated code.
