# supergiant orchestration core in Dafny

A model of the orchestration layer of supergiant, a Kubernetes cluster manager written in Go. It
covers:

- **The durable task queue** (`Tasks`). Task records live in a key-value store. Start enqueues a
  QUEUED task with 20 allowed attempts. Claim moves a task to RUNNING by compare-and-swap.
  RecordError re-queues the task or freezes it at FAILED.
- **The Procedure step runner** (`Procedures`). Steps run in order. The owning model is saved
  after every step that succeeds. The first step error or save error ends the run.
- **The two DigitalOcean providers** (`ProviderDO` for `pkg/core/provider_do.go`, `DigitalOcean`
  for `pkg/provider/digitalocean/provider.go`):
  - CreateKube and DeleteKube as Procedures of self-guarding steps;
  - the droplet creation sequence, including the cancellable wait for the public address;
  - DeleteNode, and the volume and load-balancer operations, which are not implemented.
- **The resource lifecycles of Kubes, Entrypoints and EntrypointListeners** (`CoreKubes`,
  `CoreEntrypoints`, `CoreEntrypointListeners`, over `Actions`). Create inserts the record,
  loads what it needs and dispatches a provisioning Action. Delete builds a deleting Action whose
  closure tears down the children in a fixed order and stops at the first error.
- **The node observer** (`NodeObserver`). Each node record of a ready Kube is matched by first
  match to a Kubernetes node, an address, a condition, a node size and a Heapster metric. It is
  then refreshed and saved.
- **The Entrypoint model** (`Model`): BeforeCreate's provider id `"sg-" + Name` and the rule on
  names.

### How the model works

**External answers.** Every external call is an entry in a trace: the cloud API, the database,
the file system, the Kubernetes API and the Action runtime. An oracle (`Outcomes.Env`) answers
the call at position n. It says whether the call fails and with which error, and what it
returns: a droplet id, an address, a count. Properties are therefore stated for every possible
answer.

**Panics.** Go runtime panics are an `Outcome` of their own (`Panic`): a nil dereference or an
index out of range. In createDroplet of the DigitalOcean provider a failed reload of the droplet
overwrites the captured droplet pointer with nil, so the next poll of the address wait
dereferences nil; the model carries that pointer and that panic.

**Form of each part.**

| source shape | Dafny shape |
|---|---|
| Objects whose fields the code updates | classes (`Store`, `TaskResource`, `Procedure`, `Entrypoint`, `Core`, `Observer`) |
| Loops | methods with loop invariants, each proved equal to a recursive specification function, about which the lemmas are stated |
| Step closures, which must be values to be stored in a Procedure | functions from a `Cloud.World` to the new world and an error |

### Where the design description and the code differ

The model follows the code.

- **RecordError** compares `Attempts < MaxAttempts` before incrementing. A task that always fails
  with the default cap is therefore re-queued 20 times. It becomes FAILED on its 21st failure,
  with 21 attempts, not after `maxAttempts` cycles (`Tasks.DefaultRetryBound`).
- **Claim** does not check that the task is QUEUED. Claiming a snapshot that is already RUNNING
  succeeds for every claimant (`Tasks.ClaimOfRunningAlwaysSucceeds`). At most one claim wins only
  for snapshots that are not RUNNING (`Tasks.ClaimRaceAtMostOne`).
- **A missing Heapster metric or node size** for a node makes the observer dereference a nil
  pointer. It is modelled as a panic of the pass (`NodeObserver.RefreshPanicsIff`), not as a
  precondition.

## Model

| member | source | states |
|---|---|---|
| Tasks.NewTask | core/task.go:96-103 | the record Start builds is QUEUED, with 0 attempts, MaxAttempts 20, no error, and the given type and data |
| Tasks.TaskCollection.Start | core/task.go:90-105 | an encoding failure or a failed insert returns that error and stores nothing; otherwise exactly one new task, NewTask of the type and payload, is stored under a key not used before |
| Tasks.TaskCollection.Get | core/task.go:76-87 | a stored id gives a resource holding that task and that id; a missing id gives the not-found error and no resource |
| Tasks.Store.CreateInOrder | core/task.go:68-73 | the insert stores the task under a fresh key and changes nothing else, or returns the store's error and changes nothing |
| Tasks.Store.Get | core/task.go:78 | the load succeeds exactly when the key is present, with the stored value; otherwise it gives the not-found error |
| Tasks.Cas | core/task.go:147 | the compare-and-swap succeeds exactly when the key holds the expected value, and then replaces only that key; otherwise it changes nothing and reports not-found or compare-failed |
| Tasks.Store.CompareAndSwap | core/task.go:147 | the store and the error after the call are those of Cas on the store before |
| Tasks.Update | core/task.go:120-123 | an update of an existing key replaces only that value and keeps the key set; a missing key changes nothing |
| Tasks.Store.UpdateTask | core/task.go:120-123 | the store and the error after the call are those of Update on the store before |
| Tasks.TaskResource.IsQueued | core/task.go:130-132 | holds exactly when the status reads "QUEUED" |
| Tasks.Claimed | core/task.go:143-145 | the candidate value is RUNNING and equal to the task in every other field |
| Tasks.TaskResource.Claim | core/task.go:136-148 | one compare-and-swap with the in-memory task as the expected value and its RUNNING copy as the new one; the in-memory task is not changed |
| Tasks.ClaimRaceAtMostOne | core/task.go:134-148 | of any number of claims from one snapshot that is not RUNNING, at most one succeeds; when one does, the stored task is the RUNNING copy; when none does, the store is unchanged |
| Tasks.ClaimRaceExactlyOne | core/task.go:134-148 | of n ≥ 1 claims from the current snapshot of a task that is not RUNNING, exactly one wins and stores the RUNNING copy, and a further claim from that snapshot fails with a compare failure |
| Tasks.ClaimRaceStale | core/task.go:134-148 | claims from a snapshot that is no longer the stored task all fail and leave the store unchanged |
| Tasks.SecondClaimConflicts | core/task.go:134-148 | with a current QUEUED snapshot the first claim succeeds and a second one from the same snapshot gets compare-failed |
| Tasks.TwoWorkersClaim | core/task.go:134-148 | two workers holding the same queued task claim it in turn: the first gets nil, the second compare-failed, and the store holds the RUNNING copy |
| Tasks.ClaimOfRunningAlwaysSucceeds | core/task.go:136-148 | claiming a snapshot that is already RUNNING leaves the store as it was and succeeds for every one of n claimants |
| Tasks.AfterFailure | core/task.go:153-159 | the error becomes the message and attempts go up by exactly one; the status becomes QUEUED exactly when the attempts before the increment were below the cap, FAILED otherwise; no other field changes |
| Tasks.TaskResource.RecordError | core/task.go:150-162 | the in-memory task becomes AfterFailure of the old one and is written back with an ordinary update |
| Tasks.RetryBound | core/task.go:154-159 | a task whose handler always fails keeps QUEUED for maxAttempts failures, is FAILED from failure maxAttempts + 1 on with maxAttempts + 1 attempts, and is then left alone |
| Tasks.DefaultRetryBound | core/task.go:101 | with the default cap the task is still QUEUED after 20 failures and FAILED with 21 attempts after the 21st |
| Tasks.EtcdKey | core/task.go:36-42 | every key is a rooted path |
| Tasks.EtcdKeyOfPlainId | core/task.go:36-42 | the key of a non-empty id without slashes or dot elements is "/tasks/" followed by the id |
| Tasks.EtcdKeyOfEmptyId | core/task.go:39 | joining drops an empty id: its key is the collection key "/tasks" |
| Tasks.CleanTwoPlain | core/task.go:39 | cleaning a rooted path of two plain elements leaves it unchanged |
| Tasks.TypeNameInjective | core/task.go:164-179 | distinct task types get distinct names: the five handler names and the decimal codes never collide |
| Strconv.Itoa | core/task.go:177 | the decimal form is non-empty and begins with a digit or a minus sign |
| Strconv.Atoi | pkg/core/provider_do.go:201 | succeeds exactly on an optionally signed run of decimal digits whose value lies in the 64-bit range, with that value; otherwise fails with a syntax or range error that quotes the input |
| Strconv.ParseItoa | core/task.go:177 | reading back the decimal form gives the number |
| Strconv.AtoiItoa | pkg/core/provider_do.go:201 | Atoi inverts Itoa on every 64-bit integer |
| Strconv.ItoaInjective | core/task.go:177 | distinct integers have distinct decimal forms |
| Strconv.QuoteChar | pkg/core/provider_do.go:201 | Quote keeps a character exactly when it is printable ASCII other than the quote and the backslash, or beyond ASCII; any other character becomes a backslash escape of printable ASCII, and a quote character appears only escaped |
| Strconv.Quote | pkg/core/provider_do.go:201 | the quoted text begins and ends with a double quote and is at least two characters longer than the input |
| Strconv.QuoteKeeps | pkg/core/provider_do.go:201 | a string of kept characters is quoted as itself between double quotes |
| Strconv.EscapeAppend | pkg/core/provider_do.go:201 | quoting works character by character: the escaped text of a concatenation is the concatenation of the escaped texts |
| Strconv.QuoteASCIIPrintable | pkg/core/provider_do.go:201 | an ASCII input, control characters included, is quoted as printable ASCII |
| Strconv.AtoiErrorQuotes | pkg/core/provider_do.go:201 | for an input of kept characters, the syntax and range errors read `strconv.Atoi: parsing "<input>": invalid syntax` and `…: value out of range` |
| Procedures.Procedure.AddStep | pkg/core/procedure.go:17-19 | the step is appended after the earlier ones, with no deduplication |
| Procedures.Procedure.Run | pkg/core/procedure.go:21-32 | the final state, error and event trace are those of Exec from the first step |
| Procedures.ExecShape | pkg/core/procedure.go:21-32 | the steps before some k ran and were saved in order; then either all steps are done and nil is returned, or step k failed and its own error is returned with no save, or the save after step k failed and the save's error is returned; nothing after k runs |
| Procedures.PatternPositions | pkg/core/procedure.go:22-30 | in the events of completed steps, step j is invoked only at position 2j and saved at 2j + 1, so steps run in order, at most once, with one save each |
| Procedures.AllSucceed | pkg/core/procedure.go:21-32 | when every step and every save succeeds, nil is returned after exactly one save per step; an empty procedure saves nothing |
| Procedures.ExecPreserves | pkg/core/procedure.go:21-32 | a property every step and every save preserves holds of the state a run ends in |
| Cloud.SaveKube | pkg/core/procedure.go:27 | the checkpoint issues one save of the in-memory Kube; the stored Kube becomes the in-memory one exactly when the save succeeds |
| Cloud.NodesOf | pkg/core/provider_do.go:100 | the association lookup returns exactly the node records of the Kube |
| ProviderDO.TagsNameTheKube | pkg/core/provider_do.go:39-44 | the four global tags are the cluster tag and three tags that begin with the Kube name; the master's tags are the first three, the last being the droplet's name |
| ProviderDO.CreateTags | pkg/core/provider_do.go:45-53 | one tag creation per tag, in order, whatever the answers |
| ProviderDO.TagStep | pkg/core/provider_do.go:37-55 | the tag step creates the four global tags and always returns nil |
| ProviderDO.TagAll | pkg/core/provider_do.go:284-298 | one tagging call per tag, in order, whatever the answers |
| ProviderDO.CreateDroplet | pkg/core/provider_do.go:274-312 | a failed create returns its error after that one call; otherwise every tag is tried in order right after it, then the reload, and the droplet comes back exactly when the reload and the address lookup both succeed, carrying the created id and the address read |
| ProviderDO.MasterStep | pkg/core/provider_do.go:57-94 | a no-op when the master has an address; it keeps the saved model, the node table and the earlier calls, and an error leaves the Kube unchanged |
| ProviderDO.MasterStepCalls | pkg/core/provider_do.go:62-85 | without an address, the user data is read first and the master droplet is created right after from it; a failed reload ends the calls |
| ProviderDO.MasterStepResult | pkg/core/provider_do.go:62-93 | without an address, nil comes back exactly when the read, the create, the reload and the address lookup succeed, and then only MasterID and MasterPublicIP change, to the created id and the address read |
| ProviderDO.MinionStepWith | pkg/core/provider_do.go:100-111 | the Kube's nodes are loaded; a node record with KubeID = the Kube's id and Size = the first node size is created only when the Kube has none; nil means the Kube has a node; with kubeAttached, the same step of pkg/provider/digitalocean/provider.go:110-122, which attaches the Kube to the new record |
| ProviderDO.KubernetesReady | pkg/core/provider_do.go:116-122 | a listing error means not done, never an error; done exactly when at least one node is listed |
| ProviderDO.PollKubernetes | pkg/core/provider_do.go:116-122 | only node listings are issued, at most the budget of them, and fewer only when the cluster became ready |
| ProviderDO.WaitForKubernetes | pkg/core/provider_do.go:115-123 | the wait lists nodes only and returns nil or the wait's own error |
| ProviderDO.PollKubernetesReady | pkg/core/provider_do.go:116-122 | the polls report ready exactly when the last listing succeeded with at least one node; no earlier listing did; and polls that give up found no such listing within the budget |
| ProviderDO.WaitForKubernetesReady | pkg/core/provider_do.go:115-123 | the wait returns nil exactly when one of the listings within the budget succeeded with at least one node |
| ProviderDO.CreateKube | pkg/core/provider_do.go:28-126 | a "Create Kube" procedure of the tag, master, minion and wait steps, in that order, run once |
| ProviderDO.DeleteMasterStep | pkg/core/provider_do.go:139-148 | a no-op when MasterID is 0; otherwise exactly one delete of that droplet, and MasterID becomes 0 exactly when it succeeded |
| ProviderDO.DeleteKube | pkg/core/provider_do.go:129-151 | a "Delete Kube" procedure of the one master-deleting step; pkg/provider/digitalocean/provider.go:140-162 is written identically |
| ProviderDO.DeleteKubeRun | pkg/core/provider_do.go:139-150 | one run deletes the master droplet once exactly when there is one and the delete succeeds, then holds MasterID 0; nil means the database holds the Kube as left in memory |
| ProviderDO.DeleteKubeTwiceDeletesOnce | pkg/core/provider_do.go:139-148 | two runs on the in-memory model delete the master droplet at most once, and not at all in the second run once the first deleted it |
| ProviderDO.DeleteKubeRerunFromCheckpoint | pkg/core/provider_do.go:139-150 | after a run that returned nil, a run on the Kube reloaded from the database deletes nothing |
| ProviderDO.DeleteKubeLostCheckpointDeletesTwice | pkg/core/provider_do.go:139-150 | when the delete succeeds and the checkpoint save fails, a run from the database deletes the droplet a second time |
| ProviderDO.CreateKubeStepsKeep | pkg/core/provider_do.go:57-111 | no step provisions anything on a Kube whose master has an address and which has a node |
| ProviderDO.CreateKubeRerunProvisionsNothing | pkg/core/provider_do.go:37-125 | re-running Create Kube on such a Kube creates no droplet and no node and deletes nothing |
| ProviderDO.MasterRetryAfterFailedReloadCreatesAgain | pkg/core/provider_do.go:58-91 | the guard looks at the address only: when the reload after a successful create fails, the next run creates a second master droplet |
| ProviderDO.DeleteNode | pkg/core/provider_do.go:198-207 | a provider id that is not a 64-bit decimal integer returns Atoi's error with no call; otherwise exactly one delete of that droplet, returning its answer; pkg/provider/digitalocean/provider.go:218-227 is written identically |
| ProviderDO.VolumeOrEntrypoint | pkg/core/provider_do.go:209-247 | every volume and load-balancer operation issues no call and returns the same error; pkg/provider/digitalocean/provider.go:229-267 is written identically |
| DigitalOcean.TagAllKeepingError | pkg/provider/digitalocean/provider.go:304-318 | one tagging call per tag, in order; a failure never aborts, and the captured err ends as the last tag call's answer |
| DigitalOcean.ProbeIP | pkg/provider/digitalocean/provider.go:322-330 | on a nil droplet pointer the predicate panics before any call; otherwise it is done exactly when the reload and the address lookup both succeed, with the looked-up address; a failed reload leaves the pointer nil and carries its error after one call; a failed lookup carries its error after both calls |
| DigitalOcean.PollIP | pkg/provider/digitalocean/provider.go:320-330 | polling keeps everything but the calls and extends them; an address found comes with a nil err and the droplet pointer set; with no budget nothing happens; giving up after at least one poll leaves a non-nil err |
| DigitalOcean.PollIPTrace | pkg/provider/digitalocean/provider.go:320-330 | the polls read off the trace: reloads and lookups alternate, every call but the last is a poll that is not done, and the wait ends with the last lookup's address, with a panic when a failed reload is followed by another poll, with the last error when the budget ran out, or with err untouched when no poll ran |
| DigitalOcean.WaitForIP | pkg/provider/digitalocean/provider.go:320-330 | the wait issues its WaitFor first; it returns nil exactly when an address was found, which comes with a nil err; a wait with no poll leaves err as the tagging left it, and one that polled and found nothing leaves err non-nil |
| DigitalOcean.WaitForIPTrace | pkg/provider/digitalocean/provider.go:320-330 | the wait's polls are those of PollIPTrace from the call after the WaitFor; the wait returns nil when they found an address, the panic when a poll panicked, and its own error otherwise |
| DigitalOcean.TagAndWait | pkg/provider/digitalocean/provider.go:303-333 | after a create that succeeded, the created id comes back, the create is the first call, the wait returns nil exactly when an address was found, and an address found comes with a nil captured err |
| DigitalOcean.TagAndWaitPolls | pkg/provider/digitalocean/provider.go:303-333 | after the create come the tag calls in order, the WaitFor, then the polls of a wait on the created droplet that start from the last tag call's answer and end as PollIPTrace says |
| DigitalOcean.TagAndWaitQuietIff | pkg/provider/digitalocean/provider.go:303-333 | the captured err is nil after the wait gave up exactly when it gave up before any poll and the last tag call, if any, succeeded |
| DigitalOcean.CreateDropletAsWritten | pkg/provider/digitalocean/provider.go:294-336 | a failed create returns its error after that one call; a droplet that comes back carries the created id and a nil error |
| DigitalOcean.AsWrittenPolls | pkg/provider/digitalocean/provider.go:294-336 | as written, after a create that succeeded, a droplet with the found address comes back exactly when the polls found one; otherwise the captured err comes back: the last poll's error, the panic of a poll on the nil droplet, or the last tag call's answer when no poll ran |
| DigitalOcean.AsWrittenQuietIff | pkg/provider/digitalocean/provider.go:294-336 | as written, no droplet with no error comes back exactly when the create succeeded, the wait gave up before polling and the last tag call, if any, succeeded |
| DigitalOcean.TagEach | pkg/provider/digitalocean/provider.go:304-318 | the tagging loop, updating the captured err in place, computes TagAllKeepingError |
| DigitalOcean.PollEach | pkg/provider/digitalocean/provider.go:320-330 | the polling loop, updating the captured droplet pointer, address and err in place and panicking on a nil pointer, computes PollIP |
| DigitalOcean.CreateDropletSteps | pkg/provider/digitalocean/provider.go:294-336 | the create, the tagging loop and the polling loop with the captured droplet pointer, address and err compute CreateDropletAsWritten |
| DigitalOcean.CreateDroplet | pkg/provider/digitalocean/provider.go:294-336 | the corrected createDroplet: a droplet comes back exactly when no error does, with the created id; a failed create returns its error |
| DigitalOcean.CreateDropletPolls | pkg/provider/digitalocean/provider.go:294-336 | corrected, after a create that succeeded, a droplet with the found address comes back exactly when the polls found one; otherwise the panic of a poll on the nil droplet or the wait's own error |
| DigitalOcean.ReloadFailurePanics | pkg/provider/digitalocean/provider.go:322-325 | when the first reload fails and the wait allows a second poll, both createDroplet variants panic on the nil droplet |
| DigitalOcean.MasterUserData | pkg/provider/digitalocean/provider.go:66-77 | the user data is read, parsed and executed in that order; it succeeds exactly when all three calls do, with the executed text |
| DigitalOcean.MasterStepUsing | pkg/provider/digitalocean/provider.go:60-104 | a no-op when the master has an address; otherwise it keeps the saved model, the node table and the earlier calls, and an error leaves the Kube unchanged; CreateKube registers it with createDroplet as written (MasterStep) |
| DigitalOcean.MasterStepCreates | pkg/provider/digitalocean/provider.go:60-104 | without an address, a step of the as-written master step returning nil created the master droplet from the executed template, recorded its id as MasterID and the address of the last lookup as MasterPublicIP, and changed no other field |
| DigitalOcean.MasterStepAsWrittenPanics | pkg/provider/digitalocean/provider.go:96-102 | as written, a wait that gives up before polling after a last tag call that succeeded makes the master step dereference the nil droplet; MasterStepCorrected returns the wait's error instead |
| DigitalOcean.MasterStepReloadPanics | pkg/provider/digitalocean/provider.go:60-104 | when the first reload of the master droplet fails and the wait allows a second poll, both master steps panic on the nil droplet |
| DigitalOcean.CreateKube | pkg/provider/digitalocean/provider.go:31-137 | a "Create Kube" procedure of the tag step, the master step with createDroplet as written, the minion step and the wait step, in that order, run once |
| DigitalOcean.CreateKubeStepsKeep | pkg/provider/digitalocean/provider.go:60-123 | no step provisions anything on a Kube whose master has an address and which has a node |
| DigitalOcean.CreateKubeRerunProvisionsNothing | pkg/provider/digitalocean/provider.go:40-136 | re-running Create Kube on such a Kube creates no droplet and no node and deletes nothing |
| Actions.RunPlanFacts | pkg/core/kubes.go:52-72 | running a list of effects performs a prefix of it; every effect performed but the last succeeded; nil comes back exactly when all were performed and succeeded; otherwise the error is the last performed effect's, which failed |
| Actions.RunPlanStopsAt | pkg/core/kubes.go:53-55 | when the effects before position k succeed and the one at k fails, nothing after k is performed and k's error is returned |
| Actions.RunPlanAll | pkg/core/kubes.go:52-72 | when every effect succeeds, all are performed and nil is returned |
| Actions.LastAttemptedIff | pkg/core/kubes.go:69-72 | the last effect is attempted exactly when every earlier one succeeded |
| Actions.RunPlanAppend | pkg/core/kubes.go:52-68 | running two lists one after the other: the second starts only when the first returned nil, and then picks up at the next position |
| CoreKubes.WithDefaultCredentials | pkg/core/kubes.go:16-19 | both credentials are set to the random strings of 16 and 8 characters exactly when both were empty; otherwise the Kube is untouched; no other field changes; at least one credential is set afterwards |
| CoreKubes.DefaultCredentialsIdempotent | pkg/core/kubes.go:16-19 | applying the defaults again, with any random strings, changes nothing |
| CoreKubes.ProvisionAction | pkg/core/kubes.go:25-36 | "provisioning", 20 retries, locked on the Kube's UUID, running the provider's CreateKube on the Kube |
| CoreKubes.CreateDispatchesOnlyAfterInsert | pkg/core/kubes.go:21-37 | an insert error is returned and nothing is dispatched; otherwise the Action is dispatched asynchronously and the dispatch's answer is returned |
| CoreKubes.Kubes.Create | pkg/core/kubes.go:14-38 | the Kube gets the default credentials; then the effects and the error are those of running insert, then async dispatch |
| CoreKubes.DeleteAction | pkg/core/kubes.go:40-50 | Delete builds, and does not run, an Action with "deleting", 5 retries, the given id, cancelExisting set, the four preloads, and the cascade as its closure |
| CoreKubes.CascadePhases | pkg/core/kubes.go:52-72 | the closure deletes every entrypoint, then every node, then every volume, each in list order, then the Kube at the provider, then the record |
| CoreKubes.RecordDeletedOnlyAfterEverythingElse | pkg/core/kubes.go:69-72 | the record delete is only ever the last effect, and it is attempted exactly when every child delete and the provider's DeleteKube succeeded |
| CoreKubes.Kubes.DeleteEach | pkg/core/kubes.go:52-68 | one loop of child deletes: either all succeed and the run goes on, or the run ends at the first failure with its error |
| CoreKubes.Kubes.RunDelete | pkg/core/kubes.go:51-73 | the effects and the error of the closure are those of running the cascade, stopping at the first error |
| CoreEntrypoints.ProvisionAction | pkg/core/entrypoints.go:19-31 | "provisioning", 5 retries, locked on the entrypoint's UUID, running the provider's CreateEntrypoint |
| CoreEntrypoints.CreateOrder | pkg/core/entrypoints.go:9-32 | the Kube is loaded only after a successful insert; the Action is dispatched exactly when the insert and the load succeeded; the first error is returned, else the dispatch's answer |
| CoreEntrypoints.Entrypoints.Create | pkg/core/entrypoints.go:9-32 | the effects and the error are those of running insert, load, async dispatch, stopping at the first error |
| CoreEntrypoints.DeleteAction | pkg/core/entrypoints.go:34-51 | "deleting", 5 retries, the given id, neither a resource lock nor cancelExisting, the Kube.CloudAccount preload |
| CoreEntrypoints.DeleteRecordOnlyAfterProvider | pkg/core/entrypoints.go:44-49 | the provider's DeleteEntrypoint comes first; the record is deleted exactly when it succeeded; its error, or else the record delete's, is returned |
| CoreEntrypoints.Entrypoints.RunDelete | pkg/core/entrypoints.go:44-49 | the effects and the error of the closure are those of running provider delete, then record delete |
| CoreEntrypoints.NeverDeletedOnDigitalOcean | pkg/core/entrypoints.go:45-47 | against a DigitalOcean account the provider delete always fails, so the closure stops there and the record is never deleted |
| CoreEntrypointListeners.ProvisionAction | pkg/core/entrypoint_listeners.go:16-28 | "provisioning", 5 retries, locked on the listener's UUID, running the provider's CreateEntrypointListener |
| CoreEntrypointListeners.CreateReturnsActionResult | pkg/core/entrypoint_listeners.go:9-29 | the insert error, then the load error, is returned before any Action runs; the Action runs now exactly when both succeeded, and its result is Create's result |
| CoreEntrypointListeners.EntrypointListeners.Create | pkg/core/entrypoint_listeners.go:9-29 | the effects and the error are those of running insert, load, synchronous run |
| CoreEntrypointListeners.DeleteAction | pkg/core/entrypoint_listeners.go:31-46 | "deleting", 5 retries, both the given id and the listener's UUID as resource lock, no cancelExisting |
| CoreEntrypointListeners.DeleteKeepsRecord | pkg/core/entrypoint_listeners.go:42-44 | the closure performs only the provider's DeleteEntrypointListener, never a record delete, and returns its answer |
| CoreEntrypointListeners.EntrypointListeners.RunDelete | pkg/core/entrypoint_listeners.go:42-44 | the effects and the error of the closure are those of the one provider call |
| Model.ProviderIDFor | pkg/model/entrypoint.go:10-20 | the provider id is 3 characters longer than the name; for a valid name it has at most 24 characters, all of them letters, digits, '_' or '-' |
| Model.NameOfProviderID | pkg/model/entrypoint.go:20 | stripping succeeds exactly on ids that begin with "sg-", and gives the rest |
| Model.ProviderIDRoundTrip | pkg/model/entrypoint.go:20 | stripping "sg-" from the derived provider id gives back the name |
| Model.ProviderIDInjective | pkg/model/entrypoint.go:20 | different names give different provider ids |
| Model.Entrypoint.BeforeCreate | pkg/model/entrypoint.go:19-22 | the provider id becomes "sg-" + Name, from which the name is recovered; nil is returned and only the provider id is written |
| Model.BeforeCreateTwice | pkg/model/entrypoint.go:19-22 | two calls leave the same provider id as one, and no other field changes |
| NodeObserver.FirstIndexFacts | pkg/core/node_observer.go:35-40 | the position found matches, and no element before it does; the length when nothing matches |
| NodeObserver.FirstIndexIs | pkg/core/node_observer.go:35-40 | the first match is the only position that matches with none matching before it |
| NodeObserver.FindFirst | pkg/core/node_observer.go:35-40 | the range loop with break computes FirstIndex |
| NodeObserver.RefreshUnmatched | pkg/core/node_observer.go:34-40 | with no Kubernetes node of the record's name, the external IP and OutOfDisk stay as they were |
| NodeObserver.RefreshExternalIP | pkg/core/node_observer.go:43-48 | the external IP becomes the address of the first "ExternalIP" entry of the matched node, or stays as it was when there is none |
| NodeObserver.RefreshOutOfDisk | pkg/core/node_observer.go:51-58 | OutOfDisk becomes whether the first "OutOfDisk" condition's status is "True", or stays as it was when there is none |
| NodeObserver.RefreshUsage | pkg/core/node_observer.go:60-80 | the usage comes from the first metric of the node's name and the limits from the first size of the node's size; the record's identity fields are untouched |
| NodeObserver.RefreshPanicsIff | pkg/core/node_observer.go:60-80 | the refresh dereferences nil exactly when no metric has the node's name or no size of the provider has the node's size |
| NodeObserver.Observer.RefreshNode | pkg/core/node_observer.go:34-80 | the four first-match loops and the field assignments compute Refresh |
| NodeObserver.Ready | pkg/core/node_observer.go:14 | the query returns only ready Kubes, each with only its nodes that have a provider id |
| NodeObserver.ReadyAppend | pkg/core/node_observer.go:14 | the query keeps order Kube by Kube: on a concatenation it gives the concatenation, and a single Kube comes back, with only its nodes that have a provider id, exactly when it is ready |
| NodeObserver.ReadyMembers | pkg/core/node_observer.go:14 | every ready Kube comes back with only its nodes that have a provider id, and nothing else does |
| NodeObserver.WithProviderID | pkg/core/node_observer.go:14 | the node filter keeps exactly the nodes with a provider id |
| NodeObserver.ListingErrorSavesNothing | pkg/core/node_observer.go:22-30 | a failed metrics or node listing ends the pass with that error before any node is saved |
| NodeObserver.ObserveNodesAborts | pkg/core/node_observer.go:82-84 | within a Kube, a failed save ends the pass with its error and nothing is called after it |
| NodeObserver.ObserveNodesSavesAll | pkg/core/node_observer.go:32-85 | when the Kube's pass returns nil, each node is saved exactly once, refreshed, in order |
| NodeObserver.ObserveKubeAborts | pkg/core/node_observer.go:20-85 | a Kube's pass stops at its first failing call and returns that call's error |
| NodeObserver.ObserveKubesAborts | pkg/core/node_observer.go:18-86 | over the Kubes, the first failing call ends the pass with its error; later nodes and Kubes are not touched |
| NodeObserver.ObserveAborts | pkg/core/node_observer.go:12-89 | a whole pass stops at its first failing call and returns its error; nil means every call succeeded |
| NodeObserver.Observer.ObserveKubeNodes | pkg/core/node_observer.go:32-85 | the inner loop's saves and error are those of ObserveNodes |
| NodeObserver.Observer.ObserveOneKube | pkg/core/node_observer.go:20-85 | one Kube's listings, saves and error are those of ObserveKube |
| NodeObserver.Observer.ObserveEach | pkg/core/node_observer.go:18-86 | the outer loop's calls and error are those of ObserveKubes |
| NodeObserver.Observer.Perform | pkg/core/node_observer.go:12-89 | the calls and the error of Perform are those of Observe |

## Left out

- The Action runtime is not part of this model: Now, Async, retries, status records, cancellation of an Action in flight, and the timers of CancellableWaitFor. Dispatching an Action is one effect, answered by the oracle. A wait gives up after an oracle-chosen number of polls.
- The Go SDK of DigitalOcean, the OAuth2 token source, the file reads, the template engine, the Kubernetes client, the database and the key-value store are foreign calls. Their answers come from the oracle.
- util.RandomString becomes two string parameters of lengths 16 and 8.
- json.Marshal in Start becomes a parameter that holds either the bytes or the encoding error. The store's own I/O failure is a parameter of CreateInOrder.
- The limit arithmetic of the node observer (`CPUCores * 1000`, `RAMGIB * 1073741824`) involves floating point. NodeSize carries the limits already converted.
- The Go code updates the Kube and Node records in place through pointers. The model treats them as values that the steps return. Aliasing between the step closures and the Procedure's model is not captured beyond that.
- CreateNode of both DigitalOcean providers is not modelled: it reads a file, renders a template, creates a droplet and parses a timestamp. ValidateAccount is not modelled either: it is one listing call whose error is returned.
- Logging has no behavioural effect and is left out. In createDroplet and the tag step, a logged failure is modelled as an answer that is ignored.
- The provider lookup by cloud account (`CloudAccounts.provider`) is left out. Closures name the provider operation they call.
- Concurrency between workers is modelled as claims made one after another on one shared store.
- Integers are unbounded except where the code converts them: Atoi checks the 64-bit range.
- path.Join is modelled for the keys it builds here: the rooted "tasks/" + id. Its full cleaning of dot elements is stated only through Resolve.
- ProviderDO.PollKubernetes: the budget of polls is a number from the oracle, not a 20-minute timeout with a 3-second interval.
- DigitalOcean.WaitForIP: the budget of polls is a number from the oracle, not a 5-minute timeout with a 5-second interval. The source of CancellableWaitFor is not part of this model; a panic in its predicate is taken to end the wait and reach the caller.
- DigitalOcean.MasterStepCorrected: does not promise that it never panics. Returning the wait's error removes only the nil droplet with a nil error; a poll after a failed reload still dereferences the nil droplet (DigitalOcean.ReloadFailurePanics).
- Strconv.QuoteChar: escapes ASCII only. Go's Quote also writes non-printable characters beyond ASCII as \u or \U escapes; strings here are sequences of Unicode scalar values, so invalid UTF-8 does not arise.

## Findings

| source | as written | input that shows it | evidently intended | confidence | as-written member | corrected member |
|---|---|---|---|---|---|---|
| pkg/provider/digitalocean/provider.go:331-333 | when the address wait gives up, createDroplet returns the named `err`, not `waitErr`; `err` holds whatever the last tag call or predicate left, possibly nil | the template steps, the droplet create and the last tag call succeed, and the wait is cancelled or times out before its first poll: createDroplet returns a nil droplet and a nil error, and the master step then reads `masterDroplet.ID` and panics | return `waitErr`, so that a droplet comes back exactly when no error does | not executed | DigitalOcean.CreateDropletAsWritten, DigitalOcean.AsWrittenQuietIff, DigitalOcean.MasterStepAsWrittenPanics | DigitalOcean.CreateDroplet, DigitalOcean.CreateDropletPolls, DigitalOcean.MasterStepCorrected |
