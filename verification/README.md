# Pulumi controller runtime: a verified model

The controller reconciles one Kubernetes object against a set of cloud resources. Each pass adds a
finalizer, loads the last snapshot from a Secret, previews, writes the status, deploys if the preview
reported changes, writes the status again, and drops the finalizer of a deleted object. The functions are
short; that nothing is orphaned, that the stored state never goes backwards and that no state write is lost
holds only across all of them, over every interleaving and crash. This project models that protocol and
proves it.

## Layout

| file | contents |
|---|---|
| Options.dfy, Store.dfy | optional values; create-if-absent and update-if-version-matches |
| Protocol.dfy | the protocol as one step machine: object, Secret, cloud, workers, environment |
| History.dfy | what holds with any number of workers, stale reads and unchecked status writes |
| Safety.dfy | orphan freedom, state survival, result soundness, the fence |
| Necessity.dfy | a run that orphans a resource for each assumption dropped; the exact characterisation; the deletion policy |
| Convergence.dfy | the requeue loop ends |
| Timely.dfy | what holds in addition while no save arrives late; finalization ends |
| PassRuns.dfy | what a pass has done by the time it returns |
| Reconciler.dfy | `ReconcileObject` statement by statement; its executions are runs of the machine |
| Decimal.dfy, References.dfy | the stored generation; stack references and Secret names |
| Snapshotter.dfy, StackRuns.dfy | the Secret snapshotter and the stack with aliased handles; a stack over any sequence of operations, saves and other clients' writes |
| Refinement.dfy | heap and machine side by side over a pass |
| Events.dfy, Status.dfy | the event stream and its drain; the sample's status callback |
| HostSharing.dfy | the reconciler's shared host context |
| Registry.dfy, PluginHost.dfy | the plugin registry as a function of its call history; the host and its lifetime |

`dafny verify dfyconfig.toml` checks everything.

## The machine

One object and one Secret on an API server, the live resources, the create requests still in flight, any
number of workers inside `ReconcileObject`, and an environment that edits the object, requests its deletion,
changes other finalizers, collects the Secret, completes creates late and lets resources vanish. Object reads
may return any version that ever existed. Every API write is answered, applied with its answer lost, or
not applied; a write without an answer may still be on the way and arrive at any later time, even after its worker
has crashed, if the version check lets it. A worker may crash between any two steps. A pass re-reads the deletion mark of its local object where
the code does, and answered writes refresh that object in place.

The engine is not part of the repository; it enters as a contract. A dry run writes nothing. A real run
saves its snapshot for the begin and the end of every create and delete, creates only what an Update's
configuration asks for, deletes only what the target leaves out, records an outcome only once it is settled,
and succeeds only if no save failed and its snapshot is the target. A preview reports no change only if the
snapshot is the target already.

What the code leaves to its surroundings are the seven flags of `Assumptions`:

* `singleWorker`: one pass at a time for the object. The work queue sees to it within a manager, leader election
  across managers.
* `freshSecretReads`: a load sees the Secret's current value.
* `checkedStatus`: the status callback's write is refused on a stale resource version, as the sample's is.
* `pendingBlocks`: the engine reports neither "no change" nor success over pending entries.
* `writeAhead`: a create is issued only after its pending entry was saved.
* `ownerFirst`: even in a foreground deletion the Secret is collected only after its owner. The Secret's owner
  reference blocks owner deletion, so the garbage collector does the opposite: dependents go first.
* `finalizerKept`: nobody else removes the controller's finalizer.

Orphan freedom holds if and only if all seven do (`OrphanFreeExactly`).

## Where the code falls short of what one would claim

* A foreground cascading deletion can orphan resources (`OrphanWithForegroundDeletion`): the Secret is deleted
  while the object still waits for the controller, and the destroy then finds nothing to do. The deletion policy
  decides: under the other six assumptions no run without a foreground deletion orphans anything
  (`DeletionPolicyDecides`).
* The shipped wiring does not give fresh reads of the Secret: pkg/reconcile/builder.go:157 hands the snapshotter
  the manager's client, whose reads come from a cache. `OrphanWithStaleSecret` is a run it allows.
* The sample leaves leader election off unless asked (sample/main.go:55-57). Two of its managers make
  `OrphanWithTwoWorkers` a run it allows.
* A save without an answer can arrive after its worker has crashed and the object is gone. Nothing is orphaned, but
  the Secret then lists a pending create that was never issued. It cannot happen exactly if no save may arrive late
  (`LateSavesDecide`).
* Passes that overlap through one reconciler share its `hostContext` field. Two of them can close one host twice and
  the other never (`OverlapLeaksAHost`); every host is closed once exactly if no pass makes its host while another
  is between making and taking (`HostsCloseOnceExactly`).
* A Secret that stores no snapshot loads as if it were absent, without a handle, so every later save is a
  create on a taken name (`NilSnapshotLocksOut`).
* A cluster-scoped object's stack name never parses (`ClusterScopedNeverParses`).
* The Ready condition can miss the preview's last event, exactly when that event is a summary that
  contradicts everything before it (`PreviewStatus`).
* A plugin is left out of the list if an earlier one's name and version run together to the same text
  (`DistinctPluginsShareAKey`).
* A host made before a failing `LoadStack` is never closed (`PassLifetime`).
* The last pass before the loop ends can deploy (`LastPassDeploys`): a pass that destroys also drops the finalizer
  and returns without a requeue. A pass that returns so has deployed exactly if it dropped the finalizer after a
  preview with changes, and otherwise has made no save (`QuietPassDeployedExactly`).
* `ReconcileOptions.StackConfig` never reaches the engine: the configuration of an operation is the object
  alone, and so it is in the machine.

## Model

| member | source | states |
|---|---|---|
| Necessity.OrphanFreeExactly | pkg/reconcile/reconciler.go:72-178 | no reachable state has the object gone and a resource live, if and only if all seven assumptions hold |
| Safety.OrphanFreedom | pkg/reconcile/reconciler.go:75-82 | without the object, or without the controller's finalizer on it, nothing is live and nothing is in flight, late writes included |
| Safety.SecretRecordsLive | pkg/backend/stack.go:271-283 | in every reachable state the Secret's resources and pending entries cover what is live or in flight |
| Safety.SecretSurvives | pkg/backend/snapshot.go:262-279 | over any run, a Secret that existed and is now gone left no object and no live resource behind |
| Safety.RemovalIsClean | pkg/reconcile/reconciler.go:167-174 | in every reachable state where the finalizer removal lands, answered or not, nothing is live or in flight, and the Secret accounts for nothing unless a late save overtook the pass |
| Safety.RemovalOnlyAfterDestroy | pkg/reconcile/reconciler.go:104-110 | with any number of workers and checked status writes, a pass about to drop the finalizer previewed and, if it deployed, deployed a Destroy of an object that was deleted at its fence |
| Safety.PreviewMatchesDeployment | pkg/reconcile/reconciler.go:125-145 | with any number of workers and checked status writes, preview and deployment of a pass share operation and configuration, the server's at the fence, and the base snapshot, which is the stored one or else none of the pass's saves can land |
| Safety.DeploymentIsFenced | pkg/reconcile/reconciler.go:135-145 | with any number of workers, before each deployment of a pass its preview status write was answered while the server held exactly the local object, and the pass did not move in between |
| Safety.QuietResultIsSound | pkg/reconcile/reconciler.go:140-177 | a return without error and requeue means object gone, or nothing to change, nothing live beyond the fenced target and no finalizer to drop, or finalizer dropped with nothing live |
| PassRuns.QuietPassDeployedExactly | pkg/reconcile/reconciler.go:126-177 | over any run, between its start and such a return a pass started a deployment exactly if it dropped the finalizer after a preview with changes; otherwise its engine took no step, so it saved nothing |
| Necessity.LastPassDeploys | pkg/reconcile/reconciler.go:167-174 | a run whose last pass destroys a live resource and returns without error and requeue |
| Necessity.SecondPassIsQuiet | pkg/reconcile/reconciler.go:126-177 | a run of two passes: the first deploys and requeues, the second finds nothing to do and returns quietly |
| Necessity.GonePassIsQuiet | sample/controllers/iamaccount_controller.go:60-63 | a run that ends with a quiet pass over the object that is gone |
| Necessity.StaleObjectIsRequeued | pkg/reconcile/reconciler.go:84-89 | a run in which a pass over a stale object meets a Secret of a later generation and is requeued |
| Safety.SavedSnapshotCovers | pkg/backend/stack.go:271-283 | in every reachable state, every snapshot the engine hands to Save covers all that is live or in flight |
| Necessity.OrphanWithTwoWorkers | pkg/reconcile/reconciler.go:143-145 | two workers can orphan a resource |
| Necessity.OrphanWithStaleSecret | pkg/backend/snapshot.go:189-198 | a stale Secret read can orphan a resource |
| Necessity.OrphanWithUncheckedStatus | sample/controllers/iamaccount_controller.go:163-168 | a status write without version check can orphan a resource: it refreshes the deletion mark after an Update preview |
| Necessity.OrphanWithIgnoredPending | pkg/reconcile/reconciler.go:140-141 | previewing over pending entries can orphan a resource |
| Necessity.OrphanWithoutWriteAhead | pkg/backend/stack.go:271-283 | creating before saving can orphan a resource |
| Necessity.OrphanWithForegroundDeletion | pkg/backend/snapshot.go:265-273 | a foreground deletion, with dependents collected first, can orphan a resource |
| Necessity.BackgroundDeletionIsOrphanFree | pkg/backend/snapshot.go:265-273 | under the other six assumptions every run without a foreground deletion is orphan free |
| Necessity.DeletionPolicyDecides | pkg/backend/snapshot.go:265-273 | with dependents collected first, all runs are orphan free if and only if nobody may ask for a foreground deletion |
| Necessity.LateSaveOutlivesObject | pkg/backend/snapshot.go:262-279 | a save without an answer can create the Secret after its worker crashed and the object is gone, with an entry for nothing |
| Necessity.OrphanWithStrippedFinalizer | pkg/reconcile/reconciler.go:76-77 | stripping the finalizer can orphan a resource |
| History.NoLostUpdate | pkg/backend/snapshot.go:252-291 | with any number of workers the Secret's writes form one chain, each authored against exactly the write before it, ending in the Secret |
| History.AcceptedHandleIsCurrent | pkg/backend/stack.go:193-213 | whenever the server would accept a worker's handle, the worker's cached snapshot and handle are what a fresh load would return |
| History.RaceHasOneWinner | pkg/backend/snapshot.go:281-287 | after one worker's write landed no other worker's handle is accepted |
| History.SecretGenerationNeverFalls | pkg/backend/snapshot.go:182-184 | over any run the generation of an existing Secret never decreases |
| History.SecretNeverAheadOfObject | pkg/backend/snapshot.go:179-184 | the Secret's generation is at most the object's while both exist |
| History.GenerationCountsEdits | pkg/backend/snapshot.go:179-184 | every write of the object gets a version no copy has, and exactly specification edits and the first deletion request count as a generation |
| History.MismatchMeansStaleObject | pkg/reconcile/reconciler.go:84-89 | a generation mismatch means the local object is older than the server's, even if the Secret read was stale |
| History.StatusStampsCurrentGeneration | sample/controllers/iamaccount_controller.go:163-168 | a checked status write that lands stamps the generation the server holds then |
| History.LateStatusStampsCurrentGeneration | sample/controllers/iamaccount_controller.go:163-168 | so does one that lands late |
| History.ObservedGenerationNeverFalls | sample/controllers/iamaccount_controller.go:163-168 | over any run with checked status writes the observed generation never decreases |
| History.ObservedWithinGeneration | sample/controllers/iamaccount_controller.go:163 | the observed generation is at most the generation |
| History.PutIsFinalizerOnly | pkg/reconcile/reconciler.go:77-78 | an accepted update of the object changes its finalizer and nothing else, so it never bumps the generation |
| Convergence.RequeueLoopEnds | pkg/reconcile/reconciler.go:126-177 | once nobody edits the object, the first k + 2 pass results hold a quiet one if at most k of them are failures |
| Convergence.GoneEndsLoop | sample/controllers/iamaccount_controller.go:60-63 | every pass over a vanished object returns quietly |
| Convergence.CountsOf | pkg/reconcile/reconciler.go:126-177 | the counts of quiet, requeued and failed results are those of the results themselves |
| Convergence.SinceIsAdded | pkg/reconcile/reconciler.go:126-177 | the results counted are all that the run added |
| Convergence.AtMostOneProgress | pkg/reconcile/reconciler.go:163-164 | in such a run at most one pass requeues after a successful deployment |
| Convergence.NoDeploymentAfterProgress | pkg/reconcile/reconciler.go:140-165 | after that pass no later one deploys and the Secret, while it has an owner, is never written again, not even by a late save |
| Timely.FinalizationEnds | pkg/reconcile/reconciler.go:167-174 | for a deleted object k + 1 results suffice while no save arrives late |
| Timely.RemovedSecretIsEmpty | pkg/reconcile/reconciler.go:167-174 | without late saves the Secret of an object that is gone or without the finalizer lists nothing |
| Timely.LateSavesDecide | pkg/reconcile/reconciler.go:167-174 | under all assumptions the Secret accounts for nothing once the finalizer is gone, over all runs, if and only if no save may arrive late |
| Timely.DeploymentStartsFromStored | pkg/backend/stack.go:196-214 | without late saves a deployment starts from the stored snapshot |
| Reconciler.ReconcileObject | pkg/reconcile/reconciler.go:72-178 | against arbitrary interference the code's order of calls and early returns is a run of the machine in which each of its actions is what the answers to its calls make it; its return values are the pass's recorded result; that is a failure only on a bad answer or a conflict, mismatch or unsettled engine in the run, and otherwise a deleted object with the finalizer is finalized; a quiet return leaves nothing live beyond what the object asks for |
| Reconciler.EnsureFinalizer | pkg/reconcile/reconciler.go:75-82 | the pass goes on only with a finalizer or a deleted object, with specification and deletion mark as read |
| Reconciler.PreviewChanges | pkg/reconcile/reconciler.go:124-138 | the pass goes on only after an answered status write, with specification and deletion mark as before; otherwise it returned an error or a requeue |
| Reconciler.DeployChanges | pkg/reconcile/reconciler.go:140-165 | a deployment is started exactly on changes; it returns early with an error or a requeue, and otherwise requeues exactly if it deployed |
| Reconciler.Finalize | pkg/reconcile/reconciler.go:167-177 | a landed removal cancels the requeue and is recorded as finalized, a failed one is an error; otherwise the requeue stands; a quiet return leaves nothing live beyond the object's target |
| Reconciler.ApplyStack | pkg/reconcile/reconciler.go:124-177 | preview, deployment and finalizer removal in that order; a failing return needs a bad answer or a hindrance in the run |
| Reconciler.Attempt.LoadStack | pkg/reconcile/reconciler.go:180-189 | no stack means the load failed or met a mismatch, and the pass returned, requeued exactly on a mismatch; a stack keeps the local object |
| Reconciler.Attempt.RunDeployment | pkg/reconcile/reconciler.go:145-155 | any interleaving of engine steps with everybody else ends as the engine says, but never in success over an unsettled snapshot |
| Decimal.FormatParse | pkg/backend/snapshot.go:209-212 | parsing a formatted number gives it back for exactly the numbers of 64 bits |
| Decimal.FormatIsDecimal | pkg/backend/snapshot.go:249 | the stored generation is written in decimal digits with a minus sign if negative |
| Decimal.ParseSigns | pkg/backend/snapshot.go:209-212 | a plus sign changes nothing and a minus sign negates, as far as 64 bits go |
| Decimal.FormatIsInjective | pkg/backend/snapshot.go:249 | two generations are stored alike only if equal |
| References.ReferenceRoundTrip | pkg/backend/stack.go:303-309 | parsing a reference's name restores it exactly when the namespace is a qualified name and the UID a name |
| References.KubernetesReferencesRoundTrip | pkg/backend/stack.go:303-325 | references of lower-case letters, digits and hyphens round-trip |
| References.ParsesExactly | pkg/backend/stack.go:303-313 | character by character which texts parse |
| References.ParsedParts | pkg/backend/stack.go:308-313 | a parsed text is its namespace, a slash and a UID without one, or a bare UID |
| References.NameRoundTrip | pkg/backend/stack.go:323-325 | naming a parsed reference restores the text exactly when it had a slash |
| References.ClusterScopedNeverParses | pkg/backend/stack.go:295-297 | an object without a namespace has a name that never parses |
| References.SecretNameShape | pkg/backend/snapshot.go:296-301 | an object's Secret lies in the object's namespace and is named pulumi- and the UID |
| References.SecretNamesAreDistinct | pkg/backend/snapshot.go:296-301 | distinct references have distinct Secrets |
| References.QNamesAreDistinct | pkg/backend/stack.go:323-325 | references with slash-free UIDs have distinct names |
| Snapshotter.EncodeDecode | pkg/backend/snapshot.go:237-250 | decoding stored data restores the snapshot and every int64 generation |
| Snapshotter.RecordShape | pkg/backend/snapshot.go:246-250 | a stored record has the two entries checkpoint and generation |
| Snapshotter.CorruptNeverLoads | pkg/backend/snapshot.go:198-213 | a load fails to decode exactly if the checkpoint or the generation does not, whatever the object's generation |
| Snapshotter.SaveThenLoad | pkg/backend/snapshot.go:170-186 | a stored snapshot loads with its generation exactly when the reader's object is not behind it |
| Snapshotter.NilSnapshotLocksOut | pkg/backend/snapshot.go:175-177 | a stored nil snapshot loads as absent and makes every later create refused |
| Snapshotter.LookupAgrees | pkg/backend/snapshot.go:87-103 | after a save the object's name leads to the root outputs of exactly that snapshot, for every reference that round-trips |
| Snapshotter.RootOutputsExactly | pkg/backend/snapshot.go:96-103 | the root outputs are those of the first resource of type pulumi:pulumi:Stack, and empty without one |
| Snapshotter.LookupFailsExactly | pkg/backend/snapshot.go:87-100 | when a lookup by name fails, and with which failure first |
| Snapshotter.OtherLookupsStay | pkg/backend/snapshot.go:75-104 | every other name leads where it did |
| Snapshotter.ResourceOutputsExactly | pkg/backend/snapshot.go:127-136 | a URN is listed exactly if a resource not marked for deletion has it, with the last one's outputs |
| Snapshotter.SecretSnapshotter.GetSnapshot | pkg/backend/snapshot.go:158-218 | the outcome of a load for every stored record, and a new handle on the Secret read exactly when a snapshot is found |
| Snapshotter.SecretSnapshotter.SetSnapshot | pkg/backend/snapshot.go:233-292 | the write lands exactly when the store accepts the handle's version; a failure leaves the handle's Secret but has moved its generation; success returns the same handle |
| Snapshotter.SecretSnapshotter.GetStackOutputs | pkg/backend/snapshot.go:75-104 | the loop returns the first root stack resource's outputs; the failures of parsing, reading, decoding and of the root lookup come first, in that order |
| Snapshotter.SecretSnapshotter.GetStackResourceOutputs | pkg/backend/snapshot.go:106-138 | the loop's map is that of the resources not marked for deletion, after the failures of parsing, reading and decoding; without a snapshot it dereferences nil |
| Snapshotter.KubeStack.Save | pkg/backend/stack.go:271-283 | from a cache in sync an undisturbed save succeeds, success restores sync, failure leaves snapshot, handle and the handle's Secret, and a handle other than the old one is new |
| Snapshotter.LoadStack | pkg/backend/backend.go:81-95 | a loaded stack is in sync except over a Secret that stores no snapshot |
| StackRuns.Run | pkg/backend/stack.go:193-283 | over any sequence of operations, saves and other clients' writes each operation starts from the last snapshot saved before the first disturbance, until then the fresh load; a save succeeds exactly if it is answered and comes before every disturbance, and later ones change nothing; a stack out of sync at first never saves |
| StackRuns.LoadAndRun | pkg/backend/backend.go:81-95 | a loaded stack is one that can run so; it starts in sync unless the Secret stores no snapshot, and then no save succeeds |
| StackRuns.CacheIsFreshLoad | pkg/backend/stack.go:196-214 | without a foreign or unanswered write the cached snapshot is what a load of the Secret would answer |
| StackRuns.Handle | pkg/backend/stack.go:271-283 | one event; after a disturbance every save fails and leaves snapshot, handle's Secret and store |
| Refinement.SaveRefines | pkg/backend/stack.go:271-283 | the heap's save, aliasing included, takes exactly the machine's step for every fate of the call |
| Refinement.LoadRefines | pkg/backend/backend.go:81-95 | the heap's load takes exactly the machine's step, the mismatch included |
| Refinement.PassRefines | pkg/backend/stack.go:193-283 | load, preview, status write and any number of saves, with everybody else's steps in between, are one run of the machine that heap, cache and API server follow |
| Events.FoldKeepsTheLast | pkg/reconcile/status.go:58-71 | the accumulator is the last root-stack output with a new state and the last summary, of every event sequence |
| Events.FoldKeepsRootOutputs | pkg/reconcile/status.go:60-66 | the outputs held are those of the last new state of the resource of type pulumi:pulumi:Stack |
| Events.StackChanges.EngineEvent | pkg/reconcile/status.go:58-71 | one event updates the accumulator as the fold does |
| Events.Drain | pkg/backend/stack.go:168-176 | draining events is folding them |
| Events.ReturnedMissesAtMostTheLast | pkg/backend/stack.go:151-178 | over every interleaving, when the engine has returned the accumulator misses at most the last event |
| Events.LastEventCanBeMissed | pkg/backend/stack.go:155-176 | for every nonempty stream the last event can be missed |
| Events.LateSummaryMatters | pkg/reconcile/status.go:67-69 | a late accumulator misreports changes exactly when the last event is a summary contradicting those before |
| Status.UpdateStatus | sample/controllers/iamaccount_controller.go:131-171 | planning sets the condition only, afterwards the outputs only; the write lands exactly from the current version; the local status changes even if it fails |
| Status.PreviewStatus | pkg/reconcile/reconciler.go:124-138 | the Ready condition reflects the whole preview exactly when the missed event does not flip the summary |
| Registry.RegistryRefinesHistory | pkg/plugin/host.go:159-226 | over any calls, closes included, the list is the first provider of each key ever and each runtime's first load since the last close, in order |
| Registry.ListedExactly | pkg/plugin/host.go:173-181 | a call lengthens the list exactly if it registers a provider under a key never registered before, or a runtime not registered since the last Close |
| Registry.ListedOnce | pkg/plugin/host.go:173-181 | of two calls that lengthen the list, no two list one key, and two list one runtime only with a Close in between |
| Registry.KeysAre | pkg/plugin/host.go:173-176 | a provider's key is its name, followed by its version if it has one |
| Registry.UnversionedListedByName | pkg/plugin/host.go:173-181 | of two providers without a version both are listed exactly if their names differ |
| Registry.RegisteredExactly | pkg/plugin/host.go:188-196 | the registered providers are exactly those loaded and not closed since |
| Registry.DistinctPluginsShareAKey | pkg/plugin/host.go:173-181 | the key is not injective: one pair of different plugins with one key, of which only the first is listed |
| PluginHost.EnsureContinuesHistory | pkg/plugin/host.go:253-284 | EnsurePlugins leaves the registry as the individual loads of all enabled entries would |
| PluginHost.EnsureErrsExactly | pkg/plugin/host.go:253-284 | it reports an error exactly when some enabled entry failed |
| PluginHost.LoadsFollowFlags | pkg/plugin/host.go:253-284 | an entry is loaded exactly if the flag of its kind is set, and an analyzer never |
| PluginHost.EntryFailsExactly | pkg/plugin/host.go:253-284 | which entries fail, in terms of the flags and the loader's answers |
| PluginHost.Host.Provider | pkg/plugin/host.go:159-186 | the host's maps and list follow the registry; nothing changes unless a plugin with its information was loaded |
| PluginHost.Host.CloseProvider | pkg/plugin/host.go:188-196 | a provider leaves the registry exactly when its Close succeeded |
| PluginHost.Host.LanguageRuntime | pkg/plugin/host.go:202-226 | a memoised runtime is returned without loading; a nil answer without error stays nil without error |
| PluginHost.Host.EnsurePlugins | pkg/plugin/host.go:253-284 | the loop computes the fold of individual loads and their failures |
| PluginHost.Host.Close | pkg/plugin/host.go:117-139 | every registered plugin is closed, the maps empty, the list and keys stay, the server stops; only a serving host may be closed |
| HostSharing.PulumiReconciler.Interleave | pkg/reconcile/reconciler.go:180-189 | over any interleaving the shared field hands each pass the last host made |
| HostSharing.OwnHostsExactly | pkg/reconcile/reconciler.go:185-187 | every pass gets its own host if and only if no pass makes one while another is between making and taking |
| HostSharing.HostsCloseOnceExactly | pkg/reconcile/reconciler.go:84-92 | when all passes have taken a host, each host is closed exactly once if and only if no two passes overlapped there |
| HostSharing.OverlapLeaksAHost | pkg/reconcile/reconciler.go:185-187 | two overlapping passes close the second's host twice and the first's never |
| PluginHost.PassLifetime | pkg/reconcile/reconciler.go:84-92 | for a pass with a host of its own, over any operations of provider loads, runtime loads, CloseProvider calls and wrapped closes, the real host stops exactly if a stack was obtained, after all of them; a provider gets one Close for each CloseProvider and one more exactly if it was loaded and not successfully closed since |

## Left out

- Start: an object read returns some version that existed; `NotFound` for an object a cache has not seen yet is not modelled.
- Vanish: late deletes of a crashed worker are covered by resources vanishing at any time; resources that appear without the engine are not modelled.
- One object: the machine follows a single object by its UID; a later object of the same name is another one, with another Secret.
- Resources carry their inputs: an update in place appears as a delete and a create.
- Every stored write gets a new resource version; the API server's suppression of writes that change nothing is not modelled.
- Secrets deleted or edited by hand.
- The engine, snapshot manager, checkpoint codec and secrets manager: an engine contract and an invertible codec stand for them.
- `tokens.QName` and `GetRootStackResource` are library code, modelled by what their names promise: qualified names over letters, digits, `_`, `.` and `-`, and the first resource of the stack type.
- `Refresh`: it shares everything with the other operations and the reconciler never calls it.
- The cancellation watcher of `runEngineAction` and `SignalCancellation`: they end an operation early, which the machine allows at any step.
- EnsurePlugins: the panic on an unknown plugin kind.
- StackRuns.Run: a stack's own Secret is not deleted while the stack is in use; its owner exists then.
- HostsCloseOnceExactly: a pass whose LoadStack fails takes a host and closes none; it is as in `PassLifetime`.
- The resource graph, account id and project name of the sample, the builder, tracing, logging and requeue timing.
