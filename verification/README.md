# The Habitat operator's reconciliation controller, in Dafny

The operator keeps one StatefulSet per `Habitat` object and, per namespace, one ConfigMap whose single
entry is the IP address of a running pod, which new supervisors join. This project models that
controller and proves what it keeps, when it settles, and where it does not.

Three layers build on each other.

1. **The compiler** (`RingName`, `StatefulSets`, `Supervisor`, `Factoring`, `Keys`): from a Habitat's
   spec to the StatefulSet the operator wants. `NewStatefulSet` appends part by part, as the code does,
   and is proved equal to the pure `Compile`.
2. **The sequential reconcile** (`Cluster`, `Reconcile`, `Handlers`, `Controller`, `Leader`, `Retry`,
   `Convergence`, `Listing`, `Termination`, `Filters`): `conform` over an API server and an informer cache, with any
   set of failing calls, and the event handlers. `Controller.HabitatController` keeps the cached ConfigMap
   as a heap object that `WriteLeaderIP` assigns into before it sends the update; every method of the class
   is proved equal to the pure transition of `Reconcile`, or to the decision of `Handlers`, about which the
   theorems are stated.
3. **The concurrent controller** (`Workqueue`, `Protocol`, `ProtocolInv`, `ProtocolPeers`, `NoLostRepair`,
   `SafeConfigs`, `Stretches`, `LostRepair`, `LoneReconcile`, `Resync`, `PeerHistory`, `RolloutSafety`,
   `Shutdown`): any number of workers, each between two API calls of its own reconcile, informers that
   lag, and an outside world that changes Habitats, pods and ConfigMaps at any moment.

`Agreement`, `Simulation` and `Wakeups` tie the third layer to the second: an undisturbed turn of a worker of
`Protocol` does to cluster, cache and queue what `Reconcile.Conform` and `Controller`'s `ProcessNextItem` do,
whatever calls fail, and its event steps queue what the handlers queue.

`DeepCopy` puts Habitats on the heap and copies them.

## What comes out

* **A repair can be lost**, in three ways.
  * With two workers and two Habitats in one namespace, one worker can write the right address into the
    shared cached ConfigMap, and the other, whose list of pods is older, can write the dead pod's address
    over it before either update is sent. Both updates then change nothing, and the controller comes to
    rest with a wrong entry (`LostRepair.ClashRun`).
  * The same happens when one ConfigMap update fails for another reason than a conflict
    (`LostRepair.DropRun`).
  * The list of running pods takes every labelled pod of the namespace, but a pod's events wake only a
    stored Habitat of this controller's version. A pod that another controller's Habitat owns, or nobody's,
    can become leader, and when it dies nobody is told (`LostRepair.StrayRun`).

  `LostRepair.RepairsAreKeptExactlyIfSafe` says for which configurations no run whatever loses a repair:
  those in which no worker gets as far as the ConfigMap, or in which updates fail for conflicts only, there
  is at most one worker or at most one Habitat that compiles per namespace, and no such foreign pod can
  appear in the namespace of a Habitat that compiles. The operator starts `runtime.NumCPU()` workers
  (`cmd/habitat-operator/main.go:225`), and several controllers side by side are what `customVersion` is for
  (`doc/design.md:66-73`).
* **What a resync can mend.** The ConfigMap informer's periodic resync wakes every Habitat of the namespace.
  As long as updates fail for conflicts only, a controller at rest has the server's ConfigMap in its cache,
  so the resync and one undisturbed reconcile end a loss of the first and of the third kind
  (`Resync.QuietIsInStep`, `Resync.ResyncRepairs`). They do not end one of the second kind: the cached object
  already holds the new address, and until the running pods change or somebody edits the ConfigMap no
  sequence of steps makes the entry right (`Resync.DropFools`, `Resync.FooledForGood`).
* **A failed deletion of pods is not made good.** After the StatefulSet update the stored template is the new
  one, so the retry sees no change and leaves the old pods (`Retry.RetryEquivalence`,
  `RolloutSafety.RolloutsAreSafeExactly`). `Retry.RetryEquivalence` shows that this and the failed ConfigMap
  update are the only two points at which a retry does not catch up. A StatefulSet controller that builds a
  pod from a template that was just replaced has the same effect.
* **A nil data map ends in a panic.** If somebody edits the peer ConfigMap so that its `data` is missing, the
  assignment in `writeLeaderIP` is one into a nil map (`Leader.PanicsExactly`).
* **A stale cache is noticed unless its leader still runs.** `Leader.AnyCacheExactly` says when a successful
  reconcile leaves a right entry, whatever the cache held.
* **The user's storage path** is not checked. Mount paths are distinct exactly if it is none of the other
  mounts' paths (`Supervisor.MountPathsDistinct`), and a file of the supervisor is found exactly unless the
  storage is mounted on it or on its directory (`Supervisor.FilesFound`).
* **A changed customVersion is ignored** by the update handler, so a Habitat that has become this controller's
  is not queued for that (`Filters.IgnoredUpdateKeepsKeyExactly`).
* **A Habitat with an empty namespace** has a key that its labelled resources do not lead to
  (`Keys.OwnerRoundTrip`); the API server allows none.

## What is assumed of the libraries

* API server: a Create fails if the object exists; an Update that carries a resource version is
  compare-and-swap; one that carries none, like that of the new StatefulSet, is unconditional; a write that
  changes nothing keeps the version; stored templates are the submitted ones under a function `dflt`, of
  which only `Rollout.KillsExactly` asks that it forget no more than the difference between an empty
  environment and none, which `omitempty` drops. A failing call has no effect.
* Work queue: `queue`, `dirty` and `processing` as in `vendor/k8s.io/client-go/util/workqueue/queue.go`;
  back-off times are left open, so a delayed key may come back at any time.
* Informer: events arrive in order and none is missed; the store is updated before the handler is called
  (`vendor/k8s.io/client-go/tools/cache/shared_informer.go:344-376`), and workers may run in between.
* `resource.ParseQuantity` is any partial function of the string.

## Model

| member | source | states |
|---|---|---|
| RingName.MatchesExactly | pkg/controller/v1beta2/controller.go:63-65 | The greedy, backtracking matcher of the ring pattern accepts exactly a non-empty run of name characters, '-', and 14 digits, and its group is the name |
| RingName.AcceptsExactly | pkg/controller/v1beta2/controller.go:63-65 | Position by position: fourteen digits at the end, a '-' before them, and at least one letter, digit, '_' or '-' before that, which is the captured name |
| RingName.RenderedMatches | pkg/controller/v1beta2/stateful_sets.go:315-317 | Extracting the name undoes rendering name and revision |
| RingName.SplitUnique | pkg/controller/v1beta2/controller.go:63-65 | A ring Secret name splits into name and revision in one way only |
| StatefulSets.ValidationAccepts | pkg/controller/v1beta2/utils.go:47-72 | Validation passes exactly for a present spec with a known topology and, if given, a well-formed ring name |
| StatefulSets.ValidationErrors | pkg/controller/v1beta2/utils.go:47-72 | A missing spec is reported before an unknown topology, and that before a malformed ring name |
| StatefulSets.NewStatefulSet | pkg/controller/v1beta2/stateful_sets.go:32-351 | The compiler returns what `Compile` says, the desired StatefulSet or the first error in the order of the lookups, and a StatefulSet it returns has, field by field, what the Habitat asked for: count, image, environment, owner, labels, selector, strategy, storage claim and mount, peer ConfigMap, and an init container that copies the files Secret into the volume the main container mounts |
| StatefulSets.CompiledIsAsAsked | pkg/controller/v1beta2/stateful_sets.go:81-351 | Every StatefulSet that a Habitat compiles to has the fields the Habitat asked for, spelled out |
| StatefulSets.FilesAreCopied | pkg/controller/v1beta2/stateful_sets.go:206-267 | With a files Secret the init container copies from a mount of that Secret to a mount of an empty volume, which the main container mounts at /hab/svc/NAME/files, while it does not mount the Secret; without one there is no init container |
| StatefulSets.SupervisorArgs | pkg/controller/v1beta2/stateful_sets.go:40-79 | The loop over the binds builds the arguments group, channel, topology, peer file and one pair per bind, in order |
| StatefulSets.CompilesExactly | pkg/controller/v1beta2/stateful_sets.go:167-347 | A valid Habitat compiles if and only if each named Secret can be read, the ring Secret in the default namespace, and the storage size parses |
| StatefulSets.CompileErrors | pkg/controller/v1beta2/stateful_sets.go:167-347 | A compilation fails with a given error if and only if that is the error of the first failing part: configuration Secret, files Secret, storage size, ring Secret in "default" |
| StatefulSets.SuccessIgnoresSecrets | pkg/controller/v1beta2/stateful_sets.go:167-347 | Two successful compilations give the same StatefulSet whatever the Secrets were |
| Supervisor.ArgsRoundTrip | pkg/controller/v1beta2/stateful_sets.go:40-79 | Reading the argument list as flag and value pairs gives back group, channel, topology, peer file, the binds in order and the ring name, for values that look like flags too |
| Supervisor.CommandLine | pkg/controller/v1beta2/stateful_sets.go:40-79 | The container's arguments read back say what the spec says, binds spelled out, ring name without its revision, and the same topology as both of the pod's topology labels |
| Supervisor.ArgsSpelled | pkg/controller/v1beta2/stateful_sets.go:40-79 | The arguments flag by flag in their order, each optional one present exactly if its field is |
| Supervisor.BindRoundTrip | pkg/controller/v1beta2/stateful_sets.go:74-79 | A rendered bind is read back if and only if its name has no ':' and its service no '.' |
| Supervisor.FilesFound | pkg/controller/v1beta2/stateful_sets.go:114-212 | The main container finds the peer file, `user.toml` and the ring key at single-file paths, each from its own source, and nothing else, each if and only if the user's storage is mounted neither on the file nor on its directory |
| Supervisor.PeerFileIsPeerEntry | pkg/controller/v1beta2/stateful_sets.go:119-146 | The file given to the supervisor's peer watcher is the entry of the peer ConfigMap and nothing else, if and only if the user's storage does not hide it |
| Supervisor.RingNameIsFresh | pkg/controller/v1beta2/stateful_sets.go:319-338 | The ring volume, named by the user, collides with none of the fixed names |
| Supervisor.VolumeNamesDistinct | pkg/controller/v1beta2/stateful_sets.go:131-347 | Volume and claim names of a compiled StatefulSet are pairwise distinct |
| Supervisor.MountsDeclared | pkg/controller/v1beta2/stateful_sets.go:114-347 | Every mount of every container names a declared volume or claim |
| Supervisor.MountPathsDistinct | pkg/controller/v1beta2/stateful_sets.go:119-347 | Mount paths of the main container are pairwise distinct if and only if the user's storage path is none of the other mounts' paths; those of the init container always are |
| Factoring.TemplatesFactor | pkg/controller/v1beta2/stateful_sets.go:32-351 | Two valid specs of one name give equal pod templates if and only if they agree on what reaches a pod, the service name counting only with a configuration or files Secret |
| Factoring.StatefulSetsFactor | pkg/controller/v1beta2/stateful_sets.go:32-351 | Two valid Habitats compile to equal StatefulSets if and only if names and owners agree, their specs agree on what reaches a pod, storage class and parsed size agree, and the counts agree modulo 2^32 |
| Factoring.ScalingKeepsTemplate | pkg/controller/v1beta2/stateful_sets.go:269-302 | Changing count, storage size or storage class keeps the template |
| Rollout.KillsExactly | pkg/controller/v1beta2/controller.go:623-652 | If the server forgets no more than the difference between an empty environment and none, a reconcile of a changed Habitat deletes its pods if and only if the two specs disagree, up to that difference, on what reaches a pod |
| Keys.OwnerRoundTrip | pkg/controller/v1beta2/controller.go:721-733 | The key read from the labels of a Habitat's StatefulSet and pods is the one `enqueue` uses, if and only if the namespace is not empty |
| Keys.KeysInjective | vendor/k8s.io/client-go/tools/cache/store.go:76-88 | Keys of slash-free, non-empty namespaces determine namespace and name |
| Keys.FixedNameInjective | pkg/controller/v1beta2/controller.go:764-780 | The cache keys of the peer ConfigMaps determine their namespaces |
| Keys.SelectorIsExact | pkg/controller/v1beta2/controller.go:782-792 | The selector used for deletion picks the pods of that Habitat and of no other |
| Cluster.RunningExactly | pkg/controller/v1beta2/controller.go:411-430 | The list is exactly the pods of the namespace that run with the label habitat=true, in server order, each as often as it is there |
| Listing.ListedExactly | pkg/controller/v1beta2/controller.go:411-430 | A pod is listed if and only if it is in the namespace, runs, and carries the label habitat=true |
| Listing.UnlabelledMakeNoDifference | pkg/controller/v1beta2/controller.go:442-525 | Pods without that label change neither what `handleConfigMap` does nor how it ends, whatever calls fail |
| Cluster.RemainingExactly | pkg/controller/v1beta2/controller.go:782-792 | The deletion leaves exactly the other pods, in their order, each as often as before |
| Cluster.NewConfigMap | pkg/controller/v1beta2/controller.go:737-758 | The new ConfigMap has the given entry, written down, and is owned by the Habitat |
| Listing.WrittenIsFirst | pkg/controller/v1beta2/controller.go:442-525 | Whatever calls fail and whatever the cache holds, an entry that is put on the server or into the cached object is the address of the first pod of the server's list that runs with the label in the namespace, or "" if there is none |
| Listing.CreatedExactly | pkg/controller/v1beta2/controller.go:453-498 | The ConfigMap that is created holds exactly that address under "peer-watch-file" and is owned by the Habitat |
| Listing.ReplacedExactly | pkg/controller/v1beta2/controller.go:483-519 | A leader whose address no listed pod has is replaced by the address of the first listed pod |
| Listing.DeletedExactly | pkg/controller/v1beta2/controller.go:644-652 | A reconcile deletes a pod if and only if the stored template changes and the pod carries the Habitat's name in its namespace |
| Listing.ConformTouches | pkg/controller/v1beta2/controller.go:589-669 | Whatever calls fail and whatever the cache holds, a reconcile of an unknown key does nothing, and any other touches only its Habitat's StatefulSet, pods of its name, and its namespace's ConfigMap and cached object |
| Reconcile.StatefulSetEffect | pkg/controller/v1beta2/controller.go:623-660 | With no failing call the StatefulSet is stored as desired, its pods go exactly if the template changed, and no other object is touched |
| Reconcile.ConfigMapEffect | pkg/controller/v1beta2/controller.go:442-525 | With no failing call and a coherent cache the entry of the namespace is right afterwards, was rewritten only if it had to be, and no other namespace is touched |
| Reconcile.ApplyEffect | pkg/controller/v1beta2/controller.go:615-669 | Both parts together, and that a reconcile of a settled Habitat changes nothing, versions included |
| Reconcile.ConformIsApply | pkg/controller/v1beta2/controller.go:589-621 | For a compilable Habitat the reconcile is the application of what it compiles to |
| Controller.HabitatController.WriteLeaderIP | pkg/controller/v1beta2/controller.go:432-440 | The cached object itself is changed first, then sent; it stays changed if the update fails; a nil map panics |
| Controller.HabitatController.FindConfigMapInCache | pkg/controller/v1beta2/controller.go:764-780 | Returns the very object of the store, or nothing if there is none |
| Controller.HabitatController.LeaderIsUp | pkg/controller/v1beta2/controller.go:503-510 | The loop finds the current leader if and only if a running pod has its address |
| Controller.HabitatController.HandleConfigMap | pkg/controller/v1beta2/controller.go:442-525 | Every branch, failing calls and in-place writes included, is the transition of the specification, and an entry it writes is the address of the first listed pod, or "" if none is listed |
| Controller.HabitatController.DeleteStatefulSetPods | pkg/controller/v1beta2/controller.go:782-792 | The selected pods of the namespace are gone, or nothing changed and the call failed |
| Controller.HabitatController.HandleStatefulSet | pkg/controller/v1beta2/controller.go:623-660 | Create, or Get, Update and deletion of the pods on a template change, as specified for every set of failing calls |
| Controller.HabitatController.Conform | pkg/controller/v1beta2/controller.go:589-669 | The whole reconcile on the heap is the pure transition, for every cluster, cache and set of failing calls |
| Controller.HabitatController.ProcessNextItem | pkg/controller/v1beta2/controller.go:552-584 | The oldest key is taken, reconciled and released on success and on error, and kept for a delayed retry exactly on error; quits only when shut down and empty |
| Controller.HabitatController.Enqueue | pkg/controller/v1beta2/controller.go:527-545 | Adds the Habitat's key exactly if its customVersion is "v1beta2" |
| Controller.HabitatController.HandleHabUpdate | pkg/controller/v1beta2/controller.go:274-290 | Adds the key exactly if the v1beta2 parts differ; any other change leaves the queue as it was |
| Controller.HabitatController.HandleCM | pkg/controller/v1beta2/controller.go:302-320 | A ConfigMap event makes dirty exactly the stored Habitats of its namespace, and nothing after shutdown |
| Controller.HabitatController.HandlePodAddOrDelete | pkg/controller/v1beta2/controller.go:334-409 | Adds the owner's key exactly if the pod carries habitat=true and its Habitat is stored |
| Controller.HabitatController.HandlePodUpdate | pkg/controller/v1beta2/controller.go:351-382 | Adds the owner's key exactly if version and phase changed and its Habitat is stored |
| Controller.HabitatController.HandleStsUpdate | pkg/controller/v1beta2/stateful_sets.go:381-406 | Adds the owner's key exactly if the version changed and its Habitat is stored |
| Controller.HabitatController.EnqueueOwner | pkg/controller/v1beta2/controller.go:697-733 | Follows the label to the stored Habitat and adds its key |
| Handlers.EnqueuedExactly | pkg/controller/v1beta2/utils.go:148-157 | A key is added for a Habitat if and only if its customVersion is "v1beta2", and it is namespace/name |
| Handlers.OwnerKeyExactly | pkg/controller/v1beta2/controller.go:697-733 | A resource queues a key if and only if its habitat-name label is not empty and leads, in its namespace, to a stored Habitat of version "v1beta2", whose key it is |
| Handlers.HabitatNeedsUpdateExactly | pkg/controller/v1beta2/controller.go:671-678 | An update counts if and only if the v1beta2 parts differ; one of the customVersion alone does not |
| Simulation.TurnIsConform | pkg/controller/v1beta2/controller.go:552-669 | From agreeing states and with the same calls failing, a worker of the step system that takes a key and is not disturbed leaves cluster and cache in agreement with what `Conform` makes of them, and the queue as `ProcessNextItem` leaves it |
| Agreement.EveryWorldHasAState | pkg/controller/v1beta2/controller.go:589-669 | Every world with proper namespaces, written entries and versions that stand for one content has an agreeing state of the step system |
| Wakeups.HabitatIsHandled | pkg/controller/v1beta2/controller.go:264-290 | A Habitat event is stored first and then queues the key exactly if the Habitat is new or its v1beta2 part differs |
| Wakeups.VersionChangeWakesNobody | pkg/controller/v1beta2/controller.go:671-678 | An update of the customVersion alone is stored and queues nothing |
| Wakeups.PodChangeIsHandled | pkg/controller/v1beta2/controller.go:351-382 | A changed pod queues its owner exactly if its phase differs |
| Wakeups.PodEndIsHandled | pkg/controller/v1beta2/controller.go:384-409 | A pod that ends queues what the pod delete handler queues |
| Wakeups.StsIsHandled | pkg/controller/v1beta2/stateful_sets.go:381-406 | A changed StatefulSet of a Habitat queues what the StatefulSet update handler queues |
| Wakeups.StsIsAnnounced | pkg/controller/v1beta2/controller.go:623-642 | A StatefulSet changes only by a worker's step, which leaves an event for it |
| Wakeups.CmIsHandled | pkg/controller/v1beta2/controller.go:302-320 | A ConfigMap event, or a resync, makes dirty what the ConfigMap handler makes dirty |
| Leader.LeaderValid | pkg/controller/v1beta2/controller.go:442-525 | A successful reconcile on a coherent cache leaves a running pod's address, or "" exactly if none runs; keeps a leader that still runs; leaves other namespaces alone |
| Leader.AnyCacheExactly | pkg/controller/v1beta2/controller.go:442-525 | With any cache, a successful reconcile leaves a right entry if and only if the entry was right already or it did not trust the cached leader |
| Leader.PanicsExactly | pkg/controller/v1beta2/controller.go:432-433 | The reconcile panics if and only if it has to write into a cached ConfigMap whose data map is nil |
| Leader.LeaderSticky | pkg/controller/v1beta2/controller.go:499-510 | If the leader still runs the API server is not written to at all |
| Leader.LeaderStays | pkg/controller/v1beta2/controller.go:589-669 | Over any run of pod changes and reconciles, an entry stays while its pod stays in the list |
| Leader.EveryReconcileSettles | pkg/controller/v1beta2/controller.go:589-669 | After each reconcile of a run the entry of its namespace is right |
| Retry.RetryEquivalence | pkg/controller/v1beta2/controller.go:589-669 | A failed reconcile followed by a successful one ends in the cluster state of one successful reconcile if and only if it lost neither the deletion of pods nor a ConfigMap update while pods run |
| Retry.ManyRetries | pkg/controller/v1beta2/controller.go:567-577 | Any number of failed attempts, in a Secret lookup or later, that lose nothing are made good by one success, in state and outcome |
| Retry.ConfigMapLoss | pkg/controller/v1beta2/controller.go:432-440 | After a lost update the retry takes the new leader to be in place and leaves the server with the old one |
| Convergence.Confluence | pkg/controller/v1beta2/controller.go:589-669 | Reconciling the same targets in two orders, with repetitions, gives the same StatefulSets and pods, and right entries in every touched namespace |
| Convergence.SecondPassIsIdle | pkg/controller/v1beta2/controller.go:589-669 | A second pass in any order changes nothing and deletes no pod |
| Convergence.PassPods | pkg/controller/v1beta2/controller.go:644-652 | The pods left by a pass, in order, are those no reconcile of it dooms |
| Reconciliation.ConformConfluence | pkg/controller/v1beta2/controller.go:589-669 | Confluence for `Conform` itself over any stored, well-keyed, compilable Habitats |
| Reconciliation.ConformIdempotence | pkg/controller/v1beta2/controller.go:589-669 | Idempotence for `Conform` itself, versions included |
| Termination.NextDecreases | pkg/controller/v1beta2/controller.go:302-320 | With a still outside, every delivery and every reconcile lowers the measure: differing StatefulSets, namespaces with a wrong entry, undelivered events, queue length |
| Termination.RunsEnd | pkg/controller/v1beta2/controller.go:552-584 | No run of `Conform` and event deliveries goes on for ever, in whatever order events and keys are taken |
| Termination.StoppedIsDone | pkg/controller/v1beta2/controller.go:589-669 | Where a run stops, the queue is empty, every StatefulSet as desired and every entry right |
| Termination.StartInv | pkg/controller/v1beta2/controller.go:159-200 | An operator that starts with every key queued and every ConfigMap still to be announced satisfies the invariant of these runs |
| Termination.StsChangeWakesItself | pkg/controller/v1beta2/stateful_sets.go:381-406 | A reconcile that changes its StatefulSet causes an event that queues its own key again |
| Termination.CmChangeWakesAll | pkg/controller/v1beta2/controller.go:302-320 | A changed ConfigMap causes an event that queues exactly the stored Habitats of its namespace with version "v1beta2" |
| Termination.PodEndWakesOwner | pkg/controller/v1beta2/controller.go:384-409 | A deleted pod causes an event that queues the Habitat its labels lead to, if and only if it carries habitat=true |
| Filters.IgnoredUpdatesCompileAlike | pkg/controller/v1beta2/controller.go:671-678 | After any sequence of ignored Habitat updates, validation and compilation give what they gave before |
| Filters.IgnoredUpdateKeepsKeyExactly | pkg/controller/v1beta2/controller.go:274-290 | An ignored update leaves the key that `enqueue` adds as it was if and only if the version matches before and after alike |
| Filters.IgnoredPodUpdateExactly | pkg/controller/v1beta2/controller.go:680-695 | An ignored pod update leaves every namespace's list of running addresses alone if and only if a running, labelled pod kept its address |
| Filters.IgnoredPodUpdatesKeepEntries | pkg/controller/v1beta2/controller.go:351-366 | After any sequence of such updates the same entries are right |
| Workqueue.HeldOnce | vendor/k8s.io/client-go/util/workqueue/queue.go:120-155 | Over any run of queue operations, hand-outs and releases of a key alternate |
| Workqueue.WakeUpKept | vendor/k8s.io/client-go/util/workqueue/queue.go:87-155 | A key that needs processing stays so until it is handed out, and is queued unless it is being processed |
| Workqueue.FirstInFirstOut | vendor/k8s.io/client-go/util/workqueue/queue.go:87-155 | Over any run a queued key is handed out by the very hand-out that follows those of the keys ahead of it |
| Workqueue.WorkQueue.Add | vendor/k8s.io/client-go/util/workqueue/queue.go:87-106 | Adds once; marks a key in processing as dirty; ignores keys after shutdown |
| Workqueue.WorkQueue.Get | vendor/k8s.io/client-go/util/workqueue/queue.go:120-139 | Hands out the oldest key, quits exactly when shut down and empty, otherwise blocks |
| Workqueue.WorkQueue.Done | vendor/k8s.io/client-go/util/workqueue/queue.go:144-155 | Releases the key and queues it again exactly if it is dirty |
| Workqueue.WorkQueue.AddRateLimited | vendor/k8s.io/client-go/util/workqueue/delaying_queue.go:142-166 | Keeps the key for later, unless shut down |
| Workqueue.WorkQueue.ShutDown | vendor/k8s.io/client-go/util/workqueue/queue.go:160-165 | Keeps what is queued and refuses what comes |
| ProtocolInv.StepKeepsBase | pkg/controller/v1beta2/controller.go:552-584 | Every step of every interleaving keeps: at most one worker per key, every key in play stored, every unknown Habitat announced |
| ProtocolInv.SingleWriter | pkg/controller/v1beta2/controller.go:623-642 | In every run a StatefulSet changes only by the one worker that holds its Habitat's key |
| ProtocolInv.NoWakeUpIsLost | pkg/controller/v1beta2/controller.go:552-584 | In every run a key that needs processing is queued or held, until a worker starts on it |
| ProtocolPeers.StepKeepsInv | pkg/controller/v1beta2/controller.go:442-525 | Every step keeps: versions determine contents, a cache behind the server has an event on its way, workers hold objects of their namespace and valid leaders |
| ProtocolPeers.StepKeepsMut | pkg/controller/v1beta2/controller.go:432-440 | As long as updates fail for conflicts only, a current cached object that differs from the server is about to be sent |
| NoLostRepair.StepKeepsSound | pkg/controller/v1beta2/controller.go:302-584 | A step that neither drops an update, nor clashes, nor ends or changes a pod that nobody is told about keeps a carrier for every wrong entry |
| NoLostRepair.NoRepairIsLost | pkg/controller/v1beta2/controller.go:302-584 | In every run without such steps, whatever pods are listed, whenever the entry of a namespace with one of this controller's Habitats disagrees with its running pods, an undelivered event, a dirty or delayed key or a reconcile in flight carries the repair |
| NoLostRepair.QuietIsGood | pkg/controller/v1beta2/controller.go:442-525 | When nothing is undelivered, queued or in flight, every such entry is right |
| SafeConfigs.SafeConfigsAreSound | pkg/controller/v1beta2/controller.go:190-198 | With one worker, or one Habitat per namespace, updates that fail for conflicts only, and no foreign pods in the namespaces of Habitats, no run loses a repair |
| LostRepair.ClashRun | pkg/controller/v1beta2/controller.go:432-440 | A run of two workers on two Habitats of one namespace that comes to rest with a dead pod's address |
| LostRepair.DropRun | pkg/controller/v1beta2/controller.go:499-515 | A run of one worker in which one failed update has the same end |
| LostRepair.StrayRun | pkg/controller/v1beta2/controller.go:411-430 | A run of one worker and one Habitat in which a pod that no stored Habitat of this version owns becomes leader and dies, with no call failing |
| LostRepair.RepairsAreKeptExactlyIfSafe | pkg/controller/v1beta2/controller.go:159-212 | All reachable states of a configuration keep their repairs if and only if the configuration is safe |
| LoneReconcile.AloneItRepairs | pkg/controller/v1beta2/controller.go:589-669 | A worker that starts a reconcile and makes its steps undisturbed, on a cache in step, ends with the desired StatefulSet, a right entry and its key released |
| Resync.QuietIsInStep | pkg/controller/v1beta2/controller.go:432-440 | If updates fail for conflicts only, then in every reachable state at rest, with any workers and Habitats, the cached ConfigMap is the server's |
| Resync.ResyncRepairs | pkg/controller/v1beta2/controller.go:302-320 | From such a state, whatever its entry, the resync and one undisturbed reconcile make the entry right |
| Resync.DropFools | pkg/controller/v1beta2/controller.go:432-440 | Where ConfigMap updates may fail for another reason, a state at rest is reachable whose cache holds a running pod's address and whose server does not |
| Resync.FooledForGood | pkg/controller/v1beta2/controller.go:499-515 | From there no sequence of steps, resyncs and reconciles included, ever makes the entry right, as long as the running pods stay and nobody edits the ConfigMap |
| PeerHistory.EveryEntryHasASource | pkg/controller/v1beta2/controller.go:411-525 | In every run every value stored in a namespace's entry was there at the start, was written by the outside, or was chosen by a worker from the pods that ran in that namespace when it listed them |
| PeerHistory.OperatorEntriesWereListed | pkg/controller/v1beta2/controller.go:411-525 | From no ConfigMap and with the operator as only writer, every entry was so chosen, "" exactly from an empty list |
| PeerHistory.VersionsHaveOneWriter | pkg/controller/v1beta2/controller.go:432-440 | A stored ConfigMap is the initial one, or exactly one step of the run wrote its version |
| PeerHistory.OneUpdatePerVersion | pkg/controller/v1beta2/controller.go:432-440 | In every run at most one of the updates sent with one version changes the ConfigMap |
| RolloutSafety.RolloutsAreSafe | pkg/controller/v1beta2/controller.go:623-652 | In every run from an up-to-date cluster in which no deletion fails and no pod is built from a replaced template, a pod with an outdated template lives on only while a worker is between the update and the deletion |
| RolloutSafety.RolloutsAreSafeExactly | pkg/controller/v1beta2/controller.go:644-652 | That holds for all runs of a configuration if and only if the deletion of pods cannot fail and the StatefulSet controller does not lag, or no worker gets that far |
| Shutdown.CounterIsExact | pkg/controller/v1beta2/controller.go:159-212 | In every run the WaitGroup counter is never negative and counts the unfinished goroutines, started or not |
| Shutdown.SyncedServes | pkg/controller/v1beta2/controller.go:186-200 | Once the caches have synced, `Run` can always go on, each of its steps starts a worker, and it serves as soon as, and only when, all are started |
| Shutdown.AbandonedStartsNobody | pkg/controller/v1beta2/controller.go:186-189 | `Run` gives up only when cancelled before the caches have synced, and then no worker was ever started |
| Shutdown.WorkersStartSynced | pkg/controller/v1beta2/controller.go:186-200 | A worker that is started was started after the caches had synced |
| Shutdown.NobodyStopsEarly | pkg/controller/v1beta2/controller.go:159-205 | Until the context is cancelled no goroutine ends and `Run` neither returns nor shuts the queue down; the first four goroutines are the informers |
| Shutdown.WorkerServes | pkg/controller/v1beta2/controller.go:547-584 | A ready worker takes the oldest key, lets it go after the reconcile, backed off exactly on failure, and is ready again |
| Shutdown.ReturnIsClean | pkg/controller/v1beta2/controller.go:202-212 | When `Run` returns after a shutdown, all goroutines are finished, no key is held, and the queue is empty unless no worker ever served it |
| Shutdown.DrainDecreases | pkg/controller/v1beta2/controller.go:547-584 | After the shutdown every step, failing reconciles included, leaves less to do, and events change nothing |
| Shutdown.ShutdownEnds | pkg/controller/v1beta2/controller.go:202-212 | The shutdown takes no more steps than were left at its start, and can stop only when `Run` has returned |
| DeepCopy.CopyService | pkg/apis/habitat/v1beta1/zz_generated.deepcopy.go:162-195 | The copy stands for the same service, nil and empty kept apart, and all its cells are new |
| DeepCopy.CopyV1beta2 | pkg/apis/habitat/v1beta1/zz_generated.deepcopy.go:208-224 | The same for the v1beta2 part |
| DeepCopy.CopyHabitat | pkg/apis/habitat/v1beta1/zz_generated.deepcopy.go:43-54 | The same for a whole Habitat |
| DeepCopy.DeepCopyHabitat | pkg/apis/habitat/v1beta1/zz_generated.deepcopy.go:58-65 | Nil is copied to nil, a Habitat to a new equal one |
| DeepCopy.CopyItems | pkg/apis/habitat/v1beta1/zz_generated.deepcopy.go:80-86 | The loop copies a slice of any length item by item into a new array, every reachable cell of which is new |
| DeepCopy.DeepCopyList | pkg/apis/habitat/v1beta1/zz_generated.deepcopy.go:76-98 | The same for a list; a nil slice stays nil |
| DeepCopy.MutateOthers | pkg/apis/habitat/v1beta1/zz_generated.deepcopy.go:43-98 | Any later change of the copy's cells leaves the original as it was |

## Left out

- Generated clients, listers and informer factories, the custom resource's creation, the command line, RBAC and Helm files: input, output and configuration.
- Logging, recorder events and the text of error messages: errors are an enumeration.
- Real time: back-off durations and resync periods; delayed keys and resyncs may come at any time.
- Go's data races on the shared map: reads and writes of it are atomic here, the sharing is kept.
- The branch of `processNextItem` for items that are not strings: keys are strings by type, and `enqueue` adds nothing else.
- The pod handlers tell two kinds of lookup errors apart (`pkg/controller/v1beta2/controller.go:368-379`), which changes only what is logged.
- Kubernetes' garbage collection after a Habitat is deleted, and the API server's rejection of changes to immutable StatefulSet fields.
- In the sequential layer deleted pods are gone at once; in `Protocol` they are marked and go on running until the outside removes them.
- In `Protocol` a reconcile is cut at its API calls and at each access to the cached object, but a handler's additions to the queue for one ConfigMap event are one step, and compilation is one step with at most one failing lookup.
- In `Protocol` no Habitat is deleted and none changes its customVersion, a pod keeps its address while it runs, and outside edits of the peer ConfigMap leave its data map non-nil; nothing edits StatefulSets but the operator. Habitats of other versions and pods of any owner are there.
- In `Protocol` a ConfigMap is its entry and its version, so a missing entry counts as an empty one; `Agreement` therefore asks for written entries.
- A watch that is broken and re-listed can merge events; here each is delivered.
- NoLostRepair.NoRepairIsLost: says that a repair is on its way, not that it arrives, which needs fair scheduling; `LoneReconcile.AloneItRepairs` says what an undisturbed reconcile achieves.
- Retry.RetryEquivalence: a failing call has no effect here, so a write that takes effect although its answer is lost is not covered.
- Termination.RunsEnd: events are delivered before each reconcile, reconciles come one at a time, and pods change only by the controller's own deletions; with several workers a reconcile on a stale cache can fail and be tried again for as long as its event is not delivered, so an end needs fair scheduling.
- Simulation.TurnIsConform: is about one turn without interference and with killed pods ending at once; what interference adds is the subject of the other theorems about `Protocol`.
- Rollout.KillsExactly: asks that the server identify templates only up to empty environments; a server that rewrites other parts of the modelled template is not covered.
- Supervisor.FilesFound: takes ".." in a mount path for a name; the API server itself refuses two equal mount paths.
- Cluster.NewConfigMap: the ConfigMap's fixed name is its place in the map of its namespace, and its habitat label, which nothing reads, is not modelled.
- Controller.HabitatController.DeleteStatefulSetPods: pods are gone when the call returns; graceful termination is in `Protocol` only.
- Leader.LeaderValid: asks for a coherent cache and a ConfigMap with a data map; `Leader.AnyCacheExactly` and `Leader.PanicsExactly` say what happens otherwise.
- Convergence.Confluence: asks the same of every namespace.
- RolloutSafety.RolloutsAreSafe: starts from pods that come from their StatefulSets' current templates.
- Shutdown.ReturnIsClean: `Run` also returns, without waiting, when the context is cancelled before the caches have synced; the model ends there in `Abandoned`.
- DeepCopy.CopyV1beta2: an environment variable is a name and a value; the copy of its `ValueFrom` pointers is the libraries' work.
- DeepCopy.CopyHabitat: object metadata, type metadata and environment variables are plain values; copying them is the libraries' work.
