/**
  The controller object: its work queue, its informers' stores, and the API server it talks to. The
  cached ConfigMaps are heap objects; `WriteLeaderIP` assigns into the one the cache holds.
*/
module Controller {
  import opened Types
  import opened StatefulSets
  import opened Keys
  import opened Cluster
  import R = Reconcile
  import Listing
  import opened Workqueue
  import opened Handlers

  /** A ConfigMap in the informer's store. */
  class ConfigMapObject {
    const ns: string
    var owner: OwnerRef
    var data: Option<map<string, string>>
    var resourceVersion: nat

    constructor (ns: string, cm: ConfigMap)
      ensures this.ns == ns && Value() == cm
    {
      this.ns := ns;
      owner, data, resourceVersion := cm.owner, cm.data, cm.resourceVersion;
    }

    function Value(): ConfigMap
      reads this
    {
      ConfigMap(owner, data, resourceVersion)
    }
  }

  class HabitatController {
    const lib: Lib
    const queue: WorkQueue
    var habStore: map<string, Habitat>
    var cmStore: map<string, ConfigMapObject>
    var api: Api
    /** The calls that fail during the current reconcile. */
    var down: set<Call>

    ghost predicate Valid()
      reads this, cmStore.Values
    {
      && (forall ns :: ns in cmStore ==> cmStore[ns].ns == ns)
    }

    function World(): R.World
      reads this, cmStore.Values
    {
      R.World(api, habStore, map ns | ns in cmStore :: cmStore[ns].Value())
    }

    constructor (lib: Lib, api: Api)
      ensures Valid() && fresh(queue)
      ensures World() == R.World(api, map[], map[]) && this.lib == lib && down == {}
      ensures queue.Value() == EMPTY && queue.Value().Wf()
    {
      this.lib := lib;
      queue := new WorkQueue();
      habStore, cmStore, this.api, down := map[], map[], api, {};
    }

    // ---------- Reconciling ----------

    /** Assigns the IP in the cached object itself, then sends the object. */
    method WriteLeaderIP(cm: ConfigMapObject, ip: string) returns (outcome: R.Outcome)
      requires Valid() && cm in cmStore.Values
      modifies this`api, cm
      ensures Valid()
      ensures (World(), outcome) == R.WriteLeaderIP(old(World()), cm.ns, ip, down)
    {
      ghost var before := World();
      if cm.data.None? {
        return R.Panicked;
      }
      cm.data := Some(cm.data.value[PEER_FILE := ip]);
      assert World().cmCache == before.cmCache[cm.ns := cm.Value()];
      if UpdateCm in down {
        return R.Erred(Other);
      }
      match UpdateConfigMap(api, cm.ns, cm.Value())
      case Err(e) =>
        return R.Erred(e);
      case Ok(api') =>
        api := api';
        assert World().cmCache == before.cmCache[cm.ns := cm.Value()];
        return R.Done;
    }

    method FindConfigMapInCache(ns: string) returns (cm: ConfigMapObject?)
      requires Valid()
      ensures cm == null <==> ns !in cmStore
      ensures cm != null ==> cm == cmStore[ns] && cm.ns == ns && cm in cmStore.Values
    {
      if ns in cmStore {
        cm := cmStore[ns];
        assert ns in cmStore.Keys;
      } else {
        cm := null;
      }
    }

    method HandleConfigMap(h: Habitat) returns (outcome: R.Outcome)
      requires Valid()
      modifies this`api, cmStore.Values
      ensures Valid()
      ensures (World(), outcome) == R.HandleConfigMap(old(World()), h, down)
      ensures Listing.WritesFirst(old(World()), World(), h)
    {
      ghost var before := World();
      outcome := UpdateConfigMapEntry(h);
      Listing.HandledWritesFirst(before, h, down);
    }

    /** The body of `handleConfigMap`. */
    method UpdateConfigMapEntry(h: Habitat) returns (outcome: R.Outcome)
      requires Valid()
      modifies this`api, cmStore.Values
      ensures Valid()
      ensures (World(), outcome) == R.HandleConfigMap(old(World()), h, down)
    {
      if ListPods in down {
        return R.Erred(Other);
      }
      var runningPods := RunningPods(api.pods, h.ns);

      if |runningPods| == 0 {
        var newCM := NewConfigMap("", h);
        if CreateCm in down {
          return R.Erred(Other);
        }
        var created := CreateConfigMap(api, h.ns, newCM);
        if created.Ok? {
          api := created.value;
          assert World().cmCache == old(World()).cmCache;
          return R.Done;
        }
        var cm := FindConfigMapInCache(h.ns);
        if cm == null {
          return R.Erred(CacheMiss);
        }
        outcome := WriteLeaderIP(cm, "");
        return;
      }

      var leaderIP := runningPods[0].ip;
      var newCM := NewConfigMap(leaderIP, h);
      if CreateCm in down {
        return R.Erred(Other);
      }
      var created := CreateConfigMap(api, h.ns, newCM);
      if created.Ok? {
        api := created.value;
        assert World().cmCache == old(World()).cmCache;
        return R.Done;
      }
      var cm := FindConfigMapInCache(h.ns);
      if cm == null {
        return R.Erred(CacheMiss);
      }
      var curLeader := Entry(cm.Value());
      var up := LeaderIsUp(runningPods, curLeader);
      if up {
        return R.Done;
      }
      outcome := WriteLeaderIP(cm, leaderIP);
    }

    /** Looks for the current leader among the running pods. */
    method LeaderIsUp(runningPods: seq<Pod>, curLeader: string) returns (up: bool)
      ensures up <==> IsIpOf(curLeader, runningPods)
    {
      for i := 0 to |runningPods|
        invariant forall j :: 0 <= j < i ==> runningPods[j].ip != curLeader
      {
        if runningPods[i].ip == curLeader {
          assert runningPods[i] in runningPods;
          return true;
        }
      }
      return false;
    }

    method DeleteStatefulSetPods(ns: string, sts: StatefulSet) returns (ok: bool)
      requires Valid()
      modifies this`api
      ensures Valid() && ok == (DeletePods !in down)
      ensures api == if ok then R.DeleteStatefulSetPods(old(api), ns, sts) else old(api)
    {
      if DeletePods in down {
        return false;
      }
      api := api.(pods := WithoutSelected(api.pods, ns, sts.spec.selector));
      return true;
    }

    method HandleStatefulSet(ns: string, newSts: StatefulSet) returns (outcome: R.Outcome)
      requires Valid()
      modifies this`api
      ensures Valid()
      ensures (World(), outcome) == R.HandleStatefulSet(lib, old(World()), ns, newSts, down)
    {
      if CreateSts in down {
        return R.Erred(Other);
      }
      var created := CreateStatefulSet(lib, api, ns, newSts);
      if created.Ok? {
        api := created.value;
        assert World().cmCache == old(World()).cmCache;
        return R.Done;
      }
      if GetSts in down {
        return R.Erred(Other);
      }
      var oldSts := GetStatefulSet(api, ns, newSts.name);
      if oldSts.Err? {
        return R.Erred(oldSts.error);
      }
      if UpdateSts in down {
        return R.Erred(Other);
      }
      var updated := UpdateStatefulSet(lib, api, ns, newSts);
      if updated.Err? {
        return R.Erred(updated.error);
      }
      api := updated.value;
      assert World().cmCache == old(World()).cmCache;
      var updatedSts := api.stss[(ns, newSts.name)].sts;
      var killAllPods := oldSts.value.spec.template != updatedSts.spec.template;
      if killAllPods {
        var deleted := DeleteStatefulSetPods(ns, updatedSts);
        assert World().cmCache == old(World()).cmCache;
        if !deleted {
          return R.Erred(Other);
        }
      }
      return R.Done;
    }

    method Conform(key: string) returns (outcome: R.Outcome)
      requires Valid()
      modifies this`api, cmStore.Values
      ensures Valid()
      ensures (World(), outcome) == R.Conform(lib, old(World()), key, down)
    {
      if key !in habStore {
        return R.Done;
      }
      var h := habStore[key];
      var invalid := ValidateCustomObject(h);
      if invalid.Some? {
        return R.Erred(invalid.value);
      }
      var newSts := NewStatefulSet(lib.parse, Secrets(api.secrets, down), h);
      if newSts.Err? {
        return R.Erred(newSts.error);
      }
      ghost var before := World();
      outcome := HandleStatefulSet(h.ns, newSts.value);
      if outcome != R.Done {
        return;
      }
      outcome := HandleConfigMap(h);
    }

    /** Reconciles a taken key and releases it, whatever comes of it. */
    method ConformTaken(k: string) returns (outcome: R.Outcome)
      requires Valid() && queue.Value().Wf() && k in queue.processing
      modifies this`api, cmStore.Values, queue
      ensures Valid() && queue.Value().Wf()
      ensures (World(), outcome) == R.Conform(lib, old(World()), k, down)
      ensures queue.Value() == (if outcome.Erred? then old(queue.Value()).AddRateLimited(k) else old(queue.Value())).Done(k)
    {
      outcome := Conform(k);
      ghost var w := World();
      if outcome.Erred? {
        queue.AddRateLimited(k);
      }
      queue.Done(k);
      assert World() == w;
    }

    /**
      Takes one item, reconciles it and releases it, exactly once and on every path; a failed key is
      queued again after its back-off. `quit` tells the worker to stop; `idle` that Get would block.
    */
    method ProcessNextItem() returns (quit: bool, idle: bool, outcome: R.Outcome)
      requires Valid() && queue.Value().Wf()
      modifies this`api, cmStore.Values, queue
      ensures Valid() && queue.Value().Wf()
      ensures quit <==> old(queue.queue) == [] && old(queue.shuttingDown)
      ensures idle <==> old(queue.queue) == [] && !old(queue.shuttingDown)
      ensures quit || idle ==> World() == old(World()) && queue.Value() == old(queue.Value())
      ensures !quit && !idle ==>
                var k := old(queue.queue)[0];
                var taken := old(queue.Value()).Take().1;
                && (World(), outcome) == R.Conform(lib, old(World()), k, down)
                && queue.Value() == (if outcome.Erred? then taken.AddRateLimited(k) else taken).Done(k)
                && queue.queue == old(queue.queue)[1..] && queue.dirty == old(queue.dirty) - {k}
                && queue.processing == old(queue.processing)
                && queue.waiting == old(queue.waiting) + (if outcome.Erred? && !old(queue.shuttingDown) then {k} else {})
    {
      quit, idle, outcome := false, false, R.Done;
      var got := queue.Get();
      match got
      case Quit =>
        quit := true;
      case Blocked =>
        idle := true;
      case Item(k) =>
        outcome := ConformTaken(k);
    }

    // ---------- Event handlers ----------

    /** Adds the key of a Habitat of version "v1beta2"; another version, or none, is not this controller's. */
    method Enqueue(h: Habitat)
      requires queue.Value().Wf()
      modifies queue
      ensures queue.Value() == AddKey(old(queue.Value()), EnqueuedKey(h)) && queue.Value().Wf()
      ensures queue.Value() ==
                if h.customVersion == Some("v1beta2") then old(queue.Value()).Add(MetaKey(h.ns, h.name)) else old(queue.Value())
    {
      if CustomVersionMatches(h.customVersion) {
        queue.Add(HabitatKey(h));
      }
    }

    method HandleHabAdd(h: Habitat)
      requires queue.Value().Wf()
      modifies queue
      ensures queue.Value() == AddKey(old(queue.Value()), EnqueuedKey(h)) && queue.Value().Wf()
    {
      Enqueue(h);
    }

    method HandleHabUpdate(oldHab: Habitat, newHab: Habitat)
      requires queue.Value().Wf()
      modifies queue
      ensures queue.Value().Wf()
      ensures oldHab.v1beta2 == newHab.v1beta2 ==> queue.Value() == old(queue.Value())
      ensures oldHab.v1beta2 != newHab.v1beta2 ==> queue.Value() == AddKey(old(queue.Value()), EnqueuedKey(newHab))
    {
      if HabitatNeedsUpdate(oldHab, newHab) {
        Enqueue(newHab);
      }
    }

    method HandleHabDelete(h: Habitat)
      requires queue.Value().Wf()
      modifies queue
      ensures queue.Value() == AddKey(old(queue.Value()), EnqueuedKey(h)) && queue.Value().Wf()
    {
      Enqueue(h);
    }

    /** A ConfigMap event concerns every stored Habitat of its namespace; nothing is added after shutdown. */
    method HandleCM(ns: string)
      requires queue.Value().Wf()
      modifies queue
      ensures queue.Value().Wf() && queue.shuttingDown == old(queue.shuttingDown)
      ensures forall k :: k in queue.dirty <==>
                k in old(queue.dirty) ||
                (!old(queue.shuttingDown) && WokenByCm(habStore, ns, k))
      ensures queue.processing == old(queue.processing) && queue.waiting == old(queue.waiting)
    {
      var todo := habStore.Keys;
      while todo != {}
        invariant queue.Value().Wf() && queue.shuttingDown == old(queue.shuttingDown)
        invariant todo <= habStore.Keys
        invariant forall k :: k in queue.dirty <==>
                    k in old(queue.dirty) ||
                    (!old(queue.shuttingDown) && exists s :: s in habStore.Keys - todo && habStore[s].ns == ns && EnqueuedKey(habStore[s]) == Some(k))
        invariant queue.processing == old(queue.processing) && queue.waiting == old(queue.waiting)
        decreases |todo|
      {
        var s :| s in todo;
        var h := habStore[s];
        if h.ns == ns {
          Enqueue(h);
        }
        todo := todo - {s};
        assert s in habStore.Keys - todo;
      }
    }

    /** Pod additions and deletions wake the owner, if its Habitat is in the store. */
    method HandlePodAddOrDelete(pod: Pod)
      requires queue.Value().Wf()
      modifies queue
      ensures queue.Value().Wf()
      ensures queue.Value() == AddKey(old(queue.Value()),
                                      if "habitat" in pod.labels && pod.labels["habitat"] == "true" then OwnerKey(habStore, pod.ns, pod.labels) else None)
    {
      if IsHabitatObject(pod.labels) {
        EnqueueOwner(pod.ns, pod.labels);
      }
    }

    method HandlePodUpdate(oldPod: Pod, newPod: Pod)
      requires queue.Value().Wf()
      modifies queue
      ensures queue.Value().Wf()
      ensures queue.Value() == AddKey(old(queue.Value()),
                                      if oldPod.resourceVersion != newPod.resourceVersion && oldPod.phase != newPod.phase
                                      then OwnerKey(habStore, newPod.ns, newPod.labels) else None)
    {
      if PodNeedsUpdate(oldPod, newPod) {
        EnqueueOwner(newPod.ns, newPod.labels);
      }
    }

    method HandleStsUpdate(oldSts: Stored, newSts: Stored, ns: string)
      requires queue.Value().Wf()
      modifies queue
      ensures queue.Value().Wf()
      ensures queue.Value() == AddKey(old(queue.Value()),
                                      if oldSts.resourceVersion != newSts.resourceVersion then OwnerKey(habStore, ns, newSts.sts.labels) else None)
    {
      if oldSts.resourceVersion != newSts.resourceVersion {
        EnqueueOwner(ns, newSts.sts.labels);
      }
    }

    method EnqueueOwner(ns: string, labels: map<string, string>)
      requires queue.Value().Wf()
      modifies queue
      ensures queue.Value() == AddKey(old(queue.Value()), OwnerKey(habStore, ns, labels)) && queue.Value().Wf()
    {
      var key := KeyFromLabels(ns, labels);
      if key.Some? && key.value in habStore {
        Enqueue(habStore[key.value]);
      }
    }
  }
}
