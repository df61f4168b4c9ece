/**
  When a world of the sequential model and a state of the concurrent one agree: what the StatefulSets and
  the pods show, what the server and the cache hold of each peer ConfigMap, and how versions compare.
*/
module Agreement {
  import opened Types
  import opened StatefulSets
  import opened Keys
  import opened Cluster
  import R = Reconcile
  import opened Workqueue
  import opened Handlers
  import opened Protocol

  // ---------- The relation ----------

  /** What anyone can see of a pod that the list call selects. */
  datatype Face = Face(ns: string, owner: Option<string>, ip: string)

  function FacesOf(pods: seq<Pod>): set<Face> {
    set p | p in pods && IsRunning(p, p.ns) :: Face(p.ns, KeyFromLabels(p.ns, p.labels), p.ip)
  }

  function Faces(pods: map<nat, Instance>): set<Face> {
    set id | id in pods && pods[id].phase == Running :: Face(pods[id].ns, pods[id].owner, pods[id].ip)
  }

  function Place(h: Habitat): (string, string) {
    (h.ns, h.name)
  }

  ghost predicate SameFleet(habs: map<string, Habitat>, api: Api, fleet: Fleet) {
    && Faces(fleet.pods) == FacesOf(api.pods)
    && (forall p :: p in api.pods ==> IsNamespace(p.ns))
    && (forall k :: k in habs ==> (k in fleet.stss <==> Place(habs[k]) in api.stss))
    && (forall k :: k in habs && k in fleet.stss ==> fleet.stss[k] == api.stss[Place(habs[k])].sts)
  }

  predicate ServerCm(api: Api, peers: Peers, ns: string) {
    && (ns in peers.cms <==> ns in api.cms)
    && (ns in api.cms ==>
          && HasEntry(api.cms[ns]) && peers.cms[ns].entry == Entry(api.cms[ns])
          && api.cms[ns].resourceVersion <= api.clock && peers.cms[ns].version <= peers.clock)
  }

  predicate CachedCm(api: Api, cache: map<string, ConfigMap>, peers: Peers, ns: string) {
    && (ns in peers.store <==> ns in cache)
    && (ns in cache ==>
          && HasEntry(cache[ns]) && cache[ns].resourceVersion <= api.clock
          && peers.store[ns] < |peers.heap| && peers.heap[peers.store[ns]].ns == ns
          && peers.heap[peers.store[ns]].entry == Entry(cache[ns]) && peers.heap[peers.store[ns]].version <= peers.clock)
  }

  /** Versions compare alike, and where they are equal the contents are, but for the entry. */
  predicate Versions(api: Api, cache: map<string, ConfigMap>, peers: Peers, ns: string)
    requires ServerCm(api, peers, ns) && CachedCm(api, cache, peers, ns)
  {
    ns in api.cms && ns in cache ==>
      && (cache[ns].resourceVersion == api.cms[ns].resourceVersion <==> peers.heap[peers.store[ns]].version == peers.cms[ns].version)
      && (cache[ns].resourceVersion == api.cms[ns].resourceVersion ==> WithEntry(cache[ns], Entry(api.cms[ns])) == api.cms[ns])
  }

  predicate SameCm(api: Api, cache: map<string, ConfigMap>, peers: Peers, ns: string) {
    ServerCm(api, peers, ns) && CachedCm(api, cache, peers, ns) && Versions(api, cache, peers, ns)
  }

  ghost predicate SamePeers(api: Api, cache: map<string, ConfigMap>, peers: Peers) {
    forall ns :: SameCm(api, cache, peers, ns)
  }

  /** What the Habitat compiles to when no lookup fails, as the server stores it. */
  function Compiled(lib: Lib, api: Api, h: Habitat): Option<StatefulSet> {
    if R.Compilable(lib, api, h) then Some(lib.StoredForm(Compile(lib.parse, R.SecretsOf(api, {}), h).value)) else None
  }

  /** Everything that is fixed in both: names, and what Habitats compile to. */
  ghost predicate Fixed(cfg: Config, lib: Lib, w: R.World) {
    forall k :: k in w.habs ==>
      && Names(cfg, k, w.habs[k]) && IsNamespace(w.habs[k].ns) && w.habs[k].name != ""
      && cfg.desired(w.habs[k]) == Compiled(lib, w.api, w.habs[k])
  }

  ghost predicate Agrees(cfg: Config, lib: Lib, w: R.World, s: State) {
    && Fixed(cfg, lib, w) && s.reg.store == w.habs
    && SameFleet(w.habs, w.api, s.fleet)
    && SamePeers(w.api, w.cmCache, s.peers)
  }

  lemma OnlyObjectsMatter(cfg: Config, lib: Lib, world: R.World, s: State, q: Queue, workers: map<nat, Pc>)
    requires Agrees(cfg, lib, world, s)
    ensures Agrees(cfg, lib, world, s.(q := q, workers := workers))
  {
  }

  lemma FixedStays(cfg: Config, lib: Lib, world: R.World, world': R.World)
    requires Fixed(cfg, lib, world) && world'.habs == world.habs && world'.api.secrets == world.api.secrets
    ensures Fixed(cfg, lib, world')
  {
    assert R.SecretsOf(world'.api, {}) == R.SecretsOf(world.api, {});
  }

  // ---------- Pods ----------

  /** The owner that a pod's labels lead to is this key exactly if the selector picks the pod. */
  lemma OwnerIsSelected(k: string, h: Habitat, p: Pod)
    requires HabitatKey(h) == k && IsNamespace(h.ns) && h.name != "" && IsNamespace(p.ns)
    ensures KeyFromLabels(p.ns, p.labels) == Some(k) <==> p.ns == h.ns && Selects(map[HABITAT_NAME_LABEL := h.name], p.labels)
  {
    var owner := KeyFromLabels(p.ns, p.labels);
    if owner == Some(k) {
      KeysInjective(p.ns, p.labels[HABITAT_NAME_LABEL], h.ns, h.name);
    }
  }

  lemma SelectedAreOwned(k: string, h: Habitat, pods: seq<Pod>)
    requires HabitatKey(h) == k && IsNamespace(h.ns) && h.name != ""
    requires forall p :: p in pods ==> IsNamespace(p.ns)
    ensures FacesOf(WithoutSelected(pods, h.ns, map[HABITAT_NAME_LABEL := h.name])) == set f | f in FacesOf(pods) && f.owner != Some(k)
  {
    forall p | p in pods
      ensures KeyFromLabels(p.ns, p.labels) == Some(k) <==> p.ns == h.ns && Selects(map[HABITAT_NAME_LABEL := h.name], p.labels)
    {
      OwnerIsSelected(k, h, p);
    }
  }

  lemma SameIPs(fleet: Fleet, pods: seq<Pod>, ns: string)
    requires Faces(fleet.pods) == FacesOf(pods)
    ensures RunIPs(fleet.pods, ns) == set p | p in RunningPods(pods, ns) :: p.ip
  {
    var ips := set p | p in RunningPods(pods, ns) :: p.ip;
    forall ip | ip in ips ensures ip in RunIPs(fleet.pods, ns) {
      var p :| p in RunningPods(pods, ns) && p.ip == ip;
      assert Face(p.ns, KeyFromLabels(p.ns, p.labels), p.ip) in Faces(fleet.pods);
    }
    forall ip | ip in RunIPs(fleet.pods, ns) ensures ip in ips {
      var id :| id in fleet.pods && fleet.pods[id].phase == Running && fleet.pods[id].ns == ns && fleet.pods[id].ip == ip;
      assert Face(ns, fleet.pods[id].owner, ip) in FacesOf(pods);
      var p :| p in pods && IsRunning(p, p.ns) && Face(p.ns, KeyFromLabels(p.ns, p.labels), p.ip) == Face(ns, fleet.pods[id].owner, ip);
      assert p in RunningPods(pods, ns);
    }
  }

  function Without(pods: map<nat, Instance>, k: string): map<nat, Instance> {
    map id | id in pods && pods[id].owner != Some(k) :: pods[id]
  }

  lemma FacesWithout(pods: map<nat, Instance>, k: string)
    ensures Faces(Without(pods, k)) == set f | f in Faces(pods) && f.owner != Some(k)
  {
    forall id | id in pods && pods[id].phase == Running && pods[id].owner != Some(k)
      ensures Face(pods[id].ns, pods[id].owner, pods[id].ip) in Faces(Without(pods, k))
    {
      assert id in Without(pods, k);
    }
  }

  // ---------- Writes on both sides ----------

  /** What a Habitat's compiled StatefulSet is called and selects. */
  predicate IsFor(sts: StatefulSet, h: Habitat) {
    sts.name == h.name && sts.spec.selector == map[HABITAT_NAME_LABEL := h.name]
  }

  lemma StsPut(habs: map<string, Habitat>, api: Api, fleet: Fleet, k: string, stored: Stored)
    requires SameFleet(habs, api, fleet) && WellKeyed(habs) && k in habs
    ensures SameFleet(habs, api.(stss := api.stss[Place(habs[k]) := stored]), fleet.PutSts(k, stored.sts))
  {
    forall o | o in habs && o != k ensures Place(habs[o]) != Place(habs[k]) {
      assert HabitatKey(habs[o]) != HabitatKey(habs[k]);
    }
  }

  lemma FleetKilled(habs: map<string, Habitat>, api: Api, fleet: Fleet, fleet': Fleet, k: string, sts: StatefulSet)
    requires SameFleet(habs, api, fleet) && k in habs && HabitatKey(habs[k]) == k && IsNamespace(habs[k].ns) && habs[k].name != ""
    requires IsFor(sts, habs[k]) && fleet'.stss == fleet.stss && fleet'.pods == Without(fleet.Kill(k).pods, k)
    ensures SameFleet(habs, R.DeleteStatefulSetPods(api, habs[k].ns, sts), fleet')
  {
    SelectedAreOwned(k, habs[k], api.pods);
    assert fleet'.pods == Without(fleet.pods, k);
    FacesWithout(fleet.pods, k);
  }

  lemma CmPut(api: Api, cache: map<string, ConfigMap>, peers: Peers, ns: string, cm: ConfigMap)
    requires SamePeers(api, cache, peers) && HasEntry(cm)
    ensures SamePeers(api.(cms := api.cms[ns := cm.(resourceVersion := api.clock + 1)], clock := api.clock + 1), cache, peers.Put(ns, Entry(cm)))
  {
    var api' := api.(cms := api.cms[ns := cm.(resourceVersion := api.clock + 1)], clock := api.clock + 1);
    forall o ensures SameCm(api', cache, peers.Put(ns, Entry(cm)), o) {
      assert SameCm(api, cache, peers, o);
    }
  }

  /** The object that the worker writes into is the cached one of this namespace, and of no other. */
  lemma CmAssign(api: Api, cache: map<string, ConfigMap>, peers: Peers, ns: string, ip: string)
    requires SamePeers(api, cache, peers) && ns in cache
    ensures ns in peers.store && peers.store[ns] < |peers.heap| && cache[ns].data.Some?
    ensures SamePeers(api, cache[ns := WithEntry(cache[ns], ip)], peers.Assign(peers.store[ns], ip))
  {
    assert SameCm(api, cache, peers, ns);
    var cache', peers' := cache[ns := WithEntry(cache[ns], ip)], peers.Assign(peers.store[ns], ip);
    forall o ensures SameCm(api, cache', peers', o) {
      assert SameCm(api, cache, peers, o);
      if o == ns && ns in api.cms { LastEntryCounts(cache[ns], ip, Entry(api.cms[ns])); }
    }
  }

  lemma StsKeepsPeers(lib: Lib, world: R.World, ns: string, sts: StatefulSet, down: set<Call>, peers: Peers)
    requires SamePeers(world.api, world.cmCache, peers)
    ensures var world' := R.HandleStatefulSet(lib, world, ns, sts, down).0;
            SamePeers(world'.api, world'.cmCache, peers)
  {
    R.StatefulSetFrame(lib, world, ns, sts, down);
    var world' := R.HandleStatefulSet(lib, world, ns, sts, down).0;
    forall o ensures SameCm(world'.api, world'.cmCache, peers, o) {
      assert SameCm(world.api, world.cmCache, peers, o);
    }
  }

  // ---------- Every world has a state that agrees with it ----------

  /** Namespaces are proper, entries are written down, and a version stands for one content, but for the entry. */
  ghost predicate Proper(world: R.World) {
    && (forall p :: p in world.api.pods ==> IsNamespace(p.ns))
    && (forall ns :: ns in world.api.cms ==> HasEntry(world.api.cms[ns]) && world.api.cms[ns].resourceVersion <= world.api.clock)
    && (forall ns :: ns in world.cmCache ==> HasEntry(world.cmCache[ns]) && world.cmCache[ns].resourceVersion <= world.api.clock)
    && (forall ns :: ns in world.cmCache && ns in world.api.cms && world.cmCache[ns].resourceVersion == world.api.cms[ns].resourceVersion ==>
          WithEntry(world.cmCache[ns], Entry(world.api.cms[ns])) == world.api.cms[ns])
  }

  function InstanceOf(p: Pod): Instance {
    Instance(p.ns, KeyFromLabels(p.ns, p.labels), p.phase, p.ip, None, false)
  }

  function FleetOf(habs: map<string, Habitat>, api: Api): Fleet {
    Fleet(map k | k in habs && Place(habs[k]) in api.stss :: api.stss[Place(habs[k])].sts, {},
          map i: nat | i < |api.pods| && IsHabitatObject(api.pods[i].labels) :: InstanceOf(api.pods[i]), [], [])
  }

  lemma FleetOfAgrees(habs: map<string, Habitat>, api: Api)
    requires forall p :: p in api.pods ==> IsNamespace(p.ns)
    ensures SameFleet(habs, api, FleetOf(habs, api))
  {
    var pods := FleetOf(habs, api).pods;
    forall p | p in api.pods && IsRunning(p, p.ns) ensures Face(p.ns, KeyFromLabels(p.ns, p.labels), p.ip) in Faces(pods) {
      var i :| 0 <= i < |api.pods| && api.pods[i] == p;
      assert i in pods && pods[i] == InstanceOf(p);
    }
    assert Faces(pods) <= FacesOf(api.pods);
  }

  /** Puts the cached ConfigMaps on a heap, in some order. */
  lemma {:induction false} OnHeap(cache: map<string, ConfigMap>, todo: set<string>) returns (store: map<string, nat>, heap: seq<Cached>)
    requires todo <= cache.Keys
    ensures store.Keys == todo
    ensures forall ns :: ns in todo ==> store[ns] < |heap| && heap[store[ns]] == Cached(ns, Entry(cache[ns]), cache[ns].resourceVersion)
    decreases todo
  {
    if todo == {} {
      store, heap := map[], [];
    } else {
      var ns :| ns in todo;
      var rest, objects := OnHeap(cache, todo - {ns});
      store, heap := rest[ns := |objects|], objects + [Cached(ns, Entry(cache[ns]), cache[ns].resourceVersion)];
    }
  }

  lemma EveryWorldHasAState(cfg: Config, lib: Lib, world: R.World, q: Queue, workers: map<nat, Pc>) returns (s: State)
    requires Fixed(cfg, lib, world) && Proper(world)
    ensures Agrees(cfg, lib, world, s) && s.q == q && s.workers == workers
  {
    var store, heap := OnHeap(world.cmCache, world.cmCache.Keys);
    var cms := map ns | ns in world.api.cms :: Cm(Entry(world.api.cms[ns]), world.api.cms[ns].resourceVersion);
    s := State(Registry(world.habs, world.habs, [], []), FleetOf(world.habs, world.api),
               Peers(cms, world.api.clock, store, heap, [], []), q, workers);
    FleetOfAgrees(world.habs, world.api);
    forall ns ensures SameCm(world.api, world.cmCache, s.peers, ns) {}
  }
}
