/**
  One reconcile as a function of the world: the API server, the Habitat store and the values of the
  cached ConfigMaps. `Controller` proves the heap-manipulating methods against these functions.
*/
module Reconcile {
  import opened Types
  import opened StatefulSets
  import opened Cluster

  /**
    `cmCache` holds the ConfigMap informer's objects; a reconcile writes into them. They are indexed
    by namespace: their name is fixed, so by `Keys.FixedNameInjective` the store key tells no more.
  */
  datatype World = World(api: Api, habs: map<string, Habitat>, cmCache: map<string, ConfigMap>)

  /** A reconcile ends well, with an error (the key is queued again), or in a Go panic. */
  datatype Outcome = Done | Erred(error: Error) | Panicked

  function SecretsOf(api: Api, down: set<Call>): Secrets {
    Secrets(api.secrets, down)
  }

  // ---------- The peer ConfigMap ----------

  /** `writeLeaderIP`: the cached object is changed first, then sent. */
  function WriteLeaderIP(w: World, ns: string, ip: string, down: set<Call>): (World, Outcome)
    requires ns in w.cmCache
  {
    var cm := w.cmCache[ns];
    if cm.data.None? then (w, Panicked)
    else
      var cm' := WithEntry(cm, ip);
      var w' := w.(cmCache := w.cmCache[ns := cm']);
      if UpdateCm in down then (w', Erred(Other))
      else match UpdateConfigMap(w.api, ns, cm')
           case Ok(api') => (w'.(api := api'), Done)
           case Err(e) => (w', Erred(e))
  }

  function LeaderIP(running: seq<Pod>): string {
    if running == [] then "" else running[0].ip
  }

  /** `handleConfigMap` */
  function HandleConfigMap(w: World, h: Habitat, down: set<Call>): (World, Outcome) {
    if ListPods in down then (w, Erred(Other))
    else
      var running := RunningPods(w.api.pods, h.ns);
      var leader := LeaderIP(running);
      if CreateCm in down then (w, Erred(Other))
      else match CreateConfigMap(w.api, h.ns, NewConfigMap(leader, h))
           case Ok(api') => (w.(api := api'), Done)
           case Err(_) =>
             if h.ns !in w.cmCache then (w, Erred(CacheMiss))
             else if running != [] && IsIpOf(Entry(w.cmCache[h.ns]), running) then (w, Done)
             else WriteLeaderIP(w, h.ns, leader, down)
  }

  // ---------- The StatefulSet ----------

  function DeleteStatefulSetPods(api: Api, ns: string, sts: StatefulSet): Api {
    api.(pods := WithoutSelected(api.pods, ns, sts.spec.selector))
  }

  /** The create-or-update part of `conform`, up to and including the pod deletion. */
  function HandleStatefulSet(lib: Lib, w: World, ns: string, sts: StatefulSet, down: set<Call>): (World, Outcome) {
    if CreateSts in down then (w, Erred(Other))
    else match CreateStatefulSet(lib, w.api, ns, sts)
         case Ok(api') => (w.(api := api'), Done)
         case Err(_) =>
           if GetSts in down then (w, Erred(Other))
           else match GetStatefulSet(w.api, ns, sts.name)
                case Err(e) => (w, Erred(e))
                case Ok(before) =>
                  if UpdateSts in down then (w, Erred(Other))
                  else match UpdateStatefulSet(lib, w.api, ns, sts)
                       case Err(e) => (w, Erred(e))
                       case Ok(api') =>
                         var updated := api'.stss[(ns, sts.name)].sts;
                         if before.spec.template == updated.spec.template then (w.(api := api'), Done)
                         else if DeletePods in down then (w.(api := api'), Erred(Other))
                         else (w.(api := DeleteStatefulSetPods(api', ns, updated)), Done)
  }

  // ---------- conform ----------

  /** The part of `conform` that touches the cluster, for a compiled StatefulSet. */
  function Apply(lib: Lib, w: World, h: Habitat, sts: StatefulSet, down: set<Call>): (World, Outcome) {
    var (w', outcome) := HandleStatefulSet(lib, w, h.ns, sts, down);
    if outcome != Done then (w', outcome) else HandleConfigMap(w', h, down)
  }

  function ConformHabitat(lib: Lib, w: World, h: Habitat, down: set<Call>): (World, Outcome) {
    var invalid := ValidateCustomObject(h);
    if invalid.Some? then (w, Erred(invalid.value))
    else match Compile(lib.parse, SecretsOf(w.api, down), h)
         case Err(e) => (w, Erred(e))
         case Ok(sts) => Apply(lib, w, h, sts, down)
  }

  function Conform(lib: Lib, w: World, key: string, down: set<Call>): (World, Outcome) {
    if key !in w.habs then (w, Done) else ConformHabitat(lib, w, w.habs[key], down)
  }

  // ---------- What a reconcile is for ----------

  /** The cache holds the server's version of the namespace's ConfigMap, or knows there is none. */
  predicate Coherent(w: World, ns: string) {
    if ns in w.api.cms then ns in w.cmCache && w.cmCache[ns] == w.api.cms[ns]
    else ns !in w.cmCache
  }

  predicate HasData(w: World, ns: string) {
    ns in w.api.cms ==> w.api.cms[ns].data.Some?
  }

  /** The Habitat is valid and everything its compilation looks up is there. */
  predicate Compilable(lib: Lib, api: Api, h: Habitat) {
    ValidateCustomObject(h).None? && Compile(lib.parse, SecretsOf(api, {}), h).Ok?
  }

  /** The stored StatefulSet is the submitted one, defaulted. */
  predicate StsStored(lib: Lib, api: Api, ns: string, sts: StatefulSet) {
    (ns, sts.name) in api.stss && api.stss[(ns, sts.name)].sts == lib.StoredForm(sts)
  }

  /** The stored pod template differs from the submitted one: its pods are killed. */
  predicate TemplateChanges(lib: Lib, api: Api, ns: string, sts: StatefulSet) {
    (ns, sts.name) in api.stss && api.stss[(ns, sts.name)].sts.spec.template != lib.StoredForm(sts).spec.template
  }

  function PodsAfter(lib: Lib, api: Api, ns: string, sts: StatefulSet): seq<Pod> {
    if TemplateChanges(lib, api, ns, sts) then WithoutSelected(api.pods, ns, sts.spec.selector) else api.pods
  }

  predicate StsOk(lib: Lib, api: Api, h: Habitat)
    requires ValidateCustomObject(h).None? && ClaimsParse(lib.parse, h)
  {
    StsStored(lib, api, h.ns, Desired(lib.parse, h))
  }

  /** Whatever calls fail, the StatefulSet part leaves Habitats, Secrets, ConfigMaps and the cache alone. */
  lemma StatefulSetFrame(lib: Lib, w: World, ns: string, sts: StatefulSet, down: set<Call>)
    ensures var w' := HandleStatefulSet(lib, w, ns, sts, down).0;
            && w' == w.(api := w.api.(stss := w'.api.stss, pods := w'.api.pods, clock := w'.api.clock))
            && w'.api.clock >= w.api.clock
  {
  }

  /** Everything but the peer ConfigMap, after a reconcile in which no call fails. */
  lemma StatefulSetEffect(lib: Lib, w: World, ns: string, sts: StatefulSet)
    ensures var (w', outcome) := HandleStatefulSet(lib, w, ns, sts, {});
            && outcome == Done
            && w' == w.(api := w.api.(stss := w'.api.stss, pods := w'.api.pods, clock := w'.api.clock))
            && w'.api.clock >= w.api.clock
            && w'.api.pods == PodsAfter(lib, w.api, ns, sts)
            && StsStored(lib, w'.api, ns, sts)
            && w'.api.stss.Keys == w.api.stss.Keys + {(ns, sts.name)}
            && (forall k :: k in w.api.stss && k != (ns, sts.name) ==> w'.api.stss[k] == w.api.stss[k])
            && (StsStored(lib, w.api, ns, sts) ==> w' == w)
  {
  }

  /** The peer ConfigMap, after a reconcile in which no call fails and the cache is up to date. */
  lemma ConfigMapEffect(w: World, h: Habitat)
    requires Coherent(w, h.ns) && HasData(w, h.ns)
    ensures var (w', outcome) := HandleConfigMap(w, h, {});
            && outcome == Done
            && w'.habs == w.habs
            && w'.api == w.api.(cms := w'.api.cms, clock := w'.api.clock)
            && w'.api.clock >= w.api.clock
            && w'.api.cms.Keys == w.api.cms.Keys + {h.ns}
            && (forall ns :: ns in w.api.cms && ns != h.ns ==> w'.api.cms[ns] == w.api.cms[ns])
            && (forall k :: k != h.ns ==> (k in w'.cmCache <==> k in w.cmCache) && (k in w.cmCache ==> w'.cmCache[k] == w.cmCache[k]))
            && Settled(w'.api, h.ns)
            && HasData(w', h.ns)
            && (Settled(w.api, h.ns) ==> w'.api == w.api && w'.cmCache == w.cmCache)
            && (w'.api.cms == w.api.cms ==> w'.cmCache == w.cmCache)
  {
    var running := RunningPods(w.api.pods, h.ns);
    var leader := LeaderIP(running);
    if running != [] { assert running[0] in running; }
    if h.ns in w.api.cms {
      var cm := w.api.cms[h.ns];
      if Settled(w.api, h.ns) && running == [] {
        SameEntry(cm);
      }
    }
  }

  /** Writing the entry that is already there changes nothing. */
  lemma SameEntry(cm: ConfigMap)
    requires HasEntry(cm)
    ensures WithEntry(cm, Entry(cm)) == cm
  {
    assert cm.data.value[PEER_FILE := Entry(cm)] == cm.data.value;
  }

  /** What reconciling a Habitat that compiles to `sts` makes of `w`, when nothing fails. */
  ghost predicate Reconciles(lib: Lib, w: World, h: Habitat, sts: StatefulSet, w': World) {
    && w'.habs == w.habs && w'.api.secrets == w.api.secrets
    && w'.api.pods == PodsAfter(lib, w.api, h.ns, sts)
    && StsStored(lib, w'.api, h.ns, sts)
    && w'.api.stss.Keys == w.api.stss.Keys + {(h.ns, sts.name)}
    && (forall k :: k in w.api.stss && k != (h.ns, sts.name) ==> w'.api.stss[k] == w.api.stss[k])
    && w'.api.cms.Keys == w.api.cms.Keys + {h.ns}
    && (forall ns :: ns in w.api.cms && ns != h.ns ==> w'.api.cms[ns] == w.api.cms[ns])
    && Settled(w'.api, h.ns) && HasData(w', h.ns)
    && (forall ns :: ns != h.ns ==> (ns in w'.cmCache <==> ns in w.cmCache) && (ns in w.cmCache ==> w'.cmCache[ns] == w.cmCache[ns]))
    && (StsStored(lib, w.api, h.ns, sts) && Settled(w.api, h.ns) ==> w' == w)
    && (StsStored(lib, w.api, h.ns, sts) ==> w'.api.stss == w.api.stss && w'.api.pods == w.api.pods)
    && (w'.api.cms == w.api.cms ==> w'.cmCache == w.cmCache)
  }

  /** A reconcile in which no call fails, on an up-to-date cache. */
  lemma ApplyEffect(lib: Lib, w: World, h: Habitat, sts: StatefulSet)
    requires Coherent(w, h.ns) && HasData(w, h.ns)
    ensures Apply(lib, w, h, sts, {}).1 == Done
    ensures Reconciles(lib, w, h, sts, Apply(lib, w, h, sts, {}).0)
  {
    var (w1, _) := HandleStatefulSet(lib, w, h.ns, sts, {});
    StatefulSetEffect(lib, w, h.ns, sts);
    ConfigMapEffect(w1, h);
  }

  /** For a compilable Habitat, a reconcile in which no call fails is the application of what it compiles to. */
  lemma ConformIsApply(lib: Lib, w: World, h: Habitat)
    requires Compilable(lib, w.api, h)
    ensures ClaimsParse(lib.parse, h)
    ensures ConformHabitat(lib, w, h, {}) == Apply(lib, w, h, Desired(lib.parse, h), {})
    ensures Desired(lib.parse, h).name == h.name
  {
  }
}
