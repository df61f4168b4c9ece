/** The peer entry over sequential runs: always a running pod's IP, and as stable as it can be. */
module Leader {
  import opened Types
  import opened StatefulSets
  import opened Cluster
  import opened Reconcile

  lemma {:induction false} RunningElsewhere(pods: seq<Pod>, ns: string, selector: map<string, string>, other: string)
    requires other != ns
    ensures RunningPods(WithoutSelected(pods, ns, selector), other) == RunningPods(pods, other)
  {
    if pods != [] {
      RunningElsewhere(pods[1..], ns, selector, other);
      var rest := WithoutSelected(pods[1..], ns, selector);
      assert ([pods[0]] + rest)[1..] == rest;
      assert [] + rest == rest;
    }
  }

  /**
    What a reconcile `r` did about the leader of namespace `ns`: it succeeded; the entry is the IP of a
    pod still running after any pods the reconcile killed, or "" when none runs; the ConfigMap changed
    only if its entry was not the IP of such a pod; and other namespaces kept ConfigMap and running pods.
  */
  ghost predicate LeaderKept(w: World, ns: string, r: (World, Outcome)) {
    && r.1 == Done
    && r.0.habs == w.habs
    && EntryOk(r.0.api, ns)
    && (ns in w.api.cms && IsIpOf(Entry(w.api.cms[ns]), RunningPods(r.0.api.pods, ns)) ==>
          r.0.api.cms[ns] == w.api.cms[ns])
    && (forall other :: other != ns ==>
          && (other in r.0.api.cms <==> other in w.api.cms)
          && (other in w.api.cms ==> r.0.api.cms[other] == w.api.cms[other])
          && RunningPods(r.0.api.pods, other) == RunningPods(w.api.pods, other))
  }

  lemma ApplyKeepsLeader(lib: Lib, w: World, h: Habitat, sts: StatefulSet)
    requires Coherent(w, h.ns) && HasData(w, h.ns)
    ensures LeaderKept(w, h.ns, Apply(lib, w, h, sts, {}))
  {
    ApplyEffect(lib, w, h, sts);
    var (w1, _) := HandleStatefulSet(lib, w, h.ns, sts, {});
    StatefulSetEffect(lib, w, h.ns, sts);
    if h.ns in w.api.cms && IsIpOf(Entry(w.api.cms[h.ns]), RunningPods(w1.api.pods, h.ns)) {
      LeaderSticky(w1, h);
    }
    ConfigMapEffect(w1, h);
    forall ns | ns != h.ns ensures RunningPods(PodsAfter(lib, w.api, h.ns, sts), ns) == RunningPods(w.api.pods, ns) {
      RunningElsewhere(w.api.pods, h.ns, sts.spec.selector, ns);
    }
  }

  /** Leader validity and stickiness of one reconcile on an up-to-date cache. */
  lemma LeaderValid(lib: Lib, w: World, h: Habitat)
    requires Compilable(lib, w.api, h) && Coherent(w, h.ns) && HasData(w, h.ns)
    ensures LeaderKept(w, h.ns, ConformHabitat(lib, w, h, {}))
  {
    ConformIsApply(lib, w, h);
    ApplyKeepsLeader(lib, w, h, Desired(lib.parse, h));
  }

  /** The reconcile takes the cached leader to be in place. */
  predicate TrustsCache(w: World, h: Habitat) {
    var running := RunningPods(w.api.pods, h.ns);
    h.ns in w.api.cms && h.ns in w.cmCache && running != [] && IsIpOf(Entry(w.cmCache[h.ns]), running)
  }

  /** A write that succeeds leaves its IP on the server, whatever the cache held. */
  lemma WrittenIsStored(w: World, ns: string, ip: string, down: set<Call>)
    requires ns in w.cmCache && WriteLeaderIP(w, ns, ip, down).1 == Done
    ensures var api' := WriteLeaderIP(w, ns, ip, down).0.api;
            api'.pods == w.api.pods && ns in api'.cms && Entry(api'.cms[ns]) == ip
  {
  }

  lemma LeaderIsValid(running: seq<Pod>)
    ensures ValidEntry(LeaderIP(running), running)
  {
    if running != [] { assert running[0] in running; }
  }

  /** With any cache, stale or not, success leaves a right entry exactly unless it trusted the cache in vain. */
  lemma AnyCacheExactly(w: World, h: Habitat, down: set<Call>)
    requires HandleConfigMap(w, h, down).1 == Done
    ensures EntryOk(HandleConfigMap(w, h, down).0.api, h.ns) <==> (TrustsCache(w, h) ==> EntryOk(w.api, h.ns))
  {
    var leader := LeaderIP(RunningPods(w.api.pods, h.ns));
    LeaderIsValid(RunningPods(w.api.pods, h.ns));
    if h.ns in w.api.cms && !TrustsCache(w, h) {
      WrittenIsStored(w, h.ns, leader, down);
    }
  }

  /** A reconcile panics exactly if it has to write into a cached ConfigMap without a data map. */
  lemma PanicsExactly(w: World, h: Habitat, down: set<Call>)
    ensures HandleConfigMap(w, h, down).1 == Panicked <==>
              && ListPods !in down && CreateCm !in down
              && h.ns in w.api.cms && h.ns in w.cmCache && w.cmCache[h.ns].data.None?
              && !TrustsCache(w, h)
  {
  }

  lemma LeaderSticky(w: World, h: Habitat)
    requires Coherent(w, h.ns) && h.ns in w.api.cms
    requires IsIpOf(Entry(w.api.cms[h.ns]), RunningPods(w.api.pods, h.ns))
    ensures HandleConfigMap(w, h, {}).0.api == w.api
  {
  }

  // ---------- Runs ----------

  /** Between two reconciles pods change at will and the ConfigMap events are delivered. */
  datatype Event = PodsBecome(pods: seq<Pod>) | Reconciled(key: string)

  function Step(lib: Lib, w: World, e: Event): World {
    var w' := match e
              case PodsBecome(pods) => w.(api := w.api.(pods := pods))
              case Reconciled(key) => Conform(lib, w, key, {}).0;
    w'.(cmCache := w'.api.cms)
  }

  function Worlds(lib: Lib, w: World, events: seq<Event>): (r: seq<World>)
    ensures |r| == |events| + 1 && r[0] == w
    decreases |events|
  {
    if events == [] then [w] else [w] + Worlds(lib, Step(lib, w, events[0]), events[1..])
  }

  predicate Sound(lib: Lib, w: World) {
    && w.cmCache == w.api.cms
    && (forall ns :: ns in w.api.cms ==> w.api.cms[ns].data.Some?)
    && (forall k :: k in w.habs ==> Compilable(lib, w.api, w.habs[k]))
  }

  lemma StepSound(lib: Lib, w: World, e: Event)
    requires Sound(lib, w)
    ensures Sound(lib, Step(lib, w, e)) && Step(lib, w, e).habs == w.habs
  {
    if e.Reconciled? && e.key in w.habs {
      ConformKeeps(lib, w, w.habs[e.key]);
    }
    SameSecrets(lib, w, Step(lib, w, e));
  }

  lemma ConformKeeps(lib: Lib, w: World, h: Habitat)
    requires Compilable(lib, w.api, h) && w.cmCache == w.api.cms
    requires forall ns :: ns in w.api.cms ==> w.api.cms[ns].data.Some?
    ensures var w' := ConformHabitat(lib, w, h, {}).0;
            && w'.habs == w.habs && w'.api.secrets == w.api.secrets
            && forall ns :: ns in w'.api.cms ==> w'.api.cms[ns].data.Some?
  {
    ConformIsApply(lib, w, h);
    ApplyEffect(lib, w, h, Desired(lib.parse, h));
    DataKept(lib, w, h, Desired(lib.parse, h), ConformHabitat(lib, w, h, {}).0);
  }

  lemma DataKept(lib: Lib, w: World, h: Habitat, sts: StatefulSet, w': World)
    requires Reconciles(lib, w, h, sts, w')
    requires forall ns :: ns in w.api.cms ==> w.api.cms[ns].data.Some?
    ensures forall ns :: ns in w'.api.cms ==> w'.api.cms[ns].data.Some?
  {
  }

  /** Whether a Habitat compiles depends on the cluster only through its Secrets. */
  lemma SameSecrets(lib: Lib, w: World, w': World)
    requires w'.habs == w.habs && w'.api.secrets == w.api.secrets
    ensures forall k :: k in w.habs ==> (Compilable(lib, w.api, w.habs[k]) <==> Compilable(lib, w'.api, w.habs[k]))
  {
    assert SecretsOf(w'.api, {}) == SecretsOf(w.api, {});
  }

  /** While the leader's pod stays in the list of running pods, no reconcile anywhere changes the entry. */
  lemma {:induction false} LeaderStays(lib: Lib, w: World, events: seq<Event>, ns: string, ip: string)
    requires Sound(lib, w) && ns in w.api.cms && Entry(w.api.cms[ns]) == ip
    requires forall i :: 0 <= i <= |events| ==> IsIpOf(ip, RunningPods(Worlds(lib, w, events)[i].api.pods, ns))
    ensures forall i :: 0 <= i <= |events| ==>
              var w' := Worlds(lib, w, events)[i];
              ns in w'.api.cms && w'.api.cms[ns] == w.api.cms[ns]
    decreases |events|
  {
    if events != [] {
      var w1 := Step(lib, w, events[0]);
      var rest := Worlds(lib, w1, events[1..]);
      StepSound(lib, w, events[0]);
      forall i | 0 <= i <= |events| - 1 ensures Worlds(lib, w, events)[i + 1] == rest[i] {}
      assert rest[0] == w1 == Worlds(lib, w, events)[1];
      EntryKept(lib, w, events[0], ns);
      LeaderStays(lib, w1, events[1..], ns, ip);
      forall i | 0 <= i <= |events| ensures
          var w' := Worlds(lib, w, events)[i];
          ns in w'.api.cms && w'.api.cms[ns] == w.api.cms[ns]
      {
        if i > 0 { assert Worlds(lib, w, events)[i] == rest[i - 1]; }
      }
    }
  }

  lemma EntryKept(lib: Lib, w: World, e: Event, ns: string)
    requires Sound(lib, w) && ns in w.api.cms
    requires IsIpOf(Entry(w.api.cms[ns]), RunningPods(Step(lib, w, e).api.pods, ns))
    ensures ns in Step(lib, w, e).api.cms && Step(lib, w, e).api.cms[ns] == w.api.cms[ns]
  {
    if e.Reconciled? && e.key in w.habs {
      LeaderValid(lib, w, w.habs[e.key]);
    }
  }

  /** After each reconcile of a run the entry of its namespace is right for the pods of that moment. */
  lemma {:induction false} EveryReconcileSettles(lib: Lib, w: World, events: seq<Event>, i: nat)
    requires Sound(lib, w)
    requires i < |events| && events[i].Reconciled? && events[i].key in w.habs
    ensures EntryOk(Worlds(lib, w, events)[i + 1].api, w.habs[events[i].key].ns)
    decreases i
  {
    var w1 := Step(lib, w, events[0]);
    StepSound(lib, w, events[0]);
    var rest := Worlds(lib, w1, events[1..]);
    assert Worlds(lib, w, events) == [w] + rest;
    if i == 0 {
      LeaderValid(lib, w, w.habs[events[0].key]);
      assert rest[0] == w1;
    } else {
      EveryReconcileSettles(lib, w1, events[1..], i - 1);
      assert Worlds(lib, w, events)[i + 1] == rest[i];
    }
  }
}
