/**
  A reconcile that fails part-way, tried again: when the retry ends where one successful reconcile
  would have ended, and the two places where it does not.
*/
module Retry {
  import opened Types
  import opened StatefulSets
  import opened Cluster
  import opened Reconcile

  /** The calls up to and including the StatefulSet update work. */
  predicate ReachesKill(down: set<Call>) {
    CreateSts !in down && GetSts !in down && UpdateSts !in down
  }

  /**
    The pod deletion fails after the update went through: on the retry the stored template is already
    the new one, so the pods of the old template are never deleted.
  */
  predicate LosesKill(lib: Lib, w: World, h: Habitat, sts: StatefulSet, down: set<Call>) {
    && ReachesKill(down)
    && DeletePods in down
    && PodsAfter(lib, w.api, h.ns, sts) != w.api.pods
  }

  /**
    The ConfigMap update fails for another reason than a conflict while pods run: the cached object
    already holds the new leader, so the retry takes the leader to be in place.
  */
  predicate LosesEntry(lib: Lib, w: World, h: Habitat, sts: StatefulSet, down: set<Call>) {
    var running := RunningPods(PodsAfter(lib, w.api, h.ns, sts), h.ns);
    && (if (h.ns, sts.name) in w.api.stss then ReachesKill(down) else CreateSts !in down)
    && (TemplateChanges(lib, w.api, h.ns, sts) ==> DeletePods !in down)
    && ListPods !in down && CreateCm !in down && UpdateCm in down
    && h.ns in w.api.cms && h.ns in w.cmCache
    && running != [] && !IsIpOf(Entry(w.cmCache[h.ns]), running)
  }

  predicate Lossy(lib: Lib, w: World, h: Habitat, sts: StatefulSet, down: set<Call>) {
    LosesKill(lib, w, h, sts, down) || LosesEntry(lib, w, h, sts, down)
  }

  /** The attempt gets past compilation and then loses something for good. */
  predicate LossyAttempt(lib: Lib, w: World, h: Habitat, down: set<Call>)
    requires ValidateCustomObject(h).None?
  {
    var compiled := Compile(lib.parse, SecretsOf(w.api, down), h);
    compiled.Ok? && Lossy(lib, w, h, compiled.value, down)
  }

  // ---------- The ConfigMap part ----------

  /** The update of the cached ConfigMap fails although pods run and the cached leader is not among them. */
  predicate UpdateLost(w: World, h: Habitat, down: set<Call>) {
    var running := RunningPods(w.api.pods, h.ns);
    && ListPods !in down && CreateCm !in down && UpdateCm in down
    && h.ns in w.api.cms && h.ns in w.cmCache
    && running != [] && !IsIpOf(Entry(w.cmCache[h.ns]), running)
  }

  lemma ConfigMapRetry(w: World, h: Habitat, down: set<Call>)
    requires HandleConfigMap(w, h, {}).1 == Done
    ensures var once, first := HandleConfigMap(w, h, {}), HandleConfigMap(w, h, down);
            && first.0 == w.(api := w.api.(cms := first.0.api.cms, clock := first.0.api.clock), cmCache := first.0.cmCache)
            && (!UpdateLost(w, h, down) && first.1 != Done ==> HandleConfigMap(first.0, h, {}) == once)
            && (first.1 == Done ==> first == once && !UpdateLost(w, h, down))
  {
    if h.ns in w.api.cms && h.ns in w.cmCache && w.cmCache[h.ns].data.Some? {
      var leader := LeaderIP(RunningPods(w.api.pods, h.ns));
      LastEntryCounts(w.cmCache[h.ns], leader, leader);
      var written := WithEntry(w.cmCache[h.ns], leader);
      assert w.cmCache[h.ns := written][h.ns := written] == w.cmCache[h.ns := written];
    }
  }

  /** The retry finds the new leader in the cached object and leaves the server with the old one. */
  lemma ConfigMapLoss(w: World, h: Habitat, down: set<Call>)
    requires HandleConfigMap(w, h, {}).1 == Done && Coherent(w, h.ns) && UpdateLost(w, h, down)
    ensures var once, first := HandleConfigMap(w, h, {}), HandleConfigMap(w, h, down);
            first.1 != Done && first.0.api == w.api && HandleConfigMap(first.0, h, {}).0.api == w.api != once.0.api
  {
    var running := RunningPods(w.api.pods, h.ns);
    assert running[0] in running;
  }

  // ---------- The StatefulSet part ----------

  lemma StatefulSetRetry(lib: Lib, w: World, ns: string, sts: StatefulSet, down: set<Call>)
    ensures var once, first := HandleStatefulSet(lib, w, ns, sts, {}), HandleStatefulSet(lib, w, ns, sts, down);
            && once.1 == Done
            && first.0.habs == w.habs && first.0.cmCache == w.cmCache
            && first.0.api.cms == w.api.cms && first.0.api.secrets == w.api.secrets
            && (first.1 == Done <==> ((if (ns, sts.name) in w.api.stss then ReachesKill(down) else CreateSts !in down)
                                      && (TemplateChanges(lib, w.api, ns, sts) ==> DeletePods !in down)))
            && (first.1 == Done ==> first == once && HandleStatefulSet(lib, first.0, ns, sts, {}) == once)
  {
    StatefulSetEffect(lib, w, ns, sts);
    StatefulSetEffect(lib, HandleStatefulSet(lib, w, ns, sts, {}).0, ns, sts);
  }

  /** A failed StatefulSet part, tried again, catches up unless it loses the pod deletion. */
  lemma StatefulSetCatchesUp(lib: Lib, w: World, ns: string, sts: StatefulSet, down: set<Call>)
    requires HandleStatefulSet(lib, w, ns, sts, down).1 != Done
    ensures var once, first := HandleStatefulSet(lib, w, ns, sts, {}), HandleStatefulSet(lib, w, ns, sts, down);
            var lost := ReachesKill(down) && DeletePods in down && PodsAfter(lib, w.api, ns, sts) != w.api.pods;
            && (!lost ==> HandleStatefulSet(lib, first.0, ns, sts, {}) == once)
            && (lost ==> HandleStatefulSet(lib, first.0, ns, sts, {}).0.api.pods == w.api.pods)
  {
  }

  // ---------- The whole reconcile ----------

  lemma ApplyRetry(lib: Lib, w: World, h: Habitat, sts: StatefulSet, down: set<Call>)
    requires Apply(lib, w, h, sts, {}).1 == Done
    ensures var once, first := Apply(lib, w, h, sts, {}), Apply(lib, w, h, sts, down);
            && first.0.habs == w.habs && first.0.api.secrets == w.api.secrets
            && (first.1 == Done ==> first == once && !Lossy(lib, w, h, sts, down))
            && (first.1 != Done && !Lossy(lib, w, h, sts, down) ==> Apply(lib, first.0, h, sts, {}) == once)
            && (Lossy(lib, w, h, sts, down) && Coherent(w, h.ns) ==> Apply(lib, first.0, h, sts, {}).0.api != once.0.api)
  {
    var s, s1 := HandleStatefulSet(lib, w, h.ns, sts, {}), HandleStatefulSet(lib, w, h.ns, sts, down);
    StatefulSetEffect(lib, w, h.ns, sts);
    StatefulSetRetry(lib, w, h.ns, sts, down);
    PodsUntouched(s.0, h, {});
    if s1.1 == Done {
      ConfigMapRetry(s.0, h, down);
      if UpdateLost(s.0, h, down) && Coherent(w, h.ns) { ConfigMapLoss(s.0, h, down); }
      var c1 := HandleConfigMap(s.0, h, down);
      StatefulSetEffect(lib, c1.0, h.ns, sts);
      assert HandleStatefulSet(lib, c1.0, h.ns, sts, {}) == (c1.0, Done);
    } else {
      StatefulSetCatchesUp(lib, w, h.ns, sts, down);
      StatefulSetEffect(lib, s1.0, h.ns, sts);
      PodsUntouched(HandleStatefulSet(lib, s1.0, h.ns, sts, {}).0, h, {});
    }
  }

  lemma PodsUntouched(w: World, h: Habitat, down: set<Call>)
    ensures HandleConfigMap(w, h, down).0.api.pods == w.api.pods
  {
  }

  /**
    Retry equivalence: on an up-to-date cache, a reconcile in which the calls `down` fail, followed by
    one in which none does, leaves the cluster as a single successful reconcile does, exactly when the
    first attempt loses neither the pod deletion nor the peer entry.
  */
  lemma RetryEquivalence(lib: Lib, w: World, h: Habitat, down: set<Call>)
    requires Compilable(lib, w.api, h) && Coherent(w, h.ns)
    ensures var once, first := ConformHabitat(lib, w, h, {}), ConformHabitat(lib, w, h, down);
            once.1 == Done && first.1 != Done ==>
              (ConformHabitat(lib, first.0, h, {}).0.api == once.0.api <==> !LossyAttempt(lib, w, h, down))
  {
    ConformIsApply(lib, w, h);
    var compiled := Compile(lib.parse, SecretsOf(w.api, down), h);
    if compiled.Ok? && ConformHabitat(lib, w, h, {}).1 == Done {
      var sts := Desired(lib.parse, h);
      SuccessIgnoresSecrets(lib.parse, SecretsOf(w.api, down), SecretsOf(w.api, {}), h);
      ApplyRetry(lib, w, h, sts, down);
      var first := Apply(lib, w, h, sts, down).0;
      assert SecretsOf(first.api, {}) == SecretsOf(w.api, {});
      ConformIsApply(lib, first, h);
    }
  }

  /** The world after a number of attempts, each with its own failing calls. */
  function Attempts(lib: Lib, w: World, h: Habitat, downs: seq<set<Call>>): World
    decreases |downs|
  {
    if downs == [] then w else Attempts(lib, ConformHabitat(lib, w, h, downs[0]).0, h, downs[1..])
  }

  /** Every attempt fails, in a lookup or later, and none loses anything. */
  predicate NoneLossy(lib: Lib, w: World, h: Habitat, downs: seq<set<Call>>)
    requires ValidateCustomObject(h).None?
    decreases |downs|
  {
    downs == [] ||
    (&& !LossyAttempt(lib, w, h, downs[0])
     && ConformHabitat(lib, w, h, downs[0]).1 != Done
     && NoneLossy(lib, ConformHabitat(lib, w, h, downs[0]).0, h, downs[1..]))
  }

  /** A failed attempt that loses nothing leaves a world from which success leads to the same end. */
  lemma OneRetry(lib: Lib, w: World, h: Habitat, down: set<Call>)
    requires Compilable(lib, w.api, h) && ConformHabitat(lib, w, h, {}).1 == Done
    requires ConformHabitat(lib, w, h, down).1 != Done && !LossyAttempt(lib, w, h, down)
    ensures var first := ConformHabitat(lib, w, h, down).0;
            Compilable(lib, first.api, h) && ConformHabitat(lib, first, h, {}) == ConformHabitat(lib, w, h, {})
  {
    var compiled := Compile(lib.parse, SecretsOf(w.api, down), h);
    ConformIsApply(lib, w, h);
    if compiled.Ok? {
      SuccessIgnoresSecrets(lib.parse, SecretsOf(w.api, down), SecretsOf(w.api, {}), h);
      ApplyRetry(lib, w, h, compiled.value, down);
      var first := Apply(lib, w, h, compiled.value, down).0;
      assert SecretsOf(first.api, {}) == SecretsOf(w.api, {});
      ConformIsApply(lib, first, h);
    }
  }

  /** Any number of failed attempts that lose nothing are made good by one successful reconcile. */
  lemma {:induction false} ManyRetries(lib: Lib, w: World, h: Habitat, downs: seq<set<Call>>)
    requires Compilable(lib, w.api, h) && ConformHabitat(lib, w, h, {}).1 == Done
    requires NoneLossy(lib, w, h, downs)
    ensures ConformHabitat(lib, Attempts(lib, w, h, downs), h, {}) == ConformHabitat(lib, w, h, {})
    decreases |downs|
  {
    if downs != [] {
      OneRetry(lib, w, h, downs[0]);
      ManyRetries(lib, ConformHabitat(lib, w, h, downs[0]).0, h, downs[1..]);
    }
  }
}
