/**
  Reconciling many Habitats: the order does not matter, and doing it again changes nothing.

  The lemmas speak of targets, a Habitat with what it compiles to; `Reconciliation` below brings them
  back to `Conform`.
*/
module Convergence {
  import opened Types
  import opened Keys
  import opened Cluster
  import opened Reconcile
  import Leader

  datatype Target = Target(h: Habitat, sts: StatefulSet)
  {
    /** Where the target's StatefulSet lives. */
    function Place(): (string, string) {
      (h.ns, sts.name)
    }
  }

  /** No two keys stand for the same StatefulSet. */
  ghost predicate Separate(ts: map<string, Target>) {
    forall k1, k2 :: k1 in ts && k2 in ts && ts[k1].Place() == ts[k2].Place() ==> k1 == k2
  }

  /** The cache is up to date and no ConfigMap has a nil map. */
  predicate Fit(w: World) {
    w.cmCache == w.api.cms && forall ns :: ns in w.api.cms ==> w.api.cms[ns].data.Some?
  }

  predicate GoodSts(lib: Lib, w: World, t: Target) {
    StsStored(lib, w.api, t.h.ns, t.sts)
  }

  /** The target's StatefulSet and its namespace's peer entry are as they should be. */
  predicate Good(lib: Lib, w: World, t: Target) {
    GoodSts(lib, w, t) && Settled(w.api, t.h.ns)
  }

  /** One reconcile in which no call fails, followed by the delivery of the ConfigMap events. */
  function Settle(lib: Lib, w: World, t: Target): World {
    var w' := Apply(lib, w, t.h, t.sts, {}).0;
    w'.(cmCache := w'.api.cms)
  }

  /** A pod that the reconcile of `t` would kill. */
  predicate Doomed(lib: Lib, w: World, t: Target, p: Pod) {
    TemplateChanges(lib, w.api, t.h.ns, t.sts) && p.ns == t.h.ns && Selects(t.sts.spec.selector, p.labels)
  }

  /** Everything a reconcile does, in terms of what held before. */
  ghost predicate Settles(lib: Lib, w: World, t: Target, w': World) {
    && Fit(w') && w'.habs == w.habs && w'.api.secrets == w.api.secrets
    && Good(lib, w', t)
    && (Good(lib, w, t) ==> w' == w)
    && (GoodSts(lib, w, t) ==> w'.api.stss == w.api.stss && w'.api.pods == w.api.pods)
    && w'.api.stss.Keys == w.api.stss.Keys + {t.Place()}
    && (forall s :: s in w.api.stss && s != t.Place() ==> w'.api.stss[s] == w.api.stss[s])
    && w'.api.cms.Keys == w.api.cms.Keys + {t.h.ns}
    && w'.api.pods == PodsAfter(lib, w.api, t.h.ns, t.sts)
    && (forall ns :: ns != t.h.ns ==> (Settled(w.api, ns) <==> Settled(w'.api, ns)))
  }

  lemma SettleEffect(lib: Lib, w: World, t: Target)
    requires Fit(w)
    ensures Settles(lib, w, t, Settle(lib, w, t))
  {
    ApplyEffect(lib, w, t.h, t.sts);
    SettledElsewhere(lib, w, t);
    Delivered(lib, w, t, Apply(lib, w, t.h, t.sts, {}).0);
  }

  lemma Delivered(lib: Lib, w: World, t: Target, w': World)
    requires Fit(w) && Reconciles(lib, w, t.h, t.sts, w')
    requires forall ns :: ns != t.h.ns ==> (Settled(w.api, ns) <==> Settled(w'.api, ns))
    ensures Settles(lib, w, t, w'.(cmCache := w'.api.cms))
  {
  }

  lemma SettledElsewhere(lib: Lib, w: World, t: Target)
    requires Fit(w)
    ensures forall ns :: ns != t.h.ns ==> (Settled(w.api, ns) <==> Settled(Settle(lib, w, t).api, ns))
  {
    Leader.ApplyKeepsLeader(lib, w, t.h, t.sts);
  }

  /** A reconcile of one target never undoes what is good about another. */
  lemma GoodStays(lib: Lib, w: World, t: Target, other: Target)
    requires Fit(w) && (t.Place() == other.Place() ==> t == other)
    ensures GoodSts(lib, w, other) ==> GoodSts(lib, Settle(lib, w, t), other)
    ensures Settled(w.api, other.h.ns) ==> Settled(Settle(lib, w, t).api, other.h.ns)
  {
    SettleEffect(lib, w, t);
  }

  // ---------- A pass over a sequence of keys ----------

  function Pass(lib: Lib, w: World, ts: map<string, Target>, keys: seq<string>): World
    requires Known(ts, keys)
    decreases |keys|
  {
    if keys == [] then w else Pass(lib, Settle(lib, w, ts[keys[0]]), ts, keys[1..])
  }

  predicate Known(ts: map<string, Target>, keys: seq<string>) {
    forall k :: k in keys ==> k in ts
  }

  /** What is good stays good through a pass, and every target of the pass ends good. */
  lemma {:induction false} PassGood(lib: Lib, w: World, ts: map<string, Target>, keys: seq<string>)
    requires Fit(w) && Separate(ts) && Known(ts, keys)
    ensures var w' := Pass(lib, w, ts, keys);
            && Fit(w') && w'.habs == w.habs && w'.api.secrets == w.api.secrets
            && (forall k :: k in ts && (k in keys || GoodSts(lib, w, ts[k])) ==> GoodSts(lib, w', ts[k]))
            && (forall k :: k in ts && (k in keys || Settled(w.api, ts[k].h.ns)) ==> Settled(w'.api, ts[k].h.ns))
    decreases |keys|
  {
    if keys != [] {
      var w1 := Settle(lib, w, ts[keys[0]]);
      SettleEffect(lib, w, ts[keys[0]]);
      forall k | k in ts
        ensures GoodSts(lib, w, ts[k]) ==> GoodSts(lib, w1, ts[k])
        ensures Settled(w.api, ts[k].h.ns) ==> Settled(w1.api, ts[k].h.ns)
      {
        GoodStays(lib, w, ts[keys[0]], ts[k]);
      }
      PassGood(lib, w1, ts, keys[1..]);
      forall k | k in keys ensures k == keys[0] || k in keys[1..] {}
    }
  }

  // ---------- Filters over the pod list ----------

  function Filter(pods: seq<Pod>, keep: Pod -> bool): seq<Pod> {
    if pods == [] then [] else (if keep(pods[0]) then [pods[0]] else []) + Filter(pods[1..], keep)
  }

  lemma {:induction false} FilterSame(pods: seq<Pod>, f: Pod -> bool, g: Pod -> bool)
    requires forall p :: f(p) <==> g(p)
    ensures Filter(pods, f) == Filter(pods, g)
  {
    if pods != [] { FilterSame(pods[1..], f, g); }
  }

  lemma {:induction false} FilterAll(pods: seq<Pod>, f: Pod -> bool)
    requires forall p :: f(p)
    ensures Filter(pods, f) == pods
  {
    if pods != [] {
      FilterAll(pods[1..], f);
      assert pods == [pods[0]] + pods[1..];
    }
  }

  lemma {:induction false} FilterTwice(pods: seq<Pod>, f: Pod -> bool, g: Pod -> bool, both: Pod -> bool)
    requires forall p :: both(p) <==> f(p) && g(p)
    ensures Filter(Filter(pods, f), g) == Filter(pods, both)
  {
    if pods != [] {
      var rest := Filter(pods[1..], f);
      FilterTwice(pods[1..], f, g, both);
      if f(pods[0]) { assert ([pods[0]] + rest)[1..] == rest; } else { assert [] + rest == rest; }
    }
  }

  lemma {:induction false} DeletionFilters(pods: seq<Pod>, ns: string, selector: map<string, string>, keep: Pod -> bool)
    requires forall p :: keep(p) <==> !(p.ns == ns && Selects(selector, p.labels))
    ensures WithoutSelected(pods, ns, selector) == Filter(pods, keep)
  {
    if pods != [] { DeletionFilters(pods[1..], ns, selector, keep); }
  }

  // ---------- What a pass leaves ----------

  /** No reconcile of a key in `keys` would kill the pod. */
  predicate Spared(lib: Lib, w: World, ts: map<string, Target>, keys: seq<string>, p: Pod)
    requires Known(ts, keys)
  {
    forall k :: k in keys ==> !Doomed(lib, w, ts[k], p)
  }

  /** A reconcile deletes the pods doomed by it. */
  lemma SettlePods(lib: Lib, w: World, t: Target, keep: Pod -> bool)
    requires Fit(w)
    requires forall p :: keep(p) <==> !Doomed(lib, w, t, p)
    ensures Settle(lib, w, t).api.pods == Filter(w.api.pods, keep)
  {
    SettleEffect(lib, w, t);
    if TemplateChanges(lib, w.api, t.h.ns, t.sts) {
      DeletionFilters(w.api.pods, t.h.ns, t.sts.spec.selector, keep);
    } else {
      FilterAll(w.api.pods, keep);
    }
  }

  lemma SparedAfter(lib: Lib, w: World, ts: map<string, Target>, k: string, rest: seq<string>, p: Pod)
    requires Fit(w) && Separate(ts) && k in ts && Known(ts, rest) && Known(ts, [k] + rest)
    ensures Spared(lib, w, ts, [k] + rest, p) <==> !Doomed(lib, w, ts[k], p) && Spared(lib, Settle(lib, w, ts[k]), ts, rest, p)
  {
    var w1 := Settle(lib, w, ts[k]);
    SettleEffect(lib, w, ts[k]);
    assert forall o :: o in [k] + rest <==> o == k || o in rest;
    assert !Doomed(lib, w1, ts[k], p);
    forall o | o in ts && o != k ensures Doomed(lib, w1, ts[o], p) <==> Doomed(lib, w, ts[o], p) {
      assert ts[o].Place() != ts[k].Place();
    }
  }

  /** The pods left by a pass, in their order. */
  lemma {:induction false} PassPods(lib: Lib, w: World, ts: map<string, Target>, keys: seq<string>)
    requires Fit(w) && Separate(ts) && Known(ts, keys)
    ensures Pass(lib, w, ts, keys).api.pods == Filter(w.api.pods, (p: Pod) => Spared(lib, w, ts, keys, p))
    decreases |keys|
  {
    var all := (p: Pod) => Spared(lib, w, ts, keys, p);
    if keys == [] {
      FilterAll(w.api.pods, all);
    } else {
      var k, rest := keys[0], keys[1..];
      assert keys == [k] + rest;
      var w1 := Settle(lib, w, ts[k]);
      SettleEffect(lib, w, ts[k]);
      PassPods(lib, w1, ts, rest);
      var first := (p: Pod) => !Doomed(lib, w, ts[k], p);
      var others := (p: Pod) => Spared(lib, w1, ts, rest, p);
      SettlePods(lib, w, ts[k], first);
      forall p ensures all(p) <==> first(p) && others(p) { SparedAfter(lib, w, ts, k, rest, p); }
      FilterTwice(w.api.pods, first, others, all);
    }
  }

  function Places(ts: map<string, Target>, keys: seq<string>): set<(string, string)>
    requires Known(ts, keys)
  {
    set k | k in keys :: ts[k].Place()
  }

  function Namespaces(ts: map<string, Target>, keys: seq<string>): set<string>
    requires Known(ts, keys)
  {
    set k | k in keys :: ts[k].h.ns
  }

  lemma PlacesStep(ts: map<string, Target>, keys: seq<string>)
    requires keys != [] && Known(ts, keys)
    ensures Places(ts, keys) == {ts[keys[0]].Place()} + Places(ts, keys[1..])
    ensures Namespaces(ts, keys) == {ts[keys[0]].h.ns} + Namespaces(ts, keys[1..])
  {
    assert forall o :: o in keys <==> o == keys[0] || o in keys[1..];
  }

  lemma SettleObjects(lib: Lib, w: World, t: Target)
    requires Fit(w)
    ensures var w' := Settle(lib, w, t);
            && Fit(w')
            && w'.api.stss.Keys == w.api.stss.Keys + {t.Place()}
            && (forall s :: s in w.api.stss && s != t.Place() ==> w'.api.stss[s] == w.api.stss[s])
            && w'.api.cms.Keys == w.api.cms.Keys + {t.h.ns}
  {
    SettleEffect(lib, w, t);
  }

  /** The StatefulSets and ConfigMaps a pass leaves: it adds those of its targets and keeps the others. */
  lemma {:induction false} PassObjects(lib: Lib, w: World, ts: map<string, Target>, keys: seq<string>)
    requires Fit(w) && Known(ts, keys)
    ensures var w' := Pass(lib, w, ts, keys);
            && w'.api.stss.Keys == w.api.stss.Keys + Places(ts, keys)
            && (forall s :: s in w.api.stss && s !in Places(ts, keys) ==> w'.api.stss[s] == w.api.stss[s])
            && w'.api.cms.Keys == w.api.cms.Keys + Namespaces(ts, keys)
    decreases |keys|
  {
    if keys != [] {
      var k, rest := keys[0], keys[1..];
      SettleObjects(lib, w, ts[k]);
      PassObjects(lib, Settle(lib, w, ts[k]), ts, rest);
      PlacesStep(ts, keys);
    }
  }

  /** The StatefulSets without their versions. */
  function Specs(api: Api): map<(string, string), StatefulSet> {
    map s | s in api.stss :: api.stss[s].sts
  }

  /** A pass leaves at each place of its targets what the target asks for, and elsewhere what was there. */
  lemma SpecAfter(lib: Lib, w: World, ts: map<string, Target>, keys: seq<string>, s: (string, string))
    requires Fit(w) && Separate(ts) && Known(ts, keys)
    ensures var stss := Pass(lib, w, ts, keys).api.stss;
            && (s in stss <==> s in w.api.stss || s in Places(ts, keys))
            && (s in w.api.stss && s !in Places(ts, keys) ==> stss[s] == w.api.stss[s])
            && (forall k :: k in keys && ts[k].Place() == s ==> stss[s].sts == lib.StoredForm(ts[k].sts))
  {
    PassObjects(lib, w, ts, keys);
    PassGood(lib, w, ts, keys);
    forall k | k in keys && ts[k].Place() == s ensures GoodSts(lib, Pass(lib, w, ts, keys), ts[k]) {}
  }

  lemma SameSpecs(lib: Lib, w: World, ts: map<string, Target>, keys1: seq<string>, keys2: seq<string>)
    requires Fit(w) && Separate(ts) && Known(ts, keys1) && Known(ts, keys2)
    requires forall k :: k in keys1 <==> k in keys2
    ensures Specs(Pass(lib, w, ts, keys1).api) == Specs(Pass(lib, w, ts, keys2).api)
  {
    var stss1, stss2 := Pass(lib, w, ts, keys1).api.stss, Pass(lib, w, ts, keys2).api.stss;
    assert Places(ts, keys1) == Places(ts, keys2);
    forall s
      ensures s in stss1 <==> s in stss2
      ensures s in stss1 ==> stss1[s].sts == stss2[s].sts
    {
      SpecAfter(lib, w, ts, keys1, s);
      SpecAfter(lib, w, ts, keys2, s);
    }
  }

  /**
    Confluence: two passes over the same targets, in any two orders and with any repetitions, end with
    the same StatefulSets and the same pods, and with a right peer entry in every namespace touched.
  */
  lemma Confluence(lib: Lib, w: World, ts: map<string, Target>, keys1: seq<string>, keys2: seq<string>)
    requires Fit(w) && Separate(ts) && Known(ts, keys1) && Known(ts, keys2)
    requires forall k :: k in keys1 <==> k in keys2
    ensures SameOutcome(Pass(lib, w, ts, keys1).api, Pass(lib, w, ts, keys2).api, Namespaces(ts, keys1))
  {
    SameSpecs(lib, w, ts, keys1, keys2);
    PassPods(lib, w, ts, keys1);
    PassPods(lib, w, ts, keys2);
    var f, g := (p: Pod) => Spared(lib, w, ts, keys1, p), (p: Pod) => Spared(lib, w, ts, keys2, p);
    FilterSame(w.api.pods, f, g);
    PassObjects(lib, w, ts, keys1);
    PassObjects(lib, w, ts, keys2);
    assert Namespaces(ts, keys1) == Namespaces(ts, keys2);
    PassGood(lib, w, ts, keys1);
    PassGood(lib, w, ts, keys2);
  }

  ghost predicate SameOutcome(api1: Api, api2: Api, touched: set<string>) {
    && Specs(api1) == Specs(api2)
    && api1.pods == api2.pods
    && api1.cms.Keys == api2.cms.Keys
    && forall ns :: ns in touched ==> EntryOk(api1, ns) && EntryOk(api2, ns)
  }

  /** A pass over targets that are all good changes nothing at all, versions included. */
  lemma {:induction false} IdlePass(lib: Lib, w: World, ts: map<string, Target>, keys: seq<string>)
    requires Fit(w) && Known(ts, keys)
    requires forall k :: k in keys ==> Good(lib, w, ts[k])
    ensures Pass(lib, w, ts, keys) == w
    decreases |keys|
  {
    if keys != [] {
      SettleEffect(lib, w, ts[keys[0]]);
      IdlePass(lib, w, ts, keys[1..]);
    }
  }

  /** Idempotence: a second pass over targets of the first, in any order, changes nothing. */
  lemma SecondPassIsIdle(lib: Lib, w: World, ts: map<string, Target>, keys: seq<string>, again: seq<string>)
    requires Fit(w) && Separate(ts) && Known(ts, keys) && Known(ts, again)
    requires forall k :: k in again ==> k in keys
    ensures Pass(lib, Pass(lib, w, ts, keys), ts, again) == Pass(lib, w, ts, keys)
  {
    PassGood(lib, w, ts, keys);
    IdlePass(lib, Pass(lib, w, ts, keys), ts, again);
  }
}

/** The same statements for `Conform` itself, on a store of Habitats that all compile. */
module Reconciliation {
  import opened Types
  import opened StatefulSets
  import opened Keys
  import opened Cluster
  import opened Reconcile
  import opened Handlers
  import opened Convergence
  import Leader

  /** Habitats are stored under their own keys, in proper namespaces. */
  ghost predicate Ready(lib: Lib, w: World) {
    Leader.Sound(lib, w) && WellKeyed(w.habs) && forall k :: k in w.habs ==> IsNamespace(w.habs[k].ns)
  }

  function TargetOf(lib: Lib, h: Habitat): Target
    requires ValidateCustomObject(h).None? && ClaimsParse(lib.parse, h)
  {
    Target(h, Desired(lib.parse, h))
  }

  ghost function Targets(lib: Lib, w: World): (ts: map<string, Target>)
    requires Ready(lib, w)
    ensures ts.Keys == w.habs.Keys
    ensures forall k :: k in ts ==> ts[k].h == w.habs[k] && ts[k].sts.name == w.habs[k].name
  {
    map k | k in w.habs :: TargetOf(lib, w.habs[k])
  }

  lemma TargetsSeparate(lib: Lib, w: World)
    requires Ready(lib, w)
    ensures Separate(Targets(lib, w)) && Fit(w)
  {
  }

  /** Reconciles keys one after the other, with the ConfigMap events delivered in between. */
  function ConformAll(lib: Lib, w: World, keys: seq<string>): World
    decreases |keys|
  {
    if keys == [] then w else ConformAll(lib, Leader.Step(lib, w, Leader.Reconciled(keys[0])), keys[1..])
  }

  lemma StepIsSettle(lib: Lib, w: World, k: string)
    requires Ready(lib, w) && k in w.habs
    ensures Leader.Step(lib, w, Leader.Reconciled(k)) == Settle(lib, w, Targets(lib, w)[k])
    ensures Ready(lib, Leader.Step(lib, w, Leader.Reconciled(k)))
    ensures Leader.Step(lib, w, Leader.Reconciled(k)).habs == w.habs
  {
    ConformIsApply(lib, w, w.habs[k]);
    Leader.StepSound(lib, w, Leader.Reconciled(k));
  }

  lemma {:induction false} ConformAllIsPass(lib: Lib, w: World, keys: seq<string>)
    requires Ready(lib, w) && Known(Targets(lib, w), keys)
    ensures ConformAll(lib, w, keys) == Pass(lib, w, Targets(lib, w), keys)
    ensures Ready(lib, ConformAll(lib, w, keys)) && ConformAll(lib, w, keys).habs == w.habs
    decreases |keys|
  {
    if keys != [] {
      StepIsSettle(lib, w, keys[0]);
      var w1 := Leader.Step(lib, w, Leader.Reconciled(keys[0]));
      assert Targets(lib, w1) == Targets(lib, w);
      ConformAllIsPass(lib, w1, keys[1..]);
    }
  }

  /** Confluence of `Conform`: whatever the order, the same StatefulSets and pods, and right peer entries. */
  lemma ConformConfluence(lib: Lib, w: World, keys1: seq<string>, keys2: seq<string>)
    requires Ready(lib, w)
    requires forall k :: k in keys1 <==> k in keys2
    requires forall k :: k in keys1 ==> k in w.habs
    ensures SameOutcome(ConformAll(lib, w, keys1).api, ConformAll(lib, w, keys2).api, set k | k in keys1 :: w.habs[k].ns)
  {
    TargetsSeparate(lib, w);
    ConformAllIsPass(lib, w, keys1);
    ConformAllIsPass(lib, w, keys2);
    Confluence(lib, w, Targets(lib, w), keys1, keys2);
    NamespacesOfKeys(w, Targets(lib, w), keys1);
  }

  lemma NamespacesOfKeys(w: World, ts: map<string, Target>, keys: seq<string>)
    requires Known(ts, keys) && ts.Keys == w.habs.Keys
    requires forall k :: k in ts ==> ts[k].h == w.habs[k]
    ensures Namespaces(ts, keys) == set k | k in keys :: w.habs[k].ns
  {
  }

  /** Idempotence of `Conform`: a second pass in any order changes nothing, versions included. */
  lemma ConformIdempotence(lib: Lib, w: World, keys: seq<string>, again: seq<string>)
    requires Ready(lib, w)
    requires forall k :: k in keys ==> k in w.habs
    requires forall k :: k in again ==> k in keys
    ensures ConformAll(lib, ConformAll(lib, w, keys), again) == ConformAll(lib, w, keys)
  {
    TargetsSeparate(lib, w);
    ConformAllIsPass(lib, w, keys);
    var w1 := ConformAll(lib, w, keys);
    assert Targets(lib, w1) == Targets(lib, w);
    ConformAllIsPass(lib, w1, again);
    SecondPassIsIdle(lib, w, Targets(lib, w), keys, again);
  }
}
