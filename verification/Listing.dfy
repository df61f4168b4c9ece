/**
  What a reconcile reads off the pods and does to them, said of the pods themselves: which are listed,
  which of them becomes leader, and which are deleted.
*/
module Listing {
  import opened Types
  import opened StatefulSets
  import opened Keys
  import opened Cluster
  import opened Reconcile
  import opened Convergence
  import Leader

  // ---------- Which pods are listed ----------

  lemma ListedExactly(pods: seq<Pod>, ns: string, p: Pod)
    ensures p in RunningPods(pods, ns) <==>
              p in pods && p.ns == ns && p.phase == Running && "habitat" in p.labels && p.labels["habitat"] == "true"
  {
  }

  predicate Labelled(p: Pod) {
    "habitat" in p.labels && p.labels["habitat"] == "true"
  }

  lemma {:induction false} ListedAreLabelled(pods: seq<Pod>, ns: string)
    ensures RunningPods(Filter(pods, Labelled), ns) == RunningPods(pods, ns)
  {
    if pods != [] {
      ListedAreLabelled(pods[1..], ns);
      var rest := Filter(pods[1..], Labelled);
      assert Filter(pods, Labelled) == (if Labelled(pods[0]) then [pods[0]] else []) + rest;
      if Labelled(pods[0]) {
        assert ([pods[0]] + rest)[1..] == rest;
      } else {
        assert [] + rest == rest && [] + RunningPods(pods[1..], ns) == RunningPods(pods[1..], ns);
      }
    }
  }

  function WithPods(w: World, pods: seq<Pod>): World {
    w.(api := w.api.(pods := pods))
  }

  lemma CreateIgnoresPods(api: Api, pods: seq<Pod>, ns: string, cm: ConfigMap)
    ensures var r1, r2 := CreateConfigMap(api, ns, cm), CreateConfigMap(api.(pods := pods), ns, cm);
            if r1.Ok? then r2 == Ok(r1.value.(pods := pods)) else r2 == r1
  {
  }

  lemma WriteIgnoresPods(w: World, pods: seq<Pod>, ns: string, ip: string, down: set<Call>)
    requires ns in w.cmCache
    ensures var (w1, outcome1) := WriteLeaderIP(w, ns, ip, down);
            WriteLeaderIP(WithPods(w, pods), ns, ip, down) == (WithPods(w1, pods), outcome1)
  {
  }

  /** The pods matter to `handleConfigMap` only through the list. */
  lemma OnlyTheListMatters(w: World, h: Habitat, down: set<Call>, pods: seq<Pod>)
    requires RunningPods(pods, h.ns) == RunningPods(w.api.pods, h.ns)
    ensures var (w1, outcome1) := HandleConfigMap(w, h, down);
            HandleConfigMap(WithPods(w, pods), h, down) == (WithPods(w1, pods), outcome1)
  {
    var leader := LeaderIP(RunningPods(w.api.pods, h.ns));
    CreateIgnoresPods(w.api, pods, h.ns, NewConfigMap(leader, h));
    if h.ns in w.cmCache { WriteIgnoresPods(w, pods, h.ns, leader, down); }
  }

  /** Pods without the label `habitat=true` make no difference. */
  lemma UnlabelledMakeNoDifference(w: World, h: Habitat, down: set<Call>)
    ensures var pods := Filter(w.api.pods, Labelled);
            var (w1, outcome1) := HandleConfigMap(w, h, down);
            HandleConfigMap(WithPods(w, pods), h, down) == (WithPods(w1, pods), outcome1)
  {
    ListedAreLabelled(w.api.pods, h.ns);
    OnlyTheListMatters(w, h, down, Filter(w.api.pods, Labelled));
  }

  // ---------- Which pod becomes leader ----------

  /** The first pod of the server's list that can be selected in the namespace. */
  predicate IsFirst(pods: seq<Pod>, ns: string, i: nat) {
    && i < |pods| && Selectable(pods[i], ns)
    && forall j :: 0 <= j < i ==> !Selectable(pods[j], ns)
  }

  predicate NoneSelectable(pods: seq<Pod>, ns: string) {
    forall i :: 0 <= i < |pods| ==> !Selectable(pods[i], ns)
  }

  /** The entry is the address of the first pod that can be selected, or "" if there is none. */
  ghost predicate IsFirstIP(ip: string, pods: seq<Pod>, ns: string) {
    && (forall i: nat :: IsFirst(pods, ns, i) ==> ip == pods[i].ip)
    && (NoneSelectable(pods, ns) ==> ip == "")
  }

  lemma FirstLater(pods: seq<Pod>, ns: string)
    requires pods != [] && !Selectable(pods[0], ns)
    ensures NoneSelectable(pods, ns) <==> NoneSelectable(pods[1..], ns)
    ensures forall i: nat :: IsFirst(pods, ns, i) ==> i > 0 && IsFirst(pods[1..], ns, i - 1) && pods[1..][i - 1] == pods[i]
  {
    var rest := pods[1..];
    assert forall i :: 0 <= i < |rest| ==> rest[i] == pods[i + 1];
    assert forall i :: 1 <= i < |pods| ==> pods[i] == rest[i - 1];
  }

  lemma {:induction false} ListHead(pods: seq<Pod>, ns: string)
    ensures NoneSelectable(pods, ns) <==> RunningPods(pods, ns) == []
    ensures forall i: nat :: IsFirst(pods, ns, i) ==> RunningPods(pods, ns) != [] && RunningPods(pods, ns)[0] == pods[i]
  {
    if pods != [] {
      var list := RunningPods(pods[1..], ns);
      ListHead(pods[1..], ns);
      if Selectable(pods[0], ns) {
        assert RunningPods(pods, ns)[0] == pods[0];
        assert forall i: nat :: IsFirst(pods, ns, i) ==> i == 0;
      } else {
        assert RunningPods(pods, ns) == [] + list == list;
        FirstLater(pods, ns);
      }
    }
  }

  lemma LeaderIsFirst(pods: seq<Pod>, ns: string)
    ensures IsFirstIP(LeaderIP(RunningPods(pods, ns)), pods, ns)
  {
    ListHead(pods, ns);
  }

  /**
    Whatever calls fail, an entry that a reconcile puts on the server, or into the cached object, is the
    address of the first pod that runs with the label in the Habitat's namespace, or "" if none does.
  */
  lemma WrittenIsFirst(w: World, h: Habitat, down: set<Call>)
    ensures var w' := HandleConfigMap(w, h, down).0;
            && (h.ns in w'.api.cms && (h.ns !in w.api.cms || w'.api.cms[h.ns] != w.api.cms[h.ns]) ==>
                  HasEntry(w'.api.cms[h.ns]) && IsFirstIP(Entry(w'.api.cms[h.ns]), w.api.pods, h.ns))
            && (h.ns in w'.cmCache && (h.ns !in w.cmCache || w'.cmCache[h.ns] != w.cmCache[h.ns]) ==>
                  HasEntry(w'.cmCache[h.ns]) && IsFirstIP(Entry(w'.cmCache[h.ns]), w.api.pods, h.ns))
  {
    LeaderIsFirst(w.api.pods, h.ns);
    WrittenIsLeader(w, h, down);
  }

  lemma WrittenIsLeader(w: World, h: Habitat, down: set<Call>)
    ensures var w' := HandleConfigMap(w, h, down).0;
            var leader := LeaderIP(RunningPods(w.api.pods, h.ns));
            && (h.ns in w'.api.cms && (h.ns !in w.api.cms || w'.api.cms[h.ns] != w.api.cms[h.ns]) ==>
                  HasEntry(w'.api.cms[h.ns]) && Entry(w'.api.cms[h.ns]) == leader)
            && (h.ns in w'.cmCache && (h.ns !in w.cmCache || w'.cmCache[h.ns] != w.cmCache[h.ns]) ==>
                  HasEntry(w'.cmCache[h.ns]) && Entry(w'.cmCache[h.ns]) == leader)
  {
  }

  /** The ConfigMap that a reconcile creates: its one entry, and the Habitat as its owner. */
  lemma CreatedExactly(w: World, h: Habitat, down: set<Call>, i: nat)
    requires h.ns !in w.api.cms && ListPods !in down && CreateCm !in down
    ensures var (w', outcome) := HandleConfigMap(w, h, down);
            && outcome == Done && w'.cmCache == w.cmCache && h.ns in w'.api.cms
            && w'.api.cms[h.ns].owner == OwnerRef(h.name, h.uid)
            && (IsFirst(w.api.pods, h.ns, i) ==> w'.api.cms[h.ns].data == Some(map["peer-watch-file" := w.api.pods[i].ip]))
            && (NoneSelectable(w.api.pods, h.ns) ==> w'.api.cms[h.ns].data == Some(map["peer-watch-file" := ""]))
  {
    LeaderIsFirst(w.api.pods, h.ns);
  }

  lemma Distrusted(w: World, h: Habitat)
    requires h.ns in w.api.cms && h.ns in w.cmCache && !IsIpOf(Entry(w.cmCache[h.ns]), RunningPods(w.api.pods, h.ns))
    ensures HandleConfigMap(w, h, {}) == WriteLeaderIP(w, h.ns, LeaderIP(RunningPods(w.api.pods, h.ns)), {})
  {
  }

  lemma NotInList(pods: seq<Pod>, ns: string, ip: string)
    requires forall p :: p in pods && Selectable(p, ns) ==> p.ip != ip
    ensures !IsIpOf(ip, RunningPods(pods, ns))
  {
  }

  /** A leader that no pod of the list answers for is replaced by the first pod of the list. */
  lemma ReplacedExactly(w: World, h: Habitat, i: nat)
    requires Coherent(w, h.ns) && HasData(w, h.ns) && h.ns in w.api.cms && IsFirst(w.api.pods, h.ns, i)
    requires forall p :: p in w.api.pods && Selectable(p, h.ns) ==> p.ip != Entry(w.api.cms[h.ns])
    ensures var (w', outcome) := HandleConfigMap(w, h, {});
            outcome == Done && h.ns in w'.api.cms && Entry(w'.api.cms[h.ns]) == w.api.pods[i].ip
  {
    ConfigMapEffect(w, h);
    NotInList(w.api.pods, h.ns, Entry(w.api.cms[h.ns]));
    Distrusted(w, h);
    LeaderIsFirst(w.api.pods, h.ns);
    Leader.WrittenIsStored(w, h.ns, w.api.pods[i].ip, {});
  }

  // ---------- Which pods are deleted ----------

  /** A changed template costs exactly the pods of the namespace that carry the Habitat's name. */
  lemma DeletedExactly(lib: Lib, w: World, h: Habitat, p: Pod)
    requires Compilable(lib, w.api, h) && (h.ns, h.name) in w.api.stss
    ensures ClaimsParse(lib.parse, h)
    ensures var sts := Desired(lib.parse, h);
            var w' := HandleStatefulSet(lib, w, h.ns, sts, {}).0;
            p in w'.api.pods <==>
              && p in w.api.pods
              && (w.api.stss[(h.ns, h.name)].sts.spec.template != lib.dflt(sts.spec.template) ==>
                    !(p.ns == h.ns && "habitat-name" in p.labels && p.labels["habitat-name"] == h.name))
  {
    ConformIsApply(lib, w, h);
    var sts := Desired(lib.parse, h);
    StatefulSetEffect(lib, w, h.ns, sts);
    SelectsByName(h.name, p.labels);
    assert sts.spec.selector == map[HABITAT_NAME_LABEL := h.name];
  }

  lemma SelectsByName(name: string, labels: map<string, string>)
    ensures Selects(map[HABITAT_NAME_LABEL := name], labels) <==> "habitat-name" in labels && labels["habitat-name"] == name
  {
    var selector := map[HABITAT_NAME_LABEL := name];
    assert "habitat-name" in selector && selector["habitat-name"] == name;
  }

  // ---------- What a reconcile leaves alone ----------

  /** The pods are all there, or exactly those of this name in this namespace are gone. */
  ghost predicate PodsKept(pods: seq<Pod>, pods': seq<Pod>, h: Habitat) {
    || pods' == pods
    || forall p :: p in pods' <==> p in pods && !(p.ns == h.ns && "habitat-name" in p.labels && p.labels["habitat-name"] == h.name)
  }

  /** Only the Habitat's own StatefulSet, its own pods, and its namespace's ConfigMap and cached object are touched. */
  ghost predicate Touches(w: World, w': World, h: Habitat) {
    && w'.habs == w.habs && w'.api.secrets == w.api.secrets
    && (forall s :: s != (h.ns, h.name) ==> (s in w'.api.stss <==> s in w.api.stss) && (s in w.api.stss ==> w'.api.stss[s] == w.api.stss[s]))
    && (forall ns :: ns != h.ns ==> (ns in w'.api.cms <==> ns in w.api.cms) && (ns in w.api.cms ==> w'.api.cms[ns] == w.api.cms[ns]))
    && (forall ns :: ns != h.ns ==> (ns in w'.cmCache <==> ns in w.cmCache) && (ns in w.cmCache ==> w'.cmCache[ns] == w.cmCache[ns]))
    && PodsKept(w.api.pods, w'.api.pods, h)
  }

  /** An entry that has changed, on the server or in the cached object, is that of the first pod in the list. */
  ghost predicate WritesFirst(w: World, w': World, h: Habitat) {
    && (h.ns in w'.api.cms && (h.ns !in w.api.cms || w'.api.cms[h.ns] != w.api.cms[h.ns]) ==>
          HasEntry(w'.api.cms[h.ns]) && IsFirstIP(Entry(w'.api.cms[h.ns]), w'.api.pods, h.ns))
    && (h.ns in w'.cmCache && (h.ns !in w.cmCache || w'.cmCache[h.ns] != w.cmCache[h.ns]) ==>
          HasEntry(w'.cmCache[h.ns]) && IsFirstIP(Entry(w'.cmCache[h.ns]), w'.api.pods, h.ns))
  }

  /** The two maps agree but for what stands at the place. */
  predicate SameBut(stss: map<(string, string), Stored>, stss': map<(string, string), Stored>, place: (string, string)) {
    stss' == stss || (place in stss' && stss' == stss[place := stss'[place]])
  }

  lemma WriteShape(lib: Lib, api: Api, ns: string, sts: StatefulSet)
    ensures CreateStatefulSet(lib, api, ns, sts).Ok? ==> SameBut(api.stss, CreateStatefulSet(lib, api, ns, sts).value.stss, (ns, sts.name))
    ensures UpdateStatefulSet(lib, api, ns, sts).Ok? ==> SameBut(api.stss, UpdateStatefulSet(lib, api, ns, sts).value.stss, (ns, sts.name))
  {
  }

  lemma StsShape(lib: Lib, w: World, ns: string, sts: StatefulSet, down: set<Call>)
    ensures SameBut(w.api.stss, HandleStatefulSet(lib, w, ns, sts, down).0.api.stss, (ns, sts.name))
  {
    WriteShape(lib, w.api, ns, sts);
  }

  lemma PodsShape(lib: Lib, w: World, ns: string, sts: StatefulSet, down: set<Call>)
    ensures HandleStatefulSet(lib, w, ns, sts, down).0.api.pods in {w.api.pods, WithoutSelected(w.api.pods, ns, sts.spec.selector)}
  {
  }

  lemma StsTouches(lib: Lib, w: World, h: Habitat, sts: StatefulSet, down: set<Call>)
    requires sts.name == h.name && sts.spec.selector == map[HABITAT_NAME_LABEL := h.name]
    ensures var w' := HandleStatefulSet(lib, w, h.ns, sts, down).0;
            Touches(w, w', h) && w'.api.cms == w.api.cms && w'.cmCache == w.cmCache
  {
    StatefulSetFrame(lib, w, h.ns, sts, down);
    StsShape(lib, w, h.ns, sts, down);
    PodsShape(lib, w, h.ns, sts, down);
    ShapeTouches(w, HandleStatefulSet(lib, w, h.ns, sts, down).0, h, sts);
  }

  lemma ShapeTouches(w: World, w': World, h: Habitat, sts: StatefulSet)
    requires sts.name == h.name && sts.spec.selector == map[HABITAT_NAME_LABEL := h.name]
    requires w' == w.(api := w.api.(stss := w'.api.stss, pods := w'.api.pods, clock := w'.api.clock))
    requires SameBut(w.api.stss, w'.api.stss, (h.ns, h.name))
    requires w'.api.pods == w.api.pods || w'.api.pods == WithoutSelected(w.api.pods, h.ns, sts.spec.selector)
    ensures Touches(w, w', h)
  {
    forall p: Pod ensures Selects(sts.spec.selector, p.labels) <==> "habitat-name" in p.labels && p.labels["habitat-name"] == h.name {
      SelectsByName(h.name, p.labels);
    }
  }

  lemma CmFrame(w: World, h: Habitat, down: set<Call>)
    ensures var w' := HandleConfigMap(w, h, down).0;
            w' == w.(api := w.api.(cms := w'.api.cms, clock := w'.api.clock), cmCache := w'.cmCache)
  {
  }

  lemma CmShape(w: World, h: Habitat, down: set<Call>)
    ensures var cms := HandleConfigMap(w, h, down).0.api.cms;
            cms == w.api.cms || (h.ns in cms && cms == w.api.cms[h.ns := cms[h.ns]])
  {
  }

  lemma CacheShape(w: World, h: Habitat, down: set<Call>)
    ensures var cache := HandleConfigMap(w, h, down).0.cmCache;
            cache == w.cmCache || (h.ns in cache && cache == w.cmCache[h.ns := cache[h.ns]])
  {
  }

  lemma CmTouches(w: World, h: Habitat, down: set<Call>)
    ensures var w' := HandleConfigMap(w, h, down).0;
            && w' == w.(api := w.api.(cms := w'.api.cms, clock := w'.api.clock), cmCache := w'.cmCache)
            && Touches(w, w', h)
  {
    CmFrame(w, h, down);
    CmShape(w, h, down);
    CacheShape(w, h, down);
    var w' := HandleConfigMap(w, h, down).0;
    forall ns | ns != h.ns
      ensures (ns in w'.api.cms <==> ns in w.api.cms) && (ns in w.api.cms ==> w'.api.cms[ns] == w.api.cms[ns])
      ensures (ns in w'.cmCache <==> ns in w.cmCache) && (ns in w.cmCache ==> w'.cmCache[ns] == w.cmCache[ns])
    {
    }
  }

  lemma HandledWritesFirst(w: World, h: Habitat, down: set<Call>)
    ensures WritesFirst(w, HandleConfigMap(w, h, down).0, h)
  {
    CmFrame(w, h, down);
    WrittenIsFirst(w, h, down);
  }

  lemma ApplyTouches(lib: Lib, w: World, h: Habitat, sts: StatefulSet, down: set<Call>)
    requires sts.name == h.name && sts.spec.selector == map[HABITAT_NAME_LABEL := h.name]
    ensures var w' := Apply(lib, w, h, sts, down).0; Touches(w, w', h) && WritesFirst(w, w', h)
  {
    var w1 := HandleStatefulSet(lib, w, h.ns, sts, down).0;
    StsTouches(lib, w, h, sts, down);
    CmTouches(w1, h, down);
    HandledWritesFirst(w1, h, down);
  }

  /**
    Whatever calls fail and whatever the cache holds: a reconcile of a key that is not stored does nothing,
    and any other touches only what belongs to its Habitat and writes no entry but the first pod's.
  */
  lemma ConformTouches(lib: Lib, w: World, key: string, down: set<Call>)
    ensures key !in w.habs ==> Conform(lib, w, key, down) == (w, Done)
    ensures key in w.habs ==>
              var w' := Conform(lib, w, key, down).0;
              Touches(w, w', w.habs[key]) && WritesFirst(w, w', w.habs[key])
  {
    if key in w.habs {
      var h := w.habs[key];
      if ValidateCustomObject(h).None? {
        var compiled := Compile(lib.parse, SecretsOf(w.api, down), h);
        if compiled.Ok? { ApplyTouches(lib, w, h, compiled.value, down); }
      }
    }
  }
}
