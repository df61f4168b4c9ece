/**
  The concurrent controller makes the reconciles of the sequential one: a worker of `Protocol` that takes
  a key and is not disturbed, in which exactly the calls `down` fail and killed pods go at once, leaves
  cluster, cache and queue as `Reconcile.Conform` and `Controller`'s `ProcessNextItem` leave them.
*/
module Simulation {
  import opened Types
  import opened StatefulSets
  import opened Keys
  import opened Cluster
  import R = Reconcile
  import opened Handlers
  import opened Protocol
  import opened Agreement

  // ---------- An undisturbed turn ----------

  /** The worker that has its turn, the calls that fail, and whether a lookup of the compilation is among them. */
  datatype Solo = Solo(w: nat, down: set<Call>, lookup: bool)

  /** Whether the worker's next step fails. */
  predicate Fails(pc: Pc, solo: Solo) {
    if pc.Start? then solo.lookup else CallsOf(pc) * solo.down != {}
  }

  /** The steps of an undisturbed turn of worker `w`: its own, and the end of pods that were killed. */
  predicate InTurn(solo: Solo, s: State, step: Step) {
    match step
    case Work(v, _, fault) => v == solo.w && solo.w in s.workers && fault == Fails(s.workers[solo.w], solo)
    case RemovePod(id) => id in s.fleet.pods && s.fleet.pods[id].terminating
    case _ => false
  }

  ghost predicate Turn(cfg: Config, solo: Solo, states: seq<State>, steps: seq<Step>) {
    && |states| == |steps| + 1
    && forall i :: 0 <= i < |steps| ==>
         && Enabled(cfg, states[i], steps[i]) && InTurn(solo, states[i], steps[i])
         && states[i + 1] == Apply(cfg, states[i], steps[i])
  }

  ghost predicate TurnTo(cfg: Config, solo: Solo, s: State, t: State) {
    exists states: seq<State>, steps: seq<Step> :: Turn(cfg, solo, states, steps) && states[0] == s && states[|steps|] == t
  }

  /** No step of such a turn leaves the set. */
  ghost predicate Undisturbed(cfg: Config, reach: iset<State>, solo: Solo) {
    && solo.down <= cfg.mayFail
    && forall s, step :: s in reach && Enabled(cfg, s, step) && InTurn(solo, s, step) ==> Apply(cfg, s, step) in reach
  }

  lemma TurnGoesOn(cfg: Config, solo: Solo, s: State, t: State, step: Step)
    requires TurnTo(cfg, solo, s, t) && Enabled(cfg, t, step) && InTurn(solo, t, step)
    ensures TurnTo(cfg, solo, s, Apply(cfg, t, step))
  {
    var states: seq<State>, steps: seq<Step> :| Turn(cfg, solo, states, steps) && states[0] == s && states[|steps|] == t;
    Extended(cfg, solo, states, steps, step, Apply(cfg, t, step));
  }

  lemma Extended(cfg: Config, solo: Solo, states: seq<State>, steps: seq<Step>, step: Step, t: State)
    requires Turn(cfg, solo, states, steps)
    requires var last := states[|steps|]; Enabled(cfg, last, step) && InTurn(solo, last, step) && t == Apply(cfg, last, step)
    ensures TurnTo(cfg, solo, states[0], t)
  {
    var states', steps' := states + [t], steps + [step];
    forall i | 0 <= i < |steps'|
      ensures && Enabled(cfg, states'[i], steps'[i]) && InTurn(solo, states'[i], steps'[i])
              && states'[i + 1] == Apply(cfg, states'[i], steps'[i])
    {
      if i < |steps| { assert states'[i] == states[i] && states'[i + 1] == states[i + 1] && steps'[i] == steps[i]; }
    }
    assert Turn(cfg, solo, states', steps') && states'[0] == states[0] && states'[|steps'|] == t;
  }

  lemma TurnSet(cfg: Config, solo: Solo, s: State) returns (reach: iset<State>)
    requires solo.down <= cfg.mayFail
    ensures Undisturbed(cfg, reach, solo) && s in reach
    ensures forall t :: t in reach ==> TurnTo(cfg, solo, s, t)
  {
    reach := iset t | TurnTo(cfg, solo, s, t);
    assert Turn(cfg, solo, [s], []);
    forall t, step | t in reach && Enabled(cfg, t, step) && InTurn(solo, t, step) ensures Apply(cfg, t, step) in reach {
      TurnGoesOn(cfg, solo, s, t, step);
    }
  }

  lemma Go(cfg: Config, reach: iset<State>, solo: Solo, s: State, leader: string, t: State)
    requires Undisturbed(cfg, reach, solo) && s in reach && solo.w in s.workers
    requires !Fails(s.workers[solo.w], solo) && WorkEnabled(cfg, s, solo.w, leader, false) && t == WorkStep(cfg, s, solo.w, leader, false)
    ensures t in reach
  {
    assert Enabled(cfg, s, Work(solo.w, leader, false)) && InTurn(solo, s, Work(solo.w, leader, false));
  }

  lemma GoSts(cfg: Config, reach: iset<State>, solo: Solo, s: State, pc: Pc, fleet: Fleet, pc': Pc)
    requires Undisturbed(cfg, reach, solo) && solo.w in s.workers && s.At(solo.w, pc) in reach
    requires OnSts(pc) && !Fails(pc, solo) && StsStep(cfg, s.reg.store, s.fleet, pc) == (fleet, pc')
    ensures s.(fleet := fleet).At(solo.w, pc') in reach
  {
    assert s.(fleet := fleet).At(solo.w, pc).At(solo.w, pc') == s.(fleet := fleet).At(solo.w, pc');
    Go(cfg, reach, solo, s.At(solo.w, pc), "", s.(fleet := fleet).At(solo.w, pc'));
  }

  lemma GoCm(cfg: Config, reach: iset<State>, solo: Solo, s: State, pc: Pc, peers: Peers, pc': Pc)
    requires Undisturbed(cfg, reach, solo) && solo.w in s.workers && s.At(solo.w, pc) in reach
    requires OnCm(pc) && !Fails(pc, solo) && CmStep(cfg.ns(pc.key), s.peers, pc) == (peers, pc')
    ensures s.(peers := peers).At(solo.w, pc') in reach
  {
    assert s.(peers := peers).At(solo.w, pc).At(solo.w, pc') == s.(peers := peers).At(solo.w, pc');
    Go(cfg, reach, solo, s.At(solo.w, pc), "", s.(peers := peers).At(solo.w, pc'));
  }

  lemma GoFail(cfg: Config, reach: iset<State>, solo: Solo, s: State, pc: Pc, call: Call)
    requires Undisturbed(cfg, reach, solo) && solo.w in s.workers && s.At(solo.w, pc) in reach
    requires call in CallsOf(pc) && call in solo.down && (pc.Start? ==> solo.lookup)
    ensures s.At(solo.w, Failing(pc.key)) in reach
  {
    assert call in CallsOf(pc) * solo.down && call in CallsOf(pc) * cfg.mayFail;
    assert Enabled(cfg, s.At(solo.w, pc), Work(solo.w, "", true)) && InTurn(solo, s.At(solo.w, pc), Work(solo.w, "", true));
    assert s.At(solo.w, pc).At(solo.w, Failing(pc.key)) == s.At(solo.w, Failing(pc.key));
  }

  // ---------- The StatefulSet ----------

  /** The pods that were killed end one after the other. */
  lemma {:induction false} KilledEnd(cfg: Config, reach: iset<State>, solo: Solo, s: State, k: string, ids: set<nat>)
    returns (left: Fleet)
    requires Undisturbed(cfg, reach, solo) && s in reach
    requires ids == set id | id in s.fleet.pods && s.fleet.pods[id].owner == Some(k)
    requires forall id :: id in ids ==> s.fleet.pods[id].terminating
    ensures s.(fleet := left) in reach && left.stss == s.fleet.stss && left.pods == Without(s.fleet.pods, k)
    decreases ids
  {
    if ids == {} {
      left := s.fleet;
      assert s.(fleet := left) == s;
      assert forall id :: id in left.pods ==> id !in ids && left.pods[id].owner != Some(k);
      assert left.pods == Without(left.pods, k);
    } else {
      var id :| id in ids;
      assert Enabled(cfg, s, RemovePod(id)) && InTurn(solo, s, RemovePod(id));
      var s1 := s.(fleet := s.fleet.RemovePod(id));
      assert s1 == Apply(cfg, s, RemovePod(id));
      left := KilledEnd(cfg, reach, solo, s1, k, ids - {id});
      assert Without(s1.fleet.pods, k) == Without(s.fleet.pods, k);
      assert s1.(fleet := left) == s.(fleet := left);
    }
  }

  /** The worker kills its pods, and they end. */
  lemma KillPhase(cfg: Config, reach: iset<State>, solo: Solo, s: State, k: string) returns (left: Fleet)
    requires Undisturbed(cfg, reach, solo) && solo.w in s.workers && s.At(solo.w, Killing(k)) in reach && DeletePods !in solo.down
    ensures s.(fleet := left).At(solo.w, Listing(k)) in reach
    ensures left.stss == s.fleet.stss && left.pods == Without(s.fleet.Kill(k).pods, k)
  {
    GoSts(cfg, reach, solo, s, Killing(k), s.fleet.Kill(k), Listing(k));
    var s1 := s.(fleet := s.fleet.Kill(k)).At(solo.w, Listing(k));
    left := KilledEnd(cfg, reach, solo, s1, k, set id | id in s1.fleet.pods && s1.fleet.pods[id].owner == Some(k));
    assert s1.(fleet := left) == s.(fleet := left).At(solo.w, Listing(k));
  }

  /** The steps from `CreatingSts` do what `HandleStatefulSet` does. */
  lemma StsPhase(cfg: Config, reach: iset<State>, solo: Solo, lib: Lib, world: R.World, s: State, k: string, sts: StatefulSet)
    returns (left: Fleet)
    requires Undisturbed(cfg, reach, solo) && solo.w in s.workers && s.At(solo.w, CreatingSts(k, lib.StoredForm(sts))) in reach
    requires k in world.habs && WellKeyed(world.habs) && IsNamespace(world.habs[k].ns) && world.habs[k].name != "" && IsFor(sts, world.habs[k])
    requires SameFleet(world.habs, world.api, s.fleet)
    ensures var (world', outcome) := R.HandleStatefulSet(lib, world, world.habs[k].ns, sts, solo.down);
            && SameFleet(world.habs, world'.api, left)
            && s.(fleet := left).At(solo.w, if outcome == R.Done then Listing(k) else Failing(k)) in reach
  {
    var h, want := world.habs[k], lib.StoredForm(sts);
    var world' := R.HandleStatefulSet(lib, world, h.ns, sts, solo.down).0;
    left := s.fleet;
    var same := s.(fleet := s.fleet);
    if CreateSts in solo.down {
      GoFail(cfg, reach, solo, s, CreatingSts(k, want), CreateSts);
    } else if k !in s.fleet.stss {
      left := s.fleet.PutSts(k, want);
      GoSts(cfg, reach, solo, s, CreatingSts(k, want), left, Listing(k));
      StsPut(world.habs, world.api, s.fleet, k, world'.api.stss[Place(h)]);
    } else {
      GoSts(cfg, reach, solo, s, CreatingSts(k, want), left, GettingSts(k, want));
      if GetSts in solo.down {
        GoFail(cfg, reach, solo, s, GettingSts(k, want), GetSts);
      } else {
        GoSts(cfg, reach, solo, s, GettingSts(k, want), left, UpdatingSts(k, want, s.fleet.stss[k]));
        if UpdateSts in solo.down {
          GoFail(cfg, reach, solo, s, UpdatingSts(k, want, s.fleet.stss[k]), UpdateSts);
        } else {
          left := UpdatePhase(cfg, reach, solo, lib, world, s, k, sts);
        }
      }
    }
  }

  lemma Updated(lib: Lib, world: R.World, ns: string, sts: StatefulSet, down: set<Call>)
    requires (ns, sts.name) in world.api.stss && CreateSts !in down && GetSts !in down && UpdateSts !in down
    ensures var updated := UpdateStatefulSet(lib, world.api, ns, sts);
            && updated.Ok? && updated.value == world.api.(stss := updated.value.stss, clock := updated.value.clock)
            && (ns, sts.name) in updated.value.stss
            && updated.value.stss == world.api.stss[(ns, sts.name) := updated.value.stss[(ns, sts.name)]]
            && updated.value.stss[(ns, sts.name)].sts == lib.StoredForm(sts)
            && R.HandleStatefulSet(lib, world, ns, sts, down) ==
                 if world.api.stss[(ns, sts.name)].sts.spec.template == lib.StoredForm(sts).spec.template then (world.(api := updated.value), R.Done)
                 else if DeletePods in down then (world.(api := updated.value), R.Erred(Other))
                 else (world.(api := R.DeleteStatefulSetPods(updated.value, ns, lib.StoredForm(sts))), R.Done)
  {
  }

  lemma UpdatePhase(cfg: Config, reach: iset<State>, solo: Solo, lib: Lib, world: R.World, s: State, k: string, sts: StatefulSet)
    returns (left: Fleet)
    requires Undisturbed(cfg, reach, solo) && solo.w in s.workers && k in s.fleet.stss
    requires s.At(solo.w, UpdatingSts(k, lib.StoredForm(sts), s.fleet.stss[k])) in reach
    requires k in world.habs && WellKeyed(world.habs) && IsNamespace(world.habs[k].ns) && world.habs[k].name != "" && IsFor(sts, world.habs[k])
    requires SameFleet(world.habs, world.api, s.fleet) && CreateSts !in solo.down && GetSts !in solo.down && UpdateSts !in solo.down
    ensures var (world', outcome) := R.HandleStatefulSet(lib, world, world.habs[k].ns, sts, solo.down);
            && SameFleet(world.habs, world'.api, left)
            && s.(fleet := left).At(solo.w, if outcome == R.Done then Listing(k) else Failing(k)) in reach
  {
    var h, want, before := world.habs[k], lib.StoredForm(sts), s.fleet.stss[k];
    Updated(lib, world, h.ns, sts, solo.down);
    var updated := UpdateStatefulSet(lib, world.api, h.ns, sts).value;
    var pc := UpdatingSts(k, want, before);
    left := s.fleet.PutSts(k, want);
    StsPut(world.habs, world.api, s.fleet, k, updated.stss[Place(h)]);
    assert SameFleet(world.habs, updated, left);
    if before.spec.template == want.spec.template {
      GoSts(cfg, reach, solo, s, pc, left, Listing(k));
    } else {
      GoSts(cfg, reach, solo, s, pc, left, Killing(k));
      var s1 := s.(fleet := left);
      if DeletePods in solo.down {
        GoFail(cfg, reach, solo, s1, Killing(k), DeletePods);
      } else {
        left := KillPhase(cfg, reach, solo, s1, k);
        FleetKilled(world.habs, updated, s1.fleet, left, k, want);
        assert s1.(fleet := left) == s.(fleet := left);
      }
    }
  }

  // ---------- The peer ConfigMap ----------

  /** The ConfigMap part comes to the end `r`, in both. */
  ghost predicate Ends(reach: iset<State>, solo: Solo, world: R.World, r: (R.World, R.Outcome), s: State, k: string, peers: Peers) {
    && r.0 == world.(api := world.api.(cms := r.0.api.cms, clock := r.0.api.clock), cmCache := r.0.cmCache)
    && r.1 != R.Panicked && SamePeers(r.0.api, r.0.cmCache, peers)
    && s.(peers := peers).At(solo.w, if r.1 == R.Done then Releasing(k) else Failing(k)) in reach
  }

  /** The update is refused, or finds nothing to change, or goes through, on both sides. */
  lemma SendPhase(cfg: Config, reach: iset<State>, solo: Solo, world: R.World, s: State, k: string, ips: set<string>, leader: string)
    returns (written: Peers)
    requires Undisturbed(cfg, reach, solo) && solo.w in s.workers && SamePeers(world.api, world.cmCache, s.peers)
    requires cfg.ns(k) in world.api.cms && cfg.ns(k) in world.cmCache && cfg.ns(k) in s.peers.store
    requires Entry(world.cmCache[cfg.ns(k)]) == leader && UpdateCm !in solo.down
    requires s.At(solo.w, UpdatingCm(k, ips, leader, s.peers.store[cfg.ns(k)])) in reach
    ensures var r := UpdateConfigMap(world.api, cfg.ns(k), world.cmCache[cfg.ns(k)]);
            Ends(reach, solo, world, if r.Ok? then (world.(api := r.value), R.Done) else (world, R.Erred(r.error)), s, k, written)
  {
    var ns := cfg.ns(k);
    var cm := world.cmCache[ns];
    var pc := UpdatingCm(k, ips, leader, s.peers.store[ns]);
    assert SameCm(world.api, world.cmCache, s.peers, ns);
    written := s.peers;
    if cm.resourceVersion != world.api.cms[ns].resourceVersion {
      GoCm(cfg, reach, solo, s, pc, written, Failing(k));
    } else if Entry(world.api.cms[ns]) == leader {
      assert cm.data.value[PEER_FILE := leader] == cm.data.value;
      GoCm(cfg, reach, solo, s, pc, written, Releasing(k));
    } else {
      CmPut(world.api, world.cmCache, written, ns, cm);
      written := written.Put(ns, leader);
      GoCm(cfg, reach, solo, s, pc, written, Releasing(k));
    }
  }

  /** The steps from the in-place write on do what `writeLeaderIP` does. */
  lemma WritePhase(cfg: Config, reach: iset<State>, solo: Solo, world: R.World, s: State, k: string, ips: set<string>, leader: string)
    returns (written: Peers)
    requires Undisturbed(cfg, reach, solo) && solo.w in s.workers && SamePeers(world.api, world.cmCache, s.peers)
    requires cfg.ns(k) in world.api.cms && cfg.ns(k) in world.cmCache && cfg.ns(k) in s.peers.store
    requires s.At(solo.w, Assigning(k, ips, leader, s.peers.store[cfg.ns(k)])) in reach
    ensures Ends(reach, solo, world, R.WriteLeaderIP(world, cfg.ns(k), leader, solo.down), s, k, written)
  {
    var ns := cfg.ns(k);
    var obj := s.peers.store[ns];
    CmAssign(world.api, world.cmCache, s.peers, ns, leader);
    written := s.peers.Assign(obj, leader);
    GoCm(cfg, reach, solo, s, Assigning(k, ips, leader, obj), written, UpdatingCm(k, ips, leader, obj));
    var s1 := s.(peers := written);
    var world1 := world.(cmCache := world.cmCache[ns := WithEntry(world.cmCache[ns], leader)]);
    if UpdateCm in solo.down {
      GoFail(cfg, reach, solo, s1, UpdatingCm(k, ips, leader, obj), UpdateCm);
    } else {
      written := SendPhase(cfg, reach, solo, world1, s1, k, ips, leader);
      assert s1.(peers := written) == s.(peers := written);
    }
  }

  /** What the worker's list tells it: the same addresses, and the same leader. */
  lemma ListPhase(cfg: Config, reach: iset<State>, solo: Solo, pods: seq<Pod>, s: State, k: string)
    requires Undisturbed(cfg, reach, solo) && solo.w in s.workers && s.At(solo.w, Listing(k)) in reach && ListPods !in solo.down
    requires Faces(s.fleet.pods) == FacesOf(pods)
    ensures var running := RunningPods(pods, cfg.ns(k));
            && s.At(solo.w, CreatingCm(k, RunIPs(s.fleet.pods, cfg.ns(k)), R.LeaderIP(running))) in reach
            && (running == [] <==> RunIPs(s.fleet.pods, cfg.ns(k)) == {})
            && forall ip :: ip in RunIPs(s.fleet.pods, cfg.ns(k)) <==> IsIpOf(ip, running)
  {
    var ns := cfg.ns(k);
    var running, ips := RunningPods(pods, ns), RunIPs(s.fleet.pods, ns);
    SameIPs(s.fleet, pods, ns);
    if running != [] { assert running[0] in running && running[0].ip in ips; }
    var leader := R.LeaderIP(running);
    assert s.At(solo.w, Listing(k)).At(solo.w, CreatingCm(k, ips, leader)) == s.At(solo.w, CreatingCm(k, ips, leader));
    Go(cfg, reach, solo, s.At(solo.w, Listing(k)), leader, s.At(solo.w, CreatingCm(k, ips, leader)));
  }

  /** The steps from `Listing` do what `handleConfigMap` does. */
  lemma CmPhase(cfg: Config, reach: iset<State>, solo: Solo, world: R.World, h: Habitat, s: State, k: string) returns (written: Peers)
    requires Undisturbed(cfg, reach, solo) && solo.w in s.workers && s.At(solo.w, Listing(k)) in reach
    requires SamePeers(world.api, world.cmCache, s.peers) && Faces(s.fleet.pods) == FacesOf(world.api.pods) && h.ns == cfg.ns(k)
    ensures Ends(reach, solo, world, R.HandleConfigMap(world, h, solo.down), s, k, written)
  {
    var ns, ips := h.ns, RunIPs(s.fleet.pods, h.ns);
    assert SameCm(world.api, world.cmCache, s.peers, ns);
    written := s.peers;
    assert s.(peers := written) == s;
    if ListPods in solo.down {
      GoFail(cfg, reach, solo, s, Listing(k), ListPods);
    } else {
      var running := RunningPods(world.api.pods, ns);
      var leader := R.LeaderIP(running);
      var pc := CreatingCm(k, ips, leader);
      ListPhase(cfg, reach, solo, world.api.pods, s, k);
      if CreateCm in solo.down {
        GoFail(cfg, reach, solo, s, pc, CreateCm);
      } else if ns !in world.api.cms {
        CmPut(world.api, world.cmCache, s.peers, ns, NewConfigMap(leader, h));
        written := s.peers.Put(ns, leader);
        GoCm(cfg, reach, solo, s, pc, written, Releasing(k));
      } else {
        GoCm(cfg, reach, solo, s, pc, written, FindingCm(k, ips, leader));
        written := CachePhase(cfg, reach, solo, world, h, s, k, ips, leader);
      }
    }
  }

  /** What `handleConfigMap` does about a ConfigMap that exists. */
  lemma Found(world: R.World, h: Habitat, down: set<Call>)
    requires ListPods !in down && CreateCm !in down && h.ns in world.api.cms
    ensures var running := RunningPods(world.api.pods, h.ns);
            R.HandleConfigMap(world, h, down) ==
              if h.ns !in world.cmCache then (world, R.Erred(CacheMiss))
              else if running != [] && IsIpOf(Entry(world.cmCache[h.ns]), running) then (world, R.Done)
              else R.WriteLeaderIP(world, h.ns, R.LeaderIP(running), down)
  {
  }

  /** The worker finds the cached object, and reads it unless its list is empty. */
  lemma FindPhase(cfg: Config, reach: iset<State>, solo: Solo, s: State, k: string, ips: set<string>, leader: string, obj: nat)
    requires Undisturbed(cfg, reach, solo) && solo.w in s.workers && s.At(solo.w, FindingCm(k, ips, leader)) in reach
    requires cfg.ns(k) in s.peers.store && s.peers.store[cfg.ns(k)] == obj && obj < |s.peers.heap|
    ensures s.At(solo.w, if ips != {} && s.peers.heap[obj].entry in ips then Releasing(k) else Assigning(k, ips, leader, obj)) in reach
  {
    var pc := FindingCm(k, ips, leader);
    assert s.(peers := s.peers) == s;
    if ips == {} {
      GoCm(cfg, reach, solo, s, pc, s.peers, Assigning(k, ips, leader, obj));
    } else {
      GoCm(cfg, reach, solo, s, pc, s.peers, Reading(k, ips, leader, obj));
      GoCm(cfg, reach, solo, s, Reading(k, ips, leader, obj), s.peers,
           if s.peers.heap[obj].entry in ips then Releasing(k) else Assigning(k, ips, leader, obj));
    }
  }

  lemma CachePhase(cfg: Config, reach: iset<State>, solo: Solo, world: R.World, h: Habitat, s: State, k: string, ips: set<string>, leader: string)
    returns (written: Peers)
    requires Undisturbed(cfg, reach, solo) && solo.w in s.workers && s.At(solo.w, FindingCm(k, ips, leader)) in reach
    requires SamePeers(world.api, world.cmCache, s.peers) && h.ns == cfg.ns(k) && h.ns in world.api.cms
    requires ListPods !in solo.down && CreateCm !in solo.down && leader == R.LeaderIP(RunningPods(world.api.pods, h.ns))
    requires RunningPods(world.api.pods, h.ns) == [] <==> ips == {}
    requires forall ip :: ip in ips <==> IsIpOf(ip, RunningPods(world.api.pods, h.ns))
    ensures Ends(reach, solo, world, R.HandleConfigMap(world, h, solo.down), s, k, written)
  {
    assert SameCm(world.api, world.cmCache, s.peers, h.ns);
    Found(world, h, solo.down);
    written := s.peers;
    assert s.(peers := written) == s;
    if h.ns !in world.cmCache {
      GoCm(cfg, reach, solo, s, FindingCm(k, ips, leader), written, Failing(k));
    } else {
      FindPhase(cfg, reach, solo, s, k, ips, leader, s.peers.store[h.ns]);
      if ips == {} || Entry(world.cmCache[h.ns]) !in ips {
        written := WritePhase(cfg, reach, solo, world, s, k, ips, leader);
      }
    }
  }

  // ---------- A whole reconcile ----------

  /** A lookup fails, of a Habitat that would compile otherwise. */
  predicate LookupFails(lib: Lib, world: R.World, k: string, down: set<Call>) {
    && k in world.habs && R.Compilable(lib, world.api, world.habs[k])
    && Compile(lib.parse, R.SecretsOf(world.api, down), world.habs[k]).Err?
  }

  lemma FailingLookup(lib: Lib, world: R.World, k: string, down: set<Call>) returns (call: Call)
    requires LookupFails(lib, world, k, down)
    ensures call in {GetConfigSecret, GetFilesSecret, GetRingSecret} && call in down
  {
    CompilesExactly(lib.parse, R.SecretsOf(world.api, {}), world.habs[k]);
    CompilesExactly(lib.parse, R.SecretsOf(world.api, down), world.habs[k]);
    call := if GetConfigSecret in down then GetConfigSecret else if GetFilesSecret in down then GetFilesSecret else GetRingSecret;
  }

  /** What `conform` does before it touches the cluster. */
  lemma Begun(lib: Lib, world: R.World, k: string, down: set<Call>)
    requires k in world.habs
    ensures var h := world.habs[k];
            var compiled := Compiled(lib, world.api, h);
            if compiled.None? || LookupFails(lib, world, k, down)
            then R.Conform(lib, world, k, down).0 == world && R.Conform(lib, world, k, down).1.Erred?
            else exists sts :: IsFor(sts, h) && compiled.value == lib.StoredForm(sts)
                               && R.Conform(lib, world, k, down) == R.Apply(lib, world, h, sts, down)
  {
    var h := world.habs[k];
    if ValidateCustomObject(h).None? {
      CompilesExactly(lib.parse, R.SecretsOf(world.api, {}), h);
      CompilesExactly(lib.parse, R.SecretsOf(world.api, down), h);
      if Compile(lib.parse, R.SecretsOf(world.api, down), h).Ok? {
        SuccessIgnoresSecrets(lib.parse, R.SecretsOf(world.api, {}), R.SecretsOf(world.api, down), h);
        assert IsFor(Compile(lib.parse, R.SecretsOf(world.api, {}), h).value, h);
      }
    }
  }

  /** The steps from `Start` do what `conform` does. */
  lemma ConformPhase(cfg: Config, reach: iset<State>, solo: Solo, lib: Lib, world: R.World, s: State, k: string) returns (t: State)
    requires Undisturbed(cfg, reach, solo) && solo.w in s.workers && s.At(solo.w, Start(k)) in reach
    requires Agrees(cfg, lib, world, s) && solo.lookup == LookupFails(lib, world, k, solo.down)
    ensures var (world', outcome) := R.Conform(lib, world, k, solo.down);
            && outcome != R.Panicked && Agrees(cfg, lib, world', t) && t == s.(fleet := t.fleet, peers := t.peers)
            && t.At(solo.w, if outcome == R.Done then Releasing(k) else Failing(k)) in reach
  {
    t := s;
    assert s.(fleet := s.fleet) == s;
    if k !in world.habs {
      GoSts(cfg, reach, solo, s, Start(k), s.fleet, Releasing(k));
    } else {
      Begun(lib, world, k, solo.down);
      var h := world.habs[k];
      if solo.lookup {
        var call := FailingLookup(lib, world, k, solo.down);
        GoFail(cfg, reach, solo, s, Start(k), call);
      } else if cfg.desired(h).None? {
        GoSts(cfg, reach, solo, s, Start(k), s.fleet, Failing(k));
      } else {
        var sts :| IsFor(sts, h) && cfg.desired(h).value == lib.StoredForm(sts)
                   && R.Conform(lib, world, k, solo.down) == R.Apply(lib, world, h, sts, solo.down);
        GoSts(cfg, reach, solo, s, Start(k), s.fleet, CreatingSts(k, lib.StoredForm(sts)));
        t := ApplyPhase(cfg, reach, solo, lib, world, s, k, sts);
      }
    }
  }

  /** The steps from the first call that touches the cluster do what `Apply` does. */
  lemma ApplyPhase(cfg: Config, reach: iset<State>, solo: Solo, lib: Lib, world: R.World, s: State, k: string, sts: StatefulSet) returns (t: State)
    requires Undisturbed(cfg, reach, solo) && solo.w in s.workers && s.At(solo.w, CreatingSts(k, lib.StoredForm(sts))) in reach
    requires Agrees(cfg, lib, world, s) && k in world.habs && IsFor(sts, world.habs[k])
    ensures var (world', outcome) := R.Apply(lib, world, world.habs[k], sts, solo.down);
            && outcome != R.Panicked && Agrees(cfg, lib, world', t) && t == s.(fleet := t.fleet, peers := t.peers)
            && t.At(solo.w, if outcome == R.Done then Releasing(k) else Failing(k)) in reach
  {
    var h := world.habs[k];
    var (world1, outcome) := R.HandleStatefulSet(lib, world, h.ns, sts, solo.down);
    var fleet := StsPhase(cfg, reach, solo, lib, world, s, k, sts);
    R.StatefulSetFrame(lib, world, h.ns, sts, solo.down);
    StsKeepsPeers(lib, world, h.ns, sts, solo.down, s.peers);
    t := s.(fleet := fleet);
    FixedStays(cfg, lib, world, world1);
    if outcome == R.Done {
      var peers := CmPhase(cfg, reach, solo, world1, h, t, k);
      FixedStays(cfg, lib, world, R.HandleConfigMap(world1, h, solo.down).0);
      t := t.(peers := peers);
    } else {
      StsNeverPanics(lib, world, h.ns, sts, solo.down);
    }
  }

  lemma StsNeverPanics(lib: Lib, world: R.World, ns: string, sts: StatefulSet, down: set<Call>)
    ensures R.HandleStatefulSet(lib, world, ns, sts, down).1 != R.Panicked
  {
  }

  /** The worker backs a failed key off, and lets it go in any case. */
  lemma EndPhase(cfg: Config, reach: iset<State>, solo: Solo, s: State, k: string, failed: bool)
    requires Undisturbed(cfg, reach, solo) && solo.w in s.workers && s.At(solo.w, if failed then Failing(k) else Releasing(k)) in reach
    ensures s.(q := (if failed then s.q.AddRateLimited(k) else s.q).Done(k)).At(solo.w, Idle) in reach
  {
    var s1 := s;
    if failed {
      s1 := s.(q := s.q.AddRateLimited(k));
      assert s.At(solo.w, Failing(k)).(q := s1.q).At(solo.w, Releasing(k)) == s1.At(solo.w, Releasing(k));
      Go(cfg, reach, solo, s.At(solo.w, Failing(k)), "", s1.At(solo.w, Releasing(k)));
    }
    var s2 := s1.(q := s1.q.Done(k));
    assert s1.At(solo.w, Releasing(k)).(q := s2.q).At(solo.w, Idle) == s2.At(solo.w, Idle);
    Go(cfg, reach, solo, s1.At(solo.w, Releasing(k)), "", s2.At(solo.w, Idle));
  }

  /** A turn, given where its reconcile ends. */
  lemma Rounded(cfg: Config, reach: iset<State>, solo: Solo, lib: Lib, world: R.World, s: State, k: string, failed: bool, s2: State) returns (t: State)
    requires Undisturbed(cfg, reach, solo) && solo.w in s.workers && s.workers[solo.w] == Idle
    requires Agrees(cfg, lib, world, s2) && s2.workers == s.workers && s2.reg == s.reg
    requires s2.At(solo.w, if failed then Failing(k) else Releasing(k)) in reach
    ensures t in reach && Agrees(cfg, lib, world, t) && t.workers == s.workers && t.reg == s.reg
    ensures t.q == (if failed then s2.q.AddRateLimited(k) else s2.q).Done(k)
  {
    EndPhase(cfg, reach, solo, s2, k, failed);
    var q := (if failed then s2.q.AddRateLimited(k) else s2.q).Done(k);
    t := s2.(q := q).At(solo.w, Idle);
    OnlyObjectsMatter(cfg, lib, world, s2, q, s2.workers[solo.w := Idle]);
    assert t == s2.(q := q, workers := s2.workers[solo.w := Idle]);
    assert s2.workers[solo.w := Idle] == s.workers;
  }

  /** The worker takes the oldest key. */
  lemma TakePhase(cfg: Config, reach: iset<State>, solo: Solo, s: State)
    requires Undisturbed(cfg, reach, solo) && s in reach && solo.w in s.workers && s.workers[solo.w] == Idle && s.q.queue != []
    ensures s.(q := s.q.Take().1).At(solo.w, Start(s.q.Take().0)) in reach
  {
    Go(cfg, reach, solo, s, "", s.(q := s.q.Take().1).At(solo.w, Start(s.q.Take().0)));
  }

  /**
    An undisturbed turn of a worker is one call of `processNextItem`: from agreeing states, with the same
    calls failing, it takes the same key, leaves cluster and cache in agreement with what `Conform` makes
    of them, and the queue as `Controller.HabitatController.ProcessNextItem` leaves it.
  */
  lemma TurnIsConform(cfg: Config, lib: Lib, world: R.World, s: State, w: nat, down: set<Call>) returns (t: State)
    requires Agrees(cfg, lib, world, s) && down <= cfg.mayFail
    requires w in s.workers && s.workers[w] == Idle && s.q.queue != []
    ensures var k := s.q.queue[0];
            var taken := s.q.Take().1;
            var (world', outcome) := R.Conform(lib, world, k, down);
            && TurnTo(cfg, Solo(w, down, LookupFails(lib, world, k, down)), s, t)
            && Agrees(cfg, lib, world', t) && outcome != R.Panicked
            && t.q == (if outcome.Erred? then taken.AddRateLimited(k) else taken).Done(k)
            && t.workers == s.workers && t.reg == s.reg
  {
    var k, taken := s.q.Take().0, s.q.Take().1;
    var solo := Solo(w, down, LookupFails(lib, world, k, down));
    var reach := TurnSet(cfg, solo, s);
    TakePhase(cfg, reach, solo, s);
    OnlyObjectsMatter(cfg, lib, world, s, taken, s.workers);
    var s2 := ConformPhase(cfg, reach, solo, lib, world, s.(q := taken), k);
    t := Rounded(cfg, reach, solo, lib, R.Conform(lib, world, k, down).0, s, k, R.Conform(lib, world, k, down).1 != R.Done, s2);
  }
}
