/**
  A pod built from another template than its StatefulSet's current one lives on only while a worker is
  between the update of that StatefulSet and the deletion of its pods: provided no deletion fails, and the
  StatefulSet controller does not build pods from a template that has been replaced.
*/
module RolloutSafety {
  import opened Types
  import opened Workqueue
  import opened Protocol
  import opened ProtocolInv
  import opened ProtocolPeers
  import opened SafeConfigs
  import opened Stretches
  import opened LostRepair

  /** The pod is not being deleted, and its StatefulSet has another template by now. */
  predicate Outdated(fleet: Fleet, id: nat) {
    && id in fleet.pods && !fleet.pods[id].terminating && fleet.pods[id].template.Some?
    && !FromCurrent(fleet, fleet.pods[id])
  }

  predicate FromCurrent(fleet: Fleet, pod: Instance) {
    pod.owner.Some? && pod.owner.value in fleet.stss && pod.template == Some(fleet.stss[pod.owner.value].spec.template)
  }

  ghost predicate Rolling(workers: map<nat, Pc>, owner: Option<string>) {
    owner.Some? && exists w: nat :: w in workers && workers[w] == Killing(owner.value)
  }

  /** Outdated pods are about to be deleted. */
  ghost predicate RolloutSafe(s: State) {
    forall id: nat :: Outdated(s.fleet, id) ==> Rolling(s.workers, s.fleet.pods[id].owner)
  }

  /** At the start every pod comes from its StatefulSet's template. */
  predicate UpToDate(fleet: Fleet) {
    forall id :: id in fleet.pods && fleet.pods[id].template.Some? ==> FromCurrent(fleet, fleet.pods[id])
  }

  // ---------- What every step keeps ----------

  /** Between the Get and the Update nobody else changes the StatefulSet; pods have StatefulSets. */
  predicate SeenInv(s: State) {
    && (forall w :: w in s.workers && s.workers[w].UpdatingSts? ==>
          s.workers[w].key in s.fleet.stss && s.fleet.stss[s.workers[w].key] == s.workers[w].before)
    && (forall id :: id in s.fleet.pods && s.fleet.pods[id].template.Some? ==>
          s.fleet.pods[id].owner.Some? && s.fleet.pods[id].owner.value in s.fleet.stss)
  }

  /** The deletion of pods fails, or a pod is built from a replaced template. */
  predicate Spares(s: State, step: Step) {
    || (step.Work? && step.w in s.workers && s.workers[step.w].Killing? && step.fault)
    || (step.StartPod? && step.key in s.fleet.stss && step.template != s.fleet.stss[step.key].spec.template)
  }

  /** The outside changes no pod's template or owner; the pods it starts are strays, or come from a StatefulSet. */
  lemma OutsidePods(cfg: Config, s: State, step: Step, id: nat)
    requires Enabled(cfg, s, step) && !step.Work? && id in Apply(cfg, s, step).fleet.pods
    ensures var pod := Apply(cfg, s, step).fleet.pods[id];
            || (id in s.fleet.pods && pod == s.fleet.pods[id].(phase := pod.phase, ip := pod.ip))
            || pod.template.None?
            || (pod.owner.Some? && pod.owner.value in s.fleet.stss && (FromCurrent(s.fleet, pod) || Spares(s, step)))
  {
  }

  lemma OutsideKeepsSeen(cfg: Config, s: State, step: Step)
    requires BaseInv(cfg, s) && SeenInv(s) && Enabled(cfg, s, step) && !step.Work?
    ensures SeenInv(Apply(cfg, s, step))
  {
    OutsideGrows(cfg, s, step);
    OutsideKeepsStss(cfg, s, step);
    forall id | id in Apply(cfg, s, step).fleet.pods { OutsidePods(cfg, s, step, id); }
  }

  lemma OutsideOutdatesNone(cfg: Config, s: State, step: Step, id: nat)
    requires Enabled(cfg, s, step) && !step.Work? && !Spares(s, step) && Outdated(Apply(cfg, s, step).fleet, id)
    ensures Outdated(s.fleet, id) && Apply(cfg, s, step).fleet.pods[id].owner == s.fleet.pods[id].owner
  {
    OutsideKeepsStss(cfg, s, step);
    OutsidePods(cfg, s, step, id);
  }

  lemma OutsideKeepsRollout(cfg: Config, s: State, step: Step)
    requires BaseInv(cfg, s) && RolloutSafe(s) && Enabled(cfg, s, step) && !step.Work? && !Spares(s, step)
    ensures RolloutSafe(Apply(cfg, s, step))
  {
    OutsideGrows(cfg, s, step);
    var s' := Apply(cfg, s, step);
    forall id: nat | Outdated(s'.fleet, id) ensures Rolling(s'.workers, s'.fleet.pods[id].owner) {
      OutsideOutdatesNone(cfg, s, step, id);
    }
  }

  lemma OutsideKeepsStss(cfg: Config, s: State, step: Step)
    requires Enabled(cfg, s, step) && !step.Work?
    ensures Apply(cfg, s, step).fleet.stss == s.fleet.stss
  {
  }

  /** A worker's step changes at most the StatefulSet of its own key. */
  lemma WorkStss(cfg: Config, s: State, w: nat, leader: string, fault: bool)
    requires WorkEnabled(cfg, s, w, leader, fault)
    ensures var s' := WorkStep(cfg, s, w, leader, fault);
            && s.fleet.stss.Keys <= s'.fleet.stss.Keys
            && (forall k :: k in s.fleet.stss && (s.workers[w].Idle? || k != s.workers[w].key) ==> s'.fleet.stss[k] == s.fleet.stss[k])
            && (w in s'.workers && s'.workers[w].UpdatingSts? ==>
                  && s'.workers[w].key in s'.fleet.stss && s'.fleet.stss[s'.workers[w].key] == s'.workers[w].before)
  {
  }

  lemma WorkPods(cfg: Config, s: State, w: nat, leader: string, fault: bool)
    requires WorkEnabled(cfg, s, w, leader, fault)
    ensures var pods' := WorkStep(cfg, s, w, leader, fault).fleet.pods;
            && pods'.Keys == s.fleet.pods.Keys
            && forall id :: id in s.fleet.pods ==> pods'[id] == s.fleet.pods[id].(terminating := pods'[id].terminating)
  {
  }

  lemma WorkKeepsSeen(cfg: Config, s: State, w: nat, leader: string, fault: bool)
    requires BaseInv(cfg, s) && SeenInv(s) && WorkEnabled(cfg, s, w, leader, fault)
    ensures SeenInv(WorkStep(cfg, s, w, leader, fault))
  {
    var s' := WorkStep(cfg, s, w, leader, fault);
    WorkMoves(cfg, s, w, leader, fault);
    WorkStss(cfg, s, w, leader, fault);
    WorkPods(cfg, s, w, leader, fault);
    forall v | v in s'.workers && s'.workers[v].UpdatingSts?
      ensures s'.workers[v].key in s'.fleet.stss && s'.fleet.stss[s'.workers[v].key] == s'.workers[v].before
    {
      if v != w && Busy(s.workers, w) { KeysDiffer(cfg, s, v, w); }
    }
  }

  /** Only the update of its StatefulSet outdates a pod, and that worker goes on to delete it. */
  lemma OutdatedByUpdate(cfg: Config, s: State, w: nat, leader: string, fault: bool, id: nat)
    requires SeenInv(s) && WorkEnabled(cfg, s, w, leader, fault)
    requires Outdated(WorkStep(cfg, s, w, leader, fault).fleet, id) && !Outdated(s.fleet, id)
    ensures s.fleet.pods[id].owner.Some?
    ensures s.workers[w].UpdatingSts? && WorkStep(cfg, s, w, leader, fault).workers[w] == Killing(s.fleet.pods[id].owner.value)
  {
  }

  /** A pod that outlives a step of its StatefulSet's deleting worker is not outdated any more. */
  lemma KillerLeavesNone(cfg: Config, s: State, w: nat, leader: string, fault: bool, id: nat)
    requires WorkEnabled(cfg, s, w, leader, fault) && !Spares(s, Work(w, leader, fault))
    requires id in s.fleet.pods && s.fleet.pods[id].owner.Some? && s.workers[w] == Killing(s.fleet.pods[id].owner.value)
    ensures !Outdated(WorkStep(cfg, s, w, leader, fault).fleet, id)
  {
  }

  lemma WorkKeepsRollout(cfg: Config, s: State, w: nat, leader: string, fault: bool)
    requires SeenInv(s) && RolloutSafe(s) && WorkEnabled(cfg, s, w, leader, fault)
    requires !Spares(s, Work(w, leader, fault))
    ensures RolloutSafe(WorkStep(cfg, s, w, leader, fault))
  {
    var s' := WorkStep(cfg, s, w, leader, fault);
    WorkMoves(cfg, s, w, leader, fault);
    WorkPods(cfg, s, w, leader, fault);
    forall id: nat | Outdated(s'.fleet, id) ensures Rolling(s'.workers, s'.fleet.pods[id].owner) {
      if Outdated(s.fleet, id) {
        var k := s.fleet.pods[id].owner.value;
        var v: nat :| v in s.workers && s.workers[v] == Killing(k);
        if v == w { KillerLeavesNone(cfg, s, w, leader, fault, id); }
        assert s'.workers[v] == Killing(k);
      } else {
        OutdatedByUpdate(cfg, s, w, leader, fault, id);
      }
    }
  }

  ghost predicate RolloutInv(cfg: Config, s: State) {
    BaseInv(cfg, s) && SeenInv(s) && RolloutSafe(s)
  }

  lemma StepKeepsRollout(cfg: Config, s: State, step: Step)
    requires RolloutInv(cfg, s) && Enabled(cfg, s, step) && !Spares(s, step)
    ensures RolloutInv(cfg, Apply(cfg, s, step))
  {
    StepKeepsBase(cfg, s, step);
    if step.Work? {
      WorkKeepsSeen(cfg, s, step.w, step.leader, step.fault);
      WorkKeepsRollout(cfg, s, step.w, step.leader, step.fault);
    } else {
      OutsideKeepsSeen(cfg, s, step);
      OutsideKeepsRollout(cfg, s, step);
    }
  }

  /** In a run in which no deletion of pods fails and no pod is built late, outdated pods exist only during a rollout. */
  lemma {:induction false} RolloutsAreSafe(cfg: Config, states: seq<State>, steps: seq<Step>, n: nat)
    requires Run(cfg, states, steps) && UpToDate(states[0].fleet) && n < |states|
    requires forall i :: 0 <= i < |steps| ==> !Spares(states[i], steps[i])
    ensures RolloutInv(cfg, states[n])
  {
    if n == 0 {
      InitBase(cfg, states[0]);
    } else {
      RolloutsAreSafe(cfg, states, steps, n - 1);
      StepKeepsRollout(cfg, states[n - 1], steps[n - 1]);
    }
  }

  // ---------- Exactly when rollouts are safe ----------

  ghost predicate Reached(cfg: Config, s: State) {
    exists start: State :: UpToDate(start.fleet) && ReachableFrom(cfg, start, s)
  }

  /** No deletion of pods can fail, and pods are built from current templates; or no worker gets that far. */
  ghost predicate SafeToRoll(cfg: Config) {
    Works(cfg) ==> DeletePods !in cfg.mayFail && !cfg.lags
  }

  /** A template has been replaced only where some worker works. */
  ghost predicate ReplacedInv(cfg: Config, s: State) {
    s.fleet.replaced != {} ==> Works(cfg)
  }

  lemma StepKeepsReplaced(cfg: Config, s: State, step: Step)
    requires BaseInv(cfg, s) && Founded(cfg, s.workers) && ReplacedInv(cfg, s) && Enabled(cfg, s, step)
    ensures ReplacedInv(cfg, Apply(cfg, s, step))
  {
    if step.Work? && !Early(s.workers[step.w]) { LateMeansWorks(cfg, s, step.w); }
  }

  lemma SafeSteps(cfg: Config, s: State, step: Step)
    requires SafeToRoll(cfg) && BaseInv(cfg, s) && Founded(cfg, s.workers) && ReplacedInv(cfg, s) && Enabled(cfg, s, step)
    ensures !Spares(s, step)
  {
    if step.Work? && s.workers[step.w].Killing? { LateMeansWorks(cfg, s, step.w); }
  }

  lemma {:induction false} SafeRollouts(cfg: Config, states: seq<State>, steps: seq<Step>, n: nat)
    requires Run(cfg, states, steps) && UpToDate(states[0].fleet) && n < |states| && SafeToRoll(cfg)
    ensures RolloutInv(cfg, states[n]) && Founded(cfg, states[n].workers) && ReplacedInv(cfg, states[n])
  {
    if n == 0 {
      InitBase(cfg, states[0]);
    } else {
      SafeRollouts(cfg, states, steps, n - 1);
      var s, step := states[n - 1], steps[n - 1];
      SafeSteps(cfg, s, step);
      StepKeepsRollout(cfg, s, step);
      StepKeepsFounded(cfg, s, step);
      StepKeepsReplaced(cfg, s, step);
    }
  }

  /** A template that is not the given one. */
  function Another(t: PodTemplate): (r: PodTemplate)
    ensures r != t
  {
    if "" in t.labels then t.(labels := map[]) else t.(labels := map["" := ""])
  }

  /** One pod of a Habitat whose specification changed while the operator was away. */
  function Changed(cfg: Config, k: string, h: Habitat, sts: StatefulSet, past: PodTemplate): State {
    State(Registry(map[k := h], map[], [HabEvent(k, h)], []),
          Fleet(map[k := sts], {}, map[0 := Instance(cfg.ns(k), Some(k), Running, OLD, Some(past), false)], [], []),
          Peers(map[], 0, map[], [], [], []), EMPTY, AllIdle(cfg))
  }

  /** The Habitat is known, and a worker has it. */
  function Taken(cfg: Config, k: string, h: Habitat, sts: StatefulSet, past: PodTemplate): State {
    Changed(cfg, k, h, sts, past).(reg := Registry(map[k := h], map[k := h], [], []), q := Queue([], {}, {k}, {}, false))
  }

  ghost predicate HoldsFreshStarts(cfg: Config, reach: iset<State>) {
    forall s :: Init(cfg, s) && UpToDate(s.fleet) ==> s in reach
  }

  lemma ToUpdatingSts(cfg: Config, reach: iset<State>, k: string, w: nat, h: Habitat, want: StatefulSet, sts: StatefulSet, past: PodTemplate)
    requires Closed(cfg, reach) && HoldsFreshStarts(cfg, reach)
    requires Deploys(cfg, k, h, want) && w in cfg.workers && sts.spec.template == past
    ensures Taken(cfg, k, h, sts, past).At(w, UpdatingSts(k, want, sts)) in reach
  {
    var s := Changed(cfg, k, h, sts, past);
    assert s.reg.events[0] == HabEvent(k, h) && s.reg.events[1..] == [];
    assert Init(cfg, s) && UpToDate(s.fleet);
    Introduce(cfg, reach, s, k, h);
    s := Taken(cfg, k, h, sts, past);
    assert EMPTY.Add(k) == Queue([k], {k}, {}, {}, false) && EMPTY.Add(k).Take().1 == s.q;
    WorkReachable(cfg, reach, s.(q := EMPTY.Add(k)), w, "", s.At(w, Start(k)));
    MoveSts(cfg, reach, s, w, Start(k), s.fleet, CreatingSts(k, want));
    MoveSts(cfg, reach, s, w, CreatingSts(k, want), s.fleet, GettingSts(k, want));
    MoveSts(cfg, reach, s, w, GettingSts(k, want), s.fleet, UpdatingSts(k, want, sts));
  }

  /** The StatefulSet is updated, the deletion of its pods fails, and nothing will try it again. */
  lemma SpareRun(cfg: Config, reach: iset<State>, k: string, w: nat, h: Habitat, want: StatefulSet) returns (t: State)
    requires Closed(cfg, reach) && HoldsFreshStarts(cfg, reach)
    requires DeletePods in cfg.mayFail && Deploys(cfg, k, h, want) && w in cfg.workers
    ensures t in reach && !RolloutSafe(t)
  {
    var past := Another(want.spec.template);
    var sts := want.(spec := want.spec.(template := past));
    ToUpdatingSts(cfg, reach, k, w, h, want, sts, past);
    var s := Taken(cfg, k, h, sts, past);
    var fleet := s.fleet.PutSts(k, want);
    MoveSts(cfg, reach, s, w, UpdatingSts(k, want, sts), fleet, Killing(k));
    assert DeletePods in CallsOf(Killing(k)) * cfg.mayFail;
    Fail(cfg, reach, s.(fleet := fleet), w, Killing(k));
    t := s.(fleet := fleet).At(w, Failing(k));
    assert Outdated(t.fleet, 0) && !Rolling(t.workers, Some(k));
  }

  /** The pods are deleted, and the StatefulSet controller builds another one from what it last saw. */
  lemma LagRun(cfg: Config, reach: iset<State>, k: string, w: nat, h: Habitat, want: StatefulSet) returns (t: State)
    requires Closed(cfg, reach) && HoldsFreshStarts(cfg, reach)
    requires cfg.lags && Deploys(cfg, k, h, want) && w in cfg.workers
    ensures t in reach && !RolloutSafe(t)
  {
    var past := Another(want.spec.template);
    var sts := want.(spec := want.spec.(template := past));
    ToUpdatingSts(cfg, reach, k, w, h, want, sts, past);
    var s := Taken(cfg, k, h, sts, past);
    var fleet := s.fleet.PutSts(k, want);
    MoveSts(cfg, reach, s, w, UpdatingSts(k, want, sts), fleet, Killing(k));
    MoveSts(cfg, reach, s.(fleet := fleet), w, Killing(k), fleet.Kill(k), Listing(k));
    var s1 := s.(fleet := fleet.Kill(k)).At(w, Listing(k));
    Next(cfg, reach, s1, StartPod(1, k, past));
    t := Apply(cfg, s1, StartPod(1, k, past));
    assert Outdated(t.fleet, 1) && !Rolling(t.workers, Some(k));
  }

  /** All runs from an up-to-date cluster keep rollouts safe if, and only if, the configuration is safe to roll. */
  lemma RolloutsAreSafeExactly(cfg: Config)
    ensures (forall s :: Reached(cfg, s) ==> RolloutSafe(s)) <==> SafeToRoll(cfg)
  {
    if SafeToRoll(cfg) {
      forall s | Reached(cfg, s) ensures RolloutSafe(s) {
        var start: State :| UpToDate(start.fleet) && ReachableFrom(cfg, start, s);
        var states: seq<State>, steps :| Run(cfg, states, steps) && start == states[0] && s == states[|steps|];
        SafeRollouts(cfg, states, steps, |steps|);
      }
    } else {
      var s := UnsafeRollout(cfg);
      assert Reached(cfg, s) && !RolloutSafe(s);
    }
  }

  lemma UnsafeRollout(cfg: Config) returns (s: State)
    requires !SafeToRoll(cfg)
    ensures Reached(cfg, s) && !RolloutSafe(s)
  {
    var reach := ReachedSet(cfg);
    var k, w: nat :| k in cfg.keys && Compiles(cfg, k) && w in cfg.workers;
    var h, want := Deploy(cfg, k);
    if cfg.lags {
      s := LagRun(cfg, reach, k, w, h, want);
    } else {
      s := SpareRun(cfg, reach, k, w, h, want);
    }
  }

  lemma ReachedSet(cfg: Config) returns (reach: iset<State>)
    ensures Closed(cfg, reach) && HoldsFreshStarts(cfg, reach)
    ensures forall s :: s in reach ==> Reached(cfg, s)
  {
    reach := iset s | Reached(cfg, s);
    forall s | Init(cfg, s) && UpToDate(s.fleet) ensures s in reach { StartReachable(cfg, s); }
    forall s, step | s in reach && Enabled(cfg, s, step) ensures Apply(cfg, s, step) in reach {
      var start: State :| UpToDate(start.fleet) && ReachableFrom(cfg, start, s);
      NextReachable(cfg, start, s, step);
    }
    ClosedUnderSteps(cfg, reach);
  }
}
