/** The configurations in which no run loses a repair. */
module SafeConfigs {
  import opened Types
  import opened Protocol
  import opened ProtocolInv
  import opened ProtocolPeers
  import opened NoLostRepair

  /** Some Habitat of this controller compiles under the key. */
  ghost predicate Compiles(cfg: Config, k: string) {
    exists h :: Names(cfg, k, h) && Ours(h) && cfg.desired(h).Some?
  }

  /** Some worker can come as far as the peer ConfigMap. */
  ghost predicate Works(cfg: Config) {
    cfg.workers != {} && exists k :: k in cfg.keys && Compiles(cfg, k)
  }

  /** Two workers can be busy with two Habitats of one namespace. */
  ghost predicate Shares(cfg: Config) {
    && (exists v, w :: v in cfg.workers && w in cfg.workers && v != w)
    && (exists j, k :: j in cfg.keys && k in cfg.keys && j != k && Compiles(cfg, j) && Compiles(cfg, k) && cfg.ns(j) == cfg.ns(k))
  }

  /** A pod without an owner of this controller can run in a namespace whose ConfigMap is being kept. */
  ghost predicate Visited(cfg: Config) {
    exists k :: k in cfg.keys && Compiles(cfg, k) && cfg.ns(k) in cfg.strays
  }

  /**
    ConfigMap updates fail for conflicts only, no two workers share a cached object, and every labelled
    pod in a namespace that is kept belongs to a Habitat of this controller.
  */
  ghost predicate SafeConfig(cfg: Config) {
    Works(cfg) ==> UpdateCm !in cfg.mayFail && !Shares(cfg) && !Visited(cfg)
  }

  // ---------- Safe configurations do not spoil ----------

  predicate Early(pc: Pc) {
    pc.Idle? || pc.Start? || pc.Failing? || pc.Releasing?
  }

  /** A worker that has a StatefulSet to store got it from a Habitat that compiles. */
  ghost predicate Founded(cfg: Config, workers: map<nat, Pc>) {
    forall w :: w in workers && !Early(workers[w]) ==> Compiles(cfg, workers[w].key)
  }

  lemma HeldIsStored(cfg: Config, s: State, w: nat)
    requires BaseInv(cfg, s) && Busy(s.workers, w)
    ensures var k := s.workers[w].key;
            k in cfg.keys && k in s.reg.store && Names(cfg, k, s.reg.store[k]) && Ours(s.reg.store[k])
  {
    var k := s.workers[w].key;
    assert k in s.q.processing;
    assert Tells(cfg, s.reg.habs, k, s.reg.store[k]);
  }

  lemma StepKeepsFounded(cfg: Config, s: State, step: Step)
    requires BaseInv(cfg, s) && Founded(cfg, s.workers) && Enabled(cfg, s, step)
    ensures Founded(cfg, Apply(cfg, s, step).workers)
  {
    if step.Work? {
      WorkKeepsFounded(cfg, s, step.w, step.leader, step.fault);
    } else {
      OutsideGrows(cfg, s, step);
    }
  }

  lemma WorkKeepsFounded(cfg: Config, s: State, w: nat, leader: string, fault: bool)
    requires BaseInv(cfg, s) && Founded(cfg, s.workers) && WorkEnabled(cfg, s, w, leader, fault)
    ensures Founded(cfg, WorkStep(cfg, s, w, leader, fault).workers)
  {
    var pc, s' := s.workers[w], WorkStep(cfg, s, w, leader, fault);
    WorkMoves(cfg, s, w, leader, fault);
    if !Early(s'.workers[w]) {
      WorkAdvances(cfg, s, w, leader, fault);
      if pc.Start? { HeldIsStored(cfg, s, w); }
    }
  }

  lemma LateMeansWorks(cfg: Config, s: State, w: nat)
    requires BaseInv(cfg, s) && Founded(cfg, s.workers) && w in s.workers && !Early(s.workers[w])
    ensures Works(cfg) && s.workers[w].key in cfg.keys && Compiles(cfg, s.workers[w].key)
  {
    HeldIsStored(cfg, s, w);
  }

  /** Two workers on one cached object are two workers on two Habitats of one namespace. */
  lemma SharersDiffer(cfg: Config, s: State, v: nat, w: nat)
    requires BaseInv(cfg, s) && HeldInv(cfg, s) && Founded(cfg, s.workers) && v in s.workers && w in s.workers && v != w
    requires HasObj(s.workers[v]) && HasObj(s.workers[w]) && s.workers[v].obj == s.workers[w].obj
    ensures Shares(cfg)
  {
    SharersShareNs(cfg, s, v, w);
    LateMeansWorks(cfg, s, v);
    LateMeansWorks(cfg, s, w);
    KeysDiffer(cfg, s, v, w);
  }

  lemma KeysDiffer(cfg: Config, s: State, v: nat, w: nat)
    requires BaseInv(cfg, s) && v != w && Busy(s.workers, v) && Busy(s.workers, w)
    ensures s.workers[v].key != s.workers[w].key && v in cfg.workers && w in cfg.workers
  {
  }

  lemma ClashersShare(cfg: Config, s: State, step: Step)
    requires Inv(cfg, s) && Founded(cfg, s.workers) && Clash(cfg, s, step)
    ensures Shares(cfg)
  {
    var v: nat :| v in s.workers && v != step.w && s.workers[v].UpdatingCm? && s.workers[v].obj == s.workers[step.w].obj;
    SharersDiffer(cfg, s, v, step.w);
  }

  lemma SafeConfigsDoNotSpoil(cfg: Config, s: State, step: Step)
    requires SafeConfig(cfg) && Inv(cfg, s) && Founded(cfg, s.workers) && Enabled(cfg, s, step)
    ensures !Spoils(cfg, s, step)
  {
    if step.Work? && !Early(s.workers[step.w]) {
      LateMeansWorks(cfg, s, step.w);
      if Clash(cfg, s, step) { ClashersShare(cfg, s, step); }
    }
  }

  // ---------- Pods and their owners ----------

  /** Where no strays come, every pod belongs to a Habitat of this controller. */
  ghost predicate PodsOwned(cfg: Config, s: State) {
    forall id :: id in s.fleet.pods ==>
      Owned(cfg, s.reg.habs, s.fleet.pods[id].ns, s.fleet.pods[id].owner) || s.fleet.pods[id].ns in cfg.strays
  }

  lemma StepKeepsOwned(cfg: Config, s: State, step: Step)
    requires PodsOwned(cfg, s) && Enabled(cfg, s, step)
    ensures PodsOwned(cfg, Apply(cfg, s, step))
  {
    var s' := Apply(cfg, s, step);
    forall id | id in s'.fleet.pods
      ensures Owned(cfg, s'.reg.habs, s'.fleet.pods[id].ns, s'.fleet.pods[id].owner) || s'.fleet.pods[id].ns in cfg.strays
    {
      PodComesFrom(cfg, s, step, id);
      if Owned(cfg, s.reg.habs, s'.fleet.pods[id].ns, s'.fleet.pods[id].owner) {
        OwnedStays(cfg, s, step, s'.fleet.pods[id].ns, s'.fleet.pods[id].owner);
      }
    }
  }

  lemma PodComesFrom(cfg: Config, s: State, step: Step, id: nat)
    requires Enabled(cfg, s, step) && id in Apply(cfg, s, step).fleet.pods
    ensures var pod := Apply(cfg, s, step).fleet.pods[id];
            || (id in s.fleet.pods && pod.ns == s.fleet.pods[id].ns && pod.owner == s.fleet.pods[id].owner)
            || Owned(cfg, s.reg.habs, pod.ns, pod.owner) || pod.ns in cfg.strays
  {
  }

  lemma NoStraysNoSilence(cfg: Config, s: State, step: Step, ns: string)
    requires PodsOwned(cfg, s) && ns !in cfg.strays && Enabled(cfg, s, step)
    ensures !Silent(cfg, s, step, ns)
  {
    if Silent(cfg, s, step, ns) && s.fleet.pods[step.id].ns != ns {
      SameRunIPs(s.fleet.pods, Apply(cfg, s, step).fleet.pods, ns);
    }
  }

  // ---------- Namespaces whose ConfigMap nobody reaches ----------

  /** No worker runs, or no Habitat of the namespace compiles. */
  ghost predicate Dormant(cfg: Config, ns: string) {
    cfg.workers == {} || forall k :: k in cfg.keys && cfg.ns(k) == ns ==> !Compiles(cfg, k)
  }

  ghost predicate EarlyCarrier(cfg: Config, s: State, ns: string) {
    exists w: nat :: w in s.workers && (s.workers[w].Start? || s.workers[w].Failing?) && cfg.ns(s.workers[w].key) == ns
  }

  /** A Habitat that cannot be reconciled is always about to be. */
  ghost predicate Restless(cfg: Config, s: State, ns: string) {
    Holds(cfg, s, ns) ==> HabCarrier(cfg, s.reg, ns) || QueueCarrier(cfg, s.q, ns) || EarlyCarrier(cfg, s, ns)
  }

  lemma RestlessRepairs(cfg: Config, s: State, ns: string)
    requires Restless(cfg, s, ns)
    ensures Repairing(cfg, s, ns)
  {
    if w: nat :| w in s.workers && (s.workers[w].Start? || s.workers[w].Failing?) && cfg.ns(s.workers[w].key) == ns {
      assert Carries(cfg, s.peers, RunIPs(s.fleet.pods, ns), s.workers[w], ns);
    }
  }

  lemma OutsideKeepsRestless(cfg: Config, s: State, step: Step, ns: string)
    requires Inv(cfg, s) && Restless(cfg, s, ns) && Enabled(cfg, s, step) && !step.Work?
    ensures Restless(cfg, Apply(cfg, s, step), ns)
  {
    var s' := Apply(cfg, s, step);
    OutsideGrows(cfg, s, step);
    if Holds(cfg, s', ns) {
      HoldsTells(cfg, s, step, ns);
      if Holds(cfg, s, ns) {
        if HabCarrier(cfg, s.reg, ns) { HabCarrierStays(cfg, s, step, ns); }
        if QueueCarrier(cfg, s.q, ns) { QueueCarrierStays(cfg, s, step, ns); }
      }
    }
  }

  lemma WorkKeepsRestless(cfg: Config, s: State, w: nat, leader: string, fault: bool, ns: string)
    requires Inv(cfg, s) && Dormant(cfg, ns) && Restless(cfg, s, ns) && WorkEnabled(cfg, s, w, leader, fault)
    ensures Restless(cfg, WorkStep(cfg, s, w, leader, fault), ns)
  {
    var s' := WorkStep(cfg, s, w, leader, fault);
    WorkMoves(cfg, s, w, leader, fault);
    WorkKeepsEvents(cfg, s, w, leader, fault, ns);
    if Holds(cfg, s, ns) && !HabCarrier(cfg, s.reg, ns) {
      if QueueCarrier(cfg, s.q, ns) {
        QueueStays(cfg, s, w, leader, fault, ns);
      } else {
        var v: nat :| v in s.workers && (s.workers[v].Start? || s.workers[v].Failing?) && cfg.ns(s.workers[v].key) == ns;
        if v == w {
          EarlyGoesOn(cfg, s, w, leader, fault);
        } else {
          assert s'.workers[v] == s.workers[v];
        }
      }
    }
  }

  /** Nothing to store: the compilation fails, and the key is put back. */
  lemma EarlyGoesOn(cfg: Config, s: State, w: nat, leader: string, fault: bool)
    requires Inv(cfg, s) && WorkEnabled(cfg, s, w, leader, fault) && (s.workers[w].Start? || s.workers[w].Failing?)
    requires Dormant(cfg, cfg.ns(s.workers[w].key))
    ensures var s' := WorkStep(cfg, s, w, leader, fault);
            if s.workers[w].Start? then w in s'.workers && s'.workers[w] == Failing(s.workers[w].key)
            else s.workers[w].key in s'.q.waiting
  {
    HeldIsStored(cfg, s, w);
    if s.workers[w].Start? {
      NothingToStore(cfg, s.workers[w].key, s.reg.store[s.workers[w].key]);
    }
  }

  lemma NothingToStore(cfg: Config, k: string, h: Habitat)
    requires Names(cfg, k, h) && Ours(h) && !Compiles(cfg, k)
    ensures cfg.desired(h).None?
  {
  }

  lemma StepKeepsRestless(cfg: Config, s: State, step: Step, ns: string)
    requires Inv(cfg, s) && Dormant(cfg, ns) && Restless(cfg, s, ns) && Enabled(cfg, s, step)
    ensures Restless(cfg, Apply(cfg, s, step), ns)
  {
    if step.Work? {
      WorkKeepsRestless(cfg, s, step.w, step.leader, step.fault, ns);
    } else {
      OutsideKeepsRestless(cfg, s, step, ns);
    }
  }

  // ---------- Runs ----------

  ghost predicate SafeInv(cfg: Config, s: State, ns: string) {
    Sound(cfg, s, ns) && Founded(cfg, s.workers) && PodsOwned(cfg, s) && (Dormant(cfg, ns) ==> Restless(cfg, s, ns))
  }

  lemma InitSafe(cfg: Config, s: State, ns: string)
    requires Init(cfg, s)
    ensures SafeInv(cfg, s, ns)
  {
    InitSound(cfg, s, ns);
    if k :| k in s.reg.habs && Ours(s.reg.habs[k]) && cfg.ns(k) == ns {
      assert HabEvent(k, s.reg.habs[k]) in s.reg.events;
    }
  }

  lemma StepKeepsSafe(cfg: Config, s: State, step: Step, ns: string)
    requires SafeConfig(cfg) && SafeInv(cfg, s, ns) && Enabled(cfg, s, step)
    ensures SafeInv(cfg, Apply(cfg, s, step), ns)
  {
    SafeConfigsDoNotSpoil(cfg, s, step);
    StepKeepsFounded(cfg, s, step);
    StepKeepsOwned(cfg, s, step);
    if Dormant(cfg, ns) {
      StepKeepsInv(cfg, s, step);
      StepKeepsMut(cfg, s, step);
      StepKeepsRestless(cfg, s, step, ns);
      RestlessRepairs(cfg, Apply(cfg, s, step), ns);
    } else {
      KeptMeansNoStrays(cfg, ns);
      NoStraysNoSilence(cfg, s, step, ns);
      StepKeepsSound(cfg, s, step, ns);
    }
  }

  lemma KeptMeansNoStrays(cfg: Config, ns: string)
    requires SafeConfig(cfg) && !Dormant(cfg, ns)
    ensures ns !in cfg.strays
  {
    var k :| k in cfg.keys && cfg.ns(k) == ns && Compiles(cfg, k);
    assert Works(cfg);
  }

  lemma {:induction false} SafeRuns(cfg: Config, states: seq<State>, steps: seq<Step>, n: nat, ns: string)
    requires Run(cfg, states, steps) && n < |states| && SafeConfig(cfg)
    ensures SafeInv(cfg, states[n], ns)
  {
    if n == 0 {
      InitSafe(cfg, states[0], ns);
    } else {
      SafeRuns(cfg, states, steps, n - 1, ns);
      StepKeepsSafe(cfg, states[n - 1], steps[n - 1], ns);
    }
  }

  lemma SafeConfigsAreSound(cfg: Config, s: State, ns: string)
    requires SafeConfig(cfg) && Reachable(cfg, s)
    ensures Sound(cfg, s, ns)
  {
    var start :| ReachableFrom(cfg, start, s);
    var states: seq<State>, steps :| Run(cfg, states, steps) && start == states[0] && s == states[|steps|];
    SafeRuns(cfg, states, steps, |steps|, ns);
  }
}
