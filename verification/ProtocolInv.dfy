/** What every step of the protocol keeps about the queue, the workers and the informers. */
module ProtocolInv {
  import opened Types
  import opened Keys
  import opened Workqueue
  import opened Handlers
  import opened Protocol

  predicate Busy(workers: map<nat, Pc>, w: nat) {
    w in workers && !workers[w].Idle?
  }

  /** Queue and workers agree on who holds which key, and no two workers hold one key. */
  ghost predicate HoldInv(q: Queue, workers: map<nat, Pc>) {
    && q.Wf() && !q.shuttingDown
    && (forall w :: Busy(workers, w) ==> workers[w].key in q.processing)
    && (forall w1, w2 :: Busy(workers, w1) && Busy(workers, w2) && workers[w1].key == workers[w2].key ==> w1 == w2)
    && (forall k :: k in q.processing ==> exists w: nat :: Busy(workers, w) && workers[w].key == k)
  }

  /** The stored Habitats of this controller. */
  function OurKeys(store: map<string, Habitat>): set<string> {
    set k | k in store && Ours(store[k])
  }

  /** Every key in play is that of a stored Habitat of this controller. */
  predicate KeysInv(q: Queue, store: map<string, Habitat>) {
    q.dirty <= OurKeys(store) && q.waiting <= OurKeys(store) && q.processing <= OurKeys(store)
  }

  /** What is stored or told under a key is a version of that key's Habitat. */
  predicate Tells(cfg: Config, habs: map<string, Habitat>, k: string, h: Habitat) {
    k in habs && Names(cfg, k, h) && h.customVersion == habs[k].customVersion
  }

  /** A Habitat that is not in the store yet has an undelivered event. */
  ghost predicate RegInv(cfg: Config, reg: Registry) {
    && reg.habs.Keys <= cfg.keys
    && (forall k :: k in reg.habs ==> Names(cfg, k, reg.habs[k]))
    && (forall k :: k in reg.store ==> Tells(cfg, reg.habs, k, reg.store[k]))
    && (forall e :: e in reg.events ==> Tells(cfg, reg.habs, e.key, e.hab))
    && (forall n :: n in reg.notes ==> HabitatKey(n.hab) in reg.store && Tells(cfg, reg.habs, HabitatKey(n.hab), n.hab))
    && (forall k :: k in reg.habs && k !in reg.store ==> exists e :: e in reg.events && e.key == k)
  }

  ghost predicate BaseInv(cfg: Config, s: State) {
    && s.workers.Keys == cfg.workers
    && HoldInv(s.q, s.workers)
    && KeysInv(s.q, s.reg.store)
    && RegInv(cfg, s.reg)
  }

  // ---------- The queue ----------

  /** The queue took in keys, all of them known, and lost none. */
  ghost predicate Grows(q: Queue, q': Queue, known: set<string>) {
    && q'.Wf() && !q'.shuttingDown
    && q'.processing == q.processing
    && q.dirty <= q'.dirty <= q.dirty + known
    && q'.waiting <= q.waiting <= q'.waiting + q'.dirty
  }

  lemma AddGrows(q: Queue, k: string, known: set<string>)
    requires q.Wf() && !q.shuttingDown && k in known
    ensures Grows(q, q.Add(k), known) && k in q.Add(k).dirty
  {
    AddWf(q, k);
  }

  lemma FireGrows(q: Queue, k: string, known: set<string>)
    requires q.Wf() && !q.shuttingDown && k in q.waiting && k in known
    ensures Grows(q, q.Fire(k), known) && k in q.Fire(k).dirty
  {
    AddWf(q.(waiting := q.waiting - {k}), k);
  }

  lemma {:induction false} AddAllGrows(q: Queue, order: seq<string>, known: set<string>)
    requires q.Wf() && !q.shuttingDown
    requires forall k :: k in order ==> k in known
    ensures Grows(q, AddAll(q, order), known)
    ensures forall k :: k in order ==> k in AddAll(q, order).dirty
    decreases |order|
  {
    if order != [] {
      AddGrows(q, order[0], known);
      AddAllGrows(q.Add(order[0]), order[1..], known);
      forall k | k in order ensures k in AddAll(q, order).dirty {
        if k != order[0] { assert k in order[1..]; }
      }
    }
  }

  /** What a handler adds is the key of a stored Habitat of this controller. */
  lemma StoredKeyIsOurs(cfg: Config, reg: Registry, owner: Option<string>)
    requires RegInv(cfg, reg)
    ensures StoredKey(reg.store, owner).Some? ==> StoredKey(reg.store, owner) == owner && owner.value in OurKeys(reg.store)
    ensures owner.Some? && owner.value in OurKeys(reg.store) ==> StoredKey(reg.store, owner) == owner
  {
  }

  lemma NotedKeyIsOurs(cfg: Config, reg: Registry, n: HabNote)
    requires RegInv(cfg, reg) && n in reg.notes
    ensures Ours(n.hab) <==> HabitatKey(n.hab) in OurKeys(reg.store)
    ensures Ours(n.hab) ==> EnqueuedKey(n.hab) == Some(HabitatKey(n.hab))
  {
  }

  lemma WokenAreOurs(cfg: Config, reg: Registry, ns: string, k: string)
    requires RegInv(cfg, reg)
    ensures WokenByCm(reg.store, ns, k) <==> k in OurKeys(reg.store) && cfg.ns(k) == ns
  {
  }

  lemma OutsideGrows(cfg: Config, s: State, step: Step)
    requires BaseInv(cfg, s) && Enabled(cfg, s, step) && !step.Work?
    ensures Grows(s.q, Apply(cfg, s, step).q, OurKeys(s.reg.store))
    ensures Apply(cfg, s, step).workers == s.workers
  {
    var known := OurKeys(s.reg.store);
    match step
    case NotifyHab => NotifyGrows(cfg, s);
    case DeliverPod => if s.fleet.podEvents[0].effective { OwnerGrows(cfg, s, s.fleet.podEvents[0].owner); }
    case NotifyCm(order) => WokenGrow(cfg, s, s.peers.notes[0], order);
    case Resync(ns, order) => WokenGrow(cfg, s, ns, order);
    case DeliverSts => OwnerGrows(cfg, s, Some(s.fleet.stsEvents[0]));
    case Fire(k) => FireGrows(s.q, k, known);
    case _ =>
  }

  lemma NotifyGrows(cfg: Config, s: State)
    requires BaseInv(cfg, s) && s.reg.notes != []
    ensures Grows(s.q, Apply(cfg, s, NotifyHab).q, OurKeys(s.reg.store))
  {
    var n := s.reg.notes[0];
    NotedKeyIsOurs(cfg, s.reg, n);
    if Ours(n.hab) { AddGrows(s.q, HabitatKey(n.hab), OurKeys(s.reg.store)); }
  }

  lemma OwnerGrows(cfg: Config, s: State, owner: Option<string>)
    requires BaseInv(cfg, s)
    ensures Grows(s.q, s.AddOwner(owner).q, OurKeys(s.reg.store))
    ensures owner.Some? && owner.value in OurKeys(s.reg.store) ==> owner.value in s.AddOwner(owner).q.dirty
  {
    StoredKeyIsOurs(cfg, s.reg, owner);
    if StoredKey(s.reg.store, owner).Some? { AddGrows(s.q, owner.value, OurKeys(s.reg.store)); }
  }

  lemma WokenGrow(cfg: Config, s: State, ns: string, order: seq<string>)
    requires BaseInv(cfg, s) && ListsWoken(s, ns, order)
    ensures Grows(s.q, AddAll(s.q, order), OurKeys(s.reg.store))
    ensures forall k :: k in OurKeys(s.reg.store) && cfg.ns(k) == ns ==> k in AddAll(s.q, order).dirty
  {
    forall k ensures k in order <==> k in OurKeys(s.reg.store) && cfg.ns(k) == ns { WokenAreOurs(cfg, s.reg, ns, k); }
    AddAllGrows(s.q, order, OurKeys(s.reg.store));
  }

  lemma GrowthHolds(q: Queue, q': Queue, workers: map<nat, Pc>, store: map<string, Habitat>, store': map<string, Habitat>)
    requires HoldInv(q, workers) && KeysInv(q, store) && Grows(q, q', OurKeys(store)) && OurKeys(store) <= OurKeys(store')
    ensures HoldInv(q', workers) && KeysInv(q', store')
  {
  }

  // ---------- The informers' side ----------

  lemma StillTells(cfg: Config, habs: map<string, Habitat>, k: string, h: Habitat, o: string, g: Habitat)
    requires Tells(cfg, habs, o, g) && (k in habs ==> h.customVersion == habs[k].customVersion)
    ensures Tells(cfg, habs[k := h], o, g)
  {
  }

  lemma PutKeepsReg(cfg: Config, reg: Registry, k: string, h: Habitat)
    requires RegInv(cfg, reg) && k in cfg.keys && Names(cfg, k, h)
    requires k in reg.habs ==> h.customVersion == reg.habs[k].customVersion
    ensures RegInv(cfg, reg.Put(k, h))
  {
    var reg' := reg.Put(k, h);
    forall o, g | Tells(cfg, reg.habs, o, g) ensures Tells(cfg, reg'.habs, o, g) { StillTells(cfg, reg.habs, k, h, o, g); }
    forall o | o in reg'.habs && o !in reg'.store ensures exists e :: e in reg'.events && e.key == o {
      PutAnnounces(cfg, reg, k, h, o);
    }
  }

  lemma PutAnnounces(cfg: Config, reg: Registry, k: string, h: Habitat, o: string)
    requires RegInv(cfg, reg) && o in reg.Put(k, h).habs && o !in reg.store
    ensures exists e :: e in reg.Put(k, h).events && e.key == o
  {
    var reg' := reg.Put(k, h);
    if o == k {
      assert HabEvent(k, h) in reg'.events;
    } else {
      var e :| e in reg.events && e.key == o;
      assert e in reg'.events;
    }
  }

  lemma DeliverKeepsReg(cfg: Config, reg: Registry)
    requires RegInv(cfg, reg) && reg.events != []
    ensures RegInv(cfg, reg.Deliver()) && OurKeys(reg.store) <= OurKeys(reg.Deliver().store)
  {
    var reg', head := reg.Deliver(), reg.events[0];
    assert head in reg.events;
    forall e | e in reg'.events ensures e in reg.events {
      var i :| 0 <= i < |reg'.events| && reg'.events[i] == e;
      assert reg.events[i + 1] == e;
    }
    forall o | o in reg'.habs && o !in reg'.store ensures exists e :: e in reg'.events && e.key == o {
      var e :| e in reg.events && e.key == o;
      var i :| 0 <= i < |reg.events| && reg.events[i] == e;
      assert reg'.events[i - 1] == e;
    }
  }

  lemma OutsideKeepsReg(cfg: Config, s: State, step: Step)
    requires BaseInv(cfg, s) && Enabled(cfg, s, step) && !step.Work?
    ensures var s' := Apply(cfg, s, step);
            RegInv(cfg, s'.reg) && OurKeys(s.reg.store) <= OurKeys(s'.reg.store) && s.reg.habs.Keys <= s'.reg.habs.Keys
  {
    match step
    case CreateHabitat(k, h) => PutKeepsReg(cfg, s.reg, k, h);
    case ChangeHabitat(k, h) => PutKeepsReg(cfg, s.reg, k, h);
    case DeliverHab => DeliverKeepsReg(cfg, s.reg);
    case NotifyHab => PopKeepsReg(cfg, s.reg);
    case _ =>
  }

  lemma PopKeepsReg(cfg: Config, reg: Registry)
    requires RegInv(cfg, reg) && reg.notes != []
    ensures RegInv(cfg, reg.PopNote())
  {
    forall n | n in reg.PopNote().notes ensures n in reg.notes {
      var i :| 0 <= i < |reg.notes[1..]| && reg.notes[1..][i] == n;
      assert reg.notes[i + 1] == n;
    }
  }

  lemma OutsideKeepsBase(cfg: Config, s: State, step: Step)
    requires BaseInv(cfg, s) && Enabled(cfg, s, step) && !step.Work?
    ensures BaseInv(cfg, Apply(cfg, s, step))
  {
    var s' := Apply(cfg, s, step);
    OutsideGrows(cfg, s, step);
    OutsideKeepsReg(cfg, s, step);
    GrowthHolds(s.q, s'.q, s.workers, s.reg.store, s'.reg.store);
  }

  // ---------- Workers ----------

  /** A worker between Get and Done keeps its key; only the listed parts of the state change. */
  ghost predicate Advances(s: State, s': State, w: nat, pc: Pc) {
    && Busy(s.workers, w) && !pc.Idle? && pc.key == s.workers[w].key
    && s' == State(s.reg, s'.fleet, s'.peers, s'.q, s.workers[w := pc])
    && s'.q == (if s.workers[w].Failing? then s.q.AddRateLimited(pc.key) else s.q)
    && s'.fleet.podEvents == s.fleet.podEvents
    && s'.fleet.pods.Keys == s.fleet.pods.Keys
    && (forall id :: id in s.fleet.pods ==> s'.fleet.pods[id] == s.fleet.pods[id].(terminating := s'.fleet.pods[id].terminating))
  }

  lemma WorkAdvances(cfg: Config, s: State, w: nat, leader: string, fault: bool)
    requires WorkEnabled(cfg, s, w, leader, fault)
    requires !s.workers[w].Idle? && !s.workers[w].Releasing?
    ensures var s' := WorkStep(cfg, s, w, leader, fault);
            w in s'.workers && Advances(s, s', w, s'.workers[w])
  {
  }

  lemma AdvanceHolds(q: Queue, q': Queue, workers: map<nat, Pc>, w: nat, pc: Pc)
    requires HoldInv(q, workers) && Busy(workers, w) && !pc.Idle? && pc.key == workers[w].key
    requires q'.Wf() && !q'.shuttingDown && q'.processing == q.processing
    ensures HoldInv(q', workers[w := pc])
  {
    var workers' := workers[w := pc];
    forall k | k in q'.processing ensures exists v: nat :: Busy(workers', v) && workers'[v].key == k {
      var v: nat :| Busy(workers, v) && workers[v].key == k;
      assert Busy(workers', v) && workers'[v].key == k;
    }
  }

  lemma AdvanceKeepsBase(cfg: Config, s: State, s': State, w: nat, pc: Pc)
    requires BaseInv(cfg, s) && Advances(s, s', w, pc)
    ensures BaseInv(cfg, s')
  {
    AdvanceHolds(s.q, s'.q, s.workers, w, pc);
  }

  lemma TakeHolds(q: Queue, workers: map<nat, Pc>, w: nat)
    requires HoldInv(q, workers) && q.queue != [] && w in workers && workers[w].Idle?
    ensures HoldInv(q.Take().1, workers[w := Start(q.Take().0)])
  {
    TakeWf(q);
    var (k, q') := q.Take();
    var workers' := workers[w := Start(k)];
    forall o | o in q'.processing ensures exists v: nat :: Busy(workers', v) && workers'[v].key == o {
      if o == k {
        assert Busy(workers', w) && workers'[w].key == k;
      } else {
        var v: nat :| Busy(workers, v) && workers[v].key == o;
        assert Busy(workers', v) && workers'[v].key == o;
      }
    }
  }

  lemma DoneHolds(q: Queue, workers: map<nat, Pc>, w: nat)
    requires HoldInv(q, workers) && w in workers && workers[w].Releasing?
    ensures HoldInv(q.Done(workers[w].key), workers[w := Idle])
  {
    var k := workers[w].key;
    assert Busy(workers, w);
    DoneWf(q, k);
    var workers' := workers[w := Idle];
    forall o | o in q.Done(k).processing ensures exists v: nat :: Busy(workers', v) && workers'[v].key == o {
      var v: nat :| Busy(workers, v) && workers[v].key == o;
      assert Busy(workers', v) && workers'[v].key == o;
    }
  }

  lemma WorkKeepsBase(cfg: Config, s: State, w: nat, leader: string, fault: bool)
    requires BaseInv(cfg, s) && WorkEnabled(cfg, s, w, leader, fault)
    ensures BaseInv(cfg, WorkStep(cfg, s, w, leader, fault))
  {
    if s.workers[w].Idle? {
      TakeKeepsBase(cfg, s, w);
    } else if s.workers[w].Releasing? {
      DoneKeepsBase(cfg, s, w);
    } else {
      WorkAdvances(cfg, s, w, leader, fault);
      var s' := WorkStep(cfg, s, w, leader, fault);
      AdvanceKeepsBase(cfg, s, s', w, s'.workers[w]);
    }
  }

  lemma TakeKeepsBase(cfg: Config, s: State, w: nat)
    requires BaseInv(cfg, s) && w in s.workers && s.workers[w].Idle? && s.q.queue != []
    ensures BaseInv(cfg, s.(q := s.q.Take().1).At(w, Start(s.q.Take().0)))
  {
    TakeHolds(s.q, s.workers, w);
    assert s.q.queue[0] in s.q.dirty;
  }

  lemma DoneKeepsBase(cfg: Config, s: State, w: nat)
    requires BaseInv(cfg, s) && w in s.workers && s.workers[w].Releasing?
    ensures BaseInv(cfg, s.(q := s.q.Done(s.workers[w].key)).At(w, Idle))
  {
    DoneHolds(s.q, s.workers, w);
  }

  lemma StepKeepsBase(cfg: Config, s: State, step: Step)
    requires BaseInv(cfg, s) && Enabled(cfg, s, step)
    ensures BaseInv(cfg, Apply(cfg, s, step))
  {
    if step.Work? {
      WorkKeepsBase(cfg, s, step.w, step.leader, step.fault);
    } else {
      OutsideKeepsBase(cfg, s, step);
    }
  }

  lemma InitBase(cfg: Config, s: State)
    requires Init(cfg, s)
    ensures BaseInv(cfg, s)
  {
    forall k | k in s.reg.habs ensures exists e :: e in s.reg.events && e.key == k {
      assert HabEvent(k, s.reg.habs[k]) in s.reg.events;
    }
  }

  // ---------- Whole runs ----------

  lemma {:induction false} RunKeepsBase(cfg: Config, states: seq<State>, steps: seq<Step>, n: nat)
    requires Run(cfg, states, steps) && n < |states|
    ensures BaseInv(cfg, states[n])
  {
    if n == 0 {
      InitBase(cfg, states[0]);
    } else {
      RunKeepsBase(cfg, states, steps, n - 1);
      StepKeepsBase(cfg, states[n - 1], steps[n - 1]);
    }
  }

  lemma ReachableBase(cfg: Config, s: State)
    requires Reachable(cfg, s)
    ensures BaseInv(cfg, s)
  {
    var start :| ReachableFrom(cfg, start, s);
    var states: seq<State>, steps :| Run(cfg, states, steps) && start == states[0] && s == states[|steps|];
    RunKeepsBase(cfg, states, steps, |steps|);
  }

  function StsOf(fleet: Fleet, k: string): Option<StatefulSet> {
    if k in fleet.stss then Some(fleet.stss[k]) else None
  }

  /** In every run a StatefulSet is changed only by the one worker that holds its Habitat's key. */
  lemma SingleWriter(cfg: Config, s: State, step: Step, k: string)
    requires Reachable(cfg, s) && Enabled(cfg, s, step)
    requires StsOf(Apply(cfg, s, step).fleet, k) != StsOf(s.fleet, k)
    ensures step.Work? && forall v :: Busy(s.workers, v) && s.workers[v].key == k <==> v == step.w
  {
    ReachableBase(cfg, s);
    StsChangedByHolder(cfg, s, step, k);
    assert Busy(s.workers, step.w);
  }

  lemma StsChangedByHolder(cfg: Config, s: State, step: Step, k: string)
    requires Enabled(cfg, s, step) && StsOf(Apply(cfg, s, step).fleet, k) != StsOf(s.fleet, k)
    ensures step.Work? && step.w in s.workers && !s.workers[step.w].Idle? && s.workers[step.w].key == k
  {
  }

  /** In every run a key that needs processing is queued or held, and needs it until a worker takes it. */
  lemma NoWakeUpIsLost(cfg: Config, s: State, step: Step, k: string)
    requires Reachable(cfg, s) && Enabled(cfg, s, step) && k in s.q.dirty
    ensures k in s.q.queue || exists w: nat :: Busy(s.workers, w) && s.workers[w].key == k
    ensures var s' := Apply(cfg, s, step);
            k in s'.q.dirty || (step.Work? && s.workers[step.w].Idle? && s'.workers[step.w] == Start(k))
  {
    ReachableBase(cfg, s);
    if !step.Work? { OutsideGrows(cfg, s, step); }
  }
}
