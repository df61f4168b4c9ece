/**
  Whenever the peer entry of a namespace is wrong, something is on its way that will repair it: an
  undelivered event, a queued key, or a reconcile in flight. It holds of every run in which no ConfigMap
  update fails but for a conflict, no worker overwrites a cached object that another is about to send
  with an address that is not running, and no running pod comes or goes whose owner is missing or
  another controller's; `LostRepair` gives runs that break each of these.
*/
module NoLostRepair {
  import opened Types
  import opened Keys
  import opened Workqueue
  import opened Protocol
  import opened ProtocolInv
  import opened ProtocolPeers

  // ---------- What carries a repair ----------

  /** A pod event that its handler will not ignore, of a pod that a Habitat of this controller owns. */
  ghost predicate PodCarrier(cfg: Config, habs: map<string, Habitat>, fleet: Fleet, ns: string) {
    exists e :: e in fleet.podEvents && e.effective && e.ns == ns && Owned(cfg, habs, e.ns, e.owner)
  }

  /** A ConfigMap event, before or after it has reached the store. */
  ghost predicate CmCarrier(peers: Peers, ns: string) {
    Undelivered(peers, ns) || ns in peers.notes
  }

  /** The addition of a Habitat of this controller, before or after it has reached the store. */
  ghost predicate HabCarrier(cfg: Config, reg: Registry, ns: string) {
    || (exists e :: e in reg.events && e.key !in reg.store && Ours(e.hab) && cfg.ns(e.key) == ns)
    || (exists n :: n in reg.notes && n.added && Ours(n.hab) && cfg.ns(HabitatKey(n.hab)) == ns)
  }

  ghost predicate QueueCarrier(cfg: Config, q: Queue, ns: string) {
    exists k :: (k in q.dirty || k in q.waiting) && cfg.ns(k) == ns
  }

  /** The list a worker took still tells only running pods, and tells one if there is any. */
  predicate Fresh(ips: set<string>, now: set<string>) {
    (ips == {} ==> now == {}) && ips <= now
  }

  /**
    A reconcile that has not listed the pods yet, or whose list is fresh, or that is about to send a
    right address, or that has failed and will put its key back.
  */
  predicate Carries(cfg: Config, peers: Peers, now: set<string>, pc: Pc, ns: string) {
    && !pc.Idle? && cfg.ns(pc.key) == ns
    && (match pc
        case CreatingCm(_, ips, _) => Fresh(ips, now)
        case FindingCm(_, ips, _) => Fresh(ips, now)
        case Reading(_, ips, _, _) => Fresh(ips, now)
        case Assigning(_, ips, _, _) => Fresh(ips, now)
        case UpdatingCm(_, _, _, obj) => obj < |peers.heap| && Valid(peers.heap[obj].entry, now)
        case Releasing(_) => false
        case _ => true)
  }

  ghost predicate WorkerCarrier(cfg: Config, s: State, ns: string) {
    exists w: nat :: w in s.workers && Carries(cfg, s.peers, RunIPs(s.fleet.pods, ns), s.workers[w], ns)
  }

  ghost predicate Carrier(cfg: Config, s: State, ns: string) {
    || PodCarrier(cfg, s.reg.habs, s.fleet, ns)
    || CmCarrier(s.peers, ns)
    || HabCarrier(cfg, s.reg, ns)
    || QueueCarrier(cfg, s.q, ns)
    || WorkerCarrier(cfg, s, ns)
  }

  /** The repair of a namespace that holds a Habitat is not lost. */
  ghost predicate Repairing(cfg: Config, s: State, ns: string) {
    Holds(cfg, s, ns) && !GoodEntry(s, ns) ==> Carrier(cfg, s, ns)
  }

  /** A worker writes a wrong address into an object that another worker is about to send. */
  ghost predicate Clash(cfg: Config, s: State, step: Step) {
    step.Work? && step.w in s.workers && !step.fault && s.workers[step.w].Assigning? &&
    var pc := s.workers[step.w];
    && !Valid(pc.leader, RunIPs(s.fleet.pods, cfg.ns(pc.key)))
    && exists v: nat :: v in s.workers && v != step.w && s.workers[v].UpdatingCm? && s.workers[v].obj == pc.obj
  }

  /** The two kinds of step that can lose a repair. */
  ghost predicate Spoils(cfg: Config, s: State, step: Step) {
    Drops(s, step) || Clash(cfg, s, step)
  }

  /** The running pods of the namespace change by one that no Habitat of this controller owns: nobody is woken. */
  ghost predicate Silent(cfg: Config, s: State, step: Step, ns: string) {
    && (step.ChangePod? || step.RemovePod?) && Enabled(cfg, s, step)
    && !Owned(cfg, s.reg.habs, s.fleet.pods[step.id].ns, s.fleet.pods[step.id].owner)
    && RunIPs(Apply(cfg, s, step).fleet.pods, ns) != RunIPs(s.fleet.pods, ns)
  }

  // ---------- Frames ----------

  predicate RunsIn(pods: map<nat, Instance>, id: nat, ns: string) {
    id in pods && pods[id].phase == Running && pods[id].ns == ns
  }

  lemma SameRunIPs(pods: map<nat, Instance>, pods': map<nat, Instance>, ns: string)
    requires forall id :: RunsIn(pods, id, ns) <==> RunsIn(pods', id, ns)
    requires forall id :: RunsIn(pods, id, ns) && id in pods' ==> pods'[id].ip == pods[id].ip
    ensures RunIPs(pods', ns) == RunIPs(pods, ns)
  {
    var a, b := RunIPs(pods, ns), RunIPs(pods', ns);
    forall ip | ip in a ensures ip in b {
      var id :| RunsIn(pods, id, ns) && pods[id].ip == ip;
      assert RunsIn(pods', id, ns) && pods'[id].ip == ip;
    }
    forall ip | ip in b ensures ip in a {
      var id :| RunsIn(pods', id, ns) && pods'[id].ip == ip;
      assert RunsIn(pods, id, ns) && pods[id].ip == ip;
    }
  }

  /** A change of the set of running addresses leaves an effective pod event behind, unless it is silent. */
  lemma PodChangesTell(cfg: Config, s: State, step: Step, ns: string)
    requires Enabled(cfg, s, step) && !step.Work? && !Silent(cfg, s, step, ns)
    ensures var s' := Apply(cfg, s, step);
            RunIPs(s'.fleet.pods, ns) == RunIPs(s.fleet.pods, ns) || PodCarrier(cfg, s'.reg.habs, s'.fleet, ns)
  {
    var s' := Apply(cfg, s, step);
    match step
    case StartPod(id, k, template) => SameRunIPs(s.fleet.pods, s'.fleet.pods, ns);
    case StartStray(id, n, owner) => SameRunIPs(s.fleet.pods, s'.fleet.pods, ns);
    case ChangePod(id, phase, ip) =>
      var pod := s.fleet.pods[id];
      if pod.ns != ns || phase == pod.phase {
        SameRunIPs(s.fleet.pods, s'.fleet.pods, ns);
      } else {
        assert PodEvent(ns, pod.owner, true) in s'.fleet.podEvents;
      }
    case RemovePod(id) =>
      var pod := s.fleet.pods[id];
      if pod.ns != ns {
        SameRunIPs(s.fleet.pods, s'.fleet.pods, ns);
      } else {
        assert PodEvent(ns, pod.owner, true) in s'.fleet.podEvents;
      }
    case _ =>
  }

  // ---------- Steps of the outside and of the informers ----------

  lemma OwnedStays(cfg: Config, s: State, step: Step, ns: string, owner: Option<string>)
    requires Enabled(cfg, s, step) && Owned(cfg, s.reg.habs, ns, owner)
    ensures Owned(cfg, Apply(cfg, s, step).reg.habs, ns, owner)
  {
  }

  /** The handler of an owned pod's event adds the owner, or the owner has yet to be announced. */
  lemma PodEventStays(cfg: Config, s: State, e: PodEvent)
    requires Inv(cfg, s) && s.fleet.podEvents != [] && e == s.fleet.podEvents[0]
    requires e.effective && Owned(cfg, s.reg.habs, e.ns, e.owner)
    ensures var s' := Apply(cfg, s, DeliverPod);
            HabCarrier(cfg, s'.reg, e.ns) || QueueCarrier(cfg, s'.q, e.ns)
  {
    var k := e.owner.value;
    OwnerGrows(cfg, s, e.owner);
    if k !in s.reg.store {
      var h :| h in s.reg.events && h.key == k;
      assert Tells(cfg, s.reg.habs, h.key, h.hab);
    }
  }

  lemma PodCarrierStays(cfg: Config, s: State, step: Step, ns: string)
    requires Inv(cfg, s) && Enabled(cfg, s, step) && !step.Work? && PodCarrier(cfg, s.reg.habs, s.fleet, ns)
    ensures var s' := Apply(cfg, s, step);
            PodCarrier(cfg, s'.reg.habs, s'.fleet, ns) || HabCarrier(cfg, s'.reg, ns) || QueueCarrier(cfg, s'.q, ns)
  {
    var s' := Apply(cfg, s, step);
    var e :| e in s.fleet.podEvents && e.effective && e.ns == ns && Owned(cfg, s.reg.habs, e.ns, e.owner);
    OwnedStays(cfg, s, step, e.ns, e.owner);
    if step.DeliverPod? && e == s.fleet.podEvents[0] {
      PodEventStays(cfg, s, e);
    } else {
      PodEventsGrow(cfg, s, step, e);
    }
  }

  lemma PodEventsGrow(cfg: Config, s: State, step: Step, e: PodEvent)
    requires Enabled(cfg, s, step) && e in s.fleet.podEvents
    requires step.DeliverPod? ==> e != s.fleet.podEvents[0]
    ensures e in Apply(cfg, s, step).fleet.podEvents
  {
    if step.DeliverPod? { assert s.fleet.podEvents == [s.fleet.podEvents[0]] + s.fleet.podEvents[1..]; }
  }

  /** The handler of a ConfigMap event adds every stored Habitat of this controller in the namespace. */
  lemma NoteStays(cfg: Config, s: State, order: seq<string>)
    requires Inv(cfg, s) && Enabled(cfg, s, NotifyCm(order)) && Holds(cfg, s, s.peers.notes[0])
    ensures var s' := Apply(cfg, s, NotifyCm(order));
            HabCarrier(cfg, s'.reg, s.peers.notes[0]) || QueueCarrier(cfg, s'.q, s.peers.notes[0])
  {
    var ns := s.peers.notes[0];
    var k :| k in s.reg.habs && Ours(s.reg.habs[k]) && cfg.ns(k) == ns;
    if k in s.reg.store {
      WokenGrow(cfg, s, ns, order);
      assert Tells(cfg, s.reg.habs, k, s.reg.store[k]);
    } else {
      var h :| h in s.reg.events && h.key == k;
      assert Tells(cfg, s.reg.habs, h.key, h.hab);
    }
  }

  lemma CmCarrierStays(cfg: Config, s: State, step: Step, ns: string)
    requires Inv(cfg, s) && Enabled(cfg, s, step) && !step.Work? && CmCarrier(s.peers, ns) && Holds(cfg, s, ns)
    ensures var s' := Apply(cfg, s, step);
            CmCarrier(s'.peers, ns) || HabCarrier(cfg, s'.reg, ns) || QueueCarrier(cfg, s'.q, ns)
  {
    if step.NotifyCm? && ns == s.peers.notes[0] {
      NoteStays(cfg, s, step.order);
    } else {
      CmEventsStay(cfg, s, step, ns);
    }
  }

  lemma CmEventsStay(cfg: Config, s: State, step: Step, ns: string)
    requires Enabled(cfg, s, step) && !step.Work? && CmCarrier(s.peers, ns)
    requires step.NotifyCm? ==> ns != s.peers.notes[0]
    ensures CmCarrier(Apply(cfg, s, step).peers, ns)
  {
    var peers' := Apply(cfg, s, step).peers;
    if ns in s.peers.notes {
      if step.NotifyCm? { assert s.peers.notes == [s.peers.notes[0]] + s.peers.notes[1..]; }
    } else if step.DeliverCm? {
      var e := s.peers.events[0];
      assert peers'.notes[|s.peers.notes|] == e.ns;
      if ns != e.ns { PendingBehindHead(s.peers, ns); }
    } else {
      var e :| e in s.peers.events && e.ns == ns;
      assert e in peers'.events;
    }
  }

  lemma HabEventStays(cfg: Config, reg: Registry, e: HabEvent)
    requires RegInv(cfg, reg) && reg.events != [] && e in reg.events && e.key !in reg.store && Ours(e.hab)
    ensures HabCarrier(cfg, reg.Deliver(), cfg.ns(e.key))
  {
    var head, reg' := reg.events[0], reg.Deliver();
    assert reg.events == [head] + reg.events[1..];
    if head.key == e.key {
      assert head in reg.events && Tells(cfg, reg.habs, head.key, head.hab) && Tells(cfg, reg.habs, e.key, e.hab);
      assert reg'.notes[|reg.notes|] == HabNote(head.hab, true, false);
    } else {
      assert e in reg'.events && e.key !in reg'.store;
    }
  }

  lemma HabNoteStays(cfg: Config, s: State, n: HabNote)
    requires Inv(cfg, s) && s.reg.notes != [] && n in s.reg.notes && n.added && Ours(n.hab)
    ensures var s' := Apply(cfg, s, NotifyHab);
            HabCarrier(cfg, s'.reg, cfg.ns(HabitatKey(n.hab))) || QueueCarrier(cfg, s'.q, cfg.ns(HabitatKey(n.hab)))
  {
    var s' := Apply(cfg, s, NotifyHab);
    assert s.reg.notes == [s.reg.notes[0]] + s.reg.notes[1..];
    if n == s.reg.notes[0] {
      NotedKeyIsOurs(cfg, s.reg, n);
      AddWf(s.q, HabitatKey(n.hab));
      assert HabitatKey(n.hab) in s'.q.dirty;
    } else {
      assert n in s'.reg.notes;
    }
  }

  lemma HabCarrierStays(cfg: Config, s: State, step: Step, ns: string)
    requires Inv(cfg, s) && Enabled(cfg, s, step) && !step.Work? && HabCarrier(cfg, s.reg, ns)
    ensures var s' := Apply(cfg, s, step);
            HabCarrier(cfg, s'.reg, ns) || QueueCarrier(cfg, s'.q, ns)
  {
    if step.DeliverHab? {
      if e :| e in s.reg.events && e.key !in s.reg.store && Ours(e.hab) && cfg.ns(e.key) == ns { HabEventStays(cfg, s.reg, e); }
    } else if step.NotifyHab? {
      if n :| n in s.reg.notes && n.added && Ours(n.hab) && cfg.ns(HabitatKey(n.hab)) == ns { HabNoteStays(cfg, s, n); }
    } else {
      RegistryGrows(cfg, s, step);
    }
  }

  lemma RegistryGrows(cfg: Config, s: State, step: Step)
    requires Enabled(cfg, s, step) && !step.DeliverHab? && !step.NotifyHab? && !step.Work?
    ensures var reg' := Apply(cfg, s, step).reg;
            reg'.store == s.reg.store && reg'.notes == s.reg.notes && forall e :: e in s.reg.events ==> e in reg'.events
  {
  }

  lemma QueueCarrierStays(cfg: Config, s: State, step: Step, ns: string)
    requires Inv(cfg, s) && Enabled(cfg, s, step) && !step.Work? && QueueCarrier(cfg, s.q, ns)
    ensures QueueCarrier(cfg, Apply(cfg, s, step).q, ns)
  {
    OutsideGrows(cfg, s, step);
    var k :| (k in s.q.dirty || k in s.q.waiting) && cfg.ns(k) == ns;
    var q' := Apply(cfg, s, step).q;
    assert k in q'.dirty || k in q'.waiting;
  }

  lemma WorkerCarrierStays(cfg: Config, s: State, step: Step, ns: string)
    requires Inv(cfg, s) && Enabled(cfg, s, step) && !step.Work? && WorkerCarrier(cfg, s, ns)
    requires RunIPs(Apply(cfg, s, step).fleet.pods, ns) == RunIPs(s.fleet.pods, ns)
    ensures WorkerCarrier(cfg, Apply(cfg, s, step), ns)
  {
    var s' := Apply(cfg, s, step);
    OutsideGrows(cfg, s, step);
    OutsideKeepsEntries(cfg, s, step);
    var w: nat :| w in s.workers && Carries(cfg, s.peers, RunIPs(s.fleet.pods, ns), s.workers[w], ns);
    assert Carries(cfg, s'.peers, RunIPs(s'.fleet.pods, ns), s'.workers[w], ns);
  }

  lemma OutsideKeepsEntries(cfg: Config, s: State, step: Step)
    requires Enabled(cfg, s, step) && !step.Work?
    ensures var heap, heap' := s.peers.heap, Apply(cfg, s, step).peers.heap;
            |heap| <= |heap'| && forall o: nat :: o < |heap| ==> heap'[o] == heap[o]
  {
  }

  /** A Habitat was there before and of the same version, or is announced. */
  lemma HabitatComesFrom(cfg: Config, s: State, step: Step, k: string)
    requires Enabled(cfg, s, step) && k in Apply(cfg, s, step).reg.habs
    ensures var reg' := Apply(cfg, s, step).reg;
            || (k in s.reg.habs && (Ours(reg'.habs[k]) <==> Ours(s.reg.habs[k])))
            || (k !in s.reg.habs && reg'.store == s.reg.store && HabEvent(k, reg'.habs[k]) in reg'.events)
  {
    if step.CreateHabitat? && step.key == k { assert HabEvent(k, step.hab) in Apply(cfg, s, step).reg.events; }
  }

  /** Only a new Habitat makes a namespace hold one, and it is announced. */
  lemma HoldsTells(cfg: Config, s: State, step: Step, ns: string)
    requires RegInv(cfg, s.reg) && Enabled(cfg, s, step) && Holds(cfg, Apply(cfg, s, step), ns)
    ensures Holds(cfg, s, ns) || HabCarrier(cfg, Apply(cfg, s, step).reg, ns)
  {
    var reg' := Apply(cfg, s, step).reg;
    var k :| k in reg'.habs && Ours(reg'.habs[k]) && cfg.ns(k) == ns;
    HabitatComesFrom(cfg, s, step, k);
  }

  /** The entry changes only by an edit, which tells. */
  lemma EntryTells(cfg: Config, s: State, step: Step, ns: string)
    requires Enabled(cfg, s, step) && !step.Work?
    ensures var peers' := Apply(cfg, s, step).peers;
            OnServer(peers', ns) == OnServer(s.peers, ns) || CmCarrier(peers', ns)
  {
    match step
    case EditCm(n, entry) => assert CmEvent(n, Some(Cm(entry, s.peers.clock + 1))) in Apply(cfg, s, step).peers.events;
    case RemoveCm(n) => assert CmEvent(n, None) in Apply(cfg, s, step).peers.events;
    case _ =>
  }

  lemma OutsideKeepsRepairing(cfg: Config, s: State, step: Step, ns: string)
    requires Inv(cfg, s) && Enabled(cfg, s, step) && !step.Work? && !Silent(cfg, s, step, ns) && Repairing(cfg, s, ns)
    ensures Repairing(cfg, Apply(cfg, s, step), ns)
  {
    var s' := Apply(cfg, s, step);
    if Holds(cfg, s', ns) && !GoodEntry(s', ns) && !Carrier(cfg, s', ns) {
      HoldsTells(cfg, s, step, ns);
      EntryTells(cfg, s, step, ns);
      PodChangesTell(cfg, s, step, ns);
      assert Carrier(cfg, s, ns);
      CarrierStays(cfg, s, step, ns);
    }
  }

  lemma CarrierStays(cfg: Config, s: State, step: Step, ns: string)
    requires Inv(cfg, s) && Enabled(cfg, s, step) && !step.Work? && Holds(cfg, s, ns) && Carrier(cfg, s, ns)
    requires RunIPs(Apply(cfg, s, step).fleet.pods, ns) == RunIPs(s.fleet.pods, ns)
    ensures Carrier(cfg, Apply(cfg, s, step), ns)
  {
    if PodCarrier(cfg, s.reg.habs, s.fleet, ns) {
      PodCarrierStays(cfg, s, step, ns);
    } else if CmCarrier(s.peers, ns) {
      CmCarrierStays(cfg, s, step, ns);
    } else if HabCarrier(cfg, s.reg, ns) {
      HabCarrierStays(cfg, s, step, ns);
    } else if QueueCarrier(cfg, s.q, ns) {
      QueueCarrierStays(cfg, s, step, ns);
    } else {
      WorkerCarrierStays(cfg, s, step, ns);
    }
  }

  // ---------- Steps of a worker ----------

  lemma WorkKeepsRunIPs(cfg: Config, s: State, w: nat, leader: string, fault: bool, ns: string)
    requires WorkEnabled(cfg, s, w, leader, fault)
    ensures RunIPs(WorkStep(cfg, s, w, leader, fault).fleet.pods, ns) == RunIPs(s.fleet.pods, ns)
  {
    SameRunIPs(s.fleet.pods, WorkStep(cfg, s, w, leader, fault).fleet.pods, ns);
  }

  /** The carriers other than worker `w`. */
  ghost predicate OtherCarrier(cfg: Config, s: State, ns: string, w: nat) {
    || PodCarrier(cfg, s.reg.habs, s.fleet, ns)
    || CmCarrier(s.peers, ns)
    || HabCarrier(cfg, s.reg, ns)
    || (exists v: nat :: v in s.workers && v != w && Carries(cfg, s.peers, RunIPs(s.fleet.pods, ns), s.workers[v], ns))
  }

  /** A step changes the entry of no object but the one it assigns to, which gets its leader. */
  lemma MoveEntries(cfg: Config, peers: Peers, pc: Pc, peers': Peers, pc': Pc, o: nat)
    requires PeersMove(cfg, peers, pc, peers', pc') && o < |peers.heap|
    ensures o < |peers'.heap|
    ensures peers'.heap[o].entry == peers.heap[o].entry
         || (pc.Assigning? && peers' != peers && pc.obj == o && peers'.heap[o].entry == pc.leader)
  {
  }

  /** What another worker carries is untouched, but for an in-place write that clashes. */
  lemma OtherWorkerStays(cfg: Config, s: State, w: nat, leader: string, fault: bool, ns: string, v: nat)
    requires Inv(cfg, s) && WorkEnabled(cfg, s, w, leader, fault) && !Clash(cfg, s, Work(w, leader, fault))
    requires v in s.workers && v != w && Carries(cfg, s.peers, RunIPs(s.fleet.pods, ns), s.workers[v], ns)
    ensures var s' := WorkStep(cfg, s, w, leader, fault);
            v in s'.workers && Carries(cfg, s'.peers, RunIPs(s.fleet.pods, ns), s'.workers[v], ns)
  {
    var s' := WorkStep(cfg, s, w, leader, fault);
    WorkMoves(cfg, s, w, leader, fault);
    if s.workers[v].UpdatingCm? {
      MoveEntries(cfg, s.peers, s.workers[w], s'.peers, s'.workers[w], s.workers[v].obj);
      if s.workers[w].Assigning? && s'.peers != s.peers && s.workers[w].obj == s.workers[v].obj {
        SharersShareNs(cfg, s, v, w);
        AssignedIsNoFault(cfg, s, w, leader, fault);
      }
    }
  }

  lemma SharersShareNs(cfg: Config, s: State, v: nat, w: nat)
    requires HeldInv(cfg, s) && v in s.workers && w in s.workers
    requires HasObj(s.workers[v]) && HasObj(s.workers[w]) && s.workers[v].obj == s.workers[w].obj
    ensures cfg.ns(s.workers[v].key) == cfg.ns(s.workers[w].key)
  {
    assert PcInv(cfg, s.peers, s.workers[v]) && PcInv(cfg, s.peers, s.workers[w]);
  }

  lemma AssignedIsNoFault(cfg: Config, s: State, w: nat, leader: string, fault: bool)
    requires WorkEnabled(cfg, s, w, leader, fault) && WorkStep(cfg, s, w, leader, fault).peers != s.peers
    ensures !fault
  {
  }

  lemma OthersStay(cfg: Config, s: State, w: nat, leader: string, fault: bool, ns: string)
    requires Inv(cfg, s) && WorkEnabled(cfg, s, w, leader, fault) && !Clash(cfg, s, Work(w, leader, fault))
    requires OtherCarrier(cfg, s, ns, w)
    ensures Carrier(cfg, WorkStep(cfg, s, w, leader, fault), ns)
  {
    var s' := WorkStep(cfg, s, w, leader, fault);
    WorkKeepsEvents(cfg, s, w, leader, fault, ns);
    if v: nat :| v in s.workers && v != w && Carries(cfg, s.peers, RunIPs(s.fleet.pods, ns), s.workers[v], ns) {
      OtherWorkerStays(cfg, s, w, leader, fault, ns, v);
      WorkKeepsRunIPs(cfg, s, w, leader, fault, ns);
      assert WorkerCarrier(cfg, s', ns);
    }
  }

  lemma WorkKeepsEvents(cfg: Config, s: State, w: nat, leader: string, fault: bool, ns: string)
    requires WorkEnabled(cfg, s, w, leader, fault)
    ensures var s' := WorkStep(cfg, s, w, leader, fault);
            && s'.reg == s.reg && s'.fleet.podEvents == s.fleet.podEvents
            && (CmCarrier(s.peers, ns) ==> CmCarrier(s'.peers, ns))
  {
    var peers' := WorkStep(cfg, s, w, leader, fault).peers;
    if e :| e in s.peers.events && e.ns == ns { assert e in peers'.events; }
  }

  lemma QueueStays(cfg: Config, s: State, w: nat, leader: string, fault: bool, ns: string)
    requires WorkEnabled(cfg, s, w, leader, fault) && QueueCarrier(cfg, s.q, ns)
    ensures var s' := WorkStep(cfg, s, w, leader, fault);
            QueueCarrier(cfg, s'.q, ns) || (w in s'.workers && s'.workers[w].Start? && cfg.ns(s'.workers[w].key) == ns)
  {
    var q' := WorkStep(cfg, s, w, leader, fault).q;
    WorkMoves(cfg, s, w, leader, fault);
    var k :| (k in s.q.dirty || k in s.q.waiting) && cfg.ns(k) == ns;
    if k in s.q.waiting { assert k in q'.waiting; }
  }

  /** The worker that carries the repair makes a step: it has repaired, or it or its key goes on. */
  lemma CarrierSteps(cfg: Config, s: State, w: nat, leader: string, fault: bool, ns: string)
    requires Inv(cfg, s) && MutInv(s.peers, s.workers) && WorkEnabled(cfg, s, w, leader, fault)
    requires !Drops(s, Work(w, leader, fault))
    requires Carries(cfg, s.peers, RunIPs(s.fleet.pods, ns), s.workers[w], ns)
    ensures var s' := WorkStep(cfg, s, w, leader, fault);
            GoodEntry(s', ns) || Carrier(cfg, s', ns)
  {
    var s' := WorkStep(cfg, s, w, leader, fault);
    var pc := s.workers[w];
    assert PcInv(cfg, s.peers, pc);
    WorkKeepsRunIPs(cfg, s, w, leader, fault, ns);
    if !fault && OnCm(pc) {
      if pc.Reading? && s'.workers[w].Releasing? {
        SkipIsSafe(cfg, s, w, ns);
      } else {
        CmCarrierSteps(cfg, s.peers, pc, RunIPs(s.fleet.pods, ns), ns);
        CmStepTaken(cfg, s, w, leader);
        if Carries(cfg, s'.peers, RunIPs(s'.fleet.pods, ns), s'.workers[w], ns) { assert WorkerCarrier(cfg, s', ns); }
      }
    } else {
      NonCmCarries(cfg, s, w, leader, fault, ns);
      if Carries(cfg, s'.peers, RunIPs(s'.fleet.pods, ns), s'.workers[w], ns) { assert WorkerCarrier(cfg, s', ns); }
    }
  }

  lemma CmStepTaken(cfg: Config, s: State, w: nat, leader: string)
    requires WorkEnabled(cfg, s, w, leader, false) && OnCm(s.workers[w])
    ensures var s' := WorkStep(cfg, s, w, leader, false);
            s' == s.(peers := s'.peers).At(w, s'.workers[w]) && (s'.peers, s'.workers[w]) == CmStep(cfg.ns(s.workers[w].key), s.peers, s.workers[w])
  {
  }

  /** A failing call, and every step but those on the ConfigMap. */
  lemma NonCmCarries(cfg: Config, s: State, w: nat, leader: string, fault: bool, ns: string)
    requires BaseInv(cfg, s) && WorkEnabled(cfg, s, w, leader, fault) && (fault || !OnCm(s.workers[w]))
    requires Carries(cfg, s.peers, RunIPs(s.fleet.pods, ns), s.workers[w], ns)
    ensures var s' := WorkStep(cfg, s, w, leader, fault);
            QueueCarrier(cfg, s'.q, ns) || (w in s'.workers && Carries(cfg, s'.peers, RunIPs(s.fleet.pods, ns), s'.workers[w], ns))
  {
    var s' := WorkStep(cfg, s, w, leader, fault);
    assert Busy(s.workers, w);
    if s.workers[w].Failing? { assert s.workers[w].key in s'.q.waiting; }
  }

  lemma CmCarrierSteps(cfg: Config, peers: Peers, pc: Pc, now: set<string>, ns: string)
    requires OnCm(pc) && PcInv(cfg, peers, pc) && Carries(cfg, peers, now, pc, ns)
    requires pc.Reading? ==> !CmStep(ns, peers, pc).1.Releasing?
    ensures var (peers', pc') := CmStep(ns, peers, pc);
            || (ns in peers'.cms && Valid(peers'.cms[ns].entry, now))
            || CmCarrier(peers', ns)
            || Carries(cfg, peers', now, pc', ns)
  {
  }

  /**
    The reader finds its leader among the running pods and leaves. If the server's entry is wrong all
    the same, the object is out of date, so an event or the reader's own key is pending, or it was
    written in place, so another worker is about to send the right address.
  */
  lemma SkipIsSafe(cfg: Config, s: State, w: nat, ns: string)
    requires Inv(cfg, s) && MutInv(s.peers, s.workers)
    requires w in s.workers && s.workers[w].Reading? && cfg.ns(s.workers[w].key) == ns
    requires Fresh(s.workers[w].ips, RunIPs(s.fleet.pods, ns))
    requires PcInv(cfg, s.peers, s.workers[w]) && s.peers.heap[s.workers[w].obj].entry in s.workers[w].ips
    ensures var s' := s.At(w, Releasing(s.workers[w].key));
            GoodEntry(s', ns) || Carrier(cfg, s', ns)
  {
    var s' := s.At(w, Releasing(s.workers[w].key));
    var o := s.workers[w].obj;
    assert RefInv(cfg, s.peers, s.q, s.workers[w]);
    if s.workers[w].key in s.q.dirty {
      assert QueueCarrier(cfg, s'.q, ns);
    } else if !CmCarrier(s.peers, ns) {
      assert InStep(s.peers, ns) && s.peers.Current(o);
      if s.peers.heap[o].entry != s.peers.cms[ns].entry {
        SenderCarries(cfg, s, w, o, RunIPs(s.fleet.pods, ns), ns);
      }
    }
  }

  lemma SenderCarries(cfg: Config, s: State, w: nat, o: nat, now: set<string>, ns: string)
    requires HeldInv(cfg, s) && Sender(s.workers, o) && w in s.workers && !s.workers[w].UpdatingCm?
    requires o < |s.peers.heap| && s.peers.heap[o].ns == ns && s.peers.heap[o].entry in now && now == RunIPs(s.fleet.pods, ns)
    requires !s.workers[w].Idle?
    ensures WorkerCarrier(cfg, s.At(w, Releasing(s.workers[w].key)), ns)
  {
    var s' := s.At(w, Releasing(s.workers[w].key));
    var v: nat :| v in s.workers && s.workers[v].UpdatingCm? && s.workers[v].obj == o;
    assert PcInv(cfg, s.peers, s.workers[v]) && s'.workers[v] == s.workers[v];
    assert Carries(cfg, s'.peers, now, s'.workers[v], ns);
  }

  /** A worker's step that makes the entry wrong is a write, and tells. */
  lemma WorkTells(cfg: Config, s: State, w: nat, leader: string, fault: bool, ns: string)
    requires WorkEnabled(cfg, s, w, leader, fault)
    ensures var s' := WorkStep(cfg, s, w, leader, fault);
            && s'.reg == s.reg
            && ((GoodEntry(s, ns) ==> GoodEntry(s', ns)) || CmCarrier(s'.peers, ns))
  {
    WorkKeepsRunIPs(cfg, s, w, leader, fault, ns);
    var peers' := WorkStep(cfg, s, w, leader, fault).peers;
    if peers'.cms != s.peers.cms {
      var e := peers'.events[|s.peers.events|];
      assert e in peers'.events;
      assert ns != e.ns ==> (ns in peers'.cms <==> ns in s.peers.cms) && (ns in s.peers.cms ==> peers'.cms[ns] == s.peers.cms[ns]);
    }
  }

  lemma WorkKeepsRepairing(cfg: Config, s: State, w: nat, leader: string, fault: bool, ns: string)
    requires Inv(cfg, s) && MutInv(s.peers, s.workers) && WorkEnabled(cfg, s, w, leader, fault)
    requires !Spoils(cfg, s, Work(w, leader, fault))
    requires Repairing(cfg, s, ns)
    ensures Repairing(cfg, WorkStep(cfg, s, w, leader, fault), ns)
  {
    WorkTells(cfg, s, w, leader, fault, ns);
    if Carrier(cfg, s, ns) {
      if QueueCarrier(cfg, s.q, ns) {
        QueueStays(cfg, s, w, leader, fault, ns);
        var s' := WorkStep(cfg, s, w, leader, fault);
        if !QueueCarrier(cfg, s'.q, ns) { assert Carries(cfg, s'.peers, RunIPs(s'.fleet.pods, ns), s'.workers[w], ns); }
      } else if OtherCarrier(cfg, s, ns, w) {
        OthersStay(cfg, s, w, leader, fault, ns);
      } else {
        assert Carries(cfg, s.peers, RunIPs(s.fleet.pods, ns), s.workers[w], ns);
        CarrierSteps(cfg, s, w, leader, fault, ns);
      }
    }
  }

  // ---------- Runs ----------

  ghost predicate Sound(cfg: Config, s: State, ns: string) {
    Inv(cfg, s) && MutInv(s.peers, s.workers) && Repairing(cfg, s, ns)
  }

  lemma InitSound(cfg: Config, s: State, ns: string)
    requires Init(cfg, s)
    ensures Sound(cfg, s, ns)
  {
    InitInv(cfg, s);
    if k :| k in s.reg.habs && Ours(s.reg.habs[k]) && cfg.ns(k) == ns {
      assert HabEvent(k, s.reg.habs[k]) in s.reg.events;
    }
  }

  lemma StepKeepsSound(cfg: Config, s: State, step: Step, ns: string)
    requires Sound(cfg, s, ns) && Enabled(cfg, s, step)
    requires !Spoils(cfg, s, step) && !Silent(cfg, s, step, ns)
    ensures Sound(cfg, Apply(cfg, s, step), ns)
  {
    StepKeepsInv(cfg, s, step);
    StepKeepsMut(cfg, s, step);
    if step.Work? {
      WorkKeepsRepairing(cfg, s, step.w, step.leader, step.fault, ns);
    } else {
      OutsideKeepsRepairing(cfg, s, step, ns);
    }
  }

  /** No repair of a namespace is lost in a run without a spoiling step and without a silent one in that namespace. */
  lemma {:induction false} NoRepairIsLost(cfg: Config, states: seq<State>, steps: seq<Step>, n: nat, ns: string)
    requires Run(cfg, states, steps) && n < |states|
    requires forall i :: 0 <= i < |steps| ==> !Spoils(cfg, states[i], steps[i]) && !Silent(cfg, states[i], steps[i], ns)
    ensures Sound(cfg, states[n], ns)
  {
    if n == 0 {
      InitSound(cfg, states[0], ns);
    } else {
      NoRepairIsLost(cfg, states, steps, n - 1, ns);
      StepKeepsSound(cfg, states[n - 1], steps[n - 1], ns);
    }
  }

  // ---------- Idle means right ----------

  /** Nothing is undelivered, queued, backing off or in flight. */
  predicate Quiet(s: State) {
    && s.reg.events == [] && s.reg.notes == [] && s.fleet.podEvents == [] && s.peers.events == [] && s.peers.notes == []
    && s.q.dirty == {} && s.q.waiting == {}
    && forall w :: w in s.workers ==> s.workers[w].Idle?
  }

  lemma QuietCarriesNothing(cfg: Config, s: State, ns: string)
    requires Quiet(s)
    ensures !Carrier(cfg, s, ns)
  {
  }

  /** When the controller has nothing left to do, every namespace that holds a Habitat has a right entry. */
  lemma QuietIsGood(cfg: Config, s: State, ns: string)
    requires Sound(cfg, s, ns) && Quiet(s) && Holds(cfg, s, ns)
    ensures GoodEntry(s, ns)
  {
    QuietCarriesNothing(cfg, s, ns);
  }
}
