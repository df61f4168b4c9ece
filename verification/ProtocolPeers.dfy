/** Versions, cached objects and the references workers hold to them. */
module ProtocolPeers {
  import opened Types
  import opened Workqueue
  import opened Protocol
  import opened ProtocolInv

  // ---------- Versions and the ConfigMap informer ----------

  function OnServer(peers: Peers, ns: string): Option<Cm> {
    if ns in peers.cms then Some(peers.cms[ns]) else None
  }

  predicate Undelivered(peers: Peers, ns: string) {
    exists e :: e in peers.events && e.ns == ns
  }

  predicate IsLast(events: seq<CmEvent>, i: nat) {
    i < |events| && forall j :: i < j < |events| ==> events[j].ns != events[i].ns
  }

  /** The cached object has the server's version, or neither side has the ConfigMap. */
  predicate InStep(peers: Peers, ns: string) {
    if ns in peers.cms then ns in peers.store && peers.store[ns] < |peers.heap| && peers.heap[peers.store[ns]].version == peers.cms[ns].version
    else ns !in peers.store
  }

  /**
    Versions never repeat and determine what was written; the last pending event of a namespace carries
    the server's state; without a pending event the cache has the server's version.
  */
  ghost predicate PeersInv(peers: Peers) {
    && (forall ns :: ns in peers.cms ==> peers.cms[ns].version <= peers.clock)
    && (forall o: nat :: o < |peers.heap| ==> peers.heap[o].version <= peers.clock)
    && (forall e :: e in peers.events && e.cm.Some? ==> e.cm.value.version <= peers.clock)
    && (forall e :: e in peers.events && e.cm.Some? && e.ns in peers.cms && e.cm.value.version == peers.cms[e.ns].version
                    ==> e.cm.value == peers.cms[e.ns])
    && (forall ns :: ns in peers.store ==> peers.store[ns] < |peers.heap| && peers.heap[peers.store[ns]].ns == ns)
    && (forall i: nat :: IsLast(peers.events, i) ==> peers.events[i].cm == OnServer(peers, peers.events[i].ns))
    && (forall ns :: Undelivered(peers, ns) || InStep(peers, ns))
  }

  lemma InitPeersInv(peers: Peers)
    requires InitPeers(peers)
    ensures PeersInv(peers)
  {
    forall ns ensures Undelivered(peers, ns) || InStep(peers, ns) {
      if ns in peers.cms {
        assert CmEvent(ns, Some(peers.cms[ns])) in peers.events;
      }
    }
    forall i: nat | IsLast(peers.events, i) ensures peers.events[i].cm == OnServer(peers, peers.events[i].ns) {
      assert peers.events[i] in peers.events;
    }
  }

  lemma LastInPrefix(events: seq<CmEvent>, e: CmEvent, i: nat)
    requires i < |events| && IsLast(events + [e], i)
    ensures IsLast(events, i) && e.ns != events[i].ns
  {
    var all := events + [e];
    assert all[|events|] == e;
    forall j | i < j < |events| ensures events[j].ns != events[i].ns { assert all[j] == events[j]; }
  }

  lemma LastInSuffix(events: seq<CmEvent>, i: nat)
    requires events != [] && IsLast(events[1..], i)
    ensures IsLast(events, i + 1) && events[i + 1] == events[1..][i]
  {
    forall j | i + 1 < j < |events| ensures events[j].ns != events[i + 1].ns {
      assert events[1..][j - 1] == events[j];
    }
  }

  /** When no event of the head's namespace is left behind it, the head was the last one. */
  lemma HeadIsLast(peers: Peers)
    requires peers.events != [] && !Undelivered(peers.Deliver(), peers.events[0].ns)
    ensures IsLast(peers.events, 0)
  {
    forall j | 0 < j < |peers.events| ensures peers.events[j].ns != peers.events[0].ns {
      assert peers.Deliver().events[j - 1] == peers.events[j];
    }
  }

  lemma PendingBehindHead(peers: Peers, ns: string)
    requires peers.events != [] && ns != peers.events[0].ns
    ensures Undelivered(peers.Deliver(), ns) <==> Undelivered(peers, ns)
  {
    var events' := peers.Deliver().events;
    assert peers.events == [peers.events[0]] + events';
    if e :| e in peers.events && e.ns == ns { assert e in events'; }
    if e :| e in events' && e.ns == ns { assert e in peers.events; }
  }

  /** A server-side change of one namespace, with its event appended. */
  lemma ChangeKeepsPeers(peers: Peers, peers': Peers, e: CmEvent)
    requires PeersInv(peers)
    requires peers'.events == peers.events + [e] && peers'.heap == peers.heap && peers'.store == peers.store
    requires peers.clock <= peers'.clock && OnServer(peers', e.ns) == e.cm
    requires e.cm.Some? ==> peers.clock < e.cm.value.version <= peers'.clock
    requires forall ns :: ns != e.ns ==> OnServer(peers', ns) == OnServer(peers, ns)
    ensures PeersInv(peers')
  {
    forall ns | ns in peers'.cms ensures peers'.cms[ns].version <= peers'.clock {
      if ns != e.ns { assert OnServer(peers', ns) == OnServer(peers, ns); }
    }
    forall d | d in peers'.events && d.cm.Some? && d.ns in peers'.cms && d.cm.value.version == peers'.cms[d.ns].version
      ensures d.cm.value == peers'.cms[d.ns]
    {
      if d.ns != e.ns {
        assert d in peers.events && OnServer(peers', d.ns) == OnServer(peers, d.ns);
      }
    }
    forall i: nat | IsLast(peers'.events, i) ensures peers'.events[i].cm == OnServer(peers', peers'.events[i].ns) {
      if i < |peers.events| {
        LastInPrefix(peers.events, e, i);
      }
    }
    forall ns ensures Undelivered(peers', ns) || InStep(peers', ns) {
      if ns == e.ns {
        assert e in peers'.events;
      } else if Undelivered(peers, ns) {
        var d :| d in peers.events && d.ns == ns;
        assert d in peers'.events;
      } else {
        assert OnServer(peers', ns) == OnServer(peers, ns);
      }
    }
  }

  lemma PutKeepsPeers(peers: Peers, ns: string, entry: string)
    requires PeersInv(peers)
    ensures PeersInv(peers.Put(ns, entry))
  {
    ChangeKeepsPeers(peers, peers.Put(ns, entry), CmEvent(ns, Some(Cm(entry, peers.clock + 1))));
  }

  lemma RemoveKeepsPeers(peers: Peers, ns: string)
    requires PeersInv(peers)
    ensures PeersInv(peers.Remove(ns))
  {
    ChangeKeepsPeers(peers, peers.Remove(ns), CmEvent(ns, None));
  }

  lemma DeliverKeepsPeers(peers: Peers)
    requires PeersInv(peers) && peers.events != []
    ensures PeersInv(peers.Deliver())
  {
    var peers' := peers.Deliver();
    DeliverKeepsVersions(peers);
    forall i: nat | IsLast(peers'.events, i) ensures peers'.events[i].cm == OnServer(peers', peers'.events[i].ns) {
      LastInSuffix(peers.events, i);
    }
    forall ns ensures Undelivered(peers', ns) || InStep(peers', ns) {
      DeliveredOrPending(peers, ns);
    }
  }

  lemma DeliverKeepsVersions(peers: Peers)
    requires PeersInv(peers) && peers.events != []
    ensures var peers' := peers.Deliver();
            && (forall e :: e in peers'.events ==> e in peers.events)
            && (forall o: nat :: o < |peers'.heap| ==> peers'.heap[o].version <= peers.clock)
            && (forall ns :: ns in peers'.store ==> peers'.store[ns] < |peers'.heap| && peers'.heap[peers'.store[ns]].ns == ns)
  {
    var e, peers' := peers.events[0], peers.Deliver();
    forall d | d in peers'.events ensures d in peers.events {
      var i :| 0 <= i < |peers'.events| && peers'.events[i] == d;
      assert peers.events[i + 1] == d;
    }
    assert e in peers.events;
    forall ns | ns in peers'.store ensures peers'.store[ns] < |peers'.heap| && peers'.heap[peers'.store[ns]].ns == ns {
      if ns != e.ns { assert ns in peers.store; }
    }
  }

  lemma DeliveredOrPending(peers: Peers, ns: string)
    requires PeersInv(peers) && peers.events != []
    ensures Undelivered(peers.Deliver(), ns) || InStep(peers.Deliver(), ns)
  {
    if ns != peers.events[0].ns {
      PendingBehindHead(peers, ns);
    } else if !Undelivered(peers.Deliver(), ns) {
      HeadIsLast(peers);
    }
  }

  lemma AssignKeepsPeers(peers: Peers, obj: nat, entry: string)
    requires PeersInv(peers) && obj < |peers.heap|
    ensures PeersInv(peers.Assign(obj, entry))
  {
    var peers' := peers.Assign(obj, entry);
    forall ns ensures Undelivered(peers', ns) || InStep(peers', ns) {
      assert Undelivered(peers, ns) || InStep(peers, ns);
    }
    forall i: nat | IsLast(peers'.events, i) ensures peers'.events[i].cm == OnServer(peers', peers'.events[i].ns) {
      assert IsLast(peers.events, i);
    }
  }

  lemma PopKeepsPeers(peers: Peers)
    requires PeersInv(peers) && peers.notes != []
    ensures PeersInv(peers.PopNote())
  {
    var peers' := peers.PopNote();
    forall ns ensures Undelivered(peers', ns) || InStep(peers', ns) {
      assert Undelivered(peers, ns) || InStep(peers, ns);
    }
    forall i: nat | IsLast(peers'.events, i) ensures peers'.events[i].cm == OnServer(peers', peers'.events[i].ns) {
      assert IsLast(peers.events, i);
    }
  }

  lemma CmStepKeepsPeers(ns: string, peers: Peers, pc: Pc)
    requires PeersInv(peers) && OnCm(pc)
    ensures PeersInv(CmStep(ns, peers, pc).0)
  {
    match pc
    case CreatingCm(_, _, leader) => if ns !in peers.cms { PutKeepsPeers(peers, ns, leader); }
    case Assigning(_, _, leader, obj) => if obj < |peers.heap| { AssignKeepsPeers(peers, obj, leader); }
    case UpdatingCm(_, _, _, obj) => if obj < |peers.heap| { PutKeepsPeers(peers, ns, peers.heap[obj].entry); }
    case _ =>
  }

  lemma StepKeepsPeers(cfg: Config, s: State, step: Step)
    requires PeersInv(s.peers) && Enabled(cfg, s, step)
    ensures PeersInv(Apply(cfg, s, step).peers)
  {
    match step
    case EditCm(ns, entry) => PutKeepsPeers(s.peers, ns, entry);
    case RemoveCm(ns) => RemoveKeepsPeers(s.peers, ns);
    case DeliverCm => DeliverKeepsPeers(s.peers);
    case NotifyCm(_) => PopKeepsPeers(s.peers);
    case Work(w, _, _) => if OnCm(s.workers[w]) { CmStepKeepsPeers(cfg.ns(s.workers[w].key), s.peers, s.workers[w]); }
    case _ =>
  }

  // ---------- What workers hold ----------

  predicate HasObj(pc: Pc) {
    pc.Reading? || pc.Assigning? || pc.UpdatingCm?
  }

  predicate HasList(pc: Pc) {
    pc.CreatingCm? || pc.FindingCm? || HasObj(pc)
  }

  /** The leader was chosen from the list; a held object is one of the key's namespace. */
  predicate PcInv(cfg: Config, peers: Peers, pc: Pc) {
    && (HasList(pc) ==> Valid(pc.leader, pc.ips))
    && (pc.Reading? ==> pc.ips != {})
    && (HasObj(pc) ==> pc.obj < |peers.heap| && peers.heap[pc.obj].ns == cfg.ns(pc.key))
  }

  /** A reader whose object has been replaced in the cache will be woken again. */
  predicate RefInv(cfg: Config, peers: Peers, q: Queue, pc: Pc) {
    pc.Reading? ==>
      var ns := cfg.ns(pc.key);
      (ns in peers.store && peers.store[ns] == pc.obj) || pc.key in q.dirty || ns in peers.notes
  }

  ghost predicate HeldInv(cfg: Config, s: State) {
    forall w :: w in s.workers ==> PcInv(cfg, s.peers, s.workers[w]) && RefInv(cfg, s.peers, s.q, s.workers[w])
  }

  /** An object of the server's version that differs from the server is about to be sent by someone. */
  ghost predicate MutInv(peers: Peers, workers: map<nat, Pc>) {
    forall o: nat :: peers.Current(o) && peers.heap[o].entry != peers.cms[peers.heap[o].ns].entry ==> Sender(workers, o)
  }

  ghost predicate Sender(workers: map<nat, Pc>, o: nat) {
    exists w: nat :: w in workers && workers[w].UpdatingCm? && workers[w].obj == o
  }

  // ---------- Kept by the outside ----------

  lemma OutsideKeepsPc(cfg: Config, s: State, step: Step, w: nat)
    requires BaseInv(cfg, s) && PeersInv(s.peers) && Enabled(cfg, s, step) && !step.Work?
    requires w in s.workers && PcInv(cfg, s.peers, s.workers[w]) && RefInv(cfg, s.peers, s.q, s.workers[w])
    ensures var s' := Apply(cfg, s, step);
            PcInv(cfg, s'.peers, s.workers[w]) && RefInv(cfg, s'.peers, s'.q, s.workers[w])
  {
    OutsideGrows(cfg, s, step);
    if step.NotifyCm? && s.workers[w].Reading? {
      var k := s.workers[w].key;
      assert Busy(s.workers, w);
      WokenGrow(cfg, s, s.peers.notes[0], step.order);
    }
  }

  lemma OutsideKeepsHeld(cfg: Config, s: State, step: Step)
    requires BaseInv(cfg, s) && PeersInv(s.peers) && HeldInv(cfg, s) && Enabled(cfg, s, step) && !step.Work?
    ensures HeldInv(cfg, Apply(cfg, s, step))
  {
    OutsideGrows(cfg, s, step);
    forall w | w in s.workers { OutsideKeepsPc(cfg, s, step, w); }
  }

  lemma DeliverKeepsMut(peers: Peers, workers: map<nat, Pc>)
    requires PeersInv(peers) && MutInv(peers, workers) && peers.events != []
    ensures MutInv(peers.Deliver(), workers)
  {
    var peers' := peers.Deliver();
    assert peers.events[0] in peers.events;
    forall o: nat | peers'.Current(o) && peers'.heap[o].entry != peers'.cms[peers'.heap[o].ns].entry ensures Sender(workers, o) {
      assert o < |peers.heap|;
      assert peers.Current(o) && peers.heap[o].entry != peers.cms[peers.heap[o].ns].entry;
    }
  }

  /** A write from outside gives a version no object has; a removal leaves fewer to be current. */
  lemma WriteKeepsMut(peers: Peers, workers: map<nat, Pc>, ns: string, entry: string)
    requires PeersInv(peers) && MutInv(peers, workers)
    ensures MutInv(peers.Put(ns, entry), workers) && MutInv(peers.Remove(ns), workers)
  {
    var put, removed := peers.Put(ns, entry), peers.Remove(ns);
    forall o: nat | put.Current(o) && put.heap[o].entry != put.cms[put.heap[o].ns].entry ensures Sender(workers, o) {
      assert put.heap[o].ns != ns && peers.Current(o);
    }
    forall o: nat | removed.Current(o) && removed.heap[o].entry != removed.cms[removed.heap[o].ns].entry ensures Sender(workers, o) {
      assert peers.Current(o);
    }
  }

  lemma OutsideKeepsMut(cfg: Config, s: State, step: Step)
    requires PeersInv(s.peers) && MutInv(s.peers, s.workers) && Enabled(cfg, s, step) && !step.Work?
    ensures MutInv(Apply(cfg, s, step).peers, s.workers)
  {
    match step
    case EditCm(ns, entry) => WriteKeepsMut(s.peers, s.workers, ns, entry);
    case RemoveCm(ns) => WriteKeepsMut(s.peers, s.workers, ns, "");
    case DeliverCm => DeliverKeepsMut(s.peers, s.workers);
    case NotifyCm(_) => PopKeepsMut(s.peers, s.workers);
    case _ =>
  }

  lemma PopKeepsMut(peers: Peers, workers: map<nat, Pc>)
    requires MutInv(peers, workers) && peers.notes != []
    ensures MutInv(peers.PopNote(), workers)
  {
    forall o: nat | peers.PopNote().Current(o) && peers.heap[o].entry != peers.cms[peers.heap[o].ns].entry ensures Sender(workers, o) {
      assert peers.Current(o);
    }
  }

  // ---------- Kept by workers ----------

  /** A worker's step leaves the peers alone, or is one of the steps on the peer ConfigMap. */
  ghost predicate PeersMove(cfg: Config, peers: Peers, pc: Pc, peers': Peers, pc': Pc) {
    peers' == peers || (OnCm(pc) && CmStep(cfg.ns(pc.key), peers, pc) == (peers', pc'))
  }

  /** What a worker's step does to the others: it may touch the peers, and takes at most its own key from the queue. */
  lemma WorkMoves(cfg: Config, s: State, w: nat, leader: string, fault: bool)
    requires WorkEnabled(cfg, s, w, leader, fault)
    ensures var s' := WorkStep(cfg, s, w, leader, fault);
            && w in s'.workers && s'.workers == s.workers[w := s'.workers[w]]
            && PeersMove(cfg, s.peers, s.workers[w], s'.peers, s'.workers[w])
            && (s.workers[w].UpdatingCm? && !fault ==> CmStep(cfg.ns(s.workers[w].key), s.peers, s.workers[w]) == (s'.peers, s'.workers[w]))
            && s.q.waiting <= s'.q.waiting
            && (s.workers[w].Idle? ==> s.q.queue != [] && s'.workers[w] == Start(s.q.queue[0]))
            && forall k :: k in s.q.dirty && k !in s'.q.dirty ==> s.workers[w].Idle? && s.q.queue != [] && k == s.q.queue[0]
  {
  }

  /** Objects keep their namespaces and versions, the store keeps its references. */
  lemma MoveKeepsObjects(cfg: Config, peers: Peers, pc: Pc, peers': Peers, pc': Pc)
    requires PeersMove(cfg, peers, pc, peers', pc')
    ensures |peers'.heap| == |peers.heap| && peers'.store == peers.store && peers'.notes == peers.notes
    ensures forall o: nat :: o < |peers.heap| ==> peers'.heap[o].ns == peers.heap[o].ns && peers'.heap[o].version == peers.heap[o].version
  {
  }

  lemma WorkKeepsHeld(cfg: Config, s: State, w: nat, leader: string, fault: bool)
    requires BaseInv(cfg, s) && PeersInv(s.peers) && HeldInv(cfg, s) && WorkEnabled(cfg, s, w, leader, fault)
    ensures HeldInv(cfg, WorkStep(cfg, s, w, leader, fault))
  {
    var s' := WorkStep(cfg, s, w, leader, fault);
    WorkMoves(cfg, s, w, leader, fault);
    OwnPc(cfg, s, w, leader, fault);
    forall v | v in s.workers && v != w
      ensures PcInv(cfg, s'.peers, s'.workers[v]) && RefInv(cfg, s'.peers, s'.q, s'.workers[v])
    {
      OtherPc(cfg, s, s', w, v);
    }
  }

  lemma CmStepPc(cfg: Config, peers: Peers, pc: Pc)
    requires PeersInv(peers) && OnCm(pc) && PcInv(cfg, peers, pc)
    ensures var (peers', pc') := CmStep(cfg.ns(pc.key), peers, pc);
            && PcInv(cfg, peers', pc')
            && (pc'.Reading? ==> cfg.ns(pc.key) in peers'.store && peers'.store[cfg.ns(pc.key)] == pc'.obj && pc'.key == pc.key)
  {
  }

  /** A worker with a list after its step made a step on the ConfigMap, or has just listed the pods. */
  lemma ListOrCm(cfg: Config, s: State, w: nat, leader: string, fault: bool)
    requires WorkEnabled(cfg, s, w, leader, fault)
    ensures var s' := WorkStep(cfg, s, w, leader, fault);
            w in s'.workers &&
            (HasList(s'.workers[w]) ==>
               || (OnCm(s.workers[w]) && CmStep(cfg.ns(s.workers[w].key), s.peers, s.workers[w]) == (s'.peers, s'.workers[w]))
               || (s.workers[w].Listing? && s'.peers == s.peers && Valid(leader, RunIPs(s.fleet.pods, cfg.ns(s.workers[w].key))) &&
                   s'.workers[w] == CreatingCm(s.workers[w].key, RunIPs(s.fleet.pods, cfg.ns(s.workers[w].key)), leader)))
  {
  }

  lemma OwnPc(cfg: Config, s: State, w: nat, leader: string, fault: bool)
    requires PeersInv(s.peers) && HeldInv(cfg, s) && WorkEnabled(cfg, s, w, leader, fault)
    ensures var s' := WorkStep(cfg, s, w, leader, fault);
            w in s'.workers && PcInv(cfg, s'.peers, s'.workers[w]) && RefInv(cfg, s'.peers, s'.q, s'.workers[w])
  {
    assert PcInv(cfg, s.peers, s.workers[w]);
    ListOrCm(cfg, s, w, leader, fault);
    if OnCm(s.workers[w]) { CmStepPc(cfg, s.peers, s.workers[w]); }
  }

  lemma OtherPc(cfg: Config, s: State, s': State, w: nat, v: nat)
    requires BaseInv(cfg, s) && HeldInv(cfg, s) && v in s.workers && w in s.workers && v != w
    requires w in s'.workers && PeersMove(cfg, s.peers, s.workers[w], s'.peers, s'.workers[w])
    requires forall k :: k in s.q.dirty && k !in s'.q.dirty ==> s.workers[w].Idle? && s.q.queue != [] && k == s.q.queue[0]
    ensures PcInv(cfg, s'.peers, s.workers[v]) && RefInv(cfg, s'.peers, s'.q, s.workers[v])
  {
    var pc := s.workers[v];
    assert PcInv(cfg, s.peers, pc) && RefInv(cfg, s.peers, s.q, pc);
    MoveKeepsObjects(cfg, s.peers, s.workers[w], s'.peers, s'.workers[w]);
    if pc.Reading? { HeldIsNotQueued(cfg, s, v); }
  }

  lemma HeldIsNotQueued(cfg: Config, s: State, v: nat)
    requires BaseInv(cfg, s) && Busy(s.workers, v)
    ensures s.workers[v].key !in s.q.queue
    ensures s.q.queue != [] ==> s.workers[v].key != s.q.queue[0]
  {
    assert s.workers[v].key in s.q.processing;
  }

  lemma WorkKeepsMut(cfg: Config, s: State, w: nat, leader: string, fault: bool)
    requires PeersInv(s.peers) && HeldInv(cfg, s) && MutInv(s.peers, s.workers) && WorkEnabled(cfg, s, w, leader, fault)
    requires fault ==> !s.workers[w].UpdatingCm?
    ensures MutInv(WorkStep(cfg, s, w, leader, fault).peers, WorkStep(cfg, s, w, leader, fault).workers)
  {
    var s' := WorkStep(cfg, s, w, leader, fault);
    WorkMoves(cfg, s, w, leader, fault);
    assert PcInv(cfg, s.peers, s.workers[w]);
    MoveKeepsMut(cfg, s.peers, s.workers, w, s'.peers, s'.workers[w]);
  }

  lemma MoveKeepsMut(cfg: Config, peers: Peers, workers: map<nat, Pc>, w: nat, peers': Peers, pc': Pc)
    requires PeersInv(peers) && MutInv(peers, workers) && w in workers && PcInv(cfg, peers, workers[w])
    requires PeersMove(cfg, peers, workers[w], peers', pc')
    requires workers[w].UpdatingCm? || peers' != peers ==> CmStep(cfg.ns(workers[w].key), peers, workers[w]) == (peers', pc')
    ensures MutInv(peers', workers[w := pc'])
  {
    forall o: nat | peers'.Current(o) && peers'.heap[o].entry != peers'.cms[peers'.heap[o].ns].entry ensures Sender(workers[w := pc'], o) {
      SenderStays(cfg, peers, workers, w, peers', pc', o);
    }
  }

  lemma SenderStays(cfg: Config, peers: Peers, workers: map<nat, Pc>, w: nat, peers': Peers, pc': Pc, o: nat)
    requires PeersInv(peers) && MutInv(peers, workers) && w in workers && PcInv(cfg, peers, workers[w])
    requires PeersMove(cfg, peers, workers[w], peers', pc')
    requires workers[w].UpdatingCm? || peers' != peers ==> CmStep(cfg.ns(workers[w].key), peers, workers[w]) == (peers', pc')
    requires peers'.Current(o) && peers'.heap[o].entry != peers'.cms[peers'.heap[o].ns].entry
    ensures Sender(workers[w := pc'], o)
  {
    var workers' := workers[w := pc'];
    assert peers.Current(o);
    if peers.heap[o].entry == peers.cms[peers.heap[o].ns].entry {
      assert workers'[w].UpdatingCm? && workers'[w].obj == o;
    } else {
      var v: nat :| v in workers && workers[v].UpdatingCm? && workers[v].obj == o;
      if v != w {
        assert workers'[v] == workers[v];
      } else {
        assert false;
      }
    }
  }

  // ---------- Together ----------

  ghost predicate Inv(cfg: Config, s: State) {
    BaseInv(cfg, s) && PeersInv(s.peers) && HeldInv(cfg, s)
  }

  lemma InitInv(cfg: Config, s: State)
    requires Init(cfg, s)
    ensures Inv(cfg, s) && MutInv(s.peers, s.workers)
  {
    InitBase(cfg, s);
    InitPeersInv(s.peers);
  }

  lemma StepKeepsInv(cfg: Config, s: State, step: Step)
    requires Inv(cfg, s) && Enabled(cfg, s, step)
    ensures Inv(cfg, Apply(cfg, s, step))
  {
    StepKeepsBase(cfg, s, step);
    StepKeepsPeers(cfg, s, step);
    if step.Work? {
      WorkKeepsHeld(cfg, s, step.w, step.leader, step.fault);
    } else {
      OutsideKeepsHeld(cfg, s, step);
    }
  }

  /** The ConfigMap update fails, for another reason than a conflict. */
  predicate Drops(s: State, step: Step) {
    step.Work? && step.w in s.workers && s.workers[step.w].UpdatingCm? && step.fault
  }

  /** As long as no ConfigMap update fails except for a conflict, in-place writes are accounted for. */
  lemma StepKeepsMut(cfg: Config, s: State, step: Step)
    requires Inv(cfg, s) && MutInv(s.peers, s.workers) && Enabled(cfg, s, step)
    requires !Drops(s, step)
    ensures MutInv(Apply(cfg, s, step).peers, Apply(cfg, s, step).workers)
  {
    if step.Work? {
      WorkKeepsMut(cfg, s, step.w, step.leader, step.fault);
    } else {
      OutsideGrows(cfg, s, step);
      OutsideKeepsMut(cfg, s, step);
    }
  }

  lemma {:induction false} RunKeepsInv(cfg: Config, states: seq<State>, steps: seq<Step>, n: nat)
    requires Run(cfg, states, steps) && n < |states|
    ensures Inv(cfg, states[n])
  {
    if n == 0 {
      InitInv(cfg, states[0]);
    } else {
      RunKeepsInv(cfg, states, steps, n - 1);
      StepKeepsInv(cfg, states[n - 1], steps[n - 1]);
    }
  }

  lemma ReachableInv(cfg: Config, s: State)
    requires Reachable(cfg, s)
    ensures Inv(cfg, s)
  {
    var start :| ReachableFrom(cfg, start, s);
    var states: seq<State>, steps :| Run(cfg, states, steps) && start == states[0] && s == states[|steps|];
    RunKeepsInv(cfg, states, steps, |steps|);
  }
}
