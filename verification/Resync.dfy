/**
  What the periodic resync of the ConfigMap informer, which wakes every Habitat of the namespace, can
  mend. As long as updates fail for conflicts only, a controller at rest has the server's ConfigMap in
  its cache, so the next reconcile sees what is wrong. After an update that failed for another reason
  the cached object is right and the server wrong: no reconcile will ever see it.
*/
module Resync {
  import opened Types
  import opened Workqueue
  import opened Protocol
  import opened ProtocolInv
  import opened ProtocolPeers
  import opened NoLostRepair
  import opened SafeConfigs
  import opened LostRepair
  import opened LoneReconcile

  // ---------- At rest the cache is in step ----------

  lemma ConflictsOnly(cfg: Config, s: State, step: Step)
    requires UpdateCm !in cfg.mayFail && Enabled(cfg, s, step)
    ensures !Drops(s, step)
  {
  }

  lemma {:induction false} RunKeepsMut(cfg: Config, states: seq<State>, steps: seq<Step>, n: nat)
    requires Run(cfg, states, steps) && n < |states| && UpdateCm !in cfg.mayFail
    ensures MutInv(states[n].peers, states[n].workers)
  {
    if n == 0 {
      InitInv(cfg, states[0]);
    } else {
      RunKeepsMut(cfg, states, steps, n - 1);
      RunKeepsInv(cfg, states, steps, n - 1);
      ConflictsOnly(cfg, states[n - 1], steps[n - 1]);
      StepKeepsMut(cfg, states[n - 1], steps[n - 1]);
    }
  }

  /** Whatever the workers and the Habitats: nothing in flight means that cache and server agree. */
  lemma QuietIsInStep(cfg: Config, s: State, ns: string)
    requires UpdateCm !in cfg.mayFail && Reachable(cfg, s) && Quiet(s)
    ensures CacheInStep(s.peers, ns)
  {
    var start :| ReachableFrom(cfg, start, s);
    var states: seq<State>, steps :| Run(cfg, states, steps) && start == states[0] && s == states[|steps|];
    RunKeepsInv(cfg, states, steps, |steps|);
    RunKeepsMut(cfg, states, steps, |steps|);
    QuietAgrees(cfg, s, ns);
  }

  lemma QuietAgrees(cfg: Config, s: State, ns: string)
    requires Inv(cfg, s) && MutInv(s.peers, s.workers) && Quiet(s)
    ensures CacheInStep(s.peers, ns)
  {
    assert !Undelivered(s.peers, ns) && InStep(s.peers, ns);
    if ns in s.peers.cms {
      assert !Sender(s.workers, s.peers.store[ns]);
    }
  }

  // ---------- A resync mends ----------

  lemma {:induction false} AddAllKeepsHead(q: Queue, order: seq<string>)
    requires q.queue != []
    ensures AddAll(q, order).queue != [] && AddAll(q, order).queue[0] == q.queue[0]
    decreases |order|
  {
    if order != [] { AddAllKeepsHead(q.Add(order[0]), order[1..]); }
  }

  lemma AddAllHead(q: Queue, order: seq<string>)
    requires q.Wf() && q.dirty == {} && q.processing == {} && !q.shuttingDown && order != []
    ensures AddAll(q, order).queue != [] && AddAll(q, order).queue[0] == order[0]
  {
    assert forall i :: 0 <= i < |q.queue| ==> q.queue[i] in q.dirty;
    AddAllKeepsHead(q.Add(order[0]), order[1..]);
  }

  lemma QuietHoldsNothing(cfg: Config, s: State)
    requires BaseInv(cfg, s) && Quiet(s)
    ensures s.q.processing == {}
  {
    assert forall w :: !Busy(s.workers, w);
  }

  /**
    From rest, with whatever entry: the resync queues the Habitats of the namespace, a worker takes the
    first of them, and makes the entry right.
  */
  lemma ResyncRepairs(cfg: Config, s: State, ns: string, order: seq<string>, w: nat) returns (t: State)
    requires UpdateCm !in cfg.mayFail && Reachable(cfg, s) && Quiet(s) && w in cfg.workers
    requires Enabled(cfg, s, Resync(ns, order)) && order != []
    requires order[0] in s.reg.store && cfg.desired(s.reg.store[order[0]]).Some?
    ensures AloneTo(cfg, w, Apply(cfg, s, Resync(ns, order)), t) && GoodEntry(t, ns)
  {
    QuietIsInStep(cfg, s, ns);
    ReachableBase(cfg, s);
    QuietHoldsNothing(cfg, s);
    AddAllHead(s.q, order);
    WokenAreOurs(cfg, s.reg, ns, order[0]);
    var s1 := Apply(cfg, s, Resync(ns, order));
    assert WorkEnabled(cfg, s1, w, "", false);
    var s2 := WorkStep(cfg, s1, w, "", false);
    t := AloneItRepairs(cfg, s2, w);
    AloneAfter(cfg, w, s1, "", t);
  }

  lemma AloneAfter(cfg: Config, w: nat, s: State, leader: string, t: State)
    requires WorkEnabled(cfg, s, w, leader, false) && AloneTo(cfg, w, WorkStep(cfg, s, w, leader, false), t)
    ensures AloneTo(cfg, w, s, t)
  {
    var states: seq<State>, leaders: seq<string> :|
      AloneRun(cfg, w, states, leaders) && states[0] == WorkStep(cfg, s, w, leader, false) && states[|leaders|] == t;
    var states', leaders' := [s] + states, [leader] + leaders;
    assert AloneRun(cfg, w, states', leaders') && states'[0] == s && states'[|leaders'|] == t;
  }

  // ---------- A failed update stays unmended ----------

  /** The worker has not listed the pods yet, or its list holds the cached leader, and it has no reason to write. */
  predicate Trusts(peers: Peers, pc: Pc, ns: string, ip: string) {
    && !pc.Assigning? && !pc.UpdatingCm?
    && (HasList(pc) ==> ip in pc.ips)
    && (pc.Reading? ==> ns in peers.store && pc.obj == peers.store[ns])
  }

  /** The cached object names a running pod, the server does not, and no event will tell. */
  ghost predicate PeerFooled(peers: Peers, now: set<string>, ns: string, ip: string) {
    && ns in peers.cms && !Valid(peers.cms[ns].entry, now) && ip in now
    && ns in peers.store && peers.store[ns] < |peers.heap| && peers.heap[peers.store[ns]].entry == ip
    && !Undelivered(peers, ns)
  }

  /** And so are all workers that have the pods of the namespace in hand. */
  ghost predicate Fooled(cfg: Config, s: State, ns: string, ip: string) {
    && Inv(cfg, s) && PeerFooled(s.peers, RunIPs(s.fleet.pods, ns), ns, ip)
    && forall w :: w in s.workers ==> TrustsIn(cfg, s.peers, s.workers[w], ns, ip)
  }

  predicate TrustsIn(cfg: Config, peers: Peers, pc: Pc, ns: string, ip: string) {
    !pc.Idle? && cfg.ns(pc.key) == ns ==> Trusts(peers, pc, ns, ip)
  }

  /** Anything but a change of the namespace's running pods or an edit of its ConfigMap. */
  ghost predicate Calm(cfg: Config, s: State, step: Step, ns: string) {
    && Enabled(cfg, s, step)
    && (step.EditCm? || step.RemoveCm? ==> step.ns != ns)
    && RunIPs(Apply(cfg, s, step).fleet.pods, ns) == RunIPs(s.fleet.pods, ns)
  }

  /** A namespace's ConfigMap, its cached object and its events are as they were. */
  predicate SamePeer(peers: Peers, peers': Peers, ns: string) {
    && OnServer(peers', ns) == OnServer(peers, ns)
    && (ns in peers.store ==> ns in peers'.store && peers'.store[ns] == peers.store[ns])
    && (ns in peers.store && peers.store[ns] < |peers.heap| ==>
          peers.store[ns] < |peers'.heap| && peers'.heap[peers.store[ns]] == peers.heap[peers.store[ns]])
    && forall e :: e in peers'.events && e.ns == ns ==> e in peers.events
  }

  lemma OutsideSamePeer(cfg: Config, s: State, step: Step, ns: string)
    requires Calm(cfg, s, step, ns) && !step.Work? && !Undelivered(s.peers, ns)
    ensures SamePeer(s.peers, Apply(cfg, s, step).peers, ns)
  {
    if step.DeliverCm? {
      var e := s.peers.events[0];
      assert e in s.peers.events && e.ns != ns;
      forall d | d in s.peers.events[1..] ensures d in s.peers.events {
        var i :| 0 <= i < |s.peers.events[1..]| && s.peers.events[1..][i] == d;
        assert s.peers.events[i + 1] == d;
      }
    }
  }

  lemma SamePeerStaysFooled(peers: Peers, peers': Peers, now: set<string>, ns: string, ip: string)
    requires PeerFooled(peers, now, ns, ip) && SamePeer(peers, peers', ns)
    ensures PeerFooled(peers', now, ns, ip)
  {
    assert OnServer(peers', ns) == OnServer(peers, ns);
  }

  lemma SamePeerStaysTrusted(cfg: Config, peers: Peers, peers': Peers, pc: Pc, ns: string, ip: string)
    requires TrustsIn(cfg, peers, pc, ns, ip) && SamePeer(peers, peers', ns)
    ensures TrustsIn(cfg, peers', pc, ns, ip)
  {
  }

  /** A worker of another namespace, or one that trusts the cache, leaves the namespace's peer alone. */
  lemma MoveSamePeer(cfg: Config, peers: Peers, pc: Pc, peers': Peers, pc': Pc, ns: string, ip: string)
    requires PeersInv(peers) && PcInv(cfg, peers, pc) && PeersMove(cfg, peers, pc, peers', pc')
    requires ns in peers.cms && ns in peers.store && peers.heap[peers.store[ns]].ns == ns
    requires TrustsIn(cfg, peers, pc, ns, ip)
    ensures SamePeer(peers, peers', ns)
  {
  }

  lemma TrustingStep(cfg: Config, peers: Peers, pc: Pc, ns: string, ip: string)
    requires OnCm(pc) && Trusts(peers, pc, ns, ip) && ns in peers.cms && ns in peers.store
    requires peers.store[ns] < |peers.heap| && peers.heap[peers.store[ns]].entry == ip
    ensures var (peers', pc') := CmStep(ns, peers, pc);
            peers' == peers && Trusts(peers, pc', ns, ip)
  {
  }

  /** What a worker of the namespace does next, it does trusting the cache. */
  lemma TrustGoesOn(cfg: Config, s: State, w: nat, leader: string, fault: bool, ns: string, ip: string)
    requires Fooled(cfg, s, ns, ip) && WorkEnabled(cfg, s, w, leader, fault)
    ensures var s' := WorkStep(cfg, s, w, leader, fault);
            w in s'.workers && TrustsIn(cfg, s'.peers, s'.workers[w], ns, ip)
  {
    var pc, s' := s.workers[w], WorkStep(cfg, s, w, leader, fault);
    ListOrCm(cfg, s, w, leader, fault);
    if HasList(s'.workers[w]) {
      KeyStays(cfg, s, w, leader, fault);
      if cfg.ns(pc.key) == ns && OnCm(pc) { TrustingStep(cfg, s.peers, pc, ns, ip); }
    }
  }

  lemma KeyStays(cfg: Config, s: State, w: nat, leader: string, fault: bool)
    requires WorkEnabled(cfg, s, w, leader, fault) && w in WorkStep(cfg, s, w, leader, fault).workers
    requires HasList(WorkStep(cfg, s, w, leader, fault).workers[w])
    ensures !s.workers[w].Idle? && WorkStep(cfg, s, w, leader, fault).workers[w].key == s.workers[w].key
  {
  }

  lemma WorkSamePeer(cfg: Config, s: State, w: nat, leader: string, fault: bool, ns: string, ip: string)
    requires Fooled(cfg, s, ns, ip) && WorkEnabled(cfg, s, w, leader, fault)
    ensures var s' := WorkStep(cfg, s, w, leader, fault);
            SamePeer(s.peers, s'.peers, ns) && PeerFooled(s'.peers, RunIPs(s'.fleet.pods, ns), ns, ip)
  {
    var s' := WorkStep(cfg, s, w, leader, fault);
    WorkMoves(cfg, s, w, leader, fault);
    WorkKeepsRunIPs(cfg, s, w, leader, fault, ns);
    HeldPc(cfg, s, w);
    MoveSamePeer(cfg, s.peers, s.workers[w], s'.peers, s'.workers[w], ns, ip);
    SamePeerStaysFooled(s.peers, s'.peers, RunIPs(s.fleet.pods, ns), ns, ip);
  }

  lemma HeldPc(cfg: Config, s: State, w: nat)
    requires HeldInv(cfg, s) && w in s.workers
    ensures PcInv(cfg, s.peers, s.workers[w])
  {
  }

  lemma WorkKeepsFooled(cfg: Config, s: State, w: nat, leader: string, fault: bool, ns: string, ip: string)
    requires Fooled(cfg, s, ns, ip) && WorkEnabled(cfg, s, w, leader, fault)
    ensures var s' := WorkStep(cfg, s, w, leader, fault);
            && PeerFooled(s'.peers, RunIPs(s'.fleet.pods, ns), ns, ip)
            && forall v :: v in s'.workers ==> TrustsIn(cfg, s'.peers, s'.workers[v], ns, ip)
  {
    var s' := WorkStep(cfg, s, w, leader, fault);
    WorkSamePeer(cfg, s, w, leader, fault, ns, ip);
    WorkMoves(cfg, s, w, leader, fault);
    TrustGoesOn(cfg, s, w, leader, fault, ns, ip);
    forall v | v in s.workers && v != w ensures TrustsIn(cfg, s'.peers, s'.workers[v], ns, ip) {
      SamePeerStaysTrusted(cfg, s.peers, s'.peers, s.workers[v], ns, ip);
    }
  }

  lemma StepKeepsFooled(cfg: Config, s: State, step: Step, ns: string, ip: string)
    requires Fooled(cfg, s, ns, ip) && Calm(cfg, s, step, ns)
    ensures Fooled(cfg, Apply(cfg, s, step), ns, ip)
  {
    StepKeepsInv(cfg, s, step);
    if step.Work? {
      WorkKeepsFooled(cfg, s, step.w, step.leader, step.fault, ns, ip);
    } else {
      var s' := Apply(cfg, s, step);
      OutsideGrows(cfg, s, step);
      OutsideSamePeer(cfg, s, step, ns);
      SamePeerStaysFooled(s.peers, s'.peers, RunIPs(s.fleet.pods, ns), ns, ip);
      forall v | v in s.workers ensures TrustsIn(cfg, s'.peers, s'.workers[v], ns, ip) {
        SamePeerStaysTrusted(cfg, s.peers, s'.peers, s.workers[v], ns, ip);
      }
    }
  }

  /** However long: resyncs, reconciles, retries, failing calls and events of others do not make the entry right. */
  lemma {:induction false} FooledForGood(cfg: Config, states: seq<State>, steps: seq<Step>, n: nat, ns: string, ip: string)
    requires |states| == |steps| + 1 && n < |states| && Fooled(cfg, states[0], ns, ip)
    requires forall i :: 0 <= i < |steps| ==> Calm(cfg, states[i], steps[i], ns) && states[i + 1] == Apply(cfg, states[i], steps[i])
    ensures Fooled(cfg, states[n], ns, ip) && !GoodEntry(states[n], ns)
  {
    if n > 0 {
      FooledForGood(cfg, states, steps, n - 1, ns, ip);
      StepKeepsFooled(cfg, states[n - 1], steps[n - 1], ns, ip);
    }
  }

  lemma LoneIsFooled(cfg: Config, k: string, h: Habitat, want: StatefulSet)
    requires Inv(cfg, Lone(cfg, k, h, want, [], NEW, EMPTY))
    ensures Fooled(cfg, Lone(cfg, k, h, want, [], NEW, EMPTY), cfg.ns(k), NEW)
  {
    OnePodRuns(cfg.ns(k), k, want, false);
  }

  /** Such a state is reached whenever ConfigMap updates can fail for other reasons and some worker works. */
  lemma DropFools(cfg: Config) returns (s: State, ns: string)
    requires Works(cfg) && UpdateCm in cfg.mayFail
    ensures Reachable(cfg, s) && Quiet(s) && Holds(cfg, s, ns) && Fooled(cfg, s, ns, NEW)
  {
    var reach := ReachableSet(cfg);
    var k, w: nat :| k in cfg.keys && Compiles(cfg, k) && w in cfg.workers;
    var h, want := Deploy(cfg, k);
    ns := cfg.ns(k);
    s := DropRun(cfg, reach, k, w, h, want);
    ReachableInv(cfg, s);
    LoneIsFooled(cfg, k, h, want);
  }
}
