/**
  Runs that do lose a repair, in every configuration that is not safe. In the first, two workers write
  the same cached ConfigMap in place: the second one, holding an older list of pods, undoes what the
  first is about to send, and both updates change nothing. In the second an update fails, and the retry
  finds the cached object already changed. In the third the leader is a pod without an owner of this
  controller: nobody hears of its end.
*/
module LostRepair {
  import opened Types
  import opened Workqueue
  import opened Protocol
  import opened NoLostRepair
  import opened SafeConfigs
  import opened Stretches

  /** The addresses of the pod that dies and of the one that takes over. */
  const OLD := "10.0.0.1"
  const NEW := "10.0.0.2"

  // ---------- The cluster ----------

  /** Pod 0 holds the old address; pod 1 gets the new one when it runs. */
  function Pods(ns: string, k: string, want: StatefulSet, before: bool): map<nat, Instance> {
    map[0 := Instance(ns, Some(k), if before then Running else Failed, OLD, Some(want.spec.template), false),
        1 := Instance(ns, Some(k), if before then Pending else Running, if before then "" else NEW, Some(want.spec.template), false)]
  }

  lemma OnePodRuns(ns: string, k: string, want: StatefulSet, before: bool)
    ensures RunIPs(Pods(ns, k, want, before), ns) == {if before then OLD else NEW}
  {
    var pods, ip := Pods(ns, k, want, before), if before then OLD else NEW;
    var id := if before then 0 else 1;
    assert RunsIn(pods, id, ns) && pods[id].ip == ip;
  }

  /** The peers' ConfigMap names the old address, and the informer's object has `entry`. */
  function PeersWith(ns: string, entry: string): Peers {
    Peers(map[ns := Cm(OLD, 0)], 0, map[ns := 0], [Cached(ns, entry, 0)], [], [])
  }

  function Cluster(stss: map<string, StatefulSet>, pods: map<nat, Instance>, events: seq<PodEvent>): Fleet {
    Fleet(stss, {}, pods, events, [])
  }

  /** One event for the pod that dies, one for the pod that takes over. */
  function Told(ns: string, k: string): seq<PodEvent> {
    [PodEvent(ns, Some(k), true), PodEvent(ns, Some(k), true)]
  }

  function AllIdle(cfg: Config): map<nat, Pc> {
    map w | w in cfg.workers :: Idle
  }

  /** A Habitat of this controller that compiles under the key, to `want`. */
  ghost predicate Deploys(cfg: Config, k: string, h: Habitat, want: StatefulSet) {
    k in cfg.keys && Names(cfg, k, h) && Ours(h) && cfg.desired(h) == Some(want)
  }

  /** The operator has heard of the ConfigMap, but of no Habitat yet. */
  function Opened(cfg: Config, habs: map<string, Habitat>, events: seq<HabEvent>, ns: string, fleet: Fleet): State {
    State(Registry(habs, map[], events, []), fleet, PeersWith(ns, OLD), EMPTY, AllIdle(cfg))
  }

  /** The operator starts, and hears of the ConfigMap first. */
  lemma Opening(cfg: Config, reach: iset<State>, habs: map<string, Habitat>, events: seq<HabEvent>, ns: string, fleet: Fleet)
    requires HoldsStarts(cfg, reach) && Closed(cfg, reach)
    requires InitRegistry(cfg, Registry(habs, map[], events, [])) && InitFleet(cfg, habs, fleet)
    ensures Opened(cfg, habs, events, ns, fleet) in reach
  {
    var e := CmEvent(ns, Some(Cm(OLD, 0)));
    var peers := Peers(map[ns := Cm(OLD, 0)], 0, map[], [], [e], []);
    var s := Opened(cfg, habs, events, ns, fleet).(peers := peers);
    assert e in peers.events;
    assert Init(cfg, s);
    HearOfCm(cfg, reach, s, ns, e);
  }

  lemma HearOfCm(cfg: Config, reach: iset<State>, s: State, ns: string, e: CmEvent)
    requires Closed(cfg, reach) && s in reach && s.reg.store == map[] && e == CmEvent(ns, Some(Cm(OLD, 0)))
    requires s.peers == Peers(map[ns := Cm(OLD, 0)], 0, map[], [], [e], [])
    ensures s.(peers := PeersWith(ns, OLD)) in reach
  {
    Next(cfg, reach, s, DeliverCm);
    var s1 := s.(peers := PeersWith(ns, OLD).(notes := [ns]));
    assert s.peers.Deliver() == s1.peers;
    assert ListsWoken(s1, ns, []);
    Next(cfg, reach, s1, NotifyCm([]));
    assert s1.peers.PopNote() == PeersWith(ns, OLD);
  }

  lemma Change(cfg: Config, reach: iset<State>, s: State, id: nat, pod: Instance)
    requires Closed(cfg, reach) && s in reach && id in s.fleet.pods && s.fleet.pods[id].phase != pod.phase
    requires pod == s.fleet.pods[id].(phase := pod.phase, ip := pod.ip)
    ensures s.(fleet := s.fleet.PutPod(id, pod, true)) in reach
  {
    Next(cfg, reach, s, ChangePod(id, pod.phase, pod.ip));
  }

  /** The old leader dies and another pod takes over. */
  lemma TakeOver(cfg: Config, reach: iset<State>, s: State, stss: map<string, StatefulSet>, ns: string, k: string, want: StatefulSet)
    requires Closed(cfg, reach) && s in reach && s.fleet == Cluster(stss, Pods(ns, k, want, true), [])
    ensures s.(fleet := Cluster(stss, Pods(ns, k, want, false), Told(ns, k))) in reach
  {
    var dead, next := Pods(ns, k, want, false)[0], Pods(ns, k, want, false)[1];
    Change(cfg, reach, s, 0, dead);
    var fleet := s.fleet.PutPod(0, dead, true);
    Change(cfg, reach, s.(fleet := fleet), 1, next);
    assert fleet.PutPod(1, next, true) == Cluster(stss, Pods(ns, k, want, false), Told(ns, k));
  }

  /** The two pod events reach a queue that already has the key. */
  lemma HearOfPods(cfg: Config, reach: iset<State>, s: State, k: string)
    requires Closed(cfg, reach) && s in reach && k in s.q.dirty && s.fleet.podEvents == Told(cfg.ns(k), k)
    requires k in s.reg.store && Names(cfg, k, s.reg.store[k]) && Ours(s.reg.store[k])
    ensures s.(fleet := s.fleet.(podEvents := [])) in reach
  {
    var s1 := s.(fleet := s.fleet.(podEvents := [PodEvent(cfg.ns(k), Some(k), true)]));
    Next(cfg, reach, s, DeliverPod);
    assert Apply(cfg, s, DeliverPod) == s1;
    Next(cfg, reach, s1, DeliverPod);
    assert Apply(cfg, s1, DeliverPod) == s.(fleet := s.fleet.(podEvents := []));
  }

  /** The controller has nothing to do, and the entry is not one of a running pod. */
  ghost predicate Stuck(cfg: Config, s: State, ns: string) {
    Quiet(s) && Holds(cfg, s, ns) && !GoodEntry(s, ns)
  }

  /** With the old pod dead and the new one running, an idle controller is stuck. */
  lemma OldEntryIsWrong(cfg: Config, t: State, k: string, want: StatefulSet)
    requires Quiet(t) && k in t.reg.habs && Ours(t.reg.habs[k])
    requires t.fleet.pods == Pods(cfg.ns(k), k, want, false) && t.peers == PeersWith(cfg.ns(k), OLD).(heap := t.peers.heap)
    ensures Stuck(cfg, t, cfg.ns(k))
  {
    OnePodRuns(cfg.ns(k), k, want, false);
  }

  // ---------- Two workers on one cached object ----------

  /** Two Habitats of one namespace, the second known; the first too, once the pods have changed over and `both` holds. */
  function Pair(cfg: Config, habs: map<string, Habitat>, stss: map<string, StatefulSet>, k1: string, k2: string,
                both: bool, before: bool, told: seq<PodEvent>, q: Queue, workers: map<nat, Pc>): State
    requires k1 in habs && k2 in habs && k1 in stss
  {
    State(if both then Registry(habs, habs, [], []) else Registry(habs, map[k2 := habs[k2]], [HabEvent(k1, habs[k1])], []),
          Cluster(stss, Pods(cfg.ns(k1), k1, stss[k1], before), told), PeersWith(cfg.ns(k1), OLD), q, workers)
  }

  /** Two Habitats that compile, in one namespace. */
  ghost predicate Neighbours(cfg: Config, habs: map<string, Habitat>, stss: map<string, StatefulSet>, k1: string, k2: string) {
    && k1 != k2 && cfg.ns(k1) == cfg.ns(k2) && habs.Keys == {k1, k2} && stss.Keys == {k1, k2}
    && Deploys(cfg, k1, habs[k1], stss[k1]) && Deploys(cfg, k2, habs[k2], stss[k2])
  }

  /** A worker has listed the old pod, for the second Habitat. */
  lemma ReachFirstList(cfg: Config, reach: iset<State>, habs: map<string, Habitat>, stss: map<string, StatefulSet>, k1: string, k2: string, w2: nat)
    requires HoldsStarts(cfg, reach) && Closed(cfg, reach) && Neighbours(cfg, habs, stss, k1, k2) && w2 in cfg.workers
    ensures Pair(cfg, habs, stss, k1, k2, false, true, [], Queue([], {}, {k2}, {}, false),
                 AllIdle(cfg)[w2 := CreatingCm(k2, {OLD}, OLD)]) in reach
  {
    var events := [HabEvent(k2, habs[k2]), HabEvent(k1, habs[k1])];
    assert HabEvent(k1, habs[k1]) == events[1] && HabEvent(k2, habs[k2]) == events[0];
    var fleet := Cluster(stss, Pods(cfg.ns(k1), k1, stss[k1], true), []);
    Opening(cfg, reach, habs, events, cfg.ns(k1), fleet);
    Introduce(cfg, reach, Opened(cfg, habs, events, cfg.ns(k1), fleet), k2, habs[k2]);
    assert events[1..] == [HabEvent(k1, habs[k1])];
    var q := Queue([k2], {k2}, {}, {}, false);
    assert EMPTY.Add(k2) == q && q.Take().1 == Queue([], {}, {k2}, {}, false);
    OnePodRuns(cfg.ns(k1), k1, stss[k1], true);
    TakeAndList(cfg, reach, Pair(cfg, habs, stss, k1, k2, false, true, [], q, AllIdle(cfg)), w2, k2, stss[k2], {OLD}, OLD);
  }

  /** Another pod has taken over, and a second worker has listed it, for the first Habitat. */
  lemma ReachSecondList(cfg: Config, reach: iset<State>, habs: map<string, Habitat>, stss: map<string, StatefulSet>, k1: string, k2: string, w1: nat, w2: nat)
    requires HoldsStarts(cfg, reach) && Closed(cfg, reach) && Neighbours(cfg, habs, stss, k1, k2)
    requires w1 in cfg.workers && w2 in cfg.workers && w1 != w2
    ensures Pair(cfg, habs, stss, k1, k2, true, false, [], Queue([], {}, {k1, k2}, {}, false),
                 AllIdle(cfg)[w2 := CreatingCm(k2, {OLD}, OLD)][w1 := CreatingCm(k1, {NEW}, NEW)]) in reach
  {
    var workers := AllIdle(cfg)[w2 := CreatingCm(k2, {OLD}, OLD)];
    var q1, q2 := Queue([], {}, {k2}, {}, false), Queue([k1], {k1}, {k2}, {}, false);
    assert q1.Add(k1) == q2 && q2.Take().1 == Queue([], {}, {k1, k2}, {}, false);
    ReachFirstList(cfg, reach, habs, stss, k1, k2, w2);
    TakeOver(cfg, reach, Pair(cfg, habs, stss, k1, k2, false, true, [], q1, workers), stss, cfg.ns(k1), k1, stss[k1]);
    Introduce(cfg, reach, Pair(cfg, habs, stss, k1, k2, false, false, Told(cfg.ns(k1), k1), q1, workers), k1, habs[k1]);
    assert map[k2 := habs[k2]][k1 := habs[k1]] == habs && [HabEvent(k1, habs[k1])][1..] == [];
    HearOfPods(cfg, reach, Pair(cfg, habs, stss, k1, k2, true, false, Told(cfg.ns(k1), k1), q2, workers), k1);
    OnePodRuns(cfg.ns(k1), k1, stss[k1], false);
    TakeAndList(cfg, reach, Pair(cfg, habs, stss, k1, k2, true, false, [], q2, workers), w1, k1, stss[k1], {NEW}, NEW);
  }

  /** Both have written their leader into the one cached object, the older list last. */
  lemma ReachBothAssigned(cfg: Config, reach: iset<State>, s: State, k1: string, k2: string, w1: nat, w2: nat, ns: string)
    requires Closed(cfg, reach) && s in reach && w1 in s.workers && w2 in s.workers && w1 != w2
    requires cfg.ns(k1) == ns && cfg.ns(k2) == ns && s.peers == PeersWith(ns, OLD)
    requires s.workers[w1] == CreatingCm(k1, {NEW}, NEW) && s.workers[w2] == CreatingCm(k2, {OLD}, OLD)
    ensures s.At(w1, UpdatingCm(k1, {NEW}, NEW, 0)).At(w2, UpdatingCm(k2, {OLD}, OLD, 0)) in reach
  {
    assert s.At(w1, s.workers[w1]) == s;
    ToUpdating(cfg, reach, s, w1, k1, {NEW}, NEW, 0);
    assert PeersWith(ns, OLD).Assign(0, NEW) == PeersWith(ns, NEW);
    var s1 := s.(peers := PeersWith(ns, NEW)).At(w1, UpdatingCm(k1, {NEW}, NEW, 0));
    assert s1.At(w2, s.workers[w2]) == s1;
    ToUpdating(cfg, reach, s1, w2, k2, {OLD}, OLD, 0);
    assert PeersWith(ns, NEW).Assign(0, OLD) == PeersWith(ns, OLD);
    assert s1.(peers := PeersWith(ns, OLD)) == s.At(w1, UpdatingCm(k1, {NEW}, NEW, 0));
  }

  lemma UpdateBoth(cfg: Config, reach: iset<State>, s: State, k1: string, k2: string, w1: nat, w2: nat, ns: string) returns (t: State)
    requires Closed(cfg, reach) && w1 in s.workers && w2 in s.workers && w1 != w2
    requires s.At(w1, UpdatingCm(k1, {NEW}, NEW, 0)).At(w2, UpdatingCm(k2, {OLD}, OLD, 0)) in reach
    requires cfg.ns(k1) == ns && cfg.ns(k2) == ns && s.peers == PeersWith(ns, OLD)
    ensures t == s.(q := s.q.Done(k1).Done(k2)).At(w1, Idle).At(w2, Idle)
    ensures t in reach
  {
    var u1, u2 := UpdatingCm(k1, {NEW}, NEW, 0), UpdatingCm(k2, {OLD}, OLD, 0);
    assert s.At(w1, u1).At(w2, u2) == s.At(w2, u2).At(w1, u1);
    UpdateNothing(cfg, reach, s.At(w2, u2), w1, u1);
    var s1 := s.(q := s.q.Done(k1)).At(w1, Idle);
    assert s.(q := s.q.Done(k1)).At(w2, u2).At(w1, Idle) == s1.At(w2, u2);
    UpdateNothing(cfg, reach, s1, w2, u2);
    t := s1.(q := s1.q.Done(k2)).At(w2, Idle);
  }

  /** The first writes the new address in place, the second the old one over it; neither update changes anything. */
  lemma ClashRun(cfg: Config, reach: iset<State>, habs: map<string, Habitat>, stss: map<string, StatefulSet>,
                 k1: string, k2: string, w1: nat, w2: nat) returns (t: State)
    requires HoldsStarts(cfg, reach) && Closed(cfg, reach) && Neighbours(cfg, habs, stss, k1, k2)
    requires w1 in cfg.workers && w2 in cfg.workers && w1 != w2
    ensures t in reach && Stuck(cfg, t, cfg.ns(k1))
  {
    var s := Pair(cfg, habs, stss, k1, k2, true, false, [], Queue([], {}, {k1, k2}, {}, false),
                  AllIdle(cfg)[w2 := CreatingCm(k2, {OLD}, OLD)][w1 := CreatingCm(k1, {NEW}, NEW)]);
    ReachSecondList(cfg, reach, habs, stss, k1, k2, w1, w2);
    ReachBothAssigned(cfg, reach, s, k1, k2, w1, w2, cfg.ns(k1));
    t := UpdateBoth(cfg, reach, s, k1, k2, w1, w2, cfg.ns(k1));
    OldEntryIsWrong(cfg, t, k1, stss[k1]);
  }

  // ---------- An update that fails ----------

  /** One Habitat, whose old pod is dead; the cached object says `entry`, the server the old address. */
  function Lone(cfg: Config, k: string, h: Habitat, want: StatefulSet, told: seq<PodEvent>, entry: string, q: Queue): State {
    State(Registry(map[k := h], map[k := h], [], []), Cluster(map[k := want], Pods(cfg.ns(k), k, want, false), told),
          PeersWith(cfg.ns(k), entry), q, AllIdle(cfg))
  }

  /** The old leader has died, and the worker has listed the pod that took over. */
  lemma ReachNewList(cfg: Config, reach: iset<State>, k: string, w: nat, h: Habitat, want: StatefulSet)
    requires HoldsStarts(cfg, reach) && Closed(cfg, reach) && Deploys(cfg, k, h, want) && w in cfg.workers
    ensures Lone(cfg, k, h, want, Told(cfg.ns(k), k), OLD, Queue([], {}, {k}, {}, false)).At(w, CreatingCm(k, {NEW}, NEW)) in reach
  {
    var ns, habs, stss, events := cfg.ns(k), map[k := h], map[k := want], [HabEvent(k, h)];
    var fleet := Cluster(stss, Pods(ns, k, want, true), []);
    assert events[0] == HabEvent(k, h) && events[1..] == [];
    Opening(cfg, reach, habs, events, ns, fleet);
    var s := Opened(cfg, habs, events, ns, fleet);
    TakeOver(cfg, reach, s, stss, ns, k, want);
    Introduce(cfg, reach, s.(fleet := Cluster(stss, Pods(ns, k, want, false), Told(ns, k))), k, h);
    OnePodRuns(ns, k, want, false);
    var q := Queue([k], {k}, {}, {}, false);
    assert EMPTY.Add(k) == q && q.Take().1 == Queue([], {}, {k}, {}, false);
    TakeAndList(cfg, reach, Lone(cfg, k, h, want, Told(ns, k), OLD, q), w, k, want, {NEW}, NEW);
  }

  /** The update fails after the write in place; the back-off and the pod events queue the key again, once. */
  lemma ReachRetry(cfg: Config, reach: iset<State>, k: string, w: nat, h: Habitat, want: StatefulSet)
    requires HoldsStarts(cfg, reach) && Closed(cfg, reach) && Deploys(cfg, k, h, want)
    requires UpdateCm in cfg.mayFail && w in cfg.workers
    ensures Lone(cfg, k, h, want, [], NEW, Queue([k], {k}, {}, {}, false)) in reach
  {
    var ns := cfg.ns(k);
    var q1, q2, q3 := Queue([], {}, {k}, {}, false), Queue([], {}, {}, {k}, false), Queue([k], {k}, {}, {}, false);
    assert q1.AddRateLimited(k).Done(k) == q2 && q2.Fire(k) == q3;
    ReachNewList(cfg, reach, k, w, h, want);
    ToUpdating(cfg, reach, Lone(cfg, k, h, want, Told(ns, k), OLD, q1), w, k, {NEW}, NEW, 0);
    assert PeersWith(ns, OLD).Assign(0, NEW) == PeersWith(ns, NEW);
    assert UpdateCm in CallsOf(UpdatingCm(k, {NEW}, NEW, 0)) * cfg.mayFail;
    Fail(cfg, reach, Lone(cfg, k, h, want, Told(ns, k), NEW, q1), w, UpdatingCm(k, {NEW}, NEW, 0));
    PutBack(cfg, reach, Lone(cfg, k, h, want, Told(ns, k), NEW, q1), w, k);
    assert AllIdle(cfg)[w := Idle] == AllIdle(cfg);
    Next(cfg, reach, Lone(cfg, k, h, want, Told(ns, k), NEW, q2), Fire(k));
    HearOfPods(cfg, reach, Lone(cfg, k, h, want, Told(ns, k), NEW, q3), k);
  }

  /** A reconcile that finds its leader in the cached object leaves the server as it is. */
  lemma TrustInVain(cfg: Config, reach: iset<State>, s: State, w: nat, k: string, want: StatefulSet, ip: string)
    requires Closed(cfg, reach) && s in reach && w in s.workers && s.workers[w] == Idle && s.q == Queue([k], {k}, {}, {}, false)
    requires k in s.reg.store && cfg.desired(s.reg.store[k]) == Some(want) && k in s.fleet.stss && s.fleet.stss[k] == want
    requires RunIPs(s.fleet.pods, cfg.ns(k)) == {ip} && s.peers == PeersWith(cfg.ns(k), ip)
    ensures s.(q := EMPTY) in reach
  {
    TakeAndList(cfg, reach, s, w, k, want, {ip}, ip);
    var s1 := s.(q := Queue([], {}, {k}, {}, false));
    assert s.q.Take().1 == s1.q;
    ToReading(cfg, reach, s1, w, k, {ip}, ip);
    MoveCm(cfg, reach, s1, w, Reading(k, {ip}, ip, 0), s1.peers, Releasing(k));
    Release(cfg, reach, s1, w, k);
    assert s1.q.Done(k) == EMPTY && s.(q := EMPTY).At(w, Idle) == s.(q := EMPTY);
  }

  /** The retry after a failed update finds the new address in the cached object. */
  lemma DropRun(cfg: Config, reach: iset<State>, k: string, w: nat, h: Habitat, want: StatefulSet) returns (t: State)
    requires HoldsStarts(cfg, reach) && Closed(cfg, reach) && Deploys(cfg, k, h, want)
    requires UpdateCm in cfg.mayFail && w in cfg.workers
    ensures t in reach && Stuck(cfg, t, cfg.ns(k)) && t == Lone(cfg, k, h, want, [], NEW, EMPTY)
  {
    ReachRetry(cfg, reach, k, w, h, want);
    OnePodRuns(cfg.ns(k), k, want, false);
    TrustInVain(cfg, reach, Lone(cfg, k, h, want, [], NEW, Queue([k], {k}, {}, {}, false)), w, k, want, NEW);
    t := Lone(cfg, k, h, want, [], NEW, EMPTY);
    OldEntryIsWrong(cfg, t, k, want);
  }

  // ---------- A leader without an owner ----------

  /** The one running pod is nobody's: its labels lead to no Habitat. */
  function Stray(ns: string, phase: Phase): map<nat, Instance> {
    map[0 := Instance(ns, None, phase, OLD, None, false)]
  }

  lemma StrayRuns(ns: string)
    ensures RunIPs(Stray(ns, Running), ns) == {OLD} && RunIPs(Stray(ns, Failed), ns) == {}
  {
    assert RunsIn(Stray(ns, Running), 0, ns) && Stray(ns, Running)[0].ip == OLD;
  }

  /** One Habitat and a stray pod, which the entry names. */
  function Visit(cfg: Config, k: string, h: Habitat, want: StatefulSet, phase: Phase, events: seq<PodEvent>, q: Queue): State {
    State(Registry(map[k := h], map[k := h], [], []), Cluster(map[k := want], Stray(cfg.ns(k), phase), events),
          PeersWith(cfg.ns(k), OLD), q, AllIdle(cfg))
  }

  /** The reconcile takes the stray pod for the leader, and nobody is woken when it dies. */
  lemma StrayRun(cfg: Config, reach: iset<State>, k: string, w: nat, h: Habitat, want: StatefulSet) returns (t: State)
    requires HoldsStarts(cfg, reach) && Closed(cfg, reach) && Deploys(cfg, k, h, want)
    requires cfg.ns(k) in cfg.strays && w in cfg.workers
    ensures t in reach && Stuck(cfg, t, cfg.ns(k))
  {
    var ns, habs, events := cfg.ns(k), map[k := h], [HabEvent(k, h)];
    var fleet := Cluster(map[k := want], Stray(ns, Running), []);
    assert events[0] == HabEvent(k, h) && events[1..] == [];
    Opening(cfg, reach, habs, events, ns, fleet);
    Introduce(cfg, reach, Opened(cfg, habs, events, ns, fleet), k, h);
    var q := Queue([k], {k}, {}, {}, false);
    assert EMPTY.Add(k) == q;
    StrayRuns(ns);
    TrustInVain(cfg, reach, Visit(cfg, k, h, want, Running, [], q), w, k, want, OLD);
    t := StrayDies(cfg, reach, k, h, want);
  }

  lemma StrayDies(cfg: Config, reach: iset<State>, k: string, h: Habitat, want: StatefulSet) returns (t: State)
    requires Closed(cfg, reach) && Deploys(cfg, k, h, want) && Visit(cfg, k, h, want, Running, [], EMPTY) in reach
    ensures t in reach && Stuck(cfg, t, cfg.ns(k))
  {
    var ns := cfg.ns(k);
    var s, dead := Visit(cfg, k, h, want, Running, [], EMPTY), Stray(ns, Failed)[0];
    Change(cfg, reach, s, 0, dead);
    assert s.fleet.PutPod(0, dead, true) == Cluster(map[k := want], Stray(ns, Failed), [PodEvent(ns, None, true)]);
    Next(cfg, reach, Visit(cfg, k, h, want, Failed, [PodEvent(ns, None, true)], EMPTY), DeliverPod);
    t := Visit(cfg, k, h, want, Failed, [], EMPTY);
    assert [PodEvent(ns, None, true)][1..] == [];
    StrayRuns(ns);
    assert k in t.reg.habs;
  }

  // ---------- Exactly when no repair is lost ----------

  /** The reachable states of a configuration all keep their repairs if, and only if, it is safe. */
  lemma RepairsAreKeptExactlyIfSafe(cfg: Config)
    ensures (forall s, ns :: Reachable(cfg, s) ==> Repairing(cfg, s, ns)) <==> SafeConfig(cfg)
  {
    if SafeConfig(cfg) {
      forall s, ns | Reachable(cfg, s) ensures Repairing(cfg, s, ns) {
        SafeConfigsAreSound(cfg, s, ns);
      }
    } else {
      var s, ns := Unsafe(cfg);
      QuietCarriesNothing(cfg, s, ns);
      assert Reachable(cfg, s) && !Repairing(cfg, s, ns);
    }
  }

  /** An unsafe configuration can come to rest with a wrong entry. */
  lemma Unsafe(cfg: Config) returns (s: State, ns: string)
    requires !SafeConfig(cfg)
    ensures Reachable(cfg, s) && Stuck(cfg, s, ns)
  {
    var reach := ReachableSet(cfg);
    s, ns := Rest(cfg, reach);
  }

  lemma ReachableSet(cfg: Config) returns (reach: iset<State>)
    ensures HoldsStarts(cfg, reach) && Closed(cfg, reach) && forall s :: s in reach ==> Reachable(cfg, s)
  {
    reach := iset s | Reachable(cfg, s);
    forall s | Init(cfg, s) ensures s in reach { StartReachable(cfg, s); }
    forall s, step | s in reach && Enabled(cfg, s, step) ensures Apply(cfg, s, step) in reach {
      var start :| ReachableFrom(cfg, start, s);
      NextReachable(cfg, start, s, step);
    }
    ClosedUnderSteps(cfg, reach);
  }

  lemma Deploy(cfg: Config, k: string) returns (h: Habitat, want: StatefulSet)
    requires k in cfg.keys && Compiles(cfg, k)
    ensures Deploys(cfg, k, h, want)
  {
    h :| Names(cfg, k, h) && Ours(h) && cfg.desired(h).Some?;
    want := cfg.desired(h).value;
  }

  lemma Rest(cfg: Config, reach: iset<State>) returns (s: State, ns: string)
    requires HoldsStarts(cfg, reach) && Closed(cfg, reach) && !SafeConfig(cfg)
    ensures s in reach && Stuck(cfg, s, ns)
  {
    var w: nat :| w in cfg.workers;
    if UpdateCm in cfg.mayFail {
      var k :| k in cfg.keys && Compiles(cfg, k);
      var h, want := Deploy(cfg, k);
      ns := cfg.ns(k);
      s := DropRun(cfg, reach, k, w, h, want);
    } else if Visited(cfg) {
      var k :| k in cfg.keys && Compiles(cfg, k) && cfg.ns(k) in cfg.strays;
      var h, want := Deploy(cfg, k);
      ns := cfg.ns(k);
      s := StrayRun(cfg, reach, k, w, h, want);
    } else {
      s, ns := Shared(cfg, reach);
    }
  }

  lemma Shared(cfg: Config, reach: iset<State>) returns (s: State, ns: string)
    requires HoldsStarts(cfg, reach) && Closed(cfg, reach) && Shares(cfg)
    ensures s in reach && Stuck(cfg, s, ns)
  {
    var j, k :| j in cfg.keys && k in cfg.keys && j != k && Compiles(cfg, j) && Compiles(cfg, k) && cfg.ns(j) == cfg.ns(k);
    var v, w: nat :| v in cfg.workers && w in cfg.workers && v != w;
    var g, before := Deploy(cfg, j);
    var h, after := Deploy(cfg, k);
    ns := cfg.ns(j);
    s := ClashRun(cfg, reach, map[j := g, k := h], map[j := before, k := after], j, k, v, w);
  }
}
