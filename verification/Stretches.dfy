/** Stretches of a run, as closure properties of a set of states. */
module Stretches {
  import opened Types
  import opened Protocol

  /** No step of this worker without a failing call leaves the set. */
  ghost predicate Alone(cfg: Config, reach: iset<State>, w: nat) {
    forall s, leader :: s in reach && WorkEnabled(cfg, s, w, leader, false) ==> WorkStep(cfg, s, w, leader, false) in reach
  }

  /** No step at all leaves the set. */
  ghost predicate Closed(cfg: Config, reach: iset<State>) {
    && (forall w :: Alone(cfg, reach, w))
    && (forall s, step :: s in reach && Enabled(cfg, s, step) ==> Apply(cfg, s, step) in reach)
  }

  ghost predicate HoldsStarts(cfg: Config, reach: iset<State>) {
    forall s :: Init(cfg, s) ==> s in reach
  }

  lemma ClosedUnderSteps(cfg: Config, reach: iset<State>)
    requires forall s, step :: s in reach && Enabled(cfg, s, step) ==> Apply(cfg, s, step) in reach
    ensures Closed(cfg, reach)
  {
    forall w, s, leader | s in reach && WorkEnabled(cfg, s, w, leader, false) ensures WorkStep(cfg, s, w, leader, false) in reach {
      assert Enabled(cfg, s, Work(w, leader, false));
    }
  }

  lemma Next(cfg: Config, reach: iset<State>, s: State, step: Step)
    requires Closed(cfg, reach) && s in reach && Enabled(cfg, s, step)
    ensures Apply(cfg, s, step) in reach
  {
  }

  lemma Introduce(cfg: Config, reach: iset<State>, s: State, k: string, h: Habitat)
    requires Closed(cfg, reach) && s in reach && s.reg.events != [] && s.reg.events[0] == HabEvent(k, h)
    requires s.reg.notes == [] && k !in s.reg.store && Names(cfg, k, h) && Ours(h)
    ensures s.(reg := Registry(s.reg.habs, s.reg.store[k := h], s.reg.events[1..], []), q := s.q.Add(k)) in reach
  {
    Next(cfg, reach, s, DeliverHab);
    var s1 := Apply(cfg, s, DeliverHab);
    assert s1.reg.notes == [HabNote(h, true, false)] && s1.reg.notes[1..] == [];
    Next(cfg, reach, s1, NotifyHab);
  }

  lemma Fail(cfg: Config, reach: iset<State>, s: State, w: nat, pc: Pc)
    requires Closed(cfg, reach) && w in s.workers && CallsOf(pc) * cfg.mayFail != {} && s.At(w, pc) in reach
    ensures s.At(w, Failing(pc.key)) in reach
  {
    Next(cfg, reach, s.At(w, pc), Work(w, "", true));
    assert s.At(w, pc).At(w, Failing(pc.key)) == s.At(w, Failing(pc.key));
  }

  // ---------- Steps of one worker ----------

  lemma WorkReachable(cfg: Config, reach: iset<State>, s: State, w: nat, leader: string, t: State)
    requires Alone(cfg, reach, w) && s in reach && WorkEnabled(cfg, s, w, leader, false) && t == WorkStep(cfg, s, w, leader, false)
    ensures t in reach
  {
  }

  lemma MoveSts(cfg: Config, reach: iset<State>, s: State, w: nat, pc: Pc, fleet: Fleet, pc': Pc)
    requires Alone(cfg, reach, w) && w in s.workers && OnSts(pc) && StsStep(cfg, s.reg.store, s.fleet, pc) == (fleet, pc')
    requires s.At(w, pc) in reach
    ensures s.(fleet := fleet).At(w, pc') in reach
  {
    assert s.(fleet := fleet).At(w, pc).At(w, pc') == s.(fleet := fleet).At(w, pc');
    WorkReachable(cfg, reach, s.At(w, pc), w, "", s.(fleet := fleet).At(w, pc'));
  }

  lemma MoveCm(cfg: Config, reach: iset<State>, s: State, w: nat, pc: Pc, peers: Peers, pc': Pc)
    requires Alone(cfg, reach, w) && w in s.workers && OnCm(pc) && CmStep(cfg.ns(pc.key), s.peers, pc) == (peers, pc')
    requires s.At(w, pc) in reach
    ensures s.(peers := peers).At(w, pc') in reach
  {
    assert s.(peers := peers).At(w, pc).At(w, pc') == s.(peers := peers).At(w, pc');
    WorkReachable(cfg, reach, s.At(w, pc), w, "", s.(peers := peers).At(w, pc'));
  }

  /** A worker finds its Habitat's StatefulSet up to date. */
  lemma StsInStep(cfg: Config, reach: iset<State>, s: State, w: nat, k: string, want: StatefulSet)
    requires Alone(cfg, reach, w) && w in s.workers && s.At(w, Start(k)) in reach
    requires k in s.reg.store && cfg.desired(s.reg.store[k]) == Some(want) && k in s.fleet.stss && s.fleet.stss[k] == want
    ensures s.At(w, Listing(k)) in reach
  {
    MoveSts(cfg, reach, s, w, Start(k), s.fleet, CreatingSts(k, want));
    MoveSts(cfg, reach, s, w, CreatingSts(k, want), s.fleet, GettingSts(k, want));
    MoveSts(cfg, reach, s, w, GettingSts(k, want), s.fleet, UpdatingSts(k, want, want));
    MoveSts(cfg, reach, s, w, UpdatingSts(k, want, want), s.fleet, Listing(k));
  }

  lemma ChooseLeader(cfg: Config, reach: iset<State>, s: State, w: nat, k: string, ips: set<string>, leader: string)
    requires Alone(cfg, reach, w) && w in s.workers && s.At(w, Listing(k)) in reach
    requires RunIPs(s.fleet.pods, cfg.ns(k)) == ips && Valid(leader, ips)
    ensures s.At(w, CreatingCm(k, ips, leader)) in reach
  {
    assert s.At(w, Listing(k)).At(w, CreatingCm(k, ips, leader)) == s.At(w, CreatingCm(k, ips, leader));
    WorkReachable(cfg, reach, s.At(w, Listing(k)), w, leader, s.At(w, CreatingCm(k, ips, leader)));
  }

  /** A worker takes the only queued key, finds its StatefulSet up to date, and lists the pods. */
  lemma TakeAndList(cfg: Config, reach: iset<State>, s: State, w: nat, k: string, want: StatefulSet, ips: set<string>, leader: string)
    requires Alone(cfg, reach, w) && s in reach && w in s.workers && s.workers[w] == Idle && s.q.queue == [k]
    requires k in s.reg.store && cfg.desired(s.reg.store[k]) == Some(want) && k in s.fleet.stss && s.fleet.stss[k] == want
    requires RunIPs(s.fleet.pods, cfg.ns(k)) == ips && Valid(leader, ips)
    ensures s.(q := s.q.Take().1).At(w, CreatingCm(k, ips, leader)) in reach
  {
    var t := s.(q := s.q.Take().1);
    WorkReachable(cfg, reach, s, w, "", t.At(w, Start(k)));
    StsInStep(cfg, reach, t, w, k, want);
    ChooseLeader(cfg, reach, t, w, k, ips, leader);
  }

  /** From the list to the cached object, which is read when the list is not empty. */
  lemma ToReading(cfg: Config, reach: iset<State>, s: State, w: nat, k: string, ips: set<string>, leader: string)
    requires Alone(cfg, reach, w) && w in s.workers && s.At(w, CreatingCm(k, ips, leader)) in reach && ips != {}
    requires cfg.ns(k) in s.peers.cms && cfg.ns(k) in s.peers.store
    ensures s.At(w, Reading(k, ips, leader, s.peers.store[cfg.ns(k)])) in reach
  {
    MoveCm(cfg, reach, s, w, CreatingCm(k, ips, leader), s.peers, FindingCm(k, ips, leader));
    MoveCm(cfg, reach, s, w, FindingCm(k, ips, leader), s.peers, Reading(k, ips, leader, s.peers.store[cfg.ns(k)]));
  }

  /** The old leader is not in the list: the new one is written into the cached object. */
  lemma ToUpdating(cfg: Config, reach: iset<State>, s: State, w: nat, k: string, ips: set<string>, leader: string, obj: nat)
    requires Alone(cfg, reach, w) && w in s.workers && s.At(w, CreatingCm(k, ips, leader)) in reach && ips != {}
    requires cfg.ns(k) in s.peers.cms && cfg.ns(k) in s.peers.store && s.peers.store[cfg.ns(k)] == obj
    requires obj < |s.peers.heap| && s.peers.heap[obj].entry !in ips
    ensures s.(peers := s.peers.Assign(obj, leader)).At(w, UpdatingCm(k, ips, leader, obj)) in reach
  {
    ToReading(cfg, reach, s, w, k, ips, leader);
    MoveCm(cfg, reach, s, w, Reading(k, ips, leader, obj), s.peers, Assigning(k, ips, leader, obj));
    MoveCm(cfg, reach, s, w, Assigning(k, ips, leader, obj), s.peers.Assign(obj, leader), UpdatingCm(k, ips, leader, obj));
  }

  lemma Release(cfg: Config, reach: iset<State>, s: State, w: nat, k: string)
    requires Alone(cfg, reach, w) && w in s.workers && s.At(w, Releasing(k)) in reach
    ensures s.(q := s.q.Done(k)).At(w, Idle) in reach
  {
    assert s.(q := s.q.Done(k)).At(w, Releasing(k)).At(w, Idle) == s.(q := s.q.Done(k)).At(w, Idle);
    WorkReachable(cfg, reach, s.At(w, Releasing(k)), w, "", s.(q := s.q.Done(k)).At(w, Idle));
  }

  /** The object holds what the server holds: the update changes nothing. */
  lemma UpdateNothing(cfg: Config, reach: iset<State>, s: State, w: nat, pc: Pc)
    requires Alone(cfg, reach, w) && pc.UpdatingCm? && w in s.workers && s.At(w, pc) in reach
    requires s.peers.Current(pc.obj) && s.peers.heap[pc.obj].ns == cfg.ns(pc.key)
    requires s.peers.cms[cfg.ns(pc.key)].entry == s.peers.heap[pc.obj].entry
    ensures s.(q := s.q.Done(pc.key)).At(w, Idle) in reach
  {
    MoveCm(cfg, reach, s, w, pc, s.peers, Releasing(pc.key));
    Release(cfg, reach, s, w, pc.key);
  }

  /** The worker backs its key off and lets it go. */
  lemma PutBack(cfg: Config, reach: iset<State>, s: State, w: nat, k: string)
    requires Alone(cfg, reach, w) && w in s.workers && s.At(w, Failing(k)) in reach
    ensures s.(q := s.q.AddRateLimited(k).Done(k)).At(w, Idle) in reach
  {
    var s1 := s.(q := s.q.AddRateLimited(k));
    assert s1.At(w, Failing(k)).At(w, Releasing(k)) == s1.At(w, Releasing(k));
    WorkReachable(cfg, reach, s.At(w, Failing(k)), w, "", s1.At(w, Releasing(k)));
    Release(cfg, reach, s1, w, k);
  }
}
