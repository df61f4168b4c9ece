/**
  What a repair in a worker's hands is worth: a worker that begins a reconcile and then makes its steps
  undisturbed, with its cache in step and no call failing, leaves the StatefulSet as desired and the
  peer entry right.
*/
module LoneReconcile {
  import opened Types
  import opened Protocol
  import opened Stretches

  /** Worker `w` alone takes `s` to `t`, no call failing. */
  ghost predicate AloneTo(cfg: Config, w: nat, s: State, t: State) {
    exists states: seq<State>, leaders: seq<string> :: AloneRun(cfg, w, states, leaders) && states[0] == s && states[|leaders|] == t
  }

  ghost predicate AloneRun(cfg: Config, w: nat, states: seq<State>, leaders: seq<string>) {
    && |states| == |leaders| + 1
    && forall i :: 0 <= i < |leaders| ==>
         WorkEnabled(cfg, states[i], w, leaders[i], false) && states[i + 1] == WorkStep(cfg, states[i], w, leaders[i], false)
  }

  lemma AloneSet(cfg: Config, w: nat, s: State) returns (reach: iset<State>)
    ensures Alone(cfg, reach, w) && s in reach && forall t :: t in reach ==> AloneTo(cfg, w, s, t)
  {
    reach := iset t | AloneTo(cfg, w, s, t);
    assert AloneRun(cfg, w, [s], []);
    forall t, leader | t in reach && WorkEnabled(cfg, t, w, leader, false) ensures WorkStep(cfg, t, w, leader, false) in reach {
      var states: seq<State>, leaders: seq<string> :| AloneRun(cfg, w, states, leaders) && states[0] == s && states[|leaders|] == t;
      var states', leaders' := states + [WorkStep(cfg, t, w, leader, false)], leaders + [leader];
      assert AloneRun(cfg, w, states', leaders') && states'[0] == s && states'[|leaders'|] == WorkStep(cfg, t, w, leader, false);
    }
  }

  /** The informer's object is the server's, and nobody has written into it since. */
  predicate CacheInStep(peers: Peers, ns: string) {
    ns in peers.cms ==>
      && ns in peers.store && peers.Current(peers.store[ns]) && peers.heap[peers.store[ns]].ns == ns
      && peers.heap[peers.store[ns]].entry == peers.cms[ns].entry
  }

  /** The pods as they are when the StatefulSet has been dealt with: some may be on their way out. */
  predicate SamePods(fleet: Fleet, fleet': Fleet) {
    && fleet'.pods.Keys == fleet.pods.Keys
    && forall id :: id in fleet.pods ==> fleet'.pods[id] == fleet.pods[id].(terminating := fleet'.pods[id].terminating)
  }

  lemma StsPhase(cfg: Config, reach: iset<State>, s: State, w: nat, k: string, want: StatefulSet) returns (left: Fleet)
    requires Alone(cfg, reach, w) && w in s.workers && s.At(w, Start(k)) in reach
    requires k in s.reg.store && cfg.desired(s.reg.store[k]) == Some(want)
    ensures s.(fleet := left).At(w, Listing(k)) in reach
    ensures SamePods(s.fleet, left) && left.stss == s.fleet.stss[k := want]
  {
    MoveSts(cfg, reach, s, w, Start(k), s.fleet, CreatingSts(k, want));
    left := s.fleet.PutSts(k, want);
    if k !in s.fleet.stss {
      MoveSts(cfg, reach, s, w, CreatingSts(k, want), left, Listing(k));
    } else {
      var before := s.fleet.stss[k];
      MoveSts(cfg, reach, s, w, CreatingSts(k, want), s.fleet, GettingSts(k, want));
      MoveSts(cfg, reach, s, w, GettingSts(k, want), s.fleet, UpdatingSts(k, want, before));
      if before.spec.template == want.spec.template {
        MoveSts(cfg, reach, s, w, UpdatingSts(k, want, before), left, Listing(k));
      } else {
        MoveSts(cfg, reach, s, w, UpdatingSts(k, want, before), left, Killing(k));
        MoveSts(cfg, reach, s.(fleet := left), w, Killing(k), left.Kill(k), Listing(k));
        left := left.Kill(k);
      }
    }
  }

  lemma CmPhase(cfg: Config, reach: iset<State>, s: State, w: nat, k: string, ips: set<string>, leader: string) returns (written: Peers)
    requires Alone(cfg, reach, w) && w in s.workers && s.At(w, CreatingCm(k, ips, leader)) in reach
    requires Valid(leader, ips) && CacheInStep(s.peers, cfg.ns(k))
    ensures s.(peers := written).At(w, Releasing(k)) in reach
    ensures cfg.ns(k) in written.cms && Valid(written.cms[cfg.ns(k)].entry, ips)
  {
    var ns := cfg.ns(k);
    written := s.peers;
    if ns !in written.cms {
      written := written.Put(ns, leader);
      MoveCm(cfg, reach, s, w, CreatingCm(k, ips, leader), written, Releasing(k));
    } else {
      var obj := written.store[ns];
      MoveCm(cfg, reach, s, w, CreatingCm(k, ips, leader), written, FindingCm(k, ips, leader));
      if ips != {} && written.heap[obj].entry in ips {
        MoveCm(cfg, reach, s, w, FindingCm(k, ips, leader), written, Reading(k, ips, leader, obj));
        MoveCm(cfg, reach, s, w, Reading(k, ips, leader, obj), written, Releasing(k));
      } else {
        if ips == {} {
          MoveCm(cfg, reach, s, w, FindingCm(k, ips, leader), written, Assigning(k, ips, leader, obj));
        } else {
          MoveCm(cfg, reach, s, w, FindingCm(k, ips, leader), written, Reading(k, ips, leader, obj));
          MoveCm(cfg, reach, s, w, Reading(k, ips, leader, obj), written, Assigning(k, ips, leader, obj));
        }
        written := WritePhase(cfg, reach, s, w, k, ips, leader, obj);
      }
    }
  }

  lemma WritePhase(cfg: Config, reach: iset<State>, s: State, w: nat, k: string, ips: set<string>, leader: string, obj: nat) returns (written: Peers)
    requires Alone(cfg, reach, w) && w in s.workers && s.At(w, Assigning(k, ips, leader, obj)) in reach
    requires s.peers.Current(obj) && s.peers.heap[obj].ns == cfg.ns(k)
    ensures s.(peers := written).At(w, Releasing(k)) in reach
    ensures cfg.ns(k) in written.cms && written.cms[cfg.ns(k)].entry == leader
  {
    written := s.peers.Assign(obj, leader);
    MoveCm(cfg, reach, s, w, Assigning(k, ips, leader, obj), written, UpdatingCm(k, ips, leader, obj));
    var s' := s.(peers := written);
    if written.cms[cfg.ns(k)].entry != leader { written := written.Put(cfg.ns(k), leader); }
    MoveCm(cfg, reach, s', w, UpdatingCm(k, ips, leader, obj), written, Releasing(k));
  }

  /** A leader can be chosen from every list. */
  lemma SomeLeader(ips: set<string>) returns (leader: string)
    ensures Valid(leader, ips)
  {
    leader := "";
    if ips != {} { leader :| leader in ips; }
  }

  /** The undisturbed reconcile ends with the desired StatefulSet and a right entry, and its key is let go. */
  lemma AloneItRepairs(cfg: Config, s: State, w: nat) returns (t: State)
    requires w in s.workers && s.workers[w].Start? && CacheInStep(s.peers, cfg.ns(s.workers[w].key))
    requires s.workers[w].key in s.reg.store && cfg.desired(s.reg.store[s.workers[w].key]).Some?
    ensures AloneTo(cfg, w, s, t) && t.workers == s.workers[w := Idle] && t.q == s.q.Done(s.workers[w].key)
    ensures GoodEntry(t, cfg.ns(s.workers[w].key))
    ensures t.fleet.stss == s.fleet.stss[s.workers[w].key := cfg.desired(s.reg.store[s.workers[w].key]).value]
  {
    var k, want := s.workers[w].key, cfg.desired(s.reg.store[s.workers[w].key]).value;
    var reach := AloneSet(cfg, w, s);
    assert s.At(w, Start(k)) == s;
    var fleet := StsPhase(cfg, reach, s, w, k, want);
    var s1 := s.(fleet := fleet);
    var ips := RunIPs(fleet.pods, cfg.ns(k));
    var leader := SomeLeader(ips);
    ChooseLeader(cfg, reach, s1, w, k, ips, leader);
    var peers := CmPhase(cfg, reach, s1, w, k, ips, leader);
    var s2 := s1.(peers := peers);
    Release(cfg, reach, s2, w, k);
    t := s2.(q := s2.q.Done(k)).At(w, Idle);
  }
}
