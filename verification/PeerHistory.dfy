/**
  Where the values of the peer entries come from: whatever the caches, the conflicts and the shared
  cached objects do, an entry was chosen by a worker from the pods that ran in that namespace when it
  listed them, or was there before, or was written by the outside. And every version has one writer.
*/
module PeerHistory {
  import opened Protocol
  import opened ProtocolInv
  import opened ProtocolPeers

  // ---------- Sources ----------

  /** A value for a namespace's peer entry. */
  datatype Fact = Fact(ns: string, ip: string)

  /** A worker lists the running pods of the namespace and chooses `ip`, "" exactly if there is none. */
  predicate Chooses(cfg: Config, s: State, step: Step, ns: string, ip: string) {
    && step.Work? && !step.fault && step.w in s.workers && s.workers[step.w].Listing?
    && cfg.ns(s.workers[step.w].key) == ns
    && step.leader == ip && Valid(ip, RunIPs(s.fleet.pods, ns))
  }

  predicate Source(cfg: Config, s: State, step: Step, ns: string, ip: string) {
    Chooses(cfg, s, step, ns, ip) || step == EditCm(ns, ip)
  }

  predicate InitialEntry(s: State, ns: string, ip: string) {
    ns in s.peers.cms && s.peers.cms[ns].entry == ip
  }

  /** The value was in the namespace's entry at the start, or has a source among the first `n` steps. */
  ghost predicate HasSource(cfg: Config, states: seq<State>, steps: seq<Step>, n: nat, ns: string, ip: string)
    requires n <= |steps| && |states| == |steps| + 1
  {
    || InitialEntry(states[0], ns, ip)
    || exists i: nat :: i < n && Source(cfg, states[i], steps[i], ns, ip)
  }

  // ---------- One step ----------

  /** Every value that is stored, under way or cached is known for its namespace. */
  ghost predicate PeersKnown(peers: Peers, known: iset<Fact>) {
    && (forall ns :: ns in peers.cms ==> Fact(ns, peers.cms[ns].entry) in known)
    && (forall e :: e in peers.events && e.cm.Some? ==> Fact(e.ns, e.cm.value.entry) in known)
    && (forall o: nat :: o < |peers.heap| ==> Fact(peers.heap[o].ns, peers.heap[o].entry) in known)
  }

  /** So is every leader that a worker is about to write. */
  ghost predicate LeadersKnown(cfg: Config, workers: map<nat, Pc>, known: iset<Fact>) {
    forall w :: w in workers && HasList(workers[w]) ==> Fact(cfg.ns(workers[w].key), workers[w].leader) in known
  }

  ghost predicate AllKnown(cfg: Config, s: State, known: iset<Fact>) {
    PeersKnown(s.peers, known) && LeadersKnown(cfg, s.workers, known)
  }

  lemma StepKeepsKnown(cfg: Config, s: State, step: Step, known: iset<Fact>, known': iset<Fact>)
    requires Inv(cfg, s) && Enabled(cfg, s, step) && AllKnown(cfg, s, known) && known <= known'
    requires forall ns, ip :: Source(cfg, s, step, ns, ip) ==> Fact(ns, ip) in known'
    ensures AllKnown(cfg, Apply(cfg, s, step), known')
  {
    if step.Work? {
      WorkKeepsKnown(cfg, s, step.w, step.leader, step.fault, known, known');
    } else {
      OutsideGrows(cfg, s, step);
      if step.EditCm? { assert Source(cfg, s, step, step.ns, step.entry); }
      OutsideKeepsKnown(cfg, s, step, known');
    }
  }

  lemma DeliverKeepsKnown(peers: Peers, known: iset<Fact>)
    requires PeersInv(peers) && PeersKnown(peers, known) && peers.events != []
    ensures PeersKnown(peers.Deliver(), known)
  {
    DeliverKeepsVersions(peers);
    assert peers.events[0] in peers.events;
  }

  lemma OutsideKeepsKnown(cfg: Config, s: State, step: Step, known: iset<Fact>)
    requires PeersInv(s.peers) && PeersKnown(s.peers, known) && Enabled(cfg, s, step) && !step.Work?
    requires step.EditCm? ==> Fact(step.ns, step.entry) in known
    ensures PeersKnown(Apply(cfg, s, step).peers, known)
  {
    if step.DeliverCm? { DeliverKeepsKnown(s.peers, known); }
  }

  lemma CmStepKeepsKnown(ns: string, peers: Peers, pc: Pc, known: iset<Fact>)
    requires PeersKnown(peers, known) && OnCm(pc) && Fact(ns, pc.leader) in known
    requires HasObj(pc) ==> pc.obj < |peers.heap| && peers.heap[pc.obj].ns == ns
    ensures PeersKnown(CmStep(ns, peers, pc).0, known)
  {
  }

  /** A leader that a worker has after its step it had before, or has just chosen. */
  lemma LeaderKeptOrChosen(cfg: Config, s: State, w: nat, leader: string, fault: bool)
    requires WorkEnabled(cfg, s, w, leader, fault)
    ensures var pc, pc' := s.workers[w], WorkStep(cfg, s, w, leader, fault).workers[w];
            HasList(pc') ==>
              && pc'.key == pc.key
              && ((HasList(pc) && pc'.leader == pc.leader) || Chooses(cfg, s, Work(w, leader, fault), cfg.ns(pc.key), pc'.leader))
  {
  }

  lemma WorkKeepsKnown(cfg: Config, s: State, w: nat, leader: string, fault: bool, known: iset<Fact>, known': iset<Fact>)
    requires HeldInv(cfg, s) && WorkEnabled(cfg, s, w, leader, fault) && AllKnown(cfg, s, known) && known <= known'
    requires forall ns, ip :: Source(cfg, s, Work(w, leader, fault), ns, ip) ==> Fact(ns, ip) in known'
    ensures AllKnown(cfg, WorkStep(cfg, s, w, leader, fault), known')
  {
    var pc, s' := s.workers[w], WorkStep(cfg, s, w, leader, fault);
    WorkMoves(cfg, s, w, leader, fault);
    LeaderKeptOrChosen(cfg, s, w, leader, fault);
    if HasList(s'.workers[w]) && !HasList(pc) {
      assert Source(cfg, s, Work(w, leader, fault), cfg.ns(pc.key), s'.workers[w].leader);
    }
    assert PcInv(cfg, s.peers, pc);
    MoveKeepsKnown(cfg, s.peers, pc, s'.peers, s'.workers[w], known);
  }

  lemma MoveKeepsKnown(cfg: Config, peers: Peers, pc: Pc, peers': Peers, pc': Pc, known: iset<Fact>)
    requires PeersKnown(peers, known) && PeersMove(cfg, peers, pc, peers', pc') && PcInv(cfg, peers, pc)
    requires HasList(pc) ==> Fact(cfg.ns(pc.key), pc.leader) in known
    ensures PeersKnown(peers', known)
  {
    if OnCm(pc) { CmStepKeepsKnown(cfg.ns(pc.key), peers, pc, known); }
  }

  // ---------- Runs ----------

  ghost function Known(cfg: Config, states: seq<State>, steps: seq<Step>, n: nat): iset<Fact>
    requires n <= |steps| && |states| == |steps| + 1
  {
    iset f: Fact | HasSource(cfg, states, steps, n, f.ns, f.ip)
  }

  lemma {:induction false} RunIsKnown(cfg: Config, states: seq<State>, steps: seq<Step>, n: nat)
    requires Run(cfg, states, steps) && n < |states|
    ensures AllKnown(cfg, states[n], Known(cfg, states, steps, n))
  {
    if n > 0 {
      RunIsKnown(cfg, states, steps, n - 1);
      var known, known' := Known(cfg, states, steps, n - 1), Known(cfg, states, steps, n);
      forall ns, ip | Source(cfg, states[n - 1], steps[n - 1], ns, ip) ensures Fact(ns, ip) in known' {
        assert HasSource(cfg, states, steps, n, ns, ip);
      }
      forall f | f in known ensures f in known' {
        assert HasSource(cfg, states, steps, n, f.ns, f.ip);
      }
      RunKeepsInv(cfg, states, steps, n - 1);
      StepKeepsKnown(cfg, states[n - 1], steps[n - 1], known, known');
    }
  }

  /** Every value ever stored in a namespace's peer entry has a source in that same namespace. */
  lemma EveryEntryHasASource(cfg: Config, states: seq<State>, steps: seq<Step>, n: nat, ns: string)
    requires Run(cfg, states, steps) && n < |states| && ns in states[n].peers.cms
    ensures HasSource(cfg, states, steps, n, ns, states[n].peers.cms[ns].entry)
  {
    RunIsKnown(cfg, states, steps, n);
  }

  /** From no ConfigMap, and with the operator as the only writer, every entry was chosen from a list. */
  lemma OperatorEntriesWereListed(cfg: Config, states: seq<State>, steps: seq<Step>, n: nat, ns: string)
    requires Run(cfg, states, steps) && n < |states| && ns in states[n].peers.cms
    requires states[0].peers.cms == map[] && forall i :: 0 <= i < |steps| ==> !steps[i].EditCm?
    ensures exists i: nat :: i < n && Chooses(cfg, states[i], steps[i], ns, states[n].peers.cms[ns].entry)
  {
    EveryEntryHasASource(cfg, states, steps, n, ns);
    var i: nat :| i < n && Source(cfg, states[i], steps[i], ns, states[n].peers.cms[ns].entry);
    assert Chooses(cfg, states[i], steps[i], ns, states[n].peers.cms[ns].entry);
  }

  // ---------- Versions ----------

  /** The step from `s` to `s'` gives a namespace's ConfigMap this version. */
  predicate Writes(s: State, s': State, ns: string, version: nat) {
    s.peers.clock < version == s'.peers.clock && ns in s'.peers.cms && s'.peers.cms[ns].version == version
  }

  predicate WritesAt(states: seq<State>, i: nat, ns: string, version: nat) {
    i + 1 < |states| && Writes(states[i], states[i + 1], ns, version)
  }

  /** Step `i` wrote the ConfigMap, and no other step wrote any ConfigMap in that version. */
  ghost predicate SoleWriter(states: seq<State>, i: nat, ns: string, cm: Cm) {
    && WritesAt(states, i, ns, cm.version) && states[i + 1].peers.cms[ns] == cm
    && forall j: nat, m :: WritesAt(states, j, m, cm.version) ==> j == i
  }

  lemma StepWritesOrKeeps(cfg: Config, s: State, step: Step, ns: string)
    requires Enabled(cfg, s, step) && ns in Apply(cfg, s, step).peers.cms
    ensures var s' := Apply(cfg, s, step);
            Writes(s, s', ns, s'.peers.cms[ns].version) || (ns in s.peers.cms && s'.peers.cms[ns] == s.peers.cms[ns])
  {
  }

  lemma StepGrowsClock(cfg: Config, s: State, step: Step)
    requires Enabled(cfg, s, step)
    ensures s.peers.clock <= Apply(cfg, s, step).peers.clock
  {
  }

  lemma ClockSteps(cfg: Config, states: seq<State>, steps: seq<Step>)
    requires Run(cfg, states, steps)
    ensures forall k: nat :: k + 1 < |states| ==> states[k].peers.clock <= states[k + 1].peers.clock
  {
    forall k: nat | k + 1 < |states| ensures states[k].peers.clock <= states[k + 1].peers.clock {
      StepGrowsClock(cfg, states[k], steps[k]);
    }
  }

  lemma {:induction false} ClockGrows(states: seq<State>, i: nat, j: nat)
    requires forall k: nat :: k + 1 < |states| ==> states[k].peers.clock <= states[k + 1].peers.clock
    requires i <= j < |states|
    ensures states[i].peers.clock <= states[j].peers.clock
    decreases j - i
  {
    if i < j { ClockGrows(states, i + 1, j); }
  }

  lemma WritersAreOne(cfg: Config, states: seq<State>, steps: seq<Step>, i: nat, j: nat, m: string, ns: string, version: nat)
    requires Run(cfg, states, steps) && WritesAt(states, i, m, version) && WritesAt(states, j, ns, version)
    ensures i == j
  {
    ClockSteps(cfg, states, steps);
    if i < j { ClockGrows(states, i + 1, j); }
    if j < i { ClockGrows(states, j + 1, i); }
  }

  lemma {:induction false} WriterOf(cfg: Config, states: seq<State>, steps: seq<Step>, n: nat, ns: string) returns (i: nat)
    requires Run(cfg, states, steps) && n < |states| && ns in states[n].peers.cms
    ensures i < n ==> Writes(states[i], states[i + 1], ns, states[n].peers.cms[ns].version)
    ensures i >= n ==> ns in states[0].peers.cms && states[0].peers.cms[ns] == states[n].peers.cms[ns]
    ensures i < n ==> states[i + 1].peers.cms[ns] == states[n].peers.cms[ns]
  {
    i := n;
    if n > 0 {
      StepWritesOrKeeps(cfg, states[n - 1], steps[n - 1], ns);
      if Writes(states[n - 1], states[n], ns, states[n].peers.cms[ns].version) {
        i := n - 1;
      } else {
        i := WriterOf(cfg, states, steps, n - 1, ns);
        if i >= n - 1 { i := n; }
      }
    }
  }

  /** A ConfigMap on the server is the initial one, or exactly one step of the whole run wrote its version. */
  lemma VersionsHaveOneWriter(cfg: Config, states: seq<State>, steps: seq<Step>, n: nat, ns: string)
    requires Run(cfg, states, steps) && n < |states| && ns in states[n].peers.cms
    ensures var cm := states[n].peers.cms[ns];
            || (ns in states[0].peers.cms && states[0].peers.cms[ns] == cm)
            || (exists i: nat :: i < n && SoleWriter(states, i, ns, cm))
  {
    var cm := states[n].peers.cms[ns];
    var i := WriterOf(cfg, states, steps, n, ns);
    if i < n {
      forall j: nat, m | WritesAt(states, j, m, cm.version) ensures j == i {
        WritersAreOne(cfg, states, steps, j, i, m, ns, cm.version);
      }
      assert SoleWriter(states, i, ns, cm);
    }
  }

  // ---------- Compare-and-swap ----------

  /** At step `i` a worker's update, which carries `version`, changes the namespace's ConfigMap. */
  predicate Replaces(cfg: Config, states: seq<State>, steps: seq<Step>, i: nat, ns: string, version: nat) {
    && i < |steps| && i + 1 < |states| && steps[i].Work? && steps[i].w in states[i].workers
    && var pc := states[i].workers[steps[i].w];
       && pc.UpdatingCm? && cfg.ns(pc.key) == ns
       && pc.obj < |states[i].peers.heap| && states[i].peers.heap[pc.obj].version == version
       && states[i + 1].peers != states[i].peers
  }

  /** An update that changes something found the version it carries on the server, and leaves a newer one. */
  lemma UpdateSwaps(cfg: Config, s: State, w: nat, leader: string, fault: bool)
    requires PeersInv(s.peers) && WorkEnabled(cfg, s, w, leader, fault) && s.workers[w].UpdatingCm?
    requires WorkStep(cfg, s, w, leader, fault).peers != s.peers
    ensures var ns, obj, peers' := cfg.ns(s.workers[w].key), s.workers[w].obj, WorkStep(cfg, s, w, leader, fault).peers;
            && obj < |s.peers.heap| && ns in s.peers.cms && s.peers.cms[ns].version == s.peers.heap[obj].version <= s.peers.clock
            && ns in peers'.cms && peers'.cms[ns].version == peers'.clock == s.peers.clock + 1
  {
  }

  /** From one state to the next the clock does not go back, and a new version is newer than the clock was. */
  predicate Passes(peers: Peers, peers': Peers, ns: string) {
    && peers.clock <= peers'.clock
    && (ns in peers'.cms ==> peers.clock < peers'.cms[ns].version || (ns in peers.cms && peers'.cms[ns] == peers.cms[ns]))
  }

  lemma RunPasses(cfg: Config, states: seq<State>, steps: seq<Step>, ns: string)
    requires Run(cfg, states, steps)
    ensures forall k: nat :: k + 1 < |states| ==> Passes(states[k].peers, states[k + 1].peers, ns)
  {
    forall k: nat | k + 1 < |states| ensures Passes(states[k].peers, states[k + 1].peers, ns) {
      StepGrowsClock(cfg, states[k], steps[k]);
      if ns in states[k + 1].peers.cms { StepWritesOrKeeps(cfg, states[k], steps[k], ns); }
    }
  }

  /** A version that has been replaced never comes back. */
  lemma {:induction false} VersionsDoNotRecur(states: seq<State>, i: nat, j: nat, ns: string)
    requires forall k: nat :: k + 1 < |states| ==> Passes(states[k].peers, states[k + 1].peers, ns)
    requires i <= j < |states|
    requires ns in states[i].peers.cms ==> states[i].peers.cms[ns].version >= states[i].peers.clock
    ensures ns in states[j].peers.cms ==> states[j].peers.cms[ns].version >= states[i].peers.clock
    ensures states[i].peers.clock <= states[j].peers.clock
    decreases j
  {
    if i < j {
      VersionsDoNotRecur(states, i, j - 1, ns);
      assert Passes(states[j - 1].peers, states[j - 1 + 1].peers, ns);
    }
  }

  /** Of all updates that carry one version of a namespace's ConfigMap at most one changes it. */
  lemma OneUpdatePerVersion(cfg: Config, states: seq<State>, steps: seq<Step>, i: nat, j: nat, ns: string, version: nat)
    requires Run(cfg, states, steps)
    requires Replaces(cfg, states, steps, i, ns, version) && Replaces(cfg, states, steps, j, ns, version)
    ensures i == j
  {
    if i < j {
      LaterUpdatesDiffer(cfg, states, steps, i, j, ns, version);
    } else if j < i {
      LaterUpdatesDiffer(cfg, states, steps, j, i, ns, version);
    }
  }

  lemma StepTaken(cfg: Config, states: seq<State>, steps: seq<Step>, i: nat)
    requires Run(cfg, states, steps) && i < |steps|
    ensures Enabled(cfg, states[i], steps[i]) && states[i + 1] == Apply(cfg, states[i], steps[i]) && PeersInv(states[i].peers)
  {
    RunKeepsInv(cfg, states, steps, i);
  }

  lemma ReplacesSwaps(cfg: Config, states: seq<State>, steps: seq<Step>, i: nat, ns: string, version: nat)
    requires Run(cfg, states, steps) && Replaces(cfg, states, steps, i, ns, version)
    ensures ns in states[i].peers.cms && states[i].peers.cms[ns].version == version <= states[i].peers.clock
    ensures ns in states[i + 1].peers.cms && states[i + 1].peers.cms[ns].version == states[i + 1].peers.clock == states[i].peers.clock + 1
  {
    StepTaken(cfg, states, steps, i);
    UpdateSwaps(cfg, states[i], steps[i].w, steps[i].leader, steps[i].fault);
  }

  lemma LaterUpdatesDiffer(cfg: Config, states: seq<State>, steps: seq<Step>, i: nat, j: nat, ns: string, version: nat)
    requires Run(cfg, states, steps) && i < j && Replaces(cfg, states, steps, i, ns, version) && j < |steps|
    ensures !Replaces(cfg, states, steps, j, ns, version)
  {
    ReplacesSwaps(cfg, states, steps, i, ns, version);
    RunPasses(cfg, states, steps, ns);
    VersionsDoNotRecur(states, i + 1, j, ns);
    if Replaces(cfg, states, steps, j, ns, version) { ReplacesSwaps(cfg, states, steps, j, ns, version); }
  }
}
