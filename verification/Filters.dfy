/**
  The updates that the handlers ignore: they change neither what a Habitat compiles to nor, as long as
  running pods keep their addresses, the list from which leaders are chosen.
*/
module Filters {
  import opened Types
  import opened StatefulSets
  import opened Cluster
  import opened Handlers

  // ---------- Habitats ----------

  predicate SameObject(before: Habitat, after: Habitat) {
    before.ns == after.ns && before.name == after.name && before.uid == after.uid
  }

  /** A history of one Habitat in which every update is ignored. */
  predicate IgnoredUpdates(history: seq<Habitat>) {
    forall i :: 0 <= i < |history| - 1 ==>
      SameObject(history[i], history[i + 1]) && !HabitatNeedsUpdate(history[i], history[i + 1])
  }

  /** Both are invalid for the same reason, or compile to the same StatefulSet or the same error. */
  predicate CompileAlike(parse: QuantityParser, secrets: Secrets, g: Habitat, h: Habitat) {
    && ValidateCustomObject(g) == ValidateCustomObject(h)
    && (ValidateCustomObject(g).None? ==> Compile(parse, secrets, g) == Compile(parse, secrets, h))
  }

  lemma {:induction false} IgnoredUpdatesKeepSpec(history: seq<Habitat>, n: nat)
    requires IgnoredUpdates(history) && n < |history|
    ensures SameObject(history[0], history[n]) && history[n].v1beta2 == history[0].v1beta2
  {
    if n > 0 {
      IgnoredUpdatesKeepSpec(history, n - 1);
      assert SameObject(history[n - 1], history[n - 1 + 1]);
    }
  }

  /** Everything that compilation looks at is compared by the filter or identifies the object. */
  lemma SameSpecCompilesAlike(parse: QuantityParser, secrets: Secrets, g: Habitat, h: Habitat)
    requires SameObject(g, h) && g.v1beta2 == h.v1beta2
    ensures CompileAlike(parse, secrets, g, h)
  {
    assert g == h.(customVersion := g.customVersion);
  }

  /** A whole sequence of ignored updates changes nothing that a reconcile would write. */
  lemma IgnoredUpdatesCompileAlike(parse: QuantityParser, secrets: Secrets, history: seq<Habitat>, n: nat)
    requires IgnoredUpdates(history) && n < |history|
    ensures CompileAlike(parse, secrets, history[0], history[n])
  {
    IgnoredUpdatesKeepSpec(history, n);
    SameSpecCompilesAlike(parse, secrets, history[0], history[n]);
  }

  /**
    The filter does not look at the version: an ignored update leaves the Habitat's claim to the queue as
    it was exactly if it does not turn the Habitat into, or from, one of this controller's.
  */
  lemma IgnoredUpdateKeepsKeyExactly(before: Habitat, after: Habitat)
    requires SameObject(before, after) && !HabitatNeedsUpdate(before, after)
    ensures EnqueuedKey(before) == EnqueuedKey(after)
       <==> (CustomVersionMatches(before.customVersion) <==> CustomVersionMatches(after.customVersion))
  {
  }

  // ---------- Pods ----------

  /** The addresses a reconcile of the namespace chooses from, in order. */
  function RunningIPs(pods: seq<Pod>, ns: string): seq<string> {
    if pods == [] then []
    else (if IsRunning(pods[0], ns) then [pods[0].ip] else []) + RunningIPs(pods[1..], ns)
  }

  /** An update of a pod in place, of which the server's versions tell when nothing changed. */
  predicate PodUpdate(before: Pod, after: Pod) {
    && before.ns == after.ns && before.labels == after.labels
    && (before.resourceVersion == after.resourceVersion ==> before == after)
  }

  predicate Eligible(p: Pod) {
    IsRunning(p, p.ns)
  }

  lemma {:induction false} RunningIPsSplit(pods: seq<Pod>, i: nat, ns: string)
    requires i < |pods|
    ensures RunningIPs(pods, ns) ==
            RunningIPs(pods[..i], ns) + (if IsRunning(pods[i], ns) then [pods[i].ip] else []) + RunningIPs(pods[i + 1..], ns)
  {
    if i > 0 {
      RunningIPsSplit(pods[1..], i - 1, ns);
      assert pods[..i][1..] == pods[1..][..i - 1] && pods[1..][i..] == pods[i + 1..];
    }
  }

  /** An ignored update leaves every namespace's list alone exactly if it keeps the address of an eligible pod. */
  lemma IgnoredPodUpdateExactly(pods: seq<Pod>, i: nat, after: Pod)
    requires i < |pods| && PodUpdate(pods[i], after) && !PodNeedsUpdate(pods[i], after)
    ensures (forall ns :: RunningIPs(pods[i := after], ns) == RunningIPs(pods, ns))
       <==> (Eligible(pods[i]) ==> after.ip == pods[i].ip)
  {
    var pods' := pods[i := after];
    assert pods'[..i] == pods[..i] && pods'[i + 1..] == pods[i + 1..];
    assert after.phase == pods[i].phase;
    forall ns ensures RunningIPs(pods', ns) == RunningIPs(pods, ns) || (IsRunning(pods[i], ns) && after.ip != pods[i].ip) {
      RunningIPsSplit(pods, i, ns);
      RunningIPsSplit(pods', i, ns);
    }
    if Eligible(pods[i]) && after.ip != pods[i].ip {
      var ns := pods[i].ns;
      RunningIPsSplit(pods, i, ns);
      RunningIPsSplit(pods', i, ns);
      var k := |RunningIPs(pods[..i], ns)|;
      assert RunningIPs(pods, ns)[k] == pods[i].ip && RunningIPs(pods', ns)[k] == after.ip;
    }
  }

  /** A history of the pods in which every update is ignored and running pods keep their addresses. */
  ghost predicate IgnoredPodUpdates(history: seq<seq<Pod>>) {
    forall t: nat :: t + 1 < |history| ==> IgnoredStep(history[t], history[t + 1])
  }

  ghost predicate IgnoredStep(pods: seq<Pod>, pods': seq<Pod>) {
    exists i: nat, after ::
      && i < |pods| && pods' == pods[i := after]
      && PodUpdate(pods[i], after) && !PodNeedsUpdate(pods[i], after)
      && (Eligible(pods[i]) ==> after.ip == pods[i].ip)
  }

  /** A whole sequence of ignored pod updates leaves the choice of leaders as it was. */
  lemma {:induction false} IgnoredPodUpdatesKeepIPs(history: seq<seq<Pod>>, n: nat, ns: string)
    requires IgnoredPodUpdates(history) && n < |history|
    ensures RunningIPs(history[n], ns) == RunningIPs(history[0], ns)
  {
    if n > 0 {
      IgnoredPodUpdatesKeepIPs(history, n - 1, ns);
      assert IgnoredStep(history[n - 1], history[n - 1 + 1]);
      var pods := history[n - 1];
      var i: nat, after :| && i < |pods| && history[n] == pods[i := after]
                           && PodUpdate(pods[i], after) && !PodNeedsUpdate(pods[i], after)
                           && (Eligible(pods[i]) ==> after.ip == pods[i].ip);
      IgnoredPodUpdateExactly(pods, i, after);
    }
  }

  lemma {:induction false} EntriesDependOnIPs(pods: seq<Pod>, ns: string)
    ensures forall ip :: ip in RunningIPs(pods, ns) <==> IsIpOf(ip, RunningPods(pods, ns))
    ensures RunningIPs(pods, ns) == [] <==> RunningPods(pods, ns) == []
  {
    if pods != [] {
      EntriesDependOnIPs(pods[1..], ns);
      var own: seq<Pod> := if IsRunning(pods[0], ns) then [pods[0]] else [];
      var rest := RunningPods(pods[1..], ns);
      assert RunningPods(pods, ns) == own + rest;
      forall ip ensures ip in RunningIPs(pods, ns) <==> IsIpOf(ip, RunningPods(pods, ns)) {
        assert ip in RunningIPs(pods[1..], ns) <==> IsIpOf(ip, rest);
        if own != [] && ip == pods[0].ip { assert pods[0] in own + rest && pods[0].ip == ip; }
        if p: Pod :| p in rest && p.ip == ip { assert p in own + rest; }
        if p: Pod :| p in own + rest && p.ip == ip { if p in own { assert p == pods[0]; } }
      }
    }
  }

  /** So the peer entry that was right before them is right after them, and a wrong one stays wrong. */
  lemma IgnoredPodUpdatesKeepEntries(history: seq<seq<Pod>>, n: nat, ns: string, entry: string)
    requires IgnoredPodUpdates(history) && n < |history|
    ensures ValidEntry(entry, RunningPods(history[n], ns)) <==> ValidEntry(entry, RunningPods(history[0], ns))
  {
    IgnoredPodUpdatesKeepIPs(history, n, ns);
    EntriesDependOnIPs(history[0], ns);
    EntriesDependOnIPs(history[n], ns);
  }
}
