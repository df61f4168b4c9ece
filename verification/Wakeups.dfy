/** The event steps of `Protocol` queue what the handlers of `Controller` queue. */
module Wakeups {
  import opened Types
  import opened StatefulSets
  import opened Keys
  import opened Workqueue
  import opened Handlers
  import opened Protocol
  import opened Agreement

  /** A Habitat event is first stored and then handled, as `HandleHabAdd` or `HandleHabUpdate` does. */
  lemma HabitatIsHandled(cfg: Config, s: State)
    requires s.reg.events != [] && s.reg.notes == []
    ensures var e, before := s.reg.events[0], s.reg.store;
            var s1 := Apply(cfg, s, DeliverHab);
            && Enabled(cfg, s1, NotifyHab) && Apply(cfg, s1, NotifyHab).reg.store == before[e.key := e.hab]
            && Apply(cfg, s1, NotifyHab).q ==
                 AddKey(s.q, if e.key !in before || before[e.key].v1beta2 != e.hab.v1beta2 then EnqueuedKey(e.hab) else None)
  {
  }

  /** An update that changes only the version, even to this controller's, is stored and wakes nobody. */
  lemma VersionChangeWakesNobody(cfg: Config, s: State, version: Option<string>)
    requires s.reg.events != [] && s.reg.notes == [] && s.reg.events[0].key in s.reg.store
    requires s.reg.events[0].hab == s.reg.store[s.reg.events[0].key].(customVersion := version)
    ensures var s1 := Apply(cfg, s, DeliverHab);
            && Enabled(cfg, s1, NotifyHab) && Apply(cfg, s1, NotifyHab).q == s.q
            && s1.reg.store[s.reg.events[0].key].customVersion == version
  {
    HabitatIsHandled(cfg, s);
  }

  /** A changed pod wakes whom `HandlePodUpdate` wakes. */
  lemma PodChangeIsHandled(cfg: Config, s: State, id: nat, before: Pod, after: Pod)
    requires Enabled(cfg, s, ChangePod(id, after.phase, after.ip)) && s.fleet.podEvents == []
    requires s.fleet.pods[id].(template := None, terminating := false) == InstanceOf(before)
    requires after.ns == before.ns && after.labels == before.labels && after.resourceVersion != before.resourceVersion
    ensures var s1 := Apply(cfg, s, ChangePod(id, after.phase, after.ip));
            && s1.fleet.pods[id].(template := None, terminating := false) == InstanceOf(after)
            && Enabled(cfg, s1, DeliverPod)
            && Apply(cfg, s1, DeliverPod).q == AddKey(s.q, if before.phase != after.phase then OwnerKey(s.reg.store, after.ns, after.labels) else None)
  {
  }

  /** A pod that comes or goes wakes whom `HandlePodAddOrDelete` wakes. */
  lemma PodEndIsHandled(cfg: Config, s: State, id: nat, pod: Pod)
    requires Enabled(cfg, s, RemovePod(id)) && s.fleet.podEvents == []
    requires s.fleet.pods[id].(template := None, terminating := false) == InstanceOf(pod)
    ensures var s1 := Apply(cfg, s, RemovePod(id));
            Enabled(cfg, s1, DeliverPod) && Apply(cfg, s1, DeliverPod).q == AddKey(s.q, OwnerKey(s.reg.store, pod.ns, pod.labels))
  {
  }

  /** A StatefulSet that a worker creates or changes is announced, and only by such a step is one changed. */
  lemma StsIsAnnounced(cfg: Config, s: State, step: Step, k: string)
    requires Enabled(cfg, s, step)
    requires k in Apply(cfg, s, step).fleet.stss && (k !in s.fleet.stss || Apply(cfg, s, step).fleet.stss[k] != s.fleet.stss[k])
    ensures step.Work? && k in Apply(cfg, s, step).fleet.stsEvents
  {
    if step.Work? {
      WorkAnnounces(cfg, s, step.w, step.leader, step.fault, k);
    }
  }

  lemma WorkAnnounces(cfg: Config, s: State, w: nat, leader: string, fault: bool, k: string)
    requires WorkEnabled(cfg, s, w, leader, fault)
    ensures var t := WorkStep(cfg, s, w, leader, fault).fleet;
            k in t.stss && (k !in s.fleet.stss || t.stss[k] != s.fleet.stss[k]) ==> k in t.stsEvents
  {
    var t := WorkStep(cfg, s, w, leader, fault).fleet;
    if k in t.stss && (k !in s.fleet.stss || t.stss[k] != s.fleet.stss[k]) {
      assert t.stsEvents == s.fleet.stsEvents + [k];
    }
  }

  /** A StatefulSet event wakes the Habitat that the StatefulSet's labels lead to, as `HandleStsUpdate` does. */
  lemma StsIsHandled(cfg: Config, s: State, h: Habitat, sts: StatefulSet)
    requires s.fleet.stsEvents != [] && s.fleet.stsEvents[0] == HabitatKey(h)
    requires IsNamespace(h.ns) && h.name != "" && sts.labels == ObjectLabels(h.name)
    ensures Apply(cfg, s, DeliverSts).q == AddKey(s.q, OwnerKey(s.reg.store, h.ns, sts.labels))
  {
    assert sts.labels[HABITAT_NAME_LABEL] == h.name;
  }

  lemma {:induction false} AddAllDirty(q: Queue, order: seq<string>)
    ensures var q' := AddAll(q, order);
            && q'.processing == q.processing && q'.waiting == q.waiting && q'.shuttingDown == q.shuttingDown
            && forall k :: k in q'.dirty <==> k in q.dirty || (!q.shuttingDown && k in order)
    decreases |order|
  {
    if order != [] { AddAllDirty(q.Add(order[0]), order[1..]); }
  }

  /** A ConfigMap event or a resync makes dirty what `HandleCM` makes dirty. */
  lemma CmIsHandled(cfg: Config, s: State, ns: string, order: seq<string>, step: Step)
    requires step == Resync(ns, order) || (step == NotifyCm(order) && s.peers.notes != [] && s.peers.notes[0] == ns)
    requires Enabled(cfg, s, step)
    ensures var q' := Apply(cfg, s, step).q;
            && q'.processing == s.q.processing && q'.waiting == s.q.waiting
            && forall k :: k in q'.dirty <==> k in s.q.dirty || (!s.q.shuttingDown && WokenByCm(s.reg.store, ns, k))
  {
    AddAllDirty(s.q, order);
  }
}
