/**
  The work queue empties: once the outside world is still, every order of delivering events and
  processing keys comes to an end, although reconciles themselves cause events that queue more keys.
*/
module Termination {
  import opened Types
  import opened StatefulSets
  import opened Keys
  import opened Cluster
  import opened Reconcile
  import opened Handlers
  import opened Convergence
  import Leader

  datatype Event =
    | PodGone(pod: Pod)
    | StsChanged(ns: string, labels: map<string, string>)
    | CmChanged(ns: string)

  /** `queue` holds the waiting keys once each, in no particular order. */
  datatype State = State(w: World, queue: set<string>, events: set<Event>)

  // ---------- Events ----------

  /** The watch events that the step from `w` to `w'` causes. */
  function Emitted(w: World, w': World): set<Event> {
    (set p | p in w.api.pods && p !in w'.api.pods :: PodGone(p))
    + (set s | s in w'.api.stss && (s !in w.api.stss || w.api.stss[s] != w'.api.stss[s]) :: StsChanged(s.0, w'.api.stss[s].sts.labels))
    + (set ns | ns in w'.api.cms && (ns !in w.api.cms || w.api.cms[ns] != w'.api.cms[ns]) :: CmChanged(ns))
  }

  function Just(key: Option<string>): set<string> {
    if key.Some? then {key.value} else {}
  }

  /** The keys that the handler of an event queues. */
  function Wakes(habs: map<string, Habitat>, e: Event): (keys: set<string>)
    ensures e.CmChanged? ==> forall k :: k in keys <==> WokenByCm(habs, e.ns, k)
  {
    match e
    case PodGone(p) => Just(if IsHabitatObject(p.labels) then OwnerKey(habs, p.ns, p.labels) else None)
    case StsChanged(ns, labels) => Just(OwnerKey(habs, ns, labels))
    case CmChanged(ns) => set s | s in habs && habs[s].ns == ns && EnqueuedKey(habs[s]).Some? :: EnqueuedKey(habs[s]).value
  }

  /** A ConfigMap event also brings the server's version into the cache. */
  function Refresh(w: World, e: Event): World {
    if e.CmChanged? && e.ns in w.api.cms then w.(cmCache := w.cmCache[e.ns := w.api.cms[e.ns]]) else w
  }

  function Deliver(s: State, e: Event): State {
    State(Refresh(s.w, e), s.queue + Wakes(s.w.habs, e), s.events - {e})
  }

  /** One reconcile in which no call fails; should it end in an error, the key is put back. */
  function Process(lib: Lib, s: State, k: string): State {
    var (w', outcome) := Conform(lib, s.w, k, {});
    State(w', if outcome.Erred? then s.queue else s.queue - {k}, Emitted(s.w, w'))
  }

  /** Any pending event may come next; a key is processed when none is pending. */
  ghost predicate Next(lib: Lib, s: State, s': State) {
    || (exists e :: e in s.events && s' == Deliver(s, e))
    || (s.events == {} && exists k :: k in s.queue && s' == Process(lib, s, k))
  }

  // ---------- The invariant ----------

  /** Habitats are stored under their own keys, and this controller's compile. */
  ghost predicate Ready(lib: Lib, w: World) {
    WellKeyed(w.habs) && forall k :: k in w.habs && EnqueuedKey(w.habs[k]).Some? ==> Compilable(lib, w.api, w.habs[k])
  }

  /** What this controller's Habitats compile to. */
  ghost function OurTargets(lib: Lib, w: World): map<string, Target>
    requires Ready(lib, w)
  {
    map k | k in w.habs && EnqueuedKey(w.habs[k]).Some? :: Target(w.habs[k], Desired(lib.parse, w.habs[k]))
  }

  ghost predicate Inv(lib: Lib, ts: map<string, Target>, s: State) {
    Ready(lib, s.w) && ts == OurTargets(lib, s.w) && Sane(lib, ts, s)
  }

  /** What is not cached has an event on its way, and what is not good is queued. */
  ghost predicate Sane(lib: Lib, ts: map<string, Target>, s: State) {
    && s.queue <= ts.Keys
    && (forall ns :: ns in s.w.api.cms ==> s.w.api.cms[ns].data.Some?)
    && (forall ns :: CmChanged(ns) !in s.events ==> Coherent(s.w, ns))
    && (forall ns :: CmChanged(ns) in s.events ==> ns in s.w.api.cms)
    && (forall k :: k in ts ==> k in s.queue || Good(lib, s.w, ts[k]))
  }

  lemma TargetsSeparate(lib: Lib, w: World)
    requires Ready(lib, w)
    ensures Separate(OurTargets(lib, w))
  {
    var ts := OurTargets(lib, w);
    forall k1, k2 | k1 in ts && k2 in ts && ts[k1].Place() == ts[k2].Place() ensures k1 == k2 {
      assert HabitatKey(w.habs[k1]) == HabitatKey(w.habs[k2]);
    }
  }

  /** The operator starts: every key is queued, and every ConfigMap is still to be announced. */
  lemma StartInv(lib: Lib, w: World)
    requires Ready(lib, w) && w.cmCache == map[]
    requires forall ns :: ns in w.api.cms ==> w.api.cms[ns].data.Some?
    ensures Inv(lib, OurTargets(lib, w), State(w, OurTargets(lib, w).Keys, set ns | ns in w.api.cms :: CmChanged(ns)))
  {
  }

  lemma SaneFits(lib: Lib, ts: map<string, Target>, s: State)
    requires Sane(lib, ts, s) && s.events == {}
    ensures Fit(s.w)
  {
    forall ns
      ensures ns in s.w.cmCache <==> ns in s.w.api.cms
      ensures ns in s.w.cmCache ==> s.w.cmCache[ns] == s.w.api.cms[ns]
    {
      assert CmChanged(ns) !in s.events;
      assert Coherent(s.w, ns);
    }
  }

  lemma OnlyOursWake(lib: Lib, w: World, e: Event)
    requires Ready(lib, w)
    ensures Wakes(w.habs, e) <= OurTargets(lib, w).Keys
  {
    assert forall k :: k in w.habs && EnqueuedKey(w.habs[k]).Some? ==> EnqueuedKey(w.habs[k]).value == k;
  }

  lemma DeliverKeepsInv(lib: Lib, ts: map<string, Target>, s: State, e: Event)
    requires Inv(lib, ts, s) && e in s.events
    ensures Inv(lib, ts, Deliver(s, e))
  {
    OnlyOursWake(lib, s.w, e);
    TargetsStay(lib, s.w, Refresh(s.w, e));
    DeliverKeepsSane(lib, ts, s, e);
  }

  lemma DeliverKeepsSane(lib: Lib, ts: map<string, Target>, s: State, e: Event)
    requires Sane(lib, ts, s) && e in s.events && Wakes(s.w.habs, e) <= ts.Keys
    ensures Sane(lib, ts, Deliver(s, e))
  {
    var s' := Deliver(s, e);
    forall ns | CmChanged(ns) !in s'.events ensures Coherent(s'.w, ns) {
      if e != CmChanged(ns) { assert CmChanged(ns) !in s.events; }
    }
  }

  /** Whatever is good stays good, stated for any world that reconciling `t` can leave. */
  lemma GoodKept(lib: Lib, w: World, t: Target, w': World, other: Target)
    requires Fit(w) && Reconciles(lib, w, t.h, t.sts, w')
    requires t.Place() == other.Place() ==> t == other
    requires forall ns :: ns != t.h.ns ==> (Settled(w.api, ns) <==> Settled(w'.api, ns))
    ensures GoodSts(lib, w, other) ==> GoodSts(lib, w', other)
    ensures Settled(w.api, other.h.ns) ==> Settled(w'.api, other.h.ns)
    ensures Good(lib, w', t)
  {
  }

  /** What processing a key does, no other world being left than the one that reconciling its target leaves. */
  ghost predicate Processed(lib: Lib, ts: map<string, Target>, s: State, k: string, s': State)
    requires k in ts
  {
    && Fit(s.w) && Reconciles(lib, s.w, ts[k].h, ts[k].sts, s'.w)
    && (forall ns :: ns != ts[k].h.ns ==> (Settled(s.w.api, ns) <==> Settled(s'.w.api, ns)))
    && s'.queue == s.queue - {k} && s'.events == Emitted(s.w, s'.w)
  }

  lemma ProcessFacts(lib: Lib, ts: map<string, Target>, s: State, k: string)
    requires Inv(lib, ts, s) && s.events == {} && k in s.queue
    ensures k in ts && Processed(lib, ts, s, k, Process(lib, s, k))
  {
    SaneFits(lib, ts, s);
    ReadyFacts(lib, ts, s, k);
  }

  lemma ReadyFacts(lib: Lib, ts: map<string, Target>, s: State, k: string)
    requires Ready(lib, s.w) && ts == OurTargets(lib, s.w) && Fit(s.w) && k in ts
    ensures Processed(lib, ts, s, k, Process(lib, s, k))
  {
    ConformFacts(lib, s.w, k);
    var w' := Conform(lib, s.w, k, {}).0;
    ProcessShape(lib, s, k, w');
    ShapeIsProcessed(lib, ts, s, k, w');
  }

  lemma ProcessShape(lib: Lib, s: State, k: string, w': World)
    requires Conform(lib, s.w, k, {}) == (w', Done)
    ensures Process(lib, s, k) == State(w', s.queue - {k}, Emitted(s.w, w'))
  {
  }

  lemma ShapeIsProcessed(lib: Lib, ts: map<string, Target>, s: State, k: string, w': World)
    requires k in ts && Fit(s.w) && Reconciles(lib, s.w, ts[k].h, ts[k].sts, w')
    requires forall ns :: ns != ts[k].h.ns ==> (Settled(s.w.api, ns) <==> Settled(w'.api, ns))
    ensures Processed(lib, ts, s, k, State(w', s.queue - {k}, Emitted(s.w, w')))
  {
  }

  lemma ConformFacts(lib: Lib, w: World, k: string)
    requires Ready(lib, w) && k in OurTargets(lib, w) && Fit(w)
    ensures var t := OurTargets(lib, w)[k];
            var (w', outcome) := Conform(lib, w, k, {});
            && outcome == Done && Reconciles(lib, w, t.h, t.sts, w')
            && forall ns :: ns != t.h.ns ==> (Settled(w.api, ns) <==> Settled(w'.api, ns))
  {
    ConformOfOurs(lib, w, k);
    ApplyFacts(lib, w, OurTargets(lib, w)[k]);
  }

  lemma ConformOfOurs(lib: Lib, w: World, k: string)
    requires Ready(lib, w) && k in OurTargets(lib, w)
    ensures var t := OurTargets(lib, w)[k]; Conform(lib, w, k, {}) == Apply(lib, w, t.h, t.sts, {})
  {
    ConformIsApply(lib, w, w.habs[k]);
  }

  lemma ApplyFacts(lib: Lib, w: World, t: Target)
    requires Fit(w)
    ensures var (w', outcome) := Apply(lib, w, t.h, t.sts, {});
            && outcome == Done && Reconciles(lib, w, t.h, t.sts, w')
            && forall ns :: ns != t.h.ns ==> (Settled(w.api, ns) <==> Settled(w'.api, ns))
  {
    ApplyEffect(lib, w, t.h, t.sts);
    SettledElsewhere(lib, w, t);
  }

  lemma TargetsStay(lib: Lib, w: World, w': World)
    requires Ready(lib, w) && w'.habs == w.habs && w'.api.secrets == w.api.secrets
    ensures Ready(lib, w') && OurTargets(lib, w') == OurTargets(lib, w)
  {
    assert SecretsOf(w'.api, {}) == SecretsOf(w.api, {});
  }

  lemma OthersStayGood(lib: Lib, ts: map<string, Target>, s: State, k: string, s': State)
    requires Separate(ts) && k in ts && Processed(lib, ts, s, k, s')
    ensures forall o :: o in ts ==> (GoodSts(lib, s.w, ts[o]) ==> GoodSts(lib, s'.w, ts[o]))
    ensures forall o :: o in ts ==> (Settled(s.w.api, ts[o].h.ns) ==> Settled(s'.w.api, ts[o].h.ns))
    ensures Good(lib, s'.w, ts[k])
  {
    forall o | o in ts
      ensures GoodSts(lib, s.w, ts[o]) ==> GoodSts(lib, s'.w, ts[o])
      ensures Settled(s.w.api, ts[o].h.ns) ==> Settled(s'.w.api, ts[o].h.ns)
    {
      if ts[o].Place() == ts[k].Place() { assert o == k; }
      GoodKept(lib, s.w, ts[k], s'.w, ts[o]);
    }
    GoodKept(lib, s.w, ts[k], s'.w, ts[k]);
  }

  lemma ProcessedInv(lib: Lib, ts: map<string, Target>, s: State, k: string, s': State)
    requires Inv(lib, ts, s) && s.events == {} && k in s.queue && Processed(lib, ts, s, k, s')
    ensures Inv(lib, ts, s')
  {
    TargetsSeparate(lib, s.w);
    TargetsStay(lib, s.w, s'.w);
    ProcessedSane(lib, ts, s, k, s');
  }

  lemma ProcessedSane(lib: Lib, ts: map<string, Target>, s: State, k: string, s': State)
    requires Separate(ts) && Sane(lib, ts, s) && s.events == {} && k in s.queue && Processed(lib, ts, s, k, s')
    ensures Sane(lib, ts, s')
  {
    OthersStayGood(lib, ts, s, k, s');
    EmittedIsCoherent(lib, s.w, ts[k], s'.w);
    Leader.DataKept(lib, s.w, ts[k].h, ts[k].sts, s'.w);
  }

  /** A ConfigMap that caused no event is still the cached one. */
  lemma EmittedIsCoherent(lib: Lib, w: World, t: Target, w': World)
    requires Fit(w) && Reconciles(lib, w, t.h, t.sts, w')
    ensures forall ns :: CmChanged(ns) !in Emitted(w, w') ==> Coherent(w', ns)
    ensures forall ns :: CmChanged(ns) in Emitted(w, w') ==> ns in w'.api.cms
  {
    forall ns | CmChanged(ns) !in Emitted(w, w') ensures Coherent(w', ns) {
      assert ns in w'.api.cms ==> ns in w.api.cms && w.api.cms[ns] == w'.api.cms[ns];
      if ns == t.h.ns {
        assert w'.api.cms.Keys == w.api.cms.Keys;
        assert w'.api.cms == w.api.cms;
      }
    }
  }

  // ---------- What a reconcile sets off ----------

  /** The labels that lead to a Habitat in a proper namespace queue its key. */
  lemma LabelsLeadTo(habs: map<string, Habitat>, k: string, labels: map<string, string>)
    requires k in habs && HabitatKey(habs[k]) == k && EnqueuedKey(habs[k]).Some? && habs[k].ns != "" && habs[k].name != ""
    requires "habitat-name" in labels && labels["habitat-name"] == habs[k].name
    ensures OwnerKey(habs, habs[k].ns, labels) == Some(k)
  {
  }

  /** A reconcile that changes its StatefulSet causes an event that queues its own key again. */
  lemma StsChangeWakesItself(lib: Lib, ts: map<string, Target>, s: State, k: string)
    requires Inv(lib, ts, s) && s.events == {} && k in s.queue && k in s.w.habs && s.w.habs[k].ns != "" && s.w.habs[k].name != ""
    requires var place := (s.w.habs[k].ns, s.w.habs[k].name);
             var stss := Process(lib, s, k).w.api.stss;
             place in stss && (place !in s.w.api.stss || stss[place] != s.w.api.stss[place])
    ensures exists e :: e in Process(lib, s, k).events && e.StsChanged? && k in Wakes(s.w.habs, e)
  {
    ProcessFacts(lib, ts, s, k);
    StsEventWakes(lib, s.w, ts[k], k, Process(lib, s, k).w);
  }

  lemma StsEventWakes(lib: Lib, w: World, t: Target, k: string, w': World)
    requires k in w.habs && WellKeyed(w.habs) && EnqueuedKey(w.habs[k]).Some? && t.h == w.habs[k]
    requires ValidateCustomObject(t.h).None? && ClaimsParse(lib.parse, t.h) && t.sts == Desired(lib.parse, t.h)
    requires t.h.ns != "" && t.h.name != "" && Reconciles(lib, w, t.h, t.sts, w')
    requires var place := (t.h.ns, t.h.name); place !in w.api.stss || w'.api.stss[place] != w.api.stss[place]
    ensures exists e :: e in Emitted(w, w') && e.StsChanged? && k in Wakes(w.habs, e)
  {
    var place := (t.h.ns, t.h.name);
    var labels := w'.api.stss[place].sts.labels;
    assert labels == ObjectLabels(t.h.name) && labels["habitat-name"] == t.h.name;
    LabelsLeadTo(w.habs, k, labels);
    assert StsChanged(t.h.ns, labels) in Emitted(w, w');
  }

  /** A write of the peer ConfigMap causes an event that queues every Habitat of this controller in the namespace. */
  lemma CmChangeWakesAll(lib: Lib, w: World, w': World, ns: string)
    requires WellKeyed(w.habs) && ns in w'.api.cms && (ns !in w.api.cms || w'.api.cms[ns] != w.api.cms[ns])
    ensures CmChanged(ns) in Emitted(w, w')
    ensures forall k :: k in Wakes(w.habs, CmChanged(ns)) <==> k in w.habs && w.habs[k].ns == ns && w.habs[k].customVersion == Some("v1beta2")
  {
    forall k ensures k in Wakes(w.habs, CmChanged(ns)) <==> k in w.habs && w.habs[k].ns == ns && w.habs[k].customVersion == Some("v1beta2") {
      if k in w.habs { assert EnqueuedKey(w.habs[k]) == Some(k) <==> w.habs[k].customVersion == Some("v1beta2"); }
    }
  }

  /** A deleted pod causes an event that queues the Habitat its labels lead to, if it carries `habitat=true`. */
  lemma PodEndWakesOwner(w: World, w': World, k: string, p: Pod)
    requires k in w.habs && HabitatKey(w.habs[k]) == k && EnqueuedKey(w.habs[k]).Some? && w.habs[k].ns != "" && w.habs[k].name != ""
    requires p in w.api.pods && p !in w'.api.pods && p.ns == w.habs[k].ns
    requires "habitat-name" in p.labels && p.labels["habitat-name"] == w.habs[k].name
    ensures PodGone(p) in Emitted(w, w')
    ensures k in Wakes(w.habs, PodGone(p)) <==> "habitat" in p.labels && p.labels["habitat"] == "true"
  {
    LabelsLeadTo(w.habs, k, p.labels);
  }

  // ---------- The measure ----------

  ghost function BadSts(lib: Lib, ts: map<string, Target>, w: World): set<string> {
    set k | k in ts && !GoodSts(lib, w, ts[k])
  }

  ghost function BadNamespaces(ts: map<string, Target>, w: World): set<string> {
    set k | k in ts && !Settled(w.api, ts[k].h.ns) :: ts[k].h.ns
  }

  /** StatefulSets that differ from the desired, namespaces with a bad entry, undelivered events, queue length. */
  datatype Measure = Measure(sts: nat, namespaces: nat, events: nat, queue: nat)
  {
    predicate Less(m: Measure) {
      || sts < m.sts
      || (sts == m.sts && (namespaces < m.namespaces
      || (namespaces == m.namespaces && (events < m.events
      || (events == m.events && queue < m.queue)))))
    }
  }

  ghost function MeasureOf(lib: Lib, ts: map<string, Target>, s: State): Measure {
    Measure(|BadSts(lib, ts, s.w)|, |BadNamespaces(ts, s.w)|, |s.events|, |s.queue|)
  }

  lemma Smaller<T>(a: set<T>, b: set<T>)
    requires a <= b
    ensures |a| <= |b|
    ensures a != b ==> |a| < |b|
  {
    var rest := b - a;
    assert b == a + rest;
    if a != b { assert rest != {}; }
  }

  lemma DeliverDecreases(lib: Lib, ts: map<string, Target>, s: State, e: Event)
    requires Inv(lib, ts, s) && e in s.events
    ensures MeasureOf(lib, ts, Deliver(s, e)).Less(MeasureOf(lib, ts, s))
  {
    var s' := Deliver(s, e);
    assert BadSts(lib, ts, s'.w) == BadSts(lib, ts, s.w);
    assert BadNamespaces(ts, s'.w) == BadNamespaces(ts, s.w);
    Smaller(s'.events, s.events);
  }

  lemma ProcessedDecreases(lib: Lib, ts: map<string, Target>, s: State, k: string, s': State)
    requires Separate(ts) && k in ts && k in s.queue && Processed(lib, ts, s, k, s') && s.events == {}
    ensures MeasureOf(lib, ts, s').Less(MeasureOf(lib, ts, s))
  {
    var t := ts[k];
    OthersStayGood(lib, ts, s, k, s');
    Smaller(BadSts(lib, ts, s'.w), BadSts(lib, ts, s.w));
    Smaller(BadNamespaces(ts, s'.w), BadNamespaces(ts, s.w));
    if !GoodSts(lib, s.w, t) {
      assert k in BadSts(lib, ts, s.w) && k !in BadSts(lib, ts, s'.w);
    } else if !Settled(s.w.api, t.h.ns) {
      assert t.h.ns in BadNamespaces(ts, s.w) && t.h.ns !in BadNamespaces(ts, s'.w);
    } else {
      assert s'.w == s.w;
      assert Emitted(s.w, s.w) == {};
      Smaller(s'.queue, s.queue);
    }
  }

  lemma NextDecreases(lib: Lib, ts: map<string, Target>, s: State, s': State)
    requires Inv(lib, ts, s) && Next(lib, s, s')
    ensures Inv(lib, ts, s') && MeasureOf(lib, ts, s').Less(MeasureOf(lib, ts, s))
  {
    if e :| e in s.events && s' == Deliver(s, e) {
      DeliverKeepsInv(lib, ts, s, e);
      DeliverDecreases(lib, ts, s, e);
    } else {
      var k :| k in s.queue && s' == Process(lib, s, k);
      ProcessFacts(lib, ts, s, k);
      ProcessedInv(lib, ts, s, k, s');
      TargetsSeparate(lib, s.w);
      ProcessedDecreases(lib, ts, s, k, s');
    }
  }

  // ---------- The result ----------

  ghost predicate GoesOn(lib: Lib, run: nat -> State, n: nat) {
    Next(lib, run(n), run(n + 1))
  }

  /** No run goes on for ever, in whatever order events and keys are taken. */
  lemma RunsEnd(lib: Lib, ts: map<string, Target>, run: nat -> State)
    requires Inv(lib, ts, run(0))
    ensures exists n: nat :: !GoesOn(lib, run, n)
  {
    if forall n: nat :: GoesOn(lib, run, n) {
      Descend(lib, ts, run, 0);
    }
  }

  lemma {:induction false} Descend(lib: Lib, ts: map<string, Target>, run: nat -> State, n: nat)
    requires forall i: nat :: GoesOn(lib, run, i)
    requires Inv(lib, ts, run(n))
    ensures false
    decreases MeasureOf(lib, ts, run(n)).sts, MeasureOf(lib, ts, run(n)).namespaces,
              MeasureOf(lib, ts, run(n)).events, MeasureOf(lib, ts, run(n)).queue
  {
    assert GoesOn(lib, run, n);
    NextDecreases(lib, ts, run(n), run(n + 1));
    Descend(lib, ts, run, n + 1);
  }

  /** Where a run stops, the queue is empty and every Habitat is as desired, its peer entry right. */
  lemma StoppedIsDone(lib: Lib, ts: map<string, Target>, s: State)
    requires Inv(lib, ts, s)
    requires forall s' :: !Next(lib, s, s')
    ensures s.queue == {} && s.events == {}
    ensures forall k :: k in ts ==> GoodSts(lib, s.w, ts[k]) && EntryOk(s.w.api, ts[k].h.ns)
  {
    if e :| e in s.events { assert Next(lib, s, Deliver(s, e)); }
    if k :| k in s.queue { assert Next(lib, s, Process(lib, s, k)); }
  }
}
