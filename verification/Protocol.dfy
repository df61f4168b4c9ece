/**
  The controller as a concurrent step system: any number of workers, each between two API calls of its
  own reconcile; informers that lag; and an outside world that changes Habitats, pods and ConfigMaps.

  Assumed of the outside: no Habitat is deleted and none changes its customVersion; a pod keeps its IP
  while it runs; watch events arrive in order and none is missed; edits of the peer ConfigMap leave its
  data map non-nil. Habitats may be of any version, and pods of any owner: a pod whose owner is missing,
  or is another controller's, is listed like any other, but its events wake nobody.
*/
module Protocol {
  import opened Types
  import opened Keys
  import opened Workqueue
  import opened Handlers

  // ---------- State ----------

  /** A pod with the habitat label: the key its labels lead to, and the StatefulSet template it was built from, if any. */
  datatype Instance = Instance(
    ns: string,
    owner: Option<string>,
    phase: Phase,
    ip: string,
    template: Option<PodTemplate>,
    terminating: bool)

  /** The server's peer ConfigMap, reduced to its entry and version. */
  datatype Cm = Cm(entry: string, version: nat)

  /** A ConfigMap object on the informer's heap; workers hold references to it. */
  datatype Cached = Cached(ns: string, entry: string, version: nat)

  datatype HabEvent = HabEvent(key: string, hab: Habitat)
  datatype HabNote = HabNote(hab: Habitat, added: bool, changed: bool)
  datatype PodEvent = PodEvent(ns: string, owner: Option<string>, effective: bool)
  datatype CmEvent = CmEvent(ns: string, cm: Option<Cm>)

  /** Where a worker is. The call named is the next one it makes. */
  datatype Pc =
    | Idle
    | Start(key: string)
    | CreatingSts(key: string, want: StatefulSet)
    | GettingSts(key: string, want: StatefulSet)
    | UpdatingSts(key: string, want: StatefulSet, before: StatefulSet)
    | Killing(key: string)
    | Listing(key: string)
    | CreatingCm(key: string, ips: set<string>, leader: string)
    | FindingCm(key: string, ips: set<string>, leader: string)
    | Reading(key: string, ips: set<string>, leader: string, obj: nat)
    | Assigning(key: string, ips: set<string>, leader: string, obj: nat)
    | UpdatingCm(key: string, ips: set<string>, leader: string, obj: nat)
    | Failing(key: string)
    | Releasing(key: string)

  /**
    `workers` and `keys` bound what can run and which Habitats can exist; `ns` gives a key's namespace;
    `desired` is what a Habitat compiles to, in stored form; calls in `mayFail` can fail at any time. In
    the namespaces `strays` pods can appear that no Habitat of this controller owns; if `lags`, the
    StatefulSet controller may build a pod from a template that has been replaced.
  */
  datatype Config = Config(
    workers: set<nat>,
    keys: set<string>,
    ns: string -> string,
    desired: Habitat -> Option<StatefulSet>,
    mayFail: set<Call>,
    strays: set<string>,
    lags: bool)

  /** The Habitats on the server and in the informer's store, with what lies between. */
  datatype Registry = Registry(
    habs: map<string, Habitat>,
    store: map<string, Habitat>,
    events: seq<HabEvent>,
    notes: seq<HabNote>)
  {
    function Put(k: string, h: Habitat): Registry {
      this.(habs := habs[k := h], events := events + [HabEvent(k, h)])
    }

    /** The store first, the handler afterwards. */
    function Deliver(): Registry
      requires events != []
    {
      var e := events[0];
      var added := e.key !in store;
      var changed := !added && HabitatNeedsUpdate(store[e.key], e.hab);
      this.(store := store[e.key := e.hab], events := events[1..], notes := notes + [HabNote(e.hab, added, changed)])
    }

    function PopNote(): Registry
      requires notes != []
    {
      this.(notes := notes[1..])
    }
  }

  /** StatefulSets, their replaced templates and the pods on the server, with their undelivered events. */
  datatype Fleet = Fleet(
    stss: map<string, StatefulSet>,
    replaced: set<(string, PodTemplate)>,
    pods: map<nat, Instance>,
    podEvents: seq<PodEvent>,
    stsEvents: seq<string>)
  {
    function PutPod(id: nat, pod: Instance, effective: bool): Fleet {
      this.(pods := pods[id := pod], podEvents := podEvents + [PodEvent(pod.ns, pod.owner, effective)])
    }

    function RemovePod(id: nat): Fleet
      requires id in pods
    {
      this.(pods := pods - {id}, podEvents := podEvents + [PodEvent(pods[id].ns, pods[id].owner, true)])
    }

    function PutSts(k: string, sts: StatefulSet): Fleet {
      if k in stss && stss[k] == sts then this
      else this.(stss := stss[k := sts], stsEvents := stsEvents + [k],
                 replaced := replaced + (if k in stss then {(k, stss[k].spec.template)} else {}))
    }

    /** Graceful deletion: the pods keep running until the outside removes them. */
    function Kill(k: string): Fleet {
      this.(pods := map id | id in pods :: if pods[id].owner == Some(k) then pods[id].(terminating := true) else pods[id])
    }
  }

  /** The peer ConfigMaps on the server, the informer's objects, and the events in between. */
  datatype Peers = Peers(
    cms: map<string, Cm>,
    clock: nat,
    store: map<string, nat>,
    heap: seq<Cached>,
    events: seq<CmEvent>,
    notes: seq<string>)
  {
    /** A write by anyone: a new version, and a watch event. */
    function Put(ns: string, entry: string): Peers {
      this.(cms := cms[ns := Cm(entry, clock + 1)], clock := clock + 1, events := events + [CmEvent(ns, Some(Cm(entry, clock + 1)))])
    }

    function Remove(ns: string): Peers {
      this.(cms := cms - {ns}, events := events + [CmEvent(ns, None)])
    }

    /** A new object replaces the cached one; workers may still hold the old one. */
    function Deliver(): Peers
      requires events != []
    {
      var e := events[0];
      match e.cm
      case None => this.(store := store - {e.ns}, events := events[1..], notes := notes + [e.ns])
      case Some(cm) => this.(store := store[e.ns := |heap|], heap := heap + [Cached(e.ns, cm.entry, cm.version)],
                             events := events[1..], notes := notes + [e.ns])
    }

    function PopNote(): Peers
      requires notes != []
    {
      this.(notes := notes[1..])
    }

    /** The in-place write. */
    function Assign(obj: nat, entry: string): Peers
      requires obj < |heap|
    {
      this.(heap := heap[obj := heap[obj].(entry := entry)])
    }

    /** The version the object carries is the server's. */
    predicate Current(obj: nat) {
      obj < |heap| && heap[obj].ns in cms && cms[heap[obj].ns].version == heap[obj].version
    }
  }

  datatype State = State(reg: Registry, fleet: Fleet, peers: Peers, q: Queue, workers: map<nat, Pc>)
  {
    function At(w: nat, pc: Pc): State {
      this.(workers := workers[w := pc])
    }

    /** What a handler adds for the Habitat that labels lead to. */
    function AddOwner(owner: Option<string>): State {
      this.(q := AddKey(q, StoredKey(reg.store, owner)))
    }
  }

  // ---------- Names and owners ----------

  /** The Habitat is one of this controller's. */
  predicate Ours(h: Habitat) {
    EnqueuedKey(h).Some?
  }

  /** The Habitat goes by this key and lives in the key's namespace. */
  predicate Names(cfg: Config, k: string, h: Habitat) {
    HabitatKey(h) == k && h.ns == cfg.ns(k)
  }

  /** The labels lead to an existing Habitat of this controller, in the same namespace. */
  predicate Owned(cfg: Config, habs: map<string, Habitat>, ns: string, owner: Option<string>) {
    owner.Some? && owner.value in habs && Ours(habs[owner.value]) && cfg.ns(owner.value) == ns
  }

  // ---------- Right and wrong entries ----------

  function RunIPs(pods: map<nat, Instance>, ns: string): set<string> {
    set id | id in pods && pods[id].phase == Running && pods[id].ns == ns :: pods[id].ip
  }

  predicate Valid(entry: string, ips: set<string>) {
    if ips == {} then entry == "" else entry in ips
  }

  predicate GoodEntry(s: State, ns: string) {
    ns in s.peers.cms && Valid(s.peers.cms[ns].entry, RunIPs(s.fleet.pods, ns))
  }

  /** The namespace holds a Habitat of this controller. */
  ghost predicate Holds(cfg: Config, s: State, ns: string) {
    exists k :: k in s.reg.habs && Ours(s.reg.habs[k]) && cfg.ns(k) == ns
  }

  // ---------- Steps ----------

  datatype Step =
    | CreateHabitat(key: string, hab: Habitat)
    | ChangeHabitat(key: string, hab: Habitat)
    | StartPod(id: nat, key: string, template: PodTemplate)
    | StartStray(id: nat, ns: string, owner: Option<string>)
    | ChangePod(id: nat, phase: Phase, ip: string)
    | RemovePod(id: nat)
    | EditCm(ns: string, entry: string)
    | RemoveCm(ns: string)
    | DeliverHab
    | NotifyHab
    | DeliverPod
    | DeliverCm
    | NotifyCm(order: seq<string>)
    | Resync(ns: string, order: seq<string>)
    | DeliverSts
    | Fire(key: string)
    | Work(w: nat, leader: string, fault: bool)

  /** The calls of a worker's next step: a compilation looks up to three Secrets, any other step makes one call. */
  function CallsOf(pc: Pc): set<Call> {
    match pc
    case Start(_) => {GetConfigSecret, GetFilesSecret, GetRingSecret}
    case CreatingSts(_, _) => {CreateSts}
    case GettingSts(_, _) => {GetSts}
    case UpdatingSts(_, _, _) => {UpdateSts}
    case Killing(_) => {DeletePods}
    case Listing(_) => {ListPods}
    case CreatingCm(_, _, _) => {CreateCm}
    case UpdatingCm(_, _, _, _) => {UpdateCm}
    case _ => {}
  }

  /** `order` lists the keys that a ConfigMap event of the namespace adds. */
  ghost predicate ListsWoken(s: State, ns: string, order: seq<string>) {
    forall k :: k in order <==> WokenByCm(s.reg.store, ns, k)
  }

  predicate WorkEnabled(cfg: Config, s: State, w: nat, leader: string, fault: bool) {
    && w in s.workers
    && (s.workers[w].Idle? ==> s.q.queue != [])
    && (fault ==> CallsOf(s.workers[w]) * cfg.mayFail != {})
    && (s.workers[w].Listing? && !fault ==> Valid(leader, RunIPs(s.fleet.pods, cfg.ns(s.workers[w].key))))
  }

  ghost predicate Enabled(cfg: Config, s: State, step: Step) {
    match step
    case CreateHabitat(k, h) => k in cfg.keys && k !in s.reg.habs && Names(cfg, k, h)
    case ChangeHabitat(k, h) => k in s.reg.habs && Names(cfg, k, h) && h.customVersion == s.reg.habs[k].customVersion
    case StartPod(id, k, template) =>
      && id !in s.fleet.pods && k in s.fleet.stss && k in s.reg.habs && Ours(s.reg.habs[k])
      && (template == s.fleet.stss[k].spec.template || (cfg.lags && (k, template) in s.fleet.replaced))
    case StartStray(id, ns, owner) => id !in s.fleet.pods && ns in cfg.strays && (owner.Some? ==> cfg.ns(owner.value) == ns)
    case ChangePod(id, phase, ip) =>
      id in s.fleet.pods && (s.fleet.pods[id].phase == Running && phase == Running ==> ip == s.fleet.pods[id].ip)
    case RemovePod(id) => id in s.fleet.pods
    case EditCm(_, _) => true
    case RemoveCm(ns) => ns in s.peers.cms
    case DeliverHab => s.reg.events != []
    case NotifyHab => s.reg.notes != []
    case DeliverPod => s.fleet.podEvents != []
    case DeliverCm => s.peers.events != []
    case NotifyCm(order) => s.peers.notes != [] && ListsWoken(s, s.peers.notes[0], order)
    case Resync(ns, order) => ns in s.peers.store && ListsWoken(s, ns, order)
    case DeliverSts => s.fleet.stsEvents != []
    case Fire(k) => k in s.q.waiting
    case Work(w, leader, fault) => WorkEnabled(cfg, s, w, leader, fault)
  }

  function AddAll(q: Queue, order: seq<string>): Queue
    decreases |order|
  {
    if order == [] then q else AddAll(q.Add(order[0]), order[1..])
  }

  // A worker's next step, by the part of the state it touches.

  predicate OnSts(pc: Pc) {
    pc.Start? || pc.CreatingSts? || pc.GettingSts? || pc.UpdatingSts? || pc.Killing?
  }

  function StsStep(cfg: Config, store: map<string, Habitat>, fleet: Fleet, pc: Pc): (Fleet, Pc)
    requires OnSts(pc)
  {
    match pc
    case Start(k) =>
      if k !in store then (fleet, Releasing(k))
      else (match cfg.desired(store[k])
            case None => (fleet, Failing(k))
            case Some(want) => (fleet, CreatingSts(k, want)))
    case CreatingSts(k, want) =>
      if k in fleet.stss then (fleet, GettingSts(k, want)) else (fleet.PutSts(k, want), Listing(k))
    case GettingSts(k, want) =>
      if k in fleet.stss then (fleet, UpdatingSts(k, want, fleet.stss[k])) else (fleet, Failing(k))
    case UpdatingSts(k, want, before) =>
      if k !in fleet.stss then (fleet, Failing(k))
      else (fleet.PutSts(k, want), if before.spec.template != want.spec.template then Killing(k) else Listing(k))
    case Killing(k) => (fleet.Kill(k), Listing(k))
  }

  predicate OnCm(pc: Pc) {
    pc.CreatingCm? || pc.FindingCm? || pc.Reading? || pc.Assigning? || pc.UpdatingCm?
  }

  function CmStep(ns: string, peers: Peers, pc: Pc): (Peers, Pc)
    requires OnCm(pc)
  {
    match pc
    case CreatingCm(k, ips, leader) =>
      if ns in peers.cms then (peers, FindingCm(k, ips, leader)) else (peers.Put(ns, leader), Releasing(k))
    case FindingCm(k, ips, leader) =>
      if ns !in peers.store then (peers, Failing(k))
      else if ips == {} then (peers, Assigning(k, ips, leader, peers.store[ns]))
      else (peers, Reading(k, ips, leader, peers.store[ns]))
    case Reading(k, ips, leader, obj) =>
      if obj < |peers.heap| && peers.heap[obj].entry in ips then (peers, Releasing(k)) else (peers, Assigning(k, ips, leader, obj))
    case Assigning(k, ips, leader, obj) =>
      if obj < |peers.heap| then (peers.Assign(obj, leader), UpdatingCm(k, ips, leader, obj)) else (peers, Failing(k))
    case UpdatingCm(k, ips, leader, obj) =>
      if !peers.Current(obj) || peers.heap[obj].ns != ns then (peers, Failing(k))
      else if peers.cms[ns].entry == peers.heap[obj].entry then (peers, Releasing(k))
      else (peers.Put(ns, peers.heap[obj].entry), Releasing(k))
  }

  function WorkStep(cfg: Config, s: State, w: nat, leader: string, fault: bool): State
    requires WorkEnabled(cfg, s, w, leader, fault)
  {
    var pc := s.workers[w];
    if fault then s.At(w, Failing(pc.key))
    else if OnSts(pc) then
      var (fleet, pc') := StsStep(cfg, s.reg.store, s.fleet, pc);
      s.(fleet := fleet).At(w, pc')
    else if OnCm(pc) then
      var (peers, pc') := CmStep(cfg.ns(pc.key), s.peers, pc);
      s.(peers := peers).At(w, pc')
    else match pc
         case Idle => s.(q := s.q.Take().1).At(w, Start(s.q.Take().0))
         case Listing(k) => s.At(w, CreatingCm(k, RunIPs(s.fleet.pods, cfg.ns(k)), leader))
         case Failing(k) => s.(q := s.q.AddRateLimited(k)).At(w, Releasing(k))
         case Releasing(k) => s.(q := s.q.Done(k)).At(w, Idle)
  }

  ghost function Apply(cfg: Config, s: State, step: Step): State
    requires Enabled(cfg, s, step)
  {
    match step
    case CreateHabitat(k, h) => s.(reg := s.reg.Put(k, h))
    case ChangeHabitat(k, h) => s.(reg := s.reg.Put(k, h))
    case StartPod(id, k, template) =>
      s.(fleet := s.fleet.PutPod(id, Instance(cfg.ns(k), Some(k), Pending, "", Some(template), false), true))
    case StartStray(id, ns, owner) =>
      s.(fleet := s.fleet.PutPod(id, Instance(ns, owner, Pending, "", None, false), true))
    case ChangePod(id, phase, ip) =>
      s.(fleet := s.fleet.PutPod(id, s.fleet.pods[id].(phase := phase, ip := ip), phase != s.fleet.pods[id].phase))
    case RemovePod(id) => s.(fleet := s.fleet.RemovePod(id))
    case EditCm(ns, entry) => s.(peers := s.peers.Put(ns, entry))
    case RemoveCm(ns) => s.(peers := s.peers.Remove(ns))
    case DeliverHab => s.(reg := s.reg.Deliver())
    case NotifyHab =>
      var n := s.reg.notes[0];
      s.(reg := s.reg.PopNote(), q := AddKey(s.q, if n.added || n.changed then EnqueuedKey(n.hab) else None))
    case DeliverPod =>
      var e := s.fleet.podEvents[0];
      var s' := s.(fleet := s.fleet.(podEvents := s.fleet.podEvents[1..]));
      if e.effective then s'.AddOwner(e.owner) else s'
    case DeliverCm => s.(peers := s.peers.Deliver())
    case NotifyCm(order) => s.(peers := s.peers.PopNote(), q := AddAll(s.q, order))
    case Resync(ns, order) => s.(q := AddAll(s.q, order))
    case DeliverSts => s.(fleet := s.fleet.(stsEvents := s.fleet.stsEvents[1..])).AddOwner(Some(s.fleet.stsEvents[0]))
    case Fire(k) => s.(q := s.q.Fire(k))
    case Work(w, leader, fault) => WorkStep(cfg, s, w, leader, fault)
  }

  // ---------- Starting states and runs ----------

  /** The operator starts, or restarts, against a cluster: its informers have everything still to tell. */
  ghost predicate Init(cfg: Config, s: State) {
    && s.workers.Keys == cfg.workers && (forall w :: w in s.workers ==> s.workers[w] == Idle)
    && s.q == EMPTY
    && InitRegistry(cfg, s.reg) && InitFleet(cfg, s.reg.habs, s.fleet) && InitPeers(s.peers)
  }

  ghost predicate InitRegistry(cfg: Config, reg: Registry) {
    && reg.habs.Keys <= cfg.keys && reg.store == map[] && reg.notes == []
    && (forall k :: k in reg.habs ==> Names(cfg, k, reg.habs[k]) && HabEvent(k, reg.habs[k]) in reg.events)
    && (forall e :: e in reg.events ==> e.key in reg.habs && e.hab == reg.habs[e.key])
  }

  ghost predicate InitFleet(cfg: Config, habs: map<string, Habitat>, fleet: Fleet) {
    && fleet.replaced == {}
    && forall id :: id in fleet.pods ==>
         Owned(cfg, habs, fleet.pods[id].ns, fleet.pods[id].owner) || fleet.pods[id].ns in cfg.strays
  }

  ghost predicate InitPeers(peers: Peers) {
    && peers.store == map[] && peers.heap == [] && peers.notes == []
    && (forall ns :: ns in peers.cms ==> peers.cms[ns].version <= peers.clock && CmEvent(ns, Some(peers.cms[ns])) in peers.events)
    && (forall e :: e in peers.events ==> e.ns in peers.cms && e.cm == Some(peers.cms[e.ns]))
  }

  ghost predicate Run(cfg: Config, states: seq<State>, steps: seq<Step>) {
    && |states| == |steps| + 1
    && Init(cfg, states[0])
    && forall i :: 0 <= i < |steps| ==> Enabled(cfg, states[i], steps[i]) && states[i + 1] == Apply(cfg, states[i], steps[i])
  }

  ghost predicate ReachableFrom(cfg: Config, start: State, s: State) {
    exists states: seq<State>, steps :: Run(cfg, states, steps) && start == states[0] && s == states[|steps|]
  }

  ghost predicate Reachable(cfg: Config, s: State) {
    exists start :: ReachableFrom(cfg, start, s)
  }

  lemma StartReachable(cfg: Config, s: State)
    requires Init(cfg, s)
    ensures ReachableFrom(cfg, s, s)
  {
    assert Run(cfg, [s], []);
  }

  lemma NextReachable(cfg: Config, start: State, s: State, step: Step)
    requires ReachableFrom(cfg, start, s) && Enabled(cfg, s, step)
    ensures ReachableFrom(cfg, start, Apply(cfg, s, step))
  {
    var states: seq<State>, steps :| Run(cfg, states, steps) && start == states[0] && s == states[|steps|];
    assert Run(cfg, states + [Apply(cfg, s, step)], steps + [step]);
  }
}
