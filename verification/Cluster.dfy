/**
  The API server as the operator sees it. Assumed behaviour: Create fails on an existing object; a
  ConfigMap update carries a resource version and is compare-and-swap, a StatefulSet update carries
  none and is unconditional; a write that changes nothing keeps the version; stored templates are
  defaulted by a function of the submitted template.
*/
module Cluster {
  import opened Types
  import opened StatefulSets
  import opened Keys

  datatype Stored = Stored(sts: StatefulSet, resourceVersion: nat)

  datatype Api = Api(
    stss: map<(string, string), Stored>,
    pods: seq<Pod>,
    cms: map<string, ConfigMap>,
    secrets: set<(string, string)>,
    clock: nat)

  /** The two library functions the model leaves open. */
  datatype Lib = Lib(parse: QuantityParser, dflt: PodTemplate -> PodTemplate)
  {
    function StoredForm(sts: StatefulSet): StatefulSet {
      sts.(spec := sts.spec.(template := dflt(sts.spec.template)))
    }
  }

  // ---------- StatefulSets ----------

  function CreateStatefulSet(lib: Lib, api: Api, ns: string, sts: StatefulSet): Result<Api, Error> {
    if (ns, sts.name) in api.stss then Err(AlreadyExists)
    else Ok(api.(stss := api.stss[(ns, sts.name) := Stored(lib.StoredForm(sts), api.clock + 1)], clock := api.clock + 1))
  }

  function GetStatefulSet(api: Api, ns: string, name: string): Result<StatefulSet, Error> {
    if (ns, name) in api.stss then Ok(api.stss[(ns, name)].sts) else Err(NotFound)
  }

  function UpdateStatefulSet(lib: Lib, api: Api, ns: string, sts: StatefulSet): Result<Api, Error> {
    var k := (ns, sts.name);
    if k !in api.stss then Err(NotFound)
    else if api.stss[k].sts == lib.StoredForm(sts) then Ok(api)
    else Ok(api.(stss := api.stss[k := Stored(lib.StoredForm(sts), api.clock + 1)], clock := api.clock + 1))
  }

  // ---------- Pods ----------

  /** What the list call selects: running pods of the namespace with the habitat label, in server order. */
  predicate IsRunning(p: Pod, ns: string) {
    p.ns == ns && p.phase == Running && IsHabitatObject(p.labels)
  }

  function RunningPods(pods: seq<Pod>, ns: string): (r: seq<Pod>)
    ensures forall p :: p in r <==> p in pods && IsRunning(p, ns)
  {
    if pods == [] then []
    else (if IsRunning(pods[0], ns) then [pods[0]] else []) + RunningPods(pods[1..], ns)
  }

  /** The collection that remains after deleting the selected pods of the namespace. */
  function WithoutSelected(pods: seq<Pod>, ns: string, selector: map<string, string>): (r: seq<Pod>)
    ensures forall p :: p in r <==> p in pods && !(p.ns == ns && Selects(selector, p.labels))
    ensures |r| <= |pods|
  {
    if pods == [] then []
    else
      (if pods[0].ns == ns && Selects(selector, pods[0].labels) then [] else [pods[0]])
      + WithoutSelected(pods[1..], ns, selector)
  }

  predicate Increasing(at: seq<nat>) {
    forall i, j :: 0 <= i < j < |at| ==> at[i] < at[j]
  }

  predicate ItemsAt(pods: seq<Pod>, at: seq<nat>, r: seq<Pod>) {
    |at| == |r| && forall j :: 0 <= j < |at| ==> at[j] < |pods| && r[j] == pods[at[j]]
  }

  predicate PlacesOf(pods: seq<Pod>, picks: Pod -> bool, at: seq<nat>) {
    forall i :: 0 <= i < |pods| ==> (picks(pods[i]) <==> i in at)
  }

  /** The places `at` are those of the items that `picks`, in order, and `r` holds the items there. */
  predicate Picked(pods: seq<Pod>, picks: Pod -> bool, r: seq<Pod>, at: seq<nat>) {
    Increasing(at) && ItemsAt(pods, at, r) && PlacesOf(pods, picks, at)
  }

  function Shifted(at: seq<nat>): (r: seq<nat>)
    ensures |r| == |at| && forall j :: 0 <= j < |at| ==> r[j] == at[j] + 1
  {
    seq(|at|, j requires 0 <= j < |at| => at[j] + 1)
  }

  lemma InShifted(at: seq<nat>, i: nat)
    ensures i + 1 in Shifted(at) <==> i in at
    ensures 0 !in Shifted(at)
  {
    if i in at {
      var j :| 0 <= j < |at| && at[j] == i;
      assert Shifted(at)[j] == i + 1;
    }
  }

  lemma NowOrLater(at: seq<nat>, i: nat)
    ensures i in [0] + Shifted(at) <==> i == 0 || i - 1 in at
  {
    assert i in [0] + Shifted(at) <==> i == 0 || i in Shifted(at);
    if i > 0 { InShifted(at, i - 1); }
  }

  lemma ItemsShifted(p: Pod, rest: seq<Pod>, at: seq<nat>, r: seq<Pod>)
    requires ItemsAt(rest, at, r)
    ensures ItemsAt([p] + rest, Shifted(at), r)
  {
  }

  lemma ItemsNow(p: Pod, rest: seq<Pod>, at: seq<nat>, r: seq<Pod>)
    requires ItemsAt([p] + rest, at, r)
    ensures ItemsAt([p] + rest, [0] + at, [p] + r)
  {
  }

  lemma PickedLater(p: Pod, rest: seq<Pod>, picks: Pod -> bool, r: seq<Pod>, at: seq<nat>)
    requires Picked(rest, picks, r, at) && !picks(p)
    ensures Picked([p] + rest, picks, r, Shifted(at))
  {
    ItemsShifted(p, rest, at, r);
    forall i | 0 <= i < |[p] + rest| ensures picks(([p] + rest)[i]) <==> i in Shifted(at) {
      InShifted(at, if i > 0 then i - 1 else 0);
    }
  }

  lemma PickedNow(p: Pod, rest: seq<Pod>, picks: Pod -> bool, r: seq<Pod>, at: seq<nat>)
    requires Picked(rest, picks, r, at) && picks(p)
    ensures Picked([p] + rest, picks, [p] + r, [0] + Shifted(at))
  {
    ItemsShifted(p, rest, at, r);
    ItemsNow(p, rest, Shifted(at), r);
    PlacesNow(p, rest, picks, at);
    IncreasingNow(at);
  }

  lemma IncreasingNow(at: seq<nat>)
    requires Increasing(at)
    ensures Increasing([0] + Shifted(at))
  {
    var at' := [0] + Shifted(at);
    forall i, j | 0 <= i < j < |at'| ensures at'[i] < at'[j] {
      assert at'[j] == at[j - 1] + 1 && (i > 0 ==> at'[i] == at[i - 1] + 1);
    }
  }

  lemma PlacesNow(p: Pod, rest: seq<Pod>, picks: Pod -> bool, at: seq<nat>)
    requires PlacesOf(rest, picks, at) && picks(p)
    ensures PlacesOf([p] + rest, picks, [0] + Shifted(at))
  {
    forall i | 0 <= i < |[p] + rest| ensures picks(([p] + rest)[i]) <==> i in [0] + Shifted(at) {
      NowOrLater(at, i);
    }
  }

  /** The pod is in the namespace, runs, and carries the label `habitat=true`. */
  predicate Selectable(p: Pod, ns: string) {
    p.ns == ns && p.phase == Running && "habitat" in p.labels && p.labels["habitat"] == "true"
  }

  /** The listed pods are the running ones in server order, each as often as it is there: the first of them becomes leader. */
  lemma {:induction false} RunningExactly(pods: seq<Pod>, ns: string) returns (at: seq<nat>)
    ensures Picked(pods, (p: Pod) => Selectable(p, ns), RunningPods(pods, ns), at)
  {
    if pods == [] {
      at := [];
    } else {
      var rest := RunningExactly(pods[1..], ns);
      var picks, r := (p: Pod) => Selectable(p, ns), RunningPods(pods[1..], ns);
      assert pods == [pods[0]] + pods[1..] && [] + r == r;
      if picks(pods[0]) {
        PickedNow(pods[0], pods[1..], picks, r, rest);
        at := [0] + Shifted(rest);
      } else {
        PickedLater(pods[0], pods[1..], picks, r, rest);
        at := Shifted(rest);
      }
    }
  }

  /** A deletion keeps all other pods, in their order. */
  lemma {:induction false} RemainingExactly(pods: seq<Pod>, ns: string, selector: map<string, string>) returns (at: seq<nat>)
    ensures Picked(pods, (p: Pod) => !(p.ns == ns && Selects(selector, p.labels)), WithoutSelected(pods, ns, selector), at)
  {
    if pods == [] {
      at := [];
    } else {
      var picks := (p: Pod) => !(p.ns == ns && Selects(selector, p.labels));
      var rest := RemainingExactly(pods[1..], ns, selector);
      var r := WithoutSelected(pods[1..], ns, selector);
      assert pods == [pods[0]] + pods[1..] && [] + r == r;
      if picks(pods[0]) {
        PickedNow(pods[0], pods[1..], picks, r, rest);
        at := [0] + Shifted(rest);
      } else {
        PickedLater(pods[0], pods[1..], picks, r, rest);
        at := Shifted(rest);
      }
    }
  }

  // ---------- The peer ConfigMap ----------

  /** The entry is written down, and not merely missing. */
  predicate HasEntry(cm: ConfigMap) {
    cm.data.Some? && PEER_FILE in cm.data.value
  }

  /** `cm.Data[peerFile]`: a missing key, or a nil map, reads as "". */
  function Entry(cm: ConfigMap): string {
    if HasEntry(cm) then cm.data.value[PEER_FILE] else ""
  }

  function WithEntry(cm: ConfigMap, ip: string): (written: ConfigMap)
    requires cm.data.Some?
    ensures HasEntry(written) && Entry(written) == ip
  {
    cm.(data := Some(cm.data.value[PEER_FILE := ip]))
  }

  /** Of two entries written one after the other the last one counts. */
  lemma LastEntryCounts(cm: ConfigMap, ip: string, last: string)
    requires cm.data.Some?
    ensures WithEntry(WithEntry(cm, ip), last) == WithEntry(cm, last)
  {
    assert cm.data.value[PEER_FILE := ip][PEER_FILE := last] == cm.data.value[PEER_FILE := last];
  }

  function NewConfigMap(ip: string, h: Habitat): (cm: ConfigMap)
    ensures Entry(cm) == ip && cm.owner == OwnerRef(h.name, h.uid)
  {
    ConfigMap(OwnerRef(h.name, h.uid), Some(map[PEER_FILE := ip]), 0)
  }

  function CreateConfigMap(api: Api, ns: string, cm: ConfigMap): Result<Api, Error> {
    if ns in api.cms then Err(AlreadyExists)
    else Ok(api.(cms := api.cms[ns := cm.(resourceVersion := api.clock + 1)], clock := api.clock + 1))
  }

  function UpdateConfigMap(api: Api, ns: string, cm: ConfigMap): Result<Api, Error> {
    if ns !in api.cms then Err(NotFound)
    else if api.cms[ns].resourceVersion != cm.resourceVersion then Err(Conflict)
    else if api.cms[ns] == cm then Ok(api)
    else Ok(api.(cms := api.cms[ns := cm.(resourceVersion := api.clock + 1)], clock := api.clock + 1))
  }

  // ---------- When a peer entry is right ----------

  predicate IsIpOf(ip: string, pods: seq<Pod>) {
    exists p :: p in pods && p.ip == ip
  }

  /** Empty when nothing runs; otherwise the IP of a running pod. */
  predicate ValidEntry(entry: string, running: seq<Pod>) {
    if running == [] then entry == "" else IsIpOf(entry, running)
  }

  predicate EntryOk(api: Api, ns: string) {
    ns in api.cms && ValidEntry(Entry(api.cms[ns]), RunningPods(api.pods, ns))
  }

  /** The entry is right and, when it stands for "no peer", it is written down and not merely missing. */
  predicate Settled(api: Api, ns: string) {
    && EntryOk(api, ns)
    && (RunningPods(api.pods, ns) == [] ==> HasEntry(api.cms[ns]))
  }
}
