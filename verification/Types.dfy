/** The objects the operator reads and writes, as values.

  The heap form of a cached ConfigMap, which the controller updates in place, is in
  `Controller`; the heap form of a Habitat, which deep copies duplicate, is in `DeepCopy`.
*/
module Types {

  datatype Option<+T> = None | Some(value: T)

  datatype Result<+T, +E> = Ok(value: T) | Err(error: E)

  /** A Go slice: the nil slice is not the empty slice (`reflect.DeepEqual` tells them apart). */
  datatype Slice<+T> = Nil | Items(elems: seq<T>)
  {
    function ToSeq(): seq<T> {
      if Nil? then [] else elems
    }
  }

  // ---------- Labels and fixed names ----------

  const HABITAT_LABEL := "habitat"
  const HABITAT_NAME_LABEL := "habitat-name"
  const TOPOLOGY_LABEL := "topology"
  const HABITAT_TOPOLOGY_LABEL := "operator.habitat.sh/topology"

  const STANDALONE := "standalone"
  const LEADER := "leader"

  const PEER_FILE := "peer-watch-file"
  const CONFIG_MAP_NAME := PEER_FILE
  const CUSTOM_VERSION := "v1beta2"

  // ---------- The Habitat custom resource ----------

  datatype Bind = Bind(name: string, service: string, group: string)

  datatype EnvVar = EnvVar(name: string, value: string)

  datatype PersistentStorage = PersistentStorage(size: string, mountPath: string, storageClassName: string)

  datatype Service = Service(
    group: Option<string>,
    topology: string,
    configSecretName: Option<string>,
    ringSecretName: Option<string>,
    filesSecretName: Option<string>,
    bind: Slice<Bind>,
    name: string,
    channel: Option<string>)

  datatype V1beta2 = V1beta2(
    count: int,
    image: string,
    service: Service,
    env: Slice<EnvVar>,
    persistentStorage: Option<PersistentStorage>)

  datatype Habitat = Habitat(
    ns: string,
    name: string,
    uid: string,
    v1beta2: Option<V1beta2>,
    customVersion: Option<string>)

  // ---------- Kubernetes objects ----------

  datatype OwnerRef = OwnerRef(name: string, uid: string)

  datatype KeyToPath = KeyToPath(key: string, path: string)

  /** `items == []` mounts every key of the Secret. */
  datatype VolumeSource =
    | ConfigMapVolume(configMap: string, items: seq<KeyToPath>)
    | SecretVolume(secret: string, items: seq<KeyToPath>)
    | EmptyDirVolume

  datatype Volume = Volume(name: string, source: VolumeSource)

  datatype VolumeMount = VolumeMount(name: string, mountPath: string, readOnly: bool)

  datatype Container = Container(
    name: string,
    image: string,
    command: seq<string>,
    args: seq<string>,
    mounts: seq<VolumeMount>,
    env: Slice<EnvVar>)

  datatype PodSpec = PodSpec(initContainers: seq<Container>, containers: seq<Container>, volumes: seq<Volume>)

  datatype PodTemplate = PodTemplate(labels: map<string, string>, spec: PodSpec)

  datatype Claim = Claim(name: string, ns: string, labels: map<string, string>, storageClassName: string, size: int)

  datatype UpdateStrategy = OnDelete | RollingUpdate

  datatype StatefulSetSpec = StatefulSetSpec(
    selector: map<string, string>,
    replicas: int,
    parallel: bool,
    template: PodTemplate,
    claims: seq<Claim>,
    strategy: UpdateStrategy)

  datatype StatefulSet = StatefulSet(
    name: string,
    labels: map<string, string>,
    owner: OwnerRef,
    spec: StatefulSetSpec)

  datatype Phase = Pending | Running | Succeeded | Failed | Unknown

  datatype Pod = Pod(
    ns: string,
    name: string,
    labels: map<string, string>,
    phase: Phase,
    ip: string,
    resourceVersion: nat)

  /** `data == None` is a nil map: reading it yields "", assigning into it panics. */
  datatype ConfigMap = ConfigMap(owner: OwnerRef, data: Option<map<string, string>>, resourceVersion: nat)

  /** The error kinds the controller can tell apart, or that end a reconcile. */
  datatype Error =
    | NotFound
    | AlreadyExists
    | Conflict
    | CacheMiss
    | MissingSpec
    | UnknownTopology
    | MalformedRingName
    | BadQuantity
    | Other

  /** The API calls of one reconcile. Each is made at most once. */
  datatype Call =
    | GetConfigSecret
    | GetFilesSecret
    | GetRingSecret
    | CreateSts
    | GetSts
    | UpdateSts
    | DeletePods
    | ListPods
    | CreateCm
    | UpdateCm

  /** `n` as Go's `int32(n)` leaves it. */
  function ToInt32(n: int): (r: int)
    ensures -0x8000_0000 <= r < 0x8000_0000
    ensures (r - n) % 0x1_0000_0000 == 0
  {
    (n + 0x8000_0000) % 0x1_0000_0000 - 0x8000_0000
  }
}
