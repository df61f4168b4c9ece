/** The desired-state compiler: from a Habitat to the StatefulSet the operator wants. */
module StatefulSets {
  import opened Types
  import RingName

  const CONFIG_MAP_DIR := "/habitat-operator"
  const PEER_FILENAME := "peer-ip"
  const USER_TOML := "user.toml"
  const RING_SECRET_KEY := "ring-key"
  const RING_KEY_EXT := "sym.key"
  const RING_KEY_DIR := "/hab/cache/keys"
  const DEFAULT_NAMESPACE := "default"

  const CONFIG_VOLUME := "config"
  const USER_CONFIG_VOLUME := "user-config"
  const FILES_SECRET_VOLUME := "files-secrets"
  const FILES_VOLUME := "files"
  const PERSISTENT_VOLUME := "persistent"

  const FILES_MOUNT_PATH := "/mnt/files"

  // ---------- Validation ----------

  function ValidateCustomObject(h: Habitat): Option<Error> {
    if h.v1beta2.None? then Some(MissingSpec)
    else
      var service := h.v1beta2.value.service;
      if service.topology != STANDALONE && service.topology != LEADER then Some(UnknownTopology)
      else if service.ringSecretName.Some? && |RingName.FindStringSubmatch(service.ringSecretName.value)| < 2 then Some(MalformedRingName)
      else None
  }

  predicate CustomVersionMatches(v: Option<string>) {
    v == Some(CUSTOM_VERSION)
  }

  /** Validation accepts a Habitat exactly when its spec is present and well formed. */
  lemma ValidationAccepts(h: Habitat)
    ensures ValidateCustomObject(h).None? <==>
              && h.v1beta2.Some?
              && h.v1beta2.value.service.topology in {STANDALONE, LEADER}
              && (h.v1beta2.value.service.ringSecretName.Some? ==>
                    exists name, revision :: RingName.IsName(name) && RingName.IsRevision(revision)
                                          && h.v1beta2.value.service.ringSecretName.value == RingName.Render(name, revision))
  {
    if h.v1beta2.Some? && h.v1beta2.value.service.ringSecretName.Some? {
      RingName.MatchesExactly(h.v1beta2.value.service.ringSecretName.value);
    }
  }

  // ---------- What the compiler asks of the outside ----------

  /** The Secrets that exist, as (namespace, name), and the calls that fail. */
  datatype Secrets = Secrets(present: set<(string, string)>, down: set<Call>)
  {
    /** A Secret comes back under the name it was asked for. */
    function Get(call: Call, ns: string, name: string): Result<string, Error> {
      if call in down then Err(Other)
      else if (ns, name) in present then Ok(name)
      else Err(NotFound)
    }
  }

  /** `resource.ParseQuantity`, which is not part of this model. */
  type QuantityParser = string -> Option<int>

  // ---------- The parts of the StatefulSet ----------

  function FlagArgs(flag: string, value: Option<string>): seq<string> {
    if value.Some? then [flag, value.value] else []
  }

  function Topology(service: Service): string {
    if service.topology == LEADER then LEADER else STANDALONE
  }

  function PeerWatchPath(): string {
    CONFIG_MAP_DIR + "/" + PEER_FILENAME
  }

  function BindArg(b: Bind): string {
    b.name + ":" + b.service + "." + b.group
  }

  function BindArgs(binds: seq<Bind>): seq<string> {
    if binds == [] then [] else ["--bind", BindArg(binds[0])] + BindArgs(binds[1..])
  }

  function BareRingName(secret: string): string
    requires |RingName.FindStringSubmatch(secret)| >= 2
  {
    RingName.FindStringSubmatch(secret)[1]
  }

  function RingArgs(ringSecret: Option<string>): seq<string>
    requires ringSecret.Some? ==> |RingName.FindStringSubmatch(ringSecret.value)| >= 2
  {
    if ringSecret.Some? then ["--ring", BareRingName(ringSecret.value)] else []
  }

  function BaseArgs(service: Service): seq<string> {
    FlagArgs("--group", service.group) + FlagArgs("--channel", service.channel)
    + ["--topology", Topology(service), "--peer-watch-file", PeerWatchPath()]
    + BindArgs(service.bind.ToSeq())
  }

  function ConfigVolume(): Volume {
    Volume(CONFIG_VOLUME, ConfigMapVolume(CONFIG_MAP_NAME, [KeyToPath(PEER_FILE, PEER_FILENAME)]))
  }

  function ConfigMount(): VolumeMount {
    VolumeMount(CONFIG_VOLUME, CONFIG_MAP_DIR, true)
  }

  function UserConfigVolumes(secret: Option<string>): seq<Volume> {
    if secret.Some? then [Volume(USER_CONFIG_VOLUME, SecretVolume(secret.value, [KeyToPath(USER_TOML, USER_TOML)]))] else []
  }

  function UserConfigPath(serviceName: string): string {
    "/hab/user/" + serviceName + "/config"
  }

  function UserConfigMounts(service: Service): seq<VolumeMount> {
    if service.configSecretName.Some? then [VolumeMount(USER_CONFIG_VOLUME, UserConfigPath(service.name), false)] else []
  }

  function FilesVolumes(secret: Option<string>): seq<Volume> {
    if secret.Some? then
      [Volume(FILES_SECRET_VOLUME, SecretVolume(secret.value, [])), Volume(FILES_VOLUME, EmptyDirVolume)]
    else []
  }

  function FilesPath(serviceName: string): string {
    "/hab/svc/" + serviceName + "/files"
  }

  function FilesMount(service: Service): VolumeMount {
    VolumeMount(FILES_VOLUME, FilesPath(service.name), false)
  }

  function FilesMounts(service: Service): seq<VolumeMount> {
    if service.filesSecretName.Some? then [FilesMount(service)] else []
  }

  function CopyFilesContainer(service: Service): Container {
    Container("copy-files", "busybox",
              ["sh", "-c", "cp /mnt/files/* " + FilesPath(service.name)], [],
              [VolumeMount(FILES_SECRET_VOLUME, FILES_MOUNT_PATH, false), FilesMount(service)], Nil)
  }

  function InitContainers(service: Service): seq<Container> {
    if service.filesSecretName.Some? then [CopyFilesContainer(service)] else []
  }

  function PersistentMounts(ps: Option<PersistentStorage>): seq<VolumeMount> {
    if ps.Some? then [VolumeMount(PERSISTENT_VOLUME, ps.value.mountPath, false)] else []
  }

  function RingVolumes(ringSecret: Option<string>): seq<Volume> {
    if ringSecret.Some? then
      [Volume(ringSecret.value, SecretVolume(ringSecret.value, [KeyToPath(RING_SECRET_KEY, ringSecret.value + "." + RING_KEY_EXT)]))]
    else []
  }

  function RingMounts(ringSecret: Option<string>): seq<VolumeMount> {
    if ringSecret.Some? then [VolumeMount(ringSecret.value, RING_KEY_DIR, false)] else []
  }

  function Volumes(service: Service): seq<Volume> {
    [ConfigVolume()] + UserConfigVolumes(service.configSecretName) + FilesVolumes(service.filesSecretName)
    + RingVolumes(service.ringSecretName)
  }

  function Mounts(spec: V1beta2): seq<VolumeMount> {
    [ConfigMount()] + UserConfigMounts(spec.service) + FilesMounts(spec.service)
    + PersistentMounts(spec.persistentStorage) + RingMounts(spec.service.ringSecretName)
  }

  function Args(service: Service): seq<string>
    requires service.ringSecretName.Some? ==> |RingName.FindStringSubmatch(service.ringSecretName.value)| >= 2
  {
    BaseArgs(service) + RingArgs(service.ringSecretName)
  }

  function ObjectLabels(name: string): map<string, string> {
    map[HABITAT_LABEL := "true", HABITAT_NAME_LABEL := name]
  }

  function PodLabels(name: string, topology: string): map<string, string> {
    map[HABITAT_LABEL := "true", HABITAT_NAME_LABEL := name, TOPOLOGY_LABEL := topology, HABITAT_TOPOLOGY_LABEL := topology]
  }

  function Template(h: Habitat): PodTemplate
    requires ValidateCustomObject(h).None?
  {
    var spec := h.v1beta2.value;
    PodTemplate(
      PodLabels(h.name, Topology(spec.service)),
      PodSpec(
        InitContainers(spec.service),
        [Container("habitat-service", spec.image, [], Args(spec.service), Mounts(spec), spec.env)],
        Volumes(spec.service)))
  }

  function Claims(parse: QuantityParser, h: Habitat): seq<Claim>
    requires ValidateCustomObject(h).None?
    requires ClaimsParse(parse, h)
  {
    var ps := h.v1beta2.value.persistentStorage;
    if ps.Some? then
      [Claim(PERSISTENT_VOLUME, h.ns, ObjectLabels(h.name), ps.value.storageClassName, parse(ps.value.size).value)]
    else []
  }

  predicate ClaimsParse(parse: QuantityParser, h: Habitat)
    requires ValidateCustomObject(h).None?
  {
    var ps := h.v1beta2.value.persistentStorage;
    ps.Some? ==> parse(ps.value.size).Some?
  }

  function Desired(parse: QuantityParser, h: Habitat): StatefulSet
    requires ValidateCustomObject(h).None?
    requires ClaimsParse(parse, h)
  {
    StatefulSet(
      h.name, ObjectLabels(h.name), OwnerRef(h.name, h.uid),
      StatefulSetSpec(map[HABITAT_NAME_LABEL := h.name], ToInt32(h.v1beta2.value.count), true,
                      Template(h), Claims(parse, h), OnDelete))
  }

  // ---------- Which error a compilation ends with ----------

  function SecretError(secrets: Secrets, call: Call, ns: string, name: Option<string>): Option<Error> {
    if name.None? then None
    else match secrets.Get(call, ns, name.value)
         case Ok(_) => None
         case Err(e) => Some(e)
  }

  function OrElse(first: Option<Error>, second: Option<Error>): Option<Error> {
    if first.Some? then first else second
  }

  /** The first failure, in the order in which the compiler meets them. */
  function CompileError(parse: QuantityParser, secrets: Secrets, h: Habitat): Option<Error>
    requires ValidateCustomObject(h).None?
  {
    var service := h.v1beta2.value.service;
    OrElse(SecretError(secrets, GetConfigSecret, h.ns, service.configSecretName),
    OrElse(SecretError(secrets, GetFilesSecret, h.ns, service.filesSecretName),
    OrElse(if ClaimsParse(parse, h) then None else Some(BadQuantity),
           SecretError(secrets, GetRingSecret, DEFAULT_NAMESPACE, service.ringSecretName))))
  }

  function Compile(parse: QuantityParser, secrets: Secrets, h: Habitat): Result<StatefulSet, Error>
    requires ValidateCustomObject(h).None?
  {
    var e := CompileError(parse, secrets, h);
    if e.Some? then Err(e.value) else Ok(Desired(parse, h))
  }

  // ---------- What was asked for ----------

  /** Name, labels, owner and selector; pods start in parallel, and only the controller replaces them. */
  predicate IdentifiedAs(h: Habitat, sts: StatefulSet) {
    && sts.name == h.name && sts.labels == map["habitat" := "true", "habitat-name" := h.name]
    && sts.owner == OwnerRef(h.name, h.uid)
    && sts.spec.selector == map["habitat-name" := h.name]
    && sts.spec.parallel && sts.spec.strategy == OnDelete
  }

  /** As many replicas as counted, as far as an int32 can say it. */
  predicate ScaledTo(count: int, replicas: int) {
    && -0x8000_0000 <= replicas < 0x8000_0000 && (replicas - count) % 0x1_0000_0000 == 0
    && (-0x8000_0000 <= count < 0x8000_0000 ==> replicas == count)
  }

  /** One container with the image and environment asked for, labelled with the owner's name and the topology. */
  predicate RunsAs(h: Habitat, t: PodTemplate)
    requires h.v1beta2.Some?
  {
    var spec := h.v1beta2.value;
    && t.labels == map["habitat" := "true", "habitat-name" := h.name,
                       "topology" := spec.service.topology, "operator.habitat.sh/topology" := spec.service.topology]
    && |t.spec.containers| == 1
    && var c := t.spec.containers[0];
       c.name == "habitat-service" && c.image == spec.image && c.env == spec.env && c.command == []
  }

  /** The storage asked for is claimed, and mounted where it was asked for; without it there is no claim. */
  predicate Stores(parse: QuantityParser, h: Habitat, sts: StatefulSet)
    requires h.v1beta2.Some? && |sts.spec.template.spec.containers| == 1
  {
    var ps := h.v1beta2.value.persistentStorage;
    if ps.None? then sts.spec.claims == []
    else
      && parse(ps.value.size).Some?
      && sts.spec.claims == [Claim("persistent", h.ns, map["habitat" := "true", "habitat-name" := h.name],
                                   ps.value.storageClassName, parse(ps.value.size).value)]
      && VolumeMount("persistent", ps.value.mountPath, false) in sts.spec.template.spec.containers[0].mounts
  }

  /**
    The files Secret is copied by an init container: from a mount of the Secret into an empty volume that
    the main container mounts in the service's files directory, while the Secret itself it does not mount.
  */
  predicate CopiesFiles(service: Service, spec: PodSpec)
    requires |spec.containers| == 1
  {
    if service.filesSecretName.None? then spec.initContainers == []
    else
      && |spec.initContainers| == 1
      && var c := spec.initContainers[0];
         && c.name == "copy-files" && c.image == "busybox" && c.args == [] && |c.mounts| == 2
         && var from, to := c.mounts[0], c.mounts[1];
            && c.command == ["sh", "-c", "cp " + from.mountPath + "/* " + to.mountPath]
            && from.mountPath == "/mnt/files" && to.mountPath == "/hab/svc/" + service.name + "/files"
            && !from.readOnly && !to.readOnly
            && Volume(from.name, SecretVolume(service.filesSecretName.value, [])) in spec.volumes
            && Volume(to.name, EmptyDirVolume) in spec.volumes
            && to in spec.containers[0].mounts
            && forall m :: m in spec.containers[0].mounts ==> m.name != from.name
  }

  /** Only the peer ConfigMap is mounted read-only, in its own directory. */
  predicate MountsPeers(spec: PodSpec)
    requires |spec.containers| == 1
  {
    && VolumeMount("config", "/habitat-operator", true) in spec.containers[0].mounts
    && Volume("config", ConfigMapVolume("peer-watch-file", [KeyToPath("peer-watch-file", "peer-ip")])) in spec.volumes
    && forall m :: m in spec.containers[0].mounts ==> (m.readOnly <==> m.name == "config")
  }

  predicate IsAsAsked(parse: QuantityParser, h: Habitat, sts: StatefulSet)
    requires h.v1beta2.Some?
  {
    && IdentifiedAs(h, sts) && ScaledTo(h.v1beta2.value.count, sts.spec.replicas) && RunsAs(h, sts.spec.template)
    && Stores(parse, h, sts)
    && CopiesFiles(h.v1beta2.value.service, sts.spec.template.spec)
    && MountsPeers(sts.spec.template.spec)
  }

  /** `newStatefulSet`: an error, or the StatefulSet that the Habitat asks for. */
  method NewStatefulSet(parse: QuantityParser, secrets: Secrets, h: Habitat) returns (r: Result<StatefulSet, Error>)
    requires ValidateCustomObject(h).None?
    ensures r == Compile(parse, secrets, h)
    ensures r.Ok? ==> IsAsAsked(parse, h, r.value)
  {
    r := BuildStatefulSet(parse, secrets, h);
    CompiledIsAsAsked(parse, secrets, h);
  }

  /** Its body: the parts are appended step by step, and the first error ends it. */
  method BuildStatefulSet(parse: QuantityParser, secrets: Secrets, h: Habitat) returns (r: Result<StatefulSet, Error>)
    requires ValidateCustomObject(h).None?
    ensures r == Compile(parse, secrets, h)
  {
    var hs := h.v1beta2.value;
    var count := ToInt32(hs.count);
    var topology := STANDALONE;
    if hs.service.topology == LEADER {
      topology := LEADER;
    }
    var habArgs := SupervisorArgs(hs.service, topology);

    var mounts := [ConfigMount()];
    var volumes := [ConfigVolume()];
    var initContainers: seq<Container> := [];
    var claims: seq<Claim> := [];

    if hs.service.configSecretName.Some? {
      var secret := secrets.Get(GetConfigSecret, h.ns, hs.service.configSecretName.value);
      if secret.Err? {
        return Err(secret.error);
      }
      mounts := mounts + [VolumeMount(USER_CONFIG_VOLUME, "/hab/user/" + hs.service.name + "/config", false)];
      volumes := volumes + [Volume(USER_CONFIG_VOLUME, SecretVolume(secret.value, [KeyToPath(USER_TOML, USER_TOML)]))];
    }
    assert mounts == [ConfigMount()] + UserConfigMounts(hs.service);
    assert volumes == [ConfigVolume()] + UserConfigVolumes(hs.service.configSecretName);

    if hs.service.filesSecretName.Some? {
      var files := secrets.Get(GetFilesSecret, h.ns, hs.service.filesSecretName.value);
      if files.Err? {
        return Err(files.error);
      }
      volumes := volumes + [Volume(FILES_SECRET_VOLUME, SecretVolume(files.value, [])), Volume(FILES_VOLUME, EmptyDirVolume)];
      var filesMount := VolumeMount(FILES_VOLUME, FilesPath(hs.service.name), false);
      var command := "cp /mnt/files/* " + FilesPath(hs.service.name);
      var initMounts := [VolumeMount(FILES_SECRET_VOLUME, FILES_MOUNT_PATH, false), filesMount];
      initContainers := [Container("copy-files", "busybox", ["sh", "-c", command], [], initMounts, Nil)];
      mounts := mounts + [filesMount];
    }
    assert initContainers == InitContainers(hs.service);
    assert mounts == [ConfigMount()] + UserConfigMounts(hs.service) + FilesMounts(hs.service);
    assert volumes == [ConfigVolume()] + UserConfigVolumes(hs.service.configSecretName) + FilesVolumes(hs.service.filesSecretName);

    if hs.persistentStorage.Some? {
      var ps := hs.persistentStorage.value;
      mounts := mounts + [VolumeMount(PERSISTENT_VOLUME, ps.mountPath, false)];
      var q := parse(ps.size);
      if q.None? {
        return Err(BadQuantity);
      }
      claims := [Claim(PERSISTENT_VOLUME, h.ns, ObjectLabels(h.name), ps.storageClassName, q.value)];
    }
    assert mounts == [ConfigMount()] + UserConfigMounts(hs.service) + FilesMounts(hs.service) + PersistentMounts(hs.persistentStorage);
    assert claims == Claims(parse, h);

    if hs.service.ringSecretName.Some? {
      var ringSecret := hs.service.ringSecretName.value;
      var s := secrets.Get(GetRingSecret, DEFAULT_NAMESPACE, ringSecret);
      if s.Err? {
        return Err(s.error);
      }
      var ringKeyFile := ringSecret + "." + RING_KEY_EXT;
      var ringName := RingName.FindStringSubmatch(ringSecret)[1];
      volumes := volumes + [Volume(ringSecret, SecretVolume(s.value, [KeyToPath(RING_SECRET_KEY, ringKeyFile)]))];
      mounts := mounts + [VolumeMount(ringSecret, RING_KEY_DIR, false)];
      habArgs := habArgs + ["--ring", ringName];
    }
    assert volumes == Volumes(hs.service);
    assert mounts == Mounts(hs);
    assert habArgs == Args(hs.service);

    var container := Container("habitat-service", hs.image, [], habArgs, mounts, hs.env);
    var template := PodTemplate(PodLabels(h.name, topology), PodSpec(initContainers, [container], volumes));
    r := Ok(StatefulSet(h.name, ObjectLabels(h.name), OwnerRef(h.name, h.uid),
                        StatefulSetSpec(map[HABITAT_NAME_LABEL := h.name], count, true, template, claims, OnDelete)));
  }

  /** The arguments that do not depend on the ring, with one `--bind` pair per bind. */
  method SupervisorArgs(service: Service, topology: string) returns (habArgs: seq<string>)
    requires topology == Topology(service)
    ensures habArgs == BaseArgs(service)
  {
    habArgs := [];
    if service.group.Some? {
      habArgs := habArgs + ["--group", service.group.value];
    }
    if service.channel.Some? {
      habArgs := habArgs + ["--channel", service.channel.value];
    }
    var path := CONFIG_MAP_DIR + "/" + PEER_FILENAME;
    habArgs := habArgs + ["--topology", topology, "--peer-watch-file", path];
    ghost var beforeBinds := habArgs;

    var binds := service.bind.ToSeq();
    for i := 0 to |binds|
      invariant habArgs == beforeBinds + BindArgs(binds[..i])
    {
      BindArgsSnoc(binds[..i], binds[i]);
      assert binds[..i + 1] == binds[..i] + [binds[i]];
      var bindArg := binds[i].name + ":" + binds[i].service + "." + binds[i].group;
      habArgs := habArgs + ["--bind", bindArg];
    }
    assert binds[..|binds|] == binds;
  }

  lemma {:induction false} BindArgsSnoc(binds: seq<Bind>, b: Bind)
    ensures BindArgs(binds + [b]) == BindArgs(binds) + ["--bind", BindArg(b)]
  {
    if binds == [] {
      assert binds + [b] == [b];
    } else {
      assert (binds + [b])[1..] == binds[1..] + [b];
      BindArgsSnoc(binds[1..], b);
    }
  }

  /** What a successful compilation yields does not depend on the Secrets it looked up. */
  lemma SuccessIgnoresSecrets(parse: QuantityParser, secrets1: Secrets, secrets2: Secrets, h: Habitat)
    requires ValidateCustomObject(h).None?
    requires Compile(parse, secrets1, h).Ok? && Compile(parse, secrets2, h).Ok?
    ensures Compile(parse, secrets1, h) == Compile(parse, secrets2, h)
  {
  }

  /** A valid Habitat compiles exactly when its Secrets can be read and its storage size parses. */
  lemma CompilesExactly(parse: QuantityParser, secrets: Secrets, h: Habitat)
    requires ValidateCustomObject(h).None?
    ensures Compile(parse, secrets, h).Ok? <==>
              var service := h.v1beta2.value.service;
              && (service.configSecretName.Some? ==>
                    GetConfigSecret !in secrets.down && (h.ns, service.configSecretName.value) in secrets.present)
              && (service.filesSecretName.Some? ==>
                    GetFilesSecret !in secrets.down && (h.ns, service.filesSecretName.value) in secrets.present)
              && (service.ringSecretName.Some? ==>
                    GetRingSecret !in secrets.down && (DEFAULT_NAMESPACE, service.ringSecretName.value) in secrets.present)
              && ClaimsParse(parse, h)
  {
  }

  // ---------- What is desired is what was asked for ----------

  lemma RingVolumeIsFresh(service: Service)
    requires service.ringSecretName.Some? ==> |RingName.FindStringSubmatch(service.ringSecretName.value)| >= 2
    ensures service.ringSecretName.Some? ==> service.ringSecretName.value !in {"config", "files-secrets"}
  {
    if service.ringSecretName.Some? {
      RingName.AcceptedEndsInDigit(service.ringSecretName.value);
    }
  }

  /** The mounts of the main container, kind by kind. */
  lemma MountKinds(spec: V1beta2, m: VolumeMount)
    ensures m in Mounts(spec) <==>
              || m == ConfigMount() || m in UserConfigMounts(spec.service) || m in FilesMounts(spec.service)
              || m in PersistentMounts(spec.persistentStorage) || m in RingMounts(spec.service.ringSecretName)
  {
  }

  lemma VolumeKinds(service: Service, v: Volume)
    ensures v in Volumes(service) <==>
              || v == ConfigVolume() || v in UserConfigVolumes(service.configSecretName)
              || v in FilesVolumes(service.filesSecretName) || v in RingVolumes(service.ringSecretName)
  {
  }

  lemma DesiredIdentity(parse: QuantityParser, h: Habitat)
    requires ValidateCustomObject(h).None? && ClaimsParse(parse, h)
    ensures var sts := Desired(parse, h);
            && IdentifiedAs(h, sts) && ScaledTo(h.v1beta2.value.count, sts.spec.replicas)
            && RunsAs(h, sts.spec.template) && Stores(parse, h, sts)
  {
    var spec := h.v1beta2.value;
    if spec.persistentStorage.Some? {
      var m := PersistentMounts(spec.persistentStorage)[0];
      MountKinds(spec, m);
    }
  }

  lemma FilesAreCopied(h: Habitat)
    requires ValidateCustomObject(h).None?
    ensures CopiesFiles(h.v1beta2.value.service, Template(h).spec)
  {
    var spec := h.v1beta2.value;
    var service := spec.service;
    if service.filesSecretName.Some? {
      var c := CopyFilesContainer(service);
      assert "cp /mnt/files/* " == "cp " + "/mnt/files" + "/* ";
      VolumeKinds(service, FilesVolumes(service.filesSecretName)[0]);
      VolumeKinds(service, FilesVolumes(service.filesSecretName)[1]);
      MountKinds(spec, FilesMount(service));
      RingVolumeIsFresh(service);
      forall m | m in Mounts(spec) ensures m.name != c.mounts[0].name { MountKinds(spec, m); }
    }
  }

  lemma PeersAreMounted(h: Habitat)
    requires ValidateCustomObject(h).None?
    ensures MountsPeers(Template(h).spec)
  {
    var spec := h.v1beta2.value;
    MountKinds(spec, ConfigMount());
    VolumeKinds(spec.service, ConfigVolume());
    RingVolumeIsFresh(spec.service);
    forall m | m in Mounts(spec) ensures m.readOnly <==> m.name == "config" { MountKinds(spec, m); }
  }

  lemma DesiredIsAsAsked(parse: QuantityParser, h: Habitat)
    requires ValidateCustomObject(h).None?
    ensures ClaimsParse(parse, h) ==> IsAsAsked(parse, h, Desired(parse, h))
  {
    if ClaimsParse(parse, h) {
      DesiredIdentity(parse, h);
      FilesAreCopied(h);
      PeersAreMounted(h);
    }
  }

  /** A StatefulSet that a Habitat compiles to is what the Habitat asked for. */
  lemma CompiledIsAsAsked(parse: QuantityParser, secrets: Secrets, h: Habitat)
    requires ValidateCustomObject(h).None?
    ensures Compile(parse, secrets, h).Ok? ==> IsAsAsked(parse, h, Compile(parse, secrets, h).value)
  {
    DesiredIsAsAsked(parse, h);
  }

  // ---------- Which error is reported ----------

  /** A malformed Habitat is rejected for its missing spec first, then its topology, then its ring name. */
  lemma ValidationErrors(h: Habitat)
    ensures ValidateCustomObject(h) == Some(MissingSpec) <==> h.v1beta2.None?
    ensures h.v1beta2.Some? ==>
              (ValidateCustomObject(h) == Some(UnknownTopology) <==> h.v1beta2.value.service.topology !in {"standalone", "leader"})
    ensures ValidateCustomObject(h) !in {None, Some(MissingSpec), Some(UnknownTopology)} ==> ValidateCustomObject(h) == Some(MalformedRingName)
  {
  }

  /** A Secret that is named but cannot be read. */
  predicate Unreadable(secrets: Secrets, call: Call, ns: string, name: Option<string>) {
    name.Some? && (call in secrets.down || (ns, name.value) !in secrets.present)
  }

  /** The error of a compilation is that of the first part, in the order configuration, files, storage, ring, that fails. */
  lemma CompileErrors(parse: QuantityParser, secrets: Secrets, h: Habitat, e: Error)
    requires ValidateCustomObject(h).None?
    ensures var service := h.v1beta2.value.service;
            var config := Unreadable(secrets, GetConfigSecret, h.ns, service.configSecretName);
            var files := Unreadable(secrets, GetFilesSecret, h.ns, service.filesSecretName);
            var ring := Unreadable(secrets, GetRingSecret, "default", service.ringSecretName);
            Compile(parse, secrets, h) == Err(e) <==>
              if config then e == (if GetConfigSecret in secrets.down then Other else NotFound)
              else if files then e == (if GetFilesSecret in secrets.down then Other else NotFound)
              else if !ClaimsParse(parse, h) then e == BadQuantity
              else ring && e == (if GetRingSecret in secrets.down then Other else NotFound)
  {
  }
}
