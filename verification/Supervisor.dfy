/** What the supervisor is told: its command line read back, and the files it will find. */
module Supervisor {
  import opened Types
  import RingName
  import opened StatefulSets

  // ---------- Reading the command line back ----------

  datatype Invocation = Invocation(
    group: Option<string>,
    channel: Option<string>,
    topology: Option<string>,
    peerWatchFile: Option<string>,
    binds: seq<string>,
    ring: Option<string>)

  const NOTHING := Invocation(None, None, None, None, [], None)

  /** Reads flag/value pairs from the left; a value may look like a flag. */
  function ReadArgs(args: seq<string>, acc: Invocation): Option<Invocation> {
    if args == [] then Some(acc)
    else if |args| == 1 then None
    else
      var flag, value, rest := args[0], args[1], args[2..];
      if flag == "--group" then ReadArgs(rest, acc.(group := Some(value)))
      else if flag == "--channel" then ReadArgs(rest, acc.(channel := Some(value)))
      else if flag == "--topology" then ReadArgs(rest, acc.(topology := Some(value)))
      else if flag == "--peer-watch-file" then ReadArgs(rest, acc.(peerWatchFile := Some(value)))
      else if flag == "--bind" then ReadArgs(rest, acc.(binds := acc.binds + [value]))
      else if flag == "--ring" then ReadArgs(rest, acc.(ring := Some(value)))
      else None
  }

  function BindStrings(binds: seq<Bind>): (r: seq<string>)
    ensures |r| == |binds| && forall i :: 0 <= i < |binds| ==> r[i] == BindArg(binds[i])
  {
    seq(|binds|, i requires 0 <= i < |binds| => BindArg(binds[i]))
  }

  function RingOf(service: Service): Option<string>
    requires service.ringSecretName.Some? ==> |RingName.FindStringSubmatch(service.ringSecretName.value)| >= 2
  {
    if service.ringSecretName.Some? then Some(BareRingName(service.ringSecretName.value)) else None
  }

  /** The command line carries group, channel, topology, peer file, binds in order and ring name. */
  lemma ArgsRoundTrip(service: Service)
    requires service.ringSecretName.Some? ==> |RingName.FindStringSubmatch(service.ringSecretName.value)| >= 2
    ensures ReadArgs(Args(service), NOTHING) ==
            Some(Invocation(service.group, service.channel, Some(Topology(service)), Some(PeerWatchPath()),
                            BindStrings(service.bind.ToSeq()), RingOf(service)))
  {
    var ring := RingArgs(service.ringSecretName);
    var binds := BindArgs(service.bind.ToSeq()) + ring;
    var fixed := ["--topology", Topology(service), "--peer-watch-file", PeerWatchPath()] + binds;
    var channel := FlagArgs("--channel", service.channel) + fixed;
    assert Args(service) == FlagArgs("--group", service.group) + channel;

    ReadFlag("--group", service.group, channel, NOTHING);
    var acc1 := NOTHING.(group := service.group);
    ReadFlag("--channel", service.channel, fixed, acc1);
    var acc2 := acc1.(channel := service.channel);
    ReadFixed(Topology(service), PeerWatchPath(), binds, acc2);
    var acc3 := acc2.(topology := Some(Topology(service)), peerWatchFile := Some(PeerWatchPath()));
    ReadBinds(service.bind.ToSeq(), ring, acc3);
    var acc4 := acc3.(binds := BindStrings(service.bind.ToSeq()));
    assert acc3.binds + BindStrings(service.bind.ToSeq()) == BindStrings(service.bind.ToSeq());
    assert ring + [] == ring;
    ReadFlag("--ring", RingOf(service), [], acc4);
  }

  /** Reading one optional flag and then the rest. */
  lemma ReadFlag(flag: string, value: Option<string>, rest: seq<string>, acc: Invocation)
    requires value == None ==> acc.group == None || flag != "--group"
    requires value == None ==> acc.channel == None || flag != "--channel"
    requires value == None ==> acc.ring == None || flag != "--ring"
    ensures flag == "--group" ==> ReadArgs(FlagArgs(flag, value) + rest, acc) == ReadArgs(rest, acc.(group := value))
    ensures flag == "--channel" ==> ReadArgs(FlagArgs(flag, value) + rest, acc) == ReadArgs(rest, acc.(channel := value))
    ensures flag == "--ring" ==> ReadArgs(FlagArgs(flag, value) + rest, acc) == ReadArgs(rest, acc.(ring := value))
  {
    var args := FlagArgs(flag, value) + rest;
    if value.Some? { assert args[2..] == rest; } else { assert args == rest; }
  }

  lemma ReadFixed(topology: string, path: string, rest: seq<string>, acc: Invocation)
    ensures ReadArgs(["--topology", topology, "--peer-watch-file", path] + rest, acc)
            == ReadArgs(rest, acc.(topology := Some(topology), peerWatchFile := Some(path)))
  {
    var args := ["--topology", topology, "--peer-watch-file", path] + rest;
    assert args[2..] == ["--peer-watch-file", path] + rest;
    assert args[2..][2..] == rest;
  }

  lemma ReadBindFlag(arg: string, rest: seq<string>, acc: Invocation)
    ensures ReadArgs(["--bind", arg] + rest, acc) == ReadArgs(rest, acc.(binds := acc.binds + [arg]))
  {
    assert (["--bind", arg] + rest)[2..] == rest;
  }

  lemma {:induction false} ReadBinds(binds: seq<Bind>, rest: seq<string>, acc: Invocation)
    ensures ReadArgs(BindArgs(binds) + rest, acc) == ReadArgs(rest, acc.(binds := acc.binds + BindStrings(binds)))
  {
    if binds == [] {
      assert BindArgs(binds) + rest == rest;
      assert acc.binds + BindStrings(binds) == acc.binds;
    } else {
      var arg, more := BindArg(binds[0]), BindArgs(binds[1..]) + rest;
      var acc' := acc.(binds := acc.binds + [arg]);
      assert acc'.binds + BindStrings(binds[1..]) == acc.binds + BindStrings(binds);
      ReadBinds(binds[1..], rest, acc');
      ReadBindFlag(arg, more, acc);
      assert ["--bind", arg] + more == (["--bind", arg] + BindArgs(binds[1..])) + rest;
    }
  }

  // ---------- Bind triples ----------

  /** The position of the first `c` in `s`, or `|s|`. */
  function IndexOf(s: string, c: char): (i: nat)
    ensures i <= |s|
    ensures forall j :: 0 <= j < i ==> s[j] != c
    ensures i < |s| ==> s[i] == c
  {
    if s == "" || s[0] == c then 0 else 1 + IndexOf(s[1..], c)
  }

  /** Splits `name:service.group` at the first ':' and the first '.' after it. */
  function ReadBind(s: string): Option<Bind> {
    var i := IndexOf(s, ':');
    if i == |s| then None
    else
      var rest := s[i + 1..];
      var j := IndexOf(rest, '.');
      if j == |rest| then None else Some(Bind(s[..i], rest[..j], rest[j + 1..]))
  }

  lemma {:induction false} IndexOfAppend(a: string, c: char, b: string)
    ensures IndexOf(a + [c] + b, c) == IndexOf(a, c)
  {
    var s := a + [c] + b;
    if a == "" || a[0] == c {
    } else {
      assert s[1..] == a[1..] + [c] + b;
      IndexOfAppend(a[1..], c, b);
    }
  }

  lemma IndexOfAbsent(a: string, c: char)
    ensures IndexOf(a, c) == |a| <==> c !in a
  {
  }

  /** A rendered bind is read back exactly when its name has no ':' and its service no '.'. */
  lemma BindRoundTrip(b: Bind)
    ensures ReadBind(BindArg(b)) == Some(b) <==> ':' !in b.name && '.' !in b.service
  {
    var tail := b.service + "." + b.group;
    TailRoundTrip(b, tail);
    assert BindArg(b) == b.name + [':'] + tail;
    IndexOfAppend(b.name, ':', tail);
    IndexOfAbsent(b.name, ':');
    CutAt(BindArg(b), b.name, ':', tail);
    HeadRoundTrip(b, BindArg(b), tail, IndexOf(b.name, ':'));
  }

  lemma CutAt(s: string, a: string, c: char, t: string)
    requires s == a + [c] + t
    ensures |a| < |s| && s[..|a|] == a && s[|a| + 1..] == t
  {
  }

  lemma HeadRoundTrip(b: Bind, s: string, tail: string, i: nat)
    requires IndexOf(s, ':') == i && (i == |b.name| <==> ':' !in b.name) && i <= |b.name| < |s|
    requires s[..|b.name|] == b.name && s[|b.name| + 1..] == tail && IndexOf(tail, '.') < |tail|
    requires tail[..IndexOf(tail, '.')] == b.service && tail[IndexOf(tail, '.') + 1..] == b.group <==> '.' !in b.service
    ensures ReadBind(s) == Some(b) <==> ':' !in b.name && '.' !in b.service
  {
    if i == |b.name| {
      assert ReadBind(s) == Some(Bind(b.name, tail[..IndexOf(tail, '.')], tail[IndexOf(tail, '.') + 1..]));
    } else {
      ShorterName(b, s);
    }
  }

  lemma ShorterName(b: Bind, s: string)
    requires IndexOf(s, ':') < |b.name| < |s|
    ensures ReadBind(s) != Some(b)
  {
  }

  lemma TailRoundTrip(b: Bind, tail: string)
    requires tail == b.service + ['.'] + b.group
    ensures var j := IndexOf(tail, '.');
            && j < |tail|
            && (tail[..j] == b.service && tail[j + 1..] == b.group <==> '.' !in b.service)
  {
    IndexOfAppend(b.service, '.', b.group);
    IndexOfAbsent(b.service, '.');
    if '.' !in b.service {
      assert tail[..|b.service|] == b.service && tail[|b.service| + 1..] == b.group;
    } else {
      assert |tail[..IndexOf(tail, '.')]| < |b.service|;
    }
  }

  // ---------- The files a container finds ----------

  datatype FileOrigin =
    | FromConfigMap(configMap: string, key: string)
    | FromSecret(secret: string, key: string)

  function VolumeItems(source: VolumeSource): seq<KeyToPath> {
    match source
    case ConfigMapVolume(_, items) => items
    case SecretVolume(_, items) => items
    case EmptyDirVolume => []
  }

  function Origin(source: VolumeSource, key: string): FileOrigin
    requires !source.EmptyDirVolume?
  {
    match source
    case ConfigMapVolume(name, _) => FromConfigMap(name, key)
    case SecretVolume(name, _) => FromSecret(name, key)
  }

  /** A mount of container `c` puts the value `origin` at `path`. */
  predicate Provides(spec: PodSpec, c: Container, m: VolumeMount, v: Volume, item: KeyToPath, path: string, origin: FileOrigin) {
    && m in c.mounts && v in spec.volumes && item in VolumeItems(v.source)
    && m.name == v.name
    && path == m.mountPath + "/" + item.path
    && origin == Origin(v.source, item.key)
  }

  // ---------- Paths ----------

  function Named(name: string): seq<string> {
    if name in {"", "."} then [] else [name]
  }

  /** The names that a path goes through; empty ones and "." lead nowhere. */
  function Parts(path: string): seq<string>
    decreases |path|
  {
    var n := IndexOf(path, '/');
    if n == |path| then Named(path) else Named(path[..n]) + Parts(path[n + 1..])
  }

  lemma LastPart(name: string)
    requires '/' !in name
    ensures Parts(name) == Named(name)
  {
    IndexOfAbsent(name, '/');
  }

  lemma FirstPart(path: string, name: string, rest: string)
    requires '/' !in name && path == name + ['/'] + rest
    ensures Parts(path) == Named(name) + Parts(rest)
  {
    IndexOfAbsent(name, '/');
    IndexOfAppend(name, '/', rest);
    assert path[..|name|] == name && path[|name| + 1..] == rest;
  }

  /** The first name of `a` is that of `a/b`, and what follows it goes on to `b`. */
  lemma CutAlike(a: string, b: string, path: string, n: nat)
    requires path == a + "/" + b && n < |a|
    ensures path[..n] == a[..n] && path[n] == a[n] && path[n + 1..] == a[n + 1..] + "/" + b
  {
  }

  lemma Appended(x: seq<string>, y: seq<string>, z: seq<string>, xy: seq<string>, yz: seq<string>)
    requires xy == x + y && yz == y + z
    ensures x + yz == xy + z
  {
  }

  lemma {:induction false} JoinParts(a: string, b: string, path: string)
    requires path == a + "/" + b
    ensures Parts(path) == Parts(a) + Parts(b)
    decreases |a|
  {
    var n := IndexOf(a, '/');
    IndexOfAbsent(a, '/');
    if n == |a| {
      LastPart(a);
      FirstPart(path, a, b);
    } else {
      CutAlike(a, b, path, n);
      IndexOfAppend(a, '/', b);
      JoinParts(a[n + 1..], b, path[n + 1..]);
      Appended(Named(a[..n]), Parts(a[n + 1..]), Parts(b), Parts(a), Parts(path[n + 1..]));
    }
  }

  predicate IsPart(name: string) {
    name !in {"", "."} && '/' !in name
  }

  lemma PartsBelow(dir: string, path: string, name: string)
    requires IsPart(name) && path == dir + "/" + name
    ensures Parts(path) == Parts(dir) + [name]
  {
    JoinParts(dir, name, path);
    LastPart(name);
  }

  lemma OneName(path: string, x: string)
    requires IsPart(x) && path == "/" + x
    ensures Parts(path) == [x]
  {
    assert path == "" + "/" + x;
    PartsBelow("", path, x);
  }

  lemma TwoNames(path: string, dir: string, x: string, y: string)
    requires IsPart(x) && IsPart(y) && dir == "/" + x && path == dir + "/" + y
    ensures Parts(path) == [x, y]
  {
    OneName(dir, x);
    PartsBelow(dir, path, y);
  }

  lemma ThreeNames(path: string, x: string, y: string, z: string)
    requires IsPart(x) && IsPart(y) && IsPart(z) && path == "/" + x + "/" + y + "/" + z
    ensures Parts(path) == [x, y, z]
  {
    var dir := "/" + x + "/" + y;
    TwoNames(dir, "/" + x, x, y);
    PartsBelow(dir, path, z);
  }

  lemma NamesAround(path: string, x: string, y: string, any: string, z: string)
    requires IsPart(x) && IsPart(y) && IsPart(z) && path == "/" + x + "/" + y + "/" + any + "/" + z
    ensures Parts(path) == [x, y] + Parts(any) + [z]
  {
    var outer := "/" + x + "/" + y;
    var inner := outer + "/" + any;
    TwoNames(outer, "/" + x, x, y);
    JoinParts(outer, any, inner);
    PartsBelow(inner, path, z);
  }

  /** The mount is on the path, or on a directory above it. */
  predicate Covers(m: VolumeMount, path: string) {
    Parts(m.mountPath) <= Parts(path)
  }

  /** Of the mounts that cover a path the deepest one shows; two on one directory hide each other. */
  predicate Shows(c: Container, m: VolumeMount, path: string) {
    forall o :: o in c.mounts && o != m && Covers(o, path) ==> Parts(o.mountPath) < Parts(m.mountPath)
  }

  /** The container finds the value `origin` at `path`. */
  ghost predicate Finds(spec: PodSpec, c: Container, path: string, origin: FileOrigin) {
    exists m, v, item :: Provides(spec, c, m, v, item, path, origin) && Shows(c, m, path)
  }

  const MAIN := 0

  function Main(t: PodTemplate): Container
    requires |t.spec.containers| == 1
  {
    t.spec.containers[MAIN]
  }

  /** Which volume a mounted item of the main container can come from. */
  lemma MountedItems(h: Habitat, m: VolumeMount, v: Volume, item: KeyToPath)
    requires ValidateCustomObject(h).None?
    requires m in Mounts(h.v1beta2.value) && v in Volumes(h.v1beta2.value.service)
    requires m.name == v.name && item in VolumeItems(v.source)
    ensures var service := h.v1beta2.value.service;
            || (v == ConfigVolume() && m == ConfigMount() && item == KeyToPath(PEER_FILE, PEER_FILENAME))
            || (service.configSecretName.Some? && v in UserConfigVolumes(service.configSecretName)
                && m in UserConfigMounts(service) && item == KeyToPath(USER_TOML, USER_TOML))
            || (service.ringSecretName.Some? && v in RingVolumes(service.ringSecretName)
                && m in RingMounts(service.ringSecretName)
                && item == KeyToPath(RING_SECRET_KEY, service.ringSecretName.value + "." + RING_KEY_EXT))
  {
    var service := h.v1beta2.value.service;
    RingNameIsFresh(service);
    assert !(v in FilesVolumes(service.filesSecretName));
    assert v == ConfigVolume() || v in UserConfigVolumes(service.configSecretName) || v in RingVolumes(service.ringSecretName);
    assert m == ConfigMount() || m in UserConfigMounts(service) || m in FilesMounts(service)
        || m in PersistentMounts(h.v1beta2.value.persistentStorage) || m in RingMounts(service.ringSecretName);
  }

  /** The three built-in paths at which the main container finds single files. */
  function PeerFilePath(): string { PeerWatchPath() }

  function UserTomlPath(service: Service): string { UserConfigPath(service.name) + "/" + USER_TOML }

  function RingKeyPath(ringSecret: string): string { RING_KEY_DIR + "/" + (ringSecret + "." + RING_KEY_EXT) }

  lemma PathsDiffer(service: Service, ringSecret: string)
    ensures PeerFilePath() != UserTomlPath(service)
    ensures PeerFilePath() != RingKeyPath(ringSecret)
    ensures UserTomlPath(service) != RingKeyPath(ringSecret)
  {
    assert PeerFilePath()[4] == 'i';
    assert UserTomlPath(service)[4] == '/' && UserTomlPath(service)[5] == 'u';
    assert RingKeyPath(ringSecret)[4] == '/' && RingKeyPath(ringSecret)[5] == 'c';
  }

  /** The three values a file of the main container can hold, with the paths that hold them. */
  predicate IsBuiltInFile(service: Service, path: string, origin: FileOrigin) {
    || (path == PeerFilePath() && origin == FromConfigMap(CONFIG_MAP_NAME, PEER_FILE))
    || (service.configSecretName.Some? && path == UserTomlPath(service) && origin == FromSecret(service.configSecretName.value, USER_TOML))
    || (service.ringSecretName.Some? && path == RingKeyPath(service.ringSecretName.value)
        && origin == FromSecret(service.ringSecretName.value, RING_SECRET_KEY))
  }

  lemma ConfigParts(path: string)
    requires path == CONFIG_MAP_DIR
    ensures Parts(path) == ["habitat-operator"]
  {
    OneName(path, "habitat-operator");
  }

  lemma RingParts(path: string)
    requires path == RING_KEY_DIR
    ensures Parts(path) == ["hab", "cache", "keys"]
  {
    ThreeNames(path, "hab", "cache", "keys");
  }

  lemma UserConfigParts(path: string, name: string)
    requires path == UserConfigPath(name)
    ensures Parts(path) == ["hab", "user"] + Parts(name) + ["config"]
  {
    assert path == "/" + "hab" + "/" + "user" + "/" + name + "/" + "config";
    NamesAround(path, "hab", "user", name, "config");
  }

  lemma FilesParts(path: string, name: string)
    requires path == FilesPath(name)
    ensures Parts(path) == ["hab", "svc"] + Parts(name) + ["files"]
  {
    assert path == "/" + "hab" + "/" + "svc" + "/" + name + "/" + "files";
    NamesAround(path, "hab", "svc", name, "files");
  }

  /** The built-in mounts in the order in which the compiler appends them. */
  predicate BuiltIn(service: Service, m: VolumeMount, n: nat) {
    || (n == 0 && m == ConfigMount())
    || (n == 1 && m in UserConfigMounts(service))
    || (n == 2 && m in FilesMounts(service))
    || (n == 3 && m in RingMounts(service.ringSecretName))
  }

  /** How the names of their directories begin. */
  predicate Begins(parts: seq<string>, n: nat) {
    && parts != []
    && (n == 0 ==> parts == ["habitat-operator"])
    && (n > 0 ==> |parts| > 2 && parts[0] == "hab" && parts[1] == if n == 1 then "user" else if n == 2 then "svc" else "cache")
  }

  lemma BuiltInParts(service: Service, m: VolumeMount, n: nat)
    requires BuiltIn(service, m, n)
    ensures Begins(Parts(m.mountPath), n)
  {
    var path := m.mountPath;
    if n == 0 {
      ConfigParts(path);
    } else if n == 1 {
      UserConfigParts(path, service.name);
    } else if n == 2 {
      FilesParts(path, service.name);
    } else {
      RingParts(path);
    }
  }

  lemma BeginsApart(p: seq<string>, i: nat, q: seq<string>, j: nat, file: string)
    requires Begins(p, i) && Begins(q, j) && i <= 3 && j <= 3 && i != j
    ensures !(q <= p + [file])
  {
    assert |"hab"| < |"habitat-operator"| && |"svc"| < |"user"| < |"cache"|;
    if i == 0 || j == 0 {
      assert (p + [file])[0] == p[0] != q[0];
    } else {
      assert (p + [file])[1] == p[1] != q[1];
    }
  }

  /** The files lie directly in the directories of their mounts. */
  lemma ItemParts(h: Habitat, m: VolumeMount, v: Volume, item: KeyToPath) returns (n: nat)
    requires ValidateCustomObject(h).None?
    requires m in Mounts(h.v1beta2.value) && v in Volumes(h.v1beta2.value.service)
    requires m.name == v.name && item in VolumeItems(v.source)
    ensures Parts(m.mountPath + "/" + item.path) == Parts(m.mountPath) + [item.path]
    ensures BuiltIn(h.v1beta2.value.service, m, n)
  {
    MountedItems(h, m, v, item);
    n := if m == ConfigMount() then 0 else if m in UserConfigMounts(h.v1beta2.value.service) then 1 else 3;
    if item.key == RING_SECRET_KEY {
      RingName.AcceptedHasNoSlash(h.v1beta2.value.service.ringSecretName.value);
    }
    PartsBelow(m.mountPath, m.mountPath + "/" + item.path, item.path);
  }

  /** No built-in mount but its own covers a file. */
  lemma BuiltInsApart(service: Service, m: VolumeMount, i: nat, o: VolumeMount, j: nat, path: string, file: string)
    requires BuiltIn(service, m, i) && BuiltIn(service, o, j) && i != j
    requires Parts(path) == Parts(m.mountPath) + [file]
    ensures !Covers(o, path)
  {
    BuiltInParts(service, m, i);
    BuiltInParts(service, o, j);
    BeginsApart(Parts(m.mountPath), i, Parts(o.mountPath), j, file);
  }

  /** The user's storage is mounted on the file, or on its directory. */
  predicate HiddenByStorage(spec: V1beta2, dir: string, path: string) {
    spec.persistentStorage.Some? && Parts(spec.persistentStorage.value.mountPath) in {Parts(dir), Parts(path)}
  }

  /** The main container's mounts: the built-in ones, and the user's storage. */
  lemma MainMounts(h: Habitat, o: VolumeMount) returns (j: nat)
    requires ValidateCustomObject(h).None? && o in Main(Template(h)).mounts
    ensures o in PersistentMounts(h.v1beta2.value.persistentStorage) || BuiltIn(h.v1beta2.value.service, o, j)
  {
    var service := h.v1beta2.value.service;
    j := if o == ConfigMount() then 0 else if o in UserConfigMounts(service) then 1 else if o in FilesMounts(service) then 2 else 3;
  }

  lemma OthersApart(h: Habitat, m: VolumeMount, i: nat, o: VolumeMount, path: string, file: string)
    requires ValidateCustomObject(h).None? && o in Main(Template(h)).mounts && o != m
    requires BuiltIn(h.v1beta2.value.service, m, i) && Parts(path) == Parts(m.mountPath) + [file]
    ensures o in PersistentMounts(h.v1beta2.value.persistentStorage) || !Covers(o, path)
  {
    var j := MainMounts(h, o);
    if o !in PersistentMounts(h.v1beta2.value.persistentStorage) {
      BuiltInsApart(h.v1beta2.value.service, m, i, o, j, path, file);
    }
  }

  lemma StorageIsAMount(h: Habitat, storage: VolumeMount, m: VolumeMount, i: nat)
    requires ValidateCustomObject(h).None? && BuiltIn(h.v1beta2.value.service, m, i)
    requires storage in PersistentMounts(h.v1beta2.value.persistentStorage)
    ensures storage in Main(Template(h)).mounts && storage != m
    ensures storage.mountPath == h.v1beta2.value.persistentStorage.value.mountPath
  {
    RingNameIsFresh(h.v1beta2.value.service);
  }

  lemma OnOrAbove(q: seq<string>, dir: seq<string>, file: string)
    ensures q <= dir + [file] <==> q < dir || q == dir || q == dir + [file]
  {
    if q <= dir + [file] {
      if |q| <= |dir| {
        assert forall i :: 0 <= i < |q| ==> q[i] == (dir + [file])[i] == dir[i];
      } else {
        assert q == dir + [file];
      }
    }
  }

  /** A mounted file shows exactly unless the user's storage hides it. */
  lemma ShowsExactly(h: Habitat, m: VolumeMount, i: nat, path: string, file: string)
    requires ValidateCustomObject(h).None?
    requires BuiltIn(h.v1beta2.value.service, m, i) && Parts(path) == Parts(m.mountPath) + [file]
    ensures Shows(Main(Template(h)), m, path) <==> !HiddenByStorage(h.v1beta2.value, m.mountPath, path)
  {
    var mounts, storages := Main(Template(h)).mounts, PersistentMounts(h.v1beta2.value.persistentStorage);
    forall o | o in mounts && o != m ensures o in storages || !Covers(o, path) {
      OthersApart(h, m, i, o, path, file);
    }
    forall o | o in storages
      ensures o in mounts && o != m && o.mountPath == h.v1beta2.value.persistentStorage.value.mountPath
      ensures Covers(o, path) <==> Parts(o.mountPath) < Parts(m.mountPath) || Parts(o.mountPath) in {Parts(m.mountPath), Parts(path)}
    {
      StorageIsAMount(h, o, m, i);
      OnOrAbove(Parts(o.mountPath), Parts(m.mountPath), file);
    }
    ShownUnlessStored(h.v1beta2.value, Main(Template(h)), m, path, file);
  }

  lemma ShownUnlessStored(spec: V1beta2, c: Container, m: VolumeMount, path: string, file: string)
    requires Parts(path) == Parts(m.mountPath) + [file]
    requires forall o :: o in c.mounts && o != m ==> o in PersistentMounts(spec.persistentStorage) || !Covers(o, path)
    requires forall o :: o in PersistentMounts(spec.persistentStorage) ==>
               && o in c.mounts && o != m && o.mountPath == spec.persistentStorage.value.mountPath
               && (Covers(o, path) <==> Parts(o.mountPath) < Parts(m.mountPath) || Parts(o.mountPath) in {Parts(m.mountPath), Parts(path)})
    ensures Shows(c, m, path) <==> !HiddenByStorage(spec, m.mountPath, path)
  {
    if spec.persistentStorage.Some? {
      var o := PersistentMounts(spec.persistentStorage)[0];
      assert o in PersistentMounts(spec.persistentStorage);
    }
  }

  /** The directory that holds the file of this origin. */
  function BuiltInDir(service: Service, origin: FileOrigin): string {
    if origin.FromConfigMap? then CONFIG_MAP_DIR
    else if origin.key == USER_TOML then UserConfigPath(service.name)
    else RING_KEY_DIR
  }

  lemma OnlyTheseFiles(h: Habitat, path: string, origin: FileOrigin)
    requires ValidateCustomObject(h).None?
    requires Finds(Template(h).spec, Main(Template(h)), path, origin)
    ensures IsBuiltInFile(h.v1beta2.value.service, path, origin)
    ensures !HiddenByStorage(h.v1beta2.value, BuiltInDir(h.v1beta2.value.service, origin), path)
  {
    var t := Template(h);
    var m, v, item :| Provides(t.spec, Main(t), m, v, item, path, origin) && Shows(Main(t), m, path);
    MountedItems(h, m, v, item);
    var n := ItemParts(h, m, v, item);
    ShowsExactly(h, m, n, path, item.path);
  }

  lemma FindsAt(h: Habitat, m: VolumeMount, v: Volume, item: KeyToPath)
    requires ValidateCustomObject(h).None?
    requires m in Mounts(h.v1beta2.value) && v in Volumes(h.v1beta2.value.service)
    requires m.name == v.name && item in VolumeItems(v.source)
    requires !HiddenByStorage(h.v1beta2.value, m.mountPath, m.mountPath + "/" + item.path)
    ensures Finds(Template(h).spec, Main(Template(h)), m.mountPath + "/" + item.path, Origin(v.source, item.key))
  {
    var t, path := Template(h), m.mountPath + "/" + item.path;
    var n := ItemParts(h, m, v, item);
    ShowsExactly(h, m, n, path, item.path);
    assert Provides(t.spec, Main(t), m, v, item, path, Origin(v.source, item.key));
  }

  lemma TheseFiles(h: Habitat, path: string, origin: FileOrigin)
    requires ValidateCustomObject(h).None?
    requires IsBuiltInFile(h.v1beta2.value.service, path, origin)
    requires !HiddenByStorage(h.v1beta2.value, BuiltInDir(h.v1beta2.value.service, origin), path)
    ensures Finds(Template(h).spec, Main(Template(h)), path, origin)
  {
    var service := h.v1beta2.value.service;
    if path == PeerFilePath() && origin == FromConfigMap(CONFIG_MAP_NAME, PEER_FILE) {
      FindsAt(h, ConfigMount(), ConfigVolume(), KeyToPath(PEER_FILE, PEER_FILENAME));
    } else if origin.key == USER_TOML {
      FindsAt(h, UserConfigMounts(service)[0], UserConfigVolumes(service.configSecretName)[0], KeyToPath(USER_TOML, USER_TOML));
    } else {
      var ring := service.ringSecretName.value;
      FindsAt(h, RingMounts(service.ringSecretName)[0], RingVolumes(service.ringSecretName)[0],
              KeyToPath(RING_SECRET_KEY, ring + "." + RING_KEY_EXT));
    }
  }

  lemma FoundExactly(h: Habitat, path: string, origin: FileOrigin)
    requires ValidateCustomObject(h).None?
    ensures Finds(Template(h).spec, Main(Template(h)), path, origin) <==>
              && IsBuiltInFile(h.v1beta2.value.service, path, origin)
              && !HiddenByStorage(h.v1beta2.value, BuiltInDir(h.v1beta2.value.service, origin), path)
  {
    var service := h.v1beta2.value.service;
    if Finds(Template(h).spec, Main(Template(h)), path, origin) { OnlyTheseFiles(h, path, origin); }
    if IsBuiltInFile(service, path, origin) && !HiddenByStorage(h.v1beta2.value, BuiltInDir(service, origin), path) {
      TheseFiles(h, path, origin);
    }
  }

  // ---------- The files, spelled out ----------

  /** The file at `path`, in the directory `dir`, holds the value `origin`. */
  predicate IsFile(service: Service, dir: string, path: string, origin: FileOrigin) {
    || (dir == "/habitat-operator" && path == "/habitat-operator/peer-ip"
        && origin == FromConfigMap("peer-watch-file", "peer-watch-file"))
    || (service.configSecretName.Some? && dir == "/hab/user/" + service.name + "/config"
        && path == "/hab/user/" + service.name + "/config/user.toml"
        && origin == FromSecret(service.configSecretName.value, "user.toml"))
    || (service.ringSecretName.Some? && dir == "/hab/cache/keys"
        && path == "/hab/cache/keys/" + service.ringSecretName.value + ".sym.key"
        && origin == FromSecret(service.ringSecretName.value, "ring-key"))
  }

  lemma PathsSpelled(service: Service, ring: string)
    ensures PeerFilePath() == "/habitat-operator/peer-ip"
    ensures UserTomlPath(service) == "/hab/user/" + service.name + "/config/user.toml"
    ensures RingKeyPath(ring) == "/hab/cache/keys/" + ring + ".sym.key"
  {
  }

  lemma KeysDiffer()
    ensures USER_TOML != RING_SECRET_KEY
  {
    assert USER_TOML[0] == 'u' && RING_SECRET_KEY[0] == 'r';
  }

  lemma FilesSpelled(service: Service, path: string, origin: FileOrigin)
    ensures IsBuiltInFile(service, path, origin) <==> IsFile(service, BuiltInDir(service, origin), path, origin)
  {
    PathsSpelled(service, if service.ringSecretName.Some? then service.ringSecretName.value else "");
    KeysDiffer();
  }

  /**
    The main container finds the peer entry of the namespace's ConfigMap, the service's `user.toml` if a
    configuration Secret is named, the ring key under the ring Secret's full name, and no other single
    file, each exactly unless the user's storage is mounted on the file or on its directory.
  */
  lemma FilesFound(parse: QuantityParser, h: Habitat, path: string, origin: FileOrigin)
    requires ValidateCustomObject(h).None? && ClaimsParse(parse, h)
    ensures var t := Desired(parse, h).spec.template;
            && |t.spec.containers| == 1
            && (Finds(t.spec, Main(t), path, origin) <==>
                  exists dir :: IsFile(h.v1beta2.value.service, dir, path, origin) && !HiddenByStorage(h.v1beta2.value, dir, path))
  {
    var service := h.v1beta2.value.service;
    FoundExactly(h, path, origin);
    FilesSpelled(service, path, origin);
    forall dir | IsFile(service, dir, path, origin) ensures dir == BuiltInDir(service, origin) { DirSpelled(service, dir, path, origin); }
  }

  lemma DirSpelled(service: Service, dir: string, path: string, origin: FileOrigin)
    requires IsFile(service, dir, path, origin)
    ensures dir == BuiltInDir(service, origin)
  {
    KeysDiffer();
  }

  /** The file named by `--peer-watch-file` holds the peer entry and nothing else, unless the user's storage hides it. */
  lemma PeerFileIsPeerEntry(parse: QuantityParser, h: Habitat, origin: FileOrigin)
    requires ValidateCustomObject(h).None? && ClaimsParse(parse, h)
    ensures var t := Desired(parse, h).spec.template;
            && |t.spec.containers| == 1
            && ReadArgs(Main(t).args, NOTHING).Some?
            && ReadArgs(Main(t).args, NOTHING).value.peerWatchFile.Some?
            && var path := ReadArgs(Main(t).args, NOTHING).value.peerWatchFile.value;
               Finds(t.spec, Main(t), path, origin) <==>
                 origin == FromConfigMap("peer-watch-file", "peer-watch-file") && !HiddenByStorage(h.v1beta2.value, "/habitat-operator", path)
  {
    var service := h.v1beta2.value.service;
    ArgsRoundTrip(service);
    FoundExactly(h, PeerFilePath(), origin);
    PathsDiffer(service, if service.ringSecretName.Some? then service.ringSecretName.value else "");
  }

  /** What the supervisor is told is what the spec says. */
  ghost predicate TellsOf(told: Invocation, service: Service) {
    && told.group == service.group && told.channel == service.channel
    && told.topology == Some(service.topology)
    && told.peerWatchFile == Some("/habitat-operator/peer-ip")
    && Bound(told.binds, service.bind.ToSeq())
    && (told.ring.Some? <==> service.ringSecretName.Some?)
    && (told.ring.Some? ==> RingName.IsName(told.ring.value) && RingOfSecret(told.ring.value, service.ringSecretName.value))
  }

  lemma ArgsTell(h: Habitat)
    requires ValidateCustomObject(h).None?
    ensures var service := h.v1beta2.value.service;
            ReadArgs(Args(service), NOTHING).Some? && TellsOf(ReadArgs(Args(service), NOTHING).value, service)
  {
    var service := h.v1beta2.value.service;
    ArgsRoundTrip(service);
    PathsSpelled(service, "");
    if service.ringSecretName.Some? { RingName.MatchesExactly(service.ringSecretName.value); }
  }

  /** The two arguments of a flag that is given only with a value. */
  predicate Optional(args: seq<string>, flag: string, value: Option<string>) {
    args == if value.Some? then [flag, value.value] else []
  }

  predicate BindFlags(args: seq<string>, binds: seq<Bind>) {
    |args| == 2 * |binds| &&
    forall i :: 0 <= i < |binds| ==>
      args[2 * i] == "--bind" && args[2 * i + 1] == binds[i].name + ":" + binds[i].service + "." + binds[i].group
  }

  lemma {:induction false} BindsSpelled(binds: seq<Bind>)
    ensures BindFlags(BindArgs(binds), binds)
  {
    if binds != [] {
      var rest := BindArgs(binds[1..]);
      BindsSpelled(binds[1..]);
      forall i | 0 <= i < |binds|
        ensures BindArgs(binds)[2 * i] == "--bind" && BindArgs(binds)[2 * i + 1] == binds[i].name + ":" + binds[i].service + "." + binds[i].group
      {
        if i > 0 {
          assert binds[i] == binds[1..][i - 1];
          assert BindArgs(binds)[2 * i] == rest[2 * (i - 1)] && BindArgs(binds)[2 * i + 1] == rest[2 * (i - 1) + 1];
        }
      }
    }
  }

  /** The arguments, flag by flag and in their order. */
  lemma ArgsSpelled(h: Habitat)
    returns (groupArgs: seq<string>, channelArgs: seq<string>, bindArgs: seq<string>, ringArgs: seq<string>)
    requires ValidateCustomObject(h).None?
    ensures var service := h.v1beta2.value.service;
            && Optional(groupArgs, "--group", service.group) && Optional(channelArgs, "--channel", service.channel)
            && BindFlags(bindArgs, service.bind.ToSeq())
            && (if service.ringSecretName.Some? then |ringArgs| == 2 && ringArgs[0] == "--ring" else ringArgs == [])
            && Main(Template(h)).args ==
                 groupArgs + channelArgs + ["--topology", service.topology, "--peer-watch-file", "/habitat-operator/peer-ip"]
                 + bindArgs + ringArgs
  {
    var service := h.v1beta2.value.service;
    groupArgs, channelArgs := FlagArgs("--group", service.group), FlagArgs("--channel", service.channel);
    bindArgs, ringArgs := BindArgs(service.bind.ToSeq()), RingArgs(service.ringSecretName);
    BindsSpelled(service.bind.ToSeq());
    PathsSpelled(service, "");
    assert PeerWatchPath() == "/habitat-operator/peer-ip";
  }

  /** The command line of the main container, read back; the pod's topology labels say what it says. */
  lemma CommandLine(parse: QuantityParser, h: Habitat)
    requires ValidateCustomObject(h).None? && ClaimsParse(parse, h)
    ensures var t := Desired(parse, h).spec.template;
            && |t.spec.containers| == 1 && ReadArgs(Main(t).args, NOTHING).Some?
            && var told := ReadArgs(Main(t).args, NOTHING).value;
               && TellsOf(told, h.v1beta2.value.service)
               && "topology" in t.labels && told.topology == Some(t.labels["topology"])
               && "operator.habitat.sh/topology" in t.labels && told.topology == Some(t.labels["operator.habitat.sh/topology"])
  {
    ArgsTell(h);
    DesiredIdentity(parse, h);
  }

  predicate Bound(told: seq<string>, binds: seq<Bind>) {
    |told| == |binds| && forall i :: 0 <= i < |binds| ==> told[i] == binds[i].name + ":" + binds[i].service + "." + binds[i].group
  }

  /** The Secret's name is the ring's, '-' and a revision. */
  ghost predicate RingOfSecret(ring: string, secret: string) {
    exists revision :: RingName.IsRevision(revision) && secret == RingName.Render(ring, revision)
  }

  // ---------- Well-formedness ----------

  const FIXED_NAMES := {CONFIG_VOLUME, USER_CONFIG_VOLUME, FILES_SECRET_VOLUME, FILES_VOLUME, PERSISTENT_VOLUME}

  /** The validated revision suffix keeps the user-chosen ring volume name apart from the fixed names. */
  lemma RingNameIsFresh(service: Service)
    requires service.ringSecretName.Some? ==> |RingName.FindStringSubmatch(service.ringSecretName.value)| >= 2
    ensures service.ringSecretName.Some? ==> service.ringSecretName.value !in FIXED_NAMES
  {
    if service.ringSecretName.Some? {
      RingName.AcceptedEndsInDigit(service.ringSecretName.value);
    }
  }

  predicate Distinct(names: seq<string>) {
    forall i, j :: 0 <= i < j < |names| ==> names[i] != names[j]
  }

  function VolumeNames(volumes: seq<Volume>): (r: seq<string>)
    ensures |r| == |volumes| && forall i :: 0 <= i < |r| ==> r[i] == volumes[i].name
  {
    seq(|volumes|, i requires 0 <= i < |volumes| => volumes[i].name)
  }

  function ClaimNames(claims: seq<Claim>): (r: seq<string>)
    ensures |r| == |claims| && forall i :: 0 <= i < |r| ==> r[i] == claims[i].name
  {
    seq(|claims|, i requires 0 <= i < |claims| => claims[i].name)
  }

  function MountPaths(mounts: seq<VolumeMount>): (r: seq<string>)
    ensures |r| == |mounts| && forall i :: 0 <= i < |r| ==> r[i] == mounts[i].mountPath
  {
    seq(|mounts|, i requires 0 <= i < |mounts| => mounts[i].mountPath)
  }

  lemma DistinctAppend(a: seq<string>, b: seq<string>)
    requires Distinct(a) && Distinct(b)
    requires forall x :: x in b ==> x !in a
    ensures Distinct(a + b)
  {
    forall i, j | 0 <= i < j < |a + b| ensures (a + b)[i] != (a + b)[j] {
      if i < |a| <= j { assert (a + b)[j] in b && (a + b)[i] in a; }
    }
  }

  lemma NamesAppend(a: seq<Volume>, b: seq<Volume>)
    ensures VolumeNames(a + b) == VolumeNames(a) + VolumeNames(b)
  {
  }

  /** No two volumes or claims of the pod share a name. */
  lemma VolumeNamesDistinct(parse: QuantityParser, h: Habitat)
    requires ValidateCustomObject(h).None? && ClaimsParse(parse, h)
    ensures var spec := Desired(parse, h).spec;
            Distinct(VolumeNames(spec.template.spec.volumes) + ClaimNames(spec.claims))
  {
    var service := h.v1beta2.value.service;
    var a, b := [ConfigVolume()], UserConfigVolumes(service.configSecretName);
    var c, d := FilesVolumes(service.filesSecretName), RingVolumes(service.ringSecretName);
    var e := ClaimNames(Claims(parse, h));
    NamesAppend(a, b);
    NamesAppend(a + b, c);
    NamesAppend(a + b + c, d);
    RingNameIsFresh(service);
    assert VolumeNames(a) == [CONFIG_VOLUME];
    assert VolumeNames(b) == [] || VolumeNames(b) == [USER_CONFIG_VOLUME];
    assert VolumeNames(c) == [] || VolumeNames(c) == [FILES_SECRET_VOLUME, FILES_VOLUME];
    assert VolumeNames(d) == [] || VolumeNames(d) == [service.ringSecretName.value];
    assert e == [] || e == [PERSISTENT_VOLUME];
    FourDistinct(VolumeNames(b), VolumeNames(c), VolumeNames(d), e, if service.ringSecretName.Some? then service.ringSecretName.value else "");
  }

  lemma FourDistinct(b: seq<string>, c: seq<string>, d: seq<string>, e: seq<string>, ring: string)
    requires ring !in FIXED_NAMES
    requires b == [] || b == [USER_CONFIG_VOLUME]
    requires c == [] || c == [FILES_SECRET_VOLUME, FILES_VOLUME]
    requires d == [] || d == [ring]
    requires e == [] || e == [PERSISTENT_VOLUME]
    ensures Distinct([CONFIG_VOLUME] + b + c + d + e)
  {
    var a := [CONFIG_VOLUME];
    DistinctAppend(a, b);
    DistinctAppend(a + b, c);
    DistinctAppend(a + b + c, d);
    DistinctAppend(a + b + c + d, e);
  }

  predicate Declared(name: string, volumes: seq<Volume>, claims: seq<Claim>) {
    name in VolumeNames(volumes) || name in ClaimNames(claims)
  }

  lemma NamesContain(volumes: seq<Volume>, v: Volume)
    requires v in volumes
    ensures v.name in VolumeNames(volumes)
  {
    var i :| 0 <= i < |volumes| && volumes[i] == v;
    assert VolumeNames(volumes)[i] == v.name;
  }

  /** Every mount of every container names a declared volume or claim. */
  lemma MountsDeclared(parse: QuantityParser, h: Habitat, c: Container, m: VolumeMount)
    requires ValidateCustomObject(h).None? && ClaimsParse(parse, h)
    requires var t := Desired(parse, h).spec.template.spec;
             (c in t.containers || c in t.initContainers) && m in c.mounts
    ensures var spec := Desired(parse, h).spec;
            Declared(m.name, spec.template.spec.volumes, spec.claims)
  {
    var spec := h.v1beta2.value;
    var service := spec.service;
    var volumes := Volumes(service);
    NamesContain(volumes, ConfigVolume());
    if service.configSecretName.Some? { NamesContain(volumes, UserConfigVolumes(service.configSecretName)[0]); }
    if service.filesSecretName.Some? {
      NamesContain(volumes, FilesVolumes(service.filesSecretName)[0]);
      NamesContain(volumes, FilesVolumes(service.filesSecretName)[1]);
    }
    if service.ringSecretName.Some? { NamesContain(volumes, RingVolumes(service.ringSecretName)[0]); }
    if spec.persistentStorage.Some? { assert ClaimNames(Claims(parse, h))[0] == PERSISTENT_VOLUME; }
    if c in InitContainers(service) {
      assert m.name == FILES_SECRET_VOLUME || m.name == FILES_VOLUME;
    } else {
      assert m == ConfigMount() || m in UserConfigMounts(service) || m in FilesMounts(service)
          || m in PersistentMounts(spec.persistentStorage) || m in RingMounts(service.ringSecretName);
    }
  }

  function BuiltInPaths(service: Service): set<string> {
    {CONFIG_MAP_DIR}
    + (if service.configSecretName.Some? then {UserConfigPath(service.name)} else {})
    + (if service.filesSecretName.Some? then {FilesPath(service.name)} else {})
    + (if service.ringSecretName.Some? then {RING_KEY_DIR} else {})
  }

  lemma PathsAppend(a: seq<VolumeMount>, b: seq<VolumeMount>)
    ensures MountPaths(a + b) == MountPaths(a) + MountPaths(b)
  {
  }

  lemma BuiltInPathsDiffer(service: Service)
    ensures CONFIG_MAP_DIR != UserConfigPath(service.name) && CONFIG_MAP_DIR != FilesPath(service.name)
    ensures CONFIG_MAP_DIR != RING_KEY_DIR && UserConfigPath(service.name) != FilesPath(service.name)
    ensures UserConfigPath(service.name) != RING_KEY_DIR && FilesPath(service.name) != RING_KEY_DIR
  {
    assert CONFIG_MAP_DIR[4] == 'i';
    assert UserConfigPath(service.name)[4] == '/' && UserConfigPath(service.name)[5] == 'u';
    assert FilesPath(service.name)[4] == '/' && FilesPath(service.name)[5] == 's';
    assert RING_KEY_DIR[4] == '/' && RING_KEY_DIR[5] == 'c';
  }

  /** The init container's two mount paths never clash. */
  lemma InitPathsDistinct(service: Service)
    ensures forall c :: c in InitContainers(service) ==> Distinct(MountPaths(c.mounts))
  {
    assert FILES_MOUNT_PATH[1] == 'm' && FilesPath(service.name)[1] == 'h';
  }

  /** The mount paths of a container clash exactly when it is the main one and the user's storage path is a built-in one in use. */
  lemma MountPathsDistinct(parse: QuantityParser, h: Habitat)
    requires ValidateCustomObject(h).None? && ClaimsParse(parse, h)
    ensures var spec := h.v1beta2.value;
            var t := Desired(parse, h).spec.template;
            && (Distinct(MountPaths(Main(t).mounts)) <==>
                  (spec.persistentStorage.Some? ==> spec.persistentStorage.value.mountPath !in BuiltInPaths(spec.service)))
            && forall c :: c in t.spec.initContainers ==> Distinct(MountPaths(c.mounts))
  {
    var spec := h.v1beta2.value;
    var service := spec.service;
    var a, b, c := [ConfigMount()], UserConfigMounts(service), FilesMounts(service);
    var d, e := PersistentMounts(spec.persistentStorage), RingMounts(service.ringSecretName);
    PathsAppend(a, b);
    PathsAppend(a + b, c);
    PathsAppend(a + b + c, d);
    PathsAppend(a + b + c + d, e);
    BuiltInPathsDiffer(service);
    InitPathsDistinct(service);
    var user, files := UserConfigPath(service.name), FilesPath(service.name);
    var path := if spec.persistentStorage.Some? then spec.persistentStorage.value.mountPath else "";
    assert MountPaths(a) == [CONFIG_MAP_DIR];
    assert MountPaths(b) == if service.configSecretName.Some? then [user] else [];
    assert MountPaths(c) == if service.filesSecretName.Some? then [files] else [];
    assert MountPaths(d) == if spec.persistentStorage.Some? then [path] else [];
    assert MountPaths(e) == if service.ringSecretName.Some? then [RING_KEY_DIR] else [];
    DistinctIffAvoids(user, files, path, MountPaths(b), MountPaths(c), MountPaths(d), MountPaths(e));
  }

  lemma DistinctIffAvoids(user: string, files: string, path: string, b: seq<string>, c: seq<string>, d: seq<string>, e: seq<string>)
    requires CONFIG_MAP_DIR != user && CONFIG_MAP_DIR != files && user != files && user != RING_KEY_DIR && files != RING_KEY_DIR
    requires b == [] || b == [user]
    requires c == [] || c == [files]
    requires d == [] || d == [path]
    requires e == [] || e == [RING_KEY_DIR]
    ensures Distinct([CONFIG_MAP_DIR] + b + c + d + e) <==>
              (d != [] ==> path != CONFIG_MAP_DIR && path !in b && path !in c && path !in e)
  {
    var a := [CONFIG_MAP_DIR];
    var all := a + b + c + d + e;
    DistinctAppend(a, b);
    DistinctAppend(a + b, c);
    if d == [] {
      DistinctAppend(a + b + c, d);
      DistinctAppend(a + b + c + d, e);
    } else if path != CONFIG_MAP_DIR && path !in b && path !in c && path !in e {
      DistinctAppend(a + b + c, d);
      DistinctAppend(a + b + c + d, e);
    } else {
      var at := |a + b + c|;
      assert all[at] == path;
      if path in e {
        assert all[at + 1] == path;
      } else {
        assert path in a + b + c;
        var i :| 0 <= i < at && (a + b + c)[i] == path;
        assert all[i] == path;
      }
    }
  }
}
