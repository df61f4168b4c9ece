/** Which parts of a Habitat its pod template depends on. */
module Factoring {
  import opened Types
  import RingName
  import opened StatefulSets
  import opened Supervisor

  function MountPathOf(spec: V1beta2): Option<string> {
    if spec.persistentStorage.Some? then Some(spec.persistentStorage.value.mountPath) else None
  }

  /**
    The two specs agree on everything that reaches a pod. The service name reaches it only through
    the configuration and files Secrets; count, storage size and storage class never do.
  */
  predicate Agree(a: V1beta2, b: V1beta2) {
    && a.image == b.image
    && a.env == b.env
    && a.service.group == b.service.group
    && a.service.channel == b.service.channel
    && Topology(a.service) == Topology(b.service)
    && BindStrings(a.service.bind.ToSeq()) == BindStrings(b.service.bind.ToSeq())
    && a.service.ringSecretName == b.service.ringSecretName
    && a.service.configSecretName == b.service.configSecretName
    && a.service.filesSecretName == b.service.filesSecretName
    && (a.service.configSecretName.Some? || a.service.filesSecretName.Some? ==> a.service.name == b.service.name)
    && MountPathOf(a) == MountPathOf(b)
  }

  // ---------- Left inverses of the lists ----------

  function VolumeNamed(volumes: seq<Volume>, name: string): Option<VolumeSource> {
    if volumes == [] then None
    else if volumes[0].name == name then Some(volumes[0].source)
    else VolumeNamed(volumes[1..], name)
  }

  function MountNamed(mounts: seq<VolumeMount>, name: string): Option<string> {
    if mounts == [] then None
    else if mounts[0].name == name then Some(mounts[0].mountPath)
    else MountNamed(mounts[1..], name)
  }

  lemma {:induction false} VolumeNamedAppend(a: seq<Volume>, b: seq<Volume>, name: string)
    ensures VolumeNamed(a + b, name) == if VolumeNamed(a, name).Some? then VolumeNamed(a, name) else VolumeNamed(b, name)
  {
    if a == [] {
      assert a + b == b;
    } else {
      assert (a + b)[1..] == a[1..] + b;
      VolumeNamedAppend(a[1..], b, name);
    }
  }

  lemma {:induction false} MountNamedAppend(a: seq<VolumeMount>, b: seq<VolumeMount>, name: string)
    ensures MountNamed(a + b, name) == if MountNamed(a, name).Some? then MountNamed(a, name) else MountNamed(b, name)
  {
    if a == [] {
      assert a + b == b;
    } else {
      assert (a + b)[1..] == a[1..] + b;
      MountNamedAppend(a[1..], b, name);
    }
  }

  /** The volumes tell the three Secret names. */
  lemma VolumesTell(service: Service)
    requires service.ringSecretName.Some? ==> |RingName.FindStringSubmatch(service.ringSecretName.value)| >= 2
    ensures var volumes := Volumes(service);
            && VolumeNamed(volumes, USER_CONFIG_VOLUME) ==
               (if service.configSecretName.Some? then Some(UserConfigVolumes(service.configSecretName)[0].source) else None)
            && VolumeNamed(volumes, FILES_SECRET_VOLUME) ==
               (if service.filesSecretName.Some? then Some(SecretVolume(service.filesSecretName.value, [])) else None)
            && (if volumes[|volumes| - 1].name in FIXED_NAMES then None else Some(volumes[|volumes| - 1].name)) == service.ringSecretName
  {
    RingNameIsFresh(service);
    var a, b := [ConfigVolume()], UserConfigVolumes(service.configSecretName);
    var c, d := FilesVolumes(service.filesSecretName), RingVolumes(service.ringSecretName);
    VolumeNamedAppend(a, b, USER_CONFIG_VOLUME);
    VolumeNamedAppend(a + b, c, USER_CONFIG_VOLUME);
    VolumeNamedAppend(a + b + c, d, USER_CONFIG_VOLUME);
    VolumeNamedAppend(a, b, FILES_SECRET_VOLUME);
    VolumeNamedAppend(a + b, c, FILES_SECRET_VOLUME);
    VolumeNamedAppend(a + b + c, d, FILES_SECRET_VOLUME);
    if service.filesSecretName.Some? { assert c[1..][1..] == []; }
  }

  /** The mounts tell the paths under which the optional volumes appear. */
  lemma MountsTell(spec: V1beta2)
    requires spec.service.ringSecretName.Some? ==> |RingName.FindStringSubmatch(spec.service.ringSecretName.value)| >= 2
    ensures var mounts := Mounts(spec);
            && MountNamed(mounts, USER_CONFIG_VOLUME) ==
               (if spec.service.configSecretName.Some? then Some(UserConfigPath(spec.service.name)) else None)
            && MountNamed(mounts, FILES_VOLUME) ==
               (if spec.service.filesSecretName.Some? then Some(FilesPath(spec.service.name)) else None)
            && MountNamed(mounts, PERSISTENT_VOLUME) == MountPathOf(spec)
  {
    RingNameIsFresh(spec.service);
    MountTells(spec, USER_CONFIG_VOLUME);
    MountTells(spec, FILES_VOLUME);
    MountTells(spec, PERSISTENT_VOLUME);
  }

  lemma MountTells(spec: V1beta2, name: string)
    ensures MountNamed(Mounts(spec), name) ==
            if name == CONFIG_VOLUME then Some(CONFIG_MAP_DIR)
            else if MountNamed(UserConfigMounts(spec.service), name).Some? then MountNamed(UserConfigMounts(spec.service), name)
            else if MountNamed(FilesMounts(spec.service), name).Some? then MountNamed(FilesMounts(spec.service), name)
            else if MountNamed(PersistentMounts(spec.persistentStorage), name).Some? then MountNamed(PersistentMounts(spec.persistentStorage), name)
            else MountNamed(RingMounts(spec.service.ringSecretName), name)
  {
    var a, b, c := [ConfigMount()], UserConfigMounts(spec.service), FilesMounts(spec.service);
    var d, e := PersistentMounts(spec.persistentStorage), RingMounts(spec.service.ringSecretName);
    MountNamedAppend(a, b, name);
    MountNamedAppend(a + b, c, name);
    MountNamedAppend(a + b + c, d, name);
    MountNamedAppend(a + b + c + d, e, name);
  }

  lemma PathTellsName(n1: string, n2: string)
    ensures UserConfigPath(n1) == UserConfigPath(n2) ==> n1 == n2
    ensures FilesPath(n1) == FilesPath(n2) ==> n1 == n2
  {
    assert UserConfigPath(n1)[10..|UserConfigPath(n1)| - 7] == n1;
    assert UserConfigPath(n2)[10..|UserConfigPath(n2)| - 7] == n2;
    assert FilesPath(n1)[9..|FilesPath(n1)| - 6] == n1;
    assert FilesPath(n2)[9..|FilesPath(n2)| - 6] == n2;
  }

  lemma {:induction false} BindArgsOfStrings(a: seq<Bind>, b: seq<Bind>)
    requires BindStrings(a) == BindStrings(b)
    ensures BindArgs(a) == BindArgs(b)
  {
    if a != [] {
      assert |a| == |b|;
      assert BindStrings(a)[0] == BindStrings(b)[0];
      assert BindStrings(a[1..]) == BindStrings(a)[1..] == BindStrings(b)[1..] == BindStrings(b[1..]);
      BindArgsOfStrings(a[1..], b[1..]);
    }
  }

  lemma AgreementIsEnough(a: Habitat, b: Habitat)
    requires ValidateCustomObject(a).None? && ValidateCustomObject(b).None?
    requires a.name == b.name && Agree(a.v1beta2.value, b.v1beta2.value)
    ensures Template(a) == Template(b)
  {
    BindArgsOfStrings(a.v1beta2.value.service.bind.ToSeq(), b.v1beta2.value.service.bind.ToSeq());
  }

  lemma EqualTemplatesAgree(a: Habitat, b: Habitat)
    requires ValidateCustomObject(a).None? && ValidateCustomObject(b).None?
    requires Template(a) == Template(b)
    ensures a.name == b.name && Agree(a.v1beta2.value, b.v1beta2.value)
  {
    var s, t := a.v1beta2.value, b.v1beta2.value;
    assert Template(a).labels[HABITAT_NAME_LABEL] == a.name && Template(b).labels[HABITAT_NAME_LABEL] == b.name;
    var c, d := Main(Template(a)), Main(Template(b));
    assert c.image == s.image && d.image == t.image && c.env == s.env && d.env == t.env;
    assert Args(s.service) == Args(t.service) && Mounts(s) == Mounts(t) && Volumes(s.service) == Volumes(t.service);
    ArgsRoundTrip(s.service);
    ArgsRoundTrip(t.service);
    SecretsAgree(s, t);
  }

  lemma SecretsAgree(s: V1beta2, t: V1beta2)
    requires s.service.ringSecretName.Some? ==> |RingName.FindStringSubmatch(s.service.ringSecretName.value)| >= 2
    requires t.service.ringSecretName.Some? ==> |RingName.FindStringSubmatch(t.service.ringSecretName.value)| >= 2
    requires Mounts(s) == Mounts(t) && Volumes(s.service) == Volumes(t.service)
    ensures s.service.configSecretName == t.service.configSecretName
    ensures s.service.filesSecretName == t.service.filesSecretName
    ensures s.service.ringSecretName == t.service.ringSecretName
    ensures s.service.configSecretName.Some? || s.service.filesSecretName.Some? ==> s.service.name == t.service.name
    ensures MountPathOf(s) == MountPathOf(t)
  {
    VolumesTell(s.service);
    VolumesTell(t.service);
    MountsTell(s);
    MountsTell(t);
    PathTellsName(s.service.name, t.service.name);
  }

  /** Two valid Habitats of one name have equal pod templates exactly when their specs agree. */
  lemma TemplatesFactor(a: Habitat, b: Habitat)
    requires ValidateCustomObject(a).None? && ValidateCustomObject(b).None?
    requires a.name == b.name
    ensures Template(a) == Template(b) <==> Agree(a.v1beta2.value, b.v1beta2.value)
  {
    if Template(a) == Template(b) { EqualTemplatesAgree(a, b); }
    if Agree(a.v1beta2.value, b.v1beta2.value) { AgreementIsEnough(a, b); }
  }

  /** What is claimed: the namespace, the class and the parsed size. */
  function StorageOf(parse: QuantityParser, h: Habitat): Option<(string, string, int)>
    requires ValidateCustomObject(h).None? && ClaimsParse(parse, h)
  {
    var ps := h.v1beta2.value.persistentStorage;
    if ps.Some? then Some((h.ns, ps.value.storageClassName, parse(ps.value.size).value)) else None
  }

  /**
    Two valid Habitats compile to equal StatefulSets exactly when they agree on what reaches a pod, on
    owner and storage, and on the count modulo 2^32: two sizes that parse alike, or two counts of which
    one wraps around to the other, make no difference.
  */
  lemma StatefulSetsFactor(parse: QuantityParser, a: Habitat, b: Habitat)
    requires ValidateCustomObject(a).None? && ValidateCustomObject(b).None?
    requires ClaimsParse(parse, a) && ClaimsParse(parse, b)
    ensures Desired(parse, a) == Desired(parse, b) <==>
              && a.name == b.name && a.uid == b.uid
              && Agree(a.v1beta2.value, b.v1beta2.value)
              && StorageOf(parse, a) == StorageOf(parse, b)
              && (a.v1beta2.value.count - b.v1beta2.value.count) % 0x1_0000_0000 == 0
  {
    if a.name == b.name { TemplatesFactor(a, b); }
    var c, d := Claims(parse, a), Claims(parse, b);
    if c == d && c != [] { assert c[0] == d[0]; }
    assert c == d <==> StorageOf(parse, a) == StorageOf(parse, b) && (c == [] || a.name == b.name) by {
      if c != [] && d != [] {
        assert ObjectLabels(a.name)[HABITAT_NAME_LABEL] == a.name && ObjectLabels(b.name)[HABITAT_NAME_LABEL] == b.name;
      }
    }
    SameInt32(a.v1beta2.value.count, b.v1beta2.value.count);
  }

  lemma SameInt32(m: int, n: int)
    ensures ToInt32(m) == ToInt32(n) <==> (m - n) % 0x1_0000_0000 == 0
  {
    var k := 0x1_0000_0000;
    var i, j := ToInt32(m), ToInt32(n);
    var p, q := (i - m) / k, (j - n) / k;
    assert i - m == k * p && j - n == k * q;
    if i == j {
      assert m - n == k * (q - p);
    }
    if (m - n) % k == 0 {
      var r := (m - n) / k;
      assert i - j == k * (p - q + r);
    }
  }

  /** Changing only count, storage size or storage class leaves the template alone. */
  lemma ScalingKeepsTemplate(h: Habitat, count: int, size: string, storageClassName: string)
    requires ValidateCustomObject(h).None?
    ensures var spec := h.v1beta2.value;
            var ps := if spec.persistentStorage.None? then None
                      else Some(spec.persistentStorage.value.(size := size, storageClassName := storageClassName));
            var h' := h.(v1beta2 := Some(spec.(count := count, persistentStorage := ps)));
            ValidateCustomObject(h').None? && Template(h') == Template(h)
  {
    var spec := h.v1beta2.value;
    var ps := if spec.persistentStorage.None? then None
              else Some(spec.persistentStorage.value.(size := size, storageClassName := storageClassName));
    var h' := h.(v1beta2 := Some(spec.(count := count, persistentStorage := ps)));
    AgreementIsEnough(h', h);
  }
}

/** When a changed Habitat costs its pods their lives. */
module Rollout {
  import opened Types
  import opened StatefulSets
  import opened Cluster
  import opened Reconcile
  import opened Factoring

  /** An environment list as it comes back from the server: an empty one and none are the same. */
  function Listed(env: Slice<EnvVar>): Slice<EnvVar> {
    Items(env.ToSeq())
  }

  function ListedContainers(cs: seq<Container>): (r: seq<Container>)
    ensures |r| == |cs| && forall i :: 0 <= i < |cs| ==> r[i] == cs[i].(env := Listed(cs[i].env))
  {
    seq(|cs|, i requires 0 <= i < |cs| => cs[i].(env := Listed(cs[i].env)))
  }

  /** The template as far as a server can tell it from others. */
  function Normal(t: PodTemplate): PodTemplate {
    t.(spec := t.spec.(initContainers := ListedContainers(t.spec.initContainers), containers := ListedContainers(t.spec.containers)))
  }

  /** Defaulting forgets the difference between an empty environment and none, and nothing else. */
  ghost predicate Faithful(dflt: PodTemplate -> PodTemplate) {
    forall t1, t2 :: dflt(t1) == dflt(t2) <==> Normal(t1) == Normal(t2)
  }

  function WithListedEnv(spec: V1beta2): V1beta2 {
    spec.(env := Listed(spec.env))
  }

  /** The two specs agree on everything that reaches a pod and that a server keeps. */
  predicate AgreeOnServer(a: V1beta2, b: V1beta2) {
    Agree(WithListedEnv(a), WithListedEnv(b))
  }

  /** The normal form is that of the Habitat with its environment listed. */
  lemma NormalTemplate(h: Habitat)
    requires ValidateCustomObject(h).None?
    ensures var h' := h.(v1beta2 := Some(WithListedEnv(h.v1beta2.value)));
            && ValidateCustomObject(h').None?
            && Normal(Template(h)).labels == Template(h').labels
            && Normal(Template(h)).spec.containers == Template(h').spec.containers
            && Normal(Template(h)).spec.volumes == Template(h').spec.volumes
            && Normal(Template(h)).spec.initContainers == ListedContainers(InitContainers(h.v1beta2.value.service))
  {
    var h' := h.(v1beta2 := Some(WithListedEnv(h.v1beta2.value)));
    var cs, cs' := Normal(Template(h)).spec.containers, Template(h').spec.containers;
    assert |cs| == |cs'| == 1 && cs[0] == cs'[0];
  }

  /** The init container has no environment, so nothing of it is forgotten. */
  lemma InitContainersTell(a: Service, b: Service)
    requires ListedContainers(InitContainers(a)) == ListedContainers(InitContainers(b))
    ensures InitContainers(a) == InitContainers(b)
  {
    var cs, ds := InitContainers(a), InitContainers(b);
    if cs != [] {
      assert ListedContainers(cs)[0] == ListedContainers(ds)[0];
      assert cs[0] == ListedContainers(cs)[0].(env := Nil) && ds[0] == ListedContainers(ds)[0].(env := Nil);
    }
  }

  lemma NormalFactors(a: Habitat, b: Habitat)
    requires ValidateCustomObject(a).None? && ValidateCustomObject(b).None? && a.name == b.name
    ensures Normal(Template(a)) == Normal(Template(b)) <==> AgreeOnServer(a.v1beta2.value, b.v1beta2.value)
  {
    var a', b' := a.(v1beta2 := Some(WithListedEnv(a.v1beta2.value))), b.(v1beta2 := Some(WithListedEnv(b.v1beta2.value)));
    NormalTemplate(a);
    NormalTemplate(b);
    TemplatesFactor(a', b');
    if Normal(Template(a)) == Normal(Template(b)) {
      InitContainersTell(a.v1beta2.value.service, b.v1beta2.value.service);
    }
  }

  /**
    A reconcile of a changed Habitat, on top of what the old one had compiled to, deletes the pods of
    the Habitat exactly when the two specs disagree on something that reaches a pod.
  */
  lemma KillsExactly(lib: Lib, w: World, before: Habitat, after: Habitat)
    requires ValidateCustomObject(before).None? && ClaimsParse(lib.parse, before)
    requires Compilable(lib, w.api, after)
    requires before.ns == after.ns && before.name == after.name
    requires StsOk(lib, w.api, before) && Faithful(lib.dflt)
    ensures HandleStatefulSet(lib, w, after.ns, Desired(lib.parse, after), {}).0.api.pods ==
              if AgreeOnServer(before.v1beta2.value, after.v1beta2.value) then w.api.pods
              else WithoutSelected(w.api.pods, after.ns, map[HABITAT_NAME_LABEL := after.name])
  {
    NormalFactors(before, after);
    var sts := Desired(lib.parse, after);
    StatefulSetEffect(lib, w, after.ns, sts);
    assert TemplateChanges(lib, w.api, after.ns, sts) <==> lib.dflt(Template(before)) != lib.dflt(Template(after));
  }
}
