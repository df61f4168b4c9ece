/**
  Habitats on the heap, and their deep copies. A Go struct is a value here, a pointer is a `Cell`, a
  slice is an array, and nil is null; copying a struct copies the pointers in it.
*/
module DeepCopy {
  import opened Types

  class Cell<T> {
    var value: T

    constructor (value: T)
      ensures this.value == value
    {
      this.value := value;
    }
  }

  datatype ServiceStruct = ServiceStruct(
    group: Cell?<string>,
    topology: string,
    configSecretName: Cell?<string>,
    ringSecretName: Cell?<string>,
    filesSecretName: Cell?<string>,
    bind: array?<Bind>,
    name: string,
    channel: Cell?<string>)

  datatype V1beta2Struct = V1beta2Struct(
    count: int,
    image: string,
    service: ServiceStruct,
    env: array?<EnvVar>,
    persistentStorage: Cell?<PersistentStorage>)

  datatype Status = Status(state: string, message: string)

  datatype HabitatStruct = HabitatStruct(
    ns: string,
    name: string,
    uid: string,
    v1beta2: Cell?<V1beta2Struct>,
    status: Status,
    customVersion: Cell?<string>)

  datatype ListStruct = ListStruct(resourceVersion: string, items: array?<HabitatStruct>)

  // ---------- What the structs stand for ----------

  datatype Tree = Tree(habitat: Habitat, status: Status)

  function Deref<T>(p: Cell?<T>): Option<T>
    reads p
  {
    if p == null then None else Some(p.value)
  }

  function SliceOf<T>(a: array?<T>): Slice<T>
    reads a
  {
    if a == null then Nil else Items(a[..])
  }

  ghost function Obj(p: object?): set<object> {
    if p == null then {} else {p}
  }

  ghost function ServiceCells(s: ServiceStruct): set<object> {
    Obj(s.group) + Obj(s.configSecretName) + Obj(s.ringSecretName) + Obj(s.filesSecretName) + Obj(s.bind) + Obj(s.channel)
  }

  function ServiceOf(s: ServiceStruct): Service
    reads ServiceCells(s)
  {
    Service(Deref(s.group), s.topology, Deref(s.configSecretName), Deref(s.ringSecretName), Deref(s.filesSecretName),
            SliceOf(s.bind), s.name, Deref(s.channel))
  }

  ghost function V1beta2Cells(v: V1beta2Struct): set<object> {
    ServiceCells(v.service) + Obj(v.env) + Obj(v.persistentStorage)
  }

  function V1beta2Of(v: V1beta2Struct): V1beta2
    reads V1beta2Cells(v)
  {
    V1beta2(v.count, v.image, ServiceOf(v.service), SliceOf(v.env), Deref(v.persistentStorage))
  }

  ghost function HabitatCells(h: HabitatStruct): set<object>
    reads h.v1beta2
  {
    Obj(h.v1beta2) + Obj(h.customVersion) + (if h.v1beta2 == null then {} else V1beta2Cells(h.v1beta2.value))
  }

  function TreeOf(h: HabitatStruct): Tree
    reads h.v1beta2, HabitatCells(h)
  {
    var spec := if h.v1beta2 == null then None else Some(V1beta2Of(h.v1beta2.value));
    Tree(Habitat(h.ns, h.name, h.uid, spec, Deref(h.customVersion)), h.status)
  }

  /** Everything reachable from a slice of Habitats. */
  ghost function ItemCells(a: array<HabitatStruct>): set<object>
    reads a, set i | 0 <= i < a.Length :: a[i].v1beta2
  {
    {a} + set i, o | 0 <= i < a.Length && o in HabitatCells(a[i]) :: o
  }

  // ---------- Copies of the parts ----------

  method CopyCell<T>(p: Cell?<T>) returns (q: Cell?<T>)
    ensures Deref(q) == old(Deref(p))
    ensures q != null ==> fresh(q)
  {
    q := p;
    if p != null {
      q := new Cell<T>(p.value);
    }
  }

  method CopySlice<T>(a: array?<T>, zero: T) returns (b: array?<T>)
    ensures SliceOf(b) == old(SliceOf(a))
    ensures b != null ==> fresh(b)
  {
    b := a;
    if a != null {
      b := new T[a.Length](_ => zero);
      for i := 0 to a.Length
        invariant forall j :: 0 <= j < i ==> b[j] == a[j]
      {
        b[i] := a[i];
      }
    }
  }

  method CopySecretNames(from: ServiceStruct) returns (to: ServiceStruct)
    ensures Deref(to.configSecretName) == old(Deref(from.configSecretName)) && fresh(Obj(to.configSecretName))
    ensures Deref(to.ringSecretName) == old(Deref(from.ringSecretName)) && fresh(Obj(to.ringSecretName))
    ensures Deref(to.filesSecretName) == old(Deref(from.filesSecretName)) && fresh(Obj(to.filesSecretName))
    ensures to == from.(configSecretName := to.configSecretName, ringSecretName := to.ringSecretName, filesSecretName := to.filesSecretName)
  {
    var config := CopyCell(from.configSecretName);
    var ring := CopyCell(from.ringSecretName);
    var files := CopyCell(from.filesSecretName);
    to := from.(configSecretName := config, ringSecretName := ring, filesSecretName := files);
  }

  method CopyService(from: ServiceStruct) returns (to: ServiceStruct)
    ensures ServiceOf(to) == old(ServiceOf(from))
    ensures fresh(ServiceCells(to))
  {
    to := CopySecretNames(from);
    var group := CopyCell(from.group);
    var bind := CopySlice(from.bind, Bind("", "", ""));
    var channel := CopyCell(from.channel);
    to := to.(group := group, bind := bind, channel := channel);
  }

  method CopyV1beta2(from: V1beta2Struct) returns (to: V1beta2Struct)
    ensures V1beta2Of(to) == old(V1beta2Of(from))
    ensures fresh(V1beta2Cells(to))
  {
    var service := CopyService(from.service);
    var env := CopySlice(from.env, EnvVar("", ""));
    var storage := CopyCell(from.persistentStorage);
    to := from.(service := service, env := env, persistentStorage := storage);
  }

  // ---------- Habitats and lists of them ----------

  method CopyHabitat(from: HabitatStruct) returns (to: HabitatStruct)
    ensures TreeOf(to) == old(TreeOf(from))
    ensures fresh(HabitatCells(to))
  {
    to := from;
    if from.v1beta2 != null {
      var spec := CopyV1beta2(from.v1beta2.value);
      var cell := new Cell<V1beta2Struct>(spec);
      to := to.(v1beta2 := cell);
    }
    var customVersion := CopyCell(from.customVersion);
    to := to.(customVersion := customVersion);
  }

  /** A nil Habitat is copied to nil. */
  method DeepCopyHabitat(from: Cell?<HabitatStruct>) returns (to: Cell?<HabitatStruct>)
    ensures to == null <==> from == null
    ensures to != null ==> fresh(to) && TreeOf(to.value) == old(TreeOf(from.value)) && fresh(HabitatCells(to.value))
  {
    if from == null {
      return null;
    }
    var copy := CopyHabitat(from.value);
    to := new Cell<HabitatStruct>(copy);
  }

  lemma ItemsWithin(a: array<HabitatStruct>, cells: set<object>)
    requires forall i :: 0 <= i < a.Length ==> HabitatCells(a[i]) <= cells
    ensures ItemCells(a) <= {a} + cells
  {
  }

  /** One item, into its slot. */
  method CopyItem(from: array<HabitatStruct>, to: array<HabitatStruct>, i: nat)
    requires i < from.Length == to.Length && from != to
    modifies to
    ensures TreeOf(to[i]) == old(TreeOf(from[i])) && fresh(HabitatCells(to[i]))
    ensures forall j :: 0 <= j < to.Length && j != i ==> to[j] == old(to[j])
  {
    var item := CopyHabitat(from[i]);
    to[i] := item;
  }

  /** Item by item; the copy of the empty slice is empty. */
  method CopyItems(from: array<HabitatStruct>) returns (to: array<HabitatStruct>)
    ensures fresh(ItemCells(to)) && to.Length == from.Length
    ensures forall i :: 0 <= i < to.Length ==> TreeOf(to[i]) == old(TreeOf(from[i]))
  {
    to := new HabitatStruct[from.Length](_ => HabitatStruct("", "", "", null, Status("", ""), null));
    ghost var copied: set<object> := {};
    for i := 0 to from.Length
      invariant fresh(to) && to.Length == from.Length && fresh(copied) && to !in copied
      invariant forall j :: 0 <= j < i ==> HabitatCells(to[j]) <= copied && TreeOf(to[j]) == old(TreeOf(from[j]))
    {
      assert TreeOf(from[i]) == old(TreeOf(from[i]));
      label before:
      CopyItem(from, to, i);
      forall j | 0 <= j < i ensures HabitatCells(to[j]) <= copied && TreeOf(to[j]) == old@before(TreeOf(to[j])) {
        assert to[j] == old@before(to[j]);
      }
      copied := copied + HabitatCells(to[i]);
    }
    ItemsWithin(to, copied);
  }

  method DeepCopyList(from: Cell?<ListStruct>) returns (to: Cell?<ListStruct>)
    ensures to == null <==> from == null
    ensures to != null ==> fresh(to) && to.value.resourceVersion == from.value.resourceVersion
    ensures to != null ==> (to.value.items == null <==> from.value.items == null)
    ensures to != null && to.value.items != null ==>
              && fresh(ItemCells(to.value.items)) && to.value.items.Length == from.value.items.Length
              && forall i :: 0 <= i < to.value.items.Length ==> TreeOf(to.value.items[i]) == old(TreeOf(from.value.items[i]))
  {
    if from == null {
      return null;
    }
    var list := from.value;
    if list.items != null {
      var items := CopyItems(list.items);
      list := list.(items := items);
    }
    to := new Cell<ListStruct>(list);
  }

  /** Whatever is done later to other cells, those of a copy for example, a Habitat stays what it was. */
  ghost method MutateOthers(original: HabitatStruct, others: set<object>)
    requires others !! HabitatCells(original)
    modifies others
    ensures TreeOf(original) == old(TreeOf(original))
  {
    modify others;
  }
}
