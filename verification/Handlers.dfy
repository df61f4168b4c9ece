/** What the event handlers decide: which updates they ignore, and which key they add to the queue. */
module Handlers {
  import opened Types
  import opened StatefulSets
  import opened Keys
  import opened Workqueue

  predicate HabitatNeedsUpdate(before: Habitat, after: Habitat) {
    before.v1beta2 != after.v1beta2
  }

  predicate PodNeedsUpdate(before: Pod, after: Pod) {
    before.resourceVersion != after.resourceVersion && before.phase != after.phase
  }

  /** The key `enqueue` adds, if the object is for this controller. */
  function EnqueuedKey(h: Habitat): Option<string> {
    if CustomVersionMatches(h.customVersion) then Some(HabitatKey(h)) else None
  }

  /** The key that is added for the Habitat stored under `key`, if there is one. */
  function StoredKey(store: map<string, Habitat>, key: Option<string>): Option<string> {
    if key.Some? && key.value in store then EnqueuedKey(store[key.value]) else None
  }

  /** The key of the stored Habitat that the label of a resource leads to. */
  function OwnerKey(store: map<string, Habitat>, ns: string, labels: map<string, string>): Option<string> {
    StoredKey(store, KeyFromLabels(ns, labels))
  }

  /** A ConfigMap event of the namespace adds this key for some stored Habitat. */
  ghost predicate WokenByCm(store: map<string, Habitat>, ns: string, key: string) {
    exists s :: s in store && store[s].ns == ns && EnqueuedKey(store[s]) == Some(key)
  }

  function AddKey(q: Queue, key: Option<string>): Queue {
    if key.Some? then q.Add(key.value) else q
  }

  /** The informer's store keeps every Habitat under its own key. */
  predicate WellKeyed(store: map<string, Habitat>) {
    forall k :: k in store ==> HabitatKey(store[k]) == k
  }

  // ---------- The decisions, field by field ----------

  /** `enqueue` adds a key for a Habitat of version "v1beta2", and for no other: a Habitat without a version has none. */
  lemma EnqueuedExactly(h: Habitat, key: string)
    ensures EnqueuedKey(h) == Some(key) <==> h.customVersion == Some("v1beta2") && key == MetaKey(h.ns, h.name)
  {
  }

  /** The Habitat that a resource's labels lead to, and the key it is queued under. */
  lemma OwnerKeyExactly(store: map<string, Habitat>, ns: string, labels: map<string, string>, key: string)
    ensures OwnerKey(store, ns, labels) == Some(key) <==>
              && "habitat-name" in labels && labels["habitat-name"] != ""
              && ns + "/" + labels["habitat-name"] in store
              && var h := store[ns + "/" + labels["habitat-name"]];
                 h.customVersion == Some("v1beta2") && key == MetaKey(h.ns, h.name)
  {
  }

  /** An update of a Habitat is handled exactly if the v1beta2 part of its spec differs. */
  lemma HabitatNeedsUpdateExactly(before: Habitat, after: Habitat, version: Option<string>)
    ensures HabitatNeedsUpdate(before, after) <==> before.v1beta2 != after.v1beta2
    ensures !HabitatNeedsUpdate(before, before.(customVersion := version))
  {
  }
}
