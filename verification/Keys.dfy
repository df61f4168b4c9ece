/** Store keys, the labels that name an owner, and label selection. */
module Keys {
  import opened Types
  import opened StatefulSets

  /** `MetaNamespaceKeyFunc`: the key of an object in an informer's store, and in the work queue. */
  function MetaKey(ns: string, name: string): string {
    if ns != "" then ns + "/" + name else name
  }

  function HabitatKey(h: Habitat): string {
    MetaKey(h.ns, h.name)
  }

  /** What the API server requires of a namespace's name, as far as keys go. */
  predicate IsNamespace(ns: string) {
    ns != "" && '/' !in ns
  }

  /** `habitatKeyFromLabeledResource`: the owner's key, from the name label. */
  function KeyFromLabels(ns: string, labels: map<string, string>): Option<string> {
    if HABITAT_NAME_LABEL !in labels || labels[HABITAT_NAME_LABEL] == "" then None
    else Some(ns + "/" + labels[HABITAT_NAME_LABEL])
  }

  predicate IsHabitatObject(labels: map<string, string>) {
    HABITAT_LABEL in labels && labels[HABITAT_LABEL] == "true"
  }

  predicate Selects(selector: map<string, string>, labels: map<string, string>) {
    forall k :: k in selector ==> k in labels && labels[k] == selector[k]
  }

  /** The pod is in the template's namespace and carries at least the template's labels. */
  predicate BuiltFor(p: Pod, h: Habitat)
    requires ValidateCustomObject(h).None?
  {
    p.ns == h.ns && Selects(Template(h).labels, p.labels)
  }

  /**
    The owner found from the labels of a Habitat's StatefulSet, or of any pod built from its
    template, is the key that the Habitat itself is queued under, exactly for a namespaced Habitat.
  */
  lemma OwnerRoundTrip(parse: QuantityParser, h: Habitat, p: Pod)
    requires ValidateCustomObject(h).None? && ClaimsParse(parse, h)
    requires h.name != "" && BuiltFor(p, h)
    ensures KeyFromLabels(h.ns, Desired(parse, h).labels) == KeyFromLabels(p.ns, p.labels)
    ensures KeyFromLabels(p.ns, p.labels) == Some(HabitatKey(h)) <==> h.ns != ""
    ensures IsHabitatObject(p.labels) && IsHabitatObject(Desired(parse, h).labels)
  {
    var labels := Template(h).labels;
    assert HABITAT_NAME_LABEL in labels && labels[HABITAT_NAME_LABEL] == h.name;
    assert HABITAT_LABEL in labels && labels[HABITAT_LABEL] == "true";
    if h.ns == "" { assert |h.ns + "/" + h.name| > |h.name|; }
  }

  lemma KeysInjective(ns1: string, name1: string, ns2: string, name2: string)
    requires IsNamespace(ns1) && IsNamespace(ns2)
    requires MetaKey(ns1, name1) == MetaKey(ns2, name2)
    ensures ns1 == ns2 && name1 == name2
  {
    var k1, k2 := ns1 + "/" + name1, ns2 + "/" + name2;
    assert k1[|ns1|] == '/' && k2[|ns2|] == '/';
    assert forall i :: 0 <= i < |ns1| ==> k1[i] == ns1[i] && k1[i] != '/';
    assert forall i :: 0 <= i < |ns2| ==> k2[i] == ns2[i] && k2[i] != '/';
    assert |ns1| == |ns2|;
    assert k1[..|ns1|] == ns1 && k2[..|ns2|] == ns2;
    assert k1[|ns1| + 1..] == name1 && k2[|ns2| + 1..] == name2;
  }

  /** Keys of one fixed name, such as the peer ConfigMap's, are injective in any namespace. */
  lemma FixedNameInjective(ns1: string, ns2: string, name: string)
    requires MetaKey(ns1, name) == MetaKey(ns2, name)
    ensures ns1 == ns2
  {
    var k1, k2 := ns1 + "/" + name, ns2 + "/" + name;
    assert |k1| > |name| && |k2| > |name|;
    assert k1[..|ns1|] == ns1 && k2[..|ns2|] == ns2;
  }

  /** The selector of a Habitat's StatefulSet picks the pods of that Habitat and of no other. */
  lemma SelectorIsExact(parse: QuantityParser, h: Habitat, g: Habitat, p: Pod)
    requires ValidateCustomObject(h).None? && ClaimsParse(parse, h)
    requires ValidateCustomObject(g).None? && BuiltFor(p, g)
    ensures p.ns == h.ns && Selects(Desired(parse, h).spec.selector, p.labels) <==> g.ns == h.ns && g.name == h.name
  {
    var labels := Template(g).labels;
    assert HABITAT_NAME_LABEL in labels && labels[HABITAT_NAME_LABEL] == g.name;
    var selector := Desired(parse, h).spec.selector;
    assert HABITAT_NAME_LABEL in selector && selector[HABITAT_NAME_LABEL] == h.name;
  }
}
