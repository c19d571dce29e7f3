/** The selector store of the swarm pool controller: for each statefulset,
    keyed `namespace/name`, the label selector of its pods and the swarm it
    belongs to. The first registration of a key wins. */
module SelectorStore {
  /** A label set, `labels.Set`. */
  type Labels = map<string, string>

  /** `labels.Selector`, as the label sets it matches. */
  type LabelSelector = Labels -> bool

  /** An entry: the selector and the owning swarm's name. */
  datatype Item = Item(selector: LabelSelector, swarmName: string)

  /** `key(namespace, name)`: `fmt.Sprintf("%s/%s", namespace, name)`. */
  function Key(namespace: string, name: string): (k: string)
    ensures |k| == |namespace| + 1 + |name| && k[|namespace|] == '/'
    ensures k[..|namespace|] == namespace && k[|namespace| + 1..] == name
  {
    namespace + "/" + name
  }

  /** The position of the first `/` of `s`, or its length. */
  function FirstSlash(s: string): (i: nat)
    ensures i <= |s|
  {
    if s == [] then 0 else if s[0] == '/' then 0 else 1 + FirstSlash(s[1..])
  }

  /** In the key of a namespace without `/`, the first `/` is the one
      after the namespace. */
  lemma {:induction false} FirstSlashOfKey(namespace: string, name: string)
    requires '/' !in namespace
    ensures FirstSlash(Key(namespace, name)) == |namespace|
  {
    if namespace != [] {
      assert Key(namespace, name)[1..] == Key(namespace[1..], name);
      FirstSlashOfKey(namespace[1..], name);
    }
  }

  /** Keys of namespaces without `/` tell the pairs apart. */
  lemma KeyInjective(ns1: string, n1: string, ns2: string, n2: string)
    requires '/' !in ns1 && '/' !in ns2
    requires Key(ns1, n1) == Key(ns2, n2)
    ensures ns1 == ns2 && n1 == n2
  {
    FirstSlashOfKey(ns1, n1);
    FirstSlashOfKey(ns2, n2);
  }

  class Store {
    var index: map<string, Item>

    /** `NewSelectorStore()`. */
    constructor ()
      ensures index == map[]
    {
      index := map[];
    }

    /** `EnsureRegister(namespace, name, selector, swarmName)`: a new key
        gets the entry; a registered key keeps the one it has. */
    method EnsureRegister(namespace: string, name: string, selector: LabelSelector, swarmName: string)
      modifies this
      ensures Key(namespace, name) in old(index) ==> index == old(index)
      ensures Key(namespace, name) !in old(index) ==>
        index == old(index)[Key(namespace, name) := Item(selector, swarmName)]
    {
      var k := Key(namespace, name);
      if k in index {
        return;
      }
      index := index[k := Item(selector, swarmName)];
    }

    /** `UnRegister(namespace, name)`: the key is removed, registered or
        not. */
    method UnRegister(namespace: string, name: string)
      modifies this
      ensures index == old(index) - {Key(namespace, name)}
    {
      index := index - {Key(namespace, name)};
    }

    /** `Matches(namespace, name, l)`: false for an unregistered key,
        otherwise the registered selector's answer. */
    function Matches(namespace: string, name: string, l: Labels): (b: bool)
      reads this
      ensures Key(namespace, name) !in index ==> !b
      ensures Key(namespace, name) in index ==> (b <==> index[Key(namespace, name)].selector(l))
    {
      var k := Key(namespace, name);
      if k !in index then false else index[k].selector(l)
    }

    /** `SwarmName(namespace, name)`: the owning swarm's name and true for
        a registered key; the empty name and false otherwise. */
    function SwarmName(namespace: string, name: string): (r: (string, bool))
      reads this
      ensures r.1 <==> Key(namespace, name) in index
      ensures r.1 ==> r.0 == index[Key(namespace, name)].swarmName
      ensures !r.1 ==> r.0 == ""
    {
      var k := Key(namespace, name);
      if k !in index then ("", false) else (index[k].swarmName, true)
    }

    /** `len()`: the number of registered keys. */
    function Len(): (n: nat)
      reads this
      ensures n == |index.Keys|
    {
      |index|
    }
  }

  /** Registering a new statefulset in a store adds one entry; registering
      it again, even with another selector and swarm, changes nothing; and
      unregistering it brings the store back to where it was. */
  method RegisterTwiceThenUnregister(s: Store, ns: string, name: string, sel: LabelSelector, other: LabelSelector)
      returns (first: nat, second: nat, owner: (string, bool), last: nat)
    requires Key(ns, name) !in s.index
    modifies s
    ensures first == old(|s.index|) + 1 && second == first && last == old(|s.index|)
    ensures owner == ("swarm", true)
  {
    s.EnsureRegister(ns, name, sel, "swarm");
    first := s.Len();
    s.EnsureRegister(ns, name, other, "other");
    second := s.Len();
    owner := s.SwarmName(ns, name);
    s.UnRegister(ns, name);
    last := s.Len();
  }
}
