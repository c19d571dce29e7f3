/** The key functions of client-go's `cache` package that the controllers
    hand to their informers and use to undo a key. They are not part of the
    repository; they are written here after client-go's documented
    behaviour so that what a key carries can be followed from the callback
    that queues it to the handler call it leads to. */
module Cache {
  import opened Wrappers
  import opened Kube
  import opened Text

  /** The key of an object with the given metadata: `namespace/name`, or
      just the name for an object without a namespace. */
  function MetaNamespaceKey(m: ObjectMeta): string
  {
    if |m.namespace| > 0 then m.namespace + "/" + m.name else m.name
  }

  /** `cache.MetaNamespaceKeyFunc`: the key of a value with object
      metadata; any other value (nil, a tombstone, a foreign value, an
      object without metadata) is an error. */
  function MetaNamespaceKeyFunc(v: Value): (r: Result<string, string>)
    ensures r.Ok? <==> v.Obj? && Accessor(v.obj).Some?
    ensures r.Ok? ==> r.value == MetaNamespaceKey(Accessor(v.obj).value)
  {
    if v.Obj? && Accessor(v.obj).Some? then Ok(MetaNamespaceKey(Accessor(v.obj).value))
    else Err("object has no meta")
  }

  /** `cache.DeletionHandlingMetaNamespaceKeyFunc`: a tombstone yields the
      key it was recorded under, anything else is keyed as above. */
  function DeletionHandlingMetaNamespaceKeyFunc(v: Value): (r: Result<string, string>)
    ensures v.Tombstone? ==> r == Ok(v.key)
    ensures !v.Tombstone? ==> r == MetaNamespaceKeyFunc(v)
  {
    if v.Tombstone? then Ok(v.key) else MetaNamespaceKeyFunc(v)
  }

  /** `cache.SplitMetaNamespaceKey`: a key without `/` is a name in no
      namespace, a key with one `/` is namespace and name, and any other
      key is an error. */
  function SplitMetaNamespaceKey(key: string): (r: Result<(string, string), string>)
    ensures r.Ok? <==> |Split(key, '/')| <= 2
    ensures r.Ok? ==> '/' !in r.value.0 && '/' !in r.value.1
  {
    var parts := Split(key, '/');
    SplitPiecesLackSeparator(key, '/');
    if |parts| == 1 then Ok(("", parts[0]))
    else if |parts| == 2 then Ok((parts[0], parts[1]))
    else Err("unexpected key format: \"" + key + "\"")
  }

  /** Splitting the key of an object whose namespace and name hold no `/`
      gives that namespace and name back. */
  lemma SplitKeyRoundTrip(m: ObjectMeta)
    requires '/' !in m.namespace && '/' !in m.name
    ensures SplitMetaNamespaceKey(MetaNamespaceKey(m)) == Ok((m.namespace, m.name))
  {
    if |m.namespace| > 0 {
      SplitAtLastSeparator(m.namespace, '/', m.name);
      assert m.namespace + "/" + m.name == m.namespace + ['/'] + m.name;
    }
  }

  /** Keys with more than one `/` are rejected. */
  lemma SplitRejectsDeepKeys(a: string, b: string, c: string)
    requires '/' !in c
    ensures SplitMetaNamespaceKey(a + "/" + b + "/" + c).Err?
  {
    var k := a + "/" + b + "/" + c;
    assert k == (a + "/" + b) + ['/'] + c;
    SplitAtLastSeparator(a + "/" + b, '/', c);
    assert a + "/" + b == a + ['/'] + b;
  }
}
