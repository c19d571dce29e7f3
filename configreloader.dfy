/** The config-reloader's watch set: each `ConfigMapPodRefresher`
    resource names a configmap, by namespace and name, whose changes
    should restart a pool of pods. The set records the watched configmaps
    as `namespace/name` and only ever grows. */
module ConfigReloader {
  const Deployment := "deployment"
  const StatefulSet := "statefulset"

  /** `ConfigMapPodsRefresherSpec`. */
  datatype RefresherSpec = RefresherSpec(
    version: int,
    namespace: string,
    watchedConfigMap: string,
    poolType: string,
    poolSubjectName: string)

  /** `entry`: a watched configmap and the pool it refreshes. */
  datatype Entry = Entry(namespace: string, configMapName: string, poolType: string, poolName: string)
  {
    /** `String()`: `namespace/name`; the pool plays no part. */
    function String(): (s: string)
      ensures |s| == |namespace| + 1 + |configMapName| && s[|namespace|] == '/'
      ensures s[..|namespace|] == namespace && s[|namespace| + 1..] == configMapName
    {
      namespace + "/" + configMapName
    }
  }

  /** The entry `Watch` builds for a refresher. */
  function EntryOf(spec: RefresherSpec): Entry
  {
    Entry(spec.namespace, spec.watchedConfigMap, spec.poolType, spec.poolSubjectName)
  }

  /** Entries of the same configmap have the same key, whatever their
      pools. */
  lemma KeyIgnoresPool(e: Entry, f: Entry)
    requires e.namespace == f.namespace && e.configMapName == f.configMapName
    ensures e.String() == f.String()
  {
  }

  class App {
    var index: set<string>

    /** `NewApp()`: nothing watched. */
    constructor ()
      ensures index == {}
    {
      index := {};
    }

    /** `Watch(c)`: the refresher's configmap key joins the set; watching
        it again changes nothing. */
    method Watch(spec: RefresherSpec)
      modifies this
      ensures index == old(index) + {EntryOf(spec).String()}
    {
      var e := EntryOf(spec);
      if e.String() in index {
        return;
      }
      index := index + {e.String()};
    }

    /** `IsRegistered(namespace, name)`: the key of an entry with an empty
        pool is looked up. */
    function IsRegistered(namespace: string, name: string): (b: bool)
      reads this
      ensures b <==> exists e: Entry :: e.namespace == namespace && e.configMapName == name && e.String() in index
    {
      var probe := Entry(namespace, name, "", "");
      assert probe.namespace == namespace && probe.configMapName == name;
      probe.String() in index
    }
  }

  /** A watched refresher's configmap is registered, whatever its pool, and
      what was registered before stays registered. */
  method WatchRegisters(a: App, spec: RefresherSpec, namespace: string, name: string)
      returns (watched: bool, kept: bool)
    modifies a
    ensures watched && (old(a.IsRegistered(namespace, name)) ==> kept)
  {
    var before := a.IsRegistered(namespace, name);
    a.Watch(spec);
    watched := a.IsRegistered(spec.namespace, spec.watchedConfigMap);
    kept := a.IsRegistered(namespace, name);
    if before {
      var p := Entry(namespace, name, "", "");
      assert p.String() in a.index;
    }
  }
}
