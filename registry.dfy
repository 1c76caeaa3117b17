/** The part of Mono.Addins' AddinManager that the loader uses: whether it has
    been initialised, and the extension nodes it enumerates per extension point. */
module AddinRegistry {

  /** A TypeExtensionNode: its Id, and the plugin its CreateInstance produces. */
  datatype Node<T> = Node(id: string, instance: T)

  /** What the registry enumerates for a loader of plugin type T: the nodes
      registered under each extension point path, in enumeration order. */
  type Catalog<T> = map<string, seq<Node<T>>>

  /** AddinManager.GetExtensionNodes(ext): the nodes registered under `ext`, and
      none for a path nothing is registered under. */
  function GetExtensionNodes<T>(catalog: Catalog<T>, ext: string): (nodes: seq<Node<T>>)
    ensures ext in catalog ==> nodes == catalog[ext]
    ensures ext !in catalog ==> nodes == []
  {
    if ext in catalog then catalog[ext] else []
  }

  /** The process-wide initialisation state of AddinManager. It is not generic:
      loaders of every plugin type share one. */
  class Registry {
    /** AddinManager.IsInitialized */
    var initialized: bool
    /** The root directories the registry was initialised at, in order. */
    ghost var roots: seq<string>

    ghost predicate Valid()
      reads this
    {
      initialized <==> roots != []
    }

    constructor ()
      ensures Valid()
      ensures !initialized && roots == []
    {
      initialized := false;
      roots := [];
    }

    /** AddinManager.Initialize(dir) followed by Registry.Update. */
    method Initialize(dir: string)
      modifies this
      ensures Valid() && initialized
      ensures roots == old(roots) + [dir]
    {
      initialized := true;
      roots := roots + [dir];
    }
  }
}
