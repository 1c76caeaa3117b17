/** PluginLoader<T>: the loader object, whose methods update its lists and maps in place. */
module Loader {
  import opened Outcomes
  import opened AddinRegistry
  import opened PluginRules
  import opened LoadSpec

  class PluginLoader<T> {
    /** Plugins: the loaded plugins, in insertion order. */
    var loaded: seq<T>
    /** The registered extension points, in registration order, duplicates kept. */
    var extpoints: seq<string>
    var constraints: map<string, CountConstraint>
    var filters: map<string, IdFilter>
    /** Initialiser.Initialise, as the plugin it turns a fresh instance into. */
    var initialiser: T -> T
    /** AddinManager's initialisation state, shared by every loader of the process. */
    const registry: Registry
    /** What AddinManager enumerates for this loader's plugin type. */
    const catalog: Catalog<T>
    /** The plugins whose Dispose has been called, in call order. */
    ghost var disposals: seq<T>

    /** PluginLoader(): a new PluginInitialiserBase and the current directory.
        `baseInitialise` is what PluginInitialiserBase.Initialise makes of a plugin;
        that class is defined outside this model. */
    constructor (baseInitialise: T -> T, registry: Registry, catalog: Catalog<T>)
      requires registry.Valid()
      modifies registry
      ensures Fresh() && this.registry == registry && this.catalog == catalog
      ensures initialiser == baseInitialise
      ensures Bootstrapped(old(registry.initialized), old(registry.roots), ".")
    {
      this.registry, this.catalog := registry, catalog;
      loaded, extpoints, constraints, filters, disposals := [], [], map[], map[], [];
      initialiser := baseInitialise;
      new;
      InitialisePluginDir(".");
    }

    /** PluginLoader(init) */
    constructor WithInitialiser(init: T -> T, registry: Registry, catalog: Catalog<T>)
      requires registry.Valid()
      modifies registry
      ensures Fresh() && this.registry == registry && this.catalog == catalog && initialiser == init
      ensures Bootstrapped(old(registry.initialized), old(registry.roots), ".")
    {
      this.registry, this.catalog := registry, catalog;
      loaded, extpoints, constraints, filters, disposals := [], [], map[], map[], [];
      initialiser := init;
      new;
      InitialisePluginDir(".");
    }

    /** PluginLoader(init, dir) */
    constructor WithDirectory(init: T -> T, registry: Registry, catalog: Catalog<T>, dir: string)
      requires registry.Valid()
      modifies registry
      ensures Fresh() && this.registry == registry && this.catalog == catalog && initialiser == init
      ensures Bootstrapped(old(registry.initialized), old(registry.roots), dir)
    {
      this.registry, this.catalog := registry, catalog;
      loaded, extpoints, constraints, filters, disposals := [], [], map[], map[], [];
      initialiser := init;
      new;
      InitialisePluginDir(dir);
    }

    /** Nothing registered, loaded or disposed yet. */
    ghost predicate Fresh()
      reads this
    {
      loaded == [] && extpoints == [] && constraints == map[] && filters == map[] && disposals == []
    }

    /** The registry after bootstrap at `dir`, given whether it was initialised
        before and at which roots. */
    ghost predicate Bootstrapped(wasInitialized: bool, oldRoots: seq<string>, dir: string)
      reads registry
    {
      && registry.Valid() && registry.initialized
      && registry.roots == (if wasInitialized then oldRoots else [dir])
    }

    /** initialise_plugin_dir_: bootstraps the registry at `dir` unless it is
        already initialised, in which case nothing happens. */
    method InitialisePluginDir(dir: string)
      requires registry.Valid()
      modifies registry
      ensures Bootstrapped(old(registry.initialized), old(registry.roots), dir)
      ensures old(registry.initialized) ==> unchanged(registry)
    {
      if registry.initialized {
        return;
      }
      // clearing the on-disk cache and silencing the console happen here
      registry.Initialize(dir);
    }

    /** The Plugins property. */
    function Plugins(): (plugins: seq<T>)
      reads this
      ensures plugins == loaded
    {
      loaded
    }

    /** The Initialiser property's setter. */
    method SetInitialiser(init: T -> T)
      modifies this`initialiser
      ensures initialiser == init
    {
      initialiser := init;
    }

    method AddExtensionPoint(ext: string)
      modifies this`extpoints
      ensures extpoints == old(extpoints) + [ext]
    {
      extpoints := extpoints + [ext];
    }

    /** Binds `cons` to `ext`; a second binding for the same point throws and
        leaves the existing one in place. */
    method AddConstraint(ext: string, cons: CountConstraint) returns (outcome: Outcome)
      modifies this`constraints
      ensures ext in old(constraints) ==> outcome == Fail(DuplicateKey(ext)) && constraints == old(constraints)
      ensures ext !in old(constraints) ==> outcome == Pass && constraints == old(constraints)[ext := cons]
    {
      if ext in constraints {
        return Fail(DuplicateKey(ext));
      }
      constraints := constraints[ext := cons];
      return Pass;
    }

    /** Binds `filter` to `ext`, with the same uniqueness rule as AddConstraint. */
    method AddFilter(ext: string, filter: IdFilter) returns (outcome: Outcome)
      modifies this`filters
      ensures ext in old(filters) ==> outcome == Fail(DuplicateKey(ext)) && filters == old(filters)
      ensures ext !in old(filters) ==> outcome == Pass && filters == old(filters)[ext := filter]
    {
      if ext in filters {
        return Fail(DuplicateKey(ext));
      }
      filters := filters[ext := filter];
      return Pass;
    }

    /** Load(): processes every registered extension point in order and appends
        what it instantiates; a violated constraint throws and ends the pass. */
    method Load() returns (outcome: Outcome)
      modifies this`loaded
      ensures var r := LoadPass(extpoints, constraints, filters, catalog, initialiser);
              outcome == r.outcome && loaded == old(loaded) + r.plugins
    {
      var i := 0;
      while i < |extpoints|
        invariant 0 <= i <= |extpoints|
        invariant NoViolation(constraints, catalog, extpoints[..i])
        invariant loaded == old(loaded) + Collected(extpoints[..i], filters, catalog, initialiser)
      {
        ghost var done := Collected(extpoints[..i], filters, catalog, initialiser);
        outcome := LoadExtensionPoint(extpoints[i]);
        if outcome.Fail? {
          LoadPassStopsAt(extpoints, constraints, filters, catalog, initialiser, i);
          return;
        }
        ghost var added := Instantiated(GetExtensionNodes(catalog, extpoints[i]), FilterFor(filters, extpoints[i]), initialiser);
        assert loaded == old(loaded) + done + added;
        assert old(loaded) + done + added == old(loaded) + (done + added);
        NoViolationStep(constraints, catalog, extpoints, i);
        CollectedStep(extpoints, i, filters, catalog, initialiser);
        i := i + 1;
      }
      assert extpoints[..i] == extpoints;
      LoadPassCompletes(extpoints, constraints, filters, catalog, initialiser);
      return Pass;
    }

    /** One iteration of Load()'s outer loop: applies the constraint bound to `ext`,
        which may throw, then loads the nodes of `ext` through the bound filter. */
    method LoadExtensionPoint(ext: string) returns (outcome: Outcome)
      modifies this`loaded
      ensures Violates(constraints, catalog, ext) ==>
        outcome == Fail(ConstraintViolated(constraints[ext].Message())) && loaded == old(loaded)
      ensures !Violates(constraints, catalog, ext) ==>
        outcome == Pass && loaded == old(loaded) + Instantiated(GetExtensionNodes(catalog, ext), FilterFor(filters, ext), initialiser)
    {
      if ext in constraints {
        var applied := constraints[ext].Apply(catalog, ext);
        if applied.Failure? {
          return Fail(applied.error);
        }
        // a constraint that returns only logs
      }
      LoadNodes(GetExtensionNodes(catalog, ext), FilterFor(filters, ext));
      return Pass;
    }

    /** The inner loop of Load(): instantiates, initialises and appends each node
        the filter admits. */
    method LoadNodes(nodes: seq<Node<T>>, filter: Option<IdFilter>)
      modifies this`loaded
      ensures loaded == old(loaded) + Instantiated(nodes, filter, initialiser)
    {
      var j := 0;
      while j < |nodes|
        invariant 0 <= j <= |nodes|
        invariant loaded == old(loaded) + Instantiated(nodes[..j], filter, initialiser)
      {
        var node := nodes[j];
        assert nodes[..j + 1][..j] == nodes[..j];
        if filter.Some? && !filter.value.Apply(node) {
          j := j + 1;
          continue;
        }
        var plugin := initialiser(node.instance);
        loaded := loaded + [plugin];
        j := j + 1;
      }
      assert nodes[..j] == nodes;
    }

    /** Load(ext): registers `ext`, then runs a full pass over every registered point. */
    method LoadPoint(ext: string) returns (outcome: Outcome)
      modifies this`extpoints, this`loaded
      ensures extpoints == old(extpoints) + [ext]
      ensures var r := LoadPass(extpoints, constraints, filters, catalog, initialiser);
              outcome == r.outcome && loaded == old(loaded) + r.plugins
    {
      AddExtensionPoint(ext);
      outcome := Load();
    }

    /** Dispose(): calls Dispose on every loaded plugin once, in insertion order;
        the list itself is left as it is. */
    method Dispose()
      modifies this`disposals
      ensures disposals == old(disposals) + loaded
    {
      for i := 0 to |loaded|
        invariant disposals == old(disposals) + loaded[..i]
      {
        disposals := disposals + [loaded[i]];
      }
    }
  }

  /** Two Load() calls without registrations in between end the same way, and the
      second appends the same plugins again. */
  method LoadTwice<T>(loader: PluginLoader<T>) returns (first: Outcome, second: Outcome)
    modifies loader`loaded
    ensures first == second
    ensures var r := LoadPass(loader.extpoints, loader.constraints, loader.filters, loader.catalog, loader.initialiser);
            first == r.outcome && loader.loaded == old(loader.loaded) + r.plugins + r.plugins
  {
    first := loader.Load();
    second := loader.Load();
  }

  /** However many loaders a process constructs, whatever their plugin types, the
      registry is bootstrapped once, at the directory of the first one. */
  method SecondLoaderSkipsBootstrap<A, B>(registry: Registry, first: Catalog<A>, second: Catalog<B>,
                                          baseInitialise: A -> A, init: B -> B, dir: string)
    requires registry.Valid() && !registry.initialized
    modifies registry
    ensures registry.Valid() && registry.initialized && registry.roots == ["."]
  {
    var a := new PluginLoader<A>(baseInitialise, registry, first);
    var b := new PluginLoader<B>.WithDirectory(init, registry, second, dir);
  }
}
