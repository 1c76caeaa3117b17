# PluginLoader — a Dafny model

This project models OpenSim's generic plugin loader (`OpenSim/Framework/PluginLoader.cs`).
A `PluginLoader<T>` keeps four things. It has a list of extension points, in registration
order and with duplicates kept. It has one count constraint and one Id filter per extension
point, at most. It has the list of plugins it has loaded. `Load()` walks the extension points
in order. For each one it first applies the bound constraint. Then it asks the add-in registry
(Mono.Addins' `AddinManager`) for the point's nodes. Each node the filter admits is
instantiated, put through the initialiser and appended to the list. `Dispose()` disposes
every loaded plugin.

Files and modules:

- `outcomes.dfy` (`Outcomes`): how a call ends. Each exception the C# code throws becomes a
  failure value. `ConstraintViolated` stands for `PluginConstraintViolatedException`.
  `DuplicateKey` stands for the `ArgumentException` that `Dictionary.Add` throws.
- `decimal.dfy` (`Decimal`): C#'s rendering of an `int` inside string concatenation, under the invariant culture, and
  the parse that inverts it.
- `registry.dfy` (`AddinRegistry`): the registry. A node has an Id and the plugin its
  `CreateInstance` produces. A catalog maps each extension point to its nodes. The class
  `Registry` is `AddinManager`'s initialisation state: its `IsInitialized` flag and a ghost
  log of the root directories it was initialised at. `Registry` is not generic, so loaders
  of different plugin types share one, as they share the static `AddinManager`. Each loader
  is given its catalog, typed by its plugin type, when it is constructed.
- `rules.dfy` (`PluginRules`): `PluginCountConstraint` (`CountConstraint`, its constructors `Between` and `Exact`, and `ParseMessage`, which reads a violation message back) and
  `PluginIdFilter` (`IdFilter`).
- `load_spec.dfy` (`LoadSpec`): what one `Load()` pass computes, as functions of the loader's
  bindings and the catalog. `Instantiated` is the inner loop. `Collected` is the outer loop
  when nothing throws. `FirstViolation` is the first point whose constraint throws. `LoadPass`
  gives the plugins a pass appends and how the pass ends. Lemmas about these follow.
- `loader.dfy` (`Loader`): the class `PluginLoader<T>`. Its fields are `loaded`,
  `extpoints`, `constraints`, `filters` and `initialiser`. Each method works in place and is
  proved against the functions of `LoadSpec`.

Three behaviours of the code are easy to misread:

- Binding a second constraint or filter to a point throws (`Dictionary.Add`). It neither
  overwrites the first nor is silently ignored.
- `Dispose()` leaves the list of loaded plugins as it is.
- Console output is not restored after an exception, because the code has no `finally`.
  Console suppression is not modelled at all; see below.

The loader's outside dependencies are parameters:

- The registry's contents are the catalog given when the loader is constructed.
- `Initialiser.Initialise` is a total function `T -> T` held in the field `initialiser`. The
  default, `PluginInitialiserBase`, is defined outside `PluginLoader.cs` and is not part of this
  model. The default constructor takes what its `Initialise` does as the parameter `baseInitialise`.
- `node.CreateInstance()` is the node's `instance`.
- `plugin.Dispose()` is recorded in the ghost log `disposals`.

The method frames (``modifies this`loaded`` and the like) state which fields each method leaves
untouched.

## Model

| member | source | states |
|---|---|---|
| `Decimal.IntToString` | OpenSim/Framework/PluginLoader.cs:257-258 | the rendering of a bound is non-empty, its first character is a digit or a minus sign, every later character is a digit, and the minus sign appears exactly for negative numbers |
| `Decimal.ParseIntToString` | OpenSim/Framework/PluginLoader.cs:257-258 | parsing the rendered bound gives the bound back, so the rendering loses nothing |
| `Decimal.IntToStringInjective` | OpenSim/Framework/PluginLoader.cs:257-258 | distinct bounds render to distinct strings |
| `AddinRegistry.GetExtensionNodes` | OpenSim/Framework/PluginLoader.cs:155 | enumerates the nodes registered under the path, in registration order, and no nodes for a path nothing is registered under |
| `AddinRegistry.Registry.Initialize` | OpenSim/Framework/PluginLoader.cs:188-189 | initialising the registry at a directory sets `IsInitialized` and records that directory as one more root |
| `PluginRules.CountConstraint.Apply` | OpenSim/Framework/PluginLoader.cs:262-270 | throws a constraint violation carrying `Message` exactly when the number of nodes under the point is below `min` or above `max`; otherwise returns true, never false |
| `PluginRules.Between` | OpenSim/Framework/PluginLoader.cs:247-251 | the two-argument constructor sets `min` to the first argument and `max` to the second |
| `PluginRules.Exact` | OpenSim/Framework/PluginLoader.cs:241-245 | the one-argument constructor sets both bounds to the exact value |
| `PluginRules.ExactPassesOnlyOnCount` | OpenSim/Framework/PluginLoader.cs:241-245 | an exact constraint passes if and only if the point has exactly that many nodes |
| `PluginRules.MessageRoundTrip` | OpenSim/Framework/PluginLoader.cs:253-260 | `Message` is the fixed prefix, the minimum, ", ", the maximum and "]", laid out so that reading the two bounds back out of the text gives the constraint again |
| `PluginRules.MessageDeterminesBounds` | OpenSim/Framework/PluginLoader.cs:253-260 | the violation message identifies the interval: equal messages mean equal `min` and equal `max` |
| `PluginRules.IdFilter.Apply` | OpenSim/Framework/PluginLoader.cs:285-288 | a node is kept if and only if its Id equals the filter's id |
| `LoadSpec.Instantiated` | OpenSim/Framework/PluginLoader.cs:155-165 | the inner loop yields at most one plugin per node, and exactly one per node when no filter is bound |
| `LoadSpec.CollectedSize` | OpenSim/Framework/PluginLoader.cs:139-166 | the outer loop yields at most as many plugins as the registered points have nodes, and exactly that many when no filter is bound anywhere |
| `LoadSpec.FirstViolation` | OpenSim/Framework/PluginLoader.cs:139-148 | returns the first registered position whose bound constraint throws, with no throwing position before it, or nothing when no position throws |
| `LoadSpec.NoViolationMeans` | OpenSim/Framework/PluginLoader.cs:143-148 | no point of a run throws exactly when the constraint of each position, taken one by one, passes |
| `LoadSpec.NoViolationUpTo` | OpenSim/Framework/PluginLoader.cs:139-148 | the first i points pass their constraints exactly when each position below i does |
| `LoadSpec.NoViolationStep` | OpenSim/Framework/PluginLoader.cs:139-148 | if the first i points pass and point i passes, the first i + 1 points pass |
| `LoadSpec.LoadPass` | OpenSim/Framework/PluginLoader.cs:137-167 | a pass either completes or ends with a constraint violation; it throws no other kind of error |
| `LoadSpec.FirstViolationAt` | OpenSim/Framework/PluginLoader.cs:143-148 | a throwing position with no throwing position before it is the one where the pass stops |
| `LoadSpec.InstantiatedAppend` | OpenSim/Framework/PluginLoader.cs:155-165 | enumerating two runs of nodes one after the other yields the plugins of the first run followed by those of the second |
| `LoadSpec.InstantiatedUnfiltered` | OpenSim/Framework/PluginLoader.cs:150-164 | with no filter bound, every node is instantiated and initialised, one plugin per node, in enumeration order |
| `LoadSpec.WithId` | OpenSim/Framework/PluginLoader.cs:285-288 | selects the nodes whose Id equals the target, keeping their order; every node it keeps has that Id |
| `LoadSpec.InstantiatedById` | OpenSim/Framework/PluginLoader.cs:159-160 | with `PluginIdFilter(id)` bound, the plugins appended are exactly those of the nodes whose Id equals `id`, in their enumeration order |
| `LoadSpec.InstantiatedInitialised` | OpenSim/Framework/PluginLoader.cs:162-164 | every plugin the inner loop appends is the initialiser's result on the instance of a node that the filter admits |
| `LoadSpec.CollectedAppend` | OpenSim/Framework/PluginLoader.cs:139-166 | loading a run of points then another appends the plugins of the first run, then those of the second |
| `LoadSpec.CollectedStep` | OpenSim/Framework/PluginLoader.cs:139-166 | one more iteration of the outer loop appends exactly what the next point's inner loop yields |
| `LoadSpec.UnfilteredPointContributesEveryNode` | OpenSim/Framework/PluginLoader.cs:150-164 | a point with no bound filter contributes exactly one plugin per node, and the k-th plugin is the initialised instance of the k-th node |
| `LoadSpec.CollectedInitialised` | OpenSim/Framework/PluginLoader.cs:139-166 | every plugin a pass collects comes from an admitted node of a registered point and went through the initialiser |
| `LoadSpec.LoadPassSucceedsIff` | OpenSim/Framework/PluginLoader.cs:137-167 | a pass completes if and only if no bound constraint throws; when it completes, it has appended the plugins of every registered point, in order |
| `LoadSpec.LoadPassAbortsAt` | OpenSim/Framework/PluginLoader.cs:143-148 | a violation at position k ends the pass with that constraint's message; the plugins of points 0..k-1 are appended and none from point k or later |
| `LoadSpec.LoadPassStopsAt` | OpenSim/Framework/PluginLoader.cs:143-148 | when the first i points pass and point i throws, the pass ends with point i's message and the plugins of the first i points |
| `LoadSpec.LoadPassCompletes` | OpenSim/Framework/PluginLoader.cs:137-167 | when no registered point throws, the pass completes with the plugins of every point |
| `LoadSpec.LoadPassIsPrefix` | OpenSim/Framework/PluginLoader.cs:137-167 | whatever the outcome, a pass appends a prefix of the full collection; an aborted pass keeps its partial result and rolls nothing back |
| `LoadSpec.LoadPassInitialised` | OpenSim/Framework/PluginLoader.cs:162-164 | every plugin a pass appends went through the initialiser |
| `LoadSpec.CollectedOneMore` | OpenSim/Framework/PluginLoader.cs:131-135 | after one more point is registered, a full pass reprocesses every earlier point and then the new one |
| `LoadSpec.IdFilterKeepsMatchingNode` | OpenSim/Framework/PluginLoader.cs:285-288 | with `PluginIdFilter("x")` bound to a point whose nodes are "x" then "y", only the plugin of "x" is loaded |
| `LoadSpec.ExactOneViolationStopsPass` | OpenSim/Framework/PluginLoader.cs:262-270 | `PluginCountConstraint(1)` on a first point that has two nodes throws before anything is loaded, and the later point is never processed |
| `Loader.PluginLoader.constructor` | OpenSim/Framework/PluginLoader.cs:98-102 | a new loader is empty, uses the default `PluginInitialiserBase` (given as `baseInitialise`) and bootstraps the registry at "."; if the registry was already initialised, it is left as it was |
| `Loader.PluginLoader.WithInitialiser` | OpenSim/Framework/PluginLoader.cs:104-108 | a new loader is empty, uses the given initialiser and bootstraps the registry at "." unless it is already initialised |
| `Loader.PluginLoader.WithDirectory` | OpenSim/Framework/PluginLoader.cs:110-114 | a new loader is empty, uses the given initialiser and bootstraps the registry at the given directory unless it is already initialised |
| `Loader.PluginLoader.InitialisePluginDir` | OpenSim/Framework/PluginLoader.cs:175-191 | if the registry was already initialised, nothing changes; otherwise the registry becomes initialised at `dir`, its only root |
| `Loader.PluginLoader.Plugins` | OpenSim/Framework/PluginLoader.cs:93-96 | the property gives the loaded plugins, in insertion order |
| `Loader.PluginLoader.SetInitialiser` | OpenSim/Framework/PluginLoader.cs:87-91 | the initialiser becomes the given one |
| `Loader.PluginLoader.AddExtensionPoint` | OpenSim/Framework/PluginLoader.cs:116-119 | appends the point to the end of the list, even when it is already there; nothing else changes |
| `Loader.PluginLoader.AddConstraint` | OpenSim/Framework/PluginLoader.cs:121-124 | binds the constraint when the point has none; otherwise throws a duplicate-key error and leaves the map unchanged |
| `Loader.PluginLoader.AddFilter` | OpenSim/Framework/PluginLoader.cs:126-129 | binds the filter when the point has none; otherwise throws a duplicate-key error and leaves the map unchanged |
| `Loader.PluginLoader.Load` | OpenSim/Framework/PluginLoader.cs:137-167 | the loaded list becomes the old list followed by the plugins of the pass, and the call ends as the pass does; nothing else changes |
| `Loader.PluginLoader.LoadExtensionPoint` | OpenSim/Framework/PluginLoader.cs:141-165 | one iteration of the outer loop: a throwing constraint ends it with its message and appends nothing; otherwise it appends what the point's nodes yield through the bound filter |
| `Loader.PluginLoader.LoadNodes` | OpenSim/Framework/PluginLoader.cs:155-165 | appends, in enumeration order, the initialised plugin of every node the filter admits |
| `Loader.PluginLoader.LoadPoint` | OpenSim/Framework/PluginLoader.cs:131-135 | registers the point at the end of the list, then runs a full pass over every registered point |
| `Loader.PluginLoader.Dispose` | OpenSim/Framework/PluginLoader.cs:169-173 | disposes each loaded plugin exactly once, in insertion order, and leaves the loaded list unchanged; with nothing loaded, nothing happens |
| `Loader.LoadTwice` | OpenSim/Framework/PluginLoader.cs:137-167 | two passes with no registrations in between end the same way, and the second appends the same plugins again |
| `Loader.SecondLoaderSkipsBootstrap` | OpenSim/Framework/PluginLoader.cs:177-178 | with two loaders in one process, of any two plugin types, the registry is initialised once, at the first loader's directory |

## Left out

- Logging through log4net is not modelled. This includes the inverted test `if (cons.Apply(ext)) log.Error(...)` at lines 146-147, which logs a failure for a constraint that passed. The boolean result only selects a log line.
- The registry event handlers `on_addinloaded_` and `on_addinloaderror_` are not modelled. They only log.
- `clear_registry_`, which deletes `addin-db-000` and `addin-db-001`, is filesystem I/O. In the model it happens inside the bootstrap step and leaves no trace of its own.
- `suppress_console_output_` is not modelled, because it changes the process's console. There is no restoring on error to claim, since the code has no `finally`.
- The internals of Mono.Addins are not modelled. The registry's contents are a fixed catalog, so what `Registry.Update` would discover is given up front.
- A path with no registered nodes enumerates as empty. The model assumes this of `AddinManager.GetExtensionNodes`.
- Instantiation is not modelled: a node's `CreateInstance` is its fixed `instance`. So the cast failure at line 162 is left out. So is the fact that two passes construct distinct objects: in the model they produce equal values.
- The initialiser is a total function on plugin values. It cannot throw, and it does not mutate a shared plugin object.
- `Dispose` on a plugin cannot throw; each call is only recorded in `disposals`.
- `IPluginConstraint` and `IPluginFilter` are closed over the file's only implementations, `PluginCountConstraint` and `PluginIdFilter`. Host-defined rules are not modelled.
- `Load(string)` is named `LoadPoint`, because Dafny has no overloading.
- `PluginConstraintViolatedException` has three constructors. Only the one taking a message is used, and it becomes `ConstraintViolated(message)`.
- The constant `max_loadable_plugins` (line 72) is never used by the code.
- Counts and bounds are unbounded integers. C# `int` cannot overflow here, because a node count is never negative and never near 2^31.
- `IntToString` renders under the invariant culture. C#'s `Int32.ToString()` inside the concatenation at lines 257-258 uses the current culture, whose negative sign need not be '-' (it can be U+2212, for example).
- The loop at line 155 casts each enumerated node to `TypeExtensionNode`, which throws `InvalidCastException` for a node of another kind. The model's catalog holds only type nodes, so it does not have this failure.
- Null bindings are not modelled: constraints, filters and initialisers are values and cannot be null. In the code, `AddFilter(ext, null)` behaves as if no filter were bound (lines 152-153 and 159), `AddConstraint(ext, null)` throws `NullReferenceException` at line 146 on the next pass, a null extension point throws in `ContainsKey` at line 143, and `new PluginLoader<T>(null)` (lines 104-106) or setting `Initialiser` to null makes line 163 throw `NullReferenceException` at the first admitted node.
- `Plugins`: the property returns the live `List<T>` (lines 93-96), so a caller can change the loader's list through it. The model returns a value copy, so that aliasing is not captured.
- The registry's contents are given to each loader as a catalog of its own plugin type. Two loaders sharing one `Registry` may therefore be given different catalogs; the model does not tie the nodes they enumerate to one shared add-in database.
