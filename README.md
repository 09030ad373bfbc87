# twig-rendering: the `TwigRendering` service provider in Dafny

This project models the configuration builder of the Atom framework's Twig
integration (`Atom\TwigRendering\TwigRendering`). The builder collects a
loader, an environment, an options array, a paths array, a cache directory,
a globals array and a "cache only in production" flag through fluent
setters that return the builder itself. On `register` it writes the `cache`
option into its own options array, builds a Twig environment and wraps it
in a renderer. The environment is built from the environment it was given,
else from the loader it was given, else from a filesystem loader over the
paths. Finally it pushes the globals into the renderer if any were set.

Layout:

- `wrappers.dfy`: `Option`, standing for PHP's nullable fields.
- `twig.dfy`: the collaborators outside the repository, made opaque. Twig
  loaders and environments are identities. The environment that `register`
  builds is an `EnvDescriptor`: `Given`, `FromLoader` or `FromFilesystem`
  with the list of `addPath` calls. The host kernel is a `Host`: the
  application root, a path resolver `string -> string`, and the production
  flag.
- `twig_rendering.dfy`: the `TwigRendering` class, whose fields the methods
  update in place. Beside it are the specification functions `CacheDecision`,
  `CachedOptions`, `SearchPaths` and `Construct`, and the lemmas about them.
- `scenarios.dfy`: callers that configure a fresh builder, register it and
  state the outcome using only the builder's contracts.

A PHP paths array is a `seq<PathEntry>`, kept in insertion order. An entry
whose key is an integer has `key == None`; one whose key is a string has
`key == Some(ns)`. Options and globals are `map<string, Value>`.

Three consequences of the code that are easy to miss:

- Configuring an environment does not make `register` skip the cache step.
  The `cache` option is still written into the builder's options; it is only
  not used to build anything.
- Calling `cache(d)` after `cacheIfProduction(...)` does not make caching
  unconditional. The flag, once set, stays set, so caching stays
  production-gated (`Scenarios.GatedCacheStaysGated`).
- The cache option lands in the builder's own options array, so it persists
  into a later `register` (`Scenarios.CacheSurvivesReregistration`).

## Model

| member | source | states |
|---|---|---|
| `TwigRendering.CacheDecision` | src/TwigRendering.php:77-82 | the two guarded writes, as written; together they write exactly when a directory is set and caching is ungated or the host is in production, and the value is the directory resolved by the host's path resolver (`$app->path()->app($dir)`) |
| `TwigRendering.CachedOptions` | src/TwigRendering.php:77-82 | the cache step touches no key but `cache`; `cache` is set to the resolved directory when the decision says so, and otherwise the options are returned unchanged |
| `TwigRendering.CachePersists` | src/TwigRendering.php:78-81 | a written `cache` option survives a later cache step in either production mode, and repeating the step changes nothing |
| `TwigRendering.Construct` | src/TwigRendering.php:150-165 | precedence: a given environment is used as is; otherwise a given loader with the current options; otherwise a filesystem loader rooted at the application root, with the current options |
| `TwigRendering.ToSearchPath` | src/TwigRendering.php:159-163 | the `addPath` call for one entry keeps the entry's path, uses the main namespace exactly when the key is an integer, and otherwise the namespace named by the key |
| `TwigRendering.SearchPaths` | src/TwigRendering.php:158-164 | the reference definition of the `addPath` calls of the loop; it makes one call per entry, and `SearchPathsAt` describes each call |
| `TwigRendering.SearchPathsAt` | src/TwigRendering.php:158-164 | one `addPath` per paths entry, at the same position and with the same path; the namespace is the main one exactly for integer keys, and otherwise the string key |
| `TwigRendering.SearchPathsAppend` | src/TwigRendering.php:158-164 | the `addPath` calls for two concatenated paths arrays are those of the first followed by those of the second |
| `TwigRendering.FilesystemConstruction` | src/TwigRendering.php:157-165 | with neither environment nor loader given, the filesystem loader gets exactly one `addPath` per entry, in array order, each in the namespace its key selects |
| `TwigRendering.DefaultSearchPaths` | src/TwigRendering.php:189-194 | the paths of `default(p)` register the entries of `p` first and then `templates` in the main namespace, as a case of `SearchPathsAppend` |
| `TwigRendering.TwigRendering.constructor` | src/TwigRendering.php:52-63 | paths and options, both empty by default, are stored verbatim; loader, environment, cache directory and globals start unset and the production flag starts false |
| `TwigRendering.TwigRendering.WithLoader` | src/TwigRendering.php:97-101 | sets the loader, returns the same builder, and may change no other field |
| `TwigRendering.TwigRendering.WithEnvironment` | src/TwigRendering.php:107-111 | sets the environment, returns the same builder, and may change no other field |
| `TwigRendering.TwigRendering.WithOptions` | src/TwigRendering.php:117-121 | replaces the options array wholesale, returns the same builder, and may change no other field |
| `TwigRendering.TwigRendering.WithPaths` | src/TwigRendering.php:127-131 | replaces the paths array wholesale, returns the same builder, and may change no other field |
| `TwigRendering.TwigRendering.WithGlobals` | src/TwigRendering.php:200-204 | sets the globals, returns the same builder, and may change no other field |
| `TwigRendering.TwigRendering.HasLoader` | src/TwigRendering.php:133-136 | no contract: true exactly when a loader was given; `MakeRenderer` decides through it |
| `TwigRendering.TwigRendering.HasEnvironment` | src/TwigRendering.php:138-141 | no contract: true exactly when an environment was given; `MakeRenderer` decides through it |
| `TwigRendering.TwigRendering.Cache` | src/TwigRendering.php:168-172 | sets the cache directory and returns the same builder; the production flag is outside its frame, so it is left as it was |
| `TwigRendering.TwigRendering.CacheIfProduction` | src/TwigRendering.php:174-179 | sets the production flag and the cache directory and returns the same builder |
| `TwigRendering.TwigRendering.MakeRenderer` | src/TwigRendering.php:148-166 | the environment descriptor built by the precedence rules, including the filesystem loader's `addPath` calls made entry by entry |
| `TwigRendering.TwigRendering.Register` | src/TwigRendering.php:75-91 | the options field becomes the result of the cache step; the environment is built from the updated state; the globals are pushed exactly when `withGlobals` was called |
| `TwigRendering.TwigRendering.Create` | src/TwigRendering.php:181-187 | a new builder whose paths are `["templates"]` for an empty argument and the argument otherwise, with no cache configured |
| `TwigRendering.TwigRendering.Default` | src/TwigRendering.php:189-194 | a new builder whose paths are the argument followed by an unnamed `templates` entry, with cache directory `var/twig` gated on production |
| `Scenarios.GivenEnvironmentWins` | src/TwigRendering.php:150-152 | after `withEnvironment(e)`, later loader, options, paths and cache calls do not stop `register` from using `e` verbatim |
| `Scenarios.GivenLoaderUsesOptions` | src/TwigRendering.php:153-156 | with a loader given, the environment is built from it and the options as updated by the cache step |
| `Scenarios.UngatedCacheIgnoresMode` | src/TwigRendering.php:77-79 | `cache(d)` makes `register` set `cache` to the resolved `d` in either mode; every other key keeps its presence and its value |
| `Scenarios.GatedCacheStaysGated` | src/TwigRendering.php:168-179 | after `cacheIfProduction(d1)` and then `cache(d2)`, a non-production `register` leaves the options exactly as they were |
| `Scenarios.CreateWithoutPaths` | src/TwigRendering.php:181-187 | `create()` registers `templates` in the main namespace and sets no cache option |
| `Scenarios.DefaultInProduction` | src/TwigRendering.php:189-194 | `default(p)` in production registers the entries of `p` then `templates`, with `cache` set to the resolved `var/twig` |
| `Scenarios.DefaultOutsideProduction` | src/TwigRendering.php:189-194 | `default(p)` outside production builds with no cache option |
| `Scenarios.CacheSurvivesReregistration` | src/TwigRendering.php:78-81 | a `cache` option written by a production `register` is still used by a later non-production `register` |
| `Scenarios.GlobalsOnlyWhenGiven` | src/TwigRendering.php:84-86 | globals are pushed only after `withGlobals`; an empty globals array is still pushed |

## Left out

- The renderer facade in `src/TwigRenderer.php` (`render`, `addExtensions`, `addGlobal`, `getTwig`) is not modelled. Each of these forwards to Twig's `Environment`, whose behaviour and errors are not part of this model. `Register` reports the globals it would push instead of modelling the push.
- Publishing into the host container (src/TwigRendering.php:87-90) is not modelled. It makes three bindings: the renderer, the renderer under the renderer contract, and the environment. The container belongs to the host kernel.
- Building the real `FilesystemLoader` and `Environment` is not modelled. Neither is the `LoaderError` that `addPath` raises for a missing directory, nor template loading, compiling and disk caching. All of this is Twig's and the filesystem's. The model records the `addPath` calls that would be made.
- Path resolution and production detection are inputs, given as a `Host`, and not implementations.
- `Namespace` keeps Twig's main namespace apart from every named one. Twig itself spells the main namespace `__main__`, so a string key `"__main__"` would land in the same namespace there. This is not modelled.
- PHP turns numeric string keys such as `"1"` into integer keys. The model takes each key as PHP stores it: `None` for an integer key, `Some` for a string key.
- A PHP array cannot hold the same string key twice, but a `seq<PathEntry>` can. The model does not rule such sequences out. For them it registers each entry as it comes.
- `array_merge` renumbering in `default` is modelled only for its effect here: the appended `"templates"` entry is a trailing entry with an integer key.
- Options and globals are `map<string, Value>`, so the integer keys a PHP array may also hold are not represented there. No decision of the builder depends on them: it only reads and writes the string key `cache`.
- The host's path resolver is an arbitrary function of the relative path. The model does not relate it to the application root: `root` and `resolve("")` are not tied together.
