/**
 * The `TwigRendering` service provider: a fluent configuration builder that,
 * on `register`, settles the `cache` option and decides how the Twig
 * environment is built.
 */
module TwigRendering {
  import opened Wrappers
  import opened Twig

  /** The cache directory used by `default`. */
  const DefaultCacheDir: string := "var/twig"

  /** The search path used by `create` and `default`. */
  const TemplatesDir: string := "templates"

  /** The options key `register` writes. */
  const CacheKey: string := "cache"

  // ---------------------------------------------------------------------------
  // Specification functions
  // ---------------------------------------------------------------------------

  /** The cache directory `register` writes into the options, if any: the
      two guarded writes of `register`, which never both apply. An ungated
      directory is written always, a production-gated one only in production. */
  function CacheDecision(cacheDir: Option<string>, gated: bool, production: bool,
                         resolve: string -> string): (d: Option<string>)
    ensures d.Some? <==> cacheDir.Some? && (!gated || production)
    ensures d.Some? ==> d.value == resolve(cacheDir.value)
  {
    if cacheDir.Some? && !gated then Some(resolve(cacheDir.value))
    else if cacheDir.Some? && gated && production then Some(resolve(cacheDir.value))
    else None
  }

  /** The options array after the cache step of `register`. */
  function CachedOptions(options: map<string, Value>, cacheDir: Option<string>, gated: bool,
                         production: bool, resolve: string -> string): (r: map<string, Value>)
    ensures forall k :: k != CacheKey ==> (k in r <==> k in options)
    ensures forall k :: k != CacheKey && k in options ==> r[k] == options[k]
    ensures CacheKey in r <==> CacheKey in options || CacheDecision(cacheDir, gated, production, resolve).Some?
    ensures CacheDecision(cacheDir, gated, production, resolve).Some? ==>
              r[CacheKey] == Str(resolve(cacheDir.value))
    ensures CacheDecision(cacheDir, gated, production, resolve).None? ==> r == options
  {
    match CacheDecision(cacheDir, gated, production, resolve)
    case Some(dir) => options[CacheKey := Str(dir)]
    case None => options
  }

  /** The `addPath` call that one paths entry turns into: an integer key
      registers in the main namespace, a string key names the namespace. */
  function ToSearchPath(e: PathEntry): (r: SearchPath)
    ensures r.path == e.path
    ensures r.namespace.Main? <==> e.key.None?
    ensures e.key.Some? ==> r.namespace == Named(e.key.value)
  {
    match e.key
    case None => SearchPath(Main, e.path)
    case Some(ns) => SearchPath(Named(ns), e.path)
  }

  /** The `addPath` calls made for a paths array, in array order. */
  function SearchPaths(paths: seq<PathEntry>): (r: seq<SearchPath>)
    ensures |r| == |paths|
  {
    if paths == [] then []
    else SearchPaths(paths[..|paths| - 1]) + [ToSearchPath(paths[|paths| - 1])]
  }

  /** The environment the builder's state yields: a given environment wins,
      then a given loader, then a filesystem loader over the paths. */
  function Construct(environment: Option<EnvironmentRef>, loader: Option<LoaderRef>,
                     options: map<string, Value>, paths: seq<PathEntry>,
                     root: string): (d: EnvDescriptor)
    ensures environment.Some? ==> d == Given(environment.value)
    ensures environment.None? && loader.Some? ==> d == FromLoader(loader.value, options)
    ensures environment.None? && loader.None? ==>
              d.FromFilesystem? && d.root == root && d.options == options
  {
    if environment.Some? then Given(environment.value)
    else if loader.Some? then FromLoader(loader.value, options)
    else FromFilesystem(root, SearchPaths(paths), options)
  }

  // ---------------------------------------------------------------------------
  // Lemmas about the specification
  // ---------------------------------------------------------------------------

  /** Each paths entry yields exactly one `addPath` call, at its own position,
      with its own path, in the main namespace exactly when its key is an
      integer and otherwise in the namespace its key names. */
  lemma {:induction false} SearchPathsAt(paths: seq<PathEntry>, k: nat)
    requires k < |paths|
    ensures SearchPaths(paths)[k].path == paths[k].path
    ensures SearchPaths(paths)[k].namespace == Main <==> paths[k].key.None?
    ensures forall ns :: SearchPaths(paths)[k].namespace == Named(ns) <==> paths[k].key == Some(ns)
  {
    var n := |paths| - 1;
    if k < n {
      SearchPathsAt(paths[..n], k);
    } else if n > 0 {
      SearchPathsAt(paths[..n], 0);
    }
  }

  /** `addPath` calls for a concatenation of paths arrays are those of the
      first followed by those of the second. */
  lemma {:induction false} SearchPathsAppend(p: seq<PathEntry>, q: seq<PathEntry>)
    ensures SearchPaths(p + q) == SearchPaths(p) + SearchPaths(q)
  {
    if q == [] {
      assert p + q == p;
    } else {
      var n := |q| - 1;
      SearchPathsAppend(p, q[..n]);
      assert (p + q)[..|p + q| - 1] == p + q[..n];
      assert (p + q)[|p + q| - 1] == q[n];
    }
  }

  /** With neither an environment nor a loader given, the filesystem loader
      receives exactly one `addPath` per paths entry, in order. */
  lemma FilesystemConstruction(options: map<string, Value>, paths: seq<PathEntry>, root: string)
    ensures var d := Construct(None, None, options, paths, root);
            d.FromFilesystem? && d.root == root && d.options == options &&
            |d.searchPaths| == |paths| &&
            forall k :: 0 <= k < |paths| ==>
              d.searchPaths[k] == SearchPath(if paths[k].key.None? then Main else Named(paths[k].key.value),
                                             paths[k].path)
  {
    forall k | 0 <= k < |paths|
      ensures |SearchPaths(paths)| == |paths| && SearchPaths(paths)[k] ==
              SearchPath(if paths[k].key.None? then Main else Named(paths[k].key.value), paths[k].path)
    {
      SearchPathsAt(paths, k);
    }
  }

  /** The paths array of `default(p)` registers the entries of `p`, then
      `templates` in the main namespace. */
  lemma DefaultSearchPaths(p: seq<PathEntry>)
    ensures SearchPaths(p + [PathEntry(None, TemplatesDir)]) ==
            SearchPaths(p) + [SearchPath(Main, TemplatesDir)]
  {
    SearchPathsAppend(p, [PathEntry(None, TemplatesDir)]);
  }

  /** A `cache` option once written is never removed by a later `register`,
      whatever the production mode then; and a `register` that repeats the
      same decision leaves the options as the first one left them. */
  lemma CachePersists(options: map<string, Value>, cacheDir: Option<string>, gated: bool,
                      production1: bool, production2: bool, resolve: string -> string)
    requires CacheDecision(cacheDir, gated, production1, resolve).Some?
    ensures var first := CachedOptions(options, cacheDir, gated, production1, resolve);
            var second := CachedOptions(first, cacheDir, gated, production2, resolve);
            CacheKey in second && second[CacheKey] == Str(resolve(cacheDir.value)) &&
            second == first
  {
  }

  // ---------------------------------------------------------------------------
  // The builder
  // ---------------------------------------------------------------------------

  class TwigRendering {
    var loader: Option<LoaderRef>
    var environment: Option<EnvironmentRef>
    var options: map<string, Value>
    var paths: seq<PathEntry>
    var cacheDir: Option<string>
    var globals: Option<map<string, Value>>
    var cacheIfProduction: bool

    /** Stores the paths and options as given; nothing else is configured. */
    constructor (paths: seq<PathEntry> := [], options: map<string, Value> := map[])
      ensures this.paths == paths && this.options == options
      ensures loader == None && environment == None && cacheDir == None && globals == None
      ensures !cacheIfProduction
    {
      this.paths := paths;
      this.options := options;
      loader := None;
      environment := None;
      cacheDir := None;
      globals := None;
      cacheIfProduction := false;
    }

    method WithLoader(l: LoaderRef) returns (self: TwigRendering)
      modifies this`loader
      ensures self == this && loader == Some(l)
    {
      loader := Some(l);
      self := this;
    }

    method WithEnvironment(e: EnvironmentRef) returns (self: TwigRendering)
      modifies this`environment
      ensures self == this && environment == Some(e)
    {
      environment := Some(e);
      self := this;
    }

    method WithOptions(o: map<string, Value>) returns (self: TwigRendering)
      modifies this`options
      ensures self == this && options == o
    {
      options := o;
      self := this;
    }

    method WithPaths(p: seq<PathEntry>) returns (self: TwigRendering)
      modifies this`paths
      ensures self == this && paths == p
    {
      paths := p;
      self := this;
    }

    method WithGlobals(g: map<string, Value>) returns (self: TwigRendering)
      modifies this`globals
      ensures self == this && globals == Some(g)
    {
      globals := Some(g);
      self := this;
    }

    /** Whether a loader was given. */
    predicate HasLoader()
      reads this
    {
      loader.Some?
    }

    /** Whether an environment was given. */
    predicate HasEnvironment()
      reads this
    {
      environment.Some?
    }

    /** Sets the cache directory; whether caching is production-gated is
        left as it was. */
    method Cache(d: string) returns (self: TwigRendering)
      modifies this`cacheDir
      ensures self == this && cacheDir == Some(d)
    {
      cacheDir := Some(d);
      self := this;
    }

    /** Gates caching on production mode, for good, and sets the directory. */
    method CacheIfProduction(d: string) returns (self: TwigRendering)
      modifies this`cacheIfProduction, this`cacheDir
      ensures self == this && cacheIfProduction && cacheDir == Some(d)
    {
      cacheIfProduction := true;
      var _ := Cache(d);
      self := this;
    }

    /** Chooses how the environment is built from the current state; in the
        filesystem case it issues one `addPath` per paths entry, in order. */
    method MakeRenderer(rootPath: string) returns (d: EnvDescriptor)
      ensures d == Construct(environment, loader, options, paths, rootPath)
    {
      if HasEnvironment() {
        return Given(environment.value);
      }
      if HasLoader() {
        return FromLoader(loader.value, options);
      }
      var added: seq<SearchPath> := [];
      var i := 0;
      while i < |paths|
        invariant 0 <= i <= |paths|
        invariant added == SearchPaths(paths[..i])
      {
        var entry := paths[i];
        if entry.key.None? {
          added := added + [SearchPath(Main, entry.path)];
        } else {
          added := added + [SearchPath(Named(entry.key.value), entry.path)];
        }
        assert paths[..i + 1][..i] == paths[..i];
        i := i + 1;
      }
      assert paths[..|paths|] == paths;
      d := FromFilesystem(rootPath, added, options);
    }

    /** Writes the `cache` option into this builder's own options as
        `CacheDecision` dictates, builds the environment from the updated
        state, and reports whether globals were pushed into the renderer.
        `register` then publishes the renderer, the renderer under the
        renderer contract, and the environment into the host container:
        three bindings, which are not modelled. */
    method Register(host: Host) returns (env: EnvDescriptor, pushedGlobals: Option<map<string, Value>>)
      modifies this`options
      ensures options == CachedOptions(old(options), cacheDir, cacheIfProduction,
                                       host.production, host.resolve)
      ensures env == Construct(environment, loader, options, paths, host.root)
      ensures pushedGlobals == globals
    {
      if cacheDir.Some? && !cacheIfProduction {
        options := options[CacheKey := Str(host.resolve(cacheDir.value))];
      }
      if cacheDir.Some? && cacheIfProduction && host.production {
        options := options[CacheKey := Str(host.resolve(cacheDir.value))];
      }
      env := MakeRenderer(host.root);
      pushedGlobals := globals;
    }

    /** `create(p)`: the templates directory when `p` is empty, else `p`. */
    static method Create(p: seq<PathEntry> := []) returns (r: TwigRendering)
      ensures fresh(r)
      ensures r.paths == (if p == [] then [PathEntry(None, TemplatesDir)] else p)
      ensures r.options == map[] && r.cacheDir == None && !r.cacheIfProduction
      ensures r.loader == None && r.environment == None && r.globals == None
    {
      var q := p;
      if q == [] {
        q := [PathEntry(None, TemplatesDir)];
      }
      r := new TwigRendering(q);
    }

    /** `default(p)`: `p` then the templates directory, with caching to
        `var/twig` gated on production mode. */
    static method Default(p: seq<PathEntry> := []) returns (r: TwigRendering)
      ensures fresh(r)
      ensures r.paths == p + [PathEntry(None, TemplatesDir)]
      ensures r.options == map[] && r.cacheDir == Some(DefaultCacheDir) && r.cacheIfProduction
      ensures r.loader == None && r.environment == None && r.globals == None
    {
      var b := new TwigRendering(p + [PathEntry(None, TemplatesDir)]);
      r := b.CacheIfProduction(DefaultCacheDir);
    }
  }
}
