/**
 * Callers of the builder: each method configures a fresh `TwigRendering`
 * through its fluent API, registers it, and states what the registration
 * yields, using nothing but the builder's contracts.
 */
module Scenarios {
  import opened Wrappers
  import opened Twig
  import opened TwigRendering

  /** A given environment is used verbatim, whatever loader, options, paths
      and cache directory are configured after it. */
  method GivenEnvironmentWins(e: EnvironmentRef, l: LoaderRef, o: map<string, Value>,
                              p: seq<PathEntry>, dir: string, host: Host)
    returns (env: EnvDescriptor)
    ensures env == Given(e)
  {
    var b := new TwigRendering();
    b := b.WithEnvironment(e);
    b := b.WithLoader(l);
    b := b.WithOptions(o);
    b := b.WithPaths(p);
    b := b.Cache(dir);
    var pushed;
    env, pushed := b.Register(host);
  }

  /** A given loader is combined with the options as they stand after the
      cache step, and the paths are not consulted. */
  method GivenLoaderUsesOptions(l: LoaderRef, o: map<string, Value>, p: seq<PathEntry>,
                                dir: string, host: Host)
    returns (env: EnvDescriptor)
    ensures env == FromLoader(l, o[CacheKey := Str(host.resolve(dir))])
  {
    var b := new TwigRendering(p, o);
    b := b.WithLoader(l);
    b := b.Cache(dir);
    var pushed;
    env, pushed := b.Register(host);
  }

  /** Ungated caching writes the resolved directory in either mode. */
  method UngatedCacheIgnoresMode(dir: string, o: map<string, Value>, host: Host)
    returns (options: map<string, Value>)
    ensures CacheKey in options && options[CacheKey] == Str(host.resolve(dir))
    ensures forall k :: k != CacheKey ==> (k in options <==> k in o)
    ensures forall k :: k != CacheKey && k in o ==> options[k] == o[k]
  {
    var b := new TwigRendering(options := o);
    b := b.Cache(dir);
    var _, _ := b.Register(host);
    options := b.options;
  }

  /** Once caching is gated, a later `cache` call keeps it gated: outside
      production the options come out of `register` as they went in. */
  method GatedCacheStaysGated(d1: string, d2: string, o: map<string, Value>, host: Host)
    returns (options: map<string, Value>)
    requires !host.production
    ensures options == o
  {
    var b := new TwigRendering([], o);
    b := b.CacheIfProduction(d1);
    b := b.Cache(d2);
    var _, _ := b.Register(host);
    options := b.options;
  }

  /** `create()` with no paths searches `templates` in the main namespace,
      with no cache option. */
  method CreateWithoutPaths(host: Host) returns (env: EnvDescriptor)
    ensures env == FromFilesystem(host.root, [SearchPath(Main, TemplatesDir)], map[])
  {
    var b := TwigRendering.Create();
    var pushed;
    env, pushed := b.Register(host);
    assert [PathEntry(None, TemplatesDir)][..0] == [];
    assert SearchPaths([PathEntry(None, TemplatesDir)]) == [SearchPath(Main, TemplatesDir)];
  }

  /** `default(p)` in production: the entries of `p` then `templates`, and the
      cache option resolved from `var/twig`. */
  method DefaultInProduction(p: seq<PathEntry>, root: string, resolve: string -> string)
    returns (env: EnvDescriptor)
    ensures env.FromFilesystem? && env.root == root
    ensures env.searchPaths == SearchPaths(p) + [SearchPath(Main, TemplatesDir)]
    ensures env.options == map[CacheKey := Str(resolve(DefaultCacheDir))]
  {
    var b := TwigRendering.Default(p);
    var pushed;
    env, pushed := b.Register(Host(root, resolve, true));
    DefaultSearchPaths(p);
  }

  /** `default(p)` outside production leaves the cache option unset. */
  method DefaultOutsideProduction(p: seq<PathEntry>, root: string, resolve: string -> string)
    returns (env: EnvDescriptor)
    ensures env.FromFilesystem? && env.options == map[]
  {
    var b := TwigRendering.Default(p);
    var pushed;
    env, pushed := b.Register(Host(root, resolve, false));
  }

  /** The cache option lands in the builder itself: a production `register`
      followed by a non-production one still builds with the cache option. */
  method CacheSurvivesReregistration(root: string, resolve: string -> string)
    returns (env: EnvDescriptor)
    ensures env.FromFilesystem? && env.options == map[CacheKey := Str(resolve(DefaultCacheDir))]
  {
    var b := TwigRendering.Default();
    var _, _ := b.Register(Host(root, resolve, true));
    var pushed;
    env, pushed := b.Register(Host(root, resolve, false));
  }

  /** Globals reach the renderer only through `withGlobals`; an empty
      globals array is still pushed. */
  method GlobalsOnlyWhenGiven(g: map<string, Value>, host: Host)
    returns (without: Option<map<string, Value>>, with: Option<map<string, Value>>, empty: Option<map<string, Value>>)
    ensures without == None && with == Some(g) && empty == Some(map[])
  {
    var b := TwigRendering.Create();
    var env;
    env, without := b.Register(host);
    b := b.WithGlobals(g);
    env, with := b.Register(host);
    b := b.WithGlobals(map[]);
    env, empty := b.Register(host);
  }
}
