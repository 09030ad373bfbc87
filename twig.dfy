/**
 * The collaborators of the rendering builder that live outside this
 * repository, reduced to what the builder can observe of them: the Twig
 * loader and environment objects, Twig's option values, and the host
 * kernel's path resolver and production switch.
 */
module Twig {
  import opened Wrappers

  /** An option value (the right-hand side of Twig's options array). */
  datatype Value = Str(s: string) | Other(id: nat)

  /** A caller-supplied `LoaderInterface` object, known only by its identity. */
  type LoaderRef = nat

  /** A caller-supplied `Environment` object, known only by its identity. */
  type EnvironmentRef = nat

  /** One entry of the PHP paths array. `key == None` stands for an integer
      key, `key == Some(ns)` for a string key; the order of the sequence is
      the insertion order of the array. */
  datatype PathEntry = PathEntry(key: Option<string>, path: string)

  /** A namespace of Twig's filesystem loader: the loader's main namespace
      (what `addPath($path)` uses) or a named one. */
  datatype Namespace = Main | Named(name: string)

  /** One `addPath` call made on a filesystem loader. */
  datatype SearchPath = SearchPath(namespace: Namespace, path: string)

  /** How the Twig environment handed to the renderer was obtained. */
  datatype EnvDescriptor =
    | Given(env: EnvironmentRef)
      // `new Environment($loader, $options)` with a caller-supplied loader
    | FromLoader(loader: LoaderRef, options: map<string, Value>)
      // `new Environment(new FilesystemLoader([], $root) + addPath calls, $options)`
    | FromFilesystem(root: string, searchPaths: seq<SearchPath>, options: map<string, Value>)

  /** What `register` reads from the host kernel: the application root
      (`$app->path()->app()`), the resolver of a path relative to it
      (`$app->path()->app($p)`), and `$app->env()->isProduction()`. */
  datatype Host = Host(root: string, resolve: string -> string, production: bool)
}
