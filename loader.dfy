/** `ProcessorLoader` of the application: loads a processor class from an
    external jar through a per-jar class loader kept in a cache, after checking
    the jar's SHA-256 checksum when one is expected. The file system, the digest
    and reflective class lookup are the environment `Env`. */
module Loader {
  import opened Common
  import opened Plugin
  import opened Checksum

  /** What reflective lookup of a class name in a jar yields. */
  datatype ClassLookup =
    | ClassNotFound                                  // ClassNotFoundException, message = the class name
    | NotAJobProcessor                               // the class does not implement JobProcessor
    | InstantiationFailed(message: Option<string>)   // the no-argument constructor is missing or throws
    | Instance(processor: Processor)

  /** The world the loader reads: the bytes of each existing file, the SHA-256
      function, and what each jar defines under each class name. */
  datatype Env = Env(
    files: map<string, seq<JByte>>,
    sha256: seq<JByte> -> seq<JByte>,
    classes: (string, string) -> ClassLookup)

  /** One `URLClassLoader`, opened on `jarPath`; `serial` tells loaders apart. */
  datatype LoaderContext = LoaderContext(jarPath: string, serial: nat)

  /** Why a load fails; `Message` is the exception's message. */
  datatype LoadError =
    | ChecksumUnreadable(jarPath: string)     // calculateChecksum could not read the jar
    | ChecksumMismatch(jarPath: string)       // SecurityException
    | LoadFailed(cause: Option<string>)       // any exception inside the try block

  function Message(e: LoadError): string {
    match e
    case ChecksumUnreadable(p) => "Failed to calculate checksum for " + p
    case ChecksumMismatch(p) => "JAR checksum validation failed for " + p
    case LoadFailed(cause) => "Processor loading failed: " + Text(cause)
  }

  const JOB_PROCESSOR_INTERFACE := "com.sel2in.jobProc.processor.JobProcessor"

  /** `Class.forName`, the interface check and `newInstance`, with the message
      of the exception each step throws. A null class name throws a
      `NullPointerException` without message. */
  function Instantiate(env: Env, jarPath: string, className: Option<string>): Result<Processor, Option<string>> {
    if className.None? then Err(None)
    else
      match env.classes(jarPath, className.value)
      case ClassNotFound => Err(Some(className.value))
      case NotAJobProcessor => Err(Some(className.value + " does not implement " + JOB_PROCESSOR_INTERFACE))
      case InstantiationFailed(m) => Err(m)
      case Instance(p) => Ok(p)
  }

  /** The loader cache after `computeIfAbsent(jarPath, ...)` succeeds: the
      cached loader is kept, otherwise a fresh one numbered `created` is added. */
  function Acquire(cache: map<string, LoaderContext>, created: nat, jarPath: string): (map<string, LoaderContext>, nat) {
    if jarPath in cache then (cache, created)
    else (cache[jarPath := LoaderContext(jarPath, created)], created + 1)
  }

  /** Every cached loader is opened on its key and was numbered when created. */
  ghost predicate CacheValid(cache: map<string, LoaderContext>, created: nat) {
    forall p :: p in cache ==> cache[p].jarPath == p && cache[p].serial < created
  }

  /** The outcome of one `load(jarPath, className, expectedChecksum)`. */
  datatype LoadStep = LoadStep(result: Result<Processor, LoadError>, cache: map<string, LoaderContext>, created: nat)

  function LoadSpec(cache: map<string, LoaderContext>, created: nat, env: Env,
                    jarPath: string, className: Option<string>, expected: Option<string>): LoadStep
  {
    if ChecksumRequested(expected) && jarPath !in env.files then
      LoadStep(Err(ChecksumUnreadable(jarPath)), cache, created)
    else if ChecksumRequested(expected) && !EqualsIgnoreCase(expected.value, Hex(env.sha256(env.files[jarPath]))) then
      LoadStep(Err(ChecksumMismatch(jarPath)), cache, created)
    else if jarPath !in cache && jarPath !in env.files then
      LoadStep(Err(LoadFailed(Some("Failed to initialize ClassLoader for " + jarPath))), cache, created)
    else
      var (cache', created') := Acquire(cache, created, jarPath);
      match Instantiate(env, jarPath, className)
      case Ok(p) => LoadStep(Ok(p), cache', created')
      case Err(m) => LoadStep(Err(LoadFailed(m)), cache', created')
  }

  class ProcessorLoader {
    /** `classLoaderCache`: jar path to its class loader. */
    var cache: map<string, LoaderContext>
    /** How many class loaders this loader has created so far. */
    var created: nat
    /** The serials of the class loaders that have been closed. */
    var closed: set<nat>

    ghost predicate Valid()
      reads this
    {
      CacheValid(cache, created)
    }

    constructor()
      ensures Valid() && cache == map[] && created == 0 && closed == {}
    {
      cache := map[];
      created := 0;
      closed := {};
    }

    /** `calculateChecksum(path)`: the hex text of the file's SHA-256 digest. */
    method CalculateChecksum(path: string, env: Env) returns (r: Result<string, LoadError>)
      ensures path in env.files ==> r == Ok(Hex(env.sha256(env.files[path])))
      ensures path !in env.files ==> r == Err(ChecksumUnreadable(path))
    {
      if path !in env.files {
        return Err(ChecksumUnreadable(path));
      }
      var hash := env.sha256(env.files[path]);
      var hex := HexEncode(hash);
      r := Ok(hex);
    }

    method Load(jarPath: string, className: Option<string>, expected: Option<string>, env: Env)
      returns (r: Result<Processor, LoadError>)
      requires Valid()
      modifies this
      ensures Valid()
      ensures LoadStep(r, cache, created) == LoadSpec(old(cache), old(created), env, jarPath, className, expected)
      ensures closed == old(closed)
    {
      if ChecksumRequested(expected) {
        var actual := CalculateChecksum(jarPath, env);
        if actual.Err? {
          return Err(actual.error);
        }
        if !EqualsIgnoreCase(expected.value, actual.value) {
          return Err(ChecksumMismatch(jarPath));
        }
      }
      if jarPath !in cache {
        if jarPath !in env.files {
          return Err(LoadFailed(Some("Failed to initialize ClassLoader for " + jarPath)));
        }
        cache := cache[jarPath := LoaderContext(jarPath, created)];
        created := created + 1;
      }
      var instance := Instantiate(env, jarPath, className);
      if instance.Err? {
        return Err(LoadFailed(instance.error));
      }
      r := Ok(instance.value);
    }

    /** `evictCache(jarPath)`: forget the jar's class loader and close it; a
        path with no cached loader changes nothing. A failing close is only logged. */
    method EvictCache(jarPath: string)
      requires Valid()
      modifies this
      ensures Valid()
      ensures cache == old(cache) - {jarPath} && created == old(created)
      ensures closed == old(closed) + (if jarPath in old(cache) then {old(cache[jarPath]).serial} else {})
    {
      if jarPath in cache {
        closed := closed + {cache[jarPath].serial};
        cache := cache - {jarPath};
      }
    }
  }

  // ------------------------------------------------------------ properties

  /** A load that fails the checksum gate creates no class loader and leaves the cache alone. */
  lemma GateFailureLeavesCache(cache: map<string, LoaderContext>, created: nat, env: Env,
                               jarPath: string, className: Option<string>, expected: Option<string>)
    requires ChecksumRequested(expected)
    requires jarPath !in env.files || !EqualsIgnoreCase(expected.value, Hex(env.sha256(env.files[jarPath])))
    ensures var s := LoadSpec(cache, created, env, jarPath, className, expected);
      s.result.Err? && !s.result.error.LoadFailed? && s.cache == cache && s.created == created
  {
  }

  /** A jar that is neither cached nor on disk leaves no cache entry behind. */
  lemma MissingJarNotCached(cache: map<string, LoaderContext>, created: nat, env: Env,
                            jarPath: string, className: Option<string>, expected: Option<string>)
    requires jarPath !in cache && jarPath !in env.files
    ensures var s := LoadSpec(cache, created, env, jarPath, className, expected);
      s.result.Err? && jarPath !in s.cache && s.created == created
  {
  }

  /** Past the gate, the loaded instance is whatever the jar defines under the class name. */
  lemma LoadedInstance(cache: map<string, LoaderContext>, created: nat, env: Env,
                       jarPath: string, className: string, expected: Option<string>, p: Processor)
    requires ChecksumAccepted(expected, if jarPath in env.files then Hex(env.sha256(env.files[jarPath])) else [])
    requires !ChecksumRequested(expected) || jarPath in env.files
    requires jarPath in cache || jarPath in env.files
    ensures LoadSpec(cache, created, env, jarPath, Some(className), expected).result == Ok(p)
        <==> env.classes(jarPath, className) == Instance(p)
  {
  }

  /** Loads of the same jar share one class loader: two loads create at most one. */
  lemma {:induction false} OneLoaderPerJar(cache: map<string, LoaderContext>, created: nat, env: Env,
                                           jarPath: string, c1: Option<string>, c2: Option<string>,
                                           e1: Option<string>, e2: Option<string>)
    requires CacheValid(cache, created)
    ensures var s1 := LoadSpec(cache, created, env, jarPath, c1, e1);
      var s2 := LoadSpec(s1.cache, s1.created, env, jarPath, c2, e2);
      CacheValid(s2.cache, s2.created) && s2.created <= created + 1
      && (jarPath in s1.cache && jarPath in s2.cache ==> s2.cache[jarPath] == s1.cache[jarPath])
  {
    var s1 := LoadSpec(cache, created, env, jarPath, c1, e1);
    LoadKeepsCacheValid(cache, created, env, jarPath, c1, e1);
    LoadKeepsCacheValid(s1.cache, s1.created, env, jarPath, c2, e2);
  }

  /** Every load keeps the cache well formed and only ever adds the loaded jar. */
  lemma LoadKeepsCacheValid(cache: map<string, LoaderContext>, created: nat, env: Env,
                            jarPath: string, className: Option<string>, expected: Option<string>)
    requires CacheValid(cache, created)
    ensures var s := LoadSpec(cache, created, env, jarPath, className, expected);
      CacheValid(s.cache, s.created)
      && s.cache.Keys <= cache.Keys + {jarPath}
      && (forall p :: p in cache ==> p in s.cache && s.cache[p] == cache[p])
      && (s.created == created || (s.created == created + 1 && jarPath !in cache && s.cache[jarPath].serial == created))
  {
  }

  /** After `evictCache`, the next load of the jar opens a class loader that no
      earlier load has used. */
  lemma EvictThenLoadIsFresh(cache: map<string, LoaderContext>, created: nat, env: Env,
                             jarPath: string, className: Option<string>, expected: Option<string>)
    requires CacheValid(cache, created)
    ensures var s := LoadSpec(cache - {jarPath}, created, env, jarPath, className, expected);
      jarPath in s.cache ==>
        s.cache[jarPath].serial == created
        && forall p :: p in cache ==> cache[p].serial != s.cache[jarPath].serial
  {
  }
}
