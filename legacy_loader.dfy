/** The two loaders of the earlier code base: `ProcessorLoader` without a
    checksum (every failure becomes "Processor loading failed"), and
    `DynamicClassLoaderService`, a plain map of class loaders that trusts a
    cached path, never closes a loader and has no interface check before the
    cast. Both share the cache step of the application's loader. */
module LegacyLoader {
  import opened Common
  import opened Plugin
  import Loader

  const LOAD_FAILED := "Processor loading failed"

  /** The outcome of one load: the instance or the message of the exception
      thrown, and the cache afterwards. */
  datatype Step<E> = Step(result: Result<Processor, E>, cache: map<string, Loader.LoaderContext>, created: nat)

  /** `ProcessorLoader.load(jarPath, className)` of the earlier code base. */
  function LoadSpec(cache: map<string, Loader.LoaderContext>, created: nat, env: Loader.Env,
                    jarPath: string, className: Option<string>): Step<string>
  {
    if jarPath !in cache && jarPath !in env.files then Step(Err(LOAD_FAILED), cache, created)
    else
      var (cache', created') := Loader.Acquire(cache, created, jarPath);
      match Loader.Instantiate(env, jarPath, className)
      case Ok(p) => Step(Ok(p), cache', created')
      case Err(_) => Step(Err(LOAD_FAILED), cache', created')
  }

  /** Without an expected checksum the earlier loader behaves as the
      application's: same cache, same instance; only the failure message differs. */
  lemma AgreesWithCurrentLoader(cache: map<string, Loader.LoaderContext>, created: nat, env: Loader.Env,
                                jarPath: string, className: Option<string>)
    ensures var a := Loader.LoadSpec(cache, created, env, jarPath, className, None);
      var b := LoadSpec(cache, created, env, jarPath, className);
      a.cache == b.cache && a.created == b.created
      && (a.result.Ok? <==> b.result.Ok?)
      && (a.result.Ok? ==> a.result.value == b.result.value)
      && (b.result.Err? ==> b.result.error == LOAD_FAILED && a.result.error.LoadFailed?)
  {
  }

  class ProcessorLoader {
    var cache: map<string, Loader.LoaderContext>
    var created: nat
    var closed: set<nat>

    ghost predicate Valid()
      reads this
    {
      Loader.CacheValid(cache, created)
    }

    constructor()
      ensures Valid() && cache == map[] && created == 0 && closed == {}
    {
      cache := map[];
      created := 0;
      closed := {};
    }

    method Load(jarPath: string, className: Option<string>, env: Loader.Env) returns (r: Result<Processor, string>)
      requires Valid()
      modifies this
      ensures Valid()
      ensures Step(r, cache, created) == LoadSpec(old(cache), old(created), env, jarPath, className)
      ensures closed == old(closed)
    {
      if jarPath !in cache {
        if jarPath !in env.files {
          return Err(LOAD_FAILED);
        }
        cache := cache[jarPath := Loader.LoaderContext(jarPath, created)];
        created := created + 1;
      }
      var instance := Loader.Instantiate(env, jarPath, className);
      if instance.Err? {
        return Err(LOAD_FAILED);
      }
      r := Ok(instance.value);
    }

    /** `evictCache(jarPath)`: drop and close that path's loader only. */
    method EvictCache(jarPath: string)
      requires Valid()
      modifies this
      ensures Valid()
      ensures cache == old(cache) - {jarPath} && created == old(created)
      ensures closed == old(closed) + (if jarPath in old(cache) then {old(cache[jarPath]).serial} else {})
    {
      if jarPath in cache {
        closed := closed + {cache[jarPath].serial};
        cache := cache - {jarPath};
      }
    }
  }

  /** What `DynamicClassLoaderService.loadProcessor` throws. */
  datatype DynamicError =
    | JarNotFound(jarPath: string)        // "JAR file not found: " + jarPath
    | Raised(message: Option<string>)     // Class.forName or the constructor threw
    | CastFailed(className: string)       // ClassCastException at the cast to IJobProcessor

  /** `loadProcessor(jarPath, className)`: a cached path is used as is; an
      unseen one must exist on disk. The class is instantiated before the cast,
      so a class of the wrong type fails only at the cast. */
  function DynamicLoadSpec(cache: map<string, Loader.LoaderContext>, created: nat, env: Loader.Env,
                           jarPath: string, className: Option<string>): Step<DynamicError>
  {
    if jarPath !in cache && jarPath !in env.files then Step(Err(JarNotFound(jarPath)), cache, created)
    else
      var (cache', created') := Loader.Acquire(cache, created, jarPath);
      if className.None? then Step(Err(Raised(None)), cache', created')
      else
        match env.classes(jarPath, className.value)
        case ClassNotFound => Step(Err(Raised(className)), cache', created')
        case NotAJobProcessor => Step(Err(CastFailed(className.value)), cache', created')
        case InstantiationFailed(m) => Step(Err(Raised(m)), cache', created')
        case Instance(p) => Step(Ok(p), cache', created')
  }

  /** The service caches exactly as the earlier loader does, and finds the same instances. */
  lemma DynamicCachesLikeLoader(cache: map<string, Loader.LoaderContext>, created: nat, env: Loader.Env,
                                jarPath: string, className: Option<string>)
    ensures var a := DynamicLoadSpec(cache, created, env, jarPath, className);
      var b := LoadSpec(cache, created, env, jarPath, className);
      a.cache == b.cache && a.created == b.created
      && (a.result.Ok? <==> b.result.Ok?)
      && (a.result.Ok? ==> a.result.value == b.result.value)
  {
  }

  /** A cached path is reused even when its jar is gone from disk. */
  lemma DynamicTrustsCache(cache: map<string, Loader.LoaderContext>, created: nat, env: Loader.Env,
                           jarPath: string, className: string, p: Processor)
    requires jarPath in cache && jarPath !in env.files
    requires env.classes(jarPath, className) == Loader.Instance(p)
    ensures DynamicLoadSpec(cache, created, env, jarPath, Some(className)) == Step(Ok(p), cache, created)
  {
  }

  class DynamicClassLoaderService {
    var cache: map<string, Loader.LoaderContext>
    var created: nat

    ghost predicate Valid()
      reads this
    {
      Loader.CacheValid(cache, created)
    }

    constructor()
      ensures Valid() && cache == map[] && created == 0
    {
      cache := map[];
      created := 0;
    }

    method LoadProcessor(jarPath: string, className: Option<string>, env: Loader.Env)
      returns (r: Result<Processor, DynamicError>)
      requires Valid()
      modifies this
      ensures Valid()
      ensures Step(r, cache, created) == DynamicLoadSpec(old(cache), old(created), env, jarPath, className)
    {
      if jarPath !in cache {
        if jarPath !in env.files {
          return Err(JarNotFound(jarPath));
        }
        cache := cache[jarPath := Loader.LoaderContext(jarPath, created)];
        created := created + 1;
      }
      if className.None? {
        return Err(Raised(None));
      }
      match env.classes(jarPath, className.value)
      case ClassNotFound => r := Err(Raised(className));
      case NotAJobProcessor => r := Err(CastFailed(className.value));
      case InstantiationFailed(m) => r := Err(Raised(m));
      case Instance(p) => r := Ok(p);
    }

    /** `clearCache(jarPath)`: forget that path's loader, without closing it. */
    method ClearCache(jarPath: string)
      requires Valid()
      modifies this
      ensures Valid()
      ensures cache == old(cache) - {jarPath} && created == old(created)
    {
      cache := cache - {jarPath};
    }
  }
}
