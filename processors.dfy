/** `ProcessorController`: registering a processor class by definition
    (`add`), by uploading its jar (`uploadJar`), and removing it (`remove`).
    The upload's bytes are given, the SHA-256 function is a parameter, and the
    file it writes is returned instead of written. */
module Processors {
  import opened Common
  import opened Records
  import opened Checksum
  import opened Loader

  const JAR_EXTENSION := ".jar"
  const SAVED := "Processor saved successfully"
  const REMOVED := "Processor removed successfully"
  const NO_FILE := "Error: no file uploaded"
  const NOT_A_JAR := "Error: file must be a .jar"
  /** A stand-in for the not-null violation Hibernate raises for a missing
      `jarPath`; its real text names the entity property and Spring wraps it. */
  const NULL_JAR_PATH := "not-null property references a null value: jarPath"

  /** The class-name checks `add` and `uploadJar` share, as the message each returns. */
  function ClassNameError(className: Option<string>): Option<string> {
    if BlankOrNull(className) then Some("Error: className cannot be empty")
    else if UnsafeClassName(className.value) then Some("Error: className contains invalid characters (/, \\, ..)")
    else None
  }

  /** A class name is accepted exactly when it is present, has a character
      above U+0020, and holds no '/', '\' or "..". */
  lemma ClassNameErrorIff(className: Option<string>)
    ensures ClassNameError(className).None? <==>
      className.Some? && (exists i :: 0 <= i < |className.value| && className.value[i] > ' ')
      && '/' !in className.value && '\\' !in className.value
      && (forall i :: 0 <= i < |className.value| - 1 ==> !(className.value[i] == '.' && className.value[i + 1] == '.'))
  {
    if className.Some? {
      TrimEmpty(className.value);
      UnsafeClassNameIff(className.value);
    }
  }

  /** The JSON body of `add`. The id has no setter, but Jackson still writes a
      posted `"id"` into the field, since the property has a getter. */
  datatype DefinitionBody = DefinitionBody(id: Option<int>, className: Option<string>, jarPath: Option<string>, checksum: Option<string>)

  /** The multipart file of `uploadJar`. */
  datatype JarUpload = JarUpload(originalName: Option<string>, content: seq<JByte>)

  /** `Paths.get("./processors").resolve(name).toAbsolutePath()`, with the
      absolute form of `./processors` (slashes collapsed, "." kept, as in `<cwd>/./processors`) given as `jarRoot`. */
  function JarPathOf(jarRoot: string, originalName: string): string {
    Resolve(jarRoot, originalName)
  }

  function UploadMessage(className: string, jarPath: string, checksum: string): string {
    "JAR uploaded and processor registered: " + className + " -> " + jarPath + " (sha256: " + checksum + ")"
  }

  /** What `uploadJar` refuses, in the order it checks, before it writes anything. */
  function UploadError(file: JarUpload, className: Option<string>): Option<string> {
    if |file.content| == 0 then Some(NO_FILE)
    else if ClassNameError(className).Some? then ClassNameError(className)
    else if file.originalName.None? || !EndsWith(file.originalName.value, JAR_EXTENSION) then Some(NOT_A_JAR)
    else None
  }

  class ProcessorController {
    const db: Database
    const loader: ProcessorLoader
    /** The absolute form of `./processors`. */
    const jarRoot: string

    ghost predicate Valid()
      reads this, db, loader
    {
      db.Valid() && loader.Valid()
    }

    constructor(db: Database, loader: ProcessorLoader, jarRoot: string)
      requires db.Valid() && loader.Valid()
      ensures Valid() && this.db == db && this.loader == loader && this.jarRoot == jarRoot
    {
      this.db := db;
      this.loader := loader;
      this.jarRoot := jarRoot;
    }

    /** `add(definition)` as written: the stored `createdTs` is copied onto the
        body and the body is saved. A body without an id (or with an id no row
        has) is inserted, so a class name already registered is refused by the
        unique column. A body carrying a stored row's id is merged into that
        row, and the null `updatedTs` it brings makes the flush stamp it. */
    method Add(body: DefinitionBody, now: Time) returns (r: Result<string, string>)
      requires Valid()
      modifies db
      ensures Valid()
      ensures ClassNameError(body.className).Some? ==>
        r == Ok(ClassNameError(body.className).value) && db.processors == old(db.processors)
      ensures ClassNameError(body.className).None? && body.jarPath.None? ==>
        r == Err(NULL_JAR_PATH) && db.processors == old(db.processors)
      ensures ClassNameError(body.className).None? && body.jarPath.Some? && !HoldsId(old(db.processors), body.id)
              && body.className.value in old(db.processors) ==>
        r.Err? && db.processors == old(db.processors)
      ensures ClassNameError(body.className).None? && body.jarPath.Some? && !HoldsId(old(db.processors), body.id)
              && body.className.value !in old(db.processors) ==>
        r == Ok(SAVED)
        && db.processors == old(db.processors)[body.className.value :=
             ProcessorDefinition(Some(old(db.nextProcessorId)), body.className.value, body.jarPath.value,
                                 body.checksum, Some(now), Some(now))]
      ensures ClassNameError(body.className).None? && body.jarPath.Some? ==>
        forall c0 :: c0 in old(db.processors) && old(db.processors)[c0].id == body.id ==>
          var c := body.className.value;
          if c != c0 && c in old(db.processors) then
            r.Err? && db.processors == old(db.processors)
          else
            r == Ok(SAVED)
            && db.processors == (old(db.processors) - {c0})[c :=
                 ProcessorDefinition(body.id, c, body.jarPath.value, body.checksum, old(db.processors)[c0].createdTs, Some(now))]
      ensures db.jobs == old(db.jobs) && db.order == old(db.order) && db.nextJobId == old(db.nextJobId)
      ensures db.inputFiles == old(db.inputFiles) && db.inputParams == old(db.inputParams)
      ensures db.jobErrors == old(db.jobErrors) && db.appParams == old(db.appParams)
    {
      var error := ClassNameError(body.className);
      if error.Some? {
        return Ok(error.value);
      }
      var className := body.className.value;
      var createdTs: Option<Time> := None;
      if className in db.processors {
        createdTs := db.processors[className].createdTs;
      }
      if body.jarPath.None? {
        return Err(NULL_JAR_PATH);
      }
      var saved := db.SaveProcessor(ProcessorDefinition(body.id, className, body.jarPath.value, body.checksum, createdTs, None), now);
      if saved.Err? {
        return Err(saved.error);
      }
      r := Ok(SAVED);
    }

    /** `add(definition)` as evidently intended: an upsert by class name that
        keeps the stored row's id and creation time, as `uploadJar` does; a
        posted id plays no part. */
    method AddCorrected(body: DefinitionBody, now: Time) returns (r: Result<string, string>)
      requires Valid()
      modifies db
      ensures Valid()
      ensures ClassNameError(body.className).Some? ==>
        r == Ok(ClassNameError(body.className).value) && db.processors == old(db.processors)
      ensures ClassNameError(body.className).None? && body.jarPath.None? ==>
        r == Err(NULL_JAR_PATH) && db.processors == old(db.processors)
      ensures ClassNameError(body.className).None? && body.jarPath.Some? ==>
        var c := body.className.value;
        r == Ok(SAVED)
        && db.processors == old(db.processors)[c := Upserted(old(db.processors), old(db.nextProcessorId), c, body.jarPath.value, body.checksum, now)]
      ensures db.jobs == old(db.jobs) && db.order == old(db.order) && db.nextJobId == old(db.nextJobId)
      ensures db.inputFiles == old(db.inputFiles) && db.inputParams == old(db.inputParams)
      ensures db.jobErrors == old(db.jobErrors) && db.appParams == old(db.appParams)
    {
      var error := ClassNameError(body.className);
      if error.Some? {
        return Ok(error.value);
      }
      if body.jarPath.None? {
        return Err(NULL_JAR_PATH);
      }
      var saved := Register(body.className.value, body.jarPath.value, body.checksum, now);
      r := Ok(SAVED);
    }

    /** `findByClassName(c).orElse(new ...)`, set the jar and checksum, save:
        the upsert `uploadJar` performs. */
    method Register(className: string, jarPath: string, checksum: Option<string>, now: Time) returns (def: ProcessorDefinition)
      requires Valid()
      modifies db
      ensures Valid()
      ensures def == Upserted(old(db.processors), old(db.nextProcessorId), className, jarPath, checksum, now)
      ensures db.processors == old(db.processors)[className := def]
      ensures db.jobs == old(db.jobs) && db.order == old(db.order) && db.nextJobId == old(db.nextJobId)
      ensures db.inputFiles == old(db.inputFiles) && db.inputParams == old(db.inputParams)
      ensures db.jobErrors == old(db.jobErrors) && db.appParams == old(db.appParams)
    {
      var base := if className in db.processors then db.processors[className]
                  else ProcessorDefinition(None, className, "", None, None, None);
      var saved := db.SaveProcessor(base.(className := className, jarPath := jarPath, checksum := checksum), now);
      def := saved.value;
    }

    /** `uploadJar(file, className)`: after the three checks, the jar is written
        under `./processors`, its checksum computed, any class loader cached
        for its path evicted, and the definition upserted. `written` is the
        file written. */
    method UploadJar(file: JarUpload, className: Option<string>, sha256: seq<JByte> -> seq<JByte>, now: Time)
      returns (message: string, written: Option<(string, seq<JByte>)>)
      requires Valid()
      modifies db, loader
      ensures Valid()
      ensures UploadError(file, className).Some? ==>
        message == UploadError(file, className).value && written.None?
        && db.processors == old(db.processors) && loader.cache == old(loader.cache)
      ensures UploadError(file, className).None? ==>
        var c := className.value;
        var path := JarPathOf(jarRoot, file.originalName.value);
        var checksum := Hex(sha256(file.content));
        written == Some((path, file.content))
        && message == UploadMessage(c, path, checksum)
        && loader.cache == old(loader.cache) - {path}
        && db.processors == old(db.processors)[c := Upserted(old(db.processors), old(db.nextProcessorId), c, path, Some(checksum), now)]
      ensures db.jobs == old(db.jobs) && db.order == old(db.order) && db.nextJobId == old(db.nextJobId)
      ensures db.inputFiles == old(db.inputFiles) && db.inputParams == old(db.inputParams)
      ensures db.jobErrors == old(db.jobErrors) && db.appParams == old(db.appParams)
      ensures loader.created == old(loader.created)
    {
      if |file.content| == 0 {
        return NO_FILE, None;
      }
      var error := ClassNameError(className);
      if error.Some? {
        return error.value, None;
      }
      if file.originalName.None? || !EndsWith(file.originalName.value, JAR_EXTENSION) {
        return NOT_A_JAR, None;
      }
      var path := JarPathOf(jarRoot, file.originalName.value);
      written := Some((path, file.content));
      var checksum := HexEncode(sha256(file.content));
      loader.EvictCache(path);
      var def := Register(className.value, path, Some(checksum), now);
      message := UploadMessage(className.value, path, checksum);
    }

    /** `remove(className)`: a registered class has its jar's class loader
        evicted and its row deleted; the message is the same either way. */
    method Remove(className: string) returns (message: string)
      requires Valid()
      modifies db, loader
      ensures Valid()
      ensures message == REMOVED
      ensures db.processors == old(db.processors) - {className}
      ensures className in old(db.processors) ==> loader.cache == old(loader.cache) - {old(db.processors[className]).jarPath}
      ensures className !in old(db.processors) ==> loader.cache == old(loader.cache)
      ensures db.jobs == old(db.jobs) && db.order == old(db.order) && db.nextJobId == old(db.nextJobId)
      ensures db.inputFiles == old(db.inputFiles) && db.inputParams == old(db.inputParams)
      ensures db.jobErrors == old(db.jobErrors) && db.appParams == old(db.appParams)
      ensures loader.created == old(loader.created)
    {
      if className in db.processors {
        loader.EvictCache(db.processors[className].jarPath);
        db.DeleteProcessor(className);
      }
      message := REMOVED;
    }
  }

  /** The row an upsert by class name stores: a new row with the next id,
      created now; or the registered row (same id, same creation time) with
      the new jar and checksum, `updatedTs` being stamped only when one of
      them changed, since an unchanged entity is not flushed. */
  function Upserted(processors: map<string, ProcessorDefinition>, nextId: int, className: string,
                    jarPath: string, checksum: Option<string>, now: Time): (d: ProcessorDefinition)
    requires className in processors ==> processors[className].className == className
    ensures d.className == className && d.jarPath == jarPath && d.checksum == checksum
    ensures className in processors ==> d.id == processors[className].id && d.createdTs == processors[className].createdTs
    ensures className in processors && processors[className].jarPath == jarPath && processors[className].checksum == checksum ==>
      d == processors[className]
    ensures className in processors && (processors[className].jarPath != jarPath || processors[className].checksum != checksum) ==>
      d.updatedTs == Some(now)
    ensures className !in processors ==> d.id == Some(nextId) && d.createdTs == Some(now) && d.updatedTs == Some(now)
  {
    if className in processors then
      var stored := processors[className];
      if stored.jarPath == jarPath && stored.checksum == checksum then stored
      else stored.(jarPath := jarPath, checksum := checksum, updatedTs := Some(now))
    else
      ProcessorDefinition(Some(nextId), className, jarPath, checksum, Some(now), Some(now))
  }

  /** Registering the same jar and checksum again, at any later time, leaves
      the stored row exactly as the first registration left it. */
  lemma ReuploadChangesNothing(processors: map<string, ProcessorDefinition>, nextId: int, laterNextId: int,
                               className: string, jarPath: string, checksum: Option<string>, now: Time, later: Time)
    requires className in processors ==> processors[className].className == className
    ensures var d := Upserted(processors, nextId, className, jarPath, checksum, now);
      Upserted(processors[className := d], laterNextId, className, jarPath, checksum, later) == d
  {
  }
}
