/** The PDF.js loader (packages/pdf-core/src/pdfjs/index.ts): module-level
    load-once memoisation of the dynamic `import('pdfjs-dist')`. The two
    module variables `pdfjsCache` and `loadingPromise` become the fields of
    a `Loader` object. Each `await` is an explicit step: `Load` runs
    `pdfjsLoad` up to its suspension, `CompleteImport` is the settlement of
    the import it started. A promise is named by the number of the import
    that created it. */
module Pdfjs {
  import opened Common

  /** The loaded `pdfjs-dist` module, reduced to its version string. */
  datatype PdfjsModule = PdfjsModule(version: string)

  /** A PDF.js `TextLayer` built from the caller's parameters. */
  datatype TextLayer = TextLayer(library: PdfjsModule, parameters: nat)

  /** The worker script URL configured for a given PDF.js version. */
  function WorkerSrc(version: string): (url: string)
    ensures url == "https://unpkg.com/pdfjs-dist@" + version + "/build/pdf.worker.mjs"
    ensures |url| == |version| + 50
  {
    "https://unpkg.com/pdfjs-dist@" + version + "/build/pdf.worker.mjs"
  }

  /** Different versions get different worker URLs. */
  lemma WorkerSrcInjective(v1: string, v2: string)
    requires WorkerSrc(v1) == WorkerSrc(v2)
    ensures v1 == v2
  {
    var prefix := "https://unpkg.com/pdfjs-dist@";
    assert |v1| == |v2|;
    assert v1 == WorkerSrc(v1)[|prefix|..|prefix| + |v1|];
    assert v2 == WorkerSrc(v2)[|prefix|..|prefix| + |v2|];
  }

  /** How a call of `pdfjsLoad` ends its synchronous part. */
  datatype LoadStep =
    | AlreadyLoaded                 // the cache is filled: returns at once
    | Joined(promise: nat)          // a load is in flight: returns that promise
    | Started(promise: nat)         // starts the import and returns its promise
    | Threw(error: Error)           // not in a browser

  class Loader {
    /** `pdfjsCache`. */
    var pdfjsCache: Option<PdfjsModule>
    /** `loadingPromise`, by the number of the import that created it. */
    var loadingPromise: Option<nat>
    /** `GlobalWorkerOptions.workerSrc` of the loaded library. */
    var workerSrc: Option<string>
    /** How many times `import('pdfjs-dist')` has been started. */
    var importsStarted: nat

    /** A filled cache came from a successful import, after the worker URL
        was set for its version; the pending promise is the latest import. */
    ghost predicate Valid()
      reads this
    {
      (pdfjsCache.Some? ==> loadingPromise.Some? && workerSrc == Some(WorkerSrc(pdfjsCache.value.version))) &&
      (loadingPromise.Some? ==> loadingPromise.value + 1 == importsStarted)
    }

    /** The state at module evaluation. */
    constructor ()
      ensures Valid() && pdfjsCache == None && loadingPromise == None
      ensures workerSrc == None && importsStarted == 0
    {
      pdfjsCache, loadingPromise, workerSrc, importsStarted := None, None, None, 0;
    }

    /** `pdfjsLoad()` up to its first suspension. A filled cache returns at
        once (the browser check is skipped); a pending load is joined, so
        at most one import is ever in flight; outside a browser it throws
        and changes nothing; otherwise one import starts. */
    method Load(isBrowser: bool) returns (step: LoadStep)
      requires Valid()
      modifies this`loadingPromise, this`importsStarted
      ensures Valid() && pdfjsCache == old(pdfjsCache) && workerSrc == old(workerSrc)
      ensures old(pdfjsCache).Some? ==> step == AlreadyLoaded
      ensures old(pdfjsCache).None? && old(loadingPromise).Some? ==> step == Joined(old(loadingPromise).value)
      ensures old(pdfjsCache).None? && old(loadingPromise).None? && !isBrowser ==> step == Threw(PlainError)
      ensures old(pdfjsCache).None? && old(loadingPromise).None? && isBrowser ==> step == Started(old(importsStarted))
      ensures step.Started? <==> importsStarted == old(importsStarted) + 1
      ensures !step.Started? ==> loadingPromise == old(loadingPromise) && importsStarted == old(importsStarted)
      ensures step.Started? ==> loadingPromise == Some(step.promise)
    {
      if pdfjsCache.Some? {
        return AlreadyLoaded;
      }
      if loadingPromise.Some? {
        return Joined(loadingPromise.value);
      }
      if !isBrowser {
        return Threw(PlainError);
      }
      step := Started(importsStarted);
      loadingPromise := Some(importsStarted);
      importsStarted := importsStarted + 1;
    }

    /** The pending import settles. On success the worker URL is set for
        the loaded version and then the cache is filled (the pending promise
        is kept); on failure the pending promise is dropped and the cache
        stays empty, so the next `Load` starts a fresh import. */
    method CompleteImport(imported: Option<PdfjsModule>) returns (r: Outcome)
      requires Valid() && pdfjsCache.None? && loadingPromise.Some?
      modifies this`pdfjsCache, this`loadingPromise, this`workerSrc
      ensures Valid() && importsStarted == old(importsStarted)
      ensures imported.Some? ==> r == Pass && pdfjsCache == imported && loadingPromise == old(loadingPromise)
                                 && workerSrc == Some(WorkerSrc(imported.value.version))
      ensures imported.None? ==> r == Fail(PlainError) && pdfjsCache == None && loadingPromise == None
                                 && workerSrc == old(workerSrc)
    {
      match imported
      case Some(library) =>
        workerSrc := Some(WorkerSrc(library.version));
        pdfjsCache := Some(library);
        r := Pass;
      case None =>
        loadingPromise := None;
        r := Fail(PlainError);
    }

    /** `pdfjsGet()`: throws exactly when the cache is empty. */
    method Get() returns (r: Result<PdfjsModule>)
      ensures r.Err? <==> pdfjsCache.None?
      ensures r.Err? ==> r.error == PlainError
      ensures pdfjsCache.Some? ==> r == Ok(pdfjsCache.value)
    {
      match pdfjsCache
      case None => r := Err(PlainError);
      case Some(library) => r := Ok(library);
    }

    /** `createTextLayer(params)`: fails before any load has completed,
        since it goes through `pdfjsGet` without loading. */
    method CreateTextLayer(parameters: nat) returns (r: Result<TextLayer>)
      ensures r.Err? <==> pdfjsCache.None?
      ensures pdfjsCache.Some? ==> r == Ok(TextLayer(pdfjsCache.value, parameters))
    {
      var library := Get();
      match library
      case Err(e) => r := Err(e);
      case Ok(m) => r := Ok(TextLayer(m, parameters));
    }

    /** `getDocument(url)`: a load is completed or joined first (a started or
        joined import settles with `imported`), and only then is the cache
        consulted and the engine asked for `url`; `engineReply` is the
        engine's answer. Returns the URL the engine was asked for, if it was
        asked. */
    method GetDocument(url: string, isBrowser: bool, imported: Option<PdfjsModule>, engineReply: Option<DocumentProxy>)
      returns (r: Result<DocumentProxy>, asked: Option<string>)
      requires Valid()
      modifies this`pdfjsCache, this`loadingPromise, this`workerSrc, this`importsStarted
      ensures Valid()
      ensures asked.Some? ==> asked.value == url && pdfjsCache.Some?
      ensures asked.None? ==> r.Err?
      ensures asked.Some? ==> r == (match engineReply case Some(d) => Ok(d) case None => Err(EngineError))
      ensures old(pdfjsCache).Some? ==>
                asked == Some(url) && pdfjsCache == old(pdfjsCache) && loadingPromise == old(loadingPromise) &&
                workerSrc == old(workerSrc) && importsStarted == old(importsStarted)
      ensures old(pdfjsCache).None? && old(loadingPromise).None? && !isBrowser ==>
                r == Err(PlainError) && asked == None && pdfjsCache == None && loadingPromise == None &&
                workerSrc == old(workerSrc) && importsStarted == old(importsStarted)
      ensures old(pdfjsCache).None? && (old(loadingPromise).Some? || isBrowser) ==>
                pdfjsCache == imported && (asked.Some? <==> imported.Some?) &&
                importsStarted == old(importsStarted) + (if old(loadingPromise).None? then 1 else 0) &&
                workerSrc == (if imported.Some? then Some(WorkerSrc(imported.value.version)) else old(workerSrc)) &&
                loadingPromise == (if imported.None? then None
                                   else if old(loadingPromise).Some? then old(loadingPromise)
                                   else Some(old(importsStarted)))
    {
      asked := None;
      var step := Load(isBrowser);
      match step {
        case Threw(e) =>
          return Err(e), None;
        case AlreadyLoaded =>
        case Joined(_) =>
          var settled := CompleteImport(imported);
          if settled.Fail? {
            return Err(settled.error), None;
          }
        case Started(_) =>
          var settled := CompleteImport(imported);
          if settled.Fail? {
            return Err(settled.error), None;
          }
      }
      var library := Get();
      assert library.Ok?;  // the completed load filled the cache
      asked := Some(url);
      match engineReply
      case Some(d) => r := Ok(d);
      case None => r := Err(EngineError);
    }
  }

  /** Two loads in a row, the second before the first import settles, start
      one import between them: the second joins the first one's promise. */
  method ConcurrentLoadsShareOneImport(isBrowser: bool) returns (first: LoadStep, second: LoadStep, imports: nat)
    ensures isBrowser ==> first == Started(0) && second == Joined(0) && imports == 1
    ensures !isBrowser ==> first == Threw(PlainError) && second == Threw(PlainError) && imports == 0
  {
    var loader := new Loader();
    first := loader.Load(isBrowser);
    second := loader.Load(isBrowser);
    imports := loader.importsStarted;
  }

  /** A failed import is retried by the next load; once one succeeds, later
      loads return at once without importing again. */
  method FailedImportIsRetried(library: PdfjsModule) returns (steps: seq<LoadStep>, imports: nat, src: Option<string>)
    ensures steps == [Started(0), Started(1), AlreadyLoaded]
    ensures imports == 2 && src == Some(WorkerSrc(library.version))
  {
    var loader := new Loader();
    var s0 := loader.Load(true);
    var failed := loader.CompleteImport(None);
    var s1 := loader.Load(true);
    var ok := loader.CompleteImport(Some(library));
    var s2 := loader.Load(true);
    steps := [s0, s1, s2];
    imports, src := loader.importsStarted, loader.workerSrc;
  }
}
