/** The `IndexSearcher` tool of tools/indexSearcher.go: the same search as
    `IndexStore.Index.SearchIndex`, written inline, with every failure after the handle
    was obtained reported as text, and no `HandleToolEnd` on success. */
module IndexSearcherTool {
  import opened Wrappers
  import opened Langchain
  import opened ToolCalls
  import opened IndexStore

  /** `IndexSearcher.Call`. It gets the handle through the package's `GetIndex`, so the
      first call initialises it, and after a failed first call every later call searches
      with the unconnected handle. Only a failure to get the handle is fatal; decoding,
      searching and marshalling failures are returned as text with a nil error. */
  method Call(pkg: ToolsPackage, handlerSet: bool, input: string,
              newEmbedder: Result<Embedder>, env: map<string, string>, connectError: Option<string>,
              decode: string -> Result<SearchArgs>,
              similaritySearch: (Option<Store>, string, int) -> Result<seq<Document>>,
              marshal: seq<Cooked> -> Result<string>)
    returns (result: string, err: Option<string>, hooks: seq<HookEvent>)
    modifies pkg
    ensures HookDiscipline(handlerSet, input, result, hooks)
    ensures pkg.index != null
    ensures old(pkg.index) != null ==> pkg.index == old(pkg.index) && pkg.index.store == old(pkg.index.store)
    ensures old(pkg.index) == null && err.Some? ==> pkg.index.store.None? && pkg.index.context.None?
    ensures err.Some? <==> old(pkg.index) == null && InitError(newEmbedder, connectError).Some?
    ensures old(pkg.index) == null && err.None? ==>
      fresh(pkg.index) && pkg.index.store == Some(Store(ConfigFromEnv(env), newEmbedder.value))
      && pkg.index.context == Some(Background)
    ensures err.Some? ==>
      err == InitError(newEmbedder, connectError) && result == GetIndexFailure + err.value
      && (EndFired(hooks) <==> handlerSet)
    ensures err.None? ==> result == SearchText(pkg.index.store, input, decode, similaritySearch, marshal)
    ensures err.None? ==>
      (EndFired(hooks) <==> handlerSet && SearchReport(pkg.index.store, input, decode, similaritySearch, marshal).Err?)
  {
    hooks := [];
    if handlerSet {
      hooks := hooks + [ToolStart(input)];
    }
    var index, indexErr := pkg.GetIndex(newEmbedder, env, connectError);
    if indexErr.Some? {
      var errMessage := GetIndexFailure + indexErr.value;
      if handlerSet {
        hooks := hooks + [ToolEnd(errMessage)];
      }
      return errMessage, indexErr, hooks;
    }
    var decoded := decode(input);
    if decoded.Err? {
      var errMessage := UnmarshalFailure + decoded.error;
      if handlerSet {
        hooks := hooks + [ToolEnd(errMessage)];
      }
      return errMessage, None, hooks;
    }
    var args := decoded.value;
    var found := similaritySearch(index.store, args.query, args.n);
    if found.Err? {
      var errMessage := SearchFailure + found.error;
      if handlerSet {
        hooks := hooks + [ToolEnd(errMessage)];
      }
      return errMessage, None, hooks;
    }
    var cookedDocuments := CookDocumentsLoop(found.value);
    var content := marshal(cookedDocuments);
    if content.Err? {
      var errMessage := MarshalFailure + content.error;
      if handlerSet {
        hooks := hooks + [ToolEnd(errMessage)];
      }
      return errMessage, None, hooks;
    }
    return content.value, None, hooks;
  }

  /** The poisoned handle at work: a first call whose embedder fails is fatal, and a
      second call, though the embedder and the store would now both succeed, reports no
      error and runs the similarity search with no store at all. */
  method SearchAfterFailedInit(input: string,
                               decode: string -> Result<SearchArgs>,
                               similaritySearch: (Option<Store>, string, int) -> Result<seq<Document>>,
                               marshal: seq<Cooked> -> Result<string>)
    returns (first: string, firstErr: Option<string>, second: string, secondErr: Option<string>)
    ensures firstErr == Some(EmbedderFailure + "model unavailable")
    ensures first == GetIndexFailure + EmbedderFailure + "model unavailable"
    ensures secondErr.None?
    ensures second == SearchText(None, input, decode, similaritySearch, marshal)
  {
    var pkg := new ToolsPackage();
    var firstHooks, secondHooks;
    first, firstErr, firstHooks := Call(pkg, false, input, Err("model unavailable"), map[], None,
                                        decode, similaritySearch, marshal);
    second, secondErr, secondHooks := Call(pkg, false, input, Ok(Embedder("model")), map[], None,
                                           decode, similaritySearch, marshal);
  }

  /** A successful first call connects the handle for good: the second call, whatever its
      own embedder and connection outcomes would be, reports no error and searches the
      store the first call connected to. Its text equals the first call's only because
      both calls are given the same search outcome; a real store may answer differently
      between the calls, for example after `AddPapers`. */
  method SearchAfterSuccessfulInit(input: string, env: map<string, string>, embedder: Embedder,
                                   laterEmbedder: Result<Embedder>, laterConnectError: Option<string>,
                                   decode: string -> Result<SearchArgs>,
                                   similaritySearch: (Option<Store>, string, int) -> Result<seq<Document>>,
                                   marshal: seq<Cooked> -> Result<string>)
    returns (first: string, firstErr: Option<string>, second: string, secondErr: Option<string>)
    ensures firstErr.None? && secondErr.None?
    ensures first == SearchText(Some(Store(ConfigFromEnv(env), embedder)), input, decode, similaritySearch, marshal)
    ensures second == first
  {
    var pkg := new ToolsPackage();
    var firstHooks, secondHooks;
    first, firstErr, firstHooks := Call(pkg, false, input, Ok(embedder), env, None,
                                        decode, similaritySearch, marshal);
    second, secondErr, secondHooks := Call(pkg, false, input, laterEmbedder, map[], laterConnectError,
                                           decode, similaritySearch, marshal);
  }
}
