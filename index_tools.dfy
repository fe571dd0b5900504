/** The `IndexSearcher` tool of tools/indexTools.go: it delegates to a `SearchIndex` that
    also returns the number of hits, which is only logged. That `SearchIndex` is not
    part of the model; its text-or-error outcome is a parameter. */
module IndexTools {
  import opened Wrappers
  import opened Langchain
  import opened ToolCalls
  import opened IndexStore

  /** `IndexSearcher.Call` of this file. It gets the handle through the package's
      `GetIndex`, as the other versions do. Only a failure to get the handle is fatal; a
      failed search is reported as its error behind "failed while searching index: ",
      and `HandleToolEnd` fires on every path. */
  method Call(pkg: ToolsPackage, handlerSet: bool, input: string,
              newEmbedder: Result<Embedder>, env: map<string, string>, connectError: Option<string>,
              searchIndex: (Option<Store>, string) -> Result<string>)
    returns (result: string, err: Option<string>, hooks: seq<HookEvent>)
    modifies pkg
    ensures HookDiscipline(handlerSet, input, result, hooks)
    ensures EndFired(hooks) <==> handlerSet
    ensures pkg.index != null
    ensures old(pkg.index) != null ==> pkg.index == old(pkg.index) && pkg.index.store == old(pkg.index.store)
    ensures old(pkg.index) == null && err.Some? ==> pkg.index.store.None? && pkg.index.context.None?
    ensures err.Some? <==> old(pkg.index) == null && InitError(newEmbedder, connectError).Some?
    ensures old(pkg.index) == null && err.None? ==>
      fresh(pkg.index) && pkg.index.store == Some(Store(ConfigFromEnv(env), newEmbedder.value))
      && pkg.index.context == Some(Background)
    ensures err.Some? ==> err == InitError(newEmbedder, connectError) && result == GetIndexFailure + err.value
    ensures err.None? && searchIndex(pkg.index.store, input).Err? ==>
      result == SearchFailure + searchIndex(pkg.index.store, input).error
    ensures err.None? && searchIndex(pkg.index.store, input).Ok? ==>
      result == searchIndex(pkg.index.store, input).value
  {
    hooks := [];
    if handlerSet {
      hooks := hooks + [ToolStart(input)];
    }
    var index, indexErr := pkg.GetIndex(newEmbedder, env, connectError);
    if indexErr.Some? {
      var errMessage := GetIndexFailure + indexErr.value;
      if handlerSet {
        hooks := hooks + [ToolEnd(errMessage)];
      }
      return errMessage, indexErr, hooks;
    }
    var searched := searchIndex(index.store, input);
    if searched.Err? {
      var errMessage := SearchFailure + searched.error;
      if handlerSet {
        hooks := hooks + [ToolEnd(errMessage)];
      }
      return errMessage, None, hooks;
    }
    if handlerSet {
      hooks := hooks + [ToolEnd(searched.value)];
    }
    return searched.value, None, hooks;
  }
}
