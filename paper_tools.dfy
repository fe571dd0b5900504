/** The other `ArxivSearcher` tool, of tools/paperTools.go: the same search as
    tools/arxivSearcher.go, but a failure never fires `HandleToolEnd`. */
module PaperTools {
  import opened Wrappers
  import opened Langchain
  import opened ToolCalls
  import PaperFeed
  import ArxivSearcherTool

  /** `ArxivSearcher.Call` of this file: the error is always nil, and only
      `HandleToolStart` ever fires. */
  method Call(handlerSet: bool, input: string,
              decode: string -> Result<SearchArgs>,
              fetchPapers: (string, int) -> seq<PaperFeed.Paper>,
              marshal: seq<Cooked> -> Result<string>)
    returns (result: string, err: Option<string>, hooks: seq<HookEvent>)
    ensures err.None?
    ensures HookDiscipline(handlerSet, input, result, hooks)
    ensures !EndFired(hooks)
    ensures result == ArxivText(input, decode, fetchPapers, marshal)
  {
    hooks := [];
    if handlerSet {
      hooks := hooks + [ToolStart(input)];
    }
    var decoded := decode(input);
    if decoded.Err? {
      return UnmarshalFailure + decoded.error, None, hooks;
    }
    var args := decoded.value;
    var rawPapers := fetchPapers(args.query, args.n);
    var cookedPapers := CookPapersLoop(rawPapers);
    var content := marshal(cookedPapers);
    if content.Err? {
      return MarshalFailure + content.error, None, hooks;
    }
    return content.value, None, hooks;
  }

  /** The two versions of the arXiv searcher return the same text and error on every
      input; they differ only in the hooks they fire, and only when the search fails. */
  method AgreesWithArxivSearcher(handlerSet: bool, input: string,
                                 decode: string -> Result<SearchArgs>,
                                 fetchPapers: (string, int) -> seq<PaperFeed.Paper>,
                                 marshal: seq<Cooked> -> Result<string>)
    returns (sameText: bool, sameError: bool, sameHooks: bool)
    ensures sameText && sameError
    ensures sameHooks <==> !handlerSet || ArxivReport(input, decode, fetchPapers, marshal).Ok?
  {
    var older, olderErr, olderHooks := Call(handlerSet, input, decode, fetchPapers, marshal);
    var newer, newerErr, newerHooks := ArxivSearcherTool.Call(handlerSet, input, decode, fetchPapers, marshal);
    sameText := older == newer;
    sameError := olderErr == newerErr;
    sameHooks := olderHooks == newerHooks;
  }
}
