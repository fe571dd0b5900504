/** The `ArxivSearcher` tool of tools/arxivSearcher.go: decode the query, fetch papers
    from arXiv, report them. Nothing it meets is fatal. Fetching is a parameter. */
module ArxivSearcherTool {
  import opened Wrappers
  import opened Langchain
  import opened ToolCalls
  import PaperFeed

  /** `ArxivSearcher.Call`: the error is always nil; a decoding or marshalling failure is
      returned as text and closed with `HandleToolEnd`, a success is not. */
  method Call(handlerSet: bool, input: string,
              decode: string -> Result<SearchArgs>,
              fetchPapers: (string, int) -> seq<PaperFeed.Paper>,
              marshal: seq<Cooked> -> Result<string>)
    returns (result: string, err: Option<string>, hooks: seq<HookEvent>)
    ensures err.None?
    ensures HookDiscipline(handlerSet, input, result, hooks)
    ensures result == ArxivText(input, decode, fetchPapers, marshal)
    ensures EndFired(hooks) <==> handlerSet && ArxivReport(input, decode, fetchPapers, marshal).Err?
  {
    hooks := [];
    if handlerSet {
      hooks := hooks + [ToolStart(input)];
    }
    var decoded := decode(input);
    if decoded.Err? {
      var errMessage := UnmarshalFailure + decoded.error;
      if handlerSet {
        hooks := hooks + [ToolEnd(errMessage)];
      }
      return errMessage, None, hooks;
    }
    var args := decoded.value;
    var rawPapers := fetchPapers(args.query, args.n);
    var cookedPapers := CookPapersLoop(rawPapers);
    var content := marshal(cookedPapers);
    if content.Err? {
      var errMessage := MarshalFailure + content.error;
      if handlerSet {
        hooks := hooks + [ToolEnd(errMessage)];
      }
      return errMessage, None, hooks;
    }
    return content.value, None, hooks;
  }
}
