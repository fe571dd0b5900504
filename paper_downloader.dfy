/** The `PaperDownloader` tool of tools/paperDownloader.go: decode a file name and a URL,
    download. Nothing it meets is fatal. The download itself is a parameter. */
module PaperDownloaderTool {
  import opened Wrappers
  import opened Langchain
  import opened ToolCalls

  /** `PaperDownloader.Call`: the error is always nil; a failure is returned as text and
      closed with `HandleToolEnd`, a success returns the fixed confirmation without it.
      The confirmation is returned exactly when the download was attempted and
      succeeded, so the agent can tell the outcomes apart. */
  method Call(handlerSet: bool, input: string,
              decode: string -> Result<DownloadArgs>,
              download: (string, string) -> Option<string>)
    returns (result: string, err: Option<string>, hooks: seq<HookEvent>)
    ensures err.None?
    ensures HookDiscipline(handlerSet, input, result, hooks)
    ensures decode(input).Err? ==> result == UnmarshalFailure + decode(input).error
    ensures decode(input).Ok? && download(decode(input).value.fileName, decode(input).value.url).Some? ==>
      result == DownloadFailure + download(decode(input).value.fileName, decode(input).value.url).value
    ensures result == DownloadSuccess <==>
      decode(input).Ok? && download(decode(input).value.fileName, decode(input).value.url).None?
    ensures EndFired(hooks) <==> handlerSet && result != DownloadSuccess
  {
    hooks := [];
    if handlerSet {
      hooks := hooks + [ToolStart(input)];
    }
    var decoded := decode(input);
    if decoded.Err? {
      var errMessage := UnmarshalFailure + decoded.error;
      assert errMessage[0] != DownloadSuccess[0];
      if handlerSet {
        hooks := hooks + [ToolEnd(errMessage)];
      }
      return errMessage, None, hooks;
    }
    var args := decoded.value;
    var downloadErr := download(args.fileName, args.url);
    if downloadErr.Some? {
      var errMessage := DownloadFailure + downloadErr.value;
      assert errMessage[0] != DownloadSuccess[0];
      if handlerSet {
        hooks := hooks + [ToolEnd(errMessage)];
      }
      return errMessage, None, hooks;
    }
    return DownloadSuccess, None, hooks;
  }
}
