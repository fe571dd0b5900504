/** The vector-store side of tools/index.go: the process-wide index handle and its lazy
    initialisation, the documents built from papers, the similarity search that reports
    hits, and the `IndexSearcher` tool of that file. The embedding client, the vector
    store and JSON are outside the model: their outcomes are parameters. */
module IndexStore {
  import opened Wrappers
  import opened GoStrings
  import opened Langchain
  import opened ToolCalls
  import PaperFeed

  /** An embedding client bound to a language model. */
  datatype Embedder = Embedder(model: string)

  /** The connection settings of the vector store, read from the environment. */
  datatype StoreConfig = StoreConfig(apiKey: string, host: string, nameSpace: string)

  /** A connected vector store. */
  datatype Store = Store(config: StoreConfig, embedder: Embedder)

  /** The background context every store operation runs in. */
  datatype Context = Background

  const ApiKeyVar: string := "PINECONE_API_KEY"
  const HostVar: string := "PINECONE_HOST_NAME"
  const NameSpaceVar: string := "PINECONE_NAME_SPACE"

  const EmbedderFailure: string := "failed while creating embedder: "
  const ConnectFailure: string := "failed while connecting to Pinecone: "

  /** `os.Getenv`: the value of a variable, "" when it is unset. */
  function Getenv(env: map<string, string>, key: string): (v: string)
    ensures key in env ==> v == env[key]
    ensures key !in env ==> v == ""
  {
    if key in env then env[key] else ""
  }

  function ConfigFromEnv(env: map<string, string>): StoreConfig
  {
    StoreConfig(Getenv(env, ApiKeyVar), Getenv(env, HostVar), Getenv(env, NameSpaceVar))
  }

  /** The metadata keys of an indexed paper. */
  const MetadataKeys: set<string> := {"Title", "Authors", "Published", "Journal Reference", "DOI",
                                      "Primary Category", "Categories", "PDF URL", "arxiv URL"}

  /** The text that is embedded for a paper: its title and its summary, each in braces
      after a label, on two lines. */
  function PageContent(p: PaperFeed.Paper): (c: string)
    ensures c == "Title: {" + p.title + "}\nSummary: {" + p.summary + "}"
  {
    var title := "Title: {" + p.title + "}";
    var summary := "Summary: {" + p.summary + "}";
    JoinSnoc([title], summary, "\n");
    Join([title, summary], "\n")
  }

  /** The document `AddPapers` builds for one paper. */
  function PaperDocument(p: PaperFeed.Paper): (d: Document)
    ensures d.pageContent == "Title: {" + p.title + "}\nSummary: {" + p.summary + "}"
    ensures d.metadata == PaperMetadata(p)
  {
    Document(pageContent := PageContent(p), metadata := PaperMetadata(p))
  }

  /** The metadata of an indexed paper: its fields by name, with the authors and the
      categories each joined with ", ". */
  function PaperMetadata(p: PaperFeed.Paper): (m: map<string, string>)
    ensures m.Keys == MetadataKeys
  {
    map[
      "Title" := p.title,
      "Authors" := Join(p.authors, ListSeparator),
      "Published" := p.published,
      "Journal Reference" := p.journalReference,
      "DOI" := p.doi,
      "Primary Category" := p.primaryCategory,
      "Categories" := Join(p.categories, ListSeparator),
      "PDF URL" := p.pdfUrl,
      "arxiv URL" := p.arxivUrl]
  }

  /** The value stored under each metadata key of an indexed paper: the authors and the
      categories joined with ", ", the other seven fields as they are. */
  lemma IndexedMetadata(p: PaperFeed.Paper)
    ensures var m := PaperDocument(p).metadata;
      && m["Title"] == p.title && m["Published"] == p.published
      && m["Journal Reference"] == p.journalReference && m["DOI"] == p.doi
      && m["Primary Category"] == p.primaryCategory
      && m["PDF URL"] == p.pdfUrl && m["arxiv URL"] == p.arxivUrl
      && m["Authors"] == Join(p.authors, ListSeparator)
      && m["Categories"] == Join(p.categories, ListSeparator)
  {
  }

  /** A paper found again through the index is reported like the same paper found on
      arXiv, except for `Summary`: the index reports the whole embedded text, which holds
      the paper's summary and is strictly longer than it. */
  lemma IndexedPaperReport(p: PaperFeed.Paper)
    ensures CookDocument(PaperDocument(p)) == CookPaper(p)[SummaryKey := PageContent(p)]
    ensures |PageContent(p)| > |p.summary|
    ensures var start := |"Title: {" + p.title + "}\nSummary: {"|;
      PageContent(p)[start..start + |p.summary|] == p.summary
  {
    var d := PaperDocument(p);
    assert d.metadata[TitleKey] == p.title;
    assert d.metadata[AuthorsKey] == Join(p.authors, ListSeparator);
    assert d.metadata[PdfUrlKey] == p.pdfUrl;
    var prefix := "Title: {" + p.title + "}\nSummary: {";
    assert PageContent(p) == prefix + p.summary + "}";
  }

  /** The outcome of a search, stage by stage: the decoded arguments, then the hits of
      the similarity search, then their report marshalled to text; the first stage that
      fails gives the error. */
  function SearchReport(store: Option<Store>, input: string,
                        decode: string -> Result<SearchArgs>,
                        similaritySearch: (Option<Store>, string, int) -> Result<seq<Document>>,
                        marshal: seq<Cooked> -> Result<string>): Result<string>
  {
    match decode(input)
    case Err(e) => Err(e)
    case Ok(args) =>
      match similaritySearch(store, args.query, args.n)
      case Err(e) => Err(e)
      case Ok(docs) => marshal(CookDocuments(docs))
  }

  /** The text a search returns: the marshalled report, or the message of the stage that
      failed followed by its error. */
  function SearchText(store: Option<Store>, input: string,
                      decode: string -> Result<SearchArgs>,
                      similaritySearch: (Option<Store>, string, int) -> Result<seq<Document>>,
                      marshal: seq<Cooked> -> Result<string>): (text: string)
    ensures SearchReport(store, input, decode, similaritySearch, marshal).Ok? ==>
      text == SearchReport(store, input, decode, similaritySearch, marshal).value
    ensures decode(input).Err? ==> text == UnmarshalFailure + decode(input).error
    ensures decode(input).Ok? ==>
      var args := decode(input).value;
      similaritySearch(store, args.query, args.n).Err? ==>
        text == SearchFailure + similaritySearch(store, args.query, args.n).error
    ensures decode(input).Ok? ==>
      var args := decode(input).value;
      similaritySearch(store, args.query, args.n).Ok? ==>
        var cooked := CookDocuments(similaritySearch(store, args.query, args.n).value);
        marshal(cooked).Err? ==> text == MarshalFailure + marshal(cooked).error
  {
    match decode(input)
    case Err(e) => UnmarshalFailure + e
    case Ok(args) =>
      match similaritySearch(store, args.query, args.n)
      case Err(e) => SearchFailure + e
      case Ok(docs) =>
        match marshal(CookDocuments(docs))
        case Err(e) => MarshalFailure + e
        case Ok(content) => content
  }

  /** The error `GetIndex` reports when initialising the handle fails: the embedder's
      failure first, then the connection's, each behind its own message. */
  function InitError(newEmbedder: Result<Embedder>, connectError: Option<string>): (e: Option<string>)
    ensures e.None? <==> newEmbedder.Ok? && connectError.None?
    ensures newEmbedder.Err? ==> e == Some(EmbedderFailure + newEmbedder.error)
    ensures newEmbedder.Ok? && connectError.Some? ==> e == Some(ConnectFailure + connectError.value)
  {
    if newEmbedder.Err? then Some(EmbedderFailure + newEmbedder.error)
    else if connectError.Some? then Some(ConnectFailure + connectError.value)
    else None
  }

  /** The handle on the vector store. Go's zero value leaves both fields unset. */
  class Index {
    var store: Option<Store>
    var context: Option<Context>

    constructor ()
      ensures store.None? && context.None?
    {
      store := None;
      context := None;
    }

    /** Both the store and the context were set: the handle is usable. */
    predicate Ready()
      reads this
    {
      store.Some? && context.Some?
    }

    /** `AddPapers`: one document per paper, in order, handed to the store in one batch;
        the error is the store's. */
    method AddPapers(papers: seq<PaperFeed.Paper>,
                     addDocuments: (Option<Store>, seq<Document>) -> Option<string>)
      returns (documents: seq<Document>, err: Option<string>)
      ensures |documents| == |papers|
      ensures forall i :: 0 <= i < |papers| ==> documents[i] == PaperDocument(papers[i])
      ensures err == addDocuments(store, documents)
    {
      var batch := new Document[|papers|];
      for i := 0 to |papers|
        invariant forall j :: 0 <= j < i ==> batch[j] == PaperDocument(papers[j])
      {
        var document := PaperDocument(papers[i]);
        batch[i] := document;
      }
      documents := batch[..];
      err := addDocuments(store, documents);
    }

    /** `SearchIndex`: decode the arguments, search, report one four-key map per hit in
        order, marshal. Each failing stage returns its own message together with the
        underlying error. */
    method SearchIndex(input: string,
                       decode: string -> Result<SearchArgs>,
                       similaritySearch: (Option<Store>, string, int) -> Result<seq<Document>>,
                       marshal: seq<Cooked> -> Result<string>)
      returns (result: string, err: Option<string>)
      ensures err.None? <==> SearchReport(store, input, decode, similaritySearch, marshal).Ok?
      ensures err.Some? ==> err.value == SearchReport(store, input, decode, similaritySearch, marshal).error
      ensures result == SearchText(store, input, decode, similaritySearch, marshal)
    {
      var decoded := decode(input);
      if decoded.Err? {
        return UnmarshalFailure + decoded.error, Some(decoded.error);
      }
      var args := decoded.value;
      var found := similaritySearch(store, args.query, args.n);
      if found.Err? {
        return SearchFailure + found.error, Some(found.error);
      }
      var cookedDocuments := CookDocumentsLoop(found.value);
      var content := marshal(cookedDocuments);
      if content.Err? {
        return MarshalFailure + content.error, Some(content.error);
      }
      return content.value, None;
    }
  }

  /** The package-level state of the tools package: the shared index handle, nil until
      the first `GetIndex`. */
  class ToolsPackage {
    var index: Index?

    constructor ()
      ensures index == null
    {
      index := null;
    }

    /** `GetIndex` as written. The first call creates the handle and stores it in the
        package variable before it builds the embedder and connects, so a failed first
        call leaves an unready handle behind, and every later call returns that handle
        with a nil error. */
    method GetIndex(newEmbedder: Result<Embedder>, env: map<string, string>, connectError: Option<string>)
      returns (r: Index?, err: Option<string>)
      modifies this
      ensures err.None? <==> r != null
      ensures old(index) != null ==> index == old(index) && r == index && err.None?
      ensures old(index) == null ==> index != null && fresh(index) && err == InitError(newEmbedder, connectError)
      ensures old(index) == null && newEmbedder.Err? ==>
        r == null && err == Some(EmbedderFailure + newEmbedder.error) && index.store.None? && index.context.None?
      ensures old(index) == null && newEmbedder.Ok? && connectError.Some? ==>
        r == null && err == Some(ConnectFailure + connectError.value) && index.store.None? && index.context.None?
      ensures old(index) == null && newEmbedder.Ok? && connectError.None? ==>
        r == index && err.None? && index.store == Some(Store(ConfigFromEnv(env), newEmbedder.value))
        && index.context == Some(Background)
    {
      if index == null {
        var created := new Index();
        index := created;
        if newEmbedder.Err? {
          return null, Some(EmbedderFailure + newEmbedder.error);
        }
        if connectError.Some? {
          return null, Some(ConnectFailure + connectError.value);
        }
        created.store := Some(Store(ConfigFromEnv(env), newEmbedder.value));
        created.context := Some(Background);
      }
      return index, None;
    }

    /** The package variable only ever holds a usable handle. */
    ghost predicate Valid()
      reads this, index
    {
      index != null ==> index.Ready()
    }

    /** `GetIndex` with the package variable assigned only once initialisation succeeded:
        a failure is reported and not remembered, so the next call tries again, and a
        handle returned without error is always usable. */
    method GetIndexAssignAfterInit(newEmbedder: Result<Embedder>, env: map<string, string>,
                                   connectError: Option<string>)
      returns (r: Index?, err: Option<string>)
      requires Valid()
      modifies this
      ensures Valid()
      ensures err.None? <==> r != null
      ensures err.None? ==> r == index && r.Ready()
      ensures old(index) != null ==> index == old(index) && err.None?
      ensures old(index) == null && err.Some? ==> index == null
      ensures old(index) == null && newEmbedder.Err? ==> err == Some(EmbedderFailure + newEmbedder.error)
      ensures old(index) == null && newEmbedder.Ok? && connectError.Some? ==>
        err == Some(ConnectFailure + connectError.value)
      ensures old(index) == null && newEmbedder.Ok? && connectError.None? ==>
        err.None? && fresh(index) && index.store == Some(Store(ConfigFromEnv(env), newEmbedder.value))
    {
      if index == null {
        var created := new Index();
        if newEmbedder.Err? {
          return null, Some(EmbedderFailure + newEmbedder.error);
        }
        if connectError.Some? {
          return null, Some(ConnectFailure + connectError.value);
        }
        created.store := Some(Store(ConfigFromEnv(env), newEmbedder.value));
        created.context := Some(Background);
        index := created;
      }
      return index, None;
    }
  }

  /** As written, a failed first `GetIndex` poisons the package: the second call, though
      the embedder and the store would now both succeed, returns without error a handle
      that was never connected. */
  method HalfInitialisedHandle() returns (h: Index?, err: Option<string>)
    ensures h != null && err.None? && !h.Ready()
  {
    var tools := new ToolsPackage();
    var first, firstErr := tools.GetIndex(Err("model unavailable"), map[], None);
    h, err := tools.GetIndex(Ok(Embedder("model")), map[], None);
  }

  /** With the assignment after initialisation, the same two calls end with a usable
      handle. */
  method RetryAfterFailedInit() returns (h: Index?, err: Option<string>)
    ensures h != null && err.None? && h.Ready()
  {
    var tools := new ToolsPackage();
    var first, firstErr := tools.GetIndexAssignAfterInit(Err("model unavailable"), map[], None);
    h, err := tools.GetIndexAssignAfterInit(Ok(Embedder("model")), map[], None);
  }

  /** `IndexSearcher.Call` of this file. It gets the handle through the package's
      `GetIndex`, so the first call initialises it, and a failed first call leaves the
      unconnected handle that every later call then searches with. Only a failure to get
      the handle is fatal; any failure of `SearchIndex` is reported as text with a nil
      error, and the message wraps `SearchIndex`'s error, not its text, so a decoding
      failure reads "failed while searching index: ...". `HandleToolEnd` fires on every
      path. */
  method Call(pkg: ToolsPackage, handlerSet: bool, input: string,
              newEmbedder: Result<Embedder>, env: map<string, string>, connectError: Option<string>,
              decode: string -> Result<SearchArgs>,
              similaritySearch: (Option<Store>, string, int) -> Result<seq<Document>>,
              marshal: seq<Cooked> -> Result<string>)
    returns (result: string, err: Option<string>, hooks: seq<HookEvent>)
    modifies pkg
    ensures HookDiscipline(handlerSet, input, result, hooks)
    ensures EndFired(hooks) <==> handlerSet
    ensures pkg.index != null
    ensures old(pkg.index) != null ==> pkg.index == old(pkg.index) && pkg.index.store == old(pkg.index.store)
    ensures old(pkg.index) == null && err.Some? ==> pkg.index.store.None? && pkg.index.context.None?
    ensures err.Some? <==> old(pkg.index) == null && InitError(newEmbedder, connectError).Some?
    ensures old(pkg.index) == null && err.None? ==>
      fresh(pkg.index) && pkg.index.store == Some(Store(ConfigFromEnv(env), newEmbedder.value))
      && pkg.index.context == Some(Background)
    ensures err.Some? ==> err == InitError(newEmbedder, connectError) && result == GetIndexFailure + err.value
    ensures err.None? ==>
      var report := SearchReport(pkg.index.store, input, decode, similaritySearch, marshal);
      && (report.Err? ==> result == SearchFailure + report.error)
      && (report.Ok? ==> result == report.value)
  {
    hooks := [];
    if handlerSet {
      hooks := hooks + [ToolStart(input)];
    }
    var index, indexErr := pkg.GetIndex(newEmbedder, env, connectError);
    if indexErr.Some? {
      var errMessage := GetIndexFailure + indexErr.value;
      if handlerSet {
        hooks := hooks + [ToolEnd(errMessage)];
      }
      return errMessage, indexErr, hooks;
    }
    var text, searchErr := index.SearchIndex(input, decode, similaritySearch, marshal);
    if searchErr.Some? {
      var errMessage := SearchFailure + searchErr.value;
      if handlerSet {
        hooks := hooks + [ToolEnd(errMessage)];
      }
      return errMessage, None, hooks;
    }
    if handlerSet {
      hooks := hooks + [ToolEnd(text)];
    }
    return text, None, hooks;
  }
}
