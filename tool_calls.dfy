/** What the tool implementations have in common: their decoded argument shapes, the
    fixed texts of their results, the four-key maps they report per paper, and the
    discipline their callback hooks keep. */
module ToolCalls {
  import opened Wrappers
  import opened GoStrings
  import opened Langchain
  import Gofeed
  import PaperFeed

  /** The arguments of the two search tools: `{"query": ..., "n": ...}`. */
  datatype SearchArgs = SearchArgs(query: string, n: int)

  /** The arguments of the download tool: `{"fileName": ..., "url": ...}`. */
  datatype DownloadArgs = DownloadArgs(fileName: string, url: string)

  const UnmarshalFailure: string := "failed while unmarshalling arguments: "
  const SearchFailure: string := "failed while searching index: "
  const MarshalFailure: string := "failed while marshalling documents: "
  const GetIndexFailure: string := "failed while getting index: "
  const DownloadFailure: string := "failed while downloading paper: "
  const DownloadSuccess: string := "Paper downloaded successfully."

  /** One search hit as reported to the agent. */
  type Cooked = map<string, string>

  const TitleKey: string := "Title"
  const AuthorsKey: string := "Authors"
  const PdfUrlKey: string := "PDF URL"
  const SummaryKey: string := "Summary"

  /** The separator of a list joined into one string, such as the author names. */
  const ListSeparator: string := ", "

  /** Every reported hit has exactly these four keys. */
  predicate HasReportKeys(m: Cooked)
  {
    m.Keys == {TitleKey, AuthorsKey, PdfUrlKey, SummaryKey}
  }

  /** `fmt.Sprintf("%s", v)` of a metadata value: the string itself, or Go's rendering
      of a nil interface when the key is missing. */
  function FormatMetadata(metadata: map<string, string>, key: string): (v: string)
    ensures key in metadata ==> v == metadata[key]
    ensures key !in metadata ==> v == "%!s(<nil>)"
  {
    if key in metadata then metadata[key] else "%!s(<nil>)"
  }

  /** The report of one document found in the vector store: its title, authors and PDF
      link as their metadata values print, and its embedded text as the summary. */
  function CookDocument(d: Document): (m: Cooked)
    ensures HasReportKeys(m)
    ensures m[TitleKey] == FormatMetadata(d.metadata, TitleKey)
    ensures m[AuthorsKey] == FormatMetadata(d.metadata, AuthorsKey)
    ensures m[PdfUrlKey] == FormatMetadata(d.metadata, PdfUrlKey)
    ensures m[SummaryKey] == d.pageContent
  {
    map[TitleKey := FormatMetadata(d.metadata, TitleKey),
        AuthorsKey := FormatMetadata(d.metadata, AuthorsKey),
        PdfUrlKey := FormatMetadata(d.metadata, PdfUrlKey),
        SummaryKey := d.pageContent]
  }

  /** The report of one paper fetched from arXiv: title, PDF link and summary copied,
      authors joined with ", ". */
  function CookPaper(p: PaperFeed.Paper): (m: Cooked)
    ensures HasReportKeys(m)
    ensures m[TitleKey] == p.title && m[PdfUrlKey] == p.pdfUrl && m[SummaryKey] == p.summary
    ensures m[AuthorsKey] == Join(p.authors, ListSeparator)
  {
    map[TitleKey := p.title,
        AuthorsKey := Join(p.authors, ListSeparator),
        PdfUrlKey := p.pdfUrl,
        SummaryKey := p.summary]
  }

  /** What the arXiv searchers report for a feed entry, stated against the entry: its
      title with the line breaks filtered out, its author names in order joined with
      ", ", its abstract link with the first `abs` turned into `pdf`, and its
      description. */
  lemma ReportedEntry(item: Gofeed.Item)
    requires PaperFeed.WellFormedEntry(item)
    ensures CookPaper(PaperFeed.ToPaper(item))[TitleKey] == WithoutChar(item.title, '\n')
    ensures '\n' !in CookPaper(PaperFeed.ToPaper(item))[TitleKey]
    ensures CookPaper(PaperFeed.ToPaper(item))[AuthorsKey] == Join(PaperFeed.AuthorNames(item.authors), ListSeparator)
    ensures CookPaper(PaperFeed.ToPaper(item))[PdfUrlKey] == SpliceFirst(item.link, "abs", "pdf")
    ensures CookPaper(PaperFeed.ToPaper(item))[SummaryKey] == item.description
  {
    PaperFeed.EntryToPaper(item);
  }

  /** The reports of a list of documents, one per document, in order. */
  function CookDocuments(docs: seq<Document>): seq<Cooked>
  {
    seq(|docs|, i requires 0 <= i < |docs| => CookDocument(docs[i]))
  }

  /** The reports of a list of papers, one per paper, in order. */
  function CookPapers(papers: seq<PaperFeed.Paper>): seq<Cooked>
  {
    seq(|papers|, i requires 0 <= i < |papers| => CookPaper(papers[i]))
  }

  /** The cooking loop of the index searchers: one report per document, in order. */
  method CookDocumentsLoop(rawDocuments: seq<Document>) returns (cooked: seq<Cooked>)
    ensures cooked == CookDocuments(rawDocuments)
    ensures forall i :: 0 <= i < |cooked| ==> HasReportKeys(cooked[i])
  {
    var cookedDocuments := new Cooked[|rawDocuments|];
    for i := 0 to |rawDocuments|
      invariant forall j :: 0 <= j < i ==> cookedDocuments[j] == CookDocument(rawDocuments[j])
    {
      cookedDocuments[i] := CookDocument(rawDocuments[i]);
    }
    cooked := cookedDocuments[..];
  }

  /** The cooking loop of the arXiv searchers: one report per paper, in order. */
  method CookPapersLoop(rawPapers: seq<PaperFeed.Paper>) returns (cooked: seq<Cooked>)
    ensures cooked == CookPapers(rawPapers)
    ensures forall i :: 0 <= i < |cooked| ==> HasReportKeys(cooked[i])
  {
    var cookedPapers := new Cooked[|rawPapers|];
    for i := 0 to |rawPapers|
      invariant forall j :: 0 <= j < i ==> cookedPapers[j] == CookPaper(rawPapers[j])
    {
      cookedPapers[i] := CookPaper(rawPapers[i]);
    }
    cooked := cookedPapers[..];
  }

  /** The outcome of an arXiv search: the decoded arguments, then the papers fetched for
      them, then their report marshalled to text; fetching reports no error, so only
      decoding and marshalling give one. */
  function ArxivReport(input: string, decode: string -> Result<SearchArgs>,
                       fetchPapers: (string, int) -> seq<PaperFeed.Paper>,
                       marshal: seq<Cooked> -> Result<string>): Result<string>
  {
    match decode(input)
    case Err(e) => Err(e)
    case Ok(args) => marshal(CookPapers(fetchPapers(args.query, args.n)))
  }

  /** The text an arXiv search returns: the marshalled report, or the message of the
      stage that failed followed by its error. */
  function ArxivText(input: string, decode: string -> Result<SearchArgs>,
                     fetchPapers: (string, int) -> seq<PaperFeed.Paper>,
                     marshal: seq<Cooked> -> Result<string>): (text: string)
    ensures ArxivReport(input, decode, fetchPapers, marshal).Ok? ==>
      text == ArxivReport(input, decode, fetchPapers, marshal).value
    ensures decode(input).Err? ==> text == UnmarshalFailure + decode(input).error
    ensures decode(input).Ok? ==>
      var cooked := CookPapers(fetchPapers(decode(input).value.query, decode(input).value.n));
      marshal(cooked).Err? ==> text == MarshalFailure + marshal(cooked).error
  {
    match decode(input)
    case Err(e) => UnmarshalFailure + e
    case Ok(args) =>
      match marshal(CookPapers(fetchPapers(args.query, args.n)))
      case Err(e) => MarshalFailure + e
      case Ok(content) => content
  }

  /** The hook discipline of a tool call: without a handler no hook fires; with one,
      `HandleToolStart(input)` fires first, then at most one `HandleToolEnd`, and that
      one carries the text the call returns. */
  predicate HookDiscipline(handlerSet: bool, input: string, result: string, hooks: seq<HookEvent>)
  {
    if handlerSet then hooks == [ToolStart(input)] || hooks == [ToolStart(input), ToolEnd(result)]
    else hooks == []
  }

  /** Whether the call ended with `HandleToolEnd`. */
  predicate EndFired(hooks: seq<HookEvent>)
  {
    |hooks| > 0 && hooks[|hooks| - 1].ToolEnd?
  }
}
