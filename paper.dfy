/** The arXiv record mapping of tools/paper.go: each entry of an arXiv API feed becomes a
    `Paper`, one per entry, in feed order. Fetching the feed over HTTP is not modelled;
    the parsed feed is a parameter. */
module PaperFeed {
  import opened Wrappers
  import opened GoStrings
  import opened Gofeed

  /** The metadata of one paper, one field per field of an arXiv API entry.
      `journalReference` and `doi` are optional and are "" when the entry has none. */
  datatype Paper = Paper(
    id: string,
    title: string,
    authors: seq<string>,
    summary: string,
    published: string,
    journalReference: string,
    doi: string,
    primaryCategory: string,
    categories: seq<string>,
    pdfUrl: string,
    arxivUrl: string)

  /** The namespace of arXiv's own extension elements. */
  const ArxivNamespace: string := "arxiv"
  const JournalRefKey: string := "journal_ref"
  const DoiKey: string := "doi"
  const PrimaryCategoryKey: string := "primary_category"

  /** The prefix of an entry's global identifier that is not part of the arXiv id. */
  const AbsPrefix: string := "http://arxiv.org/abs/"

  /** The arXiv-namespace extension elements of an entry; a missing namespace reads as
      Go's nil map, that is, as no elements at all. */
  function ArxivFields(item: Item): ExtensionFields
  {
    if ArxivNamespace in item.extensions then item.extensions[ArxivNamespace] else map[]
  }

  /** A key that is present is read at its first element, so it must have one. */
  predicate Readable(key: string, fields: ExtensionFields)
  {
    key in fields ==> |fields[key]| > 0
  }

  /** `getOptionalField`: the first value of an optional element, "" when it is absent. */
  function OptionalField(key: string, fields: ExtensionFields): (v: string)
    requires Readable(key, fields)
    ensures key !in fields ==> v == ""
    ensures key in fields ==> v == fields[key][0].value
  {
    if key in fields then fields[key][0].value else ""
  }

  /** An entry the mapping can read without a run-time panic: `primary_category` is
      mandatory, and the optional elements, when present, are not empty. */
  predicate WellFormedEntry(item: Item)
  {
    var fields := ArxivFields(item);
    && PrimaryCategoryKey in fields && |fields[PrimaryCategoryKey]| > 0
    && Readable(JournalRefKey, fields)
    && Readable(DoiKey, fields)
  }

  /** The names of the authors, in order. */
  function AuthorNames(authors: seq<Person>): (names: seq<string>)
    ensures |names| == |authors|
    ensures forall i :: 0 <= i < |authors| ==> names[i] == authors[i].name
  {
    if |authors| == 0 then [] else [authors[0].name] + AuthorNames(authors[1..])
  }

  /** The `Paper` that one feed entry maps to. */
  function ToPaper(item: Item): Paper
    requires WellFormedEntry(item)
  {
    var fields := ArxivFields(item);
    Paper(
      id := Replace(item.guid, AbsPrefix, "", 1),
      title := ReplaceAll(item.title, "\n", ""),
      authors := AuthorNames(item.authors),
      summary := item.description,
      published := item.published,
      journalReference := OptionalField(JournalRefKey, fields),
      doi := OptionalField(DoiKey, fields),
      primaryCategory := fields[PrimaryCategoryKey][0].value,
      categories := item.categories,
      pdfUrl := Replace(item.link, "abs", "pdf", 1),
      arxivUrl := item.link)
  }

  /** What a mapped paper holds, stated against the entry: the id is the identifier with
      its first `http://arxiv.org/abs/` cut out, the title is the entry's title with its
      line breaks filtered out and every other character kept in order, the authors keep their order, the PDF link is the abstract link
      with its first `abs` turned into `pdf`, and absent optional elements read as "". */
  lemma EntryToPaper(item: Item)
    requires WellFormedEntry(item)
    ensures ToPaper(item).id == SpliceFirst(item.guid, AbsPrefix, "")
    ensures IndexOf(item.guid, AbsPrefix).None? ==> ToPaper(item).id == item.guid
    ensures ToPaper(item).title == WithoutChar(item.title, '\n')
    ensures '\n' !in ToPaper(item).title
    ensures multiset(ToPaper(item).title) == multiset(item.title)['\n' := 0]
    ensures |ToPaper(item).authors| == |item.authors|
    ensures forall i :: 0 <= i < |item.authors| ==> ToPaper(item).authors[i] == item.authors[i].name
    ensures ToPaper(item).arxivUrl == item.link
    ensures ToPaper(item).pdfUrl == SpliceFirst(ToPaper(item).arxivUrl, "abs", "pdf")
    ensures IndexOf(item.link, "abs").None? ==> ToPaper(item).pdfUrl == ToPaper(item).arxivUrl
    ensures JournalRefKey !in ArxivFields(item) ==> ToPaper(item).journalReference == ""
    ensures DoiKey !in ArxivFields(item) ==> ToPaper(item).doi == ""
    ensures ToPaper(item).primaryCategory == ArxivFields(item)[PrimaryCategoryKey][0].value
    ensures ToPaper(item).summary == item.description && ToPaper(item).published == item.published
    ensures ToPaper(item).categories == item.categories
  {
    ReplaceOnce(item.guid, AbsPrefix, "");
    ReplaceOnce(item.link, "abs", "pdf");
    DeleteAllOfChar(item.title, '\n');
    DeleteAllOfCharIsFilter(item.title, '\n');
  }

  /** The per-entry loop of `FetchPapers`: one paper per entry, in feed order. */
  method FetchPapers(feed: Feed) returns (papers: seq<Paper>)
    requires forall i :: 0 <= i < |feed.items| ==> WellFormedEntry(feed.items[i])
    ensures |papers| == |feed.items|
    ensures forall i :: 0 <= i < |papers| ==> papers[i] == ToPaper(feed.items[i])
  {
    papers := [];
    for i := 0 to |feed.items|
      invariant |papers| == i
      invariant forall j :: 0 <= j < i ==> papers[j] == ToPaper(feed.items[j])
    {
      var item := feed.items[i];
      papers := papers + [ToPaper(item)];
    }
  }

  /** The canonical PDF link prefix that arXiv documents for its papers. */
  const PdfPrefix: string := "http://arxiv.org/pdf/"

  /** For the canonical identifier and link `http://arxiv.org/abs/<id>` that arXiv
      returns, the mapped id is `<id>` and the PDF link is `http://arxiv.org/pdf/<id>`,
      whatever `<id>` holds. */
  lemma CanonicalEntry(item: Item, arxivId: string)
    requires WellFormedEntry(item)
    requires item.guid == AbsPrefix + arxivId && item.link == AbsPrefix + arxivId
    ensures ToPaper(item).id == arxivId
    ensures ToPaper(item).pdfUrl == PdfPrefix + arxivId
  {
    CanonicalId(arxivId);
    CanonicalPdfLink(arxivId);
  }

  /** Cutting the abstract prefix out of a canonical identifier leaves the bare id. */
  lemma CanonicalId(arxivId: string)
    ensures Replace(AbsPrefix + arxivId, AbsPrefix, "", 1) == arxivId
  {
    var link := AbsPrefix + arxivId;
    assert link[..|AbsPrefix|] == AbsPrefix;
    assert link[|AbsPrefix|..] == arxivId;
  }

  /** The first `abs` of a canonical abstract link is the one in its path: none occurs
      in `http://arxiv.org/` before it. */
  lemma CanonicalPdfLink(arxivId: string)
    ensures Replace(AbsPrefix + arxivId, "abs", "pdf", 1) == PdfPrefix + arxivId
  {
    var path := "abs/" + arxivId;
    assert AbsPrefix + arxivId == "http://" + ("arxiv.org/" + path);
    assert PdfPrefix + arxivId == "http://" + ("arxiv.org/" + ("pdf/" + arxivId));
    ReplacePastPrefix("http://", "arxiv.org/" + path, "abs", "pdf", 1);
    HostCopiedThrough(path);
    PathReplaced(arxivId);
  }

  /** The host part `arxiv.org/` holds no `abs` and is copied through. */
  lemma HostCopiedThrough(path: string)
    ensures Replace("arxiv.org/" + path, "abs", "pdf", 1) == "arxiv.org/" + Replace(path, "abs", "pdf", 1)
  {
    var rest := "rxiv.org/" + path;
    var link := "a" + rest;
    assert "arxiv.org/" + path == link;
    assert link[..3] == "arx";
    assert link[1..] == rest;
    ReplacePastPrefix("rxiv.org/", path, "abs", "pdf", 1);
  }

  /** The `abs` that starts the path becomes `pdf`, and the id after it is kept. */
  lemma PathReplaced(arxivId: string)
    ensures Replace("abs/" + arxivId, "abs", "pdf", 1) == "pdf/" + arxivId
  {
    var path := "abs/" + arxivId;
    assert path[..3] == "abs";
    assert path[3..] == "/" + arxivId;
  }

  /** A title broken over two lines, as the feed delivers long titles, is joined back
      into one line. */
  lemma TitleLineBreak(first: string, second: string)
    requires '\n' !in first && '\n' !in second
    ensures ReplaceAll(first + "\n" + second, "\n", "") == first + second
  {
    assert first + "\n" + second == first + ("\n" + second);
    DeleteAllOfCharAppend(first, "\n" + second, '\n');
    DeleteAllOfCharAppend("\n", second, '\n');
    assert ReplaceAll("\n", "\n", "") == "" by {
      assert "\n"[..1] == "\n";
      assert "\n"[1..] == "";
    }
    ReplaceWithoutOccurrenceOfChar(first, '\n');
    ReplaceWithoutOccurrenceOfChar(second, '\n');
  }
}
