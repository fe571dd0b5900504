/** The older arXiv record mapping of tools/tools.go. Its `Paper` record has the same
    fields as the one of tools/paper.go (only their declaration order differs), so
    `PaperFeed.Paper` is reused; the lookup and the mapping are this file's own. */
module LegacyTools {
  import opened GoStrings
  import opened Gofeed
  import PaperFeed

  /** `getOptionalField`: the first value of an optional element, "" when it is absent. */
  function OptionalField(key: string, fields: ExtensionFields): (v: string)
    requires PaperFeed.Readable(key, fields)
    ensures key !in fields ==> v == ""
    ensures key in fields ==> v == fields[key][0].value
  {
    if key in fields then fields[key][0].value else ""
  }

  /** The `Paper` that one entry maps to. The title goes through `strings.Replace`
      with a count of -1, which replaces every occurrence. */
  function ToPaper(item: Item): PaperFeed.Paper
    requires PaperFeed.WellFormedEntry(item)
  {
    var fields := PaperFeed.ArxivFields(item);
    PaperFeed.Paper(
      id := Replace(item.guid, PaperFeed.AbsPrefix, "", 1),
      title := Replace(item.title, "\n", "", -1),
      authors := PaperFeed.AuthorNames(item.authors),
      summary := item.description,
      published := item.published,
      journalReference := OptionalField(PaperFeed.JournalRefKey, fields),
      doi := OptionalField(PaperFeed.DoiKey, fields),
      primaryCategory := fields[PaperFeed.PrimaryCategoryKey][0].value,
      categories := item.categories,
      pdfUrl := Replace(item.link, "abs", "pdf", 1),
      arxivUrl := item.link)
  }

  /** The two versions of the mapping agree on every entry, so every property proved of
      `PaperFeed.ToPaper` (`PaperFeed.EntryToPaper`) holds of this one. */
  lemma AgreesWithPaperFeed(item: Item)
    requires PaperFeed.WellFormedEntry(item)
    ensures ToPaper(item) == PaperFeed.ToPaper(item)
  {
  }

  /** Every line break of the title is removed, not only the first, and the other
      characters are kept in their order. */
  lemma TitleHasNoLineBreak(item: Item)
    requires PaperFeed.WellFormedEntry(item)
    ensures ToPaper(item).title == WithoutChar(item.title, '\n')
    ensures '\n' !in ToPaper(item).title
    ensures multiset(ToPaper(item).title) == multiset(item.title)['\n' := 0]
  {
    DeleteAllOfChar(item.title, '\n');
    DeleteAllOfCharIsFilter(item.title, '\n');
  }

  /** The per-entry loop of `FetchPapers`: one paper per entry, in feed order. */
  method FetchPapers(feed: Feed) returns (papers: seq<PaperFeed.Paper>)
    requires forall i :: 0 <= i < |feed.items| ==> PaperFeed.WellFormedEntry(feed.items[i])
    ensures |papers| == |feed.items|
    ensures forall i :: 0 <= i < |papers| ==> papers[i] == ToPaper(feed.items[i])
  {
    papers := [];
    for i := 0 to |feed.items|
      invariant |papers| == i
      invariant forall j :: 0 <= j < i ==> papers[j] == ToPaper(feed.items[j])
    {
      var item := feed.items[i];
      papers := papers + [ToPaper(item)];
    }
  }
}
