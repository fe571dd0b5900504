# arxiv-researcher-go, modelled in Dafny

arxiv-researcher-go is a research assistant driven by a language model. It finds
papers on arXiv, stores them in a Pinecone vector index, and answers the model's
tool calls by searching arXiv or the index and by downloading PDFs. This project
models its core:

- **The arXiv record mapping** (`PaperFeed`, `LegacyTools`). Each entry of a parsed
  arXiv API feed becomes a `Paper`. This covers the id cut out of the entry
  identifier, the title with its line breaks removed, the authors in order, the
  optional journal reference and DOI, the primary category, and the PDF link
  derived from the abstract link. `tools/paper.go` and the older `tools/tools.go`
  each have a version of it.
- **Go's string functions** that the mapping relies on (`GoStrings`):
  `strings.Index`, `strings.Replace`, `strings.ReplaceAll` and `strings.Join`.
- **The index** (`IndexStore`):
  - the package-level handle and its lazy initialisation (`GetIndex`);
  - the documents built from papers (`AddPapers`);
  - the similarity search and the report of its hits (`SearchIndex`);
  - the `IndexSearcher` tool declared next to them.
- **The tools the model can call** (`IndexSearcherTool`, `ArxivSearcherTool`,
  `IndexTools`, `PaperTools`, `PaperDownloaderTool`), each with:
  - what it returns;
  - whether an error is fatal (a non-nil Go error) or reported as text;
  - which callback hooks fire (`ToolCalls` holds what they share).
- **The chat loop** (`Chatter`): recording the model's answer in the message history,
  logging its tool calls, and printing the tool responses.

Conventions:

- A Go `error` is an `Option<string>`; `None` stands for `nil`.
- Library calls whose behaviour lives outside the repository are parameters of the
  methods that make them. These are JSON decoding and encoding, creating the embedder,
  connecting to Pinecone, the similarity search and `AddDocuments`. The repository's
  own `FetchPapers` and `DownloadPaper` are parameters of the tools that call them too,
  as "## Left out" says. The index tools take the outcomes of creating the embedder and
  connecting, and obtain the handle through the modelled `GetIndex`.
- A callbacks handler is the flag `handlerSet` (non-nil). The hooks a call fires are
  returned in order as a trace of `HookEvent`s.
- Go's package variable `index` is the field of a `ToolsPackage` object, so the
  handle's aliasing and its updates in place stay visible.

## Model

| member | source | states |
|---|---|---|
| GoStrings.IndexOf | tools/paper.go:102 | the result is the least position at which the pattern occurs, or none when it occurs nowhere |
| GoStrings.ReplaceOnce | tools/paper.go:102 | replacing once splices the replacement over the first occurrence and changes nothing else; without an occurrence the string is unchanged |
| GoStrings.ReplaceWithoutOccurrence | tools/paper.go:114 | whatever the count, a string in which the pattern does not occur is returned unchanged |
| GoStrings.ReplacePastPrefix | tools/paper.go:114 | a prefix that cannot start the pattern is copied through, and the replacement happens in the rest |
| GoStrings.DeleteAllOfChar | tools/paper.go:104 | replacing every occurrence of a character by "" leaves no occurrence, and every other character keeps its multiplicity |
| GoStrings.DeleteAllOfCharIsFilter | tools/paper.go:104 | replacing every occurrence of a character by "" is the filter that drops that character and keeps every other character in its order |
| GoStrings.DeleteAllOfCharAppend | tools/paper.go:104 | deleting a character from a concatenation deletes it from each part |
| GoStrings.DeleteAllOfCharIdempotent | tools/paper.go:104 | deleting a character a second time changes nothing |
| GoStrings.ReplaceWithoutOccurrenceOfChar | tools/paper.go:104 | a string without the character is its own deletion |
| GoStrings.JoinSnoc | tools/index.go:79 | joining one more element appends the separator and the element |
| GoStrings.JoinLength | tools/index.go:70 | a join's length is the sum of the element lengths plus one separator between each adjacent pair |
| PaperFeed.OptionalField | tools/paper.go:44-50 | an absent element reads as "", a present one as the value of its first element |
| PaperFeed.AuthorNames | tools/paper.go:97-100 | one name per author, in the authors' order |
| PaperFeed.EntryToPaper | tools/paper.go:101-116 | the id is the identifier with its first `http://arxiv.org/abs/` cut out; the title is the entry's title with its line breaks filtered out and the other characters kept in order; the authors keep their order; the PDF link is the abstract link with its first `abs` turned into `pdf`; absent optional fields are ""; the other fields are copied |
| PaperFeed.FetchPapers | tools/paper.go:92-119 | one paper per feed entry, in feed order, each the mapping of its entry |
| PaperFeed.CanonicalEntry | tools/paper.go:102-115 | for the canonical identifier and link `http://arxiv.org/abs/<id>`, the id is `<id>` and the PDF link is `http://arxiv.org/pdf/<id>` |
| PaperFeed.CanonicalId | tools/paper.go:102 | the abstract prefix cut out of a canonical identifier leaves the bare id |
| PaperFeed.CanonicalPdfLink | tools/paper.go:114 | the only `abs` replaced in a canonical link is the one in its path |
| PaperFeed.TitleLineBreak | tools/paper.go:103-104 | a title broken over two lines is joined back into one |
| LegacyTools.OptionalField | tools/tools.go:36-42 | an absent element reads as "", a present one as the value of its first element |
| LegacyTools.AgreesWithPaperFeed | tools/tools.go:82-97 | the older mapping gives the same paper as the newer one for every entry |
| LegacyTools.TitleHasNoLineBreak | tools/tools.go:85 | replacing with a count of -1 removes every line break of the title and keeps the other characters in order |
| LegacyTools.FetchPapers | tools/tools.go:73-100 | one paper per feed entry, in feed order, each the older mapping of its entry |
| ToolCalls.FormatMetadata | tools/index.go:102-104 | a metadata value is reported as itself; a missing key is reported as Go's rendering of a nil value |
| ToolCalls.CookDocument | tools/index.go:101-106 | a hit's report has exactly the keys Title, Authors, PDF URL and Summary; Title, Authors and PDF URL are the document's metadata values under those keys as `%s` prints them, Go's `%!s(<nil>)` for a missing key; Summary is the document's embedded text |
| ToolCalls.CookPaper | tools/arxivSearcher.go:54-59 | a paper's report has exactly the keys Title, Authors, PDF URL and Summary; Title, PDF URL and Summary are the paper's own, Authors its author names joined with ", " |
| ToolCalls.ReportedEntry | tools/arxivSearcher.go:54-59 | the report of a mapped feed entry holds the entry's title with line breaks filtered out, its author names in order joined with ", ", its abstract link with the first `abs` turned into `pdf`, and its description |
| ToolCalls.CookDocumentsLoop | tools/indexSearcher.go:73-81 | one report per document, in order |
| ToolCalls.CookPapersLoop | tools/arxivSearcher.go:52-60 | one report per paper, in order |
| ToolCalls.ArxivText | tools/arxivSearcher.go:46-67 | the text of an arXiv search is the marshalled report on success; a decoding error comes behind "failed while unmarshalling arguments: ", a marshalling error behind "failed while marshalling documents: " |
| IndexStore.Getenv | tools/index.go:48-51 | a set variable reads as its value, an unset one as "" |
| IndexStore.PageContent | tools/index.go:64-66 | the embedded text is the title and the summary, each in braces after its label, on two lines |
| IndexStore.PaperDocument | tools/index.go:67-80 | the embedded text is "Title: {title}", a line break and "Summary: {summary}"; the metadata is the paper's metadata |
| IndexStore.PaperMetadata | tools/index.go:68-78 | exactly the nine metadata keys |
| IndexStore.IndexedMetadata | tools/index.go:68-78 | an indexed paper's metadata holds its authors and categories joined with ", " and its other seven fields as they are |
| IndexStore.IndexedPaperReport | tools/index.go:99-107 | a paper found again through the index is reported like the same paper found on arXiv, except that its Summary is the whole embedded text, which holds the paper's summary and is longer |
| IndexStore.SearchText | tools/index.go:92-113 | the text of a search is the marshalled report on success; a decoding error comes behind "failed while unmarshalling arguments: ", a search error behind "failed while searching index: ", a marshalling error behind "failed while marshalling documents: " |
| IndexStore.InitError | tools/index.go:43-55 | initialisation fails exactly when the embedder or the connection fails; the embedder's error comes first, each behind its own message |
| IndexStore.Index.AddPapers | tools/index.go:61-84 | one document per paper, in order, handed to the store in one batch; the error is the store's |
| IndexStore.Index.SearchIndex | tools/index.go:86-114 | the error is nil exactly when every stage succeeds and is otherwise the failing stage's error; the text is the search text |
| IndexStore.ToolsPackage.GetIndex | tools/index.go:39-59 | the first call creates the handle and stores it before initialising it; a failure is reported with its message and leaves an unconnected handle behind; later calls return the stored handle with a nil error |
| IndexStore.ToolsPackage.GetIndexAssignAfterInit | tools/index.go:39-59 | the stored handle is always connected; a failure is not remembered; a handle returned without error is connected |
| IndexStore.HalfInitialisedHandle | tools/index.go:40-58 | after a failed first call, a second call returns an unconnected handle with a nil error |
| IndexStore.RetryAfterFailedInit | tools/index.go:40-58 | with the assignment after initialisation, the same two calls return a connected handle |
| IndexStore.Call | tools/index.go:124-154 | the handle comes from the package's `GetIndex`: the call is fatal exactly when it is the first and initialisation fails, which leaves an unconnected handle behind; a successful first call stores a new handle connected to the store configured from the environment, with the background context; a stored handle is reused unchanged; a failed search is reported behind "failed while searching index: " with its error; the end hook fires on every path and carries the returned text |
| IndexSearcherTool.Call | tools/indexSearcher.go:36-94 | the handle comes from the package's `GetIndex`: the call is fatal exactly when it is the first and initialisation fails, which leaves an unconnected handle behind; a successful first call stores a new handle connected to the store configured from the environment, with the background context; a stored handle is reused unchanged; otherwise the text is the search text with that handle's store; the end hook fires exactly when something failed |
| IndexSearcherTool.SearchAfterFailedInit | tools/indexSearcher.go:41-63 | after a first call whose embedder fails, a second call reports no error and searches with no store |
| IndexSearcherTool.SearchAfterSuccessfulInit | tools/indexSearcher.go:41-63 | after a successful first call, a second call reports no error and searches the store the first call connected to, whatever its own embedder and connection outcomes |
| ArxivSearcherTool.Call | tools/arxivSearcher.go:37-68 | the error is always nil; the text is the arXiv search text; the end hook fires exactly when decoding or marshalling failed |
| IndexTools.Call | tools/indexTools.go:35-66 | the handle comes from the package's `GetIndex`: the call is fatal exactly when it is the first and initialisation fails, which leaves an unconnected handle behind; a successful first call stores a new handle connected to the store configured from the environment, with the background context; a stored handle is reused unchanged; a failed search is reported behind "failed while searching index: "; the end hook fires on every path |
| PaperTools.Call | tools/paperTools.go:37-68 | the error is always nil; the text is the arXiv search text; the end hook never fires |
| PaperTools.AgreesWithArxivSearcher | tools/paperTools.go:37-68 | the two arXiv searchers return the same text and error for every input, and fire the same hooks unless a handler is set and the search failed |
| PaperDownloaderTool.Call | tools/paperDownloader.go:29-57 | the error is always nil; a decoding or download failure is reported with its message and closed by the end hook; the confirmation is returned exactly when the download succeeded, and without the end hook |
| Chatter.AppendChoice | cmd/chatter/main.go:30-35 | the history is kept and one AI message is appended: the first choice's text, then its tool calls in order |
| Chatter.RecordsChoiceUnique | cmd/chatter/main.go:30-34 | the recorded message is determined by the choice |
| Chatter.Overwritten | cmd/chatter/main.go:24-26 | a choice's calls are rendered over the start of the buffer, and the entries past them keep what they held |
| Chatter.LatestWithCall | cmd/chatter/main.go:23-28 | the latest choice so far that has a call at a given position |
| Chatter.LoggedEntryIsLatestCall | cmd/chatter/main.go:22-28 | each logged entry is that call of the latest choice so far that has it |
| Chatter.WriteCalls | cmd/chatter/main.go:24-26 | the buffer becomes the choice's calls written over its old contents |
| Chatter.AppendLlmResponse | cmd/chatter/main.go:21-36 | the history gains the record of the first choice; the line logged after each choice is the shared buffer as overwritten by the choices so far |
| Chatter.LaterChoiceOverflows | cmd/chatter/main.go:22-25 | a later choice with more tool calls than the first is outside what the code handles |
| Chatter.AppendLlmResponseSized | cmd/chatter/main.go:21-36 | every response with a first choice is handled; each logged line holds exactly its choice's calls; the history is as before |
| Chatter.AgreesOnUniformResponse | cmd/chatter/main.go:21-36 | when all choices have as many calls as the first, the version as written and the corrected one log and record the same |
| Chatter.PrintedParts | cmd/chatter/main.go:44-46 | the first part of each of the last `responseCount` messages is printed, oldest first; a count that is not positive prints nothing |

## Left out

- Fetching the feed over HTTP, building the query URL, and parsing XML are not modelled. The parsed feed, or the papers fetched for a query, are parameters. A failed fetch leaves a nil feed, which Go dereferences; that panic is not modelled.
- `DownloadPaper` (directory creation, HTTP, file writing) is a parameter returning its error.
- JSON decoding of tool arguments and `json.MarshalIndent` of reports are parameters. The JSON grammar and the exact indentation are not modelled.
- The embedder, Pinecone, `SimilaritySearch` and `AddDocuments` are parameters. The documents' `any`-typed metadata is modelled as strings, which is all the code stores.
- A failed `pinecone.New` is modelled as leaving the handle's store unset (Go's zero `Store`), so any later use of that store is left to the parameters.
- Logging (`log.Printf`, `log.Println`) is left out. In `appendLlmResponse` the logged line is modelled as the buffer contents, not as the formatted text. The result count that the `SearchIndex` used by tools/indexTools.go returns is only logged and is not modelled.
- IndexTools.Call: the three-result `SearchIndex` it calls is defined in none of the files modelled here. Its text-or-error outcome is a parameter.
- `tools.ExecuteTools`, the rest of `executeToolCalls`, `main` and `log.Fatal` are not modelled. `PrintedParts` returns the printed parts instead of writing them.
- The `Name()` and `Description()` methods return constants and are left out.
- GoStrings.Replace: only a non-empty pattern is modelled. The empty-pattern case of `strings.Replace` is never used by the code.
- Contexts and concurrency: the package-level handle is modelled for one caller at a time, as the code has no locking.
- tools/index.go, tools/indexSearcher.go and tools/indexTools.go all declare an `IndexSearcher` type. tools/arxivSearcher.go and tools/paperTools.go both declare `ArxivSearcher`. Each declaration is modelled as its own module.
- Strings are modelled as sequences of characters, not of bytes. `strings.Index` returns a byte offset, and `IndexOf` returns a character offset. The two give the same replacements for the ASCII patterns the code uses.
- The model keeps the code's behaviour where it departs from what is evidently intended:
  - A failed initialisation is evidently meant to be retried on the next call. As written, a failed first `GetIndex` poisons the handle instead (see Findings).
  - The error texts name only the stage that failed, not the tool. The model keeps them as written.

## Findings

| source | as written | input that shows it | evidently intended | confidence | as-written member | corrected member |
|---|---|---|---|---|---|---|
| tools/index.go:40-55 | the package variable is assigned before the embedder and the store are created, and a failure returns without clearing it | a first call whose embedder creation fails, then a second call that would succeed: the second returns an unconnected handle with a nil error | a failed initialisation is reported and retried on the next call | not executed | IndexStore.HalfInitialisedHandle | IndexStore.RetryAfterFailedInit |
| cmd/chatter/main.go:22-27 | one buffer, sized by the first choice's tool calls, is written by every choice | a response whose second choice has one tool call and whose first has none: the write at index 0 is out of range and panics | each choice's tool calls are logged from a buffer of their own | not executed | Chatter.LaterChoiceOverflows | Chatter.AppendLlmResponseSized |
