# DocuMind document discovery and upload lifecycle, in Dafny

DocuMind is a personal document vault. Users upload scans and PDFs, an AI
reads each one, and the dashboard lets them find documents again. It offers
category filters, a keyword search, an AI search, a per-type chart and a list
of documents expiring soon. This project models the logic behind those
screens as pure functions over immutable data and proves what that logic
promises. The model covers these areas:

- **Documents page** (`DocumentsPage`):
  - canonicalising near-identical owner, type, company and country values into filter options;
  - the filter state and its four transitions (toggle, clear, manual submit, AI search);
  - the rule that decides which documents are displayed.
- **Dashboard and folders pages** (`DashboardPage`, `FoldersPage`, `FolderList`):
  - case-insensitive substring search over document fields and folder names;
  - the newest-first ordering of the loaded lists;
  - per-folder document counts.
- **Filter sidebar** (`FilterSidebar`):
  - the active-filter count and badge;
  - each category section's option sub-search and checkboxes;
  - the AI search box, including its blank-query guard and busy flag.
- **Intelligent search adapter** (`IntelligentSearch`): the empty-input short-circuit, the pass-through of the LLM's answer, and the projection record sent to the LLM.
- **Chart, expiry list and card** (`TypeChart`, `ExpiringSoon`, `DocumentCard`):
  - the per-type tally;
  - the urgency bands;
  - the image hint and the image-URL test.
- **Upload** (`UploadDialog`, `UploadRoute`, `Lifecycle`):
  - the upload form's validation;
  - the bearer-token check on the server route;
  - the record lifecycle: a placeholder, then the processed, AI-failed or PDF-stub state.

Shared foundations:

- `Wrappers`: `Option` and `Result`.
- `Text`: ASCII lower-casing, substring search, `split` and `trim` with JavaScript semantics, and code-point order.
- `Seqs`: `filter`, and a JavaScript `Set` kept as a duplicate-free sequence in insertion order.
- `Sorting`: a stable insertion sort standing for `Array.prototype.sort` with a comparator.
- `Records`: the stored document and folder.
- `Fuzzy`: the Fuse.js option sets.

External dependencies are parameters, never axioms:

- **Fuse.js** is a function-valued parameter `Matcher<T>`. The properties that need it say so explicitly.
  - `DrawsFromCandidates(m)`: results are drawn from the candidates.
  - `FindsExactValues(m)`: an exact value is always found, unless it is blank (Fuse does not index strings whose trim is empty).
- **The LLM flows and Firebase token verification** are function parameters that may fail.
- **Google Drive's answers and the file reader's outcome** are values handed in.
- **Dates** are integer milliseconds, and "now" is a parameter.

Three behaviours of the code are easy to misread, and the model follows the code:

- **AI failure.** A failed AI search only shows the sidebar's failure notice (`src/components/dashboard/filter-sidebar.tsx:45-51`); the page state is untouched.
- **The page's AI search.** The page's `handleAiSearch` does not call the LLM. It runs a local Fuse search with threshold 0.4 over eight keys, including `fileName` (`src/app/dashboard/documents/page.tsx:139-153`).
- **AI search results.** The intelligent-search adapter passes the flow's ids through unchecked and in the flow's order (`src/ai/flows/intelligent-search.ts:41`); nothing re-ranks or filters them.

## Model

| member | source | states |
|---|---|---|
| `DocumentsPage.FindCanonicalName` | src/app/dashboard/documents/page.tsx:25-35 | a value already in the registry comes back unchanged; with no fuzzy hit the value itself comes back; if the matcher only returns candidates, the result is the value or an existing name |
| `DocumentsPage.Vocabulary` | src/app/dashboard/documents/page.tsx:89-110 | the option fold yields a duplicate-free registry; if the matcher only returns candidates, every option is non-empty and equals some document's raw field value |
| `DocumentsPage.VocabularyGrows` | src/app/dashboard/documents/page.tsx:89-110 | the fold only adds names: every name registered after the first k values is still registered at the end |
| `DocumentsPage.VocabularyComplete` | src/app/dashboard/documents/page.tsx:89-110 | every truthy field value is represented in the final vocabulary by the canonical name the fold gave it against the names registered before it |
| `DocumentsPage.VocabularyWithoutMatches` | src/app/dashboard/documents/page.tsx:25-35 | with a matcher that never reports a hit, the vocabulary holds exactly the distinct truthy field values |
| `DocumentsPage.CategoryOptions` | src/app/dashboard/documents/page.tsx:89-116 | each category's option list is strictly ascending and duplicate-free; every document with a truthy value is represented by its canonical name; with a candidate-drawing matcher it holds only non-empty values some document carries; with a never-hitting matcher it holds exactly those values |
| `DocumentsPage.FilterOptionsWellFormed` | src/app/dashboard/documents/page.tsx:82-117 | when the matcher only returns candidates, every one of the four option lists is sorted, duplicate-free, drawn from the documents' own non-empty field values, and represents every document's truthy value by its canonical name |
| `DocumentsPage.HasActiveFiltersMeansSomeCategory` | src/app/dashboard/documents/page.tsx:231 | filters are active exactly when some category has a non-empty selection |
| `DocumentsPage.HandleFilterChange` | src/app/dashboard/documents/page.tsx:119-130 | toggling flips the value's membership in that category only, keeps every other value and the other three categories, keeps both queries, nulls the AI results and keeps the selections duplicate-free |
| `DocumentsPage.ToggleTwiceRestoresSelection` | src/app/dashboard/documents/page.tsx:119-130 | toggling the same value twice restores the original selection |
| `DocumentsPage.ClearFilters` | src/app/dashboard/documents/page.tsx:132-137 | clearing empties all four selections, nulls the AI results and sets both queries to the empty string |
| `DocumentsPage.HandleAiSearch` | src/app/dashboard/documents/page.tsx:139-153 | an AI search leaves all selections empty, both queries empty and the AI results present, drawn from the documents when the matcher only returns candidates |
| `DocumentsPage.SetSearchQuery` | src/app/dashboard/documents/page.tsx:43 | typing replaces the typed query and leaves the submitted query, the selections and the AI results as they were |
| `DocumentsPage.TypingDoesNotChangeDisplay` | src/app/dashboard/documents/page.tsx:222-259 | typing alone never changes the displayed list; only a submit does |
| `DocumentsPage.HandleSearchSubmit` | src/app/dashboard/documents/page.tsx:217-220 | submitting nulls the AI results and copies the typed query into the submitted one, leaving filters and typed query alone |
| `DocumentsPage.PassesAllMeansEveryCategory` | src/app/dashboard/documents/page.tsx:233-245 | a document passes the filters exactly when it passes every category's filter |
| `DocumentsPage.ApplyCategoryFilters` | src/app/dashboard/documents/page.tsx:228-246 | the filtered list is an order-preserving subsequence holding exactly the documents that pass every category, and is the input itself when no filter is active |
| `DocumentsPage.DisplayedDocuments` | src/app/dashboard/documents/page.tsx:222-259 | AI results are shown verbatim; otherwise, with no submitted query, the category-filtered subsequence is shown (all documents when nothing is selected); with a submitted query, only filtered documents appear when the matcher only returns candidates |
| `DocumentsPage.MissingFieldFailsActiveCategory` | src/app/dashboard/documents/page.tsx:236-239 | a document lacking a field (or with it empty) is never displayed while that category has a selection |
| `DocumentsPage.ExactSelectionIsShown` | src/app/dashboard/documents/page.tsx:233-245 | with a matcher that finds exact non-blank values, a document whose non-blank field is selected in every active category is displayed |
| `DocumentsPage.EmptySelectionImposesNothing` | src/app/dashboard/documents/page.tsx:233-237 | a category with nothing selected constrains nothing: a document survives exactly when it is in the list and passes the other three categories |
| `DocumentsPage.FiltersAreIntersectionOfCategories` | src/app/dashboard/documents/page.tsx:234-245 | filtering by all categories at once keeps exactly the documents each single-category filter keeps (AND across categories) |
| `DocumentsPage.ClearFiltersShowsEverything` | src/app/dashboard/documents/page.tsx:132-137 | after clearing, the displayed list is the whole document list |
| `DocumentsPage.AiSearchIsShownVerbatim` | src/app/dashboard/documents/page.tsx:222-226 | after an AI search, the displayed list is exactly the fuzzy matches over all documents, in the matcher's order, whatever the filters and queries were before |
| `DashboardPage.Stamp` | src/app/dashboard/page.tsx:43 | a document without an upload time is stamped with the current time and is otherwise unchanged; a stamped one is kept as is |
| `DashboardPage.LoadSnapshot` | src/app/dashboard/page.tsx:36-48 | the loaded list is a rearrangement of the stamped snapshot, every document has an upload time, and upload times are non-increasing |
| `DashboardPage.FilteredDocuments` | src/app/dashboard/page.tsx:54-63 | an empty query returns the list unchanged; otherwise the result is an order-preserving subsequence keeping a document exactly when the lowercased query occurs in its lowercased owner, company, type or some keyword |
| `DashboardPage.AbsentFieldsNeverMatch` | src/app/dashboard/page.tsx:58-61 | a missing or empty company, owner, type or keyword list never makes a document match a non-empty query |
| `DashboardPage.MentionsSubstring` | src/app/dashboard/page.tsx:56-62 | a document mentioning a query also mentions every substring of it |
| `DashboardPage.LongerQueryNarrows` | src/app/dashboard/page.tsx:54-63 | if `q` is a substring of `q2`, every document found for `q2` is found for `q` |
| `FoldersPage.StampFolder` | src/app/dashboard/folders/page.tsx:42 | a folder without a creation time is stamped with the current time and is otherwise unchanged |
| `FoldersPage.LoadFolders` | src/app/dashboard/folders/page.tsx:35-47 | the loaded list is a rearrangement of the stamped folders (multiset equal), every folder has a creation time, and creation times are non-increasing |
| `FoldersPage.FilteredFolders` | src/app/dashboard/folders/page.tsx:65-70 | an empty query returns the folders unchanged; otherwise the result is an order-preserving subsequence keeping a folder exactly when its lowercased name contains the lowercased query |
| `FolderList.GetDocumentCount` | src/components/dashboard/folder-list.tsx:16-18 | the count never exceeds the number of documents, is zero exactly when no document is filed in the folder, and is the full length exactly when all are |
| `FolderList.CountAppend` | src/components/dashboard/folder-list.tsx:17 | the count of two concatenated lists is the sum of their counts |
| `FolderList.UnfiledDocumentCountsNowhere` | src/components/dashboard/folder-list.tsx:17 | a document without this folder id (unfiled or elsewhere) adds nothing to the folder's count |
| `FolderList.RenderFolderList` | src/components/dashboard/folder-list.tsx:11-27 | no folders gives the empty state; otherwise exactly one card per folder, in input order, each with that folder's document count |
| `FilterSidebar.ActiveFilterCount` | src/components/dashboard/filter-sidebar.tsx:150 | the count is zero exactly when no filter is active, and for duplicate-free selections equals the sum of the four set sizes |
| `FilterSidebar.ShowsActiveFilterCount` | src/components/dashboard/filter-sidebar.tsx:157-161 | the "Clear all" link and the badge show exactly when some category has a selection |
| `FilterSidebar.ToggleMovesCountByOne` | src/components/dashboard/filter-sidebar.tsx:150 | a checkbox toggle moves the count down by one when deselecting and up by one when selecting |
| `FilterSidebar.ClearHidesCount` | src/components/dashboard/filter-sidebar.tsx:157-161 | after clearing, the count is zero and neither the link nor the badge shows |
| `FilterSidebar.FilteredOptions` | src/components/dashboard/filter-sidebar.tsx:100-104 | an empty sub-search returns the options unchanged; a non-empty one returns only options, when the matcher only returns candidates |
| `FilterSidebar.RenderSection` | src/components/dashboard/filter-sidebar.tsx:106-139 | a section renders nothing exactly when it has no options, "No matches found." exactly when the sub-search finds none, and otherwise one checkbox per shown option, ticked exactly when selected, whose click sends that category and option |
| `FilterSidebar.ClickFlipsOnlyThatCheckbox` | src/components/dashboard/filter-sidebar.tsx:126-131 | clicking a checkbox and handling the change flips that checkbox and leaves the others of the section as they were |
| `FilterSidebar.BeginSearch` | src/components/dashboard/filter-sidebar.tsx:37-41 | a whitespace-only query returns early; any other query turns the box busy |
| `FilterSidebar.FinishSearch` | src/components/dashboard/filter-sidebar.tsx:42-54 | once the call settles the box is no longer busy; the output is delivered exactly on success and the failure notice shows exactly on failure |
| `FilterSidebar.HandleSearch` | src/components/dashboard/filter-sidebar.tsx:37-55 | a blank query changes nothing; otherwise the box ends not busy, delivering the search output exactly on success and showing the notice exactly on failure |
| `FilterSidebar.BlankQueryNeverSearches` | src/components/dashboard/filter-sidebar.tsx:39 | a blank query's run is the same whatever the search call would do, so the call is never made |
| `IntelligentSearch.ToProjection` | src/ai/flows/intelligent-search.ts:15-23 | a stored document fits the projection exactly when owner, type and keywords are present (an absent company, country or summary counts as null); id, owner, type and keywords are copied and company, country and summary stay nullable |
| `IntelligentSearch.Search` | src/ai/flows/intelligent-search.ts:36-42 | an empty document list yields no ids; otherwise the flow's outcome is returned unchanged |
| `IntelligentSearch.EmptyInputIgnoresFlow` | src/ai/flows/intelligent-search.ts:38-40 | on an empty document list any two flows give the same empty answer, so the flow is never consulted |
| `IntelligentSearch.IdsPassThrough` | src/ai/flows/intelligent-search.ts:41 | on a non-empty list the flow's ids come back as they are, neither re-sorted nor checked against the input |
| `TypeChart.TypeKey` | src/components/dashboard/document-type-chart.tsx:15 | a present, non-empty type is its own key; a missing or empty type is "Uncategorized" |
| `TypeChart.Bump` | src/components/dashboard/document-type-chart.tsx:16 | one count adds one to its key's total and the sum, leaves every other key's total alone, and adds the key's name only when it is new |
| `TypeChart.Tally` | src/components/dashboard/document-type-chart.tsx:14-18 | the tallies have distinct names and positive totals summing to the number of documents, each key's total is its number of documents, and a name appears exactly when some document has that key |
| `TypeChart.SumPermutation` | src/components/dashboard/document-type-chart.tsx:20-22 | rearranging the entries does not change the sum of totals |
| `TypeChart.GetChartData` | src/components/dashboard/document-type-chart.tsx:13-23 | the chart data is a rearrangement of the tallies, sorted by total largest first, with distinct names, each total equal to its key's document count and at least 1, totals summing to the number of documents, and empty for no documents |
| `TypeChart.EveryDocumentIsCharted` | src/components/dashboard/document-type-chart.tsx:14-18 | every document's key has its bar |
| `TypeChart.RenderChart` | src/components/dashboard/document-type-chart.tsx:26-33 | empty data shows the placeholder; otherwise the bars are the data |
| `TypeChart.ChartPlaceholderIffNoDocuments` | src/components/dashboard/document-type-chart.tsx:13-33 | the chart shows its placeholder exactly when there are no documents |
| `ExpiringSoon.TruncDiv` | src/components/dashboard/expiring-soon-list.tsx:35 | the quotient rounds toward zero: the whole number of divisor steps lies between zero and the dividend |
| `ExpiringSoon.DaysLeft` | src/components/dashboard/expiring-soon-list.tsx:35 | days left is the number of whole days between now and the expiry, negative once expired; an absent expiry gives no number |
| `ExpiringSoon.UrgencyOf` | src/components/dashboard/expiring-soon-list.tsx:13-17 | fewer than 15 days (expired included) is "text-destructive", 15 to 29 is "text-yellow-600", 30 or more and an unknown count are "text-muted-foreground" |
| `ExpiringSoon.UrgencyMonotone` | src/components/dashboard/expiring-soon-list.tsx:13-17 | more days left never gives a more urgent band |
| `ExpiringSoon.LaterExpiryNeverMoreUrgent` | src/components/dashboard/expiring-soon-list.tsx:35-36 | a later expiry date never gives a more urgent band |
| `ExpiringSoon.ExpiredIsCritical` | src/components/dashboard/expiring-soon-list.tsx:14 | an already expired document is in the most urgent band |
| `ExpiringSoon.RenderExpiringSoon` | src/components/dashboard/expiring-soon-list.tsx:22-68 | an empty list shows "All Good!"; a document without an expiry makes the list fail with a RangeError, as parsing and formatting a missing date does; otherwise one card per document in order, with its days left, its band and a link to the document |
| `DocumentCard.GetAiHint` | src/components/dashboard/document-card.tsx:17-30 | passport, contract, receipt and visa in any letter case map to their fixed hints; every other type maps to "document paper" |
| `DocumentCard.AiHintIgnoresCase` | src/components/dashboard/document-card.tsx:18 | the hint of a type equals the hint of its lower-cased form |
| `DocumentCard.DriveLinksAreNotImages` | src/components/dashboard/document-card.tsx:32 | no URL containing "drive.google.com" is treated as an image |
| `DocumentCard.RenderMedia` | src/components/dashboard/document-card.tsx:34-76 | a processing record shows a spinner; an image URL shows the picture with the type's hint (and throws without a type); any other URL shows the file icon |
| `Lifecycle.ApplyMetadataAsWritten` | src/components/dashboard/upload-dialog.tsx:162 | the update as written sets owner, company, country, summary and keywords and ends processing, but leaves the record's type and expiry as they were |
| `Lifecycle.AsWrittenKeepsPlaceholderType` | src/components/dashboard/upload-dialog.tsx:162 | processed as written, a placeholder keeps the type "Processing..." and no expiry, whatever the AI found |
| `Lifecycle.AsWrittenLosesPassport` | src/components/dashboard/upload-dialog.tsx:162 | a concrete passport with an expiry date, processed as written, still reads "Processing..." and never expires |
| `Lifecycle.ApplyMetadata` | src/components/dashboard/upload-dialog.tsx:162 | the intended update also writes the metadata's type and expiry to the record's type and expiry, keeping file, owner and location fields |
| `Lifecycle.IntendedUpdateRecordsTheType` | src/components/dashboard/upload-dialog.tsx:162 | the intended and as-written updates agree on the type exactly when the AI itself answered "Processing..." |
| `Lifecycle.MarkFailed` | src/components/dashboard/upload-dialog.tsx:170-175 | an AI failure sets owner to the file name, type to "Processing Failed" and the fixed failure summary, ends processing, and changes nothing else |
| `Lifecycle.MarkPdf` | src/components/dashboard/upload-dialog.tsx:184-190 | the PDF path sets owner to the file name, type "PDF Document", the fixed summary and one keyword, and ends processing |
| `Lifecycle.PdfKeywordIsStem` | src/components/dashboard/upload-dialog.tsx:187 | the PDF keyword is the file name up to its first dot: a dot-free prefix that is the whole name exactly when there is no dot, and is otherwise followed by a dot |
| `Lifecycle.Settle` | src/components/dashboard/upload-dialog.tsx:142-195 | with the corrected success update, each of the three outcomes ends processing with its own type, leaving the file fields alone |
| `Lifecycle.SettledIsNoLongerPlaceholder` | src/components/dashboard/upload-dialog.tsx:142-195 | whichever way processing ends, the record is no longer a placeholder |
| `UploadDialog.ValidateUpload` | src/components/dashboard/upload-dialog.tsx:31-40 | the form accepts exactly one file of at most 5,000,000 bytes whose type is image/jpeg, image/png or application/pdf; each message appears exactly when its own rule fails |
| `UploadDialog.NoFileDrawsEveryMessage` | src/components/dashboard/upload-dialog.tsx:34-38 | with no file, all three messages appear in order |
| `UploadDialog.AcceptedImagePath` | src/components/dashboard/upload-dialog.tsx:120 | among accepted files, the image path is taken exactly for the non-PDF types |
| `UploadDialog.OnOpenChange` | src/components/dashboard/upload-dialog.tsx:218-226 | while processing the dialog state cannot change; otherwise it takes the requested open state, and closing clears the file name |
| `UploadDialog.ProcessingDialogStaysOpen` | src/components/dashboard/upload-dialog.tsx:218-220 | an open dialog that is processing stays open when asked to close |
| `UploadDialog.ClientPlaceholder` | src/components/dashboard/upload-dialog.tsx:123-134 | the browser placeholder has owner, type and summary "Processing...", no keywords, no expiry, is processing, and records the uploader, stored name and URL |
| `UploadDialog.DescribeError` | src/components/dashboard/upload-dialog.tsx:196-209 | the failure text is the closed-popup text for that error code, else the error's message, else the generic text |
| `UploadDialog.Submit` | src/components/dashboard/upload-dialog.tsx:55-213 | with the corrected success update: processing always ends; without a user nothing is written; a record is written exactly when Drive gave a URL; it carries the uploader, the uuid-prefixed name and the URL and closes the dialog; it then becomes the PDF stub, the processed record, the failed record, or stays a placeholder if the file could not be read |
| `UploadDialog.SignedOutWritesNothing` | src/components/dashboard/upload-dialog.tsx:59-63 | with nobody signed in the run is the same whatever Drive or the AI would do, and no record is written |
| `UploadRoute.BearerToken` | src/app/api/uploadthing/core.ts:31 | a token is found exactly when the header contains "Bearer ", and it is the text after the first "Bearer " up to the next "Bearer " or the end of the header |
| `UploadRoute.GetUser` | src/app/api/uploadthing/core.ts:29-40 | a missing or empty header, or an absent or empty token, yields no user; otherwise the verifier's answer, with a rejection as no user |
| `UploadRoute.WellFormedHeaderVerifiesToken` | src/app/api/uploadthing/core.ts:31-34 | for "Bearer " followed by a non-empty token free of "Bearer ", exactly that token is verified |
| `UploadRoute.HeaderWithoutBearerHasNoUser` | src/app/api/uploadthing/core.ts:31-32 | a header without "Bearer " yields no user |
| `UploadRoute.BareBearerHasNoUser` | src/app/api/uploadthing/core.ts:31-32 | "Bearer " alone yields an empty token and no user |
| `UploadRoute.RejectedTokenHasNoUser` | src/app/api/uploadthing/core.ts:33-39 | a token the verifier rejects yields no user rather than an error |
| `UploadRoute.Middleware` | src/app/api/uploadthing/core.ts:118-124 | the middleware rejects with "Unauthorized" exactly when there is no user, and otherwise passes on that user's uid |
| `UploadRoute.ServerPlaceholder` | src/app/api/uploadthing/core.ts:44-60 | the server placeholder is processing, has owner, type and summary "Processing...", empty text, no company, country or expiry, and records the uploader, name, URL, storage key, MIME type and time |
| `UploadRoute.ProcessFileAsWritten` | src/app/api/uploadthing/core.ts:93-98 | the server update as written stores the text and keywords and ends processing, but keeps the placeholder's type and expiry |
| `UploadRoute.ServerAsWrittenKeepsPlaceholderType` | src/app/api/uploadthing/core.ts:93-98 | processed as written on the server, a placeholder keeps the type "Processing..." |
| `UploadRoute.ProcessFile` | src/app/api/uploadthing/core.ts:88-109 | success stores text, keywords, owner, summary, type and expiry and ends processing; failure sets owner to the file name, type "Processing Failed" and the failure summary |
| `UploadRoute.FailureAgreesWithBrowser` | src/app/api/uploadthing/core.ts:103-108 | the server's failed record is exactly the browser's failed record |
| `Text.Split` | src/app/api/uploadthing/core.ts:31 | `split` gives at least one piece, no piece contains the separator, and a string without the separator is its own single piece |
| `Text.JoinSplit` | src/app/api/uploadthing/core.ts:31 | joining the pieces of a split with the separator gives back the original string |
| `Text.SplitHead` | src/components/dashboard/upload-dialog.tsx:187 | the first piece of a split is the separator-free prefix before the first separator, the whole string exactly when there is none |
| `Text.TrimEmptyIffBlank` | src/components/dashboard/filter-sidebar.tsx:39 | `trim()` is empty exactly when the string is all white space |
| `Text.LowerIdempotent` | src/components/dashboard/document-card.tsx:18 | lower-casing twice is lower-casing once |
| `Text.LowerKeepsContains` | src/app/dashboard/page.tsx:56-62 | lower-casing both sides keeps a substring a substring |
| `Text.LexLeTransitive` | src/app/dashboard/documents/page.tsx:112-115 | the default string order is transitive |
| `Seqs.Toggle` | src/app/dashboard/documents/page.tsx:122-127 | a toggle flips one element's membership, keeps every other element, and keeps the set duplicate-free |
| `Seqs.ToggleTwice` | src/app/dashboard/documents/page.tsx:122-127 | toggling an element twice restores the set's elements, and restores the exact sequence when the element was absent |
| `Seqs.NoDupSize` | src/components/dashboard/filter-sidebar.tsx:150 | a duplicate-free sequence has as many elements as its set (`Set.size`) |
| `Seqs.FilterExtremes` | src/components/dashboard/folder-list.tsx:17 | a filter keeps nothing exactly when no element passes, and everything exactly when every element does |
| `Sorting.SortBy` | src/app/dashboard/page.tsx:46 | sorting with a consistent comparator gives a sorted rearrangement of the input |
| `Sorting.SortByIsStable` | src/app/dashboard/page.tsx:46 | the sort is stable: the elements the comparator ranks level with any given one (such as documents stamped with the same "now") come out in their input order |

## Left out

- **Firebase and Google Drive I/O.** This covers Firebase auth and redirects, Firestore snapshots and writes, the Google Drive upload calls, the delete handlers and the delete route. They are I/O. Their outcomes enter the model as parameters: the Drive result, the analysis outcome, the record id and "now".
- **Fuse.js scoring.** The Bitap algorithm, `ignoreLocation` and the float thresholds are not modelled. The matcher is an uninterpreted parameter, and thresholds are carried as opaque hundredths.
- DocumentsPage.DisplayedDocuments: with a submitted query, it promises only that results come from the filtered list. This holds under the candidate-drawing assumption, because Fuse's ranking is not modelled.
- DocumentsPage.FindCanonicalName: it does not say which existing name Fuse ranks first.
- DocumentsPage.ExactSelectionIsShown: it makes no claim for a selected value that is blank (white space only, such as an owner of " "). Fuse never indexes such strings, so the source hides those documents, and the model's matcher is unconstrained on them.
- **The Genkit prompts and LLM flows** (metadata extraction, text extraction, keywords, chat, suggested questions). They are opaque and may fail. Only their output shapes are used (`Lifecycle.Metadata`, `IntelligentSearch.SearchOutput`).
- **The wiring between components.** The page passes `isAiSearchActive`/`onAiSearch` props the sidebar does not declare. The sidebar calls `intelligentSearch({ query })` without `documents`.
- FilterSidebar.HandleSearch: its `search` parameter stands for that call. The model does not claim that, as wired, the call always fails.
- **The upload route's plumbing.** The route's `onUploadComplete` return value `{ uploadedBy }`, UploadThing's own size and count limits (4MB, 5 files), and the fire-and-forget `.catch` are framework plumbing.
- **Stray metadata fields.** The metadata's extra fields (`documentType`, `expiryDate`, the metadata's own `keywords`) that the as-written updates store under those names are not part of `Records.Document`, because no code reads them.
- **Date parsing.** `parseISO`, `format` and `toISOString` are replaced by integer milliseconds.
- ExpiringSoon.DaysLeft: it counts whole 24-hour days on integer milliseconds. The local-time and daylight-saving adjustments of `differenceInDays` are not modelled.
- Text.Lower: it lower-cases ASCII letters only; full Unicode `toLowerCase` is not modelled.
- Text.LexLe: it orders by code point, not by UTF-16 code unit as the default `sort()` does. The two agree outside the supplementary planes.
- TypeChart.GetChartData: it claims neither the order of equal totals nor `Object.entries` key order, where integer-like keys come first. It also treats every type name as an ordinary key, so it does not model type names that are members of `Object.prototype` (see `TypeChart.Tally`).
- TypeChart.Tally: the tally is a plain map from type name to count. The source counts into a plain `{}` object, which inherits `Object.prototype`: a document typed `__proto__` is not counted at all, and types such as `constructor`, `toString` or `valueOf` get string totals, which the sort then compares as NaN. The model does not cover these names. For them `TypeChart.Bump`, `TypeChart.EveryDocumentIsCharted` and `TypeChart.ChartPlaceholderIffNoDocuments` (one document typed `__proto__` shows the placeholder in the source) do not hold of the program.
- TypeChart.Bump: does not model the prototype behaviour of `acc[type]` described under `TypeChart.Tally`.
- TypeChart.EveryDocumentIsCharted: false in the source for a document typed `__proto__`, which gets no bar.
- TypeChart.ChartPlaceholderIffNoDocuments: false in the source for a list whose only types are `__proto__`, which shows the placeholder.
- UploadDialog.Submit: on the image success path it is built on the corrected update `Lifecycle.ApplyMetadata`, so it promises that the record takes the AI's type and expiry. `onSubmit` as written leaves them at the placeholder's "Processing..." and no expiry (see Findings and `Lifecycle.ApplyMetadataAsWritten`).
- Lifecycle.Settle: its analysed branch uses the corrected update `Lifecycle.ApplyMetadata`; as written, the type and expiry stay at the placeholder's values (see Findings).
- IntelligentSearch.ToProjection: `null` and an absent field are both `None` here, so an absent `company`, `country` or `summary` is treated as null. The schema's `.nullable()` accepts null but rejects undefined, so the records written without those fields (the browser placeholder, the failed record and the PDF stub) fail the schema in the source but fit the projection here.
- **JavaScript edge values.**
  - `null` and `undefined` are both `None`.
  - A missing `isProcessing` reads as `false`.
  - File sizes are unbounded integers.
- **Failures of the record writes themselves.** A failed `addDoc` or `updateDoc` is not modelled: each write is taken to succeed once its inputs are known.
- **Runtime concerns.** React scheduling, memoisation and racing AI requests are concurrency and runtime concerns.
- **Pure rendering.** The layouts, login page, header, empty states, document list and folder card are pure rendering.

## Findings

| source | as written | input that shows it | evidently intended | confidence | as-written member | corrected member |
|---|---|---|---|---|---|---|
| src/components/dashboard/upload-dialog.tsx:162 | the processed update spreads the metadata object, whose type and expiry are named `documentType` and `expiryDate`, so the record's `type` and `expiry` are never written | any image the AI reads, e.g. a passport with an expiry date: the record keeps type "Processing..." and no expiry (`Lifecycle.AsWrittenLosesPassport`) | `type` takes the metadata's `documentType` and `expiry` its `expiryDate` | high; not executed | `Lifecycle.ApplyMetadataAsWritten` | `Lifecycle.ApplyMetadata` |
| src/app/api/uploadthing/core.ts:93-98 | the server's processed update spreads the same metadata object, with the same effect | any file the flows read: the record keeps type "Processing..." (`UploadRoute.ServerAsWrittenKeepsPlaceholderType`) | `type` and `expiry` take the metadata's `documentType` and `expiryDate` | high; not executed | `UploadRoute.ProcessFileAsWritten` | `UploadRoute.ProcessFile` |

The corrected updates are the ones the rest of the model uses: `Lifecycle.Settle`, `UploadDialog.Submit` and `UploadRoute.ProcessFile`.
