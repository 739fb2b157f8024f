# conceptnet-mcp core, modelled in Dafny

conceptnet-mcp is an MCP server that puts the ConceptNet knowledge-graph API
behind a set of tools. This project models the parts of it that decide what
the server returns, and proves properties of that model:

- the **pagination engine** (`PaginationHandler`). It validates the first
  page of a cursor-paginated JSON-LD response. It walks the chain of
  `nextPage` links with a cycle guard and a cap. It fetches the pages it
  found with a classified retry loop and a 50 % success threshold. It then
  merges them into one document. A streaming variant follows the chain page
  by page. HTTP is an oracle (`Pagination.Answer`): the reply depends on the
  URL and on how many requests the run has made before it. Sleeps are
  recorded, not taken;
- the **text utilities**: concept-text normalisation, building and parsing
  `/c/{language}/{term}` URIs, language codes and their aliases, truncation,
  whitespace and display clean-up, and relation labels;
- the **response processor**: language and relation filters over edges,
  the weight sort, label cleaning, edge summaries, and grouping related
  terms by relation;
- the **exception hierarchy**: error codes, the code each exception derives
  from its arguments, the registry, and the exception object whose context
  and suggestions are updated in place;
- the **pydantic models** for queries, concepts, edges and responses: their
  validators as `Result`-returning constructors, plus their helpers;
- the package-level helpers `create_safe_concept_uri`,
  `validate_and_normalize_concept` and the logging decision;
- the **`concept_query` tool**: turning parameters into URIs, building the
  query filters, and the counting part of its result analysis.

Decoded JSON is `JsonValues.Json`. Python's `None` is JSON `Null`, and a dict
is a `map`. A Python exception is `Errors.Raised` inside `Errors.Result`. A
pydantic validation failure is `Pydantic(field)`, naming the first failing
field in declaration order; a cross-field validator failure names no field.
`TypeErr` stands for a `TypeError` or an `AttributeError` that Python raises
when a value has the wrong type. Regular expressions are written out as
character-level rewrites. The Unicode tables they consult outside ASCII
(case mapping, `\w`, alphabetic and cased characters, NFC, percent
decoding) are uninterpreted constants in `Strings`.
The query-string keys of `QueryFilters.to_query_params` are the datatype
`QueryModels.Param`, and `QueryModels.ParamName` gives each key's text.
The page fetch of the stream is a function value (`Pagination.PageFetch`)
so that the stream's definition reads the same whatever the retry loop
does.

Files: `json.dfy`, `strings.dfy`, `sorting.dfy`, `filtering.dfy` (shared
vocabulary); `errors.dfy`; `text_utils.dfy`; `processor.dfy`;
`pagination.dfy`; `query_models.dfy`, `concept_models.dfy`,
`edge_models.dfy`, `response_models.dfy`; `concept_utils.dfy`;
`concept_query.dfy`.

## Model

| member | source | states |
|---|---|---|
| Pagination.ValidatePaginationStructure | src/conceptnet_mcp/client/pagination.py:502-539 | True exactly for a dict with `@id` whose `view`, if present, is a dict naming in `paginatedProperty` a property that the page holds as a list; otherwise a PaginationError for the first rule broken |
| Pagination.DetectPaginationInfo | src/conceptnet_mcp/client/pagination.py:256-297 | a missing or falsy view means no pagination, the page's `@id` (or `""`) and size 0; otherwise pagination exactly when nextPage or previousPage is truthy, the property defaulting to `edges`, and the size the length of that list |
| Pagination.DetectOnWellFormed | src/conceptnet_mcp/client/pagination.py:256-297 | on a well-formed page detection cannot fail, and a paginated page names a property it holds as a list |
| Pagination.EstimateTotalPages | src/conceptnet_mcp/client/pagination.py:299-334 | `offset // limit + 1` exactly when the view's `@id` is non-empty, its offset and limit parse (defaults 0 and 20) and the page holds fewer than `limit` items; None for an empty `@id`, for an offset or limit that `int()` rejects and for a page of `limit` items or more; the error of an unreadable item list passes through; never a division by zero |
| Pagination.ExtractNextPageUrl | src/conceptnet_mcp/client/pagination.py:177-199 | the view's truthy `nextPage`, otherwise None; a failure while reading it also gives None |
| Pagination.Backoffs | src/conceptnet_mcp/client/pagination.py:419-500 | the waits after consecutive failed attempts are 2^k seconds for attempt k |
| Pagination.RetryFrom | src/conceptnet_mcp/client/pagination.py:419-500 | the requests made before stay first; with no attempt left nothing is requested and an error is raised; whatever the loop raises is a ConceptNetAPIError |
| Pagination.RetryStep | src/conceptnet_mcp/client/pagination.py:441-497 | each attempt either ends the loop with its one request, a success carrying the page the server sent, or, before the last attempt, sleeps and hands over to the next attempt |
| Pagination.RetryRequests | src/conceptnet_mcp/client/pagination.py:441-500 | only `url` is requested, at least once and at most `max_retries + 1` times |
| Pagination.RetrySleeps | src/conceptnet_mcp/client/pagination.py:462-494 | the sleeps are 1, 2, 4, ... seconds, one fewer than the requests made |
| Pagination.RetrySuccess | src/conceptnet_mcp/client/pagination.py:446-451 | a success is the page the server sent for the last request |
| Pagination.RetryStops | src/conceptnet_mcp/client/pagination.py:452-460 | 404 and 429 raise a ConceptNetAPIError with that status after one request and no sleep |
| Pagination.DiscoverFrom | src/conceptnet_mcp/client/pagination.py:127-147 | the discovery walk appends URLs without repeats, stops at 10 URLs, at `max_pages - 1` when bounded, at a falsy link, at an already collected URL, or silently at a failed fetch |
| Pagination.DiscoveryStopsOnCycle | src/conceptnet_mcp/client/pagination.py:131-147 | on a chain A -> B -> A the walk collects B and A and stops, because the cycle check looks only at collected URLs and not at the seed's own id |
| Pagination.DiscoveryStopsOnFailure | src/conceptnet_mcp/client/pagination.py:138-147 | a page that cannot be fetched after its retries ends the walk silently, its URL kept as the last one |
| Pagination.DiscoveredUrls | src/conceptnet_mcp/client/pagination.py:127-156 | the URL list starts with the seed's next link, has no repeats and at most 10 entries, and under a bound at most `max_pages - 1` |
| Pagination.GatherFrom | src/conceptnet_mcp/client/pagination.py:336-393 | one outcome per URL, in the order of the URLs |
| Pagination.Successes | src/conceptnet_mcp/client/pagination.py:336-393 | the successful pages, in URL order |
| Pagination.SuccessesAndFailures | src/conceptnet_mcp/client/pagination.py:336-393 | every outcome is counted as exactly one success or one failure |
| Pagination.SuccessAt | src/conceptnet_mcp/client/pagination.py:336-393 | no success is lost or moved: the page of outcome i follows the successes of the outcomes before it |
| Pagination.NoSuccesses | src/conceptnet_mcp/client/pagination.py:336-393 | when every fetch fails there are no partial results |
| Pagination.FetchAll | src/conceptnet_mcp/client/pagination.py:336-393 | the successful pages in URL order; a PaginationError carrying exactly those pages when fewer than half succeeded, exactly half being accepted |
| Pagination.PacedFails | src/conceptnet_mcp/client/pagination.py:395-417 | a paced fetch of a URL that never answers with a page fails |
| Pagination.GatherStep | src/conceptnet_mcp/client/pagination.py:360-366 | each next outcome of the gather is the next paced fetch |
| Pagination.GatherAllFail | src/conceptnet_mcp/client/pagination.py:360-377 | URLs that never answer with a page all fail |
| Pagination.FetchAllFails | src/conceptnet_mcp/client/pagination.py:379-385 | when no URL answers, the bulk fetch of n >= 1 URLs raises "Too many pages failed to fetch (n/n)" with no partial results |
| Pagination.ConcatItemsAppend | src/conceptnet_mcp/client/pagination.py:231-240 | reading two runs of pages one after the other concatenates their items |
| Pagination.Merged | src/conceptnet_mcp/client/pagination.py:201-254 | `[]` raises PaginationError; a single page comes back unchanged, view included; several pages give the first page without `view` and with the concatenated list under the first page's property |
| Pagination.ConcatItemsOfLists | src/conceptnet_mcp/client/pagination.py:231-240 | for pages holding lists, the merged list is the in-order concatenation, a missing list counting as `[]` |
| Pagination.MergeConcatenates | src/conceptnet_mcp/client/pagination.py:217-245 | for pages P1..Pn (n >= 2) with lists L1..Ln, the merge is P1 without `view` and with L1 ++ ... ++ Ln |
| Pagination.CollectDiscovered | src/conceptnet_mcp/client/pagination.py:149-170 | no discovered URLs gives the first page alone; otherwise the bulk fetch of the URLs, cut to `max_pages - 1`, merged after the first page |
| Pagination.AllPagesWithoutRequests | src/conceptnet_mcp/client/pagination.py:88-126 | a malformed first page raises a PaginationError, and a page without pagination comes back as it is, both without any request |
| Pagination.AllPagesOutcome | src/conceptnet_mcp/client/pagination.py:88-175 | get_all_pages raises only a PaginationError, or returns the first page unchanged, or a merged document without pagination metadata |
| Pagination.StreamExtends | src/conceptnet_mcp/client/pagination.py:574-588 | the stream only appends: the items yielded before stay first |
| Pagination.StreamPages | src/conceptnet_mcp/client/pagination.py:574-588 | at most one page per pull, and when `max_pages` is set never more than `max_pages` pages |
| Pagination.StreamStopsOnFailure | src/conceptnet_mcp/client/pagination.py:574-588 | a fetch that fails after its retries ends the stream silently, with nothing more yielded |
| Pagination.StreamContinues | src/conceptnet_mcp/client/pagination.py:574-584 | a fetched page's items are yielded and its next link is followed, the page count going up by one |
| Pagination.StreamEndsOnPage | src/conceptnet_mcp/client/pagination.py:576-588 | a page that is not a dict, or whose property cannot be iterated, ends the stream silently |
| Pagination.StreamFollowsCycle | src/conceptnet_mcp/client/pagination.py:571-588 | a page that links to itself is fetched again and again: the stream has no cycle guard |
| Pagination.StreamAllOutcome | src/conceptnet_mcp/client/pagination.py:541-593 | stream_all_pages raises only a PaginationError for a malformed seed, before it yields anything; the seed's items come first |
| Pagination.PaginationHandler.constructor | src/conceptnet_mcp/client/pagination.py:58-86 | the handler keeps its settings |
| Pagination.PaginationHandler.FetchPageWithRetry | src/conceptnet_mcp/client/pagination.py:419-500 | the attempt loop's requests, sleeps and result are those of RetryFrom |
| Pagination.PaginationHandler.FetchPagesParallel | src/conceptnet_mcp/client/pagination.py:336-393 | the bulk fetch's requests, sleeps and result are those of FetchAll |
| Pagination.PaginationHandler.MergePaginatedResults | src/conceptnet_mcp/client/pagination.py:201-254 | the in-place merge of a copy returns Merged, and the input pages are unchanged |
| Pagination.PaginationHandler.GetAllPages | src/conceptnet_mcp/client/pagination.py:88-175 | the discovery loop and the bulk fetch return what AllPages specifies, with its requests and sleeps |
| Pagination.PaginationHandler.StreamAllPages | src/conceptnet_mcp/client/pagination.py:541-593 | the seed's items, then the cursor loop's, as StreamFrom specifies |
| Pagination.PaginationHandler.PullPage | src/conceptnet_mcp/client/pagination.py:574-588 | one turn of the cursor loop either stops the stream where StreamFrom stops, or moves it to the state StreamFrom moves to |
| Pagination.PaginationHandler.StreamChain | src/conceptnet_mcp/client/pagination.py:570-588 | the cursor loop yields the items and makes the requests that StreamFrom specifies |
| Pagination.PaginationHandler.ConcatPageItems | src/conceptnet_mcp/client/pagination.py:231-240 | the loop over the later pages concatenates their items as ConcatItems specifies, failing as it does |
| TextUtils.AliasTableConsistent | src/conceptnet_mcp/utils/text_utils.py:59-64 | every alias maps to a supported code |
| TextUtils.AliasEntriesConsistent | src/conceptnet_mcp/utils/text_utils.py:59-64 | the alias entries in order agree with the alias table |
| TextUtils.FirstAliasesConsistent | src/conceptnet_mcp/utils/text_utils.py:59-64 | each of the first six alias entries is in the alias table with its code |
| TextUtils.LastAliasesConsistent | src/conceptnet_mcp/utils/text_utils.py:59-64 | each of the remaining alias entries is in the alias table with its code |
| TextUtils.AliasEntriesSupported | src/conceptnet_mcp/utils/text_utils.py:59-64 | every alias entry's code is supported |
| TextUtils.SupportedRow1Shape | src/conceptnet_mcp/utils/text_utils.py:49-56 | the first row of supported codes is two lower-case ASCII letters each |
| TextUtils.SupportedRow2Shape | src/conceptnet_mcp/utils/text_utils.py:49-56 | the second row of supported codes is two lower-case ASCII letters each |
| TextUtils.SupportedRow3Shape | src/conceptnet_mcp/utils/text_utils.py:49-56 | the third row of supported codes is two lower-case ASCII letters each |
| TextUtils.SupportedRow4Shape | src/conceptnet_mcp/utils/text_utils.py:49-56 | the fourth row of supported codes is two lower-case ASCII letters each |
| TextUtils.SupportedRow5Shape | src/conceptnet_mcp/utils/text_utils.py:49-56 | the fifth row of supported codes is two lower-case ASCII letters each |
| TextUtils.SupportedRow6Shape | src/conceptnet_mcp/utils/text_utils.py:49-56 | the sixth row of supported codes is two lower-case ASCII letters each |
| TextUtils.SupportedShape | src/conceptnet_mcp/utils/text_utils.py:49-56 | every supported code is two lower-case ASCII letters |
| TextUtils.RegionalShape | src/conceptnet_mcp/utils/text_utils.py:67-69 | the regional codes are a language, `-`, and a region |
| TextUtils.AliasShape | src/conceptnet_mcp/utils/text_utils.py:59-64 | alias names are at least five characters long with a letter third |
| TextUtils.CleanTermForm | src/conceptnet_mcp/utils/text_utils.py:158-176 | whatever goes in, the cleaned term holds only word characters and `_`, with no two `_` in a row and none at either end |
| TextUtils.NormalizedTermForm | src/conceptnet_mcp/utils/text_utils.py:118-190 | the normalised term always has the concept shape |
| TextUtils.NormalizeConceptTextOutcome | src/conceptnet_mcp/utils/text_utils.py:278-311 | text over the limit raises ValidationError before any processing; an invalid language raises InvalidLanguageError; blank text gives `""`; otherwise a concept-shaped term that never exceeds the limit |
| TextUtils.ValidateTextLength | src/conceptnet_mcp/utils/text_utils.py:193-210 | a ValidationError for the field exactly when the text is longer than the limit |
| TextUtils.NormalizeLanguageCode | src/conceptnet_mcp/utils/text_utils.py:546-586 | a success is a known code; a failure is the InvalidLanguageError of the input |
| TextUtils.NormalizeLanguageCodeRule | src/conceptnet_mcp/utils/text_utils.py:546-586 | for every input: a non-empty language gives the code that lower-casing, stripping and the alias table make of it when that code is known, and an InvalidLanguageError otherwise; the code it gives normalises to itself |
| TextUtils.ValidateLanguageCodeIff | src/conceptnet_mcp/utils/text_utils.py:589-638 | a code is valid exactly when it is its own lower case and strip, 2 to 6 characters long, and a known code or an alias |
| TextUtils.ValidCodeIsKnown | src/conceptnet_mcp/utils/text_utils.py:589-638 | a valid code is a known code or an alias |
| TextUtils.KnownNormalCodeIsValid | src/conceptnet_mcp/utils/text_utils.py:589-638 | a known code in normal form is valid |
| TextUtils.AliasNormalizes | src/conceptnet_mcp/utils/text_utils.py:546-586 | an alias in normal form normalises to its code |
| TextUtils.CodeNormalizes | src/conceptnet_mcp/utils/text_utils.py:546-586 | a known code in normal form that is no alias normalises to itself |
| TextUtils.ValidCodeNormalizes | src/conceptnet_mcp/utils/text_utils.py:546-586 | a valid code normalises to itself or, for an alias, to its code |
| TextUtils.EnglishIsValid | src/conceptnet_mcp/utils/text_utils.py:589-638 | English, the fallback language, is valid |
| TextUtils.SupportedMatches | src/conceptnet_mcp/utils/text_utils.py:641-670 | the supported codes, in iteration order, that overlap the language |
| TextUtils.AliasMatches | src/conceptnet_mcp/utils/text_utils.py:641-670 | the codes of the alias entries whose names overlap the language |
| TextUtils.SimilarLanguagesSound | src/conceptnet_mcp/utils/text_utils.py:641-670 | suggestions are distinct supported codes, at most `max_suggestions` of them |
| TextUtils.FindSimilarLanguages | src/conceptnet_mcp/utils/text_utils.py:641-670 | the two loops compute the specified suggestion list |
| TextUtils.SupportedMatching | src/conceptnet_mcp/utils/text_utils.py:641-670 | the first loop computes the supported codes that overlap the language, in iteration order |
| TextUtils.AliasMatching | src/conceptnet_mcp/utils/text_utils.py:641-670 | the second loop appends the codes of the alias entries whose names overlap the language |
| TextUtils.ParseConceptUri | src/conceptnet_mcp/utils/text_utils.py:398-523 | rejects an empty URI, a non-`/c/` prefix, fewer than 4 parts and an empty language or term; a URI over 500 characters raises ValidationError; an invalid language raises TypeError; otherwise language `parts[2]` and the unquoted rest as the term |
| TextUtils.SlashCParts | src/conceptnet_mcp/utils/text_utils.py:437-463 | a URI starting with `/c/` splits into `""`, `"c"` and the pieces of the rest |
| TextUtils.ValidateConceptUri | src/conceptnet_mcp/utils/text_utils.py:526-543 | true when the URI parses, false when parsing rejects it; the TypeError of an invalid language passes through |
| TextUtils.ConstructConceptUri | src/conceptnet_mcp/utils/text_utils.py:317-395 | a blank term raises ValidationError; otherwise `/c/{lang}/{term}` with the language and term normalised as the flags ask, the validation result being discarded |
| TextUtils.ConstructTerm | src/conceptnet_mcp/utils/text_utils.py:338-381 | the term part: normalised, or lower-cased with `_` for spaces, or only stripped; empty after normalisation, or a space under validation without normalisation, raises ValidationError |
| TextUtils.ConceptPath | src/conceptnet_mcp/utils/text_utils.py:386-395 | `/c/{lang}/{t}`, checked by validate_concept_uri when asked, its verdict ignored |
| TextUtils.ConceptUriParts | src/conceptnet_mcp/utils/text_utils.py:389-395 | `/c/{l}/{t}` splits into `""`, `"c"`, `l` and `t` for a language and term without `/` |
| TextUtils.ConceptFormHasNoSlash | src/conceptnet_mcp/utils/text_utils.py:158-176 | a concept-shaped term holds no `/` and no `%` |
| TextUtils.KnownCodeIsValid | src/conceptnet_mcp/utils/text_utils.py:49-69 | a code from the language table holds no `/`, is valid and normalises to itself |
| TextUtils.CodeIsNormal | src/conceptnet_mcp/utils/text_utils.py:49-56 | a code of the table's shape is its own lower case and strip |
| TextUtils.ConstructThenParse | src/conceptnet_mcp/utils/text_utils.py:317-395 | constructing a URI with validation and parsing it back gives the normalised language and the normalised term |
| TextUtils.ValidPathIsKept | src/conceptnet_mcp/utils/text_utils.py:526-543 | a path that parses passes validation unchanged |
| TextUtils.ParseConceptPath | src/conceptnet_mcp/utils/text_utils.py:465-474 | parsing `/c/{lang}/{t}` for a valid code and a short term without `/` or `%` gives back the code and the term |
| TextUtils.EnglishRoundTrip | src/conceptnet_mcp/utils/text_utils.py:389-395 | parsing the English URI of a text gives back `en` and the normalised term |
| TextUtils.TruncateTextSafely | src/conceptnet_mcp/utils/text_utils.py:854-890 | never longer than the limit; text that fits is unchanged; empty text or a limit <= 0 gives `""`; with room for it, a truncated result ends with the indicator |
| TextUtils.SanitizedForm | src/conceptnet_mcp/utils/text_utils.py:893-946 | sanitised text holds only safe characters and `_`, never two `_` in a row, and none at either end |
| TextUtils.SanitizedTailForm | src/conceptnet_mcp/utils/text_utils.py:920-946 | after the control characters are gone, the later steps leave only safe characters and `_`, no `_` twice in a row and none at either end |
| TextUtils.UnifyNewlines | src/conceptnet_mcp/utils/text_utils.py:949-991 | `\r\n` and `\r` become `\n`, leaving no carriage return |
| TextUtils.SpacingTail | src/conceptnet_mcp/utils/text_utils.py:949-991 | the last two passes and the strip remove wide spaces and leave single spaces between words |
| TextUtils.UnbrokenBeforeTail | src/conceptnet_mcp/utils/text_utils.py:949-991 | with newline handling, no tab, vertical tab, form feed or line break remains before the last passes |
| TextUtils.UntabbedBeforeTail | src/conceptnet_mcp/utils/text_utils.py:949-991 | without newline handling, no tab, vertical tab or form feed remains before the last passes |
| TextUtils.CleanWhitespaceForm | src/conceptnet_mcp/utils/text_utils.py:949-991 | cleaned text has no tab, vertical tab or form feed, no two spaces in a row, no whitespace at either end, and with newline handling no line breaks |
| TextUtils.DisplaySpacingForm | src/conceptnet_mcp/utils/text_utils.py:1040-1071 | display text holds no `_` and only single spaces between words |
| TextUtils.NormalizeTextForDisplay | src/conceptnet_mcp/utils/text_utils.py:1040-1071 | never longer than the text, under the one-to-one case mapping of the model |
| TextUtils.DisplayTitleRule | src/conceptnet_mcp/utils/text_utils.py:1054-1071 | for every input: `""` for empty text, else the spaced text, title-cased when it is all lower case and at most five words long; title-casing keeps the spaces between the words in place |
| TextUtils.DisplayIgnoresUnderscores | src/conceptnet_mcp/utils/text_utils.py:1040-1071 | display text does not depend on whether words were joined by `_` or by spaces |
| TextUtils.ValidFormatConstructs | src/conceptnet_mcp/utils/text_utils.py:994-1037 | a text of valid concept format becomes an English concept URI |
| TextUtils.EnglishConstructs | src/conceptnet_mcp/utils/text_utils.py:317-395 | text that normalises to a non-empty English term becomes `/c/en/` followed by that term |
| TextUtils.KnownCodeConstructs | src/conceptnet_mcp/utils/text_utils.py:317-395 | with a table code, text that normalises to a non-empty term becomes `/c/{code}/{term}` |
| TextUtils.KnownCodeTerm | src/conceptnet_mcp/utils/text_utils.py:317-395 | with a valid code, a non-empty normalised term comes from non-blank text, is what term construction gives, and has no `/`, no `%` and at most the maximum length |
| TextUtils.NormalizeUriToText | src/conceptnet_mcp/utils/text_utils.py:1074-1108 | the display text of the parsed term; when parsing rejects the URI, that of everything after the third `/`, or the URI itself |
| TextUtils.ExtractLanguageFromUri | src/conceptnet_mcp/utils/text_utils.py:1147-1173 | the parsed language; when parsing rejects the URI, the third segment of a `/c/` path if it is a valid code |
| TextUtils.CamelSpace | src/conceptnet_mcp/utils/text_utils.py:1111-1144 | a space at every boundary from an ASCII lower-case letter to an upper-case one |
| TextUtils.CamelSpaceOnlyInsertsSpaces | src/conceptnet_mcp/utils/text_utils.py:1111-1144 | the boundary rewrite only inserts spaces |
| TextUtils.RelationTextOfKnown | src/conceptnet_mcp/utils/text_utils.py:1126-1128 | a relation URI in the table reads as the table's text |
| TextUtils.RelationTextOfName | src/conceptnet_mcp/utils/text_utils.py:1130-1144 | an ASCII relation URI outside the table keeps no upper-case letter, and apart from spaces reads as its name after `/r/`, lower-cased, in order |
| Processor.LanguageFromId | src/conceptnet_mcp/client/processor.py:56-82 | the language extract_language_from_uri reads off a concept id |
| Processor.ExtractLanguageFromConcept | src/conceptnet_mcp/client/processor.py:56-82 | an explicit `language` entry wins; otherwise a non-empty `@id` decides, even when it names no language; the label pattern counts only without an id |
| Processor.IdDecidesLanguage | src/conceptnet_mcp/client/processor.py:66-73 | with a non-empty `@id` and no `language`, any label gives the same answer |
| Processor.LabelNamesLanguage | src/conceptnet_mcp/client/processor.py:66-82 | without `language` and `@id`, a label `/c/<lang>/...` names its language segment |
| Processor.LabelLanguageSegment | src/conceptnet_mcp/client/processor.py:76-80 | a label `/c/<lang>/<rest>` without further slashes in the two parts names `<lang>` |
| Processor.LanguageMatch | src/conceptnet_mcp/client/processor.py:105-123 | an edge is kept when both ends, or without require_both either end, are in the target language |
| Processor.FilterByLanguage | src/conceptnet_mcp/client/processor.py:84-125 | the edges unchanged for an empty target; otherwise the loop's result is the specified filter |
| Processor.FilterByLanguageMeaning | src/conceptnet_mcp/client/processor.py:105-123 | for a non-empty target, an order-preserving subsequence whose kept edges have both ends (or one end) in the language, holding every such edge |
| Processor.AddLanguage | src/conceptnet_mcp/client/processor.py:482-503 | a truthy language is added; an unhashable one raises |
| Processor.GetConceptLanguages | src/conceptnet_mcp/client/processor.py:482-503 | the loop collects the specified set of languages |
| Processor.ConceptLanguagesComplete | src/conceptnet_mcp/client/processor.py:482-503 | the set holds exactly the truthy languages of the ends of the edges |
| Processor.FilteredLanguageIsPresent | src/conceptnet_mcp/client/processor.py:482-503 | every language that filter_by_language keeps edges for is among the reported languages |
| Processor.RelationTargets | src/conceptnet_mcp/client/processor.py:505-540 | the relation types searched for, lower-cased; a single string stands for a list of one |
| Processor.LowerAll | src/conceptnet_mcp/client/processor.py:520-523 | lower-casing the relation types succeeds exactly when all are strings, and keeps their order |
| Processor.RelationTexts | src/conceptnet_mcp/client/processor.py:520-540 | the relation's `@id`, `label` and `normalized_label`, lower-cased |
| Processor.MentionsAny | src/conceptnet_mcp/client/processor.py:520-540 | the inner loop finds whether any relation type occurs in one of the texts |
| Processor.FilterEdgesByRelation | src/conceptnet_mcp/client/processor.py:505-540 | the loop's result is the specified filter |
| Processor.FilterEdgesByRelationMeaning | src/conceptnet_mcp/client/processor.py:520-540 | an order-preserving subsequence, each edge at most once, holding exactly the edges whose relation texts contain a target, ignoring case |
| Processor.SortEdgesByWeight | src/conceptnet_mcp/client/processor.py:542-561 | a permutation ordered by weight (missing = 0), non-increasing unless ascending is asked; raises for a non-dict or for weights Python cannot compare |
| Processor.SortEdgesByWeightTotal | src/conceptnet_mcp/client/processor.py:557-561 | with numeric weights the sort always succeeds |
| Processor.RemoveWordNetTags | src/conceptnet_mcp/client/processor.py:215-249 | every `/Wn/` is removed with the word characters after it |
| Processor.RemovePosTags | src/conceptnet_mcp/client/processor.py:215-249 | a `/` with a maximal run of capitals after it is removed where the run ends at a word boundary |
| Processor.RemoveFinalSlash | src/conceptnet_mcp/client/processor.py:215-249 | a final `/` is removed |
| Processor.CleanConceptLabel | src/conceptnet_mcp/client/processor.py:215-249 | non-strings and empty labels come back as they are, and a label that cleaning empties falls back to the original, so a non-empty label never becomes empty |
| Processor.CleanPlainLabel | src/conceptnet_mcp/client/processor.py:230-249 | cleaning leaves a plain label as it is |
| Processor.CreateEdgeSummary | src/conceptnet_mcp/client/processor.py:251-297 | the surface text when it is longer than ten characters, otherwise "start relation end" |
| Processor.SummaryOfPlainLabels | src/conceptnet_mcp/client/processor.py:289-293 | for plain labels and no surface text the summary reads "start relation end" |
| Processor.Phrase | src/conceptnet_mcp/client/processor.py:293 | "start relation end" begins with the start label and a space and ends with a space and the end label |
| Processor.NodeSummaryLabel | src/conceptnet_mcp/client/processor.py:251-297 | a node with only a plain label shows that label |
| Processor.SummaryReadsParts | src/conceptnet_mcp/client/processor.py:251-297 | the summary reads only the start, end, relation and surface text |
| Processor.NormalizeText | src/conceptnet_mcp/client/processor.py:41-54 | a falsy value gives `""`; a string gives its display text; a truthy value that is not a string raises |
| Processor.NormalizeConceptNode | src/conceptnet_mcp/client/processor.py:127-160 | a falsy node comes back as it is, a truthy non-dict raises, and a normalised node keeps every key and every entry other than the label, id and language entries it writes |
| Processor.NormalizedNodeEntries | src/conceptnet_mcp/client/processor.py:140-158 | the label becomes a string and a changed label keeps its original under `_original_label`; a truthy id is kept under `_original_id`; an explicit language is kept |
| Processor.WithIdEntries | src/conceptnet_mcp/client/processor.py:143-146 | the id's text and the id are added under `normalized_label` and `_original_id`, every other entry kept |
| Processor.NormalizeField | src/conceptnet_mcp/client/processor.py:149-153 | a missing entry leaves the dict as it is; otherwise the entry becomes a string, a changed value is kept under the original key, and every other entry stays |
| Processor.LanguageEntry | src/conceptnet_mcp/client/processor.py:156-158 | every key is kept and every entry other than `language`; an existing `language` entry is kept as it was |
| Processor.IdEntries | src/conceptnet_mcp/client/processor.py:127-160 | a non-empty id gives the `normalized_label` and `_original_id` entries |
| Processor.NormalizeRelation | src/conceptnet_mcp/client/processor.py:184-201 | the relation in display form, with a text for its id and its label |
| Processor.NormalizeRelationAt | src/conceptnet_mcp/client/processor.py:185-201 | the edge keeps its keys, and every entry other than `rel` |
| Processor.RelationIdEntries | src/conceptnet_mcp/client/processor.py:189-192 | a non-empty relation id gives the `normalized_label` and `_original_id` entries |
| Processor.NormalizeNodeAt | src/conceptnet_mcp/client/processor.py:177-182 | the node under a key in display form, when the edge has one |
| Processor.NormalizeEdge | src/conceptnet_mcp/client/processor.py:162-213 | a copy of the edge with its nodes, relation and surface text in display form, and always a `readable_summary` |
| Processor.WithSummary | src/conceptnet_mcp/client/processor.py:210-211 | every entry is kept and `readable_summary` holds the summary of the edge it is added to |
| Processor.RelationKey | src/conceptnet_mcp/client/processor.py:727-732 | a relation key is lower-cased with `_` for spaces |
| Processor.Terms | src/conceptnet_mcp/client/processor.py:758-767 | the terms listed under a relation |
| Processor.AddTerm | src/conceptnet_mcp/client/processor.py:756-767 | a label is added unless it is empty or already listed |
| Processor.AddTermKeepsGrouping | src/conceptnet_mcp/client/processor.py:756-767 | adding a term keeps the keys without spaces and the lists free of empty and repeated terms |
| Processor.AddEdgeRelationships | src/conceptnet_mcp/client/processor.py:724-771 | one turn of the loop: an unreadable edge is skipped, otherwise both labels are added under the relation's key |
| Processor.AddEdgeKeepsGrouping | src/conceptnet_mcp/client/processor.py:724-771 | a turn of the loop keeps the grouping invariant |
| Processor.GroupedIsWellGrouped | src/conceptnet_mcp/client/processor.py:722-771 | the grouping over all edges satisfies the invariant |
| Processor.ExtractRelationshipsByType | src/conceptnet_mcp/client/processor.py:712-781 | the loop computes the specified grouping, each list sorted by weight |
| Processor.InsertKeepsDistinct | src/conceptnet_mcp/client/processor.py:773-779 | inserting while sorting keeps the terms distinct |
| Processor.SortKeepsDistinct | src/conceptnet_mcp/client/processor.py:773-779 | sorting a list keeps its terms distinct |
| Processor.RelationshipsByTypeShape | src/conceptnet_mcp/client/processor.py:722-781 | keys have no spaces, and lists hold no empty or repeated terms and are sorted by weight, highest first |
| Errors.CodeOfValue | src/conceptnet_mcp/utils/exceptions.py:35-80 | looking an error code up by its value |
| Errors.CodeValueRoundTrip | src/conceptnet_mcp/utils/exceptions.py:35-80 | looking a code up by its value finds that code, and the thousands digit is the category |
| Errors.CodeValuesDistinct | src/conceptnet_mcp/utils/exceptions.py:35-80 | no two codes share a value |
| Errors.AllCodesComplete | src/conceptnet_mcp/utils/exceptions.py:35-80 | the member list holds every code |
| Errors.ExceptionForCode | src/conceptnet_mcp/utils/exceptions.py:1042-1052 | the registered class, falling back to ConceptNetMCPError |
| Errors.RegistryComplete | src/conceptnet_mcp/utils/exceptions.py:1012-1039 | every code is registered, and the API codes map exactly to the ConceptNetAPIError family |
| Errors.ApiErrorCode | src/conceptnet_mcp/utils/exceptions.py:258-265 | 429 gives API_RATE_LIMIT_ERROR, other 4xx API_CLIENT_ERROR, 5xx API_SERVER_ERROR, anything else or None API_CONNECTION_ERROR |
| Errors.ApiSuggestions | src/conceptnet_mcp/utils/exceptions.py:267-278 | the waiting suggestions for the rate-limit code, the retry suggestions for the server-error code, the lookup suggestions for a 404 and none for other client errors or the connection-error code |
| Errors.ValidationErrorCode | src/conceptnet_mcp/utils/exceptions.py:627-634 | the code from the lower-cased `expected` text: required, then type, then the range words, else FIELD_INVALID |
| Errors.PaginationErrorCode | src/conceptnet_mcp/utils/exceptions.py:751-760 | the code from the lower-cased message: offset, then limit, then "page not found", then "merge", else INVALID_OFFSET |
| Errors.PaginationSuggestions | src/conceptnet_mcp/utils/exceptions.py:741-748 | three fixed suggestions, then "Use partial results" exactly when partial results were carried |
| Errors.InvalidUriRejectsReason | src/conceptnet_mcp/utils/exceptions.py:369-375 | InvalidConceptURIError accepts no `reason` keyword, so the call with one raises TypeError |
| Errors.McpException.constructor | src/conceptnet_mcp/utils/exceptions.py:99-126 | the exception keeps its class, message, code, details, suggestions and context |
| Errors.McpException.AddContext | src/conceptnet_mcp/utils/exceptions.py:128-140 | sets exactly one context key, changes nothing else, and returns the same object |
| Errors.McpException.AddSuggestion | src/conceptnet_mcp/utils/exceptions.py:142-153 | appends exactly one suggestion, changes nothing else, and returns the same object |
| Errors.McpException.ToDict | src/conceptnet_mcp/utils/exceptions.py:155-170 | the class name, message, code name and value, details, suggestions and context |
| Errors.StrList | src/conceptnet_mcp/utils/exceptions.py:155-170 | the suggestions as a JSON list of strings |
| Errors.ToDictIdentifiesCode | src/conceptnet_mcp/utils/exceptions.py:155-170 | the code name and value both identify the exception's code, and the message and suggestions are the exception's |
| Errors.RenderShape | src/conceptnet_mcp/utils/exceptions.py:172-177 | `str(e)` is `[CODE] message` exactly when there are no suggestions, and otherwise that text followed by the joined suggestions |
| Errors.NewApiError | src/conceptnet_mcp/utils/exceptions.py:248-295 | a ConceptNetAPIError with the code and suggestions its status selects and the request context |
| Errors.NewValidationError | src/conceptnet_mcp/utils/exceptions.py:607-653 | a ValidationError with the code its `expected` text selects and the field context |
| Errors.NewPaginationError | src/conceptnet_mcp/utils/exceptions.py:732-779 | a PaginationError with the code its message selects, partial results defaulting to `[]` |
| Errors.ApiStatusExamples | src/conceptnet_mcp/utils/exceptions.py:258-265 | 429, 404, 503, None and 0 select the codes the exception tests expect |
| QueryModels.CheckQueryLogic | src/conceptnet_mcp/models/query.py:73-89 | accepted exactly when `other` has `node`, the two differ, and one of start, end, rel, node and sources is set |
| QueryModels.QueryFiltersAccepted | src/conceptnet_mcp/models/query.py:45-89 | accepted exactly when the concept fields start with `/c/`, `rel` with `/r/`, 1 <= limit <= 1000, offset >= 0 and the logic rules hold |
| QueryModels.FieldRuleReportedFirst | src/conceptnet_mcp/models/query.py:45-89 | a field rule failure is reported before the model rules |
| QueryModels.ToQueryParams | src/conceptnet_mcp/models/query.py:91-116 | `limit` and `offset` are always present |
| QueryModels.ParamOfFilter | src/conceptnet_mcp/models/query.py:98-111 | a filter name is a parameter exactly when its field is set, and then it holds the field's value |
| QueryModels.ParamNamesDistinct | src/conceptnet_mcp/models/query.py:98-114 | the eight parameter names are different strings, so no entry overwrites another |
| QueryModels.GetSpecifiedFilters | src/conceptnet_mcp/models/query.py:118-138 | exactly the filter names whose fields are set; never `limit` or `offset` |
| QueryModels.ParamsAreSpecifiedFilters | src/conceptnet_mcp/models/query.py:91-138 | the parameter keys are the specified filters plus `limit` and `offset`, and those two read back as the query's numbers |
| QueryModels.AcceptedQuerySpecifiesFilter | src/conceptnet_mcp/models/query.py:73-89 | an accepted query specifies at least one filter |
| QueryModels.ValidateLanguageField | src/conceptnet_mcp/models/query.py:176-182 | None passes; otherwise accepted exactly for 2-3 alphabetic characters, returned lower-cased |
| QueryModels.ValidatedAsciiCodeIsLower | src/conceptnet_mcp/models/query.py:176-182 | an accepted ASCII code is lower-case letters |
| QueryModels.TermSegment | src/conceptnet_mcp/models/query.py:184-188 | the term with `_` for spaces, lower-cased, of the same length |
| QueryModels.ConceptPath | src/conceptnet_mcp/models/query.py:184-188 | `/c/{language}/` followed by the term segment |
| QueryModels.ConceptPathParts | src/conceptnet_mcp/models/query.py:184-188 | the path splits back into the language and the term segment |
| QueryModels.NewConceptLookupQuery | src/conceptnet_mcp/models/query.py:152-182 | accepted exactly when the language is valid, and it is kept lower-cased |
| QueryModels.ConceptLookupUri | src/conceptnet_mcp/models/query.py:184-188 | the URI is under `/c/{language}/` |
| QueryModels.NewRelatedConceptsQuery | src/conceptnet_mcp/models/query.py:214-227 | accepted exactly when the language is valid and 1 <= limit <= 100 |
| QueryModels.RelatedConceptsUri | src/conceptnet_mcp/models/query.py:229-232 | the URI is under `/c/{language}/` |
| QueryModels.NewRelatednessQuery | src/conceptnet_mcp/models/query.py:262-268 | accepted exactly when both languages are valid, kept lower-cased |
| QueryModels.RelatednessUris | src/conceptnet_mcp/models/query.py:270-276 | each URI is under its own language, and equal inputs give equal URIs |
| ConceptModels.LanguagePatternNewline | src/conceptnet_mcp/models/concept.py:48-54 | a code passes the pattern with or without one final newline, but not with two |
| ConceptModels.NewConceptNode | src/conceptnet_mcp/models/concept.py:40-54 | accepted exactly when the id starts with `/c/` and the language matches `^[a-z]{2,3}$`, the id reported first |
| ConceptModels.NewConcept | src/conceptnet_mcp/models/concept.py:76-95 | accepted exactly when the id starts with `/c/`, every edge is a dict and the view is absent, null or a dict; a failure names the first failing field of id, edges, view |
| ConceptModels.RelationSuffixMatch | src/conceptnet_mcp/models/concept.py:102-115 | true exactly when the relation's string id ends with `/relation`; wrong types raise |
| ConceptModels.EdgesWithRelation | src/conceptnet_mcp/models/concept.py:102-115 | never more edges than given |
| ConceptModels.EdgesWithRelationMeaning | src/conceptnet_mcp/models/concept.py:102-115 | an order-preserving subsequence holding exactly the edges whose relation id ends with `/relation` |
| ConceptModels.EdgesWithRelationTotal | src/conceptnet_mcp/models/concept.py:102-115 | edges shaped as ConceptNet sends them never make the filter raise |
| ConceptModels.FilterEdgesByRelation | src/conceptnet_mcp/models/concept.py:102-115 | the concept's edges whose relation id ends with `/relation`, in order |
| ConceptModels.BothEndsIn | src/conceptnet_mcp/models/concept.py:117-133 | true exactly when start and end are both in the language |
| ConceptModels.FilterEdgesByLanguage | src/conceptnet_mcp/models/concept.py:117-133 | the loop computes the specified filter |
| ConceptModels.FilterEdgesByLanguageMeaning | src/conceptnet_mcp/models/concept.py:117-133 | an order-preserving subsequence holding exactly the edges with both ends in the language |
| ConceptModels.MissingLanguageOnlyMatchesEmpty | src/conceptnet_mcp/models/concept.py:117-133 | a missing language reads as `""`, so such an edge is kept only for the empty language |
| EdgeModels.NewRelation | src/conceptnet_mcp/models/edge.py:29-35 | accepted exactly when the id starts with `/r/` |
| EdgeModels.NewSource | src/conceptnet_mcp/models/edge.py:71-77 | accepted exactly when the id starts with `/s/` |
| EdgeModels.NewEdge | src/conceptnet_mcp/models/edge.py:131-145 | accepted exactly when the id starts with `/a/` and the weight is not negative |
| EdgeModels.GetOtherConcept | src/conceptnet_mcp/models/edge.py:178-192 | the end when the start matches, the start when only the end matches, else None; a result exactly when the edge involves the concept |
| EdgeModels.OtherOfOther | src/conceptnet_mcp/models/edge.py:178-192 | with distinct ends, the other concept's other concept is the one started from |
| EdgeModels.SelfLoopOther | src/conceptnet_mcp/models/edge.py:178-192 | on a self-loop the other concept is the end |
| EdgeModels.GetPrimarySource | src/conceptnet_mcp/models/edge.py:157-164 | the first source, present exactly when there are sources |
| EdgeModels.ToNaturalLanguage | src/conceptnet_mcp/models/edge.py:194-205 | a truthy surface text, otherwise the start label, the relation label and the end label joined by spaces |
| EdgeModels.NaturalLanguageMiddle | src/conceptnet_mcp/models/edge.py:194-205 | the generated sentence holds the relation label lower-cased between the two labels |
| ResponseModels.PaginatedNavigation | src/conceptnet_mcp/models/response.py:379-387 | next and previous pages exist exactly when a view is present and has the link |
| ResponseModels.WithExpectedContext | src/conceptnet_mcp/models/response.py:77-85 | the result contains the expected context, appended only when it was missing |
| ResponseModels.WithExpectedContextIdempotent | src/conceptnet_mcp/models/response.py:77-85 | validating twice is validating once |
| ResponseModels.ContextList.constructor | src/conceptnet_mcp/models/response.py:77-85 | the list holds the items given |
| ResponseModels.ValidateContext | src/conceptnet_mcp/models/response.py:77-85 | appends in place and returns the same list, now WithExpectedContext of the old one |
| ResponseModels.GetEdgesByRelation | src/conceptnet_mcp/models/response.py:115-128 | in order, exactly the edges whose relation id ends with `/relation` |
| ResponseModels.NodeId | src/conceptnet_mcp/models/response.py:162-175 | the node's `@id` when present |
| ResponseModels.UniqueConceptSetMeaning | src/conceptnet_mcp/models/response.py:162-175 | an id is collected exactly when some edge's start or end has it |
| ResponseModels.CollectConceptIds | src/conceptnet_mcp/models/response.py:162-175 | the loop over the edges collects the specified set of ids, raising where it does |
| ResponseModels.AddSideIdMeaning | src/conceptnet_mcp/models/response.py:162-175 | one side adds its id when present |
| ResponseModels.GetUniqueConcepts | src/conceptnet_mcp/models/response.py:162-175 | a strictly sorted list without duplicates holding exactly the start and end ids present |
| ResponseModels.SortedIds | src/conceptnet_mcp/models/response.py:162-175 | the collected ids in ascending order, raising when Python cannot compare them |
| ResponseModels.GetTopRelated | src/conceptnet_mcp/models/response.py:200-216 | the first min(n, len) edges of the weight sort, highest first (for a negative n, all but the last -n); drawn from the input, and none left out outweighs one kept |
| ResponseModels.TopIsPrefix | src/conceptnet_mcp/models/response.py:200-216 | the top n is the first n of the full sort |
| ResponseModels.NewRelatednessResponse | src/conceptnet_mcp/models/response.py:243-249 | accepted exactly when the score is within [0, 1] |
| ResponseModels.RelationshipStrength | src/conceptnet_mcp/models/response.py:261-277 | the strength band of the score |
| ResponseModels.StrengthAgreesWithFlags | src/conceptnet_mcp/models/response.py:251-277 | the strength names agree with the strong and weak flags |
| ResponseModels.ErrorFlagsAgreeWithApiCode | src/conceptnet_mcp/models/response.py:337-345 | client error exactly for 4xx, server error exactly for 5xx, neither for None, never both |
| ConceptUtils.CreateSafeConceptUri | src/conceptnet_mcp/utils/__init__.py:248-280 | the URI as built; on an invalid language the English URI; any other failure, or a failed retry, a CONCEPT_URI_INVALID error |
| ConceptUtils.UnknownLanguageFallsBackToEnglish | src/conceptnet_mcp/utils/__init__.py:265-270 | an unknown language gives `/c/en/` followed by the normalised term |
| ConceptUtils.BlankTermFails | src/conceptnet_mcp/utils/__init__.py:265-280 | a blank term fails whatever the language |
| ConceptUtils.LanguageStep | src/conceptnet_mcp/utils/__init__.py:316-327 | the normalised code, or English with one error and the warning "Fell back to English language" |
| ConceptUtils.ValidateAndNormalizeConcept | src/conceptnet_mcp/utils/__init__.py:283-352 | a ValidationError, or a valid report holding the inputs, the language step's code (`en` on fallback), errors and warnings, the term normalised for that code and the URI they construct |
| ConceptUtils.BlankTermInvalid | src/conceptnet_mcp/utils/__init__.py:328-345 | a blank term always ends in a ValidationError |
| ConceptUtils.ReportUriShape | src/conceptnet_mcp/utils/__init__.py:329-341 | a valid report's URI is under `/c/{language}/` and its term has the concept shape |
| ConceptUtils.UriUnderLanguage | src/conceptnet_mcp/utils/__init__.py:329-341 | a URI built with an already normalised code comes from a non-empty term and is under `/c/{language}/` |
| ConceptUtils.LoggingForEnvironment | src/conceptnet_mcp/utils/__init__.py:229-245 | production, in any case, needs a log file and raises ValueError without one; any other environment gets development logging |
| ConceptUtils.EnvironmentCaseInsensitive | src/conceptnet_mcp/utils/__init__.py:240-243 | "Production" and "PRODUCTION" both select production |
| ConceptQuery.ConvertConceptParam | src/conceptnet_mcp/tools/concept_query.py:179-199 | None stays None; `""` raises a validation error; a kept value is a `/c/` URI |
| ConceptQuery.ConceptParamRule | src/conceptnet_mcp/tools/concept_query.py:185-197 | for every value: a `/c/` value is kept when another `/` follows the prefix (four parts) and is an invalid concept URI otherwise; other text gives create_concept_uri's URI, or a ValidationError for the parameter carrying its error |
| ConceptQuery.ConvertRelation | src/conceptnet_mcp/tools/concept_query.py:202-217 | fails exactly for `""`; otherwise None stays None and a value ends up under `/r/` |
| ConceptQuery.RelationRule | src/conceptnet_mcp/tools/concept_query.py:207-214 | for every value: a `/r/` value is kept; other text becomes `/r/` and its title case without spaces and `_`, so none is left after the prefix |
| ConceptQuery.RelationTitleCase | src/conceptnet_mcp/tools/concept_query.py:207-214 | an example of the rule: "IsA" becomes `/r/Isa`, while "/r/IsA" is kept |
| ConceptQuery.RelationWordsJoined | src/conceptnet_mcp/tools/concept_query.py:210-214 | "is_a" becomes `/r/IsA` |
| ConceptQuery.ConvertSources | src/conceptnet_mcp/tools/concept_query.py:220-244 | fails exactly for `""`; otherwise None stays None and a value ends up under `/s/` |
| ConceptQuery.SourcesRule | src/conceptnet_mcp/tools/concept_query.py:224-242 | for every value: a `/s/` value is kept, a known short name in any case gives the table's URI, and any other name is put under `/s/` unchanged |
| ConceptQuery.SourceNames | src/conceptnet_mcp/tools/concept_query.py:225-242 | examples of the rule: "WordNet" and "omcs" map through the table, "verbosity" goes under `/s/` |
| ConceptQuery.ValidateAndConvertParameters | src/conceptnet_mcp/tools/concept_query.py:143-246 | the checks and the loop compute the specified conversion |
| ConceptQuery.RecordedParams | src/conceptnet_mcp/tools/concept_query.py:179-199 | the loop records each parameter's conversion under its name, and nothing else |
| ConceptQuery.RecordAll | src/conceptnet_mcp/tools/concept_query.py:179-199 | the loop over the parameters computes the specified fold of the conversions, stopping at the first failure |
| ConceptQuery.RecordFailureStops | src/conceptnet_mcp/tools/concept_query.py:179-199 | a parameter that cannot be converted makes the loop raise |
| ConceptQuery.ConvertedParamsParts | src/conceptnet_mcp/tools/concept_query.py:143-246 | a successful conversion passed both checks and every conversion |
| ConceptQuery.RecordedConceptParams | src/conceptnet_mcp/tools/concept_query.py:179-199 | the loop records start, end, node and other, each converted |
| ConceptQuery.ConvertedConceptParams | src/conceptnet_mcp/tools/concept_query.py:143-246 | the result has the six names, each holding its parameter's conversion |
| ConceptQuery.ConvertedParamsShape | src/conceptnet_mcp/tools/concept_query.py:143-246 | each name is set exactly when given; concepts are under `/c/`, the relation under `/r/`, the source under `/s/`; a `/c/` start is kept |
| ConceptQuery.ConvertedParamsChecks | src/conceptnet_mcp/tools/concept_query.py:156-170 | all of start, end, rel, node and sources blank fails; `other` without `node` fails; a failing parameter fails the whole |
| ConceptQuery.BuildQueryFilters | src/conceptnet_mcp/tools/concept_query.py:249-275 | limit 20 or 1000 and offset 0; any failure is a validation error for `query_filters` |
| ConceptQuery.WellConvertedBuildsFilters | src/conceptnet_mcp/tools/concept_query.py:249-275 | a well-converted map builds filters with its values unless `node` equals `other` |
| ConceptQuery.ConvertedParamsBuildFilters | src/conceptnet_mcp/tools/concept_query.py:143-275 | converted parameters are well-converted, so building fails only when `node` and `other` name the same concept |
| ConceptQuery.TalliedCounts | src/conceptnet_mcp/tools/concept_query.py:354-393 | each edge is counted once under its relation name, and every kept weight is truthy and no more numerous than the edges |
| ConceptQuery.DistributionTotal | src/conceptnet_mcp/tools/concept_query.py:395-402 | every weight lands in exactly one band |
| ConceptQuery.DistributionOfNumbers | src/conceptnet_mcp/tools/concept_query.py:395-402 | numeric weights never make the banding raise |
| ConceptQuery.AnalyzeQueryResults | src/conceptnet_mcp/tools/concept_query.py:332-402 | the two loops compute the specified tallies and distribution, or the first exception |
| ConceptQuery.TallyEdges | src/conceptnet_mcp/tools/concept_query.py:354-393 | the loop over the edges computes the specified tallies, or raises where they do |
| ConceptQuery.CountBands | src/conceptnet_mcp/tools/concept_query.py:395-402 | the loop over the weights computes the specified bands, or raises where they do |

## Left out

- Concurrency: the semaphore, the scheduling of `asyncio.gather` and the
  timing of sleeps. The bulk phase runs in URL order, and sleeps are
  recorded in milliseconds.
- HTTP transport, JSON decoding and logging calls. The network is the
  oracle `Pagination.Answer`. Log messages and `ctx` notifications are not
  modelled.
- Pagination.StreamFrom: the stream has no cycle guard and may not end, so
  it follows at most `fuel` further pages. What happens after that is not
  modelled.
- Pagination.Merged: a `paginatedProperty` that is not a string (null, a
  number) is outside the model's string-keyed dicts, so the model raises a
  PaginationError where Python merges under that key.
- Strings.ParseInt: `int()` also accepts non-ASCII decimal digits; the
  model accepts only ASCII digits (with single `_` between them).
- Case mapping is one character to one character in the model, while
  Python's `title()` and `lower()` can lengthen a string (`"ß".title()` is
  `"Ss"`, `"İ".lower()` has two characters). The length statements of the
  next five members hold of the model only.
- TextUtils.NormalizeTextForDisplay: `|r| <= |text|`, and the length kept
  by title-casing in DisplayTitleRule, fail in Python where a title case
  is longer.
- Processor.NormalizeText: the bound on the display text's length rests on
  the same assumption.
- QueryModels.TermSegment: "of the same length" rests on the one-to-one
  lower case.
- QueryModels.ConceptPath: the length `4 + |language| + |term|` rests on
  the same.
- EdgeModels.ToNaturalLanguage: the length of the three joined labels
  rests on the same lower case of the relation label.
- `urlsplit` edge cases: the query is read after the first `?` and before
  the first `#`.
- `TypeErr` stands for both TypeError and AttributeError. The model does
  not distinguish them.
- Processor.SortEdgesByWeight: weights that are all strings, or all
  lists, are compared lexicographically by Python; the model raises for
  them.
- Sort stability is built into `Sorting.SortBy` but not stated as a lemma.
- `round(w, 4)` in `_extract_relationships_by_type` is an uninterpreted
  function.
- Dict key order is not modelled: a dict is a `map`, and Python's insertion
  order is an uninterpreted constant where iteration order matters.
- Python's cross-type equality (`1 == 1.0 == True`) is not modelled. JSON
  values of different kinds are distinct.
- The Unicode tables (case mapping, `\w`, alphabetic and cased characters
  outside ASCII, NFC, percent decoding) are uninterpreted constants. The
  IGNORECASE equivalences outside ASCII are not modelled.
- Floating-point heuristics: text similarity, language hints, language
  estimation, fuzzy matching, the averages and statistics of the processor,
  and `_calculate_minimal_summary`. Weights are reals without rounding error.
- clean_text_for_uri, validate_concept_text, split_compound_terms,
  sanitize_search_query and is_valid_concept_text are not modelled: no
  operation in the model calls them.
- extract_readable_relations is not modelled: its result depends on the
  iteration order of a set.
- The lru caches are not modelled; the cached functions are modelled
  directly.
- The lists of suggestions the exception constructors build from their
  constraints, and from NetworkTimeoutError and AuthenticationError, are not
  modelled; those two constructors fail in the source anyway.
- `sys._getframe` and the traceback capture of ConceptNetMCPError are not
  modelled.
- `__str__` and `__repr__` of the pydantic models are not modelled.
- ResponseModels.SortedIds: when two or more collected ids include a
  non-string, the model raises. Python can still sort ids that are all
  numbers.
- `edge_count`, `source_count`, `related_count` and `item_count` are the
  lengths of the model's sequences and have no member of their own.
- Edge.is_strong_relationship and ConceptUriResponse are not modelled.
- ConceptQuery.AnalyzeQueryResults: the summary is not modelled. That means
  the sorting of relations, concepts, sources and languages, the cap of 20
  concepts, the rounded average weight and most_common_relation. Sorting
  mixed-type labels there can raise in Python.
- The language warning of `_validate_and_convert_parameters` is a log
  message and is not modelled.
- The tool entry points, the error-response builders and the
  example-suggestion generators of `concept_query.py` are not modelled.
