# DEPAD dashboard core in Dafny

This project models the parts of the DEPAD-MDS dashboard that compute something. The dashboard is a FastAPI back end reading Microsoft Graph (SharePoint) workbooks, plus a React front end. The modelled parts, one Dafny module per source file:

- **Back end, spreadsheet transforms.**
  - `SetoresGeral`: the "Setores / Geral" rows become records keyed by their headers, behind a token-keyed cache.
  - `Routes`: the `/me`, `/data/geral/` and `/data/geral/filter` route bodies, the last one filtering by "RAZÃO SOCIAL".
  - `GeralService`: the community sheet mapped to positional records, with the CNPJ search scored and sorted.
  - `CebasService`: the CEBAS one-pass grouping of label/value rows under category rows.
- **Back end, authentication and caches.**
  - `ApiMiddleware` and `BackendAuthMiddleware`: the two authentication middlewares.
  - `TokenCache`: the in-memory token cache and its expiry sweep.
  - `User`: the user-profile cache policy.
  - `GraphApi`: the Graph error decorator and the path → id memo.
  - `PathCleanup`: the SharePoint path cleanup.
- **Front end.**
  - `ComunidadeScreen`: the community search (exact match, ranked similar list).
  - `FilterModal`: the filter modal state.
  - `GeralScreen`: the "Geral" dashboard pipeline (filter, sort, totals, selection).
  - `MapView`: the map marker derivation.
  - `PresentationModal`: the presentation generator's step machine.
  - `Relator`: the chat's message list.
- **Shared.**
  - `Common`: cells, JSON values, Python/JS string helpers.
  - `Http`: requests, responses, the Bearer header check.
  - `JsArray`: the stable sort both `Array.prototype.sort` and Python's `list.sort` perform, on a lexicographic integer key.

Each source file takes its own form in the model:
- A step-by-step Python loop becomes a `method` with invariants, proved equal to a specification function.
- Module-level dictionaries the source mutates become fields of a class: `TokenCache.Cache` for `token_cache`, `GraphApi.PathIdCache` for `PATH_ID_CACHE`.
- React state holders become classes: `ComunidadeScreen.Screen`, `GeralScreen.Selection`, `PresentationModal.Modal`, `Relator.Chat`.
- Pure React derivations become functions with lemmas.

The network, clocks, timers, number parsing and case folding are inputs:
- `Reply`, `GraphReply` and `GraphCall` values stand for HTTP outcomes.
- `now` and `storedAt` are the two `time.time()` readings.
- `CaseMap` stands for `lower`/`upper`/`toLowerCase`.
- `Parser` stands for `parseFloat`.

Two behaviours of the code are worth stating up front:
- CEBAS skips rows of at most two cells (`len(row) <= max(1, 2)`, api/functions/dashboard/CEBAS/cebas_service.py).
- The name criterion of `get_comunity_data` is an empty `pass`, so a name-only query returns nothing. `GeralService.NameOnlyQueryFindsNothing` states this.

## Model

| member | source | states |
|---|---|---|
| TokenCache.ExpiredKeys | backend/api/api/utils/cache.py:11-14 | the keys collected are exactly the cached tokens whose age is at least CACHE_TIMEOUT (300 s) |
| TokenCache.Sweep | backend/api/api/utils/cache.py:10-17 | after the sweep a key remains iff it was cached and is younger than the timeout, with its entry untouched |
| TokenCache.SweepCount | backend/api/api/utils/cache.py:19 | entries kept plus entries removed equals the original cache size |
| TokenCache.SweepDeletesExpired | backend/api/api/utils/cache.py:16-17 | the sweep is exactly the deletion of the collected expired keys |
| TokenCache.SweepIdempotent | backend/api/api/utils/cache.py:8-19 | a second sweep at the same instant finds nothing expired and changes nothing |
| TokenCache.Cache.constructor | backend/api/api/utils/cache.py:5 | the cache starts empty |
| TokenCache.Cache.ClearExpiredTokens | backend/api/api/utils/cache.py:8-19 | the loop deletes every expired key and keeps the rest; the returned count is the number of expired keys, i.e. the drop in size |
| User.FilterUserData | api/modules/user.py:59-67 | the result has exactly the keys email, displayName and id, taken from mail, displayName and id, null when absent |
| User.FilterSeesOnlyThreeFields | api/modules/user.py:59-67 | two profiles that agree on mail, displayName and id filter to the same result, whatever else they hold |
| User.FetchFailure | api/modules/user.py:45-57 | a Graph HTTP error keeps its status (401, 403 or any other); connection and JSON errors become 500 |
| User.FetchUser | api/modules/user.py:14-57 | a fresh profile entry is served as is and a fresh entry of the other kind fails, with the cache unchanged; on a miss or stale entry a Graph success is returned and stored whole under the token with its timestamp, and a Graph failure becomes the mapped HTTP error with the cache unchanged |
| User.ValidatedProfileIsCached | api/modules/user.py:15-19 | after a profile is fetched from Graph (no entry, or a stale one), a lookup of the same token within CACHE_TIMEOUT returns the same profile and leaves the cache unchanged, whatever the network would answer |
| User.GetUserFromToken | api/modules/user.py:7-57 | the cache ends as the hit/fetch policy says, and the caller gets the filtered profile or the fetch's HTTP error |
| ApiMiddleware.ValidateMicrosoftToken | api/middleware/middleware.py:8-47 | token validation follows the cached-profile policy exactly: cache hit within the timeout, else fetch and store, with the same error statuses |
| ApiMiddleware.Handle | api/middleware/middleware.py:50-119 | OPTIONS gets the preflight (200 with the four CORS headers) and a public-prefix path the route run anonymously, both leaving the cache alone; every response carries `Access-Control-Allow-Origin: *`; the cache changes only through validating the token of a protected request |
| ApiMiddleware.Protected | api/middleware/middleware.py:66-119 | a missing, malformed or blank token gives 401 without touching the cache; every response allows any origin; the cache changes only through validating the Bearer token |
| ApiMiddleware.ProtectedRouteNeedsValidToken | api/middleware/middleware.py:66-111 | for a non-OPTIONS, non-public request: a missing, non-Bearer or blank token gives 401; otherwise a validated token reaches the handler with that user and token, and a failed validation gives the validation's status |
| ApiMiddleware.AuthMiddleware | api/middleware/middleware.py:50-119 | the middleware's response and resulting cache are those of the decision chain: OPTIONS preflight, public prefix, header checks, validation, handler |
| ApiMiddleware.Authenticate | api/middleware/middleware.py:84-119 | the protected branch's response and cache are those of the token check, validation and handler call |
| BackendAuthMiddleware.Handle | backend/api/backend/api/middleware/auth_middleware.py:6-96 | a public path runs the route anonymously whatever the header and Graph say; on any other path the route runs, with the Graph profile and the token, iff the header holds a non-blank Bearer token and Graph answered 200, and every other case is 401 with code UNAUTHORIZED |
| BackendAuthMiddleware.Protected | backend/api/backend/api/middleware/auth_middleware.py:13-96 | after the header checks only a Graph 200 for a Bearer token reaches the route; missing, malformed or blank tokens, other statuses, timeouts and exceptions give 401 UNAUTHORIZED, a rejection quoting Graph's status |
| BackendAuthMiddleware.BelowPublicPathIsProtected | backend/api/backend/api/middleware/auth_middleware.py:9-11 | public paths are compared whole: a path strictly below a public path (such as /docs/oauth2-redirect or /api/v1/me) is not public and goes through the token checks |
| BackendAuthMiddleware.AuthMiddleware | backend/api/backend/api/middleware/auth_middleware.py:6-96 | the early-return chain produces the middleware's response; on a non-public path, a response that is not a 401 refusal is the route run with the token and the profile of a Graph 200 |
| Http.WithHeader | api/middleware/middleware.py:101 | setting a response header keeps status and body, sets that header to the value and keeps the other header names |
| Http.CheckToken | api/middleware/middleware.py:66-92 | a token is extracted iff the Authorization header exists, starts with "Bearer " and is non-blank after removing "Bearer " and stripping; the token is stripped and non-empty |
| Http.TrimIdempotent | api/middleware/middleware.py:84 | stripping the token twice is the same as stripping it once |
| Http.BearerTokenExtracted | api/middleware/middleware.py:84 | the header "Bearer " + t, where t has no further "Bearer " and is not blank, yields exactly the stripped t |
| GraphApi.GraphFailure | api/lib/graph_api.py:14-28 | an HTTP error with a response keeps its status (401, 403 or any other); no response, other request errors and bad JSON give 500 |
| GraphApi.Decorated | api/lib/graph_api.py:9-29 | the decorated call succeeds iff Graph answered, with Graph's body; every failure is an HTTPException |
| GraphApi.SpreadsheetUrl | api/lib/graph_api.py:82-89 | the URL is the range address of the drive item and worksheet; a None or empty params adds nothing, other params are appended verbatim |
| GraphApi.IdsByPath | api/lib/graph_api.py:91-115 | a successful resolution has the drive id from parentReference.driveId, the item id from id and the name from name, and every reply holding those fields resolves; a failed site or file lookup is that lookup's Graph error; a missing site or file id is a KeyError |
| GraphApi.Resolve | api/lib/graph_api.py:53-62 | a memo hit is used as is and changes nothing; a miss resolves the path; a success is stored under `site_path/file_path` and a failure leaves the memo alone |
| GraphApi.ResolveOnlyAdds | api/lib/graph_api.py:56-62 | resolving keeps every memo entry and can add only the `site_path/file_path` key |
| GraphApi.ResolvedPathIsReused | api/lib/graph_api.py:53-58 | once a path pair is resolved, a later call with it returns the same ids and leaves the memo unchanged, whatever Graph would answer |
| GraphApi.PathIdCache.constructor | api/lib/graph_api.py:7 | the memo starts empty |
| GraphApi.PathIdCache.GetSpreadsheetByPath | api/lib/graph_api.py:47-71 | the memo ends as resolution leaves it; a resolution error is returned without a range request, otherwise the range URL is built from the ids and the range reply is decorated |
| SetoresGeral.CacheKey | backend/api/api/modules/setores/geral.py:14 | the cache key is "geral_data_" followed by the token |
| SetoresGeral.FetchFailure | backend/api/api/modules/setores/geral.py:49-66 | a Graph HTTP error keeps its status; connection and JSON errors become 500 |
| SetoresGeral.Fetch | backend/api/api/modules/setores/geral.py:13-45 | a fresh data entry is served as is and a fresh entry of the other kind fails; on a miss or stale entry an empty body is the 404 "Dados não retornados", any other body is returned and stored under the token's key with its timestamp, and a failure becomes the mapped HTTP error; only a success changes the cache, and only at that key |
| SetoresGeral.RefetchWithinTimeoutHitsCache | backend/api/api/modules/setores/geral.py:15-18 | after a fetch from Graph (no entry, or a stale one), the same token within CACHE_TIMEOUT gets the same data from the cache, whatever the network would answer |
| SetoresGeral.FetchNeverReturnsEmpty | backend/api/api/modules/setores/geral.py:38-45 | an empty payload is never returned nor cached (it is a 404), so cached sheets stay non-empty |
| SetoresGeral.GetGeralDataFromToken | backend/api/api/modules/setores/geral.py:7-66 | the fetch follows the cache policy: its result and the new cache are those of the specification, and a failure leaves the cache unchanged |
| SetoresGeral.RowObjectSpec | backend/api/api/modules/setores/geral.py:86-93 | the row object has exactly the header keys; each header maps to its cell, None for "" or a missing cell; a repeated header keeps its last column |
| SetoresGeral.BuildRecordSpec | backend/api/api/modules/setores/geral.py:86-96 | the record has the header keys plus "id"; "id" is the row id even when a header is named "id"; other headers map to their cells |
| SetoresGeral.DataRowIds | backend/api/api/modules/setores/geral.py:82-84 | every emitted id is a data-row index, never the header row 0 |
| SetoresGeral.DataRowIdsSpec | backend/api/api/modules/setores/geral.py:82-84 | the ids strictly increase and are exactly the indices of the non-empty data rows |
| SetoresGeral.Transform | backend/api/api/modules/setores/geral.py:68-97 | missing values or fewer than two rows give []; otherwise one record per non-empty data row, in sheet order, each built from the header row and that row with its index as id |
| SetoresGeral.TransformIdsIncrease | backend/api/api/modules/setores/geral.py:96 | every output record has an "id" and the ids strictly increase along the output |
| SetoresGeral.TransformToJsonFormat | backend/api/api/modules/setores/geral.py:68-99 | the nested loops compute the transform; missing values or fewer than two rows give [] |
| SetoresGeral.BuildRowObject | backend/api/api/modules/setores/geral.py:86-96 | the inner header loop builds exactly the record the transform specifies for that row |
| SetoresGeral.GetFilteredGeralData | backend/api/api/modules/setores/geral.py:101-111 | the result is `{"status": "success", "data": transform(fetched)}`, or the fetch's error; the cache ends as the fetch leaves it |
| Routes.AsHttp | api/routes.py:99-102 | an HTTPException passes through unchanged; any other exception becomes 500 "Erro interno: ..." |
| Routes.GetUserMe | api/routes.py:8-23 | `/me` answers `{success: true, user: filtered profile, message}` or the fetch's error as an HTTP error; the cache ends as the user lookup leaves it |
| Routes.GetGeralData | api/routes.py:26-37 | `/data/geral/` answers the success envelope of the transformed sheet, or the service failure as an HTTP error |
| Routes.ColumnFromSpec | api/routes.py:59-67 | the column found is the first header whose upper-case form is "RAZÃO SOCIAL"; none means no header matches; a non-text header before any match raises |
| Routes.MatchIds | api/routes.py:70-92 | every matched row index is a data row, never the header row |
| Routes.MatchIdsSpec | api/routes.py:70-92 | matched rows are non-empty, in increasing sheet order, and exactly those the row condition keeps |
| Routes.MatchIdsIncreasing | api/routes.py:70-92 | matched row indices strictly increase, so the rows keep sheet order |
| Routes.MatchIdsMembers | api/routes.py:74-76 | a row is matched iff it is a data row the condition keeps: non-empty, a non-empty razão social cell that contains the lower-cased name |
| Routes.MatchIdsFails | api/routes.py:74-76 | the scan succeeds iff no data row has a non-text razão social cell (on which `.lower()` raises) |
| Routes.MatchIdsErrPersists | api/routes.py:70-92 | once the scan has raised, scanning further rows does not change the error |
| Routes.Filter | api/routes.py:51-92 | fewer than two rows or no "RAZÃO SOCIAL" column give []; a non-text header before that column is the error; the filter fails iff a data row's name cell is truthy but not text; otherwise one record per matched row, built from the header row |
| Routes.FilterIsSubsequenceOfTransform | api/routes.py:79-89 | every returned row is the record the `/data/geral/` transform builds for that row, and the returned ids strictly increase |
| Routes.EmptyNameKeepsNamedRows | api/routes.py:76 | with an empty name, a row is kept iff it has a non-empty razão social |
| Routes.FindColumn | api/routes.py:59-67 | the header loop with `break` finds the column the specification names |
| Routes.CollectMatches | api/routes.py:70-92 | the row loop returns the records of exactly the matched rows, or the error the scan raised |
| Routes.FilterByRazaoSocial | api/routes.py:51-92 | the filter body computes the specified filter; fewer than two rows gives [] |
| Routes.GetFilteredByName | api/routes.py:40-102 | the route answers `{data: filtered rows}` or the fetch or filter error as an HTTP error; the cache ends as the fetch leaves it |
| GeralService.ToComunidade | api/modules/dashboard/Geral/geral_service.py:17-47 | field k (cnpj = 0 … longitude = 30) is `str(row[k])` when the row has more than k cells, else '' |
| GeralService.Formatted | api/modules/dashboard/Geral/geral_service.py:13-47 | exactly one record per row, in order, each the positional mapping of that row |
| GeralService.GetData | api/modules/dashboard/Geral/geral_service.py:4-50 | a Graph failure is its HTTP error; otherwise the records of the `values` rows ([] when absent) |
| GeralService.GetFilteredData | api/modules/dashboard/Geral/geral_service.py:54-56 | the call fails only when the fetch fails, and otherwise returns None |
| GeralService.Score | api/modules/dashboard/Geral/geral_service.py:70-85 | a non-empty query scores 100 iff its digits equal the record's CNPJ digits, and 50 iff not equal but the record's digits start with the first 8 query digits; nothing else matches |
| GeralService.DigitlessQueryMatchesDigitlessCnpj | api/modules/dashboard/Geral/geral_service.py:70-85 | a non-empty CNPJ query without digits matches exactly the records whose CNPJ has no digits |
| GeralService.MatchesSpec | api/modules/dashboard/Geral/geral_service.py:72-93 | the results are records of the data with their scores, and every record with a score is among them |
| GeralService.RankedSpec | api/modules/dashboard/Geral/geral_service.py:94 | the sorted results are a permutation of the matches, by non-increasing score, keeping the data order among equal scores |
| GeralService.CommunitySearch | api/modules/dashboard/Geral/geral_service.py:60-95 | without filters the data is returned as is; otherwise exactly the records that score against the CNPJ filter, best score first |
| GeralService.RankedRecords | api/modules/dashboard/Geral/geral_service.py:93-95 | the ranked list holds exactly the scoring records of the data, by non-increasing score |
| GeralService.NameOnlyQueryFindsNothing | api/modules/dashboard/Geral/geral_service.py:88-93 | a query with only a name returns [] because the name check never matches |
| GeralService.NoCnpjNoMatches | api/modules/dashboard/Geral/geral_service.py:78-93 | without a CNPJ nothing is scored, so nothing is collected |
| GeralService.Project | api/modules/dashboard/Geral/geral_service.py:95 | the projection keeps the order and takes each result's record |
| GeralService.RankMatches | api/modules/dashboard/Geral/geral_service.py:70-95 | the scoring loop, stable sort and projection return the ranked records the specification defines |
| GeralService.ScoreRecord | api/modules/dashboard/Geral/geral_service.py:74-90 | the per-record flags report a match iff the record has a score, and then that score |
| GeralService.SortByScore | api/modules/dashboard/Geral/geral_service.py:94-95 | the in-place sort then projection equal the stable score sort of the results |
| GeralService.GetComunityData | api/modules/dashboard/Geral/geral_service.py:60-95 | a Graph failure is its HTTP error; otherwise the community search of the records; blank cnpj and name return all records unchanged |
| CebasService.RemoveFirstDot | api/functions/dashboard/CEBAS/cebas_service.py:52 | removing the first dot changes nothing without a dot and removes exactly one character otherwise |
| CebasService.FirstDot | api/functions/dashboard/CEBAS/cebas_service.py:52 | the position found holds a dot and no dot comes before it |
| CebasService.RemoveFirstDotSpec | api/functions/dashboard/CEBAS/cebas_service.py:52 | the character removed is the first dot: the text before it and the text after it are kept |
| CebasService.RemoveDotAt | api/functions/dashboard/CEBAS/cebas_service.py:52 | when index `k` holds a dot and no earlier index does, removing the first dot keeps the text before `k` and the text after it |
| CebasService.Valor | api/functions/dashboard/CEBAS/cebas_service.py:55-62 | numbers and booleans are values as they are; a text is a value iff it is numeric (digits with at most one dot), and then the value is that text read as a number (`Parsed`) |
| CebasService.Find | api/functions/dashboard/CEBAS/cebas_service.py:66 | the lookup gives the first group with that category, and none iff no group has it |
| CebasService.ApplyRow | api/functions/dashboard/CEBAS/cebas_service.py:43-84 | one loop iteration updates resumo, detalhes and the current category as the step function says |
| CebasService.ProcessData | api/functions/dashboard/CEBAS/cebas_service.py:24-86 | data without `values` gives {}; otherwise the dashboard is the one-pass run over the rows |
| CebasService.GetCebasDashboardData | api/functions/dashboard/CEBAS/cebas_service.py:12-22 | the fixed site, file and worksheet are resolved through the memo; Graph errors are returned; otherwise the processed sheet |
| CebasService.StepKeepsInv | api/functions/dashboard/CEBAS/cebas_service.py:43-84 | each row keeps the invariant (ANALÍTICO first, resumo = its items, current category present, distinct categories, labelled items) and adds one item iff it is an item row |
| CebasService.RunKeepsInv | api/functions/dashboard/CEBAS/cebas_service.py:42-84 | after any prefix of rows the invariant holds and the item count equals the number of item rows so far |
| CebasService.ItemRows | api/functions/dashboard/CEBAS/cebas_service.py:70 | the item rows are exactly the rows with a non-empty label and a value |
| CebasService.Run | api/functions/dashboard/CEBAS/cebas_service.py:34-84 | resumo equals detalhes["ANALÍTICO"] element for element; the current category is always present, so "Outros" is never used; categories are distinct; items are labelled; total items = item rows |
| CebasService.Step | api/functions/dashboard/CEBAS/cebas_service.py:43-81 | a row of at most two cells, or one that is neither a category nor an item row, changes nothing; a category row switches the current category, creates its list only if absent and emits nothing; an item row keeps the category and adds to resumo iff the category is ANALÍTICO |
| CebasService.ItemRowAppends | api/functions/dashboard/CEBAS/cebas_service.py:70-81 | an item row appends one item to the current category only, and to resumo iff the category is ANALÍTICO |
| CebasService.AppendToGroup | api/functions/dashboard/CEBAS/cebas_service.py:81 | appending to one group keeps the categories and other groups and adds exactly one item |
| ComunidadeScreen.FindExact | src/app/screens/dashboard/Comunidade.tsx:78-90 | the exact match is the first community whose lower-cased razão social or CNPJ equals the query; none iff no community does |
| ComunidadeScreen.Similar | src/app/screens/dashboard/Comunidade.tsx:103-114 | the similar list holds exactly the communities whose lower-cased name or CNPJ contains the query |
| ComunidadeScreen.SearchView | src/app/screens/dashboard/Comunidade.tsx:58-133 | the view is exact iff a community is selected; a selected community comes from the data and has no similar list; at most ten similar communities are shown |
| ComunidadeScreen.Take | src/app/screens/dashboard/Comunidade.tsx:132 | the cap keeps a prefix of at most n elements, the whole list when it is short enough |
| ComunidadeScreen.Screen.constructor | src/app/screens/dashboard/Comunidade.tsx:24-26 | the screen starts with no selection, no similar results and not exact |
| ComunidadeScreen.Screen.Search | src/app/screens/dashboard/Comunidade.tsx:53-135 | the search effect sets selection, similar list and exact flag to the specified search view |
| ComunidadeScreen.FindFirstExact | src/app/screens/dashboard/Comunidade.tsx:78-90 | the index found is that of the first exact match, or the length when there is none |
| ComunidadeScreen.CollectSimilar | src/app/screens/dashboard/Comunidade.tsx:103-114 | the filter loop collects exactly the similar communities in data order |
| ComunidadeScreen.Rank | src/app/screens/dashboard/Comunidade.tsx:119-129 | the in-place sort gives the stable sort by (prefix match first, shorter name first) |
| ComunidadeScreen.ExactMatchSpec | src/app/screens/dashboard/Comunidade.tsx:58-98 | no data or a blank query clears the view; a selection exists iff the view is exact, it is the first exact match, and then no similar list exists |
| ComunidadeScreen.SimilarSpec | src/app/screens/dashboard/Comunidade.tsx:103-133 | at most 10 results, all similar; with data, a non-blank query and no exact match they are exactly the first ten (or all) of the ranked matches; with ten or fewer candidates, all of them |
| ComunidadeScreen.RankingSpec | src/app/screens/dashboard/Comunidade.tsx:119-129 | names starting with the query come first, and within each group shorter names come first |
| ComunidadeScreen.ClickTarget | src/app/screens/dashboard/Comunidade.tsx:137-141 | clicking navigates with the razão social if non-empty, else the CNPJ |
| ComunidadeScreen.ClickedResultMatchesExactly | src/app/screens/dashboard/Comunidade.tsx:137-141 | searching for a clicked result's target yields an exact match when the target is non-blank and untouched by trimming |
| FilterModal.ValuesSpec | src/app/components/FilterModal.tsx:47-63 | the collected values are exactly the non-empty trimmed values of the field in the data |
| FilterModal.ValuesMember | src/app/components/FilterModal.tsx:47-63 | a value is collected from the first n communities iff it is non-empty and the trimmed field of one of them |
| FilterModal.OptionList | src/app/components/FilterModal.tsx:47-63 | each option list holds exactly the distinct trimmed non-empty values of its field, without duplicates, sorted |
| FilterModal.Options | src/app/components/FilterModal.tsx:47-63 | the forEach over the data fills the three Sets and sorts them into the specified option lists |
| FilterModal.AddItem | src/app/components/FilterModal.tsx:52-56 | one forEach step adds the community's trimmed values to the three Sets |
| FilterModal.AddToSet | src/app/components/FilterModal.tsx:52-56 | adding one value to a Set gives the Set of one more community's values |
| FilterModal.SortStrings | src/app/components/FilterModal.tsx:58-62 | sorting the Set's values gives the stable code-unit sort |
| FilterModal.Remove | src/app/components/FilterModal.tsx:69 | filtering out a value keeps exactly the other elements; a one-element list is kept or emptied; with RemoveAppend this fixes the result, order included |
| FilterModal.RemoveAppend | src/app/components/FilterModal.tsx:69 | filtering a concatenation filters each part, so `filter` keeps the order of the elements it keeps |
| FilterModal.RemoveKeepsNoDuplicates | src/app/components/FilterModal.tsx:69 | filtering a duplicate-free list keeps it duplicate-free |
| FilterModal.Toggle | src/app/components/FilterModal.tsx:65-72 | toggling an absent value appends it; a present one is filtered out, the selection becoming `Remove` of the old one, so the rest keep their order; other fields are unchanged |
| FilterModal.ToggleKeepsNoDuplicates | src/app/components/FilterModal.tsx:65-72 | selected lists stay duplicate-free under toggling |
| FilterModal.ToggleTwiceRestores | src/app/components/FilterModal.tsx:65-72 | toggling an absent value twice restores the state exactly |
| FilterModal.ClickOrder | src/app/components/FilterModal.tsx:245-255 | clicking the active order clears it, clicking another selects it; nothing else changes |
| FilterModal.ClickOrderTwice | src/app/components/FilterModal.tsx:245-255 | clicking an order twice restores the state iff no order or that order was active |
| FilterModal.Reset | src/app/components/FilterModal.tsx:79-88 | reset returns the initial all-empty state |
| FilterModal.Apply | src/app/components/FilterModal.tsx:74-77 | apply passes the current filter state unchanged and closes |
| FilterModal.ClickDropdown | src/app/components/FilterModal.tsx:125 | clicking the open dropdown closes it; clicking another opens it |
| GeralScreen.ColumnValues | app/screens/dashboard/Geral.tsx:78-81 | the mapped states (or cities), one per record, in record order |
| GeralScreen.Where | app/screens/dashboard/Geral.tsx:85-86 | the state (or city) filter keeps exactly the records with the selected value, all of them for 'all' |
| GeralScreen.StateOptionsSpec | app/screens/dashboard/Geral.tsx:78 | the state options are the distinct states of the data, sorted |
| GeralScreen.CityOptionsSpec | app/screens/dashboard/Geral.tsx:79-81 | the city options are the distinct cities of the selected state (of all data for 'all'), sorted |
| GeralScreen.FilteredData | app/screens/dashboard/Geral.tsx:84-87 | the filtered data is a permutation of the records matching state and city, ordered by vagas non-increasing for 'desc', non-decreasing for 'asc' |
| GeralScreen.SumPermutation | app/screens/dashboard/Geral.tsx:351 | the vagas total does not depend on the order of the records |
| GeralScreen.RoundedMean | app/screens/dashboard/Geral.tsx:357-359 | the average is the sum divided by the count, rounded to nearest with halves up (Math.round) |
| GeralScreen.Statistics | app/screens/dashboard/Geral.tsx:345-359 | the count card is the record count; the average is 0 on no records, else within half of total/count |
| GeralScreen.CardsIgnoreOrder | app/screens/dashboard/Geral.tsx:345-359 | the cards depend only on which records match, not on the sort order: count and total of the matching records |
| GeralScreen.StateTotalSpec | app/screens/dashboard/Geral.tsx:127-129 | the shading total of a state is the vagas sum of its matching records, 0 when none matches |
| GeralScreen.Selection.constructor | app/screens/dashboard/Geral.tsx:69-71 | the selection starts at state 'all', city 'all', order 'desc' |
| GeralScreen.Selection.ClickState | app/screens/dashboard/Geral.tsx:149-152 | a map click toggles between that state and 'all' and resets the city to 'all' |
| GeralScreen.Selection.SelectState | app/screens/dashboard/Geral.tsx:288-291 | choosing a state sets it and resets the city to 'all' |
| GeralScreen.Selection.SelectCity | app/screens/dashboard/Geral.tsx:304-307 | choosing a city, offered only once a state is chosen, keeps the invariant that a city implies a state |
| GeralScreen.Selection.SelectOrder | app/screens/dashboard/Geral.tsx:319-320 | choosing an order changes only the order |
| MapView.ValidData | src/app/components/data/Map.tsx:26-32 | the valid data is no longer than the input |
| MapView.ValidDataMember | src/app/components/data/Map.tsx:26-32 | a record is valid iff it is in the data and both coordinates parse |
| MapView.LimitedData | src/app/components/data/Map.tsx:34-36 | the limited data is the prefix of the valid data of length min(10000, its length) |
| MapView.Clean | src/app/components/data/Map.tsx:54 | clean is the value without its blanks at either end: a slice of the value with only blanks outside it and none at its ends, "" iff the value is blank |
| MapView.MarkerOf | src/app/components/data/Map.tsx:55-85 | a marker sits at the parsed non-zero coordinates and is detailed iff zoom > 5; its key is the CNPJ, or "marker-" and the index when the CNPJ is empty; municipio and uf fall back to "—", endereco, telefone and email to "Não informado", the counts to "0" |
| MapView.PlacedIndices | src/app/components/data/Map.tsx:60-65 | the placed indices are, in order, exactly the records not skipped |
| MapView.Markers | src/app/components/data/Map.tsx:58-85 | one marker per placed record, in order, each built from that record |
| MapView.Render | src/app/components/data/Map.tsx:19-24 | absent or empty data renders the placeholder, anything else the map |
| MapView.MarkersSpec | src/app/components/data/Map.tsx:58-85 | at most one marker per record, all shown at their zoom level, and every record with usable coordinates has its marker |
| MapView.MarkerCountBound | src/app/components/data/Map.tsx:34-65 | the marker count is at most 10000 and at most the number of valid records |
| MapView.MarkerFallbacks | src/app/components/data/Map.tsx:67-80 | the title falls back from nome fantasia to razão social to "Não informado"; vagas and adult counts default to "0" |
| MapView.IndexKeysDistinct | src/app/components/data/Map.tsx:85 | markers without a CNPJ at different indices get different keys |
| PathCleanup.LastPieceFromSpec | api/utils/path.py:49 | the scan yields the text after the last separator of the whole string |
| PathCleanup.LastPieceIsAfterLastSeparator | api/utils/path.py:49 | `split("root:")[-1]` is the text after the last "root:", and contains no "root:" |
| PathCleanup.NoRootKeepsPath | api/utils/path.py:49 | a path without "root:" is kept whole |
| PathCleanup.NoSepPieceIsInput | api/utils/path.py:49 | scanning a text without the separator appends it to the current piece |
| PathCleanup.CleanPath | api/utils/path.py:49-51 | the cleaned path is the last piece without its leading "/" when it has one, and the last piece itself otherwise |
| PathCleanup.FinalPath | api/utils/path.py:53 | the final path is cleaned path + "/" + name, so it ends with "/" + name |
| PathCleanup.DiscoverPath | api/utils/path.py:32-53 | an empty search result stops without a path; otherwise the path is the final path of the item, ending with "/" + name |
| PresentationModal.FailureMessage | src/app/components/PresentationModal.tsx:78-96 | a failure always has a message: the API status text, the result's error, the processing error or the thrown message |
| PresentationModal.PresentationText | src/app/components/PresentationModal.tsx:89-91 | the text is the result's text, or a non-empty fallback quoting the description |
| PresentationModal.Start | src/app/components/PresentationModal.tsx:44-47 | starting goes to 'loading', clears the error and sets generating, keeping the rest |
| PresentationModal.Finish | src/app/components/PresentationModal.tsx:78-99 | generation ends not generating; on success in 'result' with `PresentationText` of the reply and the captured graphs; otherwise in 'error' with `FailureMessage` of the outcome, the text and captures kept |
| PresentationModal.Closed | src/app/components/PresentationModal.tsx:111-116 | close is ignored while generating, otherwise it resets to the initial state |
| PresentationModal.Retried | src/app/components/PresentationModal.tsx:138-141 | retry returns to 'input' and clears the error, keeping the description, the generated text and the captures |
| PresentationModal.TransitionsKeepValid | src/app/components/PresentationModal.tsx:18-141 | every handler keeps the modal state consistent: the generate button's spinner (generating) shows exactly while the step is 'loading' |
| PresentationModal.GenerateRoundTrip | src/app/components/PresentationModal.tsx:44-100 | an enabled generate always ends in 'result' or 'error' with the description kept and a message on error |
| PresentationModal.RetryThenGenerate | src/app/components/PresentationModal.tsx:138-141 | after retry with a non-blank description, generate is enabled again and resubmits that description |
| PresentationModal.Modal.constructor | src/app/components/PresentationModal.tsx:18-23 | the modal starts at 'input' with everything empty and not generating |
| PresentationModal.Modal.Type | src/app/components/PresentationModal.tsx:186-191 | typing sets the description, unless generation is in progress |
| PresentationModal.Modal.StartGenerate | src/app/components/PresentationModal.tsx:45-47 | the start of handleGenerate moves the state as Start says |
| PresentationModal.Modal.FinishGenerate | src/app/components/PresentationModal.tsx:78-99 | the end of handleGenerate moves the state as Finish says |
| PresentationModal.Modal.Reset | src/app/components/PresentationModal.tsx:102-109 | reset returns the initial state |
| PresentationModal.Modal.Close | src/app/components/PresentationModal.tsx:111-116 | close moves the state as Closed says |
| PresentationModal.Modal.Retry | src/app/components/PresentationModal.tsx:138-141 | retry moves the state as Retried says |
| PresentationModal.DownloadName | src/app/components/PresentationModal.tsx:122 | the download name is "grafico-dashboard-", the decimal text of index + 1, then ".png" |
| PresentationModal.DownloadNamesDistinct | src/app/components/PresentationModal.tsx:122 | different screenshots download under different names |
| Relator.MockReply | src/app/screens/dashboard/relator/Relator.tsx:7-9 | the mock reply quotes the user's message |
| Relator.Submitted | src/app/screens/dashboard/relator/Relator.tsx:23-36 | a blank input changes nothing; otherwise exactly one user message with the input is appended, the input cleared and loading set |
| Relator.Replied | src/app/screens/dashboard/relator/Relator.tsx:39-48 | the reply appends exactly one assistant message quoting the submitted text and clears loading |
| Relator.Typed | src/app/screens/dashboard/relator/Relator.tsx:113-121 | typing changes only the input, and not while loading |
| Relator.KeyDown | src/app/screens/dashboard/relator/Relator.tsx:51-56 | Enter without Shift submits; any other key, or Shift+Enter, changes nothing |
| Relator.EnabledSendAppends | src/app/screens/dashboard/relator/Relator.tsx:125 | when send is enabled, sending appends the user message and disables send until the reply |
| Relator.Apply | src/app/screens/dashboard/relator/Relator.tsx:23-56 | every event keeps the existing messages as a prefix and adds at most one |
| Relator.Run | src/app/screens/dashboard/relator/Relator.tsx:23-56 | over any sequence of events the message list only grows, by at most one message per event, and existing messages never change |
| Relator.SubmitThenReply | src/app/screens/dashboard/relator/Relator.tsx:23-49 | submit then reply adds the user message then the assistant message quoting it, clears the input and ends not loading |
| Relator.Chat.constructor | src/app/screens/dashboard/relator/Relator.tsx:12-15 | the chat starts with no messages, empty input, not loading |
| Relator.Chat.Type | src/app/screens/dashboard/relator/Relator.tsx:113-121 | typing moves the state as Typed says |
| Relator.Chat.Submit | src/app/screens/dashboard/relator/Relator.tsx:23-38 | submit moves the state as Submitted says and hands the submitted text to the timer, none when blank |
| Relator.Chat.Reply | src/app/screens/dashboard/relator/Relator.tsx:39-48 | the timer callback moves the state as Replied says |
| Relator.Chat.KeyPress | src/app/screens/dashboard/relator/Relator.tsx:51-56 | a key press moves the state as KeyDown says and submits nothing unless Enter without Shift |
| JsArray.SortPermutes | api/modules/dashboard/Geral/geral_service.py:94 | the stable sort is a permutation of its input |
| JsArray.SortSorted | api/modules/dashboard/Geral/geral_service.py:94 | the stable sort orders its output by key |
| JsArray.SortIsStable | api/modules/dashboard/Geral/geral_service.py:94 | elements with equal keys keep their input order |
| JsArray.SortInPlace | src/app/screens/dashboard/Comunidade.tsx:119-129 | sorting an array in place leaves it equal to the stable sort of its old contents |
| JsArray.SortedDistinctSpec | app/screens/dashboard/Geral.tsx:78 | `[...new Set(xs)].sort()` holds exactly the values of xs, once each, in code-unit order |
| JsArray.Distinct | app/screens/dashboard/Geral.tsx:78 | `new Set(xs)` holds exactly the values of xs, once each |
| JsArray.CharCodesInjective | app/screens/dashboard/Geral.tsx:78 | distinct strings have distinct sort keys, so the default sort is a total order on strings |
| Common.Trim | src/app/components/data/Map.tsx:54 | trimming keeps a slice of the text with only blanks outside it and no blank at either of its ends; it gives "" iff the text is all blanks |
| Common.Digits | api/modules/dashboard/Geral/geral_service.py:70 | the digit filter keeps only digits, every digit of the text, and the text itself when it is all digits |
| Common.DigitsAppend | api/modules/dashboard/Geral/geral_service.py:70 | the digits of a concatenation are the digits of each part, in order |
| Common.DigitsSnoc | api/modules/dashboard/Geral/geral_service.py:70 | appending a character appends it to the digits exactly when it is a digit |
| Common.NatToDecimal | src/app/components/PresentationModal.tsx:122 | the decimal text of a number: digits whose value (most significant first) is the number, with no leading zero, and two or more digits iff the number is at least 10 |
| Common.NatToDecimalInjective | src/app/components/PresentationModal.tsx:122 | different numbers have different decimal texts |
| Common.Get | api/modules/user.py:62-66 | `dict.get` gives the value, or null for an absent key |

## Left out

- I/O, the network, Microsoft Graph, the identity provider and the DeepSeek call are not modelled. Their outcomes are inputs: `Reply`, `GraphReply` and `GraphCall` values, the canvas captures (`graphs`) and the presentation API's `Outcome`.
- Clocks and timers are inputs. `time.time()` readings are `now` and `storedAt`, message ids are a `now: nat`, and the 1000 ms `setTimeout` of the chat is the separate `Chat.Reply` call.
- The map's zoom debounce is not modelled; the zoom level is an input.
- Rendering is not modelled: chart.js, d3 (its colour scale included), leaflet, framer-motion, the JSX, the hover state, the view mode toggle, scrolling and console logging.
- `generateMockData` in the "Geral" screen uses `Math.random`; the data is an arbitrary input list instead.
- Case folding (`lower`, `upper`, `toLowerCase`) and `parseFloat` are abstract function parameters. No Unicode property of them is modelled.
- Common.Trim: only the ASCII blanks (space and `\t` to `\r`) are removed. Python's `strip` also removes `\x1c` to `\x1f` and the Unicode spaces, and JavaScript's `trim` the Unicode spaces; the model keeps those characters.
- Common.Digits: only the ASCII digits count, where Python's `isdigit` also accepts other Unicode digits.
- JavaScript strings are UTF-16. The model uses Unicode characters, so lengths and the default sort order differ for characters outside the Basic Multilingual Plane.
- `decodeURIComponent` on the search parameter is taken as already applied. `navigate` is represented by the target text only.
- GraphApi.IdsByPath: a file `id`, `name` or `driveId` that is not a JSON string is a failure in the model, where Python would carry the non-string value; a missing one is a KeyError in both.
- JSON replies that are not objects are not modelled.
- Exception texts from `str(e)` are kept as an opaque reason string.
- Header names are matched case-sensitively.
- An exception escaping the route handler inside the middlewares is not modelled: the handler is a total function. In api/middleware/middleware.py it would become a 500; in the backend middleware a 401 "Erro ao validar token".
- Recent versions of `requests` raise a `JSONDecodeError` that is also a `RequestException`, so it would get the connection-error text. The model keeps the two cases apart; both are 500.
- Python dictionary iteration order and key equality between 1, 1.0 and True are not modelled. Record keys are cells (`Cell`), compared as values, so `Number` 1 and `Boolean` true are different keys.
- CebasService.Valor: a numeric text value is kept as its text (`Parsed`) rather than converted by `float()`, and Python number formatting (`str` of int/float) is carried as data in `Cell.Number.repr`.
- The vagasMin/vagasMax inputs of the filter modal are plain field assignments, so no operation is modelled for them.
- The JSON payloads the chat and presentation modal send are not modelled.
- `get_graph_bytes` in api/lib/graph_api.py is not part of this model. It is a byte download with no logic of its own.
- backend/api/functions/dashboard/Geral/geral_service.py and backend/api/lib/graph_api.py are not part of this model. They are older copies superseded by the api/ versions.
- GeralService.RankMatches: the name criterion is an empty `pass` in the source and has no intended behaviour to model; the `name` argument is accepted and ignored.
- MapView.ValidData: its own contract states only the length bound. Membership is proved separately by MapView.ValidDataMember and order by MapView.ValidDataAppend.
