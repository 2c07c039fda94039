# genai-company-matcher, modelled in Dafny

The system matches companies by risk profile. An identity store (SQLite) maps ISINs to LEIs and
holds one metadata row per legal entity. A vector index ranks companies by the similarity of
their embedding text. An enrichment service fills in a company's description and sector labels
lazily from the Wikidata SPARQL endpoint, whenever a company without sector data is read,
and writes them back to the store. A second SQLite repository caches Wikidata facts (id,
description and sectors with their ids) per LEI.

The model:

- `Options`: `Option`, standing for Python's `None`, SQL `NULL` and missing dictionary keys.
- `Oracles`: `Oracle<Q, A>`, a stand-in for an external service.
  - It answers each request with a fixed function `answer`.
  - It logs every request in `asked`.
  - It models the HTTP session to the SPARQL endpoint and the `query_wikidata` helper.
  - Contracts can therefore say which requests were sent, in which order, and that none were sent.
- `Models`: the `Company` entity as a value, the `lei_metadata` row, the embedding text and the
  printed form.
- `SqliteRepository`:
  - the identity store as a class whose fields are its two tables (maps keyed by the primary key),
    plus the order of a table scan;
  - the read queries as functions of the tables;
  - `enrich_company` as a method that updates one row in place.
- `WikidataQueries`: the pure part of the knowledge-base client.
  - It maps a single-item response.
  - It groups batch bindings by LEI, both as a reference definition and as the loop's own fold.
  - It completes a batch result with empty entries.
  - It slices a LEI list into chunks and merges the per-chunk results.
- `Enrichment`: the `EnrichmentService` class.
  - It covers the three enrichment paths, the three query methods and the write-back loop.
  - Each method is proved against a specification function, and the properties of those
    functions are proved as lemmas.
- `WikidataCache`: the `wikidata_cache` and `company_sectors` tables as fields of a class, with
  the read, the save and the cache-then-fetch operation.
- `Matching`: `MatchingService` over the identity store and a `VectorIndex` class.
  - The index's ranking is an opaque function of the upserted history, the query item and `k`.
  - The only constraint on that ranking is the protocol's promise: at most `k` items, each with
    one score.

The two protocols (`CompanyRepository` and `VectorIndex`) are modelled as concrete classes: the
identity store class plays `CompanyRepository`, and `VectorIndex` is a class of its own.
Timestamps (`datetime.now().isoformat()`) are an opaque `Timestamp` parameter `now`.

## Model

| member | source | states |
|---|---|---|
| Models.Company.HasSectorData | tests/test_models.py:4-16 | a company has sector data exactly when it differs from its unenriched form (no description, no labels) |
| Models.Company.EmbeddingText | src/core/models.py:15-17 | the text begins with the fixed prefix and the legal name, ends with the category and a full stop, and is 61 characters longer than its four fields |
| Models.Company.ToString | src/core/models.py:19-21 | the printed form begins with the name followed by the LEI, ends with the category, and is 36 characters longer than its four fields |
| Models.Company.Enrich | tests/test_models.py:9-16 | the description becomes the argument; every given label is among the labels; the company has sector data iff the new description or the label list is non-empty; the identity attributes are kept |
| Models.NewCompany | tests/test_models.py:4-7 | a company built from its seven attributes carries them and has no sector data |
| Models.FromRow | src/infrastructure/sqlite_repository.py:13-24 | a company loaded from a row carries that row's columns, with a NULL description or label list read as empty |
| Models.EnrichLifecycle | tests/test_models.py:4-16 | a fresh company has no sector data; after `enrich` with a label and a description it has sector data, the label is among its labels and the description is the given one |
| Models.EmbeddingTextDependsOnDescriptiveFields | src/core/models.py:15-17 | two companies that agree on name, city, country and category have the same embedding text, whatever their LEI, statuses or enrichment |
| Models.EmbeddingTextMentionsCategory | tests/test_models.py:18-24 | the embedding text contains "Risk characteristics" and the category |
| Models.ToStringShowsNameAndLei | src/core/models.py:19-21 | the printed form contains the legal name and the LEI |
| SqliteRepository.CompanyAt | src/infrastructure/sqlite_repository.py:92-98 | a LEI reads as None iff the metadata table has no row for it; otherwise the row's company, keyed by that LEI |
| SqliteRepository.EnrichedRows | src/infrastructure/sqlite_repository.py:109-120 | the update keeps the set of rows; only the row of the LEI changes, and only in description, labels, checked flag (set to 1) and timestamp; an absent LEI changes nothing |
| SqliteRepository.EnrichedRowReadsBack | src/infrastructure/sqlite_repository.py:100-120 | reading the company back after the update gives the in-memory enriched company; every other LEI reads as before |
| SqliteRepository.EnrichCompanyIdempotent | src/infrastructure/sqlite_repository.py:109-120 | repeating the update with the same arguments leaves every column as the first call did, apart from the timestamp |
| SqliteRepository.SqliteCompanyRepository.GetByIsin | src/infrastructure/sqlite_repository.py:43-54 | Some iff the ISIN has a mapping row whose LEI has a metadata row (inner join); the result is the mapped LEI's company |
| SqliteRepository.SqliteCompanyRepository.GetByLei | src/infrastructure/sqlite_repository.py:92-98 | None exactly when the metadata table has no row for the LEI; otherwise the company with that LEI and that row's name |
| SqliteRepository.SqliteCompanyRepository.MatchedIsins | src/infrastructure/sqlite_repository.py:71-78 | the ISINs the `IN` list matches: each requested ISIN that has both rows, exactly once, and no other |
| SqliteRepository.MatchedIsinsInRequestOrder | src/infrastructure/sqlite_repository.py:71-78 | the row order the model picks for this query, which has no `ORDER BY` (see "## Left out"): the matched ISINs are ordered by their first occurrence in the request |
| SqliteRepository.SqliteCompanyRepository.GetByIsins | src/infrastructure/sqlite_repository.py:66-80 | [] for an empty request; one company per matched ISIN, the one `get_by_isin` returns for it, so a repeated ISIN adds nothing, two ISINs of one LEI add two rows, and unmatched ISINs are absent; a company is in the result iff some requested ISIN resolves to it |
| SqliteRepository.SqliteCompanyRepository.JoinIsins | src/infrastructure/sqlite_repository.py:71-80 | the joined rows: one per matched ISIN outside the ISINs already seen, position by position |
| SqliteRepository.SqliteCompanyRepository.JoinIsinsMembers | src/infrastructure/sqlite_repository.py:71-80 | a company is among the joined rows iff some requested ISIN outside those already seen resolves to it |
| SqliteRepository.GetByIsinsAllFound | src/infrastructure/sqlite_repository.py:66-80 | for distinct ISINs that all resolve, one company per ISIN, each the one the single lookup returns |
| SqliteRepository.SqliteCompanyRepository.GetByIsinsStored | src/infrastructure/sqlite_repository.py:66-80 | every company the batch read returns is the one `lei_metadata` holds under its LEI |
| SqliteRepository.SqliteCompanyRepository.ListAll | src/infrastructure/sqlite_repository.py:122-133 | at most `limit` companies (the limit defaults to 100; a negative limit gives all of them), in scan order, each as the LEI lookup returns it |
| SqliteRepository.SqliteCompanyRepository.EnrichCompany | src/infrastructure/sqlite_repository.py:100-120 | the metadata table becomes the enriched table; the mapping table and the scan order are unchanged |
| WikidataQueries.LastSegment | src/core/enrichment_service.py:162 | the result contains no slash, is a suffix of the input, and is preceded by a slash when it is shorter than the input |
| WikidataQueries.LastSegmentOfUri | src/core/enrichment_service.py:162 | the entity id is recovered from a URI ending in a slash and that id |
| WikidataQueries.IdOf | src/core/enrichment_service.py:217-219 | an id exactly when the binding has an item; the id is the part of the item URI after its last slash (no slash in it, a suffix of the URI) |
| WikidataQueries.SectorsOf | src/core/enrichment_service.py:164-168 | one sector per binding with an industry label: a sector is listed iff some binding carries its label |
| WikidataQueries.SectorsOfAppend | src/core/enrichment_service.py:164-168 | the sectors of two binding lists are the concatenation of their sectors, so order is kept and duplicates are not removed |
| WikidataQueries.MapSingle | src/core/enrichment_service.py:155-172 | an id exactly when the request succeeded, there are bindings and the first has an item; otherwise the empty result; an id comes with the first binding's description and all labelled sectors |
| WikidataQueries.MapSingleId | src/core/enrichment_service.py:157-162 | the single-item id is the entity id of the first binding's URI |
| WikidataQueries.WithLei | src/core/enrichment_service.py:210-213 | the bindings kept under a LEI are exactly those that carry it (missing or empty LEIs are skipped), in response order |
| WikidataQueries.GroupStep | src/core/enrichment_service.py:210-227 | a binding without a non-empty LEI changes nothing; otherwise its LEI becomes a key, other entries are kept, an existing entry keeps its id and description, a new one takes them from the binding, and the binding's label, if any, is appended to the sectors |
| WikidataQueries.Grouped | src/core/enrichment_service.py:209-227 | after the grouping loop there is an entry for exactly the LEIs the response carries |
| WikidataQueries.ByLei | src/core/enrichment_service.py:209-227 | the grouped map has exactly one key per LEI the response carries |
| WikidataQueries.LeisInHasGroup | src/core/enrichment_service.py:210-215 | a LEI is carried iff its group of bindings is non-empty |
| WikidataQueries.GroupedAt | src/core/enrichment_service.py:209-227 | after the grouping loop a LEI has an entry iff some binding carries it, and that entry is built from exactly its bindings |
| WikidataQueries.GroupedIsByLei | src/core/enrichment_service.py:209-227 | the grouping loop computes the reference grouping |
| WikidataQueries.WithLeiFirst | src/core/enrichment_service.py:215-222 | the first binding carrying a LEI heads its group |
| WikidataQueries.Completed | src/core/enrichment_service.py:229-235 | keys are the grouped LEIs plus every requested LEI; grouped entries are kept; every requested LEI that was missing maps to the empty result |
| WikidataQueries.BatchResult | src/core/enrichment_service.py:186-243 | {} for no LEIs; every requested LEI is a key; on failure the keys are exactly the requested LEIs, each with the empty result |
| WikidataQueries.BatchEntryFromBindings | src/core/enrichment_service.py:209-227 | a LEI's id and description come from the first binding carrying it, and its sectors list every labelled binding of that LEI in order |
| WikidataQueries.BatchMissingIsEmpty | src/core/enrichment_service.py:229-243 | a requested LEI that no binding carries, or any LEI of a failed request, maps to the empty result |
| WikidataQueries.Chunks | src/core/enrichment_service.py:179-180 | no slices for a negative size; otherwise the input length divided by the size, rounded up, slices, each non-empty and at most the size |
| WikidataQueries.ChunksPartition | src/core/enrichment_service.py:179-180 | the slices concatenate back to the input; all but the last are exactly the chunk size |
| WikidataQueries.ChunksFrom | src/core/enrichment_service.py:179-180 | the slices the loop takes from position i on: none exactly when i is past the end |
| WikidataQueries.ChunksFromIsChunks | src/core/enrichment_service.py:179-180 | the loop's slices from any position i are the slices of the list from i on, so from position 0 they are all the slices |
| WikidataQueries.Requests | src/core/enrichment_service.py:179-181 | one batch request per slice, in slice order |
| WikidataQueries.MergedAppend | src/core/enrichment_service.py:179-182 | one more slice appends its request and overwrites the merged results with its own |
| WikidataQueries.Merged | src/core/enrichment_service.py:177-184 | no slices give {}; every LEI of any slice is a key of the merged results |
| WikidataQueries.ChunkedResultsTotal | src/core/enrichment_service.py:174-184 | the chunked lookup returns a result for every LEI it was given |
| WikidataQueries.MergedLastWins | src/core/enrichment_service.py:182 | for a LEI in the last slice, the merged entry is that slice's entry |
| Enrichment.LabelsOf | src/core/enrichment_service.py:57 | the labels of the sectors, position by position |
| Enrichment.ApplyInfo | src/core/enrichment_service.py:55-59 | identity kept; on a truthy id the labels and the description (None read as "") are applied; otherwise the company is unchanged |
| Enrichment.PersistInfo | src/core/enrichment_service.py:55-60 | the table is untouched without a truthy id; with one, the LEI's row gets the same description and labels |
| Enrichment.PersistedMatchesReturned | src/core/enrichment_service.py:55-60 | reading the company back after the write gives the company that is returned |
| Enrichment.ApplyInfoGivesSectorData | src/core/enrichment_service.py:55-59 | a hit with a description or a sector gives a company with sector data |
| Enrichment.Lookup | src/core/enrichment_service.py:94 | a LEI without an entry reads as the empty result |
| Enrichment.Pending | src/core/enrichment_service.py:73-83 | never longer than the list; every pending company is in the list and has no sector data |
| Enrichment.PendingIndicesSpec | src/core/enrichment_service.py:73-83 | the recorded positions hold exactly the companies needing enrichment, in increasing order, and every company without sector data is listed |
| Enrichment.PendingMembers | src/core/enrichment_service.py:78-83 | a company is pending iff it is in the list and has no sector data |
| Enrichment.LeisOf | src/core/enrichment_service.py:86 | the LEIs of the companies, position by position |
| Enrichment.WriteBack | src/core/enrichment_service.py:91-101 | the write-back never adds or removes a row |
| Enrichment.WriteBackReadsBackAt | src/core/enrichment_service.py:91-103 | after the write-back, a stored company reads back with its lookup applied when it was pending, and unchanged otherwise, even when it was pending twice |
| Enrichment.BatchPersistedMatchesReturned | src/core/enrichment_service.py:91-103 | on the batch path, each company of the list reads back from the store as the company returned at its position |
| Enrichment.BatchStoreReadsBack | src/core/enrichment_service.py:91-105 | at every position of the returned list, the store holds that position's company under its LEI |
| Enrichment.WriteBackFrame | src/core/enrichment_service.py:91-103 | the write-back leaves the row of every LEI that was not pending unchanged |
| Enrichment.AllPositionsWritten | src/core/enrichment_service.py:91-105 | when each recorded position holds its company with the lookup applied, and every other position holds its company, the list is the enriched list |
| Enrichment.SentLeisNeedEnrichment | src/core/enrichment_service.py:78-89 | every LEI sent to the knowledge base belongs to a company without sector data |
| Enrichment.PendingAnswered | src/core/enrichment_service.py:85-94 | every company needing enrichment has its LEI in the chunked lookup's results |
| Enrichment.GroupBindings | src/core/enrichment_service.py:209-227 | the grouping loop yields the reference grouping by LEI |
| Enrichment.PartitionBySectorData | src/core/enrichment_service.py:69-83 | every company is kept at its position; the pending companies and their positions are listed in order |
| Enrichment.Enriched | src/core/enrichment_service.py:69-105 | the list is as long as the store's result; companies with sector data are kept as they are; every position keeps its company's identity |
| Enrichment.EnrichmentService.constructor | src/core/enrichment_service.py:11-14 | the service keeps the store, the session and the batch size, which defaults to 30 |
| Enrichment.EnrichmentService.QueryWikidata | src/core/enrichment_service.py:127-172 | exactly one single-item request, and the mapping of its response |
| Enrichment.EnrichmentService.QueryWikidataBatch | src/core/enrichment_service.py:186-243 | no request for no LEIs, otherwise exactly one; the result is the batch result of the response |
| Enrichment.EnrichmentService.ChunkedQueryWikidata | src/core/enrichment_service.py:174-184 | one batch request per slice, in order; the result is the per-slice results merged, with later slices winning |
| Enrichment.EnrichmentService.ApplyAndPersist | src/core/enrichment_service.py:55-60 | returns the company with the lookup applied and persists the same data; only the metadata table changes |
| Enrichment.EnrichmentService.EnsureEnrichedCompanyByIsin | src/core/enrichment_service.py:44-62 | an unknown ISIN or a company with sector data returns at once, with no request and no write; otherwise one request, and the lookup is applied and persisted on a hit |
| Enrichment.EnrichmentService.EnsureEnrichedCompanyByLei | src/core/enrichment_service.py:107-125 | the same as the ISIN path, keyed by LEI |
| Enrichment.EnrichmentService.EnsureEnrichedCompaniesByIsins | src/core/enrichment_service.py:64-105 | the result is the enriched list of the store's companies; requests are one chunked lookup of the pending LEIs, none when nothing is pending; the table gets the write-back of the pending companies; each returned company is what the store now holds under its LEI |
| Enrichment.EnrichmentService.WriteBackResults | src/core/enrichment_service.py:91-105 | the loop writes each hit back in pending order and leaves the list equal to the enriched list |
| WikidataCache.SectorsFor | src/infrastructure/sqlite_wikidata_repository.py:22-30 | a label and id pair is returned iff some sector row of the LEI carries it, and there are never more pairs than rows |
| WikidataCache.SectorsForAppend | src/infrastructure/sqlite_wikidata_repository.py:22-30 | the sectors read from two blocks of rows are those of the first block followed by those of the second, so the read keeps table order and one pair per row |
| WikidataCache.Without | src/infrastructure/sqlite_wikidata_repository.py:43 | a row survives the delete iff it belongs to another LEI |
| WikidataCache.RowsOf | src/infrastructure/sqlite_wikidata_repository.py:44-48 | one inserted row per sector, all under the given LEI |
| WikidataCache.SavedRows | src/infrastructure/sqlite_wikidata_repository.py:43-48 | after the delete and the inserts, the rows of other LEIs are exactly the old ones, and the LEI's rows read as exactly the saved sectors (None read as empty) |
| WikidataCache.SectorsForWithout | src/infrastructure/sqlite_wikidata_repository.py:43 | after the delete the LEI has no sector rows, and every other LEI's sectors are unchanged |
| WikidataCache.SectorsForRowsOf | src/infrastructure/sqlite_wikidata_repository.py:44-48 | the inserted rows read back as exactly the saved sectors, in order, and as nothing under any other LEI |
| WikidataCache.SaveRoundTrip | src/infrastructure/sqlite_wikidata_repository.py:12-48 | after a save the LEI's sectors are exactly the saved ones, as a sequence and as a multiset (None read as empty); other LEIs are unchanged |
| WikidataCache.Labels | src/infrastructure/sqlite_wikidata_repository.py:59 | the labels of the sectors, position by position |
| WikidataCache.Qids | src/infrastructure/sqlite_wikidata_repository.py:60 | the ids of the sectors, position by position |
| WikidataCache.SqliteWikidataRepository.GetCachedWikidata | src/infrastructure/sqlite_wikidata_repository.py:12-31 | None exactly when the LEI has no cache row; on a hit, the row's id and description and one sector per sector row of the LEI |
| WikidataCache.SqliteWikidataRepository.SaveWikidataInformation | src/infrastructure/sqlite_wikidata_repository.py:33-48 | the cache row is replaced and the LEI's sector rows are replaced; the LEI reads back as what was saved, and every other LEI reads as before |
| WikidataCache.SqliteWikidataRepository.SetWikidataInfo | src/infrastructure/sqlite_wikidata_repository.py:50-60 | the lookup is asked only on a miss, and what it returns is saved; on a hit nothing changes; labels and ids come from the same sector list, position by position; the LEI is a hit afterwards |
| Matching.VectorIndex.UpsertEmbedding | src/core/interfaces.py:16-18 | the batch is recorded after the earlier ones |
| Matching.VectorIndex.RetrieveMatches | src/core/interfaces.py:20-22 | the ranking for the current contents, with at most k items, each with one score |
| Matching.MatchingService.FindIsin | src/core/matching_service.py:14-15 | exactly the store's answer for the ISIN, None included |
| Matching.MatchingService.FindMatches | src/core/matching_service.py:17-21 | the looked-up company (possibly None) and k go to the index unchanged; the scores come back unchanged; the i-th company is the store's answer for the i-th LEI; at most k results |
| Matching.MatchingService.InsertEmbedding | src/core/matching_service.py:23-26 | upserts exactly the one-element list of the store's answer for the ISIN, even when it is None |

## Left out

- HTTP transport, retries, timeouts and headers: the session is an `Oracle` whose answer is either the bindings or a failure. A failed request, an HTTP error or an undecodable body are all the failure case.
- A `KeyError` inside the batch grouping loop cannot happen with the modelled binding shape, so the failure branch is reached only through a failed request.
- The SPARQL query text is left out. A request is identified by the LEIs it asks about.
- `_query_wikidata`'s `max_retries` parameter is left out, because the code never uses it.
- `init_db`, the table creation and the PRAGMAs are left out; the tables are given to the constructors.
- `MatchingService.init_sqlite` and `init_vector_db` are left out. They call `init_db` methods that the repository classes do not define.
- The `print` in `insert_embedding` is left out.
- `datetime.now()` is left out: the timestamp is the parameter `now`.
- The ChromaDB adapter and the embedding model are left out. The index's ranking is an opaque function of what was upserted.
- The bulk CSV loaders, the CLI scripts and the connection factory are left out; they are file and database I/O.
- The `CompanyRepository` and `VectorIndex` protocols are concrete classes rather than interfaces.
- `Company` is a value, not a shared mutable object. The in-place `enrich` is modelled by returning the enriched value, which the batch path stores back at the company's position. Aliasing between the returned object and other references to it is not modelled.
- `set_wikidata_info` assigns `sector_qids` on the company, but the entity has no such field. The model returns the ids as a second result.
- `query_wikidata` is imported from a module that does not define it. It is modelled as an `Oracle` from LEI to fetched information.
- A fetched sector without a `qid` (a `KeyError` when saving) is not modelled: every sector carries both fields.
- NULL identity columns (name, city, and so on) are read as strings. Only a NULL description or label list is modelled, and each reads as empty.
- `sector_labels` is stored as a JSON string. The model stores the label list itself.
- `get_by_isins` has no `ORDER BY`, so SQL leaves its row order open. The model takes the rows in the order in which the ISINs are first requested. An ISIN listed twice yields one row, as the `IN` list does.
- `ListAll` and the table scan follow a fixed scan order given to the constructor.
- The `company_sectors` rows are kept in insertion order. SQL leaves that order unspecified, so the save round trip is also stated as a multiset equality.
- `Company.enrich`, `has_sector_data`, `description`, `sector_labels` and `from_row` are used by the code but are not defined in the entity's module. Where the code needs them, the model makes two choices, listed next.
- `has_sector_data` is read as a property, as the service reads it (`src/core/enrichment_service.py:50`, `78`, `113`). The tests disagree: `tests/test_models.py:7` calls it as a method and `tests/test_models.py:14` reads it as an attribute, so at most one of them can pass. A plain method read as an attribute would always be truthy, and no company would ever be queried.
- `has_sector_data` holds when the description or the label list is non-empty. No test asserts this rule: the tests check only a fresh company (false) and one enriched with both a label and a description (true).
- Models.Company.Enrich: states that every given label is among the labels (as the tests assert), not that the labels are replaced, although the model does replace them.
- Matching.VectorIndex.RetrieveMatches: "at most k items, one score each" is assumed of the index (the protocol's promise), not proved.
- Enrichment.EnrichmentService.ChunkedQueryWikidata: a chunk size of 0 makes Python's `range` raise. The model requires a non-zero size, and the batch path requires a non-zero batch size whenever a company is pending.
- The embedding text uses the one template in `src/core/models.py:15-17`; no other template exists in the code.
- There is no ISIN normaliser and there are no not-found error types in the code, so neither is modelled. Lookups return `None` instead.
- `get_by_isins` is annotated as returning `List[Company | None]`, and its docstring says "otherwise none" (`src/infrastructure/sqlite_repository.py:56`, `64`). The query, however, drops an unmatched ISIN rather than keeping a `None` at its position, and the model follows the query. The batch enrichment path therefore returns one entry per found company.
- The `if not company` branch of the batch path is dead, because `get_by_isins` never yields `None`. Every position of the model's result is a company.
