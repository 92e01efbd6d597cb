# Async API sprint 1: ETL and search-service model

This project models the core of a small movie catalogue.

- **ETL.** It copies films, people and genres from Postgres into an Elasticsearch `movies` index.
- **API services.** They read that index, with Redis as a cache in front of it.

Every external system becomes a value:

- **Postgres** is a map from table name to its rows. Each row carries an id and an integer `updated_at`.
- **Elasticsearch** is a map from index name to a map from document id to document. A search over the index is a function from request to hits.
- **Redis** is a map from key to value.
- **The checkpoint store** is a map from stream key to watermark.
- **The merger and the enricher** (the SQL joins that produce merge rows and related film ids) are function parameters.

The modules follow the source files:

| module | source file | what it is |
|---|---|---|
| `MergeRows` | the merge-row shape shared by both builders | the flat join row; how its role column reads |
| `AppTransform` | app/etl/transform.py | `Transform`: one document per film, person lists deduplicated by name |
| `FilmWorksTransform` | etl/film_works/transform.py | `Transform`: role-keyed lists; structured lists and genres keep duplicates; a truthy role other than director, actor, writer or genre raises, and a `genre`-role person lands in the genre lists |
| `Producer` | fastapi-solution/src/services/film_work_etl/etl/producer.py and its copy fastapi-solution/src/services/etl/common/components/base_producer.py | `BaseProducer.load_data`: watermark filter, `ORDER BY updated_at`, `fetchmany` batching; the three table bindings |
| `EtlProcess` | fastapi-solution/src/services/film_work_etl/etl_process.py | `run_film_works_etl`, `run_universal_etl` and one cycle of `main` over a `SyncEnv` (checkpoints, index, call log) |
| `Loader` | app/etl/elasticsearch_loader.py | `ElasticsearchLoader`: create-if-absent, bulk `index` actions, write |
| `ExtractorBase` | fastapi-solution/src/services/film_work_etl/etl/base.py | `BaseExtractor.execute` (rollback and log an integrity error) and the `VALUES` placeholder template |
| `RequestUtils` | fastapi-solution/src/api/v1/utils.py | `get_page` and `get_filter` over the query parameters |
| `FilmSearch` | fastapi-solution/src/services/film.py | sort and filter translation into a search request, empty-to-None, cache-aside `get_by_id` |
| `FilmPersonService` | fastapi-solution/src/services/film_service.py | hit-to-person aggregation, role searches, both cache-aside reads |
| `Wrappers`, `SeqUtil`, `Dicts` | (shared) | `Option`/`Result`, sequence helpers, Python's insertion-ordered `dict` as a sequence of pairs |

## How each part is modelled

- **The two `create_documents` methods** are methods with nested `while` loops on a class field `baseDict`. Each is proved equal to a left fold over the flattened rows (`Build`). The properties are lemmas about `Build`:
  - one document per film;
  - the last row's scalars win;
  - the lists are duplicate-free, aligned, and counted;
  - the film-works variant raises on a role whose lists the document lacks, and files a `genre`-role person under the genres.
- **`load_data`** is a method whose `fetchmany` loop is proved to yield `Chunk(Selected(rows, startFrom), n)`. Lemmas show:
  - the batches concatenate to the filtered, ordered rows;
  - each batch is non-empty and at most `n` long;
  - a batch's last revision bounds everything emitted so far, so it is a safe watermark.
- **The orchestrator** is a class `SyncEnv` whose methods are proved equal to fold functions over a `Snapshot`. The snapshot holds the checkpoints, the index, an event log (`Merged`, `Enriched`, `Wrote`, `Checkpoint`) and the error that stopped the run. Lemmas over the log show the order of the steps:
  - in the film stream, the merger receives exactly the batch ids and each checkpoint is preceded by a write;
  - in the related-entity streams, the enricher receives each scanned batch's ids; the merger then receives the ids of every film batch the enricher returned, one merge and one write each, before that batch's checkpoint;
  - watermarks rise;
  - the final checkpoint is the last scanned row;
  - nothing outside the stream's key moves.
- **The API helpers** are functions, and methods where the source loops. Each is paired with a reference definition or an inverse:
  - integer printing for `int()`;
  - a parser for the placeholder template;
  - `ClauseFilter` for the nested clauses;
  - `Appearances` and `FirstChoice` for the person aggregation;
  - `LastWithId` for the bulk write.

### Where the code and its description differ

- **`run_universal_etl` always scans the `person` table.** It does so through `PersonProducer`, whatever `producer_table_name` is. It still reads and stores the checkpoint under `producer_table_name`. So the `genre` stream of `main` rescans persons and stores a person revision as the genre watermark. The model follows the code (`EtlProcess.UniversalRun` scans `"person"`), and `EtlProcess.UniversalRunCheckpoint` states the consequence.
- **`get_person_by_ids` deduplicates matching entries by id, keeping the last.** `_get_person_from_elastic` keeps all matches and takes the first. With several entries for one person id in one role list, the two methods can report different names. The model keeps both behaviours (`FilmPersonService.Chosen` with `dedup`).

## Model

| member | source | states |
|---|---|---|
| MergeRows.Classify | app/etl/transform.py:67-71 | a row has no role exactly when its role is None or empty; director, actor and writer are recognised by their exact strings; any other value is an unknown role carrying that string |
| AppTransform.AppendNew | app/etl/transform.py:69-70 | appending a name only when it is absent extends the list, adds exactly that name to its set of names, and keeps a duplicate-free list duplicate-free |
| AppTransform.AddAdditionInfo | app/etl/transform.py:53-86 | the scalars and genre are untouched; every list only grows; a director, actor or writer row adds its name to exactly that role's names; an actor or writer whose name is new gets exactly one `{id, name}` entry carrying the row's person id and name, and otherwise the entry list is unchanged; any other role leaves the document unchanged; name/entry alignment and no-duplicates are preserved |
| AppTransform.Build | app/etl/transform.py:14-51 | the documents are keyed by exactly the film ids that occur in the rows |
| AppTransform.BuildWellFormed | app/etl/transform.py:71-85 | every document sits under its own id; each person list is duplicate-free; the actor and writer name lists align position by position with their `{id, name}` lists |
| AppTransform.BuildLatestScalars | app/etl/transform.py:40-47 | a film's id, rating, title and description are those of its last row |
| AppTransform.BuildGenreFirst | app/etl/transform.py:33 | a film's genre list is the genre of its first row, never extended by later rows |
| AppTransform.BuildPersonNames | app/etl/transform.py:68-85 | the director, actor and writer name sets of a film are exactly the names of its rows in that role |
| AppTransform.StepNames | app/etl/transform.py:26-51 | one row adds its person's name to the name set of its own role in its own film, and changes no other name set |
| AppTransform.SameNameOneEntry | app/etl/transform.py:75-85 | two actor rows with one name but different person ids give a single `{id, name}` entry, the first one |
| AppTransform.Transform.constructor | app/etl/transform.py:10-12 | a new transform starts with no documents |
| AppTransform.Transform.AddRow | app/etl/transform.py:26-51 | one row updates the accumulator by exactly one fold step |
| AppTransform.Transform.CreateDocuments | app/etl/transform.py:14-51 | after the call the documents are the fold of all rows of all batches from an empty accumulator, whatever was there before |
| FilmWorksTransform.NewDocument | etl/film_works/transform.py:26-40 | a new film's document has the row's id, rating, title and description and eight empty lists, so it keeps the dedup invariant and its genre lists are aligned |
| FilmWorksTransform.AddPerson | etl/film_works/transform.py:70-84 | the name list gains the row's name at most once and only grows; the structured entry with the row's person id and name is always appended; the invariant "names = the names of the entries, no duplicates" is kept |
| FilmWorksTransform.AddAdditionPersonInfo | etl/film_works/transform.py:55-85 | it fails exactly for a truthy role other than director, actor, writer and genre, with the missing `<role>s_names` key; a falsy role changes nothing; otherwise only the lists of the row's role change (the genre lists for role `genre`), by the row's entry and at most its name, and the invariant is kept |
| FilmWorksTransform.AddAdditionGenresInfo | etl/film_works/transform.py:87-111 | only the two genre lists change, each by exactly the row's genre appended at the end; alignment is kept |
| FilmWorksTransform.ErrorSticky | etl/film_works/transform.py:24-53 | once a row has raised, no later row changes anything |
| FilmWorksTransform.BuildFailsIff | etl/film_works/transform.py:70-74 | the build fails exactly when some row has a truthy role other than director, actor, writer and genre |
| FilmWorksTransform.BuildFailsAtFirstUnknown | etl/film_works/transform.py:71-74 | the reported missing key is that of the first row whose truthy role is not director, actor, writer or genre |
| FilmWorksTransform.BuildInvariant | etl/film_works/transform.py:13-53 | only films of the input get documents, all of them when nothing raised; each document sits under its own id and keeps the invariant (person name lists duplicate-free and equal as sets to their entries' names; genre names equal as a set to the genre entries' names, never more of them) |
| FilmWorksTransform.BuildGenreCount | etl/film_works/transform.py:70-109 | after a successful build a film's `genres` has one entry per row of the film plus one per `genre`-role row; with no `genre`-role row both genre lists are aligned, one entry per row |
| FilmWorksTransform.GenreStep | etl/film_works/transform.py:49-109 | one successful row adds one genre entry to its own film, plus its person for role `genre`, and keeps the genre lists aligned unless its role is `genre` |
| FilmWorksTransform.GenreRoleRows | etl/film_works/transform.py:70-109 | the same `genre`-role row twice for a new film gives `genres` = person, genre, person, genre but only three `genres_names`, so the two lists are no longer aligned |
| FilmWorksTransform.BuildRoleCount | etl/film_works/transform.py:70-84 | after a successful build a role's `{id, name}` list has one entry per row of that role, duplicates included, and its name list holds exactly the distinct names |
| FilmWorksTransform.RoleStep | etl/film_works/transform.py:26-53 | one successful row adds exactly one `{id, name}` entry and its name to its own role in its own film, and nothing to any other role or film |
| FilmWorksTransform.BuildLatestScalars | etl/film_works/transform.py:41-48 | after a successful build a film's scalars are those of its last row |
| FilmWorksTransform.RepeatedActorKept | etl/film_works/transform.py:79-84 | the same actor row twice gives two structured entries and one name |
| FilmWorksTransform.Transform.constructor | etl/film_works/transform.py:9-11 | a new transform starts with no documents |
| FilmWorksTransform.Transform.AddRow | etl/film_works/transform.py:26-53 | one row is one fold step; on a missing key the new film is not stored and the error is returned |
| FilmWorksTransform.Transform.CreateDocuments | etl/film_works/transform.py:13-53 | the documents and the error are those of the fold over all rows from an empty accumulator; an error stops the loop with what was built so far |
| Producer.FilterFrom | fastapi-solution/src/services/film_work_etl/etl/producer.py:42-44 | a row is kept exactly when there is no watermark or its revision is at least the watermark, and each kept row occurs exactly as often as in the table |
| Producer.OrderByUpdated | fastapi-solution/src/services/film_work_etl/etl/producer.py:45-46 | the result is sorted by revision and is a permutation of the input |
| Producer.Selected | fastapi-solution/src/services/film_work_etl/etl/producer.py:42-46 | the result set is sorted by revision and holds exactly the qualifying rows, each as often as in the table |
| Producer.ChunkSpec | fastapi-solution/src/services/film_work_etl/etl/producer.py:53-60 | the batches concatenate to the result set; each is non-empty and at most `n` long; all but the last are exactly `n` long |
| Producer.WatermarkBoundsEmitted | fastapi-solution/src/services/film_work_etl/etl/producer.py:45-60 | the last row of a batch has a revision at least that of every row emitted up to and including that batch |
| Producer.ResumeNoLoss | fastapi-solution/src/services/film_work_etl/etl/producer.py:42-60 | every qualifying row was either emitted up to a batch or is selected again when resuming from that batch's last revision |
| Producer.FetchBatches | fastapi-solution/src/services/etl/common/components/base_producer.py:52-59 | the `fetchmany` loop yields exactly the chunking of the result set |
| Producer.BaseProducer.constructor | fastapi-solution/src/services/etl/common/components/base_producer.py:20-23 | the base binds the connection with an empty table name and no record type |
| Producer.BaseProducer.Person | fastapi-solution/src/services/film_work_etl/etl/producer.py:72-75 | the person producer reads table `person` into person records |
| Producer.BaseProducer.FilmWork | fastapi-solution/src/services/film_work_etl/etl/producer.py:87-90 | the film producer reads table `film_work` into film records |
| Producer.BaseProducer.Genre | fastapi-solution/src/services/film_work_etl/etl/producer.py:102-105 | the genre producer reads table `genre` into genre records |
| Producer.BaseProducer.LoadData | fastapi-solution/src/services/film_work_etl/etl/producer.py:41-60 | the call fails (naming the table) exactly when the table is missing; otherwise it yields the chunked, filtered, ordered rows |
| EtlProcess.Ids | fastapi-solution/src/services/film_work_etl/etl_process.py:41 | the ids are the batch's row ids, position by position |
| EtlProcess.LastStamps | fastapi-solution/src/services/film_work_etl/etl_process.py:49-52 | one stamp per batch: the revision of its last row |
| EtlProcess.Batches | fastapi-solution/src/services/film_work_etl/etl_process.py:36-38 | the stream's batches are the producer's chunking and none is empty |
| EtlProcess.Scan | fastapi-solution/src/services/film_work_etl/etl_process.py:84-89 | a scan from the stored checkpoint yields only non-empty batches |
| EtlProcess.FilmLoopFailed | fastapi-solution/src/services/film_work_etl/etl_process.py:39-52 | once a step has raised, the remaining batches change nothing |
| EtlProcess.FilmBatchLog | fastapi-solution/src/services/film_work_etl/etl_process.py:39-52 | a successful film batch asks the merger for its ids once and stores its last revision once |
| EtlProcess.FilmLoopMergedIds | fastapi-solution/src/services/film_work_etl/etl_process.py:40-43 | a successful film run hands the merger exactly the ids of each batch, in batch order |
| EtlProcess.FilmLoopWatermarks | fastapi-solution/src/services/film_work_etl/etl_process.py:49-52 | a successful film run stores exactly one watermark per batch, the last row's revision, in order |
| EtlProcess.FilmLoopWriteBeforeCheckpoint | fastapi-solution/src/services/film_work_etl/etl_process.py:44-52 | the log only grows, and every checkpoint it gains comes right after a write |
| EtlProcess.FilmBatchWriteBeforeCheckpoint | fastapi-solution/src/services/film_work_etl/etl_process.py:44-52 | one film batch only appends to the log, and appends a checkpoint only right behind its write |
| EtlProcess.FilmLoopState | fastapi-solution/src/services/film_work_etl/etl_process.py:39-52 | no batches leave everything unchanged; otherwise the film checkpoint holds the last row of the last batch and the index only gains ids |
| EtlProcess.FilmLoopCheckpoint | fastapi-solution/src/services/film_work_etl/etl_process.py:39-52 | after a successful film run over some batches, the film checkpoint holds the revision of the last row of the last batch |
| EtlProcess.FilmLoopIndexesMerged | fastapi-solution/src/services/film_work_etl/etl_process.py:43-47 | after a successful run every film the merger returned for any batch has a document in the index |
| EtlProcess.ScanStampsAscending | fastapi-solution/src/services/film_work_etl/etl_process.py:36-38 | the batches' last revisions rise and are at least the starting watermark |
| EtlProcess.FilmWorksRunWatermarks | fastapi-solution/src/services/film_work_etl/etl_process.py:36-52 | the watermarks a film run stores rise and never fall below the checkpoint it started from |
| EtlProcess.FilmWorksRunNothingNew | fastapi-solution/src/services/film_work_etl/etl_process.py:38-39 | a run whose scan selects no row writes nothing and leaves the checkpoint alone |
| EtlProcess.FilmWorksRunSafeResume | fastapi-solution/src/services/film_work_etl/etl_process.py:36-52 | after a successful run the checkpoint is the revision of the last scanned row, which bounds every scanned row |
| EtlProcess.WriteAllFrame | fastapi-solution/src/services/film_work_etl/etl_process.py:95-103 | the inner write loop never touches a checkpoint |
| EtlProcess.WriteLogShape | fastapi-solution/src/services/film_work_etl/etl_process.py:95-103 | the inner loop's events alternate: the k-th film batch is merged at position 2k, with exactly its ids, and written at 2k + 1 |
| EtlProcess.WriteLogCalls | fastapi-solution/src/services/film_work_etl/etl_process.py:95-98 | the inner loop hands the merger exactly the ids of every film batch, in order, and calls no enricher |
| EtlProcess.WriteLogEnds | fastapi-solution/src/services/film_work_etl/etl_process.py:95-103 | the inner loop stores no checkpoint and, when it had a film batch, ends with a write |
| EtlProcess.WriteAllLog | fastapi-solution/src/services/film_work_etl/etl_process.py:95-103 | an inner loop that wrote every film batch appended exactly one merge and one write per batch |
| EtlProcess.WriteAllNoCheckpoint | fastapi-solution/src/services/film_work_etl/etl_process.py:95-103 | the inner loop only appends to the log, and appends no checkpoint, even when it stops on an error |
| EtlProcess.RelatedBatchLog | fastapi-solution/src/services/film_work_etl/etl_process.py:90-107 | a successful producer batch logs its enrichment, then one merge and one write per film batch the enricher returned, then its checkpoint |
| EtlProcess.RelatedBatchEnriched | fastapi-solution/src/services/film_work_etl/etl_process.py:92-94 | a successful producer batch hands its row ids to the enricher exactly once |
| EtlProcess.RelatedBatchMerged | fastapi-solution/src/services/film_work_etl/etl_process.py:94-98 | a successful producer batch hands the merger the ids of every film batch the enricher returned, in order |
| EtlProcess.RelatedLoopEnriched | fastapi-solution/src/services/film_work_etl/etl_process.py:90-94 | a successful related-entity run hands the enricher the ids of every scanned batch, in scan order |
| EtlProcess.RelatedLoopMerged | fastapi-solution/src/services/film_work_etl/etl_process.py:90-98 | a successful related-entity run hands the merger, scanned batch by scanned batch, the ids of every film batch the enricher returned |
| EtlProcess.RelatedLoopCheckpointOrder | fastapi-solution/src/services/film_work_etl/etl_process.py:90-107 | the log only grows, and every checkpoint it gains comes right after a write or right after an enrichment, even when the run stops on an error; `EtlProcess.RelatedBatchLog` gives the exact per-batch sequence |
| EtlProcess.RelatedBatchCheckpointOrder | fastapi-solution/src/services/film_work_etl/etl_process.py:90-107 | one producer batch only appends to the log, and appends its checkpoint only right after its last write or its enrichment |
| EtlProcess.RelatedLoopFailed | fastapi-solution/src/services/film_work_etl/etl_process.py:90-107 | once a step has raised, the remaining producer batches change nothing |
| EtlProcess.RelatedBatchNoFilms | fastapi-solution/src/services/film_work_etl/etl_process.py:94-107 | a producer batch whose enricher yields no films writes nothing but still advances the checkpoint |
| EtlProcess.RelatedBatchStep | fastapi-solution/src/services/film_work_etl/etl_process.py:90-107 | a successful producer batch stores exactly one watermark, its last revision, under the stream's key |
| EtlProcess.RelatedLoopWatermarks | fastapi-solution/src/services/film_work_etl/etl_process.py:104-107 | a successful related-entity run stores one watermark per producer batch, in order |
| EtlProcess.RelatedLoopState | fastapi-solution/src/services/film_work_etl/etl_process.py:90-107 | after a successful run the stream's checkpoint holds the last row of the last producer batch |
| EtlProcess.UniversalRunCheckpoint | fastapi-solution/src/services/film_work_etl/etl_process.py:73-107 | whatever the stream key, a successful run scanned the `person` table, and its checkpoint becomes the last selected person's revision (or nothing changes) |
| EtlProcess.FilmLoopFrame | fastapi-solution/src/services/film_work_etl/etl_process.py:39-52 | the film loop moves only the film checkpoint, only adds index documents and only appends to the log |
| EtlProcess.RelatedLoopFrame | fastapi-solution/src/services/film_work_etl/etl_process.py:90-107 | the related-entity loop moves only its own checkpoint key |
| EtlProcess.UniversalRunFrame | fastapi-solution/src/services/film_work_etl/etl_process.py:84-107 | a related-entity run moves only its own checkpoint key |
| EtlProcess.FilmWorksRunFrame | fastapi-solution/src/services/film_work_etl/etl_process.py:36-52 | a film run moves only the film checkpoint |
| EtlProcess.CycleFrame | fastapi-solution/src/services/film_work_etl/etl_process.py:126-143 | one cycle moves only the `genre`, `person` and film checkpoints |
| EtlProcess.SyncEnv.SetState | fastapi-solution/src/services/film_work_etl/etl_process.py:49-52 | the key's watermark is replaced and the call is logged; the index is untouched |
| EtlProcess.SyncEnv.WriteToIndex | fastapi-solution/src/services/film_work_etl/etl_process.py:45-47 | every document replaces the one with its id; the checkpoints are untouched |
| EtlProcess.SyncEnv.MergeAndWrite | fastapi-solution/src/services/film_work_etl/etl_process.py:43-47 | merge, transform and write have exactly the effect of one merge-write step |
| EtlProcess.SyncEnv.FilmBatches | fastapi-solution/src/services/film_work_etl/etl_process.py:39-52 | the film loop's effect is the fold of the film-batch step |
| EtlProcess.SyncEnv.RunFilmWorksEtl | fastapi-solution/src/services/film_work_etl/etl_process.py:17-52 | the film stream's effect is that of the film run over its scan from the stored checkpoint |
| EtlProcess.SyncEnv.WriteBatches | fastapi-solution/src/services/film_work_etl/etl_process.py:95-103 | the inner loop's effect is one merge-write per film batch, in order |
| EtlProcess.SyncEnv.RelatedBatches | fastapi-solution/src/services/film_work_etl/etl_process.py:90-107 | the outer loop's effect is the fold of the producer-batch step |
| EtlProcess.SyncEnv.RunUniversalEtl | fastapi-solution/src/services/film_work_etl/etl_process.py:55-107 | the related-entity stream's effect is that of the universal run |
| EtlProcess.SyncEnv.RunCycle | fastapi-solution/src/services/film_work_etl/etl_process.py:126-143 | one cycle is the genre stream, then the person stream, then the film stream, stopping at the first error |
| Loader.GenerateData | app/etl/elasticsearch_loader.py:159-174 | one action per document, in order, each an `index` action with the document's id, the loader's index and the document as source |
| Loader.CreateIfAbsent | app/etl/elasticsearch_loader.py:141-146 | the index exists afterwards, keeping its documents if it existed; no other index changes |
| Loader.BulkIndexSemantics | app/etl/elasticsearch_loader.py:155 | the bulk write creates the index if needed; each id then holds the last document with that id, or its old document; other indices are untouched |
| Loader.WriteIdempotent | app/etl/elasticsearch_loader.py:149-157 | writing the same documents twice leaves the cluster as writing them once |
| Loader.WriteEnumeration | app/etl/elasticsearch_loader.py:155 | writing an enumeration of a dictionary's values updates the index by exactly that dictionary |
| Loader.ElasticsearchLoader.constructor | app/etl/elasticsearch_loader.py:19-30 | the index is created, and a create request sent, only when it does not exist |
| Loader.ElasticsearchLoader.CreateIndex | app/etl/elasticsearch_loader.py:33-146 | a create request is always sent; an existing index is kept as it is |
| Loader.ElasticsearchLoader.WriteToIndex | app/etl/elasticsearch_loader.py:149-157 | the cluster receives the generated actions in order; no create request; the logged count is the number of documents |
| ExtractorBase.BaseExtractor.constructor | fastapi-solution/src/services/film_work_etl/etl/base.py:14-21 | the extractor keeps its connection and starts with an empty table name |
| ExtractorBase.BaseExtractor.Execute | fastapi-solution/src/services/film_work_etl/etl/base.py:23-43 | an integrity error is swallowed after one rollback and one error record with the table name; any other error propagates unchanged and touches nothing |
| ExtractorBase.ValuesTemplate | fastapi-solution/src/services/film_work_etl/etl/base.py:59-60 | the template is parenthesised, four characters per value (two for none), and `()` exactly for no values |
| ExtractorBase.TemplateRoundTrip | fastapi-solution/src/services/film_work_etl/etl/base.py:59-60 | reading the template back gives the number of values it was built for |
| ExtractorBase.TemplateSound | fastapi-solution/src/services/film_work_etl/etl/base.py:59-60 | any string that reads as a template for `n` values is the template built for `n` |
| RequestUtils.IntRoundTrip | fastapi-solution/src/api/v1/utils.py:13 | `int` reads back every integer's decimal text |
| RequestUtils.PageOffset | fastapi-solution/src/api/v1/utils.py:10-18 | with both parameters given, the page is `size` documents from offset `(number - 1) * size` |
| RequestUtils.PageZero | fastapi-solution/src/api/v1/utils.py:12-13 | page number 0 gives offset `-size` |
| RequestUtils.PageDefaults | fastapi-solution/src/api/v1/utils.py:14-17 | without a size the page is 5 documents from 0; without a number the offset is 0 |
| RequestUtils.PageBadNumber | fastapi-solution/src/api/v1/utils.py:12-13 | a page number `int` rejects fails with that text |
| RequestUtils.FilterFieldLetters | fastapi-solution/src/api/v1/utils.py:28-29 | for a filter key, the stored field is the text between the brackets, at most 25 letters, and the key is rebuilt from it |
| RequestUtils.FilterKeyFields | fastapi-solution/src/api/v1/utils.py:28 | `filter[w]` is a filter key exactly when `w` is at most 25 ASCII letters |
| RequestUtils.GetFilter | fastapi-solution/src/api/v1/utils.py:22-30 | the loop builds the filter by assigning each filter key's value to its field, in parameter order |
| RequestUtils.FilterFields | fastapi-solution/src/api/v1/utils.py:26-29 | the filter's fields are exactly the fields of the filter keys among the parameters, each once |
| RequestUtils.FilterValues | fastapi-solution/src/api/v1/utils.py:27-29 | parameter names being distinct, each filter key's value is stored unchanged under its field |
| Dicts.PutSpec | fastapi-solution/src/api/v1/utils.py:29 | dictionary assignment keeps keys distinct, maps the key to the value, leaves other keys alone, keeps positions, and adds a new key at the end |
| FilmSearch.SortParam | fastapi-solution/src/services/film.py:102-103 | translating the sort fails exactly on the empty string |
| FilmSearch.SortRoundTrip | fastapi-solution/src/services/film.py:113-114 | `-f` sorts descending on `f`, and a field not starting with `-` sorts ascending on itself |
| FilmSearch.ClausesRoundTrip | fastapi-solution/src/services/film.py:79-97 | the clauses are one per filter entry, in order, with the entry's key as path and value; each matches on `<key>.id` |
| FilmSearch.NoneIfEmpty | fastapi-solution/src/services/film.py:37-39 | the result is None exactly for no answer or an empty one, and the answer otherwise |
| FilmSearch.SearchFilmOutcome | fastapi-solution/src/services/film.py:41-72 | a film search sends a `multi_match` on the text with fuzziness `auto`, the page and no sort to the `movies` index, and returns the hits, or None exactly when there is no answer or an empty one |
| FilmSearch.ScopeFilmsOutcome | fastapi-solution/src/services/film.py:74-118 | a scope search fails exactly on an empty sort; otherwise it sends the page, the translated sort, and a `bool`/`must` query of the filter's clauses (none for an empty filter), and returns hits exactly when there are some |
| FilmSearch.CacheAsideCoherent | fastapi-solution/src/services/film.py:20-28 | over a coherent cache the read returns what the index holds, keeps the cache coherent, and makes the next read a cache hit that changes nothing |
| FilmSearch.FilmService.constructor | fastapi-solution/src/services/film.py:16-18 | the service binds the cache and the index |
| FilmSearch.FilmService.GetById | fastapi-solution/src/services/film.py:20-28 | the read and the new cache are those of the cache-aside read |
| FilmPersonService.RoleName | fastapi-solution/src/services/film_service.py:178 | a role's name is its key without the final `s`: writer, actor or director |
| FilmPersonService.WithIdSpec | fastapi-solution/src/services/film_service.py:163 | the filter keeps exactly the entries with the person's id |
| FilmPersonService.DedupOneId | fastapi-solution/src/services/film_service.py:211 | entries that share one id collapse to the last of them |
| FilmPersonService.Chosen | fastapi-solution/src/services/film_service.py:167 | the chosen entry has the person's id and is in the role list; there is none exactly when the role does not list the person |
| FilmPersonService.MatchesChosen | fastapi-solution/src/services/film_service.py:210-215 | the chosen entry is the first kept match; with dedup at most one match is kept |
| FilmPersonService.HitRolesFresh | fastapi-solution/src/services/film_service.py:160-175 | since `persons_roles` is reset per hit, each role gets one fresh entry (the append branch is never taken) and keys stay distinct |
| FilmPersonService.HitEntriesFilms | fastapi-solution/src/services/film_service.py:177-178 | a hit's entries become its film entries in role order, all with the person's id |
| FilmPersonService.AddFilmsSpec | fastapi-solution/src/services/film_service.py:177-185 | the first entry creates the person; every later entry only appends a film |
| FilmPersonService.FirstChoiceSpec | fastapi-solution/src/services/film_service.py:179-183 | there is a first entry exactly when the person appears somewhere, and it carries the person's id |
| FilmPersonService.AggregateSpec | fastapi-solution/src/services/film_service.py:152-189 | the person is None, or has the id and name of the first chosen entry and one film entry per (hit, role) it appears in, in order |
| FilmPersonService.AppearancesShape | fastapi-solution/src/services/film_service.py:168-178 | every film entry has exactly one film id and the role writer, actor or director |
| FilmPersonService.AppearancesEmpty | fastapi-solution/src/services/film_service.py:164-165 | the person has no film entries exactly when no hit lists them in any role |
| FilmPersonService.PersonShape | fastapi-solution/src/services/film_service.py:152-189 | the result is None exactly when no hit lists the person; otherwise it has the asked id and a non-empty film list of one-film entries |
| FilmPersonService.CollectPerson | fastapi-solution/src/services/film_service.py:158-185 | the loops over hits, roles and `persons_roles` compute the aggregated person |
| FilmPersonService.CollectRoles | fastapi-solution/src/services/film_service.py:162-175 | the loop over the three roles builds exactly the `persons_roles` of one hit |
| FilmPersonService.AddPersonFilms | fastapi-solution/src/services/film_service.py:177-185 | the loop over `persons_roles` creates the person from the first entry and appends one film entry per role |
| FilmPersonService.RoleSearches | fastapi-solution/src/services/film_service.py:119-149 | the loop over the roles gathers the hits of each role's search, in role order |
| FilmPersonService.RoleHitsCount | fastapi-solution/src/services/film_service.py:121-146 | a role search returns every document that lists the person in that role, as often as the index holds it, and nothing else |
| FilmPersonService.PersonIdsHits | fastapi-solution/src/services/film_service.py:240-275 | the search for several ids returns exactly the documents that list one of them |
| FilmPersonService.FilmsByPersonCount | fastapi-solution/src/services/film_service.py:115-150 | a film appears once per role (writers, actors, directors) that lists the person, with no dedup across roles; it appears exactly when it lists the person somewhere |
| FilmPersonService.FilmService.constructor | fastapi-solution/src/services/film_service.py:19-24 | the service binds both caches and the index |
| FilmPersonService.FilmService.GetById | fastapi-solution/src/services/film_service.py:75-84 | film reads are cache-aside; the person cache is untouched |
| FilmPersonService.FilmService.GetPersonFromElastic | fastapi-solution/src/services/film_service.py:152-189 | the person is the aggregate of the search for the id, or None when the index is missing |
| FilmPersonService.FilmService.GetPersonById | fastapi-solution/src/services/film_service.py:108-113 | a cached person is returned as is, otherwise the one aggregated from the index; nothing is written to the cache |
| FilmPersonService.FilmService.GetPersonByIds | fastapi-solution/src/services/film_service.py:194-238 | one entry per asked id, in order, each the deduplicated aggregate (or None); nothing when the index is missing |
| FilmPersonService.FilmService.GetFilmsByPerson | fastapi-solution/src/services/film_service.py:115-150 | the films are the writer hits, then the actor hits, then the director hits; none when the index is missing |
| FilmPersonService.AppendHits | fastapi-solution/src/services/film_service.py:143-146 | appending the hits one by one extends the list by exactly the hits |
| FilmPersonService.IndexById | fastapi-solution/src/services/film_service.py:86-91 | a read by id finds exactly the ids of the indexed documents, each under its own id |

## Left out

- **Real I/O.** The psycopg2, Elasticsearch and Redis clients, SQL text, the cursor and the network are left out. They become the maps and functions described above.
- **Escaping.** `mogrify` escaping of the values inserted into the placeholder template is left out. Only the template text is modelled.
- **Modules not shown.** `Merger`, `Enricher`, `State`/`JsonFileStorage`, `convert_sql2models` and `backoff` are not part of this model. The merger and the enricher are function parameters; record conversion is the identity; retries and their timing are not modelled.
- **`services.film_work_etl.etl.transform.Transform` and `services.film_work_etl.etl.elasticsearch_loader.ElasticsearchLoader`**, which the orchestrator imports, are not part of this model. `EtlProcess.MergeWrite` assumes they behave like etl/film_works/transform.py (`FilmWorksTransform.Build`) and like app/etl/elasticsearch_loader.py (`Loader`: the write is a map union).
- **`app.models.main.RoleType`** is not part of this model. `MergeRows.Classify` assumes its members compare equal to the strings `"director"`, `"actor"` and `"writer"`, as a `str`-valued enum's do.
- **Batch size.** `Producer.BaseProducer.LoadData` requires `batchSize >= 1`. `fetchmany(0)` with a non-positive size is driver-defined, so it is not modelled.
- **Equal revisions.** The database's order among rows with equal `updated_at` is unspecified. The model keeps their table order (a stable sort).
- **Transform list aliasing.** The transforms' `add_addition_*` helpers mutate the list objects inside `base_dict` in place. The model replaces the document value instead, which has the same observable result, since no other reference to those lists escapes.
- **Sink write in `EtlProcess`.** `EtlProcess.SyncEnv.WriteToIndex` writes `base_dict.values()` as a map union. `Loader.WriteEnumeration` proves that the bulk `index` write of any enumeration of those values has exactly that effect.
- **Index creation in the orchestrator.** The loader's create-if-absent step inside the ETL functions is not repeated in `EtlProcess`; `Loader` models it.
- **Index settings.** The index mapping and analyzer settings are constant configuration with no behaviour.
- **Search scoring.** Relevance scoring, fuzziness and `from`/`size` paging inside the search engine are left out. A search returns matching documents in index order, and the request is modelled as data.
- **Default page size.** The person searches in film_service.py send no `size`, so Elasticsearch returns at most its default of 10 hits; the model returns every matching document. For a person listed in more than 10 films, the source's `get_films_by_person`, `_get_person_from_elastic` and `get_person_by_ids` see a truncated hit list that the model does not.
- FilmPersonService.RoleHitsCount: states every listing document, not the first 10 that Elasticsearch's default page returns.
- FilmPersonService.PersonIdsHits: states every listing document, not the first 10 that Elasticsearch's default page returns.
- FilmPersonService.FilmsByPersonCount: counts over every listing document, not the first 10 per role search that Elasticsearch's default page returns.
- **UUIDs.** Parsing film ids into UUID objects (the film model's `uuid` field) is left out; ids are strings.
- **Floats and dates.** `imdb_rating` is an opaque `real`; timestamps are integers; `isoformat` is left out.
- **`main`.** Its infinite loop and connection setup are left out. `EtlProcess.SyncEnv.RunCycle` is one pass.
- **HTTP layer.** The routers, schemas, settings, `genre_service.py`, `person_service.py` and `temp.py` are not part of this model.
- **Cache expiry.** Cache TTLs are left out. The two services' caches (`filmCache`, `personCache`) are separate maps, although Redis shares one keyspace.
- RequestUtils.IntRoundTrip: `int()` is modelled as an optional sign followed by ASCII digits. Whitespace, `_` separators and non-ASCII digits that Python also accepts are left out.
- RequestUtils.FilterKeyFields: the pattern is modelled as a whole-key match. Python's `$`, which also matches before a final newline, is left out.
- FilmPersonService.FilmService.GetPersonByIds: reassigning `person_id` inside the role loop (here and in `_get_person_from_elastic`) is modelled as the no-op it is, because the chosen entry's id always equals the asked id.
- ExtractorBase.BaseExtractor.Execute: the logger is modelled as a list of `(table, description)` records. Message formatting is left out.
