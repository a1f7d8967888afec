# Price-transparency MRF ingestion, modelled in Dafny

This project models the ingestion core of a pipeline that collects
physical-therapy rates from health-insurance price-transparency files
(Transparency in Coverage "machine-readable files", MRFs), and proves
properties of that model.

What it covers:

- **The provider registry.** NPPES providers come from the bulk CSV or the
  NPI Registry API. They fill the `nppes_providers` table.
- **Choosing the files.** Payers publish index (table of contents) files.
  These list their in-network files. Each ingest script picks from that list
  in its own way: it admits by URL prefix or description word, removes
  repeated URLs, probes sizes with HEAD requests, and sorts by size.
- **Extracting rates.** In-network files are filtered to the target CPT
  codes. Provider references are resolved, and one rate record is produced
  per priced entry and provider.
- **The ingestion log.** Every file is logged as `running`, then
  `complete` or `error`. A file already logged complete is skipped.
- **The competitive report.** Rates are rolled up to clinics, and a row is
  built per payer and code that ranks the primary clinic among the others.

The model is split the way the program is:

| module | models |
|---|---|
| Storage | the `RatesDatabase` class of `src/storage.py` |
| Parser | `src/parser.py` |
| Extraction | the extraction loop that the three in-network parsers share |
| Downloader | `src/downloader.py` |
| Nppes | `src/nppes.py` |
| Config | `src/config.py` |
| the ingest-script modules | each file under `scripts/`: FullIngest, OptimizedIngest, HealthPartnersIngest, UcareIngest, BcbsLocal, LoadMnNppes, CompetitiveReport |
| Toc | the index selection the scripts share |
| Ingestion | the skip / log / insert protocol every coordinator follows |
| Coordination | one attempt on a file whose bytes have been fetched |
| Mrf | the JSON documents |
| Fetching | the outside world, as an `Env` value of pure functions |
| Dates | `date.fromisoformat` |
| Text, Seqs, Wrappers | helpers |

The database is the class `Storage.RatesDatabase`. It has three fields that
its methods update in place: `rates`, `log` and `providers`. Each
coordinator is a method whose `ensures` ties the new database state and its
returned count to a pure specification over a `Store` value, such as
`Ingestion.RunAll` over the jobs of the files it visits. The properties the
scripts promise are then proved about that specification as lemmas:

- only target codes and admitted NPIs are stored;
- rows are only appended;
- a file logged `complete` is never ingested again (rows a failed insert
  left behind are not modelled; see "## Left out");
- every processed file leaves exactly one final log entry;
- the selected files are distinct and sorted by size.

HTTP, gzip, zip archives and `json.loads` are the fields of a
`Fetching.Env` value. Each maps its input to a result or to the message of
the exception it raises. The NPI Registry API is a `Nppes.Registry`, a
function from query to reply that is empty beyond a finite number of pages.

## Model

| member | source | states |
|---|---|---|
| Storage.StatsBounds | src/storage.py:185-200 | Each distinct count of `get_rate_stats` is at most the total. Appending rows adds their number to the total and never lowers a distinct count. |
| Storage.StartSpec | src/storage.py:147-156 | Opening a log entry appends one `running` entry with a fresh id and leaves the rates alone. It does not change which files count as ingested. |
| Storage.CompleteSpec | src/storage.py:158-166 | Completing an id marks that entry `complete` with its count, which makes its file ingested. All other entries stay as they were. An unknown id changes nothing. |
| Storage.FailSpec | src/storage.py:168-176 | Failing an id sets that entry to `error` with its message, and changes no other entry. An unknown id changes nothing. Failing an entry that was not complete keeps the set of ingested files. |
| Storage.BatchesCover | src/storage.py:108-110 | Concatenating the `executemany` batches gives back exactly the records, in order. |
| Storage.BatchesShape | src/storage.py:108-110 | Every batch is non-empty and at most `batch_size` long. Every batch but the last is exactly `batch_size` long. |
| Storage.RatesDatabase.constructor | src/storage.py:34-96 | Opening the database keeps the rates, log entries and providers already in the file; a path with no file yet gives empty tables. |
| Storage.RatesDatabase.InsertRates | src/storage.py:104-145 | With a positive batch size, all records are appended in order in those batches, and their number is returned; rates are kept exact and every batch succeeds. With a negative size, `range` is empty and nothing is inserted. |
| Storage.RatesDatabase.LogIngestionStart | src/storage.py:147-156 | The new state and id are those of `Store.Start`, so `StartSpec` holds of them. |
| Storage.RatesDatabase.LogIngestionComplete | src/storage.py:158-166 | The new state is that of `Store.Completed`, so `CompleteSpec` holds of it. |
| Storage.RatesDatabase.LogIngestionError | src/storage.py:168-176 | The new state is that of `Store.Failed`, so `FailSpec` holds of it. |
| Storage.RatesDatabase.ReplaceProviders | src/nppes.py:263-294 | After the `DELETE` and the batched inserts, the provider table is exactly the new list. |
| Ingestion.AttemptSpec | scripts/full_ingest.py:34-77 | One attempt appends exactly one final log entry: `complete` with the record count, or `error` with the message. It appends exactly the records of a successful outcome, none of an outcome that failed before storing, and returns their number. A success makes the URL ingested. A failure leaves the ingested set as it was. |
| Ingestion.ProcessFileSkips | scripts/full_ingest.py:29-32 | An ingested URL leaves the store alone and yields 0. Any other URL is attempted. |
| Ingestion.ProcessFileIdempotent | scripts/full_ingest.py:26-77 | After a success, or a skip, a second `process_file` of the same URL changes nothing and yields 0. After a failure, it tries again. |
| Ingestion.StepKeepsIngested | src/downloader.py:121-145 | One step appends at most one log entry, and exactly one when existing files are not skipped. It adds rows only with that entry, yields their number, and never un-ingests a file. |
| Ingestion.RunAllSpec | src/downloader.py:194-199 | A loop over jobs keeps the old log and rows as a prefix. Each new log entry is final and of this payer, with at most one per job, and exactly one per job without skipping. The total is the number of rows added. |
| Ingestion.RunAllAdds | scripts/full_ingest.py:169-179 | Every row a loop adds is a record of one of its jobs' outcomes. So any property of all those records holds of every added row. |
| Ingestion.RunAllAppend | scripts/full_ingest.py:194-198 | Running two job lists one after the other is running their concatenation, with the totals added. |
| Ingestion.Conclude | scripts/full_ingest.py:67-72 | Storing a file's records appends them all and marks its entry complete with their number, which is returned; the insert itself does not fail. |
| Coordination.MappedRecords | scripts/full_ingest.py:56-72 | Every record stored for a file carries the URL it was fetched under and a target code, and its NPI passes the NPI filter in force. |
| Coordination.AttemptMapped | scripts/full_ingest.py:34-77 | The database ends as `Ingestion.Attempt` of the outcome of loading and parsing the fetched bytes, and the count is the one returned. |
| Fetching.RaiseForStatus | src/downloader.py:61-65 | `raise_for_status` passes exactly the 2xx statuses and keeps the response. |
| Fetching.ContentLength | src/downloader.py:156 | A missing `content-length` reads as 0. A present one converts exactly when it is digits after stripping, to their value. |
| Fetching.DecompressionFor | scripts/full_ingest.py:45-54 | A URL containing `.json.gz` or ending `.gz` is gunzipped. A `.zip` URL that is neither is read through its first `.json` member. Anything else is used as it is. |
| Fetching.FirstJson | scripts/full_ingest.py:48-52 | The chosen member is the first whose name ends `.json`. There is none exactly when no member's name ends `.json`. |
| Fetching.DecompressZip | scripts/full_ingest.py:47-52 | A zip without a `.json` member fails with the "No JSON file in ZIP" error. Otherwise the content is that first member's data. |
| Config.FirstNamed | scripts/ingest_ucare.py:34-38 | The payer found is the first configured one with that name. There is none exactly when no payer has the name. |
| Config.FindPayer | scripts/ingest_healthpartners.py:36-41 | The loop returns the first payer with that name, as `FirstNamed` states. |
| Dates.FromIsoFormat | src/parser.py:168-171 | Under the Python 3.10 grammar, a parsed date is a valid calendar date, and its text has the `YYYY-MM-DD` shape. |
| Dates.IsoRoundTrip | src/parser.py:168-171 | Formatting a valid date and parsing it back gives the date. |
| Dates.IsoCanonical | src/parser.py:168-171 | Under the Python 3.10 grammar, any text `fromisoformat` accepts is the `YYYY-MM-DD` form of the date it yields. |
| Dates.ParseLastUpdated | src/parser.py:166-171 | A missing or empty `last_updated_on` gives no date. Under the Python 3.10 grammar, a date given is valid, and it is the one the text spells. |
| Parser.GetTargetNpis | src/parser.py:31-38 | An empty provider table gives `None`. A non-empty one gives exactly its NPIs. |
| Parser.ParseMapped | src/parser.py:172-240 | The records emitted are the specification `DocRecords` of the document under the given filter. |
| Parser.ParseTicFileSimple | src/parser.py:141-240 | The filter is the one passed, or else the table's NPIs when the table is non-empty. The records are `DocRecords` under that filter. |
| Parser.SimpleRecordsSpec | src/parser.py:141-240 | Every record has the file's reporting entity (or the payer name), its parsed date, the given source and a target code. Its NPI is in the given target set, or else in the provider table. With no target set and an empty table, nothing is filtered. |
| Parser.TicParser.constructor | src/parser.py:246-250 | A new parser has its payer name and zero counters. |
| Parser.TicParser.ParseFile | src/parser.py:252-267 | The result is that of reading, maybe gunzipping, and parsing the file. A success adds one file parsed and the number of records yielded. |
| Extraction.GroupProvidersOrigin | src/parser.py:178-185 | Every provider built from a reference's groups has an NPI of one of those groups and that group's TIN value. A TIN it carries is that group's `tin.value`. |
| Extraction.ProviderMapSpec | src/parser.py:173-185 | The provider map's keys are exactly the ids present. Each id maps to the providers of its last entry, so a later duplicate overwrites. |
| Extraction.ProviderMapKeys | src/parser.py:173-185 | The keys of the provider map are exactly the `provider_group_id`s that are not null. |
| Extraction.ProviderMapLast | src/parser.py:184 | The last entry with an id is the one its key maps to. |
| Extraction.RatedPrices | src/parser.py:210-213 | Every price kept for emitting has a `negotiated_rate` that is not null. |
| Extraction.ExtractAppend | src/parser.py:187 | The records of two item lists in a row are the records of each, concatenated. |
| Extraction.PricesRecordsAppend | src/parser.py:209-240 | The records of two price lists in a row are the records of each, concatenated. |
| Extraction.PriceRecordsAppend | src/parser.py:227-240 | The records of one price for two provider lists in a row are the records of each, concatenated. |
| Extraction.NonTargetItemIgnored | src/parser.py:192-194 | An item whose billing code is not a target contributes nothing, wherever it sits. |
| Extraction.NullPriceSkipped | src/parser.py:210-213 | A price with a null rate contributes nothing, wherever it sits. |
| Extraction.GroupCount | src/parser.py:206-240 | A group yields exactly one record per priced entry and per provider. |
| Extraction.GroupLayout | src/parser.py:206-240 | The record at position i·P + j of a group is built from the group's i-th priced entry and j-th provider: prices outer, providers inner. |
| Extraction.PricesRecordsNoProviders | src/parser.py:201-208 | A group whose references resolve to no provider yields nothing. |
| Extraction.ResolveRefsAppend | src/parser.py:201-204 | Resolving two reference lists in a row concatenates their providers. |
| Extraction.ResolveRefsUnknown | src/parser.py:201-204 | References missing from the map resolve to no provider. |
| Extraction.FilterNone | src/parser.py:224-226 | With no target NPI set, every provider is kept. |
| Extraction.DirectGroups | src/parser.py:198-240 | A group whose references are all unknown yields nothing. Without an NPI filter, a group yields priced entries × resolved providers records. |
| Extraction.MatchedNpisSpec | scripts/ingest_bcbs_local.py:103-108 | An NPI is matched exactly when one of the group's references decodes to a known group that holds it. |
| Extraction.EncodedGroups | scripts/ingest_bcbs_local.py:110-137 | On the BCBS encoded path, a group yields priced entries × matched NPIs records, and nothing when no NPI matches. |
| Extraction.FilterAllowed | src/parser.py:224-226 | Every provider that survives the filter is in the target set whenever a set is given. |
| Extraction.MatchedKnown | scripts/ingest_bcbs_local.py:103-108 | Matched NPIs are always NPIs of the group mapping. |
| Extraction.ProvidersAllowed | src/parser.py:198-226 | Every provider a resolver yields is one that resolver admits. |
| Extraction.ExtractConforms | src/parser.py:187-240 | Every record extracted has the file's payer, date and source and a target code, and its provider is admitted by the resolver. |
| Extraction.EmptyFilterEmitsNothing | src/parser.py:224-226 | An empty target NPI set yields no records at all. |
| Extraction.FilterMono | src/parser.py:224-226 | A filter that admits more NPIs keeps every provider a narrower one keeps. |
| Extraction.ExtractWidens | src/parser.py:187-240 | Every record extracted under a target NPI set is also extracted under any superset of it, or with no filter. |
| Extraction.FilterSuperset | src/parser.py:224-226 | With `target_npis` widened to a superset, no record of the narrower run goes missing. |
| Extraction.FilterAgainstNone | src/parser.py:224-226 | With `target_npis` set to `None`, every record of a filtered run is still emitted. |
| Seqs.FlatMapMono | src/parser.py:187-240 | When each element's list is contained in another list, so is their concatenation: the nested `yield` loops keep containment. |
| Extraction.PricesRecordsPerm | scripts/ingest_bcbs_local.py:124-137 | Reordering a group's providers only reorders its records. This is why the BCBS parser, which iterates a Python set, is specified up to order. |
| Extraction.PriceRecordsPerm | scripts/ingest_bcbs_local.py:124-137 | Reordering the providers of one priced entry only reorders its records. |
| Extraction.ToProvidersPerm | scripts/ingest_bcbs_local.py:113-121 | Reordering the matched NPIs only reorders the providers built from them. |
| Extraction.BuildProviderMap | src/parser.py:173-185 | The loop builds exactly the map `ProviderMapOf`, whose keys and values `ProviderMapSpec` describes. |
| Extraction.ResolveProviders | src/parser.py:199-204 | The loop's provider list is `ResolveRefs` of the references. |
| Extraction.EmitPrice | src/parser.py:215-240 | One priced entry emits one record per provider passing the filter, in provider order. |
| Extraction.EmitGroup | src/parser.py:196-240 | One negotiated-rate group emits exactly the specification's records for it. |
| Extraction.EmitDirect | src/parser.py:187-240 | The whole item loop emits exactly `Extract` of the items under the provider map and filter. |
| OptimizedIngest.FastParseMrf | scripts/optimized_ingest.py:28-105 | The fast parser emits the same records as `parse_tic_file_simple` without an NPI filter. |
| OptimizedIngest.ProcessFile | scripts/optimized_ingest.py:108-157 | The database and count are those of `Ingestion.ProcessFile`: skip, log, decompress by suffix, parse, store, or log the error. |
| OptimizedIngest.GetBcbsMnFiles | scripts/optimized_ingest.py:160-198 | The files returned are those of the specification `BcbsMnFiles`. |
| OptimizedIngest.SelectedSpec | scripts/optimized_ingest.py:169-195 | At most 50 files are probed. Each selected file is a listed `http` file with "National" in its description, and its size is the probed `content-length`, at most 500 MB. No URL repeats, and sizes ascend. |
| OptimizedIngest.ProcessAll | scripts/optimized_ingest.py:212-215 | The loop is `Ingestion.RunAll` of the selected files' jobs, skipping files already ingested. |
| OptimizedIngest.ProcessNext | scripts/optimized_ingest.py:212-215 | One more iteration extends the run by exactly the next file's job. |
| OptimizedIngest.Run | scripts/optimized_ingest.py:201-230 | A failed index leaves the database alone and reports the failure. Otherwise the run processes exactly the selected files in size order. |
| Toc.AdmittedSpec | scripts/ingest_ucare.py:50-55 | A file is admitted exactly when it is listed and the rule accepts it, and admission never adds files. |
| Toc.AdmittedAppend | scripts/ingest_ucare.py:50-51 | Admitting from two lists in a row concatenates what each admits. |
| Toc.AdmitInfos | src/downloader.py:108-116 | The loop over one `in_network_files` list appends exactly the entries the rule admits. |
| Toc.CollectFiles | scripts/ingest_ucare.py:49-55 | The loops over reporting structures and their files collect exactly the admitted listed files, in order. |
| Toc.DedupByUrl | scripts/ingest_ucare.py:57-65 | The dedup loop keeps the first file of each URL, in order. |
| Toc.AdmitOne | scripts/optimized_ingest.py:175-177 | Admitting one more file keeps the deduplicated list and its set of seen URLs in step with the specification. |
| Toc.AdmitUnique | scripts/optimized_ingest.py:172-177 | The combined admit-and-dedup loop over one file list equals dedup of what is admitted. |
| Toc.CollectUnique | scripts/optimized_ingest.py:169-177 | The combined loop of the optimized script selects the same files as admitting first and deduplicating after. |
| Toc.CandidatesSpec | scripts/full_ingest.py:126-140 | The candidates are listed and admitted, and cover every admitted URL. No URL appears twice, and the first admitted file of each URL is the one kept. |
| Toc.ProbedWithinSpec | scripts/full_ingest.py:152-158 | A file is kept exactly when its HEAD probe succeeds (and fits the cap, when there is one), with the probed size. Nothing else is kept. |
| Toc.ProbeSizes | scripts/full_ingest.py:152-158 | The probing loop keeps exactly the files of `ProbedWithin`. |
| Toc.ProbedOrZeroSnoc | scripts/ingest_bcbs_local.py:204-213 | Each file is kept in order, with its probed size, or 0 when its probe fails. |
| Toc.ProbeSizesOrZero | scripts/ingest_bcbs_local.py:204-213 | The BCBS Local probing loop gives `ProbedOrZero`. |
| Toc.SortBySizeSpec | scripts/full_ingest.py:161 | Sorting by size gives a permutation of the probed files with ascending sizes. |
| Toc.SortBySizeStable | scripts/full_ingest.py:161-166 | Files of equal size keep the order they were probed in, so the ones `[:max_files]` keeps among them follow the index order. |
| Toc.ProbedDistinct | scripts/full_ingest.py:152-158 | Probing files with distinct URLs keeps their URLs distinct. |
| Toc.SortedProbedSpec | scripts/full_ingest.py:152-161 | After probing and sorting, the files were all listed with the probed size, and every file with a successful probe is there. No URL repeats, and sizes ascend. |
| Toc.TruncatedProbedSpec | scripts/full_ingest.py:152-166 | `max_files` keeps a prefix of the sorted list, so it is still distinct and ascending, and no longer than `max_files` when that is positive. |
| Toc.NotIngested | scripts/ingest_ucare.py:146 | `not_ingested` holds exactly the files not yet logged complete. |
| Toc.FilterNotIngested | scripts/ingest_bcbs_local.py:190-193 | The filter loop against the database gives `NotIngested` of the current store. |
| FullIngest.ProcessFile | scripts/full_ingest.py:26-77 | The database and count are those of `Ingestion.ProcessFile`, with the outcome of downloading, decompressing by suffix and parsing under the provider table's NPIs. |
| FullIngest.ProcessNext | scripts/full_ingest.py:169-179 | One more file extends the run by exactly its job. |
| FullIngest.IngestHealthPartners | scripts/full_ingest.py:80-112 | Exactly the six network archives whose HEAD request answers 200 are processed, in order, skipping files already ingested. |
| FullIngest.NationalDistinct | scripts/full_ingest.py:149 | Keeping the "National" files of a distinct list keeps it distinct. |
| FullIngest.ProbedCandidates | scripts/full_ingest.py:126-152 | At most 30 files are probed. Each is a listed `http` file with "National" in its description, and no URL repeats. |
| FullIngest.BcbsSelectedSpec | scripts/full_ingest.py:121-166 | The BCBS Minnesota selection has at most 30 files, and at most `max_files` when that is positive. Each is a listed `http` "National" file with its probed size. URLs are distinct and sizes ascend. |
| FullIngest.GetBcbsFiles | scripts/full_ingest.py:121-166 | The files returned are those of `BcbsFiles`. |
| FullIngest.IngestBcbsMn | scripts/full_ingest.py:115-179 | The database ends as the specification run over the selected BCBS files. |
| FullIngest.Run | scripts/full_ingest.py:182-209 | `main` runs HealthPartners, then BCBS Minnesota limited to 20 files, adding up the counts. |
| Downloader.SafeName | src/downloader.py:53-54 | On ASCII input, the safe name has the same length, uses only `[a-z0-9_-]`, and keeps every allowed character, lower-cased. |
| Downloader.SafeNameIdempotent | src/downloader.py:53-54 | A safe name is its own safe name. |
| Downloader.ParseIndex | src/downloader.py:85-119 | The loops give `IndexEntries`. |
| Downloader.ParseIndexSpec | src/downloader.py:85-119 | Every entry has a location. When a reporting structure lists a located file, the entries are exactly the located listed files. Only when none does are they the located top-level files. |
| Downloader.BeforeFirstQuery | src/downloader.py:170 | `url.split("?")[0]` is the part before the first `?`. |
| Downloader.GunzipsUrlSpec | src/downloader.py:169-173 | Whether a file is gunzipped depends on its path's `.gz` suffix, with any query string ignored. |
| Downloader.TicDownloader.constructor | src/downloader.py:35-45 | The cache directory is the one given, or else `<data>/raw/<safe name>`. |
| Downloader.TicDownloader.FetchIndex | src/downloader.py:56-83 | Gives `FetchedEntries`: a failure of the request, the status check or the JSON decoding ends the fetch with no entries, where the source catches the HTTP and JSON errors. A `.gz` URL or a gzip encoding is gunzipped when possible. |
| Downloader.TicDownloader.DownloadAndParse | src/downloader.py:121-181 | One `Ingestion.Step`: an ingested file is skipped when asked; otherwise it is attempted with the streamed, maybe gunzipped, and parsed content. |
| Downloader.TicDownloader.ProcessAll | src/downloader.py:183-199 | The index entries are cut to `max_files` only when that is set and non-zero, and each is processed in turn. The database and total are `RunAll` of their jobs. |
| Downloader.TicDownloader.ProcessEntries | src/downloader.py:194-199 | The loop over the entries is `RunAll` of their jobs. |
| Downloader.TicDownloader.ProcessNext | src/downloader.py:195-197 | One more entry extends the run by exactly its job. |
| Downloader.ProcessAllSpec | src/downloader.py:183-199 | At most `max_files` entries are processed when it is positive, and each leaves one log entry when nothing is skipped. Rows are only appended, each for a target code and under the URL of an index entry. |
| HealthPartnersIngest.GetHpFileUrls | scripts/ingest_healthpartners.py:32-43 | The URLs are the first HealthPartners payer's index URL plus its additional files. There are none exactly when no payer has that name. |
| HealthPartnersIngest.JsonMembers | scripts/ingest_healthpartners.py:62 | The members kept are exactly those named `.json` or `.json.gz`. |
| HealthPartnersIngest.MemberSourcePrefix | scripts/ingest_healthpartners.py:66 | A member's source is the archive URL, `#`, then the member name. |
| HealthPartnersIngest.ProcessMember | scripts/ingest_healthpartners.py:65-103 | One JSON member is one `Ingestion.ProcessFile` under its `url#name` source. |
| HealthPartnersIngest.ProcessNextMember | scripts/ingest_healthpartners.py:65-103 | One more member extends the archive's run by exactly its job. |
| HealthPartnersIngest.ProcessZipFile | scripts/ingest_healthpartners.py:46-105 | The database and result are those of `ZipRun`. A failed download or error status leaves the database alone and counts 0. Otherwise every JSON member of the archive is processed in order. An archive that cannot be opened is a failure. |
| HealthPartnersIngest.ZipRunRecords | scripts/ingest_healthpartners.py:46-105 | An archive only appends rows, each for a target NPI and code, with a source starting with `url#`. |
| HealthPartnersIngest.ZipRunAllStops | scripts/ingest_healthpartners.py:135-138 | Once an archive cannot be opened, the exception ends the run, and later URLs change nothing. |
| HealthPartnersIngest.ZipRunAllNext | scripts/ingest_healthpartners.py:134-138 | One more archive adds its count when it succeeds, and its failure ends the run. |
| HealthPartnersIngest.ProcessArchives | scripts/ingest_healthpartners.py:134-138 | The loop over the network URLs is the specification run over them, and stops at the first failure. |
| HealthPartnersIngest.Run | scripts/ingest_healthpartners.py:108-147 | `main` is the specification `MainRun`: it stops when there is no provider table or no URL, and otherwise ingests the archives. |
| HealthPartnersIngest.ZipRunAllRecords | scripts/ingest_healthpartners.py:134-138 | All archives together only append rows for target NPIs and codes. |
| HealthPartnersIngest.MainRunRecords | scripts/ingest_healthpartners.py:108-147 | An empty provider table is reported exactly when there is none, and then nothing changes. Missing URLs are reported exactly when no payer is HealthPartners. Every added row is for an NPI of the table and a target code. |
| UcareIngest.GetUcareIndexUrl | scripts/ingest_ucare.py:30-38 | The URL is the first UCare payer's index URL, or empty when there is none. |
| UcareIngest.FetchInNetworkFiles | scripts/ingest_ucare.py:41-65 | The files returned are the specification `InNetworkFiles`; a failed request or error status is a failure. |
| UcareIngest.InNetworkFilesSpec | scripts/ingest_ucare.py:49-65 | The files are listed `http` files with distinct URLs, and every listed `http` URL appears. |
| UcareIngest.ProcessMrfFile | scripts/ingest_ucare.py:68-114 | One file is one `Ingestion.ProcessFile`, with the content gunzipped when the URL ends `.gz`. |
| UcareIngest.ProcessNext | scripts/ingest_ucare.py:151-154 | One more file extends the run by exactly its job. |
| UcareIngest.ProcessFiles | scripts/ingest_ucare.py:150-154 | The loop over the remaining files is `RunAll` of their jobs. |
| UcareIngest.Run | scripts/ingest_ucare.py:117-163 | `main` is the specification `MainRun`: no table, no index URL or a failed index stop it; otherwise the files not yet ingested are processed. |
| UcareIngest.MainRunRecords | scripts/ingest_ucare.py:117-163 | An empty provider table is reported exactly when there is none, and a run that does not finish changes nothing. Every added row is for an NPI of the table, a target code and one of the index's files. |
| BcbsLocal.InvertedSpec | scripts/ingest_bcbs_local.py:46-54 | The inverted mapping holds NPI n under group g exactly when g is among n's groups. No group is empty, and it is empty exactly when no NPI has a group. |
| BcbsLocal.AddNpiSpec | scripts/ingest_bcbs_local.py:50-54 | Adding one NPI's groups puts that NPI under each of its groups and leaves the others alone. |
| BcbsLocal.InvertedAdd | scripts/ingest_bcbs_local.py:48-54 | One more NPI of the mapping file adds exactly its groups to the inversion. |
| BcbsLocal.AddToGroups | scripts/ingest_bcbs_local.py:50-54 | The inner loop gives `AddNpi`. |
| BcbsLocal.LoadGroupMapping | scripts/ingest_bcbs_local.py:32-56 | The result is the inversion of the NPI-to-groups file, and the NPI set is its keys. |
| BcbsLocal.Trunc | scripts/ingest_bcbs_local.py:85 | `int(x)` truncates toward zero. |
| BcbsLocal.RoundHalfEven | scripts/ingest_bcbs_local.py:85 | `round` gives the nearest integer, the even one on a tie. |
| BcbsLocal.DecodeEncoded | scripts/ingest_bcbs_local.py:80-86 | The decoding recovers the group id d from any reference p + d/Scale, for every d below Scale. |
| BcbsLocal.FloatToGroupOf | scripts/ingest_bcbs_local.py:80-86 | `float_to_group` has exactly the ids present as keys, each mapped to its decoded group. |
| BcbsLocal.BuildFloatToGroup | scripts/ingest_bcbs_local.py:80-86 | The loop builds `FloatToGroupOf`. |
| BcbsLocal.MatchNpis | scripts/ingest_bcbs_local.py:103-108 | The matched set is `MatchedNpis` of the references. |
| BcbsLocal.ListSet | scripts/ingest_bcbs_local.py:113-121 | Iterating the matched set visits each of its NPIs once. |
| BcbsLocal.EmitEncodedPrice | scripts/ingest_bcbs_local.py:124-137 | One priced entry emits one record per matched NPI. |
| BcbsLocal.EmitEncodedGroup | scripts/ingest_bcbs_local.py:98-137 | One group emits the specification's records, up to order. |
| BcbsLocal.EmitEncodedGroups | scripts/ingest_bcbs_local.py:98-137 | The groups of one item emit the specification's records, up to order. |
| BcbsLocal.EmitEncoded | scripts/ingest_bcbs_local.py:94-137 | All items emit `Extract` on the encoded path, up to order. |
| BcbsLocal.ParseBcbsLocalFile | scripts/ingest_bcbs_local.py:59-139 | The file's records are `LocalRecords`, up to order. |
| BcbsLocal.LocalRecordsSpec | scripts/ingest_bcbs_local.py:59-139 | Every record has the payer, the file's date, the source and a target code. It has no TIN, and its NPI is one of the mapping's. |
| BcbsLocal.ProcessLocalFile | scripts/ingest_bcbs_local.py:226-259 | One file is one `Ingestion.Attempt`. The rows agree as a multiset, and old rows stay a prefix. |
| BcbsLocal.AttemptSameRows | scripts/ingest_bcbs_local.py:226-259 | Records that agree as a multiset give attempts that agree as a multiset, with the same count. |
| BcbsLocal.ProcessNext | scripts/ingest_bcbs_local.py:221-259 | One more file extends the run by exactly its job. |
| BcbsLocal.ProcessFiles | scripts/ingest_bcbs_local.py:218-260 | The loop over the sized files is `RunAll` of their jobs, with rows agreeing as a multiset. |
| BcbsLocal.Run | scripts/ingest_bcbs_local.py:142-270 | `main` is the specification `MainRun`: no mapping file, no groups or a failed index stop it; otherwise the local files not yet ingested are processed smallest first. |
| BcbsLocal.OutcomeRecords | scripts/ingest_bcbs_local.py:226-259 | A file's records are for the payer, have no TIN, and are for mapped NPIs and target codes under the file's URL. |
| BcbsLocal.VisitedLocal | scripts/ingest_bcbs_local.py:171-215 | Every file visited is a listed "Local" file. |
| BcbsLocal.MainRunRecords | scripts/ingest_bcbs_local.py:142-270 | A run that does not finish changes nothing. "No groups" is reported exactly when the mapping has no groups. Added rows are for the payer, have no TIN, and are for mapped NPIs, target codes and local index files. |
| BcbsLocal.MainRunLog | scripts/ingest_bcbs_local.py:190-259 | A finished run adds one log entry per local file not yet ingested, each final and of the payer. The files were visited smallest first. |
| Nppes.FirstTaxonomy | src/nppes.py:209-224 | The code found is in the first of the columns 1..15 that holds a target, and none holds one when there is no code. |
| Nppes.FindTaxonomy | src/nppes.py:214-221 | The column loop gives `FirstTaxonomy` from column 1. |
| Nppes.AcceptRowSpec | src/nppes.py:204-251 | A row is kept exactly when its state is targeted, a taxonomy column holds a target code and its NPI is not empty. The provider then carries that NPI, state and first code, and a ZIP of at most five leading characters. Entity type "1" gives an individual with its stripped name; any other type gives an organization. |
| Nppes.ExtractedBound | src/nppes.py:199-251 | No more providers than rows. |
| Nppes.ExtractedMember | src/nppes.py:199-251 | A provider is extracted exactly when some row is accepted as it. |
| Nppes.NpiDataCsv | src/nppes.py:183-187 | The CSV read is the first member ending `.csv` with `npidata` in its lower-cased name. There is none when no member qualifies. |
| Nppes.ExtractRows | src/nppes.py:199-251 | The row loop gives `Extracted`. |
| Nppes.ExtractMnPtProviders | src/nppes.py:157-254 | A ZIP without an NPI CSV fails. Otherwise the providers are those extracted, under the default states and taxonomies when none are given. |
| Nppes.PageOf | src/nppes.py:76-86 | A page of 200 or more results comes only from a successful request with a JSON body holding that many results. |
| Nppes.PagesReplies | src/nppes.py:63-125 | The k-th page is the non-empty reply to `skip = 200·k`. |
| Nppes.PagesFull | src/nppes.py:122-124 | Every page but the last is full (200 results). |
| Nppes.PagesEnd | src/nppes.py:76-86 | The paging stops on a short page, or on a query after the last full page that errs or has no results. |
| Nppes.PrimaryTaxonomy | src/nppes.py:106-107 | The first primary taxonomy, else the first one, else none. |
| Nppes.FirstPrimary | src/nppes.py:106 | The first taxonomy marked primary, or none exactly when no taxonomy is primary. |
| Nppes.LocationAddress | src/nppes.py:103-104 | The first `LOCATION` address, or none when there is none. |
| Nppes.ApiProvider | src/nppes.py:94-120 | The provider has the NPI and a ZIP of at most five characters. It is an individual exactly for `NPI-1`, and an organization otherwise. |
| Nppes.ApiProviderSpec | src/nppes.py:103-120 | Missing location fields default to empty, and the state to the queried one. The ZIP is a prefix of the postal code. The taxonomy code is the primary one's, or the queried one. |
| Nppes.CollectedNpis | src/nppes.py:88-92 | The NPIs collected are exactly those of the results kept (empty NPIs dropped when asked). |
| Nppes.CollectedNonEmpty | src/nppes.py:90 | The API path never collects an empty NPI. |
| Nppes.CollectedDistinct | src/nppes.py:88-92 | No NPI is collected twice. |
| Nppes.CollectedFirst | src/nppes.py:88-92 | Each provider is built from the first result with its NPI. |
| Nppes.AddResult | src/nppes.py:88-120 | One result is added exactly when its NPI is new, keeping `seen_npis` equal to the providers' NPIs. |
| Nppes.AddResults | src/nppes.py:88-120 | A page's results extend the collection as `Collected` says. |
| Nppes.FetchPage | src/nppes.py:68-120 | One query returns `PageOf` its reply and adds that page's results. |
| Nppes.PrefixStep | src/nppes.py:67-125 | One iteration of the paging loop stops exactly on an ended or short page, and records the page it consumed. |
| Nppes.PrefixPass | src/nppes.py:67-125 | One iteration keeps the pages consumed so far in step with `Pages`. |
| Nppes.FetchPrefix | src/nppes.py:63-125 | The paging loop of one ZIP prefix adds exactly that prefix's results. |
| Nppes.FetchTaxonomy | src/nppes.py:59-127 | The loop over the prefixes adds exactly one taxonomy's results. |
| Nppes.FetchAllTaxonomies | src/nppes.py:58-129 | The loops over taxonomies, prefixes and pages give `Collected` of all results. |
| Nppes.QueriedTaxonomies | src/nppes.py:59-60 | One query per taxonomy code, in order, each carrying its code. |
| Nppes.FetchProvidersViaApi | src/nppes.py:36-132 | The providers are those collected from every page of the Minnesota prefixes for the given (or default) taxonomies. Error replies are dropped, and so are empty NPIs. |
| Nppes.LoadProvidersToDb | src/nppes.py:257-296 | The table ends as exactly the providers loaded. |
| Nppes.StateNpisAgree | src/nppes.py:320-322 | The state passed changes no NPI collected. |
| Nppes.SetupRepeatsNpis | src/nppes.py:317-328 | As written, with two states and any provider, `all_providers` holds an NPI twice. |
| Nppes.SetupProvidersSpec | src/nppes.py:317-328 | The deduplicated list has no repeated NPI and every NPI collected, and each of its providers was collected. |
| Nppes.SetupSingleState | src/nppes.py:317-328 | For one state the deduplicated list is the list as written: the repeats of the finding below need two or more states. |
| Nppes.DedupProviders | src/nppes.py:317-328 | The loop keeps the first provider of each NPI. |
| Nppes.SetupNppesApi | src/nppes.py:299-328 | The table ends as the deduplicated providers, and their number is returned. |
| Nppes.GetMnNpiSet | src/nppes.py:351-355 | The set holds exactly the NPIs of the provider table. |
| LoadMnNppes.GetZipPrefixes | scripts/load_mn_nppes.py:35-44 | The configured prefixes, when there are any, else the Minnesota defaults. Never empty. |
| LoadMnNppes.FetchAll | scripts/load_mn_nppes.py:47-123 | The loops give `Fetched`: every result of every page, with no status check and the empty NPI kept. |
| LoadMnNppes.FetchedSpec | scripts/load_mn_nppes.py:82-123 | Each NPI of any result is returned exactly once, with the record of its first result. |
| LoadMnNppes.SameTaxonomies | scripts/load_mn_nppes.py:29-32 | The script queries the same taxonomies, by the same descriptions, as `src/nppes.py`. |
| LoadMnNppes.LoadToDb | scripts/load_mn_nppes.py:126-150 | The table ends as exactly the providers. |
| LoadMnNppes.Run | scripts/load_mn_nppes.py:153-168 | The table ends as the fetched providers, which the key on `npi` accepts. |
| CompetitiveReport.ClinicIdsSpec | scripts/generate_competitive_report.py:92-103 | A rate's clinic is its trimmed NPI when no group maps it, and every organization a group maps it to otherwise. Nothing else is. |
| CompetitiveReport.MatchedClinicsSpec | scripts/generate_competitive_report.py:99-102 | The `LEFT JOIN` gives each matching group's organization, or the NPI for a null organization. Nothing matches when no group has the NPI. |
| CompetitiveReport.NormalizedRatesSpec | scripts/generate_competitive_report.py:92-103 | The view holds exactly each rate normalized under each of its clinics. |
| CompetitiveReport.NormalizedDuplicate | scripts/generate_competitive_report.py:94 | A rate repeating another's payer, code, rate and date under the same clinics adds nothing: `SELECT DISTINCT`. |
| CompetitiveReport.ClinicIds | scripts/generate_competitive_report.py:92-103 | Every rate has at least one clinic. |
| CompetitiveReport.StrLePreorder | scripts/generate_competitive_report.py:145 | The string order `sorted` uses is a total preorder. |
| CompetitiveReport.ClinicName | scripts/generate_competitive_report.py:121 | The dict built with `zip` keeps the last name of each NPI; an unknown NPI is "Unknown". |
| CompetitiveReport.SortedCodesSpec | scripts/generate_competitive_report.py:145 | `sorted(unique())` holds each code once, in string order. |
| CompetitiveReport.FirstAt | scripts/generate_competitive_report.py:156-161 | The primary clinic's row is its first in the ranking, or there is none. |
| CompetitiveReport.AboveBefore | scripts/generate_competitive_report.py:152-161 | In a descending order, whatever it does with ties, fewer than k+1 medians are higher than the one at k. |
| CompetitiveReport.AtLeastUpTo | scripts/generate_competitive_report.py:152-161 | At least k+1 medians are not below the one at k. |
| CompetitiveReport.RankedSpec | scripts/generate_competitive_report.py:152 | The descending sort is a permutation and is sorted. |
| CompetitiveReport.EndsBound | scripts/generate_competitive_report.py:163-164 | The last and first medians bound all others. |
| CompetitiveReport.CodeRowFits | scripts/generate_competitive_report.py:147-177 | A row fits its medians. There is one per clinic. The rank lies between one more than the higher medians and the number not below ours. Our rate is our median, lowest and highest bound all medians, and their clinics' names are given. |
| CompetitiveReport.CodeRowSome | scripts/generate_competitive_report.py:156-158 | A code gets a row exactly when the primary clinic has a median for it. |
| CompetitiveReport.CodesRowsFit | scripts/generate_competitive_report.py:145-177 | Every row of a payer is for one of its codes and fits that code's medians. |
| CompetitiveReport.CodesRowsCover | scripts/generate_competitive_report.py:145-177 | Every listed code where the primary clinic has a median gets a row. |
| CompetitiveReport.PayerRowsFit | scripts/generate_competitive_report.py:131-177 | The rows of one payer fit its medians at the clinics. |
| CompetitiveReport.PayerRowsCover | scripts/generate_competitive_report.py:131-177 | Every code where the primary clinic has a median under a payer gets that payer's row. |
| CompetitiveReport.PayersRowsFrom | scripts/generate_competitive_report.py:129-177 | Every row comes from one payer's medians and fits them. |
| CompetitiveReport.PayersRowsCover | scripts/generate_competitive_report.py:129-177 | Every payer and code with a primary-clinic median gets a row. |
| CompetitiveReport.ClinicComparisonSpec | scripts/generate_competitive_report.py:106-179 | With no organization there are no rows. Every row fits its payer's medians, and every payer and code with a primary-clinic median gets one. |
| CompetitiveReport.GenerateClinicComparison | scripts/generate_competitive_report.py:106-179 | The loops give `ClinicComparison`. |
| CompetitiveReport.CompareCodes | scripts/generate_competitive_report.py:145-177 | The code loop of one payer gives `CodesRows`. |
| CompetitiveReport.CompareCode | scripts/generate_competitive_report.py:148-177 | One code gives `CodeRow` of its ranked medians. |
| CompetitiveReport.Cell | scripts/generate_competitive_report.py:212-216 | A cell is empty exactly when no row has that code and payer, and is otherwise the first such row's median. |
| CompetitiveReport.SummaryRowOf | scripts/generate_competitive_report.py:207-217 | The loop over payers gives `SummaryRowFor`. |
| CompetitiveReport.GeneratePayerSummary | scripts/generate_competitive_report.py:182-219 | The loops give `PayerSummary`. |
| CompetitiveReport.SummaryCodesSpec | scripts/generate_competitive_report.py:203 | The codes appear once each, ordered by `int(x) if x.isdigit() else 0`. |
| CompetitiveReport.SummaryCodesStable | scripts/generate_competitive_report.py:203 | Codes with the same key, such as the non-digit codes at key 0, keep the order of `unique()`. |
| CompetitiveReport.SummaryCpts | scripts/generate_competitive_report.py:206-217 | One summary row per code, in that order. |
| CompetitiveReport.PayerSummaryCodes | scripts/generate_competitive_report.py:186-219 | No medians give no rows and no columns; otherwise the columns are the payers. The rows are exactly the codes present, each once, in code order. |
| CompetitiveReport.PayerSummaryCells | scripts/generate_competitive_report.py:207-216 | Each row has its code's description and one cell per payer, the payer's median or `None`. |
| Seqs.PyTake | src/downloader.py:192 | `xs[:k]` is a prefix, of length min(k, n) for k ≥ 0, counting from the end for k < 0. |
| Seqs.TruncateIfSet | src/downloader.py:191-192 | `if max_files:` leaves the list alone for `None` and 0, and otherwise keeps its first `max_files` elements. |
| Seqs.DedupBySpec | scripts/ingest_ucare.py:57-63 | The dedup keeps the first element of each key and covers every key. |
| Seqs.DedupByDistinct | scripts/ingest_ucare.py:57-63 | A list with distinct keys is kept as it is. |
| Seqs.SortBySorted | scripts/full_ingest.py:161 | The insertion sort by a total preorder is sorted and a permutation of its input. |
| Seqs.InsertByFilter | scripts/full_ingest.py:161 | When `p` never holds of both the new element and one greater than it, the elements where `p` holds keep their order, with the new one last. |
| Seqs.InsertByTied | scripts/full_ingest.py:161 | Inserting an element puts it after every element it ties with. |
| Seqs.SortByStable | scripts/full_ingest.py:161 | The sort is stable: elements that sort as equals keep their input order. |
| Seqs.UniqueKeys | scripts/generate_competitive_report.py:145 | pandas' `unique()` holds exactly the keys of the elements, each once. |
| Text.Lower | src/downloader.py:54 | On ASCII input, `lower()` keeps the length and lowers each character by itself. |
| Text.StripLeft | src/nppes.py:236 | `strip()` removes a leading run of whitespace, in the full set `str.isspace()` accepts, and the rest does not start with one. |
| Text.StripRight | src/nppes.py:236 | `strip()` removes a trailing run of whitespace, in the full set `str.isspace()` accepts, and the rest does not end with one. |
| Text.Contains | scripts/full_ingest.py:149 | `sub in s` holds exactly when `sub` occurs at some position of `s`. |
| Text.NatToStringRoundTrip | src/nppes.py:215 | The column number written in decimal reads back as the number. |

## Left out

- I/O of every kind is not modelled: HTTP, gzip, zip archives, JSON
  decoding, the YAML configuration, `user_config.json` and every file on
  disk. The model receives them as the parameters `Fetching.Env`,
  `Nppes.Registry`, the parsed configuration and the mapping file.
- Console output, progress bars, `time.sleep`, timeouts, clocks and
  durations are left out. None of them changes what is stored.
- The streaming parser `parse_tic_stream` and its handlers
  (src/parser.py:41-140) are not part of this model.
  `scripts/scan_bcbs_groups.py`, `src/cli.py` and the `reports` package
  are not part of this model either.
- Floating point is left out:
  - `Decimal(str(rate))` is taken as the exact rational of the rate;
  - the BCBS `float(...)` reference ids are exact rationals, so the IEEE
    rounding of the encoded group decode is not modelled;
  - the 500 MB cap compares byte counts exactly instead of `size / 1024 / 1024`.
- CompetitiveReport takes the SQL `MEDIAN` per group as input. It does not
  compute it.
- The competitive report leaves out several SQL and pandas details:
  - `round(..., 2)` of the medians;
  - the string quoting of payer names inside the f-string SQL;
  - pandas' order among equal medians: the row is proved for every
    descending order;
  - the `ORDER BY` of the payer list, which is given as an input.
- `generate_clinic_data_summary` and `write_csv` are not modelled.
- A short CSV row read as `None` by `DictReader` is treated like a missing
  column. JSON `null` is treated like a missing key.
- `download_nppes_file` and the bulk branch of `setup_nppes` are not
  modelled; the row filter they feed is.
- The `--zips` command-line parsing is left out. The script's prefixes are
  a parameter.
- Fetching.ContentLength: accepts only decimal digits after stripping.
  Python's `int` also takes a sign or `_` separators, which a
  `content-length` header does not carry.
- Storage.Store.Insert and Storage.RatesDatabase.InsertRates: store each
  rate exactly and never fail. The `negotiated_rate DECIMAL(10,2)` column
  keeps cents only, so a rate such as 80.805 is stored rounded to two
  decimals. A rate the column cannot hold (10^8 or more in size, or a NaN
  that `json.loads` accepts) makes `executemany` raise; the batches before
  it are already committed, since each is its own statement.
- Ingestion.AttemptSpec and Ingestion.Conclude: follow from that
  `Storage.Store.Insert`. In the source an insert that raises part-way
  leaves the earlier batches stored under an `error` entry, and since
  `is_file_ingested` looks only for `complete`, a rerun appends those rows
  again. The model stores nothing for a failed attempt.
- Storage.RatesDatabase.constructor: requires the log ids already in the
  file to be 1, 2, ..., which holds of a file only this class has written
  (the ids come from a sequence starting at 1 and no entry is deleted).
- InsertRates: requires a non-zero batch size, because Python's `range`
  raises on a step of 0.
- ReplaceProviders, LoadProvidersToDb and LoadToDb: require NPIs that do
  not repeat, because the table's primary key rejects a repeated NPI.
- BcbsLocal.ParseBcbsLocalFile and the BCBS emit methods: state the records
  up to order (a multiset), because the source iterates a Python set whose
  order is not defined.
- Nppes.ApiProviderSpec and LoadMnNppes.SameTaxonomies: are proved without
  a body, from the definitions alone.
- Downloader.TicDownloader.FetchIndex and Downloader.FetchedEntries: every
  failure of `Fetching.Env` gives no entries. The source catches only
  `httpx.HTTPError` on the request, `gzip.BadGzipFile` on the gunzip and
  `json.JSONDecodeError` on the decoding. An `httpx.InvalidURL`, an
  `EOFError` or `zlib.error` from a truncated or corrupt gzip body, a
  `UnicodeDecodeError` from a body that is not text, and the
  `AttributeError` of a JSON document that is not an object all propagate
  out of `fetch_index` and end `process_all`. The model does not tell these
  apart from the caught errors.
- Dates.FromIsoFormat, Dates.IsoCanonical and Dates.ParseLastUpdated: follow
  the `date.fromisoformat` grammar of Python 3.10 and earlier, exactly
  `YYYY-MM-DD`. From Python 3.11 it also accepts the basic form `20260101`
  and week dates such as `2026-W01-1`, which these members read as no date.
  The repository does not pin a Python version.
- Text.Lower, Text.IsDigits and Downloader.SafeName: follow the ASCII rules
  only. Python's `lower()` also lowers other letters, such as the Kelvin
  sign U+212A to `k`, and it can change the length: U+0130 lowers to two
  characters. `isdigit()` also accepts other digits, such as `²`, which
  `int()` then rejects. Whitespace, for `strip()` and `int()`, is the full
  Python set.
- Nppes.Registry: holds a finite number of pages per query, to make the
  paging loop terminate. A registry that answers full pages forever is not
  modelled.

## Findings

| source | as written | input that shows it | evidently intended | confidence | as-written member | corrected member |
|---|---|---|---|---|---|---|
| src/nppes.py:317-328 | `setup_nppes` runs the same Minnesota ZIP-prefix queries once per state and concatenates the lists. Only the missing-state default differs between them. | `states = ["MN", "WI"]` with any provider found: every NPI appears twice, and `INSERT` into `nppes_providers`, keyed on `npi`, fails on the second copy. | Load each NPI once, from the first state it was collected for. | not executed | Nppes.SetupRepeatsNpis | Nppes.SetupNppesApi |
