# Search-backend benchmark suite, modelled in Dafny

This project models the measurement core of a benchmark suite that compares
search engines under write and query workloads. It covers four parts.

- **Measurement state** (`benchmarking/metrics.py`): `LatencyMetrics`, the
  `Timer` context manager, the `CPUMonitor` sampler and the
  `BenchmarkResult` record.
  - Python's `statistics.mean`, `statistics.median`, `sorted`, `min` and
    `max` are modelled in module `Statistics`, with `sorted` defined by
    insertion.
  - A percentile is defined as an order statistic: the k-th smallest sample.
- **The backend contract** (`benchmarking/backends/base.py`): the values
  adapters exchange, the calls they issue to an engine client, the errors
  they raise, and the batched-ingestion policy of `index_documents`. These
  are in module `SearchBackend`.
- **The two Qdrant adapters.**
  - `Backends.QdrantBackend` models the older adapter in
    `benchmarking/backends/backends.py`, the one the benchmarks drive.
    Locally it does three things:
    - it batches the ingestion;
    - it applies a case-insensitive substring filter over one scrolled page;
    - it merges vector and lexical hits behind a seen-set.
  - `Qdrant.QdrantBackend` models the newer `benchmarking/backends/qdrant.py`.
- **The workloads.**
  - `WriteBenchmark` models `benchmarking/benchmarks/write.py`: a batch-size
    sweep of reset, create and timed indexing.
  - `QueryBenchmark` models `benchmarking/benchmarks/query.py`: query
    sampling and a timed replay of the vector queries.

The engine client is opaque. Each adapter object keeps a log `calls` of the
client calls it has issued, in order. The engine's answer to each call is a
method parameter (`Reply<T>`): either a value or the exception the client
raises. A client attribute that is still `None` is `ClientState.Unset`;
calling through it raises (`Error.NoClient`).

These are also inputs to the methods:

- the clock readings around each timed span;
- the psutil readings;
- the row indices `random.sample` returns;
- the ordinal of the first upsert the engine refuses.

Text helpers (`Text`) model `str.lower` on ASCII letters, `needle in hay`,
`str.split()` and `" ".join`.

Notable behaviours of the code, each kept by the model:

- **Hybrid merge** (`benchmarking/backends/backends.py:283-307`): the older
  adapter's `hybrid_search` concatenates the vector hits and the lexical
  hits and cuts the result to `limit`. Its seen-set holds object
  identities, so it never removes a duplicate (see Findings).
- **Percentile thresholds** (`benchmarking/metrics.py:144-167`):
  `Timer._percentile`, which fills `get_latency_metrics`, falls back to the
  maximum below 100 samples for p95 as well as for p99. Only
  `LatencyMetrics.p95` (`benchmarking/metrics.py:33-39`) uses 20.
- **Upsert failures** (`benchmarking/backends/backends.py:219-233`): the
  exception of a refused upsert propagates out of `index_documents` and out
  of `benchmark_write`.
- **Lexical search errors**: the newer adapter's `lexical_search`
  (`benchmarking/backends/qdrant.py:119-130`) has no handler, so engine
  errors propagate. The older adapter's catches them
  (`benchmarking/backends/backends.py:266-267`).
- **Lexical limit** (`benchmarking/backends/backends.py:263-265`): the older
  `lexical_search` tests the limit only after an append. With `limit <= 0`
  it returns one match.
- **Throughput** (`benchmarking/benchmarks/write.py:138`,
  `benchmarking/benchmarks/query.py:101`): throughput is 0 when the elapsed
  time is not positive, and also when no operation succeeded.
- **Vector benchmark duration** (`benchmarking/benchmarks/query.py:98`):
  `duration_seconds` is the last query's span alone, because the timer
  overwrites its start and end times on every span.
- **Query workloads** (`benchmarking/benchmarks/query.py:128-145`):
  `run_query_benchmarks` replays only the vector queries. The lexical
  queries are sampled but never replayed.

## Model

| member | source | states |
|---|---|---|
| Statistics.Max | benchmarking/metrics.py:45-47 | `max` of a non-empty list is one of its samples and no sample exceeds it |
| Statistics.Min | benchmarking/metrics.py:41-43 | `min` of a non-empty list is one of its samples and no sample is below it |
| Statistics.Sort | benchmarking/metrics.py:29 | `sorted` returns an ascending permutation of the samples |
| Statistics.SortedUnique | benchmarking/metrics.py:29 | two ascending lists with the same multiset of samples are equal, so `sorted` has one possible answer |
| Statistics.SortPermutationInvariant | benchmarking/metrics.py:29 | sorting a reordering of the samples gives the same list |
| Statistics.SortIndexIsOrderStatistic | benchmarking/metrics.py:29-31 | `sorted(s)[k]` is the k-th order statistic of s: a sample with at most k samples below it and more than k at or below it |
| Statistics.OrderStatisticUnique | benchmarking/metrics.py:29-31 | the k-th order statistic is unique |
| Statistics.OrderStatisticBounds | benchmarking/metrics.py:29-31 | every order statistic lies between the minimum and the maximum |
| Statistics.MeanBetween | benchmarking/metrics.py:17-19 | the mean of a non-empty list lies between its minimum and maximum |
| Statistics.MedianBetween | benchmarking/metrics.py:21-23 | the median (middle sample, or mean of the two middle ones) lies between minimum and maximum |
| Statistics.StatisticsPermutationInvariant | benchmarking/metrics.py:17-47 | sum, mean, median, min and max depend only on the multiset of samples, not on their order |
| Metrics.PercentIndexInRange | benchmarking/metrics.py:29-31 | the nearest-rank index `n*p/100` is below n for every p < 100, so the lookup never goes out of range |
| Metrics.LatencyMetrics.Mean | benchmarking/metrics.py:17-19 | 0 on no samples; otherwise between the minimum and the maximum |
| Metrics.LatencyMetrics.Median | benchmarking/metrics.py:21-23 | 0 on no samples; otherwise between the minimum and the maximum |
| Metrics.LatencyMetrics.P99 | benchmarking/metrics.py:25-31 | 0 on no samples; the maximum below 100 samples; otherwise the order statistic of rank `n*99/100`; always one of the samples |
| Metrics.LatencyMetrics.P95 | benchmarking/metrics.py:33-39 | 0 on no samples; the maximum below 20 samples; otherwise the order statistic of rank `n*95/100`; always one of the samples |
| Metrics.LatencyMetrics.Min | benchmarking/metrics.py:41-43 | 0 on no samples; otherwise a sample no larger than any other |
| Metrics.LatencyMetrics.Max | benchmarking/metrics.py:45-47 | 0 on no samples; otherwise a sample no smaller than any other |
| Metrics.RankOrMax | benchmarking/metrics.py:26-39 | the shared percentile rule: 0, the maximum below the threshold, else the order statistic of the nearest rank, a member of the data |
| Metrics.PercentilesBetween | benchmarking/metrics.py:25-47 | on a non-empty list, min <= p95 <= max and min <= p99 <= max |
| Metrics.LatencyMetricsOrderIndependent | benchmarking/metrics.py:17-47 | two lists with the same multiset of latencies give the same six statistics |
| Metrics.ResourceSummary | benchmarking/metrics.py:110-115 | 0 averages and peaks for empty lists; otherwise each peak is a sample no smaller than any other (the maximum), and each average is the mean, between the minimum and the peak |
| Metrics.CPUMonitor.constructor | benchmarking/metrics.py:77-81 | both lists empty, not monitoring |
| Metrics.CPUMonitor.Start | benchmarking/metrics.py:83-89 | monitoring on, both lists emptied, the two lists of equal length |
| Metrics.CPUMonitor.Record | benchmarking/metrics.py:91-102 | while monitoring, a good reading appends cpu% and rss/1024/1024 to the two lists together; when not monitoring or the reading raises, nothing changes; the lists keep equal length |
| Metrics.CPUMonitor.Stop | benchmarking/metrics.py:104-116 | monitoring off, lists kept, and the summary is the mean and the maximum of each list (0 when empty) |
| Metrics.LatencySummary | benchmarking/metrics.py:144-167 | empty map exactly when no latency was recorded; otherwise the six keys; min and max are samples bounding every latency; mean and median are the mean and median, between min and max; below 100 samples p95 and p99 are both the maximum, from 100 on they are the order statistics of rank `n*95/100` and `n*99/100` (Timer.Percentile's values) |
| Metrics.Timer.constructor | benchmarking/metrics.py:123-126 | no start or end time, no latencies, elapsed 0 and an empty latency summary |
| Metrics.Timer.Enter | benchmarking/metrics.py:128-130 | entering a span overwrites the start time only |
| Metrics.Timer.Exit | benchmarking/metrics.py:132-136 | leaving a span sets the end time and appends exactly one latency `(end - start) * 1000`; elapsed_seconds then reflects this span alone |
| Metrics.Timer.Percentile | benchmarking/metrics.py:158-167 | 0 on no data; the maximum below 100 samples for every percentile; otherwise the order statistic of rank `n*p/100`; always a sample |
| Metrics.Throughput | benchmarking/benchmarks/write.py:138 | `ops / elapsed` when elapsed > 0 (stated as `r * elapsed == ops`), else 0; it is 0 exactly when elapsed <= 0 or ops == 0 |
| Text.Lower | benchmarking/backends/backends.py:262 | same length; each character lower-cased |
| Text.Contains | benchmarking/backends/backends.py:262 | `needle in hay` holds exactly when the needle occurs at some offset |
| Text.Words | benchmarking/benchmarks/query.py:38 | every element of `str.split()` is a non-empty, whitespace-free word |
| Text.WordsSplit | benchmarking/benchmarks/query.py:38 | `str.split()` returns the maximal whitespace-free runs in order: s is the words interleaved with blank gaps, the gaps between words non-empty |
| Text.WordsEmptyIffBlank | benchmarking/benchmarks/query.py:38 | `str.split()` returns no word exactly when the string is all whitespace |
| Text.WordsOfJoin | benchmarking/benchmarks/query.py:38-40 | splitting words joined by single spaces gives the words back |
| Text.JoinNonEmpty | benchmarking/benchmarks/query.py:40 | joining at least one word gives a non-empty string |
| SearchBackend.StringOr | benchmarking/backends/backends.py:157 | `x or default`: the default exactly when x is None or "" |
| SearchBackend.IntOr | benchmarking/backends/backends.py:158 | `x or default`: the default exactly when x is None or 0 |
| SearchBackend.EndpointOf | benchmarking/backends/backends.py:164-173 | a remote client exactly when the url is truthy, with url and api key; else a local one on host and port |
| SearchBackend.VectorSize | benchmarking/backends/qdrant.py:66 | `schema.get("vector_size", 384)` |
| SearchBackend.Payloads | benchmarking/backends/backends.py:278 | the payloads of the engine's points, one per point, in order |
| SearchBackend.ChunkSize | benchmarking/backends/backends.py:218 | the buffer length at which `len(points) >= batch_size` fires: batch_size when >= 1, else 1 |
| SearchBackend.BatchesFlatten | benchmarking/backends/backends.py:207-234 | concatenating the batches gives back the document stream, in order |
| SearchBackend.BatchCount | benchmarking/backends/backends.py:218-234 | batch j exists exactly when j full batches do not exhaust the stream |
| SearchBackend.BatchAt | benchmarking/backends/backends.py:218-234 | batch j is the slice `docs[j*k .. min((j+1)*k, n)]` |
| SearchBackend.BatchSizes | benchmarking/backends/backends.py:218-234 | no batch for an empty stream; every batch but the last holds exactly k documents; the last holds 1 to k |
| SearchBackend.Batches1050At500 | benchmarking/backends/backends.py:218-234 | 1050 documents at batch size 500 go out as 500, 500 and 50 |
| SearchBackend.FailingUpsert | benchmarking/backends/backends.py:219-233 | the upsert that raises, when one does, is one of the stream's batches |
| SearchBackend.IngestBatches | benchmarking/backends/qdrant.py:80-113 | the index_documents loop issues exactly IngestCalls (one upsert per batch up to the one that raises) and returns IngestResult |
| SearchBackend.FlushRemainder | benchmarking/backends/qdrant.py:103-113 | the non-empty remainder is upserted once after the loop; the count returned is all documents |
| SearchBackend.IngestUnconnected | benchmarking/backends/backends.py:219-223 | without a client, a non-empty stream issues no call and raises |
| SearchBackend.IngestRejected | benchmarking/backends/backends.py:219-233 | a refused upsert ends ingestion after that upsert, with the engine's error |
| SearchBackend.IngestCompleted | benchmarking/backends/backends.py:207-237 | with nothing refused, every batch is upserted and the count is the stream length |
| SearchBackend.IngestSendsStream | benchmarking/backends/base.py:51-64 | a successful index_documents returns the number of documents consumed, and its upserts carry every document once, in stream order |
| SearchBackend.IngestEmptyStream | benchmarking/backends/backends.py:207-237 | an empty stream issues nothing and returns 0, with or without a client |
| Backends.FieldOf | benchmarking/backends/backends.py:260-261 | `payload.get(key, "") or ""`: "" for a missing or falsy value, the string for a string, otherwise a value `.lower()` rejects |
| Backends.VerdictOfStrings | benchmarking/backends/backends.py:262 | when text and title are strings (or missing, or None) the filter never raises, and matches exactly when the lowered query occurs in the lowered text or title |
| Backends.Matching | benchmarking/backends/backends.py:259-263 | reference definition: only payloads the filter matches, at most one per point |
| Backends.FirstRaise | benchmarking/backends/backends.py:259-266 | the first point on which the filter raises, with no raise before it |
| Backends.ScanIsFirstMatches | benchmarking/backends/backends.py:259-265 | the scroll loop keeps the first max(limit, 1) matching payloads before the first raising point, in page order |
| Backends.ScanBounds | benchmarking/backends/backends.py:259-265 | at most max(limit, 1) payloads, no more than the page holds, each matching the query |
| Backends.ScanWithVerdicts | benchmarking/backends/backends.py:259-265 | the scan over verdicts computed beforehand equals the scan that evaluates the filter as it goes |
| Backends.ScanPage | benchmarking/backends/backends.py:259-265 | the imperative scroll loop, with its break at the limit and its exit on a raising filter, returns that scan |
| Backends.LexicalWithinLimit | benchmarking/backends/base.py:73-86 | lexical_search returns at most limit results for every limit >= 1 |
| Backends.VectorResults | benchmarking/backends/backends.py:271-281 | nothing on an unset client or an engine error, else the payloads of the engine's hits, in order |
| Backends.PyPrefix | benchmarking/backends/backends.py:307 | Python's `s[:k]`, including a negative k counting from the end; always a prefix |
| Backends.LexicalTaken | benchmarking/backends/backends.py:300-305 | the number of lexical hits the merge loop appends is at most their number |
| Backends.MergeHits | benchmarking/backends/backends.py:292-307 | the merge loops with the identity seen-set compute MergeAsWritten |
| Backends.MergeIsPrefix | benchmarking/backends/backends.py:292-307 | the merge is a prefix of vector hits followed by lexical hits; for limit >= 0 it is exactly the first `limit` of them |
| Backends.HybridWithinLimit | benchmarking/backends/base.py:104-118 | hybrid_search returns at most limit results for every limit >= 0 |
| Backends.HybridKeepsSharedHitTwice | benchmarking/backends/backends.py:295-302 | a matching point returned by both searches appears twice in the merge |
| Backends.DistinctFrom | benchmarking/backends/backends.py:292-302 | first occurrences only: no duplicates, and exactly the elements not already seen |
| Backends.DistinctFromAppend | benchmarking/backends/backends.py:292-302 | removing duplicates from a + b is removing them from a, then from b past what a holds |
| Backends.MergeDistinctProperties | benchmarking/backends/backends.py:291-307 | the corrected merge has no duplicates, at most limit entries, only hits; keeps every hit when the distinct hits fit; begins with the distinct vector hits in order when those fit |
| Backends.MergeDistinctSharedHitOnce | benchmarking/backends/backends.py:295-302 | with duplicates removed, a point returned by both searches appears once |
| Backends.QdrantBackend.constructor | benchmarking/backends/backends.py:147-162 | falsy host or port take "localhost" and 6333; url and api key kept; no client; empty call log |
| Backends.QdrantBackend.Connect | benchmarking/backends/backends.py:164-173 | a remote client when url is truthy, else a local one; no call issued |
| Backends.QdrantBackend.Disconnect | benchmarking/backends/backends.py:175-177 | closes the client only when there is one; the attribute keeps it |
| Backends.QdrantBackend.HealthCheck | benchmarking/backends/backends.py:179-185 | true exactly when there is a client and get_collections answers; never raises |
| Backends.QdrantBackend.ResetIndex | benchmarking/backends/backends.py:187-192 | issues delete_collection when there is a client; returns normally in every case |
| Backends.QdrantBackend.CreateIndex | benchmarking/backends/backends.py:194-202 | a dense collection of VectorSize(schema) dimensions; an unset client or engine error propagates |
| Backends.QdrantBackend.IndexDocuments | benchmarking/backends/backends.py:204-237 | issues IngestCalls and returns IngestResult |
| Backends.QdrantBackend.GetDocCount | benchmarking/backends/backends.py:239-241 | one get_collection call; its answer or its error; an unset client raises |
| Backends.QdrantBackend.LexicalSearch | benchmarking/backends/backends.py:243-269 | scrolls `limit * 10` points; returns the scan of the page, or nothing when the client is unset or the scroll raises |
| Backends.QdrantBackend.VectorSearch | benchmarking/backends/backends.py:271-281 | one search call; the hits' payloads, or nothing on any failure |
| Backends.QdrantBackend.HybridSearch | benchmarking/backends/backends.py:283-307 | a scroll then a search call; returns the as-written merge of the two results |
| Qdrant.CaughtPayloads | benchmarking/backends/qdrant.py:132-143 | nothing when the client is unset, the vector is empty or the engine raises; otherwise the payloads of the engine's answer |
| Qdrant.CaughtPayloadsOnlyFromReply | benchmarking/backends/qdrant.py:145-171 | whatever fails, the result is a list of payloads of the engine's hits, no longer than its answer |
| Qdrant.QdrantBackend.constructor | benchmarking/backends/qdrant.py:18-31 | falsy host or port take "localhost" and 6333; no client; empty call log |
| Qdrant.QdrantBackend.Connect | benchmarking/backends/qdrant.py:33-42 | a remote client when url is truthy, else a local one |
| Qdrant.QdrantBackend.Disconnect | benchmarking/backends/qdrant.py:44-46 | closes the client only when there is one |
| Qdrant.QdrantBackend.HealthCheck | benchmarking/backends/qdrant.py:48-54 | true exactly when there is a client and get_collections answers |
| Qdrant.QdrantBackend.ResetIndex | benchmarking/backends/qdrant.py:56-61 | never raises; issues delete_collection only when there is a client |
| Qdrant.QdrantBackend.CreateIndex | benchmarking/backends/qdrant.py:63-78 | a collection with a dense "embedding" vector of VectorSize(schema) and a sparse "bm25" vector; errors propagate |
| Qdrant.QdrantBackend.IndexDocuments | benchmarking/backends/qdrant.py:80-113 | issues IngestCalls and returns IngestResult |
| Qdrant.QdrantBackend.GetDocCount | benchmarking/backends/qdrant.py:115-117 | one get_collection call; its answer or error; an unset client raises |
| Qdrant.QdrantBackend.LexicalSearch | benchmarking/backends/qdrant.py:119-130 | one BM25 query_points call; engine errors and an unset client propagate |
| Qdrant.QdrantBackend.VectorSearch | benchmarking/backends/qdrant.py:132-143 | a dense query on element 0 of the vector; no call and [] without a client or with an empty vector; [] on an engine error |
| Qdrant.QdrantBackend.HybridSearch | benchmarking/backends/qdrant.py:145-171 | one fused query with two prefetches of 100; [] on every failure |
| WriteBenchmark.QdrantDocs | benchmarking/benchmarks/write.py:62-82 | one document per row |
| WriteBenchmark.ElasticsearchDocs | benchmarking/benchmarks/write.py:39-59 | one document per row |
| WriteBenchmark.GeneratedDocuments | benchmarking/benchmarks/write.py:39-82 | ids are the row positions 0, 1, 2, ..., hence distinct and increasing; vector and text come from the same row; no title is sent; the Elasticsearch source is the Qdrant payload plus the embedding |
| WriteBenchmark.WrittenTitleNeverMatches | benchmarking/benchmarks/write.py:68-80 | a written document has no title, so the older lexical filter sees "" for it |
| WriteBenchmark.Digits | benchmarking/benchmarks/write.py:132 | the decimal digits of n are all digit characters, at least one |
| WriteBenchmark.ParseDigitsOfDigits | benchmarking/benchmarks/write.py:132 | reading back the digits of n gives n |
| WriteBenchmark.DecimalRoundTrip | benchmarking/benchmarks/write.py:132 | reading back `f"{n}"` gives n, negative numbers included |
| WriteBenchmark.WriteNamesDistinct | benchmarking/benchmarks/write.py:132 | distinct batch sizes give distinct result names |
| WriteBenchmark.SweepSizes | benchmarking/benchmarks/write.py:105-106 | `[100, 500, 1000]` when no sizes are given, else the given list |
| WriteBenchmark.FirstFailingRun | benchmarking/benchmarks/write.py:110-145 | None exactly when every run succeeds; otherwise a failing run with every earlier run succeeding |
| WriteBenchmark.KeyedByLastProperties | benchmarking/benchmarks/write.py:108-145 | the map's keys are exactly the batch sizes, and each maps to the value of its last occurrence |
| WriteBenchmark.SweepOutcome | benchmarking/benchmarks/write.py:108-154 | the sweep succeeds exactly when every run succeeds |
| WriteBenchmark.RunSucceeds | benchmarking/benchmarks/write.py:110-127 | a run succeeds exactly when there is a client, create succeeds and no upsert is refused; it then counts every document |
| WriteBenchmark.SweepResults | benchmarking/benchmarks/write.py:108-145 | on success, the keys are exactly the batch sizes and each maps to its last run's record |
| WriteBenchmark.SingleSpanSummary | benchmarking/benchmarks/write.py:125-137 | one latency sample makes all six statistics equal to it |
| WriteBenchmark.WriteResultFields | benchmarking/benchmarks/write.py:131-143 | name `{backend}_write_batch_{size}`, engine, "write", total = the count indexed, six equal latency statistics, throughput count/elapsed or 0, resource fields 0 |
| WriteBenchmark.TimedIndexing | benchmarking/benchmarks/write.py:125-127 | one timed span around index_documents: its calls and result, elapsed time and one-sample latency summary |
| WriteBenchmark.MeasuredIndexing | benchmarking/benchmarks/write.py:122-143 | the ingestion's calls; its error propagates; on success the run's record |
| WriteBenchmark.PrepareIndex | benchmarking/benchmarks/write.py:111-113 | reset then create: both calls with a client, the create error propagates; NoClient without one |
| WriteBenchmark.WriteRun | benchmarking/benchmarks/write.py:110-145 | one run issues RunCalls (delete, create, upserts) and fails exactly as RunOutcome says, else returns WriteResult |
| WriteBenchmark.SweepStep | benchmarking/benchmarks/write.py:110-145 | one more run adds its entry to the map and its calls to the log |
| WriteBenchmark.SweepFailsAt | benchmarking/benchmarks/write.py:110-127 | the first failing run ends the sweep with its error and its calls |
| WriteBenchmark.SweepCompletes | benchmarking/benchmarks/write.py:108-154 | when all runs succeed, the sweep returns the map of all runs and their calls |
| WriteBenchmark.SweepRuns | benchmarking/benchmarks/write.py:108-154 | the loop over batch sizes returns SweepOutcome and issues SweepCalls |
| WriteBenchmark.BenchmarkWrite | benchmarking/benchmarks/write.py:85-154 | benchmark_write with the default sizes: SweepOutcome and SweepCalls |
| QueryBenchmark.TitleQueryProperties | benchmarking/benchmarks/query.py:29-40 | no query exactly for a missing title or one with no words; otherwise a non-empty query of the title's first 1 to 5 words, in order |
| QueryBenchmark.VectorQueries | benchmarking/benchmarks/query.py:43-58 | one vector query per sampled row |
| QueryBenchmark.LexicalQueriesFromTitles | benchmarking/benchmarks/query.py:23-40 | at most one lexical query per sampled row, each the query of some sampled title |
| QueryBenchmark.LexicalQueriesShape | benchmarking/benchmarks/query.py:36-40 | every lexical query is non-empty with 1 to 5 words |
| QueryBenchmark.SampleQueries | benchmarking/benchmarks/query.py:9-60 | ValueError exactly when the sample size is negative; otherwise the lexical and vector queries of the sampled rows, in sample order |
| QueryBenchmark.SpanLatencies | benchmarking/metrics.py:132-135 | one latency per span |
| QueryBenchmark.VectorSearchResultFields | benchmarking/benchmarks/query.py:94-106 | name, engine, "vector_query", one operation per query, throughput count/duration or 0, resource fields 0 |
| QueryBenchmark.VectorSearchLatencies | benchmarking/benchmarks/query.py:86-100 | latency map empty exactly without spans; every span's latency between the reported min and max, both span latencies |
| QueryBenchmark.DurationIsLastSpan | benchmarking/benchmarks/query.py:98 | earlier spans do not count towards the duration |
| QueryBenchmark.TimedSearches | benchmarking/benchmarks/query.py:88-90 | one search call and one timed span per vector; the timer's latencies are the spans' and its elapsed time the last span's |
| QueryBenchmark.BenchmarkVectorSearch | benchmarking/benchmarks/query.py:63-108 | the search calls of all vectors, and VectorSearchResult of the spans |
| QueryBenchmark.RunQueryBenchmarks | benchmarking/benchmarks/query.py:110-145 | ValueError and no call when sampling fails; otherwise a map with the single key "vector" holding the replay of the sampled vectors at limit 10 |

## Left out

- The Elasticsearch adapter (`ElasticsearchBackend` in `benchmarking/backends/backends.py` and `benchmarking/backends/elastic.py`): it builds request bodies for a client library that is not part of this model. The write benchmark's choice between the two generators is modelled by the backend's type, which is always the Qdrant adapter here.
- The `config` branch of both adapters' constructors: it reads a configuration mapping with `dict.get` defaults. config.py is not part of this model.
- The abstract interface of `benchmarking/backends/base.py` is not a Dafny trait. Its values, calls and ingestion policy form module `SearchBackend`, and each adapter class states its own contract against them.
- `vector_search` "at most limit results": the bound is the engine's promise. Both adapters return exactly the engine's hits (`Backends.VectorResults`, `Qdrant.CaughtPayloads`).
- Ranking inside the engine: nearest neighbours, BM25 and reciprocal rank fusion in `qdrant.py` are the engine's answer, given as a parameter.
- Reading the parquet file: the dataset is the constructor's `df` argument. The polars row and `to_list` conversions are taken as done: a row's title is an optional string and its embedding a list of reals.
- `SampleQueries`: titles stored as lists, and non-string titles passed through `str()`, are not modelled.
- The `SparseTextEmbedding` model loaded at import time in `qdrant.py`.
- `random.sample`, `time.time` and the psutil readings are parameters.
- Printing, and `BenchmarkResult.to_dict`/`to_json`.
- runner.py and the `__main__` blocks.
- Concurrency: `CPUMonitor` is sequential, as in the code.
- `Text.Lower`: lowers ASCII letters only. Python's Unicode case mapping is not modelled.
- Floating point: samples, times and throughputs are exact reals. `int(n * 0.99)` is the integer `n * 99 / 100`, and `rss / 1024 / 1024` is exact division.
- `WriteBenchmark.KeyedByLast`: the results are a Dafny map, which has no order. The Python dict keeps the order in which the batch sizes were first inserted, and runner.py reports the results in that order. The model does not capture that order.
- `Metrics.Timer.Percentile`: requires `percentile < 100`. For 100 the source indexes past the end; only 95 and 99 are ever passed.
- `Qdrant.QdrantBackend.IndexDocuments`, `Backends.QdrantBackend.IndexDocuments`: documents are a finite sequence, not a lazy generator. Only the first refused upsert is an input, because it ends the call.

## Findings

| source | as written | input that shows it | evidently intended | confidence | as-written member | corrected member |
|---|---|---|---|---|---|---|
| benchmarking/backends/backends.py:292-302 | `seen_ids` holds `id(result)`, the identity of the vector hit's payload object. A lexical hit is a different object even when it is the same document, so no lexical hit is ever skipped. | a limit of 2 and one point, whose payload matches the query, returned by both the scroll and the search: the merge is `[payload, payload]` | each document appears once in the merge | not executed; high, since the object identities of two separately returned payload dicts differ | Backends.HybridKeepsSharedHitTwice | Backends.MergeDistinctSharedHitOnce |

`Backends.MergeDistinct` is the corrected merge. The comment at `benchmarking/backends/backends.py:296` asks for a unique identifier. The stored payloads carry no document id, so the corrected merge tells documents apart by payload equality, and two documents with equal payloads count as one. `Backends.MergeDistinctProperties` proves its properties: no duplicates, at most `limit` entries, and the distinct vector hits first. `Backends.QdrantBackend.HybridSearch` keeps the as-written merge, because the adapter's observable behaviour is what the model describes.
