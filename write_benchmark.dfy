/**
 * The write workload (benchmarking/benchmarks/write.py): for each batch
 * size, reset and re-create the collection, stream every dataset row into
 * it as a document under one timed span, and record one BenchmarkResult
 * keyed by the batch size.
 *
 * The backend is the Qdrant adapter of benchmarking/backends/backends.py,
 * so the documents are always the Qdrant-format ones. The engine's replies
 * and the clock readings of each run are inputs.
 */
module WriteBenchmark {
  import opened Wrappers
  import opened SearchBackend
  import opened Metrics
  import Backends

  // ---------------------------------------------------------------------
  // Documents

  /** The payload of generate_qdrant_docs: eleven columns of the row; the
      embedding travels as the point's vector and the title is not sent. */
  function QdrantPayload(row: Row): Payload
  {
    map["review_text" := row.reviewText,
        "age" := row.age,
        "rating" := row.rating,
        "positive_feedback_count" := row.positiveFeedbackCount,
        "division_name" := row.divisionName,
        "department_name" := row.departmentName,
        "class_name" := row.className,
        "recommended_ind" := row.recommendedInd,
        "text" := row.text,
        "umap1" := row.umap1,
        "umap2" := row.umap2]
  }

  /** generate_qdrant_docs: row i becomes the document with id i. */
  function QdrantDocs(rows: seq<Row>): (docs: seq<Point>)
    ensures |docs| == |rows|
  {
    seq(|rows|, i requires 0 <= i < |rows| => Point(i, rows[i].embedding, QdrantPayload(rows[i])))
  }

  /** An Elasticsearch document: its `_id` and its `_source`. */
  datatype EsDoc = EsDoc(id: int, source: Payload)

  /** generate_elasticsearch_docs: row i becomes the document with `_id` i,
      whose source holds the same columns plus the embedding. */
  function ElasticsearchDocs(rows: seq<Row>): (docs: seq<EsDoc>)
    ensures |docs| == |rows|
  {
    seq(|rows|, i requires 0 <= i < |rows| =>
      EsDoc(i, QdrantPayload(rows[i])["embedding" := Vec(rows[i].embedding)]))
  }

  /** Both generators number the rows 0, 1, 2, ...: ids are the row
      positions, hence distinct and increasing, and each document carries its
      own row's columns; the Elasticsearch source is the Qdrant payload plus
      the embedding. */
  lemma GeneratedDocuments(rows: seq<Row>)
    ensures forall i :: 0 <= i < |rows| ==> QdrantDocs(rows)[i].id == i && ElasticsearchDocs(rows)[i].id == i
    ensures forall i, j :: 0 <= i < j < |rows| ==> QdrantDocs(rows)[i].id < QdrantDocs(rows)[j].id
    ensures forall i, j :: 0 <= i < j < |rows| ==> ElasticsearchDocs(rows)[i].id < ElasticsearchDocs(rows)[j].id
    ensures forall i :: 0 <= i < |rows| ==>
      QdrantDocs(rows)[i].vector == rows[i].embedding &&
      QdrantDocs(rows)[i].payload["text"] == rows[i].text &&
      "title" !in QdrantDocs(rows)[i].payload && "embedding" !in QdrantDocs(rows)[i].payload
    ensures forall i :: 0 <= i < |rows| ==>
      ElasticsearchDocs(rows)[i].source.Keys == QdrantDocs(rows)[i].payload.Keys + {"embedding"} &&
      ElasticsearchDocs(rows)[i].source["embedding"] == Vec(rows[i].embedding)
  {
  }

  /** A document written by the write benchmark has no title, so the older
      adapter's lexical filter can only match it on its text. */
  lemma WrittenTitleNeverMatches(rows: seq<Row>, i: nat, query: string)
    requires i < |rows|
    ensures Backends.FieldOf(QdrantDocs(rows)[i].payload, "title") == Backends.AsText("")
  {
  }

  // ---------------------------------------------------------------------
  // Result names

  function DigitChar(d: nat): char
    requires d < 10
  {
    "0123456789"[d]
  }

  /** The decimal digits of n, most significant first. */
  function Digits(n: nat): (s: string)
    ensures s != [] && forall i :: 0 <= i < |s| ==> '0' <= s[i] <= '9'
  {
    if n < 10 then [DigitChar(n)] else Digits(n / 10) + [DigitChar(n % 10)]
  }

  /** f"{n}" for an int. */
  function DecimalString(n: int): string
  {
    if n < 0 then "-" + Digits(-n) else Digits(n)
  }

  function DigitValue(c: char): nat
  {
    if '0' <= c <= '9' then c as int - '0' as int else 0
  }

  /** Reads a string of decimal digits. */
  function ParseDigits(s: string): nat
  {
    if s == [] then 0
    else ParseDigits(s[..|s| - 1]) * 10 + DigitValue(s[|s| - 1])
  }

  function ParseDecimal(s: string): int
  {
    if s != [] && s[0] == '-' then -(ParseDigits(s[1..]) as int) else ParseDigits(s)
  }

  lemma {:induction false} ParseDigitsOfDigits(n: nat)
    ensures ParseDigits(Digits(n)) == n
  {
    if n >= 10 {
      ParseDigitsOfDigits(n / 10);
      var s := Digits(n / 10) + [DigitChar(n % 10)];
      assert s[..|s| - 1] == Digits(n / 10);
      assert DigitValue(s[|s| - 1]) == n % 10;
    } else {
      assert DigitValue(DigitChar(n)) == n;
      assert [DigitChar(n)][..0] == [];
    }
  }

  /** Reading back f"{n}" gives n. */
  lemma DecimalRoundTrip(n: int)
    ensures ParseDecimal(DecimalString(n)) == n
  {
    if n < 0 {
      var d := Digits(-n);
      ParseDigitsOfDigits(-n);
      assert ("-" + d)[0] == '-' && ("-" + d)[1..] == d;
      assert ParseDecimal("-" + d) == -(ParseDigits(d) as int);
    } else {
      var d := Digits(n);
      ParseDigitsOfDigits(n);
      assert d[0] != '-';
    }
  }

  /** f"{backend_name}_write_batch_{batch_size}" */
  function WriteName(backendName: string, batchSize: int): string
  {
    backendName + "_write_batch_" + DecimalString(batchSize)
  }

  /** Distinct batch sizes give distinct result names. */
  lemma WriteNamesDistinct(backendName: string, a: int, b: int)
    requires a != b
    ensures WriteName(backendName, a) != WriteName(backendName, b)
  {
    var prefix := backendName + "_write_batch_";
    if WriteName(backendName, a) == WriteName(backendName, b) {
      var sa, sb := DecimalString(a), DecimalString(b);
      assert (prefix + sa)[|prefix|..] == sa;
      assert (prefix + sb)[|prefix|..] == sb;
      DecimalRoundTrip(a);
      DecimalRoundTrip(b);
    }
  }

  // ---------------------------------------------------------------------
  // The sweep

  const DefaultBatchSizes: seq<int> := [100, 500, 1000]

  /** The batch sizes swept: the given list, or [100, 500, 1000] when None. */
  function SweepSizes(batchSizes: Option<seq<int>>): (sizes: seq<int>)
    ensures batchSizes.None? ==> sizes == [100, 500, 1000]
    ensures batchSizes.Some? ==> sizes == batchSizes.value
  {
    if batchSizes.None? then DefaultBatchSizes else batchSizes.value
  }

  /** The inputs of one run: the engine's answer to create_collection, the
      ordinal of the first upsert it refuses (if any), and the two clock
      readings around index_documents. */
  datatype RunEnv = RunEnv(createReply: Reply<()>, rejected: Option<nat>, start: real, end: real)

  /** What one run's index_documents returns, or why the run raised: an unset
      client fails create_index, then create_index's or an upsert's error. */
  function RunOutcome(size: int, docs: seq<Point>, connected: bool, env: RunEnv): Result<nat, Error>
  {
    if !connected then Err(NoClient)
    else if env.createReply.Err? then Err(env.createReply.error)
    else IngestResult(docs, size, true, env.rejected)
  }

  /** The calls of one run: delete and create the collection, then the upserts. */
  function RunCalls(indexName: string, schema: map<string, int>, size: int, docs: seq<Point>,
                    connected: bool, env: RunEnv): seq<Call>
  {
    if !connected then []
    else
      [DeleteCollection(indexName), CreateCollection(indexName, VectorSize(schema), false)] +
      (if env.createReply.Ok? then IngestCalls(indexName, docs, size, true, env.rejected) else [])
  }

  /** The record of one completed run: one timed span, no resource samples. */
  function WriteResult(backendName: string, size: int, success: nat, env: RunEnv): BenchmarkResult
  {
    var elapsed := ElapsedBetween(Some(env.start), Some(env.end));
    BenchmarkResult(
      WriteName(backendName, size), backendName, "write", elapsed, success,
      LatencySummary([(env.end - env.start) * 1000.0]), Throughput(success, elapsed),
      0.0, 0.0, 0.0, 0.0)
  }

  /** The first run that raises, if any. */
  function FirstFailingRun(sizes: seq<int>, docs: seq<Point>, connected: bool, env: seq<RunEnv>): (f: Option<nat>)
    requires |env| == |sizes|
    ensures f.None? <==> forall j :: 0 <= j < |sizes| ==> RunOutcome(sizes[j], docs, connected, env[j]).Ok?
    ensures f.Some? ==> f.value < |sizes| && RunOutcome(sizes[f.value], docs, connected, env[f.value]).Err?
    ensures f.Some? ==> forall j :: 0 <= j < f.value ==> RunOutcome(sizes[j], docs, connected, env[j]).Ok?
    decreases |sizes|
  {
    if sizes == [] then None
    else
      var last := |sizes| - 1;
      var before := FirstFailingRun(sizes[..last], docs, connected, env[..last]);
      assert forall j :: 0 <= j < last ==> sizes[..last][j] == sizes[j] && env[..last][j] == env[j];
      if before.Some? then before
      else if RunOutcome(sizes[last], docs, connected, env[last]).Err? then Some(last)
      else None
  }

  /** The map built by assigning values[i] to keys[i] in order: a repeated
      key keeps its last value. */
  function KeyedByLast<V>(keys: seq<int>, values: seq<V>): map<int, V>
    requires |keys| == |values|
    decreases |keys|
  {
    if keys == [] then map[]
    else
      var last := |keys| - 1;
      KeyedByLast(keys[..last], values[..last])[keys[last] := values[last]]
  }

  /** Its keys are exactly the given keys, and each maps to the value at its
      last occurrence. */
  lemma {:induction false} KeyedByLastProperties<V>(keys: seq<int>, values: seq<V>)
    requires |keys| == |values|
    ensures KeyedByLast(keys, values).Keys == set k | k in keys
    ensures forall j :: 0 <= j < |keys| && (forall k :: j < k < |keys| ==> keys[k] != keys[j]) ==>
      KeyedByLast(keys, values)[keys[j]] == values[j]
    decreases |keys|
  {
    if keys != [] {
      var last := |keys| - 1;
      KeyedByLastProperties(keys[..last], values[..last]);
      assert (set k | k in keys) == (set k | k in keys[..last]) + {keys[last]} by {
        assert forall k :: k in keys <==> k in keys[..last] || k == keys[last];
      }
      assert forall j :: 0 <= j < last ==> keys[..last][j] == keys[j] && values[..last][j] == values[j];
    }
  }

  /** The record of each run, in run order. */
  function WriteResults(backendName: string, sizes: seq<int>, success: nat, env: seq<RunEnv>): (r: seq<BenchmarkResult>)
    requires |env| == |sizes|
    ensures |r| == |sizes|
  {
    seq(|sizes|, j requires 0 <= j < |sizes| => WriteResult(backendName, sizes[j], success, env[j]))
  }

  /** What benchmark_write returns: the error of the first run that raises,
      or the map from each batch size to the record of its run. */
  function SweepOutcome(backendName: string, sizes: seq<int>, docs: seq<Point>, connected: bool,
                        env: seq<RunEnv>): (r: Result<map<int, BenchmarkResult>, Error>)
    requires |env| == |sizes|
    ensures r.Ok? <==> forall j :: 0 <= j < |sizes| ==> RunOutcome(sizes[j], docs, connected, env[j]).Ok?
  {
    match FirstFailingRun(sizes, docs, connected, env)
    case Some(j) => Err(RunOutcome(sizes[j], docs, connected, env[j]).error)
    case None => Ok(KeyedByLast(sizes, WriteResults(backendName, sizes, |docs|, env)))
  }

  /** The calls of all the runs, in order. */
  function AllRunCalls(indexName: string, schema: map<string, int>, sizes: seq<int>,
                       docs: seq<Point>, connected: bool, env: seq<RunEnv>): seq<Call>
    requires |env| == |sizes|
    decreases |sizes|
  {
    if sizes == [] then []
    else
      var last := |sizes| - 1;
      AllRunCalls(indexName, schema, sizes[..last], docs, connected, env[..last]) +
      RunCalls(indexName, schema, sizes[last], docs, connected, env[last])
  }

  /** The calls benchmark_write issues: those of every run up to and
      including the first that raises. */
  function SweepCalls(indexName: string, schema: map<string, int>, sizes: seq<int>,
                      docs: seq<Point>, connected: bool, env: seq<RunEnv>): seq<Call>
    requires |env| == |sizes|
  {
    match FirstFailingRun(sizes, docs, connected, env)
    case Some(j) => AllRunCalls(indexName, schema, sizes[..j + 1], docs, connected, env[..j + 1])
    case None => AllRunCalls(indexName, schema, sizes, docs, connected, env)
  }

  /** A run succeeds exactly when the client is set, create_index succeeds
      and the engine refuses none of its upserts; it then reports every
      document as written. */
  lemma RunSucceeds(size: int, docs: seq<Point>, connected: bool, env: RunEnv)
    ensures RunOutcome(size, docs, connected, env).Ok? <==>
      connected && env.createReply.Ok? &&
      (env.rejected.None? || env.rejected.value >= |Batches(docs, size)|)
    ensures RunOutcome(size, docs, connected, env).Ok? ==> RunOutcome(size, docs, connected, env).value == |docs|
  {
  }

  /** On success the keys are exactly the batch sizes, and each size maps to
      the record of its last run, which reports every document as written. */
  lemma SweepResults(backendName: string, sizes: seq<int>, docs: seq<Point>,
                     connected: bool, env: seq<RunEnv>)
    requires |env| == |sizes|
    requires SweepOutcome(backendName, sizes, docs, connected, env).Ok?
    ensures SweepOutcome(backendName, sizes, docs, connected, env).value.Keys == set s | s in sizes
    ensures forall j :: 0 <= j < |sizes| && (forall k :: j < k < |sizes| ==> sizes[k] != sizes[j]) ==>
      SweepOutcome(backendName, sizes, docs, connected, env).value[sizes[j]] ==
        WriteResult(backendName, sizes[j], |docs|, env[j])
  {
    KeyedByLastProperties(sizes, WriteResults(backendName, sizes, |docs|, env));
  }

  /** With one latency sample, all six statistics equal it. */
  lemma SingleSpanSummary(x: real)
    ensures LatencySummary([x]).Keys == SummaryKeys
    ensures forall k :: k in LatencySummary([x]) ==> LatencySummary([x])[k] == x
  {
    var m := LatencySummary([x]);
    assert m["min_ms"] == x && m["max_ms"] == x;
    assert m["p95_ms"] == x && m["p99_ms"] == x;
  }

  /** Each run's record: its name, engine and workload; total_operations is
      the count index_documents returned; the latency series is the single
      span, so all six statistics equal it; throughput is the count over the
      elapsed time (0 when that is not positive); the resource fields are 0
      because nothing is recorded between start and stop. */
  lemma WriteResultFields(backendName: string, size: int, success: nat, env: RunEnv)
    ensures WriteResult(backendName, size, success, env).name == WriteName(backendName, size)
    ensures WriteResult(backendName, size, success, env).engine == backendName
    ensures WriteResult(backendName, size, success, env).workloadType == "write"
    ensures WriteResult(backendName, size, success, env).totalOperations == success
    ensures var m := WriteResult(backendName, size, success, env).latencyMetrics;
      m.Keys == SummaryKeys && forall k :: k in m ==> m[k] == (env.end - env.start) * 1000.0
    ensures var r := WriteResult(backendName, size, success, env);
      (r.durationSeconds > 0.0 ==> r.throughputOpsPerSec == success as real / r.durationSeconds) &&
      (r.durationSeconds <= 0.0 ==> r.throughputOpsPerSec == 0.0)
    ensures var r := WriteResult(backendName, size, success, env);
      r.avgCpuUsagePercent == 0.0 && r.peakCpuUsagePercent == 0.0 && r.avgMemoryMb == 0.0 && r.peakMemoryMb == 0.0
  {
    SingleSpanSummary((env.end - env.start) * 1000.0);
  }

  /** The `with timer:` block around index_documents: one span, timed by
      the clock readings of env. */
  method TimedIndexing(backend: Backends.QdrantBackend, indexName: string, docs: seq<Point>,
                       batchSize: int, env: RunEnv)
    returns (success: Result<nat, Error>, elapsed: real, latencyMetrics: map<string, real>)
    modifies backend
    ensures backend.client == old(backend.client)
    ensures backend.calls == old(backend.calls) +
      IngestCalls(indexName, docs, batchSize, old(backend.client).Client?, env.rejected)
    ensures success == IngestResult(docs, batchSize, old(backend.client).Client?, env.rejected)
    ensures elapsed == ElapsedBetween(Some(env.start), Some(env.end))
    ensures latencyMetrics == LatencySummary([(env.end - env.start) * 1000.0])
  {
    var timer := new Timer();
    timer.Enter(env.start);
    success := backend.IndexDocuments(indexName, docs, batchSize, env.rejected);
    timer.Exit(env.end);
    assert timer.latencies == [(env.end - env.start) * 1000.0];
    elapsed := timer.ElapsedSeconds();
    latencyMetrics := timer.GetLatencyMetrics();
  }

  lemma AppendAssociative(a: seq<Call>, b: seq<Call>, c: seq<Call>)
    ensures (a + b) + c == a + (b + c)
  {
  }

  lemma RunsSucceedExtend(sizes: seq<int>, docs: seq<Point>, connected: bool, env: seq<RunEnv>, i: nat)
    requires i < |sizes| == |env|
    requires RunsSucceedBefore(sizes, docs, connected, env, i)
    requires RunOutcome(sizes[i], docs, connected, env[i]).Ok?
    ensures RunsSucceedBefore(sizes, docs, connected, env, i + 1)
  {
  }

  /** The measured part of one pass: the documents are streamed into the
      collection under one timed span while the resource monitor runs, and
      the run's record is built. */
  method MeasuredIndexing(backend: Backends.QdrantBackend, backendName: string, indexName: string,
                          batchSize: int, env: RunEnv)
    returns (outcome: Result<BenchmarkResult, Error>)
    modifies backend
    ensures backend.client == old(backend.client)
    ensures backend.calls == old(backend.calls) +
      IngestCalls(indexName, QdrantDocs(backend.df), batchSize, old(backend.client).Client?, env.rejected)
    ensures outcome.Err? <==> IngestResult(QdrantDocs(backend.df), batchSize, old(backend.client).Client?, env.rejected).Err?
    ensures outcome.Err? ==>
      outcome.error == IngestResult(QdrantDocs(backend.df), batchSize, old(backend.client).Client?, env.rejected).error
    ensures outcome.Ok? ==> outcome.value == WriteResult(backendName, batchSize, |backend.df|, env)
  {
    var docs := QdrantDocs(backend.df);
    var cpuMonitor := new CPUMonitor();
    cpuMonitor.Start();
    var success, elapsed, latencyMetrics := TimedIndexing(backend, indexName, docs, batchSize, env);
    if success.Err? {
      // the span was closed on the way out; the exception propagates
      return Err(success.error);
    }
    var cpuStats := cpuMonitor.Stop();
    outcome := Ok(BenchmarkResult(
      WriteName(backendName, batchSize), backendName, "write", elapsed, success.value,
      latencyMetrics, Throughput(success.value, elapsed),
      cpuStats.avgCpuPercent, cpuStats.peakCpuPercent, cpuStats.avgMemoryMb, cpuStats.peakMemoryMb));
  }

  /** One pass of benchmark_write's loop: reset, create, then index every
      row under one timed span with the resource monitor running. */
  method WriteRun(backend: Backends.QdrantBackend, backendName: string, indexName: string,
                  schema: map<string, int>, batchSize: int, env: RunEnv)
    returns (outcome: Result<BenchmarkResult, Error>)
    modifies backend
    ensures backend.client == old(backend.client)
    ensures backend.calls == old(backend.calls) +
      RunCalls(indexName, schema, batchSize, QdrantDocs(backend.df), old(backend.client).Client?, env)
    ensures outcome.Err? <==> RunOutcome(batchSize, QdrantDocs(backend.df), old(backend.client).Client?, env).Err?
    ensures outcome.Err? ==>
      outcome.error == RunOutcome(batchSize, QdrantDocs(backend.df), old(backend.client).Client?, env).error
    ensures outcome.Ok? ==> outcome.value == WriteResult(backendName, batchSize, |backend.df|, env)
  {
    ghost var connected := old(backend.client).Client?;
    ghost var docs := QdrantDocs(backend.df);
    ghost var prepare := if connected then [DeleteCollection(indexName), CreateCollection(indexName, VectorSize(schema), false)] else [];
    var created := PrepareIndex(backend, indexName, schema, env.createReply);
    if created.Err? {
      assert RunCalls(indexName, schema, batchSize, docs, connected, env) == prepare + [];
      return Err(created.error);
    }
    ghost var ingest := IngestCalls(indexName, docs, batchSize, true, env.rejected);
    assert RunCalls(indexName, schema, batchSize, docs, true, env) == prepare + ingest;
    assert RunOutcome(batchSize, docs, true, env) == IngestResult(docs, batchSize, true, env.rejected);
    outcome := MeasuredIndexing(backend, backendName, indexName, batchSize, env);
    AppendAssociative(old(backend.calls), prepare, ingest);
  }

  /** The start of a run: reset the index, then create it again; the
      creation's error, if any, ends the run. */
  method PrepareIndex(backend: Backends.QdrantBackend, indexName: string, schema: map<string, int>,
                      createReply: Reply<()>)
    returns (created: Result<(), Error>)
    modifies backend
    ensures backend.client == old(backend.client)
    ensures old(backend.client).Unset? ==> created == Err(NoClient) && backend.calls == old(backend.calls)
    ensures old(backend.client).Client? ==> created == createReply
    ensures old(backend.client).Client? ==>
      backend.calls == old(backend.calls) + [DeleteCollection(indexName), CreateCollection(indexName, VectorSize(schema), false)]
  {
    // reset the index before each run
    backend.ResetIndex(indexName);
    created := backend.CreateIndex(indexName, schema, createReply);
  }

  /** Every run before the n-th succeeds. */
  ghost predicate RunsSucceedBefore(sizes: seq<int>, docs: seq<Point>, connected: bool, env: seq<RunEnv>, n: nat)
    requires n <= |sizes| == |env|
  {
    forall j :: 0 <= j < n ==> RunOutcome(sizes[j], docs, connected, env[j]).Ok?
  }

  /** One more successful run extends the map and the calls by that run's
      entry and calls. */
  lemma SweepStep(backendName: string, indexName: string, schema: map<string, int>, sizes: seq<int>,
                  docs: seq<Point>, connected: bool, env: seq<RunEnv>, i: nat)
    requires i < |sizes| == |env|
    ensures KeyedByLast(sizes[..i + 1], WriteResults(backendName, sizes[..i + 1], |docs|, env[..i + 1])) ==
      KeyedByLast(sizes[..i], WriteResults(backendName, sizes[..i], |docs|, env[..i]))[sizes[i] :=
        WriteResult(backendName, sizes[i], |docs|, env[i])]
    ensures AllRunCalls(indexName, schema, sizes[..i + 1], docs, connected, env[..i + 1]) ==
      AllRunCalls(indexName, schema, sizes[..i], docs, connected, env[..i]) +
      RunCalls(indexName, schema, sizes[i], docs, connected, env[i])
  {
    assert sizes[..i + 1][..i] == sizes[..i] && env[..i + 1][..i] == env[..i];
    assert WriteResults(backendName, sizes[..i + 1], |docs|, env[..i + 1])[..i] ==
           WriteResults(backendName, sizes[..i], |docs|, env[..i]);
  }

  /** The first run that raises ends the sweep with its error and its calls. */
  lemma SweepFailsAt(backendName: string, indexName: string, schema: map<string, int>, sizes: seq<int>,
                     docs: seq<Point>, connected: bool, env: seq<RunEnv>, i: nat)
    requires i < |sizes| == |env|
    requires RunsSucceedBefore(sizes, docs, connected, env, i)
    requires RunOutcome(sizes[i], docs, connected, env[i]).Err?
    ensures SweepOutcome(backendName, sizes, docs, connected, env) ==
      Err(RunOutcome(sizes[i], docs, connected, env[i]).error)
    ensures SweepCalls(indexName, schema, sizes, docs, connected, env) ==
      AllRunCalls(indexName, schema, sizes[..i + 1], docs, connected, env[..i + 1])
  {
    var f := FirstFailingRun(sizes, docs, connected, env);
    assert f == Some(i);
  }

  /** When every run succeeds the sweep returns the map of all the runs and
      issues the calls of all of them. */
  lemma SweepCompletes(backendName: string, indexName: string, schema: map<string, int>, sizes: seq<int>,
                       docs: seq<Point>, connected: bool, env: seq<RunEnv>)
    requires |sizes| == |env|
    requires RunsSucceedBefore(sizes, docs, connected, env, |sizes|)
    ensures SweepOutcome(backendName, sizes, docs, connected, env) ==
      Ok(KeyedByLast(sizes[..|sizes|], WriteResults(backendName, sizes[..|sizes|], |docs|, env[..|env|])))
    ensures SweepCalls(indexName, schema, sizes, docs, connected, env) ==
      AllRunCalls(indexName, schema, sizes[..|sizes|], docs, connected, env[..|env|])
  {
    assert sizes[..|sizes|] == sizes && env[..|env|] == env;
  }

  /** The loop of benchmark_write over the batch sizes. */
  method SweepRuns(backend: Backends.QdrantBackend, backendName: string, indexName: string,
                   schema: map<string, int>, sizes: seq<int>, env: seq<RunEnv>)
    returns (r: Result<map<int, BenchmarkResult>, Error>)
    requires |env| == |sizes|
    modifies backend
    ensures backend.client == old(backend.client)
    ensures r == SweepOutcome(backendName, sizes, QdrantDocs(backend.df), old(backend.client).Client?, env)
    ensures backend.calls == old(backend.calls) +
      SweepCalls(indexName, schema, sizes, QdrantDocs(backend.df), old(backend.client).Client?, env)
  {
    ghost var connected := backend.client.Client?;
    ghost var allDocs := QdrantDocs(backend.df);
    var results: map<int, BenchmarkResult> := map[];
    for i := 0 to |sizes|
      invariant backend.client == old(backend.client)
      invariant RunsSucceedBefore(sizes, allDocs, connected, env, i)
      invariant results == KeyedByLast(sizes[..i], WriteResults(backendName, sizes[..i], |allDocs|, env[..i]))
      invariant backend.calls == old(backend.calls) +
        AllRunCalls(indexName, schema, sizes[..i], allDocs, connected, env[..i])
    {
      SweepStep(backendName, indexName, schema, sizes, allDocs, connected, env, i);
      ghost var before := AllRunCalls(indexName, schema, sizes[..i], allDocs, connected, env[..i]);
      ghost var step := RunCalls(indexName, schema, sizes[i], allDocs, connected, env[i]);
      var outcome := WriteRun(backend, backendName, indexName, schema, sizes[i], env[i]);
      AppendAssociative(old(backend.calls), before, step);
      if outcome.Err? {
        SweepFailsAt(backendName, indexName, schema, sizes, allDocs, connected, env, i);
        return Err(outcome.error);
      }
      RunsSucceedExtend(sizes, allDocs, connected, env, i);
      results := results[sizes[i] := outcome.value];
    }
    SweepCompletes(backendName, indexName, schema, sizes, allDocs, connected, env);
    r := Ok(results);
  }

  /** benchmark_write. `env[i]` holds the engine's replies and the clock
      readings of the i-th run; no batch sizes means 100, 500 and 1000. */
  method BenchmarkWrite(backend: Backends.QdrantBackend, backendName: string, indexName: string,
                        schema: map<string, int>, batchSizes: Option<seq<int>>, env: seq<RunEnv>)
    returns (r: Result<map<int, BenchmarkResult>, Error>)
    requires |env| == |SweepSizes(batchSizes)|
    modifies backend
    ensures backend.client == old(backend.client)
    ensures r == SweepOutcome(backendName, SweepSizes(batchSizes), QdrantDocs(backend.df),
                              old(backend.client).Client?, env)
    ensures backend.calls == old(backend.calls) +
      SweepCalls(indexName, schema, SweepSizes(batchSizes), QdrantDocs(backend.df),
                 old(backend.client).Client?, env)
  {
    var sizes := if batchSizes.None? then DefaultBatchSizes else batchSizes.value;
    r := SweepRuns(backend, backendName, indexName, schema, sizes, env);
  }
}
