/**
 * The query workload (benchmarking/benchmarks/query.py): sample rows of the
 * dataset, turn each into a lexical query (the first words of its title) and
 * a vector query (its embedding), then replay the vector queries against the
 * backend, one timed span per query.
 *
 * The backend is the Qdrant adapter of benchmarking/backends/backends.py.
 * The row indices random.sample draws, the clock readings around each span
 * and the engine's replies are inputs.
 */
module QueryBenchmark {
  import opened Wrappers
  import opened SearchBackend
  import opened Metrics
  import opened Text
  import Backends

  // ---------------------------------------------------------------------
  // Sampling

  /** How many rows random.sample draws: min(num_queries, total_rows). */
  function SampleSize(numQueries: int, totalRows: nat): int
  {
    Min(numQueries, totalRows)
  }

  /** What random.sample(range(totalRows), k) may return: k distinct indices
      of the range. */
  predicate IsSample(indices: seq<int>, totalRows: nat, k: int)
  {
    && |indices| == k
    && (forall j :: 0 <= j < |indices| ==> 0 <= indices[j] < totalRows)
    && (forall j, l :: 0 <= j < l < |indices| ==> indices[j] != indices[l])
  }

  /** The lexical query of one title: nothing for a missing or empty title,
      otherwise its first at most five words joined by single spaces, and
      nothing when it has no words at all. */
  function TitleQuery(title: Option<string>): Option<string>
  {
    if title.None? || title.value == "" then None
    else
      var words := Words(title.value);
      var first := words[..Min(5, |words|)];
      if first == [] then None else Some(Join(first))
  }

  /** A title gives a query exactly when it has a word; the query is never
      empty, has between one and five words, and they are the title's first
      words, in order. */
  lemma TitleQueryProperties(title: Option<string>)
    ensures TitleQuery(title).None? <==> title.None? || Words(title.value) == []
    ensures TitleQuery(title).Some? ==>
      var q := TitleQuery(title).value;
      var ws := Words(title.value);
      && q != ""
      && 1 <= |Words(q)| <= 5
      && Words(q) == ws[..Min(5, |ws|)]
  {
    if title.Some? && title.value == "" {
      assert Words(title.value) == [];
    }
    if TitleQuery(title).Some? {
      var ws := Words(title.value);
      var first := ws[..Min(5, |ws|)];
      assert forall i :: 0 <= i < |first| ==> IsWord(first[i]) by {
        forall i | 0 <= i < |first| ensures IsWord(first[i]) {
          assert first[i] == ws[i];
        }
      }
      WordsOfJoin(first);
      JoinNonEmpty(first);
    }
  }

  /** The lexical queries of the sampled rows, in sample order: one per row
      whose title gives a query. */
  function LexicalQueries(rows: seq<Row>, indices: seq<int>): seq<string>
    requires forall j :: 0 <= j < |indices| ==> 0 <= indices[j] < |rows|
    decreases |indices|
  {
    if indices == [] then []
    else
      var last := |indices| - 1;
      LexicalQueries(rows, indices[..last]) +
      (match TitleQuery(rows[indices[last]].title)
       case Some(q) => [q]
       case None => [])
  }

  /** The vector queries of the sampled rows, in sample order: the embedding
      column of each row as a one-element list. */
  function VectorQueries(rows: seq<Row>, indices: seq<int>): (r: seq<QueryVector>)
    requires forall j :: 0 <= j < |indices| ==> 0 <= indices[j] < |rows|
    ensures |r| == |indices|
  {
    seq(|indices|, j requires 0 <= j < |indices| => [rows[indices[j]].embedding])
  }

  /** Every lexical query is the query of some sampled title, and there are
      at most as many as sampled rows. */
  lemma {:induction false} LexicalQueriesFromTitles(rows: seq<Row>, indices: seq<int>)
    requires forall j :: 0 <= j < |indices| ==> 0 <= indices[j] < |rows|
    ensures |LexicalQueries(rows, indices)| <= |indices|
    ensures forall q :: q in LexicalQueries(rows, indices) ==>
      exists j :: 0 <= j < |indices| && TitleQuery(rows[indices[j]].title) == Some(q)
    decreases |indices|
  {
    if indices != [] {
      var last := |indices| - 1;
      var before := indices[..last];
      assert forall j :: 0 <= j < |before| ==> before[j] == indices[j];
      var prev := LexicalQueries(rows, before);
      var query := TitleQuery(rows[indices[last]].title);
      var tail: seq<string> := if query.Some? then [query.value] else [];
      assert LexicalQueries(rows, indices) == prev + tail;
      LexicalQueriesFromTitles(rows, before);
      forall q | q in prev + tail
        ensures exists j :: 0 <= j < |indices| && TitleQuery(rows[indices[j]].title) == Some(q)
      {
        if q in prev {
          var j :| 0 <= j < |before| && TitleQuery(rows[before[j]].title) == Some(q);
          assert before[j] == indices[j];
        } else {
          assert query == Some(q);
        }
      }
    }
  }

  /** Every lexical query is non-empty and has one to five words. */
  lemma LexicalQueriesShape(rows: seq<Row>, indices: seq<int>)
    requires forall j :: 0 <= j < |indices| ==> 0 <= indices[j] < |rows|
    ensures forall q :: q in LexicalQueries(rows, indices) ==> q != "" && 1 <= |Words(q)| <= 5
  {
    LexicalQueriesFromTitles(rows, indices);
    forall q | q in LexicalQueries(rows, indices)
      ensures q != "" && 1 <= |Words(q)| <= 5
    {
      var j :| 0 <= j < |indices| && TitleQuery(rows[indices[j]].title) == Some(q);
      TitleQueryProperties(rows[indices[j]].title);
    }
  }

  /** The result of sample_queries: the lexical and the vector queries. */
  datatype Queries = Queries(lexical: seq<string>, vector: seq<QueryVector>)

  /** sample_queries. `indices` stands for what random.sample returns; a
      negative sample size makes it raise ValueError. */
  method SampleQueries(rows: seq<Row>, numQueries: int, indices: seq<int>) returns (r: Result<Queries, Error>)
    requires SampleSize(numQueries, |rows|) >= 0 ==> IsSample(indices, |rows|, SampleSize(numQueries, |rows|))
    ensures SampleSize(numQueries, |rows|) < 0 <==> r.Err?
    ensures r.Err? ==> r.error == ValueError
    ensures r.Ok? ==> r.value == Queries(LexicalQueries(rows, indices), VectorQueries(rows, indices))
  {
    if SampleSize(numQueries, |rows|) < 0 {
      return Err(ValueError);
    }
    var lexical: seq<string> := [];
    var vector: seq<QueryVector> := [];
    for i := 0 to |indices|
      invariant lexical == LexicalQueries(rows, indices[..i])
      invariant vector == VectorQueries(rows, indices[..i])
    {
      assert indices[..i + 1][..i] == indices[..i];
      var row := rows[indices[i]];
      var text := row.title;
      if text.Some? && text.value != "" {
        var words := Words(text.value);
        words := words[..Min(5, |words|)];
        if words != [] {
          lexical := lexical + [Join(words)];
        }
      }
      vector := vector + [[row.embedding]];
    }
    assert indices[..|indices|] == indices;
    r := Ok(Queries(lexical, vector));
  }

  // ---------------------------------------------------------------------
  // Vector search replay

  /** The clock readings at the start and at the end of one `with timer:` span. */
  datatype Span = Span(start: real, end: real)

  /** The latency Timer records for each span, in ms. */
  function SpanLatencies(spans: seq<Span>): (r: seq<real>)
    ensures |r| == |spans|
  {
    seq(|spans|, j requires 0 <= j < |spans| => (spans[j].end - spans[j].start) * 1000.0)
  }

  /** Timer.elapsed_seconds after the spans: the last span alone, 0 with none. */
  function LastSpanSeconds(spans: seq<Span>): real
  {
    if spans == [] then ElapsedBetween(None, None)
    else ElapsedBetween(Some(spans[|spans| - 1].start), Some(spans[|spans| - 1].end))
  }

  /** The calls the vector searches issue: one search per vector, none
      without a client. */
  function SearchCalls(indexName: string, vectors: seq<QueryVector>, limit: int, connected: bool): (r: seq<Call>)
  {
    if connected then seq(|vectors|, j requires 0 <= j < |vectors| => Search(indexName, vectors[j], limit))
    else []
  }

  /** The record benchmark_vector_search returns after `count` queries timed
      by `spans`; nothing is recorded by the resource monitor. */
  function VectorSearchResult(backendName: string, count: nat, spans: seq<Span>): BenchmarkResult
  {
    var elapsed := LastSpanSeconds(spans);
    BenchmarkResult(
      backendName + "_vector_search", backendName, "vector_query", elapsed, count,
      LatencySummary(SpanLatencies(spans)), Throughput(count, elapsed),
      0.0, 0.0, 0.0, 0.0)
  }

  /** The record counts every query as one operation; its duration is the
      last span's alone, so the throughput is the query count over that span
      (0 when it is not positive); the resource fields are 0. */
  lemma VectorSearchResultFields(backendName: string, spans: seq<Span>)
    ensures var r := VectorSearchResult(backendName, |spans|, spans);
      && r.name == backendName + "_vector_search"
      && r.engine == backendName
      && r.workloadType == "vector_query"
      && r.totalOperations == |spans|
    ensures var r := VectorSearchResult(backendName, |spans|, spans);
      && (spans == [] ==> r.durationSeconds == 0.0 && r.throughputOpsPerSec == 0.0)
      && (r.durationSeconds > 0.0 ==> r.throughputOpsPerSec == |spans| as real / r.durationSeconds)
      && (r.durationSeconds <= 0.0 ==> r.throughputOpsPerSec == 0.0)
    ensures var r := VectorSearchResult(backendName, |spans|, spans);
      r.avgCpuUsagePercent == 0.0 && r.peakCpuUsagePercent == 0.0 && r.avgMemoryMb == 0.0 && r.peakMemoryMb == 0.0
  {
    var elapsed := LastSpanSeconds(spans);
    var r := VectorSearchResult(backendName, |spans|, spans);
    assert r.durationSeconds == elapsed && r.throughputOpsPerSec == Throughput(|spans|, elapsed);
  }

  /** The latency statistics cover one latency per span: none without spans,
      otherwise the six statistics, with every span's latency between the
      reported minimum and maximum, both of which are span latencies. */
  lemma VectorSearchLatencies(backendName: string, count: nat, spans: seq<Span>)
    ensures var m := VectorSearchResult(backendName, count, spans).latencyMetrics;
      && (spans == [] <==> m == map[])
      && (spans != [] ==> m.Keys == SummaryKeys)
    ensures var m := VectorSearchResult(backendName, count, spans).latencyMetrics;
      forall j :: 0 <= j < |spans| ==>
        m["min_ms"] <= (spans[j].end - spans[j].start) * 1000.0 <= m["max_ms"]
    ensures var m := VectorSearchResult(backendName, count, spans).latencyMetrics;
      spans != [] ==> m["min_ms"] in SpanLatencies(spans) && m["max_ms"] in SpanLatencies(spans)
  {
    var lat := SpanLatencies(spans);
    var m := LatencySummary(lat);
    assert VectorSearchResult(backendName, count, spans).latencyMetrics == m;
    forall j | 0 <= j < |spans|
      ensures m["min_ms"] <= (spans[j].end - spans[j].start) * 1000.0 <= m["max_ms"]
    {
      assert lat[j] in lat;
    }
  }

  /** Earlier spans do not count towards the duration: only the last one does. */
  lemma DurationIsLastSpan(backendName: string, count: nat, earlier: seq<Span>, last: Span)
    ensures VectorSearchResult(backendName, count, earlier + [last]).durationSeconds ==
            VectorSearchResult(backendName, count, [last]).durationSeconds
  {
    assert (earlier + [last])[|earlier + [last]| - 1] == last;
  }

  lemma SearchCallsExtend(indexName: string, vectors: seq<QueryVector>, limit: int, connected: bool, i: nat)
    requires i < |vectors|
    ensures SearchCalls(indexName, vectors[..i + 1], limit, connected) ==
      SearchCalls(indexName, vectors[..i], limit, connected) + (if connected then [Search(indexName, vectors[i], limit)] else [])
  {
  }

  /** The loop of benchmark_vector_search: one vector_search per vector, each
      inside its own span of `timer`; `spans[i]` and `replies[i]` are the
      clock readings and the engine's reply for the i-th query. Failed
      searches are swallowed by the adapter, so every query is timed. */
  method TimedSearches(backend: Backends.QdrantBackend, timer: Timer, indexName: string,
                       vectors: seq<QueryVector>, resultLimit: int,
                       spans: seq<Span>, replies: seq<Reply<seq<Point>>>)
    requires |spans| == |vectors| == |replies|
    requires timer.startTime == None && timer.endTime == None && timer.latencies == []
    modifies backend, timer
    ensures backend.client == old(backend.client)
    ensures backend.calls == old(backend.calls) +
      SearchCalls(indexName, vectors, resultLimit, old(backend.client).Client?)
    ensures timer.latencies == SpanLatencies(spans)
    ensures timer.ElapsedSeconds() == LastSpanSeconds(spans)
  {
    ghost var connected := backend.client.Client?;
    for i := 0 to |vectors|
      invariant backend.client == old(backend.client)
      invariant backend.calls == old(backend.calls) + SearchCalls(indexName, vectors[..i], resultLimit, connected)
      invariant timer.latencies == SpanLatencies(spans[..i])
      invariant i == 0 ==> timer.startTime == None && timer.endTime == None
      invariant i > 0 ==> timer.startTime == Some(spans[i - 1].start) && timer.endTime == Some(spans[i - 1].end)
    {
      SearchCallsExtend(indexName, vectors, resultLimit, connected, i);
      assert SpanLatencies(spans[..i + 1]) == SpanLatencies(spans[..i]) + [(spans[i].end - spans[i].start) * 1000.0];
      timer.Enter(spans[i].start);
      var _ := backend.VectorSearch(indexName, vectors[i], resultLimit, replies[i]);
      timer.Exit(spans[i].end);
    }
    assert spans[..|spans|] == spans && vectors[..|vectors|] == vectors;
  }

  /** benchmark_vector_search: the timed searches between the start and the
      stop of a CPU monitor, summarised into one benchmark record. */
  method BenchmarkVectorSearch(backend: Backends.QdrantBackend, backendName: string, indexName: string,
                               vectors: seq<QueryVector>, resultLimit: int,
                               spans: seq<Span>, replies: seq<Reply<seq<Point>>>)
    returns (result: BenchmarkResult)
    requires |spans| == |vectors| == |replies|
    modifies backend
    ensures backend.client == old(backend.client)
    ensures backend.calls == old(backend.calls) +
      SearchCalls(indexName, vectors, resultLimit, old(backend.client).Client?)
    ensures result == VectorSearchResult(backendName, |vectors|, spans)
  {
    var cpuMonitor := new CPUMonitor();
    cpuMonitor.Start();
    var timer := new Timer();
    TimedSearches(backend, timer, indexName, vectors, resultLimit, spans, replies);
    var cpuStats := cpuMonitor.Stop();
    var elapsed := timer.ElapsedSeconds();
    var latencyMetrics := timer.GetLatencyMetrics();
    assert latencyMetrics == LatencySummary(SpanLatencies(spans));
    result := BenchmarkResult(
      backendName + "_vector_search", backendName, "vector_query", elapsed, |vectors|,
      latencyMetrics, Throughput(|vectors|, elapsed),
      cpuStats.avgCpuPercent, cpuStats.peakCpuPercent, cpuStats.avgMemoryMb, cpuStats.peakMemoryMb);
  }

  /** run_query_benchmarks: sample the queries, then replay the vector
      queries with the default limit of 10. Only the vector workload runs,
      so a completed run reports the single key "vector". */
  method RunQueryBenchmarks(backend: Backends.QdrantBackend, backendName: string, indexName: string,
                            numQueries: int, indices: seq<int>,
                            spans: seq<Span>, replies: seq<Reply<seq<Point>>>)
    returns (r: Result<map<string, BenchmarkResult>, Error>)
    requires SampleSize(numQueries, |backend.df|) >= 0 ==>
      && IsSample(indices, |backend.df|, SampleSize(numQueries, |backend.df|))
      && |spans| == |indices| == |replies|
    modifies backend
    ensures backend.client == old(backend.client)
    ensures SampleSize(numQueries, |backend.df|) < 0 ==>
      r == Err(ValueError) && backend.calls == old(backend.calls)
    ensures SampleSize(numQueries, |backend.df|) >= 0 ==>
      && r.Ok? && r.value.Keys == {"vector"}
      && r.value["vector"] == VectorSearchResult(backendName, |indices|, spans)
      && backend.calls == old(backend.calls) +
           SearchCalls(indexName, VectorQueries(backend.df, indices), 10, old(backend.client).Client?)
  {
    var sampled := SampleQueries(backend.df, numQueries, indices);
    if sampled.Err? {
      return Err(sampled.error);
    }
    var vectorResult := BenchmarkVectorSearch(backend, backendName, indexName, sampled.value.vector, 10, spans, replies);
    r := Ok(map["vector" := vectorResult]);
  }
}
