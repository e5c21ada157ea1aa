/**
 * The search-backend contract shared by the engine adapters: the values
 * they exchange (dataset rows, payloads, points, query vectors), the calls
 * an adapter issues to its engine client, the errors an operation can
 * raise, and the batched-ingestion policy of index_documents (flush every
 * `batch_size` documents, then flush the non-empty remainder once).
 *
 * The engine client is opaque: an adapter method records each call it
 * issues in its call log and receives the engine's reply as a parameter.
 */
module SearchBackend {
  import opened Wrappers

  /** A scalar or list value of a dataset row or a document payload. */
  datatype Value = Null | Str(s: string) | Num(x: real) | Vec(v: seq<real>)

  /** A payload dictionary as stored with a point and returned by a search. */
  type Payload = map<string, Value>

  type Embedding = seq<real>

  /** A query vector as the query sampler builds it: the embedding column of
      one sampled row converted to a list, so its element 0 is the embedding. */
  type QueryVector = seq<Embedding>

  /** One row of the dataset, with the columns the benchmarks read. */
  datatype Row = Row(
    reviewText: Value,
    age: Value,
    rating: Value,
    positiveFeedbackCount: Value,
    divisionName: Value,
    departmentName: Value,
    className: Value,
    recommendedInd: Value,
    text: Value,
    embedding: Embedding,
    umap1: Value,
    umap2: Value,
    title: Option<string>)

  /** A Qdrant point: a generated document {"_id", "vector", "payload"} and
      the PointStruct built from it carry these same three fields. */
  datatype Point = Point(id: int, vector: Embedding, payload: Payload)

  /** Why an operation raised: the client attribute is still None, the engine
      raised, an index was out of range, or an argument was rejected. */
  datatype Error = NoClient | EngineError | IndexError | ValueError

  /** What the engine answers to one call: a value, or the exception it raises. */
  type Reply<T> = Result<T, Error>

  datatype Endpoint = Remote(url: string, apiKey: Option<string>) | Local(host: string, port: int)

  /** The adapter's `client` attribute: None until connect, then a client
      object, which disconnect closes but keeps. */
  datatype ClientState = Unset | Client(endpoint: Endpoint, closed: bool)

  datatype Query = Dense(vector: Embedding) | Bm25(text: string) | RrfFusion

  datatype Prefetch = Prefetch(query: Query, using: string, limit: int)

  /** A call issued to the engine client, with its arguments. */
  datatype Call =
    | GetCollections
    | DeleteCollection(name: string)
    | CreateCollection(name: string, vectorSize: int, sparseBm25: bool)
    | Upsert(name: string, points: seq<Point>)
    | GetCollection(name: string)
    | Scroll(name: string, limit: int)
    | Search(name: string, queryVector: QueryVector, limit: int)
    | QueryPoints(name: string, query: Query, using: Option<string>, prefetch: seq<Prefetch>, limit: int)
    | Close

  /** Python's `x or default` on an optional string: None and "" are falsy. */
  function StringOr(x: Option<string>, default: string): (r: string)
    ensures x.Some? && x.value != "" ==> r == x.value
    ensures x.None? || x.value == "" ==> r == default
  {
    if x.Some? && x.value != "" then x.value else default
  }

  /** Python's `x or default` on an optional int: None and 0 are falsy. */
  function IntOr(x: Option<int>, default: int): (r: int)
    ensures x.Some? && x.value != 0 ==> r == x.value
    ensures x.None? || x.value == 0 ==> r == default
  {
    if x.Some? && x.value != 0 then x.value else default
  }

  /** The endpoint connect() builds: a remote client when `url` is truthy,
      else a local one on host and port. */
  function EndpointOf(host: string, port: int, url: Option<string>, apiKey: Option<string>): (e: Endpoint)
    ensures e.Remote? <==> url.Some? && url.value != ""
    ensures e.Remote? ==> e.url == url.value && e.apiKey == apiKey
    ensures e.Local? ==> e.host == host && e.port == port
  {
    if url.Some? && url.value != "" then Remote(url.value, apiKey) else Local(host, port)
  }

  /** Default vector size of create_index when the schema has no "vector_size". */
  const DefaultVectorSize := 384

  /** schema.get("vector_size", 384) */
  function VectorSize(schema: map<string, int>): (size: int)
    ensures "vector_size" !in schema ==> size == DefaultVectorSize
    ensures "vector_size" in schema ==> size == schema["vector_size"]
  {
    if "vector_size" in schema then schema["vector_size"] else DefaultVectorSize
  }

  /** The payloads of the points of a search response, in response order. */
  function Payloads(points: seq<Point>): (r: seq<Payload>)
    ensures |r| == |points|
    ensures forall i :: 0 <= i < |points| ==> r[i] == points[i].payload
  {
    seq(|points|, i requires 0 <= i < |points| => points[i].payload)
  }

  // ---------------------------------------------------------------------
  // Batched ingestion

  /** The flush rule `len(points) >= batch_size` fires at this buffer length:
      the batch size itself, or 1 when the batch size is below 1. */
  function ChunkSize(batchSize: int): (k: nat)
    ensures k >= 1
    ensures batchSize >= 1 ==> k == batchSize
  {
    if batchSize >= 1 then batchSize else 1
  }

  /** The batches index_documents sends, in order: full batches while the
      stream lasts, then the non-empty remainder. */
  function Batches<T>(docs: seq<T>, batchSize: int): seq<seq<T>>
    decreases |docs|
  {
    if docs == [] then []
    else if |docs| <= ChunkSize(batchSize) then [docs]
    else [docs[..ChunkSize(batchSize)]] + Batches(docs[ChunkSize(batchSize)..], batchSize)
  }

  function Flatten<T>(batches: seq<seq<T>>): seq<T>
  {
    if batches == [] then [] else batches[0] + Flatten(batches[1..])
  }

  function Min(a: int, b: int): int
  {
    if a <= b then a else b
  }

  /** Concatenating the batches gives back the stream, in order. */
  lemma {:induction false} BatchesFlatten<T>(docs: seq<T>, batchSize: int)
    ensures Flatten(Batches(docs, batchSize)) == docs
    decreases |docs|
  {
    var k := ChunkSize(batchSize);
    if docs == [] {
    } else if |docs| <= k {
      assert Batches(docs, batchSize) == [docs];
      assert Flatten([docs]) == docs + Flatten([]);
    } else {
      var rest := docs[k..];
      var tail := Batches(rest, batchSize);
      var bs := [docs[..k]] + tail;
      assert Batches(docs, batchSize) == bs;
      assert bs[0] == docs[..k] && bs[1..] == tail;
      BatchesFlatten(rest, batchSize);
      assert Flatten(bs) == docs[..k] + rest;
      assert docs[..k] + rest == docs;
    }
  }

  lemma MulStep(j: nat, k: nat)
    requires j >= 1
    ensures j * k == (j - 1) * k + k
    ensures (j + 1) * k == j * k + k
  {
  }

  /** Batch j exists exactly when j full batches do not exhaust the stream. */
  lemma {:induction false} BatchCount<T>(docs: seq<T>, batchSize: int, j: nat)
    ensures j < |Batches(docs, batchSize)| <==> j * ChunkSize(batchSize) < |docs|
    decreases |docs|
  {
    var k := ChunkSize(batchSize);
    var bs := Batches(docs, batchSize);
    if docs == [] {
    } else if |docs| <= k {
      assert |bs| == 1;
      if j >= 1 {
        MulStep(j, k);
      }
    } else if j >= 1 {
      var rest := docs[k..];
      BatchCount(rest, batchSize, j - 1);
      assert |bs| == 1 + |Batches(rest, batchSize)|;
      MulStep(j, k);
    }
  }

  /** Batch j is the slice docs[j*k .. min((j+1)*k, n)]. */
  lemma {:induction false} BatchAt<T>(docs: seq<T>, batchSize: int, j: nat)
    requires j < |Batches(docs, batchSize)|
    ensures j * ChunkSize(batchSize) <= Min((j + 1) * ChunkSize(batchSize), |docs|)
    ensures Batches(docs, batchSize)[j] ==
      docs[j * ChunkSize(batchSize) .. Min((j + 1) * ChunkSize(batchSize), |docs|)]
    decreases |docs|
  {
    var k := ChunkSize(batchSize);
    var bs := Batches(docs, batchSize);
    BatchCount(docs, batchSize, j);
    if |docs| <= k {
      assert bs == [docs];
      assert j == 0;
    } else if j == 0 {
      assert bs[0] == docs[..k];
    } else {
      var rest := docs[k..];
      assert bs == [docs[..k]] + Batches(rest, batchSize);
      assert bs[j] == Batches(rest, batchSize)[j - 1];
      BatchAt(rest, batchSize, j - 1);
      MulStep(j, k);
      var lo, hi := (j - 1) * k, Min(j * k, |rest|);
      assert lo + k == j * k && hi + k == Min((j + 1) * k, |docs|);
      SliceOfSuffix(docs, k, lo, hi);
    }
  }

  lemma SliceOfSuffix<T>(s: seq<T>, k: nat, lo: nat, hi: nat)
    requires k <= |s| && lo <= hi <= |s| - k
    ensures s[k..][lo..hi] == s[lo + k .. hi + k]
  {
    assert forall i :: 0 <= i < hi - lo ==> s[k..][lo..hi][i] == s[lo + k .. hi + k][i];
  }

  /** The sizes of the batches: every batch but the last holds exactly k
      documents, the last holds 1 to k, and none is sent for an empty stream. */
  lemma BatchSizes<T>(docs: seq<T>, batchSize: int)
    ensures docs == [] <==> Batches(docs, batchSize) == []
    ensures forall j :: 0 <= j < |Batches(docs, batchSize)| - 1 ==>
      |Batches(docs, batchSize)[j]| == ChunkSize(batchSize)
    ensures Batches(docs, batchSize) != [] ==>
      1 <= |Batches(docs, batchSize)[|Batches(docs, batchSize)| - 1]| <= ChunkSize(batchSize)
  {
    var bs := Batches(docs, batchSize);
    var k := ChunkSize(batchSize);
    BatchCount(docs, batchSize, 0);
    forall j | 0 <= j < |bs| - 1
      ensures |bs[j]| == k
    {
      BatchAt(docs, batchSize, j);
      BatchCount(docs, batchSize, j + 1);
    }
    if bs != [] {
      var last := |bs| - 1;
      BatchAt(docs, batchSize, last);
      BatchCount(docs, batchSize, last);
      MulStep(last + 1, k);
    }
  }

  /** 1050 documents at batch size 500 are sent as 500, 500 and 50. */
  lemma Batches1050At500<T>(docs: seq<T>)
    requires |docs| == 1050
    ensures |Batches(docs, 500)| == 3
    ensures |Batches(docs, 500)[0]| == 500
    ensures |Batches(docs, 500)[1]| == 500
    ensures |Batches(docs, 500)[2]| == 50
  {
    BatchCount(docs, 500, 2);
    BatchCount(docs, 500, 3);
    BatchAt(docs, 500, 0);
    BatchAt(docs, 500, 1);
    BatchAt(docs, 500, 2);
  }

  /** The upsert calls carrying the given batches, in order. */
  function Upserts(name: string, batches: seq<seq<Point>>): (r: seq<Call>)
    ensures |r| == |batches|
    ensures forall j :: 0 <= j < |r| ==> r[j] == Upsert(name, batches[j])
  {
    seq(|batches|, j requires 0 <= j < |batches| => Upsert(name, batches[j]))
  }

  /** The points carried by the upsert calls of a call log, in order. */
  function UpsertedPoints(calls: seq<Call>): seq<Point>
  {
    if calls == [] then []
    else (if calls[0].Upsert? then calls[0].points else []) + UpsertedPoints(calls[1..])
  }

  /** The ordinal of the upsert that raises during index_documents, if any:
      the first one when the client is unset, else the one the engine rejects. */
  function FailingUpsert(batchCount: nat, connected: bool, rejected: Option<nat>): (f: Option<nat>)
    ensures f.Some? ==> f.value < batchCount
  {
    if batchCount == 0 then None
    else if !connected then Some(0)
    else if rejected.Some? && rejected.value < batchCount then rejected
    else None
  }

  /** The calls index_documents issues: one upsert per batch up to and
      including the one that raises (none when the client is unset). */
  function IngestCalls(name: string, docs: seq<Point>, batchSize: int, connected: bool,
                       rejected: Option<nat>): seq<Call>
  {
    var bs := Batches(docs, batchSize);
    match FailingUpsert(|bs|, connected, rejected)
    case None => Upserts(name, bs)
    case Some(j) => if connected then Upserts(name, bs[..j + 1]) else []
  }

  /** What index_documents returns: the number of documents consumed, or
      the error of the upsert that raised. */
  function IngestResult(docs: seq<Point>, batchSize: int, connected: bool,
                        rejected: Option<nat>): Result<nat, Error>
  {
    match FailingUpsert(|Batches(docs, batchSize)|, connected, rejected)
    case None => Ok(|docs|)
    case Some(_) => Err(if connected then EngineError else NoClient)
  }

  lemma UpsertsExtend(name: string, batches: seq<seq<Point>>, j: nat)
    requires j < |batches|
    ensures Upserts(name, batches[..j + 1]) == Upserts(name, batches[..j]) + [Upsert(name, batches[j])]
  {
  }

  /** The batch that starts after j full batches, when documents remain. */
  lemma NextBatch<T>(docs: seq<T>, batchSize: int, j: nat, count: nat)
    requires count == j * ChunkSize(batchSize) < |docs|
    ensures j < |Batches(docs, batchSize)|
    ensures (j + 1) * ChunkSize(batchSize) == count + ChunkSize(batchSize)
    ensures Batches(docs, batchSize)[j] == docs[count..Min(count + ChunkSize(batchSize), |docs|)]
  {
    BatchCount(docs, batchSize, j);
    BatchAt(docs, batchSize, j);
    MulStep(j + 1, ChunkSize(batchSize));
  }

  lemma IngestUnconnected(name: string, docs: seq<Point>, batchSize: int, rejected: Option<nat>)
    requires docs != []
    ensures IngestCalls(name, docs, batchSize, false, rejected) == []
    ensures IngestResult(docs, batchSize, false, rejected) == Err(NoClient)
  {
    BatchCount(docs, batchSize, 0);
  }

  lemma IngestRejected(name: string, docs: seq<Point>, batchSize: int, j: nat)
    requires j < |Batches(docs, batchSize)|
    ensures IngestCalls(name, docs, batchSize, true, Some(j)) ==
      Upserts(name, Batches(docs, batchSize)[..j + 1])
    ensures IngestResult(docs, batchSize, true, Some(j)) == Err(EngineError)
  {
  }

  lemma IngestCompleted(name: string, docs: seq<Point>, batchSize: int, rejected: Option<nat>)
    requires rejected.Some? ==> rejected.value >= |Batches(docs, batchSize)|
    ensures IngestCalls(name, docs, batchSize, true, rejected) == Upserts(name, Batches(docs, batchSize))
    ensures IngestResult(docs, batchSize, true, rejected) == Ok(|docs|)
  {
  }

  /** The ingestion loop of QdrantBackend.index_documents: documents are
      buffered as points; whenever the buffer reaches the batch size it is
      upserted and emptied; a non-empty remainder is upserted once at the
      end. Returns the count of documents sent and the calls issued. */
  method IngestBatches(name: string, documents: seq<Point>, batchSize: int, connected: bool,
                       rejected: Option<nat>)
    returns (r: Result<nat, Error>, issued: seq<Call>)
    ensures issued == IngestCalls(name, documents, batchSize, connected, rejected)
    ensures r == IngestResult(documents, batchSize, connected, rejected)
  {
    ghost var k := ChunkSize(batchSize);
    ghost var bs := Batches(documents, batchSize);
    var flushes: nat := 0;
    issued := [];
    var points: seq<Point> := [];
    var count := 0;
    var i := 0;
    while i < |documents|
      invariant 0 <= i <= |documents|
      invariant count == flushes * k && count + |points| == i
      invariant points == documents[count..i] && |points| < k
      invariant flushes <= |bs|
      invariant issued == Upserts(name, bs[..flushes])
      invariant flushes > 0 ==> connected
      invariant rejected.Some? ==> rejected.value >= flushes
    {
      var doc := documents[i];
      var point := Point(doc.id, doc.vector, doc.payload);
      assert documents[count..i + 1] == documents[count..i] + [point];
      points := points + [point];
      if |points| >= batchSize {
        NextBatch(documents, batchSize, flushes, count);
        assert |points| == k;
        assert points == bs[flushes];
        if !connected {
          IngestUnconnected(name, documents, batchSize, rejected);
          return Err(NoClient), issued;
        }
        UpsertsExtend(name, bs, flushes);
        issued := issued + [Upsert(name, points)];
        if rejected == Some(flushes) {
          IngestRejected(name, documents, batchSize, flushes);
          return Err(EngineError), issued;
        }
        count := count + |points|;
        points := [];
        flushes := flushes + 1;
      }
      i := i + 1;
    }
    r, issued := FlushRemainder(name, documents, batchSize, connected, rejected, points, flushes, issued);
  }

  /** The end of index_documents: a non-empty remainder of the buffer is
      upserted once, then the count of documents is returned. */
  method FlushRemainder(name: string, documents: seq<Point>, batchSize: int, connected: bool,
                        rejected: Option<nat>, points: seq<Point>, flushes: nat, sent: seq<Call>)
    returns (r: Result<nat, Error>, issued: seq<Call>)
    requires flushes * ChunkSize(batchSize) + |points| == |documents|
    requires points == documents[flushes * ChunkSize(batchSize)..] && |points| < ChunkSize(batchSize)
    requires flushes <= |Batches(documents, batchSize)|
    requires sent == Upserts(name, Batches(documents, batchSize)[..flushes])
    requires flushes > 0 ==> connected
    requires rejected.Some? ==> rejected.value >= flushes
    ensures issued == IngestCalls(name, documents, batchSize, connected, rejected)
    ensures r == IngestResult(documents, batchSize, connected, rejected)
  {
    ghost var bs := Batches(documents, batchSize);
    var count := flushes * ChunkSize(batchSize);
    var total := flushes;
    issued := sent;
    if |points| > 0 {
      NextBatch(documents, batchSize, flushes, count);
      BatchCount(documents, batchSize, flushes + 1);
      assert points == bs[flushes];
      if !connected {
        IngestUnconnected(name, documents, batchSize, rejected);
        return Err(NoClient), issued;
      }
      UpsertsExtend(name, bs, flushes);
      issued := issued + [Upsert(name, points)];
      if rejected == Some(flushes) {
        IngestRejected(name, documents, batchSize, flushes);
        return Err(EngineError), issued;
      }
      count := count + |points|;
      total := flushes + 1;
    } else {
      BatchCount(documents, batchSize, flushes);
    }
    assert bs[..total] == bs;
    if documents != [] {
      IngestCompleted(name, documents, batchSize, rejected);
    }
    r := Ok(count);
  }

  lemma {:induction false} UpsertedPointsOfUpserts(name: string, batches: seq<seq<Point>>)
    ensures UpsertedPoints(Upserts(name, batches)) == Flatten(batches)
  {
    if batches != [] {
      UpsertedPointsOfUpserts(name, batches[1..]);
      assert Upserts(name, batches)[1..] == Upserts(name, batches[1..]);
    }
  }

  /** A successful index_documents hands every document to the engine
      exactly once and in stream order, and returns how many it consumed. */
  lemma IngestSendsStream(name: string, docs: seq<Point>, batchSize: int, connected: bool,
                          rejected: Option<nat>)
    requires IngestResult(docs, batchSize, connected, rejected).Ok?
    ensures IngestResult(docs, batchSize, connected, rejected).value == |docs|
    ensures UpsertedPoints(IngestCalls(name, docs, batchSize, connected, rejected)) == docs
  {
    UpsertedPointsOfUpserts(name, Batches(docs, batchSize));
    BatchesFlatten(docs, batchSize);
  }

  /** An empty stream issues no upsert and succeeds even without a client. */
  lemma IngestEmptyStream(name: string, batchSize: int, connected: bool, rejected: Option<nat>)
    ensures IngestResult([], batchSize, connected, rejected) == Ok(0)
    ensures IngestCalls(name, [], batchSize, connected, rejected) == []
  {
  }
}
