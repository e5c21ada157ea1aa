/**
 * The newer Qdrant adapter (benchmarking/backends/qdrant.py). Its collection
 * carries a named dense vector "embedding" and a sparse BM25 vector "bm25";
 * lexical, vector and hybrid search are each one query_points call, whose
 * ranking (BM25, nearest neighbours, reciprocal rank fusion) runs inside the
 * engine. What the adapter decides locally is which call it issues and
 * which failures it swallows.
 */
module Qdrant {
  import opened Wrappers
  import opened SearchBackend

  /** Limit of each of the two hybrid prefetches. */
  const PrefetchLimit := 100

  /** The query_points call of vector_search: element 0 of the query vector
      against the "embedding" vector. */
  function VectorQuery(indexName: string, vector: QueryVector, limit: int): Call
    requires vector != []
  {
    QueryPoints(indexName, Dense(vector[0]), Some("embedding"), [], limit)
  }

  /** The query_points call of hybrid_search: a dense and a BM25 prefetch of
      100 candidates each, fused by reciprocal rank fusion. */
  function HybridQuery(indexName: string, query: string, vector: QueryVector, limit: int): Call
    requires vector != []
  {
    QueryPoints(indexName, RrfFusion, None,
                [Prefetch(Dense(vector[0]), "embedding", PrefetchLimit),
                 Prefetch(Bm25(query), "bm25", PrefetchLimit)], limit)
  }

  /** What vector_search and hybrid_search return: the payloads of the
      engine's answer, or nothing when anything raised. */
  function CaughtPayloads(client: ClientState, vector: QueryVector, reply: Reply<seq<Point>>): (r: seq<Payload>)
    ensures client.Unset? || vector == [] || reply.Err? ==> r == []
    ensures client.Client? && vector != [] && reply.Ok? ==> r == Payloads(reply.value)
  {
    if client.Client? && vector != [] && reply.Ok? then Payloads(reply.value) else []
  }

  /** Whatever the engine or the arguments do, vector_search and
      hybrid_search return a list, empty on every failure, and the list holds
      exactly the payloads of the engine's hits otherwise. */
  lemma CaughtPayloadsOnlyFromReply(client: ClientState, vector: QueryVector, reply: Reply<seq<Point>>)
    ensures |CaughtPayloads(client, vector, reply)| <= if reply.Ok? then |reply.value| else 0
    ensures forall p :: p in CaughtPayloads(client, vector, reply) ==>
      reply.Ok? && exists i :: 0 <= i < |reply.value| && reply.value[i].payload == p
  {
    var r := CaughtPayloads(client, vector, reply);
    forall p | p in r
      ensures reply.Ok? && exists i :: 0 <= i < |reply.value| && reply.value[i].payload == p
    {
      var i :| 0 <= i < |r| && r[i] == p;
      assert reply.value[i].payload == p;
    }
  }

  /** Qdrant adapter of benchmarking/backends/qdrant.py. `calls` is the log
      of calls issued to the engine client, in order. */
  class QdrantBackend {
    const df: seq<Row>
    const host: string
    const port: int
    const url: Option<string>
    const apiKey: Option<string>
    var client: ClientState
    var calls: seq<Call>

    /** Direct parameters; a falsy host or port takes its default. */
    constructor (df: seq<Row>, host: Option<string>, port: Option<int>,
                 url: Option<string>, apiKey: Option<string>)
      ensures this.df == df
      ensures this.host == StringOr(host, "localhost") && this.port == IntOr(port, 6333)
      ensures this.url == url && this.apiKey == apiKey
      ensures client == Unset && calls == []
    {
      this.df := df;
      this.host := StringOr(host, "localhost");
      this.port := IntOr(port, 6333);
      this.url := url;
      this.apiKey := apiKey;
      client := Unset;
      calls := [];
    }

    method Connect()
      modifies this
      ensures client == Client(EndpointOf(host, port, url, apiKey), false)
      ensures calls == old(calls)
    {
      client := Client(EndpointOf(host, port, url, apiKey), false);
    }

    /** Closes the client when there is one; the attribute keeps it. */
    method Disconnect()
      modifies this
      ensures old(client).Unset? ==> client == Unset && calls == old(calls)
      ensures old(client).Client? ==>
        client == old(client).(closed := true) && calls == old(calls) + [Close]
    {
      if client.Client? {
        calls := calls + [Close];
        client := client.(closed := true);
      }
    }

    /** True exactly when there is a client and get_collections answers;
      every failure is caught. */
    method HealthCheck(reply: Reply<()>) returns (healthy: bool)
      modifies this
      ensures client == old(client)
      ensures healthy <==> old(client).Client? && reply.Ok?
      ensures calls == old(calls) + (if old(client).Client? then [GetCollections] else [])
    {
      if client.Unset? {
        return false;
      }
      calls := calls + [GetCollections];
      healthy := reply.Ok?;
    }

    /** Deletes the collection; returns normally whatever the engine answers,
      and also when there is no client. */
    method ResetIndex(indexName: string)
      modifies this
      ensures client == old(client)
      ensures calls == old(calls) + (if old(client).Client? then [DeleteCollection(indexName)] else [])
    {
      if client.Client? {
        calls := calls + [DeleteCollection(indexName)];
      }
    }

    /** Creates a collection with a dense "embedding" vector of
      schema.get("vector_size", 384) dimensions and a sparse "bm25" vector;
      an unset client or an engine error propagates. */
    method CreateIndex(indexName: string, schema: map<string, int>, reply: Reply<()>)
      returns (r: Result<(), Error>)
      modifies this
      ensures client == old(client)
      ensures old(client).Unset? ==> r == Err(NoClient) && calls == old(calls)
      ensures old(client).Client? ==>
        r == reply && calls == old(calls) + [CreateCollection(indexName, VectorSize(schema), true)]
    {
      if client.Unset? {
        return Err(NoClient);
      }
      calls := calls + [CreateCollection(indexName, VectorSize(schema), true)];
      r := reply;
    }

    /** Sends the documents in batches of batch_size (see IngestBatches);
      `rejected` is the ordinal of the first upsert the engine refuses. */
    method IndexDocuments(indexName: string, documents: seq<Point>, batchSize: int,
                          rejected: Option<nat>)
      returns (r: Result<nat, Error>)
      modifies this
      ensures client == old(client)
      ensures calls == old(calls) + IngestCalls(indexName, documents, batchSize, old(client).Client?, rejected)
      ensures r == IngestResult(documents, batchSize, old(client).Client?, rejected)
    {
      var issued;
      r, issued := IngestBatches(indexName, documents, batchSize, client.Client?, rejected);
      calls := calls + issued;
    }

    method GetDocCount(indexName: string, reply: Reply<int>) returns (r: Result<int, Error>)
      modifies this
      ensures client == old(client)
      ensures old(client).Unset? ==> r == Err(NoClient) && calls == old(calls)
      ensures old(client).Client? ==> r == reply && calls == old(calls) + [GetCollection(indexName)]
    {
      if client.Unset? {
        return Err(NoClient);
      }
      calls := calls + [GetCollection(indexName)];
      r := reply;
    }

    /** One BM25 query_points call; nothing is caught, so an unset client or
      an engine error propagates to the caller. */
    method LexicalSearch(indexName: string, query: string, limit: int, reply: Reply<seq<Point>>)
      returns (r: Result<seq<Payload>, Error>)
      modifies this
      ensures client == old(client)
      ensures old(client).Unset? ==> r == Err(NoClient) && calls == old(calls)
      ensures old(client).Client? ==>
        calls == old(calls) + [QueryPoints(indexName, Bm25(query), Some("bm25"), [], limit)]
      ensures old(client).Client? && reply.Err? ==> r == Err(reply.error)
      ensures old(client).Client? && reply.Ok? ==> r == Ok(Payloads(reply.value))
    {
      if client.Unset? {
        return Err(NoClient);
      }
      calls := calls + [QueryPoints(indexName, Bm25(query), Some("bm25"), [], limit)];
      if reply.Err? {
        return Err(reply.error);
      }
      r := Ok(Payloads(reply.value));
    }

    /** A dense query_points call on vector[0]; every failure is caught and
      gives []: no client (the attribute lookup fails before vector[0] is
      evaluated, so no call is issued), an empty vector (vector[0] raises
      before the call), or an engine error. */
    method VectorSearch(indexName: string, vector: QueryVector, limit: int, reply: Reply<seq<Point>>)
      returns (results: seq<Payload>)
      modifies this
      ensures client == old(client)
      ensures old(client).Unset? || vector == [] ==> calls == old(calls)
      ensures old(client).Client? && vector != [] ==> calls == old(calls) + [VectorQuery(indexName, vector, limit)]
      ensures results == CaughtPayloads(old(client), vector, reply)
    {
      if client.Unset? {
        return [];
      }
      if vector == [] {
        return [];
      }
      calls := calls + [VectorQuery(indexName, vector, limit)];
      if reply.Err? {
        return [];
      }
      results := Payloads(reply.value);
    }

    /** A fused query_points call over a dense and a BM25 prefetch; every
      failure (no client, an empty vector, an engine error) is caught and
      gives []. */
    method HybridSearch(indexName: string, query: string, vector: QueryVector, limit: int,
                        reply: Reply<seq<Point>>)
      returns (results: seq<Payload>)
      modifies this
      ensures client == old(client)
      ensures old(client).Unset? || vector == [] ==> calls == old(calls)
      ensures old(client).Client? && vector != [] ==>
        calls == old(calls) + [HybridQuery(indexName, query, vector, limit)]
      ensures results == CaughtPayloads(old(client), vector, reply)
    {
      if client.Unset? {
        return [];
      }
      if vector == [] {
        return [];
      }
      calls := calls + [HybridQuery(indexName, query, vector, limit)];
      if reply.Err? {
        return [];
      }
      results := Payloads(reply.value);
    }
  }
}
