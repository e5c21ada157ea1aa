/**
 * The older Qdrant adapter (benchmarking/backends/backends.py), the one the
 * write and query benchmarks drive. Beyond the batched ingestion shared with
 * the newer adapter it does two things locally: lexical_search scrolls one
 * page of points and keeps those whose text or title contains the query,
 * ignoring case; hybrid_search concatenates the vector and lexical hits
 * behind a seen-set of Python object identities.
 */
module Backends {
  import opened Wrappers
  import opened SearchBackend
  import Text

  // ---------------------------------------------------------------------
  // The lexical filter

  /** What `payload.get(key, "") or ""` yields, as `.lower()` sees it: a
      string, or a truthy non-string value on which `.lower()` raises. */
  datatype FieldText = AsText(s: string) | NotText

  /** Python truthiness of a payload value. */
  predicate Truthy(v: Value)
  {
    match v
    case Null => false
    case Str(s) => s != ""
    case Num(x) => x != 0.0
    case Vec(xs) => xs != []
  }

  function FieldOf(payload: Payload, key: string): (f: FieldText)
    ensures f.NotText? <==> key in payload && Truthy(payload[key]) && !payload[key].Str?
    ensures key in payload && payload[key].Str? ==> f == AsText(payload[key].s)
    ensures key !in payload || !Truthy(payload[key]) ==> f == AsText("")
  {
    if key !in payload || !Truthy(payload[key]) then AsText("")
    else if payload[key].Str? then AsText(payload[key].s)
    else NotText
  }

  /** The outcome of the filter on one point. */
  datatype Verdict = Match | NoMatch | Raises

  /** `query.lower() in text.lower() or query.lower() in title.lower()`,
      evaluated left to right: title is lowered only when text does not match. */
  function VerdictOf(payload: Payload, query: string): Verdict
  {
    var q := Text.Lower(query);
    match FieldOf(payload, "text")
    case NotText => Raises
    case AsText(t) =>
      if Text.Contains(Text.Lower(t), q) then Match
      else
        match FieldOf(payload, "title")
        case NotText => Raises
        case AsText(u) => if Text.Contains(Text.Lower(u), q) then Match else NoMatch
  }

  /** A point whose two fields are strings (or absent, or None) matches
      exactly when the lowered query occurs in its lowered text or title. */
  lemma VerdictOfStrings(payload: Payload, query: string)
    requires FieldOf(payload, "text").AsText? && FieldOf(payload, "title").AsText?
    ensures VerdictOf(payload, query) != Raises
    ensures VerdictOf(payload, query) == Match <==>
      (exists i :: Text.OccursAt(Text.Lower(FieldOf(payload, "text").s), Text.Lower(query), i)) ||
      (exists i :: Text.OccursAt(Text.Lower(FieldOf(payload, "title").s), Text.Lower(query), i))
  {
  }

  /** The scroll loop: payloads of matching points in page order, stopping
      once `limit` are kept (the check follows each append, so one is kept
      even when limit <= 0), and stopping with what it has when the filter
      raises. */
  function Scan(points: seq<Point>, query: string, limit: int): seq<Payload>
    decreases |points|
  {
    if points == [] then []
    else
      match VerdictOf(points[0].payload, query)
      case Raises => []
      case NoMatch => Scan(points[1..], query, limit)
      case Match =>
        if limit <= 1 then [points[0].payload]
        else [points[0].payload] + Scan(points[1..], query, limit - 1)
  }

  /** Reference definition: the payloads of all matching points, in order. */
  function Matching(points: seq<Point>, query: string): (r: seq<Payload>)
    ensures |r| <= |points|
    ensures forall i :: 0 <= i < |r| ==> VerdictOf(r[i], query) == Match
  {
    if points == [] then []
    else
      var head := if VerdictOf(points[0].payload, query) == Match then [points[0].payload] else [];
      head + Matching(points[1..], query)
  }

  /** The position of the first point on which the filter raises, or the
      page length when there is none. */
  function FirstRaise(points: seq<Point>, query: string): (j: nat)
    ensures j <= |points|
    ensures forall i :: 0 <= i < j ==> VerdictOf(points[i].payload, query) != Raises
    ensures j < |points| ==> VerdictOf(points[j].payload, query) == Raises
  {
    if points == [] || VerdictOf(points[0].payload, query) == Raises then 0
    else 1 + FirstRaise(points[1..], query)
  }

  /** The first n elements of s (none when n <= 0). */
  function Take<T>(s: seq<T>, n: int): (r: seq<T>)
    ensures r <= s
    ensures |r| == if n <= 0 then 0 else Min(n, |s|)
  {
    s[..if n <= 0 then 0 else Min(n, |s|)]
  }

  lemma TakeCons(x: Payload, s: seq<Payload>, n: int)
    requires n >= 1
    ensures Take([x] + s, n) == [x] + Take(s, n - 1)
  {
  }

  /** The scroll loop keeps the first max(limit, 1) matching points that
      precede the first point on which the filter raises, in page order. */
  lemma {:induction false} ScanIsFirstMatches(points: seq<Point>, query: string, limit: int)
    ensures Scan(points, query, limit) ==
      Take(Matching(points[..FirstRaise(points, query)], query), if limit <= 1 then 1 else limit)
    decreases |points|
  {
    if points == [] {
    } else {
      var f := FirstRaise(points, query);
      var rest := points[1..];
      var p := points[0].payload;
      match VerdictOf(p, query)
      case Raises =>
        assert points[..f] == [];
      case NoMatch =>
        ScanIsFirstMatches(rest, query, limit);
        assert points[..f][0] == points[0];
        assert points[..f][1..] == rest[..f - 1];
        assert Matching(points[..f], query) == Matching(rest[..f - 1], query);
      case Match =>
        assert points[..f][0] == points[0];
        assert points[..f][1..] == rest[..f - 1];
        var m := Matching(rest[..f - 1], query);
        assert Matching(points[..f], query) == [p] + m;
        if limit > 1 {
          ScanIsFirstMatches(rest, query, limit - 1);
          TakeCons(p, m, limit);
        }
    }
  }

  /** At most max(limit, 1) payloads come back, each from a matching point. */
  lemma ScanBounds(points: seq<Point>, query: string, limit: int)
    ensures |Scan(points, query, limit)| <= if limit <= 1 then 1 else limit
    ensures |Scan(points, query, limit)| <= |points|
    ensures forall i :: 0 <= i < |Scan(points, query, limit)| ==>
      VerdictOf(Scan(points, query, limit)[i], query) == Match
  {
    ScanIsFirstMatches(points, query, limit);
    var m := Matching(points[..FirstRaise(points, query)], query);
    assert Scan(points, query, limit) <= m;
  }

  /** The filter's verdict on each point of a page. */
  function Verdicts(points: seq<Point>, query: string): (vs: seq<Verdict>)
    ensures |vs| == |points|
  {
    if points == [] then [] else [VerdictOf(points[0].payload, query)] + Verdicts(points[1..], query)
  }

  lemma {:induction false} VerdictAt(points: seq<Point>, query: string, i: nat)
    requires i < |points|
    ensures Verdicts(points, query)[i] == VerdictOf(points[i].payload, query)
    decreases i
  {
    if i > 0 {
      VerdictAt(points[1..], query, i - 1);
    }
  }

  /** Scan driven by verdicts computed beforehand. */
  function ScanWith(points: seq<Point>, verdicts: seq<Verdict>, limit: int): seq<Payload>
    requires |verdicts| == |points|
    decreases |points|
  {
    if points == [] then []
    else
      match verdicts[0]
      case Raises => []
      case NoMatch => ScanWith(points[1..], verdicts[1..], limit)
      case Match =>
        if limit <= 1 then [points[0].payload]
        else [points[0].payload] + ScanWith(points[1..], verdicts[1..], limit - 1)
  }

  lemma {:induction false} ScanWithVerdicts(points: seq<Point>, query: string, limit: int)
    ensures ScanWith(points, Verdicts(points, query), limit) == Scan(points, query, limit)
    decreases |points|
  {
    if points != [] {
      var vs := Verdicts(points, query);
      assert vs[1..] == Verdicts(points[1..], query);
      ScanWithVerdicts(points[1..], query, limit);
      ScanWithVerdicts(points[1..], query, limit - 1);
    }
  }

  /** One step of the scroll loop, by the verdict on the point at i. */
  lemma ScanWithStep(points: seq<Point>, verdicts: seq<Verdict>, i: nat, limit: int)
    requires i < |points| == |verdicts|
    ensures verdicts[i] == Raises ==> ScanWith(points[i..], verdicts[i..], limit) == []
    ensures verdicts[i] == NoMatch ==>
      ScanWith(points[i..], verdicts[i..], limit) == ScanWith(points[i + 1..], verdicts[i + 1..], limit)
    ensures verdicts[i] == Match && limit <= 1 ==>
      ScanWith(points[i..], verdicts[i..], limit) == [points[i].payload]
    ensures verdicts[i] == Match && limit > 1 ==>
      ScanWith(points[i..], verdicts[i..], limit) ==
        [points[i].payload] + ScanWith(points[i + 1..], verdicts[i + 1..], limit - 1)
  {
    assert points[i..][0] == points[i] && verdicts[i..][0] == verdicts[i];
    assert points[i..][1..] == points[i + 1..] && verdicts[i..][1..] == verdicts[i + 1..];
  }

  lemma ConcatAssociative(a: seq<Payload>, b: seq<Payload>, c: seq<Payload>)
    ensures (a + b) + c == a + (b + c)
  {
  }

  /** The loop of lexical_search over one scrolled page: keeps the payload
      of each matching point, stops once limit are kept, and returns what it
      has kept when the filter raises. */
  method ScanPage(points: seq<Point>, query: string, limit: int) returns (results: seq<Payload>)
    ensures results == ScanWith(points, Verdicts(points, query), limit)
  {
    ghost var verdicts := Verdicts(points, query);
    ghost var scan := ScanWith(points, verdicts, limit);
    // what the scan of the remaining points will still add
    ghost var rest := scan;
    results := [];
    var i := 0;
    assert points[i..] == points && verdicts[i..] == verdicts;
    while i < |points|
      invariant 0 <= i <= |points|
      invariant results + rest == scan
      invariant rest == ScanWith(points[i..], verdicts[i..], limit - |results|)
    {
      var payload := points[i].payload;
      ScanWithStep(points, verdicts, i, limit - |results|);
      // the filter expression; when .lower() raises, lexical_search catches it
      var verdict := VerdictOf(payload, query);
      VerdictAt(points, query, i);
      if verdict == Raises {
        assert results + [] == results;
        break;
      }
      ghost var before := results;
      if verdict == Match {
        results := results + [payload];
        if |results| >= limit {
          break;
        }
      }
      rest := ScanWith(points[i + 1..], verdicts[i + 1..], limit - |results|);
      if verdict == Match {
        ConcatAssociative(before, [payload], rest);
      }
      i := i + 1;
    }
    assert i == |points| ==> points[i..] == [] && rest == [] && results + [] == results;
  }

  /** The result of lexical_search: nothing when the client is unset or the
      scroll raises (both are caught), else the scan of the scrolled page. */
  function LexicalResults(client: ClientState, query: string, limit: int,
                          reply: Reply<seq<Point>>): seq<Payload>
  {
    if client.Client? && reply.Ok? then Scan(reply.value, query, limit) else []
  }

  /** The interface promise "at most limit results" holds for every positive limit. */
  lemma LexicalWithinLimit(client: ClientState, query: string, limit: int, reply: Reply<seq<Point>>)
    requires limit >= 1
    ensures |LexicalResults(client, query, limit, reply)| <= limit
  {
    if client.Client? && reply.Ok? {
      ScanBounds(reply.value, query, limit);
    }
  }

  /** The result of vector_search: the payloads of the engine's hits, or
      nothing when the client is unset or the search raises. */
  function VectorResults(client: ClientState, reply: Reply<seq<Point>>): (r: seq<Payload>)
    ensures client.Unset? || reply.Err? ==> r == []
    ensures client.Client? && reply.Ok? ==> |r| == |reply.value|
    ensures client.Client? && reply.Ok? ==> forall i :: 0 <= i < |r| ==> r[i] == reply.value[i].payload
  {
    if client.Client? && reply.Ok? then Payloads(reply.value) else []
  }

  // ---------------------------------------------------------------------
  // The hybrid merge

  /** Python slicing `s[:k]`, where a negative k counts from the end. */
  function PyPrefix<T>(s: seq<T>, k: int): (r: seq<T>)
    ensures r <= s
    ensures k >= 0 ==> |r| == Min(k, |s|)
    ensures k < 0 ==> |r| == if |s| + k <= 0 then 0 else |s| + k
  {
    if k >= 0 then s[..Min(k, |s|)]
    else if |s| + k <= 0 then []
    else s[..|s| + k]
  }

  /** How many lexical hits the merge loop appends: each one is appended
      (none is ever in the seen-set) and the loop stops once the merged
      list reaches the limit, checked after each append. */
  function LexicalTaken(vectorCount: nat, lexicalCount: nat, limit: int): (t: nat)
    ensures t <= lexicalCount
  {
    if lexicalCount == 0 then 0
    else if limit - vectorCount <= 1 then 1
    else Min(lexicalCount, limit - vectorCount)
  }

  /** hybrid_search's merge as written. */
  function MergeAsWritten(vectorHits: seq<Payload>, lexicalHits: seq<Payload>, limit: int): seq<Payload>
  {
    PyPrefix(vectorHits + lexicalHits[..LexicalTaken(|vectorHits|, |lexicalHits|, limit)], limit)
  }

  /** For a non-negative limit the merge is the first `limit` entries of the
      vector hits followed by the lexical hits: vector hits first, both in
      their own order, at most limit in all, and nothing removed. For any
      limit it is a prefix of that concatenation. */
  lemma MergeIsPrefix(vectorHits: seq<Payload>, lexicalHits: seq<Payload>, limit: int)
    ensures MergeAsWritten(vectorHits, lexicalHits, limit) <= vectorHits + lexicalHits
    ensures limit >= 0 ==>
              MergeAsWritten(vectorHits, lexicalHits, limit) ==
              (vectorHits + lexicalHits)[..Min(limit, |vectorHits| + |lexicalHits|)]
  {
    var t := LexicalTaken(|vectorHits|, |lexicalHits|, limit);
    var m := vectorHits + lexicalHits[..t];
    assert m <= vectorHits + lexicalHits;
    if limit >= 0 {
      assert Min(limit, |m|) == Min(limit, |vectorHits| + |lexicalHits|);
    }
  }

  /** The interface promise "at most limit results" for hybrid_search. */
  lemma HybridWithinLimit(vectorHits: seq<Payload>, lexicalHits: seq<Payload>, limit: int)
    requires limit >= 0
    ensures |MergeAsWritten(vectorHits, lexicalHits, limit)| <= limit
  {
    MergeIsPrefix(vectorHits, lexicalHits, limit);
  }

  /** The seen-set holds object identities of vector hits; a lexical hit is
      always a different object, even when it carries the same payload. */
  datatype ResultRef = VectorHit(i: nat) | LexicalHit(j: nat)

  /** A point that both the vector search and the scrolled page return, and
      that matches the query, comes back twice. */
  lemma HybridKeepsSharedHitTwice(client: ClientState, query: string, limit: int, hit: Point)
    requires client.Client? && limit >= 2
    requires VerdictOf(hit.payload, query) == Match
    ensures MergeAsWritten(VectorResults(client, Ok([hit])),
                           LexicalResults(client, query, limit, Ok([hit])), limit)
      == [hit.payload, hit.payload]
  {
    assert Scan([hit][1..], query, limit - 1) == [];
  }

  // ---------------------------------------------------------------------
  // The merge with duplicates removed

  predicate NoDuplicates(s: seq<Payload>)
  {
    forall i, j :: 0 <= i < j < |s| ==> s[i] != s[j]
  }

  /** The first occurrence of each element of s that is not in seen, in order. */
  function DistinctFrom(s: seq<Payload>, seen: set<Payload>): (r: seq<Payload>)
    ensures NoDuplicates(r)
    ensures forall x :: x in r <==> x in s && x !in seen
    decreases |s|
  {
    if s == [] then []
    else if s[0] in seen then DistinctFrom(s[1..], seen)
    else
      var rest := DistinctFrom(s[1..], seen + {s[0]});
      assert forall x :: x in s <==> x == s[0] || x in s[1..];
      [s[0]] + rest
  }

  lemma {:induction false} DistinctFromAppend(a: seq<Payload>, b: seq<Payload>, seen: set<Payload>)
    ensures DistinctFrom(a + b, seen) == DistinctFrom(a, seen) + DistinctFrom(b, seen + set x | x in a)
    decreases |a|
  {
    if a == [] {
      assert a + b == b;
      assert (set x | x in a) == {};
      assert seen + {} == seen;
    } else {
      assert (a + b)[0] == a[0];
      assert (a + b)[1..] == a[1..] + b;
      if a[0] in seen {
        DistinctFromAppend(a[1..], b, seen);
        assert seen + (set x | x in a[1..]) == seen + (set x | x in a);
      } else {
        DistinctFromAppend(a[1..], b, seen + {a[0]});
        assert seen + {a[0]} + (set x | x in a[1..]) == seen + (set x | x in a);
      }
    }
  }

  /** The evidently intended merge: vector hits then lexical hits, each
      document once, at most limit of them. The hits are payloads, and the
      payloads the write benchmark stores carry no document id, so documents
      are told apart by payload equality: two documents with equal payloads
      count as one. */
  function MergeDistinct(vectorHits: seq<Payload>, lexicalHits: seq<Payload>, limit: int): seq<Payload>
  {
    Take(DistinctFrom(vectorHits + lexicalHits, {}), limit)
  }

  /** The corrected merge holds no duplicates and at most limit entries,
      draws every entry from the hits, keeps every hit when the distinct
      hits fit, and begins with the distinct vector hits in their order. */
  lemma MergeDistinctProperties(vectorHits: seq<Payload>, lexicalHits: seq<Payload>, limit: int)
    ensures NoDuplicates(MergeDistinct(vectorHits, lexicalHits, limit))
    ensures |MergeDistinct(vectorHits, lexicalHits, limit)| <= if limit <= 0 then 0 else limit
    ensures forall p :: p in MergeDistinct(vectorHits, lexicalHits, limit) ==>
      p in vectorHits || p in lexicalHits
    ensures |DistinctFrom(vectorHits + lexicalHits, {})| <= limit ==>
      forall p :: p in vectorHits || p in lexicalHits ==> p in MergeDistinct(vectorHits, lexicalHits, limit)
    ensures |DistinctFrom(vectorHits, {})| <= limit ==>
      DistinctFrom(vectorHits, {}) <= MergeDistinct(vectorHits, lexicalHits, limit)
  {
    var all := DistinctFrom(vectorHits + lexicalHits, {});
    var r := MergeDistinct(vectorHits, lexicalHits, limit);
    assert forall i :: 0 <= i < |r| ==> r[i] == all[i];
    forall p | p in r
      ensures p in vectorHits || p in lexicalHits
    {
      assert p in all;
      assert p in vectorHits + lexicalHits;
    }
    DistinctFromAppend(vectorHits, lexicalHits, {});
    assert {} + (set x | x in vectorHits) == set x | x in vectorHits;
  }

  /** With duplicates removed, a point both searches return comes back once. */
  lemma MergeDistinctSharedHitOnce(client: ClientState, query: string, limit: int, hit: Point)
    requires client.Client? && limit >= 2
    requires VerdictOf(hit.payload, query) == Match
    ensures MergeDistinct(VectorResults(client, Ok([hit])),
                          LexicalResults(client, query, limit, Ok([hit])), limit)
      == [hit.payload]
  {
    assert Scan([hit][1..], query, limit - 1) == [];
    assert LexicalResults(client, query, limit, Ok([hit])) == [hit.payload];
    assert VectorResults(client, Ok([hit])) == [hit.payload];
    var s := [hit.payload, hit.payload];
    assert s[1..][1..] == [];
    assert DistinctFrom(s[1..], {} + {hit.payload}) == [];
    assert DistinctFrom(s, {}) == [hit.payload];
  }

  /** The merge loop of hybrid_search: every vector hit is kept and marked
      seen; lexical hits follow, skipping those already seen, until the list
      holds `limit` entries; then the list is cut to `limit`. The seen set
      holds object identities, and a lexical hit is never the same object as
      a vector hit. */
  method MergeHits(vec: seq<Payload>, lex: seq<Payload>, limit: int) returns (merged: seq<Payload>)
    ensures merged == MergeAsWritten(vec, lex, limit)
  {
    var seen: set<ResultRef> := {};
    merged := [];
    for i := 0 to |vec|
      invariant merged == vec[..i]
      invariant forall r :: r in seen ==> r.VectorHit?
    {
      merged := merged + [vec[i]];
      seen := seen + {VectorHit(i)};
    }
    ghost var taken := LexicalTaken(|vec|, |lex|, limit);
    var j := 0;
    while j < |lex|
      invariant 0 <= j <= |lex|
      invariant merged == vec + lex[..j]
      invariant j == 0 || |vec| + j < limit
      invariant j <= taken
    {
      if LexicalHit(j) !in seen {
        merged := merged + [lex[j]];
      }
      if |merged| >= limit {
        assert j + 1 == taken;
        j := j + 1;
        break;
      }
      j := j + 1;
    }
    assert j == taken;
    merged := PyPrefix(merged, limit);
  }

  // ---------------------------------------------------------------------
  // The adapter

  /** Qdrant adapter of benchmarking/backends/backends.py. `calls` is the
      log of calls issued to the engine client, in order. */
  class QdrantBackend {
    const df: seq<Row>
    const host: string
    const port: int
    const url: Option<string>
    const apiKey: Option<string>
    var client: ClientState
    var calls: seq<Call>

    /** Direct parameters; a falsy host or port takes its default. */
    constructor (df: seq<Row>, host: Option<string>, port: Option<int>,
                 url: Option<string>, apiKey: Option<string>)
      ensures this.df == df
      ensures this.host == StringOr(host, "localhost") && this.port == IntOr(port, 6333)
      ensures this.url == url && this.apiKey == apiKey
      ensures client == Unset && calls == []
    {
      this.df := df;
      this.host := StringOr(host, "localhost");
      this.port := IntOr(port, 6333);
      this.url := url;
      this.apiKey := apiKey;
      client := Unset;
      calls := [];
    }

    method Connect()
      modifies this
      ensures client == Client(EndpointOf(host, port, url, apiKey), false)
      ensures calls == old(calls)
    {
      client := Client(EndpointOf(host, port, url, apiKey), false);
    }

    /** Closes the client when there is one; the attribute keeps it. */
    method Disconnect()
      modifies this
      ensures old(client).Unset? ==> client == Unset && calls == old(calls)
      ensures old(client).Client? ==>
        client == old(client).(closed := true) && calls == old(calls) + [Close]
    {
      if client.Client? {
        calls := calls + [Close];
        client := client.(closed := true);
      }
    }

    /** True exactly when there is a client and get_collections answers;
      every failure is caught. */
    method HealthCheck(reply: Reply<()>) returns (healthy: bool)
      modifies this
      ensures client == old(client)
      ensures healthy <==> old(client).Client? && reply.Ok?
      ensures calls == old(calls) + (if old(client).Client? then [GetCollections] else [])
    {
      if client.Unset? {
        return false;
      }
      calls := calls + [GetCollections];
      healthy := reply.Ok?;
    }

    /** Deletes the collection; returns normally whatever the engine answers,
      and also when there is no client. */
    method ResetIndex(indexName: string)
      modifies this
      ensures client == old(client)
      ensures calls == old(calls) + (if old(client).Client? then [DeleteCollection(indexName)] else [])
    {
      if client.Client? {
        calls := calls + [DeleteCollection(indexName)];
      }
    }

    /** Creates a dense collection of schema.get("vector_size", 384)
      dimensions; an unset client or an engine error propagates. */
    method CreateIndex(indexName: string, schema: map<string, int>, reply: Reply<()>)
      returns (r: Result<(), Error>)
      modifies this
      ensures client == old(client)
      ensures old(client).Unset? ==> r == Err(NoClient) && calls == old(calls)
      ensures old(client).Client? ==>
        r == reply && calls == old(calls) + [CreateCollection(indexName, VectorSize(schema), false)]
    {
      if client.Unset? {
        return Err(NoClient);
      }
      calls := calls + [CreateCollection(indexName, VectorSize(schema), false)];
      r := reply;
    }

    /** Sends the documents in batches of batch_size (see IngestBatches);
      `rejected` is the ordinal of the first upsert the engine refuses. */
    method IndexDocuments(indexName: string, documents: seq<Point>, batchSize: int,
                          rejected: Option<nat>)
      returns (r: Result<nat, Error>)
      modifies this
      ensures client == old(client)
      ensures calls == old(calls) + IngestCalls(indexName, documents, batchSize, old(client).Client?, rejected)
      ensures r == IngestResult(documents, batchSize, old(client).Client?, rejected)
    {
      var issued;
      r, issued := IngestBatches(indexName, documents, batchSize, client.Client?, rejected);
      calls := calls + issued;
    }

    method GetDocCount(indexName: string, reply: Reply<int>) returns (r: Result<int, Error>)
      modifies this
      ensures client == old(client)
      ensures old(client).Unset? ==> r == Err(NoClient) && calls == old(calls)
      ensures old(client).Client? ==> r == reply && calls == old(calls) + [GetCollection(indexName)]
    {
      if client.Unset? {
        return Err(NoClient);
      }
      calls := calls + [GetCollection(indexName)];
      r := reply;
    }

    /** Scrolls limit*10 points and keeps the matching ones (see Scan);
      every failure is caught and the payloads kept so far are returned. */
    method LexicalSearch(indexName: string, query: string, limit: int, reply: Reply<seq<Point>>)
      returns (results: seq<Payload>)
      modifies this
      ensures client == old(client)
      ensures calls == old(calls) + (if old(client).Client? then [Scroll(indexName, limit * 10)] else [])
      ensures results == LexicalResults(old(client), query, limit, reply)
    {
      results := [];
      if client.Unset? {
        return;
      }
      calls := calls + [Scroll(indexName, limit * 10)];
      if reply.Err? {
        return;
      }
      results := ScanPage(reply.value, query, limit);
      ScanWithVerdicts(reply.value, query, limit);
    }

    /** The payloads of the engine's hits; every failure is caught. */
    method VectorSearch(indexName: string, vector: QueryVector, limit: int, reply: Reply<seq<Point>>)
      returns (results: seq<Payload>)
      modifies this
      ensures client == old(client)
      ensures calls == old(calls) + (if old(client).Client? then [Search(indexName, vector, limit)] else [])
      ensures results == VectorResults(old(client), reply)
    {
      if client.Unset? {
        return [];
      }
      calls := calls + [Search(indexName, vector, limit)];
      if reply.Err? {
        return [];
      }
      results := Payloads(reply.value);
    }

    /** Runs both searches and merges them behind a seen-set of object
      identities (see MergeAsWritten). */
    method HybridSearch(indexName: string, query: string, vector: QueryVector, limit: int,
                        lexicalReply: Reply<seq<Point>>, vectorReply: Reply<seq<Point>>)
      returns (merged: seq<Payload>)
      modifies this
      ensures client == old(client)
      ensures calls == old(calls) +
        (if old(client).Client? then [Scroll(indexName, limit * 10), Search(indexName, vector, limit)] else [])
      ensures merged == MergeAsWritten(VectorResults(old(client), vectorReply),
                                       LexicalResults(old(client), query, limit, lexicalReply), limit)
    {
      var lexicalResults := LexicalSearch(indexName, query, limit, lexicalReply);
      var vectorResults := VectorSearch(indexName, vector, limit, vectorReply);
      merged := MergeHits(vectorResults, lexicalResults, limit);
    }
  }
}
