/** The search-index repository (internal/repository/es_log_repository.go):
    the newline-delimited bulk request that indexes a batch, and the
    multi-field search whose hits are decoded back into log entries. The HTTP
    exchange is a parameter: the reply the cluster gives. */
module EsRepository {
  import opened Domain

  const IndexName := "logs"
  /** The action line written before every entry of a bulk request. */
  const ActionLine := "{ \"index\" : { \"_index\" : \"logs\" } }\n"
  const SearchFields := ["message", "service_name", "level"]
  const BulkFailedError := Error("bulk indexing failed")
  const SearchFailedError := Error("search request failed")
  const DecodeError := Error("invalid character in response body")

  /** A piece of a bulk body: literal text, or the JSON of one entry. */
  datatype Chunk = Text(text: string) | Document(doc: Json)

  /** The lines one entry contributes: its action line, then, if it
      marshals, its JSON and a newline. */
  function EntryChunks(e: LogEntry): seq<Chunk> {
    [Text(ActionLine)] + (if Marshal(e).Success? then [Document(Marshal(e).value), Text("\n")] else [])
  }

  /** The whole bulk body, entries in order. */
  function BulkBody(entries: seq<LogEntry>): seq<Chunk> {
    if entries == [] then []
    else BulkBody(entries[..|entries| - 1]) + EntryChunks(entries[|entries| - 1])
  }

  /** The entries `json.Marshal` accepts, in order. */
  function Encodables(entries: seq<LogEntry>): seq<LogEntry> {
    if entries == [] then []
    else Encodables(entries[..|entries| - 1]) + (if Encodable(entries[|entries| - 1]) then [entries[|entries| - 1]] else [])
  }

  /** How many action lines a body holds. */
  function ActionCount(body: seq<Chunk>): nat {
    if body == [] then 0
    else ActionCount(body[..|body| - 1]) + (if body[|body| - 1] == Text(ActionLine) then 1 else 0)
  }

  /** The documents a body carries, in order. */
  function Documents(body: seq<Chunk>): seq<Json> {
    if body == [] then []
    else Documents(body[..|body| - 1]) + (if body[|body| - 1].Document? then [body[|body| - 1].doc] else [])
  }

  lemma ActionCountAppend(a: seq<Chunk>, b: seq<Chunk>)
    ensures ActionCount(a + b) == ActionCount(a) + ActionCount(b)
    ensures Documents(a + b) == Documents(a) + Documents(b)
    decreases |b|
  {
    if b == [] {
      assert a + b == a;
    } else {
      assert (a + b)[..|a + b| - 1] == a + b[..|b| - 1];
      ActionCountAppend(a, b[..|b| - 1]);
    }
  }

  /** One entry's lines: one action line, and its document when it marshals. */
  lemma EntryChunksContents(e: LogEntry)
    ensures ActionCount(EntryChunks(e)) == 1
    ensures Documents(EntryChunks(e)) == if Encodable(e) then [EntryDoc(e)] else []
  {
    var c := EntryChunks(e);
    assert Text("\n") != Text(ActionLine) by {
      assert |"\n"| != |ActionLine|;
    }
    if Encodable(e) {
      assert c == [Text(ActionLine), Document(EntryDoc(e)), Text("\n")];
      assert c[..2] == [Text(ActionLine), Document(EntryDoc(e))];
      assert c[..2][..1] == [Text(ActionLine)];
      assert [Text(ActionLine)][..0] == [];
      assert ActionCount([Text(ActionLine)]) == 1;
      assert Documents([Text(ActionLine)]) == [];
      assert ActionCount(c[..2]) == 1;
      assert Documents(c[..2]) == [EntryDoc(e)];
    } else {
      assert c == [Text(ActionLine)];
      assert c[..0] == [];
    }
  }

  /** Every entry contributes exactly one action line, and the documents of
      the body decode, in order, to exactly the entries that marshal. */
  lemma {:induction false} BulkBodyContents(entries: seq<LogEntry>)
    ensures ActionCount(BulkBody(entries)) == |entries|
    ensures |Documents(BulkBody(entries))| == |Encodables(entries)|
    ensures forall k :: 0 <= k < |Encodables(entries)| ==>
      Unmarshal(Documents(BulkBody(entries))[k]) == Success(Encodables(entries)[k])
  {
    if entries != [] {
      var init, last := entries[..|entries| - 1], entries[|entries| - 1];
      BulkBodyContents(init);
      ActionCountAppend(BulkBody(init), EntryChunks(last));
      EntryChunksContents(last);
    }
  }

  /** Every document is immediately preceded by an action line and
      immediately followed by a newline. */
  predicate Framed(body: seq<Chunk>) {
    forall k :: 0 <= k < |body| && body[k].Document? ==>
      0 < k < |body| - 1 && body[k - 1] == Text(ActionLine) && body[k + 1] == Text("\n")
  }

  /** The bulk body is framed: no document travels without its action line
      before it and its newline after it. */
  lemma {:induction false} BulkBodyFraming(entries: seq<LogEntry>)
    ensures Framed(BulkBody(entries))
  {
    if entries != [] {
      var init := entries[..|entries| - 1];
      BulkBodyFraming(init);
      var b, c := BulkBody(init), EntryChunks(entries[|entries| - 1]);
      var body := BulkBody(entries);
      assert body == b + c;
      forall k | 0 <= k < |body| && body[k].Document?
        ensures 0 < k < |body| - 1 && body[k - 1] == Text(ActionLine) && body[k + 1] == Text("\n")
      {
        if k < |b| {
          assert body[k] == b[k];
          assert 0 < k < |b| - 1;
          assert body[k - 1] == b[k - 1] && body[k + 1] == b[k + 1];
        } else {
          assert body[k] == c[k - |b|];
          assert k - |b| == 1 && |c| == 3;
          assert body[k - 1] == c[0] && body[k + 1] == c[2];
        }
      }
    }
  }

  /** Builds the bulk body the way `BulkIndex` fills its buffer. */
  method BuildBulkBody(entries: seq<LogEntry>) returns (buf: seq<Chunk>)
    ensures buf == BulkBody(entries)
  {
    buf := [];
    var i := 0;
    while i < |entries|
      invariant i <= |entries|
      invariant buf == BulkBody(entries[..i])
    {
      var entry := entries[i];
      buf := buf + [Text(ActionLine)];
      assert entries[..i + 1][..i] == entries[..i];
      var data := Marshal(entry);
      if data.Failure? {
        i := i + 1;
        continue;
      }
      buf := buf + [Document(data.value)];
      buf := buf + [Text("\n")];
      i := i + 1;
    }
    assert entries[..i] == entries;
  }

  /** The cluster's reply to a bulk request: the transport failed, or a
      response arrived with this status code. */
  datatype BulkReply = BulkUnreachable(error: Error) | BulkStatus(code: int)

  /** `res.IsError()`: any status above 299. */
  predicate IsErrorStatus(code: int) {
    code > 299
  }

  /** `BulkIndex`. An empty list sends nothing and succeeds. Otherwise the body
      is sent; a transport error is returned as it is, an error status becomes
      an error, and anything else is success (item-level failures inside a
      2xx reply are not looked at). */
  method BulkIndex(entries: seq<LogEntry>, reply: BulkReply) returns (sent: Option<seq<Chunk>>, err: Option<Error>)
    ensures entries == [] ==> sent == None && err == None
    ensures entries != [] ==> sent == Some(BulkBody(entries))
    ensures entries != [] && reply.BulkUnreachable? ==> err == Some(reply.error)
    ensures entries != [] && reply.BulkStatus? ==>
      (err == None <==> !IsErrorStatus(reply.code)) && (err != None ==> err == Some(BulkFailedError))
  {
    if |entries| == 0 {
      return None, None;
    }
    var body := BuildBulkBody(entries);
    sent := Some(body);
    if reply.BulkUnreachable? {
      return sent, Some(reply.error);
    }
    if IsErrorStatus(reply.code) {
      return sent, Some(BulkFailedError);
    }
    err := None;
  }

  /** The search request: a multi_match query of the term over the message,
      service name and level fields, on the logs index, counting all hits. */
  datatype SearchRequest = SearchRequest(index: string, query: string, fields: seq<string>, trackTotalHits: bool)

  function SearchQuery(query: string): (r: SearchRequest)
    ensures r.index == IndexName && r.query == query && r.trackTotalHits
    ensures r.fields == ["message", "service_name", "level"]
  {
    SearchRequest(IndexName, query, SearchFields, true)
  }

  /** One search hit; its `_source` may be missing. */
  datatype Hit = Hit(source: Option<Json>)

  /** The `hits` member of a response object: absent (or not an object),
      or an object whose own `hits` member is an array of hits or is not. */
  datatype HitsField = NoHitsObject | HitsObject(inner: Option<seq<Hit>>)

  /** A response body: not JSON at all, or a JSON object. */
  datatype SearchBody = NotJson | Object(hits: HitsField)

  datatype SearchReply = SearchUnreachable(error: Error) | SearchStatus(code: int, body: SearchBody)

  /** A hit's `_source` re-encoded and decoded into an entry; a missing
      source is JSON null, which leaves the zero entry. */
  function HitEntry(h: Hit): (r: Result<LogEntry>)
    ensures h.source.None? ==> r == Success(EmptyEntry)
    ensures h.source.Some? ==> r == Unmarshal(h.source.value)
  {
    if h.source.None? then Success(EmptyEntry) else Unmarshal(h.source.value)
  }

  /** The entries of the hits that decode, in hit order. */
  function HitEntries(hits: seq<Hit>): seq<LogEntry> {
    if hits == [] then []
    else
      var r := HitEntry(hits[|hits| - 1]);
      HitEntries(hits[..|hits| - 1]) + (if r.Success? then [r.value] else [])
  }

  /** Order is kept across any split of the hits. */
  lemma {:induction false} HitEntriesAppend(a: seq<Hit>, b: seq<Hit>)
    ensures HitEntries(a + b) == HitEntries(a) + HitEntries(b)
    decreases |b|
  {
    if b == [] {
      assert a + b == a;
    } else {
      assert (a + b)[..|a + b| - 1] == a + b[..|b| - 1];
      HitEntriesAppend(a, b[..|b| - 1]);
    }
  }

  /** Only decodable hits are kept, each as it decodes. */
  lemma {:induction false} HitEntriesFromHits(hits: seq<Hit>)
    ensures |HitEntries(hits)| <= |hits|
    ensures forall x :: x in HitEntries(hits) ==> exists i :: 0 <= i < |hits| && HitEntry(hits[i]) == Success(x)
  {
    if hits != [] {
      var init := hits[..|hits| - 1];
      HitEntriesFromHits(init);
      forall x | x in HitEntries(hits)
        ensures exists i :: 0 <= i < |hits| && HitEntry(hits[i]) == Success(x)
      {
        if x in HitEntries(init) {
          var i :| 0 <= i < |init| && HitEntry(init[i]) == Success(x);
          assert hits[i] == init[i];
        } else {
          assert HitEntry(hits[|hits| - 1]) == Success(x);
        }
      }
    }
  }

  /** When every hit decodes, the result is all of them, one for one. */
  lemma {:induction false} HitEntriesAllDecode(hits: seq<Hit>)
    requires forall i :: 0 <= i < |hits| ==> HitEntry(hits[i]).Success?
    ensures |HitEntries(hits)| == |hits|
    ensures forall i :: 0 <= i < |hits| ==> HitEntries(hits)[i] == HitEntry(hits[i]).value
  {
    if hits != [] {
      var init := hits[..|hits| - 1];
      assert forall i :: 0 <= i < |init| ==> init[i] == hits[i];
      HitEntriesAllDecode(init);
    }
  }

  /** The loop over `hits.hits` that collects the decodable entries. */
  method CollectHits(hits: seq<Hit>) returns (logs: seq<LogEntry>)
    ensures logs == HitEntries(hits)
  {
    logs := [];
    var i := 0;
    while i < |hits|
      invariant i <= |hits|
      invariant logs == HitEntries(hits[..i])
    {
      assert hits[..i + 1][..i] == hits[..i];
      var entry := HitEntry(hits[i]);
      if entry.Success? {
        logs := logs + [entry.value];
      }
      i := i + 1;
    }
    assert hits[..i] == hits;
  }

  /** What `Search` returns for a reply: the transport error, an error for
      an error status or an undecodable body, an empty list when there are
      no hits to walk, and otherwise the decodable hits in order. This is
      the corrected reading, which never fails on a well-formed 2xx object. */
  function SearchOutcome(reply: SearchReply): (r: Result<seq<LogEntry>>)
    ensures reply.SearchUnreachable? ==> r == Failure(reply.error)
    ensures reply.SearchStatus? && IsErrorStatus(reply.code) ==> r == Failure(SearchFailedError)
    ensures r.Success? <==> reply.SearchStatus? && !IsErrorStatus(reply.code) && reply.body.Object?
    ensures r.Success? && !(reply.body.hits.HitsObject? && reply.body.hits.inner.Some?) ==> r.value == []
    ensures r.Success? && reply.body.hits.HitsObject? && reply.body.hits.inner.Some? ==>
      r.value == HitEntries(reply.body.hits.inner.value)
  {
    match reply
    case SearchUnreachable(e) => Failure(e)
    case SearchStatus(code, body) =>
      if IsErrorStatus(code) then Failure(SearchFailedError)
      else match body
        case NotJson => Failure(DecodeError)
        case Object(HitsObject(Some(hits))) => Success(HitEntries(hits))
        case Object(_) => Success([])
  }

  /** `Search` as written: the outer `hits` member is taken with a
      single-value type assertion, which panics (here: `None`) when a 2xx
      object has no `hits` object; only the inner array is guarded. */
  function SearchAsWritten(reply: SearchReply): (r: Option<Result<seq<LogEntry>>>)
    ensures r.None? <==> reply.SearchStatus? && !IsErrorStatus(reply.code) && reply.body == Object(NoHitsObject)
    ensures r.Some? ==> r.value == SearchOutcome(reply)
  {
    match reply
    case SearchUnreachable(e) => Some(Failure(e))
    case SearchStatus(code, body) =>
      if IsErrorStatus(code) then Some(Failure(SearchFailedError))
      else match body
        case NotJson => Some(Failure(DecodeError))
        case Object(NoHitsObject) => None
        case Object(HitsObject(None)) => Some(Success([]))
        case Object(HitsObject(Some(hits))) => Some(Success(HitEntries(hits)))
  }

  /** A 200 reply whose body is the empty object `{}` makes the code as
      written panic, where the corrected reading returns no results. */
  lemma EmptyObjectPanics()
    ensures SearchAsWritten(SearchStatus(200, Object(NoHitsObject))).None?
    ensures SearchOutcome(SearchStatus(200, Object(NoHitsObject))) == Success([])
  {
  }

  /** `Search`: the request it sends and what it returns. */
  method Search(query: string, reply: SearchReply) returns (request: SearchRequest, r: Result<seq<LogEntry>>)
    ensures request == SearchQuery(query)
    ensures r == SearchOutcome(reply)
  {
    request := SearchRequest(IndexName, query, SearchFields, true);
    if reply.SearchUnreachable? {
      return request, Failure(reply.error);
    }
    if IsErrorStatus(reply.code) {
      return request, Failure(SearchFailedError);
    }
    match reply.body
    case NotJson =>
      return request, Failure(DecodeError);
    case Object(field) =>
      if !(field.HitsObject? && field.inner.Some?) {
        return request, Success([]);
      }
      var logs := CollectHits(field.inner.value);
      return request, Success(logs);
  }
}
