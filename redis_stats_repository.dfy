/** The Redis cache repository (internal/repository/redis_stats_repository.go):
    a global ingestion counter and entry snapshots under `log:<id>`. */
module RedisStats {
  import opened Domain
  import Decimal

  const LogCountKey := "stats:log_count"
  const LogKeyPrefix := "log:"
  /** The lifetime given to an entry snapshot; expiry itself is not modelled. */
  const EntryTtlSeconds: nat := 3600

  const RedisNil := Error("redis: nil")
  const NotAnInteger := Error("ERR value is not an integer or out of range")
  const IncrOverflow := Error("ERR increment or decrement would overflow")
  const ParseIntSyntax := Error("strconv.ParseInt: invalid syntax")
  const ParseIntRange := Error("strconv.ParseInt: value out of range")

  /** Redis integers are signed 64-bit. */
  type Int64 = n: int | Decimal.MinInt64 <= n <= Decimal.MaxInt64

  /** What Redis holds under a key: an integer written by INCR (kept in
      Redis's integer encoding) or other bytes, here the JSON of an entry or
      any other text. */
  datatype Value = Counter(n: Int64) | Blob(doc: Json)

  /** The bytes Redis returns for an integer: its decimal digits, with a
      leading "-" when negative. */
  function Int64Text(n: int): (t: string)
    ensures n >= 0 ==> t == Decimal.Format(n)
    ensures n < 0 ==> t == "-" + Decimal.Format(-n)
    ensures t != [] && t[0] != '+'
  {
    if n >= 0 then Decimal.Format(n) else "-" + Decimal.Format(-n)
  }

  /** The integer INCR finds in a stored value: a counter, or text that is
      exactly the decimal form of an int64 (no sign "+", no leading zero, no
      "-0", no blank); anything else is not an integer to Redis. */
  function StoredInteger(v: Value): (r: Option<Int64>)
    ensures v.Counter? ==> r == Some(v.n)
    ensures v.Blob? && r.Some? ==> v.doc == Malformed(Int64Text(r.value))
  {
    match v
    case Counter(n) => Some(n)
    case Blob(EntryDoc(_)) => None
    case Blob(Malformed(t)) =>
      var p := Decimal.ParseInt64(t);
      if p.Value? && Int64Text(p.n) == t then Some(p.n) else None
  }

  /** Every int64 written out as text is read back as that integer, so a
      counter and its text are the same thing to INCR. */
  lemma {:induction false} IntegerTextReadsBack(n: Int64)
    ensures StoredInteger(Blob(Malformed(Int64Text(n)))) == Some(n)
  {
    Decimal.ParseInt64Format(n);
  }

  /** `fmt.Sprintf("log:%d", id)`. */
  function LogKey(id: nat): (key: string)
    ensures |key| > |LogKeyPrefix| && key[..|LogKeyPrefix|] == LogKeyPrefix
    ensures key[|LogKeyPrefix|..] == Decimal.Format(id)
  {
    LogKeyPrefix + Decimal.Format(id)
  }

  /** Distinct ids get distinct keys, and no entry key is the counter's key. */
  lemma LogKeyDistinct(a: nat, b: nat)
    ensures LogKey(a) == LogKey(b) <==> a == b
    ensures LogKey(a) != LogCountKey
  {
    Decimal.FormatInjective(a, b);
    if LogKey(a) == LogKey(b) {
      assert LogKey(a)[|LogKeyPrefix|..] == LogKey(b)[|LogKeyPrefix|..];
    }
    assert LogKey(a)[0] != LogCountKey[0];
  }

  /** INCR on the counter key: an absent key counts from 0; a value that is
      not an int64 integer is an error, and so is one at the int64 maximum. */
  function Incr(current: Option<Value>): (r: Result<int>)
    ensures current.None? ==> r == Success(1)
    ensures current.Some? && StoredInteger(current.value).None? ==> r == Failure(NotAnInteger)
    ensures current.Some? && StoredInteger(current.value) == Some(Decimal.MaxInt64) ==>
      r == Failure(IncrOverflow)
    ensures current.Some? && StoredInteger(current.value).Some? &&
            StoredInteger(current.value).value < Decimal.MaxInt64 ==>
      r == Success(StoredInteger(current.value).value + 1)
    ensures r.Success? ==> Decimal.MinInt64 < r.value <= Decimal.MaxInt64
  {
    match current
    case None => Success(1)
    case Some(v) =>
      match StoredInteger(v)
      case None => Failure(NotAnInteger)
      case Some(n) => if n == Decimal.MaxInt64 then Failure(IncrOverflow) else Success(n + 1)
  }

  /** GET's text parsed by `strconv.ParseInt(_, 10, 64)`, as the caller sees it. */
  function ParsedCount(text: string): (r: Result<int>)
    ensures r.Success? <==> Decimal.ParseInt64(text).Value?
    ensures r.Success? ==> r.value == Decimal.ParseInt64(text).n
    ensures Decimal.ParseInt64(text).SyntaxError? ==> r == Failure(ParseIntSyntax)
    ensures Decimal.ParseInt64(text).RangeError? ==> r == Failure(ParseIntRange)
  {
    match Decimal.ParseInt64(text)
    case Value(n) => Success(n)
    case SyntaxError => Failure(ParseIntSyntax)
    case RangeError(_) => Failure(ParseIntRange)
  }

  /** What GET on the counter key, parsed as a base-10 int64, yields:
      redis.Nil when it is absent, the counter, or whatever ParseInt makes of
      other bytes (an entry's JSON is a syntax error). */
  function CountIn(data: map<string, Value>): (r: Result<int>)
    ensures LogCountKey !in data ==> r == Failure(RedisNil)
    ensures LogCountKey in data && data[LogCountKey].Counter? ==> r == Success(data[LogCountKey].n)
    ensures LogCountKey in data && data[LogCountKey].Blob? && data[LogCountKey].doc.EntryDoc? ==>
      r == Failure(ParseIntSyntax)
    ensures LogCountKey in data && data[LogCountKey].Blob? && data[LogCountKey].doc.Malformed? ==>
      r == ParsedCount(data[LogCountKey].doc.text)
    ensures r.Success? ==> Decimal.MinInt64 <= r.value <= Decimal.MaxInt64
  {
    if LogCountKey !in data then Failure(RedisNil)
    else match data[LogCountKey]
      case Counter(n) => Success(n)
      case Blob(EntryDoc(_)) => Failure(ParseIntSyntax)
      case Blob(Malformed(t)) => ParsedCount(t)
  }

  /** A counter and its decimal text read the same, both to GET and to INCR. */
  lemma {:induction false} CounterLikeItsText(data: map<string, Value>, n: Int64)
    ensures CountIn(data[LogCountKey := Counter(n)]) == Success(n)
    ensures CountIn(data[LogCountKey := Blob(Malformed(Int64Text(n)))]) == Success(n)
    ensures Incr(Some(Counter(n))) == Incr(Some(Blob(Malformed(Int64Text(n)))))
  {
    Decimal.ParseInt64Format(n);
    IntegerTextReadsBack(n);
  }

  /** Whenever INCR succeeds, GET then reads back one more than the integer
      that was stored (or 1 from an absent key), and what Redis held as an
      integer GET would have read as that same integer. */
  lemma IncrThenCount(data: map<string, Value>)
    requires Incr(if LogCountKey in data then Some(data[LogCountKey]) else None).Success?
    ensures var v := Incr(if LogCountKey in data then Some(data[LogCountKey]) else None).value;
      && CountIn(data[LogCountKey := Counter(v)]) == Success(v)
      && (LogCountKey !in data ==> v == 1)
      && (LogCountKey in data ==> CountIn(data).Success? && v == CountIn(data).value + 1)
  {
  }

  /** What the cache says about `id`: a snapshot, a miss, or an error. */
  datatype CacheRead = Hit(entry: LogEntry) | Miss | Failed(error: Error)

  /** GET `log:<id>` decoded: an absent key is a miss, distinct from an error;
      bytes that do not decode are an error. */
  function Lookup(data: map<string, Value>, id: nat): (r: CacheRead)
    ensures r.Miss? <==> LogKey(id) !in data
    ensures r.Hit? <==> LogKey(id) in data && data[LogKey(id)].Blob? && Unmarshal(data[LogKey(id)].doc).Success?
    ensures r.Hit? ==> data[LogKey(id)] == Blob(EntryDoc(r.entry))
  {
    var key := LogKey(id);
    if key !in data then Miss
    else match data[key]
      case Counter(_) => Failed(SyntaxError)
      case Blob(doc) =>
        match Unmarshal(doc)
        case Success(e) => Hit(e)
        case Failure(err) => Failed(err)
  }

  /** Reading an entry back after storing it under its own id gives a
      value-equal entry; other ids are not disturbed. */
  lemma StoredSnapshotReadsBack(data: map<string, Value>, e: LogEntry, id: nat)
    requires Encodable(e)
    ensures Lookup(data[LogKey(e.id) := Blob(EntryDoc(e))], id) ==
            if id == e.id then Hit(e) else Lookup(data, id)
  {
    LogKeyDistinct(e.id, id);
  }

  /** Storing a snapshot leaves the counter as it was. */
  lemma SnapshotKeepsCount(data: map<string, Value>, e: LogEntry)
    ensures CountIn(data[LogKey(e.id) := Blob(EntryDoc(e))]) == CountIn(data)
  {
    LogKeyDistinct(e.id, e.id);
  }

  class RedisCacheRepository {
    var data: map<string, Value>
    /** The expiry, in seconds, set with each key that has one. */
    var ttl: map<string, nat>

    constructor ()
      ensures data == map[] && ttl == map[]
    {
      data := map[];
      ttl := map[];
    }

    function Current(key: string): Option<Value>
      reads this
    {
      if key in data then Some(data[key]) else None
    }

    /** `IncrementLogCount`: INCR `stats:log_count`. */
    method IncrementLogCount(link: Outcome) returns (err: Option<Error>)
      modifies this
      ensures ttl == old(ttl)
      ensures link.Fail? ==> err == Some(link.error) && data == old(data)
      ensures link.Ok? ==> match old(Incr(Current(LogCountKey)))
        case Success(n) => err == None && data == old(data)[LogCountKey := Counter(n)]
        case Failure(e) => err == Some(e) && data == old(data)
    {
      if link.Fail? {
        return Some(link.error);
      }
      var next := Incr(Current(LogCountKey));
      if next.Failure? {
        return Some(next.error);
      }
      data := data[LogCountKey := Counter(next.value)];
      return None;
    }

    /** `GetLogCount`: GET `stats:log_count` and parse it; an absent key is
        an error. */
    method GetLogCount(link: Outcome) returns (r: Result<int>)
      ensures link.Fail? ==> r == Failure(link.error)
      ensures link.Ok? ==> r == CountIn(data)
    {
      if link.Fail? {
        return Failure(link.error);
      }
      if LogCountKey !in data {
        return Failure(RedisNil);
      }
      match data[LogCountKey]
      case Counter(n) => return Success(n);
      case Blob(EntryDoc(_)) => return Failure(ParseIntSyntax);
      case Blob(Malformed(text)) =>
        var parsed := Decimal.ParseInt64(text);
        if parsed.SyntaxError? {
          return Failure(ParseIntSyntax);
        } else if parsed.RangeError? {
          return Failure(ParseIntRange);
        }
        return Success(parsed.n);
    }

    /** `SetLog`: SET `log:<entry id>` to the entry's JSON with a one-hour TTL;
        a marshalling error stops it before any call. */
    method SetLog(entry: LogEntry, link: Outcome) returns (err: Option<Error>)
      modifies this
      ensures Marshal(entry).Failure? ==> err == Some(YearRangeError) && unchanged(this)
      ensures Marshal(entry).Success? && link.Fail? ==> err == Some(link.error) && unchanged(this)
      ensures Marshal(entry).Success? && link.Ok? ==>
        && err == None
        && data == old(data)[LogKey(entry.id) := Blob(EntryDoc(entry))]
        && ttl == old(ttl)[LogKey(entry.id) := EntryTtlSeconds]
    {
      var key := LogKey(entry.id);
      var bytes := Marshal(entry);
      if bytes.Failure? {
        return Some(bytes.error);
      }
      if link.Fail? {
        return Some(link.error);
      }
      data := data[key := Blob(bytes.value)];
      ttl := ttl[key := EntryTtlSeconds];
      return None;
    }

    /** `GetLog`: GET `log:<id>`; redis.Nil is a miss (no entry, no error),
        any other store error or undecodable bytes is an error. */
    method GetLog(id: nat, link: Outcome) returns (r: CacheRead)
      ensures link.Fail? ==> r == Failed(link.error)
      ensures link.Ok? ==> r == Lookup(data, id)
    {
      if link.Fail? {
        return Failed(link.error);
      }
      var key := LogKey(id);
      if key !in data {
        return Miss;
      }
      match data[key]
      case Counter(_) => return Failed(SyntaxError);
      case Blob(doc) =>
        var decoded := Unmarshal(doc);
        if decoded.Failure? {
          return Failed(decoded.error);
        }
        return Hit(decoded.value);
    }
  }
}
