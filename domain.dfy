/** The shared data model of the pipeline: the log entry that every component
    passes around, its JSON wire form, and the error and outcome values that
    the components and their backing stores hand to each other. */
module Domain {

  datatype Option<T> = None | Some(value: T)

  /** An error value as the Go code returns it; only its identity matters. */
  datatype Error = Error(reason: string)

  /** What a call into a backing store (broker, cache, database, search index)
      reported: success, or the error it returned. */
  datatype Outcome = Ok | Fail(error: Error)

  /** A value or the error that replaced it, for Go's `(value, error)` pairs. */
  datatype Result<T> = Success(value: T) | Failure(error: Error)

  /** A `time.Time`, as nanoseconds since January 1 of year 1, 00:00:00 UTC.
      Zero is Go's zero Time, the one `IsZero` reports. */
  type Time = int

  const ZeroTime: Time := 0

  const NanosPerSecond: int := 1_000_000_000

  /** The first instant of year 0 (year 0 is a leap year of 366 days) and
      the first instant of year 10000. */
  const YearZero: Time := -31_622_400 * NanosPerSecond
  const YearTenThousand: Time := 315_537_897_600 * NanosPerSecond

  /** `Time.MarshalJSON` only writes years 0 through 9999. */
  predicate JsonTime(t: Time) {
    YearZero <= t < YearTenThousand
  }

  /** A log event: the fields of `gorm.Model` (id, creation, update and soft
      deletion times) followed by the event's own fields. */
  datatype LogEntry = LogEntry(
    id: nat,
    createdAt: Time,
    updatedAt: Time,
    deletedAt: Option<Time>,
    serviceName: string,
    level: string,
    message: string,
    timestamp: Time)

  /** The zero value of the Go struct. */
  const EmptyEntry := LogEntry(0, ZeroTime, ZeroTime, None, "", "", "", ZeroTime)

  /** An entry `json.Marshal` accepts: every time field is in years 0..9999. */
  predicate Encodable(e: LogEntry) {
    && JsonTime(e.createdAt)
    && JsonTime(e.updatedAt)
    && (e.deletedAt.Some? ==> JsonTime(e.deletedAt.value))
    && JsonTime(e.timestamp)
  }

  /** A JSON document on the wire. The text encoding is not modelled: a
      document is either the encoding of a log entry or bytes that are not one. */
  datatype Json = EntryDoc(entry: LogEntry) | Malformed(text: string)

  const YearRangeError := Error("json: Time.MarshalJSON: year outside of range [0,9999]")
  const SyntaxError := Error("json: cannot unmarshal into domain.LogEntry")

  /** `json.Marshal` of a log entry. */
  function Marshal(e: LogEntry): (r: Result<Json>)
    ensures r.Success? <==> Encodable(e)
    ensures r.Failure? ==> r.error == YearRangeError
  {
    if Encodable(e) then Success(EntryDoc(e)) else Failure(YearRangeError)
  }

  /** `json.Unmarshal` into a log entry: a time field out of range does not
      parse back, and anything that is not an entry's document is refused. */
  function Unmarshal(doc: Json): (r: Result<LogEntry>)
    ensures r.Success? <==> doc.EntryDoc? && Encodable(doc.entry)
    ensures r.Success? ==> Encodable(r.value)
  {
    match doc
    case EntryDoc(e) => if Encodable(e) then Success(e) else Failure(SyntaxError)
    case Malformed(_) => Failure(SyntaxError)
  }

  /** Decoding what was encoded gives back a value-equal entry. */
  lemma MarshalRoundTrip(e: LogEntry)
    requires Encodable(e)
    ensures Marshal(e).Success? && Unmarshal(Marshal(e).value) == Success(e)
  {
  }

  /** A document that decodes is the encoding of what it decodes to. */
  lemma UnmarshalRoundTrip(doc: Json)
    requires Unmarshal(doc).Success?
    ensures Marshal(Unmarshal(doc).value) == Success(doc)
  {
  }
}
