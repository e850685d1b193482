# logpulse in Dafny

A model of the core of logpulse, a log-ingestion service written in Go. Its path is:

- An HTTP API accepts log entries, rate-limited per client address by a token bucket kept in Redis.
- Each entry is published to a Kafka topic, keyed by its service name, and a Redis counter of accepted entries is bumped.
- A consumer writes every entry to MySQL one at a time. It also buffers the entries for Elasticsearch and bulk-indexes the buffer at 100 entries, on a one-second tick and at shutdown.
- Single entries are read back through a Redis cache (cache-aside): a miss goes to MySQL and is written back with a one-hour lifetime.
- Full-text search goes to Elasticsearch.

There is one Dafny module per Go source file of the core, plus two shared modules:

| module | models |
|---|---|
| `Domain` (`domain.dfy`) | the log entry, `Result`/`Option`/`Outcome`, and JSON encoding of an entry as an abstract document |
| `Decimal` (`decimal.dfy`) | `%d` formatting and base-10 `strconv.ParseUint`/`ParseInt`, read left to right, with their range errors and clamping |
| `Config` (`config.dfy`) | `LoadConfig`: defaults, broker list splitting, the MySQL DSN |
| `RateLimit` (`ratelimit.dfy`) | the Lua token-bucket script as a function, the Redis key space as a class, `Allow` and `Middleware` |
| `KafkaProducer` (`kafka_producer.dfy`) | `SendLog` |
| `RedisStats` (`redis_stats_repository.dfy`) | the counter and the entry snapshots |
| `LogStore` (`log_store.dfy`) | the `LogRepository` interface: `Create` and `GetByID` |
| `KafkaConsumer` (`kafka_consumer.dfy`) | `ConsumeClaim` and its `flush` closure |
| `EsRepository` (`es_log_repository.dfy`) | `BulkIndex` and `Search` |
| `LogService` (`log_service.dfy`) | `CreateLog`, `GetLog` (cache-aside) and `SearchLogs` |
| `LogHandler` (`log_handler.dfy`) | the three HTTP handlers: validation and status codes |

Modelling choices:

- **Remote systems are parameters.** Whatever a remote system answers during an operation is a parameter of that operation:
  - `Outcome` says whether the call reached the system;
  - `DbWrite` is the id MySQL assigned or its error;
  - `BulkReply` and `SearchReply` are Elasticsearch's replies.
- **State lives in classes.** State the code changes is a class with `modifies` clauses:
  - the Redis key space: `RedisCacheRepository`, `BucketStore`;
  - the MySQL table: `LogRepository`;
  - the messages the broker accepted: `Producer.sent`;
  - the consumer's buffer, marked offsets and bulk calls: `PartitionConsumer`.
- **The wall clock is a parameter.** It is passed as `now`.
- **Consumer events.** The consumer's `select` becomes a sequence of events: a message arrives, the ticker fires, the session ends, or the stream is closed.
- **JSON is abstract.**
  - A document is `EntryDoc(entry)`, or `Malformed` for bytes that are not one.
  - `json.Marshal` of an entry fails exactly when one of its times lies outside years 0 to 9999 (`Time.MarshalJSON`).
  - Decoding inverts encoding.

Points where the repository disagrees with itself, and how the model reads them:

- **Interfaces and implementations do not match.**
  - `domain.LogSearchRepository` (internal/domain/log_entry.go:41-43) declares only `BulkIndex`, although the service calls `Search` and the implementation has it.
  - The MySQL repository implements only `Create` (internal/repository/mysql_log_repository.go:19-22), although the interface also declares `GetByID`.
  - The model gives each repository every operation the service uses.
  - `GetByID` returns the row with that id, or GORM's "record not found" error.
- **The handler's `id` is the bound entry's own.** `POST /logs` answers with the `id` of the entry as it was bound from the request, which is 0 unless the client sent one. The identifier is assigned later, by the consumer's insert.

## Model

| member | source | states |
|---|---|---|
| Domain.Marshal | internal/repository/kafka_producer.go:37-40 | encoding an entry succeeds exactly when all its times are in years 0-9999; otherwise it gives the year-range error |
| Domain.Unmarshal | internal/repository/redis_stats_repository.go:63-66 | decoding succeeds exactly on an entry document whose times are encodable, and what it yields is encodable |
| Domain.MarshalRoundTrip | internal/repository/redis_stats_repository.go:42-49 | an encodable entry decodes back to itself after encoding |
| Domain.UnmarshalRoundTrip | internal/repository/es_log_repository.go:132-135 | a document that decodes re-encodes to the same document |
| Decimal.DigitChar | internal/repository/redis_stats_repository.go:40 | a digit value maps to the character of that digit |
| Decimal.Format | internal/repository/redis_stats_repository.go:40 | `%d` of a natural number is canonical: digits only, with no leading zero unless it is "0" |
| Decimal.FormatValue | internal/repository/redis_stats_repository.go:53 | the digits `%d` prints have the value printed |
| Decimal.FormatOfValue | internal/handler/log_handler.go:48 | printing the value of a canonical numeral gives the numeral back |
| Decimal.FormatInjective | internal/repository/redis_stats_repository.go:40 | two numbers print the same exactly when they are equal |
| Decimal.ParseUint | internal/handler/log_handler.go:48-52 | base-10 unsigned parse, read left to right: a value exactly for non-empty all-digit input within the bit size, and that value; a range error, clamped to the maximum, exactly when the leading digit run already exceeds the bit size, whatever follows it; a syntax error exactly for "" or a non-digit reached before any overflow |
| Decimal.DigitsValueMonotone | internal/handler/log_handler.go:48 | the value of a digit run never decreases as more digits are read, so the run passes the maximum somewhere exactly when its whole value does |
| Decimal.OverflowBeforeJunk | internal/handler/log_handler.go:48 | a number above the bit size's maximum is a range error whatever non-digit text follows it ("4294967296x" at 32 bits) |
| Decimal.ParseFormat | internal/handler/log_handler.go:48 | every number within the bit size parses back from its `%d` form; a larger one is a range error clamped to the maximum |
| Decimal.FormatParse | internal/handler/log_handler.go:48 | a canonical numeral that parses prints back to itself |
| Decimal.ParseInt64 | internal/config/config.go:51 | base-10 signed parse: an optional sign, then what `ParseUint` at 64 bits reads from the rest. A syntax error exactly when that read is one (so "" and a bare sign). A value exactly when the magnitude parses and fits the signed range, and it is the magnitude with the sign applied. Otherwise a range error, clamped to MinInt64 for a "-" sign and to MaxInt64 otherwise |
| Decimal.ParseInt64Format | internal/repository/redis_stats_repository.go:34 | every int64 parses back from its decimal form, with a leading "-" when negative |
| Config.Split | internal/config/config.go:38 | `strings.Split` gives one more piece than there are separators, no piece contains one, and joining the pieces restores the input |
| Config.LoadConfig | internal/config/config.go:28-73 | brokers are empty exactly when the variable is, otherwise its comma-split pieces; the DSN is assembled from the five DB variables; enabled exactly on "true"; capacity and rate fall back to 100 and 50 when they parse to 0, so they are never 0; other fields are copied verbatim |
| Config.CapacitySetting | internal/config/config.go:51-54 | a positive decimal capacity is used as written; a capacity that does not parse gives the default 100 |
| Config.CapacityClamped | internal/config/config.go:51-54 | a capacity past the int64 range, with or without trailing text, is clamped to MinInt64 or MaxInt64 by its sign |
| Config.UnsetRateLimitDefaults | internal/config/config.go:51-58 | when the float parser reads "" as 0, unset capacity and rate give the defaults 100 and 50 |
| RateLimit.Refill | internal/middleware/ratelimit.go:30-36 | a fresh key holds a full bucket; refilled tokens never exceed capacity, nor the stored tokens plus elapsed seconds times rate, and below capacity they are exactly that sum |
| RateLimit.TokenBucket | internal/middleware/ratelimit.go:38-48 | allowed exactly when the refilled count covers the request; the written hash has `last_time = now` and the refilled count minus the request only when allowed |
| RateLimit.TokensStayInRange | internal/middleware/ratelimit.go:35-47 | with a monotone clock and non-negative rate, the stored count stays within [0, capacity] |
| RateLimit.RecoversAfterWait | internal/middleware/ratelimit.go:35-40 | after waiting 1/rate seconds, a drained bucket of capacity ≥ 1 allows a request |
| RateLimit.Replay | internal/middleware/ratelimit.go:16-49 | a run of single-token requests yields one answer per request |
| RateLimit.DrainAtOneInstant | internal/middleware/ratelimit.go:39-47 | a bucket holding k tokens allows exactly k requests at one instant, then denies |
| RateLimit.BurstThenDeny | internal/middleware/ratelimit_test.go:36-46 | from a fresh key with capacity C, a burst at one instant gets C allows and then one deny |
| RateLimit.BucketStore.RunTokenBucket | internal/middleware/ratelimit.go:23-48 | the script replaces the key's hash with the verdict's bucket, sets its 60-second expiry, and returns 1 to allow, 0 to deny |
| RateLimit.RateLimiter.Allow | internal/middleware/ratelimit.go:72-92 | disabled: allowed with the store untouched; store error: not allowed, with the error, store untouched; otherwise the script's verdict for one token, with the key's bucket and expiry replaced |
| RateLimit.RateLimiter.Middleware | internal/middleware/ratelimit.go:95-122 | disabled or store error proceeds (fail open); otherwise key "ratelimit:"+IP, and a denial aborts with 429 and the rate-limit message |
| KafkaProducer.BuildMessage | internal/repository/kafka_producer.go:37-48 | a message exists exactly for encodable entries: topic from config, key the service name, value decoding back to the entry |
| KafkaProducer.SameServiceSameKey | internal/repository/kafka_producer.go:45-46 | two entries get the same partition key exactly when they share a service name |
| KafkaProducer.Producer.SendLog | internal/repository/kafka_producer.go:35-58 | a marshal or send error is returned and nothing is recorded; success records exactly the built message |
| RedisStats.LogKey | internal/repository/redis_stats_repository.go:40 | the key is "log:" followed by the decimal id |
| RedisStats.LogKeyDistinct | internal/repository/redis_stats_repository.go:40-53 | distinct ids have distinct keys, and no entry key collides with the counter key |
| RedisStats.Int64Text | internal/repository/redis_stats_repository.go:26 | the bytes Redis keeps for an integer are its `%d` digits, with "-" for a negative one and never "+" |
| RedisStats.StoredInteger | internal/repository/redis_stats_repository.go:26 | INCR finds an integer in a counter, or in text that is exactly the decimal form of an int64; anything else is not an integer |
| RedisStats.IntegerTextReadsBack | internal/repository/redis_stats_repository.go:26 | the decimal text of every int64 is read by INCR as that integer |
| RedisStats.Incr | internal/repository/redis_stats_repository.go:25-27 | INCR gives 1 for an absent key and n+1 for a stored int64 n below the maximum; it fails with the not-an-integer error on anything that is not an int64's decimal text, and with the overflow error when n is the int64 maximum; a result stays within int64 |
| RedisStats.ParsedCount | internal/repository/redis_stats_repository.go:34 | `strconv.ParseInt(_, 10, 64)`: a value exactly when the text parses within int64, otherwise the syntax or range error |
| RedisStats.CountIn | internal/repository/redis_stats_repository.go:29-35 | an absent key is redis.Nil; a counter reads as itself; other text reads as `ParseInt` makes of it, an entry's JSON as a syntax error; a count read is within int64 |
| RedisStats.CounterLikeItsText | internal/repository/redis_stats_repository.go:25-35 | a counter and its decimal text read the same count and INCR the same way |
| RedisStats.IncrThenCount | internal/repository/redis_stats_repository.go:25-35 | after a successful INCR, GET reads back INCR's result, which is 1 from an absent key and otherwise one more than the count GET read before |
| RedisStats.Lookup | internal/repository/redis_stats_repository.go:52-67 | a miss exactly when the key is absent; a hit exactly when the key holds a decodable entry, and the hit is that entry |
| RedisStats.StoredSnapshotReadsBack | internal/repository/redis_stats_repository.go:39-67 | after storing an encodable entry under its id, reading that id gives the entry, and other ids read as before |
| RedisStats.SnapshotKeepsCount | internal/repository/redis_stats_repository.go:29-49 | storing a snapshot leaves the count unchanged |
| RedisStats.RedisCacheRepository.IncrementLogCount | internal/repository/redis_stats_repository.go:25-27 | link error: nothing changes; otherwise INCR's result is stored, or its error returned with nothing changed |
| RedisStats.RedisCacheRepository.GetLogCount | internal/repository/redis_stats_repository.go:29-35 | returns the link error, or the counter as `CountIn` reads it |
| RedisStats.RedisCacheRepository.SetLog | internal/repository/redis_stats_repository.go:39-50 | a marshal error is returned before any call; on success "log:<id>" holds the entry's document with a 3600-second TTL |
| RedisStats.RedisCacheRepository.GetLog | internal/repository/redis_stats_repository.go:52-67 | returns the link error, or the hit, miss or error `Lookup` gives |
| LogStore.AfterCreate | internal/repository/kafka_consumer.go:97 | after an insert the caller's entry carries the assigned id; after a failure it is unchanged; no other field changes |
| LogStore.LogRepository.Create | internal/repository/mysql_log_repository.go:19-22 | success stores the row under the new id MySQL assigned (never one already in use); failure stores nothing and returns the error |
| LogStore.LogRepository.GetByID | internal/domain/log_entry.go:22 | the row with that id, or "record not found", or the link error; the rows are unchanged |
| KafkaConsumer.IndexedMatchesDecoded | internal/repository/kafka_consumer.go:97-105 | the index receives exactly the entries handed to the database, in order, differing at most in their id |
| KafkaConsumer.WritesAtMostMarks | internal/repository/kafka_consumer.go:88-114 | no more writes than marked messages, and exactly as many when every message decodes |
| KafkaConsumer.StepExtends | internal/repository/kafka_consumer.go:80-124 | a turn only appends bulk calls and log lines, never rewriting earlier ones |
| KafkaConsumer.RunExtends | internal/repository/kafka_consumer.go:80-124 | over any run of turns, the earlier bulk calls and log lines stay a prefix |
| KafkaConsumer.StepConcat | internal/repository/kafka_consumer.go:66-112 | after a turn, the bulk calls followed by the buffer are those before it followed by the entry the turn buffered, if any |
| KafkaConsumer.RunConcat | internal/repository/kafka_consumer.go:66-112 | over any run, the bulk calls followed by the buffer are the starting ones followed by every entry buffered, in order |
| KafkaConsumer.RunBounded | internal/repository/kafka_consumer.go:107-110 | between turns the buffer stays below 100 entries and every bulk call holds 1-100 entries |
| KafkaConsumer.StepFullBatch | internal/repository/kafka_consumer.go:107-110 | a message turn makes at most one bulk call, and that call holds exactly 100 entries and empties the buffer |
| KafkaConsumer.MessagesFillBatches | internal/repository/kafka_consumer.go:107-110 | while only messages arrive, every bulk call holds exactly 100 entries, and the entries buffered are 100 per call plus what remains buffered |
| KafkaConsumer.StepFlushNotices | internal/repository/kafka_consumer.go:71-75 | a turn logs one bulk-index line exactly when it makes a bulk call |
| KafkaConsumer.RunFlushNotices | internal/repository/kafka_consumer.go:71-75 | over any run, one bulk-index log line per bulk call |
| KafkaConsumer.PartitionConsumer.Flush | internal/repository/kafka_consumer.go:66-78 | an empty buffer does nothing; otherwise one bulk call with the whole buffer, a log line for its outcome, and an empty buffer even on failure; it is the step `FlushStep` |
| KafkaConsumer.PartitionConsumer.Receive | internal/repository/kafka_consumer.go:88-114 | an undecodable message is logged, skipped and marked; otherwise it is written (a failed write logged), buffered even when the write failed, flushed at 100, then marked; the calls, buffer and log lines change exactly as `Step` says |
| KafkaConsumer.PartitionConsumer.Handle | internal/repository/kafka_consumer.go:80-124 | one `select` turn, exactly `Step` on the calls, buffer and log lines: a tick, session end or stream close flushes and leaves the buffer empty; only the last two stop; earlier calls and log lines are kept; the marks, writes and rows extend by the turn's share, and no database read is made |
| KafkaConsumer.PartitionConsumer.ConsumeClaim | internal/repository/kafka_consumer.go:54-126 | runs up to the first session-end or stream-close turn, which flushes and returns. The calls, buffer and log lines are `Run` of the consumed turns from an empty buffer, so by `StepFullBatch` every call made on a message turn holds exactly 100 entries. Marked offsets, DB writes and rows follow the consumed turns. The bulk calls plus the buffer are the decoded entries in order, and all of them are indexed once it returns. No database read is made |
| EsRepository.EntryChunksContents | internal/repository/es_log_repository.go:47-58 | each entry adds one action line, plus its document when it marshals |
| EsRepository.BulkBodyContents | internal/repository/es_log_repository.go:46-59 | one action line per entry; the documents decode, in order, to exactly the entries that marshal |
| EsRepository.BulkBodyFraming | internal/repository/es_log_repository.go:46-59 | every document is preceded by the action line and followed by a newline |
| EsRepository.BuildBulkBody | internal/repository/es_log_repository.go:43-59 | the buffer built by the loop is the bulk body of the entries |
| EsRepository.BulkIndex | internal/repository/es_log_repository.go:38-77 | nothing is sent for an empty list; otherwise the bulk body is sent, a transport error is returned, and the call fails exactly on a status above 299 |
| EsRepository.SearchQuery | internal/repository/es_log_repository.go:84-103 | a multi_match on message, service_name and level over index "logs", tracking total hits |
| EsRepository.HitEntry | internal/repository/es_log_repository.go:127-134 | a hit's source is decoded; a missing source gives the zero entry |
| EsRepository.HitEntriesAppend | internal/repository/es_log_repository.go:125-137 | results keep hit order across any split of the hits |
| EsRepository.HitEntriesFromHits | internal/repository/es_log_repository.go:125-137 | at most one result per hit, and each result is the decoding of some hit |
| EsRepository.HitEntriesAllDecode | internal/repository/es_log_repository.go:125-137 | when every hit decodes, the results are all of them, one for one |
| EsRepository.CollectHits | internal/repository/es_log_repository.go:125-139 | the loop collects exactly the decodable hits in order |
| EsRepository.SearchOutcome | internal/repository/es_log_repository.go:104-139 | a transport error, an error status and an undecodable body are errors; otherwise success, with no results when there is no hit array and the decodable hits otherwise |
| EsRepository.SearchAsWritten | internal/repository/es_log_repository.go:104-139 | as written, it panics exactly on a 2xx object without a `hits` object and otherwise agrees with `SearchOutcome` |
| EsRepository.Search | internal/repository/es_log_repository.go:79-140 | sends `SearchQuery(query)` and returns `SearchOutcome` of the reply |
| LogService.LogService.CreateLog | internal/service/log_service.go:26-32 | a publish error is returned with nothing else done; after a publish the counter is bumped (error ignored) and the count read back is returned, 1 or one more than the count before when Redis is healthy and accepts the INCR; MySQL is untouched |
| LogService.LogService.GetLog | internal/service/log_service.go:34-58 | a cache hit returns with no DB read and no cache write; a cache error counts as a miss; a DB error is returned with nothing cached; a found row is cached (failure ignored) and returned, so the next read hits |
| LogService.LogService.SearchLogs | internal/service/log_service.go:60-62 | exactly what the index search returns |
| LogHandler.Stamped | internal/handler/log_handler.go:28-30 | a zero timestamp becomes the arrival time; nothing else changes |
| LogHandler.ParseId | internal/handler/log_handler.go:47-52 | an id is accepted exactly for non-empty all-digit text of value below 2^32, and is that value |
| LogHandler.ParseIdFormat | internal/handler/log_handler.go:48 | every 32-bit id is accepted in its decimal form |
| LogHandler.ParseIdDigits | internal/handler/log_handler.go:48 | an accepted parameter is the id's decimal form, possibly with leading zeros |
| LogHandler.LogHandler.CreateLog | internal/handler/log_handler.go:21-43 | unbindable body: 400 with nothing published; the stamped entry is published; 201 exactly when the publish and the count read succeed, with the entry's id and count; otherwise 500. After a publish the counter holds INCR's result, or is unchanged when INCR fails; a 201 after an accepted INCR reports 1 or the previous count plus one |
| LogHandler.LogHandler.GetLog | internal/handler/log_handler.go:46-61 | a bad id gives 400 with no store touched; a cache hit or DB row gives 200 with the entry; otherwise 404. Rows are never changed; a hit touches nothing, a miss reads the DB once, and a row found is written back with its TTL, so the next read of that id hits |
| LogHandler.LogHandler.SearchLogs | internal/handler/log_handler.go:64-81 | an empty q gives 400; a search error gives 500; otherwise 200 with the results and their count |

## Left out

- `StartConsumerGroup`, the consumer-group session loop with its two-second back-off, `Setup`/`Cleanup` and `NewKafkaConsumer` are not modelled. They are goroutine and retry plumbing around `ConsumeClaim`.
- cmd/api/main.go and route wiring are not part of this model. The entry point does not match the current constructors.
- Constructors that dial external systems are left out: `NewESLogRepository`'s `Info` probe, `NewKafkaProducer`, `NewLogRepository` and the producer's `Close`.
- Timers, goroutines and the ticker's real time are left out. A tick is an event.
- Redis's internal string encodings are not modelled. A value is either a counter INCR wrote or stored text, and `CounterLikeItsText` shows the two read alike.
- LogService.LogService.CreateLog: the "one more than before" promise needs INCR to succeed, not only the earlier GET. Text such as "007" or "+5" reads as a count through `ParseInt` but is refused by INCR, so the count then comes back unchanged.
- Redis key expiry is left out. The TTLs (60 s for a bucket, 3600 s for a snapshot) are recorded per key but never fire.
- Lua and Go floating point are modelled as exact reals. This leaves out rounding, the decimal string round trip of the stored token count, NaN and infinities.
- `strconv.ParseFloat` is a parameter `parseFloat` of `LoadConfig`. It stands for the value returned with its error discarded.
- The .env file loading is left out.
- JSON text is not modelled at byte level. An encoded entry is an abstract document, and field names and Gin's binding rules are abstracted to the bound entry or "does not bind".
- MySQL's auto-increment never reuses an id. `Create`, and so the consumer, require the id of a successful insert to be new to the table (`FreshInserts`).
- GORM's automatic `CreatedAt`/`UpdatedAt` filling and soft-delete filtering are not modelled. `Create` stores the entry with its assigned id only.
- Sarama's partitioner, retries and acks are left out. The producer's outcome is the final `SendMessage` result.
- The broker's own offset commit and redelivery are left out. Marked offsets are recorded in order.
- The type assertions on each hit (`hit.(map[string]interface{})`) are not modelled. They panic on a hit that is not an object, and the model assumes every hit is an object.
- Log output is kept only in the consumer (`notices`), where it is the only record of a failed bulk call or insert. Elsewhere it is dropped.
- RateLimit.RateLimiter.Allow is stated for a successful store call as one atomic script run. A store error reported after the script already ran is not modelled.
- LogStore.LogRepository.GetByID has no MySQL implementation in the source. It is modelled after the interface and the service's use of it.

## Findings

| source | as written | input that shows it | evidently intended | confidence | as-written member | corrected member |
|---|---|---|---|---|---|---|
| internal/repository/es_log_repository.go:120-123 | `result["hits"].(map[string]interface{})` is a single-value type assertion. A 2xx object without a `hits` object panics; only the inner array is guarded by `ok`. | a 200 reply whose body is `{}` | no `hits` to walk means no results, as the `ok` branch and its "No results" comment return | medium, not executed | EsRepository.SearchAsWritten | EsRepository.SearchOutcome |
