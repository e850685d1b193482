/** The service layer (internal/service/log_service.go): ingestion through
    the broker with the running count, reads through the cache (cache-aside),
    and search delegated to the index. */
module LogService {
  import opened Domain
  import KafkaProducer
  import LogStore
  import RedisStats
  import EsRepository
  import Decimal

  class LogService {
    const producer: KafkaProducer.Producer
    const logRepo: LogStore.LogRepository
    const cacheRepo: RedisStats.RedisCacheRepository

    ghost predicate Valid()
      reads this, logRepo
    {
      logRepo.Valid()
    }

    constructor (producer: KafkaProducer.Producer, logRepo: LogStore.LogRepository, cacheRepo: RedisStats.RedisCacheRepository)
      requires logRepo.Valid()
      ensures Valid()
      ensures this.producer == producer && this.logRepo == logRepo && this.cacheRepo == cacheRepo
    {
      this.producer := producer;
      this.logRepo := logRepo;
      this.cacheRepo := cacheRepo;
    }

    /** `CreateLog`: publish the entry; a publishing error is returned and
        nothing else happens. After a publish the counter is incremented,
        whose error is ignored, and the count read back is returned. The
        durable store is never touched. */
    method CreateLog(entry: LogEntry, delivery: Outcome, incrLink: Outcome, readLink: Outcome) returns (r: Result<int>)
      requires Valid()
      modifies producer, cacheRepo
      ensures Valid() && unchanged(logRepo)
      ensures cacheRepo.ttl == old(cacheRepo.ttl)
      ensures KafkaProducer.BuildMessage(producer.topic, entry).Failure? ==>
        r == Failure(KafkaProducer.BuildMessage(producer.topic, entry).error) && producer.sent == old(producer.sent) && unchanged(cacheRepo)
      ensures KafkaProducer.BuildMessage(producer.topic, entry).Success? && delivery.Fail? ==>
        r == Failure(delivery.error) && producer.sent == old(producer.sent) && unchanged(cacheRepo)
      ensures KafkaProducer.BuildMessage(producer.topic, entry).Success? && delivery.Ok? ==>
        && producer.sent == old(producer.sent) + [KafkaProducer.BuildMessage(producer.topic, entry).value]
        && (incrLink.Ok? && old(RedisStats.Incr(cacheRepo.Current(RedisStats.LogCountKey))).Success? ==>
              cacheRepo.data == old(cacheRepo.data)[RedisStats.LogCountKey :=
                RedisStats.Counter(old(RedisStats.Incr(cacheRepo.Current(RedisStats.LogCountKey))).value)])
        && (incrLink.Fail? || old(RedisStats.Incr(cacheRepo.Current(RedisStats.LogCountKey))).Failure? ==>
              cacheRepo.data == old(cacheRepo.data))
        && (readLink.Fail? ==> r == Failure(readLink.error))
        && (readLink.Ok? ==> r == RedisStats.CountIn(cacheRepo.data))
      /* With a healthy cache and an INCR that Redis accepts, the count
         returned is the previous count plus one, or 1 when there was none. */
      ensures KafkaProducer.BuildMessage(producer.topic, entry).Success? && delivery.Ok? &&
              incrLink.Ok? && readLink.Ok? && old(RedisStats.Incr(cacheRepo.Current(RedisStats.LogCountKey))).Success? ==>
        && (old(RedisStats.LogCountKey !in cacheRepo.data) ==> r == Success(1))
        && (old(RedisStats.LogCountKey in cacheRepo.data) ==>
              old(RedisStats.CountIn(cacheRepo.data)).Success? && r == Success(old(RedisStats.CountIn(cacheRepo.data)).value + 1))
    {
      ghost var before := cacheRepo.data;
      var err := producer.SendLog(entry, delivery);
      if err.Some? {
        return Failure(err.value);
      }
      if RedisStats.Incr(cacheRepo.Current(RedisStats.LogCountKey)).Success? {
        RedisStats.IncrThenCount(before);
      }
      var _ := cacheRepo.IncrementLogCount(incrLink);
      r := cacheRepo.GetLogCount(readLink);
    }

    /** `GetLog`: the cache is asked first and a hit is returned without a
        database read or a cache write. A cache error counts as a miss. On a
        miss the database is read; its error is returned and nothing is
        cached, while a row found is written back to the cache (a failure to
        do so is ignored) and returned. */
    method GetLog(id: nat, cacheLink: Outcome, dbLink: Outcome, setLink: Outcome) returns (r: Result<LogEntry>)
      requires Valid()
      modifies logRepo, cacheRepo
      ensures Valid()
      ensures logRepo.rows == old(logRepo.rows) && logRepo.creates == old(logRepo.creates)
      ensures cacheLink.Ok? && RedisStats.Lookup(old(cacheRepo.data), id).Hit? ==>
        && r == Success(RedisStats.Lookup(old(cacheRepo.data), id).entry)
        && unchanged(logRepo, cacheRepo)
      ensures cacheLink.Fail? || !RedisStats.Lookup(old(cacheRepo.data), id).Hit? ==>
        && logRepo.lookups == old(logRepo.lookups) + [id]
        && (dbLink.Fail? ==> r == Failure(dbLink.error) && unchanged(cacheRepo))
        && (dbLink.Ok? && id !in logRepo.rows ==> r == Failure(LogStore.RecordNotFound) && unchanged(cacheRepo))
        && (dbLink.Ok? && id in logRepo.rows ==> r == Success(logRepo.rows[id]))
        && (dbLink.Ok? && id in logRepo.rows && Encodable(logRepo.rows[id]) && setLink.Ok? ==>
              && cacheRepo.data == old(cacheRepo.data)[RedisStats.LogKey(id) := RedisStats.Blob(EntryDoc(logRepo.rows[id]))]
              && cacheRepo.ttl == old(cacheRepo.ttl)[RedisStats.LogKey(id) := RedisStats.EntryTtlSeconds])
        && (dbLink.Ok? && id in logRepo.rows && (!Encodable(logRepo.rows[id]) || setLink.Fail?) ==>
              unchanged(cacheRepo))
      /* Cache-aside: once a row has been read through and cached, the next
         read of that id is a hit on the same entry. */
      ensures r.Success? && setLink.Ok? && Encodable(r.value) ==> RedisStats.Lookup(cacheRepo.data, id) == RedisStats.Hit(r.value)
    {
      var cached := cacheRepo.GetLog(id, cacheLink);
      if cached.Hit? {
        return Success(cached.entry);
      }
      var dbEntry := logRepo.GetByID(id, dbLink);
      if dbEntry.Failure? {
        return dbEntry;
      }
      var _ := cacheRepo.SetLog(dbEntry.value, setLink);
      if Encodable(dbEntry.value) {
        RedisStats.StoredSnapshotReadsBack(old(cacheRepo.data), dbEntry.value, id);
      }
      return dbEntry;
    }

    /** `SearchLogs`: whatever the index search returns. */
    method SearchLogs(query: string, reply: EsRepository.SearchReply) returns (request: EsRepository.SearchRequest, r: Result<seq<LogEntry>>)
      ensures request == EsRepository.SearchQuery(query)
      ensures r == EsRepository.SearchOutcome(reply)
    {
      request, r := EsRepository.Search(query, reply);
    }
  }
}
