/** The HTTP handlers (internal/handler/log_handler.go): request validation
    and the mapping of service outcomes to status codes and bodies. Binding
    the request body is abstracted to its result: the entry it yields, or
    none for a body that does not bind; the wall clock is a parameter. */
module LogHandler {
  import opened Domain
  import Decimal
  import KafkaProducer
  import RedisStats
  import EsRepository
  import LogService

  const StatusOK := 200
  const StatusCreated := 201
  const StatusBadRequest := 400
  const StatusNotFound := 404
  const StatusInternalServerError := 500

  /** The JSON bodies the handlers answer with. */
  datatype Body =
    | ErrorBody(message: string)
    | Created(message: string, id: nat, totalLogged: int)
    | EntryBody(entry: LogEntry)
    | SearchResults(count: nat, data: seq<LogEntry>)

  datatype Response = Response(status: int, body: Body)

  /** The entry with a zero timestamp replaced by the arrival time. */
  function Stamped(e: LogEntry, now: Time): (r: LogEntry)
    ensures r == e.(timestamp := r.timestamp)
    ensures e.timestamp != ZeroTime ==> r == e
    ensures e.timestamp == ZeroTime ==> r.timestamp == now
  {
    if e.timestamp == ZeroTime then e.(timestamp := now) else e
  }

  /** The path parameter of `GET /logs/:id`, parsed as a 32-bit unsigned
      decimal number. */
  function ParseId(param: string): (id: Option<nat>)
    ensures id.Some? <==> param != [] && Decimal.AllDigits(param) && Decimal.DigitsValue(param) <= Decimal.MaxUint(32)
    ensures id.Some? ==> id.value == Decimal.DigitsValue(param) && id.value < 0x1_0000_0000
  {
    match Decimal.ParseUint(param, 32)
    case Value(n) => Some(n)
    case _ => None
  }

  /** Every id a client can hold is accepted as its decimal rendering and
      read back exactly. */
  lemma ParseIdFormat(id: nat)
    requires id < 0x1_0000_0000
    ensures ParseId(Decimal.Format(id)) == Some(id)
  {
    Decimal.ParseFormat(id, 32);
  }

  /** An accepted parameter is the canonical rendering of its id, or the
      same digits with leading zeros. */
  lemma ParseIdDigits(param: string)
    requires ParseId(param).Some?
    ensures Decimal.Format(ParseId(param).value) == param || (|param| > 1 && param[0] == '0')
  {
    if !(|param| > 1 && param[0] == '0') {
      Decimal.FormatOfValue(param);
    }
  }

  class LogHandler {
    const service: LogService.LogService

    constructor (service: LogService.LogService)
      ensures this.service == service
    {
      this.service := service;
    }

    /** `POST /logs`: a body that does not bind is refused with 400 before
        the service is called; otherwise the entry, stamped with the arrival
        time when it has none, goes to the service, whose error gives 500 and
        whose count gives 201 with the entry's id. */
    method CreateLog(bound: Option<LogEntry>, now: Time, delivery: Outcome, incrLink: Outcome, readLink: Outcome)
      returns (resp: Response)
      requires service.Valid()
      modifies service.producer, service.cacheRepo
      ensures service.Valid() && unchanged(service.logRepo)
      ensures bound.None? ==>
        && resp == Response(StatusBadRequest, ErrorBody("Invalid JSON format"))
        && service.producer.sent == old(service.producer.sent) && unchanged(service.cacheRepo)
      ensures resp.status in {StatusBadRequest, StatusInternalServerError, StatusCreated}
      ensures resp.status == StatusInternalServerError ==> resp.body == ErrorBody("Failed to process log")
      ensures bound.Some? ==>
        var msg := KafkaProducer.BuildMessage(service.producer.topic, Stamped(bound.value, now));
        && (resp.status == StatusCreated <==> msg.Success? && delivery.Ok? && readLink.Ok? && RedisStats.CountIn(service.cacheRepo.data).Success?)
        && (msg.Success? && delivery.Ok? ==> service.producer.sent == old(service.producer.sent) + [msg.value])
        && (msg.Failure? || delivery.Fail? ==> service.producer.sent == old(service.producer.sent) && unchanged(service.cacheRepo))
        && (resp.status == StatusCreated ==>
              resp.body == Created("Log saved", bound.value.id, RedisStats.CountIn(service.cacheRepo.data).value))
        && service.cacheRepo.ttl == old(service.cacheRepo.ttl)
        && (msg.Success? && delivery.Ok? && incrLink.Ok? &&
            old(RedisStats.Incr(service.cacheRepo.Current(RedisStats.LogCountKey))).Success? ==>
              service.cacheRepo.data == old(service.cacheRepo.data)[RedisStats.LogCountKey :=
                RedisStats.Counter(old(RedisStats.Incr(service.cacheRepo.Current(RedisStats.LogCountKey))).value)])
        && (msg.Success? && delivery.Ok? &&
            (incrLink.Fail? || old(RedisStats.Incr(service.cacheRepo.Current(RedisStats.LogCountKey))).Failure?) ==>
              service.cacheRepo.data == old(service.cacheRepo.data))
      /* A 201 after an INCR that Redis accepted reports one increment of the
         shared counter: 1 from nothing, otherwise the previous count plus one. */
      ensures bound.Some? && incrLink.Ok? && resp.status == StatusCreated &&
              old(RedisStats.Incr(service.cacheRepo.Current(RedisStats.LogCountKey))).Success? ==>
        && (old(RedisStats.LogCountKey !in service.cacheRepo.data) ==> resp.body == Created("Log saved", bound.value.id, 1))
        && (old(RedisStats.LogCountKey in service.cacheRepo.data) ==>
              old(RedisStats.CountIn(service.cacheRepo.data)).Success? &&
              resp.body == Created("Log saved", bound.value.id, old(RedisStats.CountIn(service.cacheRepo.data)).value + 1))
    {
      if bound.None? {
        return Response(StatusBadRequest, ErrorBody("Invalid JSON format"));
      }
      var entry := bound.value;
      if entry.timestamp == ZeroTime {
        entry := entry.(timestamp := now);
      }
      var total := service.CreateLog(entry, delivery, incrLink, readLink);
      if total.Failure? {
        return Response(StatusInternalServerError, ErrorBody("Failed to process log"));
      }
      return Response(StatusCreated, Created("Log saved", entry.id, total.value));
    }

    /** `GET /logs/:id`: a parameter that is not a 32-bit unsigned number is
        refused with 400 before the service is called; a service error is a
        404, and the entry found is returned with 200. */
    method GetLog(idParam: string, cacheLink: Outcome, dbLink: Outcome, setLink: Outcome) returns (resp: Response)
      requires service.Valid()
      modifies service.logRepo, service.cacheRepo
      ensures service.Valid()
      ensures ParseId(idParam).None? ==>
        resp == Response(StatusBadRequest, ErrorBody("Invalid ID format")) && unchanged(service.logRepo, service.cacheRepo)
      ensures ParseId(idParam).Some? ==>
        var id := ParseId(idParam).value;
        var hit := cacheLink.Ok? && RedisStats.Lookup(old(service.cacheRepo.data), id).Hit?;
        && (hit ==> resp == Response(StatusOK, EntryBody(RedisStats.Lookup(old(service.cacheRepo.data), id).entry)))
        && (!hit && dbLink.Ok? && id in old(service.logRepo.rows) ==>
              resp == Response(StatusOK, EntryBody(old(service.logRepo.rows)[id])) && resp.body.entry.id == id)
        && (!hit && (dbLink.Fail? || id !in old(service.logRepo.rows)) ==>
              resp == Response(StatusNotFound, ErrorBody("Log not found")))
        && service.logRepo.rows == old(service.logRepo.rows)
        && service.logRepo.creates == old(service.logRepo.creates)
        && (hit ==> unchanged(service.logRepo, service.cacheRepo))
        && (!hit ==> service.logRepo.lookups == old(service.logRepo.lookups) + [id])
        && (!hit && (dbLink.Fail? || id !in old(service.logRepo.rows)) ==> unchanged(service.cacheRepo))
        && (!hit && dbLink.Ok? && id in old(service.logRepo.rows) && Encodable(old(service.logRepo.rows)[id]) && setLink.Ok? ==>
              && service.cacheRepo.data == old(service.cacheRepo.data)[RedisStats.LogKey(id) := RedisStats.Blob(EntryDoc(old(service.logRepo.rows)[id]))]
              && service.cacheRepo.ttl == old(service.cacheRepo.ttl)[RedisStats.LogKey(id) := RedisStats.EntryTtlSeconds])
        && (!hit && dbLink.Ok? && id in old(service.logRepo.rows) && (!Encodable(old(service.logRepo.rows)[id]) || setLink.Fail?) ==>
              unchanged(service.cacheRepo))
        /* Cache-aside: after a 200 with a healthy write-back, the next read
           of that id is a cache hit on the entry returned. */
        && (resp.status == StatusOK && resp.body.EntryBody? && setLink.Ok? && Encodable(resp.body.entry) ==>
              RedisStats.Lookup(service.cacheRepo.data, id) == RedisStats.Hit(resp.body.entry))
    {
      var parsed := Decimal.ParseUint(idParam, 32);
      if !parsed.Value? {
        return Response(StatusBadRequest, ErrorBody("Invalid ID format"));
      }
      var entry := service.GetLog(parsed.n, cacheLink, dbLink, setLink);
      if entry.Failure? {
        return Response(StatusNotFound, ErrorBody("Log not found"));
      }
      return Response(StatusOK, EntryBody(entry.value));
    }

    /** `GET /logs/search?q=`: an empty query is refused with 400 before the
        index is asked; a search error is a 500; the results are returned
        with 200 and their count. */
    method SearchLogs(q: string, reply: EsRepository.SearchReply) returns (resp: Response)
      ensures q == [] ==> resp == Response(StatusBadRequest, ErrorBody("Query parameter 'q' is required"))
      ensures q != [] && EsRepository.SearchOutcome(reply).Failure? ==>
        resp == Response(StatusInternalServerError, ErrorBody("Search failed"))
      ensures q != [] && EsRepository.SearchOutcome(reply).Success? ==>
        var logs := EsRepository.SearchOutcome(reply).value;
        resp == Response(StatusOK, SearchResults(|logs|, logs))
    {
      if q == [] {
        return Response(StatusBadRequest, ErrorBody("Query parameter 'q' is required"));
      }
      var _, logs := service.SearchLogs(q, reply);
      if logs.Failure? {
        return Response(StatusInternalServerError, ErrorBody("Search failed"));
      }
      return Response(StatusOK, SearchResults(|logs.value|, logs.value));
    }
  }
}
