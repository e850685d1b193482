/** The per-partition batching consumer (`ConsumeClaim` in
    internal/repository/kafka_consumer.go). One worker owns one partition
    claim: every message is written to the durable store one by one and
    buffered for the search index, and the buffer is bulk-indexed when it
    reaches 100 entries, on every tick, and once more when the session ends
    or the stream closes. The `select` over the message channel, the ticker
    and the session's context becomes a sequence of events; each event also
    carries what the stores answered while it was handled. */
module KafkaConsumer {
  import opened Domain
  import opened LogStore

  const BatchSize: nat := 100
  /** The ticker period; ticks arrive as events, so time itself is not modelled. */
  const FlushIntervalMillis: nat := 1000

  /** A record of the claimed partition: its offset and its raw value. */
  datatype Message = Message(offset: nat, value: Json)

  /** One turn of the `select`. `db` is what the database did with this
      message's insert; `index` is what `BulkIndex` answers if this turn
      flushes. */
  datatype Event =
    | Arrived(msg: Message, db: DbWrite, index: Outcome)
    | Tick(index: Outcome)
    | SessionDone(index: Outcome)
    | StreamClosed(index: Outcome)

  /** The turns after which `ConsumeClaim` returns. */
  predicate Ends(e: Event) {
    e.SessionDone? || e.StreamClosed?
  }

  /** The worker's log lines, one per "log and continue" branch. */
  datatype Notice =
    | Skipped(offset: nat, error: Error)
    | NotSaved(offset: nat, error: Error)
    | BulkFailed(count: nat, error: Error)
    | BulkDone(count: nat)

  function FlushNotice(count: nat, index: Outcome): Notice {
    if index.Ok? then BulkDone(count) else BulkFailed(count, index.error)
  }

  /** The offsets of the messages received, in arrival order. */
  function Offsets(events: seq<Event>): seq<nat> {
    if events == [] then []
    else
      var e := events[|events| - 1];
      Offsets(events[..|events| - 1]) + (if e.Arrived? then [e.msg.offset] else [])
  }

  /** The entries of the received messages that decode, in arrival order:
      what the worker hands to `Create`. */
  function Decoded(events: seq<Event>): seq<LogEntry> {
    if events == [] then []
    else
      var e := events[|events| - 1];
      var d := if e.Arrived? then Unmarshal(e.msg.value) else Failure(SyntaxError);
      Decoded(events[..|events| - 1]) + (if d.Success? then [d.value] else [])
  }

  /** The same entries as `Create` leaves them (with the id the database
      assigned): what the worker buffers for the search index. */
  function Indexed(events: seq<Event>): seq<LogEntry> {
    if events == [] then []
    else
      var e := events[|events| - 1];
      var d := if e.Arrived? then Unmarshal(e.msg.value) else Failure(SyntaxError);
      Indexed(events[..|events| - 1]) + (if d.Success? then [AfterCreate(d.value, e.db)] else [])
  }

  /** The database rows after the inserts of these events. */
  function Saved(rows: map<nat, LogEntry>, events: seq<Event>): map<nat, LogEntry> {
    if events == [] then rows
    else
      var e := events[|events| - 1];
      var before := Saved(rows, events[..|events| - 1]);
      var d := if e.Arrived? then Unmarshal(e.msg.value) else Failure(SyntaxError);
      if d.Success? && e.db.Inserted? then before[e.db.id := AfterCreate(d.value, e.db)] else before
  }

  /** All bulk-index calls laid end to end. */
  function Concat(calls: seq<seq<LogEntry>>): seq<LogEntry> {
    if calls == [] then [] else Concat(calls[..|calls| - 1]) + calls[|calls| - 1]
  }

  /** The search index receives exactly the entries the database was asked to
      write, in the same order, differing at most in the id assigned. */
  lemma {:induction false} IndexedMatchesDecoded(events: seq<Event>)
    ensures |Indexed(events)| == |Decoded(events)|
    ensures forall k :: 0 <= k < |Decoded(events)| ==>
      Indexed(events)[k] == Decoded(events)[k].(id := Indexed(events)[k].id)
  {
    if events != [] {
      IndexedMatchesDecoded(events[..|events| - 1]);
    }
  }

  /** Every entry written comes from a message that is marked: at most as
      many writes as marks, and exactly as many when every message decodes. */
  lemma {:induction false} WritesAtMostMarks(events: seq<Event>)
    ensures |Decoded(events)| <= |Offsets(events)|
    ensures (forall i :: 0 <= i < |events| && events[i].Arrived? ==> Unmarshal(events[i].msg.value).Success?)
            ==> |Decoded(events)| == |Offsets(events)|
  {
    if events != [] {
      WritesAtMostMarks(events[..|events| - 1]);
    }
  }

  /** What the worker has done to the search index and its log so far: the
      argument of every `BulkIndex` call in call order, the buffer, and the
      log lines. */
  datatype Worker = Worker(calls: seq<seq<LogEntry>>, buffer: seq<LogEntry>, notices: seq<Notice>)

  /** The `flush` closure on a worker: nothing for an empty buffer, otherwise
      one call with the whole buffer, its log line, and an empty buffer. */
  function FlushStep(w: Worker, index: Outcome): Worker {
    if w.buffer == [] then w
    else Worker(w.calls + [w.buffer], [], w.notices + [FlushNotice(|w.buffer|, index)])
  }

  /** One turn of the `select` on a worker. A message that does not decode
      is logged and skipped; one that does is buffered as `Create` left it
      (a failed insert is logged first) and the buffer is flushed once it
      holds 100 entries. Every other turn flushes. */
  function Step(w: Worker, e: Event): Worker {
    match e
    case Arrived(msg, db, index) =>
      var d := Unmarshal(msg.value);
      if d.Failure? then w.(notices := w.notices + [Skipped(msg.offset, d.error)])
      else
        var logged := if db.WriteFailed? then w.notices + [NotSaved(msg.offset, db.error)] else w.notices;
        var grown := Worker(w.calls, w.buffer + [AfterCreate(d.value, db)], logged);
        if |grown.buffer| >= BatchSize then FlushStep(grown, index) else grown
    case Tick(index) => FlushStep(w, index)
    case SessionDone(index) => FlushStep(w, index)
    case StreamClosed(index) => FlushStep(w, index)
  }

  /** The worker after the given turns, taken in order. */
  function Run(w: Worker, events: seq<Event>): Worker {
    if events == [] then w else Step(Run(w, events[..|events| - 1]), events[|events| - 1])
  }

  /** The worker's standing bounds: the buffer is below the batch size
      between turns, and no call is empty or larger than a batch. */
  predicate Bounded(w: Worker) {
    && |w.buffer| < BatchSize
    && forall i :: 0 <= i < |w.calls| ==> 0 < |w.calls[i]| <= BatchSize
  }

  /** The number of bulk-index log lines, successful or not. */
  function FlushNotices(notices: seq<Notice>): nat {
    if notices == [] then 0
    else
      var n := notices[|notices| - 1];
      FlushNotices(notices[..|notices| - 1]) + (if n.BulkDone? || n.BulkFailed? then 1 else 0)
  }

  lemma FlushNoticesSnoc(notices: seq<Notice>, n: Notice)
    ensures FlushNotices(notices + [n]) == FlushNotices(notices) + (if n.BulkDone? || n.BulkFailed? then 1 else 0)
  {
    assert (notices + [n])[..|notices|] == notices;
  }

  /** A turn only adds calls and log lines; it never rewrites earlier ones. */
  lemma StepExtends(w: Worker, e: Event)
    ensures w.calls <= Step(w, e).calls && w.notices <= Step(w, e).notices
  {
  }

  lemma {:induction false} RunExtends(w: Worker, events: seq<Event>)
    ensures w.calls <= Run(w, events).calls && w.notices <= Run(w, events).notices
  {
    if events != [] {
      RunExtends(w, events[..|events| - 1]);
      StepExtends(Run(w, events[..|events| - 1]), events[|events| - 1]);
    }
  }

  /** A turn hands the index, through calls and the buffer, exactly the
      entries it buffers. */
  lemma StepConcat(w: Worker, e: Event)
    ensures Concat(Step(w, e).calls) + Step(w, e).buffer == Concat(w.calls) + w.buffer + Indexed([e])
  {
    assert [e][..0] == [];
    ConcatSnoc(w.calls, w.buffer);
    if e.Arrived? && Unmarshal(e.msg.value).Success? {
      ConcatSnoc(w.calls, w.buffer + [AfterCreate(Unmarshal(e.msg.value).value, e.db)]);
    }
  }

  /** Nothing is lost or reordered: the calls followed by the buffer are the
      starting calls and buffer followed by every entry buffered. */
  lemma {:induction false} RunConcat(w: Worker, events: seq<Event>)
    ensures Concat(Run(w, events).calls) + Run(w, events).buffer == Concat(w.calls) + w.buffer + Indexed(events)
  {
    if events != [] {
      var n := |events| - 1;
      RunConcat(w, events[..n]);
      StepConcat(Run(w, events[..n]), events[n]);
      assert [events[n]][..0] == [];
    }
  }

  lemma {:induction false} RunBounded(w: Worker, events: seq<Event>)
    requires Bounded(w)
    ensures Bounded(Run(w, events))
  {
    if events != [] {
      RunBounded(w, events[..|events| - 1]);
    }
  }

  /** A flush made on a message turn always carries exactly one full batch
      and leaves the buffer empty; a message turn flushes at most once. */
  lemma StepFullBatch(w: Worker, e: Event)
    requires Bounded(w) && e.Arrived?
    ensures |w.calls| <= |Step(w, e).calls| <= |w.calls| + 1
    ensures |Step(w, e).calls| == |w.calls| + 1 ==>
      |Step(w, e).calls[|w.calls|]| == BatchSize && Step(w, e).buffer == []
  {
  }

  /** While only messages arrive, every call made is a full batch of 100,
      and the entries buffered are those 100-entry calls plus what is left
      in the buffer. */
  lemma {:induction false} MessagesFillBatches(w: Worker, events: seq<Event>)
    requires Bounded(w)
    requires forall i :: 0 <= i < |events| ==> events[i].Arrived?
    ensures |w.calls| <= |Run(w, events).calls|
    ensures forall i :: |w.calls| <= i < |Run(w, events).calls| ==> |Run(w, events).calls[i]| == BatchSize
    ensures |w.buffer| + |Indexed(events)| == BatchSize * (|Run(w, events).calls| - |w.calls|) + |Run(w, events).buffer|
  {
    if events != [] {
      var n := |events| - 1;
      var v := Run(w, events[..n]);
      MessagesFillBatches(w, events[..n]);
      RunBounded(w, events[..n]);
      StepFullBatch(v, events[n]);
      StepExtends(v, events[n]);
      assert [events[n]][..0] == [];
    }
  }

  /** A turn adds one bulk-index log line exactly when it makes a call. */
  lemma StepFlushNotices(w: Worker, e: Event)
    ensures FlushNotices(Step(w, e).notices) == FlushNotices(w.notices) + |Step(w, e).calls| - |w.calls|
    ensures |w.calls| <= |Step(w, e).calls|
  {
    if e.Arrived? && Unmarshal(e.msg.value).Success? {
      var logged := if e.db.WriteFailed? then w.notices + [NotSaved(e.msg.offset, e.db.error)] else w.notices;
      if e.db.WriteFailed? {
        FlushNoticesSnoc(w.notices, NotSaved(e.msg.offset, e.db.error));
      }
      FlushNoticesSnoc(logged, FlushNotice(|w.buffer| + 1, e.index));
    } else if e.Arrived? {
      FlushNoticesSnoc(w.notices, Skipped(e.msg.offset, Unmarshal(e.msg.value).error));
    } else {
      FlushNoticesSnoc(w.notices, FlushNotice(|w.buffer|, e.index));
    }
  }

  /** Exactly one bulk-index log line per call made. */
  lemma {:induction false} RunFlushNotices(w: Worker, events: seq<Event>)
    ensures FlushNotices(Run(w, events).notices) == FlushNotices(w.notices) + |Run(w, events).calls| - |w.calls|
    ensures |w.calls| <= |Run(w, events).calls|
  {
    if events != [] {
      RunFlushNotices(w, events[..|events| - 1]);
      StepFlushNotices(Run(w, events[..|events| - 1]), events[|events| - 1]);
    }
  }

  /** The database never reuses an id: the id of every successful insert is
      new to the rows as they stand when it is made. */
  predicate FreshInsert(rows: map<nat, LogEntry>, e: Event) {
    e.Arrived? && Unmarshal(e.msg.value).Success? && e.db.Inserted? ==> e.db.id !in rows
  }

  predicate FreshInserts(rows: map<nat, LogEntry>, events: seq<Event>) {
    forall i :: 0 <= i < |events| ==> FreshInsert(Saved(rows, events[..i]), events[i])
  }

  class PartitionConsumer {
    const db: LogRepository
    /** The buffer for the search index. */
    var batch: seq<LogEntry>
    /** The offsets marked consumed on the session, in marking order. */
    var marked: seq<nat>
    /** The argument of every `BulkIndex` call, in call order. */
    var bulkCalls: seq<seq<LogEntry>>
    var notices: seq<Notice>

    /** The worker as seen by the search index and the log. */
    function State(): Worker
      reads this
    {
      Worker(bulkCalls, batch, notices)
    }

    ghost predicate Valid()
      reads this, db
    {
      db.Valid() && Bounded(State())
    }

    constructor (db: LogRepository)
      requires db.Valid()
      ensures Valid() && this.db == db
      ensures batch == [] && marked == [] && bulkCalls == [] && notices == []
    {
      this.db := db;
      batch := [];
      marked := [];
      bulkCalls := [];
      notices := [];
    }

    /** The `flush` closure: nothing at all for an empty buffer; otherwise one
        `BulkIndex` call with the whole buffer, then an empty buffer whether
        or not the call failed. */
    method Flush(index: Outcome)
      requires |batch| <= BatchSize
      requires forall i :: 0 <= i < |bulkCalls| ==> 0 < |bulkCalls[i]| <= BatchSize
      modifies this
      ensures forall i :: 0 <= i < |bulkCalls| ==> 0 < |bulkCalls[i]| <= BatchSize
      ensures old(batch) == [] ==> unchanged(this)
      ensures old(batch) != [] ==>
        && bulkCalls == old(bulkCalls) + [old(batch)]
        && batch == []
        && notices == old(notices) + [FlushNotice(|old(batch)|, index)]
      ensures marked == old(marked)
      ensures State() == FlushStep(old(State()), index)
      ensures old(bulkCalls) <= bulkCalls && old(notices) <= notices
    {
      if |batch| == 0 {
        return;
      }
      bulkCalls := bulkCalls + [batch];
      notices := notices + [FlushNotice(|batch|, index)];
      batch := [];
    }

    /** The message branch of the `select`. A message that does not decode is
        marked and skipped. Otherwise it is written to the database, appended
        to the buffer even if the write failed, the buffer is flushed if it
        has reached 100, and only then is the message marked. */
    method Receive(msg: Message, w: DbWrite, index: Outcome)
      requires Valid()
      requires FreshInsert(db.rows, Arrived(msg, w, index))
      modifies this, db
      ensures Valid()
      ensures State() == Step(old(State()), Arrived(msg, w, index))
      ensures old(bulkCalls) <= bulkCalls && old(notices) <= notices
      ensures marked == old(marked) + [msg.offset]
      ensures db.lookups == old(db.lookups)
      ensures Unmarshal(msg.value).Failure? ==>
        && batch == old(batch) && bulkCalls == old(bulkCalls)
        && db.creates == old(db.creates) && db.rows == old(db.rows)
        && notices == old(notices) + [Skipped(msg.offset, Unmarshal(msg.value).error)]
      ensures Unmarshal(msg.value).Success? ==>
        var stored := AfterCreate(Unmarshal(msg.value).value, w);
        && db.creates == old(db.creates) + [Unmarshal(msg.value).value]
        && db.rows == (if w.Inserted? then old(db.rows)[w.id := stored] else old(db.rows))
        && (|old(batch)| + 1 == BatchSize ==> bulkCalls == old(bulkCalls) + [old(batch) + [stored]] && batch == [])
        && (|old(batch)| + 1 < BatchSize ==> bulkCalls == old(bulkCalls) && batch == old(batch) + [stored])
    {
      var entry := Unmarshal(msg.value);
      if entry.Failure? {
        notices := notices + [Skipped(msg.offset, entry.error)];
        marked := marked + [msg.offset];
        return;
      }
      var stored, err := db.Create(entry.value, w);
      if err.Some? {
        notices := notices + [NotSaved(msg.offset, err.value)];
      }
      batch := batch + [stored];
      if |batch| >= BatchSize {
        Flush(index);
      }
      marked := marked + [msg.offset];
    }

    /** One turn of the `select`: a message is received; a tick flushes and
        the loop goes on; session done or stream closed flushes the remainder
        and the loop returns (`stop`). What the turn hands the search index
        follows from its step (`StepConcat`). */
    method Handle(e: Event) returns (stop: bool)
      requires Valid()
      requires FreshInsert(db.rows, e)
      modifies this, db
      ensures Valid()
      ensures State() == Step(old(State()), e)
      ensures old(bulkCalls) <= bulkCalls && old(notices) <= notices
      ensures stop == Ends(e)
      ensures db.lookups == old(db.lookups)
      ensures !e.Arrived? ==> batch == []
      ensures !e.Arrived? && old(batch) == [] ==> bulkCalls == old(bulkCalls)
      ensures marked == old(marked) + Offsets([e])
      ensures db.creates == old(db.creates) + Decoded([e])
      ensures db.rows == Saved(old(db.rows), [e])
    {
      ghost var before := State();
      if e.Arrived? {
        Receive(e.msg, e.db, e.index);
      } else {
        Flush(e.index);
      }
      stop := e.SessionDone? || e.StreamClosed?;
      SingleTurn(e);
      StepExtends(before, e);
    }

    /** `ConsumeClaim`, run over the turns of its `select`. It consumes turns
        up to and including the first session-done or stream-closed turn,
        which flushes the remainder and returns; if there is none, every turn
        is consumed and the worker is still waiting (`returned` is false).
        The buffer starts empty, as the local slice does. */
    method ConsumeClaim(events: seq<Event>) returns (consumed: nat, returned: bool)
      requires Valid()
      requires FreshInserts(db.rows, events)
      modifies this, db
      ensures Valid()
      ensures consumed <= |events|
      ensures State() == Run(Worker(old(bulkCalls), [], old(notices)), events[..consumed])
      ensures old(bulkCalls) <= bulkCalls && old(notices) <= notices
      ensures returned ==> 0 < consumed && Ends(events[consumed - 1]) && batch == []
      ensures !returned ==> consumed == |events|
      ensures forall i :: 0 <= i < consumed && (i < consumed - 1 || !returned) ==> !Ends(events[i])
      ensures marked == old(marked) + Offsets(events[..consumed])
      ensures db.creates == old(db.creates) + Decoded(events[..consumed])
      ensures db.rows == Saved(old(db.rows), events[..consumed])
      ensures db.lookups == old(db.lookups)
      ensures Concat(bulkCalls) + batch == Concat(old(bulkCalls)) + Indexed(events[..consumed])
      ensures returned ==> Concat(bulkCalls) == Concat(old(bulkCalls)) + Indexed(events[..consumed])
    {
      batch := [];
      ghost var start := Worker(old(bulkCalls), [], old(notices));
      consumed, returned := 0, false;
      while consumed < |events| && !returned
        invariant consumed <= |events|
        invariant Valid()
        invariant db.lookups == old(db.lookups)
        invariant returned ==> 0 < consumed && Ends(events[consumed - 1]) && batch == []
        invariant forall i :: 0 <= i < consumed && (i < consumed - 1 || !returned) ==> !Ends(events[i])
        invariant After(events, consumed, old(marked), old(db.creates), old(db.rows), start,
                        Trace(marked, db.creates, db.rows, State()))
        decreases |events| - consumed, if returned then 0 else 1
      {
        assert FreshInsert(db.rows, events[consumed]);
        ghost var marked0, creates0, rows0, before := marked, db.creates, db.rows, State();
        returned := Handle(events[consumed]);
        TurnAdvances(events, consumed, old(marked), old(db.creates), old(db.rows), start,
          Trace(marked0, creates0, rows0, before), Trace(marked, db.creates, db.rows, State()));
        consumed := consumed + 1;
      }
      ClaimTraces(events, consumed, old(marked), old(db.creates), old(db.rows), old(bulkCalls), old(notices),
        Trace(marked, db.creates, db.rows, State()));
    }
  }

  /** The traces of a single turn. */
  lemma SingleTurn(e: Event)
    ensures Offsets([e]) == if e.Arrived? then [e.msg.offset] else []
    ensures e.Arrived? && Unmarshal(e.msg.value).Success? ==>
      && Decoded([e]) == [Unmarshal(e.msg.value).value]
      && Indexed([e]) == [AfterCreate(Unmarshal(e.msg.value).value, e.db)]
    ensures !(e.Arrived? && Unmarshal(e.msg.value).Success?) ==> Decoded([e]) == [] && Indexed([e]) == []
    ensures e.Arrived? && Unmarshal(e.msg.value).Success? && e.db.Inserted? ==>
      forall rows :: Saved(rows, [e]) == rows[e.db.id := AfterCreate(Unmarshal(e.msg.value).value, e.db)]
    ensures !(e.Arrived? && Unmarshal(e.msg.value).Success? && e.db.Inserted?) ==>
      forall rows :: Saved(rows, [e]) == rows
  {
    assert [e][..0] == [];
  }

  lemma AppendAssoc<T>(a: seq<T>, b: seq<T>, c: seq<T>)
    ensures a + b + c == a + (b + c)
  {
  }

  lemma ConcatSnoc(calls: seq<seq<LogEntry>>, c: seq<LogEntry>)
    ensures Concat(calls + [c]) == Concat(calls) + c
  {
    assert (calls + [c])[..|calls|] == calls;
  }

  /** What a turn leaves behind: the marks, the inserts asked for, the rows
      and the worker. */
  datatype Trace = Trace(marked: seq<nat>, creates: seq<LogEntry>, rows: map<nat, LogEntry>, worker: Worker)

  /** The traces after the first `n` turns, from the given start. */
  ghost predicate After(events: seq<Event>, n: nat, marked: seq<nat>, creates: seq<LogEntry>,
                        rows: map<nat, LogEntry>, start: Worker, t: Trace)
    requires n <= |events|
  {
    && t.marked == marked + Offsets(events[..n])
    && t.creates == creates + Decoded(events[..n])
    && t.rows == Saved(rows, events[..n])
    && t.worker == Run(start, events[..n])
  }

  /** What the traces after a prefix of turns say about each trace. */
  lemma ClaimTraces(events: seq<Event>, n: nat, marked: seq<nat>, creates: seq<LogEntry>,
                    rows: map<nat, LogEntry>, calls: seq<seq<LogEntry>>, notices: seq<Notice>, t: Trace)
    requires n <= |events|
    requires After(events, n, marked, creates, rows, Worker(calls, [], notices), t)
    ensures t.marked == marked + Offsets(events[..n])
    ensures t.creates == creates + Decoded(events[..n])
    ensures t.rows == Saved(rows, events[..n])
    ensures t.worker == Run(Worker(calls, [], notices), events[..n])
    ensures calls <= t.worker.calls && notices <= t.worker.notices
    ensures Concat(t.worker.calls) + t.worker.buffer == Concat(calls) + Indexed(events[..n])
  {
    RunExtends(Worker(calls, [], notices), events[..n]);
    RunConcat(Worker(calls, [], notices), events[..n]);
    assert Concat(calls) + [] == Concat(calls);
  }

  /** One more turn, handled as `Handle` promises, extends the consumed
      prefix by one. */
  lemma TurnAdvances(events: seq<Event>, n: nat, marked: seq<nat>, creates: seq<LogEntry>,
                     rows: map<nat, LogEntry>, start: Worker, t: Trace, t': Trace)
    requires n < |events|
    requires After(events, n, marked, creates, rows, start, t)
    requires t'.marked == t.marked + Offsets([events[n]])
    requires t'.creates == t.creates + Decoded([events[n]])
    requires t'.rows == Saved(t.rows, [events[n]])
    requires t'.worker == Step(t.worker, events[n])
    ensures After(events, n + 1, marked, creates, rows, start, t')
  {
    PrefixStep(events, n, rows);
    AppendAssoc(marked, Offsets(events[..n]), Offsets([events[n]]));
    AppendAssoc(creates, Decoded(events[..n]), Decoded([events[n]]));
    assert events[..n + 1][..n] == events[..n];
  }

  /** Extending the consumed prefix by one turn extends each trace by that
      turn's contribution. */
  lemma PrefixStep(events: seq<Event>, n: nat, rows: map<nat, LogEntry>)
    requires n < |events|
    ensures Offsets(events[..n + 1]) == Offsets(events[..n]) + Offsets([events[n]])
    ensures Decoded(events[..n + 1]) == Decoded(events[..n]) + Decoded([events[n]])
    ensures Saved(rows, events[..n + 1]) == Saved(Saved(rows, events[..n]), [events[n]])
  {
    assert events[..n + 1][..n] == events[..n];
    assert [events[n]][..0] == [];
  }
}
