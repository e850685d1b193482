/** The durable store of log entries (MySQL behind GORM), at the interface
    `domain.LogRepository` declares: `Create` and `GetByID`. Rows are keyed
    by id and each row carries its own id. */
module LogStore {
  import opened Domain

  const RecordNotFound := Error("record not found")

  /** What the database did with one insert: the id it assigned, or the
      error it returned. */
  datatype DbWrite = Inserted(id: nat) | WriteFailed(error: Error)

  /** The entry as the caller holds it after `Create`: GORM writes the
      assigned id back into the struct it was given. */
  function AfterCreate(e: LogEntry, w: DbWrite): (r: LogEntry)
    ensures w.Inserted? ==> r.id == w.id
    ensures w.WriteFailed? ==> r == e
    ensures r == e.(id := r.id)
  {
    if w.Inserted? then e.(id := w.id) else e
  }

  class LogRepository {
    var rows: map<nat, LogEntry>
    /** Every entry handed to `Create`, in call order. */
    var creates: seq<LogEntry>
    /** Every id looked up with `GetByID`, in call order. */
    var lookups: seq<nat>

    ghost predicate Valid()
      reads this
    {
      forall id :: id in rows ==> rows[id].id == id
    }

    constructor ()
      ensures Valid() && rows == map[] && creates == [] && lookups == []
    {
      rows := map[];
      creates := [];
      lookups := [];
    }

    /** `Create`: on success the row is stored under the assigned id and the
        caller's entry carries that id; on failure nothing is stored. */
    method Create(entry: LogEntry, w: DbWrite) returns (stored: LogEntry, err: Option<Error>)
      requires Valid()
      requires w.Inserted? ==> w.id !in rows
      modifies this
      ensures Valid()
      ensures stored == AfterCreate(entry, w)
      ensures creates == old(creates) + [entry] && lookups == old(lookups)
      ensures w.WriteFailed? ==> err == Some(w.error) && rows == old(rows)
      ensures w.Inserted? ==> err == None && rows == old(rows)[w.id := stored]
    {
      creates := creates + [entry];
      if w.WriteFailed? {
        return entry, Some(w.error);
      }
      stored := entry.(id := w.id);
      rows := rows[w.id := stored];
      err := None;
    }

    /** `GetByID`: the row with that id, "record not found" when there is
        none, or the error of an unreachable database. */
    method GetByID(id: nat, link: Outcome) returns (r: Result<LogEntry>)
      requires Valid()
      modifies this
      ensures Valid() && rows == old(rows) && creates == old(creates)
      ensures lookups == old(lookups) + [id]
      ensures link.Fail? ==> r == Failure(link.error)
      ensures link.Ok? && id in rows ==> r == Success(rows[id]) && r.value.id == id
      ensures link.Ok? && id !in rows ==> r == Failure(RecordNotFound)
    {
      lookups := lookups + [id];
      if link.Fail? {
        return Failure(link.error);
      }
      if id !in rows {
        return Failure(RecordNotFound);
      }
      return Success(rows[id]);
    }
  }
}
