/** The analysis table of database.py: the status enum, the record shape with its defaults,
    and the table keyed by the primary key `id`, with the order records were inserted in. */
module Database {
  import opened Options

  /** `AnalysisStatus` (database.py:25-29). */
  datatype Status = Pending | Processing | Completed | Failed

  /** `status.value`, the string the API reports. */
  function StatusValue(s: Status): string {
    match s
    case Pending => "pending"
    case Processing => "processing"
    case Completed => "completed"
    case Failed => "failed"
  }

  /** `AnalysisStatus(v)`: the member whose value is `v`, if any. */
  function ParseStatus(v: string): Option<Status> {
    if v == "pending" then Some(Pending)
    else if v == "processing" then Some(Processing)
    else if v == "completed" then Some(Completed)
    else if v == "failed" then Some(Failed)
    else None
  }

  /** Every status has its own value, and the value names the status back. */
  lemma StatusValueRoundTrip(s: Status, v: string)
    ensures ParseStatus(StatusValue(s)) == Some(s)
    ensures ParseStatus(v) == Some(s) <==> v == StatusValue(s)
  {
  }

  /** A row of `analysis_results` (database.py:31-47). Times are readings of a clock;
      `None` is SQL NULL. */
  datatype Record = Record(
    id: string,
    filename: string,
    query: string,
    status: Status,
    result: Option<string>,
    error: Option<string>,
    createdAt: nat,
    completedAt: Option<nat>)

  /** `AnalysisResult(id=..., filename=..., query=..., status=PENDING)` as inserted at clock
      reading `now`: the nullable columns are unset and `created_at` takes the insert time. */
  function NewRecord(id: string, filename: string, query: string, now: nat): (r: Record)
    ensures r.id == id && r.filename == filename && r.query == query && r.createdAt == now
    ensures WellFormed(r) && r.status == Pending
  {
    Record(id, filename, query, Pending, None, None, now, None)
  }

  /** What every path through the handlers keeps true of a row: a pending row has no
      result, error or completion time; a completed row has a result; a failed row has an
      error; result and completion time are written together, completion after creation. */
  predicate WellFormed(r: Record) {
    && (r.status == Pending ==> r.result == None && r.error == None && r.completedAt == None)
    && (r.status == Completed ==> r.result.Some?)
    && (r.status == Failed ==> r.error.Some?)
    && (r.result.Some? <==> r.completedAt.Some?)
    && (r.completedAt.Some? ==> r.createdAt < r.completedAt.value)
  }

  /** The table: rows by primary key, and the keys in the order they were inserted. */
  datatype Table = Table(rows: map<string, Record>, order: seq<string>)

  /** The table's invariant at clock reading `clock`: the insertion order lists each key
      once and has strictly increasing creation times, every row is stored under its own id,
      is well formed, and holds only times already read. */
  predicate TableValid(t: Table, clock: nat) {
    KeysListed(t) && CreationOrdered(t) && RowsValid(t, clock)
  }

  predicate KeysListed(t: Table) {
    && (forall k :: k in t.rows ==> k in t.order)
    && (forall i :: 0 <= i < |t.order| ==> t.order[i] in t.rows)
  }

  predicate CreationOrdered(t: Table) {
    forall i, j :: 0 <= i < j < |t.order| && t.order[i] in t.rows && t.order[j] in t.rows ==>
      t.rows[t.order[i]].createdAt < t.rows[t.order[j]].createdAt
  }

  predicate RowsValid(t: Table, clock: nat) {
    forall k :: k in t.rows ==> RowValid(t.rows[k], k, clock)
  }

  predicate RowValid(r: Record, key: string, clock: nat) {
    r.id == key && WellFormed(r) && r.createdAt < clock
    && (r.completedAt.Some? ==> r.completedAt.value < clock)
  }

  function EmptyTable(): (t: Table)
    ensures TableValid(t, 0) && t.rows == map[]
  {
    Table(map[], [])
  }

  /** `db.add(record); db.commit()` for a key not yet in the table. */
  function Insert(t: Table, r: Record): Table
    requires r.id !in t.rows
  {
    Table(t.rows[r.id := r], t.order + [r.id])
  }

  /** `db.commit()` after assigning fields of the row stored under `key`. */
  function Update(t: Table, key: string, r: Record): Table
    requires key in t.rows
  {
    Table(t.rows[key := r], t.order)
  }

  /** The primary key: the insertion order never names a key twice. */
  lemma KeysUnique(t: Table, clock: nat, i: nat, j: nat)
    requires TableValid(t, clock) && i < j < |t.order|
    ensures t.order[i] != t.order[j]
  {
  }

  /** An insert at the current clock reading, which it then consumes, keeps the table
      valid, and adds exactly the new row at the end of the insertion order. */
  lemma InsertValid(t: Table, clock: nat, r: Record)
    requires TableValid(t, clock) && r.id !in t.rows
    requires WellFormed(r) && r.createdAt == clock && r.completedAt == None
    ensures TableValid(Insert(t, r), clock + 1)
    ensures Insert(t, r).rows.Keys == t.rows.Keys + {r.id}
  {
    InsertRowsValid(t, clock, r);
    InsertOrdered(t, clock, r);
  }

  lemma InsertRowsValid(t: Table, clock: nat, r: Record)
    requires RowsValid(t, clock) && r.id !in t.rows
    requires WellFormed(r) && r.createdAt == clock && r.completedAt == None
    ensures RowsValid(Insert(t, r), clock + 1)
  {
    var t' := Insert(t, r);
    forall k | k in t'.rows ensures RowValid(t'.rows[k], k, clock + 1) {
      if k != r.id { assert RowValid(t.rows[k], k, clock); }
    }
  }

  lemma InsertOrdered(t: Table, clock: nat, r: Record)
    requires KeysListed(t) && CreationOrdered(t) && RowsValid(t, clock) && r.id !in t.rows
    requires r.createdAt == clock
    ensures KeysListed(Insert(t, r)) && CreationOrdered(Insert(t, r))
  {
    var t' := Insert(t, r);
    forall i, j | 0 <= i < j < |t'.order| && t'.order[i] in t'.rows && t'.order[j] in t'.rows
      ensures t'.rows[t'.order[i]].createdAt < t'.rows[t'.order[j]].createdAt
    {
      assert t'.order[i] == t.order[i] && t.order[i] != r.id;
      assert RowValid(t.rows[t.order[i]], t.order[i], clock);
      if j < |t.order| {
        assert t'.order[j] == t.order[j] && t.order[j] != r.id;
      }
    }
  }

  /** Rewriting a row under its key, keeping its id and creation time, keeps the table
      valid when the new row is well formed and holds no future time. */
  lemma UpdateValid(t: Table, clock: nat, r: Record)
    requires TableValid(t, clock) && r.id in t.rows
    requires r.createdAt == t.rows[r.id].createdAt
    requires WellFormed(r) && (r.completedAt.Some? ==> r.completedAt.value < clock)
    ensures TableValid(Update(t, r.id, r), clock)
    ensures Update(t, r.id, r).rows.Keys == t.rows.Keys
  {
    var t' := Update(t, r.id, r);
    assert RowValid(t.rows[r.id], r.id, clock);
    forall k | k in t'.rows ensures RowValid(t'.rows[k], k, clock) {
      if k != r.id { assert RowValid(t.rows[k], k, clock); }
    }
  }

  /** Reading the clock keeps the table valid: times only have to lie in the past. */
  lemma LaterClockValid(t: Table, clock: nat, later: nat)
    requires TableValid(t, clock) && clock <= later
    ensures TableValid(t, later)
  {
    forall k | k in t.rows ensures RowValid(t.rows[k], k, later) {
      assert RowValid(t.rows[k], k, clock);
    }
  }
}
