/** The job lifecycle of main.py and celery_worker.py as functions on a world: the analysis
    table, the clock, the uploaded PDFs, the written reports, the open database sessions,
    the task queue, and a log of the externally visible steps in the order they happen.
    What the outside world decides (the pipeline's answer, whether a write or the broker
    fails) arrives as parameters. */
module Jobs {
  import opened Options
  import opened Strings
  import opened Database
  import opened PdfText
  import opened Requests

  /** A task message: the arguments of `analyze_document_task.delay(...)`. */
  datatype Message = Message(id: string, query: string, path: string)

  /** The steps the handlers take that someone else can observe. */
  datatype Event =
    | SessionOpened
    | SessionClosed
    | Committed(id: string, status: Status)
    | UploadWritten(path: string)
    | Extracted(path: string, text: string)
    | KickedOff(query: string, path: string, documentText: string)
    | ReportWritten(path: string)
    | FileRemoved(path: string)
    | Enqueued(message: Message)

  datatype World = World(
    table: Table,
    clock: nat,
    files: map<string, PdfFile>,
    reports: set<string>,
    openSessions: nat,
    queue: seq<Message>,
    log: seq<Event>)

  /** Whether a file-system, database or broker call returns or raises. */
  datatype Effect = Ok | Raise(message: string)

  /** What `crew.kickoff(...)` does: returns a result, whose `str` is `text`, or raises. */
  datatype CrewOutcome = Output(text: string) | Crash(message: string)

  /** The uploaded file: its name (`UploadFile.filename` may be None), its length in bytes
      and what PyMuPDF makes of its bytes. */
  datatype Upload = Upload(filename: Option<string>, size: nat, content: PdfFile)

  /** How the outside world behaves during one request of either endpoint. */
  datatype RequestFaults = RequestFaults(
    write: Effect, crew: CrewOutcome, report: Effect, remove: Effect, enqueue: Effect)

  /** How the outside world behaves during one attempt of the task. */
  datatype TaskFaults = TaskFaults(lookup: Effect, crew: CrewOutcome, report: Effect, remove: Effect)

  /** What the client of an endpoint receives. `Unhandled` is an exception the handler does
      not catch, which the framework turns into an internal server error. */
  datatype Response =
    | Success(analysisId: string, query: string, analysis: string,
              fileProcessed: Option<string>, outputFile: string)
    | Accepted(analysisId: string)
    | HttpError(code: nat, detail: string)
    | Unhandled(message: string)

  /** How one delivery of the task ends. */
  datatype Delivery =
    | RecordMissing
    | Finished(analysisId: string, outputFile: string)
    | RetryIn(countdown: nat, message: string)
    | GaveUp(message: string)

  const MaxRetries: nat := 2
  const RetryStep: nat := 30
  const ErrorPrefix := "Error processing financial document: "
  /** The message of the `IntegrityError` an insert under an existing primary key raises. */
  const DuplicateKey := "duplicate key value violates unique constraint"

  /** What holds of the world between requests: the table is valid at the current clock
      and every queued message names a row. */
  predicate Valid(w: World) {
    TableValid(w.table, w.clock) && QueueKnown(w)
  }

  predicate QueueKnown(w: World) {
    forall k :: 0 <= k < |w.queue| ==> w.queue[k].id in w.table.rows
  }

  // ----- single steps -----

  /** `SessionLocal()` (also inside `get_db`, database.py:75-77). */
  function OpenSession(w: World): World {
    w.(openSessions := w.openSessions + 1, log := w.log + [SessionOpened])
  }

  /** `db.close()`. */
  function CloseSession(w: World): World {
    w.(openSessions := if w.openSessions > 0 then w.openSessions - 1 else 0,
       log := w.log + [SessionClosed])
  }

  /** `db.add(record); db.commit()`: `created_at` read from the clock. */
  function AddRecord(w: World, r: Record): World
    requires r.id !in w.table.rows
  {
    w.(table := Insert(w.table, r), clock := w.clock + 1, log := w.log + [Committed(r.id, r.status)])
  }

  /** `db.commit()` after assigning fields of the row fetched under `key`. */
  function Commit(w: World, key: string, r: Record): World
    requires key in w.table.rows
  {
    w.(table := Update(w.table, key, r), log := w.log + [Committed(key, r.status)])
  }

  /** `datetime.datetime.utcnow()`: the clock moves on. */
  function Tick(w: World): World {
    w.(clock := w.clock + 1)
  }

  /** `open(file_path, "wb").write(content)`. */
  function WriteUpload(w: World, path: string, content: PdfFile): World {
    w.(files := w.files[path := content], log := w.log + [UploadWritten(path)])
  }

  /** The report file written at `path`. */
  function WriteReport(w: World, path: string): World {
    w.(reports := w.reports + {path}, log := w.log + [ReportWritten(path)])
  }

  /** `if os.path.exists(p): try: os.remove(p) except OSError: pass`. */
  function RemoveUpload(w: World, path: string, remove: Effect): World {
    if path in w.files && remove.Ok? then
      w.(files := w.files - {path}, log := w.log + [FileRemoved(path)])
    else w
  }

  /** `analyze_document_task.delay(...)`. */
  function Enqueue(w: World, m: Message): World {
    w.(queue := w.queue + [m], log := w.log + [Enqueued(m)])
  }

  /** `extract_pdf_text(file_path)` followed by `kickoff` with the query, the path and the
      extracted text (run_crew, main.py:75-104; celery_worker.py:69-76). */
  function RunPipeline(w: World, query: string, path: string): World {
    var text := ExtractedText(path, w.files);
    w.(log := w.log + [Extracted(path, text), KickedOff(query, path, text)])
  }

  /** The record after a successful kickoff: completed, with result and completion time. */
  function CompletedRecord(r: Record, text: string, now: nat): Record {
    r.(status := Completed, result := Some(text), completedAt := Some(now))
  }

  /** The record in an `except` branch: failed, with the exception's text. */
  function FailedRecord(r: Record, message: string): Record {
    r.(status := Failed, error := Some(message))
  }

  // ----- POST /analyze -----

  /** analyze_document (main.py:113-190) for a request whose fresh id is `id`: the pending
      record is added before the `try`; the `finally` removes the upload, and `get_db`
      closes the session around the whole handler. The upload path and the report path
      depend only on the request, so they are computed once here. */
  function SyncAnalyze(cfg: Config, w: World, id: string, up: Upload, query: string, f: RequestFaults): (World, Response) {
    var w1 := OpenSession(w);
    if id in w1.table.rows then (CloseSession(w1), Unhandled(DuplicateKey))
    else
      var rec := NewRecord(id, FilenameOrDefault(up.filename), query, w1.clock);
      var path := UploadPath(cfg, id);
      var out := OutputPath(cfg, FilenameOrDefault(up.filename), id);
      var (w2, resp) := SyncTry(AddRecord(w1, rec), rec, path, out, UploadLimit(cfg), TooLargeDetail(cfg), up, query, f);
      (CloseSession(RemoveUpload(w2, path, f.remove)), resp)
  }

  /** The `try` of analyze_document with its two `except` clauses; `limit` is the upload
      limit in bytes and `tooLarge` the detail of the 413. */
  function SyncTry(w: World, rec: Record, path: string, out: string, limit: nat, tooLarge: string,
                   up: Upload, query: string, f: RequestFaults): (World, Response)
    requires rec.id in w.table.rows
  {
    if up.size > limit then (w, HttpError(413, tooLarge))
    else if f.write.Raise? then SyncExcept(w, rec, f.write.message)
    else
      var r1 := rec.(status := Processing);
      var w1 := Commit(WriteUpload(w, path, up.content), rec.id, r1);
      SyncRun(RunPipeline(w1, PipelineQuery(query), path), r1, out, up.filename, query, f.crew, f.report)
  }

  /** The `try` of analyze_document from the moment `run_crew` returns or raises. */
  function SyncRun(w: World, r1: Record, out: string, filename: Option<string>, query: string,
                   crew: CrewOutcome, report: Effect): (World, Response)
    requires r1.id in w.table.rows
  {
    match crew
    case Crash(m) => SyncExcept(w, r1, m)
    case Output(text) =>
      var r2 := CompletedRecord(r1, text, w.clock);
      var w2 := Commit(Tick(w), r1.id, r2);
      if report.Raise? then SyncExcept(w2, r2, report.message)
      else (WriteReport(w2, out), Success(r1.id, NormalizeQuery(query), text, filename, out))
  }

  /** `except Exception as e`: the record fails with the message and the client gets a 500. */
  function SyncExcept(w: World, r: Record, message: string): (World, Response)
    requires r.id in w.table.rows
  {
    (Commit(w, r.id, FailedRecord(r, message)), HttpError(500, ErrorPrefix + message))
  }

  // ----- POST /analyze-async -----

  /** analyze_document_async (main.py:194-238): the upload is checked and written, then
      the pending record is added and the task queued. Nothing is cleaned up here. */
  function AsyncSubmit(cfg: Config, w: World, id: string, up: Upload, query: string, f: RequestFaults): (World, Response) {
    var w1 := OpenSession(w);
    if up.size > UploadLimit(cfg) then (CloseSession(w1), HttpError(413, TooLargeDetail(cfg)))
    else if f.write.Raise? then (CloseSession(w1), Unhandled(f.write.message))
    else
      var (w2, resp) := AsyncQueue(WriteUpload(w1, UploadPath(cfg, id), up.content), id, UploadPath(cfg, id),
                                   FilenameOrDefault(up.filename), PipelineQuery(query), f.enqueue);
      (CloseSession(w2), resp)
  }

  /** analyze_document_async once the upload is on disk: the record and the message. */
  function AsyncQueue(w: World, id: string, path: string, filename: string, q: string, enqueue: Effect): (World, Response) {
    if id in w.table.rows then (w, Unhandled(DuplicateKey))
    else
      var w1 := AddRecord(w, NewRecord(id, filename, q, w.clock));
      if enqueue.Raise? then (w1, Unhandled(enqueue.message))
      else (Enqueue(w1, Message(id, q, path)), Accepted(id))
  }

  // ----- the Celery task -----

  /** `raise self.retry(exc=exc, countdown=30 * (retries + 1))` with `max_retries=2`: a retry
      while retries remain, the exception itself once they are used up. */
  function RetryOrGiveUp(retries: nat, message: string): Delivery {
    if retries < MaxRetries then RetryIn(RetryStep * (retries + 1), message) else GaveUp(message)
  }

  /** One delivery of analyze_document_task (celery_worker.py:32-111) on its `retries`-th
      retry: the session, the `try`, and the `finally` that closes the session and then
      removes the upload. */
  function TaskAttempt(cfg: Config, w: World, msg: Message, retries: nat, f: TaskFaults): (World, Delivery) {
    var (w1, d) := TaskTry(cfg, OpenSession(w), msg, retries, f);
    (RemoveUpload(CloseSession(w1), msg.path, f.remove), d)
  }

  /** The `try` of the task with its `except`. */
  function TaskTry(cfg: Config, w: World, msg: Message, retries: nat, f: TaskFaults): (World, Delivery) {
    if f.lookup.Raise? then (w, RetryOrGiveUp(retries, f.lookup.message))
    else if msg.id !in w.table.rows then (w, RecordMissing)
    else
      var r1 := w.table.rows[msg.id].(status := Processing);
      var out := OutputPath(cfg, r1.filename, msg.id);
      TaskRun(RunPipeline(Commit(w, msg.id, r1), msg.query, msg.path), r1, msg.id, out, retries, f.crew, f.report)
  }

  /** The `try` of the task from the moment `kickoff` returns or raises; `out` is the
      report path the row's file name and the id give. */
  function TaskRun(w: World, r1: Record, key: string, out: string, retries: nat, crew: CrewOutcome, report: Effect): (World, Delivery)
    requires key in w.table.rows
  {
    match crew
    case Crash(m) => TaskExcept(w, r1, key, retries, m)
    case Output(text) =>
      var r2 := CompletedRecord(r1, text, w.clock);
      var w2 := Commit(Tick(w), key, r2);
      if report.Raise? then TaskExcept(w2, r2, key, retries, report.message)
      else (WriteReport(w2, out), Finished(key, out))
  }

  /** The `except` of the task with a record in hand. */
  function TaskExcept(w: World, r: Record, key: string, retries: nat, message: string): (World, Delivery)
    requires key in w.table.rows
  {
    (Commit(w, key, FailedRecord(r, message)), RetryOrGiveUp(retries, message))
  }

  /** The broker delivers the message again after each retry, with the retry count one
      higher; `faults[k]` is how the world behaves on the k-th remaining delivery. */
  function Deliveries(cfg: Config, w: World, msg: Message, retries: nat, faults: seq<TaskFaults>): (World, seq<Delivery>)
    requires retries <= MaxRetries && |faults| == MaxRetries + 1 - retries
    decreases MaxRetries - retries
  {
    var (w1, d) := TaskAttempt(cfg, w, msg, retries, faults[0]);
    if d.RetryIn? && retries < MaxRetries then
      var (w2, ds) := Deliveries(cfg, w1, msg, retries + 1, faults[1..]);
      (w2, [d] + ds)
    else (w1, [d])
  }

  // ----- what the steps keep -----

  /** The upload path's entry in `files` after the `finally` of either handler. */
  function FilesAfterRemoval(files: map<string, PdfFile>, path: string, remove: Effect): map<string, PdfFile> {
    if path in files && remove.Ok? then files - {path} else files
  }

  /** The log entry the removal adds, if any. */
  function RemovalEvents(files: map<string, PdfFile>, path: string, remove: Effect): seq<Event> {
    if path in files && remove.Ok? then [FileRemoved(path)] else []
  }

  /** The removal of the `finally`: the file is gone unless `os.remove` raised, and nothing
      but the files and the log changes. */
  lemma RemoveUploadFacts(w: World, path: string, remove: Effect)
    ensures var w' := RemoveUpload(w, path, remove);
            && w'.files == FilesAfterRemoval(w.files, path, remove)
            && w'.log == w.log + RemovalEvents(w.files, path, remove)
            && (remove.Ok? ==> path !in w'.files)
            && (remove.Raise? ==> w'.files == w.files)
            && w'.table == w.table && w'.clock == w.clock && w'.queue == w.queue
            && w'.reports == w.reports && w'.openSessions == w.openSessions
  {
  }

  /** Adding a fresh, well-formed pending record keeps the world valid. */
  lemma AddRecordValid(w: World, r: Record)
    requires Valid(w) && r.id !in w.table.rows
    requires WellFormed(r) && r.createdAt == w.clock && r.completedAt == None
    ensures Valid(AddRecord(w, r))
  {
    InsertValid(w.table, w.clock, r);
  }

  /** Committing new field values for a row keeps the world valid when the row keeps its
      key and creation time, stays well formed and holds no future time. */
  lemma CommitValid(w: World, key: string, r: Record)
    requires Valid(w) && key in w.table.rows && r.id == key
    requires r.createdAt == w.table.rows[key].createdAt
    requires WellFormed(r) && (r.completedAt.Some? ==> r.completedAt.value < w.clock)
    ensures Valid(Commit(w, key, r))
  {
    UpdateValid(w.table, w.clock, r);
  }

  lemma TickValid(w: World)
    requires Valid(w)
    ensures Valid(Tick(w))
  {
    LaterClockValid(w.table, w.clock, w.clock + 1);
  }

  /** A row of a valid world: stored under its id, well formed, in the past. */
  lemma RowOf(w: World, key: string)
    requires Valid(w) && key in w.table.rows
    ensures RowValid(w.table.rows[key], key, w.clock)
  {
  }
}
