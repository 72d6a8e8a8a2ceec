/** The running service: the state the handlers of main.py and the task of celery_worker.py
    change, as the fields of one object, and the handlers as methods that change them step
    by step in the order the source does. Each handler is proved to do exactly what the
    corresponding function of the Jobs module says, and to keep the world valid. */
module Server {
  import opened Options
  import opened Strings
  import opened Database
  import opened PdfText
  import opened Requests
  import opened Jobs
  import TaskProperties
  import HandlerProperties

  class App {
    const cfg: Config
    var table: Table
    var clock: nat
    var files: map<string, PdfFile>
    var reports: set<string>
    var openSessions: nat
    var queue: seq<Message>
    var log: seq<Event>

    function State(): World
      reads this
    {
      World(table, clock, files, reports, openSessions, queue, log)
    }

    predicate Valid()
      reads this
    {
      Jobs.Valid(State())
    }

    /** An empty database, no uploads, no reports, nothing queued. */
    constructor (cfg: Config)
      ensures Valid() && this.cfg == cfg
      ensures table == EmptyTable() && files == map[] && reports == {} && queue == []
      ensures openSessions == 0 && log == []
    {
      this.cfg := cfg;
      table := EmptyTable();
      clock := 0;
      files := map[];
      reports := {};
      openSessions := 0;
      queue := [];
      log := [];
    }

    // ----- the calls the handlers make -----

    method Open()
      modifies this
      ensures State() == OpenSession(old(State()))
    {
      openSessions := openSessions + 1;
      log := log + [SessionOpened];
    }

    method Close()
      modifies this
      ensures State() == CloseSession(old(State()))
    {
      openSessions := if openSessions > 0 then openSessions - 1 else 0;
      log := log + [SessionClosed];
    }

    /** `db.add(record); db.commit()`, with `created_at` as the default fills it in. */
    method Add(r: Record)
      requires r.id !in table.rows
      modifies this
      ensures State() == AddRecord(old(State()), r)
    {
      table := Insert(table, r);
      clock := clock + 1;
      log := log + [Committed(r.id, r.status)];
    }

    /** `db.commit()` after the fields of the row under `key` were assigned `r`'s values. */
    method Save(key: string, r: Record)
      requires key in table.rows
      modifies this
      ensures State() == Commit(old(State()), key, r)
    {
      table := Update(table, key, r);
      log := log + [Committed(key, r.status)];
    }

    /** `datetime.datetime.utcnow()`. */
    method Now() returns (t: nat)
      modifies this
      ensures t == old(clock) && State() == Tick(old(State()))
    {
      t := clock;
      clock := clock + 1;
    }

    method WriteFile(path: string, content: PdfFile)
      modifies this
      ensures State() == WriteUpload(old(State()), path, content)
    {
      files := files[path := content];
      log := log + [UploadWritten(path)];
    }

    method WriteReportFile(path: string)
      modifies this
      ensures State() == WriteReport(old(State()), path)
    {
      reports := reports + {path};
      log := log + [ReportWritten(path)];
    }

    /** `if os.path.exists(path): try: os.remove(path) except OSError: pass` */
    method RemoveFile(path: string, remove: Effect)
      modifies this
      ensures State() == RemoveUpload(old(State()), path, remove)
    {
      if path in files {
        if remove.Ok? {
          files := files - {path};
          log := log + [FileRemoved(path)];
        }
      }
    }

    /** `document_text = extract_pdf_text(file_path)`, then `crew.kickoff(inputs=...)`. */
    method Kickoff(query: string, path: string)
      modifies this
      ensures State() == RunPipeline(old(State()), query, path)
    {
      var documentText := ExtractPdfText(path, files);
      log := log + [Extracted(path, documentText), KickedOff(query, path, documentText)];
    }

    method Delay(m: Message)
      modifies this
      ensures State() == Enqueue(old(State()), m)
    {
      queue := queue + [m];
      log := log + [Enqueued(m)];
    }

    // ----- POST /analyze -----

    /** analyze_document (main.py:113-190). */
    method AnalyzeDocument(id: string, up: Upload, query: string, f: RequestFaults) returns (resp: Response)
      requires Valid()
      modifies this
      ensures Valid()
      ensures (State(), resp) == SyncAnalyze(cfg, old(State()), id, up, query, f)
    {
      ghost var w := State();
      HandlerProperties.SyncKeepsValid(cfg, w, id, up, query, f);
      Open();
      if id in table.rows {
        Close();
        return Unhandled(DuplicateKey);
      }
      var filePath := UploadPath(cfg, id);
      var outPath := OutputPath(cfg, FilenameOrDefault(up.filename), id);
      var record := NewRecord(id, FilenameOrDefault(up.filename), query, clock);
      Add(record);
      resp := AnalyzeTry(record, filePath, outPath, up, query, f);
      RemoveFile(filePath, f.remove);
      Close();
    }

    /** The `try` of analyze_document and its `except` clauses. */
    method AnalyzeTry(record: Record, filePath: string, outPath: string, up: Upload, query: string, f: RequestFaults)
      returns (resp: Response)
      requires record.id in table.rows
      modifies this
      ensures (State(), resp)
           == SyncTry(old(State()), record, filePath, outPath, UploadLimit(cfg), TooLargeDetail(cfg), up, query, f)
    {
      var record := record;
      if up.size > UploadLimit(cfg) {
        return HttpError(413, TooLargeDetail(cfg));
      }
      if f.write.Raise? {
        resp := Except(record, f.write.message);
        return;
      }
      WriteFile(filePath, up.content);
      var q := NormalizeQuery(query);
      record := record.(status := Processing);
      Save(record.id, record);
      Kickoff(Strip(q), filePath);
      match f.crew {
        case Crash(m) =>
          resp := Except(record, m);
        case Output(response) =>
          var now := Now();
          record := CompletedRecord(record, response, now);
          Save(record.id, record);
          if f.report.Raise? {
            resp := Except(record, f.report.message);
          } else {
            WriteReportFile(outPath);
            resp := Success(record.id, q, response, up.filename, outPath);
          }
      }
    }

    /** `except Exception as e` of analyze_document. */
    method Except(record: Record, message: string) returns (resp: Response)
      requires record.id in table.rows
      modifies this
      ensures (State(), resp) == SyncExcept(old(State()), record, message)
    {
      Save(record.id, FailedRecord(record, message));
      resp := HttpError(500, ErrorPrefix + message);
    }

    // ----- POST /analyze-async -----

    /** analyze_document_async (main.py:194-238). */
    method AnalyzeDocumentAsync(id: string, up: Upload, query: string, f: RequestFaults) returns (resp: Response)
      requires Valid()
      modifies this
      ensures Valid()
      ensures (State(), resp) == AsyncSubmit(cfg, old(State()), id, up, query, f)
    {
      ghost var w := State();
      HandlerProperties.AsyncKeepsValid(cfg, w, id, up, query, f);
      Open();
      var filePath := UploadPath(cfg, id);
      if up.size > UploadLimit(cfg) {
        Close();
        return HttpError(413, TooLargeDetail(cfg));
      }
      if f.write.Raise? {
        Close();
        return Unhandled(f.write.message);
      }
      WriteFile(filePath, up.content);
      var q := PipelineQuery(query);
      if id in table.rows {
        Close();
        return Unhandled(DuplicateKey);
      }
      Add(NewRecord(id, FilenameOrDefault(up.filename), q, clock));
      if f.enqueue.Raise? {
        Close();
        return Unhandled(f.enqueue.message);
      }
      Delay(Message(id, q, filePath));
      Close();
      resp := Accepted(id);
    }

    // ----- the Celery task -----

    /** One delivery of analyze_document_task (celery_worker.py:32-111). */
    method AnalyzeDocumentTask(msg: Message, retries: nat, f: TaskFaults) returns (d: Delivery)
      requires Valid()
      modifies this
      ensures Valid()
      ensures (State(), d) == TaskAttempt(cfg, old(State()), msg, retries, f)
    {
      ghost var w := State();
      TaskProperties.TaskKeepsValid(cfg, w, msg, retries, f);
      Open();
      d := TaskTry(msg, retries, f);
      Close();
      RemoveFile(msg.path, f.remove);
    }

    /** The `try` of the task and its `except`. */
    method TaskTry(msg: Message, retries: nat, f: TaskFaults) returns (d: Delivery)
      modifies this
      ensures (State(), d) == Jobs.TaskTry(cfg, old(State()), msg, retries, f)
    {
      if f.lookup.Raise? {
        return RetryOrGiveUp(retries, f.lookup.message);
      }
      if msg.id !in table.rows {
        return RecordMissing;
      }
      var record := table.rows[msg.id];
      record := record.(status := Processing);
      Save(msg.id, record);
      Kickoff(msg.query, msg.path);
      match f.crew {
        case Crash(m) =>
          d := TaskExcept(msg.id, record, retries, m);
        case Output(result) =>
          var now := Now();
          record := CompletedRecord(record, result, now);
          Save(msg.id, record);
          var outFile := OutputPath(cfg, record.filename, msg.id);
          if f.report.Raise? {
            d := TaskExcept(msg.id, record, retries, f.report.message);
          } else {
            WriteReportFile(outFile);
            d := Finished(msg.id, outFile);
          }
      }
    }

    /** `except Exception as exc` of the task, with the record found. */
    method TaskExcept(key: string, record: Record, retries: nat, message: string) returns (d: Delivery)
      requires key in table.rows
      modifies this
      ensures (State(), d) == Jobs.TaskExcept(old(State()), record, key, retries, message)
    {
      Save(key, FailedRecord(record, message));
      d := RetryOrGiveUp(retries, message);
    }

    // ----- GET /analysis/{analysis_id} and GET /analyses -----

    /** get_analysis (main.py:242-257), inside the session `get_db` opens and closes. */
    method GetAnalysisById(id: string) returns (r: Lookup)
      requires Valid()
      modifies this
      ensures Valid()
      ensures r == GetAnalysis(old(table), id)
      ensures State() == CloseSession(OpenSession(old(State())))
    {
      Open();
      r := GetAnalysis(table, id);
      Close();
    }

    /** list_analyses (main.py:260-282), inside the session `get_db` opens and closes. */
    method ListAnalysesPage(skip: nat, limit: nat) returns (r: seq<Summary>)
      requires Valid()
      modifies this
      ensures Valid()
      ensures r == ListAnalyses(old(table), skip, limit)
      ensures State() == CloseSession(OpenSession(old(State())))
    {
      Open();
      r := ListAnalyses(table, skip, limit);
      Close();
    }
  }
}
