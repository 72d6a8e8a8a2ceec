/** What the two upload endpoints of main.py do to the world on each path. */
module HandlerProperties {
  import opened Options
  import opened Strings
  import opened Database
  import opened PdfText
  import opened Requests
  import opened Jobs

  // ----- POST /analyze -----

  /** The uploads after the `try` of analyze_document: the upload is on disk exactly when
      it was small enough and its write returned. */
  function FilesAfterTry(cfg: Config, files: map<string, PdfFile>, id: string, up: Upload, f: RequestFaults): map<string, PdfFile> {
    if up.size <= UploadLimit(cfg) && f.write.Ok? then files[UploadPath(cfg, id) := up.content] else files
  }

  /** What the `try` of analyze_document leaves alone, and what it does to the uploads. */
  lemma SyncTryFrame(w: World, rec: Record, path: string, out: string, limit: nat, tooLarge: string,
                     up: Upload, query: string, f: RequestFaults)
    requires rec.id in w.table.rows
    ensures var w' := SyncTry(w, rec, path, out, limit, tooLarge, up, query, f).0;
            && w'.files == (if up.size <= limit && f.write.Ok? then w.files[path := up.content] else w.files)
            && w'.openSessions == w.openSessions && w'.queue == w.queue
            && w'.table.order == w.table.order && w'.table.rows.Keys == w.table.rows.Keys
  {
  }

  /** The handler's result for a fresh id, in terms of its `try`. */
  lemma SyncShape(cfg: Config, w: World, id: string, up: Upload, query: string, f: RequestFaults)
    requires id !in w.table.rows
    ensures var rec := NewRecord(id, FilenameOrDefault(up.filename), query, w.clock);
            var w1 := AddRecord(OpenSession(w), rec);
            var path := UploadPath(cfg, id);
            var (w2, resp) := SyncTry(w1, rec, path, OutputPath(cfg, FilenameOrDefault(up.filename), id),
                                      UploadLimit(cfg), TooLargeDetail(cfg), up, query, f);
            SyncAnalyze(cfg, w, id, up, query, f) == (CloseSession(RemoveUpload(w2, path, f.remove)), resp)
  {
  }

  /** An id already in the table: the insert raises before the `try`, nothing is written
      and the session is closed again. */
  lemma SyncDuplicateId(cfg: Config, w: World, id: string, up: Upload, query: string, f: RequestFaults)
    requires id in w.table.rows
    ensures var (w', resp) := SyncAnalyze(cfg, w, id, up, query, f);
            && resp == Unhandled(DuplicateKey)
            && w'.table == w.table && w'.files == w.files && w'.openSessions == w.openSessions
  {
  }

  /** Every path through analyze_document for a fresh id closes its session, creates
      exactly the row `id`, and leaves no upload behind unless `os.remove` raised. */
  lemma SyncCleansUp(cfg: Config, w: World, id: string, up: Upload, query: string, f: RequestFaults)
    requires id !in w.table.rows
    ensures var w' := SyncAnalyze(cfg, w, id, up, query, f).0;
            var path := UploadPath(cfg, id);
            && w'.openSessions == w.openSessions
            && w'.log[|w'.log| - 1] == SessionClosed
            && w'.files == FilesAfterRemoval(FilesAfterTry(cfg, w.files, id, up, f), path, f.remove)
            && (f.remove.Ok? ==> path !in w'.files)
            && w'.table.rows.Keys == w.table.rows.Keys + {id}
            && w'.queue == w.queue
  {
    var rec := NewRecord(id, FilenameOrDefault(up.filename), query, w.clock);
    var w1 := AddRecord(OpenSession(w), rec);
    var path := UploadPath(cfg, id);
    var out := OutputPath(cfg, FilenameOrDefault(up.filename), id);
    SyncShape(cfg, w, id, up, query, f);
    SyncTryFrame(w1, rec, path, out, UploadLimit(cfg), TooLargeDetail(cfg), up, query, f);
    var w2 := SyncTry(w1, rec, path, out, UploadLimit(cfg), TooLargeDetail(cfg), up, query, f).0;
    RemoveUploadFacts(w2, path, f.remove);
    assert SyncAnalyze(cfg, w, id, up, query, f).0 == CloseSession(RemoveUpload(w2, path, f.remove));
  }

  /** An upload over the limit: the 413 passes through unchanged, no file is written, and
      the record committed before the `try` stays PENDING. */
  lemma SyncTooLarge(cfg: Config, w: World, id: string, up: Upload, query: string, f: RequestFaults)
    requires id !in w.table.rows && up.size > UploadLimit(cfg)
    ensures var (w', resp) := SyncAnalyze(cfg, w, id, up, query, f);
            var path := UploadPath(cfg, id);
            && resp == HttpError(413, TooLargeDetail(cfg))
            && w'.table.rows == w.table.rows[id := NewRecord(id, FilenameOrDefault(up.filename), query, w.clock)]
            && w'.table.rows[id].status == Pending
            && w'.log == w.log + [SessionOpened, Committed(id, Pending)] + RemovalEvents(w.files, path, f.remove) + [SessionClosed]
            && w'.files == FilesAfterRemoval(w.files, path, f.remove)
  {
  }

  /** Writing the upload raises: the record fails with the message and the client gets a
      500 with it. */
  lemma SyncWriteFails(cfg: Config, w: World, id: string, up: Upload, query: string, f: RequestFaults)
    requires id !in w.table.rows && up.size <= UploadLimit(cfg) && f.write.Raise?
    ensures var (w', resp) := SyncAnalyze(cfg, w, id, up, query, f);
            && resp == HttpError(500, ErrorPrefix + f.write.message)
            && w'.table.rows[id] == FailedRecord(NewRecord(id, FilenameOrDefault(up.filename), query, w.clock), f.write.message)
            && w'.table.rows[id].completedAt == None
  {
  }

  /** A successful request, step by step: the pending row, the upload, PROCESSING, one
      extraction and one kickoff with the stripped query, COMPLETED, the report, then the
      `finally`. The row keeps the query as the form sent it; the response carries the
      query after the default. */
  lemma SyncSucceeds(cfg: Config, w: World, id: string, up: Upload, query: string, f: RequestFaults)
    requires id !in w.table.rows && up.size <= UploadLimit(cfg)
    requires f.write.Ok? && f.crew.Output? && f.report.Ok?
    ensures var (w', resp) := SyncAnalyze(cfg, w, id, up, query, f);
            var path := UploadPath(cfg, id);
            var files := w.files[path := up.content];
            var text := ExtractedText(path, files);
            var out := OutputPath(cfg, FilenameOrDefault(up.filename), id);
            && resp == Success(id, NormalizeQuery(query), f.crew.text, up.filename, out)
            && w'.table.rows == w.table.rows[id := Record(id, FilenameOrDefault(up.filename), query, Completed,
                                                          Some(f.crew.text), None, w.clock, Some(w.clock + 1))]
            && w'.log == w.log + [SessionOpened, Committed(id, Pending)]
                               + [UploadWritten(path), Committed(id, Processing),
                                  Extracted(path, text), KickedOff(PipelineQuery(query), path, text),
                                  Committed(id, Completed), ReportWritten(out)]
                               + RemovalEvents(files, path, f.remove) + [SessionClosed]
            && w'.reports == w.reports + {out}
  {
    var path := UploadPath(cfg, id);
    var out := OutputPath(cfg, FilenameOrDefault(up.filename), id);
    var rec := NewRecord(id, FilenameOrDefault(up.filename), query, w.clock);
    SyncShape(cfg, w, id, up, query, f);
    SyncSucceedsFrom(w, rec, path, out, UploadLimit(cfg), TooLargeDetail(cfg), up, query, f);
    SyncSucceedsLog(w, rec, path, out, UploadLimit(cfg), TooLargeDetail(cfg), up, query, f);
  }

  /** The successful request with the paths and the limit left abstract: the response, the
      row and the reports. */
  lemma SyncSucceedsFrom(w: World, rec: Record, path: string, out: string, limit: nat, tooLarge: string,
                         up: Upload, query: string, f: RequestFaults)
    requires rec.id !in w.table.rows && up.size <= limit
    requires f.write.Ok? && f.crew.Output? && f.report.Ok?
    ensures var w1 := AddRecord(OpenSession(w), rec);
            var (w2, resp) := SyncTry(w1, rec, path, out, limit, tooLarge, up, query, f);
            var w' := CloseSession(RemoveUpload(w2, path, f.remove));
            && resp == Success(rec.id, NormalizeQuery(query), f.crew.text, up.filename, out)
            && w'.table.rows == w.table.rows[rec.id := CompletedRecord(rec.(status := Processing), f.crew.text, w.clock + 1)]
            && w'.reports == w.reports + {out}
  {
    var w1 := AddRecord(OpenSession(w), rec);
    assert w1.table.rows == w.table.rows[rec.id := rec] && w1.clock == w.clock + 1;
    SyncTrySucceeds(w1, rec, path, out, limit, tooLarge, up, query, f);
  }

  /** The event log of the successful request with the paths and the limit left abstract:
      the insert, the `try`, then the `finally`. */
  lemma SyncSucceedsLog(w: World, rec: Record, path: string, out: string, limit: nat, tooLarge: string,
                        up: Upload, query: string, f: RequestFaults)
    requires rec.id !in w.table.rows && up.size <= limit
    requires f.write.Ok? && f.crew.Output? && f.report.Ok?
    ensures var w1 := AddRecord(OpenSession(w), rec);
            var w' := CloseSession(RemoveUpload(SyncTry(w1, rec, path, out, limit, tooLarge, up, query, f).0, path, f.remove));
            var files := w.files[path := up.content];
            var text := ExtractedText(path, files);
            w'.log == w.log + [SessionOpened, Committed(rec.id, rec.status)]
                            + [UploadWritten(path), Committed(rec.id, Processing),
                               Extracted(path, text), KickedOff(PipelineQuery(query), path, text),
                               Committed(rec.id, Completed), ReportWritten(out)]
                            + RemovalEvents(files, path, f.remove) + [SessionClosed]
  {
    var w1 := AddRecord(OpenSession(w), rec);
    assert w1.log == w.log + [SessionOpened, Committed(rec.id, rec.status)] && w1.files == w.files;
    SyncTrySucceeds(w1, rec, path, out, limit, tooLarge, up, query, f);
    SyncFinishLog(SyncTry(w1, rec, path, out, limit, tooLarge, up, query, f).0, path, f.remove);
  }

  lemma SyncTrySucceeds(w: World, rec: Record, path: string, out: string, limit: nat, tooLarge: string,
                        up: Upload, query: string, f: RequestFaults)
    requires rec.id in w.table.rows && up.size <= limit
    requires f.write.Ok? && f.crew.Output? && f.report.Ok?
    ensures var (w', resp) := SyncTry(w, rec, path, out, limit, tooLarge, up, query, f);
            var text := ExtractedText(path, w.files[path := up.content]);
            && resp == Success(rec.id, NormalizeQuery(query), f.crew.text, up.filename, out)
            && w'.log == w.log + [UploadWritten(path), Committed(rec.id, Processing),
                                  Extracted(path, text), KickedOff(PipelineQuery(query), path, text),
                                  Committed(rec.id, Completed), ReportWritten(out)]
            && w'.files == w.files[path := up.content]
            && w'.table.rows == w.table.rows[rec.id := CompletedRecord(rec.(status := Processing), f.crew.text, w.clock)]
            && w'.reports == w.reports + {out}
  {
    var r1 := rec.(status := Processing);
    var w1 := Commit(WriteUpload(w, path, up.content), rec.id, r1);
    assert w1.log == w.log + [UploadWritten(path), Committed(rec.id, Processing)];
    var text := ExtractedText(path, w1.files);
    var w2 := RunPipeline(w1, PipelineQuery(query), path);
    assert w2.log == w1.log + [Extracted(path, text), KickedOff(PipelineQuery(query), path, text)];
    var w3 := WriteReport(Commit(Tick(w2), rec.id, CompletedRecord(r1, f.crew.text, w2.clock)), out);
    assert w3.log == w2.log + [Committed(rec.id, Completed), ReportWritten(out)];
    assert SyncTry(w, rec, path, out, limit, tooLarge, up, query, f)
        == (w3, Success(rec.id, NormalizeQuery(query), f.crew.text, up.filename, out));
  }

  /** The log after the `finally` of analyze_document and the closing of the session. */
  lemma SyncFinishLog(w: World, path: string, remove: Effect)
    ensures CloseSession(RemoveUpload(w, path, remove)).log == w.log + RemovalEvents(w.files, path, remove) + [SessionClosed]
  {
  }

  /** The pipeline raises: FAILED with the message, no result and no completion time. */
  lemma SyncCrashes(cfg: Config, w: World, id: string, up: Upload, query: string, f: RequestFaults)
    requires id !in w.table.rows && up.size <= UploadLimit(cfg) && f.write.Ok? && f.crew.Crash?
    ensures var (w', resp) := SyncAnalyze(cfg, w, id, up, query, f);
            && resp == HttpError(500, ErrorPrefix + f.crew.message)
            && w'.table.rows[id] == Record(id, FilenameOrDefault(up.filename), query, Failed,
                                           None, Some(f.crew.message), w.clock, None)
            && w'.reports == w.reports
  {
  }

  /** The report cannot be written after COMPLETED was committed: the row is FAILED but
      keeps the result and the completion time. */
  lemma SyncReportFails(cfg: Config, w: World, id: string, up: Upload, query: string, f: RequestFaults)
    requires id !in w.table.rows && up.size <= UploadLimit(cfg) && f.write.Ok? && f.crew.Output? && f.report.Raise?
    ensures var (w', resp) := SyncAnalyze(cfg, w, id, up, query, f);
            && resp == HttpError(500, ErrorPrefix + f.report.message)
            && w'.table.rows[id] == Record(id, FilenameOrDefault(up.filename), query, Failed,
                                           Some(f.crew.text), Some(f.report.message), w.clock, Some(w.clock + 1))
  {
  }

  /** Every request keeps the world valid. */
  lemma SyncKeepsValid(cfg: Config, w: World, id: string, up: Upload, query: string, f: RequestFaults)
    requires Valid(w)
    ensures Valid(SyncAnalyze(cfg, w, id, up, query, f).0)
  {
    var w1 := OpenSession(w);
    if id !in w1.table.rows {
      var rec := NewRecord(id, FilenameOrDefault(up.filename), query, w1.clock);
      AddRecordValid(w1, rec);
      SyncTryValid(AddRecord(w1, rec), rec, UploadPath(cfg, id), OutputPath(cfg, FilenameOrDefault(up.filename), id),
                   UploadLimit(cfg), TooLargeDetail(cfg), up, query, f);
    }
  }

  lemma SyncTryValid(w: World, rec: Record, path: string, out: string, limit: nat, tooLarge: string,
                     up: Upload, query: string, f: RequestFaults)
    requires Valid(w) && rec.id in w.table.rows && rec == w.table.rows[rec.id]
    ensures Valid(SyncTry(w, rec, path, out, limit, tooLarge, up, query, f).0)
  {
    RowOf(w, rec.id);
    if up.size <= limit {
      if f.write.Raise? {
        CommitValid(w, rec.id, FailedRecord(rec, f.write.message));
      } else {
        var r1 := rec.(status := Processing);
        CommitValid(WriteUpload(w, path, up.content), rec.id, r1);
        var w1 := Commit(WriteUpload(w, path, up.content), rec.id, r1);
        SyncRunValid(RunPipeline(w1, PipelineQuery(query), path), r1, out, up.filename, query, f.crew, f.report);
      }
    }
  }

  lemma SyncRunValid(w: World, r1: Record, out: string, filename: Option<string>, query: string, crew: CrewOutcome, report: Effect)
    requires Valid(w) && r1.id in w.table.rows && r1 == w.table.rows[r1.id]
    ensures Valid(SyncRun(w, r1, out, filename, query, crew, report).0)
  {
    RowOf(w, r1.id);
    match crew
    case Crash(m) =>
      CommitValid(w, r1.id, FailedRecord(r1, m));
    case Output(text) =>
      var r2 := CompletedRecord(r1, text, w.clock);
      TickValid(w);
      CommitValid(Tick(w), r1.id, r2);
      if report.Raise? {
        CommitValid(Commit(Tick(w), r1.id, r2), r1.id, FailedRecord(r2, report.message));
      }
  }

  // ----- POST /analyze-async -----

  /** An upload over the limit is refused before anything is written: no row, no file, no
      message. */
  lemma AsyncTooLarge(cfg: Config, w: World, id: string, up: Upload, query: string, f: RequestFaults)
    requires up.size > UploadLimit(cfg)
    ensures var (w', resp) := AsyncSubmit(cfg, w, id, up, query, f);
            && resp == HttpError(413, TooLargeDetail(cfg))
            && w'.table == w.table && w'.files == w.files && w'.queue == w.queue
            && w'.openSessions == w.openSessions
  {
  }

  /** The upload cannot be written: the exception escapes, and no row or message exists. */
  lemma AsyncWriteFails(cfg: Config, w: World, id: string, up: Upload, query: string, f: RequestFaults)
    requires up.size <= UploadLimit(cfg) && f.write.Raise?
    ensures var (w', resp) := AsyncSubmit(cfg, w, id, up, query, f);
            && resp == Unhandled(f.write.message)
            && w'.table == w.table && w'.queue == w.queue && w'.openSessions == w.openSessions
  {
  }

  /** An accepted submission adds exactly one PENDING row holding the stripped query, and
      queues exactly one message with the same id, query and upload path. */
  lemma AsyncAccepted(cfg: Config, w: World, id: string, up: Upload, query: string, f: RequestFaults)
    requires id !in w.table.rows && up.size <= UploadLimit(cfg) && f.write.Ok? && f.enqueue.Ok?
    ensures var (w', resp) := AsyncSubmit(cfg, w, id, up, query, f);
            var path := UploadPath(cfg, id);
            var m := Message(id, PipelineQuery(query), path);
            && resp == Accepted(id)
            && w'.table.rows == w.table.rows[id := NewRecord(id, FilenameOrDefault(up.filename), PipelineQuery(query), w.clock)]
            && w'.table.order == w.table.order + [id]
            && w'.queue == w.queue + [m]
            && w'.files == w.files[path := up.content]
            && w'.log == w.log + [SessionOpened, UploadWritten(path), Committed(id, Pending), Enqueued(m), SessionClosed]
            && w'.openSessions == w.openSessions
  {
  }

  /** The broker refuses the message: the row stays PENDING with nothing to run it, the
      upload stays on disk, and `get_db` still closes the session. */
  lemma AsyncEnqueueFails(cfg: Config, w: World, id: string, up: Upload, query: string, f: RequestFaults)
    requires id !in w.table.rows && up.size <= UploadLimit(cfg) && f.write.Ok? && f.enqueue.Raise?
    ensures var (w', resp) := AsyncSubmit(cfg, w, id, up, query, f);
            var path := UploadPath(cfg, id);
            && resp == Unhandled(f.enqueue.message)
            && w'.table.rows == w.table.rows[id := NewRecord(id, FilenameOrDefault(up.filename), PipelineQuery(query), w.clock)]
            && w'.table.rows[id].status == Pending
            && w'.queue == w.queue
            && w'.files == w.files[path := up.content]
            && w'.log == w.log + [SessionOpened, UploadWritten(path), Committed(id, Pending), SessionClosed]
            && w'.openSessions == w.openSessions
  {
  }

  /** An id already in the table: the insert raises after the upload was written, the
      upload stays on disk, and `get_db` still closes the session. */
  lemma AsyncDuplicateId(cfg: Config, w: World, id: string, up: Upload, query: string, f: RequestFaults)
    requires id in w.table.rows && up.size <= UploadLimit(cfg) && f.write.Ok?
    ensures var (w', resp) := AsyncSubmit(cfg, w, id, up, query, f);
            var path := UploadPath(cfg, id);
            && resp == Unhandled(DuplicateKey)
            && w'.table == w.table && w'.queue == w.queue
            && w'.files == w.files[path := up.content]
            && w'.log == w.log + [SessionOpened, UploadWritten(path), SessionClosed]
            && w'.openSessions == w.openSessions
  {
  }

  /** Whatever happens, `get_db` closes the session the submission opened: the count of
      open sessions is back where it was and closing it is the last event. */
  lemma AsyncCleansUp(cfg: Config, w: World, id: string, up: Upload, query: string, f: RequestFaults)
    ensures var w' := AsyncSubmit(cfg, w, id, up, query, f).0;
            && w'.openSessions == w.openSessions
            && |w'.log| > |w.log| && w'.log[|w'.log| - 1] == SessionClosed
  {
  }

  /** Every submission keeps the world valid; in particular every queued message names a
      row. */
  lemma AsyncKeepsValid(cfg: Config, w: World, id: string, up: Upload, query: string, f: RequestFaults)
    requires Valid(w)
    ensures Valid(AsyncSubmit(cfg, w, id, up, query, f).0)
  {
    if up.size <= UploadLimit(cfg) && f.write.Ok? {
      var w2 := WriteUpload(OpenSession(w), UploadPath(cfg, id), up.content);
      if id !in w2.table.rows {
        var rec := NewRecord(id, FilenameOrDefault(up.filename), PipelineQuery(query), w2.clock);
        AddRecordValid(w2, rec);
        var w3 := AddRecord(w2, rec);
        if f.enqueue.Ok? {
          var m := Message(id, PipelineQuery(query), UploadPath(cfg, id));
          assert forall k :: 0 <= k < |w3.queue| + 1 ==> (w3.queue + [m])[k].id in w3.table.rows by {
            forall k | 0 <= k < |w3.queue| + 1 ensures (w3.queue + [m])[k].id in w3.table.rows {
              if k < |w3.queue| { assert (w3.queue + [m])[k] == w3.queue[k]; }
            }
          }
        }
      }
    }
  }
}
