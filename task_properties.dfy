/** What analyze_document_task (celery_worker.py:32-111) does to the world on each path,
    how its retries are scheduled, and what repeated deliveries of one message do. */
module TaskProperties {
  import opened Options
  import opened Strings
  import opened Database
  import opened PdfText
  import opened Requests
  import opened Jobs

  /** No record under the message's id: the task returns its error dictionary, writes no
      row, reads no time, schedules no retry and still cleans up. */
  lemma TaskRecordMissing(cfg: Config, w: World, msg: Message, retries: nat, f: TaskFaults)
    requires f.lookup.Ok? && msg.id !in w.table.rows
    ensures var (w', d) := TaskAttempt(cfg, w, msg, retries, f);
            && d == RecordMissing
            && w'.table == w.table && w'.clock == w.clock && w'.reports == w.reports
            && w'.queue == w.queue && w'.openSessions == w.openSessions
            && w'.files == FilesAfterRemoval(w.files, msg.path, f.remove)
            && w'.log == w.log + [SessionOpened, SessionClosed] + RemovalEvents(w.files, msg.path, f.remove)
  {
  }

  /** The lookup itself raises: `record` is still None, so no row is written, and the
      exception goes to `self.retry`. */
  lemma TaskLookupFails(cfg: Config, w: World, msg: Message, retries: nat, f: TaskFaults)
    requires f.lookup.Raise?
    ensures var (w', d) := TaskAttempt(cfg, w, msg, retries, f);
            && d == RetryOrGiveUp(retries, f.lookup.message)
            && w'.table == w.table && w'.clock == w.clock && w'.openSessions == w.openSessions
            && w'.files == FilesAfterRemoval(w.files, msg.path, f.remove)
            && w'.log == w.log + [SessionOpened, SessionClosed] + RemovalEvents(w.files, msg.path, f.remove)
  {
  }

  /** With the record found, the first thing committed is PROCESSING, then the file is
      extracted once and the pipeline started once with the task's query, the path and the
      extracted text; nothing after that extracts or kicks off again. */
  lemma TaskProcessingFirst(cfg: Config, w: World, msg: Message, retries: nat, f: TaskFaults)
    requires f.lookup.Ok? && msg.id in w.table.rows
    ensures var w' := TaskAttempt(cfg, w, msg, retries, f).0;
            var text := ExtractedText(msg.path, w.files);
            && |w'.log| >= |w.log| + 4
            && w'.log[..|w.log| + 4] == w.log + [SessionOpened, Committed(msg.id, Processing),
                                                 Extracted(msg.path, text), KickedOff(msg.query, msg.path, text)]
            && NoPipelineWork(w'.log[|w.log| + 4..])
  {
    var w' := TaskAttempt(cfg, w, msg, retries, f).0;
    var text := ExtractedText(msg.path, w.files);
    var head := [SessionOpened, Committed(msg.id, Processing), Extracted(msg.path, text), KickedOff(msg.query, msg.path, text)];
    var tail := TaskTail(OutputPath(cfg, w.table.rows[msg.id].filename, msg.id), w.files, msg, f);
    TaskLog(cfg, w, msg, retries, f);
    assert w'.log == (w.log + head) + tail;
    assert w'.log[..|w.log| + 4] == w.log + head;
    assert w'.log[|w.log| + 4..] == tail;
  }

  /** No extraction and no kickoff among `events`. */
  predicate NoPipelineWork(events: seq<Event>) {
    forall k :: 0 <= k < |events| ==> !events[k].Extracted? && !events[k].KickedOff?
  }

  /** The events after the kickoff, on each path of a found record. */
  function TaskTail(out: string, files: map<string, PdfFile>, msg: Message, f: TaskFaults): (tail: seq<Event>)
    ensures NoPipelineWork(tail)
  {
    RunEvents(msg.id, out, f.crew, f.report) + [SessionClosed] + RemovalEvents(files, msg.path, f.remove)
  }

  /** The events TaskRun logs. */
  function RunEvents(key: string, out: string, crew: CrewOutcome, report: Effect): seq<Event> {
    match crew
    case Crash(_) => [Committed(key, Failed)]
    case Output(_) =>
      if report.Raise? then [Committed(key, Completed), Committed(key, Failed)]
      else [Committed(key, Completed), ReportWritten(out)]
  }

  lemma RunLog(w: World, r1: Record, key: string, out: string, retries: nat, crew: CrewOutcome, report: Effect)
    requires key in w.table.rows
    ensures var w' := TaskRun(w, r1, key, out, retries, crew, report).0;
            w'.log == w.log + RunEvents(key, out, crew, report)
            && w'.files == w.files && w'.openSessions == w.openSessions && w'.queue == w.queue
  {
  }

  /** The whole log of an attempt that found its record. */
  lemma TaskLog(cfg: Config, w: World, msg: Message, retries: nat, f: TaskFaults)
    requires f.lookup.Ok? && msg.id in w.table.rows
    ensures var text := ExtractedText(msg.path, w.files);
            TaskAttempt(cfg, w, msg, retries, f).0.log
              == w.log + [SessionOpened, Committed(msg.id, Processing), Extracted(msg.path, text),
                          KickedOff(msg.query, msg.path, text)]
                 + TaskTail(OutputPath(cfg, w.table.rows[msg.id].filename, msg.id), w.files, msg, f)
  {
    var text := ExtractedText(msg.path, w.files);
    var head := [SessionOpened, Committed(msg.id, Processing), Extracted(msg.path, text), KickedOff(msg.query, msg.path, text)];
    var w1 := OpenSession(w);
    var r1 := w1.table.rows[msg.id].(status := Processing);
    var w2 := RunPipeline(Commit(w1, msg.id, r1), msg.query, msg.path);
    assert w2.log == w.log + head && w2.files == w.files;
    var out := OutputPath(cfg, r1.filename, msg.id);
    RunLog(w2, r1, msg.id, out, retries, f.crew, f.report);
    var w3 := TaskRun(w2, r1, msg.id, out, retries, f.crew, f.report).0;
    var run := RunEvents(msg.id, out, f.crew, f.report);
    assert TaskAttempt(cfg, w, msg, retries, f).0 == RemoveUpload(CloseSession(w3), msg.path, f.remove);
    assert w3.log == (w.log + head) + run;
    assert TaskAttempt(cfg, w, msg, retries, f).0.log
        == ((w.log + head) + run) + [SessionClosed] + RemovalEvents(w.files, msg.path, f.remove);
  }

  /** What the `try` of the task leaves alone: the uploads, the sessions, the queue and
      which rows exist. */
  lemma TryFrame(cfg: Config, w: World, msg: Message, retries: nat, f: TaskFaults)
    ensures var w' := TaskTry(cfg, w, msg, retries, f).0;
            && w'.files == w.files && w'.openSessions == w.openSessions && w'.queue == w.queue
            && w'.table.order == w.table.order && w'.table.rows.Keys == w.table.rows.Keys
  {
    if f.lookup.Ok? && msg.id in w.table.rows {
      var r1 := w.table.rows[msg.id].(status := Processing);
      RunLog(RunPipeline(Commit(w, msg.id, r1), msg.query, msg.path), r1, msg.id, OutputPath(cfg, r1.filename, msg.id), retries, f.crew, f.report);
    }
  }

  /** A successful attempt: the row is COMPLETED with the pipeline's text and the time
      read after it, its `error` left as it was, the report written under the row's file
      name, and the task returns it. */
  lemma TaskSucceeds(cfg: Config, w: World, msg: Message, retries: nat, f: TaskFaults)
    requires f.lookup.Ok? && msg.id in w.table.rows && f.crew.Output? && f.report.Ok?
    ensures var (w', d) := TaskAttempt(cfg, w, msg, retries, f);
            var rec := w.table.rows[msg.id];
            var out := OutputPath(cfg, rec.filename, msg.id);
            && d == Finished(msg.id, out)
            && w'.table.order == w.table.order
            && w'.table.rows == w.table.rows[msg.id := rec.(status := Completed, result := Some(f.crew.text),
                                                            completedAt := Some(w.clock))]
            && w'.table.rows[msg.id].error == rec.error
            && w'.clock == w.clock + 1
            && w'.reports == w.reports + {out}
            && w'.files == FilesAfterRemoval(w.files, msg.path, f.remove)
            && w'.openSessions == w.openSessions
  {
    var w1 := OpenSession(w);
    var r1 := w1.table.rows[msg.id].(status := Processing);
    var w2 := RunPipeline(Commit(w1, msg.id, r1), msg.query, msg.path);
    var out := OutputPath(cfg, r1.filename, msg.id);
    var w3 := WriteReport(Commit(Tick(w2), msg.id, CompletedRecord(r1, f.crew.text, w2.clock)), out);
    assert TaskTry(cfg, w1, msg, retries, f) == (w3, Finished(msg.id, out));
  }

  /** The pipeline raises: the row is FAILED with the message, its result and completion
      time untouched, and the retry is scheduled (or the exception raised for good). */
  lemma TaskCrashes(cfg: Config, w: World, msg: Message, retries: nat, f: TaskFaults)
    requires f.lookup.Ok? && msg.id in w.table.rows && f.crew.Crash?
    ensures var (w', d) := TaskAttempt(cfg, w, msg, retries, f);
            var rec := w.table.rows[msg.id];
            && d == RetryOrGiveUp(retries, f.crew.message)
            && w'.table.rows == w.table.rows[msg.id := rec.(status := Failed, error := Some(f.crew.message))]
            && w'.table.rows[msg.id].result == rec.result
            && w'.table.rows[msg.id].completedAt == rec.completedAt
            && w'.clock == w.clock && w'.reports == w.reports
            && w'.files == FilesAfterRemoval(w.files, msg.path, f.remove)
            && w'.openSessions == w.openSessions
  {
    var w1 := OpenSession(w);
    var r1 := w1.table.rows[msg.id].(status := Processing);
    var w2 := RunPipeline(Commit(w1, msg.id, r1), msg.query, msg.path);
    var w3 := Commit(w2, msg.id, FailedRecord(r1, f.crew.message));
    assert TaskTry(cfg, w1, msg, retries, f) == (w3, RetryOrGiveUp(retries, f.crew.message));
  }

  /** The report cannot be written after COMPLETED was committed: the same row is then
      committed as FAILED, keeping the result and the completion time. */
  lemma TaskReportFails(cfg: Config, w: World, msg: Message, retries: nat, f: TaskFaults)
    requires f.lookup.Ok? && msg.id in w.table.rows && f.crew.Output? && f.report.Raise?
    ensures var (w', d) := TaskAttempt(cfg, w, msg, retries, f);
            var rec := w.table.rows[msg.id];
            && d == RetryOrGiveUp(retries, f.report.message)
            && w'.table.rows[msg.id] == rec.(status := Failed, result := Some(f.crew.text),
                                             error := Some(f.report.message), completedAt := Some(w.clock))
            && w'.log[|w.log| + 4..|w.log| + 6] == [Committed(msg.id, Completed), Committed(msg.id, Failed)]
            && w'.reports == w.reports
  {
    var w1 := OpenSession(w);
    var r1 := w1.table.rows[msg.id].(status := Processing);
    var w2 := RunPipeline(Commit(w1, msg.id, r1), msg.query, msg.path);
    var r2 := CompletedRecord(r1, f.crew.text, w2.clock);
    var w3 := Commit(Commit(Tick(w2), msg.id, r2), msg.id, FailedRecord(r2, f.report.message));
    assert TaskTry(cfg, w1, msg, retries, f) == (w3, RetryOrGiveUp(retries, f.report.message));
    TaskLog(cfg, w, msg, retries, f);
  }

  /** Every path closes the session it opened and, unless `os.remove` raised, leaves no
      upload at the message's path; the other uploads stay as they were. */
  lemma TaskCleansUp(cfg: Config, w: World, msg: Message, retries: nat, f: TaskFaults)
    ensures var w' := TaskAttempt(cfg, w, msg, retries, f).0;
            && w'.openSessions == w.openSessions
            && w'.files == FilesAfterRemoval(w.files, msg.path, f.remove)
            && (f.remove.Ok? ==> msg.path !in w'.files)
            && w'.log[|w'.log| - 1 - |RemovalEvents(w.files, msg.path, f.remove)|] == SessionClosed
  {
    var w1 := OpenSession(w);
    TryFrame(cfg, w1, msg, retries, f);
    var w2 := CloseSession(TaskTry(cfg, w1, msg, retries, f).0);
    assert w2.files == w.files && w2.openSessions == w.openSessions;
    RemoveUploadFacts(w2, msg.path, f.remove);
  }

  /** Retries are 30 and then 60 seconds away; the third failure gives up. */
  lemma RetrySchedule(m: string)
    ensures RetryOrGiveUp(0, m) == RetryIn(30, m)
    ensures RetryOrGiveUp(1, m) == RetryIn(60, m)
    ensures forall r: nat :: r >= MaxRetries ==> RetryOrGiveUp(r, m) == GaveUp(m)
  {
  }

  /** Each delivery after the first follows a retry whose countdown is thirty seconds times
      the retry number; only the last delivery is not a retry, there are at most
      `MaxRetries + 1 - retries` of them, and a job whose last delivery gave up after
      finding its row leaves that row FAILED. */
  lemma DeliveriesFacts(cfg: Config, w: World, msg: Message, retries: nat, faults: seq<TaskFaults>)
    requires retries <= MaxRetries && |faults| == MaxRetries + 1 - retries
    ensures var (w', ds) := Deliveries(cfg, w, msg, retries, faults);
            && 1 <= |ds| <= MaxRetries + 1 - retries
            && (forall k :: 0 <= k < |ds| - 1 ==> ds[k].RetryIn? && ds[k].countdown == RetryStep * (retries + k + 1))
            && !ds[|ds| - 1].RetryIn?
            && (ds[|ds| - 1].GaveUp? && faults[|ds| - 1].lookup.Ok? ==>
                  msg.id in w'.table.rows && w'.table.rows[msg.id].status == Failed)
  {
    DeliveriesSchedule(cfg, w, msg, retries, faults);
    DeliveriesGiveUp(cfg, w, msg, retries, faults);
  }

  /** What one attempt's delivery says about the next: a retry only below the limit, with
      a countdown of thirty seconds times the retry number. */
  lemma AttemptOutcome(cfg: Config, w: World, msg: Message, retries: nat, f: TaskFaults)
    ensures var d := TaskAttempt(cfg, w, msg, retries, f).1;
            && (d.RetryIn? ==> retries < MaxRetries && d.countdown == RetryStep * (retries + 1))
            && (d.GaveUp? && f.lookup.Ok? ==>
                  var w' := TaskAttempt(cfg, w, msg, retries, f).0;
                  msg.id in w'.table.rows && w'.table.rows[msg.id].status == Failed)
  {
    if TaskAttempt(cfg, w, msg, retries, f).1.GaveUp? && f.lookup.Ok? {
      GaveUpAfterFailure(cfg, w, msg, retries, f);
    }
  }

  /** The countdowns and the number of deliveries. */
  lemma {:induction false} DeliveriesSchedule(cfg: Config, w: World, msg: Message, retries: nat, faults: seq<TaskFaults>)
    requires retries <= MaxRetries && |faults| == MaxRetries + 1 - retries
    ensures var ds := Deliveries(cfg, w, msg, retries, faults).1;
            && 1 <= |ds| <= MaxRetries + 1 - retries
            && (forall k :: 0 <= k < |ds| - 1 ==> ds[k].RetryIn? && ds[k].countdown == RetryStep * (retries + k + 1))
            && !ds[|ds| - 1].RetryIn?
    decreases MaxRetries - retries
  {
    var (w1, d) := TaskAttempt(cfg, w, msg, retries, faults[0]);
    AttemptOutcome(cfg, w, msg, retries, faults[0]);
    if d.RetryIn? && retries < MaxRetries {
      DeliveriesSchedule(cfg, w1, msg, retries + 1, faults[1..]);
      var ds := Deliveries(cfg, w1, msg, retries + 1, faults[1..]).1;
      assert Deliveries(cfg, w, msg, retries, faults).1 == [d] + ds;
      assert forall k :: 1 <= k < |ds| + 1 ==> ([d] + ds)[k] == ds[k - 1];
    }
  }

  /** The last delivery giving up after finding the row leaves it FAILED. */
  lemma {:induction false} DeliveriesGiveUp(cfg: Config, w: World, msg: Message, retries: nat, faults: seq<TaskFaults>)
    requires retries <= MaxRetries && |faults| == MaxRetries + 1 - retries
    ensures var (w', ds) := Deliveries(cfg, w, msg, retries, faults);
            |ds| >= 1 &&
            (ds[|ds| - 1].GaveUp? && faults[|ds| - 1].lookup.Ok? ==>
               msg.id in w'.table.rows && w'.table.rows[msg.id].status == Failed)
    decreases MaxRetries - retries
  {
    var (w1, d) := TaskAttempt(cfg, w, msg, retries, faults[0]);
    AttemptOutcome(cfg, w, msg, retries, faults[0]);
    if d.RetryIn? && retries < MaxRetries {
      DeliveriesGiveUp(cfg, w1, msg, retries + 1, faults[1..]);
      var (w2, ds) := Deliveries(cfg, w1, msg, retries + 1, faults[1..]);
      assert Deliveries(cfg, w, msg, retries, faults) == (w2, [d] + ds);
      assert faults[1..][|ds| - 1] == faults[|ds|];
    }
  }

  /** Giving up with the row found leaves the row FAILED. */
  lemma GaveUpAfterFailure(cfg: Config, w: World, msg: Message, retries: nat, f: TaskFaults)
    requires f.lookup.Ok? && TaskAttempt(cfg, w, msg, retries, f).1.GaveUp?
    ensures var w' := TaskAttempt(cfg, w, msg, retries, f).0;
            msg.id in w'.table.rows && w'.table.rows[msg.id].status == Failed
  {
  }

  /** A first delivery of one message against a fresh job starts with retry count 0, so a
      job runs at most three times and waits 30 and then 60 seconds between runs. */
  lemma AtMostThreeAttempts(cfg: Config, w: World, msg: Message, faults: seq<TaskFaults>)
    requires |faults| == 3
    ensures var ds := Deliveries(cfg, w, msg, 0, faults).1;
            && 1 <= |ds| <= 3
            && (|ds| >= 2 ==> ds[0].RetryIn? && ds[0].countdown == 30)
            && (|ds| == 3 ==> ds[1].RetryIn? && ds[1].countdown == 60)
  {
    DeliveriesFacts(cfg, w, msg, 0, faults);
  }

  /** The `finally` removed the upload before the retry runs: the next delivery of the same
      message extracts nothing but the not-found message and passes that to the pipeline. */
  lemma RetrySeesMissingFile(cfg: Config, w: World, msg: Message, retries: nat, f1: TaskFaults, f2: TaskFaults)
    requires f1.remove.Ok?
    ensures var w1 := TaskAttempt(cfg, w, msg, retries, f1).0;
            && msg.path !in w1.files
            && ExtractedText(msg.path, w1.files) == NotFoundMessage(msg.path)
            && (f2.lookup.Ok? && msg.id in w1.table.rows ==>
                  var w2 := TaskAttempt(cfg, w1, msg, retries + 1, f2).0;
                  && |w2.log| >= |w1.log| + 4
                  && w2.log[|w1.log| + 3] == KickedOff(msg.query, msg.path, NotFoundMessage(msg.path)))
  {
    var w1 := TaskAttempt(cfg, w, msg, retries, f1).0;
    TaskCleansUp(cfg, w, msg, retries, f1);
    if f2.lookup.Ok? && msg.id in w1.table.rows {
      TaskProcessingFirst(cfg, w1, msg, retries + 1, f2);
      var w2 := TaskAttempt(cfg, w1, msg, retries + 1, f2).0;
      assert w2.log[|w1.log| + 3] == w2.log[..|w1.log| + 4][|w1.log| + 3];
    }
  }

  /** Nothing checks the status first: a redelivered message for a COMPLETED row sets it
      back to PROCESSING, runs the pipeline again and, when that succeeds, replaces the
      result. */
  lemma RedeliveryRerunsCompleted(cfg: Config, w: World, msg: Message, retries: nat, f: TaskFaults)
    requires f.lookup.Ok? && msg.id in w.table.rows && w.table.rows[msg.id].status == Completed
    ensures var w' := TaskAttempt(cfg, w, msg, retries, f).0;
            && w'.log[|w.log| + 1] == Committed(msg.id, Processing)
            && w'.log[|w.log| + 3].KickedOff?
            && (f.crew.Output? && f.report.Ok? ==>
                  w'.table.rows[msg.id].status == Completed && w'.table.rows[msg.id].result == Some(f.crew.text))
  {
    TaskProcessingFirst(cfg, w, msg, retries, f);
    var w' := TaskAttempt(cfg, w, msg, retries, f).0;
    assert w'.log[|w.log| + 1] == w'.log[..|w.log| + 4][|w.log| + 1];
    assert w'.log[|w.log| + 3] == w'.log[..|w.log| + 4][|w.log| + 3];
  }

  /** An error written by a failed attempt survives a later successful one: the row ends
      COMPLETED, with the new result and the old error. */
  lemma ErrorSurvivesSuccess(cfg: Config, w: World, msg: Message, m: string, text: string, f1: TaskFaults, f2: TaskFaults)
    requires msg.id in w.table.rows
    requires f1.lookup.Ok? && f1.crew == Crash(m)
    requires f2.lookup.Ok? && f2.crew == Output(text) && f2.report.Ok?
    ensures var w1 := TaskAttempt(cfg, w, msg, 0, f1).0;
            var w2 := TaskAttempt(cfg, w1, msg, 1, f2).0;
            && w2.table.rows[msg.id].status == Completed
            && w2.table.rows[msg.id].result == Some(text)
            && w2.table.rows[msg.id].error == Some(m)
  {
    TaskCrashes(cfg, w, msg, 0, f1);
    var w1 := TaskAttempt(cfg, w, msg, 0, f1).0;
    TaskSucceeds(cfg, w1, msg, 1, f2);
  }

  /** Every attempt keeps the world valid. */
  lemma TaskKeepsValid(cfg: Config, w: World, msg: Message, retries: nat, f: TaskFaults)
    requires Valid(w)
    ensures Valid(TaskAttempt(cfg, w, msg, retries, f).0)
  {
    var w1 := OpenSession(w);
    TryValid(cfg, w1, msg, retries, f);
  }

  lemma TryValid(cfg: Config, w: World, msg: Message, retries: nat, f: TaskFaults)
    requires Valid(w)
    ensures Valid(TaskTry(cfg, w, msg, retries, f).0)
  {
    if f.lookup.Ok? && msg.id in w.table.rows {
      RowOf(w, msg.id);
      var r1 := w.table.rows[msg.id].(status := Processing);
      CommitValid(w, msg.id, r1);
      RunValid(RunPipeline(Commit(w, msg.id, r1), msg.query, msg.path), r1, msg.id, OutputPath(cfg, r1.filename, msg.id), retries, f.crew, f.report);
    }
  }

  lemma RunValid(w: World, r1: Record, key: string, out: string, retries: nat, crew: CrewOutcome, report: Effect)
    requires Valid(w) && key in w.table.rows && r1 == w.table.rows[key]
    ensures Valid(TaskRun(w, r1, key, out, retries, crew, report).0)
  {
    RowOf(w, key);
    match crew
    case Crash(m) =>
      CommitValid(w, key, FailedRecord(r1, m));
    case Output(text) =>
      var r2 := CompletedRecord(r1, text, w.clock);
      TickValid(w);
      CommitValid(Tick(w), key, r2);
      if report.Raise? {
        CommitValid(Commit(Tick(w), key, r2), key, FailedRecord(r2, report.message));
      }
  }
}
