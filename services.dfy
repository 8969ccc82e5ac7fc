/** The job services: submitting an upload as a queued job, querying a job
    and its output, and processing a job through the pipeline executor
    while recording its lifecycle (QUEUED, RUNNING, then COMPLETED or
    FAILED) in the repository. Storage, the executor and the notifier are
    injected functions; every call made to them is logged. */
module Services {
  import opened Common
  import opened PyValues
  import opened Repository

  // ---------------------------------------------------------------------
  // Submission
  // ---------------------------------------------------------------------

  datatype Upload = Upload(filename: string, content: seq<bv8>)

  /** The caller's fields `submit` creates the job with. */
  function SubmittedFields(inputPath: string, config: Value, callbackUrl: Value): Record
  {
    map["input_path" := Str(inputPath), "pipeline_config" := config, "callback_url" := callbackUrl]
  }

  /** The payload `submit` has `create_job` write. */
  lemma SubmittedPayload(inputPath: string, config: Value, callbackUrl: Value, now: int)
    ensures var p := CreatePayload(SubmittedFields(inputPath, config, callbackUrl), now);
      && p.Keys == {"status", "created_at", "updated_at", "input_path", "pipeline_config", "callback_url"}
      && p["status"] == Str("QUEUED")
      && p["created_at"] == Int(now) && p["updated_at"] == Int(now)
      && p["input_path"] == Str(inputPath)
      && p["pipeline_config"] == config
      && p["callback_url"] == callbackUrl
  {
    var data := SubmittedFields(inputPath, config, callbackUrl);
    assert "status" != "input_path" && "status" != "pipeline_config" && "status" != "callback_url";
    assert "created_at" != "input_path" && "created_at" != "pipeline_config" && "created_at" != "callback_url";
    assert "updated_at" != "input_path" && "updated_at" != "pipeline_config" && "updated_at" != "callback_url";
  }

  /** A submitted job reads back as queued, with both timestamps at the
      submission time and the submitted fields as given (a configuration is
      absent or a dictionary, a callback absent or a non-empty text). */
  lemma SubmittedJobIsQueued(codec: JsonCodec, store: Store, jobId: string, inputPath: string,
                             config: Value, callbackUrl: Value, now: int)
    requires Lossless(codec) && JobKey(jobId) !in store
    requires inputPath != ""
    requires config.Null? || config.Dict?
    requires callbackUrl.Null? || (callbackUrl.Str? && callbackUrl.s != "")
    ensures Fetch(codec, Create(codec, store, jobId, SubmittedFields(inputPath, config, callbackUrl), now), jobId)
      == Found(CreatePayload(SubmittedFields(inputPath, config, callbackUrl), now))
    ensures var p := CreatePayload(SubmittedFields(inputPath, config, callbackUrl), now);
      && p.Keys == {"status", "created_at", "updated_at", "input_path", "pipeline_config", "callback_url"}
      && p["status"] == Str("QUEUED")
      && p["created_at"] == Int(now) && p["updated_at"] == Int(now)
      && p["input_path"] == Str(inputPath)
      && p["pipeline_config"] == config
      && p["callback_url"] == callbackUrl
  {
    var payload := CreatePayload(SubmittedFields(inputPath, config, callbackUrl), now);
    SubmittedPayload(inputPath, config, callbackUrl, now);
    assert AllRoundTrip(payload) by {
      forall k | k in payload ensures RoundTrips(k, payload[k]) {
        if k == "callback_url" {
        } else if k == "pipeline_config" {
        } else if k == "input_path" {
        } else if k == "status" {
        } else {
          assert k == "created_at" || k == "updated_at";
        }
      }
    }
    CreateThenFetch(codec, store, jobId, SubmittedFields(inputPath, config, callbackUrl), now);
  }

  class JobSubmissionService {
    const repo: JobRepository
    /** `storage.save_upload`: the path the upload is saved under. */
    const saveUpload: Upload -> string
    var uploads: seq<Upload>
    var enqueued: seq<string>

    constructor(repo: JobRepository, saveUpload: Upload -> string)
      ensures this.repo == repo && this.saveUpload == saveUpload
      ensures uploads == [] && enqueued == []
    {
      this.repo := repo;
      this.saveUpload := saveUpload;
      uploads := [];
      enqueued := [];
    }

    /** `submit`: the id comes from the id provider (here `jobId`); the
        upload is saved once, the job created with exactly the input path,
        configuration and callback, and that same id enqueued and returned. */
    method Submit(jobId: string, filename: string, content: seq<bv8>, config: Value, callbackUrl: Value, now: int)
      returns (id: string)
      modifies this, repo
      ensures id == jobId
      ensures uploads == old(uploads) + [Upload(filename, content)]
      ensures enqueued == old(enqueued) + [jobId]
      ensures repo.store == Create(repo.codec, old(repo.store), jobId,
                                   SubmittedFields(saveUpload(Upload(filename, content)), config, callbackUrl), now)
    {
      var upload := Upload(filename, content);
      var inputPath := saveUpload(upload);
      uploads := uploads + [upload];
      repo.CreateJob(jobId, SubmittedFields(inputPath, config, callbackUrl), now);
      enqueued := enqueued + [jobId];
      return jobId;
    }
  }

  // ---------------------------------------------------------------------
  // Queries
  // ---------------------------------------------------------------------

  /** What the query service raises: its three errors, an `AttributeError`
      from `.get` on a result that is not a dictionary, and the decoding
      error `get_job` lets through. */
  datatype QueryError =
    | JobNotFound(message: string)
    | JobNotCompleted(message: string)
    | JobOutputMissing(message: string)
    | Raised(message: string)
    | UnreadableRecord

  /** `JobQueryService.get_job`: a missing or empty record is not found;
      any other record is returned as it is. */
  function JobOrError(lookup: Lookup, jobId: string): (r: Result<Record, QueryError>)
    ensures r.Success? <==> lookup.Found? && |lookup.record| > 0
    ensures r.Success? ==> r.value == lookup.record
    ensures lookup.Undecodable? ==> r == Failure(UnreadableRecord)
    ensures !lookup.Undecodable? && r.Failure? ==> r.error == JobNotFound("Job '" + jobId + "' not found")
  {
    match lookup
    case Undecodable => Failure(UnreadableRecord)
    case Absent => Failure(JobNotFound("Job '" + jobId + "' not found"))
    case Found(job) =>
      if |job| == 0 then Failure(JobNotFound("Job '" + jobId + "' not found")) else Success(job)
  }

  /** `get_result_path`: not found, then not completed, then a missing or
      empty output path (an absent or empty result counting as `{}`). */
  function ResultPath(lookup: Lookup, jobId: string): (r: Result<Value, QueryError>)
    ensures r.Success? <==>
      && JobOrError(lookup, jobId).Success?
      && Get(lookup.record, "status") == Str("COMPLETED")
      && Get(lookup.record, "result").Dict?
      && Truthy(Get(Get(lookup.record, "result").fields, "output_path"))
    ensures r.Success? ==> r.value == Get(Get(lookup.record, "result").fields, "output_path")
    ensures JobOrError(lookup, jobId).Failure? ==> r == Failure(JobOrError(lookup, jobId).error)
    ensures r.Failure? && r.error.JobNotCompleted? ==>
      lookup.Found? && Get(lookup.record, "status") != Str("COMPLETED")
    ensures r.Failure? && r.error.JobOutputMissing? ==>
      lookup.Found? && Get(lookup.record, "status") == Str("COMPLETED")
  {
    match JobOrError(lookup, jobId)
    case Failure(e) => Failure(e)
    case Success(job) =>
      if Get(job, "status") != Str("COMPLETED") then
        Failure(JobNotCompleted("Job '" + jobId + "' is not completed"))
      else
        var result := OrEmptyDict(Get(job, "result"));
        if !result.Dict? then Failure(Raised(NoGetMessage(result)))
        else
          var outputPath := Get(result.fields, "output_path");
          if !Truthy(outputPath) then Failure(JobOutputMissing("Output for job '" + jobId + "' not found"))
          else Success(outputPath)
  }

  class JobQueryService {
    const repo: JobRepository

    constructor(repo: JobRepository)
      ensures this.repo == repo
    {
      this.repo := repo;
    }

    method GetJob(jobId: string) returns (r: Result<Record, QueryError>)
      ensures r == JobOrError(Fetch(repo.codec, repo.store, jobId), jobId)
    {
      var job := repo.GetJob(jobId);
      if job.Undecodable? {
        return Failure(UnreadableRecord);
      }
      if job.Absent? || |job.record| == 0 {
        return Failure(JobNotFound("Job '" + jobId + "' not found"));
      }
      return Success(job.record);
    }

    /** Reads only: the repository is not written. */
    method GetResultPath(jobId: string) returns (r: Result<Value, QueryError>)
      ensures r == ResultPath(Fetch(repo.codec, repo.store, jobId), jobId)
    {
      var found := GetJob(jobId);
      if found.Failure? {
        return Failure(found.error);
      }
      var job := found.value;
      if Get(job, "status") != Str("COMPLETED") {
        return Failure(JobNotCompleted("Job '" + jobId + "' is not completed"));
      }
      var result := OrEmptyDict(Get(job, "result"));
      if !result.Dict? {
        return Failure(Raised(NoGetMessage(result)));
      }
      var outputPath := Get(result.fields, "output_path");
      if !Truthy(outputPath) {
        return Failure(JobOutputMissing("Output for job '" + jobId + "' not found"));
      }
      return Success(outputPath);
    }
  }

  // ---------------------------------------------------------------------
  // Processing
  // ---------------------------------------------------------------------

  /** One `executor.run` call. */
  datatype ExecCall = ExecCall(context: Record, enabled: Value, order: Value, groups: Value)

  /** One `notifier.notify` call. */
  datatype Notice = Notice(callbackUrl: Value, jobId: string, payload: Record)

  /** One `repository.update_job` call. */
  datatype JobWrite = JobWrite(jobId: string, fields: Record)

  /** What `process` lets escape: the decoding error of `get_job`, or an
      exception from the notifier in the `except` branch. */
  datatype Escape = UndecodableRecord | NotifyRaised(message: string)

  /** The collaborators of the processing service. Each failing call gives
      the `str()` of its exception. */
  datatype Worker = Worker(
    outputPathOf: string -> string,
    ensurePath: string -> Option<string>,
    run: ExecCall -> Result<seq<StageKey>, string>,
    notify: Notice -> Option<string>)

  type StageKey = string

  /** Everything one `process` call does, in order per collaborator. */
  datatype Trace = Trace(writes: seq<JobWrite>, ensured: seq<string>, runs: seq<ExecCall>,
                         notices: seq<Notice>, escaped: Option<Escape>)

  function NoEffects(): Trace
  {
    Trace([], [], [], [], None)
  }

  function StatusWrite(jobId: string, status: string): JobWrite
  {
    JobWrite(jobId, map["status" := Str(status)])
  }

  function Context(jobId: string, inputPath: Value, outputPath: string): Record
  {
    map["job_id" := Str(jobId), "input_path" := inputPath, "output_path" := Str(outputPath)]
  }

  function ResultPayload(outputPath: string, keys: seq<StageKey>): Record
  {
    map["output_path" := Str(outputPath), "stages" := List(seq(|keys|, i requires 0 <= i < |keys| => Str(keys[i])))]
  }

  function FailedFields(message: string, traceback: string): Record
  {
    map["status" := Str("FAILED"), "error" := Str(message), "traceback" := Str(traceback)]
  }

  function FailedNotice(job: Record, jobId: string, message: string): Notice
  {
    Notice(Get(job, "callback_url"), jobId, map["status" := Str("FAILED"), "error" := Str(message)])
  }

  /** The executor call `process` makes for a job, when the configuration
      is a dictionary and the record has an input path. */
  function CallFor(jobId: string, job: Record, config: Value, outputPath: string): ExecCall
    requires config.Dict? && "input_path" in job
  {
    ExecCall(Context(jobId, job["input_path"], outputPath),
             Get(config.fields, "enabled_stages"), Get(config.fields, "order"), Get(config.fields, "parallel_groups"))
  }

  /** The `try` block of `process`: its effects, and the message of the
      exception that ended it, if any. */
  function TryBlock(w: Worker, jobId: string, job: Record): (r: (Trace, Option<string>))
    ensures |r.0.writes| <= 1 && r.0.escaped.None?
    ensures r.1.None? ==> |r.0.writes| == 1
    ensures forall x :: x in r.0.writes ==> x.jobId == jobId && Get(x.fields, "status") == Str("COMPLETED")
  {
    var outputPath := w.outputPathOf(jobId);
    var config := OrEmptyDict(Get(job, "pipeline_config"));
    if w.ensurePath(outputPath).Some? then
      (Trace([], [outputPath], [], [], None), w.ensurePath(outputPath))
    else if !config.Dict? then
      (Trace([], [outputPath], [], [], None), Some(NoGetMessage(config)))
    else if "input_path" !in job then
      (Trace([], [outputPath], [], [], None), Some("'input_path'"))
    else
      var call := CallFor(jobId, job, config, outputPath);
      match w.run(call)
      case Failure(message) => (Trace([], [outputPath], [call], [], None), Some(message))
      case Success(keys) =>
        var payload := ResultPayload(outputPath, keys);
        var notice := Notice(Get(job, "callback_url"), jobId, payload);
        (Trace([JobWrite(jobId, CompletedFields(payload))],
               [outputPath], [call], [notice], None),
         w.notify(notice))
  }

  /** `process`, as the trace of calls it makes. */
  function ProcessTrace(w: Worker, jobId: string, lookup: Lookup, traceback: string): Trace
  {
    match lookup
    case Undecodable => Trace([], [], [], [], Some(UndecodableRecord))
    case Absent => NoEffects()
    case Found(job) =>
      if |job| == 0 then NoEffects()
      else
        var running := StatusWrite(jobId, "RUNNING");
        var (t, error) := TryBlock(w, jobId, job);
        match error
        case None => Trace([running] + t.writes, t.ensured, t.runs, t.notices, None)
        case Some(message) =>
          var notice := FailedNotice(job, jobId, message);
          Trace([running] + t.writes + [JobWrite(jobId, FailedFields(message, traceback))],
                t.ensured, t.runs, t.notices + [notice],
                match w.notify(notice)
                case Some(e) => Some(NotifyRaised(e))
                case None => None)
  }

  /** The store after a sequence of `update_job` calls at time `now`. */
  function ApplyWrites(codec: JsonCodec, store: Store, ws: seq<JobWrite>, now: int): Store
    decreases ws
  {
    if ws == [] then store
    else ApplyWrites(codec, Update(codec, store, ws[0].jobId, ws[0].fields, now), ws[1..], now)
  }

  lemma {:induction false} ApplyWritesAppend(codec: JsonCodec, store: Store, ws: seq<JobWrite>, x: JobWrite, now: int)
    decreases ws
    ensures ApplyWrites(codec, store, ws + [x], now) ==
      Update(codec, ApplyWrites(codec, store, ws, now), x.jobId, x.fields, now)
  {
    if ws != [] {
      assert (ws + [x])[1..] == ws[1..] + [x];
      ApplyWritesAppend(codec, Update(codec, store, ws[0].jobId, ws[0].fields, now), ws[1..], x, now);
    }
  }

  function Statuses(ws: seq<JobWrite>): seq<Value>
  {
    if ws == [] then [] else [Get(ws[0].fields, "status")] + Statuses(ws[1..])
  }

  /** Absent or empty records are skipped without any call; a readable
      record is always marked RUNNING first and ends COMPLETED or FAILED
      (FAILED after COMPLETED when the success notification raised); the
      stored status is never consulted, so finished jobs run again; every
      write is to this job. */
  lemma ProcessLifecycle(w: Worker, jobId: string, lookup: Lookup, traceback: string)
    ensures var t := ProcessTrace(w, jobId, lookup, traceback);
      (lookup.Absent? || lookup == Found(map[])) ==> t == NoEffects()
    ensures var t := ProcessTrace(w, jobId, lookup, traceback);
      lookup.Found? && |lookup.record| > 0 ==>
        || Statuses(t.writes) == [Str("RUNNING"), Str("COMPLETED")]
        || Statuses(t.writes) == [Str("RUNNING"), Str("FAILED")]
        || Statuses(t.writes) == [Str("RUNNING"), Str("COMPLETED"), Str("FAILED")]
    ensures var t := ProcessTrace(w, jobId, lookup, traceback);
      forall x :: x in t.writes ==> x.jobId == jobId
  {
    if lookup.Found? && |lookup.record| > 0 {
      FoundLifecycle(w, jobId, lookup.record, traceback);
    }
  }

  /** The status sequence of `process` on a non-empty record. */
  lemma FoundLifecycle(w: Worker, jobId: string, job: Record, traceback: string)
    requires |job| > 0
    ensures var t := ProcessTrace(w, jobId, Found(job), traceback);
      && (|| Statuses(t.writes) == [Str("RUNNING"), Str("COMPLETED")]
          || Statuses(t.writes) == [Str("RUNNING"), Str("FAILED")]
          || Statuses(t.writes) == [Str("RUNNING"), Str("COMPLETED"), Str("FAILED")])
      && forall x :: x in t.writes ==> x.jobId == jobId
  {
    var t := ProcessTrace(w, jobId, Found(job), traceback);
    var (tb, error) := TryBlock(w, jobId, job);
    var running := StatusWrite(jobId, "RUNNING");
    FoundTrace(w, jobId, job, traceback);
    StatusOne(running);
    var mid := Statuses(tb.writes);
    assert mid == [] || mid == [Str("COMPLETED")] by {
      if tb.writes != [] {
        assert tb.writes == [tb.writes[0]];
        StatusOne(tb.writes[0]);
      }
    }
    StatusesAppend([running], tb.writes);
    if error.None? {
      assert mid == [Str("COMPLETED")];
      assert Statuses(t.writes) == [Str("RUNNING")] + [Str("COMPLETED")];
    } else {
      var f := JobWrite(jobId, FailedFields(error.value, traceback));
      StatusOne(f);
      StatusesAppend([running] + tb.writes, [f]);
      assert Statuses(t.writes) == [Str("RUNNING")] + mid + [Str("FAILED")];
      if mid == [] {
        assert Statuses(t.writes) == [Str("RUNNING"), Str("FAILED")];
      } else {
        assert Statuses(t.writes) == [Str("RUNNING"), Str("COMPLETED"), Str("FAILED")];
      }
    }
  }

  lemma StatusOne(x: JobWrite)
    ensures Statuses([x]) == [Get(x.fields, "status")]
  {
    assert [x][1..] == [];
  }

  lemma {:induction false} StatusesAppend(ws: seq<JobWrite>, vs: seq<JobWrite>)
    ensures Statuses(ws + vs) == Statuses(ws) + Statuses(vs)
  {
    if ws == [] {
      assert ws + vs == vs;
    } else {
      assert (ws + vs)[0] == ws[0] && (ws + vs)[1..] == ws[1..] + vs;
      StatusesAppend(ws[1..], vs);
      SeqAssoc([Get(ws[0].fields, "status")], Statuses(ws[1..]), Statuses(vs));
    }
  }

  /** The success trace: RUNNING; the output path built and ensured; one
      executor call with the job's context and the configuration's three
      entries (None when absent); COMPLETED with the output path and the
      stage keys in order; that same payload sent to the job's callback. */
  lemma ProcessSucceeds(w: Worker, jobId: string, job: Record, traceback: string, keys: seq<StageKey>)
    requires |job| > 0 && "input_path" in job
    requires var out := w.outputPathOf(jobId); w.ensurePath(out).None?
    requires OrEmptyDict(Get(job, "pipeline_config")).Dict?
    requires var config := OrEmptyDict(Get(job, "pipeline_config"));
      w.run(CallFor(jobId, job, config, w.outputPathOf(jobId))) == Success(keys)
    requires var payload := ResultPayload(w.outputPathOf(jobId), keys);
      w.notify(Notice(Get(job, "callback_url"), jobId, payload)).None?
    ensures var out := w.outputPathOf(jobId);
      var config := OrEmptyDict(Get(job, "pipeline_config"));
      var payload := ResultPayload(out, keys);
      ProcessTrace(w, jobId, Found(job), traceback) ==
        Trace([StatusWrite(jobId, "RUNNING"), JobWrite(jobId, CompletedFields(payload))],
              [out],
              [ExecCall(map["job_id" := Str(jobId), "input_path" := job["input_path"], "output_path" := Str(out)],
                        Get(config.fields, "enabled_stages"), Get(config.fields, "order"),
                        Get(config.fields, "parallel_groups"))],
              [Notice(Get(job, "callback_url"), jobId, payload)],
              None)
  {
  }

  /** An executor exception: RUNNING, then FAILED with its message and the
      traceback, and the callback told `{status: FAILED, error}`; nothing is
      raised unless that notification itself raises. */
  lemma ProcessFailsOnRunError(w: Worker, jobId: string, job: Record, traceback: string, message: string)
    requires |job| > 0 && "input_path" in job
    requires w.ensurePath(w.outputPathOf(jobId)).None?
    requires OrEmptyDict(Get(job, "pipeline_config")).Dict?
    requires var config := OrEmptyDict(Get(job, "pipeline_config"));
      w.run(CallFor(jobId, job, config, w.outputPathOf(jobId))) == Failure(message)
    ensures var t := ProcessTrace(w, jobId, Found(job), traceback);
      && t.writes == [StatusWrite(jobId, "RUNNING"),
                      JobWrite(jobId, map["status" := Str("FAILED"), "error" := Str(message), "traceback" := Str(traceback)])]
      && t.notices == [Notice(Get(job, "callback_url"), jobId, map["status" := Str("FAILED"), "error" := Str(message)])]
      && (t.escaped.Some? <==> w.notify(FailedNotice(job, jobId, message)).Some?)
  {
  }

  /** `process` raises only when the record cannot be decoded or the
      failure notification raises; with a notifier that never raises on a
      failure notice, it raises only for an undecodable record. */
  lemma ProcessRaisesOnlyFrom(w: Worker, jobId: string, lookup: Lookup, traceback: string)
    ensures var t := ProcessTrace(w, jobId, lookup, traceback);
      t.escaped.Some? ==>
        lookup.Undecodable? ||
        (lookup.Found? && t.escaped.value.NotifyRaised? &&
         exists m :: w.notify(FailedNotice(lookup.record, jobId, m)) == Some(t.escaped.value.message))
  {
    if lookup.Found? && |lookup.record| > 0 {
      var (tb, error) := TryBlock(w, jobId, lookup.record);
      if error.Some? {
        var m := error.value;
        assert FailedNotice(lookup.record, jobId, m) == FailedNotice(lookup.record, jobId, m);
      }
    }
  }

  function CompletedFields(result: Record): Record
  {
    map["status" := Str("COMPLETED"), "result" := Dict(result)]
  }

  lemma StatusUpdateRoundTrips(status: string, now: int)
    requires status != ""
    ensures AllRoundTrip(UpdatePayload(map["status" := Str(status)], now))
  {
    var p := UpdatePayload(map["status" := Str(status)], now);
    assert p.Keys == {"status", "updated_at"};
  }

  lemma CompletedUpdateRoundTrips(result: Record, now: int)
    ensures AllRoundTrip(UpdatePayload(CompletedFields(result), now))
  {
    var p := UpdatePayload(CompletedFields(result), now);
    assert p.Keys == {"status", "result", "updated_at"};
    assert p["result"] == Dict(result);
  }

  /** The RUNNING write, then the COMPLETED write, merged into a readable record. */
  lemma {:induction false} RunningThenCompleted(codec: JsonCodec, store: Store, jobId: string, job: Record,
                                                result: Record, now: int)
    requires Lossless(codec) && Fetch(codec, store, jobId) == Found(job)
    ensures var ws := [StatusWrite(jobId, "RUNNING"), JobWrite(jobId, CompletedFields(result))];
      Fetch(codec, ApplyWrites(codec, store, ws, now), jobId) ==
        Found(job + UpdatePayload(map["status" := Str("RUNNING")], now) + UpdatePayload(CompletedFields(result), now))
  {
    var running := map["status" := Str("RUNNING")];
    var a, b := StatusWrite(jobId, "RUNNING"), JobWrite(jobId, CompletedFields(result));
    assert a.fields == running;
    var s1 := Update(codec, store, jobId, running, now);
    StatusUpdateRoundTrips("RUNNING", now);
    UpdateThenFetch(codec, store, jobId, job, running, now);
    CompletedUpdateRoundTrips(result, now);
    UpdateThenFetch(codec, s1, jobId, job + UpdatePayload(running, now), CompletedFields(result), now);
    TwoWrites(codec, store, a, b, now);
  }

  lemma SeqAssoc<T>(a: seq<T>, b: seq<T>, c: seq<T>)
    ensures a + (b + c) == a + b + c
  {
  }

  /** The trace of `process` for a non-empty record, in terms of its `try` block. */
  lemma FoundTrace(w: Worker, jobId: string, job: Record, traceback: string)
    requires |job| > 0
    ensures var (t, e) := TryBlock(w, jobId, job);
      var p := ProcessTrace(w, jobId, Found(job), traceback);
      && p.ensured == t.ensured && p.runs == t.runs
      && (e.None? ==> p.writes == [StatusWrite(jobId, "RUNNING")] + t.writes && p.notices == t.notices && p.escaped.None?)
      && (e.Some? ==>
            && p.writes == [StatusWrite(jobId, "RUNNING")] + t.writes + [JobWrite(jobId, FailedFields(e.value, traceback))]
            && p.notices == t.notices + [FailedNotice(job, jobId, e.value)]
            && p.escaped == (match w.notify(FailedNotice(job, jobId, e.value))
                             case Some(m) => Some(NotifyRaised(m))
                             case None => None))
  {
  }

  lemma OneWrite(codec: JsonCodec, store: Store, a: JobWrite, now: int)
    ensures ApplyWrites(codec, store, [a], now) == Update(codec, store, a.jobId, a.fields, now)
  {
    assert [a][0] == a && [a][1..] == [];
  }

  lemma ConsWrite(codec: JsonCodec, store: Store, a: JobWrite, ws: seq<JobWrite>, now: int)
    ensures ApplyWrites(codec, store, [a] + ws, now) ==
      ApplyWrites(codec, Update(codec, store, a.jobId, a.fields, now), ws, now)
  {
    assert ([a] + ws)[0] == a && ([a] + ws)[1..] == ws;
  }

  lemma TwoWrites(codec: JsonCodec, store: Store, a: JobWrite, b: JobWrite, now: int)
    ensures ApplyWrites(codec, store, [a, b], now) ==
      Update(codec, Update(codec, store, a.jobId, a.fields, now), b.jobId, b.fields, now)
  {
    var ws := [a, b];
    var s1 := Update(codec, store, a.jobId, a.fields, now);
    assert ws[0] == a && ws[1..] == [b];
    assert ApplyWrites(codec, store, ws, now) == ApplyWrites(codec, s1, [b], now);
    assert [b][0] == b && [b][1..] == [];
    assert ApplyWrites(codec, s1, [b], now) == ApplyWrites(codec, Update(codec, s1, b.jobId, b.fields, now), [], now);
  }

  /** A record whose last write was COMPLETED with a non-empty output path
      yields that path. */
  lemma CompletedRecordHasPath(rec: Record, result: Record, jobId: string, now: int, out: string)
    requires out != "" && Get(result, "output_path") == Str(out)
    ensures ResultPath(Found(rec + UpdatePayload(CompletedFields(result), now)), jobId) == Success(Str(out))
  {
    var fields := CompletedFields(result);
    var job := rec + UpdatePayload(fields, now);
    assert "status" in fields && "result" in fields;
    assert job["status"] == fields["status"] == Str("COMPLETED");
    assert job["result"] == fields["result"] == Dict(result);
    assert |job| > 0 by { assert "status" in job; }
    assert JobOrError(Found(job), jobId) == Success(job);
    assert OrEmptyDict(Get(job, "result")) == Dict(result);
  }

  /** After a successful run the job reads back as COMPLETED and the query
      service returns the output path, when the path is not empty and the
      record was readable before. */
  lemma ProcessedJobHasResultPath(codec: JsonCodec, store: Store, w: Worker, jobId: string, job: Record,
                                  traceback: string, now: int, keys: seq<StageKey>)
    requires Lossless(codec) && Fetch(codec, store, jobId) == Found(job)
    requires |job| > 0 && "input_path" in job && w.outputPathOf(jobId) != ""
    requires w.ensurePath(w.outputPathOf(jobId)).None?
    requires OrEmptyDict(Get(job, "pipeline_config")).Dict?
    requires var config := OrEmptyDict(Get(job, "pipeline_config"));
      w.run(CallFor(jobId, job, config, w.outputPathOf(jobId))) == Success(keys)
    requires w.notify(Notice(Get(job, "callback_url"), jobId, ResultPayload(w.outputPathOf(jobId), keys))).None?
    ensures var t := ProcessTrace(w, jobId, Found(job), traceback);
      ResultPath(Fetch(codec, ApplyWrites(codec, store, t.writes, now), jobId), jobId)
        == Success(Str(w.outputPathOf(jobId)))
  {
    var out := w.outputPathOf(jobId);
    var payload := ResultPayload(out, keys);
    ProcessSucceeds(w, jobId, job, traceback, keys);
    RunningThenCompleted(codec, store, jobId, job, payload, now);
    assert Get(payload, "output_path") == Str(out);
    CompletedRecordHasPath(job + UpdatePayload(map["status" := Str("RUNNING")], now), payload, jobId, now, out);
  }

  class JobProcessingService {
    const repo: JobRepository
    const worker: Worker
    var writes: seq<JobWrite>
    var ensured: seq<string>
    var runs: seq<ExecCall>
    var notices: seq<Notice>

    constructor(repo: JobRepository, worker: Worker)
      ensures this.repo == repo && this.worker == worker
      ensures writes == [] && ensured == [] && runs == [] && notices == []
    {
      this.repo := repo;
      this.worker := worker;
      writes := [];
      ensured := [];
      runs := [];
      notices := [];
    }

    /** One `update_job` call, logged. */
    method UpdateJob(jobId: string, fields: Record, now: int)
      modifies this, repo
      ensures writes == old(writes) + [JobWrite(jobId, fields)]
      ensures repo.store == Update(repo.codec, old(repo.store), jobId, fields, now)
      ensures ensured == old(ensured) && runs == old(runs) && notices == old(notices)
    {
      repo.UpdateJob(jobId, fields, now);
      writes := writes + [JobWrite(jobId, fields)];
    }

    /** The `try` block of `process`, after the RUNNING write. */
    method RunTry(jobId: string, record: Record, now: int) returns (error: Option<string>)
      modifies this, repo
      ensures var (t, e) := TryBlock(worker, jobId, record);
        && writes == old(writes) + t.writes
        && ensured == old(ensured) + t.ensured
        && runs == old(runs) + t.runs
        && notices == old(notices) + t.notices
        && error == e
        && repo.store == ApplyWrites(repo.codec, old(repo.store), t.writes, now)
    {
      var outputPath := worker.outputPathOf(jobId);
      ensured := ensured + [outputPath];
      var config := OrEmptyDict(Get(record, "pipeline_config"));
      if worker.ensurePath(outputPath).Some? {
        error := worker.ensurePath(outputPath);
      } else if !config.Dict? {
        error := Some(NoGetMessage(config));
      } else if "input_path" !in record {
        error := Some("'input_path'");
      } else {
        var call := CallFor(jobId, record, config, outputPath);
        var results := worker.run(call);
        runs := runs + [call];
        if results.Failure? {
          error := Some(results.error);
        } else {
          var payload := ResultPayload(outputPath, results.value);
          ghost var store0 := repo.store;
          UpdateJob(jobId, CompletedFields(payload), now);
          OneWrite(repo.codec, store0, JobWrite(jobId, CompletedFields(payload)), now);
          var notice := Notice(Get(record, "callback_url"), jobId, payload);
          notices := notices + [notice];
          error := worker.notify(notice);
        }
      }
    }

    /** `process`: every write of the call is stamped `now`; `traceback` is
        what `traceback.format_exc()` returns. */
    method Process(jobId: string, now: int, traceback: string) returns (escaped: Option<Escape>)
      modifies this, repo
      ensures var t := ProcessTrace(worker, jobId, old(Fetch(repo.codec, repo.store, jobId)), traceback);
        && writes == old(writes) + t.writes
        && ensured == old(ensured) + t.ensured
        && runs == old(runs) + t.runs
        && notices == old(notices) + t.notices
        && escaped == t.escaped
        && repo.store == ApplyWrites(repo.codec, old(repo.store), t.writes, now)
    {
      var job := repo.GetJob(jobId);
      if job.Undecodable? {
        return Some(UndecodableRecord);
      }
      if job.Absent? || |job.record| == 0 {
        return None;
      }
      escaped := ProcessRecord(jobId, job.record, now, traceback);
    }

    /** `process` once `get_job` has returned a non-empty record. */
    method ProcessRecord(jobId: string, record: Record, now: int, traceback: string) returns (escaped: Option<Escape>)
      requires |record| > 0
      modifies this, repo
      ensures var t := ProcessTrace(worker, jobId, Found(record), traceback);
        && writes == old(writes) + t.writes
        && ensured == old(ensured) + t.ensured
        && runs == old(runs) + t.runs
        && notices == old(notices) + t.notices
        && escaped == t.escaped
        && repo.store == ApplyWrites(repo.codec, old(repo.store), t.writes, now)
    {
      ghost var store0, writes0, notices0 := repo.store, writes, notices;
      ghost var tried := TryBlock(worker, jobId, record).0;
      FoundTrace(worker, jobId, record, traceback);
      var running := StatusWrite(jobId, "RUNNING");
      UpdateJob(jobId, running.fields, now);
      var error := RunTry(jobId, record, now);
      ConsWrite(repo.codec, store0, running, tried.writes, now);
      SeqAssoc(writes0, [running], tried.writes);
      escaped := None;
      if error.Some? {
        var failed := JobWrite(jobId, FailedFields(error.value, traceback));
        var notice := FailedNotice(record, jobId, error.value);
        escaped := ReportFailure(jobId, record, error.value, now, traceback);
        SeqAssoc(writes0, [running] + tried.writes, [failed]);
        SeqAssoc(notices0, tried.notices, [notice]);
        ApplyWritesAppend(repo.codec, store0, [running] + tried.writes, failed, now);
      }
    }

    /** The `except` branch of `process`: record the failure, then notify. */
    method ReportFailure(jobId: string, record: Record, message: string, now: int, traceback: string)
      returns (escaped: Option<Escape>)
      modifies this, repo
      ensures writes == old(writes) + [JobWrite(jobId, FailedFields(message, traceback))]
      ensures repo.store == Update(repo.codec, old(repo.store), jobId, FailedFields(message, traceback), now)
      ensures notices == old(notices) + [FailedNotice(record, jobId, message)]
      ensures ensured == old(ensured) && runs == old(runs)
      ensures escaped == (match worker.notify(FailedNotice(record, jobId, message))
                          case Some(m) => Some(NotifyRaised(m))
                          case None => None)
    {
      UpdateJob(jobId, FailedFields(message, traceback), now);
      var notice := FailedNotice(record, jobId, message);
      notices := notices + [notice];
      var raised := worker.notify(notice);
      escaped := if raised.Some? then Some(NotifyRaised(raised.value)) else None;
    }
  }
}
