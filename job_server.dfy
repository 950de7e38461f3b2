/** The job table of the Demucs separation API server (server.py): the
    in-memory `JOBS` dictionary, the endpoints that read and change it, and
    the background run that moves a job from pending to running to
    completed or failed. The dictionary keeps insertion order, so it is a
    sequence of ids beside a map from id to job. Clocks, generated ids, the
    models file, the progress file and the result files are inputs. */
module JobServer {
  import opened Support

  datatype JobState = Pending | Running | Completed | Failed

  /** The status string stored and reported for a state. */
  function StateName(s: JobState): string {
    match s
    case Pending => "pending"
    case Running => "running"
    case Completed => "completed"
    case Failed => "failed"
  }

  /** One entry of `JOBS`; timestamps are ISO strings supplied by the caller. */
  datatype Job = Job(
    status: JobState,
    inputUrl: string,
    intervalCut: Option<string>,
    allStems: bool,
    createdAt: string,
    startedAt: Option<string>,
    completedAt: Option<string>,
    error: Option<string>)

  /** The fields of a job that every sequence of endpoint calls and runs keeps
      consistent with its status. */
  predicate WellFormed(j: Job) {
    && (j.status == Pending ==> j.startedAt.None? && j.completedAt.None? && j.error.None?)
    && (j.status == Running ==> j.startedAt.Some?)
    && (j.status == Completed ==> j.completedAt.Some?)
    && (j.status == Failed ==> j.error.Some?)
  }

  /** The body of `POST /job`. */
  datatype JobRequest = JobRequest(inputUrl: string, intervalCut: Option<string>, allStems: bool,
                                   jobId: Option<string>)

  /** An HTTP error response, by status code. */
  datatype HttpError = HttpError(code: int)

  datatype JobCreated = JobCreated(jobId: string, status: string)

  /** How the `demucs-separate` subprocess ended: it exited with a code and
      its combined output, or starting or awaiting it raised. */
  datatype RunOutcome = ProcessExited(code: int, output: string) | LaunchRaised(msg: string)

  /** The server's counters as `GET /status` reports them. */
  datatype ServerStatus = ServerStatus(status: string, modelsReady: bool, activeJobs: nat,
                                       completedJobs: nat, uptimeSeconds: int)

  /** The JSON object in a job's `progress.txt` (None: missing, unreadable
      or empty). */
  datatype ProgressData = ProgressData(state: Option<string>, tasks: Option<map<string, string>>,
                                       details: Option<map<string, string>>,
                                       elapsedSeconds: Option<real>)

  /** The body of `GET /job/{id}`. */
  datatype JobStatusView = JobStatusView(
    jobId: string,
    status: string,
    state: Option<string>,
    tasks: Option<map<string, string>>,
    details: Option<map<string, string>>,
    elapsedSeconds: Option<real>,
    error: Option<string>)

  /** What `GET /result/{id}` serves. */
  datatype ResultFile = ResultFile(filename: string, mediaType: string)

  /** One entry of `GET /jobs`. */
  datatype JobEntry = JobEntry(jobId: string, status: string, createdAt: string, completedAt: Option<string>)

  function NewJob(request: JobRequest, now: string): (j: Job)
    ensures j.status == Pending && WellFormed(j)
  {
    Job(Pending, request.inputUrl, request.intervalCut, request.allStems, now, None, None, None)
  }

  /** `job_id = request.job_id or <generated>`: an empty id is replaced too. */
  function ChosenId(request: JobRequest, generatedId: string): string {
    if Truthy(request.jobId) then request.jobId.value else generatedId
  }

  /** The job after its run ended. */
  function Finished(j: Job, outcome: RunOutcome, now: string): (r: Job)
    ensures r.status == Completed <==> outcome.ProcessExited? && outcome.code == 0
    ensures r.status == Completed ==> r.completedAt == Some(now) && r.error == j.error
    ensures r.status != Completed ==> r.status == Failed && r.completedAt == j.completedAt
    ensures outcome.ProcessExited? && outcome.code != 0 ==>
      r.error == Some(if outcome.output != "" then outcome.output else "Unknown error")
    ensures outcome.LaunchRaised? ==> r.error == Some(outcome.msg)
    ensures r.startedAt == j.startedAt && r.createdAt == j.createdAt && r.inputUrl == j.inputUrl
  {
    match outcome
    case ProcessExited(code, output) =>
      if code == 0 then j.(status := Completed, completedAt := Some(now))
      else j.(status := Failed, error := Some(if output != "" then output else "Unknown error"))
    case LaunchRaised(msg) => j.(status := Failed, error := Some(msg))
  }

  /** Ids with no duplicate. */
  ghost predicate Distinct(ids: seq<string>) {
    forall i, j :: 0 <= i < j < |ids| ==> ids[i] != ids[j]
  }

  /** `ids` without `x`, the rest in order. */
  function Without(ids: seq<string>, x: string): (r: seq<string>)
    ensures forall y :: y in r <==> y in ids && y != x
    ensures |r| <= |ids|
  {
    if ids == [] then [] else (if ids[0] == x then [] else [ids[0]]) + Without(ids[1..], x)
  }

  lemma {:induction false} WithoutDistinct(ids: seq<string>, x: string)
    requires Distinct(ids)
    ensures Distinct(Without(ids, x))
  {
    if ids != [] {
      WithoutDistinct(ids[1..], x);
      var r := Without(ids, x);
      var t := Without(ids[1..], x);
      if ids[0] != x {
        forall i, j | 0 <= i < j < |r| ensures r[i] != r[j] {
          if i == 0 {
            assert r[j] == t[j - 1];
            assert t[j - 1] in ids[1..];
          } else {
            assert r[i] == t[i - 1] && r[j] == t[j - 1];
          }
        }
      }
    }
  }

  /** How many of the jobs listed in `ids` are in state `st`. */
  function CountIn(ids: seq<string>, jobs: map<string, Job>, st: JobState): nat
    requires forall i :: 0 <= i < |ids| ==> ids[i] in jobs
    decreases |ids|
  {
    if ids == [] then 0
    else CountIn(ids[..|ids| - 1], jobs, st) + (if jobs[ids[|ids| - 1]].status == st then 1 else 0)
  }

  /** The counting loop of `GET /status` over the job order. */
  method CountStates(ids: seq<string>, jobs: map<string, Job>) returns (active: nat, completed: nat)
    requires forall i :: 0 <= i < |ids| ==> ids[i] in jobs
    ensures active == CountIn(ids, jobs, Running)
    ensures completed == CountIn(ids, jobs, Completed)
  {
    active := 0;
    completed := 0;
    var i := 0;
    while i < |ids|
      invariant 0 <= i <= |ids|
      invariant active == CountIn(ids[..i], jobs, Running)
      invariant completed == CountIn(ids[..i], jobs, Completed)
    {
      assert ids[..i + 1][..i] == ids[..i];
      var status := jobs[ids[i]].status;
      if status == Running {
        active := active + 1;
      }
      if status == Completed {
        completed := completed + 1;
      }
      i := i + 1;
    }
    assert ids[..i] == ids;
  }

  /** Jobs in two different states are counted apart: the two counts never
      exceed the number of jobs listed. */
  lemma {:induction false} CountsBounded(ids: seq<string>, jobs: map<string, Job>, a: JobState, b: JobState)
    requires forall i :: 0 <= i < |ids| ==> ids[i] in jobs
    requires a != b
    ensures CountIn(ids, jobs, a) + CountIn(ids, jobs, b) <= |ids|
    decreases |ids|
  {
    if ids != [] {
      CountsBounded(ids[..|ids| - 1], jobs, a, b);
    }
  }

  /** A duplicate-free id list is exactly as long as the set of its ids. */
  lemma {:induction false} DistinctCard(ids: seq<string>)
    requires Distinct(ids)
    ensures |set x | x in ids| == |ids|
    decreases |ids|
  {
    if ids != [] {
      var init := ids[..|ids| - 1];
      var last := ids[|ids| - 1];
      DistinctCard(init);
      assert (set x | x in ids) == (set x | x in init) + {last} by {
        assert ids == init + [last];
      }
      assert last !in init by {
        forall i | 0 <= i < |init| ensures init[i] != last {
          assert ids[i] != ids[|ids| - 1];
        }
      }
    }
  }

  /** The entries `GET /jobs` lists from the window of ids: those whose status
      matches the filter (all when there is none), in order. */
  function Listing(window: seq<string>, jobs: map<string, Job>, filter: Option<string>): seq<JobEntry>
    requires forall i :: 0 <= i < |window| ==> window[i] in jobs
    decreases |window|
  {
    if window == [] then []
    else
      var id := window[|window| - 1];
      var j := jobs[id];
      Listing(window[..|window| - 1], jobs, filter)
        + (if filter.None? || StateName(j.status) == filter.value
           then [JobEntry(id, StateName(j.status), j.createdAt, j.completedAt)] else [])
  }

  /** Every listed entry is a job of the window whose status matches the
      filter, reported as stored, and there are no more entries than jobs. */
  lemma {:induction false} ListingSound(window: seq<string>, jobs: map<string, Job>, filter: Option<string>)
    requires forall i :: 0 <= i < |window| ==> window[i] in jobs
    ensures var l := Listing(window, jobs, filter);
      && |l| <= |window|
      && forall e :: e in l ==>
           && e.jobId in window && e.status == StateName(jobs[e.jobId].status)
           && e.createdAt == jobs[e.jobId].createdAt && e.completedAt == jobs[e.jobId].completedAt
           && (filter.None? || e.status == filter.value)
    decreases |window|
  {
    if window != [] {
      var init := window[..|window| - 1];
      ListingSound(init, jobs, filter);
      var last := window[|window| - 1];
      forall e | e in Listing(window, jobs, filter)
        ensures e.jobId in window
      {
        if e in Listing(init, jobs, filter) {
          assert e.jobId in init;
        }
      }
    }
  }

  /** Without a filter every job of the window is listed, in order. */
  lemma {:induction false} ListingUnfiltered(window: seq<string>, jobs: map<string, Job>)
    requires forall i :: 0 <= i < |window| ==> window[i] in jobs
    ensures var l := Listing(window, jobs, None);
      |l| == |window| && forall i :: 0 <= i < |l| ==> l[i].jobId == window[i]
    decreases |window|
  {
    if window != [] {
      ListingUnfiltered(window[..|window| - 1], jobs);
    }
  }

  /** The ids of the window whose job reports status `s`, in window order. */
  ghost function InState(window: seq<string>, jobs: map<string, Job>, s: string): seq<string>
    requires forall i :: 0 <= i < |window| ==> window[i] in jobs
    decreases |window|
  {
    if window == [] then []
    else
      var id := window[|window| - 1];
      InState(window[..|window| - 1], jobs, s) + (if StateName(jobs[id].status) == s then [id] else [])
  }

  /** With a filter `s` the listing names exactly the jobs of the window whose
      status is `s`, each once per occurrence and in window order. */
  lemma {:induction false} ListingFiltered(window: seq<string>, jobs: map<string, Job>, s: string)
    requires forall i :: 0 <= i < |window| ==> window[i] in jobs
    ensures var l := Listing(window, jobs, Some(s));
      var ids := InState(window, jobs, s);
      && |l| == |ids|
      && (forall i :: 0 <= i < |l| ==> l[i].jobId == ids[i])
      && (forall id :: id in ids <==> id in window && StateName(jobs[id].status) == s)
    decreases |window|
  {
    if window != [] {
      var init := window[..|window| - 1];
      ListingFiltered(init, jobs, s);
      forall id | id in window && StateName(jobs[id].status) == s
        ensures id in InState(window, jobs, s)
      {
        if id != window[|window| - 1] {
          assert id in init;
        }
      }
    }
  }

  /** `GET /result/{id}` serves the file as MP3 audio when its name ends in ".mp3". */
  function MediaType(file: string): string {
    if |file| >= 4 && file[|file| - 4..] == ".mp3" then "audio/mpeg" else "application/octet-stream"
  }

  /** The loop of `list_jobs` over a window of ids. */
  method ListWindow(window: seq<string>, jobs: map<string, Job>, filter: Option<string>)
    returns (entries: seq<JobEntry>)
    requires forall i :: 0 <= i < |window| ==> window[i] in jobs
    ensures entries == Listing(window, jobs, filter)
  {
    entries := [];
    var i := 0;
    while i < |window|
      invariant 0 <= i <= |window|
      invariant entries == Listing(window[..i], jobs, filter)
    {
      assert window[..i + 1][..i] == window[..i];
      var job := jobs[window[i]];
      if filter.None? || StateName(job.status) == filter.value {
        entries := entries + [JobEntry(window[i], StateName(job.status), job.createdAt, job.completedAt)];
      }
      i := i + 1;
    }
    assert window[..i] == window;
  }

  class JobStore {
    /** The ids of `JOBS` in insertion order. */
    var ids: seq<string>
    /** `JOBS` itself. */
    var jobs: map<string, Job>

    /** `ids` lists each job of the table once, and every job is well formed. */
    ghost predicate Valid()
      reads this
    {
      && Distinct(ids)
      && (forall id :: id in jobs <==> id in ids)
      && (forall id :: id in jobs ==> WellFormed(jobs[id]))
    }

    constructor ()
      ensures Valid() && ids == [] && jobs == map[]
    {
      ids := [];
      jobs := map[];
    }

    /** `POST /job`: 409 when the id is taken (checked first), 503 when the
        models are not ready; otherwise a pending job is added at the end. */
    method CreateJob(request: JobRequest, generatedId: string, modelsReady: bool, now: string)
      returns (r: Result<JobCreated, HttpError>)
      requires Valid()
      modifies this
      ensures Valid()
      ensures var id := ChosenId(request, generatedId);
        && (id in old(jobs) ==> r == Err(HttpError(409)))
        && (id !in old(jobs) && !modelsReady ==> r == Err(HttpError(503)))
        && (r.Err? ==> jobs == old(jobs) && ids == old(ids))
        && (r.Ok? <==> id !in old(jobs) && modelsReady)
        && (r.Ok? ==>
              && r.value == JobCreated(id, "pending")
              && jobs == old(jobs)[id := NewJob(request, now)]
              && ids == old(ids) + [id])
    {
      var id := ChosenId(request, generatedId);
      if id in jobs {
        return Err(HttpError(409));
      }
      if !modelsReady {
        return Err(HttpError(503));
      }
      jobs := jobs[id := NewJob(request, now)];
      ids := ids + [id];
      r := Ok(JobCreated(id, "pending"));
    }

    /** Start of `run_demucs_job`: the job becomes running with its start
        time. A job deleted in the meantime makes the run raise, and the
        table is left alone. */
    method StartRun(jobId: string, now: string) returns (found: bool)
      requires Valid()
      modifies this`jobs
      ensures Valid()
      ensures found <==> jobId in old(jobs)
      ensures found ==> jobs == old(jobs)[jobId := old(jobs)[jobId].(status := Running, startedAt := Some(now))]
      ensures !found ==> jobs == old(jobs)
    {
      if jobId !in jobs {
        return false;
      }
      jobs := jobs[jobId := jobs[jobId].(status := Running, startedAt := Some(now))];
      found := true;
    }

    /** End of `run_demucs_job`: exit code 0 completes the job, anything
        else fails it with the output (or "Unknown error") or the exception
        text as its error. */
    method FinishRun(jobId: string, outcome: RunOutcome, now: string) returns (found: bool)
      requires Valid()
      modifies this`jobs
      ensures Valid()
      ensures found <==> jobId in old(jobs)
      ensures found ==> jobs == old(jobs)[jobId := Finished(old(jobs)[jobId], outcome, now)]
      ensures !found ==> jobs == old(jobs)
    {
      if jobId !in jobs {
        return false;
      }
      jobs := jobs[jobId := Finished(jobs[jobId], outcome, now)];
      found := true;
    }

    /** `GET /status`: how many jobs are running and how many completed. */
    method GetStatus(modelsReady: bool, uptimeSeconds: int) returns (st: ServerStatus)
      requires Valid()
      ensures st.activeJobs == CountIn(ids, jobs, Running)
      ensures st.completedJobs == CountIn(ids, jobs, Completed)
      ensures st.activeJobs + st.completedJobs <= |jobs|
      ensures st.status == "running" && st.modelsReady == modelsReady && st.uptimeSeconds == uptimeSeconds
    {
      var active, completed := CountStates(ids, jobs);
      CountsBounded(ids, jobs, Running, Completed);
      DistinctCard(ids);
      assert jobs.Keys == set x | x in ids;
      st := ServerStatus("running", modelsReady, active, completed, uptimeSeconds);
    }

    /** `GET /job/{id}`: 404 for an unknown id; otherwise the stored status
        and error, with the progress file's fields only while the job is
        running or completed. */
    function GetJobStatus(jobId: string, progress: Option<ProgressData>): (r: Result<JobStatusView, HttpError>)
      reads this
      ensures r.Err? <==> jobId !in jobs
      ensures r.Err? ==> r.error == HttpError(404)
      ensures r.Ok? ==>
        && r.value.jobId == jobId
        && r.value.status == StateName(jobs[jobId].status)
        && r.value.error == jobs[jobId].error
        && (r.value.state.Some? ==> progress.Some? && jobs[jobId].status in {Running, Completed})
        && (!(jobs[jobId].status in {Running, Completed} && progress.Some?) ==>
              && r.value.state.None? && r.value.tasks.None?
              && r.value.details.None? && r.value.elapsedSeconds.None?)
        && (jobs[jobId].status in {Running, Completed} && progress.Some? ==>
              && r.value.state == progress.value.state
              && r.value.tasks == progress.value.tasks
              && r.value.details == progress.value.details
              && r.value.elapsedSeconds == progress.value.elapsedSeconds)
    {
      if jobId !in jobs then Err(HttpError(404))
      else
        var job := jobs[jobId];
        var p := if job.status == Running || job.status == Completed then progress else None;
        Ok(JobStatusView(jobId, StateName(job.status),
                         if p.Some? then p.value.state else None,
                         if p.Some? then p.value.tasks else None,
                         if p.Some? then p.value.details else None,
                         if p.Some? then p.value.elapsedSeconds else None,
                         job.error))
    }

    /** `GET /result/{id}?file=...`: 404 for an unknown id, 400 unless the job
        completed, 404 when the file is not among `present`. */
    function GetResult(jobId: string, file: string, present: set<string>): (r: Result<ResultFile, HttpError>)
      reads this
      ensures r.Ok? <==> jobId in jobs && jobs[jobId].status == Completed && file in present
      ensures jobId !in jobs ==> r == Err(HttpError(404))
      ensures jobId in jobs && jobs[jobId].status != Completed ==> r == Err(HttpError(400))
      ensures jobId in jobs && jobs[jobId].status == Completed && file !in present ==> r == Err(HttpError(404))
      ensures r.Ok? ==> r.value.filename == file
    {
      if jobId !in jobs then Err(HttpError(404))
      else if jobs[jobId].status != Completed then Err(HttpError(400))
      else if file !in present then Err(HttpError(404))
      else Ok(ResultFile(file, MediaType(file)))
    }

    /** `GET /jobs?status=...&limit=...`: the entries of the last `limit` jobs
        (Python's `[-limit:]`) whose status matches, and the total job count. */
    method ListJobs(filter: Option<string>, limit: int) returns (entries: seq<JobEntry>, total: int)
      requires Valid()
      ensures entries == Listing(SliceFrom(ids, -limit), jobs, filter)
      ensures total == |jobs|
    {
      var window := SliceFrom(ids, -limit);
      assert forall i :: 0 <= i < |window| ==> window[i] == ids[|ids| - |window| + i];
      entries := ListWindow(window, jobs, filter);
      DistinctCard(ids);
      assert jobs.Keys == set x | x in ids;
      total := |ids|;
    }

    /** `DELETE /job/{id}`: 404 for an unknown id, 400 for a running job;
        otherwise the job leaves the table and the order of the rest stays. */
    method DeleteJob(jobId: string) returns (r: Result<string, HttpError>)
      requires Valid()
      modifies this
      ensures Valid()
      ensures jobId !in old(jobs) ==> r == Err(HttpError(404))
      ensures jobId in old(jobs) && old(jobs)[jobId].status == Running ==> r == Err(HttpError(400))
      ensures r.Err? ==> jobs == old(jobs) && ids == old(ids)
      ensures r.Ok? <==> jobId in old(jobs) && old(jobs)[jobId].status != Running
      ensures r.Ok? ==> r.value == jobId && jobs == old(jobs) - {jobId} && ids == Without(old(ids), jobId)
    {
      if jobId !in jobs {
        return Err(HttpError(404));
      }
      if jobs[jobId].status == Running {
        return Err(HttpError(400));
      }
      WithoutDistinct(ids, jobId);
      jobs := jobs - {jobId};
      ids := Without(ids, jobId);
      r := Ok(jobId);
    }
  }

  /** `limit=0` lists every job: `[-0:]` is the whole list. */
  lemma ZeroLimitListsAll(ids: seq<string>, jobs: map<string, Job>)
    requires forall i :: 0 <= i < |ids| ==> ids[i] in jobs
    ensures |Listing(SliceFrom(ids, -0), jobs, None)| == |ids|
  {
    ListingUnfiltered(ids, jobs);
  }

  /** A positive `limit` lists at most `limit` jobs, the most recent ones. */
  lemma PositiveLimitListsRecent(ids: seq<string>, jobs: map<string, Job>, filter: Option<string>, limit: int)
    requires forall i :: 0 <= i < |ids| ==> ids[i] in jobs
    requires limit > 0
    ensures var l := Listing(SliceFrom(ids, -limit), jobs, filter);
      |l| <= limit && forall e :: e in l ==> e.jobId in ids[|ids| - |SliceFrom(ids, -limit)|..]
  {
    var window := SliceFrom(ids, -limit);
    assert forall i :: 0 <= i < |window| ==> window[i] == ids[|ids| - |window| + i];
    ListingSound(window, jobs, filter);
  }
}
