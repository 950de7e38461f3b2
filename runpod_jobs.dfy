/** The RunPod side of the job controller (`DemucsClient` in
    runpod_client.py): job submission, the models-ready wait, and the job
    polling loop that prints a progress line only when it changes. */
module RunPodJobs {
  import opened Support

  /** The body of `POST /job`. */
  datatype JobPayload = JobPayload(inputUrl: string, allStems: bool,
                                   intervalCut: Option<string>, jobId: Option<string>)

  /** `create_job` always sends `input_url` and `all_stems`, and
      `interval_cut` and `job_id` only when they are truthy. */
  function NewJobPayload(inputUrl: string, intervalCut: Option<string>, allStems: bool,
                         jobId: Option<string>): (p: JobPayload)
    ensures p.inputUrl == inputUrl && p.allStems == allStems
    ensures p.intervalCut.Some? <==> Truthy(intervalCut)
    ensures p.jobId.Some? <==> Truthy(jobId)
    ensures p.intervalCut.Some? ==> p.intervalCut == intervalCut
    ensures p.jobId.Some? ==> p.jobId == jobId
  {
    JobPayload(inputUrl, allStems,
               if Truthy(intervalCut) then intervalCut else None,
               if Truthy(jobId) then jobId else None)
  }

  /** What `GET /status` produced; a missing `models_ready` reads as false. */
  datatype StatusReply = StatusRaised(msg: string) | StatusAnswer(modelsReady: bool)

  /** Status requests the command may make: one, then at most 60 more. */
  const MODEL_STATUS_CALLS: int := 61

  predicate EndsModelsWait(st: StatusReply) {
    st.StatusRaised? || st.modelsReady
  }

  /** The models-ready wait of `cmd_separate` over the scripted `GET /status`
      replies: the first reply that raises or says ready ends it; a raise
      propagates, and readiness never reached is not an error. */
  function ModelsWait(replies: seq<StatusReply>): Result<(), Fault>
    requires |replies| >= MODEL_STATUS_CALLS
  {
    var k := FirstIndex(replies[..MODEL_STATUS_CALLS], EndsModelsWait);
    if k < MODEL_STATUS_CALLS && replies[k].StatusRaised? then Err(Raised(replies[k].msg)) else Ok(())
  }

  /** The number of `GET /status` requests the wait makes. */
  function ModelsWaitCalls(replies: seq<StatusReply>): int
    requires |replies| >= MODEL_STATUS_CALLS
  {
    var k := FirstIndex(replies[..MODEL_STATUS_CALLS], EndsModelsWait);
    if k < MODEL_STATUS_CALLS then k + 1 else MODEL_STATUS_CALLS
  }

  /** The first status request, then up to 60 more while models are not
      ready; returns the outcome and the number of requests made. */
  method WaitForModels(replies: seq<StatusReply>) returns (r: Result<(), Fault>, calls: int)
    requires |replies| >= MODEL_STATUS_CALLS
    ensures r == ModelsWait(replies)
    ensures calls == ModelsWaitCalls(replies)
    ensures 1 <= calls <= MODEL_STATUS_CALLS
  {
    ghost var window := replies[..MODEL_STATUS_CALLS];
    ghost var k := FirstIndex(window, EndsModelsWait);
    calls := 1;
    var status := replies[0];
    if status.StatusRaised? {
      FirstIndexAt(window, EndsModelsWait, 0);
      return Err(Raised(status.msg)), calls;
    }
    if !status.modelsReady {
      var n := 0;
      while n < 60
        invariant 0 <= n <= 60
        invariant calls == n + 1
        invariant forall j :: 0 <= j < calls ==> !EndsModelsWait(window[j])
      {
        status := replies[calls];
        calls := calls + 1;
        if status.StatusRaised? {
          FirstIndexAt(window, EndsModelsWait, calls - 1);
          return Err(Raised(status.msg)), calls;
        }
        if status.modelsReady {
          FirstIndexAt(window, EndsModelsWait, calls - 1);
          return Ok(()), calls;
        }
        n := n + 1;
      }
      FirstIndexAt(window, EndsModelsWait, MODEL_STATUS_CALLS);
    } else {
      FirstIndexAt(window, EndsModelsWait, 0);
    }
    r := Ok(());
  }

  /** `details` of a job: absent (missing, null or empty, all falsy) or an
      object whose `percent` (as it prints) may be missing. */
  datatype JobDetails = NoDetails | DetailsObject(percent: Option<string>)

  /** What `GET /job/{id}` produced; `status == None` is a missing key. */
  datatype JobQuery =
    | JobQueryRaised(msg: string)
    | JobState(status: Option<string>, error: Option<string>, details: JobDetails)

  predicate Stops(q: JobQuery) {
    q.JobQueryRaised? || q.status == Some("completed") || q.status == Some("failed")
  }

  /** The progress text of a poll: `"<percent>%"` (percent defaulting to 0)
      when details are present, else the empty text. */
  function Label(q: JobQuery): string {
    if q.JobState? && q.details.DetailsObject? then q.details.percent.GetOr("0") + "%" else ""
  }

  /** The texts printed over the first `n` polls: each progress text that
      differs from the last one printed, starting from the empty text. */
  function Printed(polls: seq<JobQuery>, n: nat): seq<string>
    requires n <= |polls|
  {
    if n == 0 then [] else Shown(Printed(polls, n - 1), Label(polls[n - 1]))
  }

  /** What is printed after `p` when a poll shows `progress`: the text when
      it differs from the last one printed, nothing otherwise. */
  function Shown(p: seq<string>, progress: string): seq<string> {
    if progress != LastOf(p) then p + [progress] else p
  }

  /** The last text printed, the empty text before any. */
  function LastOf(p: seq<string>): string {
    if p == [] then "" else p[|p| - 1]
  }

  /** How a terminal poll ends the wait: a failed request propagates,
      "completed" returns the job and "failed" raises with its error. */
  function StopResult(q: JobQuery): Result<JobQuery, Fault>
    requires Stops(q)
  {
    if q.JobQueryRaised? then Err(Raised(q.msg))
    else if q.status == Some("completed") then Ok(q)
    else Err(JobFailed(q.error))
  }

  /** The outcome of `wait_for_job` for the scripted polls. */
  function WaitOutcome(polls: seq<JobQuery>): Result<JobQuery, Fault> {
    var k := FirstIndex(polls, Stops);
    if k == |polls| then Err(Timeout) else StopResult(polls[k])
  }

  /** The progress display of one poll: a text is printed when it differs
      from the last one printed, and becomes the last one. */
  method ShowProgress(printed: seq<string>, lastProgress: string, progress: string)
    returns (printed': seq<string>, lastProgress': string)
    requires lastProgress == LastOf(printed)
    ensures printed' == Shown(printed, progress)
    ensures lastProgress' == LastOf(printed')
  {
    printed', lastProgress' := printed, lastProgress;
    if progress != lastProgress {
      printed' := printed + [progress];
      lastProgress' := progress;
    }
  }

  /** The polling loop of `wait_for_job`: polls until the first terminal
      status, printing each change of the progress text on the way; `i` is
      where it stopped (`|polls|` when the budget ran out). */
  method PollUntilStop(polls: seq<JobQuery>) returns (i: nat, printed: seq<string>)
    ensures i == FirstIndex(polls, Stops)
    ensures printed == Printed(polls, i)
  {
    ghost var stop := FirstIndex(polls, Stops);
    var lastProgress := "";
    printed := [];
    i := 0;
    while i < |polls|
      invariant i <= stop
      invariant printed == Printed(polls, i)
      invariant lastProgress == LastOf(printed)
    {
      if Stops(polls[i]) {
        assert i == stop;
        return;
      }
      printed, lastProgress := ShowProgress(printed, lastProgress, Label(polls[i]));
      i := i + 1;
    }
  }

  /** `wait_for_job`: returns the job once its status is "completed", raises
      with its error once "failed", propagates a failed request, and times
      out when the budget runs out; before that it prints each change of the
      progress text. */
  method WaitForJob(polls: seq<JobQuery>) returns (r: Result<JobQuery, Fault>, printed: seq<string>)
    ensures r == WaitOutcome(polls)
    ensures printed == Printed(polls, FirstIndex(polls, Stops))
  {
    var i;
    i, printed := PollUntilStop(polls);
    r := if i < |polls| then StopResult(polls[i]) else Err(Timeout);
  }

  /** The printed progress never repeats a line twice in a row, never starts
      with the empty text, prints only texts that occurred, and always ends
      on the latest text. */
  lemma PrintedSpec(polls: seq<JobQuery>, n: nat)
    requires n <= |polls|
    ensures var p := Printed(polls, n);
      && (forall i :: 0 < i < |p| ==> p[i - 1] != p[i])
      && (p != [] ==> p[0] != "")
      && (forall x :: x in p ==> exists j :: 0 <= j < n && Label(polls[j]) == x)
      && LastOf(p) == (if n == 0 then "" else Label(polls[n - 1]))
      && |p| <= n
  {
    PrintedNoRepeat(polls, n);
    PrintedLast(polls, n);
    PrintedSeen(polls, n);
  }

  lemma {:induction false} PrintedNoRepeat(polls: seq<JobQuery>, n: nat)
    requires n <= |polls|
    ensures forall i :: 0 < i < |Printed(polls, n)| ==> Printed(polls, n)[i - 1] != Printed(polls, n)[i]
  {
    if n > 0 {
      PrintedNoRepeat(polls, n - 1);
      ShownNoRepeat(Printed(polls, n - 1), Label(polls[n - 1]));
    }
  }

  /** Showing a text keeps the printed lines free of adjacent repeats. */
  lemma ShownNoRepeat(p: seq<string>, progress: string)
    requires forall i :: 0 < i < |p| ==> p[i - 1] != p[i]
    ensures forall i :: 0 < i < |Shown(p, progress)| ==> Shown(p, progress)[i - 1] != Shown(p, progress)[i]
  {
    var q := Shown(p, progress);
    if progress != LastOf(p) {
      forall i | 0 < i < |q| ensures q[i - 1] != q[i] {
        if i == |p| {
          assert q[i - 1] == LastOf(p) && q[i] == progress;
        } else {
          assert q[i - 1] == p[i - 1] && q[i] == p[i];
        }
      }
    }
  }

  lemma {:induction false} PrintedLast(polls: seq<JobQuery>, n: nat)
    requires n <= |polls|
    ensures var p := Printed(polls, n);
      && (p != [] ==> p[0] != "")
      && LastOf(p) == (if n == 0 then "" else Label(polls[n - 1]))
      && |p| <= n
  {
    if n > 0 {
      PrintedLast(polls, n - 1);
      var p := Printed(polls, n - 1);
      if p != [] {
        assert Printed(polls, n)[0] == p[0];
      }
    }
  }

  lemma {:induction false} PrintedSeen(polls: seq<JobQuery>, n: nat)
    requires n <= |polls|
    ensures forall x :: x in Printed(polls, n) ==> exists j :: 0 <= j < n && Label(polls[j]) == x
  {
    if n > 0 {
      PrintedSeen(polls, n - 1);
      forall x | x in Printed(polls, n) ensures exists j :: 0 <= j < n && Label(polls[j]) == x {
        if x !in Printed(polls, n - 1) {
          assert Label(polls[n - 1]) == x;
        }
      }
    }
  }

  /** A wait that returns a job found it "completed" at the first terminal poll. */
  lemma WaitCompletedAtFirstStop(polls: seq<JobQuery>)
    requires WaitOutcome(polls).Ok?
    ensures var k := FirstIndex(polls, Stops);
      k < |polls| && WaitOutcome(polls).value == polls[k]
      && polls[k].JobState? && polls[k].status == Some("completed")
      && forall j :: 0 <= j < k ==> polls[j].JobState? && polls[j].status != Some("completed")
  {
  }
}
