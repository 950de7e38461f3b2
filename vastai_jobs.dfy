/** The Vast.ai side of the job controller (`DemucsClient` in
    vastai_client.py): job submission and the polling loop with its log
    cursor and its one-way log-streaming switch. Every request is an oracle;
    the timeout is the number of scripted polls. */
module VastJobs {
  import opened Support

  /** `DemucsClient.__init__`: the base URL without trailing slashes. */
  function BaseUrl(url: string): (b: string)
    ensures b <= url && (b == [] || b[|b| - 1] != '/')
    ensures forall i :: |b| <= i < |url| ==> url[i] == '/'
  {
    RStripSlash(url)
  }

  /** The body of `POST /job`. */
  datatype JobPayload = JobPayload(inputUrl: string, intervalCut: Option<string>)

  /** `create_job` sends `interval_cut` only when it is truthy. */
  function NewJobPayload(inputUrl: string, intervalCut: Option<string>): (p: JobPayload)
    ensures p.inputUrl == inputUrl
    ensures p.intervalCut.Some? <==> Truthy(intervalCut)
    ensures p.intervalCut.Some? ==> p.intervalCut == intervalCut
  {
    JobPayload(inputUrl, if Truthy(intervalCut) then intervalCut else None)
  }

  /** The `details` of a job status; `None` fields are missing keys. */
  datatype SegmentDetails = SegmentDetails(completedSegments: Option<int>, totalSegments: Option<int>)

  /** What `GET /job/{id}` produced. */
  datatype JobReply =
    | StatusRaised(msg: string)
    | StatusReply(status: string, error: Option<string>, details: Option<SegmentDetails>)

  /** What `GET /job/{id}/logs?offset=N` produced. */
  datatype LogReply = LogsRaised(msg: string) | LogsReply(logs: Option<string>, offset: Option<int>)

  /** One iteration of `wait_for_job`: the status reply, and the log reply
      the iteration gets if it fetches logs. */
  datatype JobPoll = JobPoll(job: JobReply, logs: LogReply)

  /** This poll ends the wait: the status request raised, or the job is terminal. */
  predicate Stops(p: JobPoll) {
    p.job.StatusRaised? || p.job.status == "completed" || p.job.status == "failed"
  }

  /** The log cursor after a fetch: the server-reported offset after a
      non-empty chunk (the old cursor if none is reported), else unchanged. */
  function Advance(offset: int, reply: LogReply): int {
    if reply.LogsReply? && Truthy(reply.logs) then reply.offset.GetOr(offset) else offset
  }

  /** The log cursor before poll `n` when every earlier poll fetched logs. */
  function Cursor(polls: seq<JobPoll>, n: nat): int
    requires n <= |polls|
  {
    if n == 0 then 0 else Advance(Cursor(polls, n - 1), polls[n - 1].logs)
  }

  /** Streaming is still on at poll `n`: it started on and no earlier
      log fetch raised. */
  ghost predicate StreamingAt(polls: seq<JobPoll>, n: nat, streamLogs: bool)
    requires n <= |polls|
  {
    streamLogs && forall j :: 0 <= j < n ==> !polls[j].logs.LogsRaised?
  }

  function TotalSegments(reply: JobReply): int {
    if reply.StatusReply? && reply.details.Some? then reply.details.value.totalSegments.GetOr(0) else 0
  }

  /** Poll `j` (a non-terminal one) shows the percentage line: streaming is
      off after its log step and the job reports a positive segment total. */
  ghost predicate ShowsProgress(polls: seq<JobPoll>, j: nat, streamLogs: bool)
    requires j < |polls|
  {
    !StreamingAt(polls, j + 1, streamLogs) && TotalSegments(polls[j].job) > 0
  }

  /** How a terminal poll ends the wait: a raised status request propagates;
      while streaming, the final log flush is fetched outside any `try`, so
      its failure propagates too; otherwise "completed" returns the status
      and "failed" raises with the job's error. */
  function StopOutcome(p: JobPoll, streaming: bool): Result<JobReply, Fault>
    requires Stops(p)
  {
    if p.job.StatusRaised? then Err(Raised(p.job.msg))
    else if streaming && p.logs.LogsRaised? then Err(Raised(p.logs.msg))
    else if p.job.status == "completed" then Ok(p.job)
    else Err(JobFailed(p.job.error))
  }

  /** The outcome of the wait: how the first terminal poll ends it, or
      Timeout when the budget runs out first. */
  ghost function WaitOutcome(polls: seq<JobPoll>, streamLogs: bool): Result<JobReply, Fault> {
    var k := FirstIndex(polls, Stops);
    if k == |polls| then Err(Timeout) else StopOutcome(polls[k], StreamingAt(polls, k, streamLogs))
  }

  /** Streaming is on at poll `n + 1` exactly when it was on at poll `n`
      and that poll's log fetch did not raise. */
  lemma StreamingNext(polls: seq<JobPoll>, n: nat, streamLogs: bool)
    requires n < |polls|
    ensures StreamingAt(polls, n + 1, streamLogs) <==>
              StreamingAt(polls, n, streamLogs) && !polls[n].logs.LogsRaised?
  {
  }

  /** The offsets of the log requests made at polls `0 .. n-1`: one per
      poll while streaming is on. */
  ghost function Fetches(polls: seq<JobPoll>, n: nat, streamLogs: bool): seq<int>
    requires n <= |polls|
  {
    if n == 0 then []
    else Fetches(polls, n - 1, streamLogs)
         + (if StreamingAt(polls, n - 1, streamLogs) then [Cursor(polls, n - 1)] else [])
  }

  /** Whether polls `0 .. n-1` showed the percentage line. */
  ghost function Progress(polls: seq<JobPoll>, n: nat, streamLogs: bool): seq<bool>
    requires n <= |polls|
  {
    if n == 0 then [] else Progress(polls, n - 1, streamLogs) + [ShowsProgress(polls, n - 1, streamLogs)]
  }

  /** Log requests are made at the first polls, exactly those where streaming
      is on, each with the cursor of its poll. */
  lemma {:induction false} FetchesSpec(polls: seq<JobPoll>, n: nat, streamLogs: bool)
    requires n <= |polls|
    ensures var f := Fetches(polls, n, streamLogs);
      && |f| <= n
      && (StreamingAt(polls, n, streamLogs) ==> |f| == n)
      && (forall j :: 0 <= j < |f| ==> f[j] == Cursor(polls, j))
      && (forall j :: 0 <= j < n ==> (j < |f| <==> StreamingAt(polls, j, streamLogs)))
  {
    if n > 0 {
      FetchesSpec(polls, n - 1, streamLogs);
      if StreamingAt(polls, n - 1, streamLogs) {
        forall j | 0 <= j < n - 1
          ensures StreamingAt(polls, j, streamLogs)
        {
        }
      } else {
        forall j | n - 1 <= j < n
          ensures !StreamingAt(polls, j, streamLogs)
        {
        }
      }
    }
  }

  lemma {:induction false} ProgressSpec(polls: seq<JobPoll>, n: nat, streamLogs: bool)
    requires n <= |polls|
    ensures |Progress(polls, n, streamLogs)| == n
    ensures forall j :: 0 <= j < n ==> Progress(polls, n, streamLogs)[j] == ShowsProgress(polls, j, streamLogs)
  {
    if n > 0 {
      ProgressSpec(polls, n - 1, streamLogs);
    }
  }

  /** The terminal poll of the wait: the final log fetch (if streaming and
      the status request answered), then the outcome. */
  method EndWait(p: JobPoll, stream: bool, offset: int) returns (r: Result<JobReply, Fault>, fetch: seq<int>)
    requires Stops(p)
    ensures r == StopOutcome(p, stream)
    ensures fetch == if stream && !p.job.StatusRaised? then [offset] else []
  {
    fetch := [];
    if p.job.StatusRaised? {
      return Err(Raised(p.job.msg)), fetch;
    }
    if stream {
      fetch := [offset];
      if p.logs.LogsRaised? {
        return Err(Raised(p.logs.msg)), fetch;
      }
    }
    if p.job.status == "completed" {
      r := Ok(p.job);
    } else {
      r := Err(JobFailed(p.job.error));
    }
  }

  /** `wait_for_job(job_id, timeout, stream_logs)`. Besides the outcome it
      returns the offsets of the log requests it made, in order, and, for
      each non-terminal poll, whether the percentage line was shown.
      - the wait ends at the first terminal poll, or with Timeout when none;
      - the i-th log request is made at poll i with offset Cursor(polls, i),
        so the cursor starts at 0 and moves only as `Advance` says;
      - log requests stop for good after one raises (and none is made when
        streaming is off), including the final flush. */
  method WaitForJob(polls: seq<JobPoll>, streamLogs: bool)
    returns (r: Result<JobReply, Fault>, fetches: seq<int>, progress: seq<bool>)
    ensures r == WaitOutcome(polls, streamLogs)
    ensures |progress| == FirstIndex(polls, Stops)
    ensures |progress| == |polls| <==> r == Err(Timeout)
    ensures |progress| < |polls| ==>
      r == StopOutcome(polls[|progress|], StreamingAt(polls, |progress|, streamLogs))
    ensures progress == Progress(polls, |progress|, streamLogs)
    ensures fetches == Fetches(polls, |progress|, streamLogs)
      + (if |progress| < |polls| && StreamingAt(polls, |progress|, streamLogs)
            && !polls[|progress|].job.StatusRaised?
         then [Cursor(polls, |progress|)] else [])
  {
    var stream := streamLogs;
    var offset := 0;
    fetches := [];
    progress := [];
    var i := 0;
    while i < |polls|
      invariant 0 <= i <= |polls|
      invariant forall j :: 0 <= j < i ==> !Stops(polls[j])
      invariant stream == StreamingAt(polls, i, streamLogs)
      invariant stream ==> offset == Cursor(polls, i)
      invariant fetches == Fetches(polls, i, streamLogs)
      invariant progress == Progress(polls, i, streamLogs) && |progress| == i
    {
      var p := polls[i];
      if Stops(p) {
        assert FirstIndex(polls, Stops) == i by { FirstIndexAt(polls, Stops, i); }
        var last;
        r, last := EndWait(p, stream, offset);
        fetches := fetches + last;
        return;
      }
      StreamingNext(polls, i, streamLogs);
      if stream {
        fetches := fetches + [offset];
        if p.logs.LogsRaised? {
          stream := false;
        } else if Truthy(p.logs.logs) {
          offset := p.logs.offset.GetOr(offset);
        }
      }
      progress := progress + [!stream && TotalSegments(p.job) > 0];
      i := i + 1;
    }
    assert FirstIndex(polls, Stops) == |polls| by { FirstIndexAt(polls, Stops, |polls|); }
    r := Err(Timeout);
  }

  /** The cursor is 0 or an offset some earlier non-empty chunk reported. */
  lemma {:induction false} CursorIsReported(polls: seq<JobPoll>, n: nat)
    requires n <= |polls|
    ensures Cursor(polls, n) == 0 ||
            exists j :: 0 <= j < n && polls[j].logs.LogsReply? && Truthy(polls[j].logs.logs)
                        && polls[j].logs.offset == Some(Cursor(polls, n))
  {
    if n > 0 {
      CursorIsReported(polls, n - 1);
      var l := polls[n - 1].logs;
      if l.LogsReply? && Truthy(l.logs) && l.offset.Some? {
        assert polls[n - 1].logs.offset == Some(Cursor(polls, n));
      }
    }
  }

  /** If the server never reports an offset below the one requested, the
      cursor never moves backwards. */
  lemma {:induction false} CursorMonotone(polls: seq<JobPoll>, m: nat, n: nat)
    requires m <= n <= |polls|
    requires forall j :: 0 <= j < n && polls[j].logs.LogsReply? && polls[j].logs.offset.Some?
                         ==> polls[j].logs.offset.value >= Cursor(polls, j)
    ensures Cursor(polls, m) <= Cursor(polls, n)
    decreases n
  {
    if m < n {
      CursorMonotone(polls, m, n - 1);
    }
  }

  /** The wait returns a status exactly when the first terminal poll reports
      "completed" (and, while streaming, its final log flush succeeds);
      the status returned is that poll's. */
  lemma WaitReturnsCompleted(polls: seq<JobPoll>, streamLogs: bool)
    ensures WaitOutcome(polls, streamLogs).Ok? <==>
      exists k :: 0 <= k < |polls| && polls[k].job.StatusReply? && polls[k].job.status == "completed"
        && (forall j :: 0 <= j < k ==> !Stops(polls[j]))
        && !(StreamingAt(polls, k, streamLogs) && polls[k].logs.LogsRaised?)
    ensures WaitOutcome(polls, streamLogs).Ok? ==>
      WaitOutcome(polls, streamLogs).value == polls[FirstIndex(polls, Stops)].job
  {
    var f := FirstIndex(polls, Stops);
    if WaitOutcome(polls, streamLogs).Ok? {
      assert f < |polls|;
    }
    forall k | 0 <= k < |polls| && polls[k].job.StatusReply? && polls[k].job.status == "completed"
        && (forall j :: 0 <= j < k ==> !Stops(polls[j]))
        && !(StreamingAt(polls, k, streamLogs) && polls[k].logs.LogsRaised?)
      ensures WaitOutcome(polls, streamLogs).Ok?
    {
      FirstIndexAt(polls, Stops, k);
    }
  }
}
