/** The RunPod end-to-end workflow, `cmd_separate` in runpod_client.py:
    rank GPU types, create a pod on the first one with capacity, wait for
    its API and its models, run the job, download the result, and stop the
    pod in a `finally`. Every remote answer comes from a script. */
module RunPodSeparate {
  import opened Support
  import opened RunPodGpus
  import opened RunPodPods
  import opened RunPodJobs

  /** How the command ends. */
  datatype Outcome =
    | Completed              // the result was downloaded and the pod handled
    | Exited(code: int)      // `sys.exit(code)`
    | Aborted(fault: Fault)  // an exception escaped the command

  /** The remote answers, in the order the command asks for them. */
  datatype Script = Script(
    gpuTypes: GpuTypesResponse,       // `get_ranked_gpus(max_results=10)`
    creates: seq<CreatePodResponse>,  // one per GPU type tried
    podPolls: seq<PodQuery>,          // the polls of `wait_for_pod_ready`
    statuses: seq<StatusReply>,       // `GET /status` replies of the models-ready wait
    post: PostResponse,               // `create_job`
    jobPolls: seq<JobQuery>,          // the polls of `wait_for_job`
    download: Option<string>,         // None: the download succeeded; Some(msg): it raised
    stop: StopResponse)               // `stop_pod`

  /** The number of GPU types the command asks for. */
  const MAX_GPUS: int := 10

  /** This creation attempt ends the search: it raised a non-capacity error
      or returned a pod (a non-empty dict). */
  predicate EndsSearch(c: CreatePodResponse) {
    Ends(TryCreate(c))
  }

  /** The result of `try_create_pod` that stops the loop: an exception or a pod. */
  predicate Ends(pod: Result<Option<CreatedPod>, Fault>) {
    pod.Err? || (pod.value.Some? && pod.value.value.PodObject?)
  }

  /** How many GPU types are tried. */
  function Tries(gpus: seq<Gpu>, creates: seq<CreatePodResponse>): (n: nat)
    requires |creates| >= |gpus|
    ensures n <= |gpus|
  {
    var k := FirstIndex(creates[..|gpus|], EndsSearch);
    if k < |gpus| then k + 1 else |gpus|
  }

  /** The search stops right after the first attempt that ends it. */
  lemma TriesStop(gpus: seq<Gpu>, creates: seq<CreatePodResponse>, i: nat)
    requires |creates| >= |gpus| && i <= |gpus|
    requires forall j :: 0 <= j < i ==> !EndsSearch(creates[j])
    requires i < |gpus| ==> EndsSearch(creates[i])
    ensures Tries(gpus, creates) == if i < |gpus| then i + 1 else |gpus|
  {
    var cs := creates[..|gpus|];
    FirstIndexAt(cs, EndsSearch, i);
  }

  /** How the pod's replies are read: `PortsAsWritten` as the code reads
      them, or `PodPorts` with a null `runtime` read as "no ports yet". */
  type PortReading = PodQuery -> Result<seq<PodPort>, Fault>

  /** The `try` block once the pod id is known, the pod's replies read by
      `portsOf`. */
  function JobPhase(s: Script, portsOf: PortReading): Result<(), Fault>
    requires |s.statuses| >= MODEL_STATUS_CALLS
  {
    match PodWaitOutcome(s.podPolls, portsOf)
    case Err(f) => Err(f)
    case Ok(_) =>
      match ModelsWait(s.statuses)
      case Err(f) => Err(f)
      case Ok(_) =>
        match PostedJobId(s.post)
        case Err(f) => Err(f)
        case Ok(_) =>
          match WaitOutcome(s.jobPolls)
          case Err(f) => Err(f)
          case Ok(_) => if s.download.Some? then Err(Raised(s.download.value)) else Ok(())
  }

  /** The `finally` block: unless the pod is kept it is stopped, and an
      exception from `stop_pod` replaces whatever the `try` block produced. */
  function Finish(phase: Result<(), Fault>, keepPod: bool, stop: StopResponse): Outcome {
    if !keepPod && StopPod(stop).Err? then Aborted(StopPod(stop).error)
    else if phase.Ok? then Completed
    else Aborted(phase.error)
  }

  /** The pod-creation loop: GPU types in rank order; a capacity error or an
      empty reply moves on, a pod or any other error ends the loop. */
  method Provision(runpod: RunPodClient, gpus: seq<Gpu>, creates: seq<CreatePodResponse>)
    returns (r: Result<Option<CreatedPod>, Fault>, tried: seq<string>)
    requires |creates| >= |gpus|
    modifies runpod`activePodId
    ensures var n := Tries(gpus, creates);
      && tried == seq(n, i requires 0 <= i < n => gpus[i].id)
      && (n > 0 && EndsSearch(creates[n - 1]) ==> r == TryCreate(creates[n - 1]))
      && (!(n > 0 && EndsSearch(creates[n - 1])) ==> r == Ok(None))
  {
    tried := [];
    var i := 0;
    while i < |gpus|
      invariant 0 <= i <= |gpus|
      invariant forall j :: 0 <= j < i ==> !EndsSearch(creates[j])
      invariant |tried| == i && forall j :: 0 <= j < i ==> tried[j] == gpus[j].id
    {
      tried := tried + [gpus[i].id];
      var pod := runpod.TryCreatePod(gpus[i].id, creates[i]);
      assert pod == TryCreate(creates[i]);
      if Ends(pod) {
        TriesStop(gpus, creates, i);
        return pod, tried;
      }
      i := i + 1;
    }
    TriesStop(gpus, creates, |gpus|);
    r := Ok(None);
  }

  /** The `try` block: wait for the pod (its replies read by `portsOf`),
      then for its models, submit the job, wait for it and download the
      result. */
  method RunJob(runpod: RunPodClient, podId: string, inputUrl: string, intervalCut: Option<string>,
                allStems: bool, s: Script, portsOf: PortReading)
    returns (phase: Result<(), Fault>, payload: Option<JobPayload>)
    requires |s.statuses| >= MODEL_STATUS_CALLS
    modifies runpod`podUrl
    ensures phase == JobPhase(s, portsOf)
    ensures payload.Some? <==> PodWaitOutcome(s.podPolls, portsOf).Ok? && ModelsWait(s.statuses).Ok?
    ensures payload.Some? ==> payload.value == NewJobPayload(inputUrl, intervalCut, allStems, None)
  {
    payload := None;
    var url := runpod.WaitForPodReady(Some(podId), s.podPolls, portsOf);
    if url.Err? {
      return Err(url.error), payload;
    }
    var models, _ := WaitForModels(s.statuses);
    if models.Err? {
      return Err(models.error), payload;
    }
    payload := Some(NewJobPayload(inputUrl, intervalCut, allStems, None));
    var jobId := PostedJobId(s.post);
    if jobId.Err? {
      return Err(jobId.error), payload;
    }
    var job, _ := WaitForJob(s.jobPolls);
    if job.Err? {
      phase := Err(job.error);
    } else if s.download.Some? {
      phase := Err(Raised(s.download.value));
    } else {
      phase := Ok(());
    }
  }

  /** What `cmd_separate` does once the GPU types are ranked: the creation
      loop, the pod-id lookup, the `try` block (the pod's replies read by
      `portsOf`) and its `finally`. */
  method Rent(runpod: RunPodClient, gpus: seq<Gpu>, inputUrl: string, intervalCut: Option<string>,
              allStems: bool, keepPod: bool, s: Script, portsOf: PortReading)
    returns (outcome: Outcome, tried: seq<string>, payload: Option<JobPayload>, stopped: seq<string>)
    requires |s.creates| >= |gpus| && |s.statuses| >= MODEL_STATUS_CALLS
    modifies runpod`activePodId, runpod`podUrl
    ensures var n := Tries(gpus, s.creates);
      && tried == seq(n, i requires 0 <= i < n => gpus[i].id)
      && (n == 0 || !EndsSearch(s.creates[n - 1]) ==> outcome == Exited(1) && stopped == [])
      && (n > 0 && TryCreate(s.creates[n - 1]).Err? ==>
            outcome == Aborted(TryCreate(s.creates[n - 1]).error) && stopped == [])
      && (n > 0 && s.creates[n - 1] == CreatePodReply(None, PodObject(None)) ==>
            outcome == Aborted(MissingKey("id")) && stopped == [])
      && (n > 0 && s.creates[n - 1].CreatePodReply? && s.creates[n - 1].errors.None?
            && s.creates[n - 1].pod.PodObject? && s.creates[n - 1].pod.id.Some? ==>
            && outcome == Finish(JobPhase(s, portsOf), keepPod, s.stop)
            && stopped == (if keepPod then [] else [s.creates[n - 1].pod.id.value])
            && (payload.Some? <==> PodWaitOutcome(s.podPolls, portsOf).Ok? && ModelsWait(s.statuses).Ok?)
            && (payload.Some? ==> payload.value == NewJobPayload(inputUrl, intervalCut, allStems, None)))
  {
    payload := None;
    stopped := [];
    var pod;
    pod, tried := Provision(runpod, gpus, s.creates);
    if pod.Err? {
      return Aborted(pod.error), tried, payload, stopped;
    }
    if pod.value.None? || pod.value.value.PodAbsent? {
      return Exited(1), tried, payload, stopped;
    }
    if pod.value.value.id.None? {
      return Aborted(MissingKey("id")), tried, payload, stopped;
    }
    var podId := pod.value.value.id.value;
    var phase;
    phase, payload := RunJob(runpod, podId, inputUrl, intervalCut, allStems, s, portsOf);
    // the `finally` block
    if !keepPod {
      stopped := stopped + [podId];
      var stop := StopPod(s.stop);
      if stop.Err? {
        return Aborted(stop.error), tried, payload, stopped;
      }
    }
    outcome := if phase.Ok? then Completed else Aborted(phase.error);
  }

  /** `cmd_separate`. Returns the outcome, the GPU type ids it tried, the job
      payload it submitted (if any) and the ids of the pods it stopped; the
      pod's replies are read as the code reads them (`PortsAsWritten`).
      - no API key, or no GPU type: exit 1; a failed GPU listing propagates;
      - GPU types are tried in rank order until a pod is created (or a
        non-capacity error propagates); none has capacity: exit 1;
      - a pod without `id` is a `KeyError` before the `try`, so it is not stopped;
      - otherwise the pod is stopped exactly once unless `keepPod`, and the
        outcome is the job phase's unless stopping raised. */
  method CmdSeparate(apiKey: Option<string>, inputUrl: string, intervalCut: Option<string>,
                     allStems: bool, keepPod: bool, s: Script)
    returns (outcome: Outcome, tried: seq<string>, payload: Option<JobPayload>, stopped: seq<string>)
    requires |s.creates| >= MAX_GPUS && |s.statuses| >= MODEL_STATUS_CALLS
    ensures !Truthy(apiKey) ==> outcome == Exited(1) && tried == [] && stopped == []
    ensures Truthy(apiKey) && AvailableGpus(s.gpuTypes).Err? ==>
      outcome == Aborted(AvailableGpus(s.gpuTypes).error) && tried == [] && stopped == []
    ensures Truthy(apiKey) && AvailableGpus(s.gpuTypes).Ok? ==>
      var gpus := RankedGpus(AvailableGpus(s.gpuTypes).value, MAX_GPUS);
      var n := Tries(gpus, s.creates);
      && tried == seq(n, i requires 0 <= i < n => gpus[i].id)
      && (n == 0 || !EndsSearch(s.creates[n - 1]) ==> outcome == Exited(1) && stopped == [])
      && (n > 0 && TryCreate(s.creates[n - 1]).Err? ==>
            outcome == Aborted(TryCreate(s.creates[n - 1]).error) && stopped == [])
      && (n > 0 && s.creates[n - 1] == CreatePodReply(None, PodObject(None)) ==>
            outcome == Aborted(MissingKey("id")) && stopped == [])
      && (n > 0 && s.creates[n - 1].CreatePodReply? && s.creates[n - 1].errors.None?
            && s.creates[n - 1].pod.PodObject? && s.creates[n - 1].pod.id.Some? ==>
            && outcome == Finish(JobPhase(s, PortsAsWritten), keepPod, s.stop)
            && stopped == (if keepPod then [] else [s.creates[n - 1].pod.id.value])
            && (payload.Some? <==> PodWaitOutcome(s.podPolls, PortsAsWritten).Ok? && ModelsWait(s.statuses).Ok?)
            && (payload.Some? ==> payload.value == NewJobPayload(inputUrl, intervalCut, allStems, None)))
  {
    tried := [];
    payload := None;
    stopped := [];
    if !Truthy(apiKey) {
      return Exited(1), tried, payload, stopped;
    }
    var runpod := new RunPodClient(apiKey.value);
    var ranked := runpod.GetRankedGpus(s.gpuTypes, MAX_GPUS);
    if ranked.Err? {
      return Aborted(ranked.error), tried, payload, stopped;
    }
    var gpus := ranked.value;
    assert gpus == RankedGpus(AvailableGpus(s.gpuTypes).value, MAX_GPUS);
    assert |gpus| <= |s.creates|;
    if gpus == [] {
      assert Tries(gpus, s.creates) == 0;
      return Exited(1), tried, payload, stopped;
    }
    outcome, tried, payload, stopped := Rent(runpod, gpus, inputUrl, intervalCut, allStems, keepPod, s, PortsAsWritten);
  }

  /** A pod first seen with a null `runtime` makes the command as written
      fail inside the `try`, whatever the later polls say; the pod is still
      stopped unless kept. */
  lemma StartingPodAbortsCommand(s: Script, keepPod: bool)
    requires |s.statuses| >= MODEL_STATUS_CALLS
    requires |s.podPolls| > 0 && s.podPolls[0] == PodReply(RuntimeNull)
    ensures JobPhase(s, PortsAsWritten) == Err(Raised("'NoneType' object has no attribute 'get'"))
    ensures Finish(JobPhase(s, PortsAsWritten), keepPod, s.stop) != Completed
  {
    AsWrittenStartingPodRaises(s.podPolls);
  }

  /** The two readings give the same job phase unless the pod wait as written
      fails, so every run the code completes also completes when corrected. */
  lemma AsWrittenPhaseAgrees(s: Script)
    requires |s.statuses| >= MODEL_STATUS_CALLS
    ensures JobPhase(s, PortsAsWritten) != JobPhase(s, PodPorts) ==>
      PodWaitOutcome(s.podPolls, PortsAsWritten).Err?
  {
    if PodWaitOutcome(s.podPolls, PortsAsWritten).Ok? {
      AsWrittenSuccessAgrees(s.podPolls);
    }
  }

  /** A completed run needed every stage: a healthy API port, a job id, and
      a poll that saw the job "completed"; and stopping the pod, unless it
      was kept, succeeded. */
  lemma CompletedRunNeedsEveryStage(s: Script, keepPod: bool)
    requires |s.statuses| >= MODEL_STATUS_CALLS
    requires Finish(JobPhase(s, PodPorts), keepPod, s.stop) == Completed
    ensures PodWaitOutcome(s.podPolls, PodPorts).Ok?
    ensures exists k, port :: 0 <= k < |s.podPolls| && PodPorts(s.podPolls[k]).Ok?
              && port in PodPorts(s.podPolls[k]).value
              && port.privatePort == Some(API_PORT) && port.health == Answered(200)
    ensures s.post.PostReply? && s.post.jobId.Some?
    ensures exists k :: 0 <= k < |s.jobPolls| && s.jobPolls[k].JobState?
              && s.jobPolls[k].status == Some("completed")
    ensures s.download.None?
    ensures !keepPod ==> s.stop == StopDone
  {
    PodWaitUrl(s.podPolls);
    WaitCompletedAtFirstStop(s.jobPolls);
  }

  /** A failure to stop the pod is what the command reports, whatever the
      job did. */
  lemma StopFailureWins(phase: Result<(), Fault>, stop: StopResponse)
    requires stop != StopDone
    ensures Finish(phase, false, stop).Aborted?
    ensures Finish(phase, false, stop).fault == StopPod(stop).error
  {
  }
}
