/** The Vast.ai end-to-end workflow, `cmd_separate` in vastai_client.py:
    rank offers, rent the first one that accepts, wait for the API, run the
    job, download the result, and destroy the instance in a `finally`.
    Every remote answer comes from a script; `sys.exit` is an outcome. */
module VastSeparate {
  import opened Support
  import opened VastOffers
  import opened VastInstances
  import opened VastJobs

  /** How the command ends. */
  datatype Outcome =
    | Completed              // the result was downloaded
    | Exited(code: int)      // `sys.exit(code)` before any instance existed
    | Aborted(fault: Fault)  // an exception escaped after the instance was created

  /** The remote answers, in the order the command asks for them. */
  datatype Script = Script(
    search: SearchResponse,          // `get_ranked_offers(max_results=10)`
    creates: seq<CreateResponse>,    // one per offer tried
    readiness: seq<ReadyPoll>,       // the polls of `wait_for_instance_ready`
    post: PostResponse,              // `create_job`
    jobPolls: seq<JobPoll>,          // the polls of `wait_for_job`
    download: Option<string>,        // None: the download succeeded; Some(msg): it raised
    destroy: DestroyResponse)        // `destroy_instance`

  /** The number of offers the command asks for. */
  const MAX_OFFERS: int := 10

  predicate Accepts(c: CreateResponse) {
    c.CreateReply? && c.success
  }

  /** How many offers are tried: up to and including the first that accepts. */
  function Attempts(offers: seq<Offer>, creates: seq<CreateResponse>): (n: nat)
    requires |creates| >= |offers|
    ensures n <= |offers|
  {
    var k := FirstIndex(creates[..|offers|], Accepts);
    if k < |offers| then k + 1 else |offers|
  }

  /** What happens once an instance exists and its id is known: the `try`
      block of the command, before the `finally`. */
  ghost function JobPhase(s: Script, instanceId: Option<int>): Result<(), Fault> {
    if ReadyUrl(instanceId, s.readiness).None? then Err(Raised("Instance failed to start"))
    else match PostedJobId(s.post)
      case Err(f) => Err(f)
      case Ok(_) =>
        match WaitOutcome(s.jobPolls, true)
        case Err(f) => Err(f)
        case Ok(_) => if s.download.Some? then Err(Raised(s.download.value)) else Ok(())
  }

  /** The renting loop: offers are tried in rank order, a failed attempt
      moves on to the next offer, and the loop stops at the first success. */
  method Provision(vastai: VastAIClient, offers: seq<Offer>, creates: seq<CreateResponse>)
    returns (instance: Option<CreatedInstance>, tried: seq<Option<int>>)
    requires |creates| >= |offers|
    modifies vastai`activeInstanceId
    ensures var n := Attempts(offers, creates);
      && tried == seq(n, i requires 0 <= i < n => offers[i].id)
      && (instance.Some? <==> n > 0 && Accepts(creates[n - 1]))
      && (instance.Some? ==> instance.value.id == creates[n - 1].newContract)
  {
    ghost var k := FirstIndex(creates[..|offers|], Accepts);
    instance := None;
    tried := [];
    var i := 0;
    while i < |offers|
      invariant 0 <= i <= |offers|
      invariant i <= k
      invariant tried == seq(i, j requires 0 <= j < i => offers[j].id)
      invariant instance.None?
    {
      tried := tried + [offers[i].id];
      var r := vastai.CreateInstance(offers[i].id, creates[i]);
      if r.Ok? {
        assert creates[..|offers|][i] == creates[i];
        FirstIndexAt(creates[..|offers|], Accepts, i);
        instance := Some(r.value);
        return;
      }
      assert !Accepts(creates[..|offers|][i]);
      i := i + 1;
    }
  }

  /** The `try` block once an instance exists: wait for its API, submit the
      job, wait for it and download the result. */
  method RunJob(vastai: VastAIClient, instanceId: Option<int>, inputUrl: string,
                intervalCut: Option<string>, s: Script)
    returns (phase: Result<(), Fault>, payload: Option<JobPayload>)
    ensures phase == JobPhase(s, instanceId)
    ensures payload.Some? <==> ReadyUrl(instanceId, s.readiness).Some?
    ensures payload.Some? ==> payload.value == NewJobPayload(inputUrl, intervalCut)
  {
    payload := None;
    var apiUrl := vastai.WaitForInstanceReady(instanceId, s.readiness);
    if apiUrl.None? {
      return Err(Raised("Instance failed to start")), payload;
    }
    payload := Some(NewJobPayload(inputUrl, intervalCut));
    var jobId := PostedJobId(s.post);
    if jobId.Err? {
      return Err(jobId.error), payload;
    }
    var status, _, _ := WaitForJob(s.jobPolls, true);
    if status.Err? {
      phase := Err(status.error);
    } else if s.download.Some? {
      phase := Err(Raised(s.download.value));
    } else {
      phase := Ok(());
    }
  }

  /** `cmd_separate`. Returns the outcome, the offer ids it tried to rent in
      order, the job payload it submitted (if it got that far), and the ids
      of the instances it destroyed.
      - no API key, or no offer: exit 1 before anything is rented;
      - offers are tried in rank order until one accepts; none accepts: exit 1;
      - after that the outcome is the job phase's, and the instance is
        destroyed exactly once unless `keepInstance`, whatever the outcome. */
  method CmdSeparate(apiKey: Option<string>, inputUrl: string, intervalCut: Option<string>,
                     keepInstance: bool, s: Script)
    returns (outcome: Outcome, tried: seq<Option<int>>, payload: Option<JobPayload>,
             destroyed: seq<Option<int>>)
    requires |s.creates| >= |RankedOffers(s.search, MAX_OFFERS)|
    ensures !Truthy(apiKey) ==> outcome == Exited(1) && tried == [] && destroyed == []
    ensures Truthy(apiKey) ==>
      var offers := RankedOffers(s.search, MAX_OFFERS);
      var n := Attempts(offers, s.creates);
      && tried == seq(n, i requires 0 <= i < n => offers[i].id)
      && (outcome.Exited? <==> n == 0 || !Accepts(s.creates[n - 1]))
      && (outcome.Exited? ==> outcome == Exited(1) && destroyed == [] && payload.None?)
      && (!outcome.Exited? ==>
            var instanceId := s.creates[n - 1].newContract;
            && (outcome == Completed <==> JobPhase(s, instanceId).Ok?)
            && (outcome.Aborted? ==> Err(outcome.fault) == JobPhase(s, instanceId))
            && destroyed == (if keepInstance then [] else [instanceId])
            && (payload.Some? <==> ReadyUrl(instanceId, s.readiness).Some?)
            && (payload.Some? ==> payload.value == NewJobPayload(inputUrl, intervalCut)))
  {
    tried := [];
    payload := None;
    destroyed := [];
    if !Truthy(apiKey) {
      return Exited(1), tried, payload, destroyed;
    }
    var vastai := new VastAIClient(apiKey.value);
    var offers := RankedOffers(s.search, MAX_OFFERS);
    if offers == [] {
      return Exited(1), tried, payload, destroyed;
    }
    var instance;
    instance, tried := Provision(vastai, offers, s.creates);
    if instance.None? {
      return Exited(1), tried, payload, destroyed;
    }
    var phase;
    phase, payload := RunJob(vastai, instance.value.id, inputUrl, intervalCut, s);
    // the `finally` block; `destroy_instance` never raises
    if !keepInstance {
      var _ := DestroyInstance(s.destroy);
      destroyed := destroyed + [instance.value.id];
    }
    outcome := if phase.Ok? then Completed else Aborted(phase.error);
  }

  /** A completed run needed every stage: an offer accepted, a poll found the
      API healthy, the job was accepted, and some poll saw it "completed". */
  lemma CompletedRunNeedsEveryStage(s: Script, instanceId: Option<int>)
    requires JobPhase(s, instanceId).Ok?
    ensures exists i :: 0 <= i < |s.readiness| && PollReady(instanceId, s.readiness[i])
    ensures s.post.PostReply? && s.post.jobId.Some?
    ensures exists k :: 0 <= k < |s.jobPolls| && s.jobPolls[k].job.StatusReply?
                        && s.jobPolls[k].job.status == "completed"
    ensures s.download.None?
  {
    WaitReturnsCompleted(s.jobPolls, true);
  }
}
