/** `RunPodClient` in runpod_client.py: GPU listing and ranking, pod
    creation with the capacity-error fallback, the readiness wait and pod
    termination. GraphQL calls and health probes are oracle values; the
    readiness timeout is the number of scripted polls. */
module RunPodPods {
  import opened Support
  import opened Sorting
  import opened RunPodGpus

  /** Port the Demucs API listens on inside the pod. */
  const API_PORT: int := 8185

  /** `podFindAndDeployOnDemand` in a successful reply: missing (read as the
      empty dict) or an object whose `id` may be missing. */
  datatype CreatedPod = PodAbsent | PodObject(id: Option<string>)

  /** What the `CreatePod` mutation produced. */
  datatype CreatePodResponse =
    | CreatePodRaised(msg: string)
    | CreatePodReply(errors: Option<string>, pod: CreatedPod)

  /** `"resources" in msg.lower() or "not have" in msg.lower()`: the pod
      could not be placed for lack of capacity. */
  predicate IsCapacityError(msg: string) {
    Contains(Lower(msg), "resources") || Contains(Lower(msg), "not have")
  }

  /** The text of the exception `create_pod` raises. */
  function CreatePodFailure(resp: CreatePodResponse): string
    requires !(resp.CreatePodReply? && resp.errors.None?)
  {
    match resp
    case CreatePodRaised(msg) => msg
    case CreatePodReply(errors, _) => "Failed to create pod: " + errors.value
  }

  /** What `try_create_pod` returns for a reply: the pod, None for a
      capacity error, or the exception. */
  function TryCreate(resp: CreatePodResponse): Result<Option<CreatedPod>, Fault> {
    if resp.CreatePodReply? && resp.errors.None? then Ok(Some(resp.pod))
    else if IsCapacityError(CreatePodFailure(resp)) then Ok(None)
    else Err(Raised(CreatePodFailure(resp)))
  }

  /** One entry of `runtime.ports`; `None` fields are missing keys. */
  datatype PodPort = PodPort(ip: Option<string>, privatePort: Option<int>, publicPort: Option<int>,
                             health: HealthOutcome)

  /** The `runtime` of a pod: missing, JSON null (the pod has not started
      yet), or an object whose `ports` may be missing. */
  datatype PodRuntime = RuntimeMissing | RuntimeNull | Runtime(ports: Option<seq<PodPort>>)

  /** What the `Pod` query produced. */
  datatype PodQuery =
    | PodQueryRaised(msg: string)
    | PodQueryErrors(errors: string)
    | PodReply(runtime: PodRuntime)

  /** The URL probed for a port: only the API port, with an IP and a
      non-zero public port. */
  function PortUrl(port: PodPort): (u: Option<string>)
    ensures u.Some? <==> port.privatePort == Some(API_PORT) && Truthy(port.ip)
                         && port.publicPort.Some? && port.publicPort.value != 0
    ensures u.Some? ==> u.value == "http://" + port.ip.value + ":" + IntToString(port.publicPort.value)
  {
    if port.privatePort == Some(API_PORT) && Truthy(port.ip)
       && port.publicPort.Some? && port.publicPort.value != 0
    then Some("http://" + port.ip.value + ":" + IntToString(port.publicPort.value))
    else None
  }

  predicate PortReady(port: PodPort) {
    PortUrl(port).Some? && port.health == Answered(200)
  }

  /** The URL of the first port, in listed order, that is probed and healthy. */
  function ReadyUrlIn(ports: seq<PodPort>): Option<string> {
    var k := FirstIndex(ports, PortReady);
    if k < |ports| then PortUrl(ports[k]) else None
  }

  /** The ports of a pod reply as `wait_for_pod_ready` reads them, which
      fails on a null `runtime`. */
  function PortsAsWritten(q: PodQuery): (r: Result<seq<PodPort>, Fault>)
    ensures q == PodReply(RuntimeNull) ==> r.Err?
  {
    match q
    case PodQueryRaised(msg) => Err(Raised(msg))
    case PodQueryErrors(errors) => Err(Raised("Failed to get pod: " + errors))
    case PodReply(RuntimeNull) => Err(Raised("'NoneType' object has no attribute 'get'"))
    case PodReply(RuntimeMissing) => Ok([])
    case PodReply(Runtime(ports)) => Ok(ports.GetOr([]))
  }

  /** The ports of a pod reply, a null `runtime` read as no ports yet. */
  function PodPorts(q: PodQuery): (r: Result<seq<PodPort>, Fault>)
    ensures r.Err? <==> q.PodQueryRaised? || q.PodQueryErrors?
    ensures q.PodReply? && q.runtime.Runtime? && q.runtime.ports.Some? ==> r == Ok(q.runtime.ports.value)
    ensures q.PodReply? && !(q.runtime.Runtime? && q.runtime.ports.Some?) ==> r == Ok([])
  {
    match q
    case PodQueryRaised(msg) => Err(Raised(msg))
    case PodQueryErrors(errors) => Err(Raised("Failed to get pod: " + errors))
    case PodReply(RuntimeNull) => Ok([])
    case PodReply(RuntimeMissing) => Ok([])
    case PodReply(Runtime(ports)) => Ok(ports.GetOr([]))
  }

  /** This poll ends the wait: the query raised, or a port is ready. */
  predicate PollEnds(q: PodQuery, portsOf: PodQuery -> Result<seq<PodPort>, Fault>) {
    portsOf(q).Err? || ReadyUrlIn(portsOf(q).value).Some?
  }

  /** The outcome of the readiness wait when replies are read by `portsOf`:
      the first poll that raises or finds a ready port decides it, and
      running out of polls is a timeout. */
  function PodWaitOutcome(polls: seq<PodQuery>, portsOf: PodQuery -> Result<seq<PodPort>, Fault>)
    : Result<string, Fault>
  {
    var k := FirstIndex(polls, q => PollEnds(q, portsOf));
    if k == |polls| then Err(Timeout)
    else match portsOf(polls[k])
      case Err(f) => Err(f)
      case Ok(ports) => Ok(ReadyUrlIn(ports).value)
  }

  /** What `stop_pod`'s mutation produced. */
  datatype StopResponse = StopRaised(msg: string) | StopErrors(errors: string) | StopDone

  /** `stop_pod`: True, or an exception. */
  function StopPod(resp: StopResponse): (r: Result<bool, Fault>)
    ensures r.Ok? <==> resp == StopDone
    ensures r.Ok? ==> r.value
    ensures resp.StopErrors? ==> r == Err(Raised("Failed to stop pod: " + resp.errors))
  {
    match resp
    case StopRaised(msg) => Err(Raised(msg))
    case StopErrors(errors) => Err(Raised("Failed to stop pod: " + errors))
    case StopDone => Ok(true)
  }

  /** One iteration of the preferred loop of `get_ranked_gpus`: the first
      unused GPU of `top` whose name matches `preferred` is appended. */
  method PickPreferred(preferred: string, top: seq<Gpu>, p: Pass) returns (q: Pass)
    ensures q == PickFor(preferred, top, p)
  {
    ghost var k := FirstIndex(top, g => Matches(preferred, g) && g.id !in p.used);
    var j := 0;
    while j < |top|
      invariant 0 <= j <= |top|
      invariant j <= k
    {
      if Matches(preferred, top[j]) && top[j].id !in p.used {
        FirstIndexAt(top, g => Matches(preferred, g) && g.id !in p.used, j);
        return Pass(p.ranked + [top[j]], p.used + {top[j].id});
      }
      j := j + 1;
    }
    q := p;
  }

  /** The preferred loop of `get_ranked_gpus` over the ten cheapest GPUs. */
  method RankPreferred(top: seq<Gpu>) returns (p: Pass)
    ensures p == PreferredPass(PREFERRED_GPUS, top)
  {
    p := Pass([], {});
    var i := 0;
    while i < |PREFERRED_GPUS|
      invariant 0 <= i <= |PREFERRED_GPUS|
      invariant p == PreferredPass(PREFERRED_GPUS[..i], top)
    {
      assert PREFERRED_GPUS[..i + 1][..i] == PREFERRED_GPUS[..i];
      p := PickPreferred(PREFERRED_GPUS[i], top, p);
      i := i + 1;
    }
    assert PREFERRED_GPUS[..i] == PREFERRED_GPUS;
  }

  /** The second loop of `get_ranked_gpus`: every GPU whose id is unused is
      appended, in price order. */
  method FillRemaining(gpus: seq<Gpu>, p: Pass) returns (q: Pass)
    ensures q == FillPass(gpus, p)
  {
    q := p;
    var i := 0;
    while i < |gpus|
      invariant 0 <= i <= |gpus|
      invariant q == FillPass(gpus[..i], p)
    {
      assert gpus[..i + 1][..i] == gpus[..i];
      if gpus[i].id !in q.used {
        q := Pass(q.ranked + [gpus[i]], q.used + {gpus[i].id});
      }
      i := i + 1;
    }
    assert gpus[..i] == gpus;
  }

  class RunPodClient {
    const apiKey: string
    /** The pod the last successful `create_pod` reported. */
    var activePodId: Option<string>
    /** The API URL the last successful readiness wait found. */
    var podUrl: Option<string>

    constructor (apiKey: string)
      ensures this.apiKey == apiKey && activePodId == None && podUrl == None
    {
      this.apiKey := apiKey;
      activePodId := None;
      podUrl := None;
    }

    /** `get_available_gpus`: the filtering loop, then the stable sort. */
    method GetAvailableGpus(resp: GpuTypesResponse) returns (r: Result<seq<Gpu>, Fault>)
      ensures r == AvailableGpus(resp)
    {
      if resp.GpuTypesRaised? {
        return Err(Raised(resp.msg));
      }
      if resp.errors.Some? {
        return Err(Raised("GraphQL error: " + resp.errors.value));
      }
      var gpus := resp.gpuTypes.GetOr([]);
      var available := [];
      var i := 0;
      while i < |gpus|
        invariant 0 <= i <= |gpus|
        invariant Eligible(gpus[..i]) == Ok(available)
      {
        assert gpus[..i + 1][..i] == gpus[..i];
        var gpu := gpus[i];
        if HasVram(gpu) {
          if gpu.id.None? {
            EligibleErrPersists(gpus, i + 1);
            return Err(MissingKey("id"));
          }
          available := available + [Normalize(gpu)];
        }
        i := i + 1;
      }
      assert gpus[..i] == gpus;
      available := SortByKey(available, GpuPrice);
      r := Ok(available);
    }

    /** `get_ranked_gpus(max_results)`: preferred models first (each the
        cheapest unused match among the ten cheapest), then every other GPU
        by price, no id twice, cut to `maxResults`. */
    method GetRankedGpus(resp: GpuTypesResponse, maxResults: int) returns (r: Result<seq<Gpu>, Fault>)
      ensures r.Err? <==> AvailableGpus(resp).Err?
      ensures r.Err? ==> r == AvailableGpus(resp)
      ensures r.Ok? ==> r.value == RankedGpus(AvailableGpus(resp).value, maxResults)
    {
      var available := GetAvailableGpus(resp);
      if available.Err? {
        return available;
      }
      var gpus := available.value;
      if gpus == [] {
        return Ok([]);
      }
      var preferred := RankPreferred(SliceTo(gpus, PREFERRED_WINDOW));
      var ranking := FillRemaining(gpus, preferred);
      r := Ok(SliceTo(ranking.ranked, maxResults));
    }

    /** `create_pod`: errors raise and leave the active pod alone; otherwise
        the active pod becomes the reply's pod id (None for a missing pod). */
    method CreatePod(gpuId: string, resp: CreatePodResponse) returns (r: Result<CreatedPod, Fault>)
      modifies this`activePodId
      ensures r.Ok? <==> resp.CreatePodReply? && resp.errors.None?
      ensures r.Ok? ==>
        r.value == resp.pod && activePodId == (if resp.pod.PodObject? then resp.pod.id else None)
      ensures r.Err? ==> r.error == Raised(CreatePodFailure(resp)) && activePodId == old(activePodId)
    {
      if resp.CreatePodRaised? {
        return Err(Raised(resp.msg));
      }
      if resp.errors.Some? {
        return Err(Raised("Failed to create pod: " + resp.errors.value));
      }
      activePodId := if resp.pod.PodObject? then resp.pod.id else None;
      r := Ok(resp.pod);
    }

    /** `try_create_pod`: a capacity error becomes "no pod" (None) so the
        caller tries the next GPU; any other error propagates. */
    method TryCreatePod(gpuId: string, resp: CreatePodResponse) returns (r: Result<Option<CreatedPod>, Fault>)
      modifies this`activePodId
      ensures r == TryCreate(resp)
      ensures resp.CreatePodReply? && resp.errors.None? ==>
        r == Ok(Some(resp.pod)) && activePodId == (if resp.pod.PodObject? then resp.pod.id else None)
      ensures !(resp.CreatePodReply? && resp.errors.None?) ==>
        && activePodId == old(activePodId)
        && (IsCapacityError(CreatePodFailure(resp)) ==> r == Ok(None))
        && (!IsCapacityError(CreatePodFailure(resp)) ==> r == Err(Raised(CreatePodFailure(resp))))
    {
      var created := CreatePod(gpuId, resp);
      if created.Ok? {
        return Ok(Some(created.value));
      }
      if IsCapacityError(created.error.msg) {
        return Ok(None);
      }
      r := Err(created.error);
    }

    /** The inner loop of `wait_for_pod_ready` over one reply's ports. */
    method ScanPorts(ports: seq<PodPort>) returns (url: Option<string>)
      ensures url == ReadyUrlIn(ports)
    {
      var i := 0;
      while i < |ports|
        invariant 0 <= i <= |ports|
        invariant forall j :: 0 <= j < i ==> !PortReady(ports[j])
      {
        var candidate := PortUrl(ports[i]);
        if candidate.Some? && ports[i].health == Answered(200) {
          FirstIndexAt(ports, PortReady, i);
          return candidate;
        }
        i := i + 1;
      }
      FirstIndexAt(ports, PortReady, |ports|);
      url := None;
    }

    /** `wait_for_pod_ready`, each reply read by `portsOf` (`PortsAsWritten`
        as the code reads it, `PodPorts` with a null `runtime` read as "no
        ports yet"): the first healthy API port ends the wait and is
        remembered as the pod URL; a failed read propagates; no healthy port
        within the budget is a timeout. */
    method WaitForPodReady(podId: Option<string>, polls: seq<PodQuery>,
                           portsOf: PodQuery -> Result<seq<PodPort>, Fault>)
      returns (r: Result<string, Fault>)
      modifies this`podUrl
      ensures r == PodWaitOutcome(polls, portsOf)
      ensures r.Ok? ==> podUrl == Some(r.value)
      ensures r.Err? ==> podUrl == old(podUrl)
    {
      var i := 0;
      while i < |polls|
        invariant 0 <= i <= |polls|
        invariant forall j :: 0 <= j < i ==> !PollEnds(polls[j], portsOf)
        invariant podUrl == old(podUrl)
      {
        var ports := portsOf(polls[i]);
        if ports.Err? {
          FirstIndexAt(polls, q => PollEnds(q, portsOf), i);
          return Err(ports.error);
        }
        var url := ScanPorts(ports.value);
        if url.Some? {
          FirstIndexAt(polls, q => PollEnds(q, portsOf), i);
          podUrl := url;
          return Ok(url.value);
        }
        i := i + 1;
      }
      FirstIndexAt(polls, q => PollEnds(q, portsOf), |polls|);
      r := Err(Timeout);
    }
  }

  /** The URL a successful wait returns is built from a healthy port that
      maps the API port: `http://<ip>:<public port>`. */
  lemma PodWaitUrl(polls: seq<PodQuery>)
    requires PodWaitOutcome(polls, PodPorts).Ok?
    ensures exists k, port ::
      && 0 <= k < |polls| && PodPorts(polls[k]).Ok? && port in PodPorts(polls[k]).value
      && port.privatePort == Some(API_PORT) && port.health == Answered(200)
      && port.ip.Some? && port.publicPort.Some?
      && PodWaitOutcome(polls, PodPorts).value == "http://" + port.ip.value + ":" + IntToString(port.publicPort.value)
  {
    var k := FirstIndex(polls, q => PollEnds(q, PodPorts));
    var ports := PodPorts(polls[k]).value;
    var m := FirstIndex(ports, PortReady);
    assert ports[m] in ports;
  }

  /** As written, a reply with a null `runtime` ends the wait with an exception. */
  lemma AsWrittenStartingPodRaises(polls: seq<PodQuery>)
    requires |polls| > 0 && polls[0] == PodReply(RuntimeNull)
    ensures PodWaitOutcome(polls, PortsAsWritten).Err?
    ensures PodWaitOutcome(polls, PortsAsWritten) != Err(Timeout)
    ensures PodWaitOutcome(polls, PortsAsWritten) == Err(Raised("'NoneType' object has no attribute 'get'"))
  {
    FirstIndexAt(polls, q => PollEnds(q, PortsAsWritten), 0);
  }

  /** Whenever the wait as written succeeds, the corrected reading succeeds
      with the same URL: the two differ only on a null `runtime`, which the
      code as written cannot get past. */
  lemma {:induction false} AsWrittenSuccessAgrees(polls: seq<PodQuery>)
    requires PodWaitOutcome(polls, PortsAsWritten).Ok?
    ensures PodWaitOutcome(polls, PodPorts) == PodWaitOutcome(polls, PortsAsWritten)
  {
    var k := FirstIndex(polls, q => PollEnds(q, PortsAsWritten));
    forall j | 0 <= j < k ensures !PollEnds(polls[j], PodPorts) {
      assert !PollEnds(polls[j], PortsAsWritten);
      assert PodPorts(polls[j]) == PortsAsWritten(polls[j]);
    }
    assert PodPorts(polls[k]) == PortsAsWritten(polls[k]);
    FirstIndexAt(polls, q => PollEnds(q, PodPorts), k);
  }

  /** Read as "no ports yet", such a reply lets the wait go on to the next poll. */
  lemma StartingPodWaits(polls: seq<PodQuery>)
    requires |polls| > 0 && polls[0] == PodReply(RuntimeNull)
    ensures PodWaitOutcome(polls, PodPorts) == PodWaitOutcome(polls[1..], PodPorts)
  {
    FirstIndexAt<PodPort>([], PortReady, 0);
    assert !PollEnds(polls[0], PodPorts);
    var k := FirstIndex(polls[1..], q => PollEnds(q, PodPorts));
    forall j | 0 <= j < k + 1 ensures !PollEnds(polls[j], PodPorts) {
      if j > 0 { assert polls[j] == polls[1..][j - 1]; }
    }
    FirstIndexAt(polls, q => PollEnds(q, PodPorts), k + 1);
  }

  /** A pod whose API port is healthy on the first poll: its URL is returned. */
  lemma HealthyPodAnswers(ready: PodPort)
    requires ready == PodPort(Some("10.0.0.1"), Some(API_PORT), Some(40000), Answered(200))
    ensures PodWaitOutcome([PodReply(Runtime(Some([ready])))], PodPorts)
            == Ok("http://10.0.0.1:" + IntToString(40000))
  {
    var rest := [PodReply(Runtime(Some([ready])))];
    assert PortReady(ready);
    FirstIndexAt([ready], PortReady, 0);
    assert PollEnds(rest[0], PodPorts);
    FirstIndexAt(rest, q => PollEnds(q, PodPorts), 0);
    assert ReadyUrlIn([ready]) == PortUrl(ready);
    assert "http://" + "10.0.0.1" + ":" == "http://10.0.0.1:";
  }

  /** A pod caught before it has a runtime, then found healthy on the next
      poll: as written the wait raises, while the corrected reading returns
      the pod's URL. */
  lemma StartingPodAbortsWait()
    ensures var ready := PodPort(Some("10.0.0.1"), Some(API_PORT), Some(40000), Answered(200));
      var polls := [PodReply(RuntimeNull), PodReply(Runtime(Some([ready])))];
      && PodWaitOutcome(polls, PortsAsWritten).Err?
      && PodWaitOutcome(polls, PodPorts) == Ok("http://10.0.0.1:" + IntToString(40000))
  {
    var ready := PodPort(Some("10.0.0.1"), Some(API_PORT), Some(40000), Answered(200));
    var polls := [PodReply(RuntimeNull), PodReply(Runtime(Some([ready])))];
    AsWrittenStartingPodRaises(polls);
    StartingPodWaits(polls);
    assert polls[1..] == [PodReply(Runtime(Some([ready])))];
    HealthyPodAnswers(ready);
  }
}
