/** Vast.ai instance life cycle: `create_instance`, `get_instance`,
    `destroy_instance` and `wait_for_instance_ready`. Every HTTP call is an
    oracle value; the readiness wait gets one scripted poll per loop
    iteration that starts before the timeout. */
module VastInstances {
  import opened Support

  /** Key of the API port in the instance's Docker port mapping. */
  const API_PORT_KEY: string := "8185/tcp"

  /** One entry of a Docker port mapping; `hostPort == None` is a missing key. */
  datatype PortBinding = PortBinding(hostPort: Option<string>)

  /** An instance object as the marketplace reports it. */
  datatype RawInstance = RawInstance(
    id: Option<int>,
    actualStatus: Option<string>,
    publicIpaddr: Option<string>,
    ports: Option<map<string, seq<PortBinding>>>,
    dphTotal: Option<real>,
    gpuName: Option<string>)

  /** The value under the `instances` key: an object, an array, or anything else. */
  datatype InstancesField =
    | InstanceObject(inst: RawInstance)
    | InstanceArray(items: seq<RawInstance>)
    | OtherShape

  /** What `GET /instances/{id}/` produced; `instances == None` is a missing key. */
  datatype GetInstanceResponse =
    | GetRaised(msg: string)
    | GetReply(instances: Option<InstancesField>)

  /** The dictionary `get_instance` returns, every absent key read as `.get` would. */
  datatype InstanceInfo = InstanceInfo(
    id: Option<int>,
    status: string,
    publicIp: Option<string>,
    ports: map<string, seq<PortBinding>>,
    gpuName: Option<string>,
    costPerHour: real)

  /** The two-key dictionary returned when no instance could be read. */
  function Unreported(instanceId: Option<int>, status: string): InstanceInfo {
    InstanceInfo(instanceId, status, None, map[], None, 0.0)
  }

  function Describe(inst: RawInstance): InstanceInfo {
    InstanceInfo(inst.id, inst.actualStatus.GetOr("unknown"), inst.publicIpaddr,
                 inst.ports.GetOr(map[]), inst.gpuName, inst.dphTotal.GetOr(0.0))
  }

  /** The instance object a reply carries: an object as it is, the first
      element of a non-empty array, and nothing otherwise. */
  function Selected(resp: GetInstanceResponse): (r: Option<RawInstance>)
    ensures r.Some? <==>
      resp.GetReply? && resp.instances.Some? &&
      (resp.instances.value.InstanceObject? ||
       (resp.instances.value.InstanceArray? && resp.instances.value.items != []))
  {
    match resp
    case GetRaised(_) => None
    case GetReply(instances) =>
      match instances
      case None => None
      case Some(InstanceObject(inst)) => Some(inst)
      case Some(InstanceArray(items)) => if items != [] then Some(items[0]) else None
      case Some(OtherShape) => None
  }

  /** `get_instance` never raises: a failed request reads as status "error",
      a reply without a usable instance as "not_found", and a missing
      `actual_status` as "unknown". */
  function GetInstance(instanceId: Option<int>, resp: GetInstanceResponse): (r: InstanceInfo)
    ensures resp.GetRaised? ==> r == Unreported(instanceId, "error")
    ensures resp.GetReply? && Selected(resp).None? ==> r == Unreported(instanceId, "not_found")
    ensures Selected(resp).Some? ==>
      && r.id == Selected(resp).value.id
      && r.status == Selected(resp).value.actualStatus.GetOr("unknown")
      && r.publicIp == Selected(resp).value.publicIpaddr
      && r.ports == Selected(resp).value.ports.GetOr(map[])
      && r.gpuName == Selected(resp).value.gpuName
      && r.costPerHour == Selected(resp).value.dphTotal.GetOr(0.0)
  {
    if resp.GetRaised? then Unreported(instanceId, "error")
    else match Selected(resp)
      case None => Unreported(instanceId, "not_found")
      case Some(inst) => Describe(inst)
  }

  /** What `DELETE /instances/{id}/` produced; `success == None` is a missing key. */
  datatype DestroyResponse = DestroyRaised(msg: string) | DestroyReply(success: Option<bool>)

  /** `destroy_instance` never raises; it reports success only when the reply says so. */
  function DestroyInstance(resp: DestroyResponse): (ok: bool)
    ensures ok <==> resp == DestroyReply(Some(true))
  {
    match resp
    case DestroyRaised(_) => false
    case DestroyReply(success) => success.GetOr(false)
  }

  /** The URL `wait_for_instance_ready` would probe for this poll's instance:
      only for a running instance with a public IP and a first `8185/tcp`
      binding that carries a host port. */
  function ApiUrl(info: InstanceInfo): (u: Option<string>)
    ensures u.Some? <==>
      && info.status == "running"
      && Truthy(info.publicIp)
      && API_PORT_KEY in info.ports
      && info.ports[API_PORT_KEY] != []
      && Truthy(info.ports[API_PORT_KEY][0].hostPort)
    ensures u.Some? ==>
      u.value == "http://" + info.publicIp.value + ":" + info.ports[API_PORT_KEY][0].hostPort.value
  {
    if info.status == "running" && Truthy(info.publicIp)
       && API_PORT_KEY in info.ports && info.ports[API_PORT_KEY] != []
       && Truthy(info.ports[API_PORT_KEY][0].hostPort)
    then Some("http://" + info.publicIp.value + ":" + info.ports[API_PORT_KEY][0].hostPort.value)
    else None
  }

  /** One iteration of the readiness loop: the instance query and, if a URL
      is probed, what its `/health` answered. */
  datatype ReadyPoll = ReadyPoll(instance: GetInstanceResponse, health: HealthOutcome)

  /** This poll ends the wait: a URL is known and `/health` answered 200. */
  predicate PollReady(instanceId: Option<int>, p: ReadyPoll) {
    ApiUrl(GetInstance(instanceId, p.instance)).Some? && p.health == Answered(200)
  }

  /** The URL found by the first poll that is ready, if any. */
  function ReadyUrl(instanceId: Option<int>, polls: seq<ReadyPoll>): Option<string> {
    var k := FirstIndex(polls, p => PollReady(instanceId, p));
    if k < |polls| then ApiUrl(GetInstance(instanceId, polls[k].instance)) else None
  }

  /** A failed query or an unusable reply never yields an endpoint. */
  lemma UnreadableInstanceNotReady(instanceId: Option<int>, p: ReadyPoll)
    requires Selected(p.instance).None?
    ensures !PollReady(instanceId, p)
  {
  }

  /** What `PUT /asks/{offer_id}/` produced. `text` is how the reply prints. */
  datatype CreateResponse =
    | CreateRaised(msg: string)
    | CreateReply(success: bool, newContract: Option<int>, text: string)

  /** The dictionary `create_instance` returns on success. */
  datatype CreatedInstance = CreatedInstance(id: Option<int>, offerId: Option<int>, success: bool)

  /** The message of the exception `create_instance` raises: the unsuccessful
      reply is raised inside the `try` and wrapped a second time. */
  function CreateFailure(resp: CreateResponse): string
    requires !(resp.CreateReply? && resp.success)
  {
    match resp
    case CreateRaised(msg) => "Failed to create instance: " + msg
    case CreateReply(_, _, text) =>
      "Failed to create instance: " + "Failed to create instance: " + text
  }

  class VastAIClient {
    const apiKey: string
    /** The id of the last instance this client created. */
    var activeInstanceId: Option<int>

    constructor (apiKey: string)
      ensures this.apiKey == apiKey && activeInstanceId == None
    {
      this.apiKey := apiKey;
      activeInstanceId := None;
    }

    /** `create_instance`: succeeds exactly when the reply has `success`,
        then records the new contract as the active instance; every other
        outcome is an exception and leaves the active instance alone. */
    method CreateInstance(offerId: Option<int>, resp: CreateResponse)
      returns (r: Result<CreatedInstance, Fault>)
      modifies this`activeInstanceId
      ensures r.Ok? <==> resp.CreateReply? && resp.success
      ensures r.Ok? ==> r.value == CreatedInstance(resp.newContract, offerId, true)
                        && activeInstanceId == resp.newContract
      ensures r.Err? ==> r.error == Raised(CreateFailure(resp))
                         && activeInstanceId == old(activeInstanceId)
    {
      if resp.CreateReply? && resp.success {
        activeInstanceId := resp.newContract;
        r := Ok(CreatedInstance(resp.newContract, offerId, true));
      } else {
        r := Err(Raised(CreateFailure(resp)));
      }
    }

    /** `wait_for_instance_ready`: polls until some poll sees a running
        instance with a probe-able URL whose `/health` answers 200, and
        returns that URL; probe failures and non-200 answers only mean
        "poll again". Returns None when every poll of the budget failed. */
    method WaitForInstanceReady(instanceId: Option<int>, polls: seq<ReadyPoll>)
      returns (url: Option<string>)
      ensures url.None? <==> forall i :: 0 <= i < |polls| ==> !PollReady(instanceId, polls[i])
      ensures url.Some? ==>
        var k := FirstIndex(polls, p => PollReady(instanceId, p));
        k < |polls| && url == ApiUrl(GetInstance(instanceId, polls[k].instance))
      ensures url == ReadyUrl(instanceId, polls)
    {
      var i := 0;
      while i < |polls|
        invariant 0 <= i <= |polls|
        invariant forall j :: 0 <= j < i ==> !PollReady(instanceId, polls[j])
      {
        var info := GetInstance(instanceId, polls[i].instance);
        var candidate := ApiUrl(info);
        if candidate.Some? && polls[i].health == Answered(200) {
          assert PollReady(instanceId, polls[i]);
          ghost var k := FirstIndex(polls, p => PollReady(instanceId, p));
          assert k == i;
          return candidate;
        }
        i := i + 1;
      }
      FirstIndexAt(polls, p => PollReady(instanceId, p), |polls|);
      return None;
    }
  }
}
