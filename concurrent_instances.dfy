/** The batch launcher of test_concurrent_instances.py: an `InstanceTester`
    that launches N Vast.ai instances one after another on the ranked offers
    in round-robin order, records each successful launch, saves the records
    to a JSON registry file, and a destroyer that reads that registry back,
    destroys every recorded instance and removes the file. The marketplace
    replies, the clock and the registry file are parameters. */
module ConcurrentInstances {
  import opened Support
  import opened VastOffers
  import opened VastInstances

  /** How many ranked offers the tester asks for. */
  const TESTER_OFFERS: int := 20

  /** The record kept for one successful launch. */
  datatype InstanceRecord = InstanceRecord(
    index: int,            // the launch number, 0-based
    id: Option<int>,       // the new contract id, null when the reply had none
    offerId: Option<int>,
    gpu: string,
    price: real,
    createdAt: string)     // the ISO timestamp of the launch

  /** One entry of the registry as `json.load` reads it back; `None` is a
      missing key (or, for `index`, a value that does not format as an
      integer). `id` and `offerId` are themselves nullable. */
  datatype StoredInstance = StoredInstance(
    index: Option<int>,
    id: Option<Option<int>>,
    offerId: Option<Option<int>>,
    gpu: Option<string>,
    price: Option<real>,
    createdAt: Option<string>)

  /** The registry file `active_instances.json`; `content == None` means the
      file does not exist. */
  class InstancesFile {
    var content: Option<seq<StoredInstance>>
  }

  /** The registry entry `json.dump` writes for a record: every key present. */
  function Store(r: InstanceRecord): StoredInstance {
    StoredInstance(Some(r.index), Some(r.id), Some(r.offerId), Some(r.gpu), Some(r.price),
                   Some(r.createdAt))
  }

  function Stored(records: seq<InstanceRecord>): (s: seq<StoredInstance>)
    ensures |s| == |records| && forall i :: 0 <= i < |s| ==> s[i] == Store(records[i])
  {
    seq(|records|, i requires 0 <= i < |records| => Store(records[i]))
  }

  /** What launch number `index` records when it used `offer` and the
      marketplace answered `resp` at time `now`: a record exactly when
      `create_instance` succeeded. */
  function Launched(offer: Offer, index: int, resp: CreateResponse, now: string): Option<InstanceRecord> {
    if resp.CreateReply? && resp.success
    then Some(InstanceRecord(index, resp.newContract, offer.id, offer.gpuName, offer.pricePerHour, now))
    else None
  }

  /** The records of launches `0 .. count-1`, the first one taking offer
      number `start` of the round robin. */
  function Records(offers: seq<Offer>, start: nat, creates: seq<CreateResponse>, nows: seq<string>,
                   count: nat): seq<InstanceRecord>
    requires |offers| > 0 && count <= |creates| && count <= |nows|
    decreases count
  {
    if count == 0 then []
    else
      var i := count - 1;
      var prev := Records(offers, start, creates, nows, i);
      match Launched(offers[(start + i) % |offers|], i, creates[i], nows[i])
      case Some(r) => prev + [r]
      case None => prev
  }

  /** A launch succeeded. */
  predicate Succeeds(resp: CreateResponse) {
    resp.CreateReply? && resp.success
  }

  /** Records never come from later launches: indices are below `count`
      and strictly increasing (launch order). */
  lemma {:induction false} RecordsOrdered(offers: seq<Offer>, start: nat, creates: seq<CreateResponse>,
                                          nows: seq<string>, count: nat)
    requires |offers| > 0 && count <= |creates| && count <= |nows|
    ensures var rs := Records(offers, start, creates, nows, count);
      && (forall j :: 0 <= j < |rs| ==> 0 <= rs[j].index < count)
      && (forall j, k :: 0 <= j < k < |rs| ==> rs[j].index < rs[k].index)
      && |rs| <= count
    decreases count
  {
    if count > 0 {
      RecordsOrdered(offers, start, creates, nows, count - 1);
    }
  }

  /** `r` is the record launch `r.index` (one of the first `count`)
      produced: that launch succeeded, and `r` carries its new contract and
      the offer the round robin gave it. */
  predicate IsLaunchRecord(offers: seq<Offer>, start: nat, creates: seq<CreateResponse>,
                           nows: seq<string>, count: nat, r: InstanceRecord)
    requires |offers| > 0 && count <= |creates| && count <= |nows|
  {
    && 0 <= r.index < count
    && Succeeds(creates[r.index])
    && Launched(offers[(start + r.index) % |offers|], r.index, creates[r.index], nows[r.index]) == Some(r)
  }

  /** Each record is the one its launch produced. */
  lemma {:induction false} RecordsSound(offers: seq<Offer>, start: nat, creates: seq<CreateResponse>,
                                        nows: seq<string>, count: nat)
    requires |offers| > 0 && count <= |creates| && count <= |nows|
    ensures forall r :: r in Records(offers, start, creates, nows, count) ==>
              IsLaunchRecord(offers, start, creates, nows, count, r)
    decreases count
  {
    if count > 0 {
      var i := count - 1;
      RecordsSound(offers, start, creates, nows, i);
      var prev := Records(offers, start, creates, nows, i);
      var rs := Records(offers, start, creates, nows, count);
      assert forall r :: r in prev ==> IsLaunchRecord(offers, start, creates, nows, count, r);
      if Succeeds(creates[i]) {
        assert rs == prev + [Launched(offers[(start + i) % |offers|], i, creates[i], nows[i]).value];
      } else {
        assert rs == prev;
      }
    }
  }

  /** Some record comes from launch `index`. */
  predicate HasRecord(records: seq<InstanceRecord>, index: int) {
    exists j :: 0 <= j < |records| && records[j].index == index
  }

  /** Every successful launch left a record. */
  lemma {:induction false} RecordsComplete(offers: seq<Offer>, start: nat, creates: seq<CreateResponse>,
                                           nows: seq<string>, count: nat)
    requires |offers| > 0 && count <= |creates| && count <= |nows|
    ensures forall i :: 0 <= i < count && Succeeds(creates[i]) ==>
              HasRecord(Records(offers, start, creates, nows, count), i)
    decreases count
  {
    if count > 0 {
      var i := count - 1;
      RecordsComplete(offers, start, creates, nows, i);
      var prev := Records(offers, start, creates, nows, i);
      var rs := Records(offers, start, creates, nows, count);
      if Succeeds(creates[i]) {
        assert rs == prev + [Launched(offers[(start + i) % |offers|], i, creates[i], nows[i]).value];
      } else {
        assert rs == prev;
      }
      forall m | 0 <= m < count && Succeeds(creates[m])
        ensures HasRecord(rs, m)
      {
        if m == i {
          assert rs[|rs| - 1].index == m;
        } else {
          assert HasRecord(prev, m);
          var j :| 0 <= j < |prev| && prev[j].index == m;
          assert rs[j] == prev[j];
        }
      }
    }
  }

  /** `InstanceTester`: the offers are fetched once; launches pick offers in
      round robin, and the counters account for every launch. */
  class InstanceTester {
    const numInstances: int
    const vastai: VastAIClient
    const availableOffers: seq<Offer>
    /** The records of the successful launches, in launch order. */
    var instances: seq<InstanceRecord>
    var successCount: nat
    var failCount: nat
    /** The round-robin position: how many offers were handed out. */
    var offerIndex: nat

    /** The offers are non-empty (the tester is never built otherwise),
        every launch is counted once and used one offer, and there is one
        record per success. */
    ghost predicate Valid()
      reads this
    {
      && |availableOffers| > 0
      && offerIndex == successCount + failCount
      && |instances| == successCount
    }

    /** The state `__init__` leaves once the offers are known. */
    constructor (numInstances: int, vastai: VastAIClient, offers: seq<Offer>)
      requires |offers| > 0
      ensures Valid()
      ensures this.numInstances == numInstances && this.vastai == vastai
      ensures availableOffers == offers
      ensures instances == [] && successCount == 0 && failCount == 0 && offerIndex == 0
    {
      this.numInstances := numInstances;
      this.vastai := vastai;
      availableOffers := offers;
      instances := [];
      successCount := 0;
      failCount := 0;
      offerIndex := 0;
    }

    /** `get_next_offer`: the offer at the round-robin position, which then
        advances by one. */
    method GetNextOffer() returns (offer: Offer)
      requires |availableOffers| > 0
      modifies this`offerIndex
      ensures offer == availableOffers[old(offerIndex) % |availableOffers|]
      ensures offerIndex == old(offerIndex) + 1
    {
      offer := availableOffers[offerIndex % |availableOffers|];
      offerIndex := offerIndex + 1;
    }

    /** `launch_instance`: take the next offer and create an instance on
        it. A success counts once and appends its record; a failure (the
        creation raised) counts once and records nothing. */
    method LaunchInstance(index: int, resp: CreateResponse, now: string) returns (info: Option<InstanceRecord>)
      requires Valid()
      modifies this, vastai`activeInstanceId
      ensures Valid()
      ensures offerIndex == old(offerIndex) + 1
      ensures info == Launched(availableOffers[old(offerIndex) % |availableOffers|], index, resp, now)
      ensures info.Some? ==> && instances == old(instances) + [info.value]
                             && successCount == old(successCount) + 1 && failCount == old(failCount)
      ensures info.None? ==> && instances == old(instances)
                             && successCount == old(successCount) && failCount == old(failCount) + 1
    {
      var offer := GetNextOffer();
      var created := vastai.CreateInstance(offer.id, resp);
      if created.Err? {
        failCount := failCount + 1;
        return None;
      }
      // a created instance always reports `success`, so the second check cannot fire
      var r := InstanceRecord(index, created.value.id, offer.id, offer.gpuName, offer.pricePerHour, now);
      successCount := successCount + 1;
      instances := instances + [r];
      info := Some(r);
    }

    /** The launching loop of `run`: launches `0 .. count-1` in order, the
        i-th answered by `creates[i]` at time `nows[i]`. */
    method LaunchAll(count: nat, creates: seq<CreateResponse>, nows: seq<string>)
      requires Valid() && count <= |creates| && count <= |nows|
      modifies this, vastai`activeInstanceId
      ensures Valid()
      ensures instances == old(instances) + Records(availableOffers, old(offerIndex), creates, nows, count)
      ensures offerIndex == old(offerIndex) + count
      ensures successCount == old(successCount) + |Records(availableOffers, old(offerIndex), creates, nows, count)|
    {
      ghost var start := offerIndex;
      for i := 0 to count
        invariant Valid()
        invariant offerIndex == start + i
        invariant instances == old(instances) + Records(availableOffers, start, creates, nows, i)
        invariant successCount == old(successCount) + |Records(availableOffers, start, creates, nows, i)|
      {
        var _ := LaunchInstance(i, creates[i], nows[i]);
      }
    }

    /** `save_instances`: the registry file now holds every record. */
    method SaveInstances(file: InstancesFile)
      modifies file
      ensures file.content == Some(Stored(instances))
    {
      file.content := Some(Stored(instances));
    }

    /** `run`: launch `numInstances` instances in order; the summary line
        divides by `numInstances`, so zero instances raise; without any
        success nothing is saved; otherwise the instances are grouped by GPU
        for the report and saved. */
    method Run(creates: seq<CreateResponse>, nows: seq<string>, file: InstancesFile)
      returns (r: Result<(), Fault>, groups: map<string, seq<InstanceRecord>>)
      requires Valid() && numInstances <= |creates| && numInstances <= |nows|
      modifies this, vastai`activeInstanceId, file
      ensures Valid()
      ensures var n := if numInstances > 0 then numInstances else 0;
        && instances == old(instances) + Records(availableOffers, old(offerIndex), creates, nows, n)
        && offerIndex == old(offerIndex) + n
      ensures numInstances == 0 ==> r == Err(Raised("division by zero")) && file.content == old(file.content)
      ensures numInstances != 0 ==> r == Ok(())
      ensures numInstances != 0 && successCount == 0 ==> file.content == old(file.content) && groups == map[]
      ensures numInstances != 0 && successCount > 0 ==>
        && file.content == Some(Stored(instances))
        && groups.Keys == (set x | x in instances :: x.gpu)
        && forall g :: g in groups ==> groups[g] == WithGpu(instances, g)
    {
      groups := map[];
      var n := if numInstances > 0 then numInstances else 0;
      LaunchAll(n, creates, nows);
      if numInstances == 0 {
        return Err(Raised("division by zero")), groups;
      }
      r := Ok(());
      if successCount == 0 {
        return;
      }
      groups := GroupByGpu(instances);
      SaveInstances(file);
    }
  }

  /** The records for GPU `g`, in order. */
  function WithGpu(records: seq<InstanceRecord>, g: string): seq<InstanceRecord>
    decreases |records|
  {
    if records == [] then []
    else
      var init := WithGpu(records[..|records| - 1], g);
      if records[|records| - 1].gpu == g then init + [records[|records| - 1]] else init
  }

  /** The group of `g` holds exactly the records for `g`. */
  lemma {:induction false} WithGpuSpec(records: seq<InstanceRecord>, g: string)
    ensures forall x :: x in WithGpu(records, g) <==> x in records && x.gpu == g
    ensures |WithGpu(records, g)| <= |records|
    decreases |records|
  {
    if records != [] {
      var init := records[..|records| - 1];
      WithGpuSpec(init, g);
      assert records == init + [records[|records| - 1]];
    }
  }

  /** A GPU no record has gets an empty group. */
  lemma {:induction false} WithGpuAbsent(records: seq<InstanceRecord>, g: string)
    requires forall x :: x in records ==> x.gpu != g
    ensures WithGpu(records, g) == []
    decreases |records|
  {
    if records != [] {
      var init := records[..|records| - 1];
      assert forall x :: x in init ==> x in records;
      WithGpuAbsent(init, g);
    }
  }

  /** The grouping loop of `run`: one group per GPU name that occurs, each
      holding that GPU's records in launch order. */
  method GroupByGpu(records: seq<InstanceRecord>) returns (groups: map<string, seq<InstanceRecord>>)
    ensures groups.Keys == (set x | x in records :: x.gpu)
    ensures forall g :: g in groups ==> groups[g] == WithGpu(records, g)
  {
    groups := map[];
    for i := 0 to |records|
      invariant groups.Keys == (set x | x in records[..i] :: x.gpu)
      invariant forall g :: g in groups ==> groups[g] == WithGpu(records[..i], g)
    {
      var inst := records[i];
      assert records[..i + 1][..i] == records[..i];
      ghost var before := groups;
      if inst.gpu !in groups {
        WithGpuAbsent(records[..i], inst.gpu);
        groups := groups[inst.gpu := []];
      }
      groups := groups[inst.gpu := groups[inst.gpu] + [inst]];
      forall g | g in groups
        ensures groups[g] == WithGpu(records[..i + 1], g)
      {
        if g != inst.gpu {
          assert g in before;
        }
      }
    }
    assert records[..|records|] == records;
  }

  /** Every record is in the group of its GPU, and a group holds only
      records of that GPU. */
  lemma GroupsPartition(records: seq<InstanceRecord>, groups: map<string, seq<InstanceRecord>>)
    requires groups.Keys == (set x | x in records :: x.gpu)
    requires forall g :: g in groups ==> groups[g] == WithGpu(records, g)
    ensures forall x :: x in records ==> x.gpu in groups && x in groups[x.gpu]
    ensures forall g, x :: g in groups && x in groups[g] ==> x in records && x.gpu == g
  {
    forall x | x in records
      ensures x.gpu in groups && x in groups[x.gpu]
    {
      WithGpuSpec(records, x.gpu);
    }
    forall g, x | g in groups && x in groups[g]
      ensures x in records && x.gpu == g
    {
      WithGpuSpec(records, g);
    }
  }

  /** The interrupt handler of `main`: the records so far are saved exactly
      when there are any. */
  method SaveOnInterrupt(tester: InstanceTester, file: InstancesFile)
    modifies file
    ensures file.content == (if tester.instances != [] then Some(Stored(tester.instances)) else old(file.content))
  {
    if tester.instances != [] {
      tester.SaveInstances(file);
    }
  }

  /** `InstanceTester(num_instances)`: the API key must be set and the
      ranking must yield at least one offer. */
  method NewTester(numInstances: int, apiKey: Option<string>, search: SearchResponse)
    returns (r: Result<InstanceTester, Fault>)
    ensures !Truthy(apiKey) ==> r == Err(Raised("VASTAI_API_KEY not set"))
    ensures Truthy(apiKey) && RankedOffers(search, TESTER_OFFERS) == [] ==>
      r == Err(Raised("No GPU offers available"))
    ensures r.Ok? <==> Truthy(apiKey) && RankedOffers(search, TESTER_OFFERS) != []
    ensures r.Ok? ==>
      && fresh(r.value) && fresh(r.value.vastai)
      && r.value.Valid() && r.value.numInstances == numInstances
      && r.value.availableOffers == RankedOffers(search, TESTER_OFFERS)
      && r.value.instances == [] && r.value.offerIndex == 0 && r.value.successCount == 0
  {
    if !Truthy(apiKey) {
      return Err(Raised("VASTAI_API_KEY not set"));
    }
    var vastai := new VastAIClient(apiKey.value);
    var offers := RankedOffers(search, TESTER_OFFERS);
    if offers == [] {
      return Err(Raised("No GPU offers available"));
    }
    var tester := new InstanceTester(numInstances, vastai, offers);
    r := Ok(tester);
  }

  /** The registry entry names an instance to destroy: reading `id` and
      formatting `index` do not raise. */
  predicate Destroyable(e: StoredInstance) {
    e.id.Some? && e.index.Some?
  }

  /** The instance ids `destroy_all_instances` passes to `destroy_instance`,
      in registry order. */
  function DestroyCalls(entries: seq<StoredInstance>): (calls: seq<Option<int>>)
    ensures |calls| <= |entries|
    decreases |entries|
  {
    if entries == [] then []
    else
      var init := DestroyCalls(entries[..|entries| - 1]);
      var e := entries[|entries| - 1];
      if Destroyable(e) then init + [e.id.value] else init
  }

  /** A registry written by `save_instances` destroys every record it holds,
      in order. */
  lemma {:induction false} SavedRegistryDestroysAll(records: seq<InstanceRecord>)
    ensures DestroyCalls(Stored(records)) == seq(|records|, i requires 0 <= i < |records| => records[i].id)
    decreases |records|
  {
    if records != [] {
      var init := records[..|records| - 1];
      SavedRegistryDestroysAll(init);
      assert Stored(records)[..|records| - 1] == Stored(init);
    }
  }

  /** `destroy_all_instances`, with `replies[j]` the answer to the j-th
      destroy request. Nothing happens when the registry is missing or
      empty or the API key is unset. Otherwise every destroyable entry is
      destroyed in order and counts as a success whatever the reply (the
      client never raises); only an entry that cannot be read counts as a
      failure; and the registry is removed. */
  method DestroyAllInstances(file: InstancesFile, apiKey: Option<string>, replies: seq<DestroyResponse>)
    returns (success: nat, failed: nat, calls: seq<Option<int>>)
    requires file.content.Some? ==> |replies| >= |file.content.value|
    modifies file
    ensures old(file.content).None? || old(file.content) == Some([]) || !Truthy(apiKey) ==>
      file.content == old(file.content) && success == 0 && failed == 0 && calls == []
    ensures old(file.content).Some? && old(file.content) != Some([]) && Truthy(apiKey) ==>
      && calls == DestroyCalls(old(file.content).value)
      && success == |calls|
      && success + failed == |old(file.content).value|
      && file.content.None?
  {
    success, failed, calls := 0, 0, [];
    if file.content.None? {
      return;
    }
    var entries := file.content.value;
    if entries == [] {
      return;
    }
    if !Truthy(apiKey) {
      return;
    }
    for j := 0 to |entries|
      invariant calls == DestroyCalls(entries[..j])
      invariant success == |calls| && success + failed == j
    {
      var inst := entries[j];
      assert entries[..j + 1][..j] == entries[..j];
      if !Destroyable(inst) {
        failed := failed + 1;
      } else {
        var _ := DestroyInstance(replies[|calls|]);
        calls := calls + [inst.id.value];
        success := success + 1;
      }
    }
    assert entries[..|entries|] == entries;
    file.content := None;
  }

  /** How `main` ends. */
  datatype Outcome = Finished | Exited(code: int) | Aborted(fault: Fault)

  /** `main`. With `--destroy-all` it runs the destroyer; otherwise it
      builds the tester and runs it. `interruptAt == Some(k)` is a
      KeyboardInterrupt arriving before launch k, after which the records
      so far are saved if there are any. In every launching run the
      registry ends up holding the records of the launches made, unless
      there were none, in which case it is left as it was. */
  method EntryPoint(apiKey: Option<string>, destroyAll: bool, numInstances: int, search: SearchResponse,
                    creates: seq<CreateResponse>, nows: seq<string>, interruptAt: Option<nat>,
                    replies: seq<DestroyResponse>, file: InstancesFile)
    returns (outcome: Outcome)
    requires numInstances <= |creates| && numInstances <= |nows|
    requires file.content.Some? ==> |replies| >= |file.content.value|
    modifies file
    ensures !Truthy(apiKey) ==> outcome == Exited(1) && file.content == old(file.content)
    ensures Truthy(apiKey) && destroyAll ==>
      && outcome == Finished
      && file.content == (if old(file.content).Some? && old(file.content) != Some([]) then None
                          else old(file.content))
    ensures Truthy(apiKey) && !destroyAll && RankedOffers(search, TESTER_OFFERS) == [] ==>
      outcome == Aborted(Raised("No GPU offers available")) && file.content == old(file.content)
    ensures Truthy(apiKey) && !destroyAll && RankedOffers(search, TESTER_OFFERS) != [] ==>
      var interrupted := interruptAt.Some? && interruptAt.value < numInstances;
      var n := if interrupted then interruptAt.value else if numInstances > 0 then numInstances else 0;
      var records := Records(RankedOffers(search, TESTER_OFFERS), 0, creates, nows, n);
      && file.content == (if records != [] then Some(Stored(records)) else old(file.content))
      && outcome == (if !interrupted && numInstances == 0 then Aborted(Raised("division by zero"))
                     else Finished)
  {
    if !Truthy(apiKey) {
      return Exited(1);
    }
    if destroyAll {
      var _, _, _ := DestroyAllInstances(file, apiKey, replies);
      return Finished;
    }
    var made := NewTester(numInstances, apiKey, search);
    if made.Err? {
      return Aborted(made.error);
    }
    outcome := Launch(made.value, creates, nows, interruptAt, file);
  }

  /** The `try` block of `main` for a freshly built tester: `run`, or the
      launches before a KeyboardInterrupt followed by the interrupt handler. */
  method Launch(tester: InstanceTester, creates: seq<CreateResponse>, nows: seq<string>,
                interruptAt: Option<nat>, file: InstancesFile)
    returns (outcome: Outcome)
    requires tester.Valid() && tester.instances == [] && tester.offerIndex == 0
    requires tester.numInstances <= |creates| && tester.numInstances <= |nows|
    modifies tester, tester.vastai`activeInstanceId, file
    ensures var numInstances := tester.numInstances;
      var interrupted := interruptAt.Some? && interruptAt.value < numInstances;
      var n := if interrupted then interruptAt.value else if numInstances > 0 then numInstances else 0;
      var records := Records(tester.availableOffers, 0, creates, nows, n);
      && file.content == (if records != [] then Some(Stored(records)) else old(file.content))
      && outcome == (if !interrupted && numInstances == 0 then Aborted(Raised("division by zero"))
                     else Finished)
  {
    if interruptAt.Some? && interruptAt.value < tester.numInstances {
      tester.LaunchAll(interruptAt.value, creates, nows);
      assert tester.instances == Records(tester.availableOffers, 0, creates, nows, interruptAt.value);
      SaveOnInterrupt(tester, file);
      return Finished;
    }
    var r, _ := tester.Run(creates, nows, file);
    ghost var n := if tester.numInstances > 0 then tester.numInstances else 0;
    assert tester.instances == Records(tester.availableOffers, 0, creates, nows, n);
    outcome := if r.Ok? then Finished else Aborted(r.error);
  }
}
