/** RunPod GPU discovery and ranking, the pure part of
    `RunPodClient.get_available_gpus` and `RunPodClient.get_ranked_gpus` in
    runpod_client.py: which GPU types qualify, what they cost, and the order
    in which the workflow tries them. The client's loops (runpod_pods.dfy)
    are proved against the functions here. */
module RunPodGpus {
  import opened Support
  import opened Sorting

  /** Minimum VRAM, in GB, for a GPU type to qualify. */
  const MIN_VRAM_GB: real := 8.0
  /** Price used when neither price field is set (or both are zero). */
  const FALLBACK_PRICE: real := 999.0
  /** How many of the cheapest GPUs the preferred pass looks at. */
  const PREFERRED_WINDOW: int := 10

  /** GPU model names preferred over cheaper ones, in order of preference. */
  const PREFERRED_GPUS: seq<string> := [
    "NVIDIA RTX 3090",
    "NVIDIA RTX 4090",
    "NVIDIA RTX A4000",
    "NVIDIA RTX A5000",
    "NVIDIA A40",
    "NVIDIA RTX 3080",
    "NVIDIA RTX 4080"
  ]

  /** `lowestPrice(input: {gpuCount: 1})`; `None` fields are missing or null. */
  datatype LowestPrice = LowestPrice(minimumBidPrice: Option<real>, uninterruptablePrice: Option<real>)

  /** One entry of `gpuTypes`; `None` is a missing key (for `lowestPrice`
      also a null one). */
  datatype RawGpu = RawGpu(
    id: Option<string>,
    displayName: Option<string>,
    memoryInGb: Option<real>,
    lowestPrice: Option<LowestPrice>,
    secureCloud: Option<bool>,
    communityCloud: Option<bool>)

  /** A qualifying GPU type as the client hands it on. */
  datatype Gpu = Gpu(id: string, name: string, vramGb: real, pricePerHour: real,
                     secure: bool, community: bool)

  /** What the `GpuTypes` query produced: the request raised, or a body that
      may carry `errors` and may carry `data.gpuTypes`. */
  datatype GpuTypesResponse =
    | GpuTypesRaised(msg: string)
    | GpuTypesReply(errors: Option<string>, gpuTypes: Option<seq<RawGpu>>)

  function GpuPrice(g: Gpu): real {
    g.pricePerHour
  }

  predicate HasVram(raw: RawGpu) {
    raw.memoryInGb.GetOr(0.0) >= MIN_VRAM_GB
  }

  /** `minimumBidPrice or uninterruptablePrice or 999`: a missing or zero
      price falls through to the next. */
  function PriceOf(lp: Option<LowestPrice>): (p: real)
    ensures p == FALLBACK_PRICE || p != 0.0
    ensures lp.Some? && lp.value.minimumBidPrice.Some? && lp.value.minimumBidPrice.value != 0.0
            ==> p == lp.value.minimumBidPrice.value
    ensures lp.Some? && lp.value.minimumBidPrice.GetOr(0.0) == 0.0
            && lp.value.uninterruptablePrice.GetOr(0.0) != 0.0
            ==> p == lp.value.uninterruptablePrice.value
    ensures lp.Some? && lp.value.minimumBidPrice.GetOr(0.0) == 0.0
            && lp.value.uninterruptablePrice.GetOr(0.0) == 0.0
            ==> p == FALLBACK_PRICE
    ensures lp.None? ==> p == FALLBACK_PRICE
  {
    if lp.None? then FALLBACK_PRICE
    else if lp.value.minimumBidPrice.GetOr(0.0) != 0.0 then lp.value.minimumBidPrice.value
    else if lp.value.uninterruptablePrice.GetOr(0.0) != 0.0 then lp.value.uninterruptablePrice.value
    else FALLBACK_PRICE
  }

  function Normalize(raw: RawGpu): Gpu
    requires raw.id.Some?
  {
    Gpu(raw.id.value, raw.displayName.GetOr(raw.id.value), raw.memoryInGb.GetOr(0.0),
        PriceOf(raw.lowestPrice), raw.secureCloud.GetOr(false), raw.communityCloud.GetOr(false))
  }

  /** The filtering loop of `get_available_gpus` over `gpus[..n]`, in input
      order: GPU types with enough VRAM, normalised; a qualifying entry
      without `id` is a `KeyError`. */
  function Eligible(gpus: seq<RawGpu>): Result<seq<Gpu>, Fault>
    decreases |gpus|
  {
    if gpus == [] then Ok([])
    else
      var last := gpus[|gpus| - 1];
      match Eligible(gpus[..|gpus| - 1])
      case Err(f) => Err(f)
      case Ok(acc) =>
        if !HasVram(last) then Ok(acc)
        else if last.id.None? then Err(MissingKey("id"))
        else Ok(acc + [Normalize(last)])
  }

  /** `get_available_gpus`: errors in the reply raise; otherwise the
      qualifying GPU types, stable-sorted by price. */
  function AvailableGpus(resp: GpuTypesResponse): (r: Result<seq<Gpu>, Fault>)
    ensures resp.GpuTypesRaised? ==> r == Err(Raised(resp.msg))
    ensures resp.GpuTypesReply? && resp.errors.Some? ==> r == Err(Raised("GraphQL error: " + resp.errors.value))
    ensures resp.GpuTypesReply? && resp.errors.None? ==>
      var filtered := Eligible(resp.gpuTypes.GetOr([]));
      && (filtered.Err? ==> r == Err(filtered.error))
      && (filtered.Ok? ==> r.Ok? && SortedBy(r.value, GpuPrice) && multiset(r.value) == multiset(filtered.value))
  {
    match resp
    case GpuTypesRaised(msg) => Err(Raised(msg))
    case GpuTypesReply(errors, gpuTypes) =>
      if errors.Some? then Err(Raised("GraphQL error: " + errors.value))
      else match Eligible(gpuTypes.GetOr([]))
        case Err(f) => Err(f)
        case Ok(acc) =>
          SortByKeySorted(acc, GpuPrice);
          Ok(SortByKey(acc, GpuPrice))
  }

  /** Once the filter fails it stays failed on every longer input. */
  lemma {:induction false} EligibleErrPersists(gpus: seq<RawGpu>, n: nat)
    requires n <= |gpus|
    requires Eligible(gpus[..n]).Err?
    ensures Eligible(gpus) == Eligible(gpus[..n])
    decreases |gpus| - n
  {
    if n < |gpus| {
      assert gpus[..n + 1][..n] == gpus[..n];
      EligibleErrPersists(gpus, n + 1);
    } else {
      assert gpus[..n] == gpus;
    }
  }

  /** Every GPU the filter keeps has at least 8 GB and is the normalised
      form of a qualifying input entry with the same id and VRAM. */
  lemma {:induction false} EligibleSound(gpus: seq<RawGpu>)
    requires Eligible(gpus).Ok?
    ensures forall g :: g in Eligible(gpus).value ==>
      g.vramGb >= MIN_VRAM_GB &&
      exists raw :: raw in gpus && HasVram(raw) && raw.id == Some(g.id) && raw.memoryInGb == Some(g.vramGb)
                    && g == Normalize(raw)
    decreases |gpus|
  {
    if gpus != [] {
      var init := gpus[..|gpus| - 1];
      EligibleSound(init);
      forall g | g in Eligible(gpus).value
        ensures g.vramGb >= MIN_VRAM_GB &&
          exists raw :: raw in gpus && HasVram(raw) && raw.id == Some(g.id) && raw.memoryInGb == Some(g.vramGb)
                        && g == Normalize(raw)
      {
        if g in Eligible(init).value {
          var raw :| raw in init && HasVram(raw) && raw.id == Some(g.id) && raw.memoryInGb == Some(g.vramGb)
                     && g == Normalize(raw);
          assert raw in gpus;
        } else {
          assert gpus[|gpus| - 1] in gpus;
        }
      }
    }
  }

  /** Every qualifying input entry is kept, when the filter succeeds. */
  lemma {:induction false} EligibleComplete(gpus: seq<RawGpu>)
    requires Eligible(gpus).Ok?
    ensures forall raw :: raw in gpus && HasVram(raw) ==>
      raw.id.Some? && Normalize(raw) in Eligible(gpus).value
    decreases |gpus|
  {
    if gpus != [] {
      var init := gpus[..|gpus| - 1];
      assert Eligible(init).Ok?;
      EligibleComplete(init);
      assert gpus == init + [gpus[|gpus| - 1]];
    }
  }

  /** `get_available_gpus` returns qualifying GPUs only, all of them, cheapest
      first, equal prices in input order. */
  lemma AvailableGpusSpec(resp: GpuTypesResponse)
    ensures var r := AvailableGpus(resp);
      r.Ok? ==>
        var acc := Eligible(resp.gpuTypes.GetOr([])).value;
        && SortedBy(r.value, GpuPrice)
        && multiset(r.value) == multiset(acc)
        && (forall k :: WithKey(r.value, GpuPrice, k) == WithKey(acc, GpuPrice, k))
        && (forall g :: g in r.value ==> g.vramGb >= MIN_VRAM_GB)
        && (forall raw :: raw in resp.gpuTypes.GetOr([]) && HasVram(raw) ==>
              raw.id.Some? && Normalize(raw) in r.value)
    ensures resp.GpuTypesReply? && resp.errors.Some? ==>
      AvailableGpus(resp) == Err(Raised("GraphQL error: " + resp.errors.value))
  {
    if AvailableGpus(resp).Ok? {
      var raw := resp.gpuTypes.GetOr([]);
      var acc := Eligible(raw).value;
      SortByKeySorted(acc, GpuPrice);
      forall k ensures WithKey(SortByKey(acc, GpuPrice), GpuPrice, k) == WithKey(acc, GpuPrice, k) {
        SortByKeyStable(acc, GpuPrice, k);
      }
      EligibleSound(raw);
      EligibleComplete(raw);
      forall g | g in SortByKey(acc, GpuPrice) ensures g.vramGb >= MIN_VRAM_GB {
        assert g in multiset(acc);
      }
      forall r | r in raw && HasVram(r) ensures r.id.Some? && Normalize(r) in SortByKey(acc, GpuPrice) {
        assert Normalize(r) in multiset(acc);
      }
    }
  }

  // ---------------------------------------------------------------------
  // Ranking

  /** The state of the ranking loops: the list built so far and the ids used. */
  datatype Pass = Pass(ranked: seq<Gpu>, used: set<string>)

  function Ids(s: seq<Gpu>): set<string> {
    set i | 0 <= i < |s| :: s[i].id
  }

  /** The ranking state is consistent: no id twice, `used` the ids listed. */
  ghost predicate Consistent(p: Pass) {
    && (forall i, j :: 0 <= i < j < |p.ranked| ==> p.ranked[i].id != p.ranked[j].id)
    && p.used == Ids(p.ranked)
  }

  /** `preferred.lower() in gpu["name"].lower()` */
  predicate Matches(preferred: string, g: Gpu) {
    Contains(Lower(g.name), Lower(preferred))
  }

  /** Appends `g` unless its id is already used. */
  function Add(g: Gpu, p: Pass): Pass {
    if g.id !in p.used then Pass(p.ranked + [g], p.used + {g.id}) else p
  }

  /** One iteration of the preferred loop: the first GPU of `top` whose name
      matches and whose id is unused, if any. */
  function PickFor(preferred: string, top: seq<Gpu>, p: Pass): Pass {
    var k := FirstIndex(top, g => Matches(preferred, g) && g.id !in p.used);
    if k < |top| then Add(top[k], p) else p
  }

  /** The preferred loop over `prefs`, in order. */
  function PreferredPass(prefs: seq<string>, top: seq<Gpu>): Pass
    decreases |prefs|
  {
    if prefs == [] then Pass([], {})
    else PickFor(prefs[|prefs| - 1], top, PreferredPass(prefs[..|prefs| - 1], top))
  }

  /** The loop adding the remaining GPUs, in order, to `p`. */
  function FillPass(gpus: seq<Gpu>, p: Pass): Pass
    decreases |gpus|
  {
    if gpus == [] then p else Add(gpus[|gpus| - 1], FillPass(gpus[..|gpus| - 1], p))
  }

  /** The full ranking of a price-sorted list (before `[:max_results]`). */
  function Ranking(gpus: seq<Gpu>): seq<Gpu> {
    FillPass(gpus, PreferredPass(PREFERRED_GPUS, SliceTo(gpus, PREFERRED_WINDOW))).ranked
  }

  /** `get_ranked_gpus(max_results)` after `get_available_gpus` returned `gpus`. */
  function RankedGpus(gpus: seq<Gpu>, maxResults: int): (r: seq<Gpu>)
    ensures forall g :: g in r ==> g in gpus
    ensures forall i, j :: 0 <= i < j < |r| ==> r[i].id != r[j].id
    ensures 0 <= maxResults ==> |r| <= maxResults
    ensures maxResults > 0 ==> (r == [] <==> gpus == [])
    ensures gpus != [] ==> r <= Ranking(gpus)
  {
    if gpus == [] then []
    else
      RankingSpec(gpus);
      assert gpus[0].id in Ids(Ranking(gpus));
      SliceTo(Ranking(gpus), maxResults)
  }

  lemma AddConsistent(g: Gpu, p: Pass)
    requires Consistent(p)
    ensures Consistent(Add(g, p))
    ensures p.ranked <= Add(g, p).ranked
    ensures g.id in Add(g, p).used
    ensures forall x :: x in Add(g, p).ranked ==> x in p.ranked || x == g
  {
    if g.id !in p.used {
      var r := p.ranked + [g];
      assert Ids(r) == Ids(p.ranked) + {g.id} by {
        forall id | id in Ids(r) ensures id in Ids(p.ranked) + {g.id} {
          var i :| 0 <= i < |r| && r[i].id == id;
          if i < |p.ranked| { assert p.ranked[i].id == id; }
        }
        forall id | id in Ids(p.ranked) ensures id in Ids(r) {
          var i :| 0 <= i < |p.ranked| && p.ranked[i].id == id;
          assert r[i].id == id;
        }
        assert r[|r| - 1].id == g.id;
      }
      forall i, j | 0 <= i < j < |r| ensures r[i].id != r[j].id {
        if j == |r| - 1 {
          assert p.ranked[i].id in Ids(p.ranked);
        }
      }
    }
  }

  /** The preferred pass keeps the state consistent and takes only matching
      GPUs from `top`. */
  lemma {:induction false} PreferredPassSpec(prefs: seq<string>, top: seq<Gpu>)
    ensures Consistent(PreferredPass(prefs, top))
    ensures forall g :: g in PreferredPass(prefs, top).ranked ==>
      g in top && exists pr :: pr in prefs && Matches(pr, g)
    ensures |PreferredPass(prefs, top).ranked| <= |prefs|
    decreases |prefs|
  {
    if prefs != [] {
      var init := prefs[..|prefs| - 1];
      var pr := prefs[|prefs| - 1];
      var p := PreferredPass(init, top);
      PreferredPassSpec(init, top);
      var k := FirstIndex(top, g => Matches(pr, g) && g.id !in p.used);
      if k < |top| {
        AddConsistent(top[k], p);
        forall g | g in PreferredPass(prefs, top).ranked
          ensures g in top && exists q :: q in prefs && Matches(q, g)
        {
          if g in p.ranked {
            var q :| q in init && Matches(q, g);
            assert q in prefs;
          } else {
            assert g == top[k] && Matches(pr, g);
            assert pr in prefs;
          }
        }
      } else {
        forall g | g in p.ranked ensures exists q :: q in prefs && Matches(q, g) {
          var q :| q in init && Matches(q, g);
          assert q in prefs;
        }
      }
    }
  }

  /** Choosing for the `i`-th preferred name appends to the picks of the
      names before it the first GPU of `top` that matches the name and whose
      id is not yet picked, or nothing when there is none; the picks of every
      prefix of names lead the final picks, so they come in name order. */
  lemma {:induction false} PreferredPicks(prefs: seq<string>, top: seq<Gpu>, i: nat)
    requires i < |prefs|
    ensures var before := PreferredPass(prefs[..i], top);
      var k := FirstIndex(top, g => Matches(prefs[i], g) && g.id !in before.used);
      && before.used == Ids(before.ranked)
      && PreferredPass(prefs[..i + 1], top).ranked == before.ranked + (if k < |top| then [top[k]] else [])
      && PreferredPass(prefs[..i + 1], top).ranked <= PreferredPass(prefs, top).ranked
  {
    assert prefs[..i + 1][..i] == prefs[..i];
    PreferredPassSpec(prefs[..i], top);
    PreferredPassPrefix(prefs, top, i + 1);
  }

  /** The picks for a prefix of the names lead the picks for all of them. */
  lemma {:induction false} PreferredPassPrefix(prefs: seq<string>, top: seq<Gpu>, n: nat)
    requires n <= |prefs|
    ensures PreferredPass(prefs[..n], top).ranked <= PreferredPass(prefs, top).ranked
    decreases |prefs| - n
  {
    if n < |prefs| {
      PreferredPassPrefix(prefs, top, n + 1);
      assert prefs[..n + 1][..n] == prefs[..n];
    } else {
      assert prefs[..n] == prefs;
    }
  }

  /** The fill pass keeps the state consistent, extends what it was given,
      adds only GPUs of its input, and leaves no input id out. */
  lemma {:induction false} FillPassSpec(gpus: seq<Gpu>, p: Pass)
    requires Consistent(p)
    ensures Consistent(FillPass(gpus, p))
    ensures p.ranked <= FillPass(gpus, p).ranked
    ensures forall g :: g in FillPass(gpus, p).ranked ==> g in p.ranked || g in gpus
    ensures forall g :: g in gpus ==> g.id in FillPass(gpus, p).used
    ensures forall id :: id in p.used ==> id in FillPass(gpus, p).used
    decreases |gpus|
  {
    if gpus != [] {
      var init := gpus[..|gpus| - 1];
      var last := gpus[|gpus| - 1];
      FillPassSpec(init, p);
      var q := FillPass(init, p);
      AddConsistent(last, q);
      assert gpus == init + [last];
      forall g | g in Add(last, q).ranked ensures g in p.ranked || g in gpus {
        if g in q.ranked {
          assert g in p.ranked || g in init;
        }
      }
    }
  }

  /** The GPUs the fill pass appends come from its input in input order, so
      they are sorted by price when the input is. */
  lemma {:induction false} FillTail(gpus: seq<Gpu>, p: Pass)
    ensures var r := FillPass(gpus, p).ranked;
      && p.ranked <= r
      && (forall j :: |p.ranked| <= j < |r| ==> r[j] in gpus)
      && (forall a, b :: |p.ranked| <= a < b < |r| ==>
            exists i, j :: 0 <= i < j < |gpus| && gpus[i] == r[a] && gpus[j] == r[b])
      && (SortedBy(gpus, GpuPrice) ==> SortedBy(r[|p.ranked|..], GpuPrice))
    decreases |gpus|
  {
    if gpus != [] {
      var init := gpus[..|gpus| - 1];
      var last := gpus[|gpus| - 1];
      FillTail(init, p);
      var q := FillPass(init, p).ranked;
      var r := FillPass(gpus, p).ranked;
      forall j | |p.ranked| <= j < |q| ensures q[j] in gpus {
        assert q[j] in init;
      }
      forall a, b | |p.ranked| <= a < b < |r|
        ensures exists i, j :: 0 <= i < j < |gpus| && gpus[i] == r[a] && gpus[j] == r[b]
      {
        if b < |q| {
          var i, j :| 0 <= i < j < |init| && init[i] == q[a] && init[j] == q[b];
          assert gpus[i] == r[a] && gpus[j] == r[b];
        } else {
          assert r == q + [last];
          var i :| 0 <= i < |init| && init[i] == q[a];
          assert gpus[i] == r[a] && gpus[|gpus| - 1] == r[b];
        }
      }
      if SortedBy(gpus, GpuPrice) {
        assert SortedBy(init, GpuPrice);
        if r != q {
          assert r == q + [last];
          forall a, b | 0 <= a < b < |r| - |p.ranked|
            ensures GpuPrice(r[|p.ranked|..][a]) <= GpuPrice(r[|p.ranked|..][b])
          {
            if b == |r| - |p.ranked| - 1 {
              var m :| 0 <= m < |init| && init[m] == q[|p.ranked| + a];
              assert gpus[m] == init[m];
            } else {
              assert r[|p.ranked|..][a] == q[|p.ranked|..][a];
              assert r[|p.ranked|..][b] == q[|p.ranked|..][b];
            }
          }
        }
      }
    }
  }

  /** What the ranking is: no GPU type twice, only GPUs from the input, every
      input GPU type present, the preferred picks first, each one among the
      ten cheapest and matching a preferred model name, and after them the
      rest in price order when the input is sorted by price. */
  lemma RankingSpec(gpus: seq<Gpu>)
    ensures var r := Ranking(gpus);
      && (forall i, j :: 0 <= i < j < |r| ==> r[i].id != r[j].id)
      && (forall g :: g in r ==> g in gpus)
      && (forall g :: g in gpus ==> g.id in Ids(r))
      && var pref := PreferredPass(PREFERRED_GPUS, SliceTo(gpus, PREFERRED_WINDOW)).ranked;
         && pref <= r
         && |pref| <= |PREFERRED_GPUS|
         && (forall g :: g in pref ==>
               g in SliceTo(gpus, PREFERRED_WINDOW) && exists pr :: pr in PREFERRED_GPUS && Matches(pr, g))
         && (SortedBy(gpus, GpuPrice) ==> SortedBy(r[|pref|..], GpuPrice))
  {
    var top := SliceTo(gpus, PREFERRED_WINDOW);
    var p := PreferredPass(PREFERRED_GPUS, top);
    PreferredPassSpec(PREFERRED_GPUS, top);
    FillPassSpec(gpus, p);
    FillTail(gpus, p);
    forall g | g in p.ranked ensures g in gpus {
      assert g in top;
    }
  }
}
