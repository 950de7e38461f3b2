/** Vast.ai offer discovery and ranking (`VastAIClient.search_offers` and
    `VastAIClient.get_ranked_offers`). The HTTP query itself is an oracle:
    the decoded response body, or the fact that the request raised. */
module VastOffers {
  import opened Support
  import opened Sorting

  /** Minimum `reliability` an offer needs to be ranked. */
  const MIN_RELIABILITY: real := 0.9
  /** Price given to an offer whose `dph_total` is missing. */
  const DEFAULT_PRICE: real := 999.0

  /** One entry of the marketplace's `offers` array; `None` is a missing key. */
  datatype RawOffer = RawOffer(
    id: Option<int>,
    gpuName: Option<string>,
    gpuRam: Option<real>,        // MB
    numGpus: Option<int>,
    dphTotal: Option<real>,
    diskSpace: Option<real>,
    cudaMaxGood: Option<real>,
    reliability2: Option<real>,
    inetUp: Option<real>,
    inetDown: Option<real>)

  /** An offer as the client hands it on, every field defaulted. */
  datatype Offer = Offer(
    id: Option<int>,
    gpuName: string,
    gpuRamGb: real,
    numGpus: int,
    pricePerHour: real,
    diskSpace: real,
    cudaVersion: real,
    reliability: real,
    inetUp: real,
    inetDown: real)

  /** What `GET /bundles/` produced: it raised, or it answered a body whose
      `offers` key may be missing (`offers == None`; an empty body too). */
  datatype SearchResponse = SearchRaised | SearchReply(offers: Option<seq<RawOffer>>)

  function Price(o: Offer): real {
    o.pricePerHour
  }

  function NormalizeOffer(raw: RawOffer): Offer {
    Offer(raw.id,
          raw.gpuName.GetOr("Unknown"),
          raw.gpuRam.GetOr(0.0) / 1024.0,
          raw.numGpus.GetOr(1),
          raw.dphTotal.GetOr(DEFAULT_PRICE),
          raw.diskSpace.GetOr(0.0),
          raw.cudaMaxGood.GetOr(0.0),
          raw.reliability2.GetOr(0.0),
          raw.inetUp.GetOr(0.0),
          raw.inetDown.GetOr(0.0))
  }

  /** `search_offers`: [] when the request raised or the body has no offers;
      otherwise the first `maxResults` offers (Python slice), each with its
      defaults filled in. */
  function SearchOffers(resp: SearchResponse, maxResults: int): (r: seq<Offer>)
    ensures resp.SearchRaised? || resp.offers.None? ==> r == []
    ensures resp.SearchReply? && resp.offers.Some? ==>
      var raw := SliceTo(resp.offers.value, maxResults);
      && |r| == |raw|
      && forall i :: 0 <= i < |r| ==>
           && r[i].id == raw[i].id
           && r[i].pricePerHour == raw[i].dphTotal.GetOr(DEFAULT_PRICE)
           && r[i].reliability == raw[i].reliability2.GetOr(0.0)
           && r[i].gpuName == raw[i].gpuName.GetOr("Unknown")
           && r[i].gpuRamGb * 1024.0 == raw[i].gpuRam.GetOr(0.0)
  {
    match resp
    case SearchRaised => []
    case SearchReply(offers) =>
      if offers.None? then []
      else
        var raw := SliceTo(offers.value, maxResults);
        seq(|raw|, i requires 0 <= i < |raw| => NormalizeOffer(raw[i]))
  }

  /** The list comprehension keeping offers with reliability >= 0.9. */
  function Reliable(offers: seq<Offer>): (r: seq<Offer>)
    ensures forall o :: o in r <==> o in offers && o.reliability >= MIN_RELIABILITY
    ensures |r| <= |offers|
  {
    if offers == [] then []
    else (if offers[0].reliability >= MIN_RELIABILITY then [offers[0]] else [])
         + Reliable(offers[1..])
  }

  /** `get_ranked_offers(max_results)`: search twice as many offers, keep the
      reliable ones, stable-sort them by price and keep `maxResults`. Every
      ranked offer was returned by the search and is reliable; the ranking is
      in non-decreasing price order, holds at most `maxResults` offers, is as
      long as the Python slice `[:max_results]` of the reliable offers, and
      no reliable offer left out is cheaper than one kept. */
  function RankedOffers(resp: SearchResponse, maxResults: int): (r: seq<Offer>)
    ensures var offers := SearchOffers(resp, maxResults * 2);
            && (forall o :: o in r ==> o in offers && o.reliability >= MIN_RELIABILITY)
            && SortedBy(r, Price)
            && |r| == |SliceTo(Reliable(offers), maxResults)|
            && (0 <= maxResults ==> |r| <= maxResults)
            && multiset(r) <= multiset(Reliable(offers))
            && (forall x, o :: x in r && o in multiset(Reliable(offers)) - multiset(r) ==> Price(x) <= Price(o))
  {
    var offers := SearchOffers(resp, maxResults * 2);
    if offers == [] then []
    else
      RankingOf(offers, maxResults);
      SliceTo(SortByKey(Reliable(offers), Price), maxResults)
  }

  /** Reliable offers, by price, truncated: what the ranking does to the
      offers a search returned. */
  lemma {:induction false} RankingOf(offers: seq<Offer>, maxResults: int)
    ensures var r := SliceTo(SortByKey(Reliable(offers), Price), maxResults);
            && (forall o :: o in r ==> o in offers && o.reliability >= MIN_RELIABILITY)
            && SortedBy(r, Price)
            && |r| == |SliceTo(Reliable(offers), maxResults)|
            && (0 <= maxResults ==> |r| <= maxResults)
            && multiset(r) <= multiset(Reliable(offers))
            && (forall x, o :: x in r && o in multiset(Reliable(offers)) - multiset(r) ==> Price(x) <= Price(o))
  {
    var rel := Reliable(offers);
    var sorted := SortByKey(rel, Price);
    SortByKeySorted(rel, Price);
    var r := SliceTo(sorted, maxResults);
    SortedPrefix(r, sorted, Price);
    SortedPrefixCheapest(r, sorted, Price);
    PrefixMultiset(r, sorted);
    forall o | o in r
      ensures o in rel
    {
      assert o in multiset(rel);
    }
  }

  lemma PrefixMultiset<T>(p: seq<T>, s: seq<T>)
    requires p <= s
    ensures multiset(p) <= multiset(s)
  {
    assert s == p + s[|p|..];
  }

  /** Offers of equal price appear in the ranking in the order the search
      returned them (the sort is stable and truncation keeps a prefix). */
  lemma RankedOffersStable(resp: SearchResponse, maxResults: int, price: real)
    ensures var offers := SearchOffers(resp, maxResults * 2);
            WithKey(RankedOffers(resp, maxResults), Price, price)
              <= WithKey(Reliable(offers), Price, price)
  {
    var offers := SearchOffers(resp, maxResults * 2);
    if offers != [] {
      var sorted := SortByKey(Reliable(offers), Price);
      SortByKeyStable(Reliable(offers), Price, price);
      WithKeyPrefix(SliceTo(sorted, maxResults), sorted, Price, price);
    }
  }
}
