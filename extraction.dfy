/** The rate-extraction algorithm shared by the three in-network parsers
    (src/parser.py, scripts/optimized_ingest.py, scripts/ingest_bcbs_local.py):
    keep the items whose billing code is a target code, resolve each
    negotiated-rate group's provider references, and emit one record per
    priced entry and provider, price by price and provider by provider.

    `Extract` is the specification. The parsers differ only in how a group's
    references become providers, which `Resolver` captures: through the
    `provider_map` with an optional NPI filter, or through the BCBS encoded
    group ids, which give a set of NPIs without TINs. */
module Extraction {
  import opened Wrappers
  import opened Mrf
  import Dates
  import Storage
  import Seqs

  type RateRecord = Storage.RateRecord

  /** What every record of one file shares. */
  datatype Context = Context(payerName: string, lastUpdated: Option<Dates.Date>, fileSource: string)

  /** One entry of a provider list: `{"npi": str(npi), "tin": tin_value}`. */
  datatype Provider = Provider(npi: string, tin: Option<string>)

  // ---------------------------------------------------------------------
  // The provider map

  /** The providers of one NPI list, all with the group's TIN. */
  function NpiProviders(npis: seq<NpiValue>, tin: Option<string>): (r: seq<Provider>)
    ensures |r| == |npis|
  {
    seq(|npis|, i requires 0 <= i < |npis| => Provider(NpiString(npis[i]), tin))
  }

  /** The providers of a reference entry: group by group, NPI by NPI. */
  function GroupProviders(groups: seq<ProviderGroup>): seq<Provider> {
    if groups == [] then []
    else
      var g := groups[|groups| - 1];
      GroupProviders(groups[..|groups| - 1]) + NpiProviders(g.Npis(), g.TinValue())
  }

  /** `provider_map`: each present `provider_group_id` to its providers. */
  function ProviderMapOf(refs: seq<ProviderReference>): map<real, seq<Provider>> {
    if refs == [] then map[]
    else
      var m, r := ProviderMapOf(refs[..|refs| - 1]), refs[|refs| - 1];
      if r.providerGroupId.Some? then m[r.providerGroupId.value := GroupProviders(r.Groups())] else m
  }

  /** Every provider of a reference entry carries the stringified NPI and the
      TIN of one of its groups; a TIN is present only when that group's `tin`
      is an object holding a `value`. */
  lemma {:induction false} GroupProvidersOrigin(groups: seq<ProviderGroup>)
    ensures forall p :: p in GroupProviders(groups) ==>
      exists g :: g in groups && p.tin == g.TinValue() &&
        (exists n :: n in g.Npis() && p.npi == NpiString(n))
    ensures forall p :: p in GroupProviders(groups) && p.tin.Some? ==>
      exists g :: g in groups && g.tin == Some(TinObject(p.tin))
  {
    if groups != [] {
      var init, g := groups[..|groups| - 1], groups[|groups| - 1];
      GroupProvidersOrigin(init);
      var ps := NpiProviders(g.Npis(), g.TinValue());
      forall p | p in ps
        ensures p.tin == g.TinValue() && exists n :: n in g.Npis() && p.npi == NpiString(n)
      {
        var i :| 0 <= i < |ps| && ps[i] == p;
        assert g.Npis()[i] in g.Npis();
      }
      assert forall x :: x in init ==> x in groups;
      assert g in groups;
    }
  }

  /** Entry `i` has an id and no later entry has the same one. */
  ghost predicate LastWithId(refs: seq<ProviderReference>, i: int) {
    0 <= i < |refs| && refs[i].providerGroupId.Some? &&
    forall j :: i < j < |refs| ==> refs[j].providerGroupId != refs[i].providerGroupId
  }

  /** The map's keys are exactly the ids present, and each id maps to the
      providers of its last entry: a later duplicate id overwrites. */
  lemma {:induction false} ProviderMapSpec(refs: seq<ProviderReference>)
    ensures forall k :: k in ProviderMapOf(refs) <==>
      exists i :: 0 <= i < |refs| && refs[i].providerGroupId == Some(k)
    ensures forall i :: LastWithId(refs, i) ==>
      refs[i].providerGroupId.value in ProviderMapOf(refs) &&
      ProviderMapOf(refs)[refs[i].providerGroupId.value] == GroupProviders(refs[i].Groups())
  {
    ProviderMapKeys(refs);
    forall i | LastWithId(refs, i)
      ensures refs[i].providerGroupId.value in ProviderMapOf(refs) &&
        ProviderMapOf(refs)[refs[i].providerGroupId.value] == GroupProviders(refs[i].Groups())
    {
      ProviderMapLast(refs, i);
    }
  }

  lemma {:induction false} ProviderMapKeys(refs: seq<ProviderReference>)
    ensures forall k :: k in ProviderMapOf(refs) <==>
      exists i :: 0 <= i < |refs| && refs[i].providerGroupId == Some(k)
  {
    if refs != [] {
      var init, r := refs[..|refs| - 1], refs[|refs| - 1];
      ProviderMapKeys(init);
      forall k ensures k in ProviderMapOf(refs) <==> exists i :: 0 <= i < |refs| && refs[i].providerGroupId == Some(k) {
        if exists i :: 0 <= i < |refs| && refs[i].providerGroupId == Some(k) {
          var i :| 0 <= i < |refs| && refs[i].providerGroupId == Some(k);
          if i < |init| {
            assert init[i] == refs[i];
          }
        }
        if k in ProviderMapOf(refs) && r.providerGroupId != Some(k) {
          var i :| 0 <= i < |init| && init[i].providerGroupId == Some(k);
          assert refs[i] == init[i];
        }
      }
    }
  }

  lemma {:induction false} ProviderMapLast(refs: seq<ProviderReference>, i: int)
    requires LastWithId(refs, i)
    ensures refs[i].providerGroupId.value in ProviderMapOf(refs)
    ensures ProviderMapOf(refs)[refs[i].providerGroupId.value] == GroupProviders(refs[i].Groups())
  {
    var init, r := refs[..|refs| - 1], refs[|refs| - 1];
    if i < |refs| - 1 {
      assert init[i] == refs[i];
      assert LastWithId(init, i) by {
        forall j | i < j < |init| ensures init[j].providerGroupId != init[i].providerGroupId {
          assert init[j] == refs[j];
        }
      }
      ProviderMapLast(init, i);
      assert r.providerGroupId != refs[i].providerGroupId;
    }
  }

  // ---------------------------------------------------------------------
  // Resolving a group's references

  /** `provider_list`: the providers of every reference found in the map,
      one reference after another. */
  function ResolveRefs(pmap: map<real, seq<Provider>>, refs: seq<real>): seq<Provider> {
    if refs == [] then []
    else
      var r := refs[|refs| - 1];
      ResolveRefs(pmap, refs[..|refs| - 1]) + (if r in pmap then pmap[r] else [])
  }

  /** The providers that pass `target_npis` (all of them when it is `None`). */
  function FilterNpis(ps: seq<Provider>, filter: Option<set<string>>): seq<Provider> {
    if ps == [] then []
    else
      var p := ps[|ps| - 1];
      FilterNpis(ps[..|ps| - 1], filter) + (if filter.Some? && p.npi !in filter.value then [] else [p])
  }

  /** `matched_npis`: the NPIs of every known group that a reference decodes to. */
  function MatchedNpis(floatToGroup: map<real, int>, groupToNpis: map<int, set<string>>, refs: seq<real>): set<string> {
    if refs == [] then {}
    else
      var r := refs[|refs| - 1];
      MatchedNpis(floatToGroup, groupToNpis, refs[..|refs| - 1]) +
        (if r in floatToGroup && floatToGroup[r] in groupToNpis then groupToNpis[floatToGroup[r]] else {})
  }

  /** Some listing of a set: the order in which Python iterates a set is not
      specified, so the results that depend on it are stated up to order. */
  ghost function Enumerate(s: set<string>): (r: seq<string>)
    ensures multiset(r) == multiset(s)
    ensures |r| == |s|
  {
    if s == {} then []
    else
      var x :| x in s;
      var r := Enumerate(s - {x}) + [x];
      assert multiset(s) == multiset(s - {x}) + multiset{x};
      r
  }

  /** BCBS records: the matched NPIs, never a TIN. */
  function ToProviders(npis: seq<string>): (r: seq<Provider>)
    ensures |r| == |npis|
  {
    Seqs.Map(npis, (n: string) => Provider(n, None))
  }

  /** How a group's references become providers. */
  datatype Resolver =
    | Direct(providerMap: map<real, seq<Provider>>, npiFilter: Option<set<string>>)
    | Encoded(floatToGroup: map<real, int>, groupToNpis: map<int, set<string>>)

  ghost function Providers(res: Resolver, refs: seq<real>): seq<Provider> {
    match res
    case Direct(pmap, filter) => FilterNpis(ResolveRefs(pmap, refs), filter)
    case Encoded(f2g, g2n) => ToProviders(Enumerate(MatchedNpis(f2g, g2n, refs)))
  }

  // ---------------------------------------------------------------------
  // Records

  function MakeRecord(ctx: Context, code: string, codeType: string, price: NegotiatedPrice, p: Provider): RateRecord
    requires price.negotiatedRate.Some?
  {
    Storage.RateRecord(ctx.payerName, ctx.lastUpdated, code, codeType, price.negotiatedRate.value,
                       price.Type(), price.Class(), price.PlaceOfService(), p.npi, p.tin,
                       None, None, None, None, Some(ctx.fileSource))
  }

  /** The records of one price: none for a null rate, else one per provider. */
  function PriceRecords(ctx: Context, code: string, codeType: string, price: NegotiatedPrice, ps: seq<Provider>): seq<RateRecord> {
    if price.negotiatedRate.None? then []
    else Seqs.Map(ps, (p: Provider) => MakeRecord(ctx, code, codeType, price, p))
  }

  function PriceFn(ctx: Context, code: string, codeType: string, ps: seq<Provider>): NegotiatedPrice -> seq<RateRecord> {
    price => PriceRecords(ctx, code, codeType, price, ps)
  }

  /** The records of the prices of one group, price by price. */
  function PricesRecords(ctx: Context, code: string, codeType: string, prices: seq<NegotiatedPrice>, ps: seq<Provider>): seq<RateRecord> {
    Seqs.FlatMap(prices, PriceFn(ctx, code, codeType, ps))
  }

  ghost function GroupRecords(ctx: Context, code: string, codeType: string, rate: NegotiatedRate, res: Resolver): seq<RateRecord> {
    PricesRecords(ctx, code, codeType, rate.Prices(), Providers(res, rate.Refs()))
  }

  ghost function GroupFn(ctx: Context, code: string, codeType: string, res: Resolver): NegotiatedRate -> seq<RateRecord> {
    rate => GroupRecords(ctx, code, codeType, rate, res)
  }

  ghost function GroupsRecords(ctx: Context, code: string, codeType: string, rates: seq<NegotiatedRate>, res: Resolver): seq<RateRecord> {
    Seqs.FlatMap(rates, GroupFn(ctx, code, codeType, res))
  }

  ghost function ItemRecords(ctx: Context, cpts: set<string>, item: InNetworkItem, res: Resolver): seq<RateRecord> {
    if item.Code() in cpts then GroupsRecords(ctx, item.Code(), item.CodeType(), item.Rates(), res) else []
  }

  ghost function ItemFn(ctx: Context, cpts: set<string>, res: Resolver): InNetworkItem -> seq<RateRecord> {
    item => ItemRecords(ctx, cpts, item, res)
  }

  /** The records a parser yields for the items of a file, in order. */
  ghost function Extract(ctx: Context, cpts: set<string>, items: seq<InNetworkItem>, res: Resolver): seq<RateRecord> {
    Seqs.FlatMap(items, ItemFn(ctx, cpts, res))
  }

  /** The prices with a rate, in order. */
  function RatedPrices(prices: seq<NegotiatedPrice>): (r: seq<NegotiatedPrice>)
    ensures forall i :: 0 <= i < |r| ==> r[i].negotiatedRate.Some?
  {
    if prices == [] then []
    else
      var p := prices[|prices| - 1];
      var init := prices[..|prices| - 1];
      assert prices == init + [p];
      RatedPrices(init) + (if p.negotiatedRate.Some? then [p] else [])
  }

  // ---------------------------------------------------------------------
  // Properties of the specification

  lemma ExtractAppend(ctx: Context, cpts: set<string>, a: seq<InNetworkItem>, b: seq<InNetworkItem>, res: Resolver)
    ensures Extract(ctx, cpts, a + b, res) == Extract(ctx, cpts, a, res) + Extract(ctx, cpts, b, res)
  {
    Seqs.FlatMapAppend(a, b, ItemFn(ctx, cpts, res));
  }

  /** An item whose billing code is not a target code contributes nothing:
      removing it leaves the records unchanged. */
  lemma NonTargetItemIgnored(ctx: Context, cpts: set<string>, a: seq<InNetworkItem>, item: InNetworkItem,
                             b: seq<InNetworkItem>, res: Resolver)
    requires item.Code() !in cpts
    ensures Extract(ctx, cpts, a + [item] + b, res) == Extract(ctx, cpts, a + b, res)
  {
    ExtractAppend(ctx, cpts, a + [item], b, res);
    ExtractAppend(ctx, cpts, a, b, res);
    assert Extract(ctx, cpts, a + [item], res) == Extract(ctx, cpts, a, res) + [] by {
      assert (a + [item])[..|a|] == a;
    }
  }

  lemma PricesRecordsAppend(ctx: Context, code: string, codeType: string,
                            a: seq<NegotiatedPrice>, b: seq<NegotiatedPrice>, ps: seq<Provider>)
    ensures PricesRecords(ctx, code, codeType, a + b, ps) ==
      PricesRecords(ctx, code, codeType, a, ps) + PricesRecords(ctx, code, codeType, b, ps)
  {
    Seqs.FlatMapAppend(a, b, PriceFn(ctx, code, codeType, ps));
  }

  /** A price with a null rate is skipped and the others are still emitted. */
  lemma NullPriceSkipped(ctx: Context, code: string, codeType: string, a: seq<NegotiatedPrice>,
                         price: NegotiatedPrice, b: seq<NegotiatedPrice>, ps: seq<Provider>)
    requires price.negotiatedRate.None?
    ensures PricesRecords(ctx, code, codeType, a + [price] + b, ps) ==
      PricesRecords(ctx, code, codeType, a, ps) + PricesRecords(ctx, code, codeType, b, ps)
  {
    PricesRecordsAppend(ctx, code, codeType, a + [price], b, ps);
    assert PricesRecords(ctx, code, codeType, a + [price], ps) == PricesRecords(ctx, code, codeType, a, ps) by {
      assert (a + [price])[..|a|] == a;
    }
  }

  /** A group with P priced entries and G providers yields P * G records. */
  lemma {:induction false} GroupCount(ctx: Context, code: string, codeType: string, prices: seq<NegotiatedPrice>, ps: seq<Provider>)
    ensures |PricesRecords(ctx, code, codeType, prices, ps)| == |RatedPrices(prices)| * |ps|
  {
    if prices != [] {
      var init, p := prices[..|prices| - 1], prices[|prices| - 1];
      GroupCount(ctx, code, codeType, init, ps);
      var n, g := |RatedPrices(init)|, |ps|;
      if p.negotiatedRate.Some? {
        assert |RatedPrices(prices)| == n + 1;
        assert (n + 1) * g == n * g + g;
      } else {
        assert |RatedPrices(prices)| == n;
      }
    }
  }

  /** The records of a group come price-major, provider-minor: record
      `i * G + j` is the `i`-th priced entry with the `j`-th provider. */
  lemma {:induction false} GroupLayout(ctx: Context, code: string, codeType: string, prices: seq<NegotiatedPrice>,
                                       ps: seq<Provider>, i: nat, j: nat)
    requires i < |RatedPrices(prices)| && j < |ps|
    ensures i * |ps| + j < |PricesRecords(ctx, code, codeType, prices, ps)|
    ensures RatedPrices(prices)[i].negotiatedRate.Some?
    ensures PricesRecords(ctx, code, codeType, prices, ps)[i * |ps| + j] ==
      MakeRecord(ctx, code, codeType, RatedPrices(prices)[i], ps[j])
  {
    var init, p := prices[..|prices| - 1], prices[|prices| - 1];
    var g := |ps|;
    var n := |RatedPrices(init)|;
    GroupCount(ctx, code, codeType, init, ps);
    GroupCount(ctx, code, codeType, prices, ps);
    var before := PricesRecords(ctx, code, codeType, init, ps);
    assert |before| == n * g;
    if i < n {
      GroupLayout(ctx, code, codeType, init, ps, i, j);
      assert RatedPrices(prices)[i] == RatedPrices(init)[i];
    } else {
      assert i == n && p.negotiatedRate.Some?;
      assert RatedPrices(prices)[i] == p;
      assert i * g + j == |before| + j;
    }
  }

  lemma {:induction false} PricesRecordsNoProviders(ctx: Context, code: string, codeType: string, prices: seq<NegotiatedPrice>)
    ensures PricesRecords(ctx, code, codeType, prices, []) == []
  {
    if prices != [] {
      PricesRecordsNoProviders(ctx, code, codeType, prices[..|prices| - 1]);
    }
  }

  lemma {:induction false} ResolveRefsAppend(pmap: map<real, seq<Provider>>, a: seq<real>, b: seq<real>)
    ensures ResolveRefs(pmap, a + b) == ResolveRefs(pmap, a) + ResolveRefs(pmap, b)
    decreases |b|
  {
    if b == [] {
      assert a + b == a;
    } else {
      assert (a + b)[..|a + b| - 1] == a + b[..|b| - 1];
      ResolveRefsAppend(pmap, a, b[..|b| - 1]);
    }
  }

  lemma {:induction false} ResolveRefsUnknown(pmap: map<real, seq<Provider>>, refs: seq<real>)
    requires forall k :: 0 <= k < |refs| ==> refs[k] !in pmap
    ensures ResolveRefs(pmap, refs) == []
  {
    if refs != [] {
      ResolveRefsUnknown(pmap, refs[..|refs| - 1]);
    }
  }

  lemma {:induction false} FilterNone(ps: seq<Provider>)
    ensures FilterNpis(ps, None) == ps
  {
    if ps != [] {
      FilterNone(ps[..|ps| - 1]);
    }
  }

  /** With the map resolver, a group none of whose references is a known id
      yields nothing. Without an NPI filter a group yields its P priced
      entries times every resolved provider, and a provider reached through
      two references is emitted twice. */
  lemma DirectGroups(ctx: Context, code: string, codeType: string, rate: NegotiatedRate,
                     pmap: map<real, seq<Provider>>, filter: Option<set<string>>)
    ensures (forall k :: 0 <= k < |rate.Refs()| ==> rate.Refs()[k] !in pmap) ==>
      GroupRecords(ctx, code, codeType, rate, Direct(pmap, filter)) == []
    ensures filter.None? ==>
      Providers(Direct(pmap, filter), rate.Refs()) == ResolveRefs(pmap, rate.Refs()) &&
      |GroupRecords(ctx, code, codeType, rate, Direct(pmap, filter))| ==
        |RatedPrices(rate.Prices())| * |ResolveRefs(pmap, rate.Refs())|
  {
    if forall k :: 0 <= k < |rate.Refs()| ==> rate.Refs()[k] !in pmap {
      ResolveRefsUnknown(pmap, rate.Refs());
      PricesRecordsNoProviders(ctx, code, codeType, rate.Prices());
    }
    if filter.None? {
      FilterNone(ResolveRefs(pmap, rate.Refs()));
      GroupCount(ctx, code, codeType, rate.Prices(), ResolveRefs(pmap, rate.Refs()));
    }
  }

  /** `matched_npis` holds exactly the NPIs of the known groups that some
      reference decodes to. */
  lemma {:induction false} MatchedNpisSpec(floatToGroup: map<real, int>, groupToNpis: map<int, set<string>>, refs: seq<real>)
    ensures forall n :: n in MatchedNpis(floatToGroup, groupToNpis, refs) <==>
      exists k :: 0 <= k < |refs| && refs[k] in floatToGroup && floatToGroup[refs[k]] in groupToNpis &&
        n in groupToNpis[floatToGroup[refs[k]]]
  {
    if refs != [] {
      var init := refs[..|refs| - 1];
      MatchedNpisSpec(floatToGroup, groupToNpis, init);
      assert forall k :: 0 <= k < |init| ==> init[k] == refs[k];
    }
  }

  /** With the encoded resolver a group yields P priced entries times the
      number of distinct matched NPIs, and nothing when no NPI matched. */
  lemma EncodedGroups(ctx: Context, code: string, codeType: string, rate: NegotiatedRate,
                      floatToGroup: map<real, int>, groupToNpis: map<int, set<string>>)
    ensures |GroupRecords(ctx, code, codeType, rate, Encoded(floatToGroup, groupToNpis))| ==
      |RatedPrices(rate.Prices())| * |MatchedNpis(floatToGroup, groupToNpis, rate.Refs())|
    ensures MatchedNpis(floatToGroup, groupToNpis, rate.Refs()) == {} ==>
      GroupRecords(ctx, code, codeType, rate, Encoded(floatToGroup, groupToNpis)) == []
  {
    var ps := Providers(Encoded(floatToGroup, groupToNpis), rate.Refs());
    GroupCount(ctx, code, codeType, rate.Prices(), ps);
  }

  // ---------------------------------------------------------------------
  // What every record satisfies

  /** Every NPI some group of the BCBS mapping holds. */
  ghost function KnownNpis(groupToNpis: map<int, set<string>>): set<string> {
    set g, n | g in groupToNpis && n in groupToNpis[g] :: n
  }

  ghost predicate ProviderAllowed(res: Resolver, p: Provider) {
    (res.Direct? && res.npiFilter.Some? ==> p.npi in res.npiFilter.value) &&
    (res.Encoded? ==> p.tin.None? && p.npi in KnownNpis(res.groupToNpis))
  }

  /** A record took its payer, date and source from the file, its code from
      the target set, and its provider from the resolver. */
  ghost predicate Conforms(ctx: Context, cpts: set<string>, res: Resolver, r: RateRecord) {
    r.payerName == ctx.payerName && r.lastUpdated == ctx.lastUpdated &&
    r.fileSource == Some(ctx.fileSource) && r.billingCode in cpts &&
    ProviderAllowed(res, Provider(r.npi, r.tin))
  }

  lemma {:induction false} FilterAllowed(ps: seq<Provider>, pmap: map<real, seq<Provider>>, filter: Option<set<string>>)
    ensures forall p :: p in FilterNpis(ps, filter) ==> ProviderAllowed(Direct(pmap, filter), p)
  {
    if ps != [] {
      FilterAllowed(ps[..|ps| - 1], pmap, filter);
    }
  }

  lemma {:induction false} MatchedKnown(floatToGroup: map<real, int>, groupToNpis: map<int, set<string>>, refs: seq<real>)
    ensures MatchedNpis(floatToGroup, groupToNpis, refs) <= KnownNpis(groupToNpis)
  {
    if refs != [] {
      MatchedKnown(floatToGroup, groupToNpis, refs[..|refs| - 1]);
      var r := refs[|refs| - 1];
      if r in floatToGroup && floatToGroup[r] in groupToNpis {
        var g := floatToGroup[r];
        forall n | n in groupToNpis[g] ensures n in KnownNpis(groupToNpis) {
          assert g in groupToNpis && n in groupToNpis[g];
        }
      }
    }
  }

  lemma ProvidersAllowed(res: Resolver, refs: seq<real>)
    ensures forall p :: p in Providers(res, refs) ==> ProviderAllowed(res, p)
  {
    match res
    case Direct(pmap, filter) =>
      FilterAllowed(ResolveRefs(pmap, refs), pmap, filter);
    case Encoded(f2g, g2n) =>
      MatchedKnown(f2g, g2n, refs);
      var names := Enumerate(MatchedNpis(f2g, g2n, refs));
      forall p | p in ToProviders(names) ensures ProviderAllowed(res, p) {
        var i :| 0 <= i < |names| && ToProviders(names)[i] == p;
        assert names[i] in multiset(names);
      }
  }

  lemma {:induction false} PricesConform(ctx: Context, cpts: set<string>, res: Resolver, code: string, codeType: string,
                                         prices: seq<NegotiatedPrice>, ps: seq<Provider>)
    requires code in cpts
    requires forall p :: p in ps ==> ProviderAllowed(res, p)
    ensures forall r :: r in PricesRecords(ctx, code, codeType, prices, ps) ==> Conforms(ctx, cpts, res, r)
  {
    if prices != [] {
      PricesConform(ctx, cpts, res, code, codeType, prices[..|prices| - 1], ps);
      var last := PriceRecords(ctx, code, codeType, prices[|prices| - 1], ps);
      forall r | r in last ensures Conforms(ctx, cpts, res, r) {
        var j :| 0 <= j < |last| && last[j] == r;
        assert ps[j] in ps;
      }
    }
  }

  lemma {:induction false} GroupsConform(ctx: Context, cpts: set<string>, res: Resolver, code: string, codeType: string,
                                         rates: seq<NegotiatedRate>)
    requires code in cpts
    ensures forall r :: r in GroupsRecords(ctx, code, codeType, rates, res) ==> Conforms(ctx, cpts, res, r)
  {
    if rates != [] {
      GroupsConform(ctx, cpts, res, code, codeType, rates[..|rates| - 1]);
      var rate := rates[|rates| - 1];
      ProvidersAllowed(res, rate.Refs());
      PricesConform(ctx, cpts, res, code, codeType, rate.Prices(), Providers(res, rate.Refs()));
    }
  }

  /** Every extracted record has the file's payer, date and source, a target
      billing code, an NPI the filter admits, and for BCBS no TIN and an NPI
      of the mapping. */
  lemma {:induction false} ExtractConforms(ctx: Context, cpts: set<string>, items: seq<InNetworkItem>, res: Resolver)
    ensures forall r :: r in Extract(ctx, cpts, items, res) ==> Conforms(ctx, cpts, res, r)
  {
    if items != [] {
      ExtractConforms(ctx, cpts, items[..|items| - 1], res);
      var item := items[|items| - 1];
      if item.Code() in cpts {
        GroupsConform(ctx, cpts, res, item.Code(), item.CodeType(), item.Rates());
      }
    }
  }

  /** An explicit empty NPI filter lets no record through. */
  lemma EmptyFilterEmitsNothing(ctx: Context, cpts: set<string>, items: seq<InNetworkItem>, pmap: map<real, seq<Provider>>)
    ensures Extract(ctx, cpts, items, Direct(pmap, Some({}))) == []
  {
    var rs := Extract(ctx, cpts, items, Direct(pmap, Some({})));
    ExtractConforms(ctx, cpts, items, Direct(pmap, Some({})));
    Seqs.HeadIn(rs);
  }

  // ---------------------------------------------------------------------
  // Widening the NPI filter

  /** `g` admits every NPI `f` admits: no filter at all, or a superset. */
  predicate Wider(f: Option<set<string>>, g: Option<set<string>>) {
    g.None? || (f.Some? && f.value <= g.value)
  }

  lemma {:induction false} FilterMono(ps: seq<Provider>, f: Option<set<string>>, g: Option<set<string>>)
    requires Wider(f, g)
    ensures forall p :: p in FilterNpis(ps, f) ==> p in FilterNpis(ps, g)
  {
    if ps != [] {
      FilterMono(ps[..|ps| - 1], f, g);
    }
  }

  lemma PriceRecordsMono(ctx: Context, code: string, codeType: string, price: NegotiatedPrice,
                         ps: seq<Provider>, qs: seq<Provider>)
    requires forall p :: p in ps ==> p in qs
    ensures forall r :: r in PriceRecords(ctx, code, codeType, price, ps) ==> r in PriceRecords(ctx, code, codeType, price, qs)
  {
    var a, b := PriceRecords(ctx, code, codeType, price, ps), PriceRecords(ctx, code, codeType, price, qs);
    forall r | r in a ensures r in b {
      var j :| 0 <= j < |a| && a[j] == r;
      assert ps[j] in ps;
      var k :| 0 <= k < |qs| && qs[k] == ps[j];
      assert b[k] == r;
    }
  }

  lemma PricesRecordsMono(ctx: Context, code: string, codeType: string, prices: seq<NegotiatedPrice>,
                          ps: seq<Provider>, qs: seq<Provider>)
    requires forall p :: p in ps ==> p in qs
    ensures forall r :: r in PricesRecords(ctx, code, codeType, prices, ps) ==> r in PricesRecords(ctx, code, codeType, prices, qs)
  {
    var f, g := PriceFn(ctx, code, codeType, ps), PriceFn(ctx, code, codeType, qs);
    forall i, r | 0 <= i < |prices| && r in f(prices[i]) ensures r in g(prices[i]) {
      PriceRecordsMono(ctx, code, codeType, prices[i], ps, qs);
    }
    Seqs.FlatMapMono(prices, f, g);
  }

  lemma GroupsRecordsMono(ctx: Context, code: string, codeType: string, rates: seq<NegotiatedRate>,
                          pmap: map<real, seq<Provider>>, f: Option<set<string>>, g: Option<set<string>>)
    requires Wider(f, g)
    ensures forall r :: r in GroupsRecords(ctx, code, codeType, rates, Direct(pmap, f)) ==>
      r in GroupsRecords(ctx, code, codeType, rates, Direct(pmap, g))
  {
    var gf, gg := GroupFn(ctx, code, codeType, Direct(pmap, f)), GroupFn(ctx, code, codeType, Direct(pmap, g));
    forall i, r | 0 <= i < |rates| && r in gf(rates[i]) ensures r in gg(rates[i]) {
      var ps := ResolveRefs(pmap, rates[i].Refs());
      FilterMono(ps, f, g);
      PricesRecordsMono(ctx, code, codeType, rates[i].Prices(), FilterNpis(ps, f), FilterNpis(ps, g));
    }
    Seqs.FlatMapMono(rates, gf, gg);
  }

  /** Extracting under a filter that admits more NPIs loses no record: each
      record emitted under `f` is emitted under `g` too. */
  lemma ExtractWidens(ctx: Context, cpts: set<string>, items: seq<InNetworkItem>, pmap: map<real, seq<Provider>>,
                      f: Option<set<string>>, g: Option<set<string>>)
    requires Wider(f, g)
    ensures forall r :: r in Extract(ctx, cpts, items, Direct(pmap, f)) ==> r in Extract(ctx, cpts, items, Direct(pmap, g))
  {
    var xf, xg := ItemFn(ctx, cpts, Direct(pmap, f)), ItemFn(ctx, cpts, Direct(pmap, g));
    forall i, r | 0 <= i < |items| && r in xf(items[i]) ensures r in xg(items[i]) {
      GroupsRecordsMono(ctx, items[i].Code(), items[i].CodeType(), items[i].Rates(), pmap, f, g);
    }
    Seqs.FlatMapMono(items, xf, xg);
  }

  /** A superset of target NPIs keeps every record a subset lets through. */
  lemma FilterSuperset(ctx: Context, cpts: set<string>, items: seq<InNetworkItem>, pmap: map<real, seq<Provider>>,
                       f: set<string>, g: set<string>)
    requires f <= g
    ensures forall r :: r in Extract(ctx, cpts, items, Direct(pmap, Some(f))) ==> r in Extract(ctx, cpts, items, Direct(pmap, Some(g)))
  {
    ExtractWidens(ctx, cpts, items, pmap, Some(f), Some(g));
  }

  /** Dropping the filter (`target_npis is None`) keeps every filtered record. */
  lemma FilterAgainstNone(ctx: Context, cpts: set<string>, items: seq<InNetworkItem>, pmap: map<real, seq<Provider>>,
                          f: set<string>)
    ensures forall r :: r in Extract(ctx, cpts, items, Direct(pmap, Some(f))) ==> r in Extract(ctx, cpts, items, Direct(pmap, None))
  {
    ExtractWidens(ctx, cpts, items, pmap, Some(f), None);
  }

  // ---------------------------------------------------------------------
  // Order independence, for the BCBS parser's set iteration

  lemma PriceRecordsAppend(ctx: Context, code: string, codeType: string, price: NegotiatedPrice,
                            a: seq<Provider>, b: seq<Provider>)
    ensures PriceRecords(ctx, code, codeType, price, a + b) ==
      PriceRecords(ctx, code, codeType, price, a) + PriceRecords(ctx, code, codeType, price, b)
  {
    if price.negotiatedRate.Some? {
      Seqs.MapAppend(a, b, (p: Provider) => MakeRecord(ctx, code, codeType, price, p));
    }
  }

  lemma PriceRecordsPerm(ctx: Context, code: string, codeType: string, price: NegotiatedPrice,
                         a: seq<Provider>, b: seq<Provider>)
    requires multiset(a) == multiset(b)
    ensures multiset(PriceRecords(ctx, code, codeType, price, a)) == multiset(PriceRecords(ctx, code, codeType, price, b))
  {
    if price.negotiatedRate.Some? {
      Seqs.MapPerm(a, b, (p: Provider) => MakeRecord(ctx, code, codeType, price, p));
    }
  }

  /** The records of a run of prices depend on the providers only as a
      multiset. */
  lemma {:induction false} PricesRecordsPerm(ctx: Context, code: string, codeType: string, prices: seq<NegotiatedPrice>,
                                             a: seq<Provider>, b: seq<Provider>)
    requires multiset(a) == multiset(b)
    ensures multiset(PricesRecords(ctx, code, codeType, prices, a)) ==
      multiset(PricesRecords(ctx, code, codeType, prices, b))
  {
    if prices != [] {
      PricesRecordsPerm(ctx, code, codeType, prices[..|prices| - 1], a, b);
      PriceRecordsPerm(ctx, code, codeType, prices[|prices| - 1], a, b);
    }
  }

  /** Two listings of the same NPIs give the same BCBS providers, in some order. */
  lemma ToProvidersPerm(a: seq<string>, b: seq<string>)
    requires multiset(a) == multiset(b)
    ensures multiset(ToProviders(a)) == multiset(ToProviders(b))
  {
    Seqs.MapPerm(a, b, (n: string) => Provider(n, None));
  }

  lemma ToProvidersAppend(a: seq<string>, b: seq<string>)
    ensures ToProviders(a + b) == ToProviders(a) + ToProviders(b)
  {
    Seqs.MapAppend(a, b, (n: string) => Provider(n, None));
  }

  // ---------------------------------------------------------------------
  // The loops of the map-resolving parsers

  /** The loop that fills `provider_map`. */
  method BuildProviderMap(refs: seq<ProviderReference>) returns (pmap: map<real, seq<Provider>>)
    ensures pmap == ProviderMapOf(refs)
  {
    pmap := map[];
    for i := 0 to |refs|
      invariant pmap == ProviderMapOf(refs[..i])
    {
      var pref := refs[i];
      assert refs[..i + 1][..i] == refs[..i];
      if pref.providerGroupId.Some? {
        var groups := pref.Groups();
        var providers: seq<Provider> := [];
        for k := 0 to |groups|
          invariant providers == GroupProviders(groups[..k])
        {
          var pg := groups[k];
          var npis := pg.Npis();
          var tinValue := pg.TinValue();
          ghost var before := providers;
          for m := 0 to |npis|
            invariant providers == before + NpiProviders(npis[..m], tinValue)
          {
            providers := providers + [Provider(NpiString(npis[m]), tinValue)];
          }
          assert npis[..|npis|] == npis;
          assert groups[..k + 1][..k] == groups[..k];
        }
        assert groups[..|groups|] == groups;
        pmap := pmap[pref.providerGroupId.value := providers];
      }
    }
    assert refs[..|refs|] == refs;
  }

  /** `provider_list` for one group. */
  method ResolveProviders(pmap: map<real, seq<Provider>>, refs: seq<real>) returns (providerList: seq<Provider>)
    ensures providerList == ResolveRefs(pmap, refs)
  {
    providerList := [];
    for m := 0 to |refs|
      invariant providerList == ResolveRefs(pmap, refs[..m])
    {
      assert refs[..m + 1][..m] == refs[..m];
      if refs[m] in pmap {
        providerList := providerList + pmap[refs[m]];
      }
    }
    assert refs[..|refs|] == refs;
  }

  /** The records of one priced entry, filtered by NPI at emission. */
  method EmitPrice(ctx: Context, code: string, codeType: string, price: NegotiatedPrice,
                   providerList: seq<Provider>, filter: Option<set<string>>) returns (out: seq<RateRecord>)
    requires price.negotiatedRate.Some?
    ensures out == PriceRecords(ctx, code, codeType, price, FilterNpis(providerList, filter))
  {
    out := [];
    for j := 0 to |providerList|
      invariant out == PriceRecords(ctx, code, codeType, price, FilterNpis(providerList[..j], filter))
    {
      var prov := providerList[j];
      assert providerList[..j + 1][..j] == providerList[..j];
      ghost var kept := FilterNpis(providerList[..j], filter);
      if filter.Some? && prov.npi !in filter.value {
        continue;
      }
      PriceRecordsAppend(ctx, code, codeType, price, kept, [prov]);
      out := out + [MakeRecord(ctx, code, codeType, price, prov)];
    }
    assert providerList[..|providerList|] == providerList;
  }

  /** The records of one negotiated-rate group: nothing when no reference
      resolves, else each priced entry with the resolved providers. */
  method EmitGroup(ctx: Context, code: string, codeType: string, rate: NegotiatedRate,
                   pmap: map<real, seq<Provider>>, filter: Option<set<string>>) returns (out: seq<RateRecord>)
    ensures out == GroupRecords(ctx, code, codeType, rate, Direct(pmap, filter))
  {
    var providerList := ResolveProviders(pmap, rate.Refs());
    var prices := rate.Prices();
    if providerList == [] {
      PricesRecordsNoProviders(ctx, code, codeType, prices);
      return [];
    }
    out := [];
    for q := 0 to |prices|
      invariant out == PricesRecords(ctx, code, codeType, prices[..q], FilterNpis(providerList, filter))
    {
      var price := prices[q];
      assert prices[..q + 1][..q] == prices[..q];
      if price.negotiatedRate.None? {
        continue;
      }
      var recs := EmitPrice(ctx, code, codeType, price, providerList, filter);
      out := out + recs;
    }
    assert prices[..|prices|] == prices;
  }

  /** The item loop of `parse_tic_file_simple` and `fast_parse_mrf`. */
  method EmitDirect(ctx: Context, cpts: set<string>, items: seq<InNetworkItem>,
                    pmap: map<real, seq<Provider>>, filter: Option<set<string>>)
    returns (records: seq<RateRecord>)
    ensures records == Extract(ctx, cpts, items, Direct(pmap, filter))
  {
    records := [];
    for i := 0 to |items|
      invariant records == Extract(ctx, cpts, items[..i], Direct(pmap, filter))
    {
      var item := items[i];
      assert items[..i + 1][..i] == items[..i];
      var code := item.Code();
      if code !in cpts {
        continue;
      }
      var codeType := item.CodeType();
      var rates := item.Rates();
      ghost var base := records;
      for k := 0 to |rates|
        invariant records == base + GroupsRecords(ctx, code, codeType, rates[..k], Direct(pmap, filter))
      {
        assert rates[..k + 1][..k] == rates[..k];
        var out := EmitGroup(ctx, code, codeType, rates[k], pmap, filter);
        records := records + out;
      }
      assert rates[..|rates|] == rates;
    }
    assert items[..|items|] == items;
  }
}
