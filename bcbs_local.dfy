/** scripts/ingest_bcbs_local.py: ingest the BCBS Minnesota "Local"
    in-network files. Their rate groups refer to providers by encoded group
    ids (`720.0000237894` stands for group 237894). A mapping from NPIs to
    the groups they belong to, made beforehand, is inverted, and a rate
    group's records go to the NPIs of the known groups it refers to.

    The parser walks a Python `set` of NPIs, whose iteration order is not
    specified, so its output is stated up to order: the same records as
    the encoded-resolver extraction, as a multiset. */
module BcbsLocal {
  import opened Wrappers
  import opened Storage
  import Seqs
  import Dates
  import Mrf
  import Fetching
  import Toc
  import Ingestion
  import opened Extraction

  const Payer := "BCBS Minnesota"

  const IndexUrl :=
    "https://mktg.bluecrossmn.com/mrf/2026/2026-01-01_Blue_Cross_and_Blue_Shield_of_Minnesota_index.json"

  /** The scale of the encoded fraction: ten decimal digits. */
  const Scale: nat := 10000000000

  // ---------------------------------------------------------------------
  // The group mapping

  /** The mapping file's JSON: its `npi_to_groups` member, when present. */
  datatype MappingData = MappingData(npiToGroups: Option<map<string, seq<int>>>)

  /** Every group id some NPI of the mapping lists. */
  function GroupIds(m: map<string, seq<int>>): set<int> {
    set n, g | n in m && g in m[n] :: g
  }

  /** `group_to_npis`: each listed group id with the NPIs that list it. */
  function Inverted(m: map<string, seq<int>>): map<int, set<string>> {
    map g | g in GroupIds(m) :: set n | n in m && g in m[n]
  }

  /** `npi_to_groups`, or `{}` when the member is absent. */
  function NpiToGroups(data: MappingData): map<string, seq<int>> {
    data.npiToGroups.GetOr(map[])
  }

  /** The inversion: an NPI is in a group's set exactly when the group is
      one of that NPI's; no group has an empty set; every NPI of a group is
      a key of the mapping; and there are no groups at all exactly when no
      NPI lists one. */
  lemma InvertedSpec(m: map<string, seq<int>>)
    ensures forall g, n :: g in Inverted(m) && n in Inverted(m)[g] <==> n in m && g in m[n]
    ensures forall g :: g in Inverted(m) ==> Inverted(m)[g] != {}
    ensures KnownNpis(Inverted(m)) <= m.Keys
    ensures Inverted(m) == map[] <==> forall n :: n in m ==> m[n] == []
  {
    var inv := Inverted(m);
    forall g, n | n in m && g in m[n] ensures g in inv && n in inv[g] {
      assert g in GroupIds(m);
    }
    forall g | g in inv ensures inv[g] != {} {
      var n :| n in m && g in m[n];
      assert n in inv[g];
    }
    if exists n :: n in m && m[n] != [] {
      var n :| n in m && m[n] != [];
      assert m[n][0] in m[n];
      assert m[n][0] in inv;
    }
  }

  /** `group_to_npis` after adding `npi` to each group of `groups`, in turn. */
  function AddNpi(g2n: map<int, set<string>>, npi: string, groups: seq<int>): map<int, set<string>> {
    if groups == [] then g2n
    else
      var before := AddNpi(g2n, npi, groups[..|groups| - 1]);
      var g := groups[|groups| - 1];
      before[g := (if g in before then before[g] else {}) + {npi}]
  }

  lemma {:induction false} AddNpiSpec(g2n: map<int, set<string>>, npi: string, groups: seq<int>)
    ensures forall g :: g in AddNpi(g2n, npi, groups) <==> g in g2n || g in groups
    ensures forall g :: g in AddNpi(g2n, npi, groups) ==>
      AddNpi(g2n, npi, groups)[g] == (if g in g2n then g2n[g] else {}) + (if g in groups then {npi} else {})
  {
    if groups != [] {
      var init := groups[..|groups| - 1];
      AddNpiSpec(g2n, npi, init);
      assert groups == init + [groups[|groups| - 1]];
    }
  }

  /** Visiting one more NPI adds it to the sets of its groups. */
  lemma InvertedAdd(d: map<string, seq<int>>, npi: string, groups: seq<int>)
    requires npi !in d
    ensures Inverted(d[npi := groups]) == AddNpi(Inverted(d), npi, groups)
  {
    var l, r := Inverted(d[npi := groups]), AddNpi(Inverted(d), npi, groups);
    AddNpiSpec(Inverted(d), npi, groups);
    InvertedAddKeys(d, npi, groups);
    forall g | g in l ensures l[g] == r[g] {
      InvertedAddGroup(d, npi, groups, g);
    }
  }

  /** The groups after one more NPI: those before and the NPI's own. */
  lemma InvertedAddKeys(d: map<string, seq<int>>, npi: string, groups: seq<int>)
    requires npi !in d
    ensures forall g :: g in Inverted(d[npi := groups]) <==> g in Inverted(d) || g in groups
  {
    var d' := d[npi := groups];
    forall g ensures g in GroupIds(d') <==> g in GroupIds(d) || g in groups {
      if g in groups {
        assert npi in d' && g in d'[npi];
      }
      if g in GroupIds(d) {
        var n :| n in d && g in d[n];
        assert n in d' && g in d'[n];
      }
      if g in GroupIds(d') {
        var n :| n in d' && g in d'[n];
        if n != npi {
          assert n in d && g in d[n];
        }
      }
    }
  }

  /** A group's NPIs after one more NPI: those before, and the NPI when the
      group is one of its own. */
  lemma InvertedAddGroup(d: map<string, seq<int>>, npi: string, groups: seq<int>, g: int)
    requires npi !in d
    requires g in Inverted(d[npi := groups])
    ensures Inverted(d[npi := groups])[g] ==
      (if g in Inverted(d) then Inverted(d)[g] else {}) + (if g in groups then {npi} else {})
  {
    var d' := d[npi := groups];
    forall n ensures n in Inverted(d')[g] <==>
      n in (if g in Inverted(d) then Inverted(d)[g] else {}) + (if g in groups then {npi} else {})
    {
      if n in d && g in d[n] {
        assert g in GroupIds(d);
      }
    }
  }

  /** The loop's step: visiting one more NPI of the mapping. */
  lemma InvertedVisit(m: map<string, seq<int>>, rest: set<string>, npi: string)
    requires npi in rest && rest <= m.Keys
    ensures Inverted(m - (rest - {npi})) == AddNpi(Inverted(m - rest), npi, m[npi])
  {
    InvertedAdd(m - rest, npi, m[npi]);
    assert (m - rest)[npi := m[npi]] == m - (rest - {npi});
  }

  /** `for group_id in groups`: add the NPI to each group's set, creating
      the set on first sight. */
  method AddToGroups(g2n: map<int, set<string>>, npi: string, groups: seq<int>) returns (r: map<int, set<string>>)
    ensures r == AddNpi(g2n, npi, groups)
  {
    r := g2n;
    for j := 0 to |groups|
      invariant r == AddNpi(g2n, npi, groups[..j])
    {
      var g := groups[j];
      assert groups[..j + 1][..j] == groups[..j];
      if g !in r {
        r := r[g := {}];
      }
      r := r[g := r[g] + {npi}];
    }
    assert groups[..|groups|] == groups;
  }

  /** `load_group_mapping`: the loop over the mapping's entries, which
      builds `group_to_npis` and `all_target_npis`. */
  method LoadGroupMapping(data: MappingData) returns (groupToNpis: map<int, set<string>>, allTargetNpis: set<string>)
    ensures groupToNpis == Inverted(NpiToGroups(data))
    ensures allTargetNpis == NpiToGroups(data).Keys
  {
    var npiToGroups := NpiToGroups(data);
    groupToNpis := map[];
    allTargetNpis := {};
    var rest := npiToGroups.Keys;
    assert npiToGroups - rest == map[];
    while rest != {}
      invariant rest <= npiToGroups.Keys
      invariant allTargetNpis == npiToGroups.Keys - rest
      invariant groupToNpis == Inverted(npiToGroups - rest)
      decreases |rest|
    {
      var npi :| npi in rest;
      var groups := npiToGroups[npi];
      allTargetNpis := allTargetNpis + {npi};
      groupToNpis := AddToGroups(groupToNpis, npi, groups);
      InvertedVisit(npiToGroups, rest, npi);
      rest := rest - {npi};
    }
    assert npiToGroups - rest == npiToGroups;
  }

  // ---------------------------------------------------------------------
  // Decoding a reference

  /** `int(x)`: truncation toward zero. */
  function Trunc(x: real): (r: int)
    ensures x >= 0.0 ==> r as real <= x < r as real + 1.0
    ensures x < 0.0 ==> r as real - 1.0 < x <= r as real
  {
    if x >= 0.0 then x.Floor else -((-x).Floor)
  }

  /** `round(x)` to an int: the nearest integer, a tie going to the even one. */
  function RoundHalfEven(x: real): (r: int)
    ensures -0.5 <= r as real - x <= 0.5
    ensures (r as real - x == 0.5 || x - r as real == 0.5) ==> r % 2 == 0
  {
    var f := x.Floor;
    var d := x - f as real;
    if d < 0.5 then f else if d > 0.5 then f + 1 else if f % 2 == 0 then f else f + 1
  }

  /** `round((float_id - int(float_id)) * 10_000_000_000)`, on exact reals. */
  function GroupOf(id: real): int {
    RoundHalfEven((id - Trunc(id) as real) * Scale as real)
  }

  /** A reference P.D, with D written on ten digits, decodes to group D:
      `720.0000237894` to 237894. */
  lemma DecodeEncoded(p: nat, d: nat)
    requires d < Scale
    ensures GroupOf(p as real + d as real / Scale as real) == d
  {
    var frac := d as real / Scale as real;
    assert 0.0 <= frac < 1.0;
    var x := p as real + frac;
    assert Trunc(x) == p by {
      assert p as real <= x < p as real + 1.0;
    }
    assert (x - p as real) * Scale as real == d as real;
  }

  /** `float_to_group`: every `provider_group_id` of the file's
      `provider_references`, decoded. A repeated id decodes the same way, so
      the overwrite leaves its group unchanged. */
  function FloatToGroupOf(refs: seq<Mrf.ProviderReference>): (r: map<real, int>)
    ensures forall x :: x in r <==> exists k :: 0 <= k < |refs| && refs[k].providerGroupId == Some(x)
    ensures forall x :: x in r ==> r[x] == GroupOf(x)
  {
    if refs == [] then map[]
    else
      var init, pr := refs[..|refs| - 1], refs[|refs| - 1];
      assert forall k :: 0 <= k < |init| ==> init[k] == refs[k];
      var m := FloatToGroupOf(init);
      if pr.providerGroupId.Some? then m[pr.providerGroupId.value := GroupOf(pr.providerGroupId.value)] else m
  }

  method BuildFloatToGroup(refs: seq<Mrf.ProviderReference>) returns (floatToGroup: map<real, int>)
    ensures floatToGroup == FloatToGroupOf(refs)
  {
    floatToGroup := map[];
    for i := 0 to |refs|
      invariant floatToGroup == FloatToGroupOf(refs[..i])
    {
      assert refs[..i + 1][..i] == refs[..i];
      var floatId := refs[i].providerGroupId;
      if floatId.Some? {
        floatToGroup := floatToGroup[floatId.value := GroupOf(floatId.value)];
      }
    }
    assert refs[..|refs|] == refs;
  }

  // ---------------------------------------------------------------------
  // parse_bcbs_local_file

  /** The records of a Local file: the encoded-resolver extraction with the
      caller's payer name (not the file's), the file's date and source. */
  ghost function LocalRecords(doc: Mrf.MrfDoc, payerName: string, source: string,
                              groupToNpis: map<int, set<string>>, cpts: set<string>): seq<RateRecord>
  {
    var ctx := Context(payerName, Dates.ParseLastUpdated(doc.lastUpdatedOn), source);
    Extract(ctx, cpts, doc.Items(), Encoded(FloatToGroupOf(doc.References()), groupToNpis))
  }

  /** `matched_npis`, built reference by reference. */
  method MatchNpis(floatToGroup: map<real, int>, groupToNpis: map<int, set<string>>, refs: seq<real>)
    returns (matched: set<string>)
    ensures matched == MatchedNpis(floatToGroup, groupToNpis, refs)
  {
    matched := {};
    for m := 0 to |refs|
      invariant matched == MatchedNpis(floatToGroup, groupToNpis, refs[..m])
    {
      assert refs[..m + 1][..m] == refs[..m];
      var r := refs[m];
      if r in floatToGroup {
        var groupId := floatToGroup[r];
        if groupId in groupToNpis {
          matched := matched + groupToNpis[groupId];
        }
      }
    }
    assert refs[..|refs|] == refs;
  }

  /** Iterating a set: its elements, each once, in some order. */
  method ListSet(s: set<string>) returns (xs: seq<string>)
    ensures multiset(xs) == multiset(s)
  {
    xs := [];
    var rest := s;
    while rest != {}
      invariant rest <= s
      invariant multiset(xs) + multiset(rest) == multiset(s)
      decreases |rest|
    {
      var x :| x in rest;
      assert multiset(rest) == multiset(rest - {x}) + multiset{x};
      xs := xs + [x];
      rest := rest - {x};
    }
  }

  /** The records of one priced entry, one per NPI. */
  method EmitEncodedPrice(ctx: Context, code: string, codeType: string, price: Mrf.NegotiatedPrice, npis: seq<string>)
    returns (out: seq<RateRecord>)
    requires price.negotiatedRate.Some?
    ensures out == PriceRecords(ctx, code, codeType, price, ToProviders(npis))
  {
    out := [];
    for j := 0 to |npis|
      invariant out == PriceRecords(ctx, code, codeType, price, ToProviders(npis[..j]))
    {
      assert ToProviders(npis[..j + 1]) == ToProviders(npis[..j]) + [Provider(npis[j], None)];
      PriceRecordsAppend(ctx, code, codeType, price, ToProviders(npis[..j]), [Provider(npis[j], None)]);
      out := out + [MakeRecord(ctx, code, codeType, price, Provider(npis[j], None))];
    }
    assert npis[..|npis|] == npis;
  }

  /** One negotiated-rate group: nothing when no NPI matched, else each
      priced entry with every matched NPI. */
  method EmitEncodedGroup(ctx: Context, code: string, codeType: string, rate: Mrf.NegotiatedRate,
                          floatToGroup: map<real, int>, groupToNpis: map<int, set<string>>)
    returns (out: seq<RateRecord>)
    ensures multiset(out) == multiset(GroupRecords(ctx, code, codeType, rate, Encoded(floatToGroup, groupToNpis)))
  {
    var matched := MatchNpis(floatToGroup, groupToNpis, rate.Refs());
    if matched == {} {
      EncodedGroups(ctx, code, codeType, rate, floatToGroup, groupToNpis);
      return [];
    }
    var npis := ListSet(matched);
    var prices := rate.Prices();
    out := [];
    for q := 0 to |prices|
      invariant out == PricesRecords(ctx, code, codeType, prices[..q], ToProviders(npis))
    {
      var price := prices[q];
      assert prices[..q + 1][..q] == prices[..q];
      if price.negotiatedRate.None? {
        continue;
      }
      var recs := EmitEncodedPrice(ctx, code, codeType, price, npis);
      out := out + recs;
    }
    assert prices[..|prices|] == prices;
    ToProvidersPerm(npis, Enumerate(matched));
    PricesRecordsPerm(ctx, code, codeType, prices, ToProviders(npis), ToProviders(Enumerate(matched)));
  }

  /** The negotiated-rate groups of one target item. */
  method EmitEncodedGroups(ctx: Context, code: string, codeType: string, rates: seq<Mrf.NegotiatedRate>,
                           floatToGroup: map<real, int>, groupToNpis: map<int, set<string>>)
    returns (records: seq<RateRecord>)
    ensures multiset(records) ==
      multiset(GroupsRecords(ctx, code, codeType, rates, Encoded(floatToGroup, groupToNpis)))
  {
    records := [];
    for k := 0 to |rates|
      invariant multiset(records) ==
        multiset(GroupsRecords(ctx, code, codeType, rates[..k], Encoded(floatToGroup, groupToNpis)))
    {
      assert rates[..k + 1][..k] == rates[..k];
      var out := EmitEncodedGroup(ctx, code, codeType, rates[k], floatToGroup, groupToNpis);
      records := records + out;
    }
    assert rates[..|rates|] == rates;
  }

  /** The item loop of `parse_bcbs_local_file`. */
  method EmitEncoded(ctx: Context, cpts: set<string>, items: seq<Mrf.InNetworkItem>,
                     floatToGroup: map<real, int>, groupToNpis: map<int, set<string>>)
    returns (records: seq<RateRecord>)
    ensures multiset(records) == multiset(Extract(ctx, cpts, items, Encoded(floatToGroup, groupToNpis)))
  {
    records := [];
    for i := 0 to |items|
      invariant multiset(records) == multiset(Extract(ctx, cpts, items[..i], Encoded(floatToGroup, groupToNpis)))
    {
      var item := items[i];
      assert items[..i + 1][..i] == items[..i];
      var code := item.Code();
      if code !in cpts {
        continue;
      }
      var out := EmitEncodedGroups(ctx, code, item.CodeType(), item.Rates(), floatToGroup, groupToNpis);
      records := records + out;
    }
    assert items[..|items|] == items;
  }

  /** `parse_bcbs_local_file(data, payer_name, file_source, group_to_npis,
      target_cpts)`. */
  method ParseBcbsLocalFile(doc: Mrf.MrfDoc, payerName: string, source: string,
                            groupToNpis: map<int, set<string>>, cpts: set<string>)
    returns (records: seq<RateRecord>)
    ensures multiset(records) == multiset(LocalRecords(doc, payerName, source, groupToNpis, cpts))
  {
    var lastUpdated := Dates.ParseLastUpdated(doc.lastUpdatedOn);
    var floatToGroup := BuildFloatToGroup(doc.References());
    records := EmitEncoded(Context(payerName, lastUpdated, source), cpts, doc.Items(), floatToGroup, groupToNpis);
  }

  /** Every record of a Local file has the caller's payer name, the file's
      date and source, a target code, no TIN, and an NPI some group of the
      mapping holds. */
  lemma LocalRecordsSpec(doc: Mrf.MrfDoc, payerName: string, source: string,
                         groupToNpis: map<int, set<string>>, cpts: set<string>)
    ensures forall r :: r in LocalRecords(doc, payerName, source, groupToNpis, cpts) ==>
      r.payerName == payerName && r.lastUpdated == Dates.ParseLastUpdated(doc.lastUpdatedOn) &&
      r.fileSource == Some(source) && r.billingCode in cpts && r.tin.None? && r.npi in KnownNpis(groupToNpis)
  {
    var ctx := Context(payerName, Dates.ParseLastUpdated(doc.lastUpdatedOn), source);
    ExtractConforms(ctx, cpts, doc.Items(), Encoded(FloatToGroupOf(doc.References()), groupToNpis));
  }

  // ---------------------------------------------------------------------
  // main

  /** Two stores alike but for the order of the rows: the same log and the
      same rows as a multiset. */
  ghost predicate SameRows(a: Store, b: Store) {
    a.log == b.log && multiset(a.rates) == multiset(b.rates)
  }

  /** An attempt keeps two stores alike when the records differ only in order. */
  lemma AttemptSameRows(a: Store, b: Store, url: string, o: Ingestion.Outcome, records: seq<RateRecord>)
    requires SameRows(a, b)
    requires o.Success? ==> multiset(records) == multiset(o.value)
    ensures var (u, n) := Ingestion.Attempt(b, Payer, url, o);
      var (u', n') := Ingestion.Attempt(a, Payer, url, if o.Success? then Success(records) else o);
      SameRows(u', u) && n' == n
  {
    if o.Success? {
      assert |records| == |multiset(records)| == |multiset(o.value)| == |o.value|;
    }
  }

  /** The bytes of a Local file: the download, always gunzipped; the status
      code is not looked at. */
  function Content(env: Fetching.Env, url: string): Result<Fetching.Bytes, string> {
    match env.get(url)
    case Failure(e) => Failure(e)
    case Success(resp) => env.gunzip(resp.body)
  }

  ghost function Outcome(env: Fetching.Env, url: string, groupToNpis: map<int, set<string>>, cpts: set<string>)
    : Ingestion.Outcome
  {
    match Content(env, url)
    case Failure(e) => Failure(e)
    case Success(bytes) =>
      match env.loadMrf(bytes)
      case Failure(e) => Failure(e)
      case Success(doc) => Success(LocalRecords(doc, Payer, url, groupToNpis, cpts))
  }

  /** The body of `main`'s file loop: no skip check, a `running` entry, then
      download, gunzip, parse and store, or the exception's message. */
  method ProcessLocalFile(db: RatesDatabase, env: Fetching.Env, url: string, groupToNpis: map<int, set<string>>,
                          cpts: set<string>) returns (n: int)
    modifies db`rates, db`log
    ensures SameRows(db.Snapshot(), Ingestion.Attempt(old(db.Snapshot()), Payer, url, Outcome(env, url, groupToNpis, cpts)).0)
    ensures n == Ingestion.Attempt(old(db.Snapshot()), Payer, url, Outcome(env, url, groupToNpis, cpts)).1
    ensures old(db.rates) <= db.rates
  {
    ghost var s := db.Snapshot();
    ghost var o := Outcome(env, url, groupToNpis, cpts);
    var id := db.LogIngestionStart(Payer, url);
    var resp := env.get(url);
    if resp.Failure? {
      db.LogIngestionError(id, resp.error);
      AttemptSameRows(s, s, url, o, []);
      return 0;
    }
    var content := env.gunzip(resp.value.body);
    if content.Failure? {
      db.LogIngestionError(id, content.error);
      AttemptSameRows(s, s, url, o, []);
      return 0;
    }
    var doc := env.loadMrf(content.value);
    if doc.Failure? {
      db.LogIngestionError(id, doc.error);
      AttemptSameRows(s, s, url, o, []);
      return 0;
    }
    var records := ParseBcbsLocalFile(doc.value, Payer, url, groupToNpis, cpts);
    n := Ingestion.Conclude(db, id, records);
    AttemptSameRows(s, s, url, o, records);
  }

  ghost function Jobs(env: Fetching.Env, files: seq<Toc.Sized>, groupToNpis: map<int, set<string>>, cpts: set<string>)
    : (jobs: seq<Ingestion.Job>)
    ensures |jobs| == |files|
  {
    seq(|files|, i requires 0 <= i < |files| =>
      Ingestion.Job(files[i].file.url, Outcome(env, files[i].file.url, groupToNpis, cpts)))
  }

  lemma JobsSnoc(env: Fetching.Env, files: seq<Toc.Sized>, f: Toc.Sized, groupToNpis: map<int, set<string>>,
                 cpts: set<string>)
    ensures Jobs(env, files + [f], groupToNpis, cpts) ==
      Jobs(env, files, groupToNpis, cpts) + [Ingestion.Job(f.file.url, Outcome(env, f.file.url, groupToNpis, cpts))]
  {
  }

  /** One turn of `main`'s file loop, after the files `done`. */
  method ProcessNext(db: RatesDatabase, env: Fetching.Env, ghost s0: Store, ghost done: seq<Toc.Sized>, f: Toc.Sized,
                     groupToNpis: map<int, set<string>>, cpts: set<string>, total: int) returns (next: int)
    requires SameRows(db.Snapshot(), Ingestion.RunAll(s0, Payer, Jobs(env, done, groupToNpis, cpts), false).0)
    requires total == Ingestion.RunAll(s0, Payer, Jobs(env, done, groupToNpis, cpts), false).1
    requires s0.rates <= db.rates
    modifies db`rates, db`log
    ensures SameRows(db.Snapshot(), Ingestion.RunAll(s0, Payer, Jobs(env, done + [f], groupToNpis, cpts), false).0)
    ensures next == Ingestion.RunAll(s0, Payer, Jobs(env, done + [f], groupToNpis, cpts), false).1
    ensures s0.rates <= db.rates
  {
    var url := f.file.url;
    ghost var job := Ingestion.Job(url, Outcome(env, url, groupToNpis, cpts));
    ghost var prev := Ingestion.RunAll(s0, Payer, Jobs(env, done, groupToNpis, cpts), false);
    JobsSnoc(env, done, f, groupToNpis, cpts);
    Ingestion.RunAllSnoc(s0, Payer, Jobs(env, done, groupToNpis, cpts), job, false);
    ghost var mid := db.Snapshot();
    var n := ProcessLocalFile(db, env, url, groupToNpis, cpts);
    AttemptSameRows(mid, prev.0, url, job.outcome, if job.outcome.Success? then job.outcome.value else []);
    next := total + n;
  }

  /** The file loop of `main`, smallest file first. */
  method ProcessFiles(db: RatesDatabase, env: Fetching.Env, files: seq<Toc.Sized>, groupToNpis: map<int, set<string>>,
                      cpts: set<string>) returns (total: int)
    modifies db`rates, db`log
    ensures SameRows(db.Snapshot(), Ingestion.RunAll(old(db.Snapshot()), Payer, Jobs(env, files, groupToNpis, cpts), false).0)
    ensures total == Ingestion.RunAll(old(db.Snapshot()), Payer, Jobs(env, files, groupToNpis, cpts), false).1
    ensures old(db.rates) <= db.rates
  {
    ghost var s0 := db.Snapshot();
    total := 0;
    for i := 0 to |files|
      invariant SameRows(db.Snapshot(), Ingestion.RunAll(s0, Payer, Jobs(env, files[..i], groupToNpis, cpts), false).0)
      invariant total == Ingestion.RunAll(s0, Payer, Jobs(env, files[..i], groupToNpis, cpts), false).1
      invariant s0.rates <= db.rates
    {
      assert files[..i + 1] == files[..i] + [files[i]];
      total := ProcessNext(db, env, s0, files[..i], files[i], groupToNpis, cpts, total);
    }
    assert files[..|files|] == files;
  }

  /** The Local files of an index: `http` locations whose description
      contains `Local`, the first entry of each URL, in index order. */
  function LocalFiles(doc: Mrf.IndexDoc): seq<Toc.FileRef> {
    Seqs.DedupBy(Toc.Admitted(Toc.HttpAnd("Local"), Toc.Listed(doc)), Toc.UrlOf)
  }

  /** How `main` ends: without a mapping file, with no group in it, with the
      exception loading the mapping or the index raised, with every Local
      file already ingested, or with the number of rows added. */
  datatype Report = NoMapping | NoGroups | Crashed(message: string) | NothingToIngest | Done(total: int)

  /** The mapping file: absent, unreadable, or its parsed JSON. */
  type MappingFile = Option<Result<MappingData, string>>

  function MappingOf(mapping: MappingFile): map<string, seq<int>> {
    if mapping.Some? && mapping.value.Success? then NpiToGroups(mapping.value.value) else map[]
  }

  /** The files `main` visits: the Local files not yet ingested, probed
      (a failed probe counting as size 0) and sorted by size. */
  function Visited(s: Store, env: Fetching.Env, doc: Mrf.IndexDoc): seq<Toc.Sized> {
    Toc.SortBySize(Toc.ProbedOrZero(env, Toc.NotIngested(s, LocalFiles(doc))))
  }

  ghost function MainRun(s: Store, mapping: MappingFile, env: Fetching.Env, cpts: set<string>): (Store, Report) {
    match mapping
    case None => (s, NoMapping)
    case Some(Failure(e)) => (s, Crashed(e))
    case Some(Success(data)) =>
      var groupToNpis := Inverted(NpiToGroups(data));
      if groupToNpis == map[] then (s, NoGroups)
      else
        match Fetching.IndexAt(env, IndexUrl)
        case Failure(e) => (s, Crashed(e))
        case Success(doc) =>
          if Toc.NotIngested(s, LocalFiles(doc)) == [] then (s, NothingToIngest)
          else
            var (t, total) := Ingestion.RunAll(s, Payer, Jobs(env, Visited(s, env, doc), groupToNpis, cpts), false);
            (t, Done(total))
  }

  /** `main`, with the mapping file and the CPT codes as inputs. The
      database holds what the specification gives, up to the order of the
      rows within what was added. */
  method Run(db: RatesDatabase, env: Fetching.Env, mapping: MappingFile, cpts: set<string>) returns (report: Report)
    modifies db`rates, db`log
    ensures SameRows(db.Snapshot(), MainRun(old(db.Snapshot()), mapping, env, cpts).0)
    ensures report == MainRun(old(db.Snapshot()), mapping, env, cpts).1
    ensures old(db.rates) <= db.rates
  {
    if mapping.None? {
      return NoMapping;
    }
    if mapping.value.Failure? {
      return Crashed(mapping.value.error);
    }
    var groupToNpis, allTargetNpis := LoadGroupMapping(mapping.value.value);
    if groupToNpis == map[] {
      return NoGroups;
    }
    var resp := env.get(IndexUrl);
    if resp.Failure? {
      return Crashed(resp.error);
    }
    var data := env.loadIndex(resp.value.body);
    if data.Failure? {
      return Crashed(data.error);
    }
    var allFiles := Toc.CollectFiles(data.value, Toc.HttpAnd("Local"));
    var uniqueFiles := Toc.DedupByUrl(allFiles);
    var notIngested := Toc.FilterNotIngested(db, uniqueFiles);
    if notIngested == [] {
      return NothingToIngest;
    }
    var sized := Toc.ProbeSizesOrZero(env, notIngested);
    var sorted := Toc.SortBySize(sized);
    var total := ProcessFiles(db, env, sorted, groupToNpis, cpts);
    report := Done(total);
  }

  /** What a Local file's records carry, whatever becomes of its download. */
  lemma OutcomeRecords(env: Fetching.Env, url: string, groupToNpis: map<int, set<string>>, cpts: set<string>)
    ensures forall r :: r in Ingestion.RecordsOf(Outcome(env, url, groupToNpis, cpts)) ==>
      r.payerName == Payer && r.tin.None? && r.npi in KnownNpis(groupToNpis) && r.billingCode in cpts &&
      r.fileSource == Some(url)
  {
    var content := Content(env, url);
    if content.Success? && env.loadMrf(content.value).Success? {
      LocalRecordsSpec(env.loadMrf(content.value).value, Payer, url, groupToNpis, cpts);
    }
  }

  /** Every file `main` visits is a Local file of the index. */
  lemma VisitedLocal(s: Store, env: Fetching.Env, doc: Mrf.IndexDoc)
    ensures forall f :: f in Visited(s, env, doc) ==> f.file in LocalFiles(doc)
  {
    var todo := Toc.NotIngested(s, LocalFiles(doc));
    var sized := Toc.ProbedOrZero(env, todo);
    Toc.SortBySizeSpec(sized);
    forall f | f in Visited(s, env, doc) ensures f.file in LocalFiles(doc) {
      assert f in multiset(sized);
      var p :| 0 <= p < |sized| && sized[p] == f;
      assert todo[p] in todo;
    }
  }

  /** `main` writes nothing unless it gets to the files; it stops for want
      of groups exactly when no NPI of the mapping lists one; every row it
      adds is a BCBS Minnesota row without TIN, for an NPI of the mapping
      and a target code, stored under the URL of a Local file of the index;
      nothing stored before is lost. */
  lemma MainRunRecords(s: Store, mapping: MappingFile, env: Fetching.Env, cpts: set<string>)
    ensures var (t, report) := MainRun(s, mapping, env, cpts);
      (!report.Done? ==> t == s) &&
      (mapping.Some? && mapping.value.Success? ==>
        (report == NoGroups <==> forall n :: n in MappingOf(mapping) ==> MappingOf(mapping)[n] == [])) &&
      |s.rates| <= |t.rates| && t.rates[..|s.rates|] == s.rates &&
      forall i :: |s.rates| <= i < |t.rates| ==>
        t.rates[i].payerName == Payer && t.rates[i].tin.None? && t.rates[i].npi in MappingOf(mapping) &&
        t.rates[i].billingCode in cpts &&
        exists f :: f in LocalFiles(Fetching.IndexAt(env, IndexUrl).value) && t.rates[i].fileSource == Some(f.url)
  {
    var m := MappingOf(mapping);
    InvertedSpec(m);
    var (t, report) := MainRun(s, mapping, env, cpts);
    if !report.Done? {
      assert s.rates[..|s.rates|] == s.rates;
    } else {
      var g2n := Inverted(m);
      var doc := Fetching.IndexAt(env, IndexUrl).value;
      var files := Visited(s, env, doc);
      var jobs := Jobs(env, files, g2n, cpts);
      VisitedLocal(s, env, doc);
      var ok := (r: RateRecord) => r.payerName == Payer && r.tin.None? && r.npi in m && r.billingCode in cpts &&
        exists f :: f in LocalFiles(doc) && r.fileSource == Some(f.url);
      forall j, r | j in jobs && r in Ingestion.RecordsOf(j.outcome) ensures ok(r) {
        var k :| 0 <= k < |jobs| && jobs[k] == j;
        assert files[k] in files;
        OutcomeRecords(env, files[k].file.url, g2n, cpts);
      }
      Ingestion.RunAllAdds(s, Payer, jobs, false, ok);
    }
  }

  /** Every Local file not yet ingested gets exactly one new log entry,
      finalised as `complete` or `error`, and the files are visited
      smallest first. */
  lemma MainRunLog(s: Store, mapping: MappingFile, env: Fetching.Env, cpts: set<string>)
    requires s.Valid()
    ensures var (t, report) := MainRun(s, mapping, env, cpts);
      report.Done? ==>
        var doc := Fetching.IndexAt(env, IndexUrl).value;
        var files := Visited(s, env, doc);
        |t.log| == |s.log| + |Toc.NotIngested(s, LocalFiles(doc))| &&
        (forall i :: |s.log| <= i < |t.log| ==> t.log[i].status != Running && t.log[i].payerName == Payer) &&
        (forall i, j :: 0 <= i < j < |files| ==> files[i].size <= files[j].size)
  {
    var (t, report) := MainRun(s, mapping, env, cpts);
    if report.Done? {
      var doc := Fetching.IndexAt(env, IndexUrl).value;
      var todo := Toc.NotIngested(s, LocalFiles(doc));
      Toc.SortBySizeSpec(Toc.ProbedOrZero(env, todo));
      assert |Visited(s, env, doc)| == |todo| by {
        assert |multiset(Visited(s, env, doc))| == |multiset(Toc.ProbedOrZero(env, todo))|;
      }
      Ingestion.RunAllSpec(s, Payer, Jobs(env, Visited(s, env, doc), Inverted(MappingOf(mapping)), cpts), false);
    }
  }
}
