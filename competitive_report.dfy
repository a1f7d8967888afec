/** scripts/generate_competitive_report.py: the rate view that rolls
    individual NPIs up to their clinic, the clinic-by-clinic comparison of
    one clinic against its competitors, and the per-payer summary of
    medians by code. The SQL medians are inputs: the rows each median query
    returns. */
module CompetitiveReport {
  import opened Wrappers
  import opened Storage
  import Text
  import Seqs
  import Dates

  /** The clinic the comparison is written for. */
  const PrimaryClinicNpi := "1073185393"

  /** `get_cpt_descriptions`: a code and its description, each code once. */
  const CptDescriptions: seq<(string, string)> := [
    ("97161", "PT eval low"),
    ("97162", "PT eval moderate"),
    ("97163", "PT eval high"),
    ("97164", "PT re-evaluation"),
    ("97110", "Therapeutic exercises"),
    ("97112", "Neuromuscular re-ed"),
    ("97116", "Gait training"),
    ("97140", "Manual therapy"),
    ("97530", "Therapeutic activities"),
    ("97535", "Self-care training"),
    ("97537", "Community/work reintegration"),
    ("97542", "Wheelchair mgmt"),
    ("97545", "Work hardening (first 2 hrs)"),
    ("97546", "Work hardening (+1 hr)"),
    ("97750", "Physical perf test"),
    ("97755", "Assistive tech assessment"),
    ("97760", "Orthotic training"),
    ("97761", "Prosthetic training"),
    ("97763", "Orthotic/prosthetic mgmt"),
    ("97010", "Hot/cold packs"),
    ("97012", "Mechanical traction"),
    ("97014", "Electrical stim (unattended)"),
    ("97016", "Vasopneumatic devices"),
    ("97018", "Paraffin bath"),
    ("97022", "Whirlpool"),
    ("97024", "Diathermy"),
    ("97032", "Electrical stim (manual)"),
    ("97033", "Iontophoresis"),
    ("97034", "Contrast baths"),
    ("97035", "Ultrasound"),
    ("97036", "Hubbard tank"),
    ("97150", "Group therapy"),
    ("97113", "Aquatic therapy"),
    ("20560", "Dry needling 1-2"),
    ("20561", "Dry needling 3+"),
    ("99211", "Office visit minimal"),
    ("99212", "Office visit straightforward"),
    ("99213", "Office visit low"),
    ("99214", "Office visit moderate")]

  /** `cpt_desc.get(cpt, "")`. */
  function Description(cpt: string): string {
    Seqs.Lookup(CptDescriptions, cpt, "")
  }

  // ---------------------------------------------------------------------
  // The normalized rate view

  /** A row of `npi_groups`: an individual NPI and the organization it
      belongs to, which may be NULL. */
  datatype NpiGroup = NpiGroup(individualNpi: string, organizationNpi: Option<string>)

  /** A row of `normalized_rates`. */
  datatype NormalizedRate = NormalizedRate(payerName: string, billingCode: string, negotiatedRate: real,
                                           clinicNpi: string, lastUpdated: Option<Dates.Date>)

  /** The clinic ids a rate's NPI becomes through the LEFT JOIN on the
      trimmed NPI: one per matching `npi_groups` row, its organization NPI
      or the trimmed NPI when that is NULL; the trimmed NPI alone when no
      row matches. */
  function ClinicIds(npi: string, groups: seq<NpiGroup>): (r: set<string>)
    ensures r != {}
  {
    var t := Text.TrimSpaces(npi);
    if MatchedClinics(t, groups) == {} then {t} else MatchedClinics(t, groups)
  }

  /** The clinic ids of the `npi_groups` rows of the trimmed NPI `t`. */
  function MatchedClinics(t: string, groups: seq<NpiGroup>): set<string> {
    set k | 0 <= k < |groups| && groups[k].individualNpi == t :: groups[k].organizationNpi.GetOr(t)
  }

  lemma MatchedClinicsSpec(t: string, groups: seq<NpiGroup>)
    ensures forall k :: 0 <= k < |groups| && groups[k].individualNpi == t ==>
      groups[k].organizationNpi.GetOr(t) in MatchedClinics(t, groups)
    ensures (forall k :: 0 <= k < |groups| ==> groups[k].individualNpi != t) ==> MatchedClinics(t, groups) == {}
    ensures forall c :: c in MatchedClinics(t, groups) ==>
      c == t || exists k :: 0 <= k < |groups| && groups[k].individualNpi == t && groups[k].organizationNpi == Some(c)
  {
    if MatchedClinics(t, groups) != {} {
      var c :| c in MatchedClinics(t, groups);
      var k :| 0 <= k < |groups| && groups[k].individualNpi == t && groups[k].organizationNpi.GetOr(t) == c;
    }
    forall c | c in MatchedClinics(t, groups)
      ensures c == t || exists k :: 0 <= k < |groups| && groups[k].individualNpi == t && groups[k].organizationNpi == Some(c)
    {
      var k :| 0 <= k < |groups| && groups[k].individualNpi == t && groups[k].organizationNpi.GetOr(t) == c;
      if groups[k].organizationNpi.Some? {
        assert groups[k].organizationNpi == Some(c);
      }
    }
  }

  /** The join's three cases: no matching row gives the trimmed NPI; every
      matching row with an organization gives that organization; and nothing
      else comes out. */
  lemma ClinicIdsSpec(npi: string, groups: seq<NpiGroup>)
    ensures (forall k :: 0 <= k < |groups| ==> groups[k].individualNpi != Text.TrimSpaces(npi)) ==>
      ClinicIds(npi, groups) == {Text.TrimSpaces(npi)}
    ensures forall k ::
      (0 <= k < |groups| && groups[k].individualNpi == Text.TrimSpaces(npi) && groups[k].organizationNpi.Some?) ==>
        groups[k].organizationNpi.value in ClinicIds(npi, groups)
    ensures forall c :: c in ClinicIds(npi, groups) ==>
      (c == Text.TrimSpaces(npi) ||
       exists k :: 0 <= k < |groups| && groups[k].individualNpi == Text.TrimSpaces(npi) &&
         groups[k].organizationNpi == Some(c))
  {
    MatchedClinicsSpec(Text.TrimSpaces(npi), groups);
  }

  function Normalize(r: RateRecord, clinic: string): NormalizedRate {
    NormalizedRate(r.payerName, r.billingCode, r.negotiatedRate, clinic, r.lastUpdated)
  }

  /** `create_normalized_rates_view`: the DISTINCT rows of the join. */
  function NormalizedRates(rates: seq<RateRecord>, groups: seq<NpiGroup>): set<NormalizedRate> {
    set i, c | 0 <= i < |rates| && c in ClinicIds(rates[i].npi, groups) :: Normalize(rates[i], c)
  }

  /** A rate that repeats another in payer, code, rate and date, and whose
      NPI rolls up to no clinic the other's does not, adds nothing to the
      view: the same rate is counted once per clinic, whatever NPI, TIN or
      other column tells the two apart. */
  lemma NormalizedDuplicate(rates: seq<RateRecord>, groups: seq<NpiGroup>, i: nat, r: RateRecord)
    requires i < |rates|
    requires r.payerName == rates[i].payerName && r.billingCode == rates[i].billingCode
    requires r.negotiatedRate == rates[i].negotiatedRate && r.lastUpdated == rates[i].lastUpdated
    requires ClinicIds(r.npi, groups) <= ClinicIds(rates[i].npi, groups)
    ensures NormalizedRates(rates + [r], groups) == NormalizedRates(rates, groups)
  {
    var rs := rates + [r];
    forall n | n in NormalizedRates(rs, groups) ensures n in NormalizedRates(rates, groups) {
      var j, c :| 0 <= j < |rs| && c in ClinicIds(rs[j].npi, groups) && n == Normalize(rs[j], c);
      if j == |rates| {
        assert Normalize(rates[i], c) == n;
      } else {
        assert rs[j] == rates[j];
      }
    }
    forall n | n in NormalizedRates(rates, groups) ensures n in NormalizedRates(rs, groups) {
      var j, c :| 0 <= j < |rates| && c in ClinicIds(rates[j].npi, groups) && n == Normalize(rates[j], c);
      assert rs[j] == rates[j];
    }
  }

  /** Each row of the view is a rate of the table under one of its clinic
      ids, and each rate appears under every one of its clinic ids. */
  lemma NormalizedRatesSpec(rates: seq<RateRecord>, groups: seq<NpiGroup>)
    ensures forall n :: n in NormalizedRates(rates, groups) ==>
      exists i :: 0 <= i < |rates| && n == Normalize(rates[i], n.clinicNpi) &&
        n.clinicNpi in ClinicIds(rates[i].npi, groups)
    ensures forall i, c :: 0 <= i < |rates| && c in ClinicIds(rates[i].npi, groups) ==>
      Normalize(rates[i], c) in NormalizedRates(rates, groups)
  {
    forall n | n in NormalizedRates(rates, groups)
      ensures exists i ::
        0 <= i < |rates| && n == Normalize(rates[i], n.clinicNpi) && n.clinicNpi in ClinicIds(rates[i].npi, groups)
    {
      var i, c :| 0 <= i < |rates| && c in ClinicIds(rates[i].npi, groups) && n == Normalize(rates[i], c);
      assert n.clinicNpi == c;
    }
  }

  // ---------------------------------------------------------------------
  // Python's string order

  /** `a <= b` on Python strings: lexicographic by code point. */
  predicate StrLe(a: string, b: string)
    decreases |a|
  {
    a == [] || (b != [] && (a[0] < b[0] || (a[0] == b[0] && StrLe(a[1..], b[1..]))))
  }

  lemma {:induction false} StrLeTotal(a: string, b: string)
    ensures StrLe(a, b) || StrLe(b, a)
    decreases |a|
  {
    if a != [] && b != [] && a[0] == b[0] {
      StrLeTotal(a[1..], b[1..]);
    }
  }

  lemma {:induction false} StrLeTrans(a: string, b: string, c: string)
    requires StrLe(a, b) && StrLe(b, c)
    ensures StrLe(a, c)
    decreases |a|
  {
    if a != [] && a[0] == b[0] && b[0] == c[0] {
      StrLeTrans(a[1..], b[1..], c[1..]);
    }
  }

  lemma {:induction false} StrLeAntisymmetric(a: string, b: string)
    requires StrLe(a, b) && StrLe(b, a)
    ensures a == b
    decreases |a|
  {
    if a != [] {
      StrLeAntisymmetric(a[1..], b[1..]);
      assert a == [a[0]] + a[1..] && b == [b[0]] + b[1..];
    }
  }

  lemma StrLePreorder()
    ensures Seqs.TotalPreorder(StrLe)
  {
    forall a, b ensures StrLe(a, b) || StrLe(b, a) {
      StrLeTotal(a, b);
    }
    forall a, b, c | StrLe(a, b) && StrLe(b, c) ensures StrLe(a, c) {
      StrLeTrans(a, b, c);
    }
  }

  // ---------------------------------------------------------------------
  // The clinic comparison

  /** A row of the per-payer median query: a code, a clinic and the median
      of that clinic's normalized rates for the code. */
  datatype Median = Median(billingCode: string, clinicNpi: string, medianRate: real)

  /** The median query's rows for one payer, payers coming in name order. */
  datatype PayerMedians = PayerMedians(payer: string, medians: seq<Median>)

  /** A row of the clinic comparison CSV. */
  datatype ComparisonRow = ComparisonRow(
    payer: string, cpt: string, description: string,
    ourRate: real, rank: int, totalClinics: int,
    lowestRate: real, lowestClinic: string,
    highestRate: real, highestClinic: string)

  predicate IsOrganization(p: NppesProvider) { p.providerType == "Organization" }

  /** The registry rows of organizations: the clinics. */
  function Organizations(registry: seq<NppesProvider>): seq<NppesProvider> {
    Seqs.Filter(registry, IsOrganization)
  }

  /** `clinic_set`. */
  function ClinicSet(orgs: seq<NppesProvider>): set<string> {
    Seqs.KeysOf(orgs, ProviderNpi)
  }

  /** `npi_names.get(npi, 'Unknown')`, where `dict(zip(...))` keeps the
      last name given for an NPI. */
  function ClinicName(orgs: seq<NppesProvider>, npi: string): (r: string)
    ensures (forall k :: 0 <= k < |orgs| ==> orgs[k].npi != npi) ==> r == "Unknown"
    ensures forall k :: 0 <= k < |orgs| && orgs[k].npi == npi && (forall q :: k < q < |orgs| ==> orgs[q].npi != npi) ==>
      r == orgs[k].providerName
  {
    if orgs == [] then "Unknown"
    else
      var init, last := orgs[..|orgs| - 1], orgs[|orgs| - 1];
      assert forall k :: 0 <= k < |init| ==> init[k] == orgs[k];
      if last.npi == npi then last.providerName else ClinicName(init, npi)
  }

  predicate AtClinicIn(clinics: set<string>, m: Median) { m.clinicNpi in clinics }

  predicate HasCode(code: string, m: Median) { m.billingCode == code }

  /** `clinic_npi IN (...)`. */
  function AtClinics(ms: seq<Median>, clinics: set<string>): seq<Median> {
    Seqs.Filter(ms, m => AtClinicIn(clinics, m))
  }

  /** `rates_df[rates_df['billing_code'] == cpt]`. */
  function WithCode(ms: seq<Median>, code: string): seq<Median> {
    Seqs.Filter(ms, m => HasCode(code, m))
  }

  function MedianCode(m: Median): string { m.billingCode }

  /** `sorted(rates_df['billing_code'].unique())`. */
  function SortedCodes(ms: seq<Median>): seq<string> {
    Seqs.SortBy(Seqs.UniqueKeys(ms, MedianCode), StrLe)
  }

  /** The codes of a comparison come once each, in ascending string order,
      and are exactly the codes of the rows. */
  lemma SortedCodesSpec(ms: seq<Median>)
    ensures var codes := SortedCodes(ms);
      (forall c :: c in codes <==> exists m :: m in ms && m.billingCode == c) &&
      (forall i, j :: 0 <= i < j < |codes| ==> codes[i] != codes[j]) &&
      Seqs.SortedBy(codes, StrLe)
  {
    var u := Seqs.UniqueKeys(ms, MedianCode);
    StrLePreorder();
    Seqs.SortBySorted(u, StrLe);
    var codes := SortedCodes(ms);
    forall c ensures c in codes <==> exists m :: m in ms && m.billingCode == c {
      assert c in codes <==> c in multiset(codes);
      assert c in u <==> c in multiset(u);
      assert c in u <==> exists m :: m in ms && MedianCode(m) == c;
    }
    Seqs.DistinctKeysPerm(u, codes, (s: string) => s);
  }

  /** Descending order of the median. */
  predicate MedianGe(a: Median, b: Median) { a.medianRate >= b.medianRate }

  /** `sort_values('median_rate', ascending=False)`. Equal medians may come
      in any order; this is one such order, and nothing below depends on
      which. */
  function Ranked(ms: seq<Median>): seq<Median> {
    Seqs.SortBy(ms, MedianGe)
  }

  /** The position of the first row for `npi`. */
  function FirstAt(ms: seq<Median>, npi: string): (r: Option<nat>)
    ensures r.Some? ==>
      r.value < |ms| && ms[r.value].clinicNpi == npi && forall k :: 0 <= k < r.value ==> ms[k].clinicNpi != npi
    ensures r.None? ==> forall k :: 0 <= k < |ms| ==> ms[k].clinicNpi != npi
  {
    if ms == [] then None
    else if ms[0].clinicNpi == npi then Some(0)
    else
      match FirstAt(ms[1..], npi)
      case None => None
      case Some(k) => Some(k + 1)
  }

  /** The comparison row of one code, from its rows by descending median:
      none when the primary clinic has no median for it. */
  function CodeRow(payer: string, code: string, ranked: seq<Median>, orgs: seq<NppesProvider>): Option<ComparisonRow> {
    match FirstAt(ranked, PrimaryClinicNpi)
    case None => None
    case Some(k) =>
      var lowest, highest := ranked[|ranked| - 1], ranked[0];
      Some(ComparisonRow(payer, code, Description(code), ranked[k].medianRate, k + 1, |ranked|,
                         lowest.medianRate, ClinicName(orgs, lowest.clinicNpi),
                         highest.medianRate, ClinicName(orgs, highest.clinicNpi)))
  }

  /** The row of a code, as a list of at most one row. */
  function CodeFn(payer: string, ms: seq<Median>, orgs: seq<NppesProvider>): string -> seq<ComparisonRow> {
    code => var row := CodeRow(payer, code, Ranked(WithCode(ms, code)), orgs);
            if row.Some? then [row.value] else []
  }

  function CodesRows(payer: string, ms: seq<Median>, codes: seq<string>, orgs: seq<NppesProvider>): seq<ComparisonRow> {
    Seqs.FlatMap(codes, CodeFn(payer, ms, orgs))
  }

  /** The rows of one payer: its medians at the clinics, code by code. */
  function PayerRows(p: PayerMedians, orgs: seq<NppesProvider>): seq<ComparisonRow> {
    var ms := AtClinics(p.medians, ClinicSet(orgs));
    CodesRows(p.payer, ms, SortedCodes(ms), orgs)
  }

  function PayerFn(orgs: seq<NppesProvider>): PayerMedians -> seq<ComparisonRow> {
    p => PayerRows(p, orgs)
  }

  function PayersRows(ps: seq<PayerMedians>, orgs: seq<NppesProvider>): seq<ComparisonRow> {
    Seqs.FlatMap(ps, PayerFn(orgs))
  }

  /** `generate_clinic_comparison`: nothing without organizations. */
  function ClinicComparison(registry: seq<NppesProvider>, byPayer: seq<PayerMedians>): seq<ComparisonRow> {
    var orgs := Organizations(registry);
    if orgs == [] then [] else PayersRows(byPayer, orgs)
  }

  method GenerateClinicComparison(registry: seq<NppesProvider>, byPayer: seq<PayerMedians>)
    returns (rows: seq<ComparisonRow>)
    ensures rows == ClinicComparison(registry, byPayer)
  {
    var orgs := Organizations(registry);
    if orgs == [] {
      return [];
    }
    var clinicSet := ClinicSet(orgs);
    rows := [];
    for i := 0 to |byPayer|
      invariant rows == PayersRows(byPayer[..i], orgs)
    {
      Seqs.FlatMapPrefix(byPayer, PayerFn(orgs), i);
      var ratesDf := AtClinics(byPayer[i].medians, clinicSet);
      if ratesDf == [] {
        continue;
      }
      var payerRows := CompareCodes(byPayer[i].payer, ratesDf, orgs);
      rows := rows + payerRows;
    }
    Seqs.FlatMapWhole(byPayer, PayerFn(orgs));
  }

  /** The inner loop of `generate_clinic_comparison`, over the codes of one
      payer's medians at the clinics. */
  method CompareCodes(payer: string, ratesDf: seq<Median>, orgs: seq<NppesProvider>) returns (rows: seq<ComparisonRow>)
    ensures rows == CodesRows(payer, ratesDf, SortedCodes(ratesDf), orgs)
  {
    var cptCodes := SortedCodes(ratesDf);
    rows := [];
    for c := 0 to |cptCodes|
      invariant rows == CodesRows(payer, ratesDf, cptCodes[..c], orgs)
    {
      Seqs.FlatMapPrefix(cptCodes, CodeFn(payer, ratesDf, orgs), c);
      var cpt := cptCodes[c];
      var row := CompareCode(payer, cpt, WithCode(ratesDf, cpt), orgs);
      if row.Some? {
        rows := rows + [row.value];
      }
    }
    Seqs.FlatMapWhole(cptCodes, CodeFn(payer, ratesDf, orgs));
  }

  /** One code of the inner loop: skipped without rows or without a row of
      the primary clinic. */
  method CompareCode(payer: string, cpt: string, cptRates: seq<Median>, orgs: seq<NppesProvider>)
    returns (row: Option<ComparisonRow>)
    ensures row == CodeRow(payer, cpt, Ranked(cptRates), orgs)
  {
    if cptRates == [] {
      return None;
    }
    var ranked := Ranked(cptRates);
    var ourRow := FirstAt(ranked, PrimaryClinicNpi);
    if ourRow.None? {
      return None;
    }
    var lowestRow, highestRow := ranked[|ranked| - 1], ranked[0];
    row := Some(ComparisonRow(payer, cpt, Description(cpt), ranked[ourRow.value].medianRate, ourRow.value + 1,
                              |ranked|, lowestRow.medianRate, ClinicName(orgs, lowestRow.clinicNpi),
                              highestRow.medianRate, ClinicName(orgs, highestRow.clinicNpi)));
  }

  function Above(x: real): Median -> bool { (m: Median) => m.medianRate > x }

  function AtLeast(x: real): Median -> bool { (m: Median) => m.medianRate >= x }

  /** In a list by descending median, whatever the order among equal
      medians, no median higher than the one at position k comes at or
      after k. */
  lemma AboveBefore(ranked: seq<Median>, k: nat)
    requires Seqs.SortedBy(ranked, MedianGe)
    requires k < |ranked|
    ensures Seqs.CountWhere(ranked, Above(ranked[k].medianRate)) <= k
  {
    var x := ranked[k].medianRate;
    var pre, post := ranked[..k], ranked[k..];
    assert ranked == pre + post;
    Seqs.CountWhereAppend(pre, post, Above(x));
    Seqs.CountWhereBound(pre, Above(x));
    forall i | 0 <= i < |post| ensures !Above(x)(post[i]) {
      assert post[i] == ranked[k + i];
      if i > 0 {
        assert MedianGe(ranked[k], ranked[k + i]);
      }
    }
    Seqs.CountWhereAllOrNone(post, Above(x));
  }

  /** ... and every median up to position k is at least the one there. */
  lemma AtLeastUpTo(ranked: seq<Median>, k: nat)
    requires Seqs.SortedBy(ranked, MedianGe)
    requires k < |ranked|
    ensures k + 1 <= Seqs.CountWhere(ranked, AtLeast(ranked[k].medianRate))
  {
    var x := ranked[k].medianRate;
    var pre, post := ranked[..k + 1], ranked[k + 1..];
    assert ranked == pre + post;
    Seqs.CountWhereAppend(pre, post, AtLeast(x));
    forall i | 0 <= i < |pre| ensures AtLeast(x)(pre[i]) {
      assert pre[i] == ranked[i];
      if i < k {
        assert MedianGe(ranked[i], ranked[k]);
      }
    }
    Seqs.CountWhereAllOrNone(pre, AtLeast(x));
  }

  /** What a comparison row says about the medians `ms` of its payer and
      code at the clinics: the number of clinics; a rank between one more
      than the number of higher medians and the number of medians not below
      ours, so 1 <= Rank <= Total Clinics; our rate is the primary clinic's
      median; Lowest and Highest are the least and greatest medians, with
      the names of clinics that have them. */
  ghost predicate RowFits(row: ComparisonRow, ms: seq<Median>, orgs: seq<NppesProvider>) {
    row.totalClinics == |ms| &&
    1 <= row.rank <= row.totalClinics &&
    Seqs.CountWhere(ms, Above(row.ourRate)) < row.rank <= Seqs.CountWhere(ms, AtLeast(row.ourRate)) &&
    (exists m :: m in ms && m.clinicNpi == PrimaryClinicNpi && m.medianRate == row.ourRate) &&
    (forall m :: m in ms ==> row.lowestRate <= m.medianRate <= row.highestRate) &&
    (exists m :: m in ms && m.medianRate == row.lowestRate && row.lowestClinic == ClinicName(orgs, m.clinicNpi)) &&
    (exists m :: m in ms && m.medianRate == row.highestRate && row.highestClinic == ClinicName(orgs, m.clinicNpi)) &&
    row.description == Description(row.cpt)
  }

  /** The descending order holds the same medians, sorted. */
  lemma RankedSpec(ms: seq<Median>)
    ensures multiset(Ranked(ms)) == multiset(ms)
    ensures Seqs.SortedBy(Ranked(ms), MedianGe)
    ensures forall m :: m in Ranked(ms) <==> m in ms
  {
    Seqs.SortBySorted(ms, MedianGe);
    forall m ensures m in Ranked(ms) <==> m in ms {
      assert m in Ranked(ms) <==> m in multiset(Ranked(ms));
      assert m in ms <==> m in multiset(ms);
    }
  }

  /** The first and last of a descending list bound all of it. */
  lemma EndsBound(ranked: seq<Median>)
    requires Seqs.SortedBy(ranked, MedianGe) && ranked != []
    ensures forall m :: m in ranked ==> ranked[|ranked| - 1].medianRate <= m.medianRate <= ranked[0].medianRate
  {
    forall m | m in ranked ensures ranked[|ranked| - 1].medianRate <= m.medianRate <= ranked[0].medianRate {
      var j :| 0 <= j < |ranked| && ranked[j] == m;
      if 0 < j { assert MedianGe(ranked[0], ranked[j]); }
      if j < |ranked| - 1 { assert MedianGe(ranked[j], ranked[|ranked| - 1]); }
    }
  }

  lemma CodeRowFits(payer: string, code: string, ms: seq<Median>, orgs: seq<NppesProvider>)
    requires CodeRow(payer, code, Ranked(ms), orgs).Some?
    ensures var row := CodeRow(payer, code, Ranked(ms), orgs).value;
      row.payer == payer && row.cpt == code && RowFits(row, ms, orgs)
  {
    var ranked := Ranked(ms);
    RankedSpec(ms);
    var k := FirstAt(ranked, PrimaryClinicNpi).value;
    var row := CodeRow(payer, code, ranked, orgs).value;
    AboveBefore(ranked, k);
    AtLeastUpTo(ranked, k);
    Seqs.CountWherePerm(ranked, ms, Above(row.ourRate));
    Seqs.CountWherePerm(ranked, ms, AtLeast(row.ourRate));
    assert ranked[k] in ranked && ranked[0] in ranked && ranked[|ranked| - 1] in ranked;
    EndsBound(ranked);
  }

  /** A code gets a row exactly when the primary clinic has a median for
      it. */
  lemma CodeRowSome(payer: string, code: string, ms: seq<Median>, orgs: seq<NppesProvider>)
    ensures CodeRow(payer, code, Ranked(ms), orgs).Some? <==> exists m :: m in ms && m.clinicNpi == PrimaryClinicNpi
  {
    var ranked := Ranked(ms);
    RankedSpec(ms);
    if exists m :: m in ms && m.clinicNpi == PrimaryClinicNpi {
      var m :| m in ms && m.clinicNpi == PrimaryClinicNpi;
      var j :| 0 <= j < |ranked| && ranked[j] == m;
    }
  }

  lemma CodeFnMember(payer: string, ms: seq<Median>, orgs: seq<NppesProvider>, code: string, row: ComparisonRow)
    ensures row in CodeFn(payer, ms, orgs)(code) <==> CodeRow(payer, code, Ranked(WithCode(ms, code)), orgs) == Some(row)
  {
  }

  lemma CodesRowsFit(payer: string, ms: seq<Median>, codes: seq<string>, orgs: seq<NppesProvider>)
    ensures forall row :: row in CodesRows(payer, ms, codes, orgs) ==>
      row.payer == payer && row.cpt in codes && RowFits(row, WithCode(ms, row.cpt), orgs)
  {
    forall row | row in CodesRows(payer, ms, codes, orgs)
      ensures row.payer == payer && row.cpt in codes && RowFits(row, WithCode(ms, row.cpt), orgs)
    {
      Seqs.FlatMapMember(codes, CodeFn(payer, ms, orgs), row);
      var i :| 0 <= i < |codes| && row in CodeFn(payer, ms, orgs)(codes[i]);
      var code := codes[i];
      CodeFnMember(payer, ms, orgs, code, row);
      CodeRowFits(payer, code, WithCode(ms, code), orgs);
    }
  }

  lemma CodesRowsCover(payer: string, ms: seq<Median>, codes: seq<string>, orgs: seq<NppesProvider>)
    ensures forall m :: m in ms && m.billingCode in codes && m.clinicNpi == PrimaryClinicNpi ==>
      Covers(CodesRows(payer, ms, codes, orgs), payer, m)
  {
    forall m | m in ms && m.billingCode in codes && m.clinicNpi == PrimaryClinicNpi
      ensures Covers(CodesRows(payer, ms, codes, orgs), payer, m)
    {
      var code := m.billingCode;
      assert m in WithCode(ms, code);
      CodeRowSome(payer, code, WithCode(ms, code), orgs);
      var row := CodeRow(payer, code, Ranked(WithCode(ms, code)), orgs).value;
      CodeRowFits(payer, code, WithCode(ms, code), orgs);
      var i :| 0 <= i < |codes| && codes[i] == code;
      CodeFnMember(payer, ms, orgs, codes[i], row);
      Seqs.FlatMapMember(codes, CodeFn(payer, ms, orgs), row);
    }
  }

  /** A row drawn from the medians of a payer in `ps`. */
  ghost predicate FromPayers(row: ComparisonRow, ps: seq<PayerMedians>, orgs: seq<NppesProvider>) {
    exists p :: p in ps && p.payer == row.payer && RowFits(row, WithCode(AtClinics(p.medians, ClinicSet(orgs)), row.cpt), orgs)
  }

  /** `rows` has a row for the payer and the code of `m`. */
  ghost predicate Covers(rows: seq<ComparisonRow>, payer: string, m: Median) {
    exists row :: row in rows && row.payer == payer && row.cpt == m.billingCode
  }

  /** The rows of one payer fit its medians at the clinics... */
  lemma PayerRowsFit(p: PayerMedians, orgs: seq<NppesProvider>)
    ensures forall row :: row in PayerRows(p, orgs) ==>
      row.payer == p.payer && RowFits(row, WithCode(AtClinics(p.medians, ClinicSet(orgs)), row.cpt), orgs)
  {
    var ms := AtClinics(p.medians, ClinicSet(orgs));
    CodesRowsFit(p.payer, ms, SortedCodes(ms), orgs);
  }

  /** ... and there is one for every code with a median of the primary
      clinic. */
  lemma PayerRowsCover(p: PayerMedians, orgs: seq<NppesProvider>)
    ensures forall m :: m in AtClinics(p.medians, ClinicSet(orgs)) && m.clinicNpi == PrimaryClinicNpi ==>
      Covers(PayerRows(p, orgs), p.payer, m)
  {
    var ms := AtClinics(p.medians, ClinicSet(orgs));
    SortedCodesSpec(ms);
    forall m | m in ms && m.clinicNpi == PrimaryClinicNpi ensures m.billingCode in SortedCodes(ms) {
    }
    CodesRowsCover(p.payer, ms, SortedCodes(ms), orgs);
  }

  lemma PayerFnMember(orgs: seq<NppesProvider>, p: PayerMedians, row: ComparisonRow)
    ensures row in PayerFn(orgs)(p) <==> row in PayerRows(p, orgs)
  {
  }

  lemma PayersRowsFrom(ps: seq<PayerMedians>, orgs: seq<NppesProvider>)
    ensures forall row :: row in PayersRows(ps, orgs) ==> FromPayers(row, ps, orgs)
  {
    forall row | row in PayersRows(ps, orgs) ensures FromPayers(row, ps, orgs) {
      Seqs.FlatMapMember(ps, PayerFn(orgs), row);
      var i :| 0 <= i < |ps| && row in PayerFn(orgs)(ps[i]);
      PayerFnMember(orgs, ps[i], row);
      PayerRowsFit(ps[i], orgs);
    }
  }

  lemma PayerCovered(ps: seq<PayerMedians>, orgs: seq<NppesProvider>, i: nat, m: Median)
    requires i < |ps| && Covers(PayerRows(ps[i], orgs), ps[i].payer, m)
    ensures Covers(PayersRows(ps, orgs), ps[i].payer, m)
  {
    var row :| row in PayerRows(ps[i], orgs) && row.payer == ps[i].payer && row.cpt == m.billingCode;
    PayerFnMember(orgs, ps[i], row);
    Seqs.FlatMapMember(ps, PayerFn(orgs), row);
  }

  lemma PayersRowsCover(ps: seq<PayerMedians>, orgs: seq<NppesProvider>)
    ensures forall p, m :: p in ps && m in AtClinics(p.medians, ClinicSet(orgs)) && m.clinicNpi == PrimaryClinicNpi ==>
      Covers(PayersRows(ps, orgs), p.payer, m)
  {
    forall p, m | p in ps && m in AtClinics(p.medians, ClinicSet(orgs)) && m.clinicNpi == PrimaryClinicNpi
      ensures Covers(PayersRows(ps, orgs), p.payer, m)
    {
      PayerRowsCover(p, orgs);
      var i :| 0 <= i < |ps| && ps[i] == p;
      PayerCovered(ps, orgs, i, m);
    }
  }

  /** Every row names a payer of the input and fits that payer's medians
      for its code at the organizations, so the primary clinic, counted
      among them, has a median for it; every payer and code with such a
      median gets a row; and without organizations there are no rows. */
  lemma ClinicComparisonSpec(registry: seq<NppesProvider>, byPayer: seq<PayerMedians>)
    ensures Organizations(registry) == [] ==> ClinicComparison(registry, byPayer) == []
    ensures forall row :: row in ClinicComparison(registry, byPayer) ==> FromPayers(row, byPayer, Organizations(registry))
    ensures var orgs := Organizations(registry);
      forall p, m :: p in byPayer && m in AtClinics(p.medians, ClinicSet(orgs)) && m.clinicNpi == PrimaryClinicNpi ==>
        Covers(ClinicComparison(registry, byPayer), p.payer, m)
  {
    var orgs := Organizations(registry);
    if orgs != [] {
      PayersRowsFrom(byPayer, orgs);
      PayersRowsCover(byPayer, orgs);
    } else {
      assert ClinicSet(orgs) == {};
    }
  }

  // ---------------------------------------------------------------------
  // The payer summary

  /** A row of the summary's median query. */
  datatype PayerCodeMedian = PayerCodeMedian(payerName: string, billingCode: string, medianRate: real)

  /** A row of the summary CSV: one cell per payer, `None` for no median. */
  datatype SummaryRow = SummaryRow(cpt: string, description: string, cells: seq<Option<real>>)

  /** `int(x) if x.isdigit() else 0`. */
  function CodeKey(code: string): nat {
    if Text.IsDigits(code) then Text.DigitsValue(code) else 0
  }

  predicate KeyLe(a: string, b: string) { CodeKey(a) <= CodeKey(b) }

  function RowCode(m: PayerCodeMedian): string { m.billingCode }

  /** The stable sort of the unique codes by their numeric key. */
  function SummaryCodes(rows: seq<PayerCodeMedian>): seq<string> {
    Seqs.SortBy(Seqs.UniqueKeys(rows, RowCode), KeyLe)
  }

  /** `payer_rate['median_rate'].values[0]`: the median of the first row for
      the code and payer, if any. */
  function Cell(rows: seq<PayerCodeMedian>, cpt: string, payer: string): (r: Option<real>)
    ensures r.None? <==> forall k :: 0 <= k < |rows| ==> !(rows[k].billingCode == cpt && rows[k].payerName == payer)
    ensures r.Some? ==>
      exists k ::
        0 <= k < |rows| && rows[k].billingCode == cpt && rows[k].payerName == payer && rows[k].medianRate == r.value &&
        forall q :: 0 <= q < k ==> !(rows[q].billingCode == cpt && rows[q].payerName == payer)
  {
    if rows == [] then None
    else if rows[0].billingCode == cpt && rows[0].payerName == payer then Some(rows[0].medianRate)
    else
      assert forall k :: 0 < k < |rows| ==> rows[k] == rows[1..][k - 1];
      Cell(rows[1..], cpt, payer)
  }

  function SummaryRowFor(payers: seq<string>, rows: seq<PayerCodeMedian>, cpt: string): SummaryRow {
    SummaryRow(cpt, Description(cpt), seq(|payers|, j requires 0 <= j < |payers| => Cell(rows, cpt, payers[j])))
  }

  /** One row of the summary: the code, its description and a cell per
      payer. */
  method SummaryRowOf(payers: seq<string>, ratesDf: seq<PayerCodeMedian>, cpt: string) returns (row: SummaryRow)
    ensures row == SummaryRowFor(payers, ratesDf, cpt)
  {
    var cells: seq<Option<real>> := [];
    for j := 0 to |payers|
      invariant cells == seq(j, q requires 0 <= q < j => Cell(ratesDf, cpt, payers[q]))
    {
      cells := cells + [Cell(ratesDf, cpt, payers[j])];
    }
    row := SummaryRow(cpt, Description(cpt), cells);
  }

  /** `generate_payer_summary`: the rows and the payer columns; both empty
      when the query returns nothing. */
  function PayerSummary(payers: seq<string>, rows: seq<PayerCodeMedian>): (seq<SummaryRow>, seq<string>) {
    if rows == [] then ([], [])
    else
      var codes := SummaryCodes(rows);
      (seq(|codes|, i requires 0 <= i < |codes| => SummaryRowFor(payers, rows, codes[i])), payers)
  }

  method GeneratePayerSummary(payers: seq<string>, ratesDf: seq<PayerCodeMedian>)
    returns (rows: seq<SummaryRow>, columns: seq<string>)
    ensures (rows, columns) == PayerSummary(payers, ratesDf)
  {
    if ratesDf == [] {
      return [], [];
    }
    var cptCodes := SummaryCodes(ratesDf);
    rows := [];
    for i := 0 to |cptCodes|
      invariant rows == seq(i, k requires 0 <= k < i => SummaryRowFor(payers, ratesDf, cptCodes[k]))
    {
      var row := SummaryRowOf(payers, ratesDf, cptCodes[i]);
      rows := rows + [row];
    }
    columns := payers;
  }

  /** The summary's codes are the query's codes, once each, in
      non-decreasing numeric key. */
  lemma SummaryCodesSpec(rows: seq<PayerCodeMedian>)
    ensures var codes := SummaryCodes(rows);
      (forall c :: c in codes <==> exists m :: m in rows && m.billingCode == c) &&
      (forall i, j :: 0 <= i < j < |codes| ==> codes[i] != codes[j]) &&
      Seqs.SortedBy(codes, KeyLe)
  {
    var u := Seqs.UniqueKeys(rows, RowCode);
    var codes := SummaryCodes(rows);
    Seqs.SortBySorted(u, KeyLe);
    forall c ensures c in codes <==> exists m :: m in rows && m.billingCode == c {
      assert c in codes <==> c in multiset(codes);
      assert c in u <==> c in multiset(u);
      assert c in u <==> exists m :: m in rows && RowCode(m) == c;
    }
    Seqs.DistinctKeysPerm(u, codes, (s: string) => s);
  }

  /** Codes with the same numeric key, such as all the codes that are not
      digits (key 0), stay in the order the query's rows first show them. */
  lemma SummaryCodesStable(rows: seq<PayerCodeMedian>, c: string)
    ensures Seqs.Filter(SummaryCodes(rows), Seqs.Tied(KeyLe, c)) == Seqs.Filter(Seqs.UniqueKeys(rows, RowCode), Seqs.Tied(KeyLe, c))
  {
    Seqs.SortByStable(Seqs.UniqueKeys(rows, RowCode), KeyLe, c);
  }

  lemma SummaryCpts(payers: seq<string>, rows: seq<PayerCodeMedian>)
    requires rows != []
    ensures |PayerSummary(payers, rows).0| == |SummaryCodes(rows)|
    ensures forall i :: 0 <= i < |SummaryCodes(rows)| ==> PayerSummary(payers, rows).0[i].cpt == SummaryCodes(rows)[i]
  {
  }

  /** The summary has a row per code of the query, each code once, in
      non-decreasing numeric key. Without rows the summary is empty, without
      columns either; otherwise the columns are the payers. */
  lemma PayerSummaryCodes(payers: seq<string>, rows: seq<PayerCodeMedian>)
    ensures var (out, columns) := PayerSummary(payers, rows);
      (rows == [] ==> out == [] && columns == []) &&
      (rows != [] ==> columns == payers) &&
      (forall i :: 0 <= i < |out| ==> exists m :: m in rows && m.billingCode == out[i].cpt) &&
      (forall m :: m in rows ==> exists i :: 0 <= i < |out| && out[i].cpt == m.billingCode) &&
      forall i, j :: 0 <= i < j < |out| ==> out[i].cpt != out[j].cpt && CodeKey(out[i].cpt) <= CodeKey(out[j].cpt)
  {
    if rows != [] {
      var codes := SummaryCodes(rows);
      SummaryCodesSpec(rows);
      var out := PayerSummary(payers, rows).0;
      SummaryCpts(payers, rows);
      forall i | 0 <= i < |out| ensures exists m :: m in rows && m.billingCode == out[i].cpt {
        assert codes[i] in codes;
      }
      forall m | m in rows ensures exists i :: 0 <= i < |out| && out[i].cpt == m.billingCode {
        assert m.billingCode in codes;
        var i :| 0 <= i < |codes| && codes[i] == m.billingCode;
      }
    }
  }

  /** Each row of the summary has its code's description and a cell per
      payer, holding the median of the query's first row for that payer and
      code, and `None` when the query has no such row. */
  lemma PayerSummaryCells(payers: seq<string>, rows: seq<PayerCodeMedian>)
    ensures var out := PayerSummary(payers, rows).0;
      forall i :: 0 <= i < |out| ==>
        out[i].description == Description(out[i].cpt) && |out[i].cells| == |payers| &&
        forall j :: 0 <= j < |payers| ==> out[i].cells[j] == Cell(rows, out[i].cpt, payers[j])
  {
  }
}
