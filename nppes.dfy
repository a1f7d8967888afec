/** src/nppes.py: the provider registry. Rows of the bulk NPPES CSV are
    filtered to a state and the physical-therapy taxonomies; the NPI
    Registry API is paged by ZIP prefix and taxonomy, each NPI kept once;
    the result replaces the `nppes_providers` table. The registry API
    types and the paging are shared with scripts/load_mn_nppes.py. */
module Nppes {
  import opened Wrappers
  import opened Storage
  import Text
  import Seqs

  /** `PT_TAXONOMY_CODES`: a taxonomy code and its description. */
  const PtTaxonomyCodes: seq<(string, string)> := [
    ("225100000X", "Physical Therapist"),
    ("225200000X", "Physical Therapy Assistant")]

  /** `list(PT_TAXONOMY_CODES.keys())`. */
  const PtCodes: seq<string> := ["225100000X", "225200000X"]

  /** The ZIP prefixes of Minnesota that the API is queried by. */
  const MnZipPrefixes: seq<string> := [
    "550", "551", "553", "554", "556", "557", "558", "559",
    "560", "561", "562", "563", "564", "565", "566", "567"]

  /** Results per page: the `limit` of each query. */
  const Limit: nat := 200

  const ApiVersion := "2.1"

  // ---------------------------------------------------------------------
  // The bulk CSV

  /** A row of `csv.DictReader`: column name to value. */
  type CsvRow = map<string, string>

  /** `row.get(column, "")`. */
  function Get(row: CsvRow, column: string): string {
    if column in row then row[column] else ""
  }

  const StateColumn := "Provider Business Practice Location Address State Name"
  const NpiColumn := "NPI"
  const EntityTypeColumn := "Entity Type Code"
  const FirstNameColumn := "Provider First Name"
  const LastNameColumn := "Provider Last Name (Legal Name)"
  const OrganizationColumn := "Provider Organization Name (Legal Business Name)"
  const AddressColumn := "Provider First Line Business Practice Location Address"
  const CityColumn := "Provider Business Practice Location Address City Name"
  const PostalCodeColumn := "Provider Business Practice Location Address Postal Code"
  const PhoneColumn := "Provider Business Practice Location Address Telephone Number"

  function TaxonomyColumn(i: nat): string {
    "Healthcare Provider Taxonomy Code_" + Text.NatToString(i)
  }

  /** The first of the taxonomy columns `i`..15 whose code is a target. */
  function FirstTaxonomy(row: CsvRow, targets: seq<string>, i: nat): (r: Option<string>)
    ensures r.Some? ==> r.value in targets
    ensures r.Some? ==>
      exists k ::
        i <= k <= 15 && Get(row, TaxonomyColumn(k)) == r.value &&
        forall j :: i <= j < k ==> Get(row, TaxonomyColumn(j)) !in targets
    ensures r.None? ==> forall k :: i <= k <= 15 ==> Get(row, TaxonomyColumn(k)) !in targets
    decreases 16 - i
  {
    if i > 15 then None
    else
      var code := Get(row, TaxonomyColumn(i));
      if code in targets then Some(code) else FirstTaxonomy(row, targets, i + 1)
  }

  /** The loop over the 15 taxonomy columns, stopping at the first match. */
  method FindTaxonomy(row: CsvRow, targets: seq<string>) returns (code: Option<string>)
    ensures code == FirstTaxonomy(row, targets, 1)
  {
    var i := 1;
    while i < 16
      invariant 1 <= i <= 16
      invariant FirstTaxonomy(row, targets, 1) == FirstTaxonomy(row, targets, i)
    {
      var taxCode := Get(row, TaxonomyColumn(i));
      if taxCode in targets {
        return Some(taxCode);
      }
      i := i + 1;
    }
    return None;
  }

  /** The provider a row gives, if it is accepted: its state must be a
      target, one of its taxonomy columns must hold a target code, and its
      NPI must not be empty. */
  function AcceptRow(row: CsvRow, states: seq<string>, taxonomies: seq<string>): Option<NppesProvider> {
    var state := Get(row, StateColumn);
    if state !in states then None
    else
      match FirstTaxonomy(row, taxonomies, 1)
      case None => None
      case Some(code) =>
        var npi := Get(row, NpiColumn);
        if npi == "" then None
        else
          var individual := Get(row, EntityTypeColumn) == "1";
          var name := if individual then Text.Strip(Get(row, FirstNameColumn) + " " + Get(row, LastNameColumn))
                      else Get(row, OrganizationColumn);
          Some(NppesProvider(npi, name, if individual then "Individual" else "Organization",
                             code, Seqs.Lookup(PtTaxonomyCodes, code, ""),
                             Get(row, AddressColumn), Get(row, CityColumn), state,
                             Text.Take(Get(row, PostalCodeColumn), 5), Get(row, PhoneColumn)))
  }

  /** A row is accepted exactly when its state is a target, some taxonomy
      column holds a target code and its NPI is not empty; the provider then
      has that state, the first matching code, the row's NPI, a ZIP of at
      most five characters, and its name and type from the entity type. */
  lemma AcceptRowSpec(row: CsvRow, states: seq<string>, taxonomies: seq<string>)
    ensures var r := AcceptRow(row, states, taxonomies);
      (r.Some? <==> Get(row, StateColumn) in states && Get(row, NpiColumn) != "" &&
                    exists k :: 1 <= k <= 15 && Get(row, TaxonomyColumn(k)) in taxonomies) &&
      (r.Some? ==>
        r.value.npi == Get(row, NpiColumn) && r.value.state == Get(row, StateColumn) &&
        Some(r.value.taxonomyCode) == FirstTaxonomy(row, taxonomies, 1) && r.value.taxonomyCode in taxonomies &&
        |r.value.zip| <= 5 && Text.StartsWith(Get(row, PostalCodeColumn), r.value.zip) &&
        (Get(row, EntityTypeColumn) == "1" ==>
          r.value.providerType == "Individual" &&
          r.value.providerName == Text.Strip(Get(row, FirstNameColumn) + " " + Get(row, LastNameColumn))) &&
        (Get(row, EntityTypeColumn) != "1" ==>
          r.value.providerType == "Organization" && r.value.providerName == Get(row, OrganizationColumn)))
  {
    var t := FirstTaxonomy(row, taxonomies, 1);
    if t.Some? {
      var k :| 1 <= k <= 15 && Get(row, TaxonomyColumn(k)) == t.value &&
        forall j :: 1 <= j < k ==> Get(row, TaxonomyColumn(j)) !in taxonomies;
    }
  }

  /** The provider a row gives, as a list of at most one. */
  function RowProviders(row: CsvRow, states: seq<string>, taxonomies: seq<string>): seq<NppesProvider> {
    match AcceptRow(row, states, taxonomies)
    case Some(p) => [p]
    case None => []
  }

  function RowFn(states: seq<string>, taxonomies: seq<string>): CsvRow -> seq<NppesProvider> {
    row => RowProviders(row, states, taxonomies)
  }

  /** The providers of the accepted rows, in row order. */
  function Extracted(rows: seq<CsvRow>, states: seq<string>, taxonomies: seq<string>): seq<NppesProvider> {
    Seqs.FlatMap(rows, RowFn(states, taxonomies))
  }

  /** No more providers than rows. */
  lemma ExtractedBound(rows: seq<CsvRow>, states: seq<string>, taxonomies: seq<string>)
    ensures |Extracted(rows, states, taxonomies)| <= |rows|
  {
    forall i | 0 <= i < |rows| ensures |RowFn(states, taxonomies)(rows[i])| <= 1 {
    }
    Seqs.FlatMapBound(rows, RowFn(states, taxonomies));
  }

  /** A provider is extracted exactly when some row gives it: no accepted
      row is dropped and nothing is invented. */
  lemma ExtractedMember(rows: seq<CsvRow>, states: seq<string>, taxonomies: seq<string>, p: NppesProvider)
    ensures p in Extracted(rows, states, taxonomies) <==>
      exists i :: 0 <= i < |rows| && AcceptRow(rows[i], states, taxonomies) == Some(p)
  {
    Seqs.FlatMapMember(rows, RowFn(states, taxonomies), p);
    forall i | 0 <= i < |rows|
      ensures p in RowFn(states, taxonomies)(rows[i]) <==> AcceptRow(rows[i], states, taxonomies) == Some(p)
    {
    }
  }

  /** `target_states or ["MN"]`. */
  function StatesOrDefault(states: seq<string>): seq<string> {
    if states == [] then ["MN"] else states
  }

  /** `target_taxonomies or list(PT_TAXONOMY_CODES.keys())`. */
  function TaxonomiesOrDefault(taxonomies: seq<string>): seq<string> {
    if taxonomies == [] then PtCodes else taxonomies
  }

  predicate IsNpiData(name: string) {
    Text.EndsWith(name, ".csv") && Text.Contains(Text.Lower(name), "npidata")
  }

  /** The first member of the archive that is an `npidata` CSV. */
  function NpiDataCsv(names: seq<string>): (r: Option<string>)
    ensures r.Some? ==>
      exists i :: 0 <= i < |names| && names[i] == r.value && IsNpiData(r.value) &&
        forall j :: 0 <= j < i ==> !IsNpiData(names[j])
    ensures r.None? ==> forall n :: n in names ==> !IsNpiData(n)
  {
    if names == [] then None
    else if IsNpiData(names[0]) then Some(names[0])
    else
      var r := NpiDataCsv(names[1..]);
      assert forall i :: 0 < i < |names| ==> names[i] == names[1..][i - 1];
      if r.Some? then
        var i :| 0 <= i < |names[1..]| && names[1..][i] == r.value && IsNpiData(r.value) &&
          forall j :: 0 <= j < i ==> !IsNpiData(names[1..][j]);
        assert names[i + 1] == r.value;
        r
      else r
  }

  /** The loop over the rows of the CSV. */
  method ExtractRows(rows: seq<CsvRow>, states: seq<string>, taxonomies: seq<string>)
    returns (providers: seq<NppesProvider>)
    ensures providers == Extracted(rows, states, taxonomies)
  {
    providers := [];
    for k := 0 to |rows|
      invariant providers == Extracted(rows[..k], states, taxonomies)
    {
      Seqs.FlatMapPrefix(rows, RowFn(states, taxonomies), k);
      var row := rows[k];
      var state := Get(row, StateColumn);
      if state !in states {
        continue;
      }
      var taxonomyCode := FindTaxonomy(row, taxonomies);
      if taxonomyCode.None? {
        continue;
      }
      var npi := Get(row, NpiColumn);
      if npi == "" {
        continue;
      }
      var entityType := Get(row, EntityTypeColumn);
      var name;
      if entityType == "1" {
        name := Text.Strip(Get(row, FirstNameColumn) + " " + Get(row, LastNameColumn));
      } else {
        name := Get(row, OrganizationColumn);
      }
      providers := providers + [NppesProvider(npi, name, if entityType == "1" then "Individual" else "Organization",
                                              taxonomyCode.value, Seqs.Lookup(PtTaxonomyCodes, taxonomyCode.value, ""),
                                              Get(row, AddressColumn), Get(row, CityColumn), state,
                                              Text.Take(Get(row, PostalCodeColumn), 5), Get(row, PhoneColumn))];
    }
    Seqs.FlatMapWhole(rows, RowFn(states, taxonomies));
  }

  /** `extract_mn_pt_providers`, given the member names of the archive and
      the rows each CSV member reads as: an archive without an `npidata` CSV
      raises. */
  method ExtractMnPtProviders(names: seq<string>, rowsOf: string -> seq<CsvRow>,
                              targetStates: seq<string>, targetTaxonomies: seq<string>)
    returns (r: Result<seq<NppesProvider>, string>)
    ensures NpiDataCsv(names).None? <==> r.Failure?
    ensures r.Success? ==>
      r.value == Extracted(rowsOf(NpiDataCsv(names).value), StatesOrDefault(targetStates), TaxonomiesOrDefault(targetTaxonomies))
  {
    var states := StatesOrDefault(targetStates);
    var taxonomies := TaxonomiesOrDefault(targetTaxonomies);
    var csvFile := NpiDataCsv(names);
    if csvFile.None? {
      return Failure("No NPI data CSV found in ZIP file");
    }
    var providers := ExtractRows(rowsOf(csvFile.value), states, taxonomies);
    r := Success(providers);
  }

  // ---------------------------------------------------------------------
  // The NPI Registry API

  datatype Basic = Basic(firstName: Option<string>, lastName: Option<string>, organizationName: Option<string>)

  datatype Address = Address(addressPurpose: Option<string>, address1: Option<string>, city: Option<string>,
                             state: Option<string>, postalCode: Option<string>, telephoneNumber: Option<string>)

  /** A taxonomy of a result; `primary` is whether the flag is present and
      true. */
  datatype Taxonomy = Taxonomy(code: Option<string>, desc: Option<string>, primary: bool)

  /** One entry of a page's `results`. */
  datatype ApiResult = ApiResult(number: Option<string>, enumerationType: Option<string>, basic: Option<Basic>,
                                 addresses: Option<seq<Address>>, taxonomies: Option<seq<Taxonomy>>)

  /** The body of a response, when it is JSON. */
  datatype ApiBody = ApiBody(results: Option<seq<ApiResult>>)

  datatype ApiResponse = ApiResponse(status: int, body: Result<ApiBody, string>)

  datatype ApiQuery = ApiQuery(version: string, postalCode: string, taxonomyDescription: string, limit: nat, skip: nat)

  /** The registry as seen through the API: the outcome of each query (a
      failed request is a `Failure`), and a size past which no query
      returns a full page — the registry holds finitely many providers. */
  datatype Registry = Registry(get: ApiQuery -> Result<ApiResponse, string>, size: nat)

  /** A reply that ends the paging whatever the script checks. */
  predicate Sparse(reply: Result<ApiResponse, string>) {
    reply.Failure? || reply.value.body.Failure? || |reply.value.body.value.results.GetOr([])| < Limit
  }

  ghost predicate Finite(reg: Registry) {
    forall q: ApiQuery :: q.skip >= reg.size ==> Sparse(reg.get(q))
  }

  function Query(postal: string, desc: string, skip: nat): ApiQuery {
    ApiQuery(ApiVersion, postal, desc, Limit, skip)
  }

  /** The results of a reply, or `None` when the paging loop breaks on it: a
      failed request, a body that is not JSON, and, when the script calls
      `raise_for_status`, a status outside 2xx. */
  function PageOf(reply: Result<ApiResponse, string>, checkStatus: bool): (r: Option<seq<ApiResult>>)
    ensures r.Some? && |r.value| >= Limit ==> !Sparse(reply)
  {
    match reply
    case Failure(_) => None
    case Success(resp) =>
      if checkStatus && !(200 <= resp.status < 300) then None
      else
        match resp.body
        case Failure(_) => None
        case Success(b) => Some(b.results.GetOr([]))
  }

  /** The pages one ZIP prefix and taxonomy yield from `skip` on: paging
      stops at a reply it breaks on, an empty page, or a page of fewer than
      `Limit` results, after that page. */
  function Pages(reg: Registry, postal: string, desc: string, skip: nat, checkStatus: bool): seq<seq<ApiResult>>
    requires Finite(reg)
    decreases reg.size + Limit - skip
  {
    match PageOf(reg.get(Query(postal, desc, skip)), checkStatus)
    case None => []
    case Some(results) =>
      if results == [] then []
      else if |results| < Limit then [results]
      else
        assert skip < reg.size;
        [results] + Pages(reg, postal, desc, skip + Limit, checkStatus)
  }

  /** Page k is the reply to the query whose `skip` is advanced by k
      pages, and no page is empty. */
  lemma {:induction false} PagesReplies(reg: Registry, postal: string, desc: string, skip: nat, checkStatus: bool)
    requires Finite(reg)
    ensures forall k :: 0 <= k < |Pages(reg, postal, desc, skip, checkStatus)| ==>
      PageOf(reg.get(Query(postal, desc, skip + k * Limit)), checkStatus) == Some(Pages(reg, postal, desc, skip, checkStatus)[k]) &&
      Pages(reg, postal, desc, skip, checkStatus)[k] != []
    decreases reg.size + Limit - skip
  {
    var ps := Pages(reg, postal, desc, skip, checkStatus);
    var page := PageOf(reg.get(Query(postal, desc, skip)), checkStatus);
    if page.Some? && page.value != [] && |page.value| >= Limit {
      assert skip < reg.size;
      PagesReplies(reg, postal, desc, skip + Limit, checkStatus);
      var rest := Pages(reg, postal, desc, skip + Limit, checkStatus);
      assert ps == [page.value] + rest;
      forall k | 1 <= k < |ps|
        ensures PageOf(reg.get(Query(postal, desc, skip + k * Limit)), checkStatus) == Some(ps[k]) && ps[k] != []
      {
        assert ps[k] == rest[k - 1];
        assert skip + k * Limit == skip + Limit + (k - 1) * Limit;
        assert PageOf(reg.get(Query(postal, desc, skip + Limit + (k - 1) * Limit)), checkStatus) == Some(rest[k - 1]);
      }
    }
  }

  /** Every page but the last is a full page. */
  lemma {:induction false} PagesFull(reg: Registry, postal: string, desc: string, skip: nat, checkStatus: bool)
    requires Finite(reg)
    ensures forall k :: 0 <= k < |Pages(reg, postal, desc, skip, checkStatus)| - 1 ==>
      |Pages(reg, postal, desc, skip, checkStatus)[k]| >= Limit
    decreases reg.size + Limit - skip
  {
    var page := PageOf(reg.get(Query(postal, desc, skip)), checkStatus);
    if page.Some? && page.value != [] && |page.value| >= Limit {
      assert skip < reg.size;
      PagesFull(reg, postal, desc, skip + Limit, checkStatus);
      var rest := Pages(reg, postal, desc, skip + Limit, checkStatus);
      var ps := Pages(reg, postal, desc, skip, checkStatus);
      assert ps == [page.value] + rest;
      forall k | 0 <= k < |ps| - 1 ensures |ps[k]| >= Limit {
        if k > 0 {
          assert ps[k] == rest[k - 1];
          assert |rest[k - 1]| >= Limit;
        }
      }
    }
  }

  /** A reply the paging loop stops at without a page. */
  predicate Ended(page: Option<seq<ApiResult>>) { page.None? || page == Some([]) }

  /** No pages, or a full last page. */
  predicate NoShortLast(ps: seq<seq<ApiResult>>) { ps == [] || |ps[|ps| - 1]| >= Limit }

  /** The paging ends on a short page or, when the last page is full or
      there is none, with a query after it that the loop breaks on or that
      returns no results. */
  lemma {:induction false} PagesEnd(reg: Registry, postal: string, desc: string, skip: nat, checkStatus: bool)
    requires Finite(reg)
    ensures NoShortLast(Pages(reg, postal, desc, skip, checkStatus)) ==>
      Ended(PageOf(reg.get(Query(postal, desc, skip + |Pages(reg, postal, desc, skip, checkStatus)| * Limit)), checkStatus))
    decreases reg.size + Limit - skip
  {
    var page := PageOf(reg.get(Query(postal, desc, skip)), checkStatus);
    if page.Some? && page.value != [] && |page.value| >= Limit {
      assert skip < reg.size;
      PagesEnd(reg, postal, desc, skip + Limit, checkStatus);
      var rest := Pages(reg, postal, desc, skip + Limit, checkStatus);
      var ps := Pages(reg, postal, desc, skip, checkStatus);
      assert ps == [page.value] + rest;
      assert skip + |ps| * Limit == skip + Limit + |rest| * Limit;
      if rest != [] {
        assert ps[|ps| - 1] == rest[|rest| - 1];
      }
    }
  }

  /** A result tagged with the taxonomy code it was queried for. */
  type Tagged = (ApiResult, string)

  function Tag(results: seq<ApiResult>, code: string): (r: seq<Tagged>)
    ensures |r| == |results| && forall i :: 0 <= i < |r| ==> r[i] == (results[i], code)
  {
    seq(|results|, i requires 0 <= i < |results| => (results[i], code))
  }

  lemma TagAppend(a: seq<ApiResult>, b: seq<ApiResult>, code: string)
    ensures Tag(a + b, code) == Tag(a, code) + Tag(b, code)
  {
  }

  /** The results of one taxonomy `(code, description)` over the ZIP
      prefixes, prefix by prefix, page by page. */
  function TaxonomyResults(reg: Registry, taxonomy: (string, string), prefixes: seq<string>, checkStatus: bool): seq<Tagged>
    requires Finite(reg)
  {
    if prefixes == [] then []
    else
      TaxonomyResults(reg, taxonomy, prefixes[..|prefixes| - 1], checkStatus) +
      PrefixResults(reg, taxonomy, prefixes[|prefixes| - 1], checkStatus)
  }

  /** The results of one taxonomy and ZIP prefix: the query is for the
      prefix followed by `*` and the taxonomy's description. */
  function PrefixResults(reg: Registry, taxonomy: (string, string), prefix: string, checkStatus: bool): seq<Tagged>
    requires Finite(reg)
  {
    Tag(Seqs.Flatten(Pages(reg, prefix + "*", taxonomy.1, 0, checkStatus)), taxonomy.0)
  }

  lemma TaxonomyResultsPrefix(reg: Registry, taxonomy: (string, string), prefixes: seq<string>, z: nat, checkStatus: bool,
                               done: seq<Tagged>)
    requires Finite(reg) && z < |prefixes|
    ensures done + TaxonomyResults(reg, taxonomy, prefixes[..z + 1], checkStatus) ==
      (done + TaxonomyResults(reg, taxonomy, prefixes[..z], checkStatus)) + PrefixResults(reg, taxonomy, prefixes[z], checkStatus)
  {
    assert prefixes[..z + 1][..z] == prefixes[..z];
  }

  /** The results of all queries, taxonomy by taxonomy. */
  function AllResults(reg: Registry, taxonomies: seq<(string, string)>, prefixes: seq<string>, checkStatus: bool): seq<Tagged>
    requires Finite(reg)
  {
    if taxonomies == [] then []
    else
      AllResults(reg, taxonomies[..|taxonomies| - 1], prefixes, checkStatus) +
      TaxonomyResults(reg, taxonomies[|taxonomies| - 1], prefixes, checkStatus)
  }

  /** `r.get("number", "")`. */
  function NumberOf(t: Tagged): string { t.0.number.GetOr("") }

  /** Whether a result's NPI is collected at all: src/nppes.py drops empty
      NPIs, scripts/load_mn_nppes.py does not. */
  predicate Kept(t: Tagged, dropEmpty: bool) { !(dropEmpty && NumberOf(t) == "") }

  /** `next((t for t in taxonomies if t.get("primary")), taxonomies[0] if
      taxonomies else {})`: `None` stands for `{}`. */
  function PrimaryTaxonomy(taxes: seq<Taxonomy>): (r: Option<Taxonomy>)
    ensures r.None? <==> taxes == []
    ensures (exists i :: 0 <= i < |taxes| && taxes[i].primary) ==>
      exists i :: 0 <= i < |taxes| && taxes[i].primary && r == Some(taxes[i]) && forall j :: 0 <= j < i ==> !taxes[j].primary
    ensures taxes != [] && (forall i :: 0 <= i < |taxes| ==> !taxes[i].primary) ==> r == Some(taxes[0])
  {
    match FirstPrimary(taxes)
    case Some(t) => Some(t)
    case None => if taxes == [] then None else Some(taxes[0])
  }

  function FirstPrimary(taxes: seq<Taxonomy>): (r: Option<Taxonomy>)
    ensures r.None? <==> forall i :: 0 <= i < |taxes| ==> !taxes[i].primary
    ensures r.Some? ==>
      exists i :: 0 <= i < |taxes| && taxes[i].primary && r == Some(taxes[i]) && forall j :: 0 <= j < i ==> !taxes[j].primary
  {
    if taxes == [] then None
    else if taxes[0].primary then Some(taxes[0])
    else
      var r := FirstPrimary(taxes[1..]);
      assert forall i :: 0 < i < |taxes| ==> taxes[i] == taxes[1..][i - 1];
      if r.Some? then
        var i :| 0 <= i < |taxes[1..]| && taxes[1..][i].primary && r == Some(taxes[1..][i]) &&
          forall j :: 0 <= j < i ==> !taxes[1..][j].primary;
        assert taxes[i + 1] == taxes[1..][i];
        r
      else r
  }

  /** `next((a for a in addresses if a.get("address_purpose") ==
      "LOCATION"), {})`. */
  function LocationAddress(addresses: seq<Address>): (r: Option<Address>)
    ensures r.Some? ==> r.value in addresses && r.value.addressPurpose == Some("LOCATION")
    ensures r.None? ==> forall a :: a in addresses ==> a.addressPurpose != Some("LOCATION")
  {
    if addresses == [] then None
    else if addresses[0].addressPurpose == Some("LOCATION") then Some(addresses[0])
    else LocationAddress(addresses[1..])
  }

  /** The provider row of a result: `state` and `taxonomy` are the defaults
      for a missing location state and a missing primary taxonomy code. */
  function ApiProvider(r: ApiResult, npi: string, taxonomy: string, state: string): (p: NppesProvider)
    ensures p.npi == npi && |p.zip| <= 5
    ensures r.enumerationType == Some("NPI-1") <==> p.providerType == "Individual"
    ensures r.enumerationType != Some("NPI-1") <==> p.providerType == "Organization"
  {
    var basic := r.basic.GetOr(Basic(None, None, None));
    var individual := r.enumerationType == Some("NPI-1");
    var name := if individual then Text.Strip(basic.firstName.GetOr("") + " " + basic.lastName.GetOr(""))
                else basic.organizationName.GetOr("");
    var loc := LocationAddress(r.addresses.GetOr([])).GetOr(Address(None, None, None, None, None, None));
    var tax := PrimaryTaxonomy(r.taxonomies.GetOr([])).GetOr(Taxonomy(None, None, false));
    NppesProvider(npi, name, if individual then "Individual" else "Organization",
                  tax.code.GetOr(taxonomy), tax.desc.GetOr(""),
                  loc.address1.GetOr(""), loc.city.GetOr(""), loc.state.GetOr(state),
                  Text.Take(loc.postalCode.GetOr(""), 5), loc.telephoneNumber.GetOr(""))
  }

  /** The defaults of a provider row: a result without a location address
      or without its fields gets the default state and empty address
      fields, and an empty ZIP when it has no postal code; without a primary
      taxonomy code the queried code is recorded. */
  lemma ApiProviderSpec(r: ApiResult, npi: string, taxonomy: string, state: string)
    ensures var p := ApiProvider(r, npi, taxonomy, state);
      var loc := LocationAddress(r.addresses.GetOr([]));
      var tax := PrimaryTaxonomy(r.taxonomies.GetOr([]));
      (loc.None? ==> p.state == state && p.city == "" && p.addressLine1 == "" && p.zip == "" && p.phone == "") &&
      (loc.Some? ==>
        p.state == loc.value.state.GetOr(state) &&
        (loc.value.postalCode.None? ==> p.zip == "") &&
        (loc.value.postalCode.Some? ==> Text.StartsWith(loc.value.postalCode.value, p.zip))) &&
      (tax.None? || tax.value.code.None? ==> p.taxonomyCode == taxonomy) &&
      (tax.Some? && tax.value.code.Some? ==> p.taxonomyCode == tax.value.code.value)
  {
  }

  function NpisOf(providers: seq<NppesProvider>): set<string> {
    Seqs.KeysOf(providers, ProviderNpi)
  }

  /** The providers collected from the tagged results in order: a result
      whose NPI was already collected, or, when `dropEmpty`, is empty, adds
      nothing. */
  function Collected(tagged: seq<Tagged>, dropEmpty: bool, state: string): seq<NppesProvider> {
    if tagged == [] then []
    else Step(Collected(tagged[..|tagged| - 1], dropEmpty, state), tagged[|tagged| - 1], dropEmpty, state)
  }

  /** One result of the loop over a page. */
  function Step(prev: seq<NppesProvider>, t: Tagged, dropEmpty: bool, state: string): seq<NppesProvider> {
    if !Kept(t, dropEmpty) || NumberOf(t) in NpisOf(prev) then prev
    else prev + [ApiProvider(t.0, NumberOf(t), t.1, state)]
  }

  lemma CollectedSnoc(tagged: seq<Tagged>, t: Tagged, dropEmpty: bool, state: string)
    ensures Collected(tagged + [t], dropEmpty, state) == Step(Collected(tagged, dropEmpty, state), t, dropEmpty, state)
  {
    assert (tagged + [t])[..|tagged|] == tagged;
  }

  /** The NPIs of the kept results. */
  function KeptNpis(tagged: seq<Tagged>, dropEmpty: bool): set<string> {
    set k | 0 <= k < |tagged| && Kept(tagged[k], dropEmpty) :: NumberOf(tagged[k])
  }

  lemma KeptNpisSnoc(tagged: seq<Tagged>, dropEmpty: bool)
    requires tagged != []
    ensures KeptNpis(tagged, dropEmpty) ==
      KeptNpis(tagged[..|tagged| - 1], dropEmpty) +
        (if Kept(tagged[|tagged| - 1], dropEmpty) then {NumberOf(tagged[|tagged| - 1])} else {})
  {
    var init, t := tagged[..|tagged| - 1], tagged[|tagged| - 1];
    assert forall k :: 0 <= k < |init| ==> init[k] == tagged[k];
    var extra: set<string> := if Kept(t, dropEmpty) then {NumberOf(t)} else {};
    forall n | n in KeptNpis(tagged, dropEmpty) ensures n in KeptNpis(init, dropEmpty) + extra {
      var k :| 0 <= k < |tagged| && Kept(tagged[k], dropEmpty) && NumberOf(tagged[k]) == n;
      if k < |init| {
        assert Kept(init[k], dropEmpty) && NumberOf(init[k]) == n;
      }
    }
  }

  /** The collected NPIs are exactly those of the kept results. */
  lemma {:induction false} CollectedNpis(tagged: seq<Tagged>, dropEmpty: bool, state: string)
    ensures NpisOf(Collected(tagged, dropEmpty, state)) == KeptNpis(tagged, dropEmpty)
  {
    if tagged != [] {
      var init, t := tagged[..|tagged| - 1], tagged[|tagged| - 1];
      CollectedNpis(init, dropEmpty, state);
      KeptNpisSnoc(tagged, dropEmpty);
      var prev := Collected(init, dropEmpty, state);
      if Kept(t, dropEmpty) && NumberOf(t) !in NpisOf(prev) {
        Seqs.KeysOfSnoc(prev, ApiProvider(t.0, NumberOf(t), t.1, state), ProviderNpi);
      }
    }
  }

  /** With `dropEmpty`, no provider has an empty NPI. */
  lemma CollectedNonEmpty(tagged: seq<Tagged>, state: string)
    ensures forall p :: p in Collected(tagged, true, state) ==> p.npi != ""
  {
    CollectedNpis(tagged, true, state);
    forall p | p in Collected(tagged, true, state) ensures p.npi != "" {
      assert ProviderNpi(p) in NpisOf(Collected(tagged, true, state));
    }
  }

  /** No NPI is collected twice. */
  lemma {:induction false} CollectedDistinct(tagged: seq<Tagged>, dropEmpty: bool, state: string)
    ensures Seqs.DistinctKeys(Collected(tagged, dropEmpty, state), ProviderNpi)
  {
    if tagged != [] {
      var init, t := tagged[..|tagged| - 1], tagged[|tagged| - 1];
      CollectedDistinct(init, dropEmpty, state);
      var prev := Collected(init, dropEmpty, state);
      if Kept(t, dropEmpty) && NumberOf(t) !in NpisOf(prev) {
        var out := prev + [ApiProvider(t.0, NumberOf(t), t.1, state)];
        forall i, j | 0 <= i < j < |out| ensures out[i].npi != out[j].npi {
          assert out[i] == prev[i];
          if j == |prev| {
            assert ProviderNpi(prev[i]) in NpisOf(prev);
          } else {
            assert out[j] == prev[j];
          }
        }
      }
    }
  }

  /** `p` is the provider row of the first result with its NPI. */
  ghost predicate FromFirst(tagged: seq<Tagged>, p: NppesProvider, state: string) {
    exists k ::
      0 <= k < |tagged| && p == ApiProvider(tagged[k].0, NumberOf(tagged[k]), tagged[k].1, state) &&
      forall j :: 0 <= j < k ==> NumberOf(tagged[j]) != p.npi
  }

  /** Each provider is the row of the first result that has its NPI: a
      later result with the same NPI, under another taxonomy or ZIP prefix,
      changes nothing. */
  lemma {:induction false} CollectedFirst(tagged: seq<Tagged>, dropEmpty: bool, state: string)
    ensures forall i :: 0 <= i < |Collected(tagged, dropEmpty, state)| ==>
      FromFirst(tagged, Collected(tagged, dropEmpty, state)[i], state)
  {
    if tagged != [] {
      var init, t := tagged[..|tagged| - 1], tagged[|tagged| - 1];
      CollectedFirst(init, dropEmpty, state);
      assert forall k :: 0 <= k < |init| ==> init[k] == tagged[k];
      var prev := Collected(init, dropEmpty, state);
      var out := Collected(tagged, dropEmpty, state);
      forall i | 0 <= i < |prev| ensures FromFirst(tagged, prev[i], state) {
        assert FromFirst(init, prev[i], state);
      }
      if Kept(t, dropEmpty) && NumberOf(t) !in NpisOf(prev) {
        var p := ApiProvider(t.0, NumberOf(t), t.1, state);
        CollectedNpis(init, dropEmpty, state);
        forall j | 0 <= j < |init| ensures NumberOf(tagged[j]) != p.npi {
          if NumberOf(tagged[j]) == p.npi {
            assert Kept(init[j], dropEmpty);
          }
        }
        assert FromFirst(tagged, out[|prev|], state) by {
          assert out[|prev|] == ApiProvider(tagged[|init|].0, NumberOf(tagged[|init|]), tagged[|init|].1, state);
        }
        assert forall i :: 0 <= i < |prev| ==> out[i] == prev[i];
      }
    }
  }

  /** The body of the loop over a page's results. */
  method AddResult(r: ApiResult, taxonomy: string, state: string, dropEmpty: bool,
                   providers: seq<NppesProvider>, seen: set<string>)
    returns (providers': seq<NppesProvider>, seen': set<string>)
    requires seen == NpisOf(providers)
    ensures providers' == Step(providers, (r, taxonomy), dropEmpty, state) && seen' == NpisOf(providers')
  {
    var npi := r.number.GetOr("");
    if (dropEmpty && npi == "") || npi in seen {
      return providers, seen;
    }
    var p := ApiProvider(r, npi, taxonomy, state);
    Seqs.KeysOfSnoc(providers, p, ProviderNpi);
    providers', seen' := providers + [p], seen + {npi};
  }

  lemma TagPrefix(done: seq<Tagged>, results: seq<ApiResult>, taxonomy: string, i: nat)
    requires i < |results|
    ensures done + Tag(results[..i + 1], taxonomy) == (done + Tag(results[..i], taxonomy)) + [(results[i], taxonomy)]
  {
    assert results[..i + 1] == results[..i] + [results[i]];
    TagAppend(results[..i], [results[i]], taxonomy);
  }

  /** The loop over one page's results. */
  method AddResults(results: seq<ApiResult>, taxonomy: string, state: string, dropEmpty: bool,
                    providers: seq<NppesProvider>, seen: set<string>, ghost done: seq<Tagged>)
    returns (providers': seq<NppesProvider>, seen': set<string>)
    requires providers == Collected(done, dropEmpty, state) && seen == NpisOf(providers)
    ensures providers' == Collected(done + Tag(results, taxonomy), dropEmpty, state) && seen' == NpisOf(providers')
  {
    providers', seen' := providers, seen;
    assert done + Tag(results[..0], taxonomy) == done;
    for i := 0 to |results|
      invariant providers' == Collected(done + Tag(results[..i], taxonomy), dropEmpty, state) && seen' == NpisOf(providers')
    {
      TagPrefix(done, results, taxonomy, i);
      CollectedSnoc(done + Tag(results[..i], taxonomy), (results[i], taxonomy), dropEmpty, state);
      providers', seen' := AddResult(results[i], taxonomy, state, dropEmpty, providers', seen');
    }
    assert results[..|results|] == results;
  }

  /** The pages from `skip` on, once the reply to that query is known. */
  lemma PagesUnfold(reg: Registry, postal: string, desc: string, skip: nat, checkStatus: bool)
    requires Finite(reg)
    ensures var page := PageOf(reg.get(Query(postal, desc, skip)), checkStatus);
      (Ended(page) ==> Pages(reg, postal, desc, skip, checkStatus) == []) &&
      (page.Some? && 0 < |page.value| < Limit ==> Pages(reg, postal, desc, skip, checkStatus) == [page.value]) &&
      (page.Some? && |page.value| >= Limit ==>
        skip < reg.size &&
        Pages(reg, postal, desc, skip, checkStatus) == [page.value] + Pages(reg, postal, desc, skip + Limit, checkStatus))
  {
  }

  lemma ConsumePage(done: seq<Tagged>, consumed: seq<seq<ApiResult>>, page: seq<ApiResult>, taxonomy: string)
    ensures done + Tag(Seqs.Flatten(consumed + [page]), taxonomy) == (done + Tag(Seqs.Flatten(consumed), taxonomy)) + Tag(page, taxonomy)
  {
    FlattenSnoc(consumed, page);
    TagAppend(Seqs.Flatten(consumed), page, taxonomy);
  }

  /** One request of the paging loop, and the results it adds. */
  method FetchPage(reg: Registry, postal: string, desc: string, skip: nat, taxonomy: string, state: string,
                   checkStatus: bool, dropEmpty: bool,
                   providers: seq<NppesProvider>, seen: set<string>, ghost before: seq<Tagged>)
    returns (results: Option<seq<ApiResult>>, providers': seq<NppesProvider>, seen': set<string>)
    requires providers == Collected(before, dropEmpty, state) && seen == NpisOf(providers)
    ensures results == PageOf(reg.get(Query(postal, desc, skip)), checkStatus)
    ensures providers' == Collected(before + Tag(results.GetOr([]), taxonomy), dropEmpty, state)
    ensures seen' == NpisOf(providers')
  {
    var reply := reg.get(Query(postal, desc, skip));
    results := PageOf(reply, checkStatus);
    providers', seen' := AddResults(results.GetOr([]), taxonomy, state, dropEmpty, providers, seen, before);
  }

  /** What the reply at `skip` does to the pages still to come. */
  lemma PagesAdvance(reg: Registry, postal: string, desc: string, skip: nat, checkStatus: bool,
                     consumed: seq<seq<ApiResult>>)
    requires Finite(reg)
    requires Pages(reg, postal, desc, 0, checkStatus) == consumed + Pages(reg, postal, desc, skip, checkStatus)
    ensures Ended(PageOf(reg.get(Query(postal, desc, skip)), checkStatus)) ==>
      Pages(reg, postal, desc, 0, checkStatus) == consumed
    ensures !Ended(PageOf(reg.get(Query(postal, desc, skip)), checkStatus)) ==>
      var page := PageOf(reg.get(Query(postal, desc, skip)), checkStatus).value;
      (|page| < Limit ==> Pages(reg, postal, desc, 0, checkStatus) == consumed + [page]) &&
      (|page| >= Limit ==>
        skip < reg.size && Pages(reg, postal, desc, 0, checkStatus) == (consumed + [page]) + Pages(reg, postal, desc, skip + Limit, checkStatus))
  {
    PagesUnfold(reg, postal, desc, skip, checkStatus);
    assert consumed + [] == consumed;
  }

  /** One pass of the paging loop: a request, its results added, and
      whether the loop stops after it. */
  method PrefixStep(reg: Registry, postal: string, desc: string, taxonomy: string, state: string,
                    checkStatus: bool, dropEmpty: bool, skip: nat,
                    providers: seq<NppesProvider>, seen: set<string>, ghost done: seq<Tagged>,
                    ghost consumed: seq<seq<ApiResult>>)
    returns (stop: bool, providers': seq<NppesProvider>, seen': set<string>, ghost consumed': seq<seq<ApiResult>>)
    requires providers == Collected(done + Tag(Seqs.Flatten(consumed), taxonomy), dropEmpty, state)
    requires seen == NpisOf(providers)
    ensures providers' == Collected(done + Tag(Seqs.Flatten(consumed'), taxonomy), dropEmpty, state)
    ensures seen' == NpisOf(providers')
    ensures var page := PageOf(reg.get(Query(postal, desc, skip)), checkStatus);
      (stop <==> Ended(page) || |page.value| < Limit) &&
      consumed' == if Ended(page) then consumed else consumed + [page.value]
  {
    var results;
    ghost var before := done + Tag(Seqs.Flatten(consumed), taxonomy);
    results, providers', seen' := FetchPage(reg, postal, desc, skip, taxonomy, state, checkStatus, dropEmpty,
                                            providers, seen, before);
    if results.None? || results.value == [] {
      assert before + Tag([], taxonomy) == before;
      return true, providers', seen', consumed;
    }
    ConsumePage(done, consumed, results.value, taxonomy);
    consumed' := consumed + [results.value];
    stop := |results.value| < Limit;
  }

  /** The `while True` loop of one ZIP prefix and taxonomy. */
  method FetchPrefix(reg: Registry, taxonomy: (string, string), prefix: string, state: string,
                     checkStatus: bool, dropEmpty: bool,
                     providers: seq<NppesProvider>, seen: set<string>, ghost done: seq<Tagged>)
    returns (providers': seq<NppesProvider>, seen': set<string>)
    requires Finite(reg)
    requires providers == Collected(done, dropEmpty, state) && seen == NpisOf(providers)
    ensures providers' == Collected(done + PrefixResults(reg, taxonomy, prefix, checkStatus), dropEmpty, state)
    ensures seen' == NpisOf(providers')
  {
    var postal, desc, code := prefix + "*", taxonomy.1, taxonomy.0;
    providers', seen' := providers, seen;
    var skip: nat := 0;
    ghost var consumed: seq<seq<ApiResult>> := [];
    assert done + Tag(Seqs.Flatten(consumed), code) == done;
    while true
      invariant Pages(reg, postal, desc, 0, checkStatus) == consumed + Pages(reg, postal, desc, skip, checkStatus)
      invariant providers' == Collected(done + Tag(Seqs.Flatten(consumed), code), dropEmpty, state)
      invariant seen' == NpisOf(providers')
      decreases reg.size + Limit - skip
    {
      var stop;
      stop, providers', seen', consumed := PrefixPass(reg, postal, desc, code, state, checkStatus, dropEmpty, skip,
                                                      providers', seen', done, consumed);
      if stop {
        break;
      }
      skip := skip + Limit;
    }
  }

  /** A pass of the paging loop on the specification: the pages consumed
      so far and those still to come make up all pages of the query. */
  method PrefixPass(reg: Registry, postal: string, desc: string, taxonomy: string, state: string,
                    checkStatus: bool, dropEmpty: bool, skip: nat,
                    providers: seq<NppesProvider>, seen: set<string>, ghost done: seq<Tagged>,
                    ghost consumed: seq<seq<ApiResult>>)
    returns (stop: bool, providers': seq<NppesProvider>, seen': set<string>, ghost consumed': seq<seq<ApiResult>>)
    requires Finite(reg)
    requires Pages(reg, postal, desc, 0, checkStatus) == consumed + Pages(reg, postal, desc, skip, checkStatus)
    requires providers == Collected(done + Tag(Seqs.Flatten(consumed), taxonomy), dropEmpty, state)
    requires seen == NpisOf(providers)
    ensures providers' == Collected(done + Tag(Seqs.Flatten(consumed'), taxonomy), dropEmpty, state)
    ensures seen' == NpisOf(providers')
    ensures stop ==> Pages(reg, postal, desc, 0, checkStatus) == consumed'
    ensures !stop ==> skip < reg.size
    ensures !stop ==>
      Pages(reg, postal, desc, 0, checkStatus) == consumed' + Pages(reg, postal, desc, skip + Limit, checkStatus)
  {
    PagesAdvance(reg, postal, desc, skip, checkStatus, consumed);
    stop, providers', seen', consumed' := PrefixStep(reg, postal, desc, taxonomy, state, checkStatus, dropEmpty, skip,
                                                     providers, seen, done, consumed);
  }

  lemma FlattenSnoc(xss: seq<seq<ApiResult>>, xs: seq<ApiResult>)
    ensures Seqs.Flatten(xss + [xs]) == Seqs.Flatten(xss) + xs
  {
    assert (xss + [xs])[..|xss|] == xss;
  }

  /** The loop over the ZIP prefixes of one taxonomy. */
  method FetchTaxonomy(reg: Registry, taxonomy: (string, string), prefixes: seq<string>, state: string,
                       checkStatus: bool, dropEmpty: bool,
                       providers: seq<NppesProvider>, seen: set<string>, ghost done: seq<Tagged>)
    returns (providers': seq<NppesProvider>, seen': set<string>)
    requires Finite(reg)
    requires providers == Collected(done, dropEmpty, state) && seen == NpisOf(providers)
    ensures providers' == Collected(done + TaxonomyResults(reg, taxonomy, prefixes, checkStatus), dropEmpty, state)
    ensures seen' == NpisOf(providers')
  {
    providers', seen' := providers, seen;
    assert done + TaxonomyResults(reg, taxonomy, prefixes[..0], checkStatus) == done;
    for z := 0 to |prefixes|
      invariant providers' == Collected(done + TaxonomyResults(reg, taxonomy, prefixes[..z], checkStatus), dropEmpty, state)
      invariant seen' == NpisOf(providers')
    {
      TaxonomyResultsPrefix(reg, taxonomy, prefixes, z, checkStatus, done);
      providers', seen' := FetchPrefix(reg, taxonomy, prefixes[z], state, checkStatus, dropEmpty,
                                       providers', seen', done + TaxonomyResults(reg, taxonomy, prefixes[..z], checkStatus));
    }
    assert prefixes[..|prefixes|] == prefixes;
  }

  /** The loops over the taxonomies and the ZIP prefixes, from an empty
      collection. */
  method FetchAllTaxonomies(reg: Registry, taxonomies: seq<(string, string)>, prefixes: seq<string>, state: string,
                            checkStatus: bool, dropEmpty: bool)
    returns (providers: seq<NppesProvider>)
    requires Finite(reg)
    ensures providers == Collected(AllResults(reg, taxonomies, prefixes, checkStatus), dropEmpty, state)
  {
    providers := [];
    var seen: set<string> := {};
    for t := 0 to |taxonomies|
      invariant providers == Collected(AllResults(reg, taxonomies[..t], prefixes, checkStatus), dropEmpty, state)
      invariant seen == NpisOf(providers)
    {
      assert taxonomies[..t + 1][..t] == taxonomies[..t];
      providers, seen := FetchTaxonomy(reg, taxonomies[t], prefixes, state, checkStatus, dropEmpty, providers, seen,
                                       AllResults(reg, taxonomies[..t], prefixes, checkStatus));
    }
    assert taxonomies[..|taxonomies|] == taxonomies;
  }

  /** `PT_TAXONOMY_CODES.get(taxonomy, "Physical Therapist")`, with its
      code. */
  function QueriedTaxonomies(codes: seq<string>): (r: seq<(string, string)>)
    ensures |r| == |codes| && forall i :: 0 <= i < |codes| ==> r[i].0 == codes[i]
  {
    seq(|codes|, i requires 0 <= i < |codes| => (codes[i], Seqs.Lookup(PtTaxonomyCodes, codes[i], "Physical Therapist")))
  }

  /** `fetch_providers_via_api`: the query never filters by state, which
      is only the default for a result without one; a failed or non-2xx
      reply ends the paging of that prefix; empty NPIs are dropped. */
  method FetchProvidersViaApi(reg: Registry, state: string, taxonomyCodes: seq<string>)
    returns (providers: seq<NppesProvider>)
    requires Finite(reg)
    ensures providers ==
      Collected(AllResults(reg, QueriedTaxonomies(TaxonomiesOrDefault(taxonomyCodes)), MnZipPrefixes, true), true, state)
  {
    var codes := TaxonomiesOrDefault(taxonomyCodes);
    providers := FetchAllTaxonomies(reg, QueriedTaxonomies(codes), MnZipPrefixes, state, true, true);
  }

  /** `load_providers_to_db`: the table is emptied and refilled in batches
      of 5000; the table's key on `npi` demands distinct NPIs. */
  method LoadProvidersToDb(db: RatesDatabase, providers: seq<NppesProvider>)
    requires Seqs.DistinctKeys(providers, ProviderNpi)
    modifies db`providers
    ensures db.providers == providers
  {
    db.ReplaceProviders(providers, 5000);
  }

  // ---------------------------------------------------------------------
  // setup_nppes, API path

  /** The providers `fetch_providers_via_api(state=state)` collects: the
      queries are the same for every state, which only fills in a missing
      location state. */
  ghost function StateProviders(reg: Registry, state: string): seq<NppesProvider>
    requires Finite(reg)
  {
    Collected(AllResults(reg, QueriedTaxonomies(PtCodes), MnZipPrefixes, true), true, state)
  }

  /** `all_providers` as written: the lists of the states, one after
      another. */
  ghost function SetupApiProviders(reg: Registry, states: seq<string>): seq<NppesProvider>
    requires Finite(reg)
  {
    if states == [] then []
    else SetupApiProviders(reg, states[..|states| - 1]) + StateProviders(reg, states[|states| - 1])
  }

  /** Whatever the state, the same NPIs are collected. */
  lemma StateNpisAgree(reg: Registry, s1: string, s2: string)
    requires Finite(reg)
    ensures NpisOf(StateProviders(reg, s1)) == NpisOf(StateProviders(reg, s2))
  {
    var all := AllResults(reg, QueriedTaxonomies(PtCodes), MnZipPrefixes, true);
    CollectedNpis(all, true, s1);
    CollectedNpis(all, true, s2);
  }

  /** As written, two states and any provider found give the same NPI
      twice in `all_providers`, which the key on `npi` of the table
      rejects when they are inserted. */
  lemma SetupRepeatsNpis(reg: Registry, s1: string, s2: string)
    requires Finite(reg) && StateProviders(reg, s1) != []
    ensures !Seqs.DistinctKeys(SetupApiProviders(reg, [s1, s2]), ProviderNpi)
  {
    var a, b := StateProviders(reg, s1), StateProviders(reg, s2);
    assert [s1, s2][..1] == [s1] && [s1][..0] == [];
    assert SetupApiProviders(reg, [s1]) == SetupApiProviders(reg, []) + a;
    assert SetupApiProviders(reg, [s1, s2]) == SetupApiProviders(reg, [s1]) + b;
    StateNpisAgree(reg, s1, s2);
    assert ProviderNpi(a[0]) in NpisOf(a);
    var j :| 0 <= j < |b| && ProviderNpi(b[j]) == a[0].npi;
    var all := SetupApiProviders(reg, [s1, s2]);
    assert all[0] == a[0] && all[|a| + j] == b[j];
    assert ProviderNpi(all[0]) == ProviderNpi(all[|a| + j]);
  }

  /** The intended provider list: each NPI once, from the first state it
      was collected for. */
  ghost function SetupProviders(reg: Registry, states: seq<string>): seq<NppesProvider>
    requires Finite(reg)
  {
    Seqs.DedupBy(SetupApiProviders(reg, StatesOrDefault(states)), ProviderNpi)
  }

  /** The intended list can be loaded: no NPI repeats, and it holds every
      NPI collected for any state. */
  lemma SetupProvidersSpec(reg: Registry, states: seq<string>)
    requires Finite(reg)
    ensures Seqs.DistinctKeys(SetupProviders(reg, states), ProviderNpi)
    ensures NpisOf(SetupProviders(reg, states)) == NpisOf(SetupApiProviders(reg, StatesOrDefault(states)))
    ensures forall p :: p in SetupProviders(reg, states) ==> p in SetupApiProviders(reg, StatesOrDefault(states))
  {
    Seqs.DedupBySpec(SetupApiProviders(reg, StatesOrDefault(states)), ProviderNpi);
    Seqs.DedupByMember(SetupApiProviders(reg, StatesOrDefault(states)), ProviderNpi);
  }

  /** For a single state nothing repeats, so removing repeated NPIs leaves
      the list `setup_nppes` builds as written. */
  lemma SetupSingleState(reg: Registry, s: string)
    requires Finite(reg)
    ensures SetupProviders(reg, [s]) == SetupApiProviders(reg, [s])
  {
    assert [s][..0] == [];
    assert SetupApiProviders(reg, [s]) == StateProviders(reg, s);
    CollectedDistinct(AllResults(reg, QueriedTaxonomies(PtCodes), MnZipPrefixes, true), true, s);
    Seqs.DedupByDistinct(StateProviders(reg, s), ProviderNpi);
  }

  /** Keep the first provider of each NPI. */
  method DedupProviders(ps: seq<NppesProvider>) returns (unique: seq<NppesProvider>)
    ensures unique == Seqs.DedupBy(ps, ProviderNpi)
  {
    var seen: set<string> := {};
    unique := [];
    for i := 0 to |ps|
      invariant unique == Seqs.DedupBy(ps[..i], ProviderNpi)
      invariant seen == NpisOf(ps[..i])
    {
      var p := ps[i];
      assert ps[..i + 1] == ps[..i] + [p];
      Seqs.KeysOfSnoc(ps[..i], p, ProviderNpi);
      if p.npi !in seen {
        seen := seen + {p.npi};
        unique := unique + [p];
      }
    }
    assert ps[..|ps|] == ps;
  }

  /** `setup_nppes(states, use_api=True)` with the repeated NPIs removed
      before loading; it returns the number of providers loaded. */
  method SetupNppesApi(db: RatesDatabase, reg: Registry, states: seq<string>) returns (n: nat)
    requires Finite(reg)
    modifies db`providers
    ensures db.providers == SetupProviders(reg, states) && n == |db.providers|
  {
    var targets := StatesOrDefault(states);
    var allProviders: seq<NppesProvider> := [];
    for i := 0 to |targets|
      invariant allProviders == SetupApiProviders(reg, targets[..i])
    {
      assert targets[..i + 1][..i] == targets[..i];
      var providers := FetchProvidersViaApi(reg, targets[i], []);
      allProviders := allProviders + providers;
    }
    assert targets[..|targets|] == targets;
    var unique := DedupProviders(allProviders);
    SetupProvidersSpec(reg, states);
    LoadProvidersToDb(db, unique);
    n := |unique|;
  }

  /** `get_mn_npi_set`: the NPIs of the provider table. */
  function GetMnNpiSet(db: RatesDatabase): (r: set<string>)
    reads db
    ensures forall npi :: npi in r <==> exists i :: 0 <= i < |db.providers| && db.providers[i].npi == npi
  {
    set i | 0 <= i < |db.providers| :: db.providers[i].npi
  }
}
