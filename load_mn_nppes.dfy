/** scripts/load_mn_nppes.py: page the NPI Registry API by the configured
    ZIP prefixes and the two physical-therapy taxonomies, keep each NPI's
    first record, and replace the `nppes_providers` table with them. */
module LoadMnNppes {
  import opened Wrappers
  import opened Storage
  import Seqs
  import Nppes

  /** `DEFAULT_MN_ZIPS`. */
  const DefaultMnZips: seq<string> := [
    "550", "551", "553", "554", "556", "557", "558", "559",
    "560", "561", "562", "563", "564", "565", "566", "567"]

  /** `TAXONOMIES`: code and the description it is queried by. */
  const Taxonomies: seq<(string, string)> := [
    ("225100000X", "Physical Therapist"),
    ("225200000X", "Physical Therapy Assistant")]

  /** The state recorded for a result without a location state. */
  const DefaultState := "MN"

  /** `get_zip_prefixes`; `userConfig` is the `zip_prefixes` entry of
      `user_config.json` (empty when the key is absent), or `None` when the
      file does not exist. */
  function GetZipPrefixes(userConfig: Option<seq<string>>): (r: seq<string>)
    ensures userConfig.Some? && userConfig.value != [] ==> r == userConfig.value
    ensures userConfig.None? || userConfig.value == [] ==> r == DefaultMnZips
    ensures r != []
  {
    match userConfig
    case Some(zips) => if zips != [] then zips else DefaultMnZips
    case None => DefaultMnZips
  }

  /** The prefixes `fetch_all` queries: the ones passed in, else those of
      `get_zip_prefixes`. */
  function QueriedPrefixes(zipPrefixes: Option<seq<string>>, userConfig: Option<seq<string>>): seq<string> {
    match zipPrefixes
    case Some(zips) => zips
    case None => GetZipPrefixes(userConfig)
  }

  /** The records `fetch_all` returns: no status check, so an error reply
      with a JSON body is read like any other, and an empty NPI is kept like
      any other key of the `providers` dict. */
  ghost function Fetched(reg: Nppes.Registry, zipPrefixes: Option<seq<string>>, userConfig: Option<seq<string>>)
    : seq<NppesProvider>
    requires Nppes.Finite(reg)
  {
    Nppes.Collected(Nppes.AllResults(reg, Taxonomies, QueriedPrefixes(zipPrefixes, userConfig), false), false, DefaultState)
  }

  /** `fetch_all`: the loops over the taxonomies, the prefixes and the
      pages fill the dict keyed by NPI; its values come out in insertion
      order. */
  method FetchAll(reg: Nppes.Registry, zipPrefixes: Option<seq<string>>, userConfig: Option<seq<string>>)
    returns (providers: seq<NppesProvider>)
    requires Nppes.Finite(reg)
    ensures providers == Fetched(reg, zipPrefixes, userConfig)
  {
    var prefixes: seq<string>;
    if zipPrefixes.None? {
      prefixes := GetZipPrefixes(userConfig);
    } else {
      prefixes := zipPrefixes.value;
    }
    providers := Nppes.FetchAllTaxonomies(reg, Taxonomies, prefixes, DefaultState, false, false);
  }

  /** Each NPI of any result is returned exactly once, the empty one
      included, with the record of its first result. */
  lemma FetchedSpec(reg: Nppes.Registry, zipPrefixes: Option<seq<string>>, userConfig: Option<seq<string>>)
    requires Nppes.Finite(reg)
    ensures Seqs.DistinctKeys(Fetched(reg, zipPrefixes, userConfig), ProviderNpi)
    ensures var all := Nppes.AllResults(reg, Taxonomies, QueriedPrefixes(zipPrefixes, userConfig), false);
      Nppes.NpisOf(Fetched(reg, zipPrefixes, userConfig)) == set k | 0 <= k < |all| :: Nppes.NumberOf(all[k])
    ensures forall i :: 0 <= i < |Fetched(reg, zipPrefixes, userConfig)| ==>
      Nppes.FromFirst(Nppes.AllResults(reg, Taxonomies, QueriedPrefixes(zipPrefixes, userConfig), false),
                      Fetched(reg, zipPrefixes, userConfig)[i], DefaultState)
  {
    var all := Nppes.AllResults(reg, Taxonomies, QueriedPrefixes(zipPrefixes, userConfig), false);
    Nppes.CollectedDistinct(all, false, DefaultState);
    Nppes.CollectedNpis(all, false, DefaultState);
    Nppes.CollectedFirst(all, false, DefaultState);
  }

  /** Both loaders query the same taxonomies by the same descriptions. */
  lemma SameTaxonomies()
    ensures Taxonomies == Nppes.QueriedTaxonomies(Nppes.PtCodes)
  {
  }

  /** `load_to_db`: the table is emptied and all records inserted in one
      `executemany`. */
  method LoadToDb(db: RatesDatabase, providers: seq<NppesProvider>)
    requires Seqs.DistinctKeys(providers, ProviderNpi)
    modifies db`providers
    ensures db.providers == providers
  {
    db.ReplaceProviders(providers, if |providers| == 0 then 1 else |providers|);
  }

  /** The script run: fetch, then load; the table ends as the fetched
      records, which the key on `npi` accepts since no NPI repeats. */
  method Run(db: RatesDatabase, reg: Nppes.Registry, zipPrefixes: Option<seq<string>>, userConfig: Option<seq<string>>)
    requires Nppes.Finite(reg)
    modifies db`providers
    ensures db.providers == Fetched(reg, zipPrefixes, userConfig)
  {
    var providers := FetchAll(reg, zipPrefixes, userConfig);
    FetchedSpec(reg, zipPrefixes, userConfig);
    LoadToDb(db, providers);
  }
}
