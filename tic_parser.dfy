/** src/parser.py: `parse_tic_file_simple`, which extracts the rate records
    of a fully loaded in-network file, and the `TiCParser` front end that
    loads a local file and counts what it yields. The NPI filter defaults to
    the NPIs of the `nppes_providers` table, which is passed in as
    `registry`. */
module Parser {
  import opened Wrappers
  import opened Storage
  import Seqs
  import Text
  import Dates
  import Mrf
  import Fetching
  import opened Extraction

  /** `get_target_npis`: `None` when the provider table is empty, else the
      set of its NPIs. */
  function GetTargetNpis(registry: seq<NppesProvider>): (r: Option<set<string>>)
    ensures r.None? <==> registry == []
    ensures r.Some? ==> forall n :: n in r.value <==> exists i :: 0 <= i < |registry| && registry[i].npi == n
  {
    if registry == [] then None else Some(Seqs.KeysOf(registry, ProviderNpi))
  }

  /** `if target_npis is None: target_npis = get_target_npis()`. */
  function EffectiveFilter(targetNpis: Option<set<string>>, registry: seq<NppesProvider>): Option<set<string>> {
    if targetNpis.None? then GetTargetNpis(registry) else targetNpis
  }

  /** The payer (`reporting_entity_name`, or the caller's name when absent),
      the parsed `last_updated_on` and the source shared by a file's records. */
  function DocContext(doc: Mrf.MrfDoc, payerName: string, source: string): Context {
    Context(doc.reportingEntityName.GetOr(payerName), Dates.ParseLastUpdated(doc.lastUpdatedOn), source)
  }

  /** The records `parse_tic_file_simple` yields for a file under a filter. */
  ghost function DocRecords(doc: Mrf.MrfDoc, payerName: string, source: string, cpts: set<string>,
                            filter: Option<set<string>>): seq<RateRecord>
  {
    Extract(DocContext(doc, payerName, source), cpts, doc.Items(), Direct(ProviderMapOf(doc.References()), filter))
  }

  /** The body shared by `parse_tic_file_simple` and `fast_parse_mrf`: build
      the provider map, then walk the items. */
  method ParseMapped(doc: Mrf.MrfDoc, payerName: string, source: string, cpts: set<string>,
                     filter: Option<set<string>>) returns (records: seq<RateRecord>)
    ensures records == DocRecords(doc, payerName, source, cpts, filter)
  {
    var ctx := DocContext(doc, payerName, source);
    var pmap := BuildProviderMap(doc.References());
    records := EmitDirect(ctx, cpts, doc.Items(), pmap, filter);
  }

  /** `parse_tic_file_simple(data, payer_name, file_source, target_npis)`. */
  method ParseTicFileSimple(doc: Mrf.MrfDoc, payerName: string, source: string, cpts: set<string>,
                            targetNpis: Option<set<string>>, registry: seq<NppesProvider>)
    returns (records: seq<RateRecord>)
    ensures records == DocRecords(doc, payerName, source, cpts, EffectiveFilter(targetNpis, registry))
  {
    records := ParseMapped(doc, payerName, source, cpts, EffectiveFilter(targetNpis, registry));
  }

  /** Every record carries the file's payer name (its own, else the caller's),
      its date, the source and a target code. An explicit filter admits only
      its NPIs; without one, a non-empty registry admits only registered
      NPIs, and an empty registry filters nothing. */
  lemma SimpleRecordsSpec(doc: Mrf.MrfDoc, payerName: string, source: string, cpts: set<string>,
                          targetNpis: Option<set<string>>, registry: seq<NppesProvider>)
    ensures var rs := DocRecords(doc, payerName, source, cpts, EffectiveFilter(targetNpis, registry));
      forall r :: r in rs ==>
        r.payerName == doc.reportingEntityName.GetOr(payerName) &&
        r.lastUpdated == Dates.ParseLastUpdated(doc.lastUpdatedOn) &&
        r.fileSource == Some(source) && r.billingCode in cpts &&
        (targetNpis.Some? ==> r.npi in targetNpis.value) &&
        (targetNpis.None? && registry != [] ==> exists i :: 0 <= i < |registry| && registry[i].npi == r.npi)
    ensures targetNpis.None? && registry == [] ==>
      DocRecords(doc, payerName, source, cpts, EffectiveFilter(targetNpis, registry)) ==
      DocRecords(doc, payerName, source, cpts, None)
  {
    var filter := EffectiveFilter(targetNpis, registry);
    var ctx := DocContext(doc, payerName, source);
    ExtractConforms(ctx, cpts, doc.Items(), Direct(ProviderMapOf(doc.References()), filter));
  }

  /** Opening a local file: gzip when the path ends in `.gz`, then
      `json.load`. Reading the file is a parameter of the model. */
  function LoadLocal(env: Fetching.Env, read: string -> Result<Fetching.Bytes, string>, path: string)
    : Result<Mrf.MrfDoc, string>
  {
    match read(path)
    case Failure(e) => Failure(e)
    case Success(bytes) =>
      var text := if Text.EndsWith(path, ".gz") then env.gunzip(bytes) else Success(bytes);
      match text
      case Failure(e) => Failure(e)
      case Success(b) => env.loadMrf(b)
  }

  /** What `parse_file` yields, or the exception it raises before yielding. */
  ghost function LocalRecords(env: Fetching.Env, read: string -> Result<Fetching.Bytes, string>, path: string,
                              payerName: string, cpts: set<string>, registry: seq<NppesProvider>)
    : Result<seq<RateRecord>, string>
  {
    match LoadLocal(env, read, path)
    case Failure(e) => Failure(e)
    case Success(doc) => Success(DocRecords(doc, payerName, path, cpts, EffectiveFilter(None, registry)))
  }

  /** `TiCParser` and its `stats`; `records_filtered` is never incremented. */
  class TicParser {
    const payerName: string
    var filesParsed: nat
    var recordsYielded: nat
    var recordsFiltered: nat

    constructor (payerName: string)
      ensures this.payerName == payerName
      ensures filesParsed == 0 && recordsYielded == 0 && recordsFiltered == 0
    {
      this.payerName := payerName;
      filesParsed, recordsYielded, recordsFiltered := 0, 0, 0;
    }

    /** `parse_file`, consumed to the end: a file that loads counts as
        parsed and every record it yields is counted; a file that fails to
        load raises before any count changes. */
    method ParseFile(env: Fetching.Env, read: string -> Result<Fetching.Bytes, string>, path: string,
                     cpts: set<string>, registry: seq<NppesProvider>)
      returns (r: Result<seq<RateRecord>, string>)
      modifies this`filesParsed, this`recordsYielded
      ensures r == LocalRecords(env, read, path, payerName, cpts, registry)
      ensures filesParsed == old(filesParsed) + (if r.Success? then 1 else 0)
      ensures recordsYielded == old(recordsYielded) + (if r.Success? then |r.value| else 0)
    {
      var loaded := LoadLocal(env, read, path);
      if loaded.Failure? {
        return Failure(loaded.error);
      }
      filesParsed := filesParsed + 1;
      var records := ParseTicFileSimple(loaded.value, payerName, path, cpts, None, registry);
      for i := 0 to |records|
        invariant filesParsed == old(filesParsed) + 1
        invariant recordsYielded == old(recordsYielded) + i
      {
        recordsYielded := recordsYielded + 1;
      }
      r := Success(records);
    }
  }
}
