/** The attempt every map-resolving coordinator makes once it has a file's
    bytes (or the exception fetching them raised): open a `running` log
    entry, `json.loads` the bytes, run the provider-map extraction and store
    what it yields, or log the exception. The scripts differ in how they
    fetch and decompress a file and in the NPI filter they pass. */
module Coordination {
  import opened Wrappers
  import opened Storage
  import Fetching
  import Parser
  import Ingestion

  /** The outcome of a file given its bytes. */
  ghost function MappedOutcome(env: Fetching.Env, content: Result<Fetching.Bytes, string>, payerName: string,
                               source: string, cpts: set<string>, filter: Option<set<string>>): Ingestion.Outcome
  {
    match content
    case Failure(e) => Failure(e)
    case Success(bytes) =>
      match env.loadMrf(bytes)
      case Failure(e) => Failure(e)
      case Success(doc) => Success(Parser.DocRecords(doc, payerName, source, cpts, filter))
  }

  /** Every record a file yields carries the source it was fetched under and
      a target code, and its NPI is one the filter admits. */
  lemma MappedRecords(env: Fetching.Env, content: Result<Fetching.Bytes, string>, payerName: string,
                      source: string, cpts: set<string>, filter: Option<set<string>>)
    ensures forall r :: r in Ingestion.RecordsOf(MappedOutcome(env, content, payerName, source, cpts, filter)) ==>
      r.fileSource == Some(source) && r.billingCode in cpts && (filter.Some? ==> r.npi in filter.value)
  {
    if content.Success? && env.loadMrf(content.value).Success? {
      Parser.SimpleRecordsSpec(env.loadMrf(content.value).value, payerName, source, cpts, filter, []);
    }
  }

  /** The `try` block of the coordinators' `process_file`, with its
      `except Exception` branch. */
  method AttemptMapped(db: RatesDatabase, env: Fetching.Env, payerName: string, url: string,
                       content: Result<Fetching.Bytes, string>, cpts: set<string>, filter: Option<set<string>>)
    returns (n: int)
    modifies db`rates, db`log
    ensures (db.Snapshot(), n) ==
      Ingestion.Attempt(old(db.Snapshot()), payerName, url, MappedOutcome(env, content, payerName, url, cpts, filter))
  {
    var id := db.LogIngestionStart(payerName, url);
    if content.Failure? {
      db.LogIngestionError(id, content.error);
      return 0;
    }
    var doc := env.loadMrf(content.value);
    if doc.Failure? {
      db.LogIngestionError(id, doc.error);
      return 0;
    }
    var records := Parser.ParseMapped(doc.value, payerName, url, cpts, filter);
    n := Ingestion.Conclude(db, id, records);
  }
}
