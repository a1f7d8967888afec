/** scripts/optimized_ingest.py: ingest the BCBS Minnesota national files,
    smallest first, skipping those over 500 MB and parsing them with
    `fast_parse_mrf`, the provider-map extraction without any NPI filter. */
module OptimizedIngest {
  import opened Wrappers
  import opened Storage
  import Seqs
  import Mrf
  import Fetching
  import Toc
  import Parser
  import Ingestion
  import Coordination

  const IndexUrl := "https://mktg.bluecrossmn.com/mrf/2026/2026-01-01_Blue_Cross_and_Blue_Shield_of_Minnesota_index.json"
  const Payer := "BCBS Minnesota"
  const NoJsonMessage := "No JSON in ZIP"

  /** `MAX_FILE_SIZE_MB`; `size / 1024 / 1024 <= 500` holds exactly for
      sizes up to this many bytes. */
  const MaxFileSizeMb := 500
  const MaxFileBytes: nat := MaxFileSizeMb * 1024 * 1024

  /** Only the first 50 national files are probed. */
  const ProbeLimit := 50

  /** `fast_parse_mrf` on the loaded JSON. */
  method FastParseMrf(doc: Mrf.MrfDoc, payerName: string, source: string, cpts: set<string>)
    returns (records: seq<RateRecord>)
    ensures records == Parser.DocRecords(doc, payerName, source, cpts, None)
  {
    records := Parser.ParseMapped(doc, payerName, source, cpts, None);
  }

  /** What processing `url` would give. */
  ghost function Outcome(env: Fetching.Env, cpts: set<string>, payerName: string, url: string): Ingestion.Outcome {
    Coordination.MappedOutcome(env, Fetching.Downloaded(env, url, NoJsonMessage), payerName, url, cpts, None)
  }

  /** `process_file(db, url, payer_name)`. */
  method ProcessFile(db: RatesDatabase, env: Fetching.Env, cpts: set<string>, url: string, payerName: string)
    returns (n: int)
    modifies db`rates, db`log
    ensures (db.Snapshot(), n) == Ingestion.ProcessFile(old(db.Snapshot()), payerName, url, Outcome(env, cpts, payerName, url))
  {
    if db.IsFileIngested(url) {
      return 0;
    }
    n := Coordination.AttemptMapped(db, env, payerName, url, Fetching.Downloaded(env, url, NoJsonMessage), cpts, None);
  }

  /** The national files of an index, in the order of `get_bcbs_mn_files`. */
  function Selected(env: Fetching.Env, doc: Mrf.IndexDoc): seq<Toc.Sized> {
    var candidates := Seqs.DedupBy(Toc.Admitted(Toc.HttpAnd("National"), Toc.Listed(doc)), Toc.UrlOf);
    Toc.SortBySize(Toc.ProbedWithin(env, Seqs.PyTake(candidates, ProbeLimit), Some(MaxFileBytes)))
  }

  /** `get_bcbs_mn_files`: a failure to fetch or decode the index raises. */
  function BcbsMnFiles(env: Fetching.Env): Result<seq<Toc.Sized>, string> {
    match Fetching.IndexAt(env, IndexUrl)
    case Failure(e) => Failure(e)
    case Success(doc) => Success(Selected(env, doc))
  }

  method GetBcbsMnFiles(env: Fetching.Env) returns (r: Result<seq<Toc.Sized>, string>)
    ensures r == BcbsMnFiles(env)
  {
    var index := Fetching.IndexAt(env, IndexUrl);
    if index.Failure? {
      return Failure(index.error);
    }
    var files := Toc.CollectUnique(index.value, Toc.HttpAnd("National"));
    var sized := Toc.ProbeSizes(env, Seqs.PyTake(files, ProbeLimit), Some(MaxFileBytes));
    r := Success(Toc.SortBySize(sized));
  }

  /** The selected files: at most 50, each an `http` location whose
      description mentions "National", with a successful size probe of at
      most 500 MB, no URL twice, smallest first. */
  lemma SelectedSpec(env: Fetching.Env, doc: Mrf.IndexDoc)
    ensures var r := Selected(env, doc);
      |r| <= ProbeLimit &&
      (forall s :: s in r ==>
        s.file in Toc.Listed(doc) && Toc.Accepts(Toc.HttpAnd("National"), s.file) &&
        Toc.Probe(env, s.file.url) == Some(s.size) && s.size <= MaxFileBytes) &&
      Seqs.DistinctKeys(r, Toc.SizedUrl) &&
      (forall i, j :: 0 <= i < j < |r| ==> r[i].size <= r[j].size)
  {
    var candidates := Seqs.DedupBy(Toc.Admitted(Toc.HttpAnd("National"), Toc.Listed(doc)), Toc.UrlOf);
    Toc.CandidatesSpec(Toc.HttpAnd("National"), doc);
    var first := Seqs.PyTake(candidates, ProbeLimit);
    assert Seqs.DistinctKeys(first, Toc.UrlOf);
    Toc.SortedProbedSpec(env, first, Some(MaxFileBytes));
  }

  /** The jobs of `main`, one per selected URL. */
  ghost function Jobs(env: Fetching.Env, cpts: set<string>, urls: seq<string>): (jobs: seq<Ingestion.Job>)
    ensures |jobs| == |urls|
  {
    seq(|urls|, i requires 0 <= i < |urls| => Ingestion.Job(urls[i], Outcome(env, cpts, Payer, urls[i])))
  }

  /** The loop of `main` over the selected URLs. */
  method ProcessAll(db: RatesDatabase, env: Fetching.Env, cpts: set<string>, urls: seq<string>) returns (total: int)
    modifies db`rates, db`log
    ensures (db.Snapshot(), total) == Ingestion.RunAll(old(db.Snapshot()), Payer, Jobs(env, cpts, urls), true)
  {
    ghost var jobs := Jobs(env, cpts, urls);
    total := 0;
    for i := 0 to |urls|
      invariant (db.Snapshot(), total) == Ingestion.RunAll(old(db.Snapshot()), Payer, jobs[..i], true)
    {
      total := ProcessNext(db, env, cpts, urls, i, old(db.Snapshot()), total);
    }
    assert jobs[..|urls|] == jobs;
  }

  /** One more URL of the loop, after the first `i`. */
  method ProcessNext(db: RatesDatabase, env: Fetching.Env, cpts: set<string>, urls: seq<string>, i: nat,
                     ghost s0: Store, total: int) returns (next: int)
    requires i < |urls|
    requires (db.Snapshot(), total) == Ingestion.RunAll(s0, Payer, Jobs(env, cpts, urls)[..i], true)
    modifies db`rates, db`log
    ensures (db.Snapshot(), next) == Ingestion.RunAll(s0, Payer, Jobs(env, cpts, urls)[..i + 1], true)
  {
    ghost var jobs := Jobs(env, cpts, urls);
    ghost var s1 := db.Snapshot();
    var n := ProcessFile(db, env, cpts, urls[i], Payer);
    assert jobs[..i + 1] == jobs[..i] + [jobs[i]];
    Ingestion.RunAllNext(s0, Payer, jobs[..i], jobs[i], true, s1, total, db.Snapshot(), n);
    next := total + n;
  }

  /** `main`: a failure to get the index ends the run before anything is
      written; otherwise every selected file is processed in order under the
      skip check, and the total is the sum of the counts. */
  method Run(db: RatesDatabase, env: Fetching.Env, cpts: set<string>) returns (r: Result<int, string>)
    modifies db`rates, db`log
    ensures BcbsMnFiles(env).Failure? ==>
      r == Failure(BcbsMnFiles(env).error) && db.Snapshot() == old(db.Snapshot())
    ensures BcbsMnFiles(env).Success? ==>
      r.Success? &&
      (db.Snapshot(), r.value) ==
        Ingestion.RunAll(old(db.Snapshot()), Payer, Jobs(env, cpts, Toc.Urls(BcbsMnFiles(env).value)), true)
  {
    var files := GetBcbsMnFiles(env);
    if files.Failure? {
      return Failure(files.error);
    }
    var total := ProcessAll(db, env, cpts, Toc.Urls(files.value));
    r := Success(total);
  }
}
