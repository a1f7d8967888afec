/** scripts/full_ingest.py: ingest the six HealthPartners network archives
    that answer a HEAD request with 200, then up to 20 BCBS Minnesota
    national files, smallest first. Files are parsed with
    `parse_tic_file_simple`, filtered by the NPIs of the provider table. */
module FullIngest {
  import opened Wrappers
  import opened Storage
  import Text
  import Seqs
  import Mrf
  import Fetching
  import Toc
  import Parser
  import Ingestion
  import Coordination

  const NoJsonMessage := "No JSON file in ZIP"
  const HpPayer := "HealthPartners"
  const BcbsPayer := "BCBS Minnesota"
  const BcbsIndexUrl := "https://mktg.bluecrossmn.com/mrf/2026/2026-01-01_Blue_Cross_and_Blue_Shield_of_Minnesota_index.json"
  const HpBaseUrl := "https://mrfproddestinationdata.blob.core.windows.net/mrf-output"

  /** The HealthPartners networks: display name and file prefix. */
  const HpNetworks: seq<(string, string)> := [
    ("HP-Select", "HealthPartners_HP-Select"),
    ("Open-Access+Simplica", "HealthPartners_Open-Access+Simplica"),
    ("Cornerstone", "HealthPartners_Cornerstone"),
    ("Achieve-Large-Employer", "HealthPartners_Achieve-Large-Employer"),
    ("Achieve-Small-Employer+Peak", "HealthPartners_Achieve-Small-Employer+Peak"),
    ("State-of-MN", "HealthPartners_State-of-MN")]

  /** Only the first 30 national files are probed, and `main` ingests 20. */
  const ProbeLimit := 30
  const MainMaxFiles := 20

  function HpUrl(prefix: string): string {
    HpBaseUrl + "/2026-01-01_" + prefix + "_in-network-rates.zip"
  }

  /** What processing `url` would give: the filter is the provider table's. */
  ghost function Outcome(env: Fetching.Env, cpts: set<string>, registry: seq<NppesProvider>,
                         payerName: string, url: string): Ingestion.Outcome
  {
    Coordination.MappedOutcome(env, Fetching.Downloaded(env, url, NoJsonMessage), payerName, url, cpts,
                               Parser.EffectiveFilter(None, registry))
  }

  /** `process_file(db, url, payer_name)`. */
  method ProcessFile(db: RatesDatabase, env: Fetching.Env, cpts: set<string>, url: string, payerName: string)
    returns (n: int)
    modifies db`rates, db`log
    ensures (db.Snapshot(), n) ==
      Ingestion.ProcessFile(old(db.Snapshot()), payerName, url, Outcome(env, cpts, db.providers, payerName, url))
  {
    if db.IsFileIngested(url) {
      return 0;
    }
    n := Coordination.AttemptMapped(db, env, payerName, url, Fetching.Downloaded(env, url, NoJsonMessage), cpts,
                                    Parser.EffectiveFilter(None, db.providers));
  }

  ghost function Jobs(env: Fetching.Env, cpts: set<string>, registry: seq<NppesProvider>, payerName: string,
                      urls: seq<string>): (jobs: seq<Ingestion.Job>)
    ensures |jobs| == |urls|
  {
    seq(|urls|, i requires 0 <= i < |urls| => Ingestion.Job(urls[i], Outcome(env, cpts, registry, payerName, urls[i])))
  }

  lemma JobsSnoc(env: Fetching.Env, cpts: set<string>, registry: seq<NppesProvider>, payerName: string,
                  urls: seq<string>, url: string)
    ensures Jobs(env, cpts, registry, payerName, urls + [url]) ==
      Jobs(env, cpts, registry, payerName, urls) + [Ingestion.Job(url, Outcome(env, cpts, registry, payerName, url))]
  {
  }

  /** One more file of a coordinator loop: processing `url` after the files
      `done` is running all of them. */
  method ProcessNext(db: RatesDatabase, env: Fetching.Env, cpts: set<string>, payerName: string,
                     ghost s0: Store, ghost done: seq<string>, url: string, total: int) returns (next: int)
    requires (db.Snapshot(), total) == Ingestion.RunAll(s0, payerName, Jobs(env, cpts, db.providers, payerName, done), true)
    modifies db`rates, db`log
    ensures (db.Snapshot(), next) ==
      Ingestion.RunAll(s0, payerName, Jobs(env, cpts, db.providers, payerName, done + [url]), true)
  {
    ghost var job := Ingestion.Job(url, Outcome(env, cpts, db.providers, payerName, url));
    JobsSnoc(env, cpts, db.providers, payerName, done, url);
    ghost var s1 := db.Snapshot();
    var n := ProcessFile(db, env, cpts, url, payerName);
    Ingestion.RunAllNext(s0, payerName, Jobs(env, cpts, db.providers, payerName, done), job, true, s1, total, db.Snapshot(), n);
    next := total + n;
  }

  /** The HEAD check: only a completed request with status 200 lets the
      archive through. */
  predicate HpFound(env: Fetching.Env, url: string) {
    env.head(url).Success? && env.head(url).value.status == 200
  }

  /** The archive URLs that pass the HEAD check, in network order. */
  function HpUrls(env: Fetching.Env, networks: seq<(string, string)>): seq<string> {
    if networks == [] then []
    else
      var url := HpUrl(networks[|networks| - 1].1);
      HpUrls(env, networks[..|networks| - 1]) + (if HpFound(env, url) then [url] else [])
  }

  /** `ingest_healthpartners`. */
  method IngestHealthPartners(db: RatesDatabase, env: Fetching.Env, cpts: set<string>) returns (total: int)
    modifies db`rates, db`log
    ensures (db.Snapshot(), total) ==
      Ingestion.RunAll(old(db.Snapshot()), HpPayer, Jobs(env, cpts, db.providers, HpPayer, HpUrls(env, HpNetworks)), true)
  {
    total := 0;
    for i := 0 to |HpNetworks|
      invariant (db.Snapshot(), total) ==
        Ingestion.RunAll(old(db.Snapshot()), HpPayer, Jobs(env, cpts, db.providers, HpPayer, HpUrls(env, HpNetworks[..i])), true)
    {
      assert HpNetworks[..i + 1][..i] == HpNetworks[..i];
      var url := HpUrl(HpNetworks[i].1);
      ghost var before := HpUrls(env, HpNetworks[..i]);
      if !HpFound(env, url) {
        assert HpUrls(env, HpNetworks[..i + 1]) == before + [] == before;
        continue;
      }
      assert HpUrls(env, HpNetworks[..i + 1]) == before + [url];
      total := ProcessNext(db, env, cpts, HpPayer, old(db.Snapshot()), before, url, total);
    }
    assert HpNetworks[..|HpNetworks|] == HpNetworks;
  }

  /** The files `ingest_bcbs_mn` goes through for an index: the `http`
      locations without repeats, then those whose description mentions
      "National", the first 30 of them probed (a failed probe drops the
      file), sorted by size and cut to `max_files` when that is set. */
  function BcbsSelected(env: Fetching.Env, doc: Mrf.IndexDoc, maxFiles: Option<int>): seq<Toc.Sized> {
    var unique := Seqs.DedupBy(Toc.Admitted(Toc.Http, Toc.Listed(doc)), Toc.UrlOf);
    var national := Toc.Admitted(Toc.Word("National"), unique);
    Seqs.TruncateIfSet(Toc.SortBySize(Toc.ProbedWithin(env, Seqs.PyTake(national, ProbeLimit), None)), maxFiles)
  }

  function BcbsFiles(env: Fetching.Env, maxFiles: Option<int>): Result<seq<Toc.Sized>, string> {
    match Fetching.IndexAt(env, BcbsIndexUrl)
    case Failure(e) => Failure(e)
    case Success(doc) => Success(BcbsSelected(env, doc, maxFiles))
  }

  /** A national file kept from a list with distinct URLs: the filter keeps
      the order and drops only. */
  lemma {:induction false} NationalDistinct(files: seq<Toc.FileRef>)
    requires Seqs.DistinctKeys(files, Toc.UrlOf)
    ensures Seqs.DistinctKeys(Toc.Admitted(Toc.Word("National"), files), Toc.UrlOf)
  {
    if files != [] {
      var init, f := files[..|files| - 1], files[|files| - 1];
      assert files == init + [f];
      assert Seqs.DistinctKeys(init, Toc.UrlOf);
      NationalDistinct(init);
      Toc.AdmittedSpec(Toc.Word("National"), init);
      var a := Toc.Admitted(Toc.Word("National"), init);
      forall i | 0 <= i < |a| ensures a[i].url != f.url {
        assert a[i] in a;
        var k :| 0 <= k < |init| && init[k] == a[i];
        assert Toc.UrlOf(files[k]) != Toc.UrlOf(files[|files| - 1]);
      }
    }
  }

  /** The files probed: at most 30 `http` locations of the index whose
      description mentions "National", with no URL twice. */
  lemma ProbedCandidates(doc: Mrf.IndexDoc)
    ensures var unique := Seqs.DedupBy(Toc.Admitted(Toc.Http, Toc.Listed(doc)), Toc.UrlOf);
      var first := Seqs.PyTake(Toc.Admitted(Toc.Word("National"), unique), ProbeLimit);
      |first| <= ProbeLimit && Seqs.DistinctKeys(first, Toc.UrlOf) &&
      forall f :: f in first ==> f in Toc.Listed(doc) && Toc.Accepts(Toc.Http, f) && Toc.Accepts(Toc.Word("National"), f)
  {
    var unique := Seqs.DedupBy(Toc.Admitted(Toc.Http, Toc.Listed(doc)), Toc.UrlOf);
    Toc.CandidatesSpec(Toc.Http, doc);
    var national := Toc.Admitted(Toc.Word("National"), unique);
    Toc.AdmittedSpec(Toc.Word("National"), unique);
    NationalDistinct(unique);
    var first := Seqs.PyTake(national, ProbeLimit);
    forall f | f in first ensures f in national {
      var k :| 0 <= k < |first| && first[k] == f;
      assert national[k] == f;
    }
  }

  /** The BCBS files: at most 30 (at most `max_files` when set), each an
      `http` location of the index whose description mentions "National",
      probed successfully to the size it carries, no URL twice, smallest
      first. */
  lemma BcbsSelectedSpec(env: Fetching.Env, doc: Mrf.IndexDoc, maxFiles: Option<int>)
    ensures var r := BcbsSelected(env, doc, maxFiles);
      |r| <= ProbeLimit && (maxFiles.Some? && maxFiles.value > 0 ==> |r| <= maxFiles.value) &&
      (forall s :: s in r ==>
        s.file in Toc.Listed(doc) && Toc.Accepts(Toc.Http, s.file) && Toc.Accepts(Toc.Word("National"), s.file) &&
        Toc.Probe(env, s.file.url) == Some(s.size)) &&
      Seqs.DistinctKeys(r, Toc.SizedUrl) &&
      (forall i, j :: 0 <= i < j < |r| ==> r[i].size <= r[j].size)
  {
    var unique := Seqs.DedupBy(Toc.Admitted(Toc.Http, Toc.Listed(doc)), Toc.UrlOf);
    var first := Seqs.PyTake(Toc.Admitted(Toc.Word("National"), unique), ProbeLimit);
    ProbedCandidates(doc);
    Toc.TruncatedProbedSpec(env, first, None, maxFiles, BcbsSelected(env, doc, maxFiles));
  }

  /** The index walk of `ingest_bcbs_mn`. */
  method GetBcbsFiles(env: Fetching.Env, maxFiles: Option<int>) returns (r: Result<seq<Toc.Sized>, string>)
    ensures r == BcbsFiles(env, maxFiles)
  {
    var index := Fetching.IndexAt(env, BcbsIndexUrl);
    if index.Failure? {
      return Failure(index.error);
    }
    var allFiles := Toc.CollectFiles(index.value, Toc.Http);
    var unique := Toc.DedupByUrl(allFiles);
    var national := Toc.Admitted(Toc.Word("National"), unique);
    var sized := Toc.ProbeSizes(env, Seqs.PyTake(national, ProbeLimit), None);
    r := Success(Seqs.TruncateIfSet(Toc.SortBySize(sized), maxFiles));
  }

  /** What `ingest_bcbs_mn` leaves and returns for the files it selects:
      a failure to get the index raises before anything is written. */
  ghost function BcbsRun(s: Store, env: Fetching.Env, cpts: set<string>, registry: seq<NppesProvider>,
                         files: Result<seq<Toc.Sized>, string>): (Store, Result<int, string>)
  {
    if files.Failure? then (s, Failure(files.error))
    else
      var b := Ingestion.RunAll(s, BcbsPayer, Jobs(env, cpts, registry, BcbsPayer, Toc.Urls(files.value)), true);
      (b.0, Success(b.1))
  }

  /** `ingest_bcbs_mn(db, max_files)`. */
  method IngestBcbsMn(db: RatesDatabase, env: Fetching.Env, cpts: set<string>, maxFiles: Option<int>)
    returns (r: Result<int, string>)
    modifies db`rates, db`log
    ensures (db.Snapshot(), r) == BcbsRun(old(db.Snapshot()), env, cpts, db.providers, BcbsFiles(env, maxFiles))
  {
    var files := GetBcbsFiles(env, maxFiles);
    if files.Failure? {
      return Failure(files.error);
    }
    var urls := Toc.Urls(files.value);
    var total := 0;
    for i := 0 to |urls|
      invariant (db.Snapshot(), total) ==
        Ingestion.RunAll(old(db.Snapshot()), BcbsPayer, Jobs(env, cpts, db.providers, BcbsPayer, urls[..i]), true)
    {
      assert urls[..i + 1] == urls[..i] + [urls[i]];
      total := ProcessNext(db, env, cpts, BcbsPayer, old(db.Snapshot()), urls[..i], urls[i], total);
    }
    assert urls[..|urls|] == urls;
    r := Success(total);
  }

  /** `main`: HealthPartners first, then BCBS with `max_files=20`; the
      total adds the two. A failure to get the BCBS index raises after the
      HealthPartners files are stored. */
  ghost function MainRun(s: Store, env: Fetching.Env, cpts: set<string>, registry: seq<NppesProvider>)
    : (Store, Result<int, string>)
  {
    var hp := Ingestion.RunAll(s, HpPayer, Jobs(env, cpts, registry, HpPayer, HpUrls(env, HpNetworks)), true);
    var bcbs := BcbsRun(hp.0, env, cpts, registry, BcbsFiles(env, Some(MainMaxFiles)));
    (bcbs.0, Added(hp.1, bcbs.1))
  }

  /** The two counts added, or the BCBS failure. */
  function Added(hp: int, bcbs: Result<int, string>): Result<int, string> {
    if bcbs.Failure? then bcbs else Success(hp + bcbs.value)
  }

  method Run(db: RatesDatabase, env: Fetching.Env, cpts: set<string>) returns (r: Result<int, string>)
    modifies db`rates, db`log
    ensures (db.Snapshot(), r) == MainRun(old(db.Snapshot()), env, cpts, db.providers)
  {
    var hp := IngestHealthPartners(db, env, cpts);
    ghost var s1 := db.Snapshot();
    var bcbs := IngestBcbsMn(db, env, cpts, Some(MainMaxFiles));
    ghost var b := BcbsRun(s1, env, cpts, db.providers, BcbsFiles(env, Some(MainMaxFiles)));
    assert db.Snapshot() == b.0 && bcbs == b.1;
    r := Added(hp, bcbs);
  }
}
