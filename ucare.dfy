/** scripts/ingest_ucare.py: read the UCare index named in the
    configuration, and ingest every `http` in-network file it lists that is
    not yet ingested, filtered to the NPIs of the provider table. */
module UcareIngest {
  import opened Wrappers
  import opened Storage
  import Text
  import Seqs
  import Fetching
  import Toc
  import Parser
  import Ingestion
  import Coordination
  import Config

  const Payer := "UCare"

  /** `get_ucare_index_url`: the index URL of the first payer named UCare,
      or the empty string. */
  function UcareIndexUrl(payers: seq<Config.PayerConfig>): string {
    match Config.FirstNamed(payers, Payer)
    case None => ""
    case Some(p) => p.indexUrl
  }

  method GetUcareIndexUrl(payers: seq<Config.PayerConfig>) returns (url: string)
    ensures url == UcareIndexUrl(payers)
    ensures (forall i :: 0 <= i < |payers| ==> payers[i].name != Payer) ==> url == ""
  {
    var payer := Config.FindPayer(payers, Payer);
    if payer.None? {
      return "";
    }
    url := payer.value.indexUrl;
  }

  /** `fetch_in_network_files`: a failed request, an error status or a body
      that is not JSON raises; otherwise the `http` locations of the index,
      without repeats, in first-seen order. */
  function InNetworkFiles(env: Fetching.Env, indexUrl: string): Result<seq<Toc.FileRef>, string> {
    match env.get(indexUrl)
    case Failure(e) => Failure(e)
    case Success(resp) =>
      match Fetching.RaiseForStatus(env, indexUrl, resp)
      case Failure(e) => Failure(e)
      case Success(_) =>
        match env.loadIndex(resp.body)
        case Failure(e) => Failure(e)
        case Success(doc) => Success(Seqs.DedupBy(Toc.Admitted(Toc.Http, Toc.Listed(doc)), Toc.UrlOf))
  }

  method FetchInNetworkFiles(env: Fetching.Env, indexUrl: string) returns (r: Result<seq<Toc.FileRef>, string>)
    ensures r == InNetworkFiles(env, indexUrl)
  {
    var resp := env.get(indexUrl);
    if resp.Failure? {
      return Failure(resp.error);
    }
    var checked := Fetching.RaiseForStatus(env, indexUrl, resp.value);
    if checked.Failure? {
      return Failure(checked.error);
    }
    var data := env.loadIndex(resp.value.body);
    if data.Failure? {
      return Failure(data.error);
    }
    var files := Toc.CollectFiles(data.value, Toc.Http);
    var unique := Toc.DedupByUrl(files);
    r := Success(unique);
  }

  /** The listed files: each an `http` location of the index, no URL twice,
      every `http` location present. */
  lemma InNetworkFilesSpec(env: Fetching.Env, indexUrl: string)
    requires InNetworkFiles(env, indexUrl).Success?
    ensures var doc := env.loadIndex(env.get(indexUrl).value.body).value;
      var files := InNetworkFiles(env, indexUrl).value;
      Seqs.DistinctKeys(files, Toc.UrlOf) &&
      (forall f :: f in files ==> f in Toc.Listed(doc) && Text.StartsWith(f.url, "http")) &&
      (forall f :: f in Toc.Listed(doc) && Text.StartsWith(f.url, "http") ==>
        exists g :: g in files && g.url == f.url)
  {
    var doc := env.loadIndex(env.get(indexUrl).value.body).value;
    var files := InNetworkFiles(env, indexUrl).value;
    var admitted := Toc.Admitted(Toc.Http, Toc.Listed(doc));
    Toc.CandidatesSpec(Toc.Http, doc);
    Toc.AdmittedSpec(Toc.Http, Toc.Listed(doc));
    forall f | f in Toc.Listed(doc) && Text.StartsWith(f.url, "http") ensures exists g :: g in files && g.url == f.url {
      var k :| 0 <= k < |admitted| && admitted[k] == f;
      assert Toc.UrlOf(admitted[k]) in Seqs.KeysOf(admitted, Toc.UrlOf);
      var i :| 0 <= i < |files| && Toc.UrlOf(files[i]) == f.url;
      assert files[i] in files;
    }
  }

  /** The bytes `process_mrf_file` parses: the download must succeed with a
      2xx status, and a URL ending in `.gz` is gunzipped. */
  function Content(env: Fetching.Env, url: string): Result<Fetching.Bytes, string> {
    match env.get(url)
    case Failure(e) => Failure(e)
    case Success(resp) =>
      match Fetching.RaiseForStatus(env, url, resp)
      case Failure(e) => Failure(e)
      case Success(_) => if Text.EndsWith(url, ".gz") then env.gunzip(resp.body) else Success(resp.body)
  }

  ghost function Outcome(env: Fetching.Env, url: string, cpts: set<string>, targetNpis: set<string>): Ingestion.Outcome {
    Coordination.MappedOutcome(env, Content(env, url), Payer, url, cpts, Some(targetNpis))
  }

  /** `process_mrf_file`: here the download comes after the `running` entry
      is opened, so a failed download is logged as an error. */
  method ProcessMrfFile(db: RatesDatabase, env: Fetching.Env, file: Toc.FileRef, cpts: set<string>,
                        targetNpis: set<string>) returns (n: int)
    modifies db`rates, db`log
    ensures (db.Snapshot(), n) ==
      Ingestion.ProcessFile(old(db.Snapshot()), Payer, file.url, Outcome(env, file.url, cpts, targetNpis))
  {
    if db.IsFileIngested(file.url) {
      return 0;
    }
    n := Coordination.AttemptMapped(db, env, Payer, file.url, Content(env, file.url), cpts, Some(targetNpis));
  }

  ghost function Jobs(env: Fetching.Env, files: seq<Toc.FileRef>, cpts: set<string>, targetNpis: set<string>)
    : (jobs: seq<Ingestion.Job>)
    ensures |jobs| == |files|
  {
    seq(|files|, i requires 0 <= i < |files| =>
      Ingestion.Job(files[i].url, Outcome(env, files[i].url, cpts, targetNpis)))
  }

  lemma JobsSnoc(env: Fetching.Env, files: seq<Toc.FileRef>, f: Toc.FileRef, cpts: set<string>, targetNpis: set<string>)
    ensures Jobs(env, files + [f], cpts, targetNpis) ==
      Jobs(env, files, cpts, targetNpis) + [Ingestion.Job(f.url, Outcome(env, f.url, cpts, targetNpis))]
  {
  }

  /** How `main` ends: before any download for want of NPIs or of an index
      URL, with the exception the index fetch raised, or with the total. */
  datatype Report = NoProviders | NoIndexUrl | Crashed(message: string) | Done(total: int)

  ghost function MainRun(s: Store, registry: seq<NppesProvider>, payers: seq<Config.PayerConfig>, env: Fetching.Env,
                         cpts: set<string>): (Store, Report)
  {
    var target := Parser.GetTargetNpis(registry);
    if target.None? || target.value == {} then (s, NoProviders)
    else
      var indexUrl := UcareIndexUrl(payers);
      if indexUrl == "" then (s, NoIndexUrl)
      else
        match InNetworkFiles(env, indexUrl)
        case Failure(e) => (s, Crashed(e))
        case Success(files) =>
          var (t, total) := Ingestion.RunAll(s, Payer, Jobs(env, Toc.NotIngested(s, files), cpts, target.value), true);
          (t, Done(total))
  }

  /** One more file of the loop, after the files `done`. */
  method ProcessNext(db: RatesDatabase, env: Fetching.Env, ghost s0: Store, ghost done: seq<Toc.FileRef>, f: Toc.FileRef,
                     cpts: set<string>, targetNpis: set<string>, total: int) returns (next: int)
    requires (db.Snapshot(), total) == Ingestion.RunAll(s0, Payer, Jobs(env, done, cpts, targetNpis), true)
    modifies db`rates, db`log
    ensures (db.Snapshot(), next) == Ingestion.RunAll(s0, Payer, Jobs(env, done + [f], cpts, targetNpis), true)
  {
    ghost var job := Ingestion.Job(f.url, Outcome(env, f.url, cpts, targetNpis));
    JobsSnoc(env, done, f, cpts, targetNpis);
    ghost var s1 := db.Snapshot();
    var n := ProcessMrfFile(db, env, f, cpts, targetNpis);
    Ingestion.RunAllNext(s0, Payer, Jobs(env, done, cpts, targetNpis), job, true, s1, total, db.Snapshot(), n);
    next := total + n;
  }

  method ProcessFiles(db: RatesDatabase, env: Fetching.Env, files: seq<Toc.FileRef>, cpts: set<string>,
                      targetNpis: set<string>) returns (total: int)
    modifies db`rates, db`log
    ensures (db.Snapshot(), total) == Ingestion.RunAll(old(db.Snapshot()), Payer, Jobs(env, files, cpts, targetNpis), true)
  {
    total := 0;
    for i := 0 to |files|
      invariant (db.Snapshot(), total) ==
        Ingestion.RunAll(old(db.Snapshot()), Payer, Jobs(env, files[..i], cpts, targetNpis), true)
    {
      assert files[..i + 1] == files[..i] + [files[i]];
      total := ProcessNext(db, env, old(db.Snapshot()), files[..i], files[i], cpts, targetNpis, total);
    }
    assert files[..|files|] == files;
  }

  /** `main`. */
  method Run(db: RatesDatabase, env: Fetching.Env, payers: seq<Config.PayerConfig>, cpts: set<string>)
    returns (report: Report)
    modifies db`rates, db`log
    ensures (db.Snapshot(), report) == MainRun(old(db.Snapshot()), db.providers, payers, env, cpts)
  {
    var targetNpis := Parser.GetTargetNpis(db.providers);
    if targetNpis.None? || targetNpis.value == {} {
      return NoProviders;
    }
    var indexUrl := GetUcareIndexUrl(payers);
    if indexUrl == "" {
      return NoIndexUrl;
    }
    var files := FetchInNetworkFiles(env, indexUrl);
    if files.Failure? {
      return Crashed(files.error);
    }
    var notIngested := Toc.FilterNotIngested(db, files.value);
    var total := ProcessFiles(db, env, notIngested, cpts, targetNpis.value);
    report := Done(total);
  }

  /** `main` writes nothing unless it gets to the files; every row it adds
      is for a registered NPI and a target code, stored under the URL of a
      listed file; nothing stored before is lost. */
  lemma MainRunRecords(s: Store, registry: seq<NppesProvider>, payers: seq<Config.PayerConfig>, env: Fetching.Env,
                       cpts: set<string>)
    ensures var (t, report) := MainRun(s, registry, payers, env, cpts);
      (report == NoProviders <==> registry == []) &&
      (!report.Done? ==> t == s) &&
      |s.rates| <= |t.rates| && t.rates[..|s.rates|] == s.rates &&
      forall i :: |s.rates| <= i < |t.rates| ==>
        (exists k :: 0 <= k < |registry| && registry[k].npi == t.rates[i].npi) && t.rates[i].billingCode in cpts &&
        (exists f :: f in InNetworkFiles(env, UcareIndexUrl(payers)).value && t.rates[i].fileSource == Some(f.url))
  {
    var target := Parser.GetTargetNpis(registry);
    if registry == [] || UcareIndexUrl(payers) == "" || InNetworkFiles(env, UcareIndexUrl(payers)).Failure? {
      if registry != [] {
        var p :| 0 <= p < |registry|;
        assert registry[p].npi in target.value;
      }
      assert s.rates[..|s.rates|] == s.rates;
    } else {
      var p :| 0 <= p < |registry|;
      assert registry[p].npi in target.value;
      var files := InNetworkFiles(env, UcareIndexUrl(payers)).value;
      var todo := Toc.NotIngested(s, files);
      var jobs := Jobs(env, todo, cpts, target.value);
      var ok := (r: RateRecord) => r.npi in target.value && r.billingCode in cpts &&
        exists f :: f in files && r.fileSource == Some(f.url);
      forall j, r | j in jobs && r in Ingestion.RecordsOf(j.outcome) ensures ok(r) {
        var k :| 0 <= k < |jobs| && jobs[k] == j;
        Coordination.MappedRecords(env, Content(env, todo[k].url), Payer, todo[k].url, cpts, Some(target.value));
        assert todo[k] in files;
      }
      Ingestion.RunAllAdds(s, Payer, jobs, true, ok);
    }
  }
}
