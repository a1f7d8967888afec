/** scripts/ingest_healthpartners.py: download each HealthPartners network
    archive named in the configuration, and ingest every JSON member of it
    (plain or gzipped) as a file of its own, under the source
    `<url>#<member>` and filtered to the NPIs of the provider table. */
module HealthPartnersIngest {
  import opened Wrappers
  import opened Storage
  import Text
  import Fetching
  import Parser
  import Ingestion
  import Coordination
  import Config

  const Payer := "HealthPartners"

  /** `get_hp_file_urls`: the index URL of the first payer named
      HealthPartners followed by its additional files, or nothing when no
      payer has that name. */
  function HpFileUrls(payers: seq<Config.PayerConfig>): seq<string> {
    match Config.FirstNamed(payers, Payer)
    case None => []
    case Some(p) => [p.indexUrl] + p.additionalFiles.GetOr([])
  }

  method GetHpFileUrls(payers: seq<Config.PayerConfig>) returns (urls: seq<string>)
    ensures urls == HpFileUrls(payers)
    ensures urls == [] <==> forall i :: 0 <= i < |payers| ==> payers[i].name != Payer
  {
    var payer := Config.FindPayer(payers, Payer);
    if payer.None? {
      return [];
    }
    urls := [payer.value.indexUrl];
    if payer.value.additionalFiles.Some? {
      urls := urls + payer.value.additionalFiles.value;
    }
  }

  /** The members `process_zip_file` ingests. */
  predicate IsJsonName(name: string) {
    Text.EndsWith(name, ".json") || Text.EndsWith(name, ".json.gz")
  }

  /** `[n for n in zf.namelist() if ...]`, in archive order. */
  function JsonMembers(members: seq<Fetching.ZipMember>): (r: seq<Fetching.ZipMember>)
    ensures forall m :: m in r <==> m in members && IsJsonName(m.name)
  {
    if members == [] then []
    else
      var init, m := members[..|members| - 1], members[|members| - 1];
      assert members == init + [m];
      JsonMembers(init) + (if IsJsonName(m.name) then [m] else [])
  }

  /** The source a member is logged and stored under. */
  function MemberSource(url: string, name: string): string {
    url + "#" + name
  }

  lemma MemberSourcePrefix(url: string, name: string)
    ensures Text.StartsWith(MemberSource(url, name), url + "#")
  {
    assert MemberSource(url, name)[..|url + "#"|] == url + "#";
  }

  /** A member's bytes, gunzipped when its name ends in `.gz`. */
  function MemberContent(env: Fetching.Env, m: Fetching.ZipMember): Result<Fetching.Bytes, string> {
    if Text.EndsWith(m.name, ".gz") then
      match m.data
      case Failure(e) => Failure(e)
      case Success(bytes) => env.gunzip(bytes)
    else m.data
  }

  ghost function MemberOutcome(env: Fetching.Env, url: string, m: Fetching.ZipMember, cpts: set<string>,
                               targetNpis: set<string>): Ingestion.Outcome
  {
    Coordination.MappedOutcome(env, MemberContent(env, m), Payer, MemberSource(url, m.name), cpts, Some(targetNpis))
  }

  ghost function MemberJobs(env: Fetching.Env, url: string, members: seq<Fetching.ZipMember>, cpts: set<string>,
                            targetNpis: set<string>): (jobs: seq<Ingestion.Job>)
    ensures |jobs| == |members|
  {
    seq(|members|, i requires 0 <= i < |members| =>
      Ingestion.Job(MemberSource(url, members[i].name), MemberOutcome(env, url, members[i], cpts, targetNpis)))
  }

  lemma MemberJobsSnoc(env: Fetching.Env, url: string, members: seq<Fetching.ZipMember>, m: Fetching.ZipMember,
                       cpts: set<string>, targetNpis: set<string>)
    ensures MemberJobs(env, url, members + [m], cpts, targetNpis) ==
      MemberJobs(env, url, members, cpts, targetNpis) +
      [Ingestion.Job(MemberSource(url, m.name), MemberOutcome(env, url, m, cpts, targetNpis))]
  {
  }

  /** What `process_zip_file` does to the store and what it returns or
      raises: a failed download or an error status writes nothing and
      returns 0, an archive that does not open raises, and otherwise the
      JSON members are ingested in order under the skip check. */
  ghost function ZipRun(s: Store, env: Fetching.Env, url: string, cpts: set<string>, targetNpis: set<string>)
    : (Store, Result<int, string>)
  {
    match env.get(url)
    case Failure(_) => (s, Success(0))
    case Success(resp) =>
      if Fetching.RaiseForStatus(env, url, resp).Failure? then (s, Success(0))
      else
        match env.openZip(resp.body)
        case Failure(e) => (s, Failure(e))
        case Success(members) =>
          var (t, n) := Ingestion.RunAll(s, Payer, MemberJobs(env, url, JsonMembers(members), cpts, targetNpis), true);
          (t, Success(n))
  }

  /** One member: skipped when its source is already ingested, else
      attempted. */
  method ProcessMember(db: RatesDatabase, env: Fetching.Env, url: string, m: Fetching.ZipMember,
                       cpts: set<string>, targetNpis: set<string>) returns (n: int)
    modifies db`rates, db`log
    ensures (db.Snapshot(), n) ==
      Ingestion.ProcessFile(old(db.Snapshot()), Payer, MemberSource(url, m.name), MemberOutcome(env, url, m, cpts, targetNpis))
  {
    var source := url + "#" + m.name;
    if db.IsFileIngested(source) {
      return 0;
    }
    n := Coordination.AttemptMapped(db, env, Payer, source, MemberContent(env, m), cpts, Some(targetNpis));
  }

  /** One more member of an archive's loop, after the members `done`. */
  method ProcessNextMember(db: RatesDatabase, env: Fetching.Env, url: string, ghost s0: Store,
                           ghost done: seq<Fetching.ZipMember>, m: Fetching.ZipMember, cpts: set<string>,
                           targetNpis: set<string>, total: int) returns (next: int)
    requires (db.Snapshot(), total) == Ingestion.RunAll(s0, Payer, MemberJobs(env, url, done, cpts, targetNpis), true)
    modifies db`rates, db`log
    ensures (db.Snapshot(), next) ==
      Ingestion.RunAll(s0, Payer, MemberJobs(env, url, done + [m], cpts, targetNpis), true)
  {
    ghost var job := Ingestion.Job(MemberSource(url, m.name), MemberOutcome(env, url, m, cpts, targetNpis));
    MemberJobsSnoc(env, url, done, m, cpts, targetNpis);
    ghost var s1 := db.Snapshot();
    var n := ProcessMember(db, env, url, m, cpts, targetNpis);
    Ingestion.RunAllNext(s0, Payer, MemberJobs(env, url, done, cpts, targetNpis), job, true, s1, total, db.Snapshot(), n);
    next := total + n;
  }

  method ProcessZipFile(db: RatesDatabase, env: Fetching.Env, url: string, cpts: set<string>, targetNpis: set<string>)
    returns (r: Result<int, string>)
    modifies db`rates, db`log
    ensures (db.Snapshot(), r) == ZipRun(old(db.Snapshot()), env, url, cpts, targetNpis)
  {
    var resp := env.get(url);
    if resp.Failure? {
      return Success(0);
    }
    var checked := Fetching.RaiseForStatus(env, url, resp.value);
    if checked.Failure? {
      return Success(0);
    }
    var zf := env.openZip(resp.value.body);
    if zf.Failure? {
      return Failure(zf.error);
    }
    var jsonFiles := JsonMembers(zf.value);
    var total := 0;
    for i := 0 to |jsonFiles|
      invariant (db.Snapshot(), total) ==
        Ingestion.RunAll(old(db.Snapshot()), Payer, MemberJobs(env, url, jsonFiles[..i], cpts, targetNpis), true)
    {
      assert jsonFiles[..i + 1] == jsonFiles[..i] + [jsonFiles[i]];
      total := ProcessNextMember(db, env, url, old(db.Snapshot()), jsonFiles[..i], jsonFiles[i], cpts, targetNpis, total);
    }
    assert jsonFiles[..|jsonFiles|] == jsonFiles;
    r := Success(total);
  }

  /** Every row an archive adds is for a target NPI and a target code and
      was stored under a source naming the archive's URL; nothing stored
      before is lost. */
  lemma ZipRunRecords(s: Store, env: Fetching.Env, url: string, cpts: set<string>, targetNpis: set<string>)
    ensures var t := ZipRun(s, env, url, cpts, targetNpis).0;
      |s.rates| <= |t.rates| && t.rates[..|s.rates|] == s.rates &&
      forall i :: |s.rates| <= i < |t.rates| ==>
        t.rates[i].npi in targetNpis && t.rates[i].billingCode in cpts &&
        t.rates[i].fileSource.Some? && Text.StartsWith(t.rates[i].fileSource.value, url + "#")
  {
    var ok := (r: RateRecord) => r.npi in targetNpis && r.billingCode in cpts &&
      r.fileSource.Some? && Text.StartsWith(r.fileSource.value, url + "#");
    if env.get(url).Success? && env.openZip(env.get(url).value.body).Success? {
      var jobs := MemberJobs(env, url, JsonMembers(env.openZip(env.get(url).value.body).value), cpts, targetNpis);
      forall j, r | j in jobs && r in Ingestion.RecordsOf(j.outcome) ensures ok(r) {
        var k :| 0 <= k < |jobs| && jobs[k] == j;
        var m := JsonMembers(env.openZip(env.get(url).value.body).value)[k];
        Coordination.MappedRecords(env, MemberContent(env, m), Payer, MemberSource(url, m.name), cpts, Some(targetNpis));
        MemberSourcePrefix(url, m.name);
      }
      Ingestion.RunAllAdds(s, Payer, jobs, true, ok);
    } else {
      assert s.rates[..|s.rates|] == s.rates;
    }
  }

  /** The archives in order; an archive that raises ends the run. */
  ghost function ZipRunAll(s: Store, env: Fetching.Env, urls: seq<string>, cpts: set<string>, targetNpis: set<string>)
    : (Store, Result<int, string>)
  {
    if urls == [] then (s, Success(0))
    else
      var (t, r) := ZipRunAll(s, env, urls[..|urls| - 1], cpts, targetNpis);
      if r.Failure? then (t, r)
      else
        var (u, q) := ZipRun(t, env, urls[|urls| - 1], cpts, targetNpis);
        (u, if q.Failure? then q else Success(r.value + q.value))
  }

  /** How `main` ends: before any download for want of NPIs or URLs, after
      all archives with the total added, or with the exception an archive
      raised. */
  datatype Report = NoProviders | NoUrls | Done(total: int) | Crashed(message: string)

  ghost function MainRun(s: Store, registry: seq<NppesProvider>, payers: seq<Config.PayerConfig>, env: Fetching.Env,
                         cpts: set<string>): (Store, Report)
  {
    var target := Parser.GetTargetNpis(registry);
    if target.None? || target.value == {} then (s, NoProviders)
    else
      var urls := HpFileUrls(payers);
      if urls == [] then (s, NoUrls)
      else
        var (t, r) := ZipRunAll(s, env, urls, cpts, target.value);
        (t, if r.Failure? then Crashed(r.error) else Done(r.value))
  }

  /** Once an archive raises, the later ones are never reached. */
  lemma {:induction false} ZipRunAllStops(s: Store, env: Fetching.Env, urls: seq<string>, more: seq<string>,
                                          cpts: set<string>, targetNpis: set<string>)
    requires ZipRunAll(s, env, urls, cpts, targetNpis).1.Failure?
    ensures ZipRunAll(s, env, urls + more, cpts, targetNpis) == ZipRunAll(s, env, urls, cpts, targetNpis)
    decreases |more|
  {
    if more == [] {
      assert urls + more == urls;
    } else {
      ZipRunAllStops(s, env, urls, more[..|more| - 1], cpts, targetNpis);
      assert (urls + more)[..|urls + more| - 1] == urls + more[..|more| - 1];
    }
  }

  /** One more archive: the run so far, then this archive's. */
  lemma ZipRunAllNext(s0: Store, env: Fetching.Env, urls: seq<string>, i: nat, cpts: set<string>, targetNpis: set<string>,
                      s1: Store, total: int, s2: Store, q: Result<int, string>)
    requires i < |urls|
    requires (s1, Success(total)) == ZipRunAll(s0, env, urls[..i], cpts, targetNpis)
    requires (s2, q) == ZipRun(s1, env, urls[i], cpts, targetNpis)
    ensures q.Success? ==> (s2, Success(total + q.value)) == ZipRunAll(s0, env, urls[..i + 1], cpts, targetNpis)
    ensures q.Failure? ==> (s2, q) == ZipRunAll(s0, env, urls[..i + 1], cpts, targetNpis)
  {
    assert urls[..i + 1][..i] == urls[..i];
  }

  /** The loop of `main` over the archive URLs. */
  method ProcessArchives(db: RatesDatabase, env: Fetching.Env, urls: seq<string>, cpts: set<string>,
                         targetNpis: set<string>) returns (r: Result<int, string>)
    modifies db`rates, db`log
    ensures (db.Snapshot(), r) == ZipRunAll(old(db.Snapshot()), env, urls, cpts, targetNpis)
  {
    var total := 0;
    for i := 0 to |urls|
      invariant (db.Snapshot(), Success(total)) == ZipRunAll(old(db.Snapshot()), env, urls[..i], cpts, targetNpis)
    {
      ghost var s1 := db.Snapshot();
      var inserted := ProcessZipFile(db, env, urls[i], cpts, targetNpis);
      ZipRunAllNext(old(db.Snapshot()), env, urls, i, cpts, targetNpis, s1, total, db.Snapshot(), inserted);
      if inserted.Failure? {
        ZipRunAllStops(old(db.Snapshot()), env, urls[..i + 1], urls[i + 1..], cpts, targetNpis);
        assert urls[..i + 1] + urls[i + 1..] == urls;
        return Failure(inserted.error);
      }
      total := total + inserted.value;
    }
    assert urls[..|urls|] == urls;
    r := Success(total);
  }

  /** `main`. */
  method Run(db: RatesDatabase, env: Fetching.Env, payers: seq<Config.PayerConfig>, cpts: set<string>)
    returns (report: Report)
    modifies db`rates, db`log
    ensures (db.Snapshot(), report) == MainRun(old(db.Snapshot()), db.providers, payers, env, cpts)
  {
    var targetNpis := Parser.GetTargetNpis(db.providers);
    if targetNpis.None? || targetNpis.value == {} {
      return NoProviders;
    }
    var urls := GetHpFileUrls(payers);
    if urls == [] {
      return NoUrls;
    }
    var r := ProcessArchives(db, env, urls, cpts, targetNpis.value);
    report := if r.Failure? then Crashed(r.error) else Done(r.value);
  }

  /** When `main` stops for want of providers or URLs it writes nothing;
      otherwise every row it adds is for a registered NPI and a target code. */
  lemma {:induction false} ZipRunAllRecords(s: Store, env: Fetching.Env, urls: seq<string>, cpts: set<string>,
                                            targetNpis: set<string>)
    ensures var t := ZipRunAll(s, env, urls, cpts, targetNpis).0;
      |s.rates| <= |t.rates| && t.rates[..|s.rates|] == s.rates &&
      forall i :: |s.rates| <= i < |t.rates| ==> t.rates[i].npi in targetNpis && t.rates[i].billingCode in cpts
  {
    if urls == [] {
      assert s.rates[..|s.rates|] == s.rates;
    } else {
      ZipRunAllRecords(s, env, urls[..|urls| - 1], cpts, targetNpis);
      var (t, r) := ZipRunAll(s, env, urls[..|urls| - 1], cpts, targetNpis);
      if r.Success? {
        ZipRunRecords(t, env, urls[|urls| - 1], cpts, targetNpis);
        var u := ZipRun(t, env, urls[|urls| - 1], cpts, targetNpis).0;
        assert u.rates[..|s.rates|] == u.rates[..|t.rates|][..|s.rates|];
        forall i | |s.rates| <= i < |u.rates| ensures u.rates[i].npi in targetNpis && u.rates[i].billingCode in cpts {
          if i < |t.rates| {
            assert u.rates[i] == u.rates[..|t.rates|][i];
          }
        }
      }
    }
  }

  lemma MainRunRecords(s: Store, registry: seq<NppesProvider>, payers: seq<Config.PayerConfig>, env: Fetching.Env,
                       cpts: set<string>)
    ensures var (t, report) := MainRun(s, registry, payers, env, cpts);
      (report == NoProviders <==> registry == []) &&
      (report == NoProviders || report == NoUrls ==> t == s) &&
      (registry != [] ==> (report == NoUrls <==> forall i :: 0 <= i < |payers| ==> payers[i].name != Payer)) &&
      |s.rates| <= |t.rates| && t.rates[..|s.rates|] == s.rates &&
      forall i :: |s.rates| <= i < |t.rates| ==>
        (exists k :: 0 <= k < |registry| && registry[k].npi == t.rates[i].npi) && t.rates[i].billingCode in cpts
  {
    var target := Parser.GetTargetNpis(registry);
    if registry == [] {
      assert s.rates[..|s.rates|] == s.rates;
    } else {
      var p :| 0 <= p < |registry|;
      assert registry[p].npi in target.value;
      if HpFileUrls(payers) == [] {
        assert s.rates[..|s.rates|] == s.rates;
      } else {
        ZipRunAllRecords(s, env, HpFileUrls(payers), cpts, target.value);
      }
    }
  }
}
