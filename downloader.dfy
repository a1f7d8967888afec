/** src/downloader.py: `TiCDownloader`, which reads a payer's index, lists
    its in-network files and ingests each one, parsed with
    `parse_tic_file_simple` under the NPIs of the provider table. An index
    entry is a `Toc.FileRef` (location and description); its `file_type` is
    always "in-network" and is never read. */
module Downloader {
  import opened Wrappers
  import opened Storage
  import Text
  import Seqs
  import Mrf
  import Fetching
  import Toc
  import Parser
  import Ingestion
  import Coordination
  import Config

  // ---------------------------------------------------------------------
  // Cache directory names

  /** The characters `[a-zA-Z0-9_-]`. */
  predicate IsNameChar(c: char) {
    'a' <= c <= 'z' || 'A' <= c <= 'Z' || '0' <= c <= '9' || c == '_' || c == '-'
  }

  /** `_safe_name`: lower-case the name, then replace every character outside
      `[a-zA-Z0-9_-]` by `_`. */
  function SafeName(name: string): (r: string)
    ensures |r| == |name|
    ensures forall i :: 0 <= i < |r| ==> ('a' <= r[i] <= 'z' || '0' <= r[i] <= '9' || r[i] == '_' || r[i] == '-')
    ensures forall i :: 0 <= i < |r| ==> (IsNameChar(name[i]) ==> r[i] == Text.LowerChar(name[i]))
  {
    seq(|name|, i requires 0 <= i < |name| =>
      var c := Text.LowerChar(name[i]);
      if IsNameChar(c) then c else '_')
  }

  /** A safe name is its own safe name. */
  lemma SafeNameIdempotent(name: string)
    ensures SafeName(SafeName(name)) == SafeName(name)
  {
    var r := SafeName(name);
    forall i | 0 <= i < |r| ensures SafeName(r)[i] == r[i] {
      assert !Text.IsAsciiUpper(r[i]);
    }
  }

  // ---------------------------------------------------------------------
  // The index

  /** `_parse_index`: the entries with a location of every reporting
      structure; only when there are none, those of the top-level
      `in_network_files`. */
  function IndexEntries(doc: Mrf.IndexDoc): seq<Toc.FileRef> {
    var structured := Toc.Admitted(Toc.Located, Toc.Listed(doc));
    if structured != [] then structured else Toc.Admitted(Toc.Located, Toc.InfoRefs(doc.TopLevelFiles()))
  }

  method ParseIndex(doc: Mrf.IndexDoc) returns (entries: seq<Toc.FileRef>)
    ensures entries == IndexEntries(doc)
  {
    entries := Toc.CollectFiles(doc, Toc.Located);
    if entries == [] {
      entries := Toc.AdmitInfos([], doc.TopLevelFiles(), Toc.Located);
    }
  }

  /** Every entry has a location. When some reporting structure lists a
      file with a location, the entries are exactly those files, and the
      top level is not consulted; otherwise they are exactly the top-level
      files with a location. */
  lemma ParseIndexSpec(doc: Mrf.IndexDoc)
    ensures forall e :: e in IndexEntries(doc) ==> e.url != ""
    ensures (exists f :: f in Toc.Listed(doc) && f.url != "") ==>
      forall e :: e in IndexEntries(doc) <==> e in Toc.Listed(doc) && e.url != ""
    ensures (forall f :: f in Toc.Listed(doc) ==> f.url == "") ==>
      forall e :: e in IndexEntries(doc) <==> e in Toc.InfoRefs(doc.TopLevelFiles()) && e.url != ""
  {
    Toc.AdmittedSpec(Toc.Located, Toc.Listed(doc));
    Toc.AdmittedSpec(Toc.Located, Toc.InfoRefs(doc.TopLevelFiles()));
    if exists f :: f in Toc.Listed(doc) && f.url != "" {
      var f :| f in Toc.Listed(doc) && f.url != "";
      assert f in Toc.Admitted(Toc.Located, Toc.Listed(doc));
    } else {
      var a := Toc.Admitted(Toc.Located, Toc.Listed(doc));
      if a != [] {
        assert a[0] in a;
      }
    }
  }

  /** `fetch_index`: a failed request or an error status gives no entries;
      the body is gunzipped when the index URL ends in `.gz` or the response
      says it is gzip-encoded, and kept as it is when that fails; a body that
      is not JSON gives no entries. */
  function FetchedEntries(env: Fetching.Env, indexUrl: string): seq<Toc.FileRef> {
    match env.get(indexUrl)
    case Failure(_) => []
    case Success(resp) =>
      if Fetching.RaiseForStatus(env, indexUrl, resp).Failure? then []
      else
        var content :=
          if Text.EndsWith(indexUrl, ".gz") || resp.contentEncoding == Some("gzip") then
            (match env.gunzip(resp.body) case Success(b) => b case Failure(_) => resp.body)
          else resp.body;
        match env.loadIndex(content)
        case Failure(_) => []
        case Success(doc) => IndexEntries(doc)
  }

  // ---------------------------------------------------------------------
  // One file

  lemma {:induction false} BeforeFirstNone(s: string, c: char)
    requires c !in s
    ensures Text.BeforeFirst(s, c) == s
  {
    if s != [] {
      assert c !in s[1..];
      BeforeFirstNone(s[1..], c);
    }
  }

  /** The part of a URL before its query string. */
  lemma {:induction false} BeforeFirstQuery(path: string, query: string)
    requires '?' !in path
    ensures Text.BeforeFirst(path + "?" + query, '?') == path
  {
    if path != [] {
      assert (path + "?" + query)[1..] == path[1..] + "?" + query;
      assert '?' !in path[1..];
      BeforeFirstQuery(path[1..], query);
    }
  }

  /** Whether `_stream_and_parse` gunzips: the URL, its query string cut
      off, ends in `.gz`. */
  predicate GunzipsUrl(url: string) {
    Text.EndsWith(Text.BeforeFirst(url, '?'), ".gz")
  }

  /** A query string does not change the decision, and without one it is a
      test of the URL's suffix. */
  lemma GunzipsUrlSpec(path: string, query: string)
    requires '?' !in path
    ensures GunzipsUrl(path + "?" + query) == Text.EndsWith(path, ".gz")
    ensures GunzipsUrl(path) == Text.EndsWith(path, ".gz")
  {
    BeforeFirstQuery(path, query);
    BeforeFirstNone(path, '?');
  }

  /** The bytes `_stream_and_parse` parses: the request must succeed with a
      2xx status and a `content-length` that is a number. */
  function Content(env: Fetching.Env, url: string): Result<Fetching.Bytes, string> {
    match env.get(url)
    case Failure(e) => Failure(e)
    case Success(resp) =>
      match Fetching.RaiseForStatus(env, url, resp)
      case Failure(e) => Failure(e)
      case Success(_) =>
        match Fetching.ContentLength(resp.contentLength)
        case Failure(e) => Failure(e)
        case Success(_) => if GunzipsUrl(url) then env.gunzip(resp.body) else Success(resp.body)
  }

  ghost function Outcome(env: Fetching.Env, payerName: string, url: string, cpts: set<string>,
                         registry: seq<NppesProvider>): Ingestion.Outcome
  {
    Coordination.MappedOutcome(env, Content(env, url), payerName, url, cpts, Parser.EffectiveFilter(None, registry))
  }

  ghost function Jobs(env: Fetching.Env, payerName: string, entries: seq<Toc.FileRef>, cpts: set<string>,
                      registry: seq<NppesProvider>): (jobs: seq<Ingestion.Job>)
    ensures |jobs| == |entries|
  {
    seq(|entries|, i requires 0 <= i < |entries| =>
      Ingestion.Job(entries[i].url, Outcome(env, payerName, entries[i].url, cpts, registry)))
  }

  lemma JobsSnoc(env: Fetching.Env, payerName: string, entries: seq<Toc.FileRef>, e: Toc.FileRef, cpts: set<string>,
                 registry: seq<NppesProvider>)
    ensures Jobs(env, payerName, entries + [e], cpts, registry) ==
      Jobs(env, payerName, entries, cpts, registry) + [Ingestion.Job(e.url, Outcome(env, payerName, e.url, cpts, registry))]
  {
  }

  // ---------------------------------------------------------------------
  // The downloader

  class TicDownloader {
    const payer: Config.PayerConfig
    const db: RatesDatabase
    const env: Fetching.Env
    const cpts: set<string>
    /** Where raw files would be kept; nothing is written there. */
    const cacheDir: string

    /** `cache_dir or (get_data_dir() / "raw" / _safe_name(payer.name))`. */
    constructor (payer: Config.PayerConfig, db: RatesDatabase, env: Fetching.Env, cpts: set<string>,
                 cacheDir: Option<string>, dataDir: string)
      ensures this.payer == payer && this.db == db && this.env == env && this.cpts == cpts
      ensures this.cacheDir == (if cacheDir.Some? then cacheDir.value else dataDir + "/raw/" + SafeName(payer.name))
    {
      this.payer := payer;
      this.db := db;
      this.env := env;
      this.cpts := cpts;
      this.cacheDir := if cacheDir.Some? then cacheDir.value else dataDir + "/raw/" + SafeName(payer.name);
    }

    method FetchIndex() returns (entries: seq<Toc.FileRef>)
      ensures entries == FetchedEntries(env, payer.indexUrl)
    {
      var resp := env.get(payer.indexUrl);
      if resp.Failure? {
        return [];
      }
      var checked := Fetching.RaiseForStatus(env, payer.indexUrl, resp.value);
      if checked.Failure? {
        return [];
      }
      var content := resp.value.body;
      if Text.EndsWith(payer.indexUrl, ".gz") || resp.value.contentEncoding == Some("gzip") {
        var unzipped := env.gunzip(content);
        if unzipped.Success? {
          content := unzipped.value;
        }
      }
      var data := env.loadIndex(content);
      if data.Failure? {
        return [];
      }
      entries := ParseIndex(data.value);
    }

    /** `download_and_parse(entry, skip_existing)`. */
    method DownloadAndParse(entry: Toc.FileRef, skipExisting: bool) returns (n: int)
      modifies db`rates, db`log
      ensures (db.Snapshot(), n) ==
        Ingestion.Step(old(db.Snapshot()), payer.name,
                       Ingestion.Job(entry.url, Outcome(env, payer.name, entry.url, cpts, db.providers)), skipExisting)
    {
      if skipExisting && db.IsFileIngested(entry.url) {
        return 0;
      }
      n := Coordination.AttemptMapped(db, env, payer.name, entry.url, Content(env, entry.url), cpts,
                                      Parser.EffectiveFilter(None, db.providers));
    }

    /** `process_all(max_files, skip_existing)`: the index entries, cut to
      `max_files` only when it is set and not zero, each processed in turn,
      with the counts added up. */
    method ProcessAll(maxFiles: Option<int>, skipExisting: bool) returns (total: int)
      modifies db`rates, db`log
      ensures (db.Snapshot(), total) ==
        Ingestion.RunAll(old(db.Snapshot()), payer.name,
                         Jobs(env, payer.name, Seqs.TruncateIfSet(FetchedEntries(env, payer.indexUrl), maxFiles),
                              cpts, db.providers), skipExisting)
    {
      var entries := FetchIndex();
      if maxFiles.Some? && maxFiles.value != 0 {
        entries := Seqs.PyTake(entries, maxFiles.value);
      }
      total := ProcessEntries(entries, skipExisting);
    }

    /** The loop of `process_all`. */
    method ProcessEntries(entries: seq<Toc.FileRef>, skipExisting: bool) returns (total: int)
      modifies db`rates, db`log
      ensures (db.Snapshot(), total) ==
        Ingestion.RunAll(old(db.Snapshot()), payer.name, Jobs(env, payer.name, entries, cpts, db.providers), skipExisting)
    {
      total := 0;
      for i := 0 to |entries|
        invariant (db.Snapshot(), total) ==
          Ingestion.RunAll(old(db.Snapshot()), payer.name, Jobs(env, payer.name, entries[..i], cpts, db.providers), skipExisting)
      {
        assert entries[..i + 1] == entries[..i] + [entries[i]];
        total := ProcessNext(old(db.Snapshot()), entries[..i], entries[i], skipExisting, total);
      }
      assert entries[..|entries|] == entries;
    }

    /** One more entry of the loop: processing `entry` after the entries
        `done` is running all of them. */
    method ProcessNext(ghost s0: Store, ghost done: seq<Toc.FileRef>, entry: Toc.FileRef, skipExisting: bool, total: int)
      returns (next: int)
      requires (db.Snapshot(), total) ==
        Ingestion.RunAll(s0, payer.name, Jobs(env, payer.name, done, cpts, db.providers), skipExisting)
      modifies db`rates, db`log
      ensures (db.Snapshot(), next) ==
        Ingestion.RunAll(s0, payer.name, Jobs(env, payer.name, done + [entry], cpts, db.providers), skipExisting)
    {
      ghost var s1 := db.Snapshot();
      var n := DownloadAndParse(entry, skipExisting);
      RunNext(env, payer.name, cpts, db.providers, skipExisting, s0, done, entry, s1, total, db.Snapshot(), n);
      next := total + n;
    }
  }

  /** The loop's step on the specification: from the run of `done`, one
      more step gives the run of `done + [entry]`. */
  lemma RunNext(env: Fetching.Env, payerName: string, cpts: set<string>, registry: seq<NppesProvider>,
                skipExisting: bool, s0: Store, done: seq<Toc.FileRef>, entry: Toc.FileRef,
                t: Store, total: int, u: Store, n: int)
    requires (t, total) == Ingestion.RunAll(s0, payerName, Jobs(env, payerName, done, cpts, registry), skipExisting)
    requires (u, n) == Ingestion.Step(t, payerName,
                                      Ingestion.Job(entry.url, Outcome(env, payerName, entry.url, cpts, registry)),
                                      skipExisting)
    ensures Ingestion.RunAll(s0, payerName, Jobs(env, payerName, done + [entry], cpts, registry), skipExisting) ==
      (u, total + n)
  {
    JobsSnoc(env, payerName, done, entry, cpts, registry);
    Ingestion.RunAllNext(s0, payerName, Jobs(env, payerName, done, cpts, registry),
                         Ingestion.Job(entry.url, Outcome(env, payerName, entry.url, cpts, registry)), skipExisting,
                         t, total, u, n);
  }

  /** Without the skip check every processed entry gets exactly one new log
      entry; at most `max_files` entries are processed when it is positive;
      every row added is under the URL of an index entry and for a target
      code. */
  lemma ProcessAllSpec(s: Store, env: Fetching.Env, payer: Config.PayerConfig, cpts: set<string>,
                       registry: seq<NppesProvider>, maxFiles: Option<int>, skipExisting: bool)
    requires s.Valid()
    ensures var entries := Seqs.TruncateIfSet(FetchedEntries(env, payer.indexUrl), maxFiles);
      var t := Ingestion.RunAll(s, payer.name, Jobs(env, payer.name, entries, cpts, registry), skipExisting).0;
      (maxFiles.Some? && maxFiles.value > 0 ==> |entries| <= maxFiles.value) &&
      (!skipExisting ==> |t.log| == |s.log| + |entries|) &&
      |s.rates| <= |t.rates| && t.rates[..|s.rates|] == s.rates &&
      forall i :: |s.rates| <= i < |t.rates| ==>
        t.rates[i].billingCode in cpts &&
        exists e :: e in FetchedEntries(env, payer.indexUrl) && t.rates[i].fileSource == Some(e.url)
  {
    var all := FetchedEntries(env, payer.indexUrl);
    var entries := Seqs.TruncateIfSet(all, maxFiles);
    var jobs := Jobs(env, payer.name, entries, cpts, registry);
    Ingestion.RunAllSpec(s, payer.name, jobs, skipExisting);
    var ok := (r: RateRecord) => r.billingCode in cpts && exists e :: e in all && r.fileSource == Some(e.url);
    forall j, r | j in jobs && r in Ingestion.RecordsOf(j.outcome) ensures ok(r) {
      var k :| 0 <= k < |jobs| && jobs[k] == j;
      Coordination.MappedRecords(env, Content(env, entries[k].url), payer.name, entries[k].url, cpts,
                                 Parser.EffectiveFilter(None, registry));
      assert entries[k] in all by {
        assert entries == all[..|entries|];
        assert entries[k] == all[k];
      }
    }
    Ingestion.RunAllAdds(s, payer.name, jobs, skipExisting, ok);
  }
}
