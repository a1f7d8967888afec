/** Choosing which in-network files to ingest from an index (table of
    contents) file, as the ingest scripts do it: list the `in_network_files`
    of every reporting structure, keep the entries a rule admits, drop
    repeated URLs keeping the first, probe their sizes with HEAD requests and
    sort by size. */
module Toc {
  import opened Wrappers
  import Text
  import Seqs
  import Mrf
  import Fetching
  import Storage

  /** `{"url": loc, "desc": desc}`. */
  datatype FileRef = FileRef(url: string, desc: string)

  function UrlOf(f: FileRef): string { f.url }

  function InfoRef(inf: Mrf.FileInfo): FileRef {
    FileRef(inf.Location(), inf.Description())
  }

  function InfoRefs(infos: seq<Mrf.FileInfo>): (r: seq<FileRef>)
    ensures |r| == |infos|
  {
    seq(|infos|, i requires 0 <= i < |infos| => InfoRef(infos[i]))
  }

  function StructureRefs(rs: Mrf.ReportingStructure): seq<FileRef> {
    InfoRefs(rs.Files())
  }

  /** Every `in_network_files` entry of every reporting structure, in order. */
  function Listed(doc: Mrf.IndexDoc): seq<FileRef> {
    Seqs.FlatMap(doc.Structures(), StructureRefs)
  }

  /** The admission tests of the scripts: `loc.startswith("http")`, alone,
      with a word required in the description, or the word alone; and the
      downloader's test that the location is not empty. */
  datatype Rule = Http | HttpAnd(word: string) | Word(word: string) | Located

  predicate Accepts(rule: Rule, f: FileRef) {
    match rule
    case Located => f.url != ""
    case Http => Text.StartsWith(f.url, "http")
    case HttpAnd(w) => Text.StartsWith(f.url, "http") && Text.Contains(f.desc, w)
    case Word(w) => Text.Contains(f.desc, w)
  }

  /** The entries a rule admits, in order. */
  function Admitted(rule: Rule, files: seq<FileRef>): seq<FileRef> {
    if files == [] then []
    else
      var f := files[|files| - 1];
      Admitted(rule, files[..|files| - 1]) + (if Accepts(rule, f) then [f] else [])
  }

  lemma {:induction false} AdmittedAppend(rule: Rule, a: seq<FileRef>, b: seq<FileRef>)
    ensures Admitted(rule, a + b) == Admitted(rule, a) + Admitted(rule, b)
    decreases |b|
  {
    if b == [] {
      assert a + b == a;
    } else {
      assert (a + b)[..|a + b| - 1] == a + b[..|b| - 1];
      AdmittedAppend(rule, a, b[..|b| - 1]);
    }
  }

  lemma AdmittedSnoc(rule: Rule, files: seq<FileRef>, f: FileRef)
    ensures Admitted(rule, files + [f]) == Admitted(rule, files) + (if Accepts(rule, f) then [f] else [])
  {
    assert (files + [f])[..|files|] == files;
  }

  /** The admitted entries are exactly the listed entries the rule accepts,
      and they keep their relative order (the result is a subsequence). */
  lemma {:induction false} AdmittedSpec(rule: Rule, files: seq<FileRef>)
    ensures forall f :: f in Admitted(rule, files) <==> f in files && Accepts(rule, f)
    ensures |Admitted(rule, files)| <= |files|
  {
    if files != [] {
      var init, f := files[..|files| - 1], files[|files| - 1];
      assert files == init + [f];
      AdmittedSpec(rule, init);
    }
  }

  /** The inner loop over one structure's `in_network_files`. */
  method AdmitInfos(files: seq<FileRef>, infos: seq<Mrf.FileInfo>, rule: Rule) returns (out: seq<FileRef>)
    ensures out == files + Admitted(rule, InfoRefs(infos))
  {
    out := files;
    for k := 0 to |infos|
      invariant out == files + Admitted(rule, InfoRefs(infos)[..k])
    {
      var f := FileRef(infos[k].Location(), infos[k].Description());
      assert InfoRefs(infos)[..k + 1] == InfoRefs(infos)[..k] + [f];
      if Accepts(rule, f) {
        out := out + [f];
      }
    }
    assert InfoRefs(infos)[..|infos|] == InfoRefs(infos);
  }

  /** The nested loop that collects the admitted entries of an index. */
  method CollectFiles(doc: Mrf.IndexDoc, rule: Rule) returns (files: seq<FileRef>)
    ensures files == Admitted(rule, Listed(doc))
  {
    var structures := doc.Structures();
    files := [];
    for i := 0 to |structures|
      invariant files == Admitted(rule, Seqs.FlatMap(structures[..i], StructureRefs))
    {
      assert structures[..i + 1][..i] == structures[..i];
      AdmittedAppend(rule, Seqs.FlatMap(structures[..i], StructureRefs), StructureRefs(structures[i]));
      files := AdmitInfos(files, structures[i].Files(), rule);
    }
    assert structures[..|structures|] == structures;
  }

  /** The `seen` / `unique_files` loop. */
  method DedupByUrl(files: seq<FileRef>) returns (unique: seq<FileRef>)
    ensures unique == Seqs.DedupBy(files, UrlOf)
  {
    var seen: set<string> := {};
    unique := [];
    for i := 0 to |files|
      invariant unique == Seqs.DedupBy(files[..i], UrlOf)
      invariant seen == Seqs.KeysOf(files[..i], UrlOf)
    {
      var f := files[i];
      assert files[..i + 1] == files[..i] + [f];
      Seqs.KeysOfSnoc(files[..i], f, UrlOf);
      if f.url !in seen {
        seen := seen + {f.url};
        unique := unique + [f];
      }
    }
    assert files[..|files|] == files;
  }

  /** One step of the combined test: an admitted entry with an unseen URL is
      appended and its URL marked seen; any other entry changes nothing. */
  lemma UniqueStep(rule: Rule, done: seq<FileRef>, f: FileRef)
    ensures Accepts(rule, f) && f.url !in Seqs.KeysOf(Admitted(rule, done), UrlOf) ==>
      Seqs.DedupBy(Admitted(rule, done + [f]), UrlOf) == Seqs.DedupBy(Admitted(rule, done), UrlOf) + [f] &&
      Seqs.KeysOf(Admitted(rule, done + [f]), UrlOf) == Seqs.KeysOf(Admitted(rule, done), UrlOf) + {f.url}
    ensures !(Accepts(rule, f) && f.url !in Seqs.KeysOf(Admitted(rule, done), UrlOf)) ==>
      Seqs.DedupBy(Admitted(rule, done + [f]), UrlOf) == Seqs.DedupBy(Admitted(rule, done), UrlOf) &&
      Seqs.KeysOf(Admitted(rule, done + [f]), UrlOf) == Seqs.KeysOf(Admitted(rule, done), UrlOf)
  {
    var a := Admitted(rule, done);
    AdmittedSnoc(rule, done, f);
    if Accepts(rule, f) {
      Seqs.KeysOfSnoc(a, f, UrlOf);
      Seqs.DedupBySnoc(a, f, UrlOf);
    } else {
      assert a + [] == a;
    }
  }

  /** The body of the inner loop of `get_bcbs_mn_files`: the rule and the
      `seen` set checked together on one entry. */
  method AdmitOne(files: seq<FileRef>, seen: set<string>, f: FileRef, rule: Rule, ghost done: seq<FileRef>)
    returns (out: seq<FileRef>, seenOut: set<string>)
    requires files == Seqs.DedupBy(Admitted(rule, done), UrlOf)
    requires seen == Seqs.KeysOf(Admitted(rule, done), UrlOf)
    ensures out == Seqs.DedupBy(Admitted(rule, done + [f]), UrlOf)
    ensures seenOut == Seqs.KeysOf(Admitted(rule, done + [f]), UrlOf)
  {
    UniqueStep(rule, done, f);
    out, seenOut := files, seen;
    if Accepts(rule, f) && f.url !in seen {
      seenOut := seen + {f.url};
      out := files + [f];
    }
  }

  /** The inner loop of `get_bcbs_mn_files`. */
  method AdmitUnique(files: seq<FileRef>, seen: set<string>, infos: seq<Mrf.FileInfo>, rule: Rule,
                     ghost prior: seq<FileRef>)
    returns (out: seq<FileRef>, seenOut: set<string>)
    requires files == Seqs.DedupBy(Admitted(rule, prior), UrlOf)
    requires seen == Seqs.KeysOf(Admitted(rule, prior), UrlOf)
    ensures out == Seqs.DedupBy(Admitted(rule, prior + InfoRefs(infos)), UrlOf)
    ensures seenOut == Seqs.KeysOf(Admitted(rule, prior + InfoRefs(infos)), UrlOf)
  {
    out, seenOut := files, seen;
    ghost var refs := InfoRefs(infos);
    assert prior + refs[..0] == prior;
    for k := 0 to |infos|
      invariant out == Seqs.DedupBy(Admitted(rule, prior + refs[..k]), UrlOf)
      invariant seenOut == Seqs.KeysOf(Admitted(rule, prior + refs[..k]), UrlOf)
    {
      var f := FileRef(infos[k].Location(), infos[k].Description());
      assert prior + refs[..k + 1] == (prior + refs[..k]) + [f];
      out, seenOut := AdmitOne(out, seenOut, f, rule, prior + refs[..k]);
    }
    assert refs[..|infos|] == refs;
  }

  /** The single loop of `get_bcbs_mn_files`: the same as admitting, then
      de-duplicating. */
  method CollectUnique(doc: Mrf.IndexDoc, rule: Rule) returns (files: seq<FileRef>)
    ensures files == Seqs.DedupBy(Admitted(rule, Listed(doc)), UrlOf)
  {
    var structures := doc.Structures();
    var seen: set<string> := {};
    files := [];
    for i := 0 to |structures|
      invariant files == Seqs.DedupBy(Admitted(rule, Seqs.FlatMap(structures[..i], StructureRefs)), UrlOf)
      invariant seen == Seqs.KeysOf(Admitted(rule, Seqs.FlatMap(structures[..i], StructureRefs)), UrlOf)
    {
      Seqs.FlatMapPrefix(structures, StructureRefs, i);
      files, seen := AdmitUnique(files, seen, structures[i].Files(), rule, Seqs.FlatMap(structures[..i], StructureRefs));
    }
    Seqs.FlatMapWhole(structures, StructureRefs);
  }

  /** The candidates are the admitted entries with repeated URLs dropped: each
      URL occurs once, in the order of its first admitted occurrence, with the
      description of that occurrence. */
  lemma CandidatesSpec(rule: Rule, doc: Mrf.IndexDoc)
    ensures var c := Seqs.DedupBy(Admitted(rule, Listed(doc)), UrlOf);
      (forall f :: f in c ==> f in Listed(doc) && Accepts(rule, f)) &&
      Seqs.KeysOf(c, UrlOf) == Seqs.KeysOf(Admitted(rule, Listed(doc)), UrlOf) &&
      (forall i, j :: 0 <= i < j < |c| ==> c[i].url != c[j].url) &&
      (forall i :: 0 <= i < |c| ==> Seqs.FirstWithKey(Admitted(rule, Listed(doc)), UrlOf, c[i].url) == Some(c[i]))
  {
    var a := Admitted(rule, Listed(doc));
    AdmittedSpec(rule, Listed(doc));
    Seqs.DedupBySpec(a, UrlOf);
    Seqs.DedupByMember(a, UrlOf);
  }

  // ---------------------------------------------------------------------
  // Sizes

  /** A file with the size its HEAD request reported. */
  datatype Sized = Sized(file: FileRef, size: nat)

  predicate SizeLe(a: Sized, b: Sized) { a.size <= b.size }

  function SizedUrl(s: Sized): string { s.file.url }

  /** `int(head.headers.get("content-length", 0))` inside a `try`: `None`
      when the request or the conversion raises. The status code is not
      looked at. */
  function Probe(env: Fetching.Env, url: string): Option<nat> {
    match env.head(url)
    case Failure(_) => None
    case Success(h) =>
      match Fetching.ContentLength(h.contentLength)
      case Success(n) => Some(n)
      case Failure(_) => None
  }

  /** The probed files of the full and optimized scripts: a failed probe
      drops the file, and so does a size above `cap` when there is one. */
  function ProbedWithin(env: Fetching.Env, files: seq<FileRef>, cap: Option<nat>): seq<Sized> {
    if files == [] then []
    else
      var f := files[|files| - 1];
      var p := Probe(env, f.url);
      ProbedWithin(env, files[..|files| - 1], cap) +
        (if p.Some? && (cap.None? || p.value <= cap.value) then [Sized(f, p.value)] else [])
  }

  /** The probed files of the BCBS Local script: a failed probe counts as 0. */
  function ProbedOrZero(env: Fetching.Env, files: seq<FileRef>): (r: seq<Sized>)
    ensures |r| == |files|
  {
    seq(|files|, i requires 0 <= i < |files| => Sized(files[i], Probe(env, files[i].url).GetOr(0)))
  }

  /** A kept file was probed successfully, within the cap, with the size
      kept; and every such file is kept. */
  lemma {:induction false} ProbedWithinSpec(env: Fetching.Env, files: seq<FileRef>, cap: Option<nat>)
    ensures forall s :: s in ProbedWithin(env, files, cap) ==>
      s.file in files && Probe(env, s.file.url) == Some(s.size) && (cap.Some? ==> s.size <= cap.value)
    ensures forall f ::
      (f in files && Probe(env, f.url).Some? && (cap.None? || Probe(env, f.url).value <= cap.value)) ==>
        Sized(f, Probe(env, f.url).value) in ProbedWithin(env, files, cap)
    ensures |ProbedWithin(env, files, cap)| <= |files|
  {
    if files != [] {
      var init, f := files[..|files| - 1], files[|files| - 1];
      assert files == init + [f];
      ProbedWithinSpec(env, init, cap);
    }
  }

  method ProbeSizes(env: Fetching.Env, files: seq<FileRef>, cap: Option<nat>) returns (sized: seq<Sized>)
    ensures sized == ProbedWithin(env, files, cap)
  {
    sized := [];
    for i := 0 to |files|
      invariant sized == ProbedWithin(env, files[..i], cap)
    {
      assert files[..i + 1][..i] == files[..i];
      var f := files[i];
      var p := Probe(env, f.url);
      if p.Some? && (cap.None? || p.value <= cap.value) {
        sized := sized + [Sized(f, p.value)];
      }
    }
    assert files[..|files|] == files;
  }

  lemma ProbedOrZeroSnoc(env: Fetching.Env, files: seq<FileRef>, i: nat)
    requires i < |files|
    ensures ProbedOrZero(env, files[..i + 1]) ==
      ProbedOrZero(env, files[..i]) + [Sized(files[i], Probe(env, files[i].url).GetOr(0))]
  {
    var l, r := ProbedOrZero(env, files[..i + 1]), ProbedOrZero(env, files[..i]) + [Sized(files[i], Probe(env, files[i].url).GetOr(0))];
    assert |l| == |r|;
    forall k | 0 <= k < |l| ensures l[k] == r[k] {
      assert files[..i + 1][k] == files[k];
    }
  }

  method ProbeSizesOrZero(env: Fetching.Env, files: seq<FileRef>) returns (sized: seq<Sized>)
    ensures sized == ProbedOrZero(env, files)
  {
    sized := [];
    for i := 0 to |files|
      invariant sized == ProbedOrZero(env, files[..i])
    {
      var p := Probe(env, files[i].url);
      ProbedOrZeroSnoc(env, files, i);
      sized := sized + [Sized(files[i], p.GetOr(0))];
    }
    assert files[..|files|] == files;
  }

  /** `sized.sort(key=lambda x: x["size"])`. */
  function SortBySize(sized: seq<Sized>): seq<Sized> {
    Seqs.SortBy(sized, SizeLe)
  }

  /** Sorting by size yields the same files in non-decreasing size. */
  lemma SortBySizeSpec(sized: seq<Sized>)
    ensures Seqs.SortedBy(SortBySize(sized), SizeLe)
    ensures multiset(SortBySize(sized)) == multiset(sized)
    ensures forall i, j :: 0 <= i < j < |SortBySize(sized)| ==> SortBySize(sized)[i].size <= SortBySize(sized)[j].size
  {
    Seqs.SortBySorted(sized, SizeLe);
  }

  /** Python's sort is stable: files of the same size as `s` keep the order
      they were probed in, so which of them survive `[:max_files]` follows
      the index order. */
  lemma SortBySizeStable(sized: seq<Sized>, s: Sized)
    ensures Seqs.Filter(SortBySize(sized), Seqs.Tied(SizeLe, s)) == Seqs.Filter(sized, Seqs.Tied(SizeLe, s))
  {
    Seqs.SortByStable(sized, SizeLe, s);
  }

  /** The URLs of a list of files. */
  function Urls(files: seq<Sized>): (r: seq<string>)
    ensures |r| == |files|
  {
    seq(|files|, i requires 0 <= i < |files| => files[i].file.url)
  }

  /** A URL no candidate has is on no probed file. */
  lemma ProbedAvoids(env: Fetching.Env, files: seq<FileRef>, cap: Option<nat>, url: string)
    requires forall k :: 0 <= k < |files| ==> files[k].url != url
    ensures forall i :: 0 <= i < |ProbedWithin(env, files, cap)| ==> ProbedWithin(env, files, cap)[i].file.url != url
  {
    ProbedWithinSpec(env, files, cap);
    var p := ProbedWithin(env, files, cap);
    forall i | 0 <= i < |p| ensures p[i].file.url != url {
      assert p[i] in p;
      var k :| 0 <= k < |files| && files[k] == p[i].file;
    }
  }

  /** Probing keeps URLs distinct. */
  lemma {:induction false} ProbedDistinct(env: Fetching.Env, files: seq<FileRef>, cap: Option<nat>)
    requires Seqs.DistinctKeys(files, UrlOf)
    ensures Seqs.DistinctKeys(ProbedWithin(env, files, cap), SizedUrl)
  {
    if files != [] {
      var init, f := files[..|files| - 1], files[|files| - 1];
      assert files == init + [f];
      assert Seqs.DistinctKeys(init, UrlOf);
      assert forall k :: 0 <= k < |init| ==> UrlOf(files[k]) != UrlOf(files[|files| - 1]);
      ProbedDistinct(env, init, cap);
      ProbedAvoids(env, init, cap, f.url);
      var p := Probe(env, f.url);
      if p.Some? && (cap.None? || p.value <= cap.value) {
        Seqs.DistinctKeysSnoc(ProbedWithin(env, init, cap), Sized(f, p.value), SizedUrl);
      }
    }
  }

  /** The files the full and optimized scripts go on to ingest, from a list
      of candidates with distinct URLs: each was a candidate, probed to the
      size it carries, within the cap; every candidate so probed is there;
      no URL repeats; and they come smallest first. */
  lemma SortedProbedSpec(env: Fetching.Env, files: seq<FileRef>, cap: Option<nat>)
    requires Seqs.DistinctKeys(files, UrlOf)
    ensures var r := SortBySize(ProbedWithin(env, files, cap));
      (forall s :: s in r ==>
        s.file in files && Probe(env, s.file.url) == Some(s.size) && (cap.Some? ==> s.size <= cap.value)) &&
      (forall f :: f in files && Probe(env, f.url).Some? && (cap.None? || Probe(env, f.url).value <= cap.value) ==>
        Sized(f, Probe(env, f.url).value) in r) &&
      Seqs.DistinctKeys(r, SizedUrl) &&
      (forall i, j :: 0 <= i < j < |r| ==> r[i].size <= r[j].size) &&
      |r| <= |files|
  {
    var p := ProbedWithin(env, files, cap);
    ProbedWithinSpec(env, files, cap);
    ProbedDistinct(env, files, cap);
    SortBySizeSpec(p);
    Seqs.DistinctKeysPerm(p, SortBySize(p), SizedUrl);
    forall s | s in SortBySize(p) ensures s in p {
      assert s in multiset(SortBySize(p));
    }
    forall s | s in p ensures s in SortBySize(p) {
      assert s in multiset(p);
    }
  }

  /** A leading part of a sorted list of distinct files is one too, and
      holds nothing the list does not. */
  lemma SortedPrefix(sorted: seq<Sized>, r: seq<Sized>)
    requires |r| <= |sorted| && r == sorted[..|r|]
    requires Seqs.DistinctKeys(sorted, SizedUrl)
    requires forall i, j :: 0 <= i < j < |sorted| ==> sorted[i].size <= sorted[j].size
    ensures forall s :: s in r ==> s in sorted
    ensures Seqs.DistinctKeys(r, SizedUrl)
    ensures forall i, j :: 0 <= i < j < |r| ==> r[i].size <= r[j].size
  {
    forall s | s in r ensures s in sorted {
      var k :| 0 <= k < |r| && r[k] == s;
      assert sorted[k] == s;
    }
  }

  /** The sorted probed files cut to a limit, as the full script takes them. */
  lemma TruncatedProbedSpec(env: Fetching.Env, files: seq<FileRef>, cap: Option<nat>, limit: Option<int>, r: seq<Sized>)
    requires Seqs.DistinctKeys(files, UrlOf)
    requires r == Seqs.TruncateIfSet(SortBySize(ProbedWithin(env, files, cap)), limit)
    ensures forall s :: s in r ==>
      s.file in files && Probe(env, s.file.url) == Some(s.size) && (cap.Some? ==> s.size <= cap.value)
    ensures Seqs.DistinctKeys(r, SizedUrl)
    ensures forall i, j :: 0 <= i < j < |r| ==> r[i].size <= r[j].size
    ensures |r| <= |files|
    ensures limit.Some? && limit.value > 0 ==> |r| <= limit.value
  {
    var p := ProbedWithin(env, files, cap);
    var sorted := SortBySize(p);
    ProbedWithinSpec(env, files, cap);
    ProbedDistinct(env, files, cap);
    SortBySizeSpec(p);
    Seqs.DistinctKeysPerm(p, sorted, SizedUrl);
    SortedPrefix(sorted, r);
    assert |r| <= |sorted| == |p| <= |files|;
    forall s | s in r
      ensures s.file in files && Probe(env, s.file.url) == Some(s.size) && (cap.Some? ==> s.size <= cap.value)
    {
      assert s in multiset(sorted);
      assert s in p;
    }
  }

  // ---------------------------------------------------------------------
  // Already ingested files

  /** The files whose URL is not yet ingested, in order. */
  function NotIngested(s: Storage.Store, files: seq<FileRef>): (r: seq<FileRef>)
    ensures forall f :: f in r <==> f in files && !s.IsIngested(f.url)
  {
    if files == [] then []
    else
      var init, f := files[..|files| - 1], files[|files| - 1];
      assert files == init + [f];
      NotIngested(s, init) + (if s.IsIngested(f.url) then [] else [f])
  }

  method FilterNotIngested(db: Storage.RatesDatabase, files: seq<FileRef>) returns (r: seq<FileRef>)
    ensures r == NotIngested(db.Snapshot(), files)
  {
    r := [];
    for i := 0 to |files|
      invariant r == NotIngested(db.Snapshot(), files[..i])
    {
      assert files[..i + 1][..i] == files[..i];
      if !db.IsFileIngested(files[i].url) {
        r := r + [files[i]];
      }
    }
    assert files[..|files|] == files;
  }
}
