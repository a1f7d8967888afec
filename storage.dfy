/** The rate store: flat rate rows, the per-file ingestion log and the
    provider registry, as kept by `RatesDatabase` in src/storage.py. The
    tables are sequences in insertion order; `Store` is a value snapshot of
    the two tables that ingestion changes. */
module Storage {
  import opened Wrappers
  import Dates
  import Seqs

  /** One row of the `rates` table. */
  datatype RateRecord = RateRecord(
    payerName: string,
    lastUpdated: Option<Dates.Date>,
    billingCode: string,
    billingCodeType: string,
    negotiatedRate: real,
    negotiatedType: string,
    billingClass: string,
    placeOfService: Option<string>,
    npi: string,
    tin: Option<string>,
    providerName: Option<string>,
    providerState: Option<string>,
    providerCity: Option<string>,
    providerZip: Option<string>,
    fileSource: Option<string>)

  datatype Status = Running | Complete | Error

  /** One row of `ingestion_log`; the id comes from a sequence starting at 1. */
  datatype LogEntry = LogEntry(
    id: int,
    payerName: string,
    fileUrl: string,
    status: Status,
    recordsInserted: int,
    errorMessage: Option<string>)

  /** One row of `nppes_providers`. */
  datatype NppesProvider = NppesProvider(
    npi: string,
    providerName: string,
    providerType: string,
    taxonomyCode: string,
    taxonomyDesc: string,
    addressLine1: string,
    city: string,
    state: string,
    zip: string,
    phone: string)

  datatype RateStats = RateStats(totalRates: nat, payers: nat, cptCodes: nat, providers: nat)

  function PayerOf(r: RateRecord): string { r.payerName }
  function CodeOf(r: RateRecord): string { r.billingCode }
  function NpiOf(r: RateRecord): string { r.npi }
  function ProviderNpi(p: NppesProvider): string { p.npi }

  /** `get_rate_stats`: the row count and the distinct payers, codes and NPIs. */
  function Stats(rates: seq<RateRecord>): RateStats {
    RateStats(|rates|, |Seqs.KeysOf(rates, PayerOf)|, |Seqs.KeysOf(rates, CodeOf)|,
              |Seqs.KeysOf(rates, NpiOf)|)
  }

  /** No distinct count exceeds the row count, and inserting rows never lowers
      any of the four figures. */
  lemma StatsBounds(rates: seq<RateRecord>, more: seq<RateRecord>)
    ensures var st := Stats(rates);
      st.payers <= st.totalRates && st.cptCodes <= st.totalRates && st.providers <= st.totalRates
    ensures var st, st2 := Stats(rates), Stats(rates + more);
      st2.totalRates == st.totalRates + |more| && st.payers <= st2.payers &&
      st.cptCodes <= st2.cptCodes && st.providers <= st2.providers
  {
    Seqs.KeysOfBound(rates, PayerOf);
    Seqs.KeysOfBound(rates, CodeOf);
    Seqs.KeysOfBound(rates, NpiOf);
    Seqs.KeysOfAppend(rates, more, PayerOf);
    Seqs.KeysOfAppend(rates, more, CodeOf);
    Seqs.KeysOfAppend(rates, more, NpiOf);
    Subset(Seqs.KeysOf(rates, PayerOf), Seqs.KeysOf(rates + more, PayerOf));
    Subset(Seqs.KeysOf(rates, CodeOf), Seqs.KeysOf(rates + more, CodeOf));
    Subset(Seqs.KeysOf(rates, NpiOf), Seqs.KeysOf(rates + more, NpiOf));
  }

  lemma Subset<K>(a: set<K>, b: set<K>)
    requires a <= b
    ensures |a| <= |b|
  {
    assert b == a + (b - a);
  }

  /** Every entry carries the id of its position: ids 1, 2, 3, ... */
  ghost predicate IdsAreSequential(log: seq<LogEntry>) {
    forall i :: 0 <= i < |log| ==> log[i].id == i + 1
  }

  /** `UPDATE ingestion_log SET status = 'complete', records_inserted = n WHERE id = ?` */
  function MarkComplete(log: seq<LogEntry>, id: int, n: int): (r: seq<LogEntry>)
    ensures |r| == |log|
  {
    seq(|log|, i requires 0 <= i < |log| =>
      if log[i].id == id then log[i].(status := Complete, recordsInserted := n) else log[i])
  }

  /** `UPDATE ingestion_log SET status = 'error', error_message = ? WHERE id = ?` */
  function MarkError(log: seq<LogEntry>, id: int, message: string): (r: seq<LogEntry>)
    ensures |r| == |log|
  {
    seq(|log|, i requires 0 <= i < |log| =>
      if log[i].id == id then log[i].(status := Error, errorMessage := Some(message)) else log[i])
  }

  /** The two tables ingestion writes, as values. */
  datatype Store = Store(rates: seq<RateRecord>, log: seq<LogEntry>) {

    ghost predicate Valid() { IdsAreSequential(log) }

    function Insert(records: seq<RateRecord>): Store {
      this.(rates := rates + records)
    }

    /** `log_ingestion_start`: a new `running` entry with the next id. */
    function Start(payerName: string, fileUrl: string): (Store, int) {
      var id := |log| + 1;
      (this.(log := log + [LogEntry(id, payerName, fileUrl, Running, 0, None)]), id)
    }

    function Completed(id: int, n: int): Store {
      this.(log := MarkComplete(log, id, n))
    }

    function Failed(id: int, message: string): Store {
      this.(log := MarkError(log, id, message))
    }

    /** `is_file_ingested`: some entry for exactly this URL is complete. */
    predicate IsIngested(url: string) {
      exists i :: 0 <= i < |log| && log[i].fileUrl == url && log[i].status == Complete
    }
  }

  /** Starting a file appends one `running` entry whose id no earlier entry
      has, keeps the ids sequential, and makes no URL count as ingested that
      did not before. */
  lemma StartSpec(s: Store, payerName: string, fileUrl: string)
    requires s.Valid()
    ensures var (t, id) := s.Start(payerName, fileUrl);
      t.Valid() && t.rates == s.rates &&
      t.log == s.log + [LogEntry(id, payerName, fileUrl, Running, 0, None)] &&
      (forall i :: 0 <= i < |s.log| ==> s.log[i].id != id) &&
      (forall u :: t.IsIngested(u) <==> s.IsIngested(u))
  {
    var (t, id) := s.Start(payerName, fileUrl);
    forall u ensures t.IsIngested(u) <==> s.IsIngested(u) {
      if t.IsIngested(u) {
        var i :| 0 <= i < |t.log| && t.log[i].fileUrl == u && t.log[i].status == Complete;
        assert i < |s.log| && s.log[i] == t.log[i];
      }
      if s.IsIngested(u) {
        var i :| 0 <= i < |s.log| && s.log[i].fileUrl == u && s.log[i].status == Complete;
        assert t.log[i] == s.log[i];
      }
    }
  }

  /** Completing entry `id` changes that entry's status and count only; the
      URL of that entry is then ingested. An id with no entry changes nothing. */
  lemma CompleteSpec(s: Store, id: int, n: int)
    requires s.Valid()
    ensures var t := s.Completed(id, n);
      t.Valid() && t.rates == s.rates && |t.log| == |s.log| &&
      (forall i :: 0 <= i < |s.log| && i != id - 1 ==> t.log[i] == s.log[i]) &&
      (1 <= id <= |s.log| ==>
        t.log[id - 1] == s.log[id - 1].(status := Complete, recordsInserted := n) &&
        t.IsIngested(s.log[id - 1].fileUrl)) &&
      (!(1 <= id <= |s.log|) ==> t == s)
  {
    var t := s.Completed(id, n);
    if 1 <= id <= |s.log| {
      assert t.log[id - 1].fileUrl == s.log[id - 1].fileUrl && t.log[id - 1].status == Complete;
    } else {
      assert t.log == s.log;
    }
  }

  /** Marking entry `id` as failed changes that entry's status and message
      only; its record count stays. When that entry was not complete, no URL
      changes whether it is ingested. */
  lemma FailSpec(s: Store, id: int, message: string)
    requires s.Valid()
    ensures var t := s.Failed(id, message);
      t.Valid() && t.rates == s.rates && |t.log| == |s.log| &&
      (forall i :: 0 <= i < |s.log| && i != id - 1 ==> t.log[i] == s.log[i]) &&
      (1 <= id <= |s.log| ==>
        t.log[id - 1] == s.log[id - 1].(status := Error, errorMessage := Some(message))) &&
      (!(1 <= id <= |s.log|) ==> t == s) &&
      ((1 <= id <= |s.log| ==> s.log[id - 1].status != Complete) ==>
        forall u :: t.IsIngested(u) <==> s.IsIngested(u))
  {
    var t := s.Failed(id, message);
    if !(1 <= id <= |s.log|) {
      assert t.log == s.log;
    }
    if 1 <= id <= |s.log| ==> s.log[id - 1].status != Complete {
      forall u ensures t.IsIngested(u) <==> s.IsIngested(u) {
        if t.IsIngested(u) {
          var i :| 0 <= i < |t.log| && t.log[i].fileUrl == u && t.log[i].status == Complete;
          assert s.log[i] == t.log[i];
        }
        if s.IsIngested(u) {
          var i :| 0 <= i < |s.log| && s.log[i].fileUrl == u && s.log[i].status == Complete;
          assert t.log[i] == s.log[i];
        }
      }
    }
  }

  /** `records` cut into consecutive slices of `batchSize`: the batches of
      `for i in range(0, len(records), batch_size)`. */
  function Batches(records: seq<RateRecord>, batchSize: nat): seq<seq<RateRecord>>
    requires batchSize > 0
    decreases |records|
  {
    if records == [] then []
    else if |records| <= batchSize then [records]
    else [records[..batchSize]] + Batches(records[batchSize..], batchSize)
  }

  /** The batches from row `i` are the one ending at `end`, then the rest. */
  lemma BatchesStep(records: seq<RateRecord>, batchSize: nat, i: nat, end: nat)
    requires batchSize > 0 && i < |records|
    requires end == if i + batchSize <= |records| then i + batchSize else |records|
    ensures Batches(records[i..], batchSize) == [records[i..end]] + Batches(records[end..], batchSize)
  {
    var rest := records[i..];
    if |rest| <= batchSize {
      assert records[i..end] == rest && records[end..] == [];
    } else {
      assert rest[..batchSize] == records[i..end] && rest[batchSize..] == records[end..];
    }
  }

  /** Together the batches are all the rows, in order. */
  lemma {:induction false} BatchesCover(records: seq<RateRecord>, batchSize: nat)
    requires batchSize > 0
    ensures Seqs.Flatten(Batches(records, batchSize)) == records
    decreases |records|
  {
    if records == [] {
    } else if |records| <= batchSize {
      assert Seqs.Flatten([records]) == Seqs.Flatten([]) + records;
    } else {
      var rest := records[batchSize..];
      BatchesCover(rest, batchSize);
      Seqs.FlattenCons(records[..batchSize], Batches(rest, batchSize));
      assert records == records[..batchSize] + rest;
    }
  }

  /** Every batch is non-empty and holds at most `batchSize` rows, and every
      batch but the last holds exactly `batchSize`: with the previous lemma,
      the k-th batch is the slice starting at row k * batchSize. */
  lemma {:induction false} BatchesShape(records: seq<RateRecord>, batchSize: nat)
    requires batchSize > 0
    ensures forall k :: 0 <= k < |Batches(records, batchSize)| ==>
      0 < |Batches(records, batchSize)[k]| <= batchSize
    ensures forall k :: 0 <= k < |Batches(records, batchSize)| - 1 ==>
      |Batches(records, batchSize)[k]| == batchSize
    decreases |records|
  {
    if |records| > batchSize {
      var rest := records[batchSize..];
      BatchesShape(rest, batchSize);
      var bs := Batches(records, batchSize);
      assert forall k | 1 <= k < |bs| :: bs[k] == Batches(rest, batchSize)[k - 1];
    }
  }

  /** The DuckDB file behind `RatesDatabase`. */
  class RatesDatabase {
    var rates: seq<RateRecord>
    var log: seq<LogEntry>
    var providers: seq<NppesProvider>

    ghost predicate Valid() reads this {
      IdsAreSequential(log)
    }

    function Snapshot(): Store reads this {
      Store(rates, log)
    }

    /** `RatesDatabase(db_path)`: connecting to the file and creating the
        schema `IF NOT EXISTS` keeps the tables already in it, which are
        `onDisk` and `onDiskProviders` (empty for a path with no file yet).
        The log ids of a file only this class has written are 1, 2, ... */
    constructor (onDisk: Store, onDiskProviders: seq<NppesProvider>)
      requires onDisk.Valid()
      ensures Valid() && Snapshot() == onDisk && providers == onDiskProviders
    {
      rates, log, providers := onDisk.rates, onDisk.log, onDiskProviders;
    }

    /** `insert_rates`: appends the records batch by batch and returns how many
        it appended. Python's `range` with a negative step yields no batch. */
    method InsertRates(records: seq<RateRecord>, batchSize: int)
      returns (inserted: int, ghost batches: seq<seq<RateRecord>>)
      requires batchSize != 0
      modifies this`rates
      ensures batchSize > 0 ==>
        inserted == |records| && rates == old(rates) + records &&
        batches == Batches(records, batchSize)
      ensures batchSize < 0 ==> inserted == 0 && rates == old(rates) && batches == []
    {
      batches := [];
      if records == [] {
        return 0, batches;
      }
      inserted := 0;
      if batchSize < 0 {
        return;
      }
      var i := 0;
      while i < |records|
        invariant 0 <= i <= |records|
        invariant rates == old(rates) + records[..i]
        invariant inserted == i
        invariant batches + Batches(records[i..], batchSize) == Batches(records, batchSize)
        decreases |records| - i
      {
        var end := if i + batchSize <= |records| then i + batchSize else |records|;
        var batch := records[i..end];
        assert records[..end] == records[..i] + batch;
        BatchesStep(records, batchSize, i, end);
        rates := rates + batch;
        inserted := inserted + |batch|;
        batches := batches + [batch];
        i := end;
      }
      assert records[..i] == records;
    }

    method LogIngestionStart(payerName: string, fileUrl: string) returns (id: int)
      modifies this`log
      ensures (Snapshot(), id) == old(Snapshot()).Start(payerName, fileUrl)
    {
      id := |log| + 1;
      log := log + [LogEntry(id, payerName, fileUrl, Running, 0, None)];
    }

    method LogIngestionComplete(id: int, recordsInserted: int)
      modifies this`log
      ensures Snapshot() == old(Snapshot()).Completed(id, recordsInserted)
    {
      log := MarkComplete(log, id, recordsInserted);
    }

    method LogIngestionError(id: int, message: string)
      modifies this`log
      ensures Snapshot() == old(Snapshot()).Failed(id, message)
    {
      log := MarkError(log, id, message);
    }

    predicate IsFileIngested(url: string) reads this {
      Snapshot().IsIngested(url)
    }

    function GetRateStats(): RateStats reads this {
      Stats(rates)
    }

    /** `DELETE FROM nppes_providers` followed by the inserts: afterwards the
        table holds exactly the given providers, in order. */
    method ReplaceProviders(newProviders: seq<NppesProvider>, batchSize: nat)
      requires batchSize > 0
      requires forall i, j :: 0 <= i < j < |newProviders| ==> newProviders[i].npi != newProviders[j].npi
      modifies this`providers
      ensures providers == newProviders
    {
      providers := [];
      var i := 0;
      while i < |newProviders|
        invariant 0 <= i <= |newProviders|
        invariant providers == newProviders[..i]
        decreases |newProviders| - i
      {
        var end := if i + batchSize <= |newProviders| then i + batchSize else |newProviders|;
        assert newProviders[..end] == newProviders[..i] + newProviders[i..end];
        providers := providers + newProviders[i..end];
        i := end;
      }
      assert newProviders[..i] == newProviders;
    }
  }
}
