/** The per-file ingestion protocol that every coordinator follows: skip a
    source whose log already holds a `complete` entry, otherwise open a
    `running` entry, then either store the extracted records and complete the
    entry with their count, or mark it `error` with the failure's message.
    Fetching, decompressing and parsing a file are summed up by its outcome:
    the records it yields or the message of the exception it raised. */
module Ingestion {
  import opened Wrappers
  import opened Storage

  type Outcome = Result<seq<RateRecord>, string>

  /** The rows an outcome stores. */
  function RecordsOf(outcome: Outcome): seq<RateRecord> {
    match outcome
    case Success(records) => records
    case Failure(_) => []
  }

  /** The entry a file's attempt leaves in the log. */
  function FinalEntry(id: int, payerName: string, url: string, outcome: Outcome): LogEntry {
    match outcome
    case Success(records) => LogEntry(id, payerName, url, Complete, |records|, None)
    case Failure(message) => LogEntry(id, payerName, url, Error, 0, Some(message))
  }

  /** One attempt, without the skip check: start, then complete or fail.
      Storing no records completes the entry with 0. */
  function Attempt(s: Store, payerName: string, url: string, outcome: Outcome): (Store, int) {
    var (started, id) := s.Start(payerName, url);
    match outcome
    case Failure(message) => (started.Failed(id, message), 0)
    case Success(records) => (started.Insert(records).Completed(id, |records|), |records|)
  }

  /** `process_file`: an already ingested URL returns 0 and touches nothing. */
  function ProcessFile(s: Store, payerName: string, url: string, outcome: Outcome): (Store, int) {
    if s.IsIngested(url) then (s, 0) else Attempt(s, payerName, url, outcome)
  }

  /** One file to visit and what fetching it would give. */
  datatype Job = Job(url: string, outcome: Outcome)

  function Step(s: Store, payerName: string, job: Job, skipExisting: bool): (Store, int) {
    if skipExisting then ProcessFile(s, payerName, job.url, job.outcome)
    else Attempt(s, payerName, job.url, job.outcome)
  }

  /** The coordinators' loops: visit the jobs in order and add up the counts. */
  function RunAll(s: Store, payerName: string, jobs: seq<Job>, skipExisting: bool): (Store, int) {
    if jobs == [] then (s, 0)
    else
      var (t, total) := RunAll(s, payerName, jobs[..|jobs| - 1], skipExisting);
      var (u, n) := Step(t, payerName, jobs[|jobs| - 1], skipExisting);
      (u, total + n)
  }

  // ---------------------------------------------------------------------

  /** An attempt appends exactly one entry, with the next id, whose final
      state is `complete` with the number of records or `error` with the
      message; the rates grow by exactly the records, in order, and the count
      returned is their number. A success makes the URL ingested; a failure
      changes no URL's ingested state. */
  lemma AttemptSpec(s: Store, payerName: string, url: string, outcome: Outcome)
    requires s.Valid()
    ensures var (t, n) := Attempt(s, payerName, url, outcome);
      t.Valid() &&
      t.log == s.log + [FinalEntry(|s.log| + 1, payerName, url, outcome)] &&
      t.rates == s.rates + RecordsOf(outcome) &&
      n == |RecordsOf(outcome)| &&
      (outcome.Success? ==> t.IsIngested(url)) &&
      (outcome.Failure? ==> forall u :: t.IsIngested(u) <==> s.IsIngested(u))
  {
    var (started, id) := s.Start(payerName, url);
    StartSpec(s, payerName, url);
    var t := Attempt(s, payerName, url, outcome).0;
    match outcome {
      case Failure(message) =>
        FailSpec(started, id, message);
        assert t.log == s.log + [FinalEntry(|s.log| + 1, payerName, url, outcome)] by {
          forall i | 0 <= i < |t.log| ensures t.log[i] == (s.log + [FinalEntry(id, payerName, url, outcome)])[i] {
            if i < |s.log| {
              assert started.log[i] == s.log[i];
            }
          }
        }
      case Success(records) =>
        var stored := started.Insert(records);
        assert stored.Valid();
        CompleteSpec(stored, id, |records|);
        assert t.log == s.log + [FinalEntry(|s.log| + 1, payerName, url, outcome)] by {
          forall i | 0 <= i < |t.log| ensures t.log[i] == (s.log + [FinalEntry(id, payerName, url, outcome)])[i] {
            if i < |s.log| {
              assert started.log[i] == s.log[i];
            }
          }
        }
    }
  }

  /** A URL that is already ingested is skipped: same store, count 0. A URL
      that is not is attempted. */
  lemma ProcessFileSkips(s: Store, payerName: string, url: string, outcome: Outcome)
    ensures s.IsIngested(url) ==> ProcessFile(s, payerName, url, outcome) == (s, 0)
    ensures !s.IsIngested(url) ==> ProcessFile(s, payerName, url, outcome) == Attempt(s, payerName, url, outcome)
  {
  }

  /** Re-running a file after it succeeded changes nothing, whatever the
      second fetch would give; after a failure the file is tried again. */
  lemma ProcessFileIdempotent(s: Store, payerName: string, url: string, first: Outcome,
                              payerName2: string, second: Outcome)
    requires s.Valid()
    ensures var (t, _) := ProcessFile(s, payerName, url, first);
      (first.Success? || s.IsIngested(url) ==> ProcessFile(t, payerName2, url, second) == (t, 0)) &&
      (first.Failure? && !s.IsIngested(url) ==>
        ProcessFile(t, payerName2, url, second) == Attempt(t, payerName2, url, second))
  {
    AttemptSpec(s, payerName, url, first);
  }

  /** A ingested URL stays ingested: no step turns a `complete` entry into
      anything else. */
  lemma StepKeepsIngested(s: Store, payerName: string, job: Job, skipExisting: bool)
    requires s.Valid()
    ensures var (t, n) := Step(s, payerName, job, skipExisting);
      t.Valid() && |s.log| <= |t.log| <= |s.log| + 1 && t.log[..|s.log|] == s.log &&
      t.rates == s.rates + (if |t.log| == |s.log| then [] else RecordsOf(job.outcome)) &&
      n == |t.rates| - |s.rates| &&
      (!skipExisting ==> |t.log| == |s.log| + 1) &&
      (|t.log| == |s.log| + 1 ==> t.log[|s.log|] == FinalEntry(|s.log| + 1, payerName, job.url, job.outcome)) &&
      (forall u :: s.IsIngested(u) ==> t.IsIngested(u))
  {
    var (t, n) := Step(s, payerName, job, skipExisting);
    if skipExisting && s.IsIngested(job.url) {
      assert t == s;
      assert t.log[..|s.log|] == s.log;
    } else {
      AttemptSpec(s, payerName, job.url, job.outcome);
      assert t.log[..|s.log|] == s.log;
      forall u | s.IsIngested(u) ensures t.IsIngested(u) {
        var i :| 0 <= i < |s.log| && s.log[i].fileUrl == u && s.log[i].status == Complete;
        assert t.log[i] == s.log[i];
      }
    }
  }

  /** Running a list of jobs keeps the ids sequential, only appends to the
      log, leaves every new entry finalised (never `running`) and written for
      the given payer, appends to the rates exactly as many rows as the total
      it returns, and never un-ingests a URL. Without the skip check every
      job gets exactly one entry. */
  lemma {:induction false} RunAllSpec(s: Store, payerName: string, jobs: seq<Job>, skipExisting: bool)
    requires s.Valid()
    ensures var (t, total) := RunAll(s, payerName, jobs, skipExisting);
      t.Valid() && |s.log| <= |t.log| <= |s.log| + |jobs| && t.log[..|s.log|] == s.log &&
      (forall i :: |s.log| <= i < |t.log| ==> t.log[i].status != Running && t.log[i].payerName == payerName) &&
      |s.rates| <= |t.rates| && t.rates[..|s.rates|] == s.rates && total == |t.rates| - |s.rates| &&
      (!skipExisting ==> |t.log| == |s.log| + |jobs|) &&
      (forall u :: s.IsIngested(u) ==> t.IsIngested(u))
  {
    if jobs != [] {
      var init, job := jobs[..|jobs| - 1], jobs[|jobs| - 1];
      RunAllSpec(s, payerName, init, skipExisting);
      var (t, total) := RunAll(s, payerName, init, skipExisting);
      StepKeepsIngested(t, payerName, job, skipExisting);
      var (u, n) := Step(t, payerName, job, skipExisting);
      assert u.log[..|s.log|] == s.log by {
        assert u.log[..|t.log|] == t.log;
        assert u.log[..|s.log|] == u.log[..|t.log|][..|s.log|];
      }
      assert u.rates[..|s.rates|] == s.rates by {
        assert u.rates[..|t.rates|] == t.rates;
        assert u.rates[..|s.rates|] == u.rates[..|t.rates|][..|s.rates|];
      }
      forall i | |s.log| <= i < |u.log| ensures u.log[i].status != Running && u.log[i].payerName == payerName {
        if i < |t.log| {
          assert u.log[i] == u.log[..|t.log|][i];
        }
      }
    }
  }

  /** The rows a run adds are rows of its jobs' outcomes: when every record
      any job would yield has a property, so does every row the run adds,
      and the rows already stored are kept. */
  lemma {:induction false} RunAllAdds(s: Store, payerName: string, jobs: seq<Job>, skipExisting: bool,
                                      ok: RateRecord -> bool)
    requires forall j, r :: j in jobs && r in RecordsOf(j.outcome) ==> ok(r)
    ensures var t := RunAll(s, payerName, jobs, skipExisting).0;
      |s.rates| <= |t.rates| && t.rates[..|s.rates|] == s.rates &&
      forall i :: |s.rates| <= i < |t.rates| ==> ok(t.rates[i])
  {
    if jobs != [] {
      var init, job := jobs[..|jobs| - 1], jobs[|jobs| - 1];
      assert forall j :: j in init ==> j in jobs;
      RunAllAdds(s, payerName, init, skipExisting, ok);
      var t := RunAll(s, payerName, init, skipExisting).0;
      assert job in jobs;
      StepRates(t, payerName, job, skipExisting);
      AddsMore(s.rates, t.rates, Step(t, payerName, job, skipExisting).0.rates, RecordsOf(job.outcome), ok);
    }
  }

  /** A step stores nothing or exactly the job's records. */
  lemma StepRates(t: Store, payerName: string, job: Job, skipExisting: bool)
    ensures var u := Step(t, payerName, job, skipExisting).0;
      u.rates == t.rates || u.rates == t.rates + RecordsOf(job.outcome)
  {
    var (started, id) := t.Start(payerName, job.url);
  }

  /** Keeping a prefix and a property of the rows after it, through one
      more batch of rows that have the property. */
  lemma AddsMore(s: seq<RateRecord>, t: seq<RateRecord>, u: seq<RateRecord>, extra: seq<RateRecord>,
                 ok: RateRecord -> bool)
    requires |s| <= |t| && t[..|s|] == s && forall i :: |s| <= i < |t| ==> ok(t[i])
    requires u == t || u == t + extra
    requires forall r :: r in extra ==> ok(r)
    ensures |s| <= |u| && u[..|s|] == s && forall i :: |s| <= i < |u| ==> ok(u[i])
  {
    assert u[..|t|] == t;
    assert u[..|s|] == u[..|t|][..|s|];
    forall i | |s| <= i < |u| ensures ok(u[i]) {
      if i < |t| {
        assert u[i] == t[i];
      } else {
        assert u[i] == extra[i - |t|];
      }
    }
  }

  /** Running one more job is one more step after the others. */
  lemma RunAllSnoc(s: Store, payerName: string, jobs: seq<Job>, job: Job, skipExisting: bool)
    ensures var (t, total) := RunAll(s, payerName, jobs, skipExisting);
      var (u, n) := Step(t, payerName, job, skipExisting);
      RunAll(s, payerName, jobs + [job], skipExisting) == (u, total + n)
  {
    assert (jobs + [job])[..|jobs + [job]| - 1] == jobs;
  }

  /** The loop step in the form the coordinators use it: from the state and
      count after `jobs`, one more step gives the run of `jobs + [job]`. */
  lemma RunAllNext(s: Store, payerName: string, jobs: seq<Job>, job: Job, skipExisting: bool,
                   t: Store, total: int, u: Store, n: int)
    requires (t, total) == RunAll(s, payerName, jobs, skipExisting)
    requires (u, n) == Step(t, payerName, job, skipExisting)
    ensures RunAll(s, payerName, jobs + [job], skipExisting) == (u, total + n)
  {
    RunAllSnoc(s, payerName, jobs, job, skipExisting);
  }

  /** Running `a` then `b` is running their concatenation, with the counts
      added: a failing file changes nothing for the files after it beyond
      its own error entry. */
  lemma {:induction false} RunAllAppend(s: Store, payerName: string, a: seq<Job>, b: seq<Job>, skipExisting: bool)
    ensures var (t, n) := RunAll(s, payerName, a, skipExisting);
      var (u, m) := RunAll(t, payerName, b, skipExisting);
      RunAll(s, payerName, a + b, skipExisting) == (u, n + m)
    decreases |b|
  {
    if b == [] {
      assert a + b == a;
    } else {
      assert (a + b)[..|a + b| - 1] == a + b[..|b| - 1];
      assert (a + b)[|a + b| - 1] == b[|b| - 1];
      RunAllAppend(s, payerName, a, b[..|b| - 1], skipExisting);
    }
  }

  // ---------------------------------------------------------------------

  /** The common ending of the coordinators' `try` blocks: store the records
      when there are any and complete the entry with the number stored. */
  method Conclude(db: RatesDatabase, id: int, records: seq<RateRecord>) returns (inserted: int)
    modifies db`rates, db`log
    ensures (db.Snapshot(), inserted) == (old(db.Snapshot()).Insert(records).Completed(id, |records|), |records|)
  {
    if records == [] {
      assert db.Snapshot().Insert(records) == db.Snapshot() by {
        assert db.rates + records == db.rates;
      }
      db.LogIngestionComplete(id, 0);
      return 0;
    }
    ghost var batches: seq<seq<RateRecord>>;
    inserted, batches := db.InsertRates(records, 10000);
    db.LogIngestionComplete(id, inserted);
  }
}
