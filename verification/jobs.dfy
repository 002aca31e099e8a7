/**
 * The background search job of the web application: the per-job status
 * store that the browser polls, the slot holding the latest result, the
 * bounded search log, the retry loop around the scraper, and the route that
 * validates a search and queues the job.
 *
 * Each method of `StatusStore` is one critical section of the application
 * and is atomic; no interleaving of jobs is modelled. The clock, the
 * reachability probe, the scraper's behaviour on each attempt and the
 * outcome of writing the report files are inputs.
 */
module Jobs {
  import opened Text
  import opened ErrorPolicy
  import Extractor

  // ---------------------------------------------------------------------
  // Job states and statuses

  datatype JobState = Queued | Starting | Running | Completed | CompletedWithWarning | Failed

  /** The state names the status endpoint reports. */
  function StateName(s: JobState): string {
    match s
    case Queued => "queued"
    case Starting => "starting"
    case Running => "running"
    case Completed => "completed"
    case CompletedWithWarning => "completed_with_warning"
    case Failed => "failed"
  }

  /** One entry of the status store. `errorType` and `retryable` are present
      only on entries written by the failure handler for a raised error. */
  datatype JobStatus = JobStatus(
    state: JobState,
    message: string,
    progress: int,
    timestamp: real,
    dataReady: bool,
    errorType: Option<ErrorKind>,
    retryable: Option<bool>)

  /** The latest result slot: the scraped record (also when its files could
      not be written), the failure record of a search that found no data, or
      the failure record of a raised error. The failure records have status
      Failed, their four fields "N/A" and pdf_link "#". */
  datatype Latest =
    | Scraped(record: Extractor.CaseRecord)
    | NoData(error: string)
    | Crashed(error: string, errorType: ErrorKind, retryable: bool)

  const MaxAttempts := 3
  const MaxAge: real := 3600.0

  const QueuedMessage := "Search request received, starting soon..."
  const StartingMessage := "Initializing case search..."
  const RunningMessage := "Browser initialized, accessing court website..."
  const ProcessingMessage := "Processing retrieved data..."
  const CompletedMessage := "Case information retrieved and saved successfully!"
  const WarningMessage := "Case information retrieved but file saving failed"
  const NoDataPrefix := "Search completed but no data found: "
  const NoDataDefault := "Case not found or scraping failed"
  const NoRecord := "Unknown error occurred"

  const AttemptLead := "Searching case information (attempt "
  const RetryLead := "Retrying in "
  const RetryMiddle := " seconds... (attempt "

  /** "n/3": the attempt counter shown in the messages. */
  function OutOf(attempt: nat): string {
    NatToString(attempt) + "/" + NatToString(MaxAttempts)
  }

  function AttemptMessage(attempt: nat): string {
    AttemptLead + OutOf(attempt) + ")..."
  }

  function RetryMessage(delay: nat, attempt: nat): string {
    RetryLead + NatToString(delay) + RetryMiddle + OutOf(attempt + 1) + ")"
  }

  /** A status written by a full replacement carries no error fields. */
  function Fresh(state: JobState, message: string, progress: int, now: real, dataReady: bool): JobStatus {
    JobStatus(state, message, progress, now, dataReady, None, None)
  }

  // ---------------------------------------------------------------------
  // Polling

  /** What the status endpoint answers. `errorType` None is a null (or, for
      an unknown id, absent) error type. */
  datatype PollResponse = PollResponse(
    found: bool,
    status: string,
    message: string,
    progress: int,
    dataAvailable: bool,
    errorType: Option<string>,
    retryable: bool)

  const NotFound := PollResponse(false, "not_found", "Case ID not found or expired", 0, false, None, false)

  /** The answer for a known id, read from its status and the latest slot:
      data is available only when the job says so AND a latest result exists,
      and a missing retryable flag reads as false. */
  function Report(s: JobStatus, latest: Option<Latest>): (r: PollResponse)
    ensures r.found && r.status == StateName(s.state) && r.progress == s.progress
    ensures r.dataAvailable <==> s.dataReady && latest.Some?
    ensures r.retryable <==> s.retryable == Some(true)
    ensures r.errorType.Some? <==> s.errorType.Some?
    ensures s.errorType.Some? ==> r.errorType == Some(KindName(s.errorType.value))
    ensures r.message == s.message
  {
    PollResponse(
      true, StateName(s.state), s.message, s.progress, s.dataReady && latest.Some?,
      match s.errorType case Some(k) => Some(KindName(k)) case None => None,
      match s.retryable case Some(b) => b case None => false)
  }

  /** An entry is stale when more than an hour has passed since it was last
      written in full. The clock is in seconds, with fractions. */
  predicate Stale(s: JobStatus, now: real) {
    now - s.timestamp > MaxAge
  }

  /** The store after eviction: every stale entry removed. */
  function Evict(m: map<string, JobStatus>, now: real): map<string, JobStatus> {
    map k | k in m && !Stale(m[k], now) :: m[k]
  }

  // ---------------------------------------------------------------------
  // The store

  class StatusStore {
    var statuses: map<string, JobStatus>
    var latest: Option<Latest>
    /** Every progress value written into an entry, in the order written. */
    ghost var progressLog: seq<int>

    constructor ()
      ensures statuses == map[] && latest == None && progressLog == []
    {
      statuses := map[];
      latest := None;
      progressLog := [];
    }

    /** The route queues a new job at progress 5. */
    method Enqueue(id: string, now: real)
      modifies this
      ensures statuses == old(statuses)[id := Fresh(Queued, QueuedMessage, 5, now, false)]
      ensures latest == old(latest) && progressLog == old(progressLog) + [5]
    {
      statuses := statuses[id := Fresh(Queued, QueuedMessage, 5, now, false)];
      progressLog := progressLog + [5];
    }

    /** The job announces itself at progress 10, replacing the entry. */
    method Start(id: string, now: real)
      modifies this
      ensures statuses == old(statuses)[id := Fresh(Starting, StartingMessage, 10, now, false)]
      ensures latest == old(latest) && progressLog == old(progressLog) + [10]
    {
      statuses := statuses[id := Fresh(Starting, StartingMessage, 10, now, false)];
      progressLog := progressLog + [10];
    }

    /** Partial updates of an existing entry: the fields named change, the
        others (the timestamp among them) are kept. An absent id is reported
        and nothing changes. */
    method MarkRunning(id: string) returns (found: bool)
      modifies this
      ensures found <==> id in old(statuses)
      ensures found ==> statuses == old(statuses)[id := old(statuses)[id].(state := Running, message := RunningMessage, progress := 30)]
      ensures found ==> progressLog == old(progressLog) + [30]
      ensures !found ==> statuses == old(statuses) && progressLog == old(progressLog)
      ensures latest == old(latest)
    {
      found := id in statuses;
      if found {
        statuses := statuses[id := statuses[id].(state := Running, message := RunningMessage, progress := 30)];
        progressLog := progressLog + [30];
      }
    }

    method BeginAttempt(id: string, attempt: nat) returns (found: bool)
      modifies this
      ensures found <==> id in old(statuses)
      ensures found ==> statuses == old(statuses)[id := old(statuses)[id].(message := AttemptMessage(attempt), progress := 30 + attempt * 20)]
      ensures found ==> progressLog == old(progressLog) + [30 + attempt * 20]
      ensures !found ==> statuses == old(statuses) && progressLog == old(progressLog)
      ensures latest == old(latest)
    {
      found := id in statuses;
      if found {
        statuses := statuses[id := statuses[id].(message := AttemptMessage(attempt), progress := 30 + attempt * 20)];
        progressLog := progressLog + [30 + attempt * 20];
      }
    }

    method AnnounceRetry(id: string, delay: nat, attempt: nat) returns (found: bool)
      modifies this
      ensures found <==> id in old(statuses)
      ensures found ==> statuses == old(statuses)[id := old(statuses)[id].(message := RetryMessage(delay, attempt))]
      ensures !found ==> statuses == old(statuses)
      ensures latest == old(latest) && progressLog == old(progressLog)
    {
      found := id in statuses;
      if found {
        statuses := statuses[id := statuses[id].(message := RetryMessage(delay, attempt))];
      }
    }

    method MarkProcessing(id: string) returns (found: bool)
      modifies this
      ensures found <==> id in old(statuses)
      ensures found ==> statuses == old(statuses)[id := old(statuses)[id].(message := ProcessingMessage, progress := 90)]
      ensures found ==> progressLog == old(progressLog) + [90]
      ensures !found ==> statuses == old(statuses) && progressLog == old(progressLog)
      ensures latest == old(latest)
    {
      found := id in statuses;
      if found {
        statuses := statuses[id := statuses[id].(message := ProcessingMessage, progress := 90)];
        progressLog := progressLog + [90];
      }
    }

    /** Saving a successful record first copies it into the latest slot; the
        report files are written afterwards, outside the lock. */
    method PublishRecord(record: Extractor.CaseRecord)
      modifies this
      ensures latest == Some(Scraped(record))
      ensures statuses == old(statuses) && progressLog == old(progressLog)
    {
      latest := Some(Scraped(record));
    }

    /** A terminal status replaces the entry, with a fresh timestamp. */
    method Finish(id: string, s: JobStatus)
      modifies this
      ensures statuses == old(statuses)[id := s]
      ensures latest == old(latest) && progressLog == old(progressLog) + [s.progress]
    {
      statuses := statuses[id := s];
      progressLog := progressLog + [s.progress];
    }

    /** A terminal failure replaces the entry and the latest slot together. */
    method FinishWith(id: string, s: JobStatus, l: Latest)
      modifies this
      ensures statuses == old(statuses)[id := s]
      ensures latest == Some(l) && progressLog == old(progressLog) + [s.progress]
    {
      statuses := statuses[id := s];
      latest := Some(l);
      progressLog := progressLog + [s.progress];
    }

    /** The status endpoint. For an unknown id it answers not-found and
        changes nothing. For a known id it copies the entry first, then
        evicts every stale entry (the polled one included), and answers from
        the copy. */
    method Poll(id: string, now: real) returns (r: PollResponse)
      modifies this
      ensures id !in old(statuses) ==> r == NotFound && statuses == old(statuses)
      ensures id in old(statuses) ==> r == Report(old(statuses)[id], old(latest)) && statuses == Evict(old(statuses), now)
      ensures latest == old(latest) && progressLog == old(progressLog)
    {
      if id !in statuses {
        return NotFound;
      }
      r := Report(statuses[id], latest);
      var stale := StaleIds(now);
      Remove(stale);
      assert statuses == Evict(old(statuses), now);
    }

    /** The ids of the entries older than an hour. */
    method StaleIds(now: real) returns (stale: set<string>)
      ensures stale == set k | k in statuses && Stale(statuses[k], now)
    {
      stale := {};
      var pending := statuses.Keys;
      while pending != {}
        invariant pending <= statuses.Keys
        invariant stale == set k | k in statuses.Keys - pending && Stale(statuses[k], now)
        decreases |pending|
      {
        var k :| k in pending;
        if now - statuses[k].timestamp > MaxAge {
          stale := stale + {k};
        }
        pending := pending - {k};
      }
    }

    /** Delete the given entries, one at a time. */
    method Remove(doomed: set<string>)
      modifies this
      ensures statuses == old(statuses) - doomed
      ensures latest == old(latest) && progressLog == old(progressLog)
    {
      var left := doomed;
      while left != {}
        invariant left <= doomed
        invariant statuses == old(statuses) - (doomed - left)
        invariant latest == old(latest) && progressLog == old(progressLog)
        decreases |left|
      {
        var k :| k in left;
        statuses := statuses - {k};
        left := left - {k};
      }
    }

    /** The clear route empties the store and the latest slot. */
    method Clear()
      modifies this
      ensures statuses == map[] && latest == None && progressLog == old(progressLog)
    {
      statuses := map[];
      latest := None;
    }
  }

  /** After eviction exactly the entries written within the last hour remain,
      unchanged. */
  lemma EvictKeepsYoung(m: map<string, JobStatus>, now: real, k: string)
    ensures k in Evict(m, now) <==> k in m && now - m[k].timestamp <= MaxAge
    ensures k in Evict(m, now) ==> Evict(m, now)[k] == m[k]
  {
  }

  /** A stale id is answered one last time and then is gone: the next poll
      of it finds nothing. */
  lemma StaleAnsweredOnce(m: map<string, JobStatus>, latest: Option<Latest>, id: string, now: real, later: real)
    requires id in m && Stale(m[id], now)
    ensures Report(m[id], latest).found
    ensures id !in Evict(m, now) && id !in Evict(Evict(m, now), later)
  {
  }

  // ---------------------------------------------------------------------
  // The search log

  /** One search-log record; the wall-clock timestamp and the fixed
      'localhost' address are not modelled. */
  datatype LogEntry = LogEntry(
    caseId: string,
    caseType: string,
    caseNumber: int,
    filingYear: int,
    status: string,
    error: Option<string>)

  const MaxLogEntries := 1000

  /** The last `MaxLogEntries` elements of `s`, in order. */
  function KeepLast(s: seq<LogEntry>): (r: seq<LogEntry>)
    ensures |r| == if |s| > MaxLogEntries then MaxLogEntries else |s|
    ensures r == s[|s| - |r|..]
  {
    if |s| > MaxLogEntries then s[|s| - MaxLogEntries..] else s
  }

  /** Python's `s[k:]` for any integer `k`: a negative `k` counts from the
      end and is clipped at the start, a positive one is clipped at the end. */
  function SliceFrom(s: seq<LogEntry>, k: int): (r: seq<LogEntry>)
    ensures k < 0 ==> |r| == (if -k < |s| then -k else |s|)
    ensures k == 0 ==> r == s
    ensures |r| <= |s| && r == s[|s| - |r|..]
  {
    if k < 0 then (if |s| + k > 0 then s[|s| + k..] else s)
    else if k < |s| then s[k..] else []
  }

  class SearchLog {
    var entries: seq<LogEntry>

    constructor ()
      ensures entries == []
    {
      entries := [];
    }

    /** Append a record, then keep only the last 1000. */
    method LogSearch(e: LogEntry)
      modifies this
      ensures entries == KeepLast(old(entries) + [e])
      ensures |entries| <= MaxLogEntries && entries[|entries| - 1] == e
    {
      entries := entries + [e];
      if |entries| > MaxLogEntries {
        entries := entries[|entries| - MaxLogEntries..];
      }
    }

    /** `logs[-limit:] if logs else []`. */
    method RecentLogs(limit: int) returns (r: seq<LogEntry>)
      ensures limit > 0 ==> |r| == (if limit < |entries| then limit else |entries|)
      ensures limit == 0 ==> r == entries
      ensures |r| <= |entries| && r == entries[|entries| - |r|..]
    {
      if entries == [] {
        return [];
      }
      r := SliceFrom(entries, -limit);
    }
  }

  /** Appending keeps the log bounded and in order: the new record is last and
      the records before it are the most recent earlier ones. */
  lemma {:induction false} LogKeepsMostRecent(before: seq<LogEntry>, e: LogEntry)
    ensures var r := KeepLast(before + [e]);
      |r| <= MaxLogEntries && r[|r| - 1] == e && r[..|r| - 1] == before[|before| - (|r| - 1)..]
  {
    var s := before + [e];
    var r := KeepLast(s);
    assert r == s[|s| - |r|..];
    assert r[..|r| - 1] == s[|s| - |r|..|s| - 1];
    assert s[..|s| - 1] == before;
  }

  // ---------------------------------------------------------------------
  // The retry loop

  /** What one call of the scraper did: raise an error (its message), or
      return a record (None for a missing or empty one). */
  datatype Attempt = Raises(error: string) | Returns(record: Option<Extractor.CaseRecord>)

  /** How the loop ended and after how many calls. */
  datatype LoopEnd = Returned(record: Option<Extractor.CaseRecord>, calls: nat) | GaveUp(error: string, calls: nat)

  /** The handler's verdict on each attempt's outcome: retry after a raised
      error the handler marks retryable, never after a return. */
  function RetryVerdicts(outcomes: seq<Attempt>): seq<bool> {
    seq(|outcomes|, i requires 0 <= i < |outcomes| => outcomes[i].Raises? && HandleError(outcomes[i].error).retry)
  }

  /** The retry loop from attempt `attempt` on, given the verdicts: a
      returning call ends it; a raised error ends it on the last attempt or
      when it is not to be retried; otherwise the next attempt follows. */
  function RetryFrom(outcomes: seq<Attempt>, verdicts: seq<bool>, attempt: nat): LoopEnd
    requires |outcomes| == |verdicts| == MaxAttempts && 1 <= attempt <= MaxAttempts
    decreases MaxAttempts - attempt
  {
    match outcomes[attempt - 1]
    case Returns(record) => Returned(record, attempt)
    case Raises(error) =>
      if attempt == MaxAttempts || !verdicts[attempt - 1] then GaveUp(error, attempt)
      else RetryFrom(outcomes, verdicts, attempt + 1)
  }

  /** The loop of a job whose scraper calls do `outcomes`. */
  function RetryLoop(outcomes: seq<Attempt>): LoopEnd
    requires |outcomes| == MaxAttempts
  {
    RetryFrom(outcomes, RetryVerdicts(outcomes), 1)
  }

  /** The loop calls the scraper between once and three times; every call
      before the last raised an error judged retryable; the last call
      returned the record, or raised the error given up on, which was judged
      not retryable unless it came on the third attempt. */
  lemma {:induction false} RetryShape(outcomes: seq<Attempt>, verdicts: seq<bool>, attempt: nat)
    requires |outcomes| == |verdicts| == MaxAttempts && 1 <= attempt <= MaxAttempts
    ensures var e := RetryFrom(outcomes, verdicts, attempt);
      && attempt <= e.calls <= MaxAttempts
      && (forall i :: attempt - 1 <= i < e.calls - 1 ==> outcomes[i].Raises? && verdicts[i])
      && (e.Returned? ==> outcomes[e.calls - 1] == Returns(e.record))
      && (e.GaveUp? ==> outcomes[e.calls - 1] == Raises(e.error) && (e.calls == MaxAttempts || !verdicts[e.calls - 1]))
    decreases MaxAttempts - attempt
  {
    match outcomes[attempt - 1]
    case Returns(_) =>
    case Raises(error) =>
      if attempt < MaxAttempts && verdicts[attempt - 1] {
        RetryShape(outcomes, verdicts, attempt + 1);
      }
  }

  lemma VerdictMeaning(outcomes: seq<Attempt>, i: nat)
    requires i < |outcomes|
    ensures RetryVerdicts(outcomes)[i] <==> outcomes[i].Raises? && HandleError(outcomes[i].error).retry
  {
  }

  /** The same, with the handler's own verdicts. */
  lemma RetryLoopShape(outcomes: seq<Attempt>)
    requires |outcomes| == MaxAttempts
    ensures var e := RetryLoop(outcomes);
      && 1 <= e.calls <= MaxAttempts
      && (forall i :: 0 <= i < e.calls - 1 ==> outcomes[i].Raises? && HandleError(outcomes[i].error).retry)
      && (e.Returned? ==> outcomes[e.calls - 1] == Returns(e.record))
      && (e.GaveUp? ==> outcomes[e.calls - 1] == Raises(e.error) && (e.calls == MaxAttempts || !HandleError(e.error).retry))
  {
    var v := RetryVerdicts(outcomes);
    RetryShape(outcomes, v, 1);
    var e := RetryFrom(outcomes, v, 1);
    forall i | 0 <= i < e.calls - 1
      ensures outcomes[i].Raises? && HandleError(outcomes[i].error).retry
    {
      VerdictMeaning(outcomes, i);
    }
    if e.GaveUp? && e.calls < MaxAttempts {
      VerdictMeaning(outcomes, e.calls - 1);
    }
  }

  /** The scraper's session catches its own errors and always returns a
      record, so the first call ends the loop: there is never a retry. */
  lemma NoRetryWhenScraperReturns(outcomes: seq<Attempt>)
    requires |outcomes| == MaxAttempts && outcomes[0].Returns?
    ensures RetryLoop(outcomes) == Returned(outcomes[0].record, 1)
  {
  }

  /** The progress written by the attempts before `calls`. */
  function AttemptProgress(calls: nat): (r: seq<int>)
    ensures |r| == calls
    ensures forall i :: 0 <= i < calls ==> r[i] == 30 + 20 * (i + 1)
  {
    if calls == 0 then [] else AttemptProgress(calls - 1) + [30 + 20 * calls]
  }

  /** The progress a reachable job writes between its start and its end:
      running, each attempt, and processing when a record came back. */
  function ScrapeProgress(outcomes: seq<Attempt>): seq<int>
    requires |outcomes| == MaxAttempts
  {
    var e := RetryLoop(outcomes);
    [30] + AttemptProgress(e.calls) + (if e.Returned? then [90] else [])
  }

  /** Every progress value the job writes, in order. */
  function ProgressTrace(reachable: bool, outcomes: seq<Attempt>): seq<int>
    requires |outcomes| == MaxAttempts
  {
    if !reachable then [10, 100] else [10] + ScrapeProgress(outcomes) + [100]
  }

  /** A job's trace appended to a log: its start, the reachable part when
      there is one, and its end. */
  lemma TraceAfter(log: seq<int>, reachable: bool, outcomes: seq<Attempt>)
    requires |outcomes| == MaxAttempts
    ensures var mid := if reachable then ScrapeProgress(outcomes) else [];
      log + [10] + mid + [100] == log + ProgressTrace(reachable, outcomes)
  {
    var mid := if reachable then ScrapeProgress(outcomes) else [];
    assert ProgressTrace(reachable, outcomes) == [10] + mid + [100];
  }

  predicate NonDecreasing(s: seq<int>) {
    forall i, j :: 0 <= i <= j < |s| ==> s[i] <= s[j]
  }

  /** The progress of a reachable job that made `calls` scraper calls. */
  lemma {:induction false} ReachableProgress(calls: nat, returned: bool)
    requires 1 <= calls <= MaxAttempts
    ensures var t := [10, 30] + AttemptProgress(calls) + (if returned then [90, 100] else [100]);
      t[0] == 10 && t[|t| - 1] == 100 && NonDecreasing(t) && NonDecreasing([5] + t)
  {
    var a := AttemptProgress(calls);
    var t := [10, 30] + a + (if returned then [90, 100] else [100]);
    assert forall i :: 0 <= i < |t| ==>
      (10 <= t[i] <= 100 && (2 <= i < 2 + |a| ==> t[i] == 30 + 20 * (i - 1)) && (i >= 2 + |a| ==> t[i] >= 90));
  }

  /** Progress starts at 10, never goes back, and ends at 100; with the 5 of
      the queued entry in front it is still non-decreasing. */
  lemma ProgressNeverGoesBack(reachable: bool, outcomes: seq<Attempt>)
    requires |outcomes| == MaxAttempts
    ensures var t := ProgressTrace(reachable, outcomes);
      |t| >= 2 && t[0] == 10 && t[|t| - 1] == 100 && NonDecreasing(t) && NonDecreasing([5] + t)
  {
    if reachable {
      var e := RetryLoop(outcomes);
      RetryShape(outcomes, RetryVerdicts(outcomes), 1);
      ReachableProgress(e.calls, e.Returned?);
      var mid := [30] + AttemptProgress(e.calls) + (if e.Returned? then [90] else []);
      assert ScrapeProgress(outcomes) == mid;
      assert [10] + mid + [100] == [10, 30] + AttemptProgress(e.calls) + (if e.Returned? then [90, 100] else [100]);
    }
  }

  // ---------------------------------------------------------------------
  // The terminal outcome of a job

  /** The terminal status, the latest result and the log record of a job. */
  datatype JobEnd = JobEnd(status: JobStatus, latest: Latest, logStatus: string, logError: Option<string>)

  /** The failure handler for a raised error. */
  function Crash(error: string, now: real): JobEnd {
    var h := HandleError(error);
    var k := ClassifyError(error);
    JobEnd(JobStatus(Failed, h.message, 100, now, false, Some(k), Some(h.retry)), Crashed(h.message, k, h.retry), "FAILED", Some(error))
  }

  /** The error text of a record that is not a success. */
  function NoDataReason(record: Option<Extractor.CaseRecord>): string {
    match record
    case None => NoRecord
    case Some(r) => r.ErrorOr(NoDataDefault)
  }

  /** How a job whose scraper returned `record` ends: a success record is
      published and completes the job (with a warning when the report files
      could not be written); anything else fails it as "no data". */
  function Conclude(record: Option<Extractor.CaseRecord>, saved: bool, now: real): JobEnd {
    if record.Some? && record.value.IsSuccess() then
      if saved then JobEnd(Fresh(Completed, CompletedMessage, 100, now, true), Scraped(record.value), "SUCCESS", None)
      else JobEnd(Fresh(CompletedWithWarning, WarningMessage, 100, now, true), Scraped(record.value), "SUCCESS_WITH_WARNING", Some("File saving failed"))
    else
      var e := NoDataReason(record);
      JobEnd(Fresh(Failed, NoDataPrefix + e, 100, now, false), NoData(e), "NO_DATA", Some(e))
  }

  /** How a job ends, given whether the site was reachable, what each
      scraper call did, whether the report files were written, and the time
      of the last write. */
  function JobOutcome(reachable: bool, outcomes: seq<Attempt>, saved: bool, now: real): JobEnd
    requires |outcomes| == MaxAttempts
  {
    if !reachable then PreflightFailure(now)
    else match RetryLoop(outcomes)
      case GaveUp(error, _) => Crash(error, now)
      case Returned(record, _) => Conclude(record, saved, now)
  }

  /** What every terminal status has in common: progress 100, the time of
      the write, one of the three terminal states, data ready exactly when
      the job did not fail, and a failure record in the latest slot of a
      failed job. */
  predicate Terminal(j: JobEnd, now: real) {
    && j.status.progress == 100 && j.status.timestamp == now
    && j.status.state in {Completed, CompletedWithWarning, Failed}
    && (j.status.dataReady <==> j.status.state != Failed)
    && (j.status.state == Failed <==> j.latest.NoData? || j.latest.Crashed?)
  }

  /** A raised error fails the job; the status carries the handler's message,
      kind and retry verdict, and so does the failure record. */
  lemma CrashMapping(error: string, now: real)
    ensures var j := Crash(error, now);
      && Terminal(j, now) && j.status.state == Failed
      && j.latest == Crashed(j.status.message, ClassifyError(error), HandleError(error).retry)
      && j.status.message == HandleError(error).message
      && j.status.errorType == Some(ClassifyError(error))
      && j.status.retryable == Some(HandleError(error).retry)
      && j.logStatus == "FAILED" && j.logError == Some(error)
  {
  }

  /** A returned record completes the job exactly when it is a success: with
      the record published, and with a warning exactly when saving failed;
      otherwise the job fails without error fields and its message carries
      the record's error. */
  lemma ConcludeMapping(record: Option<Extractor.CaseRecord>, saved: bool, now: real)
    ensures var j := Conclude(record, saved, now);
      var success := record.Some? && record.value.IsSuccess();
      && Terminal(j, now)
      && (j.status.state == Completed <==> success && saved)
      && (j.status.state == CompletedWithWarning <==> success && !saved)
      && (success ==> j.latest == Scraped(record.value))
      && (!success ==> j.latest == NoData(NoDataReason(record)) && j.status.message == NoDataPrefix + NoDataReason(record))
      && j.status.errorType.None? && j.status.retryable.None?
  {
  }

  /** The terminal mapping: every job ends at progress 100 in one of three
      states; it completes exactly when a success record came back and was
      saved, and completes with a warning exactly when saving failed; only a
      raised error sets the error fields, and the failure record then
      carries the status message. */
  lemma TerminalMapping(reachable: bool, outcomes: seq<Attempt>, saved: bool, now: real)
    requires |outcomes| == MaxAttempts
    ensures var j := JobOutcome(reachable, outcomes, saved, now);
      var e := RetryLoop(outcomes);
      var success := reachable && e.Returned? && e.record.Some? && e.record.value.IsSuccess();
      && Terminal(j, now)
      && (j.status.state == Completed <==> success && saved)
      && (j.status.state == CompletedWithWarning <==> success && !saved)
      && (j.status.errorType.Some? <==> !reachable || e.GaveUp?)
      && (j.status.retryable.Some? <==> j.status.errorType.Some?)
      && (success ==> j.latest == Scraped(e.record.value))
      && (j.latest.Crashed? ==> j.status.message == j.latest.error)
  {
    if !reachable {
      CrashMapping(PreflightMessage, now);
    } else {
      match RetryLoop(outcomes)
      case GaveUp(error, _) => CrashMapping(error, now);
      case Returned(record, _) => ConcludeMapping(record, saved, now);
    }
  }

  /** The failure of a job whose pre-flight probe found the site
      unreachable, written out. */
  function PreflightFailure(now: real): JobEnd {
    var m := UnexpectedLead + PreflightMessage + "...";
    JobEnd(JobStatus(Failed, m, 100, now, false, Some(Unknown), Some(false)), Crashed(m, Unknown, false), "FAILED", Some(PreflightMessage))
  }

  /** The pre-flight error goes through the failure handler like any other:
      it is an UNKNOWN, non-retryable error whose message is the generic one
      quoting the probe's message in full. */
  lemma UnreachableIsUnknownFailure(now: real)
    ensures Crash(PreflightMessage, now) == PreflightFailure(now)
    ensures PreflightFailure(now).status.errorType == Some(Unknown)
    ensures PreflightFailure(now).status.retryable == Some(false)
  {
    PreflightIsUnknown();
    assert Prefix(PreflightMessage, 100) == PreflightMessage;
  }

  // ---------------------------------------------------------------------
  // The job and the route that starts it

  /** Writing an entry over a map that differs from `base` at most in that
      entry gives `base` with that entry. */
  lemma Overwrite(base: map<string, JobStatus>, m: map<string, JobStatus>, id: string, v: JobStatus)
    requires id in m && m == base[id := m[id]]
    ensures m[id := v] == base[id := v]
  {
  }

  /** What the loop does with the outcome of attempt `attempt`: a return
      ends it; a raised error ends it on the last attempt or when the
      handler does not retry it, and otherwise announces the retry and its
      delay and the loop goes on. */
  method Judge(store: StatusStore, id: string, outcomes: seq<Attempt>, attempt: nat)
    returns (end: Option<LoopEnd>, delay: nat)
    requires |outcomes| == MaxAttempts && 1 <= attempt <= MaxAttempts && id in store.statuses
    modifies store
    ensures end.Some? ==> end.value == RetryFrom(outcomes, RetryVerdicts(outcomes), attempt) && end.value.calls == attempt
    ensures end.Some? ==> store.statuses == old(store.statuses)
    ensures end.None? ==> attempt < MaxAttempts && delay == 2
    ensures end.None? ==> RetryFrom(outcomes, RetryVerdicts(outcomes), attempt + 1) == RetryFrom(outcomes, RetryVerdicts(outcomes), attempt)
    ensures end.None? ==> store.statuses == old(store.statuses)[id := old(store.statuses)[id].(message := RetryMessage(delay, attempt))]
    ensures store.progressLog == old(store.progressLog) && store.latest == old(store.latest)
  {
    match outcomes[attempt - 1]
    case Returns(record) =>
      return Some(Returned(record, attempt)), 0;
    case Raises(error) =>
      if attempt == MaxAttempts {
        return Some(GaveUp(error, attempt)), 0;
      }
      var h := HandleError(error);
      VerdictMeaning(outcomes, attempt - 1);
      if !h.retry {
        return Some(GaveUp(error, attempt)), 0;
      }
      var found := store.AnnounceRetry(id, h.delay, attempt);
      end, delay := None, h.delay;
  }

  /** The scraper calls with their retries. The job's entry is left with the
      last attempt's message and progress, its other fields as they were; no
      other entry changes. */
  method Attempts(store: StatusStore, id: string, outcomes: seq<Attempt>)
    returns (e: LoopEnd, delays: seq<nat>)
    requires |outcomes| == MaxAttempts && id in store.statuses
    modifies store
    ensures e == RetryLoop(outcomes)
    ensures store.progressLog == old(store.progressLog) + AttemptProgress(e.calls)
    ensures |delays| == e.calls - 1 && forall i :: 0 <= i < |delays| ==> delays[i] == 2
    ensures store.statuses == old(store.statuses)[id := old(store.statuses)[id].(message := AttemptMessage(e.calls), progress := 30 + 20 * e.calls)]
    ensures store.latest == old(store.latest)
  {
    ghost var verdicts := RetryVerdicts(outcomes);
    ghost var entry := old(store.statuses)[id];
    delays := [];
    var attempt := 1;
    while true
      invariant 1 <= attempt <= MaxAttempts
      invariant RetryFrom(outcomes, verdicts, attempt) == RetryLoop(outcomes)
      invariant store.progressLog == old(store.progressLog) + AttemptProgress(attempt - 1)
      invariant |delays| == attempt - 1 && forall i :: 0 <= i < |delays| ==> delays[i] == 2
      invariant id in store.statuses && store.statuses == old(store.statuses)[id := store.statuses[id]]
      invariant store.statuses[id] == entry.(message := store.statuses[id].message, progress := store.statuses[id].progress)
      invariant store.latest == old(store.latest)
      decreases MaxAttempts - attempt
    {
      ghost var prev := store.statuses;
      ghost var log := store.progressLog;
      var found := store.BeginAttempt(id, attempt);
      Overwrite(old(store.statuses), prev, id, store.statuses[id]);
      prev := store.statuses;
      var end, delay := Judge(store, id, outcomes, attempt);
      Overwrite(old(store.statuses), prev, id, store.statuses[id]);
      assert store.progressLog == old(store.progressLog) + AttemptProgress(attempt) by {
        assert log + [30 + 20 * attempt] == old(store.progressLog) + (AttemptProgress(attempt - 1) + [30 + 20 * attempt]);
      }
      if end.Some? {
        return end.value, delays;
      }
      delays := delays + [delay];
      attempt := attempt + 1;
    }
  }

  /** Write a terminal status and its log record. */
  method Settle(store: StatusStore, log: SearchLog, id: string, entry: LogEntry, j: JobEnd)
    requires entry.status == j.logStatus && entry.error == j.logError
    modifies store, log
    ensures store.statuses == old(store.statuses)[id := j.status]
    ensures store.latest == Some(j.latest)
    ensures store.progressLog == old(store.progressLog) + [j.status.progress]
    ensures log.entries == KeepLast(old(log.entries) + [entry])
  {
    if j.latest.Scraped? {
      store.PublishRecord(j.latest.record);
      store.Finish(id, j.status);
    } else {
      store.FinishWith(id, j.status, j.latest);
    }
    log.LogSearch(entry);
  }

  /** The reachable part of the job, up to its terminal write: mark it
      running, call the scraper with retries, and, when a record came back,
      mark it processing. Returns how the job ends. */
  method Scrape(store: StatusStore, id: string, outcomes: seq<Attempt>, saved: bool, finished: real)
    returns (j: JobEnd, delays: seq<nat>)
    requires |outcomes| == MaxAttempts && id in store.statuses
    modifies store
    ensures j == JobOutcome(true, outcomes, saved, finished)
    ensures store.progressLog == old(store.progressLog) + ScrapeProgress(outcomes)
    ensures id in store.statuses && store.statuses == old(store.statuses)[id := store.statuses[id]]
    ensures store.latest == old(store.latest)
    ensures |delays| == RetryLoop(outcomes).calls - 1 && forall i :: 0 <= i < |delays| ==> delays[i] == 2
  {
    ghost var prev := store.statuses;
    var found := store.MarkRunning(id);
    Overwrite(old(store.statuses), prev, id, store.statuses[id]);
    prev := store.statuses;
    var e;
    e, delays := Attempts(store, id, outcomes);
    Overwrite(old(store.statuses), prev, id, store.statuses[id]);
    ghost var trace := [30] + AttemptProgress(e.calls);
    assert store.progressLog == old(store.progressLog) + trace;
    match e
    case GaveUp(error, _) =>
      j := Crash(error, finished);
      assert ScrapeProgress(outcomes) == trace + [];
    case Returned(record, _) =>
      prev := store.statuses;
      found := store.MarkProcessing(id);
      Overwrite(old(store.statuses), prev, id, store.statuses[id]);
      j := Conclude(record, saved, finished);
      assert ScrapeProgress(outcomes) == trace + [90];
  }

  /** The background job. Its progress writes are `ProgressTrace`; it
      returns the delays it waited between attempts. */
  method RunJob(
    store: StatusStore, log: SearchLog, id: string,
    caseType: string, caseNumber: int, filingYear: int,
    reachable: bool, outcomes: seq<Attempt>, saved: bool, started: real, finished: real)
    returns (delays: seq<nat>)
    requires |outcomes| == MaxAttempts
    modifies store, log
    ensures var j := JobOutcome(reachable, outcomes, saved, finished);
      && store.statuses == old(store.statuses)[id := j.status]
      && store.latest == Some(j.latest)
      && log.entries == KeepLast(old(log.entries) + [LogEntry(id, caseType, caseNumber, filingYear, j.logStatus, j.logError)])
    ensures store.progressLog == old(store.progressLog) + ProgressTrace(reachable, outcomes)
    ensures reachable ==> |delays| == RetryLoop(outcomes).calls - 1
    ensures forall i :: 0 <= i < |delays| ==> delays[i] == 2
  {
    store.Start(id, started);
    delays := [];
    var j: JobEnd;
    if !reachable {
      // The probe's error as the failure handler sees it (UnreachableIsUnknownFailure).
      j := PreflightFailure(finished);
    } else {
      ghost var prev := store.statuses;
      j, delays := Scrape(store, id, outcomes, saved, finished);
      Overwrite(old(store.statuses), prev, id, store.statuses[id]);
    }
    ghost var before := store.statuses;
    Settle(store, log, id, LogEntry(id, caseType, caseNumber, filingYear, j.logStatus, j.logError), j);
    Overwrite(old(store.statuses), before, id, j.status);
    TraceAfter(old(store.progressLog), reachable, outcomes);
  }

  /** What the search route does with a submitted form. */
  datatype Submission = Rejected(message: string) | Started(id: string, caseNumber: int, filingYear: int)

  const UnreachableNotice := "\U{1F6AB} Delhi High Court website is currently not accessible. Please try again later."

  /** `int(t)` on a clock reading: the whole seconds, truncated toward zero. */
  function WholeSeconds(t: real): (r: int)
    ensures 0.0 <= t ==> r as real <= t < r as real + 1.0
    ensures t < 0.0 ==> r as real - 1.0 < t <= r as real
  {
    if t >= 0.0 then t.Floor else -((-t).Floor)
  }

  /** The job id: the form's text fields and the clock's whole seconds,
      joined by underscores. */
  function JobId(caseType: string, caseNumber: string, filingYear: string, now: real): string {
    caseType + "_" + caseNumber + "_" + filingYear + "_" + IntToString(WholeSeconds(now))
  }

  /** The search route: strip the three form fields, validate them, probe the
      site, then queue the job under a fresh id at progress 5. A rejected
      form leaves the store alone. */
  method SubmitSearch(store: StatusStore, rawType: string, rawNumber: string, rawYear: string, reachable: bool, now: real)
    returns (r: Submission)
    modifies store
    ensures var v := ValidateCaseInputs(Strip(rawType), Strip(rawNumber), Strip(rawYear));
      && (!v.ok ==> r == Rejected(v.message))
      && (v.ok && !reachable ==> r == Rejected(UnreachableNotice))
      && (v.ok && reachable ==> r.Started?)
    ensures r.Rejected? ==> store.statuses == old(store.statuses)
    ensures r.Started? ==>
      && r.id == JobId(Strip(rawType), Strip(rawNumber), Strip(rawYear), now)
      && ParseInt(Strip(rawNumber)) == Some(r.caseNumber) && ParseInt(Strip(rawYear)) == Some(r.filingYear)
      && r.caseNumber > 0 && MinYear <= r.filingYear <= MaxYear
      && store.statuses == old(store.statuses)[r.id := Fresh(Queued, QueuedMessage, 5, now, false)]
    ensures store.progressLog == old(store.progressLog) + (if r.Started? then [5] else [])
    ensures store.latest == old(store.latest)
  {
    var caseType, caseNumber, filingYear := Strip(rawType), Strip(rawNumber), Strip(rawYear);
    var v := ValidateCaseInputs(caseType, caseNumber, filingYear);
    if !v.ok {
      return Rejected(v.message);
    }
    if !reachable {
      return Rejected(UnreachableNotice);
    }
    var id := JobId(caseType, caseNumber, filingYear, now);
    store.Enqueue(id, now);
    r := Started(id, ParseInt(caseNumber).value, ParseInt(filingYear).value);
  }
}
