/** api.py: the retrying playlist lookup, the progress log and the main
    loop that skips logged channels and stops when the quota runs out. */
module Api {
  import opened Common
  import opened Csv

  // ------------------------------------------------------------------
  // get_uploads_playlist_id
  // ------------------------------------------------------------------

  /** What one attempt of the lookup meets: the search finds no channel,
      the channel has no content details, the uploads playlist id, an
      `HttpError` with its status, or any other exception. */
  datatype Attempt = NotFound | NoContent | Found(playlistId: string) | Http(status: int) | Other

  datatype Error = HttpError(status: int) | OtherError

  /** How a call of `get_uploads_playlist_id` ends. */
  datatype Lookup = Returned(id: Option<string>) | Raised(error: Error)

  const DefaultMaxRetries: int := 5
  const BackoffUnit: int := 60

  predicate IsRateLimit(status: int) {
    status == 429 || status == 403
  }

  /** The attempt is retried (unless it was the last one). */
  predicate RateLimited(a: Attempt) {
    a.Http? && IsRateLimit(a.status)
  }

  /** The index of the first attempt that is not rate limited, or
      `|attempts|`. */
  function FirstSettled(attempts: seq<Attempt>): (k: nat)
    ensures k <= |attempts|
    ensures forall j :: 0 <= j < k ==> RateLimited(attempts[j])
    ensures k < |attempts| ==> !RateLimited(attempts[k])
  {
    if |attempts| == 0 || !RateLimited(attempts[0]) then 0
    else 1 + FirstSettled(attempts[1..])
  }

  /** How an attempt that is not rate limited ends the call. */
  function Settle(a: Attempt): Lookup
    requires !RateLimited(a)
  {
    match a
    case NotFound => Returned(None)
    case NoContent => Returned(None)
    case Found(id) => Returned(Some(id))
    case Http(status) => Raised(HttpError(status))
    case Other => Raised(OtherError)
  }

  /** The outcome when `attempts[a]` answers attempt `a`, one answer per
      attempt of `range(max_retries)`: the first attempt that is not rate
      limited settles it; if every attempt is rate limited the last error
      is re-raised; with no attempt at all the result is None. */
  function LookupResult(attempts: seq<Attempt>): Lookup {
    var k := FirstSettled(attempts);
    if k < |attempts| then Settle(attempts[k])
    else if |attempts| == 0 then Returned(None)
    else Raised(HttpError(attempts[|attempts| - 1].status))
  }

  /** The attempts made: up to the settling one, or all of them. */
  function AttemptsMade(attempts: seq<Attempt>): nat {
    var k := FirstSettled(attempts);
    if k < |attempts| then k + 1 else |attempts|
  }

  /** The sleeps taken: `(2 ** a) * 60` after each rate-limited attempt
      `a` that is not the last. */
  function LookupSleeps(attempts: seq<Attempt>): seq<int> {
    var k := FirstSettled(attempts);
    Backoffs(BackoffUnit, if k < |attempts| then k else if |attempts| == 0 then 0 else |attempts| - 1)
  }

  /** `get_uploads_playlist_id`. Returns how the call ends, the number of
      attempts made and the sleeps taken. */
  method GetUploadsPlaylistId(maxRetries: int, attempts: seq<Attempt>)
    returns (result: Lookup, made: nat, sleeps: seq<int>)
    requires |attempts| == RangeLength(maxRetries)
    ensures result == LookupResult(attempts)
    ensures made == AttemptsMade(attempts)
    ensures sleeps == LookupSleeps(attempts)
  {
    made, sleeps := 0, [];
    for attempt := 0 to RangeLength(maxRetries)
      invariant made == attempt
      invariant forall j :: 0 <= j < attempt ==> RateLimited(attempts[j])
      invariant sleeps == Backoffs(BackoffUnit, attempt)
      invariant attempt == 0 || attempt < RangeLength(maxRetries)
    {
      made := made + 1;
      match attempts[attempt] {
        case NotFound =>
          return Returned(None), made, sleeps;
        case NoContent =>
          return Returned(None), made, sleeps;
        case Found(id) =>
          return Returned(Some(id)), made, sleeps;
        case Other =>
          return Raised(OtherError), made, sleeps;
        case Http(status) =>
          if status == 429 || status == 403 {
            if attempt == maxRetries - 1 {
              return Raised(HttpError(status)), made, sleeps;
            }
            sleeps := sleeps + [Pow2(attempt) * BackoffUnit];
          } else {
            return Raised(HttpError(status)), made, sleeps;
          }
      }
    }
    result := Returned(None);
  }

  /** At most `max_retries` attempts; a 429 or 403 is retried after
      `(2 ** a) * 60` seconds unless it was the last attempt, which
      re-raises it; anything else ends the call at once. */
  lemma LookupSchedule(attempts: seq<Attempt>)
    ensures AttemptsMade(attempts) <= |attempts|
    ensures |LookupSleeps(attempts)| < AttemptsMade(attempts) || attempts == []
    ensures forall i :: 0 <= i < |LookupSleeps(attempts)| ==>
      RateLimited(attempts[i]) && LookupSleeps(attempts)[i] == Pow2(i) * BackoffUnit
    ensures attempts != [] && !RateLimited(attempts[0]) ==>
      AttemptsMade(attempts) == 1 && LookupSleeps(attempts) == [] && LookupResult(attempts) == Settle(attempts[0])
    ensures attempts != [] && (forall j :: 0 <= j < |attempts| ==> RateLimited(attempts[j])) ==>
      LookupResult(attempts) == Raised(HttpError(attempts[|attempts| - 1].status))
  {
  }

  /** With the default five attempts and the quota exhausted throughout,
      the waits are 60, 120, 240 and 480 seconds and the last error is
      re-raised. */
  lemma DefaultSchedule(attempts: seq<Attempt>)
    requires |attempts| == RangeLength(DefaultMaxRetries)
    requires forall j :: 0 <= j < |attempts| ==> attempts[j] == Http(429)
    ensures LookupSleeps(attempts) == [60, 120, 240, 480]
    ensures LookupResult(attempts) == Raised(HttpError(429))
    ensures AttemptsMade(attempts) == 5
  {
    assert FirstSettled(attempts) == 5 by {
      assert FirstSettled(attempts[4..]) == 1;
      assert attempts[3..][1..] == attempts[4..];
      assert attempts[2..][1..] == attempts[3..];
      assert attempts[1..][1..] == attempts[2..];
    }
    assert Pow2(3) == 8;
  }

  // ------------------------------------------------------------------
  // load_progress / save_progress
  // ------------------------------------------------------------------

  /** One row of `progress.csv`. */
  datatype ProgressRow = ProgressRow(channelName: string, playlistId: string, processedAt: string)

  const ProgressHeader: seq<string> := ["channel_name", "playlist_id", "processed_at"]

  /** `load_progress`: the logged rows; a missing file reads as none. */
  function LoadProgress(file: Option<Table<ProgressRow>>): (r: seq<ProgressRow>)
    ensures file.None? ==> r == []
    ensures file.Some? ==> r == file.value.rows
  {
    RowsOf(file)
  }

  /** `save_progress`: reload the log, add one row stamped `now` and
      rewrite the whole file with its header. */
  function SaveProgress(file: Option<Table<ProgressRow>>, channelName: string, playlistId: string, now: string): (r: Table<ProgressRow>)
    ensures r.header == ProgressHeader
    ensures |r.rows| == |LoadProgress(file)| + 1
    ensures r.rows[..|LoadProgress(file)|] == LoadProgress(file)
    ensures r.rows[|LoadProgress(file)|] == ProgressRow(channelName, playlistId, now)
  {
    Table(ProgressHeader, LoadProgress(file) + [ProgressRow(channelName, playlistId, now)])
  }

  /** The channel names in the log, as `set(progress_df['channel_name'])`. */
  function LoggedNames(rows: seq<ProgressRow>): set<string> {
    if |rows| == 0 then {} else LoggedNames(rows[..|rows| - 1]) + {rows[|rows| - 1].channelName}
  }

  /** Saving and loading again adds exactly the saved channel to the set
      of processed names. */
  lemma SaveLoadRoundTrip(file: Option<Table<ProgressRow>>, channelName: string, playlistId: string, now: string)
    ensures LoggedNames(LoadProgress(Some(SaveProgress(file, channelName, playlistId, now))))
      == LoggedNames(LoadProgress(file)) + {channelName}
  {
    var rows := LoadProgress(file);
    assert (rows + [ProgressRow(channelName, playlistId, now)])[..|rows|] == rows;
  }

  // ------------------------------------------------------------------
  // The main loop
  // ------------------------------------------------------------------

  /** One row of the channel list, with what its lookup would meet (one
      answer per attempt) and the clock reading should it be saved. */
  datatype ChannelJob = ChannelJob(name: string, attempts: seq<Attempt>, now: string)

  /** `channels_df[~channels_df['channel_name'].isin(processed_channels)]`. */
  function Pending(jobs: seq<ChannelJob>, processed: set<string>): seq<ChannelJob> {
    Filter(jobs, (j: ChannelJob) => j.name !in processed)
  }

  /** The loop's state: the progress file, the names looked up, and
      whether a rate-limit error stopped it. */
  datatype MainState = MainState(file: Option<Table<ProgressRow>>, looked: seq<string>, stopped: bool)

  /** The progress log is saved when the id is truthy. */
  predicate Saves(r: Lookup) {
    r.Returned? && r.id.Some? && r.id.value != ""
  }

  /** The loop breaks on an escaping 429 or 403. */
  predicate Stops(r: Lookup) {
    r.Raised? && r.error.HttpError? && IsRateLimit(r.error.status)
  }

  /** One pending channel: once stopped nothing happens; otherwise the
      channel is looked up, a truthy id is saved to the log, and an
      escaping rate-limit error stops the loop. */
  function MainStep(st: MainState, job: ChannelJob): MainState {
    if st.stopped then st
    else MainState(SaveIfFound(st.file, job), st.looked + [job.name], Stops(LookupResult(job.attempts)))
  }

  /** The progress file after looking `job` up. */
  function SaveIfFound(file: Option<Table<ProgressRow>>, job: ChannelJob): Option<Table<ProgressRow>> {
    var r := LookupResult(job.attempts);
    if Saves(r) then Some(SaveProgress(file, job.name, r.id.value, job.now)) else file
  }

  function MainRun(pending: seq<ChannelJob>, file: Option<Table<ProgressRow>>): MainState {
    if |pending| == 0 then MainState(file, [], false)
    else
      var n := |pending| - 1;
      MainStep(MainRun(pending[..n], file), pending[n])
  }

  function Names(jobs: seq<ChannelJob>): (r: seq<string>)
    ensures |r| == |jobs|
    ensures forall i :: 0 <= i < |jobs| ==> r[i] == jobs[i].name
  {
    if |jobs| == 0 then [] else Names(jobs[..|jobs| - 1]) + [jobs[|jobs| - 1].name]
  }

  /** The loop looks channels up in order: all pending ones when it is
      not stopped, otherwise a prefix of them. */
  lemma {:induction false} MainLooksInOrder(pending: seq<ChannelJob>, file: Option<Table<ProgressRow>>)
    ensures var st := MainRun(pending, file);
      && |st.looked| <= |pending|
      && st.looked == Names(pending[..|st.looked|])
      && (!st.stopped ==> |st.looked| == |pending|)
  {
    if |pending| > 0 {
      var n := |pending| - 1;
      var prefix := pending[..n];
      MainLooksInOrder(prefix, file);
      var prev := MainRun(prefix, file);
      var m := |prev.looked|;
      MainStepLooked(prev, pending[n]);
      assert prefix[..m] == pending[..m];
      if !prev.stopped {
        assert pending[..n + 1] == pending;
        assert prefix[..m] == prefix;
      }
    }
  }

  /** One step looks up its channel unless the loop has stopped. */
  lemma MainStepLooked(st: MainState, job: ChannelJob)
    ensures MainStep(st, job).looked == if st.stopped then st.looked else st.looked + [job.name]
    ensures st.stopped ==> MainStep(st, job).stopped
  {
  }

  /** The loop stops exactly at the first channel whose lookup raised a
      429 or 403: no earlier lookup did, and the last one looked up did. */
  lemma {:induction false} MainStopsAtFirst(pending: seq<ChannelJob>, file: Option<Table<ProgressRow>>)
    ensures var st := MainRun(pending, file);
      && |st.looked| <= |pending|
      && (st.stopped ==> 0 < |st.looked| && Stops(LookupResult(pending[|st.looked| - 1].attempts)))
      && (!st.stopped ==> |st.looked| == |pending|)
      && (forall i :: 0 <= i < |pending| && (i < |st.looked| - 1 || !st.stopped) ==> !Stops(LookupResult(pending[i].attempts)))
  {
    if |pending| > 0 {
      var n := |pending| - 1;
      var prefix := pending[..n];
      MainStopsAtFirst(prefix, file);
      var prev := MainRun(prefix, file);
      assert forall i :: 0 <= i < n ==> prefix[i] == pending[i];
      if !prev.stopped {
        assert |prev.looked| == n;
      }
    }
  }

  /** The log only grows: its rows after the loop are the rows before
      followed by one row per successful lookup, each naming a channel that
      was looked up and carrying a non-empty id. */
  lemma {:induction false} MainKeepsLog(pending: seq<ChannelJob>, file: Option<Table<ProgressRow>>)
    ensures var st := MainRun(pending, file);
      && |LoadProgress(st.file)| >= |LoadProgress(file)|
      && LoadProgress(st.file)[..|LoadProgress(file)|] == LoadProgress(file)
      && (forall i :: |LoadProgress(file)| <= i < |LoadProgress(st.file)| ==>
            LoadProgress(st.file)[i].channelName in st.looked && LoadProgress(st.file)[i].playlistId != "")
  {
    if |pending| > 0 {
      var n := |pending| - 1;
      MainKeepsLog(pending[..n], file);
    }
  }

  /** `row` is the row saved for `job`: its lookup returned that
      non-empty id, and the row carries the job's name and clock reading. */
  predicate SavedFor(job: ChannelJob, row: ProgressRow) {
    && LookupResult(job.attempts) == Returned(Some(row.playlistId))
    && row.playlistId != ""
    && row == ProgressRow(job.name, row.playlistId, job.now)
  }

  /** One step adds the job's row exactly when the loop is running and
      the lookup returned a truthy id. */
  lemma MainStepLog(st: MainState, job: ChannelJob)
    ensures var rows := LoadProgress(st.file);
      var next := LoadProgress(MainStep(st, job).file);
      if !st.stopped && Saves(LookupResult(job.attempts)) then
        |next| == |rows| + 1 && next[..|rows|] == rows && SavedFor(job, next[|rows|])
      else next == rows
  {
  }

  /** Every row the loop adds was saved for a channel it looked up, and
      that channel's lookup returned the row's id. */
  lemma {:induction false} MainLogsOnlySuccess(pending: seq<ChannelJob>, file: Option<Table<ProgressRow>>, i: int)
    requires |LoadProgress(file)| <= i < |LoadProgress(MainRun(pending, file).file)|
    ensures var st := MainRun(pending, file);
      exists j :: 0 <= j < |st.looked| && j < |pending| && SavedFor(pending[j], LoadProgress(st.file)[i])
  {
    if |pending| > 0 {
      var n := |pending| - 1;
      var prev := MainRun(pending[..n], file);
      var st := MainRun(pending, file);
      MainLooksInOrder(pending[..n], file);
      MainStepLooked(prev, pending[n]);
      MainStepLog(prev, pending[n]);
      if i < |LoadProgress(prev.file)| {
        MainLogsOnlySuccess(pending[..n], file, i);
        var j :| 0 <= j < |prev.looked| && j < n && SavedFor(pending[..n][j], LoadProgress(prev.file)[i]);
        assert pending[..n][j] == pending[j];
        assert LoadProgress(st.file)[i] == LoadProgress(prev.file)[i];
        assert SavedFor(pending[j], LoadProgress(st.file)[i]);
      } else {
        assert |st.looked| == n + 1;
        assert SavedFor(pending[n], LoadProgress(st.file)[i]);
      }
    }
  }

  /** Every channel looked up whose lookup returned a truthy id has its
      row among those the loop adds. */
  lemma {:induction false} MainLogsEverySuccess(pending: seq<ChannelJob>, file: Option<Table<ProgressRow>>, j: int)
    requires 0 <= j < |MainRun(pending, file).looked| && j < |pending|
    requires Saves(LookupResult(pending[j].attempts))
    ensures var st := MainRun(pending, file);
      exists i :: |LoadProgress(file)| <= i < |LoadProgress(st.file)| && SavedFor(pending[j], LoadProgress(st.file)[i])
  {
    var n := |pending| - 1;
    var prev := MainRun(pending[..n], file);
    var st := MainRun(pending, file);
    assert st == MainStep(prev, pending[n]);
    MainLooksInOrder(pending[..n], file);
    MainKeepsLog(pending[..n], file);
    MainStepLooked(prev, pending[n]);
    MainStepLog(prev, pending[n]);
    if j < |prev.looked| {
      MainLogsEverySuccess(pending[..n], file, j);
      assert pending[..n][j] == pending[j];
      var i :| |LoadProgress(file)| <= i < |LoadProgress(prev.file)| && SavedFor(pending[j], LoadProgress(prev.file)[i]);
      assert LoadProgress(st.file)[i] == LoadProgress(prev.file)[i];
      assert |LoadProgress(file)| <= i < |LoadProgress(st.file)| && SavedFor(pending[j], LoadProgress(st.file)[i]);
    } else {
      assert j == n;
      assert SavedFor(pending[j], LoadProgress(st.file)[|LoadProgress(prev.file)|]);
    }
  }

  /** No channel in the processed set read at the start is looked up
      again. */
  lemma SkipsProcessed(jobs: seq<ChannelJob>, processed: set<string>, file: Option<Table<ProgressRow>>)
    ensures forall c :: c in MainRun(Pending(jobs, processed), file).looked ==> c !in processed
  {
    var pending := Pending(jobs, processed);
    var looked := MainRun(pending, file).looked;
    MainLooksInOrder(pending, file);
    forall c | c in looked
      ensures c !in processed
    {
      var i :| 0 <= i < |looked| && looked[i] == c;
      assert pending[i] in pending;
    }
  }

  /** The channels are looked up in the order of the channel list. */
  lemma LooksInListOrder(jobs: seq<ChannelJob>, processed: set<string>, file: Option<Table<ProgressRow>>)
    ensures IsSubsequence(MainRun(Pending(jobs, processed), file).looked, Names(jobs))
  {
    var pending := Pending(jobs, processed);
    var looked := MainRun(pending, file).looked;
    MainLooksInOrder(pending, file);
    NamesOfSubsequence(pending, jobs);
    assert Names(pending[..|looked|]) == Names(pending)[..|looked|];
    PrefixIsSubsequence(looked, Names(pending));
    SubsequenceTransitive(looked, Names(pending), Names(jobs));
  }

  lemma {:induction false} NamesOfSubsequence(a: seq<ChannelJob>, b: seq<ChannelJob>)
    requires IsSubsequence(a, b)
    ensures IsSubsequence(Names(a), Names(b))
    decreases |b|
  {
    if |b| > 0 {
      var b' := b[..|b| - 1];
      if IsSubsequence(a, b') {
        NamesOfSubsequence(a, b');
      } else {
        NamesOfSubsequence(a[..|a| - 1], b');
      }
      assert Names(b) == Names(b') + [b[|b| - 1].name];
    } else {
      assert Names(a) == [];
    }
  }

  lemma {:induction false} PrefixIsSubsequence<T>(a: seq<T>, b: seq<T>)
    requires |a| <= |b| && a == b[..|a|]
    ensures IsSubsequence(a, b)
    decreases |b|
  {
    if |b| > 0 {
      if |a| == |b| {
        assert a == b;
        var n := |b| - 1;
        PrefixIsSubsequence(a[..n], b[..n]);
      } else {
        PrefixIsSubsequence(a, b[..|b| - 1]);
      }
    }
  }

  /** The `__main__` loop of api.py: filter once by the log read at the
      start, then look each pending channel up, saving truthy ids and
      breaking on an escaping 429 or 403. */
  method ProcessPending(jobs: seq<ChannelJob>, progress0: Option<Table<ProgressRow>>)
    returns (progress: Option<Table<ProgressRow>>, looked: seq<string>, stopped: bool)
    requires forall i :: 0 <= i < |jobs| ==> |jobs[i].attempts| == RangeLength(DefaultMaxRetries)
    ensures MainState(progress, looked, stopped) == MainRun(Pending(jobs, LoggedNames(LoadProgress(progress0))), progress0)
  {
    var processedChannels := LoggedNames(LoadProgress(progress0));
    var pending := Pending(jobs, processedChannels);
    progress, looked, stopped := progress0, [], false;
    var i := 0;
    while i < |pending|
      invariant 0 <= i <= |pending|
      invariant MainState(progress, looked, stopped) == MainRun(pending[..i], progress0)
      invariant !stopped
    {
      var job := pending[i];
      assert job in jobs;
      MainRunSnoc(pending, progress0, i);
      looked := looked + [job.name];
      var r, _, _ := GetUploadsPlaylistId(DefaultMaxRetries, job.attempts);
      if r.Returned? {
        if r.id.Some? && r.id.value != "" {
          progress := Some(SaveProgress(progress, job.name, r.id.value, job.now));
        }
      } else if r.error.HttpError? && (r.error.status == 429 || r.error.status == 403) {
        stopped := true;
        StoppedStays(pending, progress0, i + 1);
        return;
      }
      i := i + 1;
    }
    assert pending[..|pending|] == pending;
  }

  lemma MainRunSnoc(pending: seq<ChannelJob>, file: Option<Table<ProgressRow>>, i: int)
    requires 0 <= i < |pending|
    ensures MainRun(pending[..i + 1], file) == MainStep(MainRun(pending[..i], file), pending[i])
  {
    assert pending[..i + 1][..i] == pending[..i];
  }

  /** Once stopped, the remaining channels change nothing. */
  lemma {:induction false} StoppedStays(pending: seq<ChannelJob>, file: Option<Table<ProgressRow>>, m: int)
    requires 0 <= m <= |pending| && MainRun(pending[..m], file).stopped
    ensures MainRun(pending, file) == MainRun(pending[..m], file)
    decreases |pending| - m
  {
    if m < |pending| {
      MainRunSnoc(pending, file, m);
      StoppedStays(pending, file, m + 1);
    } else {
      assert pending[..m] == pending;
    }
  }
}
