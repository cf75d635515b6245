/** init.py: the three-step pipeline. Modelled here: the quota-reset clock
    of `QuotaHandler`, `get_last_processed`, the checkpoint file of
    `update_last_processed`, the playlist CSV of `append_to_playlist_csv`,
    the resumable channel scan of `step1_get_playlists`, the pagination of
    `get_video_ids_from_playlist` and the transcript join of
    `get_transcript_text`. */
module Init {
  import opened Common
  import opened Text
  import opened Csv
  import opened Remote

  // ------------------------------------------------------------------
  // get_last_processed
  // ------------------------------------------------------------------

  /** Reads every row of a CSV file and keeps the last one. */
  method GetLastProcessed(rows: seq<seq<string>>) returns (last: Option<seq<string>>)
    ensures |rows| == 0 ==> last == None
    ensures |rows| > 0 ==> last == Some(rows[|rows| - 1])
  {
    last := None;
    for i := 0 to |rows|
      invariant i == 0 ==> last == None
      invariant i > 0 ==> last == Some(rows[i - 1])
    {
      last := Some(rows[i]);
    }
  }

  // ------------------------------------------------------------------
  // QuotaHandler
  // ------------------------------------------------------------------

  const SecondsPerHour: int := 3600
  const SecondsPerDay: int := 86400
  /** The quota is taken to reset at 03:00 local time every day. */
  const ResetHour: int := 3

  /** `t`, in seconds counted from today's local midnight (later days
      continue the count), is a 03:00 wall-clock instant. */
  predicate IsResetInstant(t: int) {
    t % SecondsPerDay == ResetHour * SecondsPerHour
  }

  /** Seconds from `now` (seconds since local midnight) to the next 03:00:
      today's when the hour is still below 3, otherwise tomorrow's. */
  function SecondsUntilReset(now: int): (wait: int)
    requires 0 <= now < SecondsPerDay
    ensures 0 < wait <= SecondsPerDay
    ensures IsResetInstant(now + wait)
    ensures forall t :: now < t < now + wait ==> !IsResetInstant(t)
    ensures now / SecondsPerHour < ResetHour ==> now + wait == ResetHour * SecondsPerHour
    ensures now / SecondsPerHour >= ResetHour ==> now + wait == SecondsPerDay + ResetHour * SecondsPerHour
  {
    var todayReset := ResetHour * SecondsPerHour;
    var nextReset := if now / SecondsPerHour >= ResetHour then todayReset + SecondsPerDay else todayReset;
    NoResetBetween(now, nextReset);
    nextReset - now
  }

  lemma NoResetBetween(now: int, nextReset: int)
    requires 0 <= now < SecondsPerDay
    requires nextReset == ResetHour * SecondsPerHour || nextReset == ResetHour * SecondsPerHour + SecondsPerDay
    requires now < nextReset
    requires nextReset == ResetHour * SecondsPerHour + SecondsPerDay ==> now >= ResetHour * SecondsPerHour
    ensures forall t :: now < t < nextReset ==> !IsResetInstant(t)
  {
    forall t | now < t < nextReset
      ensures !IsResetInstant(t)
    {
      if t < SecondsPerDay {
        assert t % SecondsPerDay == t;
      } else {
        assert t % SecondsPerDay == t - SecondsPerDay;
      }
    }
  }

  /** The process-wide quota state of init.py. */
  class QuotaHandler {
    var quotaExceeded: bool

    constructor ()
      ensures !quotaExceeded
    {
      quotaExceeded := false;
    }

    /** Marks the quota as exceeded and returns how long to sleep until it
        resets; `now` is the local clock in seconds since midnight. */
    method HandleQuotaExceeded(now: int) returns (wait: int)
      requires 0 <= now < SecondsPerDay
      modifies this
      ensures quotaExceeded
      ensures wait == SecondsUntilReset(now)
      ensures 0 < wait <= SecondsPerDay && IsResetInstant(now + wait)
    {
      quotaExceeded := true;
      wait := SecondsUntilReset(now);
    }
  }

  // ------------------------------------------------------------------
  // The checkpoint file and the playlist CSV
  // ------------------------------------------------------------------

  /** One line of the playlist CSV. */
  datatype PlaylistRow = PlaylistRow(channelName: string, uploadsPlaylistId: string)

  const PlaylistHeader: seq<string> := ["channel_name", "uploads_playlist_id"]

  /** The set `step1_get_playlists` builds from the checkpoint file, one
      stripped name per line; an absent file is read as no lines. */
  function LoadProcessed(lines: seq<string>): (r: set<string>)
    ensures r == set l | l in lines :: Strip(l)
  {
    if |lines| == 0 then {}
    else
      var n := |lines| - 1;
      assert lines == lines[..n] + [lines[n]];
      LoadProcessed(lines[..n]) + {Strip(lines[n])}
  }

  /** `update_last_processed`: one more line at the end of the file. */
  function UpdateLastProcessed(lines: seq<string>, name: string): (r: seq<string>)
    ensures |r| == |lines| + 1 && r[..|lines|] == lines && r[|lines|] == name
  {
    lines + [name]
  }

  /** A stripped name written to the checkpoint file is read back as itself:
      the processed set grows by exactly that name. */
  lemma CheckpointRoundTrip(lines: seq<string>, name: string)
    requires Strip(name) == name
    ensures LoadProcessed(UpdateLastProcessed(lines, name)) == LoadProcessed(lines) + {name}
  {
    assert UpdateLastProcessed(lines, name)[..|lines|] == lines;
  }

  /** `append_to_playlist_csv`: a header only when the file is new. */
  function AppendToPlaylistCsv(file: Option<Table<PlaylistRow>>, name: string, playlistId: string): (r: Table<PlaylistRow>)
    ensures r.header == if file.Some? then file.value.header else PlaylistHeader
    ensures r.rows == RowsOf(file) + [PlaylistRow(name, playlistId)]
  {
    AppendRows(file, PlaylistHeader, [PlaylistRow(name, playlistId)])
  }

  function NamesOf(rows: seq<PlaylistRow>): (r: seq<string>)
    ensures |r| == |rows|
    ensures forall i :: 0 <= i < |rows| ==> r[i] == rows[i].channelName
  {
    if |rows| == 0 then [] else NamesOf(rows[..|rows| - 1]) + [rows[|rows| - 1].channelName]
  }

  /** The channel names of `rows`, as a set. */
  function NameSet(rows: seq<PlaylistRow>): set<string> {
    set r | r in rows :: r.channelName
  }

  // ------------------------------------------------------------------
  // step1_get_playlists: the scan as a specification
  // ------------------------------------------------------------------

  /** The state of one scan over the channel rows: the playlist rows
      written (in order), the names handed to `get_uploads_playlist_id`
      (in order) and the processed set. */
  datatype Scan = Scan(written: seq<PlaylistRow>, calls: seq<string>, processed: set<string>)

  /** One channel: skip its (stripped) name if it is processed; otherwise
      ask for its playlist id (`outcome` is what the lookup returns) and
      record it only when the id is truthy. */
  function ScanStep(s: Scan, name: string, outcome: Option<string>): Scan {
    if name in s.processed then s
    else if Truthy(outcome) then
      Scan(s.written + [PlaylistRow(name, outcome.value)], s.calls + [name], s.processed + {name})
    else s.(calls := s.calls + [name])
  }

  /** The scan over the stripped channel names `names`, where `outcomes[i]`
      is what the lookup returns for row `i` when it is asked, starting
      from the processed set `p`. */
  function ScanRows(names: seq<string>, outcomes: seq<Option<string>>, p: set<string>): Scan
    requires |outcomes| == |names|
  {
    if |names| == 0 then Scan([], [], p)
    else
      var n := |names| - 1;
      ScanStep(ScanRows(names[..n], outcomes[..n], p), names[n], outcomes[n])
  }

  /** `str(row['channel_name']).strip()` for every input row. */
  function StripAll(channels: seq<string>): (r: seq<string>)
    ensures |r| == |channels|
    ensures forall i :: 0 <= i < |channels| ==> r[i] == Strip(channels[i])
  {
    if |channels| == 0 then [] else StripAll(channels[..|channels| - 1]) + [Strip(channels[|channels| - 1])]
  }

  /** The processed set only ever gains the names that were written. */
  lemma {:induction false} ScanProcessed(names: seq<string>, outcomes: seq<Option<string>>, p: set<string>)
    requires |outcomes| == |names|
    ensures var s := ScanRows(names, outcomes, p); s.processed == p + NameSet(s.written)
  {
    if |names| > 0 {
      var n := |names| - 1;
      ScanProcessed(names[..n], outcomes[..n], p);
      var s0 := ScanRows(names[..n], outcomes[..n], p);
      var s := ScanRows(names, outcomes, p);
      if s.written != s0.written {
        assert NameSet(s.written) == NameSet(s0.written) + {names[n]};
      }
    }
  }

  /** Never re-attempt done work: no name handed to the lookup was in the
      processed set the scan started from, and every written row was
      looked up. */
  lemma {:induction false} ScanSkipsProcessed(names: seq<string>, outcomes: seq<Option<string>>, p: set<string>)
    requires |outcomes| == |names|
    ensures var s := ScanRows(names, outcomes, p);
      && p <= s.processed
      && (forall c :: c in s.calls ==> c !in p)
      && (forall r :: r in s.written ==> r.channelName in s.calls)
  {
    if |names| > 0 {
      var n := |names| - 1;
      ScanSkipsProcessed(names[..n], outcomes[..n], p);
    }
  }

  /** The processed set keeps growing during the pass: after the first
      `k` rows, the rest of the pass keeps the lookups made so far and
      looks up no name that was processed by then, whether in an earlier
      run or earlier in this one. */
  lemma {:induction false} ScanNoRepeatAfter(names: seq<string>, outcomes: seq<Option<string>>, p: set<string>, k: int)
    requires |outcomes| == |names| && 0 <= k <= |names|
    ensures var s0 := ScanRows(names[..k], outcomes[..k], p);
      var s := ScanRows(names, outcomes, p);
      && s0.processed <= s.processed
      && |s0.calls| <= |s.calls|
      && s.calls[..|s0.calls|] == s0.calls
      && (forall i :: |s0.calls| <= i < |s.calls| ==> s.calls[i] !in s0.processed)
  {
    if |names| == k {
      assert names[..k] == names && outcomes[..k] == outcomes;
    } else {
      var n := |names| - 1;
      ScanNoRepeatAfter(names[..n], outcomes[..n], p, k);
      assert names[..n][..k] == names[..k] && outcomes[..n][..k] == outcomes[..k];
      var s0 := ScanRows(names[..k], outcomes[..k], p);
      var prev := ScanRows(names[..n], outcomes[..n], p);
      var s := ScanRows(names, outcomes, p);
      var m := |s0.calls|;
      if names[n] in prev.processed {
        assert s == prev;
      } else {
        assert s.calls == prev.calls + [names[n]];
        assert s.calls[..m] == prev.calls[..m];
      }
    }
  }

  /** No channel name is written twice within a pass, nor one that was
      already processed. */
  lemma {:induction false} ScanWritesOnce(names: seq<string>, outcomes: seq<Option<string>>, p: set<string>)
    requires |outcomes| == |names|
    ensures var s := ScanRows(names, outcomes, p);
      && (forall i :: 0 <= i < |s.written| ==> s.written[i].channelName !in p)
      && (forall i, j :: 0 <= i < j < |s.written| ==> s.written[i].channelName != s.written[j].channelName)
  {
    if |names| > 0 {
      var n := |names| - 1;
      ScanWritesOnce(names[..n], outcomes[..n], p);
      ScanProcessed(names[..n], outcomes[..n], p);
      var s0 := ScanRows(names[..n], outcomes[..n], p);
      assert forall i :: 0 <= i < |s0.written| ==> s0.written[i].channelName in s0.processed;
    }
  }

  /** Record only on success: every written row comes from a channel row
      whose lookup returned that very (truthy) playlist id. */
  lemma {:induction false} ScanRecordsOnlySuccess(names: seq<string>, outcomes: seq<Option<string>>, p: set<string>)
    requires |outcomes| == |names|
    ensures var s := ScanRows(names, outcomes, p);
      forall r :: r in s.written ==>
        exists i :: 0 <= i < |names| && names[i] == r.channelName
          && outcomes[i] == Some(r.uploadsPlaylistId) && Truthy(outcomes[i])
  {
    if |names| > 0 {
      var n := |names| - 1;
      ScanRecordsOnlySuccess(names[..n], outcomes[..n], p);
      var s0 := ScanRows(names[..n], outcomes[..n], p);
      forall r | r in ScanRows(names, outcomes, p).written
        ensures exists i ::
          0 <= i < |names| && names[i] == r.channelName
          && outcomes[i] == Some(r.uploadsPlaylistId) && Truthy(outcomes[i])
      {
        if r in s0.written {
          var i :| 0 <= i < n && names[..n][i] == r.channelName
            && outcomes[..n][i] == Some(r.uploadsPlaylistId) && Truthy(outcomes[..n][i]);
          assert names[..n][i] == names[i] && outcomes[..n][i] == outcomes[i];
        } else {
          assert names[n] == r.channelName && outcomes[n] == Some(r.uploadsPlaylistId);
        }
      }
    }
  }

  /** Nothing pending is lost: a row whose lookup succeeds leaves its name
      processed (by it, by an earlier row with the same name, or because
      it was processed already). */
  lemma {:induction false} ScanRecordsEverySuccess(names: seq<string>, outcomes: seq<Option<string>>, p: set<string>, i: int)
    requires |outcomes| == |names|
    requires 0 <= i < |names| && Truthy(outcomes[i])
    ensures names[i] in ScanRows(names, outcomes, p).processed
  {
    var n := |names| - 1;
    ScanSkipsProcessed(names[..n], outcomes[..n], p);
    if i < n {
      ScanRecordsEverySuccess(names[..n], outcomes[..n], p, i);
      assert names[..n][i] == names[i];
    }
  }

  /** The lookups happen in the order of the input rows. */
  lemma {:induction false} ScanKeepsOrder(names: seq<string>, outcomes: seq<Option<string>>, p: set<string>)
    requires |outcomes| == |names|
    ensures IsSubsequence(ScanRows(names, outcomes, p).calls, names)
  {
    if |names| == 0 {
    } else {
      var n := |names| - 1;
      ScanKeepsOrder(names[..n], outcomes[..n], p);
      assert names == names[..n] + [names[n]];
      SubsequenceSnoc(ScanRows(names[..n], outcomes[..n], p).calls, names[..n], names[n]);
    }
  }

  lemma {:induction false} StripAllStripped(channels: seq<string>)
    ensures forall i :: 0 <= i < |channels| ==> Strip(StripAll(channels)[i]) == StripAll(channels)[i]
  {
    forall i | 0 <= i < |channels|
      ensures Strip(StripAll(channels)[i]) == StripAll(channels)[i]
    {
      StripIdempotent(channels[i]);
    }
  }

  lemma {:induction false} WrittenNamesStripped(names: seq<string>, outcomes: seq<Option<string>>, p: set<string>)
    requires |outcomes| == |names|
    requires forall i :: 0 <= i < |names| ==> Strip(names[i]) == names[i]
    ensures forall r :: r in ScanRows(names, outcomes, p).written ==> Strip(r.channelName) == r.channelName
  {
    if |names| > 0 {
      var n := |names| - 1;
      WrittenNamesStripped(names[..n], outcomes[..n], p);
    }
  }

  lemma {:induction false} ReloadAppended(lines: seq<string>, rows: seq<PlaylistRow>)
    requires forall r :: r in rows ==> Strip(r.channelName) == r.channelName
    ensures LoadProcessed(lines + NamesOf(rows)) == LoadProcessed(lines) + NameSet(rows)
    decreases |rows|
  {
    if |rows| == 0 {
      assert lines + NamesOf(rows) == lines;
    } else {
      var n := |rows| - 1;
      var name := rows[n].channelName;
      var before := lines + NamesOf(rows[..n]);
      assert forall r :: r in rows[..n] ==> r in rows;
      ReloadAppended(lines, rows[..n]);
      ConcatAssociative(lines, NamesOf(rows[..n]), [name]);
      assert rows[n] in rows;
      CheckpointRoundTrip(before, name);
      NameSetLast(rows);
    }
  }

  lemma NameSetLast(rows: seq<PlaylistRow>)
    requires |rows| > 0
    ensures NameSet(rows) == NameSet(rows[..|rows| - 1]) + {rows[|rows| - 1].channelName}
  {
    var n := |rows| - 1;
    assert forall r :: r in rows <==> r in rows[..n] || r == rows[n] by {
      assert rows == rows[..n] + [rows[n]];
    }
  }

  /** Across runs: the checkpoint file a pass leaves behind reloads as the
      pass's final processed set, so a later run over any outcomes never
      looks up a name the earlier run recorded. */
  lemma ResumeSkipsRecorded(channels: seq<string>, first: seq<Option<string>>, second: seq<Option<string>>, lines: seq<string>)
    requires |first| == |channels| && |second| == |channels|
    ensures var s := ScanRows(StripAll(channels), first, LoadProcessed(lines));
      && LoadProcessed(lines + NamesOf(s.written)) == s.processed
      && forall c :: c in ScanRows(StripAll(channels), second, s.processed).calls ==>
           c !in LoadProcessed(lines) && c !in NamesOf(s.written)
  {
    var names := StripAll(channels);
    var p := LoadProcessed(lines);
    var s := ScanRows(names, first, p);
    ScanProcessed(names, first, p);
    StripAllStripped(channels);
    WrittenNamesStripped(names, first, p);
    ReloadAppended(lines, s.written);
    ScanSkipsProcessed(names, second, s.processed);
    NamesInNameSet(s.written);
  }

  lemma NamesInNameSet(rows: seq<PlaylistRow>)
    ensures forall c :: c in NamesOf(rows) ==> c in NameSet(rows)
  {
    forall c | c in NamesOf(rows)
      ensures c in NameSet(rows)
    {
      var i :| 0 <= i < |rows| && NamesOf(rows)[i] == c;
      assert rows[i] in rows;
    }
  }

  // ------------------------------------------------------------------
  // step1_get_playlists: the driver
  // ------------------------------------------------------------------

  /** `step1_get_playlists`: scans the channel rows, skipping names found in
      the checkpoint file, and appends each success to the playlist CSV and
      to the checkpoint file. `outcomes[i]` is what `get_uploads_playlist_id`
      returns for row `i`; it returns a string or None and never sets the
      quota flag, so the pause-and-rescan branch is dead and the outer
      `while True` runs exactly one pass. Returns the new files, the names
      looked up, and the number of passes. */
  method Step1GetPlaylists(channels: seq<string>, outcomes: seq<Option<string>>,
                           playlistsCsv: Option<Table<PlaylistRow>>, lastProcessed: seq<string>)
    returns (playlists: Option<Table<PlaylistRow>>, checkpoint: seq<string>, calls: seq<string>, passes: nat)
    requires |outcomes| == |channels|
    ensures var s := ScanRows(StripAll(channels), outcomes, LoadProcessed(lastProcessed));
      && calls == s.calls
      && playlists == AppendEach(playlistsCsv, PlaylistHeader, s.written)
      && checkpoint == lastProcessed + NamesOf(s.written)
    ensures passes == 1
  {
    var quota := new QuotaHandler();
    playlists, checkpoint, calls, passes := playlistsCsv, lastProcessed, [], 0;
    var rescan := true;
    while rescan
      invariant !quota.quotaExceeded
      invariant passes <= 1 && (rescan <==> passes == 0)
      invariant passes == 0 ==> playlists == playlistsCsv && checkpoint == lastProcessed
      invariant passes == 1 ==>
        var s := ScanRows(StripAll(channels), outcomes, LoadProcessed(lastProcessed));
        && calls == s.calls
        && playlists == AppendEach(playlistsCsv, PlaylistHeader, s.written)
        && checkpoint == lastProcessed + NamesOf(s.written)
      decreases 1 - passes
    {
      var processed := LoadProcessed(checkpoint);
      playlists, checkpoint, calls := ScanPass(channels, outcomes, quota, processed, playlists, checkpoint);
      passes := passes + 1;
      // `if quota_handler.quota_exceeded: continue` else `break`
      rescan := quota.quotaExceeded;
    }
  }

  /** One pass of `for idx, row in df.iterrows()` in `step1_get_playlists`,
      starting from the processed set read from the checkpoint file. */
  method ScanPass(channels: seq<string>, outcomes: seq<Option<string>>, quota: QuotaHandler,
                  processedAtStart: set<string>,
                  playlistsCsv: Option<Table<PlaylistRow>>, lastProcessed: seq<string>)
    returns (playlists: Option<Table<PlaylistRow>>, checkpoint: seq<string>, calls: seq<string>)
    requires |outcomes| == |channels|
    requires !quota.quotaExceeded
    ensures var s := ScanRows(StripAll(channels), outcomes, processedAtStart);
      && calls == s.calls
      && playlists == AppendEach(playlistsCsv, PlaylistHeader, s.written)
      && checkpoint == lastProcessed + NamesOf(s.written)
  {
    ghost var names := StripAll(channels);
    var processed := processedAtStart;
    playlists, checkpoint, calls := playlistsCsv, lastProcessed, [];
    ghost var written: seq<PlaylistRow> := [];
    for i := 0 to |channels|
      invariant Scan(written, calls, processed) == ScanRows(names[..i], outcomes[..i], processedAtStart)
      invariant playlists == AppendEach(playlistsCsv, PlaylistHeader, written)
      invariant checkpoint == lastProcessed + NamesOf(written)
      invariant !quota.quotaExceeded
    {
      ScanRowsSnoc(names, outcomes, processedAtStart, i);
      var name := Strip(channels[i]);
      processed, playlists, checkpoint, calls, written :=
        ScanChannel(name, outcomes[i], quota, processed, playlists, checkpoint, calls, playlistsCsv, lastProcessed, written);
    }
    assert names[..|channels|] == names && outcomes[..|outcomes|] == outcomes;
  }

  /** The body of the loop for one channel row: `plId` is what the lookup
      returns for it. */
  method ScanChannel(name: string, plId: Option<string>, quota: QuotaHandler, processed: set<string>,
                     playlists: Option<Table<PlaylistRow>>, checkpoint: seq<string>, calls: seq<string>,
                     ghost playlistsCsv: Option<Table<PlaylistRow>>, ghost lastProcessed: seq<string>,
                     ghost written: seq<PlaylistRow>)
    returns (processed': set<string>, playlists': Option<Table<PlaylistRow>>, checkpoint': seq<string>,
             calls': seq<string>, ghost written': seq<PlaylistRow>)
    requires !quota.quotaExceeded
    requires playlists == AppendEach(playlistsCsv, PlaylistHeader, written)
    requires checkpoint == lastProcessed + NamesOf(written)
    ensures Scan(written', calls', processed') == ScanStep(Scan(written, calls, processed), name, plId)
    ensures playlists' == AppendEach(playlistsCsv, PlaylistHeader, written')
    ensures checkpoint' == lastProcessed + NamesOf(written')
  {
    processed', playlists', checkpoint', calls', written' := processed, playlists, checkpoint, calls, written;
    if name !in processed {
      calls' := calls + [name];
      if plId.None? && quota.quotaExceeded {
        // the flag is only set inside this branch, so it is never taken
        assert false;
      }
      if Truthy(plId) {
        var row := PlaylistRow(name, plId.value);
        AppendEachSnoc(playlistsCsv, PlaylistHeader, written, row);
        NamesOfSnoc(written, row);
        ConcatAssociative(lastProcessed, NamesOf(written), [name]);
        playlists' := Some(AppendToPlaylistCsv(playlists, name, plId.value));
        checkpoint' := UpdateLastProcessed(checkpoint, name);
        processed' := processed + {name};
        written' := written + [row];
      }
    }
  }

  lemma ScanRowsSnoc(names: seq<string>, outcomes: seq<Option<string>>, p: set<string>, i: int)
    requires 0 <= i < |names| == |outcomes|
    ensures ScanRows(names[..i + 1], outcomes[..i + 1], p) == ScanStep(ScanRows(names[..i], outcomes[..i], p), names[i], outcomes[i])
  {
    assert names[..i + 1][..i] == names[..i] && outcomes[..i + 1][..i] == outcomes[..i];
  }

  lemma NamesOfSnoc(written: seq<PlaylistRow>, row: PlaylistRow)
    ensures NamesOf(written + [row]) == NamesOf(written) + [row.channelName]
  {
    assert (written + [row])[..|written|] == written;
  }

  // ------------------------------------------------------------------
  // get_video_ids_from_playlist
  // ------------------------------------------------------------------

  /** The loop stops at this response: it raised, its `items` are missing
      or empty, an item lacks its video id, or there is no truthy
      `nextPageToken`. */
  predicate StopsAt(r: Response) {
    match r
    case Raised => true
    case Page(items, token) =>
      items.None? || items.value == [] || !WellFormed(items.value) || !Truthy(token)
  }

  /** The ids one response contributes: those of its items up to the first
      one without a video id (the lookup of that one raises). */
  function PageIds(r: Response): (ids: seq<string>)
    ensures r.Raised? || r.items.None? ==> ids == []
    ensures r.Page? && r.items.Some? ==> ids == IdsBeforeMalformed(r.items.value)
  {
    if r.Page? && r.items.Some? then IdsBeforeMalformed(r.items.value) else []
  }

  /** The ids `get_video_ids_from_playlist` gathers when the successive
      requests are answered by `pages`: each response's ids, until one
      stops the loop. */
  function CollectIds(pages: seq<Response>): seq<string>
  {
    if |pages| == 0 then []
    else if StopsAt(pages[0]) then PageIds(pages[0])
    else PageIds(pages[0]) + CollectIds(pages[1..])
  }

  /** Every id listed by every response, in order. */
  function ListedIds(pages: seq<Response>): seq<string>
  {
    if |pages| == 0 then [] else PageIds(pages[0]) + ListedIds(pages[1..])
  }

  /** The gathered ids are the in-order concatenation of the pages' ids,
      possibly cut short: a prefix of everything listed. */
  lemma {:induction false} CollectIsPrefixOfListed(pages: seq<Response>)
    ensures |CollectIds(pages)| <= |ListedIds(pages)|
    ensures CollectIds(pages) == ListedIds(pages)[..|CollectIds(pages)|]
  {
    if |pages| > 0 {
      var ids, listed := PageIds(pages[0]), ListedIds(pages);
      assert listed == ids + ListedIds(pages[1..]);
      if StopsAt(pages[0]) {
        assert CollectIds(pages) == ids == listed[..|ids|];
      } else {
        var tail := CollectIds(pages[1..]);
        CollectIsPrefixOfListed(pages[1..]);
        assert CollectIds(pages) == ids + tail;
        assert listed[..|ids| + |tail|] == ids + ListedIds(pages[1..])[..|tail|];
      }
    }
  }

  /** When every response before the last is full, well formed and carries
      a token, nothing is lost: all listed ids are gathered. */
  lemma {:induction false} CollectAllWhenClean(pages: seq<Response>)
    requires |pages| > 0
    requires forall k :: 0 <= k < |pages| - 1 ==> !StopsAt(pages[k])
    ensures CollectIds(pages) == ListedIds(pages)
  {
    if |pages| > 1 {
      CollectAllWhenClean(pages[1..]);
      assert !StopsAt(pages[0]);
    }
  }

  /** A response that stops the loop loses the listing after it: the
      gathered ids are that response's and those before it, whatever
      later responses hold. */
  lemma {:induction false} CollectStopsAt(pages: seq<Response>, k: int, later: seq<Response>)
    requires 0 <= k < |pages| && StopsAt(pages[k])
    ensures CollectIds(pages[..k + 1] + later) == CollectIds(pages)
  {
    if !StopsAt(pages[0]) {
      assert (pages[..k + 1] + later)[1..] == pages[1..][..k] + later;
      assert pages[1..][..k] + later == pages[1..][..k - 1 + 1] + later;
      CollectStopsAt(pages[1..], k - 1, later);
    } else {
      assert (pages[..k + 1] + later)[0] == pages[0];
    }
  }

  /** `get_video_ids_from_playlist` (init.py): requests pages until one
      stops the loop, appending ids as it goes. `pages[k]` answers the
      `k`-th request; a listing that would go on past the supplied answers
      is cut where they end. */
  method GetVideoIdsFromPlaylist(pages: seq<Response>) returns (videoIds: seq<string>)
    ensures videoIds == CollectIds(pages)
  {
    videoIds := [];
    var k := 0;
    while k < |pages|
      invariant 0 <= k <= |pages|
      invariant videoIds + CollectIds(pages[k..]) == CollectIds(pages)
    {
      ghost var before := videoIds;
      var more;
      videoIds, more := FetchPage(videoIds, pages[k]);
      CollectIdsStep(pages, k, before, videoIds);
      if !more {
        return;
      }
      k := k + 1;
    }
    assert pages[k..] == [];
  }

  /** The body of the `try` in `get_video_ids_from_playlist`: appends the
      response's ids and reports whether the loop goes on. */
  method FetchPage(videoIds: seq<string>, response: Response) returns (ids: seq<string>, more: bool)
    ensures ids == videoIds + PageIds(response)
    ensures more <==> !StopsAt(response)
  {
    if response.Raised? {
      // `request.execute()` raised: the `except` breaks the loop
      return videoIds, false;
    }
    var items := if response.items.Some? then response.items.value else [];
    if items == [] {
      return videoIds, false;
    }
    var failed;
    ids, failed := AppendPageIds(videoIds, items);
    // a missing video id raises inside the `try`, which breaks the loop
    more := !failed && Truthy(response.nextPageToken);
  }

  /** The `for item in items` loop: appends each item's video id until an
      item without one raises. */
  method AppendPageIds(videoIds: seq<string>, items: seq<Item>) returns (ids: seq<string>, failed: bool)
    ensures ids == videoIds + IdsBeforeMalformed(items)
    ensures failed <==> !WellFormed(items)
  {
    ids := videoIds;
    var i := 0;
    failed := false;
    while i < |items| && !failed
      invariant 0 <= i <= |items|
      invariant !failed ==> ids + IdsBeforeMalformed(items[i..]) == videoIds + IdsBeforeMalformed(items)
      invariant failed ==> ids == videoIds + IdsBeforeMalformed(items) && !WellFormed(items)
      invariant !failed ==> forall j :: 0 <= j < i ==> items[j].videoId.Some?
      decreases |items| - i, if failed then 0 else 1
    {
      match items[i].videoId {
        case None =>
          failed := true;
        case Some(id) =>
          assert items[i..][1..] == items[i + 1..];
          ConcatAssociative(ids, [id], IdsBeforeMalformed(items[i + 1..]));
          ids := ids + [id];
          i := i + 1;
      }
    }
  }

  /** One request of the loop: the ids gathered so far plus what the
      requests from the `k`-th on gather stays the same. */
  lemma CollectIdsStep(pages: seq<Response>, k: int, before: seq<string>, after: seq<string>)
    requires 0 <= k < |pages|
    requires after == before + PageIds(pages[k])
    ensures StopsAt(pages[k]) ==> after == before + CollectIds(pages[k..])
    ensures !StopsAt(pages[k]) ==> before + CollectIds(pages[k..]) == after + CollectIds(pages[k + 1..])
  {
    CollectIdsAt(pages, k);
    if !StopsAt(pages[k]) {
      ConcatAssociative(before, PageIds(pages[k]), CollectIds(pages[k + 1..]));
    }
  }

  /** What the requests from the `k`-th on gather, by what the `k`-th
      response is. */
  lemma CollectIdsAt(pages: seq<Response>, k: int)
    requires 0 <= k < |pages|
    ensures StopsAt(pages[k]) ==> CollectIds(pages[k..]) == PageIds(pages[k])
    ensures !StopsAt(pages[k]) ==> CollectIds(pages[k..]) == PageIds(pages[k]) + CollectIds(pages[k + 1..])
  {
    assert pages[k..][0] == pages[k];
    assert pages[k..][1..] == pages[k + 1..];
  }

  // ------------------------------------------------------------------
  // get_transcript_text
  // ------------------------------------------------------------------

  /** `get_transcript_text`: the entries' texts joined with single spaces,
      or None when the transcript service raised (`fetched` is None). */
  function GetTranscriptText(fetched: Option<seq<string>>): (r: Option<string>)
    ensures r.Some? <==> fetched.Some?
    ensures fetched == Some([]) ==> r == Some("")
    ensures fetched.Some? && |fetched.value| > 0 ==>
      |r.value| == TotalLength(fetched.value) + |fetched.value| - 1
    ensures fetched.Some? ==> forall i :: 0 <= i < |fetched.value| ==> PlacedAt(r.value, fetched.value, i)
    ensures fetched.Some? && |fetched.value| > 0 && (forall i :: 0 <= i < |fetched.value| ==> ' ' !in fetched.value[i]) ==>
      SplitOnSpace(r.value) == fetched.value
  {
    match fetched
    case None => None
    case Some(texts) =>
      JoinFacts(texts);
      Some(Join(texts))
  }

  lemma JoinFacts(texts: seq<string>)
    ensures forall i :: 0 <= i < |texts| ==> PlacedAt(Join(texts), texts, i)
    ensures |texts| > 0 && (forall i :: 0 <= i < |texts| ==> ' ' !in texts[i]) ==>
      SplitOnSpace(Join(texts)) == texts
  {
    forall i | 0 <= i < |texts|
      ensures PlacedAt(Join(texts), texts, i)
    {
      JoinPlaces(texts, i);
    }
    if |texts| > 0 && forall i :: 0 <= i < |texts| ==> ' ' !in texts[i] {
      SplitJoin(texts);
    }
  }
}
