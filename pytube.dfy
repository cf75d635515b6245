/** pytube1.py: cleaning channel names for URLs, the retrying channel
    lookup through yt-dlp, the truncation of a channel's entries and the
    driver that skips already processed channels and saves interim
    results. */
module Pytube {
  import opened Common
  import opened Text

  // ------------------------------------------------------------------
  // sanitize_channel_name / clean_channel_name
  // ------------------------------------------------------------------

  /** The characters `re.sub(r'[^\w\s@-]', '', ...)` keeps. */
  predicate Allowed(c: char) {
    IsWordChar(c) || IsSpace(c) || c == '@' || c == '-'
  }

  /** `sanitize_channel_name`: drop every other character, strip, then
      remove spaces and ampersands. */
  function SanitizeChannelName(name: string): (r: string)
    ensures r == Filter(Strip(Filter(name, Allowed)), NotChar(' '))
  {
    var kept := Filter(name, Allowed);
    StripShape(kept);
    assert forall c :: c in Strip(kept) ==> c in kept;
    RemoveAbsent(RemoveChar(Strip(kept), ' '), '&');
    RemoveCharIsFilter(Strip(kept), ' ');
    RemoveChar(RemoveChar(Strip(kept), ' '), '&')
  }

  /** The result holds only allowed characters, and neither a space nor an
      ampersand. */
  lemma SanitizeCharacters(name: string)
    ensures forall i :: 0 <= i < |SanitizeChannelName(name)| ==>
      var c := SanitizeChannelName(name)[i];
      Allowed(c) && c != ' ' && c != '&'
  {
    var kept := Filter(name, Allowed);
    StripShape(kept);
    var s := Strip(kept);
    assert forall c :: c in s ==> c in kept;
  }

  /** The result has no leading or trailing whitespace. */
  lemma SanitizeTrimmed(name: string)
    ensures var r := SanitizeChannelName(name);
      |r| > 0 ==> !IsSpace(r[0]) && !IsSpace(r[|r| - 1])
  {
    var s := Strip(Filter(name, Allowed));
    RemoveCharIsFilter(s, ' ');
    assert SanitizeChannelName(name) == RemoveChar(s, ' ');
    if |s| > 0 {
      RemoveKeepsEnds(s, ' ');
    }
  }

  /** Sanitizing is idempotent. */
  lemma SanitizeIdempotent(name: string)
    ensures SanitizeChannelName(SanitizeChannelName(name)) == SanitizeChannelName(name)
  {
    var r := SanitizeChannelName(name);
    SanitizeCharacters(name);
    SanitizeTrimmed(name);
    FilterKeepsAll(r, Allowed);
    StripFixed(r);
    RemoveAbsent(r, ' ');
    RemoveAbsent(r, '&');
  }

  /** The `.replace('&', '')` step never changes anything: the regular
      expression already removed every ampersand. */
  lemma AmpersandStepIsNoOp(name: string)
    ensures RemoveChar(Strip(Filter(name, Allowed)), ' ') == SanitizeChannelName(name)
  {
    var kept := Filter(name, Allowed);
    StripShape(kept);
    var s := RemoveChar(Strip(kept), ' ');
    assert forall c :: c in Strip(kept) ==> c in kept;
    RemoveAbsent(s, '&');
  }

  /** `clean_channel_name`: None for a missing value, otherwise the
      stripped name with every space removed. */
  function CleanChannelName(x: Option<string>): (r: Option<string>)
    ensures r.Some? <==> x.Some?
    ensures r.Some? ==> r.value == Filter(Strip(x.value), NotChar(' '))
    ensures r.Some? ==> ' ' !in r.value && |r.value| <= |x.value|
    ensures r.Some? && |r.value| > 0 ==> !IsSpace(r.value[0]) && !IsSpace(r.value[|r.value| - 1])
  {
    match x
    case None => None
    case Some(s) =>
      TrimmedAfterRemoval(s);
      RemoveCharIsFilter(Strip(s), ' ');
      Some(RemoveChar(Strip(s), ' '))
  }

  lemma TrimmedAfterRemoval(s: string)
    ensures var r := RemoveChar(Strip(s), ' ');
      |r| <= |s| && (|r| > 0 ==> !IsSpace(r[0]) && !IsSpace(r[|r| - 1]))
  {
    var t := Strip(s);
    StripShape(s);
    if |t| > 0 {
      RemoveKeepsEnds(t, ' ');
    }
  }

  // ------------------------------------------------------------------
  // process_channel_videos
  // ------------------------------------------------------------------

  /** One entry of `channel_info['entries']`; a missing key is None. */
  datatype Entry = Entry(id: Option<string>, title: Option<string>, url: Option<string>)

  /** What `extract_info` returns for a channel URL: the channel name and
      the entries, each possibly missing. */
  datatype ChannelInfo = ChannelInfo(channel: Option<string>, entries: Option<seq<Entry>>)

  datatype VideoRecord = VideoRecord(channelName: string, videoId: string, title: string, url: string)

  const MaxEntries: nat := 3
  const Unknown: string := "Unknown"

  /** `d.get(key, 'Unknown')`. */
  function OrUnknown(v: Option<string>): string {
    if v.Some? then v.value else Unknown
  }

  /** The record built for one entry. */
  function RecordOf(info: ChannelInfo, e: Entry): VideoRecord {
    VideoRecord(OrUnknown(info.channel), OrUnknown(e.id), OrUnknown(e.title), OrUnknown(e.url))
  }

  /** The records `process_channel_videos` returns, as a value: one
      record for each of the first three entries, in order. */
  function Records(info: ChannelInfo): (r: seq<VideoRecord>)
    requires info.entries.Some?
    ensures |r| == if |info.entries.value| < MaxEntries then |info.entries.value| else MaxEntries
    ensures forall i :: 0 <= i < |r| ==> r[i] == RecordOf(info, info.entries.value[i])
  {
    var entries := info.entries.value;
    var n := if |entries| < MaxEntries then |entries| else MaxEntries;
    seq(n, i requires 0 <= i < n => RecordOf(info, entries[i]))
  }

  /** `process_channel_videos`, called only once `entries` is known to be
      there. */
  method ProcessChannelVideos(info: ChannelInfo) returns (videos: seq<VideoRecord>)
    requires info.entries.Some?
    ensures videos == Records(info)
  {
    var entries := info.entries.value;
    var first := if |entries| < MaxEntries then entries else entries[..MaxEntries];
    videos := [];
    for i := 0 to |first|
      invariant |videos| == i
      invariant forall j :: 0 <= j < i ==> videos[j] == RecordOf(info, entries[j])
    {
      videos := videos + [RecordOf(info, first[i])];
    }
  }

  // ------------------------------------------------------------------
  // get_channel_playlists
  // ------------------------------------------------------------------

  const DefaultMaxRetries: int := 3
  const DefaultRetryDelay: int := 5

  function HandleUrl(clean: string): string {
    "https://www.youtube.com/@" + clean
  }

  function ChannelIdUrl(clean: string): string {
    "https://www.youtube.com/channel/" + clean
  }

  /** The URL of the `k`-th attempt: each round tries the handle URL, then
      the channel-id URL. */
  function AttemptUrl(clean: string, k: nat): string {
    if k % 2 == 0 then HandleUrl(clean) else ChannelIdUrl(clean)
  }

  function AttemptUrls(clean: string, n: nat): (r: seq<string>)
    ensures |r| == n
    ensures forall k :: 0 <= k < n ==> r[k] == AttemptUrl(clean, k)
  {
    if n == 0 then [] else AttemptUrls(clean, n - 1) + [AttemptUrl(clean, n - 1)]
  }

  /** `channel_info and 'entries' in channel_info`; None stands for an
      attempt that raised or returned nothing. */
  predicate Found(answer: Option<ChannelInfo>) {
    answer.Some? && answer.value.entries.Some?
  }

  /** The index of the first successful attempt, or `|answers|`. */
  function FirstFound(answers: seq<Option<ChannelInfo>>): (k: nat)
    ensures k <= |answers|
    ensures k < |answers| ==> Found(answers[k])
  {
    if |answers| == 0 then 0
    else if Found(answers[0]) then 0
    else 1 + FirstFound(answers[1..])
  }

  /** What `get_channel_playlists` returns when `answers[k]` answers its
      `k`-th attempt: the records of the first channel found, or None once
      every round failed. */
  function ChannelPlaylists(answers: seq<Option<ChannelInfo>>): Option<seq<VideoRecord>> {
    var k := FirstFound(answers);
    if k < |answers| then Some(Records(answers[k].value)) else None
  }

  /** The URLs tried: up to and including the first success, or all of
      them. */
  function TriedUrls(clean: string, answers: seq<Option<ChannelInfo>>): seq<string> {
    var k := FirstFound(answers);
    AttemptUrls(clean, if k < |answers| then k + 1 else |answers|)
  }

  /** The sleeps taken: one after each failed round except the last. */
  function Sleeps(maxRetries: int, retryDelay: int, answers: seq<Option<ChannelInfo>>): seq<int> {
    var k := FirstFound(answers);
    Backoffs(retryDelay, if k < |answers| then k / 2 else if RangeLength(maxRetries) == 0 then 0 else RangeLength(maxRetries) - 1)
  }

  /** At most two attempts per round and `max_retries` rounds, each round
      trying the handle URL and then the channel-id URL; the `i`-th sleep
      is `retry_delay * 2 ** i`, and there is none after the final round. */
  lemma ScheduleBounds(clean: string, maxRetries: int, retryDelay: int, answers: seq<Option<ChannelInfo>>)
    requires |answers| == 2 * RangeLength(maxRetries)
    ensures var tried := TriedUrls(clean, answers);
      && |tried| <= 2 * RangeLength(maxRetries)
      && (forall k :: 0 <= k < |tried| ==> tried[k] == (if k % 2 == 0 then HandleUrl(clean) else ChannelIdUrl(clean)))
    ensures var sleeps := Sleeps(maxRetries, retryDelay, answers);
      && (RangeLength(maxRetries) > 0 ==> |sleeps| <= RangeLength(maxRetries) - 1)
      && (RangeLength(maxRetries) == 0 ==> sleeps == [])
      && (forall i :: 0 <= i < |sleeps| ==> sleeps[i] == retryDelay * Pow2(i))
      && |sleeps| * 2 <= |TriedUrls(clean, answers)|
  {
  }

  /** `get_channel_playlists`. `answers` holds one answer per attempt, two
      per round. Returns the result, the URLs tried in order and the
      sleeps taken. */
  method GetChannelPlaylists(channelName: string, maxRetries: int, retryDelay: int,
                             answers: seq<Option<ChannelInfo>>)
    returns (result: Option<seq<VideoRecord>>, tried: seq<string>, sleeps: seq<int>)
    requires |answers| == 2 * RangeLength(maxRetries)
    ensures result == ChannelPlaylists(answers)
    ensures tried == TriedUrls(SanitizeChannelName(channelName), answers)
    ensures sleeps == Sleeps(maxRetries, retryDelay, answers)
  {
    var cleanChannel := SanitizeChannelName(channelName);
    var urlsToTry := [HandleUrl(cleanChannel), ChannelIdUrl(cleanChannel)];
    var rounds := RangeLength(maxRetries);
    tried, sleeps := [], [];
    for retry := 0 to rounds
      invariant forall j :: 0 <= j < 2 * retry ==> !Found(answers[j])
      invariant tried == AttemptUrls(cleanChannel, 2 * retry)
      invariant sleeps == Backoffs(retryDelay, if retry == rounds && rounds > 0 then rounds - 1 else retry)
    {
      var videos;
      videos, tried := TryRound(cleanChannel, urlsToTry, retry, answers, tried);
      if videos.Some? {
        SleepsBeforeSuccess(maxRetries, retryDelay, answers, retry);
        return videos, tried, sleeps;
      }
      if retry < rounds - 1 {
        sleeps := sleeps + [retryDelay * Pow2(retry)];
      }
    }
    FirstFoundAt(answers, |answers|);
    result := None;
  }

  /** A success in round `retry` comes after exactly `retry` sleeps. */
  lemma SleepsBeforeSuccess(maxRetries: int, retryDelay: int, answers: seq<Option<ChannelInfo>>, retry: nat)
    requires 2 * retry <= FirstFound(answers) < 2 * retry + 2 <= |answers|
    ensures Sleeps(maxRetries, retryDelay, answers) == Backoffs(retryDelay, retry)
  {
    assert FirstFound(answers) / 2 == retry;
  }

  /** One round: the handle URL, then the channel-id URL, returning the
      records of the first channel found. */
  method TryRound(cleanChannel: string, urlsToTry: seq<string>, retry: nat,
                  answers: seq<Option<ChannelInfo>>, tried0: seq<string>)
    returns (videos: Option<seq<VideoRecord>>, tried: seq<string>)
    requires urlsToTry == [HandleUrl(cleanChannel), ChannelIdUrl(cleanChannel)]
    requires 2 * retry + 2 <= |answers|
    requires forall j :: 0 <= j < 2 * retry ==> !Found(answers[j])
    requires tried0 == AttemptUrls(cleanChannel, 2 * retry)
    ensures videos.Some? ==>
      && 2 * retry <= FirstFound(answers) < 2 * retry + 2
      && videos == ChannelPlaylists(answers)
      && tried == AttemptUrls(cleanChannel, FirstFound(answers) + 1)
    ensures videos.None? ==>
      && (forall j :: 0 <= j < 2 * retry + 2 ==> !Found(answers[j]))
      && tried == AttemptUrls(cleanChannel, 2 * retry + 2)
  {
    tried := tried0;
    for u := 0 to |urlsToTry|
      invariant forall j :: 0 <= j < 2 * retry + u ==> !Found(answers[j])
      invariant tried == AttemptUrls(cleanChannel, 2 * retry + u)
    {
      var k := 2 * retry + u;
      RoundUrl(cleanChannel, retry, u);
      tried := tried + [urlsToTry[u]];
      var channelInfo := answers[k];
      if Found(channelInfo) {
        FirstFoundAt(answers, k);
        var records := ProcessChannelVideos(channelInfo.value);
        assert Some(records) == ChannelPlaylists(answers);
        return Some(records), tried;
      }
      assert !Found(answers[k]);
    }
    videos := None;
  }

  /** Every attempt before the first success failed. */
  lemma {:induction false} FirstFoundIsFirst(answers: seq<Option<ChannelInfo>>, j: nat)
    requires j < FirstFound(answers)
    ensures !Found(answers[j])
  {
    if j > 0 {
      FirstFoundIsFirst(answers[1..], j - 1);
    }
  }

  /** The first success is the one every earlier attempt failed before. */
  lemma {:induction false} FirstFoundAt(answers: seq<Option<ChannelInfo>>, k: nat)
    requires k <= |answers| && (k < |answers| ==> Found(answers[k]))
    requires forall j :: 0 <= j < k ==> !Found(answers[j])
    ensures FirstFound(answers) == k
  {
    if k > 0 {
      FirstFoundAt(answers[1..], k - 1);
    }
  }

  /** The `u`-th URL of round `retry` is attempt `2 * retry + u`. */
  lemma RoundUrl(clean: string, retry: nat, u: nat)
    requires u < 2
    ensures AttemptUrls(clean, 2 * retry + u + 1)
      == AttemptUrls(clean, 2 * retry + u) + [[HandleUrl(clean), ChannelIdUrl(clean)][u]]
  {
    assert (2 * retry + u) % 2 == u;
  }

  /** At most `max_retries` rounds of two attempts, and with the defaults
      a channel that is never found costs six attempts and sleeps of 5 and
      10 seconds. */
  lemma DefaultSchedule(clean: string, answers: seq<Option<ChannelInfo>>)
    requires |answers| == 2 * RangeLength(DefaultMaxRetries)
    requires forall k :: 0 <= k < |answers| ==> !Found(answers[k])
    ensures ChannelPlaylists(answers) == None
    ensures |TriedUrls(clean, answers)| == 6
    ensures Sleeps(DefaultMaxRetries, DefaultRetryDelay, answers) == [5, 10]
  {
    FirstFoundAt(answers, |answers|);
    assert Pow2(1) == 2;
  }

  // ------------------------------------------------------------------
  // process_channels
  // ------------------------------------------------------------------

  /** An interim save: the file `youtube_playlists_<count>.csv` holding all
      records gathered so far. */
  datatype Save = Save(count: nat, videos: seq<VideoRecord>)

  datatype Driver = Driver(processed: set<string>, allVideos: seq<VideoRecord>, successCount: nat,
                           calls: seq<string>, interim: seq<Save>)

  /** `if videos:` — None and the empty list are both false. */
  predicate NonEmpty(videos: Option<seq<VideoRecord>>) {
    videos.Some? && videos.value != []
  }

  const SaveEvery: nat := 10

  /** One channel of `process_channels`: skipped when processed; otherwise
      looked up, and on a non-empty result recorded, counted and marked
      processed, with an interim save at every tenth success. */
  function DriverStep(d: Driver, channel: string, videos: Option<seq<VideoRecord>>): Driver {
    if channel in d.processed then d
    else if NonEmpty(videos) then
      var all := d.allVideos + videos.value;
      var count := d.successCount + 1;
      Driver(d.processed + {channel}, all, count, d.calls + [channel],
             if count % SaveEvery == 0 then d.interim + [Save(count, all)] else d.interim)
    else d.(calls := d.calls + [channel])
  }

  /** The driver over `channels`, `answers[i]` answering the lookup of
      `channels[i]` should it happen. */
  function DriverRun(channels: seq<string>, answers: seq<seq<Option<ChannelInfo>>>, processed0: set<string>): Driver
    requires |answers| == |channels|
  {
    if |channels| == 0 then Driver(processed0, [], 0, [], [])
    else
      var n := |channels| - 1;
      DriverStep(DriverRun(channels[..n], answers[..n], processed0), channels[n], ChannelPlaylists(answers[n]))
  }

  /** The processed set only grows, by one new channel per success; so the
      success counter is the number of newly processed channels and a
      channel is never looked up once processed. */
  lemma {:induction false} DriverCounts(channels: seq<string>, answers: seq<seq<Option<ChannelInfo>>>, processed0: set<string>)
    requires |answers| == |channels|
    ensures var d := DriverRun(channels, answers, processed0);
      && processed0 <= d.processed
      && |d.processed| == |processed0| + d.successCount
      && (forall c :: c in d.calls ==> c !in processed0)
  {
    if |channels| > 0 {
      var n := |channels| - 1;
      DriverCounts(channels[..n], answers[..n], processed0);
    }
  }

  /** The processed set keeps growing during the run: after the first
      `k` channels, the rest of the run keeps the lookups made so far and
      looks up no channel that was processed by then, whether in an
      earlier run or earlier in this one. */
  lemma {:induction false} DriverNoRepeatAfter(channels: seq<string>, answers: seq<seq<Option<ChannelInfo>>>,
                                               processed0: set<string>, k: int)
    requires |answers| == |channels| && 0 <= k <= |channels|
    ensures var d0 := DriverRun(channels[..k], answers[..k], processed0);
      var d := DriverRun(channels, answers, processed0);
      && d0.processed <= d.processed
      && |d0.calls| <= |d.calls|
      && d.calls[..|d0.calls|] == d0.calls
      && (forall i :: |d0.calls| <= i < |d.calls| ==> d.calls[i] !in d0.processed)
  {
    if |channels| == k {
      assert channels[..k] == channels && answers[..k] == answers;
    } else {
      var n := |channels| - 1;
      DriverNoRepeatAfter(channels[..n], answers[..n], processed0, k);
      assert channels[..n][..k] == channels[..k] && answers[..n][..k] == answers[..k];
      var d0 := DriverRun(channels[..k], answers[..k], processed0);
      var prev := DriverRun(channels[..n], answers[..n], processed0);
      DriverStepNoRepeat(d0, prev, channels[n], ChannelPlaylists(answers[n]));
    }
  }

  /** One step keeps what `DriverNoRepeatAfter` states of an earlier
      state `d0`. */
  lemma DriverStepNoRepeat(d0: Driver, d: Driver, channel: string, videos: Option<seq<VideoRecord>>)
    requires d0.processed <= d.processed && |d0.calls| <= |d.calls| && d.calls[..|d0.calls|] == d0.calls
    requires forall i :: |d0.calls| <= i < |d.calls| ==> d.calls[i] !in d0.processed
    ensures var next := DriverStep(d, channel, videos);
      && d0.processed <= next.processed
      && |d0.calls| <= |next.calls|
      && next.calls[..|d0.calls|] == d0.calls
      && (forall i :: |d0.calls| <= i < |next.calls| ==> next.calls[i] !in d0.processed)
  {
    var m := |d0.calls|;
    var next := DriverStep(d, channel, videos);
    if channel !in d.processed {
      assert next.calls == d.calls + [channel];
      assert next.calls[..m] == d.calls[..m];
    }
  }

  /** Interim files are written exactly at 10, 20, 30, ... successes, one
      per multiple of ten reached. */
  lemma {:induction false} DriverSaves(channels: seq<string>, answers: seq<seq<Option<ChannelInfo>>>, processed0: set<string>)
    requires |answers| == |channels|
    ensures var d := DriverRun(channels, answers, processed0);
      && |d.interim| == d.successCount / SaveEvery
      && forall i :: 0 <= i < |d.interim| ==> d.interim[i].count == SaveEvery * (i + 1)
  {
    if |channels| > 0 {
      var n := |channels| - 1;
      DriverSaves(channels[..n], answers[..n], processed0);
    }
  }

  /** The lookup of the `j`-th channel gives a non-empty result. */
  predicate Succeeds(answers: seq<seq<Option<ChannelInfo>>>, j: int)
    requires 0 <= j < |answers|
  {
    NonEmpty(ChannelPlaylists(answers[j]))
  }

  /** The channels whose lookup gives a non-empty result. */
  function SucceededNames(channels: seq<string>, answers: seq<seq<Option<ChannelInfo>>>): set<string>
    requires |answers| == |channels|
  {
    set j | 0 <= j < |channels| && Succeeds(answers, j) :: channels[j]
  }

  /** The `i`-th channel is looked up: it was not processed in an earlier
      run, and no earlier occurrence of it succeeded in this one. */
  predicate LookedUp(channels: seq<string>, answers: seq<seq<Option<ChannelInfo>>>, processed0: set<string>, i: int)
    requires |answers| == |channels| && 0 <= i < |channels|
  {
    channels[i] !in processed0 && channels[i] !in SucceededNames(channels[..i], answers[..i])
  }

  /** The channels looked up, in list order. */
  function Lookups(channels: seq<string>, answers: seq<seq<Option<ChannelInfo>>>, processed0: set<string>): seq<string>
    requires |answers| == |channels|
  {
    if |channels| == 0 then []
    else
      var n := |channels| - 1;
      Lookups(channels[..n], answers[..n], processed0)
        + (if LookedUp(channels, answers, processed0, n) then [channels[n]] else [])
  }

  /** The records of every looked-up channel that succeeded, in list
      order. */
  function Gathered(channels: seq<string>, answers: seq<seq<Option<ChannelInfo>>>, processed0: set<string>): seq<VideoRecord>
    requires |answers| == |channels|
  {
    if |channels| == 0 then []
    else
      var n := |channels| - 1;
      Gathered(channels[..n], answers[..n], processed0)
        + (if LookedUp(channels, answers, processed0, n) && Succeeds(answers, n) then ChannelPlaylists(answers[n]).value else [])
  }

  lemma SucceededNamesSnoc(channels: seq<string>, answers: seq<seq<Option<ChannelInfo>>>)
    requires |answers| == |channels| > 0
    ensures var n := |channels| - 1;
      SucceededNames(channels, answers)
        == SucceededNames(channels[..n], answers[..n]) + (if Succeeds(answers, n) then {channels[n]} else {})
  {
    var n := |channels| - 1;
    var prefix := SucceededNames(channels[..n], answers[..n]);
    forall x | x in SucceededNames(channels, answers)
      ensures x in prefix + (if Succeeds(answers, n) then {channels[n]} else {})
    {
      var j :| 0 <= j < |channels| && Succeeds(answers, j) && channels[j] == x;
      if j < n {
        assert channels[..n][j] == x && answers[..n][j] == answers[j];
      }
    }
    forall x | x in prefix
      ensures x in SucceededNames(channels, answers)
    {
      var j :| 0 <= j < n && Succeeds(answers[..n], j) && channels[..n][j] == x;
      assert answers[..n][j] == answers[j];
    }
  }

  /** A channel is marked processed exactly when it was processed in an
      earlier run or its lookup succeeded: failures are never recorded, and
      every success is. */
  lemma {:induction false} DriverProcessed(channels: seq<string>, answers: seq<seq<Option<ChannelInfo>>>, processed0: set<string>)
    requires |answers| == |channels|
    ensures DriverRun(channels, answers, processed0).processed == processed0 + SucceededNames(channels, answers)
  {
    if |channels| > 0 {
      var n := |channels| - 1;
      DriverProcessed(channels[..n], answers[..n], processed0);
      SucceededNamesSnoc(channels, answers);
    }
  }

  /** `success_count` is the number of channels, not processed in an
      earlier run, whose lookup gave a non-empty result. */
  lemma DriverSuccessCount(channels: seq<string>, answers: seq<seq<Option<ChannelInfo>>>, processed0: set<string>)
    requires |answers| == |channels|
    ensures DriverRun(channels, answers, processed0).successCount == |SucceededNames(channels, answers) - processed0|
  {
    var succeeded := SucceededNames(channels, answers);
    DriverCounts(channels, answers, processed0);
    DriverProcessed(channels, answers, processed0);
    assert processed0 + succeeded == processed0 + (succeeded - processed0);
    assert processed0 * (succeeded - processed0) == {};
  }

  /** The driver looks up exactly the channels `LookedUp` names, and
      `all_videos` is their non-empty results concatenated in list order. */
  lemma {:induction false} DriverGathers(channels: seq<string>, answers: seq<seq<Option<ChannelInfo>>>, processed0: set<string>)
    requires |answers| == |channels|
    ensures var d := DriverRun(channels, answers, processed0);
      d.calls == Lookups(channels, answers, processed0) && d.allVideos == Gathered(channels, answers, processed0)
  {
    if |channels| > 0 {
      var n := |channels| - 1;
      DriverGathers(channels[..n], answers[..n], processed0);
      DriverProcessed(channels[..n], answers[..n], processed0);
    }
  }

  /** The lookups follow the channel list. */
  lemma {:induction false} LookupsInOrder(channels: seq<string>, answers: seq<seq<Option<ChannelInfo>>>, processed0: set<string>)
    requires |answers| == |channels|
    ensures IsSubsequence(Lookups(channels, answers, processed0), channels)
  {
    if |channels| > 0 {
      var n := |channels| - 1;
      var prev := Lookups(channels[..n], answers[..n], processed0);
      LookupsInOrder(channels[..n], answers[..n], processed0);
      SubsequenceSnoc(prev, channels[..n], channels[n]);
      assert channels[..n] + [channels[n]] == channels;
      if LookedUp(channels, answers, processed0, n) {
        assert Lookups(channels, answers, processed0) == prev + [channels[n]];
      } else {
        assert Lookups(channels, answers, processed0) == prev;
      }
    }
  }

  lemma DriverRunSnoc(channels: seq<string>, answers: seq<seq<Option<ChannelInfo>>>, processed0: set<string>, i: int)
    requires |answers| == |channels| && 0 <= i < |channels|
    ensures DriverRun(channels[..i + 1], answers[..i + 1], processed0)
      == DriverStep(DriverRun(channels[..i], answers[..i], processed0), channels[i], ChannelPlaylists(answers[i]))
  {
    assert channels[..i + 1][..i] == channels[..i] && answers[..i + 1][..i] == answers[..i];
  }

  /** `process_channels`, given the channels already processed in earlier
      runs and one answer sequence per channel (the lookups use the
      default three rounds). Returns the driver state and the final file,
      written only when some record was gathered. */
  method ProcessChannels(channelList: seq<string>, processed0: set<string>,
                         answers: seq<seq<Option<ChannelInfo>>>)
    returns (processed: set<string>, allVideos: seq<VideoRecord>, successCount: nat,
             calls: seq<string>, interim: seq<Save>, final: Option<seq<VideoRecord>>)
    requires |answers| == |channelList|
    requires forall i :: 0 <= i < |answers| ==> |answers[i]| == 2 * RangeLength(DefaultMaxRetries)
    ensures Driver(processed, allVideos, successCount, calls, interim) == DriverRun(channelList, answers, processed0)
    ensures final == if allVideos != [] then Some(allVideos) else None
  {
    processed, allVideos, successCount, calls, interim := processed0, [], 0, [], [];
    for i := 0 to |channelList|
      invariant Driver(processed, allVideos, successCount, calls, interim)
        == DriverRun(channelList[..i], answers[..i], processed0)
    {
      DriverRunSnoc(channelList, answers, processed0, i);
      var channel := channelList[i];
      if channel in processed {
        continue;
      }
      calls := calls + [channel];
      var videos, _, _ := GetChannelPlaylists(channel, DefaultMaxRetries, DefaultRetryDelay, answers[i]);
      assert NonEmpty(videos) <==> videos.Some? && videos.value != [];
      if videos.Some? && videos.value != [] {
        allVideos := allVideos + videos.value;
        successCount := successCount + 1;
        processed := processed + {channel};
        if successCount % SaveEvery == 0 {
          interim := interim + [Save(successCount, allVideos)];
        }
      }
    }
    assert channelList[..|channelList|] == channelList && answers[..|answers|] == answers;
    final := if allVideos != [] then Some(allVideos) else None;
  }
}
