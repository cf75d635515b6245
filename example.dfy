/** example.py: the channel filters applied to the dataset at load time,
    its own `get_video_ids_from_playlist`, `get_transcripts`,
    `append_to_csv` and the top-level loop that fetches transcripts and
    resumes after the last processed video id. */
module Example {
  import opened Common
  import opened Text
  import opened Csv
  import opened Remote
  import Init

  // ------------------------------------------------------------------
  // The channel filters
  // ------------------------------------------------------------------

  /** One row of the channel dataset. */
  datatype ChannelRow = ChannelRow(name: string, totalVideos: int)

  const TopCount: nat := 50
  /** Top channels with more videos than this are removed by name. */
  const HugeChannel: int := 100000
  const MaxVideos: int := 10000
  const Keywords: seq<string> := ["india", "hindi", "telugu", "tamil", "malayalam"]

  /** In `df.nlargest(50, 'total_videos')` (ties kept by first occurrence),
      row `j` comes before row `i`: more videos, or as many and earlier. */
  predicate RanksBefore(rows: seq<ChannelRow>, j: int, i: int)
    requires 0 <= j < |rows| && 0 <= i < |rows|
  {
    rows[j].totalVideos > rows[i].totalVideos || (rows[j].totalVideos == rows[i].totalVideos && j < i)
  }

  /** How many of the first `n` rows come before row `i`. */
  function CountBefore(rows: seq<ChannelRow>, i: int, n: int): nat
    requires 0 <= i < |rows| && 0 <= n <= |rows|
  {
    if n == 0 then 0
    else CountBefore(rows, i, n - 1) + (if RanksBefore(rows, n - 1, i) then 1 else 0)
  }

  /** Row `i` is one of the 50 rows `nlargest` selects. */
  predicate InTop(rows: seq<ChannelRow>, i: int)
    requires 0 <= i < |rows|
  {
    CountBefore(rows, i, |rows|) < TopCount
  }

  /** A row ranked before another is ranked before by fewer rows. */
  lemma {:induction false} CountBeforeMonotone(rows: seq<ChannelRow>, j: int, i: int, n: int)
    requires 0 <= j < |rows| && 0 <= i < |rows| && 0 <= n <= |rows|
    requires RanksBefore(rows, j, i)
    ensures CountBefore(rows, j, n) + (if j < n then 1 else 0) <= CountBefore(rows, i, n)
  {
    if n > 0 {
      CountBeforeMonotone(rows, j, i, n - 1);
    }
  }

  /** `nlargest` keeps the largest counts: a selected row has at least as
      many videos as any row left out, and on a tie the selected row is
      the earlier one. */
  lemma TopKeepsLargest(rows: seq<ChannelRow>, i: int, j: int)
    requires 0 <= i < |rows| && 0 <= j < |rows|
    requires InTop(rows, i) && !InTop(rows, j)
    ensures rows[j].totalVideos <= rows[i].totalVideos
    ensures rows[j].totalVideos == rows[i].totalVideos ==> i < j
  {
    if RanksBefore(rows, j, i) {
      CountBeforeMonotone(rows, j, i, |rows|);
      assert false;
    }
  }

  /** No row comes before itself, so row `i` is preceded by fewer than
      the first `n` rows when it is among them. */
  lemma {:induction false} CountBeforeBound(rows: seq<ChannelRow>, i: int, n: int)
    requires 0 <= i < |rows| && 0 <= n <= |rows|
    ensures CountBefore(rows, i, n) + (if i < n then 1 else 0) <= n
  {
    if n > 0 {
      CountBeforeBound(rows, i, n - 1);
    }
  }

  /** Two different rows have different ranks: `nlargest` orders the rows
      totally. */
  lemma RankInjective(rows: seq<ChannelRow>, i: int, j: int)
    requires 0 <= i < |rows| && 0 <= j < |rows| && i != j
    ensures CountBefore(rows, i, |rows|) != CountBefore(rows, j, |rows|)
  {
    if RanksBefore(rows, j, i) {
      CountBeforeMonotone(rows, j, i, |rows|);
    } else {
      CountBeforeMonotone(rows, i, j, |rows|);
    }
  }

  /** The ranks of the rows indexed by `a`. */
  function Ranks(rows: seq<ChannelRow>, a: set<int>): set<int> {
    set i | i in a && 0 <= i < |rows| :: CountBefore(rows, i, |rows|)
  }

  lemma {:induction false} RanksSize(rows: seq<ChannelRow>, a: set<int>)
    requires a <= Below(|rows|)
    ensures |Ranks(rows, a)| == |a|
    decreases |a|
  {
    if |a| != 0 {
      assert exists x :: x in a;
      var x :| x in a;
      var a' := a - {x};
      RanksSize(rows, a');
      forall i | i in a'
        ensures CountBefore(rows, i, |rows|) != CountBefore(rows, x, |rows|)
      {
        RankInjective(rows, i, x);
      }
      assert Ranks(rows, a) == Ranks(rows, a') + {CountBefore(rows, x, |rows|)};
    }
  }

  /** The ranks `0 .. m - 1`. */
  function Below(m: nat): (r: set<int>)
    ensures forall k :: k in r <==> 0 <= k < m
    ensures |r| == m
  {
    if m == 0 then {} else Below(m - 1) + {m - 1}
  }

  /** Every rank below the number of rows is taken by some row. */
  lemma RanksCover(rows: seq<ChannelRow>)
    ensures Below(|rows|) <= Ranks(rows, Below(|rows|))
  {
    var n := |rows|;
    var all := Below(n);
    var image := Ranks(rows, all);
    RanksSize(rows, all);
    forall i | 0 <= i < n
      ensures CountBefore(rows, i, n) in Below(n)
    {
      CountBeforeBound(rows, i, n);
    }
    assert image <= all;
    assert |all - image| == 0;
  }

  lemma RankOwner(rows: seq<ChannelRow>, k: int)
    requires 0 <= k < |rows|
    ensures exists i :: 0 <= i < |rows| && CountBefore(rows, i, |rows|) == k
  {
    RanksCover(rows);
    assert k in Below(|rows|);
    assert k in Ranks(rows, Below(|rows|));
  }

  /** The indices of the rows `nlargest(50)` selects. */
  function TopRows(rows: seq<ChannelRow>): (r: set<int>)
    ensures forall i :: i in r <==> 0 <= i < |rows| && InTop(rows, i)
  {
    set i | 0 <= i < |rows| && InTop(rows, i)
  }

  /** Each rank below 50 (and below the number of rows) belongs to a
      selected row. */
  lemma TopRankTaken(rows: seq<ChannelRow>, k: int)
    requires 0 <= k < |rows| && k < TopCount
    ensures k in Ranks(rows, TopRows(rows))
  {
    RankOwner(rows, k);
    var i :| 0 <= i < |rows| && CountBefore(rows, i, |rows|) == k;
    assert i in TopRows(rows);
  }

  /** A selected row's rank is below 50 and below the number of rows. */
  lemma TopRankBelow(rows: seq<ChannelRow>, i: int)
    requires i in TopRows(rows)
    ensures CountBefore(rows, i, |rows|) in Below(if |rows| < TopCount then |rows| else TopCount)
  {
    CountBeforeBound(rows, i, |rows|);
  }

  /** The ranks of the selected rows are exactly those below 50 and below
      the number of rows. */
  lemma TopRanks(rows: seq<ChannelRow>)
    ensures Ranks(rows, TopRows(rows)) == Below(if |rows| < TopCount then |rows| else TopCount)
  {
    var m := if |rows| < TopCount then |rows| else TopCount;
    forall k | k in Below(m)
      ensures k in Ranks(rows, TopRows(rows))
    {
      TopRankTaken(rows, k);
    }
    forall i | i in TopRows(rows)
      ensures CountBefore(rows, i, |rows|) in Below(m)
    {
      TopRankBelow(rows, i);
    }
  }

  /** `nlargest(50)` selects exactly 50 rows, or every row of a smaller
      dataset. */
  lemma TopSelectsFifty(rows: seq<ChannelRow>)
    ensures |TopRows(rows)| == if |rows| < TopCount then |rows| else TopCount
  {
    RanksSize(rows, TopRows(rows));
    TopRanks(rows);
  }

  /** `channels_to_remove['channel_name']`: names of top-50 rows with more
      than 100000 videos. */
  function RemovedNames(rows: seq<ChannelRow>): set<string> {
    set i | 0 <= i < |rows| && InTop(rows, i) && rows[i].totalVideos > HugeChannel :: rows[i].name
  }

  /** `str.lower().str.contains('india|hindi|telugu|tamil|malayalam')`. */
  predicate MentionsKeyword(name: string) {
    exists k :: k in Keywords && Contains(Lower(name), k)
  }

  /** `df[~df['channel_name'].isin(channels_to_remove['channel_name'])]`. */
  function DropHugeTop(rows: seq<ChannelRow>, removed: set<string>): seq<ChannelRow> {
    Filter(rows, (r: ChannelRow) => r.name !in removed)
  }

  function DropKeywords(rows: seq<ChannelRow>): seq<ChannelRow> {
    Filter(rows, (r: ChannelRow) => !MentionsKeyword(r.name))
  }

  function DropOverMax(rows: seq<ChannelRow>): seq<ChannelRow> {
    Filter(rows, (r: ChannelRow) => r.totalVideos <= MaxVideos)
  }

  function DropEmpty(rows: seq<ChannelRow>): seq<ChannelRow> {
    Filter(rows, (r: ChannelRow) => r.totalVideos > 0)
  }

  /** The dataset after the four filters, in the script's order. */
  function FilterChannels(rows: seq<ChannelRow>): seq<ChannelRow> {
    DropEmpty(DropOverMax(DropKeywords(DropHugeTop(rows, RemovedNames(rows)))))
  }

  /** The four filters' conditions on one row: its name is not that of a
      huge top-50 channel, its lower-cased name mentions no keyword and it
      has between 1 and 10000 videos. */
  predicate Kept(removed: set<string>, r: ChannelRow) {
    && r.name !in removed
    && !MentionsKeyword(r.name)
    && 0 < r.totalVideos <= MaxVideos
  }

  /** A row survives exactly when it meets the four conditions; the
      survivors keep their original order. */
  lemma FilterChannelsSpec(rows: seq<ChannelRow>)
    ensures forall r :: r in FilterChannels(rows) <==> r in rows && Kept(RemovedNames(rows), r)
    ensures IsSubsequence(FilterChannels(rows), rows)
  {
    var a := DropHugeTop(rows, RemovedNames(rows));
    var b := DropKeywords(a);
    var c := DropOverMax(b);
    SubsequenceTransitive(b, a, rows);
    SubsequenceTransitive(c, b, rows);
    SubsequenceTransitive(DropEmpty(c), c, rows);
  }

  /** A surviving row occurs as many times as in the dataset: the filters
      drop rows, never duplicates of a kept one. */
  lemma FilterChannelsCounts(rows: seq<ChannelRow>, r: ChannelRow)
    ensures multiset(FilterChannels(rows))[r] == if Kept(RemovedNames(rows), r) then multiset(rows)[r] else 0
  {
    var a := DropHugeTop(rows, RemovedNames(rows));
    var b := DropKeywords(a);
    var c := DropOverMax(b);
    FilterCounts(rows, (r: ChannelRow) => r.name !in RemovedNames(rows), r);
    FilterCounts(a, (r: ChannelRow) => !MentionsKeyword(r.name), r);
    FilterCounts(b, (r: ChannelRow) => r.totalVideos <= MaxVideos, r);
    FilterCounts(c, (r: ChannelRow) => r.totalVideos > 0, r);
  }

  /** A row sharing its name with a huge top-50 channel is dropped, however
      few videos it has itself. */
  lemma DroppedByName(rows: seq<ChannelRow>, i: int, r: ChannelRow)
    requires 0 <= i < |rows| && InTop(rows, i) && rows[i].totalVideos > HugeChannel
    requires r.name == rows[i].name
    ensures r !in FilterChannels(rows)
  {
    FilterChannelsSpec(rows);
    assert rows[i].name in RemovedNames(rows);
  }

  // ------------------------------------------------------------------
  // get_video_ids_from_playlist (example.py)
  // ------------------------------------------------------------------

  /** Here the loop stops at a response that raised, lacks `items` (a
      `KeyError`), holds an item without a video id (the comprehension
      raises) or has no truthy `nextPageToken`. An empty page does not
      stop it. */
  predicate PageStops(r: Response) {
    r.Raised? || r.items.None? || !WellFormed(r.items.value) || !Truthy(r.nextPageToken)
  }

  /** What `video_ids.extend(...)` adds for one response: all of its ids,
      or nothing when building the list raised. */
  function PageIds(r: Response): (ids: seq<string>)
    ensures r.Page? && r.items.Some? && WellFormed(r.items.value) ==> |ids| == |r.items.value|
    ensures !(r.Page? && r.items.Some? && WellFormed(r.items.value)) ==> ids == []
  {
    if r.Page? && r.items.Some? && WellFormed(r.items.value) then IdsBeforeMalformed(r.items.value) else []
  }

  function CollectPages(pages: seq<Response>): seq<string>
  {
    if |pages| == 0 then []
    else if PageStops(pages[0]) then PageIds(pages[0])
    else PageIds(pages[0]) + CollectPages(pages[1..])
  }

  /** The gathered ids are a prefix of everything the responses list: a
      page is either taken whole or ends the listing. */
  lemma {:induction false} CollectPagesIsPrefix(pages: seq<Response>)
    ensures |CollectPages(pages)| <= |Init.ListedIds(pages)|
    ensures CollectPages(pages) == Init.ListedIds(pages)[..|CollectPages(pages)|]
  {
    if |pages| > 0 {
      CollectPagesIsPrefix(pages[1..]);
      var r := pages[0];
      if r.Page? && r.items.Some? && !WellFormed(r.items.value) {
        assert PageIds(r) == [];
      }
    }
  }

  /** On responses that are each either a raise or a non-empty, well-formed
      page, this version and the one in init.py gather the same ids. */
  lemma {:induction false} SameAsInit(pages: seq<Response>)
    requires forall k :: 0 <= k < |pages| ==>
      pages[k].Raised? || (pages[k].items.Some? && pages[k].items.value != [] && WellFormed(pages[k].items.value))
    ensures CollectPages(pages) == Init.CollectIds(pages)
  {
    if |pages| > 0 {
      SameAsInit(pages[1..]);
      assert PageStops(pages[0]) == Init.StopsAt(pages[0]);
    }
  }

  /** `get_video_ids_from_playlist` (example.py); `pages[k]` answers the
      `k`-th request, and a listing that would go on past the supplied
      answers is cut where they end. */
  method GetVideoIdsFromPlaylist(pages: seq<Response>) returns (videoIds: seq<string>)
    ensures videoIds == CollectPages(pages)
  {
    videoIds := [];
    var k := 0;
    while k < |pages|
      invariant 0 <= k <= |pages|
      invariant videoIds + CollectPages(pages[k..]) == CollectPages(pages)
    {
      CollectPagesAt(pages, k);
      var response := pages[k];
      if response.Raised? || response.items.None? {
        assert CollectPages(pages[k..]) == [];
        return;
      }
      var items := response.items.value;
      if !WellFormed(items) {
        assert CollectPages(pages[k..]) == [];
        return;
      }
      if !Truthy(response.nextPageToken) {
        assert CollectPages(pages[k..]) == IdsBeforeMalformed(items);
        videoIds := videoIds + IdsBeforeMalformed(items);
        return;
      }
      ConcatAssociative(videoIds, IdsBeforeMalformed(items), CollectPages(pages[k + 1..]));
      videoIds := videoIds + IdsBeforeMalformed(items);
      k := k + 1;
    }
    assert pages[k..] == [];
  }

  lemma CollectPagesAt(pages: seq<Response>, k: int)
    requires 0 <= k < |pages|
    ensures PageStops(pages[k]) ==> CollectPages(pages[k..]) == PageIds(pages[k])
    ensures !PageStops(pages[k]) ==> CollectPages(pages[k..]) == PageIds(pages[k]) + CollectPages(pages[k + 1..])
  {
    assert pages[k..][0] == pages[k];
    assert pages[k..][1..] == pages[k + 1..];
  }

  // ------------------------------------------------------------------
  // get_transcripts
  // ------------------------------------------------------------------

  /** The dictionary `get_transcripts` builds: `fetched[i]` is what the
      transcript service returns for `ids[i]` (None when it raised). */
  function Transcripts(ids: seq<string>, fetched: seq<Option<seq<string>>>): map<string, string>
    requires |fetched| == |ids|
  {
    if |ids| == 0 then map[]
    else
      var n := |ids| - 1;
      var m := Transcripts(ids[..n], fetched[..n]);
      if fetched[n].Some? then m[ids[n] := Join(fetched[n].value)] else m
  }

  /** The keys are exactly the ids whose fetch succeeded at least once. */
  lemma {:induction false} TranscriptsKeys(ids: seq<string>, fetched: seq<Option<seq<string>>>)
    requires |fetched| == |ids|
    ensures forall v :: v in Transcripts(ids, fetched) <==>
      exists i :: 0 <= i < |ids| && ids[i] == v && fetched[i].Some?
  {
    if |ids| > 0 {
      var n := |ids| - 1;
      TranscriptsKeys(ids[..n], fetched[..n]);
      forall v | exists i :: 0 <= i < |ids| && ids[i] == v && fetched[i].Some?
        ensures v in Transcripts(ids, fetched)
      {
        var i :| 0 <= i < |ids| && ids[i] == v && fetched[i].Some?;
        if i < n {
          assert ids[..n][i] == v && fetched[..n][i].Some?;
        }
      }
    }
  }

  /** An id fetched successfully and not again later maps to the joined
      text of that fetch: a later success overwrites an earlier one. */
  lemma {:induction false} TranscriptsLastWins(ids: seq<string>, fetched: seq<Option<seq<string>>>, i: int)
    requires |fetched| == |ids|
    requires 0 <= i < |ids| && fetched[i].Some?
    requires forall j :: i < j < |ids| && ids[j] == ids[i] ==> fetched[j].None?
    ensures ids[i] in Transcripts(ids, fetched)
    ensures Transcripts(ids, fetched)[ids[i]] == Join(fetched[i].value)
  {
    var n := |ids| - 1;
    if i < n {
      TranscriptsLastWins(ids[..n], fetched[..n], i);
    }
  }

  /** `get_transcripts`. */
  method GetTranscripts(ids: seq<string>, fetched: seq<Option<seq<string>>>) returns (transcripts: map<string, string>)
    requires |fetched| == |ids|
    ensures transcripts == Transcripts(ids, fetched)
  {
    transcripts := map[];
    for i := 0 to |ids|
      invariant transcripts == Transcripts(ids[..i], fetched[..i])
    {
      assert ids[..i + 1][..i] == ids[..i] && fetched[..i + 1][..i] == fetched[..i];
      match fetched[i] {
        case Some(texts) =>
          transcripts := transcripts[ids[i] := Join(texts)];
        case None =>
      }
    }
    assert ids[..|ids|] == ids && fetched[..|fetched|] == fetched;
  }

  // ------------------------------------------------------------------
  // append_to_csv and the resume loop
  // ------------------------------------------------------------------

  /** One line of the transcript CSV. */
  datatype TranscriptRow = TranscriptRow(channelName: string, channelIdentifier: string,
                                         playlistId: string, videoId: string, transcript: string)

  const TranscriptHeader: seq<string> := ["Channel Name", "Channel Identifier", "Playlist ID", "Video ID", "Transcript"]

  /** `append_to_csv([row], output_path)`: the header only for a new file. */
  function AppendToCsv(file: Option<Table<TranscriptRow>>, row: TranscriptRow): (r: Table<TranscriptRow>)
    ensures r.header == if file.Some? then file.value.header else TranscriptHeader
    ensures r.rows == RowsOf(file) + [row]
  {
    AppendRows(file, TranscriptHeader, [row])
  }

  /** What the remote services answer while one channel is processed: the
      uploads playlist id, the playlist pages, and the transcript fetch
      for each listed video in order (None when it raised). */
  datatype ChannelAnswers = ChannelAnswers(playlistId: Option<string>, pages: seq<Response>,
                                           fetched: seq<Option<seq<string>>>)

  /** The answers fit together: when the channel is processed at all,
      there is one fetch answer per listed video. */
  predicate Consistent(a: ChannelAnswers) {
    Truthy(a.playlistId) ==> |a.fetched| == |CollectPages(a.pages)|
  }

  /** The run's state: `last_processed_video_id` and the rows appended. */
  datatype Progress = Progress(last: Option<string>, appended: seq<TranscriptRow>)

  /** `if last_processed_video_id and video_id <= last_processed_video_id`. */
  predicate Skips(last: Option<string>, videoId: string) {
    Truthy(last) && LexLe(videoId, last.value)
  }

  /** One video: skipped, appended (moving the last id forward) or, when
      the fetch raised, left out with the last id unchanged. */
  function VideoStep(st: Progress, channel: string, playlistId: string, videoId: string,
                     fetched: Option<seq<string>>): Progress {
    if Skips(st.last, videoId) then st
    else if fetched.Some? then
      Progress(Some(videoId), st.appended + [TranscriptRow(channel, channel, playlistId, videoId, Join(fetched.value))])
    else st
  }

  function VideosRun(st: Progress, channel: string, playlistId: string, ids: seq<string>,
                     fetched: seq<Option<seq<string>>>): Progress
    requires |fetched| == |ids|
  {
    if |ids| == 0 then st
    else
      var n := |ids| - 1;
      VideoStep(VideosRun(st, channel, playlistId, ids[..n], fetched[..n]), channel, playlistId, ids[n], fetched[n])
  }

  /** One channel: nothing at all unless its playlist id is truthy. */
  function ChannelRun(st: Progress, channel: string, a: ChannelAnswers): Progress
    requires Consistent(a)
  {
    if !Truthy(a.playlistId) then st
    else VideosRun(st, channel, a.playlistId.value, CollectPages(a.pages), a.fetched)
  }

  function Run(channels: seq<string>, answers: seq<ChannelAnswers>): Progress
    requires |answers| == |channels|
    requires forall c :: 0 <= c < |answers| ==> Consistent(answers[c])
  {
    if |channels| == 0 then Progress(None, [])
    else
      var n := |channels| - 1;
      ChannelRun(Run(channels[..n], answers[..n]), channels[n], answers[n])
  }

  function VideoIds(rows: seq<TranscriptRow>): (r: seq<string>)
    ensures |r| == |rows|
    ensures forall i :: 0 <= i < |rows| ==> r[i] == rows[i].videoId
  {
    if |rows| == 0 then [] else VideoIds(rows[..|rows| - 1]) + [rows[|rows| - 1].videoId]
  }

  /** What the run keeps true: the last id is that of the last appended
      row (None before any), appended ids are non-empty and strictly
      increasing, and every row names a truthy playlist and its channel
      twice. */
  predicate Invariant(st: Progress) {
    && (st.appended == [] ==> st.last == None)
    && (st.appended != [] ==> st.last == Some(st.appended[|st.appended| - 1].videoId))
    && StrictlyIncreasing(VideoIds(st.appended))
    && (forall i :: 0 <= i < |st.appended| ==>
          st.appended[i].videoId != "" && st.appended[i].playlistId != ""
          && st.appended[i].channelIdentifier == st.appended[i].channelName)
  }

  lemma VideoStepKeeps(st: Progress, channel: string, playlistId: string, videoId: string, fetched: Option<seq<string>>)
    requires Invariant(st) && videoId != "" && playlistId != ""
    ensures Invariant(VideoStep(st, channel, playlistId, videoId, fetched))
  {
    if !Skips(st.last, videoId) && fetched.Some? {
      var row := TranscriptRow(channel, channel, playlistId, videoId, Join(fetched.value));
      assert VideoIds(st.appended + [row]) == VideoIds(st.appended) + [videoId] by {
        assert (st.appended + [row])[..|st.appended|] == st.appended;
      }
      if st.appended != [] {
        LexLeTotal(videoId, st.last.value);
      }
      IncreasingSnoc(VideoIds(st.appended), videoId);
    }
  }

  lemma {:induction false} VideosRunKeeps(st: Progress, channel: string, playlistId: string, ids: seq<string>,
                                          fetched: seq<Option<seq<string>>>)
    requires |fetched| == |ids|
    requires Invariant(st) && playlistId != ""
    requires forall i :: 0 <= i < |ids| ==> ids[i] != ""
    ensures Invariant(VideosRun(st, channel, playlistId, ids, fetched))
  {
    if |ids| > 0 {
      var n := |ids| - 1;
      VideosRunKeeps(st, channel, playlistId, ids[..n], fetched[..n]);
      VideoStepKeeps(VideosRun(st, channel, playlistId, ids[..n], fetched[..n]), channel, playlistId, ids[n], fetched[n]);
    }
  }

  /** Every listed video id is non-empty (real YouTube ids are 11
      characters). */
  predicate IdsNonEmpty(a: ChannelAnswers) {
    forall i :: 0 <= i < |CollectPages(a.pages)| ==> CollectPages(a.pages)[i] != ""
  }

  /** Over the whole run: the last processed id is the id of the last
      appended row, and because it is never reset between channels the
      appended video ids are strictly increasing; every appended row came
      from a channel with a truthy playlist id. */
  lemma {:induction false} RunKeeps(channels: seq<string>, answers: seq<ChannelAnswers>)
    requires |answers| == |channels|
    requires forall c :: 0 <= c < |answers| ==> Consistent(answers[c]) && IdsNonEmpty(answers[c])
    ensures Invariant(Run(channels, answers))
  {
    if |channels| > 0 {
      var n := |channels| - 1;
      RunKeeps(channels[..n], answers[..n]);
      var a := answers[n];
      if Truthy(a.playlistId) {
        VideosRunKeeps(Run(channels[..n], answers[..n]), channels[n], a.playlistId.value, CollectPages(a.pages), a.fetched);
      }
    }
  }

  /** A video whose id is not above the last processed one is never
      appended again, in any later channel. */
  lemma NoRepeats(channels: seq<string>, answers: seq<ChannelAnswers>)
    requires |answers| == |channels|
    requires forall c :: 0 <= c < |answers| ==> Consistent(answers[c]) && IdsNonEmpty(answers[c])
    ensures var rows := Run(channels, answers).appended;
      forall i, j :: 0 <= i < j < |rows| ==> rows[i].videoId != rows[j].videoId
  {
    RunKeeps(channels, answers);
    var rows := Run(channels, answers).appended;
    assert forall i, j :: 0 <= i < j < |rows| ==> LexLt(VideoIds(rows)[i], VideoIds(rows)[j]);
  }

  /** The loop over one channel's video ids (`for video_id in
      video_ids`). `file0` is the output file before the whole run and
      `appended0` the rows appended since. */
  method ProcessVideos(channel: string, playlistId: string, ids: seq<string>, fetched: seq<Option<seq<string>>>,
                       last0: Option<string>, output0: Option<Table<TranscriptRow>>,
                       ghost file0: Option<Table<TranscriptRow>>, ghost appended0: seq<TranscriptRow>)
    returns (last: Option<string>, output: Option<Table<TranscriptRow>>, ghost appended: seq<TranscriptRow>)
    requires |fetched| == |ids|
    requires output0 == AppendEach(file0, TranscriptHeader, appended0)
    ensures Progress(last, appended) == VideosRun(Progress(last0, appended0), channel, playlistId, ids, fetched)
    ensures output == AppendEach(file0, TranscriptHeader, appended)
  {
    last, output, appended := last0, output0, appended0;
    for j := 0 to |ids|
      invariant Progress(last, appended) == VideosRun(Progress(last0, appended0), channel, playlistId, ids[..j], fetched[..j])
      invariant output == AppendEach(file0, TranscriptHeader, appended)
    {
      assert ids[..j + 1][..j] == ids[..j] && fetched[..j + 1][..j] == fetched[..j];
      var videoId := ids[j];
      if last.Some? && last.value != "" && LexLe(videoId, last.value) {
        continue;
      }
      match fetched[j] {
        case Some(entries) =>
          var row := TranscriptRow(channel, channel, playlistId, videoId, Join(entries));
          AppendEachSnoc(file0, TranscriptHeader, appended, row);
          output := Some(AppendToCsv(output, row));
          appended := appended + [row];
          last := Some(videoId);
        case None =>
      }
    }
    assert ids[..|ids|] == ids && fetched[..|fetched|] == fetched;
  }

  /** The top-level loop of example.py over the filtered channel names,
      with `last_processed_video_id` starting at None. Returns the output
      file and the final last processed id. */
  method ProcessAll(channels: seq<string>, answers: seq<ChannelAnswers>, outputCsv: Option<Table<TranscriptRow>>)
    returns (output: Option<Table<TranscriptRow>>, last: Option<string>)
    requires |answers| == |channels|
    requires forall c :: 0 <= c < |answers| ==> Consistent(answers[c])
    ensures var st := Run(channels, answers);
      && last == st.last
      && output == AppendEach(outputCsv, TranscriptHeader, st.appended)
  {
    last, output := None, outputCsv;
    ghost var appended: seq<TranscriptRow> := [];
    for c := 0 to |channels|
      invariant Progress(last, appended) == Run(channels[..c], answers[..c])
      invariant output == AppendEach(outputCsv, TranscriptHeader, appended)
    {
      assert channels[..c + 1][..c] == channels[..c] && answers[..c + 1][..c] == answers[..c];
      var channel := channels[c];
      var a := answers[c];
      var uploadsPlaylistId := a.playlistId;
      if !(uploadsPlaylistId.Some? && uploadsPlaylistId.value != "") {
        continue;
      }
      var videoIds := GetVideoIdsFromPlaylist(a.pages);
      last, output, appended := ProcessVideos(channel, uploadsPlaylistId.value, videoIds, a.fetched,
                                              last, output, outputCsv, appended);
    }
    assert channels[..|channels|] == channels && answers[..|answers|] == answers;
  }

  // ------------------------------------------------------------------
  // The resume check compares ids across channels
  // ------------------------------------------------------------------

  /** The check `video_id <= last_processed_video_id` orders ids as
      strings, but YouTube ids carry no order and the last id is kept from
      one channel to the next: a later channel's video whose id sorts
      below an earlier channel's last video is skipped although its
      transcript was fetched, and it is never written. */
  lemma SkipDropsFetchedVideo()
    ensures var a := ChannelAnswers(Some("PL1"), [Page(Some([Item(Some("b"))]), None)], [Some(["x"])]);
      var b := ChannelAnswers(Some("PL2"), [Page(Some([Item(Some("a"))]), None)], [Some(["y"])]);
      && Consistent(a) && Consistent(b)
      && Run(["A", "B"], [a, b]).appended == [TranscriptRow("A", "A", "PL1", "b", "x")]
  {
    var a := ChannelAnswers(Some("PL1"), [Page(Some([Item(Some("b"))]), None)], [Some(["x"])]);
    var b := ChannelAnswers(Some("PL2"), [Page(Some([Item(Some("a"))]), None)], [Some(["y"])]);
    assert CollectPages(a.pages) == ["b"];
    assert CollectPages(b.pages) == ["a"];
    assert PageStops(a.pages[0]) && PageStops(b.pages[0]);
    var channels := ["A", "B"];
    var answers := [a, b];
    assert channels[..1] == ["A"] && answers[..1] == [a];
    assert channels[..1][..0] == [] && answers[..1][..0] == [];
    var row := TranscriptRow("A", "A", "PL1", "b", "x");
    assert Join(["x"]) == "x";
    assert ["b"][..0] == [] && [Some(["x"])][..0] == [];
    assert VideosRun(Progress(None, []), "A", "PL1", ["b"], [Some(["x"])]) == Progress(Some("b"), [row]);
    assert Run(["A"], [a]) == Progress(Some("b"), [row]);
    assert Skips(Some("b"), "a");
    assert ["a"][..0] == [] && [Some(["y"])][..0] == [];
    assert VideosRun(Progress(Some("b"), [row]), "B", "PL2", ["a"], [Some(["y"])]) == Progress(Some("b"), [row]);
  }

  /** The evidently intended resume rule: skip a video only when its id
      has been written already. */
  function FixedVideoStep(appended: seq<TranscriptRow>, channel: string, playlistId: string, videoId: string,
                          fetched: Option<seq<string>>): seq<TranscriptRow> {
    if videoId in VideoIds(appended) then appended
    else if fetched.Some? then appended + [TranscriptRow(channel, channel, playlistId, videoId, Join(fetched.value))]
    else appended
  }

  function FixedVideosRun(appended: seq<TranscriptRow>, channel: string, playlistId: string, ids: seq<string>,
                          fetched: seq<Option<seq<string>>>): seq<TranscriptRow>
    requires |fetched| == |ids|
  {
    if |ids| == 0 then appended
    else
      var n := |ids| - 1;
      FixedVideoStep(FixedVideosRun(appended, channel, playlistId, ids[..n], fetched[..n]), channel, playlistId, ids[n], fetched[n])
  }

  /** The whole run with the intended resume rule. */
  function FixedRun(channels: seq<string>, answers: seq<ChannelAnswers>): seq<TranscriptRow>
    requires |answers| == |channels|
    requires forall c :: 0 <= c < |answers| ==> Consistent(answers[c])
  {
    if |channels| == 0 then []
    else
      var n := |channels| - 1;
      var before := FixedRun(channels[..n], answers[..n]);
      var a := answers[n];
      assert Consistent(a);
      if !Truthy(a.playlistId) then before
      else FixedVideosRun(before, channels[n], a.playlistId.value, CollectPages(a.pages), a.fetched)
  }

  predicate Distinct(ids: seq<string>) {
    forall i, j :: 0 <= i < j < |ids| ==> ids[i] != ids[j]
  }

  lemma VideoIdsSnoc(rows: seq<TranscriptRow>, row: TranscriptRow)
    ensures VideoIds(rows + [row]) == VideoIds(rows) + [row.videoId]
  {
    assert (rows + [row])[..|rows|] == rows;
  }

  /** One corrected step writes at most one row, after those already there. */
  lemma FixedVideoStepPrefix(appended: seq<TranscriptRow>, channel: string, playlistId: string, videoId: string,
                             fetched: Option<seq<string>>)
    ensures var r := FixedVideoStep(appended, channel, playlistId, videoId, fetched);
      |appended| <= |r| <= |appended| + 1 && r[..|appended|] == appended
  {
  }

  /** One corrected step leaves the video written when its fetch
      succeeded, and writes nothing else. */
  lemma FixedVideoStepGrows(appended: seq<TranscriptRow>, channel: string, playlistId: string, videoId: string,
                            fetched: Option<seq<string>>)
    ensures var r := FixedVideoStep(appended, channel, playlistId, videoId, fetched);
      && (fetched.Some? ==> videoId in VideoIds(r))
      && (forall v :: v in VideoIds(r) ==> v in VideoIds(appended) || (v == videoId && fetched.Some?))
  {
    if videoId !in VideoIds(appended) && fetched.Some? {
      VideoIdsSnoc(appended, TranscriptRow(channel, channel, playlistId, videoId, Join(fetched.value)));
    }
  }

  /** One corrected step keeps the written ids distinct. */
  lemma FixedVideoStepDistinct(appended: seq<TranscriptRow>, channel: string, playlistId: string, videoId: string,
                               fetched: Option<seq<string>>)
    requires Distinct(VideoIds(appended))
    ensures Distinct(VideoIds(FixedVideoStep(appended, channel, playlistId, videoId, fetched)))
  {
    if videoId !in VideoIds(appended) && fetched.Some? {
      VideoIdsSnoc(appended, TranscriptRow(channel, channel, playlistId, videoId, Join(fetched.value)));
    }
  }

  /** Over one channel the rows already written stay in place. */
  lemma {:induction false} FixedVideosRunGrows(appended: seq<TranscriptRow>, channel: string, playlistId: string,
                                               ids: seq<string>, fetched: seq<Option<seq<string>>>)
    requires |fetched| == |ids|
    ensures var r := FixedVideosRun(appended, channel, playlistId, ids, fetched);
      |appended| <= |r| && r[..|appended|] == appended
  {
    if |ids| > 0 {
      var n := |ids| - 1;
      FixedVideosRunGrows(appended, channel, playlistId, ids[..n], fetched[..n]);
      var mid := FixedVideosRun(appended, channel, playlistId, ids[..n], fetched[..n]);
      var r := FixedVideoStep(mid, channel, playlistId, ids[n], fetched[n]);
      FixedVideoStepPrefix(mid, channel, playlistId, ids[n], fetched[n]);
      assert r[..|mid|][..|appended|] == r[..|appended|];
    }
  }

  /** Over one channel the written ids stay distinct. */
  lemma {:induction false} FixedVideosRunDistinct(appended: seq<TranscriptRow>, channel: string, playlistId: string,
                                                  ids: seq<string>, fetched: seq<Option<seq<string>>>)
    requires |fetched| == |ids|
    requires Distinct(VideoIds(appended))
    ensures Distinct(VideoIds(FixedVideosRun(appended, channel, playlistId, ids, fetched)))
  {
    if |ids| > 0 {
      var n := |ids| - 1;
      FixedVideosRunDistinct(appended, channel, playlistId, ids[..n], fetched[..n]);
      FixedVideoStepDistinct(FixedVideosRun(appended, channel, playlistId, ids[..n], fetched[..n]),
                             channel, playlistId, ids[n], fetched[n]);
    }
  }

  /** Over one channel: every video whose fetch succeeded ends up written. */
  lemma {:induction false} FixedVideosRunComplete(appended: seq<TranscriptRow>, channel: string, playlistId: string,
                                                  ids: seq<string>, fetched: seq<Option<seq<string>>>)
    requires |fetched| == |ids|
    ensures forall k :: 0 <= k < |ids| && fetched[k].Some? ==>
      ids[k] in VideoIds(FixedVideosRun(appended, channel, playlistId, ids, fetched))
  {
    if |ids| > 0 {
      var n := |ids| - 1;
      FixedVideosRunComplete(appended, channel, playlistId, ids[..n], fetched[..n]);
      var mid := FixedVideosRun(appended, channel, playlistId, ids[..n], fetched[..n]);
      var r := FixedVideoStep(mid, channel, playlistId, ids[n], fetched[n]);
      FixedVideoStepGrows(mid, channel, playlistId, ids[n], fetched[n]);
      FixedVideoStepPrefix(mid, channel, playlistId, ids[n], fetched[n]);
      PrefixIdsStay(mid, r);
      forall k | 0 <= k < n && fetched[k].Some?
        ensures ids[k] in VideoIds(r)
      {
        assert ids[..n][k] == ids[k] && fetched[..n][k] == fetched[k];
      }
    }
  }

  /** Over one channel: nothing is written but the rows already there and
      videos whose fetch succeeded. */
  lemma {:induction false} FixedVideosRunSound(appended: seq<TranscriptRow>, channel: string, playlistId: string,
                                               ids: seq<string>, fetched: seq<Option<seq<string>>>)
    requires |fetched| == |ids|
    ensures forall v :: v in VideoIds(FixedVideosRun(appended, channel, playlistId, ids, fetched)) ==>
      v in VideoIds(appended) || exists k :: 0 <= k < |ids| && ids[k] == v && fetched[k].Some?
  {
    if |ids| > 0 {
      var n := |ids| - 1;
      FixedVideosRunSound(appended, channel, playlistId, ids[..n], fetched[..n]);
      var mid := FixedVideosRun(appended, channel, playlistId, ids[..n], fetched[..n]);
      var r := FixedVideoStep(mid, channel, playlistId, ids[n], fetched[n]);
      FixedVideoStepGrows(mid, channel, playlistId, ids[n], fetched[n]);
      forall v | v in VideoIds(r)
        ensures v in VideoIds(appended) || exists k :: 0 <= k < |ids| && ids[k] == v && fetched[k].Some?
      {
        if v in VideoIds(mid) {
          if v !in VideoIds(appended) {
            var k :| 0 <= k < n && ids[..n][k] == v && fetched[..n][k].Some?;
            assert ids[k] == v && fetched[k].Some?;
          }
        } else {
          assert v == ids[n] && fetched[n].Some?;
        }
      }
    }
  }

  /** Ids of a prefix of the rows are ids of the rows. */
  lemma PrefixIdsStay(a: seq<TranscriptRow>, b: seq<TranscriptRow>)
    requires |a| <= |b| && b[..|a|] == a
    ensures forall v :: v in VideoIds(a) ==> v in VideoIds(b)
  {
    forall v | v in VideoIds(a)
      ensures v in VideoIds(b)
    {
      var i :| 0 <= i < |a| && VideoIds(a)[i] == v;
      assert VideoIds(b)[i] == v;
    }
  }

  /** With the intended rule no video is written twice. */
  lemma {:induction false} FixedRunDistinct(channels: seq<string>, answers: seq<ChannelAnswers>)
    requires |answers| == |channels|
    requires forall c :: 0 <= c < |answers| ==> Consistent(answers[c])
    ensures Distinct(VideoIds(FixedRun(channels, answers)))
  {
    if |channels| > 0 {
      var n := |channels| - 1;
      FixedRunDistinct(channels[..n], answers[..n]);
      var a := answers[n];
      if Truthy(a.playlistId) {
        FixedVideosRunDistinct(FixedRun(channels[..n], answers[..n]), channels[n], a.playlistId.value,
                               CollectPages(a.pages), a.fetched);
      }
    }
  }

  /** The last channel of a corrected run only adds rows after those the
      earlier channels wrote. */
  lemma FixedRunLastChannel(channels: seq<string>, answers: seq<ChannelAnswers>)
    requires |answers| == |channels| > 0
    requires forall i :: 0 <= i < |answers| ==> Consistent(answers[i])
    ensures var before := FixedRun(channels[..|channels| - 1], answers[..|channels| - 1]);
      var r := FixedRun(channels, answers);
      |before| <= |r| && r[..|before|] == before
  {
    var n := |channels| - 1;
    var before := FixedRun(channels[..n], answers[..n]);
    var a := answers[n];
    if Truthy(a.playlistId) {
      FixedVideosRunGrows(before, channels[n], a.playlistId.value, CollectPages(a.pages), a.fetched);
    }
  }

  /** With the intended rule no video is lost: a video of a processed
      channel whose transcript fetch succeeded is in the output. */
  lemma {:induction false} FixedRunComplete(channels: seq<string>, answers: seq<ChannelAnswers>, c: nat, k: nat)
    requires |answers| == |channels|
    requires forall i :: 0 <= i < |answers| ==> Consistent(answers[i])
    requires c < |answers| && Truthy(answers[c].playlistId)
    requires k < |CollectPages(answers[c].pages)| && k < |answers[c].fetched| && answers[c].fetched[k].Some?
    ensures CollectPages(answers[c].pages)[k] in VideoIds(FixedRun(channels, answers))
  {
    var n := |channels| - 1;
    if c < n {
      assert answers[..n][c] == answers[c];
      FixedRunComplete(channels[..n], answers[..n], c, k);
      FixedRunLastChannel(channels, answers);
      PrefixIdsStay(FixedRun(channels[..n], answers[..n]), FixedRun(channels, answers));
    } else {
      var a := answers[n];
      var before := FixedRun(channels[..n], answers[..n]);
      assert c == n && FixedRun(channels, answers) ==
        FixedVideosRun(before, channels[n], a.playlistId.value, CollectPages(a.pages), a.fetched);
      FixedVideosRunComplete(before, channels[n], a.playlistId.value, CollectPages(a.pages), a.fetched);
    }
  }
}
