# YouTube channel scraper: the control logic, verified

The scripts walk a large list of YouTube channels. For each channel they look up
its "uploads" playlist, page through the playlist's video ids and fetch the
transcripts. Progress goes to CSV files so that a later run can resume. This
project models the control logic under that plumbing and proves its properties
in Dafny:

- the quota-reset clock of `QuotaHandler` (init.py);
- the resumable drivers:
  - `step1_get_playlists` (init.py);
  - the video-resume loop (example.py);
  - `process_channels` (pytube1.py);
  - the skip-and-stop main loop (api.py);
- the retry and back-off schedules:
  - `get_uploads_playlist_id` (api.py);
  - `get_channel_playlists` (pytube1.py);
- the two versions of `get_video_ids_from_playlist` (init.py and example.py);
- the pure transforms:
  - the channel filters (example.py);
  - `sanitize_channel_name` and `clean_channel_name`;
  - `process_channel_videos`;
  - the transcript join;
  - `get_last_processed`.

How the model stands in for the outside world:

- **Remote calls.** What the YouTube Data API, the transcript service or yt-dlp
  answers is supplied as data: one entry per input row, unused when the row is
  skipped. Within one lookup with retries there is one answer per attempt, in
  order.
- **Files.** A CSV file is an `Option<Table<R>>`: absent, or a header and rows.
  A checkpoint file is a sequence of lines.
- **Clock.** The clock is an integer number of seconds since local midnight.
- **The api.py processed set.** The main loop computes it once, before the
  loop, and never updates it; the model does the same.
- **Sleeps.** `time.sleep` is not performed. The sleeps are returned as a list
  of durations.

Each imperative piece has three parts:

1. a recursive specification function over the inputs;
2. a method with the source's loop, whose `ensures` ties its result to that
   function;
3. lemmas proving what the source promises about the function.

Modules:

- `Common`: Option, powers of two, back-off lists, subsequences, filtering, and
  Python's string order.
- `Text`: `strip`, `replace`, `" ".join`, `lower` and substring search.
- `Csv`: CSV files, with the "header only when the file is new" rule.
- `Remote`: API response shapes.
- `Init`, `Example`, `Pytube`, `Api`: one module per script.

## Model

| member | source | states |
|---|---|---|
| Common.Backoffs | pytube1.py:57-60 | The `i`-th wait of an exponential back-off is `base * 2 ** i`; exactly `n` waits. |
| Common.Filter | example.py:78-91 | A boolean-mask selection keeps exactly the elements satisfying the mask, as a subsequence in the original order. |
| Common.FilterCons | example.py:78-91 | Selecting from a list with one element in front keeps that element exactly when it satisfies the mask, followed by the selection from the rest. |
| Common.FilterCounts | example.py:78-91 | A boolean-mask selection keeps every occurrence of a kept element and none of a dropped one. |
| Common.LexLeTotal | example.py:182 | Python's string `<=` is total: for any two ids one is `<=` the other or strictly below it (with antisymmetry and transitivity in sibling lemmas). |
| Common.LexLtTransitive | example.py:182 | String `<` is transitive, which is what makes a run of ever-larger ids strictly increasing. |
| Text.Strip | init.py:125-128 | `strip()` returns a string no longer than its input that neither starts nor ends with whitespace. |
| Text.StripShape | init.py:125-128 | `strip()` returns the middle slice of its input with only whitespace removed from either end, and the result neither starts nor ends with whitespace. |
| Text.StripIdempotent | init.py:125-128 | Stripping twice is stripping once. |
| Text.RemoveChar | pytube1.py:16 | `replace(c, '')` leaves no `c` and keeps every other character. |
| Text.RemoveCharIsFilter | pytube1.py:16 | `replace(c, '')` keeps exactly the characters other than `c`, each occurrence, in their original order. |
| Text.RemoveKeepsEnds | pytube1.py:16 | Removing a character that is not at an end of the string keeps that end. |
| Text.SplitJoin | init.py:234 | Joining space-free texts with single spaces and splitting on spaces gives the texts back. |
| Text.Join | init.py:234 | Joining no parts gives the empty string; otherwise the joined text is the total length of the parts plus one separator between each pair. |
| Text.JoinPlaces | init.py:234 | Part `i` of a space-join sits at offset `|parts[0]| + … + |parts[i-1]| + i`, and a single space follows every part but the last: the content of the join, whatever spaces the parts hold. |
| Text.JoinAppend | init.py:234 | Joining two non-empty lists of parts one after the other equals joining each and putting one space between. |
| Text.Lower | example.py:83 | `lower()` maps each character through its lower-case form, keeping the length. |
| Text.ContainsIff | example.py:83 | The substring test holds exactly when the keyword occurs at some position. |
| Csv.AppendRows | init.py:100-107 | Appending to a CSV keeps the old header, or writes the given header when the file did not exist; the rows are the old rows followed by the new ones. |
| Csv.AppendTwice | example.py:156-161 | Two appends in a row equal one append of both batches: a header is written once at most. |
| Csv.AppendEachSnoc | example.py:156-161 | Appending rows one call at a time gives the same file as one batch append of them all. |
| Remote.IdsBeforeMalformed | init.py:179-181 | The `for item in items` loop collects the ids of the items in order, up to the first item without a video id; all of them when every item has one. |
| Init.GetLastProcessed | init.py:41-47 | Returns the final row of the file, or None for an empty file. |
| Init.SecondsUntilReset | init.py:56-63 | The wait lies in (0, 86400]; now + wait is a 03:00 instant, today's when the hour is below 3 and tomorrow's otherwise, and no 03:00 instant lies strictly between. |
| Init.NoResetBetween | init.py:58-60 | No 03:00 instant lies strictly between `now` and the chosen reset. |
| Init.QuotaHandler.constructor | init.py:50-52 | A new handler starts with the quota flag off. |
| Init.QuotaHandler.HandleQuotaExceeded | init.py:54-63 | Always leaves the quota flag on and returns the seconds until the next 03:00. |
| Init.LoadProcessed | init.py:123-125 | The processed set read back from the checkpoint is exactly the set of its stripped lines. |
| Init.AppendToPlaylistCsv | init.py:100-107 | The playlist CSV keeps its header, or gets the playlist header when new, and gains exactly the row (name, playlist id) at its end. |
| Init.UpdateLastProcessed | init.py:109-112 | The checkpoint file gains exactly one line, the channel name, at its end. |
| Init.CheckpointRoundTrip | init.py:109-125 | Writing a stripped name to the checkpoint and reloading it adds exactly that name to the processed set. |
| Init.StripAll | init.py:128 | Each channel name is stripped, position by position. |
| Init.ScanProcessed | init.py:130-144 | After a scan the processed set is the starting set plus exactly the names written to the playlist CSV. |
| Init.ScanSkipsProcessed | init.py:130-133 | A channel already in the processed set is never passed to the lookup; every written channel was looked up. |
| Init.ScanNoRepeatAfter | init.py:130-144 | The processed set grows during the pass: after any number of rows, the rest of the pass keeps the lookups already made and looks up no name processed by then, including names added earlier in the same pass. |
| Init.ScanWritesOnce | init.py:141-144 | No channel name is written twice in a pass, nor one already processed. |
| Init.ScanRecordsOnlySuccess | init.py:141-144 | Every written row carries a channel whose lookup returned exactly that truthy playlist id. |
| Init.ScanRecordsEverySuccess | init.py:141-144 | Every channel whose lookup returned a truthy id ends up processed. |
| Init.ScanKeepsOrder | init.py:127-133 | Channels are looked up in input row order. |
| Init.WrittenNamesStripped | init.py:128-143 | Every name written to the files is already stripped. |
| Init.ReloadAppended | init.py:123-125 | Reloading a checkpoint after stripped names were appended gives the old set plus those names. |
| Init.ResumeSkipsRecorded | init.py:123-144 | Across runs: after one run, reloading the checkpoint gives that run's processed set, and a second run never looks up a channel that the first run recorded or that was already in the file. |
| Init.Step1GetPlaylists | init.py:114-153 | The driver's lookups, playlist CSV and checkpoint file equal those of one scan from the reloaded set; the quota branch is dead, so the outer loop makes exactly one pass. |
| Init.ScanPass | init.py:127-144 | One pass over the rows produces the specified scan: lookups, playlist appends and checkpoint lines. |
| Init.ScanChannel | init.py:128-144 | One row performs one scan step: skip, or look up and record on success; the playlist CSV and checkpoint grow together. |
| Init.CollectIsPrefixOfListed | init.py:164-191 | The gathered ids are a prefix of all ids the responses list. |
| Init.CollectAllWhenClean | init.py:176-185 | When no response before the last stops the loop, every listed id is gathered. |
| Init.CollectStopsAt | init.py:176-189 | Responses after the first stopping one (empty, raised, malformed or without a token) have no effect. |
| Init.GetVideoIdsFromPlaylist | init.py:160-191 | The loop returns the in-order concatenation of page ids up to the first stopping response, including the partial ids of a page interrupted by a missing id. |
| Init.FetchPage | init.py:167-189 | One request appends that response's ids and continues exactly when the response does not stop the loop. |
| Init.AppendPageIds | init.py:179-181 | Appends the items' ids up to the first one missing, and fails exactly when some item has none. |
| Init.GetTranscriptText | init.py:227-238 | None exactly when the fetch raised; the empty string for an empty transcript; otherwise the entries' texts in order, each at its offset and followed by one space except the last, with the joined length; split back when the texts hold no spaces. |
| Init.JoinFacts | init.py:234 | Every part of a space-join sits at its offset followed by one space, and splitting it back gives the space-free parts. |
| Example.TopKeepsLargest | example.py:70 | A row in `nlargest(50)` has at least as many videos as any row outside it, and on a tie comes first. |
| Example.TopSelectsFifty | example.py:70 | `nlargest(50)` selects exactly 50 rows, or every row when there are fewer. |
| Example.FilterChannelsSpec | example.py:70-91 | A row survives exactly when its name is not that of a huge top-50 channel, its lower-cased name contains none of the five keywords, and it has between 1 and 10000 videos; survivors keep their order. |
| Example.FilterChannelsCounts | example.py:70-91 | A surviving row occurs as many times as in the dataset, and a dropped row not at all. |
| Example.DroppedByName | example.py:73-78 | Any row sharing its name with a huge top-50 channel is dropped, whatever its own count. |
| Example.CollectPagesIsPrefix | example.py:123-142 | The gathered ids are a prefix of all ids the responses list. |
| Example.SameAsInit | example.py:123-142 | On responses that are raises or non-empty well-formed pages, both scripts' paginations gather the same ids. |
| Example.GetVideoIdsFromPlaylist | example.py:123-142 | The loop returns the in-order concatenation of whole pages up to the first raising page or page without a token. |
| Example.TranscriptsKeys | example.py:145-153 | The dictionary's keys are exactly the ids whose fetch succeeded. |
| Example.TranscriptsLastWins | example.py:147-150 | An id maps to the join of its last successful fetch. |
| Example.AppendToCsv | example.py:156-161 | The transcript CSV keeps its header, or gets the transcript header when new, and gains exactly the given row at its end. |
| Example.GetTranscripts | example.py:145-153 | The loop builds exactly the specified dictionary. |
| Example.VideoStepKeeps | example.py:180-204 | One video keeps the resume invariant: the last id is that of the last appended row, and appended ids strictly increase. |
| Example.VideosRunKeeps | example.py:180-204 | One channel's videos keep the resume invariant. |
| Example.RunKeeps | example.py:164-204 | Over the whole run the last processed id is the last appended id, the appended ids strictly increase across channels, and every row names a truthy playlist. |
| Example.NoRepeats | example.py:164-204 | No video id is appended twice in a run. |
| Example.ProcessVideos | example.py:180-204 | The per-channel loop produces the specified last id and appends exactly the specified rows to the CSV. |
| Example.ProcessAll | example.py:164-204 | The top-level loop skips channels with a falsy playlist id and produces the specified output file and last id. |
| Example.SkipDropsFetchedVideo | example.py:180-183 | Counterexample: with channel A listing "b" and channel B listing "a", both fetches succeeding, only A's row is written; B's video is skipped as `"a" <= "b"`. |
| Example.FixedVideosRunSound | example.py:180-183 | With the corrected skip rule, a channel writes nothing but the rows already there and videos whose fetch succeeded. |
| Example.FixedVideosRunComplete | example.py:180-183 | With the corrected skip rule, every successfully fetched video of a channel ends up written. |
| Example.FixedRunDistinct | example.py:180-183 | With the corrected skip rule, no video id is written twice in a run. |
| Example.FixedRunComplete | example.py:180-183 | With the corrected skip rule, every successfully fetched video of every processed channel ends up written. |
| Pytube.SanitizeChannelName | pytube1.py:11-17 | The sanitized name is the characters kept by the `[^\w\s@-]` removal, stripped, with every space dropped and everything else kept in order. |
| Pytube.SanitizeCharacters | pytube1.py:11-17 | The sanitized name holds only word characters, whitespace, `@` or `-`, and no space or `&`. |
| Pytube.SanitizeTrimmed | pytube1.py:14-16 | The sanitized name neither starts nor ends with whitespace. |
| Pytube.SanitizeIdempotent | pytube1.py:11-17 | Sanitizing twice equals sanitizing once. |
| Pytube.AmpersandStepIsNoOp | pytube1.py:14-16 | The `&` removal never changes anything, since the character filter has already removed every `&`. |
| Pytube.CleanChannelName | pytube1.py:149-153 | None exactly for a missing value; otherwise exactly the non-space characters of the stripped value, in order, so no space, no longer than the input, and no whitespace at either end. |
| Pytube.TrimmedAfterRemoval | pytube1.py:153 | Stripping and then removing spaces leaves no whitespace at either end. |
| Pytube.Records | pytube1.py:68-79 | At most three records, one for each of the first entries in order, missing fields defaulting to `Unknown`. |
| Pytube.ProcessChannelVideos | pytube1.py:68-79 | The loop builds exactly the records `Pytube.Records` specifies. |
| Pytube.AttemptUrls | pytube1.py:34-40 | Attempt `k` tries the handle URL when `k` is even and the channel-id URL when odd. |
| Pytube.FirstFound | pytube1.py:46-48 | An attempt whose answer has `entries`, or none (`|answers|`); that it is the first is Pytube.FirstFoundIsFirst. |
| Pytube.FirstFoundIsFirst | pytube1.py:40-48 | Every attempt before the first success failed. |
| Pytube.ScheduleBounds | pytube1.py:39-60 | At most `max_retries` rounds of handle-then-channel URLs; the `i`-th sleep is `retry_delay * 2 ** i`; fewer sleeps than rounds, and none after the final round. |
| Pytube.GetChannelPlaylists | pytube1.py:19-66 | Returns the records of the first answer with entries, or None after all rounds; the URLs tried and sleeps taken are as specified. |
| Pytube.TryRound | pytube1.py:40-55 | One round tries the two URLs in order and stops at the first success. |
| Pytube.SleepsBeforeSuccess | pytube1.py:57-60 | A success in round `r` comes after exactly the first `r` back-off sleeps. |
| Pytube.DefaultSchedule | pytube1.py:19-66 | With the defaults and no success: None, six URLs tried, sleeps [5, 10]. |
| Pytube.DriverCounts | pytube1.py:115-126 | Processed channels are never looked up; the success count equals the number of newly processed channels. |
| Pytube.DriverNoRepeatAfter | pytube1.py:115-126 | The processed set grows during the run: after any number of channels, the rest of the run keeps the lookups already made and looks up no channel processed by then, including channels added earlier in the same run. |
| Pytube.DriverProcessed | pytube1.py:115-126 | The processed set after the run is the starting set plus exactly the channels whose lookup returned some videos. |
| Pytube.DriverSuccessCount | pytube1.py:115-126 | The success count is the number of channels, not processed at the start, whose lookup returned some videos. |
| Pytube.DriverGathers | pytube1.py:115-124 | The channels looked up are, in order, those neither processed at the start nor successful earlier in the list; the collected videos are the concatenation, in that order, of the non-empty lookup results. |
| Pytube.LookupsInOrder | pytube1.py:115-122 | The channels are looked up in list order: the lookups are a subsequence of the channel list. |
| Pytube.DriverSaves | pytube1.py:123-133 | An interim file is saved exactly at each multiple of 10 successes, the `i`-th at count `10 * (i + 1)`. |
| Pytube.ProcessChannels | pytube1.py:106-140 | The loop produces the specified driver state, and a final save exactly when some video was collected. |
| Api.FirstSettled | api.py:65-72 | The first attempt that is not a 429/403, with every earlier one rate limited. |
| Api.GetUploadsPlaylistId | api.py:31-75 | The loop's outcome, attempt count and sleeps equal the specification. |
| Api.LookupSchedule | api.py:34-75 | At most `max_retries` attempts; sleeps only after rate-limited attempts, the `i`-th being `2 ** i * 60`, never after the last; a first attempt that is not rate limited settles at once; all rate limited re-raises the last error. |
| Api.DefaultSchedule | api.py:31-72 | With five 429s: sleeps 60, 120, 240, 480, then the error is re-raised after 5 attempts. |
| Api.LoadProgress | api.py:15-19 | A missing progress file reads as no rows; an existing one as its rows. |
| Api.SaveProgress | api.py:21-29 | The saved log is the old rows unchanged followed by exactly one new row. |
| Api.SaveLoadRoundTrip | api.py:15-29 | Saving and reloading adds exactly the saved channel to the processed names. |
| Api.MainLooksInOrder | api.py:89-102 | The channels looked up are a prefix of the pending ones, all of them unless stopped. |
| Api.MainStopsAtFirst | api.py:96-101 | The loop stops right after the first lookup that escapes with 429 or 403, and no earlier lookup did so. |
| Api.MainKeepsLog | api.py:92-95 | The progress log only grows, and each new row is a looked-up channel with a non-empty id. |
| Api.MainStepLog | api.py:92-94 | One channel adds its row, with its name, id and time, exactly when the loop runs and the lookup returned a truthy id; otherwise the log is unchanged. |
| Api.MainLogsOnlySuccess | api.py:89-95 | Every row the loop adds belongs to a channel it looked up, whose lookup returned that non-empty id, stamped with that channel's time. |
| Api.MainLogsEverySuccess | api.py:89-95 | Every looked-up channel whose lookup returned a truthy id has its row among those the loop adds. |
| Api.SkipsProcessed | api.py:86-89 | No channel in the progress log is looked up again. |
| Api.LooksInListOrder | api.py:87-89 | Lookups follow the input order. |
| Api.StoppedStays | api.py:96-101 | Once stopped, the remaining channels change nothing. |
| Api.ProcessPending | api.py:77-102 | The main loop over the pending channels gives the specified progress file, lookups and stop flag. |

## Left out

- Init.CheckpointRoundTrip: the checkpoint file is modelled as its list of lines, one name per line. A name holding a line break (`\n` or `\r`) would be read back by init.py:125 as several names, so it would not round-trip and would be looked up again on every run.
- Init.ReloadAppended: holds only when no written name holds a line break, as for Init.CheckpointRoundTrip.
- Init.ResumeSkipsRecorded: holds only when no written name holds a line break, as for Init.CheckpointRoundTrip.
- Example.VideoStepKeeps: proved only for non-empty video ids, because YouTube video ids are never empty. An empty id is falsy, so example.py:182 would not skip it when it is the last processed id, and it could be appended twice.
- Example.VideosRunKeeps: proved only for non-empty video ids, because YouTube video ids are never empty (see Example.VideoStepKeeps).
- Example.RunKeeps: proved only for non-empty video ids, because YouTube video ids are never empty (see Example.VideoStepKeeps).
- Example.NoRepeats: proved only for non-empty video ids, because YouTube video ids are never empty (see Example.VideoStepKeeps).
- Character classes are ASCII only: `\w`, `str.isspace` and `str.lower` are Unicode-aware in Python.
- The quota clock is an integer number of seconds since local midnight, passed in as a parameter:
  - time zones, daylight-saving changes and microseconds are not modelled;
  - the unused `last_quota_reset` field is not modelled.
- All remote calls are supplied outcomes, one per call, so their internal branches are not modelled:
  - the YouTube Data API;
  - the transcript service;
  - yt-dlp's `extract_info`;
  - `get_uploads_playlist_id` in init.py and in example.py.
- Init.GetVideoIdsFromPlaylist: a listing that would continue past the supplied responses is cut where they end; the script would keep requesting.
- Example.GetVideoIdsFromPlaylist: a listing that would continue past the supplied responses is cut where they end.
- Pytube.Records: an entry field is `Option<string>`, so a key that is present but holds None is read as `Unknown`, whereas `.get(key, 'Unknown')` at pytube1.py:73-76 would return None for it.
- Pytube.GetChannelPlaylists: with `ignoreerrors` (pytube1.py:28) `entries` may hold a None entry, on which `video.get` raises inside the attempt's `try` (pytube1.py:41-54) and the next URL is tried. The model has no None entry; such an attempt can only be supplied as a failed answer.
- pandas specifics are not modelled:
  - NaN channel names, `fillna('')`, `str()` of non-string cells and `dropna()`;
  - non-list `entries`.

  Names are strings and entries are sequences.
- File and directory I/O is not modelled: `os.makedirs`, `os.path.exists`, reading the channel list, and exceptions raised by file operations. This includes the `except` in `step1_get_playlists` that ends the loop on such an error.
- `get_processed_channels` (pytube1.py:88-104) reads CSV files from a directory. Its result is the `processed0` parameter of Pytube.ProcessChannels.
- Code outside the model:
  - `step2_get_video_ids`, `step3_get_transcripts` and the `sys.argv` dispatch of init.py;
  - the `__main__` block of pytube1.py, which calls `.empty` on the None that `process_channels` returns.
- In example.py, `get_transcripts` is never called by the script. It is modelled on its own; the main loop fetches each transcript itself.
- Not modelled: logging, `print`, and the float division at example.py:95.

## Findings

| source | as written | input that shows it | evidently intended | confidence | as-written member | corrected member |
|---|---|---|---|---|---|---|
| example.py:180-183 | A video is skipped when `video_id <= last_processed_video_id`. The last id is never reset between channels, so the comparison runs across channels. | Channel A lists video "b" and channel B lists video "a"; both transcript fetches succeed. B's video is skipped because "a" <= "b" and never written. | Skip a video only when it was already written. | not executed; high | Example.SkipDropsFetchedVideo | Example.FixedRunComplete |
