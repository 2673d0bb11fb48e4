# Revolutionary-song downloader: ranking and download accounting

A Dafny model of the decision logic in `download.py`, a script that looks up
each title of a song list on YouTube and downloads the best-ranked audio
candidates as mp3 files. The model covers these parts:

- the title normaliser `clean_song_name` and the file-name sanitiser `safe_filename`;
- the heuristic scorer `score_entry`, which either rejects a search record with the sentinel `-999` or scores it;
- the selection inside `download_song`: drop the sentinel, stable sort by score descending, keep the first `max(1, limit)`;
- the per-candidate loop of `download_song`: skip-existing, dry-run or download, with counted successes and tab-separated failure records;
- the retry decision of `try_download`: a second attempt with the android player client after a failed first one;
- the option records built by `build_search_opts` and `build_download_opts`;
- the batch part of `main`: the song list read from the list file, and the tally of per-song results.

The media library is not modelled. Its search call is an oracle
`search: (query, SearchOpts) -> SearchOutcome`, and its download call is an oracle
`fetch: (url, DownloadOpts) -> Attempt`. The files already on disk are a set of paths.

Modules, in dependency order:

- `Wrappers` (`wrappers.dfy`): `Option`.
- `Text` (`text.dfy`): the Python string operations the script uses, stated over `seq<char>`: lower-casing, `in`, `find`, `split`, `strip`, `replace`, `str(int)` with reading a numeral back, and `os.path.join`.
- `Names` (`names.dfy`): `clean_song_name` and `safe_filename`.
- `Scoring` (`scoring.dfy`): the keyword lists, the search record, the score as a specification function `EntryScore`, and the imperative `ScoreEntry` proved equal to it.
- `Ranking` (`ranking.dfy`): scoring every record, the sentinel filter, the stable sort (insertion sort on candidates tagged with their search position) and the top-N cut.
- `YdlOptions` (`options.dfy`): the option records and the android fallback options.
- `Download` (`download.dfy`): `try_download` and `download_song`. Each is specified by a function (`RetryOutcome`, `SongReport`) and implemented by a method proved equal to it.
- `Batch` (`batch.dfy`): the song list and the tally loop.

Three points of the search and the scorer that are easy to misread:

- There is one search query per song (`ytsearch20:<song> nhạc cách mạng`). The records are ranked in one pass.
- The view-count term is linear (`view_count / 500000`) with no cap, so enough extra views outweigh any keyword penalty. `Scoring.CleanLeaderBeatsPenalised` proves that a clean title starting with the song name still beats a karaoke or cover title when the latter has fewer than 6.5 million more views.
- The untrusted-keyword penalty is a flat −10 whenever any keyword is present, however many are present.

## Model

| member | source | states |
|---|---|---|
| Text.Lower | download.py:35 | lower-casing keeps the length and maps each character by itself |
| Text.FindFrom | download.py:61 | returns -1 when there is no occurrence at or after `i`, and otherwise the first such occurrence |
| Text.Find | download.py:61 | `title.find(song)`: -1 when the song does not occur, otherwise the index of its first occurrence |
| Text.Contains | download.py:51 | Python's `p in s` on strings: a first occurrence exists; `Text.ContainsAt` and `Text.ContainsWitness` state both directions |
| Text.ContainsAt | download.py:51 | proof helper: an occurrence at any index makes `p in s` true |
| Text.ContainsWitness | download.py:51 | proof helper: when `p in s` holds, an index where `p` occurs exists |
| Text.ContainsTransitive | download.py:58-66 | proof helper: a substring of a substring of the title is a substring of the title |
| Text.TrimStartSpec | download.py:28 | the result of stripping leading whitespace is a suffix of the input; the removed prefix is all whitespace and the result does not start with whitespace |
| Text.TrimEndSpec | download.py:28 | the result of stripping trailing whitespace is a prefix of the input; the removed suffix is all whitespace and the result does not end with whitespace |
| Text.TrimSpec | download.py:28 | `strip()` gives a string with no whitespace at either end, and it is an infix of the input with only whitespace around it |
| Text.Trim | download.py:28 | `strip()` as trimming the start and then the end; `Text.TrimSpec` states what is left |
| Text.WordLength | download.py:46 | a word is the maximal run of non-whitespace characters at the start |
| Text.Words | download.py:46 | `split()` yields no empty words |
| Text.WordsOccur | download.py:46 | every word of `split()` occurs in the string and holds no whitespace |
| Text.WordLengthBeforeSpace | download.py:46 | proof helper: a word ends at the first whitespace character, whatever follows it |
| Text.WordsAtSpace | download.py:46 | splitting at a whitespace character splits the word list there: `split()` of `a + c + b` is `split()` of `a` followed by `split()` of `b` |
| Text.OneWord | download.py:46 | a non-empty string without whitespace splits into itself alone |
| Text.NoWordsIffAllSpace | download.py:46 | `split()` is empty exactly when the string is all whitespace |
| Text.ReplaceAll | download.py:172 | `str.replace(pat, rep)`: every non-overlapping occurrence, scanning left to right; `Text.ReplaceAllNoOccurrence`, `Text.ReplaceAllChars` and `Text.ReplaceAllAtEnd` state its behaviour |
| Text.ReplaceAllNoOccurrence | download.py:172 | `replace` leaves a string with no occurrence of the pattern unchanged |
| Text.ReplaceAllChars | download.py:172 | `replace` introduces no character that is in neither the input nor the replacement |
| Text.ReplaceAllAtEnd | download.py:172 | a pattern whose first character does not recur in it is replaced when it ends the string, after the rest of the string is processed |
| Text.NatToString | download.py:171 | `str(idx)` is a non-empty run of digits |
| Text.NatToStringValue | download.py:171 | `str(idx)` read back as a decimal numeral gives `idx` |
| Text.NatToStringInjective | download.py:171 | different ranks are rendered as different strings |
| Text.DigitRun | download.py:28 | the `\d+` of the marker is the maximal leading run of digits |
| Text.DigitRunOfDigits | download.py:28 | proof helper: the digit run of `digits + tail` stops exactly where the digits end |
| Text.RankReadBack | download.py:171 | a number written between a fixed lead and a non-digit separator can be read back: equal texts mean equal numbers |
| Text.IntToString | download.py:104 | `str(quality)`: a minus sign before the digits of a negative number, the digits otherwise |
| Text.PathJoin | download.py:172 | POSIX `os.path.join`: an absolute name replaces the directory, and a `/` is inserted only when the directory is non-empty and does not already end with one; `Download.ExpectedMp3InOutputDir` relies on it |
| Names.StripOrdinal | download.py:28 | the anchored `re.sub`: drops a leading digits-and-period marker and the whitespace after it, and leaves a string without that marker unchanged; `Names.CleanDropsOrdinal` and `Names.CleanWithoutMarker` state both cases |
| Names.HasOrdinalMarker | download.py:28 | the `^\d+\.` part of the pattern matches at index 0: at least one digit, then a period; `Names.CleanDropsOrdinal`, `Names.CleanWithoutMarker` and `Names.CleanIndentedMarker` state what cleaning does with and without it |
| Names.CleanSongName | download.py:26-28 | the cleaned name has no whitespace at either end |
| Names.CleanDropsOrdinal | download.py:28 | a leading `digits '.'` marker is removed together with the whitespace after it, and the rest is trimmed |
| Names.CleanWithoutMarker | download.py:28 | without a leading marker the name is only trimmed |
| Names.TrimAfterTrimStart | download.py:28 | proof helper: trimming after removing leading whitespace is the same as trimming |
| Names.TrimBlankPrefix | download.py:28 | proof helper: a leading blank does not change the trimmed name |
| Names.TrimTrimmed | download.py:28 | proof helper: trimming an already trimmed string changes nothing |
| Names.TrimBlankSuffix | download.py:28 | proof helper: a trailing blank after a non-blank start does not change the trimmed name |
| Names.CleanMarkedTrimmed | download.py:28 | a marker, one blank and an already trimmed title clean to exactly that title |
| Names.CleanNotIdempotent | download.py:28 | "1. 2. x" cleans to "2. x", which cleans to "x": only one marker is removed per call |
| Names.CleanIndentedMarker | download.py:28 | a marker after leading whitespace is not removed; " 1. x" cleans to "1. x" |
| Names.CleanOrdinalExample | download.py:26-28 | "3. Tiến Về Hà Nội" cleans to "Tiến Về Hà Nội" |
| Names.CleanPaddedTrimmed | download.py:28 | blanks around an already trimmed title are all removed and nothing else is |
| Names.CleanPaddedExample | download.py:28 | "  Bài Ca Hy Vọng " cleans to "Bài Ca Hy Vọng" |
| Names.SafeFilename | download.py:30-32 | the result is no longer than the input and holds none of the nine path-illegal characters |
| Names.IsIllegal | download.py:32 | the nine characters of the deleted class: backslash, slash, `*`, `?`, `:`, `"`, `<`, `>` and the vertical bar; `Names.SafeFilenameChar` and `Names.SafeFilenameMembers` state that exactly these are deleted |
| Names.SafeFilenameAppend | download.py:32 | sanitising distributes over concatenation, so it works character by character and keeps the order |
| Names.SafeFilenameChar | download.py:32 | one character is deleted exactly when it is illegal and is kept otherwise |
| Names.SafeFilenameKeepsLegal | download.py:32 | a name without illegal characters is unchanged |
| Names.SafeFilenameIdempotent | download.py:32 | sanitising twice is the same as sanitising once |
| Names.SafeFilenameMembers | download.py:32 | a character is in the result exactly when it is in the input and is legal |
| Names.AllLegalConcat | download.py:32 | proof helper: two strings without illegal characters concatenate to one without them |
| Names.SafeFilenameDropLast | download.py:32 | a legal prefix followed by one illegal character sanitises to the prefix |
| Names.SafeFilenameDropAfter | download.py:32 | a legal piece followed by an illegal character keeps the piece and drops the character, whatever follows |
| Names.SafeFilenameDropSeparators | download.py:32 | four legal pieces separated by illegal characters sanitise to the pieces run together |
| Names.SafeFilenameExample | download.py:32 | 'A: B/C*D?' becomes 'A BCD' |
| Scoring.CountPresent | download.py:50-52 | the number of strong keywords present is at most the number of keywords |
| Scoring.ContainsAny | download.py:54-56 | `any(k in title for k in ks)`: some keyword of the list occurs in the title; `Scoring.FlatKeywordTerms` states the terms it decides |
| Scoring.StrongTerm | download.py:49-52 | −15 for each strong keyword present; `Scoring.StrongPenaltyScore` computes it with the source's loop, and `Scoring.DoublyPenalised` and `Scoring.KeywordScoreLowerBound` bound it |
| Scoring.UntrustedTerm | download.py:54-55 | one flat −10 when any untrusted keyword is present; `Scoring.FlatKeywordTerms` states both directions |
| Scoring.TrustedTerm | download.py:56-57 | one flat +8 when any trusted artist is present; `Scoring.FlatKeywordTerms` states both directions |
| Scoring.PositionBonus | download.py:61-65 | +6 for a first match at index 0, +3 for one at index 1 to 15; `Scoring.MatchTermCases` states the resulting cases |
| Scoring.MatchTerm | download.py:58-65 | +5 for a verbatim match plus the position bonus; `Scoring.MatchTermCases` states its four cases in both directions |
| Scoring.WordTerm | download.py:46-66 | +1 for each song word longer than two characters that occurs in the title, repeats included; `Scoring.WordTermAtSpace`, `Scoring.WordTermOneWord` and `Scoring.VerbatimMatchEarnsEveryWord` state its behaviour |
| Scoring.LengthTerm | download.py:67-70 | the title-length adjustment; `Scoring.LengthTermCases` states its three cases |
| Scoring.ViewTerm | download.py:71-75 | the view count, 0 when missing, divided by 500000; `Scoring.ScoreMonotoneInViews` and `Scoring.MissingViewsAddNothing` state its behaviour |
| Scoring.KeywordScore | download.py:48-70 | the integer part of the score: the keyword, match, word and length terms added up; `Scoring.KeywordScoreLowerBound` bounds it |
| Scoring.LoweredTitle | download.py:35 | `entry.get("title", "").lower()`, so a missing title counts as empty; `Scoring.ScoreSentinelIffExcluded` and `Scoring.MissingDurationNeverExcludes` state that an empty one excludes the record |
| Scoring.BoundActive | download.py:42 | a duration bound filters only when it is given and non-zero, as Python truthiness decides; `Scoring.InactiveBoundsNeverExclude` states the inactive case |
| Scoring.DurationRejected | download.py:42 | a known duration below an active minimum or above an active maximum; `Scoring.ShortRecordExcluded` is an instance and `Scoring.ScoreSentinelIffExcluded` states its effect |
| Scoring.IsExcluded | download.py:35-43 | the two early returns: an empty lowered title, or a numeric duration rejected by the bounds; `Scoring.ScoreSentinelIffExcluded` states that exactly these records get −999 |
| Scoring.StrongPenaltyScore | download.py:49-52 | the loop over the strong keywords subtracts 15 for each one present in the title, and nothing else |
| Scoring.LongWords | download.py:46 | each kept song word is longer than two characters and is one of the words |
| Scoring.WordHits | download.py:66 | the word bonus is at most the number of long words |
| Scoring.LongWordsAppend | download.py:46 | the long-word filter works word by word, keeping order and repeats |
| Scoring.LongWordsSingle | download.py:46 | one word is kept exactly when it is longer than two characters |
| Scoring.WordHitsAppend | download.py:66 | the word bonus of a list is the sum of the bonuses of its parts, so repeated words count again |
| Scoring.WordHitsSingle | download.py:66 | one word earns 1 exactly when it occurs in the title and 0 otherwise |
| Scoring.WordTermAtSpace | download.py:46-66 | the word bonus of a song name is the sum over its whitespace-separated parts |
| Scoring.WordTermOneWord | download.py:46-66 | a single song word earns 1 exactly when it is longer than two characters and occurs in the title |
| Scoring.ScoreEntry | download.py:34-76 | the imperative scorer, with its loop over the strong keywords, computes exactly `EntryScore` |
| Scoring.EntryScore | download.py:34-76 | the value of `score_entry`: the sentinel for an excluded record, otherwise the sum of the keyword, match, word, length and view terms; `Scoring.ScoreEntry` computes it, and the lemmas below state its properties |
| Scoring.KeywordScoreLowerBound | download.py:49-70 | the integer part of a score is at least −57 |
| Scoring.ScoreSentinelIffExcluded | download.py:34-76 | the score exceeds −999 exactly when the record is not excluded, and every non-excluded score is at least −57 |
| Scoring.MissingDurationNeverExcludes | download.py:40-43 | without a numeric duration a record is excluded exactly when its title is empty |
| Scoring.InactiveBoundsNeverExclude | download.py:42 | with bounds that are `None` or 0 a record is excluded exactly when its title is empty |
| Scoring.ShortRecordExcluded | download.py:42-43 | a 50-second record is excluded by bounds 120 and 300, whatever its title |
| Scoring.ScoreMonotoneInViews | download.py:71-73 | more views never lower the score |
| Scoring.MissingViewsAddNothing | download.py:71-73 | a missing or zero view count adds 0 |
| Scoring.CountPresentHit | download.py:50-52 | a keyword present in the title is counted |
| Scoring.DoublyPenalised | download.py:16-24 | "karaoke" or "cover" in a title costs at least 25, because both lists hold them |
| Scoring.FlatKeywordTerms | download.py:54-57 | the untrusted term is −10 exactly when some untrusted keyword is present and 0 otherwise; the trusted term is +8 exactly when an artist is present and 0 otherwise |
| Scoring.MatchTermCases | download.py:58-65 | the verbatim-match terms add 11 for a match at index 0, 8 for a first match at index 1 to 15, 5 for a later one and 0 without a match, in each case in both directions |
| Scoring.LengthTermCases | download.py:67-70 | +2 below 60 characters, 0 from 60 to 90 and −2 above 90 |
| Scoring.WordHitsAll | download.py:66 | a word list whose words all occur earns one point per word |
| Scoring.VerbatimMatchEarnsEveryWord | download.py:58-66 | when the whole song name occurs in the title, every long song word scores |
| Scoring.CleanLeaderBeatsPenalised | download.py:49-75 | a clean title that starts with the song name outranks a karaoke or cover title unless the latter has at least 6.5 million more views |
| Ranking.ScoreAll | download.py:157 | one candidate per record, in search order, carrying its position, its record and its score |
| Ranking.Eligible | download.py:158 | the kept candidates are exactly those scoring above −999 |
| Ranking.Insert | download.py:159 | insertion keeps the multiset of candidates |
| Ranking.SortByScore | download.py:159 | sorting is a permutation |
| Ranking.TopN | download.py:160 | the cut is the first `min(max(1, limit), len)` candidates |
| Ranking.SelectTop | download.py:157-160 | the `topn` list: the first `max(1, limit)` of the sorted non-excluded candidates. `Ranking.RankingOrdered`, `Ranking.RankingMembers`, `Ranking.RankingCutoff` and `Ranking.RankingEmptyIff` state what it holds |
| Ranking.EligibleInSearchOrder | download.py:158 | filtering keeps search order |
| Ranking.InsertRanked | download.py:159 | inserting a candidate that comes before all others in search order into a ranked list keeps it ranked |
| Ranking.SortRanked | download.py:159 | the sort orders by score descending and keeps search order among equal scores, which is the stability of `list.sort` |
| Ranking.ScoreAllInSearchOrder | download.py:157 | scored candidates are in search order |
| Ranking.RankedIsEligible | download.py:157-158 | a kept candidate is the scored record at its position, and that record is not excluded |
| Ranking.EligibleHasEvery | download.py:158 | every non-excluded record survives the filter |
| Ranking.RankingOrdered | download.py:157-160 | the selected candidates are ranked: score descending, then search order |
| Ranking.RankingMembers | download.py:157-160 | every selected candidate is a non-excluded search record with its own score |
| Ranking.CutLeavesLosers | download.py:159-160 | a ranked candidate that is not kept means the cut is full and every kept candidate precedes it |
| Ranking.RankingCutoff | download.py:157-160 | a non-excluded record left out means the selection is full and every selected candidate precedes it |
| Ranking.RankingEmptyIff | download.py:157-164 | the selection is empty exactly when every record is excluded |
| YdlOptions.ClientArgs | download.py:85-89 | extractor arguments are set exactly for the android client |
| YdlOptions.CookieSetting | download.py:90-92 | the browser is passed exactly when a non-empty name is given |
| YdlOptions.BuildSearchOpts | download.py:78-93 | audio format, no playlists, flat extraction, quiet unless verbose; the extractor arguments are the android ones exactly for the android client, and the cookie browser is set exactly for a non-empty name |
| YdlOptions.BuildDownloadOpts | download.py:95-114 | the output template is the prefix joined to the directory, with one mp3 post-processor at the requested quality; the extractor arguments and the cookie browser are set as for the search |
| YdlOptions.FallbackOpts | download.py:129-137 | the retry options pin the youtube player client to android and keep every other option |
| YdlOptions.FallbackIsAndroidDownload | download.py:129-137 | the retry options are the download options built for the android client |
| YdlOptions.FallbackDiffers | download.py:129-137 | for a non-android client the retry really uses different options |
| YdlOptions.SearchAndDownloadAgree | download.py:78-114 | the search and download options agree on format, playlists, verbosity, client and cookies |
| Download.RetryOutcome | download.py:116-141 | success exactly when the first attempt succeeds or the retry is allowed and succeeds; without a retry the first error is re-raised, after a failed retry the second error is reported with the fallback prefix |
| Download.RetryOnlyAfterFailure | download.py:118-126 | after a success or without the fallback flag the second attempt's outcome is irrelevant |
| Download.TryDownload | download.py:116-141 | makes one call, or a second one with the android options only after a failed first call with the fallback flag, and returns `RetryOutcome` of the two |
| Download.SearchQuery | download.py:146 | the `ytsearch20:` query for the song followed by the fixed genre words; `Download.SearchQueryInjective` states that different songs give different queries |
| Download.SearchQueryInjective | download.py:146 | different songs are searched with different queries |
| Download.WatchUrl | download.py:167 | the watch URL of a video id; `Download.WatchUrlInjective` states that different ids give different URLs |
| Download.WatchUrlInjective | download.py:167 | different video ids are fetched from different URLs |
| Download.DisplayTitle | download.py:168 | the record's title, or `Unknown` without one; `Download.SelectedHaveTitles` states that the default is never used for a selected candidate |
| Download.SelectedHaveTitles | download.py:157-168 | every selected candidate has a non-empty title of its own, because an empty or missing title is excluded at scoring, so `Unknown` is never displayed, written into a file name or logged |
| Download.FilenamePrefix | download.py:171 | the output template of a candidate: sanitised song, rank and sanitised title with the `.%(ext)s` placeholder. `Download.FilenamePrefixTellsRanks` and `Download.Mp3NameEndsInMp3` state its properties |
| Download.ExpectedMp3 | download.py:172 | the expected mp3 path: the template with `.mp3` in place of `.%(ext)s`, joined to the output directory; `Download.ExpectedMp3InOutputDir` states where it lies |
| Download.Mp3Name | download.py:172 | the file name part of the expected path: the template with `.mp3` in place of the placeholder; `Download.Mp3NameLegal` and `Download.Mp3NameEndsInMp3` state its properties |
| Download.Mp3NameLegal | download.py:171-172 | the expected file name holds no path-illegal character |
| Download.Mp3NameEndsInMp3 | download.py:171-172 | the expected file name ends in `.mp3`, and it is the sanitised stem plus `.mp3` when no placeholder occurs inside the names |
| Download.FilenamePrefixTellsRanks | download.py:171 | templates of different ranks differ, whatever the titles |
| Download.ExpectedMp3InOutputDir | download.py:171-172 | the expected mp3 lies directly inside the output directory, whatever the song and the title |
| Download.Attempted | download.py:174-181 | the number of candidates whose download is attempted (fetched successfully or not) is at most the number of candidates |
| Download.FailureLine | download.py:195 | the tab-separated failure record of one candidate: song, `Top` and rank, title, error. `Download.FailureLineNamesSong` and `Download.FailureLineTellsRanks` state its properties |
| Download.FailureLineTellsRanks | download.py:195 | failure records of different ranks differ, whatever the titles and errors |
| Download.IsSkipped | download.py:174 | skip-existing is on and the expected mp3 path is among the existing files; `Download.CandidateStep` and `Download.UnattemptedStep` state that such a candidate is not attempted |
| Download.CandidateStep | download.py:166-197 | a download is attempted (fetched successfully or not) exactly when the candidate is neither skipped as existing nor under dry-run; otherwise the oracle is not called |
| Download.Walk | download.py:166-197 | the candidate loop yields at most one outcome per candidate |
| Download.SongReport | download.py:143-203 | the value of `download_song`: one failure record for a search error, an empty result or an all-excluded result, otherwise the loop over the selection. `Download.DownloadSong` computes it, and the lemmas below state its properties |
| Download.ScoreCandidates | download.py:157 | the scoring loop computes `ScoreAll` |
| Download.HandleCandidate | download.py:166-197 | one turn of the candidate loop computes `CandidateStep` |
| Download.WalkCandidates | download.py:166-197 | the candidate loop computes `Walk` over the selection |
| Download.DownloadSong | download.py:143-203 | `download_song` returns `SongReport`, and its failure count is the length of its failure list |
| Download.WalkAccounting | download.py:166-197 | successes plus failure records equal the number of candidates really attempted |
| Download.DryRunCountsNothing | download.py:179-181 | under dry-run the loop counts nothing |
| Download.UnattemptedIgnoresFetch | download.py:174-181 | when no candidate is attempted the download oracle is never consulted and nothing is counted |
| Download.UnattemptedStep | download.py:174-181 | a skipped or dry-run candidate does not consult the download oracle |
| Download.WalkLinesNameSong | download.py:195-197 | every per-candidate failure record starts with the song, a tab and `Top` |
| Download.FailureLineNamesSong | download.py:195 | a download failure record starts with the song, a tab and `Top` |
| Download.StepLineNamesSong | download.py:194-197 | a failed step's record starts with the song, a tab and `Top` |
| Download.SongReportShortCircuits | download.py:143-203 | a search error, an empty result and an all-excluded result each give no success and exactly one failure naming the song |
| Download.SelectTopBounded | download.py:160 | at most `max(1, limit)` candidates are selected |
| Download.SongReportBounded | download.py:143-203 | a song yields at most `max(1, limit)` successes and failures together |
| Download.SongReportLinesNameSong | download.py:143-203 | every failure record of a song starts with the song name and a tab |
| Download.EveryCandidateAttempted | download.py:174-181 | without skip-existing and dry-run every selected candidate is attempted |
| Batch.FilterMap | download.py:240 | a filtered and mapped list is no longer than its source |
| Batch.FilterMapComplete | download.py:240 | every kept element's image is in the result |
| Batch.FilterMapSource | download.py:240 | every result element is the image of a kept source element |
| Batch.FilterMapAppend | download.py:240 | the comprehension works element by element: the result for two blocks is the two results in order |
| Batch.FilterMapSingle | download.py:240 | one element contributes its image exactly when it is kept |
| Batch.NonBlank | download.py:240 | the `if line.strip()` filter: the stripped line is non-empty; `Batch.BatchSongsLine` and `Batch.BlankLineIgnored` state which lines it drops |
| Batch.BatchSongs | download.py:239-240 | there are no more songs than lines |
| Batch.BatchSongsComplete | download.py:240 | the cleaned form of every non-blank line is in the song list |
| Batch.BatchSongsSource | download.py:240 | every song is the cleaned form of some non-blank line, and it is trimmed |
| Batch.BatchSongsAppend | download.py:240 | the song list of two blocks of lines is the two song lists, in order |
| Batch.BatchSongsLine | download.py:240 | one line gives its cleaned name, or nothing when it is blank |
| Batch.RepeatedLineRepeatedSong | download.py:240-260 | a line listed twice gives the song twice, so it is submitted twice |
| Batch.BlankLineIgnored | download.py:240 | a blank line adds no song |
| Batch.MarkerOnlyLineGivesEmptySong | download.py:240 | a line holding only "7." passes the blank-line filter and yields the empty song name |
| Batch.Add | download.py:263-271 | one turn of the tally loop: a completed song adds its counts and failure lines, an exception adds one failure and one line |
| Batch.Tally | download.py:262-271 | the totals after the results have been tallied in this order; `Batch.TallyRuns` computes it |
| Batch.TallyRuns | download.py:262-271 | the tally loop computes `Tally` of the results in completion order |
| Batch.TallyAppend | download.py:262-271 | the tally of two batches of results is the sum of their tallies |
| Batch.AddIsJoin | download.py:263-271 | proof helper: adding one result is joining the tally of that result alone |
| Batch.TallyMoveToEnd | download.py:262-271 | moving one result to the end of the completion order keeps the counts and the multiset of failure lines |
| Batch.SameTotalsAdd | download.py:263-271 | proof helper: adding the same result to equal totals gives equal totals |
| Batch.JoinSwap | download.py:262-271 | proof helper: joining totals commutes, up to the order of the logged lines |
| Batch.RemoveMatching | download.py:262 | proof helper: removing matching elements from two permutations of each other leaves permutations |
| Batch.TallyOrderIndependent | download.py:262-271 | any completion order gives the same counts and the same failure lines as a multiset |
| Batch.TallyFailedIsLedgerLength | download.py:264-271 | when every completed song reports consistently, the failure total equals the number of logged lines |
| Batch.RunOf | download.py:203 | the `(successes, len(failures), failures)` triple a song hands to the tally; `Batch.SongRunWithinLimit` states that it is consistent and within the limit |
| Batch.SongRunWithinLimit | download.py:203 | a song's returned result is consistent and within `max(1, limit)` |
| Batch.TallyBounded | download.py:262-271 | `n` results within the limit give at most `n * max(1, limit)` outcomes |

## Left out

- Python's Unicode `lower()`, `\s`/`split()`/`strip()` and `\d` are stood in for by ASCII case folding, the six C-locale whitespace characters and the ASCII digits. Python also treats `\x1c`-`\x1f` and the Unicode spaces as whitespace; those, and all other Unicode tables, are not modelled.
- The view-count term uses exact `real` division instead of IEEE `float`. A view count is a natural number or absent. A non-numeric value, which the source swallows with `try/except`, is not modelled.
- A duration is a number or absent. A non-numeric duration counts as absent, as `isinstance` does. The bounds are `int` values, active when present and non-zero.
- A title that is present but JSON `null` makes `entry.get("title", "").lower()` raise in the source. The model has only absent or string titles, and an absent title is the empty string.
- The yt_dlp calls `extract_info` and `download` are oracles, and the files on disk are a set of paths. `os.makedirs` and the reading of `list.txt` are not modelled. The list arrives as a sequence of lines.
- The writing of `failures.log` and all `print` output, including `{score:.1f}` and the verbose messages, are not modelled.
- The worker pool and `as_completed` are not modelled. The tally is stated for any order of results, and `Batch.TallyOrderIndependent` shows that the order does not matter.
- argparse parsing and the single-song mode of `main` are not modelled.
- An exception raised inside the candidate loop by anything other than `try_download` is not modelled, for example a record without an `id`. The source would catch it in the outer handler after the earlier candidates had already been counted.
- The in-place update of the nested `extractor_args` dictionary in `try_download` is modelled as building a new value. The aliasing cannot be observed: the options are built fresh for each candidate, and with the android client no retry happens.
- The `Raised` result of the batch stands for an exception escaping `download_song` outside its own handler, for example when the search client cannot be built. Its message is a parameter.
