/**
 * `try_download` and `download_song` of download.py: one search, the
 * ranking of its results, and a walk over the top candidates that skips
 * existing files, simulates under dry-run, or downloads with one android
 * retry, counting successes and recording failures.
 *
 * The media library is an oracle: `search` gives the outcome of the search
 * call for a query and its options, `fetch` the outcome of a download call
 * for a URL and its options, and `existing` is the set of paths already on
 * disk.
 */
module Download {
  import opened Wrappers
  import opened Text
  import opened Names
  import opened Scoring
  import opened Ranking
  import opened YdlOptions

  /** The outcome of one download call: done, or the text of the exception it raised. */
  datatype Attempt = Downloaded | Failed(message: string)

  /** The message of the `RuntimeError` raised when the android retry fails too. */
  const FallbackFailurePrefix: string := "Tải thất bại sau khi thử fallback android: "

  /**
   * The outcome of `try_download` given the outcomes its two attempts
   * would have. The second one matters only after a failed first attempt
   * with `fallback_android` set, and its error is the one reported.
   */
  function RetryOutcome(first: Attempt, second: Attempt, fallbackAndroid: bool): (r: Attempt)
    ensures r.Downloaded? <==> first.Downloaded? || (fallbackAndroid && second.Downloaded?)
    ensures r.Failed? && !fallbackAndroid ==> r == first
    ensures r.Failed? && fallbackAndroid ==> r.message == FallbackFailurePrefix + second.message
  {
    if first.Downloaded? then Downloaded
    else if !fallbackAndroid then first
    else if second.Downloaded? then Downloaded
    else Failed(FallbackFailurePrefix + second.message)
  }

  /** No second attempt is made after a success or without the fallback flag: its outcome is irrelevant. */
  lemma RetryOnlyAfterFailure(first: Attempt, second: Attempt, other: Attempt, fallbackAndroid: bool)
    requires first.Downloaded? || !fallbackAndroid
    ensures RetryOutcome(first, second, fallbackAndroid) == RetryOutcome(first, other, fallbackAndroid)
  {
  }

  /**
   * `try_download(url, base_opts, fallback_android)`: returns the outcome
   * and the options of every download call made, in order.
   */
  method TryDownload(url: string, baseOpts: DownloadOpts, fallbackAndroid: bool, fetch: (string, DownloadOpts) -> Attempt)
    returns (outcome: Attempt, tried: seq<DownloadOpts>)
    ensures tried == if fetch(url, baseOpts).Downloaded? || !fallbackAndroid then [baseOpts]
                     else [baseOpts, FallbackOpts(baseOpts)]
    ensures outcome == RetryOutcome(fetch(url, baseOpts), fetch(url, FallbackOpts(baseOpts)), fallbackAndroid)
  {
    var first := fetch(url, baseOpts);
    tried := [baseOpts];
    if first.Downloaded? {
      return Downloaded, tried;
    }
    if !fallbackAndroid {
      return first, tried;
    }
    var fallback := FallbackOpts(baseOpts);
    tried := tried + [fallback];
    var second := fetch(url, fallback);
    if second.Downloaded? {
      outcome := Downloaded;
    } else {
      outcome := Failed(FallbackFailurePrefix + second.message);
    }
  }

  // ---------------------------------------------------------------------
  // download_song

  /** The parameters of `download_song` other than the song name. */
  datatype SongSettings = SongSettings(
    limit: int,
    outputDir: string,
    quality: int,
    verbose: bool,
    client: string,
    cookiesFromBrowser: Option<string>,
    skipExisting: bool,
    dryRun: bool,
    minDuration: Option<int>,
    maxDuration: Option<int>)

  /** The outcome of the search call: its records, or the text of the exception it raised. */
  datatype SearchOutcome = SearchFailed(message: string) | Found(entries: seq<Entry>)

  /** `(successes, failures)` of `download_song`; its middle result is `|failures|`. */
  datatype Report = Report(successes: nat, failures: seq<string>)

  const NoResultsMessage: string := "Không tìm thấy kết quả"
  const NoCandidatesMessage: string := "Không có ứng viên hợp lệ"

  function SearchQuery(song: string): string
  {
    "ytsearch20:" + song + " nhạc cách mạng"
  }

  function WatchUrl(id: string): string
  {
    "https://www.youtube.com/watch?v=" + id
  }

  /** `e.get("title", "Unknown")`. */
  function DisplayTitle(e: Entry): string
  {
    e.title.GetOr("Unknown")
  }

  /** Different songs are searched with different queries. */
  lemma SearchQueryInjective(a: string, b: string)
    ensures SearchQuery(a) == SearchQuery(b) ==> a == b
  {
    if SearchQuery(a) == SearchQuery(b) {
      var n := |"ytsearch20:"|;
      assert |a| == |b|;
      assert SearchQuery(a)[n..n + |a|] == a;
      assert SearchQuery(b)[n..n + |b|] == b;
    }
  }

  /** Different video ids are fetched from different URLs. */
  lemma WatchUrlInjective(a: string, b: string)
    ensures WatchUrl(a) == WatchUrl(b) ==> a == b
  {
    var n := |"https://www.youtube.com/watch?v="|;
    assert WatchUrl(a)[n..] == a;
    assert WatchUrl(b)[n..] == b;
  }

  /** A selected candidate always has a non-empty title of its own, so the `"Unknown"` default is never shown. */
  lemma SelectedHaveTitles(entries: seq<Entry>, song: string, minDuration: Option<int>, maxDuration: Option<int>, limit: int, i: nat)
    requires i < |SelectTop(entries, song, minDuration, maxDuration, limit)|
    ensures var e := SelectTop(entries, song, minDuration, maxDuration, limit)[i].entry;
      e.title.Some? && e.title.value != [] && DisplayTitle(e) == e.title.value
  {
    RankingMembers(entries, song, minDuration, maxDuration, limit, i);
  }

  /** The output template of the candidate ranked `idx`. */
  function FilenamePrefix(song: string, idx: nat, title: string): string
  {
    SafeFilename(song) + " - Top" + NatToString(idx) + " - " + SafeFilename(title) + ".%(ext)s"
  }

  /** The mp3 file the candidate's download produces. */
  function ExpectedMp3(outputDir: string, prefix: string): string
  {
    PathJoin(outputDir, ReplaceAll(prefix, ".%(ext)s", ".mp3"))
  }

  /** The file name part of the expected mp3 path. */
  function Mp3Name(song: string, idx: nat, title: string): string
  {
    ReplaceAll(FilenamePrefix(song, idx, title), ".%(ext)s", ".mp3")
  }

  /** The file name holds no path-illegal character, whatever the song and the title. */
  lemma Mp3NameLegal(song: string, idx: nat, title: string)
    ensures forall c :: c in Mp3Name(song, idx, title) ==> !IsIllegal(c)
  {
    var prefix := FilenamePrefix(song, idx, title);
    var a, d, b := SafeFilename(song), NatToString(idx), SafeFilename(title);
    assert AllLegal(" - Top") && AllLegal(" - ") && AllLegal(".%(ext)s");
    AllLegalConcat(a, " - Top");
    AllLegalConcat(a + " - Top", d);
    AllLegalConcat(a + " - Top" + d, " - ");
    AllLegalConcat(a + " - Top" + d + " - ", b);
    AllLegalConcat(a + " - Top" + d + " - " + b, ".%(ext)s");
    assert AllLegal(prefix);
    forall c | c in Mp3Name(song, idx, title) ensures !IsIllegal(c) {
      ReplaceAllChars(prefix, ".%(ext)s", ".mp3", c);
    }
  }

  /** The `.%(ext)s` at the end of the template becomes `.mp3`, after any inside the names are replaced too. */
  lemma Mp3NameEndsInMp3(song: string, idx: nat, title: string)
    ensures var stem := SafeFilename(song) + " - Top" + NatToString(idx) + " - " + SafeFilename(title);
      && Mp3Name(song, idx, title) == ReplaceAll(stem, ".%(ext)s", ".mp3") + ".mp3"
      && ((forall j: nat :: !OccursAt(stem, ".%(ext)s", j)) ==> Mp3Name(song, idx, title) == stem + ".mp3")
  {
    var stem := SafeFilename(song) + " - Top" + NatToString(idx) + " - " + SafeFilename(title);
    assert LeadUnique(".%(ext)s");
    ReplaceAllAtEnd(stem, ".%(ext)s", ".mp3");
    ReplaceAllNoOccurrence(stem, ".%(ext)s", ".mp3");
  }

  /** Templates of different ranks differ, whatever the titles. */
  lemma FilenamePrefixTellsRanks(song: string, m: nat, n: nat, t1: string, t2: string)
    ensures FilenamePrefix(song, m, t1) == FilenamePrefix(song, n, t2) ==> m == n
  {
    var lead := SafeFilename(song) + " - Top";
    var u, v := " - " + SafeFilename(t1) + ".%(ext)s", " - " + SafeFilename(t2) + ".%(ext)s";
    assert FilenamePrefix(song, m, t1) == lead + NatToString(m) + u;
    assert FilenamePrefix(song, n, t2) == lead + NatToString(n) + v;
    if FilenamePrefix(song, m, t1) == FilenamePrefix(song, n, t2) {
      RankReadBack(lead, m, u, n, v);
    }
  }

  /** The expected mp3 always lies directly inside the output directory. */
  lemma ExpectedMp3InOutputDir(outputDir: string, song: string, idx: nat, title: string)
    ensures var name := Mp3Name(song, idx, title);
      && (forall k :: 0 <= k < |name| ==> name[k] != '/')
      && ExpectedMp3(outputDir, FilenamePrefix(song, idx, title))
         == if outputDir == [] || outputDir[|outputDir| - 1] == '/' then outputDir + name else outputDir + "/" + name
  {
    var name := Mp3Name(song, idx, title);
    Mp3NameLegal(song, idx, title);
    forall k | 0 <= k < |name| ensures name[k] != '/' {
      assert name[k] in name;
    }
  }

  /** A per-candidate failure record: song, rank, title and error, tab separated. */
  function FailureLine(song: string, idx: nat, title: string, message: string): string
  {
    song + "\tTop" + NatToString(idx) + "\t" + title + "\t" + message
  }

  /** Failure records of different ranks differ, whatever the titles and errors. */
  lemma FailureLineTellsRanks(song: string, m: nat, n: nat, t1: string, t2: string, e1: string, e2: string)
    ensures FailureLine(song, m, t1, e1) == FailureLine(song, n, t2, e2) ==> m == n
  {
    var lead := song + "\tTop";
    var u, v := "\t" + t1 + "\t" + e1, "\t" + t2 + "\t" + e2;
    assert FailureLine(song, m, t1, e1) == lead + NatToString(m) + u;
    assert FailureLine(song, n, t2, e2) == lead + NatToString(n) + v;
    if FailureLine(song, m, t1, e1) == FailureLine(song, n, t2, e2) {
      RankReadBack(lead, m, u, n, v);
    }
  }

  /** What happens to one ranked candidate. */
  datatype Step = Skipped | Simulated | Fetched | FetchFailed(line: string)

  /** The candidate is skipped because its file is already there. */
  predicate IsSkipped(song: string, s: SongSettings, idx: nat, c: Candidate, existing: set<string>)
  {
    s.skipExisting && ExpectedMp3(s.outputDir, FilenamePrefix(song, idx, DisplayTitle(c.entry))) in existing
  }

  /** One turn of the candidate loop for the candidate ranked `idx` (1-based). */
  function CandidateStep(song: string, s: SongSettings, idx: nat, c: Candidate, existing: set<string>, fetch: (string, DownloadOpts) -> Attempt): (r: Step)
    ensures (r.Fetched? || r.FetchFailed?) <==> !IsSkipped(song, s, idx, c, existing) && !s.dryRun
  {
    var title := DisplayTitle(c.entry);
    var prefix := FilenamePrefix(song, idx, title);
    if IsSkipped(song, s, idx, c, existing) then Skipped
    else if s.dryRun then Simulated
    else
      var opts := BuildDownloadOpts(s.outputDir, prefix, s.quality, s.verbose, s.client, s.cookiesFromBrowser);
      var url := WatchUrl(c.entry.id);
      var outcome := RetryOutcome(fetch(url, opts), fetch(url, FallbackOpts(opts)), s.client != Android);
      if outcome.Downloaded? then Fetched else FetchFailed(FailureLine(song, idx, title, outcome.message))
  }

  /** The counts after the candidate loop has handled `cands` (ranks 1 to `|cands|`). */
  function Walk(song: string, s: SongSettings, cands: seq<Candidate>, existing: set<string>, fetch: (string, DownloadOpts) -> Attempt): (r: Report)
    ensures r.successes + |r.failures| <= |cands|
    decreases |cands|
  {
    if cands == [] then Report(0, [])
    else
      var prev := Walk(song, s, cands[..|cands| - 1], existing, fetch);
      match CandidateStep(song, s, |cands|, cands[|cands| - 1], existing, fetch)
      case Fetched => Report(prev.successes + 1, prev.failures)
      case FetchFailed(line) => Report(prev.successes, prev.failures + [line])
      case _ => prev
  }

  /** Number of candidates the loop really downloads: neither skipped nor under dry-run. */
  function Attempted(song: string, s: SongSettings, cands: seq<Candidate>, existing: set<string>): (n: nat)
    ensures n <= |cands|
    decreases |cands|
  {
    if cands == [] then 0
    else
      var here := if IsSkipped(song, s, |cands|, cands[|cands| - 1], existing) || s.dryRun then 0 else 1;
      Attempted(song, s, cands[..|cands| - 1], existing) + here
  }

  /** The `(successes, failures)` that `download_song(song, ...)` returns. */
  function SongReport(song: string, s: SongSettings, search: (string, SearchOpts) -> SearchOutcome, existing: set<string>, fetch: (string, DownloadOpts) -> Attempt): Report
  {
    match search(SearchQuery(song), BuildSearchOpts(s.verbose, s.client, s.cookiesFromBrowser))
    case SearchFailed(message) => Report(0, [song + "\t" + message])
    case Found(entries) =>
      if entries == [] then Report(0, [song + "\t" + NoResultsMessage])
      else
        var top := SelectTop(entries, song, s.minDuration, s.maxDuration, s.limit);
        if top == [] then Report(0, [song + "\t" + NoCandidatesMessage])
        else Walk(song, s, top, existing, fetch)
  }

  /** The scoring loop of `download_song`: each record scored and tagged with its search position. */
  method ScoreCandidates(entries: seq<Entry>, song: string, minDuration: Option<int>, maxDuration: Option<int>)
    returns (scored: seq<Candidate>)
    ensures scored == ScoreAll(entries, song, minDuration, maxDuration)
  {
    scored := [];
    var p := 0;
    while p < |entries|
      invariant 0 <= p <= |entries| && |scored| == p
      invariant forall q :: 0 <= q < p ==>
        scored[q] == Candidate(EntryScore(entries[q], song, minDuration, maxDuration), q, entries[q])
    {
      var score := ScoreEntry(entries[p], song, minDuration, maxDuration);
      scored := scored + [Candidate(score, p, entries[p])];
      p := p + 1;
    }
  }

  /** One turn of the candidate loop, for the candidate ranked `idx`. */
  method HandleCandidate(song: string, s: SongSettings, idx: nat, c: Candidate, existing: set<string>, fetch: (string, DownloadOpts) -> Attempt)
    returns (step: Step)
    ensures step == CandidateStep(song, s, idx, c, existing, fetch)
  {
    var title := DisplayTitle(c.entry);
    var prefix := FilenamePrefix(song, idx, title);
    var expected := ExpectedMp3(s.outputDir, prefix);
    if s.skipExisting && expected in existing {
      return Skipped;
    }
    if s.dryRun {
      return Simulated;
    }
    var opts := BuildDownloadOpts(s.outputDir, prefix, s.quality, s.verbose, s.client, s.cookiesFromBrowser);
    var outcome, _ := TryDownload(WatchUrl(c.entry.id), opts, s.client != Android, fetch);
    if outcome.Downloaded? {
      step := Fetched;
    } else {
      step := FetchFailed(FailureLine(song, idx, title, outcome.message));
    }
  }

  /** `Walk` over one more candidate of `cands`, in terms of that candidate's step. */
  lemma WalkPrefix(song: string, s: SongSettings, cands: seq<Candidate>, i: nat, existing: set<string>, fetch: (string, DownloadOpts) -> Attempt)
    requires i < |cands|
    ensures var prev := Walk(song, s, cands[..i], existing, fetch);
      var step := CandidateStep(song, s, i + 1, cands[i], existing, fetch);
      Walk(song, s, cands[..i + 1], existing, fetch)
        == if step.Fetched? then Report(prev.successes + 1, prev.failures)
           else if step.FetchFailed? then Report(prev.successes, prev.failures + [step.line])
           else prev
  {
    assert cands[..i + 1][..i] == cands[..i];
    assert cands[..i + 1][i] == cands[i];
  }

  /** The candidate loop of `download_song` over the ranked candidates. */
  method WalkCandidates(song: string, s: SongSettings, top: seq<Candidate>, existing: set<string>, fetch: (string, DownloadOpts) -> Attempt)
    returns (successes: nat, failures: seq<string>)
    ensures Report(successes, failures) == Walk(song, s, top, existing, fetch)
  {
    successes, failures := 0, [];
    var i := 0;
    while i < |top|
      invariant 0 <= i <= |top|
      invariant Report(successes, failures) == Walk(song, s, top[..i], existing, fetch)
    {
      WalkPrefix(song, s, top, i, existing, fetch);
      var step := HandleCandidate(song, s, i + 1, top[i], existing, fetch);
      if step.Fetched? {
        successes := successes + 1;
      } else if step.FetchFailed? {
        failures := failures + [step.line];
      }
      i := i + 1;
    }
    assert top[..i] == top;
  }

  /** `download_song(song, ...)`: returns `(successes, len(failures), failures)`. */
  method DownloadSong(song: string, s: SongSettings, search: (string, SearchOpts) -> SearchOutcome, existing: set<string>, fetch: (string, DownloadOpts) -> Attempt)
    returns (successes: nat, failureCount: nat, failures: seq<string>)
    ensures failureCount == |failures|
    ensures Report(successes, failures) == SongReport(song, s, search, existing, fetch)
  {
    var info := search(SearchQuery(song), BuildSearchOpts(s.verbose, s.client, s.cookiesFromBrowser));
    if info.SearchFailed? {
      return 0, 1, [song + "\t" + info.message];
    }
    if info.entries == [] {
      return 0, 1, [song + "\t" + NoResultsMessage];
    }
    var scored := ScoreCandidates(info.entries, song, s.minDuration, s.maxDuration);
    var top := TopN(SortByScore(Eligible(scored)), s.limit);
    assert top == SelectTop(info.entries, song, s.minDuration, s.maxDuration, s.limit);
    if top == [] {
      return 0, 1, [song + "\t" + NoCandidatesMessage];
    }
    successes, failures := WalkCandidates(song, s, top, existing, fetch);
    failureCount := |failures|;
  }

  // ---------------------------------------------------------------------
  // What the per-song accounting promises

  /**
   * Skipped and dry-run candidates add to neither count; every real
   * attempt adds exactly one success or one failure record.
   */
  lemma {:induction false} WalkAccounting(song: string, s: SongSettings, cands: seq<Candidate>, existing: set<string>, fetch: (string, DownloadOpts) -> Attempt)
    ensures Walk(song, s, cands, existing, fetch).successes + |Walk(song, s, cands, existing, fetch).failures|
         == Attempted(song, s, cands, existing)
    decreases |cands|
  {
    if cands != [] {
      WalkAccounting(song, s, cands[..|cands| - 1], existing, fetch);
    }
  }

  /** Under dry-run nothing is fetched and nothing is counted. */
  lemma {:induction false} DryRunCountsNothing(song: string, s: SongSettings, cands: seq<Candidate>, existing: set<string>, fetch: (string, DownloadOpts) -> Attempt)
    requires s.dryRun
    ensures Walk(song, s, cands, existing, fetch) == Report(0, [])
    decreases |cands|
  {
    if cands != [] {
      DryRunCountsNothing(song, s, cands[..|cands| - 1], existing, fetch);
    }
  }

  /** When no candidate is attempted, the download oracle is never consulted. */
  lemma {:induction false} UnattemptedIgnoresFetch(song: string, s: SongSettings, cands: seq<Candidate>, existing: set<string>,
                                                   fetch: (string, DownloadOpts) -> Attempt, other: (string, DownloadOpts) -> Attempt)
    requires Attempted(song, s, cands, existing) == 0
    ensures Walk(song, s, cands, existing, fetch) == Walk(song, s, cands, existing, other) == Report(0, [])
    decreases |cands|
  {
    if cands != [] {
      UnattemptedIgnoresFetch(song, s, cands[..|cands| - 1], existing, fetch, other);
    }
  }

  /** A skipped or dry-run candidate never consults the download oracle. */
  lemma UnattemptedStep(song: string, s: SongSettings, idx: nat, c: Candidate, existing: set<string>,
                        fetch: (string, DownloadOpts) -> Attempt, other: (string, DownloadOpts) -> Attempt)
    requires IsSkipped(song, s, idx, c, existing) || s.dryRun
    ensures CandidateStep(song, s, idx, c, existing, fetch) == CandidateStep(song, s, idx, c, existing, other)
    ensures CandidateStep(song, s, idx, c, existing, fetch) == if IsSkipped(song, s, idx, c, existing) then Skipped else Simulated
  {
  }

  /** Every failure record of the loop names the song first, then the rank. */
  lemma {:induction false} WalkLinesNameSong(song: string, s: SongSettings, cands: seq<Candidate>, existing: set<string>, fetch: (string, DownloadOpts) -> Attempt)
    ensures forall k :: 0 <= k < |Walk(song, s, cands, existing, fetch).failures| ==>
      StartsWith(Walk(song, s, cands, existing, fetch).failures[k], song + "\t" + "Top")
    decreases |cands|
  {
    if cands != [] {
      WalkLinesNameSong(song, s, cands[..|cands| - 1], existing, fetch);
      StepLineNamesSong(song, s, |cands|, cands[|cands| - 1], existing, fetch);
    }
  }

  /** A failure record starts with the song, a tab and `Top`. */
  lemma FailureLineNamesSong(song: string, idx: nat, title: string, message: string)
    ensures StartsWith(FailureLine(song, idx, title, message), song + "\t" + "Top")
  {
    var rest := NatToString(idx) + "\t" + title + "\t" + message;
    assert FailureLine(song, idx, title, message) == (song + "\t" + "Top") + rest;
    StartsWithConcat(song + "\t" + "Top", rest);
  }

  /** The failure record of one candidate starts with the song, a tab and `Top`. */
  lemma StepLineNamesSong(song: string, s: SongSettings, idx: nat, c: Candidate, existing: set<string>, fetch: (string, DownloadOpts) -> Attempt)
    ensures CandidateStep(song, s, idx, c, existing, fetch).FetchFailed? ==>
      StartsWith(CandidateStep(song, s, idx, c, existing, fetch).line, song + "\t" + "Top")
  {
    var step := CandidateStep(song, s, idx, c, existing, fetch);
    if step.FetchFailed? {
      var title := DisplayTitle(c.entry);
      var opts := BuildDownloadOpts(s.outputDir, FilenamePrefix(song, idx, title), s.quality, s.verbose, s.client, s.cookiesFromBrowser);
      var url := WatchUrl(c.entry.id);
      var outcome := RetryOutcome(fetch(url, opts), fetch(url, FallbackOpts(opts)), s.client != Android);
      assert step.line == FailureLine(song, idx, title, outcome.message);
      FailureLineNamesSong(song, idx, title, outcome.message);
    }
  }

  /** The search error, the empty result and the all-excluded result each give one failure and no success. */
  lemma SongReportShortCircuits(song: string, s: SongSettings, search: (string, SearchOpts) -> SearchOutcome, existing: set<string>, fetch: (string, DownloadOpts) -> Attempt)
    ensures var info := search(SearchQuery(song), BuildSearchOpts(s.verbose, s.client, s.cookiesFromBrowser));
      && (info.SearchFailed? ==> SongReport(song, s, search, existing, fetch) == Report(0, [song + "\t" + info.message]))
      && (info == Found([]) ==> SongReport(song, s, search, existing, fetch) == Report(0, [song + "\t" + NoResultsMessage]))
      && (info.Found? && info.entries != []
          && (forall p :: 0 <= p < |info.entries| ==> IsExcluded(info.entries[p], s.minDuration, s.maxDuration))
          ==> SongReport(song, s, search, existing, fetch) == Report(0, [song + "\t" + NoCandidatesMessage]))
  {
    var info := search(SearchQuery(song), BuildSearchOpts(s.verbose, s.client, s.cookiesFromBrowser));
    if info.Found? {
      RankingEmptyIff(info.entries, song, s.minDuration, s.maxDuration, s.limit);
    }
  }

  /** The selected candidates number at most `max(1, limit)`. */
  lemma SelectTopBounded(entries: seq<Entry>, song: string, minDuration: Option<int>, maxDuration: Option<int>, limit: int)
    ensures |SelectTop(entries, song, minDuration, maxDuration, limit)| <= Max(1, limit)
  {
  }

  /** A song never yields more outcomes than `max(1, limit)`. */
  lemma SongReportBounded(song: string, s: SongSettings, search: (string, SearchOpts) -> SearchOutcome, existing: set<string>, fetch: (string, DownloadOpts) -> Attempt)
    ensures SongReport(song, s, search, existing, fetch).successes + |SongReport(song, s, search, existing, fetch).failures| <= Max(1, s.limit)
  {
    var info := search(SearchQuery(song), BuildSearchOpts(s.verbose, s.client, s.cookiesFromBrowser));
    if info.Found? && info.entries != [] {
      var top := SelectTop(info.entries, song, s.minDuration, s.maxDuration, s.limit);
      if top != [] {
        SelectTopBounded(info.entries, song, s.minDuration, s.maxDuration, s.limit);
        WalkAccounting(song, s, top, existing, fetch);
      }
    }
  }

  /** Every failure record of a song starts with the song name and a tab. */
  lemma SongReportLinesNameSong(song: string, s: SongSettings, search: (string, SearchOpts) -> SearchOutcome, existing: set<string>, fetch: (string, DownloadOpts) -> Attempt)
    ensures forall k :: 0 <= k < |SongReport(song, s, search, existing, fetch).failures| ==>
      StartsWith(SongReport(song, s, search, existing, fetch).failures[k], song + "\t")
  {
    var info := search(SearchQuery(song), BuildSearchOpts(s.verbose, s.client, s.cookiesFromBrowser));
    var r := SongReport(song, s, search, existing, fetch);
    if info.SearchFailed? {
      assert r.failures == [song + "\t" + info.message];
      StartsWithConcat(song + "\t", info.message);
    } else if info.entries == [] {
      assert r.failures == [song + "\t" + NoResultsMessage];
      StartsWithConcat(song + "\t", NoResultsMessage);
    } else {
      var top := SelectTop(info.entries, song, s.minDuration, s.maxDuration, s.limit);
      if top == [] {
        assert r.failures == [song + "\t" + NoCandidatesMessage];
        StartsWithConcat(song + "\t", NoCandidatesMessage);
      } else {
        assert r == Walk(song, s, top, existing, fetch);
        WalkLinesNameSong(song, s, top, existing, fetch);
        AllStartWithShorter(r.failures, song + "\t", "Top");
      }
    }
  }

  /** Without skip-existing and dry-run, every ranked candidate is attempted. */
  lemma {:induction false} EveryCandidateAttempted(song: string, s: SongSettings, cands: seq<Candidate>, existing: set<string>)
    requires !s.skipExisting && !s.dryRun
    ensures Attempted(song, s, cands, existing) == |cands|
    decreases |cands|
  {
    if cands != [] {
      EveryCandidateAttempted(song, s, cands[..|cands| - 1], existing);
    }
  }
}
