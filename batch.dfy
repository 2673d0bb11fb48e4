/**
 * The list mode of `main` in download.py: the song list read from the
 * lines of the list file, and the tally of the per-song results as they
 * complete.
 *
 * The worker pool delivers the results in an order the model does not
 * fix; the tally is therefore stated for any order and proved to depend
 * only on the multiset of results.
 */
module Batch {
  import opened Text
  import opened Names
  import opened Ranking
  import opened YdlOptions
  import opened Download

  /** `[f(x) for x in xs if keep(x)]`. */
  function FilterMap<T, U>(xs: seq<T>, keep: T -> bool, f: T -> U): (ys: seq<U>)
    ensures |ys| <= |xs|
    decreases |xs|
  {
    if xs == [] then []
    else
      var rest := FilterMap(xs[..|xs| - 1], keep, f);
      if keep(xs[|xs| - 1]) then rest + [f(xs[|xs| - 1])] else rest
  }

  /** Every kept element contributes its image. */
  lemma {:induction false} FilterMapComplete<T, U>(xs: seq<T>, keep: T -> bool, f: T -> U, k: nat)
    requires k < |xs| && keep(xs[k])
    ensures f(xs[k]) in FilterMap(xs, keep, f)
    decreases |xs|
  {
    var n := |xs| - 1;
    if k < n {
      FilterMapComplete(xs[..n], keep, f, k);
      assert xs[..n][k] == xs[k];
    }
  }

  /** Every element of the result is the image of a kept element. */
  lemma {:induction false} FilterMapSource<T, U>(xs: seq<T>, keep: T -> bool, f: T -> U, i: nat) returns (k: nat)
    requires i < |FilterMap(xs, keep, f)|
    ensures k < |xs| && keep(xs[k]) && FilterMap(xs, keep, f)[i] == f(xs[k])
    decreases |xs|
  {
    var n := |xs| - 1;
    var rest := FilterMap(xs[..n], keep, f);
    if i < |rest| {
      k := FilterMapSource(xs[..n], keep, f, i);
      assert xs[..n][k] == xs[k];
    } else {
      k := n;
    }
  }

  /** The comprehension works element by element: order and repeats are kept. */
  lemma {:induction false} FilterMapAppend<T, U>(xs: seq<T>, ys: seq<T>, keep: T -> bool, f: T -> U)
    ensures FilterMap(xs + ys, keep, f) == FilterMap(xs, keep, f) + FilterMap(ys, keep, f)
    decreases |ys|
  {
    if ys == [] {
      assert xs + ys == xs;
    } else {
      var n := |ys| - 1;
      assert (xs + ys)[..|xs + ys| - 1] == xs + ys[..n];
      assert (xs + ys)[|xs + ys| - 1] == ys[n];
      FilterMapAppend(xs, ys[..n], keep, f);
    }
  }

  /** One element contributes its image exactly when it is kept. */
  lemma FilterMapSingle<T, U>(x: T, keep: T -> bool, f: T -> U)
    ensures FilterMap([x], keep, f) == if keep(x) then [f(x)] else []
  {
    assert [x][..0] == [];
  }

  /** `line.strip()` is not empty. */
  predicate NonBlank(line: string)
  {
    Trim(line) != []
  }

  /** The song list: each non-blank line, cleaned. */
  function BatchSongs(lines: seq<string>): (songs: seq<string>)
    ensures |songs| <= |lines|
  {
    FilterMap(lines, NonBlank, CleanSongName)
  }

  /** Every non-blank line contributes its cleaned name. */
  lemma BatchSongsComplete(lines: seq<string>, k: nat)
    requires k < |lines| && NonBlank(lines[k])
    ensures CleanSongName(lines[k]) in BatchSongs(lines)
  {
    FilterMapComplete(lines, NonBlank, CleanSongName, k);
  }

  /** Every song comes from a non-blank line, and is trimmed. */
  lemma BatchSongsSource(lines: seq<string>, i: nat) returns (k: nat)
    requires i < |BatchSongs(lines)|
    ensures k < |lines| && NonBlank(lines[k]) && BatchSongs(lines)[i] == CleanSongName(lines[k])
    ensures IsTrimmed(BatchSongs(lines)[i])
  {
    k := FilterMapSource(lines, NonBlank, CleanSongName, i);
  }

  /** The song list of two blocks of lines is the two song lists, in order. */
  lemma BatchSongsAppend(a: seq<string>, b: seq<string>)
    ensures BatchSongs(a + b) == BatchSongs(a) + BatchSongs(b)
  {
    FilterMapAppend(a, b, NonBlank, CleanSongName);
  }

  /** One line gives its cleaned name, or nothing when it is blank. */
  lemma BatchSongsLine(line: string)
    ensures BatchSongs([line]) == if NonBlank(line) then [CleanSongName(line)] else []
  {
    FilterMapSingle(line, NonBlank, CleanSongName);
  }

  /** A line listed twice is submitted twice: the list is not de-duplicated. */
  lemma RepeatedLineRepeatedSong(line: string)
    requires NonBlank(line)
    ensures BatchSongs([line, line]) == [CleanSongName(line), CleanSongName(line)]
  {
    assert [line, line] == [line] + [line];
    BatchSongsAppend([line], [line]);
    BatchSongsLine(line);
  }

  /** Blank lines contribute nothing, so the list of non-blank lines cleans to the same songs. */
  lemma BlankLineIgnored(lines: seq<string>, blank: string)
    requires Trim(blank) == []
    ensures BatchSongs(lines + [blank]) == BatchSongs(lines)
  {
    assert (lines + [blank])[..|lines|] == lines;
  }

  /** A line holding only an ordinal marker survives the blank-line filter but yields an empty song name. */
  lemma MarkerOnlyLineGivesEmptySong()
    ensures Trim("7.") != []
    ensures BatchSongs(["7."]) == [""]
  {
    assert "7."[0] == '7';
    TrimStartSpec("7.");
    assert TrimStart("7.") == "7.";
    TrimEndSpec("7.");
    assert Trim("7.") == "7.";
    CleanDropsOrdinal("7", "");
    assert "7" + "." + "" == "7.";
    TrimSpec("");
  }

  /** What `future.result()` gives: the three results of `download_song`, or the exception it raised. */
  datatype SongRun = Completed(successes: nat, failed: nat, failures: seq<string>) | Raised(song: string, message: string)

  /** `total_success`, `total_failed` and `all_failures`. */
  datatype Totals = Totals(success: nat, failed: nat, ledger: seq<string>)

  /** One turn of the tally loop. */
  function Add(t: Totals, run: SongRun): Totals
  {
    match run
    case Completed(s, f, flist) => Totals(t.success + s, t.failed + f, t.ledger + flist)
    case Raised(song, message) => Totals(t.success, t.failed + 1, t.ledger + [song + "\t" + message])
  }

  /** The totals after the results `runs` have been tallied in this order. */
  function Tally(runs: seq<SongRun>): Totals
    decreases |runs|
  {
    if runs == [] then Totals(0, 0, [])
    else Add(Tally(runs[..|runs| - 1]), runs[|runs| - 1])
  }

  /** The tally loop of `main`, over the results in completion order. */
  method TallyRuns(runs: seq<SongRun>) returns (totalSuccess: nat, totalFailed: nat, allFailures: seq<string>)
    ensures Totals(totalSuccess, totalFailed, allFailures) == Tally(runs)
  {
    totalSuccess, totalFailed, allFailures := 0, 0, [];
    var i := 0;
    while i < |runs|
      invariant 0 <= i <= |runs|
      invariant Totals(totalSuccess, totalFailed, allFailures) == Tally(runs[..i])
    {
      assert runs[..i + 1][..i] == runs[..i];
      match runs[i] {
        case Completed(s, f, flist) =>
          totalSuccess := totalSuccess + s;
          totalFailed := totalFailed + f;
          if flist != [] {
            allFailures := allFailures + flist;
          }
        case Raised(song, message) =>
          totalFailed := totalFailed + 1;
          allFailures := allFailures + [song + "\t" + message];
      }
      i := i + 1;
    }
    assert runs[..i] == runs;
  }

  /** Two tallies taken one after the other. */
  function Join(t: Totals, u: Totals): Totals
  {
    Totals(t.success + u.success, t.failed + u.failed, t.ledger + u.ledger)
  }

  lemma {:induction false} TallyAppend(a: seq<SongRun>, b: seq<SongRun>)
    ensures Tally(a + b) == Join(Tally(a), Tally(b))
    decreases |b|
  {
    if b == [] {
      assert a + b == a;
    } else {
      var b' := b[..|b| - 1];
      assert (a + b)[..|a + b| - 1] == a + b';
      TallyAppend(a, b');
      assert Tally(a + b) == Add(Tally(a + b'), b[|b| - 1]);
      assert Tally(b) == Add(Tally(b'), b[|b| - 1]);
    }
  }

  /** Equal counts and the same failure lines, as a multiset. */
  ghost predicate SameTotals(t: Totals, u: Totals)
  {
    t.success == u.success && t.failed == u.failed && multiset(t.ledger) == multiset(u.ledger)
  }

  /** One more result tallied on its own. */
  lemma AddIsJoin(t: Totals, x: SongRun)
    ensures Add(t, x) == Join(t, Tally([x]))
  {
    assert [x][..0] == [];
  }

  /** Joining totals commutes up to the order of the logged lines. */
  lemma JoinSwap(t: Totals, u: Totals, v: Totals)
    ensures SameTotals(Join(Join(t, u), v), Join(Join(t, v), u))
  {
    assert multiset(t.ledger + u.ledger + v.ledger)
        == multiset(t.ledger) + multiset(u.ledger) + multiset(v.ledger)
        == multiset(t.ledger + v.ledger + u.ledger);
  }

  /** Tallying a result in the middle or at the end gives the same totals. */
  lemma TallyMoveToEnd(before: seq<SongRun>, x: SongRun, after: seq<SongRun>)
    ensures SameTotals(Tally(before + [x] + after), Add(Tally(before + after), x))
  {
    var tb, tx, ta := Tally(before), Tally([x]), Tally(after);
    TallyAppend(before + [x], after);
    TallyAppend(before, [x]);
    TallyAppend(before, after);
    AddIsJoin(Tally(before + after), x);
    JoinSwap(tb, tx, ta);
  }

  lemma SameTotalsAdd(t: Totals, u: Totals, x: SongRun)
    requires SameTotals(t, u)
    ensures SameTotals(Add(t, x), Add(u, x))
  {
  }

  /** Removing the last element of `ys` from its occurrence at `j` in a permutation `xs`. */
  lemma RemoveMatching<T>(xs: seq<T>, ys: seq<T>, j: nat)
    requires multiset(xs) == multiset(ys) && ys != []
    requires j < |xs| && xs[j] == ys[|ys| - 1]
    ensures xs == xs[..j] + [xs[j]] + xs[j + 1..]
    ensures multiset(xs[..j] + xs[j + 1..]) == multiset(ys[..|ys| - 1])
  {
    var a, b := xs[..j], xs[j + 1..];
    assert xs == a + [xs[j]] + b;
    assert multiset(xs) == multiset(a) + multiset{xs[j]} + multiset(b);
    assert multiset(a + b) == multiset(a) + multiset(b);
    assert ys == ys[..|ys| - 1] + [ys[|ys| - 1]];
    assert multiset(ys) == multiset(ys[..|ys| - 1]) + multiset{xs[j]};
    assert multiset(a + b) == multiset(xs) - multiset{xs[j]};
    assert multiset(ys[..|ys| - 1]) == multiset(ys) - multiset{xs[j]};
  }

  /** The totals do not depend on the order in which the songs complete. */
  lemma {:induction false} TallyOrderIndependent(runs: seq<SongRun>, order: seq<SongRun>)
    requires multiset(runs) == multiset(order)
    ensures SameTotals(Tally(runs), Tally(order))
    decreases |runs|
  {
    if runs == [] {
      assert |order| == |multiset(order)| == 0;
    } else {
      assert |order| == |multiset(order)| == |multiset(runs)| == |runs|;
      var x := order[|order| - 1];
      assert x in multiset(runs);
      var j :| 0 <= j < |runs| && runs[j] == x;
      RemoveMatching(runs, order, j);
      var before, after := runs[..j], runs[j + 1..];
      TallyOrderIndependent(before + after, order[..|order| - 1]);
      TallyMoveToEnd(before, x, after);
      SameTotalsAdd(Tally(before + after), Tally(order[..|order| - 1]), x);
    }
  }

  /** The result `download_song` hands to the tally when it returns. */
  function RunOf(report: Report): SongRun
  {
    Completed(report.successes, |report.failures|, report.failures)
  }

  /** A result whose failure count is the length of its failure list, or an escaped exception. */
  predicate Consistent(run: SongRun)
  {
    run.Completed? ==> run.failed == |run.failures|
  }

  /** When every completed song reports consistently, `total_failed` is the number of lines logged. */
  lemma {:induction false} TallyFailedIsLedgerLength(runs: seq<SongRun>)
    requires forall k :: 0 <= k < |runs| ==> Consistent(runs[k])
    ensures Tally(runs).failed == |Tally(runs).ledger|
    decreases |runs|
  {
    if runs != [] {
      TallyFailedIsLedgerLength(runs[..|runs| - 1]);
    }
  }

  /** Each result contributes at most `max(1, limit)` outcomes. */
  predicate WithinLimit(run: SongRun, limit: int)
  {
    match run
    case Completed(s, f, _) => s + f <= Max(1, limit)
    case Raised(_, _) => true
  }

  lemma SongRunWithinLimit(song: string, s: SongSettings, search: (string, SearchOpts) -> SearchOutcome, existing: set<string>, fetch: (string, DownloadOpts) -> Attempt)
    ensures Consistent(RunOf(SongReport(song, s, search, existing, fetch)))
    ensures WithinLimit(RunOf(SongReport(song, s, search, existing, fetch)), s.limit)
  {
    SongReportBounded(song, s, search, existing, fetch);
  }

  /** With `n` results, each within the limit, the batch counts at most `n * max(1, limit)` outcomes. */
  lemma {:induction false} TallyBounded(runs: seq<SongRun>, limit: int)
    requires forall k :: 0 <= k < |runs| ==> WithinLimit(runs[k], limit)
    ensures Tally(runs).success + Tally(runs).failed <= |runs| * Max(1, limit)
    decreases |runs|
  {
    if runs != [] {
      var m, n := Max(1, limit), |runs| - 1;
      TallyBounded(runs[..n], limit);
      assert WithinLimit(runs[n], limit);
      assert n * m + m == (n + 1) * m;
    }
  }
}
