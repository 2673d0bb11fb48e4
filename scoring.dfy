/**
 * The candidate scorer `score_entry` of download.py: a deterministic score
 * for one search record, or the sentinel -999 for a record that may not be
 * ranked at all.
 */
module Scoring {
  import opened Wrappers
  import opened Text

  /** Artist names and official-performer titles that earn a bonus. */
  const TrustedArtists: seq<string> := [
    "trọng tấn", "anh thơ", "thu hiền", "quang thọ", "đăng dương",
    "trung đức", "lan anh", "tân nhàn", "việt hoàn", "nsnd", "nsưt"
  ]

  /** Markers of amateur, derivative or compilation uploads. */
  const UntrustedKeywords: seq<string> := [
    "thần đồng", "bolero", "thiếu nhi", "giọng ca nhí", "idol",
    "cover", "karaoke", "remix", "beat", "instrumental",
    "nonstop", "dj", "acoustic", "mashup", "parody",
    "tuyển tập", "liên khúc", "lk", "medley", "album",
    "full", "những bài hát", "top", "hay nhất"
  ]

  /** Markers that cost a large penalty each. */
  const StrongPenalties: seq<string> := ["karaoke", "cover", "live"]

  /** The sentinel `score_entry` returns for a record that is never ranked. */
  const Excluded: real := -999.0

  /**
   * One search record. `title` is None when the record has no title key,
   * `duration` is None when it is absent or not a number, `viewCount` is
   * None when it is absent or null.
   */
  datatype Entry = Entry(id: string, title: Option<string>, duration: Option<real>, viewCount: Option<nat>)

  /** `entry.get("title", "").lower()`. */
  function LoweredTitle(e: Entry): string
  {
    Lower(e.title.GetOr(""))
  }

  /** A duration bound takes part in filtering only when it is given and non-zero. */
  predicate BoundActive(b: Option<int>)
  {
    b.Some? && b.value != 0
  }

  /** A known duration outside an active bound. */
  predicate DurationRejected(d: real, minDuration: Option<int>, maxDuration: Option<int>)
  {
    (BoundActive(minDuration) && d < minDuration.value as real)
    || (BoundActive(maxDuration) && d > maxDuration.value as real)
  }

  /** The two early returns of `score_entry`. */
  predicate IsExcluded(e: Entry, minDuration: Option<int>, maxDuration: Option<int>)
  {
    LoweredTitle(e) == []
    || (e.duration.Some? && DurationRejected(e.duration.value, minDuration, maxDuration))
  }

  /** Number of keywords of `ks` that occur in `title`. */
  function CountPresent(ks: seq<string>, title: string): (n: nat)
    ensures n <= |ks|
  {
    if ks == [] then 0
    else CountPresent(ks[..|ks| - 1], title) + (if Contains(title, ks[|ks| - 1]) then 1 else 0)
  }

  /** Python's `any(k in title for k in ks)`. */
  predicate ContainsAny(title: string, ks: seq<string>)
  {
    exists k :: 0 <= k < |ks| && Contains(title, ks[k])
  }

  /** The song words `score_entry` looks for: those longer than two characters. */
  function LongWords(ws: seq<string>): (r: seq<string>)
    ensures forall k :: 0 <= k < |r| ==> |r[k]| > 2 && r[k] in ws
  {
    if ws == [] then []
    else (if |ws[0]| > 2 then [ws[0]] else []) + LongWords(ws[1..])
  }

  /** Python's `sum(1 for w in ws if w in title)`: repeated words count again. */
  function WordHits(ws: seq<string>, title: string): (n: nat)
    ensures n <= |ws|
  {
    if ws == [] then 0
    else (if Contains(title, ws[0]) then 1 else 0) + WordHits(ws[1..], title)
  }

  /** The long-word filter works word by word and keeps order and repeats. */
  lemma {:induction false} LongWordsAppend(a: seq<string>, b: seq<string>)
    ensures LongWords(a + b) == LongWords(a) + LongWords(b)
    decreases |a|
  {
    if a == [] {
      assert a + b == b;
    } else {
      assert (a + b)[1..] == a[1..] + b;
      LongWordsAppend(a[1..], b);
    }
  }

  /** One word is kept exactly when it is longer than two characters. */
  lemma LongWordsSingle(w: string)
    ensures LongWords([w]) == if |w| > 2 then [w] else []
  {
    assert [w][1..] == [];
  }

  /** The word bonus of a word list is the sum over its parts. */
  lemma {:induction false} WordHitsAppend(a: seq<string>, b: seq<string>, title: string)
    ensures WordHits(a + b, title) == WordHits(a, title) + WordHits(b, title)
    decreases |a|
  {
    if a == [] {
      assert a + b == b;
    } else {
      assert (a + b)[1..] == a[1..] + b;
      WordHitsAppend(a[1..], b, title);
    }
  }

  /** One word earns a point exactly when it occurs in the title. */
  lemma WordHitsSingle(w: string, title: string)
    ensures WordHits([w], title) == if Contains(title, w) then 1 else 0
  {
    assert [w][1..] == [];
  }

  // ---------------------------------------------------------------------
  // The terms of the score

  function StrongTerm(title: string): int
  {
    -15 * CountPresent(StrongPenalties, title)
  }

  function UntrustedTerm(title: string): int
  {
    if ContainsAny(title, UntrustedKeywords) then -10 else 0
  }

  function TrustedTerm(title: string): int
  {
    if ContainsAny(title, TrustedArtists) then 8 else 0
  }

  function PositionBonus(idx: int): int
  {
    if idx == 0 then 6 else if idx <= 15 then 3 else 0
  }

  function MatchTerm(title: string, songLower: string): int
  {
    if Contains(title, songLower) then 5 + PositionBonus(Find(title, songLower)) else 0
  }

  function WordTerm(title: string, songLower: string): nat
  {
    WordHits(LongWords(Words(songLower)), title)
  }

  function LengthTerm(title: string): int
  {
    (if |title| < 60 then 2 else 0) + (if |title| > 90 then -2 else 0)
  }

  /** `float(entry.get("view_count") or 0) / 500000`, as an exact rational. */
  function ViewTerm(e: Entry): real
  {
    e.viewCount.GetOr(0) as real / 500000.0
  }

  /** The integer part of the score: keyword, match, word and length terms. */
  function KeywordScore(title: string, songLower: string): int
  {
    StrongTerm(title) + UntrustedTerm(title) + TrustedTerm(title)
      + MatchTerm(title, songLower) + WordTerm(title, songLower) + LengthTerm(title)
  }

  /** The value of `score_entry(entry, song_name, min_duration, max_duration)`. */
  function EntryScore(e: Entry, song: string, minDuration: Option<int>, maxDuration: Option<int>): real
  {
    if IsExcluded(e, minDuration, maxDuration) then Excluded
    else KeywordScore(LoweredTitle(e), Lower(song)) as real + ViewTerm(e)
  }

  /** The loop over the strong keywords at the start of `score_entry`: −15 for each one present. */
  method StrongPenaltyScore(title: string) returns (score: real)
    ensures score == StrongTerm(title) as real
  {
    score := 0.0;
    var i := 0;
    while i < |StrongPenalties|
      invariant 0 <= i <= |StrongPenalties|
      invariant score == (-15 * CountPresent(StrongPenalties[..i], title)) as real
    {
      assert StrongPenalties[..i + 1][..i] == StrongPenalties[..i];
      if Contains(title, StrongPenalties[i]) {
        score := score - 15.0;
      }
      i := i + 1;
    }
    assert StrongPenalties[..i] == StrongPenalties;
  }

  /** `score_entry`: accumulates the score term by term, as the source does. */
  method ScoreEntry(e: Entry, song: string, minDuration: Option<int>, maxDuration: Option<int>)
    returns (score: real)
    ensures score == EntryScore(e, song, minDuration, maxDuration)
  {
    var title := Lower(e.title.GetOr(""));
    assert title == LoweredTitle(e);
    if title == [] {
      return Excluded;
    }
    if e.duration.Some? {
      var d := e.duration.value;
      if (BoundActive(minDuration) && d < minDuration.value as real)
        || (BoundActive(maxDuration) && d > maxDuration.value as real)
      {
        return Excluded;
      }
    }
    assert !IsExcluded(e, minDuration, maxDuration);
    var songLower := Lower(song);
    var songWords := LongWords(Words(songLower));
    score := StrongPenaltyScore(title);
    var keyword := StrongTerm(title);
    if ContainsAny(title, UntrustedKeywords) {
      score := score - 10.0;
    }
    keyword := keyword + UntrustedTerm(title);
    assert score == keyword as real;
    if ContainsAny(title, TrustedArtists) {
      score := score + 8.0;
    }
    keyword := keyword + TrustedTerm(title);
    assert score == keyword as real;
    if Contains(title, songLower) {
      score := score + 5.0;
      var idx := Find(title, songLower);
      if idx == 0 {
        score := score + 6.0;
      } else if idx <= 15 {
        score := score + 3.0;
      }
    }
    keyword := keyword + MatchTerm(title, songLower);
    assert score == keyword as real;
    score := score + WordHits(songWords, title) as real;
    if |title| < 60 {
      score := score + 2.0;
    }
    if |title| > 90 {
      score := score - 2.0;
    }
    keyword := keyword + WordTerm(title, songLower) + LengthTerm(title);
    assert score == keyword as real;
    assert keyword == KeywordScore(title, songLower);
    var views := e.viewCount.GetOr(0);
    score := score + views as real / 500000.0;
  }

  // ---------------------------------------------------------------------
  // What the score promises

  /** The most the keyword terms can take away: three strong markers, one untrusted marker, a long title. */
  lemma KeywordScoreLowerBound(title: string, songLower: string)
    ensures KeywordScore(title, songLower) >= -57
  {
    assert CountPresent(StrongPenalties, title) <= 3;
  }

  /**
   * The sentinel means exclusion and nothing else: with non-negative view
   * counts every ranked record scores at least -57, so the `> -999` filter
   * drops exactly the excluded records.
   */
  lemma ScoreSentinelIffExcluded(e: Entry, song: string, minDuration: Option<int>, maxDuration: Option<int>)
    ensures EntryScore(e, song, minDuration, maxDuration) > Excluded <==> !IsExcluded(e, minDuration, maxDuration)
    ensures !IsExcluded(e, minDuration, maxDuration) ==> EntryScore(e, song, minDuration, maxDuration) >= -57.0
  {
    KeywordScoreLowerBound(LoweredTitle(e), Lower(song));
  }

  /** A record without a duration is excluded only for a missing or empty title. */
  lemma MissingDurationNeverExcludes(e: Entry, minDuration: Option<int>, maxDuration: Option<int>)
    requires e.duration.None?
    ensures IsExcluded(e, minDuration, maxDuration) <==> e.title.GetOr("") == []
  {
  }

  /** Bounds that are None or 0 never exclude anything. */
  lemma InactiveBoundsNeverExclude(e: Entry, minDuration: Option<int>, maxDuration: Option<int>)
    requires minDuration == None || minDuration == Some(0)
    requires maxDuration == None || maxDuration == Some(0)
    ensures IsExcluded(e, minDuration, maxDuration) <==> e.title.GetOr("") == []
  {
  }

  /** With bounds 120..300 a 50-second record is excluded however well its title matches. */
  lemma ShortRecordExcluded(e: Entry, song: string)
    requires e.duration == Some(50.0)
    ensures EntryScore(e, song, Some(120), Some(300)) == Excluded
  {
  }

  /** More views never lower the score. */
  lemma ScoreMonotoneInViews(e: Entry, song: string, minDuration: Option<int>, maxDuration: Option<int>, fewer: nat, more: nat)
    requires fewer <= more
    ensures EntryScore(e.(viewCount := Some(fewer)), song, minDuration, maxDuration)
         <= EntryScore(e.(viewCount := Some(more)), song, minDuration, maxDuration)
  {
  }

  /** A missing view count and a zero view count add nothing. */
  lemma MissingViewsAddNothing(e: Entry)
    requires e.viewCount == None || e.viewCount == Some(0)
    ensures ViewTerm(e) == 0.0
  {
  }

  lemma {:induction false} CountPresentHit(ks: seq<string>, title: string, i: nat)
    requires i < |ks| && Contains(title, ks[i])
    ensures CountPresent(ks, title) >= 1
  {
    if i < |ks| - 1 {
      assert ks[..|ks| - 1][i] == ks[i];
      CountPresentHit(ks[..|ks| - 1], title, i);
    }
  }

  /** "karaoke" and "cover" are both strong and untrusted, so either costs at least 25. */
  lemma DoublyPenalised(title: string)
    requires Contains(title, "karaoke") || Contains(title, "cover")
    ensures StrongTerm(title) + UntrustedTerm(title) <= -25
  {
    if Contains(title, "karaoke") {
      assert UntrustedKeywords[6] == "karaoke";
      CountPresentHit(StrongPenalties, title, 0);
    } else {
      assert UntrustedKeywords[5] == "cover";
      CountPresentHit(StrongPenalties, title, 1);
    }
  }

  /** The untrusted and trusted terms are flat, however many keywords occur. */
  lemma FlatKeywordTerms(title: string)
    ensures UntrustedTerm(title) == -10 <==> exists k :: 0 <= k < |UntrustedKeywords| && Contains(title, UntrustedKeywords[k])
    ensures UntrustedTerm(title) == 0 <==> !exists k :: 0 <= k < |UntrustedKeywords| && Contains(title, UntrustedKeywords[k])
    ensures TrustedTerm(title) == 8 <==> exists k :: 0 <= k < |TrustedArtists| && Contains(title, TrustedArtists[k])
    ensures TrustedTerm(title) == 0 <==> !exists k :: 0 <= k < |TrustedArtists| && Contains(title, TrustedArtists[k])
  {
  }

  /**
   * The verbatim-match bonus: 11 when the title starts with the song name,
   * 8 when the first occurrence starts at index 1..15, 5 when it starts
   * later, 0 when the song name does not occur.
   */
  lemma MatchTermCases(title: string, songLower: string)
    ensures MatchTerm(title, songLower) == 11 <==> OccursAt(title, songLower, 0)
    ensures MatchTerm(title, songLower) == 8 <==>
      Contains(title, songLower) && 1 <= Find(title, songLower) <= 15
    ensures MatchTerm(title, songLower) == 5 <==>
      Contains(title, songLower) && Find(title, songLower) > 15
    ensures MatchTerm(title, songLower) == 0 <==> forall j: nat :: !OccursAt(title, songLower, j)
  {
    if OccursAt(title, songLower, 0) {
      ContainsAt(title, songLower, 0);
    }
    if !Contains(title, songLower) {
      assert forall j: nat :: !OccursAt(title, songLower, j);
    } else {
      var j := ContainsWitness(title, songLower);
    }
  }

  /** The length term: +2 under 60 characters, -2 over 90, nothing in between. */
  lemma LengthTermCases(title: string)
    ensures |title| < 60 ==> LengthTerm(title) == 2
    ensures 60 <= |title| <= 90 ==> LengthTerm(title) == 0
    ensures |title| > 90 ==> LengthTerm(title) == -2
  {
  }

  lemma {:induction false} WordHitsAll(ws: seq<string>, title: string)
    requires forall k :: 0 <= k < |ws| ==> Contains(title, ws[k])
    ensures WordHits(ws, title) == |ws|
  {
    if ws != [] {
      WordHitsAll(ws[1..], title);
    }
  }

  /** The word bonus of a song name is the sum over its whitespace-separated parts. */
  lemma WordTermAtSpace(title: string, a: string, c: char, b: string)
    requires IsSpace(c)
    ensures WordTerm(title, a + [c] + b) == WordTerm(title, a) + WordTerm(title, b)
  {
    WordsAtSpace(a, c, b);
    LongWordsAppend(Words(a), Words(b));
    WordHitsAppend(LongWords(Words(a)), LongWords(Words(b)), title);
  }

  /** A single song word longer than two characters earns a point exactly when it occurs. */
  lemma WordTermOneWord(title: string, w: string)
    requires w != [] && forall k :: 0 <= k < |w| ==> !IsSpace(w[k])
    ensures WordTerm(title, w) == if |w| > 2 && Contains(title, w) then 1 else 0
  {
    OneWord(w);
    LongWordsSingle(w);
    WordHitsSingle(w, title);
  }

  /** A title holding the whole song name earns one point for every long song word. */
  lemma VerbatimMatchEarnsEveryWord(title: string, songLower: string)
    requires Contains(title, songLower)
    ensures WordTerm(title, songLower) == |LongWords(Words(songLower))|
  {
    var ws := Words(songLower);
    var lw := LongWords(ws);
    WordsOccur(songLower);
    forall k | 0 <= k < |lw| ensures Contains(title, lw[k]) {
      var j :| 0 <= j < |ws| && ws[j] == lw[k];
      ContainsTransitive(title, songLower, lw[k]);
    }
    WordHitsAll(lw, title);
  }

  /**
   * A clean title that starts with the song name beats a title containing
   * "karaoke" or "cover" unless the latter has more than 6.5 million
   * views more (13 points of view term): the view term is linear.
   */
  lemma CleanLeaderBeatsPenalised(clean: Entry, marked: Entry, song: string, minDuration: Option<int>, maxDuration: Option<int>)
    requires !IsExcluded(clean, minDuration, maxDuration) && !IsExcluded(marked, minDuration, maxDuration)
    requires OccursAt(LoweredTitle(clean), Lower(song), 0)
    requires CountPresent(StrongPenalties, LoweredTitle(clean)) == 0
    requires !ContainsAny(LoweredTitle(clean), UntrustedKeywords)
    requires Contains(LoweredTitle(marked), "karaoke") || Contains(LoweredTitle(marked), "cover")
    requires ViewTerm(marked) < ViewTerm(clean) + 13.0
    ensures EntryScore(clean, song, minDuration, maxDuration) > EntryScore(marked, song, minDuration, maxDuration)
  {
    var c, m, sl := LoweredTitle(clean), LoweredTitle(marked), Lower(song);
    MatchTermCases(c, sl);
    ContainsAt(c, sl, 0);
    VerbatimMatchEarnsEveryWord(c, sl);
    DoublyPenalised(m);
    assert MatchTerm(m, sl) <= 11;
    assert WordTerm(m, sl) <= |LongWords(Words(sl))|;
  }
}
