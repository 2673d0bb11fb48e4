/**
 * Candidate selection in `download_song`: score every search record, drop
 * the sentinel, sort by score descending with Python's stable `list.sort`,
 * and keep the first `max(1, limit)`.
 */
module Ranking {
  import opened Wrappers
  import opened Scoring

  /** A scored search record; `pos` is its index in the search results. */
  datatype Candidate = Candidate(score: real, pos: nat, entry: Entry)

  function Max(a: int, b: int): int { if a >= b then a else b }
  function Min(a: int, b: int): int { if a <= b then a else b }

  /** `[(score_entry(e, ...), e) for e in entries]`. */
  function ScoreAll(entries: seq<Entry>, song: string, minDuration: Option<int>, maxDuration: Option<int>): (cs: seq<Candidate>)
    ensures |cs| == |entries|
    ensures forall p :: 0 <= p < |cs| ==> cs[p] == Candidate(EntryScore(entries[p], song, minDuration, maxDuration), p, entries[p])
  {
    seq(|entries|, p requires 0 <= p < |entries| => Candidate(EntryScore(entries[p], song, minDuration, maxDuration), p, entries[p]))
  }

  /** `[s for s in scored if s[0] > -999]`. */
  function Eligible(cs: seq<Candidate>): (r: seq<Candidate>)
    ensures forall c :: c in r <==> c in cs && c.score > Excluded
  {
    if cs == [] then []
    else (if cs[0].score > Excluded then [cs[0]] else []) + Eligible(cs[1..])
  }

  /** `a` comes before `b` in a stable descending sort of records given in search order. */
  predicate Precedes(a: Candidate, b: Candidate)
  {
    a.score > b.score || (a.score == b.score && a.pos < b.pos)
  }

  /** Sorted by score, highest first, equal scores in search order. */
  predicate Ranked(cs: seq<Candidate>)
  {
    forall i, j :: 0 <= i < j < |cs| ==> Precedes(cs[i], cs[j])
  }

  predicate InSearchOrder(cs: seq<Candidate>)
  {
    forall i, j :: 0 <= i < j < |cs| ==> cs[i].pos < cs[j].pos
  }

  /** Puts `c` after every element that scores strictly higher and before the rest. */
  function Insert(c: Candidate, cs: seq<Candidate>): (r: seq<Candidate>)
    ensures multiset(r) == multiset([c] + cs)
  {
    if cs == [] || cs[0].score <= c.score then [c] + cs
    else
      assert cs == [cs[0]] + cs[1..];
      assert multiset([c] + cs) == multiset([cs[0]]) + multiset([c] + cs[1..]);
      [cs[0]] + Insert(c, cs[1..])
  }

  /** `scored.sort(key=lambda x: x[0], reverse=True)`: a stable sort, highest score first. */
  function SortByScore(cs: seq<Candidate>): (r: seq<Candidate>)
    ensures multiset(r) == multiset(cs)
  {
    if cs == [] then []
    else
      assert cs == [cs[0]] + cs[1..];
      Insert(cs[0], SortByScore(cs[1..]))
  }

  /** `scored[:max(1, limit)]`. */
  function TopN(cs: seq<Candidate>, limit: int): (r: seq<Candidate>)
    ensures |r| == Min(Max(1, limit), |cs|) && r == cs[..|r|]
  {
    cs[..Min(Max(1, limit), |cs|)]
  }

  /** The `topn` list of `download_song`. */
  function SelectTop(entries: seq<Entry>, song: string, minDuration: Option<int>, maxDuration: Option<int>, limit: int): seq<Candidate>
  {
    TopN(SortByScore(Eligible(ScoreAll(entries, song, minDuration, maxDuration))), limit)
  }

  // ---------------------------------------------------------------------

  lemma {:induction false} EligibleInSearchOrder(cs: seq<Candidate>)
    requires InSearchOrder(cs)
    ensures InSearchOrder(Eligible(cs))
  {
    if cs != [] {
      EligibleInSearchOrder(cs[1..]);
      var rest := Eligible(cs[1..]);
      forall c | c in rest ensures cs[0].pos < c.pos {
        var k :| 0 <= k < |cs[1..]| && cs[1..][k] == c;
        assert cs[k + 1] == c;
      }
    }
  }

  lemma {:induction false} InsertRanked(c: Candidate, cs: seq<Candidate>)
    requires Ranked(cs)
    requires forall x :: x in cs ==> c.pos < x.pos
    ensures Ranked(Insert(c, cs))
  {
    if cs == [] || cs[0].score <= c.score {
      var r := [c] + cs;
      forall i, j | 0 <= i < j < |r| ensures Precedes(r[i], r[j]) {
        if i == 0 {
          assert r[j] == cs[j - 1];
          assert cs[0].score >= cs[j - 1].score by {
            if j - 1 > 0 { assert Precedes(cs[0], cs[j - 1]); }
          }
        } else {
          assert Precedes(cs[i - 1], cs[j - 1]);
        }
      }
    } else {
      InsertRanked(c, cs[1..]);
      var tail := Insert(c, cs[1..]);
      var r := [cs[0]] + tail;
      forall i, j | 0 <= i < j < |r| ensures Precedes(r[i], r[j]) {
        if i == 0 {
          var x := r[j];
          assert x in multiset([c] + cs[1..]);
          if x == c {
          } else {
            var k :| 0 <= k < |cs[1..]| && cs[1..][k] == x;
            assert Precedes(cs[0], cs[k + 1]);
          }
        } else {
          assert r[i] == tail[i - 1] && r[j] == tail[j - 1];
        }
      }
    }
  }

  /** Sorting records given in search order yields the stable descending order. */
  lemma {:induction false} SortRanked(cs: seq<Candidate>)
    requires InSearchOrder(cs)
    ensures Ranked(SortByScore(cs))
  {
    if cs != [] {
      SortRanked(cs[1..]);
      var sorted := SortByScore(cs[1..]);
      forall x | x in sorted ensures cs[0].pos < x.pos {
        assert x in multiset(cs[1..]);
        var k :| 0 <= k < |cs[1..]| && cs[1..][k] == x;
        assert cs[k + 1] == x;
      }
      InsertRanked(cs[0], sorted);
    }
  }

  lemma ScoreAllInSearchOrder(entries: seq<Entry>, song: string, minDuration: Option<int>, maxDuration: Option<int>)
    ensures InSearchOrder(ScoreAll(entries, song, minDuration, maxDuration))
  {
  }

  /** A ranked record is a scored search record that is not excluded. */
  lemma RankedIsEligible(entries: seq<Entry>, song: string, minDuration: Option<int>, maxDuration: Option<int>, c: Candidate)
    requires c in Eligible(ScoreAll(entries, song, minDuration, maxDuration))
    ensures c.pos < |entries| && c == ScoreAll(entries, song, minDuration, maxDuration)[c.pos]
    ensures c.entry == entries[c.pos] && c.score == EntryScore(entries[c.pos], song, minDuration, maxDuration)
    ensures !IsExcluded(entries[c.pos], minDuration, maxDuration)
  {
    var all := ScoreAll(entries, song, minDuration, maxDuration);
    var p :| 0 <= p < |all| && all[p] == c;
    ScoreSentinelIffExcluded(entries[p], song, minDuration, maxDuration);
  }

  /** A record that is not excluded survives the sentinel filter. */
  lemma EligibleHasEvery(entries: seq<Entry>, song: string, minDuration: Option<int>, maxDuration: Option<int>, p: nat)
    requires p < |entries| && !IsExcluded(entries[p], minDuration, maxDuration)
    ensures ScoreAll(entries, song, minDuration, maxDuration)[p] in Eligible(ScoreAll(entries, song, minDuration, maxDuration))
  {
    ScoreSentinelIffExcluded(entries[p], song, minDuration, maxDuration);
  }

  /** `topn` is sorted by score, highest first, equal scores in search order. */
  lemma RankingOrdered(entries: seq<Entry>, song: string, minDuration: Option<int>, maxDuration: Option<int>, limit: int)
    ensures Ranked(SelectTop(entries, song, minDuration, maxDuration, limit))
  {
    var all := ScoreAll(entries, song, minDuration, maxDuration);
    ScoreAllInSearchOrder(entries, song, minDuration, maxDuration);
    EligibleInSearchOrder(all);
    SortRanked(Eligible(all));
  }

  /** Every member of `topn` is a scored search record that is not excluded. */
  lemma RankingMembers(entries: seq<Entry>, song: string, minDuration: Option<int>, maxDuration: Option<int>, limit: int, i: nat)
    requires i < |SelectTop(entries, song, minDuration, maxDuration, limit)|
    ensures var c := SelectTop(entries, song, minDuration, maxDuration, limit)[i];
      c.pos < |entries| && c.entry == entries[c.pos]
      && c.score == EntryScore(entries[c.pos], song, minDuration, maxDuration)
      && !IsExcluded(entries[c.pos], minDuration, maxDuration)
  {
    var el := Eligible(ScoreAll(entries, song, minDuration, maxDuration));
    var sorted := SortByScore(el);
    assert SelectTop(entries, song, minDuration, maxDuration, limit)[i] == sorted[i];
    assert sorted[i] in multiset(el);
    RankedIsEligible(entries, song, minDuration, maxDuration, sorted[i]);
  }

  /** In a ranked list, a member that the cut leaves out ranks after every kept one, and the cut is full. */
  lemma CutLeavesLosers(sorted: seq<Candidate>, limit: int, x: Candidate)
    requires Ranked(sorted) && x in sorted
    requires forall i :: 0 <= i < |TopN(sorted, limit)| ==> TopN(sorted, limit)[i] != x
    ensures |TopN(sorted, limit)| == Max(1, limit)
    ensures forall i :: 0 <= i < |TopN(sorted, limit)| ==> Precedes(TopN(sorted, limit)[i], x)
  {
    var r := TopN(sorted, limit);
    var k :| 0 <= k < |sorted| && sorted[k] == x;
    assert forall i :: 0 <= i < |r| ==> r[i] == sorted[i];
    assert |r| <= k;
    forall i | 0 <= i < |r| ensures Precedes(r[i], x) {
      assert r[i] == sorted[i];
    }
  }

  /**
   * A record that is not excluded but missing from `topn` lost at the cut:
   * `topn` is full and every member ranks before it.
   */
  lemma RankingCutoff(entries: seq<Entry>, song: string, minDuration: Option<int>, maxDuration: Option<int>, limit: int, p: nat)
    requires p < |entries| && !IsExcluded(entries[p], minDuration, maxDuration)
    requires forall i :: 0 <= i < |SelectTop(entries, song, minDuration, maxDuration, limit)| ==>
      SelectTop(entries, song, minDuration, maxDuration, limit)[i].pos != p
    ensures |SelectTop(entries, song, minDuration, maxDuration, limit)| == Max(1, limit)
    ensures forall i :: 0 <= i < |SelectTop(entries, song, minDuration, maxDuration, limit)| ==>
      Precedes(SelectTop(entries, song, minDuration, maxDuration, limit)[i], ScoreAll(entries, song, minDuration, maxDuration)[p])
  {
    var all := ScoreAll(entries, song, minDuration, maxDuration);
    var sorted := SortByScore(Eligible(all));
    ScoreAllInSearchOrder(entries, song, minDuration, maxDuration);
    EligibleInSearchOrder(all);
    SortRanked(Eligible(all));
    EligibleHasEvery(entries, song, minDuration, maxDuration, p);
    assert all[p] in multiset(sorted);
    var r := SelectTop(entries, song, minDuration, maxDuration, limit);
    assert r == TopN(sorted, limit);
    forall i | 0 <= i < |r| ensures r[i] != all[p] {
      assert r[i].pos != p == all[p].pos;
    }
    CutLeavesLosers(sorted, limit, all[p]);
  }

  /** `topn` is empty exactly when every search record is excluded. */
  lemma RankingEmptyIff(entries: seq<Entry>, song: string, minDuration: Option<int>, maxDuration: Option<int>, limit: int)
    ensures SelectTop(entries, song, minDuration, maxDuration, limit) == [] <==>
      forall p :: 0 <= p < |entries| ==> IsExcluded(entries[p], minDuration, maxDuration)
  {
    var el := Eligible(ScoreAll(entries, song, minDuration, maxDuration));
    var r := SelectTop(entries, song, minDuration, maxDuration, limit);
    if r == [] {
      assert |SortByScore(el)| == 0;
      assert |el| == 0;
      forall p | 0 <= p < |entries| ensures IsExcluded(entries[p], minDuration, maxDuration) {
        if !IsExcluded(entries[p], minDuration, maxDuration) {
          EligibleHasEvery(entries, song, minDuration, maxDuration, p);
        }
      }
    } else {
      RankingMembers(entries, song, minDuration, maxDuration, limit, 0);
    }
  }
}
