/**
 * String primitives the downloader relies on: character classes, ASCII
 * lower-casing, substring search (Python's `in` and `str.find`), trimming
 * (`str.strip`), whitespace splitting (`str.split()`), `str.replace`,
 * decimal rendering of integers and POSIX `os.path.join`.
 */
module Text {

  /** The six C-locale whitespace characters, standing for Python's `\s`, `str.split` and `str.strip`. */
  predicate IsSpace(c: char)
  {
    c == ' ' || c == '\t' || c == '\n' || c == '\r' || c == '\U{0B}' || c == '\U{0C}'
  }

  /** The decimal digits of Python's `\d` (ASCII part). */
  predicate IsDigit(c: char)
  {
    '0' <= c <= '9'
  }

  function LowerChar(c: char): char
  {
    if 'A' <= c <= 'Z' then (c as int + 32) as char else c
  }

  /** `str.lower()`, folding the ASCII capitals; every other character is kept. */
  function Lower(s: string): (r: string)
    ensures |r| == |s|
    ensures forall i :: 0 <= i < |s| ==> r[i] == LowerChar(s[i])
  {
    seq(|s|, i requires 0 <= i < |s| => LowerChar(s[i]))
  }

  // ---------------------------------------------------------------------
  // Substring search

  /** `p` occurs in `s` starting at index `i`. */
  predicate OccursAt(s: string, p: string, i: nat)
  {
    i + |p| <= |s| && s[i..i + |p|] == p
  }

  /** The first index `>= i` at which `p` occurs in `s`, or -1. */
  function FindFrom(s: string, p: string, i: nat): (r: int)
    requires i <= |s|
    ensures r == -1 || (i <= r && OccursAt(s, p, r))
    ensures r == -1 ==> forall j :: i <= j ==> !OccursAt(s, p, j)
    ensures r != -1 ==> forall j :: i <= j < r ==> !OccursAt(s, p, j)
    decreases |s| - i
  {
    if OccursAt(s, p, i) then i
    else if i == |s| then -1
    else FindFrom(s, p, i + 1)
  }

  /** Python's `s.find(p)`: the index of the first occurrence of `p`, or -1. */
  function Find(s: string, p: string): (r: int)
    ensures r == -1 || (0 <= r && OccursAt(s, p, r))
    ensures r == -1 ==> forall j: nat :: !OccursAt(s, p, j)
    ensures r != -1 ==> forall j: nat :: j < r ==> !OccursAt(s, p, j)
  {
    FindFrom(s, p, 0)
  }

  /** Python's `p in s` on strings. */
  predicate Contains(s: string, p: string)
  {
    Find(s, p) >= 0
  }

  lemma ContainsAt(s: string, p: string, i: nat)
    requires OccursAt(s, p, i)
    ensures Contains(s, p)
  {
  }

  lemma ContainsWitness(s: string, p: string) returns (i: nat)
    requires Contains(s, p)
    ensures OccursAt(s, p, i)
  {
    i := Find(s, p);
  }

  /** A substring of a substring is a substring. */
  lemma ContainsTransitive(s: string, p: string, q: string)
    requires Contains(s, p) && Contains(p, q)
    ensures Contains(s, q)
  {
    var i := ContainsWitness(s, p);
    var j := ContainsWitness(p, q);
    assert p == s[i..i + |p|];
    assert q == p[j..j + |q|];
    forall k | 0 <= k < |q| ensures q[k] == s[i + j + k] {
      assert q[k] == p[j + k];
    }
    assert s[i + j..i + j + |q|] == q;
    ContainsAt(s, q, i + j);
  }

  // ---------------------------------------------------------------------
  // Trimming and splitting

  predicate AllSpace(s: string)
  {
    forall k :: 0 <= k < |s| ==> IsSpace(s[k])
  }

  /** `s.lstrip()`: drops the whitespace at the start of `s`. */
  function TrimStart(s: string): (r: string)
    ensures |r| <= |s|
  {
    if |s| > 0 && IsSpace(s[0]) then TrimStart(s[1..]) else s
  }

  /** `TrimStart(s)` is the longest suffix of `s` that does not start with whitespace. */
  lemma {:induction false} TrimStartSpec(s: string)
    ensures TrimStart(s) == s[|s| - |TrimStart(s)|..]
    ensures AllSpace(s[..|s| - |TrimStart(s)|])
    ensures TrimStart(s) != [] ==> !IsSpace(TrimStart(s)[0])
  {
    if |s| > 0 && IsSpace(s[0]) {
      var r := TrimStart(s[1..]);
      TrimStartSpec(s[1..]);
      assert s[..|s| - |r|] == [s[0]] + s[1..][..|s| - 1 - |r|];
    }
  }

  /** `s.rstrip()`: drops the whitespace at the end of `s`. */
  function TrimEnd(s: string): (r: string)
    ensures |r| <= |s|
  {
    if |s| > 0 && IsSpace(s[|s| - 1]) then TrimEnd(s[..|s| - 1]) else s
  }

  /** `TrimEnd(s)` is the longest prefix of `s` that does not end with whitespace. */
  lemma {:induction false} TrimEndSpec(s: string)
    ensures TrimEnd(s) == s[..|TrimEnd(s)|]
    ensures AllSpace(s[|TrimEnd(s)|..])
    ensures TrimEnd(s) != [] ==> !IsSpace(TrimEnd(s)[|TrimEnd(s)| - 1])
  {
    if |s| > 0 && IsSpace(s[|s| - 1]) {
      var r := TrimEnd(s[..|s| - 1]);
      TrimEndSpec(s[..|s| - 1]);
      assert s[|r|..] == s[..|s| - 1][|r|..] + [s[|s| - 1]];
    }
  }

  /** `s.strip()`. */
  function Trim(s: string): string
  {
    TrimEnd(TrimStart(s))
  }

  /** `s` neither starts nor ends with whitespace. */
  predicate IsTrimmed(s: string)
  {
    s == [] || (!IsSpace(s[0]) && !IsSpace(s[|s| - 1]))
  }

  /** `Trim(s)` is what is left of `s` after the whitespace at both ends is removed. */
  lemma TrimSpec(s: string)
    ensures IsTrimmed(Trim(s))
    ensures exists i :: TrimmedAt(s, Trim(s), i)
  {
    var t := TrimStart(s);
    var r := TrimEnd(t);
    var i := |s| - |t|;
    TrimStartSpec(s);
    TrimEndSpec(t);
    InnerSlice(s, t, i);
    if r != [] {
      assert r[0] == t[0];
    }
    assert TrimmedAt(s, r, i);
  }

  /** `r` sits at index `i` of `s` with only whitespace around it. */
  predicate TrimmedAt(s: string, r: string, i: nat)
  {
    i + |r| <= |s| && s[i..i + |r|] == r && AllSpace(s[..i]) && AllSpace(s[i + |r|..])
  }

  lemma InnerSlice(s: string, t: string, i: nat)
    requires i <= |s| && t == s[i..]
    ensures s[i..i + |TrimEnd(t)|] == TrimEnd(t)
    ensures AllSpace(s[i + |TrimEnd(t)|..])
  {
    var r := TrimEnd(t);
    TrimEndSpec(t);
    assert s[i + |r|..] == t[|r|..];
  }

  /** Length of the longest prefix of `s` without whitespace. */
  function WordLength(s: string): (n: nat)
    ensures n <= |s|
    ensures forall k :: 0 <= k < n ==> !IsSpace(s[k])
    ensures n < |s| ==> IsSpace(s[n])
  {
    if |s| > 0 && !IsSpace(s[0]) then 1 + WordLength(s[1..]) else 0
  }

  /** `s.split()`: the maximal runs of non-whitespace characters, in order. */
  function Words(s: string): (ws: seq<string>)
    ensures forall k :: 0 <= k < |ws| ==> ws[k] != []
    decreases |s|
  {
    if s == [] then []
    else if IsSpace(s[0]) then Words(s[1..])
    else
      var n := WordLength(s);
      [s[..n]] + Words(s[n..])
  }

  /** Every word of `s.split()` is a substring of `s` and holds no whitespace. */
  lemma {:induction false} WordsOccur(s: string)
    ensures forall k :: 0 <= k < |Words(s)| ==> Contains(s, Words(s)[k])
    ensures forall k, i :: 0 <= k < |Words(s)| && 0 <= i < |Words(s)[k]| ==> !IsSpace(Words(s)[k][i])
    decreases |s|
  {
    if s == [] {
    } else if IsSpace(s[0]) {
      WordsOccur(s[1..]);
      assert Words(s) == Words(s[1..]);
      assert OccursAt(s, s[1..], 1);
      forall k | 0 <= k < |Words(s)| ensures Contains(s, Words(s)[k]) {
        ContainsTransitive(s, s[1..], Words(s)[k]);
      }
    } else {
      var n := WordLength(s);
      var rest := Words(s[n..]);
      WordsOccur(s[n..]);
      assert Words(s) == [s[..n]] + rest;
      assert OccursAt(s, s[..n], 0);
      assert OccursAt(s, s[n..], n);
      forall k | 0 <= k < |rest| ensures Contains(s, rest[k]) {
        ContainsTransitive(s, s[n..], rest[k]);
      }
    }
  }

  /** A word ends at the first whitespace character, whatever follows it. */
  lemma {:induction false} WordLengthBeforeSpace(a: string, c: char, b: string)
    requires IsSpace(c)
    ensures WordLength(a + [c] + b) == WordLength(a)
    decreases |a|
  {
    if a == [] {
      assert (a + [c] + b)[0] == c;
    } else if !IsSpace(a[0]) {
      assert (a + [c] + b)[1..] == a[1..] + [c] + b;
      WordLengthBeforeSpace(a[1..], c, b);
    }
  }

  /** Splitting at a whitespace character splits the word list there. */
  lemma {:induction false} WordsAtSpace(a: string, c: char, b: string)
    requires IsSpace(c)
    ensures Words(a + [c] + b) == Words(a) + Words(b)
    decreases |a|
  {
    var s := a + [c] + b;
    if a == [] {
      assert s == [c] + b;
      assert s[1..] == b;
    } else if IsSpace(a[0]) {
      assert s[1..] == a[1..] + [c] + b;
      WordsAtSpace(a[1..], c, b);
    } else {
      var n := WordLength(a);
      WordLengthBeforeSpace(a, c, b);
      assert s[..n] == a[..n];
      assert s[n..] == a[n..] + [c] + b;
      WordsAtSpace(a[n..], c, b);
    }
  }

  /** A non-empty string without whitespace is one word. */
  lemma OneWord(w: string)
    requires w != [] && forall k :: 0 <= k < |w| ==> !IsSpace(w[k])
    ensures Words(w) == [w]
  {
    assert WordLength(w) == |w|;
    assert w[..|w|] == w;
    assert w[|w|..] == [];
  }

  /** `s.split()` is empty exactly when `s` is all whitespace. */
  lemma {:induction false} NoWordsIffAllSpace(s: string)
    ensures Words(s) == [] <==> AllSpace(s)
    decreases |s|
  {
    if s != [] && IsSpace(s[0]) {
      NoWordsIffAllSpace(s[1..]);
      if AllSpace(s[1..]) {
        forall k | 0 <= k < |s| ensures IsSpace(s[k]) {
          if k > 0 {
            assert s[k] == s[1..][k - 1];
          }
        }
      }
    }
  }

  // ---------------------------------------------------------------------
  // Replacement, numbers, paths

  /** `s.replace(pat, rep)`: every non-overlapping occurrence, scanning left to right. */
  function ReplaceAll(s: string, pat: string, rep: string): string
    requires pat != []
    decreases |s|
  {
    if s == [] then []
    else if OccursAt(s, pat, 0) then rep + ReplaceAll(s[|pat|..], pat, rep)
    else [s[0]] + ReplaceAll(s[1..], pat, rep)
  }

  /** A string with no occurrence of the pattern comes back unchanged. */
  lemma {:induction false} ReplaceAllNoOccurrence(s: string, pat: string, rep: string)
    requires pat != []
    ensures (forall j: nat :: !OccursAt(s, pat, j)) ==> ReplaceAll(s, pat, rep) == s
    decreases |s|
  {
    if s != [] && forall j: nat :: !OccursAt(s, pat, j) {
      assert !OccursAt(s, pat, 0);
      forall j: nat ensures !OccursAt(s[1..], pat, j) {
        if OccursAt(s[1..], pat, j) {
          assert s[1..][j..j + |pat|] == s[j + 1..j + 1 + |pat|];
          assert OccursAt(s, pat, j + 1);
        }
      }
      ReplaceAllNoOccurrence(s[1..], pat, rep);
    }
  }

  /** The first character of `pat` occurs nowhere else in it, so two occurrences never overlap. */
  predicate LeadUnique(pat: string)
  {
    pat != [] && forall i :: 0 < i < |pat| ==> pat[i] != pat[0]
  }

  /** One step of `ReplaceAll` where the pattern occurs at the start. */
  lemma ReplaceAllHit(s: string, pat: string, rep: string)
    requires pat != [] && s != [] && OccursAt(s, pat, 0)
    ensures ReplaceAll(s, pat, rep) == rep + ReplaceAll(s[|pat|..], pat, rep)
  {
  }

  /** One step of `ReplaceAll` where the pattern does not occur at the start. */
  lemma ReplaceAllMiss(s: string, pat: string, rep: string)
    requires pat != [] && s != [] && !OccursAt(s, pat, 0)
    ensures ReplaceAll(s, pat, rep) == [s[0]] + ReplaceAll(s[1..], pat, rep)
  {
  }

  /** A string shorter than the pattern, followed by it, does not start with it. */
  lemma NoEarlyOccurrence(a: string, pat: string)
    requires LeadUnique(pat) && 0 < |a| < |pat|
    ensures !OccursAt(a + pat, pat, 0)
  {
    var s := a + pat;
    assert s[|a|] == pat[0];
    assert pat[|a|] != pat[0];
    if |pat| <= |s| {
      assert s[..|pat|][|a|] == s[|a|];
    }
  }

  /** `a + pat` starts with the pattern exactly when `a` does, once `a` is at least as long. */
  lemma SameStart(a: string, pat: string)
    requires |pat| <= |a|
    ensures OccursAt(a + pat, pat, 0) <==> OccursAt(a, pat, 0)
  {
    assert (a + pat)[..|pat|] == a[..|pat|];
  }

  /** Dropping a prefix of `a` from `a + b`; stated on fresh variables so that callers stay cheap. */
  lemma DropAppend(a: string, b: string, k: nat)
    requires k <= |a|
    ensures (a + b)[k..] == a[k..] + b
  {
  }

  /** Concatenation regrouped, on fresh variables for the same reason. */
  lemma Assoc(p: string, q: string, r: string)
    ensures p + (q + r) == (p + q) + r
  {
  }

  /** An occurrence of a `LeadUnique` pattern at the very end is replaced, after the rest is. */
  lemma {:induction false} ReplaceAllAtEnd(a: string, pat: string, rep: string)
    requires LeadUnique(pat)
    ensures ReplaceAll(a + pat, pat, rep) == ReplaceAll(a, pat, rep) + rep
    decreases |a|
  {
    var s := a + pat;
    if a == [] {
      assert s == pat;
      assert s[..|pat|] == pat;
      ReplaceAllHit(s, pat, rep);
      assert s[|pat|..] == [];
    } else {
      if |a| < |pat| {
        NoEarlyOccurrence(a, pat);
      } else {
        SameStart(a, pat);
      }
      if OccursAt(a, pat, 0) {
        ReplaceAllHit(s, pat, rep);
        ReplaceAllHit(a, pat, rep);
        DropAppend(a, pat, |pat|);
        ReplaceAllAtEnd(a[|pat|..], pat, rep);
        Assoc(rep, ReplaceAll(a[|pat|..], pat, rep), rep);
      } else {
        ReplaceAllMiss(s, pat, rep);
        ReplaceAllMiss(a, pat, rep);
        DropAppend(a, pat, 1);
        ReplaceAllAtEnd(a[1..], pat, rep);
        Assoc([a[0]], ReplaceAll(a[1..], pat, rep), rep);
      }
    }
  }

  /** `line.startswith(prefix)`. */
  predicate StartsWith(line: string, prefix: string)
  {
    |prefix| <= |line| && line[..|prefix|] == prefix
  }

  /** A line starting with `a + b` starts with `a`. */
  lemma StartsWithShorter(line: string, a: string, b: string)
    requires StartsWith(line, a + b)
    ensures StartsWith(line, a)
  {
    assert line[..|a + b|][..|a|] == line[..|a|];
    assert (a + b)[..|a|] == a;
  }

  /** Lines that all start with `a + b` all start with `a`. */
  lemma AllStartWithShorter(lines: seq<string>, a: string, b: string)
    requires forall k :: 0 <= k < |lines| ==> StartsWith(lines[k], a + b)
    ensures forall k :: 0 <= k < |lines| ==> StartsWith(lines[k], a)
  {
    forall k | 0 <= k < |lines| ensures StartsWith(lines[k], a) {
      StartsWithShorter(lines[k], a, b);
    }
  }

  /** A concatenation starts with its first part. */
  lemma StartsWithConcat(a: string, b: string)
    ensures StartsWith(a + b, a)
  {
    assert (a + b)[..|a|] == a;
  }

  /** Replacement introduces no character that is in neither the input nor the replacement. */
  lemma {:induction false} ReplaceAllChars(s: string, pat: string, rep: string, c: char)
    requires pat != []
    ensures c in ReplaceAll(s, pat, rep) ==> c in s || c in rep
    decreases |s|
  {
    if s != [] {
      if OccursAt(s, pat, 0) {
        ReplaceAllChars(s[|pat|..], pat, rep, c);
        if c in ReplaceAll(s[|pat|..], pat, rep) && c in s[|pat|..] {
          var k :| 0 <= k < |s[|pat|..]| && s[|pat|..][k] == c;
          assert s[|pat| + k] == c;
        }
      } else {
        ReplaceAllChars(s[1..], pat, rep, c);
        if c in ReplaceAll(s[1..], pat, rep) && c in s[1..] {
          var k :| 0 <= k < |s[1..]| && s[1..][k] == c;
          assert s[1 + k] == c;
        }
      }
    }
  }

  function DigitChar(d: nat): (c: char)
    requires d < 10
    ensures IsDigit(c)
  {
    ('0' as int + d) as char
  }

  /** `str(n)` for a non-negative integer. */
  function NatToString(n: nat): (r: string)
    ensures r != [] && forall k :: 0 <= k < |r| ==> IsDigit(r[k])
  {
    if n < 10 then [DigitChar(n)] else NatToString(n / 10) + [DigitChar(n % 10)]
  }

  /** The number a run of decimal digits denotes, most significant digit first. */
  function DigitsValue(s: string): (v: nat)
    requires forall k :: 0 <= k < |s| ==> IsDigit(s[k])
  {
    if s == [] then 0
    else
      var d := s[|s| - 1];
      assert IsDigit(d);
      DigitsValue(s[..|s| - 1]) * 10 + (d as int - '0' as int)
  }

  /** `str(n)` reads back as `n`. */
  lemma {:induction false} NatToStringValue(n: nat)
    ensures DigitsValue(NatToString(n)) == n
    decreases n
  {
    var r := NatToString(n);
    if n >= 10 {
      NatToStringValue(n / 10);
      assert r[..|r| - 1] == NatToString(n / 10);
    } else {
      assert r[..|r| - 1] == [];
    }
  }

  /** Different numbers are rendered differently. */
  lemma NatToStringInjective(m: nat, n: nat)
    requires NatToString(m) == NatToString(n)
    ensures m == n
  {
    NatToStringValue(m);
    NatToStringValue(n);
  }

  /** Length of the run of decimal digits at the start of `s`. */
  function DigitRun(s: string): (n: nat)
    ensures n <= |s|
    ensures forall k :: 0 <= k < n ==> IsDigit(s[k])
    ensures n < |s| ==> !IsDigit(s[n])
  {
    if |s| > 0 && IsDigit(s[0]) then 1 + DigitRun(s[1..]) else 0
  }

  /** The digit run of a numeral followed by a non-digit covers exactly the numeral. */
  lemma {:induction false} DigitRunOfDigits(digits: string, tail: string)
    requires forall k :: 0 <= k < |digits| ==> IsDigit(digits[k])
    requires tail == [] || !IsDigit(tail[0])
    ensures DigitRun(digits + tail) == |digits|
    decreases |digits|
  {
    if digits != [] {
      assert (digits + tail)[1..] == digits[1..] + tail;
      DigitRunOfDigits(digits[1..], tail);
    } else {
      assert digits + tail == tail;
    }
  }

  /** A number rendered between a fixed lead and a non-digit separator reads back: equal texts mean equal numbers. */
  lemma RankReadBack(lead: string, m: nat, u: string, n: nat, v: string)
    requires u != [] && !IsDigit(u[0]) && v != [] && !IsDigit(v[0])
    requires lead + NatToString(m) + u == lead + NatToString(n) + v
    ensures m == n
  {
    var x, y := NatToString(m), NatToString(n);
    assert (lead + x + u)[|lead|..] == x + u;
    assert (lead + y + v)[|lead|..] == y + v;
    DigitRunOfDigits(x, u);
    DigitRunOfDigits(y, v);
    assert (x + u)[..|x|] == x;
    assert (y + v)[..|y|] == y;
    NatToStringInjective(m, n);
  }

  /** `str(n)` for any integer. */
  function IntToString(n: int): string
  {
    if n < 0 then "-" + NatToString(-n) else NatToString(n)
  }

  /** POSIX `os.path.join(dir, name)`. */
  function PathJoin(dir: string, name: string): string
  {
    if name != [] && name[0] == '/' then name
    else if dir == [] || dir[|dir| - 1] == '/' then dir + name
    else dir + "/" + name
  }
}
