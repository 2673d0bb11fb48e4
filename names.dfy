/**
 * Title and filename normalisation: `clean_song_name` and `safe_filename`
 * of download.py.
 */
module Names {
  import opened Text

  // ---------------------------------------------------------------------
  // clean_song_name: re.sub(r"^\d+\.\s*", "", raw).strip()

  /** `s` starts with an ordinal list marker: one or more digits followed by a period. */
  predicate HasOrdinalMarker(s: string)
  {
    0 < DigitRun(s) < |s| && s[DigitRun(s)] == '.'
  }

  /** The anchored substitution: drops `digits '.' whitespace*` at index 0, if present. */
  function StripOrdinal(s: string): string
  {
    if HasOrdinalMarker(s) then TrimStart(s[DigitRun(s) + 1..]) else s
  }

  /** `clean_song_name(raw)`. */
  function CleanSongName(raw: string): (r: string)
    ensures IsTrimmed(r)
  {
    TrimSpec(StripOrdinal(raw));
    Trim(StripOrdinal(raw))
  }

  /** Trimming after the whitespace run is already removed changes nothing. */
  lemma TrimAfterTrimStart(s: string)
    ensures Trim(TrimStart(s)) == Trim(s)
  {
    TrimStartSpec(s);
  }

  /** A leading ordinal marker `d.` is removed together with the whitespace after it. */
  lemma {:induction false} CleanDropsOrdinal(digits: string, rest: string)
    requires digits != [] && forall k :: 0 <= k < |digits| ==> IsDigit(digits[k])
    ensures CleanSongName(digits + "." + rest) == Trim(rest)
  {
    var s := digits + "." + rest;
    DigitRunOfDigits(digits, "." + rest);
    assert s == digits + ("." + rest);
    assert s[|digits|] == '.';
    assert s[|digits| + 1..] == rest;
    TrimAfterTrimStart(rest);
  }

  /** Without an ordinal marker at index 0 (for instance after leading blanks), only trimming happens. */
  lemma CleanWithoutMarker(raw: string)
    requires !HasOrdinalMarker(raw)
    ensures CleanSongName(raw) == Trim(raw)
  {
  }

  /** Leading blanks are dropped by trimming. */
  lemma TrimBlankPrefix(s: string)
    ensures Trim(" " + s) == Trim(s)
  {
    assert (" " + s)[1..] == s;
  }

  /** A string that is already trimmed is left as it is. */
  lemma TrimTrimmed(s: string)
    requires IsTrimmed(s)
    ensures Trim(s) == s
  {
  }

  /** A marker, one blank and an already trimmed title: cleaning leaves exactly the title. */
  lemma CleanMarkedTrimmed(digits: string, title: string)
    requires digits != [] && forall k :: 0 <= k < |digits| ==> IsDigit(digits[k])
    requires title != [] && IsTrimmed(title)
    ensures CleanSongName(digits + ". " + title) == title
  {
    assert digits + ". " + title == digits + "." + (" " + title);
    CleanDropsOrdinal(digits, " " + title);
    TrimBlankPrefix(title);
    TrimTrimmed(title);
  }

  /** Only one marker is removed: `"1. 2. x"` becomes `"2. x"`, so cleaning is not idempotent. */
  lemma CleanNotIdempotent()
    ensures CleanSongName("1. 2. x") == "2. x"
    ensures CleanSongName("2. x") == "x"
  {
    var one, two, x := ['1'], ['2'], ['x'];
    assert "1. 2. x" == one + ". " + (two + ". " + x);
    assert "2. x" == two + ". " + x;
    CleanMarkedTrimmed(one, two + ". " + x);
    CleanMarkedTrimmed(two, x);
  }

  /** A marker behind leading whitespace is not removed; the whitespace is trimmed. */
  lemma CleanIndentedMarker()
    ensures CleanSongName(" 1. x") == "1. x"
  {
    assert DigitRun(" 1. x") == 0;
    TrimBlankPrefix("1. x");
    TrimTrimmed("1. x");
  }

  lemma CleanOrdinalExample()
    ensures CleanSongName("3. Tiến Về Hà Nội") == "Tiến Về Hà Nội"
  {
    var title := "Tiến Về Hà Nội";
    assert "3. Tiến Về Hà Nội" == ['3'] + ". " + title;
    CleanMarkedTrimmed(['3'], title);
  }

  /** A trailing blank after a non-blank start is dropped by trimming. */
  lemma TrimBlankSuffix(s: string)
    requires s != [] && !IsSpace(s[0])
    ensures Trim(s + " ") == Trim(s)
  {
    assert (s + " ")[..|s|] == s;
  }

  /** Blanks around an already trimmed title are removed and nothing else is. */
  lemma CleanPaddedTrimmed(title: string)
    requires title != [] && IsTrimmed(title)
    ensures CleanSongName("  " + title + " ") == title
  {
    var raw := "  " + title + " ";
    assert raw == " " + (" " + (title + " "));
    assert raw[0] == ' ';
    CleanWithoutMarker(raw);
    TrimBlankPrefix(" " + (title + " "));
    TrimBlankPrefix(title + " ");
    TrimBlankSuffix(title);
    TrimTrimmed(title);
  }

  lemma CleanPaddedExample()
    ensures CleanSongName("  Bài Ca Hy Vọng ") == "Bài Ca Hy Vọng"
  {
    var title := "Bài Ca Hy Vọng";
    assert "  Bài Ca Hy Vọng " == "  " + title + " ";
    CleanPaddedTrimmed(title);
  }

  // ---------------------------------------------------------------------
  // safe_filename: re.sub(r'[\\/*?:"<>|]', "", name)

  /** The nine characters the character class of `safe_filename` deletes. */
  predicate IsIllegal(c: char)
  {
    c == '\\' || c == '/' || c == '*' || c == '?' || c == ':' || c == '"' || c == '<' || c == '>' || c == '|'
  }

  /** `safe_filename(name)`. */
  function SafeFilename(name: string): (r: string)
    ensures |r| <= |name|
    ensures forall k :: 0 <= k < |r| ==> !IsIllegal(r[k])
  {
    if name == [] then []
    else (if IsIllegal(name[0]) then [] else [name[0]]) + SafeFilename(name[1..])
  }

  /** `s` holds none of the deleted characters. */
  predicate AllLegal(s: string)
  {
    forall k :: 0 <= k < |s| ==> !IsIllegal(s[k])
  }

  lemma AllLegalConcat(a: string, b: string)
    requires AllLegal(a) && AllLegal(b)
    ensures AllLegal(a + b)
  {
    forall k | 0 <= k < |a + b| ensures !IsIllegal((a + b)[k]) {
      if k < |a| {
        assert (a + b)[k] == a[k];
      } else {
        assert (a + b)[k] == b[k - |a|];
      }
    }
  }

  /** Deleting distributes over concatenation: nothing is reordered or inserted. */
  lemma {:induction false} SafeFilenameAppend(a: string, b: string)
    ensures SafeFilename(a + b) == SafeFilename(a) + SafeFilename(b)
    decreases |a|
  {
    if a == [] {
      assert a + b == b;
    } else {
      assert (a + b)[1..] == a[1..] + b;
      SafeFilenameAppend(a[1..], b);
    }
  }

  /** One character is kept exactly when it is legal. */
  lemma SafeFilenameChar(c: char)
    ensures SafeFilename([c]) == if IsIllegal(c) then [] else [c]
  {
    assert [c][1..] == [];
  }

  /** A name without illegal characters is returned unchanged. */
  lemma {:induction false} SafeFilenameKeepsLegal(name: string)
    requires forall k :: 0 <= k < |name| ==> !IsIllegal(name[k])
    ensures SafeFilename(name) == name
    decreases |name|
  {
    if name != [] {
      SafeFilenameKeepsLegal(name[1..]);
      assert [name[0]] + name[1..] == name;
    }
  }

  lemma SafeFilenameIdempotent(name: string)
    ensures SafeFilename(SafeFilename(name)) == SafeFilename(name)
  {
    SafeFilenameKeepsLegal(SafeFilename(name));
  }

  /** A character survives exactly when it was in the name and is legal. */
  lemma {:induction false} SafeFilenameMembers(name: string, c: char)
    ensures c in SafeFilename(name) <==> c in name && !IsIllegal(c)
    decreases |name|
  {
    if name != [] {
      SafeFilenameMembers(name[1..], c);
      assert name == [name[0]] + name[1..];
    }
  }

  /** A legal prefix followed by one illegal character sanitises to the prefix. */
  lemma SafeFilenameDropLast(s: string, c: char)
    requires forall k :: 0 <= k < |s| ==> !IsIllegal(s[k])
    requires IsIllegal(c)
    ensures SafeFilename(s + [c]) == s
  {
    SafeFilenameAppend(s, [c]);
    SafeFilenameKeepsLegal(s);
    SafeFilenameChar(c);
  }

  /** A legal piece and one illegal character in front of the rest: the piece is kept, the character dropped. */
  lemma SafeFilenameDropAfter(s: string, c: char, rest: string)
    requires forall k :: 0 <= k < |s| ==> !IsIllegal(s[k])
    requires IsIllegal(c)
    ensures SafeFilename(s + [c] + rest) == s + SafeFilename(rest)
  {
    SafeFilenameAppend(s + [c], rest);
    SafeFilenameDropLast(s, c);
  }

  /** Four legal pieces, each followed by an illegal character: only the pieces remain. */
  lemma SafeFilenameDropSeparators(a: string, b: string, c: string, d: string, sep: seq<char>)
    requires forall k :: 0 <= k < |a| ==> !IsIllegal(a[k])
    requires forall k :: 0 <= k < |b| ==> !IsIllegal(b[k])
    requires forall k :: 0 <= k < |c| ==> !IsIllegal(c[k])
    requires forall k :: 0 <= k < |d| ==> !IsIllegal(d[k])
    requires |sep| == 4 && forall k :: 0 <= k < 4 ==> IsIllegal(sep[k])
    ensures SafeFilename(a + [sep[0]] + (b + [sep[1]] + (c + [sep[2]] + (d + [sep[3]] + [])))) == a + (b + (c + (d + [])))
  {
    SafeFilenameDropAfter(d, sep[3], []);
    SafeFilenameDropAfter(c, sep[2], d + [sep[3]] + []);
    SafeFilenameDropAfter(b, sep[1], c + [sep[2]] + (d + [sep[3]] + []));
    SafeFilenameDropAfter(a, sep[0], b + [sep[1]] + (c + [sep[2]] + (d + [sep[3]] + [])));
  }

  lemma SafeFilenameExample()
    ensures SafeFilename("A: B/C*D?") == "A BCD"
  {
    SafeFilenameDropSeparators("A", " B", "C", "D", ":/*?");
    assert "A: B/C*D?" == "A" + [':'] + (" B" + ['/'] + ("C" + ['*'] + ("D" + ['?'] + [])));
    assert "A" + (" B" + ("C" + ("D" + []))) == "A BCD";
  }
}
