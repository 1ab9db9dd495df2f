/** The string helpers that several parts of the program use. */
module Text {
  /** `unicode.IsSpace`. */
  predicate IsSpace(c: char) {
    || '\t' <= c <= '\r' || c == ' ' || c == '\U{0085}' || c == '\U{00a0}'
    || c == '\U{1680}' || '\U{2000}' <= c <= '\U{200a}' || c == '\U{2028}' || c == '\U{2029}'
    || c == '\U{202f}' || c == '\U{205f}' || c == '\U{3000}'
  }

  predicate NoSpace(s: string) { forall i | 0 <= i < |s| :: !IsSpace(s[i]) }

  predicate Trimmed(s: string) { s == "" || (!IsSpace(s[0]) && !IsSpace(s[|s| - 1])) }

  /** `strings.TrimSpace`. */
  function TrimSpace(s: string): (t: string)
    ensures Trimmed(t) && |t| <= |s|
    ensures Trimmed(s) ==> t == s
  {
    if s == "" then ""
    else if IsSpace(s[0]) then TrimSpace(s[1..])
    else if IsSpace(s[|s| - 1]) then TrimSpace(s[..|s| - 1])
    else s
  }

  /** The Unicode White_Space characters, written out. */
  lemma SpacesAre(c: char)
    ensures IsSpace(c) <==> c in [
      '\t', '\n', '\U{000b}', '\U{000c}', '\r', ' ', '\U{0085}', '\U{00a0}', '\U{1680}', '\U{2000}', '\U{2001}',
      '\U{2002}', '\U{2003}', '\U{2004}', '\U{2005}', '\U{2006}', '\U{2007}', '\U{2008}', '\U{2009}', '\U{200a}',
      '\U{2028}', '\U{2029}', '\U{202f}', '\U{205f}', '\U{3000}']
  {
  }

  predicate Blank(s: string) { forall i | 0 <= i < |s| :: IsSpace(s[i]) }

  /** `core` with nothing but spaces around it. */
  ghost predicate Padded(s: string, core: string) {
    exists before, after :: Blank(before) && Blank(after) && s == before + core + after
  }

  lemma PaddedMore(s: string, core: string, c: char)
    requires Padded(s, core) && IsSpace(c)
    ensures Padded([c] + s, core) && Padded(s + [c], core)
  {
    var before, after :| Blank(before) && Blank(after) && s == before + core + after;
    assert [c] + s == ([c] + before) + core + after && s + [c] == before + core + (after + [c]);
    assert Blank([c] + before) && Blank(after + [c]);
  }

  lemma {:induction false} TrimIsPadded(s: string)
    ensures Padded(s, TrimSpace(s))
  {
    hide Padded, IsSpace;
    if s == "" || (!IsSpace(s[0]) && !IsSpace(s[|s| - 1])) {
      AsItIs(s);
    } else if IsSpace(s[0]) {
      TrimIsPadded(s[1..]);
      PaddedMore(s[1..], TrimSpace(s), s[0]);
      assert s == [s[0]] + s[1..];
    } else {
      TrimIsPadded(s[..|s| - 1]);
      PaddedMore(s[..|s| - 1], TrimSpace(s), s[|s| - 1]);
      assert s == s[..|s| - 1] + [s[|s| - 1]];
    }
  }

  lemma AsItIs(s: string)
    ensures Padded(s, s)
  {
    assert s == "" + s + "" && Blank("");
  }

  lemma {:induction false} TrimOfPadded(before: string, core: string, after: string)
    requires Blank(before) && Blank(after) && Trimmed(core)
    ensures TrimSpace(before + core + after) == core
    decreases |before| + |after|
  {
    var s := before + core + after;
    hide IsSpace;
    if before != "" {
      assert s[1..] == before[1..] + core + after;
      TrimOfPadded(before[1..], core, after);
    } else if after == "" {
      assert s == core;
    } else if core == "" {
      assert s == after && s[1..] == before + core + after[1..];
      TrimOfPadded(before, core, after[1..]);
    } else {
      assert s[..|s| - 1] == before + core + after[..|after| - 1] && s[0] == core[0];
      assert s[|s| - 1] == after[|after| - 1];
      TrimOfPadded(before, core, after[..|after| - 1]);
    }
  }

  /** Trimming keeps exactly what lies between the outer spaces. */
  lemma TrimExactly(s: string, core: string)
    ensures TrimSpace(s) == core <==> Trimmed(core) && Padded(s, core)
  {
    TrimIsPadded(s);
    if Trimmed(core) && Padded(s, core) {
      var before, after :| Blank(before) && Blank(after) && s == before + core + after;
      TrimOfPadded(before, core, after);
    }
    hide Padded;
  }

  predicate IsWord(w: string) { w != "" && NoSpace(w) }

  /** `strings.Fields`: `word` is the run of non-spaces read so far. */
  function FieldsFrom(word: string, s: string): (words: seq<string>)
    requires NoSpace(word)
    ensures forall i | 0 <= i < |words| :: IsWord(words[i])
    decreases |s|
  {
    var done := if word == "" then [] else [word];
    if s == "" then done
    else if IsSpace(s[0]) then done + FieldsFrom("", s[1..])
    else FieldsFrom(word + [s[0]], s[1..])
  }

  function Fields(s: string): (words: seq<string>)
    ensures forall i | 0 <= i < |words| :: IsWord(words[i])
  {
    FieldsFrom("", s)
  }

  /** Gaps and words in turn. */
  function Woven(gaps: seq<string>, words: seq<string>): string
    requires |gaps| == |words| + 1
  {
    if words == [] then gaps[0] else gaps[0] + words[0] + Woven(gaps[1..], words[1..])
  }

  /** Words with blank gaps around them, none of the inner ones empty. */
  predicate Reads(s: string, gaps: seq<string>, words: seq<string>) {
    && |gaps| == |words| + 1 && s == Woven(gaps, words)
    && (forall i | 0 <= i < |gaps| :: Blank(gaps[i]))
    && (forall i | 0 < i < |words| :: gaps[i] != "")
    && (forall i | 0 <= i < |words| :: IsWord(words[i]))
  }

  /** The words and the spaces between them make up the text: no word is dropped, split or joined. */
  lemma {:induction false} FieldsAreTheText(word: string, s: string) returns (gaps: seq<string>)
    requires NoSpace(word)
    ensures Reads(word + s, gaps, FieldsFrom(word, s)) && (word != "" ==> gaps[0] == "")
    decreases |s|
  {
    hide IsSpace;
    if s == "" {
      gaps := LastWord(word);
      assert word + s == word;
    } else if IsSpace(s[0]) {
      var rest := FieldsAreTheText("", s[1..]);
      var words := FieldsFrom("", s[1..]);
      assert "" + s[1..] == s[1..] && s == [s[0]] + s[1..];
      gaps := GapGrows(s[0], s[1..], rest, words);
      if word != "" { gaps := WordLeads(word, s, gaps, words); } else { assert word + s == s && [] + words == words; }
    } else {
      gaps := FieldsAreTheText(word + [s[0]], s[1..]);
      assert word + [s[0]] + s[1..] == word + s;
    }
  }

  lemma LastWord(word: string) returns (gaps: seq<string>)
    requires NoSpace(word)
    ensures Reads(word, gaps, if word == "" then [] else [word]) && gaps[0] == ""
  {
    gaps := if word == "" then [""] else ["", ""];
    if word != "" {
      assert [word][1..] == [] && ["", ""][1..] == [""];
      assert "" + word + Woven([""], []) == word;
    }
  }

  lemma WordLeads(word: string, s: string, gaps: seq<string>, words: seq<string>) returns (gaps': seq<string>)
    requires Reads(s, gaps, words) && IsWord(word) && gaps[0] != ""
    ensures Reads(word + s, gaps', [word] + words) && gaps'[0] == ""
  {
    gaps' := [""] + gaps;
    assert gaps'[1..] == gaps && ([word] + words)[1..] == words;
    assert "" + word + s == word + s;
  }

  lemma GapGrows(c: char, s: string, gaps: seq<string>, words: seq<string>) returns (gaps': seq<string>)
    requires Reads(s, gaps, words) && IsSpace(c)
    ensures Reads([c] + s, gaps', words) && gaps'[0] != ""
  {
    gaps' := gaps[0 := [c] + gaps[0]];
    assert gaps'[1..] == gaps[1..];
    if words != [] {
      assert [c] + gaps[0] + words[0] + Woven(gaps[1..], words[1..])
          == [c] + (gaps[0] + words[0] + Woven(gaps[1..], words[1..]));
    }
  }

  /** `strings.Join` with a one-character separator. */
  function Join(parts: seq<string>, sep: char): string {
    if parts == [] then "" else if |parts| == 1 then parts[0] else parts[0] + [sep] + Join(parts[1..], sep)
  }

  /** `strings.Split` with a one-character separator. */
  function Split(s: string, sep: char): (parts: seq<string>)
    ensures |parts| > 0
  {
    if s == "" then [""]
    else
      var rest := Split(s[1..], sep);
      if s[0] == sep then [""] + rest else [[s[0]] + rest[0]] + rest[1..]
  }

  /** Joining undoes splitting. */
  lemma {:induction false} JoinSplit(s: string, sep: char)
    ensures Join(Split(s, sep), sep) == s
  {
    if s != "" {
      JoinSplit(s[1..], sep);
      var rest := Split(s[1..], sep);
      assert s == [s[0]] + s[1..] && rest == [rest[0]] + rest[1..];
      if s[0] == sep {
        assert ([""] + rest)[1..] == rest;
      } else if |rest| > 1 {
        assert ([[s[0]] + rest[0]] + rest[1..])[1..] == rest[1..];
        assert [s[0]] + (rest[0] + [sep] + Join(rest[1..], sep)) == [s[0]] + rest[0] + [sep] + Join(rest[1..], sep);
      }
    }
  }

  lemma {:induction false} SplitClean(s: string, sep: char)
    ensures forall i | 0 <= i < |Split(s, sep)| :: sep !in Split(s, sep)[i]
  {
    if s != "" { SplitClean(s[1..], sep); }
  }

  lemma {:induction false} SplitPlain(s: string, sep: char)
    requires sep !in s
    ensures Split(s, sep) == [s]
  {
    if s != "" {
      SplitPlain(s[1..], sep);
      assert [s[0]] + s[1..] == s;
    }
  }

  lemma {:induction false} SplitConcat(s: string, t: string, sep: char)
    ensures Split(s + [sep] + t, sep) == Split(s, sep) + Split(t, sep)
  {
    var all := s + [sep] + t;
    SplitOnce(all, sep);
    SplitOnce(s, sep);
    hide Split;
    if s == "" {
      assert all[1..] == t;
    } else {
      SplitConcat(s[1..], t, sep);
      assert all[1..] == s[1..] + [sep] + t && all[0] == s[0];
      LetterBefore(s[0], Split(s[1..], sep), Split(t, sep));
    }
  }

  lemma SplitOnce(s: string, sep: char)
    ensures s == "" ==> Split(s, sep) == [""]
    ensures s != "" ==>
      Split(s, sep) == if s[0] == sep then [""] + Split(s[1..], sep) else Lengthened(s[0], Split(s[1..], sep))
  {
  }

  /** The first part with one more letter before it. */
  function Lengthened(c: char, parts: seq<string>): seq<string>
    requires parts != []
  {
    [[c] + parts[0]] + parts[1..]
  }

  lemma LetterBefore(c: char, a: seq<string>, b: seq<string>)
    requires a != []
    ensures Lengthened(c, a + b) == Lengthened(c, a) + b && [""] + (a + b) == ([""] + a) + b
  {
    assert (a + b)[1..] == a[1..] + b;
  }

  lemma {:induction false} JoinConcat(a: seq<string>, b: seq<string>, sep: char)
    requires a != [] && b != []
    ensures Join(a + b, sep) == Join(a, sep) + [sep] + Join(b, sep)
  {
    assert (a + b)[0] == a[0];
    if |a| == 1 {
      assert (a + b)[1..] == b;
    } else {
      JoinConcat(a[1..], b, sep);
      assert (a + b)[1..] == a[1..] + b;
    }
  }

  /** `piece` holds no separator and lies between separators or the ends. */
  ghost predicate Between(s: string, piece: string, sep: char) {
    sep !in piece && exists before, after :: Lies(s, before, piece, after, sep)
  }

  predicate Lies(s: string, before: string, piece: string, after: string, sep: char) {
    && s == before + piece + after
    && (before == "" || before[|before| - 1] == sep) && (after == "" || after[0] == sep)
  }

  /** Splitting gives exactly the pieces between separators. */
  lemma SplitExactly(s: string, piece: string, sep: char)
    ensures piece in Split(s, sep) <==> Between(s, piece, sep)
  {
    var parts := Split(s, sep);
    if i :| 0 <= i < |parts| && parts[i] == piece {
      SplitClean(s, sep);
      JoinSplit(s, sep);
      PieceLies(parts, i, sep);
    }
    if Between(s, piece, sep) {
      var before, after :| Lies(s, before, piece, after, sep);
      PieceFound(before, piece, after, sep);
    }
  }

  lemma PieceLies(parts: seq<string>, i: nat, sep: char)
    requires i < |parts| && sep !in parts[i]
    ensures Between(Join(parts, sep), parts[i], sep)
  {
    var rest := parts[i..];
    FirstLeads(rest, sep);
    hide Join;
    var after := Join(rest, sep)[|parts[i]|..];
    assert Join(rest, sep) == parts[i] + after;
    var before := "";
    if i > 0 {
      before := Join(parts[..i], sep) + [sep];
      assert parts == parts[..i] + rest;
      JoinConcat(parts[..i], rest, sep);
      assert before + Join(rest, sep) == before + parts[i] + after;
    } else {
      assert rest == parts;
    }
    assert Lies(Join(parts, sep), before, parts[i], after, sep);
  }

  /** A joined list begins with its first part and, if there is more, a separator. */
  lemma FirstLeads(parts: seq<string>, sep: char)
    requires parts != []
    ensures var s, n := Join(parts, sep), |parts[0]|;
      n <= |s| && s[..n] == parts[0] && (n < |s| ==> s[n] == sep)
  {
  }

  lemma PieceFound(before: string, piece: string, after: string, sep: char)
    requires sep !in piece
    requires (before == "" || before[|before| - 1] == sep) && (after == "" || after[0] == sep)
    ensures piece in Split(before + piece + after, sep)
  {
    hide Split;
    SplitPlain(piece, sep);
    var rest := piece + after;
    if after != "" {
      SplitConcat(piece, after[1..], sep);
      assert after == [sep] + after[1..] && rest == piece + [sep] + after[1..];
    } else {
      assert rest == piece;
    }
    assert piece in Split(rest, sep);
    if before != "" {
      var front := before[..|before| - 1];
      SplitConcat(front, rest, sep);
      assert before == front + [sep] && before + piece + after == front + [sep] + rest;
    } else {
      assert before + piece + after == rest;
    }
  }

  lemma {:induction false} SplitPrefix(s: string, t: string, sep: char)
    requires sep !in s
    ensures Split(s + [sep] + t, sep) == [s] + Split(t, sep)
  {
    var all := s + [sep] + t;
    if s == "" {
      assert all[1..] == t;
    } else {
      SplitPrefix(s[1..], t, sep);
      assert all[1..] == s[1..] + [sep] + t;
      assert [s[0]] + s[1..] == s;
    }
  }

  /** Splitting undoes joining when no part holds the separator. */
  lemma {:induction false} SplitJoin(parts: seq<string>, sep: char)
    requires parts != [] && forall i | 0 <= i < |parts| :: sep !in parts[i]
    ensures Split(Join(parts, sep), sep) == parts
  {
    if |parts| == 1 {
      SplitPlain(parts[0], sep);
    } else {
      SplitJoin(parts[1..], sep);
      SplitPrefix(parts[0], Join(parts[1..], sep), sep);
    }
  }

  /** So joining words loses nothing. */
  lemma JoinInjective(a: seq<string>, b: seq<string>, sep: char)
    requires a != [] && b != []
    requires forall i | 0 <= i < |a| :: sep !in a[i]
    requires forall i | 0 <= i < |b| :: sep !in b[i]
    ensures Join(a, sep) == Join(b, sep) <==> a == b
  {
    SplitJoin(a, sep);
    SplitJoin(b, sep);
  }
}
