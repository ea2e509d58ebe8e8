/** Snake-case normalisation only moves separators about: what a name spells is kept. */
module SnakeCaseLetters {
  import opened Sequences
  import opened SnakeCaseNaming
  import opened SnakeCaseProofs

  // ---------------------------------------------------------------------------
  // Reference: what a name spells
  // ---------------------------------------------------------------------------

  const SMALL := "abcdefghijklmnopqrstuvwxyz"

  /** Underscore, hyphen, and whatever else is neither a letter or digit nor read as a letter. */
  predicate IsSeparator(a: Alphabet, c: char) {
    c == '_' || c == '-' || (c != '+' && c != '*' && c != '@' && c != '|' && !a.IsAlnum(c))
  }

  /** Four symbols are read as letters; letters become small. */
  function Spoken(a: Alphabet, c: char): char {
    if c == '+' || c == '*' then 'x'
    else if c == '@' then 'a'
    else if c == '|' then 'l'
    else if 'A' <= c <= 'Z' then SMALL[c as int - 'A' as int]
    else if IsAscii(c) then c
    else a.lowerOther(c)
  }

  function Spelled(a: Alphabet, name: string): string {
    if name == "" then ""
    else (if IsSeparator(a, name[0]) then "" else [Spoken(a, name[0])]) + Spelled(a, name[1..])
  }

  function WithoutUnderscores(s: string): string {
    if s == "" then "" else (if s[0] == '_' then "" else s[..1]) + WithoutUnderscores(s[1..])
  }

  /** Each symbol's replacement: x for plus and star, a for at, l for bar, underscores for the rest. */
  lemma {:induction false} SymbolTable(a: Alphabet, c: char)
    ensures Replacement(a, '+') == 'x' && Replacement(a, '*') == 'x' && Replacement(a, '-') == '_'
    ensures Replacement(a, '@') == 'a' && Replacement(a, '|') == 'l' && Replacement(a, ' ') == '_'
    ensures Replacement(a, c) == '_' <==> IsSeparator(a, c)
    ensures a.IsAlnum(c) ==> Replacement(a, c) == c
    ensures a.Valid() && !IsSeparator(a, c) ==> a.ToLower(Replacement(a, c)) == Spoken(a, c) != '_'
  {
    if IsUpper(c) { assert SMALL[c as int - 'A' as int] == (c as int + 32) as char by { SmallLetters(c); } }
  }

  lemma {:induction false} SmallLetters(c: char)
    requires IsUpper(c)
    ensures SMALL[c as int - 'A' as int] == (c as int + 32) as char
  {
  }

  ghost predicate UnderscoresFrom(s: string, k: nat) { forall j :: k <= j < |s| ==> s[j] == '_' }

  /** Exactly the underscores at the end become an x each. */
  lemma {:induction false} TrailingExactly(s: string, k: nat)
    requires k < |s|
    ensures |ReplaceTrailing(s)| == |s|
    ensures ReplaceTrailing(s)[k] == if UnderscoresFrom(s, k) then 'x' else s[k]
  {
    var n := |s| - 1;
    if s[n] == '_' {
      TrailingReplaced(s[..n]);
      if k < n {
        TrailingExactly(s[..n], k);
        assert UnderscoresFrom(s, k) <==> UnderscoresFrom(s[..n], k) by {
          assert forall j :: k <= j < n ==> s[..n][j] == s[j];
        }
      }
    }
  }

  // ---------------------------------------------------------------------------
  // Each pass keeps the letters
  // ---------------------------------------------------------------------------

  lemma {:induction false} UnderscoresAppend(s: string, t: string)
    ensures WithoutUnderscores(s + t) == WithoutUnderscores(s) + WithoutUnderscores(t)
  {
    if s == "" {
      assert s + t == t;
    } else {
      assert (s + t)[1..] == s[1..] + t;
      UnderscoresAppend(s[1..], t);
    }
  }

  lemma {:induction false} FirstSpells(s: string)
    requires s != ""
    ensures WithoutUnderscores(s) == WithoutUnderscores(s[..1]) + WithoutUnderscores(s[1..])
  {
    UnderscoresAppend(s[..1], s[1..]);
    assert s == s[..1] + s[1..];
  }

  lemma {:induction false} GapSpellsNothing(gap: string, c: string, rest: string)
    requires gap == "" || gap == "_"
    ensures WithoutUnderscores(gap + c + rest) == WithoutUnderscores(c) + WithoutUnderscores(rest)
  {
    UnderscoresAppend(gap + c, rest);
    UnderscoresAppend(gap, c);
    assert "_"[1..] == "";
  }

  lemma {:induction false} BrokenKeeps(isBreak: (string, nat) -> bool, s: string, i: nat)
    requires i <= |s|
    ensures WithoutUnderscores(Broken(isBreak, s, i)) == WithoutUnderscores(s[i..])
    decreases |s| - i
  {
    if i < |s| {
      BrokenKeeps(isBreak, s, i + 1);
      GapSpellsNothing(if isBreak(s, i) then "_" else "", s[i..i + 1], Broken(isBreak, s, i + 1));
      BrokenStep(isBreak, s, i);
      FirstSpells(s[i..]);
      assert s[i..][1..] == s[i + 1..] && s[i..][..1] == s[i..i + 1];
    }
  }

  lemma {:induction false} LastOf(gap: string, c: string, rest: string)
    requires c != ""
    ensures gap + c + rest != "" && Last(gap + c + rest) == if rest == "" then Last(c) else Last(rest)
  {
  }

  lemma {:induction false} BrokenLast(isBreak: (string, nat) -> bool, s: string, i: nat)
    requires i < |s|
    ensures Broken(isBreak, s, i) != "" && Last(Broken(isBreak, s, i)) == Last(s)
    decreases |s| - i
  {
    var rest := Broken(isBreak, s, i + 1);
    BrokenStep(isBreak, s, i);
    LastOf(if isBreak(s, i) then "_" else "", s[i..i + 1], rest);
    if i + 1 < |s| { BrokenLast(isBreak, s, i + 1); }
  }

  /** The last character; an underscore if there is none. */
  function Last(s: string): char { if s == "" then '_' else s[|s| - 1] }

  lemma {:induction false} CollapseKeeps(s: string)
    ensures WithoutUnderscores(CollapseUnderscores(s)) == WithoutUnderscores(s)
    ensures (s == "" <==> CollapseUnderscores(s) == "") && Last(CollapseUnderscores(s)) == Last(s)
  {
    if s != "" {
      CollapseKeeps(s[1..]);
      if !(s[0] == '_' && |s| > 1 && s[1] == '_') {
        UnderscoresAppend(s[..1], CollapseUnderscores(s[1..]));
        assert s == s[..1] + s[1..];
        UnderscoresAppend(s[..1], s[1..]);
      }
    }
  }

  lemma {:induction false} LowerKeeps(a: Alphabet, s: string)
    requires a.Valid() && Wordy(a, s)
    ensures WithoutUnderscores(Map(a.ToLower, s)) == Map(a.ToLower, WithoutUnderscores(s))
  {
    if s != "" {
      var rest := s[1..];
      assert Map(a.ToLower, s)[1..] == Map(a.ToLower, rest);
      assert Map(a.ToLower, s)[..1] == [a.ToLower(s[0])];
      assert Wordy(a, rest) by { assert forall k :: 0 <= k < |rest| ==> rest[k] == s[k + 1]; }
      LowerKeeps(a, rest);
      LowerKeepsUnderscore(a, s[0]);
      MapFirst(a, s[0], WithoutUnderscores(rest));
    }
  }

  lemma {:induction false} MapFirst(a: Alphabet, c: char, s: string)
    ensures Map(a.ToLower, [c] + s) == [a.ToLower(c)] + Map(a.ToLower, s)
  {
  }

  lemma {:induction false} LowerLast(a: Alphabet, s: string)
    requires a.Valid() && Wordy(a, s)
    ensures Last(Map(a.ToLower, s)) == '_' <==> Last(s) == '_'
  {
    if s != "" { LowerKeepsUnderscore(a, s[|s| - 1]); }
  }

  lemma {:induction false} LowerKeepsUnderscore(a: Alphabet, c: char)
    requires a.Valid() && IsWordChar(a, c)
    ensures a.ToLower(c) == '_' <==> c == '_'
  {
  }

  lemma {:induction false} SymbolsSpell(a: Alphabet, s: string)
    requires a.Valid()
    ensures Map(a.ToLower, WithoutUnderscores(Map(c => Replacement(a, c), s))) == Spelled(a, s)
    ensures Last(s) != '_' && !IsSeparator(a, Last(s)) ==> Last(Map(c => Replacement(a, c), s)) != '_'
  {
    if s != "" {
      assert Map(c => Replacement(a, c), s)[1..] == Map(c => Replacement(a, c), s[1..]);
      SymbolsSpell(a, s[1..]);
      SymbolTable(a, s[0]);
      SymbolTable(a, s[|s| - 1]);
    }
  }

  /** Splitting into words only inserts underscores. */
  lemma {:induction false} WordsKeep(a: Alphabet, s: string)
    requires Wordy(a, s) && s != ""
    ensures var words := SplitHumps(SplitAcronyms(s, 0), 0);
            Wordy(a, words) && WithoutUnderscores(words) == WithoutUnderscores(s) && Last(words) == Last(s)
  {
    var split := SplitAcronyms(s, 0);
    AcronymsSplitAtBreaks(s, 0);
    BrokenWordy(a, AcronymBreak, s, 0);
    BrokenKeeps(AcronymBreak, s, 0);
    BrokenLast(AcronymBreak, s, 0);
    HumpsSplitAtBreaks(split, 0);
    BrokenWordy(a, HumpBreak, split, 0);
    BrokenKeeps(HumpBreak, split, 0);
    BrokenLast(HumpBreak, split, 0);
    assert s[0..] == s && split[0..] == split;
  }

  lemma {:induction false} SymbolsWordy(a: Alphabet, s: string)
    ensures Wordy(a, Map(c => Replacement(a, c), s))
  {
  }

  /** A segment that does not end in a separator spells what it spelled. */
  lemma {:induction false} SegmentKeeps(a: Alphabet, s: string)
    requires a.Valid() && s != "" && !IsSeparator(a, Last(s))
    ensures WithoutUnderscores(NormalizeSegment(a, s)) == Spelled(a, s)
  {
    var symbols := Map(c => Replacement(a, c), s);
    var words := SplitHumps(SplitAcronyms(symbols, 0), 0);
    SymbolsSpell(a, s);
    SymbolsWordy(a, s);
    WordsKeep(a, symbols);
    LowerKeeps(a, words);
    LowerLast(a, words);
    CollapseKeeps(Map(a.ToLower, words));
  }

  // ---------------------------------------------------------------------------
  // Splitting and joining keep the letters
  // ---------------------------------------------------------------------------

  function SpelledAll(a: Alphabet, parts: seq<string>): string {
    if parts == [] then "" else Spelled(a, parts[0]) + SpelledAll(a, parts[1..])
  }

  lemma {:induction false} SpelledAppend(a: Alphabet, s: string, t: string)
    ensures Spelled(a, s + t) == Spelled(a, s) + Spelled(a, t)
  {
    if s == "" {
      assert s + t == t;
    } else {
      assert (s + t)[1..] == s[1..] + t;
      SpelledAppend(a, s[1..], t);
    }
  }

  lemma {:induction false} SplitSpells(a: Alphabet, s: string)
    ensures SpelledAll(a, Split(s)) == Spelled(a, s)
  {
    if |s| < 2 {
      assert Split(s)[1..] == [];
    } else if s[0] == '_' && s[1] == '_' {
      SplitSpells(a, s[2..]);
      assert Split(s)[1..] == Split(s[2..]);
      assert s[1..][1..] == s[2..];
    } else {
      var rest := Split(s[1..]);
      SplitSpells(a, s[1..]);
      assert Split(s)[1..] == rest[1..];
      SpelledAppend(a, s[..1], rest[0]);
      SpelledFirst(a, s);
    }
  }

  lemma {:induction false} SpelledFirst(a: Alphabet, s: string)
    requires s != ""
    ensures Spelled(a, s) == Spelled(a, s[..1]) + Spelled(a, s[1..])
  {
    SpelledAppend(a, s[..1], s[1..]);
    assert s == s[..1] + s[1..];
  }

  lemma {:induction false} EmptyFirst(s: string)
    ensures Split(s)[0] == "" ==> s == "" || (|s| > 1 && s[0] == '_' && s[1] == '_')
  {
  }

  /** No symbol that becomes an underscore stands before an underscore, or at the end. */
  ghost predicate NoneAtAnEnd(a: Alphabet, s: string) {
    && (s != "" ==> !IsSeparator(a, Last(s)))
    && forall k :: 0 <= k < |s| - 1 && s[k + 1] == '_' ==> s[k] == '_' || !IsSeparator(a, s[k])
  }

  ghost predicate EndWell(a: Alphabet, parts: seq<string>) {
    forall k :: 0 <= k < |parts| && parts[k] != "" ==> !IsSeparator(a, Last(parts[k]))
  }

  lemma {:induction false} PartsEndWell(a: Alphabet, s: string)
    requires NoneAtAnEnd(a, s)
    ensures EndWell(a, Split(s))
  {
    if |s| < 2 {
    } else if s[0] == '_' && s[1] == '_' {
      assert |s| > 2;
      forall k | 0 <= k < |s[2..]| - 1 && s[2..][k + 1] == '_'
        ensures s[2..][k] == '_' || !IsSeparator(a, s[2..][k])
      {
        assert s[k + 2 + 1] == '_';
      }
      PartsEndWell(a, s[2..]);
      assert Split(s)[1..] == Split(s[2..]);
    } else {
      forall k | 0 <= k < |s[1..]| - 1 && s[1..][k + 1] == '_'
        ensures s[1..][k] == '_' || !IsSeparator(a, s[1..][k])
      {
        assert s[k + 1 + 1] == '_';
      }
      PartsEndWell(a, s[1..]);
      FirstEndsWell(a, s);
      assert Split(s)[1..] == Split(s[1..])[1..];
    }
  }

  lemma {:induction false} FirstEndsWell(a: Alphabet, s: string)
    requires |s| >= 2 && !(s[0] == '_' && s[1] == '_') && NoneAtAnEnd(a, s) && EndWell(a, Split(s[1..]))
    ensures Split(s)[0] != "" && !IsSeparator(a, Last(Split(s)[0]))
  {
    var rest := Split(s[1..]);
    EmptyFirst(s[1..]);
    if rest[0] == "" {
      assert s[0 + 1] == '_';
    }
  }

  lemma {:induction false} PartsKeep(a: Alphabet, parts: seq<string>)
    requires a.Valid() && EndWell(a, parts)
    ensures WithoutUnderscores(Join(NormalizeParts(a, parts))) == SpelledAll(a, parts)
  {
    JoinKeeps(NormalizeParts(a, parts));
    NormalizedSpell(a, parts);
  }

  function LettersOf(parts: seq<string>): string {
    if parts == [] then "" else LettersOf(parts[..|parts| - 1]) + WithoutUnderscores(parts[|parts| - 1])
  }

  /** Without the first and without the last, in either order. */
  lemma {:induction false} InnerParts(parts: seq<string>, n: nat)
    requires n == |parts| - 1 && n > 0
    ensures parts[..n][1..] == parts[1..][..n - 1] && parts[..n][0] == parts[0]
    ensures |parts[1..]| == n && parts[1..][n - 1] == parts[n]
  {
  }

  lemma {:induction false} LettersFirst(parts: seq<string>)
    requires parts != []
    ensures LettersOf(parts) == WithoutUnderscores(parts[0]) + LettersOf(parts[1..])
  {
    var n := |parts| - 1;
    if n > 0 {
      InnerParts(parts, n);
      LettersFirst(parts[..n]);
      Regroup(WithoutUnderscores(parts[0]), LettersOf(parts[1..][..n - 1]), WithoutUnderscores(parts[n]));
    } else {
      assert parts[..0] == [] && parts[1..] == [];
    }
  }

  lemma {:induction false} SeparatorSpellsNothing(s: string, rest: string)
    ensures WithoutUnderscores(s + "__" + rest) == WithoutUnderscores(s) + WithoutUnderscores(rest)
  {
    var none := "";
    UnderscoresAppend(s + "__", rest);
    UnderscoresAppend(s, "__");
    assert "__"[1..] == "_" && "_"[1..] == none;
  }

  lemma {:induction false} JoinKeeps(parts: seq<string>)
    ensures WithoutUnderscores(Join(parts)) == LettersOf(parts)
  {
    if |parts| == 1 {
      assert parts[..0] == [];
    } else if |parts| > 1 {
      JoinKeeps(parts[1..]);
      LettersFirst(parts);
      SeparatorSpellsNothing(parts[0], Join(parts[1..]));
    }
  }

  lemma {:induction false} SpelledLast(a: Alphabet, parts: seq<string>)
    requires parts != []
    ensures SpelledAll(a, parts) == SpelledAll(a, parts[..|parts| - 1]) + Spelled(a, parts[|parts| - 1])
  {
    var n := |parts| - 1;
    if n > 0 {
      InnerParts(parts, n);
      SpelledLast(a, parts[1..]);
      Regroup(Spelled(a, parts[0]), SpelledAll(a, parts[..n][1..]), Spelled(a, parts[n]));
    } else {
      assert parts[..0] == [] && parts[1..] == [];
    }
  }

  lemma {:induction false} NormalizedSpell(a: Alphabet, parts: seq<string>)
    requires a.Valid() && EndWell(a, parts)
    ensures LettersOf(NormalizeParts(a, parts)) == SpelledAll(a, parts)
  {
    if parts != [] {
      var n := |parts| - 1;
      var init, last := parts[..n], parts[n];
      assert EndWell(a, init) by { assert forall k :: 0 <= k < n ==> init[k] == parts[k]; }
      NormalizedSpell(a, init);
      SpelledLast(a, parts);
      if last != "" {
        var before := NormalizeParts(a, init);
        SegmentKeeps(a, last);
        assert (before + [NormalizeSegment(a, last)])[..|before|] == before;
      } else {
        assert NormalizeParts(a, parts) == NormalizeParts(a, init);
      }
    }
  }

  // ---------------------------------------------------------------------------
  // Main result
  // ---------------------------------------------------------------------------

  /**
   Underscores apart, the normalised name spells what the name spelled, in small letters: nothing
   is lost, added or moved. A separator at the end of the name, or before an underscore,
   is the exception; there the program writes an x.
   */
  lemma {:induction false} LettersAreKept(a: Alphabet, name: string)
    requires a.Valid() && NoneAtAnEnd(a, name)
    ensures WithoutUnderscores(SnakeCase(a, name)) == Spelled(a, name)
  {
    if name != "" {
      assert ReplaceTrailing(name) == name;
      var parts := Split(name);
      var joined := Join(NormalizeParts(a, parts));
      PartsEndWell(a, name);
      PartsKeep(a, parts);
      SplitSpells(a, name);
      if joined != "" && IsDigit(joined[0]) { assert ("_" + joined)[1..] == joined; }
    }
  }
}
