/** What snake-case normalisation guarantees about its output. */
module SnakeCaseProofs {
  import opened SnakeCaseNaming

  // ---------------------------------------------------------------------------
  // Word breaks, position by position
  // ---------------------------------------------------------------------------

  /** A capital that starts a word after an acronym. */
  predicate AcronymBreak(s: string, k: nat) {
    0 < k && k + 1 < |s| && IsUpper(s[k - 1]) && IsUpper(s[k]) && IsLower(s[k + 1])
  }

  /** A capital after a small letter or a digit. */
  predicate HumpBreak(s: string, k: nat) {
    0 < k < |s| && (IsLower(s[k - 1]) || IsDigit(s[k - 1])) && IsUpper(s[k])
  }

  /** The text from position i on, with an underscore at each break. */
  function Broken(isBreak: (string, nat) -> bool, s: string, i: nat): string
    requires i <= |s|
    decreases |s| - i
  {
    if i == |s| then ""
    else (if isBreak(s, i) then "_" else "") + s[i..i + 1] + Broken(isBreak, s, i + 1)
  }

  /** Position i is not inside a run of capitals that a small letter follows. */
  predicate OutsideAcronym(s: string, i: nat)
    requires i <= |s|
  {
    0 < i < |s| && IsUpper(s[i - 1]) && IsUpper(s[i]) && RunEnd(s, i) < |s| ==> !IsLower(s[RunEnd(s, i)])
  }

  lemma {:induction false} BrokenStep(isBreak: (string, nat) -> bool, s: string, i: nat)
    requires i < |s|
    ensures Broken(isBreak, s, i) == (if isBreak(s, i) then "_" else "") + s[i..i + 1] + Broken(isBreak, s, i + 1)
  {
  }

  lemma {:induction false} NoBreakInside(isBreak: (string, nat) -> bool, s: string, i: nat, n: nat)
    requires i + n <= |s| && (forall k :: i <= k < i + n ==> !isBreak(s, k))
    ensures Broken(isBreak, s, i) == s[i..i + n] + Broken(isBreak, s, i + n)
    decreases n
  {
    if n == 0 {
      assert s[i..i] == "";
    } else {
      var rest := Broken(isBreak, s, i + n);
      NoBreakInside(isBreak, s, i + 1, n - 1);
      BrokenStep(isBreak, s, i);
      assert s[i..i + n] == s[i..i + 1] + s[i + 1..i + n];
      assert s[i..i + 1] + (s[i + 1..i + n] + rest) == s[i..i + n] + rest;
    }
  }

  /** Inside a run of capitals the only break is before the last, if a small letter follows. */
  lemma {:induction false} BreaksOfRun(s: string, i: nat)
    requires i < |s| && OutsideAcronym(s, i) && AcronymMatch(s, i) > 0
    ensures var n := AcronymMatch(s, i);
            && AcronymBreak(s, i + n) && !AcronymBreak(s, i + n + 1)
            && (forall k :: i <= k < i + n ==> !AcronymBreak(s, k))
            && !IsUpper(s[i + n + 1])
  {
  }

  lemma {:induction false} NoBreakHere(s: string, i: nat)
    requires i < |s| && OutsideAcronym(s, i) && AcronymMatch(s, i) == 0
    ensures !AcronymBreak(s, i) && OutsideAcronym(s, i + 1)
  {
  }

  lemma {:induction false} BrokenAroundMatch(s: string, i: nat, n: nat)
    requires i + n + 2 <= |s|
    requires AcronymBreak(s, i + n) && !AcronymBreak(s, i + n + 1)
    requires forall k :: i <= k < i + n ==> !AcronymBreak(s, k)
    ensures Broken(AcronymBreak, s, i)
         == s[i..i + n] + "_" + s[i + n..i + n + 2] + Broken(AcronymBreak, s, i + n + 2)
  {
    var end := i + n + 2;
    var rest := Broken(AcronymBreak, s, end);
    NoBreakInside(AcronymBreak, s, i, n);
    BrokenStep(AcronymBreak, s, i + n);
    BrokenStep(AcronymBreak, s, i + n + 1);
    assert s[i + n..end] == s[i + n..i + n + 1] + s[i + n + 1..end];
    GroupMatch(s[i..i + n], s[i + n..i + n + 1], s[i + n + 1..end], rest);
  }

  lemma {:induction false} GroupMatch(w: string, x: string, y: string, z: string)
    ensures w + ("_" + x + ("" + y + z)) == w + "_" + (x + y) + z
  {
  }

  lemma {:induction false} MatchIsBroken(s: string, i: nat)
    requires i < |s| && OutsideAcronym(s, i) && AcronymMatch(s, i) > 0
    ensures var end := i + AcronymMatch(s, i) + 2;
            && OutsideAcronym(s, end)
            && (SplitAcronyms(s, end) == Broken(AcronymBreak, s, end) ==>
                  SplitAcronyms(s, i) == Broken(AcronymBreak, s, i))
  {
    BreaksOfRun(s, i);
    BrokenAroundMatch(s, i, AcronymMatch(s, i));
  }

  lemma {:induction false} NoMatchIsPlain(s: string, i: nat)
    requires i < |s| && OutsideAcronym(s, i) && AcronymMatch(s, i) == 0
    ensures OutsideAcronym(s, i + 1)
    ensures SplitAcronyms(s, i + 1) == Broken(AcronymBreak, s, i + 1) ==>
              SplitAcronyms(s, i) == Broken(AcronymBreak, s, i)
  {
    NoBreakHere(s, i);
    NoBreakInside(AcronymBreak, s, i, 1);
  }

  /** The left-to-right matcher inserts its underscores at the acronym breaks, and nowhere else. */
  lemma {:induction false} AcronymsSplitAtBreaks(s: string, i: nat)
    requires i <= |s| && OutsideAcronym(s, i)
    ensures SplitAcronyms(s, i) == Broken(AcronymBreak, s, i)
    decreases |s| - i
  {
    if i < |s| {
      var n := AcronymMatch(s, i);
      if n > 0 {
        MatchIsBroken(s, i);
        AcronymsSplitAtBreaks(s, i + n + 2);
      } else {
        NoMatchIsPlain(s, i);
        AcronymsSplitAtBreaks(s, i + 1);
      }
    }
  }

  lemma {:induction false} HumpsSplitAtBreaks(s: string, i: nat)
    requires i <= |s| && !HumpBreak(s, i)
    ensures SplitHumps(s, i) == Broken(HumpBreak, s, i)
    decreases |s| - i
  {
    if i < |s| {
      BrokenStep(HumpBreak, s, i);
      if HumpBreak(s, i + 1) {
        BrokenStep(HumpBreak, s, i + 1);
        HumpsSplitAtBreaks(s, i + 2);
      } else {
        HumpsSplitAtBreaks(s, i + 1);
      }
    }
  }

  // ---------------------------------------------------------------------------
  // Good segments
  // ---------------------------------------------------------------------------

  /** A letter, digit or underscore. */
  predicate IsWordChar(a: Alphabet, c: char) { c == '_' || a.IsAlnum(c) }

  ghost predicate Wordy(a: Alphabet, s: string) {
    forall k :: 0 <= k < |s| ==> IsWordChar(a, s[k])
  }

  /** A word character that lower-casing leaves alone; never A to Z. */
  predicate IsSettled(a: Alphabet, c: char) { IsWordChar(a, c) && a.ToLower(c) == c }

  ghost predicate Settled(a: Alphabet, s: string) {
    forall k :: 0 <= k < |s| ==> IsSettled(a, s[k])
  }

  ghost predicate NoDouble(s: string) {
    forall k :: 0 <= k < |s| - 1 ==> !(s[k] == '_' && s[k + 1] == '_')
  }

  ghost predicate GoodSegment(a: Alphabet, s: string) {
    s != "" && Settled(a, s) && NoDouble(s) && s[|s| - 1] != '_'
  }

  lemma {:induction false} BrokenWordy(a: Alphabet, isBreak: (string, nat) -> bool, s: string, i: nat)
    requires Wordy(a, s) && i <= |s|
    ensures Wordy(a, Broken(isBreak, s, i)) && |Broken(isBreak, s, i)| >= |s| - i
    decreases |s| - i
  {
    if i < |s| { BrokenWordy(a, isBreak, s, i + 1); }
  }

  lemma {:induction false} CollapseGood(a: Alphabet, s: string)
    requires Settled(a, s)
    ensures Settled(a, CollapseUnderscores(s)) && NoDouble(CollapseUnderscores(s))
    ensures s != "" ==> CollapseUnderscores(s) != "" && CollapseUnderscores(s)[0] == s[0]
  {
    if s != "" { CollapseGood(a, s[1..]); }
  }

  lemma {:induction false} TrailingGood(a: Alphabet, s: string)
    requires s != "" && Settled(a, s) && NoDouble(s)
    ensures GoodSegment(a, ReplaceTrailing(s))
  {
    var n := |s| - 1;
    if s[n] == '_' {
      var init := s[..n];
      assert n > 0 ==> s[n - 1] != '_';
      assert ReplaceTrailing(init) == init;
      assert ReplaceTrailing(s) == init + "x";
    }
  }

  lemma {:induction false} LowerSettled(a: Alphabet, s: string)
    requires a.Valid() && Wordy(a, s)
    ensures Settled(a, Map(a.ToLower, s))
  {
    forall k | 0 <= k < |s| ensures IsSettled(a, a.ToLower(s[k])) {
      assert IsWordChar(a, s[k]);
    }
  }

  /** Whatever a segment holds, it comes out non-empty, settled and without stray underscores. */
  lemma {:induction false} NormalizedIsGood(a: Alphabet, s: string)
    requires a.Valid() && s != ""
    ensures GoodSegment(a, NormalizeSegment(a, s))
  {
    var symbols := Map(c => Replacement(a, c), s);
    AcronymsSplitAtBreaks(symbols, 0);
    BrokenWordy(a, AcronymBreak, symbols, 0);
    HumpsSplitAtBreaks(SplitAcronyms(symbols, 0), 0);
    BrokenWordy(a, HumpBreak, SplitAcronyms(symbols, 0), 0);
    var words := SplitHumps(SplitAcronyms(symbols, 0), 0);
    LowerSettled(a, words);
    CollapseGood(a, Map(a.ToLower, words));
    TrailingGood(a, CollapseUnderscores(Map(a.ToLower, words)));
  }

  // ---------------------------------------------------------------------------
  // Good segments stay as they are
  // ---------------------------------------------------------------------------

  ghost predicate NoCapitals(s: string) { forall k :: 0 <= k < |s| ==> !IsUpper(s[k]) }

  lemma {:induction false} NothingToSplit(s: string, i: nat)
    requires NoCapitals(s) && i <= |s|
    ensures SplitAcronyms(s, i) == s[i..] && SplitHumps(s, i) == s[i..]
    decreases |s| - i
  {
    if i < |s| {
      NothingToSplit(s, i + 1);
      assert s[i..] == s[i..i + 1] + s[i + 1..];
    }
  }

  lemma {:induction false} NothingToCollapse(s: string)
    requires NoDouble(s)
    ensures CollapseUnderscores(s) == s
  {
    if s != "" {
      NothingToCollapse(s[1..]);
      assert s == s[..1] + s[1..];
    }
  }

  lemma {:induction false} GoodIsFixed(a: Alphabet, s: string)
    requires GoodSegment(a, s)
    ensures NormalizeSegment(a, s) == s
  {
    forall k | 0 <= k < |s| ensures Replacement(a, s[k]) == s[k] && a.ToLower(s[k]) == s[k] && !IsUpper(s[k]) {
      assert IsSettled(a, s[k]);
    }
    assert Map(c => Replacement(a, c), s) == s;
    NothingToSplit(s, 0);
    assert s[0..] == s;
    assert Map(a.ToLower, s) == s;
    NothingToCollapse(s);
  }

  // ---------------------------------------------------------------------------
  // Splitting what was joined
  // ---------------------------------------------------------------------------

  ghost predicate AllGood(a: Alphabet, parts: seq<string>) {
    forall k :: 0 <= k < |parts| ==> GoodSegment(a, parts[k])
  }

  /** A segment is read up to the separator that follows it. */
  lemma {:induction false} SplitPrefix(s: string, rest: string)
    requires NoDouble(s) && s != "" && s[|s| - 1] != '_'
    ensures Split(s) == [s]
    ensures Split(s + "__" + rest) == [s] + Split(rest)
  {
    var t := s + "__" + rest;
    assert t[1..] == s[1..] + "__" + rest;
    if |s| == 1 {
      var after := "__" + rest;
      assert after[2..] == rest && t[1..] == after;
      assert Split(after) == [""] + Split(rest);
      assert t[..1] + "" == s;
    } else {
      assert !(t[0] == '_' && t[1] == '_') by { assert t[0] == s[0] && t[1] == s[1]; }
      SplitPrefix(s[1..], rest);
      assert t[..1] + s[1..] == s && s[..1] + s[1..] == s;
    }
  }

  /** Re-splitting the joined segments gives the same segments. */
  lemma {:induction false} SplitOfJoin(a: Alphabet, parts: seq<string>)
    requires parts != [] && AllGood(a, parts)
    ensures Split(Join(parts)) == parts
  {
    assert GoodSegment(a, parts[0]);
    if |parts| == 1 {
      SplitPrefix(parts[0], "");
    } else {
      assert AllGood(a, parts[1..]);
      SplitOfJoin(a, parts[1..]);
      SplitPrefix(parts[0], Join(parts[1..]));
      assert parts == [parts[0]] + parts[1..];
    }
  }

  lemma {:induction false} PartsGood(a: Alphabet, parts: seq<string>)
    requires a.Valid()
    ensures AllGood(a, NormalizeParts(a, parts))
    ensures (exists k :: 0 <= k < |parts| && parts[k] != "") ==> NormalizeParts(a, parts) != []
  {
    if parts != [] {
      var n := |parts| - 1;
      PartsGood(a, parts[..n]);
      if parts[n] != "" { NormalizedIsGood(a, parts[n]); }
      if k :| 0 <= k < n && parts[k] != "" { assert parts[..n][k] != ""; }
    }
  }

  lemma {:induction false} PartsFixed(a: Alphabet, parts: seq<string>)
    requires AllGood(a, parts)
    ensures NormalizeParts(a, parts) == parts
  {
    if parts != [] {
      var n := |parts| - 1;
      var init, last := parts[..n], parts[n];
      assert GoodSegment(a, last) && parts == init + [last];
      assert AllGood(a, init) by { assert forall k :: 0 <= k < n ==> init[k] == parts[k]; }
      PartsFixed(a, init);
      GoodIsFixed(a, last);
    }
  }

  lemma {:induction false} SomePartLeft(s: string)
    requires s != "" && s[|s| - 1] != '_'
    ensures exists k :: 0 <= k < |Split(s)| && Split(s)[k] != ""
  {
    if |s| < 2 {
      assert Split(s)[0] == s;
    } else if s[0] == '_' && s[1] == '_' {
      SomePartLeft(s[2..]);
      var k :| 0 <= k < |Split(s[2..])| && Split(s[2..])[k] != "";
      assert Split(s)[k + 1] == Split(s[2..])[k];
    } else {
      assert Split(s)[0] != "";
    }
  }

  lemma {:induction false} TrailingReplaced(s: string)
    ensures |ReplaceTrailing(s)| == |s|
    ensures s != "" ==> ReplaceTrailing(s)[|s| - 1] != '_'
  {
    if s != "" && s[|s| - 1] == '_' { TrailingReplaced(s[..|s| - 1]); }
  }

  // ---------------------------------------------------------------------------
  // Main results
  // ---------------------------------------------------------------------------

  lemma {:induction false} JoinEnds(a: Alphabet, parts: seq<string>)
    requires parts != [] && AllGood(a, parts)
    ensures var s := Join(parts);
            && s != "" && s[0] == parts[0][0] && s[|s| - 1] != '_'
            && Settled(a, s)
  {
    assert GoodSegment(a, parts[0]);
    if |parts| > 1 {
      assert AllGood(a, parts[1..]);
      JoinEnds(a, parts[1..]);
      assert IsSettled(a, '_');
    }
  }

  /** The result is a join of good segments, guarded against a leading digit. */
  lemma {:induction false} ResultParts(a: Alphabet, name: string) returns (parts: seq<string>)
    requires a.Valid() && name != ""
    ensures parts != [] && AllGood(a, parts) && SnakeCase(a, name) == Join(parts)
    ensures !IsDigit(parts[0][0])
  {
    var trimmed := ReplaceTrailing(name);
    TrailingReplaced(name);
    SomePartLeft(trimmed);
    parts := NormalizeParts(a, Split(trimmed));
    PartsGood(a, Split(trimmed));
    JoinEnds(a, parts);
    if IsDigit(parts[0][0]) {
      parts := GuardedParts(a, parts);
    }
  }

  lemma {:induction false} GuardedParts(a: Alphabet, parts: seq<string>) returns (guarded: seq<string>)
    requires parts != [] && AllGood(a, parts) && parts[0] != "" && IsDigit(parts[0][0])
    ensures guarded != [] && AllGood(a, guarded) && guarded[0] == "_" + parts[0]
    ensures Join(guarded) == "_" + Join(parts)
  {
    var first, rest := "_" + parts[0], parts[1..];
    assert GoodSegment(a, parts[0]) && IsSettled(a, '_');
    assert GoodSegment(a, first);
    guarded := [first] + rest;
    assert guarded[1..] == rest;
    if rest != [] { assert "_" + (parts[0] + "__" + Join(rest)) == first + "__" + Join(rest); }
  }

  /** Output: never empty, no capitals, no leading digit, no trailing underscore, word characters only. */
  lemma {:induction false} OutputIsClean(a: Alphabet, name: string)
    requires a.Valid() && name != ""
    ensures var s := SnakeCase(a, name);
            && s != "" && !IsDigit(s[0]) && s[|s| - 1] != '_'
            && forall k :: 0 <= k < |s| ==> IsWordChar(a, s[k]) && !IsUpper(s[k])
  {
    var parts := ResultParts(a, name);
    JoinEnds(a, parts);
    var s := SnakeCase(a, name);
    forall k | 0 <= k < |s| ensures IsWordChar(a, s[k]) && !IsUpper(s[k]) {
      assert IsSettled(a, s[k]);
    }
  }

  lemma {:induction false} NoTrailing(s: string)
    requires s != "" && s[|s| - 1] != '_'
    ensures ReplaceTrailing(s) == s
  {
  }

  /** Normalising a normalised name changes nothing. */
  lemma {:induction false} SnakeCaseIsIdempotent(a: Alphabet, name: string)
    requires a.Valid()
    ensures SnakeCase(a, SnakeCase(a, name)) == SnakeCase(a, name)
  {
    if name != "" {
      var parts := ResultParts(a, name);
      var s := SnakeCase(a, name);
      JoinEnds(a, parts);
      NoTrailing(s);
      SplitOfJoin(a, parts);
      PartsFixed(a, parts);
    }
  }
}
