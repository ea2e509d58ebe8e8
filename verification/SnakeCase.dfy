/**
 Snake-case normalisation of column names. Letters beyond ASCII are abstract: a character class
 and a lower-casing with the few properties that matter here.
 */
module SnakeCaseNaming {

  // ---------------------------------------------------------------------------
  // Characters
  // ---------------------------------------------------------------------------

  predicate IsUpper(c: char) { 'A' <= c <= 'Z' }

  predicate IsLower(c: char) { 'a' <= c <= 'z' }

  predicate IsDigit(c: char) { '0' <= c <= '9' }

  predicate IsAscii(c: char) { c < '\U{0080}' }

  /** `isOther` are the letters and digits beyond ASCII, `lowerOther` their lower-casing. */
  datatype Alphabet = Alphabet(isOther: char -> bool, lowerOther: char -> char)
  {
    predicate IsAlnum(c: char) {
      if IsAscii(c) then IsUpper(c) || IsLower(c) || IsDigit(c) else isOther(c)
    }

    function ToLower(c: char): char {
      if IsUpper(c) then (c as int + 32) as char
      else if IsAscii(c) || !isOther(c) then c
      else lowerOther(c)
    }

    /** Lower-casing stays among letters and digits, gives no upper case and is idempotent. */
    ghost predicate Valid() {
      forall c :: !IsAscii(c) && isOther(c) ==>
        && IsAlnum(lowerOther(c)) && !IsUpper(lowerOther(c))
        && ToLower(lowerOther(c)) == lowerOther(c)
    }
  }

  // ---------------------------------------------------------------------------
  // One segment
  // ---------------------------------------------------------------------------

  function Replacement(a: Alphabet, c: char): char {
    if c == '+' || c == '*' then 'x'
    else if c == '-' then '_'
    else if c == '@' then 'a'
    else if c == '|' then 'l'
    else if a.IsAlnum(c) then c
    else '_'
  }

  function Map(f: char -> char, s: string): string {
    seq(|s|, i requires 0 <= i < |s| => f(s[i]))
  }

  /** Where the run of capitals from position i on ends. */
  function RunEnd(s: string, i: nat): (end: nat)
    requires i <= |s|
    ensures i <= end <= |s| && (forall k :: i <= k < end ==> IsUpper(s[k])) && (end < |s| ==> !IsUpper(s[end]))
    decreases |s| - i
  {
    if i == |s| || !IsUpper(s[i]) then i else RunEnd(s, i + 1)
  }

  /**
   The match of ([A-Z]+)([A-Z][a-z]) at position i, as the length of its first group; 0 for no
   match. The greedy first group leaves just the last capital of the run.
   */
  function AcronymMatch(s: string, i: nat): (n: nat)
    requires i <= |s|
    ensures n > 0 ==> i + n + 2 <= |s|
  {
    var end := RunEnd(s, i);
    if end - i >= 2 && end < |s| && IsLower(s[end]) then end - i - 1 else 0
  }

  /** Replaces each match of that pattern, from position i on, by "${1}_${2}". */
  function SplitAcronyms(s: string, i: nat): string
    requires i <= |s|
    decreases |s| - i
  {
    if i == |s| then ""
    else
      var n := AcronymMatch(s, i);
      if n > 0 then s[i..i + n] + "_" + s[i + n..i + n + 2] + SplitAcronyms(s, i + n + 2)
      else s[i..i + 1] + SplitAcronyms(s, i + 1)
  }

  /** Replaces each match of ([a-z\d])([A-Z]), from position i on, by "${1}_${2}". */
  function SplitHumps(s: string, i: nat): string
    requires i <= |s|
    decreases |s| - i
  {
    if i == |s| then ""
    else if i + 1 < |s| && (IsLower(s[i]) || IsDigit(s[i])) && IsUpper(s[i + 1]) then
      s[i..i + 1] + "_" + s[i + 1..i + 2] + SplitHumps(s, i + 2)
    else s[i..i + 1] + SplitHumps(s, i + 1)
  }

  /** Replaces each run of underscores by one. */
  function CollapseUnderscores(s: string): string {
    if s == "" then ""
    else if s[0] == '_' && |s| > 1 && s[1] == '_' then CollapseUnderscores(s[1..])
    else s[..1] + CollapseUnderscores(s[1..])
  }

  /** Each trailing underscore becomes an x. */
  function ReplaceTrailing(s: string): string {
    if s == "" || s[|s| - 1] != '_' then s else ReplaceTrailing(s[..|s| - 1]) + "x"
  }

  function NormalizeSegment(a: Alphabet, s: string): string {
    ReplaceTrailing(CollapseUnderscores(Map(a.ToLower, SplitHumps(SplitAcronyms(
      Map(c => Replacement(a, c), s), 0), 0))))
  }

  // ---------------------------------------------------------------------------
  // The whole name
  // ---------------------------------------------------------------------------

  /** The parts between occurrences of "__", scanned from the left. */
  function Split(s: string): (parts: seq<string>)
    ensures parts != []
  {
    if |s| < 2 then [s]
    else if s[0] == '_' && s[1] == '_' then [""] + Split(s[2..])
    else
      var rest := Split(s[1..]);
      [s[..1] + rest[0]] + rest[1..]
  }

  function Join(parts: seq<string>): string {
    if parts == [] then ""
    else if |parts| == 1 then parts[0]
    else parts[0] + "__" + Join(parts[1..])
  }

  function NormalizeParts(a: Alphabet, parts: seq<string>): seq<string> {
    if parts == [] then []
    else
      NormalizeParts(a, parts[..|parts| - 1])
      + if parts[|parts| - 1] == "" then [] else [NormalizeSegment(a, parts[|parts| - 1])]
  }

  function GuardDigit(s: string): string { if s != "" && IsDigit(s[0]) then "_" + s else s }

  function SnakeCase(a: Alphabet, name: string): string {
    if name == "" then ""
    else GuardDigit(Join(NormalizeParts(a, Split(ReplaceTrailing(name)))))
  }

  /** The replacement loop. */
  method ReplaceSymbols(a: Alphabet, s: string) returns (result: string)
    ensures result == Map(c => Replacement(a, c), s)
  {
    result := "";
    for i := 0 to |s|
      invariant result == Map(c => Replacement(a, c), s[..i])
    {
      var c := s[i];
      if c == '+' || c == '*' {
        result := result + ['x'];
      } else if c == '-' {
        result := result + ['_'];
      } else if c == '@' {
        result := result + ['a'];
      } else if c == '|' {
        result := result + ['l'];
      } else if a.IsAlnum(c) {
        result := result + [c];
      } else {
        result := result + ['_'];
      }
    }
    assert s[..|s|] == s;
  }

  method ToSnakeCase(a: Alphabet, name: string) returns (result: string)
    ensures result == SnakeCase(a, name)
  {
    if name == "" {
      return name;
    }
    var parts := Split(ReplaceTrailing(name));
    var normalized: seq<string> := [];
    for i := 0 to |parts|
      invariant normalized == NormalizeParts(a, parts[..i])
    {
      assert parts[..i + 1][..i] == parts[..i];
      if parts[i] == "" {
        continue;
      }
      var symbols := ReplaceSymbols(a, parts[i]);
      var words := CollapseUnderscores(Map(a.ToLower, SplitHumps(SplitAcronyms(symbols, 0), 0)));
      normalized := normalized + [ReplaceTrailing(words)];
    }
    assert parts[..|parts|] == parts;
    result := Join(normalized);
    if |result| > 0 && IsDigit(result[0]) {
      result := "_" + result;
    }
  }
}
