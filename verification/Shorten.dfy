/** Identifiers cut to a byte limit, with a tag in the middle. The tag is taken as given. */
module Shorten {
  import opened Utf8

  /** The prefix and the suffix that are kept. */
  ghost predicate Pieces(name: seq<Byte>, tag: seq<Byte>, result: seq<Byte>, p: nat, q: nat) {
    p <= q <= |name| && result == name[..p] + tag + name[q..]
  }

  /** Bytes that a decoder takes off the front: one for anything that is not a character. */
  function DecodeSize(s: seq<Byte>, i: nat): (n: nat)
    requires i <= |s|
    ensures n <= 4 && i + n <= |s|
  {
    if i == |s| then 0 else if RuneAt(s, i) > 0 then RuneAt(s, i) else 1
  }

  /** Start of the character that could end at q: the last start byte among the last four bytes. */
  function LastStart(s: seq<Byte>, q: nat, back: nat): (p: nat)
    requires back < q <= |s| && back <= 3
    ensures p < q
    decreases 3 - back
  {
    if RuneStart(s[q - 1 - back]) || back == 3 || back + 1 == q then q - 1 - back
    else LastStart(s, q, back + 1)
  }

  /** Bytes that a decoder takes off the back of s[..q]. */
  function DecodeLastSize(s: seq<Byte>, q: nat): (n: nat)
    requires q <= |s|
    ensures n <= 4 && n <= q && (q > 0 ==> n > 0)
  {
    if q == 0 then 0
    else
      var p := LastStart(s, q, 0);
      var n := RuneAt(s[..q], p);
      if n > 0 && p + n == q then n else 1
  }

  method Utf8PrefixBoundary(name: seq<Byte>, budget: nat) returns (end: nat)
    ensures end <= budget && end <= |name|
    ensures end == 0 || end == |name| || RuneStart(name[end])
    ensures forall k :: end < k <= budget && k < |name| ==> !RuneStart(name[k])
    ensures |name| <= budget ==> end == |name|
  {
    end := if budget < |name| then budget else |name|;
    while end > 0 && end < |name| && !RuneStart(name[end])
      invariant end <= budget && end <= |name| && (|name| <= budget ==> end == |name|)
      invariant forall k :: end < k <= budget && k < |name| ==> !RuneStart(name[k])
    {
      end := end - 1;
    }
  }

  method Utf8SuffixBoundary(name: seq<Byte>, budget: nat) returns (start: nat)
    ensures start <= |name| && |name| - start <= budget
    ensures start == |name| || RuneStart(name[start])
    ensures forall k :: 0 <= k < start && |name| - k <= budget ==> !RuneStart(name[k])
  {
    start := if budget < |name| then |name| - budget else 0;
    while start < |name| && !RuneStart(name[start])
      invariant start <= |name| && |name| - start <= budget
      invariant forall k :: 0 <= k < start && |name| - k <= budget ==> !RuneStart(name[k])
    {
      start := start + 1;
    }
  }

  lemma {:induction false} StartIsBoundary(name: seq<Byte>, k: nat)
    requires Valid(name) && k <= |name| && (k == 0 || k == |name| || RuneStart(name[k]))
    ensures Boundary(name, k)
  {
    BoundaryIsStart(name, 0, k);
  }

  /** In valid text the decoder takes off exactly the last character. */
  lemma {:induction false} DecodeLastIsRune(name: seq<Byte>, q: nat)
    requires Valid(name) && Boundary(name, q) && q > 0
    ensures DecodeLastSize(name, q) <= q && Boundary(name, q - DecodeLastSize(name, q))
    ensures IsAscii(name) ==> DecodeLastSize(name, q) == 1
  {
    var p := PreviousBoundary(name, 0, q);
    var n := RuneAt(name, p);
    LastStartIs(name, q, p, 0);
    RuneElsewhere(name, p, name[..q], 0);
  }

  lemma {:induction false} LastStartIs(name: seq<Byte>, q: nat, p: nat, back: nat)
    requires back < q <= |name| && back <= 3 && p < q - back
    requires RuneAt(name, p) == q - p
    ensures LastStart(name, q, back) == p
    decreases 3 - back
  {
    if p < q - 1 - back { LastStartIs(name, q, p, back + 1); }
  }

  /**
   Prefix and suffix each get half of what the tag leaves, the prefix the odd byte: they reach at
   least to the last start byte within it, and for ASCII fill it.
   */
  ghost predicate Halves(name: seq<Byte>, remaining: nat, p: nat, q: nat)
    requires p <= q <= |name|
  {
    && (forall k :: p < k <= (remaining + 1) / 2 && k < |name| ==> !RuneStart(name[k]))
    && (forall k :: 0 <= k < q && |name| - k <= remaining / 2 ==> !RuneStart(name[k]))
    && (IsAscii(name) ==> p == (remaining + 1) / 2 && |name| - q == remaining / 2)
  }

  /** The result is never longer than the limit, and is the name with its middle replaced. */
  ghost predicate Shortened(name: seq<Byte>, tag: seq<Byte>, maxLen: int, result: seq<Byte>, p: nat, q: nat) {
    && Pieces(name, tag, result, p, q)
    && |tag| <= |result| <= maxLen && Halves(name, maxLen - |tag|, p, q)
    && (Valid(name) ==>
          && Boundary(name, p) && Boundary(name, q)
          && |result| >= maxLen - 3
          && (IsAscii(name) ==> |result| == maxLen)
          && (IsAscii(tag) ==> Valid(result)))
  }

  /** Every byte of an ASCII name starts a character, so each half is filled at once. */
  lemma {:induction false} HalvesFilled(name: seq<Byte>, remaining: nat, p: nat, q: nat)
    requires remaining < |name| && p <= (remaining + 1) / 2 && q <= |name| && |name| - q <= remaining / 2
    requires forall k :: p < k <= (remaining + 1) / 2 && k < |name| ==> !RuneStart(name[k])
    requires forall k :: 0 <= k < q && |name| - k <= remaining / 2 ==> !RuneStart(name[k])
    ensures IsAscii(name) ==> p == (remaining + 1) / 2 && |name| - q == remaining / 2
  {
    if IsAscii(name) {
      if p < (remaining + 1) / 2 { assert RuneStart(name[(remaining + 1) / 2]); }
      if |name| - q < remaining / 2 { assert RuneStart(name[|name| - remaining / 2]); }
    }
  }

  method ShortenIdentifier(name: seq<Byte>, tag: seq<Byte>, maxLen: int) returns (result: seq<Byte>)
    ensures maxLen <= 0 || |name| <= maxLen ==> result == name
    ensures 0 < maxLen < |name| && |tag| >= maxLen ==> result == tag[..maxLen]
    ensures 0 < maxLen < |name| && |tag| < maxLen ==>
              exists p: nat, q: nat :: Shortened(name, tag, maxLen, result, p, q)
  {
    if maxLen <= 0 || |name| <= maxLen {
      return name;
    }
    if |tag| >= maxLen {
      return tag[..maxLen];
    }
    var remaining := maxLen - |tag|;
    var overflow := remaining % 2;
    var prefix := Utf8PrefixBoundary(name, remaining / 2 + overflow);
    var suffixStart := Utf8SuffixBoundary(name, remaining / 2);
    ghost var start, end := prefix, suffixStart;
    HalvesFilled(name, remaining, start, end);
    prefix, suffixStart := Widen(name, remaining, prefix, suffixStart);
    result := name[..prefix] + tag + name[suffixStart..];
    if Valid(name) && IsAscii(tag) { PiecesValid(name, prefix, tag, suffixStart); }
    assert Shortened(name, tag, maxLen, result, prefix, suffixStart);
  }

  /** What the boundary adjustments left over goes to whole neighbouring characters. */
  method Widen(name: seq<Byte>, remaining: nat, prefix0: nat, suffixStart0: nat)
    returns (prefix: nat, suffixStart: nat)
    requires remaining < |name| && prefix0 + (|name| - suffixStart0) <= remaining
    requires suffixStart0 <= |name|
    requires prefix0 == 0 || prefix0 == |name| || RuneStart(name[prefix0])
    requires suffixStart0 == |name| || RuneStart(name[suffixStart0])
    ensures prefix <= suffixStart <= |name| && prefix + (|name| - suffixStart) <= remaining
    ensures prefix0 <= prefix && suffixStart <= suffixStart0
    ensures prefix0 + (|name| - suffixStart0) == remaining ==> prefix == prefix0 && suffixStart == suffixStart0
    ensures Valid(name) ==>
              && Boundary(name, prefix) && Boundary(name, suffixStart)
              && prefix + (|name| - suffixStart) >= remaining - 3
              && (IsAscii(name) ==> prefix + (|name| - suffixStart) == remaining)
  {
    prefix, suffixStart := prefix0, suffixStart0;
    var spare := remaining - prefix - (|name| - suffixStart);
    if Valid(name) {
      StartIsBoundary(name, prefix);
      StartIsBoundary(name, suffixStart);
    }
    while spare > 0 && prefix < suffixStart
      invariant prefix0 <= prefix <= suffixStart <= suffixStart0 <= |name|
      invariant spare == remaining - prefix - (|name| - suffixStart) >= 0
      invariant Valid(name) ==> Boundary(name, prefix) && Boundary(name, suffixStart)
      decreases spare
    {
      var size := DecodeSize(name, prefix);
      if Valid(name) { NextBoundary(name, prefix, suffixStart); }
      if size <= 0 || size > spare || prefix + size > suffixStart {
        assert Valid(name) ==> spare <= 3 && !IsAscii(name);
        break;
      }
      prefix := prefix + size;
      spare := spare - size;
    }
    assert Valid(name) ==> spare <= 3 && (IsAscii(name) ==> spare == 0);
    while spare > 0 && prefix < suffixStart
      invariant prefix0 <= prefix <= suffixStart <= suffixStart0 <= |name|
      invariant spare == remaining - prefix - (|name| - suffixStart) >= 0
      invariant Valid(name) ==> Boundary(name, prefix) && Boundary(name, suffixStart)
      invariant Valid(name) ==> spare <= 3 && (IsAscii(name) ==> spare == 0)
      decreases spare
    {
      var size := DecodeLastSize(name, suffixStart);
      if size <= 0 || size > spare || suffixStart - size < prefix {
        break;
      }
      if Valid(name) { DecodeLastIsRune(name, suffixStart); }
      suffixStart := suffixStart - size;
      spare := spare - size;
    }
  }
}
