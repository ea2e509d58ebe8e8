/** UTF-8 as section 3 of RFC 3629 defines it, and the boundaries between its characters. */
module Utf8 {

  type Byte = b: int | 0 <= b < 0x100

  predicate IsTail(b: Byte) { 0x80 <= b < 0xC0 }

  /** A byte that can start a character. */
  predicate RuneStart(b: Byte) { !IsTail(b) }

  /** How many tail bytes follow a first byte; a byte that starts no character has none. */
  function Width(b: Byte): nat {
    if b < 0x80 then 1
    else if 0xC2 <= b < 0xE0 then 2
    else if 0xE0 <= b < 0xF0 then 3
    else if 0xF0 <= b < 0xF5 then 4
    else 0
  }

  /** The second byte is restricted after some first bytes. */
  predicate SecondByte(first: Byte, b: Byte) {
    if first == 0xE0 then 0xA0 <= b < 0xC0
    else if first == 0xED then 0x80 <= b < 0xA0
    else if first == 0xF0 then 0x90 <= b < 0xC0
    else if first == 0xF4 then 0x80 <= b < 0x90
    else IsTail(b)
  }

  /** The length of the character at position i, or 0 if there is none. */
  function RuneAt(s: seq<Byte>, i: nat): (n: nat)
    requires i < |s|
    ensures n <= 4 && i + n <= |s|
    ensures n > 0 ==> RuneStart(s[i]) && forall k :: i < k < i + n ==> IsTail(s[k])
  {
    var n := Width(s[i]);
    if n == 0 || i + n > |s| then 0
    else if n > 1 && !SecondByte(s[i], s[i + 1]) then 0
    else if n > 2 && !IsTail(s[i + 2]) then 0
    else if n > 3 && !IsTail(s[i + 3]) then 0
    else n
  }

  /** From position i on, s is a sequence of characters. */
  ghost predicate ValidFrom(s: seq<Byte>, i: nat)
    requires i <= |s|
    decreases |s| - i
  {
    i == |s| || (RuneAt(s, i) > 0 && ValidFrom(s, i + RuneAt(s, i)))
  }

  ghost predicate Valid(s: seq<Byte>) { ValidFrom(s, 0) }

  ghost predicate IsAscii(s: seq<Byte>) { forall k :: 0 <= k < |s| ==> s[k] < 0x80 }

  /** Position k separates characters, as read from position i on. */
  ghost predicate BoundaryFrom(s: seq<Byte>, i: nat, k: nat)
    requires i <= |s|
    decreases |s| - i
  {
    k == i || (i < |s| && RuneAt(s, i) > 0 && i + RuneAt(s, i) <= k && BoundaryFrom(s, i + RuneAt(s, i), k))
  }

  ghost predicate Boundary(s: seq<Byte>, k: nat) { k <= |s| && BoundaryFrom(s, 0, k) }

  // ---------------------------------------------------------------------------
  // Boundaries
  // ---------------------------------------------------------------------------

  /** In valid text, a boundary is a position that holds no tail byte. */
  lemma {:induction false} BoundaryIsStart(s: seq<Byte>, i: nat, k: nat)
    requires i <= k <= |s| && ValidFrom(s, i)
    ensures BoundaryFrom(s, i, k) <==> k == |s| || RuneStart(s[k])
    decreases |s| - i
  {
    if i < |s| && i + RuneAt(s, i) <= k { BoundaryIsStart(s, i + RuneAt(s, i), k); }
  }

  lemma {:induction false} BoundaryBounds(s: seq<Byte>, i: nat, k: nat)
    requires i <= |s| && BoundaryFrom(s, i, k)
    ensures i <= k <= |s|
    decreases |s| - i
  {
    if k != i { BoundaryBounds(s, i + RuneAt(s, i), k); }
  }

  /** What follows a boundary of valid text is valid. */
  lemma {:induction false} ValidAfter(s: seq<Byte>, i: nat, k: nat)
    requires i <= |s| && ValidFrom(s, i) && BoundaryFrom(s, i, k)
    ensures k <= |s| && ValidFrom(s, k)
    decreases |s| - i
  {
    if k != i { ValidAfter(s, i + RuneAt(s, i), k); }
  }

  /** The next character after a boundary ends at or before the next boundary. */
  lemma {:induction false} NextBoundary(s: seq<Byte>, p: nat, q: nat)
    requires Valid(s) && Boundary(s, p) && Boundary(s, q) && p < q
    ensures RuneAt(s, p) > 0 && p + RuneAt(s, p) <= q && Boundary(s, p + RuneAt(s, p))
  {
    BoundaryIsStart(s, 0, q);
    ValidAfter(s, 0, p);
    var next := p + RuneAt(s, p);
    ValidAfter(s, p, p);
    if next < |s| { assert ValidFrom(s, next); }
    BoundaryIsStart(s, 0, next);
  }

  /** The character before a boundary starts at the last position that holds no tail byte. */
  lemma {:induction false} PreviousBoundary(s: seq<Byte>, i: nat, q: nat) returns (p: nat)
    requires i < q <= |s| && ValidFrom(s, i) && BoundaryFrom(s, i, q)
    ensures i <= p < q && BoundaryFrom(s, i, p) && RuneAt(s, p) == q - p
    decreases |s| - i
  {
    var next := i + RuneAt(s, i);
    if next == q { p := i; } else { p := PreviousBoundary(s, next, q); }
  }

  // ---------------------------------------------------------------------------
  // Pieces of valid text
  // ---------------------------------------------------------------------------

  /** The text of s from i to k is in t, moved by d. */
  ghost predicate Copied(s: seq<Byte>, i: nat, k: nat, t: seq<Byte>, d: int) {
    && i <= k <= |s| && 0 <= i + d && k + d <= |t|
    && forall m :: i <= m < k ==> s[m] == t[m + d]
  }

  /** A character is recognised the same in any surroundings that hold it whole. */
  lemma {:induction false} RuneElsewhere(s: seq<Byte>, i: nat, t: seq<Byte>, d: int)
    requires i < |s| && RuneAt(s, i) > 0 && Copied(s, i, i + RuneAt(s, i), t, d)
    ensures RuneAt(t, i + d) == RuneAt(s, i)
  {
    var n := RuneAt(s, i);
    assert t[i + d] == s[i];
    if n > 1 { assert t[i + d + 1] == s[i + 1]; }
    if n > 2 { assert t[i + d + 2] == s[i + 2]; }
    if n > 3 { assert t[i + d + 3] == s[i + 3]; }
  }

  /** The characters of s from i up to a boundary k, found elsewhere. */
  lemma {:induction false} CopyValid(s: seq<Byte>, i: nat, k: nat, t: seq<Byte>, d: int)
    requires i <= |s| && BoundaryFrom(s, i, k) && Copied(s, i, k, t, d) && ValidFrom(t, k + d)
    ensures ValidFrom(t, i + d)
    decreases |s| - i
  {
    if i < k {
      var n := RuneAt(s, i);
      RuneElsewhere(s, i, t, d);
      CopyValid(s, i + n, k, t, d);
    }
  }

  lemma {:induction false} AsciiValid(t: seq<Byte>, i: nat, k: nat)
    requires i <= k <= |t| && (forall m :: i <= m < k ==> t[m] < 0x80) && ValidFrom(t, k)
    ensures ValidFrom(t, i)
    decreases k - i
  {
    if i < k { AsciiValid(t, i + 1, k); }
  }

  /** Two pieces of valid text that end and start at boundaries, with ASCII between them. */
  lemma {:induction false} PiecesValid(s: seq<Byte>, p: nat, tag: seq<Byte>, q: nat)
    requires Valid(s) && Boundary(s, p) && Boundary(s, q) && IsAscii(tag)
    ensures Valid(s[..p] + tag + s[q..])
  {
    var t := s[..p] + tag + s[q..];
    var j := p + |tag|;
    ValidAfter(s, 0, q);
    EndIsBoundary(s, q);
    CopyValid(s, q, |s|, t, j - q);
    AsciiValid(t, p, j);
    CopyValid(s, 0, p, t, 0);
  }

  lemma {:induction false} EndIsBoundary(s: seq<Byte>, i: nat)
    requires i <= |s| && ValidFrom(s, i)
    ensures BoundaryFrom(s, i, |s|)
    decreases |s| - i
  {
    if i < |s| { EndIsBoundary(s, i + RuneAt(s, i)); }
  }
}
