/** The key of a CDC target: identifier components encoded so that no two lists share a key. */
module TargetKey {
  import opened Wrappers
  import opened Sequences
  import opened Utf8

  const HEX := "0123456789abcdef"

  function HexDigit(n: nat): (c: char)
    requires n < 16
  {
    HEX[n]
  }

  function HexEncode(s: seq<Byte>): string {
    if s == [] then "" else [HexDigit(s[0] / 16), HexDigit(s[0] % 16)] + HexEncode(s[1..])
  }

  /** The decimal digits of a number. */
  function Itoa(n: nat): string {
    if n < 10 then [HexDigit(n)] else Itoa(n / 10) + [HexDigit(n % 10)]
  }

  function Component(s: seq<Byte>): string {
    Itoa(|HexEncode(s)|) + ":" + HexEncode(s)
  }

  function Key(components: seq<seq<Byte>>): string {
    if components == [] then ""
    else Key(components[..|components| - 1]) + Component(components[|components| - 1])
  }

  method CDCTargetKey(components: seq<seq<Byte>>) returns (key: string)
    ensures key == Key(components)
  {
    key := "";
    for i := 0 to |components|
      invariant key == Key(components[..i])
    {
      assert components[..i + 1][..i] == components[..i];
      var encoded := HexEncode(components[i]);
      key := key + Itoa(|encoded|);
      key := key + ":";
      key := key + encoded;
      assert key == Key(components[..i]) + Component(components[i]);
    }
    assert components[..|components|] == components;
  }

  // ---------------------------------------------------------------------------
  // Decoding
  // ---------------------------------------------------------------------------

  predicate IsDecimal(c: char) { '0' <= c <= '9' }

  function Unhex(c: char): Option<nat> {
    if IsDecimal(c) then Some(c as nat - '0' as nat)
    else if 'a' <= c <= 'f' then Some(c as nat - 'a' as nat + 10)
    else None
  }

  function HexDecode(s: string): Option<seq<Byte>> {
    if s == "" then Some([])
    else if |s| < 2 || Unhex(s[0]).None? || Unhex(s[1]).None? then None
    else
      match HexDecode(s[2..])
      case None => None
      case Some(rest) => Some([ToByte(Unhex(s[0]).value, Unhex(s[1]).value)] + rest)
  }

  function ToByte(high: nat, low: nat): Byte { (16 * high + low) % 256 }

  /** Reads digits, then a colon: the number they spell and what follows. */
  function ReadLength(s: string, sofar: nat): Option<(nat, string)> {
    if s == "" then None
    else if s[0] == ':' then Some((sofar, s[1..]))
    else if IsDecimal(s[0]) then ReadLength(s[1..], 10 * sofar + (s[0] as nat - '0' as nat))
    else None
  }

  /** The length of what is left after a length is less than before. */
  lemma {:induction false} ReadLengthShrinks(s: string, sofar: nat)
    ensures ReadLength(s, sofar).Some? ==> |ReadLength(s, sofar).value.1| < |s|
  {
    if s != "" && s[0] != ':' && IsDecimal(s[0]) {
      ReadLengthShrinks(s[1..], 10 * sofar + (s[0] as nat - '0' as nat));
    }
  }

  function Decode(key: string): Option<seq<seq<Byte>>>
    decreases |key|
  {
    if key == "" then Some([])
    else
      ReadLengthShrinks(key, 0);
      match ReadLength(key, 0)
      case None => None
      case Some((n, rest)) =>
        if n > |rest| then None
        else
          match (HexDecode(rest[..n]), Decode(rest[n..]))
          case (Some(first), Some(others)) => Some([first] + others)
          case _ => None
  }

  // ---------------------------------------------------------------------------
  // Round trip
  // ---------------------------------------------------------------------------

  lemma {:induction false} ByteRoundTrip(b: Byte)
    ensures Unhex(HexDigit(b / 16)) == Some(b / 16) && Unhex(HexDigit(b % 16)) == Some(b % 16)
    ensures ToByte(b / 16, b % 16) == b
  {
    UnhexDigit(b / 16);
    UnhexDigit(b % 16);
  }

  lemma {:induction false} HexStep(high: char, low: char, rest: string)
    requires Unhex(high).Some? && Unhex(low).Some? && HexDecode(rest).Some?
    ensures HexDecode([high, low] + rest)
         == Some([ToByte(Unhex(high).value, Unhex(low).value)] + HexDecode(rest).value)
  {
    assert ([high, low] + rest)[2..] == rest;
  }

  lemma {:induction false} HexRoundTrip(s: seq<Byte>)
    ensures HexDecode(HexEncode(s)) == Some(s)
  {
    if s != [] {
      HexRoundTrip(s[1..]);
      ByteRoundTrip(s[0]);
      HexStep(HexDigit(s[0] / 16), HexDigit(s[0] % 16), HexEncode(s[1..]));
      assert s == [s[0]] + s[1..];
    }
  }

  lemma {:induction false} UnhexDigit(n: nat)
    requires n < 16
    ensures Unhex(HexDigit(n)) == Some(n)
    ensures n < 10 ==> IsDecimal(HexDigit(n)) && HexDigit(n) as nat - '0' as nat == n
  {
  }

  /** The value that ReadLength has reached after the digits of n. */
  lemma {:induction false} ReadItoa(n: nat, rest: string)
    ensures ReadLength(Itoa(n) + rest, 0) == ReadLength(rest, n)
  {
    if n < 10 {
      var s := Itoa(n) + rest;
      UnhexDigit(n);
      assert s[1..] == rest;
    } else {
      var d := HexDigit(n % 10);
      UnhexDigit(n % 10);
      assert Itoa(n) + rest == Itoa(n / 10) + ([d] + rest);
      ReadItoa(n / 10, [d] + rest);
      assert ([d] + rest)[1..] == rest;
      assert 10 * (n / 10) + n % 10 == n;
    }
  }

  lemma {:induction false} ReadComponent(s: seq<Byte>, rest: string)
    ensures ReadLength(Component(s) + rest, 0) == Some((|HexEncode(s)|, HexEncode(s) + rest))
  {
    var h := HexEncode(s);
    var after := ":" + (h + rest);
    assert Component(s) + rest == Itoa(|h|) + after;
    ReadItoa(|h|, after);
    assert after[1..] == h + rest;
  }

  lemma {:induction false} KeyFirst(components: seq<seq<Byte>>)
    requires components != []
    ensures Key(components) == Component(components[0]) + Key(components[1..])
  {
    var n := |components| - 1;
    if n == 0 {
      assert components[..0] == [] && components[1..] == [];
    } else {
      var init, rest := components[..n], components[1..];
      var first, last := Component(components[0]), Component(components[n]);
      KeyFirst(init);
      assert init[1..] == rest[..n - 1] && rest[n - 1] == components[n];
      assert Key(rest) == Key(init[1..]) + last;
      Regroup(first, Key(init[1..]), last);
    }
  }

  lemma {:induction false} DecodeFirst(first: seq<Byte>, rest: string)
    requires Decode(rest).Some?
    ensures Decode(Component(first) + rest) == Some([first] + Decode(rest).value)
  {
    var h := HexEncode(first);
    ReadComponent(first, rest);
    HexRoundTrip(first);
    assert (h + rest)[..|h|] == h && (h + rest)[|h|..] == rest;
    assert Component(first) + rest != "";
  }

  /** The components can be read back from the key, whatever bytes they hold. */
  lemma {:induction false} DecodeKey(components: seq<seq<Byte>>)
    ensures Decode(Key(components)) == Some(components)
  {
    if components != [] {
      KeyFirst(components);
      DecodeKey(components[1..]);
      DecodeFirst(components[0], Key(components[1..]));
      assert components == [components[0]] + components[1..];
    }
  }

  /** No two lists of components share a key. */
  lemma {:induction false} KeyIsInjective(a: seq<seq<Byte>>, b: seq<seq<Byte>>)
    requires Key(a) == Key(b)
    ensures a == b
  {
    DecodeKey(a);
    DecodeKey(b);
  }
}
