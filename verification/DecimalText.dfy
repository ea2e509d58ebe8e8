/**
 The fast path for decimal text: one pass over the bytes with a 64-bit accumulator, exact and
 complete for plain literals whose scaled value has at most 18 digits.
 */
module DecimalText {
  import opened Wrappers
  import opened Powers

  newtype int64 = x: int | -0x8000_0000_0000_0000 <= x < 0x8000_0000_0000_0000

  const POW10: seq<int64> := [
    1, 10, 100, 1000, 10000, 100000, 1000000, 10000000, 100000000,
    1000000000, 10000000000, 100000000000, 1000000000000, 10000000000000,
    100000000000000, 1000000000000000, 10000000000000000, 100000000000000000,
    1000000000000000000]

  const TABLE_SIZE := 19

  /** Ten to the 18th: the accumulator never reaches it. */
  const LIMIT := 1_000_000_000_000_000_000

  // ---------------------------------------------------------------------------
  // Literals
  // ---------------------------------------------------------------------------

  predicate IsDigit(c: char) { '0' <= c <= '9' }

  predicate AllDigits(s: string) { forall k :: 0 <= k < |s| ==> IsDigit(s[k]) }

  predicate IsSign(c: char) { c == '+' || c == '-' }

  function Digit(c: char): nat
    requires IsDigit(c)
  {
    c as int - '0' as int
  }

  /** The number a run of digits spells. */
  function Value(digits: string): nat
    requires AllDigits(digits)
  {
    if digits == "" then 0
    else 10 * Value(digits[..|digits| - 1]) + Digit(digits[|digits| - 1])
  }

  /** A plain decimal literal: a sign or none, digits, and perhaps a point with more digits. */
  datatype Literal = Literal(sign: string, whole: string, point: bool, fraction: string)
  {
    predicate Valid() {
      && (sign == "" || sign == "+" || sign == "-")
      && AllDigits(whole) && AllDigits(fraction)
      && (fraction != "" ==> point)
      && whole + fraction != ""
    }

    function Print(): string { sign + (whole + (if point then "." + fraction else "")) }

    function Unscaled(): nat
      requires Valid()
    {
      Value(whole + fraction)
    }

    /** The literal's magnitude times ten to the scale; a whole number when the scale allows it. */
    function Scaled(scale: nat): int
      requires Valid() && |fraction| <= scale
    {
      Unscaled() * Pow10(scale - |fraction|)
    }

    function Signed(magnitude: int): int { if sign == "-" then -magnitude else magnitude }

    /** What the fast path takes on. */
    predicate Fits(precision: nat, scale: nat) {
      && Valid() && |fraction| <= scale < TABLE_SIZE
      && Scaled(scale) < LIMIT
      && (precision < TABLE_SIZE ==> Scaled(scale) < Pow10(precision))
    }
  }

  lemma {:induction false} Pow10Table(n: nat)
    requires n < TABLE_SIZE
    ensures |POW10| == TABLE_SIZE && POW10[n] as int == Pow10(n)
  {
    if n > 0 { Pow10Table(n - 1); }
  }

  lemma {:induction false} ValueGrows(digits: string, more: string)
    requires AllDigits(digits) && AllDigits(more)
    ensures AllDigits(digits + more) && Value(digits + more) >= Value(digits)
  {
    if more == "" {
      assert digits + more == digits;
    } else {
      var init := more[..|more| - 1];
      ValueGrows(digits, init);
      assert (digits + more)[..|digits + more| - 1] == digits + init;
    }
  }

  // ---------------------------------------------------------------------------
  // Reading a literal
  // ---------------------------------------------------------------------------

  function SignOf(s: string): string { if s != "" && IsSign(s[0]) then s[..1] else "" }

  /** Where the point is, or the length. */
  function PointAt(s: string): (n: nat)
    ensures n <= |s|
    ensures n < |s| ==> s[n] == '.'
    ensures forall k :: 0 <= k < n ==> s[k] != '.'
  {
    if s == "" || s[0] == '.' then 0 else 1 + PointAt(s[1..])
  }

  /** The only literal that could print as s. */
  function Read(s: string): Literal {
    var sign := SignOf(s);
    var body := s[|sign|..];
    var n := PointAt(body);
    Literal(sign, body[..n], n < |body|, if n < |body| then body[n + 1..] else "")
  }

  lemma {:induction false} PointAtIs(s: string, n: nat)
    requires n <= |s| && (n < |s| ==> s[n] == '.')
    requires forall k :: 0 <= k < n ==> s[k] != '.'
    ensures PointAt(s) == n
  {
    if n < PointAt(s) { assert false; }
  }

  /** Printing and reading are inverse to each other. */
  lemma {:induction false} ReadPrint(lit: Literal)
    requires lit.Valid()
    ensures Read(lit.Print()) == lit
  {
    var body := lit.whole + (if lit.point then "." + lit.fraction else "");
    assert lit.Print() == lit.sign + body;
    SignOfSigned(lit.sign, body);
    assert (lit.sign + body)[|lit.sign|..] == body;
    SplitAtPoint(lit.whole, lit.point, lit.fraction);
  }

  lemma {:induction false} SplitAtPoint(whole: string, point: bool, fraction: string)
    requires AllDigits(whole)
    ensures var body := whole + (if point then "." + fraction else "");
            && PointAt(body) == |whole| && body[..|whole|] == whole
            && (if point then |whole| < |body| && body[|whole| + 1..] == fraction else |body| == |whole|)
  {
    PointAtIs(whole + (if point then "." + fraction else ""), |whole|);
  }

  lemma {:induction false} SignOfSigned(sign: string, body: string)
    requires sign == "" || sign == "+" || sign == "-"
    requires body != "" && !IsSign(body[0])
    ensures SignOf(sign + body) == sign
  {
    if sign == "" { assert sign + body == body; } else { assert (sign + body)[..1] == sign; }
  }

  lemma {:induction false} JoinAtPoint(body: string)
    ensures var n := PointAt(body);
            body[..n] + (if n < |body| then "." + body[n + 1..] else "") == body
  {
    var n := PointAt(body);
    if n < |body| { assert body == body[..n] + [body[n]] + body[n + 1..]; } else { assert body[..n] == body; }
  }

  lemma {:induction false} PrintRead(s: string)
    ensures Read(s).Print() == s
  {
    var sign := SignOf(s);
    var body := s[|sign|..];
    JoinAtPoint(body);
    assert sign + body == s;
    assert Read(s).Print() == sign + (body[..PointAt(body)]
      + (if PointAt(body) < |body| then "." + body[PointAt(body) + 1..] else ""));
  }

  // ---------------------------------------------------------------------------
  // The loop
  // ---------------------------------------------------------------------------

  lemma {:induction false} LimitIsPow10()
    ensures Pow10(18) == LIMIT
  {
    Pow10Table(18);
  }

  lemma {:induction false} ValueSnoc(digits: string, c: char)
    requires AllDigits(digits) && IsDigit(c)
    ensures AllDigits(digits + [c]) && Value(digits + [c]) == 10 * Value(digits) + Digit(c)
  {
    assert (digits + [c])[..|digits|] == digits;
  }

  /** A value with n significant digits. */
  predicate HasDigits(v: int, n: nat) {
    if n == 0 then v == 0 else Pow10(n - 1) <= v < Pow10(n)
  }

  lemma {:induction false} OneMoreDigit(v: int, n: nat, d: nat)
    requires HasDigits(v, n) && n <= 18 && d < 10
    ensures v != 0 || d != 0 ==> HasDigits(10 * v + d, n + 1)
    ensures v == 0 && d == 0 ==> HasDigits(10 * v + d, n)
    ensures 0 <= v < LIMIT
    ensures n < 18 ==> 10 * v + d < LIMIT
    ensures n == 18 ==> 10 * v + d >= LIMIT
  {
    LimitIsPow10();
    Pow10Grows(n, 18);
    if n < 18 { Pow10Grows(n + 1, 18); }
    if n == 18 { assert Pow10(n) == 10 * Pow10(n - 1); }
    if n > 0 { assert Pow10(n) == 10 * Pow10(n - 1); }
  }

  /** The digits among the first n characters of what follows the sign. */
  function DigitsUpTo(lit: Literal, n: nat): string
    requires n <= |lit.whole| + (if lit.point then 1 + |lit.fraction| else 0)
  {
    if n <= |lit.whole| then lit.whole[..n] else lit.whole + lit.fraction[..n - |lit.whole| - 1]
  }

  lemma {:induction false} TooLarge(digits: string, more: string)
    requires AllDigits(digits) && AllDigits(digits + more) && Value(digits) >= LIMIT
    ensures Value(digits + more) >= LIMIT
  {
    forall k | 0 <= k < |more| ensures IsDigit(more[k]) { assert more[k] == (digits + more)[|digits| + k]; }
    ValueGrows(digits, more);
  }

  /** Once the digits read so far are too large, no continuation is acceptable. */
  lemma {:induction false} TooManyDigits(lit: Literal, digits: string)
    requires digits <= lit.whole + lit.fraction && AllDigits(digits) && Value(digits) >= LIMIT
    ensures lit.Valid() ==> lit.Unscaled() >= LIMIT
  {
    if lit.Valid() {
      var all := lit.whole + lit.fraction;
      assert all == digits + all[|digits|..];
      TooLarge(digits, all[|digits|..]);
    }
  }

  /** What one more character means for the only literal the text can be. */
  lemma {:induction false} NextCharacter(s: string, n: nat)
    requires |SignOf(s)| + n < |s|
    ensures var lit, c := Read(s), s[|SignOf(s)| + n];
            var w := |lit.whole|;
            && n < w + (if lit.point then 1 + |lit.fraction| else 0)
            && (n < w ==> c == lit.whole[n] && c != '.' && DigitsUpTo(lit, n + 1) == DigitsUpTo(lit, n) + [c])
            && (n == w ==> lit.point && c == '.' && DigitsUpTo(lit, n + 1) == DigitsUpTo(lit, n))
            && (n > w ==> c == lit.fraction[n - w - 1] && DigitsUpTo(lit, n + 1) == DigitsUpTo(lit, n) + [c])
            && DigitsUpTo(lit, n) <= lit.whole + lit.fraction
            && DigitsUpTo(lit, n + 1) <= lit.whole + lit.fraction
  {
  }

  /** What the scan has found: the digits' value, how many are significant, how many fractional. */
  datatype Scan = Scan(v: int, nDigits: nat, fracDigits: nat, hasDigit: bool, seenDot: bool)

  /** The scan has read n characters after the sign and can still accept. */
  ghost predicate ScannedTo(lit: Literal, n: nat, scale: nat, scan: Scan) {
    && n <= |lit.whole| + (if lit.point then 1 + |lit.fraction| else 0)
    && (scan.seenDot <==> n > |lit.whole|)
    && scan.fracDigits == (if scan.seenDot then n - |lit.whole| - 1 else 0) <= scale
    && AllDigits(DigitsUpTo(lit, n))
    && scan.v >= 0 && scan.v == Value(DigitsUpTo(lit, n))
    && (scan.hasDigit <==> DigitsUpTo(lit, n) != "")
    && scan.nDigits <= 18 && HasDigits(scan.v, scan.nDigits)
  }

  lemma {:induction false} PointScanned(s: string, n: nat, scale: nat, scan: Scan)
    requires |SignOf(s)| + n < |s| && s[|SignOf(s)| + n] == '.' && ScannedTo(Read(s), n, scale, scan)
    ensures scan.seenDot ==> !Read(s).Valid()
    ensures !scan.seenDot ==> ScannedTo(Read(s), n + 1, scale, scan.(seenDot := true))
  {
    NextCharacter(s, n);
  }

  lemma {:induction false} StrangerScanned(s: string, n: nat, scale: nat, scan: Scan)
    requires |SignOf(s)| + n < |s| && ScannedTo(Read(s), n, scale, scan)
    requires s[|SignOf(s)| + n] != '.' && !IsDigit(s[|SignOf(s)| + n])
    ensures !Read(s).Valid()
  {
    NextCharacter(s, n);
  }

  /** The scan after a digit that is counted as significant, or is a leading zero. */
  function AfterDigit(scan: Scan, v: int, significant: bool): Scan {
    Scan(v, if significant then scan.nDigits + 1 else scan.nDigits,
         if scan.seenDot then scan.fracDigits + 1 else scan.fracDigits, true, scan.seenDot)
  }

  lemma {:induction false} DigitScanned(s: string, n: nat, scale: nat, scan: Scan)
    requires |SignOf(s)| + n < |s| && ScannedTo(Read(s), n, scale, scan)
    requires IsDigit(s[|SignOf(s)| + n])
    ensures var lit, d := Read(s), Digit(s[|SignOf(s)| + n]);
            && (scan.seenDot && scan.fracDigits == scale ==> |lit.fraction| > scale)
            && ((scan.v != 0 || d != 0) && scan.nDigits == 18 && lit.Valid() ==> lit.Unscaled() >= LIMIT)
  {
    var lit, c := Read(s), s[|SignOf(s)| + n];
    var digits := DigitsUpTo(lit, n);
    NextCharacter(s, n);
    if scan.nDigits == 18 {
      ValueSnoc(digits, c);
      OneMoreDigit(scan.v, scan.nDigits, Digit(c));
      TooManyDigits(lit, digits + [c]);
    }
  }

  /** What reading one more digit adds. */
  lemma {:induction false} DigitRead(s: string, n: nat)
    requires |SignOf(s)| + n < |s| && IsDigit(s[|SignOf(s)| + n])
    requires n <= |Read(s).whole| + (if Read(s).point then 1 + |Read(s).fraction| else 0)
    requires AllDigits(DigitsUpTo(Read(s), n))
    ensures var lit, d := Read(s), Digit(s[|SignOf(s)| + n]);
            && n != |lit.whole| && n < |lit.whole| + (if lit.point then 1 + |lit.fraction| else 0)
            && AllDigits(DigitsUpTo(lit, n + 1)) && DigitsUpTo(lit, n + 1) != ""
            && Value(DigitsUpTo(lit, n + 1)) == 10 * Value(DigitsUpTo(lit, n)) + d
  {
    NextCharacter(s, n);
    ValueSnoc(DigitsUpTo(Read(s), n), s[|SignOf(s)| + n]);
  }

  lemma {:induction false} ZeroKept(s: string, n: nat, scale: nat, scan: Scan)
    requires |SignOf(s)| + n < |s| && ScannedTo(Read(s), n, scale, scan)
    requires s[|SignOf(s)| + n] == '0' && scan.v == 0 && !(scan.seenDot && scan.fracDigits == scale)
    ensures ScannedTo(Read(s), n + 1, scale, AfterDigit(scan, scan.v, false))
  {
    DigitRead(s, n);
    OneMoreDigit(0, scan.nDigits, 0);
  }

  lemma {:induction false} DigitCounted(s: string, n: nat, scale: nat, scan: Scan)
    requires |SignOf(s)| + n < |s| && ScannedTo(Read(s), n, scale, scan)
    requires IsDigit(s[|SignOf(s)| + n]) && !(scan.seenDot && scan.fracDigits == scale)
    requires (scan.v != 0 || s[|SignOf(s)| + n] != '0') && scan.nDigits < 18
    ensures ScannedTo(Read(s), n + 1, scale, AfterDigit(scan, 10 * scan.v + Digit(s[|SignOf(s)| + n]), true))
  {
    DigitRead(s, n);
    OneMoreDigit(scan.v, scan.nDigits, Digit(s[|SignOf(s)| + n]));
  }

  lemma {:induction false} StartScanned(s: string, scale: nat)
    ensures ScannedTo(Read(s), 0, scale, Scan(0, 0, 0, false, false))
  {
  }

  lemma {:induction false} EndScanned(s: string, scale: nat, scan: Scan)
    requires ScannedTo(Read(s), |s| - |SignOf(s)|, scale, scan)
    ensures scan.hasDigit <==> Accepts(Read(s), scale)
    ensures scan.hasDigit ==> Finds(Read(s), scan)
  {
    var lit := Read(s);
    OneMoreDigit(scan.v, scan.nDigits, 0);
    assert DigitsUpTo(lit, |s| - |SignOf(s)|) == lit.whole + lit.fraction;
    forall k | 0 <= k < |lit.fraction| ensures IsDigit(lit.fraction[k]) {
      assert lit.fraction[k] == (lit.whole + lit.fraction)[|lit.whole| + k];
    }
    forall k | 0 <= k < |lit.whole| ensures IsDigit(lit.whole[k]) {
      assert lit.whole[k] == (lit.whole + lit.fraction)[k];
    }
  }

  /** What one character does to the scan; nothing is returned for one that ends it. */
  function ScanNext(scan: Scan, c: char, scale: nat): Option<Scan> {
    if c == '.' then (if scan.seenDot then None else Some(scan.(seenDot := true)))
    else if !IsDigit(c) || (scan.seenDot && scan.fracDigits == scale) then None
    else if scan.v == 0 && c == '0' then Some(AfterDigit(scan, scan.v, false))
    else if scan.nDigits == 18 then None
    else Some(AfterDigit(scan, 10 * scan.v + Digit(c), true))
  }

  function ScanFrom(s: string, i: nat, scale: nat, scan: Scan): Option<Scan>
    requires i <= |s|
    decreases |s| - i
  {
    if i == |s| then (if scan.hasDigit then Some(scan) else None)
    else
      match ScanNext(scan, s[i], scale)
      case None => None
      case Some(next) => ScanFrom(s, i + 1, scale, next)
  }

  ghost predicate Accepts(lit: Literal, scale: nat) {
    lit.Valid() && |lit.fraction| <= scale && lit.Unscaled() < LIMIT
  }

  ghost predicate Finds(lit: Literal, scan: Scan) {
    && lit.Valid() && scan.v == lit.Unscaled() && scan.fracDigits == |lit.fraction|
    && scan.nDigits <= 18 && HasDigits(scan.v, scan.nDigits)
  }

  /** Each character either keeps the scan in step with the literal or rules the literal out. */
  lemma {:induction false} ScanNextSound(s: string, n: nat, scale: nat, scan: Scan)
    requires |SignOf(s)| + n < |s| && ScannedTo(Read(s), n, scale, scan)
    ensures InStep(s, n, scale, ScanNext(scan, s[|SignOf(s)| + n], scale))
  {
    var c := s[|SignOf(s)| + n];
    if c == '.' {
      PointScanned(s, n, scale, scan);
    } else if !IsDigit(c) {
      StrangerScanned(s, n, scale, scan);
    } else {
      DigitInStep(s, n, scale, scan);
    }
  }

  ghost predicate InStep(s: string, n: nat, scale: nat, next: Option<Scan>) {
    match next
    case None => !Accepts(Read(s), scale)
    case Some(scan) => ScannedTo(Read(s), n + 1, scale, scan)
  }

  lemma {:induction false} DigitInStep(s: string, n: nat, scale: nat, scan: Scan)
    requires |SignOf(s)| + n < |s| && ScannedTo(Read(s), n, scale, scan)
    requires IsDigit(s[|SignOf(s)| + n])
    ensures InStep(s, n, scale, ScanNext(scan, s[|SignOf(s)| + n], scale))
  {
    if scan.seenDot && scan.fracDigits == scale {
      DigitScanned(s, n, scale, scan);
    } else if scan.v == 0 && s[|SignOf(s)| + n] == '0' {
      ZeroKept(s, n, scale, scan);
    } else if scan.nDigits < 18 {
      DigitCounted(s, n, scale, scan);
    } else {
      DigitScanned(s, n, scale, scan);
    }
  }

  ghost predicate Answers(lit: Literal, scale: nat, r: Option<Scan>) {
    (r.Some? <==> Accepts(lit, scale)) && (r.Some? ==> Finds(lit, r.value))
  }

  /** The scan accepts exactly the literals it can hold, and finds their value. */
  lemma {:induction false} ScanFromSound(s: string, n: nat, scale: nat, scan: Scan)
    requires |SignOf(s)| + n <= |s| && ScannedTo(Read(s), n, scale, scan)
    ensures Answers(Read(s), scale, ScanFrom(s, |SignOf(s)| + n, scale, scan))
    decreases |s| - n
  {
    if |SignOf(s)| + n == |s| {
      EndScanned(s, scale, scan);
    } else {
      var next := ScanNext(scan, s[|SignOf(s)| + n], scale);
      ScanNextSound(s, n, scale, scan);
      if next.Some? { ScanFromSound(s, n + 1, scale, next.value); }
      ScanFromNext(s, |SignOf(s)| + n, scale, scan);
    }
  }

  lemma {:induction false} ScanFromNext(s: string, i: nat, scale: nat, scan: Scan)
    requires i < |s|
    requires var next := ScanNext(scan, s[i], scale);
             if next.Some? then Answers(Read(s), scale, ScanFrom(s, i + 1, scale, next.value))
             else !Accepts(Read(s), scale)
    ensures Answers(Read(s), scale, ScanFrom(s, i, scale, scan))
  {
  }

  const NOTHING := Scan(0, 0, 0, false, false)

  /** One pass over the text. It stops at the first character that rules the literal out. */
  method ScanDigits(s: string, start: nat, scale: nat) returns (r: Option<Scan>)
    requires start <= |s|
    ensures r == ScanFrom(s, start, scale, NOTHING)
    ensures r.Some? ==> 0 <= r.value.v < LIMIT
  {
    var i := start;
    var v: int64 := 0;
    var nDigits, fracDigits := 0, 0;
    var hasDigit, seenDot := false, false;
    while i < |s|
      invariant start <= i <= |s|
      invariant v >= 0 && nDigits <= 18 && HasDigits(v as int, nDigits)
      invariant ScanFrom(s, start, scale, NOTHING)
             == ScanFrom(s, i, scale, Scan(v as int, nDigits, fracDigits, hasDigit, seenDot))
    {
      var c := s[i];
      i := i + 1;
      if c == '.' {
        if seenDot {
          return None;
        }
        seenDot := true;
        continue;
      }
      if c < '0' || c > '9' {
        return None;
      }
      OneMoreDigit(v as int, nDigits, Digit(c));
      hasDigit := true;
      if seenDot {
        if fracDigits == scale {
          return None;
        }
        fracDigits := fracDigits + 1;
      }
      if v == 0 && c == '0' {
        continue;
      }
      if nDigits == 18 {
        return None;
      }
      v := v * 10 + (c as int - '0' as int) as int64;
      nDigits := nDigits + 1;
    }
    OneMoreDigit(v as int, nDigits, 0);
    if !hasDigit {
      return None;
    }
    return Some(Scan(v as int, nDigits, fracDigits, hasDigit, seenDot));
  }

  /** A number with n zeros appended. */
  function Shifted(v: int, n: nat): int
    decreases n
  {
    if n == 0 then v else Shifted(10 * v, n - 1)
  }

  lemma {:induction false} ShiftedIsProduct(v: int, n: nat)
    ensures Shifted(v, n) == v * Pow10(n)
    ensures v >= 0 ==> Shifted(v, n) >= v
    decreases n
  {
    if n > 0 {
      ShiftedIsProduct(10 * v, n - 1);
      assert (10 * v) * Pow10(n - 1) == v * (10 * Pow10(n - 1));
    }
  }

  method WithinPrecision(v: int64, precision: nat) returns (ok: bool)
    ensures ok <==> (precision < TABLE_SIZE ==> v as int < Pow10(precision))
  {
    ok := true;
    if precision < TABLE_SIZE {
      Pow10Table(precision);
      ok := v < POW10[precision];
    }
  }

  /** The rest of the work: padding with zeros, the precision check and the sign. */
  method Pad(unscaled: int64, digits: nat, padding: nat, neg: bool, precision: nat) returns (r: Option<int64>)
    requires digits <= 18 && HasDigits(unscaled as int, digits) && unscaled >= 0
    ensures var scaled := Shifted(unscaled as int, padding);
            && (r.Some? <==> scaled < LIMIT && (precision < TABLE_SIZE ==> scaled < Pow10(precision)))
            && (r.Some? ==> r.value as int == if neg then -scaled else scaled)
  {
    var v, nDigits := unscaled, digits;
    var pad := padding;
    while pad > 0
      invariant 0 <= pad <= padding
      invariant v >= 0 && nDigits <= 18 && HasDigits(v as int, nDigits)
      invariant Shifted(v as int, pad) == Shifted(unscaled as int, padding)
    {
      OneMoreDigit(v as int, nDigits, 0);
      if v != 0 {
        if nDigits == 18 {
          ShiftedIsProduct(10 * v as int, pad - 1);
          return None;
        }
        nDigits := nDigits + 1;
      }
      v := v * 10;
      pad := pad - 1;
    }
    OneMoreDigit(v as int, nDigits, 0);
    var within := WithinPrecision(v, precision);
    return if !within then None else Some(if neg then -v else v);
  }

  lemma {:induction false} FitsPadded(lit: Literal, precision: nat, scale: nat)
    requires lit.Valid() && |lit.fraction| <= scale < TABLE_SIZE
    ensures var scaled := Shifted(lit.Unscaled(), scale - |lit.fraction|);
            && scaled == lit.Scaled(scale) >= lit.Unscaled()
            && (lit.Fits(precision, scale) <==>
                  scaled < LIMIT && (precision < TABLE_SIZE ==> scaled < Pow10(precision)))
  {
    ShiftedIsProduct(lit.Unscaled(), scale - |lit.fraction|);
  }

  /** The fast path: it accepts exactly the literals that fit, and its result is exact. */
  method ParseDecimal128Text(s: string, precision: nat, scale: int) returns (r: Option<int64>)
    ensures r.Some? <==> scale >= 0 && Read(s).Fits(precision, scale)
    ensures r.Some? ==> r.value as int == Read(s).Signed(Read(s).Scaled(scale))
  {
    if scale < 0 || scale >= TABLE_SIZE {
      return None;
    }
    ghost var lit := Read(s);
    var i := 0;
    var neg := false;
    if i < |s| && (s[i] == '+' || s[i] == '-') {
      neg := s[i] == '-';
      i := i + 1;
    }
    if lit.Valid() && |lit.fraction| <= scale { FitsPadded(lit, precision, scale); }
    StartScanned(s, scale);
    ScanFromSound(s, 0, scale, NOTHING);
    var scan := ScanDigits(s, i, scale);
    if scan.None? {
      return None;
    }
    r := Pad(scan.value.v as int64, scan.value.nDigits, scale - scan.value.fracDigits, neg, precision);
  }

  /** A text is accepted exactly when it is the print of a literal that fits, and of no other. */
  lemma {:induction false} AcceptsExactlyTheLiterals(s: string, precision: nat, scale: nat)
    ensures Read(s).Fits(precision, scale)
       <==> exists lit: Literal {:trigger lit.Print()} :: lit.Fits(precision, scale) && lit.Print() == s
    ensures forall lit: Literal {:trigger lit.Print()} :: lit.Valid() && lit.Print() == s ==> lit == Read(s)
  {
    PrintRead(s);
    forall lit: Literal {:trigger lit.Print()} | lit.Valid() && lit.Print() == s ensures lit == Read(s) {
      ReadPrint(lit);
    }
  }
}
