/** No value is lost when integers and decimals are folded into one column. */
module DecimalValues {
  import opened SchemaTypes
  import opened SchemaCompare
  import opened Powers
  import opened DecimalFold

  ghost function Scale(t: ColumnType): nat
    requires Numeric(t)
  {
    SizeOf(t).scale
  }

  ghost predicate InRange(t: ColumnType, m: int)
    requires Numeric(t)
  {
    if t.kind == Int8 then -0x80 <= m < 0x80
    else if t.kind == Int16 then -0x8000 <= m < 0x8000
    else if t.kind == Int32 then -0x8000_0000 <= m < 0x8000_0000
    else if t.kind == Int64 then -0x8000_0000_0000_0000 <= m < 0x8000_0000_0000_0000
    else -Pow10(NormalizedDecimal(t).precision) < m < Pow10(NormalizedDecimal(t).precision)
  }

  /** The value u / 10^k is one that the type can store exactly. */
  ghost predicate Fits(t: ColumnType, u: int, k: nat)
    requires Numeric(t)
  {
    exists m :: m * Pow10(k) == u * Pow10(Scale(t)) && InRange(t, m)
  }

  ghost predicate Covers(wide: ColumnType, t: ColumnType)
    requires Numeric(wide) && Numeric(t)
  {
    SizeOf(wide).Holds(SizeOf(t)) && (t.kind == Decimal ==> wide.kind == Decimal)
  }

  lemma {:induction false} SmallPowers()
    ensures Pow10(3) == 1_000 && Pow10(5) == 100_000 && Pow10(10) == 10_000_000_000
    ensures Pow10(19) == 10_000_000_000_000_000_000
  {
    assert Pow10(2) == 100;
    assert Pow10(3) == 10 * Pow10(2);
    assert Pow10(4) == 10 * Pow10(3);
    assert Pow10(5) == 10 * Pow10(4);
    Pow10Add(5, 5);
    Pow10Add(5, 4);
    Pow10Add(10, 9);
  }

  /** Every integer of a kind has at most the digits its representation gives it. */
  lemma {:induction false} InRangeDigits(t: ColumnType, m: int)
    requires Numeric(t) && InRange(t, m)
    ensures SizeOf(t).digits + Scale(t) >= 0
    ensures -Pow10(SizeOf(t).digits + Scale(t)) < m < Pow10(SizeOf(t).digits + Scale(t))
  {
    if t.kind != Decimal { SmallPowers(); }
  }

  lemma {:induction false} Swapped(a: int, b: int, c: int)
    ensures (a * b) * c == (a * c) * b
  {
  }

  lemma {:induction false} Grouped(a: int, b: int, c: int)
    ensures (a * b) * c == a * (b * c)
  {
  }

  lemma {:induction false} Scaled(u: int, k: nat, m: int, s: nat, more: nat)
    requires m * Pow10(k) == u * Pow10(s)
    ensures (m * Pow10(more)) * Pow10(k) == u * Pow10(s + more)
  {
    Pow10Add(s, more);
    Swapped(m, Pow10(more), Pow10(k));
    Grouped(u, Pow10(s), Pow10(more));
  }

  lemma {:induction false} TimesPositive(m: int, p: int, q: int)
    requires m < p && q >= 1
    ensures m * q < p * q
  {
  }

  lemma {:induction false} ScaledBound(m: int, p: nat, more: nat, x: int)
    requires -Pow10(p) < m < Pow10(p) && x == m * Pow10(more)
    ensures -Pow10(p + more) < x < Pow10(p + more)
  {
    Pow10Add(p, more);
    var q := Pow10(more);
    TimesPositive(m, Pow10(p), q);
    TimesPositive(-m, Pow10(p), q);
    assert (-m) * q == -(m * q);
  }

  lemma {:induction false} WithinDecimal(wide: ColumnType, x: int, digits: nat)
    requires Numeric(wide) && wide.kind == Decimal && digits <= SizeOf(wide).digits + Scale(wide)
    requires -Pow10(digits) < x < Pow10(digits)
    ensures InRange(wide, x)
  {
    Pow10Grows(digits, NormalizedDecimal(wide).precision);
  }

  lemma {:induction false} CoveringInteger(wide: ColumnType, t: ColumnType, m: int)
    requires Numeric(wide) && Numeric(t) && Covers(wide, t) && InRange(t, m) && wide.kind != Decimal
    ensures Scale(wide) == Scale(t) == 0 && InRange(wide, m)
  {
  }

  lemma {:induction false} CoveringDecimal(wide: ColumnType, m: int, digits: nat, more: nat, x: int)
    requires Numeric(wide) && wide.kind == Decimal && digits + more <= SizeOf(wide).digits + Scale(wide)
    requires -Pow10(digits) < m < Pow10(digits) && x == m * Pow10(more)
    ensures InRange(wide, x)
  {
    ScaledBound(m, digits, more, x);
    WithinDecimal(wide, x, digits + more);
  }

  lemma {:induction false} CoveringRange(wide: ColumnType, t: ColumnType, m: int, x: int)
    requires Numeric(wide) && Numeric(t) && Covers(wide, t) && InRange(t, m)
    requires x == m * Pow10(Scale(wide) - Scale(t))
    ensures InRange(wide, x)
  {
    if wide.kind == Decimal {
      InRangeDigits(t, m);
      CoveringDecimal(wide, m, SizeOf(t).digits + Scale(t), Scale(wide) - Scale(t), x);
    } else {
      CoveringInteger(wide, t, m);
      assert Pow10(0) == 1;
    }
  }

  lemma {:induction false} CoveringFits(wide: ColumnType, t: ColumnType, u: int, k: nat)
    requires Numeric(wide) && Numeric(t) && Covers(wide, t) && Fits(t, u, k)
    ensures Fits(wide, u, k)
  {
    var m :| m * Pow10(k) == u * Pow10(Scale(t)) && InRange(t, m);
    Scaled(u, k, m, Scale(t), Scale(wide) - Scale(t));
    CoveringRange(wide, t, m, m * Pow10(Scale(wide) - Scale(t)));
  }

  /** Every value that fits one of the sources fits the column they are folded into. */
  lemma {:induction false} NoValueLost(types: seq<ColumnType>, t: ColumnType, u: int, k: nat)
    requires types != [] && AllNumeric(types) && t in types && Fold(types).Ok?
    requires Fits(t, u, k)
    ensures Numeric(Fold(types).value) && Fits(Fold(types).value, u, k)
  {
    FoldExactly(types);
    TotalHolds(types, t);
    DecimalInTotal(types);
    CoveringFits(Fold(types).value, t, u, k);
  }
}
