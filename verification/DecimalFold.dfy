/**
 Integers and decimals folded into one column, source after source: what comes out, when it
 fails, and when the order of the sources matters.
 */
module DecimalFold {
  import opened Wrappers
  import opened SchemaTypes
  import opened Widening
  import opened SchemaCompare
  import opened Convergence

  /** Signed integers, and decimals of any precision and scale. */
  predicate Numeric(t: ColumnType) {
    IsInteger(t.kind) || (t.kind == Decimal && t.precision >= 0 && t.scale >= 0)
  }

  /** The room a type gives: its integer digits and its scale. */
  datatype Size = Size(decimal: bool, digits: int, scale: int)
  {
    predicate Holds(s: Size) { digits >= s.digits && scale >= s.scale }

    predicate IsStorable() { digits + scale <= MAX_PRECISION }
  }

  function SizeOf(t: ColumnType): Size
    requires Numeric(t)
  {
    var shape := DecimalRepresentation(t.kind, t).value;
    Size(t.kind == Decimal, shape.IntDigits(), shape.scale)
  }

  function Joined(a: Size, b: Size): Size {
    Size(a.decimal || b.decimal, Max(a.digits, b.digits), Max(a.scale, b.scale))
  }

  /** The type of a column after a source column of type src has been evolved into it. */
  ghost function Absorb(dest: ColumnType, src: ColumnType): Result<ColumnType, int> {
    match FittingType(src, dest)
    case Err(p) => Err(p)
    case Ok(None) => Ok(dest)
    case Ok(Some(t)) => Ok(t)
  }

  /** This is what a run does to a column that has no override. */
  lemma {:induction false} AbsorbIsEvolve(opts: Options, src: Column, dest: Column)
    requires Lower(src.name) !in opts.overrides
    ensures ColumnChanges(opts, src, Some(dest)).Ok? <==> Absorb(dest.ty, src.ty).Ok?
    ensures ColumnChanges(opts, src, Some(dest)).Ok? ==>
              Absorb(dest.ty, src.ty) == Ok(Evolve(opts, src, Some(dest)).ty)
  {
    if PlainColumnChanges(opts, src, Some(dest)).Ok? { PlainColumnEvolves(opts, src, dest); }
  }

  ghost function Fold(types: seq<ColumnType>): Result<ColumnType, int>
    requires types != []
  {
    if |types| == 1 then Ok(types[0])
    else
      match Fold(types[..|types| - 1])
      case Err(p) => Err(p)
      case Ok(t) => Absorb(t, types[|types| - 1])
  }

  ghost predicate AllNumeric(types: seq<ColumnType>) {
    forall t :: t in types ==> Numeric(t)
  }

  // ---------------------------------------------------------------------------
  // One source column
  // ---------------------------------------------------------------------------

  /** The limit is looked at only when the sizes are merged, not when the column holds the source. */
  ghost predicate AbsorbsTo(dest: Size, src: Size, result: Result<ColumnType, int>) {
    && (result.Ok? <==> Joined(dest, src).IsStorable() || (dest.decimal && src.decimal && dest.Holds(src)))
    && (result.Ok? ==> Numeric(result.value) && SizeOf(result.value) == Joined(dest, src))
  }

  lemma {:induction false} AbsorbIntegers(dest: ColumnType, src: ColumnType)
    requires IsInteger(dest.kind) && IsInteger(src.kind)
    ensures AbsorbsTo(SizeOf(dest), SizeOf(src), Absorb(dest, src))
  {
  }

  lemma {:induction false} MergedSize(src: ColumnType, s: Shape, d: Shape, widened: Result<ColumnType, int>)
    requires s.precision > 0 && d.precision > 0 && s.scale >= 0 && d.scale >= 0
    requires widened == WithShape(src.(kind := Decimal), MergeDecimalPrecisionChecked(s, d))
    ensures var joined := Size(true, Max(s.IntDigits(), d.IntDigits()), Max(s.scale, d.scale));
            && (widened.Ok? <==> joined.IsStorable())
            && (widened.Ok? ==> Numeric(widened.value) && SizeOf(widened.value) == joined)
  {
    MergeKeepsBothParts(s, d);
  }

  lemma {:induction false} AbsorbDecimals(dest: ColumnType, src: ColumnType)
    requires Numeric(dest) && Numeric(src) && dest.kind == Decimal && src.kind == Decimal
    ensures AbsorbsTo(SizeOf(dest), SizeOf(src), Absorb(dest, src))
  {
    var s, d := NormalizedDecimal(src), NormalizedDecimal(dest);
    if DecimalNeedsWidening(src, dest) {
      var widened := WidenedType(src, dest);
      assert widened == WithShape(src.(kind := Decimal), MergeDecimalPrecisionChecked(s, d));
      MergedSize(src, s, d, widened);
    }
  }

  lemma {:induction false} MixedType(dest: ColumnType, src: ColumnType)
    requires (dest.kind == Decimal && IsInteger(src.kind)) || (IsInteger(dest.kind) && src.kind == Decimal)
    ensures NeedsWidening(src, dest)
    ensures DecimalRepresentation(src.kind, src).Some? && DecimalRepresentation(dest.kind, dest).Some?
    ensures WidenedType(src, dest)
         == WithShape(src.(kind := Decimal), MergeDecimalPrecisionChecked(
              DecimalRepresentation(src.kind, src).value, DecimalRepresentation(dest.kind, dest).value))
  {
    assert GetWidenedType(src.kind, dest.kind) == Decimal;
  }

  lemma {:induction false} AbsorbMixed(dest: ColumnType, src: ColumnType)
    requires Numeric(dest) && Numeric(src)
    requires (dest.kind == Decimal && IsInteger(src.kind)) || (IsInteger(dest.kind) && src.kind == Decimal)
    ensures AbsorbsTo(SizeOf(dest), SizeOf(src), Absorb(dest, src))
  {
    MixedType(dest, src);
    var s, d := DecimalRepresentation(src.kind, src).value, DecimalRepresentation(dest.kind, dest).value;
    MergedSize(src, s, d, WidenedType(src, dest));
  }

  lemma {:induction false} AbsorbSize(dest: ColumnType, src: ColumnType)
    requires Numeric(dest) && Numeric(src)
    ensures AbsorbsTo(SizeOf(dest), SizeOf(src), Absorb(dest, src))
  {
    if dest.kind == Decimal && src.kind == Decimal {
      AbsorbDecimals(dest, src);
    } else if dest.kind == Decimal || src.kind == Decimal {
      AbsorbMixed(dest, src);
    } else {
      AbsorbIntegers(dest, src);
    }
  }

  // ---------------------------------------------------------------------------
  // Any number of source columns
  // ---------------------------------------------------------------------------

  /** The largest integer part and the largest scale. */
  ghost function Total(types: seq<ColumnType>): Size
    requires types != [] && AllNumeric(types)
  {
    var last := SizeOf(types[|types| - 1]);
    if |types| == 1 then last else Joined(Total(types[..|types| - 1]), last)
  }

  ghost predicate AllDecimal(types: seq<ColumnType>) {
    forall t :: t in types ==> t.kind == Decimal
  }

  /** A first decimal that holds all the others is never merged, so it is never measured. */
  ghost predicate FirstHoldsAll(types: seq<ColumnType>)
    requires types != [] && AllNumeric(types)
  {
    AllDecimal(types) && SizeOf(types[0]) == Total(types)
  }

  /**
   The fold keeps the largest integer part and the largest scale. It fails exactly when they
   exceed the limit together, unless the first source is a decimal that has both already and
   every source is a decimal.
   */
  lemma {:induction false} FoldExactly(types: seq<ColumnType>)
    requires types != [] && AllNumeric(types)
    ensures Fold(types).Ok? <==> Total(types).IsStorable() || FirstHoldsAll(types)
    ensures Fold(types).Ok? ==> Numeric(Fold(types).value) && SizeOf(Fold(types).value) == Total(types)
  {
    if |types| == 1 {
      assert types == [types[0]];
      OneFolds(types[0]);
    } else {
      var init, last := types[..|types| - 1], types[|types| - 1];
      assert types == init + [last] && init[0] == types[0];
      FoldExactly(init);
      DecimalInTotal(init);
      FirstIsHeld(init);
      if Fold(init).Ok? { AbsorbSize(Fold(init).value, last); }
      OneMoreFolds(SizeOf(types[0]), AllDecimal(init), Total(init), SizeOf(last), Fold(init).Ok?);
    }
  }

  lemma {:induction false} OneFolds(t: ColumnType)
    requires Numeric(t)
    ensures SizeOf(t).IsStorable() || t.kind == Decimal
  {
  }

  /** The arithmetic of one more source. */
  lemma {:induction false} OneMoreFolds(first: Size, allDecimal: bool, total: Size, last: Size, folds: bool)
    requires total.Holds(first) && (first.decimal ==> total.decimal) && (allDecimal ==> first.decimal)
    requires !total.decimal ==> total.digits + total.scale <= 19
    requires folds <==> total.IsStorable() || (allDecimal && first == total)
    ensures var next := Joined(total, last);
            (folds && (next.IsStorable() || (total.decimal && last.decimal && total.Holds(last))))
            <==> next.IsStorable() || (allDecimal && last.decimal && first == next)
  {
  }

  /** A total without a decimal is that of integers. */
  lemma {:induction false} DecimalInTotal(types: seq<ColumnType>)
    requires types != [] && AllNumeric(types)
    ensures Total(types).decimal <==> exists t :: t in types && t.kind == Decimal
    ensures !Total(types).decimal ==> Total(types).scale == 0 && Total(types).digits <= 19
  {
    if |types| > 1 {
      var init, last := types[..|types| - 1], types[|types| - 1];
      assert types == init + [last];
      DecimalInTotal(init);
      if t :| t in types && t.kind == Decimal { assert t in init || t == last; }
      if t :| t in init && t.kind == Decimal { assert t in types; }
      assert last in types;
    } else {
      assert types[0] in types;
    }
  }

  lemma {:induction false} FirstIsHeld(types: seq<ColumnType>)
    requires types != [] && AllNumeric(types)
    ensures Total(types).Holds(SizeOf(types[0])) && (types[0].kind == Decimal ==> Total(types).decimal)
  {
    TotalHolds(types, types[0]);
    DecimalInTotal(types);
  }

  // ---------------------------------------------------------------------------
  // In any order
  // ---------------------------------------------------------------------------

  lemma {:induction false} TotalHolds(types: seq<ColumnType>, t: ColumnType)
    requires types != [] && AllNumeric(types) && t in types
    ensures Total(types).Holds(SizeOf(t))
  {
    if |types| > 1 {
      var init, last := types[..|types| - 1], types[|types| - 1];
      assert types == init + [last];
      if t in init { TotalHolds(init, t); }
    }
  }

  lemma {:induction false} TotalReached(types: seq<ColumnType>) returns (widest: ColumnType, finest: ColumnType)
    requires types != [] && AllNumeric(types)
    ensures widest in types && SizeOf(widest).digits == Total(types).digits
    ensures finest in types && SizeOf(finest).scale == Total(types).scale
  {
    var last := types[|types| - 1];
    if |types| == 1 {
      widest, finest := last, last;
    } else {
      var init := types[..|types| - 1];
      assert types == init + [last];
      widest, finest := TotalReached(init);
      if SizeOf(last).digits > Total(init).digits { widest := last; }
      if SizeOf(last).scale > Total(init).scale { finest := last; }
    }
  }

  ghost predicate SameTypes(a: seq<ColumnType>, b: seq<ColumnType>) {
    forall t :: t in a <==> t in b
  }

  lemma {:induction false} TotalOfSame(a: seq<ColumnType>, b: seq<ColumnType>)
    requires a != [] && b != [] && AllNumeric(a) && AllNumeric(b) && SameTypes(a, b)
    ensures Total(a) == Total(b) && AllDecimal(a) == AllDecimal(b)
  {
    var wa, fa := TotalReached(a);
    var wb, fb := TotalReached(b);
    TotalHolds(b, wa);
    TotalHolds(b, fa);
    TotalHolds(a, wb);
    TotalHolds(a, fb);
    DecimalInTotal(a);
    DecimalInTotal(b);
  }

  /**
   The same sources in another order, with any repetitions, give the same integer digits and
   scale. One order fails where the other succeeds exactly when every source is a decimal, the
   total exceeds the limit, and just one of the orders starts with a source that holds the rest.
   */
  lemma {:induction false} OrderMattersExactly(a: seq<ColumnType>, b: seq<ColumnType>)
    requires a != [] && b != [] && AllNumeric(a) && AllNumeric(b) && SameTypes(a, b)
    ensures Fold(a).Ok? && Fold(b).Ok? ==>
              && Numeric(Fold(a).value) && Numeric(Fold(b).value)
              && SizeOf(Fold(a).value) == SizeOf(Fold(b).value)
    ensures Fold(a).Ok? != Fold(b).Ok? <==>
              && AllDecimal(a) && !Total(a).IsStorable()
              && (SizeOf(a[0]) == Total(a)) != (SizeOf(b[0]) == Total(a))
  {
    TotalOfSame(a, b);
    FoldExactly(a);
    FoldExactly(b);
  }

  /** Sources that can each be stored fold the same in every order. */
  lemma {:induction false} OrderDoesNotMatter(a: seq<ColumnType>, b: seq<ColumnType>)
    requires a != [] && b != [] && AllNumeric(a) && AllNumeric(b) && SameTypes(a, b)
    requires forall t :: t in a ==> SizeOf(t).IsStorable()
    ensures Fold(a).Ok? <==> Fold(b).Ok?
    ensures Fold(a).Ok? <==> Total(a).IsStorable()
    ensures Fold(a).Ok? ==>
              && Numeric(Fold(a).value) && Numeric(Fold(b).value)
              && SizeOf(Fold(a).value) == SizeOf(Fold(b).value)
  {
    assert a[0] in a && b[0] in b;
    TotalOfSame(a, b);
    FoldExactly(a);
    FoldExactly(b);
  }
}
