/**
 What the predicted schema is good for: it can hold every value of the source and every value the
 destination already has. Holding is read off the types themselves, not off the comparison.
 */
module SchemaFit {
  import opened Wrappers
  import opened SchemaTypes
  import opened Widening
  import opened SchemaCompare
  import opened EvolutionPlan
  import opened Convergence
  import opened SchemaConvergence

  // ---------------------------------------------------------------------------
  // Which names are the same
  // ---------------------------------------------------------------------------

  const LARGE := "ABCDEFGHIJKLMNOPQRSTUVWXYZ"
  const SMALL := "abcdefghijklmnopqrstuvwxyz"

  /** Two characters that differ in case at most. */
  predicate SameLetter(a: char, b: char) {
    a == b || exists k :: 0 <= k < 26 && ((a == LARGE[k] && b == SMALL[k]) || (a == SMALL[k] && b == LARGE[k]))
  }

  lemma {:induction false} LowerLetter(a: char)
    requires 'A' <= a <= 'Z'
    ensures LARGE[a as int - 'A' as int] == a && SMALL[a as int - 'A' as int] == LowerChar(a)
  {
  }

  lemma {:induction false} LetterOf(k: nat)
    requires k < 26
    ensures LowerChar(LARGE[k]) == SMALL[k] == LowerChar(SMALL[k])
  {
  }

  lemma {:induction false} SameLetterExactly(a: char, b: char)
    ensures LowerChar(a) == LowerChar(b) <==> SameLetter(a, b)
  {
    if k :| 0 <= k < 26 && ((a == LARGE[k] && b == SMALL[k]) || (a == SMALL[k] && b == LARGE[k])) { LetterOf(k); }
    if 'A' <= a <= 'Z' { LowerLetter(a); }
    if 'A' <= b <= 'Z' { LowerLetter(b); }
  }

  /** Column names are the same exactly when they differ in the case of letters at most. */
  lemma {:induction false} SameNameExactly(a: string, b: string)
    ensures Lower(a) == Lower(b) <==> |a| == |b| && forall i :: 0 <= i < |a| ==> SameLetter(a[i], b[i])
  {
    if |a| == |b| {
      forall i | 0 <= i < |a| ensures LowerChar(a[i]) == LowerChar(b[i]) <==> SameLetter(a[i], b[i]) {
        SameLetterExactly(a[i], b[i]);
      }
      if Lower(a) == Lower(b) {
        forall i | 0 <= i < |a| ensures SameLetter(a[i], b[i]) {
          assert Lower(a)[i] == Lower(b)[i];
        }
      }
    }
  }

  // ---------------------------------------------------------------------------
  // Which values a type can hold
  // ---------------------------------------------------------------------------

  /** Digits before and after the point; an unspecified decimal has 38 in all. */
  function Digits(kind: DataType, t: ColumnType): Option<(int, int)> {
    match kind
    case Int8 => Some((3, 0))
    case Int16 => Some((5, 0))
    case Int32 => Some((10, 0))
    case Int64 => Some((19, 0))
    case Decimal => Some(((if t.precision == 0 then 38 else t.precision) - t.scale, t.scale))
    case _ => None
  }

  predicate DigitsFit(src: Option<(int, int)>, dest: Option<(int, int)>) {
    src.Some? && dest.Some? && src.value.0 <= dest.value.0 && src.value.1 <= dest.value.1
  }

  /** A text of length zero or less is unbounded. */
  predicate TextFits(srcLength: int, destLength: int) { destLength <= 0 || 0 < srcLength <= destLength }

  /**
   Every value of the source kind, of the size given by `src`, is one of the destination kind, of
   the size given by `dest`. Any value can be written as JSON, and as text that is long enough.
   */
  predicate HoldsAs(destKind: DataType, dest: ColumnType, srcKind: DataType, src: ColumnType) {
    match destKind
    case JSON => true
    case String =>
      if srcKind == String then TextFits(src.maxLength, dest.maxLength)
      else srcKind != JSON && srcKind != Array && srcKind != Unknown && dest.maxLength <= 0
    case Decimal => DigitsFit(Digits(srcKind, src), Digits(Decimal, dest))
    case _ => CanWiden(srcKind, destKind)
  }

  /** An array holds another if its elements do. */
  predicate Holds(dest: ColumnType, src: ColumnType) {
    if dest.kind == Array && src.kind == Array then HoldsAs(dest.element, dest, src.element, src)
    else HoldsAs(dest.kind, dest, src.kind, src)
  }

  // ---------------------------------------------------------------------------
  // A widened type holds both
  // ---------------------------------------------------------------------------

  lemma {:induction false} DigitsAreShape(kind: DataType, t: ColumnType)
    ensures DecimalRepresentation(kind, t).Some? <==> Digits(kind, t).Some?
    ensures DecimalRepresentation(kind, t).Some? ==>
              var shape := DecimalRepresentation(kind, t).value;
              Digits(kind, t).value == (shape.IntDigits(), shape.scale)
    ensures WellFormed(t) && DecimalRepresentation(kind, t).Some? ==>
              DecimalRepresentation(kind, t).value.precision > 0
  {
  }

  /** Only numbers become decimals. */
  lemma {:induction false} DecimalOfNumbers(src: DataType, dest: DataType)
    requires GetWidenedType(src, dest) == Decimal && !IsFloating(src) && !IsFloating(dest)
    ensures src == Decimal || dest == Decimal
    ensures forall t :: DecimalRepresentation(src, t).Some? && DecimalRepresentation(dest, t).Some?
  {
  }

  /** The merged shape has room for both, and no digit more; it fails exactly above 76 digits. */
  lemma {:induction false} MergedHolds(srcKind: DataType, src: ColumnType, destKind: DataType, dest: ColumnType)
    requires WellFormed(src) && WellFormed(dest)
    requires DecimalRepresentation(srcKind, src).Some? && DecimalRepresentation(destKind, dest).Some?
    ensures var s, d := Digits(srcKind, src).value, Digits(destKind, dest).value;
            var merged := MergeDecimalTypesChecked(srcKind, src, destKind, dest);
            && (merged.Err? <==> Max(s.0, d.0) + Max(s.1, d.1) > 76)
            && (merged.Ok? ==>
                  && merged.value.precision > 0
                  && merged.value.IntDigits() == Max(s.0, d.0) && merged.value.scale == Max(s.1, d.1))
  {
    DigitsAreShape(srcKind, src);
    DigitsAreShape(destKind, dest);
    MergeKeepsBothParts(DecimalRepresentation(srcKind, src).value, DecimalRepresentation(destKind, dest).value);
  }

  /** What a widening of one kind, read as `kind` of `w`, has to be. */
  ghost predicate HoldsBoth(
    kind: DataType, w: ColumnType, srcKind: DataType, src: ColumnType, destKind: DataType, dest: ColumnType)
  {
    && HoldsAs(kind, w, srcKind, src) && HoldsAs(kind, w, destKind, dest)
    && (kind == Decimal ==>
          && Digits(srcKind, src).Some? && Digits(destKind, dest).Some?
          && var s, d := Digits(srcKind, src).value, Digits(destKind, dest).value;
             Digits(Decimal, w) == Some((Max(s.0, d.0), Max(s.1, d.1))))
    && (kind == String ==>
          if srcKind == String && destKind == String && src.maxLength > 0 && dest.maxLength > 0 then
            w.maxLength == if src.maxLength > dest.maxLength then src.maxLength else dest.maxLength
          else w.maxLength == 0)
  }

  lemma {:induction false} CanBeText(t: DataType)
    requires CanWiden(t, String) || CanWiden(t, Decimal)
    ensures t != JSON && t != Array && t != Unknown
  {
  }

  lemma {:induction false} TextHolds(srcKind: DataType, src: ColumnType, destKind: DataType, dest: ColumnType)
    requires var k := GetWidenedType(srcKind, destKind);
             k == String || (k == Decimal && (IsFloating(srcKind) || IsFloating(destKind)))
    ensures forall w: ColumnType {:trigger HoldsBoth(String, w, srcKind, src, destKind, dest)} ::
              w.maxLength == (if srcKind == String && destKind == String
                              then WidenedStringLength(src.maxLength, dest.maxLength) else 0)
              ==> HoldsBoth(String, w, srcKind, src, destKind, dest)
  {
    KnownKinds(srcKind, destKind);
    WidenedIsUpperBound(srcKind, destKind);
    CanBeText(srcKind);
    CanBeText(destKind);
  }

  lemma {:induction false} KnownKinds(src: DataType, dest: DataType)
    requires GetWidenedType(src, dest) != JSON && GetWidenedType(src, dest) != Unknown
    ensures src != Unknown && dest != Unknown
  {
  }

  lemma {:induction false} PlainHolds(
    w: ColumnType, srcKind: DataType, src: ColumnType, destKind: DataType, dest: ColumnType)
    requires var k := GetWidenedType(srcKind, destKind); k != String && k != Decimal
    ensures HoldsBoth(GetWidenedType(srcKind, destKind), w, srcKind, src, destKind, dest)
  {
    var k := GetWidenedType(srcKind, destKind);
    if k == Unknown {
      OnlyUnknown(srcKind, destKind);
    } else if k != JSON {
      KnownKinds(srcKind, destKind);
      WidenedIsUpperBound(srcKind, destKind);
    }
  }

  lemma {:induction false} OnlyUnknown(src: DataType, dest: DataType)
    requires GetWidenedType(src, dest) == Unknown
    ensures src == dest == Unknown
  {
  }

  lemma {:induction false} DecimalHolds(
    w: ColumnType, srcKind: DataType, src: ColumnType, destKind: DataType, dest: ColumnType)
    requires WellFormed(src) && WellFormed(dest)
    requires GetWidenedType(srcKind, destKind) == Decimal && !IsFloating(srcKind) && !IsFloating(destKind)
    requires var merged := MergeDecimalTypesChecked(srcKind, src, destKind, dest);
             merged.Ok? && w.precision == merged.value.precision && w.scale == merged.value.scale
    ensures HoldsBoth(Decimal, w, srcKind, src, destKind, dest)
  {
    DecimalOfNumbers(srcKind, destKind);
    DigitsAreShape(srcKind, src);
    DigitsAreShape(destKind, dest);
    MergedHolds(srcKind, src, destKind, dest);
  }

  /** Both numbers, one of them at least a decimal, and together above 76 digits. */
  ghost predicate TooWide(srcKind: DataType, src: ColumnType, destKind: DataType, dest: ColumnType) {
    && (srcKind == Decimal || destKind == Decimal)
    && Digits(srcKind, src).Some? && Digits(destKind, dest).Some?
    && Max(Digits(srcKind, src).value.0, Digits(destKind, dest).value.0)
       + Max(Digits(srcKind, src).value.1, Digits(destKind, dest).value.1) > 76
  }

  lemma {:induction false} TooWideIsDecimal(srcKind: DataType, src: ColumnType, destKind: DataType, dest: ColumnType)
    ensures TooWide(srcKind, src, destKind, dest) ==>
              GetWidenedType(srcKind, destKind) == Decimal && !IsFloating(srcKind) && !IsFloating(destKind)
  {
  }

  /**
   A widened type, or its element type if both are arrays, holds every value of both types, with
   no more digits and no shorter or longer text than they need; text is bounded only if
   both were. It fails exactly when the decimal would be too wide.
   */
  lemma {:induction false} WidenedHoldsBoth(src: ColumnType, dest: ColumnType)
    requires WellFormed(src) && WellFormed(dest)
    ensures var w := WidenedType(src, dest);
            if src.kind == Array && dest.kind == Array then
              && (w.Err? <==> TooWide(src.element, src, dest.element, dest))
              && (w.Ok? ==>
                    && w.value.kind == Array
                    && HoldsBoth(w.value.element, w.value, src.element, src, dest.element, dest))
            else
              && (w.Err? <==> TooWide(src.kind, src, dest.kind, dest))
              && (w.Ok? ==> HoldsBoth(w.value.kind, w.value, src.kind, src, dest.kind, dest))
  {
    if src.kind == Array && dest.kind == Array {
      ArrayHoldsBoth(src, dest);
    } else {
      ScalarHoldsBoth(src, dest);
    }
  }

  lemma {:induction false} ScalarHoldsBoth(src: ColumnType, dest: ColumnType)
    requires WellFormed(src) && WellFormed(dest)
    ensures var w := WidenedScalar(src, dest);
            && (w.Err? <==> TooWide(src.kind, src, dest.kind, dest))
            && (w.Ok? ==> HoldsBoth(w.value.kind, w.value, src.kind, src, dest.kind, dest))
  {
    var k, w := GetWidenedType(src.kind, dest.kind), WidenedScalar(src, dest);
    TooWideIsDecimal(src.kind, src, dest.kind, dest);
    if k == String || (k == Decimal && (IsFloating(src.kind) || IsFloating(dest.kind))) {
      TextHolds(src.kind, src, dest.kind, dest);
    } else if k == Decimal {
      DecimalOfNumbers(src.kind, dest.kind);
      DigitsAreShape(src.kind, src);
      DigitsAreShape(dest.kind, dest);
      MergedHolds(src.kind, src, dest.kind, dest);
      if w.Ok? { DecimalHolds(w.value, src.kind, src, dest.kind, dest); }
    } else {
      PlainHolds(w.value, src.kind, src, dest.kind, dest);
    }
  }

  lemma {:induction false} ArrayHoldsBoth(src: ColumnType, dest: ColumnType)
    requires WellFormed(src) && WellFormed(dest)
    ensures var w := WidenedArray(src, dest);
            && (w.Err? <==> TooWide(src.element, src, dest.element, dest))
            && (w.Ok? ==>
                  && w.value.kind == Array
                  && HoldsBoth(w.value.element, w.value, src.element, src, dest.element, dest))
  {
    var k, w := GetWidenedType(src.element, dest.element), WidenedArray(src, dest);
    TooWideIsDecimal(src.element, src, dest.element, dest);
    if k == String || (k == Decimal && (IsFloating(src.element) || IsFloating(dest.element))) {
      TextHolds(src.element, src, dest.element, dest);
    } else if k == Decimal {
      DecimalOfNumbers(src.element, dest.element);
      DigitsAreShape(src.element, src);
      DigitsAreShape(dest.element, dest);
      MergedHolds(src.element, src, dest.element, dest);
      if w.Ok? { DecimalHolds(w.value, src.element, src, dest.element, dest); }
    } else {
      PlainHolds(w.value, src.element, src, dest.element, dest);
    }
  }

  // ---------------------------------------------------------------------------
  // One column
  // ---------------------------------------------------------------------------

  ghost predicate Room(kind: DataType, src: ColumnType, dest: ColumnType) {
    NeedsRoom(kind, src, dest) <==> !HoldsAs(kind, dest, kind, src)
  }

  /** Within one kind the comparison asks for room exactly when the destination does not hold the source. */
  lemma {:induction false} NeedsRoomExactly(kind: DataType, src: ColumnType, dest: ColumnType)
    ensures Room(kind, src, dest)
  {
  }

  lemma {:induction false} HoldsItself(t: ColumnType)
    ensures Holds(t, t)
  {
  }

  /** Types of one shape hold the same values. */
  lemma {:induction false} SameShapeHolds(a: ColumnType, b: ColumnType, src: ColumnType)
    requires SameColumnTypeShape(a, b) && Holds(a, src)
    ensures Holds(b, src)
  {
  }

  /** Left alone or widened, the column's type holds what comes and what is there. */
  lemma {:induction false} FittingHoldsBoth(src: ColumnType, dest: ColumnType)
    requires WellFormed(src) && WellFormed(dest) && FittingType(src, dest).Ok?
    ensures var fitting := FittingType(src, dest).value;
            var after := if fitting.Some? then fitting.value else dest;
            Holds(after, src) && Holds(after, dest)
  {
    HoldsItself(dest);
    if !NeedsWidening(src, dest) {
      NeedsRoomExactly(if src.kind == Array then src.element else src.kind, src, dest);
    } else {
      var w := WidenedType(src, dest).value;
      WidenedHoldsBoth(src, dest);
      WidenedIsArray(src, dest, w);
      if SameColumnTypeShape(w, dest) { SameShapeHolds(w, dest, src); }
    }
  }

  /** Only two arrays are widened to an array. */
  lemma {:induction false} WidenedIsArray(src: ColumnType, dest: ColumnType, w: ColumnType)
    requires WidenedType(src, dest) == Ok(w)
    ensures w.kind == Array <==> src.kind == Array && dest.kind == Array
  {
  }

  /** An override gives its kind; if the column has that already, it is never narrowed. */
  lemma {:induction false} OverridingHolds(wanted: ColumnType, dest: ColumnType)
    requires WellFormed(wanted) && WellFormed(dest) && OverridingType(wanted, dest).Ok?
    ensures var overriding := OverridingType(wanted, dest).value;
            var after := if overriding.Some? then overriding.value else dest;
            && after.kind == wanted.kind
            && (wanted.kind != dest.kind ==> after == wanted)
            && (wanted.kind == dest.kind && wanted.kind != Array ==> Holds(after, wanted) && Holds(after, dest))
  {
    if wanted.kind == dest.kind == Decimal {
      MergeKeepsBothParts(NormalizedDecimal(wanted), NormalizedDecimal(dest));
    }
  }

  /** Sizes as a destination reports them: no negative length, and no decimal without a precision. */
  predicate IsSpecified(t: ColumnType) {
    t.maxLength >= 0 && (t.kind == Decimal || (t.kind == Array && t.element == Decimal) ==> t.precision > 0)
  }

  lemma {:induction false} PathsClimb(src: DataType, dest: DataType)
    requires src != dest && CanWiden(src, dest)
    ensures WideningOrder(src).Some? && WideningOrder(dest).Some?
    ensures WideningOrder(src).value <= WideningOrder(dest).value
  {
  }

  lemma {:induction false} WritableAsText(src: DataType)
    requires src != JSON && src != Array && src != Unknown
    ensures CanWiden(src, String) && CanWiden(src, JSON)
  {
  }

  lemma {:induction false} AnythingAsJson(src: DataType)
    ensures GetWidenedType(src, JSON) == JSON
  {
  }

  lemma {:induction false} HeldIsWider(src: DataType, dest: DataType, s: ColumnType, d: ColumnType)
    requires src != dest && HoldsAs(dest, d, src, s)
    ensures GetWidenedType(src, dest) == dest
    ensures dest == Decimal ==> !IsFloating(src)
  {
    if dest == JSON {
      AnythingAsJson(src);
    } else {
      if dest == String { WritableAsText(src); }
      PathsClimb(src, dest);
    }
  }

  ghost predicate TooWideTypes(src: ColumnType, dest: ColumnType) {
    if src.kind == Array && dest.kind == Array then TooWide(src.element, src, dest.element, dest)
    else TooWide(src.kind, src, dest.kind, dest)
  }

  predicate SameKinds(src: ColumnType, dest: ColumnType) {
    src.kind == dest.kind && (src.kind == Array ==> src.element == dest.element)
  }

  /**
   Unless it fails, the comparison leaves a type alone exactly when it holds the source already.
   It fails exactly when the merged decimal would exceed the limit and is needed; a destination
   of another kind counts as needing it, even if it is wide enough.
   */
  lemma {:induction false} LeftAloneExactly(src: ColumnType, dest: ColumnType)
    requires WellFormed(src) && WellFormed(dest) && IsSpecified(dest)
    ensures FittingType(src, dest).Err? <==> TooWideTypes(src, dest) && !(SameKinds(src, dest) && Holds(dest, src))
    ensures FittingType(src, dest).Ok? ==> (FittingType(src, dest).value.None? <==> Holds(dest, src))
  {
    NeedsExactly(src, dest);
    WidenedHoldsBoth(src, dest);
    if FittingType(src, dest).Ok? {
      FittingHoldsBoth(src, dest);
      if Holds(dest, src) && NeedsWidening(src, dest) { WidenedIsDest(src, dest); }
    }
  }

  /** A decimal above the limit holds every small integer, and still the comparison rejects one. */
  lemma {:induction false} WideEnoughIsRejected(precision: int)
    requires precision > 76
    ensures var src, dest := ColumnType(Int8, 0, 0, 0, Unknown), ColumnType(Decimal, precision, 0, 0, Unknown);
            Holds(dest, src) && FittingType(src, dest).Err?
  {
    var src, dest := ColumnType(Int8, 0, 0, 0, Unknown), ColumnType(Decimal, precision, 0, 0, Unknown);
    LeftAloneExactly(src, dest);
  }

  lemma {:induction false} NeedsExactly(src: ColumnType, dest: ColumnType)
    ensures NeedsWidening(src, dest) <==> !(SameKinds(src, dest) && Holds(dest, src))
  {
    NeedsRoomExactly(if src.kind == Array then src.element else src.kind, src, dest);
  }

  lemma {:induction false} WidenedIsDest(src: ColumnType, dest: ColumnType)
    requires WellFormed(src) && WellFormed(dest) && IsSpecified(dest)
    requires Holds(dest, src) && !SameKinds(src, dest) && WidenedType(src, dest).Ok?
    ensures SameColumnTypeShape(WidenedType(src, dest).value, dest)
  {
    WidenedHoldsBoth(src, dest);
    if src.kind == Array && dest.kind == Array {
      HeldIsWider(src.element, dest.element, src, dest);
    } else {
      HeldIsWider(src.kind, dest.kind, src, dest);
    }
  }

  // ---------------------------------------------------------------------------
  // The whole schema
  // ---------------------------------------------------------------------------

  /** The columns evolution keeps for itself. */
  predicate IsBookkeeping(key: string) {
    "_dlt_" <= key || key == "_ingestr_loaded_at" || key == "_ingestr_run_id"
  }

  /** A column that was there: it keeps its name, and allows null exactly when it must. */
  ghost predicate KeptColumn(opts: Options, key: string, src: Column, was: Column, after: Column) {
    && after.name == was.name
    && (was.nullable ==> after.nullable)
    && (after.nullable && !was.nullable ==> src.nullable && key !in opts.primaryKeys)
    && (src.nullable && key !in opts.primaryKeys && !IsBookkeeping(key) ==> after.nullable)
  }

  lemma {:induction false} KeptPlain(opts: Options, src: Column, was: Column)
    requires WellFormed(src.ty) && WellFormed(was.ty) && PlainColumnChanges(opts, src, Some(was)).Ok?
    ensures var after := EvolveBy(PlainColumnChanges(opts, src, Some(was)).value, Some(was));
            && after.Some? && KeptColumn(opts, Lower(src.name), src, was, after.value)
            && Holds(after.value.ty, src.ty) && Holds(after.value.ty, was.ty)
  {
    PlainColumnEvolves(opts, src, was);
    FittingHoldsBoth(src.ty, was.ty);
  }

  lemma {:induction false} KeptOverridden(opts: Options, o: ColumnOverride, src: Column, was: Column)
    requires WellFormed(src.ty) && WellFormed(was.ty) && OverriddenColumnChanges(opts, o, src, Some(was)).Ok?
    ensures var after := EvolveBy(OverriddenColumnChanges(opts, o, src, Some(was)).value, Some(was));
            var wanted := o.ApplyToColumn(src).ty;
            && after.Some? && KeptColumn(opts, Lower(src.name), src, was, after.value)
            && after.value.ty.kind == wanted.kind
            && (was.ty.kind != wanted.kind ==> after.value.ty == wanted)
            && (was.ty.kind == wanted.kind && wanted.kind != Array ==>
                  Holds(after.value.ty, wanted) && Holds(after.value.ty, was.ty))
  {
    OverriddenColumnEvolves(opts, o, src, was);
    OverridingHolds(o.ApplyToColumn(src).ty, was.ty);
  }

  /**
   The predicted column of a source column. A new one is the source's own, nullable. One that was
   there holds what it held and what comes, unless an override says otherwise: that
   decides the kind, but never narrows a column of the same kind.
   */
  lemma {:induction false} PredictionHoldsBoth(opts: Options, source: seq<Column>, dest: seq<Column>, i: nat)
    requires WellFormedSchema(source) && WellFormedSchema(dest) && Comparison(opts, source, dest).Ok?
    requires i < |source|
    ensures var src, key := source[i], Lower(source[i].name);
            var was, final := ByName(dest), ByName(FinalSchema(opts, source, dest));
            && key in final
            && (key !in opts.overrides && key !in was ==> final[key] == src.(nullable := true))
            && (key !in opts.overrides && key in was ==>
                  && KeptColumn(opts, key, src, was[key], final[key])
                  && Holds(final[key].ty, src.ty) && Holds(final[key].ty, was[key].ty))
            && (key in opts.overrides ==>
                  var wanted := opts.overrides[key].ApplyToColumn(src).ty;
                  && final[key].ty.kind == wanted.kind
                  && (key !in was ==> final[key] == src.(ty := wanted, nullable := true))
                  && (key in was ==> KeptColumn(opts, key, src, was[key], final[key]))
                  && (key in was && was[key].ty.kind != wanted.kind ==> final[key].ty == wanted)
                  && (key in was && was[key].ty.kind == wanted.kind && wanted.kind != Array ==>
                        Holds(final[key].ty, wanted) && Holds(final[key].ty, was[key].ty)))
  {
    var src, found := source[i], Get(ByName(dest), source[i].name);
    FinalColumn(opts, source, dest, i);
    if found.Some? {
      WellFormedAt(dest, Lower(src.name));
      if Lower(src.name) in opts.overrides {
        KeptOverridden(opts, opts.overrides[Lower(src.name)], src, found.value);
      } else {
        KeptPlain(opts, src, found.value);
      }
    } else {
      var changes := ColumnChanges(opts, src, None).value;
      assert changes == [changes[0]] && EvolveBy(changes[..0], None) == None;
    }
  }

  lemma {:induction false} WellFormedAt(columns: seq<Column>, key: string)
    requires WellFormedSchema(columns) && key in ByName(columns)
    ensures WellFormed(ByName(columns)[key].ty)
  {
    ByNameKeys(columns, key);
    var i :| 0 <= i < |columns| && Lower(columns[i].name) == key;
    ByNameAt(columns, i);
  }

  /**
   Every other column of the destination stays, and becomes nullable unless it is one of the
   bookkeeping columns; there are no further columns.
   */
  lemma {:induction false} OtherColumnsStay(opts: Options, source: seq<Column>, dest: seq<Column>, key: string)
    requires DistinctNames(source) && DistinctNames(dest) && Comparison(opts, source, dest).Ok?
    requires key !in KeysOf(source)
    ensures var was, final := ByName(dest), ByName(FinalSchema(opts, source, dest));
            && (key in final <==> key in was)
            && (key in was ==>
                  final[key] == if IsBookkeeping(key) then was[key] else was[key].(nullable := true))
  {
    FinalSchemaMap(opts, source, dest);
    EvolvedMapOutside(opts, source, ByName(dest), key);
    ByNameKeys(dest, key);
  }
}
