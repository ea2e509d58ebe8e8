/**
 Evolution converges in one step: comparing the same source with the predicted schema asks for
 nothing but column removals, which change nothing, unless an override asked for a decimal
 wider than can be merged.
 */
module Convergence {
  import opened Wrappers
  import opened SchemaTypes
  import opened Widening
  import opened SchemaCompare
  import opened EvolutionPlan

  /** Precisions are never negative in a schema. */
  ghost predicate WellFormed(t: ColumnType) { t.precision >= 0 }

  // ---------------------------------------------------------------------------
  // One column
  // ---------------------------------------------------------------------------

  /** The column after a list of changes that all name it. */
  ghost function EvolveBy(changes: seq<SchemaChange>, col: Option<Column>): Option<Column> {
    if changes == [] then col
    else
      var before := EvolveBy(changes[..|changes| - 1], col);
      var last := changes[|changes| - 1];
      if last.kind.AddColumn? then Some(last.newColumn)
      else if before.Some? then Some(EditColumn(EditOf(last), before.value))
      else None
  }

  /** The destination column after the changes its source column asks for. */
  ghost function Evolve(opts: Options, src: Column, dest: Option<Column>): Column
    requires ColumnChanges(opts, src, dest).Ok?
  {
    var after := EvolveBy(ColumnChanges(opts, src, dest).value, dest);
    if after.Some? then after.value else src
  }

  /** An override that makes a decimal column must not exceed what a merge accepts. */
  predicate OverrideFits(opts: Options, src: Column, dest: Option<Column>) {
    Lower(src.name) in opts.overrides ==>
      var wanted := opts.overrides[Lower(src.name)].ApplyToColumn(src).ty;
      wanted.kind == Decimal && (dest.None? || dest.value.ty.kind != Decimal) ==>
        NormalizedDecimal(wanted).precision <= MAX_PRECISION
  }

  lemma {:induction false} EvolveByOne(changes: seq<SchemaChange>, col: Column)
    requires |changes| == 1 && !changes[0].kind.AddColumn?
    ensures EvolveBy(changes, Some(col)) == Some(EditColumn(EditOf(changes[0]), col))
  {
    assert EvolveBy(changes[..0], Some(col)) == Some(col);
  }

  /** A relaxation followed by at most one type change. */
  lemma {:induction false} EvolveByPair(relaxed: seq<SchemaChange>, typed: seq<SchemaChange>, col: Column)
    requires |relaxed| <= 1 && |typed| <= 1
    requires relaxed != [] ==> relaxed[0].kind.RelaxNullability?
    requires typed != [] ==> typed[0].kind.WidenType? || typed[0].kind.OverrideType?
    ensures EvolveBy(relaxed + typed, Some(col)) == Some(
              if typed != [] then typed[0].newColumn.(name := col.name)
              else if relaxed != [] then col.(nullable := true) else col)
  {
    if relaxed != [] { EvolveByOne(relaxed, col); }
    if typed == [] {
      assert relaxed + typed == relaxed;
    } else if relaxed == [] {
      assert relaxed + typed == typed;
      EvolveByOne(typed, col);
    } else {
      assert (relaxed + typed)[..1] == relaxed;
    }
  }

  // A widened type needs no further widening, whatever the types. The resulting kind decides
  // why; arrays repeat the argument for their elements.

  ghost predicate WidensTo(src: ColumnType, dest: ColumnType, widened: ColumnType) {
    WidenedType(src, dest) == Ok(widened)
  }

  predicate BothArrays(src: ColumnType, dest: ColumnType) { src.kind == Array && dest.kind == Array }

  lemma {:induction false} ScalarDecimalSettles(src: ColumnType, dest: ColumnType, widened: ColumnType)
    requires WellFormed(src) && WellFormed(dest) && !BothArrays(src, dest) && WidensTo(src, dest, widened)
    requires GetWidenedType(src.kind, dest.kind) == Decimal && !IsFloating(src.kind) && !IsFloating(dest.kind)
    ensures FittingType(src, widened) == Ok(None)
  {
    var s := DecimalRepresentation(src.kind, src).value;
    var d := DecimalRepresentation(dest.kind, dest).value;
    MergeKeepsBothParts(s, d);
    MergeAbsorbs(s, d);
    assert NormalizedDecimal(widened) == MergeDecimalPrecision(s, d);
    if src.kind == Decimal { assert !DecimalNeedsWidening(src, widened); }
  }

  lemma {:induction false} ScalarFloatingSettles(src: ColumnType, dest: ColumnType, widened: ColumnType)
    requires !BothArrays(src, dest) && WidensTo(src, dest, widened)
    requires GetWidenedType(src.kind, dest.kind) == Decimal && (IsFloating(src.kind) || IsFloating(dest.kind))
    ensures FittingType(src, widened) == Ok(None)
  {
  }

  lemma {:induction false} ScalarOtherSettles(src: ColumnType, dest: ColumnType, widened: ColumnType)
    requires !BothArrays(src, dest) && WidensTo(src, dest, widened)
    requires GetWidenedType(src.kind, dest.kind) != Decimal
    ensures FittingType(src, widened) == Ok(None)
  {
    WidenedAbsorbs(src.kind, dest.kind);
  }

  lemma {:induction false} ArrayDecimalSettles(src: ColumnType, dest: ColumnType, widened: ColumnType)
    requires WellFormed(src) && WellFormed(dest) && BothArrays(src, dest) && WidensTo(src, dest, widened)
    requires GetWidenedType(src.element, dest.element) == Decimal
    requires !IsFloating(src.element) && !IsFloating(dest.element)
    ensures FittingType(src, widened) == Ok(None)
  {
    var s := DecimalRepresentation(src.element, src).value;
    var d := DecimalRepresentation(dest.element, dest).value;
    MergeKeepsBothParts(s, d);
    MergeAbsorbs(s, d);
    assert NormalizedDecimal(widened) == MergeDecimalPrecision(s, d);
    if src.element == Decimal { assert !DecimalNeedsWidening(src, widened); }
  }

  lemma {:induction false} ArrayFloatingSettles(src: ColumnType, dest: ColumnType, widened: ColumnType)
    requires BothArrays(src, dest) && WidensTo(src, dest, widened)
    requires GetWidenedType(src.element, dest.element) == Decimal
    requires IsFloating(src.element) || IsFloating(dest.element)
    ensures FittingType(src, widened) == Ok(None)
  {
  }

  lemma {:induction false} ArrayOtherSettles(src: ColumnType, dest: ColumnType, widened: ColumnType)
    requires BothArrays(src, dest) && WidensTo(src, dest, widened)
    requires GetWidenedType(src.element, dest.element) != Decimal
    ensures FittingType(src, widened) == Ok(None)
  {
    WidenedAbsorbs(src.element, dest.element);
  }

  lemma {:induction false} WidenedSettles(src: ColumnType, dest: ColumnType, widened: ColumnType)
    requires WellFormed(src) && WellFormed(dest) && WidensTo(src, dest, widened)
    ensures FittingType(src, widened) == Ok(None)
  {
    if BothArrays(src, dest) {
      if GetWidenedType(src.element, dest.element) != Decimal {
        ArrayOtherSettles(src, dest, widened);
      } else if IsFloating(src.element) || IsFloating(dest.element) {
        ArrayFloatingSettles(src, dest, widened);
      } else {
        ArrayDecimalSettles(src, dest, widened);
      }
    } else if GetWidenedType(src.kind, dest.kind) != Decimal {
      ScalarOtherSettles(src, dest, widened);
    } else if IsFloating(src.kind) || IsFloating(dest.kind) {
      ScalarFloatingSettles(src, dest, widened);
    } else {
      ScalarDecimalSettles(src, dest, widened);
    }
  }

  // ---------------------------------------------------------------------------
  // The changes asked of an evolved column
  // ---------------------------------------------------------------------------

  /** The relaxation and the type change, told apart. */
  lemma {:induction false} PlainColumnEvolves(opts: Options, src: Column, dest: Column)
    requires PlainColumnChanges(opts, src, Some(dest)).Ok?
    ensures FittingType(src.ty, dest.ty).Ok?
    ensures var after := EvolveBy(PlainColumnChanges(opts, src, Some(dest)).value, Some(dest));
            && after.Some?
            && after.value.name == dest.name
            && (FittingType(src.ty, dest.ty).value.None? ==>
                  after.value == dest.(nullable := dest.nullable || Relaxes(opts, src, dest)))
            && (FittingType(src.ty, dest.ty).value.Some? ==>
                  && after.value.ty == FittingType(src.ty, dest.ty).value.value
                  && after.value.nullable
                     == (dest.nullable || (src.nullable && !IsPrimaryKey(opts, src.name))))
  {
    var relaxed :=
      if Relaxes(opts, src, dest)
      then [SchemaChange(RelaxNullability, dest.name, Some(dest), src.(name := dest.name))] else [];
    EvolveByPair(relaxed, WidenTypeChange(opts, src, dest).value, dest);
  }

  lemma {:induction false} PlainColumnSettles(opts: Options, src: Column, dest: Column)
    requires WellFormed(src.ty) && WellFormed(dest.ty)
    requires PlainColumnChanges(opts, src, Some(dest)).Ok?
    ensures var after := EvolveBy(PlainColumnChanges(opts, src, Some(dest)).value, Some(dest));
            after.Some? && PlainColumnChanges(opts, src, after) == Ok([])
  {
    PlainColumnEvolves(opts, src, dest);
    var after := EvolveBy(PlainColumnChanges(opts, src, Some(dest)).value, Some(dest)).value;
    FittingTypeSettles(src.ty, dest.ty, after.ty);
    NothingToDo(opts, src, after);
  }

  lemma {:induction false} FittingTypeSettles(src: ColumnType, dest: ColumnType, after: ColumnType)
    requires WellFormed(src) && WellFormed(dest) && FittingType(src, dest).Ok?
    requires after == if FittingType(src, dest).value.Some? then FittingType(src, dest).value.value else dest
    ensures FittingType(src, after) == Ok(None)
  {
    if FittingType(src, dest).value.Some? { WidenedSettles(src, dest, after); }
  }

  lemma {:induction false} NothingToDo(opts: Options, src: Column, dest: Column)
    requires !Relaxes(opts, src, dest) && FittingType(src.ty, dest.ty) == Ok(None)
    ensures PlainColumnChanges(opts, src, Some(dest)) == Ok([])
  {
    var none: seq<SchemaChange> := [];
    assert none + none == none;
  }

  /** An overridden column is settled unless its new decimal is wider than a merge accepts. */
  lemma {:induction false} OverridingTypeSettles(wanted: ColumnType, dest: ColumnType, after: ColumnType)
    requires WellFormed(wanted) && WellFormed(dest) && OverridingType(wanted, dest).Ok?
    requires after ==
               if OverridingType(wanted, dest).value.Some? then OverridingType(wanted, dest).value.value else dest
    ensures var tooWide :=
              wanted.kind == Decimal && dest.kind != Decimal && NormalizedDecimal(wanted).precision > MAX_PRECISION;
            && (tooWide ==> OverridingType(wanted, after).Err?)
            && (!tooWide ==> OverridingType(wanted, after) == Ok(None))
  {
    var w, d := NormalizedDecimal(wanted), NormalizedDecimal(dest);
    MergeKeepsBothParts(w, d);
    MergeAbsorbs(w, d);
    MergeKeepsBothParts(w, w);
  }

  /** The relaxation and the override, told apart. */
  lemma {:induction false} OverriddenColumnEvolves(opts: Options, o: ColumnOverride, src: Column, dest: Column)
    requires OverriddenColumnChanges(opts, o, src, Some(dest)).Ok?
    ensures var overriding := OverridingType(o.ApplyToColumn(src).ty, dest.ty);
            var after := EvolveBy(OverriddenColumnChanges(opts, o, src, Some(dest)).value, Some(dest));
            && overriding.Ok?
            && after.Some? && after.value.name == dest.name
            && after.value.ty == (if overriding.value.Some? then overriding.value.value else dest.ty)
            && after.value.nullable == (dest.nullable || Relaxes(opts, src, dest))
  {
    var relax := Relaxes(opts, src, dest);
    var relaxed :=
      if relax then [SchemaChange(RelaxNullability, dest.name, Some(dest), dest.(nullable := true))] else [];
    var newCol := o.ApplyToColumn(src).(name := dest.name, nullable := dest.nullable || relax);
    EvolveByPair(relaxed, OverrideTypeChange(newCol, dest).value, dest);
  }

  lemma {:induction false} NothingToRelax(opts: Options, o: ColumnOverride, src: Column, dest: Column)
    requires !Relaxes(opts, src, dest)
    ensures var overriding := OverridingType(o.ApplyToColumn(src).ty, dest.ty);
            && (overriding.Err? ==> OverriddenColumnChanges(opts, o, src, Some(dest)).Err?)
            && (overriding == Ok(None) ==> OverriddenColumnChanges(opts, o, src, Some(dest)) == Ok([]))
  {
    var none: seq<SchemaChange> := [];
    assert none + none == none;
  }

  lemma {:induction false} OverriddenColumnSettles(opts: Options, o: ColumnOverride, src: Column, dest: Column)
    requires WellFormed(o.ApplyToColumn(src).ty) && WellFormed(dest.ty)
    requires OverriddenColumnChanges(opts, o, src, Some(dest)).Ok?
    ensures var after := EvolveBy(OverriddenColumnChanges(opts, o, src, Some(dest)).value, Some(dest));
            var wanted := o.ApplyToColumn(src).ty;
            var tooWide :=
              wanted.kind == Decimal && dest.ty.kind != Decimal && NormalizedDecimal(wanted).precision > MAX_PRECISION;
            && after.Some?
            && (tooWide ==> OverriddenColumnChanges(opts, o, src, after).Err?)
            && (!tooWide ==> OverriddenColumnChanges(opts, o, src, after) == Ok([]))
  {
    OverriddenColumnEvolves(opts, o, src, dest);
    var after := EvolveBy(OverriddenColumnChanges(opts, o, src, Some(dest)).value, Some(dest)).value;
    OverridingTypeSettles(o.ApplyToColumn(src).ty, dest.ty, after.ty);
    NothingToRelax(opts, o, src, after);
  }
}
