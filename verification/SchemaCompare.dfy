/**
 Comparing a source schema with a destination schema. The column normaliser of the options is
 taken to be the identity.
 */
module SchemaCompare {
  import opened Wrappers
  import opened SchemaTypes
  import opened Widening

  datatype ColumnOverride = ColumnOverride(
    dataType: DataType, precision: int, scale: int, scaleSpecified: bool, maxLength: int)
  {
    /** An unknown type means the override only renames. */
    function ApplyToColumn(col: Column): Column {
      col.(ty := ColumnType(
        if dataType != Unknown then dataType else col.ty.kind,
        if precision > 0 then precision else col.ty.precision,
        if scaleSpecified || scale > 0 then scale else col.ty.scale,
        if maxLength > 0 then maxLength else col.ty.maxLength,
        col.ty.element))
    }
  }

  /** Overrides are keyed by lower-case column name. */
  datatype CompareOptions = CompareOptions(
    overrides: map<string, ColumnOverride>, primaryKeys: seq<string>)

  /** The options as the comparison consults them, with the primary keys in lower case. */
  datatype Options = Options(overrides: map<string, ColumnOverride>, primaryKeys: set<string>)

  function Resolve(given: CompareOptions): Options {
    Options(given.overrides, LowerSet(given.primaryKeys))
  }

  function LowerSet(names: seq<string>): set<string> {
    set i | 0 <= i < |names| :: Lower(names[i])
  }

  datatype EvolutionError = DecimalTooWide(column: string, precision: int)

  // ---------------------------------------------------------------------------
  // Column types
  // ---------------------------------------------------------------------------

  /** An unspecified precision stands for the default one. */
  function NormalizedDecimal(t: ColumnType): Shape {
    Shape(if t.precision == 0 then DEFAULT_PRECISION else t.precision, t.scale)
  }

  predicate DecimalNeedsWidening(src: ColumnType, dest: ColumnType) {
    var s, d := NormalizedDecimal(src), NormalizedDecimal(dest);
    s.IntDigits() > d.IntDigits() || s.scale > d.scale
  }

  /** A length of zero or less is unbounded. */
  predicate StringNeedsWidening(srcLen: int, destLen: int) {
    destLen > 0 && (srcLen <= 0 || srcLen > destLen)
  }

  function WidenedStringLength(a: int, b: int): int {
    if a <= 0 || b <= 0 then 0 else Max(a, b)
  }

  /** Two values of one kind: does the source need more room than the destination has? */
  predicate NeedsRoom(kind: DataType, src: ColumnType, dest: ColumnType) {
    match kind
    case Decimal => DecimalNeedsWidening(src, dest)
    case String => StringNeedsWidening(src.maxLength, dest.maxLength)
    case _ => false
  }

  predicate NeedsWidening(src: ColumnType, dest: ColumnType) {
    if src.kind != dest.kind then true
    else if src.kind != Array then NeedsRoom(src.kind, src, dest)
    else if src.element != dest.element then true
    else NeedsRoom(src.element, src, dest)
  }

  predicate SameSize(kind: DataType, a: ColumnType, b: ColumnType) {
    match kind
    case Decimal => a.precision == b.precision && a.scale == b.scale
    case String => a.maxLength == b.maxLength
    case _ => true
  }

  predicate SameColumnTypeShape(a: ColumnType, b: ColumnType) {
    && a.kind == b.kind
    && (if a.kind != Array then SameSize(a.kind, a, b)
        else a.element == b.element && SameSize(a.element, a, b))
  }

  predicate IsFloating(t: DataType) { t == Float32 || t == Float64 }

  /** Integers are merged with decimals through the digits they need. */
  function DecimalRepresentation(kind: DataType, t: ColumnType): Option<Shape> {
    match kind
    case Decimal => Some(NormalizedDecimal(t))
    case Int8 => Some(Shape(3, 0))
    case Int16 => Some(Shape(5, 0))
    case Int32 => Some(Shape(10, 0))
    case Int64 => Some(Shape(19, 0))
    case _ => None
  }

  /** Merges two types read as values of the given kinds (their own, or their elements'). */
  function MergeDecimalTypesChecked(srcKind: DataType, src: ColumnType, destKind: DataType, dest: ColumnType)
    : Result<Shape, int>
  {
    var s, d := DecimalRepresentation(srcKind, src), DecimalRepresentation(destKind, dest);
    if s.None? || d.None? then
      if srcKind == Decimal then Ok(Shape(src.precision, src.scale))
      else Ok(Shape(dest.precision, dest.scale))
    else MergeDecimalPrecisionChecked(s.value, d.value)
  }

  function WithShape(t: ColumnType, merged: Result<Shape, int>): Result<ColumnType, int> {
    match merged
    case Err(p) => Err(p)
    case Ok(shape) => Ok(t.(precision := shape.precision, scale := shape.scale))
  }

  function Unsized(t: ColumnType): ColumnType { t.(precision := 0, scale := 0, maxLength := 0) }

  function WidenedArray(src: ColumnType, dest: ColumnType): Result<ColumnType, int> {
    var result := src.(kind := Array, element := GetWidenedType(src.element, dest.element));
    if result.element == Decimal && (IsFloating(src.element) || IsFloating(dest.element)) then
      Ok(Unsized(result.(element := String)))
    else
      var sized :=
        if result.element == dest.element then
          result.(precision := dest.precision, scale := dest.scale, maxLength := dest.maxLength)
        else result;
      if sized.element == Decimal then
        WithShape(sized, MergeDecimalTypesChecked(src.element, src, dest.element, dest))
      else if sized.element == String then
        Ok(sized.(maxLength :=
          if src.element == String && dest.element == String
          then WidenedStringLength(src.maxLength, dest.maxLength) else 0))
      else Ok(sized)
  }

  function WidenedScalar(src: ColumnType, dest: ColumnType): Result<ColumnType, int> {
    var result := src.(kind := GetWidenedType(src.kind, dest.kind));
    if result.kind == Decimal && (IsFloating(src.kind) || IsFloating(dest.kind)) then
      Ok(Unsized(result.(kind := String)))
    else if result.kind == Decimal then
      WithShape(result, MergeDecimalTypesChecked(src.kind, src, dest.kind, dest))
    else if result.kind == String then
      Ok(result.(maxLength :=
        if src.kind == String && dest.kind == String
        then WidenedStringLength(src.maxLength, dest.maxLength) else 0))
    else Ok(result)
  }

  /** The type part of a widened column; its name comes from the destination. */
  function WidenedType(src: ColumnType, dest: ColumnType): Result<ColumnType, int> {
    if src.kind == Array && dest.kind == Array then WidenedArray(src, dest)
    else WidenedScalar(src, dest)
  }

  // ---------------------------------------------------------------------------
  // The changes one source column asks for
  // ---------------------------------------------------------------------------

  predicate IsPrimaryKey(opts: Options, name: string) { Lower(name) in opts.primaryKeys }

  /** A nullable source column reaches a required destination column that may be relaxed. */
  predicate Relaxes(opts: Options, src: Column, dest: Column) {
    src.nullable && !dest.nullable && !IsPrimaryKey(opts, src.name) && !IsIngestrColumn(src.name)
  }

  type Changes = Result<seq<SchemaChange>, EvolutionError>

  function Prepend(relaxed: seq<SchemaChange>, typeChange: Changes): Changes {
    match typeChange
    case Err(e) => Err(e)
    case Ok(changes) => Ok(relaxed + changes)
  }

  /** The type an override leads to, or nothing when the destination already holds it. */
  function OverridingType(wanted: ColumnType, dest: ColumnType): Result<Option<ColumnType>, int> {
    if dest.kind != wanted.kind then Ok(Some(wanted))
    else
      match wanted.kind
      case Decimal => (
        match MergeDecimalPrecisionChecked(NormalizedDecimal(wanted), NormalizedDecimal(dest))
        case Err(p) => Err(p)
        case Ok(shape) =>
          if shape == NormalizedDecimal(dest) then Ok(None)
          else Ok(Some(wanted.(precision := shape.precision, scale := shape.scale))))
      case String =>
        // An existing column is never narrowed.
        if !StringNeedsWidening(wanted.maxLength, dest.maxLength) then Ok(None)
        else Ok(Some(wanted.(maxLength := WidenedStringLength(wanted.maxLength, dest.maxLength))))
      case _ => Ok(None)
  }

  function OverrideTypeChange(newCol: Column, dest: Column): Changes {
    OverrideTo(newCol, dest, OverridingType(newCol.ty, dest.ty))
  }

  function OverrideTo(newCol: Column, dest: Column, overriding: Result<Option<ColumnType>, int>): Changes {
    match overriding
    case Err(p) => Err(DecimalTooWide(dest.name, p))
    case Ok(None) => Ok([])
    case Ok(Some(t)) => Ok([SchemaChange(OverrideType, newCol.name, Some(dest), newCol.(ty := t))])
  }

  function OverriddenColumnChanges(opts: Options, o: ColumnOverride, src: Column, dest: Option<Column>): Changes {
    var newCol := o.ApplyToColumn(src);
    match dest
    case None => Ok([SchemaChange(AddColumn, newCol.name, None, newCol.(nullable := true))])
    case Some(d) =>
      var relax := Relaxes(opts, src, d);
      var relaxed :=
        if relax then [SchemaChange(RelaxNullability, d.name, Some(d), d.(nullable := true))] else [];
      Prepend(relaxed, OverrideTypeChange(newCol.(name := d.name, nullable := d.nullable || relax), d))
  }

  /** The type that lets a source column fit, or nothing when it fits already. */
  function FittingType(src: ColumnType, dest: ColumnType): Result<Option<ColumnType>, int> {
    if !NeedsWidening(src, dest) then Ok(None)
    else
      match WidenedType(src, dest)
      case Err(p) => Err(p)
      case Ok(t) => if SameColumnTypeShape(t, dest) then Ok(None) else Ok(Some(t))
  }

  function WidenTypeChange(opts: Options, src: Column, dest: Column): Changes {
    WidenTo(opts, src, dest, FittingType(src.ty, dest.ty))
  }

  function WidenTo(opts: Options, src: Column, dest: Column, fitting: Result<Option<ColumnType>, int>): Changes {
    match fitting
    case Err(p) => Err(DecimalTooWide(dest.name, p))
    case Ok(None) => Ok([])
    case Ok(Some(t)) =>
      var newCol := src.(
        name := dest.name, ty := t,
        nullable := dest.nullable || (src.nullable && !IsPrimaryKey(opts, src.name)));
      Ok([SchemaChange(WidenType, dest.name, Some(dest), newCol)])
  }

  function PlainColumnChanges(opts: Options, src: Column, dest: Option<Column>): Changes {
    match dest
    case None => Ok([SchemaChange(AddColumn, src.name, None, src.(nullable := true))])
    case Some(d) =>
      var relaxed :=
        if Relaxes(opts, src, d)
        then [SchemaChange(RelaxNullability, d.name, Some(d), src.(name := d.name))] else [];
      Prepend(relaxed, WidenTypeChange(opts, src, d))
  }

  function ColumnChanges(opts: Options, src: Column, dest: Option<Column>): Changes {
    if Lower(src.name) in opts.overrides then
      OverriddenColumnChanges(opts, opts.overrides[Lower(src.name)], src, dest)
    else PlainColumnChanges(opts, src, dest)
  }

  // ---------------------------------------------------------------------------
  // The whole comparison, column by column
  // ---------------------------------------------------------------------------

  ghost function Get(columns: map<string, Column>, name: string): Option<Column> {
    if Lower(name) in columns then Some(columns[Lower(name)]) else None
  }

  ghost function SourceChanges(opts: Options, source: seq<Column>, dest: map<string, Column>): Changes {
    if source == [] then Ok([])
    else
      var last := source[|source| - 1];
      match SourceChanges(opts, source[..|source| - 1], dest)
      case Err(e) => Err(e)
      case Ok(before) =>
        match ColumnChanges(opts, last, Get(dest, last.name))
        case Err(e) => Err(e)
        case Ok(more) => Ok(before + more)
  }

  function RemoveChange(d: Column): SchemaChange {
    SchemaChange(RemoveColumn, d.name, Some(d), ZERO_COLUMN)
  }

  predicate IsRemoved(d: Column, sourceKeys: set<string>) {
    !IsIngestrColumn(d.name) && Lower(d.name) !in sourceKeys
  }

  function Removals(dest: seq<Column>, sourceKeys: set<string>): seq<SchemaChange> {
    if dest == [] then []
    else
      var last := dest[|dest| - 1];
      Removals(dest[..|dest| - 1], sourceKeys)
      + (if IsRemoved(last, sourceKeys) then [RemoveChange(last)] else [])
  }

  function KeysOf(columns: seq<Column>): set<string> {
    set i | 0 <= i < |columns| :: Lower(columns[i].name)
  }

  ghost function Comparison(opts: Options, source: seq<Column>, dest: seq<Column>): Changes {
    match SourceChanges(opts, source, ByName(dest))
    case Err(e) => Err(e)
    case Ok(changes) => Ok(changes + Removals(dest, KeysOf(source)))
  }

  method ColumnMap(columns: seq<Column>) returns (byName: map<string, Column>)
    ensures byName == ByName(columns)
  {
    byName := map[];
    for i := 0 to |columns|
      invariant byName == ByName(columns[..i])
    {
      byName := byName[Lower(columns[i].name) := columns[i]];
      assert columns[..i + 1][..i] == columns[..i];
    }
    assert columns[..|columns|] == columns;
  }

  method LowerNames(names: seq<string>) returns (lower: set<string>)
    ensures lower == LowerSet(names)
  {
    lower := {};
    for i := 0 to |names|
      invariant lower == LowerSet(names[..i])
    {
      lower := lower + {Lower(names[i])};
      assert LowerSet(names[..i + 1]) == LowerSet(names[..i]) + {Lower(names[i])};
    }
    assert names[..|names|] == names;
  }

  method SourceKeys(source: seq<Column>) returns (keys: set<string>)
    ensures keys == KeysOf(source)
  {
    keys := {};
    for i := 0 to |source|
      invariant keys == KeysOf(source[..i])
    {
      keys := keys + {Lower(source[i].name)};
      assert KeysOf(source[..i + 1]) == KeysOf(source[..i]) + {Lower(source[i].name)};
    }
    assert source[..|source|] == source;
  }

  /** The comparison as the program runs it: two maps, a growing list of changes, two passes. */
  method Compare(source: seq<Column>, dest: seq<Column>, given: CompareOptions)
    returns (result: Changes)
    ensures result == Comparison(Resolve(given), source, dest)
  {
    var primaryKeys := LowerNames(given.primaryKeys);
    var opts := Options(given.overrides, primaryKeys);
    var destMap := ColumnMap(dest);
    var srcKeys := SourceKeys(source);

    var changes: seq<SchemaChange> := [];
    for i := 0 to |source|
      invariant SourceChanges(opts, source[..i], destMap) == Ok(changes)
    {
      var src := source[i];
      assert source[..i + 1][..i] == source[..i];
      var key := Lower(src.name);
      var found := if key in destMap then Some(destMap[key]) else None;
      var more := ColumnChanges(opts, src, found);
      if more.Err? {
        SourceErrorStays(opts, source, destMap, i + 1);
        return more;
      }
      changes := changes + more.value;
    }
    assert source[..|source|] == source;

    ghost var before := changes;
    for i := 0 to |dest|
      invariant changes == before + Removals(dest[..i], srcKeys)
    {
      assert dest[..i + 1][..i] == dest[..i];
      if IsIngestrColumn(dest[i].name) {
        continue;
      }
      if Lower(dest[i].name) !in srcKeys {
        changes := changes + [RemoveChange(dest[i])];
      }
    }
    assert dest[..|dest|] == dest;
    return Ok(changes);
  }

  /** The first failing column decides the result. */
  lemma {:induction false} SourceErrorStays(
    opts: Options, source: seq<Column>, dest: map<string, Column>, n: nat)
    requires n <= |source| && SourceChanges(opts, source[..n], dest).Err?
    ensures SourceChanges(opts, source, dest) == SourceChanges(opts, source[..n], dest)
  {
    if n == |source| {
      assert source[..n] == source;
    } else {
      assert source[..|source| - 1][..n] == source[..n];
      SourceErrorStays(opts, source[..|source| - 1], dest, n);
    }
  }
}
