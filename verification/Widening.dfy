/** The type widening tables and the merge of decimal shapes. */
module Widening {
  import opened Wrappers
  import opened SchemaTypes

  /** Position of a type in the widening hierarchy; an unknown type has none. */
  function WideningOrder(t: DataType): Option<int> {
    match t
    case Boolean => Some(0)
    case Int8 => Some(1)
    case Int16 => Some(2)
    case Int32 => Some(3)
    case Int64 => Some(4)
    case Float32 => Some(5)
    case Float64 => Some(6)
    case Decimal => Some(7)
    case Date => Some(8)
    case Time => Some(9)
    case Timestamp => Some(10)
    case TimestampTZ => Some(11)
    case Binary => Some(11)
    case UUID => Some(11)
    case Interval => Some(11)
    case Array => Some(11)
    case String => Some(12)
    case JSON => Some(13)
    case Unknown => None
  }

  function WideningPaths(from: DataType): set<DataType> {
    match from
    case Boolean => {String, JSON}
    case Int8 => {Int16, Int32, Int64, Float64, Decimal, String, JSON}
    case Int16 => {Int32, Int64, Float64, Decimal, String, JSON}
    case Int32 => {Int64, Float64, Decimal, String, JSON}
    case Int64 => {Float64, Decimal, String, JSON}
    case Float32 => {Float64, String, JSON}
    case Float64 => {Decimal, String, JSON}
    case Decimal => {String, JSON}
    case Date => {Timestamp, TimestampTZ, String, JSON}
    case Time => {String, JSON}
    case Timestamp => {TimestampTZ, String, JSON}
    case TimestampTZ => {String, JSON}
    case String => {JSON}
    case Binary => {String, JSON}
    case UUID => {String, JSON}
    case Interval => {String, JSON}
    case Array => {JSON}
    case JSON => {}
    case Unknown => {}
  }

  predicate CanWiden(from: DataType, to: DataType) {
    from == to || to in WideningPaths(from)
  }

  /** The common type of a source and a destination type. */
  function GetWidenedType(src: DataType, dest: DataType): DataType {
    if src == dest then src
    else if WideningOrder(src).None? || WideningOrder(dest).None? then JSON
    else if WideningOrder(src).value > WideningOrder(dest).value && CanWiden(dest, src) then src
    else if WideningOrder(src).value <= WideningOrder(dest).value && CanWiden(src, dest) then dest
    else if CanWiden(src, String) && CanWiden(dest, String) then String
    else JSON
  }

  const MAX_PRECISION := 76
  const DEFAULT_PRECISION := 38

  function Max(a: int, b: int): int { if a > b then a else b }

  /** A decimal shape. */
  datatype Shape = Shape(precision: int, scale: int)
  {
    function IntDigits(): int { precision - scale }
  }

  function MergeDecimalPrecision(src: Shape, dest: Shape): Shape {
    var widest := Max(src.precision, dest.precision);
    var precision := if widest == 0 then DEFAULT_PRECISION else widest;
    var scale := Max(src.scale, dest.scale);
    var intDigits := Max(Max(precision - scale, src.IntDigits()), dest.IntDigits());
    Shape(intDigits + scale, scale)
  }

  function MergeDecimalPrecisionChecked(src: Shape, dest: Shape): Result<Shape, int> {
    var merged := MergeDecimalPrecision(src, dest);
    if merged.precision > MAX_PRECISION then Err(merged.precision) else Ok(merged)
  }

  /** Of two specified shapes, the merge keeps the larger integer part and the larger scale. */
  lemma {:induction false} MergeKeepsBothParts(a: Shape, b: Shape)
    requires a.precision > 0 && b.precision > 0
    ensures MergeDecimalPrecision(a, b).scale == Max(a.scale, b.scale)
    ensures MergeDecimalPrecision(a, b).IntDigits() == Max(a.IntDigits(), b.IntDigits())
    ensures MergeDecimalPrecision(a, b).precision >= Max(a.precision, b.precision)
  {
  }

  /** What has been merged in stays merged in. */
  lemma {:induction false} MergeAbsorbs(a: Shape, b: Shape)
    requires a.precision > 0 && b.precision > 0
    ensures MergeDecimalPrecision(a, MergeDecimalPrecision(a, b)) == MergeDecimalPrecision(a, b)
  {
    MergeKeepsBothParts(a, b);
    MergeKeepsBothParts(a, MergeDecimalPrecision(a, b));
  }

  // ---------------------------------------------------------------------------
  // The widened type: an upper bound that absorbs
  // ---------------------------------------------------------------------------

  ghost function Rank(t: DataType): int {
    if WideningOrder(t).None? then -1 else WideningOrder(t).value
  }

  /** Widening with the same source type again changes nothing. */
  lemma {:induction false} WidenedAbsorbs(src: DataType, dest: DataType)
    ensures GetWidenedType(src, GetWidenedType(src, dest)) == GetWidenedType(src, dest)
  {
    TextAbsorbs(src);
  }

  lemma {:induction false} TextAbsorbs(src: DataType)
    ensures GetWidenedType(src, JSON) == JSON
    ensures CanWiden(src, String) ==> GetWidenedType(src, String) == String
  {
  }

  /** A change of type climbs; no change of type goes down. */
  lemma {:induction false} WidenedClimbs(src: DataType, dest: DataType)
    ensures GetWidenedType(src, dest) == dest || Rank(dest) < Rank(GetWidenedType(src, dest)) <= 13
  {
  }

  /** Every column of the destination type, and of the source type, can be read as the result. */
  lemma {:induction false} WidenedIsUpperBound(src: DataType, dest: DataType)
    requires src != Unknown && dest != Unknown
    ensures CanWiden(src, GetWidenedType(src, dest)) && CanWiden(dest, GetWidenedType(src, dest))
  {
  }

  predicate IsInteger(t: DataType) { t.Int8? || t.Int16? || t.Int32? || t.Int64? }
}
