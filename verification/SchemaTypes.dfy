/** Logical columns and the changes between two table schemas. */
module SchemaTypes {
  import opened Wrappers

  datatype DataType =
    | Unknown | Boolean | Int8 | Int16 | Int32 | Int64 | Float32 | Float64 | Decimal
    | String | Binary | Date | Time | Timestamp | TimestampTZ | Interval | JSON | UUID | Array

  /** The type of a column: its kind, its size, and for an array the kind of its elements. */
  datatype ColumnType = ColumnType(
    kind: DataType, precision: int, scale: int, maxLength: int, element: DataType)

  datatype Column = Column(
    name: string, ty: ColumnType, nullable: bool, isPrimaryKey: bool, isUnsigned: bool)

  const ZERO_COLUMN := Column("", ColumnType(Unknown, 0, 0, 0, Unknown), false, false, false)

  // Column names are compared without regard to case. Names are taken to be ASCII.

  function LowerChar(c: char): char {
    if 'A' <= c <= 'Z' then (c as int + 32) as char else c
  }

  function Lower(name: string): string {
    seq(|name|, i requires 0 <= i < |name| => LowerChar(name[i]))
  }

  /** Internal bookkeeping columns, which evolution leaves alone. */
  predicate IsIngestrColumn(name: string) {
    var l := Lower(name);
    "_dlt_" <= l || l == "_ingestr_loaded_at" || l == "_ingestr_run_id"
  }

  datatype ChangeType = AddColumn | WidenType | OverrideType | RemoveColumn | RelaxNullability

  datatype SchemaChange = SchemaChange(
    kind: ChangeType, columnName: string, oldColumn: Option<Column>, newColumn: Column)

  // ---------------------------------------------------------------------------
  // A list of columns read as a map from lower-case name to column
  // ---------------------------------------------------------------------------

  ghost predicate DistinctNames(columns: seq<Column>) {
    forall i, j :: 0 <= i < j < |columns| ==> Lower(columns[i].name) != Lower(columns[j].name)
  }

  /** The map a loop over the columns builds; on a clash the later column wins. */
  ghost function ByName(columns: seq<Column>): map<string, Column> {
    if columns == [] then map[]
    else
      var last := columns[|columns| - 1];
      ByName(columns[..|columns| - 1])[Lower(last.name) := last]
  }

  lemma {:induction false} ByNameKeys(columns: seq<Column>, key: string)
    ensures key in ByName(columns) <==> exists i :: 0 <= i < |columns| && Lower(columns[i].name) == key
  {
    if columns != [] {
      var init := columns[..|columns| - 1];
      ByNameKeys(init, key);
      if i :| 0 <= i < |init| && Lower(init[i].name) == key { assert columns[i] == init[i]; }
      if i :| 0 <= i < |columns| && Lower(columns[i].name) == key {
        if i < |init| { assert init[i] == columns[i]; }
      }
    }
  }

  lemma {:induction false} ByNameAt(columns: seq<Column>, i: nat)
    requires DistinctNames(columns) && i < |columns|
    ensures Lower(columns[i].name) in ByName(columns)
    ensures ByName(columns)[Lower(columns[i].name)] == columns[i]
  {
    var init := columns[..|columns| - 1];
    if i < |init| { ByNameAt(init, i); assert init[i] == columns[i]; }
  }

  /** A found column carries its key. */
  lemma {:induction false} ByNameHasName(columns: seq<Column>, key: string)
    requires key in ByName(columns)
    ensures Lower(ByName(columns)[key].name) == key
  {
    if columns != [] {
      var last := columns[|columns| - 1];
      if key != Lower(last.name) { ByNameHasName(columns[..|columns| - 1], key); }
    }
  }
}
