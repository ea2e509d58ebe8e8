/** The predicted schema: the changes of a comparison applied to the destination's columns. */
module EvolutionPlan {
  import opened SchemaTypes

  /** What a change does to the one column it names. */
  datatype Edit = MakeNullable | Replace(column: Column)

  function EditColumn(edit: Edit, col: Column): Column {
    match edit
    case MakeNullable => col.(nullable := true)
    case Replace(column) => column.(name := col.name)
  }

  /** The first column of that name is edited; other columns are left alone. */
  function EditFirst(columns: seq<Column>, name: string, edit: Edit): seq<Column> {
    if columns == [] then []
    else if Lower(columns[0].name) == Lower(name) then [EditColumn(edit, columns[0])] + columns[1..]
    else [columns[0]] + EditFirst(columns[1..], name, edit)
  }

  function EditOf(change: SchemaChange): Edit
    requires !change.kind.AddColumn?
  {
    if change.kind.WidenType? || change.kind.OverrideType? then Replace(change.newColumn)
    else MakeNullable
  }

  function ApplyChange(columns: seq<Column>, change: SchemaChange): seq<Column> {
    if change.kind.AddColumn? then columns + [change.newColumn]
    else EditFirst(columns, change.columnName, EditOf(change))
  }

  function ApplyChanges(columns: seq<Column>, changes: seq<SchemaChange>): seq<Column> {
    if changes == [] then columns
    else
      ApplyChange(ApplyChanges(columns, changes[..|changes| - 1]), changes[|changes| - 1])
  }

  // ---------------------------------------------------------------------------
  // The in-place form
  // ---------------------------------------------------------------------------

  lemma {:induction false} EditFirstAt(columns: seq<Column>, name: string, edit: Edit, i: nat)
    requires i < |columns| && Lower(columns[i].name) == Lower(name)
    requires forall j :: 0 <= j < i ==> Lower(columns[j].name) != Lower(name)
    ensures EditFirst(columns, name, edit) == columns[i := EditColumn(edit, columns[i])]
  {
    if i > 0 { EditFirstAt(columns[1..], name, edit, i - 1); }
  }

  lemma {:induction false} EditFirstMissing(columns: seq<Column>, name: string, edit: Edit)
    requires forall j :: 0 <= j < |columns| ==> Lower(columns[j].name) != Lower(name)
    ensures EditFirst(columns, name, edit) == columns
  {
    if columns != [] { EditFirstMissing(columns[1..], name, edit); }
  }

  method ApplyColumnChange(columns: array<Column>, name: string, edit: Edit) returns (found: bool)
    modifies columns
    ensures columns[..] == EditFirst(old(columns[..]), name, edit)
    ensures found <==> exists i :: 0 <= i < columns.Length && Lower(old(columns[i]).name) == Lower(name)
  {
    ghost var was := columns[..];
    for i := 0 to columns.Length
      invariant columns[..] == was
      invariant forall j :: 0 <= j < i ==> Lower(was[j].name) != Lower(name)
    {
      if Lower(columns[i].name) != Lower(name) {
        continue;
      }
      columns[i] := EditColumn(edit, columns[i]);
      EditFirstAt(was, name, edit, i);
      return true;
    }
    EditFirstMissing(was, name, edit);
    return false;
  }

  method BuildFinalSchema(destColumns: array<Column>, changes: seq<SchemaChange>)
    returns (columns: array<Column>)
    ensures fresh(columns)
    ensures columns[..] == ApplyChanges(destColumns[..], changes)
  {
    columns := Copy(destColumns, 0);
    for n := 0 to |changes|
      invariant fresh(columns)
      invariant columns[..] == ApplyChanges(destColumns[..], changes[..n])
    {
      assert changes[..n + 1][..n] == changes[..n];
      var change := changes[n];
      ghost var was := columns[..];
      if change.kind.AddColumn? {
        var longer := Copy(columns, 1);
        longer[columns.Length] := change.newColumn;
        assert longer[..] == was + [change.newColumn];
        columns := longer;
      } else {
        var _ := ApplyColumnChange(columns, change.columnName, EditOf(change));
      }
    }
    assert changes[..|changes|] == changes;
  }

  /** A fresh copy with room for more columns at the end. */
  method Copy(from: array<Column>, extra: nat) returns (to: array<Column>)
    ensures fresh(to) && to.Length == from.Length + extra
    ensures to[..from.Length] == from[..]
  {
    to := new Column[from.Length + extra](_ => ZERO_COLUMN);
    for i := 0 to from.Length
      invariant to[..i] == from[..i]
    {
      to[i] := from[i];
    }
    assert from[..from.Length] == from[..];
  }

  // ---------------------------------------------------------------------------
  // The edit seen through the map of columns
  // ---------------------------------------------------------------------------

  lemma {:induction false} EditFirstIndex(columns: seq<Column>, name: string, edit: Edit)
    returns (i: nat)
    ensures i <= |columns|
    ensures forall j :: 0 <= j < i ==> Lower(columns[j].name) != Lower(name)
    ensures i == |columns| ==> EditFirst(columns, name, edit) == columns
    ensures i < |columns| ==>
              && Lower(columns[i].name) == Lower(name)
              && EditFirst(columns, name, edit) == columns[i := EditColumn(edit, columns[i])]
  {
    i := 0;
    while i < |columns| && Lower(columns[i].name) != Lower(name)
      invariant i <= |columns|
      invariant forall j :: 0 <= j < i ==> Lower(columns[j].name) != Lower(name)
    {
      i := i + 1;
    }
    if i < |columns| { EditFirstAt(columns, name, edit, i); } else { EditFirstMissing(columns, name, edit); }
  }

  ghost predicate SameNames(a: seq<Column>, b: seq<Column>) {
    |a| == |b| && forall i :: 0 <= i < |a| ==> a[i].name == b[i].name
  }

  lemma {:induction false} EditKeepsNames(columns: seq<Column>, name: string, edit: Edit)
    ensures SameNames(columns, EditFirst(columns, name, edit))
    ensures DistinctNames(columns) ==> DistinctNames(EditFirst(columns, name, edit))
  {
    var i := EditFirstIndex(columns, name, edit);
    var after := EditFirst(columns, name, edit);
    forall a, b | DistinctNames(columns) && 0 <= a < b < |after|
      ensures Lower(after[a].name) != Lower(after[b].name)
    {
      assert after[a].name == columns[a].name && after[b].name == columns[b].name;
    }
  }

  lemma {:induction false} ByNameUpdate(columns: seq<Column>, i: nat, col: Column)
    requires DistinctNames(columns) && i < |columns| && col.name == columns[i].name
    ensures ByName(columns[i := col]) == ByName(columns)[Lower(col.name) := col]
  {
    var last := |columns| - 1;
    var init := columns[..last];
    if i == last {
      assert columns[i := col][..last] == init;
    } else {
      ByNameUpdate(init, i, col);
      assert columns[i := col][..last] == init[i := col];
      assert Lower(columns[last].name) != Lower(col.name);
    }
  }

  lemma {:induction false} ByNameEdit(columns: seq<Column>, name: string, edit: Edit)
    requires DistinctNames(columns)
    ensures var m := ByName(columns);
            var key := Lower(name);
            ByName(EditFirst(columns, name, edit))
            == if key in m then m[key := EditColumn(edit, m[key])] else m
  {
    var i := EditFirstIndex(columns, name, edit);
    ByNameKeys(columns, Lower(name));
    if i < |columns| {
      ByNameAt(columns, i);
      ByNameUpdate(columns, i, EditColumn(edit, columns[i]));
    }
  }

  /** A column that is already nullable is not changed by being made nullable. */
  lemma {:induction false} EditFirstIdempotent(columns: seq<Column>, name: string)
    requires DistinctNames(columns)
    requires Lower(name) in ByName(columns) ==> ByName(columns)[Lower(name)].nullable
    ensures EditFirst(columns, name, MakeNullable) == columns
  {
    var i := EditFirstIndex(columns, name, MakeNullable);
    if i < |columns| { ByNameAt(columns, i); }
  }
}
