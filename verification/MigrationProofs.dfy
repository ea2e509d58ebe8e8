/**
 What executing a migration does: the physical table becomes the image of the predicted schema,
 and batching makes no difference.
 */
module MigrationProofs {
  import opened SchemaTypes
  import opened Migration
  import opened Sequences

  datatype PhysicalColumn = PhysicalColumn(name: string, typeName: string, nullable: bool)

  type PhysicalTable = seq<PhysicalColumn>

  function Image(d: Dialect, col: Column): PhysicalColumn {
    PhysicalColumn(col.name, d.typeName(col), col.nullable)
  }

  function Physical(d: Dialect, columns: seq<Column>): PhysicalTable {
    seq(|columns|, i requires 0 <= i < |columns| => Image(d, columns[i]))
  }

  // ---------------------------------------------------------------------------
  // Executing statements
  // ---------------------------------------------------------------------------

  function Altered(d: Dialect, col: Column, to: PhysicalColumn): PhysicalColumn {
    to.(typeName := d.typeName(col),
        nullable := if d.statesNullability then col.nullable else to.nullable)
  }

  function AlterTable(d: Dialect, table: PhysicalTable, name: string, col: Column): PhysicalTable {
    seq(|table|, i requires 0 <= i < |table| =>
      if table[i].name == name then Altered(d, col, table[i]) else table[i])
  }

  function RelaxTable(table: PhysicalTable, name: string): PhysicalTable {
    seq(|table|, i requires 0 <= i < |table| =>
      if table[i].name == name then table[i].(nullable := true) else table[i])
  }

  /** A dialect that does not state nullability adds nullable columns. */
  function AddTo(d: Dialect, table: PhysicalTable, col: Column): PhysicalTable {
    table + [Image(d, col).(nullable := col.nullable || !d.statesNullability)]
  }

  function AddAll(d: Dialect, table: PhysicalTable, columns: seq<Column>): PhysicalTable {
    if columns == [] then table
    else AddTo(d, AddAll(d, table, columns[..|columns| - 1]), columns[|columns| - 1])
  }

  function AlterAll(d: Dialect, table: PhysicalTable, columns: seq<Column>): PhysicalTable {
    if columns == [] then table
    else
      var last := columns[|columns| - 1];
      AlterTable(d, AlterAll(d, table, columns[..|columns| - 1]), last.name, last)
  }

  function Execute(d: Dialect, table: PhysicalTable, stmt: Statement): PhysicalTable {
    match stmt
    case AddOne(column) => AddTo(d, table, column)
    case AddMany(columns) => AddAll(d, table, columns)
    case AlterOne(name, column) => AlterTable(d, table, name, column)
    case AlterMany(columns) => AlterAll(d, table, columns)
    case Relax(name) => RelaxTable(table, name)
  }

  function ExecuteAll(d: Dialect, table: PhysicalTable, stmts: seq<Statement>): PhysicalTable {
    if stmts == [] then table
    else Execute(d, ExecuteAll(d, table, stmts[..|stmts| - 1]), stmts[|stmts| - 1])
  }

  // ---------------------------------------------------------------------------
  // Reference: one change at a time, in the order of the comparison
  // ---------------------------------------------------------------------------

  function Effect(d: Dialect, table: PhysicalTable, change: SchemaChange): PhysicalTable {
    if change.kind.AddColumn? then AddTo(d, table, change.newColumn)
    else if NeedsRelaxation(change) then RelaxTable(table, change.columnName)
    else if IsTypeChange(change.kind) && !SameDestinationType(d, change) then
      AlterTable(d, table, change.columnName, change.newColumn.(name := change.columnName))
    else table
  }

  function Effects(d: Dialect, table: PhysicalTable, changes: seq<SchemaChange>): PhysicalTable {
    if changes == [] then table
    else Effect(d, Effects(d, table, changes[..|changes| - 1]), changes[|changes| - 1])
  }

  /** What is assumed of a dialect: the name of a type does not depend on nullability. */
  ghost predicate TypeNamesStable(d: Dialect) {
    forall a, b {:trigger SameButNullable(a, b)} :: SameButNullable(a, b) ==> d.typeName(a) == d.typeName(b)
  }

  ghost predicate SameButNullable(a: Column, b: Column) { a == b.(nullable := a.nullable) }

  /** An addition comes out as SQL, and so does every batch that is not empty. */
  ghost predicate RendersBatches(d: Dialect) {
    && (forall col :: d.renders(AddOne(col)))
    && (forall cols :: cols != [] ==> d.renders(AddMany(cols)))
    && (forall cols :: cols != [] ==> d.renders(AlterMany(cols)))
  }

  // ---------------------------------------------------------------------------
  // Batching is invisible
  // ---------------------------------------------------------------------------

  ghost predicate HasName(columns: seq<Column>, name: string) {
    exists i :: 0 <= i < |columns| && columns[i].name == name
  }

  /** Existing columns are edited, other columns are added, and relaxed before being retyped. */
  ghost predicate Orderly(changes: seq<SchemaChange>) {
    && (forall i, j :: 0 <= i < |changes| && 0 <= j < |changes|
          && changes[i].kind.AddColumn? && !changes[j].kind.AddColumn?
          ==> changes[i].newColumn.name != changes[j].columnName)
    && (forall i, j :: 0 <= i < j < |changes|
          && IsTypeChange(changes[i].kind) && NeedsRelaxation(changes[j])
          ==> changes[i].columnName != changes[j].columnName)
  }

  function Finish(d: Dialect, table: PhysicalTable, plan: Plan): PhysicalTable {
    AddAll(d, AlterAll(d, ExecuteAll(d, table, plan.statements), plan.typeChanges), plan.additions)
  }

  lemma {:induction false} RelaxPastAlters(d: Dialect, table: PhysicalTable, columns: seq<Column>, name: string)
    requires !HasName(columns, name)
    ensures AlterAll(d, RelaxTable(table, name), columns) == RelaxTable(AlterAll(d, table, columns), name)
  {
    if columns != [] {
      var init := columns[..|columns| - 1];
      assert !HasName(init, name) && columns[|columns| - 1].name != name;
      RelaxPastAlters(d, table, init, name);
    }
  }

  lemma {:induction false} RelaxPastAdds(d: Dialect, table: PhysicalTable, columns: seq<Column>, name: string)
    requires !HasName(columns, name)
    ensures AddAll(d, RelaxTable(table, name), columns) == RelaxTable(AddAll(d, table, columns), name)
  {
    if columns != [] {
      var init := columns[..|columns| - 1];
      assert !HasName(init, name) && columns[|columns| - 1].name != name;
      RelaxPastAdds(d, table, init, name);
    }
  }

  lemma {:induction false} AlterPastAdds(
    d: Dialect, table: PhysicalTable, columns: seq<Column>, name: string, col: Column)
    requires !HasName(columns, name)
    ensures AddAll(d, AlterTable(d, table, name, col), columns)
         == AlterTable(d, AddAll(d, table, columns), name, col)
  {
    if columns != [] {
      var init := columns[..|columns| - 1];
      assert !HasName(init, name) && columns[|columns| - 1].name != name;
      AlterPastAdds(d, table, init, name, col);
    }
  }

  lemma {:induction false} AddPastAlters(d: Dialect, table: PhysicalTable, columns: seq<Column>, col: Column)
    requires !HasName(columns, col.name)
    ensures AlterAll(d, AddTo(d, table, col), columns) == AddTo(d, AlterAll(d, table, columns), col)
  {
    if columns != [] {
      var init := columns[..|columns| - 1];
      assert !HasName(init, col.name) && columns[|columns| - 1].name != col.name;
      AddPastAlters(d, table, init, col);
    }
  }

  /** A change is held back for at most one batch. */
  lemma {:induction false} PlanGrows(d: Dialect, plan: Plan, change: SchemaChange)
    ensures var next := PlanChange(d, plan, change);
            && (next.additions == plan.additions
                || (change.kind.AddColumn? && next.additions == plan.additions + [change.newColumn]))
            && (next.typeChanges == plan.typeChanges
                || (IsTypeChange(change.kind)
                    && next.typeChanges == plan.typeChanges + [change.newColumn.(name := change.columnName)]))
  {
  }

  ghost predicate IsAddition(changes: seq<SchemaChange>, col: Column) {
    exists i :: 0 <= i < |changes| && changes[i].kind.AddColumn? && col == changes[i].newColumn
  }

  ghost predicate IsRetyping(changes: seq<SchemaChange>, name: string) {
    exists i :: 0 <= i < |changes| && IsTypeChange(changes[i].kind) && name == changes[i].columnName
  }

  lemma {:induction false} KindsExtend(changes: seq<SchemaChange>, n: nat)
    requires n <= |changes|
    ensures forall col :: IsAddition(changes[..n], col) ==> IsAddition(changes, col)
    ensures forall name :: IsRetyping(changes[..n], name) ==> IsRetyping(changes, name)
  {
    forall col | IsAddition(changes[..n], col) ensures IsAddition(changes, col) {
      var i :| 0 <= i < n && changes[..n][i].kind.AddColumn? && col == changes[..n][i].newColumn;
      assert changes[i] == changes[..n][i];
    }
    forall name | IsRetyping(changes[..n], name) ensures IsRetyping(changes, name) {
      var i :| 0 <= i < n && IsTypeChange(changes[..n][i].kind) && name == changes[..n][i].columnName;
      assert changes[i] == changes[..n][i];
    }
  }

  /** Where the columns held back for a batch come from. */
  lemma {:induction false} PlanNames(d: Dialect, changes: seq<SchemaChange>)
    ensures forall col :: col in PlanChanges(d, changes).additions ==> IsAddition(changes, col)
    ensures forall col :: col in PlanChanges(d, changes).typeChanges ==> IsRetyping(changes, col.name)
  {
    if changes != [] {
      var n := |changes| - 1;
      PlanNames(d, changes[..n]);
      KindsExtend(changes, n);
      var before, last := PlanChanges(d, changes[..n]), changes[n];
      PlanGrows(d, before, last);
      assert PlanChanges(d, changes) == PlanChange(d, before, last);
      assert last.kind.AddColumn? ==> IsAddition(changes, last.newColumn);
      assert IsTypeChange(last.kind) ==> IsRetyping(changes, last.columnName);
    }
  }

  lemma {:induction false} OrderlyPrefix(changes: seq<SchemaChange>, n: nat)
    requires Orderly(changes) && n <= |changes|
    ensures Orderly(changes[..n])
  {
  }

  lemma {:induction false} ExecuteAppend(d: Dialect, table: PhysicalTable, stmts: seq<Statement>, stmt: Statement)
    ensures ExecuteAll(d, table, stmts + [stmt]) == Execute(d, ExecuteAll(d, table, stmts), stmt)
  {
    assert (stmts + [stmt])[..|stmts|] == stmts;
  }

  function AlterBatch(columns: seq<Column>): seq<Statement> {
    if columns != [] then [AlterMany(columns)] else []
  }

  function AddBatch(columns: seq<Column>): seq<Statement> {
    if columns != [] then [AddMany(columns)] else []
  }

  lemma {:induction false} AlterBatchLast(
    d: Dialect, table: PhysicalTable, stmts: seq<Statement>, columns: seq<Column>)
    ensures ExecuteAll(d, table, stmts + AlterBatch(columns)) == AlterAll(d, ExecuteAll(d, table, stmts), columns)
  {
    if columns != [] {
      ExecuteAppend(d, table, stmts, AlterMany(columns));
    } else {
      assert stmts + AlterBatch(columns) == stmts;
    }
  }

  lemma {:induction false} AddBatchLast(
    d: Dialect, table: PhysicalTable, stmts: seq<Statement>, columns: seq<Column>)
    ensures ExecuteAll(d, table, stmts + AddBatch(columns)) == AddAll(d, ExecuteAll(d, table, stmts), columns)
  {
    if columns != [] {
      ExecuteAppend(d, table, stmts, AddMany(columns));
    } else {
      assert stmts + AddBatch(columns) == stmts;
    }
  }

  lemma {:induction false} BatchesFinish(d: Dialect, table: PhysicalTable, changes: seq<SchemaChange>)
    requires RendersBatches(d)
    ensures ExecuteAll(d, table, Statements(d, changes)) == Finish(d, table, PlanChanges(d, changes))
  {
    var plan := PlanChanges(d, changes);
    var alters, adds := AlterBatch(plan.typeChanges), AddBatch(plan.additions);
    assert Batches(d, plan) == alters + adds;
    Regroup(plan.statements, alters, adds);
    AlterBatchLast(d, table, plan.statements, plan.typeChanges);
    AddBatchLast(d, table, plan.statements + alters, plan.additions);
  }

  lemma {:induction false} AddAllAppend(d: Dialect, table: PhysicalTable, columns: seq<Column>, col: Column)
    ensures AddAll(d, table, columns + [col]) == AddTo(d, AddAll(d, table, columns), col)
  {
    assert (columns + [col])[..|columns|] == columns;
  }

  lemma {:induction false} AlterAllAppend(d: Dialect, table: PhysicalTable, columns: seq<Column>, col: Column)
    ensures AlterAll(d, table, columns + [col]) == AlterTable(d, AlterAll(d, table, columns), col.name, col)
  {
    assert (columns + [col])[..|columns|] == columns;
  }

  // One more planned change has the same effect whether it is held back or not.

  lemma {:induction false} AdditionStep(d: Dialect, table: PhysicalTable, plan: Plan, change: SchemaChange)
    requires RendersBatches(d) && change.kind.AddColumn?
    requires !HasName(plan.typeChanges, change.newColumn.name)
    requires !d.canBatchAdd ==> plan.additions == []
    ensures Finish(d, table, PlanChange(d, plan, change)) == AddTo(d, Finish(d, table, plan), change.newColumn)
  {
    var t := ExecuteAll(d, table, plan.statements);
    if d.canBatchAdd {
      AddAllAppend(d, AlterAll(d, t, plan.typeChanges), plan.additions, change.newColumn);
    } else {
      ExecuteAppend(d, table, plan.statements, AddOne(change.newColumn));
      AddPastAlters(d, t, plan.typeChanges, change.newColumn);
    }
  }

  lemma {:induction false} RelaxationStep(d: Dialect, table: PhysicalTable, plan: Plan, name: string)
    requires CanRelax(d, name) && !HasName(plan.typeChanges, name) && !HasName(plan.additions, name)
    ensures Finish(d, table, PlanRelaxation(d, plan, name)) == RelaxTable(Finish(d, table, plan), name)
  {
    var t := ExecuteAll(d, table, plan.statements);
    ExecuteAppend(d, table, plan.statements, Relax(name));
    RelaxPastAlters(d, t, plan.typeChanges, name);
    RelaxPastAdds(d, AlterAll(d, t, plan.typeChanges), plan.additions, name);
  }

  lemma {:induction false} RetypingStep(d: Dialect, table: PhysicalTable, plan: Plan, change: SchemaChange)
    requires IsTypeChange(change.kind) && !SameDestinationType(d, change) && Supported(d, change)
    requires !HasName(plan.additions, change.columnName) && (!d.canBatchAlter ==> plan.typeChanges == [])
    requires change.newColumn.name == change.columnName
    ensures Finish(d, table, PlanTypeChange(d, plan, change))
         == AlterTable(d, Finish(d, table, plan), change.columnName, change.newColumn)
  {
    var t := ExecuteAll(d, table, plan.statements);
    var col := change.newColumn;
    assert col.(name := change.columnName) == col;
    if d.canBatchAlter {
      AlterAllAppend(d, t, plan.typeChanges, col);
    } else {
      ExecuteAppend(d, table, plan.statements, AlterOne(change.columnName, col));
    }
    AlterPastAdds(d, AlterAll(d, t, plan.typeChanges), plan.additions, change.columnName, col);
  }

  lemma {:induction false} PlanStep(d: Dialect, table: PhysicalTable, plan: Plan, change: SchemaChange)
    requires RendersBatches(d) && Supported(d, change)
    requires !change.kind.AddColumn? ==> !HasName(plan.additions, change.columnName)
    requires change.kind.AddColumn? ==> !HasName(plan.typeChanges, change.newColumn.name)
    requires NeedsRelaxation(change) ==> !HasName(plan.typeChanges, change.columnName)
    requires !d.canBatchAlter ==> plan.typeChanges == []
    requires !d.canBatchAdd ==> plan.additions == []
    requires IsTypeChange(change.kind) ==> change.newColumn.name == change.columnName
    ensures Finish(d, table, PlanChange(d, plan, change)) == Effect(d, Finish(d, table, plan), change)
  {
    if change.kind.AddColumn? {
      AdditionStep(d, table, plan, change);
    } else if NeedsRelaxation(change) {
      RelaxationStep(d, table, plan, change.columnName);
    } else if IsTypeChange(change.kind) && !SameDestinationType(d, change) {
      assert change.newColumn.(name := change.columnName) == change.newColumn;
      RetypingStep(d, table, plan, change);
    }
  }

  lemma {:induction false} PlanBatches(d: Dialect, changes: seq<SchemaChange>)
    ensures !d.canBatchAlter ==> PlanChanges(d, changes).typeChanges == []
    ensures !d.canBatchAdd ==> PlanChanges(d, changes).additions == []
  {
    if changes != [] { PlanBatches(d, changes[..|changes| - 1]); }
  }

  /** What is held back names no column that a later change of the other kind names. */
  lemma {:induction false} HeldBackApart(d: Dialect, changes: seq<SchemaChange>, n: nat)
    requires Orderly(changes) && n < |changes|
    ensures var plan, change := PlanChanges(d, changes[..n]), changes[n];
            && (!change.kind.AddColumn? ==> !HasName(plan.additions, change.columnName))
            && (change.kind.AddColumn? ==> !HasName(plan.typeChanges, change.newColumn.name))
            && (NeedsRelaxation(change) ==> !HasName(plan.typeChanges, change.columnName))
  {
    PlanNames(d, changes[..n]);
    var plan, change := PlanChanges(d, changes[..n]), changes[n];
    forall k | 0 <= k < |plan.additions| && !change.kind.AddColumn?
      ensures plan.additions[k].name != change.columnName
    {
      assert plan.additions[k] in plan.additions;
    }
    forall k | 0 <= k < |plan.typeChanges|
      ensures change.kind.AddColumn? ==> plan.typeChanges[k].name != change.newColumn.name
      ensures NeedsRelaxation(change) ==> plan.typeChanges[k].name != change.columnName
    {
      assert plan.typeChanges[k] in plan.typeChanges;
    }
  }

  lemma {:induction false} FinishIsEffects(d: Dialect, table: PhysicalTable, changes: seq<SchemaChange>)
    requires RendersBatches(d) && Orderly(changes)
    requires forall i :: 0 <= i < |changes| ==> Supported(d, changes[i])
    requires forall i :: 0 <= i < |changes| ==>
               IsTypeChange(changes[i].kind) ==> changes[i].newColumn.name == changes[i].columnName
    ensures Finish(d, table, PlanChanges(d, changes)) == Effects(d, table, changes)
  {
    if changes != [] {
      var n := |changes| - 1;
      var init, last := changes[..n], changes[n];
      OrderlyPrefix(changes, n);
      FinishIsEffects(d, table, init);
      HeldBackApart(d, changes, n);
      PlanBatches(d, init);
      PlanStep(d, table, PlanChanges(d, init), last);
    }
  }

  /**
   Executing the rendered statements has the effect of the changes taken one at a time, in
   their own order, for dialects of every batching capability.
   */
  lemma {:induction false} BatchingIsInvisible(d: Dialect, table: PhysicalTable, changes: seq<SchemaChange>)
    requires RendersBatches(d) && Orderly(changes)
    requires forall i :: 0 <= i < |changes| ==> Supported(d, changes[i])
    requires forall i :: 0 <= i < |changes| ==>
               IsTypeChange(changes[i].kind) ==> changes[i].newColumn.name == changes[i].columnName
    ensures ExecuteAll(d, table, Statements(d, changes)) == Effects(d, table, changes)
  {
    BatchesFinish(d, table, changes);
    FinishIsEffects(d, table, changes);
  }
}
