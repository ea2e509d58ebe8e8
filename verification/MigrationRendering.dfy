/** When a migration can be rendered, what its statements hold, and what it warns of. */
module MigrationRendering {
  import opened Wrappers
  import opened SchemaTypes
  import opened Widening
  import opened Migration
  import opened MigrationProofs

  // ---------------------------------------------------------------------------
  // When rendering fails
  // ---------------------------------------------------------------------------

  /** The physical type would have to change. */
  predicate Retypes(d: Dialect, change: SchemaChange) {
    && (change.kind.WidenType? || change.kind.OverrideType?)
    && !(change.oldColumn.Some? && d.typeName(change.oldColumn.value) == d.typeName(change.newColumn))
  }

  /** The column would have to allow null: it is relaxed, or removed while required. */
  predicate Loosens(change: SchemaChange) {
    || change.kind.RelaxNullability?
    || (change.kind.RemoveColumn? && change.oldColumn.Some? && !change.oldColumn.value.nullable)
  }

  predicate CannotRetype(d: Dialect, change: SchemaChange) {
    Retypes(d, change) && (!d.supportsAlter || !d.renders(AlterOne(change.columnName, change.newColumn)))
  }

  predicate CannotLoosen(d: Dialect, change: SchemaChange) {
    Loosens(change) && (!d.canRelax || !d.renders(Relax(change.columnName)))
  }

  /** Rendering fails for a change of type or of nullability that the dialect cannot state, and for nothing else. */
  lemma {:induction false} UnsupportedExactly(d: Dialect, change: SchemaChange)
    ensures !Supported(d, change) <==> CannotRetype(d, change) || CannotLoosen(d, change)
    ensures change.kind.AddColumn? ==> Supported(d, change)
  {
  }

  /** The same over a whole comparison. */
  lemma {:induction false} RenderingFailsExactly(d: Dialect, changes: seq<SchemaChange>)
    ensures (exists i :: 0 <= i < |changes| && !Supported(d, changes[i]))
       <==> exists i :: 0 <= i < |changes| && (CannotRetype(d, changes[i]) || CannotLoosen(d, changes[i]))
  {
    forall i | 0 <= i < |changes|
      ensures !Supported(d, changes[i]) <==> CannotRetype(d, changes[i]) || CannotLoosen(d, changes[i])
    {
      UnsupportedExactly(d, changes[i]);
    }
  }

  ghost predicate FailsAt(d: Dialect, changes: seq<SchemaChange>, error: RenderError, i: nat)
    requires i < |changes|
  {
    && (forall j :: 0 <= j < i ==> !CannotRetype(d, changes[j]) && !CannotLoosen(d, changes[j]))
    && (if CannotRetype(d, changes[i]) then error == UnsupportedTypeChange(changes[i].columnName)
        else CannotLoosen(d, changes[i]) && error == UnsupportedRelaxation(changes[i].columnName))
  }

  /** The error is that of the first such change; a change of type comes before one of nullability. */
  lemma {:induction false} FailsAtTheFirst(d: Dialect, changes: seq<SchemaChange>, error: RenderError)
    requires FirstUnsupported(d, changes, error)
    ensures exists i: nat :: i < |changes| && FailsAt(d, changes, error, i)
  {
    var i: nat :| i < |changes| && UnsupportedAt(d, changes, error, i);
    forall j | 0 <= j < i ensures !CannotRetype(d, changes[j]) && !CannotLoosen(d, changes[j]) {
      UnsupportedExactly(d, changes[j]);
    }
    UnsupportedExactly(d, changes[i]);
    assert FailsAt(d, changes, error, i);
  }

  /** Additions alone always render. */
  lemma {:induction false} AdditionsRender(d: Dialect, changes: seq<SchemaChange>)
    requires forall i :: 0 <= i < |changes| ==> changes[i].kind.AddColumn?
    ensures forall i :: 0 <= i < |changes| ==> Supported(d, changes[i])
  {
    forall i | 0 <= i < |changes| ensures Supported(d, changes[i]) { UnsupportedExactly(d, changes[i]); }
  }

  // ---------------------------------------------------------------------------
  // What is rendered
  // ---------------------------------------------------------------------------

  ghost predicate Adds(stmts: seq<Statement>, col: Column) {
    exists s :: s in stmts && (s == AddOne(col) || (s.AddMany? && col in s.columns))
  }

  ghost predicate Alters(stmts: seq<Statement>, col: Column) {
    exists s :: s in stmts
      && ((s.AlterOne? && s.column.(name := s.name) == col) || (s.AlterMany? && col in s.columns))
  }

  ghost predicate Loosened(stmts: seq<Statement>, name: string) { Relax(name) in stmts }

  ghost predicate PlannedAlter(plan: Plan, col: Column) {
    || col in plan.typeChanges
    || exists s :: s in plan.statements && s.AlterOne? && s.column.(name := s.name) == col
  }

  ghost predicate WantsAlter(d: Dialect, change: SchemaChange, col: Column) {
    Retypes(d, change) && col == change.newColumn.(name := change.columnName)
  }

  lemma {:induction false} OneMoreAdd(d: Dialect, plan: Plan, change: SchemaChange, col: Column)
    requires RendersBatches(d)
    ensures var next := PlanChange(d, plan, change);
            (col in next.additions || AddOne(col) in next.statements)
            <==> (col in plan.additions || AddOne(col) in plan.statements)
                 || (change.kind.AddColumn? && col == change.newColumn)
  {
  }

  lemma {:induction false} PlannedAdds(d: Dialect, changes: seq<SchemaChange>, col: Column)
    requires RendersBatches(d)
    ensures var plan := PlanChanges(d, changes);
            (col in plan.additions || AddOne(col) in plan.statements)
            <==> exists i :: 0 <= i < |changes| && changes[i].kind.AddColumn? && changes[i].newColumn == col
  {
    if changes != [] {
      var n := |changes| - 1;
      PlannedAdds(d, changes[..n], col);
      OneMoreAdd(d, PlanChanges(d, changes[..n]), changes[n], col);
      if i :| 0 <= i < |changes| && changes[i].kind.AddColumn? && changes[i].newColumn == col {
        if i < n { assert changes[..n][i] == changes[i]; }
      }
    }
  }

  lemma {:induction false} OneMoreAlter(d: Dialect, plan: Plan, change: SchemaChange, col: Column)
    requires Supported(d, change)
    ensures PlannedAlter(PlanChange(d, plan, change), col) <==>
              PlannedAlter(plan, col) || WantsAlter(d, change, col)
  {
    var next := PlanChange(d, plan, change);
    UnsupportedExactly(d, change);
    forall s | s in plan.statements ensures s in next.statements { }
    if WantsAlter(d, change, col) && !d.canBatchAlter {
      assert AlterOne(change.columnName, change.newColumn) in next.statements;
    }
  }

  lemma {:induction false} PlannedAlters(d: Dialect, changes: seq<SchemaChange>, col: Column)
    requires forall i :: 0 <= i < |changes| ==> Supported(d, changes[i])
    ensures PlannedAlter(PlanChanges(d, changes), col)
       <==> exists i :: 0 <= i < |changes| && WantsAlter(d, changes[i], col)
  {
    if changes != [] {
      var n := |changes| - 1;
      PlannedAlters(d, changes[..n], col);
      OneMoreAlter(d, PlanChanges(d, changes[..n]), changes[n], col);
      if i :| 0 <= i < |changes| && WantsAlter(d, changes[i], col) {
        if i < n { assert changes[..n][i] == changes[i]; }
      }
    }
  }

  lemma {:induction false} OneMoreRelax(d: Dialect, plan: Plan, change: SchemaChange, name: string)
    requires Supported(d, change)
    ensures Relax(name) in PlanChange(d, plan, change).statements <==>
              Relax(name) in plan.statements || (Loosens(change) && change.columnName == name)
  {
  }

  lemma {:induction false} PlannedRelaxes(d: Dialect, changes: seq<SchemaChange>, name: string)
    requires forall i :: 0 <= i < |changes| ==> Supported(d, changes[i])
    ensures Relax(name) in PlanChanges(d, changes).statements
       <==> exists i :: 0 <= i < |changes| && Loosens(changes[i]) && changes[i].columnName == name
  {
    if changes != [] {
      var n := |changes| - 1;
      PlannedRelaxes(d, changes[..n], name);
      OneMoreRelax(d, PlanChanges(d, changes[..n]), changes[n], name);
      if i :| 0 <= i < |changes| && Loosens(changes[i]) && changes[i].columnName == name {
        if i < n { assert changes[..n][i] == changes[i]; }
      }
    }
  }

  /** Statements of one column each, until the batches. */
  ghost predicate NoBatch(stmts: seq<Statement>) {
    forall s :: s in stmts ==> !s.AddMany? && !s.AlterMany?
  }

  lemma {:induction false} PlanHasNoBatch(d: Dialect, changes: seq<SchemaChange>)
    ensures NoBatch(PlanChanges(d, changes).statements)
  {
    if changes != [] { PlanHasNoBatch(d, changes[..|changes| - 1]); }
  }

  lemma {:induction false} BatchesHold(d: Dialect, plan: Plan, stmts: seq<Statement>)
    requires RendersBatches(d) && NoBatch(plan.statements) && stmts == plan.statements + Batches(d, plan)
    ensures forall col :: Adds(stmts, col) <==> col in plan.additions || AddOne(col) in plan.statements
    ensures forall col :: Alters(stmts, col) <==> PlannedAlter(plan, col)
    ensures forall name :: Relax(name) in stmts <==> Relax(name) in plan.statements
  {
    var alters, adds := AlterBatch(plan.typeChanges), AddBatch(plan.additions);
    assert Batches(d, plan) == alters + adds;
    forall s ensures s in stmts <==> s in plan.statements || s in alters || s in adds {}
    if plan.typeChanges != [] { assert AlterMany(plan.typeChanges) in alters; }
    if plan.additions != [] { assert AddMany(plan.additions) in adds; }
  }

  /**
   The statements add exactly the added columns, retype exactly the columns whose physical type
   changes, and relax exactly those that must allow null.
   */
  lemma {:induction false} StatementsExactly(d: Dialect, changes: seq<SchemaChange>, col: Column, name: string)
    requires RendersBatches(d) && forall i :: 0 <= i < |changes| ==> Supported(d, changes[i])
    ensures var stmts := Statements(d, changes);
            && (Adds(stmts, col) <==>
                  exists i :: 0 <= i < |changes| && changes[i].kind.AddColumn? && changes[i].newColumn == col)
            && (Alters(stmts, col) <==> exists i :: 0 <= i < |changes| && WantsAlter(d, changes[i], col))
            && (Loosened(stmts, name) <==>
                  exists i :: 0 <= i < |changes| && Loosens(changes[i]) && changes[i].columnName == name)
  {
    PlanHasNoBatch(d, changes);
    BatchesHold(d, PlanChanges(d, changes), Statements(d, changes));
    PlannedAdds(d, changes, col);
    PlannedAlters(d, changes, col);
    PlannedRelaxes(d, changes, name);
  }

  // ---------------------------------------------------------------------------
  // What is warned of
  // ---------------------------------------------------------------------------

  /** What one change is warned of. */
  predicate Warns(d: Dialect, change: SchemaChange, warning: Warning) {
    match warning
    case TypeChangeSkipped(c) => c == change.columnName && Retypes(d, change) && !d.supportsAlter
    case TypeWidened(c, to) =>
      && c == change.columnName && change.kind.WidenType? && Retypes(d, change) && d.supportsAlter
      && change.oldColumn.Some? && change.oldColumn.value.ty.kind != change.newColumn.ty.kind
      && to == GetWidenedType(change.oldColumn.value.ty.kind, change.newColumn.ty.kind)
      && (to == String || to == JSON)
    case RelaxationSkipped(c) => c == change.columnName && CannotLoosen(d, change)
  }

  lemma {:induction false} OneMoreWarning(d: Dialect, plan: Plan, change: SchemaChange, warning: Warning)
    ensures warning in PlanChange(d, plan, change).warnings <==>
              warning in plan.warnings || Warns(d, change, warning)
  {
  }

  lemma {:induction false} WarnsExactly(d: Dialect, changes: seq<SchemaChange>, warning: Warning)
    ensures warning in PlanChanges(d, changes).warnings
       <==> exists i :: 0 <= i < |changes| && Warns(d, changes[i], warning)
  {
    if changes != [] {
      var n := |changes| - 1;
      WarnsExactly(d, changes[..n], warning);
      OneMoreWarning(d, PlanChanges(d, changes[..n]), changes[n], warning);
      if i :| 0 <= i < |changes| && Warns(d, changes[i], warning) {
        if i < n { assert changes[..n][i] == changes[i]; }
      }
    }
  }
}
