/**
 Compiling a comparison to DDL. A statement is kept abstract: what matters is what executing it
 does to the physical table.
 */
module Migration {
  import opened Wrappers
  import opened SchemaTypes
  import opened Widening

  datatype Statement =
    | AddOne(column: Column)
    | AddMany(columns: seq<Column>)
    | AlterOne(name: string, column: Column)
    | AlterMany(columns: seq<Column>)
    | Relax(name: string)

  /**
   A database dialect. `renders` is false for a statement whose SQL comes out empty. Some
   dialects restate NULL or NOT NULL whenever they add or alter a column; for the others the
   statement speaks of the type alone.
   */
  datatype Dialect = Dialect(
    typeName: Column -> string, renders: Statement -> bool, supportsAlter: bool,
    canBatchAdd: bool, canBatchAlter: bool, canRelax: bool, statesNullability: bool)

  datatype Warning =
    | TypeChangeSkipped(column: string)
    | TypeWidened(column: string, to: DataType)
    | RelaxationSkipped(column: string)

  predicate IsTypeChange(kind: ChangeType) { kind.WidenType? || kind.OverrideType? }

  predicate NeedsRelaxation(change: SchemaChange) {
    || change.kind.RelaxNullability?
    || (change.kind.RemoveColumn? && change.oldColumn.Some? && !change.oldColumn.value.nullable)
  }

  predicate SameDestinationType(d: Dialect, change: SchemaChange) {
    change.oldColumn.Some? && d.typeName(change.oldColumn.value) == d.typeName(change.newColumn)
  }

  predicate CanRelax(d: Dialect, name: string) { d.canRelax && d.renders(Relax(name)) }

  /** The validation pass: no statement is produced unless every change passes it. */
  predicate Supported(d: Dialect, change: SchemaChange) {
    && (IsTypeChange(change.kind) && !SameDestinationType(d, change) ==>
          d.supportsAlter && d.renders(AlterOne(change.columnName, change.newColumn)))
    && (NeedsRelaxation(change) ==> CanRelax(d, change.columnName))
  }

  // ---------------------------------------------------------------------------
  // The statements
  // ---------------------------------------------------------------------------

  /** Statements so far, with the type changes and additions held back for a batch. */
  datatype Plan = Plan(
    statements: seq<Statement>, typeChanges: seq<Column>, additions: seq<Column>,
    warnings: seq<Warning>)

  function Emit(d: Dialect, plan: Plan, stmt: Statement): Plan {
    if d.renders(stmt) then plan.(statements := plan.statements + [stmt]) else plan
  }

  function Warn(plan: Plan, warning: Warning): Plan { plan.(warnings := plan.warnings + [warning]) }

  function PlanRelaxation(d: Dialect, plan: Plan, name: string): Plan {
    if CanRelax(d, name) then plan.(statements := plan.statements + [Relax(name)])
    else Warn(plan, RelaxationSkipped(name))
  }

  /** A widening to text or JSON, or between kinds with no common path, is worth a warning. */
  predicate IsLossyWidening(change: SchemaChange) {
    && change.kind.WidenType? && change.oldColumn.Some?
    && change.oldColumn.value.ty.kind != change.newColumn.ty.kind
    && GetWidenedType(change.oldColumn.value.ty.kind, change.newColumn.ty.kind) in {String, JSON}
  }

  function PlanTypeChange(d: Dialect, plan: Plan, change: SchemaChange): Plan {
    if SameDestinationType(d, change) then plan
    else if !d.supportsAlter then Warn(plan, TypeChangeSkipped(change.columnName))
    else
      var planned :=
        if d.canBatchAlter then
          plan.(typeChanges := plan.typeChanges + [change.newColumn.(name := change.columnName)])
        else Emit(d, plan, AlterOne(change.columnName, change.newColumn));
      if IsLossyWidening(change) then
        Warn(planned, TypeWidened(change.columnName,
               GetWidenedType(change.oldColumn.value.ty.kind, change.newColumn.ty.kind)))
      else planned
  }

  function PlanChange(d: Dialect, plan: Plan, change: SchemaChange): Plan {
    match change.kind
    case AddColumn =>
      if d.canBatchAdd then plan.(additions := plan.additions + [change.newColumn])
      else Emit(d, plan, AddOne(change.newColumn))
    case RelaxNullability => PlanRelaxation(d, plan, change.columnName)
    case RemoveColumn =>
      if NeedsRelaxation(change) then PlanRelaxation(d, plan, change.columnName) else plan
    case _ => PlanTypeChange(d, plan, change)
  }

  function PlanChanges(d: Dialect, changes: seq<SchemaChange>): Plan {
    if changes == [] then Plan([], [], [], [])
    else PlanChange(d, PlanChanges(d, changes[..|changes| - 1]), changes[|changes| - 1])
  }

  /** The batches go last: type changes first, then additions. */
  function Batches(d: Dialect, plan: Plan): seq<Statement> {
    (if plan.typeChanges != [] && d.renders(AlterMany(plan.typeChanges))
     then [AlterMany(plan.typeChanges)] else [])
    + (if plan.additions != [] && d.renders(AddMany(plan.additions))
       then [AddMany(plan.additions)] else [])
  }

  function Statements(d: Dialect, changes: seq<SchemaChange>): seq<Statement> {
    var plan := PlanChanges(d, changes);
    plan.statements + Batches(d, plan)
  }

  method AppendNullabilityRelaxation(
    d: Dialect, name: string, statements: seq<Statement>, warnings: seq<Warning>)
    returns (statements': seq<Statement>, warnings': seq<Warning>)
    ensures forall t, a :: PlanRelaxation(d, Plan(statements, t, a, warnings), name)
                        == Plan(statements', t, a, warnings')
  {
    statements', warnings' := statements, warnings;
    if d.canRelax {
      if d.renders(Relax(name)) {
        statements' := statements + [Relax(name)];
        return;
      }
    }
    warnings' := warnings + [RelaxationSkipped(name)];
  }

  method BuildMigration(d: Dialect, changes: seq<SchemaChange>)
    returns (statements: seq<Statement>, warnings: seq<Warning>)
    ensures statements == Statements(d, changes)
    ensures warnings == PlanChanges(d, changes).warnings
  {
    statements, warnings := [], [];
    var addColumns: seq<Column> := [];
    var typeChangeColumns: seq<Column> := [];
    for i := 0 to |changes|
      invariant PlanChanges(d, changes[..i]) == Plan(statements, typeChangeColumns, addColumns, warnings)
      invariant !d.canBatchAdd ==> addColumns == []
      invariant !d.canBatchAlter ==> typeChangeColumns == []
    {
      assert changes[..i + 1][..i] == changes[..i];
      var change := changes[i];
      ghost var before := Plan(statements, typeChangeColumns, addColumns, warnings);
      assert PlanChanges(d, changes[..i + 1]) == PlanChange(d, before, change);
      if change.kind.AddColumn? {
        if d.canBatchAdd {
          addColumns := addColumns + [change.newColumn];
        } else if d.renders(AddOne(change.newColumn)) {
          statements := statements + [AddOne(change.newColumn)];
        }
      } else if IsTypeChange(change.kind) {
        if SameDestinationType(d, change) {
          continue;
        }
        if !d.supportsAlter {
          warnings := warnings + [TypeChangeSkipped(change.columnName)];
          continue;
        }
        if d.canBatchAlter {
          typeChangeColumns := typeChangeColumns + [change.newColumn.(name := change.columnName)];
        } else if d.renders(AlterOne(change.columnName, change.newColumn)) {
          statements := statements + [AlterOne(change.columnName, change.newColumn)];
        }
        if IsLossyWidening(change) {
          warnings := warnings + [TypeWidened(change.columnName,
            GetWidenedType(change.oldColumn.value.ty.kind, change.newColumn.ty.kind))];
        }
      } else if NeedsRelaxation(change) {
        statements, warnings := AppendNullabilityRelaxation(d, change.columnName, statements, warnings);
        assert PlanRelaxation(d, before, change.columnName)
            == Plan(statements, typeChangeColumns, addColumns, warnings);
      }
    }
    assert changes[..|changes|] == changes;
    if d.canBatchAlter && |typeChangeColumns| > 0 {
      if d.renders(AlterMany(typeChangeColumns)) {
        statements := statements + [AlterMany(typeChangeColumns)];
      }
    }
    if d.canBatchAdd && |addColumns| > 0 {
      if d.renders(AddMany(addColumns)) {
        statements := statements + [AddMany(addColumns)];
      }
    }
  }

  datatype RenderError = UnsupportedTypeChange(column: string) | UnsupportedRelaxation(column: string)

  /** Change i is the first that is not supported, and is reported for its type first. */
  ghost predicate UnsupportedAt(d: Dialect, changes: seq<SchemaChange>, error: RenderError, i: nat)
    requires i < |changes|
  {
    var change := changes[i];
    && (forall j :: 0 <= j < i ==> Supported(d, changes[j])) && !Supported(d, change)
    && error == if IsTypeChange(change.kind) then UnsupportedTypeChange(change.columnName)
                else UnsupportedRelaxation(change.columnName)
  }

  ghost predicate FirstUnsupported(d: Dialect, changes: seq<SchemaChange>, error: RenderError) {
    exists i: nat :: i < |changes| && UnsupportedAt(d, changes, error, i)
  }

  /** All or nothing: one unsupported change and nothing is rendered. */
  method RenderEvolution(d: Dialect, changes: seq<SchemaChange>)
    returns (result: Result<(seq<Statement>, seq<Warning>), RenderError>)
    ensures result.Ok? <==> forall i :: 0 <= i < |changes| ==> Supported(d, changes[i])
    ensures result.Err? ==> FirstUnsupported(d, changes, result.error)
    ensures result.Ok? ==>
              result.value == (Statements(d, changes), PlanChanges(d, changes).warnings)
  {
    for i := 0 to |changes|
      invariant forall j :: 0 <= j < i ==> Supported(d, changes[j])
    {
      var change := changes[i];
      if IsTypeChange(change.kind) {
        if SameDestinationType(d, change) {
          continue;
        }
        if !d.supportsAlter || !d.renders(AlterOne(change.columnName, change.newColumn)) {
          assert UnsupportedAt(d, changes, UnsupportedTypeChange(change.columnName), i);
          return Err(UnsupportedTypeChange(change.columnName));
        }
      }
      if NeedsRelaxation(change) && !CanRelax(d, change.columnName) {
        assert UnsupportedAt(d, changes, UnsupportedRelaxation(change.columnName), i);
        return Err(UnsupportedRelaxation(change.columnName));
      }
    }
    var statements, warnings := BuildMigration(d, changes);
    return Ok((statements, warnings));
  }
}
