/**
 The migration of a comparison, executed on the physical table, against the schema the
 comparison predicts.
 */
module MigrationImage {
  import opened Wrappers
  import opened SchemaTypes
  import opened SchemaCompare
  import opened EvolutionPlan
  import opened SchemaConvergence
  import opened Migration
  import opened MigrationProofs

  // ---------------------------------------------------------------------------
  // The changes of a comparison are orderly
  // ---------------------------------------------------------------------------

  ghost function KeyOf(change: SchemaChange): string {
    Lower(if change.kind.AddColumn? then change.newColumn.name else change.columnName)
  }

  /** A change names a column of `keys`; it adds one exactly when the destination lacks it. */
  ghost predicate Placed(change: SchemaChange, present: set<string>, keys: set<string>) {
    && KeyOf(change) in keys
    && (change.kind.AddColumn? <==> KeyOf(change) !in present)
    && (IsTypeChange(change.kind) ==> change.newColumn.name == change.columnName)
  }

  ghost predicate AllPlaced(changes: seq<SchemaChange>, present: set<string>, keys: set<string>) {
    forall ch :: ch in changes ==> Placed(ch, present, keys)
  }

  ghost predicate RelaxedFirst(changes: seq<SchemaChange>) {
    forall i, j :: 0 <= i < j < |changes| && IsTypeChange(changes[i].kind) && NeedsRelaxation(changes[j])
      ==> KeyOf(changes[i]) != KeyOf(changes[j])
  }

  lemma {:induction false} AppendApart(
    a: seq<SchemaChange>, b: seq<SchemaChange>, present: set<string>, ka: set<string>, kb: set<string>)
    requires AllPlaced(a, present, ka) && AllPlaced(b, present, kb) && ka !! kb
    requires RelaxedFirst(a) && RelaxedFirst(b)
    ensures AllPlaced(a + b, present, ka + kb) && RelaxedFirst(a + b)
  {
    var all := a + b;
    forall i, j | 0 <= i < j < |all| && IsTypeChange(all[i].kind) && NeedsRelaxation(all[j])
      ensures KeyOf(all[i]) != KeyOf(all[j])
    {
      if i < |a| <= j {
        assert a[i] in a && b[j - |a|] in b;
      }
    }
  }

  lemma {:induction false} PlainPlaced(opts: Options, src: Column, dest: Option<Column>, present: set<string>)
    requires dest.Some? <==> Lower(src.name) in present
    requires dest.Some? ==> Lower(dest.value.name) == Lower(src.name)
    requires PlainColumnChanges(opts, src, dest).Ok?
    ensures var changes := PlainColumnChanges(opts, src, dest).value;
            AllPlaced(changes, present, {Lower(src.name)}) && RelaxedFirst(changes)
  {
  }

  lemma {:induction false} OverriddenPlaced(
    opts: Options, o: ColumnOverride, src: Column, dest: Option<Column>, present: set<string>)
    requires dest.Some? <==> Lower(src.name) in present
    requires dest.Some? ==> Lower(dest.value.name) == Lower(src.name)
    requires OverriddenColumnChanges(opts, o, src, dest).Ok?
    ensures var changes := OverriddenColumnChanges(opts, o, src, dest).value;
            AllPlaced(changes, present, {Lower(src.name)}) && RelaxedFirst(changes)
  {
  }

  lemma {:induction false} ColumnPlaced(opts: Options, src: Column, dest: Option<Column>, present: set<string>)
    requires dest.Some? <==> Lower(src.name) in present
    requires dest.Some? ==> Lower(dest.value.name) == Lower(src.name)
    requires ColumnChanges(opts, src, dest).Ok?
    ensures var changes := ColumnChanges(opts, src, dest).value;
            AllPlaced(changes, present, {Lower(src.name)}) && RelaxedFirst(changes)
  {
    if Lower(src.name) in opts.overrides {
      OverriddenPlaced(opts, opts.overrides[Lower(src.name)], src, dest, present);
    } else {
      PlainPlaced(opts, src, dest, present);
    }
  }

  lemma {:induction false} SourcePlaced(opts: Options, source: seq<Column>, dest: seq<Column>)
    requires DistinctNames(source) && SourceChanges(opts, source, ByName(dest)).Ok?
    ensures var changes := SourceChanges(opts, source, ByName(dest)).value;
            AllPlaced(changes, ByName(dest).Keys, KeysOf(source)) && RelaxedFirst(changes)
  {
    if source != [] {
      var n := |source| - 1;
      var init, last := source[..n], source[n];
      var before := SourceChanges(opts, init, ByName(dest)).value;
      var found := Get(ByName(dest), last.name);
      var more := ColumnChanges(opts, last, found).value;
      DistinctPrefix(source, n);
      SourcePlaced(opts, init, dest);
      if Lower(last.name) in ByName(dest) { ByNameHasName(dest, Lower(last.name)); }
      ColumnPlaced(opts, last, found, ByName(dest).Keys);
      KeysOfLast(source);
      AppendApart(before, more, ByName(dest).Keys, KeysOf(init), {Lower(last.name)});
      assert SourceChanges(opts, source, ByName(dest)).value == before + more;
    }
  }

  lemma {:induction false} KeysOfLast(columns: seq<Column>)
    requires columns != []
    ensures KeysOf(columns) == KeysOf(columns[..|columns| - 1]) + {Lower(columns[|columns| - 1].name)}
  {
  }

  lemma {:induction false} RemovalsPlaced(dest: seq<Column>, present: set<string>, keys: set<string>)
    requires KeysOf(dest) <= present
    ensures AllPlaced(Removals(dest, keys), present, present - keys)
    ensures RelaxedFirst(Removals(dest, keys))
  {
    if dest != [] {
      var n := |dest| - 1;
      KeysOfLast(dest);
      RemovalsPlaced(dest[..n], present, keys);
    }
    RemovalsOnly(dest, keys);
    var changes := Removals(dest, keys);
    forall i | 0 <= i < |changes| ensures !IsTypeChange(changes[i].kind) { assert changes[i] in changes; }
  }

  lemma {:induction false} ByNameHasKeys(columns: seq<Column>)
    ensures ByName(columns).Keys == KeysOf(columns)
  {
    if columns != [] {
      var n := |columns| - 1;
      ByNameHasKeys(columns[..n]);
      KeysOfLast(columns);
    }
  }

  lemma {:induction false} ComparisonOrderly(opts: Options, source: seq<Column>, dest: seq<Column>)
    requires DistinctNames(source) && Comparison(opts, source, dest).Ok?
    ensures var changes := Comparison(opts, source, dest).value;
            && Orderly(changes)
            && forall ch :: ch in changes && IsTypeChange(ch.kind) ==> ch.newColumn.name == ch.columnName
  {
    var present, keys := ByName(dest).Keys, KeysOf(source);
    ByNameHasKeys(dest);
    SourcePlaced(opts, source, dest);
    RemovalsPlaced(dest, present, keys);
    var changes := Comparison(opts, source, dest).value;
    AppendApart(SourceChanges(opts, source, ByName(dest)).value, Removals(dest, keys),
      present, keys, present - keys);
    forall i | 0 <= i < |changes| ensures Placed(changes[i], present, keys + (present - keys)) {
      assert changes[i] in changes;
    }
  }

  // ---------------------------------------------------------------------------
  // The physical table follows the predicted schema
  // ---------------------------------------------------------------------------

  /** The table mirrors the schema, but for the nullability of the columns in `drift`. */
  ghost predicate Mirrors(d: Dialect, columns: seq<Column>, table: PhysicalTable, drift: set<string>) {
    && |table| == |columns|
    && forall i :: 0 <= i < |columns| ==> MirrorsAt(d, columns[i], table[i], drift)
  }

  ghost predicate MirrorsAt(d: Dialect, col: Column, to: PhysicalColumn, drift: set<string>) {
    && to.name == col.name
    && to.typeName == d.typeName(col)
    && (to.nullable == col.nullable <==> Lower(col.name) !in drift)
  }

  lemma {:induction false} MirrorRelaxed(
    d: Dialect, columns: seq<Column>, table: PhysicalTable, drift: set<string>, i: nat)
    requires TypeNamesStable(d) && Mirrors(d, columns, table, drift)
    requires DistinctNames(columns) && i < |columns|
    requires Lower(columns[i].name) !in drift
    ensures var name := columns[i].name;
            Mirrors(d, EditFirst(columns, name, MakeNullable), RelaxTable(table, name), drift)
  {
    var name := columns[i].name;
    EditFirstAt(columns, name, MakeNullable, i);
    forall j | 0 <= j < |columns|
      ensures MirrorsAt(d, EditFirst(columns, name, MakeNullable)[j], RelaxTable(table, name)[j], drift)
    {
      assert MirrorsAt(d, columns[j], table[j], drift);
      assert SameButNullable(columns[j].(nullable := true), columns[j]);
    }
  }

  /** A retyped column drifts when the new nullability is not carried by the statement. */
  ghost predicate LosesNullability(d: Dialect, was: bool, change: SchemaChange) {
    was != change.newColumn.nullable && !(d.statesNullability && !SameDestinationType(d, change))
  }

  lemma {:induction false} MirrorRetyped(
    d: Dialect, columns: seq<Column>, table: PhysicalTable, drift: set<string>, i: nat, change: SchemaChange)
    requires TypeNamesStable(d) && Mirrors(d, columns, table, drift)
    requires DistinctNames(columns) && i < |columns| && Lower(columns[i].name) !in drift
    requires IsTypeChange(change.kind)
    requires change.columnName == columns[i].name == change.newColumn.name
    requires change.oldColumn.Some? && d.typeName(change.oldColumn.value) == d.typeName(columns[i])
    ensures Mirrors(d, ApplyChange(columns, change), Effect(d, table, change),
              drift + if LosesNullability(d, columns[i].nullable, change)
                      then {Lower(columns[i].name)} else {})
  {
    var name := columns[i].name;
    var to := change.newColumn;
    assert to.(name := name) == to;
    EditFirstAt(columns, name, Replace(to), i);
    var drift' := drift + if LosesNullability(d, columns[i].nullable, change) then {Lower(name)} else {};
    forall j | 0 <= j < |columns|
      ensures MirrorsAt(d, ApplyChange(columns, change)[j], Effect(d, table, change)[j], drift')
    {
      assert MirrorsAt(d, columns[j], table[j], drift);
    }
  }

  lemma {:induction false} MirrorAdded(
    d: Dialect, columns: seq<Column>, table: PhysicalTable, drift: set<string>, col: Column)
    requires Mirrors(d, columns, table, drift) && col.nullable && Lower(col.name) !in drift
    ensures Mirrors(d, columns + [col], AddTo(d, table, col), drift)
  {
  }

  lemma {:induction false} EffectsAppend(
    d: Dialect, table: PhysicalTable, a: seq<SchemaChange>, b: seq<SchemaChange>)
    ensures Effects(d, table, a + b) == Effects(d, Effects(d, table, a), b)
  {
    if b == [] {
      assert a + b == a;
    } else {
      var init := b[..|b| - 1];
      EffectsAppend(d, table, a, init);
      assert (a + b)[..|a + b| - 1] == a + init;
    }
  }

  lemma {:induction false} EffectsOne(d: Dialect, table: PhysicalTable, change: SchemaChange)
    ensures Effects(d, table, [change]) == Effect(d, table, change)
  {
    assert [change][..0] == [];
  }

  /** A relaxation followed by at most one type change, both of column i. */
  lemma {:induction false} PairMirrors(
    d: Dialect, columns: seq<Column>, table: PhysicalTable, drift: set<string>, i: nat,
    relaxed: seq<SchemaChange>, typed: seq<SchemaChange>)
    requires TypeNamesStable(d) && Mirrors(d, columns, table, drift)
    requires DistinctNames(columns) && i < |columns| && Lower(columns[i].name) !in drift
    requires relaxed != [] ==>
               |relaxed| == 1 && relaxed[0].kind.RelaxNullability? && relaxed[0].columnName == columns[i].name
    requires typed != [] ==>
               && |typed| == 1 && IsTypeChange(typed[0].kind)
               && typed[0].columnName == columns[i].name == typed[0].newColumn.name
               && typed[0].oldColumn == Some(columns[i])
    ensures Mirrors(d, ApplyChanges(columns, relaxed + typed), Effects(d, table, relaxed + typed),
              drift + if typed != [] && LosesNullability(d, columns[i].nullable || relaxed != [], typed[0])
                      then {Lower(columns[i].name)} else {})
  {
    var name := columns[i].name;
    var columns', table' := ApplyChanges(columns, relaxed), Effects(d, table, relaxed);
    if relaxed != [] {
      assert relaxed == [relaxed[0]];
      ApplyOne(columns, relaxed[0]);
      EffectsOne(d, table, relaxed[0]);
      MirrorRelaxed(d, columns, table, drift, i);
      EditFirstAt(columns, name, MakeNullable, i);
      EditKeepsNames(columns, name, MakeNullable);
    }
    ApplyAppend(columns, relaxed, typed);
    EffectsAppend(d, table, relaxed, typed);
    if typed != [] {
      assert typed == [typed[0]];
      ApplyOne(columns', typed[0]);
      EffectsOne(d, table', typed[0]);
      assert SameButNullable(columns'[i], columns[i]);
      MirrorRetyped(d, columns', table', drift, i, typed[0]);
    }
  }

  /**
   The one column whose predicted nullability the statements do not carry: a bookkeeping column
   that is retyped but never relaxed, when no ALTER restates its nullability.
   */
  ghost predicate Drifts(d: Dialect, opts: Options, src: Column, dest: Column) {
    && Lower(src.name) !in opts.overrides
    && FittingType(src.ty, dest.ty).Ok?
    && DriftsTo(d, opts, src, dest, FittingType(src.ty, dest.ty).value)
  }

  ghost predicate DriftsTo(d: Dialect, opts: Options, src: Column, dest: Column, to: Option<ColumnType>) {
    && IsIngestrColumn(src.name) && !IsPrimaryKey(opts, src.name)
    && src.nullable && !dest.nullable && to.Some?
    && (d.statesNullability ==> d.typeName(dest) == d.typeName(src.(name := dest.name, ty := to.value)))
  }

  lemma {:induction false} FittedMirrors(
    d: Dialect, opts: Options, src: Column, columns: seq<Column>, table: PhysicalTable, drift: set<string>, i: nat,
    fitting: Result<Option<ColumnType>, int>)
    requires TypeNamesStable(d) && Mirrors(d, columns, table, drift)
    requires DistinctNames(columns) && i < |columns| && Lower(columns[i].name) !in drift
    requires fitting.Ok?
    ensures var dest := columns[i];
            var relaxed :=
              if Relaxes(opts, src, dest)
              then [SchemaChange(RelaxNullability, dest.name, Some(dest), src.(name := dest.name))] else [];
            var changes := relaxed + WidenTo(opts, src, dest, fitting).value;
            Mirrors(d, ApplyChanges(columns, changes), Effects(d, table, changes),
              drift + if DriftsTo(d, opts, src, dest, fitting.value) then {Lower(dest.name)} else {})
  {
    var dest := columns[i];
    var relaxed :=
      if Relaxes(opts, src, dest)
      then [SchemaChange(RelaxNullability, dest.name, Some(dest), src.(name := dest.name))] else [];
    var typed := WidenTo(opts, src, dest, fitting).value;
    PairMirrors(d, columns, table, drift, i, relaxed, typed);
    if typed != [] {
      var to := typed[0].newColumn;
      assert SameButNullable(to, src.(name := dest.name, ty := to.ty));
    }
  }

  lemma {:induction false} PlainMirrors(
    d: Dialect, opts: Options, src: Column, columns: seq<Column>, table: PhysicalTable, drift: set<string>, i: nat)
    requires TypeNamesStable(d) && Mirrors(d, columns, table, drift)
    requires DistinctNames(columns) && i < |columns| && Lower(columns[i].name) !in drift
    requires Lower(src.name) !in opts.overrides && PlainColumnChanges(opts, src, Some(columns[i])).Ok?
    ensures var changes := PlainColumnChanges(opts, src, Some(columns[i])).value;
            Mirrors(d, ApplyChanges(columns, changes), Effects(d, table, changes),
              drift + if Drifts(d, opts, src, columns[i]) then {Lower(columns[i].name)} else {})
  {
    FittedMirrors(d, opts, src, columns, table, drift, i, FittingType(src.ty, columns[i].ty));
  }

  lemma {:induction false} OverrideMirrors(
    d: Dialect, columns: seq<Column>, table: PhysicalTable, drift: set<string>, i: nat, newCol: Column,
    relaxed: seq<SchemaChange>, overriding: Result<Option<ColumnType>, int>)
    requires TypeNamesStable(d) && Mirrors(d, columns, table, drift)
    requires DistinctNames(columns) && i < |columns| && Lower(columns[i].name) !in drift
    requires relaxed != [] ==>
               |relaxed| == 1 && relaxed[0].kind.RelaxNullability? && relaxed[0].columnName == columns[i].name
    requires newCol.name == columns[i].name && newCol.nullable == (columns[i].nullable || relaxed != [])
    requires overriding.Ok?
    ensures var changes := relaxed + OverrideTo(newCol, columns[i], overriding).value;
            Mirrors(d, ApplyChanges(columns, changes), Effects(d, table, changes), drift)
  {
    PairMirrors(d, columns, table, drift, i, relaxed, OverrideTo(newCol, columns[i], overriding).value);
  }

  lemma {:induction false} OverriddenMirrors(
    d: Dialect, opts: Options, o: ColumnOverride, src: Column, columns: seq<Column>, table: PhysicalTable,
    drift: set<string>, i: nat)
    requires TypeNamesStable(d) && Mirrors(d, columns, table, drift)
    requires DistinctNames(columns) && i < |columns| && Lower(columns[i].name) !in drift
    requires OverriddenColumnChanges(opts, o, src, Some(columns[i])).Ok?
    ensures var changes := OverriddenColumnChanges(opts, o, src, Some(columns[i])).value;
            Mirrors(d, ApplyChanges(columns, changes), Effects(d, table, changes), drift)
  {
    var dest := columns[i];
    var relax := Relaxes(opts, src, dest);
    var relaxed :=
      if relax then [SchemaChange(RelaxNullability, dest.name, Some(dest), dest.(nullable := true))] else [];
    var newCol := o.ApplyToColumn(src).(name := dest.name, nullable := dest.nullable || relax);
    OverrideMirrors(d, columns, table, drift, i, newCol, relaxed, OverridingType(newCol.ty, dest.ty));
  }

  lemma {:induction false} AddedMirrors(
    d: Dialect, opts: Options, src: Column, columns: seq<Column>, table: PhysicalTable, drift: set<string>)
    requires Mirrors(d, columns, table, drift) && Lower(src.name) !in drift
    requires ColumnChanges(opts, src, None).Ok?
    ensures var changes := ColumnChanges(opts, src, None).value;
            Mirrors(d, ApplyChanges(columns, changes), Effects(d, table, changes), drift)
  {
    var changes := ColumnChanges(opts, src, None).value;
    assert changes == [changes[0]];
    ApplyOne(columns, changes[0]);
    EffectsOne(d, table, changes[0]);
    MirrorAdded(d, columns, table, drift, changes[0].newColumn);
  }

  /** The keys of the columns that drift. */
  ghost function DriftKeys(d: Dialect, opts: Options, source: seq<Column>, dest: seq<Column>): set<string> {
    set i | 0 <= i < |source|
            && Lower(source[i].name) in ByName(dest)
            && Drifts(d, opts, source[i], ByName(dest)[Lower(source[i].name)])
         :: Lower(source[i].name)
  }

  lemma {:induction false} IndexOf(columns: seq<Column>, key: string) returns (i: nat)
    requires DistinctNames(columns) && key in ByName(columns)
    ensures i < |columns| && columns[i] == ByName(columns)[key] && Lower(columns[i].name) == key
  {
    ByNameKeys(columns, key);
    i :| 0 <= i < |columns| && Lower(columns[i].name) == key;
    ByNameAt(columns, i);
  }

  /** The last source column, applied to a schema that still holds its destination column. */
  lemma {:induction false} LastMirrors(
    d: Dialect, opts: Options, source: seq<Column>, dest: seq<Column>, columns: seq<Column>, table: PhysicalTable)
    requires TypeNamesStable(d) && source != [] && DistinctNames(source) && DistinctNames(columns)
    requires var n := |source| - 1;
             && Mirrors(d, columns, table, DriftKeys(d, opts, source[..n], dest))
             && Get(ByName(columns), source[n].name) == Get(ByName(dest), source[n].name)
             && ColumnChanges(opts, source[n], Get(ByName(dest), source[n].name)).Ok?
    ensures var last := source[|source| - 1];
            var changes := ColumnChanges(opts, last, Get(ByName(dest), last.name)).value;
            Mirrors(d, ApplyChanges(columns, changes), Effects(d, table, changes),
              DriftKeys(d, opts, source, dest))
  {
    var n := |source| - 1;
    var init, last, key := source[..n], source[n], Lower(source[n].name);
    var drift := DriftKeys(d, opts, init, dest);
    assert forall j :: 0 <= j < n ==> init[j] == source[j];
    assert key !in drift;
    var now := key in ByName(dest) && Drifts(d, opts, last, ByName(dest)[key]);
    assert DriftKeys(d, opts, source, dest) == drift + if now then {key} else {};
    if key in ByName(dest) {
      var i := IndexOf(columns, key);
      if key in opts.overrides {
        OverriddenMirrors(d, opts, opts.overrides[key], last, columns, table, drift, i);
      } else {
        PlainMirrors(d, opts, last, columns, table, drift, i);
      }
    } else {
      AddedMirrors(d, opts, last, columns, table, drift);
    }
  }

  lemma {:induction false} SourceMirrors(d: Dialect, opts: Options, source: seq<Column>, dest: seq<Column>)
    requires TypeNamesStable(d) && DistinctNames(source) && DistinctNames(dest)
    requires SourceChanges(opts, source, ByName(dest)).Ok?
    ensures var changes := SourceChanges(opts, source, ByName(dest)).value;
            Mirrors(d, ApplyChanges(dest, changes), Effects(d, Physical(d, dest), changes),
              DriftKeys(d, opts, source, dest))
  {
    var m := ByName(dest);
    if source != [] {
      var n := |source| - 1;
      var init, last := source[..n], source[n];
      DistinctPrefix(source, n);
      SourceMirrors(d, opts, init, dest);
      ApplySource(opts, init, dest);
      var before := SourceChanges(opts, init, m).value;
      var more := ColumnChanges(opts, last, Get(m, last.name)).value;
      assert SourceChanges(opts, source, m).value == before + more;
      ApplyAppend(dest, before, more);
      EffectsAppend(d, Physical(d, dest), before, more);
      EvolvedMapOutside(opts, init, m, Lower(last.name));
      LastMirrors(d, opts, source, dest, ApplyChanges(dest, before), Effects(d, Physical(d, dest), before));
    }
  }

  lemma {:induction false} RemovalMirrors(
    d: Dialect, columns: seq<Column>, table: PhysicalTable, drift: set<string>, removed: Column)
    requires TypeNamesStable(d) && Mirrors(d, columns, table, drift) && DistinctNames(columns)
    requires var key := Lower(removed.name);
             && key !in drift && key in ByName(columns) && ByName(columns)[key].name == removed.name
             && (removed.nullable ==> ByName(columns)[key].nullable)
    ensures Mirrors(d, ApplyChange(columns, RemoveChange(removed)), Effect(d, table, RemoveChange(removed)), drift)
  {
    if removed.nullable {
      EditFirstIdempotent(columns, removed.name);
    } else {
      var i := IndexOf(columns, Lower(removed.name));
      MirrorRelaxed(d, columns, table, drift, i);
    }
  }

  lemma {:induction false} RemovalsMirror(
    d: Dialect, columns: seq<Column>, table: PhysicalTable, drift: set<string>, dest: seq<Column>,
    keys: set<string>)
    requires TypeNamesStable(d) && Mirrors(d, columns, table, drift) && DistinctNames(columns)
    requires drift <= keys
    requires forall j :: 0 <= j < |dest| && IsRemoved(dest[j], keys) ==>
               Get(ByName(columns), dest[j].name) == Some(dest[j])
    ensures Mirrors(d, ApplyChanges(columns, Removals(dest, keys)), Effects(d, table, Removals(dest, keys)), drift)
  {
    if dest != [] {
      var n := |dest| - 1;
      var init, last := dest[..n], dest[n];
      forall j | 0 <= j < n && IsRemoved(init[j], keys)
        ensures Get(ByName(columns), init[j].name) == Some(init[j])
      {
        assert init[j] == dest[j];
      }
      RemovalsMirror(d, columns, table, drift, init, keys);
      var before := Removals(init, keys);
      if IsRemoved(last, keys) {
        ApplyRemovals(columns, init, keys);
        var middle, table' := ApplyChanges(columns, before), Effects(d, table, before);
        ApplyAppend(columns, before, [RemoveChange(last)]);
        EffectsAppend(d, table, before, [RemoveChange(last)]);
        ApplyOne(middle, RemoveChange(last));
        EffectsOne(d, table', RemoveChange(last));
        RemovalMirrors(d, middle, table', drift, last);
      } else {
        assert Removals(dest, keys) == before;
      }
    }
  }

  /** The effects of all the changes, drift included. */
  lemma {:induction false} EffectsMirror(d: Dialect, opts: Options, source: seq<Column>, dest: seq<Column>)
    requires TypeNamesStable(d) && DistinctNames(source) && DistinctNames(dest)
    requires Comparison(opts, source, dest).Ok?
    ensures Mirrors(d, FinalSchema(opts, source, dest),
              Effects(d, Physical(d, dest), Comparison(opts, source, dest).value),
              DriftKeys(d, opts, source, dest))
  {
    var keys := KeysOf(source);
    var before, removals := SourceChanges(opts, source, ByName(dest)).value, Removals(dest, keys);
    SourceMirrors(d, opts, source, dest);
    ApplySource(opts, source, dest);
    var middle := ApplyChanges(dest, before);
    forall j | 0 <= j < |dest| && IsRemoved(dest[j], keys)
      ensures Get(ByName(middle), dest[j].name) == Some(dest[j])
    {
      EvolvedMapOutside(opts, source, ByName(dest), Lower(dest[j].name));
      ByNameAt(dest, j);
    }
    RemovalsMirror(d, middle, Effects(d, Physical(d, dest), before), DriftKeys(d, opts, source, dest), dest, keys);
    ApplyAppend(dest, before, removals);
    EffectsAppend(d, Physical(d, dest), before, removals);
  }

  lemma {:induction false} MirrorIsImage(d: Dialect, columns: seq<Column>, table: PhysicalTable, drift: set<string>)
    requires Mirrors(d, columns, table, drift) && DistinctNames(columns)
    requires drift <= ByName(columns).Keys
    ensures table == Physical(d, columns) <==> drift == {}
  {
    if drift == {} {
      forall i | 0 <= i < |columns| ensures table[i] == Physical(d, columns)[i] {
        assert MirrorsAt(d, columns[i], table[i], drift);
      }
    } else {
      var key :| key in drift;
      var i := IndexOf(columns, key);
      assert MirrorsAt(d, columns[i], table[i], drift);
      assert table[i] != Physical(d, columns)[i];
    }
  }

  /**
   A rendered migration, executed, gives the names and type names of the predicted schema in
   every case, and its nullability exactly when no bookkeeping column drifts.
   */
  lemma {:induction false} MigrationReachesPrediction(
    d: Dialect, opts: Options, source: seq<Column>, dest: seq<Column>)
    requires TypeNamesStable(d) && RendersBatches(d)
    requires DistinctNames(source) && DistinctNames(dest) && Comparison(opts, source, dest).Ok?
    requires forall ch :: ch in Comparison(opts, source, dest).value ==> Supported(d, ch)
    ensures var final := FinalSchema(opts, source, dest);
            var table := ExecuteAll(d, Physical(d, dest), Statements(d, Comparison(opts, source, dest).value));
            && |table| == |final|
            && (forall i :: 0 <= i < |final| ==>
                  table[i].name == final[i].name && table[i].typeName == d.typeName(final[i]))
            && (table == Physical(d, final) <==> DriftKeys(d, opts, source, dest) == {})
  {
    var changes := Comparison(opts, source, dest).value;
    var final := FinalSchema(opts, source, dest);
    var drift := DriftKeys(d, opts, source, dest);
    ComparisonOrderly(opts, source, dest);
    BatchingIsInvisible(d, Physical(d, dest), changes);
    EffectsMirror(d, opts, source, dest);
    FinalSchemaMap(opts, source, dest);
    forall key | key in drift ensures key in ByName(final) {
      var i :| 0 <= i < |source| && Lower(source[i].name) == key;
      FinalColumn(opts, source, dest, i);
    }
    var table := Effects(d, Physical(d, dest), changes);
    MirrorIsImage(d, final, table, drift);
    forall i | 0 <= i < |final|
      ensures table[i].name == final[i].name && table[i].typeName == d.typeName(final[i])
    {
      assert MirrorsAt(d, final[i], table[i], drift);
    }
  }

  /** Dialects that differ only in what they can batch reach the same table. */
  lemma {:induction false} DialectsAgree(
    d: Dialect, batchAdd: bool, batchAlter: bool, opts: Options, source: seq<Column>, dest: seq<Column>,
    table: PhysicalTable)
    requires RendersBatches(d) && DistinctNames(source) && Comparison(opts, source, dest).Ok?
    requires forall ch :: ch in Comparison(opts, source, dest).value ==> Supported(d, ch)
    ensures var changes := Comparison(opts, source, dest).value;
            var d' := d.(canBatchAdd := batchAdd, canBatchAlter := batchAlter);
            ExecuteAll(d', table, Statements(d', changes)) == ExecuteAll(d, table, Statements(d, changes))
  {
    var changes := Comparison(opts, source, dest).value;
    var d' := d.(canBatchAdd := batchAdd, canBatchAlter := batchAlter);
    ComparisonOrderly(opts, source, dest);
    forall ch | ch in changes ensures Supported(d', ch) { assert Supported(d, ch); }
    BatchingIsInvisible(d, table, changes);
    BatchingIsInvisible(d', table, changes);
    EffectsIgnoreBatching(d, d', table, changes);
  }

  lemma {:induction false} EffectsIgnoreBatching(
    d: Dialect, d': Dialect, table: PhysicalTable, changes: seq<SchemaChange>)
    requires d' == d.(canBatchAdd := d'.canBatchAdd, canBatchAlter := d'.canBatchAlter)
    ensures Effects(d', table, changes) == Effects(d, table, changes)
  {
    if changes != [] {
      var n := |changes| - 1;
      EffectsIgnoreBatching(d, d', table, changes[..n]);
      var t, ch := Effects(d, table, changes[..n]), changes[n];
      assert AlterTable(d', t, ch.columnName, ch.newColumn.(name := ch.columnName))
        == AlterTable(d, t, ch.columnName, ch.newColumn.(name := ch.columnName));
    }
  }

  /**
   Every run that adds run ids has an unbounded, nullable text column for them. Where ALTER does
   not speak of nullability, a required destination column of any bounded size is widened by it
   and stays required.
   */
  lemma {:induction false} RunIdDrifts(d: Dialect, size: int)
    requires TypeNamesStable(d) && RendersBatches(d) && !d.statesNullability
    requires d.supportsAlter && forall name, col :: d.renders(AlterOne(name, col))
    requires size > 0
    ensures var src := Column("_ingestr_run_id", ColumnType(String, 0, 0, 0, Unknown), true, false, false);
            var dest := Column("_ingestr_run_id", ColumnType(String, 0, 0, size, Unknown), false, false, false);
            var opts := Options(map[], {});
            && Comparison(opts, [src], [dest]).Ok?
            && ExecuteAll(d, Physical(d, [dest]), Statements(d, Comparison(opts, [src], [dest]).value))
               != Physical(d, FinalSchema(opts, [src], [dest]))
  {
    var name := "_ingestr_run_id";
    var src := Column(name, ColumnType(String, 0, 0, 0, Unknown), true, false, false);
    var dest := Column(name, ColumnType(String, 0, 0, size, Unknown), false, false, false);
    var opts := Options(map[], {});
    assert Lower(name) == name;
    assert [dest][..0] == [];
    assert ByName([dest]) == map[name := dest];
    assert ColumnChanges(opts, src, Some(dest)).Ok?;
    OneSourceAccepted(opts, src, [dest]);
    RunIdSupported(d, opts, src, dest);
    assert name == Lower([src][0].name);
    assert name in DriftKeys(d, opts, [src], [dest]);
    MigrationReachesPrediction(d, opts, [src], [dest]);
  }

  lemma {:induction false} RunIdSupported(d: Dialect, opts: Options, src: Column, dest: Column)
    requires d.supportsAlter && forall name, col :: d.renders(AlterOne(name, col))
    requires ByName([dest]) == map[Lower(src.name) := dest] && Lower(dest.name) == Lower(src.name)
    requires Lower(src.name) !in opts.overrides && IsIngestrColumn(src.name)
    requires PlainColumnChanges(opts, src, Some(dest)).Ok? && Comparison(opts, [src], [dest]).Ok?
    ensures forall ch :: ch in Comparison(opts, [src], [dest]).value ==> Supported(d, ch)
  {
    OneSourceAccepted(opts, src, [dest]);
    var none: seq<SchemaChange> := [];
    assert [dest][..0] == [] && Lower([src][0].name) in KeysOf([src]);
    assert Removals([dest], KeysOf([src])) == none;
  }
}
