/** The one-step convergence theorem for whole schemas, built column by column. */
module SchemaConvergence {
  import opened Wrappers
  import opened SchemaTypes
  import opened Widening
  import opened SchemaCompare
  import opened EvolutionPlan
  import opened Convergence

  // ---------------------------------------------------------------------------
  // The changes of one source column touch one column of the destination
  // ---------------------------------------------------------------------------

  ghost predicate Targets(changes: seq<SchemaChange>, key: string, present: bool) {
    if present then
      forall ch :: ch in changes ==> !ch.kind.AddColumn? && Lower(ch.columnName) == key
    else
      |changes| == 1 && changes[0].kind.AddColumn? && Lower(changes[0].newColumn.name) == key
  }

  lemma {:induction false} PlainTarget(opts: Options, src: Column, dest: Option<Column>)
    requires dest.Some? ==> Lower(dest.value.name) == Lower(src.name)
    requires PlainColumnChanges(opts, src, dest).Ok?
    ensures Targets(PlainColumnChanges(opts, src, dest).value, Lower(src.name), dest.Some?)
  {
  }

  lemma {:induction false} OverriddenTarget(opts: Options, o: ColumnOverride, src: Column, dest: Option<Column>)
    requires dest.Some? ==> Lower(dest.value.name) == Lower(src.name)
    requires OverriddenColumnChanges(opts, o, src, dest).Ok?
    ensures Targets(OverriddenColumnChanges(opts, o, src, dest).value, Lower(src.name), dest.Some?)
  {
  }

  lemma {:induction false} ColumnChangesTarget(opts: Options, src: Column, dest: Option<Column>)
    requires dest.Some? ==> Lower(dest.value.name) == Lower(src.name)
    requires ColumnChanges(opts, src, dest).Ok?
    ensures Targets(ColumnChanges(opts, src, dest).value, Lower(src.name), dest.Some?)
  {
    if Lower(src.name) in opts.overrides {
      OverriddenTarget(opts, opts.overrides[Lower(src.name)], src, dest);
    } else {
      PlainTarget(opts, src, dest);
    }
  }

  lemma {:induction false} ApplyAppend(columns: seq<Column>, a: seq<SchemaChange>, b: seq<SchemaChange>)
    ensures ApplyChanges(columns, a + b) == ApplyChanges(ApplyChanges(columns, a), b)
  {
    if b == [] {
      assert a + b == a;
    } else {
      var init := b[..|b| - 1];
      ApplyAppend(columns, a, init);
      assert (a + b)[..|a + b| - 1] == a + init;
    }
  }

  lemma {:induction false} ApplyOne(columns: seq<Column>, change: SchemaChange)
    ensures ApplyChanges(columns, [change]) == ApplyChange(columns, change)
  {
    assert [change][..0] == [];
  }

  lemma {:induction false} DistinctExtend(columns: seq<Column>, col: Column)
    requires DistinctNames(columns) && Lower(col.name) !in ByName(columns)
    ensures DistinctNames(columns + [col])
    ensures ByName(columns + [col]) == ByName(columns)[Lower(col.name) := col]
  {
    assert (columns + [col])[..|columns|] == columns;
    forall i | 0 <= i < |columns| ensures Lower(columns[i].name) != Lower(col.name) {
      ByNameKeys(columns, Lower(col.name));
    }
  }

  lemma {:induction false} TargetsPrefix(changes: seq<SchemaChange>, key: string)
    requires changes != [] && Targets(changes, key, true)
    ensures var last := changes[|changes| - 1];
            Targets(changes[..|changes| - 1], key, true) && !last.kind.AddColumn? && Lower(last.columnName) == key
  {
    assert changes[|changes| - 1] in changes;
    forall ch | ch in changes[..|changes| - 1] ensures ch in changes { }
  }

  lemma {:induction false} ApplyEdit(columns: seq<Column>, change: SchemaChange, key: string)
    requires DistinctNames(columns) && key in ByName(columns)
    requires !change.kind.AddColumn? && Lower(change.columnName) == key
    ensures DistinctNames(ApplyChange(columns, change))
    ensures ByName(ApplyChange(columns, change))
         == ByName(columns)[key := EditColumn(EditOf(change), ByName(columns)[key])]
  {
    EditKeepsNames(columns, change.columnName, EditOf(change));
    ByNameEdit(columns, change.columnName, EditOf(change));
  }

  lemma {:induction false} ApplyEdits(columns: seq<Column>, changes: seq<SchemaChange>, key: string)
    requires DistinctNames(columns) && key in ByName(columns) && Targets(changes, key, true)
    ensures var m := ByName(columns);
            var after := EvolveBy(changes, Some(m[key]));
            && after.Some?
            && DistinctNames(ApplyChanges(columns, changes))
            && ByName(ApplyChanges(columns, changes)) == m[key := after.value]
  {
    if changes != [] {
      var n := |changes| - 1;
      TargetsPrefix(changes, key);
      ApplyEdits(columns, changes[..n], key);
      ApplyEdit(ApplyChanges(columns, changes[..n]), changes[n], key);
    }
  }

  /** The map of columns after the changes of one source column. */
  lemma {:induction false} ApplyTargeted(columns: seq<Column>, changes: seq<SchemaChange>, name: string)
    requires DistinctNames(columns) && Targets(changes, Lower(name), Lower(name) in ByName(columns))
    ensures var m := ByName(columns);
            var after := EvolveBy(changes, Get(m, name));
            && after.Some?
            && DistinctNames(ApplyChanges(columns, changes))
            && ByName(ApplyChanges(columns, changes)) == m[Lower(name) := after.value]
  {
    if Lower(name) in ByName(columns) {
      ApplyEdits(columns, changes, Lower(name));
    } else {
      assert changes == [changes[0]];
      ApplyOne(columns, changes[0]);
      assert EvolveBy(changes[..0], None) == None;
      DistinctExtend(columns, changes[0].newColumn);
    }
  }

  // ---------------------------------------------------------------------------
  // All source columns
  // ---------------------------------------------------------------------------

  lemma {:induction false} DistinctPrefix(columns: seq<Column>, n: nat)
    requires DistinctNames(columns) && n <= |columns|
    ensures DistinctNames(columns[..n])
    ensures n < |columns| ==> Lower(columns[n].name) !in KeysOf(columns[..n])
  {
  }

  /** The map of columns once every source column has been processed. */
  ghost function EvolvedMap(opts: Options, source: seq<Column>, m: map<string, Column>): map<string, Column>
    requires SourceChanges(opts, source, m).Ok?
  {
    if source == [] then m
    else
      var last := source[|source| - 1];
      EvolvedMap(opts, source[..|source| - 1], m)[Lower(last.name) := Evolve(opts, last, Get(m, last.name))]
  }

  lemma {:induction false} EvolvedMapOutside(
    opts: Options, source: seq<Column>, m: map<string, Column>, key: string)
    requires SourceChanges(opts, source, m).Ok? && key !in KeysOf(source)
    ensures key in EvolvedMap(opts, source, m) <==> key in m
    ensures key in m ==> EvolvedMap(opts, source, m)[key] == m[key]
  {
    if source != [] {
      var n := |source| - 1;
      assert Lower(source[n].name) in KeysOf(source);
      assert KeysOf(source[..n]) <= KeysOf(source);
      EvolvedMapOutside(opts, source[..n], m, key);
    }
  }

  lemma {:induction false} EvolvedMapAt(
    opts: Options, source: seq<Column>, m: map<string, Column>, i: nat)
    requires DistinctNames(source) && SourceChanges(opts, source, m).Ok? && i < |source|
    ensures ColumnChanges(opts, source[i], Get(m, source[i].name)).Ok?
    ensures Lower(source[i].name) in EvolvedMap(opts, source, m)
    ensures EvolvedMap(opts, source, m)[Lower(source[i].name)]
         == Evolve(opts, source[i], Get(m, source[i].name))
  {
    var n := |source| - 1;
    if i < n {
      DistinctPrefix(source, n);
      assert source[..n][i] == source[i];
      EvolvedMapAt(opts, source[..n], m, i);
    }
  }

  lemma {:induction false} ApplyLast(
    opts: Options, dest: seq<Column>, middle: seq<Column>, last: Column)
    requires DistinctNames(middle)
    requires Get(ByName(middle), last.name) == Get(ByName(dest), last.name)
    requires ColumnChanges(opts, last, Get(ByName(dest), last.name)).Ok?
    ensures var m := ByName(dest);
            var after := ApplyChanges(middle, ColumnChanges(opts, last, Get(m, last.name)).value);
            && DistinctNames(after)
            && ByName(after) == ByName(middle)[Lower(last.name) := Evolve(opts, last, Get(m, last.name))]
  {
    var found := Get(ByName(dest), last.name);
    if found.Some? { ByNameHasName(dest, Lower(last.name)); }
    ColumnChangesTarget(opts, last, found);
    ApplyTargeted(middle, ColumnChanges(opts, last, found).value, last.name);
  }

  lemma {:induction false} ApplySource(opts: Options, source: seq<Column>, dest: seq<Column>)
    requires DistinctNames(source) && DistinctNames(dest)
    requires SourceChanges(opts, source, ByName(dest)).Ok?
    ensures var after := ApplyChanges(dest, SourceChanges(opts, source, ByName(dest)).value);
            DistinctNames(after) && ByName(after) == EvolvedMap(opts, source, ByName(dest))
  {
    var m := ByName(dest);
    if source != [] {
      var n := |source| - 1;
      var init, last := source[..n], source[n];
      DistinctPrefix(source, n);
      ApplySource(opts, init, dest);
      var before := SourceChanges(opts, init, m).value;
      var more := ColumnChanges(opts, last, Get(m, last.name)).value;
      assert SourceChanges(opts, source, m).value == before + more;
      ApplyAppend(dest, before, more);
      EvolvedMapOutside(opts, init, m, Lower(last.name));
      ApplyLast(opts, dest, ApplyChanges(dest, before), last);
    }
  }

  // ---------------------------------------------------------------------------
  // Removals
  // ---------------------------------------------------------------------------

  ghost predicate RemovalsApplied(
    before: map<string, Column>, after: map<string, Column>, removed: set<string>)
  {
    && after.Keys == before.Keys
    && forall key :: key in before ==>
         after[key] == if key in removed then before[key].(nullable := true) else before[key]
  }

  ghost function RemovedKeys(dest: seq<Column>, sourceKeys: set<string>): set<string> {
    set i | 0 <= i < |dest| && IsRemoved(dest[i], sourceKeys) :: Lower(dest[i].name)
  }

  lemma {:induction false} RemovedOneMore(
    before: map<string, Column>, middle: map<string, Column>, removed: set<string>, key: string)
    requires RemovalsApplied(before, middle, removed)
    ensures RemovalsApplied(before,
              if key in middle then middle[key := middle[key].(nullable := true)] else middle, removed + {key})
  {
  }

  lemma {:induction false} ApplyRemoval(
    was: map<string, Column>, columns: seq<Column>, removed: set<string>, col: Column)
    requires DistinctNames(columns) && RemovalsApplied(was, ByName(columns), removed)
    ensures var after := ApplyChange(columns, RemoveChange(col));
            DistinctNames(after) && RemovalsApplied(was, ByName(after), removed + {Lower(col.name)})
  {
    EditKeepsNames(columns, col.name, MakeNullable);
    ByNameEdit(columns, col.name, MakeNullable);
    RemovedOneMore(was, ByName(columns), removed, Lower(col.name));
  }

  lemma {:induction false} ApplyRemovals(columns: seq<Column>, dest: seq<Column>, sourceKeys: set<string>)
    requires DistinctNames(columns)
    ensures var after := ApplyChanges(columns, Removals(dest, sourceKeys));
            && DistinctNames(after)
            && RemovalsApplied(ByName(columns), ByName(after), RemovedKeys(dest, sourceKeys))
  {
    if dest != [] {
      var n := |dest| - 1;
      var init, last := dest[..n], dest[n];
      var removals := Removals(init, sourceKeys);
      ApplyRemovals(columns, init, sourceKeys);
      assert RemovedKeys(dest, sourceKeys) == RemovedKeys(init, sourceKeys)
        + (if IsRemoved(last, sourceKeys) then {Lower(last.name)} else {});
      if IsRemoved(last, sourceKeys) {
        var middle := ApplyChanges(columns, removals);
        ApplyAppend(columns, removals, [RemoveChange(last)]);
        ApplyOne(middle, RemoveChange(last));
        ApplyRemoval(ByName(columns), middle, RemovedKeys(init, sourceKeys), last);
      } else {
        assert Removals(dest, sourceKeys) == removals;
      }
    }
  }

  /** Removing columns that are nullable already changes nothing. */
  lemma {:induction false} ApplyRemovalsIdempotent(
    columns: seq<Column>, dest: seq<Column>, sourceKeys: set<string>)
    requires DistinctNames(columns)
    requires forall key :: key in RemovedKeys(dest, sourceKeys) && key in ByName(columns) ==>
               ByName(columns)[key].nullable
    ensures ApplyChanges(columns, Removals(dest, sourceKeys)) == columns
  {
    if dest != [] {
      var n := |dest| - 1;
      var init, last := dest[..n], dest[n];
      assert RemovedKeys(init, sourceKeys) <= RemovedKeys(dest, sourceKeys);
      ApplyRemovalsIdempotent(columns, init, sourceKeys);
      if IsRemoved(last, sourceKeys) {
        assert Lower(last.name) in RemovedKeys(dest, sourceKeys);
        ApplyAppend(columns, Removals(init, sourceKeys), [RemoveChange(last)]);
        ApplyOne(columns, RemoveChange(last));
        EditFirstIdempotent(columns, last.name);
      } else {
        assert Removals(dest, sourceKeys) == Removals(init, sourceKeys);
      }
    }
  }

  // ---------------------------------------------------------------------------
  // Convergence
  // ---------------------------------------------------------------------------

  /** The schema predicted for a destination. */
  ghost function FinalSchema(opts: Options, source: seq<Column>, dest: seq<Column>): seq<Column>
    requires Comparison(opts, source, dest).Ok?
  {
    ApplyChanges(dest, Comparison(opts, source, dest).value)
  }

  ghost predicate WellFormedSchema(columns: seq<Column>) {
    DistinctNames(columns) && forall i :: 0 <= i < |columns| ==> WellFormed(columns[i].ty)
  }

  /** The predicted schema, key by key. */
  lemma {:induction false} FinalSchemaMap(opts: Options, source: seq<Column>, dest: seq<Column>)
    requires DistinctNames(source) && DistinctNames(dest) && Comparison(opts, source, dest).Ok?
    ensures var final := FinalSchema(opts, source, dest);
            && DistinctNames(final)
            && RemovalsApplied(EvolvedMap(opts, source, ByName(dest)), ByName(final),
                               RemovedKeys(dest, KeysOf(source)))
  {
    ApplySource(opts, source, dest);
    var changes := SourceChanges(opts, source, ByName(dest)).value;
    var removals := Removals(dest, KeysOf(source));
    ApplyAppend(dest, changes, removals);
    ApplyRemovals(ApplyChanges(dest, changes), dest, KeysOf(source));
  }

  lemma {:induction false} RemovedNotInSource(dest: seq<Column>, keys: set<string>, key: string)
    requires key in RemovedKeys(dest, keys)
    ensures key !in keys
  {
  }

  /** A source column's counterpart in the predicted schema. */
  lemma {:induction false} FinalColumn(opts: Options, source: seq<Column>, dest: seq<Column>, i: nat)
    requires DistinctNames(source) && DistinctNames(dest) && Comparison(opts, source, dest).Ok?
    requires i < |source|
    ensures ColumnChanges(opts, source[i], Get(ByName(dest), source[i].name)).Ok?
    ensures Get(ByName(FinalSchema(opts, source, dest)), source[i].name)
         == Some(Evolve(opts, source[i], Get(ByName(dest), source[i].name)))
  {
    FinalSchemaMap(opts, source, dest);
    EvolvedMapAt(opts, source, ByName(dest), i);
    assert Lower(source[i].name) in KeysOf(source);
    if Lower(source[i].name) in RemovedKeys(dest, KeysOf(source)) {
      RemovedNotInSource(dest, KeysOf(source), Lower(source[i].name));
    }
  }

  /** A column asks for nothing once evolved, unless its override is too wide to merge. */
  lemma {:induction false} ColumnSettles(opts: Options, src: Column, dest: Option<Column>)
    requires WellFormed(src.ty) && (dest.Some? ==> WellFormed(dest.value.ty))
    requires ColumnChanges(opts, src, dest).Ok?
    ensures var after := Some(Evolve(opts, src, dest));
            && (OverrideFits(opts, src, dest) ==> ColumnChanges(opts, src, after) == Ok([]))
            && (!OverrideFits(opts, src, dest) ==> ColumnChanges(opts, src, after).Err?)
  {
    var overridden := Lower(src.name) in opts.overrides;
    if dest.Some? {
      if overridden {
        OverriddenColumnSettles(opts, opts.overrides[Lower(src.name)], src, dest.value);
      } else {
        PlainColumnSettles(opts, src, dest.value);
      }
    } else {
      var changes := ColumnChanges(opts, src, None).value;
      assert changes == [changes[0]] && EvolveBy(changes[..0], None) == None;
      var after := changes[0].newColumn;
      if overridden {
        var o := opts.overrides[Lower(src.name)];
        OverridingTypeSame(o.ApplyToColumn(src).ty);
        var none: seq<SchemaChange> := [];
        assert none + none == none;
      } else {
        NothingToDo(opts, src, after);
      }
    }
  }

  lemma {:induction false} OverridingTypeSame(wanted: ColumnType)
    requires WellFormed(wanted)
    ensures var tooWide := wanted.kind == Decimal && NormalizedDecimal(wanted).precision > MAX_PRECISION;
            && (tooWide ==> forall t :: t == wanted ==> OverridingType(wanted, t).Err?)
            && (!tooWide ==> OverridingType(wanted, wanted) == Ok(None))
  {
    var w := NormalizedDecimal(wanted);
    MergeKeepsBothParts(w, w);
  }

  ghost predicate OverridesFit(opts: Options, source: seq<Column>, dest: seq<Column>) {
    forall i :: 0 <= i < |source| ==>
      OverrideFits(opts, source[i], Get(ByName(dest), source[i].name))
  }

  lemma {:induction false} AllSettled(opts: Options, source: seq<Column>, final: map<string, Column>)
    requires forall i :: 0 <= i < |source| ==>
               ColumnChanges(opts, source[i], Get(final, source[i].name)) == Ok([])
    ensures SourceChanges(opts, source, final) == Ok([])
  {
    if source != [] {
      var n := |source| - 1;
      forall i | 0 <= i < n
        ensures ColumnChanges(opts, source[..n][i], Get(final, source[..n][i].name)) == Ok([])
      {
        assert source[..n][i] == source[i];
      }
      AllSettled(opts, source[..n], final);
      var none: seq<SchemaChange> := [];
      assert none + none == none;
    }
  }

  lemma {:induction false} OneFails(opts: Options, source: seq<Column>, final: map<string, Column>, i: nat)
    requires i < |source| && ColumnChanges(opts, source[i], Get(final, source[i].name)).Err?
    ensures SourceChanges(opts, source, final).Err?
  {
    var n := |source| - 1;
    if i < n {
      assert source[..n][i] == source[i];
      OneFails(opts, source[..n], final, i);
    }
  }

  lemma {:induction false} WellFormedAt(columns: seq<Column>, key: string)
    requires WellFormedSchema(columns) && key in ByName(columns)
    ensures WellFormed(ByName(columns)[key].ty)
  {
    ByNameKeys(columns, key);
    var i :| 0 <= i < |columns| && Lower(columns[i].name) == key;
    ByNameAt(columns, i);
  }

  /**
   Comparing the source with its own prediction succeeds exactly when every override fits. Then
   the source asks for nothing, what remains are column removals, and they change nothing.
   */
  lemma {:induction false} EvolutionConverges(opts: Options, source: seq<Column>, dest: seq<Column>)
    requires WellFormedSchema(source) && WellFormedSchema(dest)
    requires Comparison(opts, source, dest).Ok?
    ensures var final := FinalSchema(opts, source, dest);
            var again := Comparison(opts, source, final);
            && (again.Ok? <==> OverridesFit(opts, source, dest))
            && (again.Ok? ==>
                  && (forall ch :: ch in again.value ==> ch.kind.RemoveColumn?)
                  && ApplyChanges(final, again.value) == final)
  {
    var final := FinalSchema(opts, source, dest);
    var keys := KeysOf(source);
    forall i | 0 <= i < |source|
      ensures var was := Get(ByName(dest), source[i].name);
              var now := Get(ByName(final), source[i].name);
              && (OverrideFits(opts, source[i], was) ==> ColumnChanges(opts, source[i], now) == Ok([]))
              && (!OverrideFits(opts, source[i], was) ==> ColumnChanges(opts, source[i], now).Err?)
    {
      FinalColumn(opts, source, dest, i);
      if Lower(source[i].name) in ByName(dest) { WellFormedAt(dest, Lower(source[i].name)); }
      ColumnSettles(opts, source[i], Get(ByName(dest), source[i].name));
    }
    if OverridesFit(opts, source, dest) {
      AllSettled(opts, source, ByName(final));
      RemovalsOnly(final, keys);
      FinalRemovalsNullable(opts, source, dest);
      ApplyRemovalsIdempotent(final, final, keys);
      var none: seq<SchemaChange> := [];
      assert none + Removals(final, keys) == Removals(final, keys);
    } else {
      var i :| 0 <= i < |source| && !OverrideFits(opts, source[i], Get(ByName(dest), source[i].name));
      OneFails(opts, source, ByName(final), i);
    }
  }

  lemma {:induction false} RemovalsOnly(dest: seq<Column>, keys: set<string>)
    ensures forall ch :: ch in Removals(dest, keys) ==> ch.kind.RemoveColumn?
  {
    if dest != [] { RemovalsOnly(dest[..|dest| - 1], keys); }
  }

  /** Every column of the prediction that the source lacks is nullable, bookkeeping ones aside. */
  lemma {:induction false} FinalRemovalsNullable(opts: Options, source: seq<Column>, dest: seq<Column>)
    requires DistinctNames(source) && DistinctNames(dest) && Comparison(opts, source, dest).Ok?
    ensures var final := FinalSchema(opts, source, dest);
            && DistinctNames(final)
            && forall key :: key in RemovedKeys(final, KeysOf(source)) && key in ByName(final) ==>
                 ByName(final)[key].nullable
  {
    var final := FinalSchema(opts, source, dest);
    var keys := KeysOf(source);
    FinalSchemaMap(opts, source, dest);
    forall key | key in RemovedKeys(final, keys) && key in ByName(final)
      ensures ByName(final)[key].nullable
    {
      EvolvedMapOutside(opts, source, ByName(dest), key);
      ByNameKeys(dest, key);
      var i :| 0 <= i < |dest| && Lower(dest[i].name) == key;
      var j :| 0 <= j < |final| && IsRemoved(final[j], keys) && Lower(final[j].name) == key;
      assert IsRemoved(dest[i], keys);
    }
  }

  /** An override that is too wide is accepted once, for a new column, and rejected from then on. */
  lemma {:induction false} TooWideOverrideFailsLater(name: string, precision: int)
    requires precision > MAX_PRECISION
    ensures var src := Column(name, ColumnType(Decimal, precision, 0, 0, Unknown), true, false, false);
            var opts := Options(map[Lower(name) := ColumnOverride(Decimal, 0, 0, false, 0)], {});
            && Comparison(opts, [src], []).Ok?
            && Comparison(opts, [src], FinalSchema(opts, [src], [])).Err?
  {
    var src := Column(name, ColumnType(Decimal, precision, 0, 0, Unknown), true, false, false);
    var opts := Options(map[Lower(name) := ColumnOverride(Decimal, 0, 0, false, 0)], {});
    NewColumnAccepted(opts, src);
    OneSourceAccepted(opts, src, []);
    TooWideDoesNotFit(opts, src);
    EvolutionConverges(opts, [src], []);
  }

  lemma {:induction false} NewColumnAccepted(opts: Options, src: Column)
    ensures ColumnChanges(opts, src, None).Ok?
  {
  }

  lemma {:induction false} OneSourceAccepted(opts: Options, src: Column, dest: seq<Column>)
    requires ColumnChanges(opts, src, Get(ByName(dest), src.name)).Ok?
    ensures SourceChanges(opts, [src], ByName(dest)) == ColumnChanges(opts, src, Get(ByName(dest), src.name))
    ensures Comparison(opts, [src], dest).Ok?
  {
    var none: seq<SchemaChange> := [];
    assert [src][..0] == [];
    assert SourceChanges(opts, [src][..0], ByName(dest)) == Ok(none);
    var more := ColumnChanges(opts, src, Get(ByName(dest), src.name)).value;
    assert none + more == more;
  }

  lemma {:induction false} TooWideDoesNotFit(opts: Options, src: Column)
    requires src.ty.precision > MAX_PRECISION && Lower(src.name) in opts.overrides
    requires opts.overrides[Lower(src.name)] == ColumnOverride(Decimal, 0, 0, false, 0)
    ensures !OverridesFit(opts, [src], [])
  {
    assert !OverrideFits(opts, [src][0], Get(ByName([]), src.name));
  }
}
