/** What a column holds once all columns of its name have been merged, and which keys a table keeps. */
module ColumnMerge {
  import opened Wrappers
  import opened SchemaTypes
  import opened Widening
  import opened WideningFamilies
  import opened ColumnRename

  ghost predicate Unknowns(columns: seq<Column>, name: string) {
    forall i :: 0 <= i < |columns| && columns[i].name == name ==> columns[i].ty.kind == Unknown
  }

  /** Null is allowed, or the column is a key, exactly when one of the merged columns says so. */
  ghost predicate FlagsMerged(columns: seq<Column>, name: string, merged: Column) {
    && (merged.nullable <==> exists i :: 0 <= i < |columns| && columns[i].name == name && columns[i].nullable)
    && (merged.isPrimaryKey <==> exists i :: 0 <= i < |columns| && columns[i].name == name && columns[i].isPrimaryKey)
  }

  /** The kind takes in every known one, but for Float32 where it has become Decimal. */
  ghost predicate KindMerged(columns: seq<Column>, name: string, kind: DataType) {
    && (kind == Unknown <==> Unknowns(columns, name))
    && forall i :: 0 <= i < |columns| && columns[i].name == name && columns[i].ty.kind != Unknown ==>
         (CanWiden(columns[i].ty.kind, kind) <==> !(columns[i].ty.kind == Float32 && kind == Decimal))
  }

  /** A length of zero or less is unbounded and wins; otherwise the longest does. */
  ghost predicate LengthMerged(columns: seq<Column>, name: string, length: int) {
    if length > 0 then
      && (forall i :: 0 <= i < |columns| && columns[i].name == name ==> 0 < columns[i].ty.maxLength <= length)
      && (exists i :: 0 <= i < |columns| && columns[i].name == name && columns[i].ty.maxLength == length)
    else
      exists i :: 0 <= i < |columns| && columns[i].name == name && columns[i].ty.maxLength <= 0
  }

  lemma {:induction false} OneColumn(columns: seq<Column>, name: string, i: nat)
    requires i == |columns| - 1 && columns[i].name == name
    requires forall j :: 0 <= j < i ==> columns[j].name != name
    ensures FlagsMerged(columns, name, columns[i]) && KindMerged(columns, name, columns[i].ty.kind)
    ensures LengthMerged(columns, name, columns[i].ty.maxLength)
  {
  }

  lemma {:induction false} OtherName(columns: seq<Column>, name: string, merged: Column)
    requires columns != [] && columns[|columns| - 1].name != name
    requires var init := columns[..|columns| - 1];
             && FlagsMerged(init, name, merged) && KindMerged(init, name, merged.ty.kind)
             && LengthMerged(init, name, merged.ty.maxLength)
    ensures FlagsMerged(columns, name, merged) && KindMerged(columns, name, merged.ty.kind)
    ensures LengthMerged(columns, name, merged.ty.maxLength)
  {
    var init := columns[..|columns| - 1];
    forall i | 0 <= i < |init| ensures columns[i] == init[i] {}
    OtherFlags(columns, name, merged);
    OtherLength(columns, name, merged.ty.maxLength);
  }

  lemma {:induction false} OtherFlags(columns: seq<Column>, name: string, merged: Column)
    requires columns != [] && columns[|columns| - 1].name != name
    requires FlagsMerged(columns[..|columns| - 1], name, merged)
    ensures FlagsMerged(columns, name, merged)
  {
    var init := columns[..|columns| - 1];
    if i :| 0 <= i < |init| && init[i].name == name && init[i].nullable { assert columns[i].nullable; }
    if i :| 0 <= i < |init| && init[i].name == name && init[i].isPrimaryKey { assert columns[i].isPrimaryKey; }
    if i :| 0 <= i < |columns| && columns[i].name == name && columns[i].nullable { assert init[i].nullable; }
    if i :| 0 <= i < |columns| && columns[i].name == name && columns[i].isPrimaryKey { assert init[i].isPrimaryKey; }
  }

  lemma {:induction false} OtherLength(columns: seq<Column>, name: string, length: int)
    requires columns != [] && columns[|columns| - 1].name != name
    requires LengthMerged(columns[..|columns| - 1], name, length)
    ensures LengthMerged(columns, name, length)
  {
    var init := columns[..|columns| - 1];
    if i :| 0 <= i < |init| && init[i].name == name && init[i].ty.maxLength == length { assert columns[i] == init[i]; }
    if i :| 0 <= i < |init| && init[i].name == name && init[i].ty.maxLength <= 0 { assert columns[i] == init[i]; }
  }

  lemma {:induction false} MoreFlags(columns: seq<Column>, name: string, before: Column)
    requires columns != [] && columns[|columns| - 1].name == name
    requires FlagsMerged(columns[..|columns| - 1], name, before)
    ensures FlagsMerged(columns, name, MergeSchemaColumns(before, columns[|columns| - 1]))
  {
    var n := |columns| - 1;
    var init := columns[..n];
    if i :| 0 <= i < |init| && init[i].name == name && init[i].nullable { assert columns[i].nullable; }
    if i :| 0 <= i < |init| && init[i].name == name && init[i].isPrimaryKey { assert columns[i].isPrimaryKey; }
    if i :| 0 <= i < |columns| && columns[i].name == name && columns[i].nullable {
      assert i < n ==> init[i].nullable;
    }
    if i :| 0 <= i < |columns| && columns[i].name == name && columns[i].isPrimaryKey {
      assert i < n ==> init[i].isPrimaryKey;
    }
  }

  lemma {:induction false} MoreLength(columns: seq<Column>, name: string, before: Column)
    requires columns != [] && columns[|columns| - 1].name == name
    requires LengthMerged(columns[..|columns| - 1], name, before.ty.maxLength)
    ensures LengthMerged(columns, name, MergeSchemaColumns(before, columns[|columns| - 1]).ty.maxLength)
  {
    var n := |columns| - 1;
    var init, last, length := columns[..n], columns[n].ty.maxLength, before.ty.maxLength;
    if i :| 0 <= i < n && init[i].name == name && init[i].ty.maxLength == length { assert columns[i] == init[i]; }
    if i :| 0 <= i < n && init[i].name == name && init[i].ty.maxLength <= 0 { assert columns[i] == init[i]; }
    assert columns[n].ty.maxLength == last;
  }

  /** One more known kind. */
  lemma {:induction false} KindAfter(was: DataType, before: DataType, next: DataType)
    requires was != Unknown && before != Unknown && next != Unknown
    requires CanWiden(was, before) <==> !(was == Float32 && before == Decimal)
    ensures var kind := GetWidenedType(before, next);
            CanWiden(was, kind) <==> !(was == Float32 && kind == Decimal)
  {
    var kind := GetWidenedType(before, next);
    WidenedIsUpperBound(before, next);
    if CanWiden(was, before) {
      CanWidenTransitiveExactly(was, before, kind);
    }
    if was == Float32 { FloatPaths(before, kind); }
  }

  lemma {:induction false} FloatPaths(before: DataType, kind: DataType)
    ensures !CanWiden(Float32, Decimal)
    ensures CanWiden(Float32, before) && CanWiden(before, Decimal) ==> before == Float64
    ensures CanWiden(Decimal, kind) && kind != Decimal ==> CanWiden(Float32, kind)
  {
  }

  lemma {:induction false} MoreKinds(columns: seq<Column>, name: string, before: Column)
    requires columns != [] && columns[|columns| - 1].name == name
    requires KindMerged(columns[..|columns| - 1], name, before.ty.kind)
    ensures KindMerged(columns, name, MergeSchemaColumns(before, columns[|columns| - 1]).ty.kind)
  {
    var n := |columns| - 1;
    var init, next, was := columns[..n], columns[n].ty.kind, before.ty.kind;
    var kind := MergeSchemaColumns(before, columns[n]).ty.kind;
    forall i | 0 <= i < n ensures columns[i] == init[i] {}
    KnownMerge(was, next);
    if !Unknowns(init, name) {
      var i :| 0 <= i < n && init[i].name == name && init[i].ty.kind != Unknown;
      assert columns[i].ty.kind != Unknown;
    }
    if next != Unknown { assert !Unknowns(columns, name); }
    forall i | 0 <= i < |columns| && columns[i].name == name && columns[i].ty.kind != Unknown
      ensures CanWiden(columns[i].ty.kind, kind) <==> !(columns[i].ty.kind == Float32 && kind == Decimal)
    {
      if i < n {
        assert init[i] == columns[i];
        if next != Unknown { KindAfter(columns[i].ty.kind, was, next); }
      } else if was != Unknown {
        WidenedIsUpperBound(was, next);
        FloatPaths(was, kind);
      }
    }
  }

  lemma {:induction false} KnownMerge(a: DataType, b: DataType)
    ensures a != Unknown && b != Unknown ==> GetWidenedType(a, b) != Unknown
  {
  }

  lemma {:induction false} NamedMerged(columns: seq<Column>, name: string)
    requires MergeNamed(columns, name).Some?
    ensures var merged := MergeNamed(columns, name).value;
            && FlagsMerged(columns, name, merged) && KindMerged(columns, name, merged.ty.kind)
            && LengthMerged(columns, name, merged.ty.maxLength)
  {
    var n := |columns| - 1;
    var init, last := columns[..n], columns[n];
    var before := MergeNamed(init, name);
    MergeNamedName(init, name);
    if before.Some? { NamedMerged(init, name); }
    if last.name != name {
      OtherName(columns, name, before.value);
    } else if before.None? {
      forall j | 0 <= j < n ensures columns[j].name != name { assert Names(init)[j] == columns[j].name; }
      OneColumn(columns, name, n);
    } else {
      MoreFlags(columns, name, before.value);
      MoreKinds(columns, name, before.value);
      MoreLength(columns, name, before.value);
    }
  }

  /**
   A merged column allows null, and is a key, exactly when one of the columns of its name does; its
   kind takes in each of theirs that is known, Float32 excepted where it became Decimal;
   its length is the longest, or unbounded if one is.
   */
  lemma {:induction false} MergedColumnExactly(columns: seq<Column>, k: nat)
    requires k < |Merged(columns)|
    ensures var merged := Merged(columns)[k];
            && FlagsMerged(columns, merged.name, merged) && KindMerged(columns, merged.name, merged.ty.kind)
            && LengthMerged(columns, merged.name, merged.ty.maxLength)
  {
    MergedIsDeduped(columns);
    NamedMerged(columns, Merged(columns)[k].name);
  }

  lemma {:induction false} MergedNext(columns: seq<Column>, merged: Column, next: Column)
    requires Merged(columns) == [merged] && merged.name == next.name
    ensures Merged(columns + [next]) == [MergeSchemaColumns(merged, next)]
  {
    assert (columns + [next])[..|columns|] == columns;
    assert IndexOfName([merged], next.name) == 0;
  }

  lemma {:induction false} MergedThree(columns: seq<Column>)
    requires |columns| == 3 && columns[0].name == columns[1].name == columns[2].name
    ensures Merged(columns) == [MergeSchemaColumns(MergeSchemaColumns(columns[0], columns[1]), columns[2])]
  {
    var one := [columns[0]];
    var two := one + [columns[1]];
    MergedFew(one);
    MergedNext(one, columns[0], columns[1]);
    MergedNext(two, MergeSchemaColumns(columns[0], columns[1]), columns[2]);
    assert columns == two + [columns[2]];
  }

  lemma {:induction false} KindOfPair(a: Column, b: Column)
    requires a.ty.kind != Unknown && b.ty.kind != Unknown
    ensures MergeSchemaColumns(a, b).ty.kind == GetWidenedType(a.ty.kind, b.ty.kind)
  {
  }

  lemma {:induction false} FloatKinds()
    ensures GetWidenedType(Float32, Float64) == Float64 && GetWidenedType(Float64, Decimal) == Decimal
    ensures !CanWiden(Float32, Decimal)
  {
  }

  lemma {:induction false} FloatsMerge(a: Column, b: Column, c: Column)
    requires a.ty.kind == Float32 && b.ty.kind == Float64 && c.ty.kind == Decimal
    ensures MergeSchemaColumns(MergeSchemaColumns(a, b), c).ty.kind == Decimal
  {
    var two := MergeSchemaColumns(a, b);
    FloatKinds();
    KindOfPair(a, b);
    KindOfPair(two, c);
  }

  /** Both floats and a decimal of one name become a decimal, which Float32 does not widen to. */
  lemma {:induction false} FloatsBecomeDecimal(columns: seq<Column>, merged: seq<Column>)
    requires |columns| == 3 && columns[0].name == columns[1].name == columns[2].name
    requires columns[0].ty.kind == Float32 && columns[1].ty.kind == Float64 && columns[2].ty.kind == Decimal
    requires merged == Merged(columns)
    ensures |merged| == 1 && merged[0].ty.kind == Decimal && !CanWiden(Float32, Decimal)
  {
    MergedThree(columns);
    FloatsMerge(columns[0], columns[1], columns[2]);
    FloatKinds();
  }

  // ---------------------------------------------------------------------------
  // Sizes and elements
  // ---------------------------------------------------------------------------

  ghost predicate SpecifiedDecimals(columns: seq<Column>, name: string) {
    forall i :: 0 <= i < |columns| && columns[i].name == name ==>
      columns[i].ty.kind == Decimal && columns[i].ty.precision > 0
  }

  ghost predicate Arrays(columns: seq<Column>, name: string) {
    forall i :: 0 <= i < |columns| && columns[i].name == name ==>
      columns[i].ty.kind == Array && columns[i].ty.element != Unknown
  }

  /** The most digits before the point and the most after it of any of the decimals. */
  ghost predicate DigitsMerged(columns: seq<Column>, name: string, t: ColumnType) {
    && t.kind == Decimal && t.precision > 0
    && (forall i :: 0 <= i < |columns| && columns[i].name == name ==>
          columns[i].ty.precision - columns[i].ty.scale <= t.precision - t.scale && columns[i].ty.scale <= t.scale)
    && (exists i :: 0 <= i < |columns| && columns[i].name == name && columns[i].ty.scale == t.scale)
    && (exists i :: 0 <= i < |columns| && columns[i].name == name
          && columns[i].ty.precision - columns[i].ty.scale == t.precision - t.scale)
  }

  /** An element type that takes in those of all the arrays, with the same exception. */
  ghost predicate ElementsMerged(columns: seq<Column>, name: string, t: ColumnType) {
    && t.kind == Array && t.element != Unknown
    && forall i :: 0 <= i < |columns| && columns[i].name == name ==>
         (CanWiden(columns[i].ty.element, t.element) <==> !(columns[i].ty.element == Float32 && t.element == Decimal))
  }

  lemma {:induction false} MoreDigits(columns: seq<Column>, name: string, before: Column)
    requires columns != [] && columns[|columns| - 1].name == name && SpecifiedDecimals(columns, name)
    requires DigitsMerged(columns[..|columns| - 1], name, before.ty)
    ensures DigitsMerged(columns, name, MergeSchemaColumns(before, columns[|columns| - 1]).ty)
  {
    var n := |columns| - 1;
    var init, last := columns[..n], columns[n].ty;
    var t := before.ty;
    MergeKeepsBothParts(Shape(t.precision, t.scale), Shape(last.precision, last.scale));
    var i :| 0 <= i < n && init[i].name == name && init[i].ty.scale == t.scale;
    var j :| 0 <= j < n && init[j].name == name && init[j].ty.precision - init[j].ty.scale == t.precision - t.scale;
    assert columns[i] == init[i] && columns[j] == init[j];
  }

  lemma {:induction false} OtherDigits(columns: seq<Column>, name: string, t: ColumnType)
    requires columns != [] && columns[|columns| - 1].name != name
    requires DigitsMerged(columns[..|columns| - 1], name, t)
    ensures DigitsMerged(columns, name, t)
  {
    var n := |columns| - 1;
    var init := columns[..n];
    var i :| 0 <= i < n && init[i].name == name && init[i].ty.scale == t.scale;
    var j :| 0 <= j < n && init[j].name == name && init[j].ty.precision - init[j].ty.scale == t.precision - t.scale;
    assert columns[i] == init[i] && columns[j] == init[j];
  }

  lemma {:induction false} MoreElements(columns: seq<Column>, name: string, before: Column)
    requires columns != [] && columns[|columns| - 1].name == name && Arrays(columns, name)
    requires ElementsMerged(columns[..|columns| - 1], name, before.ty)
    ensures ElementsMerged(columns, name, MergeSchemaColumns(before, columns[|columns| - 1]).ty)
  {
    var n := |columns| - 1;
    var init, was, next := columns[..n], before.ty.element, columns[n].ty.element;
    var element := MergeSchemaColumns(before, columns[n]).ty.element;
    assert element == GetWidenedType(was, next);
    KnownMerge(was, next);
    forall i | 0 <= i < |columns| && columns[i].name == name
      ensures CanWiden(columns[i].ty.element, element) <==> !(columns[i].ty.element == Float32 && element == Decimal)
    {
      if i < n {
        assert init[i] == columns[i];
        KindAfter(columns[i].ty.element, was, next);
      } else {
        WidenedIsUpperBound(was, next);
        FloatPaths(was, element);
      }
    }
  }

  lemma {:induction false} NamedDigits(columns: seq<Column>, name: string)
    requires MergeNamed(columns, name).Some? && SpecifiedDecimals(columns, name)
    ensures DigitsMerged(columns, name, MergeNamed(columns, name).value.ty)
  {
    var n := |columns| - 1;
    var init := columns[..n];
    var before := MergeNamed(init, name);
    assert SpecifiedDecimals(init, name) by { assert forall j :: 0 <= j < n ==> init[j] == columns[j]; }
    MergeNamedName(init, name);
    if before.Some? { NamedDigits(init, name); }
    if columns[n].name != name {
      OtherDigits(columns, name, before.value.ty);
    } else if before.None? {
      forall j | 0 <= j < n ensures columns[j].name != name { assert Names(init)[j] == columns[j].name; }
    } else {
      MoreDigits(columns, name, before.value);
    }
  }

  lemma {:induction false} NamedElements(columns: seq<Column>, name: string)
    requires MergeNamed(columns, name).Some? && Arrays(columns, name)
    ensures ElementsMerged(columns, name, MergeNamed(columns, name).value.ty)
  {
    var n := |columns| - 1;
    var init := columns[..n];
    var before := MergeNamed(init, name);
    assert Arrays(init, name) by { assert forall j :: 0 <= j < n ==> init[j] == columns[j]; }
    MergeNamedName(init, name);
    if before.Some? { NamedElements(init, name); }
    if columns[n].name != name {
      forall i | 0 <= i < |columns| && columns[i].name == name ensures columns[i] == init[i] {}
    } else if before.None? {
      forall j | 0 <= j < n ensures columns[j].name != name { assert Names(init)[j] == columns[j].name; }
      FloatPaths(Float32, Decimal);
    } else {
      MoreElements(columns, name, before.value);
    }
  }

  /** Decimals of stated precision merge to the largest integer part and scale; arrays by their elements. */
  lemma {:induction false} MergedSizes(columns: seq<Column>, k: nat)
    requires k < |Merged(columns)|
    ensures var merged := Merged(columns)[k];
            && (SpecifiedDecimals(columns, merged.name) ==> DigitsMerged(columns, merged.name, merged.ty))
            && (Arrays(columns, merged.name) ==> ElementsMerged(columns, merged.name, merged.ty))
  {
    var name := Merged(columns)[k].name;
    MergedIsDeduped(columns);
    if SpecifiedDecimals(columns, name) { NamedDigits(columns, name); }
    if Arrays(columns, name) { NamedElements(columns, name); }
  }

  // ---------------------------------------------------------------------------
  // The keys of a renamed table
  // ---------------------------------------------------------------------------

  lemma {:induction false} RenamedKeys(renames: Renames, t: Table, key: string)
    ensures key in RenamedTable(renames, t).primaryKeys
       <==> exists o :: o in t.primaryKeys && key == Apply(renames, o)
  {
    if renames == map[] {
      assert forall o :: o in t.primaryKeys ==> Apply(renames, o) == o;
    } else {
      DedupeKeeps(ApplyAll(renames, t.primaryKeys));
      InApplied(renames, t.primaryKeys, key);
    }
  }

  /**
   The keys are those given for the table, renamed by the composed map; if none are given, those
   of its schema, renamed in the same way.
   */
  lemma {:induction false} KeysAreImages(
    rules: Rules, direct: bool, t: Table, tableKeys: seq<string>, key: string)
    requires Settled(rules, direct, Names(t.columns))
    ensures key in FinalKeys(rules, direct, t, tableKeys)
       <==> exists o :: o in (if tableKeys != [] then tableKeys else t.primaryKeys)
              && key == Apply(CombinedMap(rules, direct, t), o)
  {
    var combined := CombinedMap(rules, direct, t);
    DedupeKeeps(ApplyAll(combined, tableKeys));
    InApplied(combined, tableKeys, key);
    if tableKeys != [] {
      assert ApplyAll(combined, tableKeys)[0] in ApplyAll(combined, tableKeys);
    } else {
      assert ApplyAll(combined, tableKeys) == [];
      SchemaKeys(rules, direct, t, key);
    }
  }

  lemma {:induction false} SchemaKeys(rules: Rules, direct: bool, t: Table, key: string)
    requires Settled(rules, direct, Names(t.columns))
    ensures key in RenamedTwice(rules, direct, t).primaryKeys
       <==> exists o :: o in t.primaryKeys && key == Apply(CombinedMap(rules, direct, t), o)
  {
    var first, second := FirstMap(rules, direct, t), SecondMap(rules, direct, t);
    var middle := RenamedTable(first, t);
    TwiceIsCombined(rules, direct, t);
    RenamedKeys(second, middle, key);
    forall m ensures m in middle.primaryKeys <==> exists o :: o in t.primaryKeys && m == Apply(first, o) {
      RenamedKeys(first, t, m);
    }
    if o :| o in t.primaryKeys && key == Apply(CombinedMap(rules, direct, t), o) {
      assert Apply(first, o) in middle.primaryKeys;
    }
  }

  /** With any keys at all, a column is marked exactly when it is one of them but for case. */
  lemma {:induction false} MarkedExactly(t: Table, i: nat)
    requires i < |t.columns|
    ensures |MarkedTable(t).columns| == |t.columns|
    ensures MarkedTable(t).columns[i].isPrimaryKey <==>
              if t.primaryKeys == [] then t.columns[i].isPrimaryKey
              else exists k :: 0 <= k < |t.primaryKeys| && Lower(t.primaryKeys[k]) == Lower(t.columns[i].name)
  {
  }
}
