/** Renaming the columns of a table: a naming convention, then shortening, in one composed map. */
module ColumnRename {
  import opened Wrappers
  import opened SchemaTypes
  import opened Widening
  import opened SchemaCompare
  import opened SnakeCaseNaming
  import opened SnakeCaseProofs

  /** `isMeta` are the reserved CDC columns, which are never renamed. */
  datatype Rules = Rules(normalize: string -> string, shorten: string -> string, isMeta: string -> bool)

  type Renames = map<string, string>

  function Apply(renames: Renames, name: string): string {
    if name in renames then renames[name] else name
  }

  function ApplyAll(renames: Renames, names: seq<string>): seq<string> {
    seq(|names|, i requires 0 <= i < |names| => Apply(renames, names[i]))
  }

  /** First occurrences, in order. */
  function Dedupe(names: seq<string>): seq<string> {
    if names == [] then []
    else
      var init, last := Dedupe(names[..|names| - 1]), names[|names| - 1];
      if last in init then init else init + [last]
  }

  // ---------------------------------------------------------------------------
  // The two maps
  // ---------------------------------------------------------------------------

  function NamingMap(rules: Rules, names: seq<string>): Renames {
    map n | n in names && !rules.isMeta(n) && rules.normalize(n) != n :: rules.normalize(n)
  }

  function ShorteningMap(rules: Rules, names: seq<string>): Renames {
    map n | n in names && !rules.isMeta(n) && rules.shorten(n) != n :: rules.shorten(n)
  }

  /** The second map wins where both have an entry. */
  function Composed(first: Renames, second: Renames): Renames {
    map n | n in first.Keys + second.Keys :: if n in second then second[n] else Apply(second, first[n])
  }

  /** The program's two loops over the maps, in whatever order their entries come. */
  method ComposeColumnMappings(first: Renames, second: Renames) returns (combined: Renames)
    ensures combined == Composed(first, second)
  {
    combined := FollowFirst(first, second);
    var left := second.Keys;
    while left != {}
      invariant left <= second.Keys && combined.Keys == first.Keys + (second.Keys - left)
      invariant forall n :: n in combined && n !in second ==> combined[n] == Apply(second, first[n])
      invariant forall n :: n in second && n !in left ==> combined[n] == second[n]
      decreases left
    {
      var sourceName :| sourceName in left;
      left := left - {sourceName};
      combined := combined[sourceName := second[sourceName]];
    }
  }

  method FollowFirst(first: Renames, second: Renames) returns (combined: Renames)
    ensures combined.Keys == first.Keys
    ensures forall n :: n in first ==> combined[n] == Apply(second, first[n])
  {
    combined := map[];
    var left := first.Keys;
    while left != {}
      invariant left <= first.Keys && combined.Keys == first.Keys - left
      invariant forall n :: n in combined ==> combined[n] == Apply(second, first[n])
      decreases left
    {
      var sourceName :| sourceName in left;
      left := left - {sourceName};
      if first[sourceName] in second {
        combined := combined[sourceName := second[first[sourceName]]];
      } else {
        combined := combined[sourceName := first[sourceName]];
      }
    }
  }

  /** Keeps the first occurrences, writing over the slice it reads. */
  method DedupePreservingOrder(values: array<string>) returns (n: nat)
    modifies values
    ensures n <= values.Length && values[..n] == Dedupe(old(values[..]))
  {
    ghost var was := values[..];
    if values.Length < 2 {
      assert values.Length == 1 ==> was[..0] == [];
      return values.Length;
    }
    var seen: set<string> := {};
    n := 0;
    for i := 0 to values.Length
      invariant n <= i
      invariant values[..n] == Dedupe(was[..i])
      invariant forall k :: i <= k < values.Length ==> values[k] == was[k]
      invariant forall v :: v in seen <==> v in values[..n]
    {
      assert was[..i + 1][..i] == was[..i];
      var value := values[i];
      if value in seen {
        continue;
      }
      seen := seen + {value};
      ghost var kept := values[..n];
      values[n] := value;
      n := n + 1;
      assert values[..n] == kept + [value];
    }
    assert was[..|was|] == was;
  }

  method MapColumnNames(columns: seq<string>, mapping: Renames) returns (names: seq<string>)
    ensures names == Dedupe(ApplyAll(mapping, columns))
  {
    var mapped := new string[|columns|];
    for i := 0 to |columns|
      invariant forall k :: 0 <= k < i ==> mapped[k] == Apply(mapping, columns[k])
    {
      mapped[i] := columns[i];
      if columns[i] in mapping {
        mapped[i] := mapping[columns[i]];
      }
    }
    assert mapped[..] == ApplyAll(mapping, columns);
    var n := DedupePreservingOrder(mapped);
    names := mapped[..n];
  }

  // ---------------------------------------------------------------------------
  // Columns that end up with one name are merged
  // ---------------------------------------------------------------------------

  /** The decimal merge is applied to the shapes as they are, an unspecified one included. */
  function MergeSchemaColumns(existing: Column, next: Column): Column {
    var e, n := existing.ty, next.ty;
    var kind :=
      if e.kind == Unknown then n.kind else if n.kind == Unknown then e.kind
      else GetWidenedType(e.kind, n.kind);
    var shape :=
      if kind == Decimal
      then MergeDecimalPrecision(Shape(e.precision, e.scale), Shape(n.precision, n.scale)) else Shape(0, 0);
    var element :=
      if kind != Array then Unknown
      else if e.element == n.element then e.element
      else GetWidenedType(e.element, n.element);
    existing.(
      ty := ColumnType(kind, shape.precision, shape.scale, WidenedStringLength(e.maxLength, n.maxLength), element),
      nullable := existing.nullable || next.nullable,
      isPrimaryKey := existing.isPrimaryKey || next.isPrimaryKey)
  }

  function Names(columns: seq<Column>): seq<string> {
    seq(|columns|, i requires 0 <= i < |columns| => columns[i].name)
  }

  /** All columns of one name merged, from the first on. */
  ghost function MergeNamed(columns: seq<Column>, name: string): Option<Column> {
    if columns == [] then None
    else
      var before, last := MergeNamed(columns[..|columns| - 1], name), columns[|columns| - 1];
      if last.name != name then before
      else if before.None? then Some(last)
      else Some(MergeSchemaColumns(before.value, last))
  }

  lemma {:induction false} MergeNamedName(columns: seq<Column>, name: string)
    ensures MergeNamed(columns, name).Some? <==> name in Names(columns)
    ensures MergeNamed(columns, name).Some? ==> MergeNamed(columns, name).value.name == name
  {
    if columns != [] {
      var init, last := columns[..|columns| - 1], columns[|columns| - 1];
      MergeNamedName(init, name);
      assert Names(columns) == Names(init) + [last.name];
    }
  }

  /** Where the column of that name is, or the length. */
  function IndexOfName(columns: seq<Column>, name: string): (i: nat)
    ensures i <= |columns| && (i < |columns| ==> columns[i].name == name)
    ensures forall k :: 0 <= k < i ==> columns[k].name != name
  {
    if columns == [] || columns[0].name == name then 0 else 1 + IndexOfName(columns[1..], name)
  }

  function MergeIn(merged: seq<Column>, col: Column): seq<Column> {
    var i := IndexOfName(merged, col.name);
    if i < |merged| then merged[i := MergeSchemaColumns(merged[i], col)] else merged + [col]
  }

  function Merged(columns: seq<Column>): seq<Column> {
    if columns == [] then [] else MergeIn(Merged(columns[..|columns| - 1]), columns[|columns| - 1])
  }

  /** What the index map knows: the one place of each name. */
  ghost predicate Indexes(indexByName: map<string, nat>, merged: seq<Column>) {
    && (forall k :: 0 <= k < |merged| ==> merged[k].name in indexByName && indexByName[merged[k].name] == k)
    && (forall name :: name in indexByName ==>
          indexByName[name] < |merged| && merged[indexByName[name]].name == name)
  }

  lemma {:induction false} IndexIs(indexByName: map<string, nat>, merged: seq<Column>, name: string)
    requires Indexes(indexByName, merged)
    ensures IndexOfName(merged, name) == if name in indexByName then indexByName[name] else |merged|
  {
    var i := IndexOfName(merged, name);
    if i < |merged| { assert indexByName[merged[i].name] == i; }
  }

  lemma {:induction false} IndexesAfter(indexByName: map<string, nat>, merged: seq<Column>, col: Column)
    requires Indexes(indexByName, merged)
    ensures col.name in indexByName ==>
              MergeIn(merged, col) == merged[indexByName[col.name] :=
                                             MergeSchemaColumns(merged[indexByName[col.name]], col)]
              && Indexes(indexByName, MergeIn(merged, col))
    ensures col.name !in indexByName ==>
              MergeIn(merged, col) == merged + [col]
              && Indexes(indexByName[col.name := |merged|], MergeIn(merged, col))
  {
    IndexIs(indexByName, merged, col.name);
  }

  method DedupeMappedColumns(columns: seq<Column>) returns (merged: seq<Column>)
    ensures merged == Merged(columns)
  {
    if |columns| < 2 {
      MergedFew(columns);
      return columns;
    }
    merged := [];
    var indexByName: map<string, nat> := map[];
    for i := 0 to |columns|
      invariant merged == Merged(columns[..i]) && Indexes(indexByName, merged)
    {
      var col := columns[i];
      assert columns[..i + 1][..i] == columns[..i];
      IndexesAfter(indexByName, merged, col);
      if col.name in indexByName {
        var idx := indexByName[col.name];
        merged := merged[idx := MergeSchemaColumns(merged[idx], col)];
        continue;
      }
      indexByName := indexByName[col.name := |merged|];
      merged := merged + [col];
    }
    assert columns[..|columns|] == columns;
  }

  lemma {:induction false} MergedFew(columns: seq<Column>)
    requires |columns| < 2
    ensures Merged(columns) == columns
  {
    if |columns| == 1 {
      assert columns[..0] == [];
      assert Merged([]) == [];
    }
  }

  /** One column per name, in the order of first occurrence, holding all columns of that name. */
  ghost predicate IsDeduped(columns: seq<Column>, merged: seq<Column>) {
    && Names(merged) == Dedupe(Names(columns))
    && forall k :: 0 <= k < |merged| ==> MergeNamed(columns, merged[k].name) == Some(merged[k])
  }

  lemma {:induction false} AddDistinct(columns: seq<Column>, merged: seq<Column>, col: Column)
    requires IsDeduped(columns, merged) && col.name !in Names(merged)
    ensures IsDeduped(columns + [col], merged + [col])
  {
    var all, more := columns + [col], merged + [col];
    assert all[..|columns|] == columns;
    assert Names(all) == Names(columns) + [col.name] && Names(all)[..|columns|] == Names(columns);
    assert Names(more) == Names(merged) + [col.name];
    DedupeKeeps(Names(columns));
    MergeNamedName(columns, col.name);
    forall k | 0 <= k < |more| ensures MergeNamed(all, more[k].name) == Some(more[k]) {
      if k < |merged| { assert Names(merged)[k] == merged[k].name; }
    }
  }

  lemma {:induction false} MergeInto(columns: seq<Column>, merged: seq<Column>, col: Column, idx: nat)
    requires IsDeduped(columns, merged) && idx < |merged| && merged[idx].name == col.name
    requires Distinct(Names(merged))
    ensures IsDeduped(columns + [col], merged[idx := MergeSchemaColumns(merged[idx], col)])
  {
    var all, more := columns + [col], merged[idx := MergeSchemaColumns(merged[idx], col)];
    assert all[..|columns|] == columns;
    assert Names(all) == Names(columns) + [col.name] && Names(all)[..|columns|] == Names(columns);
    assert Names(more) == Names(merged);
    assert Names(merged)[idx] == col.name;
    forall k | 0 <= k < |more| && k != idx ensures more[k].name != col.name {
      assert Names(merged)[k] != Names(merged)[idx];
    }
  }

  lemma {:induction false} MergedIsDeduped(columns: seq<Column>)
    ensures IsDeduped(columns, Merged(columns))
  {
    if columns != [] {
      var n := |columns| - 1;
      var init, last := columns[..n], columns[n];
      var merged := Merged(init);
      MergedIsDeduped(init);
      DedupeKeeps(Names(init));
      assert columns == init + [last];
      var i := IndexOfName(merged, last.name);
      if i < |merged| { MergeInto(init, merged, last, i); } else { AddDistinct(init, merged, last); }
    }
  }

  // ---------------------------------------------------------------------------
  // Dedupe
  // ---------------------------------------------------------------------------

  ghost predicate Distinct(names: seq<string>) {
    forall i, j :: 0 <= i < j < |names| ==> names[i] != names[j]
  }

  lemma {:induction false} DedupeKeeps(names: seq<string>)
    ensures Distinct(Dedupe(names))
    ensures forall n :: n in Dedupe(names) <==> n in names
  {
    if names != [] {
      var init, last := names[..|names| - 1], names[|names| - 1];
      DedupeKeeps(init);
      assert names == init + [last];
    }
  }

  lemma {:induction false} DedupeDistinct(names: seq<string>)
    requires Distinct(names)
    ensures Dedupe(names) == names
  {
    if names != [] {
      var init, last := names[..|names| - 1], names[|names| - 1];
      DedupeDistinct(init);
      assert names == init + [last] && last !in init;
    }
  }

  /** Position of the first occurrence. */
  ghost function FirstIndex(names: seq<string>, name: string): (i: nat)
    requires name in names
    ensures i < |names| && names[i] == name && name !in names[..i]
  {
    if name in names[..|names| - 1] then
      var i := FirstIndex(names[..|names| - 1], name);
      assert names[..|names| - 1][..i] == names[..i];
      i
    else |names| - 1
  }

  /** The order of the result is the order of the first occurrences. */
  lemma {:induction false} DedupeOrder(names: seq<string>, i: nat, j: nat)
    requires i < j < |Dedupe(names)|
    ensures Dedupe(names)[i] in names && Dedupe(names)[j] in names
    ensures FirstIndex(names, Dedupe(names)[i]) < FirstIndex(names, Dedupe(names)[j])
  {
    DedupeKeeps(names);
    var init, last := names[..|names| - 1], names[|names| - 1];
    DedupeKeeps(init);
    if j < |Dedupe(init)| { DedupeOrder(init, i, j); }
  }

  /** Deduplicating before mapping makes no difference after mapping. */
  lemma {:induction false} DedupeMapDedupe(renames: Renames, names: seq<string>)
    ensures Dedupe(ApplyAll(renames, Dedupe(names))) == Dedupe(ApplyAll(renames, names))
  {
    if names != [] {
      var init, last := names[..|names| - 1], names[|names| - 1];
      DedupeMapDedupe(renames, init);
      assert ApplyAll(renames, names)[..|init|] == ApplyAll(renames, init);
      var before := Dedupe(init);
      if last in before {
        DedupeKeeps(ApplyAll(renames, before));
        var k :| 0 <= k < |before| && before[k] == last;
        assert ApplyAll(renames, before)[k] == Apply(renames, last);
      } else {
        assert ApplyAll(renames, before + [last])[..|before|] == ApplyAll(renames, before);
      }
    }
  }

  // ---------------------------------------------------------------------------
  // The composition
  // ---------------------------------------------------------------------------

  /** What naming and shortening make of one column, one after the other. */
  function Normalized(rules: Rules, name: string): string {
    if rules.isMeta(name) then name else rules.normalize(name)
  }

  function Final(rules: Rules, name: string): string {
    var n := Normalized(rules, name);
    if rules.isMeta(n) then n else rules.shorten(n)
  }

  ghost predicate Idempotent(rules: Rules, names: seq<string>) {
    forall n :: n in names ==> rules.normalize(rules.normalize(n)) == rules.normalize(n)
  }

  lemma {:induction false} NormalizedNames(rules: Rules, names: seq<string>)
    ensures forall n :: n in ApplyAll(NamingMap(rules, names), names)
                    <==> exists o :: o in names && n == Normalized(rules, o)
  {
    var first := NamingMap(rules, names);
    var mapped := ApplyAll(first, names);
    forall n | n in mapped ensures exists o :: o in names && n == Normalized(rules, o) {
      var i :| 0 <= i < |mapped| && mapped[i] == n;
      assert names[i] in names;
    }
    forall o | o in names ensures Normalized(rules, o) in mapped {
      var i :| 0 <= i < |names| && names[i] == o;
      assert mapped[i] == Apply(first, o);
    }
  }

  /** No normalised name is renamed by the convention again, so the second map overwrites nothing. */
  lemma {:induction false} MapsAreDisjoint(rules: Rules, names: seq<string>)
    requires Idempotent(rules, names)
    ensures var first := NamingMap(rules, names);
            first.Keys !! ShorteningMap(rules, ApplyAll(first, names)).Keys
  {
    NormalizedNames(rules, names);
  }

  /** The composed map is the two maps one after the other, unless it overwrites an entry. */
  lemma {:induction false} ComposedAt(first: Renames, second: Renames, name: string)
    ensures Apply(Composed(first, second), name) == Apply(second, Apply(first, name))
       <==> (name in first && name in second ==> second[name] == Apply(second, first[name]))
  {
  }

  /** The composed map is naming followed by shortening on every column. */
  lemma {:induction false} ComposedIsBoth(rules: Rules, names: seq<string>, name: string)
    requires Idempotent(rules, names) && name in names
    ensures var first := NamingMap(rules, names);
            var second := ShorteningMap(rules, ApplyAll(first, names));
            Apply(Composed(first, second), name) == Apply(second, Apply(first, name)) == Final(rules, name)
  {
    var first := NamingMap(rules, names);
    MapsAreDisjoint(rules, names);
    ComposedAt(first, ShorteningMap(rules, ApplyAll(first, names)), name);
    NormalizedNames(rules, names);
    assert Normalized(rules, name) in ApplyAll(first, names);
  }

  // ---------------------------------------------------------------------------
  // A whole table
  // ---------------------------------------------------------------------------

  datatype Table = Table(
    columns: seq<Column>, primaryKeys: seq<string>, incrementalKey: string, partitionBy: string)

  function RenameColumns(renames: Renames, columns: seq<Column>): seq<Column> {
    seq(|columns|, i requires 0 <= i < |columns| => columns[i].(name := Apply(renames, columns[i].name)))
  }

  /** An empty map leaves the table alone, columns of one name included. */
  function RenamedTable(renames: Renames, t: Table): Table {
    if renames == map[] then t
    else
      Table(Merged(RenameColumns(renames, t.columns)), Dedupe(ApplyAll(renames, t.primaryKeys)),
            Apply(renames, t.incrementalKey), Apply(renames, t.partitionBy))
  }

  function MarkKeys(keys: set<string>, columns: seq<Column>): seq<Column> {
    seq(|columns|, i requires 0 <= i < |columns| =>
      columns[i].(isPrimaryKey := Lower(columns[i].name) in keys))
  }

  function MarkedTable(t: Table): Table {
    if t.primaryKeys == [] then t else t.(columns := MarkKeys(LowerSet(t.primaryKeys), t.columns))
  }

  class TableSchema {
    var columns: seq<Column>
    var primaryKeys: seq<string>
    var incrementalKey: string
    var partitionBy: string

    ghost function View(): Table
      reads this
    {
      Table(columns, primaryKeys, incrementalKey, partitionBy)
    }

    constructor Clone(from: TableSchema)
      ensures View() == from.View()
    {
      columns, primaryKeys := from.columns, from.primaryKeys;
      incrementalKey, partitionBy := from.incrementalKey, from.partitionBy;
    }

    method ApplyColumnMapping(mapping: Renames)
      modifies this
      ensures View() == RenamedTable(mapping, old(View()))
    {
      if mapping == map[] {
        return;
      }
      ghost var was := columns;
      for i := 0 to |columns|
        invariant |columns| == |was| && columns[i..] == was[i..]
        invariant columns[..i] == RenameColumns(mapping, was)[..i]
        invariant primaryKeys == old(primaryKeys)
        invariant incrementalKey == old(incrementalKey) && partitionBy == old(partitionBy)
      {
        assert columns[i..][0] == was[i..][0];
        if columns[i].name in mapping {
          columns := columns[i := columns[i].(name := mapping[columns[i].name])];
        }
      }
      assert columns == RenameColumns(mapping, was);
      columns := DedupeMappedColumns(columns);
      primaryKeys := MapColumnNames(primaryKeys, mapping);
      if incrementalKey in mapping {
        incrementalKey := mapping[incrementalKey];
      }
      if partitionBy in mapping {
        partitionBy := mapping[partitionBy];
      }
    }

    method MarkPrimaryKeyColumns()
      modifies this`columns
      ensures View() == MarkedTable(old(View()))
    {
      if |primaryKeys| == 0 {
        return;
      }
      var keys := LowerNames(primaryKeys);
      ghost var was := columns;
      for i := 0 to |columns|
        invariant |columns| == |was| && columns[i..] == was[i..]
        invariant columns[..i] == MarkKeys(keys, was)[..i]
      {
        assert columns[i..][0] == was[i..][0];
        columns := columns[i := columns[i].(isPrimaryKey := Lower(columns[i].name) in keys)];
      }
      assert columns == MarkKeys(keys, was);
    }
  }

  datatype RenameError = ReservedName(source: string, destination: string)

  /** A column that would become a reserved one is an error. */
  ghost predicate Reserves(rules: Rules, names: seq<string>) {
    exists n :: n in NamingMap(rules, names) && rules.isMeta(NamingMap(rules, names)[n])
  }

  method BuildNamingMapping(rules: Rules, columns: seq<Column>) returns (result: Result<Renames, RenameError>)
    ensures result.Err? <==> Reserves(rules, Names(columns))
    ensures result.Ok? ==> result.value == NamingMap(rules, Names(columns))
  {
    var mapping: Renames := map[];
    ghost var names := Names(columns);
    for i := 0 to |columns|
      invariant mapping == NamingMap(rules, names[..i])
      invariant forall n :: n in mapping ==> !rules.isMeta(mapping[n])
    {
      var sourceName, destinationName := columns[i].name, rules.normalize(columns[i].name);
      assert names[..i + 1] == names[..i] + [sourceName];
      if destinationName == sourceName || rules.isMeta(sourceName) {
        continue;
      }
      if rules.isMeta(destinationName) {
        assert sourceName == names[i] && sourceName in NamingMap(rules, names);
        return Err(ReservedName(sourceName, destinationName));
      }
      mapping := mapping[sourceName := destinationName];
    }
    assert names[..|names|] == names;
    return Ok(mapping);
  }

  method BuildShorteningMapping(rules: Rules, columns: seq<Column>) returns (mapping: Renames)
    ensures mapping == ShorteningMap(rules, Names(columns))
  {
    mapping := map[];
    ghost var names := Names(columns);
    for i := 0 to |columns|
      invariant mapping == ShorteningMap(rules, names[..i])
    {
      var name := columns[i].name;
      assert names[..i + 1] == names[..i] + [name];
      var shortened := rules.shorten(name);
      if shortened != name && !rules.isMeta(name) {
        mapping := mapping[name := shortened];
      }
    }
    assert names[..|names|] == names;
  }

  /** The two maps of a table; the direct convention has no first one. */
  ghost function FirstMap(rules: Rules, direct: bool, t: Table): Renames {
    if direct then map[] else NamingMap(rules, Names(t.columns))
  }

  ghost function SecondMap(rules: Rules, direct: bool, t: Table): Renames {
    ShorteningMap(rules, Names(RenamedTable(FirstMap(rules, direct, t), t).columns))
  }

  ghost function CombinedMap(rules: Rules, direct: bool, t: Table): Renames {
    Composed(FirstMap(rules, direct, t), SecondMap(rules, direct, t))
  }

  ghost function RenamedTwice(rules: Rules, direct: bool, t: Table): Table {
    RenamedTable(SecondMap(rules, direct, t), RenamedTable(FirstMap(rules, direct, t), t))
  }

  /** The table's own keys, renamed; those of the schema only if it has none. */
  ghost function FinalKeys(rules: Rules, direct: bool, t: Table, tableKeys: seq<string>): seq<string> {
    var mapped := Dedupe(ApplyAll(CombinedMap(rules, direct, t), tableKeys));
    if mapped == [] then RenamedTwice(rules, direct, t).primaryKeys else mapped
  }

  /** One table of many: a renamed copy of its schema, its keys and the map for its rows. */
  method NormalizeTable(rules: Rules, direct: bool, source: TableSchema, tableKeys: seq<string>)
    returns (error: Option<RenameError>, schema: TableSchema, primaryKeys: seq<string>, combined: Renames)
    ensures fresh(schema)
    ensures error.Some? <==> !direct && Reserves(rules, Names(source.columns))
    ensures error.None? ==>
              var t := source.View();
              && combined == CombinedMap(rules, direct, t)
              && primaryKeys == FinalKeys(rules, direct, t, tableKeys)
              && schema.View() == MarkedTable(RenamedTwice(rules, direct, t).(primaryKeys := primaryKeys))
  {
    schema := new TableSchema.Clone(source);
    error, primaryKeys, combined := None, [], map[];
    var namingMapping: Renames := map[];
    if !direct {
      var built := BuildNamingMapping(rules, source.columns);
      if built.Err? {
        error := Some(built.error);
        return;
      }
      namingMapping := built.value;
      schema.ApplyColumnMapping(namingMapping);
    }
    var shorteningMapping := BuildShorteningMapping(rules, schema.columns);
    schema.ApplyColumnMapping(shorteningMapping);
    combined := ComposeColumnMappings(namingMapping, shorteningMapping);
    primaryKeys := MapColumnNames(tableKeys, combined);
    if |primaryKeys| == 0 && |schema.primaryKeys| > 0 {
      primaryKeys := schema.primaryKeys;
    }
    schema.primaryKeys := primaryKeys;
    schema.MarkPrimaryKeyColumns();
  }

  // ---------------------------------------------------------------------------
  // What the renamed table looks like
  // ---------------------------------------------------------------------------

  lemma {:induction false} RenamedNames(renames: Renames, t: Table)
    ensures Names(RenamedTable(renames, t).columns)
         == if renames == map[] then Names(t.columns) else Dedupe(ApplyAll(renames, Names(t.columns)))
  {
    if renames != map[] {
      MergedIsDeduped(RenameColumns(renames, t.columns));
      assert Names(RenameColumns(renames, t.columns)) == ApplyAll(renames, Names(t.columns));
    }
  }

  lemma {:induction false} ApplyNothing(names: seq<string>)
    ensures ApplyAll(map[], names) == names
  {
  }

  /** The same names give the same shortening, however often and in whatever order they come. */
  lemma {:induction false} ShorteningOfSame(rules: Rules, a: seq<string>, b: seq<string>)
    requires forall n :: n in a <==> n in b
    ensures ShorteningMap(rules, a) == ShorteningMap(rules, b)
  {
  }

  lemma {:induction false} RenamedTwiceNames(rules: Rules, direct: bool, t: Table)
    ensures var first, second := FirstMap(rules, direct, t), SecondMap(rules, direct, t);
            && second == ShorteningMap(rules, ApplyAll(first, Names(t.columns)))
            && Names(RenamedTwice(rules, direct, t).columns)
               == if first == map[] && second == map[] then Names(t.columns)
                  else Dedupe(ApplyAll(second, ApplyAll(first, Names(t.columns))))
  {
    var names := Names(t.columns);
    var first, second := FirstMap(rules, direct, t), SecondMap(rules, direct, t);
    var middle := RenamedTable(first, t);
    RenamedNames(first, t);
    RenamedNames(second, middle);
    var once := ApplyAll(first, names);
    DedupeKeeps(once);
    ApplyNothing(names);
    ShorteningOfSame(rules, Names(middle.columns), once);
    if first != map[] {
      DedupeMapDedupe(second, once);
      ApplyNothing(Dedupe(once));
      DedupeDistinct(Dedupe(once));
      ApplyNothing(once);
    }
  }

  /** Both conventions leave a name alone that they have produced. */
  ghost predicate Settled(rules: Rules, direct: bool, names: seq<string>) {
    direct || Idempotent(rules, names)
  }

  ghost function FinalName(rules: Rules, direct: bool, name: string): string {
    if direct then (if rules.isMeta(name) then name else rules.shorten(name)) else Final(rules, name)
  }

  lemma {:induction false} TwiceIsCombined(rules: Rules, direct: bool, t: Table)
    requires Settled(rules, direct, Names(t.columns))
    ensures var first, second := FirstMap(rules, direct, t), SecondMap(rules, direct, t);
            && (forall n :: Apply(Composed(first, second), n) == Apply(second, Apply(first, n)))
            && (forall n :: n in Names(t.columns) ==> Apply(Composed(first, second), n) == FinalName(rules, direct, n))
  {
    var names := Names(t.columns);
    var first, second := FirstMap(rules, direct, t), SecondMap(rules, direct, t);
    RenamedTwiceNames(rules, direct, t);
    ApplyNothing(names);
    forall n ensures Apply(Composed(first, second), n) == Apply(second, Apply(first, n)) {
      if !direct { MapsAreDisjoint(rules, names); }
      ComposedAt(first, second, n);
    }
    forall n | n in names ensures Apply(Composed(first, second), n) == FinalName(rules, direct, n) {
      if !direct { ComposedIsBoth(rules, names, n); }
    }
  }

  lemma {:induction false} SameApplied(first: Renames, second: Renames, names: seq<string>)
    requires forall n :: Apply(Composed(first, second), n) == Apply(second, Apply(first, n))
    ensures ApplyAll(second, ApplyAll(first, names)) == ApplyAll(Composed(first, second), names)
  {
  }

  /**
   The renamed columns are those of the original mapped by the composed map, without repetitions
   and in the order of first occurrence; only when there is nothing to rename do repeated names
   stay. The single names of the schema are mapped the same way.
   */
  lemma {:induction false} RenamedSchemaIsImage(rules: Rules, direct: bool, t: Table)
    requires Settled(rules, direct, Names(t.columns))
    ensures var combined, last := CombinedMap(rules, direct, t), RenamedTwice(rules, direct, t);
            && Names(last.columns)
               == (if combined == map[] then Names(t.columns) else Dedupe(ApplyAll(combined, Names(t.columns))))
            && (Distinct(Names(last.columns)) <==> combined != map[] || Distinct(Names(t.columns)))
            && last.incrementalKey == Apply(combined, t.incrementalKey)
            && last.partitionBy == Apply(combined, t.partitionBy)
  {
    var names := Names(t.columns);
    var first, second := FirstMap(rules, direct, t), SecondMap(rules, direct, t);
    RenamedTwiceNames(rules, direct, t);
    TwiceIsCombined(rules, direct, t);
    SameApplied(first, second, names);
    assert Composed(first, second) == map[] <==> first == map[] && second == map[] by {
      if n :| n in first { assert n in Composed(first, second); }
      if n :| n in second { assert n in Composed(first, second); }
    }
    DedupeKeeps(ApplyAll(Composed(first, second), names));
  }

  lemma {:induction false} InApplied(renames: Renames, names: seq<string>, name: string)
    ensures name in ApplyAll(renames, names) <==> exists o :: o in names && name == Apply(renames, o)
  {
    var applied := ApplyAll(renames, names);
    if name in applied {
      var i :| 0 <= i < |applied| && applied[i] == name;
      assert names[i] in names;
    }
    if o :| o in names && name == Apply(renames, o) {
      var i :| 0 <= i < |names| && names[i] == o;
      assert applied[i] == name;
    }
  }

  lemma {:induction false} InRenamed(rules: Rules, direct: bool, t: Table, name: string)
    requires Settled(rules, direct, Names(t.columns))
    ensures name in Names(RenamedTwice(rules, direct, t).columns)
       <==> name in ApplyAll(CombinedMap(rules, direct, t), Names(t.columns))
  {
    RenamedSchemaIsImage(rules, direct, t);
    ApplyNothing(Names(t.columns));
    DedupeKeeps(ApplyAll(CombinedMap(rules, direct, t), Names(t.columns)));
  }

  /** The names of the renamed columns are the final names of the original ones, and no others. */
  lemma {:induction false} RenamedNamesAreFinal(rules: Rules, direct: bool, t: Table, name: string)
    requires Settled(rules, direct, Names(t.columns))
    ensures name in Names(RenamedTwice(rules, direct, t).columns)
       <==> exists o :: o in Names(t.columns) && name == FinalName(rules, direct, o)
  {
    TwiceIsCombined(rules, direct, t);
    InRenamed(rules, direct, t, name);
    InApplied(CombinedMap(rules, direct, t), Names(t.columns), name);
  }

  // ---------------------------------------------------------------------------
  // The conventions
  // ---------------------------------------------------------------------------

  /** Snake case leaves its own results alone, whatever they are shortened to. */
  lemma {:induction false} SnakeCaseSettles(
    a: Alphabet, shorten: string -> string, isMeta: string -> bool, names: seq<string>)
    requires a.Valid()
    ensures Settled(Rules(n => SnakeCase(a, n), shorten, isMeta), false, names)
  {
    forall n | n in names ensures SnakeCase(a, SnakeCase(a, n)) == SnakeCase(a, n) {
      SnakeCaseIsIdempotent(a, n);
    }
  }

  /** The direct convention renames nothing, so the composed map is the shortening alone. */
  lemma {:induction false} DirectIsShortening(rules: Rules, t: Table)
    ensures Settled(rules, true, Names(t.columns))
    ensures CombinedMap(rules, true, t) == ShorteningMap(rules, Names(t.columns))
  {
  }

  /** With a convention that renames its own results the second loop overwrites a right entry. */
  lemma {:induction false} IdempotenceIsNeeded()
    ensures var rules := Rules(
              n => if n == "a" then "b" else if n == "b" then "c" else n,
              n => if n == "b" then "s" else n, n => false);
            var first := NamingMap(rules, ["a", "b"]);
            var second := ShorteningMap(rules, ApplyAll(first, ["a", "b"]));
            Apply(Composed(first, second), "b") != Apply(second, Apply(first, "b"))
  {
    var rules := Rules(
      n => if n == "a" then "b" else if n == "b" then "c" else n,
      n => if n == "b" then "s" else n, n => false);
    var names := ["a", "b"];
    var first := NamingMap(rules, names);
    assert names[0] == "a" && names[1] == "b";
    assert ApplyAll(first, names)[0] == "b";
    assert "b" in ShorteningMap(rules, ApplyAll(first, names));
  }
}
