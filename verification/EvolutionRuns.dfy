/**
 A table over any number of runs without overrides: the kind of a column only climbs, so it
 changes at most thirteen times, and a JSON column never changes kind again.
 */
module EvolutionRuns {
  import opened Wrappers
  import opened SchemaTypes
  import opened Widening
  import opened SchemaCompare
  import opened Convergence
  import opened SchemaConvergence

  /** How many kinds a column can still climb to. An unknown type can only become JSON. */
  ghost function Headroom(kind: DataType): nat {
    if kind == Unknown then 1 else 13 - Rank(kind)
  }

  /** A change of kind climbs the hierarchy. */
  ghost predicate Climbs(was: DataType, now: DataType) {
    was == now || (Rank(was) < Rank(now) && Headroom(now) < Headroom(was))
  }

  lemma {:induction false} WidenedTypeClimbs(src: ColumnType, dest: ColumnType)
    requires WidenedType(src, dest).Ok?
    ensures Climbs(dest.kind, WidenedType(src, dest).value.kind)
  {
    if !BothArrays(src, dest) {
      WidenedClimbs(src.kind, dest.kind);
      var kind := WidenedType(src, dest).value.kind;
      assert kind == GetWidenedType(src.kind, dest.kind)
        || (kind == String && GetWidenedType(src.kind, dest.kind) == Decimal && Rank(dest.kind) <= 7);
    }
  }

  lemma {:induction false} ClimbsOn(a: DataType, b: DataType, c: DataType)
    requires Climbs(a, b) && Climbs(b, c)
    ensures Climbs(a, c)
  {
    if a != b && b != c {
      Between(Rank(a), Rank(b), Rank(c), Headroom(a), Headroom(b), Headroom(c));
    }
  }

  lemma {:induction false} Between(ra: int, rb: int, rc: int, ha: nat, hb: nat, hc: nat)
    requires ra < rb < rc && hc < hb < ha
    ensures ra < rc && hc < ha
  {
  }

  lemma {:induction false} FittedClimbs(src: ColumnType, dest: ColumnType)
    requires FittingType(src, dest).Ok?
    ensures FittingType(src, dest).value.Some? ==> Climbs(dest.kind, FittingType(src, dest).value.value.kind)
  {
    if FittingType(src, dest).value.Some? { WidenedTypeClimbs(src, dest); }
  }

  lemma {:induction false} ColumnClimbs(opts: Options, src: Column, dest: Column)
    requires opts.overrides == map[] && ColumnChanges(opts, src, Some(dest)).Ok?
    ensures Climbs(dest.ty.kind, Evolve(opts, src, Some(dest)).ty.kind)
  {
    PlainColumnEvolves(opts, src, dest);
    FittedClimbs(src.ty, dest.ty);
  }

  /** What one run does to the kind of one column. */
  lemma {:induction false} RunClimbs(opts: Options, source: seq<Column>, dest: seq<Column>, key: string)
    requires DistinctNames(source) && DistinctNames(dest) && opts.overrides == map[]
    requires Comparison(opts, source, dest).Ok? && key in ByName(dest)
    ensures key in ByName(FinalSchema(opts, source, dest))
    ensures Climbs(ByName(dest)[key].ty.kind, ByName(FinalSchema(opts, source, dest))[key].ty.kind)
  {
    var m := ByName(dest);
    FinalSchemaMap(opts, source, dest);
    if key in KeysOf(source) {
      var i :| 0 <= i < |source| && Lower(source[i].name) == key;
      EvolvedMapAt(opts, source, m, i);
      ColumnClimbs(opts, source[i], m[key]);
      FinalColumn(opts, source, dest, i);
    } else {
      EvolvedMapOutside(opts, source, m, key);
    }
  }

  // ---------------------------------------------------------------------------
  // Histories
  // ---------------------------------------------------------------------------

  /** One run; a source that cannot be merged leaves the table as it was. */
  ghost predicate IsRun(opts: Options, source: seq<Column>, before: seq<Column>, after: seq<Column>) {
    && DistinctNames(source)
    && after == if Comparison(opts, source, before).Ok? then FinalSchema(opts, source, before) else before
  }

  ghost predicate IsRunAt(opts: Options, sources: seq<seq<Column>>, tables: seq<seq<Column>>, i: nat)
    requires i < |sources| && |tables| == |sources| + 1
  {
    IsRun(opts, sources[i], tables[i], tables[i + 1])
  }

  /** The table before the first run and after each of any number of runs, without overrides. */
  ghost predicate IsHistory(opts: Options, sources: seq<seq<Column>>, tables: seq<seq<Column>>) {
    && opts.overrides == map[] && |tables| == |sources| + 1 && DistinctNames(tables[0])
    && forall i :: 0 <= i < |sources| ==> IsRunAt(opts, sources, tables, i)
  }

  ghost function KindOf(table: seq<Column>, key: string): DataType {
    if key in ByName(table) then ByName(table)[key].ty.kind else Unknown
  }

  /** How often the kind of a column changed in the first n runs. */
  ghost function KindChanges(tables: seq<seq<Column>>, n: nat, key: string): nat
    requires n < |tables|
  {
    if n == 0 then 0
    else KindChanges(tables, n - 1, key) + if KindOf(tables[n], key) != KindOf(tables[n - 1], key) then 1 else 0
  }

  lemma {:induction false} RunKeeps(
    opts: Options, source: seq<Column>, before: seq<Column>, after: seq<Column>, key: string)
    requires opts.overrides == map[] && IsRun(opts, source, before, after)
    requires DistinctNames(before) && key in ByName(before)
    ensures DistinctNames(after) && key in ByName(after)
    ensures Climbs(KindOf(before, key), KindOf(after, key))
  {
    if Comparison(opts, source, before).Ok? {
      FinalSchemaMap(opts, source, before);
      RunClimbs(opts, source, before, key);
    }
  }

  lemma {:induction false} HistoryKeeps(
    opts: Options, sources: seq<seq<Column>>, tables: seq<seq<Column>>, n: nat, key: string)
    requires IsHistory(opts, sources, tables) && n < |tables| && key in ByName(tables[0])
    ensures DistinctNames(tables[n]) && key in ByName(tables[n])
    ensures n > 0 ==> Climbs(KindOf(tables[n - 1], key), KindOf(tables[n], key))
  {
    if n > 0 {
      HistoryKeeps(opts, sources, tables, n - 1, key);
      assert IsRunAt(opts, sources, tables, n - 1);
      RunKeeps(opts, sources[n - 1], tables[n - 1], tables[n], key);
    }
  }

  /** Each change of kind uses up headroom. */
  lemma {:induction false} ChangesUseHeadroom(
    opts: Options, sources: seq<seq<Column>>, tables: seq<seq<Column>>, n: nat, key: string)
    requires IsHistory(opts, sources, tables) && n < |tables| && key in ByName(tables[0])
    ensures KindChanges(tables, n, key) + Headroom(KindOf(tables[n], key)) <= Headroom(KindOf(tables[0], key))
  {
    if n > 0 {
      ChangesUseHeadroom(opts, sources, tables, n - 1, key);
      HistoryKeeps(opts, sources, tables, n, key);
    }
  }

  /** Over any sequence of runs the rank of a column never falls, and a change of kind raises it. */
  lemma {:induction false} RankNeverFalls(
    opts: Options, sources: seq<seq<Column>>, tables: seq<seq<Column>>, i: nat, n: nat, key: string)
    requires IsHistory(opts, sources, tables) && i <= n < |tables| && key in ByName(tables[0])
    ensures Climbs(KindOf(tables[i], key), KindOf(tables[n], key))
    decreases n
  {
    if i < n {
      RankNeverFalls(opts, sources, tables, i, n - 1, key);
      HistoryKeeps(opts, sources, tables, n, key);
      ClimbsOn(KindOf(tables[i], key), KindOf(tables[n - 1], key), KindOf(tables[n], key));
    }
  }

  lemma {:induction false} HeadroomAtMost13(kind: DataType, later: DataType)
    ensures Headroom(kind) <= 13
    ensures kind == JSON && Climbs(kind, later) ==> later == JSON
  {
  }

  /** At most thirteen changes of kind, however many runs there are; JSON is final. */
  lemma {:induction false} KindChangesBounded(
    opts: Options, sources: seq<seq<Column>>, tables: seq<seq<Column>>, n: nat, key: string)
    requires IsHistory(opts, sources, tables) && n < |tables| && key in ByName(tables[0])
    ensures KindChanges(tables, n, key) <= Headroom(KindOf(tables[0], key)) <= 13
    ensures KindOf(tables[0], key) == JSON ==> KindOf(tables[n], key) == JSON
  {
    ChangesUseHeadroom(opts, sources, tables, n, key);
    RankNeverFalls(opts, sources, tables, 0, n, key);
    HeadroomAtMost13(KindOf(tables[0], key), KindOf(tables[n], key));
  }
}
