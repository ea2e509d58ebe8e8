/**
 Variable-size lists rebuilt with 32-bit offsets: the rows' items are flattened, cast in one go
 and cut up again by the new offsets.
 */
module ListFlatten {
  import opened Wrappers
  import opened Sequences

  const MAX_INT32 := 0x7FFF_FFFF

  type int32 = x: int | -0x8000_0000 <= x <= 0x7FFF_FFFF

  /** Where the items of a row are; the offsets of a malformed array can be anything. */
  datatype Span = Null | Span(start: int, end: int)

  datatype VarList<T> = VarList(items: seq<T>, rows: seq<Span>)

  /** The rebuilt list: row i holds the values from offset i to offset i + 1. */
  datatype List<U> = List(validity: seq<bool>, offsets: seq<int32>, values: seq<U>, nullCount: nat)

  datatype ListError = InvalidOffsets(row: nat) | TooManyValues(total: int) | CastFailed

  predicate InRange<T>(list: VarList<T>, row: Span) {
    row.Null? || 0 <= row.start <= row.end <= |list.items|
  }

  predicate AllInRange<T>(list: VarList<T>) {
    forall i :: 0 <= i < |list.rows| ==> InRange(list, list.rows[i])
  }

  /** The items of a row; none for a null row or one that points outside. */
  function Items<T>(list: VarList<T>, row: Span): seq<T> {
    if row.Null? || !InRange(list, row) then [] else list.items[row.start..row.end]
  }

  /** The items of the first n rows, one after the other. */
  function Flat<T>(list: VarList<T>, n: nat): seq<T>
    requires n <= |list.rows|
  {
    if n == 0 then [] else Flat(list, n - 1) + Items(list, list.rows[n - 1])
  }

  function Nulls(rows: seq<Span>, n: nat): nat
    requires n <= |rows|
  {
    if n == 0 then 0 else Nulls(rows, n - 1) + if rows[n - 1].Null? then 1 else 0
  }

  // ---------------------------------------------------------------------------
  // Casting, value by value
  // ---------------------------------------------------------------------------

  ghost predicate CanCast<T, U>(cast: T -> Option<U>, values: seq<T>) {
    forall k :: 0 <= k < |values| ==> cast(values[k]).Some?
  }

  ghost function Cast<T, U>(cast: T -> Option<U>, values: seq<T>): seq<U>
    requires CanCast(cast, values)
  {
    seq(|values|, k requires 0 <= k < |values| => cast(values[k]).value)
  }

  /** Casting an array casts its values one by one and fails if one of them fails. */
  method CastArray<T, U>(cast: T -> Option<U>, values: seq<T>) returns (result: Option<seq<U>>)
    ensures result.Some? <==> CanCast(cast, values)
    ensures result.Some? ==> result.value == Cast(cast, values)
  {
    var casted: seq<U> := [];
    for i := 0 to |values|
      invariant CanCast(cast, values[..i]) && casted == Cast(cast, values[..i])
    {
      var next := cast(values[i]);
      if next.None? {
        return None;
      }
      assert Cast(cast, values[..i + 1]) == Cast(cast, values[..i]) + [next.value];
      casted := casted + [next.value];
    }
    assert values[..|values|] == values;
    return Some(casted);
  }

  // ---------------------------------------------------------------------------
  // Reading the result
  // ---------------------------------------------------------------------------

  /** The offsets start at 0, never fall, end at the number of values and fit in 32 bits. */
  ghost predicate WellFormed<U>(list: List<U>) {
    && |list.offsets| == |list.validity| + 1 && list.offsets[0] == 0
    && (forall i :: 0 <= i < |list.validity| ==> list.offsets[i] <= list.offsets[i + 1])
    && (forall i :: 0 <= i <= |list.validity| ==> 0 <= list.offsets[i] <= |list.values|)
    && list.offsets[|list.validity|] == |list.values|
  }

  ghost function ReadRow<U>(list: List<U>, i: nat): Option<seq<U>>
    requires WellFormed(list) && i < |list.validity|
  {
    if list.validity[i] then Some(list.values[list.offsets[i]..list.offsets[i + 1]]) else None
  }

  /** Row i of the original, cast value by value. */
  ghost function ExpectedRow<T, U>(list: VarList<T>, cast: T -> Option<U>, i: nat): Option<seq<U>>
    requires i < |list.rows| && CanCast(cast, Items(list, list.rows[i]))
  {
    if list.rows[i].Null? then None else Some(Cast(cast, Items(list, list.rows[i])))
  }

  lemma {:induction false} FlatGrows<T>(list: VarList<T>, n: nat, m: nat) returns (rest: seq<T>)
    requires n <= m <= |list.rows|
    ensures Flat(list, m) == Flat(list, n) + rest
    decreases m
  {
    if n == m {
      rest := [];
    } else {
      var more := FlatGrows(list, n, m - 1);
      var row := Items(list, list.rows[m - 1]);
      rest := more + row;
      Regroup(Flat(list, n), more, row);
    }
  }

  /** A row is the piece of the flattened items between its two lengths. */
  lemma {:induction false} FlatRow<T>(list: VarList<T>, i: nat)
    requires i < |list.rows|
    ensures |Flat(list, i)| <= |Flat(list, i + 1)| <= |Flat(list, |list.rows|)|
    ensures Flat(list, |list.rows|)[|Flat(list, i)|..|Flat(list, i + 1)|] == Items(list, list.rows[i])
  {
    var rest := FlatGrows(list, i + 1, |list.rows|);
    MiddleOf(Flat(list, i), Items(list, list.rows[i]), rest);
  }

  /** The flattened items can be cast exactly when those of every row can. */
  lemma {:induction false} CanCastRows<T, U>(list: VarList<T>, cast: T -> Option<U>, n: nat)
    requires n <= |list.rows|
    ensures CanCast(cast, Flat(list, n)) <==> forall i :: 0 <= i < n ==> CanCast(cast, Items(list, list.rows[i]))
  {
    if n > 0 {
      var before, row := Flat(list, n - 1), Items(list, list.rows[n - 1]);
      CanCastRows(list, cast, n - 1);
      assert Flat(list, n) == before + row;
      if CanCast(cast, Flat(list, n)) {
        forall k | 0 <= k < |row| ensures cast(row[k]).Some? { assert (before + row)[|before| + k] == row[k]; }
        forall k | 0 <= k < |before| ensures cast(before[k]).Some? { assert (before + row)[k] == before[k]; }
      }
    }
  }

  lemma {:induction false} CastSlice<T, U>(cast: T -> Option<U>, values: seq<T>, from: nat, to: nat)
    requires from <= to <= |values| && CanCast(cast, values)
    ensures CanCast(cast, values[from..to])
    ensures Cast(cast, values)[from..to] == Cast(cast, values[from..to])
  {
  }

  /** What the rebuilt list must be for the offsets to be those of the flattened rows. */
  ghost predicate Rebuilt<T, U>(list: VarList<T>, cast: T -> Option<U>, r: List<U>)
    requires CanCast(cast, Flat(list, |list.rows|))
  {
    && |r.validity| == |list.rows| && |r.offsets| == |list.rows| + 1
    && (forall i :: 0 <= i < |list.rows| ==> r.validity[i] == !list.rows[i].Null?)
    && (forall i {:trigger r.offsets[i]} :: 0 <= i <= |list.rows| ==> r.offsets[i] == |Flat(list, i)|)
    && r.values == Cast(cast, Flat(list, |list.rows|))
    && r.nullCount == Nulls(list.rows, |list.rows|)
  }

  /** Every row reads back as the original row cast value by value; nulls stay nulls. */
  lemma {:induction false} RowsReadBack<T, U>(list: VarList<T>, cast: T -> Option<U>, r: List<U>)
    requires CanCast(cast, Flat(list, |list.rows|)) && Rebuilt(list, cast, r)
    ensures WellFormed(r)
    ensures forall i :: 0 <= i < |list.rows| ==>
              CanCast(cast, Items(list, list.rows[i])) && ReadRow(r, i) == ExpectedRow(list, cast, i)
  {
    var all := Flat(list, |list.rows|);
    CanCastRows(list, cast, |list.rows|);
    forall i | 0 <= i < |list.rows| ensures r.offsets[i] <= r.offsets[i + 1] {
      FlatRow(list, i);
    }
    forall i | 0 <= i <= |list.rows| ensures 0 <= r.offsets[i] <= |r.values| {
      var _ := FlatGrows(list, i, |list.rows|);
    }
    forall i | 0 <= i < |list.rows| ensures ReadRow(r, i) == ExpectedRow(list, cast, i) {
      FlatRow(list, i);
      CastSlice(cast, all, |Flat(list, i)|, |Flat(list, i + 1)|);
    }
  }

  // ---------------------------------------------------------------------------
  // The loop
  // ---------------------------------------------------------------------------

  function Concat<T>(slices: seq<seq<T>>): seq<T> {
    if slices == [] then [] else Concat(slices[..|slices| - 1]) + slices[|slices| - 1]
  }

  /** The offsets and validity of the first n rows, each one made from the one before. */
  ghost predicate LaidOut<T>(list: VarList<T>, offsets: seq<int32>, validity: seq<bool>, n: nat)
    requires n <= |list.rows| && |offsets| == |list.rows| + 1 && |validity| == |list.rows|
  {
    if n == 0 then offsets[0] == 0
    else
      && LaidOut(list, offsets, validity, n - 1)
      && InRange(list, list.rows[n - 1]) && validity[n - 1] == !list.rows[n - 1].Null?
      && offsets[n] == offsets[n - 1] + |Items(list, list.rows[n - 1])|
  }

  lemma {:induction false} LaidOutKeeps<T>(
    list: VarList<T>, offsets: seq<int32>, validity: seq<bool>, i: nat, offset: int32, valid: bool, n: nat)
    requires n <= i < |list.rows| && |offsets| == |list.rows| + 1 && |validity| == |list.rows|
    requires LaidOut(list, offsets, validity, n)
    ensures LaidOut(list, offsets[i + 1 := offset], validity[i := valid], n)
  {
    if n > 0 { LaidOutKeeps(list, offsets, validity, i, offset, valid, n - 1); }
  }

  lemma {:induction false} LaidOutNext<T>(
    list: VarList<T>, offsets: seq<int32>, validity: seq<bool>, i: nat, offset: int32)
    requires i < |list.rows| && |offsets| == |list.rows| + 1 && |validity| == |list.rows|
    requires LaidOut(list, offsets, validity, i) && InRange(list, list.rows[i])
    requires offset == offsets[i] + |Items(list, list.rows[i])|
    ensures LaidOut(list, offsets[i + 1 := offset], validity[i := !list.rows[i].Null?], i + 1)
  {
    LaidOutKeeps(list, offsets, validity, i, offset, !list.rows[i].Null?, i);
  }

  lemma {:induction false} LaidOutPrefix<T>(
    list: VarList<T>, offsets: seq<int32>, validity: seq<bool>, n: nat, j: nat)
    requires j <= n <= |list.rows| && |offsets| == |list.rows| + 1 && |validity| == |list.rows|
    requires LaidOut(list, offsets, validity, n)
    ensures LaidOut(list, offsets, validity, j)
  {
    if j < n { LaidOutPrefix(list, offsets, validity, n - 1, j); }
  }

  /** The last offset is the number of items flattened so far. */
  lemma {:induction false} LastOffset<T>(list: VarList<T>, offsets: seq<int32>, validity: seq<bool>, n: nat)
    requires n <= |list.rows| && |offsets| == |list.rows| + 1 && |validity| == |list.rows|
    requires LaidOut(list, offsets, validity, n)
    ensures offsets[n] == |Flat(list, n)|
  {
    if n > 0 {
      LastOffset(list, offsets, validity, n - 1);
      assert Flat(list, n) == Flat(list, n - 1) + Items(list, list.rows[n - 1]);
    }
  }

  lemma {:induction false} AllLaidOut<T>(list: VarList<T>, offsets: seq<int32>, validity: seq<bool>)
    requires |offsets| == |list.rows| + 1 && |validity| == |list.rows|
    requires LaidOut(list, offsets, validity, |list.rows|)
    ensures AllInRange(list)
    ensures forall j {:trigger offsets[j]} :: 0 <= j <= |list.rows| ==> offsets[j] == |Flat(list, j)|
    ensures forall j :: 0 <= j < |list.rows| ==> validity[j] == !list.rows[j].Null?
  {
    forall j | 0 <= j <= |list.rows|
      ensures offsets[j] == |Flat(list, j)|
      ensures j < |list.rows| ==> InRange(list, list.rows[j]) && validity[j] == !list.rows[j].Null?
    {
      LaidOutPrefix(list, offsets, validity, |list.rows|, j);
      LastOffset(list, offsets, validity, j);
      if j < |list.rows| { LaidOutPrefix(list, offsets, validity, |list.rows|, j + 1); }
    }
  }

  lemma {:induction false} LaidOutInRange<T>(list: VarList<T>, offsets: seq<int32>, validity: seq<bool>, n: nat)
    requires n <= |list.rows| && |offsets| == |list.rows| + 1 && |validity| == |list.rows|
    requires LaidOut(list, offsets, validity, n)
    ensures forall j :: 0 <= j < n ==> InRange(list, list.rows[j])
    ensures |Flat(list, n)| <= MAX_INT32
  {
    if n > 0 { LaidOutInRange(list, offsets, validity, n - 1); }
    LastOffset(list, offsets, validity, n);
  }

  /** The rows before the n-th can be laid out. */
  ghost predicate FineUpTo<T>(list: VarList<T>, n: nat) {
    && n < |list.rows| && (forall j :: 0 <= j < n ==> InRange(list, list.rows[j]))
    && |Flat(list, n)| <= MAX_INT32
  }

  /** The error is that of the first row that cannot be laid out. */
  ghost predicate FirstError<T>(list: VarList<T>, error: ListError) {
    match error
    case InvalidOffsets(row) => FineUpTo(list, row) && !InRange(list, list.rows[row])
    case TooManyValues(total) =>
      exists n: nat :: FineUpTo(list, n) && InRange(list, list.rows[n]) && total == |Flat(list, n + 1)| > MAX_INT32
    case CastFailed => true
  }

  lemma {:induction false} TooManyStays<T>(list: VarList<T>, i: nat, total: int)
    requires i < |list.rows| && total == |Flat(list, i)| + |Items(list, list.rows[i])|
    ensures |Flat(list, |list.rows|)| >= total
  {
    FlatNext(list, i);
    FlatLonger(list, i + 1, |list.rows|);
  }

  lemma {:induction false} OutOfRangeFirst<T>(list: VarList<T>, offsets: seq<int32>, validity: seq<bool>, i: nat)
    requires i < |list.rows| && |offsets| == |list.rows| + 1 && |validity| == |list.rows|
    requires LaidOut(list, offsets, validity, i) && !InRange(list, list.rows[i])
    ensures FirstError(list, InvalidOffsets(i))
  {
    LaidOutInRange(list, offsets, validity, i);
  }

  lemma {:induction false} TooManyFirst<T>(
    list: VarList<T>, offsets: seq<int32>, validity: seq<bool>, i: nat, total: int)
    requires i < |list.rows| && |offsets| == |list.rows| + 1 && |validity| == |list.rows|
    requires LaidOut(list, offsets, validity, i) && InRange(list, list.rows[i])
    requires total == offsets[i] + |Items(list, list.rows[i])| && total > MAX_INT32
    ensures FirstError(list, TooManyValues(total)) && |Flat(list, |list.rows|)| > MAX_INT32
  {
    LastOffset(list, offsets, validity, i);
    LaidOutInRange(list, offsets, validity, i);
    FlatNext(list, i);
    assert FineUpTo(list, i);
    TooManyStays(list, i, total);
  }

  lemma {:induction false} FlatNext<T>(list: VarList<T>, i: nat)
    requires i < |list.rows|
    ensures |Flat(list, i + 1)| == |Flat(list, i)| + |Items(list, list.rows[i])|
  {
  }

  lemma {:induction false} FlatLonger<T>(list: VarList<T>, n: nat, m: nat)
    requires n <= m <= |list.rows|
    ensures |Flat(list, n)| <= |Flat(list, m)|
  {
    var _ := FlatGrows(list, n, m);
  }

  /** The slices are the items of the first n rows, but for the empty ones. */
  ghost predicate Collected<T>(list: VarList<T>, slices: seq<seq<T>>, n: nat)
    requires n <= |list.rows|
  {
    if n == 0 then slices == []
    else
      var row := Items(list, list.rows[n - 1]);
      if row == [] then Collected(list, slices, n - 1)
      else
        && slices != [] && slices[|slices| - 1] == row
        && Collected(list, slices[..|slices| - 1], n - 1)
  }

  lemma {:induction false} CollectedNext<T>(list: VarList<T>, slices: seq<seq<T>>, i: nat)
    requires i < |list.rows| && Collected(list, slices, i)
    ensures var row := Items(list, list.rows[i]);
            Collected(list, if row == [] then slices else slices + [row], i + 1)
  {
    assert (slices + [Items(list, list.rows[i])])[..|slices|] == slices;
  }

  lemma {:induction false} FlatSkips<T>(list: VarList<T>, n: nat)
    requires n < |list.rows| && Items(list, list.rows[n]) == []
    ensures Flat(list, n + 1) == Flat(list, n)
  {
    var none: seq<T> := [];
    assert Flat(list, n) + none == Flat(list, n);
  }

  lemma {:induction false} CollectedIsFlat<T>(list: VarList<T>, slices: seq<seq<T>>, n: nat)
    requires n <= |list.rows| && Collected(list, slices, n)
    ensures Concat(slices) == Flat(list, n)
  {
    if n > 0 {
      if Items(list, list.rows[n - 1]) == [] {
        CollectedIsFlat(list, slices, n - 1);
        FlatSkips(list, n - 1);
      } else {
        CollectedIsFlat(list, slices[..|slices| - 1], n - 1);
      }
    }
  }

  /** All there is to know after n rows. */
  ghost predicate Done<T>(
    list: VarList<T>, offsets: seq<int32>, validity: seq<bool>, slices: seq<seq<T>>, nullCount: nat, n: nat)
  {
    && n <= |list.rows| && |offsets| == |list.rows| + 1 && |validity| == |list.rows|
    && LaidOut(list, offsets, validity, n) && Collected(list, slices, n) && nullCount == Nulls(list.rows, n)
    && forall k :: n <= k < |validity| ==> !validity[k]
  }

  lemma {:induction false} DoneNull<T>(
    list: VarList<T>, offsets: seq<int32>, validity: seq<bool>, slices: seq<seq<T>>, nullCount: nat, i: nat)
    requires i < |list.rows| && Done(list, offsets, validity, slices, nullCount, i) && list.rows[i].Null?
    ensures Done(list, offsets[i + 1 := offsets[i]], validity, slices, nullCount + 1, i + 1)
  {
    LaidOutNext(list, offsets, validity, i, offsets[i]);
    CollectedNext(list, slices, i);
    assert validity[i := false] == validity;
  }

  lemma {:induction false} DoneRow<T>(
    list: VarList<T>, offsets: seq<int32>, validity: seq<bool>, slices: seq<seq<T>>, nullCount: nat, i: nat,
    offset: int32)
    requires i < |list.rows| && Done(list, offsets, validity, slices, nullCount, i)
    requires !list.rows[i].Null? && InRange(list, list.rows[i])
    requires offset == offsets[i] + |Items(list, list.rows[i])|
    ensures var row := Items(list, list.rows[i]);
            Done(list, offsets[i + 1 := offset], validity[i := true],
                 if row == [] then slices else slices + [row], nullCount, i + 1)
  {
    LaidOutNext(list, offsets, validity, i, offset);
    CollectedNext(list, slices, i);
  }

  lemma {:induction false} DoneStart<T>(list: VarList<T>, offsets: seq<int32>, validity: seq<bool>)
    requires |offsets| == |list.rows| + 1 && |validity| == |list.rows| && offsets[0] == 0
    requires forall k :: 0 <= k < |validity| ==> !validity[k]
    ensures Done(list, offsets, validity, [], 0, 0)
  {
  }

  lemma {:induction false} AllDone<T>(
    list: VarList<T>, offsets: seq<int32>, validity: seq<bool>, slices: seq<seq<T>>, nullCount: nat)
    requires Done(list, offsets, validity, slices, nullCount, |list.rows|)
    ensures LaidOut(list, offsets, validity, |list.rows|)
    ensures Concat(slices) == Flat(list, |list.rows|) && |Flat(list, |list.rows|)| == offsets[|list.rows|]
    ensures nullCount == Nulls(list.rows, |list.rows|)
  {
    LastOffset(list, offsets, validity, |list.rows|);
    CollectedIsFlat(list, slices, |list.rows|);
  }

  /** The loop over the rows. */
  method LayOut<T>(list: VarList<T>) returns (
    error: Option<ListError>, validity: array<bool>, offsets: array<int32>, slices: seq<seq<T>>, nullCount: nat)
    ensures validity.Length == |list.rows| && offsets.Length == |list.rows| + 1
    ensures error.None? ==>
              && LaidOut(list, offsets[..], validity[..], |list.rows|)
              && Concat(slices) == Flat(list, |list.rows|)
              && |Flat(list, |list.rows|)| <= MAX_INT32
              && nullCount == Nulls(list.rows, |list.rows|)
    ensures error.Some? ==> FirstError(list, error.value) && !error.value.CastFailed?
    ensures error.Some? && error.value.TooManyValues? ==> |Flat(list, |list.rows|)| > MAX_INT32
  {
    var n := |list.rows|;
    validity := new bool[n](_ => false);
    offsets := new int32[n + 1](_ => 0);
    slices := [];
    nullCount := 0;
    error := None;
    var total := 0;
    DoneStart(list, offsets[..], validity[..]);
    for i := 0 to n
      invariant Done(list, offsets[..], validity[..], slices, nullCount, i)
      invariant offsets[i] == total <= MAX_INT32
    {
      ghost var was, valid := offsets[..], validity[..];
      if list.rows[i].Null? {
        DoneNull(list, was, valid, slices, nullCount, i);
        nullCount := nullCount + 1;
        var offset: int32 := total;
        offsets[i + 1] := offset;
        assert offsets[..] == was[i + 1 := offset];
        continue;
      }
      validity[i] := true;
      var start, end := list.rows[i].start, list.rows[i].end;
      if start < 0 || end < start || end > |list.items| {
        OutOfRangeFirst(list, was, valid, i);
        error := Some(InvalidOffsets(i));
        return;
      }
      ghost var row := Items(list, list.rows[i]);
      assert row == list.items[start..end];
      total := total + (end - start);
      if total > MAX_INT32 {
        TooManyFirst(list, was, valid, i, total);
        error := Some(TooManyValues(total));
        return;
      }
      var offset: int32 := total;
      offsets[i + 1] := offset;
      DoneRow(list, was, valid, slices, nullCount, i, offset);
      if end > start {
        slices := slices + [list.items[start..end]];
      }
      assert offsets[..] == was[i + 1 := offset] && validity[..] == valid[i := true];
    }
    AllDone(list, offsets[..], validity[..], slices, nullCount);
  }

  method CastVariableListToList<T, U>(list: VarList<T>, cast: T -> Option<U>)
    returns (result: Result<List<U>, ListError>)
    ensures result.Ok? <==>
              && AllInRange(list) && |Flat(list, |list.rows|)| <= MAX_INT32
              && CanCast(cast, Flat(list, |list.rows|))
    ensures result.Ok? ==> Rebuilt(list, cast, result.value)
    ensures result.Err? ==> FirstError(list, result.error)
    ensures result.Err? && result.error.TooManyValues? ==> |Flat(list, |list.rows|)| > MAX_INT32
    ensures result.Err? && result.error.CastFailed? ==>
              AllInRange(list) && !CanCast(cast, Flat(list, |list.rows|))
  {
    var error, validity, offsets, slices, nullCount := LayOut(list);
    if error.None? { AllLaidOut(list, offsets[..], validity[..]); }
    if error.Some? {
      return Err(error.value);
    }
    var flattened := if |slices| == 0 then list.items[0..0] else Concat(slices);
    var casted := CastArray(cast, flattened);
    if casted.None? {
      return Err(CastFailed);
    }
    return Ok(List(validity[..], offsets[..], casted.value, nullCount));
  }
}
