/** When the common type of three types depends on the order in which they are joined. */
module WideningFamilies {
  import opened SchemaTypes
  import opened Widening

  /**
   Both floats and a third kind of number, unless Float64 stands between Float32 and an integer,
   or Decimal between the floats.
   */
  predicate IsOddTriple(a: DataType, b: DataType, c: DataType) {
    && (a.Float32? || b.Float32? || c.Float32?) && (a.Float64? || b.Float64? || c.Float64?)
    && (|| ((IsInteger(a) || IsInteger(b) || IsInteger(c)) && !b.Float64?)
        || (a.Decimal? || c.Decimal?))
  }

  // Types fall into families; only within one is the common type anything but text or JSON.

  datatype Family = Numbers | Moments | Text | Other(t: DataType) | NoText

  function FamilyOf(t: DataType): Family {
    match t
    case Int8 | Int16 | Int32 | Int64 | Float32 | Float64 | Decimal => Numbers
    case Date | Timestamp | TimestampTZ => Moments
    case String => Text
    case Array | JSON | Unknown => NoText
    case _ => Other(t)
  }

  lemma {:induction false} ReachesText(t: DataType)
    ensures CanWiden(t, String) <==> !FamilyOf(t).NoText?
    ensures !FamilyOf(t).NoText? ==> WideningOrder(t).Some? && (t != String ==> WideningOrder(t).value < 12)
  {
  }

  lemma {:induction false} NoPathAcross(a: DataType, b: DataType)
    requires FamilyOf(a) != FamilyOf(b) && b != String && b != JSON
    ensures !CanWiden(a, b)
  {
  }

  /** Types of different families have text in common, or JSON if one of them cannot become text. */
  lemma {:induction false} AcrossFamilies(a: DataType, b: DataType)
    requires FamilyOf(a) != FamilyOf(b)
    ensures GetWidenedType(a, b) == if FamilyOf(a).NoText? || FamilyOf(b).NoText? then JSON else String
  {
    ReachesText(a);
    ReachesText(b);
    if a != String && b != String && a != JSON && b != JSON {
      NoPathAcross(a, b);
      NoPathAcross(b, a);
    }
  }

  lemma {:induction false} WithoutText(a: DataType, b: DataType)
    requires a != b && FamilyOf(a).NoText? && FamilyOf(b).NoText?
    ensures GetWidenedType(a, b) == JSON
  {
  }

  /** Within a family the larger type, but for Float32, which only Float64 takes in. */
  ghost function JoinWithin(a: DataType, b: DataType): DataType {
    if a == b then a
    else if (a == Float32 && b != Float64) || (b == Float32 && a != Float64) then String
    else if Rank(a) > Rank(b) then a else b
  }

  lemma {:induction false} PathWithin(a: DataType, b: DataType)
    requires FamilyOf(a) == FamilyOf(b) && !FamilyOf(a).NoText?
    ensures CanWiden(a, b) <==>
              || a == b || (a == Float32 && b == Float64)
              || (Rank(a) < Rank(b) && a != Float32 && b != Float32)
  {
  }

  lemma {:induction false} RankTells(a: DataType, b: DataType)
    requires FamilyOf(a) == FamilyOf(b) && !FamilyOf(a).NoText? && Rank(a) == Rank(b)
    ensures a == b
  {
  }

  lemma {:induction false} WithinUpwards(a: DataType, b: DataType)
    requires FamilyOf(a) == FamilyOf(b) && !FamilyOf(a).NoText? && Rank(a) < Rank(b)
    ensures GetWidenedType(a, b) == GetWidenedType(b, a) == if CanWiden(a, b) then b else String
  {
    ReachesText(a);
    ReachesText(b);
    PathWithin(b, a);
  }

  lemma {:induction false} JoinUpwards(a: DataType, b: DataType)
    requires FamilyOf(a) == FamilyOf(b) && !FamilyOf(a).NoText? && Rank(a) < Rank(b)
    ensures JoinWithin(a, b) == JoinWithin(b, a) == if CanWiden(a, b) then b else String
  {
    PathWithin(a, b);
  }

  lemma {:induction false} WithinFamily(a: DataType, b: DataType)
    requires FamilyOf(a) == FamilyOf(b) && !FamilyOf(a).NoText?
    ensures GetWidenedType(a, b) == JoinWithin(a, b)
  {
    if Rank(a) == Rank(b) {
      RankTells(a, b);
    } else if Rank(a) < Rank(b) {
      JoinUpwards(a, b);
      WithinUpwards(a, b);
    } else {
      JoinUpwards(b, a);
      WithinUpwards(b, a);
    }
  }

  /** The common type, family by family. */
  ghost function Join(a: DataType, b: DataType): DataType {
    if a == b then a
    else if FamilyOf(a).NoText? || FamilyOf(b).NoText? then JSON
    else if FamilyOf(a) != FamilyOf(b) then String
    else JoinWithin(a, b)
  }

  lemma {:induction false} WidenedIsJoin(a: DataType, b: DataType)
    ensures GetWidenedType(a, b) == Join(a, b)
  {
    if a != b {
      if FamilyOf(a) != FamilyOf(b) {
        AcrossFamilies(a, b);
      } else if FamilyOf(a).NoText? {
        WithoutText(a, b);
      } else {
        WithinFamily(a, b);
      }
    }
  }

  lemma {:induction false} JsonWins(t: DataType)
    ensures Join(JSON, t) == Join(t, JSON) == JSON
  {
  }

  lemma {:induction false} TextWins(t: DataType)
    requires !FamilyOf(t).NoText?
    ensures Join(String, t) == Join(t, String) == String
  {
  }

  lemma {:induction false} JoinIsJson(a: DataType, b: DataType)
    requires a != b && (FamilyOf(a).NoText? || FamilyOf(b).NoText?)
    ensures Join(a, b) == Join(b, a) == JSON
  {
  }

  lemma {:induction false} JoinIsNotJson(a: DataType, b: DataType)
    requires !FamilyOf(a).NoText? && !FamilyOf(b).NoText?
    ensures !FamilyOf(Join(a, b)).NoText?
    ensures Join(a, b) == String || FamilyOf(Join(a, b)) == FamilyOf(a) == FamilyOf(b)
    ensures FamilyOf(a) != FamilyOf(b) ==> Join(a, b) == String
  {
  }

  lemma {:induction false} JoinsWithoutText(a: DataType, b: DataType, c: DataType)
    requires FamilyOf(a).NoText? || FamilyOf(b).NoText? || FamilyOf(c).NoText?
    ensures Join(Join(a, b), c) == Join(a, Join(b, c))
  {
    if a == b {
      if b != c { JoinIsJson(b, c); JsonWins(a); }
    } else if b == c {
      JoinIsJson(a, b);
      JsonWins(c);
    } else {
      JsonEitherWay(a, b, c);
    }
  }

  lemma {:induction false} JsonEitherWay(a: DataType, b: DataType, c: DataType)
    requires FamilyOf(a).NoText? || FamilyOf(b).NoText? || FamilyOf(c).NoText?
    requires a != b && b != c
    ensures Join(Join(a, b), c) == Join(a, Join(b, c)) == JSON
  {
    JsonWins(a);
    JsonWins(c);
    if FamilyOf(b).NoText? {
      JoinIsJson(a, b);
      JoinIsJson(b, c);
    } else if FamilyOf(a).NoText? {
      JoinIsJson(a, b);
      JoinWithNoText(a, b, c);
    } else {
      JoinIsJson(b, c);
      JoinWithNoText(c, a, b);
    }
  }

  /** Joining a type that cannot become text with the join of two others. */
  lemma {:induction false} JoinWithNoText(t: DataType, b: DataType, c: DataType)
    requires FamilyOf(t).NoText? && !FamilyOf(b).NoText? && b != c
    ensures Join(t, Join(b, c)) == Join(Join(b, c), t) == JSON
  {
    var joined := Join(b, c);
    if FamilyOf(c).NoText? {
      JoinIsJson(b, c);
      JsonWins(t);
    } else {
      JoinIsNotJson(b, c);
      JoinIsJson(t, joined);
    }
  }

  lemma {:induction false} JoinsAcross(a: DataType, b: DataType, c: DataType)
    requires !FamilyOf(a).NoText? && !FamilyOf(b).NoText? && !FamilyOf(c).NoText?
    requires !(FamilyOf(a) == FamilyOf(b) == FamilyOf(c))
    ensures Join(Join(a, b), c) == Join(a, Join(b, c)) == String
  {
    JoinIsNotJson(a, b);
    JoinIsNotJson(b, c);
    TextWins(a);
    TextWins(c);
    if Join(a, b) != String { JoinIsNotJson(Join(a, b), c); }
    if Join(b, c) != String { JoinIsNotJson(a, Join(b, c)); }
  }

  // Within a family types can be told by their ranks, so the rest is arithmetic.

  ghost function JoinRank(a: int, b: int): int {
    if a == b then a
    else if (a == 5 && b != 6) || (b == 5 && a != 6) then 12
    else if a > b then a else b
  }

  ghost predicate Within(f: Family, t: DataType) {
    (f == Numbers || f == Moments) && (FamilyOf(t) == f || t == String)
  }

  lemma {:induction false} RankWithin(f: Family, a: DataType, b: DataType)
    requires Within(f, a) && Within(f, b) && Rank(a) == Rank(b)
    ensures a == b
  {
  }

  /** The odd triples by rank: 5 and 6 are the floats, less an integer, more a decimal. */
  ghost predicate IsOddRank(a: int, b: int, c: int) {
    && (a == 5 || b == 5 || c == 5) && (a == 6 || b == 6 || c == 6)
    && (((a < 5 || b < 5 || c < 5) && b != 6) || 6 < a < 12 || 6 < c < 12)
  }

  lemma {:induction false} RanksAssociate(a: int, b: int, c: int)
    requires 1 <= a <= 12 && 1 <= b <= 12 && 1 <= c <= 12
    ensures JoinRank(JoinRank(a, b), c) == JoinRank(a, JoinRank(b, c)) <==> !IsOddRank(a, b, c)
  {
  }

  lemma {:induction false} RankOfNumber(f: Family, t: DataType)
    requires Within(f, t)
    ensures 1 <= Rank(t) <= 12
    ensures (t == Float32 <==> Rank(t) == 5) && (t == Float64 <==> Rank(t) == 6)
    ensures (IsInteger(t) <==> Rank(t) < 5) && (f == Numbers ==> (t == Decimal <==> 6 < Rank(t) < 12))
    ensures f == Moments ==> Rank(t) > 6 && t != Decimal
  {
  }

  lemma {:induction false} RankOfJoin(f: Family, a: DataType, b: DataType)
    requires Within(f, a) && Within(f, b)
    ensures Within(f, Join(a, b)) && Rank(Join(a, b)) == JoinRank(Rank(a), Rank(b))
  {
    RankOfNumber(f, a);
    RankOfNumber(f, b);
    if a == String {
      TextWins(b);
    } else if b == String {
      TextWins(a);
    } else {
      JoinInFamily(f, a, b);
      RankOfJoinWithin(f, a, b);
    }
  }

  lemma {:induction false} JoinInFamily(f: Family, a: DataType, b: DataType)
    requires Within(f, a) && Within(f, b) && a != String && b != String
    ensures FamilyOf(a) == FamilyOf(b) == f && Join(a, b) == JoinWithin(a, b)
  {
  }

  lemma {:induction false} RankOfJoinWithin(f: Family, a: DataType, b: DataType)
    requires Within(f, a) && Within(f, b) && FamilyOf(a) == FamilyOf(b) == f
    ensures Within(f, JoinWithin(a, b)) && Rank(JoinWithin(a, b)) == JoinRank(Rank(a), Rank(b))
  {
    RankOfNumber(f, a);
    RankOfNumber(f, b);
    if Rank(a) == Rank(b) { RankTells(a, b); }
  }

  lemma {:induction false} OddByRank(f: Family, a: DataType, b: DataType, c: DataType)
    requires Within(f, a) && Within(f, b) && Within(f, c)
    ensures IsOddTriple(a, b, c) <==> IsOddRank(Rank(a), Rank(b), Rank(c))
  {
    RankOfNumber(f, a);
    RankOfNumber(f, b);
    RankOfNumber(f, c);
  }

  lemma {:induction false} JoinsWithin(f: Family, a: DataType, b: DataType, c: DataType)
    requires Within(f, a) && Within(f, b) && Within(f, c)
    ensures Join(Join(a, b), c) == Join(a, Join(b, c)) <==> !IsOddTriple(a, b, c)
  {
    var left, right := Join(Join(a, b), c), Join(a, Join(b, c));
    RankOfJoin(f, a, b);
    RankOfJoin(f, b, c);
    RankOfJoin(f, Join(a, b), c);
    RankOfJoin(f, a, Join(b, c));
    OddByRank(f, a, b, c);
    RankOfNumber(f, a);
    RankOfNumber(f, b);
    RankOfNumber(f, c);
    RanksAssociate(Rank(a), Rank(b), Rank(c));
    if Rank(left) == Rank(right) { RankWithin(f, left, right); }
  }

  lemma {:induction false} JoinAssociates(a: DataType, b: DataType, c: DataType)
    ensures Join(Join(a, b), c) == Join(a, Join(b, c)) <==> !IsOddTriple(a, b, c)
  {
    if IsOddTriple(a, b, c) { OddAreNumbers(a, b, c); }
    if FamilyOf(a).NoText? || FamilyOf(b).NoText? || FamilyOf(c).NoText? {
      JoinsWithoutText(a, b, c);
    } else if !(FamilyOf(a) == FamilyOf(b) == FamilyOf(c)) {
      JoinsAcross(a, b, c);
    } else if FamilyOf(a) == Numbers || FamilyOf(a) == Moments {
      JoinsWithin(FamilyOf(a), a, b, c);
    } else {
      Alone(a, b);
      Alone(a, c);
    }
  }

  lemma {:induction false} OddAreNumbers(a: DataType, b: DataType, c: DataType)
    requires IsOddTriple(a, b, c)
    ensures FamilyOf(a) == FamilyOf(b) == FamilyOf(c) == Numbers
  {
  }

  lemma {:induction false} Alone(a: DataType, b: DataType)
    requires FamilyOf(a) == FamilyOf(b) && (FamilyOf(a).Text? || FamilyOf(a).Other?)
    ensures a == b && Join(a, a) == a && !IsOddTriple(a, a, a)
  {
  }

  /** The common type does not depend on the grouping, but for the odd triples. */
  lemma {:induction false} WidenedAssociativeExactly(a: DataType, b: DataType, c: DataType)
    ensures GetWidenedType(GetWidenedType(a, b), c) == GetWidenedType(a, GetWidenedType(b, c))
       <==> !IsOddTriple(a, b, c)
  {
    WidenedIsJoin(a, b);
    WidenedIsJoin(b, c);
    WidenedIsJoin(Join(a, b), c);
    WidenedIsJoin(a, Join(b, c));
    JoinAssociates(a, b, c);
  }

  // ---------------------------------------------------------------------------
  // Chains of widenings
  // ---------------------------------------------------------------------------

  lemma {:induction false} ReachesJson(t: DataType)
    ensures CanWiden(t, JSON) <==> !t.Unknown?
  {
  }

  lemma {:induction false} FewPaths(a: DataType, b: DataType)
    requires CanWiden(a, b)
    ensures a == Unknown ==> b == Unknown
    ensures FamilyOf(a).NoText? || a == String ==> b == a || b == JSON
    ensures b != String && b != JSON ==> FamilyOf(a) == FamilyOf(b)
  {
    if b != String && b != JSON && FamilyOf(a) != FamilyOf(b) { NoPathAcross(a, b); }
  }

  lemma {:induction false} ChainToText(a: DataType, b: DataType, c: DataType)
    requires CanWiden(a, b) && CanWiden(b, c) && (c == String || c == JSON)
    ensures CanWiden(a, c)
  {
    FewPaths(a, b);
    FewPaths(b, c);
    ReachesText(a);
    ReachesText(b);
    ReachesJson(a);
  }

  lemma {:induction false} ChainToOther(a: DataType, b: DataType, c: DataType)
    requires a != b && b != c && CanWiden(a, b) && CanWiden(b, c) && c != String && c != JSON
    ensures FamilyOf(a) == FamilyOf(b) == FamilyOf(c) && !FamilyOf(a).NoText?
  {
    FewPaths(b, c);
    FewPaths(a, b);
  }

  /** Widening is transitive but for one chain. */
  lemma {:induction false} CanWidenTransitiveExactly(a: DataType, b: DataType, c: DataType)
    requires CanWiden(a, b) && CanWiden(b, c)
    ensures CanWiden(a, c) <==> !(a == Float32 && b == Float64 && c == Decimal)
  {
    if a == b || b == c {
    } else if c == String || c == JSON {
      ChainToText(a, b, c);
    } else {
      ChainToOther(a, b, c);
      ChainWithin(a, b, c);
    }
  }

  lemma {:induction false} ChainWithin(a: DataType, b: DataType, c: DataType)
    requires FamilyOf(a) == FamilyOf(b) == FamilyOf(c) && !FamilyOf(a).NoText?
    requires a != b && b != c && CanWiden(a, b) && CanWiden(b, c)
    ensures CanWiden(a, c) <==> !(a == Float32 && b == Float64 && c == Decimal)
  {
    PathWithin(a, b);
    PathWithin(b, c);
    PathWithin(a, c);
  }
}
