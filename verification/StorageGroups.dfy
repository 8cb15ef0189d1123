/** Metadata of a storage group and the pruning it allows.
    (examples/compressed_tam/compressed.c and source.c) */
module StorageGroups {
  import opened Expressions
  import opened Int4Kernels
  import opened Vectors

  const DISTINCT: nat := 16

  /** GroupColumn. The distinct values are exact until more than a small fixed set is seen. */
  datatype Summary = Summary(hasNonnull: bool, overflow: bool, minimum: int, maximum: int, distinct: seq<int>)

  const EMPTY: Summary := Summary(false, false, 0, 0, [])

  ghost predicate Bounds(s: Summary, seen: set<int>) {
    && (s.hasNonnull <==> seen != {})
    && (s.hasNonnull ==> s.minimum in seen && s.maximum in seen && forall v | v in seen :: s.minimum <= v <= s.maximum)
  }

  ghost predicate Lists(s: Summary, seen: set<int>) {
    && |s.distinct| <= 16
    && (forall v | v in s.distinct :: v in seen)
    && (forall i, j | 0 <= i < j < |s.distinct| :: s.distinct[i] != s.distinct[j])
    && (!s.overflow ==> forall v | v in seen :: v in s.distinct)
    && (s.overflow ==> |s.distinct| == 16 && exists v | v in seen :: v !in s.distinct)
  }

  /** A summary of exactly these non-NULL values. */
  ghost predicate Summarizes(s: Summary, seen: set<int>) {
    Bounds(s, seen) && Lists(s, seen)
  }

  /** group_contains, and the search inside update_group. */
  method Contains(distinct: seq<int>, value: int) returns (found: bool)
    ensures found <==> value in distinct
  {
    for i := 0 to |distinct|
      invariant value !in distinct[..i]
    {
      if distinct[i] == value {
        return true;
      }
    }
    found := false;
  }

  /** update_group for one non-NULL value. */
  method UpdateValue(s: Summary, value: int, ghost seen: set<int>) returns (after: Summary)
    requires Summarizes(s, seen)
    ensures Summarizes(after, seen + {value})
  {
    after := s;
    if !s.hasNonnull {
      after := after.(hasNonnull := true, minimum := value, maximum := value);
    } else {
      after := after.(minimum := if value < s.minimum then value else s.minimum,
                      maximum := if value > s.maximum then value else s.maximum);
    }
    assert Bounds(after, seen + {value});
    if s.overflow {
      return;
    }
    var known := Contains(s.distinct, value);
    if !known && |s.distinct| < DISTINCT {
      after := after.(distinct := s.distinct + [value]);
    } else if !known {
      after := after.(overflow := true);
    }
  }

  ghost function NonnullValues(values: seq<int>, nonnull: seq<bool>): set<int>
    requires |values| == |nonnull|
  {
    set i | 0 <= i < |values| && nonnull[i] :: values[i]
  }

  /** update_group for one column of one batch. */
  method UpdateColumn(s: Summary, values: seq<int>, nonnull: seq<bool>, ghost seen: set<int>) returns (after: Summary)
    requires |values| == |nonnull| && Summarizes(s, seen)
    ensures Summarizes(after, seen + NonnullValues(values, nonnull))
  {
    hide Summarizes;
    after := s;
    ghost var now := seen;
    for row := 0 to |values|
      invariant now == seen + set i | 0 <= i < row && nonnull[i] :: values[i]
      invariant Summarizes(after, now)
    {
      if nonnull[row] {
        after := UpdateValue(after, values[row], now);
        now := now + {values[row]};
      }
    }
  }

  // ----- pruning -----

  /** One clause of the scan: a filter over one column; prunable if it compares the column itself. */
  datatype Qual = Qual(clause: Node, column: nat, prunable: bool)

  /** pg_batch_expr_match_int4_comparison: the column alone on one side. */
  predicate IsDirect(n: Node)
    requires AnalyzeFilter(n) != None
  {
    Strip(Strip(n).args[AnalyzeFilter(n).value.valueArg]).Var?
  }

  function ScalarSide(n: Node): Node
    requires AnalyzeFilter(n) != None
  {
    Strip(n).args[1 - AnalyzeFilter(n).value.valueArg]
  }

  predicate QualOk(q: Qual) {
    AnalyzeFilter(q.clause) != None && (q.prunable ==> IsDirect(q.clause))
  }

  lemma {:induction false} VarIsItself(n: Node, x: Option<int>)
    requires Strip(n).Var? && Analyze(n) != None
    ensures Eval(n, x) == Ok(x)
    decreases n
  {
    match n
    case Relabel(arg) => VarIsItself(arg, x);
    case _ =>
  }

  /** The verdict of a prunable clause is the comparison of the stored value with its scalar. */
  lemma DirectVerdict(n: Node, x: Option<int>)
    requires AnalyzeFilter(n) != None && IsDirect(n)
    ensures Judge(n, x) == JudgeParts(AnalyzeFilter(n).value.comparison, Ok(x), Eval(ScalarSide(n), None))
  {
    hide Eval, Analyze, Judge, JudgeParts;
    PartsKeepVerdict(n, x);
    VarIsItself(Strip(n).args[AnalyzeFilter(n).value.valueArg], x);
  }

  datatype GroupMatch = Matches | SkipMinMax | SkipMembership

  /** One clause against one summary: may some value compare TRUE? */
  method MayMatch(s: Summary, op: Comparison, scalar: Option<int>) returns (result: GroupMatch)
    ensures result == Judged(s, op, scalar)
  {
    if scalar == None {
      return SkipMinMax;
    }
    if !s.hasNonnull {
      return SkipMinMax;
    }
    var value := scalar.value;
    var matches := InBounds(s, op, value);
    if !matches {
      return SkipMinMax;
    }
    if op == Eq && !s.overflow {
      var found := Contains(s.distinct, value);
      if !found {
        return SkipMembership;
      }
    }
    result := Matches;
  }

  predicate InBounds(s: Summary, op: Comparison, scalar: int) {
    match op
    case Eq => scalar >= s.minimum && scalar <= s.maximum
    case Ne => s.minimum != scalar || s.maximum != scalar
    case Lt => s.minimum < scalar
    case Le => s.minimum <= scalar
    case Gt => s.maximum > scalar
    case Ge => s.maximum >= scalar
  }

  function Judged(s: Summary, op: Comparison, scalar: Option<int>): GroupMatch {
    if scalar == None || !s.hasNonnull || !InBounds(s, op, scalar.value) then SkipMinMax
    else if op == Eq && !s.overflow && scalar.value !in s.distinct then SkipMembership
    else Matches
  }

  ghost predicate SomeCompares(seen: set<int>, op: Comparison, scalar: int) {
    exists v | v in seen :: Compare(op, v, scalar)
  }

  /** A summary that rejects a clause has no value the clause is TRUE for. */
  lemma SkippingIsSound(s: Summary, seen: set<int>, op: Comparison, scalar: Option<int>)
    requires Summarizes(s, seen) && Judged(s, op, scalar) != Matches
    ensures scalar == None || !SomeCompares(seen, op, scalar.value)
  {}

  /** The summary decides exactly, except for equality once the distinct values overflowed. */
  lemma SkippingIsExact(s: Summary, seen: set<int>, op: Comparison, scalar: Option<int>)
    requires Summarizes(s, seen) && !(op == Eq && s.overflow)
    ensures Judged(s, op, scalar) != Matches <==> scalar == None || !SomeCompares(seen, op, scalar.value)
  {
    if scalar != None && s.hasNonnull {
      assert s.minimum in seen && s.maximum in seen;
    }
  }

  /** After an overflow equality is decided by the range alone, and the range cannot tell. */
  lemma OverflowKeepsAbsent()
    ensures var s := Summary(true, true, 0, 100, seq(DISTINCT, i => i));
            var seen := (set v | v in s.distinct) + {100};
            Summarizes(s, seen) && Judged(s, Eq, Some(50)) == Matches && !SomeCompares(seen, Eq, 50)
  {
    var s := Summary(true, true, 0, 100, seq(DISTINCT, i => i));
    var seen := (set v | v in s.distinct) + {100};
    assert s.distinct[0] == 0 && 100 in seen && 100 !in s.distinct;
  }

  /** The scalars of the prunable clauses, as prepare_prune_quals stores them. */
  ghost predicate ScalarsOf(quals: seq<Qual>, scalars: seq<Option<int>>)
  {
    && |scalars| == |quals|
    && forall q | 0 <= q < |quals| && quals[q].prunable :: QualOk(quals[q]) && Eval(ScalarSide(quals[q].clause), None) == Ok(scalars[q])
  }

  /** A summary rejects one of the clauses. */
  predicate Rejects(columns: seq<Summary>, qual: Qual, scalar: Option<int>)
    requires QualOk(qual) && qual.column < |columns|
  {
    qual.prunable && Judged(columns[qual.column], AnalyzeFilter(qual.clause).value.comparison, scalar) != Matches
  }

  /** group_may_match: skipped if and only if some prunable clause is rejected. */
  method GroupMayMatch(columns: seq<Summary>, quals: seq<Qual>, scalars: seq<Option<int>>) returns (result: GroupMatch)
    requires |scalars| == |quals| && forall q | 0 <= q < |quals| :: QualOk(quals[q]) && quals[q].column < |columns|
    ensures result != Matches <==> exists q | 0 <= q < |quals| :: Rejects(columns, quals[q], scalars[q])
  {
    hide AnalyzeFilter, Judged;
    for q := 0 to |quals|
      invariant forall k | 0 <= k < q :: !Rejects(columns, quals[k], scalars[k])
    {
      if quals[q].prunable {
        result := MayMatch(columns[quals[q].column], AnalyzeFilter(quals[q].clause).value.comparison, scalars[q]);
        if result != Matches {
          return;
        }
      }
    }
    result := Matches;
  }

  /** No row whose value the group summarizes passes a clause the group is rejected for. */
  lemma RejectedRowsFail(s: Summary, seen: set<int>, qual: Qual, scalar: Option<int>, x: Option<int>)
    requires QualOk(qual) && qual.prunable && Eval(ScalarSide(qual.clause), None) == Ok(scalar)
    requires Summarizes(s, seen) && (x != None ==> x.value in seen)
    requires Judged(s, AnalyzeFilter(qual.clause).value.comparison, scalar) != Matches
    ensures Judge(qual.clause, x) != True
  {
    hide Eval, Analyze, AnalyzeFilter, Judge, JudgeParts, Judged, Summarizes;
    var op := AnalyzeFilter(qual.clause).value.comparison;
    DirectVerdict(qual.clause, x);
    JudgeRow(op, Ok(x), Ok(scalar));
    SkippingIsSound(s, seen, op, scalar);
  }
}
