/**
  The plan record (`ResultElement`) that a query state owns: the from-table,
  the filter condition, the ordered order segments with the flag saying they
  were inherited from a subquery, the group segments, the having condition
  and the current mapping object.
*/
module ResultElements {

  import opened Wrappers
  import opened DbExpressions

  datatype ResultElement = ResultElement(
    fromTable: FromTable,
    condition: Option<DbExpr>,
    orderSegments: seq<OrderSegment>,
    isOrderSegmentsFromSubQuery: bool,
    groupSegments: seq<DbExpr>,
    havingCondition: Option<DbExpr>,
    mapping: Mapping)

  /**
    A freshly constructed `ResultElement` once its from-table and mapping are
    set: no condition, no order, group or having, and the inherited flag unset.
  */
  function NewResult(fromTable: FromTable, mapping: Mapping): (r: ResultElement)
    ensures r.fromTable == fromTable && r.mapping == mapping
    ensures r.condition.None? && r.havingCondition.None?
    ensures |r.orderSegments| == 0 && |r.groupSegments| == 0
    ensures !r.isOrderSegmentsFromSubQuery
  {
    ResultElement(fromTable, None, [], false, [], None, mapping)
  }

  /**
    `AppendCondition` / `AppendHavingCondition`. An absent current condition
    takes the appended one; an absent appended condition leaves the current
    one; two present conditions are joined by the uninterpreted `combine`.
  */
  function AppendCondition(current: Option<DbExpr>, appended: Option<DbExpr>,
                           combine: (DbExpr, DbExpr) -> DbExpr): (r: Option<DbExpr>)
    ensures current.Some? || appended.Some? <==> r.Some?
    ensures current.None? ==> r == appended
    ensures appended.None? ==> r == current
    ensures current.Some? && appended.Some? ==> r == Some(combine(current.value, appended.value))
  {
    match (current, appended)
    case (None, _) => appended
    case (Some(_), None) => current
    case (Some(c), Some(a)) => Some(combine(c, a))
  }

  /** Appends each condition of `appended`, in order, one append per element. */
  function AppendConditions(current: Option<DbExpr>, appended: seq<DbExpr>,
                            combine: (DbExpr, DbExpr) -> DbExpr): (r: Option<DbExpr>)
    ensures |appended| == 0 ==> r == current
    ensures |appended| == 1 ==> r == AppendCondition(current, Some(appended[0]), combine)
    ensures r.Some? <==> current.Some? || |appended| > 0
    decreases |appended|
  {
    if |appended| == 0 then current
    else AppendCondition(AppendConditions(current, appended[..|appended| - 1], combine),
                         Some(appended[|appended| - 1]), combine)
  }

  /**
    Appending the conditions of `xs + ys` is appending those of `xs`, then
    those of `ys`: the appends happen one by one, in sequence order.
  */
  lemma {:induction false} AppendConditionsSplit(current: Option<DbExpr>, xs: seq<DbExpr>, ys: seq<DbExpr>,
                                                 combine: (DbExpr, DbExpr) -> DbExpr)
    ensures AppendConditions(current, xs + ys, combine)
         == AppendConditions(AppendConditions(current, xs, combine), ys, combine)
    decreases |ys|
  {
    if |ys| == 0 {
      assert xs + ys == xs;
    } else {
      AppendConditionsSplit(current, xs, ys[..|ys| - 1], combine);
      assert (xs + ys)[..|xs + ys| - 1] == xs + ys[..|ys| - 1];
      assert (xs + ys)[|xs + ys| - 1] == ys[|ys| - 1];
    }
  }
}
