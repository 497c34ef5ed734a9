/**
  The order-segment part of subquery promotion: once a plan is frozen into a
  derived table, each order segment is rewritten into a column access on that
  table. A column whose body is structurally equal to the order expression is
  reused; otherwise a column with a fresh alias is appended to the frozen
  query's output list.
*/
module SubQueryPromotion {

  import opened DbExpressions
  import opened Collaborators

  /** One rewritten segment and the frozen query's column list after it. */
  datatype RewrittenSegment = RewrittenSegment(segment: OrderSegment, query: SqlQuery)

  /** All rewritten segments, in order, and the frozen query after the last of them. */
  datatype Promoted = Promoted(segments: seq<OrderSegment>, query: SqlQuery)

  /**
    The rewritten segment `seg'` orders by a column access on `tableAlias`
    whose column is the alias of the first output column with body `e`, keeps
    the type of `e`, and such a column exists.
  */
  predicate RefersToColumnFor<H>(seg': OrderSegment, e: DbExpr, columns: seq<ColumnSegment>,
                                 tableAlias: string, svc: Services<H>)
  {
    && HasColumnFor(columns, e)
    && seg'.expr == ColumnAccess(svc.typeOf(e), tableAlias, columns[FirstMatch(columns, e)].alias)
  }

  /** Every column from index `from` on is the first column with its body. */
  predicate AddedColumnsAreNew(columns: seq<ColumnSegment>, from: nat) {
    forall k :: from <= k < |columns| ==> FirstMatch(columns, columns[k].body) == k
  }

  /**
    Every column from the end of `q`'s columns on carries the alias the
    generator gave the query as it stood just before that column was added.
  */
  predicate GeneratedAliases<H>(columns: seq<ColumnSegment>, q: SqlQuery, svc: Services<H>) {
    forall k :: |q.columns| <= k < |columns| ==> columns[k].alias == svc.columnAlias(q.(columns := columns[..k]))
  }

  /** One iteration of the rewrite (the body of the loop over the order segments). */
  function RewriteOrderSegment<H>(seg: OrderSegment, q: SqlQuery, tableAlias: string,
                                  svc: Services<H>): (r: RewrittenSegment)
    ensures r.segment.orderType == seg.orderType
    ensures r.query == q.(columns := r.query.columns) && q.columns <= r.query.columns
    ensures RefersToColumnFor(r.segment, seg.expr, r.query.columns, tableAlias, svc)
    ensures HasColumnFor(q.columns, seg.expr) <==> r.query == q
    ensures !HasColumnFor(q.columns, seg.expr) ==>
              r.query.columns == q.columns + [ColumnSegment(seg.expr, svc.columnAlias(q))]
  {
    var e := seg.expr;
    var k := FirstMatch(q.columns, e);
    if k < |q.columns| then
      RewrittenSegment(OrderSegment(ColumnAccess(svc.typeOf(e), tableAlias, q.columns[k].alias), seg.orderType), q)
    else
      var alias := svc.columnAlias(q);
      var col := ColumnSegment(e, alias);
      FirstMatchOfAppended(q.columns, col);
      RewrittenSegment(OrderSegment(ColumnAccess(svc.typeOf(e), tableAlias, alias), seg.orderType),
                       q.(columns := q.columns + [col]))
  }

  /**
    The rewrite of all order segments, in sequence order, threading the
    output column list from one segment to the next.
  */
  function RewriteOrders<H>(orders: seq<OrderSegment>, q: SqlQuery, tableAlias: string,
                            svc: Services<H>): (r: Promoted)
    ensures |r.segments| == |orders|
    ensures forall i :: 0 <= i < |orders| ==> r.segments[i].orderType == orders[i].orderType
    ensures r.query == q.(columns := r.query.columns)
    ensures q.columns <= r.query.columns
    ensures |r.query.columns| <= |q.columns| + |orders|
    ensures forall i :: 0 <= i < |orders| ==>
              RefersToColumnFor(r.segments[i], orders[i].expr, r.query.columns, tableAlias, svc)
    ensures AddedColumnsAreNew(r.query.columns, |q.columns|)
    ensures GeneratedAliases(r.query.columns, q, svc)
    decreases |orders|
  {
    if |orders| == 0 then Promoted([], q)
    else
      var n := |orders| - 1;
      var prev := RewriteOrders(orders[..n], q, tableAlias, svc);
      var step := RewriteOrderSegment(orders[n], prev.query, tableAlias, svc);
      RewriteStepKeepsReferences(orders, prev.segments, prev.query, step, tableAlias, svc);
      RewriteStepKeepsNewColumns(q, prev.query, step);
      RewriteStepKeepsAliases(q, prev.query, step, svc);
      Promoted(prev.segments + [step.segment], step.query)
  }

  /** A rewrite step leaves every earlier rewritten segment naming the same first column. */
  lemma RewriteStepKeepsReferences<H>(orders: seq<OrderSegment>, segments: seq<OrderSegment>, prev: SqlQuery,
                                      step: RewrittenSegment, tableAlias: string, svc: Services<H>)
    requires |orders| > 0 && |segments| == |orders| - 1
    requires forall i :: 0 <= i < |orders| - 1 ==>
               RefersToColumnFor(segments[i], orders[i].expr, prev.columns, tableAlias, svc)
    requires step == RewriteOrderSegment(orders[|orders| - 1], prev, tableAlias, svc)
    ensures forall i :: 0 <= i < |orders| ==>
              RefersToColumnFor((segments + [step.segment])[i], orders[i].expr, step.query.columns, tableAlias, svc)
  {
    var cols, cols' := prev.columns, step.query.columns;
    var tail := cols'[|cols|..];
    assert cols' == cols + tail;
    forall i | 0 <= i < |orders| - 1
      ensures RefersToColumnFor((segments + [step.segment])[i], orders[i].expr, cols', tableAlias, svc)
    {
      FirstMatchStableUnderAppend(cols, tail, orders[i].expr);
    }
  }

  /** A rewrite step keeps every column added so far the first with its body. */
  lemma RewriteStepKeepsNewColumns(q: SqlQuery, prev: SqlQuery, step: RewrittenSegment)
    requires q.columns <= prev.columns <= step.query.columns
    requires |step.query.columns| == |prev.columns| ==> step.query == prev
    requires |step.query.columns| != |prev.columns| ==>
               |step.query.columns| == |prev.columns| + 1 && !HasColumnFor(prev.columns, step.query.columns[|prev.columns|].body)
    requires AddedColumnsAreNew(prev.columns, |q.columns|)
    ensures AddedColumnsAreNew(step.query.columns, |q.columns|)
  {
    var cols, cols' := prev.columns, step.query.columns;
    var tail := cols'[|cols|..];
    assert cols' == cols + tail;
    forall k | |q.columns| <= k < |cols'|
      ensures FirstMatch(cols', cols'[k].body) == k
    {
      if k < |cols| {
        assert cols'[k] == cols[k];
        FirstMatchStableUnderAppend(cols, tail, cols[k].body);
      } else {
        FirstMatchOfAppended(cols, cols'[k]);
      }
    }
  }

  /** A rewrite step keeps every added column's alias the one generated for the query before it. */
  lemma RewriteStepKeepsAliases<H>(q: SqlQuery, prev: SqlQuery, step: RewrittenSegment, svc: Services<H>)
    requires prev == q.(columns := prev.columns) && q.columns <= prev.columns <= step.query.columns
    requires |step.query.columns| != |prev.columns| ==>
               step.query.columns == prev.columns + [step.query.columns[|prev.columns|]]
               && step.query.columns[|prev.columns|].alias == svc.columnAlias(prev)
    requires |step.query.columns| <= |prev.columns| + 1
    requires GeneratedAliases(prev.columns, q, svc)
    ensures GeneratedAliases(step.query.columns, q, svc)
  {
    var cols, cols' := prev.columns, step.query.columns;
    forall k | |q.columns| <= k < |cols'|
      ensures cols'[k].alias == svc.columnAlias(q.(columns := cols'[..k]))
    {
      if k < |cols| {
        assert cols'[..k] == cols[..k];
      } else {
        assert cols'[..k] == cols;
      }
    }
  }

  /** Rewriting one more segment extends the rewrite of the prefix by one step. */
  lemma RewriteOrdersSnoc<H>(orders: seq<OrderSegment>, i: nat, q: SqlQuery, tableAlias: string,
                             svc: Services<H>)
    requires i < |orders|
    ensures var prev := RewriteOrders(orders[..i], q, tableAlias, svc);
            var step := RewriteOrderSegment(orders[i], prev.query, tableAlias, svc);
            RewriteOrders(orders[..i + 1], q, tableAlias, svc) == Promoted(prev.segments + [step.segment], step.query)
  {
    assert orders[..i + 1][..i] == orders[..i];
  }

  /**
    The column lookup of promotion (`QueryStateBase.cs:184`) as a linear
    search: the index of the first column whose body equals `e`, or
    `|columns|` when none has it.
  */
  method FindColumn(columns: seq<ColumnSegment>, e: DbExpr) returns (j: nat)
    ensures j == FirstMatch(columns, e)
  {
    j := 0;
    while j < |columns| && columns[j].body != e
      invariant j <= |columns|
      invariant forall m :: 0 <= m < j ==> columns[m].body != e
    {
      j := j + 1;
    }
    assert j < |columns| ==> columns[j].body == e;
  }

  /**
    The loop over the order segments as `AsSubQueryState` writes it: look up a
    column with an equal body, then either reuse its alias or append a column
    under a fresh alias, and emit the rewritten segment.
  */
  method PromoteOrderSegments<H>(orders: seq<OrderSegment>, q: SqlQuery, tableAlias: string,
                                 svc: Services<H>) returns (newOrders: seq<OrderSegment>, query: SqlQuery)
    ensures Promoted(newOrders, query) == RewriteOrders(orders, q, tableAlias, svc)
    ensures |newOrders| == |orders|
    ensures forall i :: 0 <= i < |orders| ==> newOrders[i].orderType == orders[i].orderType
    ensures q.columns <= query.columns && |query.columns| <= |q.columns| + |orders|
  {
    newOrders, query := [], q;
    for i := 0 to |orders|
      invariant Promoted(newOrders, query) == RewriteOrders(orders[..i], q, tableAlias, svc)
    {
      ghost var before := query;
      var orderSeg := orders[i];
      var orderExp := orderSeg.expr;
      var j := FindColumn(query.columns, orderExp);
      var alias;
      if j < |query.columns| {
        alias := query.columns[j].alias;
      } else {
        alias := svc.columnAlias(query);
        query := query.(columns := query.columns + [ColumnSegment(orderExp, alias)]);
      }
      newOrders := newOrders + [OrderSegment(ColumnAccess(svc.typeOf(orderExp), tableAlias, alias), orderSeg.orderType)];
      assert RewrittenSegment(newOrders[i], query) == RewriteOrderSegment(orderSeg, before, tableAlias, svc);
      RewriteOrdersSnoc(orders, i, q, tableAlias, svc);
    }
    assert orders[..|orders|] == orders;
  }

  /** Two segments ordering by structurally equal expressions refer to the same output column. */
  lemma EqualOrderExpressionsShareColumn<H>(orders: seq<OrderSegment>, q: SqlQuery, tableAlias: string,
                                            svc: Services<H>, i: nat, j: nat)
    requires i < |orders| && j < |orders| && orders[i].expr == orders[j].expr
    ensures var r := RewriteOrders(orders, q, tableAlias, svc);
            r.segments[i].expr == r.segments[j].expr
  {
  }

  /** The bodies of the columns from index `from` on. */
  ghost function AddedBodies(columns: seq<ColumnSegment>, from: nat): set<DbExpr> {
    set k | from <= k < |columns| :: columns[k].body
  }

  /** The order expressions that no column of `columns` already projects. */
  ghost function UnprojectedOrderExprs(orders: seq<OrderSegment>, columns: seq<ColumnSegment>): set<DbExpr> {
    set i | 0 <= i < |orders| && !HasColumnFor(columns, orders[i].expr) :: orders[i].expr
  }

  /** No two columns from index `from` on share a body. */
  predicate DistinctBodiesFrom(columns: seq<ColumnSegment>, from: nat) {
    forall j, k :: from <= j < k < |columns| ==> columns[j].body != columns[k].body
  }

  /** A column list with pairwise distinct bodies from `from` on has one body per such column. */
  lemma {:induction false} AddedBodiesCount(columns: seq<ColumnSegment>, from: nat)
    requires from <= |columns|
    requires DistinctBodiesFrom(columns, from)
    ensures |AddedBodies(columns, from)| == |columns| - from
    decreases |columns|
  {
    if |columns| > from {
      var n := |columns| - 1;
      var init := columns[..n];
      assert DistinctBodiesFrom(init, from);
      AddedBodiesCount(init, from);
      assert AddedBodies(columns, from) == AddedBodies(init, from) + {columns[n].body};
    } else {
      assert AddedBodies(columns, from) == {};
    }
  }

  /** Unprojected order expressions of a sequence: those of its prefix plus possibly its last one. */
  lemma UnprojectedOrderExprsSnoc(orders: seq<OrderSegment>, base: seq<ColumnSegment>)
    requires |orders| > 0
    ensures var e := orders[|orders| - 1].expr;
            UnprojectedOrderExprs(orders, base)
              == UnprojectedOrderExprs(orders[..|orders| - 1], base) + (if HasColumnFor(base, e) then {} else {e})
  {
  }

  /** A body the extended columns match, but the original columns do not, is an added body. */
  lemma MatchedOutsideBaseIsAdded(base: seq<ColumnSegment>, cols: seq<ColumnSegment>, e: DbExpr)
    requires base <= cols
    requires HasColumnFor(cols, e) && !HasColumnFor(base, e)
    ensures e in AddedBodies(cols, |base|)
  {
  }

  /** A body the original columns match is matched by every extension of them. */
  lemma MatchedInBaseStaysMatched(base: seq<ColumnSegment>, cols: seq<ColumnSegment>, e: DbExpr)
    requires base <= cols
    requires HasColumnFor(base, e)
    ensures HasColumnFor(cols, e)
  {
  }

  /** One rewrite step adds to the added bodies exactly the order expression, if the original columns lack it. */
  lemma AddedBodiesStep(base: seq<ColumnSegment>, cols: seq<ColumnSegment>, cols': seq<ColumnSegment>,
                        e: DbExpr, alias: string)
    requires base <= cols
    requires HasColumnFor(cols, e) ==> cols' == cols
    requires !HasColumnFor(cols, e) ==> cols' == cols + [ColumnSegment(e, alias)]
    ensures AddedBodies(cols', |base|) == AddedBodies(cols, |base|) + (if HasColumnFor(base, e) then {} else {e})
  {
    if HasColumnFor(cols, e) {
      if !HasColumnFor(base, e) {
        MatchedOutsideBaseIsAdded(base, cols, e);
      }
    } else {
      assert cols'[|cols|].body == e;
      forall x | x in AddedBodies(cols', |base|)
        ensures x in AddedBodies(cols, |base|) + {e}
      {
        var k :| |base| <= k < |cols'| && cols'[k].body == x;
        if k < |cols| { assert cols[k] == cols'[k]; }
      }
      forall x | x in AddedBodies(cols, |base|)
        ensures x in AddedBodies(cols', |base|)
      {
        var k :| |base| <= k < |cols| && cols[k].body == x;
        assert cols'[k] == cols[k];
      }
      if HasColumnFor(base, e) {
        MatchedInBaseStaysMatched(base, cols, e);
      }
    }
  }

  /**
    The columns promotion appends are exactly the order expressions the
    frozen query did not already project.
  */
  lemma {:induction false} PromotionAddsUnprojectedExprs<H>(orders: seq<OrderSegment>, q: SqlQuery,
                                                           tableAlias: string, svc: Services<H>)
    ensures AddedBodies(RewriteOrders(orders, q, tableAlias, svc).query.columns, |q.columns|)
         == UnprojectedOrderExprs(orders, q.columns)
    decreases |orders|
  {
    if |orders| == 0 {
      assert AddedBodies(q.columns, |q.columns|) == {};
      assert UnprojectedOrderExprs(orders, q.columns) == {};
    } else {
      var n := |orders| - 1;
      PromotionAddsUnprojectedExprs(orders[..n], q, tableAlias, svc);
      var prev := RewriteOrders(orders[..n], q, tableAlias, svc);
      var step := RewriteOrderSegment(orders[n], prev.query, tableAlias, svc);
      assert RewriteOrders(orders, q, tableAlias, svc).query == step.query;
      UnprojectedOrderExprsSnoc(orders, q.columns);
      AddedBodiesStep(q.columns, prev.query.columns, step.query.columns, orders[n].expr, svc.columnAlias(prev.query));
    }
  }

  /**
    Promotion appends exactly one column per distinct order expression the
    frozen query did not already project, so two equal order expressions
    never add two columns.
  */
  lemma PromotionAddsOneColumnPerNewExpression<H>(orders: seq<OrderSegment>, q: SqlQuery,
                                                  tableAlias: string, svc: Services<H>)
    ensures var r := RewriteOrders(orders, q, tableAlias, svc);
            |r.query.columns| - |q.columns| == |UnprojectedOrderExprs(orders, q.columns)|
  {
    var cols := RewriteOrders(orders, q, tableAlias, svc).query.columns;
    PromotionAddsUnprojectedExprs(orders, q, tableAlias, svc);
    assert DistinctBodiesFrom(cols, |q.columns|) by {
      forall j, k | |q.columns| <= j < k < |cols|
        ensures cols[j].body != cols[k].body
      {
        assert FirstMatch(cols, cols[k].body) == k;
      }
    }
    AddedBodiesCount(cols, |q.columns|);
  }

  /**
    When the alias generator never reuses an alias of the query it is given
    and the projected columns start with distinct aliases, the promoted
    columns keep distinct aliases, so each rewritten segment's alias names
    exactly one column, and that column's body is the original order
    expression.
  */
  lemma PromotedOrderColumnsResolve<H>(orders: seq<OrderSegment>, q: SqlQuery, tableAlias: string,
                                       svc: Services<H>)
    requires FreshColumnAliases(svc)
    requires DistinctAliases(q.columns)
    ensures var r := RewriteOrders(orders, q, tableAlias, svc);
            && DistinctAliases(r.query.columns)
            && forall i, k :: 0 <= i < |orders| && 0 <= k < |r.query.columns| &&
                              r.query.columns[k].alias == r.segments[i].expr.column ==>
                                r.query.columns[k].body == orders[i].expr
  {
    var r := RewriteOrders(orders, q, tableAlias, svc);
    var cols := r.query.columns;
    forall j, k | 0 <= j < k < |cols|
      ensures cols[j].alias != cols[k].alias
    {
      if k >= |q.columns| {
        var qk := q.(columns := cols[..k]);
        assert qk.columns[j] == cols[j];
        assert qk.columns[j].alias != svc.columnAlias(qk);
      } else {
        assert cols[j] == q.columns[j] && cols[k] == q.columns[k];
      }
    }
    forall i, k | 0 <= i < |orders| && 0 <= k < |cols| && cols[k].alias == r.segments[i].expr.column
      ensures cols[k].body == orders[i].expr
    {
      var f := FirstMatch(cols, orders[i].expr);
      assert RefersToColumnFor(r.segments[i], orders[i].expr, cols, tableAlias, svc);
      assert cols[f].alias == cols[k].alias;
      assert k == f;
    }
  }
}
