/**
  The default operator handlers of a query state (`QueryStateBase`): each one
  turns a query operator into a change of the plan record the state owns, or
  into a new state over a new plan record.

  A call on a state may both mutate the state's own `ResultElement` in place
  and return a state; `Outcome` therefore reports the receiver's
  `ResultElement` after the call (`current`) beside the state returned
  (`next`), or beside the error raised (`Thrown`).
*/
module QueryStateBase {

  import opened Wrappers
  import opened DbExpressions
  import opened ResultElements
  import opened QueryExpressions
  import opened Collaborators
  import opened SubQueryPromotion

  /**
    The class of a query state: `GeneralQueryState`, `SkipQueryState` and
    `TakeQueryState` (with their count), `AggregateQueryState`,
    `GroupingQueryState`.
  */
  datatype StateKind =
    | General
    | SkipState(skipCount: int)
    | TakeState(takeCount: int)
    | AggregateState
    | GroupingState

  datatype QueryState = QueryState(kind: StateKind, result: ResultElement)

  datatype Error = NotSupported(message: string)

  datatype Outcome =
    | Returned(next: QueryState, current: ResultElement)
    | Thrown(error: Error, current: ResultElement)

  /** `FromQueryResult`: a derived table to read from, and its mapping. */
  datatype FromQueryResult = FromQueryResult(fromTable: FromTable, mapping: Mapping)

  /** `JoinQueryResult`: a derived table joined under a condition, and its mapping. */
  datatype JoinQueryResult<J> = JoinQueryResult(mapping: Mapping, joinTable: JoinTable<J>)

  /** `MoeList`: the lowering context of a state, its one current mapping. */
  function MoeList(r: ResultElement): (moes: seq<Mapping>)
    ensures |moes| == 1 && moes[0] == r.mapping
  {
    [r.mapping]
  }

  predicate IsOrderKind(t: QueryExpressionType) {
    t.OrderBy? || t.OrderByDesc? || t.ThenBy? || t.ThenByDesc?
  }

  /** A primary order operator, as opposed to a then-by. */
  predicate IsPrimaryOrderKind(t: QueryExpressionType) {
    t.OrderBy? || t.OrderByDesc?
  }

  /** Lowers each expression against `moes`, keeping their order. */
  function LowerAll<H>(hs: seq<H>, moes: seq<Mapping>, lower: (H, seq<Mapping>) -> DbExpr): (r: seq<DbExpr>)
    ensures |r| == |hs|
    ensures forall i :: 0 <= i < |hs| ==> r[i] == lower(hs[i], moes)
    decreases |hs|
  {
    if |hs| == 0 then []
    else LowerAll(hs[..|hs| - 1], moes, lower) + [lower(hs[|hs| - 1], moes)]
  }

  /**
    `VisistOrderExpression`: lowers the key and resolves the direction;
    ascending for OrderBy and ThenBy, descending for OrderByDesc and
    ThenByDesc, and NotSupported naming the kind for anything else.
  */
  function VisitOrderExpression<H>(moes: seq<Mapping>, nodeType: QueryExpressionType, key: H,
                                   svc: Services<H>): (r: Result<OrderSegment, Error>)
    ensures r.Success? <==> IsOrderKind(nodeType)
    ensures r.Success? ==> r.value.expr == svc.lowerGeneral(key, moes)
    ensures (nodeType.OrderBy? || nodeType.ThenBy?) ==> r.Success? && r.value.orderType == Asc
    ensures (nodeType.OrderByDesc? || nodeType.ThenByDesc?) ==> r.Success? && r.value.orderType == Desc
    ensures r.Failure? ==> r.error == NotSupported(KindName(nodeType))
  {
    var dbExpression := svc.lowerGeneral(key, moes);
    if nodeType.OrderBy? || nodeType.ThenBy? then
      Success(OrderSegment(dbExpression, Asc))
    else if nodeType.OrderByDesc? || nodeType.ThenByDesc? then
      Success(OrderSegment(dbExpression, Desc))
    else
      Failure(NotSupported(KindName(nodeType)))
  }

  /** `Accept(WhereExpression)`: appends the lowered predicate to the condition, in place. */
  function AcceptWhere<H>(s: QueryState, filter: H, svc: Services<H>): (t: Outcome)
    ensures t.Returned? && t.next == QueryState(s.kind, t.current)
    ensures t.current == s.result.(condition := t.current.condition)
    ensures t.current.condition
         == AppendCondition(s.result.condition, Some(svc.lowerFilter(filter, MoeList(s.result))), svc.combine)
  {
    var dbExp := svc.lowerFilter(filter, MoeList(s.result));
    var r := s.result.(condition := AppendCondition(s.result.condition, Some(dbExp), svc.combine));
    Returned(QueryState(s.kind, r), r)
  }

  /**
    `Accept(OrderExpression)`. A primary operator clears the segments first;
    segments inherited from a subquery are cleared by any order operator,
    which also resets the flag; the new segment is then appended.
  */
  function AcceptOrder<H>(s: QueryState, nodeType: QueryExpressionType, key: H, svc: Services<H>): (t: Outcome)
    ensures t.Thrown? <==> !IsOrderKind(nodeType)
    ensures t.Thrown? ==> t.error == NotSupported(KindName(nodeType)) && t.current == s.result
    ensures t.Returned? ==> t.next == QueryState(s.kind, t.current)
    ensures t.Returned? ==>
              && !t.current.isOrderSegmentsFromSubQuery
              && t.current == s.result.(orderSegments := t.current.orderSegments, isOrderSegmentsFromSubQuery := false)
    ensures t.Returned? ==>
              var seg := VisitOrderExpression(MoeList(s.result), nodeType, key, svc).value;
              && ((IsPrimaryOrderKind(nodeType) || s.result.isOrderSegmentsFromSubQuery) ==>
                    t.current.orderSegments == [seg])
              && ((!IsPrimaryOrderKind(nodeType) && !s.result.isOrderSegmentsFromSubQuery) ==>
                    t.current.orderSegments == s.result.orderSegments + [seg])
  {
    var r := s.result;
    var cleared := if nodeType.OrderBy? || nodeType.OrderByDesc? then r.(orderSegments := []) else r;
    match VisitOrderExpression(MoeList(cleared), nodeType, key, svc)
    case Failure(e) => Thrown(e, cleared)
    case Success(orderSeg) =>
      var uninherited :=
        if cleared.isOrderSegmentsFromSubQuery
        then cleared.(orderSegments := [], isOrderSegmentsFromSubQuery := false)
        else cleared;
      var appended := uninherited.(orderSegments := uninherited.orderSegments + [orderSeg]);
      Returned(QueryState(s.kind, appended), appended)
  }

  /**
    `CreateNewResult`: a new plan over the same from-table, with the same
    order segments in the same sequence, the same condition, group segments
    and having, and the mapping the selector yields against this state's
    mapping. The inherited-from-subquery flag is not carried over.
  */
  function CreateNewResult<H>(r: ResultElement, selector: H, svc: Services<H>): (n: ResultElement)
    ensures n.fromTable == r.fromTable
    ensures n.orderSegments == r.orderSegments
    ensures n.condition == r.condition
    ensures n.groupSegments == r.groupSegments
    ensures n.havingCondition == r.havingCondition
    ensures n.mapping == svc.lowerSelector(selector, MoeList(r))
    ensures !n.isOrderSegmentsFromSubQuery
  {
    var blank := NewResult(r.fromTable, svc.lowerSelector(selector, MoeList(r)));
    blank.(orderSegments := blank.orderSegments + r.orderSegments,
           condition := AppendCondition(blank.condition, r.condition, svc.combine),
           groupSegments := blank.groupSegments + r.groupSegments,
           havingCondition := AppendCondition(blank.havingCondition, r.havingCondition, svc.combine))
  }

  /** `Accept(SelectExpression)`: a general state over a new plan; this state is untouched. */
  function AcceptSelect<H>(s: QueryState, selector: H, svc: Services<H>): (t: Outcome)
    ensures t.Returned? && t.current == s.result
    ensures t.next == QueryState(General, CreateNewResult(s.result, selector, svc))
  {
    Returned(QueryState(General, CreateNewResult(s.result, selector, svc)), s.result)
  }

  /** `Accept(SkipExpression)`: a skip state over this state's plan, which is untouched. */
  function AcceptSkip(s: QueryState, count: int): (t: Outcome)
    ensures t.Returned? && t.current == s.result
    ensures t.next.kind == SkipState(count) && t.next.result == s.result
  {
    Returned(QueryState(SkipState(count), s.result), s.result)
  }

  /** `Accept(TakeExpression)`: a take state over this state's plan, which is untouched. */
  function AcceptTake(s: QueryState, count: int): (t: Outcome)
    ensures t.Returned? && t.current == s.result
    ensures t.next.kind == TakeState(count) && t.next.result == s.result
  {
    Returned(QueryState(TakeState(count), s.result), s.result)
  }

  /**
    `Accept(AggregateQueryExpression)`: an aggregate state over a new plan that
    keeps only the from-table and the condition, mapped to one aggregate over
    the lowered parameters in input order.
  */
  function AcceptAggregate<H>(s: QueryState, elementType: TypeName, aggregateMethod: string,
                              parameters: seq<H>, svc: Services<H>): (t: Outcome)
    ensures t.Returned? && t.current == s.result && t.next.kind == AggregateState
    ensures var a := t.next.result;
            && a.fromTable == s.result.fromTable
            && a.condition == s.result.condition
            && |a.orderSegments| == 0 && |a.groupSegments| == 0 && a.havingCondition.None?
            && !a.isOrderSegmentsFromSubQuery
    ensures var m := t.next.result.mapping;
            && m.FieldMapping? && m.fieldType == elementType
            && m.body.Aggregate? && m.body.elementType == elementType
            && m.body.aggregateMethod == aggregateMethod
            && |m.body.parameters| == |parameters|
            && forall i :: 0 <= i < |parameters| ==>
                 m.body.parameters[i] == svc.lowerGeneral(parameters[i], MoeList(s.result))
  {
    var dbParameters := LowerAll(parameters, MoeList(s.result), svc.lowerGeneral);
    var dbAggregateExp := Aggregate(elementType, aggregateMethod, dbParameters);
    var mfe := FieldMapping(elementType, dbAggregateExp);
    var blank := NewResult(s.result.fromTable, mfe);
    var result := blank.(condition := AppendCondition(blank.condition, s.result.condition, svc.combine));
    Returned(QueryState(AggregateState, result), s.result)
  }

  /**
    `Accept(GroupingQueryExpression)`: appends the lowered group keys to this
    state's group segments and each lowered having predicate to its having
    condition, in place, then builds a grouping state over a new plan copied
    from the mutated one.
  */
  function AcceptGrouping<H>(s: QueryState, groupPredicates: seq<H>, havingPredicates: seq<H>,
                             selector: H, svc: Services<H>): (t: Outcome)
    ensures t.Returned? && t.next.kind == GroupingState
    ensures t.current == s.result.(groupSegments := t.current.groupSegments,
                                   havingCondition := t.current.havingCondition)
    ensures var g := t.current.groupSegments;
            && |g| == |s.result.groupSegments| + |groupPredicates|
            && g[..|s.result.groupSegments|] == s.result.groupSegments
            && forall i :: 0 <= i < |groupPredicates| ==>
                 g[|s.result.groupSegments| + i] == svc.lowerGeneral(groupPredicates[i], MoeList(s.result))
    ensures t.current.havingCondition
         == AppendConditions(s.result.havingCondition,
                             LowerAll(havingPredicates, MoeList(s.result), svc.lowerGeneral), svc.combine)
    ensures var n := t.next.result;
            && n.fromTable == s.result.fromTable
            && n.condition == s.result.condition
            && n.orderSegments == s.result.orderSegments
            && n.groupSegments == t.current.groupSegments
            && n.havingCondition == t.current.havingCondition
            && n.mapping == svc.lowerSelector(selector, MoeList(s.result))
            && !n.isOrderSegmentsFromSubQuery
  {
    var moeList := MoeList(s.result);
    var grouped := s.result.(groupSegments := s.result.groupSegments
                                              + LowerAll(groupPredicates, moeList, svc.lowerGeneral));
    var having := grouped.(havingCondition := AppendConditions(grouped.havingCondition,
                                                               LowerAll(havingPredicates, moeList, svc.lowerGeneral),
                                                               svc.combine));
    Returned(QueryState(GroupingState, CreateNewResult(having, selector, svc)), having)
  }

  /** The base handler for any operator node. */
  function Accept<H>(s: QueryState, op: QueryExpression<H>, svc: Services<H>): (t: Outcome)
    ensures t.Thrown? <==> op.Order? && !IsOrderKind(op.nodeType)
  {
    match op
    case Where(filter) => AcceptWhere(s, filter, svc)
    case Order(nodeType, key) => AcceptOrder(s, nodeType, key, svc)
    case Select(selector) => AcceptSelect(s, selector, svc)
    case Skip(count) => AcceptSkip(s, count)
    case Take(count) => AcceptTake(s, count)
    case AggregateQuery(elementType, aggregateMethod, parameters) =>
      AcceptAggregate(s, elementType, aggregateMethod, parameters, svc)
    case GroupingQuery(groupPredicates, havingPredicates, selector) =>
      AcceptGrouping(s, groupPredicates, havingPredicates, selector, svc)
  }

  /**
    `CreateSqlQuery`: renders the plan as one query level, with no output
    columns yet and the plan's clauses as they stand.
  */
  function CreateSqlQuery(r: ResultElement): (q: SqlQuery)
    ensures |q.columns| == 0
    ensures q.table == r.fromTable && q.condition == r.condition
    ensures q.orderSegments == r.orderSegments
    ensures q.groupSegments == r.groupSegments && q.havingCondition == r.havingCondition
  {
    SqlQuery(r.fromTable, [], r.condition, r.orderSegments, r.groupSegments, r.havingCondition)
  }

  /** The rendered query of a state with the columns its mapping projects onto it under `alias`. */
  function ProjectedQuery<H>(r: ResultElement, alias: string, svc: Services<H>): (q: SqlQuery)
    ensures q == CreateSqlQuery(r).(columns := q.columns)
    ensures q.columns == svc.rebind(r.mapping, CreateSqlQuery(r), alias).columns
  {
    var sqlQuery := CreateSqlQuery(r);
    sqlQuery.(columns := sqlQuery.columns + svc.rebind(r.mapping, sqlQuery, alias).columns)
  }

  /**
    `AsSubQueryState`: freezes the plan into a derived table under a fresh
    alias, rebinds the mapping to it, and rewrites each order segment to a
    column access on it, reusing a structurally equal output column or
    appending one. The new plan's segments are marked as inherited.
  */
  function AsSubQueryState<H>(s: QueryState, svc: Services<H>): (p: QueryState)
    ensures p.kind == General
    ensures p.result.isOrderSegmentsFromSubQuery
    ensures p.result.condition.None? && |p.result.groupSegments| == 0 && p.result.havingCondition.None?
    ensures p.result.mapping == svc.rebind(s.result.mapping, CreateSqlQuery(s.result), svc.newTableAlias).mapping
    ensures p.result.fromTable.segment.alias == svc.newTableAlias
    ensures p.result.fromTable.segment.source.SubQuery?
    ensures var frozen := p.result.fromTable.segment.source.query;
            && frozen == CreateSqlQuery(s.result).(columns := frozen.columns)
            && ProjectedQuery(s.result, svc.newTableAlias, svc).columns <= frozen.columns
    ensures var frozen := p.result.fromTable.segment.source.query;
            var orders := s.result.orderSegments;
            && |p.result.orderSegments| == |orders|
            && forall i :: 0 <= i < |orders| ==>
                 && p.result.orderSegments[i].orderType == orders[i].orderType
                 && RefersToColumnFor(p.result.orderSegments[i], orders[i].expr, frozen.columns,
                                      svc.newTableAlias, svc)
  {
    var alias := svc.newTableAlias;
    var sqlQuery := CreateSqlQuery(s.result);
    var newMoe := svc.rebind(s.result.mapping, sqlQuery, alias).mapping;
    var rewritten := RewriteOrders(s.result.orderSegments, ProjectedQuery(s.result, alias, svc), alias, svc);
    var fromTable := FromTable(TableSegment(SubQuery(rewritten.query), alias));
    var result := NewResult(fromTable, newMoe);
    QueryState(General, result.(orderSegments := rewritten.segments, isOrderSegmentsFromSubQuery := true))
  }

  /**
    `ToFromQueryResult`: the plan as a derived table under the default alias,
    with its mapping rebound to it; the order segments stay inside the
    derived query and are not propagated.
  */
  function ToFromQueryResult<H>(s: QueryState, svc: Services<H>): (f: FromQueryResult)
    ensures f.fromTable.segment == TableSegment(SubQuery(ProjectedQuery(s.result, svc.defaultTableAlias, svc)),
                                                svc.defaultTableAlias)
    ensures f.mapping == svc.rebind(s.result.mapping, CreateSqlQuery(s.result), svc.defaultTableAlias).mapping
    ensures f.fromTable.segment.source.query.orderSegments == s.result.orderSegments
  {
    var sqlQuery := CreateSqlQuery(s.result);
    var alias := svc.defaultTableAlias;
    var newMoe := svc.rebind(s.result.mapping, sqlQuery, alias).mapping;
    FromQueryResult(FromTable(TableSegment(SubQuery(ProjectedQuery(s.result, alias, svc)), alias)), newMoe)
  }

  /**
    `ToJoinQueryResult`: the plan as a derived table under the caller's alias,
    joined with the given join type under the condition lowered against the
    caller's contexts followed by the rebound mapping. The caller's
    `fromTable` is not used.
  */
  function ToJoinQueryResult<H, J>(s: QueryState, joinType: J, conditionExpression: H, fromTable: FromTable,
                                   moeList: seq<Mapping>, tableAlias: string, svc: Services<H>): (j: JoinQueryResult<J>)
    ensures j.joinTable.joinType == joinType
    ensures j.joinTable.segment == TableSegment(SubQuery(ProjectedQuery(s.result, tableAlias, svc)), tableAlias)
    ensures j.mapping == svc.rebind(s.result.mapping, CreateSqlQuery(s.result), tableAlias).mapping
    ensures j.joinTable.condition == svc.lowerGeneral(conditionExpression, moeList + [j.mapping])
  {
    var sqlQuery := CreateSqlQuery(s.result);
    var tableSeg := TableSegment(SubQuery(ProjectedQuery(s.result, tableAlias, svc)), tableAlias);
    var newMoe := svc.rebind(s.result.mapping, sqlQuery, tableAlias).mapping;
    var moes := moeList + [newMoe];
    var condition := svc.lowerGeneral(conditionExpression, moes);
    JoinQueryResult(newMoe, JoinTable(joinType, tableSeg, condition))
  }
}
