/**
  Properties of sequences of operators handled by the default handlers, and
  relations between promotion and the from/join projections.
*/
module QueryStateProperties {

  import opened Wrappers
  import opened DbExpressions
  import opened ResultElements
  import opened QueryExpressions
  import opened Collaborators
  import opened SubQueryPromotion
  import opened QueryStateBase

  /**
    Feeds the operators, in order, to the default handler of each state
    reached, stopping at the first error raised.
  */
  function Run<H>(s: QueryState, ops: seq<QueryExpression<H>>, svc: Services<H>): (r: Result<QueryState, Error>)
    decreases |ops|
  {
    if |ops| == 0 then Success(s)
    else match Accept(s, ops[0], svc)
      case Thrown(e, _) => Failure(e)
      case Returned(next, _) => Run(next, ops[1..], svc)
  }

  /** Every operator is a then-by in either direction. */
  predicate AllThenBy<H>(ops: seq<QueryExpression<H>>) {
    forall i :: 0 <= i < |ops| ==> ops[i].Order? && (ops[i].nodeType.ThenBy? || ops[i].nodeType.ThenByDesc?)
  }

  /** The segment a declared order operator contributes when lowered against `moes`. */
  function DeclaredSegment<H>(op: QueryExpression<H>, moes: seq<Mapping>, svc: Services<H>): OrderSegment
    requires op.Order?
  {
    OrderSegment(svc.lowerGeneral(op.keySelector, moes),
                 if op.nodeType.OrderBy? || op.nodeType.ThenBy? then Asc else Desc)
  }

  /**
    A run of then-by operators on a plan whose segments are not inherited
    appends one segment per operator, in declaration order, keeps every
    earlier segment, and changes nothing else.
  */
  lemma {:induction false} ThenByChainAppendsInDeclarationOrder<H>(s: QueryState, ops: seq<QueryExpression<H>>,
                                                                   svc: Services<H>)
    requires AllThenBy(ops)
    requires !s.result.isOrderSegmentsFromSubQuery
    requires s.kind == General
    ensures Run(s, ops, svc).Success?
    ensures var e := Run(s, ops, svc).value;
            && e.kind == s.kind
            && e.result == s.result.(orderSegments := e.result.orderSegments)
            && |e.result.orderSegments| == |s.result.orderSegments| + |ops|
            && e.result.orderSegments[..|s.result.orderSegments|] == s.result.orderSegments
            && forall i :: 0 <= i < |ops| ==>
                 e.result.orderSegments[|s.result.orderSegments| + i]
                   == DeclaredSegment(ops[i], MoeList(s.result), svc)
    decreases |ops|
  {
    if |ops| > 0 {
      var t := AcceptOrder(s, ops[0].nodeType, ops[0].keySelector, svc);
      assert Accept(s, ops[0], svc) == t;
      var s1 := t.next;
      assert s1.result.orderSegments == s.result.orderSegments + [DeclaredSegment(ops[0], MoeList(s.result), svc)];
      assert AllThenBy(ops[1..]) by {
        forall i | 0 <= i < |ops[1..]|
          ensures ops[1..][i].Order? && (ops[1..][i].nodeType.ThenBy? || ops[1..][i].nodeType.ThenByDesc?)
        {
          assert ops[1..][i] == ops[i + 1];
        }
      }
      ThenByChainAppendsInDeclarationOrder(s1, ops[1..], svc);
      var e := Run(s, ops, svc).value;
      forall i | 0 <= i < |ops|
        ensures e.result.orderSegments[|s.result.orderSegments| + i] == DeclaredSegment(ops[i], MoeList(s.result), svc)
      {
        if i > 0 {
          assert ops[1..][i - 1] == ops[i];
        }
      }
    }
  }

  /**
    A primary order operator followed by then-by operators leaves exactly the
    declared segments, in declaration order, whatever segments the plan had
    and whether or not they were inherited.
  */
  lemma DeclaredOrderIsRenderedOrder<H>(s: QueryState, primary: QueryExpression<H>,
                                        thenBys: seq<QueryExpression<H>>, svc: Services<H>)
    requires primary.Order? && IsPrimaryOrderKind(primary.nodeType)
    requires AllThenBy(thenBys)
    requires s.kind == General
    ensures Run(s, [primary] + thenBys, svc).Success?
    ensures var segs := Run(s, [primary] + thenBys, svc).value.result.orderSegments;
            && |segs| == 1 + |thenBys|
            && segs[0] == DeclaredSegment(primary, MoeList(s.result), svc)
            && forall i :: 0 <= i < |thenBys| ==> segs[1 + i] == DeclaredSegment(thenBys[i], MoeList(s.result), svc)
  {
    var t := AcceptOrder(s, primary.nodeType, primary.keySelector, svc);
    assert Accept(s, primary, svc) == t;
    assert ([primary] + thenBys)[1..] == thenBys;
    ThenByChainAppendsInDeclarationOrder(t.next, thenBys, svc);
  }

  /** A second primary order operator discards the first one's segment. */
  lemma RepeatedOrderByKeepsLast<H>(s: QueryState, first: QueryExpression<H>, second: QueryExpression<H>,
                                    svc: Services<H>)
    requires first.Order? && IsPrimaryOrderKind(first.nodeType)
    requires second.Order? && IsPrimaryOrderKind(second.nodeType)
    requires s.kind == General
    ensures Run(s, [first, second], svc).Success?
    ensures Run(s, [first, second], svc).value.result.orderSegments
         == [DeclaredSegment(second, MoeList(s.result), svc)]
  {
    var s1 := AcceptOrder(s, first.nodeType, first.keySelector, svc).next;
    var s2 := AcceptOrder(s1, second.nodeType, second.keySelector, svc).next;
    assert Accept(s, first, svc).next == s1;
    assert Accept(s1, second, svc).next == s2;
    assert [first, second][1..] == [second];
    assert [second][1..] == [];
    assert Run(s, [first, second], svc) == Run(s1, [second], svc) == Run(s2, [], svc);
  }

  /**
    After promotion, any order operator, a then-by included, discards every
    inherited segment: exactly the new segment remains and the flag is reset.
  */
  lemma OrderAfterPromotionClearsInherited<H>(s: QueryState, nodeType: QueryExpressionType, key: H,
                                             svc: Services<H>)
    requires s.kind == General
    requires IsOrderKind(nodeType)
    ensures var p := AsSubQueryState(s, svc);
            var t := AcceptOrder(p, nodeType, key, svc);
            && t.Returned?
            && t.next.result.orderSegments == [VisitOrderExpression(MoeList(p.result), nodeType, key, svc).value]
            && !t.next.result.isOrderSegmentsFromSubQuery
  {
  }

  /**
    A projection after promotion does not carry the inherited flag, so a
    then-by on the projected plan keeps the promoted segments and appends.
  */
  lemma ThenByAfterPromotionAndSelectKeepsInherited<H>(s: QueryState, selector: H, key: H, svc: Services<H>)
    requires s.kind == General
    ensures var p := AsSubQueryState(s, svc);
            var n := AcceptSelect(p, selector, svc).next;
            var t := AcceptOrder(n, ThenBy, key, svc);
            && t.Returned?
            && |t.next.result.orderSegments| == |s.result.orderSegments| + 1
            && t.next.result.orderSegments[..|s.result.orderSegments|] == p.result.orderSegments
  {
  }

  /**
    Filtering, ordering and then aggregating yields a plan whose condition is
    the filter appended to the prior condition and which carries no order,
    group or having.
  */
  lemma AggregateDropsOrdering<H>(s: QueryState, filter: H, orderKind: QueryExpressionType, key: H,
                                  elementType: TypeName, aggregateMethod: string, parameters: seq<H>,
                                  svc: Services<H>)
    requires IsOrderKind(orderKind)
    requires s.kind == General
    ensures var r := Run(s, [Where(filter), Order(orderKind, key), AggregateQuery(elementType, aggregateMethod, parameters)], svc);
            && r.Success?
            && r.value.kind == AggregateState
            && r.value.result.fromTable == s.result.fromTable
            && r.value.result.condition
                 == AppendCondition(s.result.condition, Some(svc.lowerFilter(filter, MoeList(s.result))), svc.combine)
            && |r.value.result.orderSegments| == 0
            && |r.value.result.groupSegments| == 0
            && r.value.result.havingCondition.None?
  {
    var aggregate := AggregateQuery(elementType, aggregateMethod, parameters);
    var ops := [Where(filter), Order(orderKind, key), aggregate];
    var s1 := AcceptWhere(s, filter, svc).next;
    var s2 := AcceptOrder(s1, orderKind, key, svc).next;
    var s3 := AcceptAggregate(s2, elementType, aggregateMethod, parameters, svc).next;
    assert Accept(s, Where(filter), svc).next == s1;
    assert Accept(s1, Order(orderKind, key), svc).next == s2;
    assert Accept(s2, aggregate, svc).next == s3;
    assert ops[1..] == [Order(orderKind, key), aggregate];
    assert ops[1..][1..] == [aggregate];
    assert [aggregate][1..] == [];
    assert Run(s, ops, svc) == Run(s1, ops[1..], svc) == Run(s2, [aggregate], svc) == Run(s3, [], svc);
  }

  /** A projection leaves the rendered query of the plan exactly as it was. */
  lemma SelectKeepsRenderedQuery<H>(r: ResultElement, selector: H, svc: Services<H>)
    ensures CreateSqlQuery(CreateNewResult(r, selector, svc)) == CreateSqlQuery(r)
  {
  }

  /**
    With the alias generator fresh and the mapping's projected columns under
    distinct aliases, each promoted order segment names exactly one output
    column of the derived query, and that column projects the original order
    expression.
  */
  lemma PromotedOrderSegmentsResolve<H>(s: QueryState, svc: Services<H>)
    requires s.kind == General
    requires FreshColumnAliases(svc)
    requires DistinctAliases(svc.rebind(s.result.mapping, CreateSqlQuery(s.result), svc.newTableAlias).columns)
    ensures var p := AsSubQueryState(s, svc);
            var columns := p.result.fromTable.segment.source.query.columns;
            && DistinctAliases(columns)
            && forall i, k :: 0 <= i < |s.result.orderSegments| && 0 <= k < |columns| &&
                              columns[k].alias == p.result.orderSegments[i].expr.column ==>
                                columns[k].body == s.result.orderSegments[i].expr
  {
    var projected := ProjectedQuery(s.result, svc.newTableAlias, svc);
    assert projected.columns == svc.rebind(s.result.mapping, CreateSqlQuery(s.result), svc.newTableAlias).columns;
    PromotedOrderColumnsResolve(s.result.orderSegments, projected, svc.newTableAlias, svc);
  }

  /**
    Promotion under the default alias and the from projection agree on the
    mapping and on the derived query, except that promotion may append order
    columns; with no order segments they build the same derived table.
  */
  lemma PromotionExtendsFromProjection<H>(s: QueryState, svc: Services<H>)
    requires s.kind == General
    requires svc.newTableAlias == svc.defaultTableAlias
    ensures var p := AsSubQueryState(s, svc);
            var f := ToFromQueryResult(s, svc);
            && p.result.mapping == f.mapping
            && p.result.fromTable.segment.alias == f.fromTable.segment.alias
            && var promoted := p.result.fromTable.segment.source.query;
               var plain := f.fromTable.segment.source.query;
               && promoted == plain.(columns := promoted.columns)
               && plain.columns <= promoted.columns
               && (|s.result.orderSegments| == 0 ==> p.result.fromTable == f.fromTable)
  {
  }

  /** A join projection under the default alias joins exactly the table the from projection reads. */
  lemma JoinProjectionMatchesFromProjection<H, J>(s: QueryState, joinType: J, conditionExpression: H,
                                                  fromTable: FromTable, moeList: seq<Mapping>, svc: Services<H>)
    requires s.kind == General
    ensures var j := ToJoinQueryResult(s, joinType, conditionExpression, fromTable, moeList, svc.defaultTableAlias, svc);
            var f := ToFromQueryResult(s, svc);
            && j.joinTable.segment == f.fromTable.segment
            && j.mapping == f.mapping
            && j.joinTable.condition == svc.lowerGeneral(conditionExpression, moeList + [f.mapping])
  {
  }

  /** An order operator of any other kind fails naming that kind, whatever came before it. */
  lemma UnsupportedOrderKindFails<H>(s: QueryState, name: OtherKindName, key: H, svc: Services<H>)
    requires s.kind == General
    ensures Run(s, [Order(OtherKind(name), key)], svc) == Failure(NotSupported(name))
  {
  }

  /**
    No default handler changes the receiver's mapping in place, so the
    lowering context `MoeList` caches on first use stays the receiver's
    current one after every operator.
  */
  lemma MoeListSurvivesInPlaceChanges<H>(s: QueryState, op: QueryExpression<H>, svc: Services<H>)
    requires s.kind == General
    ensures MoeList(Accept(s, op, svc).current) == MoeList(s.result)
  {
  }
}
