/**
  The collaborators the query states call but whose bodies are outside this
  model, as deterministic functions over their inputs.
*/
module Collaborators {

  import opened DbExpressions

  /**
    What `ToNewObjectExpression(sqlQuery, table)` yields: the mapping rebound
    to the derived table, and the output columns it projects onto the query.
  */
  datatype Rebound = Rebound(mapping: Mapping, columns: seq<ColumnSegment>)

  /**
    - `lowerFilter`: `FilterPredicateExpressionVisitor.VisitFilterPredicate`
    - `lowerGeneral`: `GeneralExpressionVisitor.VisitPredicate`
    - `lowerSelector`: `SelectorExpressionVisitor.VisitSelectExpression`
    - `combine`: how `AppendCondition` joins two present conditions
    - `rebind`: `IMappingObjectExpression.ToNewObjectExpression` given the table alias
    - `typeOf`: `DbExpression.Type`
    - `newTableAlias`: `GenerateUniqueTableAlias` on a freshly built `ResultElement`
    - `columnAlias`: `Utils.GenerateUniqueColumnAlias`
    - `defaultTableAlias`: `UtilConstants.DefaultTableAlias`
  */
  datatype Services<-H> = Services(
    lowerFilter: (H, seq<Mapping>) -> DbExpr,
    lowerGeneral: (H, seq<Mapping>) -> DbExpr,
    lowerSelector: (H, seq<Mapping>) -> Mapping,
    combine: (DbExpr, DbExpr) -> DbExpr,
    rebind: (Mapping, SqlQuery, string) -> Rebound,
    typeOf: DbExpr -> TypeName,
    newTableAlias: string,
    columnAlias: SqlQuery -> string,
    defaultTableAlias: string)

  /** The column-alias generator never returns an alias the query already uses. */
  ghost predicate FreshColumnAliases<H>(svc: Services<H>) {
    forall q: SqlQuery, k :: 0 <= k < |q.columns| ==> q.columns[k].alias != svc.columnAlias(q)
  }

  /** No two columns share an alias. */
  predicate DistinctAliases(columns: seq<ColumnSegment>) {
    forall j, k :: 0 <= j < k < |columns| ==> columns[j].alias != columns[k].alias
  }
}
