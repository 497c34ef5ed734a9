/**
  The relational expression tree (the DbExpression family) the query-state
  machine produces, reduced to the shapes this model needs, together with the
  structural column lookup used when a plan is promoted to a derived table.

  Equality of two `DbExpr` values is Dafny's `==` on datatypes, which compares
  the trees node by node; it stands for `DbExpressionEqualityComparer.EqualsCompare`.
*/
module DbExpressions {

  import opened Wrappers

  type TypeName = string

  /** Relational expressions. `ColumnAccess` is `DbColumnAccessExpression`. */
  datatype DbExpr =
    | Constant(constType: TypeName, literal: string)
    | ColumnAccess(accessType: TypeName, table: string, column: string)
    | Unary(unaryOp: string, operand: DbExpr)
    | Binary(binaryOp: string, left: DbExpr, right: DbExpr)
    | MethodCall(callee: string, arguments: seq<DbExpr>)
    | Aggregate(elementType: TypeName, aggregateMethod: string, parameters: seq<DbExpr>)

  datatype OrderType = Asc | Desc

  /** `DbOrderSegment`: one sort key and its direction. */
  datatype OrderSegment = OrderSegment(expr: DbExpr, orderType: OrderType)

  /** `DbColumnSegment`: one output column of a query, its body and its alias. */
  datatype ColumnSegment = ColumnSegment(body: DbExpr, alias: string)

  /** What a table segment reads from: a named table or a derived table. */
  datatype TableSource =
    | Table(name: string)
    | SubQuery(query: SqlQuery)

  /** `DbTableSegment`: a table source under an alias. */
  datatype TableSegment = TableSegment(source: TableSource, alias: string)

  /** `DbFromTableExpression`, without the join list that join operators add. */
  datatype FromTable = FromTable(segment: TableSegment)

  /** `DbSqlQueryExpression`: the rendered plan of one query level. */
  datatype SqlQuery = SqlQuery(
    table: FromTable,
    columns: seq<ColumnSegment>,
    condition: Option<DbExpr>,
    orderSegments: seq<OrderSegment>,
    groupSegments: seq<DbExpr>,
    havingCondition: Option<DbExpr>)

  /** `DbJoinTableExpression`; the join kind is passed through untouched. */
  datatype JoinTable<J> = JoinTable(joinType: J, segment: TableSegment, condition: DbExpr)

  /**
    Mapping-object expressions: how output columns compose into a result
    shape. `FieldMapping` is `MappingFieldExpression`; `ObjectMapping` stands
    for every composite shape the selector visitor builds.
  */
  datatype Mapping =
    | FieldMapping(fieldType: TypeName, body: DbExpr)
    | ObjectMapping(objectType: TypeName, members: seq<(string, Mapping)>)

  /**
    Index of the first column whose body is structurally equal to `e`, or
    `|columns|` when there is none: the column lookup of promotion at
    `QueryStateBase.cs:184`.
  */
  function FirstMatch(columns: seq<ColumnSegment>, e: DbExpr): (i: nat)
    ensures i <= |columns|
    ensures i < |columns| ==> columns[i].body == e
    ensures forall j :: 0 <= j < i ==> columns[j].body != e
  {
    if |columns| == 0 then 0
    else if columns[0].body == e then 0
    else 1 + FirstMatch(columns[1..], e)
  }

  predicate HasColumnFor(columns: seq<ColumnSegment>, e: DbExpr) {
    FirstMatch(columns, e) < |columns|
  }

  /** Columns appended after a match do not change which column is found first. */
  lemma FirstMatchStableUnderAppend(a: seq<ColumnSegment>, b: seq<ColumnSegment>, e: DbExpr)
    requires HasColumnFor(a, e)
    ensures FirstMatch(a + b, e) == FirstMatch(a, e)
  {
    var k := FirstMatch(a, e);
    assert (a + b)[k].body == e;
  }

  /** Appending a column with body `e` to columns without one makes it the first match. */
  lemma FirstMatchOfAppended(a: seq<ColumnSegment>, c: ColumnSegment)
    requires !HasColumnFor(a, c.body)
    ensures FirstMatch(a + [c], c.body) == |a|
  {
    assert (a + [c])[|a|].body == c.body;
  }

  /** Every column body found by `FirstMatch` is in the column list, and conversely. */
  lemma HasColumnForIff(columns: seq<ColumnSegment>, e: DbExpr)
    ensures HasColumnFor(columns, e) <==> exists j :: 0 <= j < |columns| && columns[j].body == e
  {
  }
}
