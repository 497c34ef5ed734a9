/**
  The operator nodes (`QueryExpression` subclasses) the query states accept,
  over an abstract type `H` of host-language lambda expressions.
*/
module QueryExpressions {

  import opened DbExpressions

  /** The names `ToString()` gives the four order kinds. */
  const OrderKindNames: set<string> := {"OrderBy", "OrderByDesc", "ThenBy", "ThenByDesc"}

  /**
    The name of a node kind other than the four order kinds. Enum members have
    distinct names, so no other kind is named like an order kind.
  */
  type OtherKindName = name: string | name !in OrderKindNames witness "Where"

  /**
    `QueryExpressionType` as far as order nodes are concerned: the four order
    kinds, and every other kind under its own name.
  */
  datatype QueryExpressionType =
    | OrderBy
    | OrderByDesc
    | ThenBy
    | ThenByDesc
    | OtherKind(name: OtherKindName)

  /**
    The name `ToString()` gives a node type (`QueryStateBase.cs:235`): an
    order kind is named by one of the four order-kind names, and any other
    kind by its own name.
  */
  function KindName(t: QueryExpressionType): (r: string)
    ensures r in OrderKindNames <==> !t.OtherKind?
    ensures t.OtherKind? ==> r == t.name
  {
    match t
    case OrderBy => "OrderBy"
    case OrderByDesc => "OrderByDesc"
    case ThenBy => "ThenBy"
    case ThenByDesc => "ThenByDesc"
    case OtherKind(name) => name
  }

  /** Distinct node kinds have distinct names, so a name identifies its kind. */
  lemma KindNameInjective(a: QueryExpressionType, b: QueryExpressionType)
    ensures KindName(a) == KindName(b) <==> a == b
  {
  }

  /**
    `WhereExpression`, `OrderExpression`, `SelectExpression`, `SkipExpression`,
    `TakeExpression`, `AggregateQueryExpression` and `GroupingQueryExpression`.
  */
  datatype QueryExpression<H> =
    | Where(filter: H)
    | Order(nodeType: QueryExpressionType, keySelector: H)
    | Select(selector: H)
    | Skip(skipCount: int)
    | Take(takeCount: int)
    | AggregateQuery(elementType: TypeName, aggregateMethod: string, parameters: seq<H>)
    | GroupingQuery(groupPredicates: seq<H>, havingPredicates: seq<H>, groupSelector: H)
}
