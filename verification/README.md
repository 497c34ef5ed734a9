# Chloe query-state transitions in Dafny

This project models the default operator handling of Chloe's query states
(`QueryStateBase`). Chloe builds a LINQ query one operator at a time. Each
operator (Where, OrderBy/ThenBy, Select, Skip, Take, an aggregate, GroupBy)
reaches the current query state. Where and the order operators change the
state's plan record (`ResultElement`) in place and return the same state.
Skip and Take return a new state over the same plan record. Select and the
aggregate return a new state over a new plan record. GroupBy changes the
plan record in place, then returns a new state over a copy of it. The plan
record holds:

- a from-table;
- a filter condition;
- an ordered list of order segments, with a flag saying they were inherited from a subquery;
- group segments and a having condition;
- the current mapping object.

The model also covers subquery promotion (`AsSubQueryState`). Promotion
freezes the plan into a derived table and rebinds the mapping to that table.
It then rewrites every order segment into a column access on the derived
table. When an output column with a structurally equal body already exists,
its alias is reused; otherwise a column under a fresh alias is appended.
Finally the model covers the two projections used when a query becomes a
source of another query: `ToFromQueryResult` and `ToJoinQueryResult`.

Layout:

- `wrappers.dfy`: `Option` and `Result`.
- `db_expressions.dfy`: the relational expression tree, order and column segments, table sources, the rendered query, mappings, and the first-match column lookup.
- `result_element.dfy`: the plan record and the condition-append helpers.
- `query_expressions.dfy`: the operator nodes and the order node kinds.
- `collaborators.dfy`: the services whose bodies this model does not contain.
- `subquery_promotion.dfy`: the order-segment rewrite of promotion, its loop, and its column-reuse lemmas.
- `query_state_base.dfy`: the handlers themselves.
- `query_state_properties.dfy`: lemmas about sequences of operators and about promotion versus the from/join projections.

A call can mutate the receiving state's plan record and also return a state.
Each handler therefore returns an `Outcome`. On success it holds the state
returned (`next`) and the receiver's plan record after the call (`current`).
On failure it holds the error raised and the receiver's plan record at the
moment of the throw.

Three behaviours of the code are worth stating plainly, and the model keeps them:

- Any order operator, ThenBy and ThenByDesc included, clears segments inherited from a subquery (`QueryStateBase.cs:56-60`).
- GroupBy appends the group keys and having predicates to the receiver's own plan record before copying it, and the copy does not carry the inherited flag (`QueryStateBase.cs:104-117`, `:123`).
- Select builds a fresh `ResultElement`, so the inherited-from-subquery flag is not carried (`QueryStateBase.cs:121-135`). As a result, a ThenBy after promotion and Select appends to the promoted segments instead of clearing them.

## Model

| member | source | states |
|---|---|---|
| DbExpressions.FirstMatch | Chloe/Query/QueryState/QueryStateBase.cs:184 | the index found is the first column whose body is structurally equal to the expression; no earlier column has that body; it equals the length when no column has it |
| ResultElements.NewResult | Chloe/Query/QueryState/QueryStateBase.cs:160-165 | a freshly built plan has no condition, no order, group or having, and the inherited flag unset |
| ResultElements.AppendCondition | Chloe/Query/QueryState/QueryStateBase.cs:45 | appending never discards a present condition; an absent condition takes the appended one; appending nothing leaves the condition as it was; two present conditions are joined by the combining operation, current first |
| ResultElements.AppendConditionsSplit | Chloe/Query/QueryState/QueryStateBase.cs:111-115 | appending the predicates of `xs + ys` gives the same having condition as appending those of `xs` and then those of `ys`, so the fold performs the appends one by one in sequence order |
| ResultElements.AppendConditions | Chloe/Query/QueryState/QueryStateBase.cs:111-115 | one append per predicate, in order: a single predicate is one `AppendCondition`, and appending a concatenation is appending its parts one after the other (see `ResultElements.AppendConditionsSplit`); with no predicates the condition is unchanged; the result is present exactly when the prior condition was present or a predicate was appended |
| QueryStateBase.MoeList | Chloe/Query/QueryState/QueryStateBase.cs:23-32 | the lowering context is a one-element list holding exactly the state's current mapping |
| QueryStateProperties.MoeListSurvivesInPlaceChanges | Chloe/Query/QueryState/QueryStateBase.cs:23-32 | no default handler changes the receiver's mapping in place, so the context cached on first use is still the receiver's current context after any operator |
| QueryExpressions.KindName | Chloe/Query/QueryState/QueryStateBase.cs:235 | an order kind gets one of the four order-kind names and no other kind does; any other kind is named by its own name |
| QueryExpressions.KindNameInjective | Chloe/Query/QueryState/QueryStateBase.cs:235 | two node kinds have the same name exactly when they are the same kind, so the NotSupported message identifies the kind |
| QueryStateBase.LowerAll | Chloe/Query/QueryState/QueryStateBase.cs:83-88 | one lowered expression per input expression, in input order, each lowered against the same contexts |
| QueryStateBase.VisitOrderExpression | Chloe/Query/QueryState/QueryStateBase.cs:222-240 | OrderBy and ThenBy resolve to Asc; OrderByDesc and ThenByDesc resolve to Desc; every other kind fails with NotSupported naming the kind; success exactly for the four order kinds |
| QueryStateBase.AcceptWhere | Chloe/Query/QueryState/QueryStateBase.cs:42-48 | the same state is returned; only the condition changes, by appending the filter lowered against the state's mapping |
| QueryStateBase.AcceptOrder | Chloe/Query/QueryState/QueryStateBase.cs:49-65 | a non-order kind throws and leaves the plan untouched. A primary operator, or any operator on inherited segments, leaves exactly the new segment. A then-by on non-inherited segments keeps all earlier segments in order and appends the new one last. The flag ends unset and nothing else changes |
| QueryStateBase.CreateNewResult | Chloe/Query/QueryState/QueryStateBase.cs:121-135 | the new plan has the same from-table, order segments (same sequence), condition, group segments and having; its mapping comes from the selector; the inherited flag is not carried |
| QueryStateBase.AcceptSelect | Chloe/Query/QueryState/QueryStateBase.cs:66-70 | a general state over the new plan; the receiver's plan is untouched |
| QueryStateBase.AcceptSkip | Chloe/Query/QueryState/QueryStateBase.cs:71-75 | a skip state with the count, over the receiver's plan, which is untouched |
| QueryStateBase.AcceptTake | Chloe/Query/QueryState/QueryStateBase.cs:76-80 | a take state with the count, over the receiver's plan, which is untouched |
| QueryStateBase.AcceptAggregate | Chloe/Query/QueryState/QueryStateBase.cs:81-101 | an aggregate state whose plan keeps only the from-table and condition, with no order, group or having. Its mapping is one aggregate of the given type and method, with one lowered parameter per input parameter in input order |
| QueryStateBase.AcceptGrouping | Chloe/Query/QueryState/QueryStateBase.cs:102-119 | the receiver's own group segments gain the lowered keys in order and its having gains one append per predicate; nothing else of it changes. The grouping state's plan carries the prior order segments, condition and from-table plus these additions; the inherited flag is not carried |
| QueryStateBase.Accept | Chloe/Query/QueryState/QueryStateBase.cs:42-119 | only an order node of a non-order kind raises an error |
| QueryStateBase.CreateSqlQuery | Chloe/Query/QueryState/QueryStateBase.cs:208-220 | the rendered query has no output columns yet and carries the plan's table, condition, order segments, group segments and having |
| QueryStateBase.ProjectedQuery | Chloe/Query/QueryState/QueryStateBase.cs:166-170 | the rendered query of the plan, unchanged except that its output columns are exactly the columns the mapping projects onto it when rebound to the given alias |
| QueryStateBase.AsSubQueryState | Chloe/Query/QueryState/QueryStateBase.cs:155-207 | a general state with the inherited flag set even with no segments. The derived table under the fresh alias holds the whole prior plan and starts with the rebound mapping's columns. There are as many segments as before, same order and direction, each a column access on the derived table naming a column whose body is the original order expression |
| QueryStateBase.ToFromQueryResult | Chloe/Query/QueryState/QueryStateBase.cs:242-257 | the derived table sits under the default alias with the rebound mapping; the order segments stay inside the derived query and are not rewritten |
| QueryStateBase.ToJoinQueryResult | Chloe/Query/QueryState/QueryStateBase.cs:259-281 | the join type passes through; the derived table sits under the caller's alias; the condition is lowered against the caller's contexts with the new mapping appended last |
| SubQueryPromotion.RewriteOrderSegment | Chloe/Query/QueryState/QueryStateBase.cs:179-199 | direction kept; the column list is left alone exactly when a column with an equal body exists, and otherwise gains one column with that body under the generated alias; the new segment names the first such column |
| SubQueryPromotion.RewriteOrders | Chloe/Query/QueryState/QueryStateBase.cs:175-201 | as many segments as before, directions kept, each naming the first column with its body. Columns are only appended, at most one per segment, each appended one is the first with its body, and each carries the alias generated for the columns before it |
| SubQueryPromotion.FindColumn | Chloe/Query/QueryState/QueryStateBase.cs:184 | the linear search returns the first column with an equal body |
| SubQueryPromotion.PromoteOrderSegments | Chloe/Query/QueryState/QueryStateBase.cs:175-201 | the loop computes the same segments and column list as the rewrite above: same count and directions, original columns kept, at most one column added per segment |
| SubQueryPromotion.EqualOrderExpressionsShareColumn | Chloe/Query/QueryState/QueryStateBase.cs:184-198 | two segments ordering by equal expressions are rewritten to the same column access |
| SubQueryPromotion.PromotionAddsUnprojectedExprs | Chloe/Query/QueryState/QueryStateBase.cs:184-196 | the bodies of the added columns are exactly the order expressions that no projected column already had |
| SubQueryPromotion.PromotionAddsOneColumnPerNewExpression | Chloe/Query/QueryState/QueryStateBase.cs:184-196 | the number of added columns equals the number of distinct order expressions not already projected, so equal expressions never add two columns |
| SubQueryPromotion.PromotedOrderColumnsResolve | Chloe/Query/QueryState/QueryStateBase.cs:193-198 | with a fresh-alias generator and distinct projected aliases, aliases stay distinct, and a rewritten segment's alias names only a column projecting its original expression |
| QueryStateProperties.ThenByChainAppendsInDeclarationOrder | Chloe/Query/QueryState/QueryStateBase.cs:49-62 | on non-inherited segments, a run of then-bys appends one segment per operator in declaration order, keeps the earlier segments, and changes nothing else |
| QueryStateProperties.DeclaredOrderIsRenderedOrder | Chloe/Query/QueryState/QueryStateBase.cs:49-62 | a primary order followed by then-bys leaves exactly the declared segments in declaration order |
| QueryStateProperties.RepeatedOrderByKeepsLast | Chloe/Query/QueryState/QueryStateBase.cs:51-52 | a second primary order replaces the first one's segment |
| QueryStateProperties.OrderAfterPromotionClearsInherited | Chloe/Query/QueryState/QueryStateBase.cs:56-62 | after promotion, any order operator, then-by included, leaves only its own segment and unsets the flag |
| QueryStateProperties.ThenByAfterPromotionAndSelectKeepsInherited | Chloe/Query/QueryState/QueryStateBase.cs:121-135 | a projection after promotion drops the flag, so a then-by keeps the promoted segments and appends |
| QueryStateProperties.AggregateDropsOrdering | Chloe/Query/QueryState/QueryStateBase.cs:81-101 | Where, then an order, then an aggregate yields a plan whose condition is the appended filter, with no order, group or having |
| QueryStateProperties.SelectKeepsRenderedQuery | Chloe/Query/QueryState/QueryStateBase.cs:121-135 | a projection leaves the rendered query of the plan unchanged |
| QueryStateProperties.PromotedOrderSegmentsResolve | Chloe/Query/QueryState/QueryStateBase.cs:184-198 | at state level: each promoted segment names exactly one output column of the derived query, which projects the original order expression |
| QueryStateProperties.PromotionExtendsFromProjection | Chloe/Query/QueryState/QueryStateBase.cs:242-257 | under the same alias, promotion and the from projection agree on mapping and derived query up to appended order columns, and coincide when there are no order segments |
| QueryStateProperties.JoinProjectionMatchesFromProjection | Chloe/Query/QueryState/QueryStateBase.cs:259-281 | under the default alias the join projection joins exactly the table the from projection reads, with the same mapping |
| QueryStateProperties.UnsupportedOrderKindFails | Chloe/Query/QueryState/QueryStateBase.cs:234-235 | an order node of any other kind fails with NotSupported naming that kind |

## Left out

- Expression lowering: the filter, general and selector visitors are deterministic, uninterpreted functions of (expression, context list), supplied in `Services`.
- Mapping objects: `ToNewObjectExpression` is an uninterpreted function. It returns the rebound mapping and the output columns it projects onto the (so far column-less) rendered query. Whatever else it does to the query is not modelled.
- `GenerateMappingData` (lines 141-153): activator creation is reflection plumbing. Its query part is `CreateSqlQuery`.
- The bodies of `ResultElement.AppendCondition` and `AppendHavingCondition` are in `ResultElement`, which this model does not include. The model assumes an absent current condition takes the appended one, and an absent appended condition changes nothing. Two present conditions are joined by an uninterpreted `combine`, not assumed to be AND.
- Alias generators: `GenerateUniqueTableAlias` on a new plan is a fixed parameter. `Utils.GenerateUniqueColumnAlias` is an uninterpreted function of the query. Its freshness is assumed only where a lemma says so. The value of `UtilConstants.DefaultTableAlias` is a parameter too.
- `DbExpressionEqualityComparer` is Dafny's structural equality on the `DbExpr` datatype, which covers only the expression shapes listed there.
- `DbExpression.Type` is an uninterpreted function (`typeOf`). The type names that `Constant` and `ColumnAccess` nodes carry are unrelated to it: nothing ties `typeOf(ColumnAccess(t, …))` to `t`. The only such name the model writes is the one a rewritten order segment takes from `typeOf` of its expression.
- The join list of `DbFromTableExpression` is not modelled; it is filled by join operators elsewhere.
- Overrides in `SkipQueryState`, `TakeQueryState`, `AggregateQueryState`, `GroupingQueryState`, and the virtual `Result` and `CreateQueryState`: only the base behaviour is modelled. `Result` is the state's own plan, and `CreateQueryState` builds a general state. `QueryStateProperties.Run` applies the base handler at every step. It matches the system only while the current state's class does not override a handler. Every lemma that starts from a query state therefore requires a general state. In the `Run` lemmas every operator before the last keeps the state general, so only the base handlers of `GeneralQueryState` are applied.
- Reference sharing: a skip or take state shares the prior state's `ResultElement` object. The functional model copies the value, so later in-place changes through one state are not seen by the other.
- `MoeList` caching: the model recomputes the context list from the current mapping instead of caching it. `QueryStateProperties.MoeListSurvivesInPlaceChanges` shows the two agree for the default handlers, which never replace the receiver's mapping in place.
- Skip and Take counts are unconstrained integers, as the handlers do not check them.
- Exceptions other than NotSupported (null references, the cast of aggregate parameters to lambda expressions) are not modelled.
- QueryStateBase.AsSubQueryState: its contract pins the rewritten segments and the prefix of the derived query's columns. The exact set of appended columns and the freshness of their aliases are stated by the SubQueryPromotion lemmas over `RewriteOrders`, not repeated here.
- Rendering to SQL text and execution are outside this model.
