# Molino: Doctrine ORM filter-to-query translation

This project models the Doctrine ORM base query of Molino
(`Molino\Doctrine\ORM\BaseQuery`), the part of Molino that turns
backend-neutral filter calls (`filterEqual`, `filterLike`, `filterIn`, ...)
into predicates and bound parameters on a Doctrine QueryBuilder.

A query over one model class holds two pieces of state. The first is a
QueryBuilder, created on first use with the model class as root entity under
the alias `m`, and kept from then on. The second is `lastParameterId`, a
counter that starts at 0. Every filter call does four things and returns the
query itself:

1. It qualifies the field with the root alias unless the field already holds a `.`.
2. It takes the next parameter id.
3. It appends one predicate to the builder. The predicates are AND-combined in call order.
4. It binds the filter's value to the new id.

The LIKE filters first turn each `*` wildcard into SQL's `%`. The IN filters
bind the whole array to a single id. Cloning a query copies its builder, so
the original and the clone never see each other's later filters.

Files:

- `wrappers.dfy`: module `Wrappers`, the `Option` type.
- `like_pattern.dfy`: module `LikePattern`, the LIKE value rewrite. `buildLikeValue` maps every `*` token to `%` and joins the tokens again.
- `translation.dfy`: module `Translation`, the abstract state. It holds the builder's contents as a value (`Builder`: root entity, root aliases, where-predicates, parameters), the query state (`QueryState`: counter and optional builder), and `Step`, which says what one filter call does to that state. Lemmas about one call and about any number of calls sit beside them.
- `orm_query.dfy`: module `DoctrineOrm`. The class `QueryBuilder` stands in for Doctrine's builder, which is an object changed in place. The class `Query` has the fields `queryBuilder` and `lastParameterId` and the methods of the PHP class. Every filter method is proved to leave the query in state `Step(old state, ...)`.

## Model

| member | source | states |
|---|---|---|
| `DoctrineOrm.Query.constructor` | src/Molino/Doctrine/ORM/BaseQuery.php:24-25 | A new query has no builder, and its parameter counter is 0. |
| `DoctrineOrm.Query.Clone` | src/Molino/Doctrine/ORM/BaseQuery.php:27-33 | The clone has the same counter and builder contents. A missing builder stays missing. An existing builder is replaced by a freshly allocated copy, so the clone and the original share no object. |
| `DoctrineOrm.CloneIndependence` | src/Molino/Doctrine/ORM/BaseQuery.php:27-33 | After cloning, a filter on the clone and another on the original each end up only in their own query. Both queries continue numbering from the same counter. |
| `DoctrineOrm.Query.GetQueryBuilder` | src/Molino/Doctrine/ORM/BaseQuery.php:40-54 | On first use it creates a fresh builder for the model class with root alias `m` and keeps it. On any later call it returns the kept builder and the state is unchanged. |
| `DoctrineOrm.Query.ConfigureQueryBuilder` | src/Molino/Doctrine/ORM/BaseQuery.php:61-63 | The default configuration hook leaves the builder as it was. |
| `Translation.Built` | src/Molino/Doctrine/ORM/BaseQuery.php:40-54 | Lazy construction on the abstract state: afterwards a builder always exists. A state that already had one is unchanged. A state without one gets the new builder. The counter and the invariant are kept. |
| `DoctrineOrm.Query.GenerateParameterId` | src/Molino/Doctrine/ORM/BaseQuery.php:174-177 | The counter goes up by exactly 1 and the new value is returned. That id is bound to nothing yet. |
| `DoctrineOrm.Query.GetRootAlias` | src/Molino/Doctrine/ORM/BaseQuery.php:199-204 | Returns the first root alias of the builder, building it first if needed. |
| `DoctrineOrm.Query.FormatField` | src/Molino/Doctrine/ORM/BaseQuery.php:206-213 | Returns the field qualified with the root alias. The builder is built only when the field holds no `.`. |
| `Translation.QualifiedSpec` | src/Molino/Doctrine/ORM/BaseQuery.php:206-213 | A qualified field always holds a `.` and ends with the field. It equals the field exactly when the field already held a `.`. Otherwise it is the alias, then `.`, then the field. |
| `Translation.QualifiedIdempotent` | src/Molino/Doctrine/ORM/BaseQuery.php:206-213 | Qualifying an already qualified field changes nothing. |
| `DoctrineOrm.Query.AndWhere` | src/Molino/Doctrine/ORM/BaseQuery.php:179-184 | The query's new state is `Step` of its old state with this comparison. Objects added to the footprint are fresh. A builder the query already had is kept as the same object. |
| `DoctrineOrm.Query.AndWhereMember` | src/Molino/Doctrine/ORM/BaseQuery.php:108-127 | The same as AndWhere, for a membership predicate. The whole array is bound as one value. A builder the query already had is kept as the same object. |
| `DoctrineOrm.Query.FilterEqual` | src/Molino/Doctrine/ORM/BaseQuery.php:68-73 | Returns the same query, in state `Step` with operator `=`. A builder the query already had is kept as the same object. |
| `DoctrineOrm.Query.FilterNotEqual` | src/Molino/Doctrine/ORM/BaseQuery.php:78-83 | Returns the same query, in state `Step` with operator `<>`. A builder the query already had is kept as the same object. |
| `DoctrineOrm.Query.FilterLike` | src/Molino/Doctrine/ORM/BaseQuery.php:88-93 | Returns the same query, in state `Step` with operator `LIKE`. The bound value is the pattern with `*` turned into `%`. A builder the query already had is kept as the same object. |
| `DoctrineOrm.Query.FilterNotLike` | src/Molino/Doctrine/ORM/BaseQuery.php:98-103 | Returns the same query, in state `Step` with operator `NOT LIKE` and the rewritten pattern. A builder the query already had is kept as the same object. |
| `DoctrineOrm.Query.FilterIn` | src/Molino/Doctrine/ORM/BaseQuery.php:108-115 | Returns the same query, in state `Step` with an `In` predicate. One id is used, and the whole array is bound to it. A builder the query already had is kept as the same object. |
| `DoctrineOrm.Query.FilterNotIn` | src/Molino/Doctrine/ORM/BaseQuery.php:120-127 | Returns the same query, in state `Step` with a `NotIn` predicate. One id is used, and the whole array is bound to it. A builder the query already had is kept as the same object. |
| `DoctrineOrm.Query.FilterGreater` | src/Molino/Doctrine/ORM/BaseQuery.php:132-137 | Returns the same query, in state `Step` with operator `>`. A builder the query already had is kept as the same object. |
| `DoctrineOrm.Query.FilterLess` | src/Molino/Doctrine/ORM/BaseQuery.php:142-147 | Returns the same query, in state `Step` with operator `<`. A builder the query already had is kept as the same object. |
| `DoctrineOrm.Query.FilterGreaterEqual` | src/Molino/Doctrine/ORM/BaseQuery.php:152-157 | Returns the same query, in state `Step` with operator `>=`. A builder the query already had is kept as the same object. |
| `DoctrineOrm.Query.FilterLessEqual` | src/Molino/Doctrine/ORM/BaseQuery.php:162-167 | Returns the same query, in state `Step` with operator `<=`. A builder the query already had is kept as the same object. |
| `DoctrineOrm.ChainedFilters` | src/Molino/Doctrine/ORM/BaseQuery.php:68-73 | Each filter returns the query it was called on, so calls chain. Two chained filters give the state of the two steps in order, with two more predicates. |
| `Translation.StepCompare` | src/Molino/Doctrine/ORM/BaseQuery.php:179-184 | A comparison filter appends exactly the predicate `column op ?id`, where the column is the field qualified with the root alias and the id is the old counter plus 1. That id was unbound before, and afterwards it is bound to the value itself. |
| `Translation.StepMember` | src/Molino/Doctrine/ORM/BaseQuery.php:108-127 | filterIn appends exactly an `IN` predicate and filterNotIn a `NOT IN` predicate, on the qualified column with the fresh id. The whole array is bound to that one id. |
| `Translation.StepEffect` | src/Molino/Doctrine/ORM/BaseQuery.php:179-184 | One filter call raises the counter by 1 and appends exactly one predicate, which refers to the new id. It binds the filter's value to that id, which was unbound before. Earlier predicates and bindings are kept, and the root entity and aliases do not change. |
| `Translation.StepsCount` | src/Molino/Doctrine/ORM/BaseQuery.php:174-184 | After N filter calls the counter has grown by N and the predicate list by N. The earlier predicates are kept as a prefix. |
| `Translation.StepsFreshIds` | src/Molino/Doctrine/ORM/BaseQuery.php:174-184 | After N filter calls the bound ids are exactly the old ones plus (old counter)+1 .. (old counter)+N. None of the new ids was bound before, and no earlier binding is overwritten. |
| `Translation.StepsAppend` | src/Molino/Doctrine/ORM/BaseQuery.php:174-184 | Filter calls compose: running one list of calls and then another gives the same state as running the two lists joined, since each call depends only on the state the previous one left. |
| `Translation.StepsBindings` | src/Molino/Doctrine/ORM/BaseQuery.php:179-184 | The i-th of N filter calls bound its value to id (old counter)+i+1. |
| `Translation.StepsPredicateIds` | src/Molino/Doctrine/ORM/BaseQuery.php:179-184 | The i-th of N filter calls appended the predicate at position (old predicate count)+i, and that predicate refers to id (old counter)+i+1. |
| `Translation.NewQueryIds` | src/Molino/Doctrine/ORM/BaseQuery.php:174-177 | On a new query, N filter calls bind exactly the ids 1 .. N. The i-th predicate refers to id i+1. |
| `Translation.StepsKeepRoot` | src/Molino/Doctrine/ORM/BaseQuery.php:40-54 | Filter calls never change the root entity or root aliases of the builder that lazy construction produced. |
| `LikePattern.BuildLikeValue` | src/Molino/Doctrine/ORM/BaseQuery.php:186-197 | The result has the input's length. Every `*` becomes `%` and every other character stays in place, including a literal `%` or `_`. The result holds no `*`, and an input without `*` comes back unchanged. |
| `LikePattern.RewriteIsReplaceWildcards` | src/Molino/Doctrine/ORM/BaseQuery.php:186-197 | For any tokens in which every `*` stands alone, the per-token rewrite followed by the join equals the character-level replacement of `*` by `%` in the joined tokens. |
| `LikePattern.LikeValueIndependentOfTokenizer` | src/Molino/Doctrine/ORM/BaseQuery.php:186-197 | Any tokenizer that joins back to the value and isolates every `*` gives the same LIKE value. |
| `LikePattern.RewriteWithoutWildcards` | src/Molino/Doctrine/ORM/BaseQuery.php:186-197 | Tokens none of which is a lone `*` come out joined and otherwise unchanged. |
| `LikePattern.ParseLike` | src/Molino/Doctrine/ORM/BaseQuery.php:194 | The stand-in tokenizer's tokens join back to the value, every `*` is a token of its own, and no token is empty. |
| `LikePattern.LikeExample` | src/Molino/Doctrine/ORM/BaseQuery.php:186-197 | `a*b*c` becomes `a%b%c`. |

## Left out

- `parseLike` belongs to the parent class `Molino\BaseQuery`, which is not part of this model. `LikePattern.ParseLike` is a stand-in. `LikeValueIndependentOfTokenizer` shows that the LIKE value depends only on two assumed properties of the tokenizer: its tokens join back to the value, and each `*` is a token of its own. If the real tokenizer treats some `*` differently (an escape, say), that is not captured.
- Doctrine internals are not modelled: the entity manager, `createQueryBuilder`, `expr()->in` / `expr()->notIn`, `setParameter` and DQL generation. The class `QueryBuilder` keeps only what the filters write. Predicates are a datatype rather than the text `'%s %s ?%d'`. `Operator.Symbol` gives each operator's text, but integer-to-text formatting of the id is not modelled.
- `getMolino()` and `getModelClass()` come from the parent class. The model class is a constructor parameter of `Query`, and the Molino object and its entity manager are left out.
- Subclass overrides of `configureQueryBuilder` are not modelled; only the base no-op hook is. So the root aliases start as `["m"]`, and no query method changes them (`StepsKeepRoot`). A caller holding the builder returned by `getQueryBuilder()` could still change them, as in PHP; that is outside `Valid()`.
- `DoctrineOrm.Query.GetRootAlias`: the builder is assumed to have at least one root alias (part of `Valid()`). With the default hook this always holds. The model does not cover an empty alias list. There PHP reports an undefined offset (a notice in PHP 7, a warning in PHP 8) and `getRootAlias` returns `null`.
- `Valid()` assumes that only the query itself binds parameters. A caller that takes the builder from `getQueryBuilder()` and binds ids of its own is not covered. Such a caller must keep every bound id at or below the counter before calling a filter again.
- Bound values are PHP `null`, booleans, integers, strings and arrays. Floats and objects are left out. The `array` type hint of `filterIn` / `filterNotIn` is enforced by the Dafny types, so the PHP type error for a non-array is not modelled.
- Query execution and the terminal operations are left out; they are I/O against the database.
- The Mandango backend (`src/Molino/Mandango/Molino.php`) is pure delegation with no translation logic. `src/Molino/DeleteQueryInterface.php` only declares `execute()`. Neither is modelled, and the database-backed tests are not modelled either.
