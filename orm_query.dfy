/**
 * The Doctrine ORM base query (`Molino\Doctrine\ORM\BaseQuery`).
 *
 * A query owns a Doctrine QueryBuilder that it creates on first use and then
 * keeps, and a counter of the parameter ids it has handed out. Every filter
 * method mints the next id, appends one predicate on the qualified field to
 * the builder, binds its value to that id, and returns the query itself.
 * Cloning a query copies its builder, so the two queries go on separately.
 */
module DoctrineOrm {
  import opened Wrappers
  import opened Translation
  import LikePattern

  /**
   * The part of Doctrine's QueryBuilder that the query uses: the root
   * entity and aliases given to `from`, the where-predicates, and the
   * bound parameters. The query holds it by reference and changes it in
   * place.
   */
  class QueryBuilder {
    var rootEntity: string
    var rootAliases: seq<string>
    var wheres: seq<Pred>
    var params: map<nat, Value>

    /** The builder's contents as a value. */
    ghost function Contents(): Builder
      reads this
    {
      Builder(rootEntity, rootAliases, wheres, params)
    }

    /** `createQueryBuilder()->from(entity, alias)`: an empty builder with one root alias. */
    constructor From(entity: string, alias: string)
      ensures Contents() == Builder(entity, [alias], [], map[])
    {
      rootEntity, rootAliases, wheres, params := entity, [alias], [], map[];
    }

    /** Adds a predicate, AND-combined with the ones already there. */
    method AndWhere(p: Pred)
      modifies this
      ensures Contents() == old(Contents()).(wheres := old(wheres) + [p])
    {
      wheres := wheres + [p];
    }

    /** Binds `v` to parameter `id`, replacing any earlier binding of that id. */
    method SetParameter(id: nat, v: Value)
      modifies this
      ensures Contents() == old(Contents()).(params := old(params)[id := v])
    {
      params := params[id := v];
    }

    method GetRootAliases() returns (aliases: seq<string>)
      ensures aliases == rootAliases
    {
      aliases := rootAliases;
    }

    /** PHP's `clone` of the builder: a new object with the same contents. */
    method Copy() returns (c: QueryBuilder)
      ensures fresh(c) && c.Contents() == Contents()
    {
      c := new QueryBuilder.From(rootEntity, []);
      c.rootAliases, c.wheres, c.params := rootAliases, wheres, params;
    }
  }

  /** A query over one model class, translating filter calls into builder predicates. */
  class Query {
    const modelClass: string
    var queryBuilder: QueryBuilder?
    var lastParameterId: nat

    /** The objects this query owns: itself and, once built, its builder. */
    ghost function Footprint(): set<object>
      reads this
    {
      if queryBuilder == null then {this} else {this, queryBuilder}
    }

    /** The query's abstract state. */
    ghost function State(): QueryState
      reads this, queryBuilder
    {
      QueryState(lastParameterId, if queryBuilder == null then None else Some(queryBuilder.Contents()))
    }

    ghost predicate Valid()
      reads this, queryBuilder
    {
      ValidState(State())
    }

    /** A new query: no builder yet, and no parameter id handed out. */
    constructor (modelClass: string)
      ensures this.modelClass == modelClass
      ensures State() == Initial && queryBuilder == null && Valid()
    {
      this.modelClass := modelClass;
      queryBuilder := null;
      lastParameterId := 0;
    }

    /**
     * `clone $query` followed by `__clone`: the counter is copied by value,
     * a missing builder stays missing, and an existing builder is replaced
     * in the clone by a copy of its own, so the two queries share no object.
     */
    method Clone() returns (c: Query)
      requires Valid()
      ensures fresh(c) && c.modelClass == modelClass
      ensures c.State() == State() && c.Valid()
      ensures c.queryBuilder == null <==> queryBuilder == null
      ensures c.queryBuilder != null ==> fresh(c.queryBuilder)
      ensures c.Footprint() !! Footprint()
    {
      c := new Query(modelClass);
      c.lastParameterId := lastParameterId;
      if queryBuilder != null {
        var copy := queryBuilder.Copy();
        c.queryBuilder := copy;
      }
    }

    /**
     * `getQueryBuilder`: on first use, create a builder selecting the model
     * class as `m`, pass it to the configuration hook and keep it; from then
     * on, return the kept builder and change nothing.
     */
    method GetQueryBuilder() returns (qb: QueryBuilder)
      requires Valid()
      modifies this
      ensures Valid() && queryBuilder == qb && lastParameterId == old(lastParameterId)
      ensures old(queryBuilder) != null ==> qb == old(queryBuilder) && State() == old(State())
      ensures old(queryBuilder) == null ==> fresh(qb)
      ensures State() == Built(old(State()), modelClass)
    {
      if queryBuilder == null {
        var b := new QueryBuilder.From(modelClass, RootAlias);
        ConfigureQueryBuilder(b);
        queryBuilder := b;
      }
      qb := queryBuilder;
    }

    /** The configuration hook; the base query's leaves the builder as it is. */
    method ConfigureQueryBuilder(qb: QueryBuilder)
      ensures qb.Contents() == old(qb.Contents())
    {
    }

    /** `generateParameterId`: advance the counter by one and return it, an id no binding uses yet. */
    method GenerateParameterId() returns (id: nat)
      requires Valid()
      modifies this`lastParameterId
      ensures Valid()
      ensures id == old(lastParameterId) + 1 && lastParameterId == id
      ensures id !in Params(old(State()))
    {
      lastParameterId := lastParameterId + 1;
      id := lastParameterId;
    }

    /** `getRootAlias`: the first root alias of the (possibly just built) builder. */
    method GetRootAlias() returns (alias: string)
      requires Valid()
      modifies this
      ensures Valid() && State() == Built(old(State()), modelClass)
      ensures old(queryBuilder) != null ==> queryBuilder == old(queryBuilder)
      ensures alias == State().builder.value.rootAliases[0]
    {
      var qb := GetQueryBuilder();
      var aliases := qb.GetRootAliases();
      alias := aliases[0];
    }

    /**
     * `formatField`: a field with a `.` is returned as it is; any other is
     * prefixed with the root alias, which builds the builder if needed.
     */
    method FormatField(field: string) returns (column: string)
      requires Valid()
      modifies this
      ensures Valid()
      ensures State() == if '.' in field then old(State()) else Built(old(State()), modelClass)
      ensures old(queryBuilder) != null ==> queryBuilder == old(queryBuilder)
      ensures column == Qualified(Built(old(State()), modelClass).builder.value.rootAliases[0], field)
    {
      if '.' !in field {
        var alias := GetRootAlias();
        column := alias + "." + field;
      } else {
        column := field;
      }
    }

    /** The shared body of the comparison filters: one predicate `<column> <op> ?<id>`, one binding. */
    method AndWhere(op: Operator, field: string, value: Value)
      requires Valid()
      modifies Footprint()
      ensures Valid() && fresh(Footprint() - old(Footprint()))
      ensures queryBuilder != null && (old(queryBuilder) != null ==> queryBuilder == old(queryBuilder))
      ensures State() == Step(old(State()), modelClass, Compare(op, field, value))
    {
      var id := GenerateParameterId();
      var qb := GetQueryBuilder();
      var column := FormatField(field);
      assert queryBuilder == qb && qb.Contents() == Built(old(State()), modelClass).builder.value;
      qb.AndWhere(Cmp(column, op, id));
      qb.SetParameter(id, value);
    }

    /** The shared body of `filterIn` and `filterNotIn`: one membership predicate, the whole array bound to one id. */
    method AndWhereMember(negated: bool, field: string, values: seq<Value>)
      requires Valid()
      modifies Footprint()
      ensures Valid() && fresh(Footprint() - old(Footprint()))
      ensures queryBuilder != null && (old(queryBuilder) != null ==> queryBuilder == old(queryBuilder))
      ensures State() == Step(old(State()), modelClass, Member(negated, field, values))
    {
      var id := GenerateParameterId();
      var qb := GetQueryBuilder();
      var column := FormatField(field);
      assert queryBuilder == qb && qb.Contents() == Built(old(State()), modelClass).builder.value;
      qb.AndWhere(if negated then NotIn(column, id) else In(column, id));
      qb.SetParameter(id, Arr(values));
    }

    method FilterEqual(field: string, value: Value) returns (r: Query)
      requires Valid()
      modifies Footprint()
      ensures r == this && Valid() && fresh(Footprint() - old(Footprint()))
      ensures queryBuilder != null && (old(queryBuilder) != null ==> queryBuilder == old(queryBuilder))
      ensures State() == Step(old(State()), modelClass, Compare(Eq, field, value))
    {
      AndWhere(Eq, field, value);
      r := this;
    }

    method FilterNotEqual(field: string, value: Value) returns (r: Query)
      requires Valid()
      modifies Footprint()
      ensures r == this && Valid() && fresh(Footprint() - old(Footprint()))
      ensures queryBuilder != null && (old(queryBuilder) != null ==> queryBuilder == old(queryBuilder))
      ensures State() == Step(old(State()), modelClass, Compare(NotEq, field, value))
    {
      AndWhere(NotEq, field, value);
      r := this;
    }

    /** The pattern is bound after its `*` wildcards have been turned into `%`. */
    method FilterLike(field: string, value: string) returns (r: Query)
      requires Valid()
      modifies Footprint()
      ensures r == this && Valid() && fresh(Footprint() - old(Footprint()))
      ensures queryBuilder != null && (old(queryBuilder) != null ==> queryBuilder == old(queryBuilder))
      ensures State() == Step(old(State()), modelClass,
                              Compare(Like, field, Str(LikePattern.BuildLikeValue(value))))
    {
      AndWhere(Like, field, Str(LikePattern.BuildLikeValue(value)));
      r := this;
    }

    method FilterNotLike(field: string, value: string) returns (r: Query)
      requires Valid()
      modifies Footprint()
      ensures r == this && Valid() && fresh(Footprint() - old(Footprint()))
      ensures queryBuilder != null && (old(queryBuilder) != null ==> queryBuilder == old(queryBuilder))
      ensures State() == Step(old(State()), modelClass,
                              Compare(NotLike, field, Str(LikePattern.BuildLikeValue(value))))
    {
      AndWhere(NotLike, field, Str(LikePattern.BuildLikeValue(value)));
      r := this;
    }

    method FilterIn(field: string, values: seq<Value>) returns (r: Query)
      requires Valid()
      modifies Footprint()
      ensures r == this && Valid() && fresh(Footprint() - old(Footprint()))
      ensures queryBuilder != null && (old(queryBuilder) != null ==> queryBuilder == old(queryBuilder))
      ensures State() == Step(old(State()), modelClass, Member(false, field, values))
    {
      AndWhereMember(false, field, values);
      r := this;
    }

    method FilterNotIn(field: string, values: seq<Value>) returns (r: Query)
      requires Valid()
      modifies Footprint()
      ensures r == this && Valid() && fresh(Footprint() - old(Footprint()))
      ensures queryBuilder != null && (old(queryBuilder) != null ==> queryBuilder == old(queryBuilder))
      ensures State() == Step(old(State()), modelClass, Member(true, field, values))
    {
      AndWhereMember(true, field, values);
      r := this;
    }

    method FilterGreater(field: string, value: Value) returns (r: Query)
      requires Valid()
      modifies Footprint()
      ensures r == this && Valid() && fresh(Footprint() - old(Footprint()))
      ensures queryBuilder != null && (old(queryBuilder) != null ==> queryBuilder == old(queryBuilder))
      ensures State() == Step(old(State()), modelClass, Compare(Greater, field, value))
    {
      AndWhere(Greater, field, value);
      r := this;
    }

    method FilterLess(field: string, value: Value) returns (r: Query)
      requires Valid()
      modifies Footprint()
      ensures r == this && Valid() && fresh(Footprint() - old(Footprint()))
      ensures queryBuilder != null && (old(queryBuilder) != null ==> queryBuilder == old(queryBuilder))
      ensures State() == Step(old(State()), modelClass, Compare(Less, field, value))
    {
      AndWhere(Less, field, value);
      r := this;
    }

    method FilterGreaterEqual(field: string, value: Value) returns (r: Query)
      requires Valid()
      modifies Footprint()
      ensures r == this && Valid() && fresh(Footprint() - old(Footprint()))
      ensures queryBuilder != null && (old(queryBuilder) != null ==> queryBuilder == old(queryBuilder))
      ensures State() == Step(old(State()), modelClass, Compare(GreaterEq, field, value))
    {
      AndWhere(GreaterEq, field, value);
      r := this;
    }

    method FilterLessEqual(field: string, value: Value) returns (r: Query)
      requires Valid()
      modifies Footprint()
      ensures r == this && Valid() && fresh(Footprint() - old(Footprint()))
      ensures queryBuilder != null && (old(queryBuilder) != null ==> queryBuilder == old(queryBuilder))
      ensures State() == Step(old(State()), modelClass, Compare(LessEq, field, value))
    {
      AndWhere(LessEq, field, value);
      r := this;
    }
  }

  /**
   * A clone and its original go on separately: a filter added to the clone
   * is not seen by the original, and a filter added to the original after
   * cloning is not seen by the clone.
   */
  method CloneIndependence(q: Query, f1: string, v1: Value, f2: string, v2: Value) returns (c: Query)
    requires q.Valid()
    modifies q.Footprint()
    ensures fresh(c) && c.Valid() && q.Valid()
    ensures c.State() == Step(old(q.State()), q.modelClass, Compare(Eq, f1, v1))
    ensures q.State() == Step(old(q.State()), q.modelClass, Compare(Greater, f2, v2))
  {
    c := q.Clone();
    var c1 := c.FilterEqual(f1, v1);
    var q1 := q.FilterGreater(f2, v2);
  }

  /**
   * Filters chain: each returns the query it was called on, and the
   * predicates of a chain accumulate in call order.
   */
  method ChainedFilters(q: Query, f1: string, v1: Value, f2: string, v2: Value) returns (r: Query)
    requires q.Valid()
    modifies q.Footprint()
    ensures r == q && q.Valid()
    ensures q.State() == Steps(old(q.State()), q.modelClass, [Compare(Eq, f1, v1), Compare(Greater, f2, v2)])
    ensures |Wheres(q.State())| == |Wheres(old(q.State()))| + 2
  {
    ghost var fs := [Compare(Eq, f1, v1), Compare(Greater, f2, v2)];
    var r1 := q.FilterEqual(f1, v1);
    ghost var s1 := q.State();
    r := r1.FilterGreater(f2, v2);
    assert fs[1..] == [fs[1]] && [fs[1]][1..] == [];
    assert Steps(s1, q.modelClass, fs[1..]) == q.State();
    StepsCount(old(q.State()), q.modelClass, fs);
  }
}
