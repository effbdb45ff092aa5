/**
 * The abstract state of a Doctrine ORM query and what one filter call does to it.
 *
 * The Doctrine QueryBuilder is represented by the value it accumulates: the
 * root entity and its aliases, the AND-combined where-predicates in the order
 * they were added, and the bound parameters keyed by their numeric id. A
 * query's state is that builder (absent until first use) together with the
 * last parameter id it has handed out.
 */
module Translation {
  import opened Wrappers
  import LikePattern

  /** A PHP value bound to a query parameter. */
  datatype Value = Null | Bool(b: bool) | Int(i: int) | Str(s: string) | Arr(items: seq<Value>)

  /** The eight comparison operators the filters write into a predicate. */
  datatype Operator = Eq | NotEq | Like | NotLike | Greater | Less | GreaterEq | LessEq
  {
    /** The operator as it appears in the predicate text `<field> <op> ?<id>`. */
    function Symbol(): string
    {
      match this
      case Eq => "="
      case NotEq => "<>"
      case Like => "LIKE"
      case NotLike => "NOT LIKE"
      case Greater => ">"
      case Less => "<"
      case GreaterEq => ">="
      case LessEq => "<="
    }
  }

  /**
   * One where-predicate: `<field> <op> ?<id>`, or a membership test of the
   * field against the array bound to parameter `id`.
   */
  datatype Pred =
    | Cmp(field: string, op: Operator, id: nat)
    | In(field: string, id: nat)
    | NotIn(field: string, id: nat)

  /** The contents of a Doctrine QueryBuilder, as far as the filters touch it. */
  datatype Builder = Builder(
    rootEntity: string,
    rootAliases: seq<string>,
    wheres: seq<Pred>,
    params: map<nat, Value>)

  /** The alias under which the query selects its model class. */
  const RootAlias: string := "m"

  /** A fresh builder selecting `entity` as `m`, after the default (empty) configuration hook. */
  function NewBuilder(entity: string): (b: Builder)
    ensures b.rootAliases == [RootAlias] && b.wheres == [] && b.params == map[]
  {
    Builder(entity, [RootAlias], [], map[])
  }

  /** A query's state: the last parameter id handed out and the builder, once built. */
  datatype QueryState = QueryState(lastParameterId: nat, builder: Option<Builder>)

  /** The state of a query that has just been created. */
  const Initial: QueryState := QueryState(0, None)

  /** The predicates of a state; none before the builder exists. */
  function Wheres(s: QueryState): seq<Pred>
  {
    if s.builder.Some? then s.builder.value.wheres else []
  }

  /** The bound parameters of a state; none before the builder exists. */
  function Params(s: QueryState): map<nat, Value>
  {
    if s.builder.Some? then s.builder.value.params else map[]
  }

  /**
   * The query invariant: a built builder has a root alias to qualify fields
   * with, and every bound parameter id is one the counter has already
   * passed, so the next id it hands out is unused.
   */
  ghost predicate ValidState(s: QueryState)
  {
    s.builder.Some? ==>
      |s.builder.value.rootAliases| > 0 &&
      forall k :: k in s.builder.value.params ==> 1 <= k <= s.lastParameterId
  }

  /**
   * `formatField`: a field that already holds a `.` is taken as qualified;
   * any other field is prefixed with the root alias and a `.`.
   */
  function Qualified(alias: string, field: string): (r: string)
  {
    if '.' in field then field else alias + "." + field
  }

  /**
   * A qualified field always holds a `.` and ends with the field as given;
   * it equals the field exactly when the field already held a `.`, and
   * otherwise it starts with the alias followed by `.`.
   */
  lemma QualifiedSpec(alias: string, field: string)
    ensures '.' in Qualified(alias, field)
    ensures Qualified(alias, field) == field <==> '.' in field
    ensures var r := Qualified(alias, field); |r| >= |field| && r[|r| - |field|..] == field
    ensures '.' !in field ==>
      var r := Qualified(alias, field);
      |r| == |alias| + 1 + |field| && r[..|alias|] == alias && r[|alias|] == '.'
  {
  }

  /** Qualifying a qualified field changes nothing. */
  lemma QualifiedIdempotent(alias: string, field: string)
    ensures Qualified(alias, Qualified(alias, field)) == Qualified(alias, field)
  {
  }

  /** `getQueryBuilder` on the abstract state: build the builder if it is still absent. */
  function Built(s: QueryState, entity: string): (r: QueryState)
    ensures r.builder.Some? && r.lastParameterId == s.lastParameterId
    ensures s.builder.Some? ==> r == s
    ensures s.builder.None? ==> r.builder.value == NewBuilder(entity)
    ensures ValidState(s) ==> ValidState(r)
  {
    QueryState(s.lastParameterId, Some(s.builder.GetOr(NewBuilder(entity))))
  }

  /**
   * One public filter call. `Compare` is `andWhere` with an operator and a
   * single value (the LIKE filters pass the value already rewritten);
   * `Member` is `filterIn` (`negated` false) or `filterNotIn` with the
   * whole array as one value.
   */
  datatype Filter =
    | Compare(op: Operator, field: string, value: Value)
    | Member(negated: bool, field: string, values: seq<Value>)

  /** The value a filter binds to its parameter. */
  function Binding(f: Filter): (v: Value)
    ensures f.Member? ==> v.Arr? && v.items == f.values
  {
    match f
    case Compare(_, _, v) => v
    case Member(_, _, vs) => Arr(vs)
  }

  /** The predicate a filter appends, on the qualified column, with parameter `id`. */
  function Emitted(f: Filter, column: string, id: nat): (p: Pred)
    ensures p.field == column && p.id == id
    ensures f.Compare? <==> p.Cmp?
    ensures f.Compare? ==> p.op == f.op
    ensures f.Member? ==> (p.NotIn? <==> f.negated)
  {
    match f
    case Compare(op, _, _) => Cmp(column, op, id)
    case Member(negated, _, _) => if negated then NotIn(column, id) else In(column, id)
  }

  /**
   * What one filter call does: mint the next parameter id, build the
   * builder if needed, append one predicate on the qualified field, and
   * bind the filter's value to the new id.
   */
  function Step(s: QueryState, entity: string, f: Filter): (r: QueryState)
    requires ValidState(s)
    ensures ValidState(r)
  {
    var id := s.lastParameterId + 1;
    var b := Built(s, entity).builder.value;
    var column := Qualified(b.rootAliases[0], f.field);
    QueryState(id, Some(b.(wheres := b.wheres + [Emitted(f, column, id)],
                          params := b.params[id := Binding(f)])))
  }

  /**
   * One filter call consumes exactly one fresh parameter id, appends exactly
   * one predicate on the qualified field referring to that id, binds the
   * filter's value to it, keeps every earlier predicate and binding, and
   * changes nothing else in the builder.
   */
  lemma StepEffect(s: QueryState, entity: string, f: Filter)
    requires ValidState(s)
    ensures Step(s, entity, f).lastParameterId == s.lastParameterId + 1
    ensures Step(s, entity, f).builder.Some?
    ensures Step(s, entity, f).builder.value.rootEntity == Built(s, entity).builder.value.rootEntity
    ensures Step(s, entity, f).builder.value.rootAliases == Built(s, entity).builder.value.rootAliases
    ensures |Wheres(Step(s, entity, f))| == |Wheres(s)| + 1
    ensures Wheres(Step(s, entity, f))[..|Wheres(s)|] == Wheres(s)
    ensures Wheres(Step(s, entity, f))[|Wheres(s)|]
      == Emitted(f, Qualified(Built(s, entity).builder.value.rootAliases[0], f.field), s.lastParameterId + 1)
    ensures s.lastParameterId + 1 !in Params(s)
    ensures forall k :: k in Params(Step(s, entity, f)) <==> k in Params(s) || k == s.lastParameterId + 1
    ensures Params(Step(s, entity, f))[s.lastParameterId + 1] == Binding(f)
    ensures forall k :: k in Params(s) ==> Params(Step(s, entity, f))[k] == Params(s)[k]
  {
  }

  /**
   * `andWhere`: a comparison filter appends the predicate `column op ?id` on
   * the qualified field with the freshly minted id, and binds the value
   * itself to that id.
   */
  lemma StepCompare(s: QueryState, entity: string, op: Operator, field: string, value: Value)
    requires ValidState(s)
    ensures var id := s.lastParameterId + 1;
      var column := Qualified(Built(s, entity).builder.value.rootAliases[0], field);
      && id !in Params(s)
      && Wheres(Step(s, entity, Compare(op, field, value))) == Wheres(s) + [Cmp(column, op, id)]
      && Params(Step(s, entity, Compare(op, field, value))) == Params(s)[id := value]
  {
  }

  /**
   * `filterIn` / `filterNotIn`: one `IN` (or `NOT IN`) predicate on the
   * qualified field with a single fresh id, to which the whole array is bound.
   */
  lemma StepMember(s: QueryState, entity: string, negated: bool, field: string, values: seq<Value>)
    requires ValidState(s)
    ensures var id := s.lastParameterId + 1;
      var column := Qualified(Built(s, entity).builder.value.rootAliases[0], field);
      && id !in Params(s)
      && Wheres(Step(s, entity, Member(negated, field, values)))
         == Wheres(s) + [if negated then NotIn(column, id) else In(column, id)]
      && Params(Step(s, entity, Member(negated, field, values))) == Params(s)[id := Arr(values)]
  {
  }

  /** A sequence of filter calls, applied in order. */
  function Steps(s: QueryState, entity: string, fs: seq<Filter>): (r: QueryState)
    requires ValidState(s)
    ensures ValidState(r)
    decreases |fs|
  {
    if fs == [] then s else Steps(Step(s, entity, fs[0]), entity, fs[1..])
  }

  /**
   * After N filter calls the counter has advanced by N and the predicate
   * list has grown by N, keeping every earlier predicate in place.
   */
  lemma {:induction false} StepsCount(s: QueryState, entity: string, fs: seq<Filter>)
    requires ValidState(s)
    ensures Steps(s, entity, fs).lastParameterId == s.lastParameterId + |fs|
    ensures |Wheres(Steps(s, entity, fs))| == |Wheres(s)| + |fs|
    ensures Wheres(Steps(s, entity, fs))[..|Wheres(s)|] == Wheres(s)
    decreases |fs|
  {
    if fs != [] {
      var s1 := Step(s, entity, fs[0]);
      StepEffect(s, entity, fs[0]);
      StepsCount(s1, entity, fs[1..]);
      var w := Wheres(Steps(s, entity, fs));
      assert w[..|Wheres(s)|] == w[..|Wheres(s1)|][..|Wheres(s)|];
    }
  }

  /**
   * After N filter calls exactly the N ids after the old counter have been
   * bound, none of them was bound before, and no earlier binding is
   * overwritten.
   */
  lemma {:induction false} StepsFreshIds(s: QueryState, entity: string, fs: seq<Filter>)
    requires ValidState(s)
    ensures forall k :: s.lastParameterId < k <= s.lastParameterId + |fs| ==> k !in Params(s)
    ensures forall k ::
      k in Params(Steps(s, entity, fs)) <==> k in Params(s) || s.lastParameterId < k <= s.lastParameterId + |fs|
    ensures forall k :: k in Params(s) ==> Params(Steps(s, entity, fs))[k] == Params(s)[k]
    decreases |fs|
  {
    if fs != [] {
      var s1 := Step(s, entity, fs[0]);
      StepEffect(s, entity, fs[0]);
      var r := Steps(s1, entity, fs[1..]);
      assert Steps(s, entity, fs) == r;
      StepsFreshIds(s1, entity, fs[1..]);
      var lo, hi := s.lastParameterId, s.lastParameterId + |fs|;
      assert s1.lastParameterId == lo + 1 && s1.lastParameterId + |fs[1..]| == hi;
      forall k ensures k in Params(r) <==> k in Params(s) || lo < k <= hi {
        assert k in Params(r) <==> k in Params(s1) || lo + 1 < k <= hi;
        assert k in Params(s1) <==> k in Params(s) || k == lo + 1;
      }
    }
  }

  /** Filter calls compose: running fs and then gs is running fs + gs. */
  lemma {:induction false} StepsAppend(s: QueryState, entity: string, fs: seq<Filter>, gs: seq<Filter>)
    requires ValidState(s)
    ensures Steps(s, entity, fs + gs) == Steps(Steps(s, entity, fs), entity, gs)
    decreases |fs|
  {
    if fs != [] {
      assert (fs + gs)[0] == fs[0];
      assert (fs + gs)[1..] == fs[1..] + gs;
      StepsAppend(Step(s, entity, fs[0]), entity, fs[1..], gs);
    } else {
      assert fs + gs == gs;
    }
  }

  /** Splitting N filter calls after the first i: the counter has then advanced by i. */
  lemma StepsSplit(s: QueryState, entity: string, fs: seq<Filter>, i: nat)
    requires ValidState(s) && i <= |fs|
    ensures Steps(s, entity, fs) == Steps(Steps(s, entity, fs[..i]), entity, fs[i..])
    ensures Steps(s, entity, fs[..i]).lastParameterId == s.lastParameterId + i
    ensures |Wheres(Steps(s, entity, fs[..i]))| == |Wheres(s)| + i
  {
    assert fs == fs[..i] + fs[i..];
    StepsAppend(s, entity, fs[..i], fs[i..]);
    StepsCount(s, entity, fs[..i]);
  }

  /** The first of N filter calls binds its value to id old + 1, and later calls keep it. */
  lemma {:induction false} StepsFirstBinding(s: QueryState, entity: string, fs: seq<Filter>)
    requires ValidState(s) && fs != []
    ensures s.lastParameterId + 1 in Params(Steps(s, entity, fs))
    ensures Params(Steps(s, entity, fs))[s.lastParameterId + 1] == Binding(fs[0])
  {
    var s1 := Step(s, entity, fs[0]);
    StepEffect(s, entity, fs[0]);
    assert s1.lastParameterId in Params(s1);
    StepsFreshIds(s1, entity, fs[1..]);
    assert Steps(s, entity, fs) == Steps(s1, entity, fs[1..]);
  }

  /** The i-th of N filter calls binds its value to parameter id old + i + 1. */
  lemma {:induction false} StepsBindings(s: QueryState, entity: string, fs: seq<Filter>, i: nat)
    requires ValidState(s)
    requires i < |fs|
    ensures s.lastParameterId + i + 1 in Params(Steps(s, entity, fs))
    ensures Params(Steps(s, entity, fs))[s.lastParameterId + i + 1] == Binding(fs[i])
  {
    var t := Steps(s, entity, fs[..i]);
    var rest := fs[i..];
    StepsSplit(s, entity, fs, i);
    assert rest[0] == fs[i];
    StepsFirstBinding(t, entity, rest);
  }

  /** The first of N filter calls appends predicate number old, which refers to id old + 1. */
  lemma {:induction false} StepsFirstPredicate(s: QueryState, entity: string, fs: seq<Filter>)
    requires ValidState(s) && fs != []
    ensures |Wheres(Steps(s, entity, fs))| == |Wheres(s)| + |fs|
    ensures Wheres(Steps(s, entity, fs))[|Wheres(s)|].id == s.lastParameterId + 1
  {
    var s1 := Step(s, entity, fs[0]);
    StepEffect(s, entity, fs[0]);
    var w := Wheres(Steps(s1, entity, fs[1..]));
    assert Wheres(Steps(s, entity, fs)) == w;
    StepsCount(s1, entity, fs[1..]);
    var n := |Wheres(s)|;
    assert w[n] == w[..|Wheres(s1)|][n];
  }

  /** The i-th of N filter calls appended predicate number old + i, referring to id old + i + 1. */
  lemma {:induction false} StepsPredicateIds(s: QueryState, entity: string, fs: seq<Filter>, i: nat)
    requires ValidState(s)
    requires i < |fs|
    ensures |Wheres(Steps(s, entity, fs))| == |Wheres(s)| + |fs|
    ensures Wheres(Steps(s, entity, fs))[|Wheres(s)| + i].id == s.lastParameterId + i + 1
  {
    var t := Steps(s, entity, fs[..i]);
    var rest := fs[i..];
    StepsSplit(s, entity, fs, i);
    StepsFirstPredicate(t, entity, rest);
  }

  /**
   * On a new query, N filter calls bind exactly the ids 1 .. N and append
   * N predicates whose ids are 1 .. N in order.
   */
  lemma {:induction false} NewQueryIds(entity: string, fs: seq<Filter>)
    ensures ValidState(Initial)
    ensures forall k :: k in Params(Steps(Initial, entity, fs)) <==> 1 <= k <= |fs|
    ensures |Wheres(Steps(Initial, entity, fs))| == |fs|
    ensures forall i :: 0 <= i < |fs| ==> Wheres(Steps(Initial, entity, fs))[i].id == i + 1
  {
    var w := Wheres(Steps(Initial, entity, fs));
    assert forall k :: k in Params(Steps(Initial, entity, fs)) <==> 1 <= k <= |fs| by {
      StepsFreshIds(Initial, entity, fs);
    }
    assert |w| == |fs| by {
      StepsCount(Initial, entity, fs);
    }
    forall i | 0 <= i < |fs| ensures w[i].id == i + 1 {
      StepsPredicateIds(Initial, entity, fs, i);
    }
  }

  /** Filter calls never change the root entity or the root aliases once the builder exists. */
  lemma {:induction false} StepsKeepRoot(s: QueryState, entity: string, fs: seq<Filter>)
    requires ValidState(s)
    requires fs != []
    ensures Steps(s, entity, fs).builder.Some?
    ensures Steps(s, entity, fs).builder.value.rootAliases == Built(s, entity).builder.value.rootAliases
    ensures Steps(s, entity, fs).builder.value.rootEntity == Built(s, entity).builder.value.rootEntity
    decreases |fs|
  {
    if |fs| > 1 {
      StepsKeepRoot(Step(s, entity, fs[0]), entity, fs[1..]);
    }
  }
}
