/** The part of the document store's filter language that the server itself builds.
    `$or`, `$nor` and `$and` over arrays of filters, and field conditions made only of
    `$elemMatch`, `$size` and `$not` are given their meaning here; every other clause
    (equality, comparisons, `$in`, dotted paths, ...) is decided by the uninterpreted `leaf`. */
module Mongo {
  import opened Wrappers
  import opened Json

  /** Decides a clause this model does not interpret: `leaf(key, condition, document)`. */
  type Leaf = (string, Value, Value) -> bool

  /** Does `doc` match the filter document `filter`?  A filter is an object whose clauses must
      all hold; anything else matches nothing. */
  predicate Matches(filter: Value, doc: Value, leaf: Leaf)
    decreases filter, 3
  {
    filter.Obj? &&
    forall key :: key in filter.members ==> Clause(key, filter.members[key], doc, leaf)
  }

  predicate Clause(key: string, cond: Value, doc: Value, leaf: Leaf)
    decreases cond, 2
  {
    if key == "$or" && cond.Arr? then
      exists i :: 0 <= i < |cond.items| && Matches(cond.items[i], doc, leaf)
    else if key == "$nor" && cond.Arr? then
      forall i :: 0 <= i < |cond.items| ==> !Matches(cond.items[i], doc, leaf)
    else if key == "$and" && cond.Arr? then
      forall i :: 0 <= i < |cond.items| ==> Matches(cond.items[i], doc, leaf)
    else if PlainField(key) && Interpreted(cond) then
      Condition(cond, Get(doc, key), leaf)
    else
      leaf(key, cond, doc)
  }

  /** A field name without dots and without a leading `$`: it names one member of the document. */
  predicate PlainField(key: string)
  {
    (key == [] || key[0] != '$') && '.' !in key
  }

  /** An operator document built only from the operators given a meaning here. */
  predicate Interpreted(cond: Value)
  {
    cond.Obj? && |cond.members| > 0 &&
    forall op :: op in cond.members ==>
      (op == "$elemMatch" || op == "$size" || (op == "$not" && Interpreted(cond.members[op])))
  }

  /** Every operator of an interpreted operator document holds of the field's value
      (`None` when the document lacks the field). */
  predicate Condition(cond: Value, field: Option<Value>, leaf: Leaf)
    requires Interpreted(cond)
    decreases cond, 1
  {
    forall op :: op in cond.members ==> Operator(op, cond.members[op], field, leaf)
  }

  predicate Operator(op: string, arg: Value, field: Option<Value>, leaf: Leaf)
    requires op == "$elemMatch" || op == "$size" || (op == "$not" && Interpreted(arg))
    decreases arg, 4
  {
    if op == "$elemMatch" then
      field.Some? && field.value.Arr? &&
      exists i :: 0 <= i < |field.value.items| && Matches(arg, field.value.items[i], leaf)
    else if op == "$size" then
      arg.Num? && field.Some? && field.value.Arr? && |field.value.items| == arg.n
    else
      !Condition(arg, field, leaf)
  }

  // ---------------------------------------------------------------------------
  // The meaning of each combinator, one at a time
  // ---------------------------------------------------------------------------

  /** A filter with one clause. */
  lemma OneClause(key: string, cond: Value, doc: Value, leaf: Leaf)
    ensures Matches(Obj(map[key := cond]), doc, leaf) <==> Clause(key, cond, doc, leaf)
  {
    assert map[key := cond].Keys == {key};
  }

  /** A filter with two clauses. */
  lemma TwoClauses(k1: string, c1: Value, k2: string, c2: Value, doc: Value, leaf: Leaf)
    requires k1 != k2
    ensures Matches(Obj(map[k1 := c1, k2 := c2]), doc, leaf) <==>
      Clause(k1, c1, doc, leaf) && Clause(k2, c2, doc, leaf)
  {
    assert map[k1 := c1, k2 := c2].Keys == {k1, k2};
  }

  lemma OrClause(filters: seq<Value>, doc: Value, leaf: Leaf)
    ensures Clause("$or", Arr(filters), doc, leaf) <==>
      exists i :: 0 <= i < |filters| && Matches(filters[i], doc, leaf)
  {
  }

  lemma NorClause(filters: seq<Value>, doc: Value, leaf: Leaf)
    ensures Clause("$nor", Arr(filters), doc, leaf) <==>
      forall i :: 0 <= i < |filters| ==> !Matches(filters[i], doc, leaf)
  {
    assert "$nor" != "$or" by { assert |"$nor"| != |"$or"|; }
  }

  /** `{key: {"$elemMatch": f}}`: the field is an array one of whose elements matches `f`. */
  lemma ElemMatchClause(key: string, f: Value, doc: Value, leaf: Leaf)
    requires PlainField(key)
    ensures Clause(key, Obj(map["$elemMatch" := f]), doc, leaf) <==>
      Get(doc, key).Some? && Get(doc, key).value.Arr? &&
      exists i :: 0 <= i < |Elements(Get(doc, key))| && Matches(f, Elements(Get(doc, key))[i], leaf)
  {
    var cond := Obj(map["$elemMatch" := f]);
    assert cond.members.Keys == {"$elemMatch"};
    assert Interpreted(cond);
    assert key != "$or" && key != "$nor" && key != "$and";
    assert Clause(key, cond, doc, leaf) == Condition(cond, Get(doc, key), leaf);
    var field := Get(doc, key);
    assert Condition(cond, field, leaf) == Operator("$elemMatch", f, field, leaf);
    assert field.Some? && field.value.Arr? ==> Elements(field) == field.value.items;
  }

  /** `{key: {"$not": {"$elemMatch": f}}}`: no element of the field matches `f` (also when the
      field is missing or is not an array). */
  lemma NotElemMatchClause(key: string, f: Value, doc: Value, leaf: Leaf)
    requires PlainField(key)
    ensures Clause(key, Obj(map["$not" := Obj(map["$elemMatch" := f])]), doc, leaf) <==>
      forall i :: 0 <= i < |Elements(Get(doc, key))| ==> !Matches(f, Elements(Get(doc, key))[i], leaf)
  {
    var inner := Obj(map["$elemMatch" := f]);
    var cond := Obj(map["$not" := inner]);
    assert inner.members.Keys == {"$elemMatch"} && cond.members.Keys == {"$not"};
    assert Interpreted(inner);
    assert Interpreted(cond);
    assert key != "$or" && key != "$nor" && key != "$and";
    var field := Get(doc, key);
    assert Clause(key, cond, doc, leaf) == Condition(cond, field, leaf);
    assert Condition(cond, field, leaf) == Operator("$not", inner, field, leaf);
    assert "$not" != "$elemMatch" && "$not" != "$size" by { assert |"$not"| != |"$elemMatch"| && "$not"[1] != "$size"[1]; }
    assert Operator("$not", inner, field, leaf) == !Condition(inner, field, leaf);
    assert Condition(inner, field, leaf) == Operator("$elemMatch", f, field, leaf);
    assert field.Some? && field.value.Arr? ==> Elements(field) == field.value.items;
    assert !(field.Some? && field.value.Arr?) ==> Elements(field) == [];
  }

  /** `{key: {"$size": n}}`: the field is an array of `n` elements. */
  lemma SizeClause(key: string, n: int, doc: Value, leaf: Leaf)
    requires PlainField(key)
    ensures Clause(key, Obj(map["$size" := Num(n)]), doc, leaf) <==>
      Get(doc, key).Some? && Get(doc, key).value.Arr? && |Get(doc, key).value.items| == n
  {
    var cond := Obj(map["$size" := Num(n)]);
    assert cond.members.Keys == {"$size"};
    assert Interpreted(cond);
    assert key != "$or" && key != "$nor" && key != "$and";
    assert Clause(key, cond, doc, leaf) == Condition(cond, Get(doc, key), leaf);
    assert Condition(cond, Get(doc, key), leaf) == Operator("$size", Num(n), Get(doc, key), leaf);
    assert "$size" != "$elemMatch" by { assert |"$size"| != |"$elemMatch"|; }
  }
}
