/** The context rewrite: how an object is stored (`object_rewrite`) and how a caller's query
    is turned into the filter that enforces the visibility rule (`query_rewrite`). */
module Rewrite {
  import opened Wrappers
  import opened Json
  import opened Mongo

  // ---------------------------------------------------------------------------
  // object_rewrite
  // ---------------------------------------------------------------------------

  /** The caller's object dict, which `object_rewrite` changes in place. */
  class Dict {
    var members: map<string, Value>

    constructor (members: map<string, Value>)
      ensures this.members == members
    {
      this.members := members;
    }
  }

  /** The contexts split off an obj: its `_contexts` member, or `[]` when it has none. */
  function ContextsOf(m: map<string, Value>): (r: Value)
    ensures "_contexts" in m ==> r == m["_contexts"]
    ensures "_contexts" !in m ==> r == Arr([])
  {
    if "_contexts" in m then m["_contexts"] else Arr([])
  }

  /** The object as `object_rewrite` leaves it: without `_contexts`, and with an `_id` and a
      `_timestamp`, the given fresh ones only where the object had none. */
  function StoredObject(m: map<string, Value>, freshId: string, nowMillis: int): (r: map<string, Value>)
    ensures "_contexts" !in r
    ensures "_id" in r && r["_id"] == (if "_id" in m then m["_id"] else Str(freshId))
    ensures "_timestamp" in r && r["_timestamp"] == (if "_timestamp" in m then m["_timestamp"] else Num(nowMillis))
    ensures forall k :: k != "_contexts" && k != "_id" && k != "_timestamp" ==>
      (k in r <==> k in m) && (k in r ==> r[k] == m[k])
  {
    var withoutContexts := m - {"_contexts"};
    var withId := if "_id" in withoutContexts then withoutContexts else withoutContexts["_id" := Str(freshId)];
    if "_timestamp" in withId then withId else withId["_timestamp" := Num(nowMillis)]
  }

  /** The document stored for an object. */
  function Document(ownerId: string, obj: map<string, Value>, contexts: Value): Value
  {
    Obj(map["_owner_id" := Str(ownerId), "_object" := Arr([Obj(obj)]), "_contexts" := contexts])
  }

  /** `object_rewrite(object, owner_id)`; `freshId` and `nowMillis` stand for `str(uuid4())` and
      `int(time.time() * 1000)`. */
  method ObjectRewrite(obj: Dict, ownerId: string, freshId: string, nowMillis: int)
    returns (objectId: Value, doc: Value)
    modifies obj
    ensures obj.members == StoredObject(old(obj.members), freshId, nowMillis)
    ensures objectId == obj.members["_id"]
    ensures doc == Document(ownerId, obj.members, ContextsOf(old(obj.members)))
  {
    var contexts;
    if "_contexts" in obj.members {
      contexts := obj.members["_contexts"];
      obj.members := obj.members - {"_contexts"};
    } else {
      contexts := Arr([]);
    }
    if "_id" !in obj.members {
      obj.members := obj.members["_id" := Str(freshId)];
    }
    if "_timestamp" !in obj.members {
      obj.members := obj.members["_timestamp" := Num(nowMillis)];
    }
    objectId := obj.members["_id"];
    doc := Document(ownerId, obj.members, contexts);
  }

  /** The stored document has exactly one object, the rewritten one, and its contexts are
      exactly the ones split off. */
  lemma DocumentShape(ownerId: string, m: map<string, Value>, freshId: string, nowMillis: int)
    ensures var doc := Document(ownerId, StoredObject(m, freshId, nowMillis), ContextsOf(m));
      && Get(doc, "_owner_id") == Some(Str(ownerId))
      && Elements(Get(doc, "_object")) == [Obj(StoredObject(m, freshId, nowMillis))]
      && Get(doc, "_contexts") == Some(if "_contexts" in m then m["_contexts"] else Arr([]))
      && "_contexts" !in Elements(Get(doc, "_object"))[0].members
  {
  }

  // ---------------------------------------------------------------------------
  // query_rewrite
  // ---------------------------------------------------------------------------

  /** `{"$not": {"$elemMatch": q}}`: no near miss matches the query. */
  function NearMissCondition(q: Value): Value
  {
    Obj(map["$not" := Obj(map["$elemMatch" := q])])
  }

  /** `{"$not": {"$elemMatch": {"$nor": [q]}}}`: no neighbour fails to match the query. */
  function NeighborCondition(q: Value): Value
  {
    Obj(map["$not" := Obj(map["$elemMatch" := Obj(map["$nor" := Arr([q])])])])
  }

  /** The filter one context must satisfy. */
  function ContextFilter(q: Value): Value
  {
    Obj(map["_nearMisses" := NearMissCondition(q), "_neighbors" := NeighborCondition(q)])
  }

  /** The filter `query_rewrite` builds from the caller's query `q`. */
  function VisibilityFilter(q: Value): Value
  {
    Obj(map[
      "_object" := Obj(map["$elemMatch" := q]),
      "$or" := Arr([
        Obj(map["_contexts" := Obj(map["$size" := Num(0)])]),
        Obj(map["_contexts" := Obj(map["$elemMatch" := ContextFilter(q)])])
      ])
    ])
  }

  /** `query_rewrite(query)`: the fingerprint (`sha256` of the serialised filter, here the
      uninterpreted `digest`) and the filter. */
  function QueryRewrite(q: Value, digest: Value -> string): (string, Value)
  {
    var filter := VisibilityFilter(q);
    (digest(filter), filter)
  }

  // ---------------------------------------------------------------------------
  // The visibility rule in plain words
  // ---------------------------------------------------------------------------

  function NearMisses(context: Value): seq<Value>
  {
    Elements(Get(context, "_nearMisses"))
  }

  function Neighbors(context: Value): seq<Value>
  {
    Elements(Get(context, "_neighbors"))
  }

  /** A context passes a query when the query matches none of its near misses and all of
      its neighbours. */
  predicate ContextPasses(q: Value, context: Value, leaf: Leaf)
  {
    && (forall i :: 0 <= i < |NearMisses(context)| ==> !Matches(q, NearMisses(context)[i], leaf))
    && (forall i :: 0 <= i < |Neighbors(context)| ==> Matches(q, Neighbors(context)[i], leaf))
  }

  /** An object with these contexts is visible to a query when the query matches the object
      and either there are no contexts or one of them passes. */
  predicate Visible(q: Value, obj: Value, contexts: seq<Value>, leaf: Leaf)
  {
    Matches(q, obj, leaf) &&
    (|contexts| == 0 || exists i :: 0 <= i < |contexts| && ContextPasses(q, contexts[i], leaf))
  }

  // ---------------------------------------------------------------------------
  // The encoding equals the rule
  // ---------------------------------------------------------------------------

  lemma NearMissEncoding(q: Value, context: Value, leaf: Leaf)
    ensures Clause("_nearMisses", NearMissCondition(q), context, leaf) <==>
      forall i :: 0 <= i < |NearMisses(context)| ==> !Matches(q, NearMisses(context)[i], leaf)
  {
    NotElemMatchClause("_nearMisses", q, context, leaf);
    assert NearMissCondition(q) == Obj(map["$not" := Obj(map["$elemMatch" := q])]);
    assert NearMisses(context) == Elements(Get(context, "_nearMisses"));
  }

  /** `$not {$elemMatch {$nor [q]}}` says that every neighbour matches `q`. */
  lemma NeighborEncoding(q: Value, context: Value, leaf: Leaf)
    ensures Clause("_neighbors", NeighborCondition(q), context, leaf) <==>
      forall i :: 0 <= i < |Neighbors(context)| ==> Matches(q, Neighbors(context)[i], leaf)
  {
    var nor := Obj(map["$nor" := Arr([q])]);
    NotElemMatchClause("_neighbors", nor, context, leaf);
    assert NeighborCondition(q) == Obj(map["$not" := Obj(map["$elemMatch" := nor])]);
    assert Neighbors(context) == Elements(Get(context, "_neighbors"));
    forall e ensures Matches(nor, e, leaf) <==> Matches(q, e, leaf) == false {
      OneClause("$nor", Arr([q]), e, leaf);
      NorClause([q], e, leaf);
      assert [q][0] == q;
    }
  }

  lemma ContextEncoding(q: Value, context: Value, leaf: Leaf)
    ensures Matches(ContextFilter(q), context, leaf) <==> ContextPasses(q, context, leaf)
  {
    TwoClauses("_nearMisses", NearMissCondition(q), "_neighbors", NeighborCondition(q), context, leaf);
    assert ContextFilter(q) == Obj(map["_nearMisses" := NearMissCondition(q), "_neighbors" := NeighborCondition(q)]);
    NearMissEncoding(q, context, leaf);
    NeighborEncoding(q, context, leaf);
  }

  /** The `$or` of the rewritten filter: no contexts, or one context that passes. */
  lemma ContextsEncoding(q: Value, doc: Value, leaf: Leaf)
    ensures Clause("$or", VisibilityFilter(q).members["$or"], doc, leaf) <==>
      || Get(doc, "_contexts") == Some(Arr([]))
      || exists i :: 0 <= i < |Elements(Get(doc, "_contexts"))| && ContextPasses(q, Elements(Get(doc, "_contexts"))[i], leaf)
  {
    var sizeCond := Obj(map["$size" := Num(0)]);
    var someCond := Obj(map["$elemMatch" := ContextFilter(q)]);
    var empty := Obj(map["_contexts" := sizeCond]);
    var some := Obj(map["_contexts" := someCond]);
    assert VisibilityFilter(q).members["$or"] == Arr([empty, some]);
    OrClause([empty, some], doc, leaf);
    assert [empty, some][0] == empty && [empty, some][1] == some;
    OneClause("_contexts", sizeCond, doc, leaf);
    SizeClause("_contexts", 0, doc, leaf);
    OneClause("_contexts", someCond, doc, leaf);
    ElemMatchClause("_contexts", ContextFilter(q), doc, leaf);
    var cs := Elements(Get(doc, "_contexts"));
    forall i | 0 <= i < |cs| ensures Matches(ContextFilter(q), cs[i], leaf) <==> ContextPasses(q, cs[i], leaf) {
      ContextEncoding(q, cs[i], leaf);
    }
  }

  /** The rewritten filter matches a document exactly when the query matches one of its
      objects and its contexts are empty or one of them passes. */
  lemma VisibilityEncoding(q: Value, doc: Value, leaf: Leaf)
    ensures Matches(VisibilityFilter(q), doc, leaf) <==>
      && (exists i :: 0 <= i < |Elements(Get(doc, "_object"))| && Matches(q, Elements(Get(doc, "_object"))[i], leaf))
      && (|| Get(doc, "_contexts") == Some(Arr([]))
          || exists i :: 0 <= i < |Elements(Get(doc, "_contexts"))| && ContextPasses(q, Elements(Get(doc, "_contexts"))[i], leaf))
  {
    var f := VisibilityFilter(q);
    assert f == Obj(map["_object" := Obj(map["$elemMatch" := q]), "$or" := f.members["$or"]]);
    TwoClauses("_object", Obj(map["$elemMatch" := q]), "$or", f.members["$or"], doc, leaf);
    ElemMatchClause("_object", q, doc, leaf);
    ContextsEncoding(q, doc, leaf);
  }

  /** For a stored document the encoding is exactly the plain-words rule. */
  lemma StoredDocumentVisibility(q: Value, ownerId: string, obj: map<string, Value>, contexts: seq<Value>, leaf: Leaf)
    ensures Matches(VisibilityFilter(q), Document(ownerId, obj, Arr(contexts)), leaf) <==>
      Visible(q, Obj(obj), contexts, leaf)
  {
    var doc := Document(ownerId, obj, Arr(contexts));
    VisibilityEncoding(q, doc, leaf);
    assert Get(doc, "_object") == Some(Arr([Obj(obj)]));
    assert Get(doc, "_contexts") == Some(Arr(contexts));
    assert Elements(Get(doc, "_object")) == [Obj(obj)];
    assert Elements(Get(doc, "_contexts")) == contexts;
    assert (exists i :: 0 <= i < 1 && Matches(q, [Obj(obj)][i], leaf)) <==> Matches(q, Obj(obj), leaf) by {
      assert [Obj(obj)][0] == Obj(obj);
    }
  }

  /** An object stored without contexts is visible exactly when it matches the query. */
  lemma NoContextsVisibility(q: Value, ownerId: string, obj: map<string, Value>, leaf: Leaf)
    ensures Matches(VisibilityFilter(q), Document(ownerId, obj, Arr([])), leaf) <==> Matches(q, Obj(obj), leaf)
  {
    StoredDocumentVisibility(q, ownerId, obj, [], leaf);
  }

  /** A context whose near misses and neighbours are both empty (or absent) passes every query. */
  lemma EmptyContextPasses(q: Value, context: Value, leaf: Leaf)
    requires NearMisses(context) == [] && Neighbors(context) == []
    ensures Matches(ContextFilter(q), context, leaf)
  {
    ContextEncoding(q, context, leaf);
  }

  /** A context one of whose neighbours the query does not match never passes. */
  lemma FailingNeighborBlocks(q: Value, context: Value, leaf: Leaf, i: nat)
    requires i < |Neighbors(context)| && !Matches(q, Neighbors(context)[i], leaf)
    ensures !Matches(ContextFilter(q), context, leaf)
  {
    ContextEncoding(q, context, leaf);
  }

  /** The rewritten filter determines the caller's query: distinct queries give distinct filters. */
  lemma FilterDeterminesQuery(q1: Value, q2: Value)
    ensures VisibilityFilter(q1) == VisibilityFilter(q2) <==> q1 == q2
  {
    if VisibilityFilter(q1) == VisibilityFilter(q2) {
      assert VisibilityFilter(q1).members["_object"].members["$elemMatch"] == q1;
    }
  }

  /** Equal serialised filters give equal fingerprints, whatever the digest. */
  lemma EqualFiltersShareFingerprint(q1: Value, q2: Value, digest: Value -> string)
    requires QueryRewrite(q1, digest).1 == QueryRewrite(q2, digest).1
    ensures QueryRewrite(q1, digest).0 == QueryRewrite(q2, digest).0
  {
  }

  /** For a collision-free digest, equal fingerprints mean equal queries.  The digest is an
      idealisation: a fixed-length hash such as SHA-256 cannot be collision-free, so this
      states what the fingerprint gives up to hash collisions. */
  lemma FingerprintIdentifiesQuery(q1: Value, q2: Value, digest: Value -> string)
    requires forall a, b :: digest(a) == digest(b) ==> a == b
    ensures QueryRewrite(q1, digest).0 == QueryRewrite(q2, digest).0 ==> q1 == q2
  {
    FilterDeterminesQuery(q1, q2);
  }
}
