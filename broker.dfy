/** The query broker (class `QueryBroker`): the table of open queries per socket, the latest
    creation time seen in the change stream, and the match pass that runs every open query
    against a changed object. */
module Broker {
  import opened Wrappers
  import opened Json

  type SocketId = string
  type QueryId = string
  type QueryPath = (SocketId, QueryId)
  type QueryTable = map<SocketId, map<QueryId, Value>>

  /** What the broker reads of a socket: its id and the user it belongs to. */
  datatype BrokerSocket = BrokerSocket(id: SocketId, user: string)

  /** What `find_one` does with a filter: returns a document, returns `None`, or raises. */
  datatype Lookup = Found(doc: Value) | Nothing | Raised(message: string)

  /** What the match pass sends to sockets: `socket.match(query_id, doc)` and
      `socket.error(query_id, str(e))`. */
  datatype Event = Matched(socket: SocketId, queryId: QueryId, doc: Value)
                 | Failed(socket: SocketId, queryId: QueryId, message: string)

  datatype BrokerError =
    | NoSuchSocket(socketId: SocketId)              // KeyError on `self.sockets[socket_id]`
    | NotOwner(socketId: SocketId, user: string)    // the RuntimeError of `validate_socket`
    | NoSuchQuery(queryId: QueryId)                 // KeyError on `del self.queries[...][query_id]`

  /** The error a stored query that is not a dict raises at `query["object.uuid"] = ...`. */
  const NotAssignable: string := "object does not support item assignment"

  // ---------------------------------------------------------------------------
  // The change stream's watermark
  // ---------------------------------------------------------------------------

  /** `latest_time` after changes whose objects were created at `created`, in order. */
  function Watermark(start: int, created: seq<int>): int
    decreases |created|
  {
    if created == [] then start else Max(Watermark(start, created[..|created| - 1]), created[|created| - 1])
  }

  function Max(a: int, b: int): (r: int)
    ensures r >= a && r >= b && (r == a || r == b)
  {
    if a >= b then a else b
  }

  /** `latest_time` never decreases, bounds every creation time seen, and is always one of them
      or its start. */
  lemma {:induction false} WatermarkBounds(start: int, created: seq<int>)
    ensures Watermark(start, created) >= start
    ensures forall k :: 0 <= k < |created| ==> Watermark(start, created) >= created[k]
    ensures Watermark(start, created) == start || Watermark(start, created) in created
    decreases |created|
  {
    if created != [] {
      var prefix := created[..|created| - 1];
      WatermarkBounds(start, prefix);
      assert forall k :: 0 <= k < |prefix| ==> created[k] == prefix[k];
      assert Watermark(start, prefix) in prefix ==> Watermark(start, prefix) in created;
    }
  }

  /** A later change can only raise the watermark of an earlier prefix. */
  lemma {:induction false} WatermarkMonotone(start: int, created: seq<int>, n: nat)
    requires n <= |created|
    ensures Watermark(start, created[..n]) <= Watermark(start, created)
    decreases |created|
  {
    if n < |created| {
      var prefix := created[..|created| - 1];
      assert created[..n] == prefix[..n];
      WatermarkMonotone(start, prefix, n);
      assert Watermark(start, created) == Max(Watermark(start, prefix), created[|created| - 1]);
    } else {
      assert created[..n] == created;
    }
  }

  // ---------------------------------------------------------------------------
  // The match pass, as functions of the query table
  // ---------------------------------------------------------------------------

  predicate Open(queries: QueryTable, p: QueryPath)
  {
    p.0 in queries && p.1 in queries[p.0]
  }

  /** The filter the pass hands to `find_one`: the stored query with `object.uuid` pinned to
      the changed object. */
  function Restricted(query: map<string, Value>, objectId: string): (r: Value)
    ensures r.Obj? && "object.uuid" in r.members && r.members["object.uuid"] == Str(objectId)
    ensures forall k :: k in query && k != "object.uuid" ==> k in r.members && r.members[k] == query[k]
    ensures forall k :: k in r.members ==> k in query || k == "object.uuid"
  {
    Obj(query["object.uuid" := Str(objectId)])
  }

  /** The `try` block of the pass for one stored query. */
  function Evaluate(query: Value, objectId: string, findOne: Value -> Lookup): Lookup
  {
    if query.Obj? then findOne(Restricted(query.members, objectId)) else Raised(NotAssignable)
  }

  /** The message one open query yields, if any. */
  function EventOf(queries: QueryTable, p: QueryPath, objectId: string, findOne: Value -> Lookup): seq<Event>
    requires Open(queries, p)
  {
    match Evaluate(queries[p.0][p.1], objectId, findOne)
    case Found(doc) => [Matched(p.0, p.1, doc)]
    case Nothing => []
    case Raised(message) => [Failed(p.0, p.1, message)]
  }

  /** Everything a pass over the open queries in `order` sends. */
  function PassEvents(queries: QueryTable, order: seq<QueryPath>, objectId: string, findOne: Value -> Lookup): seq<Event>
    requires forall p :: p in order ==> Open(queries, p)
    decreases |order|
  {
    if order == [] then []
    else PassEvents(queries, order[..|order| - 1], objectId, findOne) + EventOf(queries, order[|order| - 1], objectId, findOne)
  }

  /** The open queries in `order` whose evaluation raises. */
  function FailingPaths(queries: QueryTable, order: seq<QueryPath>, objectId: string, findOne: Value -> Lookup): set<QueryPath>
    requires forall p :: p in order ==> Open(queries, p)
  {
    set p | p in order && Open(queries, p) && Evaluate(queries[p.0][p.1], objectId, findOne).Raised?
  }

  /** The query table with the paths in `failing` dropped. */
  function Without(queries: QueryTable, failing: set<QueryPath>): QueryTable
  {
    map s | s in queries :: map q | q in queries[s] && (s, q) !in failing :: queries[s][q]
  }

  /** A pass sends `match(query_id, doc)` for an open query exactly when `find_one`, restricted to
      the changed object, returns `doc`. */
  lemma {:induction false} MatchedIffFound(queries: QueryTable, order: seq<QueryPath>, objectId: string,
                                           findOne: Value -> Lookup, s: SocketId, q: QueryId, doc: Value)
    requires forall p :: p in order ==> Open(queries, p)
    ensures Matched(s, q, doc) in PassEvents(queries, order, objectId, findOne) <==>
      (s, q) in order && Evaluate(queries[s][q], objectId, findOne) == Found(doc)
    decreases |order|
  {
    if order != [] {
      var prefix := order[..|order| - 1];
      assert forall p :: p in prefix ==> p in order;
      MatchedIffFound(queries, prefix, objectId, findOne, s, q, doc);
      assert order == prefix + [order[|order| - 1]];
    }
  }

  /** A pass sends `error(query_id, message)` for an open query exactly when its evaluation
      raises with that message; the failure of one query does not keep the others from being
      evaluated. */
  lemma {:induction false} FailedIffRaised(queries: QueryTable, order: seq<QueryPath>, objectId: string,
                                           findOne: Value -> Lookup, s: SocketId, q: QueryId, message: string)
    requires forall p :: p in order ==> Open(queries, p)
    ensures Failed(s, q, message) in PassEvents(queries, order, objectId, findOne) <==>
      (s, q) in order && Evaluate(queries[s][q], objectId, findOne) == Raised(message)
    decreases |order|
  {
    if order != [] {
      var prefix := order[..|order| - 1];
      assert forall p :: p in prefix ==> p in order;
      FailedIffRaised(queries, prefix, objectId, findOne, s, q, message);
      assert order == prefix + [order[|order| - 1]];
    }
  }

  /** A pass sends at most one message per query it evaluates. */
  lemma {:induction false} PassEventsBound(queries: QueryTable, order: seq<QueryPath>, objectId: string, findOne: Value -> Lookup)
    requires forall p :: p in order ==> Open(queries, p)
    ensures |PassEvents(queries, order, objectId, findOne)| <= |order|
    decreases |order|
  {
    if order != [] {
      var prefix := order[..|order| - 1];
      assert forall p :: p in prefix ==> p in order;
      PassEventsBound(queries, prefix, objectId, findOne);
    }
  }

  /** After the pass, an open query is still open exactly when its evaluation did not raise,
      with its stored filter unchanged; no query is added. */
  lemma SurvivorsOfPass(queries: QueryTable, order: seq<QueryPath>, objectId: string, findOne: Value -> Lookup, p: QueryPath)
    requires forall p :: p in order ==> Open(queries, p)
    ensures var after := Without(queries, FailingPaths(queries, order, objectId, findOne));
      && after.Keys == queries.Keys
      && (Open(after, p) ==> Open(queries, p) && after[p.0][p.1] == queries[p.0][p.1])
      && (Open(queries, p) ==> (Open(after, p) <==> !(p in order && Evaluate(queries[p.0][p.1], objectId, findOne).Raised?)))
  {
  }

  /** One more step of the pass: its message is appended, and its path joins the failing ones
      when its evaluation raises. */
  lemma PassStep(queries: QueryTable, order: seq<QueryPath>, i: nat, objectId: string, findOne: Value -> Lookup)
    requires forall p :: p in order <==> Open(queries, p)
    requires forall i, j :: 0 <= i < j < |order| ==> order[i] != order[j]
    requires i < |order|
    ensures forall p :: p in order[..i] ==> Open(queries, p)
    ensures order[i] !in FailingPaths(queries, order[..i], objectId, findOne)
    ensures PassEvents(queries, order[..i + 1], objectId, findOne) ==
      PassEvents(queries, order[..i], objectId, findOne) + EventOf(queries, order[i], objectId, findOne)
    ensures Evaluate(queries[order[i].0][order[i].1], objectId, findOne).Raised? ==>
      FailingPaths(queries, order[..i + 1], objectId, findOne) == FailingPaths(queries, order[..i], objectId, findOne) + {order[i]}
    ensures !Evaluate(queries[order[i].0][order[i].1], objectId, findOne).Raised? ==>
      FailingPaths(queries, order[..i + 1], objectId, findOne) == FailingPaths(queries, order[..i], objectId, findOne)
  {
    assert order[..i + 1] == order[..i] + [order[i]];
    assert order[..i + 1][..i] == order[..i];
    assert forall p :: p in order[..i] ==> p in order;
  }

  lemma AppendAssoc<T>(a: seq<T>, b: seq<T>, c: seq<T>)
    ensures a + (b + c) == a + b + c
  {
  }

  lemma StillOpen(queries: QueryTable, failing: set<QueryPath>, p: QueryPath)
    requires Open(queries, p) && p !in failing
    ensures Without(queries, failing).Keys == queries.Keys
    ensures Open(Without(queries, failing), p) && Without(queries, failing)[p.0][p.1] == queries[p.0][p.1]
  {
  }

  lemma WithoutNothing(queries: QueryTable, none: seq<QueryPath>, objectId: string, findOne: Value -> Lookup)
    requires none == []
    ensures Without(queries, FailingPaths(queries, none, objectId, findOne)) == queries
  {
    var after := Without(queries, FailingPaths(queries, none, objectId, findOne));
    assert after.Keys == queries.Keys;
    forall s | s in after
      ensures after[s] == queries[s]
    {
    }
  }

  lemma WithoutOneMore(queries: QueryTable, failing: set<QueryPath>, p: QueryPath)
    requires Open(queries, p)
    ensures var before := Without(queries, failing);
      Without(queries, failing + {p}) == before[p.0 := before[p.0] - {p.1}]
  {
    var before := Without(queries, failing);
    var after := Without(queries, failing + {p});
    assert after.Keys == before.Keys;
    forall s | s in after
      ensures after[s] == before[p.0 := before[p.0] - {p.1}][s]
    {
      if s == p.0 {
        assert after[s] == before[s] - {p.1};
      }
    }
  }

  // ---------------------------------------------------------------------------
  // The query table's updates, as functions
  // ---------------------------------------------------------------------------

  /** The batch of `add_queries` after `query_rewrite`. */
  function Rewritten(batch: map<QueryId, Value>, user: string, rewrite: (Value, string) -> Value): (r: map<QueryId, Value>)
    ensures r.Keys == batch.Keys
  {
    map q | q in batch :: rewrite(batch[q], user)
  }

  /** The ids of `remove_queries` can all be deleted in turn: each is in the table and not
      deleted already. */
  predicate Deletable(keys: set<QueryId>, ids: seq<QueryId>)
  {
    forall k :: 0 <= k < |ids| ==> ids[k] in keys && ids[k] !in ids[..k]
  }

  function IdSet(ids: seq<QueryId>): (r: set<QueryId>)
    ensures forall q :: q in r <==> q in ids
  {
    set q | q in ids
  }

  lemma AddOne(table: map<QueryId, Value>, batch: map<QueryId, Value>, user: string,
                rewrite: (Value, string) -> Value, remaining: set<QueryId>, q: QueryId)
    requires q in remaining && q in batch
    ensures (table + map k | k in batch && k !in remaining :: rewrite(batch[k], user))[q := rewrite(batch[q], user)] ==
      table + map k | k in batch && k !in remaining - {q} :: rewrite(batch[k], user)
  {
    var before := table + map k | k in batch && k !in remaining :: rewrite(batch[k], user);
    var after := table + map k | k in batch && k !in remaining - {q} :: rewrite(batch[k], user);
    assert before[q := rewrite(batch[q], user)].Keys == after.Keys;
  }

  /** Removing the ids just added restores a table in which they were new. */
  lemma RemoveUndoesAdd(table: map<QueryId, Value>, batch: map<QueryId, Value>, user: string,
                        rewrite: (Value, string) -> Value, ids: seq<QueryId>)
    requires table.Keys !! batch.Keys
    requires IdSet(ids) == batch.Keys
    ensures (table + Rewritten(batch, user, rewrite)) - IdSet(ids) == table
  {
    var added := table + Rewritten(batch, user, rewrite);
    assert (added - IdSet(ids)).Keys == table.Keys;
  }

  // ---------------------------------------------------------------------------
  // class QueryBroker
  // ---------------------------------------------------------------------------

  class QueryBroker {
    /** The open queries of each socket, after `query_rewrite`. */
    var queries: QueryTable
    var sockets: map<SocketId, BrokerSocket>
    /** The latest `created` seen in the change stream. */
    var latestTime: int
    /** The `created` of every change seen so far, in order. */
    ghost var seen: seq<int>
    /** Everything the match passes sent to sockets, in order. */
    var events: seq<Event>

    ghost predicate Valid()
      reads this
    {
      && queries.Keys == sockets.Keys
      && latestTime == Watermark(0, seen)
    }

    constructor ()
      ensures Valid() && queries == map[] && sockets == map[] && latestTime == 0 && events == [] && seen == []
    {
      queries, sockets, latestTime, events := map[], map[], 0, [];
      seen := [];
    }

    /** `add_socket(socket)`: the socket is registered with an empty query table, replacing
        any earlier registration under its id. */
    method AddSocket(socket: BrokerSocket)
      requires Valid()
      modifies this`sockets, this`queries
      ensures Valid()
      ensures sockets == old(sockets)[socket.id := socket]
      ensures queries == old(queries)[socket.id := map[]]
      ensures forall u :: ValidateSocket(socket.id, u).Pass? <==> u == socket.user
      ensures forall s, u :: s != socket.id ==> ValidateSocket(s, u) == old(ValidateSocket(s, u))
    {
      sockets := sockets[socket.id := socket];
      queries := queries[socket.id := map[]];
    }

    /** `remove_socket(socket)`: both entries go; an unknown socket raises and nothing changes. */
    method RemoveSocket(socket: BrokerSocket) returns (r: Outcome<BrokerError>)
      requires Valid()
      modifies this`sockets, this`queries
      ensures Valid()
      ensures socket.id !in old(sockets) ==>
        r == Fail(NoSuchSocket(socket.id)) && sockets == old(sockets) && queries == old(queries)
      ensures socket.id in old(sockets) ==>
        r == Pass && sockets == old(sockets) - {socket.id} && queries == old(queries) - {socket.id}
      ensures forall u :: ValidateSocket(socket.id, u) == Fail(NoSuchSocket(socket.id))
    {
      if socket.id !in sockets {
        return Fail(NoSuchSocket(socket.id));
      }
      sockets := sockets - {socket.id};
      queries := queries - {socket.id};
      r := Pass;
    }

    /** `validate_socket(socket_id, user)`: the socket must exist and belong to `user`. */
    function ValidateSocket(socketId: SocketId, user: string): (r: Outcome<BrokerError>)
      reads this
      ensures r.Pass? <==> socketId in sockets && sockets[socketId].user == user
      ensures socketId !in sockets ==> r == Fail(NoSuchSocket(socketId))
      ensures socketId in sockets && sockets[socketId].user != user ==> r == Fail(NotOwner(socketId, user))
    {
      if socketId !in sockets then Fail(NoSuchSocket(socketId))
      else if sockets[socketId].user != user then Fail(NotOwner(socketId, user))
      else Pass
    }

    /** `add_queries(socket_id, queries, user)`: after validation, every query of the batch is
        stored, rewritten for `user`, under its id (replacing one already there), and
        `latest_time` is returned.  `rewrite` is `query_rewrite`. */
    method AddQueries(socketId: SocketId, batch: map<QueryId, Value>, user: string, rewrite: (Value, string) -> Value)
      returns (r: Result<int, BrokerError>)
      requires Valid()
      modifies this`queries
      ensures Valid()
      ensures ValidateSocket(socketId, user).Fail? ==>
        r == Err(ValidateSocket(socketId, user).error) && queries == old(queries)
      ensures ValidateSocket(socketId, user).Pass? ==>
        && r == Ok(latestTime)
        && queries == old(queries)[socketId := old(queries)[socketId] + Rewritten(batch, user, rewrite)]
    {
      var valid := ValidateSocket(socketId, user);
      if valid.Fail? {
        return Err(valid.error);
      }
      StoreAll(socketId, batch, user, rewrite);
      r := Ok(latestTime);
    }

    /** The loop of `add_queries`: `self.queries[socket_id][query_id] = query_rewrite(...)` for
        each query of the batch. */
    method StoreAll(socketId: SocketId, batch: map<QueryId, Value>, user: string, rewrite: (Value, string) -> Value)
      requires socketId in queries
      modifies this`queries
      ensures queries == old(queries)[socketId := old(queries)[socketId] + Rewritten(batch, user, rewrite)]
    {
      ghost var table := queries[socketId];
      var remaining := batch.Keys;
      while remaining != {}
        invariant remaining <= batch.Keys && socketId in queries
        invariant queries == old(queries)[socketId := queries[socketId]]
        invariant queries[socketId] == table + map q | q in batch && q !in remaining :: rewrite(batch[q], user)
        decreases remaining
      {
        var q :| q in remaining;
        AddOne(table, batch, user, rewrite, remaining, q);
        queries := queries[socketId := queries[socketId][q := rewrite(batch[q], user)]];
        remaining := remaining - {q};
      }
      assert (map q | q in batch && q !in remaining :: rewrite(batch[q], user)) == Rewritten(batch, user, rewrite);
    }

    /** `remove_queries(socket_id, query_ids, user)`: after validation, the ids are deleted in
        turn and `latest_time` is returned.  An id that is not (or no longer) in the table
        raises there, and the deletions before it stay. */
    method RemoveQueries(socketId: SocketId, ids: seq<QueryId>, user: string) returns (r: Result<int, BrokerError>)
      requires Valid()
      modifies this`queries
      ensures Valid()
      ensures ValidateSocket(socketId, user).Fail? ==>
        r == Err(ValidateSocket(socketId, user).error) && queries == old(queries)
      ensures ValidateSocket(socketId, user).Pass? ==>
        var table := old(queries)[socketId];
        && (r.Ok? <==> Deletable(table.Keys, ids))
        && (r.Ok? ==> r.value == latestTime && queries == old(queries)[socketId := table - IdSet(ids)])
        && (r.Err? ==> exists n :: (0 <= n < |ids| && Deletable(table.Keys, ids[..n]) && !Deletable(table.Keys, ids[..n + 1]) &&
              r == Err(NoSuchQuery(ids[n])) && queries == old(queries)[socketId := table - IdSet(ids[..n])]))
    {
      var valid := ValidateSocket(socketId, user);
      if valid.Fail? {
        return Err(valid.error);
      }
      ghost var table := queries[socketId];
      assert ids[..0] == [] && table - IdSet(ids[..0]) == table;
      assert queries == old(queries)[socketId := table];
      for i := 0 to |ids|
        invariant socketId in queries
        invariant queries == old(queries)[socketId := table - IdSet(ids[..i])]
        invariant Deletable(table.Keys, ids[..i])
      {
        if ids[i] !in queries[socketId] {
          assert ids[..i + 1][..i] == ids[..i];
          r := Err(NoSuchQuery(ids[i]));
          NotDeletableFrom(table.Keys, ids, i);
          return;
        }
        assert ids[..i + 1] == ids[..i] + [ids[i]];
        assert ids[..i + 1][..i] == ids[..i];
        assert IdSet(ids[..i + 1]) == IdSet(ids[..i]) + {ids[i]};
        assert table - IdSet(ids[..i + 1]) == (table - IdSet(ids[..i])) - {ids[i]};
        queries := queries[socketId := queries[socketId] - {ids[i]}];
      }
      assert ids[..|ids|] == ids;
      r := Ok(latestTime);
    }

    /** `match_object_to_open_queries(object_id)`, over the open queries in the order `order`
        (the dicts' iteration order, each open query once).  Every open query is evaluated
        restricted to the object; a found document goes to the socket as a match; a query
        whose evaluation raises is removed from the table and an error goes to its socket;
        the pass goes on with the next query either way. */
    method MatchObjectToOpenQueries(objectId: string, findOne: Value -> Lookup, order: seq<QueryPath>)
      requires Valid()
      requires forall p :: p in order <==> Open(queries, p)
      requires forall i, j :: 0 <= i < j < |order| ==> order[i] != order[j]
      modifies this`queries, this`events
      ensures Valid()
      ensures events == old(events) + PassEvents(old(queries), order, objectId, findOne)
      ensures queries == Without(old(queries), FailingPaths(old(queries), order, objectId, findOne))
    {
      ghost var start := queries;
      WithoutNothing(start, order[..0], objectId, findOne);
      for i := 0 to |order|
        invariant events == old(events) + PassEvents(start, order[..i], objectId, findOne)
        invariant queries == Without(start, FailingPaths(start, order[..i], objectId, findOne))
      {
        PassStep(start, order, i, objectId, findOne);
        ghost var done := PassEvents(start, order[..i], objectId, findOne);
        MatchOne(order[i], objectId, findOne, start, FailingPaths(start, order[..i], objectId, findOne));
        ghost var step := EventOf(start, order[i], objectId, findOne);
        AppendAssoc(old(events), done, step);
      }
      assert order[..|order|] == order;
    }

    /** The loop body of the pass for one open query `p` not yet evaluated: the table is `start`
        without the paths in `failing`. */
    method MatchOne(p: QueryPath, objectId: string, findOne: Value -> Lookup, ghost start: QueryTable, ghost failing: set<QueryPath>)
      requires Open(start, p) && p !in failing
      requires queries == Without(start, failing)
      modifies this`queries, this`events
      ensures events == old(events) + EventOf(start, p, objectId, findOne)
      ensures Evaluate(start[p.0][p.1], objectId, findOne).Raised? ==> queries == Without(start, failing + {p})
      ensures !Evaluate(start[p.0][p.1], objectId, findOne).Raised? ==> queries == old(queries)
    {
      StillOpen(start, failing, p);
      var lookup := Evaluate(queries[p.0][p.1], objectId, findOne);
      if lookup.Raised? {
        WithoutOneMore(start, failing, p);
        queries := queries[p.0 := queries[p.0] - {p.1}];
        events := events + [Failed(p.0, p.1, lookup.message)];
      } else if lookup.Found? {
        events := events + [Matched(p.0, p.1, lookup.doc)];
      }
    }

    /** One change of the stream in `watch`: `latest_time` becomes the larger of itself and the
        changed object's `created`, then the match pass runs for the object's `uuid`. */
    method OnChange(created: int, uuid: string, findOne: Value -> Lookup, order: seq<QueryPath>)
      requires Valid()
      requires forall p :: p in order <==> Open(queries, p)
      requires forall i, j :: 0 <= i < j < |order| ==> order[i] != order[j]
      modifies this`latestTime, this`seen, this`queries, this`events
      ensures Valid()
      ensures seen == old(seen) + [created]
      ensures latestTime == Max(old(latestTime), created)
      ensures latestTime >= old(latestTime) && forall k :: 0 <= k < |seen| ==> latestTime >= seen[k]
      ensures events == old(events) + PassEvents(old(queries), order, uuid, findOne)
      ensures queries == Without(old(queries), FailingPaths(old(queries), order, uuid, findOne))
    {
      latestTime := Max(latestTime, created);
      seen := seen + [created];
      assert seen[..|seen| - 1] == old(seen);
      WatermarkBounds(0, seen);
      MatchObjectToOpenQueries(uuid, findOne, order);
    }
  }

  /** The first id that cannot be deleted makes every longer prefix undeletable too. */
  lemma NotDeletableFrom(keys: set<QueryId>, ids: seq<QueryId>, i: nat)
    requires i < |ids| && Deletable(keys, ids[..i])
    requires ids[i] !in keys - IdSet(ids[..i])
    ensures !Deletable(keys, ids[..i + 1]) && !Deletable(keys, ids)
  {
    assert ids[..i + 1][i] == ids[i] && ids[..i + 1][..i] == ids[..i];
  }
}
