/** The subscription registry and result streamer of one front-end process (class `PubSub`):
    which sockets are connected, which queries each has open, and how results are batched and
    delivered to them. */
module PubSub {
  import opened Wrappers
  import opened Json
  import Rewrite

  type SocketId = string
  type QueryId = string
  type QueryPath = (SocketId, QueryId)

  /** A connected websocket; `connection` tells connections apart. */
  datatype WebSocket = WebSocket(connection: nat)

  datatype Kind = Updates | Deletes

  /** The keyword arguments shared by every message of one publication. */
  datatype Params = Params(kind: Kind, historical: Option<bool>, now: string)

  /** One JSON message pushed to a socket. */
  datatype Message = Message(
    kind: Kind, historical: Option<bool>, now: string, complete: Option<bool>,
    queryId: QueryId, results: seq<Value>)

  datatype Delivery = Delivery(socket: WebSocket, message: Message)

  /** What is published to the query broker over the `subscribes` and `unsubscribes` channels. */
  datatype Announcement = Subscribed(query: Value, path: QueryPath) | Unsubscribed(path: QueryPath)

  /** A background `process_existing` task started by `subscribe`. */
  datatype Backfill = Backfill(query: Value, since: string, paths: seq<QueryPath>, now: string)

  datatype SubscribeError = InvalidQuery | InvalidSince
  datatype UnsubscribeError = UnknownQuery

  /** `ObjectId.from_datetime(datetime(2000, 1, 1))`: 946684800 seconds, then zeros. */
  const Epoch2000: string := "386d43800000000000000000"

  // ---------------------------------------------------------------------------
  // Delivery and batching, as functions of the registry
  // ---------------------------------------------------------------------------

  predicate Live(subscriptions: map<SocketId, set<QueryId>>, path: QueryPath)
  {
    path.0 in subscriptions && path.1 in subscriptions[path.0]
  }

  /** Some target of `paths` is still subscribed. */
  predicate AnyLive(subscriptions: map<SocketId, set<QueryId>>, paths: seq<QueryPath>)
  {
    LivePaths(subscriptions, paths) != []
  }


  function DeliveryTo(sockets: map<SocketId, WebSocket>, path: QueryPath, results: seq<Value>, params: Params, complete: Option<bool>): Delivery
    requires path.0 in sockets
  {
    Delivery(sockets[path.0], Message(params.kind, params.historical, params.now, complete, path.1, results))
  }

  /** The messages `publish_results` sends: one per target, in order, for the targets that are
      still subscribed. */
  function Deliveries(subscriptions: map<SocketId, set<QueryId>>, sockets: map<SocketId, WebSocket>,
                      results: seq<Value>, paths: seq<QueryPath>, params: Params, complete: Option<bool>): seq<Delivery>
    requires subscriptions.Keys <= sockets.Keys
    decreases |paths|
  {
    if |paths| == 0 then []
    else
      var last := paths[|paths| - 1];
      Deliveries(subscriptions, sockets, results, paths[..|paths| - 1], params, complete) +
      (if Live(subscriptions, last) then [DeliveryTo(sockets, last, results, params, complete)] else [])
  }

  /** The targets of `paths` still subscribed, in order. */
  function LivePaths(subscriptions: map<SocketId, set<QueryId>>, paths: seq<QueryPath>): (r: seq<QueryPath>)
    ensures |r| <= |paths|
    ensures forall k :: 0 <= k < |r| ==> Live(subscriptions, r[k])
    decreases |paths|
  {
    if |paths| == 0 then []
    else
      var last := paths[|paths| - 1];
      LivePaths(subscriptions, paths[..|paths| - 1]) + (if Live(subscriptions, last) then [last] else [])
  }

  lemma {:induction false} LivePathsMembers(subscriptions: map<SocketId, set<QueryId>>, paths: seq<QueryPath>)
    ensures forall p :: p in LivePaths(subscriptions, paths) <==> p in paths && Live(subscriptions, p)
    decreases |paths|
  {
    if |paths| > 0 {
      var init := paths[..|paths| - 1];
      LivePathsMembers(subscriptions, init);
      assert paths == init + [paths[|paths| - 1]];
    }
  }

  /** The messages are exactly one per live target, in the order of `paths`, each carrying
      the whole of `results`. */
  lemma {:induction false} DeliveriesTargets(subscriptions: map<SocketId, set<QueryId>>, sockets: map<SocketId, WebSocket>,
                                             results: seq<Value>, paths: seq<QueryPath>, params: Params, complete: Option<bool>)
    requires subscriptions.Keys <= sockets.Keys
    ensures var r := Deliveries(subscriptions, sockets, results, paths, params, complete);
      var live := LivePaths(subscriptions, paths);
      |r| == |live| && forall k :: 0 <= k < |r| ==> r[k] == DeliveryTo(sockets, live[k], results, params, complete)
    decreases |paths|
  {
    if |paths| > 0 {
      DeliveriesTargets(subscriptions, sockets, results, paths[..|paths| - 1], params, complete);
    }
  }

  function Concat<T>(ss: seq<seq<T>>): seq<T>
  {
    if |ss| == 0 then [] else ss[0] + Concat(ss[1..])
  }

  /** The batches `stream_query` forms: full batches of `n`, then the remainder (empty when
      `n` divides the count).  A size below one never fills a batch. */
  function Batches<T>(rs: seq<T>, n: int): seq<seq<T>>
    decreases |rs|
  {
    if n <= 0 || |rs| < n then [rs] else [rs[..n]] + Batches(rs[n..], n)
  }

  /** `len` is a whole number of batches of `n` (only zero when `n` is below one). */
  predicate Chunks(len: nat, n: int)
    decreases len
  {
    len == 0 || (n > 0 && len >= n && Chunks(len - n, n))
  }

  lemma {:induction false} BatchesPartition<T>(rs: seq<T>, n: int)
    ensures var bs := Batches(rs, n);
      && |bs| >= 1
      && Concat(bs) == rs
      && (forall i :: 0 <= i < |bs| - 1 ==> |bs[i]| == n)
      && (n > 0 ==> |bs[|bs| - 1]| < n)
      && Chunks(|rs| - |bs[|bs| - 1]|, n)
      && (n <= 0 ==> bs == [rs])
    decreases |rs|
  {
    if n <= 0 || |rs| < n {
      assert Concat([rs]) == rs + Concat([rs][1..]);
    } else {
      var rest := Batches(rs[n..], n);
      BatchesPartition(rs[n..], n);
      var bs := [rs[..n]] + rest;
      assert bs[1..] == rest;
      assert Concat(bs) == rs[..n] + Concat(rest);
      assert rs[..n] + rs[n..] == rs;
      assert bs[|bs| - 1] == rest[|rest| - 1];
      assert Chunks(|rs| - |bs[|bs| - 1]|, n);
    }
  }

  /** Every batch goes to every live target; only the last is sent with `complete=True`. */
  function BatchSends(subscriptions: map<SocketId, set<QueryId>>, sockets: map<SocketId, WebSocket>,
                      batches: seq<seq<Value>>, paths: seq<QueryPath>, params: Params): seq<Delivery>
    requires subscriptions.Keys <= sockets.Keys
  {
    if |batches| == 0 then []
    else Deliveries(subscriptions, sockets, batches[0], paths, params, Some(|batches| == 1)) +
         BatchSends(subscriptions, sockets, batches[1..], paths, params)
  }

  /** The sends for the full batches of `rs`, all with `complete=False`. */
  function FullSends(subscriptions: map<SocketId, set<QueryId>>, sockets: map<SocketId, WebSocket>,
                     rs: seq<Value>, n: int, paths: seq<QueryPath>, params: Params): seq<Delivery>
    requires subscriptions.Keys <= sockets.Keys
    decreases |rs|
  {
    if n <= 0 || |rs| < n then []
    else Deliveries(subscriptions, sockets, rs[..n], paths, params, Some(false)) +
         FullSends(subscriptions, sockets, rs[n..], n, paths, params)
  }

  lemma {:induction false} FullSendsSnoc(subscriptions: map<SocketId, set<QueryId>>, sockets: map<SocketId, WebSocket>,
                                         p: seq<Value>, b: seq<Value>, n: int, paths: seq<QueryPath>, params: Params)
    requires subscriptions.Keys <= sockets.Keys
    requires n > 0 && Chunks(|p|, n) && |b| == n
    ensures FullSends(subscriptions, sockets, p + b, n, paths, params) ==
      FullSends(subscriptions, sockets, p, n, paths, params) + Deliveries(subscriptions, sockets, b, paths, params, Some(false))
    decreases |p|
  {
    if |p| == 0 {
      assert p + b == b && b[..n] == b && b[n..] == [];
    } else {
      FullSendsSnoc(subscriptions, sockets, p[n..], b, n, paths, params);
      assert (p + b)[..n] == p[..n] && (p + b)[n..] == p[n..] + b;
    }
  }

  /** What the loop of `stream_query` has sent once the input is used up: the full batches,
      then the remainder with `complete=True`. */
  lemma {:induction false} StreamSplit(subscriptions: map<SocketId, set<QueryId>>, sockets: map<SocketId, WebSocket>,
                                       rs: seq<Value>, f: nat, n: int, paths: seq<QueryPath>, params: Params)
    requires subscriptions.Keys <= sockets.Keys
    requires f <= |rs| && Chunks(f, n) && (n > 0 ==> |rs| - f < n)
    ensures BatchSends(subscriptions, sockets, Batches(rs, n), paths, params) ==
      FullSends(subscriptions, sockets, rs[..f], n, paths, params) + Deliveries(subscriptions, sockets, rs[f..], paths, params, Some(true))
    decreases |rs|
  {
    if n <= 0 || |rs| < n {
      assert f == 0 && rs[f..] == rs;
      assert BatchSends(subscriptions, sockets, [rs], paths, params) ==
        Deliveries(subscriptions, sockets, rs, paths, params, Some(true)) + BatchSends(subscriptions, sockets, [rs][1..], paths, params);
    } else {
      var rest := rs[n..];
      var pre := rs[..f];
      StreamSplit(subscriptions, sockets, rest, f - n, n, paths, params);
      BatchesPartition(rest, n);
      SliceFacts(rs, n, f);
      var bs := Batches(rs, n);
      assert bs == [rs[..n]] + Batches(rest, n) && bs[1..] == Batches(rest, n) && |bs| > 1;
      assert BatchSends(subscriptions, sockets, bs, paths, params) ==
        Deliveries(subscriptions, sockets, rs[..n], paths, params, Some(false)) + BatchSends(subscriptions, sockets, Batches(rest, n), paths, params);
      assert FullSends(subscriptions, sockets, pre, n, paths, params) ==
        Deliveries(subscriptions, sockets, rs[..n], paths, params, Some(false)) + FullSends(subscriptions, sockets, rest[..f - n], n, paths, params);
    }
  }

  lemma SliceFacts<T>(s: seq<T>, n: nat, f: nat)
    requires n <= f <= |s|
    ensures s[..f][..n] == s[..n] && s[..f][n..] == s[n..][..f - n] && s[n..][f - n..] == s[f..]
  {
  }

  /** With no live target, a stream sends nothing at all. */
  lemma {:induction false} SilentWithoutTargets(subscriptions: map<SocketId, set<QueryId>>, sockets: map<SocketId, WebSocket>,
                                                batches: seq<seq<Value>>, rs: seq<Value>, n: int, paths: seq<QueryPath>, params: Params)
    requires subscriptions.Keys <= sockets.Keys && !AnyLive(subscriptions, paths)
    ensures BatchSends(subscriptions, sockets, batches, paths, params) == []
    ensures FullSends(subscriptions, sockets, rs, n, paths, params) == []
    decreases |batches| + |rs|
  {
    if |batches| > 0 {
      DeliveriesTargets(subscriptions, sockets, batches[0], paths, params, Some(|batches| == 1));
      SilentWithoutTargets(subscriptions, sockets, batches[1..], [], n, paths, params);
    }
    if n > 0 && |rs| >= n {
      DeliveriesTargets(subscriptions, sockets, rs[..n], paths, params, Some(false));
      SilentWithoutTargets(subscriptions, sockets, [], rs[n..], n, paths, params);
    }
  }

  /** Once a query is unsubscribed, no later publication reaches it, and every other target
      is reached exactly as before. */
  lemma UnsubscribeSilences(subscriptions: map<SocketId, set<QueryId>>, socketId: SocketId, queryId: QueryId,
                            paths: seq<QueryPath>)
    requires socketId in subscriptions
    ensures var after := subscriptions[socketId := subscriptions[socketId] - {queryId}];
      && (socketId, queryId) !in LivePaths(after, paths)
      && forall p :: p != (socketId, queryId) ==> (p in LivePaths(after, paths) <==> p in LivePaths(subscriptions, paths))
  {
    var after := subscriptions[socketId := subscriptions[socketId] - {queryId}];
    LivePathsMembers(after, paths);
    LivePathsMembers(subscriptions, paths);
  }

  lemma CardMinusOne(s: set<QueryId>, q: QueryId)
    requires q in s
    ensures |s - {q}| == |s| - 1
  {
    assert s == (s - {q}) + {q};
  }

  lemma SliceExtend<T>(s: seq<T>, a: int, b: int)
    requires 0 <= a < b <= |s|
    ensures s[a..b] == s[a..b - 1] + [s[b - 1]]
    ensures s[..b] == s[..a] + s[a..b]
  {
  }

  /** One full batch more: the flushed prefix grows by `n` and so do its sends. */
  lemma FullStep(subscriptions: map<SocketId, set<QueryId>>, sockets: map<SocketId, WebSocket>,
                 rs: seq<Value>, flushed: nat, i: nat, n: int, paths: seq<QueryPath>, params: Params)
    requires subscriptions.Keys <= sockets.Keys
    requires flushed <= i <= |rs| && i - flushed == n && Chunks(flushed, n) && n > 0
    ensures Chunks(i, n)
    ensures FullSends(subscriptions, sockets, rs[..i], n, paths, params) ==
      FullSends(subscriptions, sockets, rs[..flushed], n, paths, params) + Deliveries(subscriptions, sockets, rs[flushed..i], paths, params, Some(false))
  {
    assert rs[..i] == rs[..flushed] + rs[flushed..i];
    FullSendsSnoc(subscriptions, sockets, rs[..flushed], rs[flushed..i], n, paths, params);
  }

  function Unsubscriptions(socketId: SocketId, queryIds: seq<QueryId>): (r: seq<Announcement>)
    ensures |r| == |queryIds| && forall k :: 0 <= k < |r| ==> r[k] == Unsubscribed((socketId, queryIds[k]))
  {
    seq(|queryIds|, k requires 0 <= k < |queryIds| => Unsubscribed((socketId, queryIds[k])))
  }

  function Converted(docs: seq<Value>, toObject: Value -> Value): (r: seq<Value>)
    ensures |r| == |docs| && forall i :: 0 <= i < |docs| ==> r[i] == toObject(docs[i])
  {
    seq(|docs|, i requires 0 <= i < |docs| => toObject(docs[i]))
  }

  /** The filter of `process_existing`: the query, not tombstoned, and newer than `since`. */
  function BackfillFilter(query: Value, since: string): Value
  {
    Obj(map["$and" := Arr([query, Obj(map["_tombstone" := Bool(false), "_id" := Obj(map["$gt" := Str(since)])])])])
  }

  /** The filter of `process_broker`'s insert pass: the inserted ids. */
  function InsertFilter(insertIds: seq<string>): Value
  {
    Obj(map["_id" := Obj(map["$in" := Arr(Strings(insertIds))])])
  }

  function Strings(ids: seq<string>): (r: seq<Value>)
    ensures |r| == |ids| && forall i :: 0 <= i < |ids| ==> r[i] == Str(ids[i])
  {
    seq(|ids|, i requires 0 <= i < |ids| => Str(ids[i]))
  }

  predicate HexDigit(c: char)
  {
    '0' <= c <= '9' || 'a' <= c <= 'f' || 'A' <= c <= 'F'
  }

  function LowerHex(s: string): (r: string)
    ensures |r| == |s|
  {
    seq(|s|, i requires 0 <= i < |s| => if 'A' <= s[i] <= 'F' then s[i] - 'A' + 'a' else s[i])
  }

  /** `since` as `subscribe` turns it into a store object id: a missing or empty one becomes
      the id of 2000-01-01, and `ObjectId(since)` takes exactly 24 hex digits (printed back in
      lower case); anything else raises (`None`). */
  function SinceId(since: Option<string>): (r: Option<string>)
    ensures r.Some? <==> since.None? || since.value == "" || (|since.value| == 24 && forall i :: 0 <= i < 24 ==> HexDigit(since.value[i]))
    ensures r.Some? ==> |r.value| == 24
    ensures since.None? || since.value == "" ==> r == Some(Epoch2000)
    ensures r.Some? && since.Some? && since.value != "" ==>
      r.value == LowerHex(since.value) && forall i :: 0 <= i < 24 ==> '0' <= r.value[i] <= '9' || 'a' <= r.value[i] <= 'f'
  {
    if since.None? || since.value == "" then Some(Epoch2000)
    else if |since.value| == 24 && forall i :: 0 <= i < 24 ==> HexDigit(since.value[i]) then Some(LowerHex(since.value))
    else None
  }

  // ---------------------------------------------------------------------------
  // class PubSub
  // ---------------------------------------------------------------------------

  class PubSub {
    var sockets: map<SocketId, WebSocket>
    var subscriptions: map<SocketId, set<QueryId>>
    /** Everything sent to sockets, in order. */
    var outbox: seq<Delivery>
    /** Everything published to the query broker, in order. */
    var announcements: seq<Announcement>
    /** The backfill tasks started, in order. */
    var backfills: seq<Backfill>
    /** BATCH_SIZE. */
    const batchSize: int

    ghost predicate Valid()
      reads this
    {
      sockets.Keys == subscriptions.Keys
    }

    constructor (batchSize: int)
      ensures Valid() && this.batchSize == batchSize
      ensures sockets == map[] && subscriptions == map[]
      ensures outbox == [] && announcements == [] && backfills == []
    {
      this.batchSize := batchSize;
      sockets, subscriptions := map[], map[];
      outbox, announcements, backfills := [], [], [];
    }

    /** The opening half of `register`: the fresh id (`str(uuid4())`) now names `ws` and an
        empty set of subscriptions. */
    method Register(ws: WebSocket, freshId: SocketId) returns (socketId: SocketId)
      requires Valid() && freshId !in sockets
      modifies this`sockets, this`subscriptions
      ensures Valid() && socketId == freshId
      ensures sockets == old(sockets)[socketId := ws]
      ensures subscriptions == old(subscriptions)[socketId := {}]
    {
      socketId := freshId;
      sockets := sockets[socketId := ws];
      subscriptions := subscriptions[socketId := {}];
    }

    /** The closing half of `register`: every remaining query of the socket is unsubscribed,
        one announcement each in the order `removed` (each query once), and the socket leaves
        both maps. */
    method Teardown(socketId: SocketId) returns (ghost removed: seq<QueryId>)
      requires Valid() && socketId in subscriptions
      modifies this`sockets, this`subscriptions, this`announcements
      ensures Valid()
      ensures subscriptions == old(subscriptions) - {socketId}
      ensures sockets == old(sockets) - {socketId}
      ensures announcements == old(announcements) + Unsubscriptions(socketId, removed)
      ensures |removed| == |old(subscriptions[socketId])|
      ensures forall q :: q in removed <==> q in old(subscriptions[socketId])
    {
      ghost var initial := subscriptions[socketId];
      removed := [];
      while subscriptions[socketId] != {}
        invariant Valid() && socketId in subscriptions
        invariant subscriptions == old(subscriptions)[socketId := subscriptions[socketId]]
        invariant sockets == old(sockets)
        invariant subscriptions[socketId] <= initial
        invariant announcements == old(announcements) + Unsubscriptions(socketId, removed)
        invariant |removed| + |subscriptions[socketId]| == |initial|
        invariant forall q :: q in removed <==> q in initial && q !in subscriptions[socketId]
        decreases |subscriptions[socketId]|
      {
        var q :| q in subscriptions[socketId];
        ghost var rest := subscriptions[socketId];
        var r := Unsubscribe(socketId, q);
        CardMinusOne(rest, q);
        assert Unsubscriptions(socketId, removed + [q]) == Unsubscriptions(socketId, removed) + [Unsubscribed((socketId, q))];
        removed := removed + [q];
      }
      subscriptions := subscriptions - {socketId};
      sockets := sockets - {socketId};
    }

    /** `subscribe(query, since, socket_id)`.  `accepts` says whether the store takes the
        rewritten query (the test `find_one`); `freshQueryId` and `now` stand for
        `str(uuid4())` and `str(ObjectId())`.  A `since` that `ObjectId` refuses raises only
        after the query id has joined the socket's set, so that id stays without a backfill
        and without an announcement. */
    method Subscribe(query: Value, since: Option<string>, socketId: SocketId, accepts: Value -> bool,
                     freshQueryId: QueryId, now: string) returns (r: Result<QueryId, SubscribeError>)
      requires Valid() && socketId in subscriptions && freshQueryId !in subscriptions[socketId]
      modifies this`subscriptions, this`announcements, this`backfills
      ensures Valid()
      ensures var filter := Rewrite.VisibilityFilter(query);
        if !accepts(filter) then
          && r == Err(InvalidQuery)
          && subscriptions == old(subscriptions) && backfills == old(backfills) && announcements == old(announcements)
        else
          && subscriptions == old(subscriptions)[socketId := old(subscriptions[socketId]) + {freshQueryId}]
          && if SinceId(since).None? then
               r == Err(InvalidSince) && backfills == old(backfills) && announcements == old(announcements)
             else
               && r == Ok(freshQueryId)
               && backfills == old(backfills) + [Backfill(filter, SinceId(since).value, [(socketId, freshQueryId)], now)]
               && announcements == old(announcements) + [Subscribed(filter, (socketId, freshQueryId))]
    {
      var filter := Rewrite.VisibilityFilter(query);
      if !accepts(filter) {
        return Err(InvalidQuery);
      }
      var queryId := freshQueryId;
      subscriptions := subscriptions[socketId := subscriptions[socketId] + {queryId}];
      var path := (socketId, queryId);
      var sinceId := SinceId(since);
      if sinceId.None? {
        return Err(InvalidSince);
      }
      backfills := backfills + [Backfill(filter, sinceId.value, [path], now)];
      announcements := announcements + [Subscribed(filter, path)];
      r := Ok(queryId);
    }

    /** `unsubscribe(socket_id, query_id)`: an unknown query raises and changes nothing;
        otherwise exactly that query leaves the socket's set and the broker is told. */
    method Unsubscribe(socketId: SocketId, queryId: QueryId) returns (r: Outcome<UnsubscribeError>)
      requires Valid() && socketId in subscriptions
      modifies this`subscriptions, this`announcements
      ensures Valid()
      ensures queryId !in old(subscriptions[socketId]) ==>
        r == Fail(UnknownQuery) && subscriptions == old(subscriptions) && announcements == old(announcements)
      ensures queryId in old(subscriptions[socketId]) ==>
        && r == Pass
        && subscriptions == old(subscriptions)[socketId := old(subscriptions[socketId]) - {queryId}]
        && announcements == old(announcements) + [Unsubscribed((socketId, queryId))]
    {
      if queryId !in subscriptions[socketId] {
        return Fail(UnknownQuery);
      }
      subscriptions := subscriptions[socketId := subscriptions[socketId] - {queryId}];
      announcements := announcements + [Unsubscribed((socketId, queryId))];
      r := Pass;
    }

    /** `publish_results(results, query_paths, **kwargs)`: sends to the targets still
        subscribed and reports whether any send happened. */
    method PublishResults(results: seq<Value>, paths: seq<QueryPath>, params: Params, complete: Option<bool>)
      returns (sent: bool)
      requires Valid()
      modifies this`outbox
      ensures outbox == old(outbox) + Deliveries(subscriptions, sockets, results, paths, params, complete)
      ensures sent <==> |Deliveries(subscriptions, sockets, results, paths, params, complete)| > 0
      ensures sent <==> AnyLive(subscriptions, paths)
    {
      var numSuccesses := 0;
      var j := 0;
      while j < |paths|
        invariant 0 <= j <= |paths|
        invariant outbox == old(outbox) + Deliveries(subscriptions, sockets, results, paths[..j], params, complete)
        invariant numSuccesses == |Deliveries(subscriptions, sockets, results, paths[..j], params, complete)|
      {
        assert paths[..j + 1][..j] == paths[..j];
        var (socketId, queryId) := paths[j];
        if socketId in subscriptions && queryId in subscriptions[socketId] {
          outbox := outbox + [DeliveryTo(sockets, (socketId, queryId), results, params, complete)];
          numSuccesses := numSuccesses + 1;
        }
        j := j + 1;
      }
      assert paths[..j] == paths;
      DeliveriesTargets(subscriptions, sockets, results, paths, params, complete);
      sent := numSuccesses > 0;
    }

    /** `stream_query(query, query_paths, **kwargs)`: the cursor's documents, converted by
        `doc_to_object`, go out in batches of `batchSize`; the stream stops early, without a
        final message, when a full batch reaches no target (which means nothing was sent). */
    method StreamQuery(filter: Value, paths: seq<QueryPath>, params: Params,
                       find: Value -> seq<Value>, toObject: Value -> Value)
      requires Valid()
      modifies this`outbox
      ensures outbox == old(outbox) +
        BatchSends(subscriptions, sockets, Batches(Converted(find(filter), toObject), batchSize), paths, params)
    {
      var docs := find(filter);
      ghost var rs := Converted(docs, toObject);
      var results, finished, flushed := FullBatches(docs, toObject, paths, params);
      if finished {
        var _ := PublishResults(results, paths, params, Some(true));
        StreamSplit(subscriptions, sockets, rs, flushed, batchSize, paths, params);
      } else {
        SilentWithoutTargets(subscriptions, sockets, Batches(rs, batchSize), [], batchSize, paths, params);
      }
    }

    /** The `async for` loop of `stream_query`: fills a batch document by document and
        publishes each full one.  It either runs out of documents (`finished`), leaving the
        unsent remainder in `results`, or breaks off at a full batch that reached nobody. */
    method FullBatches(docs: seq<Value>, toObject: Value -> Value, paths: seq<QueryPath>, params: Params)
      returns (results: seq<Value>, finished: bool, ghost flushed: nat)
      requires Valid()
      modifies this`outbox
      ensures var rs := Converted(docs, toObject);
        if finished then
          && flushed <= |rs| && Chunks(flushed, batchSize) && (batchSize > 0 ==> |rs| - flushed < batchSize)
          && results == rs[flushed..]
          && outbox == old(outbox) + FullSends(subscriptions, sockets, rs[..flushed], batchSize, paths, params)
        else
          !AnyLive(subscriptions, paths) && outbox == old(outbox)
    {
      ghost var rs := Converted(docs, toObject);
      flushed := 0;
      results := [];
      var i := 0;
      while i < |docs|
        invariant 0 <= flushed <= i <= |docs|
        invariant results == rs[flushed..i]
        invariant Chunks(flushed, batchSize)
        invariant batchSize > 0 ==> i - flushed < batchSize
        invariant batchSize <= 0 ==> flushed == 0
        invariant outbox == old(outbox) + FullSends(subscriptions, sockets, rs[..flushed], batchSize, paths, params)
      {
        results := results + [toObject(docs[i])];
        i := i + 1;
        SliceExtend(rs, flushed, i);
        if |results| == batchSize {
          var ok := FlushBatch(results, rs, flushed, i, paths, params, old(outbox));
          if !ok {
            return results, false, flushed;
          }
          results := [];
          flushed := i;
        }
      }
      finished := true;
    }

    /** One full batch of `stream_query`'s loop: `rs[flushed..i]` is published.  When it reached
        someone the flushed sends grow by it; otherwise nothing at all was sent, from `base` on. */
    method FlushBatch(results: seq<Value>, ghost rs: seq<Value>, ghost flushed: nat, ghost i: nat,
                      paths: seq<QueryPath>, params: Params, ghost base: seq<Delivery>)
      returns (ok: bool)
      requires Valid()
      requires flushed <= i <= |rs| && results == rs[flushed..i] && |results| == batchSize > 0
      requires Chunks(flushed, batchSize)
      requires outbox == base + FullSends(subscriptions, sockets, rs[..flushed], batchSize, paths, params)
      modifies this`outbox
      ensures ok ==> Chunks(i, batchSize)
      ensures ok ==> outbox == base + FullSends(subscriptions, sockets, rs[..i], batchSize, paths, params)
      ensures !ok ==> !AnyLive(subscriptions, paths) && outbox == base
    {
      FullStep(subscriptions, sockets, rs, flushed, i, batchSize, paths, params);
      ok := PublishResults(results, paths, params, Some(false));
      if !ok {
        SilentWithoutTargets(subscriptions, sockets, [], rs[..flushed], batchSize, paths, params);
      }
    }

    /** `process_existing(query, since, query_paths, now)`: the historical backfill of a new
        subscription. */
    method ProcessExisting(query: Value, since: string, paths: seq<QueryPath>, now: string,
                           find: Value -> seq<Value>, toObject: Value -> Value)
      requires Valid()
      modifies this`outbox
      ensures outbox == old(outbox) + BatchSends(subscriptions, sockets,
        Batches(Converted(find(BackfillFilter(query, since)), toObject), batchSize), paths, Params(Updates, Some(true), now))
    {
      var filter := BackfillFilter(query, since);
      StreamQuery(filter, paths, Params(Updates, Some(true), now), find, toObject);
    }

    /** `process_broker(insert_ids, delete_ids, query_paths, now)`: deletes first; inserts
        only when there were no deletes or the deletes reached someone. */
    method ProcessBroker(insertIds: seq<string>, deleteIds: seq<string>, paths: seq<QueryPath>, now: string,
                         find: Value -> seq<Value>, toObject: Value -> Value)
      requires Valid()
      modifies this`outbox
      ensures var deletes := if |deleteIds| > 0 then
                Deliveries(subscriptions, sockets, Strings(deleteIds), paths, Params(Deletes, None, now), None) else [];
              var inserts := if (|deleteIds| == 0 || |deletes| > 0) && |insertIds| > 0 then
                BatchSends(subscriptions, sockets, Batches(Converted(find(InsertFilter(insertIds)), toObject), batchSize),
                           paths, Params(Updates, Some(false), now)) else [];
        outbox == old(outbox) + deletes + inserts
    {
      if |deleteIds| > 0 {
        var ok := PublishResults(Strings(deleteIds), paths, Params(Deletes, None, now), None);
        if !ok {
          return;
        }
      }
      if |insertIds| > 0 {
        StreamQuery(InsertFilter(insertIds), paths, Params(Updates, Some(false), now), find, toObject);
      }
    }
  }
}
