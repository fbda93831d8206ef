# digital-graffiti server core, modelled in Dafny

The digital-graffiti server stores JSON objects for logged-in users. Each object can carry
*contexts*, and a context decides who can see the object. Clients talk to the server over a
websocket. They update and delete objects, and they subscribe to queries whose results stream
back to them. This project models the core of the server and proves properties of that model:

- **The context rewrite** (`app/rewrite.py`), in modules `Rewrite` and `Mongo`.
  - `object_rewrite` turns an object into the document the store keeps. It separates out the
    contexts and fills in a missing `_id` and `_timestamp`.
  - `query_rewrite` turns a caller's query into the store filter that enforces the visibility
    rule. The rule: an object is visible to a query when the query matches it and either the
    object has no contexts or one context *passes*.
  - A context passes when the query matches none of its near misses and all of its neighbours.
  - `Mongo` gives the filter operators the rewrite emits (`$elemMatch`, `$not`, `$size`,
    `$or`, `$nor`) their store meaning, and also `$and`, which `process_existing` wraps around
    the rewritten filter. The lemmas of `Rewrite` prove that the emitted filter means exactly
    the visibility rule.
- **The socket message schema and `validate`** (`app/schema.py`), in module `Schema`. The
  JSON Schema and the two ownership checks are written as predicates over JSON values.
- **The subscription registry** (`app/pubsub.py`), class `PubSub.PubSub`. It holds:
  - the socket table and per-socket query sets;
  - subscribe and unsubscribe, with their broker announcements;
  - the batching result stream and fan-out to sockets.
- **The mutation coordinator** (`app/rest.py`), class `Rest.Rest`. It covers `update`,
  `remove` and `delete` over a store where documents are tombstoned, never erased. It also
  covers the per-object lock.
- **The query broker** (`app/query/broker.py`), class `Broker.QueryBroker`. It covers:
  - the per-socket table of open queries, with its ownership checks;
  - the monotone `latest_time` watermark;
  - the match pass that runs every open query against a changed object.

Foreign calls are parameters of the functions and methods that make them. These include the
store's `find`/`find_one`/`insert_one` outcomes, `uuid4()`, `ObjectId()`, the clock,
`doc_to_object`/`object_to_doc`, and the digest of `sha256`. Outputs the server sends are
appended to sequence fields: `outbox`, `announcements`, `backfills`, `published`,
`lockEvents` and `events`. The model is sequential.

Files:

- `wrappers.dfy`: Option, Result and Outcome.
- `json.dfy`: JSON values.
- `mongo.dfy`: filter semantics.
- `rewrite.dfy`, `schema.dfy`, `pubsub.dfy`, `rest.dfy`, `broker.dfy`: the five core files.

## Model

| member | source | states |
|---|---|---|
| Rewrite.ObjectRewrite | app/rewrite.py:6-28 | The object dict is changed in place: `_contexts` is removed, and `_id`/`_timestamp` get the fresh values only where missing. Every other key is kept. It returns the object's `_id` and a document that holds the owner, the one rewritten object and the split-off contexts (`[]` if there were none). |
| Rewrite.StoredObject | app/rewrite.py:8-18 | The stored object has no `_contexts`. Its `_id` and `_timestamp` are the caller's when present and the fresh ones otherwise. Every other member is the caller's, unchanged. |
| Rewrite.DocumentShape | app/rewrite.py:20-28 | The stored document has `_owner_id` equal to the owner, exactly one element in `_object` (the rewritten object, without `_contexts`), and `_contexts` equal to the split-off contexts. |
| Rewrite.NearMissEncoding | app/rewrite.py:40-42 | `{"$not": {"$elemMatch": q}}` on `_nearMisses` holds iff no near miss matches `q`. |
| Rewrite.NeighborEncoding | app/rewrite.py:44-50 | `{"$not": {"$elemMatch": {"$nor": [q]}}}` on `_neighbors` holds iff every neighbour matches `q`. |
| Rewrite.ContextEncoding | app/rewrite.py:38-51 | The per-context filter matches a context iff that context passes the query. |
| Rewrite.ContextsEncoding | app/rewrite.py:34-52 | The `$or` clause holds iff `_contexts` is the empty array or some context passes. |
| Rewrite.VisibilityEncoding | app/rewrite.py:31-53 | The rewritten filter matches a document iff the query matches one of its objects and (no contexts, or some context passes). |
| Rewrite.StoredDocumentVisibility | app/rewrite.py:6-53 | For a document built by `object_rewrite`, the rewritten filter matches iff the object is visible to the query under the plain-words rule. |
| Rewrite.NoContextsVisibility | app/rewrite.py:34-36 | An object stored without contexts is visible exactly when it matches the query. |
| Rewrite.EmptyContextPasses | app/rewrite.py:38-51 | A context with no near misses and no neighbours passes every query. |
| Rewrite.FailingNeighborBlocks | app/rewrite.py:44-50 | One neighbour that the query does not match keeps its context from passing. |
| Rewrite.FingerprintIdentifiesQuery | app/rewrite.py:55-56 | Under the idealisation of a collision-free digest (no fixed-length hash such as SHA-256 is one), equal fingerprints mean equal queries. |
| Rewrite.FilterDeterminesQuery | app/rewrite.py:31-53 | Two queries give the same rewritten filter iff they are the same query. |
| Rewrite.EqualFiltersShareFingerprint | app/rewrite.py:55-56 | Equal serialised filters give equal fingerprints, whatever the digest. |
| Schema.Validate | app/schema.py:146-158 | A message that breaks the schema is refused. A schema-valid update is accepted iff `_by` is the caller and the caller is in `_to`. A schema-valid subscribe is accepted iff every `_to` claim that the serialised scan finds names the caller. A schema-valid delete or unsubscribe is accepted. |
| Schema.MessageKinds | app/schema.py:36-82 | A valid message has a `messageID` of the random format and is exactly one of update (with `object`, `idProof`), delete (`objectID`), subscribe (`query`, `since`, `queryID`) or unsubscribe (`queryID`). |
| Schema.FixedFieldFormats | app/schema.py:17-98 | When `$` means the end of text, identifiers have their documented formats. `messageID`/`queryID` have 1 to 64 characters and no newline, `objectID` and `_id` are 64 lower-case hex digits, and `since` is null or 24 lower-case hex digits. |
| Schema.ObjectKeys | app/schema.py:84-116 | A valid object has `_id`, `_to`, `_by` and `_contexts`, and no other key starting with `_`. Each context holds only `_nearMisses`/`_neighbors`. |
| Schema.QueryOperatorsAllowed | app/schema.py:118-139 | In a valid query, every key starting with `$`, at any depth, names one of the allowed operators. |
| Schema.QueryToIsUuid | app/schema.py:118-139 | In a valid query, every `_to`, at any depth, is a UUID string (under the given reading of `$`). |
| Schema.FixedQueryToIsOwner | app/schema.py:146-158 | With `$` read as the end of text, the claim scan sees every `_to` of a valid query. A query whose claims all name the caller therefore has only the caller in `_to`. |
| Schema.FixedSubscribeOwnsEveryTo | app/schema.py:146-158 | With the corrected anchoring, an accepted subscription's query names only the caller in every `_to`, at any depth. |
| Schema.AsWrittenQueryToBypass | app/schema.py:146-158 | As written, `{"_to": "<other uuid>\n"}` passes `validate` for a different caller. The corrected check refuses it. |
| PubSub.SinceId | app/pubsub.py:82-85 | A missing or empty `since` becomes the id of 2000-01-01. A 24-hex-digit one is accepted and becomes its lower-case form, 24 lower-case hex digits. Anything else raises. |
| PubSub.LivePathsMembers | app/pubsub.py:164-170 | A target is delivered to iff it is in the path list and still subscribed. |
| PubSub.DeliveriesTargets | app/pubsub.py:164-179 | `publish_results` sends exactly one message per live target, in path order. Each message goes to that socket, carries its query id, the whole result list and the shared parameters. |
| PubSub.BatchesPartition | app/pubsub.py:143-158 | The stream's batches concatenate to the converted results. Every batch but the last has exactly the batch size, and the last is shorter. A size below one gives one batch of everything. |
| PubSub.StreamSplit | app/pubsub.py:143-158 | Once the input is exhausted, what `stream_query` sent equals the full batches with `complete=False`, then the remainder with `complete=True`. |
| PubSub.SilentWithoutTargets | app/pubsub.py:149-158 | With no live target, a stream sends nothing at all, including no final message. |
| PubSub.UnsubscribeSilences | app/pubsub.py:164-188 | After an unsubscribe, that target is not delivered to until it is subscribed again. Every other target is delivered to exactly as before. |
| PubSub.PubSub.constructor | app/pubsub.py:15-20 | Starts with no sockets and no subscriptions, and nothing sent. |
| PubSub.PubSub.Register | app/pubsub.py:49-53 | The fresh id maps to `ws` and to an empty set of subscriptions. Nothing else changes. |
| PubSub.PubSub.Teardown | app/pubsub.py:58-65 | Every remaining query of the socket is unsubscribed: one announcement per query, each query once. Then the socket leaves both tables. |
| PubSub.PubSub.Subscribe | app/pubsub.py:67-95 | A query that the store refuses changes nothing. Otherwise the fresh id joins the socket's set. A bad `since` then raises with no backfill and no announcement. A good one starts the backfill from the since id and announces the rewritten query. |
| PubSub.PubSub.Unsubscribe | app/pubsub.py:183-191 | An unknown query id raises and changes nothing. Otherwise exactly that id leaves the set and one unsubscribe is announced. |
| PubSub.PubSub.PublishResults | app/pubsub.py:160-181 | The outbox grows by exactly the deliveries to live targets. The result is true iff some target is still subscribed. |
| PubSub.PubSub.StreamQuery | app/pubsub.py:134-158 | The outbox grows by exactly the batched sends of the converted cursor, with the final batch marked complete. |
| PubSub.PubSub.FullBatches | app/pubsub.py:143-155 | After the loop, either the input is exhausted, with whole batches flushed and the unsent remainder left, or a full batch reached nobody and nothing was sent at all. |
| PubSub.PubSub.ProcessExisting | app/pubsub.py:97-113 | Streams the query restricted to non-tombstoned ids above `since`, as historical updates. |
| PubSub.PubSub.ProcessBroker | app/pubsub.py:115-132 | Deletes are sent first. Inserts are streamed only when there were no deletes or the deletes reached someone. |
| Rest.Rest.Delete | app/rest.py:89-108 | With no live document of this object and owner, it fails and changes nothing. Otherwise it tombstones one such document, changes nothing else, and returns its id. At most one live document per object and owner stays true. |
| Rest.Rest.Remove | app/rest.py:74-87 | A falsy owner is refused before any lock or store access. Otherwise it locks, deletes, releases on both paths, and publishes the deleted id only on success. At most one live document per object and owner stays true. |
| Rest.Rest.Update | app/rest.py:15-72 | A falsy owner is refused before any lock or store access. Otherwise, under the lock, any live document is tombstoned and the converted object is inserted. A failure of conversion, insert or refetch-by-query rolls the store back exactly and publishes nothing. Success publishes `replaces` or `inserts`. The lock is released on every path. When the converted document is a live one of this object and owner, at most one live document per object and owner stays true. |
| Rest.UpdateFailure | app/rest.py:31-44 | The `try` block succeeds iff the conversion and the insert both succeed and the refetch finds the new document. |
| Rest.Refetch | app/rest.py:40-42 | The refetch filter is the rewritten query with `_id` pinned to the new document: it has `_id` and exactly the rewritten query's other keys, with their values. |
| Rest.DeleteTwiceFails | app/rest.py:94-106 | With at most one live document per object and owner, a second delete after a successful one finds nothing. The invariant is kept. |
| Rest.ReplaceKeepsOneLive | app/rest.py:22-36 | A successful update keeps at most one live document per object and owner. |
| Broker.WatermarkBounds | app/query/broker.py:16-36 | `latest_time` never falls below its start and bounds every `created` seen. It is always the start or one of them. |
| Broker.WatermarkMonotone | app/query/broker.py:36 | Later changes can only raise `latest_time`. |
| Broker.Restricted | app/query/broker.py:50-52 | The filter sent to the store is the stored query with `object.uuid` pinned to the changed object, and nothing else changed. |
| Broker.MatchedIffFound | app/query/broker.py:44-62 | A pass sends `match(query_id, doc)` for an open query iff the restricted lookup finds `doc`. |
| Broker.FailedIffRaised | app/query/broker.py:49-58 | A pass sends `error(query_id, message)` iff that query's lookup raises with `message`. The other queries are still evaluated. |
| Broker.PassEventsBound | app/query/broker.py:44-62 | A pass sends at most one message per open query. |
| Broker.RemoveUndoesAdd | app/query/broker.py:74-86 | Removing the ids just added restores a table in which they were new. |
| Broker.QueryBroker.constructor | app/query/broker.py:11-16 | Starts with no queries, no sockets and `latest_time` 0. |
| Broker.QueryBroker.AddSocket | app/query/broker.py:64-67 | The socket is registered with an empty query table, replacing any earlier registration under its id. Afterwards `validate_socket` on it passes exactly for its user, and it answers as before for every other socket. |
| Broker.QueryBroker.RemoveSocket | app/query/broker.py:69-72 | Both entries are deleted, and afterwards `validate_socket` on that id fails with a key error for every user. An unknown socket raises and changes nothing. |
| Broker.QueryBroker.AddQueries | app/query/broker.py:74-79 | A failed validation raises and changes nothing. Otherwise each query of the batch is stored, rewritten for the user, under its id, no other entry changes, and `latest_time` is returned. |
| Broker.QueryBroker.RemoveQueries | app/query/broker.py:81-86 | A failed validation raises and changes nothing. It succeeds iff every id is present and not repeated: then exactly those ids are deleted and `latest_time` is returned. Otherwise it raises at the first missing id, and the deletions before it stay. |
| Broker.QueryBroker.MatchObjectToOpenQueries | app/query/broker.py:41-62 | Sends exactly the per-query events of the pass and removes exactly the queries whose lookup raised. All other queries stay unchanged. |
| Broker.QueryBroker.OnChange | app/query/broker.py:29-39 | The change's `created` joins the history of changes seen, and `latest_time` becomes the larger of itself and `created`: it stays the watermark of that history, never falls, and bounds every `created` seen. Then the match pass runs for the object's `uuid`. |

## Left out

- The `json.dumps` digest is the uninterpreted `digest` parameter of `Rewrite.QueryRewrite`, and the stored object's `str(uuid4())` and `int(time.time() * 1000)` are parameters.
- `app/rewrite.py` as given returns a `(hash, filter)` pair from `query_rewrite` and defines no `doc_to_object` or `object_to_doc`. `app/pubsub.py` and `app/rest.py` import those names and use the result as a bare filter dict. The model follows the callers: they receive `Rewrite.VisibilityFilter`, and the two converters are function parameters.
- `app/query/rewrite.py` (the broker's `query_rewrite`) is not part of this model; it is the `rewrite` parameter of `Broker.QueryBroker.AddQueries`, taken to return for every query. A `query_rewrite` that raises part-way through the batch, leaving the earlier queries stored, is not modelled.
- The store's filter language is interpreted only for the operators the server builds; every other clause goes to the uninterpreted `leaf` of `Mongo.Matches`. The store's sort order (`sort=[('_id', -1)]`) is inside the `find` parameter.
- `Schema`: `\d` is read as an ASCII digit and `.` as any character but a newline. JSON key order, number kinds (float versus int) and the exact wording of schema errors are not modelled.
- Rewrite.FingerprintIdentifiesQuery: `json.dumps` is called without `sort_keys`, so two equal queries whose keys were inserted in different orders serialise, and hash, differently. JSON values here are unordered maps, so that key-order dependence is not modelled; the lemma assumes a digest of the value alone.
- `PubSub.SinceId`: `bytes.fromhex` whitespace tolerance and non-string `since` values that the schema already excludes are not modelled.
- The `listen` loop, Redis channels and JSON encoding of messages, socket send failures and the `asynccontextmanager` plumbing of `register` are not modelled (I/O); broker announcements and sends are appended to sequence fields instead.
- `PubSub.PubSub.PublishResults`: the shared `kwargs` dict that each send re-fills is modelled as one independent message per target.
- `Rest.Rest.Update` and `Rest.Rest.Remove` require their lock key to be free: the Redis lock's waiting, expiry and cross-process exclusion are not modelled, only its acquire and release events.
- Rest.Rest.Update: a refetch `find_one` that raises is reported as `QueryMismatch`, the same as one that finds nothing; the store's own error text is not modelled.
- Rest.Rest.Update: `object_to_doc` is not part of this model, so the one-live-document guarantee is stated for a conversion that yields a live document of the object's `_id` and the caller.
- `Rest.Rest.Update`: an exception raised by the rollback's own store calls (which would replace the original error) is not modelled; the rollback always succeeds.
- `Rest.Rest.Delete` picks the tombstoned document among the live matches nondeterministically; the store's choice among several matches is not modelled.
- `Broker.QueryBroker.MatchObjectToOpenQueries` runs one loop over a snapshot `order` of the open queries (the dicts' nested iteration order, flattened) and drops a failing query at once; the source deletes from the dict it is iterating and calls `remove_queries`, which takes the `query_lock` that `watch` already holds. The model follows the sequential intent, not the `RuntimeError` or the deadlock.
- `Broker.QueryBroker.OnChange` takes the changed object's `created` and `uuid` directly; reading them out of the change event (`change['fullDocument']['object'][0]`) and the change stream itself are not modelled.
- `Broker.Evaluate`: a stored query that is not a dict raises at `query["object.uuid"] = ...`; the message text of that `TypeError` is a fixed constant here.
- The in-place `query["object.uuid"] = object_id` that stays behind in the stored query is not modelled; each lookup pins `object.uuid` afresh, which is what the stored query's next use sees anyway.
- `Mongo.Matches`: `$elemMatch` with a filter is applied to every array element, scalars included, while the store skips elements that are not documents. A scalar element of `_contexts` would therefore pass the per-context filter here; the message schema admits only context objects.
- Concurrency between tasks (`asyncio.create_task`, the broker's lock), the database change stream itself and the authentication module (`auth/main.py`), `app/db/db.py` and `app/put.py` are not part of this model.

## Findings

| source | as written | input that shows it | evidently intended | confidence | as-written member | corrected member |
|---|---|---|---|---|---|---|
| app/schema.py:146-158 | The value patterns end in `$` under `re.search`, which also matches before a final newline; the `_to` ownership scan runs over `json.dumps(msg)`, where that newline becomes `\n`, so the closing quote the scan needs is not there | a subscribe whose query is `{"_to": "<uuid of another user>\n"}` | every `_to` of an accepted subscription names the caller | not executed | Schema.AsWrittenQueryToBypass | Schema.FixedSubscribeOwnsEveryTo |
