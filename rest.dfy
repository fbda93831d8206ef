/** The mutation coordinator (class `Rest`): creating, replacing and deleting objects in a store
    of documents that are never erased outright but marked with a tombstone. */
module Rest {
  import opened Wrappers
  import opened Json
  import Rewrite

  /** A store document's `_id`, as text. */
  type DocId = string

  /** What the coordinator reads of a store document: `_externalID` (the object's `_id`),
      the `_by` of its `_object`, `_tombstone`, and the document as a whole. */
  datatype StoredDoc = StoredDoc(externalId: string, owner: string, tombstone: bool, body: Value)

  /** The messages published to the query broker. */
  datatype Notice = Inserts(newId: DocId) | Replaces(oldId: DocId, newId: DocId) | Deletes(id: DocId)

  datatype LockEvent = Acquired(key: string) | Released(key: string)

  datatype Reason =
    | NotLoggedIn         // "you can't modify objects without logging in."
    | NoSuchObject        // the delete filter found nothing
    | ConversionFailed    // object_to_doc raised
    | InsertFailed        // insert_one raised
    | QueryMismatch       // "the updated object does not match the supplied query"

  /** The filter of `delete`: this object, this owner, not yet deleted. */
  predicate LiveMatch(d: StoredDoc, objectId: string, ownerId: string)
  {
    d.externalId == objectId && d.owner == ownerId && !d.tombstone
  }

  function LiveMatches(docs: map<DocId, StoredDoc>, objectId: string, ownerId: string): set<DocId>
  {
    set id | id in docs && LiveMatch(docs[id], objectId, ownerId)
  }

  /** At most one live document per object and owner. */
  predicate AtMostOneLive(docs: map<DocId, StoredDoc>)
  {
    forall a, b :: (a in docs && b in docs && !docs[a].tombstone && !docs[b].tombstone &&
      docs[a].externalId == docs[b].externalId && docs[a].owner == docs[b].owner) ==> a == b
  }

  function Tombstoned(docs: map<DocId, StoredDoc>, id: DocId): map<DocId, StoredDoc>
    requires id in docs
  {
    docs[id := docs[id].(tombstone := true)]
  }

  /** The filter `update` refetches with: the rewritten query, pinned to the new document's id. */
  function Refetch(query: Value, newId: DocId): (r: Value)
    ensures r.Obj? && "_id" in r.members && r.members["_id"] == Str(newId)
    ensures forall k :: k in Rewrite.VisibilityFilter(query).members && k != "_id" ==>
      k in r.members && r.members[k] == Rewrite.VisibilityFilter(query).members[k]
    ensures forall k :: k in r.members ==> k == "_id" || k in Rewrite.VisibilityFilter(query).members
  {
    Obj(Rewrite.VisibilityFilter(query).members["_id" := Str(newId)])
  }

  /** After tombstoning the one live match, there is none left: a second delete of the same
      object by the same owner fails. */
  lemma DeleteTwiceFails(docs: map<DocId, StoredDoc>, objectId: string, ownerId: string, id: DocId)
    requires AtMostOneLive(docs) && id in LiveMatches(docs, objectId, ownerId)
    ensures LiveMatches(Tombstoned(docs, id), objectId, ownerId) == {}
    ensures AtMostOneLive(Tombstoned(docs, id))
  {
    var after := Tombstoned(docs, id);
    forall other | other in after
      ensures !LiveMatch(after[other], objectId, ownerId)
    {
      if other != id {
        assert docs[other] == after[other];
      }
    }
  }

  /** With at most one live document per object and owner, the live match is determined. */
  lemma LiveMatchUnique(docs: map<DocId, StoredDoc>, objectId: string, ownerId: string, id: DocId)
    requires AtMostOneLive(docs) && id in LiveMatches(docs, objectId, ownerId)
    ensures LiveMatches(docs, objectId, ownerId) == {id}
  {
  }

  /** A replacement keeps at most one live document per object and owner when the new
      document is the same object of the same owner. */
  lemma ReplaceKeepsOneLive(docs: map<DocId, StoredDoc>, objectId: string, ownerId: string,
                            replaced: Option<DocId>, newId: DocId, doc: StoredDoc)
    requires AtMostOneLive(docs) && newId !in docs
    requires doc.externalId == objectId && doc.owner == ownerId && !doc.tombstone
    requires replaced.None? ==> LiveMatches(docs, objectId, ownerId) == {}
    requires replaced.Some? ==> replaced.value in LiveMatches(docs, objectId, ownerId)
    ensures var base := if replaced.Some? then Tombstoned(docs, replaced.value) else docs;
      AtMostOneLive(base[newId := doc])
  {
    var base := if replaced.Some? then Tombstoned(docs, replaced.value) else docs;
    if replaced.Some? {
      DeleteTwiceFails(docs, objectId, ownerId, replaced.value);
    }
    assert LiveMatches(base, objectId, ownerId) == {};
    var after := base[newId := doc];
    forall a, b | a in after && b in after && !after[a].tombstone && !after[b].tombstone &&
      after[a].externalId == after[b].externalId && after[a].owner == after[b].owner
      ensures a == b
    {
      assert a != newId ==> a in base && after[a] == base[a] && (a in LiveMatches(base, objectId, ownerId) <==> LiveMatch(base[a], objectId, ownerId));
      assert b != newId ==> b in base && after[b] == base[b] && (b in LiveMatches(base, objectId, ownerId) <==> LiveMatch(base[b], objectId, ownerId));
    }
  }

  /** Which step of `update`'s `try` block raised, if any: the conversion, the insert, or the
      refetch that must find the new document. */
  function UpdateFailure(doc: Option<StoredDoc>, insertFails: bool, refetched: bool): (r: Option<Reason>)
    ensures r.None? <==> doc.Some? && !insertFails && refetched
  {
    if doc.None? then Some(ConversionFailed)
    else if insertFails then Some(InsertFailed)
    else if !refetched then Some(QueryMismatch)
    else None
  }

  lemma UndoTombstone(m: map<DocId, StoredDoc>, id: DocId)
    requires id in m && !m[id].tombstone
    ensures Tombstoned(m, id)[id := Tombstoned(m, id)[id].(tombstone := false)] == m
  {
  }

  /** What a successful `update` publishes: a replacement when an older live document was
      tombstoned, an insert otherwise. */
  function ChangeNotice(replaced: Option<DocId>, newId: DocId): (r: Notice)
    ensures r.Replaces? <==> replaced.Some?
    ensures r.Replaces? ==> r.oldId == replaced.value && r.newId == newId
    ensures replaced.None? ==> r == Inserts(newId)
  {
    if replaced.Some? then Replaces(replaced.value, newId) else Inserts(newId)
  }

  class Rest {
    /** The store's documents by `_id`. */
    var docs: map<DocId, StoredDoc>
    /** The keys whose lock is held. */
    var locks: set<string>
    var lockEvents: seq<LockEvent>
    /** Everything published to the query broker, in order. */
    var published: seq<Notice>

    constructor (docs: map<DocId, StoredDoc>)
      ensures this.docs == docs && locks == {} && lockEvents == [] && published == []
    {
      this.docs := docs;
      locks, lockEvents, published := {}, [], [];
    }

    /** `validate_owner_id`: an empty (falsy) owner id is refused. */
    function ValidateOwnerId(ownerId: string): (r: Outcome<Reason>)
      ensures r.Pass? <==> ownerId != ""
      ensures r.Fail? ==> r.error == NotLoggedIn
    {
      if ownerId == "" then Fail(NotLoggedIn) else Pass
    }

    /** `delete(object_id, owner_id)`: tombstones one live document of this object and owner
        and returns its `_id`, or fails and changes nothing when there is none. */
    method Delete(objectId: string, ownerId: string) returns (r: Result<DocId, Reason>)
      modifies this`docs
      ensures LiveMatches(old(docs), objectId, ownerId) == {} ==>
        r == Err(NoSuchObject) && docs == old(docs)
      ensures LiveMatches(old(docs), objectId, ownerId) != {} ==>
        && r.Ok? && r.value in LiveMatches(old(docs), objectId, ownerId)
        && docs == Tombstoned(old(docs), r.value)
      ensures AtMostOneLive(old(docs)) ==> AtMostOneLive(docs)
    {
      if LiveMatches(docs, objectId, ownerId) == {} {
        return Err(NoSuchObject);
      }
      var id :| id in LiveMatches(docs, objectId, ownerId);
      if AtMostOneLive(docs) {
        DeleteTwiceFails(docs, objectId, ownerId, id);
      }
      docs := docs[id := docs[id].(tombstone := true)];
      r := Ok(id);
    }

    /** `remove(object_id, owner_id)`: under the lock `object_id + owner_id`, deletes, then
        publishes the deleted id; a failed delete publishes nothing.  The lock is released on
        both paths. */
    method Remove(objectId: string, ownerId: string) returns (r: Outcome<Reason>)
      requires objectId + ownerId !in locks
      modifies this`docs, this`locks, this`lockEvents, this`published
      ensures locks == old(locks)
      ensures ownerId == "" ==>
        r == Fail(NotLoggedIn) && docs == old(docs) && published == old(published) && lockEvents == old(lockEvents)
      ensures ownerId != "" ==> lockEvents == old(lockEvents) + [Acquired(objectId + ownerId), Released(objectId + ownerId)]
      ensures ownerId != "" && LiveMatches(old(docs), objectId, ownerId) == {} ==>
        r == Fail(NoSuchObject) && docs == old(docs) && published == old(published)
      ensures ownerId != "" && LiveMatches(old(docs), objectId, ownerId) != {} ==>
        && r == Pass
        && exists id :: id in LiveMatches(old(docs), objectId, ownerId) &&
             docs == Tombstoned(old(docs), id) && published == old(published) + [Deletes(id)]
      ensures AtMostOneLive(old(docs)) ==> AtMostOneLive(docs)
    {
      var valid := ValidateOwnerId(ownerId);
      if valid.Fail? {
        return valid;
      }
      var key := objectId + ownerId;
      Acquire(key);
      var deleted := Delete(objectId, ownerId);
      Release(key);
      if deleted.Err? {
        return Fail(deleted.error);
      }
      published := published + [Deletes(deleted.value)];
      r := Pass;
    }

    /** `update(object, query, owner_id)`.  The store's side is given as parameters:
        `toDoc` is `object_to_doc` (`None` when it raises), `insertFails` says whether
        `insert_one` raises, `freshId` is the `_id` it assigns, and `matches(filter, id, doc)`
        says whether `find_one(filter)` finds the stored document `doc` with that id (the refetch
        filter pins `_id`, so only the new document can answer it).

        Under the lock `object['_id'] + owner_id`: any live document of the object and owner is
        tombstoned first (a failed delete is ignored); the new document is inserted and must
        answer the supplied query.  On failure the insert is undone, the old document is
        un-tombstoned, the store is as it was and nothing is published.  On success the
        broker hears `replaces (old, new)` or `inserts new`.  The lock is released on every path. */
    method Update(obj: map<string, Value>, query: Value, ownerId: string,
                  toDoc: map<string, Value> -> Option<StoredDoc>, insertFails: bool, freshId: DocId,
                  matches: (Value, DocId, StoredDoc) -> bool)
      returns (r: Outcome<Reason>, ghost replaced: Option<DocId>)
      requires "_id" in obj && obj["_id"].Str?
      requires freshId !in docs
      requires obj["_id"].s + ownerId !in locks
      modifies this`docs, this`locks, this`lockEvents, this`published
      ensures locks == old(locks)
      ensures ownerId == "" ==>
        r == Fail(NotLoggedIn) && docs == old(docs) && published == old(published) && lockEvents == old(lockEvents)
      ensures ownerId != "" ==>
        var objectId := obj["_id"].s;
        var live := LiveMatches(old(docs), objectId, ownerId);
        var doc := toDoc(obj);
        && lockEvents == old(lockEvents) + [Acquired(objectId + ownerId), Released(objectId + ownerId)]
        && (replaced.None? <==> live == {})
        && (replaced.Some? ==> replaced.value in live)
        && var failure := UpdateFailure(doc, insertFails, doc.Some? && matches(Refetch(query, freshId), freshId, doc.value));
           if failure.Some? then
             r == Fail(failure.value) && docs == old(docs) && published == old(published)
           else
             && r == Pass
             && docs == (if replaced.Some? then Tombstoned(old(docs), replaced.value) else old(docs))[freshId := doc.value]
             && published == old(published) + [ChangeNotice(replaced, freshId)]
      ensures AtMostOneLive(old(docs)) && (toDoc(obj).Some? ==> LiveMatch(toDoc(obj).value, obj["_id"].s, ownerId)) ==>
        AtMostOneLive(docs)
    {
      replaced := None;
      var valid := ValidateOwnerId(ownerId);
      if valid.Fail? {
        return valid, replaced;
      }
      var objectId := obj["_id"].s;
      var key := objectId + ownerId;
      Acquire(key);

      var deleted := Delete(objectId, ownerId);
      var deleteId: Option<DocId> := if deleted.Ok? then Some(deleted.value) else None;
      replaced := deleteId;

      var inserted, failure := TryInsert(obj, query, toDoc, insertFails, freshId, matches);
      if failure.Some? {
        Rollback(inserted, deleteId, old(docs));
        Release(key);
        return Fail(failure.value), replaced;
      }
      Release(key);
      if AtMostOneLive(old(docs)) && LiveMatch(toDoc(obj).value, objectId, ownerId) {
        ReplaceKeepsOneLive(old(docs), objectId, ownerId, deleteId, freshId, toDoc(obj).value);
      }

      published := published + [ChangeNotice(deleteId, inserted.value)];
      r := Pass;
    }

    /** The `try` block of `update`: convert, insert, refetch with the supplied query.  The
        insert stays in the store even when the refetch fails; `inserted` says whether there is
        one to undo. */
    method TryInsert(obj: map<string, Value>, query: Value,
                     toDoc: map<string, Value> -> Option<StoredDoc>, insertFails: bool, freshId: DocId,
                     matches: (Value, DocId, StoredDoc) -> bool)
      returns (inserted: Option<DocId>, failure: Option<Reason>)
      requires freshId !in docs
      modifies this`docs
      ensures var doc := toDoc(obj);
        && failure == UpdateFailure(doc, insertFails, doc.Some? && matches(Refetch(query, freshId), freshId, doc.value))
        && (inserted.Some? <==> doc.Some? && !insertFails)
        && (inserted.Some? ==> inserted.value == freshId && docs == old(docs)[freshId := doc.value])
        && (inserted.None? ==> docs == old(docs))
    {
      inserted := None;
      var doc := toDoc(obj);
      var refetched := false;
      if doc.Some? && !insertFails {
        docs := docs[freshId := doc.value];
        inserted := Some(freshId);
        refetched := matches(Refetch(query, freshId), freshId, doc.value);
      }
      failure := UpdateFailure(doc, insertFails, refetched);
    }

    /** The `except` block of `update`: delete the insert, if any, then un-tombstone the
        replaced document, if any; the store is back to `before`. */
    method Rollback(inserted: Option<DocId>, deleteId: Option<DocId>, ghost before: map<DocId, StoredDoc>)
      requires deleteId.Some? ==> deleteId.value in before && !before[deleteId.value].tombstone
      requires var base := if deleteId.Some? then Tombstoned(before, deleteId.value) else before;
        if inserted.Some? then inserted.value !in base && inserted.value in docs && docs - {inserted.value} == base
        else docs == base
      modifies this`docs
      ensures docs == before
    {
      if inserted.Some? {
        docs := docs - {inserted.value};
      }
      if deleteId.Some? {
        UndoTombstone(before, deleteId.value);
        docs := docs[deleteId.value := docs[deleteId.value].(tombstone := false)];
      }
    }

    /** `lock.acquire()` on a free key. */
    method Acquire(key: string)
      requires key !in locks
      modifies this`locks, this`lockEvents
      ensures locks == old(locks) + {key} && lockEvents == old(lockEvents) + [Acquired(key)]
    {
      locks := locks + {key};
      lockEvents := lockEvents + [Acquired(key)];
    }

    /** `lock.release()` on a held key. */
    method Release(key: string)
      requires key in locks
      modifies this`locks, this`lockEvents
      ensures locks == old(locks) - {key} && lockEvents == old(lockEvents) + [Released(key)]
    {
      locks := locks - {key};
      lockEvents := lockEvents + [Released(key)];
    }
  }
}
