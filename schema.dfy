/** The socket message schema (a JSON Schema, draft-07) and the ownership checks of `validate`,
    written as predicates over JSON values.  Regular expressions become character-class
    predicates; `$` at the end of a value pattern is read as Python's `re.search` reads it. */
module Schema {
  import opened Wrappers
  import opened Json

  /** The operators a query may use, each written with a leading `$`; `""` admits `$` itself. */
  const AllowedQueryOperators: seq<string> :=
    ["eq", "gt", "gte", "in", "lt", "lte", "ne", "nin", "and", "not", "nor", "or",
     "exists", "type", "all", "elemMatch", "size", "", "slice"]

  // ---------------------------------------------------------------------------
  // Patterns
  // ---------------------------------------------------------------------------

  /** How the `$` that ends a value pattern is read. */
  datatype Anchor =
    | PythonEnd  // `re.search(...)` with `$`: the end of the text, or just before a final newline
    | TextEnd    // the end of the text only

  /** The value patterns: UUID_PATTERN, the sha256 hex digest, RANDOM_SCHEMA's `.{1,64}` and
      the 24-hex-digit store object id of `since`. */
  datatype Pattern = Uuid | Sha256 | Random | ObjectId

  predicate IsLowerHex(c: char)
  {
    '0' <= c <= '9' || 'a' <= c <= 'f'
  }

  /** The text the pattern's body matches, between `^` and `$`. */
  predicate Shape(p: Pattern, s: string)
  {
    match p
    case Uuid =>
      |s| == 36 &&
      forall i :: 0 <= i < |s| ==>
        if i == 8 || i == 13 || i == 18 || i == 23 then s[i] == '-' else IsLowerHex(s[i])
    case Sha256 => |s| == 64 && forall i :: 0 <= i < |s| ==> IsLowerHex(s[i])
    case Random => 1 <= |s| <= 64 && '\n' !in s
    case ObjectId => |s| == 24 && forall i :: 0 <= i < |s| ==> IsLowerHex(s[i])
  }

  /** `re.search("^" + body + "$", s)` under the given reading of `$`. */
  predicate Anchored(p: Pattern, s: string, a: Anchor)
  {
    Shape(p, s) || (a == PythonEnd && |s| > 0 && s[|s| - 1] == '\n' && Shape(p, s[..|s| - 1]))
  }

  /** `{"type": "string", "pattern": ...}`. */
  predicate PatternString(p: Pattern, v: Value, a: Anchor)
  {
    v.Str? && Anchored(p, v.s, a)
  }

  /** A key matched by `^(?!c).*$`: it does not start with `c`, and `.*` can reach a place where
      `$` holds, so no newline comes before its last character. */
  predicate KeyNotStartingWith(c: char, k: string)
  {
    (|k| == 0 || k[0] != c) && forall i :: 0 <= i < |k| - 1 ==> k[i] != '\n'
  }

  // ---------------------------------------------------------------------------
  // definitions/object
  // ---------------------------------------------------------------------------

  /** A context holds only `_nearMisses` and `_neighbors`, each an array of objects. */
  predicate ValidContext(v: Value)
  {
    v.Obj? &&
    forall k :: k in v.members ==>
      && (k == "_nearMisses" || k == "_neighbors")
      && v.members[k].Arr?
      && forall i :: 0 <= i < |v.members[k].items| ==> v.members[k].items[i].Obj?
  }

  predicate ObjectMember(k: string, v: Value, a: Anchor)
  {
    if k == "_by" then PatternString(Uuid, v, a)
    else if k == "_to" then v.Arr? && forall i :: 0 <= i < |v.items| ==> PatternString(Uuid, v.items[i], a)
    else if k == "_id" then PatternString(Sha256, v, a)
    else if k == "_contexts" then v.Arr? && forall i :: 0 <= i < |v.items| ==> ValidContext(v.items[i])
    else KeyNotStartingWith('_', k)
  }

  predicate ValidObject(v: Value, a: Anchor)
  {
    && v.Obj?
    && "_id" in v.members && "_to" in v.members && "_by" in v.members && "_contexts" in v.members
    && forall k :: k in v.members ==> ObjectMember(k, v.members[k], a)
  }

  // ---------------------------------------------------------------------------
  // definitions/query and definitions/queryProp
  // ---------------------------------------------------------------------------

  /** A key a query object may hold: `$` followed by an allowed operator, or any key matched
      by `^(?!\$).*$` (which includes `_to`). */
  predicate AllowedQueryKey(k: string)
  {
    (StartsWith(k, "$") && k[1..] in AllowedQueryOperators) || KeyNotStartingWith('$', k)
  }

  /** `queryProp`: a query object, an array of `queryProp`s, or a constant.  In a query object
      every key is allowed, `_to` holds a UUID string, and every value is a `queryProp`. */
  predicate QueryProp(v: Value, a: Anchor)
  {
    match v
    case Obj(m) =>
      forall k :: k in m ==>
        && AllowedQueryKey(k)
        && (k == "_to" ==> PatternString(Uuid, m[k], a))
        && QueryProp(m[k], a)
    case Arr(items) => forall i :: 0 <= i < |items| ==> QueryProp(items[i], a)
    case _ => true
  }

  predicate ValidQuery(v: Value, a: Anchor)
  {
    v.Obj? && QueryProp(v, a)
  }

  // ---------------------------------------------------------------------------
  // The message
  // ---------------------------------------------------------------------------

  predicate UpdateMessage(m: map<string, Value>, a: Anchor)
  {
    && "type" in m && m["type"] == Str("update")
    && "object" in m && "idProof" in m
    && ValidObject(m["object"], a)
    && (m["idProof"] == Null || PatternString(Random, m["idProof"], a))
  }

  predicate DeleteMessage(m: map<string, Value>, a: Anchor)
  {
    "type" in m && m["type"] == Str("delete") && "objectID" in m && PatternString(Sha256, m["objectID"], a)
  }

  predicate SubscribeMessage(m: map<string, Value>, a: Anchor)
  {
    && "type" in m && m["type"] == Str("subscribe")
    && "query" in m && "since" in m && "queryID" in m
    && ValidQuery(m["query"], a)
    && (m["since"] == Null || PatternString(ObjectId, m["since"], a))
    && PatternString(Random, m["queryID"], a)
  }

  predicate UnsubscribeMessage(m: map<string, Value>, a: Anchor)
  {
    "type" in m && m["type"] == Str("unsubscribe") && "queryID" in m && PatternString(Random, m["queryID"], a)
  }

  /** `socket_schema()`: an object with a `messageID` and a `type`, of one of the four kinds. */
  predicate ValidMessage(msg: Value, a: Anchor)
  {
    && msg.Obj?
    && "messageID" in msg.members && "type" in msg.members
    && PatternString(Random, msg.members["messageID"], a)
    && (|| UpdateMessage(msg.members, a) || DeleteMessage(msg.members, a)
        || SubscribeMessage(msg.members, a) || UnsubscribeMessage(msg.members, a))
  }

  // ---------------------------------------------------------------------------
  // validate
  // ---------------------------------------------------------------------------

  /** A key the `"_to": "(<uuid>)"` pattern can start in once the message is serialised:
      `_to` itself, or a key whose text ends in `"_to` (its quote is escaped as `\"`). */
  predicate ClaimKey(k: string)
  {
    k == "_to" || EndsWith(k, "\"_to")
  }

  /** A member QUERY_OWNER_PATTERN finds in `json.dumps(msg)`: a claim key whose value is a string
      that is exactly a UUID (the pattern needs the closing quote right after it). */
  predicate IsClaim(k: string, v: Value)
  {
    ClaimKey(k) && v.Str? && Shape(Uuid, v.s)
  }

  /** Every `_to` claim anywhere in `v` names `owner`. */
  predicate ClaimsAre(v: Value, owner: string)
  {
    match v
    case Obj(m) => forall k :: k in m ==> (IsClaim(k, m[k]) ==> m[k].s == owner) && ClaimsAre(m[k], owner)
    case Arr(items) => forall i :: 0 <= i < |items| ==> ClaimsAre(items[i], owner)
    case _ => true
  }

  datatype Reason = SchemaViolation | NotBySelf | NotToSelf | QueryNotToSelf

  function MessageType(msg: Value): Value
  {
    if msg.Obj? && "type" in msg.members then msg.members["type"] else Null
  }

  /** The checks of `validate` with the given reading of `$`. */
  function ValidateWith(msg: Value, ownerId: string, a: Anchor): Outcome<Reason>
  {
    if !ValidMessage(msg, a) then Fail(SchemaViolation)
    else if MessageType(msg) == Str("update") then
      var obj := msg.members["object"].members;
      if obj["_by"] != Str(ownerId) then Fail(NotBySelf)
      else if Str(ownerId) !in obj["_to"].items then Fail(NotToSelf)
      else Pass
    else if MessageType(msg) == Str("subscribe") then
      if ClaimsAre(msg, ownerId) then Pass else Fail(QueryNotToSelf)
    else Pass
  }

  /** `validate(msg, owner_id)` as the server runs it. */
  function Validate(msg: Value, ownerId: string): (r: Outcome<Reason>)
    ensures !ValidMessage(msg, PythonEnd) ==> r == Fail(SchemaViolation)
    ensures r.Pass? ==> ValidMessage(msg, PythonEnd)
    ensures r.Pass? && MessageType(msg) == Str("update") ==>
      && msg.members["object"].members["_by"] == Str(ownerId)
      && Str(ownerId) in msg.members["object"].members["_to"].items
    ensures r.Pass? && MessageType(msg) == Str("subscribe") ==> ClaimsAre(msg.members["query"], ownerId)
    ensures ValidMessage(msg, PythonEnd) && MessageType(msg) in {Str("delete"), Str("unsubscribe")} ==> r.Pass?
    ensures ValidMessage(msg, PythonEnd) && MessageType(msg) == Str("update") ==>
      (r.Pass? <==> msg.members["object"].members["_by"] == Str(ownerId) &&
                    Str(ownerId) in msg.members["object"].members["_to"].items)
    ensures ValidMessage(msg, PythonEnd) && MessageType(msg) == Str("subscribe") ==> (r.Pass? <==> ClaimsAre(msg, ownerId))
  {
    ValidateWith(msg, ownerId, PythonEnd)
  }

  /** `validate` with every value pattern anchored at the very end of the text. */
  function ValidateFixed(msg: Value, ownerId: string): Outcome<Reason>
  {
    ValidateWith(msg, ownerId, TextEnd)
  }

  // ---------------------------------------------------------------------------
  // Properties
  // ---------------------------------------------------------------------------

  /** A valid message is one of the four kinds and carries that kind's fields. */
  lemma MessageKinds(msg: Value, a: Anchor)
    requires ValidMessage(msg, a)
    ensures var m := msg.members;
      && PatternString(Random, m["messageID"], a)
      && (|| (m["type"] == Str("update") && "object" in m && "idProof" in m)
          || (m["type"] == Str("delete") && "objectID" in m)
          || (m["type"] == Str("subscribe") && "query" in m && "since" in m && "queryID" in m)
          || (m["type"] == Str("unsubscribe") && "queryID" in m))
  {
  }

  /** With `$` read as the end of the text, identifiers have exactly their documented formats:
      `messageID`/`queryID` of 1 to 64 characters without a newline, `objectID` and `_id` of
      64 lower-case hex digits, `since` null or 24 of them. */
  lemma FixedFieldFormats(msg: Value)
    requires ValidMessage(msg, TextEnd)
    ensures var m := msg.members;
      && m["messageID"].Str? && 1 <= |m["messageID"].s| <= 64
      && '\n' !in m["messageID"].s
      && (m["type"] == Str("delete") ==>
            m["objectID"].Str? && |m["objectID"].s| == 64 && forall i :: 0 <= i < 64 ==> IsLowerHex(m["objectID"].s[i]))
      && (m["type"] == Str("update") ==>
            var id := m["object"].members["_id"]; id.Str? && |id.s| == 64 && forall i :: 0 <= i < 64 ==> IsLowerHex(id.s[i]))
      && (m["type"] == Str("subscribe") ==>
            && m["queryID"].Str? && 1 <= |m["queryID"].s| <= 64 && '\n' !in m["queryID"].s
            && (|| m["since"] == Null
                || (m["since"].Str? && |m["since"].s| == 24 && forall i :: 0 <= i < 24 ==> IsLowerHex(m["since"].s[i]))))
  {
  }

  /** An object has `_id`, `_to`, `_by` and `_contexts`, no other key starting with `_`, and each
      of its contexts holds only arrays of objects under `_nearMisses` and `_neighbors`. */
  lemma ObjectKeys(v: Value, a: Anchor)
    requires ValidObject(v, a)
    ensures "_id" in v.members && "_to" in v.members && "_by" in v.members && "_contexts" in v.members
    ensures forall k :: k in v.members && StartsWith(k, "_") ==> k in {"_id", "_to", "_by", "_contexts"}
    ensures var cs := v.members["_contexts"];
      cs.Arr? && forall i :: 0 <= i < |cs.items| ==> ValidContext(cs.items[i])
  {
    forall k | k in v.members && StartsWith(k, "_") ensures k in {"_id", "_to", "_by", "_contexts"} {
      assert k[0] == '_' by { assert k[..1] == "_"; }
      assert ObjectMember(k, v.members[k], a);
    }
    assert ObjectMember("_contexts", v.members["_contexts"], a);
  }

  /** Every key starting with `$`, at any depth, names a whitelisted operator. */
  predicate OperatorsAllowed(v: Value)
  {
    match v
    case Obj(m) =>
      forall k :: k in m ==> (StartsWith(k, "$") ==> k[1..] in AllowedQueryOperators) && OperatorsAllowed(m[k])
    case Arr(items) => forall i :: 0 <= i < |items| ==> OperatorsAllowed(items[i])
    case _ => true
  }

  lemma {:induction false} QueryOperatorsAllowed(v: Value, a: Anchor)
    requires QueryProp(v, a)
    ensures OperatorsAllowed(v)
  {
    match v
    case Obj(m) =>
      forall k | k in m ensures (StartsWith(k, "$") ==> k[1..] in AllowedQueryOperators) && OperatorsAllowed(m[k]) {
        if StartsWith(k, "$") {
          assert k[0] == '$' by { assert k[..1] == "$"; }
        }
        QueryOperatorsAllowed(m[k], a);
      }
    case Arr(items) =>
      forall i | 0 <= i < |items| ensures OperatorsAllowed(items[i]) {
        QueryOperatorsAllowed(items[i], a);
      }
    case _ =>
  }

  /** Every `_to` member, at any depth, holds the string `ownerId`. */
  predicate AllToAre(v: Value, ownerId: string)
  {
    match v
    case Obj(m) => forall k :: k in m ==> (k == "_to" ==> m[k] == Str(ownerId)) && AllToAre(m[k], ownerId)
    case Arr(items) => forall i :: 0 <= i < |items| ==> AllToAre(items[i], ownerId)
    case _ => true
  }

  /** Every `_to` member of a query, at any depth, holds a UUID string. */
  predicate AllToAreUuids(v: Value, a: Anchor)
  {
    match v
    case Obj(m) => forall k :: k in m ==> (k == "_to" ==> PatternString(Uuid, m[k], a)) && AllToAreUuids(m[k], a)
    case Arr(items) => forall i :: 0 <= i < |items| ==> AllToAreUuids(items[i], a)
    case _ => true
  }

  lemma {:induction false} QueryToIsUuid(v: Value, a: Anchor)
    requires QueryProp(v, a)
    ensures AllToAreUuids(v, a)
  {
    match v
    case Obj(m) =>
      forall k | k in m ensures AllToAreUuids(m[k], a) {
        QueryToIsUuid(m[k], a);
      }
    case Arr(items) =>
      forall i | 0 <= i < |items| ensures AllToAreUuids(items[i], a) {
        QueryToIsUuid(items[i], a);
      }
    case _ =>
  }

  /** When `$` means the end of the text, the claim scan sees every `_to` of a valid query, so
      an accepted query only ever names its caller in `_to`. */
  lemma {:induction false} FixedQueryToIsOwner(v: Value, ownerId: string)
    requires QueryProp(v, TextEnd) && ClaimsAre(v, ownerId)
    ensures AllToAre(v, ownerId)
  {
    match v
    case Obj(m) =>
      forall k | k in m ensures (k == "_to" ==> m[k] == Str(ownerId)) && AllToAre(m[k], ownerId) {
        if k == "_to" {
          assert IsClaim(k, m[k]);
        }
        FixedQueryToIsOwner(m[k], ownerId);
      }
    case Arr(items) =>
      forall i | 0 <= i < |items| ensures AllToAre(items[i], ownerId) {
        FixedQueryToIsOwner(items[i], ownerId);
      }
    case _ =>
  }

  /** The corrected `validate` accepts a subscription only if every `_to` in its query, at any
      depth, is the caller. */
  lemma FixedSubscribeOwnsEveryTo(msg: Value, ownerId: string)
    requires ValidateFixed(msg, ownerId) == Pass && MessageType(msg) == Str("subscribe")
    ensures AllToAre(msg.members["query"], ownerId)
  {
    assert SubscribeMessage(msg.members, TextEnd);
    assert ClaimsAre(msg.members["query"], ownerId);
    FixedQueryToIsOwner(msg.members["query"], ownerId);
  }

  /** As written, a query `{"_to": "<someone else>\n"}` passes: the UUID pattern accepts the
      final newline, and the claim scan misses it because `json.dumps` writes the newline as
      `\n`, so no closing quote follows the UUID. */
  lemma AsWrittenQueryToBypass(ownerId: string, other: string)
    requires Shape(Uuid, ownerId) && Shape(Uuid, other) && ownerId != other
    ensures var msg := BypassMessage(other);
      && Validate(msg, ownerId) == Pass
      && !AllToAre(msg.members["query"], ownerId)
      && ValidateFixed(msg, ownerId) == Fail(SchemaViolation)
  {
    var msg := BypassMessage(other);
    var to := Str(other + "\n");
    var query := Obj(map["_to" := to]);
    assert (other + "\n")[..|other + "\n"| - 1] == other;
    assert PatternString(Uuid, to, PythonEnd);
    assert !Shape(Uuid, other + "\n");
    assert !PatternString(Uuid, to, TextEnd);
    assert KeyNotStartingWith('$', "_to");
    assert query.members.Keys == {"_to"};
    assert QueryProp(query, PythonEnd);
    assert !QueryProp(query, TextEnd);
    assert SubscribeMessage(msg.members, PythonEnd);
    assert PatternString(Random, Str("m"), PythonEnd);
    assert ValidMessage(msg, PythonEnd);
    assert !ValidMessage(msg, TextEnd);
    assert ClaimsAre(query, ownerId);
    forall k | k in msg.members ensures !IsClaim(k, msg.members[k]) && ClaimsAre(msg.members[k], ownerId) {
      assert !ClaimKey(k);
    }
    assert ClaimsAre(msg, ownerId);
    assert query.members["_to"] != Str(ownerId);
  }

  /** The subscribe message of the bypass above, with the given identity behind the newline. */
  function BypassMessage(other: string): Value
  {
    Obj(map[
      "messageID" := Str("m"),
      "type" := Str("subscribe"),
      "query" := Obj(map["_to" := Str(other + "\n")]),
      "since" := Null,
      "queryID" := Str("q")
    ])
  }
}
