/** The MongoDB view the maintenance scripts work against: documents as an
    object id plus a field map of BSON values, the two collections as
    in-memory sequences in their natural order, and the collection
    operations the scripts call (`count_documents`, `update_many`,
    `delete_many` and `insert_many` with the `{key: None}` filter). */
module Mongo {
  import opened Wrappers
  import opened Text
  import opened Bson

  /** A BSON value as the scripts see it through pymongo. `Other` stands for
      every remaining kind (numbers, booleans, dates, embedded documents)
      with its Python truthiness and its `str()` text. */
  datatype Value =
    | Null
    | Str(s: string)
    | Oid(id: ObjectId)
    | OidList(ids: seq<ObjectId>)
    | Other(truthy: bool, text: string)

  /** Python truthiness of the value pymongo returns. */
  predicate PyTruthy(v: Value)
  {
    match v
    case Null => false
    case Str(s) => s != ""
    case Oid(_) => true
    case OidList(ids) => |ids| > 0
    case Other(t, _) => t
  }

  /** `repr` of an object id, as it appears inside a printed list. */
  function OidRepr(id: ObjectId): string
  {
    "ObjectId('" + IdString(id) + "')"
  }

  function OidReprs(ids: seq<ObjectId>): (r: seq<string>)
    ensures |r| == |ids|
  {
    if |ids| == 0 then [] else [OidRepr(ids[0])] + OidReprs(ids[1..])
  }

  /** `str(v)`, as an f-string writes it; `None` prints as "None". */
  function PyStr(v: Value): string
  {
    match v
    case Null => "None"
    case Str(s) => s
    case Oid(id) => IdString(id)
    case OidList(ids) => "[" + Join(OidReprs(ids), ", ") + "]"
    case Other(_, t) => t
  }

  /** A stored document: its `_id` and its other fields. */
  datatype Doc = Doc(id: ObjectId, fields: map<string, Value>)

  /** `doc.get(key)`: a missing field reads as `None`. */
  function Get(d: Doc, key: string): (v: Value)
    ensures key !in d.fields ==> v == Null
  {
    if key in d.fields then d.fields[key] else Null
  }

  /** The query `{key: None}`: the field is missing or holds null. A field
      holding an empty string or any other falsy value does not match. */
  predicate MatchesNull(d: Doc, key: string)
  {
    key !in d.fields || d.fields[key] == Null
  }

  /** `{'$set': updates}` applied to one document. */
  function SetFields(d: Doc, updates: map<string, Value>): (r: Doc)
    ensures r.id == d.id
    ensures r.fields.Keys == d.fields.Keys + updates.Keys
    ensures forall k :: k in updates ==> r.fields[k] == updates[k]
    ensures forall k :: k in d.fields && k !in updates ==> r.fields[k] == d.fields[k]
  {
    Doc(d.id, d.fields + updates)
  }

  /** `count_documents({key: None})`. */
  function CountNull(docs: seq<Doc>, key: string): (n: nat)
    ensures n <= |docs|
    ensures n == 0 <==> forall i :: 0 <= i < |docs| ==> !MatchesNull(docs[i], key)
  {
    if |docs| == 0 then 0
    else (if MatchesNull(docs[0], key) then 1 else 0) + CountNull(docs[1..], key)
  }

  /** `update_many({key: None}, {'$set': updates})`: the matching documents
      get the new fields, the others stay as they are, the order is kept. */
  function UpdateManyNull(docs: seq<Doc>, key: string, updates: map<string, Value>): (r: seq<Doc>)
    ensures |r| == |docs|
    ensures forall i :: 0 <= i < |docs| ==>
              r[i] == (if MatchesNull(docs[i], key) then SetFields(docs[i], updates) else docs[i])
  {
    seq(|docs|, i requires 0 <= i < |docs| =>
      if MatchesNull(docs[i], key) then SetFields(docs[i], updates) else docs[i])
  }

  /** After an update that sets `key` to a non-null value, no document
      matches `{key: None}` any more. */
  lemma UpdateClearsNull(docs: seq<Doc>, key: string, updates: map<string, Value>)
    requires key in updates && updates[key] != Null
    ensures CountNull(UpdateManyNull(docs, key, updates), key) == 0
  {
  }

  /** `delete_many({key: None})`: the matching documents are removed, the
      rest keep their order. */
  function DeleteManyNull(docs: seq<Doc>, key: string): (r: seq<Doc>)
    ensures |r| == |docs| - CountNull(docs, key)
    ensures forall i :: 0 <= i < |r| ==> !MatchesNull(r[i], key) && r[i] in docs
    ensures forall i :: 0 <= i < |docs| && !MatchesNull(docs[i], key) ==> docs[i] in r
  {
    if |docs| == 0 then []
    else
      var rest := DeleteManyNull(docs[1..], key);
      assert forall i :: 1 <= i < |docs| ==> docs[i] == docs[1..][i - 1];
      if MatchesNull(docs[0], key) then rest else [docs[0]] + rest
  }

  /** `insert_many(bodies)`: the new documents, with the ids the server
      assigns, are appended in order. */
  function InsertMany(docs: seq<Doc>, ids: seq<ObjectId>, bodies: seq<map<string, Value>>): (r: seq<Doc>)
    requires |ids| == |bodies|
    ensures |r| == |docs| + |bodies|
    ensures r[..|docs|] == docs
    ensures forall i :: 0 <= i < |bodies| ==> r[|docs| + i] == Doc(ids[i], bodies[i])
  {
    docs + seq(|bodies|, i requires 0 <= i < |bodies| => Doc(ids[i], bodies[i]))
  }

  /** The two collections the scripts touch. */
  class Database {
    var events: seq<Doc>
    var users: seq<Doc>

    constructor (events: seq<Doc>, users: seq<Doc>)
      ensures this.events == events && this.users == users
    {
      this.events := events;
      this.users := users;
    }
  }
}
