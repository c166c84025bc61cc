/** The document store behind the handlers: the `Manufacturer` and `Item`
    models of warehouse-app/src/storage.js, as in-memory collections. */
module DocumentStore {
  import opened Js
  import opened ObjectIds

  /** Which of the two models a collection holds. */
  datatype Kind = Manufacturer | Item

  function ModelName(kind: Kind): string
  {
    match kind
    case Manufacturer => "manufacturer"
    case Item => "item"
  }

  /** The paths the schema declares. */
  function SchemaFields(kind: Kind): set<string>
  {
    match kind
    case Manufacturer => {"name", "address", "phoneNumber"}
    case Item => {"name", "manufacturer", "price", "arrivalDate", "quantity"}
  }

  /** The paths the schema marks `required`. */
  function RequiredFields(kind: Kind): set<string>
  {
    match kind
    case Manufacturer => {"name"}
    case Item => {"name", "price", "arrivalDate", "quantity"}
  }

  datatype Document = Document(id: ObjectId, fields: Record)

  /** The state of one collection: its records by identifier, the next identifier
      it assigns, whether its connection is up, and what `Date.now` reads. */
  datatype Store = Store(docs: map<ObjectId, Record>, nextId: nat, connected: bool, clock: int)

  /** Every stored identifier was assigned before `nextId`, so the next one is fresh. */
  predicate Consistent(s: Store)
  {
    forall id :: id in s.docs ==> id.n < s.nextId
  }

  const ConnectionLost := Failure("MongoNetworkError", None, "connection to the document store was lost")
  const CastFailure := Failure("CastError", None, "Cast to ObjectId failed for value at path \"_id\"")

  function ValidationFailure(kind: Kind): Failure
  {
    Failure("ValidationError", None, ModelName(kind) + " validation failed")
  }

  /** The schema's fields of `fields`: a strict schema drops every other path. */
  function Schema(kind: Kind, fields: Record): Record
  {
    map k | k in fields && k in SchemaFields(kind) :: fields[k]
  }

  /** The record `create` stores: the schema's fields, and for an Item the
      default arrival date `Date.now` when none is given. */
  function NewRecord(kind: Kind, fields: Record, now: int): Record
  {
    var kept := Schema(kind, fields);
    if kind == Item && Get(kept, "arrivalDate") == Undefined then kept["arrivalDate" := Num(now)] else kept
  }

  /** The `required` validators: each required path holds a value other than
      null, undefined and the empty string. */
  predicate Satisfies(kind: Kind, r: Record)
  {
    forall f :: f in RequiredFields(kind) ==> f in r && r[f] != Null && r[f] != Undefined && r[f] != Str("")
  }

  /** Whether the `_id` path of a query or an update, if it has one, casts to an identifier. */
  predicate IdCasts(conds: Record)
  {
    "_id" in conds ==> conds["_id"].Str? && ParseId(conds["_id"].s).Some?
  }

  /** Whether the record `fields` stored under `id` meets every condition:
      `_id` by identifier, any other field by an equal value. */
  predicate Matches(id: ObjectId, fields: Record, conds: Record)
  {
    forall k :: k in conds ==>
      if k == "_id" then conds[k].Str? && ParseId(conds[k].s) == Some(id)
      else k in fields && fields[k] == conds[k]
  }

  predicate AnyMatch(docs: map<ObjectId, Record>, conds: Record)
  {
    exists id :: id in docs && Matches(id, docs[id], conds)
  }

  /** The stored documents below identifier `n` that meet `conds`, in the
      order the store assigned their identifiers. */
  function Matching(docs: map<ObjectId, Record>, n: nat, conds: Record): (r: seq<Document>)
    ensures forall i :: 0 <= i < |r| ==>
      r[i].id.n < n && r[i].id in docs && r[i].fields == docs[r[i].id] && Matches(r[i].id, r[i].fields, conds)
    ensures forall i, j :: 0 <= i < j < |r| ==> r[i].id.n < r[j].id.n
    decreases n
  {
    if n == 0 then []
    else
      var id := ObjectId(n - 1);
      Matching(docs, n - 1, conds) + (if id in docs && Matches(id, docs[id], conds) then [Document(id, docs[id])] else [])
  }

  /** Every stored document below `n` that meets the conditions is among the matches. */
  lemma {:induction false} MatchingComplete(docs: map<ObjectId, Record>, n: nat, conds: Record, id: ObjectId)
    requires id in docs && id.n < n && Matches(id, docs[id], conds)
    ensures Document(id, docs[id]) in Matching(docs, n, conds)
    decreases n
  {
    if id.n < n - 1 {
      MatchingComplete(docs, n - 1, conds, id);
    }
  }

  /** In a consistent store every stored document that meets the conditions is among the matches. */
  lemma MatchingCompleteAll(s: Store, conds: Record)
    requires Consistent(s)
    ensures forall id :: id in s.docs && Matches(id, s.docs[id], conds) ==>
      Document(id, s.docs[id]) in Matching(s.docs, s.nextId, conds)
  {
    forall id | id in s.docs && Matches(id, s.docs[id], conds)
      ensures Document(id, s.docs[id]) in Matching(s.docs, s.nextId, conds)
    {
      MatchingComplete(s.docs, s.nextId, conds, id);
    }
  }

  /** In a consistent store the matches are empty exactly when no stored document matches. */
  lemma MatchingEmptyIff(s: Store, conds: Record)
    requires Consistent(s)
    ensures Matching(s.docs, s.nextId, conds) == [] <==> !AnyMatch(s.docs, conds)
  {
    if AnyMatch(s.docs, conds) {
      var id :| id in s.docs && Matches(id, s.docs[id], conds);
      MatchingComplete(s.docs, s.nextId, conds, id);
    }
    var found := Matching(s.docs, s.nextId, conds);
    if found != [] {
      assert found[0].id in s.docs && Matches(found[0].id, s.docs[found[0].id], conds);
    }
  }

  /** In a consistent store with a match, the first match is the stored matching
      document with the lowest identifier. */
  lemma FirstMatchIsLowest(s: Store, conds: Record)
    requires Consistent(s)
    ensures var found := Matching(s.docs, s.nextId, conds);
      AnyMatch(s.docs, conds) ==>
      && found != []
      && found[0].id in s.docs && Matches(found[0].id, s.docs[found[0].id], conds)
      && forall j :: j in s.docs && Matches(j, s.docs[j], conds) ==> found[0].id.n <= j.n
  {
    var found := Matching(s.docs, s.nextId, conds);
    MatchingEmptyIff(s, conds);
    forall j | found != [] && j in s.docs && Matches(j, s.docs[j], conds)
      ensures found[0].id.n <= j.n
    {
      MatchingComplete(s.docs, s.nextId, conds, j);
      var k :| 0 <= k < |found| && found[k] == Document(j, s.docs[j]);
      assert k == 0 || found[0].id.n < found[k].id.n;
    }
  }

  /** The record a delete removes: of the stored matches, the one with the lowest identifier. */
  function FirstMatch(s: Store, conds: Record): (id: ObjectId)
    requires Consistent(s) && AnyMatch(s.docs, conds)
    ensures id in s.docs && Matches(id, s.docs[id], conds)
    ensures forall j :: j in s.docs && Matches(j, s.docs[j], conds) ==> id.n <= j.n
  {
    FirstMatchIsLowest(s, conds);
    Matching(s.docs, s.nextId, conds)[0].id
  }

  /** `Model.findById(id)`: the stored document, or none. The identifier is cast
      before the store is reached. */
  function FindByIdOp(s: Store, id: string): (r: Outcome<Option<Document>>)
    ensures r.Returned? <==> ParseId(id).Some? && s.connected
    ensures r.Returned? ==> (r.value.Some? <==> ParseId(id).value in s.docs)
    ensures r.Returned? && r.value.Some? ==>
      r.value.value.id == ParseId(id).value && r.value.value.fields == s.docs[r.value.value.id]
    ensures ParseId(id).None? ==> r == Threw(CastFailure)
  {
    match ParseId(id)
    case None => Threw(CastFailure)
    case Some(oid) =>
      if !s.connected then Threw(ConnectionLost)
      else Returned(if oid in s.docs then Some(Document(oid, s.docs[oid])) else None)
  }

  /** `Model.find(conditions)`: every matching document, in identifier order. */
  function FindOp(s: Store, conds: Record): (r: Outcome<seq<Document>>)
    ensures r.Returned? <==> IdCasts(conds) && s.connected
    ensures !IdCasts(conds) ==> r == Threw(CastFailure)
    ensures r.Returned? ==> forall i :: 0 <= i < |r.value| ==>
      r.value[i].id in s.docs && r.value[i].fields == s.docs[r.value[i].id] && Matches(r.value[i].id, r.value[i].fields, conds)
    ensures r.Returned? ==> forall i, j :: 0 <= i < j < |r.value| ==> r.value[i].id.n < r.value[j].id.n
  {
    if !IdCasts(conds) then Threw(CastFailure)
    else if !s.connected then Threw(ConnectionLost)
    else Returned(Matching(s.docs, s.nextId, conds))
  }

  /** `Model.create(fields)`: validates (before the store is reached) and stores a
      new document under a fresh identifier. */
  function CreateOp(kind: Kind, s: Store, fields: Record): (r: (Outcome<Document>, Store))
    ensures Consistent(s) ==> Consistent(r.1)
  {
    var rec := NewRecord(kind, fields, s.clock);
    if !Satisfies(kind, rec) then (Threw(ValidationFailure(kind)), s)
    else if !s.connected then (Threw(ConnectionLost), s)
    else
      var id := ObjectId(s.nextId);
      (Returned(Document(id, rec)), s.(docs := s.docs[id := rec], nextId := s.nextId + 1))
  }

  /** What an update sets once cast: nothing, when it has no schema path and no `_id`. */
  predicate EmptyUpdate(kind: Kind, update: Record)
  {
    Schema(kind, update) == map[] && "_id" !in update
  }

  /** The update leaves the record's `_id` as it is: it has no `_id`, or the text
      of that same identifier. */
  predicate KeepsId(oid: ObjectId, update: Record)
  {
    "_id" !in update || (update["_id"].Str? && ParseId(update["_id"].s) == Some(oid))
  }

  /** What the database answers to an update that would change `_id`. */
  const ImmutableIdFailure :=
    Failure("MongoError", Some(66), "Performing an update on the path '_id' would modify the immutable field '_id'")

  /** `Model.updateOne({_id: id}, update)`: the filter and the update are cast
      first; an update that casts to nothing answers 0 without reaching the store;
      otherwise the schema's fields of `update` are set on the document, without
      running validators, and the count is of matched documents. An `_id` in the
      update must name the record's own identifier. */
  function UpdateOneOp(kind: Kind, s: Store, id: string, update: Record): (r: (Outcome<nat>, Store))
    ensures Consistent(s) ==> Consistent(r.1)
  {
    match ParseId(id)
    case None => (Threw(CastFailure), s)
    case Some(oid) =>
      if !IdCasts(update) then (Threw(CastFailure), s)
      else if EmptyUpdate(kind, update) then (Returned(0), s)
      else if !s.connected then (Threw(ConnectionLost), s)
      else if oid !in s.docs then (Returned(0), s)
      else if !KeepsId(oid, update) then (Threw(ImmutableIdFailure), s)
      else (Returned(1), s.(docs := s.docs[oid := s.docs[oid] + Schema(kind, update)]))
  }

  /** `Model.deleteOne(conditions)`: removes the first matching document; the count is of removed documents. */
  function DeleteOneOp(s: Store, conds: Record): (r: (Outcome<nat>, Store))
    ensures Consistent(s) ==> Consistent(r.1)
  {
    if !IdCasts(conds) then (Threw(CastFailure), s)
    else if !s.connected then (Threw(ConnectionLost), s)
    else
      var found := Matching(s.docs, s.nextId, conds);
      if found == [] then (Returned(0), s) else (Returned(1), s.(docs := s.docs - {found[0].id}))
  }

  /** `info.save()` after the path `field` of the fetched document `info` was set
      to `v`: the fetched document, so changed, is validated first; then only that
      path is written to the stored record, which must still exist. */
  function SaveFieldOp(kind: Kind, s: Store, info: Document, field: string, v: Value): (r: (Outcome<()>, Store))
    ensures Consistent(s) ==> Consistent(r.1)
    ensures r.0.Returned? <==> Satisfies(kind, info.fields[field := v]) && s.connected && info.id in s.docs
    ensures r.0.Returned? ==> r.1 == s.(docs := s.docs[info.id := s.docs[info.id][field := v]])
    ensures r.0.Threw? ==> r.1 == s
    ensures !Satisfies(kind, info.fields[field := v]) ==> r.0 == Threw(ValidationFailure(kind))
  {
    if !Satisfies(kind, info.fields[field := v]) then (Threw(ValidationFailure(kind)), s)
    else if !s.connected then (Threw(ConnectionLost), s)
    else if info.id !in s.docs then
      (Threw(Failure("DocumentNotFoundError", None, "No document found for query \"{ _id: " + IdToString(info.id) + " }\"")), s)
    else (Returned(()), s.(docs := s.docs[info.id := s.docs[info.id][field := v]]))
  }

  /** One model's collection, changed in place by the store calls. */
  class Collection {
    const kind: Kind
    var docs: map<ObjectId, Record>
    var nextId: nat
    var connected: bool
    var clock: int

    function Snapshot(): Store
      reads this
    {
      Store(docs, nextId, connected, clock)
    }

    ghost predicate Valid()
      reads this
    {
      Consistent(Snapshot())
    }

    constructor (kind: Kind, clock: int)
      ensures this.kind == kind && Valid()
      ensures Snapshot() == Store(map[], 0, true, clock)
    {
      this.kind := kind;
      docs, nextId, connected, this.clock := map[], 0, true, clock;
    }

    method FindById(id: string) returns (r: Outcome<Option<Document>>)
      ensures r == FindByIdOp(Snapshot(), id)
    {
      r := FindByIdOp(Snapshot(), id);
    }

    method Find(conds: Record) returns (r: Outcome<seq<Document>>)
      ensures r == FindOp(Snapshot(), conds)
    {
      r := FindOp(Snapshot(), conds);
    }

    method Create(fields: Record) returns (r: Outcome<Document>)
      modifies this
      ensures (r, Snapshot()) == CreateOp(kind, old(Snapshot()), fields)
    {
      var (o, s) := CreateOp(kind, Snapshot(), fields);
      r := o;
      docs, nextId := s.docs, s.nextId;
    }

    method UpdateOne(id: string, update: Record) returns (r: Outcome<nat>)
      modifies this
      ensures (r, Snapshot()) == UpdateOneOp(kind, old(Snapshot()), id, update)
    {
      var (o, s) := UpdateOneOp(kind, Snapshot(), id, update);
      r := o;
      docs := s.docs;
    }

    method DeleteOne(conds: Record) returns (r: Outcome<nat>)
      modifies this
      ensures (r, Snapshot()) == DeleteOneOp(old(Snapshot()), conds)
    {
      var (o, s) := DeleteOneOp(Snapshot(), conds);
      r := o;
      docs := s.docs;
    }

    method SaveField(info: Document, field: string, v: Value) returns (r: Outcome<()>)
      modifies this
      ensures (r, Snapshot()) == SaveFieldOp(kind, old(Snapshot()), info, field, v)
    {
      var (o, s) := SaveFieldOp(kind, Snapshot(), info, field, v);
      r := o;
      docs := s.docs;
    }
  }
}
