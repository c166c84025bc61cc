/** What each CRUD handler of warehouse-app/src/api/warehouseMethods.js returns
    and leaves in the store, for either model; the handlers themselves are the
    methods of WarehouseMethods. */
module HandlerSpecs {
  import opened Js
  import opened Utils
  import opened ObjectIds
  import opened DocumentStore
  import opened ThriftErrors

  function GetByIdNotFoundMessage(kind: Kind, id: string): string
  {
    match kind
    case Manufacturer => "Manufacturer with id " + id + " wasn't found."
    case Item => "No items found."
  }

  function FindNotFoundMessage(kind: Kind): string
  {
    match kind
    case Manufacturer => "No manufacturers found."
    case Item => "No items found."
  }

  function UpdateNotFoundMessage(kind: Kind, id: string): string
  {
    match kind
    case Manufacturer => "Manufacturer with id " + id + " wasn't found."
    case Item => "Item with id " + id + " wasn't found."
  }

  function DeleteNotFoundMessage(kind: Kind): string
  {
    match kind
    case Manufacturer => "Manufacturer with specified conditions wasn't found."
    case Item => "Item with specified conditions wasn't found."
  }

  /** `getManufacturerById(id)` / `getItemById(id)`: the stored record unchanged,
      not-found when no record has that identifier, a database error when the
      identifier does not cast or the store is unreachable. */
  function GetByIdResult(kind: Kind, s: Store, id: string): (r: Result<Document>)
    ensures r.Ok? <==> s.connected && ParseId(id).Some? && ParseId(id).value in s.docs
    ensures r.Ok? ==> r.value == Document(ParseId(id).value, s.docs[ParseId(id).value])
    ensures r.NotFound? <==> s.connected && ParseId(id).Some? && ParseId(id).value !in s.docs
    ensures r.NotFound? ==> r.message == GetByIdNotFoundMessage(kind, id)
    ensures r.Database? <==> !s.connected || ParseId(id).None?
  {
    Catch(
      match FindByIdOp(s, id)
      case Threw(e) => Threw(e)
      case Returned(None) => Threw(EntityNotFoundError(GetByIdNotFoundMessage(kind, id)))
      case Returned(Some(d)) => Returned(d))
  }

  /** `findManufacturers(searchFields)` / `findItems(searchFields)`: with the search
      fields sanitized, every matching record, and not-found instead of an empty answer. */
  function FindResult(kind: Kind, s: Store, searchFields: Record): (r: Result<seq<Document>>)
    requires Consistent(s)
    ensures var c := WithoutNulls(searchFields);
      && (r.Ok? <==> s.connected && IdCasts(c) && AnyMatch(s.docs, c))
      && (r.NotFound? <==> s.connected && IdCasts(c) && !AnyMatch(s.docs, c))
      && (r.Database? <==> !s.connected || !IdCasts(c))
    ensures r.NotFound? ==> r.message == FindNotFoundMessage(kind)
    ensures r.Ok? ==> |r.value| > 0
    ensures r.Ok? ==> forall i :: 0 <= i < |r.value| ==>
      var d := r.value[i]; d.id in s.docs && d.fields == s.docs[d.id] && Matches(d.id, d.fields, WithoutNulls(searchFields))
    ensures r.Ok? ==> forall id :: id in s.docs && Matches(id, s.docs[id], WithoutNulls(searchFields)) ==>
      Document(id, s.docs[id]) in r.value
    ensures r.Ok? ==> forall i, j :: 0 <= i < j < |r.value| ==> r.value[i].id.n < r.value[j].id.n
  {
    var c := WithoutNulls(searchFields);
    MatchingEmptyIff(s, c);
    MatchingCompleteAll(s, c);
    Catch(
      match FindOp(s, c)
      case Threw(e) => Threw(e)
      case Returned(found) =>
        if found == [] then Threw(EntityNotFoundError(FindNotFoundMessage(kind))) else Returned(found))
  }

  /** `insertManufacturer(m)` / `insertItem(i)`: with the record sanitized, the text
      form of the fresh identifier the store assigns, or a validation error (nothing
      stored) when a required field is missing. */
  function InsertResult(kind: Kind, s: Store, fields: Record): (r: (Result<string>, Store))
    ensures var rec := NewRecord(kind, WithoutNulls(fields), s.clock);
      && (r.0.Ok? <==> Satisfies(kind, rec) && s.connected)
      && (r.0.Validation? <==> !Satisfies(kind, rec))
      && (r.0.Database? <==> Satisfies(kind, rec) && !s.connected)
      && (r.0.Ok? ==> r.0.value == IdToString(ObjectId(s.nextId))
                      && r.1 == s.(docs := s.docs[ObjectId(s.nextId) := rec], nextId := s.nextId + 1))
    ensures !r.0.Ok? ==> r.1 == s
    ensures Consistent(s) ==> Consistent(r.1)
  {
    var (o, s') := CreateOp(kind, s, WithoutNulls(fields));
    (Catch(match o case Returned(d) => Returned(IdToString(d.id)) case Threw(e) => Threw(e)), s')
  }

  /** `updateManufacturerById(id, m)` / `updateItemById(id, i)`: with the record
      sanitized, the schema's fields are set on the identified record and nothing
      is returned. Not-found, and no change, when no record has that identifier,
      and also when the sanitized update casts to nothing (the store then answers
      `0`, which has no `n`). A database error when an identifier does not cast,
      the store is unreachable, or the update would change `_id`. */
  function UpdateByIdResult(kind: Kind, s: Store, id: string, fields: Record): (r: (Result<()>, Store))
    ensures var c := WithoutNulls(fields);
      && (r.0.Ok? <==>
            && ParseId(id).Some? && IdCasts(c) && !EmptyUpdate(kind, c) && s.connected
            && ParseId(id).value in s.docs && KeepsId(ParseId(id).value, c))
      && (r.0.NotFound? <==>
            && ParseId(id).Some? && IdCasts(c)
            && (EmptyUpdate(kind, c) || (s.connected && ParseId(id).value !in s.docs)))
      && (r.0.Database? <==>
            || ParseId(id).None? || !IdCasts(c)
            || (!EmptyUpdate(kind, c) && (!s.connected || (ParseId(id).value in s.docs && !KeepsId(ParseId(id).value, c)))))
    ensures r.0.NotFound? ==> r.0.message == UpdateNotFoundMessage(kind, id)
    ensures r.0.Ok? ==> (var oid := ParseId(id).value;
      r.1 == s.(docs := s.docs[oid := s.docs[oid] + Schema(kind, WithoutNulls(fields))]))
    ensures !r.0.Ok? ==> r.1 == s
    ensures Consistent(s) ==> Consistent(r.1)
  {
    var (o, s') := UpdateOneOp(kind, s, id, WithoutNulls(fields));
    (Catch(
      match o
      case Threw(e) => Threw(e)
      case Returned(n) => if n == 0 then Threw(EntityNotFoundError(UpdateNotFoundMessage(kind, id))) else Returned(())),
     s')
  }

  /** `deleteManufacturer(conditions)` / `deleteItem(conditions)`: with the conditions
      sanitized, the first matching record (by identifier) is removed and nothing is
      returned; not-found, and no change, when nothing matches. */
  function DeleteResult(kind: Kind, s: Store, conditions: Record): (r: (Result<()>, Store))
    requires Consistent(s)
    ensures var c := WithoutNulls(conditions);
      && (r.0.Ok? <==> s.connected && IdCasts(c) && AnyMatch(s.docs, c))
      && (r.0.NotFound? <==> s.connected && IdCasts(c) && !AnyMatch(s.docs, c))
      && (r.0.Database? <==> !s.connected || !IdCasts(c))
    ensures r.0.NotFound? ==> r.0.message == DeleteNotFoundMessage(kind)
    ensures r.0.Ok? ==> r.1 == s.(docs := s.docs - {FirstMatch(s, WithoutNulls(conditions))})
    ensures !r.0.Ok? ==> r.1 == s
    ensures Consistent(r.1)
  {
    var c := WithoutNulls(conditions);
    MatchingEmptyIff(s, c);
    FirstMatchIsLowest(s, c);
    var (o, s') := DeleteOneOp(s, c);
    (Catch(
      match o
      case Threw(e) => Threw(e)
      case Returned(n) => if n == 0 then Threw(EntityNotFoundError(DeleteNotFoundMessage(kind))) else Returned(())),
     s')
  }

  /** The identifier an insert returns finds exactly the stored record, which takes
      a fresh identifier and leaves every earlier record as it was. */
  lemma InsertThenGet(kind: Kind, s: Store, fields: Record)
    requires Consistent(s) && InsertResult(kind, s, fields).0.Ok?
    ensures var (r, t) := InsertResult(kind, s, fields);
      && GetByIdResult(kind, t, r.value) == Ok(Document(ObjectId(s.nextId), NewRecord(kind, WithoutNulls(fields), s.clock)))
      && ObjectId(s.nextId) !in s.docs
      && forall id :: id in s.docs ==> id in t.docs && t.docs[id] == s.docs[id]
  {
    IdRoundTrip(ObjectId(s.nextId));
  }

  /** A required field that is absent, null or undefined makes an insert a validation
      error that stores nothing (an Item's `arrivalDate` has a default instead). */
  lemma InsertMissingRequiredIsValidation(kind: Kind, s: Store, fields: Record, f: string)
    requires f in RequiredFields(kind) && !(kind == Item && f == "arrivalDate")
    requires Get(fields, f) == Null || Get(fields, f) == Undefined
    ensures InsertResult(kind, s, fields) == (Validation(ValidationFailure(kind).message), s)
  {
    var rec := NewRecord(kind, WithoutNulls(fields), s.clock);
    assert f in SchemaFields(kind);
    assert !(f in rec && rec[f] != Undefined);
  }

  /** An update whose every field is null sanitizes to nothing, so it is not-found
      and changes nothing, even when the record exists. */
  lemma UpdateOfNullsIsNotFound(kind: Kind, s: Store, id: string, fields: Record)
    requires ParseId(id).Some?
    requires forall k :: k in fields ==> fields[k] == Null
    ensures UpdateByIdResult(kind, s, id, fields) == (NotFound(UpdateNotFoundMessage(kind, id)), s)
  {
    assert WithoutNulls(fields) == map[];
  }

  /** An update whose `_id` names another record is a database error that changes nothing. */
  lemma UpdateChangingIdIsDatabase(kind: Kind, s: Store, id: string, fields: Record, other: ObjectId)
    requires s.connected && ParseId(id).Some? && ParseId(id).value in s.docs
    requires "_id" in fields && fields["_id"] == Str(IdToString(other)) && other != ParseId(id).value
    ensures UpdateByIdResult(kind, s, id, fields) == (Database(ImmutableIdFailure.message), s)
  {
    IdRoundTrip(other);
  }

  /** The record an insert stores has no null field. */
  lemma InsertStoresNoNull(kind: Kind, s: Store, fields: Record)
    requires InsertResult(kind, s, fields).0.Ok?
    ensures NullFree(InsertResult(kind, s, fields).1.docs[ObjectId(s.nextId)])
  {
  }

  /** An update never sets a field to null: a null field of the updated record was already null. */
  lemma UpdateWritesNoNull(kind: Kind, s: Store, id: string, fields: Record)
    requires UpdateByIdResult(kind, s, id, fields).0.Ok?
    ensures var oid := ParseId(id).value; var t := UpdateByIdResult(kind, s, id, fields).1;
      forall f :: f in t.docs[oid] && t.docs[oid][f] == Null ==> f in s.docs[oid] && s.docs[oid][f] == Null
  {
  }

  /** After a successful update, getById finds the old record overlaid with the
      sanitized schema fields of the update. */
  lemma UpdateThenGet(kind: Kind, s: Store, id: string, fields: Record)
    requires UpdateByIdResult(kind, s, id, fields).0.Ok?
    ensures var oid := ParseId(id).value;
      GetByIdResult(kind, UpdateByIdResult(kind, s, id, fields).1, id)
        == Ok(Document(oid, s.docs[oid] + Schema(kind, WithoutNulls(fields))))
  {
  }

  /** After a successful delete on `{_id: id}`, getById of that identifier is not-found. */
  lemma DeleteByIdThenGet(kind: Kind, s: Store, id: string)
    requires Consistent(s) && DeleteResult(kind, s, map["_id" := Str(id)]).0.Ok?
    ensures GetByIdResult(kind, DeleteResult(kind, s, map["_id" := Str(id)]).1, id)
      == NotFound(GetByIdNotFoundMessage(kind, id))
  {
    var c := map["_id" := Str(id)];
    assert WithoutNulls(c) == c;
    var t := DeleteResult(kind, s, c).1;
    var gone := FirstMatch(s, c);
    assert c["_id"] == Str(id);
    assert ParseId(id) == Some(gone);
  }
}
