/** The RPC handlers of warehouse-app/src/api/warehouseMethods.js over the two
    collections, each proved to return and store what HandlerSpecs and
    OrderSpecs say. */
module WarehouseMethods {
  import opened Js
  import opened Utils
  import opened ObjectIds
  import opened DocumentStore
  import opened ThriftErrors
  import opened HandlerSpecs
  import opened OrderSpecs

  /** The getById shape, on either collection. */
  method GetById(c: Collection, id: string) returns (r: Result<Document>)
    ensures r == GetByIdResult(c.kind, c.Snapshot(), id)
  {
    var found := c.FindById(id);
    if found.Threw? {
      r := ThrowThriftError(found.error);
    } else if found.value.None? {
      r := ThrowThriftError(EntityNotFoundError(GetByIdNotFoundMessage(c.kind, id)));
    } else {
      r := Ok(found.value.value);
    }
  }

  /** The find shape: sanitizes the caller's search fields in place first. */
  method Find(c: Collection, searchFields: Dto) returns (r: Result<seq<Document>>)
    requires c.Valid()
    modifies searchFields
    ensures searchFields.fields == WithoutNulls(old(searchFields.fields))
    ensures r == FindResult(c.kind, c.Snapshot(), old(searchFields.fields))
  {
    var _ := FilterOutNullValues(searchFields);
    var found := c.Find(searchFields.fields);
    if found.Threw? {
      r := ThrowThriftError(found.error);
    } else if found.value == [] {
      r := ThrowThriftError(EntityNotFoundError(FindNotFoundMessage(c.kind)));
    } else {
      r := Ok(found.value);
    }
  }

  /** The insert shape: sanitizes the caller's record in place first. */
  method Insert(c: Collection, record: Dto) returns (r: Result<string>)
    requires c.Valid()
    modifies record, c
    ensures c.Valid()
    ensures record.fields == WithoutNulls(old(record.fields))
    ensures (r, c.Snapshot()) == InsertResult(c.kind, old(c.Snapshot()), old(record.fields))
  {
    var _ := FilterOutNullValues(record);
    var created := c.Create(record.fields);
    if created.Threw? {
      r := ThrowThriftError(created.error);
    } else {
      r := Ok(IdToString(created.value.id));
    }
  }

  /** The updateById shape: sanitizes the caller's record in place first. */
  method UpdateById(c: Collection, id: string, record: Dto) returns (r: Result<()>)
    requires c.Valid()
    modifies record, c
    ensures c.Valid()
    ensures record.fields == WithoutNulls(old(record.fields))
    ensures (r, c.Snapshot()) == UpdateByIdResult(c.kind, old(c.Snapshot()), id, old(record.fields))
  {
    var _ := FilterOutNullValues(record);
    var result := c.UpdateOne(id, record.fields);
    if result.Threw? {
      r := ThrowThriftError(result.error);
    } else if result.value == 0 {
      r := ThrowThriftError(EntityNotFoundError(UpdateNotFoundMessage(c.kind, id)));
    } else {
      r := Ok(());
    }
  }

  /** The delete shape: sanitizes the caller's conditions in place first. */
  method Delete(c: Collection, conditions: Dto) returns (r: Result<()>)
    requires c.Valid()
    modifies conditions, c
    ensures c.Valid()
    ensures conditions.fields == WithoutNulls(old(conditions.fields))
    ensures (r, c.Snapshot()) == DeleteResult(c.kind, old(c.Snapshot()), old(conditions.fields))
  {
    var _ := FilterOutNullValues(conditions);
    var result := c.DeleteOne(conditions.fields);
    if result.Threw? {
      r := ThrowThriftError(result.error);
    } else if result.value == 0 {
      r := ThrowThriftError(EntityNotFoundError(DeleteNotFoundMessage(c.kind)));
    } else {
      r := Ok(());
    }
  }

  /** The service: the Manufacturer and Item collections and the eleven RPC methods. */
  class Warehouse {
    const manufacturers: Collection
    const items: Collection

    ghost predicate Valid()
      reads this, manufacturers, items
    {
      && manufacturers != items
      && manufacturers.kind == Manufacturer && items.kind == Item
      && manufacturers.Valid() && items.Valid()
    }

    constructor (clock: int)
      ensures Valid() && fresh(manufacturers) && fresh(items)
      ensures manufacturers.Snapshot() == Store(map[], 0, true, clock)
      ensures items.Snapshot() == Store(map[], 0, true, clock)
    {
      manufacturers := new Collection(Manufacturer, clock);
      items := new Collection(Item, clock);
    }

    method GetManufacturerById(id: string) returns (r: Result<Document>)
      requires Valid()
      ensures r == GetByIdResult(Manufacturer, manufacturers.Snapshot(), id)
    {
      r := GetById(manufacturers, id);
    }

    method FindManufacturers(searchFields: Dto) returns (r: Result<seq<Document>>)
      requires Valid()
      modifies searchFields
      ensures searchFields.fields == WithoutNulls(old(searchFields.fields))
      ensures r == FindResult(Manufacturer, manufacturers.Snapshot(), old(searchFields.fields))
    {
      r := Find(manufacturers, searchFields);
    }

    method InsertManufacturer(manufacturer: Dto) returns (r: Result<string>)
      requires Valid()
      modifies manufacturer, manufacturers
      ensures Valid()
      ensures manufacturer.fields == WithoutNulls(old(manufacturer.fields))
      ensures (r, manufacturers.Snapshot()) == InsertResult(Manufacturer, old(manufacturers.Snapshot()), old(manufacturer.fields))
    {
      r := Insert(manufacturers, manufacturer);
    }

    method UpdateManufacturerById(id: string, manufacturer: Dto) returns (r: Result<()>)
      requires Valid()
      modifies manufacturer, manufacturers
      ensures Valid()
      ensures manufacturer.fields == WithoutNulls(old(manufacturer.fields))
      ensures (r, manufacturers.Snapshot()) == UpdateByIdResult(Manufacturer, old(manufacturers.Snapshot()), id, old(manufacturer.fields))
    {
      r := UpdateById(manufacturers, id, manufacturer);
    }

    method DeleteManufacturer(conditions: Dto) returns (r: Result<()>)
      requires Valid()
      modifies conditions, manufacturers
      ensures Valid()
      ensures conditions.fields == WithoutNulls(old(conditions.fields))
      ensures (r, manufacturers.Snapshot()) == DeleteResult(Manufacturer, old(manufacturers.Snapshot()), old(conditions.fields))
    {
      r := Delete(manufacturers, conditions);
    }

    method GetItemById(id: string) returns (r: Result<Document>)
      requires Valid()
      ensures r == GetByIdResult(Item, items.Snapshot(), id)
    {
      r := GetById(items, id);
    }

    method FindItems(searchFields: Dto) returns (r: Result<seq<Document>>)
      requires Valid()
      modifies searchFields
      ensures searchFields.fields == WithoutNulls(old(searchFields.fields))
      ensures r == FindResult(Item, items.Snapshot(), old(searchFields.fields))
    {
      r := Find(items, searchFields);
    }

    method InsertItem(item: Dto) returns (r: Result<string>)
      requires Valid()
      modifies item, items
      ensures Valid()
      ensures item.fields == WithoutNulls(old(item.fields))
      ensures (r, items.Snapshot()) == InsertResult(Item, old(items.Snapshot()), old(item.fields))
    {
      r := Insert(items, item);
    }

    method UpdateItemById(id: string, item: Dto) returns (r: Result<()>)
      requires Valid()
      modifies item, items
      ensures Valid()
      ensures item.fields == WithoutNulls(old(item.fields))
      ensures (r, items.Snapshot()) == UpdateByIdResult(Item, old(items.Snapshot()), id, old(item.fields))
    {
      r := UpdateById(items, id, item);
    }

    method DeleteItem(conditions: Dto) returns (r: Result<()>)
      requires Valid()
      modifies conditions, items
      ensures Valid()
      ensures conditions.fields == WithoutNulls(old(conditions.fields))
      ensures (r, items.Snapshot()) == DeleteResult(Item, old(items.Snapshot()), old(conditions.fields))
    {
      r := Delete(items, conditions);
    }

    /** The task `prepareOrder` runs for one line: looks the item up, fails as
        not-found when it is not stored, decrements its stored quantity by the
        requested amount and saves it, and answers the line's descriptor. */
    method ReserveItem(line: OrderedItem) returns (d: Outcome<ShippingDescriptor>)
      requires Valid()
      modifies items
      ensures Valid()
      ensures (d, items.Snapshot()) == ReserveLine(old(items.Snapshot()), line)
    {
      var found := items.FindById(line.itemId);
      if found.Threw? {
        d := Threw(found.error);
      } else if found.value.None? {
        d := Threw(EntityNotFoundError(MissingItemMessage(line.itemId)));
      } else {
        var info := found.value.value;
        var quantity := Get(info.fields, "quantity");
        if !Decrementable(quantity) {
          d := Threw(QuantityCastFailure);
        } else {
          var saved := items.SaveField(info, "quantity", Num(AsNumber(quantity) - line.quantity));
          if saved.Threw? {
            d := Threw(saved.error);
          } else {
            d := Returned(Descriptor(line, Get(info.fields, "price")));
          }
        }
      }
    }

    /** `prepareOrder(user, orderedItems)`: renames the user's identifier in place,
        reserves the lines one after another against the Item collection, then
        posts the order; `logistics` is the failure the post raises, if any, and
        `sent` is what was posted. */
    method PrepareOrder(user: Dto, orderedItems: seq<OrderedItem>, logistics: Option<Failure>)
      returns (r: Result<()>, sent: Option<OrderPayload>)
      requires Valid()
      modifies user, items
      ensures Valid()
      ensures user.fields == RenameUserId(old(user.fields))
      ensures (r, sent, items.Snapshot()) == PrepareOrderResult(old(items.Snapshot()), old(user.fields), orderedItems, logistics)
    {
      user.fields := user.fields["id" := Get(user.fields, "_id")];
      user.fields := user.fields - {"_id"};

      ghost var s0 := items.Snapshot();
      var order: seq<ShippingDescriptor> := [];
      var failure: Option<Failure> := None;
      var i := 0;
      while i < |orderedItems| && failure.None?
        invariant 0 <= i <= |orderedItems|
        invariant Valid()
        invariant user.fields == RenameUserId(old(user.fields))
        invariant items.Snapshot() == Reserve(s0, orderedItems[..i]).1
        invariant Reserve(s0, orderedItems[..i]).0 == if failure.None? then Returned(order) else Threw(failure.value)
      {
        var line := orderedItems[i];
        assert orderedItems[..i + 1][..i] == orderedItems[..i];
        var d := ReserveItem(line);
        if d.Threw? {
          failure := Some(d.error);
        } else {
          order := order + [d.value];
        }
        i := i + 1;
      }
      if failure.Some? {
        ReserveStopsAtFailure(s0, orderedItems, i);
      } else {
        assert orderedItems[..i] == orderedItems;
      }
      if failure.Some? {
        r, sent := ThrowThriftError(failure.value), None;
      } else {
        sent := Some(OrderPayload(user.fields, order));
        match logistics
        case None => r := Ok(());
        case Some(e) => r := ThrowThriftError(e);
      }
    }
  }
}
