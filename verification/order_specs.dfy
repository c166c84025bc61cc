/** The order workflow `prepareOrder` of warehouse-app/src/api/warehouseMethods.js,
    with the line items processed one after another. */
module OrderSpecs {
  import opened Js
  import opened ObjectIds
  import opened DocumentStore
  import opened ThriftErrors
  import opened Utils
  import opened HandlerSpecs

  /** One requested line: the item's identifier (`item._id`) and the amount ordered. */
  datatype OrderedItem = OrderedItem(itemId: string, quantity: int)

  /** The per-line object sent to the logistics service. */
  datatype ShippingDescriptor =
    ShippingDescriptor(id: string, height: int, length: int, width: int, price: Value, quantity: int, weight: int)

  /** The JSON body of the call to the logistics service's order endpoint. */
  datatype OrderPayload = OrderPayload(user: Record, order: seq<ShippingDescriptor>)

  /** `user.id = user._id; delete user._id;` */
  function RenameUserId(user: Record): (r: Record)
    ensures "_id" !in r && "id" in r && r["id"] == Get(user, "_id")
    ensures r.Keys == user.Keys - {"_id"} + {"id"}
    ensures forall k :: k in user && k != "_id" && k != "id" ==> r[k] == user[k]
  {
    user["id" := Get(user, "_id")] - {"_id"}
  }

  function MissingItemMessage(itemId: string): string
  {
    "Item with id " + itemId + " wasn't found."
  }

  /** `info.quantity -= k` yields a number when the stored quantity is a number
      or null (which JavaScript reads as 0); anything else yields NaN. */
  predicate Decrementable(v: Value)
  {
    v.Num? || v.Null?
  }

  /** The number JavaScript reads from a decrementable quantity: `null` reads as 0. */
  function AsNumber(v: Value): (n: int)
    ensures v.Num? ==> n == v.n
    ensures v.Null? ==> n == 0
  {
    if v.Num? then v.n else 0
  }

  /** What saving a NaN quantity raises: the Int32 path does not cast it. */
  const QuantityCastFailure := Failure("ValidationError", None, "item validation failed: quantity is not a number")

  /** The descriptor of one line: fixed dimensions 10 x 10 x 10, weight 100, the
      stored item's price and the requested quantity. */
  function Descriptor(line: OrderedItem, price: Value): (d: ShippingDescriptor)
    ensures d.id == line.itemId && d.quantity == line.quantity && d.price == price
    ensures d.height == 10 && d.length == 10 && d.width == 10 && d.weight == 100
  {
    ShippingDescriptor(line.itemId, 10, 10, 10, price, line.quantity, 100)
  }

  /** One line: look the item up, decrement its stored quantity by the requested
      amount and save it, and build the line's descriptor. With the store up and
      the item available, that is the line's descriptor and the item's quantity
      lowered by the amount requested; otherwise a failure and no change. */
  function ReserveLine(s: Store, line: OrderedItem): (r: (Outcome<ShippingDescriptor>, Store))
    ensures s.connected && Available(s, line) ==>
      var oid := ParseId(line.itemId).value;
      r == (Returned(Descriptor(line, Get(s.docs[oid], "price"))), Decremented(s, oid, line.quantity))
    ensures !(s.connected && Available(s, line)) ==> r.0.Threw? && r.1 == s
  {
    match FindByIdOp(s, line.itemId)
    case Threw(e) => (Threw(e), s)
    case Returned(None) => (Threw(EntityNotFoundError(MissingItemMessage(line.itemId))), s)
    case Returned(Some(info)) =>
      var q := Get(info.fields, "quantity");
      if !Decrementable(q) then (Threw(QuantityCastFailure), s)
      else
        SavableIff(info.fields, AsNumber(q) - line.quantity);
        var (saved, s') := SaveFieldOp(Item, s, info, "quantity", Num(AsNumber(q) - line.quantity));
        match saved
        case Threw(e) => (Threw(e), s')
        case Returned(_) => (Returned(Descriptor(line, Get(info.fields, "price"))), s')
  }

  /** All lines in order, stopping at the first that fails; what the lines before
      it saved stays saved. */
  function Reserve(s: Store, lines: seq<OrderedItem>): (r: (Outcome<seq<ShippingDescriptor>>, Store))
    ensures r.0.Returned? ==> |r.0.value| == |lines|
    decreases |lines|
  {
    if lines == [] then (Returned([]), s)
    else
      var (done, s1) := Reserve(s, lines[..|lines| - 1]);
      match done
      case Threw(e) => (Threw(e), s1)
      case Returned(ds) =>
        var (d, s2) := ReserveLine(s1, lines[|lines| - 1]);
        match d
        case Threw(e) => (Threw(e), s2)
        case Returned(v) => (Returned(ds + [v]), s2)
  }

  /** The whole handler: rename the user's identifier, reserve every line, then
      post the user and the descriptors to the logistics service, whose call fails
      with `logistics` when that is given. Also answers what was posted, if anything. */
  function PrepareOrderResult(s: Store, user: Record, lines: seq<OrderedItem>, logistics: Option<Failure>)
    : (r: (Result<()>, Option<OrderPayload>, Store))
    ensures r.2 == Reserve(s, lines).1
    ensures r.1.Some? <==> Reserve(s, lines).0.Returned?
    ensures r.1.Some? ==> r.1.value == OrderPayload(RenameUserId(user), Reserve(s, lines).0.value)
    ensures r.0.Ok? <==> Reserve(s, lines).0.Returned? && logistics.None?
    ensures Reserve(s, lines).0.Threw? ==> r.0 == ThrowThriftError(Reserve(s, lines).0.error)
    ensures Reserve(s, lines).0.Returned? && logistics.Some? ==> r.0 == ThrowThriftError(logistics.value)
  {
    var (done, s') := Reserve(s, lines);
    match done
    case Threw(e) => (ThrowThriftError(e), None, s')
    case Returned(ds) =>
      var payload := OrderPayload(RenameUserId(user), ds);
      match logistics
      case None => (Ok(()), Some(payload), s')
      case Some(e) => (ThrowThriftError(e), Some(payload), s')
  }

  /** The line's item exists, its quantity can be decremented, and the record with
      the decremented quantity passes the Item schema's required validators. */
  predicate Available(s: Store, line: OrderedItem)
  {
    && ParseId(line.itemId).Some?
    && ParseId(line.itemId).value in s.docs
    && var rec := s.docs[ParseId(line.itemId).value];
    && Decrementable(Get(rec, "quantity"))
    && Savable(rec)
  }

  /** The Item schema's required fields other than `quantity` are filled in. */
  predicate Savable(rec: Record)
  {
    forall f :: f in RequiredFields(Item) - {"quantity"} ==> f in rec && rec[f] != Null && rec[f] != Undefined && rec[f] != Str("")
  }

  /** With a number written into `quantity`, a record passes the Item validators exactly
      when its other required fields are filled in. */
  lemma SavableIff(rec: Record, n: int)
    ensures Satisfies(Item, rec["quantity" := Num(n)]) <==> Savable(rec)
  {
    var t := rec["quantity" := Num(n)];
    if Savable(rec) {
      forall f | f in RequiredFields(Item)
        ensures f in t && t[f] != Null && t[f] != Undefined && t[f] != Str("")
      {
        if f != "quantity" {
          assert f in RequiredFields(Item) - {"quantity"};
        }
      }
    }
    if Satisfies(Item, t) {
      forall f | f in RequiredFields(Item) - {"quantity"}
        ensures f in rec && rec[f] != Null && rec[f] != Undefined && rec[f] != Str("")
      {
        assert f in RequiredFields(Item);
      }
    }
  }

  predicate Mentions(lines: seq<OrderedItem>, oid: ObjectId)
    decreases |lines|
  {
    lines != [] && (Mentions(lines[..|lines| - 1], oid) || ParseId(lines[|lines| - 1].itemId) == Some(oid))
  }

  /** The total amount the lines request of item `oid`. */
  function Requested(lines: seq<OrderedItem>, oid: ObjectId): (n: int)
    ensures !Mentions(lines, oid) ==> n == 0
    decreases |lines|
  {
    if lines == [] then 0
    else
      var last := lines[|lines| - 1];
      Requested(lines[..|lines| - 1], oid) + (if ParseId(last.itemId) == Some(oid) then last.quantity else 0)
  }

  /** `t` differs from `s` at most in stored quantities, and a quantity that could
      be decremented still can. */
  predicate OnlyQuantities(s: Store, t: Store)
  {
    && t.docs.Keys == s.docs.Keys
    && t.nextId == s.nextId && t.connected == s.connected && t.clock == s.clock
    && forall oid :: oid in s.docs ==>
         && t.docs[oid].Keys == s.docs[oid].Keys
         && (forall f :: f in s.docs[oid] && f != "quantity" ==> t.docs[oid][f] == s.docs[oid][f])
         && Decrementable(Get(t.docs[oid], "quantity")) == Decrementable(Get(s.docs[oid], "quantity"))
  }

  lemma OnlyQuantitiesTransitive(a: Store, b: Store, c: Store)
    requires OnlyQuantities(a, b) && OnlyQuantities(b, c)
    ensures OnlyQuantities(a, c)
  {
  }

  lemma DecrementedOnlyQuantities(s: Store, oid: ObjectId, k: int)
    requires oid in s.docs && Decrementable(Get(s.docs[oid], "quantity"))
    ensures OnlyQuantities(s, Decremented(s, oid, k))
  {
  }

  lemma ReserveLineOnlyQuantities(s: Store, line: OrderedItem)
    ensures OnlyQuantities(s, ReserveLine(s, line).1)
  {
    if s.connected && Available(s, line) {
      DecrementedOnlyQuantities(s, ParseId(line.itemId).value, line.quantity);
    }
  }

  /** Reserving changes no record but in its quantity: no record is created or
      removed, and no other field changes. */
  lemma {:induction false} ReserveOnlyQuantities(s: Store, lines: seq<OrderedItem>)
    ensures OnlyQuantities(s, Reserve(s, lines).1)
    decreases |lines|
  {
    if lines != [] {
      var init := lines[..|lines| - 1];
      ReserveOnlyQuantities(s, init);
      var s1 := Reserve(s, init).1;
      ReserveLineOnlyQuantities(s1, lines[|lines| - 1]);
      OnlyQuantitiesTransitive(s, s1, ReserveLine(s1, lines[|lines| - 1]).1);
    }
  }

  /** `s` with the quantity of record `oid` lowered by `k`. */
  function Decremented(s: Store, oid: ObjectId, k: int): Store
    requires oid in s.docs
  {
    s.(docs := s.docs[oid := s.docs[oid]["quantity" := Num(AsNumber(Get(s.docs[oid], "quantity")) - k)]])
  }

  /** Whether a line's item is available does not depend on its stored quantity
      beyond its decrementability, so changes that touch only quantities keep it. */
  lemma AvailableOnlyQuantities(s: Store, t: Store, line: OrderedItem)
    requires OnlyQuantities(s, t)
    ensures Available(s, line) == Available(t, line)
  {
    if ParseId(line.itemId).Some? && ParseId(line.itemId).value in s.docs {
      var oid := ParseId(line.itemId).value;
      var a := s.docs[oid];
      var b := t.docs[oid];
      forall f | f in RequiredFields(Item) - {"quantity"}
        ensures f in a <==> f in b
        ensures f in a ==> a[f] == b[f]
      {
      }
    }
  }

  lemma PriceOnlyQuantities(s: Store, t: Store, oid: ObjectId)
    requires OnlyQuantities(s, t) && oid in s.docs
    ensures Get(t.docs[oid], "price") == Get(s.docs[oid], "price")
  {
  }

  /** Reserving succeeds exactly when the store is reachable (or there is nothing to
      do) and every line's item exists with a quantity that can be decremented. */
  lemma {:induction false} ReserveSucceedsIff(s: Store, lines: seq<OrderedItem>)
    ensures Reserve(s, lines).0.Returned? <==>
      (lines == [] || s.connected) && forall i :: 0 <= i < |lines| ==> Available(s, lines[i])
    decreases |lines|
  {
    if lines != [] {
      var init := lines[..|lines| - 1];
      var last := lines[|lines| - 1];
      ReserveSucceedsIff(s, init);
      ReserveOnlyQuantities(s, init);
      var s1 := Reserve(s, init).1;
      AvailableOnlyQuantities(s, s1, last);
      ReserveStep(s, lines);
      AllAvailableSplit(s, lines, init);
    }
  }

  lemma AllAvailableSplit(s: Store, lines: seq<OrderedItem>, init: seq<OrderedItem>)
    requires lines != [] && init == lines[..|lines| - 1]
    ensures (forall i :: 0 <= i < |lines| ==> Available(s, lines[i])) <==>
      (forall i :: 0 <= i < |init| ==> Available(s, init[i])) && Available(s, lines[|lines| - 1])
  {
    assert forall i :: 0 <= i < |init| ==> init[i] == lines[i];
  }

  /** One more line succeeds exactly when the lines before it did and its own
      reservation, on the store they left, does. */
  lemma ReserveStep(s: Store, lines: seq<OrderedItem>)
    requires lines != []
    ensures var (done, s1) := Reserve(s, lines[..|lines| - 1]);
      Reserve(s, lines).0.Returned? <==>
        done.Returned? && s1.connected && Available(s1, lines[|lines| - 1])
  {
  }

  /** After a successful reservation each line has its descriptor, in order, with
      the fixed dimensions, the item's stored price and the requested quantity. */
  lemma {:induction false} ReserveDescriptors(s: Store, lines: seq<OrderedItem>)
    requires Reserve(s, lines).0.Returned?
    ensures var ds := Reserve(s, lines).0.value;
      && |ds| == |lines|
      && forall i :: 0 <= i < |lines| ==>
           && Available(s, lines[i])
           && ds[i] == Descriptor(lines[i], Get(s.docs[ParseId(lines[i].itemId).value], "price"))
    decreases |lines|
  {
    ReserveSucceedsIff(s, lines);
    if lines != [] {
      var init := lines[..|lines| - 1];
      var last := lines[|lines| - 1];
      ReserveDescriptors(s, init);
      ReserveOnlyQuantities(s, init);
      var s1 := Reserve(s, init).1;
      AvailableOnlyQuantities(s, s1, last);
      PriceOnlyQuantities(s, s1, ParseId(last.itemId).value);
      assert forall i :: 0 <= i < |init| ==> init[i] == lines[i];
    }
  }

  /** After a successful reservation every requested item's stored quantity has
      dropped by the total requested of it, with no lower bound, and every other
      record is as it was. */
  lemma {:induction false} ReserveQuantities(s: Store, lines: seq<OrderedItem>)
    requires Reserve(s, lines).0.Returned?
    ensures forall oid :: oid in s.docs ==>
      oid in Reserve(s, lines).1.docs &&
      Reserve(s, lines).1.docs[oid] == RequestedTaken(s, lines, oid)
    decreases |lines|
  {
    ReserveSucceedsIff(s, lines);
    if lines != [] {
      var init := lines[..|lines| - 1];
      var last := lines[|lines| - 1];
      ReserveSucceedsIff(s, init);
      ReserveQuantities(s, init);
      ReserveOnlyQuantities(s, init);
      var s1 := Reserve(s, init).1;
      AvailableOnlyQuantities(s, s1, last);
      ReserveQuantitiesStep(s, s1, Reserve(s, lines).1, lines);
    }
  }

  /** The record `oid` of `s` with its quantity lowered by the total the lines request of it. */
  function RequestedTaken(s: Store, lines: seq<OrderedItem>, oid: ObjectId): Record
    requires oid in s.docs
  {
    if Mentions(lines, oid)
    then s.docs[oid]["quantity" := Num(AsNumber(Get(s.docs[oid], "quantity")) - Requested(lines, oid))]
    else s.docs[oid]
  }

  /** The inductive step of ReserveQuantities: the last line's decrement on top of the earlier ones. */
  lemma ReserveQuantitiesStep(s: Store, s1: Store, t: Store, lines: seq<OrderedItem>)
    requires lines != []
    requires forall oid :: oid in s.docs ==>
      oid in s1.docs && s1.docs[oid] == RequestedTaken(s, lines[..|lines| - 1], oid)
    requires ParseId(lines[|lines| - 1].itemId).Some? && ParseId(lines[|lines| - 1].itemId).value in s1.docs
    requires t == Decremented(s1, ParseId(lines[|lines| - 1].itemId).value, lines[|lines| - 1].quantity)
    ensures forall oid :: oid in s.docs ==> oid in t.docs && t.docs[oid] == RequestedTaken(s, lines, oid)
  {
    var init := lines[..|lines| - 1];
    var last := lines[|lines| - 1];
    forall oid | oid in s.docs
      ensures oid in t.docs && t.docs[oid] == RequestedTaken(s, lines, oid)
    {
      var hit := ParseId(last.itemId) == Some(oid);
      assert Mentions(lines, oid) == (Mentions(init, oid) || hit);
      assert Requested(lines, oid) == Requested(init, oid) + (if hit then last.quantity else 0);
      QuantityStep(s.docs[oid], s1.docs[oid], Mentions(init, oid), Requested(init, oid), hit, last.quantity);
    }
  }

  /** One more line's decrement composes with the decrements before it. */
  lemma QuantityStep(a: Record, b: Record, before: bool, requested: int, hit: bool, k: int)
    requires b == if before then a["quantity" := Num(AsNumber(Get(a, "quantity")) - requested)] else a
    requires !before ==> requested == 0
    ensures (if hit then b["quantity" := Num(AsNumber(Get(b, "quantity")) - k)] else b)
      == if before || hit then a["quantity" := Num(AsNumber(Get(a, "quantity")) - (requested + if hit then k else 0))] else a
  {
  }

  /** Once a prefix of the lines has failed, the later lines are not processed. */
  lemma {:induction false} ReserveStopsAtFailure(s: Store, lines: seq<OrderedItem>, k: nat)
    requires k <= |lines| && Reserve(s, lines[..k]).0.Threw?
    ensures Reserve(s, lines) == Reserve(s, lines[..k])
    decreases |lines|
  {
    if k < |lines| {
      var init := lines[..|lines| - 1];
      assert init[..k] == lines[..k];
      ReserveStopsAtFailure(s, init, k);
    } else {
      assert lines[..k] == lines;
    }
  }

  /** When line `j` names an item the store does not hold and the lines before it
      are all available, the order fails with that line's not-found error and nothing
      is posted; the decrements of the lines before it stay saved (no rollback). */
  lemma PrepareOrderMissingItem(s: Store, user: Record, lines: seq<OrderedItem>, logistics: Option<Failure>, j: nat)
    requires s.connected && j < |lines|
    requires forall i :: 0 <= i < j ==> Available(s, lines[i])
    requires ParseId(lines[j].itemId).Some? && ParseId(lines[j].itemId).value !in s.docs
    ensures PrepareOrderResult(s, user, lines, logistics)
      == (NotFound(MissingItemMessage(lines[j].itemId)), None, Reserve(s, lines[..j]).1)
    ensures Reserve(s, lines[..j]).0.Returned?
  {
    var pre := lines[..j];
    assert forall i :: 0 <= i < |pre| ==> pre[i] == lines[i];
    ReserveSucceedsIff(s, pre);
    ReserveOnlyQuantities(s, pre);
    assert lines[..j + 1][..j] == pre;
    ReserveStopsAtFailure(s, lines, j + 1);
  }

  /** When every line is available and the logistics call succeeds, the order
      succeeds, posts the renamed user with one descriptor per line, and leaves
      every requested item's quantity decremented by the total requested and
      every other record as it was. */
  lemma PrepareOrderCommits(s: Store, user: Record, lines: seq<OrderedItem>)
    requires lines == [] || s.connected
    requires forall i :: 0 <= i < |lines| ==> Available(s, lines[i])
    ensures var (r, sent, t) := PrepareOrderResult(s, user, lines, None);
      && r == Ok(())
      && sent.Some? && sent.value.user == RenameUserId(user) && |sent.value.order| == |lines|
      && (forall i :: 0 <= i < |lines| ==>
            && Available(s, lines[i])
            && sent.value.order[i] == Descriptor(lines[i], Get(s.docs[ParseId(lines[i].itemId).value], "price")))
      && (forall oid :: oid in s.docs ==> oid in t.docs && t.docs[oid] == RequestedTaken(s, lines, oid))
  {
    ReserveSucceedsIff(s, lines);
    ReserveDescriptors(s, lines);
    ReserveQuantities(s, lines);
    var (done, t) := Reserve(s, lines);
    assert PrepareOrderResult(s, user, lines, None) == (Ok(()), Some(OrderPayload(RenameUserId(user), done.value)), t);
  }

  /** A failing logistics call fails the order with that failure's classification,
      after the payload was posted, and the decrements stay saved (no rollback). */
  lemma PrepareOrderLogisticsFailure(s: Store, user: Record, lines: seq<OrderedItem>, e: Failure)
    requires Reserve(s, lines).0.Returned?
    ensures PrepareOrderResult(s, user, lines, Some(e))
      == (ThrowThriftError(e), Some(OrderPayload(RenameUserId(user), Reserve(s, lines).0.value)), Reserve(s, lines).1)
  {
  }

  /** One line under the schedule `Promise.all` allows in which every lookup
      resolves before any save: the quantity is read from the store as it was
      (`seen`) and the decremented value is written into `current`. */
  function RacedLine(seen: Store, current: Store, line: OrderedItem): (r: Store)
    ensures r.docs.Keys == current.docs.Keys && r.connected == current.connected
    ensures forall oid :: oid in current.docs && ParseId(line.itemId) != Some(oid) ==> r.docs[oid] == current.docs[oid]
    ensures seen.connected && current.connected && Available(seen, line) && ParseId(line.itemId).value in current.docs ==>
      var oid := ParseId(line.itemId).value;
      r.docs[oid] == current.docs[oid]["quantity" := Num(AsNumber(Get(seen.docs[oid], "quantity")) - line.quantity)]
  {
    match FindByIdOp(seen, line.itemId)
    case Returned(Some(info)) =>
      var q := Get(info.fields, "quantity");
      if Decrementable(q) then SaveFieldOp(Item, current, info, "quantity", Num(AsNumber(q) - line.quantity)).1
      else current
    case _ => current
  }

  /** The store after all lines under that schedule, saves landing in line order. */
  function RacedReserve(seen: Store, lines: seq<OrderedItem>): (r: Store)
    ensures r.docs.Keys == seen.docs.Keys && r.connected == seen.connected
    decreases |lines|
  {
    if lines == [] then seen
    else RacedLine(seen, RacedReserve(seen, lines[..|lines| - 1]), lines[|lines| - 1])
  }

  /** A stored item: 10 bolts at price 5. */
  const Bolts: Record := map["name" := Str("bolt"), "price" := Num(5), "arrivalDate" := Num(0), "quantity" := Num(10)]

  /** Two lines for the same item in one order: with stored quantity 10 and
      requests 3 and 4, the raced schedule leaves 6 (the first decrement is
      overwritten), where the sequential reservation leaves 10 - 3 - 4 = 3. */
  lemma RacedReserveLosesDecrement()
    ensures var s := Store(map[ObjectId(0) := Bolts], 1, true, 0);
      var lines := [OrderedItem("0", 3), OrderedItem("0", 4)];
      && ObjectId(0) in RacedReserve(s, lines).docs
      && Get(RacedReserve(s, lines).docs[ObjectId(0)], "quantity") == Num(6)
      && Reserve(s, lines).0.Returned?
      && ObjectId(0) in Reserve(s, lines).1.docs
      && Get(Reserve(s, lines).1.docs[ObjectId(0)], "quantity") == Num(3)
  {
    var s := Store(map[ObjectId(0) := Bolts], 1, true, 0);
    var lines := [OrderedItem("0", 3), OrderedItem("0", 4)];
    var oid := ObjectId(0);
    assert ParseId("0") == Some(oid);
    assert Available(s, lines[0]) && Available(s, lines[1]);
    var first := lines[..1];
    assert first[..0] == [] && first[0] == lines[0];
    assert lines[..1] == first;
    var r1 := RacedReserve(s, first);
    assert RacedReserve(s, first[..0]) == s;
    assert r1 == RacedLine(s, RacedReserve(s, first[..0]), first[0]);
    assert r1.docs[oid] == Bolts["quantity" := Num(7)];
    assert RacedReserve(s, lines).docs[oid] == r1.docs[oid]["quantity" := Num(6)];
    ReserveSucceedsIff(s, lines);
    ReserveQuantities(s, lines);
    assert Requested(first, oid) == 3;
    assert Requested(lines, oid) == 7;
    assert Mentions(lines, oid);
  }

  /** An update may blank a required field, since it runs no validators; the
      record then fails the validation of the save that reserving it runs, so
      ordering that item is a validation error that changes nothing. */
  lemma UpdateThenReserveIsValidation(s: Store, id: string, k: int)
    requires UpdateByIdResult(Item, s, id, map["name" := Str("")]).0.Ok?
    requires Decrementable(Get(s.docs[ParseId(id).value], "quantity"))
    ensures var t := UpdateByIdResult(Item, s, id, map["name" := Str("")]).1;
      ReserveLine(t, OrderedItem(id, k)) == (Threw(ValidationFailure(Item)), t)
  {
  }
}
