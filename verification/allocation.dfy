/**
  Reference definitions of what each strategy operation does to the order's fulfillment groups,
  and the properties proved about them: group selection on add, the increment and the
  drain-in-scan-order decrement on update, the item list handed over on removal, and the
  pruning and the quantity invariant checked by verify.
*/
module Allocation {
  import opened Wrappers
  import opened OrderModel

  /** The three IllegalStateException sites of the strategy. */
  datatype StrategyError =
    | NoMatchingGroupItem                    // update: `done` was never set
    | GroupItemsOutOfSync(orderItemId: nat)  // verify: an item refers to an unknown order item
    | NotEnoughGroupItems(orderItemId: nat)  // verify: a non-zero residual for an order item

  // ---------------------------------------------------------------------------------------
  // Adding an item.

  /** The type an order item asks for: the type of its detail record, if it has one. */
  function ResolveFulfillmentType(orderItem: OrderItem): (t: Option<FulfillmentType>)
    ensures orderItem.detail.None? ==> t.None?
    ensures orderItem.detail.Some? ==> t == orderItem.detail.value.fulfillmentType
  {
    match orderItem.detail
    case None => None
    case Some(d) => d.fulfillmentType
  }

  /** The type used to choose a group: PHYSICAL_PICKUP_OR_SHIP is ambiguous and becomes PHYSICAL_SHIP. */
  function TargetType(orderItem: OrderItem): (t: Option<FulfillmentType>)
    ensures t != Some(PhysicalPickupOrShip)
    ensures ResolveFulfillmentType(orderItem) == Some(PhysicalPickupOrShip) ==> t == Some(PhysicalShip)
    ensures ResolveFulfillmentType(orderItem) != Some(PhysicalPickupOrShip) ==> t == ResolveFulfillmentType(orderItem)
  {
    match ResolveFulfillmentType(orderItem)
    case None => None
    case Some(ft) => if ft == PhysicalPickupOrShip then Some(PhysicalShip) else Some(ft)
  }

  /** The index of the first group whose type is `t` (for `t == None`, the first untyped group),
      or `|groups|` when no group has that type. */
  function FirstGroupOfType(groups: seq<FulfillmentGroup>, t: Option<FulfillmentType>): (r: nat)
    ensures r <= |groups|
    ensures r < |groups| ==> groups[r].fulfillmentType == t
    ensures forall i :: 0 <= i < r ==> groups[i].fulfillmentType != t
  {
    if groups == [] then 0
    else if groups[0].fulfillmentType == t then 0
    else
      var r := 1 + FirstGroupOfType(groups[1..], t);
      assert forall i :: 1 <= i < r ==> groups[i] == groups[1..][i - 1];
      r
  }

  /** The groups after `fgi` is added for an order item whose target type is `t`: to the first group
      of that type, or to a new group of that type appended at the end when there is none. */
  function AddItem(groups: seq<FulfillmentGroup>, t: Option<FulfillmentType>, fgi: FulfillmentGroupItem): seq<FulfillmentGroup>
  {
    var g := FirstGroupOfType(groups, t);
    var withTarget := if g < |groups| then groups else groups + [FulfillmentGroup(t, [])];
    withTarget[g := withTarget[g].(groupItems := withTarget[g].groupItems + [fgi])]
  }

  /** Where an added item goes: the first group of its type receives it at the end of its list, a new
      group is created only when no group has the type, and no existing group moves or changes otherwise. */
  lemma AddItemPlacement(groups: seq<FulfillmentGroup>, t: Option<FulfillmentType>, fgi: FulfillmentGroupItem)
    ensures var r := AddItem(groups, t, fgi);
      && (|r| == |groups| <==> exists i :: 0 <= i < |groups| && groups[i].fulfillmentType == t)
      && (|r| == |groups| + 1 <==> forall i :: 0 <= i < |groups| ==> groups[i].fulfillmentType != t)
      && (|r| == |groups| + 1 ==> r[|groups|] == FulfillmentGroup(t, [fgi]))
      && forall i :: 0 <= i < |groups| ==>
           && r[i].fulfillmentType == groups[i].fulfillmentType
           && r[i].groupItems == if i == FirstGroupOfType(groups, t) then groups[i].groupItems + [fgi] else groups[i].groupItems
  {
    var g := FirstGroupOfType(groups, t);
    if g < |groups| {
      assert groups[g].fulfillmentType == t;
    }
  }

  /** Adding an item never puts it into a group tagged PHYSICAL_PICKUP_OR_SHIP and never creates such a group. */
  lemma AddNeverUsesPickupOrShip(groups: seq<FulfillmentGroup>, orderItem: OrderItem, fgi: FulfillmentGroupItem)
    ensures var r := AddItem(groups, TargetType(orderItem), fgi);
      forall i :: 0 <= i < |r| && r[i].fulfillmentType == Some(PhysicalPickupOrShip) ==> i < |groups| && r[i] == groups[i]
  {
    AddItemPlacement(groups, TargetType(orderItem), fgi);
  }

  /** Adding `fgi` raises the allocated total of its order item by its quantity and leaves every other total alone. */
  lemma AddItemAllocates(groups: seq<FulfillmentGroup>, t: Option<FulfillmentType>, fgi: FulfillmentGroupItem, id: nat)
    ensures Allocated(AddItem(groups, t, fgi), id) ==
      Allocated(groups, id) + (if fgi.orderItemId == id then fgi.quantity else 0)
  {
    var g := FirstGroupOfType(groups, t);
    var withTarget := if g < |groups| then groups else groups + [FulfillmentGroup(t, [])];
    if g == |groups| {
      AllocatedAppend(groups, FulfillmentGroup(t, []), id);
    }
    AllocatedReplaceGroup(withTarget, g, withTarget[g].groupItems + [fgi], id);
    ItemsTotalAppend(withTarget[g].groupItems, [fgi], id);
    assert [fgi][1..] == [];
  }

  /** Adding an order item and allocating its whole quantity keeps the order balanced. */
  lemma AddKeepsBalance(orderItems: seq<OrderItem>, groups: seq<FulfillmentGroup>, orderItem: OrderItem)
    requires Balanced(orderItems, groups)
    ensures Balanced(orderItems + [orderItem],
                     AddItem(groups, TargetType(orderItem), FulfillmentGroupItem(orderItem.id, orderItem.quantity)))
  {
    var items' := orderItems + [orderItem];
    var fgi := FulfillmentGroupItem(orderItem.id, orderItem.quantity);
    var r := AddItem(groups, TargetType(orderItem), fgi);
    assert items'[..|orderItems|] == orderItems;
    assert OrderItemIds(items') == OrderItemIds(orderItems) + {orderItem.id} by {
      assert forall oi :: oi in items' <==> oi in orderItems || oi == orderItem;
    }
    AddItemPlacement(groups, TargetType(orderItem), fgi);
    forall id | id in OrderItemIds(items')
      ensures OrderedQuantity(items', id) == Allocated(r, id)
    {
      AddItemAllocates(groups, TargetType(orderItem), fgi, id);
      if id !in OrderItemIds(orderItems) {
        OrderedQuantityAbsent(orderItems, id);
        AllocatedAbsent(groups, OrderItemIds(orderItems), id);
      }
    }
    forall i, j | 0 <= i < |r| && 0 <= j < |r[i].groupItems|
      ensures r[i].groupItems[j].orderItemId in OrderItemIds(items')
    {
      if i < |groups| && j < |groups[i].groupItems| {
        assert r[i].groupItems[j] == groups[i].groupItems[j];
      }
    }
  }

  lemma {:induction false} OrderedQuantityAbsent(orderItems: seq<OrderItem>, id: nat)
    requires id !in OrderItemIds(orderItems)
    ensures OrderedQuantity(orderItems, id) == 0
  {
    if orderItems != [] {
      var n := |orderItems| - 1;
      assert orderItems[n] in orderItems;
      assert OrderItemIds(orderItems[..n]) <= OrderItemIds(orderItems) by {
        assert forall oi :: oi in orderItems[..n] ==> oi in orderItems;
      }
      OrderedQuantityAbsent(orderItems[..n], id);
    }
  }

  /** An order item that no allocation refers to has nothing allocated. */
  lemma {:induction false} AllocatedAbsent(groups: seq<FulfillmentGroup>, ids: set<nat>, id: nat)
    requires AllocationsKnown(groups, ids) && id !in ids
    ensures Allocated(groups, id) == 0
    decreases |groups|
  {
    if groups != [] {
      var n := |groups| - 1;
      assert AllocationsKnown(groups[..n], ids) by {
        forall i, j | 0 <= i < n && 0 <= j < |groups[..n][i].groupItems|
          ensures groups[..n][i].groupItems[j].orderItemId in ids
        {
          assert groups[..n][i] == groups[i];
        }
      }
      AllocatedAbsent(groups[..n], ids, id);
      ItemsTotalAbsent(groups[n].groupItems, id);
    }
  }

  lemma {:induction false} ItemsTotalAbsent(items: seq<FulfillmentGroupItem>, id: nat)
    requires forall j :: 0 <= j < |items| ==> items[j].orderItemId != id
    ensures ItemsTotal(items, id) == 0
  {
    if items != [] {
      ItemsTotalAbsent(items[1..], id);
    }
  }

  // ---------------------------------------------------------------------------------------
  // Updating an item's quantity.

  /** An item whose quantity the decrement lowers in place, and its new quantity. */
  datatype Reduction = Reduction(target: ItemRef, newQuantity: int)

  /** How a decrement ends: no item brought the scan to `done`, or some items are to be deleted
      and possibly one item is reduced in place. */
  datatype Drain = Exhausted | Drained(deleted: seq<ItemRef>, reduced: Option<Reduction>)

  function Prepend(deleted: seq<ItemRef>, d: Drain): Drain
  {
    match d
    case Exhausted => Exhausted
    case Drained(more, reduced) => Drained(deleted + more, reduced)
  }

  lemma PrependTwice(a: seq<ItemRef>, b: seq<ItemRef>, d: Drain)
    ensures Prepend(a, Prepend(b, d)) == Prepend(a + b, d)
  {
    if d.Drained? {
      assert a + (b + d.deleted) == (a + b) + d.deleted;
    }
  }

  /** The decrement of `remaining` units of order item `id`, visiting `refs` in order: an item whose
      quantity equals what remains is deleted and ends the scan; a larger one is reduced and ends it;
      a smaller one is deleted and the scan goes on for the rest. */
  function DrainFrom(refs: seq<ItemRef>, id: nat, remaining: int): Drain
  {
    if refs == [] then Exhausted
    else if refs[0].item.orderItemId != id then DrainFrom(refs[1..], id, remaining)
    else if refs[0].item.quantity == remaining then Drained([refs[0]], None)
    else if refs[0].item.quantity > remaining then
      Drained([], Some(Reduction(refs[0], refs[0].item.quantity - remaining)))
    else Prepend([refs[0]], DrainFrom(refs[1..], id, remaining - refs[0].item.quantity))
  }

  /** How much an in-place reduction takes off its item. */
  function ReducedBy(reduced: Option<Reduction>): int
  {
    match reduced
    case None => 0
    case Some(x) => x.target.item.quantity - x.newQuantity
  }

  /** A finished decrement takes exactly `remaining` units: the deleted items' quantities plus the in-place reduction. */
  lemma {:induction false} DrainAccounts(refs: seq<ItemRef>, id: nat, remaining: int)
    ensures var d := DrainFrom(refs, id, remaining);
      d.Drained? ==> QuantitySum(d.deleted) + ReducedBy(d.reduced) == remaining
  {
    if refs != [] && refs[0].item.orderItemId != id {
      DrainAccounts(refs[1..], id, remaining);
    } else if refs != [] && refs[0].item.quantity < remaining {
      var rest := DrainFrom(refs[1..], id, remaining - refs[0].item.quantity);
      DrainAccounts(refs[1..], id, remaining - refs[0].item.quantity);
      if rest.Drained? {
        QuantitySumAppend([refs[0]], rest.deleted);
      }
    }
  }

  /** The shape of a finished decrement over the items `m` of one order item: the deleted items are a
      prefix of `m`; the reduced item, if any, is the next one, and keeps a positive quantity no larger
      than before; a decrement that reduces nothing deletes something. */
  ghost predicate DrainShaped(d: Drain, m: seq<ItemRef>)
  {
    d.Drained? ==>
      && d.deleted <= m
      && (d.reduced.None? ==> d.deleted != [])
      && (d.reduced.Some? ==>
            && |d.deleted| < |m|
            && m[|d.deleted|] == d.reduced.value.target
            && 0 < d.reduced.value.newQuantity <= d.reduced.value.target.item.quantity)
  }

  /** The deleted items are the first items of the order item in scan order; the reduced item, if any,
      is the next one, and its new quantity stays positive. */
  lemma {:induction false} DrainPrefix(refs: seq<ItemRef>, id: nat, remaining: int)
    requires remaining >= 0
    ensures DrainShaped(DrainFrom(refs, id, remaining), Matching(refs, id))
  {
    if refs == [] {
      return;
    }
    var r0 := refs[0];
    var rest := Matching(refs[1..], id);
    if r0.item.orderItemId != id {
      assert Matching(refs, id) == rest;
      DrainPrefix(refs[1..], id, remaining);
    } else {
      assert Matching(refs, id) == [r0] + rest;
      if r0.item.quantity < remaining {
        var d := DrainFrom(refs[1..], id, remaining - r0.item.quantity);
        DrainPrefix(refs[1..], id, remaining - r0.item.quantity);
        if d.Drained? {
          assert DrainFrom(refs, id, remaining) == Drained([r0] + d.deleted, d.reduced);
          assert [r0] + d.deleted <= [r0] + rest;
          if d.reduced.Some? {
            assert ([r0] + rest)[|[r0] + d.deleted|] == rest[|d.deleted|];
          }
        }
      }
    }
  }

  /** With positive quantities, a decrement by a non-negative amount fails exactly when the order item
      has no item at all or fewer units allocated than the amount. */
  lemma {:induction false} DrainExhaustedIff(refs: seq<ItemRef>, id: nat, remaining: int)
    requires remaining >= 0
    requires forall x :: x in refs ==> x.item.quantity > 0
    ensures DrainFrom(refs, id, remaining).Exhausted? <==>
      Matching(refs, id) == [] || QuantitySum(Matching(refs, id)) < remaining
  {
    if refs != [] {
      var r0 := refs[0];
      var rest := refs[1..];
      assert forall x :: x in rest ==> x in refs;
      var m := Matching(rest, id);
      if r0.item.orderItemId != id {
        assert Matching(refs, id) == m;
        DrainExhaustedIff(rest, id, remaining);
      } else {
        assert Matching(refs, id) == [r0] + m;
        QuantitySumAppend([r0], m);
        assert [r0][1..] == [];
        if r0.item.quantity < remaining {
          DrainExhaustedIff(rest, id, remaining - r0.item.quantity);
        } else {
          assert forall x :: x in m ==> x in refs;
          QuantitySumPositive(m);
        }
      }
    }
  }

  function Reduce(groups: seq<FulfillmentGroup>, reduced: Option<Reduction>): seq<FulfillmentGroup>
  {
    match reduced
    case None => groups
    case Some(x) => SetQuantity(groups, x.target.group, x.target.index, x.newQuantity)
  }

  /** The groups after a quantity update and the items it hands back for deletion. */
  datatype Update = Update(groups: seq<FulfillmentGroup>, toDelete: seq<ItemRef>)

  /** What updating order item `id` by `delta` does: a positive delta is added to the first item of
      the order item in scan order; otherwise `-delta` units are drained in scan order. */
  function UpdateSpec(groups: seq<FulfillmentGroup>, id: nat, delta: int): Result<Update, StrategyError>
  {
    if delta > 0 then
      var m := Matching(Scan(groups), id);
      if m == [] then Failure(NoMatchingGroupItem)
      else Success(Update(SetQuantity(groups, m[0].group, m[0].index, m[0].item.quantity + delta), []))
    else
      match DrainFrom(Scan(groups), id, -delta)
      case Exhausted => Failure(NoMatchingGroupItem)
      case Drained(deleted, reduced) => Success(Update(Reduce(groups, reduced), deleted))
  }

  /** A positive delta changes exactly one item: the first item of the order item in scan order grows
      by delta; nothing is handed back for deletion. */
  lemma IncrementChangesFirstOnly(groups: seq<FulfillmentGroup>, id: nat, delta: int)
    requires delta > 0
    ensures var m := Matching(Scan(groups), id);
      match UpdateSpec(groups, id, delta)
      case Failure(e) => m == [] && e == NoMatchingGroupItem
      case Success(u) =>
        && m != [] && u.toDelete == []
        && |u.groups| == |groups|
        && (forall i :: 0 <= i < |groups| ==>
              && u.groups[i].fulfillmentType == groups[i].fulfillmentType
              && |u.groups[i].groupItems| == |groups[i].groupItems|)
        && forall i, j :: 0 <= i < |groups| && 0 <= j < |groups[i].groupItems| ==>
             u.groups[i].groupItems[j] ==
                  if i == m[0].group && j == m[0].index
                  then groups[i].groupItems[j].(quantity := groups[i].groupItems[j].quantity + delta)
                  else groups[i].groupItems[j]
  {
    var m := Matching(Scan(groups), id);
    if m != [] {
      assert m[0] in Scan(groups);
      ScanMember(groups, m[0]);
    }
  }

  /** A decrement deletes a prefix of the order item's items in scan order, changes at most one other
      item, the next one, keeping its quantity positive and lowering it, and touches nothing else. */
  lemma DecrementShape(groups: seq<FulfillmentGroup>, id: nat, delta: int)
    requires delta <= 0
    ensures var m := Matching(Scan(groups), id);
      UpdateSpec(groups, id, delta).Success? ==>
        var u := UpdateSpec(groups, id, delta).value;
        && u.toDelete <= m
        && |u.groups| == |groups|
        && (forall i :: 0 <= i < |groups| ==>
              && u.groups[i].fulfillmentType == groups[i].fulfillmentType
              && |u.groups[i].groupItems| == |groups[i].groupItems|)
        && forall i, j :: 0 <= i < |groups| && 0 <= j < |groups[i].groupItems| ==>
             (u.groups[i].groupItems[j] != groups[i].groupItems[j] ==>
                   && |u.toDelete| < |m| && m[|u.toDelete|].group == i && m[|u.toDelete|].index == j
                   && u.groups[i].groupItems[j].orderItemId == id
                   && 0 < u.groups[i].groupItems[j].quantity < groups[i].groupItems[j].quantity)
  {
    var m := Matching(Scan(groups), id);
    var d := DrainFrom(Scan(groups), id, -delta);
    DrainPrefix(Scan(groups), id, -delta);
    if d.Drained? && d.reduced.Some? {
      var x := d.reduced.value;
      assert m[|d.deleted|] in m;
      assert x.target in Scan(groups);
      ReduceChangesTarget(groups, x);
    }
  }

  /** An in-place reduction of a scanned item changes that item's quantity and nothing else. */
  lemma ReduceChangesTarget(groups: seq<FulfillmentGroup>, x: Reduction)
    requires x.target in Scan(groups)
    requires 0 < x.newQuantity <= x.target.item.quantity
    ensures var r := Reduce(groups, Some(x));
      && |r| == |groups|
      && (forall i :: 0 <= i < |groups| ==>
            && r[i].fulfillmentType == groups[i].fulfillmentType
            && |r[i].groupItems| == |groups[i].groupItems|)
      && forall i, j :: 0 <= i < |groups| && 0 <= j < |groups[i].groupItems| ==>
           (r[i].groupItems[j] != groups[i].groupItems[j] ==>
                 && i == x.target.group && j == x.target.index
                 && r[i].groupItems[j].orderItemId == x.target.item.orderItemId
                 && 0 < r[i].groupItems[j].quantity < groups[i].groupItems[j].quantity)
  {
    ScanMember(groups, x.target);
  }

  /** A successful increment adds delta to the order item's total and leaves every other total alone. */
  lemma IncrementBalances(groups: seq<FulfillmentGroup>, id: nat, delta: int, other: nat)
    requires delta > 0 && UpdateSpec(groups, id, delta).Success?
    ensures var u := UpdateSpec(groups, id, delta).value;
      u.toDelete == [] && Allocated(u.groups, other) == Allocated(groups, other) + (if other == id then delta else 0)
  {
    var m := Matching(Scan(groups), id);
    var r := m[0];
    assert r in m;
    assert r in Scan(groups) && r.item.orderItemId == id;
    ScanMember(groups, r);
    assert UpdateSpec(groups, id, delta) == Success(Update(SetQuantity(groups, r.group, r.index, r.item.quantity + delta), []));
    SetQuantityAllocated(groups, r.group, r.index, r.item.quantity + delta, other);
  }

  /** A successful decrement of -delta units hands back items of the order item only, and what it hands
      back plus what it takes in place is exactly -delta; other order items keep their totals. */
  lemma DecrementBalances(groups: seq<FulfillmentGroup>, id: nat, delta: int, other: nat)
    requires delta <= 0 && UpdateSpec(groups, id, delta).Success?
    ensures var u := UpdateSpec(groups, id, delta).value;
      && (forall x :: x in u.toDelete ==> x.item.orderItemId == id)
      && QuantitySum(u.toDelete) == -delta - (Allocated(groups, id) - Allocated(u.groups, id))
      && Allocated(u.groups, other) == Allocated(groups, other) - (if other == id then Allocated(groups, id) - Allocated(u.groups, id) else 0)
  {
    var m := Matching(Scan(groups), id);
    var d := DrainFrom(Scan(groups), id, -delta);
    assert UpdateSpec(groups, id, delta) == Success(Update(Reduce(groups, d.reduced), d.deleted));
    DrainAccounts(Scan(groups), id, -delta);
    DrainPrefix(Scan(groups), id, -delta);
    assert forall x :: x in d.deleted ==> x in m;
    if d.reduced.Some? {
      var x := d.reduced.value;
      var t := x.target;
      assert m[|d.deleted|] in m;
      assert t in Scan(groups) && t.item.orderItemId == id;
      ScanMember(groups, t);
      SetQuantityAllocated(groups, t.group, t.index, x.newQuantity, other);
      SetQuantityAllocated(groups, t.group, t.index, x.newQuantity, id);
    }
  }

  /** Every successful update moves the order item's allocation by exactly delta once the handed-back
      items are deleted, and leaves every other order item's allocated total unchanged. */
  lemma UpdateBalances(groups: seq<FulfillmentGroup>, id: nat, delta: int)
    ensures UpdateSpec(groups, id, delta).Success? ==>
      var u := UpdateSpec(groups, id, delta).value;
      && (forall x :: x in u.toDelete ==> x.item.orderItemId == id)
      && Allocated(u.groups, id) - QuantitySum(u.toDelete) == Allocated(groups, id) + delta
      && forall other :: other != id ==> Allocated(u.groups, other) == Allocated(groups, other)
  {
    if UpdateSpec(groups, id, delta).Success? {
      var u := UpdateSpec(groups, id, delta).value;
      if delta > 0 {
        IncrementBalances(groups, id, delta, id);
        forall other | other != id ensures Allocated(u.groups, other) == Allocated(groups, other) {
          IncrementBalances(groups, id, delta, other);
        }
      } else {
        DecrementBalances(groups, id, delta, id);
        forall other | other != id ensures Allocated(u.groups, other) == Allocated(groups, other) {
          DecrementBalances(groups, id, delta, other);
        }
      }
    }
  }

  /** With positive quantities, an update fails exactly when the order item has no item in any group,
      or a decrement asks for more than is allocated to it. */
  lemma UpdateFailsIff(groups: seq<FulfillmentGroup>, id: nat, delta: int)
    requires PositiveQuantities(groups)
    ensures UpdateSpec(groups, id, delta).Failure? <==>
      Matching(Scan(groups), id) == [] || Allocated(groups, id) + delta < 0
  {
    var m := Matching(Scan(groups), id);
    AllocatedIsMatchingSum(groups, id);
    ScanPositive(groups);
    QuantitySumPositive(m);
    if delta <= 0 {
      DrainExhaustedIff(Scan(groups), id, -delta);
    }
  }

  /** A successful update keeps every allocated quantity positive. */
  lemma UpdateKeepsPositive(groups: seq<FulfillmentGroup>, id: nat, delta: int)
    requires PositiveQuantities(groups)
    ensures UpdateSpec(groups, id, delta).Success? ==> PositiveQuantities(UpdateSpec(groups, id, delta).value.groups)
  {
    if delta > 0 {
      IncrementChangesFirstOnly(groups, id, delta);
    } else {
      DecrementShape(groups, id, delta);
    }
  }

  // ---------------------------------------------------------------------------------------
  // Removing an item.

  /** The items the group service reports for an order item: all of its items, in scan order. */
  function ItemsForOrderItem(groups: seq<FulfillmentGroup>, id: nat): seq<ItemRef>
  {
    Matching(Scan(groups), id)
  }

  /** The items handed over on removal are exactly the order item's items, at their places in the
      order, and together they carry its whole allocated quantity. */
  lemma RemovalTakesAll(groups: seq<FulfillmentGroup>, id: nat)
    ensures var r := ItemsForOrderItem(groups, id);
      && QuantitySum(r) == Allocated(groups, id)
      && (forall x :: x in r ==>
            x.item.orderItemId == id && x.group < |groups| && x.index < |groups[x.group].groupItems| &&
            groups[x.group].groupItems[x.index] == x.item)
      && forall i, j :: 0 <= i < |groups| && 0 <= j < |groups[i].groupItems| && groups[i].groupItems[j].orderItemId == id ==>
           ItemRef(i, j, groups[i].groupItems[j]) in r
  {
    AllocatedIsMatchingSum(groups, id);
    forall x | x in ItemsForOrderItem(groups, id)
      ensures x.group < |groups| && x.index < |groups[x.group].groupItems| && groups[x.group].groupItems[x.index] == x.item
    {
      ScanMember(groups, x);
    }
    forall i, j | 0 <= i < |groups| && 0 <= j < |groups[i].groupItems| && groups[i].groupItems[j].orderItemId == id
      ensures ItemRef(i, j, groups[i].groupItems[j]) in ItemsForOrderItem(groups, id)
    {
      ScanComplete(groups, i, j);
    }
  }

  /** Adding an order item that had no allocation and then removing it hands back exactly its quantity. */
  lemma AddThenRemove(groups: seq<FulfillmentGroup>, orderItem: OrderItem)
    requires Allocated(groups, orderItem.id) == 0
    ensures QuantitySum(ItemsForOrderItem(
      AddItem(groups, TargetType(orderItem), FulfillmentGroupItem(orderItem.id, orderItem.quantity)),
      orderItem.id)) == orderItem.quantity
  {
    var fgi := FulfillmentGroupItem(orderItem.id, orderItem.quantity);
    AddItemAllocates(groups, TargetType(orderItem), fgi, orderItem.id);
    RemovalTakesAll(AddItem(groups, TargetType(orderItem), fgi), orderItem.id);
  }

  // ---------------------------------------------------------------------------------------
  // Verify.

  /** The groups left after removing every group that holds no item. */
  function Prune(groups: seq<FulfillmentGroup>): (r: seq<FulfillmentGroup>)
    ensures |r| <= |groups|
    ensures forall i :: 0 <= i < |r| ==> r[i].groupItems != []
  {
    if groups == [] then []
    else
      var last := groups[|groups| - 1];
      Prune(groups[..|groups| - 1]) + (if last.groupItems == [] then [] else [last])
  }

  /** Pruning works group by group and keeps the kept groups in their order. */
  lemma {:induction false} PruneAppend(a: seq<FulfillmentGroup>, b: seq<FulfillmentGroup>)
    ensures Prune(a + b) == Prune(a) + Prune(b)
    decreases |b|
  {
    if b == [] {
      assert a + b == a;
    } else {
      var n := |b| - 1;
      var last := b[n];
      assert (a + b)[..|a + b| - 1] == a + b[..n];
      assert (a + b)[|a + b| - 1] == last;
      PruneAppend(a, b[..n]);
      assert Prune(a + b) == Prune(a + b[..n]) + (if last.groupItems == [] then [] else [last]);
      assert Prune(b) == Prune(b[..n]) + (if last.groupItems == [] then [] else [last]);
    }
  }

  /** Pruning drops exactly the empty groups: a group survives if and only if it holds an item. */
  lemma {:induction false} PruneMembers(groups: seq<FulfillmentGroup>)
    ensures forall fg :: fg in Prune(groups) <==> fg in groups && fg.groupItems != []
    decreases |groups|
  {
    if groups != [] {
      var n := |groups| - 1;
      PruneMembers(groups[..n]);
      assert groups == groups[..n] + [groups[n]];
    }
  }

  /** A single group is dropped exactly when it holds no item. */
  lemma PruneSingle(fg: FulfillmentGroup)
    ensures Prune([fg]) == if fg.groupItems == [] then [] else [fg]
  {
    assert [fg][..0] == [];
  }

  /** Pruning moves no allocation: every order item keeps its allocated total. */
  lemma {:induction false} PruneKeepsAllocated(groups: seq<FulfillmentGroup>, id: nat)
    ensures Allocated(Prune(groups), id) == Allocated(groups, id)
    decreases |groups|
  {
    if groups != [] {
      var n := |groups| - 1;
      var init := groups[..n];
      var last := groups[n];
      PruneKeepsAllocated(init, id);
      if last.groupItems != [] {
        assert Prune(groups) == Prune(init) + [last];
        AllocatedAppend(Prune(init), last, id);
      } else {
        assert Prune(groups) == Prune(init);
        assert ItemsTotal(last.groupItems, id) == 0;
      }
    }
  }

  /** Pruning keeps every item, so whether all items refer to known order items is unaffected. */
  lemma {:induction false} PruneKeepsKnown(groups: seq<FulfillmentGroup>, ids: set<nat>)
    ensures AllocationsKnown(Prune(groups), ids) <==> AllocationsKnown(groups, ids)
    decreases |groups|
  {
    if groups != [] {
      var n := |groups| - 1;
      var init := groups[..n];
      var last := groups[n];
      PruneKeepsKnown(init, ids);
      var p := Prune(groups);
      var pi := Prune(init);
      assert p == pi + (if last.groupItems == [] then [] else [last]);
      assert forall i :: 0 <= i < n ==> init[i] == groups[i];
      assert forall i :: 0 <= i < |pi| ==> p[i] == pi[i];
      assert AllocationsKnown(groups, ids) <==>
        AllocationsKnown(init, ids) && forall j :: 0 <= j < |last.groupItems| ==> last.groupItems[j].orderItemId in ids;
      if last.groupItems == [] {
        assert p == pi;
      } else {
        assert p[|pi|] == last;
        assert AllocationsKnown(p, ids) <==>
          AllocationsKnown(pi, ids) && forall j :: 0 <= j < |last.groupItems| ==> last.groupItems[j].orderItemId in ids;
      }
    }
  }

  /** Whether the order is balanced does not depend on pruning. */
  lemma PruneKeepsBalance(orderItems: seq<OrderItem>, groups: seq<FulfillmentGroup>)
    ensures Balanced(orderItems, Prune(groups)) <==> Balanced(orderItems, groups)
  {
    PruneKeepsKnown(groups, OrderItemIds(orderItems));
    forall id ensures Allocated(Prune(groups), id) == Allocated(groups, id) {
      PruneKeepsAllocated(groups, id);
    }
  }
}
