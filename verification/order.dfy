/**
  The order graph that the fulfillment group item strategy reads and edits: order items,
  fulfillment groups, and the fulfillment group items that allocate a quantity of one order
  item to one group. Groups and their items are values held by the `Order` object; editing
  an item in place is modelled by reassigning `Order.fulfillmentGroups`.
*/
module OrderModel {
  import opened Wrappers

  /** An extensible enumeration; two fulfillment types are equal when their keys are. */
  datatype FulfillmentType = FulfillmentType(key: string)

  const PhysicalShip: FulfillmentType := FulfillmentType("PHYSICAL_SHIP")
  const PhysicalPickup: FulfillmentType := FulfillmentType("PHYSICAL_PICKUP")
  const PhysicalPickupOrShip: FulfillmentType := FulfillmentType("PHYSICAL_PICKUP_OR_SHIP")

  /** The detail record an order item may carry; its fulfillment type may itself be absent. */
  datatype OrderItemDetail = OrderItemDetail(fulfillmentType: Option<FulfillmentType>)

  /** An order item is identified by its id; `equals` on order items is equality of ids. */
  datatype OrderItem = OrderItem(id: nat, quantity: int, detail: Option<OrderItemDetail>)

  /** A quantity of one order item allocated to the group that holds it. */
  datatype FulfillmentGroupItem = FulfillmentGroupItem(orderItemId: nat, quantity: int)

  /** A group has an optional type (untyped groups are allowed) and an ordered list of items. */
  datatype FulfillmentGroup = FulfillmentGroup(
    fulfillmentType: Option<FulfillmentType>,
    groupItems: seq<FulfillmentGroupItem>)

  /** A fulfillment group item together with its place in the order: item `index` of group `group`. */
  datatype ItemRef = ItemRef(group: nat, index: nat, item: FulfillmentGroupItem)

  class Order {
    var orderItems: seq<OrderItem>
    var fulfillmentGroups: seq<FulfillmentGroup>

    constructor (orderItems: seq<OrderItem>, fulfillmentGroups: seq<FulfillmentGroup>)
      ensures this.orderItems == orderItems && this.fulfillmentGroups == fulfillmentGroups
    {
      this.orderItems := orderItems;
      this.fulfillmentGroups := fulfillmentGroups;
    }
  }

  /** The mutable request handed along a cart operation. */
  class CartOperationRequest {
    var order: Order
    var orderItem: OrderItem
    var orderItemQuantityDelta: int
    var fgisToDelete: seq<ItemRef>

    constructor (order: Order, orderItem: OrderItem, orderItemQuantityDelta: int)
      ensures this.order == order && this.orderItem == orderItem
      ensures this.orderItemQuantityDelta == orderItemQuantityDelta && fgisToDelete == []
    {
      this.order := order;
      this.orderItem := orderItem;
      this.orderItemQuantityDelta := orderItemQuantityDelta;
      fgisToDelete := [];
    }
  }

  /** Every quantity allocated anywhere in the order is positive. */
  ghost predicate PositiveQuantities(groups: seq<FulfillmentGroup>)
  {
    forall i, j :: 0 <= i < |groups| && 0 <= j < |groups[i].groupItems| ==>
      groups[i].groupItems[j].quantity > 0
  }

  // ---------------------------------------------------------------------------------------
  // Scan order: groups in list order, and within a group its items in list order.

  function ScanGroup(g: nat, items: seq<FulfillmentGroupItem>): seq<ItemRef>
  {
    seq(|items|, j requires 0 <= j < |items| => ItemRef(g, j, items[j]))
  }

  /** Every fulfillment group item of the order, in the order the strategy's nested loops visit them. */
  function Scan(groups: seq<FulfillmentGroup>): (r: seq<ItemRef>)
    decreases |groups|
  {
    if groups == [] then []
    else Scan(groups[..|groups| - 1]) + ScanGroup(|groups| - 1, groups[|groups| - 1].groupItems)
  }

  /** Every reference the scan produces names an existing item and carries its value. */
  lemma {:induction false} ScanValid(groups: seq<FulfillmentGroup>)
    ensures forall k :: 0 <= k < |Scan(groups)| ==>
      && Scan(groups)[k].group < |groups|
      && Scan(groups)[k].index < |groups[Scan(groups)[k].group].groupItems|
      && groups[Scan(groups)[k].group].groupItems[Scan(groups)[k].index] == Scan(groups)[k].item
    decreases |groups|
  {
    if groups != [] {
      var n := |groups| - 1;
      var init := groups[..n];
      ScanValid(init);
      var rest := Scan(init);
      var tail := ScanGroup(n, groups[n].groupItems);
      assert Scan(groups) == rest + tail;
      forall k | 0 <= k < |Scan(groups)|
        ensures && Scan(groups)[k].group < |groups|
                && Scan(groups)[k].index < |groups[Scan(groups)[k].group].groupItems|
                && groups[Scan(groups)[k].group].groupItems[Scan(groups)[k].index] == Scan(groups)[k].item
      {
        if k < |rest| {
          assert Scan(groups)[k] == rest[k];
          assert init[rest[k].group] == groups[rest[k].group];
        } else {
          assert Scan(groups)[k] == tail[k - |rest|];
        }
      }
    }
  }

  lemma ScanMember(groups: seq<FulfillmentGroup>, r: ItemRef)
    requires r in Scan(groups)
    ensures r.group < |groups| && r.index < |groups[r.group].groupItems| && groups[r.group].groupItems[r.index] == r.item
  {
    ScanValid(groups);
    var k :| 0 <= k < |Scan(groups)| && Scan(groups)[k] == r;
  }

  lemma ScanPositive(groups: seq<FulfillmentGroup>)
    requires PositiveQuantities(groups)
    ensures forall x :: x in Scan(groups) ==> x.item.quantity > 0
  {
    forall x | x in Scan(groups) ensures x.item.quantity > 0 {
      ScanMember(groups, x);
    }
  }

  lemma ScanStep(groups: seq<FulfillmentGroup>, g: nat)
    requires g < |groups|
    ensures Scan(groups[..g + 1]) == Scan(groups[..g]) + ScanGroup(g, groups[g].groupItems)
  {
    assert groups[..g + 1][..g] == groups[..g];
  }

  lemma {:induction false} ScanPrefix(groups: seq<FulfillmentGroup>, g: nat)
    requires g <= |groups|
    ensures Scan(groups[..g]) <= Scan(groups)
    decreases |groups| - g
  {
    if g < |groups| {
      ScanStep(groups, g);
      ScanPrefix(groups, g + 1);
    } else {
      assert groups[..g] == groups;
    }
  }

  /** The scan visits groups in list order and, within a group, items in list order. */
  lemma {:induction false} ScanOrdered(groups: seq<FulfillmentGroup>)
    ensures forall k, k' :: 0 <= k < k' < |Scan(groups)| ==>
      || Scan(groups)[k].group < Scan(groups)[k'].group
      || (Scan(groups)[k].group == Scan(groups)[k'].group && Scan(groups)[k].index < Scan(groups)[k'].index)
    decreases |groups|
  {
    if groups != [] {
      var n := |groups| - 1;
      var init := groups[..n];
      ScanOrdered(init);
      ScanValid(init);
      var rest := Scan(init);
      var tail := ScanGroup(n, groups[n].groupItems);
      assert Scan(groups) == rest + tail;
      forall k, k' | 0 <= k < k' < |Scan(groups)|
        ensures || Scan(groups)[k].group < Scan(groups)[k'].group
                || (Scan(groups)[k].group == Scan(groups)[k'].group && Scan(groups)[k].index < Scan(groups)[k'].index)
      {
        if k' < |rest| {
          assert Scan(groups)[k] == rest[k] && Scan(groups)[k'] == rest[k'];
        } else if k < |rest| {
          assert Scan(groups)[k] == rest[k] && Scan(groups)[k'] == tail[k' - |rest|];
        } else {
          assert Scan(groups)[k] == tail[k - |rest|] && Scan(groups)[k'] == tail[k' - |rest|];
        }
      }
    }
  }

  /** Where item `j` of group `g` sits in the scan. */
  lemma ScanIndex(groups: seq<FulfillmentGroup>, g: nat, j: nat)
    requires g < |groups| && j < |groups[g].groupItems|
    ensures |Scan(groups[..g])| + j < |Scan(groups)|
    ensures Scan(groups)[|Scan(groups[..g])| + j] == ItemRef(g, j, groups[g].groupItems[j])
  {
    ScanStep(groups, g);
    ScanPrefix(groups, g + 1);
    var k := |Scan(groups[..g])| + j;
    assert Scan(groups[..g + 1])[k] == ScanGroup(g, groups[g].groupItems)[j];
  }

  /** The scan misses no fulfillment group item. */
  lemma {:induction false} ScanComplete(groups: seq<FulfillmentGroup>, g: nat, j: nat)
    requires g < |groups| && j < |groups[g].groupItems|
    ensures ItemRef(g, j, groups[g].groupItems[j]) in Scan(groups)
    decreases |groups|
  {
    var n := |groups| - 1;
    var init := groups[..n];
    var tail := ScanGroup(n, groups[n].groupItems);
    assert Scan(groups) == Scan(init) + tail;
    if g == n {
      assert tail[j] == ItemRef(g, j, groups[g].groupItems[j]);
    } else {
      assert init[g] == groups[g];
      ScanComplete(init, g, j);
    }
  }

  // ---------------------------------------------------------------------------------------
  // The fulfillment group items of one order item, and quantity sums.

  /** The references in `refs` to items of order item `id`, in their original order. */
  function Matching(refs: seq<ItemRef>, id: nat): (r: seq<ItemRef>)
    ensures forall x :: x in r <==> x in refs && x.item.orderItemId == id
  {
    if refs == [] then []
    else (if refs[0].item.orderItemId == id then [refs[0]] else []) + Matching(refs[1..], id)
  }

  lemma {:induction false} MatchingAppend(a: seq<ItemRef>, b: seq<ItemRef>, id: nat)
    ensures Matching(a + b, id) == Matching(a, id) + Matching(b, id)
  {
    if a != [] {
      assert (a + b)[1..] == a[1..] + b;
      MatchingAppend(a[1..], b, id);
    } else {
      assert a + b == b;
    }
  }

  function QuantitySum(refs: seq<ItemRef>): int
  {
    if refs == [] then 0 else refs[0].item.quantity + QuantitySum(refs[1..])
  }

  lemma {:induction false} QuantitySumAppend(a: seq<ItemRef>, b: seq<ItemRef>)
    ensures QuantitySum(a + b) == QuantitySum(a) + QuantitySum(b)
  {
    if a != [] {
      assert (a + b)[1..] == a[1..] + b;
      QuantitySumAppend(a[1..], b);
    } else {
      assert a + b == b;
    }
  }

  lemma {:induction false} QuantitySumPositive(refs: seq<ItemRef>)
    requires forall x :: x in refs ==> x.item.quantity > 0
    ensures QuantitySum(refs) >= 0
    ensures refs != [] ==> QuantitySum(refs) > 0
  {
    if refs != [] {
      assert refs[0] in refs;
      assert forall x :: x in refs[1..] ==> x in refs;
      QuantitySumPositive(refs[1..]);
    }
  }

  /** Total quantity of order item `id` among `items`. */
  function ItemsTotal(items: seq<FulfillmentGroupItem>, id: nat): int
  {
    if items == [] then 0
    else (if items[0].orderItemId == id then items[0].quantity else 0) + ItemsTotal(items[1..], id)
  }

  lemma {:induction false} ItemsTotalAppend(a: seq<FulfillmentGroupItem>, b: seq<FulfillmentGroupItem>, id: nat)
    ensures ItemsTotal(a + b, id) == ItemsTotal(a, id) + ItemsTotal(b, id)
  {
    if a != [] {
      assert (a + b)[1..] == a[1..] + b;
      ItemsTotalAppend(a[1..], b, id);
    } else {
      assert a + b == b;
    }
  }

  lemma {:induction false} ItemsTotalUpdate(items: seq<FulfillmentGroupItem>, j: nat, x: FulfillmentGroupItem, id: nat)
    requires j < |items|
    ensures ItemsTotal(items[j := x], id) ==
      ItemsTotal(items, id)
      - (if items[j].orderItemId == id then items[j].quantity else 0)
      + (if x.orderItemId == id then x.quantity else 0)
  {
    if j > 0 {
      assert items[j := x][1..] == items[1..][j - 1 := x];
      ItemsTotalUpdate(items[1..], j - 1, x, id);
    } else {
      assert items[j := x][1..] == items[1..];
    }
  }

  /** Quantity of order item `id` allocated over all groups of the order. */
  function Allocated(groups: seq<FulfillmentGroup>, id: nat): int
  {
    if groups == [] then 0
    else Allocated(groups[..|groups| - 1], id) + ItemsTotal(groups[|groups| - 1].groupItems, id)
  }

  lemma AllocatedStep(groups: seq<FulfillmentGroup>, g: nat, id: nat)
    requires g < |groups|
    ensures Allocated(groups[..g + 1], id) == Allocated(groups[..g], id) + ItemsTotal(groups[g].groupItems, id)
  {
    assert groups[..g + 1][..g] == groups[..g];
  }

  lemma {:induction false} AllocatedAppend(groups: seq<FulfillmentGroup>, fg: FulfillmentGroup, id: nat)
    ensures Allocated(groups + [fg], id) == Allocated(groups, id) + ItemsTotal(fg.groupItems, id)
  {
    assert (groups + [fg])[..|groups|] == groups;
  }

  /** Replacing the item list of one group changes the allocated total by the difference of the two lists. */
  lemma {:induction false} AllocatedReplaceGroup(groups: seq<FulfillmentGroup>, g: nat, items: seq<FulfillmentGroupItem>, id: nat)
    requires g < |groups|
    ensures Allocated(groups[g := groups[g].(groupItems := items)], id) ==
      Allocated(groups, id) - ItemsTotal(groups[g].groupItems, id) + ItemsTotal(items, id)
    decreases |groups|
  {
    var r := groups[g := groups[g].(groupItems := items)];
    var n := |groups| - 1;
    if g == n {
      assert r[..n] == groups[..n];
    } else {
      assert r[..n] == groups[..n][g := groups[g].(groupItems := items)];
      AllocatedReplaceGroup(groups[..n], g, items, id);
    }
  }

  /** The quantity allocated to an order item is the sum over the scan of that item's references. */
  lemma {:induction false} AllocatedIsMatchingSum(groups: seq<FulfillmentGroup>, id: nat)
    ensures Allocated(groups, id) == QuantitySum(Matching(Scan(groups), id))
    decreases |groups|
  {
    if groups != [] {
      var n := |groups| - 1;
      var tail := ScanGroup(n, groups[n].groupItems);
      AllocatedIsMatchingSum(groups[..n], id);
      MatchingAppend(Scan(groups[..n]), tail, id);
      QuantitySumAppend(Matching(Scan(groups[..n]), id), Matching(tail, id));
      MatchingSumAgrees(tail, groups[n].groupItems, id);
    }
  }

  lemma {:induction false} MatchingSumAgrees(refs: seq<ItemRef>, items: seq<FulfillmentGroupItem>, id: nat)
    requires |refs| == |items|
    requires forall k :: 0 <= k < |refs| ==> refs[k].item == items[k]
    ensures QuantitySum(Matching(refs, id)) == ItemsTotal(items, id)
  {
    if refs != [] {
      MatchingSumAgrees(refs[1..], items[1..], id);
      QuantitySumAppend(if refs[0].item.orderItemId == id then [refs[0]] else [], Matching(refs[1..], id));
    }
  }

  // ---------------------------------------------------------------------------------------
  // Order items.

  function OrderItemIds(orderItems: seq<OrderItem>): set<nat>
  {
    set oi | oi in orderItems :: oi.id
  }

  /** Sum of the quantities of the order items with id `id` (the same id may occur more than once). */
  function OrderedQuantity(orderItems: seq<OrderItem>, id: nat): int
  {
    if orderItems == [] then 0
    else
      var last := orderItems[|orderItems| - 1];
      OrderedQuantity(orderItems[..|orderItems| - 1], id) + (if last.id == id then last.quantity else 0)
  }

  /** Every fulfillment group item refers to an order item whose id is in `ids`. */
  ghost predicate AllocationsKnown(groups: seq<FulfillmentGroup>, ids: set<nat>)
  {
    forall i, j :: 0 <= i < |groups| && 0 <= j < |groups[i].groupItems| ==>
      groups[i].groupItems[j].orderItemId in ids
  }

  /** The invariant the strategy maintains: allocations refer to order items of the order, and
      for every order item id the allocated quantity equals the ordered quantity. */
  ghost predicate Balanced(orderItems: seq<OrderItem>, groups: seq<FulfillmentGroup>)
  {
    && AllocationsKnown(groups, OrderItemIds(orderItems))
    && forall id :: id in OrderItemIds(orderItems) ==> OrderedQuantity(orderItems, id) == Allocated(groups, id)
  }

  /** Sets the quantity of item `j` of group `g`, as `setQuantity` on that fulfillment group item;
      every other item and every group type stay as they were. */
  function SetQuantity(groups: seq<FulfillmentGroup>, g: nat, j: nat, q: int): (r: seq<FulfillmentGroup>)
    ensures |r| == |groups|
    ensures forall i :: 0 <= i < |r| ==>
      r[i].fulfillmentType == groups[i].fulfillmentType && |r[i].groupItems| == |groups[i].groupItems|
    ensures forall i, k :: 0 <= i < |r| && 0 <= k < |r[i].groupItems| ==>
      r[i].groupItems[k] ==
        if i == g && k == j then groups[i].groupItems[k].(quantity := q) else groups[i].groupItems[k]
  {
    if g < |groups| && j < |groups[g].groupItems| then
      groups[g := groups[g].(groupItems := groups[g].groupItems[j := groups[g].groupItems[j].(quantity := q)])]
    else groups
  }

  /** Setting one item's quantity changes only that order item's allocated total, by the difference. */
  lemma SetQuantityAllocated(groups: seq<FulfillmentGroup>, g: nat, j: nat, q: int, id: nat)
    requires g < |groups| && j < |groups[g].groupItems|
    ensures Allocated(SetQuantity(groups, g, j, q), id) ==
      Allocated(groups, id) +
      (if groups[g].groupItems[j].orderItemId == id then q - groups[g].groupItems[j].quantity else 0)
  {
    var items := groups[g].groupItems;
    AllocatedReplaceGroup(groups, g, items[j := items[j].(quantity := q)], id);
    ItemsTotalUpdate(items, j, items[j].(quantity := q), id);
  }
}
