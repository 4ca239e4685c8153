/**
  The fulfillment group item strategy: what happens to an order's fulfillment groups when a cart
  operation adds an order item, changes its quantity or removes it, and the verification that
  closes every cart operation.
*/
module Strategy {
  import opened Wrappers
  import opened OrderModel
  import opened Allocation

  /** A group as the group service creates it: untyped and holding no item. */
  function CreateEmptyFulfillmentGroup(): FulfillmentGroup
  {
    FulfillmentGroup(None, [])
  }

  /** A group at or before which no group of type `t` occurs is the first of that type exactly when it has the type. */
  lemma FirstGroupOfTypeAt(groups: seq<FulfillmentGroup>, i: nat, t: Option<FulfillmentType>)
    requires i < |groups| && FirstGroupOfType(groups, t) >= i
    ensures FirstGroupOfType(groups, t) == i <==> groups[i].fulfillmentType == t
  {
  }

  /** The scan that opens onItemAdded: for every type, the first group of that type, and the first
      untyped group; groups later in the list never replace an earlier one. */
  method OrganizeGroups(groups: seq<FulfillmentGroup>) returns (byType: map<FulfillmentType, nat>, untyped: Option<nat>)
    ensures forall t :: t in byType <==> FirstGroupOfType(groups, Some(t)) < |groups|
    ensures forall t :: t in byType ==> byType[t] == FirstGroupOfType(groups, Some(t))
    ensures untyped.None? <==> FirstGroupOfType(groups, None) == |groups|
    ensures untyped.Some? ==> untyped.value == FirstGroupOfType(groups, None)
  {
    byType := map[];
    untyped := None;
    var i := 0;
    while i < |groups|
      invariant 0 <= i <= |groups|
      invariant forall t :: t in byType <==> FirstGroupOfType(groups, Some(t)) < i
      invariant forall t :: t in byType ==> byType[t] == FirstGroupOfType(groups, Some(t))
      invariant untyped.None? <==> FirstGroupOfType(groups, None) >= i
      invariant untyped.Some? ==> untyped.value == FirstGroupOfType(groups, None)
    {
      var group := groups[i];
      forall t | FirstGroupOfType(groups, t) >= i
        ensures FirstGroupOfType(groups, t) == i <==> group.fulfillmentType == t
      {
        FirstGroupOfTypeAt(groups, i, t);
      }
      match group.fulfillmentType {
        case None =>
          if untyped.None? {
            untyped := Some(i);
          }
        case Some(t) =>
          if t !in byType {
            byType := byType[t := i];
          }
      }
      i := i + 1;
    }
  }

  /** Item `j` of group `i` is the first item, in scan order, that refers to no known order item, and `x` is the id it refers to. */
  ghost predicate FirstUnknownAt(groups: seq<FulfillmentGroup>, ids: set<nat>, i: nat, j: nat, x: nat)
  {
    && i < |groups| && j < |groups[i].groupItems|
    && groups[i].groupItems[j].orderItemId == x && x !in ids
    && AllocationsKnown(groups[..i], ids)
    && forall j' :: 0 <= j' < j ==> groups[i].groupItems[j'].orderItemId in ids
  }

  lemma OrderedStep(orderItems: seq<OrderItem>, i: nat)
    requires i < |orderItems|
    ensures OrderItemIds(orderItems[..i + 1]) == OrderItemIds(orderItems[..i]) + {orderItems[i].id}
    ensures forall x :: (OrderedQuantity(orderItems[..i + 1], x) ==
      OrderedQuantity(orderItems[..i], x) + (if orderItems[i].id == x then orderItems[i].quantity else 0))
  {
    assert orderItems[..i + 1][..i] == orderItems[..i];
    assert forall o :: o in orderItems[..i + 1] <==> o in orderItems[..i] || o == orderItems[i];
  }

  lemma ItemsTotalStep(items: seq<FulfillmentGroupItem>, j: nat)
    requires j < |items|
    ensures forall x :: (ItemsTotal(items[..j + 1], x) ==
      ItemsTotal(items[..j], x) + (if items[j].orderItemId == x then items[j].quantity else 0))
  {
    assert items[..j + 1] == items[..j] + [items[j]];
    forall x ensures ItemsTotal(items[..j + 1], x) ==
      ItemsTotal(items[..j], x) + (if items[j].orderItemId == x then items[j].quantity else 0)
    {
      ItemsTotalAppend(items[..j], [items[j]], x);
    }
  }

  lemma KnownStep(groups: seq<FulfillmentGroup>, g: nat, ids: set<nat>)
    requires g < |groups| && AllocationsKnown(groups[..g], ids)
    requires forall j :: 0 <= j < |groups[g].groupItems| ==> groups[g].groupItems[j].orderItemId in ids
    ensures AllocationsKnown(groups[..g + 1], ids)
  {
    assert forall i :: 0 <= i < g ==> groups[..g + 1][i] == groups[..g][i];
  }

  /** The first phase of verify's reconciliation: the ordered quantity of every order item id,
      summed over the order items that share the id. */
  method OrderedQuantities(orderItems: seq<OrderItem>) returns (quantities: map<nat, int>)
    ensures quantities.Keys == OrderItemIds(orderItems)
    ensures forall x :: x in quantities ==> quantities[x] == OrderedQuantity(orderItems, x)
  {
    quantities := map[];
    var expandedOrderItems := orderItems;
    var i := 0;
    while i < |expandedOrderItems|
      invariant 0 <= i <= |expandedOrderItems|
      invariant quantities.Keys == OrderItemIds(expandedOrderItems[..i])
      invariant forall x :: x in quantities ==> quantities[x] == OrderedQuantity(expandedOrderItems[..i], x)
    {
      var oi := expandedOrderItems[i];
      OrderedStep(expandedOrderItems, i);
      var oiQuantity := 0;
      if oi.id in quantities {
        oiQuantity := quantities[oi.id];
      } else {
        OrderedQuantityAbsent(expandedOrderItems[..i], oi.id);
      }
      quantities := quantities[oi.id := oiQuantity + oi.quantity];
      i := i + 1;
    }
    assert expandedOrderItems[..i] == orderItems;
  }

  /** The second phase: every fulfillment group item's quantity is taken off its order item's entry;
      an item whose order item has no entry fails the verification at once. */
  method SubtractAllocations(quantities: map<nat, int>, groups: seq<FulfillmentGroup>)
    returns (r: Result<map<nat, int>, StrategyError>)
    ensures r.Failure? <==> !AllocationsKnown(groups, quantities.Keys)
    ensures r.Failure? ==> (r.error.GroupItemsOutOfSync? &&
      exists i, j :: FirstUnknownAt(groups, quantities.Keys, i, j, r.error.orderItemId))
    ensures r.Success? ==> (r.value.Keys == quantities.Keys &&
      forall x :: x in r.value ==> r.value[x] == quantities[x] - Allocated(groups, x))
  {
    ghost var ids := quantities.Keys;
    var residual := quantities;
    var g := 0;
    while g < |groups|
      invariant 0 <= g <= |groups|
      invariant residual.Keys == ids
      invariant AllocationsKnown(groups[..g], ids)
      invariant forall x :: x in residual ==> residual[x] == quantities[x] - Allocated(groups[..g], x)
    {
      var fgItems := groups[g].groupItems;
      var j := 0;
      while j < |fgItems|
        invariant 0 <= j <= |fgItems|
        invariant residual.Keys == ids
        invariant forall j' :: 0 <= j' < j ==> fgItems[j'].orderItemId in ids
        invariant forall x :: x in residual ==>
          residual[x] == quantities[x] - Allocated(groups[..g], x) - ItemsTotal(fgItems[..j], x)
      {
        var fgi := fgItems[j];
        if fgi.orderItemId !in residual {
          assert FirstUnknownAt(groups, ids, g, j, fgi.orderItemId);
          return Failure(GroupItemsOutOfSync(fgi.orderItemId));
        }
        ItemsTotalStep(fgItems, j);
        residual := residual[fgi.orderItemId := residual[fgi.orderItemId] - fgi.quantity];
        j := j + 1;
      }
      assert fgItems[..j] == fgItems;
      forall x ensures Allocated(groups[..g + 1], x) == Allocated(groups[..g], x) + ItemsTotal(fgItems, x) {
        AllocatedStep(groups, g, x);
      }
      KnownStep(groups, g, ids);
      g := g + 1;
    }
    assert groups[..g] == groups;
    return Success(residual);
  }

  /** The third phase: some entry left non-zero, visited in no particular order, or none. */
  method FindImbalance(residual: map<nat, int>) returns (r: Option<nat>)
    ensures r.None? <==> forall x :: x in residual ==> residual[x] == 0
    ensures r.Some? ==> r.value in residual && residual[r.value] != 0
  {
    var keys := residual.Keys;
    while keys != {}
      invariant keys <= residual.Keys
      invariant forall x :: x in residual && x !in keys ==> residual[x] == 0
      decreases |keys|
    {
      var x :| x in keys;
      if residual[x] != 0 {
        return Some(x);
      }
      keys := keys - {x};
    }
    return None;
  }

  /** The reconciliation of verify: the ordered quantity of every order item id minus everything
      allocated to it must come to zero, and no item may refer to an order item the order does not have. */
  method CheckQuantities(orderItems: seq<OrderItem>, groups: seq<FulfillmentGroup>) returns (r: Outcome<StrategyError>)
    ensures r == Pass <==> Balanced(orderItems, groups)
    ensures r.Fail? ==> r.error.GroupItemsOutOfSync? || r.error.NotEnoughGroupItems?
    ensures (r.Fail? && r.error.GroupItemsOutOfSync?) <==> !AllocationsKnown(groups, OrderItemIds(orderItems))
    ensures r.Fail? && r.error.GroupItemsOutOfSync? ==>
      exists i, j :: FirstUnknownAt(groups, OrderItemIds(orderItems), i, j, r.error.orderItemId)
    ensures r.Fail? && r.error.NotEnoughGroupItems? ==>
      && r.error.orderItemId in OrderItemIds(orderItems)
      && OrderedQuantity(orderItems, r.error.orderItemId) != Allocated(groups, r.error.orderItemId)
  {
    var quantities := OrderedQuantities(orderItems);
    var subtracted := SubtractAllocations(quantities, groups);
    match subtracted {
      case Failure(e) =>
        return Fail(e);
      case Success(residual) =>
        var imbalance := FindImbalance(residual);
        match imbalance {
          case Some(x) =>
            return Fail(NotEnoughGroupItems(x));
          case None =>
            return Pass;
        }
    }
  }

  lemma DrainAt(scan: seq<ItemRef>, k: nat, id: nat, remaining: int)
    requires k < |scan|
    ensures DrainFrom(scan[k..], id, remaining) ==
      var x := scan[k];
      if x.item.orderItemId != id then DrainFrom(scan[k + 1..], id, remaining)
      else if x.item.quantity == remaining then Drained([x], None)
      else if x.item.quantity > remaining then Drained([], Some(Reduction(x, x.item.quantity - remaining)))
      else Prepend([x], DrainFrom(scan[k + 1..], id, remaining - x.item.quantity))
  {
    assert scan[k..][0] == scan[k] && scan[k..][1..] == scan[k + 1..];
  }

  /** The first reference to order item `id`: the item a positive delta changes. */
  function FirstOf(refs: seq<ItemRef>, id: nat): Option<ItemRef>
  {
    if refs == [] then None
    else if refs[0].item.orderItemId == id then Some(refs[0])
    else FirstOf(refs[1..], id)
  }

  lemma {:induction false} FirstOfMatching(refs: seq<ItemRef>, id: nat)
    ensures FirstOf(refs, id) == if Matching(refs, id) == [] then None else Some(Matching(refs, id)[0])
  {
    if refs != [] {
      FirstOfMatching(refs[1..], id);
    }
  }

  lemma FirstOfAt(scan: seq<ItemRef>, k: nat, id: nat)
    requires k < |scan|
    ensures FirstOf(scan[k..], id) ==
      if scan[k].item.orderItemId == id then Some(scan[k]) else FirstOf(scan[k + 1..], id)
  {
    assert scan[k..][0] == scan[k] && scan[k..][1..] == scan[k + 1..];
  }

  /** Where the positive branch of updateItemQuantity stands after the first `k` items of the scan. */
  ghost predicate IncreaseProgress(current: seq<FulfillmentGroup>, groups: seq<FulfillmentGroup>, id: nat, delta: int, k: nat, done: bool)
  {
    var scan := Scan(groups);
    var first := FirstOf(scan, id);
    && k <= |scan|
    && (!done ==> current == groups && first == FirstOf(scan[k..], id))
    && (done ==> (first.Some? &&
          current == SetQuantity(groups, first.value.group, first.value.index, first.value.item.quantity + delta)))
  }

  lemma IncreaseSkips(current: seq<FulfillmentGroup>, groups: seq<FulfillmentGroup>, id: nat, delta: int, k: nat, done: bool)
    requires IncreaseProgress(current, groups, id, delta, k, done)
    requires k < |Scan(groups)| && (done || Scan(groups)[k].item.orderItemId != id)
    ensures IncreaseProgress(current, groups, id, delta, k + 1, done)
  {
    FirstOfAt(Scan(groups), k, id);
  }

  lemma IncreaseHits(current: seq<FulfillmentGroup>, groups: seq<FulfillmentGroup>, id: nat, delta: int, k: nat,
                     g: nat, j: nat, fgItem: FulfillmentGroupItem)
    requires IncreaseProgress(current, groups, id, delta, k, false)
    requires k < |Scan(groups)| && Scan(groups)[k] == ItemRef(g, j, fgItem) && fgItem.orderItemId == id
    ensures IncreaseProgress(SetQuantity(current, g, j, fgItem.quantity + delta), groups, id, delta, k + 1, true)
  {
    FirstOfAt(Scan(groups), k, id);
  }

  lemma IncreaseFinished(current: seq<FulfillmentGroup>, groups: seq<FulfillmentGroup>, id: nat, delta: int, done: bool)
    requires IncreaseProgress(current, groups, id, delta, |Scan(groups)|, done)
    ensures var first := FirstOf(Scan(groups), id);
      && (done <==> first.Some?)
      && (!done ==> current == groups)
      && (done ==> current == SetQuantity(groups, first.value.group, first.value.index, first.value.item.quantity + delta))
  {
    var scan := Scan(groups);
    assert scan[|scan|..] == [];
  }

  /** Where the other branch stands after the first `k` items of the scan. */
  ghost predicate DecreaseProgress(current: seq<FulfillmentGroup>, groups: seq<FulfillmentGroup>, id: nat, remaining: int,
                                   k: nat, done: bool, deleted: seq<ItemRef>, remainingToDecrement: int, reduced: Option<Reduction>)
  {
    var scan := Scan(groups);
    && k <= |scan|
    && (!done ==> (current == groups && reduced == None &&
          DrainFrom(scan, id, remaining) == Prepend(deleted, DrainFrom(scan[k..], id, remainingToDecrement))))
    && (done ==> DrainFrom(scan, id, remaining) == Drained(deleted, reduced) && current == Reduce(groups, reduced))
  }

  lemma DecreaseSkips(current: seq<FulfillmentGroup>, groups: seq<FulfillmentGroup>, id: nat, remaining: int,
                      k: nat, done: bool, deleted: seq<ItemRef>, rem: int, reduced: Option<Reduction>)
    requires DecreaseProgress(current, groups, id, remaining, k, done, deleted, rem, reduced)
    requires k < |Scan(groups)| && (done || Scan(groups)[k].item.orderItemId != id)
    ensures DecreaseProgress(current, groups, id, remaining, k + 1, done, deleted, rem, reduced)
  {
    DrainAt(Scan(groups), k, id, rem);
  }

  lemma DecreaseDeletesLast(current: seq<FulfillmentGroup>, groups: seq<FulfillmentGroup>, id: nat, remaining: int,
                            k: nat, deleted: seq<ItemRef>, rem: int, here: ItemRef)
    requires DecreaseProgress(current, groups, id, remaining, k, false, deleted, rem, None)
    requires k < |Scan(groups)| && Scan(groups)[k] == here && here.item.orderItemId == id && here.item.quantity == rem
    ensures DecreaseProgress(current, groups, id, remaining, k + 1, true, deleted + [here], rem, None)
  {
    DrainAt(Scan(groups), k, id, rem);
  }

  lemma DecreaseReduces(current: seq<FulfillmentGroup>, groups: seq<FulfillmentGroup>, id: nat, remaining: int,
                        k: nat, deleted: seq<ItemRef>, rem: int, g: nat, j: nat, fgItem: FulfillmentGroupItem)
    requires DecreaseProgress(current, groups, id, remaining, k, false, deleted, rem, None)
    requires k < |Scan(groups)| && Scan(groups)[k] == ItemRef(g, j, fgItem)
    requires fgItem.orderItemId == id && fgItem.quantity > rem
    ensures DecreaseProgress(SetQuantity(current, g, j, fgItem.quantity - rem), groups, id, remaining,
                             k + 1, true, deleted, rem, Some(Reduction(ItemRef(g, j, fgItem), fgItem.quantity - rem)))
  {
    DrainAt(Scan(groups), k, id, rem);
    assert deleted + [] == deleted;
  }

  lemma DecreaseDeletes(current: seq<FulfillmentGroup>, groups: seq<FulfillmentGroup>, id: nat, remaining: int,
                        k: nat, deleted: seq<ItemRef>, rem: int, here: ItemRef)
    requires DecreaseProgress(current, groups, id, remaining, k, false, deleted, rem, None)
    requires k < |Scan(groups)| && Scan(groups)[k] == here && here.item.orderItemId == id && here.item.quantity < rem
    ensures DecreaseProgress(current, groups, id, remaining, k + 1, false, deleted + [here], rem - here.item.quantity, None)
  {
    var scan := Scan(groups);
    DrainAt(scan, k, id, rem);
    PrependTwice(deleted, [here], DrainFrom(scan[k + 1..], id, rem - here.item.quantity));
  }

  lemma DecreaseFinished(current: seq<FulfillmentGroup>, groups: seq<FulfillmentGroup>, id: nat, remaining: int,
                         done: bool, deleted: seq<ItemRef>, rem: int, reduced: Option<Reduction>)
    requires DecreaseProgress(current, groups, id, remaining, |Scan(groups)|, done, deleted, rem, reduced)
    ensures match DrainFrom(Scan(groups), id, remaining)
      case Exhausted => !done && current == groups
      case Drained(d, r) => done && deleted == d && current == Reduce(groups, r)
  {
    var scan := Scan(groups);
    assert scan[|scan|..] == [];
  }

  class FulfillmentGroupItemStrategy {
    var removeEmptyFulfillmentGroups: bool

    constructor ()
      ensures removeEmptyFulfillmentGroups
    {
      removeEmptyFulfillmentGroups := true;
    }

    function IsRemoveEmptyFulfillmentGroups(): bool
      reads this
    {
      removeEmptyFulfillmentGroups
    }

    method SetRemoveEmptyFulfillmentGroups(removeEmptyFulfillmentGroups: bool)
      modifies this
      ensures this.removeEmptyFulfillmentGroups == removeEmptyFulfillmentGroups
    {
      this.removeEmptyFulfillmentGroups := removeEmptyFulfillmentGroups;
    }

    /** The group service's addItemToFulfillmentGroup, whose body is not part of this model: it is
        taken to append an item of `quantity` units of the order item to the end of group `g`. */
    method AddItemToFulfillmentGroup(order: Order, orderItem: OrderItem, quantity: int, g: nat)
      requires g < |order.fulfillmentGroups|
      modifies order`fulfillmentGroups
      ensures order.fulfillmentGroups == old(order.fulfillmentGroups)[g :=
        old(order.fulfillmentGroups)[g].(groupItems :=
          old(order.fulfillmentGroups)[g].groupItems + [FulfillmentGroupItem(orderItem.id, quantity)])]
    {
      var fg := order.fulfillmentGroups[g];
      order.fulfillmentGroups := order.fulfillmentGroups[g :=
        fg.(groupItems := fg.groupItems + [FulfillmentGroupItem(orderItem.id, quantity)])];
    }

    /** Allocates the whole quantity of the request's order item to the first group of its target type,
        creating and appending that group when the order has none. */
    method OnItemAdded(request: CartOperationRequest)
      modifies request.order`fulfillmentGroups
      ensures request.order.fulfillmentGroups ==
        AddItem(old(request.order.fulfillmentGroups), TargetType(request.orderItem),
                FulfillmentGroupItem(request.orderItem.id, request.orderItem.quantity))
    {
      var order := request.order;
      var orderItem := request.orderItem;
      var fulfillmentGroups, nullFulfillmentTypeGroup := OrganizeGroups(order.fulfillmentGroups);
      var fulfillmentType := ResolveFulfillmentType(orderItem);
      var target: nat;
      if fulfillmentType.Some? {
        var t := fulfillmentType.value;
        if t == PhysicalPickupOrShip {
          t := PhysicalShip;
        }
        if t in fulfillmentGroups {
          target := fulfillmentGroups[t];
        } else {
          var fulfillmentGroup := CreateEmptyFulfillmentGroup().(fulfillmentType := Some(t));
          order.fulfillmentGroups := order.fulfillmentGroups + [fulfillmentGroup];
          target := |order.fulfillmentGroups| - 1;
        }
      } else {
        if nullFulfillmentTypeGroup.Some? {
          target := nullFulfillmentTypeGroup.value;
        } else {
          var fulfillmentGroup := CreateEmptyFulfillmentGroup();
          order.fulfillmentGroups := order.fulfillmentGroups + [fulfillmentGroup];
          target := |order.fulfillmentGroups| - 1;
        }
      }
      AddItemToFulfillmentGroup(order, orderItem, orderItem.quantity, target);
    }

    /** A zero delta changes nothing; any other delta is applied by UpdateItemQuantity, whose list of
        items to delete replaces the request's list when it succeeds. */
    method OnItemUpdated(request: CartOperationRequest) returns (r: Outcome<StrategyError>)
      modifies request`fgisToDelete, request.order`fulfillmentGroups
      ensures request.orderItemQuantityDelta == 0 ==>
        && r == Pass
        && request.order.fulfillmentGroups == old(request.order.fulfillmentGroups)
        && request.fgisToDelete == old(request.fgisToDelete)
      ensures request.orderItemQuantityDelta != 0 ==>
        match UpdateSpec(old(request.order.fulfillmentGroups), request.orderItem.id, request.orderItemQuantityDelta)
        case Failure(e) =>
          && r == Fail(e)
          && request.order.fulfillmentGroups == old(request.order.fulfillmentGroups)
          && request.fgisToDelete == old(request.fgisToDelete)
        case Success(u) =>
          && r == Pass
          && request.order.fulfillmentGroups == u.groups
          && request.fgisToDelete == u.toDelete
    {
      var order := request.order;
      var orderItem := request.orderItem;
      var orderItemQuantityDelta := request.orderItemQuantityDelta;
      if orderItemQuantityDelta == 0 {
        return Pass;
      }
      var updated := UpdateItemQuantity(order, orderItem, orderItemQuantityDelta);
      match updated {
        case Failure(e) =>
          return Fail(e);
        case Success(fgisToDelete) =>
          request.fgisToDelete := fgisToDelete;
      }
      return Pass;
    }

    /** Applies `orderItemQuantityDelta` to the allocations of the order item, visiting groups in list
        order and each group's items in list order. A positive delta is added to the first item of the
        order item; otherwise items are drained from the first on, deleting those the decrement uses
        up and reducing the one that covers the rest. Fails, leaving the order as it was, when the scan
        ends before the update is done. */
    method UpdateItemQuantity(order: Order, orderItem: OrderItem, orderItemQuantityDelta: int)
      returns (r: Result<seq<ItemRef>, StrategyError>)
      modifies order`fulfillmentGroups
      ensures match UpdateSpec(old(order.fulfillmentGroups), orderItem.id, orderItemQuantityDelta)
        case Failure(e) => r == Failure(e) && order.fulfillmentGroups == old(order.fulfillmentGroups)
        case Success(u) => r == Success(u.toDelete) && order.fulfillmentGroups == u.groups
    {
      var fgisToDelete: seq<ItemRef> := [];
      var done: bool;
      if orderItemQuantityDelta > 0 {
        FirstOfMatching(Scan(order.fulfillmentGroups), orderItem.id);
        done := IncreaseFirstItem(order, orderItem, orderItemQuantityDelta);
      } else {
        done, fgisToDelete := DecreaseItems(order, orderItem, -orderItemQuantityDelta);
      }
      if !done {
        return Failure(NoMatchingGroupItem);
      }
      return Success(fgisToDelete);
    }

    /** The positive branch of updateItemQuantity: the first item of the order item in scan order
        grows by `delta`; `done` tells whether there was one. */
    method IncreaseFirstItem(order: Order, orderItem: OrderItem, delta: int) returns (done: bool)
      modifies order`fulfillmentGroups
      ensures var first := FirstOf(Scan(old(order.fulfillmentGroups)), orderItem.id);
        && (done <==> first.Some?)
        && (!done ==> order.fulfillmentGroups == old(order.fulfillmentGroups))
        && (done ==> (order.fulfillmentGroups ==
              SetQuantity(old(order.fulfillmentGroups), first.value.group, first.value.index, first.value.item.quantity + delta)))
    {
      var groups := order.fulfillmentGroups;
      var id := orderItem.id;
      done := false;
      ghost var k := 0;
      var g := 0;
      while g < |groups|
        invariant 0 <= g <= |groups|
        invariant k == |Scan(groups[..g])|
        invariant IncreaseProgress(order.fulfillmentGroups, groups, id, delta, k, done)
      {
        var fgItems := groups[g].groupItems;
        var j := 0;
        while j < |fgItems|
          invariant 0 <= j <= |fgItems|
          invariant k == |Scan(groups[..g])| + j
          invariant IncreaseProgress(order.fulfillmentGroups, groups, id, delta, k, done)
        {
          var fgItem := fgItems[j];
          var here := ItemRef(g, j, fgItem);
          ScanIndex(groups, g, j);
          assert Scan(groups)[k] == here;
          if !done && fgItem.orderItemId == id {
            IncreaseHits(order.fulfillmentGroups, groups, id, delta, k, g, j, fgItem);
            order.fulfillmentGroups := SetQuantity(order.fulfillmentGroups, g, j, fgItem.quantity + delta);
            done := true;
          } else {
            IncreaseSkips(order.fulfillmentGroups, groups, id, delta, k, done);
          }
          j := j + 1;
          k := k + 1;
        }
        ScanStep(groups, g);
        g := g + 1;
      }
      assert groups[..g] == groups;
      IncreaseFinished(order.fulfillmentGroups, groups, id, delta, done);
    }

    /** The other branch of updateItemQuantity: `remaining` units are drained from the order item's
        items in scan order; `done` tells whether they were all found. */
    method DecreaseItems(order: Order, orderItem: OrderItem, remaining: int) returns (done: bool, fgisToDelete: seq<ItemRef>)
      modifies order`fulfillmentGroups
      ensures match DrainFrom(Scan(old(order.fulfillmentGroups)), orderItem.id, remaining)
        case Exhausted => !done && order.fulfillmentGroups == old(order.fulfillmentGroups)
        case Drained(deleted, reduced) =>
          done && fgisToDelete == deleted && order.fulfillmentGroups == Reduce(old(order.fulfillmentGroups), reduced)
    {
      var groups := order.fulfillmentGroups;
      var id := orderItem.id;
      ghost var reduced: Option<Reduction> := None;
      var remainingToDecrement := remaining;
      fgisToDelete := [];
      done := false;
      ghost var k := 0;
      var g := 0;
      while g < |groups|
        invariant 0 <= g <= |groups|
        invariant k == |Scan(groups[..g])|
        invariant DecreaseProgress(order.fulfillmentGroups, groups, id, remaining, k, done, fgisToDelete, remainingToDecrement, reduced)
      {
        var fgItems := groups[g].groupItems;
        var j := 0;
        while j < |fgItems|
          invariant 0 <= j <= |fgItems|
          invariant k == |Scan(groups[..g])| + j
          invariant DecreaseProgress(order.fulfillmentGroups, groups, id, remaining, k, done, fgisToDelete, remainingToDecrement, reduced)
        {
          var fgItem := fgItems[j];
          var here := ItemRef(g, j, fgItem);
          ScanIndex(groups, g, j);
          assert Scan(groups)[k] == here;
          if fgItem.orderItemId == id {
            if !done && fgItem.quantity == remainingToDecrement {
              DecreaseDeletesLast(order.fulfillmentGroups, groups, id, remaining, k, fgisToDelete, remainingToDecrement, here);
              fgisToDelete := fgisToDelete + [here];
              done := true;
            } else if !done && fgItem.quantity > remainingToDecrement {
              DecreaseReduces(order.fulfillmentGroups, groups, id, remaining, k, fgisToDelete, remainingToDecrement, g, j, fgItem);
              reduced := Some(Reduction(here, fgItem.quantity - remainingToDecrement));
              order.fulfillmentGroups := SetQuantity(order.fulfillmentGroups, g, j, fgItem.quantity - remainingToDecrement);
              done := true;
            } else if !done {
              DecreaseDeletes(order.fulfillmentGroups, groups, id, remaining, k, fgisToDelete, remainingToDecrement, here);
              remainingToDecrement := remainingToDecrement - fgItem.quantity;
              fgisToDelete := fgisToDelete + [here];
            } else {
              DecreaseSkips(order.fulfillmentGroups, groups, id, remaining, k, done, fgisToDelete, remainingToDecrement, reduced);
            }
          } else {
            DecreaseSkips(order.fulfillmentGroups, groups, id, remaining, k, done, fgisToDelete, remainingToDecrement, reduced);
          }
          j := j + 1;
          k := k + 1;
        }
        ScanStep(groups, g);
        g := g + 1;
      }
      assert groups[..g] == groups;
      DecreaseFinished(order.fulfillmentGroups, groups, id, remaining, done, fgisToDelete, remainingToDecrement, reduced);
    }

    /** Appends every item of the request's order item, as the group service reports them, to the
        request's list of items to delete. */
    method OnItemRemoved(request: CartOperationRequest)
      modifies request`fgisToDelete
      ensures request.fgisToDelete ==
        old(request.fgisToDelete) + ItemsForOrderItem(request.order.fulfillmentGroups, request.orderItem.id)
    {
      var order := request.order;
      var orderItem := request.orderItem;
      request.fgisToDelete := request.fgisToDelete + ItemsForOrderItem(order.fulfillmentGroups, orderItem.id);
    }

    /** The list-iterator pass of verify: every group without items is removed from the order, the
        others keep their order. */
    method RemoveEmptyGroups(order: Order)
      modifies order`fulfillmentGroups
      ensures order.fulfillmentGroups == Prune(old(order.fulfillmentGroups))
    {
      ghost var original := order.fulfillmentGroups;
      var i := 0;
      ghost var m := 0;
      while i < |order.fulfillmentGroups|
        invariant 0 <= i <= |order.fulfillmentGroups| && 0 <= m <= |original|
        invariant order.fulfillmentGroups[..i] == Prune(original[..m])
        invariant order.fulfillmentGroups[i..] == original[m..]
        decreases |order.fulfillmentGroups| - i
      {
        var fg := order.fulfillmentGroups[i];
        assert original[m] == fg;
        assert original[..m + 1][..m] == original[..m];
        if fg.groupItems == [] {
          order.fulfillmentGroups := order.fulfillmentGroups[..i] + order.fulfillmentGroups[i + 1..];
        } else {
          i := i + 1;
        }
        m := m + 1;
      }
      assert original[m..] == [];
      assert original[..m] == original;
      assert order.fulfillmentGroups == order.fulfillmentGroups[..i];
    }

    /** Drops the empty groups when so configured, then checks that the order is balanced. */
    method Verify(request: CartOperationRequest) returns (r: Outcome<StrategyError>)
      modifies request.order`fulfillmentGroups
      ensures request.order.fulfillmentGroups ==
        if removeEmptyFulfillmentGroups then Prune(old(request.order.fulfillmentGroups))
        else old(request.order.fulfillmentGroups)
      ensures r == Pass <==> Balanced(request.order.orderItems, old(request.order.fulfillmentGroups))
      ensures r.Fail? ==> r.error.GroupItemsOutOfSync? || r.error.NotEnoughGroupItems?
      ensures (r.Fail? && r.error.GroupItemsOutOfSync?) <==>
        !AllocationsKnown(old(request.order.fulfillmentGroups), OrderItemIds(request.order.orderItems))
      ensures r.Fail? && r.error.GroupItemsOutOfSync? ==>
        exists i, j :: FirstUnknownAt(request.order.fulfillmentGroups, OrderItemIds(request.order.orderItems), i, j, r.error.orderItemId)
      ensures r.Fail? && r.error.NotEnoughGroupItems? ==>
        && r.error.orderItemId in OrderItemIds(request.order.orderItems)
        && OrderedQuantity(request.order.orderItems, r.error.orderItemId) !=
           Allocated(old(request.order.fulfillmentGroups), r.error.orderItemId)
    {
      var order := request.order;
      ghost var original := order.fulfillmentGroups;
      if IsRemoveEmptyFulfillmentGroups() {
        RemoveEmptyGroups(order);
      }
      PruneKeepsBalance(order.orderItems, original);
      PruneKeepsKnown(original, OrderItemIds(order.orderItems));
      forall id ensures Allocated(Prune(original), id) == Allocated(original, id) {
        PruneKeepsAllocated(original, id);
      }
      r := CheckQuantities(order.orderItems, order.fulfillmentGroups);
    }
  }
}
