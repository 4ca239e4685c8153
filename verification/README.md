# Fulfillment group item strategy

A Dafny model of Broadleaf Commerce's default fulfillment group item strategy. Every cart operation calls this strategy to keep an order's fulfillment groups in step with its order items.

- A **fulfillment group** has an optional fulfillment type (PHYSICAL_SHIP, PHYSICAL_PICKUP, PHYSICAL_PICKUP_OR_SHIP, …). It holds a list of **fulfillment group items**.
- A fulfillment group item allocates a quantity of one order item to its group.
- The strategy keeps one invariant: for every order item, the quantities allocated to it over all groups add up to its own quantity. `verify` checks this at the end of every cart operation.

The operations modelled:

- **onItemAdded.** The whole quantity of the new order item goes to the first group of its fulfillment type. An item without a type goes to the first untyped group. PHYSICAL_PICKUP_OR_SHIP is treated as PHYSICAL_SHIP. A new group is created and appended only when no group fits.
- **onItemUpdated / updateItemQuantity.**
  - A zero delta changes nothing.
  - A positive delta is added to the first item of the order item. Groups are visited in list order, and each group's items in list order.
  - A negative delta is drained over the order item's items in the same order.
    - An item the decrement uses up is handed back in the list of items to delete.
    - The item that covers the rest is reduced in place.
  - The update fails (an IllegalStateException in the source) when the scan ends before it is done.
- **onItemRemoved** appends every item of the order item to the request's list of items to delete.
- **verify.**
  - When the `removeEmptyFulfillmentGroups` option is on (the default), it first removes the groups that hold no item.
  - It then fails when an item refers to an order item the order does not have.
  - It also fails when some order item's ordered and allocated quantities differ.

## How the model is built

- **Values and state.**
  - `Order` and `CartOperationRequest` are classes whose fields the operations reassign.
  - Groups and their items are values: an order's groups are a `seq<FulfillmentGroup>`.
  - An order item is referred to by its id.
  - An item handed back for deletion is an `ItemRef`: its group index, its index within the group and its value at the time of the call.
- **Reference definitions.** Each operation is specified by a function in module `Allocation`: `AddItem`, `UpdateSpec` (with `DrainFrom` for the decrement), `ItemsForOrderItem` and `Prune`, together with the invariant `Balanced`, defined in module `OrderModel`. The properties are lemmas about those functions.
- **Imperative code.** The loops of the source are methods of `Strategy.FulfillmentGroupItemStrategy`, plus module-level methods for the read-only loops. Each one's `ensures` ties its result or new state to the reference definition.
- **Worked cases.** Module `Scenarios` checks the definitions on small concrete orders.

## Model

| member | source | states |
|---|---|---|
| Allocation.TargetType | order/src/main/java/org/broadleafcommerce/core/order/strategy/FulfillmentGroupItemStrategyImpl.java:92-101 | The type used to pick a group is never PHYSICAL_PICKUP_OR_SHIP. A PHYSICAL_PICKUP_OR_SHIP item gets PHYSICAL_SHIP. Any other item gets the type of its detail record, and no type when it has no detail (lines 136-141). |
| Allocation.ResolveFulfillmentType | order/src/main/java/org/broadleafcommerce/core/order/strategy/FulfillmentGroupItemStrategyImpl.java:136-141 | An item without a detail record has no type; an item with one has exactly the type its detail record carries, which may itself be none. |
| Allocation.FirstGroupOfType | order/src/main/java/org/broadleafcommerce/core/order/strategy/FulfillmentGroupItemStrategyImpl.java:78-90 | The chosen index has the requested type, and no earlier group has it. The result is the list length when no group has the type. |
| Strategy.OrganizeGroups | order/src/main/java/org/broadleafcommerce/core/order/strategy/FulfillmentGroupItemStrategyImpl.java:76-90 | After the loop, the map holds exactly the types that occur, each mapped to the first group of that type. The untyped slot holds the first untyped group, or nothing when there is none. |
| Allocation.AddItemPlacement | order/src/main/java/org/broadleafcommerce/core/order/strategy/FulfillmentGroupItemStrategyImpl.java:93-124 | The group list keeps its length iff some group has the target type. It grows by exactly one iff none does; the new last group has the target type and holds only the new item. Every existing group keeps its place and its type. Only the first group of the type changes, and it gains the item at the end. |
| Allocation.AddNeverUsesPickupOrShip | order/src/main/java/org/broadleafcommerce/core/order/strategy/FulfillmentGroupItemStrategyImpl.java:95-101 | After an add, every PHYSICAL_PICKUP_OR_SHIP group is one that existed before, unchanged. |
| Allocation.AddItemAllocates | order/src/main/java/org/broadleafcommerce/core/order/strategy/FulfillmentGroupItemStrategyImpl.java:143-154 | An add raises the added order item's allocated total by the item's quantity. Every other order item's total is unchanged. |
| Allocation.AddKeepsBalance | order/src/main/java/org/broadleafcommerce/core/order/strategy/FulfillmentGroupItemStrategyImpl.java:70-127 | Starting from a balanced order, adding an order item together with its allocation leaves the order balanced. |
| Strategy.FulfillmentGroupItemStrategy.AddItemToFulfillmentGroup | order/src/main/java/org/broadleafcommerce/core/order/strategy/FulfillmentGroupItemStrategyImpl.java:147-154 | The chosen group gains an item for the order item with the given quantity, at the end. All other groups are unchanged. This is the group service's behaviour as assumed by the model. |
| Strategy.FulfillmentGroupItemStrategy.OnItemAdded | order/src/main/java/org/broadleafcommerce/core/order/strategy/FulfillmentGroupItemStrategyImpl.java:70-127 | The order's groups become `AddItem` of the old groups, for the item's target type and its whole quantity. |
| Strategy.FulfillmentGroupItemStrategy.OnItemUpdated | order/src/main/java/org/broadleafcommerce/core/order/strategy/FulfillmentGroupItemStrategyImpl.java:157-170 | A zero delta returns normally and changes neither the groups nor the delete list. For any other delta: on failure nothing changes; on success the groups and the request's delete list are those of `UpdateSpec`. |
| Strategy.FulfillmentGroupItemStrategy.UpdateItemQuantity | order/src/main/java/org/broadleafcommerce/core/order/strategy/FulfillmentGroupItemStrategyImpl.java:172-220 | The result and the new groups are exactly those of `UpdateSpec` on the old groups. A failure is `NoMatchingGroupItem` and leaves the groups unchanged. |
| Strategy.FulfillmentGroupItemStrategy.IncreaseFirstItem | order/src/main/java/org/broadleafcommerce/core/order/strategy/FulfillmentGroupItemStrategyImpl.java:177-187 | `done` holds iff the order item has an item. In that case only its first item in scan order has grown, by the delta; otherwise the groups are unchanged. |
| Strategy.FulfillmentGroupItemStrategy.DecreaseItems | order/src/main/java/org/broadleafcommerce/core/order/strategy/FulfillmentGroupItemStrategyImpl.java:188-213 | `done`, the delete list and the new groups are exactly the outcome of `DrainFrom` over the scan of the old groups. When that outcome is `Exhausted`, `done` is false and the groups are unchanged. |
| Strategy.FirstOfMatching | order/src/main/java/org/broadleafcommerce/core/order/strategy/FulfillmentGroupItemStrategyImpl.java:180-185 | The item the increment loop stops at is the first item of the order item in scan order. |
| Allocation.IncrementChangesFirstOnly | order/src/main/java/org/broadleafcommerce/core/order/strategy/FulfillmentGroupItemStrategyImpl.java:177-187 | A positive delta fails iff the order item has no item. On success, the delete list is empty and no group moves, changes type or gains or loses items. Only the first item of the order item changes, and its quantity grows by exactly the delta. |
| Allocation.DecrementShape | order/src/main/java/org/broadleafcommerce/core/order/strategy/FulfillmentGroupItemStrategyImpl.java:188-213 | A successful decrement's delete list is a prefix of the order item's items in scan order. No group moves, changes type or gains or loses items. At most one item changes: the order item's next item, whose quantity drops but stays positive. |
| Allocation.DrainAccounts | order/src/main/java/org/broadleafcommerce/core/order/strategy/FulfillmentGroupItemStrategyImpl.java:191-209 | When a decrement finishes, the deleted quantities plus the in-place reduction add up to exactly the amount requested. |
| Allocation.DrainPrefix | order/src/main/java/org/broadleafcommerce/core/order/strategy/FulfillmentGroupItemStrategyImpl.java:193-212 | The deleted items are the order item's first items in scan order. The reduced item, if any, is the next one; its new quantity is positive and no larger than before. A drain that reduces nothing deletes at least one item. |
| Allocation.DrainExhaustedIff | order/src/main/java/org/broadleafcommerce/core/order/strategy/FulfillmentGroupItemStrategyImpl.java:193-217 | With positive quantities, a decrement of `remaining` units ends without `done` iff the order item has no item, or its items hold fewer than `remaining` units. |
| Allocation.IncrementBalances | order/src/main/java/org/broadleafcommerce/core/order/strategy/FulfillmentGroupItemStrategyImpl.java:177-187 | A successful increment hands back nothing. It raises the order item's allocated total by the delta and leaves every other total unchanged. |
| Allocation.DecrementBalances | order/src/main/java/org/broadleafcommerce/core/order/strategy/FulfillmentGroupItemStrategyImpl.java:188-213 | Every item handed back by a successful decrement belongs to the order item. The units handed back plus the units taken in place equal the decrement. Other order items keep their totals. |
| Allocation.UpdateBalances | order/src/main/java/org/broadleafcommerce/core/order/strategy/FulfillmentGroupItemStrategyImpl.java:172-219 | After a successful update, once the handed-back items are deleted, the order item's allocation has moved by exactly the delta. Every other order item's allocation is unchanged. |
| Allocation.UpdateFailsIff | order/src/main/java/org/broadleafcommerce/core/order/strategy/FulfillmentGroupItemStrategyImpl.java:215-217 | With positive quantities, an update fails iff the order item has no item in any group, or the decrement is larger than its allocated total. |
| Allocation.UpdateKeepsPositive | order/src/main/java/org/broadleafcommerce/core/order/strategy/FulfillmentGroupItemStrategyImpl.java:196-209 | A successful update keeps every allocated quantity positive. |
| OrderModel.SetQuantity | order/src/main/java/org/broadleafcommerce/core/order/strategy/FulfillmentGroupItemStrategyImpl.java:202 | `setQuantity` on one item changes that item's quantity and nothing else. Every group keeps its type and its number of items. |
| OrderModel.SetQuantityAllocated | order/src/main/java/org/broadleafcommerce/core/order/strategy/FulfillmentGroupItemStrategyImpl.java:183 | Setting one item's quantity changes only its own order item's allocated total, by the difference. |
| OrderModel.ScanValid | order/src/main/java/org/broadleafcommerce/core/order/strategy/FulfillmentGroupItemStrategyImpl.java:180-181 | Every position in the nested-loop scan names an existing item and carries its current value. |
| OrderModel.ScanOrdered | order/src/main/java/org/broadleafcommerce/core/order/strategy/FulfillmentGroupItemStrategyImpl.java:193-194 | The nested loops visit groups in list order, and items in list order within a group. |
| OrderModel.ScanComplete | order/src/main/java/org/broadleafcommerce/core/order/strategy/FulfillmentGroupItemStrategyImpl.java:262-263 | The nested loops visit every item of every group. |
| OrderModel.ScanIndex | order/src/main/java/org/broadleafcommerce/core/order/strategy/FulfillmentGroupItemStrategyImpl.java:193-194 | Item `j` of group `g` is visited right after all items of the earlier groups and the first `j` items of its own group. |
| OrderModel.Matching | order/src/main/java/org/broadleafcommerce/core/order/strategy/FulfillmentGroupItemStrategyImpl.java:195 | The items kept by the `equals(orderItem)` test are exactly those of the order item. |
| OrderModel.AllocatedIsMatchingSum | order/src/main/java/org/broadleafcommerce/core/order/strategy/FulfillmentGroupItemStrategyImpl.java:262-273 | Summing an order item's quantities group by group gives the same total as summing its items in scan order. |
| Strategy.FulfillmentGroupItemStrategy.OnItemRemoved | order/src/main/java/org/broadleafcommerce/core/order/strategy/FulfillmentGroupItemStrategyImpl.java:223-228 | The request's delete list grows by the order item's items, appended after what it already held. The groups are unchanged. |
| Allocation.RemovalTakesAll | order/src/main/java/org/broadleafcommerce/core/order/strategy/FulfillmentGroupItemStrategyImpl.java:226 | The items handed over on removal belong to the order item and sit at the positions they name. They include every item of the order item, and together they carry its whole allocated total. |
| Allocation.AddThenRemove | order/src/main/java/org/broadleafcommerce/core/order/strategy/FulfillmentGroupItemStrategyImpl.java:70-228 | If the order item had nothing allocated, adding it and then removing it hands back exactly its quantity. |
| Strategy.FulfillmentGroupItemStrategy.RemoveEmptyGroups | order/src/main/java/org/broadleafcommerce/core/order/strategy/FulfillmentGroupItemStrategyImpl.java:234-243 | The order's groups become `Prune` of the old groups. |
| Allocation.Prune | order/src/main/java/org/broadleafcommerce/core/order/strategy/FulfillmentGroupItemStrategyImpl.java:236-241 | Pruning never lengthens the list, and every remaining group holds an item. |
| Allocation.PruneMembers | order/src/main/java/org/broadleafcommerce/core/order/strategy/FulfillmentGroupItemStrategyImpl.java:238-239 | A group survives pruning iff it holds an item. |
| Allocation.PruneAppend | order/src/main/java/org/broadleafcommerce/core/order/strategy/FulfillmentGroupItemStrategyImpl.java:235-242 | Pruning decides group by group, and the kept groups stay in their order. |
| Allocation.PruneSingle | order/src/main/java/org/broadleafcommerce/core/order/strategy/FulfillmentGroupItemStrategyImpl.java:238 | A single group is dropped iff it holds no item. |
| Allocation.PruneKeepsAllocated | order/src/main/java/org/broadleafcommerce/core/order/strategy/FulfillmentGroupItemStrategyImpl.java:234-243 | Pruning leaves every order item's allocated total unchanged. |
| Allocation.PruneKeepsKnown | order/src/main/java/org/broadleafcommerce/core/order/strategy/FulfillmentGroupItemStrategyImpl.java:234-243 | Pruning does not change whether every item refers to a known order item. |
| Allocation.PruneKeepsBalance | order/src/main/java/org/broadleafcommerce/core/order/strategy/FulfillmentGroupItemStrategyImpl.java:231-282 | Pruning does not change whether the order is balanced, so its verdict is the same with the option on or off. |
| Strategy.OrderedQuantities | order/src/main/java/org/broadleafcommerce/core/order/strategy/FulfillmentGroupItemStrategyImpl.java:245-260 | The map's keys are exactly the ids of the order items. Each value is the sum of the quantities of the order items with that id. |
| Strategy.SubtractAllocations | order/src/main/java/org/broadleafcommerce/core/order/strategy/FulfillmentGroupItemStrategyImpl.java:262-273 | The loop fails iff some item refers to an id missing from the map. The failure names the first such item in scan order. On success the keys are unchanged, and each value has dropped by the id's allocated total. |
| Strategy.FindImbalance | order/src/main/java/org/broadleafcommerce/core/order/strategy/FulfillmentGroupItemStrategyImpl.java:275-279 | Nothing is found iff every residual is zero. A found key has a non-zero residual. |
| Strategy.CheckQuantities | order/src/main/java/org/broadleafcommerce/core/order/strategy/FulfillmentGroupItemStrategyImpl.java:245-279 | The check passes iff the order is balanced. It reports an out-of-sync item iff some item refers to an unknown order item, naming such an item. Otherwise it names an order item whose ordered and allocated quantities differ. |
| Strategy.FulfillmentGroupItemStrategy.Verify | order/src/main/java/org/broadleafcommerce/core/order/strategy/FulfillmentGroupItemStrategyImpl.java:231-282 | With the option on, the groups become their pruned form; with it off, they are unchanged. The verdict is pass iff the order as it stood was balanced. An out-of-sync failure happens iff some item refers to an unknown order item, and it names the first such item in scan order over the groups verify walks. A not-enough failure names an order item whose ordered and allocated quantities differ. |
| Strategy.FulfillmentGroupItemStrategy.constructor | order/src/main/java/org/broadleafcommerce/core/order/strategy/FulfillmentGroupItemStrategyImpl.java:67 | Pruning of empty groups is on by default. |
| Strategy.FulfillmentGroupItemStrategy.SetRemoveEmptyFulfillmentGroups | order/src/main/java/org/broadleafcommerce/core/order/strategy/FulfillmentGroupItemStrategyImpl.java:289-292 | The option takes the given value. |
| Scenarios.DecrementSpansTwoItems | order/src/main/java/org/broadleafcommerce/core/order/strategy/FulfillmentGroupItemStrategyImpl.java:188-213 | Items of 5 and 3 units, decremented by 6: the first is deleted and the second is reduced to 2, leaving 2 units allocated. |
| Scenarios.DecrementExactMatch | order/src/main/java/org/broadleafcommerce/core/order/strategy/FulfillmentGroupItemStrategyImpl.java:196-199 | A single item of 4 units, decremented by 4, is deleted, and no item is reduced. |
| Scenarios.DecrementUnderflows | order/src/main/java/org/broadleafcommerce/core/order/strategy/FulfillmentGroupItemStrategyImpl.java:204-217 | Items of 2 and 3 units, decremented by 6, make the update fail. |
| Scenarios.SecondShipItemJoinsGroup | order/src/main/java/org/broadleafcommerce/core/order/strategy/FulfillmentGroupItemStrategyImpl.java:102-113 | In an order without groups, a PHYSICAL_SHIP item creates one PHYSICAL_SHIP group holding its whole quantity. A second PHYSICAL_SHIP item joins that group. |
| Scenarios.PickupOrShipJoinsShipGroup | order/src/main/java/org/broadleafcommerce/core/order/strategy/FulfillmentGroupItemStrategyImpl.java:95-102 | A PHYSICAL_PICKUP_OR_SHIP item skips an earlier PHYSICAL_PICKUP_OR_SHIP group and joins the PHYSICAL_SHIP group. |

## Left out

- Spring wiring, the order service, the fulfillment group item DAO and logging: they take no part in the strategy's decisions.
- The bodies of the group service's methods are not part of this model. Their assumed behaviour:
  - `createEmptyFulfillmentGroup` returns an untyped group with no items.
  - `addItemToFulfillmentGroup` appends one item for the order item, with the given quantity, to the end of the chosen group.
  - `getFulfillmentGroupItemsForOrderItem` returns every item of the order item, in list order of groups and items.
  - `delete(fg)` is not modelled, because it only persists the removal that the list update already shows.
- Removal of the handed-back items: the strategy only lists them in the request. The surrounding cart workflow deletes them, so the lemmas state totals "once the handed-back items are deleted".
- Object identity and aliasing: groups and items are values, and the delete list records each item by its position and value. Two distinct Java objects with equal contents are therefore not told apart.
- `OrderItem.equals` is modelled as equality of order item ids.
- Integer overflow: Java's `int` quantities are unbounded integers here. The `Long` ids are natural numbers: a negative id and a null id are not modelled.
- Null collections and null checks (`getFulfillmentGroups() == null`, a null item list in `verify`): every list is present, and a null list counts as empty.
- `PricingException` from the group service is not modelled; only the strategy's own IllegalStateExceptions are, as `StrategyError`.
- `verify` walks a `HashMap` in an unspecified order. `FindImbalance` picks an arbitrary non-zero entry, so the model does not say which mismatching order item is reported first.
- `setOrder(order)` on a new group and the reassignment `order = fulfillmentGroup.getOrder()` are not modelled, because every group belongs to the one order.
- Allocation.UpdateFailsIff, Allocation.DrainExhaustedIff, Allocation.UpdateKeepsPositive: these assume every allocated quantity is positive. With zero or negative quantities the source's decrement can behave differently, and that case is not characterised.
- Allocation.AddThenRemove: states the quantity handed back, not that the order afterwards holds no allocation of the item. The deletion itself is outside the strategy.
- Decrement underflow is reported as `NoMatchingGroupItem`. The source throws the same "Could not find matching fulfillment group item" exception for a missing item and for an underflow, and does not tell them apart.
