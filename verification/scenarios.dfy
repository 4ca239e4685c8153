/** Worked cases of the strategy's reference definitions on small concrete orders. */
module Scenarios {
  import opened Wrappers
  import opened OrderModel
  import opened Allocation

  /** Items of 5 and then 3 units of one order item, decremented by 6: the first is deleted, the
      second is reduced to 2, and 2 units stay allocated once the deletion is carried out. */
  lemma DecrementSpansTwoItems()
    ensures var ship := FulfillmentGroup(Some(PhysicalShip), [FulfillmentGroupItem(1, 5)]);
      var pickup := FulfillmentGroup(Some(PhysicalPickup), [FulfillmentGroupItem(1, 3)]);
      var u := UpdateSpec([ship, pickup], 1, -6);
      && u == Success(Update([ship, pickup.(groupItems := [FulfillmentGroupItem(1, 2)])],
                             [ItemRef(0, 0, FulfillmentGroupItem(1, 5))]))
      && Allocated(u.value.groups, 1) - QuantitySum(u.value.toDelete) == 2
  {
    var ship := FulfillmentGroup(Some(PhysicalShip), [FulfillmentGroupItem(1, 5)]);
    var pickup := FulfillmentGroup(Some(PhysicalPickup), [FulfillmentGroupItem(1, 3)]);
    var scan := [ItemRef(0, 0, FulfillmentGroupItem(1, 5)), ItemRef(1, 0, FulfillmentGroupItem(1, 3))];
    assert Scan([ship]) == scan[..1];
    assert Scan([ship, pickup]) == scan;
    assert DrainFrom(scan[1..], 1, 1) == Drained([], Some(Reduction(scan[1], 2)));
    var u := Update([ship, pickup.(groupItems := [FulfillmentGroupItem(1, 2)])], scan[..1]);
    assert DrainFrom(scan, 1, 6) == Drained(scan[..1], Some(Reduction(scan[1], 2))) by {
      assert scan[..1] == [scan[0]];
      assert scan[..1] + [] == scan[..1];
    }
    assert Reduce([ship, pickup], Some(Reduction(scan[1], 2))) == u.groups by {
      assert [FulfillmentGroupItem(1, 3)][0 := FulfillmentGroupItem(1, 2)] == [FulfillmentGroupItem(1, 2)];
      assert [ship, pickup][1 := u.groups[1]] == u.groups;
    }
    assert UpdateSpec([ship, pickup], 1, -6) == Success(u);
    assert Allocated(u.groups, 1) == 7 by {
      assert u.groups[..1] == [ship];
      assert [ship][..0] == [];
      assert ItemsTotal([FulfillmentGroupItem(1, 2)], 1) == 2 by {
        assert [FulfillmentGroupItem(1, 2)][1..] == [];
      }
      assert ItemsTotal([FulfillmentGroupItem(1, 5)], 1) == 5 by {
        assert [FulfillmentGroupItem(1, 5)][1..] == [];
      }
      assert Allocated([ship], 1) == 5;
      assert u.groups[1].groupItems == [FulfillmentGroupItem(1, 2)];
    }
  }

  /** A single item of 4 units decremented by 4 is deleted and nothing is reduced. */
  lemma DecrementExactMatch()
    ensures var groups := [FulfillmentGroup(Some(PhysicalShip), [FulfillmentGroupItem(1, 4)])];
      UpdateSpec(groups, 1, -4) == Success(Update(groups, [ItemRef(0, 0, FulfillmentGroupItem(1, 4))]))
  {
    var groups := [FulfillmentGroup(Some(PhysicalShip), [FulfillmentGroupItem(1, 4)])];
    assert Scan(groups) == [ItemRef(0, 0, FulfillmentGroupItem(1, 4))];
  }

  /** Items of 2 and 3 units decremented by 6 run out before `done` is set: the update fails. */
  lemma DecrementUnderflows()
    ensures var groups := [FulfillmentGroup(Some(PhysicalShip), [FulfillmentGroupItem(1, 2), FulfillmentGroupItem(1, 3)])];
      UpdateSpec(groups, 1, -6) == Failure(NoMatchingGroupItem)
  {
    var groups := [FulfillmentGroup(Some(PhysicalShip), [FulfillmentGroupItem(1, 2), FulfillmentGroupItem(1, 3)])];
    var scan := [ItemRef(0, 0, FulfillmentGroupItem(1, 2)), ItemRef(0, 1, FulfillmentGroupItem(1, 3))];
    assert Scan(groups) == scan;
    assert DrainFrom(scan[1..], 1, 4) == Exhausted;
  }

  /** The first PHYSICAL_SHIP item of an order without groups creates one PHYSICAL_SHIP group holding
      its whole quantity; a second one joins that group instead of creating another. */
  lemma SecondShipItemJoinsGroup()
    ensures var first := AddItem([], Some(PhysicalShip), FulfillmentGroupItem(1, 2));
      && first == [FulfillmentGroup(Some(PhysicalShip), [FulfillmentGroupItem(1, 2)])]
      && AddItem(first, Some(PhysicalShip), FulfillmentGroupItem(2, 1)) ==
           [FulfillmentGroup(Some(PhysicalShip), [FulfillmentGroupItem(1, 2), FulfillmentGroupItem(2, 1)])]
  {
    var first := [FulfillmentGroup(Some(PhysicalShip), [FulfillmentGroupItem(1, 2)])];
    var fgi := FulfillmentGroupItem(1, 2);
    assert FirstGroupOfType([], Some(PhysicalShip)) == 0;
    assert [] + [FulfillmentGroup(Some(PhysicalShip), [])] == [FulfillmentGroup(Some(PhysicalShip), [])];
    assert [] + [fgi] == [fgi];
    assert AddItem([], Some(PhysicalShip), FulfillmentGroupItem(1, 2)) == first;
    assert FirstGroupOfType(first, Some(PhysicalShip)) == 0;
    assert [fgi] + [FulfillmentGroupItem(2, 1)] == [fgi, FulfillmentGroupItem(2, 1)];
  }

  /** An item whose detail asks for PHYSICAL_PICKUP_OR_SHIP joins the PHYSICAL_SHIP group, not the
      PHYSICAL_PICKUP_OR_SHIP one that comes before it. */
  lemma PickupOrShipJoinsShipGroup()
    ensures var either := FulfillmentGroup(Some(PhysicalPickupOrShip), [FulfillmentGroupItem(1, 1)]);
      var ship := FulfillmentGroup(Some(PhysicalShip), [FulfillmentGroupItem(2, 1)]);
      var item := OrderItem(3, 4, Some(OrderItemDetail(Some(PhysicalPickupOrShip))));
      AddItem([either, ship], TargetType(item), FulfillmentGroupItem(3, 4)) ==
        [either, ship.(groupItems := [FulfillmentGroupItem(2, 1), FulfillmentGroupItem(3, 4)])]
  {
    var either := FulfillmentGroup(Some(PhysicalPickupOrShip), [FulfillmentGroupItem(1, 1)]);
    var ship := FulfillmentGroup(Some(PhysicalShip), [FulfillmentGroupItem(2, 1)]);
    var item := OrderItem(3, 4, Some(OrderItemDetail(Some(PhysicalPickupOrShip))));
    assert TargetType(item) == Some(PhysicalShip);
    assert PhysicalShip != PhysicalPickupOrShip by {
      assert PhysicalShip.key[9] != PhysicalPickupOrShip.key[9];
    }
    assert [either, ship][1..] == [ship];
    assert FirstGroupOfType([ship], Some(PhysicalShip)) == 0;
    assert FirstGroupOfType([either, ship], Some(PhysicalShip)) == 1;
    assert [FulfillmentGroupItem(2, 1)] + [FulfillmentGroupItem(3, 4)] == [FulfillmentGroupItem(2, 1), FulfillmentGroupItem(3, 4)];
  }
}
