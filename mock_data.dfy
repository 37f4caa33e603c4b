/** The sample records the screens start from: the menu, the inventory, the floor's
    tables and three open orders, with the consistency facts that hold between them.
    Images and last-updated stamps are not modelled. */
module MockData {

  import opened Wrappers
  import opened Types
  import OrderSummary
  import InventoryList

  function Drink(id: string, name: string, price: real): MenuItem
  {
    MenuItem(id, name, price, NonAlcoholic, None, true)
  }

  function Liquor(id: string, name: string, price: real, sub: Subcategory): MenuItem
  {
    MenuItem(id, name, price, Alcoholic, Some(sub), true)
  }

  function Dish(id: string, name: string, price: real): MenuItem
  {
    MenuItem(id, name, price, Food, None, true)
  }

  const MenuItems: seq<MenuItem> := [
    Drink("na-1", "Coca Cola", 45.0),
    Drink("na-2", "Fresh Orange Juice", 85.0),
    Drink("na-3", "Iced Coffee", 95.0),
    Drink("na-4", "Bottled Water", 25.0),
    Liquor("al-s-1", "Tequila Shot", 120.0, Shots),
    Liquor("al-s-2", "Vodka Shot", 110.0, Shots),
    Liquor("al-g-1", "Red Wine", 180.0, Glass),
    Liquor("al-g-2", "Whiskey on Rocks", 220.0, Glass),
    Liquor("al-p-1", "Beer Pitcher", 450.0, Pitcher),
    Liquor("al-b-1", "San Miguel Beer", 65.0, Bottled),
    Liquor("al-b-2", "Red Horse Beer", 70.0, Bottled),
    Dish("f-1", "Chicken Wings", 280.0),
    Dish("f-2", "Nachos", 220.0),
    Dish("f-3", "Caesar Salad", 180.0),
    Dish("f-4", "Grilled Burger", 320.0),
    Dish("f-5", "Fish & Chips", 380.0) ]

  const InventoryItems: seq<InventoryItem> := [
    InventoryItem("inv-1", "Coca Cola Syrup", "Beverages", "Liters", 180.0, 25.0, 5.0, 50.0, Some("Coca Cola Philippines")),
    InventoryItem("inv-2", "Tequila", "Spirits", "Bottles", 850.0, 8.0, 3.0, 20.0, Some("Premium Spirits Co.")),
    InventoryItem("inv-3", "Chicken Wings", "Food", "Kilograms", 320.0, 15.0, 5.0, 30.0, Some("Fresh Meat Suppliers")),
    InventoryItem("inv-4", "Red Wine", "Wine", "Bottles", 450.0, 12.0, 4.0, 25.0, Some("Wine Distributors Inc.")),
    InventoryItem("inv-5", "Beer Bottles", "Beer", "Cases", 1200.0, 6.0, 2.0, 15.0, Some("San Miguel Corporation")) ]

  const Tables: seq<Table> := [
    Table("t1", "T1", 4, Occupied, Some(3)),
    Table("t2", "T2", 2, Vacant, None),
    Table("t3", "T3", 6, Occupied, Some(5)),
    Table("t4", "T4", 4, Reserved, None),
    Table("t5", "T5", 2, Occupied, Some(2)),
    Table("t6", "T6", 8, Vacant, None),
    Table("t7", "T7", 4, Vacant, None),
    Table("t8", "T8", 2, Occupied, Some(2)) ]

  const MsPerMinute: int := 60 * 1000

  /** The three open orders, stamped relative to `now`. */
  function Orders(now: int): seq<Order>
  {
    [ Order("ord-1",
        [OrderItem("f-1", "Chicken Wings", 280.0, 1), OrderItem("al-b-1", "San Miguel Beer", 65.0, 2)],
        Some("T1"), AtTable, Cooking, 410.0, now - 15 * MsPerMinute, now - 10 * MsPerMinute, "waiter-1", "Maria Santos"),
      Order("ord-2",
        [OrderItem("al-s-1", "Tequila Shot", 120.0, 3)],
        None, WalkIn, Ready, 360.0, now - 8 * MsPerMinute, now - 2 * MsPerMinute, "bartender-1", "Juan Cruz"),
      Order("ord-3",
        [OrderItem("f-4", "Grilled Burger", 320.0, 1), OrderItem("f-2", "Nachos", 220.0, 1)],
        Some("T3"), AtTable, Prepared, 540.0, now - 25 * MsPerMinute, now - 5 * MsPerMinute, "waiter-2", "Ana Reyes") ]
  }

  /** Each stored total is the pre-tax sum of its lines: 410, 360 and 540; every
      order was last updated after it was created. */
  lemma OrderTotals(now: int)
    ensures forall k :: 0 <= k < 3 ==> Orders(now)[k].total == OrderSummary.Subtotal(Orders(now)[k].items)
    ensures Orders(now)[0].total == 410.0 && Orders(now)[1].total == 360.0 && Orders(now)[2].total == 540.0
    ensures forall k :: 0 <= k < 3 ==> Orders(now)[k].createdAt < Orders(now)[k].updatedAt
  {
    var os := Orders(now);
    assert os[0].items[..1] == [os[0].items[0]];
    assert os[2].items[..1] == [os[2].items[0]];
  }

  /** The menu entry a line refers to: same id, same name, same price. */
  predicate Matches(line: OrderItem, m: MenuItem)
  {
    m.id == line.menuItemId && m.name == line.name && m.price == line.price
  }

  /** Every line of every order names a menu item with its own name and price. */
  lemma OrderLinesOnMenu(now: int)
    ensures forall k, i :: 0 <= k < 3 && 0 <= i < |Orders(now)[k].items| ==>
      exists j :: 0 <= j < |MenuItems| && Matches(Orders(now)[k].items[i], MenuItems[j])
  {
    var os := Orders(now);
    assert Matches(os[0].items[0], MenuItems[11]);
    assert Matches(os[0].items[1], MenuItems[9]);
    assert Matches(os[1].items[0], MenuItems[4]);
    assert Matches(os[2].items[0], MenuItems[14]);
    assert Matches(os[2].items[1], MenuItems[12]);
  }

  /** Tables join an order exactly when the order is for a table; the walk-in
      order has no table. */
  lemma OrderTables(now: int)
    ensures forall k :: 0 <= k < 3 ==> (Orders(now)[k].tableNumber.Some? <==> Orders(now)[k].customerType == AtTable)
    ensures Orders(now)[1].customerType == WalkIn && Orders(now)[1].tableNumber == None
  {
  }

  /** All menu prices are positive, all items are on sale, and exactly the alcoholic
      items carry a subcategory. */
  lemma MenuRules()
    ensures forall j :: 0 <= j < |MenuItems| ==> MenuItems[j].price > 0.0 && MenuItems[j].isAvailable
    ensures forall j :: 0 <= j < |MenuItems| ==> (MenuItems[j].subcategory.Some? <==> MenuItems[j].category == Alcoholic)
  {
  }

  /** No two menu items share an id. */
  lemma MenuIdsDistinct()
    ensures forall i, j :: 0 <= i < j < |MenuItems| ==> MenuItems[i].id != MenuItems[j].id
  {
  }

  /** A table has a guest count exactly when it is occupied, and the count fits it. */
  lemma TableRules()
    ensures forall t :: 0 <= t < |Tables| ==> (Tables[t].guests.Some? <==> Tables[t].status == Occupied)
    ensures forall t :: 0 <= t < |Tables| && Tables[t].guests.Some? ==> 0 < Tables[t].guests.value <= Tables[t].capacity
  {
  }

  /** Every stock lies strictly between its minimum and maximum, so the inventory
      list shows all five as normal. */
  lemma InventoryRules()
    ensures forall n :: 0 <= n < |InventoryItems| ==>
      InventoryItems[n].minStock < InventoryItems[n].currentStock < InventoryItems[n].maxStock
    ensures forall n :: 0 <= n < |InventoryItems| ==> InventoryList.GetStockStatus(InventoryItems[n]) == InventoryList.NormalStock
  {
  }
}
