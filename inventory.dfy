// Stock levels and the editable quantity field of the Inventory view.
module Inventory {

  /** `quantity` is whatever number the edit field produced; nothing checks
      that it is non-negative. */
  datatype InventoryItem = InventoryItem(id: int, name: string, quantity: int, unit: string)

  /** The stock loaded when the dashboard mounts. */
  const InitialInventory: seq<InventoryItem> := [
    InventoryItem(1, "Ramen Noodles", 100, "packs"),
    InventoryItem(2, "Tofu", 15, "blocks"),
    InventoryItem(3, "Soy Sauce", 200, "ml")
  ]

  /** Rows below this quantity are highlighted as running low. */
  const LowStockThreshold := 20

  /** The highlight of an inventory row that is running low. */
  predicate IsLowStock(item: InventoryItem) {
    item.quantity < LowStockThreshold
  }

  /** No two items share an id. */
  predicate UniqueIds(items: seq<InventoryItem>) {
    forall i, j :: 0 <= i < j < |items| ==> items[i].id != items[j].id
  }

  /** `handleInventoryChange(id, newQuantity)`: every item with the given id
      gets the new quantity; all other items, and every item's id, name and
      unit, stay as they were. */
  function InventoryChange(items: seq<InventoryItem>, id: int, newQuantity: int): (r: seq<InventoryItem>)
    ensures |r| == |items|
    ensures forall i :: 0 <= i < |r| && items[i].id != id ==> r[i] == items[i]
    ensures forall i :: 0 <= i < |r| && items[i].id == id ==>
      r[i].id == id && r[i].name == items[i].name && r[i].unit == items[i].unit &&
      r[i].quantity == newQuantity
  {
    if items == [] then []
    else
      var it := items[0];
      [if it.id == id then it.(quantity := newQuantity) else it] + InventoryChange(items[1..], id, newQuantity)
  }

  /** An id that names no item leaves the inventory as it was. */
  lemma InventoryChangeUnknownId(items: seq<InventoryItem>, id: int, q: int)
    requires forall i :: 0 <= i < |items| ==> items[i].id != id
    ensures InventoryChange(items, id, q) == items
  {
  }

  /** Two edits of the same item: the second one is what is stored. */
  lemma InventoryChangeLastWriteWins(items: seq<InventoryItem>, id: int, q1: int, q2: int)
    ensures InventoryChange(InventoryChange(items, id, q1), id, q2) == InventoryChange(items, id, q2)
  {
  }

  /** Writing back the quantity an item already has changes nothing. */
  lemma InventoryChangeSameQuantity(items: seq<InventoryItem>, k: nat)
    requires UniqueIds(items) && k < |items|
    ensures InventoryChange(items, items[k].id, items[k].quantity) == items
  {
  }

  /** With unique ids an edit keeps them unique and touches exactly the item
      at index `k`. */
  lemma InventoryChangeTouchesOnlyTarget(items: seq<InventoryItem>, k: nat, q: int)
    requires UniqueIds(items) && k < |items|
    ensures UniqueIds(InventoryChange(items, items[k].id, q))
    ensures forall j :: 0 <= j < |items| && j != k ==> InventoryChange(items, items[k].id, q)[j] == items[j]
    ensures InventoryChange(items, items[k].id, q)[k] == items[k].(quantity := q)
  {
  }

  lemma InitialInventoryUniqueIds()
    ensures UniqueIds(InitialInventory)
  {
  }

  /** Lowering the tofu stock from 15 to 5 stores 5, leaves the other rows
      alone, and the row stays marked as low stock. */
  lemma TofuDropsToFive()
    ensures InventoryChange(InitialInventory, 2, 5) ==
      [InitialInventory[0], InventoryItem(2, "Tofu", 5, "blocks"), InitialInventory[2]]
    ensures IsLowStock(InventoryChange(InitialInventory, 2, 5)[1])
    ensures !IsLowStock(InventoryChange(InitialInventory, 2, 5)[0])
  {
  }
}
