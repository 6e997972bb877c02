/** The inventory item of `number9.py`: an id, a name and a quantity kept
    behind validating setters, so that the quantity never goes negative, and
    guarded increase/decrease operations built on the quantity setter. A
    rejected call raises `ValueError` in the source; here it returns the error
    and leaves the item as it was. */
module Inventory {
  import opened Wrappers
  import opened PyText

  /** The `ValueError`s the item raises. */
  datatype ItemError =
    | ItemIdInvalid
    | NameInvalid
    | QuantityNegative(attempted: int)
    | IncreaseNotPositive
    | DecreaseNotPositive
    | InsufficientStock(amount: int, quantity: int)

  /** The text of each error. */
  function Message(e: ItemError): string {
    match e
    case ItemIdInvalid => "Item ID must be a non-empty string"
    case NameInvalid => "Item name must be a non-empty string"
    case QuantityNegative(q) => "\U{274C} Quantity cannot be negative. Attempted: " + Decimal(q)
    case IncreaseNotPositive => "Increase amount must be a positive integer"
    case DecreaseNotPositive => "Decrease amount must be a positive integer"
    case InsufficientStock(amount, q) => "Cannot decrease by " + Decimal(amount) + ". Current quantity: " + Decimal(q)
  }

  class InventoryItem {
    var itemId: string
    var name: string
    var quantity: int

    /** What the setters guarantee between calls. */
    predicate Valid()
      reads this
    {
      itemId != "" && name != "" && quantity >= 0
    }

    /** The assignments of `__init__`, for arguments its setters accept;
        `Create` runs the checks first. */
    constructor Init(itemId: string, name: string, quantity: int)
      requires itemId != "" && name != "" && quantity >= 0
      ensures Valid()
      ensures this.itemId == itemId && this.name == name && this.quantity == quantity
    {
      this.itemId := itemId;
      this.name := name;
      this.quantity := quantity;
    }

    /** `InventoryItem(item_id, name, quantity=0)`: the constructor runs the
        three setters in order, so the first invalid argument is the error
        reported and no item comes into existence. */
    static method Create(itemId: string, name: string, quantity: int := 0) returns (r: Result<InventoryItem, ItemError>)
      ensures itemId == "" ==> r == Failure(ItemIdInvalid)
      ensures itemId != "" && name == "" ==> r == Failure(NameInvalid)
      ensures itemId != "" && name != "" && quantity < 0 ==> r == Failure(QuantityNegative(quantity))
      ensures itemId != "" && name != "" && quantity >= 0 ==>
                r.Success? && fresh(r.value) && r.value.Valid()
                && r.value.itemId == itemId && r.value.name == name && r.value.quantity == quantity
    {
      if itemId == "" {
        return Failure(ItemIdInvalid);
      }
      if name == "" {
        return Failure(NameInvalid);
      }
      if quantity < 0 {
        return Failure(QuantityNegative(quantity));
      }
      var item := new InventoryItem.Init(itemId, name, quantity);
      return Success(item);
    }

    /** `set_item_id`: an empty id is rejected; otherwise only the id changes. */
    method SetItemId(newId: string) returns (r: Result<(), ItemError>)
      modifies this`itemId
      ensures newId == "" ==> r == Failure(ItemIdInvalid) && itemId == old(itemId)
      ensures newId != "" ==> r == Success(()) && itemId == newId
      ensures old(Valid()) ==> Valid()
    {
      if newId == "" {
        return Failure(ItemIdInvalid);
      }
      itemId := newId;
      return Success(());
    }

    /** `set_name`: an empty name is rejected; otherwise only the name changes. */
    method SetName(newName: string) returns (r: Result<(), ItemError>)
      modifies this`name
      ensures newName == "" ==> r == Failure(NameInvalid) && name == old(name)
      ensures newName != "" ==> r == Success(()) && name == newName
      ensures old(Valid()) ==> Valid()
    {
      if newName == "" {
        return Failure(NameInvalid);
      }
      name := newName;
      return Success(());
    }

    /** `set_quantity`: a negative quantity is rejected; otherwise only the
        quantity changes. */
    method SetQuantity(newQuantity: int) returns (r: Result<(), ItemError>)
      modifies this`quantity
      ensures newQuantity < 0 ==> r == Failure(QuantityNegative(newQuantity)) && quantity == old(quantity)
      ensures newQuantity >= 0 ==> r == Success(()) && quantity == newQuantity
      ensures old(Valid()) ==> Valid()
    {
      if newQuantity < 0 {
        return Failure(QuantityNegative(newQuantity));
      }
      quantity := newQuantity;
      return Success(());
    }

    /** `increase_quantity`: the amount must be positive, and then the
        quantity rises by exactly that amount. */
    method IncreaseQuantity(amount: int) returns (r: Result<(), ItemError>)
      requires Valid()
      modifies this`quantity
      ensures Valid()
      ensures amount <= 0 ==> r == Failure(IncreaseNotPositive) && quantity == old(quantity)
      ensures amount > 0 ==> r == Success(()) && quantity == old(quantity) + amount
    {
      if amount <= 0 {
        return Failure(IncreaseNotPositive);
      }
      r := SetQuantity(quantity + amount);
    }

    /** `decrease_quantity`: the amount must be positive and no more than the
        stock, and then the quantity falls by exactly that amount. */
    method DecreaseQuantity(amount: int) returns (r: Result<(), ItemError>)
      requires Valid()
      modifies this`quantity
      ensures Valid()
      ensures amount <= 0 ==> r == Failure(DecreaseNotPositive) && quantity == old(quantity)
      ensures amount > old(quantity) ==>
                r == Failure(InsufficientStock(amount, old(quantity))) && quantity == old(quantity)
      ensures 0 < amount <= old(quantity) ==> r == Success(()) && quantity == old(quantity) - amount
    {
      if amount <= 0 {
        return Failure(DecreaseNotPositive);
      }
      if quantity - amount < 0 {
        return Failure(InsufficientStock(amount, quantity));
      }
      r := SetQuantity(quantity - amount);
    }

    /** `restock`: exactly `increase_quantity`. */
    method Restock(amount: int) returns (r: Result<(), ItemError>)
      requires Valid()
      modifies this`quantity
      ensures Valid()
      ensures amount <= 0 ==> r == Failure(IncreaseNotPositive) && quantity == old(quantity)
      ensures amount > 0 ==> r == Success(()) && quantity == old(quantity) + amount
    {
      r := IncreaseQuantity(amount);
    }

    /** `sell`: exactly `decrease_quantity`; selling more than is in stock is
        rejected and changes nothing. */
    method Sell(amount: int) returns (r: Result<(), ItemError>)
      requires Valid()
      modifies this`quantity
      ensures Valid()
      ensures r.Success? <==> old(CanSell(amount))
      ensures amount <= 0 ==> r == Failure(DecreaseNotPositive) && quantity == old(quantity)
      ensures amount > old(quantity) ==>
                r == Failure(InsufficientStock(amount, old(quantity))) && quantity == old(quantity)
      ensures 0 < amount <= old(quantity) ==> r == Success(()) && quantity == old(quantity) - amount
    {
      r := DecreaseQuantity(amount);
    }

    /** `sell(amount)` would succeed: the amount is positive and in stock. */
    predicate CanSell(amount: int)
      reads this
    {
      0 < amount <= quantity
    }

    /** `is_out_of_stock()`: for a valid item, exactly when no sale can succeed. */
    predicate IsOutOfStock()
      reads this
      ensures Valid() ==> (IsOutOfStock() <==> forall amount :: !CanSell(amount))
    {
      assert quantity > 0 ==> CanSell(1);
      quantity == 0
    }

    /** `is_low_stock(threshold=10)`: for a positive threshold, exactly when a
        sale of `threshold` units would fail. */
    predicate IsLowStock(threshold: int := 10)
      reads this
      ensures threshold > 0 ==> (IsLowStock(threshold) <==> !CanSell(threshold))
    {
      quantity < threshold
    }
  }

  /** An item that is out of stock is low on stock for every positive
      threshold, the default of 10 included. */
  lemma OutOfStockIsLowStock(item: InventoryItem, threshold: int)
    requires item.IsOutOfStock() && threshold > 0
    ensures item.IsLowStock(threshold) && item.IsLowStock()
  {
  }

  /** The test script's laptop: 15 units, restocked by 10, 5 and then 2 sold
      with 3 added between, and then the rejected calls of its edge cases. */
  method LaptopScenario() returns (quantity: int, outOfStock: bool, low20: bool, low10: bool,
                                   oversell: Result<(), ItemError>, negative: Result<(), ItemError>)
    ensures quantity == 21
    ensures oversell == Failure(InsufficientStock(1000, 21))
    ensures negative == Failure(QuantityNegative(-5))
    ensures !outOfStock && !low20 && !low10
  {
    var created := InventoryItem.Create("ITM001", "Gaming Laptop", 15);
    var laptop := created.value;
    var _ := laptop.SetName("Premium Gaming Laptop");
    negative := laptop.SetQuantity(-5);
    var _ := laptop.Restock(10);
    var _ := laptop.Sell(5);
    var _ := laptop.IncreaseQuantity(3);
    var _ := laptop.DecreaseQuantity(2);
    oversell := laptop.Sell(1000);
    var _ := laptop.DecreaseQuantity(-5);
    var _ := laptop.IncreaseQuantity(0);
    quantity := laptop.quantity;
    outOfStock := laptop.IsOutOfStock();
    low20 := laptop.IsLowStock(20);
    low10 := laptop.IsLowStock();
  }
}
