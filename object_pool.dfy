/** The Object Pool pattern: a library lends books from a queue of ready copies and
    buys a new copy only when the queue holds no more than its minimum stock. */
module ObjectPool {
  import opened Wrappers

  /** A book is identified here by the moment it was bought (minutes on some fixed clock). */
  datatype Book = Book(purchasedOn: int)

  /** Taking from an empty queue fails in the source; this is the only failure. */
  datatype PoolError = EmptyQueue

  function Max(a: int, b: int): int { if a >= b then a else b }

  /** The opening stock: the larger of the two counts, every copy bought on the opening date. */
  function InitialInventory(openingDate: int, inventoryCount: int, minInventoryCount: int): (books: seq<Book>)
    requires inventoryCount >= 0 || minInventoryCount >= 0
    ensures |books| >= inventoryCount && |books| >= minInventoryCount
    ensures |books| == inventoryCount || |books| == minInventoryCount
    ensures forall i :: 0 <= i < |books| ==> books[i].purchasedOn == openingDate
  {
    seq(Max(inventoryCount, minInventoryCount), _ => Book(openingDate))
  }

  class Library {
    const minInventoryCount: int
    /** The queue of copies ready to lend; its head is lent first. */
    var inventory: seq<Book>

    /** The stock never falls below the minimum while the library is used through its methods. */
    ghost predicate Valid()
      reads this
    {
      |inventory| >= minInventoryCount
    }

    constructor (openingDate: int, inventoryCount: int, minInventoryCount: int)
      requires inventoryCount >= 0 || minInventoryCount >= 0
      ensures Valid()
      ensures this.minInventoryCount == minInventoryCount
      ensures inventory == InitialInventory(openingDate, inventoryCount, minInventoryCount)
    {
      this.minInventoryCount := minInventoryCount;
      inventory := InitialInventory(openingDate, inventoryCount, minInventoryCount);
    }

    function InventoryCount(): (n: nat)
      reads this
      ensures n == |inventory|
    {
      |inventory|
    }

    /** Above the minimum, the head of the queue is lent; otherwise a copy bought `now` is
        lent and the stock is left alone. */
    method RentBook(now: int) returns (r: Result<Book, PoolError>)
      requires Valid()
      modifies this
      ensures Valid()
      ensures minInventoryCount >= 0 ==> r.Ok?
      ensures old(|inventory|) > minInventoryCount && old(inventory) != [] ==>
                r == Ok(old(inventory)[0]) && inventory == old(inventory)[1..]
      ensures old(|inventory|) > minInventoryCount && old(inventory) == [] ==>
                r == Err(EmptyQueue) && inventory == old(inventory)
      ensures old(|inventory|) <= minInventoryCount ==>
                r == Ok(PurchaseBook(now)) && inventory == old(inventory)
    {
      if InventoryCount() > minInventoryCount {
        r := GetBookFromInventory();
      } else {
        r := Ok(PurchaseBook(now));
      }
    }

    /** A returned copy joins the back of the queue. */
    method ReturnBook(book: Book)
      requires Valid()
      modifies this
      ensures Valid()
      ensures inventory == old(inventory) + [book]
    {
      AddBookToInventory(book);
    }

    method GetBookFromInventory() returns (r: Result<Book, PoolError>)
      modifies this
      ensures old(inventory) != [] ==> r == Ok(old(inventory)[0]) && inventory == old(inventory)[1..]
      ensures old(inventory) == [] ==> r == Err(EmptyQueue) && inventory == old(inventory)
    {
      if inventory == [] {
        r := Err(EmptyQueue);
      } else {
        r := Ok(inventory[0]);
        inventory := inventory[1..];
      }
    }

    method AddBookToInventory(book: Book)
      modifies this
      ensures inventory == old(inventory) + [book]
    {
      inventory := inventory + [book];
    }
  }

  /** A copy bought at time `now`. */
  function PurchaseBook(now: int): (b: Book)
    ensures b.purchasedOn == now
  {
    Book(now)
  }

  /** The example scenario: two stocked copies are lent, the third loan buys a copy, and
      the three returns fill the queue in return order. */
  method LendingScenario()
  {
    var openingDate := 0;
    var library := new Library(openingDate, 2, 0);
    assert library.InventoryCount() == 2;

    var first := library.RentBook(100);
    assert first == Ok(Book(openingDate)) && library.InventoryCount() == 1;
    var second := library.RentBook(200);
    assert second == Ok(Book(openingDate)) && library.InventoryCount() == 0;
    var bought := library.RentBook(300);
    assert bought == Ok(Book(300)) && bought.value.purchasedOn > openingDate;
    assert library.InventoryCount() == 0;

    library.ReturnBook(first.value);
    assert library.InventoryCount() == 1;
    library.ReturnBook(second.value);
    assert library.InventoryCount() == 2;
    library.ReturnBook(bought.value);
    assert library.inventory == [Book(0), Book(0), Book(300)];
  }
}
