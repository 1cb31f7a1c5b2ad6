/** The shopping-cart visitor: books and fruit accept a cost visitor, which
    prices a book at its price and fruit at price per kilogram times weight.
    The client sums the costs of an array of items. All quantities are Java
    `int`s, so products and sums wrap around at 32 bits. */
module ShoppingCart {
  import opened Common

  datatype ItemElement =
    | Book(price: Int32, isbn: string)
    | Fruit(pricePerKg: Int32, weight: Int32, name: string)

  /** The one concrete visitor. */
  datatype ShoppingCartVisitor = ShoppingCartVisitorImpl

  /** The mathematical cost of an item. */
  function ExactCost(item: ItemElement): int
  {
    match item
    case Book(price, _) => price
    case Fruit(pricePerKg, weight, _) => pricePerKg * weight
  }

  /** `visit`: the cost as a Java `int`. */
  function Visit(visitor: ShoppingCartVisitor, item: ItemElement): Int32
  {
    match item
    case Book(price, _) => price
    case Fruit(pricePerKg, weight, _) => Wrap32(pricePerKg * weight)
  }

  /** `accept`: double dispatch back to the visitor. */
  function Accept(item: ItemElement, visitor: ShoppingCartVisitor): Int32
  {
    Visit(visitor, item)
  }

  /** A book costs its price; a fruit costs price per kilogram times weight
      whenever that product fits in an `int`, and its low 32 bits
      otherwise. */
  lemma AcceptIsCost(item: ItemElement, visitor: ShoppingCartVisitor)
    ensures item.Book? ==> Accept(item, visitor) == item.price
    ensures (Accept(item, visitor) - ExactCost(item)) % TwoTo32 == 0
    ensures -TwoTo31 <= ExactCost(item) < TwoTo31 ==> Accept(item, visitor) == ExactCost(item)
  {
  }

  /** The exact total of the items' costs. */
  function SumCosts(items: seq<ItemElement>): int
  {
    if items == [] then 0 else SumCosts(items[..|items| - 1]) + ExactCost(items[|items| - 1])
  }

  /** The client loop: `total += item.accept(visitor)` over the array. The
      result is the exact total reduced to 32 bits, so it is the exact total
      whenever that fits in an `int`. */
  method TotalCost(items: array<ItemElement>) returns (total: Int32)
    ensures total == Wrap32(SumCosts(items[..]))
  {
    total := 0;
    var visitor := ShoppingCartVisitorImpl;
    for i := 0 to items.Length
      invariant total == Wrap32(SumCosts(items[..i]))
    {
      var cost := Accept(items[i], visitor);
      assert items[..i + 1][..i] == items[..i];
      ghost var s := SumCosts(items[..i]);
      ghost var e := ExactCost(items[i]);
      Wrap32Add(s, cost);
      Wrap32Add(e, s);
      AcceptIsCost(items[i], visitor);
      assert cost == Wrap32(e);
      total := Wrap32(total + cost);
    }
    assert items[..items.Length] == items[..];
  }

  /** The demonstration cart's items cost 20, 100, 20 and 25. */
  lemma DemoSum()
    ensures SumCosts([Book(20, "1234"), Book(100, "5678"), Fruit(10, 2, "Banana"), Fruit(5, 5, "Apple")]) == 165
  {
    var items := [Book(20, "1234"), Book(100, "5678"), Fruit(10, 2, "Banana"), Fruit(5, 5, "Apple")];
    var p1, p2, p3 := items[..1], items[..2], items[..3];
    assert p1[..0] == [];
    assert SumCosts(p1) == 20;
    assert p2[..1] == p1;
    assert SumCosts(p2) == 120;
    assert p3[..2] == p2;
    assert SumCosts(p3) == 140;
    assert items[..3] == p3;
  }

  /** The demonstration cart totals 165. */
  method ShopingCartDemo() returns (total: Int32)
    ensures total == 165
  {
    var items := new ItemElement[4] [Book(20, "1234"), Book(100, "5678"),
                                     Fruit(10, 2, "Banana"), Fruit(5, 5, "Apple")];
    total := TotalCost(items);
    assert items[..] == [Book(20, "1234"), Book(100, "5678"), Fruit(10, 2, "Banana"), Fruit(5, 5, "Apple")];
    DemoSum();
  }
}
