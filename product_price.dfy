/** The product price observer: customers register with a product, and
    every price set on the product is announced to each registration in
    order. Java `float` prices are modelled as reals. */
module ProductPriceUpdate {
  import opened Common

  class Customer {
    const name: string

    constructor (name: string)
      ensures this.name == name
    {
      this.name := name;
    }
  }

  /** "<name>: Product price updated to <price>", sent to `customer`. */
  datatype Notice = Notice(customer: Customer, price: real)

  /** The notices sent by notifying `observers` of `price`, first
      registration first. */
  function Announce(observers: seq<Customer>, price: real): seq<Notice>
  {
    if observers == [] then []
    else Announce(observers[..|observers| - 1], price) + [Notice(observers[|observers| - 1], price)]
  }

  /** One notice per registration, in registration order, each carrying the
      price. */
  lemma {:induction false} AnnouncePerRegistration(observers: seq<Customer>, price: real)
    ensures |Announce(observers, price)| == |observers|
    ensures forall i | 0 <= i < |observers| :: Announce(observers, price)[i] == Notice(observers[i], price)
  {
    if observers != [] {
      AnnouncePerRegistration(observers[..|observers| - 1], price);
    }
  }

  /** A customer added last is told last, after everyone told before. */
  lemma AnnounceAfterAdd(observers: seq<Customer>, c: Customer, price: real)
    ensures Announce(observers + [c], price) == Announce(observers, price) + [Notice(c, price)]
  {
    assert (observers + [c])[..|observers|] == observers;
  }

  /** A customer registered once and then removed receives no notice from
      later price changes, and every other customer as many as before. */
  lemma RemovedCustomerNotNotified(observers: seq<Customer>, c: Customer, price: real)
    requires multiset(observers)[c] == 1
    ensures forall n | n in Announce(RemoveFirst(observers, c), price) :: n.customer != c
    ensures forall d | d != c ::
      multiset(RemoveFirst(observers, c))[d] == multiset(observers)[d]
  {
    RemoveFirstOnce(observers, c);
    AnnouncePerRegistration(RemoveFirst(observers, c), price);
  }

  class Product {
    var observers: seq<Customer>
    var price: real

    constructor ()
      ensures observers == [] && price == 0.0
    {
      observers := [];
      price := 0.0;
    }

    method AddObserver(observer: Customer)
      modifies this
      ensures observers == old(observers) + [observer] && price == old(price)
    {
      observers := observers + [observer];
    }

    method RemoveObserver(observer: Customer)
      modifies this
      ensures observers == RemoveFirst(old(observers), observer) && price == old(price)
    {
      observers := RemoveFirst(observers, observer);
    }

    /** Stores the price, then notifies every registration in order. */
    method SetPrice(price: real) returns (notices: seq<Notice>)
      modifies this
      ensures this.price == price && observers == old(observers)
      ensures notices == Announce(observers, price)
    {
      this.price := price;
      notices := NotifyObservers();
    }

    method NotifyObservers() returns (notices: seq<Notice>)
      ensures notices == Announce(observers, price)
    {
      notices := [];
      for i := 0 to |observers|
        invariant notices == Announce(observers[..i], price)
      {
        assert observers[..i + 1][..i] == observers[..i];
        notices := notices + [Notice(observers[i], price)];
      }
      assert observers[..|observers|] == observers;
    }
  }

  /** The demonstration: Alice, Bob and Chris are all told the new price. */
  method ProductPriceUpdateDemo() returns (told: seq<string>)
    ensures told == ["Alice", "Bob", "Chris"]
  {
    var laptop := new Product();
    var alice := new Customer("Alice");
    var bob := new Customer("Bob");
    var chris := new Customer("Chris");
    laptop.AddObserver(alice);
    laptop.AddObserver(bob);
    laptop.AddObserver(chris);
    var notices := laptop.SetPrice(999.99);
    AnnouncePerRegistration(laptop.observers, 999.99);
    told := seq(|notices|, i requires 0 <= i < |notices| => notices[i].customer.name);
  }
}
