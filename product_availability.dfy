/** The product availability observer: a product carries a name, a type and
    an availability text; setting the availability stores it and then tells
    every registered customer the new value, in registration order. */
module ProductAvailabilityNotify {
  import opened Common

  class CustomerNew {
    const customerName: string

    constructor (customerName: string)
      ensures this.customerName == customerName
    {
      this.customerName := customerName;
    }
  }

  /** "Hello <customerName>, Product is now <availability>!" */
  datatype Greeting = Hello(customerName: string, availability: string)

  /** The lines printed by notifying `observers` of `availability`, first
      registration first. */
  function Greetings(observers: seq<CustomerNew>, availability: string): seq<Greeting>
  {
    if observers == [] then []
    else Greetings(observers[..|observers| - 1], availability)
         + [Hello(observers[|observers| - 1].customerName, availability)]
  }

  /** One greeting per registration, in registration order, each with the
      availability. */
  lemma {:induction false} GreetingsPerRegistration(observers: seq<CustomerNew>, availability: string)
    ensures |Greetings(observers, availability)| == |observers|
    ensures forall i | 0 <= i < |observers| ::
      Greetings(observers, availability)[i] == Hello(observers[i].customerName, availability)
  {
    if observers != [] {
      GreetingsPerRegistration(observers[..|observers| - 1], availability);
    }
  }

  /** A customer registered last is greeted last, after everyone greeted
      before. */
  lemma GreetingsAfterRegister(observers: seq<CustomerNew>, c: CustomerNew, availability: string)
    ensures Greetings(observers + [c], availability)
         == Greetings(observers, availability) + [Hello(c.customerName, availability)]
  {
    assert (observers + [c])[..|observers|] == observers;
  }

  /** Removing a registered customer drops exactly one greeting from the next
      notification; removing anyone else changes nothing. */
  lemma GreetingsAfterRemove(observers: seq<CustomerNew>, c: CustomerNew, availability: string)
    ensures c in observers ==>
      |Greetings(RemoveFirst(observers, c), availability)| == |Greetings(observers, availability)| - 1
    ensures c !in observers ==>
      Greetings(RemoveFirst(observers, c), availability) == Greetings(observers, availability)
  {
    GreetingsPerRegistration(observers, availability);
    GreetingsPerRegistration(RemoveFirst(observers, c), availability);
    if c in observers {
      RemoveFirstPresent(observers, c);
    } else {
      RemoveFirstAbsent(observers, c);
    }
  }

  class ProductNew {
    var observers: seq<CustomerNew>
    const name: string
    const productType: string
    var availability: string

    /** Stores the initial availability; nobody is registered yet. */
    constructor (name: string, productType: string, availability: string)
      ensures this.name == name && this.productType == productType
      ensures this.availability == availability && observers == []
    {
      this.name := name;
      this.productType := productType;
      this.availability := availability;
      observers := [];
    }

    method GetAvailability() returns (a: string)
      ensures a == availability
    {
      a := availability;
    }

    /** Updates the field first, so observers and later `getAvailability`
        calls see the new value. */
    method SetAvailability(availability: string) returns (lines: seq<Greeting>)
      modifies this
      ensures this.availability == availability && observers == old(observers)
      ensures lines == Greetings(observers, availability)
    {
      this.availability := availability;
      lines := NotifyObservers();
    }

    method RegisterObserver(observer: CustomerNew)
      modifies this
      ensures observers == old(observers) + [observer] && availability == old(availability)
    {
      observers := observers + [observer];
    }

    method RemoveObserver(observer: CustomerNew)
      modifies this
      ensures observers == RemoveFirst(old(observers), observer) && availability == old(availability)
    {
      observers := RemoveFirst(observers, observer);
    }

    method NotifyObservers() returns (lines: seq<Greeting>)
      ensures lines == Greetings(observers, availability)
    {
      lines := [];
      for i := 0 to |observers|
        invariant lines == Greetings(observers[..i], availability)
      {
        assert observers[..i + 1][..i] == observers[..i];
        lines := lines + [Hello(observers[i].customerName, availability)];
      }
      assert observers[..|observers|] == observers;
    }
  }

  /** The demonstration: the laptop starts "Out of Stock"; after it becomes
      "Available" both customers are told and the product reports the new
      value. */
  method ProductAvailabilityDemo() returns (before: string, lines: seq<Greeting>, after: string)
    ensures before == "Out of Stock" && after == "Available"
    ensures lines == [Hello("Alice", "Available"), Hello("Bob", "Available")]
  {
    var laptop := new ProductNew("Laptop", "Electronics", "Out of Stock");
    before := laptop.GetAvailability();
    var alice := new CustomerNew("Alice");
    var bob := new CustomerNew("Bob");
    laptop.RegisterObserver(alice);
    laptop.RegisterObserver(bob);
    lines := laptop.SetAvailability("Available");
    assert laptop.observers == [alice, bob];
    GreetingsPerRegistration(laptop.observers, "Available");
    after := laptop.GetAvailability();
  }
}
