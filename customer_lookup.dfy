/** The customer null object: a lookup scans a fixed list of customer names,
    ignoring case, and returns a real customer carrying the caller's own
    spelling, or the null customer, which stands in for a missing record. */
module CustomerManagement {
  import opened Common

  const CustomerNames: seq<string> := ["John", "Jane", "Alice"]

  const NotAvailable: string := "Not Available in Customer Database"

  datatype AbstractCustomer = RealCustomer(name: string) | NullCustomer

  function GetName(c: AbstractCustomer): string
  {
    match c
    case RealCustomer(name) => name
    case NullCustomer => NotAvailable
  }

  function IsNil(c: AbstractCustomer): bool
  {
    c.NullCustomer?
  }

  /** What the lookup finds: a real customer for a name equal to a known
      one ignoring case, otherwise the null customer. */
  function Lookup(name: Option<string>): AbstractCustomer
  {
    if exists n | n in CustomerNames :: EqualsIgnoreCase(n, name) then RealCustomer(name.value)
    else NullCustomer
  }

  /** `CustomerFactory.getCustomer`: the scan, returning at the first
      match. */
  method GetCustomer(name: Option<string>) returns (c: AbstractCustomer)
    ensures c == Lookup(name)
  {
    for i := 0 to |CustomerNames|
      invariant forall j | 0 <= j < i :: !EqualsIgnoreCase(CustomerNames[j], name)
    {
      if EqualsIgnoreCase(CustomerNames[i], name) {
        return RealCustomer(name.value);
      }
    }
    return NullCustomer;
  }

  /** A name is found exactly when it is John, Jane or Alice in any letter
      case; the customer keeps the caller's spelling and is not nil. Anything
      else, null included, gives the nil customer with the placeholder
      name. */
  lemma LookupIff(name: Option<string>)
    ensures Lookup(name).RealCustomer? <==>
      name.Some? && ToLower(name.value) in {"john", "jane", "alice"}
    ensures Lookup(name).RealCustomer? ==>
      GetName(Lookup(name)) == name.value && !IsNil(Lookup(name))
    ensures Lookup(name).NullCustomer? ==>
      GetName(Lookup(name)) == NotAvailable && IsNil(Lookup(name))
  {
    assert ToLower("John") == "john" && ToLower("Jane") == "jane" && ToLower("Alice") == "alice";
    if name.Some? && ToLower(name.value) in {"john", "jane", "alice"} {
      var n :| n in CustomerNames && ToLower(n) == ToLower(name.value);
    }
  }

  /** The demonstration: "Alice" is found, "Bob" is not; a different
      spelling of a known name is kept as given. */
  method CustomerManagementDemo() returns (first: string, second: string, shouted: string)
    ensures first == "Alice" && second == NotAvailable && shouted == "ALICE"
  {
    var customer1 := GetCustomer(Some("Alice"));
    var customer2 := GetCustomer(Some("Bob"));
    var customer3 := GetCustomer(Some("ALICE"));
    LookupIff(Some("Alice"));
    LookupIff(Some("Bob"));
    LookupIff(Some("ALICE"));
    assert ToLower("Bob") == "bob";
    assert ToLower("ALICE") == "alice";
    first := GetName(customer1);
    second := GetName(customer2);
    shouted := GetName(customer3);
  }
}
