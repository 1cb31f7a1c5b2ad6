/** The coffee decorators: a simple coffee wrapped in any stack of milk,
    sugar, extra chocolate and extra dark latte decorators. Each decorator
    appends its own text to the description of the coffee it wraps and adds
    its own surcharge to that coffee's cost. Costs are doubles in the
    source; every constant is a small dyadic fraction, modelled as `real`. */
module CoffeeMachine {

  datatype CoffeeDecorator = WithMilk | WithSugar | ExtraChoclate | ExtraDarkLatte

  /** A coffee: the concrete component, or a decorator around a coffee. */
  datatype Coffee = SimpleCoffee | Decorated(decorator: CoffeeDecorator, coffee: Coffee)

  const BaseDescription: string := "Simple Coffee"
  const BaseCost: real := 5.0

  /** The text each decorator appends. The extra dark latte appends the same
      text as the extra chocolate. */
  function Suffix(d: CoffeeDecorator): string
  {
    match d
    case WithMilk => ", Milk"
    case WithSugar => ", Sugar"
    case ExtraChoclate => ", Extra Choclate"
    case ExtraDarkLatte => ", Extra Choclate"
  }

  /** The amount each decorator adds. */
  function Surcharge(d: CoffeeDecorator): real
  {
    match d
    case WithMilk => 1.0
    case WithSugar => 0.5
    case ExtraChoclate => 2.0
    case ExtraDarkLatte => 3.0
  }

  /** `getDescription`: the simple coffee's text comes first, whatever the
      decorators. */
  function GetDescription(c: Coffee): (r: string)
    ensures |r| >= |BaseDescription| && r[..|BaseDescription|] == BaseDescription
  {
    match c
    case SimpleCoffee => BaseDescription
    case Decorated(d, inner) => GetDescription(inner) + Suffix(d)
  }

  /** `cost`: never below the simple coffee's price. */
  function Cost(c: Coffee): (r: real)
    ensures r >= BaseCost
  {
    match c
    case SimpleCoffee => BaseCost
    case Decorated(d, inner) => Cost(inner) + Surcharge(d)
  }

  // -------------------------------------------------------------------
  // Stacks of decorators
  // -------------------------------------------------------------------

  /** Wraps a simple coffee in `ds`, innermost first, as the demonstration
      does with successive `new` calls. */
  function Wrap(ds: seq<CoffeeDecorator>): Coffee
  {
    if ds == [] then SimpleCoffee
    else Decorated(ds[|ds| - 1], Wrap(ds[..|ds| - 1]))
  }

  /** The decorators around a coffee, innermost first. */
  function Layers(c: Coffee): seq<CoffeeDecorator>
  {
    match c
    case SimpleCoffee => []
    case Decorated(d, inner) => Layers(inner) + [d]
  }

  /** Every coffee is a simple coffee wrapped in its layers. */
  lemma {:induction false} WrapOfLayers(c: Coffee)
    ensures Wrap(Layers(c)) == c
  {
    match c {
      case SimpleCoffee =>
      case Decorated(d, inner) =>
        WrapOfLayers(inner);
        assert (Layers(inner) + [d])[..|Layers(inner)|] == Layers(inner);
    }
  }

  /** Wrapping a stack and peeling it again gives back the same stack. */
  lemma {:induction false} LayersOfWrap(ds: seq<CoffeeDecorator>)
    ensures Layers(Wrap(ds)) == ds
  {
    if ds != [] {
      LayersOfWrap(ds[..|ds| - 1]);
      assert ds[..|ds| - 1] + [ds[|ds| - 1]] == ds;
    }
  }

  /** The suffixes of `ds`, innermost first. */
  function Suffixes(ds: seq<CoffeeDecorator>): string
  {
    if ds == [] then "" else Suffixes(ds[..|ds| - 1]) + Suffix(ds[|ds| - 1])
  }

  /** The sum of the surcharges of `ds`. */
  function Surcharges(ds: seq<CoffeeDecorator>): real
  {
    if ds == [] then 0.0 else Surcharges(ds[..|ds| - 1]) + Surcharge(ds[|ds| - 1])
  }

  /** The description lists the decorators in wrap order after the simple
      coffee. */
  lemma {:induction false} StackDescription(ds: seq<CoffeeDecorator>)
    ensures GetDescription(Wrap(ds)) == BaseDescription + Suffixes(ds)
  {
    if ds != [] {
      StackDescription(ds[..|ds| - 1]);
    }
  }

  /** The cost is the simple coffee's plus every surcharge. */
  lemma {:induction false} StackCost(ds: seq<CoffeeDecorator>)
    ensures Cost(Wrap(ds)) == BaseCost + Surcharges(ds)
  {
    if ds != [] {
      StackCost(ds[..|ds| - 1]);
    }
  }

  /** The sum of surcharges counts each kind of decorator by its price. */
  lemma {:induction false} SurchargesByKind(ds: seq<CoffeeDecorator>)
    ensures Surcharges(ds) == 1.0 * (multiset(ds)[WithMilk] as real)
                            + 0.5 * (multiset(ds)[WithSugar] as real)
                            + 2.0 * (multiset(ds)[ExtraChoclate] as real)
                            + 3.0 * (multiset(ds)[ExtraDarkLatte] as real)
  {
    if ds != [] {
      var init := ds[..|ds| - 1];
      SurchargesByKind(init);
      assert ds == init + [ds[|ds| - 1]];
      assert multiset(ds) == multiset(init) + multiset{ds[|ds| - 1]};
    }
  }

  /** The cost does not depend on the order of the decorators: any two
      stacks of the same decorators cost the same. */
  lemma CostIndependentOfOrder(ds1: seq<CoffeeDecorator>, ds2: seq<CoffeeDecorator>)
    requires multiset(ds1) == multiset(ds2)
    ensures Cost(Wrap(ds1)) == Cost(Wrap(ds2))
  {
    StackCost(ds1);
    StackCost(ds2);
    SurchargesByKind(ds1);
    SurchargesByKind(ds2);
  }

  /** The extra dark latte reads exactly like the extra chocolate but costs
      1.0 more. */
  lemma DarkLatteDescribedAsChocolate(c: Coffee)
    ensures GetDescription(Decorated(ExtraDarkLatte, c)) == GetDescription(Decorated(ExtraChoclate, c))
    ensures Cost(Decorated(ExtraDarkLatte, c)) == Cost(Decorated(ExtraChoclate, c)) + 1.0
  {
  }

  /** The demonstration's stack, built by successive `new` calls. */
  lemma DemoStack()
    ensures Wrap([WithMilk, WithSugar, ExtraChoclate, ExtraDarkLatte])
         == Decorated(ExtraDarkLatte, Decorated(ExtraChoclate,
              Decorated(WithSugar, Decorated(WithMilk, SimpleCoffee))))
  {
    var ds := [WithMilk, WithSugar, ExtraChoclate, ExtraDarkLatte];
    assert ds[..1] == [WithMilk] && [WithMilk][..0] == [];
    assert Wrap(ds[..1]) == Decorated(WithMilk, SimpleCoffee);
    assert ds[..2][..1] == ds[..1];
    assert ds[..3][..2] == ds[..2];
    assert ds[..4][..3] == ds[..3] && ds[..4] == ds;
  }

  /** The demonstration's description: milk, sugar, chocolate, dark latte
      in that order. */
  lemma DemoDescription()
    ensures GetDescription(Wrap([WithMilk, WithSugar, ExtraChoclate, ExtraDarkLatte]))
         == "Simple Coffee, Milk, Sugar, Extra Choclate, Extra Choclate"
  {
    DemoStack();
    DemoInnerDescription();
  }

  /** The description of the demonstration's first three layers. */
  lemma DemoInnerDescription()
    ensures GetDescription(Decorated(ExtraChoclate, Decorated(WithSugar, Decorated(WithMilk, SimpleCoffee))))
         == "Simple Coffee, Milk, Sugar, Extra Choclate"
  {
    var c1 := Decorated(WithMilk, SimpleCoffee);
    assert GetDescription(c1) == "Simple Coffee, Milk";
    assert GetDescription(Decorated(WithSugar, c1)) == "Simple Coffee, Milk, Sugar";
  }

  /** The demonstration's cost. */
  lemma DemoCost()
    ensures Cost(Wrap([WithMilk, WithSugar, ExtraChoclate, ExtraDarkLatte])) == 11.5
  {
    DemoStack();
  }
}
