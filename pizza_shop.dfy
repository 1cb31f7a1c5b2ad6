/** The pizza decorators: a plain pizza under any stack of cheese, pepperoni
    and mushroom toppings. Each topping appends its name to the description
    of the pizza it decorates and adds its price to that pizza's cost. Costs
    are doubles in the source, modelled as `real`. */
module PizzaShop {

  datatype PizzaDecorator = CheeseDecorator | PepperoniDecorator | MushroomDecorator

  /** A pizza: the plain pizza, or a topping on a pizza. */
  datatype Pizza = PlainPizza | Decorated(decorator: PizzaDecorator, decoratedPizza: Pizza)

  const PlainDescription: string := "Plain pizza"
  const PlainCost: real := 8.0

  function Suffix(d: PizzaDecorator): string
  {
    match d
    case CheeseDecorator => ", cheese"
    case PepperoniDecorator => ", pepperoni"
    case MushroomDecorator => ", mushroom"
  }

  function Surcharge(d: PizzaDecorator): real
  {
    match d
    case CheeseDecorator => 1.5
    case PepperoniDecorator => 2.0
    case MushroomDecorator => 3.0
  }

  /** `getDescription`: the plain pizza's text comes first. */
  function GetDescription(p: Pizza): (r: string)
    ensures |r| >= |PlainDescription| && r[..|PlainDescription|] == PlainDescription
  {
    match p
    case PlainPizza => PlainDescription
    case Decorated(d, inner) => GetDescription(inner) + Suffix(d)
  }

  /** `cost`: never below the plain pizza's price. */
  function Cost(p: Pizza): (r: real)
    ensures r >= PlainCost
  {
    match p
    case PlainPizza => PlainCost
    case Decorated(d, inner) => Cost(inner) + Surcharge(d)
  }

  /** A plain pizza decorated with `ds`, innermost first. */
  function Wrap(ds: seq<PizzaDecorator>): Pizza
  {
    if ds == [] then PlainPizza
    else Decorated(ds[|ds| - 1], Wrap(ds[..|ds| - 1]))
  }

  /** The topping names of `ds`, innermost first. */
  function Suffixes(ds: seq<PizzaDecorator>): string
  {
    if ds == [] then "" else Suffixes(ds[..|ds| - 1]) + Suffix(ds[|ds| - 1])
  }

  /** The number of toppings of kind `d` in `ds`. */
  function CountOf(ds: seq<PizzaDecorator>, d: PizzaDecorator): nat
  {
    if ds == [] then 0
    else CountOf(ds[..|ds| - 1], d) + (if ds[|ds| - 1] == d then 1 else 0)
  }

  /** A stack's description is the plain pizza followed by its toppings in
      the order they were added. */
  lemma {:induction false} StackDescription(ds: seq<PizzaDecorator>)
    ensures GetDescription(Wrap(ds)) == PlainDescription + Suffixes(ds)
  {
    if ds != [] {
      StackDescription(ds[..|ds| - 1]);
    }
  }

  /** A stack's cost is the plain price plus each topping's price once for
      every time it was added. */
  lemma {:induction false} StackCost(ds: seq<PizzaDecorator>)
    ensures Cost(Wrap(ds)) == PlainCost + 1.5 * (CountOf(ds, CheeseDecorator) as real)
                                        + 2.0 * (CountOf(ds, PepperoniDecorator) as real)
                                        + 3.0 * (CountOf(ds, MushroomDecorator) as real)
  {
    if ds != [] {
      StackCost(ds[..|ds| - 1]);
    }
  }

  /** The toppings counted by kind are the stack's multiset of toppings. */
  lemma {:induction false} CountOfIsMultiplicity(ds: seq<PizzaDecorator>, d: PizzaDecorator)
    ensures CountOf(ds, d) == multiset(ds)[d]
  {
    if ds != [] {
      var init := ds[..|ds| - 1];
      CountOfIsMultiplicity(init, d);
      assert ds == init + [ds[|ds| - 1]];
      assert multiset(ds) == multiset(init) + multiset{ds[|ds| - 1]};
    }
  }

  /** Two stacks of the same toppings, in any order, cost the same. */
  lemma CostIndependentOfOrder(ds1: seq<PizzaDecorator>, ds2: seq<PizzaDecorator>)
    requires multiset(ds1) == multiset(ds2)
    ensures Cost(Wrap(ds1)) == Cost(Wrap(ds2))
  {
    StackCost(ds1);
    StackCost(ds2);
    CountOfIsMultiplicity(ds1, CheeseDecorator);
    CountOfIsMultiplicity(ds2, CheeseDecorator);
    CountOfIsMultiplicity(ds1, PepperoniDecorator);
    CountOfIsMultiplicity(ds2, PepperoniDecorator);
    CountOfIsMultiplicity(ds1, MushroomDecorator);
    CountOfIsMultiplicity(ds2, MushroomDecorator);
  }

  /** The demonstration: cheese, then pepperoni. */
  lemma DemoPizza()
    ensures GetDescription(PlainPizza) == "Plain pizza" && Cost(PlainPizza) == 8.0
    ensures var p := Wrap([CheeseDecorator, PepperoniDecorator]);
      && GetDescription(p) == "Plain pizza, cheese, pepperoni"
      && Cost(p) == 11.5
  {
    var ds := [CheeseDecorator, PepperoniDecorator];
    assert ds[..1] == [CheeseDecorator] && [CheeseDecorator][..0] == [];
    assert Wrap(ds) == Decorated(PepperoniDecorator, Decorated(CheeseDecorator, PlainPizza));
    assert GetDescription(Decorated(CheeseDecorator, PlainPizza)) == "Plain pizza, cheese";
  }
}
