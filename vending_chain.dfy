/** The vending machine's chain of responsibility: validation, then the stock
    check, then payment, then dispensing. Each handler either stops the
    request with a message or reports success and hands the request to its
    successor. Prices and payments are Java doubles, modelled as reals: the
    comparisons the handlers make are exact on the values involved.

    The printed lines are the model's output: a sequence of `Event`s. */
module VendingChain {

  datatype VendingRequest = VendingRequest(item: string, payment: real)

  datatype Handler = ValidationHandler | StockCheckHandler | PaymentHandler | DispenseHandler

  datatype Event =
    | RequestToBuy(item: string, payment: real)
    | NotAvailable(item: string)
    | Available(item: string)
    | OutOfStock(item: string)
    | InStock(item: string, left: int)
    | InsufficientPayment(price: real)
    | PaymentAccepted(change: real)
    | Dispensing(item: string)

  /** `Double.MAX_VALUE`, the price of an item with no price entry. */
  const DoubleMaxValue: real := 179769313486231570814527423731704356798070567525844996598917476803157260780028538760589558632766878171540458953514382464234321326889464182768467546703537516986049910576551282076245490090389328944075868508455133942304583236903222948165808559332123348274797826204144723168738177180919299881250404026184124858368.0

  function AvailableItems(): set<string>
  {
    {"Soda", "Chips", "Candy"}
  }

  /** The stock check's table, filled once and never written again. */
  function StockTable(): map<string, int>
  {
    map["Soda" := 5, "Chips" := 0, "Candy" := 10]
  }

  function PriceTable(): map<string, real>
  {
    map["Soda" := 1.50, "Chips" := 1.00, "Candy" := 0.75]
  }

  /** `stock.getOrDefault(item, 0)`. */
  function StockOf(item: string): int
  {
    if item in StockTable() then StockTable()[item] else 0
  }

  /** `prices.getOrDefault(item, Double.MAX_VALUE)`. */
  function PriceOf(item: string): real
  {
    if item in PriceTable() then PriceTable()[item] else DoubleMaxValue
  }

  /** A handler's `nextHandler` call: `next` is the rest of the wired chain,
      and an empty rest is a null successor, so nothing more happens. */
  function Forward(next: seq<Handler>, req: VendingRequest): seq<Event>
    decreases |next|, 0
  {
    if next == [] then [] else HandleRequest(next[0], next[1..], req)
  }

  /** `handleRequest` of handler `h`, wired to the chain `next`. */
  function HandleRequest(h: Handler, next: seq<Handler>, req: VendingRequest): seq<Event>
    decreases |next|, 1
  {
    match h
    case ValidationHandler =>
      if req.item !in AvailableItems() then [NotAvailable(req.item)]
      else [Available(req.item)] + Forward(next, req)
    case StockCheckHandler =>
      var currentStock := StockOf(req.item);
      if currentStock <= 0 then [OutOfStock(req.item)]
      else [InStock(req.item, currentStock)] + Forward(next, req)
    case PaymentHandler =>
      var price := PriceOf(req.item);
      if req.payment < price then [InsufficientPayment(price)]
      else [PaymentAccepted(req.payment - price)] + Forward(next, req)
    case DispenseHandler =>
      // The last handler ignores its successor.
      [Dispensing(req.item)]
  }

  /** The wiring made by the `VendingMachine` constructor. */
  const Chain: seq<Handler> := [ValidationHandler, StockCheckHandler, PaymentHandler, DispenseHandler]

  /** `VendingMachine.purchaseItem`. */
  function PurchaseItem(item: string, payment: real): seq<Event>
  {
    [RequestToBuy(item, payment)] + Forward(Chain, VendingRequest(item, payment))
  }

  // -------------------------------------------------------------------
  // Where a purchase stops
  // -------------------------------------------------------------------

  /** An item outside the machine's range stops at validation. */
  lemma UnknownItemStopsAtValidation(item: string, payment: real)
    requires item !in AvailableItems()
    ensures PurchaseItem(item, payment) == [RequestToBuy(item, payment), NotAvailable(item)]
  {
  }

  /** A known item with no stock stops at the stock check. */
  lemma EmptyStockStopsAtStockCheck(item: string, payment: real)
    requires item in AvailableItems() && StockOf(item) <= 0
    ensures PurchaseItem(item, payment)
         == [RequestToBuy(item, payment), Available(item), OutOfStock(item)]
  {
  }

  /** A known, stocked item is dispensed, with change payment - price,
      exactly when the payment covers the price; otherwise the payment
      handler stops it and reports the price. The stock table is never
      decremented, so this holds for every purchase alike. */
  lemma PaymentDecides(item: string, payment: real)
    requires item in AvailableItems() && StockOf(item) > 0
    ensures var prefix := [RequestToBuy(item, payment), Available(item), InStock(item, StockOf(item))];
      && (payment < PriceOf(item) ==>
            PurchaseItem(item, payment) == prefix + [InsufficientPayment(PriceOf(item))])
      && (payment >= PriceOf(item) ==>
            PurchaseItem(item, payment)
              == prefix + [PaymentAccepted(payment - PriceOf(item)), Dispensing(item)])
  {
  }

  /** The item is dispensed if and only if it is known, stocked and paid for
      in full. */
  lemma DispensedIff(item: string, payment: real)
    ensures Dispensing(item) in PurchaseItem(item, payment)
        <==> item in AvailableItems() && StockOf(item) > 0 && payment >= PriceOf(item)
  {
    if item !in AvailableItems() {
      UnknownItemStopsAtValidation(item, payment);
    } else if StockOf(item) <= 0 {
      EmptyStockStopsAtStockCheck(item, payment);
    } else {
      PaymentDecides(item, payment);
    }
  }

  // -------------------------------------------------------------------
  // Order of the handlers
  // -------------------------------------------------------------------

  /** Which handler printed an event (the request line comes first). */
  function Stage(e: Event): nat
  {
    match e
    case RequestToBuy(_, _) => 0
    case NotAvailable(_) => 1
    case Available(_) => 1
    case OutOfStock(_) => 2
    case InStock(_, _) => 2
    case InsufficientPayment(_) => 3
    case PaymentAccepted(_) => 3
    case Dispensing(_) => 4
  }

  /** Every stage that ran passed the request on, except possibly the last. */
  predicate Passes(e: Event)
  {
    e.RequestToBuy? || e.Available? || e.InStock? || e.PaymentAccepted?
  }

  /** The handlers run in the wired order, each at most once per request,
      and a later handler runs only when every earlier one passed. */
  lemma HandlersRunInOrder(item: string, payment: real)
    ensures var out := PurchaseItem(item, payment);
      && 2 <= |out| <= 5
      && (forall i | 0 <= i < |out| :: Stage(out[i]) == i)
      && (forall i | 0 <= i < |out| - 1 :: Passes(out[i]))
      && (|out| < 5 ==> !Passes(out[|out| - 1]))
  {
    if item !in AvailableItems() {
      UnknownItemStopsAtValidation(item, payment);
    } else if StockOf(item) <= 0 {
      EmptyStockStopsAtStockCheck(item, payment);
    } else {
      PaymentDecides(item, payment);
    }
  }

  /** The demonstration purchases. */
  lemma DemoPurchases()
    ensures PurchaseItem("Soda", 2.00)
         == [RequestToBuy("Soda", 2.00), Available("Soda"), InStock("Soda", 5),
             PaymentAccepted(0.50), Dispensing("Soda")]
    ensures PurchaseItem("Chips", 1.00)
         == [RequestToBuy("Chips", 1.00), Available("Chips"), OutOfStock("Chips")]
    ensures PurchaseItem("Candy", 0.50)
         == [RequestToBuy("Candy", 0.50), Available("Candy"), InStock("Candy", 10),
             InsufficientPayment(0.75)]
    ensures PurchaseItem("Juice", 1.50)
         == [RequestToBuy("Juice", 1.50), NotAvailable("Juice")]
  {
    assert "Juice" !in AvailableItems();
    PaymentDecides("Soda", 2.00);
    PaymentDecides("Candy", 0.50);
  }
}
