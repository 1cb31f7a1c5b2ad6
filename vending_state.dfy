/** The state-pattern vending machine: a context whose current state is one
    of Ready, ProductSelected and MoneyInserted. Every action is delegated to
    the current state, which prints a message and may move the context to
    another state. The three state objects carry no data of their own, so the
    current state is modelled as an enumeration. */
module VendingStateMachine {
  import opened Common

  datatype MachineState = Ready | ProductSelected | MoneyInserted

  datatype Action = SelectProduct | InsertMoney | DispenseProduct

  /** The transition table: the message printed and the next state. */
  function Step(s: MachineState, a: Action): (MachineState, string)
  {
    match (s, a)
    case (Ready, SelectProduct) => (ProductSelected, "Product selected.")
    case (Ready, InsertMoney) => (Ready, "Select product before inserting money.")
    case (Ready, DispenseProduct) => (Ready, "Select product first.")
    case (ProductSelected, SelectProduct) => (ProductSelected, "Product already selected.")
    case (ProductSelected, InsertMoney) => (MoneyInserted, "Money inserted.")
    case (ProductSelected, DispenseProduct) => (ProductSelected, "Insert money first.")
    case (MoneyInserted, SelectProduct) => (MoneyInserted, "Already selected a product.")
    case (MoneyInserted, InsertMoney) => (MoneyInserted, "Money already inserted.")
    case (MoneyInserted, DispenseProduct) => (Ready, "Product dispensed.")
  }

  /** The actions in order: the final state and every printed message. */
  function Run(s: MachineState, actions: seq<Action>): (MachineState, seq<string>)
  {
    if actions == [] then (s, [])
    else
      var (t, msgs) := Run(s, actions[..|actions| - 1]);
      var (u, msg) := Step(t, actions[|actions| - 1]);
      (u, msgs + [msg])
  }

  /** One more action extends the run by one step. */
  lemma RunSnoc(s: MachineState, actions: seq<Action>, a: Action)
    ensures Run(s, actions + [a])
         == (Step(Run(s, actions).0, a).0, Run(s, actions).1 + [Step(Run(s, actions).0, a).1])
  {
    assert (actions + [a])[..|actions|] == actions;
  }

  /** The three moves of the cycle, and no other: each action changes the
      state only from the one state that expects it. */
  lemma OnlyThreeMoves(s: MachineState, a: Action)
    ensures Step(s, a).0 != s <==>
      (s == Ready && a == SelectProduct) ||
      (s == ProductSelected && a == InsertMoney) ||
      (s == MoneyInserted && a == DispenseProduct)
    ensures s == Ready && a == SelectProduct ==> Step(s, a).0 == ProductSelected
    ensures s == ProductSelected && a == InsertMoney ==> Step(s, a).0 == MoneyInserted
    ensures s == MoneyInserted && a == DispenseProduct ==> Step(s, a).0 == Ready
  {
  }

  /** What the machine has done so far, read off the printed messages,
      agrees with its state: a product is selected and not yet dispensed
      exactly outside Ready, paid for and not yet dispensed exactly in
      MoneyInserted. */
  ghost predicate Consistent(s: MachineState, msgs: seq<string>)
  {
    var selected := Count(msgs, "Product selected.");
    var paid := Count(msgs, "Money inserted.");
    var dispensed := Count(msgs, "Product dispensed.");
    && selected == dispensed + (if s == Ready then 0 else 1)
    && paid == dispensed + (if s == MoneyInserted then 1 else 0)
  }

  /** From Ready, any sequence of actions keeps the messages consistent with
      the state: a product is dispensed only after it was selected and paid
      for, and at most once per payment. */
  lemma {:induction false} RunIsConsistent(actions: seq<Action>)
    ensures Consistent(Run(Ready, actions).0, Run(Ready, actions).1)
  {
    if actions != [] {
      var init := actions[..|actions| - 1];
      RunIsConsistent(init);
      var (t, msgs) := Run(Ready, init);
      var (u, msg) := Step(t, actions[|actions| - 1]);
      assert Run(Ready, actions) == (u, msgs + [msg]);
      assert multiset(msgs + [msg]) == multiset(msgs) + multiset{msg};
    }
  }

  /** The demonstration trace ends in ProductSelected. */
  lemma DemoTrace()
    ensures Run(Ready, [SelectProduct, SelectProduct, InsertMoney, DispenseProduct,
                        DispenseProduct, InsertMoney, SelectProduct])
         == (ProductSelected,
             ["Product selected.", "Product already selected.", "Money inserted.",
              "Product dispensed.", "Select product first.",
              "Select product before inserting money.", "Product selected."])
  {
    var t0: seq<Action> := [];
    var m0: seq<string> := [];
    var t1, m1 := t0 + [SelectProduct], m0 + ["Product selected."];
    RunSnoc(Ready, t0, SelectProduct);
    assert Run(Ready, t1) == (ProductSelected, m1);
    var t2, m2 := t1 + [SelectProduct], m1 + ["Product already selected."];
    RunSnoc(Ready, t1, SelectProduct);
    assert Run(Ready, t2) == (ProductSelected, m2);
    var t3, m3 := t2 + [InsertMoney], m2 + ["Money inserted."];
    RunSnoc(Ready, t2, InsertMoney);
    assert Run(Ready, t3) == (MoneyInserted, m3);
    var t4, m4 := t3 + [DispenseProduct], m3 + ["Product dispensed."];
    RunSnoc(Ready, t3, DispenseProduct);
    assert Run(Ready, t4) == (Ready, m4);
    var t5, m5 := t4 + [DispenseProduct], m4 + ["Select product first."];
    RunSnoc(Ready, t4, DispenseProduct);
    assert Run(Ready, t5) == (Ready, m5);
    var t6, m6 := t5 + [InsertMoney], m5 + ["Select product before inserting money."];
    RunSnoc(Ready, t5, InsertMoney);
    assert Run(Ready, t6) == (Ready, m6);
    var t7, m7 := t6 + [SelectProduct], m6 + ["Product selected."];
    RunSnoc(Ready, t6, SelectProduct);
    assert Run(Ready, t7) == (ProductSelected, m7);
    assert t7 == [SelectProduct, SelectProduct, InsertMoney, DispenseProduct,
                  DispenseProduct, InsertMoney, SelectProduct];
    assert m7 == ["Product selected.", "Product already selected.", "Money inserted.",
                  "Product dispensed.", "Select product first.",
                  "Select product before inserting money.", "Product selected."];
  }

  class VendingMachineContext {
    var currentState: MachineState

    /** The initial state is Ready. */
    constructor ()
      ensures currentState == Ready
    {
      currentState := Ready;
    }

    method SelectProduct() returns (msg: string)
      modifies this
      ensures (currentState, msg) == Step(old(currentState), Action.SelectProduct)
    {
      match currentState
      case Ready =>
        msg := "Product selected.";
        currentState := ProductSelected;
      case ProductSelected =>
        msg := "Product already selected.";
      case MoneyInserted =>
        msg := "Already selected a product.";
    }

    method InsertMoney() returns (msg: string)
      modifies this
      ensures (currentState, msg) == Step(old(currentState), Action.InsertMoney)
    {
      match currentState
      case Ready =>
        msg := "Select product before inserting money.";
      case ProductSelected =>
        msg := "Money inserted.";
        currentState := MoneyInserted;
      case MoneyInserted =>
        msg := "Money already inserted.";
    }

    method DispenseProduct() returns (msg: string)
      modifies this
      ensures (currentState, msg) == Step(old(currentState), Action.DispenseProduct)
    {
      match currentState
      case Ready =>
        msg := "Select product first.";
      case ProductSelected =>
        msg := "Insert money first.";
      case MoneyInserted =>
        msg := "Product dispensed.";
        currentState := Ready;
    }
  }

  /** Drives a machine through `actions`, collecting the messages. */
  method Perform(machine: VendingMachineContext, actions: seq<Action>) returns (msgs: seq<string>)
    modifies machine
    ensures (machine.currentState, msgs) == Run(old(machine.currentState), actions)
  {
    msgs := [];
    for i := 0 to |actions|
      invariant (machine.currentState, msgs) == Run(old(machine.currentState), actions[..i])
    {
      assert actions[..i + 1] == actions[..i] + [actions[i]];
      RunSnoc(old(machine.currentState), actions[..i], actions[i]);
      var msg;
      match actions[i] {
        case SelectProduct => msg := machine.SelectProduct();
        case InsertMoney => msg := machine.InsertMoney();
        case DispenseProduct => msg := machine.DispenseProduct();
      }
      msgs := msgs + [msg];
    }
    assert actions[..|actions|] == actions;
  }

  /** The demonstration program on a new machine. */
  method VendingMachineDemo() returns (msgs: seq<string>, final: MachineState)
    ensures final == ProductSelected
    ensures Consistent(final, msgs)
    ensures msgs[|msgs| - 1] == "Product selected."
  {
    var machine := new VendingMachineContext();
    var trace := [SelectProduct, SelectProduct, InsertMoney, DispenseProduct,
                  DispenseProduct, InsertMoney, SelectProduct];
    msgs := Perform(machine, trace);
    final := machine.currentState;
    DemoTrace();
    RunIsConsistent(trace);
  }
}
