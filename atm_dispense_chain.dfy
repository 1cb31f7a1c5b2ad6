/** The ATM dispense chain: a $50 handler wired to a $20 handler wired to a
    $10 handler. Each handler that can pay at least one note dispenses as many
    as fit and forwards a non-zero remainder; otherwise it forwards the amount
    unchanged. The $10 handler ends the chain with a "multiples of 10"
    message for anything it cannot pay exactly.

    The printed lines are the model's output: a sequence of `Output`s. */
module AtmDispenseChain {

  datatype Output =
    | Dispensing(note: int, count: int)   // "Dispensing <count> <note>$ note(s)"
    | MultiplesOf10                       // "Amount should be in multiples of 10."

  /** Java's `amount % 10` on `int`: the remainder takes the sign of the
      dividend, so a negative amount gives a remainder in (-10, 0], and the
      remainder is zero exactly for the multiples of 10. */
  function JavaRem10(a: int): (r: int)
    ensures a >= 0 ==> r == a % 10
    ensures a < 0 ==> -10 < r <= 0 && (a - r) % 10 == 0
    ensures r == 0 <==> a % 10 == 0
  {
    if a >= 0 then a % 10 else -((-a) % 10)
  }

  // The handlers divide only amounts at least as large as their (positive)
  // note, where Dafny's `/` and `%` agree with Java's.

  function Dollar10Dispense(amount: int): seq<Output>
  {
    if amount >= 10 then
      [Dispensing(10, amount / 10)] + (if amount % 10 != 0 then [MultiplesOf10] else [])
    else
      [MultiplesOf10]
  }

  function Dollar20Dispense(amount: int): seq<Output>
  {
    if amount >= 20 then
      [Dispensing(20, amount / 20)] + (if amount % 20 != 0 then Dollar10Dispense(amount % 20) else [])
    else
      Dollar10Dispense(amount)
  }

  function Dollar50Dispense(amount: int): seq<Output>
  {
    if amount >= 50 then
      [Dispensing(50, amount / 50)] + (if amount % 50 != 0 then Dollar20Dispense(amount % 50) else [])
    else
      Dollar20Dispense(amount)
  }

  /** `ATMDispenseChain.dispenseAmount`: the guard, then the chain. */
  function DispenseAmount(amount: int): seq<Output>
  {
    if JavaRem10(amount) != 0 then [MultiplesOf10] else Dollar50Dispense(amount)
  }

  /** Number of `note` notes paid out. */
  function NotesOf(outs: seq<Output>, note: int): int
  {
    if outs == [] then 0
    else (if outs[0].Dispensing? && outs[0].note == note then outs[0].count else 0)
         + NotesOf(outs[1..], note)
  }

  lemma {:induction false} NotesOfAppend(a: seq<Output>, b: seq<Output>, note: int)
    ensures NotesOf(a + b, note) == NotesOf(a, note) + NotesOf(b, note)
  {
    if a == [] {
      assert a + b == b;
    } else {
      assert (a + b)[0] == a[0];
      assert (a + b)[1..] == a[1..] + b;
      NotesOfAppend(a[1..], b, note);
    }
  }

  /** The paid-out total. */
  function Paid(outs: seq<Output>): int
  {
    50 * NotesOf(outs, 50) + 20 * NotesOf(outs, 20) + 10 * NotesOf(outs, 10)
  }

  /** Every output line is a payment of at least one note. */
  predicate OnlyPayments(outs: seq<Output>)
  {
    forall o | o in outs :: o.Dispensing? && o.count >= 1
  }

  lemma Dollar10Pays(a: int)
    requires 0 <= a < 20 && a % 10 == 0
    ensures var outs := (if a != 0 then Dollar10Dispense(a) else []);
      OnlyPayments(outs) && NotesOf(outs, 10) == a / 10
      && NotesOf(outs, 20) == 0 && NotesOf(outs, 50) == 0
  {
  }

  lemma Dollar20Pays(a: int)
    requires 0 <= a < 50 && a % 10 == 0
    ensures var outs := (if a != 0 then Dollar20Dispense(a) else []);
      && OnlyPayments(outs)
      && NotesOf(outs, 20) == a / 20 && NotesOf(outs, 10) == (a % 20) / 10
      && NotesOf(outs, 50) == 0
  {
    if a >= 20 {
      var rest := if a % 20 != 0 then Dollar10Dispense(a % 20) else [];
      Dollar10Pays(a % 20);
      NotesOfAppend([Dispensing(20, a / 20)], rest, 10);
      NotesOfAppend([Dispensing(20, a / 20)], rest, 20);
      NotesOfAppend([Dispensing(20, a / 20)], rest, 50);
    } else if a != 0 {
      Dollar10Pays(a);
    }
  }

  /** For a positive multiple of 10 the chain pays greedily, largest note
      first, and prints nothing but payments: a/50 fifties, (a%50)/20
      twenties and ((a%50)%20)/10 tens. */
  lemma {:induction false} GreedyCounts(a: int)
    requires a > 0 && a % 10 == 0
    ensures var outs := DispenseAmount(a);
      && OnlyPayments(outs)
      && NotesOf(outs, 50) == a / 50
      && NotesOf(outs, 20) == (a % 50) / 20
      && NotesOf(outs, 10) == ((a % 50) % 20) / 10
  {
    assert (a % 50) % 10 == 0;
    if a >= 50 {
      var rest := if a % 50 != 0 then Dollar20Dispense(a % 50) else [];
      Dollar20Pays(a % 50);
      NotesOfAppend([Dispensing(50, a / 50)], rest, 10);
      NotesOfAppend([Dispensing(50, a / 50)], rest, 20);
      NotesOfAppend([Dispensing(50, a / 50)], rest, 50);
    } else {
      Dollar20Pays(a);
    }
  }

  /** The greedy payment is exact, uses at most two twenties and one ten. */
  lemma DispensesExactly(a: int)
    requires a > 0 && a % 10 == 0
    ensures Paid(DispenseAmount(a)) == a
    ensures NotesOf(DispenseAmount(a), 20) <= 2 && NotesOf(DispenseAmount(a), 10) <= 1
    ensures MultiplesOf10 !in DispenseAmount(a)
  {
    GreedyCounts(a);
    GreedySplit(a);
  }

  /** Fifties, then twenties, then tens add back up to the amount. */
  lemma GreedySplit(a: int)
    requires a > 0 && a % 10 == 0
    ensures 50 * (a / 50) + 20 * ((a % 50) / 20) + 10 * (((a % 50) % 20) / 10) == a
    ensures (a % 50) / 20 <= 2 && ((a % 50) % 20) / 10 <= 1
  {
    var k, q := a / 10, a / 50;
    assert a == 10 * k && a == 50 * q + a % 50;
    var j := k - 5 * q;
    assert a % 50 == 10 * j && 0 <= j < 5;
    assert j == 0 || j == 1 || j == 2 || j == 3 || j == 4;
  }

  /** An amount that is not a multiple of 10 (by Java's `%`, whose sign
      follows the amount) is rejected before any note handler runs. */
  lemma RejectsNonMultiples(a: int)
    requires JavaRem10(a) != 0
    ensures DispenseAmount(a) == [MultiplesOf10]
  {
  }

  /** Zero and negative multiples of 10 pass the guard, fall through every
      handler and end at the $10 handler's message. */
  lemma NonPositiveMultiplesEndAtTenHandler(a: int)
    requires a <= 0 && a % 10 == 0
    ensures JavaRem10(a) == 0
    ensures DispenseAmount(a) == [MultiplesOf10]
  {
  }

  /** Notes are paid exactly when the amount is a positive multiple of 10. */
  lemma PaysIffPositiveMultiple(a: int)
    ensures (exists o | o in DispenseAmount(a) :: o.Dispensing?) <==> (a > 0 && a % 10 == 0)
  {
    if a > 0 && a % 10 == 0 {
      GreedyCounts(a);
      var outs := DispenseAmount(a);
      assert outs[0] in outs;
    } else if JavaRem10(a) != 0 {
      RejectsNonMultiples(a);
    } else {
      NonPositiveMultiplesEndAtTenHandler(a);
    }
  }

  /** The demonstration amounts. */
  lemma DemoAmounts()
    ensures DispenseAmount(130) == [Dispensing(50, 2), Dispensing(20, 1), Dispensing(10, 1)]
    ensures DispenseAmount(280) == [Dispensing(50, 5), Dispensing(20, 1), Dispensing(10, 1)]
    ensures DispenseAmount(125) == [MultiplesOf10]
  {
  }
}
