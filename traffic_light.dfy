/** The state-pattern traffic light: each `showLight` shows the current
    colour and replaces the context's state with the next one in the cycle
    Red, Green, Yellow. */
module TrafficLight {

  datatype Light = Red | Green | Yellow

  /** The state installed after showing `l`. */
  function Next(l: Light): Light
  {
    match l
    case Red => Green
    case Green => Yellow
    case Yellow => Red
  }

  /** The line printed while showing `l`. */
  function Message(l: Light): string
  {
    match l
    case Red => "Red light - Stop!"
    case Green => "Green light - Go!"
    case Yellow => "Yellow light - Slow Down!"
  }

  const Cycle: seq<Light> := [Red, Green, Yellow]

  /** The state after `k` calls starting from `l`. */
  function Advance(l: Light, k: nat): Light
  {
    if k == 0 then l else Next(Advance(l, k - 1))
  }

  /** Every call changes the state. */
  lemma NoFixedPoint(l: Light)
    ensures Next(l) != l
    ensures Message(Next(l)) != Message(l)
  {
  }

  /** Three calls return to where they started. */
  lemma ThreeCallsReturn(l: Light)
    ensures Advance(l, 3) == l
  {
  }

  /** From the initial Red, the k-th call (from 0) shows colour k mod 3 of
      the cycle. */
  lemma {:induction false} ShowsCycle(k: nat)
    ensures Advance(Red, k) == Cycle[k % 3]
  {
    if k > 0 {
      ShowsCycle(k - 1);
      assert k % 3 == ((k - 1) % 3 + 1) % 3;
    }
  }

  class TrafficLightContext {
    var currentState: Light

    /** The initial state is Red. */
    constructor ()
      ensures currentState == Red
    {
      currentState := Red;
    }

    /** Shows the current colour, then advances. */
    method ShowLight() returns (shown: Light)
      modifies this
      ensures shown == old(currentState) && currentState == Next(old(currentState))
    {
      shown := currentState;
      currentState := Next(currentState);
    }
  }

  /** The demonstration: six calls on a new light go round the cycle
      twice. */
  method TrafficLightDemo() returns (shown: seq<Light>)
    ensures |shown| == 6
    ensures forall k | 0 <= k < 6 :: shown[k] == Cycle[k % 3]
  {
    var trafficLight := new TrafficLightContext();
    shown := [];
    for i := 0 to 6
      invariant |shown| == i
      invariant trafficLight.currentState == Advance(Red, i)
      invariant forall k | 0 <= k < i :: shown[k] == Advance(Red, k)
    {
      var l := trafficLight.ShowLight();
      shown := shown + [l];
    }
    forall k | 0 <= k < 6
      ensures shown[k] == Cycle[k % 3]
    {
      ShowsCycle(k);
    }
  }
}
