/** The customer-support chain of responsibility: three support levels, each
    handling one request priority. Levels 1 and 2 pass any other request to
    their successor, if they have one; level 3 is the end of the line and
    says so for anything that is not critical.

    The printed lines are the model's output. */
module CustomerSupport {

  datatype Priority = Basic | Intermediate | Critical

  datatype SupportLevel = Level1 | Level2 | Level3

  datatype Outcome =
    | Handled(level: nat)        // "Level <n> Support handled the request."
    | CannotBeHandled            // "Request cannot be handled."

  /** A handler's `nextHandler` call; an empty rest is a null successor. */
  function Forward(next: seq<SupportLevel>, p: Priority): seq<Outcome>
    decreases |next|, 0
  {
    if next == [] then [] else HandleRequest(next[0], next[1..], p)
  }

  /** `handleRequest` of level `h` wired to the chain `next`. */
  function HandleRequest(h: SupportLevel, next: seq<SupportLevel>, p: Priority): seq<Outcome>
    decreases |next|, 1
  {
    match h
    case Level1 => if p == Basic then [Handled(1)] else Forward(next, p)
    case Level2 => if p == Intermediate then [Handled(2)] else Forward(next, p)
    case Level3 =>
      // `setNextHandler` is a no-op here, so the successor is never used.
      if p == Critical then [Handled(3)] else [CannotBeHandled]
  }

  /** The demonstration's wiring: level 1, then 2, then 3. */
  function Route(p: Priority): seq<Outcome>
  {
    HandleRequest(Level1, [Level2, Level3], p)
  }

  /** The level responsible for each priority. */
  function ResponsibleLevel(p: Priority): nat
  {
    match p
    case Basic => 1
    case Intermediate => 2
    case Critical => 3
  }

  /** Basic requests stop at level 1, whatever it is wired to. */
  lemma BasicHandledByLevel1(next: seq<SupportLevel>)
    ensures HandleRequest(Level1, next, Basic) == [Handled(1)]
  {
  }

  /** Level 1 passes an intermediate request to level 2, which handles it. */
  lemma IntermediateForwardedToLevel2(rest: seq<SupportLevel>)
    ensures HandleRequest(Level1, [Level2] + rest, Intermediate) == [Handled(2)]
  {
    var next := [Level2] + rest;
    assert next[0] == Level2 && next[1..] == rest;
    assert Forward(next, Intermediate) == HandleRequest(Level2, rest, Intermediate);
  }

  /** A critical request travels through levels 1 and 2 to level 3. */
  lemma CriticalReachesLevel3(rest: seq<SupportLevel>)
    ensures HandleRequest(Level1, [Level2, Level3] + rest, Critical) == [Handled(3)]
  {
    var next := [Level2, Level3] + rest;
    assert next[0] == Level2 && next[1..] == [Level3] + rest;
    assert ([Level3] + rest)[0] == Level3 && ([Level3] + rest)[1..] == rest;
    assert Forward(next, Critical) == HandleRequest(Level2, [Level3] + rest, Critical);
    assert Forward([Level3] + rest, Critical) == HandleRequest(Level3, rest, Critical);
  }

  /** With the chain wired, every request is handled by exactly one level:
      the one responsible for its priority. */
  lemma ExactlyOneHandler(p: Priority)
    ensures Route(p) == [Handled(ResponsibleLevel(p))]
  {
    match p
    case Basic => BasicHandledByLevel1([Level2, Level3]);
    case Intermediate => IntermediateForwardedToLevel2([Level3]);
    case Critical => CriticalReachesLevel3([]);
  }

  /** A request that level 1 or 2 does not handle and cannot pass on (null
      successor) is dropped without a word. */
  lemma NullSuccessorDrops(h: SupportLevel, p: Priority)
    requires h != Level3 && ResponsibleLevel(p) != (if h == Level1 then 1 else 2)
    ensures HandleRequest(h, [], p) == []
  {
  }

  /** Level 3 ignores its successor and reports non-critical requests as
      unhandled. */
  lemma Level3IgnoresSuccessor(next: seq<SupportLevel>, p: Priority)
    ensures HandleRequest(Level3, next, p) == HandleRequest(Level3, [], p)
    ensures p != Critical <==> HandleRequest(Level3, next, p) == [CannotBeHandled]
  {
  }

  /** Under any wiring a request produces at most one line, and a line
      naming a level is printed by a level responsible for the priority. */
  lemma {:induction false} AtMostOneOutcome(h: SupportLevel, next: seq<SupportLevel>, p: Priority)
    ensures |HandleRequest(h, next, p)| <= 1
    ensures forall o | o in HandleRequest(h, next, p) :: o.Handled? ==> o.level == ResponsibleLevel(p)
    decreases |next|
  {
    if h != Level3 && ResponsibleLevel(p) != (if h == Level1 then 1 else 2) && next != [] {
      AtMostOneOutcome(next[0], next[1..], p);
    }
  }
}
