/** The database connection pool: a LIFO pool of connection handles with a
    ceiling of three connections in use, fed by a global id counter.

    The pool is modelled as the source writes it, not as an idealised pool:
    `ReleaseConnection` accepts any handle (a foreign handle or a second
    release of the same handle is appended to the available list), and the
    ceiling is checked against the used list alone, when nothing is available.

    `PoolState` and the two step functions are the specification; the classes
    below are proved to follow them, and the lemmas state what the steps
    guarantee. */
module DataBaseConnectionPool {
  import opened Common

  /** A connection handle, identified by its id. */
  datatype DatabaseConnection = DatabaseConnection(id: int)

  const MaxConnections: nat := 3
  const MaxConnectionsReached: string := "Max connections reached"

  /** The pool's two lists together with the global connection counter. */
  datatype PoolState = PoolState(available: seq<DatabaseConnection>,
                                 used: seq<DatabaseConnection>,
                                 counter: int)

  /** `getConnection`: reuse the last available handle; with none available,
      create one while fewer than `MaxConnections` are in use; otherwise fail. */
  function GetConnectionStep(s: PoolState): (PoolState, Result<DatabaseConnection>)
  {
    if s.available == [] then
      if |s.used| < MaxConnections then
        var c := DatabaseConnection(s.counter + 1);
        (PoolState([], s.used + [c], s.counter + 1), Ok(c))
      else
        (s, Err(MaxConnectionsReached))
    else
      var c := s.available[|s.available| - 1];
      (PoolState(s.available[..|s.available| - 1], s.used + [c], s.counter), Ok(c))
  }

  /** `releaseConnection`: drop the first occurrence from the used list (if
      any) and always append to the available list. */
  function ReleaseStep(s: PoolState, c: DatabaseConnection): PoolState
  {
    PoolState(s.available + [c], RemoveFirst(s.used, c), s.counter)
  }

  /** All handles the pool knows of, as a bag. */
  function Handles(s: PoolState): multiset<DatabaseConnection>
  {
    multiset(s.available) + multiset(s.used)
  }

  /** Every handle in the pool was issued by the counter, which starts at 0
      and is pre-incremented, so issued ids run from 1 to the counter. */
  ghost predicate IdsIssued(s: PoolState)
  {
    && s.counter >= 0
    && forall c | c in Handles(s) :: 1 <= c.id <= s.counter
  }

  // -------------------------------------------------------------------
  // What getConnection guarantees
  // -------------------------------------------------------------------

  /** The three outcomes of `getConnection`, stated by what they do to the
      two lists: the reused handle is the last available one and moves to
      the end of `used`; a created handle carries the next counter value;
      exhaustion changes nothing. */
  lemma GetConnectionOutcomes(s: PoolState)
    ensures var (t, r) := GetConnectionStep(s);
      && (s.available != [] ==>
            && r == Ok(s.available[|s.available| - 1])
            && t.available + [r.value] == s.available
            && t.used == s.used + [r.value]
            && t.counter == s.counter)
      && (s.available == [] && |s.used| < MaxConnections ==>
            && r == Ok(DatabaseConnection(s.counter + 1))
            && t.available == [] && t.used == s.used + [r.value]
            && t.counter == s.counter + 1)
      && (s.available == [] && |s.used| >= MaxConnections ==>
            r == Err(MaxConnectionsReached) && t == s)
  {
    if s.available != [] {
      var n := |s.available|;
      assert s.available[..n - 1] + [s.available[n - 1]] == s.available;
    }
  }

  /** getConnection never loses or duplicates a handle: reuse moves one,
      creation adds exactly the returned handle, failure changes nothing. */
  lemma GetConnectionConserves(s: PoolState)
    ensures var (t, r) := GetConnectionStep(s);
      Handles(t) == if s.available == [] && r.Ok? then Handles(s) + multiset{r.value}
                    else Handles(s)
  {
    if s.available != [] {
      var n := |s.available|;
      assert s.available == s.available[..n - 1] + [s.available[n - 1]];
    }
  }

  /** A created connection gets the next id, strictly larger than every id
      issued before, so it is distinct from every handle already pooled. */
  lemma CreatedConnectionIsFresh(s: PoolState)
    requires IdsIssued(s)
    ensures var (t, r) := GetConnectionStep(s);
      && IdsIssued(t)
      && (s.available == [] && r.Ok? ==>
            && r.value.id == s.counter + 1
            && (forall c | c in Handles(s) :: c.id < r.value.id)
            && r.value !in Handles(s))
  {
    GetConnectionConserves(s);
    var (t, r) := GetConnectionStep(s);
    assert t.counter >= s.counter;
    forall c | c in Handles(t) ensures 1 <= c.id <= t.counter {
      if s.available == [] && r.Ok? {
        assert Handles(t) == Handles(s) + multiset{r.value};
        if c != r.value {
          assert c in Handles(s);
        }
      } else {
        assert Handles(t) == Handles(s);
      }
    }
  }

  /** Connections are only ever created while fewer than three are in use,
      so the creation branch never takes `used` above three. Reuse has no
      such bound: it appends to `used` whatever the count. */
  lemma CreationRespectsCeiling(s: PoolState)
    ensures var (t, r) := GetConnectionStep(s);
      r.Ok? && r.value !in Handles(s) ==>
        s.available == [] && |s.used| < MaxConnections && |t.used| <= MaxConnections
  {
    if s.available != [] {
      var n := |s.available|;
      assert GetConnectionStep(s).1.value == s.available[n - 1];
      assert s.available[n - 1] in multiset(s.available);
    }
  }

  // -------------------------------------------------------------------
  // What releaseConnection guarantees (and what it does not check)
  // -------------------------------------------------------------------

  /** Release always appends the handle to `available`; it removes one copy
      from `used` only when the handle is there. A foreign or already
      released handle is therefore added, not rejected. */
  lemma ReleaseConserves(s: PoolState, c: DatabaseConnection)
    ensures Handles(ReleaseStep(s, c)) ==
      if c in s.used then Handles(s) else Handles(s) + multiset{c}
    ensures |ReleaseStep(s, c).available| == |s.available| + 1
  {
    var r := ReleaseStep(s, c);
    assert multiset(r.available) == multiset(s.available) + multiset{c};
    if c in s.used {
      RemoveFirstMultiset(s.used, c);
      assert multiset(s.used)[c] >= 1;
      assert multiset(r.used) + multiset{c} == multiset(s.used);
    } else {
      RemoveFirstAbsent(s.used, c);
    }
  }

  /** Releasing the same handle twice makes it obtainable twice: the next
      two `getConnection` calls both hand it out. */
  lemma DoubleReleaseHandsOutTwice(s: PoolState, c: DatabaseConnection)
    ensures var s2 := ReleaseStep(ReleaseStep(s, c), c);
      var (s3, r1) := GetConnectionStep(s2);
      var (_, r2) := GetConnectionStep(s3);
      r1 == Ok(c) && r2 == Ok(c)
  {
    var s2 := ReleaseStep(ReleaseStep(s, c), c);
    assert s2.available == s.available + [c] + [c];
    var (s3, r1) := GetConnectionStep(s2);
    assert s3.available == s.available + [c];
  }

  // -------------------------------------------------------------------
  // The pool invariant holds for clients that release only what they hold
  // -------------------------------------------------------------------

  /** Each handle is pooled at most once, every id was issued, and the pool
      never holds more than `cap` handles in all. */
  ghost predicate PoolInvariant(s: PoolState, cap: nat)
  {
    && IdsIssued(s)
    && (forall c :: Handles(s)[c] <= 1)
    && |s.available| + |s.used| <= cap
  }

  /** With a ceiling `cap` of at least `MaxConnections` (the initial seed may
      be larger), getConnection keeps the invariant. */
  lemma GetConnectionKeepsInvariant(s: PoolState, cap: nat)
    requires cap >= MaxConnections
    requires PoolInvariant(s, cap)
    ensures PoolInvariant(GetConnectionStep(s).0, cap)
  {
    var (t, r) := GetConnectionStep(s);
    GetConnectionConserves(s);
    CreatedConnectionIsFresh(s);
    assert |Handles(t)| == |t.available| + |t.used|;
    assert |Handles(s)| == |s.available| + |s.used|;
  }

  /** Releasing a handle that is in use keeps the invariant; this is the
      discipline the pool relies on its callers for. */
  lemma ReleaseInUseKeepsInvariant(s: PoolState, cap: nat, c: DatabaseConnection)
    requires PoolInvariant(s, cap)
    requires c in s.used
    ensures PoolInvariant(ReleaseStep(s, c), cap)
  {
    ReleaseConserves(s, c);
    RemoveFirstPresent(s.used, c);
    assert |Handles(ReleaseStep(s, c))| == |ReleaseStep(s, c).available| + |ReleaseStep(s, c).used|;
    assert |Handles(s)| == |s.available| + |s.used|;
  }

  /** Releasing a handle held once, twice over, breaks the invariant: the
      handle is then pooled one more time than before. */
  lemma DoubleReleaseBreaksInvariant(s: PoolState, c: DatabaseConnection)
    requires multiset(s.used)[c] == 1
    ensures Handles(ReleaseStep(ReleaseStep(s, c), c))[c] == Handles(s)[c] + 1
  {
    ReleaseConserves(s, c);
    var s1 := ReleaseStep(s, c);
    RemoveFirstMultiset(s.used, c);
    assert multiset(s1.used)[c] == 0;
    ReleaseConserves(s1, c);
  }

  // -------------------------------------------------------------------
  // Scenarios
  // -------------------------------------------------------------------

  /** Seeded with connections 1 and 2: LIFO hands out 2 then 1, creates 3,
      then fails; releasing 2 makes it the next one handed out. */
  lemma ExhaustionScenario()
    ensures var s0 := PoolState([DatabaseConnection(1), DatabaseConnection(2)], [], 2);
      var (s1, r1) := GetConnectionStep(s0);
      var (s2, r2) := GetConnectionStep(s1);
      var (s3, r3) := GetConnectionStep(s2);
      var (s4, r4) := GetConnectionStep(s3);
      var (s5, r5) := GetConnectionStep(ReleaseStep(s4, DatabaseConnection(2)));
      && r1 == Ok(DatabaseConnection(2)) && r2 == Ok(DatabaseConnection(1))
      && r3 == Ok(DatabaseConnection(3)) && r4 == Err(MaxConnectionsReached)
      && r5 == Ok(DatabaseConnection(2))
  {
    var s0 := PoolState([DatabaseConnection(1), DatabaseConnection(2)], [], 2);
    var (s1, r1) := GetConnectionStep(s0);
    assert s1.available == [DatabaseConnection(1)];
    var (s2, r2) := GetConnectionStep(s1);
    assert s2.available == [];
    var (s3, r3) := GetConnectionStep(s2);
    assert |s3.used| == 3;
    var s4' := ReleaseStep(s3, DatabaseConnection(2));
    assert s4'.available == [DatabaseConnection(2)];
  }

  // -------------------------------------------------------------------
  // The objects
  // -------------------------------------------------------------------

  /** The static `DatabaseConnection.counter`, made an explicit object. */
  class ConnectionIdCounter {
    var counter: int

    constructor ()
      ensures counter == 0
    {
      counter := 0;
    }

    /** `new DatabaseConnection()`: the id is the pre-incremented counter. */
    method NewConnection() returns (c: DatabaseConnection)
      modifies this
      ensures counter == old(counter) + 1 && c.id == counter
    {
      counter := counter + 1;
      c := DatabaseConnection(counter);
    }
  }

  class ConnectionPool {
    var availableConnections: seq<DatabaseConnection>
    var usedConnections: seq<DatabaseConnection>

    constructor (pool: seq<DatabaseConnection>)
      ensures availableConnections == pool && usedConnections == []
    {
      availableConnections := pool;
      usedConnections := [];
    }

    function State(ids: ConnectionIdCounter): PoolState
      reads this, ids
    {
      PoolState(availableConnections, usedConnections, ids.counter)
    }

    method GetConnection(ids: ConnectionIdCounter) returns (r: Result<DatabaseConnection>)
      modifies this, ids
      ensures (State(ids), r) == GetConnectionStep(old(State(ids)))
    {
      if availableConnections == [] {
        if |usedConnections| < MaxConnections {
          var newConn := ids.NewConnection();
          usedConnections := usedConnections + [newConn];
          return Ok(newConn);
        }
        return Err(MaxConnectionsReached);
      }
      var last := |availableConnections| - 1;
      var conn := availableConnections[last];
      availableConnections := availableConnections[..last];
      usedConnections := usedConnections + [conn];
      r := Ok(conn);
    }

    method ReleaseConnection(connection: DatabaseConnection, ghost ids: ConnectionIdCounter)
      modifies this
      ensures State(ids) == ReleaseStep(old(State(ids)), connection)
    {
      usedConnections := RemoveFirst(usedConnections, connection);
      availableConnections := availableConnections + [connection];
    }

    method GetAvailableConnectionsCount() returns (n: nat)
      ensures n == |availableConnections|
    {
      n := |availableConnections|;
    }
  }

  /** Holder of the static `ConnectionPool.instance`. */
  class ConnectionPoolRegistry {
    var instance: ConnectionPool?

    constructor ()
      ensures instance == null
    {
      instance := null;
    }

    /** The first call builds the pool over its argument; later calls return
        that same pool and ignore their argument. */
    method GetInstance(pool: seq<DatabaseConnection>) returns (p: ConnectionPool)
      modifies this
      ensures instance == p
      ensures old(instance) != null ==> p == old(instance)
      ensures old(instance) == null ==>
        fresh(p) && p.availableConnections == pool && p.usedConnections == []
    {
      if instance == null {
        instance := new ConnectionPool(pool);
      }
      p := instance;
    }
  }

  /** The demonstration program: two seeded connections, two taken, one
      released and taken again; returns the three printed available counts. */
  method DataBaseConnectionPoolDemo() returns (counts: seq<nat>, c1: DatabaseConnection, c3: DatabaseConnection)
    ensures counts == [0, 1, 0]
    ensures c1.id == 2 && c3 == c1
  {
    var ids := new ConnectionIdCounter();
    var first := ids.NewConnection();
    var second := ids.NewConnection();
    var registry := new ConnectionPoolRegistry();
    var pool := registry.GetInstance([first, second]);
    var r1 := pool.GetConnection(ids);
    var r2 := pool.GetConnection(ids);
    var n1 := pool.GetAvailableConnectionsCount();
    c1 := r1.value;
    pool.ReleaseConnection(c1, ids);
    var n2 := pool.GetAvailableConnectionsCount();
    var r3 := pool.GetConnection(ids);
    c3 := r3.value;
    var n3 := pool.GetAvailableConnectionsCount();
    counts := [n1, n2, n3];
  }
}
