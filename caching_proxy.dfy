/** The caching user-service proxy: a read-through cache in front of a user
    service that counts its own calls.

    The source guards population with double-checked locking on a
    concurrent map. This model is sequential: the two `containsKey` checks
    collapse into one, and the guarantee the locking exists for (the backing
    service is asked at most once for a key that ends up cached) becomes an
    invariant over a ghost record of the keys the proxy passed to the
    service. */
module CachingProxy {
  import opened Common

  type UserList = seq<string>

  const NullPointer: string := "NullPointerException"

  /** The backing service's fixed country table. */
  function UsersTable(): map<string, UserList>
  {
    map["us" := ["user1", "user2"], "en" := ["user3", "user4", "user5"]]
  }

  /** The proxy's cache, the backing service's call count, and (for the
      proof only) the bag of keys the proxy has passed to the service. */
  datatype ProxyState = ProxyState(cache: map<string, UserList>,
                                   count: nat,
                                   fetched: multiset<string>)

  function InitialState(count: nat): ProxyState
  {
    ProxyState(map[], count, multiset{})
  }

  /** `CachingUserServiceProxy.getUsers` over the backing table `users`.
      A hit returns the cached list. A miss calls the backing service, which
      counts the call and returns the mapped list or null; a list is stored
      and returned, while a null makes the concurrent map's `put` throw, so
      the key stays uncached. */
  function GetUsersStep(users: map<string, UserList>, s: ProxyState, country: string)
    : (ProxyState, Result<UserList>)
  {
    if country in s.cache then
      (s, Ok(s.cache[country]))
    else
      var called := s.(count := s.count + 1, fetched := s.fetched + multiset{country});
      if country in users then
        (called.(cache := s.cache[country := users[country]]), Ok(users[country]))
      else
        (called, Err(NullPointer))
  }

  /** A sequence of `getUsers` calls, returning the final state. */
  function Run(users: map<string, UserList>, s: ProxyState, keys: seq<string>): ProxyState
    decreases |keys|
  {
    if keys == [] then s
    else Run(users, GetUsersStep(users, s, keys[0]).0, keys[1..])
  }

  /** What the proxy maintains, given the backing count `base` when the proxy
      was built: every backing call was made by the proxy; a cached key was
      fetched exactly once and holds the backing table's list; a key that was
      fetched but is not cached is unknown to the backing table. */
  ghost predicate CacheInvariant(users: map<string, UserList>, s: ProxyState, base: nat)
  {
    && s.count == base + |s.fetched|
    && (forall k | k in s.cache :: s.fetched[k] == 1 && k in users && s.cache[k] == users[k])
    && (forall k | k !in s.cache && s.fetched[k] > 0 :: k !in users)
  }

  // -------------------------------------------------------------------
  // One call
  // -------------------------------------------------------------------

  /** On a cached key the stored list is returned and the backing service is
      not called: nothing changes, the count included. */
  lemma HitDoesNotCallService(users: map<string, UserList>, s: ProxyState, country: string)
    requires country in s.cache
    ensures var (t, r) := GetUsersStep(users, s, country);
      r == Ok(s.cache[country]) && t == s && t.count == s.count
  {
  }

  /** On a miss the backing service is called exactly once. A known key is
      stored and its list returned; an unknown key fails and stays uncached,
      the call still counted. */
  lemma MissCallsServiceOnce(users: map<string, UserList>, s: ProxyState, country: string)
    requires country !in s.cache
    ensures var (t, r) := GetUsersStep(users, s, country);
      && t.count == s.count + 1
      && t.fetched[country] == s.fetched[country] + 1
      && (country in users ==>
            t.cache == s.cache[country := users[country]] && r == Ok(users[country]))
      && (country !in users ==>
            t.cache == s.cache && r == Err(NullPointer))
  {
  }

  /** One call keeps the invariant. */
  lemma GetUsersKeepsInvariant(users: map<string, UserList>, s: ProxyState, base: nat, country: string)
    requires CacheInvariant(users, s, base)
    ensures CacheInvariant(users, GetUsersStep(users, s, country).0, base)
  {
    var t := GetUsersStep(users, s, country).0;
    if country !in s.cache {
      assert s.fetched[country] == 0 || country !in users;
      forall k | k in t.cache
        ensures t.fetched[k] == 1 && k in users && t.cache[k] == users[k]
      {
        if k != country {
          assert k in s.cache;
        }
      }
    }
  }

  // -------------------------------------------------------------------
  // Any sequence of calls
  // -------------------------------------------------------------------

  /** Every sequence of calls keeps the invariant: the backing service is
      called at most once for each key that ends up cached, and the count is
      exactly the number of calls the proxy made. */
  lemma {:induction false} RunKeepsInvariant(users: map<string, UserList>, s: ProxyState, base: nat, keys: seq<string>)
    requires CacheInvariant(users, s, base)
    ensures CacheInvariant(users, Run(users, s, keys), base)
    decreases |keys|
  {
    if keys != [] {
      GetUsersKeepsInvariant(users, s, base, keys[0]);
      RunKeepsInvariant(users, GetUsersStep(users, s, keys[0]).0, base, keys[1..]);
    }
  }

  /** From a fresh proxy, over any sequence of requests: each cached key
      was fetched from the backing service exactly once, and the backing
      count grew by exactly the number of fetches. */
  lemma AtMostOncePerCachedKey(users: map<string, UserList>, base: nat, keys: seq<string>)
    ensures var t := Run(users, InitialState(base), keys);
      && t.count == base + |t.fetched|
      && (forall k | k in t.cache :: t.fetched[k] == 1 && k in users && t.cache[k] == users[k])
  {
    RunKeepsInvariant(users, InitialState(base), base, keys);
  }

  /** Entries are never overwritten or removed. */
  lemma {:induction false} RunKeepsEntries(users: map<string, UserList>, s: ProxyState, keys: seq<string>)
    ensures forall k | k in s.cache :: k in Run(users, s, keys).cache && Run(users, s, keys).cache[k] == s.cache[k]
    decreases |keys|
  {
    if keys != [] {
      RunKeepsEntries(users, GetUsersStep(users, s, keys[0]).0, keys[1..]);
    }
  }

  /** Every known key that was requested ends up cached. */
  lemma {:induction false} RunCachesKnownKeys(users: map<string, UserList>, s: ProxyState, keys: seq<string>)
    ensures forall k | k in keys && k in users :: k in Run(users, s, keys).cache
    decreases |keys|
  {
    if keys != [] {
      var t := GetUsersStep(users, s, keys[0]).0;
      RunCachesKnownKeys(users, t, keys[1..]);
      RunKeepsEntries(users, t, keys[1..]);
    }
  }

  /** A key the backing table does not know is never cached, so every
      request for it calls the service again. */
  lemma RetryAfterFailure(users: map<string, UserList>, s: ProxyState, country: string)
    requires country !in users && country !in s.cache
    ensures var t := Run(users, s, [country, country]);
      t.count == s.count + 2 && country !in t.cache
  {
    var t1 := GetUsersStep(users, s, country).0;
    var t2 := GetUsersStep(users, t1, country).0;
    assert [country, country][1..] == [country];
    assert [country][1..] == [];
    assert Run(users, s, [country, country]) == Run(users, t1, [country]);
    assert Run(users, t1, [country]) == Run(users, t2, []) == t2;
  }

  /** The demonstration: "us", "us", "en", "en" calls the service twice. */
  lemma DemoAccessCount()
    ensures Run(UsersTable(), InitialState(0), ["us", "us", "en", "en"]).count == 2
  {
    var users := UsersTable();
    var s0 := InitialState(0);
    var s1 := GetUsersStep(users, s0, "us").0;
    assert s1.cache.Keys == {"us"} && s1.count == 1;
    var s2 := GetUsersStep(users, s1, "us").0;
    assert s2 == s1;
    var s3 := GetUsersStep(users, s2, "en").0;
    assert "en" in s3.cache && s3.count == 2;
    var s4 := GetUsersStep(users, s3, "en").0;
    assert s4 == s3;
    assert Run(users, s0, ["us", "us", "en", "en"]) == Run(users, s1, ["us", "en", "en"]);
    assert Run(users, s1, ["us", "en", "en"]) == Run(users, s2, ["en", "en"]);
    assert Run(users, s2, ["en", "en"]) == Run(users, s3, ["en"]);
  }

  // -------------------------------------------------------------------
  // The objects
  // -------------------------------------------------------------------

  class UserServiceImpl {
    const users: map<string, UserList>
    var count: nat

    constructor ()
      ensures users == UsersTable() && count == 0
    {
      users := UsersTable();
      count := 0;
    }

    /** Counts every call, known key or not; a missing key yields null. */
    method GetUsers(country: string) returns (r: Option<UserList>)
      modifies this
      ensures count == old(count) + 1
      ensures r == if country in users then Some(users[country]) else None
    {
      count := count + 1;
      r := if country in users then Some(users[country]) else None;
    }

    method GetAccessCount() returns (n: nat)
      ensures n == count
    {
      n := count;
    }
  }

  class CachingUserServiceProxy {
    const userService: UserServiceImpl
    var cache: map<string, UserList>
    ghost var fetched: multiset<string>
    ghost const baseCount: nat

    ghost function State(): ProxyState
      reads this, userService
    {
      ProxyState(cache, userService.count, fetched)
    }

    /** Every cached list is the backing table's list for its key. */
    ghost predicate Valid()
      reads this, userService
    {
      forall k | k in cache :: k in userService.users && cache[k] == userService.users[k]
    }

    /** The call accounting of `CacheInvariant`, which holds while the proxy
        is the backing service's only client. */
    ghost predicate SoleClient()
      reads this, userService
    {
      CacheInvariant(userService.users, State(), baseCount)
    }

    constructor (service: UserServiceImpl)
      ensures userService == service && State() == InitialState(service.count)
      ensures Valid() && SoleClient()
    {
      userService := service;
      cache := map[];
      fetched := multiset{};
      baseCount := service.count;
    }

    /** Serves any request, whoever else has called the backing service. */
    method GetUsers(country: string) returns (r: Result<UserList>)
      modifies this, userService
      ensures (State(), r) == GetUsersStep(userService.users, old(State()), country)
      ensures old(Valid()) ==> Valid()
      ensures old(SoleClient()) ==> SoleClient()
    {
      ghost var before := State();
      if CacheInvariant(userService.users, before, baseCount) {
        GetUsersKeepsInvariant(userService.users, before, baseCount, country);
      }
      if country !in cache {
        var users := userService.GetUsers(country);
        fetched := fetched + multiset{country};
        if users.None? {
          return Err(NullPointer);
        }
        cache := cache[country := users.value];
      }
      r := Ok(cache[country]);
    }

    method GetAccessCount() returns (n: nat)
      ensures n == userService.count
    {
      n := userService.GetAccessCount();
    }
  }

  /** The demonstration program: two fetches each of "us" and "en". */
  method CacheingDemo() returns (results: seq<Result<UserList>>, accessCount: nat)
    ensures results == [Ok(["user1", "user2"]), Ok(["user1", "user2"]),
                        Ok(["user3", "user4", "user5"]), Ok(["user3", "user4", "user5"])]
    ensures accessCount == 2
  {
    var service := new UserServiceImpl();
    var proxy := new CachingUserServiceProxy(service);
    var r1 := proxy.GetUsers("us");
    var r2 := proxy.GetUsers("us");
    var r3 := proxy.GetUsers("en");
    var r4 := proxy.GetUsers("en");
    results := [r1, r2, r3, r4];
    accessCount := proxy.GetAccessCount();
  }

  /** The backing service may be shared: a direct call on it does not stop
      the proxy from serving, and the proxy's own miss is counted on top. */
  method SharedServiceStillServed() returns (r: Result<UserList>, accessCount: nat)
    ensures r == Ok(["user1", "user2"]) && accessCount == 2
  {
    var service := new UserServiceImpl();
    var proxy := new CachingUserServiceProxy(service);
    var direct := service.GetUsers("en");
    r := proxy.GetUsers("us");
    accessCount := proxy.GetAccessCount();
  }
}
