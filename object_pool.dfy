/** The simple generic object pool: a FIFO list of plain objects, seeded
    with `PoolSize` objects, that hands out its front element or, when empty,
    a brand-new object. Objects are Dafny objects so that identity (and
    freshness) is the source's reference identity. */
module SimpleObjectPool {

  const PoolSize: nat := 2

  /** A `java.lang.Object`: nothing but its identity. */
  class PooledObject {
    constructor ()
    {
    }
  }

  /** The static `ObjectPool`, made an explicit object. */
  class ObjectPool {
    var pool: seq<PooledObject>

    /** The static initialiser: `PoolSize` distinct new objects. */
    constructor ()
      ensures |pool| == PoolSize
      ensures forall i, j | 0 <= i < j < |pool| :: pool[i] != pool[j]
      ensures forall o | o in pool :: fresh(o)
    {
      var objects: seq<PooledObject> := [];
      for i := 0 to PoolSize
        invariant |objects| == i
        invariant forall o | o in objects :: fresh(o)
        invariant forall k, l | 0 <= k < l < |objects| :: objects[k] != objects[l]
      {
        var o := new PooledObject();
        objects := objects + [o];
      }
      pool := objects;
    }

    /** The front object if there is one (FIFO), otherwise a new object; the
        call never fails and never grows the pool. */
    method GetObject() returns (obj: PooledObject)
      modifies this
      ensures old(pool) != [] ==> obj == old(pool)[0] && pool == old(pool)[1..]
      ensures old(pool) == [] ==> fresh(obj) && pool == []
    {
      if |pool| > 0 {
        obj := pool[0];
        pool := pool[1..];
      } else {
        obj := new PooledObject();
      }
    }

    /** Appends unconditionally: no bound and no membership check. */
    method ReleaseObject(obj: PooledObject)
      modifies this
      ensures pool == old(pool) + [obj]
    {
      pool := pool + [obj];
    }
  }

  /** The demonstration program: the two seeded objects are taken, released
      in order, and taken again in the same order. */
  method SimpleGenericObjectDemo()
    returns (obj1: PooledObject, obj2: PooledObject, obj3: PooledObject, obj4: PooledObject)
    ensures obj1 != obj2
    ensures obj3 == obj1 && obj4 == obj2
  {
    var objectPool := new ObjectPool();
    obj1 := objectPool.GetObject();
    obj2 := objectPool.GetObject();
    objectPool.ReleaseObject(obj1);
    objectPool.ReleaseObject(obj2);
    obj3 := objectPool.GetObject();
    obj4 := objectPool.GetObject();
  }

  /** FIFO over any number of releases: objects released into an empty pool
      come back out in the order they went in. */
  method ReleaseAllThenTakeAll(objectPool: ObjectPool, objects: seq<PooledObject>)
    returns (taken: seq<PooledObject>)
    requires objectPool.pool == []
    modifies objectPool
    ensures taken == objects && objectPool.pool == []
  {
    for i := 0 to |objects|
      invariant objectPool.pool == objects[..i]
    {
      objectPool.ReleaseObject(objects[i]);
      assert objects[..i + 1] == objects[..i] + [objects[i]];
    }
    taken := [];
    while |taken| < |objects|
      invariant |taken| <= |objects|
      invariant taken == objects[..|taken|]
      invariant objectPool.pool == objects[|taken|..]
    {
      var o := objectPool.GetObject();
      taken := taken + [o];
    }
  }
}
