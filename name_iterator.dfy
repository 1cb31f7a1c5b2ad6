/** The name repository and its iterator: a fixed array of names and a
    cursor that hands them out in order. Past the end, `next` yields null
    and the cursor stays put. */
module NameIteration {
  import opened Common

  const Names: seq<string> := ["Robert", "John", "Julie", "Lora"]

  /** The cursor's step over `names`: null once the names are used up. */
  function NextStep(names: seq<string>, index: nat): (nat, Option<string>)
  {
    if index < |names| then (index + 1, Some(names[index])) else (index, None)
  }

  /** Taking `k` steps from the start hands out the first `k` names and
      leaves the cursor at `k`, for every `k` up to the number of names; any
      further step yields null. */
  function Steps(names: seq<string>, k: nat): (nat, seq<Option<string>>)
  {
    if k == 0 then (0, [])
    else
      var (i, out) := Steps(names, k - 1);
      var (j, r) := NextStep(names, i);
      (j, out + [r])
  }

  lemma {:induction false} StepsHandOutInOrder(names: seq<string>, k: nat)
    ensures var (i, out) := Steps(names, k);
      && i == (if k <= |names| then k else |names|)
      && |out| == k
      && (forall j | 0 <= j < k :: out[j] == if j < |names| then Some(names[j]) else None)
  {
    if k > 0 {
      StepsHandOutInOrder(names, k - 1);
    }
  }

  class NameRepository {
    const names: seq<string>

    constructor ()
      ensures names == Names
    {
      names := Names;
    }

    /** Every call starts a new cursor at the first name. */
    method GetIterator() returns (it: NameIterator)
      ensures fresh(it) && it.repository == this && it.index == 0
    {
      it := new NameIterator(this);
    }
  }

  class NameIterator {
    const repository: NameRepository
    var index: nat

    constructor (repository: NameRepository)
      ensures this.repository == repository && index == 0
    {
      this.repository := repository;
      index := 0;
    }

    method HasNext() returns (b: bool)
      ensures b <==> index < |repository.names|
    {
      b := index < |repository.names|;
    }

    method Next() returns (r: Option<string>)
      modifies this
      ensures (index, r) == NextStep(repository.names, old(index))
    {
      var more := HasNext();
      if more {
        r := Some(repository.names[index]);
        index := index + 1;
      } else {
        r := None;
      }
    }
  }

  /** The client loop on a new repository: one "Name : " line per name, in
      order, and then the loop stops. */
  method InternalIteratorDemo() returns (printed: seq<string>)
    ensures |printed| == |Names|
    ensures forall k | 0 <= k < |Names| :: printed[k] == "Name : " + Names[k]
  {
    var namesRepository := new NameRepository();
    var iter := namesRepository.GetIterator();
    printed := [];
    var more := iter.HasNext();
    while more
      invariant iter.index <= |Names|
      invariant |printed| == iter.index
      invariant forall k | 0 <= k < iter.index :: printed[k] == "Name : " + Names[k]
      invariant more <==> iter.index < |Names|
      decreases |Names| - iter.index
    {
      var name := iter.Next();
      printed := printed + ["Name : " + name.value];
      more := iter.HasNext();
    }
  }
}
