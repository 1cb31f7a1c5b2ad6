/** The bounded list with a bidirectional cursor: `CustomList` keeps its
    elements in a fixed-capacity array and a fill count; its iterator keeps
    an index into the filled part and can move both ways. A step past either
    end fails (the source throws) and leaves the index where it was. */
module BidirectionalIteration {
  import opened Common

  const NoSuchElement: string := "NoSuchElementException"

  /** The cursor's forward step over `contents`: the element at the index,
      then the index moves on. */
  function NextStep<T>(contents: seq<T>, index: nat): (nat, Result<T>)
  {
    if index < |contents| then (index + 1, Ok(contents[index]))
    else (index, Err(NoSuchElement))
  }

  /** The cursor's backward step: the index moves back, then the element at
      the new index. The index never passes the fill count, which only
      grows. */
  function PreviousStep<T>(contents: seq<T>, index: nat): (nat, Result<T>)
    requires index <= |contents|
  {
    if index > 0 then (index - 1, Ok(contents[index - 1]))
    else (index, Err(NoSuchElement))
  }

  /** The elements of `s`, last first. */
  function Reverse<T>(s: seq<T>): (r: seq<T>)
    ensures |r| == |s|
    ensures forall k | 0 <= k < |s| :: r[k] == s[|s| - 1 - k]
  {
    if s == [] then [] else Reverse(s[1..]) + [s[0]]
  }

  /** A forward step that succeeds is undone by a backward step, which
      returns the same element. */
  lemma NextThenPrevious<T>(contents: seq<T>, index: nat)
    requires index < |contents|
    ensures var (i, r) := NextStep(contents, index);
      i <= |contents| && PreviousStep(contents, i) == (index, r) && r == Ok(contents[index])
  {
  }

  /** A backward step that succeeds is undone by a forward step. */
  lemma PreviousThenNext<T>(contents: seq<T>, index: nat)
    requires 0 < index <= |contents|
    ensures var (i, r) := PreviousStep(contents, index);
      NextStep(contents, i) == (index, r) && r == Ok(contents[index - 1])
  {
  }

  class CustomList<T(0)> {
    var items: array<T>
    var size: nat

    /** 0 <= size <= capacity. */
    ghost predicate Valid()
      reads this
    {
      size <= items.Length
    }

    /** The elements added so far, in insertion order. */
    ghost function Contents(): seq<T>
      reads this, items
      requires Valid()
    {
      items[..size]
    }

    constructor (capacity: nat)
      ensures Valid() && fresh(items) && items.Length == capacity && Contents() == []
    {
      items := new T[capacity];
      size := 0;
    }

    /** Stores the item at index `size` while there is room; on a full list
        the call does nothing. */
    method Add(item: T)
      requires Valid()
      modifies this, items
      ensures Valid() && items == old(items)
      ensures old(size) < items.Length ==> Contents() == old(Contents()) + [item]
      ensures old(size) >= items.Length ==> Contents() == old(Contents()) && unchanged(items)
    {
      if size < items.Length {
        items[size] := item;
        size := size + 1;
      }
    }

    method GetIterator() returns (it: CustomListIterator<T>)
      ensures fresh(it) && it.list == this && it.currentIndex == 0
    {
      it := new CustomListIterator(this);
    }
  }

  class CustomListIterator<T(0)> {
    const list: CustomList<T>
    var currentIndex: nat

    constructor (list: CustomList<T>)
      ensures this.list == list && currentIndex == 0
    {
      this.list := list;
      currentIndex := 0;
    }

    method HasNext() returns (b: bool)
      ensures b <==> currentIndex < list.size
    {
      b := currentIndex < list.size;
    }

    method HasPrevious() returns (b: bool)
      ensures b <==> currentIndex > 0
    {
      b := currentIndex > 0;
    }

    method Next() returns (r: Result<T>)
      requires list.Valid()
      modifies this
      ensures (currentIndex, r) == NextStep(list.Contents(), old(currentIndex))
    {
      var more := HasNext();
      if !more {
        return Err(NoSuchElement);
      }
      r := Ok(list.items[currentIndex]);
      currentIndex := currentIndex + 1;
    }

    method Previous() returns (r: Result<T>)
      requires list.Valid() && currentIndex <= list.size
      modifies this
      ensures (currentIndex, r) == PreviousStep(list.Contents(), old(currentIndex))
    {
      var back := HasPrevious();
      if !back {
        return Err(NoSuchElement);
      }
      currentIndex := currentIndex - 1;
      r := Ok(list.items[currentIndex]);
    }
  }

  /** The client's two loops on a new iterator: forward while `hasNext`,
      then backward while `hasPrevious`. The forward pass yields the
      elements in insertion order and the backward pass yields them
      reversed. */
  method Traverse<T(0)>(list: CustomList<T>) returns (forward: seq<T>, backward: seq<T>)
    requires list.Valid()
    ensures forward == list.Contents()
    ensures backward == Reverse(list.Contents())
  {
    var cursor := list.GetIterator();
    forward := [];
    var more := cursor.HasNext();
    while more
      invariant cursor.currentIndex <= list.size
      invariant forward == list.Contents()[..cursor.currentIndex]
      invariant more <==> cursor.currentIndex < list.size
      decreases list.size - cursor.currentIndex
    {
      var r := cursor.Next();
      forward := forward + [r.value];
      more := cursor.HasNext();
    }
    assert forward == list.Contents();
    backward := [];
    var back := cursor.HasPrevious();
    while back
      invariant cursor.currentIndex <= list.size
      invariant backward == Reverse(list.Contents()[cursor.currentIndex..])
      invariant back <==> cursor.currentIndex > 0
      decreases cursor.currentIndex
    {
      ghost var i := cursor.currentIndex;
      var r := cursor.Previous();
      assert list.Contents()[i - 1..][1..] == list.Contents()[i..];
      backward := backward + [r.value];
      back := cursor.HasPrevious();
    }
    assert list.Contents()[0..] == list.Contents();
  }

  /** The demonstration's backward order. */
  lemma DemoReverse()
    ensures Reverse(["A", "B", "C"]) == ["C", "B", "A"]
  {
    var r := Reverse(["A", "B", "C"]);
    assert r[0] == "C" && r[1] == "B" && r[2] == "A";
  }

  /** The demonstration: "A", "B", "C" into a list of capacity 5. */
  method BiDirectionalIteratorDemo() returns (forward: seq<string>, backward: seq<string>)
    ensures forward == ["A", "B", "C"]
    ensures backward == ["C", "B", "A"]
  {
    var list := new CustomList<string>(5);
    list.Add("A");
    list.Add("B");
    list.Add("C");
    forward, backward := Traverse(list);
    assert list.Contents() == ["A", "B", "C"];
    DemoReverse();
  }
}
