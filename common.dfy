/** Shared vocabulary of the model: Java's nullable references and thrown
    exceptions as datatypes, `List.remove(Object)` on sequences, ASCII case
    folding for `toLowerCase`/`toUpperCase`/`equalsIgnoreCase`, and Java's
    32-bit `int` arithmetic. */
module Common {

  /** A Java reference that may be null: `None` is null. */
  datatype Option<+T> = None | Some(value: T)

  /** The outcome of a Java call that either returns or throws. */
  datatype Result<+T> = Ok(value: T) | Err(message: string)

  // ---------------------------------------------------------------------
  // java.util.List.remove(Object): removes the first occurrence, if any.
  // ---------------------------------------------------------------------

  function RemoveFirst<T(==)>(s: seq<T>, x: T): seq<T>
  {
    if s == [] then []
    else if s[0] == x then s[1..]
    else [s[0]] + RemoveFirst(s[1..], x)
  }

  /** Index of the first occurrence of `x` in `s`. */
  function FirstIndex<T(==)>(s: seq<T>, x: T): (i: nat)
    requires x in s
    ensures i < |s| && s[i] == x && x !in s[..i]
  {
    if s[0] == x then 0
    else
      assert x in s[1..];
      var j := FirstIndex(s[1..], x);
      assert s[..j + 1] == [s[0]] + s[1..][..j];
      j + 1
  }

  /** Removing an element that is absent leaves the list unchanged. */
  lemma {:induction false} RemoveFirstAbsent<T>(s: seq<T>, x: T)
    requires x !in s
    ensures RemoveFirst(s, x) == s
  {
    if s != [] {
      assert x !in s[1..];
      RemoveFirstAbsent(s[1..], x);
    }
  }

  /** Removing a present element cuts out exactly its first occurrence and
      keeps every other element, in order. */
  lemma {:induction false} RemoveFirstPresent<T>(s: seq<T>, x: T)
    requires x in s
    ensures RemoveFirst(s, x) == s[..FirstIndex(s, x)] + s[FirstIndex(s, x) + 1..]
    ensures |RemoveFirst(s, x)| == |s| - 1
  {
    if s[0] != x {
      assert x in s[1..];
      RemoveFirstPresent(s[1..], x);
      var j := FirstIndex(s[1..], x);
      assert s[1..][..j] == s[1..j + 1];
      assert s[1..][j + 1..] == s[j + 2..];
      assert [s[0]] + s[1..j + 1] == s[..j + 1];
    }
  }

  /** As a bag, removal takes away exactly one copy of a present element,
      and nothing otherwise. */
  lemma RemoveFirstMultiset<T>(s: seq<T>, x: T)
    ensures multiset(RemoveFirst(s, x)) == multiset(s) - multiset{x}
  {
    RemoveFirstAddsBack(s, x);
    var m, r := multiset(s), multiset(RemoveFirst(s, x));
    forall y
      ensures r[y] == (m - multiset{x})[y]
    {
      if y == x && x !in s {
        assert m[y] == 0;
      }
    }
  }

  /** Removal, then putting back what was removed, gives the same bag. */
  lemma {:induction false} RemoveFirstAddsBack<T>(s: seq<T>, x: T)
    ensures multiset(s) == multiset(RemoveFirst(s, x)) + (if x in s then multiset{x} else multiset{})
  {
    if s != [] {
      RemoveFirstAddsBack(s[1..], x);
      assert s == [s[0]] + s[1..];
      if s[0] != x {
        assert RemoveFirst(s, x) == [s[0]] + RemoveFirst(s[1..], x);
        assert x in s <==> x in s[1..];
      }
    }
  }

  /** Adding an element that was absent and then removing it restores the
      list. */
  lemma {:induction false} RemoveFirstUndoesAppend<T>(s: seq<T>, x: T)
    requires x !in s
    ensures RemoveFirst(s + [x], x) == s
  {
    if s != [] {
      assert (s + [x])[0] == s[0] && (s + [x])[1..] == s[1..] + [x];
      RemoveFirstUndoesAppend(s[1..], x);
    } else {
      assert s + [x] == [x];
    }
  }

  /** Removing an element registered once leaves none of it, and the same
      number of copies of everything else. */
  lemma RemoveFirstOnce<T>(s: seq<T>, x: T)
    requires multiset(s)[x] == 1
    ensures x !in RemoveFirst(s, x)
    ensures forall y | y != x :: multiset(RemoveFirst(s, x))[y] == multiset(s)[y]
  {
    RemoveFirstMultiset(s, x);
  }

  /** Number of occurrences of `x` in `s`. */
  function Count<T(==)>(s: seq<T>, x: T): nat
  {
    multiset(s)[x]
  }

  // ---------------------------------------------------------------------
  // ASCII case folding (the model's stand-in for Java's locale-dependent
  // String.toLowerCase / toUpperCase / equalsIgnoreCase).
  // ---------------------------------------------------------------------

  function LowerChar(c: char): char
  {
    if 'A' <= c <= 'Z' then (c as int + 32) as char else c
  }

  function UpperChar(c: char): char
  {
    if 'a' <= c <= 'z' then (c as int - 32) as char else c
  }

  function ToLower(s: string): (r: string)
    ensures |r| == |s|
  {
    seq(|s|, i requires 0 <= i < |s| => LowerChar(s[i]))
  }

  function ToUpper(s: string): (r: string)
    ensures |r| == |s|
  {
    seq(|s|, i requires 0 <= i < |s| => UpperChar(s[i]))
  }

  /** `a.equalsIgnoreCase(b)` with a non-null receiver `a`; a null argument
      never matches. */
  predicate EqualsIgnoreCase(a: string, b: Option<string>)
  {
    b.Some? && ToLower(a) == ToLower(b.value)
  }

  // ---------------------------------------------------------------------
  // Java `int`: 32-bit two's complement.
  // ---------------------------------------------------------------------

  const TwoTo31: int := 0x8000_0000
  const TwoTo32: int := 0x1_0000_0000

  type Int32 = x: int | -TwoTo31 <= x < TwoTo31

  /** The Java `int` holding the low 32 bits of `x` (what `+` and `*` on
      `int` produce when the exact result does not fit). */
  function Wrap32(x: int): (r: Int32)
    ensures (r - x) % TwoTo32 == 0
    ensures -TwoTo31 <= x < TwoTo31 ==> r == x
  {
    var m := x % TwoTo32;
    if m >= TwoTo31 then m - TwoTo32 else m
  }

  /** Wrapping an intermediate sum does not change the final wrapped sum:
      Java's running `int` total equals the wrapped exact total. */
  lemma Wrap32Add(a: int, b: int)
    ensures Wrap32(Wrap32(a) + b) == Wrap32(a + b)
  {
    var d := Wrap32(a) - a;
    assert d % TwoTo32 == 0;
    var k := d / TwoTo32;
    assert Wrap32(a) + b == (a + b) + k * TwoTo32;
    ModuloShift(a + b, k);
  }

  lemma ModuloShift(x: int, k: int)
    ensures Wrap32(x + k * TwoTo32) == Wrap32(x)
  {
    assert (x + k * TwoTo32) % TwoTo32 == x % TwoTo32;
  }
}
