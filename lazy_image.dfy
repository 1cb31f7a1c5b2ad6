/** The lazily loading image proxy: constructing the proxy records only the
    file name; the first `display` loads the real image (the load is
    printed by the real image's constructor) and every `display` shows it.

    The printed lines are the model's output: a sequence of `Event`s. */
module LazyLoadingImage {

  datatype Event = Loading(filename: string) | Displaying(filename: string)

  /** Loading happens in the constructor. */
  class RealImage {
    const filename: string

    constructor (filename: string)
      ensures this.filename == filename
    {
      this.filename := filename;
    }

    method Display() returns (e: Event)
      ensures e == Displaying(filename)
    {
      e := Displaying(filename);
    }
  }

  /** The lines printed by `n` calls of `display` on a proxy, given whether
      the real image is already loaded. */
  function DisplayEvents(filename: string, loaded: bool, n: nat): seq<Event>
    decreases n
  {
    if n == 0 then []
    else
      (if loaded then [] else [Loading(filename)])
      + [Displaying(filename)] + DisplayEvents(filename, true, n - 1)
  }

  /** Once loaded, a proxy only displays. */
  lemma {:induction false} LoadedOnlyDisplays(filename: string, n: nat)
    ensures DisplayEvents(filename, true, n) == seq(n, _ => Displaying(filename))
  {
    if n > 0 {
      LoadedOnlyDisplays(filename, n - 1);
      assert [Displaying(filename)] + seq(n - 1, _ => Displaying(filename))
          == seq(n, _ => Displaying(filename));
    }
  }

  /** From a new proxy, n >= 1 calls load the image exactly once, first, and
      display it n times. */
  lemma LoadsOnce(filename: string, n: nat)
    requires n >= 1
    ensures DisplayEvents(filename, false, n)
         == [Loading(filename)] + seq(n, _ => Displaying(filename))
  {
    LoadedOnlyDisplays(filename, n - 1);
    assert [Displaying(filename)] + seq(n - 1, _ => Displaying(filename))
        == seq(n, _ => Displaying(filename));
  }

  class ProxyImage {
    const filename: string
    var realImage: RealImage?

    ghost predicate Valid()
      reads this
    {
      realImage != null ==> realImage.filename == filename
    }

    /** Construction loads nothing. */
    constructor (filename: string)
      ensures this.filename == filename && realImage == null && Valid()
    {
      this.filename := filename;
      realImage := null;
    }

    method Display() returns (events: seq<Event>)
      requires Valid()
      modifies this
      ensures Valid() && realImage != null
      ensures old(realImage) == null ==> fresh(realImage)
      ensures old(realImage) != null ==> realImage == old(realImage)
      ensures events == DisplayEvents(filename, old(realImage) != null, 1)
    {
      events := [];
      if realImage == null {
        realImage := new RealImage(filename);
        events := [Loading(filename)];
      }
      var e := realImage.Display();
      events := events + [e];
    }
  }

  /** `n` calls of `display` on a new proxy. */
  method DisplayRepeatedly(filename: string, n: nat) returns (events: seq<Event>)
    ensures n >= 1 ==> events == [Loading(filename)] + seq(n, _ => Displaying(filename))
    ensures n == 0 ==> events == []
  {
    var image := new ProxyImage(filename);
    events := [];
    for i := 0 to n
      invariant image.Valid()
      invariant image.realImage != null <==> i > 0
      invariant events + DisplayEvents(filename, i > 0, n - i) == DisplayEvents(filename, false, n)
    {
      var e := image.Display();
      assert DisplayEvents(filename, i > 0, n - i) == e + DisplayEvents(filename, true, n - i - 1);
      events := events + e;
    }
    if n >= 1 {
      LoadsOnce(filename, n);
    }
  }

  /** The demonstration: two calls on "example.jpg". */
  method LazyLoadingImageDemo() returns (events: seq<Event>)
    ensures events == [Loading("example.jpg"), Displaying("example.jpg"), Displaying("example.jpg")]
  {
    events := DisplayRepeatedly("example.jpg", 2);
    assert seq(2, _ => Displaying("example.jpg")) == [Displaying("example.jpg"), Displaying("example.jpg")];
  }
}
