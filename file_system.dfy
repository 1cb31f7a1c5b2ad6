/** The composite file system: files and directories share one interface;
    a directory keeps an ordered list of components and lists itself, then
    each component in turn (pre-order).

    The directories are objects whose component lists are changed in place.
    Their listing is specified through an abstraction to a value tree,
    `Node`, on which the properties of the listing are proved. A directory
    may be added to any number of directories, but never into its own
    subtree (the listing of such a cycle would never end). */
module FileSystem {
  import opened Common

  // -------------------------------------------------------------------
  // The value view
  // -------------------------------------------------------------------

  datatype Node = FileNode(name: string, size: int) | DirNode(name: string, children: seq<Node>)

  datatype Line =
    | FileLine(name: string, size: int)   // "File: <name> [Size: <size>KB]"
    | DirectoryLine(name: string)         // "Directory: <name>"

  /** The lines `showDetails` prints for `n`. */
  function Listing(n: Node): seq<Line>
    decreases n, 1
  {
    match n
    case FileNode(name, size) => [FileLine(name, size)]
    case DirNode(name, children) => [DirectoryLine(name)] + ListingAll(children)
  }

  /** The children's listings, in order. */
  function ListingAll(ns: seq<Node>): seq<Line>
    decreases ns, 0
  {
    if ns == [] then [] else ListingAll(ns[..|ns| - 1]) + Listing(ns[|ns| - 1])
  }

  /** Number of files and directories in the tree. */
  function NodeCount(n: Node): nat
    decreases n, 1
  {
    match n
    case FileNode(_, _) => 1
    case DirNode(_, children) => 1 + NodeCountAll(children)
  }

  function NodeCountAll(ns: seq<Node>): nat
    decreases ns, 0
  {
    if ns == [] then 0 else NodeCountAll(ns[..|ns| - 1]) + NodeCount(ns[|ns| - 1])
  }

  /** Every file and every directory contributes exactly one line. */
  lemma {:induction false} LineCountIsNodeCount(n: Node)
    ensures |Listing(n)| == NodeCount(n)
    decreases n, 1
  {
    match n
    case FileNode(_, _) =>
    case DirNode(_, children) => LineCountIsNodeCountAll(children);
  }

  lemma {:induction false} LineCountIsNodeCountAll(ns: seq<Node>)
    ensures |ListingAll(ns)| == NodeCountAll(ns)
    decreases ns, 0
  {
    if ns != [] {
      LineCountIsNodeCountAll(ns[..|ns| - 1]);
      LineCountIsNodeCount(ns[|ns| - 1]);
    }
  }

  /** Pre-order: a node's own line comes first, followed by the listing of
      its first children and then that of a child added last. */
  lemma ListingIsPreOrder(name: string, children: seq<Node>, child: Node)
    ensures Listing(DirNode(name, children))[0] == DirectoryLine(name)
    ensures Listing(DirNode(name, children + [child]))
         == Listing(DirNode(name, children)) + Listing(child)
  {
    assert (children + [child])[..|children|] == children;
  }

  lemma ListingAllSnoc(ns: seq<Node>, n: Node)
    ensures ListingAll(ns + [n]) == ListingAll(ns) + Listing(n)
  {
    assert (ns + [n])[..|ns|] == ns;
  }

  /** Every line of a child's listing appears in its parent's listing. */
  lemma {:induction false} ChildLinesListed(ns: seq<Node>, i: nat)
    requires i < |ns|
    ensures multiset(Listing(ns[i])) <= multiset(ListingAll(ns))
  {
    if i < |ns| - 1 {
      ChildLinesListed(ns[..|ns| - 1], i);
    }
  }

  // -------------------------------------------------------------------
  // The objects
  // -------------------------------------------------------------------

  class File {
    const name: string
    const size: int

    constructor (name: string, size: int)
      ensures this.name == name && this.size == size
    {
      this.name := name;
      this.size := size;
    }

    method ShowDetails() returns (lines: seq<Line>)
      ensures lines == Listing(FileNode(name, size))
    {
      lines := [FileLine(name, size)];
    }
  }

  datatype Component = FileComponent(file: File) | DirectoryComponent(dir: Directory)

  /** Removal never introduces a component. */
  lemma RemoveFirstKeepsOthers(s: seq<Component>, x: Component)
    ensures forall c | c in RemoveFirst(s, x) :: c in s
  {
    RemoveFirstMultiset(s, x);
    forall c | c in RemoveFirst(s, x)
      ensures c in s
    {
      assert multiset(RemoveFirst(s, x))[c] > 0;
    }
  }

  class Directory {
    const name: string
    var components: seq<Component>
    ghost var Repr: set<object>

    /** Every sub-directory is valid, reachable only downwards, and does not
        contain this directory. */
    ghost predicate Valid()
      reads this, Repr
      decreases Repr
    {
      && this in Repr
      && forall c | c in components && c.DirectoryComponent? ::
           && c.dir in Repr && c.dir.Repr <= Repr && this !in c.dir.Repr
           && c.dir.Valid()
    }

    /** The value tree below this directory. */
    ghost function Tree(): Node
      reads this, Repr
      requires Valid()
      decreases Repr, 0
    {
      DirNode(name, TreesUpTo(|components|))
    }

    /** The trees of the first `i` components. */
    ghost function TreesUpTo(i: nat): (r: seq<Node>)
      reads this, Repr
      requires Valid() && i <= |components|
      ensures |r| == i
      decreases Repr, 0, i
    {
      if i == 0 then [] else TreesUpTo(i - 1) + [ComponentTree(i - 1)]
    }

    /** The tree of the `i`-th component. */
    ghost function ComponentTree(i: nat): Node
      reads this, Repr
      requires Valid() && i < |components|
      decreases Repr, 0, 0
    {
      assert components[i] in components;
      match components[i]
      case FileComponent(f) => FileNode(f.name, f.size)
      case DirectoryComponent(d) => d.Tree()
    }

    constructor (name: string)
      ensures this.name == name && components == [] && Valid() && Repr == {this}
    {
      this.name := name;
      components := [];
      Repr := {this};
    }

    /** Appends; the same component may be added more than once, and into
        any directory. The directory stays valid when the component is a
        file, or a valid directory whose subtree does not hold this one. */
    method AddComponent(component: Component)
      modifies this
      ensures components == old(components) + [component]
      ensures Repr == old(Repr) + (if component.DirectoryComponent? then component.dir.Repr else {})
      ensures old(Valid()) && (component.DirectoryComponent? ==>
                component.dir.Valid() && this !in component.dir.Repr)
              ==> Valid()
    {
      components := components + [component];
      if component.DirectoryComponent? {
        Repr := Repr + component.dir.Repr;
      }
    }

    /** `List.remove(Object)`: the first occurrence only, if any. */
    method RemoveComponent(component: Component)
      modifies this
      ensures components == RemoveFirst(old(components), component)
      ensures Repr == old(Repr)
      ensures old(Valid()) ==> Valid()
    {
      RemoveFirstKeepsOthers(components, component);
      components := RemoveFirst(components, component);
    }

    /** Brings the footprint up to date after sub-directories were added
        below a component already held here: with every child directory
        valid and not holding this one, the directory is valid again. */
    ghost method Refresh()
      requires forall c | c in components && c.DirectoryComponent? ::
        c.dir.Valid() && this !in c.dir.Repr
      modifies this
      ensures Valid() && components == old(components)
    {
      var r: set<object> := {this};
      for i := 0 to |components|
        invariant this in r
        invariant forall j | 0 <= j < i && components[j].DirectoryComponent? ::
          components[j].dir in r && components[j].dir.Repr <= r
      {
        if components[i].DirectoryComponent? {
          assert components[i] in components;
          r := r + components[i].dir.Repr;
        }
      }
      Repr := r;
      forall c | c in components && c.DirectoryComponent?
        ensures c.dir in Repr && c.dir.Repr <= Repr
      {
        var j :| 0 <= j < |components| && components[j] == c;
      }
    }

    /** Prints its own line, then each component's listing in order. */
    method ShowDetails() returns (lines: seq<Line>)
      requires Valid()
      ensures lines == Listing(Tree())
      decreases Repr, 2
    {
      var rest := ShowComponents();
      lines := [DirectoryLine(name)] + rest;
      ListingOfTree();
    }

    /** The loop over the components, each printing its own listing. */
    method ShowComponents() returns (lines: seq<Line>)
      requires Valid()
      ensures lines == ListingAll(TreesUpTo(|components|))
      decreases Repr, 0
    {
      lines := [];
      for i := 0 to |components|
        invariant Valid()
        invariant lines == ListingAll(TreesUpTo(i))
      {
        ListingStep(i);
        assert components[i] in components;
        var sub;
        match components[i] {
          case FileComponent(f) =>
            sub := f.ShowDetails();
          case DirectoryComponent(d) =>
            sub := d.ShowDetails();
        }
        lines := lines + sub;
      }
    }

    /** A directory's listing is its own line, then its components'. */
    lemma ListingOfTree()
      requires Valid()
      ensures Listing(Tree()) == [DirectoryLine(name)] + ListingAll(TreesUpTo(|components|))
    {
    }

    /** One more component extends the listing by that component's lines. */
    lemma ListingStep(i: nat)
      requires Valid() && i < |components|
      ensures ListingAll(TreesUpTo(i + 1)) == ListingAll(TreesUpTo(i)) + Listing(ComponentTree(i))
    {
      ListingAllSnoc(TreesUpTo(i), ComponentTree(i));
    }
  }

  /** The tree the demonstration builds. */
  function DemoTree(): Node
  {
    DirNode("Root", [
      DirNode("Documents", [FileNode("File1.txt", 10), FileNode("File2.txt", 20)]),
      DirNode("Music", [FileNode("Song1.mp3", 5000), FileNode("Song2.mp3", 7000)])])
  }

  /** The demonstration tree's listing. */
  lemma DemoListing()
    ensures Listing(DemoTree())
         == [DirectoryLine("Root"),
             DirectoryLine("Documents"), FileLine("File1.txt", 10), FileLine("File2.txt", 20),
             DirectoryLine("Music"), FileLine("Song1.mp3", 5000), FileLine("Song2.mp3", 7000)]
  {
    var docs := [FileNode("File1.txt", 10), FileNode("File2.txt", 20)];
    var music := [FileNode("Song1.mp3", 5000), FileNode("Song2.mp3", 7000)];
    var top := [DirNode("Documents", docs), DirNode("Music", music)];
    ListingAllSnoc([], docs[0]);
    ListingAllSnoc([docs[0]], docs[1]);
    assert [] + [docs[0]] == [docs[0]] && [docs[0]] + [docs[1]] == docs;
    ListingAllSnoc([], music[0]);
    ListingAllSnoc([music[0]], music[1]);
    assert [] + [music[0]] == [music[0]] && [music[0]] + [music[1]] == music;
    ListingAllSnoc([], top[0]);
    ListingAllSnoc([top[0]], top[1]);
    assert [] + [top[0]] == [top[0]] && [top[0]] + [top[1]] == top;
  }

  /** A new directory holding two files, in order. */
  method DirectoryOfTwoFiles(name: string, first: File, second: File) returns (dir: Directory)
    ensures fresh(dir) && dir.Valid() && dir.Repr == {dir}
    ensures dir.Tree() == DirNode(name, [FileNode(first.name, first.size), FileNode(second.name, second.size)])
  {
    dir := new Directory(name);
    dir.AddComponent(FileComponent(first));
    dir.AddComponent(FileComponent(second));
    assert dir.components == [FileComponent(first), FileComponent(second)];
    assert dir.TreesUpTo(1) == [FileNode(first.name, first.size)];
    assert dir.ComponentTree(1) == FileNode(second.name, second.size);
  }

  /** A new directory holding two directories, in order. */
  method DirectoryOfTwoDirectories(name: string, first: Directory, second: Directory) returns (dir: Directory)
    requires first.Valid() && second.Valid()
    ensures fresh(dir) && dir.Valid()
    ensures dir.Tree() == DirNode(name, [first.Tree(), second.Tree()])
  {
    dir := new Directory(name);
    dir.AddComponent(DirectoryComponent(first));
    dir.AddComponent(DirectoryComponent(second));
    assert dir.components == [DirectoryComponent(first), DirectoryComponent(second)];
    assert dir.TreesUpTo(1) == [first.Tree()];
    assert dir.ComponentTree(1) == second.Tree();
  }

  /** The demonstration's objects: the tree is built bottom-up. */
  method BuildDemoTree() returns (root: Directory)
    ensures root.Valid() && root.Tree() == DemoTree()
  {
    var file1 := new File("File1.txt", 10);
    var file2 := new File("File2.txt", 20);
    var dir1 := DirectoryOfTwoFiles("Documents", file1, file2);
    var song1 := new File("Song1.mp3", 5000);
    var song2 := new File("Song2.mp3", 7000);
    var dir2 := DirectoryOfTwoFiles("Music", song1, song2);
    root := DirectoryOfTwoDirectories("Root", dir1, dir2);
  }

  /** The demonstration program: the tree is listed from the root. */
  method FileSystemDemo() returns (lines: seq<Line>)
    ensures lines == [DirectoryLine("Root"),
                      DirectoryLine("Documents"), FileLine("File1.txt", 10), FileLine("File2.txt", 20),
                      DirectoryLine("Music"), FileLine("Song1.mp3", 5000), FileLine("Song2.mp3", 7000)]
  {
    var root := BuildDemoTree();
    lines := root.ShowDetails();
    DemoListing();
  }

  /** The tree of a root holding "Music", which holds "Live". */
  function GrownTree(): Node
  {
    DirNode("Root", [DirNode("Music", [DirNode("Live", [])])])
  }

  /** Its listing. */
  lemma GrownListing()
    ensures Listing(GrownTree()) == [DirectoryLine("Root"), DirectoryLine("Music"), DirectoryLine("Live")]
  {
    var liveNode := DirNode("Live", []);
    var musicNode := DirNode("Music", [liveNode]);
    ListingAllSnoc([], liveNode);
    ListingAllSnoc([], musicNode);
    assert [] + [liveNode] == [liveNode] && [] + [musicNode] == [musicNode];
  }

  /** A directory may grow after it was added to another: "Music" gains
      "Live" after joining "Root", and "Root", brought up to date, holds
      both. */
  method BuildGrownTree() returns (root: Directory)
    ensures root.Valid() && root.Tree() == GrownTree()
  {
    root := new Directory("Root");
    var music := new Directory("Music");
    var live := new Directory("Live");
    root.AddComponent(DirectoryComponent(music));
    music.AddComponent(DirectoryComponent(live));
    root.Refresh();
    assert music.ComponentTree(0) == DirNode("Live", []);
    assert music.TreesUpTo(1) == [DirNode("Live", [])];
    assert root.ComponentTree(0) == DirNode("Music", [DirNode("Live", [])]);
    assert root.TreesUpTo(1) == [DirNode("Music", [DirNode("Live", [])])];
  }

  /** The grown root lists the late sub-directory too. */
  method GrowAttachedDirectory() returns (lines: seq<Line>)
    ensures lines == [DirectoryLine("Root"), DirectoryLine("Music"), DirectoryLine("Live")]
  {
    var root := BuildGrownTree();
    lines := root.ShowDetails();
    GrownListing();
  }
}
