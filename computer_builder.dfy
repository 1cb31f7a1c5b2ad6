/** The computer builder: a builder fixes the mandatory CPU and RAM when it
    is made, its two setters overwrite the optional storage and graphics
    card and hand back the same builder, and `build` copies the four fields
    into a new, immutable `Computer`. A Java null string is `None`. */
module ComputerBuild {
  import opened Common

  /** A built computer. Its fields are private and never reassigned after
      construction, so a computer is a value. */
  datatype Computer = Computer(cpu: Option<string>, ram: Option<string>,
                               storage: Option<string>, graphicsCard: Option<string>)

  /** How string concatenation renders a field: null prints as "null". */
  function Show(s: Option<string>): string
  {
    match s
    case None => "null"
    case Some(v) => v
  }

  /** `Computer.toString`: the four fields, labelled, in declaration order,
      between "Computer [" and "]". */
  function ToString(c: Computer): (r: string)
    ensures |r| == |"Computer [CPU=, RAM=, Storage=, GraphicsCard=]"|
                   + |Show(c.cpu)| + |Show(c.ram)| + |Show(c.storage)| + |Show(c.graphicsCard)|
    ensures r[..|"Computer [CPU="|] == "Computer [CPU="
    ensures r[|r| - 1] == ']'
  {
    "Computer [CPU=" + Show(c.cpu) + ", RAM=" + Show(c.ram) + ", Storage=" + Show(c.storage)
      + ", GraphicsCard=" + Show(c.graphicsCard) + "]"
  }

  /** The line the demonstration prints for the gaming PC, every field
      filled in. */
  lemma GamingRendering()
    ensures ToString(Computer(Some("Intel i9"), Some("32GB"), Some("1TB SSD"), Some("NVIDIA RTX 3090")))
         == "Computer [CPU=Intel i9, RAM=32GB, Storage=1TB SSD, GraphicsCard=NVIDIA RTX 3090]"
  {
    var s1 := "Computer [CPU=" + "Intel i9";
    assert s1 == "Computer [CPU=Intel i9";
    var s2 := s1 + ", RAM=" + "32GB";
    assert s2 == "Computer [CPU=Intel i9, RAM=32GB";
    var s3 := s2 + ", Storage=" + "1TB SSD";
    assert s3 == "Computer [CPU=Intel i9, RAM=32GB, Storage=1TB SSD";
    var s4 := s3 + ", GraphicsCard=" + "NVIDIA RTX 3090";
    assert s4 == "Computer [CPU=Intel i9, RAM=32GB, Storage=1TB SSD, GraphicsCard=NVIDIA RTX 3090";
  }

  /** The line the demonstration prints for the office PC, whose optional
      fields stay null. */
  lemma OfficeRendering()
    ensures ToString(Computer(Some("Intel i5"), Some("16GB"), None, None))
         == "Computer [CPU=Intel i5, RAM=16GB, Storage=null, GraphicsCard=null]"
  {
    var s1 := "Computer [CPU=" + "Intel i5";
    assert s1 == "Computer [CPU=Intel i5";
    var s2 := s1 + ", RAM=" + "16GB";
    assert s2 == "Computer [CPU=Intel i5, RAM=16GB";
    var s3 := s2 + ", Storage=" + "null";
    assert s3 == "Computer [CPU=Intel i5, RAM=16GB, Storage=null";
    var s4 := s3 + ", GraphicsCard=" + "null";
    assert s4 == "Computer [CPU=Intel i5, RAM=16GB, Storage=null, GraphicsCard=null";
  }

  // -------------------------------------------------------------------
  // The builder's fields as a value, and sequences of setter calls
  // -------------------------------------------------------------------

  datatype BuilderFields = BuilderFields(cpu: Option<string>, ram: Option<string>,
                                         storage: Option<string>, graphicsCard: Option<string>)

  /** One chained setter call. */
  datatype Setter = SetStorage(storage: Option<string>) | SetGraphicsCard(graphicsCard: Option<string>)

  function Apply(f: BuilderFields, s: Setter): BuilderFields
  {
    match s
    case SetStorage(v) => f.(storage := v)
    case SetGraphicsCard(v) => f.(graphicsCard := v)
  }

  /** A chain of setter calls, first call first. */
  function Configure(f: BuilderFields, setters: seq<Setter>): BuilderFields
    decreases |setters|
  {
    if setters == [] then f else Configure(Apply(f, setters[0]), setters[1..])
  }

  /** The argument of the last storage call in `setters`, or `d` if there is
      none. */
  function LastStorage(setters: seq<Setter>, d: Option<string>): Option<string>
  {
    if setters == [] then d
    else if setters[|setters| - 1].SetStorage? then setters[|setters| - 1].storage
    else LastStorage(setters[..|setters| - 1], d)
  }

  /** The argument of the last graphics-card call in `setters`, or `d`. */
  function LastGraphicsCard(setters: seq<Setter>, d: Option<string>): Option<string>
  {
    if setters == [] then d
    else if setters[|setters| - 1].SetGraphicsCard? then setters[|setters| - 1].graphicsCard
    else LastGraphicsCard(setters[..|setters| - 1], d)
  }

  /** One more call at the end of a chain applies last. */
  lemma {:induction false} ConfigureSnoc(f: BuilderFields, setters: seq<Setter>, s: Setter)
    ensures Configure(f, setters + [s]) == Apply(Configure(f, setters), s)
    decreases |setters|
  {
    if setters != [] {
      assert (setters + [s])[1..] == setters[1..] + [s];
      ConfigureSnoc(Apply(f, setters[0]), setters[1..], s);
    }
  }

  /** Setters overwrite: after any chain of calls each optional field holds
      the argument of the last call that set it (its old value if none did),
      and the mandatory fields are untouched. */
  lemma {:induction false} LastSetterWins(f: BuilderFields, setters: seq<Setter>)
    ensures Configure(f, setters).cpu == f.cpu && Configure(f, setters).ram == f.ram
    ensures Configure(f, setters).storage == LastStorage(setters, f.storage)
    ensures Configure(f, setters).graphicsCard == LastGraphicsCard(setters, f.graphicsCard)
    decreases |setters|
  {
    if setters != [] {
      var init := setters[..|setters| - 1];
      LastSetterWins(f, init);
      ConfigureSnoc(f, init, setters[|setters| - 1]);
      assert init + [setters[|setters| - 1]] == setters;
    }
  }

  // -------------------------------------------------------------------
  // The objects
  // -------------------------------------------------------------------

  /** `Computer.ComputerBuilder`. */
  class ComputerBuilder {
    const cpu: Option<string>
    const ram: Option<string>
    var storage: Option<string>
    var graphicsCard: Option<string>

    function Fields(): BuilderFields
      reads this
    {
      BuilderFields(cpu, ram, storage, graphicsCard)
    }

    /** The mandatory fields are fixed here; the optional ones start null. */
    constructor (cpu: Option<string>, ram: Option<string>)
      ensures Fields() == BuilderFields(cpu, ram, None, None)
    {
      this.cpu := cpu;
      this.ram := ram;
      storage := None;
      graphicsCard := None;
    }

    method Storage(storage: Option<string>) returns (b: ComputerBuilder)
      modifies this
      ensures b == this
      ensures Fields() == Apply(old(Fields()), SetStorage(storage))
    {
      this.storage := storage;
      b := this;
    }

    method GraphicsCard(graphicsCard: Option<string>) returns (b: ComputerBuilder)
      modifies this
      ensures b == this
      ensures Fields() == Apply(old(Fields()), SetGraphicsCard(graphicsCard))
    {
      this.graphicsCard := graphicsCard;
      b := this;
    }

    /** The computer holds the builder's four fields as they are now. */
    method Build() returns (c: Computer)
      ensures c.cpu == cpu && c.ram == ram && c.storage == storage && c.graphicsCard == graphicsCard
    {
      c := Computer(cpu, ram, storage, graphicsCard);
    }
  }

  /** Applies a chain of setter calls to a builder. */
  method ConfigureBuilder(builder: ComputerBuilder, setters: seq<Setter>)
    modifies builder
    ensures builder.Fields() == Configure(old(builder.Fields()), setters)
  {
    for i := 0 to |setters|
      invariant builder.Fields() == Configure(old(builder.Fields()), setters[..i])
    {
      ConfigureSnoc(old(builder.Fields()), setters[..i], setters[i]);
      assert setters[..i + 1] == setters[..i] + [setters[i]];
      var b;
      match setters[i] {
        case SetStorage(v) => b := builder.Storage(v);
        case SetGraphicsCard(v) => b := builder.GraphicsCard(v);
      }
    }
    assert setters[..|setters|] == setters;
  }

  /** A built computer is a copy: setting the builder's fields again
      afterwards leaves it as it was, while the next build sees the change. */
  method BuildIsACopy() returns (first: Computer, second: Computer)
    ensures first.storage == Some("1TB SSD")
    ensures second.storage == Some("2TB HDD")
    ensures first.cpu == second.cpu && first.ram == second.ram
  {
    var builder := new ComputerBuilder(Some("Intel i9"), Some("32GB"));
    var b := builder.Storage(Some("1TB SSD"));
    first := builder.Build();
    b := builder.Storage(Some("2TB HDD"));
    second := builder.Build();
  }

  /** The demonstration program: a fully configured gaming PC and an office
      PC whose optional fields stay null. */
  method ComputerBuilderDemo() returns (gamingPC: Computer, officePC: Computer)
    ensures gamingPC == Computer(Some("Intel i9"), Some("32GB"), Some("1TB SSD"), Some("NVIDIA RTX 3090"))
    ensures officePC == Computer(Some("Intel i5"), Some("16GB"), None, None)
  {
    var gamingBuilder := new ComputerBuilder(Some("Intel i9"), Some("32GB"));
    var b := gamingBuilder.Storage(Some("1TB SSD"));
    b := b.GraphicsCard(Some("NVIDIA RTX 3090"));
    gamingPC := b.Build();
    var officeBuilder := new ComputerBuilder(Some("Intel i5"), Some("16GB"));
    officePC := officeBuilder.Build();
  }
}
