/** The weather station observer: displays register with the station, and
    every temperature set on the station is pushed to each registration in
    order; a display stores the value it was last sent and prints it. Java
    `float` temperatures are modelled as reals. */
module WeatherNotify {
  import opened Common

  datatype DisplayKind = Phone | TV | Tab

  /** "<kind> Display: Temperature updated - <t>" */
  datatype Line = Line(kind: DisplayKind, temperature: real)

  class Display {
    const kind: DisplayKind
    var temperature: real

    constructor (kind: DisplayKind)
      ensures this.kind == kind && temperature == 0.0
    {
      this.kind := kind;
      temperature := 0.0;
    }

    /** Stores the value, then prints it. */
    method Update(temperature: real) returns (line: Line)
      modifies this
      ensures this.temperature == temperature && line == Line(kind, temperature)
    {
      this.temperature := temperature;
      line := Line(kind, this.temperature);
    }
  }

  /** The lines printed by notifying `observers` of `t`: one per
      registration, in registration order. */
  function Broadcast(observers: seq<Display>, t: real): (lines: seq<Line>)
    ensures |lines| == |observers|
    ensures forall i | 0 <= i < |observers| :: lines[i] == Line(observers[i].kind, t)
  {
    if observers == [] then []
    else [Line(observers[0].kind, t)] + Broadcast(observers[1..], t)
  }

  class WeatherStation {
    var observers: seq<Display>
    var temperature: real

    constructor ()
      ensures observers == [] && temperature == 0.0
    {
      observers := [];
      temperature := 0.0;
    }

    /** Appends; a display may be registered more than once. */
    method AddObserver(o: Display)
      modifies this
      ensures observers == old(observers) + [o] && temperature == old(temperature)
    {
      observers := observers + [o];
    }

    /** `List.remove(Object)`: the first registration only, if any. */
    method RemoveObserver(o: Display)
      modifies this
      ensures observers == RemoveFirst(old(observers), o) && temperature == old(temperature)
    {
      observers := RemoveFirst(observers, o);
    }

    /** Stores the value, then notifies every registration in order with
        it: afterwards every registered display holds the new value. */
    method SetTemperature(t: real) returns (lines: seq<Line>)
      modifies this, set o | o in observers
      ensures observers == old(observers) && temperature == t
      ensures lines == Broadcast(observers, t)
      ensures forall o | o in observers :: o.temperature == t
    {
      temperature := t;
      lines := NotifyObservers();
    }

    method NotifyObservers() returns (lines: seq<Line>)
      modifies set o | o in observers
      ensures lines == Broadcast(observers, temperature)
      ensures forall o | o in observers :: o.temperature == temperature
    {
      lines := [];
      for i := 0 to |observers|
        invariant lines == Broadcast(observers[..i], temperature)
        invariant forall j | 0 <= j < i :: observers[j].temperature == temperature
      {
        var line := observers[i].Update(temperature);
        lines := lines + [line];
      }
      assert observers[..|observers|] == observers;
    }
  }

  /** The demonstration: three displays, two readings; all three print
      both readings and end holding the second. */
  method WeatherNotifyDemo() returns (first: seq<Line>, second: seq<Line>)
    ensures first == [Line(Phone, 25.5), Line(TV, 25.5), Line(Tab, 25.5)]
    ensures second == [Line(Phone, 30.0), Line(TV, 30.0), Line(Tab, 30.0)]
  {
    var weatherStation := new WeatherStation();
    var phoneDisplay := new Display(Phone);
    var tvDisplay := new Display(TV);
    var tabDisplay := new Display(Tab);
    weatherStation.AddObserver(phoneDisplay);
    weatherStation.AddObserver(tvDisplay);
    weatherStation.AddObserver(tabDisplay);
    first := weatherStation.SetTemperature(25.5);
    second := weatherStation.SetTemperature(30.0);
  }
}
