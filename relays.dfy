/**
 * The Waveshare four-relay board driven through GPIO pins. The relays are
 * active-low: driving a pin LOW closes its relay, HIGH opens it.
 *
 * The controller keeps the state it last commanded for each relay; it never
 * reads the hardware back. Whether the GPIO library could be imported is a
 * `Backend`: in simulation no pin is touched, and on hardware a write to a
 * pin may raise, which the model fixes per pin (`failing`). The GPIO calls
 * that go through are recorded in `events`, in order.
 */
module Relays {

  datatype Level = High | Low

  datatype Backend = Simulated | Hardware(failing: set<int>)

  /** A GPIO call: configuring a pin as an output at a level, driving it, or releasing all pins. */
  datatype Event = Setup(pin: int, level: Level) | Output(pin: int, level: Level) | Release

  predicate Distinct(names: seq<string>) {
    forall i, j :: 0 <= i < j < |names| ==> names[i] != names[j]
  }

  /** The state of a relay, `False` for one the map does not hold. */
  function StateOf(states: map<string, bool>, name: string): bool {
    if name in states then states[name] else false
  }

  /** The states after switching `name` to the opposite of what was last commanded. */
  function Toggled(states: map<string, bool>, name: string): (r: map<string, bool>)
    requires name in states
    ensures r.Keys == states.Keys
    ensures r[name] == !states[name]
    ensures forall other :: other in states && other != name ==> r[other] == states[other]
  {
    states[name := !states[name]]
  }

  /** Toggling twice restores every relay. */
  lemma ToggleTwice(states: map<string, bool>, name: string)
    requires name in states
    ensures Toggled(Toggled(states, name), name) == states
  {
    var once := Toggled(states, name);
    var twice := Toggled(once, name);
    assert forall other :: other in twice <==> other in states;
    assert forall other :: other in twice ==> twice[other] == states[other];
  }

  /** The pins of `names` configured as outputs at HIGH (every relay open), in order. */
  function SetupEvents(names: seq<string>, pins: map<string, int>): (r: seq<Event>)
    requires forall n :: n in names ==> n in pins
    ensures |r| == |names| && forall i :: 0 <= i < |names| ==> r[i] == Setup(pins[names[i]], High)
  {
    if names == [] then [] else [Setup(pins[names[0]], High)] + SetupEvents(names[1..], pins)
  }

  class RelayController {
    const names: seq<string>
    const pins: map<string, int>
    const gpio: Backend
    var states: map<string, bool>
    var events: seq<Event>

    /** The pin table: its keys, in order, are `names`. */
    ghost predicate Configured() {
      Distinct(names) && forall n :: n in pins <==> n in names
    }

    /** Every configured relay has a state, and nothing else has one. */
    ghost predicate Valid()
      reads this
    {
      Configured() && states.Keys == pins.Keys
    }

    /** A write to the pin of `name` goes through: the name is configured and the write does not raise. */
    predicate Writable(name: string)
    {
      name in pins && (gpio.Simulated? || pins[name] !in gpio.failing)
    }

    /** The GPIO call that switching `name` to `level` makes, if any. */
    function Write(name: string, level: Level): seq<Event>
      requires name in pins
    {
      if gpio.Hardware? then [Output(pins[name], level)] else []
    }

    /**
     * One switching of relay `name` on (`active`) or off, from recorded states
     * `s` and GPIO calls `e`: whether it succeeds, and the states and calls
     * after it. An unknown relay or a write that raises changes nothing.
     */
    function Switch(s: map<string, bool>, e: seq<Event>, name: string, active: bool)
      : (r: (bool, map<string, bool>, seq<Event>))
      ensures r.0 <==> Writable(name)
      ensures !r.0 ==> r.1 == s && r.2 == e
      ensures r.0 ==> name in r.1 && r.1[name] == active
      ensures forall n :: n in r.1 <==> n in s || (r.0 && n == name)
      ensures forall n :: n in s && n != name ==> r.1[n] == s[n]
      ensures r.0 && gpio.Hardware? ==> r.2 == e + [Output(pins[name], if active then Low else High)]
      ensures r.0 && gpio.Simulated? ==> r.2 == e
    {
      if Writable(name) then (true, s[name := active], e + Write(name, if active then Low else High))
      else (false, s, e)
    }

    /**
     * Opening each relay of `ns` in turn: whether every one succeeded, and the
     * states and GPIO calls after the last.
     */
    function OpenAll(s: map<string, bool>, e: seq<Event>, ns: seq<string>): (bool, map<string, bool>, seq<Event>) {
      if ns == [] then (true, s, e)
      else
        var before := OpenAll(s, e, ns[..|ns| - 1]);
        var step := Switch(before.1, before.2, ns[|ns| - 1], false);
        (before.0 && step.0, step.1, step.2)
    }

    lemma OpenAllStep(s: map<string, bool>, e: seq<Event>, ns: seq<string>, i: nat)
      requires i < |ns|
      ensures OpenAll(s, e, ns[..i + 1])
        == var before := OpenAll(s, e, ns[..i]);
           var step := Switch(before.1, before.2, ns[i], false);
           (before.0 && step.0, step.1, step.2)
    {
      assert ns[..i + 1][..i] == ns[..i];
    }

    /** Opening every relay in turn succeeds exactly when every write goes through. */
    lemma {:induction false} OpenAllSucceeds(s: map<string, bool>, e: seq<Event>, ns: seq<string>)
      ensures OpenAll(s, e, ns).0 <==> forall n :: n in ns ==> Writable(n)
    {
      if ns != [] {
        var init := ns[..|ns| - 1];
        OpenAllSucceeds(s, e, init);
        assert forall n :: n in ns <==> n in init || n == ns[|ns| - 1];
      }
    }

    /**
     * Opening relays in turn adds no relay that is not in `ns`, and opens
     * exactly the writable ones among `ns`; every other relay keeps its state.
     */
    lemma {:induction false} OpenAllStates(s: map<string, bool>, e: seq<Event>, ns: seq<string>)
      ensures forall n :: n in OpenAll(s, e, ns).1 <==> n in s || (n in ns && Writable(n))
      ensures forall n :: n in s ==>
        OpenAll(s, e, ns).1[n] == (if n in ns && Writable(n) then false else s[n])
    {
      if ns != [] {
        var init := ns[..|ns| - 1];
        OpenAllStates(s, e, init);
        assert forall n :: n in ns <==> n in init || n == ns[|ns| - 1];
      }
    }

    /** When every write goes through, opening every relay leaves none active and no relay added. */
    lemma AllOpened(s: map<string, bool>, e: seq<Event>)
      requires Configured() && s.Keys == pins.Keys
      requires OpenAll(s, e, names).0
      ensures OpenAll(s, e, names).1.Keys == s.Keys
      ensures forall n :: n in OpenAll(s, e, names).1 ==> !OpenAll(s, e, names).1[n]
    {
      OpenAllSucceeds(s, e, names);
      OpenAllStates(s, e, names);
    }

    /**
     * Configures every pin as an output with every relay open, and records
     * every relay as inactive. The pin table is a dictionary: its keys in
     * insertion order are `names`, and `pins` maps each key to its pin.
     */
    constructor(names: seq<string>, pins: map<string, int>, gpio: Backend)
      requires Distinct(names) && forall n :: n in pins <==> n in names
      ensures Valid()
      ensures this.names == names && this.pins == pins && this.gpio == gpio
      ensures forall n :: n in states ==> !states[n]
      ensures events == if gpio.Hardware? then SetupEvents(names, pins) else []
    {
      this.names := names;
      this.pins := pins;
      this.gpio := gpio;
      states := map n | n in pins :: false;
      events := if gpio.Hardware? then SetupEvents(names, pins) else [];
    }

    /** `activate_relay`: drive the pin LOW and record the relay as active. */
    method Activate(name: string) returns (ok: bool)
      requires Valid()
      modifies this
      ensures Valid()
      ensures ok <==> Writable(name)
      ensures (ok, states, events) == Switch(old(states), old(events), name, true)
    {
      if name !in pins {
        return false;
      }
      var pin := pins[name];
      if gpio.Hardware? {
        if pin in gpio.failing {
          return false;
        }
        events := events + [Output(pin, Low)];
      }
      states := states[name := true];
      ok := true;
      assert events == old(events) + Write(name, Low);
    }

    /** `deactivate_relay`: drive the pin HIGH and record the relay as inactive. */
    method Deactivate(name: string) returns (ok: bool)
      requires Valid()
      modifies this
      ensures Valid()
      ensures ok <==> Writable(name)
      ensures (ok, states, events) == Switch(old(states), old(events), name, false)
    {
      if name !in pins {
        return false;
      }
      var pin := pins[name];
      if gpio.Hardware? {
        if pin in gpio.failing {
          return false;
        }
        events := events + [Output(pin, High)];
      }
      states := states[name := false];
      ok := true;
      assert events == old(events) + Write(name, High);
    }

    /** `toggle_relay`: switch the relay to the opposite of its recorded state; the hardware is not read. */
    method Toggle(name: string) returns (ok: bool)
      requires Valid()
      modifies this
      ensures Valid()
      ensures ok <==> Writable(name)
      ensures (ok, states, events) == Switch(old(states), old(events), name, !old(GetRelayState(name)))
      ensures ok ==> states == Toggled(old(states), name)
    {
      if name !in pins {
        return false;
      }
      var current := GetRelayState(name);
      if current {
        ok := Deactivate(name);
      } else {
        ok := Activate(name);
      }
    }

    /** `get_relay_state`: the state last commanded, `False` for an unknown name. */
    function GetRelayState(name: string): (r: bool)
      reads this
      ensures r ==> name in states
      ensures name in states ==> (r <==> states[name])
    {
      StateOf(states, name)
    }

    /** `get_all_states`: a copy of the state map. */
    function GetAllStates(): (r: map<string, bool>)
      reads this
      ensures forall n :: n in r <==> n in states
      ensures forall n :: n in r ==> r[n] == GetRelayState(n)
    {
      states
    }

    /**
     * `deactivate_all`: open every relay in configuration order; true exactly
     * when every write went through. A relay whose write raised keeps its state.
     */
    method DeactivateAll() returns (success: bool)
      requires Valid()
      modifies this
      ensures Valid()
      ensures (success, states, events) == OpenAll(old(states), old(events), names)
    {
      success := true;
      var i := 0;
      while i < |names|
        invariant 0 <= i <= |names| && Valid()
        invariant (success, states, events) == OpenAll(old(states), old(events), names[..i])
      {
        OpenAllStep(old(states), old(events), names, i);
        var ok := Deactivate(names[i]);
        if !ok {
          success := false;
        }
        i := i + 1;
      }
      assert names[..i] == names;
    }

    /** `cleanup`: on hardware, open every relay and release the pins; in simulation, nothing happens. */
    method Cleanup()
      requires Valid()
      modifies this
      ensures Valid()
      ensures gpio.Simulated? ==> states == old(states) && events == old(events)
      ensures gpio.Hardware? ==> states == OpenAll(old(states), old(events), names).1
      ensures gpio.Hardware? ==> events == OpenAll(old(states), old(events), names).2 + [Release]
    {
      if gpio.Hardware? {
        var allOpen := DeactivateAll();
        events := events + [Release];
      }
    }
  }
}
