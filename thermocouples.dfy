/**
 * Thermocouple acquisition through the Measurement Computing USB-5203: each
 * channel is read by running the vendor's command-line tool and taking the
 * first number in what it prints.
 *
 * The tool is an oracle `run`: for a command line it gives the tool's standard
 * output when it exits with status 0, and `None` when it fails, times out or
 * cannot be started. The board object holds no state that changes after
 * construction, so it is a value (`Daq`); the loops that build the per-channel
 * maps and the open-sensor list are methods over it.
 */
module Thermocouples {
  import opened Options
  import opened Text
  import opened Stats

  /** Readings outside [TempMin, TempMax] degrees Celsius are rejected as implausible. */
  const TempMin: real := -270.0
  const TempMax: real := 2000.0

  /** The thermocouple types the board supports. */
  const ValidTypes: seq<string> := ["J", "K", "R", "S", "T", "N", "E", "B"]

  datatype Daq = Daq(numChannels: int, tcType: string)

  /**
   * The upper-case form `str.upper()` gives the characters that can end up as
   * a supported type letter: ASCII lower-case letters, and LATIN SMALL LETTER
   * LONG S, whose upper case is 'S'. Every other character is kept.
   */
  function UpperChar(c: char): char {
    if 'a' <= c <= 'z' then (c as int - 32) as char
    else if c == 'ſ' then 'S'
    else c
  }

  function Upper(s: string): (r: string)
    ensures |r| == |s| && forall i :: 0 <= i < |s| ==> r[i] == UpperChar(s[i])
  {
    if s == [] then [] else [UpperChar(s[0])] + Upper(s[1..])
  }

  /** The constructor: it raises unless the upper-cased type is a supported one. */
  function NewDaq(numChannels: int, tcType: string): (r: Option<Daq>)
    ensures r.Some? <==> Upper(tcType) in ValidTypes
    ensures r.Some? ==> r.value == Daq(numChannels, Upper(tcType))
  {
    if Upper(tcType) in ValidTypes then Some(Daq(numChannels, Upper(tcType))) else None
  }

  /** Exactly the one-letter names of the supported types are accepted, in either case. */
  lemma NewDaqAccepts(numChannels: int, tcType: string)
    ensures NewDaq(numChannels, tcType).Some?
        <==> |tcType| == 1 && UpperChar(tcType[0]) in "JKRSTNEB"
  {
    var u := Upper(tcType);
    if |tcType| == 1 {
      assert u == [UpperChar(tcType[0])];
      if UpperChar(tcType[0]) in "JKRSTNEB" {
        var k :| 0 <= k < 8 && "JKRSTNEB"[k] == u[0];
        assert u == ValidTypes[k];
      }
    }
  }

  predicate ValidChannel(d: Daq, channel: int) {
    0 <= channel < d.numChannels
  }

  predicate ValidTemperature(t: real) {
    TempMin <= t <= TempMax
  }

  /** The command line that reads one channel. */
  function ChannelCommand(d: Daq, channel: int): string {
    "test-usb5203 -ch " + IntText(channel) + " -type " + d.tcType
  }

  /** `_execute_mcc_command`: the tool's output, stripped, or `None` when the tool fails. */
  function Execute(run: string -> Option<string>, command: string): Option<string> {
    match run(command)
    case None => None
    case Some(out) => Some(Strip(out))
  }

  /**
   * The reading the tool's stripped output gives: its first number, kept only
   * when it is a plausible temperature.
   */
  function Interpret(output: Option<string>): (r: Option<real>)
    ensures r.Some? ==> ValidTemperature(r.value)
  {
    match output
    case None => None
    case Some(out) =>
      match FirstNumber(out)
      case None => None
      case Some(t) => if ValidTemperature(t) then Some(t) else None
  }

  /**
   * `read_channel`: refuse a channel out of range, run the tool, take the
   * first number in its output and keep it only when it is plausible.
   */
  function ReadChannel(d: Daq, run: string -> Option<string>, channel: int): (r: Option<real>)
    ensures r.Some? ==> ValidChannel(d, channel)
  {
    if !ValidChannel(d, channel) then None
    else Interpret(Execute(run, ChannelCommand(d, channel)))
  }

  /** A channel out of range is refused before the tool runs: the reading does not depend on the tool. */
  lemma InvalidChannelRunsNothing(d: Daq, run1: string -> Option<string>, run2: string -> Option<string>, channel: int)
    requires !ValidChannel(d, channel)
    ensures ReadChannel(d, run1, channel) == ReadChannel(d, run2, channel) == None
  {
  }

  /**
   * A reading is obtained exactly when the channel is in range, the tool
   * succeeds, its output contains a match of the number pattern, and the first
   * match is a plausible temperature.
   */
  lemma ReadChannelSome(d: Daq, run: string -> Option<string>, channel: int)
    ensures ReadChannel(d, run, channel).Some? <==>
      ValidChannel(d, channel) && run(ChannelCommand(d, channel)).Some?
      && FirstNumber(Strip(run(ChannelCommand(d, channel)).value)).Some?
      && ValidTemperature(FirstNumber(Strip(run(ChannelCommand(d, channel)).value)).value)
  {
  }

  /** The readings of the whole board: one per channel in range. */
  function AllReadings(d: Daq, run: string -> Option<string>): map<int, Option<real>> {
    map ch | 0 <= ch < d.numChannels :: ReadChannel(d, run, ch)
  }

  /** `read_all_channels`: one independent reading per channel 0, 1, ..., numChannels - 1. */
  method ReadAllChannels(d: Daq, run: string -> Option<string>) returns (readings: map<int, Option<real>>)
    ensures forall ch :: ch in readings <==> ValidChannel(d, ch)
    ensures forall ch :: ch in readings ==> readings[ch] == ReadChannel(d, run, ch)
    ensures readings == AllReadings(d, run)
  {
    readings := map[];
    var ch := 0;
    while ch < d.numChannels
      invariant 0 <= ch && (ch <= d.numChannels || ch == 0)
      invariant forall c :: c in readings <==> 0 <= c < ch
      invariant forall c :: c in readings ==> readings[c] == ReadChannel(d, run, c)
    {
      readings := readings[ch := ReadChannel(d, run, ch)];
      ch := ch + 1;
    }
  }

  /** `read_channels_list`: one reading per requested channel; a repeated channel is one key. */
  method ReadChannelsList(d: Daq, run: string -> Option<string>, channels: seq<int>)
    returns (readings: map<int, Option<real>>)
    ensures forall ch :: ch in readings <==> ch in channels
    ensures forall ch :: ch in readings ==> readings[ch] == ReadChannel(d, run, ch)
  {
    readings := map[];
    var i := 0;
    while i < |channels|
      invariant 0 <= i <= |channels|
      invariant forall ch :: ch in readings <==> ch in channels[..i]
      invariant forall ch :: ch in readings ==> readings[ch] == ReadChannel(d, run, ch)
    {
      assert channels[..i + 1] == channels[..i] + [channels[i]];
      readings := readings[channels[i] := ReadChannel(d, run, channels[i])];
      i := i + 1;
    }
    assert channels[..i] == channels;
  }

  /**
   * The loop of `check_open_thermocouples` over a dictionary whose keys are
   * `0, 1, ..., n - 1` in insertion order: the keys without a reading, in
   * ascending order.
   */
  method MissingKeys(readings: map<int, Option<real>>, n: int) returns (open: seq<int>)
    requires forall c :: c in readings <==> 0 <= c < n
    ensures forall i, j :: 0 <= i < j < |open| ==> open[i] < open[j]
    ensures forall c :: c in open <==> c in readings && readings[c].None?
  {
    open := [];
    var ch := 0;
    while ch < n
      invariant 0 <= ch && (ch <= n || ch == 0)
      invariant forall i, j :: 0 <= i < j < |open| ==> open[i] < open[j]
      invariant forall i :: 0 <= i < |open| ==> open[i] < ch
      invariant forall c :: c in open <==> c in readings && c < ch && readings[c].None?
    {
      if readings[ch].None? {
        open := open + [ch];
      }
      ch := ch + 1;
    }
  }

  /** `check_open_thermocouples`: the channels without a reading, in ascending order. */
  method CheckOpenThermocouples(d: Daq, run: string -> Option<string>) returns (open: seq<int>)
    ensures forall i, j :: 0 <= i < j < |open| ==> open[i] < open[j]
    ensures forall ch :: ch in open <==> ValidChannel(d, ch) && ReadChannel(d, run, ch).None?
  {
    var readings := ReadAllChannels(d, run);
    open := MissingKeys(readings, d.numChannels);
  }

  // ---------------------------------------------------------------------
  // Averages
  // ---------------------------------------------------------------------

  /** The channels of `xs` in order of first appearance: the keys of the dictionary built from them. */
  function Distinct(xs: seq<int>): (r: seq<int>)
    ensures forall x :: x in r <==> x in xs
    ensures forall i, j :: 0 <= i < j < |r| ==> r[i] != r[j]
  {
    if xs == [] then []
    else
      var init := Distinct(xs[..|xs| - 1]);
      assert forall x :: x in xs <==> x in xs[..|xs| - 1] || x == xs[|xs| - 1];
      if xs[|xs| - 1] in xs[..|xs| - 1] then init else init + [xs[|xs| - 1]]
  }

  /** The values present in `xs`, in order: `[t for t in values if t is not None]`. */
  function Present(xs: seq<Option<real>>): seq<real> {
    if xs == [] then []
    else Present(xs[..|xs| - 1]) + (if xs[|xs| - 1].Some? then [xs[|xs| - 1].value] else [])
  }

  /** A value is kept exactly when it is present, and nothing is kept exactly when nothing is present. */
  lemma {:induction false} PresentExact(xs: seq<Option<real>>)
    ensures forall t :: t in Present(xs) <==> Some(t) in xs
    ensures Present(xs) == [] <==> forall i :: 0 <= i < |xs| ==> xs[i].None?
  {
    if xs != [] {
      var init := xs[..|xs| - 1];
      PresentExact(init);
      assert xs == init + [xs[|xs| - 1]];
      assert forall o :: o in xs <==> o in init || o == xs[|xs| - 1];
    }
  }

  /** Bounds on the present values carry over to the list that keeps them. */
  lemma {:induction false} PresentWithin(xs: seq<Option<real>>, lo: real, hi: real)
    requires forall i :: 0 <= i < |xs| && xs[i].Some? ==> lo <= xs[i].value <= hi
    ensures Within(Present(xs), lo, hi)
  {
    if xs != [] {
      var init := xs[..|xs| - 1];
      PresentWithin(init, lo, hi);
      var rest := Present(init);
      var tail := if xs[|xs| - 1].Some? then [xs[|xs| - 1].value] else [];
      forall i | 0 <= i < |rest + tail|
        ensures lo <= (rest + tail)[i] <= hi
      {
        if i >= |rest| {
          assert (rest + tail)[i] == xs[|xs| - 1].value;
        }
      }
    }
  }

  /** The indices below `n` whose entry is present. */
  function PresentIndices(xs: seq<Option<real>>, n: nat): set<nat>
    requires n <= |xs|
  {
    set i: nat | i < n && xs[i].Some?
  }

  /** The keys of the indices below `n` whose entry is present. */
  function PresentKeys(keys: seq<int>, xs: seq<Option<real>>, n: nat): set<int>
    requires n <= |xs| == |keys|
  {
    set i: nat | i < n && xs[i].Some? :: keys[i]
  }

  lemma PresentIndicesStep(xs: seq<Option<real>>, n: nat)
    requires n < |xs|
    ensures PresentIndices(xs, n + 1) == PresentIndices(xs, n) + (if xs[n].Some? then {n} else {})
  {
  }

  lemma PresentKeysStep(keys: seq<int>, xs: seq<Option<real>>, n: nat)
    requires n < |xs| == |keys|
    ensures PresentKeys(keys, xs, n + 1) == PresentKeys(keys, xs, n) + (if xs[n].Some? then {keys[n]} else {})
  {
    var next := PresentKeys(keys, xs, n + 1);
    var before := PresentKeys(keys, xs, n);
    forall k | k in next ensures k in before || (xs[n].Some? && k == keys[n]) {
      var i: nat :| i < n + 1 && xs[i].Some? && keys[i] == k;
    }
  }

  /** With distinct keys, the key at `m` is none of the keys before it. */
  lemma KeyFresh(keys: seq<int>, xs: seq<Option<real>>, m: nat)
    requires m < |xs| == |keys|
    requires forall i, j :: 0 <= i < j < |keys| ==> keys[i] != keys[j]
    ensures keys[m] !in PresentKeys(keys, xs, m)
  {
  }

  lemma PresentIndicesCount(xs: seq<Option<real>>, n: nat)
    requires n < |xs|
    ensures |PresentIndices(xs, n + 1)| == |PresentIndices(xs, n)| + (if xs[n].Some? then 1 else 0)
  {
    PresentIndicesStep(xs, n);
    assert n !in PresentIndices(xs, n);
  }

  lemma PresentKeysCount(keys: seq<int>, xs: seq<Option<real>>, n: nat)
    requires n < |xs| == |keys|
    requires forall i, j :: 0 <= i < j < |keys| ==> keys[i] != keys[j]
    ensures |PresentKeys(keys, xs, n + 1)| == |PresentKeys(keys, xs, n)| + (if xs[n].Some? then 1 else 0)
  {
    PresentKeysStep(keys, xs, n);
    KeyFresh(keys, xs, n);
  }

  /** Distinct keys give as many key values as indices. */
  lemma {:induction false} ImageCount(keys: seq<int>, xs: seq<Option<real>>, n: nat)
    requires n <= |xs| == |keys|
    requires forall i, j :: 0 <= i < j < |keys| ==> keys[i] != keys[j]
    ensures |PresentIndices(xs, n)| == |PresentKeys(keys, xs, n)|
  {
    if n > 0 {
      var m := n - 1;
      ImageCount(keys, xs, m);
      PresentIndicesStep(xs, m);
      PresentKeysStep(keys, xs, m);
      PresentIndicesCount(xs, m);
      PresentKeysCount(keys, xs, m);
    }
  }

  /** One value is kept per present entry. */
  lemma {:induction false} PresentCount(xs: seq<Option<real>>)
    ensures |Present(xs)| == |PresentIndices(xs, |xs|)|
  {
    if xs != [] {
      var n := |xs| - 1;
      var init := xs[..n];
      PresentCount(init);
      PresentIndicesStep(xs, n);
      assert PresentIndices(init, n) == PresentIndices(xs, n);
    }
  }

  /** The readings of `channels`, one per entry, in order. */
  function Readings(d: Daq, run: string -> Option<string>, channels: seq<int>): seq<Option<real>> {
    seq(|channels|, i requires 0 <= i < |channels| => ReadChannel(d, run, channels[i]))
  }

  /** The mean of the values present in `xs`; `None` when there are none. */
  function PresentMean(xs: seq<Option<real>>): (r: Option<real>)
    ensures r.None? <==> Present(xs) == []
    ensures r.Some? ==> r.value * |Present(xs)| as real == Sum(Present(xs))
  {
    Mean(Present(xs))
  }

  /**
   * `get_average_temperature`: the mean of the valid readings of the requested
   * channels, taken over the dictionary built by `read_channels_list`, whose
   * keys are the channels in order of first appearance; `None` when none of
   * them has a reading.
   */
  function AverageTemperature(d: Daq, run: string -> Option<string>, channels: seq<int>): Option<real> {
    PresentMean(Readings(d, run, Distinct(channels)))
  }

  /** There is an average exactly when at least one requested channel has a reading. */
  lemma AverageNone(d: Daq, run: string -> Option<string>, channels: seq<int>)
    ensures AverageTemperature(d, run, channels).None?
        <==> forall ch :: ch in channels ==> ReadChannel(d, run, ch).None?
  {
    var keys := Distinct(channels);
    var xs := Readings(d, run, keys);
    PresentExact(xs);
    if AverageTemperature(d, run, channels).None? {
      forall ch | ch in channels ensures ReadChannel(d, run, ch).None? {
        var i :| 0 <= i < |keys| && keys[i] == ch;
        assert xs[i].None?;
      }
    } else {
      var i :| 0 <= i < |xs| && xs[i].Some?;
      assert keys[i] in channels;
    }
  }

  /** The average of plausible temperatures is itself a plausible temperature. */
  lemma AverageValid(d: Daq, run: string -> Option<string>, channels: seq<int>)
    ensures AverageTemperature(d, run, channels).Some? ==> ValidTemperature(AverageTemperature(d, run, channels).value)
  {
    var xs := Readings(d, run, Distinct(channels));
    forall i | 0 <= i < |xs| && xs[i].Some? ensures TempMin <= xs[i].value <= TempMax {
      assert ValidTemperature(ReadChannel(d, run, Distinct(channels)[i]).value);
    }
    PresentWithin(xs, TempMin, TempMax);
    if Present(xs) != [] {
      MeanWithin(Present(xs), TempMin, TempMax);
    }
  }

  /** The mean is taken over exactly one value per distinct requested channel that has a reading. */
  lemma AverageCountsEachChannelOnce(d: Daq, run: string -> Option<string>, channels: seq<int>)
    ensures |Present(Readings(d, run, Distinct(channels)))|
        == |set ch | ch in channels && ReadChannel(d, run, ch).Some?|
  {
    var keys := Distinct(channels);
    var xs := Readings(d, run, keys);
    PresentCount(xs);
    ImageCount(keys, xs, |xs|);
    var image := PresentKeys(keys, xs, |xs|);
    var chs := set ch | ch in channels && ReadChannel(d, run, ch).Some?;
    forall ch ensures ch in chs <==> ch in image {
      if ch in chs {
        var i :| 0 <= i < |keys| && keys[i] == ch;
        assert xs[i].Some?;
      }
    }
    assert chs == image;
  }
}
