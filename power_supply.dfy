/**
 * The driver of the BK Precision XLN30052 programmable supply: SCPI commands
 * framed with CR LF over a Telnet session, set points checked against a read
 * back, and the questionable-status register decoded into protection flags.
 *
 * The supply itself is an oracle (`Link`); the driver's state is whether it
 * holds a connection, a step counter that orders the exchanges, and the list
 * of frames it has written. Each operation is specified by a pure function on
 * that state (`Transact`, `ApplyVoltage`, ...); the class `FuenteXLN` carries
 * the same state in fields and its methods are proved against those functions.
 */
module PowerSupply {
  import opened Options
  import opened Text

  const VoltageMax: real := 300.0
  const CurrentMax: real := 5.2
  /** A voltage read back within this many volts of the set point confirms it. */
  const VoltageTolerance: real := 0.5
  /** A current read back within this many amperes of the set point confirms it. */
  const CurrentTolerance: real := 0.01
  /** Decimals written in `VOLT` and `CURR` commands. */
  const VoltagePlaces: nat := 2
  const CurrentPlaces: nat := 3

  predicate ValidVoltage(v: real) { 0.0 <= v <= VoltageMax }

  predicate ValidCurrent(i: real) { 0.0 <= i <= CurrentMax }

  function Abs(x: real): real { if x < 0.0 then -x else x }

  // ---------------------------------------------------------------------
  // The link and the session
  // ---------------------------------------------------------------------

  /**
   * The supply's end of the Telnet link, as a script indexed by the driver's
   * step counter. A connection attempt at step `t` succeeds when `accepts[t]`
   * holds. The exchange made at step `t` has outcome `replies[t]`: `None` when
   * the write (or, for a query, the read) raises, otherwise the text read up to
   * the first line feed, or whatever arrived before the time-out. Steps past
   * the end of the script fail.
   */
  datatype Link = Link(accepts: seq<bool>, replies: seq<Option<string>>)
  {
    predicate Opens(t: nat) {
      t < |accepts| && accepts[t]
    }

    function Outcome(t: nat): Option<string> {
      if t < |replies| then replies[t] else None
    }
  }

  /** Whether a connection is held, the next step number, and every frame written so far. */
  datatype Session = Session(connected: bool, tick: nat, wire: seq<string>)

  predicate IsAscii(s: string) {
    forall i :: 0 <= i < |s| ==> s[i] < '\U{80}'
  }

  /** A command as written on the link: stripped and terminated by CR LF. */
  function Frame(command: string): (w: string)
    ensures |w| >= 2 && w[|w| - 2..] == "\r\n"
  {
    Strip(command) + "\r\n"
  }

  /** The frame carries the command itself: stripping it gives back the stripped command. */
  lemma FrameStrip(command: string)
    ensures Strip(Frame(command)) == Strip(command)
  {
    var core := Strip(command);
    StripShape(command);
    assert AllSpace("\r\n");
    assert [] + core + "\r\n" == core + "\r\n";
    StripPadding([], core, "\r\n");
  }

  /** Commands containing '?' are queries: their reply is read. */
  predicate IsQuery(command: string) { '?' in command }

  /**
   * What `_send_command` returns once its frame has been written, given the
   * outcome of the exchange: `"OK"` for a command, the stripped line for a
   * query, and `None` when the exchange raised or the line is not ASCII.
   */
  function Reply(command: string, outcome: Option<string>): (r: Option<string>)
    ensures r.Some? ==> outcome.Some?
    ensures r.Some? && !IsQuery(command) ==> r.value == "OK"
    ensures outcome.Some? && !IsQuery(command) ==> r.Some?
  {
    match outcome
    case None => None
    case Some(line) =>
      if !IsQuery(command) then Some("OK")
      else if IsAscii(line) then Some(Strip(line))
      else None
  }

  /** A connection attempt (`connect`): a held connection is kept even if a new attempt fails. */
  function Open(link: Link, s: Session): (r: (Session, bool))
    ensures r.0.connected <==> s.connected || r.1
    ensures r.0.tick == s.tick + 1 && r.0.wire == s.wire
  {
    var ok := link.Opens(s.tick);
    (s.(connected := s.connected || ok, tick := s.tick + 1), ok)
  }

  /** The step at which a command issued on session `s` is written, once connected. */
  function SendStep(s: Session): nat {
    if s.connected then s.tick else s.tick + 1
  }

  /** Whether a command issued on session `s` gets written: a connection is held or opens. */
  predicate Reaches(link: Link, s: Session) {
    s.connected || link.Opens(s.tick)
  }

  /**
   * `_send_command`: connect first when no connection is held, write the frame,
   * and reply as `Reply` says; every failure answers `None` and leaves no
   * connection.
   */
  function Transact(link: Link, s: Session, command: string): (r: (Session, Option<string>))
    ensures r.0.tick > s.tick
    ensures r.0.wire == if Reaches(link, s) then s.wire + [Frame(command)] else s.wire
    ensures r.1.None? <==> !r.0.connected
    ensures r.1 == if Reaches(link, s) then Reply(command, link.Outcome(SendStep(s))) else None
  {
    var (s1, ok) := if s.connected then (s, true) else Open(link, s);
    if !ok then (s1, None)
    else
      var reply := Reply(command, link.Outcome(s1.tick));
      (s1.(connected := reply.Some?, tick := s1.tick + 1, wire := s1.wire + [Frame(command)]), reply)
  }

  /** A command that is not a query succeeds exactly when it is written and the write goes through. */
  lemma CommandAcknowledged(link: Link, s: Session, command: string)
    requires !IsQuery(command)
    ensures Transact(link, s, command).1 == Some("OK")
        <==> Reaches(link, s) && link.Outcome(SendStep(s)).Some?
  {
  }

  /** A query answers the stripped line the supply sent, provided it is ASCII. */
  lemma QueryAnswered(link: Link, s: Session, command: string, line: string)
    requires IsQuery(command) && Reaches(link, s) && link.Outcome(SendStep(s)) == Some(line)
    ensures Transact(link, s, command).1 == if IsAscii(line) then Some(Strip(line)) else None
  {
  }

  // ---------------------------------------------------------------------
  // Numeric queries and set points
  // ---------------------------------------------------------------------

  /** What the getters make of a reply: a non-empty reply converted with `float()`. */
  function ReadReal(reply: Option<string>): (r: Option<real>)
    ensures r.Some? ==> reply.Some? && reply.value != ""
  {
    if reply.Some? && reply.value != "" then ParseDecimal(reply.value) else None
  }

  /** A reply is read as a number exactly when it has the form of a decimal numeral. */
  lemma ReadRealAccepts(reply: Option<string>)
    ensures ReadReal(reply).Some? <==> reply.Some? && IsDecimal(reply.value)
  {
    if reply.Some? && reply.value == "" {
      assert !IsDecimalBody(reply.value);
    }
  }

  /** `get_voltage`, `get_current`, `measure_voltage`, `measure_current`: a query read as a number. */
  function Query(link: Link, s: Session, command: string): (r: (Session, Option<real>))
    ensures r.0 == Transact(link, s, command).0
    ensures r.1 == if Reaches(link, s) then ReadReal(Reply(command, link.Outcome(SendStep(s)))) else None
  {
    var t := Transact(link, s, command);
    (t.0, ReadReal(t.1))
  }

  /** The number the exchange at step `t` reads as, when it answers the query `query`. */
  function Reading(link: Link, t: nat, query: string): Option<real> {
    ReadReal(Reply(query, link.Outcome(t)))
  }

  predicate Agrees(value: Option<real>, target: real, tolerance: real) {
    value.Some? && Abs(value.value - target) < tolerance
  }

  /**
   * Write a set point, then read it back and compare: the result of
   * `set_voltage` and `set_current` once the value has passed validation.
   */
  function ApplySetpoint(link: Link, s: Session, command: string, query: string, target: real, tolerance: real)
    : (r: (Session, bool))
  {
    var written := Transact(link, s, command);
    if written.1.Some? && written.1.value != "" then
      var readback := Query(link, written.0, query);
      (readback.0, readback.1.Some? && Abs(readback.1.value - target) < tolerance)
    else (written.0, false)
  }

  /**
   * A confirmed set point was written and then read back, on a connection held
   * throughout, and the reading at the second step is within the tolerance.
   */
  lemma SetpointSound(link: Link, s: Session, command: string, query: string, target: real, tolerance: real)
    requires !IsQuery(command)
    ensures var r := ApplySetpoint(link, s, command, query, target, tolerance);
      r.1 ==> (r.0.connected
        && r.0.wire == s.wire + [Frame(command), Frame(query)]
        && Agrees(Reading(link, SendStep(s) + 1, query), target, tolerance))
  {
    var written := Transact(link, s, command);
    if written.1.Some? {
      assert written.0.connected && written.0.tick == SendStep(s) + 1;
      assert SendStep(written.0) == SendStep(s) + 1;
    }
  }

  /** Conversely, a set point is confirmed whenever both exchanges go through and the reading agrees. */
  lemma SetpointComplete(link: Link, s: Session, command: string, query: string, target: real, tolerance: real)
    requires !IsQuery(command) && Reaches(link, s)
    requires link.Outcome(SendStep(s)).Some?
    requires Agrees(Reading(link, SendStep(s) + 1, query), target, tolerance)
    ensures ApplySetpoint(link, s, command, query, target, tolerance).1
  {
    var written := Transact(link, s, command);
    CommandAcknowledged(link, s, command);
    assert written.1 == Some("OK");
    assert written.0.connected && SendStep(written.0) == SendStep(s) + 1;
    var readback := Query(link, written.0, query);
    assert readback.1 == Reading(link, SendStep(s) + 1, query);
  }

  function VoltageCommand(v: real): string
    requires v >= 0.0
  {
    "VOLT " + FormatUnsigned(v, VoltagePlaces)
  }

  function CurrentCommand(i: real): string
    requires i >= 0.0
  {
    "CURR " + FormatUnsigned(i, CurrentPlaces)
  }

  /** `set_voltage`: out-of-range values are refused without touching the link. */
  function ApplyVoltage(link: Link, s: Session, v: real): (r: (Session, bool))
    ensures !ValidVoltage(v) ==> r == (s, false)
  {
    if !ValidVoltage(v) then (s, false)
    else ApplySetpoint(link, s, VoltageCommand(v), "VOLT?", v, VoltageTolerance)
  }

  /** `set_current`: out-of-range values are refused without touching the link. */
  function ApplyCurrent(link: Link, s: Session, i: real): (r: (Session, bool))
    ensures !ValidCurrent(i) ==> r == (s, false)
  {
    if !ValidCurrent(i) then (s, false)
    else ApplySetpoint(link, s, CurrentCommand(i), "CURR?", i, CurrentTolerance)
  }

  /** A confirmed voltage is in range, was written as `VOLT` then `VOLT?`, and read back within 0.5 V. */
  lemma VoltageSound(link: Link, s: Session, v: real)
    ensures var r := ApplyVoltage(link, s, v);
      r.1 ==> (ValidVoltage(v) && r.0.connected
        && r.0.wire == s.wire + [Frame(VoltageCommand(v)), Frame("VOLT?")]
        && Agrees(Reading(link, SendStep(s) + 1, "VOLT?"), v, VoltageTolerance))
  {
    if ValidVoltage(v) {
      SetpointSound(link, s, VoltageCommand(v), "VOLT?", v, VoltageTolerance);
    }
  }

  /** A confirmed current is in range, was written as `CURR` then `CURR?`, and read back within 0.01 A. */
  lemma CurrentSound(link: Link, s: Session, i: real)
    ensures var r := ApplyCurrent(link, s, i);
      r.1 ==> (ValidCurrent(i) && r.0.connected
        && r.0.wire == s.wire + [Frame(CurrentCommand(i)), Frame("CURR?")]
        && Agrees(Reading(link, SendStep(s) + 1, "CURR?"), i, CurrentTolerance))
  {
    if ValidCurrent(i) {
      SetpointSound(link, s, CurrentCommand(i), "CURR?", i, CurrentTolerance);
    }
  }

  /**
   * A query answered with a set point formatted as the driver formats it (on a
   * line of its own) reads back that set point rounded to `places` decimals.
   */
  lemma EchoReading(link: Link, t: nat, query: string, x: real, places: nat)
    requires x >= 0.0 && places > 0 && IsQuery(query)
    requires link.Outcome(t) == Some(FormatUnsigned(x, places) + "\n")
    ensures x * Scale(places) >= 0.0
    ensures Reading(link, t, query) == Some(Quotient(RoundHalfEven(x * Scale(places)), places))
  {
    var f := FormatUnsigned(x, places);
    assert AllSpace("\n");
    assert [] + f + "\n" == f + "\n";
    StripPadding([], f, "\n");
    forall i | 0 <= i < |f + "\n"| ensures (f + "\n")[i] < '\U{80}' {
      if i < |f| {
        assert IsNumeralChar(f[i]);
      }
    }
    assert Reply(query, link.Outcome(t)) == Some(f);
    FormatUnsignedRoundTrip(x, places);
  }

  /** The echoed set point is within the tolerance whenever half a unit in the last place is. */
  lemma EchoWithin(link: Link, t: nat, query: string, x: real, places: nat, tolerance: real)
    requires x >= 0.0 && places > 0 && IsQuery(query) && 0.5 / Scale(places) < tolerance
    requires link.Outcome(t) == Some(FormatUnsigned(x, places) + "\n")
    ensures Agrees(Reading(link, t, query), x, tolerance)
  {
    EchoReading(link, t, query, x, places);
    RoundedNear(x, places);
    NearWithin(Quotient(RoundHalfEven(x * Scale(places)), places) - x, Scale(places), tolerance);
  }

  lemma NearWithin(d: real, scale: real, tolerance: real)
    requires scale >= 1.0 && -0.5 / scale <= d <= 0.5 / scale && 0.5 / scale < tolerance
    ensures Abs(d) < tolerance
  {
    assert -0.5 / scale == -(0.5 / scale);
  }

  /** Half a unit in the last written decimal is inside each tolerance. */
  lemma HalfUnitWithin()
    ensures 0.5 / Scale(VoltagePlaces) < VoltageTolerance
    ensures 0.5 / Scale(CurrentPlaces) < CurrentTolerance
  {
    assert Scale(VoltagePlaces) == 100.0;
    assert Scale(CurrentPlaces) == 1000.0;
  }

  /** A set point is confirmed by a supply that acknowledges the write and echoes the value. */
  lemma SetpointEcho(link: Link, s: Session, command: string, query: string, x: real, places: nat, tolerance: real)
    requires !IsQuery(command) && IsQuery(query) && Reaches(link, s)
    requires x >= 0.0 && places > 0 && 0.5 / Scale(places) < tolerance
    requires link.Outcome(SendStep(s)).Some?
    requires link.Outcome(SendStep(s) + 1) == Some(FormatUnsigned(x, places) + "\n")
    ensures ApplySetpoint(link, s, command, query, x, tolerance).1
  {
    EchoWithin(link, SendStep(s) + 1, query, x, places, tolerance);
    SetpointComplete(link, s, command, query, x, tolerance);
  }

  /** `set_voltage` succeeds against a supply that acknowledges the write and echoes the set point. */
  lemma VoltageEchoConfirms(link: Link, s: Session, v: real)
    requires ValidVoltage(v) && Reaches(link, s)
    requires link.Outcome(SendStep(s)).Some?
    requires link.Outcome(SendStep(s) + 1) == Some(FormatUnsigned(v, VoltagePlaces) + "\n")
    ensures ApplyVoltage(link, s, v).1
  {
    HalfUnitWithin();
    SetpointEcho(link, s, VoltageCommand(v), "VOLT?", v, VoltagePlaces, VoltageTolerance);
    assert ApplyVoltage(link, s, v) == ApplySetpoint(link, s, VoltageCommand(v), "VOLT?", v, VoltageTolerance);
  }

  /** `set_current` succeeds against a supply that acknowledges the write and echoes the set point. */
  lemma CurrentEchoConfirms(link: Link, s: Session, i: real)
    requires ValidCurrent(i) && Reaches(link, s)
    requires link.Outcome(SendStep(s)).Some?
    requires link.Outcome(SendStep(s) + 1) == Some(FormatUnsigned(i, CurrentPlaces) + "\n")
    ensures ApplyCurrent(link, s, i).1
  {
    HalfUnitWithin();
    SetpointEcho(link, s, CurrentCommand(i), "CURR?", i, CurrentPlaces, CurrentTolerance);
    assert ApplyCurrent(link, s, i) == ApplySetpoint(link, s, CurrentCommand(i), "CURR?", i, CurrentTolerance);
  }

  // ---------------------------------------------------------------------
  // Output, status and identification
  // ---------------------------------------------------------------------

  /**
   * A command whose outcome is only success or failure (`output_on`,
   * `output_off`, `reset_protections`): it succeeds exactly when the frame is
   * written and the write goes through.
   */
  function Command(link: Link, s: Session, command: string): (r: (Session, bool))
    requires !IsQuery(command)
    ensures r.0 == Transact(link, s, command).0
    ensures r.1 <==> Reaches(link, s) && link.Outcome(SendStep(s)).Some?
    ensures r.1 <==> r.0.connected
  {
    var t := Transact(link, s, command);
    (t.0, t.1.Some? && t.1.value != "")
  }

  /** `output_on` / `output_off`. */
  function SwitchOutput(link: Link, s: Session, on: bool): (Session, bool) {
    Command(link, s, if on then "OUTP ON" else "OUTP OFF")
  }

  /** `reset_protections`: clear the latched protection state with `*CLS`. */
  function ClearProtections(link: Link, s: Session): (Session, bool) {
    Command(link, s, "*CLS")
  }

  /** The reading of an `OUTP?` reply. */
  function OutputStateOf(reply: Option<string>): (r: Option<bool>)
    ensures r == Some(true) <==> reply == Some("1") || reply == Some("ON")
    ensures r == Some(false) <==> reply == Some("0") || reply == Some("OFF")
  {
    if reply.Some? && reply.value != "" then
      if reply.value in ["1", "ON"] then Some(true)
      else if reply.value in ["0", "OFF"] then Some(false)
      else None
    else None
  }

  /** `get_output_state`. */
  function ReadOutputState(link: Link, s: Session): (Session, Option<bool>) {
    var t := Transact(link, s, "OUTP?");
    (t.0, OutputStateOf(t.1))
  }

  /**
   * A supply that answers `OUTP?` with one of the four state words, padded with
   * whitespace, is read as being in that state.
   */
  lemma OutputStateReported(link: Link, s: Session, pre: string, word: string, post: string)
    requires Reaches(link, s) && link.Outcome(SendStep(s)) == Some(pre + word + post)
    requires AllSpace(pre) && AllSpace(post) && IsAscii(pre + word + post)
    requires word in ["1", "ON", "0", "OFF"]
    ensures ReadOutputState(link, s).1 == Some(word in ["1", "ON"])
  {
    StripPadding(pre, word, post);
    QueryAnswered(link, s, "OUTP?", pre + word + post);
  }

  /** `get_identification`: the non-empty stripped reply to `*IDN?`. */
  function Identify(link: Link, s: Session): (r: (Session, Option<string>))
    ensures r.0 == Transact(link, s, "*IDN?").0
    ensures r.1.Some? ==> r.1.value != [] && r.0.connected
    ensures r.1.Some? ==> Reaches(link, s) && Reply("*IDN?", link.Outcome(SendStep(s))) == r.1
  {
    var t := Transact(link, s, "*IDN?");
    (t.0, if t.1.Some? && t.1.value != "" then t.1 else None)
  }

  // ---------------------------------------------------------------------
  // Protections
  // ---------------------------------------------------------------------

  datatype ProtectionStatus = Ok | OvpActive | OcpActive | OppActive | Error

  /** The dictionary `check_protections` returns. */
  datatype Protections = Protections(ovp: bool, ocp: bool, opp: bool, status: ProtectionStatus)

  const NoProtection := Protections(false, false, false, Ok)

  function Pow2(k: nat): (r: nat)
    ensures r >= 1
  {
    if k == 0 then 1 else 2 * Pow2(k - 1)
  }

  /** Bit `k` of `n` in two's complement, as Python's `n & 2**k` sees it. */
  predicate Bit(n: int, k: nat) {
    (n / Pow2(k)) % 2 == 1
  }

  /**
   * The flags of the status register: bit 0 over-voltage, bit 1 over-current,
   * bit 2 over-power. Each set bit overwrites the status in turn, so the
   * highest set bit names it.
   */
  function DecodeRegister(n: int): (p: Protections)
    ensures p.ovp == Bit(n, 0) && p.ocp == Bit(n, 1) && p.opp == Bit(n, 2)
    ensures p.status == Ok <==> !(p.ovp || p.ocp || p.opp)
    ensures p.status != Error
    ensures p.opp ==> p.status == OppActive
    ensures p.ocp && !p.opp ==> p.status == OcpActive
    ensures p.ovp && !p.ocp && !p.opp ==> p.status == OvpActive
  {
    var p0 := NoProtection;
    var p1 := if Bit(n, 0) then p0.(ovp := true, status := OvpActive) else p0;
    var p2 := if Bit(n, 1) then p1.(ocp := true, status := OcpActive) else p1;
    if Bit(n, 2) then p2.(opp := true, status := OppActive) else p2
  }

  /** Only the three low bits of the register matter. */
  lemma DecodeRegisterLowBits(n: int)
    ensures DecodeRegister(n) == DecodeRegister(n % 8)
  {
    var q := n / 8;
    var r := n % 8;
    assert n == 8 * q + r;
    assert n / 2 == 4 * q + r / 2;
    assert n / 4 == 2 * q + r / 4;
    assert Pow2(1) == 2 && Pow2(2) == 4;
    assert Bit(n, 0) == Bit(r, 0);
    assert Bit(n, 1) == Bit(r, 1);
    assert Bit(n, 2) == Bit(r, 2);
  }

  /**
   * The protections read from a reply to `STAT:QUES:COND?`: no reply (or an
   * empty one) leaves everything clear; a reply `int()` rejects gives status `Error`.
   */
  function ProtectionsOf(reply: Option<string>): (p: Protections)
    ensures reply.None? || reply == Some("") ==> p == NoProtection
    ensures reply.Some? && reply.value != "" && ParseInt(reply.value).None? ==> p == NoProtection.(status := Error)
    ensures reply.Some? && ParseInt(reply.value).Some? ==> p == DecodeRegister(ParseInt(reply.value).value)
    ensures p.status == Ok <==> !(p.ovp || p.ocp || p.opp) && (reply.None? || reply == Some("") || ParseInt(reply.value).Some?)
  {
    if reply.Some? && reply.value != "" then
      match ParseInt(reply.value)
      case None => NoProtection.(status := Error)
      case Some(n) => DecodeRegister(n)
    else NoProtection
  }

  /** A register value the supply writes in decimal, on a line of its own, is decoded as that value. */
  lemma ProtectionsOfRegisterLine(n: int, post: string)
    requires AllSpace(post)
    ensures ProtectionsOf(Some(Strip(IntText(n) + post))) == DecodeRegister(n)
  {
    var t := IntText(n);
    assert t == NatText(if n < 0 then -n else n) || t == "-" + NatText(-n);
    assert t[|t| - 1] == NatText(if n < 0 then -n else n)[|NatText(if n < 0 then -n else n)| - 1];
    assert [] + t + post == t + post;
    StripPadding([], t, post);
    IntTextRoundTrip(n);
  }

  function PollProtections(link: Link, s: Session): (Session, Protections) {
    var t := Transact(link, s, "STAT:QUES:COND?");
    (t.0, ProtectionsOf(t.1))
  }

  /**
   * A supply that answers the poll with its register in decimal, on a line of
   * its own, is read as that register, on a connection that is kept.
   */
  lemma PollReadsRegister(link: Link, s: Session, n: int, post: string)
    requires Reaches(link, s) && link.Outcome(SendStep(s)) == Some(IntText(n) + post)
    requires AllSpace(post) && IsAscii(post)
    ensures PollProtections(link, s).0.connected
    ensures PollProtections(link, s).1 == DecodeRegister(n)
  {
    var line := IntText(n) + post;
    forall i | 0 <= i < |line| ensures line[i] < '\U{80}' {
      if i < |IntText(n)| && n < 0 && i > 0 {
        assert line[i] == NatText(-n)[i - 1];
      }
    }
    QueryAnswered(link, s, "STAT:QUES:COND?", line);
    ProtectionsOfRegisterLine(n, post);
  }

  // ---------------------------------------------------------------------
  // The driver object
  // ---------------------------------------------------------------------

  class FuenteXLN {
    const link: Link
    var connected: bool
    var tick: nat
    var wire: seq<string>

    function State(): Session
      reads this
    {
      Session(connected, tick, wire)
    }

    constructor (link: Link)
      ensures this.link == link && State() == Session(false, 0, [])
    {
      this.link := link;
      connected := false;
      tick := 0;
      wire := [];
    }

    method Connect() returns (ok: bool)
      modifies this
      ensures (State(), ok) == Open(link, old(State()))
    {
      ok := link.Opens(tick);
      if ok {
        connected := true;
      }
      tick := tick + 1;
    }

    method Disconnect()
      modifies this
      ensures State() == old(State()).(connected := false)
    {
      connected := false;
    }

    method SendCommand(command: string) returns (reply: Option<string>)
      modifies this
      ensures (State(), reply) == Transact(link, old(State()), command)
    {
      if !connected {
        var ok := Connect();
        if !ok {
          return None;
        }
      }
      wire := wire + [Frame(command)];
      var outcome := link.Outcome(tick);
      tick := tick + 1;
      match outcome
      case None =>
        Disconnect();
        reply := None;
      case Some(line) =>
        if !IsQuery(command) {
          reply := Some("OK");
        } else if IsAscii(line) {
          reply := Some(Strip(line));
        } else {
          Disconnect();
          reply := None;
        }
    }

    /** A query whose non-empty reply is converted with `float()`. */
    method QueryReal(command: string) returns (value: Option<real>)
      modifies this
      ensures (State(), value) == Query(link, old(State()), command)
    {
      var result := SendCommand(command);
      if result.Some? && result.value != "" {
        value := ParseDecimal(result.value);
      } else {
        value := None;
      }
    }

    method GetVoltage() returns (v: Option<real>)
      modifies this
      ensures (State(), v) == Query(link, old(State()), "VOLT?")
    {
      v := QueryReal("VOLT?");
    }

    method GetCurrent() returns (i: Option<real>)
      modifies this
      ensures (State(), i) == Query(link, old(State()), "CURR?")
    {
      i := QueryReal("CURR?");
    }

    method MeasureVoltage() returns (v: Option<real>)
      modifies this
      ensures (State(), v) == Query(link, old(State()), "MEAS:VOLT?")
    {
      v := QueryReal("MEAS:VOLT?");
    }

    method MeasureCurrent() returns (i: Option<real>)
      modifies this
      ensures (State(), i) == Query(link, old(State()), "MEAS:CURR?")
    {
      i := QueryReal("MEAS:CURR?");
    }

    method SetVoltage(v: real) returns (ok: bool)
      modifies this
      ensures (State(), ok) == ApplyVoltage(link, old(State()), v)
    {
      if !ValidVoltage(v) {
        return false;
      }
      var result := SendCommand(VoltageCommand(v));
      if result.Some? && result.value != "" {
        var readback := GetVoltage();
        ok := readback.Some? && Abs(readback.value - v) < VoltageTolerance;
      } else {
        ok := false;
      }
    }

    method SetCurrent(i: real) returns (ok: bool)
      modifies this
      ensures (State(), ok) == ApplyCurrent(link, old(State()), i)
    {
      if !ValidCurrent(i) {
        return false;
      }
      var result := SendCommand(CurrentCommand(i));
      if result.Some? && result.value != "" {
        var readback := GetCurrent();
        ok := readback.Some? && Abs(readback.value - i) < CurrentTolerance;
      } else {
        ok := false;
      }
    }

    method OutputOn() returns (ok: bool)
      modifies this
      ensures (State(), ok) == SwitchOutput(link, old(State()), true)
    {
      var result := SendCommand("OUTP ON");
      ok := result.Some? && result.value != "";
    }

    method OutputOff() returns (ok: bool)
      modifies this
      ensures (State(), ok) == SwitchOutput(link, old(State()), false)
    {
      var result := SendCommand("OUTP OFF");
      ok := result.Some? && result.value != "";
    }

    method GetOutputState() returns (on: Option<bool>)
      modifies this
      ensures (State(), on) == ReadOutputState(link, old(State()))
    {
      var result := SendCommand("OUTP?");
      on := OutputStateOf(result);
    }

    method CheckProtections() returns (p: Protections)
      modifies this
      ensures (State(), p) == PollProtections(link, old(State()))
    {
      p := NoProtection;
      var status := SendCommand("STAT:QUES:COND?");
      if status.Some? && status.value != "" {
        var code := ParseInt(status.value);
        if code.None? {
          p := p.(status := Error);
        } else {
          var n := code.value;
          if Bit(n, 0) {
            p := p.(ovp := true, status := OvpActive);
          }
          if Bit(n, 1) {
            p := p.(ocp := true, status := OcpActive);
          }
          if Bit(n, 2) {
            p := p.(opp := true, status := OppActive);
          }
        }
      }
    }

    method ResetProtections() returns (ok: bool)
      modifies this
      ensures (State(), ok) == ClearProtections(link, old(State()))
    {
      var result := SendCommand("*CLS");
      ok := result.Some? && result.value != "";
    }

    method GetIdentification() returns (id: Option<string>)
      modifies this
      ensures (State(), id) == Identify(link, old(State()))
    {
      var result := SendCommand("*IDN?");
      id := if result.Some? && result.value != "" then result else None;
    }
  }
}
