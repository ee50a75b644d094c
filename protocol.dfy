/**
 * The command/response protocol shared by `USBInterface` and
 * `ActuatorInterface`: the command table, the two command modes, how each
 * operation becomes a request, and how each operation reads its one reply.
 * Everything here is pure; the classes in `Interface` and `ActuatorLink`
 * perform the writes and reads and are specified by these functions.
 */
module Protocol {
  import opened Wrappers
  import opened PyText
  import opened FixedPoint
  import opened SerialLink

  // ---------------------------------------------------------------------
  // Tables
  // ---------------------------------------------------------------------

  /** `CommandMode`: every mode other than `HumanReadable` uses the binary branch. */
  datatype CommandMode = HumanReadable | HighSpeedBinary | SimpleFoc
  {
    /** The mode's integer value, as sent by `set_command_mode`. */
    function Value(): (v: int)
      ensures 1 <= v <= 3
      ensures (v == 1) == (this == HumanReadable)
    {
      match this
      case HumanReadable => 1
      case HighSpeedBinary => 2
      case SimpleFoc => 3
    }
  }

  /** `CommandID`: the one-byte command identifiers of the binary protocol. */
  datatype CommandId =
    | SetPositionId | SetVelocityId | SetTorqueId
    | GetPositionId | GetVelocityId | GetTorqueId
    | EnableId | DisableId | HomeId | StopId
    | ResetPositionId | GetCurrentAId | GetCurrentBId | GetCurrentCId
    | CmdModeId | BroadcastId
  {
    function Code(): Byte {
      match this
      case SetPositionId => 0x01
      case SetVelocityId => 0x02
      case SetTorqueId => 0x03
      case GetPositionId => 0x04
      case GetVelocityId => 0x05
      case GetTorqueId => 0x06
      case EnableId => 0x07
      case DisableId => 0x08
      case HomeId => 0x09
      case StopId => 0x0A
      case ResetPositionId => 0x0B
      case GetCurrentAId => 0x0C
      case GetCurrentBId => 0x0D
      case GetCurrentCId => 0x0E
      case CmdModeId => 0xAB
      case BroadcastId => 0xAC
    }
  }

  /** The identifiers `ActuatorInterface`'s own `CommandID` table defines. */
  predicate InReducedTable(id: CommandId) {
    !(id.ResetPositionId? || id.GetCurrentAId? || id.GetCurrentBId? || id.GetCurrentCId?)
  }

  /** `CommandID(code)`: the identifier with a given byte, if any. */
  function IdOfCode(code: Byte): (r: Option<CommandId>)
    ensures r.Some? ==> r.value.Code() == code
  {
    if code == 0x01 then Some(SetPositionId)
    else if code == 0x02 then Some(SetVelocityId)
    else if code == 0x03 then Some(SetTorqueId)
    else if code == 0x04 then Some(GetPositionId)
    else if code == 0x05 then Some(GetVelocityId)
    else if code == 0x06 then Some(GetTorqueId)
    else if code == 0x07 then Some(EnableId)
    else if code == 0x08 then Some(DisableId)
    else if code == 0x09 then Some(HomeId)
    else if code == 0x0A then Some(StopId)
    else if code == 0x0B then Some(ResetPositionId)
    else if code == 0x0C then Some(GetCurrentAId)
    else if code == 0x0D then Some(GetCurrentBId)
    else if code == 0x0E then Some(GetCurrentCId)
    else if code == 0xAB then Some(CmdModeId)
    else if code == 0xAC then Some(BroadcastId)
    else None
  }

  /** The command bytes are distinct: every identifier is found again from its byte. */
  lemma CodesDistinct(id: CommandId)
    ensures IdOfCode(id.Code()) == Some(id)
  {
  }

  // ---------------------------------------------------------------------
  // Values carried by replies
  // ---------------------------------------------------------------------

  /**
   * Python's float text conversions and the IEEE-754 `'>f'` unpacking,
   * left uninterpreted: `float(s)` (`None` for a `ValueError`), `str(x)`
   * and `struct.unpack('>f', b)[0]`.
   */
  datatype Numerals = Numerals(
    parseReal: string -> Option<real>,
    formatReal: real -> string,
    unpackF32: seq<Byte> -> real)

  /**
   * The one fact about Python floats the round-trip lemmas use, at the value
   * `x` they carry: `str(x)` is a single token and `float(str(x)) == x`.
   */
  predicate CoherentAt(num: Numerals, x: real) {
    IsToken(num.formatReal(x)) && num.parseReal(num.formatReal(x)) == Some(x)
  }

  /** A `(P, I, D)` gain triple. */
  datatype Pid = Pid(p: real, i: real, d: real)

  /** The dictionary `get_full_state` returns. */
  datatype FullState = FullState(
    position: real, velocity: real, torque: real,
    temperature: real, busVoltage: real, internalTemperature: real,
    currentA: real, currentB: real, currentC: real)

  /** An exception that escapes an operation instead of a return value. */
  datatype PyError = StructError | AttributeError

  /** The outcome of a call that may raise. */
  datatype Call<T> = Return(value: T) | Raise(error: PyError)

  // ---------------------------------------------------------------------
  // Requests
  // ---------------------------------------------------------------------

  /** The operations, by the request they make. */
  datatype Op =
    | Query(name: string, binaryId: Option<CommandId>) // a bare command; binary only with an identifier
    | SetReal(name: string, id: CommandId, setPoint: real)
    | SetInt(name: string, count: int)                 // human-readable only
    | SetGains(name: string, gains: Pid)               // human-readable only
    | SwitchMode(target: CommandMode)
    | Raw(command: string)                             // `send_command`: always a text line

  /** The human-readable request line, without its `"\n"`. */
  function HumanText(op: Op, num: Numerals): string {
    match op
    case Query(name, _) => name
    case SetReal(name, _, v) => Command(name, [num.formatReal(v)])
    case SetInt(name, n) => Command(name, [FormatInt(n)])
    case SetGains(name, g) => Command(name, [num.formatReal(g.p), num.formatReal(g.i), num.formatReal(g.d)])
    case SwitchMode(target) => Command("cmd_mode", [FormatInt(target.Value())])
    case Raw(command) => command
  }

  /**
   * The binary request: the command byte and its `'>h'` payload. A set-point
   * whose Q8.8 word does not pack raises before anything is written, and the
   * operations without a binary form write nothing.
   */
  function BinaryRequest(op: Op): Request {
    match op
    case Query(_, id) => if id.Some? then PacketRequest([id.value.Code()]) else NoRequest
    case SetReal(_, id, v) =>
      var data := PackI16(Encode(v));
      if data.Some? then PacketRequest([id.Code()] + data.value) else NoRequest
    case SetInt(_, _) => NoRequest
    case SetGains(_, _) => NoRequest
    case SwitchMode(target) => PacketRequest([CmdModeId.Code()] + PackI16(target.Value()).value)
    case Raw(command) => TextRequest(command)
  }

  /** What an operation writes in a given mode. */
  function RequestOf(op: Op, mode: CommandMode, num: Numerals): (r: Request)
    ensures op.Raw? ==> r == TextRequest(op.command)
    ensures mode == HumanReadable ==> r == TextRequest(HumanText(op, num))
    ensures mode != HumanReadable && (op.SetInt? || op.SetGains? || (op.Query? && op.binaryId.None?)) ==> r == NoRequest
    ensures mode != HumanReadable && r.PacketRequest? ==> |r.packet| >= 1
  {
    if op.Raw? then TextRequest(op.command)
    else if mode == HumanReadable then TextRequest(HumanText(op, num))
    else BinaryRequest(op)
  }

  // ---------------------------------------------------------------------
  // Reading a reply
  // ---------------------------------------------------------------------

  /** `response and response.startswith(name + " ")`. */
  predicate Echoes(reply: Option<string>, name: string) {
    reply.Some? && reply.value != "" && StartsWith(reply.value, name + " ")
  }

  /** `response.split(" ", 1)[1]`; `None` for the `IndexError` of a reply without a space. */
  function ValueText(s: string): (r: Option<string>)
    ensures r.Some? <==> ' ' in s
  {
    var parts := SplitSpaceOnce(s);
    if |parts| == 2 then Some(parts[1]) else None
  }

  /** After the prefix `name + " "`, the value text is the rest of the reply. */
  lemma ValueTextAfterName(s: string, name: string)
    requires ' ' !in name
    requires StartsWith(s, name + " ")
    ensures ValueText(s) == Some(s[|name| + 1..])
  {
    SplitAfterPrefix(s, name);
  }

  /** `float(v)` or `int(v)` of the value text, `None` when either step fails. */
  function ParsedValue<T>(s: string, parse: string -> Option<T>): (r: Option<T>)
    ensures r.Some? ==> ' ' in s
  {
    var t := ValueText(s);
    if t.Some? then parse(t.value) else None
  }

  /**
   * The reply of `get_position`/`get_velocity`/`get_torque` in human-readable
   * mode: either `"<name> <v>"` or a bare `"<v>"`.
   */
  function ScalarReply<T>(reply: Option<string>, name: string, parse: string -> Option<T>): (r: Option<T>)
    ensures reply.None? || reply == Some("") ==> r.None?
    ensures r.Some? && !StartsWith(reply.value, name + " ") ==> r == parse(reply.value)
  {
    match reply
    case None => None
    case Some(s) =>
      if s == "" then None
      else if StartsWith(s, name + " ") then ParsedValue(s, parse)
      else parse(s)
  }

  /** Both reply forms are read: `"<name> <t>"` gives `parse(t)` and a bare `s` gives `parse(s)`. */
  lemma ScalarReplyForms<T>(name: string, t: string, s: string, parse: string -> Option<T>)
    requires ' ' !in name
    requires s != "" && !StartsWith(s, name + " ")
    ensures ScalarReply(Some(name + " " + t), name, parse) == parse(t)
    ensures ScalarReply(Some(s), name, parse) == parse(s)
  {
    var e := name + " " + t;
    assert StartsWith(e, name + " ");
    ValueTextAfterName(e, name);
    assert e[|name| + 1..] == t;
  }

  /** A reply that must carry the prefix `name + " "`: temperatures, voltage, currents, integers. */
  function PrefixedReply<T>(reply: Option<string>, name: string, parse: string -> Option<T>): (r: Option<T>)
    ensures !Echoes(reply, name) ==> r.None?
  {
    if Echoes(reply, name) then ParsedValue(reply.value, parse) else None
  }

  /** `"<name> <t>"` gives `parse(t)`. */
  lemma PrefixedReplyOf<T>(name: string, t: string, parse: string -> Option<T>)
    requires ' ' !in name
    ensures PrefixedReply(Some(name + " " + t), name, parse) == parse(t)
  {
    var e := name + " " + t;
    assert StartsWith(e, name + " ");
    ValueTextAfterName(e, name);
    assert e[|name| + 1..] == t;
  }

  /** A `get_downsample` or `get_pole_pairs` reply echoing `str(n)` reads back `n`. */
  lemma PrefixedIntRoundTrip(name: string, n: int)
    requires ' ' !in name
    ensures PrefixedReply(Some(name + " " + FormatInt(n)), name, ParseInt) == Some(n)
  {
    PrefixedReplyOf(name, FormatInt(n), ParseInt);
    ParseFormatInt(n);
  }

  /**
   * The permissive acknowledgement of the scalar setters: a reply that echoes
   * the prefix must carry a parseable value; any other reply, the empty line
   * of a timeout included, is a success. Only a failed exchange is a failure
   * without a reply.
   */
  function EchoAccepts<T>(reply: Option<string>, name: string, parse: string -> Option<T>): (r: bool)
    ensures reply.None? ==> !r
    ensures reply.Some? && !Echoes(reply, name) ==> r
  {
    match reply
    case None => false
    case Some(s) => if Echoes(reply, name) then ParsedValue(s, parse).Some? else true
  }

  /** The failure cases of a permissive setter, exactly. */
  lemma EchoAcceptsFails<T>(reply: Option<string>, name: string, parse: string -> Option<T>)
    requires ' ' !in name
    ensures !EchoAccepts(reply, name, parse) <==>
              reply.None? ||
              (StartsWith(reply.value, name + " ") && parse(reply.value[|name| + 1..]).None?)
  {
    if reply.Some? && StartsWith(reply.value, name + " ") {
      ValueTextAfterName(reply.value, name);
    }
  }

  /** The reply `"set_velocity"` to `set_velocity 1.0`, which carries no value, is accepted. */
  lemma BareEchoAccepted<T>(name: string, parse: string -> Option<T>)
    ensures EchoAccepts(Some(name), name, parse)
  {
    assert !StartsWith(name, name + " ");
  }

  /** `(float(parts[1]), float(parts[2]), float(parts[3]))`, `None` if any fails. */
  function Gains(parts: seq<string>, parse: string -> Option<real>): (r: Option<Pid>)
    requires |parts| >= 4
    ensures r.Some? <==> parse(parts[1]).Some? && parse(parts[2]).Some? && parse(parts[3]).Some?
  {
    var p, i, d := parse(parts[1]), parse(parts[2]), parse(parts[3]);
    if p.Some? && i.Some? && d.Some? then Some(Pid(p.value, i.value, d.value)) else None
  }

  /** The reply of a PID getter: the prefix, then at least four whitespace-separated tokens. */
  function PidReply(reply: Option<string>, name: string, parse: string -> Option<real>): (r: Option<Pid>)
    ensures r.Some? ==> Echoes(reply, name) && |Split(reply.value)| >= 4
  {
    if Echoes(reply, name) then
      var parts := Split(reply.value);
      if |parts| >= 4 then Gains(parts, parse) else None
    else None
  }

  /**
   * The acknowledgement of a PID setter: an echo with four or more tokens must
   * parse; an echo with fewer tokens and every other reply are successes.
   */
  function PidEchoAccepts(reply: Option<string>, name: string, parse: string -> Option<real>): (r: bool)
    ensures reply.None? ==> !r
    ensures !r ==> reply.None? || (Echoes(reply, name) && |Split(reply.value)| >= 4)
  {
    match reply
    case None => false
    case Some(s) =>
      if Echoes(reply, name) then
        var parts := Split(s);
        if |parts| >= 4 then Gains(parts, parse).Some? else true
      else true
  }

  /** The request line of a PID setter, as the board would echo it. */
  function GainsLine(name: string, g: Pid, num: Numerals): string {
    Command(name, [num.formatReal(g.p), num.formatReal(g.i), num.formatReal(g.d)])
  }

  /** An echo of `"<name> P I D"` reads back the same gains and acknowledges the setter. */
  lemma {:induction false} PidRoundTrip(name: string, g: Pid, num: Numerals)
    requires IsToken(name)
    requires CoherentAt(num, g.p) && CoherentAt(num, g.i) && CoherentAt(num, g.d)
    ensures PidReply(Some(GainsLine(name, g, num)), name, num.parseReal) == Some(g)
    ensures PidEchoAccepts(Some(GainsLine(name, g, num)), name, num.parseReal)
  {
    var args := [num.formatReal(g.p), num.formatReal(g.i), num.formatReal(g.d)];
    assert IsToken(args[0]) && IsToken(args[1]) && IsToken(args[2]);
    SplitCommand(name, args);
    CommandStartsWithName(name, args);
    assert num.parseReal(args[0]) == Some(g.p);
    assert num.parseReal(args[1]) == Some(g.i);
    assert num.parseReal(args[2]) == Some(g.d);
  }

  /** An echo with fewer than three values is still an acknowledgement, but no gains. */
  lemma {:induction false} ShortPidEcho(name: string, a: string, b: string, parse: string -> Option<real>)
    requires IsToken(name) && IsToken(a) && IsToken(b)
    ensures PidEchoAccepts(Some(Command(name, [a, b])), name, parse)
    ensures PidReply(Some(Command(name, [a, b])), name, parse) == None
  {
    SplitCommand(name, [a, b]);
  }

  /** The nine values of a `full_state` reply, in order. */
  function StateValues(parts: seq<string>, parse: string -> Option<real>): (r: Option<FullState>)
    requires |parts| >= 10
    ensures r.Some? <==> forall k :: 1 <= k <= 9 ==> parse(parts[k]).Some?
  {
    if forall k :: 1 <= k <= 9 ==> parse(parts[k]).Some? then
      Some(FullState(parse(parts[1]).value, parse(parts[2]).value, parse(parts[3]).value,
                     parse(parts[4]).value, parse(parts[5]).value, parse(parts[6]).value,
                     parse(parts[7]).value, parse(parts[8]).value, parse(parts[9]).value))
    else None
  }

  /** The reply of `get_full_state`: the prefix `"full_state "` and at least ten tokens. */
  function FullStateReply(reply: Option<string>, parse: string -> Option<real>): (r: Option<FullState>)
    ensures r.Some? ==> Echoes(reply, "full_state") && |Split(reply.value)| >= 10
  {
    if Echoes(reply, "full_state") then
      var parts := Split(reply.value);
      if |parts| >= 10 then StateValues(parts, parse) else None
    else None
  }

  /** The fields of a state in reply order. */
  function StateFields(s: FullState): (r: seq<real>)
    ensures |r| == 9
  {
    [s.position, s.velocity, s.torque, s.temperature, s.busVoltage, s.internalTemperature,
     s.currentA, s.currentB, s.currentC]
  }

  /** The nine values of a state as the board formats them. */
  function StateTokens(s: FullState, num: Numerals): (r: seq<string>)
    ensures |r| == 9
    ensures forall k :: 0 <= k < 9 ==> r[k] == num.formatReal(StateFields(s)[k])
  {
    var f := StateFields(s);
    seq(9, k requires 0 <= k < 9 => num.formatReal(f[k]))
  }

  /** A `full_state` line carrying well-formed tokens echoes the prefix and splits back into them. */
  lemma {:induction false} StateLineSplits(args: seq<string>)
    requires args != []
    requires forall k :: 0 <= k < |args| ==> IsToken(args[k])
    ensures Echoes(Some(Command("full_state", args)), "full_state")
    ensures Split(Command("full_state", args)) == ["full_state"] + args
  {
    var name := "full_state";
    forall k | 0 <= k < |name| ensures !IsSpace(name[k]) {
    }
    SplitCommand(name, args);
    CommandStartsWithName("full_state", args);
  }

  /** A `full_state` line carrying nine values reads back the same state. */
  lemma {:induction false} FullStateRoundTrip(s: FullState, num: Numerals)
    requires forall k :: 0 <= k < 9 ==> CoherentAt(num, StateFields(s)[k])
    ensures FullStateReply(Some(Command("full_state", StateTokens(s, num))), num.parseReal) == Some(s)
  {
    var args := StateTokens(s, num);
    var f := StateFields(s);
    forall k | 0 <= k < 9 ensures IsToken(args[k]) && num.parseReal(args[k]) == Some(f[k]) {
      assert args[k] == num.formatReal(f[k]);
    }
    StateLineSplits(args);
    var parts := Split(Command("full_state", args));
    forall k | 1 <= k <= 9 ensures num.parseReal(parts[k]) == Some(f[k - 1]) {
      assert parts[k] == args[k - 1];
    }
    assert StateValues(parts, num.parseReal) == Some(s);
  }

  /** Eight values are not enough. */
  lemma {:induction false} FullStateTooShort(s: FullState, num: Numerals)
    requires forall k :: 0 <= k < 8 ==> CoherentAt(num, StateFields(s)[k])
    ensures FullStateReply(Some(Command("full_state", StateTokens(s, num)[..8])), num.parseReal) == None
  {
    var args := StateTokens(s, num)[..8];
    forall k | 0 <= k < 8 ensures IsToken(args[k]) {
    }
    StateLineSplits(args);
  }

  /** The request's own name is not the reply's prefix: an echo of `get_full_state` is refused. */
  lemma FullStateWrongPrefix(rest: string, parse: string -> Option<real>)
    ensures FullStateReply(Some("get_full_state " + rest), parse) == None
  {
    var g := "get_full_state " + rest;
    assert g[0] == 'g';
  }

  /**
   * The reply of a Q8.8 getter in binary mode: two bytes, `"if response and
   * len(response) >= 2"`, decoded with the corrected unsigned unpack.
   */
  function Q88Reply(reply: Option<seq<Byte>>): (r: Option<real>)
    ensures r.Some? <==> reply.Some? && |reply.value| >= 2
    ensures r.Some? ==> Low <= r.value < 128.0
  {
    if reply.Some? && |reply.value| >= 2 then Some(DecodeReply(reply.value[..2])) else None
  }

  /** The same reply decoded as the source does, with `struct.unpack('>h', ...)`. */
  function Q88ReplyAsWritten(reply: Option<seq<Byte>>): Option<real> {
    if reply.Some? && |reply.value| >= 2 then Some(DecodeSignedReply(reply.value[..2])) else None
  }

  /**
   * The two decodings differ on the reply `FF 80`, but agree on every reply
   * `_send_binary_command` can return, since it reads a single byte.
   */
  lemma Q88Decodings(w: Wire)
    ensures Q88ReplyAsWritten(Some([0xFF, 0x80])) == Some(-256.5)
    ensures Q88Reply(Some([0xFF, 0x80])) == Some(-0.5)
    ensures Q88Reply(w.Binary()) == Q88ReplyAsWritten(w.Binary()) == None
  {
    var b: seq<Byte> := [0xFF, 0x80];
    assert b[..2] == b;
    DecodeSignedReplyWrong();
    assert UnpackU16(b) == 0xFF80;
  }

  /** The reply of a phase-current getter in binary mode: four bytes, `'>f'`. */
  function F32Reply(reply: Option<seq<Byte>>, num: Numerals): (r: Option<real>)
    ensures r.Some? <==> reply.Some? && |reply.value| >= 4
  {
    if reply.Some? && |reply.value| >= 4 then Some(num.unpackF32(reply.value[..4])) else None
  }

  // ---------------------------------------------------------------------
  // Results of whole operations, from the mode and the wire
  // ---------------------------------------------------------------------

  /** `get_position`, `get_velocity`, `get_torque`. */
  function GetScalar(mode: CommandMode, w: Wire, name: string, num: Numerals): (r: Option<real>)
    ensures !w.up ==> r.None?
    ensures mode != HumanReadable ==> r.None?
    ensures r.Some? ==> w.line.Some? && Strip(w.line.value) != ""
  {
    if mode == HumanReadable then ScalarReply(w.Human(), name, num.parseReal) else Q88Reply(w.Binary())
  }

  /** `get_temperature`, `get_bus_voltage`, `get_internal_temperature`: human-readable only. */
  function GetPrefixed(mode: CommandMode, w: Wire, name: string, num: Numerals): (r: Option<real>)
    ensures !w.up || mode != HumanReadable ==> r.None?
    ensures r.Some? ==> Echoes(w.Human(), name)
  {
    if mode == HumanReadable then PrefixedReply(w.Human(), name, num.parseReal) else None
  }

  /** `get_current_a/b/c`: a prefixed text reply, or four `'>f'` bytes that never arrive. */
  function GetCurrent(mode: CommandMode, w: Wire, name: string, num: Numerals): (r: Option<real>)
    ensures !w.up || mode != HumanReadable ==> r.None?
    ensures r.Some? ==> Echoes(w.Human(), name)
  {
    if mode == HumanReadable then PrefixedReply(w.Human(), name, num.parseReal) else F32Reply(w.Binary(), num)
  }

  /** `get_downsample`, `get_pole_pairs`: human-readable only, parsed with `int()`. */
  function GetCount(mode: CommandMode, w: Wire, name: string): (r: Option<int>)
    ensures !w.up || mode != HumanReadable ==> r.None?
    ensures r.Some? ==> Echoes(w.Human(), name)
  {
    if mode == HumanReadable then PrefixedReply(w.Human(), name, ParseInt) else None
  }

  /**
   * `set_position`, `set_velocity`, `set_torque` and `set_broadcast_frequency`.
   * In binary mode the `'>h'` pack of the Q8.8 word raises for every value at
   * or below -1/256, whether or not the link is up.
   */
  function SetScalar(mode: CommandMode, w: Wire, name: string, value: real, num: Numerals): (r: Call<bool>)
    ensures r.Raise? <==> mode != HumanReadable && value <= -1.0 / 256.0
    ensures r.Raise? ==> r.error == StructError
    ensures !w.up ==> r != Return(true)
    ensures mode == HumanReadable && w.up && w.line == Some("") ==> r == Return(true)
    ensures mode != HumanReadable && r.Return? ==> r.value == w.Binary().Some?
  {
    PackEncodeRaises(value);
    if mode == HumanReadable then Return(EchoAccepts(w.Human(), name, num.parseReal))
    else if PackI16(Encode(value)).None? then Raise(StructError)
    else Return(w.Binary().Some?)
  }

  /** `set_downsample`, `set_pole_pairs`: human-readable only, echo parsed with `int()`. */
  function SetCount(mode: CommandMode, w: Wire, name: string): (r: bool)
    ensures !w.up || mode != HumanReadable ==> !r
    ensures mode == HumanReadable && w.line.Some? && !Echoes(w.Human(), name) ==> r == w.up
  {
    mode == HumanReadable && EchoAccepts(w.Human(), name, ParseInt)
  }

  /** `get_velocity_pid`, `get_angle_pid`, `get_current_pid`: human-readable only. */
  function GetGains(mode: CommandMode, w: Wire, name: string, num: Numerals): (r: Option<Pid>)
    ensures !w.up || mode != HumanReadable ==> r.None?
    ensures r.Some? ==> Echoes(w.Human(), name) && |Split(w.Human().value)| >= 4
  {
    if mode == HumanReadable then PidReply(w.Human(), name, num.parseReal) else None
  }

  /** `set_velocity_pid`, `set_angle_pid`, `set_current_pid`: human-readable only. */
  function SetGainsResult(mode: CommandMode, w: Wire, name: string, num: Numerals): (r: bool)
    ensures !w.up || mode != HumanReadable ==> !r
    ensures mode == HumanReadable && w.up && w.line.Some? && !Echoes(w.Human(), name) ==> r
  {
    mode == HumanReadable && PidEchoAccepts(w.Human(), name, num.parseReal)
  }

  /**
   * `enable`, `disable`, `reset_position` and `save_config`: the stripped
   * reply must be the command name itself. In binary mode any reply to the
   * command byte is a success; without a binary form the result is false.
   */
  function ExactAck(mode: CommandMode, w: Wire, name: string, id: Option<CommandId>): (r: bool)
    ensures !w.up ==> !r
    ensures mode == HumanReadable ==> (r <==> w.line.Some? && Strip(w.line.value) == name && w.up)
    ensures mode != HumanReadable ==> (r <==> id.Some? && w.up && w.chunk.Some?)
  {
    if mode == HumanReadable then w.Human() == Some(name) else id.Some? && w.Binary().Some?
  }

  /** `home`, `stop`, `recalibrate_sensors` and `set_command_mode`: any reply is a success. */
  function AnyAck(mode: CommandMode, w: Wire, id: Option<CommandId>): (r: bool)
    ensures r <==> w.up && (if mode == HumanReadable then w.line.Some? else id.Some? && w.chunk.Some?)
  {
    if mode == HumanReadable then w.Human().Some? else id.Some? && w.Binary().Some?
  }

  /** `get_full_state`: human-readable only. */
  function GetState(mode: CommandMode, w: Wire, num: Numerals): (r: Option<FullState>)
    ensures !w.up || mode != HumanReadable ==> r.None?
    ensures r.Some? ==> Echoes(w.Human(), "full_state")
  {
    if mode == HumanReadable then FullStateReply(w.Human(), num.parseReal) else None
  }

  /** The mode after `set_command_mode(target)`: switched only when the board replied. */
  function ModeAfterSwitch(mode: CommandMode, w: Wire, target: CommandMode): (m: CommandMode)
    ensures AnyAck(mode, w, Some(CmdModeId)) ==> m == target
    ensures !AnyAck(mode, w, Some(CmdModeId)) ==> m == mode
  {
    if AnyAck(mode, w, Some(CmdModeId)) then target else mode
  }

  // ---------------------------------------------------------------------
  // Requests and replies together
  // ---------------------------------------------------------------------

  /**
   * A binary set-point that packs writes its command byte and the two bytes
   * of its Q8.8 word; a board decoding them reads back `decode(encode(v))`.
   */
  lemma SetPointPacket(name: string, id: CommandId, v: real, mode: CommandMode, num: Numerals)
    requires mode != HumanReadable
    requires v > -1.0 / 256.0
    ensures RequestOf(SetReal(name, id, v), mode, num) == PacketRequest([id.Code()] + WordBytes(Encode(v)))
    ensures DecodeReply(WordBytes(Encode(v))) == Decode(Encode(v))
  {
    PackEncodeRaises(v);
    EncodeSigned(v);
    DecodeReplyRoundTrip(Encode(v));
  }

  /** A binary set-point at or below -1/256 raises before any byte is written. */
  lemma SetPointRaises(name: string, id: CommandId, v: real, mode: CommandMode, w: Wire, num: Numerals)
    requires mode != HumanReadable
    requires v <= -1.0 / 256.0
    ensures RequestOf(SetReal(name, id, v), mode, num) == NoRequest
    ensures SetScalar(mode, w, name, v, num) == Raise(StructError)
  {
    PackEncodeRaises(v);
  }

  /** `set_command_mode` writes `cmd_mode <n>` as text, or `AB 00 <n>` in binary mode. */
  lemma SwitchModeRequest(mode: CommandMode, target: CommandMode, num: Numerals)
    ensures mode == HumanReadable ==>
              RequestOf(SwitchMode(target), mode, num) == TextRequest("cmd_mode " + FormatInt(target.Value()))
    ensures mode != HumanReadable ==>
              RequestOf(SwitchMode(target), mode, num) == PacketRequest([0xAB, 0x00, target.Value() as Byte])
  {
    var v := target.Value();
    CommandOfOne("cmd_mode", FormatInt(v));
    assert Mask16(v) == v;
    assert WordBytes(v) == [0, v];
  }

  /**
   * A board that echoes every human-readable set-point acknowledges it, and
   * the echoed text splits back into the name and the formatted value.
   */
  lemma SetPointEcho(name: string, id: CommandId, v: real, w: Wire, num: Numerals)
    requires IsToken(name)
    requires CoherentAt(num, v)
    requires w.up && w.line == Some(HumanText(SetReal(name, id, v), num) + "\r\n")
    ensures SetScalar(HumanReadable, w, name, v, num) == Return(true)
    ensures Split(w.Human().value) == [name, num.formatReal(v)]
  {
    var t := num.formatReal(v);
    assert IsToken(t) && num.parseReal(t) == Some(v);
    EchoedLine(name, [t], w);
    OneValueEcho(name, t, num.parseReal);
  }

  /** The reply to a line the board echoes with `"\r\n"` is the line itself. */
  lemma EchoedLine(name: string, args: seq<string>, w: Wire)
    requires IsToken(name)
    requires forall k :: 0 <= k < |args| ==> IsToken(args[k])
    requires w.up && w.line == Some(Command(name, args) + "\r\n")
    ensures w.Human() == Some(Command(name, args))
  {
    CommandUnbordered(name, args);
    StripLine(Command(name, args), "\r\n");
  }

  /** The echo `"<name> <t>"` splits into its two tokens and acknowledges a setter when `t` parses. */
  lemma OneValueEcho<T>(name: string, t: string, parse: string -> Option<T>)
    requires IsToken(name) && IsToken(t)
    ensures Split(Command(name, [t])) == [name, t]
    ensures EchoAccepts(Some(Command(name, [t])), name, parse) == parse(t).Some?
  {
    SplitCommand(name, [t]);
    var c := Command(name, [t]);
    CommandOfOne(name, t);
    NameHasNoBlank(name);
    CommandStartsWithName(name, [t]);
    assert Echoes(Some(c), name);
    ValueTextAfterName(c, name);
    assert c[|name| + 1..] == t;
    assert ParsedValue(c, parse) == parse(t);
  }

  /** A token holds no `' '`. */
  lemma NameHasNoBlank(name: string)
    requires IsToken(name)
    ensures ' ' !in name
  {
    forall k | 0 <= k < |name| ensures name[k] != ' ' {
      assert !IsSpace(name[k]);
    }
  }

  /**
   * Set, then get: a board that echoes the PID request acknowledges the
   * setter, and a later `get_*_pid` reply carrying the same gains reads them
   * back.
   */
  lemma SetGainsEcho(setName: string, getName: string, g: Pid, w: Wire, w': Wire, num: Numerals)
    requires IsToken(setName) && IsToken(getName)
    requires CoherentAt(num, g.p) && CoherentAt(num, g.i) && CoherentAt(num, g.d)
    requires w.up && w.line == Some(GainsLine(setName, g, num) + "\r\n")
    requires w'.up && w'.line == Some(GainsLine(getName, g, num) + "\r\n")
    ensures SetGainsResult(HumanReadable, w, setName, num)
    ensures GetGains(HumanReadable, w', getName, num) == Some(g)
  {
    var args := [num.formatReal(g.p), num.formatReal(g.i), num.formatReal(g.d)];
    assert IsToken(args[0]) && IsToken(args[1]) && IsToken(args[2]);
    EchoedLine(setName, args, w);
    EchoedLine(getName, args, w');
    PidRoundTrip(setName, g, num);
    PidRoundTrip(getName, g, num);
  }

  /**
   * Set, then get: a board that echoes `"<set name> n"` acknowledges the
   * integer setter, and a later `"<get name> n"` reply reads back `n`.
   */
  lemma SetCountEcho(setName: string, getName: string, n: int, w: Wire, w': Wire)
    requires IsToken(setName) && IsToken(getName)
    requires w.up && w.line == Some(Command(setName, [FormatInt(n)]) + "\r\n")
    requires w'.up && w'.line == Some(Command(getName, [FormatInt(n)]) + "\r\n")
    ensures SetCount(HumanReadable, w, setName)
    ensures GetCount(HumanReadable, w', getName) == Some(n)
  {
    var t := FormatInt(n);
    EchoedLine(setName, [t], w);
    EchoedLine(getName, [t], w');
    ParseFormatInt(n);
    OneValueEcho(setName, t, ParseInt);
    CommandOfOne(getName, t);
    NameHasNoBlank(getName);
    PrefixedIntRoundTrip(getName, n);
  }
}
