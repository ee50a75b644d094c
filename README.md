# Open Actuator serial client, modelled in Dafny

This project models the host side of the Open Actuator board protocol:
`USBInterface` (the serial client of the board), the older
`ActuatorInterface` with its reduced command table, and the `ACBv2`
actuator, which wraps a `USBInterface` and caches the last value it read or
set. `Actuator.connect`, `disconnect` and `send_command` are modelled as
`ACBv2`'s delegations.

Structure:

- `wrappers.dfy` — `Option` and the `Byte` type of Python `bytes`.
- `pytext.dfy` — the Python string and integer operations the parsers use:
  `str.strip`, `split(" ", 1)`, `split()`, `startswith`, `int(s)` and
  `str(n)`. The lemmas prove `int(str(n)) == n`, that request lines built
  with f-strings split back into their tokens, and that an echoed line loses
  only its `\r\n` to `strip()`.
- `fixedpoint.dfy` — the Q8.8 codec `_float_to_q88` / `_q88_to_float` and the
  `'>h'` / `'>H'` packing, with the round-trip, saturation and error bounds
  of the codec, and the exact condition under which `struct.pack('>h', ...)`
  of an encoded set-point raises.
- `seriallink.dfy` — the serial port: a `Port` class whose replies are
  scripted queues (`None` for a `SerialException` or a decode error, an
  exhausted queue for a timeout) and whose writes are logged. `Exchange`
  states what one request does to the port.
- `protocol.dfy` — the command table, the modes, the request each operation
  writes in each mode, and how each operation reads its reply, as pure
  functions of the mode and of the reply waiting on the wire. The lemmas
  relate requests to the replies a board echoing them gives.
- `interface.dfy`, `actuator_interface.dfy` — the two client classes. Every
  operation's result equals the protocol function of the mode and the
  waiting reply, and the port goes through exactly the exchange that
  operation makes (`Did`).
- `actuators.dfy` — `ACBv2`: each method returns the interface's result,
  changes its cache exactly as the source does, and leaves the port in the
  state the interface's exchange leaves it in.

Float conversions (`float(s)`, `str(x)`, `struct.unpack('>f', ...)`) are
parameters (`Numerals`); each round-trip lemma assumes, only at the values
it carries, that `str(x)` is one token and `float(str(x)) == x`
(`CoherentAt`). The serial port's
outcomes are the `Port`'s scripted queues and the `opens` parameter of
`Connect`.

Where the protocol's description and the code differ, the model follows the
code:

- A bare echo such as `set_velocity` with no value is a success: only a
  prefixed echo whose value does not parse, or no reply at all, makes a
  scalar setter fail. The empty line of a read timeout is a success too.
- `ACBv2` caches neither the position, velocity and torque set-points nor
  anything after `home`, `stop`, `save_config` or `recalibrate_sensors`.
- `_send_binary_command` reads a single byte, so every binary getter
  returns `None`, and binary set-points succeed on any read that does not
  fail, the empty read of a timeout included.
- Operations without a binary form do no I/O in binary mode; every mode
  other than human-readable takes the binary branch.
- `set_command_mode` sends in the current mode and switches only when a
  reply came back.
- `get_full_state` sends `get_full_state` but only accepts a reply that
  starts with `full_state `.
- There are no typed error classes and no telemetry demultiplexer in the
  code: failures are `None`/`False`, and the escaping exceptions are
  `struct.error` from packing a set-point and `AttributeError` from
  `ACBv2.set_broadcast_frequency`.

## Model

| member | source | states |
|---|---|---|
| Wrappers.MapOption | src/open_actuator/interface.py:210 | maps a present value through the function and keeps `None` |
| PyText.LeadingSpaces | src/open_actuator/interface.py:210 | counts exactly the whitespace run at the start of a line, as `str.strip` removes it |
| PyText.TrailingSpaces | src/open_actuator/interface.py:210 | counts exactly the whitespace run at the end of a line |
| PyText.Strip | src/open_actuator/interface.py:210 | `strip()` keeps one contiguous slice; everything outside it is whitespace and the slice has no whitespace border |
| PyText.StripUnbordered | src/open_actuator/interface.py:210 | a line without a whitespace border is unchanged by `strip()` |
| PyText.StripIdempotent | src/open_actuator/interface.py:210 | `strip()` is idempotent |
| PyText.StripEmpty | src/open_actuator/interface.py:210 | a stripped reply is empty exactly when the line was all whitespace (the timeout case) |
| PyText.StripLine | src/open_actuator/interface.py:210 | stripping the `\r\n` of an echoed line gives back the request line |
| PyText.IndexOfSpace | src/open_actuator/interface.py:258 | finds the first `' '`, or the end of the text when there is none |
| PyText.SplitSpaceOnce | src/open_actuator/interface.py:258 | `split(" ", 1)` gives two parts exactly when the text holds a space, and they rebuild the text around that first space |
| PyText.SplitAfterPrefix | src/open_actuator/interface.py:256-258 | after the prefix `name + " "`, the second part of `split(" ", 1)` is the rest of the reply |
| PyText.TokenLength | src/open_actuator/interface.py:512 | measures the leading run of non-whitespace characters |
| PyText.Split | src/open_actuator/interface.py:512 | `split()` yields non-empty parts without whitespace |
| PyText.LeadingSpacesOfToken | src/open_actuator/interface.py:512 | a line starting with a non-whitespace character has no leading blanks to skip |
| PyText.TokenLengthOfPrefix | src/open_actuator/interface.py:512 | a token followed by whitespace or nothing is exactly the first run |
| PyText.SplitToken | src/open_actuator/interface.py:512 | `split()` of a token followed by whitespace puts the token first, then splits the rest |
| PyText.SplitSkipsSpace | src/open_actuator/interface.py:512 | `split()` ignores a single leading blank |
| PyText.SplitSpacedToken | src/open_actuator/interface.py:512 | `split()` of a blank, a token and a blank-led rest gives the token then the rest's parts |
| PyText.SplitArgs | src/open_actuator/interface.py:538 | the arguments an f-string joins with blanks are split back into exactly the same tokens |
| PyText.SplitCommand | src/open_actuator/interface.py:538-542 | a request line `f"{{name}} {{a}} ..."` built from tokens splits back into its name and arguments |
| PyText.ArgsShape | src/open_actuator/interface.py:538 | the argument text is empty exactly for no arguments and otherwise starts with a blank |
| PyText.CommandOfOne | src/open_actuator/interface.py:334 | a one-argument request line is `name + " " + arg` |
| PyText.CommandStartsWithName | src/open_actuator/interface.py:337 | a request line with arguments starts with `name + " "`, the prefix the parsers test |
| PyText.ArgsEnd | src/open_actuator/interface.py:538 | an argument text built from tokens ends in a non-whitespace character |
| PyText.CommandUnbordered | src/open_actuator/interface.py:538 | a request line built from tokens has no whitespace border, so an echo of it survives `strip()` |
| PyText.DigitChar | src/open_actuator/interface.py:710 | a digit below ten is the ASCII digit of that value |
| PyText.DecimalDigits | src/open_actuator/interface.py:710 | `str(n)` of a natural number is non-empty, all digits and free of leading zeros |
| PyText.FormatInt | src/open_actuator/interface.py:710 | `str(n)` of an integer is a single token |
| PyText.ParseInt | src/open_actuator/interface.py:691 | `int(s)` succeeds only on text that is not blank |
| PyText.DigitsValueOfDecimal | src/open_actuator/interface.py:710-714 | the digits of `str(n)` are accepted by `int()` and carry the value `n` |
| PyText.ParseFormatInt | src/open_actuator/interface.py:710-714 | `int(str(n)) == n` for every integer |
| FixedPoint.Clamp | src/open_actuator/interface.py:170-171 | `max(-128.0, min(127.996, v))` lies in the range, keeps values inside it and saturates outside |
| FixedPoint.Trunc | src/open_actuator/interface.py:172 | `int(x)` truncates toward zero |
| FixedPoint.Mask16 | src/open_actuator/interface.py:172 | `& 0xFFFF` keeps 16 bits: non-negative words unchanged, negative 16-bit values plus 0x10000 |
| FixedPoint.Encode | src/open_actuator/interface.py:160-172 | `_float_to_q88` yields a 16-bit word |
| FixedPoint.Decode | src/open_actuator/interface.py:174-187 | `_q88_to_float` reads words below 0x8000 as positive and the rest as negative, within -128 .. 128 |
| FixedPoint.EncodeSaturates | src/open_actuator/interface.py:170-172 | values at or above 127.996 encode to 0x7FFE, at or below -128 to 0x8000 |
| FixedPoint.HalfBelowZero | src/open_actuator/interface.py:160-187 | `encode(-0.5) == 0xFF80` and `decode(0xFF80) == -0.5` |
| FixedPoint.EncodeClamps | src/open_actuator/interface.py:170-172 | encoding clamps first: `encode(v) == encode(clamp(v))` |
| FixedPoint.EncodeSigned | src/open_actuator/interface.py:160-187 | the word carries `int(clamp(v) * 256)` and decodes back to it over 256 |
| FixedPoint.RoundTripGrid | src/open_actuator/interface.py:160-187 | every multiple of 1/256 from -128 to 127.9921875 survives encode then decode |
| FixedPoint.RoundTripFailsAtTop | src/open_actuator/interface.py:170-172 | 127.99609375 does not survive: the clamp to 127.996 brings it back by 1/256 |
| FixedPoint.RoundTripError | src/open_actuator/interface.py:160-187 | inside the range a round trip truncates toward zero and loses less than 1/256 |
| FixedPoint.WordBytes | src/open_actuator/interface.py:346 | a 16-bit word is two big-endian bytes |
| FixedPoint.PackI16 | src/open_actuator/interface.py:346 | `struct.pack('>h', x)` succeeds exactly on -32768 .. 32767, with two bytes |
| FixedPoint.PackU16 | src/open_actuator/interface.py:346 | `struct.pack('>H', w)` succeeds exactly on 0 .. 0xFFFF |
| FixedPoint.UnpackU16 | src/open_actuator/interface.py:267 | `struct.unpack('>H', b)` yields a 16-bit word |
| FixedPoint.UnpackI16 | src/open_actuator/interface.py:267 | `struct.unpack('>h', b)` yields a signed 16-bit value |
| FixedPoint.UnpackWordBytes | src/open_actuator/interface.py:267 | unpacking the two bytes of a word gives the word back |
| FixedPoint.PackI16RoundTrip | src/open_actuator/interface.py:267 | `unpack('>h', pack('>h', x)) == x` |
| FixedPoint.PackEncodeRaises | src/open_actuator/interface.py:346 | `struct.pack('>h', _float_to_q88(v))` raises exactly when `v <= -1/256` |
| FixedPoint.DecodeSignedReplyWrong | src/open_actuator/interface.py:265-268 | the reply FF 80, which carries -0.5, decodes to -256.5 as written |
| FixedPoint.DecodeReplyRoundTrip | src/open_actuator/interface.py:265-268 | the corrected decoding of the two bytes of any word is that word's Q8.8 value |
| SerialLink.NextLine | src/open_actuator/interface.py:210 | `readline()` gives the head of the line queue, or the empty line of a timeout |
| SerialLink.AfterLine | src/open_actuator/interface.py:210 | one `readline()` consumes one queued line |
| SerialLink.NextChunk | src/open_actuator/interface.py:235 | `read(n)` sees the head arrival, or no bytes on a timeout |
| SerialLink.Take | src/open_actuator/interface.py:235 | `read(n)` returns at most `n` bytes, a prefix of what arrived, and exactly `n` when enough arrived |
| SerialLink.AfterRead | src/open_actuator/interface.py:235 | bytes beyond the ones read stay at the head of the queue |
| SerialLink.Wire.Human | src/open_actuator/interface.py:189-213 | `_send_human_command` is `None` when not connected or the read fails, otherwise the stripped line |
| SerialLink.Wire.Binary | src/open_actuator/interface.py:215-239 | `_send_binary_command` is `None` when not connected or the read fails, otherwise at most one byte |
| SerialLink.WireOf | src/open_actuator/interface.py:198-200 | the link is up exactly when connected with a port object |
| SerialLink.Exchange | src/open_actuator/interface.py:189-239 | a link that is down writes and reads nothing; otherwise the request is logged and one line or one `read(1)` is consumed |
| SerialLink.Port.constructor | src/open_actuator/interface.py:132-137 | a new port is closed and holds its scripted replies |
| SerialLink.Port.Open | src/open_actuator/interface.py:132-137 | opening sets only the open flag |
| SerialLink.Port.Close | src/open_actuator/interface.py:156-157 | closing clears only the open flag |
| SerialLink.Port.Write | src/open_actuator/interface.py:203-204 | a write appends the frame to the log and changes nothing else |
| SerialLink.Port.ReadLine | src/open_actuator/interface.py:210 | returns the next line outcome and consumes it |
| SerialLink.Port.Read | src/open_actuator/interface.py:235 | returns `read(n)` of the next arrival and consumes what it read |
| Protocol.CommandMode.Value | src/open_actuator/interface.py:29-33 | the mode values are 1, 2, 3 and only HUMAN_READABLE is 1 |
| Protocol.IdOfCode | src/open_actuator/interface.py:9-26 | maps a byte to the identifier with that code, if any |
| Protocol.CodesDistinct | src/open_actuator/interface.py:9-26 | the command bytes are distinct: each identifier is found again from its byte |
| Protocol.RequestOf | src/open_actuator/interface.py:189-239 | `send_command` is always text; human-readable mode sends the text line; binary mode sends nothing for operations without a binary form, otherwise a packet led by the command byte |
| Protocol.ValueText | src/open_actuator/interface.py:258 | `split(" ", 1)[1]` exists exactly when the reply holds a space |
| Protocol.ValueTextAfterName | src/open_actuator/interface.py:256-258 | after the prefix, the value text is the rest of the reply |
| Protocol.ParsedValue | src/open_actuator/interface.py:258-259 | a parsed value needs a space in the reply, else the `IndexError` gives `None` |
| Protocol.ScalarReply | src/open_actuator/interface.py:252-264 | no reply or an empty reply is `None`; a reply without the prefix is parsed whole |
| Protocol.ScalarReplyForms | src/open_actuator/interface.py:256-261 | both reply forms are read: `"<name> <t>"` gives `float(t)`, a bare `s` gives `float(s)` |
| Protocol.PrefixedReply | src/open_actuator/interface.py:732-741 | a reply without the prefix `name + " "` is `None` |
| Protocol.PrefixedReplyOf | src/open_actuator/interface.py:732-736 | `"<name> <t>"` gives `parse(t)` |
| Protocol.PrefixedIntRoundTrip | src/open_actuator/interface.py:688-691 | a `get_downsample` reply echoing `str(n)` reads back `n` |
| Protocol.EchoAccepts | src/open_actuator/interface.py:336-344 | a failed exchange is a failure; a reply without the prefix, the empty timeout line included, is a success |
| Protocol.EchoAcceptsFails | src/open_actuator/interface.py:336-344 | a scalar setter fails exactly when there is no reply, or the echo has the prefix and its value does not parse |
| Protocol.BareEchoAccepted | src/open_actuator/interface.py:336-344 | a bare `set_velocity` echo, with no value, is a success |
| Protocol.Gains | src/open_actuator/interface.py:512-518 | the triple exists exactly when all three of `parts[1..3]` parse |
| Protocol.PidReply | src/open_actuator/interface.py:505-521 | gains are read only from a prefixed echo with at least four tokens |
| Protocol.PidEchoAccepts | src/open_actuator/interface.py:538-551 | a PID setter fails only without a reply or on a prefixed echo of four or more tokens that does not parse |
| Protocol.PidRoundTrip | src/open_actuator/interface.py:500-553 | for gains whose `str` text parses back, the echo `"<name> p i d"` is an acknowledgement and reads back the same gains |
| Protocol.ShortPidEcho | src/open_actuator/interface.py:538-551 | an echo with fewer than three values is still a success but yields no gains |
| Protocol.StateValues | src/open_actuator/interface.py:927-937 | the state exists exactly when all nine values parse |
| Protocol.FullStateReply | src/open_actuator/interface.py:913-943 | a state is read only from a reply starting `full_state ` with at least ten tokens |
| Protocol.StateTokens | src/open_actuator/interface.py:927-937 | the nine formatted values of a state, in reply order |
| Protocol.StateLineSplits | src/open_actuator/interface.py:922-925 | a `full_state` line of tokens passes the prefix test and splits into the prefix and the tokens |
| Protocol.FullStateRoundTrip | src/open_actuator/interface.py:913-943 | for values whose `str` text parses back, a `full_state` line carrying the nine values reads back the same state |
| Protocol.FullStateTooShort | src/open_actuator/interface.py:925-926 | a `full_state` line with only eight well-formed values gives no state |
| Protocol.FullStateWrongPrefix | src/open_actuator/interface.py:921-922 | an echo of the request name `get_full_state` is refused |
| Protocol.Q88Reply | src/open_actuator/interface.py:265-268 | a binary getter needs two reply bytes; the corrected decode lies in -128 .. 128 |
| Protocol.Q88Decodings | src/open_actuator/interface.py:265-268 | FF 80 decodes to -256.5 as written and -0.5 corrected; on the one-byte replies `read(1)` delivers both give `None` |
| Protocol.F32Reply | src/open_actuator/interface.py:800-803 | a binary phase current needs four reply bytes |
| Protocol.GetScalar | src/open_actuator/interface.py:245-269 | `None` when the link is down and in binary mode (the reply is one byte); a value needs a non-blank line |
| Protocol.GetPrefixed | src/open_actuator/interface.py:723-741 | `None` when the link is down or in binary mode; a value needs the prefixed echo |
| Protocol.GetCurrent | src/open_actuator/interface.py:783-804 | `None` when the link is down or in binary mode; a value needs the prefixed echo |
| Protocol.GetCount | src/open_actuator/interface.py:679-697 | `None` when the link is down or in binary mode; a value needs the prefixed echo |
| Protocol.SetScalar | src/open_actuator/interface.py:323-348 | raises `struct.error` exactly in binary mode for values at or below -1/256, even unconnected; never True when the link is down; the empty timeout line is True; binary success is any reply |
| Protocol.SetCount | src/open_actuator/interface.py:699-721 | False when the link is down or in binary mode; any reply without the prefix is True |
| Protocol.GetGains | src/open_actuator/interface.py:500-523 | `None` when the link is down or in binary mode; gains need a prefixed echo of four tokens |
| Protocol.SetGainsResult | src/open_actuator/interface.py:525-553 | False when the link is down or in binary mode; a reply without the prefix is True |
| Protocol.ExactAck | src/open_actuator/interface.py:404-417 | human-readable success exactly when the stripped reply equals the name; binary success exactly when there is a command byte and a reply |
| Protocol.AnyAck | src/open_actuator/interface.py:434-446 | success exactly when the link is up and a reply arrives (binary: only for operations with a command byte) |
| Protocol.GetState | src/open_actuator/interface.py:913-943 | `None` when the link is down or in binary mode; a state needs the `full_state ` prefix |
| Protocol.ModeAfterSwitch | src/open_actuator/interface.py:477-497 | the mode becomes the target exactly when the switch was acknowledged, else it stays |
| Protocol.SetPointPacket | src/open_actuator/interface.py:372-375 | a binary set-point writes its byte and the two bytes of its Q8.8 word, which decode to `decode(encode(v))` |
| Protocol.SetPointRaises | src/open_actuator/interface.py:372-375 | a binary set-point at or below -1/256 raises and writes nothing |
| Protocol.SwitchModeRequest | src/open_actuator/interface.py:487-494 | `set_command_mode` writes `cmd_mode <n>`, or the packet AB 00 n |
| Protocol.SetPointEcho | src/open_actuator/interface.py:350-375 | for a value whose `str` text parses back, an echoed set-point is acknowledged and splits into the name and the value |
| Protocol.EchoedLine | src/open_actuator/interface.py:203-210 | the reply to a request line echoed with `\r\n` is the request line itself |
| Protocol.OneValueEcho | src/open_actuator/interface.py:336-344 | an echo `"<name> <t>"` splits into two tokens and acknowledges the setter exactly when `t` parses |
| Protocol.NameHasNoBlank | src/open_actuator/interface.py:258 | a command name holds no `' '` |
| Protocol.SetGainsEcho | src/open_actuator/interface.py:500-553 | set then get: the setter's echo `set_X_pid p i d` is an acknowledgement, and a later `get_X_pid p i d` reply makes the getter return the same gains |
| Protocol.SetCountEcho | src/open_actuator/interface.py:679-721 | set then get: the echo `set_downsample n` acknowledges the setter, and a later `get_downsample n` reply makes the getter return `n` |
| Interface.UsbInterface.constructor | src/open_actuator/interface.py:113-127 | a new interface is disconnected, has no port object, is in human-readable mode and keeps the given port name, baud rate (default 2000000) and timeout (default 1.0) |
| Interface.UsbInterface.Connect | src/open_actuator/interface.py:129-152 | returns whether the port opened; on success the port is open and `connected` is set, on failure `connected` is cleared and the old port kept; the mode is unchanged |
| Interface.UsbInterface.Disconnect | src/open_actuator/interface.py:154-158 | closes the port if there is one and clears `connected`; nothing else changes |
| Interface.UsbInterface.SendHuman | src/open_actuator/interface.py:189-213 | the result is the stripped next line; the port sees exactly one text exchange, or none when not connected |
| Interface.UsbInterface.SendBinary | src/open_actuator/interface.py:215-239 | the result is `read(1)` of the next arrival; the port sees exactly one packet exchange, or none when not connected |
| Interface.UsbInterface.SendCommand | src/open_actuator/interface.py:241-243 | sends the raw line in any mode and returns the stripped reply |
| Interface.UsbInterface.GetPosition | src/open_actuator/interface.py:245-269 | result is `GetScalar` of the mode and the waiting reply; the port sees exactly the request of the mode |
| Interface.UsbInterface.GetVelocity | src/open_actuator/interface.py:271-295 | as `get_position`, for `get_velocity` |
| Interface.UsbInterface.GetTorque | src/open_actuator/interface.py:297-321 | as `get_position`, for `get_torque` |
| Interface.UsbInterface.SetPosition | src/open_actuator/interface.py:323-348 | result is `SetScalar`, raising `struct.error` in binary mode at or below -1/256; exactly the request of the mode is written |
| Interface.UsbInterface.SetVelocity | src/open_actuator/interface.py:350-375 | as `set_position`, for `set_velocity` |
| Interface.UsbInterface.SetTorque | src/open_actuator/interface.py:377-402 | as `set_position`, for `set_torque` |
| Interface.UsbInterface.Enable | src/open_actuator/interface.py:404-417 | result is `ExactAck` for `enable`: the exact echo, or any binary reply |
| Interface.UsbInterface.Disable | src/open_actuator/interface.py:419-432 | result is `ExactAck` for `disable` |
| Interface.UsbInterface.Home | src/open_actuator/interface.py:434-446 | result is `AnyAck`: any reply |
| Interface.UsbInterface.Stop | src/open_actuator/interface.py:448-460 | result is `AnyAck`: any reply |
| Interface.UsbInterface.ResetPosition | src/open_actuator/interface.py:462-475 | result is `ExactAck` for `reset_position` |
| Interface.UsbInterface.SetCommandMode | src/open_actuator/interface.py:477-497 | sends the switch in the current mode; returns whether a reply came; the mode becomes the target only then; connection unchanged |
| Interface.UsbInterface.GetVelocityPid | src/open_actuator/interface.py:500-523 | result is `GetGains` for `get_velocity_pid`; nothing is written in binary mode |
| Interface.UsbInterface.SetVelocityPid | src/open_actuator/interface.py:525-553 | result is `SetGainsResult` for `set_velocity_pid`; False and nothing written in binary mode |
| Interface.UsbInterface.GetAnglePid | src/open_actuator/interface.py:555-578 | result is `GetGains` for `get_angle_pid` |
| Interface.UsbInterface.SetAnglePid | src/open_actuator/interface.py:580-608 | result is `SetGainsResult` for `set_angle_pid` |
| Interface.UsbInterface.GetCurrentPid | src/open_actuator/interface.py:610-633 | result is `GetGains` for `get_current_pid` |
| Interface.UsbInterface.SetCurrentPid | src/open_actuator/interface.py:635-663 | result is `SetGainsResult` for `set_current_pid` |
| Interface.UsbInterface.SaveConfig | src/open_actuator/interface.py:665-677 | result is `ExactAck` for `save_config`, False in binary mode |
| Interface.UsbInterface.GetDownsample | src/open_actuator/interface.py:679-697 | result is `GetCount` for `get_downsample` |
| Interface.UsbInterface.SetDownsample | src/open_actuator/interface.py:699-721 | result is `SetCount` for `set_downsample` |
| Interface.UsbInterface.GetTemperature | src/open_actuator/interface.py:723-741 | result is `GetPrefixed` for `get_temperature` |
| Interface.UsbInterface.GetBusVoltage | src/open_actuator/interface.py:743-761 | result is `GetPrefixed` for `get_bus_voltage` |
| Interface.UsbInterface.GetInternalTemperature | src/open_actuator/interface.py:763-781 | result is `GetPrefixed` for `get_internal_temperature` |
| Interface.UsbInterface.GetCurrentA | src/open_actuator/interface.py:783-804 | result is `GetCurrent` for `get_current_a` |
| Interface.UsbInterface.GetCurrentB | src/open_actuator/interface.py:806-827 | result is `GetCurrent` for `get_current_b` |
| Interface.UsbInterface.GetCurrentC | src/open_actuator/interface.py:829-850 | result is `GetCurrent` for `get_current_c` |
| Interface.UsbInterface.RecalibrateSensors | src/open_actuator/interface.py:852-866 | result is `AnyAck` with no command byte: False in binary mode |
| Interface.UsbInterface.GetPolePairs | src/open_actuator/interface.py:868-886 | result is `GetCount` for `get_pole_pairs` |
| Interface.UsbInterface.SetPolePairs | src/open_actuator/interface.py:888-911 | result is `SetCount` for `set_pole_pairs` |
| Interface.UsbInterface.GetFullState | src/open_actuator/interface.py:913-943 | result is `GetState`: the request `get_full_state`, the reply prefix `full_state ` |
| ActuatorLink.ActuatorInterface.constructor | src/open_actuator/actuator_interface.py:45-59 | a new interface is disconnected, in human-readable mode, baud rate default 115200 |
| ActuatorLink.ActuatorInterface.Connect | src/open_actuator/actuator_interface.py:61-86 | returns whether the port opened; `connected` follows it and the mode is unchanged |
| ActuatorLink.ActuatorInterface.Disconnect | src/open_actuator/actuator_interface.py:88-92 | closes the port if there is one and clears `connected` |
| ActuatorLink.ActuatorInterface.SendHuman | src/open_actuator/actuator_interface.py:123-151 | the result is the stripped next line; exactly one text exchange, or none when not connected |
| ActuatorLink.ActuatorInterface.SendBinary | src/open_actuator/actuator_interface.py:153-177 | the result is `read(1)`; exactly one packet exchange, or none when not connected |
| ActuatorLink.ActuatorInterface.SetPosition | src/open_actuator/actuator_interface.py:179-207 | result is `SetScalar` for `set_position` |
| ActuatorLink.ActuatorInterface.SetVelocity | src/open_actuator/actuator_interface.py:209-237 | result is `SetScalar` for `set_velocity` |
| ActuatorLink.ActuatorInterface.SetTorque | src/open_actuator/actuator_interface.py:239-267 | result is `SetScalar` for `set_torque` |
| ActuatorLink.ActuatorInterface.GetPosition | src/open_actuator/actuator_interface.py:269-295 | result is `GetScalar` for `get_position` |
| ActuatorLink.ActuatorInterface.GetVelocity | src/open_actuator/actuator_interface.py:297-323 | result is `GetScalar` for `get_velocity` |
| ActuatorLink.ActuatorInterface.GetTorque | src/open_actuator/actuator_interface.py:325-351 | result is `GetScalar` for `get_torque` |
| ActuatorLink.ActuatorInterface.Enable | src/open_actuator/actuator_interface.py:353-368 | result is `ExactAck` for `enable` |
| ActuatorLink.ActuatorInterface.Disable | src/open_actuator/actuator_interface.py:370-385 | result is `ExactAck` for `disable` |
| ActuatorLink.ActuatorInterface.Home | src/open_actuator/actuator_interface.py:387-399 | result is `AnyAck` |
| ActuatorLink.ActuatorInterface.Stop | src/open_actuator/actuator_interface.py:401-413 | result is `AnyAck` |
| ActuatorLink.ActuatorInterface.SetCommandMode | src/open_actuator/actuator_interface.py:415-435 | returns whether a reply came; the mode switches only then |
| ActuatorLink.ActuatorInterface.SetBroadcastFrequency | src/open_actuator/actuator_interface.py:437-466 | result is `SetScalar` for `broadcast` with command byte 0xAC |
| ActuatorLink.ActuatorInterface.GetVelocityPid | src/open_actuator/actuator_interface.py:468-492 | result is `GetGains` for `get_velocity_pid` |
| ActuatorLink.ActuatorInterface.SetVelocityPid | src/open_actuator/actuator_interface.py:494-525 | result is `SetGainsResult` for `set_velocity_pid` |
| ActuatorLink.ActuatorInterface.GetAnglePid | src/open_actuator/actuator_interface.py:527-551 | result is `GetGains` for `get_angle_pid` |
| ActuatorLink.ActuatorInterface.SetAnglePid | src/open_actuator/actuator_interface.py:553-584 | result is `SetGainsResult` for `set_angle_pid` |
| ActuatorLink.ActuatorInterface.GetCurrentPid | src/open_actuator/actuator_interface.py:586-610 | result is `GetGains` for `get_current_pid` |
| ActuatorLink.ActuatorInterface.SetCurrentPid | src/open_actuator/actuator_interface.py:612-643 | result is `SetGainsResult` for `set_current_pid` |
| ActuatorLink.ActuatorInterface.SaveConfig | src/open_actuator/actuator_interface.py:645-658 | result is `ExactAck` for `save_config` |
| ActuatorLink.ActuatorInterface.GetDownsample | src/open_actuator/actuator_interface.py:660-680 | result is `GetCount` for `get_downsample` |
| ActuatorLink.ActuatorInterface.SetDownsample | src/open_actuator/actuator_interface.py:682-707 | result is `SetCount` for `set_downsample` |
| ActuatorLink.ActuatorInterface.GetTemperature | src/open_actuator/actuator_interface.py:709-729 | result is `GetPrefixed` for `get_temperature` |
| ActuatorLink.ActuatorInterface.GetBusVoltage | src/open_actuator/actuator_interface.py:731-751 | result is `GetPrefixed` for `get_bus_voltage` |
| ActuatorLink.ActuatorInterface.GetInternalTemperature | src/open_actuator/actuator_interface.py:753-773 | result is `GetPrefixed` for `get_internal_temperature` |
| ActuatorLink.ActuatorInterface.RecalibrateSensors | src/open_actuator/actuator_interface.py:775-790 | result is `AnyAck` with no command byte |
| Actuators.ACBv2.constructor | src/open_actuator/actuators/ACBv2.py:14-38 | every cached value starts unknown and `enabled` False |
| Actuators.ACBv2.GetPosition | src/open_actuator/actuators/ACBv2.py:40-50 | returns the interface's result; the cache stores it only when it is a value; the port sees the interface's exchange |
| Actuators.ACBv2.GetVelocity | src/open_actuator/actuators/ACBv2.py:52-62 | as `get_position`, for velocity |
| Actuators.ACBv2.GetTorque | src/open_actuator/actuators/ACBv2.py:64-74 | as `get_position`, for torque |
| Actuators.ACBv2.SetPosition | src/open_actuator/actuators/ACBv2.py:76-86 | passes the call through; the cache is unchanged |
| Actuators.ACBv2.SetVelocity | src/open_actuator/actuators/ACBv2.py:88-98 | passes the call through; the cache is unchanged |
| Actuators.ACBv2.SetTorque | src/open_actuator/actuators/ACBv2.py:100-110 | passes the call through; the cache is unchanged |
| Actuators.ACBv2.Enable | src/open_actuator/actuators/ACBv2.py:112-122 | `enabled` becomes True only on success; nothing else in the cache changes |
| Actuators.ACBv2.Disable | src/open_actuator/actuators/ACBv2.py:124-134 | `enabled` becomes False only on success |
| Actuators.ACBv2.Home | src/open_actuator/actuators/ACBv2.py:136-143 | passes the call through; the cache is unchanged |
| Actuators.ACBv2.Stop | src/open_actuator/actuators/ACBv2.py:145-152 | passes the call through; the cache is unchanged |
| Actuators.ACBv2.GetTemperature | src/open_actuator/actuators/ACBv2.py:154-164 | stores the temperature only when one was read |
| Actuators.ACBv2.GetBusVoltage | src/open_actuator/actuators/ACBv2.py:166-176 | stores the bus voltage only when one was read |
| Actuators.ACBv2.GetInternalTemperature | src/open_actuator/actuators/ACBv2.py:178-188 | stores the internal temperature only when one was read |
| Actuators.ACBv2.GetVelocityPid | src/open_actuator/actuators/ACBv2.py:190-200 | stores the gains only when they were read |
| Actuators.ACBv2.SetVelocityPid | src/open_actuator/actuators/ACBv2.py:202-217 | stores the requested gains only on success |
| Actuators.ACBv2.GetAnglePid | src/open_actuator/actuators/ACBv2.py:219-229 | stores the gains only when they were read |
| Actuators.ACBv2.SetAnglePid | src/open_actuator/actuators/ACBv2.py:231-246 | stores the requested gains only on success |
| Actuators.ACBv2.GetCurrentPid | src/open_actuator/actuators/ACBv2.py:248-258 | stores the gains only when they were read |
| Actuators.ACBv2.SetCurrentPid | src/open_actuator/actuators/ACBv2.py:260-275 | stores the requested gains only on success |
| Actuators.ACBv2.SaveConfig | src/open_actuator/actuators/ACBv2.py:277-284 | passes the call through; the cache is unchanged |
| Actuators.ACBv2.GetDownsample | src/open_actuator/actuators/ACBv2.py:286-296 | stores the factor only when one was read |
| Actuators.ACBv2.SetDownsample | src/open_actuator/actuators/ACBv2.py:298-311 | stores the requested factor only on success |
| Actuators.ACBv2.SetBroadcastFrequency | src/open_actuator/actuators/ACBv2.py:313-323 | raises `AttributeError`: the interface it holds has no such method |
| Actuators.ACBv2.RecalibrateSensors | src/open_actuator/actuators/ACBv2.py:325-332 | passes the call through; the cache is unchanged |
| Actuators.ACBv2.Position | src/open_actuator/actuators/ACBv2.py:335-338 | the cached position |
| Actuators.ACBv2.Velocity | src/open_actuator/actuators/ACBv2.py:340-343 | the cached velocity |
| Actuators.ACBv2.Torque | src/open_actuator/actuators/ACBv2.py:345-348 | the cached torque |
| Actuators.ACBv2.Temperature | src/open_actuator/actuators/ACBv2.py:350-353 | the cached temperature |
| Actuators.ACBv2.BusVoltage | src/open_actuator/actuators/ACBv2.py:355-358 | the cached bus voltage |
| Actuators.ACBv2.InternalTemperature | src/open_actuator/actuators/ACBv2.py:360-363 | the cached internal temperature |
| Actuators.ACBv2.Enabled | src/open_actuator/actuators/ACBv2.py:365-368 | the cached enable flag |
| Actuators.ACBv2.VelocityPid | src/open_actuator/actuators/ACBv2.py:370-373 | the cached velocity gains |
| Actuators.ACBv2.AnglePid | src/open_actuator/actuators/ACBv2.py:375-378 | the cached angle gains |
| Actuators.ACBv2.CurrentPid | src/open_actuator/actuators/ACBv2.py:380-383 | the cached current gains |
| Actuators.ACBv2.Downsample | src/open_actuator/actuators/ACBv2.py:385-387 | the cached downsample factor |
| Actuators.ACBv2.Connect | src/open_actuator/actuators/Actuator.py:11-12 | returns the interface's `connect` result; the cache is untouched |
| Actuators.ACBv2.Disconnect | src/open_actuator/actuators/Actuator.py:14-15 | the interface disconnects; nothing is returned |
| Actuators.ACBv2.SendCommand | src/open_actuator/actuators/Actuator.py:17-18 | the line is sent as by `send_command` and the reply dropped |

## Left out

- The `pyserial` calls themselves, the `time.sleep` and `flush` calls, and the baud rate and timeout beyond being stored: the port is the scripted `Port`.
- Float parsing and formatting and the IEEE-754 `'>f'` unpacking are uninterpreted (`Numerals`); `inf`/`nan` text, float rounding and `str(float)` formats are not modelled.
- `int(s)` is modelled for ASCII digits with underscores; the non-ASCII Unicode digits Python also accepts are not.
- A failing `write` is not distinguished from a failing read: both are a `None` outcome of the reply, and the write is still logged.
- Text lines and binary reads come from two separate queues, so a reply that mixes text and bytes on the same stream is not modelled.
- The `print` debug output and the traceback printing are left out; they do not affect results.
- The GUI, the plotter, threads, `command.py`, the example scripts and `main.py` are not part of this model.
- The `SerialInterface` and `CANInterface` stubs and the abstract `Interface` base class are not part of this model.
- Interface.UsbInterface.constructor: the port name is stored but the device is a parameter, since opening a device by name is I/O.
- Interface.UsbInterface.Connect: whether `serial.Serial(...)` succeeds is the parameter `opens`; the short settling sleep is not modelled.

## Findings

| source | as written | input that shows it | evidently intended | confidence | as-written member | corrected member |
|---|---|---|---|---|---|---|
| src/open_actuator/interface.py:265-268 | the binary getters unpack the two reply bytes with the signed `'>h'` and then `_q88_to_float` subtracts 0x10000 again from every negative value | reply bytes FF 80 decode to -256.5 | FF 80 is the Q8.8 word of -0.5: unpack unsigned (`'>H'`), then apply `_q88_to_float` once | not executed | Protocol.Q88ReplyAsWritten, FixedPoint.DecodeSignedReplyWrong | Protocol.Q88Reply, FixedPoint.DecodeReplyRoundTrip |

The same decoding appears in `src/open_actuator/actuator_interface.py:293`,
`:321` and `:349`. Because `_send_binary_command` reads only one byte, no
reply reaches either decoding today (`Protocol.Q88Decodings`); the model's
getters use the corrected `Q88Reply`.
