/**
 * `ActuatorInterface`: the older serial client with the same codec, send
 * helpers and reply rules as `USBInterface`, a default baud rate of 115200,
 * a smaller command table (no reset, phase-current, pole-pair or full-state
 * operations) and a broadcast-frequency setter.
 */
module ActuatorLink {
  import opened Wrappers
  import opened PyText
  import opened FixedPoint
  import opened SerialLink
  import opened Protocol

  class ActuatorInterface {
    const portName: string
    const baudrate: int
    const timeout: real
    /** Python's float conversions, as the replies are parsed with them. */
    const num: Numerals
    /** The device behind `portName`; `serial.Serial(...)` opens it. */
    const port: Port
    /** `self.serial_conn is not None`. */
    var hasPort: bool
    var connected: bool
    var commandMode: CommandMode

    /** A connected interface always has an open port. */
    ghost predicate Valid()
      reads this, port
    {
      connected ==> hasPort && port.isOpen
    }

    /** What the next exchange will see. */
    ghost function Link(): Wire
      reads this, port
    {
      WireOf(connected && hasPort, port.State())
    }

    /** The port went through exactly the exchange `op` makes in the mode it started in. */
    twostate predicate Did(op: Op)
      reads this, port
    {
      port.State() == Exchange(old(port.State()), old(connected && hasPort), RequestOf(op, old(commandMode), num))
    }

    /** `ActuatorInterface(port, baudrate=115200, timeout=1.0)`: not connected, human-readable mode. */
    constructor (portName: string, device: Port, num: Numerals, baudrate: int := 115200, timeout: real := 1.0)
      ensures this.portName == portName && this.baudrate == baudrate && this.timeout == timeout
      ensures this.num == num && port == device
      ensures !hasPort && !connected && commandMode == HumanReadable
      ensures Valid()
    {
      this.portName := portName;
      this.baudrate := baudrate;
      this.timeout := timeout;
      this.num := num;
      port := device;
      hasPort := false;
      connected := false;
      commandMode := HumanReadable;
    }

    /**
     * `connect`: `opens` is whether `serial.Serial(...)` succeeds. A failure
     * clears `connected` and keeps the previous port object.
     */
    method Connect(opens: bool) returns (ok: bool)
      requires Valid()
      modifies this, port
      ensures Valid()
      ensures ok == opens && connected == opens
      ensures hasPort == (opens || old(hasPort))
      ensures port.State() == if opens then old(port.State()).(isOpen := true) else old(port.State())
      ensures commandMode == old(commandMode)
    {
      if opens {
        port.Open();
        hasPort := true;
        connected := true;
        ok := true;
      } else {
        connected := false;
        ok := false;
      }
    }

    /** `disconnect`: closes an open port and clears `connected`; the mode is kept. */
    method Disconnect()
      modifies this, port
      ensures Valid() && !connected
      ensures hasPort == old(hasPort) && commandMode == old(commandMode)
      ensures port.State() == if old(hasPort) then old(port.State()).(isOpen := false) else old(port.State())
    {
      if hasPort && port.isOpen {
        port.Close();
      }
      connected := false;
    }

    /**
     * `_send_human_command`: nothing happens on a link that is down; otherwise
     * the line is written and the stripped reply line returned.
     */
    method SendHuman(command: string) returns (r: Option<string>)
      requires Valid()
      modifies port
      ensures Valid()
      ensures r == old(Link()).Human()
      ensures port.State() == Exchange(old(port.State()), old(connected && hasPort), TextRequest(command))
    {
      if !connected || !hasPort {
        r := None;
        return;
      }
      port.Write(TextFrame(command + "\n"));
      var line := port.ReadLine();
      r := MapOption(line, Strip);
    }

    /**
     * `_send_binary_command`: the command byte and payload, then `read(1)`.
     * This class only ever sends identifiers of its own table.
     */
    method SendBinary(id: CommandId, data: seq<Byte>) returns (r: Option<seq<Byte>>)
      requires Valid()
      requires InReducedTable(id)
      modifies port
      ensures Valid()
      ensures r == old(Link()).Binary()
      ensures port.State() == Exchange(old(port.State()), old(connected && hasPort), PacketRequest([id.Code()] + data))
    {
      if !connected || !hasPort {
        r := None;
        return;
      }
      port.Write(BytesFrame([id.Code()] + data));
      r := port.Read(1);
    }

    // -------------------------------------------------------------------
    // Shapes shared by several operations
    // -------------------------------------------------------------------

    method ReadScalar(name: string, id: CommandId) returns (r: Option<real>)
      requires Valid()
      requires InReducedTable(id)
      modifies port
      ensures Valid()
      ensures r == GetScalar(old(commandMode), old(Link()), name, num)
      ensures Did(Query(name, Some(id)))
    {
      if commandMode == HumanReadable {
        var response := SendHuman(name);
        r := ScalarReply(response, name, num.parseReal);
      } else {
        var response := SendBinary(id, []);
        assert [id.Code()] + [] == [id.Code()];
        r := Q88Reply(response);
      }
    }

    method WriteScalar(name: string, id: CommandId, value: real) returns (r: Call<bool>)
      requires Valid()
      requires InReducedTable(id)
      modifies port
      ensures Valid()
      ensures r == SetScalar(old(commandMode), old(Link()), name, value, num)
      ensures Did(SetReal(name, id, value))
    {
      if commandMode == HumanReadable {
        var response := SendHuman(Command(name, [num.formatReal(value)]));
        r := Return(EchoAccepts(response, name, num.parseReal));
      } else {
        var data := PackI16(Encode(value));
        if data.None? {
          r := Raise(StructError);
          return;
        }
        var response := SendBinary(id, data.value);
        r := Return(response.Some?);
      }
    }

    method ReadPrefixed(name: string) returns (r: Option<real>)
      requires Valid()
      modifies port
      ensures Valid()
      ensures r == GetPrefixed(old(commandMode), old(Link()), name, num)
      ensures Did(Query(name, None))
    {
      if commandMode == HumanReadable {
        var response := SendHuman(name);
        r := PrefixedReply(response, name, num.parseReal);
      } else {
        r := None;
      }
    }

    method ReadCount(name: string) returns (r: Option<int>)
      requires Valid()
      modifies port
      ensures Valid()
      ensures r == GetCount(old(commandMode), old(Link()), name)
      ensures Did(Query(name, None))
    {
      if commandMode == HumanReadable {
        var response := SendHuman(name);
        r := PrefixedReply(response, name, ParseInt);
      } else {
        r := None;
      }
    }

    method WriteCount(name: string, value: int) returns (r: bool)
      requires Valid()
      modifies port
      ensures Valid()
      ensures r == SetCount(old(commandMode), old(Link()), name)
      ensures Did(SetInt(name, value))
    {
      if commandMode == HumanReadable {
        var response := SendHuman(Command(name, [FormatInt(value)]));
        r := EchoAccepts(response, name, ParseInt);
      } else {
        r := false;
      }
    }

    method ReadGains(name: string) returns (r: Option<Pid>)
      requires Valid()
      modifies port
      ensures Valid()
      ensures r == GetGains(old(commandMode), old(Link()), name, num)
      ensures Did(Query(name, None))
    {
      if commandMode == HumanReadable {
        var response := SendHuman(name);
        r := PidReply(response, name, num.parseReal);
      } else {
        r := None;
      }
    }

    method WriteGains(name: string, p: real, i: real, d: real) returns (r: bool)
      requires Valid()
      modifies port
      ensures Valid()
      ensures r == SetGainsResult(old(commandMode), old(Link()), name, num)
      ensures Did(SetGains(name, Pid(p, i, d)))
    {
      if commandMode == HumanReadable {
        var response := SendHuman(Command(name, [num.formatReal(p), num.formatReal(i), num.formatReal(d)]));
        r := PidEchoAccepts(response, name, num.parseReal);
      } else {
        r := false;
      }
    }

    method Exact(name: string, id: Option<CommandId>) returns (r: bool)
      requires Valid()
      requires id.Some? ==> InReducedTable(id.value)
      modifies port
      ensures Valid()
      ensures r == ExactAck(old(commandMode), old(Link()), name, id)
      ensures Did(Query(name, id))
    {
      if commandMode == HumanReadable {
        var response := SendHuman(name);
        r := response == Some(name);
      } else if id.Some? {
        var response := SendBinary(id.value, []);
        assert [id.value.Code()] + [] == [id.value.Code()];
        r := response.Some?;
      } else {
        r := false;
      }
    }

    method Any(name: string, id: Option<CommandId>) returns (r: bool)
      requires Valid()
      requires id.Some? ==> InReducedTable(id.value)
      modifies port
      ensures Valid()
      ensures r == AnyAck(old(commandMode), old(Link()), id)
      ensures Did(Query(name, id))
    {
      if commandMode == HumanReadable {
        var response := SendHuman(name);
        r := response.Some?;
      } else if id.Some? {
        var response := SendBinary(id.value, []);
        assert [id.value.Code()] + [] == [id.value.Code()];
        r := response.Some?;
      } else {
        r := false;
      }
    }

    // -------------------------------------------------------------------
    // Operations
    // -------------------------------------------------------------------

    method GetPosition() returns (r: Option<real>)
      requires Valid()
      modifies port
      ensures Valid()
      ensures r == GetScalar(old(commandMode), old(Link()), "get_position", num)
      ensures Did(Query("get_position", Some(GetPositionId)))
    {
      r := ReadScalar("get_position", GetPositionId);
    }

    method GetVelocity() returns (r: Option<real>)
      requires Valid()
      modifies port
      ensures Valid()
      ensures r == GetScalar(old(commandMode), old(Link()), "get_velocity", num)
      ensures Did(Query("get_velocity", Some(GetVelocityId)))
    {
      r := ReadScalar("get_velocity", GetVelocityId);
    }

    method GetTorque() returns (r: Option<real>)
      requires Valid()
      modifies port
      ensures Valid()
      ensures r == GetScalar(old(commandMode), old(Link()), "get_torque", num)
      ensures Did(Query("get_torque", Some(GetTorqueId)))
    {
      r := ReadScalar("get_torque", GetTorqueId);
    }

    method SetPosition(position: real) returns (r: Call<bool>)
      requires Valid()
      modifies port
      ensures Valid()
      ensures r == SetScalar(old(commandMode), old(Link()), "set_position", position, num)
      ensures Did(SetReal("set_position", SetPositionId, position))
    {
      r := WriteScalar("set_position", SetPositionId, position);
    }

    method SetVelocity(velocity: real) returns (r: Call<bool>)
      requires Valid()
      modifies port
      ensures Valid()
      ensures r == SetScalar(old(commandMode), old(Link()), "set_velocity", velocity, num)
      ensures Did(SetReal("set_velocity", SetVelocityId, velocity))
    {
      r := WriteScalar("set_velocity", SetVelocityId, velocity);
    }

    method SetTorque(torque: real) returns (r: Call<bool>)
      requires Valid()
      modifies port
      ensures Valid()
      ensures r == SetScalar(old(commandMode), old(Link()), "set_torque", torque, num)
      ensures Did(SetReal("set_torque", SetTorqueId, torque))
    {
      r := WriteScalar("set_torque", SetTorqueId, torque);
    }

    method Enable() returns (r: bool)
      requires Valid()
      modifies port
      ensures Valid()
      ensures r == ExactAck(old(commandMode), old(Link()), "enable", Some(EnableId))
      ensures Did(Query("enable", Some(EnableId)))
    {
      r := Exact("enable", Some(EnableId));
    }

    method Disable() returns (r: bool)
      requires Valid()
      modifies port
      ensures Valid()
      ensures r == ExactAck(old(commandMode), old(Link()), "disable", Some(DisableId))
      ensures Did(Query("disable", Some(DisableId)))
    {
      r := Exact("disable", Some(DisableId));
    }

    method Home() returns (r: bool)
      requires Valid()
      modifies port
      ensures Valid()
      ensures r == AnyAck(old(commandMode), old(Link()), Some(HomeId))
      ensures Did(Query("home", Some(HomeId)))
    {
      r := Any("home", Some(HomeId));
    }

    method Stop() returns (r: bool)
      requires Valid()
      modifies port
      ensures Valid()
      ensures r == AnyAck(old(commandMode), old(Link()), Some(StopId))
      ensures Did(Query("stop", Some(StopId)))
    {
      r := Any("stop", Some(StopId));
    }

    /**
     * `set_command_mode`: the request goes out in the current mode, and the
     * mode changes only when a reply came back.
     */
    method SetCommandMode(mode: CommandMode) returns (r: bool)
      requires Valid()
      modifies this, port
      ensures Valid()
      ensures r == AnyAck(old(commandMode), old(Link()), Some(CmdModeId))
      ensures commandMode == ModeAfterSwitch(old(commandMode), old(Link()), mode)
      ensures connected == old(connected) && hasPort == old(hasPort)
      ensures Did(SwitchMode(mode))
    {
      if commandMode == HumanReadable {
        var response := SendHuman(Command("cmd_mode", [FormatInt(mode.Value())]));
        r := response.Some?;
      } else {
        var data := PackI16(mode.Value());
        var response := SendBinary(CmdModeId, data.value);
        r := response.Some?;
      }
      if r {
        commandMode := mode;
      }
    }

    /** `set_broadcast_frequency`: a set-point like the others, with command byte 0xAC. */
    method SetBroadcastFrequency(frequency: real) returns (r: Call<bool>)
      requires Valid()
      modifies port
      ensures Valid()
      ensures r == SetScalar(old(commandMode), old(Link()), "broadcast", frequency, num)
      ensures Did(SetReal("broadcast", BroadcastId, frequency))
    {
      r := WriteScalar("broadcast", BroadcastId, frequency);
    }

    method GetVelocityPid() returns (r: Option<Pid>)
      requires Valid()
      modifies port
      ensures Valid()
      ensures r == GetGains(old(commandMode), old(Link()), "get_velocity_pid", num)
      ensures Did(Query("get_velocity_pid", None))
    {
      r := ReadGains("get_velocity_pid");
    }

    method SetVelocityPid(p: real, i: real, d: real) returns (r: bool)
      requires Valid()
      modifies port
      ensures Valid()
      ensures r == SetGainsResult(old(commandMode), old(Link()), "set_velocity_pid", num)
      ensures Did(SetGains("set_velocity_pid", Pid(p, i, d)))
    {
      r := WriteGains("set_velocity_pid", p, i, d);
    }

    method GetAnglePid() returns (r: Option<Pid>)
      requires Valid()
      modifies port
      ensures Valid()
      ensures r == GetGains(old(commandMode), old(Link()), "get_angle_pid", num)
      ensures Did(Query("get_angle_pid", None))
    {
      r := ReadGains("get_angle_pid");
    }

    method SetAnglePid(p: real, i: real, d: real) returns (r: bool)
      requires Valid()
      modifies port
      ensures Valid()
      ensures r == SetGainsResult(old(commandMode), old(Link()), "set_angle_pid", num)
      ensures Did(SetGains("set_angle_pid", Pid(p, i, d)))
    {
      r := WriteGains("set_angle_pid", p, i, d);
    }

    method GetCurrentPid() returns (r: Option<Pid>)
      requires Valid()
      modifies port
      ensures Valid()
      ensures r == GetGains(old(commandMode), old(Link()), "get_current_pid", num)
      ensures Did(Query("get_current_pid", None))
    {
      r := ReadGains("get_current_pid");
    }

    method SetCurrentPid(p: real, i: real, d: real) returns (r: bool)
      requires Valid()
      modifies port
      ensures Valid()
      ensures r == SetGainsResult(old(commandMode), old(Link()), "set_current_pid", num)
      ensures Did(SetGains("set_current_pid", Pid(p, i, d)))
    {
      r := WriteGains("set_current_pid", p, i, d);
    }

    method SaveConfig() returns (r: bool)
      requires Valid()
      modifies port
      ensures Valid()
      ensures r == ExactAck(old(commandMode), old(Link()), "save_config", None)
      ensures Did(Query("save_config", None))
    {
      r := Exact("save_config", None);
    }

    method GetDownsample() returns (r: Option<int>)
      requires Valid()
      modifies port
      ensures Valid()
      ensures r == GetCount(old(commandMode), old(Link()), "get_downsample")
      ensures Did(Query("get_downsample", None))
    {
      r := ReadCount("get_downsample");
    }

    method SetDownsample(downsample: int) returns (r: bool)
      requires Valid()
      modifies port
      ensures Valid()
      ensures r == SetCount(old(commandMode), old(Link()), "set_downsample")
      ensures Did(SetInt("set_downsample", downsample))
    {
      r := WriteCount("set_downsample", downsample);
    }

    method GetTemperature() returns (r: Option<real>)
      requires Valid()
      modifies port
      ensures Valid()
      ensures r == GetPrefixed(old(commandMode), old(Link()), "get_temperature", num)
      ensures Did(Query("get_temperature", None))
    {
      r := ReadPrefixed("get_temperature");
    }

    method GetBusVoltage() returns (r: Option<real>)
      requires Valid()
      modifies port
      ensures Valid()
      ensures r == GetPrefixed(old(commandMode), old(Link()), "get_bus_voltage", num)
      ensures Did(Query("get_bus_voltage", None))
    {
      r := ReadPrefixed("get_bus_voltage");
    }

    method GetInternalTemperature() returns (r: Option<real>)
      requires Valid()
      modifies port
      ensures Valid()
      ensures r == GetPrefixed(old(commandMode), old(Link()), "get_internal_temperature", num)
      ensures Did(Query("get_internal_temperature", None))
    {
      r := ReadPrefixed("get_internal_temperature");
    }

    method RecalibrateSensors() returns (r: bool)
      requires Valid()
      modifies port
      ensures Valid()
      ensures r == AnyAck(old(commandMode), old(Link()), None)
      ensures Did(Query("recalibrate_sensors", None))
    {
      r := Any("recalibrate_sensors", None);
    }
  }
}
