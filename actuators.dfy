/**
 * `ACBv2`: an actuator over a `USBInterface` that keeps the last value it
 * read or successfully set. Getters store a value only when the interface
 * returned one; the PID and downsample setters store the requested value
 * only when the interface reported success; every other operation passes
 * through and leaves the cache alone. `connect`, `disconnect` and
 * `send_command` are the delegations inherited from `Actuator`.
 */
module Actuators {
  import opened Wrappers
  import opened SerialLink
  import opened Protocol
  import opened Interface

  /** The cached fields of an `ACBv2`, as one value. */
  datatype Snapshot = Snapshot(
    position: Option<real>,
    velocity: Option<real>,
    torque: Option<real>,
    temperature: Option<real>,
    busVoltage: Option<real>,
    internalTemperature: Option<real>,
    enabled: bool,
    velocityPid: Option<Pid>,
    anglePid: Option<Pid>,
    currentPid: Option<Pid>,
    downsample: Option<int>)

  /** The cache of a new actuator: nothing known, not enabled. */
  const Empty: Snapshot := Snapshot(None, None, None, None, None, None, false, None, None, None, None)

  class ACBv2 {
    const iface: UsbInterface
    var position: Option<real>
    var velocity: Option<real>
    var torque: Option<real>
    var temperature: Option<real>
    var busVoltage: Option<real>
    var internalTemperature: Option<real>
    var enabled: bool
    var velocityPid: Option<Pid>
    var anglePid: Option<Pid>
    var currentPid: Option<Pid>
    var downsample: Option<int>

    ghost predicate Valid()
      reads this, iface, iface.port
    {
      iface.Valid()
    }

    ghost function Cache(): Snapshot
      reads this
    {
      Snapshot(position, velocity, torque, temperature, busVoltage, internalTemperature,
               enabled, velocityPid, anglePid, currentPid, downsample)
    }

    constructor (iface: UsbInterface)
      ensures this.iface == iface
      ensures Cache() == Empty
    {
      this.iface := iface;
      position, velocity, torque := None, None, None;
      temperature, busVoltage, internalTemperature := None, None, None;
      enabled := false;
      velocityPid, anglePid, currentPid := None, None, None;
      downsample := None;
    }

    /** `Actuator.connect`: the interface's result; the cache is untouched. */
    method Connect(opens: bool) returns (ok: bool)
      requires Valid()
      modifies iface, iface.port
      ensures Valid()
      ensures ok == opens && iface.connected == opens
      ensures iface.hasPort == (opens || old(iface.hasPort))
      ensures iface.commandMode == old(iface.commandMode)
      ensures iface.port.State() == if opens then old(iface.port.State()).(isOpen := true) else old(iface.port.State())
    {
      ok := iface.Connect(opens);
    }

    /** `Actuator.disconnect`: returns what `USBInterface.disconnect` returns, which is `None`. */
    method Disconnect()
      modifies iface, iface.port
      ensures Valid() && !iface.connected
      ensures iface.hasPort == old(iface.hasPort)
      ensures iface.commandMode == old(iface.commandMode)
      ensures iface.port.State() == if old(iface.hasPort) then old(iface.port.State()).(isOpen := false) else old(iface.port.State())
    {
      iface.Disconnect();
    }

    /** `Actuator.send_command`: the line is sent and the reply dropped. */
    method SendCommand(command: string)
      requires Valid()
      modifies iface.port
      ensures Valid()
      ensures iface.port.State() ==
                Exchange(old(iface.port.State()), old(iface.connected && iface.hasPort),
                         RequestOf(Raw(command), old(iface.commandMode), iface.num))
    {
      var _ := iface.SendCommand(command);
    }

    method GetPosition() returns (r: Option<real>)
      requires Valid()
      modifies this, iface.port
      ensures Valid()
      ensures r == GetScalar(old(iface.commandMode), old(iface.Link()), "get_position", iface.num)
      ensures Cache() == if r.Some? then old(Cache()).(position := r) else old(Cache())
      ensures iface.port.State() ==
                Exchange(old(iface.port.State()), old(iface.connected && iface.hasPort),
                         RequestOf(Query("get_position", Some(GetPositionId)), old(iface.commandMode), iface.num))
    {
      r := iface.GetPosition();
      if r.Some? {
        position := r;
      }
    }

    method GetVelocity() returns (r: Option<real>)
      requires Valid()
      modifies this, iface.port
      ensures Valid()
      ensures r == GetScalar(old(iface.commandMode), old(iface.Link()), "get_velocity", iface.num)
      ensures Cache() == if r.Some? then old(Cache()).(velocity := r) else old(Cache())
      ensures iface.port.State() ==
                Exchange(old(iface.port.State()), old(iface.connected && iface.hasPort),
                         RequestOf(Query("get_velocity", Some(GetVelocityId)), old(iface.commandMode), iface.num))
    {
      r := iface.GetVelocity();
      if r.Some? {
        velocity := r;
      }
    }

    method GetTorque() returns (r: Option<real>)
      requires Valid()
      modifies this, iface.port
      ensures Valid()
      ensures r == GetScalar(old(iface.commandMode), old(iface.Link()), "get_torque", iface.num)
      ensures Cache() == if r.Some? then old(Cache()).(torque := r) else old(Cache())
      ensures iface.port.State() ==
                Exchange(old(iface.port.State()), old(iface.connected && iface.hasPort),
                         RequestOf(Query("get_torque", Some(GetTorqueId)), old(iface.commandMode), iface.num))
    {
      r := iface.GetTorque();
      if r.Some? {
        torque := r;
      }
    }

    method SetPosition(position: real) returns (r: Call<bool>)
      requires Valid()
      modifies iface.port
      ensures Valid()
      ensures r == SetScalar(old(iface.commandMode), old(iface.Link()), "set_position", position, iface.num)
      ensures iface.port.State() ==
                Exchange(old(iface.port.State()), old(iface.connected && iface.hasPort),
                         RequestOf(SetReal("set_position", SetPositionId, position), old(iface.commandMode), iface.num))
    {
      r := iface.SetPosition(position);
    }

    method SetVelocity(velocity: real) returns (r: Call<bool>)
      requires Valid()
      modifies iface.port
      ensures Valid()
      ensures r == SetScalar(old(iface.commandMode), old(iface.Link()), "set_velocity", velocity, iface.num)
      ensures iface.port.State() ==
                Exchange(old(iface.port.State()), old(iface.connected && iface.hasPort),
                         RequestOf(SetReal("set_velocity", SetVelocityId, velocity), old(iface.commandMode), iface.num))
    {
      r := iface.SetVelocity(velocity);
    }

    method SetTorque(torque: real) returns (r: Call<bool>)
      requires Valid()
      modifies iface.port
      ensures Valid()
      ensures r == SetScalar(old(iface.commandMode), old(iface.Link()), "set_torque", torque, iface.num)
      ensures iface.port.State() ==
                Exchange(old(iface.port.State()), old(iface.connected && iface.hasPort),
                         RequestOf(SetReal("set_torque", SetTorqueId, torque), old(iface.commandMode), iface.num))
    {
      r := iface.SetTorque(torque);
    }

    /** `enable`: the cache records an enabled actuator only after a successful call. */
    method Enable() returns (r: bool)
      requires Valid()
      modifies this, iface.port
      ensures Valid()
      ensures r == ExactAck(old(iface.commandMode), old(iface.Link()), "enable", Some(EnableId))
      ensures Cache() == if r then old(Cache()).(enabled := true) else old(Cache())
      ensures iface.port.State() ==
                Exchange(old(iface.port.State()), old(iface.connected && iface.hasPort),
                         RequestOf(Query("enable", Some(EnableId)), old(iface.commandMode), iface.num))
    {
      r := iface.Enable();
      if r {
        enabled := true;
      }
    }

    method Disable() returns (r: bool)
      requires Valid()
      modifies this, iface.port
      ensures Valid()
      ensures r == ExactAck(old(iface.commandMode), old(iface.Link()), "disable", Some(DisableId))
      ensures Cache() == if r then old(Cache()).(enabled := false) else old(Cache())
      ensures iface.port.State() ==
                Exchange(old(iface.port.State()), old(iface.connected && iface.hasPort),
                         RequestOf(Query("disable", Some(DisableId)), old(iface.commandMode), iface.num))
    {
      r := iface.Disable();
      if r {
        enabled := false;
      }
    }

    method Home() returns (r: bool)
      requires Valid()
      modifies iface.port
      ensures Valid()
      ensures r == AnyAck(old(iface.commandMode), old(iface.Link()), Some(HomeId))
      ensures iface.port.State() ==
                Exchange(old(iface.port.State()), old(iface.connected && iface.hasPort),
                         RequestOf(Query("home", Some(HomeId)), old(iface.commandMode), iface.num))
    {
      r := iface.Home();
    }

    method Stop() returns (r: bool)
      requires Valid()
      modifies iface.port
      ensures Valid()
      ensures r == AnyAck(old(iface.commandMode), old(iface.Link()), Some(StopId))
      ensures iface.port.State() ==
                Exchange(old(iface.port.State()), old(iface.connected && iface.hasPort),
                         RequestOf(Query("stop", Some(StopId)), old(iface.commandMode), iface.num))
    {
      r := iface.Stop();
    }

    method GetTemperature() returns (r: Option<real>)
      requires Valid()
      modifies this, iface.port
      ensures Valid()
      ensures r == GetPrefixed(old(iface.commandMode), old(iface.Link()), "get_temperature", iface.num)
      ensures Cache() == if r.Some? then old(Cache()).(temperature := r) else old(Cache())
      ensures iface.port.State() ==
                Exchange(old(iface.port.State()), old(iface.connected && iface.hasPort),
                         RequestOf(Query("get_temperature", None), old(iface.commandMode), iface.num))
    {
      r := iface.GetTemperature();
      if r.Some? {
        temperature := r;
      }
    }

    method GetBusVoltage() returns (r: Option<real>)
      requires Valid()
      modifies this, iface.port
      ensures Valid()
      ensures r == GetPrefixed(old(iface.commandMode), old(iface.Link()), "get_bus_voltage", iface.num)
      ensures Cache() == if r.Some? then old(Cache()).(busVoltage := r) else old(Cache())
      ensures iface.port.State() ==
                Exchange(old(iface.port.State()), old(iface.connected && iface.hasPort),
                         RequestOf(Query("get_bus_voltage", None), old(iface.commandMode), iface.num))
    {
      r := iface.GetBusVoltage();
      if r.Some? {
        busVoltage := r;
      }
    }

    method GetInternalTemperature() returns (r: Option<real>)
      requires Valid()
      modifies this, iface.port
      ensures Valid()
      ensures r == GetPrefixed(old(iface.commandMode), old(iface.Link()), "get_internal_temperature", iface.num)
      ensures Cache() == if r.Some? then old(Cache()).(internalTemperature := r) else old(Cache())
      ensures iface.port.State() ==
                Exchange(old(iface.port.State()), old(iface.connected && iface.hasPort),
                         RequestOf(Query("get_internal_temperature", None), old(iface.commandMode), iface.num))
    {
      r := iface.GetInternalTemperature();
      if r.Some? {
        internalTemperature := r;
      }
    }

    method GetVelocityPid() returns (r: Option<Pid>)
      requires Valid()
      modifies this, iface.port
      ensures Valid()
      ensures r == GetGains(old(iface.commandMode), old(iface.Link()), "get_velocity_pid", iface.num)
      ensures Cache() == if r.Some? then old(Cache()).(velocityPid := r) else old(Cache())
      ensures iface.port.State() ==
                Exchange(old(iface.port.State()), old(iface.connected && iface.hasPort),
                         RequestOf(Query("get_velocity_pid", None), old(iface.commandMode), iface.num))
    {
      r := iface.GetVelocityPid();
      if r.Some? {
        velocityPid := r;
      }
    }

    method SetVelocityPid(p: real, i: real, d: real) returns (r: bool)
      requires Valid()
      modifies this, iface.port
      ensures Valid()
      ensures r == SetGainsResult(old(iface.commandMode), old(iface.Link()), "set_velocity_pid", iface.num)
      ensures Cache() == if r then old(Cache()).(velocityPid := Some(Pid(p, i, d))) else old(Cache())
      ensures iface.port.State() ==
                Exchange(old(iface.port.State()), old(iface.connected && iface.hasPort),
                         RequestOf(SetGains("set_velocity_pid", Pid(p, i, d)), old(iface.commandMode), iface.num))
    {
      r := iface.SetVelocityPid(p, i, d);
      if r {
        velocityPid := Some(Pid(p, i, d));
      }
    }

    method GetAnglePid() returns (r: Option<Pid>)
      requires Valid()
      modifies this, iface.port
      ensures Valid()
      ensures r == GetGains(old(iface.commandMode), old(iface.Link()), "get_angle_pid", iface.num)
      ensures Cache() == if r.Some? then old(Cache()).(anglePid := r) else old(Cache())
      ensures iface.port.State() ==
                Exchange(old(iface.port.State()), old(iface.connected && iface.hasPort),
                         RequestOf(Query("get_angle_pid", None), old(iface.commandMode), iface.num))
    {
      r := iface.GetAnglePid();
      if r.Some? {
        anglePid := r;
      }
    }

    method SetAnglePid(p: real, i: real, d: real) returns (r: bool)
      requires Valid()
      modifies this, iface.port
      ensures Valid()
      ensures r == SetGainsResult(old(iface.commandMode), old(iface.Link()), "set_angle_pid", iface.num)
      ensures Cache() == if r then old(Cache()).(anglePid := Some(Pid(p, i, d))) else old(Cache())
      ensures iface.port.State() ==
                Exchange(old(iface.port.State()), old(iface.connected && iface.hasPort),
                         RequestOf(SetGains("set_angle_pid", Pid(p, i, d)), old(iface.commandMode), iface.num))
    {
      r := iface.SetAnglePid(p, i, d);
      if r {
        anglePid := Some(Pid(p, i, d));
      }
    }

    method GetCurrentPid() returns (r: Option<Pid>)
      requires Valid()
      modifies this, iface.port
      ensures Valid()
      ensures r == GetGains(old(iface.commandMode), old(iface.Link()), "get_current_pid", iface.num)
      ensures Cache() == if r.Some? then old(Cache()).(currentPid := r) else old(Cache())
      ensures iface.port.State() ==
                Exchange(old(iface.port.State()), old(iface.connected && iface.hasPort),
                         RequestOf(Query("get_current_pid", None), old(iface.commandMode), iface.num))
    {
      r := iface.GetCurrentPid();
      if r.Some? {
        currentPid := r;
      }
    }

    method SetCurrentPid(p: real, i: real, d: real) returns (r: bool)
      requires Valid()
      modifies this, iface.port
      ensures Valid()
      ensures r == SetGainsResult(old(iface.commandMode), old(iface.Link()), "set_current_pid", iface.num)
      ensures Cache() == if r then old(Cache()).(currentPid := Some(Pid(p, i, d))) else old(Cache())
      ensures iface.port.State() ==
                Exchange(old(iface.port.State()), old(iface.connected && iface.hasPort),
                         RequestOf(SetGains("set_current_pid", Pid(p, i, d)), old(iface.commandMode), iface.num))
    {
      r := iface.SetCurrentPid(p, i, d);
      if r {
        currentPid := Some(Pid(p, i, d));
      }
    }

    method SaveConfig() returns (r: bool)
      requires Valid()
      modifies iface.port
      ensures Valid()
      ensures r == ExactAck(old(iface.commandMode), old(iface.Link()), "save_config", None)
      ensures iface.port.State() ==
                Exchange(old(iface.port.State()), old(iface.connected && iface.hasPort),
                         RequestOf(Query("save_config", None), old(iface.commandMode), iface.num))
    {
      r := iface.SaveConfig();
    }

    method GetDownsample() returns (r: Option<int>)
      requires Valid()
      modifies this, iface.port
      ensures Valid()
      ensures r == GetCount(old(iface.commandMode), old(iface.Link()), "get_downsample")
      ensures Cache() == if r.Some? then old(Cache()).(downsample := r) else old(Cache())
      ensures iface.port.State() ==
                Exchange(old(iface.port.State()), old(iface.connected && iface.hasPort),
                         RequestOf(Query("get_downsample", None), old(iface.commandMode), iface.num))
    {
      r := iface.GetDownsample();
      downsample := if r.Some? then r else downsample;
    }

    /** `set_downsample`: the cache records the requested factor only after a successful call. */
    method SetDownsample(downsample: int) returns (r: bool)
      requires Valid()
      modifies this, iface.port
      ensures Valid()
      ensures r == SetCount(old(iface.commandMode), old(iface.Link()), "set_downsample")
      ensures Cache() == if r then old(Cache()).(downsample := Some(downsample)) else old(Cache())
      ensures iface.port.State() ==
                Exchange(old(iface.port.State()), old(iface.connected && iface.hasPort),
                         RequestOf(SetInt("set_downsample", downsample), old(iface.commandMode), iface.num))
    {
      r := iface.SetDownsample(downsample);
      if r {
        this.downsample := Some(downsample);
      }
    }

    /**
     * `set_broadcast_frequency` calls a method `USBInterface` does not have:
     * the call raises `AttributeError` and nothing is written.
     */
    method SetBroadcastFrequency(frequency: real) returns (r: Call<bool>)
      ensures r == Raise(AttributeError)
    {
      r := Raise(AttributeError);
    }

    method RecalibrateSensors() returns (r: bool)
      requires Valid()
      modifies iface.port
      ensures Valid()
      ensures r == AnyAck(old(iface.commandMode), old(iface.Link()), None)
      ensures iface.port.State() ==
                Exchange(old(iface.port.State()), old(iface.connected && iface.hasPort),
                         RequestOf(Query("recalibrate_sensors", None), old(iface.commandMode), iface.num))
    {
      r := iface.RecalibrateSensors();
    }

    // Read-only properties: the cached values, with no exchange.

    method Position() returns (r: Option<real>)
      ensures r == Cache().position
    {
      r := position;
    }

    method Velocity() returns (r: Option<real>)
      ensures r == Cache().velocity
    {
      r := velocity;
    }

    method Torque() returns (r: Option<real>)
      ensures r == Cache().torque
    {
      r := torque;
    }

    method Temperature() returns (r: Option<real>)
      ensures r == Cache().temperature
    {
      r := temperature;
    }

    method BusVoltage() returns (r: Option<real>)
      ensures r == Cache().busVoltage
    {
      r := busVoltage;
    }

    method InternalTemperature() returns (r: Option<real>)
      ensures r == Cache().internalTemperature
    {
      r := internalTemperature;
    }

    method Enabled() returns (r: bool)
      ensures r == Cache().enabled
    {
      r := enabled;
    }

    method VelocityPid() returns (r: Option<Pid>)
      ensures r == Cache().velocityPid
    {
      r := velocityPid;
    }

    method AnglePid() returns (r: Option<Pid>)
      ensures r == Cache().anglePid
    {
      r := anglePid;
    }

    method CurrentPid() returns (r: Option<Pid>)
      ensures r == Cache().currentPid
    {
      r := currentPid;
    }

    method Downsample() returns (r: Option<int>)
      ensures r == Cache().downsample
    {
      r := downsample;
    }
  }
}
