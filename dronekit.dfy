/**
 * The part of a DroneKit vehicle session that the trial code touches, as an
 * abstract object: the local copy of the onboard command list, the uploads
 * sent, the arm request, the flight mode, the low-level messages sent and the
 * parameter map. Everything the vehicle reports back (armable, armed, home
 * known, the mission cursor, acknowledgement delays) is not state of this
 * object: it reaches the model as a trace of observations.
 */
module Dronekit {

  /** A MAVLink mission item, with the fields of `dronekit.Command` in its constructor's order. */
  datatype Command = Command(
    targetSystem: int, targetComponent: int, seqNum: int,
    frame: int, command: int, current: int, autocontinue: int,
    param1: real, param2: real, param3: real, param4: real,
    x: real, y: real, z: real)

  /** A MAVLink COMMAND_LONG message, as built by `command_long_encode`. */
  datatype CommandLong = CommandLong(
    targetSystem: int, targetComponent: int, command: int, confirmation: int,
    param1: int, param2: int, param3: int, param4: int,
    param5: int, param6: int, param7: int)

  /** Abstract value of a session. */
  datatype VehicleState = VehicleState(
    commands: seq<Command>,
    uploaded: seq<seq<Command>>,
    armRequested: bool,
    mode: string,
    sent: seq<CommandLong>,
    parameters: map<string, int>)

  class Vehicle {
    var commands: seq<Command>
    var uploaded: seq<seq<Command>>
    var armRequested: bool
    var mode: string
    var sent: seq<CommandLong>
    var parameters: map<string, int>

    function State(): VehicleState
      reads this
    {
      VehicleState(commands, uploaded, armRequested, mode, sent, parameters)
    }

    constructor (s: VehicleState)
      ensures State() == s
    {
      commands, uploaded, armRequested := s.commands, s.uploaded, s.armRequested;
      mode, sent, parameters := s.mode, s.sent, s.parameters;
    }

    /** `vehicle.commands.clear()` */
    method Clear()
      modifies this
      ensures State() == old(State()).(commands := [])
    {
      commands := [];
    }

    /** `vehicle.commands.add(c)` */
    method Add(c: Command)
      modifies this
      ensures State() == old(State()).(commands := old(commands) + [c])
    {
      commands := commands + [c];
    }

    /** `vehicle.commands.upload()`: sends the local list to the vehicle. */
    method Upload()
      modifies this
      ensures State() == old(State()).(uploaded := old(uploaded) + [old(commands)])
    {
      uploaded := uploaded + [commands];
    }

    /** `vehicle.armed = True` */
    method RequestArm()
      modifies this
      ensures State() == old(State()).(armRequested := true)
    {
      armRequested := true;
    }

    /** `vehicle.mode = VehicleMode(name)` */
    method SetMode(name: string)
      modifies this
      ensures State() == old(State()).(mode := name)
    {
      mode := name;
    }

    /** `vehicle.send_mavlink(msg)` */
    method SendMavlink(msg: CommandLong)
      modifies this
      ensures State() == old(State()).(sent := old(sent) + [msg])
    {
      sent := sent + [msg];
    }

    /** `vehicle.parameters[name] = value`, when the write is acknowledged. */
    method SetParameter(name: string, value: int)
      modifies this
      ensures State() == old(State()).(parameters := old(parameters)[name := value])
    {
      parameters := parameters[name := value];
    }
  }
}
