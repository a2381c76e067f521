/** The adapters and job bodies as the step-by-step code they are, on a bound device
    whose state each command changes (src/devices/do/do_adapter.cpp:96-185,
    src/devices/ph/ph_adapter.cpp:61-90, src/core/ezo_provider_runtime.cpp:377-435). */
module Adapters {
  import opened Statuses
  import opened Compensation
  import opened Probe
  import opened Jobs

  class Link {
    var device: Device

    constructor (d: Device)
      ensures device == d
    {
      device := d;
    }

    /** Send one command, wait for it to settle and read the response. */
    method Perform(c: Command, turn: Turn) returns (status: Status, sent: nat, rereads: nat)
      modifies this
      ensures Ran(device, status, sent, rereads) == Exchange(old(device), c, turn)
    {
      sent, rereads := 0, 0;
      if turn.cutBefore {
        device := Cut(device);
      }
      if turn.acts {
        device := Act(device, c);
      }
      if turn.cutAfter {
        device := Cut(device);
      }
      device := device.(clock := device.clock + 1, told := device.told + [c]);
      assert device == AfterTurn(old(device), c, turn);
      if !turn.sent {
        return SEND_FAILED, sent, rereads;
      }
      sent := 1;
      status, rereads := ReadCommandResponse(turn.frames);
    }

    /** The end of the DO writer: the pressure, if it is given. */
    method WritePressure(values: Comp, turns: WriteTurns) returns (status: Status, commands: nat, rereads: nat)
      modifies this
      ensures Ran(device, status, commands, rereads) == WriteFrom(old(device), values, turns, 2)
    {
      commands, rereads := 0, 0;
      if values.p.Some? {
        status, commands, rereads := Perform(SetPressure(SentPressure(values.p.value)), turns.p);
        if !status.IsOk() {
          return;
        }
      }
      status := OK;
    }

    /** ... from the salinity on, stopping if it is refused. */
    method WriteSalinityOn(values: Comp, turns: WriteTurns) returns (status: Status, commands: nat, rereads: nat)
      modifies this
      ensures Ran(device, status, commands, rereads) == WriteFrom(old(device), values, turns, 1)
    {
      commands, rereads := 0, 0;
      if values.s.Some? {
        status, commands, rereads := Perform(SetSalinity(SentSalinity(values.s.value)), turns.s);
        if !status.IsOk() {
          return;
        }
      }
      var sent, more: nat;
      status, sent, more := WritePressure(values, turns);
      commands, rereads := commands + sent, rereads + more;
    }

    /** The DO writer: temperature, salinity, pressure, stopping at the first refusal. */
    method WriteDo(values: Comp, turns: WriteTurns) returns (status: Status, commands: nat, rereads: nat)
      modifies this
      ensures Ran(device, status, commands, rereads) == WriteFrom(old(device), values, turns, 0)
    {
      commands, rereads := 0, 0;
      if values.t.Some? {
        status, commands, rereads := Perform(SetTemperature(SentTemperature(values.t.value)), turns.t);
        if !status.IsOk() {
          return;
        }
      }
      var sent, more: nat;
      status, sent, more := WriteSalinityOn(values, turns);
      commands, rereads := commands + sent, rereads + more;
    }

    /** The pH writer sends the temperature, if there is one. */
    method WritePh(values: Comp, turns: WriteTurns) returns (status: Status, commands: nat, rereads: nat)
      requires !device.family.Do?
      modifies this
      ensures Ran(device, status, commands, rereads) == Write(old(device), values, turns)
    {
      commands, rereads := 0, 0;
      if values.t.None? {
        return OK, commands, rereads;
      }
      status, commands, rereads := Perform(SetTemperature(SentTemperature(values.t.value)), turns.t);
    }

    /** One query; the value shown is read off the device as it then is. */
    method Ask(q: Query) returns (asked: Device)
      modifies this
      ensures asked == Asked(old(device), q) && device == Answered(old(device), q)
    {
      if q.cutBefore {
        device := Cut(device);
      }
      asked := device;
      if q.cutAfter {
        device := Cut(device);
      }
      device := device.(clock := device.clock + 1);
    }

    /** The DO reader: nothing is reported unless all three queries are answered. */
    method ReadAllDo(turns: ReadTurns) returns (status: Status, reading: Reading)
      modifies this
      ensures ReadBack(device, status, reading) == ReadDo(old(device), turns)
    {
      var values, asOf := NOTHING, device.clock;
      reading := NO_READING;
      var asked := Ask(turns.t);
      if !turns.t.answered {
        return QueryFailed(turns.t), reading;
      }
      values := values.(t := Some(asked.held.t + turns.t.skew * TEMPERATURE_READBACK));
      asked := Ask(turns.s);
      if !turns.s.answered {
        return QueryFailed(turns.s), reading;
      }
      var inPpt := asked.held.ppt;
      if !inPpt {
        values := values.(s := Some(asked.held.s + turns.s.skew * SALINITY_READBACK));
      }
      asked := Ask(turns.p);
      if !turns.p.answered {
        return QueryFailed(turns.p), reading;
      }
      values := values.(p := Some(asked.held.p + turns.p.skew * PRESSURE_READBACK));
      return OK, Reading(values, inPpt, asOf);
    }

    /** The second half of a DO calibration: Cal, its response, and the restore. */
    method CalAndRestore(zero: bool, restore: Comp, e: Env) returns (status: Status, commands: nat, rereads: nat)
      requires device.family.Do?
      modifies this
      ensures Ran(device, status, commands, rereads) == CalThenRestore(old(device), zero, restore, e)
    {
      status, commands, rereads := Perform(CalibrateDo(zero), e.command);
      assert device.family.Do? && Write(device, restore, e.restore) == WriteFrom(device, restore, e.restore, 0);
      if !e.command.sent {
        return;
      }
      var ignored, c, r := WriteDo(restore, e.restore);
      commands, rereads := commands + c, rereads + r;
    }

    /** The body of a DO calibration: defaults, Cal, restore. */
    method CalibrateDoJob(zero: bool, restore: Comp, e: Env) returns (status: Status, commands: nat, rereads: nat)
      requires device.family.Do?
      modifies this
      ensures Ran(device, status, commands, rereads) == CalibrateDoRun(old(device), zero, restore, e)
    {
      var c, r: nat;
      WriteKeepsRest(device, DO_DEFAULTS, e.write, 0);
      status, commands, rereads := WriteDo(DO_DEFAULTS, e.write);
      if !status.IsOk() {
        var ignored;
        ignored, c, r := WriteDo(restore, e.restore);
        status := Status(status.code, "could not set the default compensation a DO calibration needs");
      } else {
        status, c, r := CalAndRestore(zero, restore, e);
      }
      commands, rereads := commands + c, rereads + r;
    }

    /** The body of a DO compensation check: read, re-send what is lost, read again. */
    method CheckDoJob(wanted: Comp, e: Env) returns (status: Status, reading: Reading, reapplied: bool)
      requires device.family.Do?
      modifies this
      ensures var r := CheckRun(old(device), wanted, e);
        device == r.device && status == r.status && reading == r.reading && reapplied == r.reapplied
    {
      reapplied := false;
      status, reading := ReadAllDo(e.first);
      if !status.IsOk() || HoldsAll(wanted, reading.values) {
        return;
      }
      ghost var afterRead := device;
      var commands, rereads;
      status, commands, rereads := WriteDo(wanted, e.write);
      WriteKeepsRest(afterRead, wanted, e.write, 0);
      if !status.IsOk() {
        status := Status(status.code, "probe lost its compensation and sending it again failed");
        return;
      }
      reapplied := true;
      var again;
      status, again := ReadAllDo(e.again);
      if status.IsOk() {
        reading := again;
      }
    }
  }
}
