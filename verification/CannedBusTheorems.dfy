/** What the canned devices guarantee over any sequence of bus operations. */
module CannedBusTheorems {
  import opened Statuses
  import opened Compensation
  import Probe
  import opened CannedBus

  // ---- Split and atomic exchanges -----------------------------------------------------------

  /** An atomic exchange as the separate operations it stands for. */
  function Split(op: Op): seq<Op> {
    if !op.WriteThenRead? then [op]
    else
      (if op.tx != [] then [WriteTo(op.address, op.tx)] else []) +
      (if op.room.len > 0 then [ReadFrom(op.address, op.room)] else [])
  }

  function SplitAll(ops: seq<Op>): seq<Op> {
    if ops == [] then [] else SplitAll(ops[..|ops| - 1]) + Split(ops[|ops| - 1])
  }

  predicate Reads(op: Op) { op.ReadFrom? || (op.WriteThenRead? && op.room.len > 0) }

  /** The replies to everything that reads. */
  function ReadReplies(o: Options, text: Text, bus: Bus, ops: seq<Op>): seq<Reply>
  {
    if ops == [] then []
    else
      var before, op := ops[..|ops| - 1], ops[|ops| - 1];
      ReadReplies(o, text, bus, before) +
      (if Reads(op) then [Step(o, text, After(o, text, bus, before), op).reply] else [])
  }

  lemma {:induction false} RunInParts(o: Options, text: Text, bus: Bus, ops: seq<Op>, rest: seq<Op>)
    ensures After(o, text, bus, ops + rest) == After(o, text, After(o, text, bus, ops), rest)
    ensures ReadReplies(o, text, bus, ops + rest) ==
      ReadReplies(o, text, bus, ops) + ReadReplies(o, text, After(o, text, bus, ops), rest)
    decreases |rest|
  {
    if rest == [] {
      assert ops + rest == ops;
    } else {
      var before := rest[..|rest| - 1];
      assert (ops + rest)[..|ops + rest| - 1] == ops + before;
      RunInParts(o, text, bus, ops, before);
    }
  }

  lemma OneOp(o: Options, text: Text, bus: Bus, op: Op)
    ensures After(o, text, bus, [op]) == Step(o, text, bus, op).bus
    ensures ReadReplies(o, text, bus, [op]) == if Reads(op) then [Step(o, text, bus, op).reply] else []
  {
  }

  lemma SplitOne(o: Options, text: Text, bus: Bus, op: Op)
    ensures After(o, text, bus, Split(op)) == After(o, text, bus, [op])
    ensures ReadReplies(o, text, bus, Split(op)) == ReadReplies(o, text, bus, [op])
  {
    if op.WriteThenRead? {
      var w, r := WriteTo(op.address, op.tx), ReadFrom(op.address, op.room);
      OneOp(o, text, bus, op);
      OneOp(o, text, bus, w);
      if op.tx != [] && op.room.len > 0 {
        var mid := Step(o, text, bus, w).bus;
        OneOp(o, text, mid, r);
        RunInParts(o, text, bus, [w], [r]);
        assert Split(op) == [w] + [r];
      } else if op.room.len > 0 {
        OneOp(o, text, bus, r);
        assert Split(op) == [r];
      } else if op.tx != [] {
        assert Split(op) == [w];
      }
    }
  }

  /** Replacing every atomic exchange of a run by its separate operations changes neither
      the state the run ends in nor any frame or error a read returns. */
  lemma {:induction false} SplitRunIsTheSame(o: Options, text: Text, bus: Bus, ops: seq<Op>)
    ensures After(o, text, bus, SplitAll(ops)) == After(o, text, bus, ops)
    ensures ReadReplies(o, text, bus, SplitAll(ops)) == ReadReplies(o, text, bus, ops)
  {
    if ops != [] {
      var before, op := ops[..|ops| - 1], ops[|ops| - 1];
      var mid := After(o, text, bus, before);
      SplitRunIsTheSame(o, text, bus, before);
      SplitOne(o, text, mid, op);
      OneOp(o, text, mid, op);
      RunInParts(o, text, bus, SplitAll(before), Split(op));
    }
  }

  /** An exchange made as a write and then a read whatever the lengths gives the atomic
      form's reply exactly when the bus is closed or there is something to read into. */
  lemma WriteThenReadExact(o: Options, text: Text, bus: Bus, a: uint8, tx: string, room: Room)
    ensures var split := Step(o, text, Step(o, text, bus, WriteTo(a, tx)).bus, ReadFrom(a, room));
      split.reply == Step(o, text, bus, WriteThenRead(a, tx, room)).reply <==> !bus.open || room.len > 0
  {
  }

  /** The last thing said about the bus being open. */
  function LastSaid(ops: seq<Op>, start: bool): bool {
    if ops == [] then start
    else if ops[|ops| - 1].Open? then true
    else if ops[|ops| - 1].Close? then false
    else LastSaid(ops[..|ops| - 1], start)
  }

  /** In any run an operation on a device fails for want of an open bus exactly when the bus was
      last closed, or never opened; and the count a reader is given is that of its bytes. */
  lemma {:induction false} OpenIsLastSaid(o: Options, text: Text, bus: Bus, ops: seq<Op>, op: Op)
    ensures After(o, text, bus, ops).open == LastSaid(ops, bus.open)
    ensures var reply := Step(o, text, After(o, text, bus, ops), op).reply;
      && (!op.Open? && !op.Close? ==> (reply == Failed(NotOpen) <==> !LastSaid(ops, bus.open)))
      && (reply.Done? && reply.received.Some? ==> reply.received.value == |reply.bytes|)
  {
    if ops != [] {
      OpenIsLastSaid(o, text, bus, ops[..|ops| - 1], ops[|ops| - 1]);
    }
  }

  // ---- Addresses do not interfere -----------------------------------------------------------

  predicate Concerns(op: Op, a: uint8) { op.Open? || op.Close? || op.address == a }

  function Only(ops: seq<Op>, a: uint8): seq<Op> {
    if ops == [] then []
    else Only(ops[..|ops| - 1], a) + (if Concerns(ops[|ops| - 1], a) then [ops[|ops| - 1]] else [])
  }

  /** Everything the operations on one address return. */
  function RepliesAt(o: Options, text: Text, bus: Bus, ops: seq<Op>, a: uint8): seq<Reply>
  {
    if ops == [] then []
    else
      var before, op := ops[..|ops| - 1], ops[|ops| - 1];
      RepliesAt(o, text, bus, before, a) +
      (if Concerns(op, a) then [Step(o, text, After(o, text, bus, before), op).reply] else [])
  }

  predicate SameAt(o: Options, b1: Bus, b2: Bus, a: uint8) {
    b1.open == b2.open && UnitAt(o, b1, a) == UnitAt(o, b2, a)
  }

  lemma ForeignStep(o: Options, text: Text, b1: Bus, b2: Bus, op: Op, a: uint8)
    requires SameAt(o, b1, b2, a) && !Concerns(op, a)
    ensures SameAt(o, Step(o, text, b1, op).bus, b2, a)
  {
  }

  lemma OwnStep(o: Options, text: Text, b1: Bus, b2: Bus, op: Op, a: uint8)
    requires SameAt(o, b1, b2, a) && Concerns(op, a)
    ensures SameAt(o, Step(o, text, b1, op).bus, Step(o, text, b2, op).bus, a)
    ensures Step(o, text, b1, op).reply == Step(o, text, b2, op).reply
  {
  }

  /** Whatever is done to other addresses, an address ends in the same state and gives the
      same replies as if those operations had not been made. */
  lemma {:induction false} AddressesAreIsolated(o: Options, text: Text, b1: Bus, b2: Bus, ops: seq<Op>, a: uint8)
    requires SameAt(o, b1, b2, a)
    ensures SameAt(o, After(o, text, b1, ops), After(o, text, b2, Only(ops, a)), a)
    ensures RepliesAt(o, text, b1, ops, a) == RepliesAt(o, text, b2, Only(ops, a), a)
  {
    if ops != [] {
      var before, op := ops[..|ops| - 1], ops[|ops| - 1];
      AddressesAreIsolated(o, text, b1, b2, before, a);
      var mid1, mid2 := After(o, text, b1, before), After(o, text, b2, Only(before, a));
      if Concerns(op, a) {
        OwnStep(o, text, mid1, mid2, op, a);
        assert Only(ops, a)[..|Only(ops, a)| - 1] == Only(before, a);
      } else {
        ForeignStep(o, text, mid1, mid2, op, a);
        assert Only(ops, a) == Only(before, a);
      }
    }
  }

  // ---- The state of a device is its history ----------------------------------------------------

  /** The command an operation gets a device to act on: written to it, on an open bus, and
      not the one it is set up to reject. */
  function ActedOn(o: Options, bus: Bus, op: Op, a: uint8): seq<string> {
    if bus.open && (op.WriteTo? || op.WriteThenRead?) && op.address == a && op.tx != [] && op.tx != o.statusCommand
    then [op.tx] else []
  }

  function Accepted(o: Options, text: Text, bus: Bus, ops: seq<Op>, a: uint8): seq<string>
  {
    if ops == [] then []
    else
      var before := ops[..|ops| - 1];
      Accepted(o, text, bus, before, a) + ActedOn(o, After(o, text, bus, before), ops[|ops| - 1], a)
  }

  /** The level a command sets outright, if it does. */
  function SetsLevel(family: CannedFamily, cmd: string): Option<uint32> {
    if IsSetting(cmd) || !CalibrationEffect(family, cmd).LevelTo? then None
    else Some(CalibrationEffect(family, cmd).level)
  }

  predicate AddsPoint(family: CannedFamily, cmd: string) {
    !IsSetting(cmd) && CalibrationEffect(family, cmd).OneMorePoint?
  }

  /** The last level set outright, and how many DO points were taken since. */
  function LastSet(family: CannedFamily, cmds: seq<string>): Option<uint32> {
    if cmds == [] then None
    else
      var last := SetsLevel(family, cmds[|cmds| - 1]);
      if last.Some? then last else LastSet(family, cmds[..|cmds| - 1])
  }

  function PointsSince(family: CannedFamily, cmds: seq<string>): nat {
    if cmds == [] || SetsLevel(family, cmds[|cmds| - 1]).Some? then 0
    else PointsSince(family, cmds[..|cmds| - 1]) + (if AddsPoint(family, cmds[|cmds| - 1]) then 1 else 0)
  }

  function UpFrom(start: uint32, points: nat): int {
    if points == 0 then start as int
    else if start == 0xFFFF_FFFF then (if points < 3 then points - 1 else 2)
    else if start as int + points < 2 then start as int + points
    else 2
  }

  function LevelFrom(family: CannedFamily, start: uint32, cmds: seq<string>): int {
    UpFrom(if LastSet(family, cmds).Some? then LastSet(family, cmds).value else start, PointsSince(family, cmds))
  }

  lemma OneCommandMore(family: CannedFamily, start: uint32, cmds: seq<string>, cmd: string, level: uint32, text: Text)
    requires level as int == LevelFrom(family, start, cmds)
    ensures var e := EffectOf(text, family, cmd);
      LevelFrom(family, start, cmds + [cmd]) ==
        if e.LevelTo? then e.level as int else if e.OneMorePoint? then OnePointUp(level) as int else level as int
  {
  }

  lemma RecordedLevel(o: Options, text: Text, u: Unit, cmd: string)
    ensures Recorded(o, text, u, cmd).family == u.family
    ensures Recorded(o, text, u, cmd).level ==
      if cmd == o.statusCommand then u.level else Affected(u, EffectOf(text, u.family, cmd)).level
  {
  }

  lemma AnswerKeepsLevel(o: Options, u: Unit)
    ensures AfterAnswer(o, u).family == u.family && AfterAnswer(o, u).level == u.level
    ensures o.revertAfter == 0 || Rejects(o, u) || !IsReading(u.lastCommand) ==> AfterAnswer(o, u).held == u.held
  {
  }

  /** The device at `a` once an operation has written to it. */
  function Noted(o: Options, text: Text, bus: Bus, op: Op, a: uint8): Unit {
    var u := UnitAt(o, bus, a);
    if bus.open && (op.WriteTo? || op.WriteThenRead?) && op.address == a && op.tx != [] then Recorded(o, text, u, op.tx)
    else u
  }

  /** An operation that makes the device answer. */
  predicate Answers(bus: Bus, op: Op, a: uint8) {
    bus.open && (op.ReadFrom? || (op.WriteThenRead? && op.room.len > 0)) && op.address == a
  }

  /** An operation writes to the device, and makes it answer, or does one of them, or neither. */
  lemma StepAt(o: Options, text: Text, bus: Bus, op: Op, a: uint8)
    ensures var u := Noted(o, text, bus, op, a);
      UnitAt(o, Step(o, text, bus, op).bus, a) == if Answers(bus, op, a) then AfterAnswer(o, u) else u
  {
  }

  /** What one operation leaves of the level and the family. */
  lemma StepLevel(o: Options, text: Text, bus: Bus, op: Op, a: uint8)
    ensures var u, v := UnitAt(o, bus, a), UnitAt(o, Step(o, text, bus, op).bus, a);
      && v.family == u.family
      && (ActedOn(o, bus, op, a) == [] ==> v.level == u.level)
      && (ActedOn(o, bus, op, a) != [] ==> v.level == Affected(u, EffectOf(text, u.family, op.tx)).level)
  {
    StepAt(o, text, bus, op, a);
    AnswerKeepsLevel(o, Noted(o, text, bus, op, a));
    if op.WriteTo? || op.WriteThenRead? {
      RecordedLevel(o, text, UnitAt(o, bus, a), op.tx);
    }
  }

  lemma StepHistory(o: Options, text: Text, bus: Bus, op: Op, a: uint8, start: uint32, before: seq<string>)
    requires UnitAt(o, bus, a).level as int == LevelFrom(UnitAt(o, bus, a).family, start, before)
    ensures var v := UnitAt(o, Step(o, text, bus, op).bus, a);
      && v.family == UnitAt(o, bus, a).family
      && v.level as int == LevelFrom(v.family, start, before + ActedOn(o, bus, op, a))
  {
    var u := UnitAt(o, bus, a);
    StepLevel(o, text, bus, op, a);
    if ActedOn(o, bus, op, a) != [] {
      OneCommandMore(u.family, start, before, op.tx, u.level, text);
    } else {
      assert before + ActedOn(o, bus, op, a) == before;
    }
  }

  /** In every run the level an address reports is fixed by the commands it acted on: the
      last level set outright, or else the one it started with, and one more for each DO
      point since, capped at two; readings, pending answers, rejected commands, simulated
      power cuts and other addresses leave it alone. */
  lemma {:induction false} LevelIsHistory(o: Options, text: Text, bus: Bus, ops: seq<Op>, a: uint8)
    ensures var u, v := UnitAt(o, bus, a), UnitAt(o, After(o, text, bus, ops), a);
      v.family == u.family && v.level as int == LevelFrom(u.family, u.level, Accepted(o, text, bus, ops, a))
  {
    if ops != [] {
      var before, op := ops[..|ops| - 1], ops[|ops| - 1];
      LevelIsHistory(o, text, bus, before, a);
      StepHistory(o, text, After(o, text, bus, before), op, a, UnitAt(o, bus, a).level,
                  Accepted(o, text, bus, before, a));
    }
  }

  // ---- ... and so is its compensation --------------------------------------------------------------

  /** What happens to the compensation: a command the device acts on, or a simulated power cut. */
  datatype Incident = Told(cmd: string) | Reverted

  /** A reading that answers a reading command. */
  predicate GivesReading(o: Options, u: Unit) {
    !Rejects(o, u) && u.pendingLeft == 0 && IsReading(u.lastCommand)
  }

  /** ... and is the one after which the compensation goes back to the defaults. */
  predicate RevertsNow(o: Options, u: Unit) {
    GivesReading(o, u) && o.revertAfter > 0 && Bumped(u.readings) as int == o.revertAfter as int
  }

  function IncidentsOf(o: Options, text: Text, bus: Bus, op: Op, a: uint8): seq<Incident> {
    (if ActedOn(o, bus, op, a) != [] then [Told(op.tx)] else []) +
    (if Answers(bus, op, a) && RevertsNow(o, Noted(o, text, bus, op, a)) then [Reverted] else [])
  }

  function Incidents(o: Options, text: Text, bus: Bus, ops: seq<Op>, a: uint8): seq<Incident> {
    if ops == [] then []
    else
      var before := ops[..|ops| - 1];
      Incidents(o, text, bus, before, a) + IncidentsOf(o, text, After(o, text, bus, before), ops[|ops| - 1], a)
  }

  predicate Sets(h: Incident, which: char) { h.Told? && IsSetting(h.cmd) && h.cmd[0] == which }

  /** The last incident that set the given value or lost it, and the last that set it. */
  function LastFor(hs: seq<Incident>, which: char): (r: Option<Incident>)
    ensures r.Some? ==> r.value.Reverted? || Sets(r.value, which)
  {
    if hs == [] then None
    else if hs[|hs| - 1].Reverted? || Sets(hs[|hs| - 1], which) then Some(hs[|hs| - 1])
    else LastFor(hs[..|hs| - 1], which)
  }

  function LastSetting(hs: seq<Incident>, which: char): (r: Option<Incident>)
    ensures r.Some? ==> Sets(r.value, which)
  {
    if hs == [] then None
    else if Sets(hs[|hs| - 1], which) then Some(hs[|hs| - 1])
    else LastSetting(hs[..|hs| - 1], which)
  }

  function ValueFrom(text: Text, hs: seq<Incident>, which: char, start: real, powerUp: real): real {
    match LastFor(hs, which)
    case None => start
    case Some(Reverted) => powerUp
    case Some(Told(cmd)) => if |cmd| > 2 then text.number(cmd[2..]) else start
  }

  /** The unit salinity is reported in is set with it, and survives a power cut. */
  function UnitFrom(hs: seq<Incident>, start: bool): bool {
    var last := LastSetting(hs, 'S');
    if last.Some? then Contains(last.value.cmd, ",ppt") else start
  }

  function HeldFrom(text: Text, family: CannedFamily, start: Probe.Settings, hs: seq<Incident>): Probe.Settings {
    var powerUp := if family == Board(Probe.Do) then DO_DEFAULT_TEMPERATURE else PH_DEFAULT_TEMPERATURE;
    Probe.Settings(
      ValueFrom(text, hs, 'T', start.t, powerUp),
      ValueFrom(text, hs, 'S', start.s, DO_DEFAULT_SALINITY),
      UnitFrom(hs, start.ppt),
      ValueFrom(text, hs, 'P', start.p, DO_DEFAULT_PRESSURE))
  }

  lemma LastOne(hs: seq<Incident>, h: Incident, which: char)
    ensures LastFor(hs + [h], which) == if h.Reverted? || Sets(h, which) then Some(h) else LastFor(hs, which)
    ensures LastSetting(hs + [h], which) == if Sets(h, which) then Some(h) else LastSetting(hs, which)
  {
    assert (hs + [h])[..|hs|] == hs;
  }

  lemma LastOnes(hs: seq<Incident>, h: Incident)
    ensures forall which {:trigger LastFor(hs + [h], which)} ::
      LastFor(hs + [h], which) == if h.Reverted? || Sets(h, which) then Some(h) else LastFor(hs, which)
    ensures forall which {:trigger LastSetting(hs + [h], which)} ::
      LastSetting(hs + [h], which) == if Sets(h, which) then Some(h) else LastSetting(hs, which)
  {
    forall which
      ensures LastFor(hs + [h], which) == if h.Reverted? || Sets(h, which) then Some(h) else LastFor(hs, which)
      ensures LastSetting(hs + [h], which) == if Sets(h, which) then Some(h) else LastSetting(hs, which)
    {
      LastOne(hs, h, which);
    }
  }

  lemma OneCutMore(text: Text, start: Probe.Settings, hs: seq<Incident>, u: Unit)
    requires u.held == HeldFrom(text, u.family, start, hs)
    ensures HeldFrom(text, u.family, start, hs + [Reverted]) == ResetCompensation(u).held
  {
    LastOnes(hs, Reverted);
  }

  lemma CalibrationKeepsHeld(u: Unit, cmd: string)
    ensures Affected(u, CalibrationEffect(u.family, cmd)).held == u.held
  {
  }

  lemma OneSettingTold(text: Text, start: Probe.Settings, hs: seq<Incident>, cmd: string, u: Unit)
    requires u.held == HeldFrom(text, u.family, start, hs) && IsSetting(cmd)
    ensures HeldFrom(text, u.family, start, hs + [Told(cmd)]) == Affected(u, SettingEffect(text, cmd)).held
  {
    LastOnes(hs, Told(cmd));
  }

  lemma OneCommandTold(text: Text, start: Probe.Settings, hs: seq<Incident>, cmd: string, u: Unit)
    requires u.held == HeldFrom(text, u.family, start, hs)
    ensures HeldFrom(text, u.family, start, hs + [Told(cmd)]) == Affected(u, EffectOf(text, u.family, cmd)).held
  {
    if IsSetting(cmd) {
      OneSettingTold(text, start, hs, cmd, u);
    } else {
      CalibrationKeepsHeld(u, cmd);
      LastOnes(hs, Told(cmd));
    }
  }

  lemma RecordedHeld(o: Options, text: Text, u: Unit, cmd: string)
    ensures Recorded(o, text, u, cmd).family == u.family
    ensures Recorded(o, text, u, cmd).held ==
      if cmd == o.statusCommand then u.held else Affected(u, EffectOf(text, u.family, cmd)).held
  {
  }

  lemma AnswerHeld(o: Options, u: Unit)
    ensures AfterAnswer(o, u).family == u.family
    ensures AfterAnswer(o, u).held == if RevertsNow(o, u) then ResetCompensation(u).held else u.held
  {
  }

  lemma StepHeld(o: Options, text: Text, bus: Bus, op: Op, a: uint8, start: Probe.Settings, hs: seq<Incident>)
    requires UnitAt(o, bus, a).held == HeldFrom(text, UnitAt(o, bus, a).family, start, hs)
    ensures var v := UnitAt(o, Step(o, text, bus, op).bus, a);
      && v.family == UnitAt(o, bus, a).family
      && v.held == HeldFrom(text, v.family, start, hs + IncidentsOf(o, text, bus, op, a))
  {
    var noted := Noted(o, text, bus, op, a);
    var told := if ActedOn(o, bus, op, a) != [] then hs + [Told(op.tx)] else hs;
    NotedHeld(o, text, bus, op, a, start, hs);
    StepAt(o, text, bus, op, a);
    AnswerHeld(o, noted);
    OneCutMore(text, start, told, noted);
    if Answers(bus, op, a) && RevertsNow(o, noted) {
      assert hs + IncidentsOf(o, text, bus, op, a) == told + [Reverted];
    } else {
      assert hs + IncidentsOf(o, text, bus, op, a) == told;
    }
  }

  lemma NotedHeld(o: Options, text: Text, bus: Bus, op: Op, a: uint8, start: Probe.Settings, hs: seq<Incident>)
    requires UnitAt(o, bus, a).held == HeldFrom(text, UnitAt(o, bus, a).family, start, hs)
    ensures var noted := Noted(o, text, bus, op, a);
      && noted.family == UnitAt(o, bus, a).family
      && noted.held == HeldFrom(text, noted.family, start,
                                if ActedOn(o, bus, op, a) != [] then hs + [Told(op.tx)] else hs)
  {
    var u := UnitAt(o, bus, a);
    if op.WriteTo? || op.WriteThenRead? {
      RecordedHeld(o, text, u, op.tx);
      OneCommandTold(text, start, hs, op.tx, u);
    }
  }

  /** In every run the compensation an address holds is, value by value, what the last incident
      that concerned it left: the value of a command it acted on, or the power-up value after a
      simulated power cut, and else what it started with. */
  lemma {:induction false} CompensationIsHistory(o: Options, text: Text, bus: Bus, ops: seq<Op>, a: uint8)
    ensures var u, v := UnitAt(o, bus, a), UnitAt(o, After(o, text, bus, ops), a);
      v.family == u.family && v.held == HeldFrom(text, u.family, u.held, Incidents(o, text, bus, ops, a))
  {
    if ops != [] {
      var before, op := ops[..|ops| - 1], ops[|ops| - 1];
      CompensationIsHistory(o, text, bus, before, a);
      StepHeld(o, text, After(o, text, bus, before), op, a, UnitAt(o, bus, a).held,
               Incidents(o, text, bus, before, a));
    }
  }

  predicate ReadsOut(o: Options, text: Text, bus: Bus, op: Op, a: uint8) {
    Answers(bus, op, a) && GivesReading(o, Noted(o, text, bus, op, a))
  }

  /** How many readings a device has given. */
  function ReadingsGiven(o: Options, text: Text, bus: Bus, ops: seq<Op>, a: uint8): nat {
    if ops == [] then 0
    else
      var before, op := ops[..|ops| - 1], ops[|ops| - 1];
      ReadingsGiven(o, text, bus, before, a) + if ReadsOut(o, text, After(o, text, bus, before), op, a) then 1 else 0
  }

  lemma StepReadings(o: Options, text: Text, bus: Bus, op: Op, a: uint8)
    requires o.revertAfter > 0
    ensures var u, v := UnitAt(o, bus, a), UnitAt(o, Step(o, text, bus, op).bus, a);
      v.readings == if ReadsOut(o, text, bus, op, a) then Bumped(u.readings) else u.readings
  {
    StepAt(o, text, bus, op, a);
  }

  const TWO_TO_64 := 0x1_0000_0000_0000_0000

  lemma BumpedOnce(n: uint64, total: nat)
    requires n as int == total % TWO_TO_64
    ensures Bumped(n) as int == (total + 1) % TWO_TO_64
  {
  }

  /** The simulated power cut comes with the reading of that number: the counter it is compared
      with is the number of readings given, to 64 bits. */
  lemma {:induction false} ReadingsAreCounted(o: Options, text: Text, bus: Bus, ops: seq<Op>, a: uint8)
    requires o.revertAfter > 0
    ensures UnitAt(o, After(o, text, bus, ops), a).readings as int ==
      (UnitAt(o, bus, a).readings as int + ReadingsGiven(o, text, bus, ops, a)) % TWO_TO_64
  {
    if ops != [] {
      var before := ops[..|ops| - 1];
      var mid := After(o, text, bus, before);
      ReadingsAreCounted(o, text, bus, before, a);
      StepReadings(o, text, mid, ops[|ops| - 1], a);
      BumpedOnce(UnitAt(o, mid, a).readings,
                 UnitAt(o, bus, a).readings as int + ReadingsGiven(o, text, bus, before, a));
    }
  }

  // ---- A canned device is a probe ---------------------------------------------------------------

  /** The salinity command ends in its unit. */
  const UNIT := ",uS"

  /** A number as text, which the C library, stopping where the number ends, reads back as `v`
      from the front of what follows the comma. */
  predicate Spells(text: Text, digits: string, unit: string, v: real) {
    digits != [] && text.number(digits + unit) == v && forall i :: 0 <= i < |digits| ==> digits[i] in "-.0123456789"
  }

  /** The command text the driver sends for a command carrying the number `digits`. */
  function Rendered(c: Probe.Command, digits: string): string {
    match c
    case SetTemperature(_) => "T," + digits
    case SetSalinity(_) => "S," + digits + UNIT
    case SetPressure(_) => "P," + digits
    case CalibrateDo(zero) => if zero then "Cal,0" else "Cal"
    case CalibratePh(point, _) =>
      (if point == 0 then "Cal,mid," else if point == 1 then "Cal,low," else "Cal,high,") + digits
    case ClearCalibration => "Cal,clear"
    case Find => "Find"
    case Led(on) => if on then "L,1" else "L,0"
    case Sleep => "Sleep"
  }

  /** The commands the provider has for a family, with numbers that read back. */
  predicate Sendable(text: Text, family: Probe.Family, c: Probe.Command, digits: string) {
    match c
    case SetTemperature(v) => Spells(text, digits, "", v)
    case SetSalinity(v) => Spells(text, digits, UNIT, v)
    case SetPressure(v) => Spells(text, digits, "", v)
    case CalibrateDo(_) => family.Do?
    case CalibratePh(point, v) => family.Ph? && point < 3 && Spells(text, digits, "", v)
    case _ => true
  }

  /** A DO point is not taken at the top of the 32-bit counter, where the device wraps to 0. */
  predicate RoomForPoint(u: Unit, c: Probe.Command) { c.CalibrateDo? ==> u.level < 0xFFFF_FFFF }

  predicate Represents(u: Unit, d: Probe.Device) {
    u.family == Board(d.family) && u.held == d.held && u.level as int == d.level
  }

  /** The command names uS/cm, and ",ppt" is nowhere in it. */
  lemma NotInPpt(text: Text, digits: string, v: real)
    requires Spells(text, digits, UNIT, v)
    ensures !Contains("S," + digits + UNIT, ",ppt")
  {
    var cmd, n := "S," + digits + UNIT, |digits|;
    assert forall i :: 1 < i < n + 2 ==> cmd[i] == digits[i - 2];
    assert cmd[n + 3] == 'u' && |cmd| == n + 5;
    forall i | 0 <= i <= |cmd| ensures !FoundAt(cmd, ",ppt", i) {
      assert i + 4 <= |cmd| ==> cmd[i..i + 4][0] == cmd[i] && cmd[i..i + 4][1] == cmd[i + 1];
    }
  }

  /** The simulated power cut is the probe's. */
  lemma RevertIsPowerCut(u: Unit, d: Probe.Device)
    requires Represents(u, d)
    ensures Represents(ResetCompensation(u), Probe.Cut(d))
  {
  }

  /** A device first met is a probe just powered up, at the level and in the salinity unit of the
      options, and compensating for the start temperature if there is one. */
  lemma FreshIsPoweredUp(o: Options, a: uint8, d: Probe.Device)
    requires FamilyForAddress(a) == Board(d.family)
    requires d.level == o.calibrationLevel as int && d.held.ppt == o.salinityPpt
    ensures var up := Probe.Cut(d);
      Represents(FreshUnit(o, a),
                 if o.startTemperature > 0.0 then up.(held := up.held.(t := o.startTemperature)) else up)
    ensures FreshUnit(o, a).lastCommand == "" && FreshUnit(o, a).pendingLeft == 0 && FreshUnit(o, a).readings == 0
  {
  }

  // ---- What the fixed answers tell ----------------------------------------------------------------

  /** The address a family is found at. */
  function AddressOf(f: Probe.Family): uint8 {
    match f
    case Do => 97
    case Orp => 98
    case Ph => 99
    case Ec => 100
    case Rtd => 102
    case Hum => 111
  }

  lemma AddressTellsFamily(a: uint8, f: Probe.Family)
    ensures FamilyForAddress(a) == Board(f) <==> a == AddressOf(f)
  {
  }

  /** The vendor's short code for a family. */
  function ProductCode(f: Probe.Family): string {
    match f
    case Do => "D.O."
    case Orp => "ORP"
    case Ph => "pH"
    case Ec => "EC"
    case Rtd => "RTD"
    case Hum => "HUM"
  }

  /** The identity answer carries the code of the family the address stands for. */
  lemma InfoTellsFamily(text: Text, u: Unit, f: Probe.Family)
    requires u.family == FamilyForAddress(AddressOf(f)) && u.lastCommand == "i"
    ensures ResponsePayload(text, AddressOf(f), u) == "?I," + ProductCode(f) + ",mock-1.0"
  {
    AddressTellsFamily(AddressOf(f), f);
  }

  /** How many comma-separated fields a text has. */
  function FieldCount(s: string): nat {
    if s == [] then 1 else FieldCount(s[..|s| - 1]) + if s[|s| - 1] == ',' then 1 else 0
  }

  lemma {:induction false} FieldsAppend(s: string, t: string)
    ensures FieldCount(s + t) + 1 == FieldCount(s) + FieldCount(t)
  {
    if t == [] {
      assert s + t == s;
    } else {
      assert (s + t)[..|s + t| - 1] == s + t[..|t| - 1];
      FieldsAppend(s, t[..|t| - 1]);
    }
  }

  lemma {:induction false} OneField(s: string)
    requires ',' !in s
    ensures FieldCount(s) == 1
  {
    if s != [] {
      OneField(s[..|s| - 1]);
    }
  }

  lemma TwoFields(s: string, t: string)
    requires ',' !in s && ',' !in t
    ensures FieldCount(s + "," + t) == 2
  {
    OneField(s);
    OneField(t);
    assert ","[..0] == "";
    FieldsAppend(s, ",");
    FieldsAppend(s + ",", t);
  }

  lemma ThreeFields(s: string, t: string, u: string)
    requires ',' !in s && ',' !in t && ',' !in u
    ensures FieldCount(s + "," + t + "," + u) == 3
  {
    TwoFields(s, t);
    OneField(u);
    assert ","[..0] == "";
    FieldsAppend(s + "," + t, ",");
    FieldsAppend(s + "," + t + ",", u);
  }

  /** The number of outputs a family has enabled: those its answer to the output query lists after
      the ?O, and one where there is no such query. */
  function EnabledOutputs(f: CannedFamily): int {
    if OutputConfigPayload(f) == "" then 1 else FieldCount(OutputConfigPayload(f)) - 1
  }

  lemma OutputsEnabled(f: CannedFamily)
    ensures EnabledOutputs(f) == if f == Board(Probe.Ec) || f == Board(Probe.Hum) then 2 else 1
  {
    if f == Board(Probe.Do) {
      TwoFields("?O", "mg");
      assert "?O" + "," + "mg" == OutputConfigPayload(f);
    } else if f == Board(Probe.Ec) {
      ThreeFields("?O", "EC", "TDS");
      assert "?O" + "," + "EC" + "," + "TDS" == OutputConfigPayload(f);
    } else if f == Board(Probe.Hum) {
      ThreeFields("?O", "HUM", "T");
      assert "?O" + "," + "HUM" + "," + "T" == OutputConfigPayload(f);
    }
  }

  /** A one-value reading is a plausible value of its family, in the family's decimals. */
  lemma ReadingIsPlausible(text: Text, f: Probe.Family, a: uint8, n: uint64) returns (x: real)
    requires !f.Ec? && !f.Hum?
    ensures match f
      case Ph => ReadPayload(text, Board(f), a, n) == text.fixed(x, 3) && 6.6 <= x <= 8.44
      case Orp => ReadPayload(text, Board(f), a, n) == text.fixed(x, 1) && 251.0 <= x <= 291.0
      case Rtd => ReadPayload(text, Board(f), a, n) == text.fixed(x, 2) && 20.1 <= x <= 21.94
      case _ => ReadPayload(text, Board(f), a, n) == text.fixed(x, 2) && 7.1 <= x <= 8.94
  {
    var base := (a as int % 17 + 1) as real * 0.1;
    var delta := (n as int % 25) as real * 0.01;
    x := match f
      case Ph => 6.5 + base + delta
      case Orp => 250.0 + base * 10.0 + delta * 100.0
      case Rtd => 20.0 + base + delta
      case _ => 7.0 + base + delta;
  }

  /** A reading has one field for each enabled output. */
  lemma ReadingFillsOutputs(text: Text, f: CannedFamily, a: uint8, n: uint64)
    requires forall x, d :: ',' !in text.fixed(x, d)
    requires f.Board?
    ensures FieldCount(ReadPayload(text, f, a, n)) == EnabledOutputs(f)
  {
    OutputsEnabled(f);
    var base := (a as int % 17 + 1) as real * 0.1;
    var delta := (n as int % 25) as real * 0.01;
    if f == Board(Probe.Ec) {
      TwoFields(text.fixed(700.0 + base * 100.0 + delta * 100.0, 1), text.fixed(350.0 + base * 50.0 + delta * 80.0, 1));
    } else if f == Board(Probe.Hum) {
      TwoFields(text.fixed(45.0 + base * 5.0 + delta * 10.0, 1), text.fixed(22.0 + base + delta, 1));
    } else {
      OneField(ReadPayload(text, f, a, n));
    }
  }

  /** A salinity sent in ppt is held in ppt. */
  lemma InPpt(text: Text, family: CannedFamily, digits: string)
    requires digits != [] && digits[0] != '?'
    ensures EffectOf(text, family, "S," + digits + ",ppt") == Salinity(text.number(digits + ",ppt"), true)
  {
    var cmd := "S," + digits + ",ppt";
    assert cmd[2] == digits[0] && cmd[2..] == digits + ",ppt";
    assert cmd[|digits| + 2..|digits| + 6] == ",ppt";
    assert FoundAt(cmd, ",ppt", |digits| + 2);
  }

  function SettingOf(c: Probe.Command): Effect
    requires IsSettingCommand(c)
  {
    match c
    case SetTemperature(v) => Temperature(v)
    case SetSalinity(v) => Salinity(v, false)
    case SetPressure(v) => Pressure(v)
  }

  lemma SettingRendered(text: Text, family: Probe.Family, c: Probe.Command, digits: string)
    requires Sendable(text, family, c, digits) && IsSettingCommand(c)
    ensures EffectOf(text, Board(family), Rendered(c, digits)) == SettingOf(c)
  {
    var cmd := Rendered(c, digits);
    if c.SetSalinity? {
      assert cmd[2] == digits[0] && cmd[2..] == digits + UNIT;
      NotInPpt(text, digits, c.value);
    } else {
      assert cmd[2] == digits[0] && cmd[2..] == digits + "" == digits;
    }
  }

  lemma CalibrationRendered(text: Text, family: Probe.Family, c: Probe.Command, digits: string)
    requires Sendable(text, family, c, digits) && (c.CalibrateDo? || c.CalibratePh? || c.ClearCalibration?)
    ensures EffectOf(text, Board(family), Rendered(c, digits)) ==
      match c
      case CalibratePh(point, _) => LevelTo((point + 1) as uint32)
      case ClearCalibration => LevelTo(0)
      case _ => OneMorePoint
  {
    var cmd := Rendered(c, digits);
    assert cmd[1] == 'a';
    if c.CalibratePh? {
      assert cmd[4] == "mlh"[c.point];
    }
  }

  lemma OtherRendered(text: Text, family: Probe.Family, c: Probe.Command, digits: string)
    requires c.Find? || c.Led? || c.Sleep?
    ensures EffectOf(text, Board(family), Rendered(c, digits)) == NoEffect
  {
  }

  predicate IsSettingCommand(c: Probe.Command) { c.SetTemperature? || c.SetSalinity? || c.SetPressure? }

  /** The query for the value a setting sets. */
  function QueryFor(c: Probe.Command): string
    requires IsSettingCommand(c)
  {
    match c
    case SetTemperature(_) => "T,?"
    case SetSalinity(_) => "S,?"
    case SetPressure(_) => "P,?"
  }

  /** The answer that gives the value back: two decimals, or one and the unit for salinity. */
  function AnswerFor(text: Text, c: Probe.Command): Answer
    requires IsSettingCommand(c)
  {
    match c
    case SetTemperature(v) => Answer(SUCCESS_CODE, "?T," + text.fixed(v, 2))
    case SetSalinity(v) => Answer(SUCCESS_CODE, "?S," + text.fixed(v, 1) + UNIT)
    case SetPressure(v) => Answer(SUCCESS_CODE, "?P," + text.fixed(v, 2))
  }

  /** Set, then asked: whatever number of response reads lie between, the query is answered
      with the value set. */
  lemma SetThenAsked(o: Options, text: Text, a: uint8, u: Unit, c: Probe.Command, digits: string, n: nat)
    requires IsSettingCommand(c) && Sendable(text, Probe.Do, c, digits)
    requires Rendered(c, digits) != o.statusCommand
    requires QueryFor(c) != o.statusCommand && QueryFor(c) != o.pendingCommand
    ensures var given := AfterReads(o, Recorded(o, text, u, Rendered(c, digits)), n);
      AnswerFrame(o, text, a, Recorded(o, text, given, QueryFor(c))) == AnswerFor(text, c)
  {
    SetIsHeld(o, text, u, c, digits, n);
    QueryAnswered(o, text, a, AfterReads(o, Recorded(o, text, u, Rendered(c, digits)), n), c);
  }

  /** A setting the device acts on does its effect, whatever the family. */
  lemma SettingRecorded(o: Options, text: Text, u: Unit, c: Probe.Command, digits: string)
    requires IsSettingCommand(c) && Sendable(text, Probe.Do, c, digits) && Rendered(c, digits) != o.statusCommand
    ensures Recorded(o, text, u, Rendered(c, digits)).held == Affected(u, SettingOf(c)).held
  {
    SettingRendered(text, Probe.Do, c, digits);
    assert EffectOf(text, u.family, Rendered(c, digits)) == SettingOf(c);
  }

  lemma SetIsHeld(o: Options, text: Text, u: Unit, c: Probe.Command, digits: string, n: nat)
    requires IsSettingCommand(c) && Sendable(text, Probe.Do, c, digits) && Rendered(c, digits) != o.statusCommand
    ensures AfterReads(o, Recorded(o, text, u, Rendered(c, digits)), n).held == Affected(u, SettingOf(c)).held
  {
    SettingRecorded(o, text, u, c, digits);
    RenderedIsControl(c, digits);
    ReadsKeepSettings(o, Recorded(o, text, u, Rendered(c, digits)), Rendered(c, digits), n);
  }

  /** A query is answered with the value the device holds. */
  lemma QueryAnswered(o: Options, text: Text, a: uint8, u: Unit, c: Probe.Command)
    requires IsSettingCommand(c) && QueryFor(c) != o.statusCommand && QueryFor(c) != o.pendingCommand
    requires u.held == Affected(u, SettingOf(c)).held
    ensures AnswerFrame(o, text, a, Recorded(o, text, u, QueryFor(c))) == AnswerFor(text, c)
  {
    var query := QueryFor(c);
    assert |query| == 3 && query[2] == '?' && query[1] == ',';
    assert Recorded(o, text, u, query).held == u.held;
  }

  /** Reads of one address, one after another, whatever the buffers. */
  predicate AllReads(ops: seq<Op>, a: uint8) { forall i :: 0 <= i < |ops| ==> ops[i].ReadFrom? && ops[i].address == a }

  lemma {:induction false} ReadsOfOne(o: Options, text: Text, bus: Bus, ops: seq<Op>, a: uint8)
    requires bus.open && AllReads(ops, a)
    ensures After(o, text, bus, ops).open
    ensures UnitAt(o, After(o, text, bus, ops), a) == AfterReads(o, UnitAt(o, bus, a), |ops|)
  {
    if ops != [] {
      var before, op := ops[..|ops| - 1], ops[|ops| - 1];
      ReadsOfOne(o, text, bus, before, a);
      StepAt(o, text, After(o, text, bus, before), op, a);
    }
  }

  /** The round trip on the bus: a T, S or P set, any reads of its answer, and then the query put
      the value set, printed, into the reader's buffer, byte for byte as far as it fits. */
  lemma SetThenRead(o: Options, text: Text, bus: Bus, a: uint8, c: Probe.Command, digits: string,
                    between: seq<Op>, len: nat)
    requires bus.open && len > 0 && AllReads(between, a)
    requires IsSettingCommand(c) && Sendable(text, Probe.Do, c, digits)
    requires Rendered(c, digits) != o.statusCommand
    requires QueryFor(c) != o.statusCommand && QueryFor(c) != o.pendingCommand
    ensures var given := Step(o, text, bus, WriteTo(a, Rendered(c, digits))).bus;
      var asked := Step(o, text, After(o, text, given, between), WriteTo(a, QueryFor(c))).bus;
      var reply := Step(o, text, asked, ReadFrom(a, Room(true, len))).reply;
      && reply.Done? && reply.bytes == FrameBytes(AnswerFor(text, c), len)
      && (forall i :: 0 < i < |reply.bytes| ==>
            reply.bytes[i] as int == AnswerFor(text, c).payload[i - 1] as int % 0x100)
  {
    var cmd := Rendered(c, digits);
    RenderedIsControl(c, digits);
    var after := Step(o, text, bus, WriteTo(a, cmd)).bus;
    StepAt(o, text, bus, WriteTo(a, cmd), a);
    ReadsOfOne(o, text, after, between, a);
    StepAt(o, text, After(o, text, after, between), WriteTo(a, QueryFor(c)), a);
    SetThenAsked(o, text, a, UnitAt(o, bus, a), c, digits, |between|);
  }

  /** A canned device does to its state what the probe of the model does. */
  lemma ActsAsProbe(text: Text, u: Unit, d: Probe.Device, c: Probe.Command, digits: string)
    requires Represents(u, d) && Sendable(text, d.family, c, digits) && RoomForPoint(u, c)
    ensures Represents(Affected(u, EffectOf(text, u.family, Rendered(c, digits))), Probe.Act(d, c))
  {
    if IsSettingCommand(c) {
      SettingRendered(text, d.family, c, digits);
    } else if c.CalibrateDo? || c.CalibratePh? || c.ClearCalibration? {
      CalibrationRendered(text, d.family, c, digits);
    } else {
      OtherRendered(text, d.family, c, digits);
    }
  }

  function FrameOf(code: uint8): Probe.Frame {
    match code
    case 1 => Probe.Success
    case 2 => Probe.Fail
    case 254 => Probe.NotReady
    case 255 => Probe.NoData
    case _ => Probe.Unknown
  }

  /** The status byte of the i-th read after a control command. */
  function CodeAt(o: Options, cmd: string, i: nat): uint8 {
    if cmd == o.statusCommand then o.statusCode
    else if cmd == o.pendingCommand && i < o.pendingReads as int then PENDING_CODE
    else SUCCESS_CODE
  }

  /** The options as what a probe of the model does during one command. */
  function CannedTurn(o: Options, cmd: string): Probe.Turn {
    Probe.Turn(false, true, cmd != o.statusCommand, false, seq(5, i requires 0 <= i => FrameOf(CodeAt(o, cmd, i))))
  }

  function AfterReads(o: Options, u: Unit, n: nat): Unit {
    if n == 0 then u else AfterAnswer(o, AfterReads(o, u, n - 1))
  }

  predicate Resting(o: Options, u: Unit, cmd: string, v: Unit, n: nat) {
    && v.family == u.family && v.held == u.held && v.level == u.level && v.lastCommand == cmd
    && v.pendingLeft as int ==
         if cmd == o.statusCommand then u.pendingLeft as int
         else if u.pendingLeft as int > n then u.pendingLeft as int - n else 0
  }

  lemma {:induction false} ReadsKeepSettings(o: Options, u: Unit, cmd: string, n: nat)
    requires u.lastCommand == cmd && cmd != [] && !IsReading(cmd)
    ensures Resting(o, u, cmd, AfterReads(o, u, n), n)
  {
    if n > 0 {
      ReadsKeepSettings(o, u, cmd, n - 1);
    }
  }

  /** A rejected command, whichever it is, changes neither calibration nor compensation, and
      neither does any number of reads after it; each of them answers the error code. */
  lemma {:induction false} RejectedIsInert(o: Options, text: Text, a: uint8, u: Unit, n: nat)
    requires o.statusCommand != []
    ensures var v := AfterReads(o, Recorded(o, text, u, o.statusCommand), n);
      && v.held == u.held && v.level == u.level && v.lastCommand == o.statusCommand
      && AnswerFrame(o, text, a, v) == Answer(o.statusCode, "")
  {
    if n > 0 {
      RejectedIsInert(o, text, a, u, n - 1);
    }
  }

  lemma RenderedIsControl(c: Probe.Command, digits: string)
    ensures Rendered(c, digits) != [] && !IsReading(Rendered(c, digits))
  {
    assert Rendered(c, digits)[0] != 'r';
  }

  lemma CodesRead(o: Options, text: Text, a: uint8, u: Unit, cmd: string, n: nat)
    requires cmd != [] && !IsReading(cmd)
    ensures AnswerFrame(o, text, a, AfterReads(o, Recorded(o, text, u, cmd), n)).code == CodeAt(o, cmd, n)
  {
    ReadsKeepSettings(o, Recorded(o, text, u, cmd), cmd, n);
  }

  /** A command to a canned device comes out OK exactly when the options say so, and the
      device is an honest probe unless it is set up to answer SUCCESS to a command it
      ignores. */
  lemma TurnVerdict(o: Options, cmd: string)
    ensures var turn := CannedTurn(o, cmd);
      && (Probe.TurnStatus(turn).IsOk() <==>
            if cmd == o.statusCommand then o.statusCode == 1
            else cmd == o.pendingCommand ==> o.pendingReads as int <= Probe.PENDING_REREADS)
      && (Probe.HonestTurn(turn) <==> !(cmd == o.statusCommand && o.statusCode == 1))
  {
    var frames := CannedTurn(o, cmd).frames;
    assert forall i :: 0 <= i < 5 ==> Probe.FrameAt(frames, i) == FrameOf(CodeAt(o, cmd, i));
    var k := Probe.Settles(frames);
    assert Probe.FrameAt(frames, k) == FrameOf(CodeAt(o, cmd, k));
  }

  lemma StateAfterWrite(o: Options, text: Text, u: Unit, d: Probe.Device, c: Probe.Command, digits: string)
    requires Represents(u, d) && Sendable(text, d.family, c, digits) && RoomForPoint(u, c)
    ensures var cmd := Rendered(c, digits);
      Represents(Recorded(o, text, u, cmd), Probe.AfterTurn(d, c, CannedTurn(o, cmd)))
  {
    var cmd := Rendered(c, digits);
    var left := if cmd == o.pendingCommand then o.pendingReads else 0;
    ActsAsProbe(text, u.(lastCommand := cmd, pendingLeft := left), d, c, digits);
  }

  /** One control command to a canned device is one exchange with the probe of the model:
      after it and any number of response reads the device is in the state the probe would
      be in, and the n-th response read gives the answer the probe would give. */
  lemma ExchangeIsProbeExchange(o: Options, text: Text, a: uint8, u: Unit, d: Probe.Device, c: Probe.Command,
                                digits: string, n: nat)
    requires Represents(u, d) && Sendable(text, d.family, c, digits) && RoomForPoint(u, c)
    ensures var cmd := Rendered(c, digits);
      var v := AfterReads(o, Recorded(o, text, u, cmd), n);
      && Represents(v, Probe.AfterTurn(d, c, CannedTurn(o, cmd)))
      && (n < 5 ==> FrameOf(AnswerFrame(o, text, a, v).code) == Probe.FrameAt(CannedTurn(o, cmd).frames, n))
  {
    var cmd := Rendered(c, digits);
    RenderedIsControl(c, digits);
    CodesRead(o, text, a, u, cmd, n);
    StateAfterReads(o, text, u, d, c, digits, n);
  }

  lemma StateAfterReads(o: Options, text: Text, u: Unit, d: Probe.Device, c: Probe.Command, digits: string, n: nat)
    requires Represents(u, d) && Sendable(text, d.family, c, digits) && RoomForPoint(u, c)
    ensures var cmd := Rendered(c, digits);
      Represents(AfterReads(o, Recorded(o, text, u, cmd), n), Probe.AfterTurn(d, c, CannedTurn(o, cmd)))
  {
    var cmd := Rendered(c, digits);
    RenderedIsControl(c, digits);
    ReadsKeepSettings(o, Recorded(o, text, u, cmd), cmd, n);
    StateAfterWrite(o, text, u, d, c, digits);
  }
}
