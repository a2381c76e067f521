/** The arguments of a control call: what each device declares
    (src/core/runtime_state.cpp:129-218) and what is checked before any bus work
    (src/core/ezo_provider_runtime.cpp:162-309). */
module ArgValidation {
  import opened Statuses
  import opened Compensation
  import opened Probe
  import opened Signals

  datatype Kind = BoolKind | DoubleKind | StringKind | OtherKind

  datatype Number = Finite(value: real) | NotFinite

  /** A protocol value: the declared kind, and a payload for each kind. */
  datatype Value = Value(kind: Kind, flag: bool, text: string, number: Number)

  type Args = map<string, Value>

  datatype Function = FindFn | SetLedFn | SleepFn | CalibrateFn | ClearCalibrationFn | SetCompensationFn

  datatype ControlArgs = ControlArgs(ledOn: bool, point: nat, reference: real, values: Comp)

  const NO_ARGS := ControlArgs(false, 0, 0.0, NOTHING)

  datatype Reason = Invalid | OutOfRange

  datatype Verdict = Accepted(filled: ControlArgs) | Rejected(why: Reason)

  // ---- What is declared --------------------------------------------------------------

  datatype ArgSpec = ArgSpec(
    name: string,
    kind: Kind,
    required: bool,
    allowed: seq<string>,
    range: Option<(real, real)>)

  predicate Declared(f: Function, family: Family) {
    match f
    case FindFn => true
    case SetLedFn => true
    case SleepFn => true
    case CalibrateFn => family.Ph? || family.Do?
    case ClearCalibrationFn => family.Ph? || family.Do?
    case SetCompensationFn => family.Ph? || family.Do?
  }

  const PH_POINTS := ["mid", "low", "high"]
  const DO_POINTS := ["atmospheric", "zero"]

  const TEMPERATURE_ARG := "temperature_c"
  const SALINITY_ARG := "salinity_us_cm"
  const PRESSURE_ARG := "pressure_kpa"

  function Specs(f: Function, family: Family): seq<ArgSpec> {
    match f
    case FindFn => []
    case SleepFn => []
    case ClearCalibrationFn => []
    case SetLedFn => [ArgSpec("enabled", BoolKind, true, [], None)]
    case CalibrateFn =>
      if family.Ph? then
        [ArgSpec("point", StringKind, true, PH_POINTS, None),
         ArgSpec("reference_ph", DoubleKind, true, [], Some((0.0, 14.0)))]
      else [ArgSpec("point", StringKind, true, DO_POINTS, None)]
    case SetCompensationFn =>
      [ArgSpec(TEMPERATURE_ARG, DoubleKind, true, [], Some((MIN_TEMPERATURE, MAX_TEMPERATURE)))] +
      (if family.Ph? then []
       else [ArgSpec(SALINITY_ARG, DoubleKind, false, [], Some((MIN_SALINITY, MAX_SALINITY))),
             ArgSpec(PRESSURE_ARG, DoubleKind, false, [], Some((MIN_PRESSURE, MAX_PRESSURE)))])
  }

  predicate Fits(spec: ArgSpec, v: Value) {
    && v.kind == spec.kind
    && (spec.allowed != [] ==> v.text in spec.allowed)
    && (spec.range.Some? ==> v.number.Finite? && spec.range.value.0 <= v.number.value <= spec.range.value.1)
  }

  /** Every argument given is declared and fits its declaration; every required one is given. */
  predicate Satisfies(args: Args, specs: seq<ArgSpec>) {
    && (forall name :: name in args ==>
          exists i :: 0 <= i < |specs| && specs[i].name == name && Fits(specs[i], args[name]))
    && (forall i :: 0 <= i < |specs| && specs[i].required ==> specs[i].name in args)
  }

  // ---- What is enforced --------------------------------------------------------------

  function Points(family: Family): seq<string> {
    if family.Ph? then PH_POINTS else if family.Do? then DO_POINTS else []
  }

  /** `std::find`: the first position of `x`, or the length. */
  function IndexOf(x: string, xs: seq<string>): (i: nat)
    ensures i <= |xs| && (i < |xs| ==> xs[i] == x) && (i == |xs| <==> x !in xs)
  {
    if xs == [] then 0 else if xs[0] == x then 0 else 1 + IndexOf(x, xs[1..])
  }

  /** `validate_calibrate_args`. */
  function ValidateCalibrate(family: Family, args: Args): Verdict {
    if "point" !in args then Rejected(Invalid)
    else if !args["point"].kind.StringKind? then Rejected(Invalid)
    else
      var chosen := IndexOf(args["point"].text, Points(family));
      if chosen == |Points(family)| then Rejected(Invalid)
      else if !family.Ph? then
        if |args| != 1 then Rejected(Invalid) else Accepted(NO_ARGS.(point := chosen))
      else if "reference_ph" !in args then Rejected(Invalid)
      else if |args| != 2 then Rejected(Invalid)
      else
        var v := args["reference_ph"];
        if !v.kind.DoubleKind? then Rejected(Invalid)
        else if !v.number.Finite? then Rejected(Invalid)
        else if v.number.value < 0.0 || v.number.value > 14.0 then Rejected(OutOfRange)
        else Accepted(NO_ARGS.(point := chosen, reference := v.number.value))
  }

  /** The bounds of the field an argument of set_compensation fills, if there is one. */
  function FieldRange(family: Family, name: string): Option<(real, real)> {
    if name == TEMPERATURE_ARG then Some((MIN_TEMPERATURE, MAX_TEMPERATURE))
    else if family.Do? && name == SALINITY_ARG then Some((MIN_SALINITY, MAX_SALINITY))
    else if family.Do? && name == PRESSURE_ARG then Some((MIN_PRESSURE, MAX_PRESSURE))
    else None
  }

  function Fill(values: Comp, name: string, x: real): Comp {
    if name == TEMPERATURE_ARG then values.(t := Some(x))
    else if name == SALINITY_ARG then values.(s := Some(x))
    else values.(p := Some(x))
  }

  /** What is wrong with one argument, if anything. */
  function Defect(family: Family, name: string, v: Value): Option<Reason> {
    var range := FieldRange(family, name);
    if range.None? then Some(Invalid)
    else if !v.kind.DoubleKind? then Some(Invalid)
    else if !v.number.Finite? then Some(Invalid)
    else if v.number.value < range.value.0 || v.number.value > range.value.1 then Some(OutOfRange)
    else None
  }

  predicate Enumerates(order: seq<string>, args: Args) {
    && (forall name :: name in order ==> name in args)
    && (forall name :: name in args ==> name in order)
    && (forall i, j :: 0 <= i < j < |order| ==> order[i] != order[j])
  }

  /** The values of the first n arguments, in iteration order. */
  function Filled(args: Args, order: seq<string>, n: nat): Comp
    requires n <= |order| && forall name :: name in order ==> name in args
  {
    if n == 0 then NOTHING
    else
      var v := args[order[n - 1]];
      Fill(Filled(args, order, n - 1), order[n - 1], if v.number.Finite? then v.number.value else 0.0)
  }

  function FirstDefect(family: Family, args: Args, order: seq<string>, n: nat): Option<Reason>
    requires n <= |order| && forall name :: name in order ==> name in args
    decreases |order| - n
  {
    if n == |order| then None
    else if Defect(family, order[n], args[order[n]]).Some? then Defect(family, order[n], args[order[n]])
    else FirstDefect(family, args, order, n + 1)
  }

  /** `validate_compensation_args`: the arguments are visited in whatever order the map
      yields them, and the first defect ends the visit. */
  function ValidateCompensation(family: Family, args: Args, order: seq<string>): Verdict
    requires Enumerates(order, args)
  {
    var defect := FirstDefect(family, args, order, 0);
    if defect.Some? then Rejected(defect.value)
    else
      var values := Filled(args, order, |order|);
      if values.t.None? then Rejected(Invalid) else Accepted(NO_ARGS.(values := values))
  }

  /** The checks on one argument, in the source's order. */
  method CheckOneArg(family: Family, name: string, value: Value) returns (defect: Option<Reason>, number: real)
    ensures defect == Defect(family, name, value)
    ensures defect.None? ==> value.number == Finite(number)
  {
    number := 0.0;
    var range := FieldRange(family, name);
    if range.None? {
      return Some(Invalid), number;
    }
    if value.kind != DoubleKind {
      return Some(Invalid), number;
    }
    if !value.number.Finite? {
      return Some(Invalid), number;
    }
    number := value.number.value;
    if number < range.value.0 || number > range.value.1 {
      return Some(OutOfRange), number;
    }
    return None, number;
  }

  /** The loop itself. */
  method CheckCompensationArgs(family: Family, args: Args, order: seq<string>) returns (verdict: Verdict)
    requires Enumerates(order, args)
    ensures verdict == ValidateCompensation(family, args, order)
  {
    var values := NOTHING;
    var i := 0;
    while i < |order|
      invariant 0 <= i <= |order|
      invariant values == Filled(args, order, i)
      invariant FirstDefect(family, args, order, 0) == FirstDefect(family, args, order, i)
    {
      var defect, number := CheckOneArg(family, order[i], args[order[i]]);
      if defect.Some? {
        return Rejected(defect.value);
      }
      values := Fill(values, order[i], number);
      i := i + 1;
    }
    if values.t.None? {
      return Rejected(Invalid);
    }
    return Accepted(NO_ARGS.(values := values));
  }

  /** `validate_call_args`. */
  function Validate(f: Function, family: Family, args: Args, order: seq<string>): Verdict
    requires Enumerates(order, args)
  {
    match f
    case FindFn => if args != map[] then Rejected(Invalid) else Accepted(NO_ARGS)
    case SleepFn => if args != map[] then Rejected(Invalid) else Accepted(NO_ARGS)
    case ClearCalibrationFn => if args != map[] then Rejected(Invalid) else Accepted(NO_ARGS)
    case SetLedFn =>
      if "enabled" !in args then Rejected(Invalid)
      else if |args| != 1 then Rejected(Invalid)
      else if !args["enabled"].kind.BoolKind? then Rejected(Invalid)
      else Accepted(NO_ARGS.(ledOn := args["enabled"].flag))
    case CalibrateFn => ValidateCalibrate(family, args)
    case SetCompensationFn => ValidateCompensation(family, args, order)
  }

  // ---- Declared and enforced agree ---------------------------------------------------

  lemma OnlyKey(args: Args, a: string)
    requires a in args
    ensures |args| == 1 <==> forall name :: name in args ==> name == a
  {
    var rest := args.Keys - {a};
    assert args.Keys == rest + {a};
    if forall name :: name in args ==> name == a {
      assert rest == {};
    }
    if |args| == 1 {
      assert |rest| == 0;
    }
  }

  lemma OnlyTwoKeys(args: Args, a: string, b: string)
    requires a in args && b in args && a != b
    ensures |args| == 2 <==> forall name :: name in args ==> name == a || name == b
  {
    var rest := args.Keys - {a, b};
    assert args.Keys == rest + {a, b};
    assert |{a, b}| == 2;
    if forall name :: name in args ==> name == a || name == b {
      assert rest == {};
    }
    if |args| == 2 {
      assert |rest| == 0;
    }
  }

  lemma SetLedAgrees(args: Args)
    ensures Satisfies(args, Specs(SetLedFn, Ph)) <==>
      "enabled" in args && |args| == 1 && args["enabled"].kind.BoolKind?
  {
    var specs := Specs(SetLedFn, Ph);
    assert specs[0].name == "enabled";
    if "enabled" in args {
      OnlyKey(args, "enabled");
    }
  }

  lemma CalibrateDoAgrees(args: Args)
    ensures ValidateCalibrate(Do, args).Accepted? <==> Satisfies(args, Specs(CalibrateFn, Do))
  {
    var specs := Specs(CalibrateFn, Do);
    assert specs[0].name == "point" && specs[0].allowed == Points(Do);
    if "point" in args {
      OnlyKey(args, "point");
    }
  }

  lemma CalibratePhAgrees(args: Args)
    ensures ValidateCalibrate(Ph, args).Accepted? <==> Satisfies(args, Specs(CalibrateFn, Ph))
  {
    var specs := Specs(CalibrateFn, Ph);
    var a, b := "point", "reference_ph";
    assert |a| != |b|;
    assert specs[0].name == a && specs[0].allowed == Points(Ph) && specs[1].name == b;
    if a in args && b in args {
      OnlyTwoKeys(args, a, b);
    }
  }

  /** The first defect is the defect of some argument, and there is one if any has one. */
  lemma {:induction false} FirstDefectFound(family: Family, args: Args, order: seq<string>, n: nat)
    requires n <= |order| && forall name :: name in order ==> name in args
    ensures var d := FirstDefect(family, args, order, n);
      && (d.None? ==> forall i :: n <= i < |order| ==> Defect(family, order[i], args[order[i]]).None?)
      && (d.Some? ==> exists i :: n <= i < |order| && Defect(family, order[i], args[order[i]]) == d)
    decreases |order| - n
  {
    if n < |order| && Defect(family, order[n], args[order[n]]).None? {
      FirstDefectFound(family, args, order, n + 1);
    }
  }

  /** Filling reads nothing but the arguments: each field has the value given for it. */
  lemma {:induction false} FilledFields(args: Args, order: seq<string>, n: nat)
    requires n <= |order| && forall name :: name in order ==> name in args
    requires forall i :: 0 <= i < n ==> order[i] in [TEMPERATURE_ARG, SALINITY_ARG, PRESSURE_ARG]
    requires forall i :: 0 <= i < n ==> args[order[i]].number.Finite?
    ensures var c := Filled(args, order, n);
      && c.t == (if TEMPERATURE_ARG in order[..n] then Some(args[TEMPERATURE_ARG].number.value) else None)
      && c.s == (if SALINITY_ARG in order[..n] then Some(args[SALINITY_ARG].number.value) else None)
      && c.p == (if PRESSURE_ARG in order[..n] then Some(args[PRESSURE_ARG].number.value) else None)
  {
    ArgNamesDiffer();
    if n > 0 {
      FilledFields(args, order, n - 1);
      assert order[..n] == order[..n - 1] + [order[n - 1]];
    }
  }

  lemma ArgNamesDiffer()
    ensures TEMPERATURE_ARG != SALINITY_ARG && SALINITY_ARG != PRESSURE_ARG && TEMPERATURE_ARG != PRESSURE_ARG
  {
  }

  /** No argument has a defect exactly when every argument is declared and fits. */
  lemma NoDefectIsFit(family: Family, args: Args)
    requires family.Ph? || family.Do?
    ensures (forall name :: name in args ==> Defect(family, name, args[name]).None?) <==>
      forall name :: name in args ==>
        exists i :: 0 <= i < |Specs(SetCompensationFn, family)|
                    && Specs(SetCompensationFn, family)[i].name == name
                    && Fits(Specs(SetCompensationFn, family)[i], args[name])
  {
    forall name | name in args
      ensures Defect(family, name, args[name]).None? <==>
        exists i :: 0 <= i < |Specs(SetCompensationFn, family)|
                    && Specs(SetCompensationFn, family)[i].name == name
                    && Fits(Specs(SetCompensationFn, family)[i], args[name])
    {
      OneArgFits(family, name, args[name]);
    }
  }

  lemma OneArgFits(family: Family, name: string, v: Value)
    requires family.Ph? || family.Do?
    ensures Defect(family, name, v).None? <==>
      exists i :: 0 <= i < |Specs(SetCompensationFn, family)|
                  && Specs(SetCompensationFn, family)[i].name == name
                  && Fits(Specs(SetCompensationFn, family)[i], v)
  {
    ArgNamesDiffer();
    var specs := Specs(SetCompensationFn, family);
    assert specs[0].name == TEMPERATURE_ARG;
    if family.Do? {
      assert specs[1].name == SALINITY_ARG && specs[2].name == PRESSURE_ARG;
    }
    if Defect(family, name, v).None? {
      var i := if name == TEMPERATURE_ARG then 0 else if name == SALINITY_ARG then 1 else 2;
      assert specs[i].name == name && Fits(specs[i], v);
    }
  }

  /** What the values of an accepted set_compensation are, in terms of the map alone. */
  function Given(args: Args, name: string): Option<real> {
    if name in args && args[name].number.Finite? then Some(args[name].number.value) else None
  }

  /** A visit meets a defect exactly when some argument of the map has one. */
  lemma DefectMet(family: Family, args: Args, order: seq<string>)
    requires Enumerates(order, args)
    ensures FirstDefect(family, args, order, 0).None? <==>
      forall name :: name in args ==> Defect(family, name, args[name]).None?
  {
    FirstDefectFound(family, args, order, 0);
    if FirstDefect(family, args, order, 0).None? {
      forall name | name in args ensures Defect(family, name, args[name]).None? {
        var i :| 0 <= i < |order| && order[i] == name;
      }
    } else {
      var i :| 0 <= i < |order| && Defect(family, order[i], args[order[i]]).Some?;
      assert order[i] in order;
    }
  }

  lemma FilledFromMap(family: Family, args: Args, order: seq<string>)
    requires Enumerates(order, args)
    requires forall name :: name in args ==> Defect(family, name, args[name]).None?
    ensures Filled(args, order, |order|) ==
      Comp(Given(args, TEMPERATURE_ARG), Given(args, SALINITY_ARG), Given(args, PRESSURE_ARG))
  {
    forall i | 0 <= i < |order|
      ensures order[i] in [TEMPERATURE_ARG, SALINITY_ARG, PRESSURE_ARG] && args[order[i]].number.Finite?
    {
      assert order[i] in order;
    }
    FilledFields(args, order, |order|);
    assert order[..|order|] == order;
  }

  lemma CompensationVerdict(family: Family, args: Args, order: seq<string>)
    requires Enumerates(order, args)
    ensures ValidateCompensation(family, args, order).Accepted? <==>
      TEMPERATURE_ARG in args && forall name :: name in args ==> Defect(family, name, args[name]).None?
    ensures ValidateCompensation(family, args, order).Accepted? ==>
      ValidateCompensation(family, args, order).filled ==
        NO_ARGS.(values := Comp(Given(args, TEMPERATURE_ARG), Given(args, SALINITY_ARG), Given(args, PRESSURE_ARG)))
  {
    DefectMet(family, args, order);
    if FirstDefect(family, args, order, 0).None? {
      FilledFromMap(family, args, order);
    }
  }

  /** For every family, declared function and argument map, and whatever order the map is
      visited in: the call is accepted exactly when the published specs are satisfied. */
  lemma DeclaredIsEnforced(f: Function, family: Family, args: Args, order: seq<string>)
    requires Declared(f, family) && Enumerates(order, args)
    ensures Validate(f, family, args, order).Accepted? <==> Satisfies(args, Specs(f, family))
  {
    match f
    case SetLedFn => SetLedAgrees(args);
    case CalibrateFn => if family.Ph? { CalibratePhAgrees(args); } else { CalibrateDoAgrees(args); }
    case SetCompensationFn =>
      CompensationVerdict(family, args, order);
      NoDefectIsFit(family, args);
      CompensationRequires(family, args);
    case _ =>
      if args != map[] {
        var name :| name in args;
      }
  }

  lemma CompensationRequires(family: Family, args: Args)
    ensures (forall i :: 0 <= i < |Specs(SetCompensationFn, family)| && Specs(SetCompensationFn, family)[i].required ==>
               Specs(SetCompensationFn, family)[i].name in args) <==> TEMPERATURE_ARG in args
  {
    assert Specs(SetCompensationFn, family)[0].name == TEMPERATURE_ARG;
  }

  /** What an accepted call passes on is what was given, nothing else. */
  lemma FilledAsGiven(f: Function, family: Family, args: Args, order: seq<string>)
    requires Enumerates(order, args) && Validate(f, family, args, order).Accepted?
    ensures var filled := Validate(f, family, args, order).filled;
      && (f.SetLedFn? ==> filled == NO_ARGS.(ledOn := args["enabled"].flag))
      && (f.CalibrateFn? ==> filled.point < |Points(family)| && Points(family)[filled.point] == args["point"].text)
      && (f.CalibrateFn? && family.Ph? ==> args["reference_ph"].number == Finite(filled.reference))
      && (f.SetCompensationFn? ==>
            filled.values == Comp(Given(args, TEMPERATURE_ARG), Given(args, SALINITY_ARG), Given(args, PRESSURE_ARG)))
      && (f.SetCompensationFn? && !family.Do? ==> filled.values.s.None? && filled.values.p.None?)
  {
    if f.SetCompensationFn? {
      CompensationVerdict(family, args, order);
      ArgNamesDiffer();
    }
  }

  // ---- The reason for a rejection, from the published specs ------------------------------

  /** A published range this value, a finite double, is outside of. */
  predicate Outside(spec: ArgSpec, v: Value) {
    spec.range.Some? && v.kind.DoubleKind? && v.number.Finite?
    && !(spec.range.value.0 <= v.number.value <= spec.range.value.1)
  }

  /** No spec has the name, or the value is no finite double. */
  predicate MalformedArg(specs: seq<ArgSpec>, name: string, v: Value) {
    (forall i :: 0 <= i < |specs| ==> specs[i].name != name) || !v.kind.DoubleKind? || !v.number.Finite?
  }

  predicate OutsideArg(specs: seq<ArgSpec>, name: string, v: Value) {
    exists i :: 0 <= i < |specs| && specs[i].name == name && Outside(specs[i], v)
  }

  predicate SomeMalformed(args: Args, specs: seq<ArgSpec>) {
    exists name :: name in args && MalformedArg(specs, name, args[name])
  }

  predicate SomeOutside(args: Args, specs: seq<ArgSpec>) {
    exists name :: name in args && OutsideArg(specs, name, args[name])
  }

  /** One argument of set_compensation is INVALID_ARGUMENT exactly when it is malformed by the
      published specs, and OUT_OF_RANGE exactly when it is a finite double outside them. */
  lemma ReasonForOne(family: Family, name: string, v: Value)
    requires family.Ph? || family.Do?
    ensures var specs := Specs(SetCompensationFn, family);
      && (Defect(family, name, v) == Some(Invalid) <==> MalformedArg(specs, name, v))
      && (Defect(family, name, v) == Some(OutOfRange) <==> OutsideArg(specs, name, v))
  {
    ArgNamesDiffer();
    var specs := Specs(SetCompensationFn, family);
    assert specs[0].name == TEMPERATURE_ARG;
    if family.Do? {
      assert specs[1].name == SALINITY_ARG && specs[2].name == PRESSURE_ARG;
    }
    if Defect(family, name, v) == Some(OutOfRange) {
      var i := if name == TEMPERATURE_ARG then 0 else if name == SALINITY_ARG then 1 else 2;
      assert specs[i].name == name && Outside(specs[i], v);
    }
  }

  /** A rejected set_compensation: INVALID_ARGUMENT if some argument is malformed and none is out
      of range, or if nothing is wrong but that the temperature is missing; OUT_OF_RANGE if some
      is out of range and none malformed; whatever the order. */
  lemma OneKindOfDefect(family: Family, args: Args, order: seq<string>)
    requires (family.Ph? || family.Do?) && Enumerates(order, args)
    ensures var specs, verdict := Specs(SetCompensationFn, family), ValidateCompensation(family, args, order);
      && (SomeMalformed(args, specs) && !SomeOutside(args, specs) ==> verdict == Rejected(Invalid))
      && (SomeOutside(args, specs) && !SomeMalformed(args, specs) ==> verdict == Rejected(OutOfRange))
      && (!SomeOutside(args, specs) && !SomeMalformed(args, specs) && TEMPERATURE_ARG !in args ==>
            verdict == Rejected(Invalid))
  {
    var specs := Specs(SetCompensationFn, family);
    forall name | name in args
      ensures Defect(family, name, args[name]) == Some(Invalid) <==> MalformedArg(specs, name, args[name])
      ensures Defect(family, name, args[name]) == Some(OutOfRange) <==> OutsideArg(specs, name, args[name])
    {
      ReasonForOne(family, name, args[name]);
    }
    DefectMet(family, args, order);
    FirstDefectFound(family, args, order, 0);
    var first := FirstDefect(family, args, order, 0);
    if first.Some? {
      var i :| 0 <= i < |order| && Defect(family, order[i], args[order[i]]) == first;
      assert order[i] in order;
    } else {
      CompensationVerdict(family, args, order);
    }
  }

  /** An enumeration of the map that starts where we like. */
  lemma {:induction false} EnumerateFrom(args: Args, first: string) returns (order: seq<string>)
    requires first in args
    ensures Enumerates(order, args) && order[0] == first
    decreases |args|
  {
    var rest := map name | name in args && name != first :: args[name];
    assert rest.Keys == args.Keys - {first};
    if rest == map[] {
      order := [first];
      forall name | name in args ensures name in order {
        assert name != first ==> name in rest;
      }
    } else {
      var next :| next in rest;
      var tail := EnumerateFrom(rest, next);
      order := [first] + tail;
    }
  }

  /** When both kinds are present, one order answers INVALID_ARGUMENT and another
      OUT_OF_RANGE: exactly then the reason is up to the map. */
  lemma ReasonDependsOnOrder(family: Family, args: Args) returns (one: seq<string>, two: seq<string>)
    requires family.Ph? || family.Do?
    requires SomeMalformed(args, Specs(SetCompensationFn, family))
    requires SomeOutside(args, Specs(SetCompensationFn, family))
    ensures Enumerates(one, args) && ValidateCompensation(family, args, one) == Rejected(Invalid)
    ensures Enumerates(two, args) && ValidateCompensation(family, args, two) == Rejected(OutOfRange)
  {
    var specs := Specs(SetCompensationFn, family);
    var a :| a in args && MalformedArg(specs, a, args[a]);
    var b :| b in args && OutsideArg(specs, b, args[b]);
    ReasonForOne(family, a, args[a]);
    ReasonForOne(family, b, args[b]);
    one := EnumerateFrom(args, a);
    two := EnumerateFrom(args, b);
  }

  /** A calibrate call is OUT_OF_RANGE exactly when all is as published but that the reference is
      outside its range; every other rejection, of it or of a function without numbers, is
      INVALID_ARGUMENT. */
  lemma CalibrateReason(args: Args)
    ensures var specs := Specs(CalibrateFn, Ph);
      ValidateCalibrate(Ph, args) == Rejected(OutOfRange) <==>
        && "point" in args && Fits(specs[0], args["point"])
        && "reference_ph" in args && Outside(specs[1], args["reference_ph"])
        && (forall name :: name in args ==> name == "point" || name == "reference_ph")
  {
    var specs := Specs(CalibrateFn, Ph);
    var a, b := "point", "reference_ph";
    assert |a| != |b|;
    assert specs[0].name == a && specs[0].allowed == Points(Ph) && specs[1].name == b;
    if a in args && b in args {
      OnlyTwoKeys(args, a, b);
    }
  }

  lemma OtherReasons(f: Function, family: Family, args: Args, order: seq<string>)
    requires Enumerates(order, args) && !f.SetCompensationFn? && !(f.CalibrateFn? && family.Ph?)
    ensures Validate(f, family, args, order) != Rejected(OutOfRange)
  {
  }

  /** What a device offers beside its signals: calibration exactly where there is a level to
      show, compensation exactly where there is a compensation temperature. */
  lemma FunctionsMatchSignals(f: Function, family: Family)
    ensures Declared(f, family) <==>
      match f
      case CalibrateFn => LevelSignal(family).Some?
      case ClearCalibrationFn => LevelSignal(family).Some?
      case SetCompensationFn => TemperatureSignal(family).Some?
      case _ => true
  {
  }
}
