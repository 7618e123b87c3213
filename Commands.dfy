/**
  What the two voice-control programs share on the drone side: the drone is reached through
  calls recorded as `Action`s, a call may raise, and the command's parameters are read from
  the decoded reply with Python's `dict.get`, `float`, `int` and `str`.

  The drone is abstract: `Drone.fault` says which exception, if any, a call raises.  The
  conversions of strings to numbers and of values to text are parameters.
*/
module DroneCommands {
  import opened Common
  import opened Assistant

  /** An argument passed to a drone method. */
  datatype Arg = AInt(i: int) | AReal(r: real) | AStr(s: string)

  /** A drone method call, or a blocking `time.sleep` between two calls. */
  datatype Action = Call(name: string, args: seq<Arg>) | Sleep(seconds: real)

  /** The exceptions the handlers tell apart. */
  datatype Fault = ValueError | CoDroneError | OtherFault

  /** `float(s)` and `int(s)` of a string (None: `ValueError`), and `str(v)` of a non-string. */
  datatype Conversions = Conversions(floatOf: string -> Option<real>, intOf: string -> Option<int>, repr: Json -> string)

  /** Whether `is_connected()` holds, and what each call raises. */
  datatype Drone = Drone(connected: bool, fault: Action -> Option<Fault>)

  /** `params.get(key, default)`: a parameter set that is not an object has no `get`. */
  function Param(params: Json, key: string, default: Json): (r: Result<Json, Fault>)
    ensures r.Err? <==> !params.JObject?
    ensures r.Ok? ==> r.value == if key in params.fields then params.fields[key] else default
  {
    if !params.JObject? then Err(OtherFault)
    else if key in params.fields then Ok(params.fields[key])
    else Ok(default)
  }

  /** `float(v)`: numbers and booleans convert, strings are parsed, anything else is a `TypeError`. */
  function ToFloat(v: Json, conv: Conversions): (r: Result<real, Fault>)
    ensures v.JInt? ==> r == Ok(v.i as real)
    ensures v.JReal? ==> r == Ok(v.r)
    ensures (v.JNull? || v.JArray? || v.JObject?) ==> r == Err(OtherFault)
  {
    match v
    case JInt(i) => Ok(i as real)
    case JReal(x) => Ok(x)
    case JBool(b) => Ok(if b then 1.0 else 0.0)
    case JString(s) => if conv.floatOf(s).Some? then Ok(conv.floatOf(s).value) else Err(ValueError)
    case _ => Err(OtherFault)
  }

  /** `int(x)` of a float: the integer part, rounding toward zero. */
  function Truncate(x: real): (n: int)
    ensures x >= 0.0 ==> n as real <= x < n as real + 1.0
    ensures x < 0.0 ==> n as real - 1.0 < x <= n as real
  {
    if x >= 0.0 then x.Floor else -((-x).Floor)
  }

  /** `int(v)`: integers as they are, floats truncated, strings parsed, anything else a `TypeError`. */
  function ToInt(v: Json, conv: Conversions): (r: Result<int, Fault>)
    ensures v.JInt? ==> r == Ok(v.i)
    ensures v.JReal? ==> r == Ok(Truncate(v.r))
    ensures (v.JNull? || v.JArray? || v.JObject?) ==> r == Err(OtherFault)
  {
    match v
    case JInt(i) => Ok(i)
    case JReal(x) => Ok(Truncate(x))
    case JBool(b) => Ok(if b then 1 else 0)
    case JString(s) => if conv.intOf(s).Some? then Ok(conv.intOf(s).value) else Err(ValueError)
    case _ => Err(OtherFault)
  }

  /** `float(params.get(key, default))` */
  function FloatParam(params: Json, key: string, default: real, conv: Conversions): (r: Result<real, Fault>)
    ensures params.JObject? && key !in params.fields ==> r == Ok(default)
  {
    match Param(params, key, JReal(default))
    case Err(f) => Err(f)
    case Ok(v) => ToFloat(v, conv)
  }

  /** `int(params.get(key, default))` */
  function IntParam(params: Json, key: string, default: int, conv: Conversions): (r: Result<int, Fault>)
    ensures params.JObject? && key !in params.fields ==> r == Ok(default)
  {
    match Param(params, key, JInt(default))
    case Err(f) => Err(f)
    case Ok(v) => ToInt(v, conv)
  }

  /** `str(params.get(key, default))` */
  function StrParam(params: Json, key: string, default: string, conv: Conversions): (r: Result<string, Fault>)
    ensures params.JObject? && key !in params.fields ==> r == Ok(default)
  {
    match Param(params, key, JString(default))
    case Err(f) => Err(f)
    case Ok(v) => Ok(if v.JString? then v.s else conv.repr(v))
  }

  /** `max(-100, min(100, power))` */
  function Clamp(power: int): (r: int)
    ensures -100 <= r <= 100
    ensures -100 <= power <= 100 ==> r == power
    ensures power > 100 ==> r == 100
    ensures power < -100 ==> r == -100
  {
    if power > 100 then 100 else if power < -100 then -100 else power
  }

  /** The four stick commands that take a clamped power. */
  predicate IsPowerCommand(name: string)
  {
    name in ["set_throttle", "set_yaw", "set_roll", "set_pitch"]
  }

  /** A power command sends `int(params.get("power", 0))`, clamped. */
  function PowerCall(name: string, params: Json, conv: Conversions): (r: Result<seq<Action>, Fault>)
    ensures r.Ok? ==>
      && |r.value| == 1 && r.value[0].Call? && r.value[0].name == name
      && |r.value[0].args| == 1 && r.value[0].args[0].AInt?
      && -100 <= r.value[0].args[0].i <= 100
    ensures IntParam(params, "power", 0, conv).Ok? ==>
              r == Ok([Call(name, [AInt(Clamp(IntParam(params, "power", 0, conv).value))])])
  {
    match IntParam(params, "power", 0, conv)
    case Err(f) => Err(f)
    case Ok(p) => Ok([Call(name, [AInt(Clamp(p))])])
  }

  /** A timed turn: yaw at `power`, wait, stop the yaw, hover half a second. */
  function Turn(power: int, duration: real): seq<Action>
  {
    [Call("set_yaw", [AInt(power)]), Sleep(duration), Call("set_yaw", [AInt(0)]), Call("hover", [AReal(0.5)])]
  }

  /** A call taking one float parameter, `float(params.get(key, default))`. */
  function TimedCall(name: string, params: Json, key: string, default: real, conv: Conversions): Result<seq<Action>, Fault>
  {
    match FloatParam(params, key, default, conv)
    case Err(f) => Err(f)
    case Ok(d) => Ok([Call(name, [AReal(d)])])
  }

  /** A timed turn with yaw power `power`, for `duration` seconds (default 1.0). */
  function TurnCall(power: int, params: Json, conv: Conversions): Result<seq<Action>, Fault>
  {
    match FloatParam(params, "duration", 1.0, conv)
    case Err(f) => Err(f)
    case Ok(d) => Ok(Turn(power, d))
  }

  /** A call respects the stick range: a power command carries one integer in [-100, 100]. */
  predicate PowerSafe(a: Action)
  {
    a.Call? && IsPowerCommand(a.name) ==> |a.args| == 1 && a.args[0].AInt? && -100 <= a.args[0].i <= 100
  }

  /** Every call of `actions` respects the stick range. */
  predicate AllPowerSafe(actions: seq<Action>)
  {
    forall i :: 0 <= i < |actions| ==> PowerSafe(actions[i])
  }

  /** A timed call that is not a stick command is safe. */
  lemma TimedCallPowerSafe(name: string, params: Json, key: string, default: real, conv: Conversions)
    requires !IsPowerCommand(name)
    ensures TimedCall(name, params, key, default, conv).Ok? ==> AllPowerSafe(TimedCall(name, params, key, default, conv).value)
  {
  }

  /** A turn whose yaw power is in range is safe: it sets that power, then 0. */
  lemma TurnCallPowerSafe(power: int, params: Json, conv: Conversions)
    requires -100 <= power <= 100
    ensures TurnCall(power, params, conv).Ok? ==> AllPowerSafe(TurnCall(power, params, conv).value)
  {
  }

  /** The calls attempted are a prefix of the plan, so a safe plan sends only safe calls. */
  lemma PerformPowerSafe(drone: Drone, actions: seq<Action>)
    requires AllPowerSafe(actions)
    ensures AllPowerSafe(Perform(drone, actions).0)
  {
    var done := Perform(drone, actions).0;
    assert forall i :: 0 <= i < |done| ==> done[i] == actions[i];
  }

  /** `command_data.get("command", "unknown")` */
  function CommandOf(data: map<string, Json>): Json
  {
    if "command" in data then data["command"] else JString("unknown")
  }

  /** `command_data.get("parameters", {})` */
  function ParamsOf(data: map<string, Json>): Json
  {
    if "parameters" in data then data["parameters"] else JObject(map[])
  }

  /**
    Whether the drone counts as flying once `command` is taken into account: `takeoff` sets
    the flag, `land` and `emergency_stop` clear it, anything else keeps it.
  */
  function FlightState(command: Json, flying: bool): bool
  {
    if command == JString("takeoff") then true
    else if command == JString("land") || command == JString("emergency_stop") then false
    else flying
  }

  /** What an action raises: `time.sleep` refuses a negative delay; a call raises what the drone raises. */
  function Raised(drone: Drone, a: Action): Option<Fault>
  {
    match a
    case Sleep(d) => if d < 0.0 then Some(ValueError) else None
    case Call(_, _) => drone.fault(a)
  }

  /**
    Running `actions` in order: every action up to and including the first that raises is
    attempted, and that exception ends the run.
  */
  function Perform(drone: Drone, actions: seq<Action>): (r: (seq<Action>, Option<Fault>))
    ensures |r.0| <= |actions| && r.0 == actions[..|r.0|]
    ensures forall i :: 0 <= i < |r.0| - 1 ==> Raised(drone, r.0[i]).None?
    ensures r.1.None? <==> r.0 == actions && forall i :: 0 <= i < |actions| ==> Raised(drone, actions[i]).None?
    ensures r.1.Some? ==> |r.0| > 0 && Raised(drone, r.0[|r.0| - 1]) == r.1
  {
    if actions == [] then ([], None)
    else match Raised(drone, actions[0])
      case Some(f) => ([actions[0]], Some(f))
      case None =>
        var rest := Perform(drone, actions[1..]);
        assert forall i :: 1 <= i < |actions| ==> actions[i] == actions[1..][i - 1];
        ([actions[0]] + rest.0, rest.1)
  }

  /** A turn with a negative delay stops at the sleep: the yaw is never set back to 0. */
  lemma NegativeTurnKeepsYawing(drone: Drone, power: int, duration: real)
    requires duration < 0.0 && drone.fault(Call("set_yaw", [AInt(power)])).None?
    ensures Perform(drone, Turn(power, duration)) == ([Call("set_yaw", [AInt(power)]), Sleep(duration)], Some(ValueError))
  {
    var t := Turn(power, duration);
    assert Raised(drone, t[0]).None? && Raised(drone, t[1]) == Some(ValueError);
    var rest := Perform(drone, t[1..]);
    assert t[1..][0] == Sleep(duration);
    assert rest == ([Sleep(duration)], Some(ValueError));
    assert Perform(drone, t) == ([t[0]] + rest.0, rest.1);
    assert [t[0]] + rest.0 == [Call("set_yaw", [AInt(power)]), Sleep(duration)];
  }
}
