/**
  The web server's command handling: the reply of the language model becomes a command
  dictionary, and `execute_drone_command` turns it into drone calls while keeping the
  server's `drone_state` (`connected`, `flying`) up to date.
*/
module MainServer {
  import opened Common
  import opened Assistant
  import opened DroneCommands

  /** The error reply the server builds, carrying a message. */
  function ErrorCommand(message: string): Json
  {
    JObject(map["command" := JString("error"), "parameters" := JObject(map["message" := JString(message)])])
  }

  /** How the server's model call ended; the server also fails when it has no client. */
  datatype ServerReply = NoClient | Replied(reply: LlmReply)

  /**
    `get_drone_command_from_text` once the model has answered: no client, or an exception
    from the call, gives an `error` command with its message; a reply is cleaned, decoded
    and validated.
  */
  function GetDroneCommandFromText(reply: ServerReply, decode: string -> Option<Json>, allowed: seq<string>): (r: Json)
    ensures reply.Replied? && reply.reply.Content? ==> Accepted(r, allowed)
    ensures !(reply.Replied? && reply.reply.Content?) ==> CommandName(r) == Some("error")
    ensures reply.Replied? && reply.reply.Content? && decode(StripFence(reply.reply.text)).None? ==> r == Unknown
    ensures reply.Replied? && reply.reply.Content? && decode(StripFence(reply.reply.text)).Some? ==>
              r == Validate(decode(StripFence(reply.reply.text)).value, allowed)
  {
    match reply
    case NoClient => ErrorCommand("OpenAI client not available")
    case Replied(Content(text)) => DecodeReply(text, decode, allowed)
    case Replied(ApiError(e)) => ErrorCommand("OpenAI API Error: " + e)
    case Replied(OtherError(e)) => ErrorCommand("ChatGPT Error: " + e)
  }

  /** The movement commands that take a distance, a unit and a speed. */
  predicate IsMove(name: string)
  {
    name in ["move_forward", "move_backward", "move_left", "move_right"]
  }

  /** `move_*(distance, unit, speed)` with the defaults 50.0, "cm" and 1.0. */
  function MoveCall(name: string, params: Json, conv: Conversions): Result<seq<Action>, Fault>
  {
    match FloatParam(params, "distance", 50.0, conv)
    case Err(f) => Err(f)
    case Ok(distance) =>
      match StrParam(params, "unit", "cm", conv)
      case Err(f) => Err(f)
      case Ok(unit) =>
        match FloatParam(params, "speed", 1.0, conv)
        case Err(f) => Err(f)
        case Ok(speed) => Ok([Call(name, [AReal(distance), AStr(unit), AReal(speed)])])
  }

  /**
    The calls each branch of `execute_drone_command` makes, or the exception its parameter
    conversion raises before any call.
  */
  function Plan(command: Json, params: Json, conv: Conversions): Result<seq<Action>, Fault>
  {
    if !command.JString? then Ok([])
    else
      var name := command.s;
      if name == "takeoff" then Ok([Call("takeoff", []), Call("hover", [AInt(1)])])
      else if name == "land" then Ok([Call("land", [])])
      else if name == "emergency_stop" then Ok([Call("emergency_stop", [])])
      else if name == "flip" then Ok([Call("flip", [])])
      else if name == "spiral" then Ok([Call("spiral", [])])
      else if name == "hover" then TimedCall("hover", params, "duration", 3.0, conv)
      else if IsMove(name) then MoveCall(name, params, conv)
      else if name == "turn_left" then TurnCall(-50, params, conv)
      else if name == "turn_right" then TurnCall(50, params, conv)
      else if name == "move_up" || name == "move_down" then TimedCall(name, params, "duration", 1.0, conv)
      else if IsPowerCommand(name) then PowerCall(name, params, conv)
      else if name == "error" then (if params.JObject? then Ok([]) else Err(OtherFault))
      else Ok([])
  }

  /** The commands `execute_drone_command` has a branch for. */
  predicate Implemented(name: string)
  {
    || name in ["takeoff", "land", "emergency_stop", "flip", "spiral", "hover", "turn_left", "turn_right", "move_up", "move_down"]
    || IsMove(name) || IsPowerCommand(name)
  }

  /**
    The exception handlers: a `ValueError` is only reported; any other exception marks the
    drone as not flying and attempts `land()`.
  */
  function Recover(done: seq<Action>, f: Fault, flying: bool): (seq<Action>, bool)
  {
    if f == ValueError then (done, flying) else (done + [Call("land", [])], false)
  }

  /**
    `execute_drone_command`: the calls attempted and the new `flying` value.  Without a
    connected drone nothing is called and nothing changes.
  */
  function Execute(drone: Option<Drone>, data: map<string, Json>, conv: Conversions, flying: bool): (r: (seq<Action>, bool))
    ensures drone.None? || !drone.value.connected ==> r == ([], flying)
  {
    if drone.None? || !drone.value.connected then ([], flying)
    else
      var command := CommandOf(data);
      match Plan(command, ParamsOf(data), conv)
      case Err(f) => Recover([], f, flying)
      case Ok(actions) =>
        var (done, fault) := Perform(drone.value, actions);
        if fault.None? then (done, FlightState(command, flying)) else Recover(done, fault.value, flying)
  }

  /** The server's `drone_state` dictionary. */
  class DroneStatus {
    var connected: bool
    var flying: bool

    constructor()
      ensures !connected && !flying
    {
      connected := false;
      flying := false;
    }

    /** `execute_drone_command` on the server's state; `connected` is never touched. */
    method ExecuteDroneCommand(drone: Option<Drone>, data: map<string, Json>, conv: Conversions)
      returns (actions: seq<Action>)
      modifies this
      ensures (actions, flying) == Execute(drone, data, conv, old(flying))
      ensures connected == old(connected)
    {
      if drone.None? || !drone.value.connected {
        return [];
      }
      var command := CommandOf(data);
      var plan := Plan(command, ParamsOf(data), conv);
      if plan.Err? {
        assert Execute(drone, data, conv, flying) == Recover([], plan.error, flying);
        if plan.error != ValueError {
          var none: seq<Action> := [];
          assert none + [Call("land", [])] == [Call("land", [])];
          flying := false;
          actions := [Call("land", [])];
        } else {
          actions := [];
        }
        return;
      }
      var done := Perform(drone.value, plan.value);
      assert Execute(drone, data, conv, flying)
          == if done.1.None? then (done.0, FlightState(command, flying)) else Recover(done.0, done.1.value, flying);
      actions := done.0;
      if done.1.None? {
        flying := FlightState(command, flying);
      } else if done.1.value != ValueError {
        flying := false;
        actions := actions + [Call("land", [])];
      }
    }

    /**
      `drone_command_processor`: the queued commands in order, each executed only while the
      server counts the drone as connected.
    */
    method ProcessCommands(drone: Option<Drone>, queue: seq<map<string, Json>>, conv: Conversions)
      returns (actions: seq<Action>)
      modifies this
      ensures (actions, flying) == ProcessAll(drone, connected, queue, conv, old(flying))
      ensures connected == old(connected)
    {
      actions := [];
      var i := 0;
      assert queue[0..] == queue;
      assert [] + ProcessAll(drone, connected, queue, conv, flying).0 == ProcessAll(drone, connected, queue, conv, flying).0;
      while i < |queue|
        invariant 0 <= i <= |queue|
        invariant connected == old(connected)
        invariant ProcessAll(drone, connected, queue, conv, old(flying))
               == Prepend(actions, ProcessAll(drone, connected, queue[i..], conv, flying))
      {
        assert queue[i..][1..] == queue[i + 1..];
        ghost var before := flying;
        if drone.Some? && connected {
          var a := ExecuteDroneCommand(drone, queue[i], conv);
          assert actions + (a + ProcessAll(drone, connected, queue[i + 1..], conv, flying).0)
              == actions + a + ProcessAll(drone, connected, queue[i + 1..], conv, flying).0;
          actions := actions + a;
        }
        i := i + 1;
      }
      assert queue[i..] == [];
      assert actions + [] == actions;
    }
  }

  /** A result with `actions` attempted before it. */
  function Prepend(actions: seq<Action>, r: (seq<Action>, bool)): (seq<Action>, bool)
  {
    (actions + r.0, r.1)
  }

  /** The processor over a queue of commands: all calls attempted, and the final `flying`. */
  function ProcessAll(drone: Option<Drone>, connected: bool, queue: seq<map<string, Json>>, conv: Conversions,
                      flying: bool): (seq<Action>, bool)
  {
    if queue == [] then ([], flying)
    else if drone.Some? && connected then
      var (a, f) := Execute(drone, queue[0], conv, flying);
      Prepend(a, ProcessAll(drone, connected, queue[1..], conv, f))
    else ProcessAll(drone, connected, queue[1..], conv, flying)
  }

  // ----- properties ----------------------------------------------------------------------------

  /**
    `flying` becomes true only through a `takeoff` command whose two calls (`takeoff()`,
    then `hover(1)`) both went through.
  */
  lemma FlyingOnlyAfterTakeoff(drone: Option<Drone>, data: map<string, Json>, conv: Conversions)
    ensures var r := Execute(drone, data, conv, false);
      r.1 ==> CommandOf(data) == JString("takeoff") && r.0 == [Call("takeoff", []), Call("hover", [AInt(1)])]
  {
  }

  /** A completed `land` or `emergency_stop` leaves the drone marked as not flying; so does any unexpected exception. */
  lemma LandingClearsFlying(drone: Drone, data: map<string, Json>, conv: Conversions, flying: bool)
    requires drone.connected
    requires CommandOf(data) == JString("land") || CommandOf(data) == JString("emergency_stop")
    requires forall a :: drone.fault(a) != Some(ValueError)
    ensures !Execute(Some(drone), data, conv, flying).1
  {
  }

  /**
    An exception other than `ValueError` ends with an attempted `land()` after the failed
    call, and the drone marked as not flying.
  */
  lemma UnexpectedFaultLands(drone: Drone, data: map<string, Json>, conv: Conversions, flying: bool,
                              actions: seq<Action>, f: Fault)
    requires drone.connected
    requires Plan(CommandOf(data), ParamsOf(data), conv) == Ok(actions)
    requires Perform(drone, actions).1 == Some(f) && f != ValueError
    ensures var r := Execute(Some(drone), data, conv, flying);
      !r.1 && |r.0| >= 2 && r.0[|r.0| - 1] == Call("land", [])
  {
  }

  /** Every call a command plans respects the stick range. */
  lemma PlanPowerSafe(command: Json, params: Json, conv: Conversions)
    ensures Plan(command, params, conv).Ok? ==> AllPowerSafe(Plan(command, params, conv).value)
  {
    if command.JString? {
      var name := command.s;
      if name in ["takeoff", "land", "emergency_stop", "flip", "spiral"] {
      } else if name == "hover" {
        TimedCallPowerSafe("hover", params, "duration", 3.0, conv);
      } else if IsMove(name) {
        assert !IsPowerCommand(name);
      } else if name == "turn_left" {
        TurnCallPowerSafe(-50, params, conv);
      } else if name == "turn_right" {
        TurnCallPowerSafe(50, params, conv);
      } else if name == "move_up" || name == "move_down" {
        TimedCallPowerSafe(name, params, "duration", 1.0, conv);
      } else if IsPowerCommand(name) {
        assert Plan(command, params, conv) == PowerCall(name, params, conv);
      } else {
        assert Plan(command, params, conv).Ok? ==> Plan(command, params, conv).value == [];
      }
    }
  }

  /** The power of every stick command sent, including the landing attempt, is within [-100, 100]. */
  lemma PowerAlwaysClamped(drone: Option<Drone>, data: map<string, Json>, conv: Conversions, flying: bool)
    ensures AllPowerSafe(Execute(drone, data, conv, flying).0)
  {
    var plan := Plan(CommandOf(data), ParamsOf(data), conv);
    PlanPowerSafe(CommandOf(data), ParamsOf(data), conv);
    if drone.Some? && plan.Ok? {
      PerformPowerSafe(drone.value, plan.value);
    }
  }

  /**
    `unknown` and any command without a branch make no call at all; so does `error`, unless
    its parameters are not an object, when reading its message fails and the drone is landed.
  */
  lemma UnimplementedMakesNoCall(drone: Option<Drone>, data: map<string, Json>, conv: Conversions, flying: bool)
    requires !(CommandOf(data).JString? && Implemented(CommandOf(data).s))
    requires CommandOf(data) != JString("error")
    ensures Execute(drone, data, conv, flying) == ([], flying)
  {
  }

  /** An `error` command whose parameters are not an object lands a connected drone. */
  lemma ErrorWithoutMessageLands(drone: Drone, data: map<string, Json>, conv: Conversions, flying: bool)
    requires drone.connected
    requires CommandOf(data) == JString("error") && !ParamsOf(data).JObject?
    ensures Execute(Some(drone), data, conv, flying) == ([Call("land", [])], false)
  {
    assert !IsMove("error") && !IsPowerCommand("error");
    assert Plan(CommandOf(data), ParamsOf(data), conv) == Err(OtherFault);
    var none: seq<Action> := [];
    assert none + [Call("land", [])] == [Call("land", [])];
  }

  /** An `error` command with an object of parameters makes no call. */
  lemma ErrorMakesNoCall(drone: Option<Drone>, data: map<string, Json>, conv: Conversions, flying: bool)
    requires CommandOf(data) == JString("error") && ParamsOf(data).JObject?
    ensures Execute(drone, data, conv, flying) == ([], flying)
  {
  }

  /** `takeoff` on a drone whose calls all succeed: take off, hover one second, and mark the drone flying. */
  lemma TakeoffSequence(drone: Drone, data: map<string, Json>, conv: Conversions, flying: bool)
    requires drone.connected && forall a :: drone.fault(a).None?
    requires CommandOf(data) == JString("takeoff")
    ensures Execute(Some(drone), data, conv, flying) == ([Call("takeoff", []), Call("hover", [AInt(1)])], true)
  {
  }

  /**
    A turn to the left on a drone whose calls succeed: yaw at -50, wait the requested
    duration (1 second by default), stop the yaw and hover half a second; a negative duration
    stops at the wait, with the yaw still at -50, and `flying` unchanged.
  */
  lemma TurnLeftSequence(drone: Drone, data: map<string, Json>, conv: Conversions, flying: bool, d: real)
    requires drone.connected && forall a :: drone.fault(a).None?
    requires CommandOf(data) == JString("turn_left")
    requires FloatParam(ParamsOf(data), "duration", 1.0, conv) == Ok(d)
    ensures d >= 0.0 ==> Execute(Some(drone), data, conv, flying) == (Turn(-50, d), flying)
    ensures d < 0.0 ==> Execute(Some(drone), data, conv, flying)
                        == ([Call("set_yaw", [AInt(-50)]), Sleep(d)], flying)
  {
    if d < 0.0 {
      NegativeTurnKeepsYawing(drone, -50, d);
    } else {
      var t := Turn(-50, d);
      assert forall i :: 0 <= i < |t| ==> Raised(drone, t[i]).None?;
    }
  }

  /**
    A turn to the right on a drone whose calls succeed: yaw at 50, wait, stop the yaw and
    hover half a second; a negative duration stops at the wait with the yaw still at 50.
  */
  lemma TurnRightSequence(drone: Drone, data: map<string, Json>, conv: Conversions, flying: bool, d: real)
    requires drone.connected && forall a :: drone.fault(a).None?
    requires CommandOf(data) == JString("turn_right")
    requires FloatParam(ParamsOf(data), "duration", 1.0, conv) == Ok(d)
    ensures d >= 0.0 ==> Execute(Some(drone), data, conv, flying) == (Turn(50, d), flying)
    ensures d < 0.0 ==> Execute(Some(drone), data, conv, flying)
                        == ([Call("set_yaw", [AInt(50)]), Sleep(d)], flying)
  {
    if d < 0.0 {
      NegativeTurnKeepsYawing(drone, 50, d);
    } else {
      var t := Turn(50, d);
      assert forall i :: 0 <= i < |t| ==> Raised(drone, t[i]).None?;
    }
  }

  /** A `ValueError` raised by a drone call is only reported: the calls made stand and `flying` is kept. */
  lemma ValueErrorOnlyLogs(drone: Drone, data: map<string, Json>, conv: Conversions, flying: bool, actions: seq<Action>)
    requires drone.connected
    requires Plan(CommandOf(data), ParamsOf(data), conv) == Ok(actions)
    requires Perform(drone, actions).1 == Some(ValueError)
    ensures Execute(Some(drone), data, conv, flying) == (Perform(drone, actions).0, flying)
  {
  }

  /** A parameter that `float()` or `int()` rejects raises `ValueError` before any call: no call, `flying` kept. */
  lemma ConversionValueErrorOnlyLogs(drone: Option<Drone>, data: map<string, Json>, conv: Conversions, flying: bool)
    requires Plan(CommandOf(data), ParamsOf(data), conv) == Err(ValueError)
    ensures Execute(drone, data, conv, flying) == ([], flying)
  {
  }

  /** Any other exception while reading the parameters lands a connected drone before any other call. */
  lemma ConversionFaultLands(drone: Drone, data: map<string, Json>, conv: Conversions, flying: bool, f: Fault)
    requires drone.connected
    requires Plan(CommandOf(data), ParamsOf(data), conv) == Err(f) && f != ValueError
    ensures Execute(Some(drone), data, conv, flying) == ([Call("land", [])], false)
  {
    var none: seq<Action> := [];
    assert none + [Call("land", [])] == [Call("land", [])];
  }

  /** A move without `distance`, `unit` or `speed` travels 50 cm at speed 1.0. */
  lemma MoveDefaults(name: string, params: Json, conv: Conversions)
    requires IsMove(name)
    requires params.JObject? && "distance" !in params.fields && "unit" !in params.fields && "speed" !in params.fields
    ensures Plan(JString(name), params, conv) == Ok([Call(name, [AReal(50.0), AStr("cm"), AReal(1.0)])])
  {
  }

  /**
    Without a `duration`, `hover` lasts 3.0 seconds, `move_up` and `move_down` 1.0 second, and
    a turn yaws for 1.0 second.
  */
  lemma DurationDefaults(params: Json, conv: Conversions)
    requires params.JObject? && "duration" !in params.fields
    ensures Plan(JString("hover"), params, conv) == Ok([Call("hover", [AReal(3.0)])])
    ensures Plan(JString("move_up"), params, conv) == Ok([Call("move_up", [AReal(1.0)])])
    ensures Plan(JString("move_down"), params, conv) == Ok([Call("move_down", [AReal(1.0)])])
    ensures Plan(JString("turn_left"), params, conv) == Ok(Turn(-50, 1.0))
    ensures Plan(JString("turn_right"), params, conv) == Ok(Turn(50, 1.0))
  {
    assert !IsMove("move_up") && !IsMove("move_down");
  }

  /** Without a `takeoff` in the queue, a drone not marked flying is never marked flying. */
  lemma {:induction false} NoTakeoffNoFlying(drone: Option<Drone>, connected: bool, queue: seq<map<string, Json>>,
                                             conv: Conversions)
    requires forall i :: 0 <= i < |queue| ==> CommandOf(queue[i]) != JString("takeoff")
    ensures !ProcessAll(drone, connected, queue, conv, false).1
  {
    if queue != [] {
      if drone.Some? && connected {
        FlyingOnlyAfterTakeoff(drone, queue[0], conv);
      }
      NoTakeoffNoFlying(drone, connected, queue[1..], conv);
    }
  }
}
