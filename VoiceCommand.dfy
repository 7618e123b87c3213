/**
  The stand-alone voice loop: each transcribed phrase is turned into a command by the
  language model, the loop's `is_flying` flag is updated from the command's name, and the
  command is executed on the drone.  At shutdown a drone believed to be flying is landed.
*/
module VoiceCommand {
  import opened Common
  import opened Assistant
  import opened DroneCommands

  /** `{"command": "error", "parameters": {}}`: this program drops the exception's message. */
  const ErrorCommand: Json := JObject(map["command" := JString("error"), "parameters" := JObject(map[])])

  /**
    `get_drone_command_from_text` once the model has answered: a reply is cleaned, decoded
    and validated; an exception from the call gives the `error` command.
  */
  function GetDroneCommandFromText(reply: LlmReply, decode: string -> Option<Json>, allowed: seq<string>): (r: Json)
    ensures r.JObject?
    ensures reply.Content? ==> Accepted(r, allowed)
    ensures !reply.Content? ==> r == ErrorCommand
    ensures reply.Content? && decode(StripFence(reply.text)).None? ==> r == Unknown
    ensures reply.Content? && decode(StripFence(reply.text)).Some? ==>
              r == Validate(decode(StripFence(reply.text)).value, allowed)
  {
    match reply
    case Content(text) => DecodeReply(text, decode, allowed)
    case ApiError(_) => ErrorCommand
    case OtherError(_) => ErrorCommand
  }

  /** The movement commands, each timed by a `duration`. */
  predicate IsTimedMove(name: string)
  {
    name in ["move_forward", "move_backward", "move_left", "move_right", "move_up", "move_down"]
  }

  /**
    The calls each branch of this program's `execute_drone_command` makes, or the exception
    its parameter conversion raises before any call.  There is no `flip` or `spiral` here, and
    movements take a duration rather than a distance.
  */
  function Plan(command: Json, params: Json, conv: Conversions): Result<seq<Action>, Fault>
  {
    if !command.JString? then Ok([])
    else
      var name := command.s;
      if name == "takeoff" then Ok([Call("takeoff", []), Call("hover", [AInt(1)])])
      else if name == "land" then Ok([Call("land", [])])
      else if name == "hover" then TimedCall("hover", params, "duration", 3.0, conv)
      else if name == "emergency_stop" then Ok([Call("emergency_stop", [])])
      else if IsTimedMove(name) then TimedCall(name, params, "duration", 1.0, conv)
      else if name == "turn_left" then TurnCall(-50, params, conv)
      else if name == "turn_right" then TurnCall(50, params, conv)
      else if IsPowerCommand(name) then PowerCall(name, params, conv)
      else Ok([])
  }

  /**
    The exception handlers: a `CoDroneError` or a `ValueError` is only reported; any other
    exception is followed by an attempted `land()`.
  */
  function Recover(done: seq<Action>, f: Fault): seq<Action>
  {
    if f == CoDroneError || f == ValueError then done else done + [Call("land", [])]
  }

  /** `execute_drone_command`: the calls attempted.  This program does not check the connection. */
  function Execute(drone: Drone, data: map<string, Json>, conv: Conversions): seq<Action>
  {
    match Plan(CommandOf(data), ParamsOf(data), conv)
    case Err(f) => Recover([], f)
    case Ok(actions) =>
      var (done, fault) := Perform(drone, actions);
      if fault.None? then done else Recover(done, fault.value)
  }

  /** One phrase taken from the queue, with the model's answer to it. */
  datatype Phrase = Phrase(text: string, reply: LlmReply)

  /** The loop's view of the model and the drone. */
  datatype Setup = Setup(drone: Drone, decode: string -> Option<Json>, allowed: seq<string>, conv: Conversions)

  /** The command a non-empty phrase becomes. */
  function CommandFor(setup: Setup, p: Phrase): map<string, Json>
  {
    GetDroneCommandFromText(p.reply, setup.decode, setup.allowed).fields
  }

  /**
    One turn of the main loop: an empty phrase is skipped; otherwise `is_flying` is updated
    from the command's name, then the command is executed.
  */
  function Step(setup: Setup, p: Phrase, isFlying: bool): (seq<Action>, bool)
  {
    if p.text == [] then ([], isFlying)
    else
      var data := CommandFor(setup, p);
      (Execute(setup.drone, data, setup.conv), FlightState(CommandOf(data), isFlying))
  }

  /** The main loop over the phrases: the calls made, and the final `is_flying`. */
  function Session(setup: Setup, phrases: seq<Phrase>, isFlying: bool): (seq<Action>, bool)
  {
    if phrases == [] then ([], isFlying)
    else
      var step := Step(setup, phrases[0], isFlying);
      var rest := Session(setup, phrases[1..], step.1);
      (step.0 + rest.0, rest.1)
  }

  /** The main loop, phrase by phrase, returning the calls made and the final `is_flying`. */
  method MainLoop(setup: Setup, phrases: seq<Phrase>) returns (actions: seq<Action>, isFlying: bool)
    ensures (actions, isFlying) == Session(setup, phrases, false)
  {
    actions := [];
    isFlying := false;
    var i := 0;
    SessionStart(setup, phrases);
    while i < |phrases|
      invariant 0 <= i <= |phrases|
      invariant Remaining(setup, phrases, i, actions, isFlying)
    {
      var done, flag := HandlePhrase(setup, phrases[i], isFlying);
      SessionNext(setup, phrases, i, actions, isFlying, done, flag);
      actions, isFlying := actions + done, flag;
      i := i + 1;
    }
    SessionEnd(setup, phrases, actions, isFlying);
  }

  /** The body of the main loop: skip an empty phrase, else update `is_flying`, then execute. */
  method HandlePhrase(setup: Setup, p: Phrase, isFlying: bool) returns (done: seq<Action>, flag: bool)
    ensures (done, flag) == Step(setup, p, isFlying)
  {
    done, flag := [], isFlying;
    if p.text != [] {
      var data := CommandFor(setup, p);
      flag := FlightState(CommandOf(data), flag);
      done := Execute(setup.drone, data, setup.conv);
    }
  }

  /** After `actions` with flag `isFlying` at phrase `i`, the rest of the session completes the whole. */
  predicate Remaining(setup: Setup, phrases: seq<Phrase>, i: nat, actions: seq<Action>, isFlying: bool)
    requires i <= |phrases|
  {
    var rest := Session(setup, phrases[i..], isFlying);
    Session(setup, phrases, false) == (actions + rest.0, rest.1)
  }

  /** Nothing done yet: the whole session remains. */
  lemma SessionStart(setup: Setup, phrases: seq<Phrase>)
    ensures Remaining(setup, phrases, 0, [], false)
  {
    assert phrases[0..] == phrases;
    assert [] + Session(setup, phrases, false).0 == Session(setup, phrases, false).0;
  }

  /** One more phrase handled. */
  lemma SessionNext(setup: Setup, phrases: seq<Phrase>, i: nat, actions: seq<Action>, isFlying: bool,
                    done: seq<Action>, flag: bool)
    requires i < |phrases| && Remaining(setup, phrases, i, actions, isFlying)
    requires (done, flag) == Step(setup, phrases[i], isFlying)
    ensures Remaining(setup, phrases, i + 1, actions + done, flag)
  {
    var ps := phrases[i..];
    assert ps[0] == phrases[i] && ps[1..] == phrases[i + 1..];
    var rest := Session(setup, phrases[i + 1..], flag);
    assert Session(setup, ps, isFlying) == (done + rest.0, rest.1);
    assert actions + (done + rest.0) == actions + done + rest.0;
  }

  /** No phrase left: the session is what was done. */
  lemma SessionEnd(setup: Setup, phrases: seq<Phrase>, actions: seq<Action>, isFlying: bool)
    requires Remaining(setup, phrases, |phrases|, actions, isFlying)
    ensures (actions, isFlying) == Session(setup, phrases, false)
  {
    assert phrases[|phrases|..] == [];
    assert actions + [] == actions;
  }

  /** The `is_flying` flag over the commands alone. */
  function Belief(commands: seq<map<string, Json>>, isFlying: bool): bool
  {
    if commands == [] then isFlying else Belief(commands[1..], FlightState(CommandOf(commands[0]), isFlying))
  }

  /** The commands the non-empty phrases become, in order. */
  function Commands(setup: Setup, phrases: seq<Phrase>): seq<map<string, Json>>
  {
    if phrases == [] then []
    else if phrases[0].text == [] then Commands(setup, phrases[1..])
    else [CommandFor(setup, phrases[0])] + Commands(setup, phrases[1..])
  }

  /** A shutdown begins only after the listener thread was started when pairing succeeded. */
  datatype Shutdown = NameError | Closed(actions: seq<Action>)

  /**
    The `finally` block: it refers to the listener thread, which does not exist when pairing
    failed; otherwise a connected drone believed to be flying is landed (with a two-second
    wait), or emergency-stopped when landing raises, and then closed.
  */
  function Finally(drone: Drone, paired: bool, isFlying: bool): (r: Shutdown)
    ensures r.NameError? <==> !paired
    ensures r.Closed? && drone.connected ==> r.actions != [] && r.actions[|r.actions| - 1] == Call("close", [])
    ensures r.Closed? && !drone.connected ==> r.actions == []
    ensures paired && drone.connected && !isFlying ==> r == Closed([Call("close", [])])
  {
    if !paired then NameError
    else if !drone.connected then Closed([])
    else if !isFlying then Closed([Call("close", [])])
    else
      var (done, fault) := Perform(drone, [Call("land", []), Sleep(2.0)]);
      if fault.None? then Closed(done + [Call("close", [])])
      else Closed(done + [Call("emergency_stop", []), Call("close", [])])
  }

  // ----- properties ----------------------------------------------------------------------------

  /**
    The flag follows the commands only: whatever the drone did, the final `is_flying` is the
    commands' `Belief`.
  */
  lemma {:induction false} FlagIgnoresDrone(setup: Setup, phrases: seq<Phrase>, isFlying: bool)
    ensures Session(setup, phrases, isFlying).1 == Belief(Commands(setup, phrases), isFlying)
  {
    if phrases != [] {
      if phrases[0].text == [] {
        FlagIgnoresDrone(setup, phrases[1..], isFlying);
      } else {
        assert Step(setup, phrases[0], isFlying).1 == FlightState(CommandOf(CommandFor(setup, phrases[0])), isFlying);
        var data := CommandFor(setup, phrases[0]);
        FlagIgnoresDrone(setup, phrases[1..], FlightState(CommandOf(data), isFlying));
        assert ([data] + Commands(setup, phrases[1..]))[1..] == Commands(setup, phrases[1..]);
      }
    }
  }

  /** Appending one command updates the flag once more. */
  lemma {:induction false} BeliefSnoc(commands: seq<map<string, Json>>, c: map<string, Json>, isFlying: bool)
    ensures Belief(commands + [c], isFlying) == FlightState(CommandOf(c), Belief(commands, isFlying))
  {
    if commands != [] {
      assert (commands + [c])[1..] == commands[1..] + [c];
      BeliefSnoc(commands[1..], c, FlightState(CommandOf(commands[0]), isFlying));
    }
  }

  /**
    The flag holds exactly when the last flight command (`takeoff`, `land` or
    `emergency_stop`) was `takeoff`, or, without one, when it held at the start.
  */
  lemma {:induction false} BeliefIsLastFlightCommand(commands: seq<map<string, Json>>, isFlying: bool, k: nat)
    requires k < |commands|
    requires CommandOf(commands[k]) in {JString("takeoff"), JString("land"), JString("emergency_stop")}
    requires forall j :: k < j < |commands| ==>
               CommandOf(commands[j]) !in {JString("takeoff"), JString("land"), JString("emergency_stop")}
    ensures Belief(commands, isFlying) <==> CommandOf(commands[k]) == JString("takeoff")
  {
    var n := |commands|;
    var init := commands[..n - 1];
    assert commands == init + [commands[n - 1]];
    BeliefSnoc(init, commands[n - 1], isFlying);
    if k < n - 1 {
      BeliefIsLastFlightCommand(init, isFlying, k);
    }
  }

  /**
    Unlike the web server, this loop sets `is_flying` before executing: a `takeoff` whose
    `takeoff()` call raises still leaves the drone believed to be flying, and nothing lands it.
  */
  lemma FailedTakeoffBelievedFlying(setup: Setup, p: Phrase, f: Fault)
    requires p.text != [] && CommandOf(CommandFor(setup, p)) == JString("takeoff")
    requires setup.drone.fault(Call("takeoff", [])) == Some(f) && (f == CoDroneError || f == ValueError)
    ensures Session(setup, [p], false) == ([Call("takeoff", [])], true)
  {
    var data := CommandFor(setup, p);
    assert [p][1..] == [];
    var plan := [Call("takeoff", []), Call("hover", [AInt(1)])];
    assert Plan(CommandOf(data), ParamsOf(data), setup.conv) == Ok(plan);
    assert Perform(setup.drone, plan) == ([Call("takeoff", [])], Some(f));
    assert Execute(setup.drone, data, setup.conv) == [Call("takeoff", [])];
    assert Step(setup, p, false) == ([Call("takeoff", [])], true);
    assert [Call("takeoff", [])] + [] == [Call("takeoff", [])];
  }

  /** An exception other than `CoDroneError` and `ValueError` is followed by a landing attempt. */
  lemma UnexpectedFaultLands(drone: Drone, data: map<string, Json>, conv: Conversions, actions: seq<Action>, f: Fault)
    requires Plan(CommandOf(data), ParamsOf(data), conv) == Ok(actions)
    requires Perform(drone, actions).1 == Some(f) && f == OtherFault
    ensures var r := Execute(drone, data, conv); |r| >= 2 && r[|r| - 1] == Call("land", [])
  {
  }

  /** The commands this program's `execute_drone_command` has a branch for. */
  predicate Implemented(name: string)
  {
    name in ["takeoff", "land", "hover", "emergency_stop", "turn_left", "turn_right"] || IsTimedMove(name) || IsPowerCommand(name)
  }

  /** A command without a branch, or a command that is not a string, makes no call. */
  lemma NoBranchNoCall(drone: Drone, data: map<string, Json>, conv: Conversions)
    requires !(CommandOf(data).JString? && Implemented(CommandOf(data).s))
    ensures Execute(drone, data, conv) == []
  {
  }

  /** `flip` and `spiral`, which the web server performs, make no call here; nor do `unknown` and `error`. */
  lemma ServerOnlyCommandsMakeNoCall(drone: Drone, data: map<string, Json>, conv: Conversions)
    requires CommandOf(data) in {JString("flip"), JString("spiral"), JString("unknown"), JString("error")}
    ensures Execute(drone, data, conv) == []
  {
    assert !IsTimedMove(CommandOf(data).s) && !IsPowerCommand(CommandOf(data).s);
    NoBranchNoCall(drone, data, conv);
  }

  /** A `CoDroneError` or `ValueError` raised by a drone call is only reported: the calls made stand. */
  lemma ReportedFaultOnlyLogs(drone: Drone, data: map<string, Json>, conv: Conversions, actions: seq<Action>, f: Fault)
    requires Plan(CommandOf(data), ParamsOf(data), conv) == Ok(actions)
    requires Perform(drone, actions).1 == Some(f) && (f == CoDroneError || f == ValueError)
    ensures Execute(drone, data, conv) == Perform(drone, actions).0
  {
  }

  /**
    An exception while reading the parameters comes before any call: a `ValueError` is only
    reported, anything else is followed by `land()` alone.
  */
  lemma ConversionFault(drone: Drone, data: map<string, Json>, conv: Conversions, f: Fault)
    requires Plan(CommandOf(data), ParamsOf(data), conv) == Err(f)
    ensures f == ValueError ==> Execute(drone, data, conv) == []
    ensures f == OtherFault ==> Execute(drone, data, conv) == [Call("land", [])]
  {
    var none: seq<Action> := [];
    assert none + [Call("land", [])] == [Call("land", [])];
  }

  /** Without a `duration`, `hover` lasts 3.0 seconds, every movement 1.0 second, and a turn yaws for 1.0 second. */
  lemma DurationDefaults(name: string, params: Json, conv: Conversions)
    requires params.JObject? && "duration" !in params.fields
    ensures Plan(JString("hover"), params, conv) == Ok([Call("hover", [AReal(3.0)])])
    ensures IsTimedMove(name) ==> Plan(JString(name), params, conv) == Ok([Call(name, [AReal(1.0)])])
    ensures Plan(JString("turn_left"), params, conv) == Ok(Turn(-50, 1.0))
    ensures Plan(JString("turn_right"), params, conv) == Ok(Turn(50, 1.0))
  {
  }

  /**
    A turn on a drone whose calls succeed: yaw at -50 (left) or 50 (right), wait, stop the yaw
    and hover half a second; a negative duration stops at the wait with the yaw still set.
  */
  lemma TurnSequence(drone: Drone, data: map<string, Json>, conv: Conversions, d: real)
    requires forall a :: drone.fault(a).None?
    requires CommandOf(data) == JString("turn_left") || CommandOf(data) == JString("turn_right")
    requires FloatParam(ParamsOf(data), "duration", 1.0, conv) == Ok(d)
    ensures var power := if CommandOf(data) == JString("turn_left") then -50 else 50;
      && (d >= 0.0 ==> Execute(drone, data, conv) == Turn(power, d))
      && (d < 0.0 ==> Execute(drone, data, conv) == [Call("set_yaw", [AInt(power)]), Sleep(d)])
  {
    var power := if CommandOf(data) == JString("turn_left") then -50 else 50;
    assert !IsTimedMove(CommandOf(data).s);
    if d < 0.0 {
      NegativeTurnKeepsYawing(drone, power, d);
    } else {
      var t := Turn(power, d);
      assert forall i :: 0 <= i < |t| ==> Raised(drone, t[i]).None?;
    }
  }

  /** Every call a command plans respects the stick range. */
  lemma PlanPowerSafe(command: Json, params: Json, conv: Conversions)
    ensures Plan(command, params, conv).Ok? ==> AllPowerSafe(Plan(command, params, conv).value)
  {
    if command.JString? {
      var name := command.s;
      if name == "hover" {
        TimedCallPowerSafe("hover", params, "duration", 3.0, conv);
      } else if IsTimedMove(name) {
        assert !IsPowerCommand(name);
        TimedCallPowerSafe(name, params, "duration", 1.0, conv);
      } else if name == "turn_left" {
        TurnCallPowerSafe(-50, params, conv);
      } else if name == "turn_right" {
        TurnCallPowerSafe(50, params, conv);
      }
    }
  }

  /** The power of every stick command sent is within [-100, 100]. */
  lemma PowerAlwaysClamped(drone: Drone, data: map<string, Json>, conv: Conversions)
    ensures AllPowerSafe(Execute(drone, data, conv))
  {
    var plan := Plan(CommandOf(data), ParamsOf(data), conv);
    PlanPowerSafe(CommandOf(data), ParamsOf(data), conv);
    if plan.Ok? {
      PerformPowerSafe(drone, plan.value);
    }
  }

  /** A connected drone believed to be flying gets `land()` before `close()`. */
  lemma ShutdownLandsFirst(drone: Drone, isFlying: bool)
    requires drone.connected && isFlying
    ensures var r := Finally(drone, true, isFlying); r.Closed? && r.actions[0] == Call("land", [])
  {
  }

  /**
    When pairing fails, the `finally` block stops at the missing listener thread: nothing is
    landed or closed.
  */
  lemma PairingFailureSkipsClose(drone: Drone, isFlying: bool)
    ensures Finally(drone, false, isFlying) == NameError
  {
  }
}
