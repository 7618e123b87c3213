/**
  The interrupt flag the rewritten script polls: `triggerInterrupt` sets it,
  `clearInterrupt` clears it, and `checkInterrupt` consumes it, raising
  `KeyboardInterrupt` when it was set.  The module-level global becomes the one field of
  an `Interrupter` object; the raised exception becomes a boolean result.
*/
module Interrupter {

  class Interrupter {
    var isInterrupted: bool

    /** The module is loaded with the flag clear. */
    constructor()
      ensures !isInterrupted
    {
      isInterrupted := false;
    }

    /** `checkInterrupt`: reports (by raising) whether the flag was set, and clears it. */
    method CheckInterrupt() returns (raised: bool)
      modifies this
      ensures raised == old(isInterrupted)
      ensures !isInterrupted
    {
      raised := false;
      if isInterrupted {
        isInterrupted := false;
        raised := true;
      }
    }

    /** `triggerInterrupt` */
    method TriggerInterrupt()
      modifies this
      ensures isInterrupted
    {
      isInterrupted := true;
    }

    /** `clearInterrupt` */
    method ClearInterrupt()
      modifies this
      ensures !isInterrupted
    {
      isInterrupted := false;
    }

    /** Runs a sequence of operations on this flag, returning how many checks raised. */
    method RunOps(ops: seq<Op>) returns (raised: nat)
      modifies this
      ensures raised == Raises(old(isInterrupted), ops)
      ensures isInterrupted == FlagAfter(old(isInterrupted), ops)
    {
      raised := 0;
      var i := 0;
      while i < |ops|
        invariant 0 <= i <= |ops|
        invariant raised + Raises(isInterrupted, ops[i..]) == Raises(old(isInterrupted), ops)
        invariant FlagAfter(isInterrupted, ops[i..]) == FlagAfter(old(isInterrupted), ops)
      {
        assert ops[i..][1..] == ops[i + 1..];
        match ops[i] {
          case Check =>
            var r := CheckInterrupt();
            if r {
              raised := raised + 1;
            }
          case Trigger =>
            TriggerInterrupt();
          case Clear =>
            ClearInterrupt();
        }
        i := i + 1;
      }
    }
  }

  /** The three procedures, as operations on the flag. */
  datatype Op = Check | Trigger | Clear

  /**
    Value of the flag after `ops`, starting from `flag`: after a trigger it is set, after a
    check or a clear it is clear.
  */
  function FlagAfter(flag: bool, ops: seq<Op>): bool
    decreases ops
  {
    if ops == [] then flag
    else FlagAfter(ops[0] == Trigger, ops[1..])
  }

  /** Number of checks among `ops` that raise, starting from `flag`. */
  function Raises(flag: bool, ops: seq<Op>): nat
    decreases ops
  {
    if ops == [] then 0
    else
      (if ops[0] == Check && flag then 1 else 0)
      + Raises(ops[0] == Trigger, ops[1..])
  }

  function CountTriggers(ops: seq<Op>): nat
  {
    if ops == [] then 0 else (if ops[0] == Trigger then 1 else 0) + CountTriggers(ops[1..])
  }

  // ----- properties ----------------------------------------------------------------------

  /**
    Every raise consumes a set flag, so a run raises at most once for the flag it started
    with plus once per trigger: interrupts are never reported more often than requested.
  */
  lemma {:induction false} RaisesBounded(flag: bool, ops: seq<Op>)
    ensures Raises(flag, ops) <= (if flag then 1 else 0) + CountTriggers(ops)
    decreases ops
  {
    if ops != [] {
      var next := ops[0] == Trigger;
      RaisesBounded(next, ops[1..]);
    }
  }

  /** A check right after a check never raises, whatever came before. */
  lemma CheckCheck(flag: bool, pre: seq<Op>, post: seq<Op>)
    ensures !FlagAfter(flag, pre + [Check])
    ensures Raises(flag, pre + [Check, Check] + post)
         == Raises(flag, pre + [Check]) + Raises(false, [Check] + post)
  {
    FlagAfterAppend(flag, pre, [Check]);
    RaisesAppend(flag, pre, [Check, Check] + post);
    RaisesAppend(flag, pre, [Check]);
    assert pre + [Check, Check] + post == pre + ([Check, Check] + post);
    assert ([Check, Check] + post)[1..] == [Check] + post;
  }

  lemma {:induction false} FlagAfterAppend(flag: bool, a: seq<Op>, b: seq<Op>)
    ensures FlagAfter(flag, a + b) == FlagAfter(FlagAfter(flag, a), b)
    decreases a
  {
    if a == [] {
      assert a + b == b;
    } else {
      assert (a + b)[1..] == a[1..] + b;
      FlagAfterAppend(a[0] == Trigger, a[1..], b);
    }
  }

  lemma {:induction false} RaisesAppend(flag: bool, a: seq<Op>, b: seq<Op>)
    ensures Raises(flag, a + b) == Raises(flag, a) + Raises(FlagAfter(flag, a), b)
    decreases a
  {
    if a == [] {
      assert a + b == b;
    } else {
      assert (a + b)[1..] == a[1..] + b;
      RaisesAppend(a[0] == Trigger, a[1..], b);
    }
  }

  /** Trigger, trigger, check, check raises exactly once: triggers do not queue up. */
  lemma TwoTriggersRaiseOnce(flag: bool)
    ensures Raises(flag, [Trigger, Trigger, Check, Check]) == 1
  {
    var ops := [Trigger, Trigger, Check, Check];
    assert ops[1..] == [Trigger, Check, Check] && ops[1..][1..] == [Check, Check];
    assert ops[1..][1..][1..] == [Check];
  }

  /** A clear after a trigger means the next check does not raise. */
  lemma ClearAfterTrigger(flag: bool, post: seq<Op>)
    ensures Raises(flag, [Trigger, Clear, Check] + post) == Raises(false, post)
  {
    var ops := [Trigger, Clear, Check] + post;
    assert ops[1..] == [Clear, Check] + post && ops[1..][1..] == [Check] + post;
    assert ops[1..][1..][1..] == post;
    assert Raises(false, [Check] + post) == Raises(false, post);
    assert Raises(true, [Clear, Check] + post) == Raises(false, [Check] + post);
  }

  /**
    The same scenario on a fresh flag: trigger twice, then check twice; the first check
    raises and the second does not.
  */
  method TriggerTwiceCheckTwice() returns (first: bool, second: bool)
    ensures first && !second
  {
    var flag := new Interrupter();
    flag.TriggerInterrupt();
    flag.TriggerInterrupt();
    first := flag.CheckInterrupt();
    second := flag.CheckInterrupt();
  }

  /** A fresh flag never raises on a check. */
  method CheckFresh() returns (raised: bool)
    ensures !raised
  {
    var flag := new Interrupter();
    raised := flag.CheckInterrupt();
  }
}
