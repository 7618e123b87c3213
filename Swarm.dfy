/**
  Swarm choreography: `Sequence` records the commands of one drone, `Sync` gathers the
  sequences of several drones into one ordered table, and `Swarm._run` plays the table,
  either step by step in a given order ("sequential") or drone by drone ("parallel").

  The drones themselves are opaque: a `Fleet` says, for each connected drone and method
  name, whether the drone has the method (and whether it is a coroutine), and what a call
  returns.  Every call a drone receives is recorded in a trace of `Event`s.
*/
module Swarm {
  import opened Common

  /** Arguments and results of drone methods. */
  datatype Value = VNone | VBool(b: bool) | VInt(i: int) | VReal(x: real) | VStr(s: string)

  /** `[method_name, args, kwargs]`: one scheduled call. */
  datatype Command = Command(name: string, args: seq<Value>, kwargs: seq<(string, Value)>)

  /** What the scheduler runs for a drone that has no command left, and after each drone's list. */
  const ResetMoveValues: Command := Command("reset_move_values", [], [])

  const Land: Command := Command("land", [], [])
  const Disconnect: Command := Command("disconnect", [], [])

  /** Whether `getattr(drone, name, None)` is callable, and if so whether it is a coroutine. */
  datatype MethodKind = Missing | Coroutine | Plain

  datatype Fleet = Fleet(kind: (nat, string) -> MethodKind, result: (nat, Command) -> Value)

  /** A call received by drone `drone`, or a blocking pause between two sequential calls. */
  datatype Event = Invoke(drone: nat, cmd: Command) | Pause(seconds: real)

  datatype SwarmError =
    | TooManySynced      // more drones in the sync than connected
    | OrderTooLong       // `len(order)` above the number of steps
    | IndexError         // a drone index outside the connected drones, or `order` too short
    | KeyError           // an `order` entry that is not an index of the sync
    | NegativeDelay      // `time.sleep` with a negative delay
    | TypeError          // awaiting the result of a plain (non-coroutine) `disconnect`
    | AttributeError     // a drone without a `disconnect` method

  // ----- Sequence --------------------------------------------------------------------------

  class Sequence {
    const index: int
    var sequence: map<int, seq<Command>>

    /** The only key of the table is the drone index given at construction. */
    predicate Valid()
      reads this
    {
      sequence.Keys == {index}
    }

    constructor(index: int)
      ensures Valid() && this.index == index && sequence[index] == []
    {
      this.index := index;
      sequence := map[index := []];
    }

    /** `add`: the command goes at the end of the drone's list; nothing else changes. */
    method Add(name: string, args: seq<Value>, kwargs: seq<(string, Value)>)
      requires Valid()
      modifies this
      ensures Valid()
      ensures sequence[index] == old(sequence[index]) + [Command(name, args, kwargs)]
    {
      sequence := sequence[index := sequence[index] + [Command(name, args, kwargs)]];
    }

    /** The commands recorded so far. */
    function Commands(): (cs: seq<Command>)
      reads this
      requires Valid()
      ensures cs == sequence[index]
    {
      sequence[index]
    }
  }

  // ----- Sync ------------------------------------------------------------------------------

  /** A dictionary from drone index to command list, with its insertion order. */
  datatype Table = Table(keys: seq<int>, tasks: map<int, seq<Command>>)

  /**
    What `Sync` keeps true of its dictionary: the order lists each key once, and every list
    is non-empty, because a key is only created together with its first command.
  */
  predicate ValidTable(t: Table)
  {
    && (forall k :: k in t.tasks ==> k in t.keys)
    && (forall i :: 0 <= i < |t.keys| ==> t.keys[i] in t.tasks)
    && (forall i, j :: 0 <= i < j < |t.keys| ==> t.keys[i] != t.keys[j])
    && (forall k :: k in t.tasks ==> |t.tasks[k]| > 0)
  }

  /** The dictionary after appending `cmds`, one by one, to the list of `index`. */
  function Extend(t: Table, index: int, cmds: seq<Command>): (r: Table)
    ensures cmds == [] ==> r == t
    ensures cmds != [] ==> index in r.tasks && r.tasks[index] == (if index in t.tasks then t.tasks[index] else []) + cmds
    ensures forall k :: k in t.tasks ==> k in r.tasks
    ensures forall k :: k in r.tasks && k != index ==> k in t.tasks && r.tasks[k] == t.tasks[k]
    ensures |t.keys| <= |r.keys| && r.keys[..|t.keys|] == t.keys
  {
    if cmds == [] then t
    else if index in t.tasks then Table(t.keys, t.tasks[index := t.tasks[index] + cmds])
    else Table(t.keys + [index], t.tasks[index := cmds])
  }

  /** Merging keeps the dictionary well formed. */
  lemma ExtendValid(t: Table, index: int, cmds: seq<Command>)
    requires ValidTable(t)
    ensures ValidTable(Extend(t, index, cmds))
  {
    if cmds != [] && index !in t.tasks {
      var r := Extend(t, index, cmds);
      assert r.keys == t.keys + [index];
      assert forall i :: 0 <= i < |t.keys| ==> r.keys[i] == t.keys[i] && t.keys[i] != index;
    }
  }

  class Sync {
    var sync: Table

    predicate Valid()
      reads this
    {
      ValidTable(sync)
    }

    /** `Sync(*sequences)`: the sequences are added in argument order. */
    constructor(seqs: seq<Sequence>)
      requires forall s :: s in seqs ==> s.Valid()
      ensures Valid()
      ensures sync == ExtendAll(Table([], map[]), Entries(seqs))
    {
      sync := Table([], map[]);
      new;
      ghost var entries := Entries(seqs);
      var i := 0;
      while i < |seqs|
        invariant 0 <= i <= |seqs|
        invariant entries == Entries(seqs)
        invariant sync == ExtendAll(Table([], map[]), entries[..i])
        modifies this
      {
        AddNext(seqs, entries, i);
        i := i + 1;
      }
      assert entries[..i] == entries;
      ExtendAllValid(Table([], map[]), entries);
    }

    /** One pass of the constructor's loop: `self.add(seqs[i])`. */
    method AddNext(seqs: seq<Sequence>, ghost entries: seq<(int, seq<Command>)>, i: nat)
      requires i < |seqs| && forall s :: s in seqs ==> s.Valid()
      requires entries == Entries(seqs)
      requires sync == ExtendAll(Table([], map[]), entries[..i])
      modifies this
      ensures sync == ExtendAll(Table([], map[]), entries[..i + 1])
    {
      var s := seqs[i];
      assert s in seqs;
      assert entries[i] == (s.index, s.sequence[s.index]);
      assert entries[..i + 1] == entries[..i] + [entries[i]];
      ExtendAllSnoc(Table([], map[]), entries[..i], entries[i]);
      ExtendAllValid(Table([], map[]), entries[..i]);
      Add(s);
    }

    /**
      `add`: the sequence's commands go, in order, at the end of the list of its index. A new
      index gets a new key at the end of the order; a sequence without commands adds nothing.
    */
    method Add(s: Sequence)
      requires Valid() && s.Valid()
      modifies this
      ensures Valid()
      ensures sync == Extend(old(sync), s.index, s.sequence[s.index])
    {
      var index := s.index;
      var methodList := s.sequence[index];
      var i := 0;
      while i < |methodList|
        invariant 0 <= i <= |methodList|
        invariant sync == Extend(old(sync), index, methodList[..i])
      {
        assert methodList[..i + 1] == methodList[..i] + [methodList[i]];
        ExtendTwice(old(sync), index, methodList[..i], [methodList[i]]);
        if index !in sync.tasks {
          sync := Table(sync.keys + [index], sync.tasks[index := [methodList[i]]]);
        } else {
          sync := Table(sync.keys, sync.tasks[index := sync.tasks[index] + [methodList[i]]]);
        }
        i := i + 1;
      }
      assert methodList[..i] == methodList;
      ExtendValid(old(sync), index, methodList);
    }

    /** `get_size`: the number of drones in the sync. */
    function GetSize(): (n: nat)
      reads this
      requires Valid()
      ensures n == |sync.tasks.Keys|
    {
      DistinctKeys(sync);
      |sync.keys|
    }

    /** `get_max_num_steps`: the running maximum of the list lengths, in key order. */
    method GetMaxNumSteps() returns (maxSteps: nat)
      requires Valid()
      ensures maxSteps == MaxSteps(sync)
    {
      var keys, tasks := sync.keys, sync.tasks;
      maxSteps := 0;
      if |keys| > 0 {
        var i := 0;
        while i < |keys|
          invariant 0 <= i <= |keys|
          invariant maxSteps == MaxLen(tasks, keys[..i])
        {
          assert keys[..i + 1][..i] == keys[..i];
          var currSteps := |tasks[keys[i]]|;
          if currSteps > maxSteps {
            maxSteps := currSteps;
          }
          i := i + 1;
        }
        assert keys[..i] == keys;
      }
    }
  }

  /** The `(index, commands)` pair each sequence contributes. */
  function Entries(seqs: seq<Sequence>): (es: seq<(int, seq<Command>)>)
    reads set s | s in seqs
    requires forall s :: s in seqs ==> s.Valid()
    ensures |es| == |seqs|
    ensures forall i :: 0 <= i < |seqs| ==> es[i] == (seqs[i].index, seqs[i].Commands())
  {
    if seqs == [] then []
    else Entries(seqs[..|seqs| - 1]) + [(seqs[|seqs| - 1].index, seqs[|seqs| - 1].Commands())]
  }

  /** The dictionary after adding each `(index, commands)` entry in turn. */
  function ExtendAll(t: Table, entries: seq<(int, seq<Command>)>): (r: Table)
  {
    if entries == [] then t
    else Extend(ExtendAll(t, entries[..|entries| - 1]), entries[|entries| - 1].0, entries[|entries| - 1].1)
  }

  /** Merging any number of entries keeps the dictionary well formed. */
  lemma {:induction false} ExtendAllValid(t: Table, entries: seq<(int, seq<Command>)>)
    requires ValidTable(t)
    ensures ValidTable(ExtendAll(t, entries))
    decreases |entries|
  {
    if entries != [] {
      var init := entries[..|entries| - 1];
      ExtendAllValid(t, init);
      ExtendValid(ExtendAll(t, init), entries[|entries| - 1].0, entries[|entries| - 1].1);
    }
  }

  lemma ExtendAllSnoc(t: Table, entries: seq<(int, seq<Command>)>, e: (int, seq<Command>))
    ensures ExtendAll(t, entries + [e]) == Extend(ExtendAll(t, entries), e.0, e.1)
  {
    assert (entries + [e])[..|entries|] == entries;
  }

  /** Largest length among the lists of `keys`, 0 when there is none. */
  function MaxLen(tasks: map<int, seq<Command>>, keys: seq<int>): (m: nat)
    requires forall i :: 0 <= i < |keys| ==> keys[i] in tasks
    ensures forall i :: 0 <= i < |keys| ==> |tasks[keys[i]]| <= m
    ensures keys == [] ==> m == 0
    ensures keys != [] ==> exists i :: 0 <= i < |keys| && |tasks[keys[i]]| == m
  {
    if keys == [] then 0
    else
      var m := MaxLen(tasks, keys[..|keys| - 1]);
      var last := keys[|keys| - 1];
      if |tasks[last]| > m then |tasks[last]| else m
  }

  /** `get_max_num_steps` of a valid sync: the length of its longest list. */
  function MaxSteps(t: Table): (m: nat)
    requires ValidTable(t)
    ensures forall k :: k in t.tasks ==> |t.tasks[k]| <= m
    ensures |t.keys| == 0 <==> m == 0
    ensures |t.keys| > 0 ==> exists k :: k in t.tasks && |t.tasks[k]| == m
  {
    var m := MaxLen(t.tasks, t.keys);
    assert forall k :: k in t.tasks ==> |t.tasks[k]| <= m by {
      forall k | k in t.tasks ensures |t.tasks[k]| <= m {
        var i :| 0 <= i < |t.keys| && t.keys[i] == k;
      }
    }
    m
  }

  lemma {:induction false} DistinctKeys(t: Table)
    requires ValidTable(t)
    ensures |t.tasks.Keys| == |t.keys|
  {
    DistinctCard(t.keys);
    forall k | k in t.keys ensures k in t.tasks {
      var i :| 0 <= i < |t.keys| && t.keys[i] == k;
    }
    var ks := set k | k in t.keys;
    assert forall k :: k in t.tasks.Keys ==> k in ks;
    assert forall k :: k in ks ==> k in t.tasks.Keys;
    assert t.tasks.Keys == ks;
  }

  lemma {:induction false} DistinctCard(keys: seq<int>)
    requires forall i, j :: 0 <= i < j < |keys| ==> keys[i] != keys[j]
    ensures |set k | k in keys| == |keys|
  {
    if keys != [] {
      var last := keys[|keys| - 1];
      var init := keys[..|keys| - 1];
      DistinctCard(init);
      assert (set k | k in keys) == (set k | k in init) + {last};
      assert last !in (set k | k in init);
    }
  }

  /** Merging an empty command list changes nothing. */
  lemma EmptySequenceAddsNothing(t: Table, index: int)
    ensures Extend(t, index, []) == t
  {
  }

  /** Adding the same index twice concatenates its two command lists. */
  lemma {:induction false} ExtendTwice(t: Table, index: int, a: seq<Command>, b: seq<Command>)
    ensures Extend(Extend(t, index, a), index, b) == Extend(t, index, a + b)
  {
    if a == [] {
      assert a + b == b;
    } else if b == [] {
      assert a + b == a;
    } else if index in t.tasks {
      assert t.tasks[index] + a + b == t.tasks[index] + (a + b);
    }
  }

  // ----- calling one method on one drone ---------------------------------------------------

  /** `self._drone_objects[index]` as a position, with Python's negative indexing. */
  function Resolve(index: int, n: nat): (d: Option<nat>)
    ensures d.Some? <==> -(n as int) <= index < n
    ensures d.Some? ==> d.value < n && (d.value == index || d.value == index + n)
  {
    if 0 <= index < n then Some(index)
    else if -(n as int) <= index < 0 then Some(index + n)
    else None
  }

  /** What a call returns: the method's result, or None when the drone lacks the method. */
  function ValueOf(fleet: Fleet, d: nat, c: Command): Value
  {
    if fleet.kind(d, c.name).Missing? then VNone else fleet.result(d, c)
  }

  /** The calls drone `d` receives for `cs`, methods it lacks being skipped. */
  function Calls(fleet: Fleet, d: nat, cs: seq<Command>): (r: seq<Event>)
    ensures |r| <= |cs|
  {
    if cs == [] then []
    else
      Calls(fleet, d, cs[..|cs| - 1])
      + (if fleet.kind(d, cs[|cs| - 1].name).Missing? then [] else [Invoke(d, cs[|cs| - 1])])
  }

  /** A drone that has every method receives each command once, in order. */
  lemma {:induction false} CallsAllPresent(fleet: Fleet, d: nat, cs: seq<Command>)
    requires forall i :: 0 <= i < |cs| ==> !fleet.kind(d, cs[i].name).Missing?
    ensures |Calls(fleet, d, cs)| == |cs|
    ensures forall i :: 0 <= i < |cs| ==> Calls(fleet, d, cs)[i] == Invoke(d, cs[i])
    decreases |cs|
  {
    if cs != [] {
      CallsAllPresent(fleet, d, cs[..|cs| - 1]);
    }
  }

  lemma CallsSnoc(fleet: Fleet, d: nat, cs: seq<Command>, c: Command)
    ensures Calls(fleet, d, cs + [c]) == Calls(fleet, d, cs) + Calls(fleet, d, [c])
  {
    assert (cs + [c])[..|cs|] == cs;
    assert [c][..0] == [];
  }

  /**
    `__call_method` as written: `await method(...)` first calls the method; a plain method
    returns a value that cannot be awaited, the resulting `TypeError` is caught, and the
    handler calls the method a second time.
  */
  function CallMethodAsWritten(fleet: Fleet, n: nat, index: int, c: Command): (r: Result<(seq<Event>, Value), SwarmError>)
    ensures r.Err? <==> Resolve(index, n).None?
    ensures r.Err? ==> r.error == IndexError
    ensures r.Ok? ==> r.value.1 == ValueOf(fleet, Resolve(index, n).value, c)
  {
    match Resolve(index, n)
    case None => Err(IndexError)
    case Some(d) =>
      match fleet.kind(d, c.name)
      case Missing => Ok(([], VNone))
      case Coroutine => Ok(([Invoke(d, c)], fleet.result(d, c)))
      case Plain => Ok(([Invoke(d, c), Invoke(d, c)], fleet.result(d, c)))
  }

  /** `__call_method` as intended: each existing method is called exactly once. */
  function CallMethod(fleet: Fleet, n: nat, index: int, c: Command): (r: Result<(seq<Event>, Value), SwarmError>)
    ensures r.Err? <==> Resolve(index, n).None?
    ensures r.Err? ==> r.error == IndexError
    ensures r.Ok? ==> (r.value.0 == Calls(fleet, Resolve(index, n).value, [c])
                       && r.value.1 == ValueOf(fleet, Resolve(index, n).value, c))
  {
    match Resolve(index, n)
    case None => Err(IndexError)
    case Some(d) =>
      assert [c][..0] == [];
      if fleet.kind(d, c.name).Missing? then Ok(([], VNone)) else Ok(([Invoke(d, c)], fleet.result(d, c)))
  }

  /** A plain (non-coroutine) method is run twice by the code as written. */
  lemma PlainMethodRunsTwice(fleet: Fleet, n: nat, index: int, c: Command)
    requires Resolve(index, n).Some? && fleet.kind(Resolve(index, n).value, c.name) == Plain
    ensures CallMethodAsWritten(fleet, n, index, c).Ok?
    ensures |CallMethodAsWritten(fleet, n, index, c).value.0| == 2
    ensures |CallMethod(fleet, n, index, c).value.0| == 1
  {
  }

  /** For every other kind of method the two definitions agree. */
  lemma CallMethodAgrees(fleet: Fleet, n: nat, index: int, c: Command)
    requires Resolve(index, n).None? || fleet.kind(Resolve(index, n).value, c.name) != Plain
    ensures CallMethodAsWritten(fleet, n, index, c) == CallMethod(fleet, n, index, c)
  {
  }

  /** How many of `cs` name a plain (non-coroutine) method of drone `d`. */
  function PlainCount(fleet: Fleet, d: nat, cs: seq<Command>): (k: nat)
    ensures k <= |cs|
  {
    if cs == [] then 0
    else PlainCount(fleet, d, cs[..|cs| - 1]) + (if fleet.kind(d, cs[|cs| - 1].name).Plain? then 1 else 0)
  }

  /** The calls drone `d` receives for `cs` through `__call_method` as written. */
  function CallsAsWritten(fleet: Fleet, d: nat, cs: seq<Command>): seq<Event>
  {
    if cs == [] then []
    else
      var c := cs[|cs| - 1];
      CallsAsWritten(fleet, d, cs[..|cs| - 1])
      + (match fleet.kind(d, c.name)
         case Missing => []
         case Coroutine => [Invoke(d, c)]
         case Plain => [Invoke(d, c), Invoke(d, c)])
  }

  /** One command through the written dispatch gives its as-written trace. */
  lemma CallMethodAsWrittenCalls(fleet: Fleet, n: nat, index: int, c: Command)
    requires Resolve(index, n).Some?
    ensures CallMethodAsWritten(fleet, n, index, c).Ok?
    ensures CallMethodAsWritten(fleet, n, index, c).value.0 == CallsAsWritten(fleet, Resolve(index, n).value, [c])
  {
    assert [c][..0] == [];
  }

  /** As written, a drone receives one extra call for every plain method among its commands. */
  lemma {:induction false} CallsAsWrittenCount(fleet: Fleet, d: nat, cs: seq<Command>)
    ensures |CallsAsWritten(fleet, d, cs)| == |Calls(fleet, d, cs)| + PlainCount(fleet, d, cs)
    decreases |cs|
  {
    if cs != [] {
      CallsAsWrittenCount(fleet, d, cs[..|cs| - 1]);
    }
  }

  /** Without plain methods the written and corrected traces are the same. */
  lemma {:induction false} CallsAsWrittenAgrees(fleet: Fleet, d: nat, cs: seq<Command>)
    requires forall i :: 0 <= i < |cs| ==> !fleet.kind(d, cs[i].name).Plain?
    ensures CallsAsWritten(fleet, d, cs) == Calls(fleet, d, cs)
    decreases |cs|
  {
    if cs != [] {
      CallsAsWrittenAgrees(fleet, d, cs[..|cs| - 1]);
    }
  }

  // ----- _run_one_drone --------------------------------------------------------------------

  function Abs(x: int): nat
  {
    if x < 0 then -x else x
  }

  /**
    `_run_one_drone`: the drone's commands in order, then `reset_move_values`; the results
    are padded with None up to `|len(commands) - max_num_commands|` extra entries.
    A bad drone index fails on the first call, before the drone receives anything.
  */
  method RunOneDrone(fleet: Fleet, n: nat, index: int, cmds: seq<Command>, maxNumCommands: nat)
    returns (r: Result<seq<Value>, SwarmError>, trace: seq<Event>)
    ensures r.Err? <==> Resolve(index, n).None?
    ensures r.Err? ==> r.error == IndexError && trace == []
    ensures r.Ok? ==> var d := Resolve(index, n).value;
      && |r.value| == |cmds| + Abs(|cmds| - maxNumCommands)
      && (forall i :: 0 <= i < |cmds| ==> r.value[i] == ValueOf(fleet, d, cmds[i]))
      && (forall i :: |cmds| <= i < |r.value| ==> r.value[i] == VNone)
      && trace == Calls(fleet, d, cmds + [ResetMoveValues])
  {
    var values: seq<Value> := [];
    trace := [];
    var i := 0;
    while i < |cmds|
      invariant 0 <= i <= |cmds|
      invariant i > 0 ==> Resolve(index, n).Some?
      invariant |values| == i
      invariant forall k :: 0 <= k < i ==> values[k] == ValueOf(fleet, Resolve(index, n).value, cmds[k])
      invariant i > 0 ==> trace == Calls(fleet, Resolve(index, n).value, cmds[..i])
      invariant i == 0 ==> trace == []
    {
      var c := CallMethod(fleet, n, index, cmds[i]);
      if c.Err? {
        return Err(c.error), trace;
      }
      var d := Resolve(index, n).value;
      assert cmds[..i + 1] == cmds[..i] + [cmds[i]];
      CallsSnoc(fleet, d, cmds[..i], cmds[i]);
      assert cmds[..0] == [];
      trace := trace + c.value.0;
      values := values + [c.value.1];
      i := i + 1;
    }
    var c := CallMethod(fleet, n, index, ResetMoveValues);
    if c.Err? {
      return Err(c.error), trace;
    }
    var d := Resolve(index, n).value;
    assert cmds[..i] == cmds;
    assert cmds[..0] == [];
    CallsSnoc(fleet, d, cmds, ResetMoveValues);
    trace := trace + c.value.0;
    values := PadNone(values, Abs(|cmds| - maxNumCommands));
    return Ok(values), trace;
  }

  /** The padding loop of `_run_one_drone`: `count` Nones appended one at a time. */
  method PadNone(values: seq<Value>, count: nat) returns (padded: seq<Value>)
    ensures |padded| == |values| + count
    ensures padded[..|values|] == values
    ensures forall k :: |values| <= k < |padded| ==> padded[k] == VNone
  {
    padded := values;
    var j := 0;
    while j < count
      invariant 0 <= j <= count
      invariant |padded| == |values| + j
      invariant padded[..|values|] == values
      invariant forall k :: |values| <= k < |padded| ==> padded[k] == VNone
    {
      padded := padded + [VNone];
      j := j + 1;
    }
  }

  // ----- _all_drones and _disconnect ------------------------------------------------------

  /** The calls drones `0 .. k-1` receive when each is sent `c` through `__call_method`. */
  function AllCalls(fleet: Fleet, k: nat, c: Command): seq<Event>
  {
    if k == 0 then [] else AllCalls(fleet, k - 1, c) + Calls(fleet, k - 1, [c])
  }

  /**
    `_all_drones(c)`: every connected drone, in index order, is sent `c`; the results come
    back in the same order.  (The calls are gathered concurrently in the source; the trace
    lists them drone by drone.)
  */
  method AllDrones(fleet: Fleet, n: nat, c: Command) returns (results: seq<Value>, trace: seq<Event>)
    ensures |results| == n
    ensures forall d :: 0 <= d < n ==> results[d] == ValueOf(fleet, d, c)
    ensures trace == AllCalls(fleet, n, c)
  {
    results := [];
    trace := [];
    var i := 0;
    while i < n
      invariant 0 <= i <= n
      invariant |results| == i
      invariant forall d :: 0 <= d < i ==> results[d] == ValueOf(fleet, d, c)
      invariant trace == AllCalls(fleet, i, c)
    {
      var r := CallMethod(fleet, n, i, c);
      results := results + [r.value.1];
      trace := trace + r.value.0;
      i := i + 1;
    }
  }

  /**
    `_disconnect`: every connected drone's `disconnect()` is called directly, without the
    fallback of `__call_method`; a drone without the method receives no call.
  */
  function DisconnectAll(fleet: Fleet, k: nat): (r: seq<Event>)
    ensures |r| <= k
    ensures (forall d: nat :: d < k ==> !fleet.kind(d, "disconnect").Missing?) ==>
              |r| == k && forall d :: 0 <= d < k ==> r[d] == Invoke(d, Disconnect)
  {
    if k == 0 then []
    else DisconnectAll(fleet, k - 1) + (if fleet.kind(k - 1, "disconnect").Missing? then [] else [Invoke(k - 1, Disconnect)])
  }

  /** The exception `await drone.disconnect()` raises for a method of this kind, if any. */
  function AwaitFault(kind: MethodKind): Option<SwarmError>
  {
    match kind
    case Missing => Some(AttributeError)
    case Plain => Some(TypeError)
    case Coroutine => None
  }

  /**
    The exception `_disconnect` raises over drones `0 .. k-1`: that of the first drone whose
    `disconnect` is not a coroutine, or none when all of them are.
  */
  function DisconnectFault(fleet: Fleet, k: nat): (r: Option<SwarmError>)
    ensures r.None? <==> forall d: nat :: d < k ==> fleet.kind(d, "disconnect").Coroutine?
    ensures r.Some? ==> r.value == TypeError || r.value == AttributeError
  {
    if k == 0 then None
    else if DisconnectFault(fleet, k - 1).Some? then DisconnectFault(fleet, k - 1)
    else AwaitFault(fleet.kind(k - 1, "disconnect"))
  }

  /** The first drone whose `disconnect` is not a coroutine decides the exception. */
  lemma {:induction false} DisconnectFaultFirst(fleet: Fleet, k: nat, d: nat)
    requires d < k && !fleet.kind(d, "disconnect").Coroutine?
    requires forall e: nat :: e < d ==> fleet.kind(e, "disconnect").Coroutine?
    ensures DisconnectFault(fleet, k) == AwaitFault(fleet.kind(d, "disconnect"))
  {
    if k - 1 > d {
      DisconnectFaultFirst(fleet, k - 1, d);
    } else {
      assert DisconnectFault(fleet, d).None?;
    }
  }

  /** What `_run` does to every drone before it raises: land all, then disconnect all. */
  function Abort(fleet: Fleet, n: nat): seq<Event>
  {
    AllCalls(fleet, n, Land) + DisconnectAll(fleet, n)
  }

  /**
    The exception an aborted `_run` ends with: the one `_disconnect` raises, if any, which
    replaces the intended `e`.
  */
  function AbortError(fleet: Fleet, n: nat, e: SwarmError): SwarmError
  {
    if DisconnectFault(fleet, n).Some? then DisconnectFault(fleet, n).value else e
  }

  /**
    When every drone has `land`, the abort sequence lands drones 0 .. n-1, then disconnects
    those that have `disconnect`; when all have it, each is disconnected in order.
  */
  lemma {:induction false} AbortLandsEveryDrone(fleet: Fleet, n: nat)
    requires forall d: nat :: d < n ==> !fleet.kind(d, "land").Missing?
    ensures |Abort(fleet, n)| == n + |DisconnectAll(fleet, n)|
    ensures forall d :: 0 <= d < n ==> Abort(fleet, n)[d] == Invoke(d, Land)
    ensures (forall d: nat :: d < n ==> !fleet.kind(d, "disconnect").Missing?) ==>
              |Abort(fleet, n)| == 2 * n && forall d :: 0 <= d < n ==> Abort(fleet, n)[n + d] == Invoke(d, Disconnect)
  {
    AllCallsLands(fleet, n);
  }

  lemma {:induction false} AllCallsLands(fleet: Fleet, k: nat)
    requires forall d: nat :: d < k ==> !fleet.kind(d, "land").Missing?
    ensures |AllCalls(fleet, k, Land)| == k
    ensures forall d :: 0 <= d < k ==> AllCalls(fleet, k, Land)[d] == Invoke(d, Land)
  {
    if k > 0 {
      AllCallsLands(fleet, k - 1);
      assert [Land][..0] == [];
      CallsAllPresent(fleet, k - 1, [Land]);
      assert Calls(fleet, k - 1, [Land]) == [Invoke(k - 1, Land)];
    }
  }

  // ----- _run, sequential mode -------------------------------------------------------------

  /** `order` when none is given: `max_steps` rows of `[0, 1, ..., num_synced - 1]`. */
  function DefaultOrder(numSynced: nat, maxSteps: nat): (o: seq<seq<int>>)
    ensures |o| == maxSteps
    ensures forall i :: 0 <= i < maxSteps ==> |o[i]| == numSynced
    ensures forall i, j :: 0 <= i < maxSteps && 0 <= j < numSynced ==> o[i][j] == j
  {
    seq(maxSteps, _ => seq(numSynced, j => j))
  }

  /** The command drone `index` runs at step `i`: its `i`-th command, or `reset_move_values`. */
  function StepCommand(tasks: map<int, seq<Command>>, index: int, i: nat): Command
    requires index in tasks
  {
    if i < |tasks[index]| then tasks[index][i] else ResetMoveValues
  }

  /** Every drone named in the first `steps` rows of `order` is in the sync and connected. */
  predicate OrderResolves(n: nat, tasks: map<int, seq<Command>>, order: seq<seq<int>>, steps: nat)
    requires steps <= |order|
  {
    forall i, k :: 0 <= i < steps && k in order[i] ==> k in tasks && Resolve(k, n).Some?
  }

  /** The sequential run completes: no short `order`, no unknown or unconnected drone, no negative pause. */
  predicate SequentialRunnable(n: nat, tasks: map<int, seq<Command>>, order: seq<seq<int>>, maxSteps: nat, delay: real)
  {
    && |order| >= maxSteps
    && OrderResolves(n, tasks, order, maxSteps)
    && (delay < 0.0 ==> forall i :: 0 <= i < maxSteps ==> order[i] == [])
  }

  /** The calls and pauses of step `i` for the drones of `row`, in order. */
  function StepTrace(fleet: Fleet, n: nat, tasks: map<int, seq<Command>>, i: nat, row: seq<int>, delay: real): seq<Event>
    requires forall k :: k in row ==> k in tasks && Resolve(k, n).Some?
  {
    if row == [] then []
    else
      var k := row[|row| - 1];
      assert k in row;
      assert forall x :: x in row[..|row| - 1] ==> x in row;
      StepTrace(fleet, n, tasks, i, row[..|row| - 1], delay)
      + Calls(fleet, Resolve(k, n).value, [StepCommand(tasks, k, i)]) + [Pause(delay)]
  }

  /** The calls and pauses of the first `steps` steps. */
  function SequentialTrace(fleet: Fleet, n: nat, tasks: map<int, seq<Command>>, order: seq<seq<int>>,
                           steps: nat, delay: real): seq<Event>
    requires steps <= |order| && OrderResolves(n, tasks, order, steps)
  {
    if steps == 0 then []
    else
      assert OrderResolves(n, tasks, order, steps - 1);
      SequentialTrace(fleet, n, tasks, order, steps - 1, delay)
      + StepTrace(fleet, n, tasks, steps - 1, order[steps - 1], delay)
  }

  /** Row `i` holds one result per entry of `order[i]`: that drone's result for step `i`. */
  predicate SequentialRows(fleet: Fleet, n: nat, tasks: map<int, seq<Command>>, order: seq<seq<int>>,
                           steps: nat, rows: seq<seq<Value>>)
    requires steps <= |order| && OrderResolves(n, tasks, order, steps)
  {
    && |rows| == steps
    && forall i :: 0 <= i < steps ==>
         && |rows[i]| == |order[i]|
         && forall j :: 0 <= j < |order[i]| ==>
              rows[i][j] == ValueOf(fleet, Resolve(order[i][j], n).value, StepCommand(tasks, order[i][j], i))
  }

  /** Every drone of `row` is in the sync and connected. */
  predicate RowResolves(n: nat, tasks: map<int, seq<Command>>, row: seq<int>)
  {
    forall k :: k in row ==> k in tasks && Resolve(k, n).Some?
  }

  /**
    One step of the sequential branch of `_run`: the drones of `row` in turn run their
    command for step `i` (or `reset_move_values`), each call followed by a pause of
    `delay` seconds.
  */
  method RunStep(fleet: Fleet, n: nat, tasks: map<int, seq<Command>>, i: nat, row: seq<int>, delay: real)
    returns (r: Result<seq<Value>, SwarmError>, trace: seq<Event>)
    ensures r.Ok? <==> RowResolves(n, tasks, row) && (delay < 0.0 ==> row == [])
    ensures r.Err? ==> r.error in {IndexError, KeyError, NegativeDelay}
    ensures r.Ok? ==>
      && |r.value| == |row|
      && (forall j :: 0 <= j < |row| ==>
            r.value[j] == ValueOf(fleet, Resolve(row[j], n).value, StepCommand(tasks, row[j], i)))
      && trace == StepTrace(fleet, n, tasks, i, row, delay)
  {
    var values: seq<Value> := [];
    trace := [];
    var j := 0;
    while j < |row|
      invariant 0 <= j <= |row|
      invariant RowResolves(n, tasks, row[..j])
      invariant delay < 0.0 ==> j == 0
      invariant |values| == j
      invariant forall j' :: 0 <= j' < j ==>
                  values[j'] == ValueOf(fleet, Resolve(row[j'], n).value, StepCommand(tasks, row[j'], i))
      invariant trace == StepTrace(fleet, n, tasks, i, row[..j], delay)
    {
      var index := row[j];
      assert index in row;
      if index !in tasks {
        return Err(KeyError), trace;
      }
      var cmd := if i <= |tasks[index]| - 1 then tasks[index][i] else ResetMoveValues;
      var c := CallMethod(fleet, n, index, cmd);
      if c.Err? {
        return Err(c.error), trace;
      }
      assert row[..j + 1][..j] == row[..j] && row[..j + 1][j] == index;
      assert forall k :: k in row[..j + 1] ==> k in row[..j] || k == index;
      values := values + [c.value.1];
      trace := trace + c.value.0;
      if delay < 0.0 {
        return Err(NegativeDelay), trace;
      }
      trace := trace + [Pause(delay)];
      j := j + 1;
    }
    assert row[..j] == row;
    return Ok(values), trace;
  }

  /**
    The sequential branch of `_run`: one step after another, `order[i]` giving the drones of
    step `i`; an `order` with fewer than `max_steps` rows fails on the first missing row.
  */
  method RunSequential(fleet: Fleet, n: nat, tasks: map<int, seq<Command>>, maxSteps: nat,
                       delay: real, order: seq<seq<int>>)
    returns (r: Result<seq<seq<Value>>, SwarmError>, trace: seq<Event>)
    ensures r.Ok? <==> SequentialRunnable(n, tasks, order, maxSteps, delay)
    ensures r.Ok? ==> SequentialRows(fleet, n, tasks, order, maxSteps, r.value)
    ensures r.Ok? ==> trace == SequentialTrace(fleet, n, tasks, order, maxSteps, delay)
    ensures r.Err? ==> r.error in {IndexError, KeyError, NegativeDelay}
  {
    var rows: seq<seq<Value>> := [];
    trace := [];
    var i := 0;
    while i < maxSteps
      invariant 0 <= i <= maxSteps && i <= |order|
      invariant OrderResolves(n, tasks, order, i)
      invariant delay < 0.0 ==> forall i' :: 0 <= i' < i ==> order[i'] == []
      invariant SequentialRows(fleet, n, tasks, order, i, rows)
      invariant trace == SequentialTrace(fleet, n, tasks, order, i, delay)
    {
      if i >= |order| {
        return Err(IndexError), trace;
      }
      var row, calls := RunStep(fleet, n, tasks, i, order[i], delay);
      if row.Err? {
        return Err(row.error), trace;
      }
      SequentialStep(fleet, n, tasks, order, i, delay, rows, row.value);
      rows := rows + [row.value];
      trace := trace + calls;
      i := i + 1;
    }
    return Ok(rows), trace;
  }

  /** A completed step extends the rows and the trace of the steps before it. */
  lemma SequentialStep(fleet: Fleet, n: nat, tasks: map<int, seq<Command>>, order: seq<seq<int>>, i: nat,
                       delay: real, rows: seq<seq<Value>>, row: seq<Value>)
    requires i < |order| && OrderResolves(n, tasks, order, i) && RowResolves(n, tasks, order[i])
    requires SequentialRows(fleet, n, tasks, order, i, rows)
    requires |row| == |order[i]|
    requires forall j :: 0 <= j < |row| ==>
               row[j] == ValueOf(fleet, Resolve(order[i][j], n).value, StepCommand(tasks, order[i][j], i))
    ensures OrderResolves(n, tasks, order, i + 1)
    ensures SequentialRows(fleet, n, tasks, order, i + 1, rows + [row])
    ensures SequentialTrace(fleet, n, tasks, order, i + 1, delay)
         == SequentialTrace(fleet, n, tasks, order, i, delay) + StepTrace(fleet, n, tasks, i, order[i], delay)
  {
    var rs := rows + [row];
    forall i' | 0 <= i' < i + 1
      ensures |rs[i']| == |order[i']|
      ensures forall j :: 0 <= j < |order[i']| ==>
                rs[i'][j] == ValueOf(fleet, Resolve(order[i'][j], n).value, StepCommand(tasks, order[i'][j], i'))
    {
      if i' == i {
        assert rs[i'] == row;
      } else {
        assert rs[i'] == rows[i'];
      }
    }
  }

  /**
    The default order names the drones `0 .. num_synced - 1`, not the indices of the sync: it
    completes only when the sync's indices are exactly those numbers.  A sync of drones 1
    and 2 run without an order fails with a `KeyError` on drone 0.
  */
  lemma DefaultOrderNeedsDenseIndices(n: nat, tasks: map<int, seq<Command>>, numSynced: nat, maxSteps: nat, delay: real)
    requires maxSteps > 0 && numSynced > 0
    requires SequentialRunnable(n, tasks, DefaultOrder(numSynced, maxSteps), maxSteps, delay)
    ensures forall k :: 0 <= k < numSynced ==> k in tasks
  {
    var o := DefaultOrder(numSynced, maxSteps);
    forall k | 0 <= k < numSynced ensures k in tasks {
      assert o[0][k] == k;
      assert k in o[0];
    }
  }

  lemma DefaultOrderWithIndicesOneTwo(n: nat, c: seq<Command>, d: seq<Command>, delay: real)
    ensures !SequentialRunnable(n, map[1 := c, 2 := d], DefaultOrder(2, |c| + |d| + 1), |c| + |d| + 1, delay)
  {
    var o := DefaultOrder(2, |c| + |d| + 1);
    assert o[0][0] == 0 && 0 in o[0];
    assert 0 !in map[1 := c, 2 := d];
    assert !OrderResolves(n, map[1 := c, 2 := d], o, |c| + |d| + 1);
  }

  /** Conversely, the default order completes when the drones `0 .. num_synced - 1` are all synced and connected. */
  lemma DefaultOrderRunnable(n: nat, tasks: map<int, seq<Command>>, numSynced: nat, maxSteps: nat, delay: real)
    requires numSynced <= n && delay >= 0.0
    requires forall k :: 0 <= k < numSynced ==> k in tasks
    ensures SequentialRunnable(n, tasks, DefaultOrder(numSynced, maxSteps), maxSteps, delay)
  {
    var o := DefaultOrder(numSynced, maxSteps);
    forall i, k | 0 <= i < maxSteps && k in o[i] ensures k in tasks && Resolve(k, n).Some? {
      var j :| 0 <= j < |o[i]| && o[i][j] == k;
    }
  }

  // ----- _run, parallel mode ---------------------------------------------------------------

  /** Length of the shortest list. */
  function MinLen(lists: seq<seq<Value>>): (m: nat)
    requires |lists| > 0
    ensures forall j :: 0 <= j < |lists| ==> m <= |lists[j]|
    ensures exists j :: 0 <= j < |lists| && m == |lists[j]|
  {
    if |lists| == 1 then |lists[0]|
    else
      var m := MinLen(lists[1..]);
      assert forall j :: 1 <= j < |lists| ==> lists[j] == lists[1..][j - 1];
      if |lists[0]| < m then |lists[0]| else m
  }

  /** `[list(row) for row in zip(*lists)]`: the transpose, cut to the shortest list. */
  function Transpose(lists: seq<seq<Value>>): (r: seq<seq<Value>>)
    ensures |lists| == 0 ==> r == []
    ensures |lists| > 0 ==> |r| == MinLen(lists)
    ensures forall i :: 0 <= i < |r| ==> |r[i]| == |lists|
    ensures forall i, j :: 0 <= i < |r| && 0 <= j < |lists| ==> i < |lists[j]| && r[i][j] == lists[j][i]
  {
    if |lists| == 0 then []
    else
      var m := MinLen(lists);
      seq(m, i requires 0 <= i < m => seq(|lists|, j requires 0 <= j < |lists| => lists[j][i]))
  }

  /** Transposing a non-empty rectangle with non-empty rows twice gives it back. */
  lemma TransposeTwice(lists: seq<seq<Value>>, m: nat)
    requires |lists| > 0 && m > 0
    requires forall j :: 0 <= j < |lists| ==> |lists[j]| == m
    ensures Transpose(Transpose(lists)) == lists
  {
    var t := Transpose(lists);
    assert |t| == m;
    var tt := Transpose(t);
    assert |tt| == |lists|;
    forall j | 0 <= j < |lists| ensures tt[j] == lists[j] {
      assert |tt[j]| == m;
    }
  }

  /** Every index of the sync names a connected drone. */
  predicate KeysResolve(n: nat, keys: seq<int>)
  {
    forall i :: 0 <= i < |keys| ==> Resolve(keys[i], n).Some?
  }

  /** Result `i` of drone `k` in the parallel run: its `i`-th command's result, then None. */
  function DroneResult(fleet: Fleet, n: nat, tasks: map<int, seq<Command>>, k: int, i: nat): Value
    requires k in tasks && Resolve(k, n).Some?
  {
    if i < |tasks[k]| then ValueOf(fleet, Resolve(k, n).value, tasks[k][i]) else VNone
  }

  /** The calls of the drones `keys`, in order, each its list then `reset_move_values`. */
  function ParallelTrace(fleet: Fleet, n: nat, tasks: map<int, seq<Command>>, keys: seq<int>): seq<Event>
    requires KeysResolve(n, keys) && forall i :: 0 <= i < |keys| ==> keys[i] in tasks
  {
    if keys == [] then []
    else
      var k := keys[|keys| - 1];
      ParallelTrace(fleet, n, tasks, keys[..|keys| - 1]) + Calls(fleet, Resolve(k, n).value, tasks[k] + [ResetMoveValues])
  }

  /**
    Row `i` holds, for each drone of the sync in key order, its `i`-th result, or None once
    its list is exhausted; there are `max_steps` rows (none for an empty sync).
  */
  predicate ParallelRows(fleet: Fleet, n: nat, t: Table, maxSteps: nat, rows: seq<seq<Value>>)
    requires ValidTable(t) && KeysResolve(n, t.keys)
  {
    && |rows| == (if |t.keys| == 0 then 0 else maxSteps)
    && forall i :: 0 <= i < |rows| ==>
         && |rows[i]| == |t.keys|
         && forall j :: 0 <= j < |t.keys| ==> rows[i][j] == DroneResult(fleet, n, t.tasks, t.keys[j], i)
  }

  /**
    The parallel branch of `_run`: each drone of the sync runs its own list (`_run_one_drone`),
    and the per-drone result lists are transposed into one row per step.
  */
  method RunParallel(fleet: Fleet, n: nat, t: Table, maxSteps: nat)
    returns (r: Result<seq<seq<Value>>, SwarmError>, trace: seq<Event>)
    requires ValidTable(t) && maxSteps == MaxSteps(t)
    ensures r.Ok? <==> KeysResolve(n, t.keys)
    ensures r.Err? ==> r.error == IndexError
    ensures r.Ok? ==> ParallelRows(fleet, n, t, maxSteps, r.value)
    ensures r.Ok? ==> trace == ParallelTrace(fleet, n, t.tasks, t.keys)
  {
    var lists: seq<seq<Value>> := [];
    trace := [];
    var i := 0;
    while i < |t.keys|
      invariant 0 <= i <= |t.keys|
      invariant |lists| == i
      invariant PerDroneResults(fleet, n, t, maxSteps, lists)
      invariant trace == ParallelTrace(fleet, n, t.tasks, t.keys[..i])
    {
      var ok;
      ok, lists, trace := RunNextDrone(fleet, n, t, maxSteps, lists, trace);
      if !ok {
        return Err(IndexError), trace;
      }
      i := i + 1;
    }
    assert t.keys[..i] == t.keys;
    TransposeResults(fleet, n, t, maxSteps, lists);
    return Ok(Transpose(lists)), trace;
  }

  /** One drone of the parallel branch: its padded results and its calls join the others'. */
  method RunNextDrone(fleet: Fleet, n: nat, t: Table, maxSteps: nat, lists: seq<seq<Value>>, trace: seq<Event>)
    returns (ok: bool, lists': seq<seq<Value>>, trace': seq<Event>)
    requires ValidTable(t) && maxSteps == MaxSteps(t) && |lists| < |t.keys|
    requires PerDroneResults(fleet, n, t, maxSteps, lists)
    requires trace == ParallelTrace(fleet, n, t.tasks, t.keys[..|lists|])
    ensures ok <==> Resolve(t.keys[|lists|], n).Some?
    ensures ok ==> |lists'| == |lists| + 1 && PerDroneResults(fleet, n, t, maxSteps, lists')
    ensures ok ==> trace' == ParallelTrace(fleet, n, t.tasks, t.keys[..|lists'|])
  {
    var index := t.keys[|lists|];
    var values, calls := RunOneDrone(fleet, n, index, t.tasks[index], maxSteps);
    if values.Err? {
      return false, lists, trace;
    }
    PerDroneStep(fleet, n, t, maxSteps, lists, values.value);
    ParallelTraceSnoc(fleet, n, t, |lists|);
    return true, lists + [values.value], trace + calls;
  }

  /** One more drone that resolves extends the parallel trace by its own calls. */
  lemma ParallelTraceSnoc(fleet: Fleet, n: nat, t: Table, i: nat)
    requires ValidTable(t) && i < |t.keys|
    requires KeysResolve(n, t.keys[..i]) && Resolve(t.keys[i], n).Some?
    ensures KeysResolve(n, t.keys[..i + 1])
    ensures ParallelTrace(fleet, n, t.tasks, t.keys[..i + 1])
         == ParallelTrace(fleet, n, t.tasks, t.keys[..i])
            + Calls(fleet, Resolve(t.keys[i], n).value, t.tasks[t.keys[i]] + [ResetMoveValues])
  {
    assert t.keys[..i + 1][..i] == t.keys[..i];
  }

  /** The padded result list of each of the first `|lists|` drones of the sync. */
  predicate PerDroneResults(fleet: Fleet, n: nat, t: Table, maxSteps: nat, lists: seq<seq<Value>>)
    requires ValidTable(t)
  {
    && |lists| <= |t.keys|
    && KeysResolve(n, t.keys[..|lists|])
    && forall j :: 0 <= j < |lists| ==>
         && |lists[j]| == maxSteps
         && forall s :: 0 <= s < maxSteps ==> lists[j][s] == DroneResult(fleet, n, t.tasks, t.keys[j], s)
  }

  /** One more drone's padded results, as `_run_one_drone` returns them, extend the table. */
  lemma PerDroneStep(fleet: Fleet, n: nat, t: Table, maxSteps: nat, lists: seq<seq<Value>>, v: seq<Value>)
    requires ValidTable(t) && maxSteps == MaxSteps(t)
    requires PerDroneResults(fleet, n, t, maxSteps, lists) && |lists| < |t.keys|
    requires Resolve(t.keys[|lists|], n).Some?
    requires var k := t.keys[|lists|]; var cmds := t.tasks[k];
      && |v| == |cmds| + Abs(|cmds| - maxSteps)
      && (forall s :: 0 <= s < |cmds| ==> v[s] == ValueOf(fleet, Resolve(k, n).value, cmds[s]))
      && (forall s :: |cmds| <= s < |v| ==> v[s] == VNone)
    ensures PerDroneResults(fleet, n, t, maxSteps, lists + [v])
  {
    var k := t.keys[|lists|];
    assert k in t.tasks;
    assert |t.tasks[k]| <= maxSteps;
    var ls := lists + [v];
    assert t.keys[..|ls|] == t.keys[..|lists|] + [k];
    forall j | 0 <= j < |ls|
      ensures |ls[j]| == maxSteps
      ensures forall s :: 0 <= s < maxSteps ==> ls[j][s] == DroneResult(fleet, n, t.tasks, t.keys[j], s)
    {
      if j == |lists| {
        assert ls[j] == v;
      } else {
        assert ls[j] == lists[j];
      }
    }
  }

  lemma TransposeResults(fleet: Fleet, n: nat, t: Table, maxSteps: nat, lists: seq<seq<Value>>)
    requires ValidTable(t) && |lists| == |t.keys|
    requires PerDroneResults(fleet, n, t, maxSteps, lists)
    ensures KeysResolve(n, t.keys)
    ensures ParallelRows(fleet, n, t, maxSteps, Transpose(lists))
  {
    assert t.keys[..|lists|] == t.keys;
    if |lists| > 0 {
      var m := MinLen(lists);
      assert m == maxSteps;
    }
  }

  // ----- _run ------------------------------------------------------------------------------

  /** Whether `_run` takes the sequential branch: asked for, and more than one drone synced. */
  predicate IsSequential(mode: string, numSynced: nat)
  {
    mode == "sequential" && numSynced > 1
  }

  /**
    `_run`: a sync with more drones than are connected, or an `order` longer than the number
    of steps, lands and disconnects every drone and fails; otherwise the sync is played in
    the sequential branch (delay 0 and the default order when none is given) or the parallel
    one.
  */
  method Run(fleet: Fleet, n: nat, s: Sync, mode: string, delay: Option<real>, order: Option<seq<seq<int>>>)
    returns (r: Result<seq<seq<Value>>, SwarmError>, trace: seq<Event>)
    requires s.Valid()
    ensures var t := s.sync;
      |t.keys| > n ==> r == Err(AbortError(fleet, n, TooManySynced))
    ensures var t := s.sync;
      |t.keys| <= n && order.Some? && |order.value| > MaxSteps(t) ==> r == Err(AbortError(fleet, n, OrderTooLong))
    ensures var t := s.sync;
      |t.keys| > n || (order.Some? && |order.value| > MaxSteps(t)) ==> trace == Abort(fleet, n)
    ensures var t := s.sync;
      (r.Err? && r.error == TooManySynced) <==> |t.keys| > n && DisconnectFault(fleet, n).None?
    ensures var t := s.sync;
      (r.Err? && r.error == OrderTooLong)
        <==> |t.keys| <= n && order.Some? && |order.value| > MaxSteps(t) && DisconnectFault(fleet, n).None?
    ensures var t := s.sync;
      var dl := if delay.Some? then delay.value else 0.0;
      var ord := if order.Some? then order.value else DefaultOrder(|t.keys|, MaxSteps(t));
      |t.keys| <= n && !(order.Some? && |order.value| > MaxSteps(t)) && IsSequential(mode, |t.keys|) ==>
        && (r.Ok? <==> SequentialRunnable(n, t.tasks, ord, MaxSteps(t), dl))
        && (r.Ok? ==> SequentialRows(fleet, n, t.tasks, ord, MaxSteps(t), r.value)
                      && trace == SequentialTrace(fleet, n, t.tasks, ord, MaxSteps(t), dl))
    ensures var t := s.sync;
      |t.keys| <= n && !(order.Some? && |order.value| > MaxSteps(t)) && !IsSequential(mode, |t.keys|) ==>
        && (r.Ok? <==> KeysResolve(n, t.keys))
        && (r.Ok? ==> ParallelRows(fleet, n, t, MaxSteps(t), r.value)
                      && trace == ParallelTrace(fleet, n, t.tasks, t.keys))
  {
    var t := s.sync;
    var numSynced := s.GetSize();
    DistinctKeys(t);
    var maxSteps := s.GetMaxNumSteps();
    if numSynced > n {
      var _, landed := AllDrones(fleet, n, Land);
      return Err(AbortError(fleet, n, TooManySynced)), landed + DisconnectAll(fleet, n);
    }
    if order.Some? && |order.value| > maxSteps {
      var _, landed := AllDrones(fleet, n, Land);
      return Err(AbortError(fleet, n, OrderTooLong)), landed + DisconnectAll(fleet, n);
    }
    if mode == "sequential" && numSynced > 1 {
      var dl := if delay.Some? then delay.value else 0.0;
      var ord := if order.Some? then order.value else DefaultOrder(numSynced, maxSteps);
      r, trace := RunSequential(fleet, n, t.tasks, maxSteps, dl, ord);
    } else {
      r, trace := RunParallel(fleet, n, t, maxSteps);
    }
  }
}
