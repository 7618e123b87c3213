/**
  The two read-only walks that precede the rewrite: the collector of the function names the
  script defines, and the check that the drone instance is called `drone`.
  Both are visitor objects that accumulate into a field while they walk the statements.
*/
module Collectors {
  import opened Common
  import opened PyAst

  /** Names of the `def` statements (not `async def`) in a list of statements. */
  function DefNames(l: seq<Stmt>): set<string>
  {
    set s | s in l && s.FunctionDef? :: s.name
  }

  lemma DefNamesAppend(a: seq<Stmt>, b: seq<Stmt>)
    ensures DefNames(a + b) == DefNames(a) + DefNames(b)
  {
  }

  /** The set FunctionCollector ends with: every `def` name at any nesting depth. */
  function DefinedNames(ss: seq<Stmt>): set<string>
  {
    DefNames(AllStmts(ss))
  }

  /**
    A `def` contributes its own name and the names defined inside it; an `async def`
    contributes only the names defined inside it, since the collector has no visit
    method for it and only descends.
  */
  lemma {:induction false} DefinedNamesOfDefs(pre: seq<Stmt>, n: string, a: Arguments, body: seq<Stmt>,
                                               d: seq<Expr>, r: Option<Expr>, post: seq<Stmt>)
    ensures DefinedNames(pre + [FunctionDef(n, a, body, d, r)] + post)
         == DefinedNames(pre) + {n} + DefinedNames(body) + DefinedNames(post)
    ensures DefinedNames(pre + [AsyncFunctionDef(n, a, body, d, r)] + post)
         == DefinedNames(pre) + DefinedNames(body) + DefinedNames(post)
  {
    var f := FunctionDef(n, a, body, d, r);
    var g := AsyncFunctionDef(n, a, body, d, r);
    DefinedNamesAround(pre, f, post);
    DefNamesOne(f, AllStmts(body));
    DefinedNamesAround(pre, g, post);
    DefNamesOne(g, AllStmts(body));
  }

  /** The names defined around and inside one statement. */
  lemma DefinedNamesAround(pre: seq<Stmt>, s: Stmt, post: seq<Stmt>)
    ensures DefinedNames(pre + [s] + post)
         == DefinedNames(pre) + DefNames([s] + NestedStmts(s)) + DefinedNames(post)
  {
    AllStmtsAppend(pre + [s], post);
    AllStmtsAppend(pre, [s]);
    assert [s][1..] == [];
    DefNamesAppend(AllStmts(pre) + AllStmts([s]), AllStmts(post));
    DefNamesAppend(AllStmts(pre), AllStmts([s]));
  }

  lemma DefNamesOne(s: Stmt, rest: seq<Stmt>)
    ensures DefNames([s] + rest) == (if s.FunctionDef? then {s.name} else {}) + DefNames(rest)
  {
    DefNamesAppend([s], rest);
    assert DefNames([s]) == if s.FunctionDef? then {s.name} else {};
  }

  class FunctionCollector {
    var customFunctions: set<string>

    constructor()
      ensures customFunctions == {}
    {
      customFunctions := {};
    }

    method VisitStmts(ss: seq<Stmt>)
      modifies this
      ensures customFunctions == old(customFunctions) + DefNames(AllStmts(ss))
      decreases ss
    {
      var i := 0;
      while i < |ss|
        invariant 0 <= i <= |ss|
        invariant customFunctions == old(customFunctions) + DefNames(AllStmts(ss[..i]))
      {
        VisitStmt(ss[i]);
        AllStmtsSnoc(ss, i);
        DefNamesAppend(AllStmts(ss[..i]), [ss[i]] + NestedStmts(ss[i]));
        DefNamesOne(ss[i], NestedStmts(ss[i]));
        i := i + 1;
      }
      assert ss[..i] == ss;
    }

    /** `visit_FunctionDef` records the name; every statement is then visited generically. */
    method VisitStmt(s: Stmt)
      modifies this
      ensures customFunctions == old(customFunctions)
        + (if s.FunctionDef? then {s.name} else {}) + DefNames(NestedStmts(s))
      decreases s
    {
      if s.FunctionDef? {
        customFunctions := customFunctions + {s.name};
      }
      if HasOneBody(s) {
        VisitStmts(s.body);
      } else if HasElse(s) {
        VisitStmts(s.body);
        VisitStmts(s.orelse);
        DefNamesAppend(AllStmts(s.body), AllStmts(s.orelse));
      } else if s.Try? {
        VisitStmts(s.body);
        VisitHandlers(s.handlers);
        VisitStmts(s.orelse);
        VisitStmts(s.finalbody);
        DefNamesAppend(AllStmts(s.orelse), AllStmts(s.finalbody));
        DefNamesAppend(HandlerStmts(s.handlers), AllStmts(s.orelse) + AllStmts(s.finalbody));
        DefNamesAppend(AllStmts(s.body), HandlerStmts(s.handlers) + (AllStmts(s.orelse) + AllStmts(s.finalbody)));
      }
    }

    method VisitHandlers(hs: seq<Handler>)
      modifies this
      ensures customFunctions == old(customFunctions) + DefNames(HandlerStmts(hs))
      decreases hs
    {
      if hs != [] {
        VisitStmts(hs[0].body);
        VisitHandlers(hs[1..]);
        DefNamesAppend(AllStmts(hs[0].body), HandlerStmts(hs[1..]));
      }
    }
  }

  // ---------------------------------------------------------------------------------------

  /** What `DroneInstanceFinder` raises. */
  datatype FinderError =
    | MisnamedInstance(found: string)   // ValueError: the instance must be named 'drone'
    | TargetWithoutId                    // AttributeError: `targets[0].id` of a non-name target

  /** `<targets> = Drone(...)`: the assignment the finder inspects. */
  predicate IsDroneCreation(s: Stmt)
  {
    s.Assign? && s.value.Call? && s.value.func.Name? && s.value.func.id == "Drone"
  }

  /** `visit_Assign` of the finder, on one statement. */
  function CheckAssign(s: Stmt): (r: Option<FinderError>)
    ensures r.None? <==> !IsDroneCreation(s) || (|s.targets| > 0 && s.targets[0] == Name("drone"))
  {
    if !IsDroneCreation(s) then None
    else if |s.targets| == 0 || !s.targets[0].Name? then Some(TargetWithoutId)
    else if s.targets[0].id != "drone" then Some(MisnamedInstance(s.targets[0].id))
    else None
  }

  /** The first error in visiting order: the exception the walk raises. */
  function FirstError(l: seq<Stmt>): Option<FinderError>
  {
    if l == [] then None
    else if CheckAssign(l[0]).Some? then CheckAssign(l[0])
    else FirstError(l[1..])
  }

  lemma {:induction false} FirstErrorAppend(a: seq<Stmt>, b: seq<Stmt>)
    ensures FirstError(a + b) == if FirstError(a).Some? then FirstError(a) else FirstError(b)
  {
    if a == [] {
      assert a + b == b;
    } else {
      assert (a + b)[0] == a[0];
      assert (a + b)[1..] == a[1..] + b;
      FirstErrorAppend(a[1..], b);
    }
  }

  /** The walk succeeds exactly when every `Drone()` it reaches is assigned to the name `drone`. */
  lemma {:induction false} FirstErrorNone(l: seq<Stmt>)
    ensures FirstError(l).None? <==>
            forall i :: 0 <= i < |l| && IsDroneCreation(l[i]) ==> |l[i].targets| > 0 && l[i].targets[0] == Name("drone")
  {
    if l != [] {
      FirstErrorNone(l[1..]);
      assert forall i :: 1 <= i < |l| ==> l[i] == l[1..][i - 1];
    }
  }

  /** Some statement of `l` creates the drone. */
  predicate CreatesDrone(l: seq<Stmt>)
  {
    exists i :: 0 <= i < |l| && IsDroneCreation(l[i])
  }

  class DroneInstanceFinder {
    var droneInstanceName: Option<string>

    constructor()
      ensures droneInstanceName == None
    {
      droneInstanceName := None;
    }

    /**
      Walks `ss`; returns the error it raises, if any. On success the recorded name is
      `drone` when some `Drone()` assignment was reached, and unchanged otherwise.
    */
    method VisitStmts(ss: seq<Stmt>) returns (err: Option<FinderError>)
      modifies this
      ensures err == FirstError(AllStmts(ss))
      ensures err.None? ==> (droneInstanceName ==
        if CreatesDrone(AllStmts(ss)) then Some("drone") else old(droneInstanceName))
      decreases ss
    {
      var i := 0;
      while i < |ss|
        invariant 0 <= i <= |ss|
        invariant FirstError(AllStmts(ss[..i])) == None
        invariant droneInstanceName ==
          if CreatesDrone(AllStmts(ss[..i])) then Some("drone") else old(droneInstanceName)
      {
        var e := VisitStmt(ss[i]);
        AllStmtsSnoc(ss, i);
        FirstErrorAppend(AllStmts(ss[..i]), [ss[i]] + NestedStmts(ss[i]));
        CreatesDroneAppend(AllStmts(ss[..i]), [ss[i]] + NestedStmts(ss[i]));
        if e.Some? {
          AllStmtsSplit(ss, i + 1);
          FirstErrorAppend(AllStmts(ss[..i + 1]), AllStmts(ss[i + 1..]));
          return e;
        }
        i := i + 1;
      }
      assert ss[..i] == ss;
      return None;
    }

    /** `visit_Assign` checks a `Drone()` assignment and does not descend; all else is walked. */
    method VisitStmt(s: Stmt) returns (err: Option<FinderError>)
      modifies this
      ensures err == FirstError([s] + NestedStmts(s))
      ensures err.None? ==> (droneInstanceName ==
        if CreatesDrone([s] + NestedStmts(s)) then Some("drone") else old(droneInstanceName))
      decreases s
    {
      FirstErrorAppend([s], NestedStmts(s));
      CreatesDroneAppend([s], NestedStmts(s));
      assert FirstError([s]) == CheckAssign(s);
      assert CreatesDrone([s]) <==> IsDroneCreation(s);
      if IsDroneCreation(s) {
        err := CheckAssign(s);
        if err.None? {
          droneInstanceName := Some(s.targets[0].id);
        }
        return;
      }
      if HasOneBody(s) {
        err := VisitStmts(s.body);
      } else if HasElse(s) {
        FirstErrorAppend(AllStmts(s.body), AllStmts(s.orelse));
        CreatesDroneAppend(AllStmts(s.body), AllStmts(s.orelse));
        err := VisitStmts(s.body);
        if err.None? {
          err := VisitStmts(s.orelse);
        }
      } else if s.Try? {
        var tail := AllStmts(s.orelse) + AllStmts(s.finalbody);
        FirstErrorAppend(AllStmts(s.orelse), AllStmts(s.finalbody));
        CreatesDroneAppend(AllStmts(s.orelse), AllStmts(s.finalbody));
        FirstErrorAppend(HandlerStmts(s.handlers), tail);
        CreatesDroneAppend(HandlerStmts(s.handlers), tail);
        FirstErrorAppend(AllStmts(s.body), HandlerStmts(s.handlers) + tail);
        CreatesDroneAppend(AllStmts(s.body), HandlerStmts(s.handlers) + tail);
        err := VisitStmts(s.body);
        if err.None? {
          err := VisitHandlers(s.handlers);
          if err.None? {
            err := VisitStmts(s.orelse);
            if err.None? {
              err := VisitStmts(s.finalbody);
            }
          }
        }
      } else {
        err := None;
      }
    }

    method VisitHandlers(hs: seq<Handler>) returns (err: Option<FinderError>)
      modifies this
      ensures err == FirstError(HandlerStmts(hs))
      ensures err.None? ==> (droneInstanceName ==
        if CreatesDrone(HandlerStmts(hs)) then Some("drone") else old(droneInstanceName))
      decreases hs
    {
      if hs == [] {
        return None;
      }
      FirstErrorAppend(AllStmts(hs[0].body), HandlerStmts(hs[1..]));
      CreatesDroneAppend(AllStmts(hs[0].body), HandlerStmts(hs[1..]));
      err := VisitStmts(hs[0].body);
      if err.None? {
        err := VisitHandlers(hs[1..]);
      }
    }
  }

  lemma CreatesDroneAppend(a: seq<Stmt>, b: seq<Stmt>)
    ensures CreatesDrone(a + b) <==> CreatesDrone(a) || CreatesDrone(b)
  {
    if CreatesDrone(a + b) {
      var i :| 0 <= i < |a + b| && IsDroneCreation((a + b)[i]);
      if i >= |a| { assert IsDroneCreation(b[i - |a|]); }
    }
    if CreatesDrone(b) {
      var i :| 0 <= i < |b| && IsDroneCreation(b[i]);
      assert (a + b)[|a| + i] == b[i];
    }
    if CreatesDrone(a) {
      var i :| 0 <= i < |a| && IsDroneCreation(a[i]);
      assert (a + b)[i] == a[i];
    }
  }
}
