/**
  AsyncTransformer: wraps the script in `async def _wrapper()`, turns every `def` into
  `async def`, comments out the `Drone()` construction, neutralises connection calls and
  inserts `await` in front of the calls that are coroutines once the script runs on the
  asynchronous drone.
*/
module AsyncPass {
  import opened Common
  import opened PyAst

  /** Connection management calls that the rewritten script must not perform itself. */
  const ConnectionMethods: set<string> := {"pair", "open", "connect", "disconnect", "close"}

  /** Drone methods that stay synchronous: calls to them are not awaited. */
  const NonAwaitDroneFunctions: set<string> := {
    "convert_meter", "convert_millimeter",
    "get_left_joystick_y", "get_left_joystick_x",
    "get_right_joystick_y", "get_right_joystick_x",
    "get_button_data", "l1_pressed", "l2_pressed",
    "r1_pressed", "r2_pressed", "h_pressed",
    "power_pressed", "up_arrow_pressed", "left_arrow_pressed",
    "right_arrow_pressed", "down_arrow_pressed", "s_pressed", "p_pressed",
    "set_roll", "set_pitch", "set_yaw", "set_throttle",
    "print_move_values", "percent_error", "get_move_values",
    "predict_colors", "load_classifier", "print_num_data", "append_color_data", "new_color_data",
    "detect_colors", "load_color_data",
    "reset_classifier"
  }

  /** `drone.<attr>(...)`: a call whose callee is an attribute of the drone instance name. */
  predicate IsInstanceCall(e: Expr, drone: string)
  {
    e.Call? && e.func.Attr? && e.func.value.Name? && e.func.value.id == drone
  }

  /** `visit_Call` and the generic descent through every other expression. */
  function AsyncExpr(e: Expr, custom: set<string>, drone: string): Expr
  {
    match e
    case Call(f, args, kws) =>
      if IsInstanceCall(e, drone) && f.attr in ConnectionMethods then
        MethodCall(drone, "dummy_function", [])
      else if IsInstanceCall(e, drone) && f.attr !in NonAwaitDroneFunctions then
        Await(e)
      else if !IsInstanceCall(e, drone) && f.Name? && f.id in custom then
        Await(e)
      else if !IsInstanceCall(e, drone) && f.Name? && f.id == "input" then
        Await(e)
      else
        Call(AsyncExpr(f, custom, drone), AsyncExprs(args, custom, drone), AsyncKeywords(kws, custom, drone))
    case Attr(v, a) => Attr(AsyncExpr(v, custom, drone), a)
    case Await(v) => Await(AsyncExpr(v, custom, drone))
    case Compound(k, parts) => Compound(k, AsyncExprs(parts, custom, drone))
    case Name(_) => e
    case Const(_) => e
  }

  function AsyncExprs(es: seq<Expr>, custom: set<string>, drone: string): (r: seq<Expr>)
    ensures |r| == |es|
    ensures forall i :: 0 <= i < |es| ==> r[i] == AsyncExpr(es[i], custom, drone)
  {
    if es == [] then [] else [AsyncExpr(es[0], custom, drone)] + AsyncExprs(es[1..], custom, drone)
  }

  function AsyncKeyword(k: Keyword, custom: set<string>, drone: string): Keyword
  {
    Keyword(k.arg, AsyncExpr(k.value, custom, drone))
  }

  function AsyncKeywords(ks: seq<Keyword>, custom: set<string>, drone: string): (r: seq<Keyword>)
    ensures |r| == |ks|
  {
    if ks == [] then [] else [AsyncKeyword(ks[0], custom, drone)] + AsyncKeywords(ks[1..], custom, drone)
  }

  function AsyncOptExpr(e: Option<Expr>, custom: set<string>, drone: string): Option<Expr>
  {
    match e
    case None => None
    case Some(x) => Some(AsyncExpr(x, custom, drone))
  }

  function AsyncArguments(a: Arguments, custom: set<string>, drone: string): Arguments
  {
    Arguments(a.params, AsyncExprs(a.defaults, custom, drone))
  }

  /** `<name> = Drone(...)` with a plain name as first target: the line `visit_Assign` comments out. */
  predicate IsNamedDroneCreation(s: Stmt)
  {
    s.Assign? && s.value.Call? && s.value.func.Name? && s.value.func.id == "Drone"
    && |s.targets| > 0 && s.targets[0].Name?
  }

  /** The string-constant statement that replaces `<name> = Drone()`. */
  function CommentedCreation(name: string): Stmt
  {
    ExprStmt(Const(LStr("# " + name + " = Drone()")))
  }

  /** `visit_Assign`, `visit_FunctionDef`, and the generic descent through every other statement. */
  function AsyncStmt(s: Stmt, custom: set<string>, drone: string): Stmt
  {
    match s
    case Assign(targets, value) =>
      if IsNamedDroneCreation(s) then CommentedCreation(targets[0].id)
      else Assign(AsyncExprs(targets, custom, drone), AsyncExpr(value, custom, drone))
    case FunctionDef(n, a, body, d, r) =>
      AsyncFunctionDef(n, AsyncArguments(a, custom, drone), AsyncStmts(body, custom, drone),
                       AsyncExprs(d, custom, drone), AsyncOptExpr(r, custom, drone))
    case AsyncFunctionDef(n, a, body, d, r) =>
      AsyncFunctionDef(n, AsyncArguments(a, custom, drone), AsyncStmts(body, custom, drone),
                       AsyncExprs(d, custom, drone), AsyncOptExpr(r, custom, drone))
    case ClassDef(n, bases, body, d) =>
      ClassDef(n, AsyncExprs(bases, custom, drone), AsyncStmts(body, custom, drone), AsyncExprs(d, custom, drone))
    case If(t, body, orelse) =>
      If(AsyncExpr(t, custom, drone), AsyncStmts(body, custom, drone), AsyncStmts(orelse, custom, drone))
    case For(t, it, body, orelse) =>
      For(AsyncExpr(t, custom, drone), AsyncExpr(it, custom, drone),
          AsyncStmts(body, custom, drone), AsyncStmts(orelse, custom, drone))
    case While(t, body, orelse) =>
      While(AsyncExpr(t, custom, drone), AsyncStmts(body, custom, drone), AsyncStmts(orelse, custom, drone))
    case Try(body, hs, orelse, fin) =>
      Try(AsyncStmts(body, custom, drone), AsyncHandlers(hs, custom, drone),
          AsyncStmts(orelse, custom, drone), AsyncStmts(fin, custom, drone))
    case With(items, body) => With(AsyncExprs(items, custom, drone), AsyncStmts(body, custom, drone))
    case ExprStmt(v) => ExprStmt(AsyncExpr(v, custom, drone))
    case Simple(k, es) => Simple(k, AsyncExprs(es, custom, drone))
    case Import(_) => s
    case ImportFrom(_, _, _) => s
  }

  function AsyncStmts(ss: seq<Stmt>, custom: set<string>, drone: string): (r: seq<Stmt>)
    ensures |r| == |ss|
    ensures forall i :: 0 <= i < |ss| ==> r[i] == AsyncStmt(ss[i], custom, drone)
  {
    if ss == [] then [] else [AsyncStmt(ss[0], custom, drone)] + AsyncStmts(ss[1..], custom, drone)
  }

  function AsyncHandlers(hs: seq<Handler>, custom: set<string>, drone: string): (r: seq<Handler>)
    ensures |r| == |hs|
  {
    if hs == [] then []
    else [Handler(AsyncOptExpr(hs[0].typ, custom, drone), hs[0].name, AsyncStmts(hs[0].body, custom, drone))]
         + AsyncHandlers(hs[1..], custom, drone)
  }

  // ----- visit_Module --------------------------------------------------------------------

  /** `""` as a statement: the blank line the module pass drops. */
  predicate IsEmptyString(s: Stmt)
  {
    s.ExprStmt? && s.value.Const? && s.value.lit == LStr("")
  }

  function Imports(ss: seq<Stmt>): (r: seq<Stmt>)
    ensures forall s :: s in r ==> s in ss && IsImport(s)
  {
    if ss == [] then []
    else (if IsImport(ss[0]) then [ss[0]] else []) + Imports(ss[1..])
  }

  /** A top-level statement that moves into the wrapper: neither an import nor a blank string. */
  predicate IsWrapped(s: Stmt)
  {
    !IsImport(s) && !IsEmptyString(s)
  }

  /** The top-level statements that move into the wrapper. */
  function WrappedStmts(ss: seq<Stmt>): (r: seq<Stmt>)
    ensures forall s :: s in r ==> s in ss && IsWrapped(s)
  {
    if ss == [] then []
    else (if IsWrapped(ss[0]) then [ss[0]] else []) + WrappedStmts(ss[1..])
  }

  /** How many statements of `ss` pass `keep`. */
  function CountKept(ss: seq<Stmt>, keep: Stmt -> bool): (n: nat)
    ensures n <= |ss|
  {
    if ss == [] then 0 else (if keep(ss[0]) then 1 else 0) + CountKept(ss[1..], keep)
  }

  /** The statements among the first `i` that pass are the first, if it passes, and those among the next `i - 1`. */
  lemma CountKeptPrefix(ss: seq<Stmt>, i: int, keep: Stmt -> bool)
    requires 0 < i <= |ss|
    ensures CountKept(ss[..i], keep) == (if keep(ss[0]) then 1 else 0) + CountKept(ss[1..][..i - 1], keep)
  {
    var p := ss[..i];
    assert p[0] == ss[0] && p[1..] == ss[1..][..i - 1];
  }

  /** The statements of `ss` that pass `keep`, in order. */
  function Kept(ss: seq<Stmt>, keep: Stmt -> bool): seq<Stmt>
  {
    if ss == [] then [] else (if keep(ss[0]) then [ss[0]] else []) + Kept(ss[1..], keep)
  }

  /** Nothing that passes is dropped: one entry per statement that passes. */
  lemma {:induction false} KeptLength(ss: seq<Stmt>, keep: Stmt -> bool)
    ensures |Kept(ss, keep)| == CountKept(ss, keep)
  {
    if ss != [] {
      KeptLength(ss[1..], keep);
    }
  }

  /** The statement at position `i`, if it passes, is entry `k` of the result, `k` being how many passed before it. */
  lemma {:induction false} KeptPositions(ss: seq<Stmt>, keep: Stmt -> bool, i: int)
    requires 0 <= i < |ss| && keep(ss[i])
    ensures var k := CountKept(ss[..i], keep); k < |Kept(ss, keep)| && Kept(ss, keep)[k] == ss[i]
  {
    var head := if keep(ss[0]) then [ss[0]] else [];
    var rest := Kept(ss[1..], keep);
    assert Kept(ss, keep) == head + rest;
    if i == 0 {
      assert ss[..0] == [];
    } else {
      KeptPositions(ss[1..], keep, i - 1);
      CountKeptPrefix(ss, i, keep);
      var k := CountKept(ss[1..][..i - 1], keep);
      assert (head + rest)[|head| + k] == rest[k] == ss[1..][i - 1] == ss[i];
    }
  }

  lemma {:induction false} ImportsAreKept(ss: seq<Stmt>)
    ensures Imports(ss) == Kept(ss, IsImport)
  {
    if ss != [] {
      ImportsAreKept(ss[1..]);
    }
  }

  lemma {:induction false} WrappedAreKept(ss: seq<Stmt>)
    ensures WrappedStmts(ss) == Kept(ss, IsWrapped)
  {
    if ss != [] {
      WrappedAreKept(ss[1..]);
    }
  }

  /** Every import is kept: `Imports` holds one entry per import of `ss`. */
  lemma ImportsLength(ss: seq<Stmt>)
    ensures |Imports(ss)| == CountKept(ss, IsImport)
  {
    ImportsAreKept(ss);
    KeptLength(ss, IsImport);
  }

  /** In order: the import at position `i` is the `k`-th import kept, `k` being the number of imports before it. */
  lemma ImportsPositions(ss: seq<Stmt>, i: int)
    requires 0 <= i < |ss| && IsImport(ss[i])
    ensures var k := CountKept(ss[..i], IsImport); k < |Imports(ss)| && Imports(ss)[k] == ss[i]
  {
    ImportsAreKept(ss);
    KeptPositions(ss, IsImport, i);
  }

  /** Every statement that is neither an import nor blank is wrapped: one entry per such statement. */
  lemma WrappedLength(ss: seq<Stmt>)
    ensures |WrappedStmts(ss)| == CountKept(ss, IsWrapped)
  {
    WrappedAreKept(ss);
    KeptLength(ss, IsWrapped);
  }

  /** In order: the wrapped statement at position `i` is the `k`-th wrapped, `k` being the number wrapped before it. */
  lemma WrappedPositions(ss: seq<Stmt>, i: int)
    requires 0 <= i < |ss| && IsWrapped(ss[i])
    ensures var k := CountKept(ss[..i], IsWrapped); k < |WrappedStmts(ss)| && WrappedStmts(ss)[k] == ss[i]
  {
    WrappedAreKept(ss);
    KeptPositions(ss, IsWrapped, i);
  }

  /** `drone.reset_classifier()`, inserted first in the wrapper. */
  function ResetClassifier(drone: string): Stmt
  {
    ExprStmt(MethodCall(drone, "reset_classifier", []))
  }

  const WrapperName: string := "_wrapper"

  function Wrapper(body: seq<Stmt>): Stmt
  {
    AsyncFunctionDef(WrapperName, Arguments([], []), body, [], None)
  }

  /** `visit_Module`: the imports stay on top, everything else runs inside `_wrapper`. */
  function AsyncModule(m: Module, custom: set<string>, drone: string): Module
  {
    var wrapped := [ResetClassifier(drone)] + WrappedStmts(m.body);
    Module(Imports(m.body) + [Wrapper(AsyncStmts(wrapped, custom, drone))])
  }

  // ----- properties ----------------------------------------------------------------------

  /**
    After the pass the module is the top-level imports in their original order followed by
    exactly one `async def _wrapper()`, whose body starts with `drone.reset_classifier()` and
    then holds one rewritten statement per remaining top-level statement.
  */
  lemma {:induction false} ModuleShape(m: Module, custom: set<string>)
    ensures var r := AsyncModule(m, custom, "drone").body;
      && |r| == |Imports(m.body)| + 1
      && r[..|r| - 1] == Imports(m.body)
      && (forall i :: 0 <= i < |r| - 1 ==> IsImport(r[i]))
      && r[|r| - 1].AsyncFunctionDef? && r[|r| - 1].name == "_wrapper"
      && r[|r| - 1].args == Arguments([], []) && r[|r| - 1].decorators == []
      && |r[|r| - 1].body| == 1 + |WrappedStmts(m.body)|
      && r[|r| - 1].body[0] == ResetClassifier("drone")
      && forall i :: 0 <= i < |WrappedStmts(m.body)| ==>
           r[|r| - 1].body[i + 1] == AsyncStmt(WrappedStmts(m.body)[i], custom, "drone")
  {
    var r := AsyncModule(m, custom, "drone").body;
    var wrapped := [ResetClassifier("drone")] + WrappedStmts(m.body);
    assert r == Imports(m.body) + [Wrapper(AsyncStmts(wrapped, custom, "drone"))];
    assert "reset_classifier" in NonAwaitDroneFunctions;
    assert "reset_classifier" !in ConnectionMethods;
    assert AsyncExpr(Attr(Name("drone"), "reset_classifier"), custom, "drone") == Attr(Name("drone"), "reset_classifier");
    assert AsyncStmt(ResetClassifier("drone"), custom, "drone") == ResetClassifier("drone");
    forall i | 0 <= i < |r| - 1 ensures IsImport(r[i]) {
      assert r[i] in Imports(m.body);
    }
    forall i | 0 <= i < |WrappedStmts(m.body)|
      ensures r[|r| - 1].body[i + 1] == AsyncStmt(WrappedStmts(m.body)[i], custom, "drone")
    {
      assert wrapped[i + 1] == WrappedStmts(m.body)[i];
    }
  }

  /** `drone.pair/open/connect/disconnect/close(...)` becomes `drone.dummy_function()`. */
  lemma ConnectionCallNeutralised(m: string, args: seq<Expr>, kws: seq<Keyword>, custom: set<string>)
    requires m in ConnectionMethods
    ensures AsyncExpr(Call(Attr(Name("drone"), m), args, kws), custom, "drone")
         == Call(Attr(Name("drone"), "dummy_function"), [], [])
  {
  }

  /**
    A call is awaited, untouched inside, when it is a drone method outside the two lists,
    a function the script defines, or `input`; a listed synchronous drone method stays a
    plain call whose arguments are still rewritten.
  */
  lemma AwaitInsertion(f: Expr, args: seq<Expr>, kws: seq<Keyword>, custom: set<string>)
    ensures var c := Call(f, args, kws);
      && (IsInstanceCall(c, "drone") && f.attr !in ConnectionMethods && f.attr !in NonAwaitDroneFunctions
          ==> AsyncExpr(c, custom, "drone") == Await(c))
      && (f.Name? && (f.id in custom || f.id == "input") ==> AsyncExpr(c, custom, "drone") == Await(c))
      && (IsInstanceCall(c, "drone") && f.attr in NonAwaitDroneFunctions && f.attr !in ConnectionMethods
          ==> AsyncExpr(c, custom, "drone")
              == Call(f, AsyncExprs(args, custom, "drone"), AsyncKeywords(kws, custom, "drone")))
  {
    if f.Attr? && f.value.Name? {
      assert AsyncExpr(f, custom, "drone") == Attr(AsyncExpr(f.value, custom, "drone"), f.attr);
    }
  }

  /** The `Drone()` construction turns into a string-constant statement naming the original line. */
  lemma DroneCreationCommented(x: string, more: seq<Expr>, args: seq<Expr>, kws: seq<Keyword>, custom: set<string>)
    ensures AsyncStmt(Assign([Name(x)] + more, Call(Name("Drone"), args, kws)), custom, "drone")
         == ExprStmt(Const(LStr("# " + x + " = Drone()")))
  {
  }

  /**
    A `def` keeps its name, parameter names and number of decorators, and becomes an
    `async def` whose body has the same number of statements.
  */
  lemma DefBecomesAsync(s: Stmt, custom: set<string>, drone: string)
    requires s.FunctionDef?
    ensures var r := AsyncStmt(s, custom, drone);
      && r.AsyncFunctionDef? && r.name == s.name && r.args.params == s.args.params
      && |r.args.defaults| == |s.args.defaults| && |r.decorators| == |s.decorators|
      && r.annotation.Some? == s.annotation.Some?
      && |r.body| == |s.body|
      && forall i :: 0 <= i < |s.body| ==> r.body[i] == AsyncStmt(s.body[i], custom, drone)
  {
  }

  /** No synchronous `def` survives the pass, at any nesting depth. */
  lemma {:induction false} NoSyncDefs(ss: seq<Stmt>, custom: set<string>, drone: string)
    ensures forall s :: s in AllStmts(AsyncStmts(ss, custom, drone)) ==> !s.FunctionDef?
    decreases ss
  {
    if ss != [] {
      var r := AsyncStmts(ss, custom, drone);
      assert r == [AsyncStmt(ss[0], custom, drone)] + AsyncStmts(ss[1..], custom, drone);
      NoSyncDefs(ss[1..], custom, drone);
      NoSyncDefsNested(ss[0], custom, drone);
    }
  }

  lemma {:induction false} NoSyncDefsNested(s: Stmt, custom: set<string>, drone: string)
    ensures !AsyncStmt(s, custom, drone).FunctionDef?
    ensures forall t :: t in NestedStmts(AsyncStmt(s, custom, drone)) ==> !t.FunctionDef?
    decreases s
  {
    var r := AsyncStmt(s, custom, drone);
    if HasOneBody(s) || HasElse(s) || s.Try? {
      NoSyncDefs(s.body, custom, drone);
    }
    if HasElse(s) || s.Try? {
      NoSyncDefs(s.orelse, custom, drone);
    }
    if s.Try? {
      NoSyncDefs(s.finalbody, custom, drone);
      NoSyncDefsHandlers(s.handlers, custom, drone);
    }
  }

  lemma {:induction false} NoSyncDefsHandlers(hs: seq<Handler>, custom: set<string>, drone: string)
    ensures forall t :: t in HandlerStmts(AsyncHandlers(hs, custom, drone)) ==> !t.FunctionDef?
    decreases hs
  {
    if hs != [] {
      NoSyncDefs(hs[0].body, custom, drone);
      NoSyncDefsHandlers(hs[1..], custom, drone);
    }
  }

  /** The pass rewrites statements one for one: as many statements are reached before as after. */
  lemma {:induction false} StatementCountPreserved(ss: seq<Stmt>, custom: set<string>, drone: string)
    ensures |AllStmts(AsyncStmts(ss, custom, drone))| == |AllStmts(ss)|
    decreases ss
  {
    if ss != [] {
      var r := AsyncStmts(ss, custom, drone);
      assert r == [AsyncStmt(ss[0], custom, drone)] + AsyncStmts(ss[1..], custom, drone);
      StatementCountPreserved(ss[1..], custom, drone);
      NestedCountPreserved(ss[0], custom, drone);
    }
  }

  lemma {:induction false} NestedCountPreserved(s: Stmt, custom: set<string>, drone: string)
    ensures |NestedStmts(AsyncStmt(s, custom, drone))| == |NestedStmts(s)|
    decreases s
  {
    var r := AsyncStmt(s, custom, drone);
    if HasOneBody(s) {
      StatementCountPreserved(s.body, custom, drone);
      assert HasOneBody(r) && r.body == AsyncStmts(s.body, custom, drone);
    } else if HasElse(s) {
      StatementCountPreserved(s.body, custom, drone);
      StatementCountPreserved(s.orelse, custom, drone);
      assert HasElse(r) && r.body == AsyncStmts(s.body, custom, drone);
      assert r.orelse == AsyncStmts(s.orelse, custom, drone);
    } else if s.Try? {
      StatementCountPreserved(s.body, custom, drone);
      StatementCountPreserved(s.orelse, custom, drone);
      StatementCountPreserved(s.finalbody, custom, drone);
      HandlerCountPreserved(s.handlers, custom, drone);
      assert r == Try(AsyncStmts(s.body, custom, drone), AsyncHandlers(s.handlers, custom, drone),
                      AsyncStmts(s.orelse, custom, drone), AsyncStmts(s.finalbody, custom, drone));
    } else {
      assert !HasOneBody(r) && !HasElse(r) && !r.Try?;
    }
  }

  lemma {:induction false} HandlerCountPreserved(hs: seq<Handler>, custom: set<string>, drone: string)
    ensures |HandlerStmts(AsyncHandlers(hs, custom, drone))| == |HandlerStmts(hs)|
    decreases hs
  {
    if hs != [] {
      StatementCountPreserved(hs[0].body, custom, drone);
      HandlerCountPreserved(hs[1..], custom, drone);
    }
  }
}
