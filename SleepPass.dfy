/**
  SleepTransformer: the script's `time` module is replaced by `asyncio`, and every
  `time.sleep(...)` call becomes `await asyncio.sleep(...)`, so that waiting no longer
  blocks the event loop that talks to the drone.
*/
module SleepPass {
  import opened Common
  import opened PyAst

  /** `time.sleep(...)`: a call whose callee is the attribute `sleep` of the plain name `time`. */
  predicate IsTimeSleep(e: Expr)
  {
    e.Call? && e.func.Attr? && e.func.value.Name? && e.func.value.id == "time" && e.func.attr == "sleep"
  }

  /** `visit_Call` and the generic descent through every other expression. */
  function SleepExpr(e: Expr): Expr
  {
    match e
    case Call(f, args, kws) =>
      if IsTimeSleep(e) then Await(Call(Attr(Name("asyncio"), "sleep"), args, kws))
      else Call(SleepExpr(f), SleepExprs(args), SleepKeywords(kws))
    case Attr(v, a) => Attr(SleepExpr(v), a)
    case Await(v) => Await(SleepExpr(v))
    case Compound(k, parts) => Compound(k, SleepExprs(parts))
    case Name(_) => e
    case Const(_) => e
  }

  function SleepExprs(es: seq<Expr>): (r: seq<Expr>)
    ensures |r| == |es|
    ensures forall i :: 0 <= i < |es| ==> r[i] == SleepExpr(es[i])
  {
    if es == [] then [] else [SleepExpr(es[0])] + SleepExprs(es[1..])
  }

  function SleepKeyword(k: Keyword): Keyword
  {
    Keyword(k.arg, SleepExpr(k.value))
  }

  function SleepKeywords(ks: seq<Keyword>): (r: seq<Keyword>)
    ensures |r| == |ks|
  {
    if ks == [] then [] else [SleepKeyword(ks[0])] + SleepKeywords(ks[1..])
  }

  function SleepOptExpr(e: Option<Expr>): Option<Expr>
  {
    match e
    case None => None
    case Some(x) => Some(SleepExpr(x))
  }

  /** `visit_Import`: an imported module named `time` is imported as `asyncio`, keeping its alias. */
  function RenameAlias(a: Alias): Alias
  {
    if a.name == "time" then Alias("asyncio", a.asname) else a
  }

  function RenameAliases(as_: seq<Alias>): (r: seq<Alias>)
    ensures |r| == |as_|
    ensures forall i :: 0 <= i < |as_| ==> r[i] == RenameAlias(as_[i])
  {
    if as_ == [] then [] else [RenameAlias(as_[0])] + RenameAliases(as_[1..])
  }

  /** The statements that import the `time` module, by either import form. */
  predicate ImportsTime(s: Stmt)
  {
    (s.Import? && exists i :: 0 <= i < |s.names| && s.names[i].name == "time")
    || (s.ImportFrom? && s.source == Some("time"))
  }

  /** `visit_Import`, `visit_ImportFrom`, and the generic descent through every other statement. */
  function SleepStmt(s: Stmt): Stmt
  {
    match s
    case Import(names) => Import(RenameAliases(names))
    case ImportFrom(src, names, level) =>
      if src == Some("time") then ImportFrom(Some("asyncio"), names, level) else s
    case Assign(targets, value) => Assign(SleepExprs(targets), SleepExpr(value))
    case ExprStmt(v) => ExprStmt(SleepExpr(v))
    case FunctionDef(n, a, body, d, r) =>
      FunctionDef(n, Arguments(a.params, SleepExprs(a.defaults)), SleepStmts(body), SleepExprs(d), SleepOptExpr(r))
    case AsyncFunctionDef(n, a, body, d, r) =>
      AsyncFunctionDef(n, Arguments(a.params, SleepExprs(a.defaults)), SleepStmts(body), SleepExprs(d), SleepOptExpr(r))
    case ClassDef(n, bases, body, d) => ClassDef(n, SleepExprs(bases), SleepStmts(body), SleepExprs(d))
    case If(t, body, orelse) => If(SleepExpr(t), SleepStmts(body), SleepStmts(orelse))
    case For(t, it, body, orelse) => For(SleepExpr(t), SleepExpr(it), SleepStmts(body), SleepStmts(orelse))
    case While(t, body, orelse) => While(SleepExpr(t), SleepStmts(body), SleepStmts(orelse))
    case Try(body, hs, orelse, fin) => Try(SleepStmts(body), SleepHandlers(hs), SleepStmts(orelse), SleepStmts(fin))
    case With(items, body) => With(SleepExprs(items), SleepStmts(body))
    case Simple(k, es) => Simple(k, SleepExprs(es))
  }

  function SleepStmts(ss: seq<Stmt>): (r: seq<Stmt>)
    ensures |r| == |ss|
    ensures forall i :: 0 <= i < |ss| ==> r[i] == SleepStmt(ss[i])
  {
    if ss == [] then [] else [SleepStmt(ss[0])] + SleepStmts(ss[1..])
  }

  function SleepHandlers(hs: seq<Handler>): (r: seq<Handler>)
    ensures |r| == |hs|
  {
    if hs == [] then []
    else [Handler(SleepOptExpr(hs[0].typ), hs[0].name, SleepStmts(hs[0].body))] + SleepHandlers(hs[1..])
  }

  function SleepModule(m: Module): Module
  {
    Module(SleepStmts(m.body))
  }

  // ----- properties ----------------------------------------------------------------------

  /**
    `time.sleep(args)` becomes `await asyncio.sleep(args)` with the same arguments, and a
    call of anything else keeps its callee's shape.
  */
  lemma SleepCallAwaited(f: Expr, args: seq<Expr>, kws: seq<Keyword>)
    ensures IsTimeSleep(Call(f, args, kws)) ==>
      SleepExpr(Call(f, args, kws)) == Await(Call(Attr(Name("asyncio"), "sleep"), args, kws))
    ensures !IsTimeSleep(Call(f, args, kws)) ==>
      SleepExpr(Call(f, args, kws)) == Call(SleepExpr(f), SleepExprs(args), SleepKeywords(kws))
  {
  }

  /** An import statement stays an import of the same form, with `time` renamed and nothing else. */
  lemma ImportRenamed(s: Stmt)
    requires IsImport(s)
    ensures var r := SleepStmt(s);
      && IsImport(r) && r.Import? == s.Import? && !ImportsTime(r)
      && (s.Import? ==>
            (|r.names| == |s.names| && forall i :: 0 <= i < |s.names| ==>
               (r.names[i].asname == s.names[i].asname
                && r.names[i].name == if s.names[i].name == "time" then "asyncio" else s.names[i].name)))
      && (s.ImportFrom? ==>
            (r.names == s.names && r.level == s.level
             && r.source == if s.source == Some("time") then Some("asyncio") else s.source))
  {
  }

  /** After the pass, no statement at any depth imports `time`. */
  lemma {:induction false} NoTimeImports(ss: seq<Stmt>)
    ensures forall s :: s in AllStmts(SleepStmts(ss)) ==> !ImportsTime(s)
    decreases ss
  {
    if ss != [] {
      assert SleepStmts(ss) == [SleepStmt(ss[0])] + SleepStmts(ss[1..]);
      NoTimeImports(ss[1..]);
      NoTimeImportsNested(ss[0]);
    }
  }

  lemma {:induction false} NoTimeImportsNested(s: Stmt)
    ensures !ImportsTime(SleepStmt(s))
    ensures forall t :: t in NestedStmts(SleepStmt(s)) ==> !ImportsTime(t)
    decreases s
  {
    var r := SleepStmt(s);
    if HasOneBody(s) {
      NoTimeImports(s.body);
      assert HasOneBody(r) && r.body == SleepStmts(s.body);
    } else if HasElse(s) {
      NoTimeImports(s.body);
      NoTimeImports(s.orelse);
      assert HasElse(r) && r.body == SleepStmts(s.body) && r.orelse == SleepStmts(s.orelse);
    } else if s.Try? {
      NoTimeImports(s.body);
      NoTimeImports(s.orelse);
      NoTimeImports(s.finalbody);
      NoTimeImportsHandlers(s.handlers);
      assert r == Try(SleepStmts(s.body), SleepHandlers(s.handlers), SleepStmts(s.orelse), SleepStmts(s.finalbody));
    } else {
      assert !HasOneBody(r) && !HasElse(r) && !r.Try?;
      if s.Import? {
        ImportRenamed(s);
      } else if s.ImportFrom? {
        ImportRenamed(s);
      }
    }
  }

  lemma {:induction false} NoTimeImportsHandlers(hs: seq<Handler>)
    ensures forall t :: t in HandlerStmts(SleepHandlers(hs)) ==> !ImportsTime(t)
    decreases hs
  {
    if hs != [] {
      NoTimeImports(hs[0].body);
      NoTimeImportsHandlers(hs[1..]);
    }
  }

  /**
    `from time import sleep` followed by a bare `sleep(1)`: the import is redirected to
    `asyncio.sleep`, but the bare call is not a `time.sleep` attribute call, so it is left
    without `await` and the rewritten script creates a coroutine that never runs.
  */
  lemma BareSleepNotAwaited()
    ensures var script := [ImportFrom(Some("time"), [Alias("sleep", None)], 0),
                           ExprStmt(Call(Name("sleep"), [Const(LNum(1))], []))];
      SleepStmts(script) == [ImportFrom(Some("asyncio"), [Alias("sleep", None)], 0),
                             ExprStmt(Call(Name("sleep"), [Const(LNum(1))], []))]
  {
    var script := [ImportFrom(Some("time"), [Alias("sleep", None)], 0),
                   ExprStmt(Call(Name("sleep"), [Const(LNum(1))], []))];
    assert SleepExprs([Const(LNum(1))]) == [Const(LNum(1))];
    assert SleepStmt(script[1]) == script[1];
  }
}
