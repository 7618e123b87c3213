/**
  The fragment of Python's syntax tree that the sync-to-async rewriter inspects.

  Nodes the rewriter treats uniformly are folded into generic constructors that keep
  their children in field order: `Compound` for every other expression node (subscript,
  operators, displays, comprehensions ...), `Simple` for every other simple statement
  (return, pass, break, augmented assignment, raise ...). `With` stands for the compound
  statements (with, async for, async with) that the interrupt pass does not descend into.
*/
module PyAst {
  import opened Common

  datatype Literal = LStr(str: string) | LNum(num: int) | LBool(flag: bool) | LNone

  datatype Expr =
    | Name(id: string)
    | Attr(value: Expr, attr: string)
    | Call(func: Expr, args: seq<Expr>, keywords: seq<Keyword>)
    | Await(value: Expr)
    | Const(lit: Literal)
    | Compound(kind: string, parts: seq<Expr>)

  /** `arg=value` in a call; `arg` is None for `**value`. */
  datatype Keyword = Keyword(arg: Option<string>, value: Expr)

  datatype Alias = Alias(name: string, asname: Option<string>)

  /** Parameter names and the default-value expressions of a `def`. */
  datatype Arguments = Arguments(params: seq<string>, defaults: seq<Expr>)

  datatype Stmt =
    | Import(names: seq<Alias>)
    | ImportFrom(source: Option<string>, names: seq<Alias>, level: nat)
    | Assign(targets: seq<Expr>, value: Expr)
    | ExprStmt(value: Expr)
    | FunctionDef(name: string, args: Arguments, body: seq<Stmt>, decorators: seq<Expr>, annotation: Option<Expr>)
    | AsyncFunctionDef(name: string, args: Arguments, body: seq<Stmt>, decorators: seq<Expr>, annotation: Option<Expr>)
    | ClassDef(name: string, bases: seq<Expr>, body: seq<Stmt>, decorators: seq<Expr>)
    | If(test: Expr, body: seq<Stmt>, orelse: seq<Stmt>)
    | For(target: Expr, iter: Expr, body: seq<Stmt>, orelse: seq<Stmt>)
    | While(test: Expr, body: seq<Stmt>, orelse: seq<Stmt>)
    | Try(body: seq<Stmt>, handlers: seq<Handler>, orelse: seq<Stmt>, finalbody: seq<Stmt>)
    | With(items: seq<Expr>, body: seq<Stmt>)
    | Simple(kind: string, exprs: seq<Expr>)

  /** `except typ as name: body` */
  datatype Handler = Handler(typ: Option<Expr>, name: Option<string>, body: seq<Stmt>)

  datatype Module = Module(body: seq<Stmt>)

  /** `obj.method(args)` as a call node without keywords. */
  function MethodCall(obj: string, meth: string, args: seq<Expr>): Expr
  {
    Call(Attr(Name(obj), meth), args, [])
  }

  predicate IsImport(s: Stmt)
  {
    s.Import? || s.ImportFrom?
  }

  /**
    Every statement of `ss`, in the order in which Python's `ast.NodeVisitor` reaches
    them: a statement comes before the statements nested in it, bodies in field order.
  */
  function AllStmts(ss: seq<Stmt>): seq<Stmt>
  {
    if ss == [] then [] else [ss[0]] + NestedStmts(ss[0]) + AllStmts(ss[1..])
  }

  /** Statements with a single nested body. */
  predicate HasOneBody(s: Stmt)
  {
    s.FunctionDef? || s.AsyncFunctionDef? || s.ClassDef? || s.With?
  }

  /** Statements with a body and an `else` body. */
  predicate HasElse(s: Stmt)
  {
    s.If? || s.For? || s.While?
  }

  /** The statements nested inside `s`, in visiting order. */
  function NestedStmts(s: Stmt): seq<Stmt>
  {
    if HasOneBody(s) then AllStmts(s.body)
    else if HasElse(s) then AllStmts(s.body) + AllStmts(s.orelse)
    else if s.Try? then
      AllStmts(s.body) + (HandlerStmts(s.handlers) + (AllStmts(s.orelse) + AllStmts(s.finalbody)))
    else []
  }

  function HandlerStmts(hs: seq<Handler>): seq<Stmt>
  {
    if hs == [] then [] else AllStmts(hs[0].body) + HandlerStmts(hs[1..])
  }

  lemma {:induction false} AllStmtsAppend(a: seq<Stmt>, b: seq<Stmt>)
    ensures AllStmts(a + b) == AllStmts(a) + AllStmts(b)
  {
    if a == [] {
      assert a + b == b;
    } else {
      assert (a + b)[1..] == a[1..] + b;
      AllStmtsAppend(a[1..], b);
    }
  }

  /** The walk of the first `i + 1` statements is that of the first `i`, then statement `i` and what it nests. */
  lemma AllStmtsSnoc(ss: seq<Stmt>, i: nat)
    requires i < |ss|
    ensures AllStmts(ss[..i + 1]) == AllStmts(ss[..i]) + ([ss[i]] + NestedStmts(ss[i]))
  {
    assert ss[..i + 1] == ss[..i] + [ss[i]];
    AllStmtsAppend(ss[..i], [ss[i]]);
    assert [ss[i]][1..] == [];
  }

  /** The walk of `ss` is that of its first `k` statements, then that of the rest. */
  lemma AllStmtsSplit(ss: seq<Stmt>, k: nat)
    requires k <= |ss|
    ensures AllStmts(ss) == AllStmts(ss[..k]) + AllStmts(ss[k..])
  {
    SliceJoin(ss, k);
    AllStmtsAppend(ss[..k], ss[k..]);
  }

  lemma SliceJoin<T>(s: seq<T>, k: nat)
    requires k <= |s|
    ensures s[..k] + s[k..] == s
  {
  }
}
