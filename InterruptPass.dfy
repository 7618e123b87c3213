/**
  CheckInterruptTransformer: every simple statement the pass reaches is followed by a
  `checkInterrupt()` call, so that a stop request is noticed between any two steps of
  the script.  The pass descends into the bodies of `def`, `async def`, `class`, `if`,
  `for`, `while` and `try` (including its handlers); every other statement, `with`
  included, counts as simple and is not entered.
*/
module InterruptPass {
  import opened Common
  import opened PyAst

  /** The statements the pass instruments instead of entering. */
  predicate IsSimple(s: Stmt)
  {
    !(s.FunctionDef? || s.AsyncFunctionDef? || s.ClassDef? || s.If? || s.For? || s.While? || s.Try?)
  }

  /** `checkInterrupt()` as a statement. */
  const CheckCall: Stmt := ExprStmt(Call(Name("checkInterrupt"), [], []))

  /** A simple statement with its check after it; a compound one with its bodies instrumented. */
  function InstrumentStmt(s: Stmt): (r: seq<Stmt>)
    ensures |r| == if IsSimple(s) then 2 else 1
    decreases s, 1
  {
    if IsSimple(s) then [s, CheckCall] else [Instrumented(s)]
  }

  /** The compound statement `s` with each of its bodies instrumented; a simple one as it is. */
  function Instrumented(s: Stmt): (r: Stmt)
    ensures IsSimple(r) == IsSimple(s)
    decreases s, 0
  {
    match s
    case FunctionDef(n, a, body, d, r) => FunctionDef(n, a, InstrumentStmts(body), d, r)
    case AsyncFunctionDef(n, a, body, d, r) => AsyncFunctionDef(n, a, InstrumentStmts(body), d, r)
    case ClassDef(n, bases, body, d) => ClassDef(n, bases, InstrumentStmts(body), d)
    case If(t, body, orelse) => If(t, InstrumentStmts(body), InstrumentStmts(orelse))
    case For(t, it, body, orelse) => For(t, it, InstrumentStmts(body), InstrumentStmts(orelse))
    case While(t, body, orelse) => While(t, InstrumentStmts(body), InstrumentStmts(orelse))
    case Try(body, hs, orelse, fin) =>
      Try(InstrumentStmts(body), InstrumentHandlers(hs), InstrumentStmts(orelse), InstrumentStmts(fin))
    case _ => s
  }

  function InstrumentStmts(ss: seq<Stmt>): seq<Stmt>
  {
    if ss == [] then [] else InstrumentStmt(ss[0]) + InstrumentStmts(ss[1..])
  }

  function InstrumentHandlers(hs: seq<Handler>): (r: seq<Handler>)
    ensures |r| == |hs|
  {
    if hs == [] then [] else [Handler(hs[0].typ, hs[0].name, InstrumentStmts(hs[0].body))] + InstrumentHandlers(hs[1..])
  }

  /** The pass applied to a module: its top-level statements are instrumented like any body. */
  function InstrumentModule(m: Module): Module
  {
    Module(InstrumentStmts(m.body))
  }

  /** Number of simple statements among `ss` (not counting nested ones). */
  function CountSimple(ss: seq<Stmt>): (n: nat)
    ensures n <= |ss|
  {
    if ss == [] then 0 else (if IsSimple(ss[0]) then 1 else 0) + CountSimple(ss[1..])
  }

  /** `ss` with a `checkInterrupt()` after each statement. */
  function FollowedByChecks(ss: seq<Stmt>): (r: seq<Stmt>)
    ensures |r| == 2 * |ss|
  {
    if ss == [] then [] else [ss[0], CheckCall] + FollowedByChecks(ss[1..])
  }

  // ----- the inverse: dropping the statement after every simple statement ----------------

  /**
    Reads an instrumented body back: after every simple statement one statement is dropped,
    and compound statements are read back recursively.
  */
  function StripStmts(r: seq<Stmt>): seq<Stmt>
  {
    if r == [] then []
    else if IsSimple(r[0]) then [r[0]] + (if |r| >= 2 then StripStmts(r[2..]) else [])
    else [Stripped(r[0])] + StripStmts(r[1..])
  }

  function Stripped(s: Stmt): Stmt
  {
    match s
    case FunctionDef(n, a, body, d, r) => FunctionDef(n, a, StripStmts(body), d, r)
    case AsyncFunctionDef(n, a, body, d, r) => AsyncFunctionDef(n, a, StripStmts(body), d, r)
    case ClassDef(n, bases, body, d) => ClassDef(n, bases, StripStmts(body), d)
    case If(t, body, orelse) => If(t, StripStmts(body), StripStmts(orelse))
    case For(t, it, body, orelse) => For(t, it, StripStmts(body), StripStmts(orelse))
    case While(t, body, orelse) => While(t, StripStmts(body), StripStmts(orelse))
    case Try(body, hs, orelse, fin) => Try(StripStmts(body), StripHandlers(hs), StripStmts(orelse), StripStmts(fin))
    case _ => s
  }

  function StripHandlers(hs: seq<Handler>): seq<Handler>
  {
    if hs == [] then [] else [Handler(hs[0].typ, hs[0].name, StripStmts(hs[0].body))] + StripHandlers(hs[1..])
  }

  // ----- properties ----------------------------------------------------------------------

  /** The pass only inserts checks: reading the result back gives the original body exactly. */
  lemma {:induction false} StripInstrument(ss: seq<Stmt>)
    ensures StripStmts(InstrumentStmts(ss)) == ss
    decreases ss
  {
    if ss != [] {
      var rest := InstrumentStmts(ss[1..]);
      StripInstrument(ss[1..]);
      if IsSimple(ss[0]) {
        var r := [ss[0], CheckCall] + rest;
        assert InstrumentStmts(ss) == r;
        assert r[2..] == rest;
      } else {
        var r := [Instrumented(ss[0])] + rest;
        assert InstrumentStmts(ss) == r;
        assert r[1..] == rest;
        StrippedInstrumented(ss[0]);
      }
      assert ss == [ss[0]] + ss[1..];
    }
  }

  lemma {:induction false} StrippedInstrumented(s: Stmt)
    ensures Stripped(Instrumented(s)) == s
    decreases s
  {
    match s
    case FunctionDef(n, a, body, d, r) => StripInstrument(body);
    case AsyncFunctionDef(n, a, body, d, r) => StripInstrument(body);
    case ClassDef(n, bases, body, d) => StripInstrument(body);
    case If(t, body, orelse) => StripInstrument(body); StripInstrument(orelse);
    case For(t, it, body, orelse) => StripInstrument(body); StripInstrument(orelse);
    case While(t, body, orelse) => StripInstrument(body); StripInstrument(orelse);
    case Try(body, hs, orelse, fin) =>
      StripInstrument(body); StripInstrument(orelse); StripInstrument(fin); StripInstrumentHandlers(hs);
    case _ =>
  }

  lemma {:induction false} StripInstrumentHandlers(hs: seq<Handler>)
    ensures StripHandlers(InstrumentHandlers(hs)) == hs
    decreases hs
  {
    if hs != [] {
      StripInstrument(hs[0].body);
      StripInstrumentHandlers(hs[1..]);
    }
  }

  /** One check is added per simple statement of the body. */
  lemma {:induction false} InstrumentLength(ss: seq<Stmt>)
    ensures |InstrumentStmts(ss)| == |ss| + CountSimple(ss)
    decreases ss
  {
    if ss != [] {
      InstrumentLength(ss[1..]);
    }
  }

  /**
    Where each statement lands: the `i`-th statement of the body moves to position
    `i + CountSimple(ss[..i])`; a simple one is followed directly by `checkInterrupt()`,
    a compound one keeps its place with its own bodies instrumented.
  */
  lemma {:induction false} InstrumentPositions(ss: seq<Stmt>, i: int)
    requires 0 <= i < |ss|
    ensures var r := InstrumentStmts(ss);
      var j := i + CountSimple(ss[..i]);
      && j < |r|
      && (IsSimple(ss[i]) ==> j + 1 < |r| && r[j] == ss[i] && r[j + 1] == CheckCall)
      && (!IsSimple(ss[i]) ==> r[j] == Instrumented(ss[i]))
    decreases ss
  {
    var head := InstrumentStmt(ss[0]);
    var rest := InstrumentStmts(ss[1..]);
    assert InstrumentStmts(ss) == head + rest;
    InstrumentLength(ss[1..]);
    if i == 0 {
      assert ss[..0] == [];
    } else {
      InstrumentPositions(ss[1..], i - 1);
      CountSimplePrefix(ss, i);
      assert i + CountSimple(ss[..i]) == |head| + (i - 1 + CountSimple(ss[1..][..i - 1]));
    }
  }

  /** The simple statements among the first `i` are those among the next `i - 1`, plus the first if simple. */
  lemma CountSimplePrefix(ss: seq<Stmt>, i: int)
    requires 0 < i <= |ss|
    ensures CountSimple(ss[..i]) == |InstrumentStmt(ss[0])| - 1 + CountSimple(ss[1..][..i - 1])
  {
    var p := ss[..i];
    assert p[0] == ss[0] && p[1..] == ss[1..][..i - 1];
  }
}
