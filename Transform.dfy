/**
  `transform_code`: the two read-only walks followed by the three rewrites, in the order
  async, sleep, interrupt.  Parsing the source text and printing the result back are not
  part of this model; the function works on the syntax tree.
*/
module Transform {
  import opened Common
  import opened PyAst
  import opened Collectors
  import opened AsyncPass
  import opened SleepPass
  import opened InterruptPass

  /** The three rewrites in the order `transform_code` applies them, for the instance `drone`. */
  function Pipeline(m: Module, custom: set<string>): Module
  {
    InstrumentModule(SleepModule(AsyncModule(m, custom, "drone")))
  }

  /**
    `transform_code` on a parsed script: the collector gathers the `def` names, the finder
    rejects a `Drone()` bound to anything but `drone`, and only then is the tree rewritten.
    The instance name the finder records is not used: the rewrite always targets `drone`.
  */
  method TransformCode(m: Module) returns (r: Result<Module, FinderError>)
    ensures r.Err? <==> FirstError(AllStmts(m.body)).Some?
    ensures r.Err? ==> r.error == FirstError(AllStmts(m.body)).value
    ensures r.Ok? ==> r.value == Pipeline(m, DefinedNames(m.body))
  {
    var collector := new FunctionCollector();
    collector.VisitStmts(m.body);
    var finder := new DroneInstanceFinder();
    var err := finder.VisitStmts(m.body);
    if err.Some? {
      return Err(err.value);
    }
    assert collector.customFunctions == DefinedNames(m.body);
    return Ok(Pipeline(m, collector.customFunctions));
  }

  // ----- properties of the whole rewrite ---------------------------------------------------

  lemma {:induction false} InstrumentAppend(a: seq<Stmt>, b: seq<Stmt>)
    ensures InstrumentStmts(a + b) == InstrumentStmts(a) + InstrumentStmts(b)
    decreases a
  {
    if a == [] {
      assert a + b == b;
    } else {
      assert (a + b)[1..] == a[1..] + b;
      InstrumentAppend(a[1..], b);
    }
  }

  /** Every import, renamed by the sleep pass, is followed by one `checkInterrupt()`. */
  lemma {:induction false} ImportsInstrumented(imps: seq<Stmt>)
    requires forall s :: s in imps ==> IsImport(s)
    ensures InstrumentStmts(SleepStmts(imps)) == FollowedByChecks(SleepStmts(imps))
    decreases imps
  {
    if imps != [] {
      assert imps[0] in imps;
      assert forall s :: s in imps[1..] ==> s in imps;
      ImportsInstrumented(imps[1..]);
      ImportRenamed(imps[0]);
      var head := SleepStmt(imps[0]);
      assert IsSimple(head);
      var tail := SleepStmts(imps[1..]);
      assert SleepStmts(imps) == [head] + tail;
      assert ([head] + tail)[1..] == tail;
    }
  }

  /** A body that starts with `drone.reset_classifier()` starts with it and a check afterwards. */
  lemma WrapperBodyStart(body: seq<Stmt>)
    requires |body| > 0 && body[0] == ResetClassifier("drone")
    ensures var r := InstrumentStmts(SleepStmts(body));
      |r| >= 2 && r[0] == ResetClassifier("drone") && r[1] == CheckCall
  {
    var reset := ResetClassifier("drone");
    assert SleepExpr(Attr(Name("drone"), "reset_classifier")) == Attr(Name("drone"), "reset_classifier");
    assert SleepKeywords([]) == [];
    assert SleepStmt(reset) == reset;
    var sb := SleepStmts(body);
    assert sb == [reset] + sb[1..];
    assert InstrumentStmts(sb) == [reset, CheckCall] + InstrumentStmts(sb[1..]);
  }

  /**
    The rewritten script: each top-level import, with `time` renamed to `asyncio`, followed
    by `checkInterrupt()`, and then the single `async def _wrapper()` whose body starts with
    `drone.reset_classifier()` and a first `checkInterrupt()`. `ImportRenamed` says what
    the sleep pass does to each import.
  */
  lemma PipelineShape(m: Module, custom: set<string>)
    ensures var r := Pipeline(m, custom).body;
      var imps := Imports(m.body);
      && |r| == 2 * |imps| + 1
      && r[..2 * |imps|] == FollowedByChecks(SleepStmts(imps))
      && r[2 * |imps|].AsyncFunctionDef? && r[2 * |imps|].name == "_wrapper"
      && |r[2 * |imps|].body| >= 2
      && r[2 * |imps|].body[0] == ResetClassifier("drone")
      && r[2 * |imps|].body[1] == CheckCall
  {
    var imps := Imports(m.body);
    var a := AsyncModule(m, custom, "drone").body;
    ModuleShape(m, custom);
    var w := a[|a| - 1];
    assert a == imps + [w];
    assert forall s :: s in imps ==> IsImport(s) by {
      forall s | s in imps ensures IsImport(s) {
        var i :| 0 <= i < |imps| && imps[i] == s;
        assert a[i] == s;
      }
    }
    RewrittenShape(imps, w);
  }

  /** The wrapper after the sleep and interrupt passes: its body starts with the reset and a check. */
  lemma WrapperRewritten(w: Stmt)
    requires w.AsyncFunctionDef? && w.name == "_wrapper"
    requires |w.body| > 0 && w.body[0] == ResetClassifier("drone")
    ensures var iw := Instrumented(SleepStmt(w));
      && iw.AsyncFunctionDef? && iw.name == "_wrapper"
      && |iw.body| >= 2 && iw.body[0] == ResetClassifier("drone") && iw.body[1] == CheckCall
  {
    WrapperBodyStart(w.body);
    var sw := SleepStmt(w);
    assert sw.AsyncFunctionDef? && sw.name == "_wrapper" && sw.body == SleepStmts(w.body);
  }

  /** Imports followed by one compound statement: each import gets its check, the last is instrumented in place. */
  lemma ImportsThenCompound(imps: seq<Stmt>, w: Stmt)
    requires forall s :: s in imps ==> IsImport(s)
    requires w.AsyncFunctionDef?
    ensures InstrumentStmts(SleepStmts(imps + [w])) == FollowedByChecks(SleepStmts(imps)) + [Instrumented(SleepStmt(w))]
  {
    ImportsInstrumented(imps);
    var sw := SleepStmt(w);
    assert sw.AsyncFunctionDef?;
    assert SleepStmts(imps + [w]) == SleepStmts(imps) + [sw];
    InstrumentAppend(SleepStmts(imps), [sw]);
    assert InstrumentStmts([sw]) == [Instrumented(sw)];
  }

  /** The sleep and interrupt passes on a list of imports followed by the wrapper. */
  lemma RewrittenShape(imps: seq<Stmt>, w: Stmt)
    requires forall s :: s in imps ==> IsImport(s)
    requires w.AsyncFunctionDef? && w.name == "_wrapper"
    requires |w.body| > 0 && w.body[0] == ResetClassifier("drone")
    ensures var r := InstrumentStmts(SleepStmts(imps + [w]));
      && |r| == 2 * |imps| + 1
      && r[..2 * |imps|] == FollowedByChecks(SleepStmts(imps))
      && r[2 * |imps|].AsyncFunctionDef? && r[2 * |imps|].name == "_wrapper"
      && |r[2 * |imps|].body| >= 2
      && r[2 * |imps|].body[0] == ResetClassifier("drone")
      && r[2 * |imps|].body[1] == CheckCall
  {
    ImportsThenCompound(imps, w);
    WrapperRewritten(w);
    var fs := FollowedByChecks(SleepStmts(imps));
    var iw := Instrumented(SleepStmt(w));
    var r := fs + [iw];
    assert r[..2 * |imps|] == fs && r[2 * |imps|] == iw;
  }

  /**
    `time.sleep(d)` written in the script ends up as `await asyncio.sleep(d')`, where `d'` is
    the argument after the async rewrite, whatever the set of defined functions.
  */
  lemma TimeSleepBecomesAwaited(args: seq<Expr>, custom: set<string>)
    ensures SleepExpr(AsyncExpr(Call(Attr(Name("time"), "sleep"), args, []), custom, "drone"))
         == Await(Call(Attr(Name("asyncio"), "sleep"), AsyncExprs(args, custom, "drone"), []))
  {
    var c := Call(Attr(Name("time"), "sleep"), args, []);
    assert AsyncExpr(Attr(Name("time"), "sleep"), custom, "drone") == Attr(Name("time"), "sleep");
    assert AsyncKeywords([], custom, "drone") == [];
    assert AsyncExpr(c, custom, "drone") == Call(Attr(Name("time"), "sleep"), AsyncExprs(args, custom, "drone"), []);
  }

  /** A script that names its drone anything but `drone` is rejected before any rewrite. */
  lemma MisnamedDroneRejected(x: string, args: seq<Expr>, rest: seq<Stmt>)
    requires x != "drone"
    ensures FirstError(AllStmts([Assign([Name(x)], Call(Name("Drone"), args, []))] + rest))
         == Some(MisnamedInstance(x))
  {
    var s := Assign([Name(x)], Call(Name("Drone"), args, []));
    assert NestedStmts(s) == [];
    AllStmtsAppend([s], rest);
    assert AllStmts([s]) == [s];
    FirstErrorAppend([s], AllStmts(rest));
    assert FirstError([s]) == CheckAssign(s);
  }
}
