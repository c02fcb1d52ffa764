/** A source whose cleanup the lowered program skips: a BREAK under three IFs in an epilogue. */
module SkippedCleanup {
  import opened Memory
  import opened Ir
  import opened Semantics
  import opened Lowering
  import opened LoweringProof
  import BreakCoverage
  import opened FlatBlocks
  import FS = FrontendSteps
  import opened FrontendMeaning

  const TEST: seq<Op> := [PushArg(0)]
  const PROBE: Op := Null(1)

  function Under(inner: Source): Source { Choose(TEST, inner, Stop, Stop) }

  /** LOOP START IF (arg) IF (arg) IF (arg) BREAK DONE DONE DONE FINALLY probe END AGAIN */
  function Example(): Source { Repeat(Guard(Under(Under(Under(Jump(false, Stop)))), Do(PROBE, Stop), Stop), Stop) }

  function If(inner: seq<FS.Token>): seq<FS.Token> { [FS.WIf, FS.WOpen, FS.WOp(PushArg(0)), FS.WClose] + inner + [FS.WDone] }

  function ExampleWords(): seq<FS.Token> {
    [FS.WLoop, FS.WStart] + If(If(If([FS.WBreak]))) + [FS.WFinally, FS.WOp(PROBE), FS.WEnd, FS.WAgain]
  }

  lemma UnderWords(inner: Source)
    ensures Words(Under(inner)) == If(Words(inner))
  {
    assert OpWords(TEST) == [FS.WOp(PushArg(0))];
    assert Words(Stop) == [];
  }

  lemma ExampleIsWritten()
    ensures Words(Example()) == ExampleWords()
  {
    var inner := Under(Under(Under(Jump(false, Stop))));
    ShortWords();
    UnderWords(Jump(false, Stop));
    UnderWords(Under(Jump(false, Stop)));
    UnderWords(Under(Under(Jump(false, Stop))));
    hide If;
    GuardWords(inner);
    assert Words(Example()) == [FS.WLoop] + (Words(Guard(inner, Do(PROBE, Stop), Stop)) + ([FS.WAgain] + Words(Stop)));
  }

  lemma ShortWords()
    ensures Words(Stop) == [] && Words(Jump(false, Stop)) == [FS.WBreak] && Words(Do(PROBE, Stop)) == [FS.WOp(PROBE)]
  {
    assert Words(Stop) == [];
  }

  lemma GuardWords(inner: Source)
    ensures Words(Guard(inner, Do(PROBE, Stop), Stop)) == [FS.WStart] + Words(inner) + [FS.WFinally, FS.WOp(PROBE), FS.WEnd]
  {
    ShortWords();
  }

  // ----- its tree -----

  /** A construct with nothing before and behind it. */
  function Alone(x: Tree): Tree { Three([], x, Basic([])) }

  function Tested(t: Tree): Tree { Alone(Branch(TEST, t, Basic([]))) }

  function Inside(): Tree { Tested(Tested(Tested(Alone(Break(8))))) }

  function ExampleTree(): Tree { Alone(Loop(Many(Link(Alone(Defer(Inside(), Basic([PROBE]))), End)))) }

  lemma ExampleMeans()
    ensures TreeOf(Example(), [], 0, NoLoop) == ExampleTree()
  {
    var loop := InLoop(2, 3);
    assert TreeOf(Stop, [], 9, loop) == Basic([]);
    assert TreeOf(Jump(false, Stop), [], 8, loop) == Alone(Break(8));
    TestedMeans(Jump(false, Stop), 7, loop);
    TestedMeans(Under(Jump(false, Stop)), 6, loop);
    TestedMeans(Under(Under(Jump(false, Stop))), 5, loop);
    assert TreeOf(Do(PROBE, Stop), [], 5, NoLoop) == TreeOf(Stop, [PROBE], 5, NoLoop) == Basic([PROBE]);
    var guard := Guard(Under(Under(Under(Jump(false, Stop)))), Do(PROBE, Stop), Stop);
    assert TreeOf(Stop, [], 4, loop) == Basic([]);
    assert TreeOf(guard, [], 3, loop) == Alone(Defer(Inside(), Basic([PROBE])));
    assert TreeOf(Stop, [], 1, NoLoop) == Basic([]);
  }

  lemma TestedMeans(s: Source, depth: nat, loop: Targets)
    ensures TreeOf(Under(s), [], depth, loop) == Tested(TreeOf(s, [], depth + 1, loop))
  {
    assert TreeOf(Stop, [], depth + 1, loop) == Basic([]);
  }

  // ----- its lowering -----

  function Nothings(n: nat): seq<Epi> { seq(n, i => Nothing) }

  lemma {:induction false} NothingInlined(n: nat, epis: seq<Epi>)
    ensures Inlined(Nothings(n) + epis, n) == []
  {
    if n > 0 {
      assert (Nothings(n) + epis)[1..] == Nothings(n - 1) + epis;
      NothingInlined(n - 1, epis);
    }
  }

  lemma AloneLowers(x: Tree, n: nat, epis: seq<Epi>)
    ensures Lower(Alone(x), Nothings(n) + epis) == Alone(Lower(x, Nothings(n + 1) + epis))
  {
    var below := [Nothing] + (Nothings(n) + epis);
    assert below == Nothings(n + 1) + epis;
    assert LowerChain(End, below) == End && Lower(Basic([]), below) == Basic([]);
    assert LowerChain(Link(Basic([]), End), below) == Link(Basic([]), End);
    assert LowerChain(Link(x, Link(Basic([]), End)), below) == Link(Lower(x, below), Link(Basic([]), End));
  }

  lemma TestedLowers(t: Tree, n: nat, epis: seq<Epi>)
    ensures Lower(Tested(t), Nothings(n) + epis) == Tested(Lower(t, Nothings(n + 2) + epis))
  {
    AloneLowers(Branch(TEST, t, Basic([])), n, epis);
    var below := [Nothing] + (Nothings(n + 1) + epis);
    assert below == Nothings(n + 2) + epis;
    assert Lower(Basic([]), below) == Basic([]);
  }

  /** The entry of the epilogue lies one too deep for the break: no cleanup is inlined. */
  lemma InsideLowers(epis: seq<Epi>)
    ensures Lower(Inside(), epis) == Inside()
  {
    hide Lower;
    assert Nothings(0) + epis == epis;
    TestedLowers(Tested(Tested(Alone(Break(8)))), 0, epis);
    TestedLowers(Tested(Alone(Break(8))), 2, epis);
    TestedLowers(Alone(Break(8)), 4, epis);
    AloneLowers(Break(8), 6, epis);
    BreakStays(epis);
  }

  lemma BreakStays(epis: seq<Epi>)
    ensures Lower(Break(8), Nothings(7) + epis) == Break(8)
  {
    assert [Nothing] + (Nothings(7) + epis) == Nothings(8) + epis;
    NothingInlined(8, epis);
  }

  function LoweredExample(): Tree {
    Alone(Loop(Many(Link(Alone(Many(Link(CrashPad(Inside(), Basic([PROBE])), Link(Basic([PROBE]), End)))), End))))
  }

  lemma ExampleLowers()
    ensures Lower(ExampleTree(), []) == LoweredExample()
  {
    hide Inside;
    var defer := Defer(Inside(), Basic([PROBE]));
    assert Nothings(0) + [] == [];
    AloneLowers(Loop(Many(Link(Alone(defer), End))), 0, []);
    var b1 := Nothings(1) + [];
    var b3 := [Nothing] + ([Nothing] + b1);
    assert b3 == Nothings(3) + [];
    AloneLowers(defer, 3, []);
    InsideLowers([Pending(Basic([PROBE]))] + (Nothings(4) + []));
    DeferLowers1(Nothings(4) + []);
    ManyLowers(Alone(defer), [Nothing] + b1);
  }

  lemma DeferLowers1(epis: seq<Epi>)
    requires Lower(Inside(), [Pending(Basic([PROBE]))] + epis) == Inside()
    ensures Lower(Defer(Inside(), Basic([PROBE])), epis) == Many(Link(CrashPad(Inside(), Basic([PROBE])), Link(Basic([PROBE]), End)))
  {
    hide Inside;
    assert Lower(Basic([PROBE]), [Nothing] + epis) == Basic([PROBE]);
  }

  lemma ManyLowers(t: Tree, epis: seq<Epi>)
    ensures Lower(Many(Link(t, End)), epis) == Many(Link(Lower(t, [Nothing] + epis), End))
  {
    assert LowerChain(End, [Nothing] + epis) == End;
  }

  // ----- both run -----

  /** The argument is an int that is not zero. */
  predicate ArgSet(a: Act, d: Data) {
    a.argBase < |d.params| && LoadNum(d.mem, d.params[a.argBase]).Some? && LoadNum(d.mem, d.params[a.argBase]).value != 0
  }

  predicate TakesInt(p: Program, a: Act) {
    a.fn < |p.funcs| && |p.funcs[a.fn].vars| > 0 && p.funcs[a.fn].vars[0] == INT && |p.funcs[a.fn].types| > 0
  }

  lemma AloneRuns(fuel: nat, p: Program, a: Act, env: Env, x: Tree, d: Data)
    requires a.fn < |p.funcs|
    ensures Exec(fuel, p, a, env, Alone(x), d) == Leave(Exec(fuel, p, a, env, x, d), |d.mem.storage|)
  {
    var r := Exec(fuel, p, a, env, x, d);
    EmptyRuns(fuel, p, a, env, d);
    EmptyRuns(fuel, p, a, env, r.d);
    var last := Link(Basic([]), End);
    if r.out.Normal? {
      assert ExecChain(fuel, p, a, env, End, r.d) == Res(Normal, r.d);
      assert ExecChain(fuel, p, a, env, last, r.d) == Res(Normal, r.d);
    }
    assert ExecChain(fuel, p, a, env, Link(x, last), d) == r;
    assert ExecChain(fuel, p, a, env, Link(Basic([]), Link(x, last)), d) == r;
  }

  lemma EmptyRuns(fuel: nat, p: Program, a: Act, env: Env, d: Data)
    requires a.fn < |p.funcs|
    ensures Exec(fuel, p, a, env, Basic([]), d) == Res(Normal, d)
  {
    assert RunOps(fuel, p, a, env, [], [], d) == OpRes(Normal, d, []);
    assert CutParams(d, |d.params|) == d by { assert d.params[..|d.params|] == d.params; }
  }

  lemma TestRuns(fuel: nat, p: Program, a: Act, env: Env, d: Data)
    requires TakesInt(p, a) && ArgSet(a, d)
    ensures ExecCond(fuel, p, a, env, TEST, d) == (Res(Normal, d), true)
  {
    var e := Push(d, d.params[a.argBase]);
    assert SimpleOp(p, p.funcs[a.fn], a, env, PushArg(0), [], d) == OpRes(Normal, e, [INT]);
    assert TEST[1..] == [];
    assert RunOps(fuel, p, a, env, TEST[1..], [INT], e) == OpRes(Normal, e, [INT]);
    assert Pop(e, 1) == d by { assert e.params[..|d.params|] == d.params; }
  }

  lemma TestedRuns(fuel: nat, p: Program, a: Act, env: Env, t: Tree, d: Data)
    requires TakesInt(p, a) && ArgSet(a, d)
    ensures Exec(fuel, p, a, env, Tested(t), d) == Leave(Exec(fuel, p, a, env, t, d), |d.mem.storage|)
  {
    hide ExecCond;
    AloneRuns(fuel, p, a, env, Branch(TEST, t, Basic([])), d);
    TestRuns(fuel, p, a, env, d);
  }

  lemma InsideRuns(fuel: nat, p: Program, a: Act, env: Env, d: Data)
    requires TakesInt(p, a) && ArgSet(a, d)
    ensures Exec(fuel, p, a, env, Inside(), d) == Res(Leaving(4), d)
  {
    hide Exec;
    BreakRuns(fuel, p, a, env, d);
    AloneRuns(fuel, p, a, env, Break(8), d);
    TestedRuns(fuel, p, a, env, Alone(Break(8)), d);
    TestedRuns(fuel, p, a, env, Tested(Alone(Break(8))), d);
    TestedRuns(fuel, p, a, env, Tested(Tested(Alone(Break(8)))), d);
  }

  lemma BreakRuns(fuel: nat, p: Program, a: Act, env: Env, d: Data)
    requires a.fn < |p.funcs|
    ensures Exec(fuel, p, a, env, Break(8), d) == Res(Leaving(8), d)
  {
  }

  /** What the loop around comes to, when its body leaves both. */
  lemma AroundRuns(fuel: nat, p: Program, a: Act, env: Env, x: Tree, d: Data, e: Data)
    requires a.fn < |p.funcs| && fuel > 0 && Exec(fuel, p, a, env, x, d) == Res(Leaving(3), e) && |e.mem.storage| == |d.mem.storage|
    ensures Exec(fuel, p, a, env, Alone(Loop(Many(Link(Alone(x), End)))), d) == Res(Normal, e)
  {
    AloneRuns(fuel, p, a, env, x, d);
    assert e.mem.storage[..|e.mem.storage|] == e.mem.storage;
    var g := Alone(x);
    assert Exec(fuel, p, a, env, g, d) == Res(Leaving(2), e);
    assert ExecChain(fuel, p, a, env, Link(g, End), d) == Res(Leaving(2), e);
    assert Exec(fuel, p, a, env, Many(Link(g, End)), d) == Res(Leaving(1), e);
    assert ExecLoop(fuel, fuel, p, a, env, Many(Link(g, End)), d) == Res(Normal, e);
    AloneRuns(fuel, p, a, env, Loop(Many(Link(g, End))), d);
  }

  lemma ProbeRuns(fuel: nat, p: Program, a: Act, env: Env, d: Data)
    requires a.fn < |p.funcs|
    ensures Exec(fuel, p, a, env, Basic([PROBE]), d) == Res(Normal, d.(log := d.log + [1]))
  {
    var e := d.(log := d.log + [1]);
    assert [PROBE][1..] == [];
    assert RunOps(fuel, p, a, env, [PROBE][1..], [], e) == OpRes(Normal, e, []);
    assert RunOps(fuel, p, a, env, [PROBE], [], d) == OpRes(Normal, e, []);
    assert CutParams(e, |d.params|) == e by { assert e.params[..|d.params|] == e.params; }
  }

  /** With defers the cleanup runs; the lowered tree leaves the loop without it. */
  lemma CleanupIsSkipped(fuel: nat, p: Program, q: Program, a: Act, env: Env, d: Data)
    requires fuel > 0 && TakesInt(p, a) && TakesInt(q, a) && ArgSet(a, d)
    ensures Exec(fuel, p, a, env, ExampleTree(), d) == Res(Normal, d.(log := d.log + [1]))
    ensures Exec(fuel, q, a, env, Lower(ExampleTree(), []), d) == Res(Normal, d)
  {
    hide Exec;
    InsideRuns(fuel, p, a, env, d);
    InsideRuns(fuel, q, a, env, d);
    ProbeRuns(fuel, p, a, env, d);
    DeferRun(fuel, p, a, env, Inside(), Basic([PROBE]), d);
    LoweredDeferRun(fuel, q, a, env, Inside(), Basic([PROBE]), d);
    AroundRuns(fuel, p, a, env, Defer(Inside(), Basic([PROBE])), d, d.(log := d.log + [1]));
    ExampleLowers();
    AroundRuns(fuel, q, a, env, Many(Link(CrashPad(Inside(), Basic([PROBE])), Link(Basic([PROBE]), End))), d, d);
  }

  /** A break out of the protected part, to just behind the defer, skips the cleanup as well. */
  lemma BreakToDeferSkips(fuel: nat, p: Program, a: Act, env: Env, d: Data)
    requires a.fn < |p.funcs|
    ensures var t := Defer(Break(1), Basic([PROBE]));
      && Exec(fuel, p, a, env, t, d) == Res(Normal, d.(log := d.log + [1]))
      && Exec(fuel, p, a, env, Lower(t, []), d) == Res(Normal, d)
  {
    var c := Basic([PROBE]);
    ProbeRuns(fuel, p, a, env, d);
    assert Exec(fuel, p, a, env, Break(1), d) == Res(Leaving(1), d);
    DeferRun(fuel, p, a, env, Break(1), c, d);
    BreakCoverage.BreakToDeferSkipsCleanup(c);
    assert Lower(c, [Nothing]) == c;
    LoweredDeferRun(fuel, p, a, env, Break(1), c, d);
    var e := d.(log := d.log + [1]);
    assert Cut(d, |d.mem.storage|) == d by { assert d.mem.storage[..|d.mem.storage|] == d.mem.storage; }
    assert Cut(e, |d.mem.storage|) == e by { assert e.mem.storage[..|d.mem.storage|] == e.mem.storage; }
  }

  /** All of it: the frontend accepts the words, what it builds is lowered without a
      complaint, and the lowered function returns without having run the cleanup. */
  lemma SourceSkipsCleanup(fuel: nat, ntypes: nat, types: seq<Type>, d: Data)
    requires fuel > 0 && |types| > 0 && |d.params| >= 1
    requires ArgSet(Act(0, |d.params| - 1), Grow(d, RETURN_SIZE, Saved))
    ensures FS.InRange(FS.START) && FS.Compiled(FS.START, ExampleWords(), ntypes).Some?
    ensures var t := FS.Compiled(FS.START, ExampleWords(), ntypes).value; Rep(t.blocks, t.ops, 0, ExampleTree())
    ensures var p := Program([Func(Sig([], [INT]), types, [INT], ExampleTree())], [], (id, m, ps) => NativeWild);
      && RunFunc(fuel, p, 0, d).out.Normal? && RunFunc(fuel, p, 0, d).d.log == d.log + [1]
      && RunFunc(fuel, LowerProgram(p), 0, d).out.Normal? && RunFunc(fuel, LowerProgram(p), 0, d).d.log == d.log
  {
    hide Rep, FS.Feed, FS.Compiled, Exec, Lower, RunFunc, LoadNum, TreeOf, Words, Cost, Legal;
    ExampleIsWritten();
    ExampleMeans();
    ExampleLegal();
    SourceMeans(Example(), ntypes);
    var p := Program([Func(Sig([], [INT]), types, [INT], ExampleTree())], [], (id, m, ps) => NativeWild);
    var q, d1 := LowerProgram(p), Grow(d, RETURN_SIZE, Saved);
    assert q.funcs[0].body == Lower(ExampleTree(), []) && q.funcs[0].sig == Sig([], [INT]);
    CleanupIsSkipped(fuel, p, q, Act(0, |d.params| - 1), map[], d1);
    FuncReturns(fuel, p, d, d1.(log := d1.log + [1]));
    FuncReturns(fuel, q, d, d1);
  }

  lemma FuncReturns(fuel: nat, p: Program, d: Data, e: Data)
    requires |p.funcs| > 0 && p.funcs[0].sig == Sig([], [INT]) && |d.params| >= 1 && |e.params| >= 1
    requires Exec(fuel, p, Act(0, |d.params| - 1), map[], p.funcs[0].body, Grow(d, RETURN_SIZE, Saved)) == Res(Normal, e)
    ensures RunFunc(fuel, p, 0, d).out.Normal? && RunFunc(fuel, p, 0, d).d.log == e.log
  {
    hide Exec;
  }

  lemma ExampleLegal()
    ensures Legal(Example(), false) && 1 + Cost(Example()) < INVALID
  {
    assert Cost(Jump(false, Stop)) == 5;
    assert Cost(Under(Jump(false, Stop))) == 12;
    assert Cost(Under(Under(Jump(false, Stop)))) == 19;
    assert Cost(Under(Under(Under(Jump(false, Stop))))) == 26;
    assert Cost(Do(PROBE, Stop)) == 0;
    assert Legal(Under(Under(Under(Jump(false, Stop)))), true) by {
      assert Legal(Under(Jump(false, Stop)), true);
      assert Legal(Under(Under(Jump(false, Stop))), true);
    }
  }
}
