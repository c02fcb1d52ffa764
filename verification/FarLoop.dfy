/** A function that compiles although its loop stands too far for a jump back to it. */
module FarLoop {
  import opened Memory
  import opened Ir
  import opened Bytecode
  import opened Codegen
  import opened CodegenFacts
  import opened JumpTargets

  const DROPS: nat := 13108

  function Drops(n: nat): seq<Op> { seq(n, i => Drop(0)) }

  function DropCode(n: nat): seq<Instr> { seq(n, i => IDropN(0)) }

  /** 65540 bytes of code, and then an empty loop. */
  function FarBody(): Tree { Many(Link(Basic(Drops(DROPS)), Link(Loop(Basic([])), End))) }

  function FarCtx(): Ctx {
    var f := Func(Sig([], []), [], [], FarBody());
    Ctx(Program([f], [], (id, m, ps) => NativeWild), f, [])
  }

  function FarCode(): seq<Instr> { DropCode(DROPS) + [IJump(4)] + [IRet] }

  lemma {:induction false} DropsCompile(c: Ctx, vars: seq<Layout>, frame: nat, n: nat)
    ensures GenOps(c, vars, frame, Drops(n), []) == OpEmit(DropCode(n), [])
    decreases n
  {
    if n > 0 {
      assert Drops(n)[0] == Drop(0) && Drops(n)[1..] == Drops(n - 1);
      DropsCompile(c, vars, frame, n - 1);
      assert GenOp(c, vars, frame, Drop(0), []) == OpEmit([IDropN(0)], []);
      assert [IDropN(0)] + DropCode(n - 1) == DropCode(n);
    } else {
      assert Drops(0) == [] && DropCode(0) == [];
    }
  }

  lemma {:induction false} DropLength(n: nat)
    ensures CodeLength(DropCode(n)) == 5 * n
    decreases n
  {
    if n > 0 {
      assert DropCode(n) == [IDropN(0)] + DropCode(n - 1);
      LengthConcat([IDropN(0)], DropCode(n - 1));
      OneLength(IDropN(0));
      DropLength(n - 1);
    } else {
      assert DropCode(0) == [];
    }
  }

  lemma LoopCompiles(c: Ctx, st: CState, pos: nat)
    requires pos % TWO16 == 4
    ensures GenTree(c, st, Loop(Basic([])), pos) == Gen.Emit([IJump(4)], false, st.vars)
    ensures pos > MAX_TARGET ==> 4 in FarLoops(c, st, Loop(Basic([])), pos)
  {
    hide CodeLength;
    var b := GenTree(c, Inside(st), Basic([]), pos);
    assert b == Gen.Emit([], true, st.vars);
    assert LoopCode([], true, pos) == [IJump(4)];
    assert Finish([IJump(4)], |st.scopes|, pos + CodeLength([IJump(4)])) == [IJump(4)];
  }

  lemma FarCompiles()
    ensures GenFunc(FarCtx()) == Some(FarCode()) && 4 in FarLoops(FarCtx(), Initial(FarCtx().f), FarBody(), 0)
  {
    hide CodeLength, GenOps, Drops, DropCode;
    var c := FarCtx();
    var st := Initial(c.f);
    var inner, drops := Inside(st), DropCode(DROPS);
    DropsCompile(c, inner.vars, inner.frame, DROPS);
    DropLength(DROPS);
    var first := GenTree(c, inner, Basic(Drops(DROPS)), 0);
    assert first == Gen.Emit(drops, true, inner.vars) by { assert drops + [] == drops; }
    LoopCompiles(c, inner, 65540);
    var loop := Link(Loop(Basic([])), End);
    assert GenChain(c, inner, loop, 65540) == Gen.Emit([IJump(4)], false, inner.vars);
    var chain := GenChain(c, inner, Link(Basic(Drops(DROPS)), loop), 0);
    assert chain == Gen.Emit(drops + [IJump(4)], false, inner.vars);
    OnlyDrops(DROPS);
    NothingFinished(drops + [IJump(4)], 0, CodeLength(drops + [IJump(4)]));
    assert GenTree(c, st, FarBody(), 0) == Gen.Emit(drops + [IJump(4)], false, inner.vars);
    assert (drops + [IJump(4)]) + [] + [IRet] == FarCode();
    assert 4 in FarInChain(c, inner, loop, 65540);
    assert 4 in FarInChain(c, inner, Link(Basic(Drops(DROPS)), loop), 0);
  }

  lemma OnlyDrops(n: nat)
    ensures forall i :: i in DropCode(n) ==> i == IDropN(0)
  {
  }

  lemma NothingFinished(code: seq<Instr>, scope: nat, end: nat)
    requires IExit(scope) !in code
    ensures Finish(code, scope, end) == code && !HasExit(code, scope)
  {
  }

  lemma DropBoundaries(t: nat)
    requires Boundary(FarCode(), 0, t) && t < 5 * DROPS
    ensures t % 5 == 0
  {
    hide CodeLength;
    var code := FarCode();
    var k :| 0 <= k <= |code| && t == 0 + CodeLength(code[..k]);
    if k <= DROPS {
      assert code[..k] == DropCode(k);
      DropLength(k);
    } else {
      assert code[..k] == DropCode(DROPS) + code[DROPS..k];
      LengthConcat(DropCode(DROPS), code[DROPS..k]);
      DropLength(DROPS);
    }
  }

  /** The compiler accepts it, and its loop jumps into the middle of the first instruction. */
  lemma FarLoopGoesAstray()
    ensures GenFunc(FarCtx()) == Some(FarCode()) && FarCode()[DROPS] == IJump(4)
    ensures !Boundary(FarCode(), 0, 4) && !LeadsInto(FarCode(), FarCode(), 0, {})
  {
    hide CodeLength, Boundary, LeadsInto, FarLoops, GenTree;
    FarCompiles();
    if Boundary(FarCode(), 0, 4) { DropBoundaries(4); }
    FuncLeads(FarCtx());
  }
}
