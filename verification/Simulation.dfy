/** The machine, run on the code of a block, does what the block means. */
module Simulation {
  import opened Memory
  import opened Ir
  import opened Bytecode
  import opened Codegen
  import opened CodegenFacts
  import opened OpSimulation
  import opened Stepping
  import opened SimulationSetup
  import S = Semantics
  import M = Machine

  lemma StaysOpen(m: Mem, n: Mem, from: nat)
    requires OpenFrom(m, from) && |n.storage| == |m.storage| && Kept(m, n, |m.storage|)
    ensures OpenFrom(n, from)
  {
  }

  // ----- operations -----

  lemma DataOpRuns(im: M.Image, s: Spot, pos: nat, code: seq<Instr>, before: seq<TypeId>, after: seq<TypeId>, d: S.Data, r: S.OpRes)
    returns (n: nat, e: M.Config)
    requires s.fn < |im.codes| && |before| <= |d.params|
    requires Laid(im.codes[s.fn], pos, Resolve(code, s.ends))
    requires Emulates(code, after, im.native, s.argBase, d, r) && Keeps(before, d, r)
    ensures Goes(im, At(s, pos, d), n, e)
    ensures OpsEnded(s, pos + CodeLength(code), before, after, d, r, e)
  {
    hide M.DataEffect, SameShape, M.IsData;
    var c := At(s, pos, d);
    if |code| == 0 {
      n, e := 0, c;
      GoesNowhere(im, c);
      ShapeKept(d, r.d);
    } else {
      var i := code[0];
      assert code == [i];
      DataIsNoExit(i);
      FetchOne(im.codes[s.fn], pos, i, s.ends);
      DataStep(im, c, i);
      n, e := 1, M.Applied(Past(c, i), M.DataEffect(im.native, i, s.argBase, d.mem, d.params));
      if r.out.Normal? || r.out.Crashed? { ShapeKept(d, r.d); }
    }
  }

  lemma DataIsNoExit(i: Instr)
    requires M.IsData(i)
    ensures !i.IExit?
  {
  }

  lemma ShapeKept(d: S.Data, e: S.Data)
    requires SameShape(d.mem, e.mem)
    ensures |e.mem.storage| == |d.mem.storage| && Kept(d.mem, e.mem, |d.mem.storage|)
  {
  }

  // ----- calls -----

  /** A call has just entered function fn. */
  function Entered(fn: nat, argBase: nat, d: S.Data, rets: seq<M.Return>, pads: seq<M.Pad>): M.Config {
    M.Config(M.Running, fn, 0, argBase, d.mem.(storage := d.mem.storage + M.SavedCells(RETURN_SIZE)), d.params, rets, pads, d.ans)
  }

  /** How the machine stands when a call that was made in d has the result r. */
  predicate FuncEnded(ins: nat, rets: seq<M.Return>, pads: seq<M.Pad>, ret: M.Return, d: S.Data, r: S.Res, c: M.Config)
    requires ins <= |d.params|
  {
    match r.out
    case Normal =>
      && r.d.params == d.params[..|d.params| - ins]
      && |r.d.mem.storage| == |d.mem.storage| && Kept(d.mem, r.d.mem, |d.mem.storage|)
      && (if ret.Bottom? then c.mode == M.Halted(VM_OK) && c.mem == r.d.mem && c.params == r.d.params && c.ans == r.d.ans
          else c == M.Config(M.Running, ret.fn, ret.pc, ret.argBase, r.d.mem, r.d.params, rets, pads, r.d.ans))
    case Crashed => Unwound(rets, pads, d, r.d, c)
    case HardCrashed => c.mode == M.Halted(VM_HARD_CRASH)
    case Fault(x) => c.mode == M.Halted(x)
    case Timeout => !c.mode.Halted?
    case _ => false
  }

  /** The return at the end of a function. */
  lemma ReturnStep(im: M.Image, c: M.Config, d: S.Data, rets: seq<M.Return>, ret: M.Return) returns (e: M.Config)
    requires About(im, c, IRet) && c.rets == rets + [ret]
    requires |c.mem.storage| == |d.mem.storage| + RETURN_SIZE
    requires forall i :: |d.mem.storage| <= i < |c.mem.storage| ==> c.mem.storage[i] == Saved
    ensures Goes(im, c, 1, e)
    ensures e.mem == c.mem.(storage := c.mem.storage[..|d.mem.storage|]) && e.params == c.params && e.ans == c.ans
    ensures if ret.Bottom? then e.mode == M.Halted(VM_OK)
            else e == M.Config(M.Running, ret.fn, ret.pc, ret.argBase, e.mem, e.params, rets, c.pads, e.ans)
  {
    var p := Past(c, IRet);
    e := M.DoReturn(p);
    ControlStep(im, c, IRet);
    assert p.mem.storage[|p.mem.storage| - RETURN_SIZE..] == M.SavedCells(RETURN_SIZE);
    assert p.rets[..|p.rets| - 1] == rets;
  }

  /** The code behind the body of a function: the inputs are dropped, and the call returns. */
  function Epilogue(ins: nat): seq<Instr> {
    (if ins > 0 then [IDropN(ins)] else []) + [IRet]
  }

  lemma EpilogueRuns(im: M.Image, c: M.Config, ins: nat, d: S.Data, rets: seq<M.Return>, ret: M.Return)
    returns (n: nat, e: M.Config)
    requires c.mode.Running? && c.fn < |im.codes| && Laid(im.codes[c.fn], c.pc, Epilogue(ins))
    requires c.rets == rets + [ret] && ins <= |c.params|
    requires |c.mem.storage| == |d.mem.storage| + RETURN_SIZE
    requires forall i :: |d.mem.storage| <= i < |c.mem.storage| ==> c.mem.storage[i] == Saved
    ensures Goes(im, c, n, e)
    ensures e.mem == c.mem.(storage := c.mem.storage[..|d.mem.storage|]) && e.params == c.params[..|c.params| - ins] && e.ans == c.ans
    ensures if ret.Bottom? then e.mode == M.Halted(VM_OK)
            else e == M.Config(M.Running, ret.fn, ret.pc, ret.argBase, e.mem, e.params, rets, c.pads, e.ans)
  {
    if ins > 0 {
      LaidFirst(im.codes[c.fn], c.pc, IDropN(ins), [IRet]);
      LaidOne(im.codes[c.fn], c.pc + Length(IDropN(ins)), IRet);
      DropStep(im, c, ins);
      var c1 := Past(c, IDropN(ins)).(params := c.params[..|c.params| - ins]);
      e := ReturnStep(im, c1, d, rets, ret);
      n := 2;
      GoesOn(im, c, 1, c1, 1, e);
    } else {
      assert Epilogue(0) == [IRet];
      LaidOne(im.codes[c.fn], c.pc, IRet);
      assert c.params[..|c.params| - 0] == c.params;
      e := ReturnStep(im, c, d, rets, ret);
      n := 1;
    }
  }

  lemma EpilogueFits(ins: nat)
    requires ins < TWO32
    ensures AllFit(Epilogue(ins))
  {
  }

  /** The code of a function that compiles, and where its parts lie. */
  lemma FuncLaid(p: Program, im: M.Image, fn: nat, g: Gen)
    requires FuncBuilt(p, im, fn) && GenFunc(FuncCtx(p, fn)).Some?
    requires g == GenTree(FuncCtx(p, fn), Initial(p.funcs[fn]), p.funcs[fn].body, 0)
    ensures g.Emit? && CodeLength(g.code) <= MAX_TARGET
    ensures Laid(im.codes[fn], 0, Resolve(g.code, []))
    ensures Laid(im.codes[fn], CodeLength(g.code), Epilogue(|p.funcs[fn].sig.ins|))
  {
    hide GenTree, Compiled, EncodeAll, CodeLength, Laid, Fits;
    var c := FuncCtx(p, fn);
    var all, tail := GenFunc(c).value, Epilogue(|c.f.sig.ins|);
    assert all == g.code + tail;
    TreeCodeOk(c, Initial(c.f), c.f.body, 0, g);
    EpilogueFits(|c.f.sig.ins|);
    assert AllFit(all);
    EncodedIsLaid(im.codes[fn], all);
    assert Resolve(g.code, []) == g.code;
    LaidSplit(im.codes[fn], 0, g.code, tail);
    LengthConcat(g.code, tail);
  }

  lemma BodyFits(p: Program, im: M.Image, fn: nat)
    requires FuncBuilt(p, im, fn)
    ensures TreeFits(p.funcs[fn].body) && CtxFits(FuncCtx(p, fn))
  {
  }

  lemma EncodedIsLaid(bytes: seq<u8>, code: seq<Instr>)
    requires AllFit(code) && bytes == EncodeAll(code)
    ensures Laid(bytes, 0, code)
  {
    assert bytes[0..0 + CodeLength(code)] == bytes;
    EncodedLaid(bytes, 0, code);
  }

  lemma {:induction false} FuncRuns(p: Program, im: M.Image, fn: nat, d: S.Data, rets: seq<M.Return>, ret: M.Return, pads: seq<M.Pad>,
                                    fuel: nat, r: S.Res)
    returns (n: nat, e: M.Config)
    requires Built(p, im) && fn < |p.funcs| && GenFunc(FuncCtx(p, fn)).Some?
    requires Argc(p.funcs[fn].sig) <= |d.params| && r == S.RunFunc(fuel, p, fn, d)
    ensures Goes(im, Entered(fn, |d.params| - Argc(p.funcs[fn].sig), d, rets + [ret], pads), n, e)
    ensures FuncEnded(|p.funcs[fn].sig.ins|, rets, pads, ret, d, r, e)
    ensures r.out.Timeout? ==> n >= fuel
    decreases fuel, 2 * Size(p.funcs[fn].body) + 1, 0
  {
    hide GenTree, GenFunc, Compiled, FuncBuilt, CodeLength, Laid, S.Exec, Goes, Resolve, Epilogue;
    var f, argBase := p.funcs[fn], |d.params| - Argc(p.funcs[fn].sig);
    var s := Spot(fn, argBase, |d.mem.storage| + RETURN_SIZE, |pads|, rets + [ret], pads, []);
    var d1 := S.Grow(d, RETURN_SIZE, Saved);
    assert FuncBuilt(p, im, fn);
    BodyFits(p, im, fn);
    var g := GenTree(FuncCtx(p, fn), Initial(f), f.body, 0);
    FuncLaid(p, im, fn, g);
    var b := S.Exec(fuel, p, S.Act(fn, argBase), map[], f.body, d1);
    n, e := TreeRuns(p, im, s, Initial(f), map[], f.body, 0, d1, g, fuel, b);
    assert d.mem.storage + M.SavedCells(RETURN_SIZE) == d1.mem.storage;
    assert At(s, 0, d1) == Entered(fn, argBase, d, rets + [ret], pads);
    GrownKept(d, RETURN_SIZE, Saved);
    if b.out.Normal? {
      var n1, e1 := n, e;
      var m;
      m, e := EpilogueRuns(im, e1, |f.sig.ins|, d, rets, ret);
      n := n1 + m;
      GoesOn(im, At(s, 0, d1), n1, e1, m, e);
      KeptTrans(d.mem, d1.mem, b.d.mem, |d.mem.storage|, |d1.mem.storage|);
    } else if b.out.Crashed? {
      KeptTrans(d.mem, d1.mem, b.d.mem, |d.mem.storage|, |d1.mem.storage|);
    }
  }

  lemma GrownKept(d: S.Data, n: nat, cell: Cell)
    ensures var e := S.Grow(d, n, cell);
            e.params == d.params && |e.mem.storage| == |d.mem.storage| + n && Kept(d.mem, e.mem, |d.mem.storage|)
            && forall i :: |d.mem.storage| <= i < |d.mem.storage| + n ==> e.mem.storage[i] == cell
  {
  }

  lemma {:induction false} CallRuns(p: Program, im: M.Image, s: Spot, fn: nat, pos: nat, tys: seq<TypeId>, d: S.Data, g: OpGen,
                                    fuel: nat, r: S.OpRes)
    returns (n: nat, e: M.Config)
    requires Built(p, im) && s.fn < |p.funcs| && |tys| <= |d.params|
    requires g == GenCall(FuncCtx(p, s.fn), fn, tys) && g.OpEmit?
    requires Laid(im.codes[s.fn], pos, Resolve(g.code, s.ends))
    requires r == S.CallOp(fuel, p, p.funcs[s.fn], fn, tys, d)
    ensures Goes(im, At(s, pos, d), n, e)
    ensures OpsEnded(s, pos + CodeLength(g.code), tys, g.tys, d, r, e)
    ensures r.out.Timeout? ==> n >= fuel
    decreases fuel, 0, 0
  {
    hide GenFunc, Compiled, FuncBuilt, Laid, S.RunFunc, Goes;
    var c, argc := At(s, pos, d), Argc(p.funcs[fn].sig);
    var i := ICall(fn + 1, argc);
    assert g.code == [i];
    FetchOne(im.codes[s.fn], pos, i, s.ends);
    if fuel == 0 {
      n, e := 0, c;
      GoesNowhere(im, c);
    } else {
      CompiledAt(p, s.fn, fn);
      CallStep(im, c, fn, argc);
      var ret := M.Back(s.fn, pos + Length(i), s.argBase);
      var c1 := Entered(fn, |d.params| - argc, d, s.rets + [ret], s.pads);
      assert Goes(im, c, 1, c1);
      var q := S.RunFunc(fuel - 1, p, fn, d);
      var m;
      m, e := FuncRuns(p, im, fn, d, s.rets, ret, s.pads, fuel - 1, q);
      n := 1 + m;
      GoesOn(im, c, 1, c1, m, e);
      if q.out.Crashed? { assert d.params[..|d.params| - |tys|] <= d.params; }
    }
  }

  lemma {:induction false} OpsRun(p: Program, im: M.Image, s: Spot, st: CState, env: S.Env, ops: seq<Op>, tys: seq<TypeId>, pos: nat,
                                  d: S.Data, g: OpGen, fuel: nat, r: S.OpRes)
    returns (n: nat, e: M.Config)
    requires Built(p, im) && Ready(p, im, s, st, env, d) && |tys| <= |d.params|
    requires g == GenOps(FuncCtx(p, s.fn), st.vars, st.frame, ops, tys) && g.OpEmit?
    requires Laid(im.codes[s.fn], pos, Resolve(g.code, s.ends))
    requires r == S.RunOps(fuel, p, S.Act(s.fn, s.argBase), env, ops, tys, d)
    ensures Goes(im, At(s, pos, d), n, e)
    ensures OpsEnded(s, pos + CodeLength(g.code), tys, g.tys, d, r, e)
    ensures r.out.Timeout? ==> n >= fuel
    decreases fuel, 0, |ops| + 1
  {
    hide GenOp, Compiled, FuncBuilt, Laid, S.CallOp, S.SimpleOp, Goes, Resolve;
    var c, a := FuncCtx(p, s.fn), S.Act(s.fn, s.argBase);
    if |ops| == 0 {
      n, e := 0, At(s, pos, d);
      GoesNowhere(im, e);
    } else {
      var g1 := GenOp(c, st.vars, st.frame, ops[0], tys);
      var g2 := GenOps(c, st.vars, st.frame, ops[1..], g1.tys);
      SplitResolved(im.codes[s.fn], pos, g1.code, g2.code, s.ends);
      var r1 := if ops[0].Call? then S.CallOp(fuel, p, p.funcs[a.fn], ops[0].fn, tys, d)
                else S.SimpleOp(p, p.funcs[a.fn], a, env, ops[0], tys, d);
      n, e := OneOpRuns(p, im, s, st, env, ops[0], tys, pos, d, g1, fuel, r1);
      if r1.out.Normal? {
        var n1, e1 := n, e;
        StaysOpen(d.mem, r1.d.mem, s.fb);
        var m;
        m, e := OpsRun(p, im, s, st, env, ops[1..], g1.tys, pos + CodeLength(g1.code), r1.d, g2, fuel, r);
        n := n1 + m;
        GoesOn(im, At(s, pos, d), n1, e1, m, e);
        OpsEndedOn(s, pos + CodeLength(g.code), tys, g1.tys, g2.tys, d, r1.d, r, e);
      }
    }
  }

  lemma {:induction false} OneOpRuns(p: Program, im: M.Image, s: Spot, st: CState, env: S.Env, op: Op, tys: seq<TypeId>, pos: nat,
                                     d: S.Data, g: OpGen, fuel: nat, r: S.OpRes)
    returns (n: nat, e: M.Config)
    requires Built(p, im) && Ready(p, im, s, st, env, d) && |tys| <= |d.params|
    requires g == GenOp(FuncCtx(p, s.fn), st.vars, st.frame, op, tys) && g.OpEmit?
    requires Laid(im.codes[s.fn], pos, Resolve(g.code, s.ends))
    requires r == if op.Call? then S.CallOp(fuel, p, p.funcs[s.fn], op.fn, tys, d)
                  else S.SimpleOp(p, p.funcs[s.fn], S.Act(s.fn, s.argBase), env, op, tys, d)
    ensures Goes(im, At(s, pos, d), n, e)
    ensures OpsEnded(s, pos + CodeLength(g.code), tys, g.tys, d, r, e)
    ensures r.out.Timeout? ==> n >= fuel
    decreases fuel, 0, 1
  {
    hide S.CallOp, S.SimpleOp, GenCall, Goes, OpsEnded, Laid, Resolve;
    var c, a := FuncCtx(p, s.fn), S.Act(s.fn, s.argBase);
    if op.Call? {
      n, e := CallRuns(p, im, s, op.fn, pos, tys, d, g, fuel, r);
    } else {
      OpEmulates(c, st, s.fb, a, env, op, tys, d, g);
      OpKeeps(p, c.f, a, env, op, tys, d);
      n, e := DataOpRuns(im, s, pos, g.code, tys, g.tys, d, r);
    }
  }

  lemma OpsEndedOn(s: Spot, end: nat, before: seq<TypeId>, between: seq<TypeId>, after: seq<TypeId>, d: S.Data, d1: S.Data,
                   r: S.OpRes, c: M.Config)
    requires |before| <= |d.params| && |between| <= |d1.params| && |d1.params| - |between| == |d.params| - |before|
    requires d1.params[..|d1.params| - |between|] == d.params[..|d.params| - |before|]
    requires |d1.mem.storage| == |d.mem.storage| && Kept(d.mem, d1.mem, |d.mem.storage|)
    requires OpsEnded(s, end, between, after, d1, r, c)
    ensures OpsEnded(s, end, before, after, d, r, c)
  {
    if r.out.Normal? || r.out.Crashed? { KeptTrans(d.mem, d1.mem, r.d.mem, |d.mem.storage|, |d1.mem.storage|); }
  }

  // ----- blocks -----

  /** What the compound blocks mean, in terms of their parts. */
  function PadMeans(fuel: nat, p: Program, a: S.Act, env: S.Env, body: Tree, pad: Tree, d: S.Data): S.Res
    requires a.fn < |p.funcs|
  {
    var q := S.Exec(fuel, p, a, env, body, d);
    if !q.out.Crashed? then q else
    var h := S.Exec(fuel, p, a, env, pad, S.Restored(q.d, d));
    if h.out.Normal? then S.Res(S.Crashed, S.Crashing(h.d, VM_CRASH)) else h
  }

  function BranchMeans(fuel: nat, p: Program, a: S.Act, env: S.Env, cond: seq<Op>, yes: Tree, no: Tree, d: S.Data): S.Res
    requires a.fn < |p.funcs|
  {
    var (q, taken) := S.ExecCond(fuel, p, a, env, cond, d);
    if !q.out.Normal? then q else S.Exec(fuel, p, a, env, if taken then yes else no, q.d)
  }

  function VarMeans(fuel: nat, p: Program, a: S.Act, env: S.Env, v: nat, body: Tree, d: S.Data): S.Res
    requires a.fn < |p.funcs|
  {
    var f, n := p.funcs[a.fn], |d.mem.storage|;
    if v >= |f.vars| || f.vars[v] >= |f.types| then S.Res(S.Stuck, d) else
    var q := S.Exec(fuel, p, a, env[v := n], body, S.Grow(d, f.types[f.vars[v]].size, Byte(0)));
    if q.out.Normal? then S.Res(S.Normal, S.Cut(q.d, n)) else S.Leave(q, n)
  }

  lemma {:induction false} TreeRuns(p: Program, im: M.Image, s: Spot, st: CState, env: S.Env, t: Tree, pos: nat, d: S.Data, g: Gen,
                                    fuel: nat, r: S.Res)
    returns (n: nat, e: M.Config)
    requires Built(p, im) && Ready(p, im, s, st, env, d) && TreeFits(t)
    requires g == GenTree(FuncCtx(p, s.fn), st, t, pos) && g.Emit?
    requires Laid(im.codes[s.fn], pos, Resolve(g.code, s.ends)) && pos + CodeLength(g.code) <= MAX_TARGET
    requires r == S.Exec(fuel, p, S.Act(s.fn, s.argBase), env, t, d)
    ensures Goes(im, At(s, pos, d), n, e)
    ensures Ended(s, st, pos + CodeLength(g.code), g.code, g.reach, d, r, e)
    ensures r.out.Timeout? ==> n >= fuel
    decreases fuel, 2 * Size(t), 0
  {
    hide Built, Ready, Laid, Goes, Ended, CodeLength, Resolve, S.ExecBasic, S.ExecCond, S.ExecChain, S.ExecLoop, GenOps, GenChain, HasExit;
    if t.Basic? {
      n, e := BasicRuns(p, im, s, st, env, t.ops, pos, d, g, fuel, r);
    } else if t.Many? {
      n, e := ManyRuns(p, im, s, st, env, t.kids, pos, d, g, fuel, r);
    } else if t.CrashPad? {
      n, e := PadRuns(p, im, s, st, env, t.body, t.pad, pos, d, g, fuel, r);
    } else if t.Branch? {
      n, e := BranchRuns(p, im, s, st, env, t.cond, t.yes, t.no, pos, d, g, fuel, r);
    } else if t.Loop? {
      n, e := LoopRuns(p, im, s, st, env, t.body, pos, d, g, fuel, fuel, r);
    } else if t.Break? {
      n, e := BreakRuns(p, im, s, st, env, t.level, pos, d, g);
    } else if t.Var? {
      n, e := VarRuns(p, im, s, st, env, t.v, t.body, pos, d, g, fuel, r);
    } else {
      n, e := CrashRuns(p, im, s, st, env, t, pos, d, g, r);
    }
  }

  /** A crash, soft or hard. */
  lemma CrashRuns(p: Program, im: M.Image, s: Spot, st: CState, env: S.Env, t: Tree, pos: nat, d: S.Data, g: Gen, r: S.Res)
    returns (n: nat, e: M.Config)
    requires Ready(p, im, s, st, env, d) && (t.SoftCrash? || t.HardCrash?)
    requires g == Emit([if t.SoftCrash? then ICrash else IHardCrash], false, st.vars)
    requires Laid(im.codes[s.fn], pos, Resolve(g.code, s.ends))
    requires r == if t.SoftCrash? then S.Res(S.Crashed, S.Crashing(d, VM_CRASH)) else S.Res(S.HardCrashed, d)
    ensures Goes(im, At(s, pos, d), n, e)
    ensures Ended(s, st, pos + CodeLength(g.code), g.code, g.reach, d, r, e)
  {
    var i := if t.SoftCrash? then ICrash else IHardCrash;
    FetchOne(im.codes[s.fn], pos, i, s.ends);
    n := 1;
    if t.SoftCrash? {
      CrashStep(im, At(s, pos, d));
      e := M.ToCrash(Past(At(s, pos, d), i), VM_CRASH);
    } else {
      ControlStep(im, At(s, pos, d), i);
      e := M.Halt(Past(At(s, pos, d), i), VM_HARD_CRASH);
    }
  }

  lemma {:induction false} BasicRuns(p: Program, im: M.Image, s: Spot, st: CState, env: S.Env, ops: seq<Op>, pos: nat, d: S.Data, g: Gen,
      fuel: nat, r: S.Res)
    returns (n: nat, e: M.Config)
    requires Built(p, im) && Ready(p, im, s, st, env, d)
    requires g == GenBasic(FuncCtx(p, s.fn), st, ops) && g.Emit?
    requires Laid(im.codes[s.fn], pos, Resolve(g.code, s.ends)) && pos + CodeLength(g.code) <= MAX_TARGET
    requires r == S.ExecBasic(fuel, p, S.Act(s.fn, s.argBase), env, ops, d)
    ensures Goes(im, At(s, pos, d), n, e)
    ensures Ended(s, st, pos + CodeLength(g.code), g.code, g.reach, d, r, e)
    ensures r.out.Timeout? ==> n >= fuel
    decreases fuel, 1, 0
  {
    hide GenOps, Compiled, FuncBuilt, Laid, S.RunOps, Goes, Resolve;
    var c, a := FuncCtx(p, s.fn), S.Act(s.fn, s.argBase);
    var ops1 := GenOps(c, st.vars, st.frame, ops, []);
    var drop: seq<Instr> := if |ops1.tys| > 0 then [IDropN(|ops1.tys|)] else [];
    SplitResolved(im.codes[s.fn], pos, ops1.code, drop, s.ends);
    var q := S.RunOps(fuel, p, a, env, ops, [], d);
    n, e := OpsRun(p, im, s, st, env, ops, [], pos, d, ops1, fuel, q);
    assert d.params[..|d.params|] == d.params;
    if q.out.Normal? && |ops1.tys| > 0 {
      var k := |ops1.tys|;
      var c1 := e;
      FetchOne(im.codes[s.fn], pos + CodeLength(ops1.code), IDropN(k), s.ends);
      DropStep(im, c1, k);
      e := Past(c1, IDropN(k)).(params := c1.params[..|c1.params| - k]);
      GoesOn(im, At(s, pos, d), n, c1, 1, e);
      n := n + 1;
    }
  }

  /** The code of a break: pads popped, the frame cut, and a jump to the end of the scope. */
  lemma BreakLaid(s: Spot, st: CState, level: nat, g: Gen) returns (k: nat, cut: nat, j: nat)
    requires StateOk(st) && g == GenBreak(st, level) && g.Emit? && |s.ends| == |st.scopes|
    ensures j == |st.scopes| - level && j < |st.scopes| && HasExit(g.code, j) && !g.reach
    ensures k == st.crash - st.scopes[j].crash && cut == st.frame - st.scopes[j].frame
    ensures Resolve(g.code, s.ends) == PopPads(k) + CutJump(cut, s.ends[j])
  {
    j := |st.scopes| - level;
    k, cut := st.crash - st.scopes[j].crash, st.frame - st.scopes[j].frame;
    assert g.code == PopPads(k) + ((if cut != 0 then [IStorageAdd(-(cut as int))] else []) + [IExit(j)]);
    assert g.code[|g.code| - 1] == IExit(j);
  }

  function CutJump(cut: nat, target: nat): seq<Instr> {
    (if cut != 0 then [IStorageAdd(-(cut as int))] else []) + [IJump(target)]
  }

  lemma CutJumpRuns(im: M.Image, c: M.Config, cut: nat, target: nat) returns (n: nat)
    requires c.mode.Running? && c.fn < |im.codes| && Laid(im.codes[c.fn], c.pc, CutJump(cut, target))
    requires cut <= |c.mem.storage| && OpenFrom(c.mem, |c.mem.storage| - cut)
    ensures Goes(im, c, n, c.(pc := target, mem := c.mem.(storage := c.mem.storage[..|c.mem.storage| - cut])))
  {
    hide Laid, Goes, OpenFrom;
    if cut != 0 {
      LaidFirst(im.codes[c.fn], c.pc, IStorageAdd(-(cut as int)), [IJump(target)]);
      ShrinkStep(im, c, cut);
      var c1 := Past(c, IStorageAdd(-(cut as int))).(mem := c.mem.(storage := c.mem.storage[..|c.mem.storage| - cut]));
      LaidOne(im.codes[c.fn], c1.pc, IJump(target));
      JumpStep(im, c1, target);
      GoesOn(im, c, 1, c1, 1, c1.(pc := target));
      n := 2;
    } else {
      assert CutJump(0, target) == [IJump(target)];
      LaidOne(im.codes[c.fn], c.pc, IJump(target));
      JumpStep(im, c, target);
      assert c.mem.storage[..|c.mem.storage|] == c.mem.storage;
      n := 1;
    }
  }

  lemma BreakRuns(p: Program, im: M.Image, s: Spot, st: CState, env: S.Env, level: nat, pos: nat, d: S.Data, g: Gen)
    returns (n: nat, e: M.Config)
    requires Ready(p, im, s, st, env, d) && g == GenBreak(st, level) && g.Emit?
    requires Laid(im.codes[s.fn], pos, Resolve(g.code, s.ends))
    ensures Goes(im, At(s, pos, d), n, e)
    ensures Ended(s, st, pos + CodeLength(g.code), g.code, g.reach, d, S.Res(S.Leaving(level), d), e)
  {
    hide Laid, Goes, Resolve, CutJump, HasExit, OpenFrom;
    var k, cut, j := BreakLaid(s, st, level, g);
    var c := At(s, pos, d);
    PopsRun(im, c, k, CutJump(cut, s.ends[j]));
    var c1 := c.(pc := pos + CodeLength(PopPads(k)), pads := s.pads[..|s.pads| - k]);
    assert |s.pads| - k == s.cb + st.scopes[j].crash;
    OpenHigher(d.mem, s.fb, |d.mem.storage| - cut);
    var m := CutJumpRuns(im, c1, cut, s.ends[j]);
    n, e := k + m, c1.(pc := s.ends[j], mem := d.mem.(storage := d.mem.storage[..|d.mem.storage| - cut]));
    GoesOn(im, c, k, c1, m, e);
  }

  lemma {:induction false} ManyRuns(p: Program, im: M.Image, s: Spot, st: CState, env: S.Env, kids: Chain, pos: nat, d: S.Data, g: Gen,
      fuel: nat, r: S.Res)
    returns (n: nat, e: M.Config)
    requires Built(p, im) && Ready(p, im, s, st, env, d) && ChainFits(kids)
    requires g == CloseMany(st, GenChain(FuncCtx(p, s.fn), Inside(st), kids, pos), pos) && g.Emit?
    requires Laid(im.codes[s.fn], pos, Resolve(g.code, s.ends)) && pos + CodeLength(g.code) <= MAX_TARGET
    requires r == S.Leave(S.ExecChain(fuel, p, S.Act(s.fn, s.argBase), env, kids, d), |d.mem.storage|)
    ensures Goes(im, At(s, pos, d), n, e)
    ensures Ended(s, st, pos + CodeLength(g.code), g.code, g.reach, d, r, e)
    ensures r.out.Timeout? ==> n >= fuel
    decreases fuel, 2 * ChainSize(kids) + 1, 0
  {
    hide GenTree, GenChain, GenOps, Compiled, FuncBuilt, Laid, CodeLength, S.Exec, S.ExecChain, S.ExecCond, Goes, Resolve, HasExit, OpenFrom, TreeFits, StateOk, EnvOk, Kept, Fetch, Close, AtExit, Unwound;
    var inner := Inside(st);
    var k := GenChain(FuncCtx(p, s.fn), inner, kids, pos);
    var end := pos + CodeLength(k.code);
    InsideReady(p, im, s, st, env, d, end);
    KeptSelf(d);
    CloseResolves(st, k.code, pos, k.reach, k.vars, s.ends);
    var q := S.ExecChain(fuel, p, S.Act(s.fn, s.argBase), env, kids, d);
    n, e := ChainRuns(p, im, s.(ends := s.ends + [end]), inner, env, kids, pos, d, k, fuel, q);
    if !q.out.Normal? {
      EndedLeft(s, st, inner, end, k.code, d, q, e, d, end, g.code, k.reach, g.reach);
    }
  }

  lemma {:induction false} ChainRuns(p: Program, im: M.Image, s: Spot, st: CState, env: S.Env, ch: Chain, pos: nat, d: S.Data, g: Gen,
      fuel: nat, r: S.Res)
    returns (n: nat, e: M.Config)
    requires Built(p, im) && Ready(p, im, s, st, env, d) && ChainFits(ch)
    requires g == GenChain(FuncCtx(p, s.fn), st, ch, pos) && g.Emit?
    requires Laid(im.codes[s.fn], pos, Resolve(g.code, s.ends)) && pos + CodeLength(g.code) <= MAX_TARGET
    requires r == S.ExecChain(fuel, p, S.Act(s.fn, s.argBase), env, ch, d)
    ensures Goes(im, At(s, pos, d), n, e)
    ensures Ended(s, st, pos + CodeLength(g.code), g.code, g.reach, d, r, e)
    ensures r.out.Timeout? ==> n >= fuel
    decreases fuel, 2 * ChainSize(ch), 0
  {
    hide GenTree, GenOps, Compiled, Laid, S.Exec, Goes, Resolve, HasExit, TreeFits;
    if ch.End? {
      n, e := 0, At(s, pos, d);
      GoesNowhere(im, e);
    } else {
      var c := FuncCtx(p, s.fn);
      var g1, q := GenTree(c, st, ch.cur, pos), S.Exec(fuel, p, S.Act(s.fn, s.argBase), env, ch.cur, d);
      assert FuncBuilt(p, im, s.fn);
      BodyFits(p, im, s.fn);
      TreeCodeOk(c, st, ch.cur, pos, g1);
      if g1.reach {
        n, e := LinkRuns(p, im, s, st, env, ch.cur, ch.rest, pos, d, g1, GenChain(c, st.(vars := g1.vars), ch.rest, pos + CodeLength(g1.code)), fuel, q, r);
      } else {
        n, e := TreeRuns(p, im, s, st, env, ch.cur, pos, d, g1, fuel, q);
      }
    }
  }

  /** A child that can be left, and the children behind it. */
  lemma {:induction false} LinkRuns(p: Program, im: M.Image, s: Spot, st: CState, env: S.Env, cur: Tree, rest: Chain, pos: nat, d: S.Data,
      g1: Gen, g2: Gen, fuel: nat, q: S.Res, r: S.Res)
    returns (n: nat, e: M.Config)
    requires Built(p, im) && Ready(p, im, s, st, env, d) && TreeFits(cur) && ChainFits(rest)
    requires g1 == GenTree(FuncCtx(p, s.fn), st, cur, pos) && g1.Emit? && g1.reach && VarsKept(st.vars, g1.vars)
    requires g2 == GenChain(FuncCtx(p, s.fn), st.(vars := g1.vars), rest, pos + CodeLength(g1.code)) && g2.Emit?
    requires Laid(im.codes[s.fn], pos, Resolve(g1.code + g2.code, s.ends)) && pos + CodeLength(g1.code + g2.code) <= MAX_TARGET
    requires q == S.Exec(fuel, p, S.Act(s.fn, s.argBase), env, cur, d)
    requires r == if q.out.Normal? then S.ExecChain(fuel, p, S.Act(s.fn, s.argBase), env, rest, q.d) else q
    ensures Goes(im, At(s, pos, d), n, e)
    ensures Ended(s, st, pos + CodeLength(g1.code + g2.code), g1.code + g2.code, g2.reach, d, r, e)
    ensures r.out.Timeout? ==> n >= fuel
    decreases fuel, 2 * (Size(cur) + ChainSize(rest)), 0
  {
    hide GenTree, GenChain, GenOps, Compiled, FuncBuilt, Laid, CodeLength, S.Exec, S.ExecChain, Goes, Resolve, TreeFits, ChainFits;
    SplitResolved(im.codes[s.fn], pos, g1.code, g2.code, s.ends);
    n, e := TreeRuns(p, im, s, st, env, cur, pos, d, g1, fuel, q);
    var end := pos + CodeLength(g1.code + g2.code);
    if q.out.Normal? {
      var n1, e1, m := n, e, 0;
      var st2 := st.(vars := g1.vars);
      StaysOpen(d.mem, q.d.mem, s.fb);
      m, e := ChainRuns(p, im, s, st2, env, rest, pos + CodeLength(g1.code), q.d, g2, fuel, r);
      n := n1 + m;
      GoesOn(im, At(s, pos, d), n1, e1, m, e);
      EndedLater(s, st, st2, end, g2.code, g2.reach, q.d, r, e, d, g1.code + g2.code, g2.reach);
    } else {
      EndedWider(s, st, pos + CodeLength(g1.code), g1.code, g1.reach, d, q, e, d, end, g1.code + g2.code, g2.reach);
    }
  }

  /** What a block reached at the same level ends in, it ends in for the block before it. */
  lemma EndedLater(s: Spot, st: CState, st2: CState, end: nat, code: seq<Instr>, reach: bool, d: S.Data, r: S.Res, c: M.Config,
                   start: S.Data, code2: seq<Instr>, reach2: bool)
    requires Ended(s, st2, end, code, reach, d, r, c) && st2.scopes == st.scopes && Level(start, d)
    requires ExitsIn(code, code2, |st.scopes|) && (reach ==> reach2)
    ensures Ended(s, st, end, code2, reach2, start, r, c)
  {
    if r.out.Normal? || r.out.Leaving? || r.out.Crashed? {
      KeptTrans(start.mem, d.mem, r.d.mem, |start.mem.storage|, |d.mem.storage|);
    }
  }

  lemma {:induction false} LoopRuns(p: Program, im: M.Image, s: Spot, st: CState, env: S.Env, body: Tree, pos: nat, d: S.Data, g: Gen,
      k: nat, fuel: nat, r: S.Res)
    returns (n: nat, e: M.Config)
    requires Built(p, im) && Ready(p, im, s, st, env, d) && TreeFits(body)
    requires g == CloseLoop(st, GenTree(FuncCtx(p, s.fn), Inside(st), body, pos), pos) && g.Emit?
    requires Laid(im.codes[s.fn], pos, Resolve(g.code, s.ends)) && pos + CodeLength(g.code) <= MAX_TARGET
    requires r == S.ExecLoop(k, fuel, p, S.Act(s.fn, s.argBase), env, body, d)
    requires k <= fuel
    ensures Goes(im, At(s, pos, d), n, e)
    ensures Ended(s, st, pos + CodeLength(g.code), g.code, g.reach, d, r, e)
    ensures r.out.Timeout? ==> n >= k
    decreases fuel, 2 * Size(body) + 1, k
  {
    hide GenTree, GenChain, GenOps, Compiled, FuncBuilt, Laid, CodeLength, S.Exec, S.ExecChain, S.ExecCond, Goes, Resolve, HasExit, ExitsIn, OpenFrom, TreeFits,
         StateOk, EnvOk, Kept, Fetch, Close, CloseLoop, AtExit, Unwound, Ended, Ready, Level, Built, FuncCtx;
    ReadyFacts(p, im, s, st, env, d);
    var inner := Inside(st);
    var b, end := LoopLaid(FuncCtx(p, s.fn), st, body, pos, g, im.codes[s.fn], s.ends);
    var s2 := s.(ends := s.ends + [end]);
    InsideReady(p, im, s, st, env, d, end);
    KeptSelf(d);
    if k == 0 {
      n, e := 0, At(s, pos, d);
      GoesNowhere(im, e);
      EndedTimeout(s, st, end, g.code, g.reach, d, r, e);
    } else {
      var q := S.Exec(fuel, p, S.Act(s.fn, s.argBase), env, body, d);
      n, e := TreeRuns(p, im, s2, inner, env, body, pos, d, b, fuel, q);
      if q.out.Normal? {
        var n1, e1, m := n, e, 0;
        EndedNormal(s2, inner, pos + CodeLength(b.code), b.code, b.reach, d, q, e1);
        JumpBack(im, s2, pos + CodeLength(b.code), pos, q.d);
        GoesOn(im, At(s, pos, d), n1, e1, 1, At(s, pos, q.d));
        LevelReady(p, im, s, st, env, d, q.d);
        m, e := LoopRuns(p, im, s, st, env, body, pos, q.d, g, k - 1, fuel, r);
        n := n1 + 1 + m;
        GoesOn(im, At(s, pos, d), n1 + 1, At(s, pos, q.d), m, e);
        EndedLater(s, st, st, end, g.code, g.reach, q.d, r, e, d, g.code, g.reach) by { SelfExits(g.code, |st.scopes|); }
      } else {
        EndedLeft(s, st, inner, pos + CodeLength(b.code), b.code, d, q, e, d, end, g.code, b.reach, g.reach);
      }
    }
  }

  lemma SelfExits(code: seq<Instr>, n: nat)
    ensures ExitsIn(code, code, n)
  {
  }

  /** Where the parts of a loop lie: its body, and the jump back when the body can be left. */
  lemma LoopLaid(c: Ctx, st: CState, body: Tree, pos: nat, g: Gen, bytes: seq<u8>, ends: seq<nat>) returns (b: Gen, end: nat)
    requires g == CloseLoop(st, GenTree(c, Inside(st), body, pos), pos) && g.Emit? && |ends| == |st.scopes|
    requires Laid(bytes, pos, Resolve(g.code, ends))
    ensures b == GenTree(c, Inside(st), body, pos) && b.Emit? && end == pos + CodeLength(g.code)
    ensures Laid(bytes, pos, Resolve(b.code, ends + [end])) && pos + CodeLength(b.code) <= end
    ensures b.reach ==> Laid(bytes, pos + CodeLength(b.code), Resolve([IJump(pos % TWO16)], ends + [end]))
    ensures ExitsIn(b.code, g.code, |st.scopes|) && (HasExit(b.code, |st.scopes|) ==> g.reach)
  {
    hide GenTree, Laid, CodeLength, Resolve, HasExit, Close;
    b := GenTree(c, Inside(st), body, pos);
    var code := LoopCode(b.code, b.reach, pos);
    var back: seq<Instr> := if b.reach then [IJump(pos % TWO16)] else [];
    end := pos + CodeLength(code);
    CloseResolves(st, code, pos, false, st.vars, ends);
    LoopExits(b.code, b.reach, pos);
    SplitResolved(bytes, pos, b.code, back, ends + [end]);
  }

  /** Where the parts of a VAR lie: the frame grows, the body, and the frame shrinks. */
  lemma VarLaid(c: Ctx, st: CState, v: nat, body: Tree, pos: nat, g: Gen, bytes: seq<u8>, ends: seq<nat>) returns (b: Gen, end: nat)
    requires g == GenVar(c, st, v, body, pos) && g.Emit? && |ends| == |st.scopes|
    requires Laid(bytes, pos, Resolve(g.code, ends))
    ensures v < |c.f.vars| && v < |st.vars| && c.f.vars[v] < |c.f.types| && st.frame + VarSize(c, v) <= MAX_FRAME
    ensures end == pos + CodeLength(g.code)
    ensures var size := VarSize(c, v);
      var at := pos + Length(IStorageAdd(size));
      && b == GenTree(c, VarState(c, st, v), body, at) && b.Emit?
      && Fetch(bytes, pos) == Got(IStorageAdd(size), at)
      && Laid(bytes, at, Resolve(b.code, ends + [end])) && at + CodeLength(b.code) <= end
      && (b.reach ==> Laid(bytes, at + CodeLength(b.code), Resolve([IStorageAdd(-(size as int))], ends + [end]))
                      && at + CodeLength(b.code) + Length(IStorageAdd(-(size as int))) == end)
    ensures ExitsIn(b.code, g.code, |st.scopes|) && (HasExit(b.code, |st.scopes|) ==> g.reach) && (b.reach ==> g.reach)
  {
    hide GenTree, Laid, CodeLength, Resolve, HasExit, Close, Fetch;
    var size := VarSize(c, v);
    var at := pos + Length(IStorageAdd(size));
    b := GenTree(c, VarState(c, st, v), body, at);
    var tail: seq<Instr> := if b.reach then [IStorageAdd(-(size as int))] else [];
    var code := VarCode(size, b.code, b.reach);
    end := pos + CodeLength(code);
    CloseResolves(st, code, pos, b.reach, Dead(b.vars, v), ends);
    VarExits(size, b.code, b.reach);
    FetchResolved(bytes, pos, IStorageAdd(size), b.code + tail, ends + [end]);
    SplitResolved(bytes, at, b.code, tail, ends + [end]);
    OneLength(IStorageAdd(-(size as int)));
    OneLength(IStorageAdd(size));
    LengthConcat([IStorageAdd(size)], b.code + tail);
  }

  lemma OneLength(i: Instr)
    ensures CodeLength([i]) == Length(i)
  {
    assert [i][1..] == [];
  }

  lemma {:induction false} VarRuns(p: Program, im: M.Image, s: Spot, st: CState, env: S.Env, v: nat, body: Tree, pos: nat, d: S.Data, g: Gen,
      fuel: nat, r: S.Res)
    returns (n: nat, e: M.Config)
    requires Built(p, im) && Ready(p, im, s, st, env, d) && TreeFits(body)
    requires g == GenVar(FuncCtx(p, s.fn), st, v, body, pos) && g.Emit?
    requires Laid(im.codes[s.fn], pos, Resolve(g.code, s.ends)) && pos + CodeLength(g.code) <= MAX_TARGET
    requires r == VarMeans(fuel, p, S.Act(s.fn, s.argBase), env, v, body, d)
    ensures Goes(im, At(s, pos, d), n, e)
    ensures Ended(s, st, pos + CodeLength(g.code), g.code, g.reach, d, r, e)
    ensures r.out.Timeout? ==> n >= fuel
    decreases fuel, 2 * Size(body) + 1, 0
  {
    hide S.Exec, GenTree, GenOps, Compiled, FuncBuilt, Laid, CodeLength, Goes, Resolve, HasExit, ExitsIn, TreeFits, StateOk, EnvOk, Kept, OpenFrom, Fetch, Close, Ended,
         Ready, Level, GenVar, CloseVar, Built, Dead;
    ReadyFacts(p, im, s, st, env, d);
    var c := FuncCtx(p, s.fn);
    var b, end := VarLaid(c, st, v, body, pos, g, im.codes[s.fn], s.ends);
    var size, inner := VarSize(c, v), VarState(c, st, v);
    var s2 := s.(ends := s.ends + [end]);
    GrowStep(im, At(s, pos, d), size);
    var d1 := S.Grow(d, size, Byte(0));
    assert d.mem.storage + M.Zeros(size) == d1.mem.storage;
    var start := At(s2, pos + Length(IStorageAdd(size)), d1);
    assert Goes(im, At(s, pos, d), 1, start);
    GrownKept(d, size, Byte(0));
    VarReady(p, im, s, st, env, d, end, c, v);
    var env1 := env[v := |d.mem.storage|];
    var q := S.Exec(fuel, p, S.Act(s.fn, s.argBase), env1, body, d1);
    var m;
    m, e := TreeRuns(p, im, s2, inner, env1, body, pos + Length(IStorageAdd(size)), d1, b, fuel, q);
    n := 1 + m;
    GoesOn(im, At(s, pos, d), 1, start, m, e);
    if q.out.Normal? {
      var e1 := e;
      EndedNormal(s2, inner, pos + Length(IStorageAdd(size)) + CodeLength(b.code), b.code, b.reach, d1, q, e1);
      LevelMeans(d1, q.d);
      FetchOne(im.codes[s.fn], e1.pc, IStorageAdd(-(size as int)), s2.ends);
      StaysOpen(d1.mem, q.d.mem, s.fb);
      OpenHigher(q.d.mem, s.fb, |d.mem.storage|);
      ShrinkStep(im, e1, size);
      e := Past(e1, IStorageAdd(-(size as int))).(mem := q.d.mem.(storage := q.d.mem.storage[..|q.d.mem.storage| - size]));
      GoesOn(im, At(s, pos, d), n, e1, 1, e);
      n := n + 1;
      KeptTrans(d.mem, d1.mem, q.d.mem, |d.mem.storage|, |d1.mem.storage|);
      CutLevel(d, q.d, r.d);
      EndedNormal(s, st, end, g.code, g.reach, d, r, e);
    } else {
      EndedLeft(s, st, inner, pos + Length(IStorageAdd(size)) + CodeLength(b.code), b.code, d1, q, e, d, end, g.code, b.reach, g.reach);
    }
  }

  /** The jump back to the head of a loop is narrowed to 16 bits, which changes nothing. */
  lemma JumpBack(im: M.Image, s: Spot, from: nat, pos: nat, d: S.Data)
    requires s.fn < |im.codes| && Laid(im.codes[s.fn], from, Resolve([IJump(pos % TWO16)], s.ends)) && pos <= MAX_TARGET
    ensures Goes(im, At(s, from, d), 1, At(s, pos, d))
  {
    FetchOne(im.codes[s.fn], from, IJump(pos % TWO16), s.ends);
    assert pos % TWO16 == pos;
    JumpStep(im, At(s, from, d), pos);
  }

  lemma LoopExits(body: seq<Instr>, reach: bool, pos: nat)
    ensures forall j: nat :: HasExit(body, j) ==> HasExit(LoopCode(body, reach, pos), j)
  {
  }

  lemma VarExits(size: nat, body: seq<Instr>, reach: bool)
    ensures forall j: nat :: HasExit(body, j) ==> HasExit(VarCode(size, body, reach), j)
  {
  }

  /** The body of a scope starts in the state the compiler expects. */
  lemma InsideReady(p: Program, im: M.Image, s: Spot, st: CState, env: S.Env, d: S.Data, end: nat)
    requires Ready(p, im, s, st, env, d)
    ensures Ready(p, im, s.(ends := s.ends + [end]), Inside(st), env, d)
  {
  }

  lemma VarReady(p: Program, im: M.Image, s: Spot, st: CState, env: S.Env, d: S.Data, end: nat, c: Ctx, v: nat)
    requires Ready(p, im, s, st, env, d)
    requires v < |c.f.vars| && v < |st.vars| && c.f.vars[v] < |c.f.types| && st.frame + VarSize(c, v) <= MAX_FRAME
    ensures Ready(p, im, s.(ends := s.ends + [end]), VarState(c, st, v), env[v := |d.mem.storage|], S.Grow(d, VarSize(c, v), Byte(0)))
  {
  }

  lemma LevelReady(p: Program, im: M.Image, s: Spot, st: CState, env: S.Env, d: S.Data, e: S.Data)
    requires Ready(p, im, s, st, env, d) && Level(d, e)
    ensures Ready(p, im, s, st, env, e)
  {
  }

  lemma ReadyFacts(p: Program, im: M.Image, s: Spot, st: CState, env: S.Env, d: S.Data)
    requires Ready(p, im, s, st, env, d)
    ensures s.fn < |p.funcs| == |im.codes| && |s.ends| == |st.scopes| && |s.pads| == s.cb + st.crash
    ensures |d.mem.storage| == s.fb + st.frame && OpenFrom(d.mem, s.fb) && StateOk(st)
  {
  }

  lemma EndedNormal(s: Spot, st: CState, end: nat, code: seq<Instr>, reach: bool, d: S.Data, r: S.Res, c: M.Config)
    requires r.out.Normal?
    ensures Ended(s, st, end, code, reach, d, r, c) <==> reach && c == At(s, end, r.d) && Level(d, r.d)
  {
  }

  lemma EndedTimeout(s: Spot, st: CState, end: nat, code: seq<Instr>, reach: bool, d: S.Data, r: S.Res, c: M.Config)
    requires r.out.Timeout? && !c.mode.Halted?
    ensures Ended(s, st, end, code, reach, d, r, c)
  {
  }

  lemma EndedCrashed(s: Spot, st: CState, end: nat, code: seq<Instr>, reach: bool, d: S.Data, r: S.Res, c: M.Config)
    requires r.out.Crashed?
    ensures Ended(s, st, end, code, reach, d, r, c) <==> Unwound(s.rets, s.pads, d, r.d, c)
  {
  }

  lemma EndedFault(s: Spot, st: CState, end: nat, code: seq<Instr>, reach: bool, d: S.Data, r: S.Res, c: M.Config)
    requires r.out.Fault? && c.mode == M.Halted(r.out.r)
    ensures Ended(s, st, end, code, reach, d, r, c)
  {
  }

  lemma KeptSelf(d: S.Data)
    ensures Kept(d.mem, d.mem, |d.mem.storage|)
  {
  }

  lemma LevelMeans(d: S.Data, e: S.Data)
    requires Level(d, e)
    ensures e.params == d.params && |e.mem.storage| == |d.mem.storage| && Kept(d.mem, e.mem, |d.mem.storage|)
  {
  }

  lemma CutLevel(d: S.Data, q: S.Data, e: S.Data)
    requires q.params == d.params && Kept(d.mem, q.mem, |d.mem.storage|)
    requires e == q.(mem := q.mem.(storage := q.mem.storage[..|d.mem.storage|]))
    ensures Level(d, e)
  {
  }

  lemma OpenHigher(m: Mem, from: nat, to: nat)
    requires OpenFrom(m, from) && from <= to
    ensures OpenFrom(m, to)
  {
  }

  lemma {:induction false} BranchRuns(p: Program, im: M.Image, s: Spot, st: CState, env: S.Env, cond: seq<Op>, yes: Tree, no: Tree, pos: nat, d: S.Data, g: Gen,
      fuel: nat, r: S.Res)
    returns (n: nat, e: M.Config)
    requires Built(p, im) && Ready(p, im, s, st, env, d) && TreeFits(yes) && TreeFits(no)
    requires g == GenBranch(FuncCtx(p, s.fn), st, cond, yes, no, pos) && g.Emit?
    requires Laid(im.codes[s.fn], pos, Resolve(g.code, s.ends)) && pos + CodeLength(g.code) <= MAX_TARGET
    requires r == BranchMeans(fuel, p, S.Act(s.fn, s.argBase), env, cond, yes, no, d)
    ensures Goes(im, At(s, pos, d), n, e)
    ensures Ended(s, st, pos + CodeLength(g.code), g.code, g.reach, d, r, e)
    ensures r.out.Timeout? ==> n >= fuel
    decreases fuel, 2 * (Size(yes) + Size(no)) + 1, 0
  {
    hide S.Exec, ExitsIn, GenTree, GenOps, Compiled, FuncBuilt, Laid, CodeLength, Goes, Resolve, HasExit, TreeFits, LoadNum, S.RunOps, StateOk, EnvOk, OpenFrom,
         Kept, Fetch, BranchCode, Ended, Ready, OpsEnded, Built, FuncCtx, GenBranch, JoinBranch, Level;
    ReadyFacts(p, im, s, st, env, d);
    var a := S.Act(s.fn, s.argBase);
    var cg, y, z, end := BranchShape(FuncCtx(p, s.fn), st, cond, yes, no, pos, g);
    var cc := cg.code;
    var yesPos, noPos := YesPos(pos, cc), NoPos(pos, cc, y);
    BranchLaid(im.codes[s.fn], pos, cc, y, end, z.code, s.ends);
    var q := S.RunOps(fuel, p, a, env, cond, [], d);
    n, e := OpsRun(p, im, s, st, env, cond, [], pos, d, cg, fuel, q);
    CondEnded(s, st, pos + CodeLength(cc), cg.tys, d, q, e, pos + CodeLength(g.code), g.code, g.reach);
    if q.out.Normal? {
      var n1, e1, m := n, e, 0;
      m, e := DecideRuns(p, im, s, st, env, yes, no, pos + CodeLength(cc), yesPos, noPos, d, q.d, y, z, end, g.code, g.reach, fuel, r);
      n := n1 + m;
      GoesOn(im, At(s, pos, d), n1, e1, m, e);
    }
  }

  lemma BranchShape(c: Ctx, st: CState, cond: seq<Op>, yes: Tree, no: Tree, pos: nat, g: Gen) returns (cg: OpGen, y: Gen, z: Gen, end: nat)
    requires g == GenBranch(c, st, cond, yes, no, pos) && g.Emit?
    ensures cg == GenOps(c, st.vars, st.frame, cond, []) && cg.OpEmit? && cg.tys == [INT]
    ensures y == GenTree(c, st, yes, YesPos(pos, cg.code)) && y.Emit?
    ensures z == GenTree(c, st, no, NoPos(pos, cg.code, y)) && z.Emit? && end == NoPos(pos, cg.code, y) + CodeLength(z.code)
    ensures g.code == BranchCode(cg.code, YesPos(pos, cg.code), NoPos(pos, cg.code, y), y.code, y.reach, end, z.code)
    ensures g.reach == (y.reach || z.reach)
  {
    hide GenTree, GenOps, CodeLength, BranchCode;
    cg := GenOps(c, st.vars, st.frame, cond, []);
    y := GenTree(c, st, yes, YesPos(pos, cg.code));
    z := GenTree(c, st, no, NoPos(pos, cg.code, y));
    end := NoPos(pos, cg.code, y) + CodeLength(z.code);
  }

  /** From the BRANCH_TOP of a branch on. */
  lemma {:induction false} DecideRuns(p: Program, im: M.Image, s: Spot, st: CState, env: S.Env, yes: Tree, no: Tree, pos: nat,
      yesPos: nat, noPos: nat, d: S.Data, q: S.Data, y: Gen, z: Gen, end: nat, code: seq<Instr>, reach: bool, fuel: nat, r: S.Res)
    returns (n: nat, e: M.Config)
    requires Built(p, im) && Ready(p, im, s, st, env, d) && TreeFits(yes) && TreeFits(no)
    requires |q.params| == |d.params| + 1 && q.params[..|d.params|] == d.params
    requires |q.mem.storage| == |d.mem.storage| && Kept(d.mem, q.mem, |d.mem.storage|)
    requires Fetch(im.codes[s.fn], pos) == Got(IBranchTop(yesPos, noPos), pos + Length(IBranchTop(yesPos, noPos)))
    requires y == GenTree(FuncCtx(p, s.fn), st, yes, yesPos) && y.Emit?
    requires z == GenTree(FuncCtx(p, s.fn), st, no, noPos) && z.Emit?
    requires Laid(im.codes[s.fn], yesPos, Resolve(y.code, s.ends)) && yesPos + CodeLength(y.code) <= MAX_TARGET
    requires Laid(im.codes[s.fn], noPos, Resolve(z.code, s.ends)) && noPos + CodeLength(z.code) == end <= MAX_TARGET
    requires y.reach ==> Fetch(im.codes[s.fn], yesPos + CodeLength(y.code)) == Got(IJump(end), yesPos + CodeLength(y.code) + Length(IJump(end)))
    requires ExitsIn(y.code, code, |st.scopes|) && ExitsIn(z.code, code, |st.scopes|) && (y.reach || z.reach ==> reach)
    requires var x := LoadNum(q.mem, S.Top(q));
      r == if x.None? then S.Res(S.Fault(UNDEFINED), q)
           else S.Exec(fuel, p, S.Act(s.fn, s.argBase), env, if x.value != 0 then yes else no, S.Pop(q, 1))
    ensures Goes(im, At(s, pos, q), n, e)
    ensures Ended(s, st, end, code, reach, d, r, e)
    ensures r.out.Timeout? ==> n >= fuel
    decreases fuel, 2 * (Size(yes) + Size(no)), 1
  {
    hide S.Exec, GenTree, Compiled, FuncBuilt, Laid, CodeLength, Goes, Resolve, HasExit, ExitsIn, TreeFits, LoadNum, Kept, Fetch, Ended, Ready;
    ReadyFacts(p, im, s, st, env, d);
    var x := LoadNum(q.mem, S.Top(q));
    var c := At(s, pos, q);
    BranchStep(im, c, yesPos, noPos);
    if x.None? {
      n, e := 1, M.Halt(Past(c, IBranchTop(yesPos, noPos)), UNDEFINED);
      EndedFault(s, st, end, code, reach, d, r, e);
    } else {
      var d1, m := S.Pop(q, 1), 0;
      assert d1.params == d.params;
      LevelReady(p, im, s, st, env, d, d1);
      var e2 := At(s, if x.value != 0 then yesPos else noPos, d1);
      m, e := ArmsRun(p, im, s, st, env, yes, no, x.value != 0, yesPos, noPos, d1, y, z, end, fuel, r);
      var arm := if x.value != 0 then y else z;
      EndedLater(s, st, st, end, arm.code, arm.reach, d1, r, e, d, code, reach);
      n := 1 + m;
      GoesOn(im, c, 1, e2, m, e);
    }
  }

  lemma {:induction false} ArmsRun(p: Program, im: M.Image, s: Spot, st: CState, env: S.Env, yes: Tree, no: Tree, taken: bool,
      yesPos: nat, noPos: nat, d: S.Data, y: Gen, z: Gen, end: nat, fuel: nat, r: S.Res)
    returns (n: nat, e: M.Config)
    requires Built(p, im) && Ready(p, im, s, st, env, d) && TreeFits(yes) && TreeFits(no)
    requires y == GenTree(FuncCtx(p, s.fn), st, yes, yesPos) && y.Emit?
    requires z == GenTree(FuncCtx(p, s.fn), st, no, noPos) && z.Emit?
    requires Laid(im.codes[s.fn], yesPos, Resolve(y.code, s.ends)) && yesPos + CodeLength(y.code) <= MAX_TARGET
    requires Laid(im.codes[s.fn], noPos, Resolve(z.code, s.ends)) && noPos + CodeLength(z.code) == end <= MAX_TARGET
    requires y.reach ==> Fetch(im.codes[s.fn], yesPos + CodeLength(y.code)) == Got(IJump(end), yesPos + CodeLength(y.code) + Length(IJump(end)))
    requires r == S.Exec(fuel, p, S.Act(s.fn, s.argBase), env, if taken then yes else no, d)
    ensures Goes(im, At(s, if taken then yesPos else noPos, d), n, e)
    ensures var arm := if taken then y else z; Ended(s, st, end, arm.code, arm.reach, d, r, e)
    ensures r.out.Timeout? ==> n >= fuel
    decreases fuel, 2 * (Size(yes) + Size(no)), 0
  {
    hide GenTree, Compiled, FuncBuilt, Laid, CodeLength, Goes, Resolve, HasExit, TreeFits, S.Exec, Kept, StateOk, EnvOk, Ended, Ready, Fetch;
    if taken {
      n, e := ArmRuns(p, im, s, st, env, yes, yesPos, d, y, true, end, fuel, r);
    } else {
      n, e := ArmRuns(p, im, s, st, env, no, noPos, d, z, false, end, fuel, r);
    }
  }

  /** Operations that start on an empty type stack, as a block. */
  lemma CondEnded(s: Spot, st: CState, end: nat, tys: seq<TypeId>, d: S.Data, q: S.OpRes, c: M.Config, end2: nat, code: seq<Instr>, reach: bool)
    requires OpsEnded(s, end, [], tys, d, q, c)
    ensures !q.out.Normal? ==> Ended(s, st, end2, code, reach, d, S.Res(q.out, q.d), c)
    ensures q.out.Normal? ==>
      && c == At(s, end, q.d) && q.tys == tys
      && |q.d.params| == |d.params| + |tys| && q.d.params[..|d.params|] == d.params
      && |q.d.mem.storage| == |d.mem.storage| && Kept(d.mem, q.d.mem, |d.mem.storage|)
  {
    assert d.params[..|d.params|] == d.params;
  }

  /** One arm of a branch: a jump takes it to the end, or it stands there already. */
  lemma {:induction false} ArmRuns(p: Program, im: M.Image, s: Spot, st: CState, env: S.Env, t: Tree, pos: nat, d: S.Data, g: Gen,
      jump: bool, end: nat, fuel: nat, r: S.Res)
    returns (n: nat, e: M.Config)
    requires Built(p, im) && Ready(p, im, s, st, env, d) && TreeFits(t)
    requires g == GenTree(FuncCtx(p, s.fn), st, t, pos) && g.Emit?
    requires Laid(im.codes[s.fn], pos, Resolve(g.code, s.ends)) && pos + CodeLength(g.code) <= MAX_TARGET
    requires r == S.Exec(fuel, p, S.Act(s.fn, s.argBase), env, t, d)
    requires if jump then g.reach ==> Fetch(im.codes[s.fn], pos + CodeLength(g.code)) == Got(IJump(end), pos + CodeLength(g.code) + Length(IJump(end)))
             else end == pos + CodeLength(g.code)
    ensures Goes(im, At(s, pos, d), n, e)
    ensures Ended(s, st, end, g.code, g.reach, d, r, e)
    ensures r.out.Timeout? ==> n >= fuel
    decreases fuel, 2 * Size(t) + 1, 0
  {
    hide GenTree, Compiled, FuncBuilt, Laid, CodeLength, Goes, Resolve, HasExit, TreeFits, S.Exec, Kept, StateOk, EnvOk;
    n, e := TreeRuns(p, im, s, st, env, t, pos, d, g, fuel, r);
    if r.out.Normal? && jump {
      var e1 := e;
      JumpStep(im, e1, end);
      e := At(s, end, r.d);
      GoesOn(im, At(s, pos, d), n, e1, 1, e);
      n := n + 1;
    }
  }

  /** Where the parts of a branch lie. */
  lemma BranchLaid(bytes: seq<u8>, pos: nat, cc: seq<Instr>, y: Gen, end: nat, no: seq<Instr>, ends: seq<nat>)
    requires y.Emit?
    requires var code := BranchCode(cc, YesPos(pos, cc), NoPos(pos, cc, y), y.code, y.reach, end, no);
             Laid(bytes, pos, Resolve(code, ends))
    ensures Laid(bytes, pos, Resolve(cc, ends))
    ensures Fetch(bytes, pos + CodeLength(cc)) == Got(IBranchTop(YesPos(pos, cc), NoPos(pos, cc, y)), YesPos(pos, cc))
    ensures Laid(bytes, YesPos(pos, cc), Resolve(y.code, ends))
    ensures y.reach ==> Fetch(bytes, YesPos(pos, cc) + CodeLength(y.code)) == Got(IJump(end), NoPos(pos, cc, y))
    ensures Laid(bytes, NoPos(pos, cc, y), Resolve(no, ends))
    ensures var code := BranchCode(cc, YesPos(pos, cc), NoPos(pos, cc, y), y.code, y.reach, end, no);
            && pos + CodeLength(code) == NoPos(pos, cc, y) + CodeLength(no)
            && (forall n: nat :: ExitsIn(y.code, code, n) && ExitsIn(no, code, n))
  {
    hide Laid, CodeLength, Resolve, Fetch;
    var yesPos, noPos := YesPos(pos, cc), NoPos(pos, cc, y);
    var jump: seq<Instr> := if y.reach then [IJump(end)] else [];
    var top := IBranchTop(yesPos, noPos);
    SplitResolved(bytes, pos, cc, [top] + (y.code + (jump + no)), ends);
    FetchResolved(bytes, pos + CodeLength(cc), top, y.code + (jump + no), ends);
    SplitResolved(bytes, yesPos, y.code, jump + no, ends);
    if y.reach {
      FetchResolved(bytes, yesPos + CodeLength(y.code), IJump(end), no, ends);
    } else {
      assert [] + no == no;
    }
  }

  /** What a compiled pad is made of. */
  lemma PadShape(c: Ctx, st: CState, body: Tree, pad: Tree, pos: nat, g: Gen) returns (b: Gen, z: Gen, end: nat)
    requires g == GenPad(c, st, body, pad, pos) && g.Emit?
    ensures b == GenTree(c, st.(crash := st.crash + 1), body, BodyPos(pos)) && b.Emit?
    ensures z == GenTree(c, st, pad, PadPos(pos, b)) && z.Emit? && g.reach == b.reach
    ensures end == PadPos(pos, b) + CodeLength(z.code) + (if z.reach then Length(ICrash) else 0)
    ensures g.code == PadCode(PadPos(pos, b), b.code, b.reach, end, z.code, z.reach)
  {
    hide GenTree, CodeLength;
    b := GenTree(c, st.(crash := st.crash + 1), body, BodyPos(pos));
    z := GenTree(c, st, pad, PadPos(pos, b));
    end := PadPos(pos, b) + CodeLength(z.code) + (if z.reach then Length(ICrash) else 0);
  }

  lemma PadMeansThen(fuel: nat, p: Program, a: S.Act, env: S.Env, body: Tree, pad: Tree, d: S.Data, q: S.Res, r: S.Res)
    requires a.fn < |p.funcs| && q == S.Exec(fuel, p, a, env, body, d) && r == PadMeans(fuel, p, a, env, body, pad, d)
    ensures r == if !q.out.Crashed? then q else
      var h := S.Exec(fuel, p, a, env, pad, S.Restored(q.d, d));
      if h.out.Normal? then S.Res(S.Crashed, S.Crashing(h.d, VM_CRASH)) else h
  {
    hide S.Exec;
  }

  lemma {:induction false} PadRuns(p: Program, im: M.Image, s: Spot, st: CState, env: S.Env, body: Tree, pad: Tree, pos: nat, d: S.Data, g: Gen,
      fuel: nat, r: S.Res)
    returns (n: nat, e: M.Config)
    requires Built(p, im) && Ready(p, im, s, st, env, d) && TreeFits(body) && TreeFits(pad)
    requires g == GenPad(FuncCtx(p, s.fn), st, body, pad, pos) && g.Emit?
    requires Laid(im.codes[s.fn], pos, Resolve(g.code, s.ends)) && pos + CodeLength(g.code) <= MAX_TARGET
    requires r == PadMeans(fuel, p, S.Act(s.fn, s.argBase), env, body, pad, d)
    ensures Goes(im, At(s, pos, d), n, e)
    ensures Ended(s, st, pos + CodeLength(g.code), g.code, g.reach, d, r, e)
    ensures r.out.Timeout? ==> n >= fuel
    decreases fuel, 2 * (Size(body) + Size(pad)) + 1, 0
  {
    hide S.Exec, ExitsIn, GenTree, GenOps, Compiled, FuncBuilt, Laid, CodeLength, Goes, Resolve, HasExit, TreeFits, StateOk, EnvOk, OpenFrom, Kept, Fetch, GenPad, Ended, Ready, AtExit, Level, Built, FuncCtx, PadCode, BodyPos, Unwound, PadMeans;
    ReadyFacts(p, im, s, st, env, d);
    var a := S.Act(s.fn, s.argBase);
    var b, z, end := PadShape(FuncCtx(p, s.fn), st, body, pad, pos, g);
    var padPos := PadPos(pos, b);
    PadLaid(im.codes[s.fn], pos, b, end, z, s.ends);
    var mark := M.Pad(padPos, s.fn, |d.mem.storage|, |d.params|, s.argBase, |s.rets|);
    var q, m := S.Exec(fuel, p, a, env, body, d), 0;
    n, e := PadBegins(p, im, s, st, env, body, pos, mark, d, b, fuel, q);
    var e1 := e;
    PadMeansThen(fuel, p, a, env, body, pad, d, q, r);
    m, e := PadEnds(p, im, s, st, env, pad, BodyPos(pos) + CodeLength(b.code), padPos, mark, d, q, e1, b, z, end, g.code, fuel, r);
    GoesOn(im, At(s, pos, d), n, e1, m, e);
    n := n + m;
  }

  /** A pad is pushed, and its body runs. */
  lemma {:induction false} PadBegins(p: Program, im: M.Image, s: Spot, st: CState, env: S.Env, body: Tree, pos: nat, mark: M.Pad,
      d: S.Data, b: Gen, fuel: nat, q: S.Res)
    returns (n: nat, e: M.Config)
    requires Built(p, im) && Ready(p, im, s, st, env, d) && TreeFits(body)
    requires mark == M.Pad(mark.pc, s.fn, |d.mem.storage|, |d.params|, s.argBase, |s.rets|)
    requires Fetch(im.codes[s.fn], pos) == Got(IPushCrash(mark.pc), BodyPos(pos))
    requires b == GenTree(FuncCtx(p, s.fn), st.(crash := st.crash + 1), body, BodyPos(pos)) && b.Emit?
    requires Laid(im.codes[s.fn], BodyPos(pos), Resolve(b.code, s.ends)) && BodyPos(pos) + CodeLength(b.code) <= MAX_TARGET
    requires q == S.Exec(fuel, p, S.Act(s.fn, s.argBase), env, body, d)
    ensures Goes(im, At(s, pos, d), n, e)
    ensures Ended(s.(pads := s.pads + [mark]), st.(crash := st.crash + 1), BodyPos(pos) + CodeLength(b.code), b.code, b.reach, d, q, e)
    ensures q.out.Timeout? ==> n >= fuel
    decreases fuel, 2 * Size(body) + 1, 0
  {
    hide S.Exec, GenTree, Compiled, FuncBuilt, Laid, CodeLength, Goes, Resolve, TreeFits, Fetch, Ended, Ready;
    ReadyFacts(p, im, s, st, env, d);
    var s1 := s.(pads := s.pads + [mark]);
    var start := At(s1, BodyPos(pos), d);
    PushStep(im, At(s, pos, d), mark.pc);
    assert Goes(im, At(s, pos, d), 1, start);
    PadReady(p, im, s, st, env, d, mark);
    n, e := TreeRuns(p, im, s1, st.(crash := st.crash + 1), env, body, BodyPos(pos), d, b, fuel, q);
    GoesOn(im, At(s, pos, d), 1, start, n, e);
    n := 1 + n;
  }

  /** From the end of the body of a pad on. */
  lemma {:induction false} PadEnds(p: Program, im: M.Image, s: Spot, st: CState, env: S.Env, pad: Tree, pos: nat, padPos: nat, mark: M.Pad,
      d: S.Data, q: S.Res, c: M.Config, b: Gen, z: Gen, end: nat, code: seq<Instr>, fuel: nat, r: S.Res)
    returns (n: nat, e: M.Config)
    requires Built(p, im) && Ready(p, im, s, st, env, d) && TreeFits(pad) && b.Emit?
    requires mark == M.Pad(padPos, s.fn, |d.mem.storage|, |d.params|, s.argBase, |s.rets|)
    requires Ended(s.(pads := s.pads + [mark]), st.(crash := st.crash + 1), pos, b.code, b.reach, d, q, c)
    requires z == GenTree(FuncCtx(p, s.fn), st, pad, padPos) && z.Emit?
    requires Laid(im.codes[s.fn], padPos, Resolve(z.code, s.ends)) && padPos + CodeLength(z.code) <= MAX_TARGET
    requires b.reach ==>
      && Fetch(im.codes[s.fn], pos) == Got(IPopCrash, pos + Length(IPopCrash))
      && Fetch(im.codes[s.fn], pos + Length(IPopCrash)) == Got(IJump(end), pos + Length(IPopCrash) + Length(IJump(end)))
    requires z.reach ==> Fetch(im.codes[s.fn], padPos + CodeLength(z.code)) == Got(ICrash, padPos + CodeLength(z.code) + Length(ICrash))
    requires ExitsIn(b.code, code, |st.scopes|) && ExitsIn(z.code, code, |st.scopes|)
    requires r == if !q.out.Crashed? then q else
      var h := S.Exec(fuel, p, S.Act(s.fn, s.argBase), env, pad, S.Restored(q.d, d));
      if h.out.Normal? then S.Res(S.Crashed, S.Crashing(h.d, VM_CRASH)) else h
    ensures Goes(im, c, n, e)
    ensures Ended(s, st, end, code, b.reach, d, r, e)
    ensures r.out.Timeout? && q.out.Crashed? ==> n >= fuel
    decreases fuel, 2 * Size(pad) + 1, 1
  {
    hide S.Exec, GenTree, Compiled, FuncBuilt, Laid, CodeLength, Goes, Resolve, HasExit, ExitsIn, TreeFits, Kept, Fetch, Ended, Ready, Level, Unwound, StateOk;
    ReadyFacts(p, im, s, st, env, d);
    var s1, st1 := s.(pads := s.pads + [mark]), st.(crash := st.crash + 1);
    if q.out.Normal? {
      n, e := 2, At(s, end, q.d);
      EndedNormal(s1, st1, pos, b.code, b.reach, d, q, c);
      EndedNormal(s, st, end, code, b.reach, d, r, e);
      PadSkipped(im, s, mark, pos, end, q.d);
    } else if q.out.Crashed? {
      var d1 := S.Restored(q.d, d);
      EndedCrashed(s1, st1, pos, b.code, b.reach, d, q, c);
      PadTaken(im, s, mark, d, q.d, c);
      LevelReady(p, im, s, st, env, d, d1);
      LevelMeans(d, d1);
      n, e := HandlerRuns(p, im, s, st, env, pad, padPos, d1, z, fuel, S.Exec(fuel, p, S.Act(s.fn, s.argBase), env, pad, d1), r);
      GoesOn(im, c, 1, At(s, padPos, d1), n, e);
      n := 1 + n;
      EndedWider(s, st, padPos + CodeLength(z.code), z.code, false, d1, r, e, d, end, code, b.reach);
    } else {
      n, e := 0, c;
      GoesNowhere(im, c);
      PadPassed(s, s1, st, st1, pos, b.code, b.reach, d, q, e, mark, end, code, b.reach);
    }
  }

  /** Behind the body of a pad: the pad is popped and its handler jumped over. */
  lemma PadSkipped(im: M.Image, s: Spot, mark: M.Pad, pos: nat, end: nat, d: S.Data)
    requires s.fn < |im.codes|
    requires Fetch(im.codes[s.fn], pos) == Got(IPopCrash, pos + Length(IPopCrash))
    requires Fetch(im.codes[s.fn], pos + Length(IPopCrash)) == Got(IJump(end), pos + Length(IPopCrash) + Length(IJump(end)))
    ensures Goes(im, At(s.(pads := s.pads + [mark]), pos, d), 2, At(s, end, d))
  {
    var e1, e2 := At(s.(pads := s.pads + [mark]), pos, d), At(s, pos + Length(IPopCrash), d);
    assert e1.pads[..|e1.pads| - 1] == s.pads;
    PopStep(im, e1);
    JumpStep(im, e2, end);
    GoesOn(im, e1, 1, e2, 1, At(s, end, d));
  }

  /** A crash that finds the pad: its handler starts at the level of the pad. */
  lemma PadTaken(im: M.Image, s: Spot, mark: M.Pad, d: S.Data, q: S.Data, c: M.Config)
    requires mark.fn == s.fn && mark.argBase == s.argBase
    requires mark.storageLen == |d.mem.storage| && mark.paramLen == |d.params| && mark.retLen == |s.rets|
    requires Unwound(s.rets, s.pads + [mark], d, q, c)
    ensures Goes(im, c, 1, At(s, mark.pc, S.Restored(q, d))) && Level(d, S.Restored(q, d))
  {
    UnwindStep(im, c, mark);
    RestoredLevel(q, d);
    assert c.rets[..|s.rets|] == s.rets && c.pads[..|c.pads| - 1] == s.pads;
  }

  lemma PadReady(p: Program, im: M.Image, s: Spot, st: CState, env: S.Env, d: S.Data, mark: M.Pad)
    requires Ready(p, im, s, st, env, d)
    ensures Ready(p, im, s.(pads := s.pads + [mark]), st.(crash := st.crash + 1), env, d)
  {
  }

  /** Leaving the body of a pad by a break, or stopping there. */
  lemma PadPassed(s: Spot, s1: Spot, st: CState, st1: CState, end1: nat, code: seq<Instr>, reach1: bool, d: S.Data, r: S.Res, c: M.Config, mark: M.Pad,
                  end: nat, code2: seq<Instr>, reach: bool)
    requires s1 == s.(pads := s.pads + [mark]) && st1 == st.(crash := st.crash + 1) && StateOk(st) && |s.pads| == s.cb + st.crash
    requires Ended(s1, st1, end1, code, reach1, d, r, c) && !r.out.Normal? && !r.out.Crashed?
    requires ExitsIn(code, code2, |st.scopes|)
    ensures Ended(s, st, end, code2, reach, d, r, c)
  {
    if r.out.Leaving? {
      var j := |st.scopes| - r.out.level;
      assert s1.pads[..s.cb + st.scopes[j].crash] == s.pads[..s.cb + st.scopes[j].crash];
    }
  }

  /** The handler of a pad: when it reaches its end, the crash goes on. */
  lemma {:induction false} HandlerRuns(p: Program, im: M.Image, s: Spot, st: CState, env: S.Env, pad: Tree, pos: nat, d: S.Data, g: Gen,
      fuel: nat, q: S.Res, r: S.Res)
    returns (n: nat, e: M.Config)
    requires Built(p, im) && Ready(p, im, s, st, env, d) && TreeFits(pad)
    requires g == GenTree(FuncCtx(p, s.fn), st, pad, pos) && g.Emit?
    requires Laid(im.codes[s.fn], pos, Resolve(g.code, s.ends)) && pos + CodeLength(g.code) <= MAX_TARGET
    requires g.reach ==> Fetch(im.codes[s.fn], pos + CodeLength(g.code)) == Got(ICrash, pos + CodeLength(g.code) + Length(ICrash))
    requires q == S.Exec(fuel, p, S.Act(s.fn, s.argBase), env, pad, d)
    requires r == if q.out.Normal? then S.Res(S.Crashed, S.Crashing(q.d, VM_CRASH)) else q
    ensures Goes(im, At(s, pos, d), n, e)
    ensures !r.out.Normal? && Ended(s, st, pos + CodeLength(g.code), g.code, false, d, r, e)
    ensures r.out.Timeout? ==> n >= fuel
    decreases fuel, 2 * Size(pad) + 1, 0
  {
    hide GenTree, GenOps, Compiled, FuncBuilt, Laid, CodeLength, Goes, Resolve, HasExit, TreeFits, S.Exec;
    n, e := TreeRuns(p, im, s, st, env, pad, pos, d, g, fuel, q);
    if q.out.Normal? {
      var e1 := e;
      CrashStep(im, e1);
      e := M.ToCrash(Past(e1, ICrash), VM_CRASH);
      GoesOn(im, At(s, pos, d), n, e1, 1, e);
      n := n + 1;
    } else {
      EndedWider(s, st, pos + CodeLength(g.code), g.code, g.reach, d, q, e, d, pos + CodeLength(g.code), g.code, false);
    }
  }

  /** A crash gives the block's start back, up to stored values. */
  lemma RestoredLevel(e: S.Data, d: S.Data)
    requires d.params <= e.params && Kept(d.mem, e.mem, |d.mem.storage|)
    ensures Level(d, S.Restored(e, d)) && S.Restored(e, d).ans == e.ans
    ensures S.Restored(e, d).params == e.params[..|d.params|]
    ensures S.Restored(e, d).mem == e.mem.(storage := e.mem.storage[..|d.mem.storage|])
  {
  }

  /** Where the parts of a crash pad lie. */
  lemma PadLaid(bytes: seq<u8>, pos: nat, b: Gen, end: nat, q: Gen, ends: seq<nat>)
    requires b.Emit? && q.Emit?
    requires Laid(bytes, pos, Resolve(PadCode(PadPos(pos, b), b.code, b.reach, end, q.code, q.reach), ends))
    ensures Fetch(bytes, pos) == Got(IPushCrash(PadPos(pos, b)), BodyPos(pos))
    ensures Laid(bytes, BodyPos(pos), Resolve(b.code, ends))
    ensures b.reach ==>
      var at := BodyPos(pos) + CodeLength(b.code);
      && Fetch(bytes, at) == Got(IPopCrash, at + Length(IPopCrash))
      && Fetch(bytes, at + Length(IPopCrash)) == Got(IJump(end), PadPos(pos, b))
    ensures Laid(bytes, PadPos(pos, b), Resolve(q.code, ends))
    ensures q.reach ==>
      var at := PadPos(pos, b) + CodeLength(q.code);
      Fetch(bytes, at) == Got(ICrash, at + Length(ICrash))
    ensures var code := PadCode(PadPos(pos, b), b.code, b.reach, end, q.code, q.reach);
            && pos + CodeLength(code) == PadPos(pos, b) + CodeLength(q.code) + (if q.reach then Length(ICrash) else 0)
            && (forall n: nat :: ExitsIn(b.code, code, n) && ExitsIn(q.code, code, n))
  {
    hide Laid, CodeLength, Resolve, Fetch;
    var padPos := PadPos(pos, b);
    var tail: seq<Instr> := if q.reach then [ICrash] else [];
    var jump: seq<Instr> := if b.reach then [IPopCrash, IJump(end)] else [];
    FetchResolved(bytes, pos, IPushCrash(padPos), b.code + (jump + (q.code + tail)), ends);
    SplitResolved(bytes, BodyPos(pos), b.code, jump + (q.code + tail), ends);
    if b.reach {
      var at := BodyPos(pos) + CodeLength(b.code);
      assert jump + (q.code + tail) == [IPopCrash] + ([IJump(end)] + (q.code + tail));
      FetchResolved(bytes, at, IPopCrash, [IJump(end)] + (q.code + tail), ends);
      FetchResolved(bytes, at + Length(IPopCrash), IJump(end), q.code + tail, ends);
    } else {
      assert [] + (q.code + tail) == q.code + tail;
    }
    SplitResolved(bytes, padPos, q.code, tail, ends);
    if q.reach {
      FetchOne(bytes, padPos + CodeLength(q.code), ICrash, ends);
    } else {
      EmptyLength();
    }
  }

  lemma EmptyLength()
    ensures CodeLength([]) == 0
  {
  }
}
