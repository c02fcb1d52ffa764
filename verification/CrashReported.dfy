/** What becomes of a soft crash: it is re-raised by every pad it reaches, so that the run ends
    with its code, unless a pad breaks outward. Then, and only then, it is lost. */
module CrashReported {
  import opened Memory
  import opened Ir
  import opened Semantics
  import S = Semantics
  import Outcomes
  import opened Lowering
  import opened LoweringFacts
  import opened Cleanup
  import opened Instrument
  import M = Machine
  import opened CompilerCorrect
  import CrashUnwinding

  // ----- where a crash is swallowed -----

  /** Somewhere in the run of t a pad that handles a crash breaks outward. */
  ghost predicate Swallows(fuel: nat, p: Program, a: Act, env: Env, t: Tree, d: Data)
    requires a.fn < |p.funcs|
    decreases fuel, 2 * Size(t), 0
  {
    match t
    case Basic(ops) => OpsSwallow(fuel, p, a, env, ops, [], d)
    case Many(kids) => ChainSwallows(fuel, p, a, env, kids, d)
    case Branch(cond, yes, no) =>
      var (r, taken) := ExecCond(fuel, p, a, env, cond, d);
      || OpsSwallow(fuel, p, a, env, cond, [], d)
      || (r.out.Normal? && if taken then Swallows(fuel, p, a, env, yes, r.d) else Swallows(fuel, p, a, env, no, r.d))
    case Loop(body) => LoopSwallows(fuel, fuel, p, a, env, body, d)
    case Var(v, body) =>
      var f := p.funcs[a.fn];
      v < |f.vars| && f.vars[v] < |f.types| &&
      Swallows(fuel, p, a, env[v := |d.mem.storage|], body, Grow(d, f.types[f.vars[v]].size, Byte(0)))
    case CrashPad(body, pad) =>
      var r := Exec(fuel, p, a, env, body, d);
      || Swallows(fuel, p, a, env, body, d)
      || (r.out.Crashed? && (Exec(fuel, p, a, env, pad, Restored(r.d, d)).out.Leaving? || Swallows(fuel, p, a, env, pad, Restored(r.d, d))))
    case Defer(next, cleanup) =>
      var r := Exec(fuel, p, a, env, next, d);
      || Swallows(fuel, p, a, env, next, d)
      || ((r.out.Normal? || r.out.Leaving?) && Swallows(fuel, p, a, env, cleanup, r.d))
      || (r.out.Crashed? && Swallows(fuel, p, a, env, cleanup, Restored(r.d, d)))
    case _ => false
  }

  ghost predicate ChainSwallows(fuel: nat, p: Program, a: Act, env: Env, ch: Chain, d: Data)
    requires a.fn < |p.funcs|
    decreases fuel, 2 * ChainSize(ch), 0
  {
    ch.Link? &&
    var r := Exec(fuel, p, a, env, ch.cur, d);
    Swallows(fuel, p, a, env, ch.cur, d) || (r.out.Normal? && ChainSwallows(fuel, p, a, env, ch.rest, r.d))
  }

  ghost predicate LoopSwallows(k: nat, fuel: nat, p: Program, a: Act, env: Env, body: Tree, d: Data)
    requires a.fn < |p.funcs|
    decreases fuel, 2 * Size(body) + 1, k
  {
    k > 0 &&
    var r := Exec(fuel, p, a, env, body, d);
    Swallows(fuel, p, a, env, body, d) || (r.out.Normal? && LoopSwallows(k - 1, fuel, p, a, env, body, r.d))
  }

  ghost predicate OpsSwallow(fuel: nat, p: Program, a: Act, env: Env, ops: seq<Op>, tys: seq<TypeId>, d: Data)
    requires a.fn < |p.funcs|
    decreases fuel, 0, |ops| + 1
  {
    |ops| > 0 &&
    var r := if ops[0].Call? then CallOp(fuel, p, p.funcs[a.fn], ops[0].fn, tys, d)
             else SimpleOp(p, p.funcs[a.fn], a, env, ops[0], tys, d);
    || (ops[0].Call? && CallSwallows(fuel, p, ops[0].fn, tys, d))
    || (r.out.Normal? && OpsSwallow(fuel, p, a, env, ops[1..], r.tys, r.d))
  }

  ghost predicate CallSwallows(fuel: nat, p: Program, fn: nat, tys: seq<TypeId>, d: Data)
    decreases fuel, 0, 0
  {
    fn < |p.funcs| && ArgsFit(p.funcs[fn].sig, tys) && |d.params| >= |tys| && fuel > 0 && FuncSwallows(fuel - 1, p, fn, d)
  }

  ghost predicate FuncSwallows(fuel: nat, p: Program, fn: nat, d: Data)
    requires fn < |p.funcs| && Argc(p.funcs[fn].sig) <= |d.params|
    decreases fuel, 2 * Size(p.funcs[fn].body) + 1, 0
  {
    var f := p.funcs[fn];
    Swallows(fuel, p, Act(fn, |d.params| - Argc(f.sig)), map[], f.body, Grow(d, RETURN_SIZE, Saved))
  }

  // ----- the crash code -----

  /** What a run from d to e says about the crash code: once noted it stays, a crash has one,
      and a run that goes on has noted a new one just when it swallowed a crash. */
  ghost predicate Coded(swallowed: bool, d: Data, out: Outcome, e: Data) {
    && (d.ans != VM_OK ==> e.ans == d.ans)
    && (out.Crashed? ==> e.ans != VM_OK)
    && ((out.Normal? || out.Leaving?) && d.ans == VM_OK ==> (e.ans != VM_OK <==> swallowed))
  }

  lemma SimpleCoded(p: Program, f: Func, a: Act, env: Env, op: Op, tys: seq<TypeId>, d: Data)
    requires !op.Call?
    ensures var r := SimpleOp(p, f, a, env, op, tys, d); Coded(false, d, r.out, r.d)
  {
    hide OpValue, OpArray, OpSlice, Coded;
    if op.Assign? || op.Calc? || op.BitNot? {
      ValueCoded(f.types, op, tys, d);
    } else if op.ArrPush? || op.ArrAt? || op.ArrDrop? {
      ArrayCoded(f.types, op, tys, d);
    } else if op.SliceFromAr? || op.SliceFromOne? || op.SliceAt? || op.SliceInc? || op.SliceDec? {
      SliceCoded(f.types, op, tys, d);
    } else {
      OtherCoded(p, f, a, env, op, tys, d);
    }
  }

  lemma ValueCoded(types: seq<Type>, op: Op, tys: seq<TypeId>, d: Data)
    requires op.Assign? || op.Calc? || op.BitNot?
    ensures var r := OpValue(types, op, tys, d); Coded(false, d, r.out, r.d)
  {
    hide Load, Store, LoadNum, StoreNum, Compute;
  }

  lemma ArrayCoded(types: seq<Type>, op: Op, tys: seq<TypeId>, d: Data)
    requires op.ArrPush? || op.ArrAt? || op.ArrDrop?
    ensures var r := OpArray(types, op, tys, d); Coded(false, d, r.out, r.d)
  {
    hide Load, Store, LoadNum, LoadCount, StoreCount, PtrAdd, Elem;
  }

  lemma SliceCoded(types: seq<Type>, op: Op, tys: seq<TypeId>, d: Data)
    requires op.SliceFromAr? || op.SliceFromOne? || op.SliceAt? || op.SliceInc? || op.SliceDec?
    ensures var r := OpSlice(types, op, tys, d); Coded(false, d, r.out, r.d)
  {
    hide LoadNum, LoadCount, StoreCount, LoadPtr, StorePtr, PtrAdd, Elem;
  }

  lemma OtherCoded(p: Program, f: Func, a: Act, env: Env, op: Op, tys: seq<TypeId>, d: Data)
    requires op.Null? || op.CallNative? || op.Drop? || op.StructAt? || op.PushVar? || op.PushArg? || op.PushGlobal?
    ensures var r := SimpleOp(p, f, a, env, op, tys, d); Coded(false, d, r.out, r.d)
  {
    hide LoadFn, ArgsFit, SameShape, OpValue, OpArray, OpSlice;
  }

  lemma {:induction false} OpsCoded(fuel: nat, p: Program, a: Act, env: Env, ops: seq<Op>, tys: seq<TypeId>, d: Data)
    requires a.fn < |p.funcs|
    ensures var r := RunOps(fuel, p, a, env, ops, tys, d); Coded(OpsSwallow(fuel, p, a, env, ops, tys, d), d, r.out, r.d)
    decreases fuel, 0, |ops| + 1
  {
    hide SimpleOp, CallOp, CallSwallows;
    if |ops| > 0 {
      var r := if ops[0].Call? then CallOp(fuel, p, p.funcs[a.fn], ops[0].fn, tys, d)
               else SimpleOp(p, p.funcs[a.fn], a, env, ops[0], tys, d);
      if ops[0].Call? { CallCoded(fuel, p, a, ops[0].fn, tys, d); } else { SimpleCoded(p, p.funcs[a.fn], a, env, ops[0], tys, d); }
      if r.out.Normal? { OpsCoded(fuel, p, a, env, ops[1..], r.tys, r.d); }
    }
  }

  lemma {:induction false} CallCoded(fuel: nat, p: Program, a: Act, fn: nat, tys: seq<TypeId>, d: Data)
    requires a.fn < |p.funcs|
    ensures var r := CallOp(fuel, p, p.funcs[a.fn], fn, tys, d); Coded(CallSwallows(fuel, p, fn, tys, d), d, r.out, r.d)
    decreases fuel, 0, 0
  {
    hide RunFunc, FuncSwallows;
    if fn < |p.funcs| && ArgsFit(p.funcs[fn].sig, tys) && |d.params| >= |tys| && fuel > 0 { FuncCoded(fuel - 1, p, fn, d); }
  }

  /** A whole call. */
  lemma {:induction false} FuncCoded(fuel: nat, p: Program, fn: nat, d: Data)
    requires fn < |p.funcs| && Argc(p.funcs[fn].sig) <= |d.params|
    ensures var r := RunFunc(fuel, p, fn, d); Coded(FuncSwallows(fuel, p, fn, d), d, r.out, r.d)
    decreases fuel, 2 * Size(p.funcs[fn].body) + 1, 0
  {
    hide Exec, Swallows;
    var f := p.funcs[fn];
    TreeCoded(fuel, p, Act(fn, |d.params| - Argc(f.sig)), map[], f.body, Grow(d, RETURN_SIZE, Saved));
  }

  lemma {:induction false} TreeCoded(fuel: nat, p: Program, a: Act, env: Env, t: Tree, d: Data)
    requires a.fn < |p.funcs|
    ensures var r := Exec(fuel, p, a, env, t, d); Coded(Swallows(fuel, p, a, env, t, d), d, r.out, r.d)
    decreases fuel, 2 * Size(t), 0
  {
    hide RunOps, OpsSwallow, ExecChain, ChainSwallows, ExecLoop, LoopSwallows, LoadNum, DeferEnd;
    match t
    case Basic(ops) => OpsCoded(fuel, p, a, env, ops, [], d);
    case Many(kids) => ChainCoded(fuel, p, a, env, kids, d);
    case Branch(cond, yes, no) =>
      OpsCoded(fuel, p, a, env, cond, [], d);
      var (r, taken) := ExecCond(fuel, p, a, env, cond, d);
      if r.out.Normal? { TreeCoded(fuel, p, a, env, if taken then yes else no, r.d); }
    case Loop(body) => LoopCoded(fuel, fuel, p, a, env, body, d);
    case Var(v, body) =>
      var f := p.funcs[a.fn];
      if v < |f.vars| && f.vars[v] < |f.types| {
        TreeCoded(fuel, p, a, env[v := |d.mem.storage|], body, Grow(d, f.types[f.vars[v]].size, Byte(0)));
      }
    case CrashPad(body, pad) =>
      TreeCoded(fuel, p, a, env, body, d);
      TreeCoded(fuel, p, a, env, pad, Restored(Exec(fuel, p, a, env, body, d).d, d));
    case Defer(next, cleanup) => DeferCoded(fuel, p, a, env, next, cleanup, d);
    case _ =>
  }

  lemma {:induction false} DeferCoded(fuel: nat, p: Program, a: Act, env: Env, next: Tree, cleanup: Tree, d: Data)
    requires a.fn < |p.funcs|
    ensures var t := Defer(next, cleanup); var r := Exec(fuel, p, a, env, t, d); Coded(Swallows(fuel, p, a, env, t, d), d, r.out, r.d)
    decreases fuel, 2 * (Size(next) + Size(cleanup)) + 1, 0
  {
    var r := Exec(fuel, p, a, env, next, d);
    var start := if r.out.Crashed? then Restored(r.d, d) else r.d;
    DeferEnds(fuel, p, a, env, next, cleanup, d);
    DeferSwallows(fuel, p, a, env, next, cleanup, d);
    hide Exec, Swallows, Restored, Coded, DeferEnd;
    TreeCoded(fuel, p, a, env, next, d);
    TreeCoded(fuel, p, a, env, cleanup, start);
    assert start.ans == r.d.ans by { RestoredAns(r.d, d); }
    EndCoded(Swallows(fuel, p, a, env, next, d), Swallows(fuel, p, a, env, cleanup, start), d, r, start, Exec(fuel, p, a, env, cleanup, start), |d.mem.storage|);
  }

  lemma DeferSwallows(fuel: nat, p: Program, a: Act, env: Env, next: Tree, cleanup: Tree, d: Data)
    requires a.fn < |p.funcs|
    ensures var r := Exec(fuel, p, a, env, next, d);
      Swallows(fuel, p, a, env, Defer(next, cleanup), d) <==>
        || Swallows(fuel, p, a, env, next, d)
        || ((r.out.Normal? || r.out.Leaving? || r.out.Crashed?) &&
            Swallows(fuel, p, a, env, cleanup, if r.out.Crashed? then Restored(r.d, d) else r.d))
  {
    hide Exec, Restored;
  }

  lemma RestoredAns(d: Data, start: Data)
    ensures Restored(d, start).ans == d.ans
  {
  }

  lemma EndCoded(first: bool, second: bool, d: Data, r: Res, start: Data, c: Res, n: nat)
    requires Coded(first, d, r.out, r.d) && start.ans == r.d.ans && Coded(second, start, c.out, c.d)
    ensures var e := DeferEnd(r, c, n);
      Coded(first || ((r.out.Normal? || r.out.Leaving? || r.out.Crashed?) && second), d, e.out, e.d)
  {
  }

  lemma {:induction false} ChainCoded(fuel: nat, p: Program, a: Act, env: Env, ch: Chain, d: Data)
    requires a.fn < |p.funcs|
    ensures var r := ExecChain(fuel, p, a, env, ch, d); Coded(ChainSwallows(fuel, p, a, env, ch, d), d, r.out, r.d)
    decreases fuel, 2 * ChainSize(ch), 0
  {
    hide Exec, Swallows;
    if ch.Link? {
      TreeCoded(fuel, p, a, env, ch.cur, d);
      ChainCoded(fuel, p, a, env, ch.rest, Exec(fuel, p, a, env, ch.cur, d).d);
    }
  }

  lemma {:induction false} LoopCoded(k: nat, fuel: nat, p: Program, a: Act, env: Env, body: Tree, d: Data)
    requires a.fn < |p.funcs|
    ensures var r := ExecLoop(k, fuel, p, a, env, body, d); Coded(LoopSwallows(k, fuel, p, a, env, body, d), d, r.out, r.d)
    decreases fuel, 2 * Size(body) + 1, k
  {
    hide Exec, Swallows;
    if k > 0 {
      TreeCoded(fuel, p, a, env, body, d);
      LoopCoded(k - 1, fuel, p, a, env, body, Exec(fuel, p, a, env, body, d).d);
    }
  }

  // ----- pads that do not break outward -----

  /** No crash pad contains a break that leaves it. */
  predicate PadsClosed(t: Tree)
    decreases Size(t)
  {
    match t
    case Defer(next, cleanup) => PadsClosed(next) && PadsClosed(cleanup)
    case Many(kids) => ChainPadsClosed(kids)
    case CrashPad(body, pad) => Closed(pad) && PadsClosed(body) && PadsClosed(pad)
    case Branch(_, yes, no) => PadsClosed(yes) && PadsClosed(no)
    case Loop(body) => PadsClosed(body)
    case Var(_, body) => PadsClosed(body)
    case _ => true
  }

  predicate ChainPadsClosed(ch: Chain)
    decreases ChainSize(ch)
  {
    ch.Link? ==> PadsClosed(ch.cur) && ChainPadsClosed(ch.rest)
  }

  predicate ProgramPadsClosed(p: Program) { forall i :: 0 <= i < |p.funcs| ==> PadsClosed(p.funcs[i].body) }

  lemma {:induction false} ClosedSwallowsNothing(fuel: nat, p: Program, a: Act, env: Env, t: Tree, d: Data)
    requires a.fn < |p.funcs| && ProgramPadsClosed(p) && PadsClosed(t)
    ensures !Swallows(fuel, p, a, env, t, d)
    decreases fuel, 2 * Size(t), 0
  {
    hide Exec, OpsSwallow, ChainSwallows, LoopSwallows, ProgramPadsClosed;
    match t
    case Basic(ops) => OpsSwallowNothing(fuel, p, a, env, ops, [], d);
    case Many(kids) => ChainSwallowsNothing(fuel, p, a, env, kids, d);
    case Branch(cond, yes, no) =>
      OpsSwallowNothing(fuel, p, a, env, cond, [], d);
      var (r, _) := ExecCond(fuel, p, a, env, cond, d);
      ClosedSwallowsNothing(fuel, p, a, env, yes, r.d);
      ClosedSwallowsNothing(fuel, p, a, env, no, r.d);
    case Loop(body) => LoopSwallowsNothing(fuel, fuel, p, a, env, body, d);
    case Var(v, body) =>
      var f := p.funcs[a.fn];
      if v < |f.vars| && f.vars[v] < |f.types| {
        ClosedSwallowsNothing(fuel, p, a, env[v := |d.mem.storage|], body, Grow(d, f.types[f.vars[v]].size, Byte(0)));
      }
    case CrashPad(body, pad) =>
      ClosedSwallowsNothing(fuel, p, a, env, body, d);
      var e := Restored(Exec(fuel, p, a, env, body, d).d, d);
      ClosedSwallowsNothing(fuel, p, a, env, pad, e);
      ClosedNeverLeaves(fuel, p, a, env, pad, e);
    case Defer(next, cleanup) =>
      ClosedSwallowsNothing(fuel, p, a, env, next, d);
      var r := Exec(fuel, p, a, env, next, d);
      ClosedSwallowsNothing(fuel, p, a, env, cleanup, r.d);
      ClosedSwallowsNothing(fuel, p, a, env, cleanup, Restored(r.d, d));
    case _ =>
  }

  lemma {:induction false} ChainSwallowsNothing(fuel: nat, p: Program, a: Act, env: Env, ch: Chain, d: Data)
    requires a.fn < |p.funcs| && ProgramPadsClosed(p) && ChainPadsClosed(ch)
    ensures !ChainSwallows(fuel, p, a, env, ch, d)
    decreases fuel, 2 * ChainSize(ch), 0
  {
    hide Exec, Swallows, ProgramPadsClosed;
    if ch.Link? {
      ClosedSwallowsNothing(fuel, p, a, env, ch.cur, d);
      ChainSwallowsNothing(fuel, p, a, env, ch.rest, Exec(fuel, p, a, env, ch.cur, d).d);
    }
  }

  lemma {:induction false} LoopSwallowsNothing(k: nat, fuel: nat, p: Program, a: Act, env: Env, body: Tree, d: Data)
    requires a.fn < |p.funcs| && ProgramPadsClosed(p) && PadsClosed(body)
    ensures !LoopSwallows(k, fuel, p, a, env, body, d)
    decreases fuel, 2 * Size(body) + 1, k
  {
    hide Exec, Swallows, ProgramPadsClosed;
    if k > 0 {
      ClosedSwallowsNothing(fuel, p, a, env, body, d);
      LoopSwallowsNothing(k - 1, fuel, p, a, env, body, Exec(fuel, p, a, env, body, d).d);
    }
  }

  lemma {:induction false} OpsSwallowNothing(fuel: nat, p: Program, a: Act, env: Env, ops: seq<Op>, tys: seq<TypeId>, d: Data)
    requires a.fn < |p.funcs| && ProgramPadsClosed(p)
    ensures !OpsSwallow(fuel, p, a, env, ops, tys, d)
    decreases fuel, 0, |ops| + 1
  {
    hide SimpleOp, CallOp, ProgramPadsClosed;
    if |ops| > 0 {
      var r := if ops[0].Call? then CallOp(fuel, p, p.funcs[a.fn], ops[0].fn, tys, d)
               else SimpleOp(p, p.funcs[a.fn], a, env, ops[0], tys, d);
      if ops[0].Call? {
        var fn := ops[0].fn;
        if fn < |p.funcs| && ArgsFit(p.funcs[fn].sig, tys) && |d.params| >= |tys| && fuel > 0 { FuncSwallowsNothing(fuel - 1, p, fn, d); }
      }
      OpsSwallowNothing(fuel, p, a, env, ops[1..], r.tys, r.d);
    }
  }

  lemma {:induction false} FuncSwallowsNothing(fuel: nat, p: Program, fn: nat, d: Data)
    requires fn < |p.funcs| && Argc(p.funcs[fn].sig) <= |d.params| && ProgramPadsClosed(p)
    ensures !FuncSwallows(fuel, p, fn, d)
    decreases fuel, 2 * Size(p.funcs[fn].body) + 1, 0
  {
    var f := p.funcs[fn];
    ClosedSwallowsNothing(fuel, p, Act(fn, |d.params| - Argc(f.sig)), map[], f.body, Grow(d, RETURN_SIZE, Saved));
  }

  /** A pad that breaks outward swallows the crash it handles, whatever crashed: the run goes on
      behind it, with the code noted. Lowering never makes such a pad. */
  lemma BreakingPad(fuel: nat, p: Program, a: Act, env: Env, body: Tree, d: Data)
    requires a.fn < |p.funcs| && Exec(fuel, p, a, env, body, d).out.Crashed?
    ensures var t := Many(Link(CrashPad(body, Break(1)), End));
      && Exec(fuel, p, a, env, t, d).out.Normal? && Exec(fuel, p, a, env, t, d).d.ans == Exec(fuel, p, a, env, body, d).d.ans != VM_OK
      && Swallows(fuel, p, a, env, t, d) && !PadsClosed(t)
  {
    var pad := CrashPad(body, Break(1));
    var r := Exec(fuel, p, a, env, body, d);
    TreeCoded(fuel, p, a, env, body, d);
    assert Exec(fuel, p, a, env, Break(1), Restored(r.d, d)) == Res(Leaving(1), Restored(r.d, d));
    RestoredAns(r.d, d);
    assert Exec(fuel, p, a, env, pad, d) == Res(Leaving(1), Restored(r.d, d));
    assert ExecChain(fuel, p, a, env, Link(pad, End), d) == Res(Leaving(1), Restored(r.d, d));
    assert Swallows(fuel, p, a, env, pad, d);
    assert ChainSwallows(fuel, p, a, env, Link(pad, End), d);
    assert !ChainPadsClosed(Link(pad, End));
  }

  // ----- lowered programs -----

  /** The pending cleanups are closed, and so are the pads in them. */
  predicate EpisClosed(epis: seq<Epi>) {
    forall k :: 0 <= k < |epis| && epis[k].Pending? ==> Closed(epis[k].cleanup) && PadsClosed(epis[k].cleanup)
  }

  lemma {:induction false} InlinedClosed(epis: seq<Epi>, n: nat)
    requires EpisClosed(epis)
    ensures forall k :: 0 <= k < |Inlined(epis, n)| ==> Closed(Inlined(epis, n)[k]) && PadsClosed(Inlined(epis, n)[k])
  {
    hide PadsClosed, Escapes;
    if n > 0 && |epis| > 0 { InlinedClosed(epis[1..], n - 1); }
  }

  lemma {:induction false} SequenceClosed(cs: seq<Tree>, last: Tree, n: nat)
    requires forall k :: 0 <= k < |cs| ==> Closed(cs[k]) && PadsClosed(cs[k])
    requires PadsClosed(last) && Escapes(last, n)
    ensures ChainPadsClosed(Sequence(cs, last)) && ChainEscapes(Sequence(cs, last), n)
    decreases |cs|
  {
    if |cs| > 0 {
      EscapesMore(cs[0], 0, n);
      SequenceClosed(cs[1..], last, n);
    }
  }

  /** Lowering keeps breaks inside, and makes closed pads of closed cleanups. */
  lemma {:induction false} LoweredPads(t: Tree, epis: seq<Epi>, path: seq<Around>, n: nat)
    requires EpisClosed(epis) && Lowerable(t, path)
    ensures PadsClosed(Lower(t, epis))
    ensures Escapes(t, n) ==> Escapes(Lower(t, epis), n)
    decreases Size(t)
  {
    hide Reaches, PendingUses, Scopes;
    var below := [Nothing] + epis;
    match t
    case Defer(next, cleanup) => LoweredDefer(next, cleanup, epis, path, n);
    case Many(kids) => LoweredChainPads(kids, below, [InScope] + path, n + 1);
    case Branch(_, yes, no) => LoweredPads(yes, below, [InBranch] + path, n); LoweredPads(no, below, [InBranch] + path, n);
    case Loop(body) => LoweredPads(body, below, [InScope] + path, n + 1);
    case Var(_, body) => LoweredPads(body, below, [InScope] + path, n + 1);
    case Break(level) => LoweredBreak(level, below, n);
    case _ =>
  }

  lemma LoweredBreak(level: nat, epis: seq<Epi>, n: nat)
    requires EpisClosed(epis)
    ensures PadsClosed(BreakVia(Inlined(epis, level), level)) && (level <= n ==> Escapes(BreakVia(Inlined(epis, level), level), n))
  {
    InlinedClosed(epis, level);
    var m := if level <= n then n + 1 else level + 1;
    SequenceClosed(Inlined(epis, level), Break(level + 1), m);
  }

  lemma {:induction false} LoweredDefer(next: Tree, cleanup: Tree, epis: seq<Epi>, path: seq<Around>, n: nat)
    requires EpisClosed(epis) && Lowerable(Defer(next, cleanup), path)
    ensures PadsClosed(Lower(Defer(next, cleanup), epis))
    ensures Escapes(Defer(next, cleanup), n) ==> Escapes(Lower(Defer(next, cleanup), epis), n)
    decreases Size(next) + Size(cleanup)
  {
    var below := [Nothing] + epis;
    var c := Lower(cleanup, below);
    LoweredPads(cleanup, below, [], 0);
    LoweredPads(next, [Pending(c)] + epis, [InNext(cleanup)] + path, n + 1);
    EscapesMore(c, 0, n + 1);
    var b := Lower(next, [Pending(c)] + epis);
    hide Lower, Lowerable, Reaches;
    assert ChainPadsClosed(Link(c, End)) && ChainEscapes(Link(c, End), n + 1);
    assert PadsClosed(CrashPad(b, c)) && (Escapes(b, n + 1) ==> Escapes(CrashPad(b, c), n + 1));
    assert ChainPadsClosed(Link(CrashPad(b, c), Link(c, End)));
    assert Escapes(b, n + 1) ==> ChainEscapes(Link(CrashPad(b, c), Link(c, End)), n + 1);
    DeferLowered(next, cleanup, epis);
  }

  lemma DeferLowered(next: Tree, cleanup: Tree, epis: seq<Epi>)
    ensures var c := Lower(cleanup, [Nothing] + epis);
      Lower(Defer(next, cleanup), epis) == Many(Link(CrashPad(Lower(next, [Pending(c)] + epis), c), Link(c, End)))
  {
  }

  lemma {:induction false} LoweredChainPads(ch: Chain, epis: seq<Epi>, path: seq<Around>, n: nat)
    requires EpisClosed(epis) && ChainLowerable(ch, path)
    ensures ChainPadsClosed(LowerChain(ch, epis))
    ensures ChainEscapes(ch, n) ==> ChainEscapes(LowerChain(ch, epis), n)
    decreases ChainSize(ch)
  {
    if ch.Link? {
      LoweredPads(ch.cur, epis, path, n);
      LoweredChainPads(ch.rest, epis, path, n);
    }
  }

  /** No pad of a lowered program breaks outward. */
  lemma LoweredPadsClosed(p: Program)
    requires ProgramLowerable(p)
    ensures ProgramPadsClosed(LowerProgram(p))
  {
    hide PadsClosed, Lowerable, Lower;
    forall i | 0 <= i < |p.funcs| ensures PadsClosed(LowerProgram(p).funcs[i].body) { LoweredPads(p.funcs[i].body, [], [], 0); }
  }

  // ----- the machine -----

  /** The results that stop the machine without regard to crashes. */
  predicate Stopped(r: VmResult) {
    r.VM_HARD_CRASH? || r.UNDEFINED? || r.VM_NULL_GLOBAL? || r.VM_NULL_NATIVE_FUNC? || r.VM_INVALID_ARG?
  }

  lemma {:induction false} NotedStays(im: M.Image, c: M.Config, n: nat)
    requires c.ans != VM_OK
    ensures M.Steps(im, n, c).ans == c.ans
    decreases n
  {
    hide M.Step;
    if n > 0 {
      CrashUnwinding.CodeStays(im, c);
      NotedStays(im, M.Step(im, c), n - 1);
    }
  }

  /** When the machine halts on compiled code, it returns the code of the first crash, or a
      result that stops it at once, or VM_OK; and that in spite of a crash just when a pad
      that handled it broke outward. */
  lemma CrashIsReported(p: Program, im: M.Image, m: Mem, ps: seq<Ptr>, fn: nat, n: nat)
    requires Startable(p, im, fn, ps) && M.Steps(im, n, Begin(m, ps, fn)).mode.Halted?
    ensures var c := M.Steps(im, n, Begin(m, ps, fn));
      && (c.mode.r == VM_OK || c.mode.r == c.ans || Stopped(c.mode.r))
      && (c.mode.r == VM_OK ==> (c.ans != VM_OK <==> FuncSwallows(n + 1, p, fn, S.Data(m, ps, VM_OK, []))))
  {
    hide M.Steps, S.RunFunc, FuncSwallows, Startable;
    var d := S.Data(m, ps, VM_OK, []);
    StartFits(p, im, fn, ps);
    HaltsAsMeant(p, im, m, ps, fn, n);
    FuncCoded(n + 1, p, fn, d);
    Outcomes.FuncOrderly(false, n + 1, p, fn, d, S.RunFunc(n + 1, p, fn, d));
    HaltsWithCode(p, im, m, ps, fn, n);
  }

  lemma StartFits(p: Program, im: M.Image, fn: nat, ps: seq<Ptr>)
    requires Startable(p, im, fn, ps)
    ensures fn < |p.funcs| && Argc(p.funcs[fn].sig) == |ps|
  {
  }

  lemma HaltsWithCode(p: Program, im: M.Image, m: Mem, ps: seq<Ptr>, fn: nat, n: nat)
    requires Startable(p, im, fn, ps) && M.Steps(im, n, Begin(m, ps, fn)).mode.Halted?
    ensures var r := Meaning(n + 1, p, fn, m, ps); r.out.Normal? || r.out.Crashed? ==> M.Steps(im, n, Begin(m, ps, fn)).ans == r.d.ans
  {
    hide M.Steps, S.RunFunc, Startable;
    var k := CompiledRunsAlike(p, im, m, ps, fn, n + 1);
    if k >= n { StillHalted(im, Begin(m, ps, fn), n, k); } else { StillHalted(im, Begin(m, ps, fn), k, n); }
  }

  /** For programs with defers: once any step of the machine has noted a crash, the machine can
      only halt with the code of that crash, or with a result that stops it at once; it halts
      with VM_OK only if there never was a crash. */
  lemma LoweredCrashIsReported(p: Program, im: M.Image, m: Mem, ps: seq<Ptr>, fn: nat, i: nat, n: nat)
    requires ProgramLowerable(p) && Startable(LowerProgram(p), im, fn, ps)
    requires i <= n && M.Steps(im, n, Begin(m, ps, fn)).mode.Halted?
    ensures var b, c := M.Steps(im, i, Begin(m, ps, fn)), M.Steps(im, n, Begin(m, ps, fn));
      && (b.ans != VM_OK ==> c.mode.r == b.ans || Stopped(c.mode.r))
      && (c.mode.r == VM_OK ==> b.ans == VM_OK)
  {
    hide M.Steps, FuncSwallows, Startable;
    LoweredPadsClosed(p);
    StartFits(LowerProgram(p), im, fn, ps);
    CrashIsReported(LowerProgram(p), im, m, ps, fn, n);
    FuncSwallowsNothing(n + 1, LowerProgram(p), fn, S.Data(m, ps, VM_OK, []));
    var b := M.Steps(im, i, Begin(m, ps, fn));
    M.StepsAdd(im, i, n - i, Begin(m, ps, fn));
    if b.ans != VM_OK { NotedStays(im, b, n - i); }
  }
}
