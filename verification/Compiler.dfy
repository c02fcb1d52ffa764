/** The compiler as the program runs it: an object whose code buffer, type stack, variables,
    scopes, frame size and crash depth change as it walks over the block array. */
module Compiler {
  import opened Memory
  import opened Ir
  import opened Bytecode
  import opened FlatBlocks
  import opened Codegen
  import opened CodegenFacts
  import opened Patching
  import opened CompilerState

  class BlockCompiler {
    const ctx: Ctx
    const blocks: seq<Block>
    const ops: seq<Op>
    var code: seq<u8>
    var types: seq<TypeId>  // `params`: the types of what is on the parameter stack
    var vars: seq<Layout>
    var scopes: seq<Scope>
    var frame: int
    var crash: nat

    constructor (c: Ctx, bs: seq<Block>, os: seq<Op>)
      ensures ctx == c && blocks == bs && ops == os
      ensures Snap() == Snapshot([], [], NoVars(|c.f.vars|), [], 0, 0)
    {
      ctx, blocks, ops := c, bs, os;
      code, types, vars, scopes, frame, crash := [], [], NoVars(|c.f.vars|), [], 0, 0;
    }

    ghost function Snap(): Snapshot
      reads this
    {
      Snapshot(code, types, vars, scopes, frame, crash)
    }

    // ----- emitting -----

    method Emit(i: Instr, ghost s: Snapshot)
      requires Snap() == s && !i.IExit?
      modifies this`code
      ensures Snap() == After(s, [i], s.vars)
    {
      code := code + Encode(i);
      AfterOne(s, i);
    }

    method PatchOffset(at: nat, target: nat) returns (ok: bool)
      requires at + 2 <= |code|
      modifies this`code
      ensures ok == (target <= MAX_TARGET)
      ensures code == if ok then PatchAt(old(code), at, target) else old(code)
    {
      if target > MAX_TARGET { return false; }
      code := code[..at] + Digits(target, 2) + code[at + 2..];
      ok := true;
    }

    method PopTypes(n: nat) returns (ok: bool)
      modifies this`types
      ensures ok == (n <= |old(types)|)
      ensures types == if ok then old(types)[..|old(types)| - n] else old(types)
    {
      if |types| < n { return false; }
      types := types[..|types| - n];
      ok := true;
    }

    /** Whether the `top` lowest types end with the parameters of a signature. */
    method EndsWithSig(sig: Sig, top: nat) returns (same: bool)
      requires top <= |types|
      ensures same == EndsWith(types[..top], sig.outs + sig.ins)
    {
      if top < |sig.outs| + |sig.ins| { return false; }
      var start: nat := top - |sig.outs| - |sig.ins|;
      ghost var last, all := types[..top][start..], sig.outs + sig.ins;
      var i := 0;
      while i < |sig.outs|
        invariant i <= |sig.outs| && forall k :: 0 <= k < i ==> last[k] == all[k]
      {
        assert last[i] == types[start + i] && all[i] == sig.outs[i];
        if types[start + i] != sig.outs[i] { return false; }
        i := i + 1;
      }
      i := 0;
      while i < |sig.ins|
        invariant i <= |sig.ins| && forall k :: 0 <= k < |sig.outs| + i ==> last[k] == all[k]
      {
        ghost var at := |sig.outs| + i;
        assert last[at] == types[start + at] && all[at] == sig.ins[i];
        if types[start + |sig.outs| + i] != sig.ins[i] { return false; }
        i := i + 1;
      }
      assert last == all;
      return true;
    }

    method CompileFuncCall(fn: nat, ghost s: Snapshot) returns (ok: bool)
      requires Snap() == s
      modifies this
      ensures Stepped(s, GenCall(ctx, fn, s.types), Snap(), ok)
    {
      hide EncodeAll, Patched;
      if fn >= |ctx.p.funcs| || fn >= |ctx.done| || !ctx.done[fn] { return false; }
      var sig := ctx.p.funcs[fn].sig;
      ok := EndsWithSig(sig, |types|);
      assert types[..|types|] == types;
      if !ok { return; }
      Emit(ICall(fn + 1, Argc(sig)), s);
      ok := PopTypes(|sig.ins|);
    }

    method CompileNativeCall(ghost s: Snapshot) returns (ok: bool)
      requires Snap() == s
      modifies this
      ensures Stepped(s, GenNative(ctx, s.types), Snap(), ok)
    {
      hide EncodeAll, Patched;
      if |types| < 1 { return false; }
      var fn := types[|types| - 1];
      if fn >= |ctx.f.types| || !ctx.f.types[fn].kind.KNative? { return false; }
      var sig := ctx.f.types[fn].kind.sig;
      ok := EndsWithSig(sig, |types| - 1);
      if !ok { return; }
      Emit(ICallNative(|sig.ins|), s);
      ok := PopTypes(|sig.ins| + 1);
    }

    method CompilePush(op: Op, ghost s: Snapshot) returns (ok: bool)
      requires Snap() == s && frame >= 0 && (op.PushVar? || op.PushArg? || op.PushGlobal?)
      modifies this
      ensures Stepped(s, GenPush(ctx, s.vars, s.frame, op, s.types), Snap(), ok)
    {
      hide EncodeAll, Patched;
      var tid;
      match op {
        case PushVar(v) =>
          if v >= |ctx.f.vars| || v >= |vars| || !vars[v].live { return false; }
          tid := ctx.f.vars[v];
          Emit(IPushVar(vars[v].base - frame), s);
        case PushArg(i) =>
          if i >= |ctx.f.vars| || ctx.f.vars[i] >= |ctx.f.types| { return false; }
          tid := ctx.f.vars[i];
          Emit(IPushArg(i), s);
        case PushGlobal(g) =>
          if g >= |ctx.p.globals| || ctx.p.globals[g].tid >= |ctx.f.types| { return false; }
          tid := ctx.p.globals[g].tid;
          Emit(IPushGlobal(if ctx.p.globals[g].isNull then 0 else g + 1), s);
      }
      types := types + [tid];
      ok := true;
    }

    method CompileValue(op: Op, ghost s: Snapshot) returns (ok: bool)
      requires Snap() == s && (op.Assign? || op.Calc? || op.BitNot?)
      modifies this
      ensures Stepped(s, GenValue(ctx, op, s.types), Snap(), ok)
    {
      hide EncodeAll, Patched;
      match op {
        case Assign =>
          if |types| < 2 { return false; }
          var dst := types[|types| - 2];
          if dst != types[|types| - 1] || dst >= |ctx.f.types| { return false; }
          Emit(ICopy(Payload(ctx, dst)), s);
          ok := PopTypes(1);
        case Calc(a) =>
          if |types| < 2 || types[|types| - 2] != INT || types[|types| - 1] != INT { return false; }
          Emit(ICalc(a), s);
          ok := PopTypes(1);
        case BitNot =>
          if |types| < 1 || types[|types| - 1] != INT { return false; }
          Emit(IBitNot, s);
          ok := true;
      }
    }

    method CompileArray(op: Op, ghost s: Snapshot) returns (ok: bool)
      requires Snap() == s && (op.ArrPush? || op.ArrAt? || op.ArrDrop?)
      modifies this
      ensures Stepped(s, GenArray(ctx, op, s.types), Snap(), ok)
    {
      hide EncodeAll, Patched;
      if |types| < 2 { return false; }
      var arr, top := types[|types| - 2], types[|types| - 1];
      if arr >= |ctx.f.types| || !ctx.f.types[arr].kind.KArray? { return false; }
      var KArray(elem, capacity, dataOffset) := ctx.f.types[arr].kind;
      if elem >= |ctx.f.types| { return false; }
      match op {
        case ArrAt =>
          if top != INT { return false; }
          Emit(IArrAt(dataOffset, Payload(ctx, elem), capacity), s);
          ok := PopTypes(2);
          types := types + [elem];
        case ArrPush =>
          if top != elem { return false; }
          Emit(IArrPush(dataOffset, Payload(ctx, elem), capacity), s);
          ok := PopTypes(1);
        case ArrDrop =>
          if top != INT { return false; }
          Emit(IArrDrop, s);
          ok := PopTypes(1);
      }
    }

    method CompileSlice(op: Op, ghost s: Snapshot) returns (ok: bool)
      requires Snap() == s && (op.SliceFromAr? || op.SliceFromOne? || op.SliceAt? || op.SliceInc? || op.SliceDec?)
      modifies this
      ensures Stepped(s, GenSlice(ctx, op, s.types), Snap(), ok)
    {
      hide EncodeAll, Patched;
      if |types| < 2 { return false; }
      var tid, top := types[|types| - 2], types[|types| - 1];
      if tid >= |ctx.f.types| { return false; }
      var ref := ctx.f.types[tid].kind;
      if (!ref.KSlice? && !ref.KView?) || ref.elem >= |ctx.f.types| { return false; }
      var size := Payload(ctx, ref.elem);
      if op.SliceFromAr? {
        if top >= |ctx.f.types| || !ctx.f.types[top].kind.KArray? || ctx.f.types[top].kind.elem != ref.elem { return false; }
        Emit(ISliceFromArr(ctx.f.types[top].kind.dataOffset, size, SLICE_LEN_OFFSET), s);
      } else if op.SliceFromOne? {
        if !ref.KSlice? || top != ref.elem { return false; }
        Emit(ISliceFromOne(SLICE_LEN_OFFSET), s);
      } else if top != INT {
        return false;
      } else if op.SliceAt? {
        Emit(ISliceAt(size, SLICE_LEN_OFFSET), s);
        ok := PopTypes(2);
        types := types + [ref.elem];
        return;
      } else if !ref.KSlice? {
        return false;
      } else {
        Emit(if op.SliceInc? then ISliceInc(size, SLICE_LEN_OFFSET) else ISliceDec(size, SLICE_LEN_OFFSET), s);
      }
      ok := PopTypes(1);
    }

    method CompileField(field: nat, ghost s: Snapshot) returns (ok: bool)
      requires Snap() == s
      modifies this
      ensures Stepped(s, GenField(ctx, field, s.types), Snap(), ok)
    {
      hide EncodeAll, Patched;
      if |types| < 1 { return false; }
      var struct := types[|types| - 1];
      if struct >= |ctx.f.types| || !ctx.f.types[struct].kind.KStruct? { return false; }
      var fields := ctx.f.types[struct].kind.fields;
      if field >= |fields| || fields[field].tid >= |ctx.f.types| { return false; }
      Emit(IStructAt(fields[field].offset), s);
      types := types[|types| - 1 := fields[field].tid];
      ok := true;
    }

    /** One operation: its instruction is emitted and the type stack follows. */
    method CompileOp(op: Op, ghost s: Snapshot) returns (ok: bool)
      requires Snap() == s && frame >= 0
      modifies this
      ensures Stepped(s, GenOp(ctx, s.vars, s.frame, op, s.types), Snap(), ok)
    {
      hide EncodeAll, Patched, GenCall, GenNative, GenPush, GenValue, GenArray, GenSlice, GenField;
      if op.Null? {
        AfterNothing(s);
        ok := true;
      } else if op.Call? {
        ok := CompileFuncCall(op.fn, s);
      } else if op.CallNative? {
        ok := CompileNativeCall(s);
      } else if op.Drop? {
        ok := PopTypes(op.n);
        if ok { Emit(IDropN(op.n), s.(types := types)); }
      } else if op.StructAt? {
        ok := CompileField(op.field, s);
      } else if op.PushVar? || op.PushArg? || op.PushGlobal? {
        ok := CompilePush(op, s);
      } else if op.Assign? || op.Calc? || op.BitNot? {
        ok := CompileValue(op, s);
      } else if op.ArrPush? || op.ArrAt? || op.ArrDrop? {
        ok := CompileArray(op, s);
      } else {
        ok := CompileSlice(op, s);
      }
    }

    /** The operations of a range, one after the other. */
    method CompileOps(r: Range, ghost sel: seq<Op>, ghost s: Snapshot) returns (ok: bool)
      requires Snap() == s && frame >= 0 && types == [] && Selects(ops, r, sel)
      modifies this
      ensures var g := GenOps(ctx, s.vars, s.frame, sel, []);
        ok == g.OpEmit? && (ok ==> Snap() == After(s, g.code, s.vars).(types := g.tys))
    {
      ghost var acc: seq<Instr> := [];
      AfterNothing(s);
      var i := 0;
      while i < r.len
        invariant i <= r.len
        invariant Snap() == After(s, acc, s.vars).(types := types)
        invariant GenOps(ctx, s.vars, s.frame, sel, []) == Behind(acc, GenOps(ctx, s.vars, s.frame, sel[i..], types))
      {
        ghost var here := Snap();
        ghost var g := GenOp(ctx, s.vars, s.frame, sel[i], types);
        FirstOp(ctx, s.vars, s.frame, sel[i..], types, acc);
        ok := CompileOp(ops[r.start + i], here);
        if !ok { return; }
        AfterTyped(s, acc, here.types, g.code);
        assert sel[i..][1..] == sel[i + 1..];
        acc := acc + g.code;
        i := i + 1;
      }
      ok := true;
      assert sel[r.len..] == [];
      assert acc + [] == acc;
    }

    // ----- scopes -----

    method ScopePush(ghost s: Snapshot)
      requires Snap() == s && frame >= 0
      modifies this`scopes
      ensures Snap() == Opened(s)
    {
      scopes := scopes + [Scope([], frame, crash)];
    }

    /** The end of the innermost scope: its exits are patched, and it is closed. */
    method ScopeFinish(ghost s: Snapshot, ghost emitted: seq<Instr>) returns (ok: bool, hadPatches: bool)
      requires s.frame >= 0 && code == s.code + EncodeAll(emitted)
      requires scopes == Patched(Opened(s).scopes, emitted, |s.code|)
      modifies this`code, this`scopes
      ensures hadPatches == HasExit(emitted, |s.scopes|)
      ensures ok == !(hadPatches && |s.code| + CodeLength(emitted) > MAX_TARGET)
      ensures ok ==> code == s.code + EncodeAll(Finish(emitted, |s.scopes|, |s.code| + CodeLength(emitted)))
      ensures ok ==> scopes == Patched(s.scopes, Finish(emitted, |s.scopes|, |s.code| + CodeLength(emitted)), |s.code|)
    {
      hide Patched, Exits, EncodeAll, CodeLength, PatchAll;
      ghost var n, was := |s.scopes|, code;
      TopPatches(s.scopes, Scope([], s.frame, s.crash), emitted, |s.code|);
      NoExits(emitted, n, |s.code|);
      ExitsInRange(emitted, n, |s.code|);
      var target := |code|;
      var patches := scopes[|scopes| - 1].patches;
      hadPatches := |patches| != 0;
      var i := 0;
      PatchNone(code, patches, target);
      while i < |patches|
        invariant i <= |patches| && |code| == target && scopes == old(scopes)
        invariant i > 0 ==> target <= MAX_TARGET
        invariant PatchAll(code, patches[i..], target) == PatchAll(was, patches, target)
      {
        PatchNext(code, patches, i, target);
        ok := PatchOffset(patches[i], target);
        if !ok { return; }
        i := i + 1;
      }
      PatchDone(code, patches, target);
      PatchAllFinishes(s.code, emitted, n, target);
      FinishedPatches(s.scopes, emitted, target, |s.code|);
      scopes := scopes[..|scopes| - 1];
      ok := true;
    }

    // ----- blocks -----

    method CompileBasic(r: Range, ghost sel: seq<Op>, ghost s: Snapshot, ghost g: Gen) returns (res: CompileResult)
      requires Snap() == s && s.types == [] && s.frame >= 0 && Selects(ops, r, sel)
      requires g == GenBasic(ctx, StateOf(s), sel)
      modifies this
      ensures Compiles(s, g, Snap(), res)
    {
      hide GenOps, EncodeAll, Patched;
      ghost var o := GenOps(ctx, s.vars, s.frame, sel, []);
      var ok := CompileOps(r, sel, s);
      if !ok { return COMPILE_FAIL; }
      var extra := |types|;
      if extra > 0 {
        AfterTyped(s, o.code, types, [IDropN(extra)]);
        Emit(IDropN(extra), Snap());
        ok := PopTypes(extra);
      } else {
        assert o.code + [] == o.code;
      }
      res := COMPILE_REACHABLE;
    }

    method CompileBreak(level: nat, ghost s: Snapshot, ghost g: Gen) returns (res: CompileResult)
      requires Snap() == s && s.frame >= 0 && g == GenBreak(StateOf(s), level)
      modifies this`code, this`scopes
      ensures Compiles(s, g, Snap(), res)
    {
      hide EncodeAll, Patched, Exits, Encode, PopPads, Infos;
      InfosAt(scopes);
      if level == 0 || level > |scopes| { return COMPILE_FAIL; }
      var at := |scopes| - level;
      var target := scopes[at];
      ghost var pops := EmitPops(target.crash, s);
      ghost var here := Snap();
      var cleanup := target.frame - frame;
      ghost var cut: seq<Instr> := if cleanup != 0 then [IStorageAdd(cleanup)] else [];
      if cleanup != 0 {
        Emit(IStorageAdd(cleanup), here);
      } else {
        AfterNothing(here);
      }
      AfterAfter(s, pops, s.vars, cut, s.vars);
      here := Snap();
      code := code + Encode(IExit(at));
      scopes := scopes[at := scopes[at].(patches := scopes[at].patches + [|code| - 2])];
      AfterExit(here, at);
      AfterAfter(s, pops + cut, s.vars, [IExit(at)], s.vars);
      BreakParts(pops, cut, IExit(at), g.code);
      res := COMPILE_UNREACHABLE;
    }

    /** The pads above a depth are popped, the newest first. */
    method EmitPops(depth: nat, ghost s: Snapshot) returns (ghost pops: seq<Instr>)
      requires Snap() == s
      modifies this`code
      ensures pops == (if s.crash > depth then PopPads(s.crash - depth) else []) && Snap() == After(s, pops, s.vars)
    {
      hide EncodeAll, Patched;
      pops := [];
      AfterNothing(s);
      var i := crash;
      while i > depth
        invariant i <= crash && (i >= depth || i == crash)
        invariant pops == PopPads(crash - i) && Snap() == After(s, pops, s.vars)
      {
        Emit(IPopCrash, Snap());
        AfterAfter(s, pops, s.vars, [IPopCrash], s.vars);
        pops := pops + [IPopCrash];
        i := i - 1;
      }
    }

    method CompileMany(cur: nat, next: nat, ghost kids: Chain, ghost s: Snapshot, ghost g: Gen) returns (res: CompileResult)
      requires Snap() == s && s.types == [] && 0 <= s.frame <= MAX_FRAME && RepKids(blocks, ops, cur, next, kids)
      requires g == CloseMany(StateOf(s), GenChain(ctx, Inside(StateOf(s)), kids, |s.code|), |s.code|)
      modifies this
      ensures Compiles(s, g, Snap(), res)
      decreases ChainSize(kids), 1
    {
      hide GenChain, GenTree, EncodeAll, Patched, CodeLength, Infos, Close, Rest, Rep;
      ScopePush(s);
      ghost var o, inner := Opened(s), Inside(StateOf(s));
      OpenedState(s);
      AfterNothing(o);
      ghost var acc: seq<Instr>, ch := [], kids;
      RestAll(ctx, inner, kids, |s.code|);
      res := COMPILE_REACHABLE;
      var child: nat, chain: nat := cur, next;
      while child != INVALID
        invariant Snap() == After(o, acc, vars) && res != COMPILE_FAIL
        invariant RepKids(blocks, ops, child, chain, ch) && ChainSize(ch) <= ChainSize(kids)
        invariant GenChain(ctx, inner, kids, |s.code|) == Rest(ctx, inner.(vars := vars), acc, res.COMPILE_REACHABLE?, ch, |s.code|)
        decreases ChainSize(ch)
      {
        RestStep(ctx, inner.(vars := vars), acc, res.COMPILE_REACHABLE?, ch.cur, ch.rest, |s.code|);
        if res != COMPILE_UNREACHABLE {
          ghost var here := Snap();
          StateAfter(o, acc, vars);
          ghost var h := GenTree(ctx, StateOf(here), ch.cur, |code|);
          res := CompileBlock(child, ch.cur, here, h);
          if res == COMPILE_FAIL { return; }
          AfterAfter(o, acc, here.vars, h.code, h.vars);
          acc := acc + h.code;
        }
        ch := ch.rest;
        if chain == INVALID { break; }
        RestBad(ctx, inner.(vars := vars), acc, res.COMPILE_REACHABLE?, |s.code|);
        if chain >= |blocks| { return COMPILE_FAIL; }
        var link := blocks[chain];
        if !link.BChain? { return COMPILE_FAIL; }
        child, chain := link.cur, link.next;
      }
      assert ch == End;
      RestEnd(ctx, inner.(vars := vars), acc, res.COMPILE_REACHABLE?, |s.code|);
      var ok, hadBreaks := ScopeFinish(s, acc);
      CloseMeans(StateOf(s), acc, |s.code|, res.COMPILE_REACHABLE?, vars);
      if !ok { return COMPILE_FAIL; }
      res := if res.COMPILE_REACHABLE? || hadBreaks then COMPILE_REACHABLE else COMPILE_UNREACHABLE;
    }

    method CompileLoop(body: nat, ghost t: Tree, ghost s: Snapshot, ghost g: Gen) returns (res: CompileResult)
      requires Snap() == s && s.types == [] && 0 <= s.frame <= MAX_FRAME && Rep(blocks, ops, body, t)
      requires g == CloseLoop(StateOf(s), GenTree(ctx, Inside(StateOf(s)), t, |s.code|), |s.code|)
      modifies this
      ensures Compiles(s, g, Snap(), res)
      decreases Size(t), 1
    {
      hide GenTree, EncodeAll, Patched, CodeLength, Infos, Close, Rep;
      var start, head := |code|, vars;
      ScopePush(s);
      ghost var o := Opened(s);
      OpenedState(s);
      ghost var b := GenTree(ctx, Inside(StateOf(s)), t, |s.code|);
      res := CompileBlock(body, t, o, b);
      if res == COMPILE_FAIL { return; }
      ghost var emitted := LoopCode(b.code, b.reach, |s.code|);
      if res == COMPILE_REACHABLE {
        if vars != head { return COMPILE_FAIL; }
        Emit(IJump(start % TWO16), Snap());
        AfterAfter(o, b.code, b.vars, [IJump(start % TWO16)], b.vars);
      } else {
        assert b.code + [] == b.code;
      }
      var ok, hadBreaks := ScopeFinish(s, emitted);
      CloseMeans(StateOf(s), emitted, |s.code|, false, head);
      if !ok { return COMPILE_FAIL; }
      vars := head;
      res := if hadBreaks then COMPILE_REACHABLE else COMPILE_UNREACHABLE;
    }

    method CompileVar(v: nat, body: nat, ghost t: Tree, ghost s: Snapshot, ghost g: Gen) returns (res: CompileResult)
      requires Snap() == s && s.types == [] && 0 <= s.frame <= MAX_FRAME && Rep(blocks, ops, body, t)
      requires g == GenVar(ctx, StateOf(s), v, t, |s.code|)
      modifies this
      ensures Compiles(s, g, Snap(), res)
      decreases Size(t), 2
    {
      hide GenTree, EncodeAll, Patched, CodeLength, Infos, CloseVar, Rep, Length;
      if v >= |ctx.f.vars| || v >= |vars| || ctx.f.vars[v] >= |ctx.f.types| { return COMPILE_FAIL; }
      var oldFrame, size := frame, ctx.f.types[ctx.f.vars[v]].size;
      if size > MAX_FRAME { return COMPILE_FAIL; }
      ScopePush(s);
      OpenedState(s);
      vars := vars[v := Layout(frame, true)];
      ghost var o := Snap();
      Emit(IStorageAdd(size), o);
      frame := Narrow(frame + size);
      NarrowMeans(s.frame + size);
      if frame < 0 { return COMPILE_FAIL; }
      EncodeOne(IStorageAdd(size));
      StateAfter(o, [IStorageAdd(size)], o.vars);
      res := CompileInVar(v, size, oldFrame, body, t, s, o, g);
    }

    /** The body of a VAR block, and the end of its scope. */
    method CompileInVar(v: nat, size: nat, oldFrame: int, body: nat, ghost t: Tree, ghost s: Snapshot, ghost o: Snapshot, ghost g: Gen)
      returns (res: CompileResult)
      requires s.types == [] && 0 <= s.frame == oldFrame && s.frame + size <= MAX_FRAME && Rep(blocks, ops, body, t)
      requires v < |ctx.f.vars| && v < |s.vars| && ctx.f.vars[v] < |ctx.f.types| && size == VarSize(ctx, v)
      requires o == Opened(s).(vars := s.vars[v := Layout(s.frame, true)])
      requires Snap() == After(o, [IStorageAdd(size)], o.vars).(frame := s.frame + size)
      requires StateOf(Snap()) == VarState(ctx, StateOf(s), v)
      requires |Snap().code| == |s.code| + Length(IStorageAdd(size))
      requires g == CloseVar(StateOf(s), v, size, GenTree(ctx, VarState(ctx, StateOf(s), v), t, |s.code| + Length(IStorageAdd(size))), |s.code|)
      modifies this
      ensures Compiles(s, g, Snap(), res)
      decreases Size(t), 1
    {
      hide GenTree, EncodeAll, Patched, CodeLength, Infos, Close, Rep, Length, Finish, Encode, VarState, StateOf;
      ghost var here := Snap();
      ghost var b := GenTree(ctx, StateOf(here), t, |here.code|);
      res := CompileBlock(body, t, here, b);
      if res == COMPILE_FAIL { return; }
      ghost var tail: seq<Instr> := if b.reach then [IStorageAdd(-(size as int))] else [];
      if res == COMPILE_REACHABLE {
        Emit(IStorageAdd(-(size as int)), Snap());
        AfterAfter(here, b.code, b.vars, tail, b.vars);
        vars := Dead(vars, v);
        frame := frame - size;
      } else {
        assert b.code + [] == b.code;
      }
      DepthsApart(o, s.frame + size, o.crash, [IStorageAdd(size)], b.code + tail, b.vars);
      ghost var emitted := VarCode(size, b.code, b.reach);
      var ok, hadBreaks := ScopeFinish(s, emitted);
      if !ok {
        CloseFails(s, emitted, b.reach, Dead(b.vars, v), Snap());
        return COMPILE_FAIL;
      }
      vars, frame := Dead(vars, v), oldFrame;
      DeadTwice(b.vars, v);
      CloseCompiles(s, emitted, b.reach, Dead(b.vars, v), Snap());
      res := if res.COMPILE_REACHABLE? || hadBreaks then COMPILE_REACHABLE else COMPILE_UNREACHABLE;
    }

    /** The condition of a branch and its BRANCH_TOP, whose first target is the next byte. */
    method CompileCond(r: Range, ghost sel: seq<Op>, ghost s: Snapshot) returns (ok: bool, ghost cc: seq<Instr>)
      requires Snap() == s && s.types == [] && s.frame >= 0 && Selects(ops, r, sel)
      modifies this
      ensures ok ==> GenOps(ctx, s.vars, s.frame, sel, []) == OpEmit(cc, [INT]) && YesPos(|s.code|, cc) <= MAX_TARGET
      ensures ok ==> Snap() == After(s, cc + [IBranchTop(YesPos(|s.code|, cc), 0)], s.vars)
      ensures !ok ==> var o := GenOps(ctx, s.vars, s.frame, sel, []);
        o.OpFail? || o.tys != [INT] || YesPos(|s.code|, o.code) > MAX_TARGET
    {
      hide GenOps, EncodeAll, Patched, CodeLength, Encode, PatchAt;
      ghost var o := GenOps(ctx, s.vars, s.frame, sel, []);
      cc := [];
      if r.start > |ops| || r.len > |ops| - r.start { return false, cc; }
      ok := CompileOps(r, sel, s);
      if !ok { return; }
      if |types| != 1 || types[0] != INT { return false, cc; }
      cc := o.code;
      AfterTyped(s, cc, types, [IBranchTop(0, 0)]);
      Emit(IBranchTop(0, 0), Snap());
      ok := PopTypes(1);
      StateAfter(s, cc + [IBranchTop(0, 0)], s.vars);
      LengthConcat(cc, [IBranchTop(0, 0)]);
      EncodeOne(IBranchTop(0, 0));
      var yesPatch := |code| - 4;
      ok := PatchOffset(yesPatch, |code|);
      if ok {
        PatchYes(0, 0, |code|);
        assert [IBranchTop(0, 0)] + [] == [IBranchTop(0, 0)] && [IBranchTop(|code|, 0)] + [] == [IBranchTop(|code|, 0)];
        PatchAfter(s, cc, IBranchTop(0, 0), IBranchTop(|code|, 0), [], s.vars, 1, |code|);
      }
    }

    method CompileBranch(r: Range, yes: nat, no: nat, ghost sel: seq<Op>, ghost ty: Tree, ghost tn: Tree, ghost s: Snapshot, ghost g: Gen)
      returns (res: CompileResult)
      requires Snap() == s && s.types == [] && 0 <= s.frame <= MAX_FRAME && Selects(ops, r, sel)
      requires Rep(blocks, ops, yes, ty) && Rep(blocks, ops, no, tn)
      requires g == GenBranch(ctx, StateOf(s), sel, ty, tn, |s.code|)
      modifies this
      ensures Compiles(s, g, Snap(), res)
      decreases Size(ty) + Size(tn), 2
    {
      hide GenTree, GenOps, EncodeAll, Patched, CodeLength, Infos, Rep, BranchCode, Encode, PatchAt;
      var before := vars;
      ghost var cc;
      var ok;
      ok, cc := CompileCond(r, sel, s);
      if !ok {
        LateYes(|s.code|, ctx, StateOf(s), sel, ty, tn, g);
        return COMPILE_FAIL;
      }
      var noPatch := |code| - 2;
      ghost var top := IBranchTop(YesPos(|s.code|, cc), 0);
      ghost var here := Snap();
      StateAfter(s, cc + [top], s.vars);
      LengthConcat(cc, [top]);
      EncodeOne(top);
      ghost var y := GenTree(ctx, StateOf(s), ty, YesPos(|s.code|, cc));
      res := CompileBlock(yes, ty, here, y);
      if res == COMPILE_FAIL { return; }
      AfterAfter(s, cc + [top], s.vars, y.code, y.vars);
      assert (cc + [top]) + y.code == cc + ([top] + y.code);
      res := CompileElse(noPatch, before, res, no, cc, y, tn, s, g);
    }

    /** The second arm of a branch, from the end of the first. */
    method CompileElse(noPatch: nat, before: seq<Layout>, yesRes: CompileResult, no: nat,
                       ghost cc: seq<Instr>, ghost y: Gen, ghost tn: Tree, ghost s: Snapshot, ghost g: Gen)
      returns (res: CompileResult)
      requires s.types == [] && 0 <= s.frame <= MAX_FRAME && before == s.vars && Rep(blocks, ops, no, tn) && y.Emit?
      requires yesRes == (if y.reach then COMPILE_REACHABLE else COMPILE_UNREACHABLE)
      requires YesPos(|s.code|, cc) <= MAX_TARGET && noPatch == |s.code| + CodeLength(cc) + 3
      requires Snap() == After(s, cc + ([IBranchTop(YesPos(|s.code|, cc), 0)] + y.code), y.vars)
      requires g == JoinBranch(|s.code|, cc, y, GenTree(ctx, StateOf(s), tn, NoPos(|s.code|, cc, y)))
      modifies this
      ensures Compiles(s, g, Snap(), res)
      decreases Size(tn), 2
    {
      hide GenTree, EncodeAll, Patched, CodeLength, Infos, Rep, Encode, PatchAt, JoinBranch;
      var yesVars, endPatch := vars, 0;
      ghost var yesPos := YesPos(|s.code|, cc);
      ghost var jump: seq<Instr> := if y.reach then [IJump(0)] else [];
      ghost var rest := y.code + jump;
      BranchLengths(|s.code|, cc, yesPos, 0, y);
      if yesRes == COMPILE_REACHABLE {
        ghost var here := Snap();
        Emit(IJump(0), here);
        endPatch := |code| - 2;
        AfterAfter(s, cc + ([IBranchTop(yesPos, 0)] + y.code), y.vars, jump, y.vars);
      } else {
        assert y.code + [] == y.code;
      }
      assert (cc + ([IBranchTop(yesPos, 0)] + y.code)) + jump == cc + ([IBranchTop(yesPos, 0)] + rest);
      vars := before;
      StateAfter(s, cc + ([IBranchTop(yesPos, 0)] + rest), s.vars);
      ghost var noPos := |code|;
      var ok := PatchOffset(noPatch, |code|);
      if !ok {
        LateNo(|s.code|, cc, y, GenTree(ctx, StateOf(s), tn, noPos));
        return COMPILE_FAIL;
      }
      PatchNo(yesPos, 0, noPos);
      PatchAfter(s, cc, IBranchTop(yesPos, 0), IBranchTop(yesPos, noPos), rest, s.vars, 3, noPos);
      res := CompileNo(endPatch, yesVars, yesRes, no, cc, y, tn, s, g);
    }

    /** The second arm itself, and the end of the branch. */
    method CompileNo(endPatch: nat, yesVars: seq<Layout>, yesRes: CompileResult, no: nat,
                     ghost cc: seq<Instr>, ghost y: Gen, ghost tn: Tree, ghost s: Snapshot, ghost g: Gen)
      returns (res: CompileResult)
      requires s.types == [] && 0 <= s.frame <= MAX_FRAME && Rep(blocks, ops, no, tn) && y.Emit? && yesVars == y.vars
      requires yesRes == (if y.reach then COMPILE_REACHABLE else COMPILE_UNREACHABLE)
      requires YesPos(|s.code|, cc) <= MAX_TARGET && NoPos(|s.code|, cc, y) <= MAX_TARGET
      requires y.reach ==> endPatch == YesPos(|s.code|, cc) + CodeLength(y.code) + 1
      requires var jump: seq<Instr> := if y.reach then [IJump(0)] else [];
        Snap() == After(s, cc + ([IBranchTop(YesPos(|s.code|, cc), NoPos(|s.code|, cc, y))] + (y.code + jump)), s.vars)
      requires g == JoinBranch(|s.code|, cc, y, GenTree(ctx, StateOf(s), tn, NoPos(|s.code|, cc, y)))
      modifies this
      ensures Compiles(s, g, Snap(), res)
      decreases Size(tn), 1
    {
      hide GenTree, EncodeAll, Patched, CodeLength, Infos, Rep, Encode, PatchAt, JoinBranch, BranchCode;
      ghost var yesPos, noPos := YesPos(|s.code|, cc), NoPos(|s.code|, cc, y);
      ghost var top := IBranchTop(yesPos, noPos);
      ghost var jump: seq<Instr> := if y.reach then [IJump(0)] else [];
      ghost var all := cc + ([top] + (y.code + jump));
      BranchLengths(|s.code|, cc, yesPos, noPos, y);
      StateAfter(s, all, s.vars);
      ghost var z := GenTree(ctx, StateOf(s), tn, noPos);
      res := CompileBlock(no, tn, Snap(), z);
      if res == COMPILE_FAIL {
        LateNo(|s.code|, cc, y, z);
        return;
      }
      AfterAfter(s, all, s.vars, z.code, z.vars);
      StateAfter(s, all + z.code, z.vars);
      LengthConcat(all, z.code);
      JoinMeans(|s.code|, cc, y, z, noPos, |code|, g);
      if yesRes == COMPILE_REACHABLE {
        ghost var end := |code|;
        BranchAssoc(cc, top, y.code, IJump(0), z.code);
        var ok := PatchOffset(endPatch, |code|);
        if !ok { return COMPILE_FAIL; }
        PatchJump(IJump(0), end);
        PatchAfter(s, cc + ([top] + y.code), IJump(0), IJump(end), z.code, z.vars, 1, end);
        BranchAssoc(cc, top, y.code, IJump(end), z.code);
        BranchCodeIs(cc, yesPos, noPos, y.code, true, end, z.code);
      } else {
        BranchCodeIs(cc, yesPos, noPos, y.code, false, |code|, z.code);
      }
      if yesRes == COMPILE_REACHABLE && res == COMPILE_REACHABLE {
        if vars != yesVars { return COMPILE_FAIL; }
      } else if yesRes == COMPILE_REACHABLE {
        vars := yesVars;
        res := COMPILE_REACHABLE;
      }
    }

    method CompilePad(body: nat, pad: nat, ghost tb: Tree, ghost tp: Tree, ghost s: Snapshot, ghost g: Gen) returns (res: CompileResult)
      requires Snap() == s && s.types == [] && 0 <= s.frame <= MAX_FRAME
      requires Rep(blocks, ops, body, tb) && Rep(blocks, ops, pad, tp)
      requires g == GenPad(ctx, StateOf(s), tb, tp, |s.code|)
      modifies this
      ensures Compiles(s, g, Snap(), res)
      decreases Size(tb) + Size(tp), 2
    {
      hide GenTree, EncodeAll, Patched, CodeLength, Infos, Rep, Encode, PatchAt, JoinPad;
      var before := vars;
      Emit(IPushCrash(0), s);
      var padPatch := |code| - 2;
      EncodeOne(IPushCrash(0));
      crash := crash + 1;
      ghost var here := Snap();
      StateAfter(s, [IPushCrash(0)], s.vars);
      ghost var b := GenTree(ctx, StateOf(s).(crash := s.crash + 1), tb, BodyPos(|s.code|));
      res := CompileBlock(body, tb, here, b);
      if res == COMPILE_FAIL { return; }
      DepthsApart(s, s.frame, s.crash + 1, [IPushCrash(0)], b.code, b.vars);
      res := CompileSkip(before, padPatch, res, pad, b, tp, s, g);
    }

    /** The end of the body of a pad. */
    method CompileSkip(before: seq<Layout>, padPatch: nat, bodyRes: CompileResult, pad: nat, ghost b: Gen, ghost tp: Tree, ghost s: Snapshot, ghost g: Gen)
      returns (res: CompileResult)
      requires s.types == [] && 0 <= s.frame <= MAX_FRAME && Rep(blocks, ops, pad, tp) && b.Emit? && before == s.vars
      requires bodyRes == (if b.reach then COMPILE_REACHABLE else COMPILE_UNREACHABLE) && padPatch == |s.code| + 1
      requires Snap() == After(s, [IPushCrash(0)] + b.code, b.vars).(crash := s.crash + 1)
      requires g == JoinPad(|s.code|, b, GenTree(ctx, StateOf(s), tp, PadPos(|s.code|, b)))
      modifies this
      ensures Compiles(s, g, Snap(), res)
      decreases Size(tp), 3
    {
      hide GenTree, EncodeAll, Patched, CodeLength, Infos, Rep, Encode, PatchAt, JoinPad;
      var bodyVars, endPatch := vars, 0;
      ghost var jump: seq<Instr> := if b.reach then [IPopCrash, IJump(0)] else [];
      if bodyRes == COMPILE_REACHABLE {
        endPatch := EmitSkip(Snap());
        AfterAfter(s, [IPushCrash(0)] + b.code, b.vars, jump, b.vars);
      } else {
        crash := crash - 1;
      }
      PadAssoc(IPushCrash(0), b.code, jump);
      PadLengths(|s.code|, 0, b);
      StateAfter(s, [IPushCrash(0)] + (b.code + jump), b.vars);
      vars := before;
      res := CompileHandler(padPatch, endPatch, bodyVars, bodyRes, pad, b, tp, s, g);
    }

    /** Behind the body of a pad: the pad is popped, and the handler will be jumped over. */
    method EmitSkip(ghost s: Snapshot) returns (endPatch: nat)
      requires Snap() == s && s.crash > 0
      modifies this
      ensures Snap() == After(s.(crash := s.crash - 1), [IPopCrash, IJump(0)], s.vars) && endPatch == |code| - 2
    {
      hide EncodeAll, Patched;
      Emit(IPopCrash, s);
      crash := crash - 1;
      Emit(IJump(0), Snap());
      endPatch := |code| - 2;
      TwoEmitted(s, s.crash - 1, IPopCrash, IJump(0));
    }

    /** The handler of a pad, from the end of the body. */
    method CompileHandler(padPatch: nat, endPatch: nat, bodyVars: seq<Layout>, bodyRes: CompileResult, pad: nat,
                          ghost b: Gen, ghost tp: Tree, ghost s: Snapshot, ghost g: Gen)
      returns (res: CompileResult)
      requires s.types == [] && 0 <= s.frame <= MAX_FRAME && Rep(blocks, ops, pad, tp) && b.Emit? && bodyVars == b.vars
      requires bodyRes == (if b.reach then COMPILE_REACHABLE else COMPILE_UNREACHABLE)
      requires padPatch == |s.code| + 1
      requires b.reach ==> endPatch == BodyPos(|s.code|) + CodeLength(b.code) + 2
      requires var jump: seq<Instr> := if b.reach then [IPopCrash, IJump(0)] else [];
        Snap() == After(s, [IPushCrash(0)] + (b.code + jump), s.vars)
      requires g == JoinPad(|s.code|, b, GenTree(ctx, StateOf(s), tp, PadPos(|s.code|, b)))
      modifies this
      ensures Compiles(s, g, Snap(), res)
      decreases Size(tp), 2
    {
      hide GenTree, EncodeAll, Patched, CodeLength, Infos, Rep, Encode, PatchAt, JoinPad, PadCode;
      ghost var jump: seq<Instr> := if b.reach then [IPopCrash, IJump(0)] else [];
      PadLengths(|s.code|, 0, b);
      StateAfter(s, [IPushCrash(0)] + (b.code + jump), s.vars);
      ghost var padPos := |code|;
      var ok := PatchOffset(padPatch, |code|);
      if !ok {
        LatePad(|s.code|, b, GenTree(ctx, StateOf(s), tp, padPos));
        return COMPILE_FAIL;
      }
      PatchPad(0, padPos);
      NoCode(s, b.code + jump, IPushCrash(0));
      NoCode(s, b.code + jump, IPushCrash(padPos));
      PatchAfter(s, [], IPushCrash(0), IPushCrash(padPos), b.code + jump, s.vars, 1, padPos);
      res := CompileInHandler(endPatch, bodyVars, bodyRes, pad, b, tp, s, g);
    }

    /** The code of the handler, and the end of the pad. */
    method CompileInHandler(endPatch: nat, bodyVars: seq<Layout>, bodyRes: CompileResult, pad: nat,
                            ghost b: Gen, ghost tp: Tree, ghost s: Snapshot, ghost g: Gen)
      returns (res: CompileResult)
      requires s.types == [] && 0 <= s.frame <= MAX_FRAME && Rep(blocks, ops, pad, tp) && b.Emit? && bodyVars == b.vars
      requires bodyRes == (if b.reach then COMPILE_REACHABLE else COMPILE_UNREACHABLE) && PadPos(|s.code|, b) <= MAX_TARGET
      requires b.reach ==> endPatch == BodyPos(|s.code|) + CodeLength(b.code) + 2
      requires var jump: seq<Instr> := if b.reach then [IPopCrash, IJump(0)] else [];
        Snap() == After(s, [IPushCrash(PadPos(|s.code|, b))] + (b.code + jump), s.vars)
      requires g == JoinPad(|s.code|, b, GenTree(ctx, StateOf(s), tp, PadPos(|s.code|, b)))
      modifies this
      ensures Compiles(s, g, Snap(), res)
      decreases Size(tp), 1
    {
      hide GenTree, EncodeAll, Patched, CodeLength, Infos, Rep, Encode, PatchAt, JoinPad, PadCode;
      ghost var padPos := PadPos(|s.code|, b);
      ghost var jump: seq<Instr> := if b.reach then [IPopCrash, IJump(0)] else [];
      ghost var all := [IPushCrash(padPos)] + (b.code + jump);
      PadLengths(|s.code|, padPos, b);
      StateAfter(s, all, s.vars);
      ghost var z := GenTree(ctx, StateOf(s), tp, padPos);
      res := CompileBlock(pad, tp, Snap(), z);
      if res == COMPILE_FAIL {
        LatePad(|s.code|, b, z);
        return;
      }
      AfterAfter(s, all, s.vars, z.code, z.vars);
      ghost var tail: seq<Instr> := if z.reach then [ICrash] else [];
      if res == COMPILE_REACHABLE {
        Emit(ICrash, Snap());
        AfterAfter(s, all + z.code, z.vars, tail, z.vars);
      } else {
        assert (all + z.code) + [] == all + z.code;
      }
      res := CloseHandler(endPatch, bodyVars, bodyRes, b, z, s, g);
    }

    /** The jump behind the body is patched to the end of the handler. */
    method CloseHandler(endPatch: nat, bodyVars: seq<Layout>, bodyRes: CompileResult, ghost b: Gen, ghost z: Gen, ghost s: Snapshot, ghost g: Gen)
      returns (res: CompileResult)
      requires 0 <= s.frame && b.Emit? && z.Emit? && bodyVars == b.vars && PadPos(|s.code|, b) <= MAX_TARGET
      requires bodyRes == (if b.reach then COMPILE_REACHABLE else COMPILE_UNREACHABLE)
      requires b.reach ==> endPatch == BodyPos(|s.code|) + CodeLength(b.code) + 2
      requires var jump: seq<Instr> := if b.reach then [IPopCrash, IJump(0)] else [];
        var tail: seq<Instr> := if z.reach then [ICrash] else [];
        Snap() == After(s, (([IPushCrash(PadPos(|s.code|, b))] + (b.code + jump)) + z.code) + tail, z.vars)
      requires g == JoinPad(|s.code|, b, z)
      modifies this`code, this`vars
      ensures Compiles(s, g, Snap(), res)
    {
      hide EncodeAll, Patched, CodeLength, Infos, Encode, PatchAt, JoinPad, PadCode;
      ghost var padPos := PadPos(|s.code|, b);
      ghost var jump: seq<Instr> := if b.reach then [IPopCrash, IJump(0)] else [];
      ghost var all := [IPushCrash(padPos)] + (b.code + jump);
      ghost var tail: seq<Instr> := if z.reach then [ICrash] else [];
      PadLengths(|s.code|, padPos, b);
      StateAfter(s, (all + z.code) + tail, z.vars);
      TailLength(all, z.code, tail);
      PadMeans(|s.code|, b, z, |code|, g);
      PadCodeIs(padPos, b.code, b.reach, |code|, z.code, z.reach);
      if bodyRes == COMPILE_REACHABLE {
        ghost var end := |code|;
        var ok := PatchOffset(endPatch, |code|);
        if !ok { return COMPILE_FAIL; }
        PatchJump(IJump(0), end);
        PopLength([IPushCrash(padPos)], b.code);
        PatchAfter(s, [IPushCrash(padPos)] + (b.code + [IPopCrash]), IJump(0), IJump(end), z.code + tail, z.vars, 1, end);
        vars := bodyVars;
        res := COMPILE_REACHABLE;
      } else {
        res := COMPILE_UNREACHABLE;
      }
    }

    method CompileBlock(idx: nat, ghost t: Tree, ghost s: Snapshot, ghost g: Gen) returns (res: CompileResult)
      requires Snap() == s && s.types == [] && 0 <= s.frame <= MAX_FRAME && Rep(blocks, ops, idx, t)
      requires g == GenTree(ctx, StateOf(s), t, |s.code|)
      modifies this
      ensures Compiles(s, g, Snap(), res)
      decreases Size(t), 0
    {
      hide GenChain, GenBasic, GenBreak, GenVar, GenBranch, GenPad, EncodeAll, Patched, Infos, CloseMany, CloseLoop;
      if idx >= |blocks| { return COMPILE_FAIL; }
      match blocks[idx] {
        case BBasic(range) => res := CompileBasic(range, t.ops, s, g);
        case BMany(cur, next) => res := CompileMany(cur, next, t.kids, s, g);
        case BChain(_, _) => res := COMPILE_FAIL;
        case BCrash =>
          Emit(ICrash, s);
          res := COMPILE_UNREACHABLE;
        case BHardCrash =>
          Emit(IHardCrash, s);
          res := COMPILE_UNREACHABLE;
        case BCrashPad(body, pad) => res := CompilePad(body, pad, t.body, t.pad, s, g);
        case BBranch(cond, yes, no) => res := CompileBranch(cond, yes, no, t.cond, t.yes, t.no, s, g);
        case BLoop(body) => res := CompileLoop(body, t.body, s, g);
        case BBreak(level) => res := CompileBreak(level, s, g);
        case BVar(v, body) => res := CompileVar(v, body, t.body, s, g);
        case BDefer(_, _) => res := COMPILE_FAIL;
      }
    }
  }

  /** vm_compile_no_defers: the code of a function, if it compiles. */
  method CompileFunction(c: Ctx, blocks: seq<Block>, ops: seq<Op>) returns (r: Option<seq<u8>>)
    requires Rep(blocks, ops, 0, c.f.body)
    ensures r == match GenFunc(c) case None => None case Some(code) => Some(EncodeAll(code))
  {
    hide GenTree, EncodeAll, Patched, Infos, Rep;
    var k := new BlockCompiler(c, blocks, ops);
    ghost var s := k.Snap();
    assert StateOf(s) == Initial(c.f) by { NoInfos(); }
    ghost var g := GenTree(c, Initial(c.f), c.f.body, 0);
    var res := k.CompileBlock(0, c.f.body, s, g);
    if res == COMPILE_FAIL { return None; }
    ghost var all := g.code;
    if |c.f.sig.ins| > 0 {
      ghost var here := k.Snap();
      k.Emit(IDropN(|c.f.sig.ins|), here);
      AfterAfter(s, g.code, g.vars, [IDropN(|c.f.sig.ins|)], g.vars);
      all := all + [IDropN(|c.f.sig.ins|)];
    } else {
      assert g.code + [] == g.code;
    }
    ghost var here := k.Snap();
    k.Emit(IRet, here);
    AfterAfter(s, all, g.vars, [IRet], g.vars);
    assert [] + EncodeAll(all + [IRet]) == EncodeAll(all + [IRet]);
    r := Some(k.code);
  }

  lemma NoInfos()
    ensures Infos([]) == []
  {
  }

  datatype Flat = Flat(blocks: seq<Block>, ops: seq<Op>)

  /** The functions of a program are compiled one after the other, callees first; what does not
      compile has no code. */
  method CompileProgram(p: Program, flats: seq<Flat>) returns (codes: seq<seq<u8>>, done: seq<bool>)
    requires |flats| == |p.funcs|
    requires forall fn :: 0 <= fn < |flats| ==> Rep(flats[fn].blocks, flats[fn].ops, 0, p.funcs[fn].body)
    ensures |codes| == |p.funcs| && done == Compiled(p, |p.funcs|)
    ensures forall fn :: 0 <= fn < |p.funcs| ==> done[fn] == GenFunc(FuncCtx(p, fn)).Some?
    ensures forall fn :: 0 <= fn < |p.funcs| && done[fn] ==> codes[fn] == EncodeAll(GenFunc(FuncCtx(p, fn)).value)
    ensures forall fn :: 0 <= fn < |p.funcs| && !done[fn] ==> codes[fn] == []
  {
    hide GenFunc, EncodeAll, Rep;
    codes, done := [], [];
    var fn := 0;
    while fn < |p.funcs|
      invariant fn <= |p.funcs| && |codes| == fn && done == Compiled(p, fn)
      invariant forall k :: 0 <= k < fn ==> done[k] == GenFunc(FuncCtx(p, k)).Some?
      invariant forall k :: 0 <= k < fn && done[k] ==> codes[k] == EncodeAll(GenFunc(FuncCtx(p, k)).value)
      invariant forall k :: 0 <= k < fn && !done[k] ==> codes[k] == []
    {
      var code := CompileFunction(Ctx(p, p.funcs[fn], done), flats[fn].blocks, flats[fn].ops);
      codes := codes + [if code.Some? then code.value else []];
      done := done + [code.Some?];
      fn := fn + 1;
    }
  }

  function Behind(acc: seq<Instr>, g: OpGen): OpGen {
    if g.OpFail? then OpFail else OpEmit(acc + g.code, g.tys)
  }

  lemma FirstOp(c: Ctx, vars: seq<Layout>, frame: nat, sel: seq<Op>, tys: seq<TypeId>, acc: seq<Instr>)
    requires |sel| > 0
    ensures var g := GenOp(c, vars, frame, sel[0], tys);
      Behind(acc, GenOps(c, vars, frame, sel, tys)) ==
        if g.OpFail? then OpFail else Behind(acc + g.code, GenOps(c, vars, frame, sel[1..], g.tys))
  {
    hide GenOp;
    var g := GenOp(c, vars, frame, sel[0], tys);
    if g.OpEmit? {
      var h := GenOps(c, vars, frame, sel[1..], g.tys);
      if h.OpEmit? { assert acc + (g.code + h.code) == (acc + g.code) + h.code; }
    }
  }

  lemma AfterTyped(s: Snapshot, acc: seq<Instr>, tys: seq<TypeId>, code: seq<Instr>)
    ensures After(After(s, acc, s.vars).(types := tys), code, s.vars) == After(s, acc + code, s.vars).(types := tys)
  {
    AfterAfter(s, acc, s.vars, code, s.vars);
    TypesApart(After(s, acc, s.vars), tys, code, s.vars);
  }

  lemma TypesApart(s: Snapshot, tys: seq<TypeId>, code: seq<Instr>, vars: seq<Layout>)
    ensures After(s.(types := tys), code, vars) == After(s, code, vars).(types := tys)
  {
  }

  lemma PatchNone(bytes: seq<u8>, patches: seq<nat>, target: nat)
    ensures PatchAll(bytes, patches[0..], target) == PatchAll(bytes, patches, target)
  {
    assert patches[0..] == patches;
  }

  lemma PatchNext(bytes: seq<u8>, patches: seq<nat>, i: nat, target: nat)
    requires i < |patches|
    ensures PatchAll(bytes, patches[i..], target) == PatchAll(PatchAt(bytes, patches[i], target), patches[i + 1..], target)
  {
    assert patches[i..][1..] == patches[i + 1..];
  }

  lemma PatchDone(bytes: seq<u8>, patches: seq<nat>, target: nat)
    ensures PatchAll(bytes, patches[|patches|..], target) == bytes
  {
  }

  /** The jump of a break is emitted open, and its scope remembers it. */
  lemma AfterExit(s: Snapshot, at: nat)
    requires at < |s.scopes|
    ensures After(s, [IExit(at)], s.vars) ==
      s.(code := s.code + Encode(IExit(at)),
         scopes := s.scopes[at := s.scopes[at].(patches := s.scopes[at].patches + [|s.code| + 1])])
  {
    EncodeOne(IExit(at));
    var r := Patched(s.scopes, [IExit(at)], |s.code|);
    var ss := s.scopes[at := s.scopes[at].(patches := s.scopes[at].patches + [|s.code| + 1])];
    forall k | 0 <= k < |ss| ensures r[k] == ss[k] {
      OneExit(at, k, |s.code|);
      assert s.scopes[k].patches + [] == s.scopes[k].patches;
    }
  }

  lemma OneExit(at: nat, k: nat, pos: nat)
    ensures Exits([IExit(at)], k, pos) == if k == at then [pos + 1] else []
  {
    assert Exits([IExit(at)][1..], k, pos + Length(IExit(at))) == [];
  }

  lemma BreakParts(pops: seq<Instr>, cut: seq<Instr>, i: Instr, code: seq<Instr>)
    requires code == pops + (cut + [i])
    ensures (pops + cut) + [i] == code
  {
  }

  lemma InfosAt(ss: seq<Scope>)
    ensures |Infos(ss)| == |ss| && forall k :: 0 <= k < |ss| ==> Infos(ss)[k] == ScopeInfo(ss[k].frame, ss[k].crash)
  {
  }

  // ----- the children of a MANY -----

  /** What is left to compile of a chain, behind the code `acc` of the children so far. */
  function Rest(c: Ctx, st: CState, acc: seq<Instr>, reachable: bool, ch: Chain, pos: nat): Gen {
    if !reachable then (if Whole(ch) then Gen.Emit(acc, false, st.vars) else Fail)
    else
      var g := GenChain(c, st, ch, pos + CodeLength(acc));
      if g.Fail? then Fail else Gen.Emit(acc + g.code, g.reach, g.vars)
  }

  lemma RestAll(c: Ctx, st: CState, ch: Chain, pos: nat)
    ensures GenChain(c, st, ch, pos) == Rest(c, st, [], true, ch, pos)
  {
    hide GenChain;
    var g := GenChain(c, st, ch, pos);
    if g.Emit? { assert [] + g.code == g.code; }
  }

  lemma RestStep(c: Ctx, st: CState, acc: seq<Instr>, reachable: bool, cur: Tree, rest: Chain, pos: nat)
    ensures var h := GenTree(c, st, cur, pos + CodeLength(acc));
      Rest(c, st, acc, reachable, Link(cur, rest), pos) ==
        if !reachable then Rest(c, st, acc, false, rest, pos)
        else if h.Fail? then Fail
        else Rest(c, st.(vars := h.vars), acc + h.code, h.reach, rest, pos)
  {
    hide GenTree, CodeLength;
    var h := GenTree(c, st, cur, pos + CodeLength(acc));
    if reachable && h.Emit? {
      LengthConcat(acc, h.code);
      if h.reach { RestLink(c, st.(vars := h.vars), acc, h.code, rest, pos); }
    }
  }

  lemma RestLink(c: Ctx, st: CState, acc: seq<Instr>, code: seq<Instr>, rest: Chain, pos: nat)
    ensures var g := GenChain(c, st, rest, pos + CodeLength(acc) + CodeLength(code));
      Rest(c, st, acc + code, true, rest, pos) == if g.Fail? then Fail else Gen.Emit(acc + (code + g.code), g.reach, g.vars)
  {
    hide GenChain, CodeLength;
    LengthConcat(acc, code);
    var g := GenChain(c, st, rest, pos + CodeLength(acc) + CodeLength(code));
    if g.Emit? { assert acc + (code + g.code) == (acc + code) + g.code; }
  }

  lemma RestEnd(c: Ctx, st: CState, acc: seq<Instr>, reachable: bool, pos: nat)
    ensures Rest(c, st, acc, reachable, End, pos) == Gen.Emit(acc, reachable, st.vars)
  {
    assert acc + [] == acc;
  }

  lemma RestBad(c: Ctx, st: CState, acc: seq<Instr>, reachable: bool, pos: nat)
    ensures Rest(c, st, acc, reachable, BadLink, pos) == Fail
  {
  }

  // ----- compound blocks -----

  lemma StateAfter(s: Snapshot, code: seq<Instr>, vars: seq<Layout>)
    requires s.frame >= 0
    ensures StateOf(After(s, code, vars)) == StateOf(s).(vars := vars)
    ensures |After(s, code, vars).code| == |s.code| + CodeLength(code)
  {
    hide Patched, CodeLength, EncodeAll;
    InfosKept(s.scopes, code, |s.code|);
  }

  lemma CloseMeans(st: CState, code: seq<Instr>, pos: nat, falls: bool, vars: seq<Layout>)
    ensures var end, had := pos + CodeLength(code), HasExit(code, |st.scopes|);
      Close(st, code, pos, falls, vars) ==
        if had && end > MAX_TARGET then Fail else Gen.Emit(Finish(code, |st.scopes|, end), falls || had, vars)
  {
  }

  lemma CloseFails(s: Snapshot, emitted: seq<Instr>, falls: bool, vars: seq<Layout>, e: Snapshot)
    requires s.frame >= 0 && HasExit(emitted, |s.scopes|) && |s.code| + CodeLength(emitted) > MAX_TARGET
    ensures Compiles(s, Close(StateOf(s), emitted, |s.code|, falls, vars), e, COMPILE_FAIL)
  {
  }

  /** A scope that was closed in time leaves what Close says. */
  lemma CloseCompiles(s: Snapshot, emitted: seq<Instr>, falls: bool, vars: seq<Layout>, e: Snapshot)
    requires s.frame >= 0 && !(HasExit(emitted, |s.scopes|) && |s.code| + CodeLength(emitted) > MAX_TARGET)
    requires var code := Finish(emitted, |s.scopes|, |s.code| + CodeLength(emitted));
      e == s.(code := s.code + EncodeAll(code), vars := vars, scopes := Patched(s.scopes, code, |s.code|))
    ensures Compiles(s, Close(StateOf(s), emitted, |s.code|, falls, vars), e,
                     if falls || HasExit(emitted, |s.scopes|) then COMPILE_REACHABLE else COMPILE_UNREACHABLE)
  {
    hide Patched, EncodeAll, CodeLength, Finish, HasExit;
  }

  /** A target that does not fit fails the branch, whatever comes after it. */
  lemma LateYes(pos: nat, c: Ctx, st: CState, sel: seq<Op>, ty: Tree, tn: Tree, g: Gen)
    requires g == GenBranch(c, st, sel, ty, tn, pos)
    requires var o := GenOps(c, st.vars, st.frame, sel, []); o.OpFail? || o.tys != [INT] || YesPos(pos, o.code) > MAX_TARGET
    ensures g.Fail?
  {
    hide GenTree, GenOps, CodeLength, BranchCode;
  }

  lemma LateNo(pos: nat, cc: seq<Instr>, y: Gen, z: Gen)
    requires y.Emit? && (NoPos(pos, cc, y) > MAX_TARGET || z.Fail?)
    ensures JoinBranch(pos, cc, y, z).Fail?
  {
  }

  lemma JoinMeans(pos: nat, cc: seq<Instr>, y: Gen, z: Gen, noPos: nat, end: nat, g: Gen)
    requires y.Emit? && z.Emit? && g == JoinBranch(pos, cc, y, z)
    requires noPos == NoPos(pos, cc, y) <= MAX_TARGET && YesPos(pos, cc) <= MAX_TARGET && end == noPos + CodeLength(z.code)
    ensures g == if (y.reach && end > MAX_TARGET) || (y.reach && z.reach && y.vars != z.vars) then Fail
      else Gen.Emit(BranchCode(cc, YesPos(pos, cc), noPos, y.code, y.reach, end, z.code), y.reach || z.reach, if y.reach then y.vars else z.vars)
  {
    hide CodeLength, BranchCode;
  }

  lemma BranchAssoc(cc: seq<Instr>, top: Instr, y: seq<Instr>, jump: Instr, z: seq<Instr>)
    ensures (cc + ([top] + (y + [jump]))) + z == (cc + ([top] + y)) + ([jump] + z)
    ensures (cc + ([top] + y)) + ([jump] + z) == cc + ([top] + (y + ([jump] + z)))
  {
  }

  lemma BranchCodeIs(cc: seq<Instr>, yes: nat, no: nat, y: seq<Instr>, reach: bool, end: nat, z: seq<Instr>)
    ensures reach ==> BranchCode(cc, yes, no, y, true, end, z) == cc + ([IBranchTop(yes, no)] + (y + ([IJump(end)] + z)))
    ensures !reach ==> BranchCode(cc, yes, no, y, false, end, z) == (cc + ([IBranchTop(yes, no)] + (y + []))) + z
  {
    assert [] + z == z && y + [] == y;
  }

  lemma BranchLengths(pos: nat, cc: seq<Instr>, yes: nat, no: nat, y: Gen)
    requires y.Emit?
    ensures var jump: seq<Instr> := if y.reach then [IJump(0)] else [];
      pos + CodeLength(cc + ([IBranchTop(yes, no)] + (y.code + jump))) == NoPos(pos, cc, y)
    ensures pos + CodeLength(cc + ([IBranchTop(yes, no)] + y.code)) == YesPos(pos, cc) + CodeLength(y.code)
  {
    hide CodeLength;
    var top, jump: seq<Instr> := IBranchTop(yes, no), if y.reach then [IJump(0)] else [];
    LengthConcat(cc, [top] + (y.code + jump));
    LengthConcat([top], y.code + jump);
    LengthConcat(y.code, jump);
    LengthConcat(cc, [top] + y.code);
    LengthConcat([top], y.code);
    EncodeOne(top);
    EncodeOne(IJump(0));
    EncodeNone();
  }

  lemma LatePad(pos: nat, b: Gen, z: Gen)
    requires b.Emit? && (PadPos(pos, b) > MAX_TARGET || z.Fail?)
    ensures JoinPad(pos, b, z).Fail?
  {
    hide CodeLength, PadCode;
  }

  lemma PadMeans(pos: nat, b: Gen, z: Gen, end: nat, g: Gen)
    requires b.Emit? && z.Emit? && g == JoinPad(pos, b, z) && PadPos(pos, b) <= MAX_TARGET
    requires end == PadPos(pos, b) + CodeLength(z.code) + (if z.reach then Length(ICrash) else 0)
    ensures g == if b.reach && end > MAX_TARGET then Fail
      else Gen.Emit(PadCode(PadPos(pos, b), b.code, b.reach, end, z.code, z.reach), b.reach, if b.reach then b.vars else z.vars)
  {
    hide CodeLength, PadCode;
  }

  lemma SkipLength()
    ensures CodeLength([IPopCrash, IJump(0)]) == Length(IPopCrash) + Length(IJump(0))
  {
    hide CodeLength;
    assert [IPopCrash] + [IJump(0)] == [IPopCrash, IJump(0)];
    LengthConcat([IPopCrash], [IJump(0)]);
    EncodeOne(IPopCrash);
    EncodeOne(IJump(0));
  }

  lemma PadLengths(pos: nat, pad: nat, b: Gen)
    requires b.Emit?
    ensures var jump: seq<Instr> := if b.reach then [IPopCrash, IJump(0)] else [];
      pos + CodeLength([IPushCrash(pad)] + (b.code + jump)) == PadPos(pos, b)
  {
    hide CodeLength;
    var jump: seq<Instr> := if b.reach then [IPopCrash, IJump(0)] else [];
    LengthConcat([IPushCrash(pad)], b.code + jump);
    LengthConcat(b.code, jump);
    EncodeOne(IPushCrash(pad));
    SkipLength();
    EncodeNone();
  }

  lemma PopLength(a: seq<Instr>, b: seq<Instr>)
    ensures CodeLength(a + (b + [IPopCrash])) == CodeLength(a) + CodeLength(b) + 1
    ensures |a| == 1 ==> CodeLength(a) == Length(a[0])
  {
    hide CodeLength;
    LengthConcat(a, b + [IPopCrash]);
    LengthConcat(b, [IPopCrash]);
    EncodeOne(IPopCrash);
    if |a| == 1 {
      assert a == [a[0]];
      EncodeOne(a[0]);
    }
  }

  lemma TailLength(a: seq<Instr>, b: seq<Instr>, tail: seq<Instr>)
    requires tail == [] || tail == [ICrash]
    ensures CodeLength((a + b) + tail) == CodeLength(a) + CodeLength(b) + (if tail == [] then 0 else Length(ICrash))
  {
    hide CodeLength;
    LengthConcat(a + b, tail);
    LengthConcat(a, b);
    EncodeOne(ICrash);
    EncodeNone();
  }

  lemma PadAssoc(push: Instr, b: seq<Instr>, jump: seq<Instr>)
    ensures ([push] + b) + jump == [push] + (b + jump)
    ensures jump == [] ==> [push] + b == [push] + (b + jump)
  {
  }

  lemma NoCode(s: Snapshot, rest: seq<Instr>, i: Instr)
    ensures [] + ([i] + rest) == [i] + rest && CodeLength([]) == 0
  {
  }

  lemma PadCodeIs(pad: nat, b: seq<Instr>, reach: bool, end: nat, q: seq<Instr>, qReach: bool)
    ensures var tail: seq<Instr> := if qReach then [ICrash] else [];
      if reach then
        && (([IPushCrash(pad)] + (b + [IPopCrash, IJump(0)])) + q) + tail == ([IPushCrash(pad)] + (b + [IPopCrash])) + ([IJump(0)] + (q + tail))
        && PadCode(pad, b, true, end, q, qReach) == ([IPushCrash(pad)] + (b + [IPopCrash])) + ([IJump(end)] + (q + tail))
      else PadCode(pad, b, false, end, q, qReach) == (([IPushCrash(pad)] + (b + [])) + q) + tail
  {
    var tail: seq<Instr> := if qReach then [ICrash] else [];
    assert [] + (q + tail) == q + tail && b + [] == b;
  }

  lemma TwoEmitted(s: Snapshot, crash: nat, i: Instr, j: Instr)
    requires !i.IExit? && !j.IExit?
    ensures After(After(s, [i], s.vars).(crash := crash), [j], s.vars) == After(s.(crash := crash), [i, j], s.vars)
  {
    hide Patched, EncodeAll, CodeLength;
    AfterAfter(s, [i], s.vars, [j], s.vars);
    assert [i] + [j] == [i, j];
  }

  lemma EncodeNone()
    ensures CodeLength([]) == 0
  {
  }

  /** Arithmetic on a signed 16 bit number. */
  function Narrow(n: int): int { Signed(n % TWO16) }

  lemma NarrowMeans(n: nat)
    requires n <= 2 * MAX_FRAME
    ensures Narrow(n) == if n <= MAX_FRAME then n else n - TWO16
    ensures Narrow(n) >= 0 <==> n <= MAX_FRAME
  {
  }

  /** Frame size and crash depth change beside the code. */
  lemma DepthsApart(s: Snapshot, frame: int, crash: nat, a: seq<Instr>, b: seq<Instr>, vars: seq<Layout>)
    ensures After(After(s, a, s.vars).(frame := frame, crash := crash), b, vars) == After(s, a + b, vars).(frame := frame, crash := crash)
  {
    hide Patched, EncodeAll, CodeLength;
    AfterAfter(s, a, s.vars, b, vars);
  }

  lemma DeadTwice(vars: seq<Layout>, v: nat)
    ensures Dead(Dead(vars, v), v) == Dead(vars, v)
  {
  }
}
