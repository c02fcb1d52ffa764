/** One operation: the instruction that is emitted for it does what the operation means. */
module OpSimulation {
  import opened Memory
  import opened Ir
  import opened Bytecode
  import opened Codegen
  import opened CodegenFacts
  import S = Semantics
  import M = Machine

  // ----- the effect of an instruction agrees with the operation -----

  predicate Agrees(e: M.Effect, d: S.Data, r: S.OpRes, tys: seq<TypeId>) {
    match r.out
    case Normal => e == M.Next(r.d.mem, r.d.params) && r.d.ans == d.ans && r.tys == tys
    case Crashed => e.Soft? && e.mem == r.d.mem && e.params == r.d.params && r.d.ans == M.Noted(d.ans, e.code)
    case HardCrashed => e == M.Stop(VM_HARD_CRASH)
    case Fault(x) => e == M.Stop(x)
    case _ => false
  }

  /** An operation emits one data instruction that agrees with it, or nothing. */
  predicate Emulates(code: seq<Instr>, tys: seq<TypeId>, native: Native, argBase: nat, d: S.Data, r: S.OpRes) {
    if |code| == 0 then r.out.Normal? && r.d == d.(log := r.d.log) && r.tys == tys
    else |code| == 1 && M.IsData(code[0]) && Agrees(M.DataEffect(native, code[0], argBase, d.mem, d.params), d, r, tys)
  }

  /** Every live variable lies where its layout says, in a frame that starts at fb. */
  predicate EnvOk(vars: seq<Layout>, env: S.Env, fb: nat) {
    forall v :: 0 <= v < |vars| && vars[v].live ==> v in env && env[v] == fb + vars[v].base
  }

  lemma PushEmulates(c: Ctx, st: CState, fb: nat, a: S.Act, env: S.Env, op: Op, tys: seq<TypeId>, d: S.Data, g: OpGen)
    requires op.PushVar? || op.PushArg? || op.PushGlobal?
    requires g == GenPush(c, st.vars, st.frame, op, tys) && g.OpEmit?
    requires StateOk(st) && EnvOk(st.vars, env, fb) && |d.mem.storage| == fb + st.frame
    ensures |g.code| == 1 && (g.code[0].IPushVar? || g.code[0].IPushArg? || g.code[0].IPushGlobal?)
    ensures Agrees(M.PushEffect(g.code[0], a.argBase, d.mem, d.params), d, S.OpPush(c.p.globals, c.f, a, env, op, tys, d), g.tys)
  {
  }

  lemma BitNotIs(c: Ctx, op: Op, tys: seq<TypeId>, g: OpGen)
    requires op.BitNot? && g == GenValue(c, op, tys) && g.OpEmit?
    ensures g == OpEmit([IBitNot], tys) && |tys| > 0 && tys[|tys| - 1] == INT
  {
  }

  lemma BitNotEmulates(c: Ctx, op: Op, tys: seq<TypeId>, d: S.Data, g: OpGen)
    requires op.BitNot?
    requires g == GenValue(c, op, tys) && g.OpEmit? && |tys| <= |d.params|
    ensures |g.code| == 1 && g.code[0].IBitNot?
    ensures Agrees(M.ValueEffect(g.code[0], d.mem, d.params), d, S.OpValue(c.f.types, op, tys, d), g.tys)
  {
    hide LoadNum, StoreNum, Load, Store, Compute, GenValue, Digits;
    BitNotIs(c, op, tys, g);
    var p := S.Top(d);
    assert S.LastTypes(tys, 1) == [INT];
    var x := LoadNum(d.mem, p);
    if x.Some? {
      var m := StoreNum(d.mem, p, -1 - x.value);
      assert S.OpValue(c.f.types, op, tys, d) == S.Done(m, d, tys);
      assert M.ValueEffect(IBitNot, d.mem, d.params) == M.After(m, d.params);
    }
  }

  lemma AssignEmulates(c: Ctx, op: Op, tys: seq<TypeId>, d: S.Data, g: OpGen)
    requires op.Assign?
    requires g == GenValue(c, op, tys) && g.OpEmit? && |tys| <= |d.params|
    ensures |g.code| == 1 && g.code[0].ICopy?
    ensures Agrees(M.ValueEffect(g.code[0], d.mem, d.params), d, S.OpValue(c.f.types, op, tys, d), g.tys)
  {
    hide LoadNum, StoreNum, LoadCount, StoreCount, LoadPtr, StorePtr, LoadFn, Load, Store, Elem, PtrAdd, Compute;
  }

  lemma CalcEmulates(c: Ctx, op: Op, tys: seq<TypeId>, d: S.Data, g: OpGen)
    requires op.Calc?
    requires g == GenValue(c, op, tys) && g.OpEmit? && |tys| <= |d.params|
    ensures |g.code| == 1 && g.code[0].ICalc?
    ensures Agrees(M.ValueEffect(g.code[0], d.mem, d.params), d, S.OpValue(c.f.types, op, tys, d), g.tys)
  {
    hide LoadNum, StoreNum, LoadCount, StoreCount, LoadPtr, StorePtr, LoadFn, Load, Store, Elem, PtrAdd, Compute;
  }

  lemma ArrPushEmulates(c: Ctx, op: Op, tys: seq<TypeId>, d: S.Data, g: OpGen)
    requires op.ArrPush?
    requires g == GenArray(c, op, tys) && g.OpEmit? && |tys| <= |d.params|
    ensures |g.code| == 1 && g.code[0].IArrPush?
    ensures Agrees(M.ArrayEffect(g.code[0], d.mem, d.params), d, S.OpArray(c.f.types, op, tys, d), g.tys)
  {
    hide LoadNum, StoreNum, LoadCount, StoreCount, LoadPtr, StorePtr, LoadFn, Load, Store, Elem, PtrAdd, Compute;
  }

  lemma ArrAtEmulates(c: Ctx, op: Op, tys: seq<TypeId>, d: S.Data, g: OpGen)
    requires op.ArrAt?
    requires g == GenArray(c, op, tys) && g.OpEmit? && |tys| <= |d.params|
    ensures |g.code| == 1 && g.code[0].IArrAt?
    ensures Agrees(M.ArrayEffect(g.code[0], d.mem, d.params), d, S.OpArray(c.f.types, op, tys, d), g.tys)
  {
    hide LoadNum, StoreNum, LoadCount, StoreCount, LoadPtr, StorePtr, LoadFn, Load, Store, Elem, PtrAdd, Compute;
  }

  lemma ArrDropEmulates(c: Ctx, op: Op, tys: seq<TypeId>, d: S.Data, g: OpGen)
    requires op.ArrDrop?
    requires g == GenArray(c, op, tys) && g.OpEmit? && |tys| <= |d.params|
    ensures |g.code| == 1 && g.code[0].IArrDrop?
    ensures Agrees(M.ArrayEffect(g.code[0], d.mem, d.params), d, S.OpArray(c.f.types, op, tys, d), g.tys)
  {
    hide LoadNum, StoreNum, LoadCount, StoreCount, LoadPtr, StorePtr, LoadFn, Load, Store, Elem, PtrAdd, Compute;
  }

  lemma SliceMakeEmulates(c: Ctx, op: Op, tys: seq<TypeId>, d: S.Data, g: OpGen)
    requires op.SliceFromAr? || op.SliceFromOne?
    requires g == GenSlice(c, op, tys) && g.OpEmit? && |tys| <= |d.params|
    ensures |g.code| == 1 && (g.code[0].ISliceFromArr? || g.code[0].ISliceFromOne?)
    ensures Agrees(M.SliceEffect(g.code[0], d.mem, d.params), d, S.OpSlice(c.f.types, op, tys, d), g.tys)
  {
    hide LoadNum, StoreNum, LoadCount, StoreCount, LoadPtr, StorePtr, LoadFn, Load, Store, Elem, PtrAdd, Compute;
  }

  lemma SliceAtEmulates(c: Ctx, op: Op, tys: seq<TypeId>, d: S.Data, g: OpGen)
    requires op.SliceAt?
    requires g == GenSlice(c, op, tys) && g.OpEmit? && |tys| <= |d.params|
    ensures |g.code| == 1 && g.code[0].ISliceAt?
    ensures Agrees(M.SliceEffect(g.code[0], d.mem, d.params), d, S.OpSlice(c.f.types, op, tys, d), g.tys)
  {
    hide LoadNum, StoreNum, LoadCount, StoreCount, LoadPtr, StorePtr, LoadFn, Load, Store, Elem, PtrAdd, Compute;
  }

  lemma SliceIncEmulates(c: Ctx, op: Op, tys: seq<TypeId>, d: S.Data, g: OpGen)
    requires op.SliceInc?
    requires g == GenSlice(c, op, tys) && g.OpEmit? && |tys| <= |d.params|
    ensures |g.code| == 1 && g.code[0].ISliceInc?
    ensures Agrees(M.SliceEffect(g.code[0], d.mem, d.params), d, S.OpSlice(c.f.types, op, tys, d), g.tys)
  {
    hide LoadNum, StoreNum, LoadCount, StoreCount, LoadPtr, StorePtr, LoadFn, Load, Store, Elem, PtrAdd, Compute;
  }

  lemma SliceDecEmulates(c: Ctx, op: Op, tys: seq<TypeId>, d: S.Data, g: OpGen)
    requires op.SliceDec?
    requires g == GenSlice(c, op, tys) && g.OpEmit? && |tys| <= |d.params|
    ensures |g.code| == 1 && g.code[0].ISliceDec?
    ensures Agrees(M.SliceEffect(g.code[0], d.mem, d.params), d, S.OpSlice(c.f.types, op, tys, d), g.tys)
  {
    hide LoadNum, StoreNum, LoadCount, StoreCount, LoadPtr, StorePtr, LoadFn, Load, Store, Elem, PtrAdd, Compute;
  }

  lemma FieldEmulates(c: Ctx, native: Native, argBase: nat, field: nat, tys: seq<TypeId>, d: S.Data, g: OpGen)
    requires g == GenField(c, field, tys) && g.OpEmit? && |tys| <= |d.params|
    ensures |g.code| == 1 && g.code[0].IStructAt?
    ensures Agrees(M.DataEffect(native, g.code[0], argBase, d.mem, d.params), d, S.OpField(c.f.types, field, tys, d), g.tys)
  {
  }

  lemma NativeEmulates(c: Ctx, native: Native, tys: seq<TypeId>, d: S.Data, g: OpGen)
    requires g == GenNative(c, tys) && g.OpEmit? && |tys| <= |d.params|
    ensures |g.code| == 1 && g.code[0].ICallNative?
    ensures Agrees(M.NativeEffect(native, g.code[0].argc, d.mem, d.params), d, S.OpNative(native, c.f.types, tys, d), g.tys)
  {
    hide LoadFn;
  }

  lemma DropEmulates(argBase: nat, n: nat, tys: seq<TypeId>, d: S.Data)
    requires n <= |tys| <= |d.params|
    ensures Agrees(M.PushEffect(IDropN(n), argBase, d.mem, d.params), d, S.OpRes(S.Normal, S.Pop(d, n), tys[..|tys| - n]), tys[..|tys| - n])
  {
  }

  lemma OpEmulates(c: Ctx, st: CState, fb: nat, a: S.Act, env: S.Env, op: Op, tys: seq<TypeId>, d: S.Data, g: OpGen)
    requires !op.Call? && g == GenOp(c, st.vars, st.frame, op, tys) && g.OpEmit? && |tys| <= |d.params|
    requires StateOk(st) && EnvOk(st.vars, env, fb) && |d.mem.storage| == fb + st.frame
    ensures Emulates(g.code, g.tys, c.p.native, a.argBase, d, S.SimpleOp(c.p, c.f, a, env, op, tys, d))
  {
    hide M.PushEffect, M.ValueEffect, M.ArrayEffect, M.SliceEffect, M.NativeEffect, M.StorageAdd, Agrees;
    hide S.OpPush, S.OpValue, S.OpArray, S.OpSlice, S.OpField, S.OpNative;
    hide GenPush, GenValue, GenArray, GenSlice, GenField, GenNative;
    if op.PushVar? || op.PushArg? || op.PushGlobal? {
      PushEmulates(c, st, fb, a, env, op, tys, d, g);
    } else if op.BitNot? {
      BitNotEmulates(c, op, tys, d, g);
    } else if op.Assign? {
      AssignEmulates(c, op, tys, d, g);
    } else if op.Calc? {
      CalcEmulates(c, op, tys, d, g);
    } else if op.ArrPush? {
      ArrPushEmulates(c, op, tys, d, g);
    } else if op.ArrAt? {
      ArrAtEmulates(c, op, tys, d, g);
    } else if op.ArrDrop? {
      ArrDropEmulates(c, op, tys, d, g);
    } else if op.SliceFromAr? || op.SliceFromOne? {
      SliceMakeEmulates(c, op, tys, d, g);
    } else if op.SliceAt? {
      SliceAtEmulates(c, op, tys, d, g);
    } else if op.SliceInc? {
      SliceIncEmulates(c, op, tys, d, g);
    } else if op.SliceDec? {
      SliceDecEmulates(c, op, tys, d, g);
    } else if op.StructAt? {
      FieldEmulates(c, c.p.native, a.argBase, op.field, tys, d, g);
    } else if op.CallNative? {
      NativeEmulates(c, c.p.native, tys, d, g);
    } else if op.Drop? {
      DropEmulates(a.argBase, op.n, tys, d);
    }
  }

  // ----- what operations keep -----

  /** What lies below the operands stays, the operands become the results, and no byte of
      a return frame appears or disappears. */
  ghost predicate Keeps(tys: seq<TypeId>, d: S.Data, r: S.OpRes)
    requires |tys| <= |d.params|
  {
    var n := |d.params| - |tys|;
    r.out.Normal? || r.out.Crashed? ==>
      && SameShape(d.mem, r.d.mem)
      && n <= |r.d.params| && r.d.params[..n] == d.params[..n]
      && (r.out.Normal? ==> |r.d.params| == n + |r.tys|)
  }

  lemma StoreShape(m: Mem, p: Ptr, cells: seq<Cell>)
    requires Open(cells)
    ensures Store(m, p, cells).Some? ==> SameShape(m, Store(m, p, cells).value)
  {
    if Store(m, p, cells).Some? { StoreKeepsShape(m, p, cells); }
  }

  lemma StoreNumShape(m: Mem, p: Ptr, x: int)
    ensures StoreNum(m, p, x).Some? ==> SameShape(m, StoreNum(m, p, x).value)
  {
    hide Store, SameShape;
    StoreShape(m, p, AsCells(Digits(x % TWO64, NUM_SIZE)));
  }

  lemma StoreCountShape(m: Mem, p: Ptr, x: nat)
    ensures StoreCount(m, p, x).Some? ==> SameShape(m, StoreCount(m, p, x).value)
  {
    hide Store, SameShape;
    StoreShape(m, p, AsCells(Digits(x % TWO32, COUNT_SIZE)));
  }

  lemma StorePtrShape(m: Mem, p: Ptr, q: Ptr)
    ensures StorePtr(m, p, q).Some? ==> SameShape(m, StorePtr(m, p, q).value)
  {
    hide Store, SameShape;
    if q.Raw? {
      StoreShape(m, p, AsCells(Digits(q.addr % TWO64, PTR_SIZE)));
    } else {
      StoreShape(m, p, WordCells(Address(q)));
    }
  }

  lemma LoadOpen(m: Mem, p: Ptr, n: nat)
    ensures Load(m, p, n).Some? ==> Open(Load(m, p, n).value)
  {
  }

  lemma ShapeTrans(a: Mem, b: Mem, c: Mem)
    requires SameShape(a, b) && SameShape(b, c)
    ensures SameShape(a, c)
  {
  }

  lemma StoreSliceShape(m: Mem, slice: Ptr, to: Ptr, len: nat)
    ensures S.StoreSlice(m, slice, to, len).Some? ==> SameShape(m, S.StoreSlice(m, slice, to, len).value)
  {
    hide SameShape, StorePtr, StoreCount;
    StorePtrShape(m, slice, to);
    var n := StorePtr(m, slice, to);
    if n.Some? {
      StoreCountShape(n.value, PtrAdd(slice, SLICE_LEN_OFFSET), len);
      if StoreCount(n.value, PtrAdd(slice, SLICE_LEN_OFFSET), len).Some? {
        ShapeTrans(m, n.value, StoreCount(n.value, PtrAdd(slice, SLICE_LEN_OFFSET), len).value);
      }
    }
  }

  lemma PushKeeps(globals: seq<Global>, f: Func, a: S.Act, env: S.Env, op: Op, tys: seq<TypeId>, d: S.Data)
    requires (op.PushVar? || op.PushArg? || op.PushGlobal?) && |tys| <= |d.params|
    ensures Keeps(tys, d, S.OpPush(globals, f, a, env, op, tys, d))
  {
  }

  lemma ValueKeeps(types: seq<Type>, op: Op, tys: seq<TypeId>, d: S.Data)
    requires (op.Assign? || op.Calc? || op.BitNot?) && |tys| <= |d.params|
    ensures Keeps(tys, d, S.OpValue(types, op, tys, d))
  {
    hide LoadNum, StoreNum, Load, Store, SameShape, Compute;
    SameShapeSelf(d.mem);
    if op.BitNot? {
      if |tys| >= 1 && LoadNum(d.mem, S.Top(d)).Some? { StoreNumShape(d.mem, S.Top(d), -1 - LoadNum(d.mem, S.Top(d)).value); }
    } else if |tys| >= 2 {
      var dst, src, tid := S.Second(d), S.Top(d), tys[|tys| - 1];
      if op.Assign? {
        if tid < |types| {
          LoadOpen(d.mem, src, types[tid].payload);
          var cells := Load(d.mem, src, types[tid].payload);
          if cells.Some? { StoreShape(d.mem, dst, cells.value); }
        }
      } else if LoadNum(d.mem, src).Some? && LoadNum(d.mem, dst).Some? {
        var l, r := LoadNum(d.mem, dst).value, LoadNum(d.mem, src).value;
        if op.a.Div? ==> r != 0 { StoreNumShape(d.mem, dst, Compute(op.a, l, r)); }
      }
    }
  }

  lemma SameShapeSelf(m: Mem)
    ensures SameShape(m, m)
  {
  }

  lemma ArrPushKeeps(types: seq<Type>, op: Op, tys: seq<TypeId>, d: S.Data)
    requires op.ArrPush? && |tys| <= |d.params|
    ensures Keeps(tys, d, S.OpArray(types, op, tys, d))
  {
    hide LoadCount, StoreCount, Load, Store, SameShape, PtrAdd, Elem;
    SameShapeSelf(d.mem);
    if |tys| >= 2 && tys[|tys| - 2] < |types| && types[tys[|tys| - 2]].kind.KArray? {
      var arr, arg, kind := S.Second(d), S.Top(d), types[tys[|tys| - 2]].kind;
      if kind.elem < |types| {
        var len, size := LoadCount(d.mem, arr), types[kind.elem].payload;
        LoadOpen(d.mem, arg, size);
        var cells := Load(d.mem, arg, size);
        if len.Some? && cells.Some? {
          var at := Elem(PtrAdd(arr, kind.dataOffset), size, len.value);
          StoreShape(d.mem, at, cells.value);
          var mem := Store(d.mem, at, cells.value);
          if mem.Some? {
            StoreCountShape(mem.value, arr, len.value + 1);
            if StoreCount(mem.value, arr, len.value + 1).Some? {
              ShapeTrans(d.mem, mem.value, StoreCount(mem.value, arr, len.value + 1).value);
            }
          }
        }
      }
    }
  }

  lemma ArrOtherKeeps(types: seq<Type>, op: Op, tys: seq<TypeId>, d: S.Data)
    requires (op.ArrAt? || op.ArrDrop?) && |tys| <= |d.params|
    ensures Keeps(tys, d, S.OpArray(types, op, tys, d))
  {
    hide LoadCount, StoreCount, LoadNum, SameShape, PtrAdd, Elem;
    SameShapeSelf(d.mem);
    if op.ArrDrop? && |tys| >= 2 && LoadCount(d.mem, S.Second(d)).Some? && LoadNum(d.mem, S.Top(d)).Some? {
      var len, x := LoadCount(d.mem, S.Second(d)).value, LoadNum(d.mem, S.Top(d)).value;
      if !S.IndexRefused(x, len + 1) { StoreCountShape(d.mem, S.Second(d), len - x % TWO32); }
    }
  }

  lemma SliceKeeps(types: seq<Type>, op: Op, tys: seq<TypeId>, d: S.Data)
    requires op.SliceFromAr? || op.SliceFromOne? || op.SliceAt? || op.SliceInc? || op.SliceDec?
    requires |tys| <= |d.params|
    ensures Keeps(tys, d, S.OpSlice(types, op, tys, d))
  {
    hide LoadCount, StoreCount, LoadNum, LoadPtr, StorePtr, SameShape, PtrAdd, Elem, S.StoreSlice, S.SliceByNum;
    SameShapeSelf(d.mem);
    if |tys| >= 2 {
      var slice, arg, argTid := S.Second(d), S.Top(d), tys[|tys| - 1];
      if op.SliceFromOne? {
        StoreSliceShape(d.mem, slice, arg, 1);
      } else if op.SliceFromAr? {
        if argTid < |types| && types[argTid].kind.KArray? && LoadCount(d.mem, arg).Some? {
          StoreSliceShape(d.mem, slice, PtrAdd(arg, types[argTid].kind.dataOffset), LoadCount(d.mem, arg).value);
        }
      } else if LoadNum(d.mem, arg).Some? && tys[|tys| - 2] < |types| {
        var kind := types[tys[|tys| - 2]].kind;
        if kind.KSlice? || kind.KView? {
          if kind.elem < |types| { SliceByNumKeeps(op, kind.elem, types[kind.elem].payload, tys, d, LoadNum(d.mem, arg).value); }
        }
      }
    }
  }

  lemma SliceByNumKeeps(op: Op, elem: TypeId, size: nat, tys: seq<TypeId>, d: S.Data, x: int)
    requires (op.SliceAt? || op.SliceInc? || op.SliceDec?) && 2 <= |tys| <= |d.params|
    ensures Keeps(tys, d, S.SliceByNum(op, elem, size, tys, d, x))
  {
    hide LoadCount, StoreCount, LoadPtr, StorePtr, SameShape, PtrAdd, Elem;
    SameShapeSelf(d.mem);
    var slice := S.Second(d);
    var to, len := LoadPtr(d.mem, slice), LoadCount(d.mem, PtrAdd(slice, SLICE_LEN_OFFSET));
    if to.Some? && len.Some? && !S.IndexRefused(x, len.value + 1) {
      StorePtrShape(d.mem, slice, Elem(to.value, size, x));
      StoreCountShape(d.mem, PtrAdd(slice, SLICE_LEN_OFFSET), len.value - x % TWO32);
    }
  }

  lemma NativeKeeps(native: Native, types: seq<Type>, tys: seq<TypeId>, d: S.Data)
    requires |tys| <= |d.params|
    ensures Keeps(tys, d, S.OpNative(native, types, tys, d))
  {
    hide LoadFn, SameShape;
    SameShapeSelf(d.mem);
  }

  lemma OpKeeps(p: Program, f: Func, a: S.Act, env: S.Env, op: Op, tys: seq<TypeId>, d: S.Data)
    requires !op.Call? && |tys| <= |d.params|
    ensures Keeps(tys, d, S.SimpleOp(p, f, a, env, op, tys, d))
  {
    hide S.OpPush, S.OpValue, S.OpArray, S.OpSlice, S.OpNative;
    if op.PushVar? || op.PushArg? || op.PushGlobal? {
      PushKeeps(p.globals, f, a, env, op, tys, d);
    } else if op.Assign? || op.Calc? || op.BitNot? {
      ValueKeeps(f.types, op, tys, d);
    } else if op.ArrPush? {
      ArrPushKeeps(f.types, op, tys, d);
    } else if op.ArrAt? || op.ArrDrop? {
      ArrOtherKeeps(f.types, op, tys, d);
    } else if op.CallNative? {
      NativeKeeps(p.native, f.types, tys, d);
    } else if op.SliceFromAr? || op.SliceFromOne? || op.SliceAt? || op.SliceInc? || op.SliceDec? {
      SliceKeeps(f.types, op, tys, d);
    }
  }
}
