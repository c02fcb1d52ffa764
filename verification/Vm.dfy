/** The virtual machine as the program runs it: one loop over fields that it updates. */
module Vm {
  import opened Memory
  import opened Ir
  import opened Bytecode
  import opened Stepping
  import M = Machine

  class VM {
    var mem: Mem
    var params: seq<Ptr>
    var rets: seq<M.Return>
    var pads: seq<M.Pad>
    var fn: nat       // `base`: the function whose code runs
    var pc: nat
    var argBase: nat  // `param_base`
    var ans: VmResult

    constructor (m: Mem, ps: seq<Ptr>, crashStack: seq<M.Pad>)
      ensures mem == m && params == ps && pads == crashStack && rets == []
    {
      mem, params, pads, rets := m, ps, crashStack, [];
      fn, pc, argBase, ans := 0, 0, 0, VM_OK;
    }

    ghost function Config(mode: M.Mode): M.Config
      reads this
    {
      M.Config(mode, fn, pc, argBase, mem, params, rets, pads, ans)
    }

    /** Where a round of the interpreter leaves the machine. */
    method PushReturn(ret: M.Return)
      modifies this
      ensures Config(M.Running) == old(Config(M.Running)).(
        mem := old(mem).(storage := old(mem.storage) + M.SavedCells(RETURN_SIZE)), rets := old(rets) + [ret])
    {
      mem := mem.(storage := mem.storage + M.SavedCells(RETURN_SIZE));
      rets := rets + [ret];
    }

    /** The newest pad is popped, and taken if what it recorded is still there. */
    method SetCrashFrame() returns (r: VmResult)
      modifies this
      ensures old(pads) == [] ==> r == VM_CRASH_UNDERFLOW && Config(M.Crashing) == old(Config(M.Crashing))
      ensures old(pads) != [] ==>
        var pad := old(pads)[|old(pads)| - 1];
        var c := old(Config(M.Crashing)).(pads := old(pads)[..|old(pads)| - 1]);
        if pad.storageLen > |old(mem.storage)| || pad.paramLen > |old(params)| || pad.retLen > |old(rets)|
        then r == VM_BAD_CRASH_FRAME && Config(M.Crashing) == c
        else r == VM_OK && Config(M.Running) == c.(mode := M.Running, fn := pad.fn, pc := pad.pc, argBase := pad.argBase,
          params := c.params[..pad.paramLen], mem := c.mem.(storage := c.mem.storage[..pad.storageLen]), rets := c.rets[..pad.retLen])
    {
      if |pads| == 0 { return VM_CRASH_UNDERFLOW; }
      var frame := pads[|pads| - 1];
      pads := pads[..|pads| - 1];
      if frame.storageLen > |mem.storage| { return VM_BAD_CRASH_FRAME; }
      if frame.paramLen > |params| || frame.retLen > |rets| { return VM_BAD_CRASH_FRAME; }
      mem := mem.(storage := mem.storage[..frame.storageLen]);
      params := params[..frame.paramLen];
      rets := rets[..frame.retLen];
      pc, fn, argBase := frame.pc, frame.fn, frame.argBase;
      r := VM_OK;
    }

    method Note(code: VmResult)
      modifies this`ans
      ensures ans == M.Noted(old(ans), code)
    {
      if ans == VM_OK { ans := code; }
    }

    /** Pads are popped until one can be taken; `None` when the machine runs on. */
    method Unwind(im: M.Image) returns (r: Option<VmResult>, ghost n: nat)
      modifies this
      ensures Goes(im, old(Config(M.Crashing)), n, Config(if r.None? then M.Running else M.Halted(r.value)))
    {
      hide Goes;
      n := 0;
      ghost var start := Config(M.Crashing);
      GoesNowhere(im, start);
      while true
        invariant Goes(im, start, n, Config(M.Crashing))
        decreases |pads|
      {
        ghost var c := Config(M.Crashing);
        OneStep(im, c);
        var frame := SetCrashFrame();
        n := n + 1;
        if frame == VM_OK {
          GoesOn(im, start, n - 1, c, 1, Config(M.Running));
          return None, n;
        }
        Note(frame);
        if |pads| == 0 {
          GoesOn(im, start, n - 1, c, 1, Config(M.Halted(ans)));
          return Some(ans), n;
        }
        GoesOn(im, start, n - 1, c, 1, Config(M.Crashing));
      }
    }

    /** A return frame is popped off the storage. */
    method PopReturn() returns (ok: bool, ret: M.Return)
      modifies this
      ensures ok ==>
        M.DoReturn(old(Config(M.Running))) ==
        (if ret.Bottom? then Config(M.Halted(VM_OK)) else Config(M.Running).(fn := ret.fn, pc := ret.pc, argBase := ret.argBase))
      ensures !ok ==>
        && Config(M.Running) == old(Config(M.Running))
        && M.DoReturn(old(Config(M.Running))).mode == M.Halted(if |mem.storage| < RETURN_SIZE then VM_STORAGE_UNDERFLOW else ASTRAY)
    {
      ok, ret := false, M.Bottom;
      var n := |mem.storage|;
      if n < RETURN_SIZE { return; }
      if |rets| == 0 || mem.storage[n - RETURN_SIZE..] != M.SavedCells(RETURN_SIZE) { return; }
      ok, ret := true, rets[|rets| - 1];
      mem := mem.(storage := mem.storage[..n - RETURN_SIZE]);
      rets := rets[..|rets| - 1];
    }

    // ----- instructions that move data -----

    /** A soft crash. */
    method Crash(code: VmResult) returns (mode: M.Mode)
      modifies this`ans
      ensures ans == M.Noted(old(ans), code) && mode == M.Crashing
    {
      Note(code);
      mode := M.Crashing;
    }

    /** The top parameter is popped, and what was written stands. */
    method Write(m: Option<Mem>) returns (mode: M.Mode)
      requires |params| > 0
      modifies this`mem, this`params
      ensures Config(mode) == M.Applied(old(Config(M.Running)), M.After(m, old(params)[..|old(params)| - 1]))
    {
      if m.None? { return M.Halted(UNDEFINED); }
      mem, params := m.value, params[..|params| - 1];
      mode := M.Running;
    }

    method Resize(amount: int) returns (mode: M.Mode)
      modifies this
      ensures Config(mode) == M.Applied(old(Config(M.Running)), M.StorageAdd(old(mem), old(params), amount))
    {
      if amount >= 0 {
        mem := mem.(storage := mem.storage + M.Zeros(amount));
      } else {
        if -amount > |mem.storage| {
          mode := Crash(VM_STORAGE_UNDERFLOW);
          return;
        }
        var left := |mem.storage| + amount;
        if !Open(mem.storage[left..]) { return M.Halted(ASTRAY); }
        mem := mem.(storage := mem.storage[..left]);
      }
      mode := M.Running;
    }

    method RunPush(i: Instr) returns (mode: M.Mode)
      requires i.IPushVar? || i.IPushArg? || i.IPushGlobal? || i.IDropN?
      modifies this
      ensures Config(mode) == M.Applied(old(Config(M.Running)), M.PushEffect(i, old(argBase), old(mem), old(params)))
    {
      mode := M.Running;
      match i {
        case IPushVar(off) =>
          if off > 0 || -off > |mem.storage| { return M.Halted(VM_INVALID_STORAGE_OFFSET); }
          params := params + [Stor(|mem.storage| + off)];
        case IPushArg(idx) =>
          if argBase + idx >= |params| { return M.Halted(VM_INVALID_ARG); }
          params := params + [params[argBase + idx]];
        case IPushGlobal(pointer) =>
          if pointer == 0 { return M.Halted(VM_NULL_GLOBAL); }
          params := params + [Glob(pointer - 1, 0)];
        case IDropN(count) =>
          if |params| < count { return M.Halted(VM_PARAM_UNDERFLOW); }
          params := params[..|params| - count];
      }
    }

    method RunValue(i: Instr) returns (mode: M.Mode)
      requires i.ICopy? || i.ICalc? || i.IBitNot?
      modifies this
      ensures Config(mode) == M.Applied(old(Config(M.Running)), M.ValueEffect(i, old(mem), old(params)))
    {
      hide Load, Store, LoadNum, StoreNum, Compute;
      var n := |params|;
      if n < (if i.IBitNot? then 1 else 2) { return M.Halted(VM_PARAM_UNDERFLOW); }
      match i {
        case ICopy(bytes) =>
          var cells := Load(mem, params[n - 1], bytes);
          if cells.None? { return M.Halted(UNDEFINED); }
          mode := Write(Store(mem, params[n - 2], cells.value));
        case ICalc(a) =>
          var rhs := LoadNum(mem, params[n - 1]);
          var lhs := LoadNum(mem, params[n - 2]);
          if rhs.None? || lhs.None? { return M.Halted(UNDEFINED); }
          if a.Div? && rhs.value == 0 {
            params := params[..n - 1];
            mode := Crash(VM_DIV_BY_ZERO);
            return;
          }
          if QuotientOverflows(a, lhs.value, rhs.value) { return M.Halted(UNDEFINED); }
          mode := Write(StoreNum(mem, params[n - 2], Compute(a, lhs.value, rhs.value)));
        case IBitNot =>
          var x := LoadNum(mem, params[n - 1]);
          if x.None? { return M.Halted(UNDEFINED); }
          var m := StoreNum(mem, params[n - 1], -1 - x.value);
          if m.None? { return M.Halted(UNDEFINED); }
          mem := m.value;
          mode := M.Running;
      }
    }

    method RunArray(i: Instr) returns (mode: M.Mode)
      requires i.IArrAt? || i.IArrPush? || i.IArrDrop?
      modifies this
      ensures Config(mode) == M.Applied(old(Config(M.Running)), M.ArrayEffect(i, old(mem), old(params)))
    {
      hide Load, Store, LoadNum, LoadCount, StoreCount, PtrAdd, Elem;
      if |params| < 2 { return M.Halted(VM_PARAM_UNDERFLOW); }
      var arr, top := params[|params| - 2], params[|params| - 1];
      var len := LoadCount(mem, arr);
      if len.None? { return M.Halted(UNDEFINED); }
      if i.IArrPush? {
        if len.value >= i.capacity {
          params := params[..|params| - 1];
          mode := Crash(VM_ARRAY_CAPACITY);
          return;
        }
        var cells := Load(mem, top, i.elemSize);
        if cells.None? { return M.Halted(UNDEFINED); }
        var m := Store(mem, Elem(PtrAdd(arr, i.dataOffset), i.elemSize, len.value), cells.value);
        if m.None? { return M.Halted(UNDEFINED); }
        mode := Write(StoreCount(m.value, arr, len.value + 1));
        return;
      }
      var x := LoadNum(mem, top);
      if x.None? { return M.Halted(UNDEFINED); }
      if i.IArrAt? {
        params := params[..|params| - 1];
        if x.value < 0 || x.value % TWO32 >= len.value || x.value % TWO32 >= i.capacity {
          mode := Crash(VM_ARRAY_BOUNDS);
          return;
        }
        params := params[|params| - 1 := Elem(PtrAdd(arr, i.dataOffset), i.elemSize, x.value)];
        mode := M.Running;
      } else if x.value < 0 || x.value % TWO32 > len.value {
        params := params[..|params| - 1];
        mode := Crash(VM_ARRAY_UNDERFLOW);
      } else {
        mode := Write(StoreCount(mem, arr, len.value - x.value % TWO32));
      }
    }

    /** A slice is overwritten: its data pointer, then its length. */
    method WriteSlice(lenOffset: nat, data: Ptr, len: nat) returns (mode: M.Mode)
      requires |params| >= 2
      modifies this
      ensures Config(mode) == M.Applied(old(Config(M.Running)),
        M.After(M.WriteSlice(old(mem), old(params)[|old(params)| - 2], lenOffset, data, len), old(params)[..|old(params)| - 1]))
    {
      hide StorePtr, StoreCount, PtrAdd;
      var slice := params[|params| - 2];
      var m := StorePtr(mem, slice, data);
      if m.None? { return M.Halted(UNDEFINED); }
      mode := Write(StoreCount(m.value, PtrAdd(slice, lenOffset), len));
    }

    method RunSliceMove(inc: bool, elemSize: nat, lenOffset: nat) returns (mode: M.Mode)
      requires |params| >= 2
      modifies this
      ensures Config(mode) == M.Applied(old(Config(M.Running)), M.SliceMove(inc, elemSize, lenOffset, old(mem), old(params)))
    {
      hide LoadNum, LoadCount, StoreCount, LoadPtr, StorePtr, PtrAdd, Elem;
      var slice := params[|params| - 2];
      var amount := LoadNum(mem, params[|params| - 1]);
      if amount.None? { return M.Halted(UNDEFINED); }
      if amount.value < 0 {
        params := params[..|params| - 1];
        mode := Crash(VM_ARRAY_BOUNDS);
        return;
      }
      var data, len := LoadPtr(mem, slice), LoadCount(mem, PtrAdd(slice, lenOffset));
      if data.None? || len.None? { return M.Halted(UNDEFINED); }
      if amount.value % TWO32 > len.value {
        params := params[..|params| - 1];
        mode := Crash(VM_ARRAY_BOUNDS);
      } else if inc {
        mode := Write(StorePtr(mem, slice, Elem(data.value, elemSize, amount.value)));
      } else {
        mode := Write(StoreCount(mem, PtrAdd(slice, lenOffset), len.value - amount.value % TWO32));
      }
    }

    method RunSlice(i: Instr) returns (mode: M.Mode)
      requires i.ISliceFromArr? || i.ISliceFromOne? || i.ISliceAt? || i.ISliceInc? || i.ISliceDec?
      modifies this
      ensures Config(mode) == M.Applied(old(Config(M.Running)), M.SliceEffect(i, old(mem), old(params)))
    {
      hide LoadNum, LoadCount, LoadPtr, PtrAdd, Elem, M.WriteSlice, M.SliceMove;
      if |params| < 2 { return M.Halted(VM_PARAM_UNDERFLOW); }
      var slice, top := params[|params| - 2], params[|params| - 1];
      match i {
        case ISliceFromArr(dataOffset, _, lenOffset) =>
          var len := LoadCount(mem, top);
          if len.None? { return M.Halted(UNDEFINED); }
          mode := WriteSlice(lenOffset, PtrAdd(top, dataOffset), len.value);
        case ISliceFromOne(lenOffset) => mode := WriteSlice(lenOffset, top, 1);
        case ISliceAt(elemSize, lenOffset) =>
          var idx, data, len := LoadNum(mem, top), LoadPtr(mem, slice), LoadCount(mem, PtrAdd(slice, lenOffset));
          if idx.None? || data.None? || len.None? { return M.Halted(UNDEFINED); }
          params := params[..|params| - 1];
          if idx.value < 0 || idx.value % TWO32 >= len.value {
            mode := Crash(VM_ARRAY_BOUNDS);
            return;
          }
          params := params[|params| - 1 := Elem(data.value, elemSize, idx.value)];
          mode := M.Running;
        case ISliceInc(elemSize, lenOffset) => mode := RunSliceMove(true, elemSize, lenOffset);
        case ISliceDec(elemSize, lenOffset) => mode := RunSliceMove(false, elemSize, lenOffset);
      }
    }

    /** A native function is called through the pointer on top of the stack. */
    method RunNative(native: Native, argc: nat) returns (mode: M.Mode)
      modifies this
      ensures Config(mode) == M.Applied(old(Config(M.Running)), M.NativeEffect(native, argc, old(mem), old(params)))
    {
      hide LoadFn, SameShape;
      if |params| < 1 { return M.Halted(VM_PARAM_UNDERFLOW); }
      var below := params[..|params| - 1];
      var callee := LoadFn(mem, params[|params| - 1]);
      if callee.None? { return M.Halted(UNDEFINED); }
      if |below| < argc { return M.Halted(VM_PARAM_UNDERFLOW); }
      if callee.value.None? { return M.Halted(VM_NULL_NATIVE_FUNC); }
      var r := native(callee.value.value, mem, below);
      if r.NativeHard? { return M.Halted(VM_HARD_CRASH); }
      if r.NativeWild? || !SameShape(mem, r.mem) { return M.Halted(UNDEFINED); }
      if r.NativeSoft? && r.code == VM_HARD_CRASH { return M.Halted(VM_HARD_CRASH); }
      mem, params := r.mem, below;
      if r.NativeSoft? && r.code != VM_OK {
        mode := Crash(r.code);
      } else {
        params := params[..|params| - argc];
        mode := M.Running;
      }
    }

    /** One instruction that moves data. */
    method RunData(native: Native, i: Instr) returns (mode: M.Mode)
      requires M.IsData(i)
      modifies this
      ensures Config(mode) == M.Applied(old(Config(M.Running)), M.DataEffect(native, i, old(argBase), old(mem), old(params)))
    {
      hide M.StorageAdd, M.PushEffect, M.ValueEffect, M.ArrayEffect, M.SliceEffect, M.NativeEffect, PtrAdd;
      if i.IStorageAdd? {
        mode := Resize(i.amount);
      } else if i.IPushVar? || i.IPushArg? || i.IPushGlobal? || i.IDropN? {
        mode := RunPush(i);
      } else if i.ICopy? || i.ICalc? || i.IBitNot? {
        mode := RunValue(i);
      } else if i.IArrAt? || i.IArrPush? || i.IArrDrop? {
        mode := RunArray(i);
      } else if i.ICallNative? {
        mode := RunNative(native, i.argc);
      } else if i.IStructAt? {
        if |params| < 1 { return M.Halted(VM_PARAM_UNDERFLOW); }
        params := params[|params| - 1 := PtrAdd(params[|params| - 1], i.fieldOffset)];
        mode := M.Running;
      } else {
        mode := RunSlice(i);
      }
    }

    /** One instruction that moves control. */
    method RunControl(im: M.Image, i: Instr) returns (mode: M.Mode)
      requires !M.IsData(i)
      modifies this
      ensures Config(mode) == M.Control(im, i, old(Config(M.Running)))
    {
      mode := M.Running;
      match i {
        case IDone => mode := M.Halted(VM_OK);
        case IRet =>
          var ok, ret := PopReturn();
          if !ok {
            mode := M.Halted(if |mem.storage| < RETURN_SIZE then VM_STORAGE_UNDERFLOW else ASTRAY);
          } else if ret.Bottom? {
            mode := M.Halted(VM_OK);
          } else {
            fn, pc, argBase := ret.fn, ret.pc, ret.argBase;
          }
        case IJump(target) => pc := target;
        case IBranchTop(yes, no) =>
          if |params| < 1 { return M.Halted(VM_PARAM_UNDERFLOW); }
          match LoadNum(mem, params[|params| - 1]) {
            case None => mode := M.Halted(UNDEFINED);
            case Some(x) =>
              params := params[..|params| - 1];
              pc := if x != 0 then yes else no;
          }
        case IBranch(offset, yes, no) =>
          if offset > 0 || -offset > |mem.storage| { return M.Halted(VM_INVALID_STORAGE_OFFSET); }
          match LoadNum(mem, Stor(|mem.storage| + offset)) {
            case None => mode := M.Halted(UNDEFINED);
            case Some(x) => pc := if x != 0 then yes else no;
          }
        case IPushCrash(target) =>
          pads := pads + [M.Pad(target, fn, |mem.storage|, |params|, argBase, |rets|)];
        case IPopCrash =>
          if |pads| == 0 { return M.Halted(VM_CRASH_UNDERFLOW); }
          pads := pads[..|pads| - 1];
        case ICrash =>
          Note(VM_CRASH);
          mode := M.Crashing;
        case IHardCrash => mode := M.Halted(VM_HARD_CRASH);
        case ICall(code, argc) =>
          if code == 0 { return M.Halted(VM_NULL_CALL_TARGET); }
          if |params| < argc { return M.Halted(VM_PARAM_UNDERFLOW); }
          if code - 1 >= |im.codes| { return M.Halted(ASTRAY); }
          PushReturn(M.Back(fn, pc, argBase));
          fn, pc, argBase := code - 1, 0, |params| - argc;
        case IExit(_) => mode := M.Halted(ASTRAY);
      }
    }

    /** vm_run, given up after `limit` rounds: whatever it returns is the result of the run of
        the machine, and when it gives up the machine has made at least that many steps. */
    method Run(im: M.Image, code: nat, limit: nat) returns (r: Option<VmResult>, ghost n: nat)
      requires code < |im.codes|
      modifies this
      ensures M.Steps(im, n, M.Start(old(mem), old(params), old(rets), old(pads), code)) ==
        Config(if r.None? then M.Running else M.Halted(r.value))
      ensures r.None? ==> n >= limit
    {
      hide Goes, M.Step, M.Steps;
      PushReturn(M.Bottom);
      fn, pc, argBase, ans := code, 0, 0, VM_OK;
      ghost var start := Config(M.Running);
      n := 0;
      GoesNowhere(im, start);
      var rounds := 0;
      while rounds < limit
        invariant rounds <= limit && n >= rounds
        invariant Goes(im, start, n, Config(M.Running))
      {
        ghost var c := Config(M.Running);
        var mode;
        mode := Round(im);
        OneStep(im, c);
        GoesOn(im, start, n, c, 1, Config(mode));
        n := n + 1;
        if mode.Halted? {
          GoesSteps(im, start, n, Config(mode));
          return Some(mode.r), n;
        }
        if mode.Crashing? {
          ghost var d := Config(M.Crashing);
          var stop;
          ghost var k;
          stop, k := Unwind(im);
          GoesOn(im, start, n, d, k, Config(if stop.None? then M.Running else M.Halted(stop.value)));
          n := n + k;
          if stop.Some? {
            GoesSteps(im, start, n, Config(M.Halted(stop.value)));
            return stop, n;
          }
        }
        rounds := rounds + 1;
      }
      r := None;
      GoesSteps(im, start, n, Config(M.Running));
    }

    /** One round of the interpreter: fetch an instruction and execute it. */
    method Round(im: M.Image) returns (mode: M.Mode)
      modifies this
      ensures Config(mode) == M.Step(im, old(Config(M.Running)))
    {
      if fn >= |im.codes| { return M.Halted(ASTRAY); }
      match Fetch(im.codes[fn], pc) {
        case BadOpcode => mode := M.Halted(VM_INVALID_BYTECODE);
        case OffEnd => mode := M.Halted(ASTRAY);
        case Got(i, next) =>
          pc := next;
          if M.IsData(i) {
            mode := RunData(im.native, i);
          } else {
            mode := RunControl(im, i);
          }
      }
    }
  }
}
