/** One step of the virtual machine, as a function on its state. */
module Machine {
  import opened Memory
  import opened Ir
  import opened Bytecode

  /** The code of every function, and the native callbacks. */
  datatype Image = Image(codes: seq<seq<u8>>, native: Native)

  /** Where a call returns to. The bytes of these frames lie in the storage, where they show
      as Saved; their contents are kept beside it. `Bottom` is the frame vm_run starts with. */
  datatype Return = Bottom | Back(fn: nat, pc: nat, argBase: nat)

  /** What a crash pad restores. `retLen` counts the return frames below `storageLen`. */
  datatype Pad = Pad(pc: nat, fn: nat, storageLen: nat, paramLen: nat, argBase: nat, retLen: nat)

  datatype Mode = Running | Crashing | Halted(r: VmResult)

  datatype Config = Config(
    mode: Mode, fn: nat, pc: nat, argBase: nat,
    mem: Mem, params: seq<Ptr>, rets: seq<Return>, pads: seq<Pad>, ans: VmResult)

  /** What one data instruction does: go on, crash softly, or stop the machine. */
  datatype Effect =
    | Next(mem: Mem, params: seq<Ptr>)
    | Soft(code: VmResult, mem: Mem, params: seq<Ptr>)
    | Stop(r: VmResult)

  function Zeros(n: nat): seq<Cell> { seq(n, i => Byte(0)) }

  function SavedCells(n: nat): seq<Cell> { seq(n, i => Saved) }

  /** Growing gives zero bytes. Cutting into a saved return frame is outside the model. */
  function StorageAdd(m: Mem, ps: seq<Ptr>, amount: int): Effect {
    var n := |m.storage|;
    if amount >= 0 then Next(m.(storage := m.storage + Zeros(amount)), ps)
    else if -amount > n then Soft(VM_STORAGE_UNDERFLOW, m, ps)
    else if !Open(m.storage[n + amount..]) then Stop(ASTRAY)
    else Next(m.(storage := m.storage[..n + amount]), ps)
  }

  function After(m: Option<Mem>, ps: seq<Ptr>): Effect {
    match m case None => Stop(UNDEFINED) case Some(mem) => Next(mem, ps)
  }

  function PushEffect(i: Instr, argBase: nat, m: Mem, ps: seq<Ptr>): Effect
    requires i.IPushVar? || i.IPushArg? || i.IPushGlobal? || i.IDropN?
  {
    match i
    case IPushVar(off) =>
      if off > 0 || -off > |m.storage| then Stop(VM_INVALID_STORAGE_OFFSET)
      else Next(m, ps + [Stor(|m.storage| + off)])
    case IPushArg(idx) =>
      if argBase + idx >= |ps| then Stop(VM_INVALID_ARG) else Next(m, ps + [ps[argBase + idx]])
    case IPushGlobal(mem) =>
      if mem == 0 then Stop(VM_NULL_GLOBAL) else Next(m, ps + [Glob(mem - 1, 0)])
    case IDropN(count) =>
      if |ps| < count then Stop(VM_PARAM_UNDERFLOW) else Next(m, ps[..|ps| - count])
  }

  function ValueEffect(i: Instr, m: Mem, ps: seq<Ptr>): Effect
    requires i.ICopy? || i.ICalc? || i.IBitNot?
  {
    var n := |ps|;
    match i
    case ICopy(bytes) =>
      if n < 2 then Stop(VM_PARAM_UNDERFLOW)
      else (match Load(m, ps[n - 1], bytes)
        case None => Stop(UNDEFINED)
        case Some(cells) => After(Store(m, ps[n - 2], cells), ps[..n - 1]))
    case ICalc(a) =>
      if n < 2 then Stop(VM_PARAM_UNDERFLOW)
      else (match LoadNum(m, ps[n - 1])
        case None => Stop(UNDEFINED)
        case Some(rhs) =>
          match LoadNum(m, ps[n - 2])
          case None => Stop(UNDEFINED)
          case Some(lhs) =>
            if a.Div? && rhs == 0 then Soft(VM_DIV_BY_ZERO, m, ps[..n - 1])
            else if QuotientOverflows(a, lhs, rhs) then Stop(UNDEFINED)
            else After(StoreNum(m, ps[n - 2], Compute(a, lhs, rhs)), ps[..n - 1]))
    case IBitNot =>
      if n < 1 then Stop(VM_PARAM_UNDERFLOW)
      else (match LoadNum(m, ps[n - 1])
        case None => Stop(UNDEFINED)
        case Some(x) => After(StoreNum(m, ps[n - 1], -1 - x), ps))
  }

  function ArrayEffect(i: Instr, m: Mem, ps: seq<Ptr>): Effect
    requires i.IArrAt? || i.IArrPush? || i.IArrDrop?
  {
    var n := |ps|;
    if n < 2 then Stop(VM_PARAM_UNDERFLOW) else
    var arr, rest := ps[n - 2], ps[..n - 1];
    match i
    case IArrPush(dataOffset, elemSize, capacity) =>
      (match LoadCount(m, arr)
       case None => Stop(UNDEFINED)
       case Some(len) =>
         if len >= capacity then Soft(VM_ARRAY_CAPACITY, m, rest)
         else match Load(m, ps[n - 1], elemSize)
           case None => Stop(UNDEFINED)
           case Some(cells) =>
             match Store(m, Elem(PtrAdd(arr, dataOffset), elemSize, len), cells)
             case None => Stop(UNDEFINED)
             case Some(m1) => After(StoreCount(m1, arr, len + 1), rest))
    case IArrAt(dataOffset, elemSize, capacity) =>
      (match (LoadNum(m, ps[n - 1]), LoadCount(m, arr))
       case (Some(idx), Some(len)) =>
         if idx < 0 || idx % TWO32 >= len || idx % TWO32 >= capacity then Soft(VM_ARRAY_BOUNDS, m, rest)
         else Next(m, ps[..n - 2] + [Elem(PtrAdd(arr, dataOffset), elemSize, idx)])
       case _ => Stop(UNDEFINED))
    case IArrDrop =>
      (match (LoadNum(m, ps[n - 1]), LoadCount(m, arr))
       case (Some(amount), Some(len)) =>
         if amount < 0 || amount % TWO32 > len then Soft(VM_ARRAY_UNDERFLOW, m, rest)
         else After(StoreCount(m, arr, len - amount % TWO32), rest)
       case _ => Stop(UNDEFINED))
  }

  function WriteSlice(m: Mem, slice: Ptr, lenOffset: nat, data: Ptr, len: nat): Option<Mem> {
    match StorePtr(m, slice, data)
    case None => None
    case Some(m1) => StoreCount(m1, PtrAdd(slice, lenOffset), len)
  }

  function SliceEffect(i: Instr, m: Mem, ps: seq<Ptr>): Effect
    requires i.ISliceFromArr? || i.ISliceFromOne? || i.ISliceAt? || i.ISliceInc? || i.ISliceDec?
  {
    var n := |ps|;
    if n < 2 then Stop(VM_PARAM_UNDERFLOW) else
    var slice, top, rest := ps[n - 2], ps[n - 1], ps[..n - 1];
    match i
    case ISliceFromArr(dataOffset, _, lenOffset) =>
      (match LoadCount(m, top)
       case None => Stop(UNDEFINED)
       case Some(len) => After(WriteSlice(m, slice, lenOffset, PtrAdd(top, dataOffset), len), rest))
    case ISliceFromOne(lenOffset) => After(WriteSlice(m, slice, lenOffset, top, 1), rest)
    case ISliceAt(elemSize, lenOffset) =>
      (match (LoadNum(m, top), LoadPtr(m, slice), LoadCount(m, PtrAdd(slice, lenOffset)))
       case (Some(idx), Some(data), Some(len)) =>
         if idx < 0 || idx % TWO32 >= len then Soft(VM_ARRAY_BOUNDS, m, rest)
         else Next(m, ps[..n - 2] + [Elem(data, elemSize, idx)])
       case _ => Stop(UNDEFINED))
    case ISliceInc(elemSize, lenOffset) => SliceMove(true, elemSize, lenOffset, m, ps)
    case ISliceDec(elemSize, lenOffset) => SliceMove(false, elemSize, lenOffset, m, ps)
  }

  function SliceMove(inc: bool, elemSize: nat, lenOffset: nat, m: Mem, ps: seq<Ptr>): Effect
    requires |ps| >= 2
  {
    var slice, rest := ps[|ps| - 2], ps[..|ps| - 1];
    match LoadNum(m, ps[|ps| - 1])
    case None => Stop(UNDEFINED)
    case Some(amount) =>
      if amount < 0 then Soft(VM_ARRAY_BOUNDS, m, rest)
      else match (LoadPtr(m, slice), LoadCount(m, PtrAdd(slice, lenOffset)))
        case (Some(data), Some(len)) =>
          if amount % TWO32 > len then Soft(VM_ARRAY_BOUNDS, m, rest)
          else if inc then After(StorePtr(m, slice, Elem(data, elemSize, amount)), rest)
          else After(StoreCount(m, PtrAdd(slice, lenOffset), len - amount % TWO32), rest)
        case _ => Stop(UNDEFINED)
  }

  /** Native code that changes the shape of the memory is outside the model. */
  function NativeEffect(native: Native, argc: nat, m: Mem, ps: seq<Ptr>): Effect {
    if |ps| < 1 then Stop(VM_PARAM_UNDERFLOW) else
    var below := ps[..|ps| - 1];
    match LoadFn(m, ps[|ps| - 1])
    case None => Stop(UNDEFINED)
    case Some(fn) =>
      if |below| < argc then Stop(VM_PARAM_UNDERFLOW)
      else if fn.None? then Stop(VM_NULL_NATIVE_FUNC)
      else match native(fn.value, m, below)
        case NativeOk(m1) => if SameShape(m, m1) then Next(m1, below[..|below| - argc]) else Stop(UNDEFINED)
        case NativeSoft(code, m1) =>
          if !SameShape(m, m1) then Stop(UNDEFINED)
          else if code == VM_OK then Next(m1, below[..|below| - argc])
          else if code == VM_HARD_CRASH then Stop(VM_HARD_CRASH)
          else Soft(code, m1, below)
        case NativeHard => Stop(VM_HARD_CRASH)
        case NativeWild => Stop(UNDEFINED)
  }

  predicate IsData(i: Instr) {
    !(i.IDone? || i.IRet? || i.IJump? || i.IBranch? || i.IBranchTop? || i.IPushCrash? || i.IPopCrash? ||
      i.ICrash? || i.IHardCrash? || i.ICall? || i.IExit?)
  }

  function DataEffect(native: Native, i: Instr, argBase: nat, m: Mem, ps: seq<Ptr>): Effect
    requires IsData(i)
  {
    if i.IStorageAdd? then StorageAdd(m, ps, i.amount)
    else if i.IPushVar? || i.IPushArg? || i.IPushGlobal? || i.IDropN? then PushEffect(i, argBase, m, ps)
    else if i.ICopy? || i.ICalc? || i.IBitNot? then ValueEffect(i, m, ps)
    else if i.IArrAt? || i.IArrPush? || i.IArrDrop? then ArrayEffect(i, m, ps)
    else if i.ICallNative? then NativeEffect(native, i.argc, m, ps)
    else if i.IStructAt? then
      if |ps| < 1 then Stop(VM_PARAM_UNDERFLOW) else Next(m, ps[..|ps| - 1] + [PtrAdd(ps[|ps| - 1], i.fieldOffset)])
    else SliceEffect(i, m, ps)
  }

  // ----- control -----

  function Halt(c: Config, r: VmResult): Config { c.(mode := Halted(r)) }

  function Noted(ans: VmResult, code: VmResult): VmResult { if ans == VM_OK then code else ans }

  function ToCrash(c: Config, code: VmResult): Config { c.(mode := Crashing, ans := Noted(c.ans, code)) }

  /** An instruction that is not a data instruction, with the machine already behind it. */
  function Control(im: Image, i: Instr, c: Config): Config
    requires !IsData(i)
  {
    match i
    case IDone => Halt(c, VM_OK)
    case IRet => DoReturn(c)
    case IJump(target) => c.(pc := target)
    case IBranchTop(yes, no) =>
      if |c.params| < 1 then Halt(c, VM_PARAM_UNDERFLOW)
      else (match LoadNum(c.mem, c.params[|c.params| - 1])
        case None => Halt(c, UNDEFINED)
        case Some(x) => c.(pc := if x != 0 then yes else no, params := c.params[..|c.params| - 1]))
    case IBranch(offset, yes, no) =>
      if offset > 0 || -offset > |c.mem.storage| then Halt(c, VM_INVALID_STORAGE_OFFSET)
      else (match LoadNum(c.mem, Stor(|c.mem.storage| + offset))
        case None => Halt(c, UNDEFINED)
        case Some(x) => c.(pc := if x != 0 then yes else no))
    case IPushCrash(target) =>
      c.(pads := c.pads + [Pad(target, c.fn, |c.mem.storage|, |c.params|, c.argBase, |c.rets|)])
    case IPopCrash =>
      if |c.pads| == 0 then Halt(c, VM_CRASH_UNDERFLOW) else c.(pads := c.pads[..|c.pads| - 1])
    case ICrash => ToCrash(c, VM_CRASH)
    case IHardCrash => Halt(c, VM_HARD_CRASH)
    case ICall(code, argc) =>
      if code == 0 then Halt(c, VM_NULL_CALL_TARGET)
      else if |c.params| < argc then Halt(c, VM_PARAM_UNDERFLOW)
      else if code - 1 >= |im.codes| then Halt(c, ASTRAY)
      else Enter(c, code - 1, |c.params| - argc, Back(c.fn, c.pc, c.argBase))
    case IExit(_) => Halt(c, ASTRAY)
  }

  /** A new activation: its return frame goes onto the storage. */
  function Enter(c: Config, fn: nat, argBase: nat, ret: Return): Config {
    c.(mem := c.mem.(storage := c.mem.storage + SavedCells(RETURN_SIZE)), rets := c.rets + [ret],
       fn := fn, pc := 0, argBase := argBase)
  }

  function DoReturn(c: Config): Config {
    var n := |c.mem.storage|;
    if n < RETURN_SIZE then Halt(c, VM_STORAGE_UNDERFLOW)
    else if |c.rets| == 0 || c.mem.storage[n - RETURN_SIZE..] != SavedCells(RETURN_SIZE) then Halt(c, ASTRAY)
    else
      var ret := c.rets[|c.rets| - 1];
      var d := c.(mem := c.mem.(storage := c.mem.storage[..n - RETURN_SIZE]), rets := c.rets[..|c.rets| - 1]);
      if ret.Bottom? then Halt(d, VM_OK) else d.(fn := ret.fn, pc := ret.pc, argBase := ret.argBase)
  }

  /** One round of the unwinding loop: the newest pad is popped, and taken if what it
      recorded is still there. */
  function Unwinding(c: Config): Config {
    if |c.pads| == 0 then
      var e := c.(ans := Noted(c.ans, VM_CRASH_UNDERFLOW));
      Halt(e, e.ans)
    else
    var pad, d := c.pads[|c.pads| - 1], c.(pads := c.pads[..|c.pads| - 1]);
    if pad.storageLen > |c.mem.storage| || pad.paramLen > |c.params| || pad.retLen > |c.rets| then
      var e := d.(ans := Noted(c.ans, VM_BAD_CRASH_FRAME));
      if |d.pads| == 0 then Halt(e, e.ans) else e
    else d.(mode := Running, fn := pad.fn, pc := pad.pc, argBase := pad.argBase, params := c.params[..pad.paramLen],
            mem := c.mem.(storage := c.mem.storage[..pad.storageLen]), rets := c.rets[..pad.retLen])
  }

  function Applied(c: Config, e: Effect): Config {
    match e
    case Next(m, ps) => c.(mem := m, params := ps)
    case Soft(code, m, ps) => ToCrash(c.(mem := m, params := ps), code)
    case Stop(r) => Halt(c, r)
  }

  function Step(im: Image, c: Config): Config {
    match c.mode
    case Halted(_) => c
    case Crashing => Unwinding(c)
    case Running =>
      if c.fn >= |im.codes| then Halt(c, ASTRAY) else
      match Fetch(im.codes[c.fn], c.pc)
      case BadOpcode => Halt(c, VM_INVALID_BYTECODE)
      case OffEnd => Halt(c, ASTRAY)
      case Got(i, next) =>
        var d := c.(pc := next);
        if IsData(i) then Applied(d, DataEffect(im.native, i, d.argBase, d.mem, d.params)) else Control(im, i, d)
  }

  function Steps(im: Image, n: nat, c: Config): Config {
    if n == 0 then c else Steps(im, n - 1, Step(im, c))
  }

  lemma {:induction false} StepsAdd(im: Image, m: nat, n: nat, c: Config)
    ensures Steps(im, m + n, c) == Steps(im, n, Steps(im, m, c))
  {
    if m > 0 {
      var s := Step(im, c);
      StepsAdd(im, m - 1, n, s);
      assert Steps(im, m, c) == Steps(im, m - 1, s);
      assert Steps(im, m + n, c) == Steps(im, m - 1 + n, s);
    }
  }

  lemma {:induction false} HaltedStays(im: Image, n: nat, c: Config)
    requires c.mode.Halted?
    ensures Steps(im, n, c) == c
  {
    if n > 0 { HaltedStays(im, n - 1, c); }
  }

  /** The state in which vm_run begins to execute function fn. */
  function Start(m: Mem, ps: seq<Ptr>, rets: seq<Return>, pads: seq<Pad>, fn: nat): Config {
    Enter(Config(Running, fn, 0, 0, m, ps, rets, pads, VM_OK), fn, 0, Bottom)
  }
}
