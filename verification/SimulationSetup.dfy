/** How a run of the block tree and a run of the machine on its code correspond. */
module SimulationSetup {
  import opened Memory
  import opened Ir
  import opened Bytecode
  import opened Codegen
  import opened CodegenFacts
  import opened OpSimulation
  import opened Stepping
  import S = Semantics
  import M = Machine

  /** Function fn fits the widths of the machine, and its code, if it compiles, is loaded. */
  ghost predicate FuncBuilt(p: Program, im: M.Image, fn: nat) {
    && fn < |p.funcs| == |im.codes|
    && var c := FuncCtx(p, fn);
    && CtxFits(c) && TreeFits(c.f.body)
    && (GenFunc(c).Some? ==> CodeLength(GenFunc(c).value) <= MAX_TARGET && im.codes[fn] == EncodeAll(GenFunc(c).value))
  }

  /** The image is the compiled program. */
  ghost predicate Built(p: Program, im: M.Image) {
    && im.native == p.native && |im.codes| == |p.funcs|
    && forall fn: nat :: fn < |p.funcs| ==> FuncBuilt(p, im, fn)
  }

  lemma {:induction false} CompiledAt(p: Program, n: nat, k: nat)
    requires k < n <= |p.funcs|
    ensures Compiled(p, n)[k] == GenFunc(FuncCtx(p, k)).Some?
  {
    if k < n - 1 { CompiledAt(p, n - 1, k); }
  }

  /** Where a block runs: the function and its arguments, the start fb of its frame, the
      number cb of pads below the function's own, the return frames and pads there are, and
      the ends of the scopes around the block. */
  datatype Spot = Spot(fn: nat, argBase: nat, fb: nat, cb: nat, rets: seq<M.Return>, pads: seq<M.Pad>, ends: seq<nat>)

  /** The machine at byte pc of the function's code, in the state d. */
  function At(s: Spot, pc: nat, d: S.Data): M.Config {
    M.Config(M.Running, s.fn, pc, s.argBase, d.mem, d.params, s.rets, s.pads, d.ans)
  }

  /** The first k bytes of storage are still there, and the same of them are saved. */
  predicate Kept(m: Mem, n: Mem, k: nat) {
    && k <= |m.storage| && k <= |n.storage|
    && forall i :: 0 <= i < k ==> (n.storage[i].Saved? <==> m.storage[i].Saved?)
  }

  /** The compiler's state st describes the machine in the state d. */
  ghost predicate Ready(p: Program, im: M.Image, s: Spot, st: CState, env: S.Env, d: S.Data) {
    && s.fn < |p.funcs| == |im.codes|
    && StateOk(st) && EnvOk(st.vars, env, s.fb)
    && |d.mem.storage| == s.fb + st.frame && OpenFrom(d.mem, s.fb)
    && |s.pads| == s.cb + st.crash && |s.ends| == |st.scopes|
  }

  /** Storage and parameters as they were when the block began, up to stored values. */
  predicate Level(d: S.Data, e: S.Data) {
    e.params == d.params && |e.mem.storage| == |d.mem.storage| && Kept(d.mem, e.mem, |d.mem.storage|)
  }

  /** The machine looks for a pad, having kept all that the block found. */
  predicate Unwound(rets: seq<M.Return>, pads: seq<M.Pad>, d: S.Data, e: S.Data, c: M.Config) {
    && c.mode == M.Crashing && c.mem == e.mem && c.params == e.params && c.ans == e.ans
    && c.pads == pads && rets <= c.rets
    && d.params <= e.params && Kept(d.mem, e.mem, |d.mem.storage|)
  }

  /** The machine is where a break to the j-th scope goes. */
  predicate AtExit(s: Spot, st: CState, j: nat, e: S.Data, c: M.Config) {
    && j < |st.scopes| == |s.ends| && s.cb + st.scopes[j].crash <= |s.pads|
    && c == At(s.(pads := s.pads[..s.cb + st.scopes[j].crash]), s.ends[j], S.Cut(e, s.fb + st.scopes[j].frame))
  }

  /** How the machine stands when a block that began in d has the result r. */
  predicate Ended(s: Spot, st: CState, end: nat, code: seq<Instr>, reach: bool, d: S.Data, r: S.Res, c: M.Config) {
    match r.out
    case Normal => reach && c == At(s, end, r.d) && Level(d, r.d)
    case Leaving(k) =>
      && k <= |st.scopes| && HasExit(code, |st.scopes| - k)
      && AtExit(s, st, |st.scopes| - k, r.d, c)
      && r.d.params == d.params && Kept(d.mem, r.d.mem, |d.mem.storage|)
    case Crashed => Unwound(s.rets, s.pads, d, r.d, c)
    case HardCrashed => c.mode == M.Halted(VM_HARD_CRASH)
    case Fault(x) => c.mode == M.Halted(x)
    case Timeout => !c.mode.Halted?
    case _ => false
  }

  /** The same for operations that find the operands `before` and leave `after`. */
  predicate OpsEnded(s: Spot, end: nat, before: seq<TypeId>, after: seq<TypeId>, d: S.Data, r: S.OpRes, c: M.Config)
    requires |before| <= |d.params|
  {
    var n := |d.params| - |before|;
    match r.out
    case Normal =>
      && c == At(s, end, r.d) && r.tys == after
      && |r.d.params| == n + |after| && r.d.params[..n] == d.params[..n]
      && |r.d.mem.storage| == |d.mem.storage| && Kept(d.mem, r.d.mem, |d.mem.storage|)
    case Crashed => Unwound(s.rets, s.pads, d.(params := d.params[..n]), r.d, c)
    case HardCrashed => c.mode == M.Halted(VM_HARD_CRASH)
    case Fault(x) => c.mode == M.Halted(x)
    case Timeout => !c.mode.Halted?
    case _ => false
  }

  /** Every exit of a to one of n scopes is one of b. */
  ghost predicate ExitsIn(a: seq<Instr>, b: seq<Instr>, n: nat) {
    forall j: nat :: j < n && HasExit(a, j) ==> HasExit(b, j)
  }

  lemma KeptTrans(a: Mem, b: Mem, c: Mem, k: nat, l: nat)
    requires Kept(a, b, k) && Kept(b, c, l) && k <= l
    ensures Kept(a, c, k)
  {
  }

  /** A result that is not normal is the same result for code around, and for an earlier
      start from which the block was reached. */
  lemma EndedWider(s: Spot, st: CState, end: nat, code: seq<Instr>, reach: bool, d: S.Data, r: S.Res, c: M.Config,
                   start: S.Data, end2: nat, code2: seq<Instr>, reach2: bool)
    requires Ended(s, st, end, code, reach, d, r, c) && !r.out.Normal?
    requires start.params == d.params && Kept(start.mem, d.mem, |start.mem.storage|)
    requires ExitsIn(code, code2, |st.scopes|)
    ensures Ended(s, st, end2, code2, reach2, start, r, c)
  {
    if r.out.Leaving? || r.out.Crashed? {
      KeptTrans(start.mem, d.mem, r.d.mem, |start.mem.storage|, |d.mem.storage|);
    }
  }

  /** Leaving the innermost scope, entered in `start` at the state st. */
  lemma EndedLeft(s: Spot, st: CState, inner: CState, end: nat, code: seq<Instr>, d: S.Data, r: S.Res, c: M.Config,
                  start: S.Data, scopeEnd: nat, code2: seq<Instr>, reach: bool, reach2: bool)
    requires Ended(s.(ends := s.ends + [scopeEnd]), inner, end, code, reach, d, r, c) && !r.out.Normal?
    requires inner.scopes == st.scopes + [ScopeInfo(st.frame, st.crash)] && |s.ends| == |st.scopes|
    requires start.params == d.params && Kept(start.mem, d.mem, |start.mem.storage|)
    requires |start.mem.storage| == s.fb + st.frame && |s.pads| == s.cb + st.crash
    requires ExitsIn(code, code2, |st.scopes|)
    requires HasExit(code, |st.scopes|) ==> reach2
    ensures Ended(s, st, scopeEnd, code2, reach2, start, S.Leave(r, |start.mem.storage|), c)
  {
    if r.out.Leaving? || r.out.Crashed? {
      KeptTrans(start.mem, d.mem, r.d.mem, |start.mem.storage|, |d.mem.storage|);
    }
    if r.out.Leaving? {
      var j := |inner.scopes| - r.out.level;
      if r.out.level == 1 {
        assert j == |st.scopes| && inner.scopes[j] == ScopeInfo(st.frame, st.crash);
        assert s.pads[..s.cb + st.crash] == s.pads;
        assert (s.ends + [scopeEnd])[j] == scopeEnd;
      } else {
        assert inner.scopes[j] == st.scopes[j] && (s.ends + [scopeEnd])[j] == s.ends[j];
      }
    }
  }
}
