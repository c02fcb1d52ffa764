/** The main results about the compiler and the machine: a compiled program does what its
    block trees mean, stops with the results they have, and never misuses the machine. */
module CompilerCorrect {
  import opened Memory
  import opened Ir
  import opened Bytecode
  import opened Codegen
  import opened CodegenFacts
  import opened Stepping
  import opened SimulationSetup
  import opened Simulation
  import opened Outcomes
  import S = Semantics
  import M = Machine
  import L = Lowering
  import LP = LoweringProof
  import CC = CalmCleanups

  /** vm_run can be started on function fn: it is compiled, and its arguments are there. */
  ghost predicate Startable(p: Program, im: M.Image, fn: nat, ps: seq<Ptr>) {
    Built(p, im) && fn < |p.funcs| && GenFunc(FuncCtx(p, fn)).Some? && |ps| == Argc(p.funcs[fn].sig)
  }

  /** The machine before its first instruction, on empty stacks but for the arguments. */
  function Begin(m: Mem, ps: seq<Ptr>, fn: nat): M.Config { M.Start(m, ps, [], [], fn) }

  /** What the block tree of fn means when it is started the same way. */
  function Meaning(fuel: nat, p: Program, fn: nat, m: Mem, ps: seq<Ptr>): S.Res
    requires fn < |p.funcs| && Argc(p.funcs[fn].sig) <= |ps|
  {
    S.RunFunc(fuel, p, fn, S.Data(m, ps, VM_OK, []))
  }

  /** The result code of a run that ended. A soft crash reports the first crash code. */
  function Verdict(r: S.Res): VmResult {
    match r.out
    case Normal => VM_OK
    case Crashed => r.d.ans
    case HardCrashed => VM_HARD_CRASH
    case Fault(x) => x
    case _ => UNDEFINED
  }

  predicate Finished(r: S.Res) { r.out.Normal? || r.out.Crashed? || r.out.HardCrashed? || r.out.Fault? }

  /** For every program, start and fuel: when the tree's run ends, so does the machine's,
      with the same result, memory and first crash code; when it needs more fuel, the machine is still going
      after that many steps. */
  lemma CompiledRunsAlike(p: Program, im: M.Image, m: Mem, ps: seq<Ptr>, fn: nat, fuel: nat) returns (n: nat)
    requires Startable(p, im, fn, ps)
    ensures var r, c := Meaning(fuel, p, fn, m, ps), M.Steps(im, n, Begin(m, ps, fn));
      && (r.out.Timeout? ==> n >= fuel && !c.mode.Halted?)
      && (!r.out.Timeout? ==> Finished(r) && c.mode == M.Halted(Verdict(r)))
      && (r.out.Normal? || r.out.Crashed? ==> c.mem == r.d.mem && c.params == r.d.params && c.ans == r.d.ans)
  {
    hide Built, GenFunc, Goes, M.Steps, S.RunFunc, Compiled;
    var d := S.Data(m, ps, VM_OK, []);
    var r := S.RunFunc(fuel, p, fn, d);
    var e;
    n, e := FuncRuns(p, im, fn, d, [], M.Bottom, [], fuel, r);
    assert Begin(m, ps, fn) == Entered(fn, 0, d, [] + [M.Bottom], []);
    if r.out.Crashed? {
      FuncOrderly(false, fuel, p, fn, d, r);
      var e1 := e;
      e := NoPadLeft(im, e1);
      GoesOn(im, Begin(m, ps, fn), n, e1, 1, e);
      n := n + 1;
    }
    GoesSteps(im, Begin(m, ps, fn), n, e);
  }

  /** A crash without pads stops the machine with its code. */
  lemma NoPadLeft(im: M.Image, c: M.Config) returns (e: M.Config)
    requires c.mode.Crashing? && c.pads == [] && c.ans != VM_OK
    ensures Goes(im, c, 1, e) && e == M.Halt(c, c.ans)
  {
    e := M.Halt(c, c.ans);
    OneStep(im, c);
  }

  lemma StillHalted(im: M.Image, c: M.Config, n: nat, k: nat)
    requires n <= k && M.Steps(im, n, c).mode.Halted?
    ensures M.Steps(im, k, c) == M.Steps(im, n, c)
  {
    M.StepsAdd(im, n, k - n, c);
    M.HaltedStays(im, k - n, M.Steps(im, n, c));
  }

  /** Whenever the machine stops, the tree's run ends, and the machine reports its result. */
  lemma HaltsAsMeant(p: Program, im: M.Image, m: Mem, ps: seq<Ptr>, fn: nat, n: nat)
    requires Startable(p, im, fn, ps) && M.Steps(im, n, Begin(m, ps, fn)).mode.Halted?
    ensures var r := Meaning(n + 1, p, fn, m, ps);
      Finished(r) && M.Steps(im, n, Begin(m, ps, fn)).mode == M.Halted(Verdict(r))
  {
    hide Built, GenFunc, M.Steps, S.RunFunc;
    var k := CompiledRunsAlike(p, im, m, ps, fn, n + 1);
    if k >= n {
      StillHalted(im, Begin(m, ps, fn), n, k);
    } else {
      StillHalted(im, Begin(m, ps, fn), k, n);
    }
  }

  /** The machine runs forever exactly when the tree does. */
  lemma DivergesAsMeant(p: Program, im: M.Image, m: Mem, ps: seq<Ptr>, fn: nat)
    requires Startable(p, im, fn, ps)
    ensures (forall n :: !M.Steps(im, n, Begin(m, ps, fn)).mode.Halted?) <==> (forall fuel :: Meaning(fuel, p, fn, m, ps).out.Timeout?)
  {
    hide Built, GenFunc, M.Steps, S.RunFunc;
    if forall n :: !M.Steps(im, n, Begin(m, ps, fn)).mode.Halted? {
      forall fuel: nat ensures Meaning(fuel, p, fn, m, ps).out.Timeout? {
        var n := CompiledRunsAlike(p, im, m, ps, fn, fuel);
        assert !M.Steps(im, n, Begin(m, ps, fn)).mode.Halted?;
      }
    } else {
      var n: nat :| M.Steps(im, n, Begin(m, ps, fn)).mode.Halted?;
      HaltsAsMeant(p, im, m, ps, fn, n);
      assert !Meaning(n + 1, p, fn, m, ps).out.Timeout?;
    }
  }

  /** No run of compiled code underflows a stack, meets a stale crash frame, leaves its frame,
      asks for an argument that is not there, or runs into something that is no code. */
  lemma CompiledNeverGoesWrong(p: Program, im: M.Image, m: Mem, ps: seq<Ptr>, fn: nat, n: nat)
    requires Startable(p, im, fn, ps) && ProgramWithin(p) && Tame(p.native)
    requires M.Steps(im, n, Begin(m, ps, fn)).mode.Halted?
    ensures !Internal(M.Steps(im, n, Begin(m, ps, fn)).mode.r)
  {
    hide Built, GenFunc, M.Steps, S.RunFunc, Tame, ProgramWithin;
    HaltsAsMeant(p, im, m, ps, fn, n);
    FuncOrderly(true, n + 1, p, fn, S.Data(m, ps, VM_OK, []), Meaning(n + 1, p, fn, m, ps));
  }

  /** Reading the bytes of a compiled function gives back exactly the instructions emitted. */
  lemma CompiledCodeDecodes(p: Program, im: M.Image, fn: nat)
    requires FuncBuilt(p, im, fn) && GenFunc(FuncCtx(p, fn)).Some?
    ensures DecodeAll(im.codes[fn], 0) == Some(GenFunc(FuncCtx(p, fn)).value)
  {
    hide GenTree, Compiled, EncodeAll, DecodeAll, CodeLength, Fits;
    var c := FuncCtx(p, fn);
    var code := GenFunc(c).value;
    FuncCodeFits(c);
    assert im.codes[fn] == EncodeAll(code);
    EncodedDecodes(code);
  }

  lemma FuncCodeFits(c: Ctx)
    requires CtxFits(c) && TreeFits(c.f.body) && GenFunc(c).Some?
    ensures AllFit(GenFunc(c).value)
  {
    hide GenTree, Fits;
    TreeCodeOk(c, Initial(c.f), c.f.body, 0, GenTree(c, Initial(c.f), c.f.body, 0));
    EpilogueFits(|c.f.sig.ins|);
    var g := GenTree(c, Initial(c.f), c.f.body, 0);
    assert GenFunc(c).value == g.code + Epilogue(|c.f.sig.ins|);
  }

  lemma EncodedDecodes(code: seq<Instr>)
    requires AllFit(code)
    ensures DecodeAll(EncodeAll(code), 0) == Some(code)
  {
    hide Fits, DecodeAll;
    var bytes := EncodeAll(code);
    assert bytes[0..0 + CodeLength(code)] == bytes;
    DecodeEncode(bytes, 0, code);
  }

  /** The whole pipeline: a program with defers is lowered, compiled and run, and whenever the
      machine stops it reports what the program means with its defers taken at their word,
      unless a cleanup that was run for a break crashed; in a tidy program none does. */
  lemma LoweredAndCompiled(p: Program, im: M.Image, m: Mem, ps: seq<Ptr>, fn: nat, n: nat)
    requires L.ProgramLowerable(p) && Startable(L.LowerProgram(p), im, fn, ps)
    requires M.Steps(im, n, Begin(m, ps, fn)).mode.Halted?
    ensures var r := Meaning(n + 1, p, fn, m, ps);
      && (r.out.Torn? || (Finished(r) && M.Steps(im, n, Begin(m, ps, fn)).mode == M.Halted(Verdict(r))))
      && (CC.ProgramTidy(p) ==> !r.out.Torn?)
  {
    hide Built, GenFunc, M.Steps, S.RunFunc, L.ProgramLowerable, CC.ProgramTidy, L.Lower;
    var d := S.Data(m, ps, VM_OK, []);
    HaltsAsMeant(L.LowerProgram(p), im, m, ps, fn, n);
    LP.FuncLowers(n + 1, p, fn, d);
    if CC.ProgramTidy(p) { CC.LoweringAlwaysKeepsMeaning(n + 1, p, fn, d); }
  }
}
