/** Cleanup in every program that can be lowered: probed in any way, its lowered form and the
    machine run every cleanup exactly once, but for the torn runs. */
module EveryCleanup {
  import opened Memory
  import opened Ir
  import S = Semantics
  import L = Lowering
  import M = Machine
  import opened Cleanup
  import opened Instrument
  import opened Probes
  import LP = LoweringProof
  import PL = ProbedLowering
  import TornRuns
  import Outcomes
  import opened CompilerCorrect

  /** Probes do not change what the lowered program does, nor what the program does, and with
      them it shows that the lowered program has run every cleanup once, innermost first, if
      and only if the run is not torn. */
  lemma ProbedCleansUpOnce(fuel: nat, p: Program, name: Names, fn: nat, d: S.Data)
    requires L.ProgramLowerable(p) && fn < |p.funcs| && Argc(p.funcs[fn].sig) <= |d.params|
    ensures var q := MarkedProgram(p, name);
      var r, s := S.RunFunc(fuel, p, fn, d), S.RunFunc(fuel, L.LowerProgram(q), fn, d);
      && Alike(S.RunFunc(fuel, L.LowerProgram(p), fn, d), s)
      && (!r.out.Torn? ==> Alike(r, s))
      && (Counted(s.out) ==> (Extends(d, s.d) <==> !r.out.Torn?))
  {
    hide S.RunFunc, L.ProgramLowerable, ProgramProbed, Extends;
    EveryProgramIsProbed(p, name);
    MarkedFuncAlike(fuel, p, name, fn, d, d);
    PL.LoweredFuncAlike(fuel, p, name, fn, d, d);
    MarkedIs(p, name, fn);
    var q := MarkedProgram(p, name);
    LP.FuncLowers(fuel, q, fn, d);
    if Counted(S.RunFunc(fuel, L.LowerProgram(q), fn, d).out) { TornRuns.CleansUpOnceExactly(fuel, q, fn, d); }
  }

  /** The same of the machine: it stops as the lowered, probed program means, whose trace is
      balanced if and only if the run of the program with its defers is not torn; and then the
      result is that of the program. */
  lemma MachineCleansUpOnce(p: Program, name: Names, im: M.Image, m: Mem, ps: seq<Ptr>, fn: nat, n: nat)
    requires L.ProgramLowerable(p) && Startable(L.LowerProgram(MarkedProgram(p, name)), im, fn, ps)
    requires M.Steps(im, n, Begin(m, ps, fn)).mode.Halted?
    ensures fn < |p.funcs| && |ps| == Argc(p.funcs[fn].sig)
    ensures var r, s := Meaning(n + 1, p, fn, m, ps), Meaning(n + 1, L.LowerProgram(MarkedProgram(p, name)), fn, m, ps);
      && Finished(s) && M.Steps(im, n, Begin(m, ps, fn)).mode == M.Halted(Verdict(s))
      && (Counted(s.out) ==> (Balanced(s.d.log) <==> !r.out.Torn?))
      && (!r.out.Torn? ==> Verdict(r) == Verdict(s))
  {
    hide S.RunFunc, L.ProgramLowerable, M.Steps, Balanced;
    var q := MarkedProgram(p, name);
    StartedIn(p, name, im, fn, ps);
    hide Startable;
    MarkedIs(p, name, fn);
    HaltsAsMeant(L.LowerProgram(q), im, m, ps, fn, n);
    var d := S.Data(m, ps, VM_OK, []);
    ProbedCleansUpOnce(n + 1, p, name, fn, d);
    var s := S.RunFunc(n + 1, L.LowerProgram(q), fn, d);
    assert s.d.log[|d.log|..] == s.d.log;
  }

  /** Whatever becomes of the cleanups, the machine returns VM_OK just when the program ends
      normally with its defers taken at their word. */
  lemma MachineSucceedsAlike(p: Program, im: M.Image, m: Mem, ps: seq<Ptr>, fn: nat, n: nat)
    requires L.ProgramLowerable(p) && Startable(L.LowerProgram(p), im, fn, ps)
    requires M.Steps(im, n, Begin(m, ps, fn)).mode.Halted?
    ensures M.Steps(im, n, Begin(m, ps, fn)).mode == M.Halted(VM_OK) <==> Meaning(n + 1, p, fn, m, ps).out.Normal?
  {
    hide S.RunFunc, L.ProgramLowerable, M.Steps;
    var q, d := L.LowerProgram(p), S.Data(m, ps, VM_OK, []);
    LoweredStart(p, im, fn, ps);
    hide Startable;
    HaltsAsMeant(q, im, m, ps, fn, n);
    PL.SucceedsAlike(n + 1, p, fn, d);
    Outcomes.FuncOrderly(false, n + 1, q, fn, d, S.RunFunc(n + 1, q, fn, d));
  }

  lemma LoweredStart(p: Program, im: M.Image, fn: nat, ps: seq<Ptr>)
    requires Startable(L.LowerProgram(p), im, fn, ps)
    ensures fn < |p.funcs| && |ps| == Argc(p.funcs[fn].sig)
    ensures fn < |L.LowerProgram(p).funcs| && Argc(L.LowerProgram(p).funcs[fn].sig) == |ps|
  {
  }

  lemma StartedIn(p: Program, name: Names, im: M.Image, fn: nat, ps: seq<Ptr>)
    requires Startable(L.LowerProgram(MarkedProgram(p, name)), im, fn, ps)
    ensures fn < |p.funcs| && |ps| == Argc(p.funcs[fn].sig)
    ensures fn < |L.LowerProgram(MarkedProgram(p, name)).funcs| && Argc(L.LowerProgram(MarkedProgram(p, name)).funcs[fn].sig) == |ps|
  {
  }
}
