/** Everything in one go, as the program does it: the defers of all functions are removed from
    their block arrays, what is left is compiled, and a function is run. */
module EndToEnd {
  import opened Memory
  import opened Ir
  import opened Bytecode
  import opened Codegen
  import opened CodegenFacts
  import opened FlatBlocks
  import opened DeferRemover
  import opened Compiler
  import opened SimulationSetup
  import opened CompilerCorrect
  import L = Lowering
  import M = Machine
  import S = Semantics
  import Vm
  import EveryCleanup

  /** A function does not compile, is too long for the targets of jumps, is still running after
      as many steps as were allowed, or has returned. */
  datatype Run = NotCompiled | TooLong | Running | Returned(r: VmResult)

  // ----- lowered trees fit as well -----

  predicate EpisFit(epis: seq<L.Epi>) { forall k :: 0 <= k < |epis| && epis[k].Pending? ==> TreeFits(epis[k].cleanup) }

  lemma {:induction false} InlinedFit(epis: seq<L.Epi>, n: nat)
    requires EpisFit(epis)
    ensures forall k :: 0 <= k < |L.Inlined(epis, n)| ==> TreeFits(L.Inlined(epis, n)[k])
  {
    hide TreeFits;
    if n > 0 && |epis| > 0 { InlinedFit(epis[1..], n - 1); }
  }

  lemma {:induction false} SequenceFits(cs: seq<Tree>, last: Tree)
    requires (forall k :: 0 <= k < |cs| ==> TreeFits(cs[k])) && TreeFits(last)
    ensures ChainFits(L.Sequence(cs, last))
    decreases |cs|
  {
    if |cs| > 0 { SequenceFits(cs[1..], last); } else { assert ChainFits(End); }
  }

  lemma {:induction false} LowerFits(t: Tree, epis: seq<L.Epi>)
    requires TreeFits(t) && EpisFit(epis)
    ensures TreeFits(L.Lower(t, epis))
    decreases Size(t)
  {
    var below := [L.Nothing] + epis;
    match t
    case Defer(next, cleanup) =>
      LowerFits(cleanup, below);
      var c := L.Lower(cleanup, below);
      LowerFits(next, [L.Pending(c)] + epis);
      assert ChainFits(End) && ChainFits(Link(c, End));
      assert ChainFits(Link(CrashPad(L.Lower(next, [L.Pending(c)] + epis), c), Link(c, End)));
    case CrashPad(body, pad) =>
      LowerFits(pad, below);
      LowerFits(body, [L.Pending(L.Lower(pad, below))] + epis);
    case Many(kids) => LowerChainFits(kids, below);
    case Branch(_, yes, no) => LowerFits(yes, below); LowerFits(no, below);
    case Loop(body) => LowerFits(body, below);
    case Var(_, body) => LowerFits(body, below);
    case Break(level) =>
      InlinedFit(below, level);
      SequenceFits(L.Inlined(below, level), Break(level + 1));
    case _ =>
  }

  lemma {:induction false} LowerChainFits(ch: Chain, epis: seq<L.Epi>)
    requires ChainFits(ch) && EpisFit(epis)
    ensures ChainFits(L.LowerChain(ch, epis))
    decreases ChainSize(ch)
  {
    if ch.Link? {
      LowerFits(ch.cur, epis);
      LowerChainFits(ch.rest, epis);
    }
  }

  // ----- all of it -----

  /** What is taken for granted of a program and its block arrays. */
  ghost predicate Loadable(p: Program, flats: seq<Flat>) {
    && |flats| == |p.funcs| && L.ProgramLowerable(p)
    && (forall i :: 0 <= i < |flats| ==> Rep(flats[i].blocks, flats[i].ops, 0, p.funcs[i].body))
    && (forall i :: 0 <= i < |p.funcs| ==> Acceptable(p.funcs[i].body, 0) && 1 + Added(p.funcs[i].body, []) <= INVALID)
    && (forall i :: 0 <= i < |p.funcs| ==> CtxFits(FuncCtx(p, i)) && TreeFits(p.funcs[i].body))
  }

  method RemoveOne(p: Program, flats: seq<Flat>, i: nat) returns (lowered: Flat)
    requires Loadable(p, flats) && i < |p.funcs|
    ensures Rep(lowered.blocks, lowered.ops, 0, L.LowerProgram(p).funcs[i].body)
  {
    hide Rep, Acceptable, Added, L.Lower, Sound, CtxFits, TreeFits, L.ProgramLowerable;
    var blocks := RemoveDefers(flats[i].blocks, flats[i].ops, p.funcs[i].body);
    lowered := Flat(blocks, flats[i].ops);
  }

  /** The block arrays without defers. */
  method RemoveAll(p: Program, flats: seq<Flat>) returns (lowered: seq<Flat>)
    requires Loadable(p, flats)
    ensures |lowered| == |p.funcs|
    ensures forall i :: 0 <= i < |lowered| ==> Rep(lowered[i].blocks, lowered[i].ops, 0, L.LowerProgram(p).funcs[i].body)
  {
    hide Rep, Loadable;
    assert |flats| == |p.funcs| by { OneEach(p, flats); }
    lowered := [];
    var i := 0;
    while i < |flats|
      invariant i <= |flats| && |lowered| == i
      invariant forall k :: 0 <= k < i ==> Rep(lowered[k].blocks, lowered[k].ops, 0, L.LowerProgram(p).funcs[k].body)
    {
      var one := RemoveOne(p, flats, i);
      lowered := lowered + [one];
      i := i + 1;
    }
  }

  lemma OneEach(p: Program, flats: seq<Flat>)
    requires Loadable(p, flats)
    ensures |flats| == |p.funcs|
  {
  }

  method AllShort(codes: seq<seq<u8>>) returns (short: bool)
    ensures short == forall i :: 0 <= i < |codes| ==> |codes[i]| <= MAX_TARGET
  {
    var i := 0;
    while i < |codes|
      invariant i <= |codes| && forall k :: 0 <= k < i ==> |codes[k]| <= MAX_TARGET
    {
      if |codes[i]| > MAX_TARGET { return false; }
      i := i + 1;
    }
    return true;
  }

  /** Some function takes more than 65535 bytes. */
  ghost predicate HasLongCode(q: Program, i: nat)
    requires i < |q.funcs|
  {
    GenFunc(FuncCtx(q, i)).Some? && CodeLength(GenFunc(FuncCtx(q, i)).value) > MAX_TARGET
  }

  lemma LongCode(q: Program, codes: seq<seq<u8>>, done: seq<bool>, i: nat)
    requires |codes| == |done| == |q.funcs| && i < |codes| && |codes[i]| > MAX_TARGET
    requires done[i] == GenFunc(FuncCtx(q, i)).Some?
    requires if done[i] then codes[i] == EncodeAll(GenFunc(FuncCtx(q, i)).value) else codes[i] == []
    ensures HasLongCode(q, i)
  {
    hide GenFunc, EncodeAll, Compiled;
  }

  lemma ImageIsBuilt(p: Program, flats: seq<Flat>, im: M.Image, done: seq<bool>)
    requires Loadable(p, flats) && im.native == p.native && |im.codes| == |p.funcs| == |done|
    requires forall i :: 0 <= i < |p.funcs| ==> |im.codes[i]| <= MAX_TARGET
    requires var q := L.LowerProgram(p);
      && (forall i :: 0 <= i < |q.funcs| ==> done[i] == GenFunc(FuncCtx(q, i)).Some?)
      && (forall i :: 0 <= i < |q.funcs| && done[i] ==> im.codes[i] == EncodeAll(GenFunc(FuncCtx(q, i)).value))
    ensures SimulationSetup.Built(L.LowerProgram(p), im)
  {
    hide Rep, L.ProgramLowerable, GenFunc, EncodeAll, Compiled, TreeFits, Acceptable, Added;
    var q := L.LowerProgram(p);
    forall fn: nat | fn < |q.funcs| ensures FuncBuilt(q, im, fn) {
      LowerFits(p.funcs[fn].body, []);
      SameWidths(p, fn);
    }
  }

  lemma SameWidths(p: Program, fn: nat)
    requires fn < |p.funcs| && CtxFits(FuncCtx(p, fn))
    ensures CtxFits(FuncCtx(L.LowerProgram(p), fn))
  {
    var q := L.LowerProgram(p);
    assert forall k :: 0 <= k < |p.funcs| ==> q.funcs[k].sig == p.funcs[k].sig;
  }

  lemma CanStart(p: Program, q: Program, im: M.Image, fn: nat, ps: seq<Ptr>)
    requires q == L.LowerProgram(p) && SimulationSetup.Built(q, im) && fn < |p.funcs| && |ps| == Argc(p.funcs[fn].sig) && GenFunc(FuncCtx(q, fn)).Some?
    ensures Startable(q, im, fn, ps)
  {
  }

  /** A function that returns does so with the result that its program has with its defers
      taken at their word, unless a cleanup that a break was running crashed; and with VM_OK
      just when the program ends normally. */
  method Execute(p: Program, flats: seq<Flat>, fn: nat, m: Mem, ps: seq<Ptr>, limit: nat) returns (run: Run, ghost n: nat)
    requires Loadable(p, flats) && fn < |p.funcs| && |ps| == Argc(p.funcs[fn].sig)
    ensures run.NotCompiled? <==> GenFunc(FuncCtx(L.LowerProgram(p), fn)).None?
    ensures run.TooLong? ==> exists i :: 0 <= i < |p.funcs| && HasLongCode(L.LowerProgram(p), i)
    ensures run.Running? ==> n >= limit
    ensures run.Returned? ==> var r := Meaning(n + 1, p, fn, m, ps); r.out.Torn? || (Finished(r) && run.r == Verdict(r))
    ensures run.Returned? ==> (run.r == VM_OK <==> Meaning(n + 1, p, fn, m, ps).out.Normal?)
  {
    hide Rep, L.ProgramLowerable, GenFunc, EncodeAll, M.Steps, S.RunFunc, Compiled, CtxFits, TreeFits, Acceptable, Added;
    var q := L.LowerProgram(p);
    var lowered := RemoveAll(p, flats);
    var codes, done := CompileProgram(q, lowered);
    n := 0;
    if !done[fn] { return NotCompiled, n; }
    var short := AllShort(codes);
    if !short {
      ghost var i :| 0 <= i < |codes| && |codes[i]| > MAX_TARGET;
      LongCode(q, codes, done, i);
      return TooLong, n;
    }
    var im := M.Image(codes, p.native);
    ImageIsBuilt(p, flats, im, done);
    assert Startable(q, im, fn, ps) by { CanStart(p, q, im, fn, ps); }
    var vm := new Vm.VM(m, ps, []);
    var r;
    r, n := vm.Run(im, fn, limit);
    if r.None? { return Running, n; }
    LoweredAndCompiled(p, im, m, ps, fn, n);
    EveryCleanup.MachineSucceedsAlike(p, im, m, ps, fn, n);
    return Returned(r.value), n;
  }
}
