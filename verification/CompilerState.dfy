/** What the compiler's fields hold between two blocks, as values. */
module CompilerState {
  import opened Memory
  import opened Ir
  import opened Bytecode
  import opened Codegen
  import opened CodegenFacts
  import opened Patching

  /** An open scope and the places to patch when its end is known. */
  datatype Scope = Scope(patches: seq<nat>, frame: nat, crash: nat)

  datatype CompileResult = COMPILE_FAIL | COMPILE_REACHABLE | COMPILE_UNREACHABLE

  datatype Snapshot = Snapshot(code: seq<u8>, types: seq<TypeId>, vars: seq<Layout>, scopes: seq<Scope>, frame: int, crash: nat)

  function Infos(ss: seq<Scope>): (r: seq<ScopeInfo>)
    ensures |r| == |ss|
  {
    seq(|ss|, k requires 0 <= k < |ss| => ScopeInfo(ss[k].frame, ss[k].crash))
  }

  function StateOf(s: Snapshot): CState
    requires s.frame >= 0
  {
    CState(s.vars, s.frame, s.crash, Infos(s.scopes))
  }

  /** Every scope remembers its exits in code that was emitted from byte pos on. */
  function Patched(ss: seq<Scope>, code: seq<Instr>, pos: nat): (r: seq<Scope>)
    ensures |r| == |ss|
  {
    seq(|ss|, k requires 0 <= k < |ss| => ss[k].(patches := ss[k].patches + Exits(code, k, pos)))
  }

  /** The fields after code has been emitted. */
  function After(s: Snapshot, code: seq<Instr>, vars: seq<Layout>): Snapshot {
    s.(code := s.code + EncodeAll(code), vars := vars, scopes := Patched(s.scopes, code, |s.code|))
  }

  /** A compiled operation: its code is emitted, and the type stack is the new one. */
  predicate Stepped(s: Snapshot, g: OpGen, e: Snapshot, ok: bool) {
    ok == g.OpEmit? && (ok ==> e == After(s, g.code, s.vars).(types := g.tys))
  }

  /** A compiled block: the code is emitted and remembered, and everything else is as it was. */
  predicate Compiles(s: Snapshot, g: Gen, e: Snapshot, r: CompileResult) {
    if g.Fail? then r == COMPILE_FAIL
    else r == (if g.reach then COMPILE_REACHABLE else COMPILE_UNREACHABLE) && e == After(s, g.code, g.vars)
  }

  lemma PatchedConcat(ss: seq<Scope>, a: seq<Instr>, b: seq<Instr>, pos: nat)
    ensures Patched(Patched(ss, a, pos), b, pos + CodeLength(a)) == Patched(ss, a + b, pos)
  {
    hide Exits, CodeLength;
    var x, y := Patched(Patched(ss, a, pos), b, pos + CodeLength(a)), Patched(ss, a + b, pos);
    forall k | 0 <= k < |ss| ensures x[k] == y[k] {
      ExitsConcat(a, b, k, pos);
      assert (ss[k].patches + Exits(a, k, pos)) + Exits(b, k, pos + CodeLength(a))
          == ss[k].patches + (Exits(a, k, pos) + Exits(b, k, pos + CodeLength(a)));
    }
  }

  lemma AfterAfter(s: Snapshot, a: seq<Instr>, v: seq<Layout>, b: seq<Instr>, w: seq<Layout>)
    ensures After(After(s, a, v), b, w) == After(s, a + b, w)
  {
    hide Patched, EncodeAll, CodeLength;
    EncodeConcat(a, b);
    PatchedConcat(s.scopes, a, b, |s.code|);
    assert (s.code + EncodeAll(a)) + EncodeAll(b) == s.code + (EncodeAll(a) + EncodeAll(b));
  }

  lemma AfterNothing(s: Snapshot)
    ensures After(s, [], s.vars) == s
  {
    var r := Patched(s.scopes, [], |s.code|);
    forall k | 0 <= k < |r| ensures r[k] == s.scopes[k] {
      assert s.scopes[k].patches + [] == s.scopes[k].patches;
    }
    assert r == s.scopes && s.code + [] == s.code;
  }

  lemma NotAnExit(ss: seq<Scope>, i: Instr, pos: nat)
    requires !i.IExit?
    ensures Patched(ss, [i], pos) == ss
  {
    hide Length;
    forall k: nat ensures Exits([i], k, pos) == [] {
      NoExits([i], k, pos);
    }
    var r := Patched(ss, [i], pos);
    forall k | 0 <= k < |ss| ensures r[k] == ss[k] {
      assert ss[k].patches + [] == ss[k].patches;
    }
  }

  lemma EncodeOne(i: Instr)
    ensures EncodeAll([i]) == Encode(i) && CodeLength([i]) == Length(i)
  {
    assert [i][1..] == [];
  }

  lemma AfterOne(s: Snapshot, i: Instr)
    requires !i.IExit?
    ensures After(s, [i], s.vars) == s.(code := s.code + Encode(i))
  {
    hide Patched, EncodeAll;
    NotAnExit(s.scopes, i, |s.code|);
    EncodeOne(i);
  }

  /** Instructions that are no exits can be exchanged for others of the same length. */
  lemma SameExits(ss: seq<Scope>, a: seq<Instr>, i: Instr, j: Instr, b: seq<Instr>, pos: nat)
    requires !i.IExit? && !j.IExit? && Length(i) == Length(j)
    ensures Patched(ss, a + ([i] + b), pos) == Patched(ss, a + ([j] + b), pos)
  {
    hide Exits, CodeLength, Length, Patched, EncodeAll, Encode;
    PatchedConcat(ss, a, [i] + b, pos);
    PatchedConcat(ss, a, [j] + b, pos);
    var t, q := Patched(ss, a, pos), pos + CodeLength(a);
    PatchedConcat(t, [i], b, q);
    PatchedConcat(t, [j], b, q);
    NotAnExit(t, i, q);
    NotAnExit(t, j, q);
    EncodeOne(i);
    EncodeOne(j);
  }

  /** Patching an instruction in code that was emitted since s. */
  lemma PatchAfter(s: Snapshot, a: seq<Instr>, i: Instr, j: Instr, b: seq<Instr>, vars: seq<Layout>, off: nat, target: nat)
    requires !i.IExit? && !j.IExit? && Length(i) == Length(j) && off + 2 <= Length(i)
    requires PatchAt(Encode(i), off, target) == Encode(j)
    ensures var e := After(s, a + ([i] + b), vars);
            e.(code := PatchAt(e.code, |s.code| + CodeLength(a) + off, target)) == After(s, a + ([j] + b), vars)
  {
    hide Patched, PatchAt, EncodeAll, CodeLength, Length, Encode;
    PatchInstr(s.code, a, i, j, b, off, target);
    SameExits(s.scopes, a, i, j, b, |s.code|);
  }

  // ----- scopes -----

  function Opened(s: Snapshot): Snapshot
    requires s.frame >= 0
  {
    s.(scopes := s.scopes + [Scope([], s.frame, s.crash)])
  }

  lemma OpenedState(s: Snapshot)
    requires s.frame >= 0
    ensures StateOf(Opened(s)) == Inside(StateOf(s))
  {
    assert Infos(s.scopes + [Scope([], s.frame, s.crash)]) == Infos(s.scopes) + [ScopeInfo(s.frame, s.crash)];
  }

  lemma InfosKept(ss: seq<Scope>, code: seq<Instr>, pos: nat)
    ensures Infos(Patched(ss, code, pos)) == Infos(ss)
  {
  }

  /** The patch list of the scope on top are its exits; without it, the others are left. */
  lemma TopPatches(ss: seq<Scope>, top: Scope, code: seq<Instr>, pos: nat)
    requires top.patches == []
    ensures var r := Patched(ss + [top], code, pos);
      |r| == |ss| + 1 && r[|ss|].patches == Exits(code, |ss|, pos) && r[..|ss|] == Patched(ss, code, pos)
  {
    hide Exits;
    assert [] + Exits(code, |ss|, pos) == Exits(code, |ss|, pos);
  }

  lemma FinishedPatches(ss: seq<Scope>, code: seq<Instr>, target: nat, pos: nat)
    ensures Patched(ss, Finish(code, |ss|, target), pos) == Patched(ss, code, pos)
  {
    hide Exits, Finish;
    var x, y := Patched(ss, Finish(code, |ss|, target), pos), Patched(ss, code, pos);
    forall k | 0 <= k < |ss| ensures x[k] == y[k] {
      ExitsOfOthers(code, |ss|, target, k, pos);
    }
  }
}
