/** Back-patching: jump targets that are filled into code that is already emitted. */
module Patching {
  import opened Memory
  import opened Bytecode
  import opened Codegen
  import opened CodegenFacts

  /** Two bytes are overwritten with a target. */
  function PatchAt(bytes: seq<u8>, at: nat, target: nat): (r: seq<u8>)
    ensures |r| == |bytes|
  {
    if at + 2 <= |bytes| then bytes[..at] + Digits(target, 2) + bytes[at + 2..] else bytes
  }

  function PatchAll(bytes: seq<u8>, patches: seq<nat>, target: nat): (r: seq<u8>)
    ensures |r| == |bytes|
    decreases |patches|
  {
    if |patches| == 0 then bytes else PatchAll(PatchAt(bytes, patches[0], target), patches[1..], target)
  }

  /** Where the operands of the exits of a scope lie, in code that starts at byte pos. */
  function Exits(code: seq<Instr>, scope: nat, pos: nat): seq<nat> {
    if |code| == 0 then [] else
    (if code[0] == IExit(scope) then [pos + 1] else []) + Exits(code[1..], scope, pos + Length(code[0]))
  }

  lemma {:induction false} ExitsConcat(a: seq<Instr>, b: seq<Instr>, scope: nat, pos: nat)
    ensures Exits(a + b, scope, pos) == Exits(a, scope, pos) + Exits(b, scope, pos + CodeLength(a))
    decreases |a|
  {
    hide Length;
    if |a| == 0 {
      assert a + b == b;
    } else {
      assert (a + b)[1..] == a[1..] + b && (a + b)[0] == a[0];
      ExitsConcat(a[1..], b, scope, pos + Length(a[0]));
      var first: seq<nat> := if a[0] == IExit(scope) then [pos + 1] else [];
      var x, y := Exits(a[1..], scope, pos + Length(a[0])), Exits(b, scope, pos + CodeLength(a));
      assert first + (x + y) == (first + x) + y;
    }
  }

  lemma {:induction false} NoExits(code: seq<Instr>, scope: nat, pos: nat)
    ensures Exits(code, scope, pos) == [] <==> !HasExit(code, scope)
    decreases |code|
  {
    if |code| > 0 {
      NoExits(code[1..], scope, pos + Length(code[0]));
      assert code == [code[0]] + code[1..];
    }
  }

  lemma {:induction false} ExitsInRange(code: seq<Instr>, scope: nat, pos: nat)
    ensures forall k :: 0 <= k < |Exits(code, scope, pos)| ==> pos < Exits(code, scope, pos)[k] && Exits(code, scope, pos)[k] + 2 <= pos + CodeLength(code)
    decreases |code|
  {
    if |code| > 0 { ExitsInRange(code[1..], scope, pos + Length(code[0])); }
  }

  /** Finishing one scope does not touch the exits of another. */
  lemma {:induction false} ExitsOfOthers(code: seq<Instr>, scope: nat, target: nat, other: nat, pos: nat)
    requires scope != other
    ensures Exits(Finish(code, scope, target), other, pos) == Exits(code, other, pos)
    decreases |code|
  {
    if |code| > 0 {
      var f := Finish(code, scope, target);
      assert f[1..] == Finish(code[1..], scope, target);
      ExitsOfOthers(code[1..], scope, target, other, pos + Length(code[0]));
    }
  }

  // ----- patching encoded instructions -----

  lemma PatchInside(pre: seq<u8>, mid: seq<u8>, post: seq<u8>, off: nat, target: nat)
    requires off + 2 <= |mid|
    ensures PatchAt(pre + mid + post, |pre| + off, target) == pre + PatchAt(mid, off, target) + post
  {
    var all := pre + mid + post;
    var at := |pre| + off;
    assert all[..at] == pre + mid[..off];
    assert all[at + 2..] == mid[off + 2..] + post;
  }

  lemma PatchJump(i: Instr, target: nat)
    requires i.IExit? || i.IJump?
    ensures PatchAt(Encode(i), 1, target) == Encode(IJump(target))
  {
    OneOperand(if i.IExit? then 0 else i.target);
    OneOperand(target);
    var e := Encode(i);
    assert e[..1] == [18];
    assert e[3..] == [];
  }

  lemma OneOperand(v: nat)
    ensures EncodeOperands([v], [2]) == Digits(v, 2)
  {
    assert EncodeOperands([v][1..], [2][1..]) == [];
  }

  lemma TwoOperands(v: nat, w: nat)
    ensures EncodeOperands([v, w], [2, 2]) == Digits(v, 2) + Digits(w, 2)
  {
    assert [v, w][1..] == [w] && [2, 2][1..] == [2];
    OneOperand(w);
  }

  lemma PatchPad(was: nat, target: nat)
    ensures PatchAt(Encode(IPushCrash(was)), 1, target) == Encode(IPushCrash(target))
  {
    OneOperand(was);
    OneOperand(target);
    var e := Encode(IPushCrash(was));
    assert e[..1] == [21];
    assert e[3..] == [];
  }

  lemma PatchYes(yes: nat, no: nat, target: nat)
    ensures PatchAt(Encode(IBranchTop(yes, no)), 1, target) == Encode(IBranchTop(target, no))
  {
    TwoOperands(yes, no);
    TwoOperands(target, no);
    var e := Encode(IBranchTop(yes, no));
    assert e[..1] == [20];
    assert e[3..] == Digits(no, 2);
  }

  lemma PatchNo(yes: nat, no: nat, target: nat)
    ensures PatchAt(Encode(IBranchTop(yes, no)), 3, target) == Encode(IBranchTop(yes, target))
  {
    TwoOperands(yes, no);
    TwoOperands(yes, target);
    var e := Encode(IBranchTop(yes, no));
    assert e[..3] == [20] + Digits(yes, 2);
    assert e[5..] == [];
  }

  /** Patching one instruction in the middle of code. */
  lemma PatchInstr(pre: seq<u8>, a: seq<Instr>, i: Instr, j: Instr, b: seq<Instr>, off: nat, target: nat)
    requires off + 2 <= Length(i) && PatchAt(Encode(i), off, target) == Encode(j)
    ensures PatchAt(pre + EncodeAll(a + ([i] + b)), |pre| + CodeLength(a) + off, target) == pre + EncodeAll(a + ([j] + b))
  {
    hide Encode, Length, EncodeAll, CodeLength, PatchAt;
    EncodeConcat(a, [i] + b);
    EncodeConcat(a, [j] + b);
    EncodeFirst(i, b);
    EncodeFirst(j, b);
    var x, y := EncodeAll(a), EncodeAll(b);
    assert pre + (x + (Encode(i) + y)) == (pre + x) + Encode(i) + y;
    assert pre + (x + (Encode(j) + y)) == (pre + x) + Encode(j) + y;
    PatchInside(pre + x, Encode(i), y, off, target);
  }

  lemma EncodeFirst(i: Instr, b: seq<Instr>)
    ensures EncodeAll([i] + b) == Encode(i) + EncodeAll(b)
  {
    assert ([i] + b)[1..] == b;
  }

  lemma PatchExit(pre: seq<u8>, scope: nat, rest: seq<u8>, target: nat)
    ensures PatchAt(pre + Encode(IExit(scope)) + rest, |pre| + 1, target) == pre + Encode(IJump(target)) + rest
  {
    hide Encode, PatchAt;
    PatchJump(IExit(scope), target);
    PatchInside(pre, Encode(IExit(scope)), rest, 1, target);
  }

  /** One step of patching: the first instruction is passed or patched. */
  lemma PatchFirst(pre: seq<u8>, code: seq<Instr>, scope: nat, target: nat)
    requires |code| > 0
    ensures var j := if code[0] == IExit(scope) then IJump(target) else code[0];
      PatchAll(pre + EncodeAll(code), Exits(code, scope, |pre|), target) ==
      PatchAll(pre + Encode(j) + EncodeAll(code[1..]), Exits(code[1..], scope, |pre| + Length(code[0])), target)
  {
    hide Encode, PatchAt, Length, EncodeAll;
    FirstApart(pre, code);
    var more := Exits(code[1..], scope, |pre| + Length(code[0]));
    if code[0] == IExit(scope) {
      PatchExit(pre, scope, EncodeAll(code[1..]), target);
      assert ([|pre| + 1] + more)[1..] == more;
    } else {
      assert [] + more == more;
    }
  }

  /** Writing a target over all exits of a scope turns them into jumps to it. */
  lemma {:induction false} PatchAllFinishes(pre: seq<u8>, code: seq<Instr>, scope: nat, target: nat)
    ensures PatchAll(pre + EncodeAll(code), Exits(code, scope, |pre|), target) == pre + EncodeAll(Finish(code, scope, target))
    decreases |code|
  {
    hide Encode, PatchAt, Length;
    if |code| == 0 {
      assert Finish(code, scope, target) == [];
    } else {
      hide PatchAll, Exits, EncodeAll;
      var f := Finish(code, scope, target);
      assert f[1..] == Finish(code[1..], scope, target);
      PatchFirst(pre, code, scope, target);
      PatchAllFinishes(pre + Encode(f[0]), code[1..], scope, target);
      SameLength(code[0], f[0], scope, target);
      FirstApart(pre, f);
    }
  }

  lemma SameLength(i: Instr, j: Instr, scope: nat, target: nat)
    requires j == if i == IExit(scope) then IJump(target) else i
    ensures Length(i) == Length(j)
  {
  }

  lemma FirstApart(pre: seq<u8>, code: seq<Instr>)
    requires |code| > 0
    ensures pre + EncodeAll(code) == pre + Encode(code[0]) + EncodeAll(code[1..])
  {
    hide Encode;
  }
}
