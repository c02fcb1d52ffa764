/** The frontend as it runs: one object whose block array, scopes and counters the words update in place. */
module Frontend {
  import opened Memory
  import opened Ir
  import opened FlatBlocks
  import opened FrontendState
  import opened FrontendSteps

  class Builder {
    var blocks: seq<Block>
    var ops: seq<Op>
    var vars: seq<Declared>
    var scopes: seq<OpenScope>
    var current: nat
    var depth: nat
    const ntypes: nat

    ghost function Now(): State
      reads this
    {
      State(blocks, ops, vars, scopes, current, depth)
    }

    ghost predicate Valid()
      reads this
    {
      InRange(Now())
    }

    constructor (ntypes: nat)
      ensures Valid() && Now() == START && this.ntypes == ntypes
    {
      this.ntypes := ntypes;
      blocks, ops, vars, scopes, current, depth := [BBasic(Range(0, 0))], [], [], [], 0, 0;
    }

    /** Stores the operation; outside a condition the current basic block grows by it. */
    method EmitOp(op: Op) returns (ok: bool)
      requires Valid()
      modifies this
      ensures Valid() && ok == Emitted(old(Now()), op).Some?
      ensures Now() == if ok then Emitted(old(Now()), op).value else old(Now())
    {
      if !blocks[current].BBasic? {
        if !blocks[0].BBasic? { return false; }
        current := 0;
      }
      ops := ops + [op];
      if |scopes| > 0 && scopes[|scopes| - 1].kind.SCOPE_IF? && scopes[|scopes| - 1].phase.SCOPE_CONDITION? { return true; }
      var start := blocks[current].ops.start;
      blocks := blocks[current := BBasic(UpTo(Range(start, 0), |ops|))];
      return true;
    }

    /** The current block becomes: itself, the middle block, a new basic block. */
    method WrapCurrent(middle: Block) returns (ok: bool, middleIdx: nat, after: nat)
      requires current < |blocks|
      modifies this`blocks
      ensures ok == (|old(blocks)| + 5 < INVALID)
      ensures blocks == if ok then Wrapped(old(blocks), current, middle, |ops|) else old(blocks)
      ensures ok ==> middleIdx == |old(blocks)| + 1 && after == |old(blocks)| + 3
    {
      middleIdx, after := 0, 0;
      if |blocks| + 5 >= INVALID { return false, 0, 0; }
      var slot, before := current, |blocks|;
      middleIdx := before + 1;
      var middleLink := before + 2;
      after := before + 3;
      var afterLink := before + 4;
      var filled := [blocks[slot], middle, BChain(middleIdx, afterLink), BBasic(Range(|ops|, 0)), BChain(after, INVALID)];
      blocks := blocks + filled;
      blocks := blocks[slot := BMany(before, middleLink)];
      return true, middleIdx, after;
    }

    method AppendBasic() returns (ok: bool, idx: nat)
      modifies this`blocks
      ensures ok == (|old(blocks)| + 1 < INVALID)
      ensures blocks == if ok then old(blocks) + [BBasic(Range(|ops|, 0))] else old(blocks)
      ensures ok ==> idx == |old(blocks)|
    {
      if |blocks| + 1 >= INVALID { return false, 0; }
      idx := |blocks|;
      blocks := blocks + [BBasic(Range(|ops|, 0))];
      return true, idx;
    }

    method SetStart(i: nat)
      requires i < |blocks|
      modifies this`blocks
      ensures blocks == Begin(old(blocks), i, |ops|)
    {
      blocks := blocks[i := WithStart(blocks[i], |ops|)];
    }

    method BeginLoop() returns (ok: bool)
      requires Valid()
      modifies this
      ensures Valid() && ok == LoopBegun(old(Now())).Some?
      ensures ok ==> Now() == LoopBegun(old(Now())).value
      ensures !ok ==> Now() == old(Now()).(blocks := blocks) && old(blocks) <= blocks
    {
      ghost var was := Now();
      var body;
      ok, body := AppendBasic();
      if !ok { return; }
      if |blocks| + 1 >= INVALID { return false; }
      var loopBody := |blocks|;
      blocks := blocks + [BMany(body, INVALID)];
      var parentDepth := depth;
      var loop, after;
      ok, loop, after := WrapCurrent(BLoop(loopBody));
      if !ok { return; }
      scopes := scopes + [OpenScope(SCOPE_LOOP, SCOPE_BODY, loop, loopBody, 0, after,
                                    parentDepth, parentDepth + 2, parentDepth + 3, 0, false)];
      current := body;
      depth := parentDepth + 3;
      assert was.blocks + [BBasic(Range(|ops|, 0))] + [BMany(body, INVALID)] == was.blocks + [BBasic(Range(|ops|, 0)), BMany(body, INVALID)];
      assert Now() == LoopBegun(was).value;
    }

    method BeginIf() returns (ok: bool)
      requires Valid()
      modifies this
      ensures Valid() && ok == IfBegun(old(Now())).Some?
      ensures ok ==> Now() == IfBegun(old(Now())).value
      ensures !ok ==> Now() == old(Now()).(blocks := blocks) && old(blocks) <= blocks
    {
      ghost var was := Now();
      hide Wrapped;
      var yesArm, noArm;
      ok, yesArm := AppendBasic();
      if !ok { return; }
      ok, noArm := AppendBasic();
      if !ok { return; }
      var parentDepth := depth;
      var branch, after;
      ok, branch, after := WrapCurrent(BBranch(Range(|ops|, 0), yesArm, noArm));
      if !ok { return; }
      scopes := scopes + [OpenScope(SCOPE_IF, SCOPE_WAIT_OPEN, branch, yesArm, noArm, after, parentDepth, 0, 0, 0, false)];
      current := yesArm;
      depth := parentDepth + 1;
      assert was.blocks + [Fresh(was)] + [Fresh(was)] == was.blocks + [Fresh(was), Fresh(was)];
      OpeningsInRange(was);
      assert Now() == IfBegun(was).value;
    }

    method BeginEpilogue(implicitEnd: bool) returns (ok: bool)
      requires Valid()
      modifies this
      ensures Valid() && ok == EpilogueBegun(old(Now()), implicitEnd).Some?
      ensures ok ==> Now() == EpilogueBegun(old(Now()), implicitEnd).value
      ensures !ok ==> Now() == old(Now()).(blocks := blocks) && old(blocks) <= blocks
    {
      ghost var was := Now();
      hide Wrapped;
      var next, cleanup;
      ok, next := AppendBasic();
      if !ok { return; }
      ok, cleanup := AppendBasic();
      if !ok { return; }
      var parentDepth := depth;
      var deferred, after;
      ok, deferred, after := WrapCurrent(BDefer(next, cleanup));
      if !ok { return; }
      scopes := scopes + [OpenScope(SCOPE_EPILOGUE, if implicitEnd then SCOPE_CLEANUP_WAIT_OPEN else SCOPE_BODY,
                                    deferred, next, cleanup, after, parentDepth, 0, 0, 0, implicitEnd)];
      current := if implicitEnd then cleanup else next;
      depth := parentDepth + 2;
      assert was.blocks + [Fresh(was)] + [Fresh(was)] == was.blocks + [Fresh(was), Fresh(was)];
      OpeningsInRange(was);
      assert Now() == EpilogueBegun(was, implicitEnd).value;
    }

    /** AGAIN, DONE and END go on behind the construct that they close. */
    method CloseTop()
      requires Valid() && |scopes| > 0
      modifies this
      ensures Valid() && Now() == Ended(old(Now()))
    {
      var scope := scopes[|scopes| - 1];
      if scope.kind.SCOPE_IF? && scope.phase.SCOPE_BODY? { SetStart(scope.second); }
      scopes := scopes[..|scopes| - 1];
      current := scope.after;
      SetStart(scope.after);
      depth := scope.parentDepth + 1;
    }

    method EndLoop() returns (ok: bool)
      requires Valid()
      modifies this
      ensures Valid() && ok == (|old(scopes)| > 0 && Top(old(Now())).kind.SCOPE_LOOP?)
      ensures Now() == if ok then Ended(old(Now())) else old(Now())
    {
      if |scopes| == 0 || !scopes[|scopes| - 1].kind.SCOPE_LOOP? { return false; }
      CloseTop();
      return true;
    }

    method EndIf() returns (ok: bool)
      requires Valid()
      modifies this
      ensures Valid()
      ensures ok == (|old(scopes)| > 0 && Top(old(Now())).kind.SCOPE_IF? && (Top(old(Now())).phase.SCOPE_BODY? || Top(old(Now())).phase.SCOPE_ELSE_BODY?))
      ensures Now() == if ok then Ended(old(Now())) else old(Now())
    {
      if |scopes| == 0 || !scopes[|scopes| - 1].kind.SCOPE_IF?
         || (!scopes[|scopes| - 1].phase.SCOPE_BODY? && !scopes[|scopes| - 1].phase.SCOPE_ELSE_BODY?) { return false; }
      CloseTop();
      return true;
    }

    method FinishEpilogue() returns (ok: bool)
      requires Valid()
      modifies this
      ensures Valid()
      ensures ok == (|old(scopes)| > 0 && Top(old(Now())).kind.SCOPE_EPILOGUE? && !Top(old(Now())).implicitEnd && Top(old(Now())).phase.SCOPE_CLEANUP?)
      ensures Now() == if ok then Ended(old(Now())) else old(Now())
    {
      if |scopes| == 0 || !scopes[|scopes| - 1].kind.SCOPE_EPILOGUE? || scopes[|scopes| - 1].implicitEnd
         || !scopes[|scopes| - 1].phase.SCOPE_CLEANUP? { return false; }
      CloseTop();
      return true;
    }

    method GoOnInSecond(phase: Phase)
      requires Valid() && |scopes| > 0
      modifies this
      ensures Valid() && Now() == SecondBegun(old(Now()), phase)
    {
      var n := |scopes| - 1;
      scopes := scopes[n := scopes[n].(phase := phase)];
      current := scopes[n].second;
      SetStart(current);
      depth := scopes[n].parentDepth + (if scopes[n].kind.SCOPE_IF? then 1 else 2);
    }

    method BeginElse() returns (ok: bool)
      requires Valid()
      modifies this
      ensures Valid() && ok == (|old(scopes)| > 0 && Top(old(Now())).kind.SCOPE_IF? && Top(old(Now())).phase.SCOPE_BODY?)
      ensures Now() == if ok then SecondBegun(old(Now()), SCOPE_ELSE_BODY) else old(Now())
    {
      if |scopes| == 0 || !scopes[|scopes| - 1].kind.SCOPE_IF? || !scopes[|scopes| - 1].phase.SCOPE_BODY? { return false; }
      GoOnInSecond(SCOPE_ELSE_BODY);
      return true;
    }

    method BeginCleanup() returns (ok: bool)
      requires Valid()
      modifies this
      ensures Valid()
      ensures ok == (|old(scopes)| > 0 && Top(old(Now())).kind.SCOPE_EPILOGUE? && !Top(old(Now())).implicitEnd && Top(old(Now())).phase.SCOPE_BODY?)
      ensures Now() == if ok then SecondBegun(old(Now()), SCOPE_CLEANUP) else old(Now())
    {
      if |scopes| == 0 || !scopes[|scopes| - 1].kind.SCOPE_EPILOGUE? || scopes[|scopes| - 1].implicitEnd
         || !scopes[|scopes| - 1].phase.SCOPE_BODY? { return false; }
      GoOnInSecond(SCOPE_CLEANUP);
      return true;
    }

    method FinishImplicitEpilogues()
      requires Valid()
      modifies this
      ensures Valid() && Now() == ImplicitEnded(old(Now()))
    {
      while |scopes| > 0 && ImplicitBody(scopes[|scopes| - 1])
        invariant Valid() && ImplicitEnded(Now()) == ImplicitEnded(old(Now()))
        decreases |scopes|
      {
        CloseTop();
      }
    }

    /** How many scopes there are up to and with the innermost loop. */
    method FindLoop() returns (n: nat)
      ensures n == InnermostLoop(scopes)
    {
      n := |scopes|;
      while n > 0 && !scopes[n - 1].kind.SCOPE_LOOP?
        invariant n <= |scopes| && InnermostLoop(scopes) == InnermostLoop(scopes[..n])
      {
        assert scopes[..n][..n - 1] == scopes[..n - 1];
        n := n - 1;
      }
    }

    method CleanupExitIsLegal(loopIndex: nat) returns (legal: bool)
      requires loopIndex <= |scopes|
      ensures legal == LeavesNoCleanup(scopes, loopIndex)
    {
      var i := loopIndex;
      while i < |scopes|
        invariant loopIndex <= i <= |scopes|
        invariant LeavesNoCleanup(scopes[..i], loopIndex)
      {
        if scopes[i].kind.SCOPE_EPILOGUE? && scopes[i].phase.SCOPE_CLEANUP? { return false; }
        i := i + 1;
      }
      assert scopes[..|scopes|] == scopes;
      return true;
    }

    method EmitLoopExit(again: bool) returns (ok: bool)
      requires Valid()
      modifies this
      ensures Valid() && ok == Exited(old(Now()), again).Some?
      ensures Now() == if ok then Exited(old(Now()), again).value else old(Now())
    {
      hide LeavesNoCleanup;
      var n := FindLoop();
      if n == 0 { return false; }
      var legal := CleanupExitIsLegal(n);
      if !legal { return false; }
      var target := if again then scopes[n - 1].continueDepth else scopes[n - 1].breakDepth;
      var breakDepth := depth + 1;
      if target > breakDepth { return false; }
      assert blocks + [] == blocks;
      var jump, after;
      ok, jump, after := WrapCurrent(BBreak(breakDepth - target + 1));
      if !ok { return; }
      current := after;
      depth := depth + 1;
    }

    method HandleDelimiter(opening: bool) returns (ok: bool)
      requires Valid()
      modifies this
      ensures Valid() && ok == Delimited(old(Now()), opening).Some?
      ensures Now() == if ok then Delimited(old(Now()), opening).value else old(Now())
    {
      if |scopes| == 0 { return true; }
      var n := |scopes| - 1;
      var s := scopes[n];
      if s.phase.SCOPE_WAIT_OPEN? || s.phase.SCOPE_CLEANUP_WAIT_OPEN? {
        if !opening { return false; }
        scopes := scopes[n := s.(delimiterDepth := 1, phase := if s.kind.SCOPE_IF? then SCOPE_CONDITION else SCOPE_CLEANUP)];
        return true;
      }
      if s.delimiterDepth > 0 {
        if opening {
          scopes := scopes[n := s.(delimiterDepth := s.delimiterDepth + 1)];
          return true;
        }
        scopes := scopes[n := s.(delimiterDepth := s.delimiterDepth - 1)];
        if s.delimiterDepth > 1 { return true; }
        if s.kind.SCOPE_IF? { blocks := blocks[s.block := ConditionEnded(blocks[s.block], |ops|)]; }
        scopes := scopes[n := scopes[n].(phase := SCOPE_BODY)];
        current := s.first;
        SetStart(current);
      }
      return true;
    }

    method DeclareVar(tid: nat, name: string) returns (ok: bool)
      requires Valid()
      modifies this
      ensures Valid() && ok == VarDeclared(old(Now()), tid, name, ntypes).Some?
      ensures Now() == if ok then VarDeclared(old(Now()), tid, name, ntypes).value else old(Now())
    {
      if tid >= ntypes || |vars| > 0xFFFF { return false; }
      var i := 0;
      while i < |vars|
        invariant 0 <= i <= |vars| && !Named(vars[..i], name)
      {
        if vars[i].name == name { return false; }
        i := i + 1;
      }
      assert vars[..|vars|] == vars;
      var v := |vars|;
      vars := vars + [Declared(tid, name)];
      var slot, before := current, |blocks|;
      var varBlock, link, body := before + 1, before + 2, before + 3;
      blocks := blocks + [blocks[slot], BVar(v, body), BChain(varBlock, INVALID), BBasic(Range(|ops|, 0))];
      blocks := blocks[slot := BMany(before, link)];
      current := body;
      depth := depth + 2;
      return true;
    }

    method RunControl(w: Token) returns (ok: bool)
      requires Valid()
      modifies this
      ensures Valid() && ok == Control(old(Now()), w).Some?
      ensures ok ==> Now() == Control(old(Now()), w).value
    {
      hide LoopBegun, IfBegun, EpilogueBegun, Exited, SecondBegun, Ended, ImplicitEnded, ImplicitBody;
      if |scopes| > 0 && Opens(scopes[|scopes| - 1]) { return false; }
      if w.WAgain? || w.WElse? || w.WDone? || w.WFinally? || w.WEnd? { FinishImplicitEpilogues(); }
      match w {
        case WLoop => ok := BeginLoop();
        case WAgain => ok := EndLoop();
        case WIf => ok := BeginIf();
        case WElse => ok := BeginElse();
        case WDone => ok := EndIf();
        case WBreak => ok := EmitLoopExit(false);
        case WContinue => ok := EmitLoopExit(true);
        case WStart => ok := BeginEpilogue(false);
        case WFinally => ok := BeginCleanup();
        case WEnd => ok := FinishEpilogue();
        case WDefer => ok := BeginEpilogue(true);
        case _ => ok := false;
      }
    }

    method RunToken(w: Token) returns (ok: bool)
      requires Valid()
      modifies this
      ensures Valid() && ok == Step(old(Now()), w, ntypes).Some?
      ensures ok ==> Now() == Step(old(Now()), w, ntypes).value
    {
      hide Control, Delimited, VarDeclared;
      if w.WOpen? { ok := HandleDelimiter(true); return; }
      if w.WClose? { ok := HandleDelimiter(false); return; }
      if |scopes| > 0 && Waits(scopes[|scopes| - 1]) { return false; }
      if w.WOp? {
        ok := EmitOp(w.op);
      } else if w.WNative? {
        ok := EmitOp(PushGlobal(w.g));
        if ok { ok := EmitOp(CallNative); }
      } else if w.WVar? {
        ok := DeclareVar(w.tid, w.name);
      } else {
        ok := RunControl(w);
      }
    }

    /** Runs a whole source; it is accepted when every word is and no construct stays open. */
    method CompileSource(words: seq<Token>) returns (ok: bool)
      requires Valid()
      modifies this
      ensures Valid() && ok == Compiled(old(Now()), words, ntypes).Some?
      ensures ok ==> Now() == Compiled(old(Now()), words, ntypes).value
    {
      hide Step, ImplicitEnded, InRange;
      ghost var start := Now();
      var i := 0;
      while i < |words|
        invariant 0 <= i <= |words| && Valid()
        invariant Feed(start, words, ntypes) == Feed(Now(), words[i..], ntypes)
      {
        ghost var was := Now();
        ok := RunToken(words[i]);
        assert words[i..][0] == words[i] && words[i..][1..] == words[i + 1..];
        if !ok { return false; }
        i := i + 1;
      }
      FinishImplicitEpilogues();
      return |scopes| == 0;
    }
  }
}
