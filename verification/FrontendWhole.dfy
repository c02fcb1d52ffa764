/** Words that upset nothing keep the blocks a tree in which every operation has exactly one place. */
module FrontendWhole {
  import opened Memory
  import opened Ir
  import opened FlatBlocks
  import opened BlockTree
  import opened FrontendState
  import opened FrontendSteps
  import opened FrontendProof
  import opened FrontendCovers
  import opened FrontendJumps
  import opened FrontendRuns
  import opened FrontendShape
  import opened FrontendOps

  ghost predicate Shaped(st: State, path: seq<nat>, marks: seq<nat>) {
    InRange(st) && Sane(st, path, marks) && IsTree(st.blocks) && Filled(st)
  }

  lemma BeginRefs(bs: seq<Block>, i: nat, n: nat)
    requires IsTree(bs) && Blank(bs, i)
    ensures IsTree(Begin(bs, i, n))
  {
    hide IsTree;
    SameRefsIsTree(bs, Begin(bs, i, n));
  }

  lemma EndedTree(st: State)
    requires IsTree(st.blocks) && Filled(st) && |st.scopes| > 0 && PhaseOk(Top(st))
    ensures IsTree(Ended(st).blocks)
  {
    hide IsTree, Total, Of, Indices, Begin, Blank;
    var s, bs := Top(st), st.blocks;
    AfterWaits(s);
    if s.kind.SCOPE_IF? && s.phase.SCOPE_BODY? {
      SecondWaits(s);
      BeginPlaced(bs, s.second, |st.ops|);
      BeginRefs(bs, s.second, |st.ops|);
      bs := Begin(bs, s.second, |st.ops|);
    }
    BeginRefs(bs, s.after, |st.ops|);
  }

  lemma {:induction false} ImplicitTree(st: State, path: seq<nat>, marks: seq<nat>)
    requires IsTree(st.blocks) && Filled(st) && Sane(st, path, marks) && (|st.scopes| > 0 ==> !Opens(Top(st)))
    ensures IsTree(ImplicitEnded(st).blocks)
    decreases |st.scopes|
  {
    hide Filled, Sane, Ended, ImplicitBody, Opens, IsTree;
    if |st.scopes| > 0 && ImplicitBody(Top(st)) {
      MarksCount(st, path, marks);
      SaneParts(st, path, marks);
      assert PhaseOk(Top(st)) by { TopOk(st, path, marks); }
      var m := marks[|marks| - 1];
      EndedTree(st);
      EndedFilled(st, path, marks);
      EndedKeeps(st, path, marks, m);
      EndedShorter(st);
      assert |Ended(st).scopes| > 0 ==> !Opens(Top(Ended(st))) by { SettledOf(st, path, marks); EndedSettled(st); }
      ImplicitTree(Ended(st), path[..m + 1] + [Top(st).after], marks[..|marks| - 1]);
    }
  }

  lemma SettledOf(st: State, path: seq<nat>, marks: seq<nat>)
    requires Sane(st, path, marks)
    ensures Settled(st.scopes)
  {
  }

  lemma EmittedTree(st: State, op: Op)
    requires IsTree(st.blocks) && CurrentOk(st)
    ensures Emitted(st, op).Some? && IsTree(Emitted(st, op).value.blocks)
  {
    hide IsTree;
    SameRefsIsTree(st.blocks, Emitted(st, op).value.blocks);
  }

  lemma DelimitedTree(st: State, opening: bool, path: seq<nat>, marks: seq<nat>)
    requires IsTree(st.blocks) && Filled(st) && Sane(st, path, marks)
    requires Delimited(st, opening).Some? && !Spoils(st, if opening then WOpen else WClose)
    ensures IsTree(Delimited(st, opening).value.blocks)
  {
    hide IsTree, Sane, Total, Of, Indices, Begin, Blank, ScopesOk, Way, Refs;
    SaneParts(st, path, marks);
    if |st.scopes| > 0 && !Waits(Top(st)) && Top(st).delimiterDepth == 1 && !opening {
      TopOk(st, path, marks);
      var s, bs := Top(st), st.blocks;
      if s.kind.SCOPE_IF? {
        bs := st.blocks[s.block := ConditionEnded(st.blocks[s.block], |st.ops|)];
        assert IsTree(bs) by { ConditionRefs(st.blocks, s.block, |st.ops|); }
        assert Blank(bs, s.first) by { BlankElsewhere(st.blocks, s.block, bs[s.block], s.first); }
      } else {
        assert Waiting(s)[1] == s.first;
      }
      BeginRefs(bs, s.first, |st.ops|);
    }
  }

  lemma BlankElsewhere(bs: seq<Block>, i: nat, b: Block, k: nat)
    requires i < |bs| && !bs[i].BBasic? && Blank(bs, k)
    ensures Blank(bs[i := b], k)
  {
  }

  lemma ConditionRefs(bs: seq<Block>, i: nat, n: nat)
    requires IsTree(bs) && i < |bs| && bs[i].BBranch?
    ensures IsTree(bs[i := ConditionEnded(bs[i], n)])
  {
    hide IsTree;
    SameRefsIsTree(bs, bs[i := ConditionEnded(bs[i], n)]);
  }

  lemma SecondTree(st: State, phase: Phase)
    requires IsTree(st.blocks) && Filled(st) && |st.scopes| > 0 && Top(st).phase.SCOPE_BODY?
    requires Top(st).kind.SCOPE_IF? || (Top(st).kind.SCOPE_EPILOGUE? && !Top(st).implicitEnd)
    ensures IsTree(SecondBegun(st, phase).blocks)
  {
    hide IsTree, Total, Of, Indices, Begin, Blank;
    assert Waiting(Top(st))[1] == Top(st).second;
    BeginRefs(st.blocks, Top(st).second, |st.ops|);
  }

  // ----- words -----

  lemma LoopShapes(st: State, path: seq<nat>, marks: seq<nat>)
    requires Shaped(st, path, marks) && (|st.scopes| > 0 ==> !Opens(Top(st))) && LoopBegun(st).Some?
    ensures IsTree(LoopBegun(st).value.blocks) && Filled(LoopBegun(st).value)
  {
    hide Sane, IsTree, Filled, InRange, Wrapped, Opens;
    assert st.blocks[st.current].BBasic? by { SaneCurrent(st, path, marks); }
    var n, st1, extra := |st.blocks|, LoopBegun(st).value, [Fresh(st), BMany(|st.blocks|, INVALID)];
    WrapIsTree(st, extra, BLoop(n + 1));
    OpenedFilled(st, st1, extra, BLoop(n + 1), LoopScope(st), path, marks);
  }

  lemma IfShapes(st: State, path: seq<nat>, marks: seq<nat>)
    requires Shaped(st, path, marks) && (|st.scopes| > 0 ==> !Opens(Top(st))) && IfBegun(st).Some?
    ensures IsTree(IfBegun(st).value.blocks) && Filled(IfBegun(st).value)
  {
    hide Sane, IsTree, Filled, InRange, Wrapped, Opens;
    assert st.blocks[st.current].BBasic? by { SaneCurrent(st, path, marks); }
    var n, st1, extra := |st.blocks|, IfBegun(st).value, [Fresh(st), Fresh(st)];
    var middle := BBranch(Range(|st.ops|, 0), n, n + 1);
    WrapIsTree(st, extra, middle);
    OpenedFilled(st, st1, extra, middle, IfScope(st), path, marks);
  }

  lemma EpilogueShapes(st: State, implicitEnd: bool, path: seq<nat>, marks: seq<nat>)
    requires Shaped(st, path, marks) && (|st.scopes| > 0 ==> !Opens(Top(st))) && EpilogueBegun(st, implicitEnd).Some?
    ensures IsTree(EpilogueBegun(st, implicitEnd).value.blocks) && Filled(EpilogueBegun(st, implicitEnd).value)
  {
    hide Sane, IsTree, Filled, InRange, Wrapped, Opens;
    assert st.blocks[st.current].BBasic? by { SaneCurrent(st, path, marks); }
    var n, st1, extra := |st.blocks|, EpilogueBegun(st, implicitEnd).value, [Fresh(st), Fresh(st)];
    WrapIsTree(st, extra, BDefer(n, n + 1));
    OpenedFilled(st, st1, extra, BDefer(n, n + 1), EpilogueScope(st, implicitEnd), path, marks);
  }

  lemma JumpShapes(st: State, again: bool, path: seq<nat>, marks: seq<nat>)
    requires Shaped(st, path, marks) && (|st.scopes| > 0 ==> !Opens(Top(st))) && Exited(st, again).Some?
    ensures IsTree(Exited(st, again).value.blocks) && Filled(Exited(st, again).value)
  {
    hide Sane, IsTree, Filled, InRange, Wrapped, Opens, LeavesNoCleanup;
    assert st.current < |st.blocks| && st.blocks[st.current].BBasic? by { SaneCurrent(st, path, marks); }
    var n := InnermostLoop(st.scopes);
    JumpFilled(st, again, path, marks);
    WrapIsTree(st, [], BBreak(st.depth + 2 - (if again then st.scopes[n - 1].continueDepth else st.scopes[n - 1].breakDepth)));
  }

  lemma EndingShapes(st: State, w: Token, path: seq<nat>, marks: seq<nat>)
    requires Shaped(st, path, marks) && Control(st, w).Some?
    requires !(w.WLoop? || w.WIf? || w.WStart? || w.WDefer? || w.WBreak? || w.WContinue?)
    ensures IsTree(Control(st, w).value.blocks) && Filled(Control(st, w).value)
  {
    hide Sane, IsTree, Filled, InRange, Opens, ImplicitEnded, SecondBegun, Ended;
    assert st.current < |st.blocks| by { SaneCurrent(st, path, marks); }
    var t := ImplicitEnded(st);
    ImplicitFilled(st, path, marks);
    ImplicitTree(st, path, marks);
    var path1, marks1 := ImplicitKeeps(st, path, marks);
    if w.WElse? || w.WFinally? {
      var phase := if w.WElse? then SCOPE_ELSE_BODY else SCOPE_CLEANUP;
      SecondFilled(t, phase);
      SecondTree(t, phase);
    } else {
      SaneParts(t, path1, marks1);
      assert PhaseOk(Top(t)) by { TopOk(t, path1, marks1); }
      EndedFilled(t, path1, marks1);
      EndedTree(t);
    }
  }

  lemma WordShapes(st: State, w: Token, ntypes: nat, path: seq<nat>, marks: seq<nat>)
      returns (path1: seq<nat>, marks1: seq<nat>, made: seq<Jump>)
    requires Shaped(st, path, marks) && Step(st, w, ntypes).Some? && !Spoils(st, w)
    requires |Step(st, w, ntypes).value.blocks| <= INVALID
    ensures Shaped(Step(st, w, ntypes).value, path1, marks1)
    ensures Stays(st, Step(st, w, ntypes).value, made, Makes(st, w), path1, marks1)
  {
    hide Sane, IsTree, Filled, InRange, Builds, Made, Opens, Waits, Control, ImplicitEnded, VarDeclared, Emitted, Delimited, Spoils, Continues;
    path1, marks1, made := WordKeeps(st, w, ntypes, path, marks);
    assert InRange(Step(st, w, ntypes).value) by { StepInRange(st, w, ntypes); ContinuesInRange(st, Step(st, w, ntypes).value); }
    WordShape(st, w, ntypes, path, marks);
  }

  lemma ContinuesInRange(st: State, t: State)
    requires Continues(st, t)
    ensures InRange(t) && |st.blocks| <= |t.blocks|
  {
  }

  lemma WordShape(st: State, w: Token, ntypes: nat, path: seq<nat>, marks: seq<nat>)
    requires Shaped(st, path, marks) && Step(st, w, ntypes).Some? && !Spoils(st, w)
    requires |Step(st, w, ntypes).value.blocks| <= INVALID
    ensures IsTree(Step(st, w, ntypes).value.blocks) && Filled(Step(st, w, ntypes).value)
  {
    hide Sane, IsTree, Filled, InRange, Opens, Waits, Control, ImplicitEnded, VarDeclared, Emitted, Delimited, Spoils;
    match w
    case WOpen => DelimitedFilled(st, true, path, marks); DelimitedTree(st, true, path, marks);
    case WClose => DelimitedFilled(st, false, path, marks); DelimitedTree(st, false, path, marks);
    case WOp(op) => EmittedShape(st, op, path, marks);
    case WNative(g) =>
      EmittedShape(st, PushGlobal(g), path, marks);
      EmittedKeeps(st, PushGlobal(g), path, marks);
      EmittedScopes(st, PushGlobal(g));
      EmittedShape(Emitted(st, PushGlobal(g)).value, CallNative, path, marks);
    case WVar(tid, name) =>
      SaneCurrent(st, path, marks);
      VarFilled(st, tid, name, ntypes, path, marks);
      VarTree(st, tid, name, ntypes, path, marks);
    case _ => ControlShapes(st, w, path, marks);
  }

  lemma EmittedScopes(st: State, op: Op)
    requires Emitted(st, op).Some?
    ensures Emitted(st, op).value.scopes == st.scopes
  {
  }

  lemma EmittedShape(st: State, op: Op, path: seq<nat>, marks: seq<nat>)
    requires Filled(st) && IsTree(st.blocks) && Sane(st, path, marks) && (|st.scopes| > 0 ==> !Waits(Top(st)))
    ensures Emitted(st, op).Some? && IsTree(Emitted(st, op).value.blocks) && Filled(Emitted(st, op).value)
  {
    hide Sane, IsTree, Waits, Emitted;
    EmittedTree(st, op);
    EmittedFilled(st, op, path, marks);
  }

  lemma VarTree(st: State, tid: nat, name: string, ntypes: nat, path: seq<nat>, marks: seq<nat>)
    requires IsTree(st.blocks) && Sane(st, path, marks) && st.current < |st.blocks|
    requires VarDeclared(st, tid, name, ntypes).Some? && |VarDeclared(st, tid, name, ntypes).value.blocks| <= INVALID
    ensures IsTree(VarDeclared(st, tid, name, ntypes).value.blocks)
  {
    hide IsTree, Sane, Named;
    SaneCurrent(st, path, marks);
    VarIsTree(st);
  }

  lemma ControlShapes(st: State, w: Token, path: seq<nat>, marks: seq<nat>)
    requires Shaped(st, path, marks) && Control(st, w).Some?
    ensures IsTree(Control(st, w).value.blocks) && Filled(Control(st, w).value)
  {
    hide Sane, IsTree, Filled, Opens, ImplicitEnded, LoopBegun, IfBegun, EpilogueBegun, Exited, SecondBegun, Ended;
    if w.WLoop? {
      LoopShapes(st, path, marks);
    } else if w.WIf? {
      IfShapes(st, path, marks);
    } else if w.WStart? || w.WDefer? {
      EpilogueShapes(st, w.WDefer?, path, marks);
    } else if w.WBreak? || w.WContinue? {
      JumpShapes(st, w.WContinue?, path, marks);
    } else {
      EndingShapes(st, w, path, marks);
    }
  }

  // ----- all words -----

  lemma {:induction false} FeedGrows(st: State, words: seq<Token>, ntypes: nat)
    requires InRange(st) && Feed(st, words, ntypes).Some?
    ensures Continues(st, Feed(st, words, ntypes).value)
    decreases |words|
  {
    hide Step, InRange;
    if |words| > 0 {
      StepInRange(st, words[0], ntypes);
      FeedGrows(Step(st, words[0], ntypes).value, words[1..], ntypes);
    }
  }

  lemma NotOpenAtEnd(st: State)
    requires ImplicitEnded(st).scopes == []
    ensures |st.scopes| > 0 ==> !Opens(Top(st))
  {
  }

  lemma StartShaped()
    ensures Shaped(START, [0], [])
  {
    StartSane();
    assert Steps(START.blocks, [0]);
    assert Reached(START.blocks, 0);
    assert Total(START.blocks, References) == Indices(1, 0) == multiset{};
    assert Total(START.blocks, Operations) == Indices(0, 0) == multiset{};
  }
}
