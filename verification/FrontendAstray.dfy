/** What the two uses of parentheses lead to: sources that the frontend accepts although their
    blocks are no tree, or their breaks leave too much. */
module FrontendAstray {
  import opened Memory
  import opened Ir
  import opened FlatBlocks
  import opened BlockTree
  import opened FrontendState
  import opened FrontendSteps
  import opened FrontendProof
  import opened FrontendCovers
  import opened FrontendJumps
  import opened FrontendRuns
  import opened FrontendWhole
  import opened FrontendTwins
  import opened FrontendTrees

  // ----- levels -----

  lemma {:induction false} TwinDepth(bs: seq<Block>, cs: seq<Block>, anc: seq<nat>, level: nat)
    requires SameBlocks(bs, cs)
    ensures Depth(bs, anc) == Depth(cs, anc) && Target(bs, anc, level) == Target(cs, anc, level)
    decreases |anc|
  {
    if |anc| > 0 {
      var last := anc[|anc| - 1];
      assert last < |bs| ==> SameBlock(bs[last], cs[last]);
      TwinDepth(bs, cs, anc[..|anc| - 1], level);
      if level > 1 { TwinDepth(bs, cs, anc[..|anc| - 1], level - 1); }
    }
  }

  lemma {:induction false} TwinDefers(bs: seq<Block>, cs: seq<Block>, w: seq<nat>, p: nat, n: nat)
    requires SameBlocks(bs, cs) && p <= n <= |w|
    ensures FirstDefer(bs, w, p, n) == FirstDefer(cs, w, p, n) && BranchesOn(bs, w, p, n) == BranchesOn(cs, w, p, n)
    decreases n
  {
    if p < n {
      assert w[n - 1] < |bs| ==> SameBlock(bs[w[n - 1]], cs[w[n - 1]]);
      TwinDefers(bs, cs, w, p, n - 1);
    }
  }

  lemma TwinCovers(bs: seq<Block>, cs: seq<Block>, w: seq<nat>, p: nat)
    requires SameBlocks(bs, cs) && p < |w|
    ensures WayCovers(bs, w, p) == WayCovers(cs, w, p)
  {
    var n: nat := |w| - 1;
    TwinDefers(bs, cs, w, p, n);
    var d := FirstDefer(bs, w, p, n);
    TwinDefers(bs, cs, w, d, n);
    TwinDepth(bs, cs, w[..d], 0);
    TwinDepth(bs, cs, w[..p], 0);
  }

  lemma TwinWay(bs: seq<Block>, cs: seq<Block>, w: seq<nat>)
    requires SameBlocks(bs, cs) && Way(bs, w)
    ensures Way(cs, w)
  {
    forall i | 0 <= i < |w| - 1 ensures Child(cs, w[i], w[i + 1]) { TwinChild(bs, cs, w[i], w[i + 1]); }
  }

  lemma TwinChild(bs: seq<Block>, cs: seq<Block>, a: nat, b: nat)
    requires SameBlocks(bs, cs) && Child(bs, a, b)
    ensures Child(cs, a, b)
  {
    assert SameBlock(bs[a], cs[a]);
    if bs[a].BMany? && b != bs[a].cur { TwinChain(bs, cs, bs[a].next, b, 2); }
  }

  lemma {:induction false} TwinChain(bs: seq<Block>, cs: seq<Block>, next: nat, b: nat, links: nat)
    requires SameBlocks(bs, cs) && InChain(bs, next, b, links)
    ensures InChain(cs, next, b, links)
    decreases links
  {
    assert SameBlock(bs[next], cs[next]);
    if b != bs[next].cur { TwinChain(bs, cs, bs[next].next, b, links - 1); }
  }

  /** In like blocks a break lands where the other one does if and only if it has its level. */
  lemma TwinLands(bs: seq<Block>, cs: seq<Block>, j: Jump)
    requires SameBlocks(bs, cs) && Lands(cs, j)
    ensures EndOf(j) < |bs| && bs[EndOf(j)].BBreak? && cs[EndOf(j)].BBreak?
    ensures Lands(bs, j) <==> bs[EndOf(j)].level == cs[EndOf(j)].level
  {
    hide Depth, Target, Way, WayCovers;
    var n: nat := |j.way| - 1;
    var p := if j.again then j.loop + 1 else j.loop;
    assert SameBlock(bs[j.way[n]], cs[j.way[n]]);
    TwinSame(cs, bs);
    TwinWay(cs, bs, j.way);
    TwinCovers(bs, cs, j.way, p);
    TwinDepth(bs, cs, j.way[..n], cs[j.way[n]].level);
    TwinDepth(bs, cs, j.way[..p], 0);
    assert SameBlock(bs[j.way[j.loop]], cs[j.way[j.loop]]) && SameBlock(bs[j.way[j.loop + 1]], cs[j.way[j.loop + 1]]);
    forall i | j.loop < i < n && j.way[i] < |bs| ensures Between(bs[j.way[i]], j.way[i + 1]) {
      assert SameBlock(bs[j.way[i]], cs[j.way[i]]) && Between(cs[j.way[i]], j.way[i + 1]);
    }
  }

  lemma TwinSame(bs: seq<Block>, cs: seq<Block>)
    ensures SameBlocks(bs, cs) ==> SameBlocks(cs, bs)
  {
  }

  /** How far the level of a jump is off: as far as the depth is, less what it was off already
      when the loop was opened. */
  function LevelOff(st: State, c: State, again: bool): int
    requires Twins(st, c) && InnermostLoop(st.scopes) > 0
  {
    var k := InnermostLoop(st.scopes) - 1;
    assert SameScope(st.scopes[k], c.scopes[k]);
    (st.depth - c.depth)
    - (if again then st.scopes[k].continueDepth - c.scopes[k].continueDepth else st.scopes[k].breakDepth - c.scopes[k].breakDepth)
  }

  /** In every state that words which break no tree lead to: the break that a BREAK or CONTINUE
      becomes has its level off by exactly that, so it lands on the innermost loop if and only
      if that is nothing. */
  lemma JumpIsOff(st: State, c: State, again: bool, path: seq<nat>, marks: seq<nat>) returns (j: Jump)
    requires Tracks(st, c, path, marks) && (|st.scopes| > 0 ==> !Opens(Top(st)))
    requires st.current < |st.blocks| && Exited(st, again).Some?
    ensures c.current < |c.blocks| && Exited(c, again).Some? && Lands(Exited(c, again).value.blocks, j)
    ensures InnermostLoop(st.scopes) > 0 && j.again == again && EndOf(j) == |st.blocks| + 1
    ensures var bs := Exited(st, again).value.blocks;
      && EndOf(j) < |bs| && bs[EndOf(j)].BBreak?
      && bs[EndOf(j)].level == Exited(c, again).value.blocks[EndOf(j)].level + LevelOff(st, c, again)
      && (Lands(bs, j) <==> LevelOff(st, c, again) == 0)
  {
    hide Lands, Shaped, LeavesNoCleanup, Opens, Exited, InRange, Twins;
    ShapedInRange(c, path, marks);
    SameLength(st, c);
    assert |c.scopes| > 0 ==> !Opens(Top(c)) by { if |c.scopes| > 0 { TopTwins(st, c); OpensTwins(Top(st), Top(c)); } }
    assert SameScopes(st.scopes, c.scopes) by { TwinScopes(st, c); }
    LoopTwins(st.scopes, c.scopes);
    ExitedNeeds(st, again);
    JumpRejected(c, again, path, marks);
    ExitedTwins(st, c, again);
    j := JumpLands(c, again, path, marks);
    LevelIsOff(st, c, again, j);
  }

  lemma LevelIsOff(st: State, c: State, again: bool, j: Jump)
    requires Twins(st, c) && st.current < |st.blocks| && c.current < |c.blocks| && Exited(st, again).Some? && Exited(c, again).Some?
    requires Twins(Exited(st, again).value, Exited(c, again).value)
    requires Lands(Exited(c, again).value.blocks, j) && EndOf(j) == |st.blocks| + 1 && InnermostLoop(st.scopes) > 0
    ensures var bs := Exited(st, again).value.blocks;
      && EndOf(j) < |bs| && bs[EndOf(j)].BBreak? && EndOf(j) < |Exited(c, again).value.blocks| && Exited(c, again).value.blocks[EndOf(j)].BBreak?
      && bs[EndOf(j)].level == Exited(c, again).value.blocks[EndOf(j)].level + LevelOff(st, c, again)
      && (Lands(bs, j) <==> LevelOff(st, c, again) == 0)
  {
    SameLength(st, c);
    assert SameScopes(st.scopes, c.scopes) by { TwinScopes(st, c); }
    LoopTwins(st.scopes, c.scopes);
    ExitedLevel(st, again);
    ExitedLevel(c, again);
    assert SameBlocks(Exited(st, again).value.blocks, Exited(c, again).value.blocks);
    hide Lands, Exited, Twins, SameScopes, LeavesNoCleanup;
    TwinLands(Exited(st, again).value.blocks, Exited(c, again).value.blocks, j);
  }

  lemma ExitedLevel(st: State, again: bool)
    requires st.current < |st.blocks| && Exited(st, again).Some?
    ensures var bs, n := Exited(st, again).value.blocks, InnermostLoop(st.scopes);
      && n > 0 && |bs| == |st.blocks| + 5
      && bs[|st.blocks| + 1] == BBreak(st.depth + 2 - (if again then st.scopes[n - 1].continueDepth else st.scopes[n - 1].breakDepth))
  {
    hide LeavesNoCleanup;
  }

  // ----- feeding -----

  lemma FeedNext(st: State, w: Token, ws: seq<Token>, next: State)
    requires InRange(st) && Step(st, w, 1) == Some(next)
    ensures InRange(next) && Feed(st, [w] + ws, 1) == Feed(next, ws, 1)
  {
    hide Step, InRange;
    StepInRange(st, w, 1);
    assert ([w] + ws)[1..] == ws;
  }

  const NOTHING: Block := BBasic(Range(0, 0))

  /** LOOP */
  function Looped(): State {
    State([BMany(3, 5), NOTHING, BMany(1, INVALID), NOTHING, BLoop(2), BChain(4, 7), NOTHING, BChain(6, INVALID)], [], [],
          [OpenScope(SCOPE_LOOP, SCOPE_BODY, 4, 2, 0, 6, 0, 2, 3, 0, false)], 1, 3)
  }

  lemma LoopIs()
    ensures InRange(START) && Step(START, WLoop, 1) == Some(Looped())
  {
    assert LoopBegun(START).value.blocks == Looped().blocks;
    assert START.scopes + [LoopScope(START)] == Looped().scopes;
  }

  /** The block array after a construct was wrapped around the body of the loop. */
  function Around(middle: Block): seq<Block> {
    Looped().blocks[1 := BMany(10, 12)] + [NOTHING, NOTHING, NOTHING, middle, BChain(11, 14), NOTHING, BChain(13, INVALID)]
  }

  /** ... and after its block `at` was wrapped around a variable. */
  function WithVar(middle: Block, at: nat): seq<Block> {
    Put(Around(middle), at, BMany(15, 17)) + [NOTHING, BVar(0, 18), BChain(16, INVALID), NOTHING]
  }

  // ----- a break that leaves too much -----

  function DeferScope(phase: Phase, delimiterDepth: nat): OpenScope {
    OpenScope(SCOPE_EPILOGUE, phase, 11, 8, 9, 13, 3, 0, 0, delimiterDepth, true)
  }

  /** LOOP DEFER ( VAR x ) BREAK AGAIN */
  function DeepWords(): seq<Token> { [WLoop] + ([WDefer] + ([WOpen] + ([WVar(0, "x")] + ([WClose] + ([WBreak] + ([WAgain] + [])))))) }

  function Deferring(vars: seq<Declared>, blocks: seq<Block>, phase: Phase, dd: nat, current: nat, depth: nat): State {
    State(blocks, [], vars, Looped().scopes + [DeferScope(phase, dd)], current, depth)
  }

  function DeepBlocks(): seq<Block> {
    WithVar(BDefer(8, 9), 9)[8 := BMany(19, 21)] + [NOTHING, BBreak(7), BChain(20, 23), NOTHING, BChain(22, INVALID)]
  }

  lemma DeferIs()
    requires InRange(Looped())
    ensures var s1 := Deferring([], Around(BDefer(8, 9)), SCOPE_CLEANUP_WAIT_OPEN, 0, 9, 5);
      var s2 := Deferring([], Around(BDefer(8, 9)), SCOPE_CLEANUP, 1, 9, 5);
      Step(Looped(), WDefer, 1) == Some(s1) && (InRange(s1) ==> Step(s1, WOpen, 1) == Some(s2))
  {
    assert EpilogueBegun(Looped(), true).value.blocks == Around(BDefer(8, 9));
    var s1 := Deferring([], Around(BDefer(8, 9)), SCOPE_CLEANUP_WAIT_OPEN, 0, 9, 5);
    assert s1.scopes[1 := DeferScope(SCOPE_CLEANUP, 1)] == Looped().scopes + [DeferScope(SCOPE_CLEANUP, 1)];
  }

  lemma DeferVarIs()
    ensures var x := [Declared(0, "x")];
      var s2 := Deferring([], Around(BDefer(8, 9)), SCOPE_CLEANUP, 1, 9, 5);
      var s3 := Deferring(x, WithVar(BDefer(8, 9), 9), SCOPE_CLEANUP, 1, 18, 7);
      var s4 := Deferring(x, WithVar(BDefer(8, 9), 9), SCOPE_BODY, 0, 8, 7);
      && (InRange(s2) ==> Step(s2, WVar(0, "x"), 1) == Some(s3)) && (InRange(s3) ==> Step(s3, WClose, 1) == Some(s4))
  {
    var x := [Declared(0, "x")];
    var s2 := Deferring([], Around(BDefer(8, 9)), SCOPE_CLEANUP, 1, 9, 5);
    var s3 := Deferring(x, WithVar(BDefer(8, 9), 9), SCOPE_CLEANUP, 1, 18, 7);
    assert VarAround(s2) == WithVar(BDefer(8, 9), 9) && [] + x == x;
    assert s3.scopes[1 := DeferScope(SCOPE_BODY, 0)] == Looped().scopes + [DeferScope(SCOPE_BODY, 0)];
    assert Begin(s3.blocks, 8, 0) == s3.blocks;
  }

  lemma DeferBreakIs()
    ensures var x := [Declared(0, "x")];
      var s4 := Deferring(x, WithVar(BDefer(8, 9), 9), SCOPE_BODY, 0, 8, 7);
      InRange(s4) ==> Step(s4, WBreak, 1) == Some(Deferring(x, DeepBlocks(), SCOPE_BODY, 0, 22, 8))
  {
    var s4 := Deferring([Declared(0, "x")], WithVar(BDefer(8, 9), 9), SCOPE_BODY, 0, 8, 7);
    assert s4.scopes[..1] == Looped().scopes && InnermostLoop(Looped().scopes) == 1 && InnermostLoop(s4.scopes) == 1;
    assert LeavesNoCleanup(s4.scopes, 1);
    assert WrapAround(s4, [], BBreak(7)) == DeepBlocks();
  }

  lemma DeferEndIs()
    ensures var x := [Declared(0, "x")];
      var s5 := Deferring(x, DeepBlocks(), SCOPE_BODY, 0, 22, 8);
      InRange(s5) ==> Step(s5, WAgain, 1) == Some(State(DeepBlocks(), [], x, [], 6, 1))
  {
    var s5 := Deferring([Declared(0, "x")], DeepBlocks(), SCOPE_BODY, 0, 22, 8);
    assert s5.scopes[..1] == Looped().scopes && Looped().scopes[..0] == [];
    assert Begin(DeepBlocks(), 13, 0) == DeepBlocks() && Begin(DeepBlocks(), 6, 0) == DeepBlocks();
    EndsInLoop(s5);
  }

  /** AGAIN, where only a prefix DEFER is open inside the loop and nothing has to be started. */
  lemma EndsInLoop(st: State)
    requires |st.scopes| == 2 && ImplicitBody(st.scopes[1]) && !ImplicitBody(st.scopes[0])
    ensures ImplicitEnded(st) == Ended(st)
  {
    assert Ended(st).scopes == st.scopes[..1];
    assert ImplicitEnded(Ended(st)) == Ended(st);
  }

  /** The way from the root to the break. */
  const DEEP_WAY: seq<nat> := [0, 4, 2, 1, 11, 8, 20]

  /** The frontend accepts the words. The break it makes of BREAK has level 7, where level 5
      lands on the loop, and there are 6 scopes around it. */
  lemma BreakLeavesTooMuch()
    ensures InRange(START) && Compiled(START, DeepWords(), 1).Some? && Compiled(START, DeepWords(), 1).value.blocks == DeepBlocks()
    ensures var bs := DeepBlocks();
      && Way(bs, DEEP_WAY) && bs[4].BLoop? && bs[20] == BBreak(7)
      && Depth(bs, DEEP_WAY[..6]) == 6 && Depth(bs, DEEP_WAY[..1]) == 1 && Target(bs, DEEP_WAY[..6], 5) == 4
  {
    DeepIsFed();
    DeepWay();
  }

  lemma DeepIsFed()
    ensures InRange(START) && Compiled(START, DeepWords(), 1) == Some(State(DeepBlocks(), [], [Declared(0, "x")], [], 6, 1))
  {
    LoopIs();
    hide Step, InRange, Looped, Around, WithVar, DeepBlocks, DeferScope, Deferring, Feed;
    var x := [Declared(0, "x")];
    var middle := BDefer(8, 9);
    var s1 := Deferring([], Around(middle), SCOPE_CLEANUP_WAIT_OPEN, 0, 9, 5);
    var s2 := Deferring([], Around(middle), SCOPE_CLEANUP, 1, 9, 5);
    var s3 := Deferring(x, WithVar(middle, 9), SCOPE_CLEANUP, 1, 18, 7);
    var s4 := Deferring(x, WithVar(middle, 9), SCOPE_BODY, 0, 8, 7);
    var s5 := Deferring(x, DeepBlocks(), SCOPE_BODY, 0, 22, 8);
    var s6 := State(DeepBlocks(), [], x, [], 6, 1);
    FeedNext(START, WLoop, [WDefer] + ([WOpen] + ([WVar(0, "x")] + ([WClose] + ([WBreak] + ([WAgain] + []))))), Looped());
    DeferIs();
    FeedNext(Looped(), WDefer, [WOpen] + ([WVar(0, "x")] + ([WClose] + ([WBreak] + ([WAgain] + [])))), s1);
    FeedNext(s1, WOpen, [WVar(0, "x")] + ([WClose] + ([WBreak] + ([WAgain] + []))), s2);
    DeferVarIs();
    FeedNext(s2, WVar(0, "x"), [WClose] + ([WBreak] + ([WAgain] + [])), s3);
    FeedNext(s3, WClose, [WBreak] + ([WAgain] + []), s4);
    DeferBreakIs();
    FeedNext(s4, WBreak, [WAgain] + [], s5);
    DeferEndIs();
    FeedNext(s5, WAgain, [], s6);
    assert Feed(s6, [], 1) == Some(s6) by { NothingFed(s6); }
  }

  lemma NothingFed(st: State)
    requires InRange(st)
    ensures Feed(st, [], 1) == Some(st)
  {
  }

  lemma DeepWay()
    ensures var bs := DeepBlocks();
      && Way(bs, DEEP_WAY) && bs[4].BLoop? && bs[20] == BBreak(7)
      && Depth(bs, DEEP_WAY[..6]) == 6 && Depth(bs, DEEP_WAY[..1]) == 1 && Target(bs, DEEP_WAY[..6], 5) == 4
  {
    DeepTable();
    hide DeepBlocks;
    var bs, w := DeepBlocks(), DEEP_WAY;
    assert Child(bs, 0, 4) && Child(bs, 4, 2) && Child(bs, 2, 1) && Child(bs, 1, 11) && Child(bs, 11, 8) && Child(bs, 8, 20);
    WayOfSeven(bs, w);
    hide Child;
    DepthOfSix(bs, w[..6]);
    assert w[..6][..1] == w[..1];
  }

  lemma DepthOfSix(bs: seq<Block>, w: seq<nat>)
    requires |w| == 6 && forall i :: 0 <= i < 6 ==> w[i] < |bs| && Counted(bs[w[i]])
    ensures Depth(bs, w) == 6 && Depth(bs, w[..1]) == 1 && Target(bs, w, 5) == w[1]
  {
    AllCounted(bs, w, 6);
    AllCounted(bs, w, 1);
    assert w[..6] == w;
    TargetIs(bs, w, 1);
  }

  lemma {:induction false} AllCounted(bs: seq<Block>, w: seq<nat>, n: nat)
    requires n <= |w| && forall i :: 0 <= i < |w| ==> w[i] < |bs| && Counted(bs[w[i]])
    ensures Depth(bs, w[..n]) == n
    decreases n
  {
    if n > 0 {
      assert w[..n] == w[..n - 1] + [w[n - 1]];
      DepthSnoc(bs, w[..n - 1], w[n - 1]);
      AllCounted(bs, w, n - 1);
    }
  }

  lemma WayOfSeven(bs: seq<Block>, w: seq<nat>)
    requires |w| == 7 && w[0] == 0 && Child(bs, w[0], w[1]) && Child(bs, w[1], w[2]) && Child(bs, w[2], w[3])
    requires Child(bs, w[3], w[4]) && Child(bs, w[4], w[5]) && Child(bs, w[5], w[6])
    ensures Way(bs, w)
  {
    hide Child;
    forall i | 0 <= i < |w| - 1 ensures Child(bs, w[i], w[i + 1]) {
      if i == 0 { } else if i == 1 { } else if i == 2 { } else if i == 3 { } else if i == 4 { } else { assert i == 5; }
    }
  }

  lemma DeepTable()
    ensures var bs := DeepBlocks();
      && |bs| == 24 && bs[0] == BMany(3, 5) && bs[5] == BChain(4, 7) && bs[4] == BLoop(2) && bs[2] == BMany(1, INVALID)
      && bs[1] == BMany(10, 12) && bs[12] == BChain(11, 14) && bs[11] == BDefer(8, 9) && bs[8] == BMany(19, 21)
      && bs[21] == BChain(20, 23) && bs[20] == BBreak(7)
  {
  }

  // ----- blocks that are no tree -----

  function IfScopeHere(phase: Phase, delimiterDepth: nat): OpenScope {
    OpenScope(SCOPE_IF, phase, 11, 8, 9, 13, 3, 0, 0, delimiterDepth, false)
  }

  /** LOOP IF ( VAR x x ) BREAK DONE AGAIN */
  function RoundWords(): seq<Token> {
    [WLoop] + ([WIf] + ([WOpen] + ([WVar(0, "x")] + ([WOp(PushVar(0))] + ([WClose] + ([WBreak] + ([WDone] + ([WAgain] + []))))))))
  }

  function Testing(ops: seq<Op>, vars: seq<Declared>, blocks: seq<Block>, phase: Phase, dd: nat, current: nat, depth: nat): State {
    State(blocks, ops, vars, Looped().scopes + [IfScopeHere(phase, dd)], current, depth)
  }

  const EMPTY_IF: Block := BBranch(Range(0, 0), 8, 9)
  const FULL_IF: Block := BBranch(Range(0, 1), 8, 9)
  const AFTER: Block := BBasic(Range(1, 0))

  /** After the closing parenthesis: the first child of the arm is overwritten. */
  function Closed(): seq<Block> { WithVar(EMPTY_IF, 8)[11 := FULL_IF][8 := BMany(1, 17)] }

  function Jumped(): (bs: seq<Block>)
    ensures |bs| == 24
  {
    Closed()[8 := BMany(19, 21)] + [BMany(1, 17), BBreak(6), BChain(20, 23), AFTER, BChain(22, INVALID)]
  }

  function RoundBlocks(): seq<Block> { Jumped()[9 := AFTER][13 := AFTER][6 := AFTER] }

  lemma IfIs()
    requires InRange(Looped())
    ensures var s1 := Testing([], [], Around(EMPTY_IF), SCOPE_WAIT_OPEN, 0, 8, 4);
      var s2 := Testing([], [], Around(EMPTY_IF), SCOPE_CONDITION, 1, 8, 4);
      Step(Looped(), WIf, 1) == Some(s1) && (InRange(s1) ==> Step(s1, WOpen, 1) == Some(s2))
  {
    assert IfBegun(Looped()).value.blocks == Around(EMPTY_IF);
    var s1 := Testing([], [], Around(EMPTY_IF), SCOPE_WAIT_OPEN, 0, 8, 4);
    assert s1.scopes[1 := IfScopeHere(SCOPE_CONDITION, 1)] == Looped().scopes + [IfScopeHere(SCOPE_CONDITION, 1)];
  }

  lemma IfVarIs()
    ensures var x, ops := [Declared(0, "x")], [PushVar(0)];
      var s2 := Testing([], [], Around(EMPTY_IF), SCOPE_CONDITION, 1, 8, 4);
      var s3 := Testing([], x, WithVar(EMPTY_IF, 8), SCOPE_CONDITION, 1, 18, 6);
      var s4 := Testing(ops, x, WithVar(EMPTY_IF, 8), SCOPE_CONDITION, 1, 18, 6);
      && (InRange(s2) ==> Step(s2, WVar(0, "x"), 1) == Some(s3)) && (InRange(s3) ==> Step(s3, WOp(PushVar(0)), 1) == Some(s4))
  {
    var s2 := Testing([], [], Around(EMPTY_IF), SCOPE_CONDITION, 1, 8, 4);
    assert VarAround(s2) == WithVar(EMPTY_IF, 8) && [] + [Declared(0, "x")] == [Declared(0, "x")];
    assert [] + [PushVar(0)] == [PushVar(0)];
  }

  lemma IfCloseIs()
    ensures var x, ops := [Declared(0, "x")], [PushVar(0)];
      var s4 := Testing(ops, x, WithVar(EMPTY_IF, 8), SCOPE_CONDITION, 1, 18, 6);
      InRange(s4) ==> Step(s4, WClose, 1) == Some(Testing(ops, x, Closed(), SCOPE_BODY, 0, 8, 6))
  {
    var x, ops := [Declared(0, "x")], [PushVar(0)];
    var s4 := Testing(ops, x, WithVar(EMPTY_IF, 8), SCOPE_CONDITION, 1, 18, 6);
    assert s4.scopes[1 := IfScopeHere(SCOPE_BODY, 0)] == Looped().scopes + [IfScopeHere(SCOPE_BODY, 0)];
    assert s4.blocks[11] == EMPTY_IF && s4.blocks[8] == BMany(15, 17);
    assert Begin(Put(s4.blocks, 11, FULL_IF), 8, 1) == Closed();
  }

  lemma IfBreakIs()
    ensures var x, ops := [Declared(0, "x")], [PushVar(0)];
      var s5 := Testing(ops, x, Closed(), SCOPE_BODY, 0, 8, 6);
      InRange(s5) ==> Step(s5, WBreak, 1) == Some(Testing(ops, x, Jumped(), SCOPE_BODY, 0, 22, 7))
  {
    var x, ops := [Declared(0, "x")], [PushVar(0)];
    var s5 := Testing(ops, x, Closed(), SCOPE_BODY, 0, 8, 6);
    assert s5.scopes[..1] == Looped().scopes && InnermostLoop(Looped().scopes) == 1 && InnermostLoop(s5.scopes) == 1;
    assert LeavesNoCleanup(s5.scopes, 1);
    assert s5.blocks[8] == BMany(1, 17);
    assert WrapAround(s5, [], BBreak(6)) == Jumped();
  }

  lemma IfEndIs()
    ensures var x, ops := [Declared(0, "x")], [PushVar(0)];
      var s6 := Testing(ops, x, Jumped(), SCOPE_BODY, 0, 22, 7);
      var s7 := State(Jumped()[9 := AFTER][13 := AFTER], ops, x, Looped().scopes, 13, 4);
      && (InRange(s6) ==> Step(s6, WDone, 1) == Some(s7))
      && (InRange(s7) ==> Step(s7, WAgain, 1) == Some(State(RoundBlocks(), ops, x, [], 6, 1)))
  {
    var x, ops := [Declared(0, "x")], [PushVar(0)];
    var s6 := Testing(ops, x, Jumped(), SCOPE_BODY, 0, 22, 7);
    assert s6.scopes[..1] == Looped().scopes && Looped().scopes[..0] == [];
    assert Jumped()[9] == NOTHING && Jumped()[13] == NOTHING && Jumped()[6] == NOTHING;
    assert Begin(Begin(Jumped(), 9, 1), 13, 1) == Jumped()[9 := AFTER][13 := AFTER];
    assert Begin(Jumped()[9 := AFTER][13 := AFTER], 6, 1) == RoundBlocks();
  }

  lemma RoundIsFed()
    ensures InRange(START)
    ensures Compiled(START, RoundWords(), 1) == Some(State(RoundBlocks(), [PushVar(0)], [Declared(0, "x")], [], 6, 1))
  {
    LoopIs();
    hide Step, InRange, Looped, Around, WithVar, Closed, Jumped, RoundBlocks, IfScopeHere, Testing, Feed;
    var x, ops := [Declared(0, "x")], [PushVar(0)];
    var s1 := Testing([], [], Around(EMPTY_IF), SCOPE_WAIT_OPEN, 0, 8, 4);
    var s2 := Testing([], [], Around(EMPTY_IF), SCOPE_CONDITION, 1, 8, 4);
    var s3 := Testing([], x, WithVar(EMPTY_IF, 8), SCOPE_CONDITION, 1, 18, 6);
    var s4 := Testing(ops, x, WithVar(EMPTY_IF, 8), SCOPE_CONDITION, 1, 18, 6);
    var s5 := Testing(ops, x, Closed(), SCOPE_BODY, 0, 8, 6);
    var s6 := Testing(ops, x, Jumped(), SCOPE_BODY, 0, 22, 7);
    var s7 := State(Jumped()[9 := AFTER][13 := AFTER], ops, x, Looped().scopes, 13, 4);
    var s8 := State(RoundBlocks(), ops, x, [], 6, 1);
    FeedNext(START, WLoop, [WIf] + ([WOpen] + ([WVar(0, "x")] + ([WOp(PushVar(0))] + ([WClose] + ([WBreak] + ([WDone] + ([WAgain] + []))))))), Looped());
    IfIs();
    FeedNext(Looped(), WIf, [WOpen] + ([WVar(0, "x")] + ([WOp(PushVar(0))] + ([WClose] + ([WBreak] + ([WDone] + ([WAgain] + [])))))), s1);
    FeedNext(s1, WOpen, [WVar(0, "x")] + ([WOp(PushVar(0))] + ([WClose] + ([WBreak] + ([WDone] + ([WAgain] + []))))), s2);
    IfVarIs();
    FeedNext(s2, WVar(0, "x"), [WOp(PushVar(0))] + ([WClose] + ([WBreak] + ([WDone] + ([WAgain] + [])))), s3);
    FeedNext(s3, WOp(PushVar(0)), [WClose] + ([WBreak] + ([WDone] + ([WAgain] + []))), s4);
    IfCloseIs();
    FeedNext(s4, WClose, [WBreak] + ([WDone] + ([WAgain] + [])), s5);
    IfBreakIs();
    FeedNext(s5, WBreak, [WDone] + ([WAgain] + []), s6);
    IfEndIs();
    FeedNext(s6, WDone, [WAgain] + [], s7);
    FeedNext(s7, WAgain, [], s8);
    assert Feed(s8, [], 1) == Some(s8) by { NothingFed(s8); }
  }

  lemma RoundTable()
    ensures var bs := RoundBlocks();
      && |bs| == 24 && bs[0] == BMany(3, 5) && bs[5] == BChain(4, 7) && bs[4] == BLoop(2) && bs[2] == BMany(1, INVALID)
      && bs[1] == BMany(10, 12) && bs[12] == BChain(11, 14) && bs[11] == FULL_IF && bs[8] == BMany(19, 21) && bs[19] == BMany(1, 17)
  {
  }

  /** Following the references from the root comes back to block 1. */
  const ROUND: seq<nat> := [0, 5, 4, 2, 1, 12, 11, 8, 19, 1]

  /** No tree can be unfolded from block 1: it would be its own part. */
  lemma {:induction false} NoTreeAtOne(ops: seq<Op>, t: Tree)
    ensures !Rep(RoundBlocks(), ops, 1, t)
    decreases Size(t)
  {
    RoundTable();
    hide RoundBlocks;
    var bs := RoundBlocks();
    if Rep(bs, ops, 1, t) {
      assert RepKids(bs, ops, 10, 12, t.kids) && RepRest(bs, ops, 12, t.kids.rest);
      assert RepKids(bs, ops, 11, 14, t.kids.rest);
      var branch := t.kids.rest.cur;
      assert Rep(bs, ops, 11, branch) && Rep(bs, ops, 8, branch.yes);
      assert RepKids(bs, ops, 19, 21, branch.yes.kids);
      var inner := branch.yes.kids.cur;
      assert Rep(bs, ops, 19, inner) && RepKids(bs, ops, 1, 17, inner.kids);
      assert Size(inner.kids.cur) < ChainSize(inner.kids) < Size(inner) < ChainSize(branch.yes.kids) < Size(branch.yes) < Size(branch);
      assert Size(branch) < ChainSize(t.kids.rest) < ChainSize(t.kids) < Size(t);
      NoTreeAtOne(ops, inner.kids.cur);
    }
  }

  lemma NoTreeAtRoot(ops: seq<Op>, t: Tree)
    ensures !Rep(RoundBlocks(), ops, 0, t)
  {
    RoundTable();
    hide RoundBlocks;
    var bs := RoundBlocks();
    if Rep(bs, ops, 0, t) {
      assert RepKids(bs, ops, 3, 5, t.kids) && RepRest(bs, ops, 5, t.kids.rest);
      assert RepKids(bs, ops, 4, 7, t.kids.rest);
      var loop := t.kids.rest.cur;
      assert Rep(bs, ops, 4, loop) && Rep(bs, ops, 2, loop.body);
      assert RepKids(bs, ops, 1, INVALID, loop.body.kids);
      NoTreeAtOne(ops, loop.body.kids.cur);
    }
  }

  /** The frontend accepts the words, but the blocks it builds refer back to one another, so
      they are no tree, and no tree unfolds from them: a pass over it does not come to an end. */
  lemma ConditionMakesCycle(t: Tree)
    ensures InRange(START) && Compiled(START, RoundWords(), 1).Some?
    ensures var last := Compiled(START, RoundWords(), 1).value;
      && Steps(last.blocks, ROUND) && ROUND[4] == ROUND[9] && !IsTree(last.blocks) && !Rep(last.blocks, last.ops, 0, t)
  {
    RoundIsFed();
    hide RoundBlocks, IsTree, Steps, Rep, Compiled;
    var bs := RoundBlocks();
    RoundSteps();
    NoTreeAtRoot([PushVar(0)], t);
    if IsTree(bs) {
      OneParentIs(bs);
      NoCycle(bs, ROUND, 4, 9);
    }
  }

  lemma RoundSteps()
    ensures Steps(RoundBlocks(), ROUND)
  {
    RoundTable();
    hide RoundBlocks, Refs;
    var bs, p := RoundBlocks(), ROUND;
    RefsOf(bs[0]);
    RefsOf(bs[5]);
    RefsOf(bs[4]);
    RefsOf(bs[2]);
    RefsOf(bs[1]);
    RefsOf(bs[12]);
    RefsOf(bs[11]);
    RefsOf(bs[8]);
    RefsOf(bs[19]);
    forall i | 0 <= i < |p| - 1 ensures p[i] < |bs| && p[i + 1] in Refs(bs[p[i]]) {
      if i == 0 { } else if i == 1 { } else if i == 2 { } else if i == 3 { } else if i == 4 { }
      else if i == 5 { } else if i == 6 { } else if i == 7 { } else { assert i == 8; }
    }
  }

  lemma RefsOf(b: Block)
    ensures b.BMany? || b.BChain? ==> (b.cur != INVALID ==> b.cur in Refs(b)) && (b.next != INVALID ==> b.next in Refs(b))
    ensures b.BLoop? && b.body != INVALID ==> b.body in Refs(b)
    ensures b.BBranch? && b.yes != INVALID ==> b.yes in Refs(b)
  {
  }
}
