/** Where the breaks go that BREAK and CONTINUE become. */
module FrontendJumps {
  import opened Memory
  import opened Ir
  import opened FlatBlocks
  import opened FrontendState
  import opened FrontendSteps
  import opened FrontendProof
  import opened FrontendCovers

  /** A break that was built: the way to it, where on the way its loop stands, and whether
      it will run every cleanup that it leaves. */
  datatype Jump = Jump(again: bool, covers: bool, way: seq<nat>, loop: nat)

  /** The break at the end of the way leaves exactly the innermost loop around it, or for
      CONTINUE exactly that loop's body sequence, and it stands in no cleanup that it leaves.
      The verdict about its cleanups is right. */
  predicate Lands(bs: seq<Block>, j: Jump) {
    && Way(bs, j.way) && j.loop + 2 < |j.way| && j.way[|j.way| - 1] < |bs| && bs[j.way[|j.way| - 1]].BBreak?
    && j.way[j.loop] < |bs| && bs[j.way[j.loop]] == BLoop(j.way[j.loop + 1])
    && j.way[j.loop + 1] < |bs| && bs[j.way[j.loop + 1]].BMany?
    && bs[j.way[|j.way| - 1]].level
       == Depth(bs, j.way[..|j.way| - 1]) - Depth(bs, j.way[..if j.again then j.loop + 1 else j.loop]) > 0
    && Target(bs, j.way[..|j.way| - 1], bs[j.way[|j.way| - 1]].level) == j.way[if j.again then j.loop + 1 else j.loop]
    && (j.covers <==> WayCovers(bs, j.way, if j.again then j.loop + 1 else j.loop))
    && forall i :: j.loop < i < |j.way| - 1 && j.way[i] < |bs| ==> Between(bs[j.way[i]], j.way[i + 1])
  }

  /** Neither an inner loop nor the cleanup of a DEFER. */
  predicate Between(b: Block, next: nat) {
    !b.BLoop? && (b.BDefer? ==> b.next == next && b.cleanup != next)
  }

  lemma {:induction false} TargetStays(bs: seq<Block>, cs: seq<Block>, path: seq<nat>, n: nat, level: nat)
    requires Grown(bs, cs) && Way(bs, path) && n < |path|
    ensures Target(cs, path[..n], level) == Target(bs, path[..n], level)
    decreases n
  {
    if n > 0 {
      assert path[..n][..n - 1] == path[..n - 1];
      TargetStays(bs, cs, path, n - 1, level);
      if level > 1 { TargetStays(bs, cs, path, n - 1, level - 1); }
      assert Child(bs, path[n - 1], path[n]);
    }
  }

  /** What is built later does not move where a break goes. */
  lemma LandsStays(bs: seq<Block>, cs: seq<Block>, j: Jump)
    requires Grown(bs, cs) && Lands(bs, j)
    ensures Lands(cs, j)
  {
    hide Target, Child, Grown, Way, Depth, WayCovers;
    var n: nat := |j.way| - 1;
    WayStays(bs, cs, j.way);
    DepthStays(bs, cs, j.way, n);
    DepthStays(bs, cs, j.way, if j.again then j.loop + 1 else j.loop);
    WayCoversStays(bs, cs, j.way, if j.again then j.loop + 1 else j.loop);
    TargetStays(bs, cs, j.way, n, bs[j.way[n]].level);
    LinksStay(bs, cs);
    forall i | j.loop < i < |j.way| - 1 && j.way[i] < |cs| ensures Between(cs[j.way[i]], j.way[i + 1]) {
      WayGoesOn(bs, j.way, i);
    }
  }

  lemma NothingBetween(st: State, path: seq<nat>, marks: seq<nat>, k: nat, i: nat)
    requires Sane(st, path, marks) && (|st.scopes| > 0 ==> !Opens(Top(st)))
    requires k < |marks| && marks[k] + 1 < i < |path| - 1 && path[i] < |st.blocks|
    requires LeavesNoCleanup(st.scopes, k + 1) && forall x :: k < x < |st.scopes| ==> !st.scopes[x].kind.SCOPE_LOOP?
    ensures Between(st.blocks[path[i]], path[i + 1])
  {
    hide Ok, Framed;
    if st.blocks[path[i]].BLoop? || st.blocks[path[i]].BDefer? {
      var inner := InnerScope(st, path, marks, k, i);
      assert |marks| == |st.scopes| by { SaneParts(st, path, marks); }
    }
  }

  lemma LoopScopeFacts(st: State, path: seq<nat>, marks: seq<nat>, k: nat, m: nat)
    requires Sane(st, path, marks) && k < |marks| && m == marks[k] && st.scopes[k].kind.SCOPE_LOOP?
    ensures m + 2 < |path| && path[m] < |st.blocks| && path[m + 1] < |st.blocks| && path[m + 2] < |st.blocks|
    ensures st.blocks[path[m]].BMany? && st.blocks[path[m + 1]] == BLoop(path[m + 2]) && st.blocks[path[m + 2]].BMany?
    ensures st.scopes[k].breakDepth == Depth(st.blocks, path[..m]) + 2 && st.scopes[k].continueDepth == Depth(st.blocks, path[..m]) + 3
    ensures m + 2 < |path| - 1 && Way(st.blocks, path) && st.depth == Depth(st.blocks, path)
  {
    hide Framed, Settled, Free, Alone, Apart, Child, Depth, Way;
    assert ScopeOk(st.blocks, path, m, st.scopes[k]);
  }

  /** The loop scope k, and how deep its LOOP and its body sequence are. */
  lemma LoopDepths(st: State, bs1: seq<Block>, path: seq<nat>, marks: seq<nat>, k: nat, m: nat)
    requires Sane(st, path, marks) && k < |marks| && m == marks[k] && st.scopes[k].kind.SCOPE_LOOP? && Grown(st.blocks, bs1)
    ensures m + 3 < |path| && path[m + 1] < |bs1| && path[m + 2] < |bs1|
    ensures bs1[path[m + 1]] == BLoop(path[m + 2]) && bs1[path[m + 2]].BMany?
    ensures Depth(bs1, path[..m + 1]) + 1 == st.scopes[k].breakDepth && Depth(bs1, path[..m + 2]) + 1 == st.scopes[k].continueDepth
    ensures st.scopes[k].continueDepth <= st.depth + 1 && st.scopes[k].breakDepth <= st.depth + 1
  {
    hide Sane, Way, Depth, Target, Grown;
    LoopScopeFacts(st, path, marks, k, m);
    var bs := st.blocks;
    DepthStays(bs, bs1, path, m + 1);
    DepthStays(bs, bs1, path, m + 2);
    assert path[..m + 1] == path[..m] + [path[m]] && path[..m + 2] == path[..m + 1] + [path[m + 1]];
    DepthSnoc(bs, path[..m], path[m]);
    DepthSnoc(bs, path[..m + 1], path[m + 1]);
    TargetIs(bs, path, m + 2);
    LinksStay(bs, bs1);
  }

  /** BREAK and CONTINUE are rejected exactly when there is no loop to leave, when they
      would leave a cleanup, or when the block array is full. */
  lemma JumpRejected(st: State, again: bool, path: seq<nat>, marks: seq<nat>)
    requires Sane(st, path, marks) && st.current < |st.blocks|
    ensures var n := InnermostLoop(st.scopes);
      Exited(st, again).Some? <==> n > 0 && LeavesNoCleanup(st.scopes, n) && |st.blocks| + 5 < INVALID
  {
    hide Sane, LeavesNoCleanup, Grown, Exited, ScopesOk, Way, Depth, Target;
    var k := InnermostLoop(st.scopes);
    SaneParts(st, path, marks);
    SameGrown(st.blocks);
    if k > 0 { LoopDepths(st, st.blocks, path, marks, k - 1, marks[k - 1]); }
    ExitedIff(st, again);
  }

  /** Otherwise the break they become lands on the innermost loop or on its body sequence. */
  lemma JumpLands(st: State, again: bool, path: seq<nat>, marks: seq<nat>) returns (j: Jump)
    requires Sane(st, path, marks) && (|st.scopes| > 0 ==> !Opens(Top(st))) && st.current < |st.blocks|
    requires Exited(st, again).Some?
    ensures Sane(Exited(st, again).value, path + [|st.blocks| + 3], marks)
    ensures Lands(Exited(st, again).value.blocks, j) && j.again == again && j.covers == ScopesCover(st.scopes, again) && j.way == path + [|st.blocks| + 1]
  {
    hide Sane, Opens, LeavesNoCleanup, Grown, Lands, Exited, ScopesOk, Way, Depth, Target, ScopesCover;
    var k := InnermostLoop(st.scopes);
    SaneParts(st, path, marks);
    JumpRejected(st, again, path, marks);
    var m := marks[k - 1];
    j := Jump(again, ScopesCover(st.scopes, again), path + [|st.blocks| + 1], m + 1);
    JumpBuilt(st, Exited(st, again).value, again, path, marks, k - 1, m, |st.blocks|, path + [|st.blocks| + 3], j);
  }

  lemma ExitedIff(st: State, again: bool)
    requires st.current < |st.blocks|
    requires var n := InnermostLoop(st.scopes);
      n > 0 ==> st.scopes[n - 1].continueDepth <= st.depth + 1 && st.scopes[n - 1].breakDepth <= st.depth + 1
    ensures var n := InnermostLoop(st.scopes);
      Exited(st, again).Some? <==> n > 0 && LeavesNoCleanup(st.scopes, n) && |st.blocks| + 5 < INVALID
  {
    hide LeavesNoCleanup, Wrapped;
  }

  lemma JumpBuilt(st: State, st1: State, again: bool, path: seq<nat>, marks: seq<nat>, k: nat, m: nat, n: nat, next: seq<nat>, j: Jump)
    requires Sane(st, path, marks) && (|st.scopes| > 0 ==> !Opens(Top(st))) && st.current < |st.blocks| && Exited(st, again) == Some(st1)
    requires k < |marks| && m == marks[k] && InnermostLoop(st.scopes) == k + 1
    requires n == |st.blocks| && next == path + [n + 3] && j.again == again && j.covers == ScopesCover(st.scopes, again)
    requires j.way == path + [n + 1] && j.loop == m + 1
    ensures Sane(st1, next, marks) && Lands(st1.blocks, j)
  {
    hide Sane, Opens, Depth, Target, LeavesNoCleanup, Grown, Between, Way, Wrapped, WayCovers, ScopesCover;
    var level: nat := st.depth + 2 - (if again then st.scopes[k].continueDepth else st.scopes[k].breakDepth);
    JumpKeeps(st, st1, path, marks, level);
    LoopDepths(st, st1.blocks, path, marks, k, m);
    JumpTarget(st, st1.blocks, path, marks, k, m, again);
    SaneCurrent(st, path, marks);
    SlotIsMany(st, BBreak(level));
    JumpFrames(st, st1.blocks, path, marks, k, m);
    CoversAlike(st, st1.blocks, again, path, marks, m, j.way);
    assert j.way[..|j.way| - 1] == path && j.way[..m + 1] == path[..m + 1] && j.way[..m + 2] == path[..m + 2];
    assert j.way[m + 1] == path[m + 1] && j.way[m + 2] == path[m + 2];
  }

  lemma SlotIsMany(st: State, middle: Block)
    requires st.current < |st.blocks|
    ensures WrapAround(st, [], middle)[st.current].BMany?
  {
  }

  lemma SameGrown(bs: seq<Block>)
    ensures Grown(bs, bs)
  {
  }

  lemma JumpKeeps(st: State, st1: State, path: seq<nat>, marks: seq<nat>, level: nat)
    requires Sane(st, path, marks) && |st.blocks| + 5 < INVALID
    requires st1 == st.(blocks := WrapAround(st, [], BBreak(level)), current := |st.blocks| + 3, depth := st.depth + 1)
    ensures Sane(st1, path + [|st.blocks| + 3], marks)
    ensures Way(st1.blocks, path + [|st.blocks| + 1]) && st1.blocks[|st.blocks| + 1] == BBreak(level)
    ensures Grown(st.blocks, st1.blocks) && Depth(st1.blocks, path) == st.depth + 1
  {
    hide Framed, Settled, Depth, ScopesOk;
    var n := |st.blocks|;
    assert st.blocks + [] == st.blocks;
    WrappedWay(st.blocks, [], path, st.current, BBreak(level), |st.ops|);
    WaySnoc(st1.blocks, path, n + 1);
    WaySnoc(st1.blocks, path, n + 3);
    DepthSnoc(st1.blocks, path, n + 3);
    ExtendedKeeps(st, st1, path, marks, path + [n + 3]);
  }

  lemma JumpTarget(st: State, bs1: seq<Block>, path: seq<nat>, marks: seq<nat>, k: nat, m: nat, again: bool)
    requires Sane(st, path, marks) && k < |marks| && m == marks[k] && st.scopes[k].kind.SCOPE_LOOP? && Grown(st.blocks, bs1)
    requires Depth(bs1, path) == st.depth + 1
    ensures m + 3 < |path|
    ensures var target := if again then st.scopes[k].continueDepth else st.scopes[k].breakDepth;
      && target <= st.depth + 1 && Target(bs1, path, st.depth + 2 - target) == path[if again then m + 2 else m + 1]
      && st.depth + 2 - target == Depth(bs1, path) - Depth(bs1, path[..if again then m + 2 else m + 1])
  {
    hide Sane, Depth, Target, Grown;
    LoopDepths(st, bs1, path, marks, k, m);
    TargetIs(bs1, path, if again then m + 2 else m + 1);
  }

  lemma JumpFrames(st: State, bs1: seq<Block>, path: seq<nat>, marks: seq<nat>, k: nat, m: nat)
    requires Sane(st, path, marks) && (|st.scopes| > 0 ==> !Opens(Top(st))) && k < |marks| && m == marks[k]
    requires LeavesNoCleanup(st.scopes, k + 1) && forall x :: k < x < |st.scopes| ==> !st.scopes[x].kind.SCOPE_LOOP?
    requires Grown(st.blocks, bs1) && st.current < |bs1| && bs1[st.current].BMany?
    ensures forall way: seq<nat>, i :: |way| == |path| + 1 && path <= way && m + 1 < i < |path| && way[i] < |bs1| ==> Between(bs1[way[i]], way[i + 1])
  {
    hide Framed, Settled, ScopesOk, Opens, Grown, Depth, LeavesNoCleanup, Way;
    LinksStay(st.blocks, bs1);
    forall way: seq<nat>, i | |way| == |path| + 1 && path <= way && m + 1 < i < |path| && way[i] < |bs1|
      ensures Between(bs1[way[i]], way[i + 1])
    {
      assert way[i] == path[i];
      if i < |path| - 1 {
        WayGoesOn(st.blocks, path, i);
        NothingBetween(st, path, marks, k, i);
      }
    }
  }
}
