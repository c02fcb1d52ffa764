/** Whether a BREAK or CONTINUE will run every cleanup it leaves, told from the constructs
    that are open around it and from the way to its block. */
module FrontendCovers {
  import opened Memory
  import opened Ir
  import opened FlatBlocks
  import opened FrontendState
  import opened FrontendSteps
  import opened FrontendProof

  // ----- told from the way -----

  /** The first DEFER on the way from p on; n when there is none before n. */
  function FirstDefer(bs: seq<Block>, w: seq<nat>, p: nat, n: nat): (d: nat)
    requires p <= n <= |w|
    ensures p <= d <= n
    decreases n
  {
    if p == n then n else
    var d := FirstDefer(bs, w, p, n - 1);
    if d < n - 1 then d else if w[n - 1] < |bs| && bs[w[n - 1]].BDefer? then n - 1 else n
  }

  function BranchesOn(bs: seq<Block>, w: seq<nat>, d: nat, n: nat): nat
    requires d <= n <= |w|
    decreases n
  {
    if d == n then 0 else BranchesOn(bs, w, d, n - 1) + (if w[n - 1] < |bs| && bs[w[n - 1]].BBranch? then 1 else 0)
  }

  /** The block at p is the target of a break at the end of the way: it is reached with all
      cleanups when the branches since the outermost DEFER are fewer than the levels from
      the target to that DEFER. */
  predicate WayCovers(bs: seq<Block>, w: seq<nat>, p: nat)
    requires p < |w|
  {
    var n: nat := |w| - 1;
    var d := FirstDefer(bs, w, p, n);
    d == n || BranchesOn(bs, w, d, n) + 1 <= Depth(bs, w[..d]) - Depth(bs, w[..p])
  }

  lemma {:induction false} BranchesPrefix(bs: seq<Block>, v: seq<nat>, w: seq<nat>, d: nat, n: nat)
    requires d <= n <= |v| <= |w| && forall i :: 0 <= i < |v| ==> w[i] == v[i]
    ensures BranchesOn(bs, v, d, n) == BranchesOn(bs, w, d, n) && FirstDefer(bs, v, d, n) == FirstDefer(bs, w, d, n)
    decreases n
  {
    if d < n { BranchesPrefix(bs, v, w, d, n - 1); }
  }

  lemma {:induction false} KindsStay(bs: seq<Block>, cs: seq<Block>, w: seq<nat>, d: nat, n: nat)
    requires Grown(bs, cs) && Way(bs, w) && d <= n < |w|
    ensures BranchesOn(cs, w, d, n) == BranchesOn(bs, w, d, n) && FirstDefer(cs, w, d, n) == FirstDefer(bs, w, d, n)
    decreases n
  {
    hide Grown, Way;
    if d < n {
      KindsStay(bs, cs, w, d, n - 1);
      WayGoesOn(bs, w, n - 1);
      LinksStay(bs, cs);
    }
  }

  lemma LinksStay(bs: seq<Block>, cs: seq<Block>)
    requires Grown(bs, cs)
    ensures |bs| <= |cs| && forall i :: 0 <= i < |bs| && !bs[i].BBasic? ==> SameLinks(bs[i], cs[i])
  {
  }

  lemma WayCoversStays(bs: seq<Block>, cs: seq<Block>, w: seq<nat>, p: nat)
    requires Grown(bs, cs) && Way(bs, w) && p < |w|
    ensures WayCovers(cs, w, p) <==> WayCovers(bs, w, p)
  {
    hide Grown, Way, Depth;
    var n: nat := |w| - 1;
    var d := FirstDefer(bs, w, p, n);
    KindsStay(bs, cs, w, p, n);
    KindsStay(bs, cs, w, d, n);
    DepthStays(bs, cs, w, d);
    DepthStays(bs, cs, w, p);
  }

  // ----- told from the scopes -----

  /** The outermost epilogue inside of the first n scopes; |scopes| when there is none. */
  function OutermostEpilogue(scopes: seq<OpenScope>, n: nat): (e: nat)
    requires n <= |scopes|
    ensures n <= e <= |scopes| && (e < |scopes| ==> scopes[e].kind.SCOPE_EPILOGUE?)
    ensures forall k :: n <= k < e ==> !scopes[k].kind.SCOPE_EPILOGUE?
    decreases |scopes| - n
  {
    if n == |scopes| || scopes[n].kind.SCOPE_EPILOGUE? then n else OutermostEpilogue(scopes, n + 1)
  }

  function IfsFrom(scopes: seq<OpenScope>, k: nat): nat
    requires k <= |scopes|
    decreases |scopes| - k
  {
    if k == |scopes| then 0 else (if scopes[k].kind.SCOPE_IF? then 1 else 0) + IfsFrom(scopes, k + 1)
  }

  /** The IFs that are open inside of the outermost epilogue to be left are fewer than the
      levels between that epilogue and the target. */
  predicate ScopesCover(scopes: seq<OpenScope>, again: bool) {
    var n := InnermostLoop(scopes);
    n > 0 ==>
      var e := OutermostEpilogue(scopes, n);
      var target := if again then scopes[n - 1].continueDepth else scopes[n - 1].breakDepth;
      e == |scopes| || IfsFrom(scopes, e) + 1 <= scopes[e].parentDepth + 2 - target
  }

  // ----- both say the same -----

  /** An inner LOOP, BRANCH or DEFER on the way belongs to an inner scope. */
  lemma InnerScope(st: State, path: seq<nat>, marks: seq<nat>, k: nat, i: nat) returns (inner: nat)
    requires Sane(st, path, marks) && k < |marks| && marks[k] + 1 < i < |path| && path[i] < |st.blocks|
    requires Scoped(st.blocks[path[i]])
    ensures k < inner < |marks| && marks[inner] == i - 1 && ScopeOk(st.blocks, path, marks[inner], st.scopes[inner])
  {
    hide ScopeOk, Way, Depth, Free, Alone, Apart, Settled;
    inner :| 0 <= inner < |marks| && marks[inner] == i - 1;
  }

  /** The block that scope k stands for. */
  lemma KindOnWay(st: State, bs1: seq<Block>, path: seq<nat>, marks: seq<nat>, k: nat)
    requires Sane(st, path, marks) && k < |marks| && Grown(st.blocks, bs1)
    ensures k < |st.scopes| && marks[k] + 2 < |path| && path[marks[k] + 1] < |bs1|
    ensures bs1[path[marks[k] + 1]].BBranch? <==> st.scopes[k].kind.SCOPE_IF?
    ensures bs1[path[marks[k] + 1]].BDefer? <==> st.scopes[k].kind.SCOPE_EPILOGUE?
    ensures st.scopes[k].parentDepth == Depth(st.blocks, path[..marks[k]])
    ensures path[marks[k]] < |st.blocks| && st.blocks[path[marks[k]]].BMany?
    ensures forall j :: 0 <= j < k ==> marks[j] + 2 <= marks[k]
  {
    hide Way, Depth, Child, Settled, Framed, Free, Alone, Apart;
    assert ScopeOk(st.blocks, path, marks[k], st.scopes[k]);
  }

  lemma MarksGrow(st: State, path: seq<nat>, marks: seq<nat>)
    requires Sane(st, path, marks)
    ensures forall j, k :: 0 <= j < k < |marks| ==> marks[j] + 2 <= marks[k]
  {
    hide Way, Depth, Settled, Framed, Free, Alone, Apart, ScopeOk;
  }

  /** Between the blocks of scopes k and k + 1 there are no others. */
  lemma GapOnWay(st: State, bs1: seq<Block>, path: seq<nat>, marks: seq<nat>, k: nat, i: nat)
    requires Sane(st, path, marks) && k < |marks| && Grown(st.blocks, bs1) && st.current < |bs1| && bs1[st.current].BMany?
    requires marks[k] + 1 < i < |path| && (k + 1 < |marks| ==> i <= marks[k + 1])
    ensures path[i] < |bs1| && !Scoped(bs1[path[i]])
  {
    hide Depth, Child, Settled, Framed, Free, Alone, Apart, ScopeOk, Way;
    MarksGrow(st, path, marks);
    assert path[|path| - 1] == st.current;
    if i < |path| - 1 {
      WayGoesOn(st.blocks, path, i);
      LinksStay(st.blocks, bs1);
      if Scoped(st.blocks[path[i]]) {
        var inner := InnerScope(st, path, marks, k, i);
      }
    }
  }

  lemma {:induction false} BranchesSplit(bs: seq<Block>, w: seq<nat>, d: nat, m: nat, n: nat)
    requires d <= m <= n <= |w|
    ensures BranchesOn(bs, w, d, n) == BranchesOn(bs, w, d, m) + BranchesOn(bs, w, m, n)
    decreases n
  {
    if m < n { BranchesSplit(bs, w, d, m, n - 1); }
  }

  lemma {:induction false} NoBranches(bs: seq<Block>, w: seq<nat>, d: nat, n: nat)
    requires d <= n <= |w| && forall i :: d <= i < n ==> w[i] < |bs| && !bs[w[i]].BBranch?
    ensures BranchesOn(bs, w, d, n) == 0
    decreases n
  {
    if d < n { NoBranches(bs, w, d, n - 1); }
  }

  lemma {:induction false} BranchesAreIfs(st: State, bs1: seq<Block>, path: seq<nat>, marks: seq<nat>, k: nat)
    requires Sane(st, path, marks) && k < |marks| && Grown(st.blocks, bs1) && st.current < |bs1| && bs1[st.current].BMany?
    ensures k < |st.scopes| == |marks| && marks[k] + 1 < |path| && BranchesOn(bs1, path, marks[k] + 1, |path|) == IfsFrom(st.scopes, k)
    decreases |marks| - k
  {
    hide Sane, Grown, BranchesOn, ScopesOk, Way, Depth, Scoped;
    assert |st.scopes| == |marks| by { SaneParts(st, path, marks); }
    KindOnWay(st, bs1, path, marks, k);
    var next: nat := |path|;
    if k + 1 < |marks| {
      KindOnWay(st, bs1, path, marks, k + 1);
      next := marks[k + 1] + 1;
      BranchesAreIfs(st, bs1, path, marks, k + 1);
    } else {
      BranchesNone(bs1, path, |path|);
    }
    BranchesToNext(st, bs1, path, marks, k, next);
    BranchesSplit(bs1, path, marks[k] + 1, next, |path|);
  }

  lemma BranchesToNext(st: State, bs1: seq<Block>, path: seq<nat>, marks: seq<nat>, k: nat, next: nat)
    requires Sane(st, path, marks) && k < |marks| && Grown(st.blocks, bs1) && st.current < |bs1| && bs1[st.current].BMany?
    requires marks[k] + 1 < next <= |path| && (k + 1 < |marks| ==> next <= marks[k + 1] + 1) && |st.scopes| == |marks|
    ensures BranchesOn(bs1, path, marks[k] + 1, next) == if st.scopes[k].kind.SCOPE_IF? then 1 else 0
  {
    hide Sane, Grown, BranchesOn, ScopesOk, Way, Depth;
    var d := marks[k] + 1;
    KindOnWay(st, bs1, path, marks, k);
    forall i | d + 1 <= i < next ensures path[i] < |bs1| && !bs1[path[i]].BBranch? { GapOnWay(st, bs1, path, marks, k, i); }
    NoBranches(bs1, path, d + 1, next);
    BranchesSplit(bs1, path, d, d + 1, next);
    OneBranch(bs1, path, d);
  }

  lemma BranchesNone(bs: seq<Block>, w: seq<nat>, d: nat)
    requires d <= |w|
    ensures BranchesOn(bs, w, d, d) == 0
  {
  }

  lemma OneBranch(bs: seq<Block>, w: seq<nat>, d: nat)
    requires d < |w|
    ensures BranchesOn(bs, w, d, d + 1) == if w[d] < |bs| && bs[w[d]].BBranch? then 1 else 0
  {
    assert BranchesOn(bs, w, d, d) == 0;
  }

  lemma {:induction false} FirstDeferIs(bs: seq<Block>, w: seq<nat>, p: nat, d: nat, n: nat)
    requires p <= d <= n <= |w| && (d < n ==> w[d] < |bs| && bs[w[d]].BDefer?)
    requires forall i :: p <= i < d ==> !(w[i] < |bs| && bs[w[i]].BDefer?)
    ensures FirstDefer(bs, w, p, n) == d
    decreases n
  {
    if p < n { FirstDeferIs(bs, w, p, if d < n then d else n - 1, n - 1); }
  }

  /** The outermost DEFER inside of scope k, which is not itself one. */
  lemma DeferIsEpilogue(st: State, bs1: seq<Block>, path: seq<nat>, marks: seq<nat>, k: nat, p: nat)
    requires Sane(st, path, marks) && k < |marks| && Grown(st.blocks, bs1) && st.current < |bs1| && bs1[st.current].BMany?
    requires marks[k] + 1 <= p <= marks[k] + 2 && st.scopes[k].kind.SCOPE_LOOP?
    ensures p < |path| && |st.scopes| == |marks| && k + 1 <= |marks|
    ensures var e := OutermostEpilogue(st.scopes, k + 1);
      FirstDefer(bs1, path, p, |path|) == (if e < |marks| then marks[e] + 1 else |path|)
      && (e < |marks| ==> marks[e] + 1 < |path|)
  {
    hide Sane, Grown, ScopesOk, Way, Depth, Child, OutermostEpilogue;
    assert |st.scopes| == |marks| by { SaneParts(st, path, marks); }
    KindOnWay(st, bs1, path, marks, k);
    MarksGrow(st, path, marks);
    var e := OutermostEpilogue(st.scopes, k + 1);
    if e < |marks| { KindOnWay(st, bs1, path, marks, e); }
    var d: nat := if e < |marks| then marks[e] + 1 else |path|;
    forall i | p <= i < d ensures !(path[i] < |bs1| && bs1[path[i]].BDefer?) {
      NoDeferBefore(st, bs1, path, marks, k, e, i);
    }
    FirstDeferIs(bs1, path, p, d, |path|);
  }

  lemma NoDeferBefore(st: State, bs1: seq<Block>, path: seq<nat>, marks: seq<nat>, k: nat, e: nat, i: nat)
    requires Sane(st, path, marks) && k < |marks| && Grown(st.blocks, bs1) && st.current < |bs1| && bs1[st.current].BMany?
    requires |st.scopes| == |marks| && st.scopes[k].kind.SCOPE_LOOP? && e == OutermostEpilogue(st.scopes, k + 1)
    requires marks[k] + 1 <= i < |path| && (e < |marks| ==> i <= marks[e])
    ensures !(path[i] < |bs1| && bs1[path[i]].BDefer?)
  {
    hide Sane, Grown, ScopesOk, ScopeOk, Way, Depth, Child, OutermostEpilogue;
    KindOnWay(st, bs1, path, marks, k);
    MarksGrow(st, path, marks);
    if path[i] < |bs1| && bs1[path[i]].BDefer? && i > marks[k] + 1 {
      var inner := ScopeOfBlock(st, bs1, path, marks, k, i);
      KindOnWay(st, bs1, path, marks, inner);
    }
  }

  lemma ScopeOfBlock(st: State, bs1: seq<Block>, path: seq<nat>, marks: seq<nat>, k: nat, i: nat) returns (inner: nat)
    requires Sane(st, path, marks) && k < |marks| && Grown(st.blocks, bs1) && st.current < |bs1| && bs1[st.current].BMany?
    requires marks[k] + 1 < i < |path| && path[i] < |bs1| && bs1[path[i]].BDefer?
    ensures k < inner < |marks| && marks[inner] == i - 1
  {
    hide Depth, Child, Settled, Framed, ScopesOk, Way;
    assert path[|path| - 1] == st.current;
    WayGoesOn(st.blocks, path, i);
    LinksStay(st.blocks, bs1);
    inner := InnerScope(st, path, marks, k, i);
  }

  /** The verdict of the scopes is that of the way to the new break. */
  lemma CoversAlike(st: State, bs1: seq<Block>, again: bool, path: seq<nat>, marks: seq<nat>, m: nat, way: seq<nat>)
    requires Sane(st, path, marks) && Grown(st.blocks, bs1) && st.current < |bs1| && bs1[st.current].BMany?
    requires 0 < InnermostLoop(st.scopes) <= |marks| && m == marks[InnermostLoop(st.scopes) - 1]
    requires |way| == |path| + 1 && way[..|path|] == path && m + 2 < |path|
    requires var k: nat := InnermostLoop(st.scopes) - 1;
      && k < |st.scopes| && st.scopes[k].breakDepth == Depth(bs1, path[..m + 1]) + 1
      && st.scopes[k].continueDepth == Depth(bs1, path[..m + 2]) + 1
    ensures WayCovers(bs1, way, if again then m + 2 else m + 1) <==> ScopesCover(st.scopes, again)
  {
    hide Sane, Grown, ScopesOk, Way, Depth, Child, OutermostEpilogue, InnermostLoop, IfsFrom;
    assert |st.scopes| == |marks| by { SaneParts(st, path, marks); }
    var k: nat, p := InnermostLoop(st.scopes) - 1, if again then m + 2 else m + 1;
    LoopAt(st.scopes);
    var e := OutermostEpilogue(st.scopes, k + 1);
    DeferIsEpilogue(st, bs1, path, marks, k, p);
    BranchesPrefix(bs1, path, way, p, |path|);
    assert way[..p] == path[..p];
    if e < |marks| {
      var d := marks[e] + 1;
      BranchesPrefix(bs1, path, way, d, |path|);
      BranchesAreIfs(st, bs1, path, marks, e);
      assert way[..d] == path[..d];
      DepthAtScope(st, bs1, path, marks, e);
    }
  }

  lemma LoopAt(scopes: seq<OpenScope>)
    ensures InnermostLoop(scopes) <= |scopes| && (InnermostLoop(scopes) > 0 ==> scopes[InnermostLoop(scopes) - 1].kind.SCOPE_LOOP?)
  {
  }

  lemma DepthAtScope(st: State, bs1: seq<Block>, path: seq<nat>, marks: seq<nat>, e: nat)
    requires Sane(st, path, marks) && e < |marks| && Grown(st.blocks, bs1)
    ensures e < |st.scopes| && marks[e] + 1 < |path| && Depth(bs1, path[..marks[e] + 1]) == st.scopes[e].parentDepth + 1
  {
    hide ScopesOk, Depth, Framed, Settled;
    KindOnWay(st, bs1, path, marks, e);
    DepthStays(st.blocks, bs1, path, marks[e] + 1);
    assert path[..marks[e] + 1] == path[..marks[e]] + [path[marks[e]]];
    DepthSnoc(st.blocks, path[..marks[e]], path[marks[e]]);
  }

  lemma LoopScopeDepths(st: State, path: seq<nat>, marks: seq<nat>, k: nat)
    requires Sane(st, path, marks) && k < |st.scopes| && st.scopes[k].kind.SCOPE_LOOP?
    ensures st.scopes[k].continueDepth == st.scopes[k].breakDepth + 1
  {
    hide Way, Depth, Child, Settled, Framed, Free, Alone, Apart;
    assert ScopeOk(st.blocks, path, marks[k], st.scopes[k]);
  }

  lemma {:induction false} InnermostShorter(scopes: seq<OpenScope>, m: nat)
    requires InnermostLoop(scopes) <= m <= |scopes|
    ensures InnermostLoop(scopes[..m]) == InnermostLoop(scopes)
    decreases |scopes|
  {
    if m < |scopes| {
      InnermostShorter(scopes[..|scopes| - 1], m);
      assert scopes[..|scopes| - 1][..m] == scopes[..m];
    } else {
      assert scopes[..m] == scopes;
    }
  }

  /** A CONTINUE under two IFs inside an epilogue that stands in the body of a loop skips the
      cleanup; under one IF it does not, and neither does a BREAK under two. */
  lemma TwoIfsSkipCleanup(st: State, path: seq<nat>, marks: seq<nat>, n: nat)
    requires Sane(st, path, marks) && n > 0 && n == InnermostLoop(st.scopes) && |st.scopes| == n + 3
    requires st.scopes[n].kind.SCOPE_EPILOGUE? && st.scopes[n].parentDepth == st.scopes[n - 1].continueDepth
    requires st.scopes[n + 1].kind.SCOPE_IF? && st.scopes[n + 2].kind.SCOPE_IF?
    ensures !ScopesCover(st.scopes, true) && ScopesCover(st.scopes, false)
    ensures ScopesCover(st.scopes[..n + 2], true)
  {
    hide Sane, InnermostLoop;
    LoopScopeDepths(st, path, marks, n - 1);
    assert OutermostEpilogue(st.scopes, n) == n;
    assert IfsFrom(st.scopes, n) == 2 by { assert IfsFrom(st.scopes, n + 2) == 1; }
    var less := st.scopes[..n + 2];
    assert less == st.scopes[..n] + [st.scopes[n], st.scopes[n + 1]];
    InnermostShorter(st.scopes, n + 2);
    assert OutermostEpilogue(less, n) == n;
    assert IfsFrom(less, n) == 1 by { assert IfsFrom(less, n + 1) == 1; }
  }
}
