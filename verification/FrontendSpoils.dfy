/** The uses of parentheses that upset the depth count are exactly the two named ones. */
module FrontendSpoils {
  import opened Memory
  import opened Ir
  import opened FlatBlocks
  import opened BlockTree
  import opened FrontendState
  import opened FrontendSteps
  import opened FrontendProof
  import opened FrontendCovers
  import opened FrontendJumps
  import opened FrontendRuns
  import opened FrontendShape
  import opened FrontendOps
  import opened FrontendWhole

  // ----- in a tree there is one way to each block -----

  /** The block that names the child b of a: a itself, or a link of its chain. */
  function Holder(bs: seq<Block>, a: nat, b: nat): nat
    requires Child(bs, a, b)
  {
    if !bs[a].BMany? || bs[a].cur == b then a
    else if bs[bs[a].next].cur == b then bs[a].next
    else bs[bs[a].next].next
  }

  lemma HolderNames(bs: seq<Block>, a: nat, b: nat)
    requires Child(bs, a, b) && b < |bs| <= INVALID
    ensures var h := Holder(bs, a, b);
      && h < |bs| && b in Refs(bs[h]) && !bs[a].BChain?
      && (h == a || (bs[h].BChain? && bs[a].BMany? &&
                     (h in Refs(bs[a]) || (bs[a].next < |bs| && bs[bs[a].next].BChain? && bs[a].next in Refs(bs[a]) && h in Refs(bs[bs[a].next])))))
  {
  }

  lemma OneHolder(bs: seq<Block>, a: nat, c: nat, b: nat)
    requires OneParent(bs) && Child(bs, a, b) && Child(bs, c, b) && b < |bs| <= INVALID
    ensures a == c && b > 0
  {
    hide Child, Holder, OneParent, Refs;
    HolderNames(bs, a, b);
    HolderNames(bs, c, b);
    ParentInside(bs, a, b);
    ParentInside(bs, c, b);
    var h := Holder(bs, a, b);
    OnlyParent(bs, h, Holder(bs, c, b), b);
    if h != a && h != c {
      if h in Refs(bs[a]) {
        if h in Refs(bs[c]) { OnlyParent(bs, a, c, h); } else { OnlyParent(bs, a, bs[c].next, h); }
      } else if h in Refs(bs[c]) {
        OnlyParent(bs, bs[a].next, c, h);
      } else {
        OnlyParent(bs, bs[a].next, bs[c].next, h);
        OnlyParent(bs, a, c, bs[a].next);
      }
    }
  }

  lemma {:induction false} WaysAreUnique(bs: seq<Block>, p: seq<nat>, q: seq<nat>)
    requires OneParent(bs) && |bs| <= INVALID && Way(bs, p) && Way(bs, q) && p[|p| - 1] == q[|q| - 1] < |bs|
    ensures p == q
    decreases |p|
  {
    hide OneParent, Child;
    if |p| > 1 {
      var a, b := p[|p| - 2], p[|p| - 1];
      assert Child(bs, a, p[|p| - 2 + 1]);
      OneHolder(bs, a, a, b);
      if |q| > 1 {
        assert Child(bs, q[|q| - 2], q[|q| - 2 + 1]);
        OneHolder(bs, a, q[|q| - 2], b);
        ParentInside(bs, a, b);
        WaysAreUnique(bs, p[..|p| - 1], q[..|q| - 1]);
        assert p == p[..|p| - 1] + [b] && q == q[..|q| - 1] + [b];
      }
    } else if |q| > 1 {
      assert Child(bs, q[|q| - 2], q[|q| - 2 + 1]);
      OneHolder(bs, q[|q| - 2], q[|q| - 2], q[|q| - 1]);
    }
  }

  lemma ParentInside(bs: seq<Block>, a: nat, b: nat)
    requires Child(bs, a, b)
    ensures a < |bs|
  {
  }

  // ----- losing count -----

  ghost predicate Counts(st: State) { exists path, marks :: Ok(st, path, marks) }

  /** After a cleanup in parentheses, the depth count is that of the cleanup, wherever the body is. */
  lemma CleanupMiscounts(st: State, path: seq<nat>, marks: seq<nat>, p: seq<nat>, m: seq<nat>)
    requires Shaped(st, path, marks) && |st.blocks| <= INVALID && Spoils(st, WClose) && !Top(st).kind.SCOPE_IF?
    requires Delimited(st, false).Some?
    ensures !Ok(Delimited(st, false).value, p, m)
  {
    hide IsTree, Total, Of, Indices, Begin, ScopesOk, Framed, Settled, Way, Depth, Blank, InRange;
    var st1 := Delimited(st, false).value;
    SaneParts(st, path, marks);
    TopOk(st, path, marks);
    var s, k := Top(st), marks[|marks| - 1];
    assert Waiting(s)[1] == s.first;
    BeginPlaced(st.blocks, s.first, |st.ops|);
    BeginRefs(st.blocks, s.first, |st.ops|);
    ArmWayHere(st, st1, path, k, s);
    if Ok(st1, p, m) {
      TreeHasOneParent(st1.blocks);
      WaysAreUnique(st1.blocks, p, path[..k + 2] + [s.first]);
    }
  }

  lemma TreeHasOneParent(bs: seq<Block>)
    requires IsTree(bs)
    ensures OneParent(bs)
  {
  }

  lemma ArmWayHere(st: State, st1: State, path: seq<nat>, m: nat, s: OpenScope)
    requires Way(st.blocks, path) && ScopeOk(st.blocks, path, m, s) && s.kind.SCOPE_EPILOGUE?
    requires Blank(st.blocks, s.first) && st1.blocks == Begin(st.blocks, s.first, |st.ops|)
    ensures m + 2 < |path| && Way(st1.blocks, path[..m + 2] + [s.first]) && s.first < |st1.blocks|
    ensures Depth(st1.blocks, path[..m + 2] + [s.first]) == s.parentDepth + 2
  {
    hide Way, Depth;
    BeginKept(st.blocks, s.first, |st.ops|);
    ArmWay(st.blocks, st1.blocks, path, m, s, s.first);
  }

  /** A closing parenthesis makes the frontend lose count exactly when it ends a condition
      that declared a variable, or a cleanup that changed the depth. */
  lemma SpoilsExactly(st: State, w: Token, ntypes: nat, path: seq<nat>, marks: seq<nat>)
    requires Shaped(st, path, marks) && |st.blocks| <= INVALID && Step(st, w, ntypes).Some?
    ensures Spoils(st, w) <==> !Counts(Step(st, w, ntypes).value)
  {
    hide Shaped, Ok, Lands, Builds, Made;
    assert InRange(st) && Sane(st, path, marks) by { ShapedParts(st, path, marks); }
    var next := Step(st, w, ntypes).value;
    if Spoils(st, w) {
      forall p, m ensures !Ok(next, p, m) {
        if Top(st).kind.SCOPE_IF? { ConditionMiscounts(st, path, marks, p, m); } else { CleanupMiscounts(st, path, marks, p, m); }
      }
    } else {
      var path1, marks1, made := WordKeeps(st, w, ntypes, path, marks);
      assert Ok(next, path1, marks1);
    }
  }

  lemma ShapedParts(st: State, path: seq<nat>, marks: seq<nat>)
    requires Shaped(st, path, marks)
    ensures InRange(st) && Sane(st, path, marks) && Filled(st)
  {
  }

  lemma ConditionMiscounts(st: State, path: seq<nat>, marks: seq<nat>, p: seq<nat>, m: seq<nat>)
    requires Shaped(st, path, marks) && Spoils(st, WClose) && Top(st).kind.SCOPE_IF? && Delimited(st, false).Some?
    ensures !Ok(Delimited(st, false).value, p, m)
  {
    hide IsTree, Filled, ScopesOk, Framed, Settled, Way, Depth, InRange;
    SaneParts(st, path, marks);
    TopOk(st, path, marks);
  }
}
