/** When the blocks of a source are a tree: as long as no variable is declared in the condition
    of an IF, whatever the depth counts say. */
module FrontendTrees {
  import opened Memory
  import opened Ir
  import opened FlatBlocks
  import opened BlockTree
  import opened FrontendState
  import opened FrontendSteps
  import opened FrontendProof
  import opened FrontendCovers
  import opened FrontendJumps
  import opened FrontendRuns
  import opened FrontendShape
  import opened FrontendOps
  import opened FrontendWhole
  import opened FrontendTwins

  /** The state st is like c, which has the right depths. */
  ghost predicate Tracks(st: State, c: State, path: seq<nat>, marks: seq<nat>) {
    InRange(st) && Twins(st, c) && Shaped(c, path, marks)
  }

  /** The word ends a condition that declared a variable. */
  predicate BreaksTree(st: State, w: Token) {
    w.WClose? && |st.scopes| > 0 && Top(st).kind.SCOPE_IF? && Top(st).delimiterDepth == 1
    && !(Top(st).first < |st.blocks| && st.blocks[Top(st).first].BBasic?)
  }

  // ----- prefix DEFER -----

  /** After the cleanup of a prefix DEFER, with the depth that the body has. */
  function CleanupEnded(c: State): State
    requires |c.scopes| > 0 && Delimited(c, false).Some?
  {
    Delimited(c, false).value.(depth := Top(c).parentDepth + 2)
  }

  lemma CleanupEndedKeeps(c: State, path: seq<nat>, marks: seq<nat>, m: nat)
    requires Sane(c, path, marks) && |c.scopes| > 0 && m == marks[|marks| - 1]
    requires Top(c).kind.SCOPE_EPILOGUE? && Top(c).delimiterDepth == 1 && !Waits(Top(c))
    ensures Delimited(c, false).Some? && m + 2 < |path| && Sane(CleanupEnded(c), path[..m + 2] + [Top(c).first], marks)
  {
    hide Sane, ScopesOk, ScopeOk, Way, Framed, Settled, Kept, WithStart;
    SaneParts(c, path, marks);
    TopOk(c, path, marks);
    var s := Top(c);
    assert Waiting(s) == [s.after, s.first] && Waiting(s)[1] == s.first;
    ArmIsBasic(c, path, marks, |marks| - 1, s.first);
    BeginKept(c.blocks, s.first, |c.ops|);
    SwitchedKeeps(c, CleanupEnded(c), path, marks, m, s, s.(delimiterDepth := 0, phase := SCOPE_BODY));
  }

  lemma CleanupEndedShaped(c: State, ntypes: nat, path: seq<nat>, marks: seq<nat>) returns (path1: seq<nat>)
    requires Shaped(c, path, marks) && Step(c, WClose, ntypes).Some?
    requires |c.scopes| > 0 && !Top(c).kind.SCOPE_IF? && Top(c).delimiterDepth == 1
    ensures Delimited(c, false).Some? && Shaped(CleanupEnded(c), path1, marks)
  {
    hide Sane, IsTree, Total, Indices, Begin, Blank, InRange, Waits;
    assert PhaseOk(Top(c)) && |marks| > 0 by { SaneParts(c, path, marks); TopOk(c, path, marks); }
    var st1, m := Delimited(c, false).value, marks[|marks| - 1];
    assert !Waits(Top(c)) by { NotWaiting(Top(c)); }
    CleanupEndedKeeps(c, path, marks, m);
    path1 := path[..m + 2] + [Top(c).first];
    CleanupFilled(c, path, marks);
    assert Waiting(Top(c))[1] == Top(c).first;
    BeginRefs(c.blocks, Top(c).first, |c.ops|);
    assert InRange(st1) by { StepInRange(c, WClose, ntypes); }
    SameButDepth(st1, CleanupEnded(c));
  }

  lemma NotWaiting(s: OpenScope)
    requires PhaseOk(s) && s.delimiterDepth == 1
    ensures !Waits(s) && (s.kind.SCOPE_IF? || s.kind.SCOPE_EPILOGUE?)
  {
  }

  lemma SameButDepth(st: State, st1: State)
    requires st1 == st.(depth := st1.depth)
    ensures InRange(st1) == InRange(st) && Filled(st1) == Filled(st)
  {
    hide Total, Indices, Blank;
  }

  // ----- one word -----

  lemma CleanupTracks(st: State, c: State, ntypes: nat, path: seq<nat>, marks: seq<nat>) returns (path1: seq<nat>)
    requires Tracks(st, c, path, marks) && Step(st, WClose, ntypes).Some?
    requires |c.scopes| > 0 && !Top(c).kind.SCOPE_IF? && Top(c).delimiterDepth == 1
    ensures Delimited(c, false).Some? && Tracks(Step(st, WClose, ntypes).value, CleanupEnded(c), path1, marks)
  {
    hide Shaped, Twins, Delimited, InRange;
    assert InRange(c) by { ShapedInRange(c, path, marks); }
    StepTwins(st, c, WClose, ntypes);
    path1 := CleanupEndedShaped(c, ntypes, path, marks);
    assert InRange(Step(st, WClose, ntypes).value) by { StepInRange(st, WClose, ntypes); ContinuesInRange(st, Step(st, WClose, ntypes).value); }
    DepthlessTwins(Delimited(st, false).value, Delimited(c, false).value, CleanupEnded(c));
  }

  lemma DepthlessTwins(st: State, c: State, c1: State)
    requires Twins(st, c) && c1 == c.(depth := c1.depth)
    ensures Twins(st, c1)
  {
  }

  lemma ShapedInRange(c: State, path: seq<nat>, marks: seq<nat>)
    requires Shaped(c, path, marks)
    ensures InRange(c) && Sane(c, path, marks) && IsTree(c.blocks) && Filled(c) && c.current < |c.blocks|
  {
  }

  /** A jump that is accepted with wrong depths is accepted with the right ones. */
  lemma JumpTracks(st: State, c: State, w: Token, ntypes: nat, path: seq<nat>, marks: seq<nat>)
    requires Tracks(st, c, path, marks) && InRange(c) && Jumps(w) && Step(st, w, ntypes).Some?
    ensures Step(c, w, ntypes).Some?
  {
    hide Shaped, LeavesNoCleanup, Exited, InRange, Opens, Twins, Step;
    ShapedInRange(c, path, marks);
    SameLength(st, c);
    if |st.scopes| > 0 { TopTwins(st, c); OpensTwins(Top(st), Top(c)); }
    JumpIs(st, w, ntypes);
    JumpIs(c, w, ntypes);
    assert SameScopes(st.scopes, c.scopes) by { TwinScopes(st, c); }
    LoopTwins(st.scopes, c.scopes);
    JumpRejected(c, w.WContinue?, path, marks);
    CurrentInRange(st);
    ExitedNeeds(st, w.WContinue?);
  }

  lemma TwinScopes(st: State, c: State)
    requires Twins(st, c)
    ensures SameScopes(st.scopes, c.scopes)
  {
  }

  lemma JumpIs(st: State, w: Token, ntypes: nat)
    requires InRange(st) && Jumps(w)
    ensures st.current < |st.blocks|
    ensures Step(st, w, ntypes) == if |st.scopes| > 0 && Opens(Top(st)) then None else Exited(st, w.WContinue?)
  {
    hide Exited;
  }

  lemma OpensTwins(s: OpenScope, t: OpenScope)
    requires SameScope(s, t)
    ensures Opens(s) == Opens(t) && Waits(s) == Waits(t)
  {
  }

  lemma ExitedNeeds(st: State, again: bool)
    requires st.current < |st.blocks| && Exited(st, again).Some?
    ensures var n := InnermostLoop(st.scopes); n > 0 && LeavesNoCleanup(st.scopes, n) && |st.blocks| + 5 < INVALID
  {
    hide LeavesNoCleanup, Wrapped;
  }

  lemma SpoilsTwins(st: State, c: State, w: Token)
    requires Twins(st, c) && Spoils(c, w) && !BreaksTree(st, w)
    ensures w.WClose? && |c.scopes| > 0 && !Top(c).kind.SCOPE_IF? && Top(c).delimiterDepth == 1
  {
    TopTwins(st, c);
  }

  lemma WordTracks(st: State, c: State, w: Token, ntypes: nat, path: seq<nat>, marks: seq<nat>)
      returns (c1: State, path1: seq<nat>, marks1: seq<nat>)
    requires Tracks(st, c, path, marks) && Step(st, w, ntypes).Some? && !BreaksTree(st, w)
    requires |Step(st, w, ntypes).value.blocks| <= INVALID
    ensures Tracks(Step(st, w, ntypes).value, c1, path1, marks1)
  {
    hide Shaped, Twins, Step, Spoils, BreaksTree, InRange, Stays;
    assert InRange(c) by { ShapedInRange(c, path, marks); }
    if Spoils(c, w) {
      SpoilsTwins(st, c, w);
      marks1 := marks;
      path1 := CleanupTracks(st, c, ntypes, path, marks);
      c1 := CleanupEnded(c);
    } else {
      if Jumps(w) { JumpTracks(st, c, w, ntypes, path, marks); }
      StepTwins(st, c, w, ntypes);
      c1 := Step(c, w, ntypes).value;
      SameLength(Step(st, w, ntypes).value, c1);
      var made;
      path1, marks1, made := WordShapes(c, w, ntypes, path, marks);
      assert InRange(Step(st, w, ntypes).value) by { StepInRange(st, w, ntypes); ContinuesInRange(st, Step(st, w, ntypes).value); }
    }
  }

  // ----- all words -----

  /** No condition declares a variable. */
  predicate Unbroken(st: State, words: seq<Token>, ntypes: nat)
    requires InRange(st)
    decreases |words|
  {
    |words| == 0 ||
    (!BreaksTree(st, words[0]) &&
     match Step(st, words[0], ntypes)
     case None => true
     case Some(next) => StepInRange(st, words[0], ntypes); Unbroken(next, words[1..], ntypes))
  }

  lemma {:induction false} FeedTracks(st: State, c: State, words: seq<Token>, ntypes: nat, path: seq<nat>, marks: seq<nat>)
      returns (c1: State, path1: seq<nat>, marks1: seq<nat>)
    requires Tracks(st, c, path, marks) && Unbroken(st, words, ntypes) && Feed(st, words, ntypes).Some?
    requires |Feed(st, words, ntypes).value.blocks| <= INVALID
    ensures Tracks(Feed(st, words, ntypes).value, c1, path1, marks1)
    decreases |words|
  {
    hide Shaped, Twins, Step, InRange, BreaksTree;
    c1, path1, marks1 := c, path, marks;
    if |words| > 0 {
      var next := Step(st, words[0], ntypes).value;
      StepInRange(st, words[0], ntypes);
      FeedGrows(next, words[1..], ntypes);
      c1, path1, marks1 := WordTracks(st, c, words[0], ntypes, path, marks);
      c1, path1, marks1 := FeedTracks(next, c1, words[1..], ntypes, path1, marks1);
    }
  }

  lemma TwinsSelf(st: State)
    ensures Twins(st, st)
  {
  }

  /** A compiled source in which no condition declares a variable is a tree: its blocks hang
      together from the first one, each at one place, and each emitted operation lies in exactly
      one range, of one basic block or of one condition. */
  lemma SourceIsTree(words: seq<Token>, ntypes: nat)
    requires InRange(START) && Unbroken(START, words, ntypes) && Compiled(START, words, ntypes).Some?
    requires |Compiled(START, words, ntypes).value.blocks| <= INVALID
    ensures var t := Compiled(START, words, ntypes).value;
      IsTree(t.blocks) && Total(t.blocks, Operations) == Indices(0, |t.ops|)
  {
    hide Shaped, IsTree, Unbroken, ImplicitEnded, Total, Indices, Feed, InRange, Twins;
    StartShaped();
    TwinsSelf(START);
    var last := Feed(START, words, ntypes).value;
    FeedGrows(START, words, ntypes);
    ImplicitInRange(last);
    var c, path, marks := FeedTracks(START, START, words, ntypes, [0], []);
    EndIsTree(last, c, path, marks);
  }

  lemma EndIsTree(last: State, c: State, path: seq<nat>, marks: seq<nat>)
    requires Tracks(last, c, path, marks) && ImplicitEnded(last).scopes == []
    ensures var t := ImplicitEnded(last); IsTree(t.blocks) && Total(t.blocks, Operations) == Indices(0, |t.ops|)
  {
    hide Sane, IsTree, Total, Indices, InRange, ImplicitEnded;
    var t, d := ImplicitEnded(last), ImplicitEnded(c);
    ImplicitTwins(last, c);
    assert d.scopes == [];
    NotOpenAtEnd(c);
    ImplicitFilled(c, path, marks);
    ImplicitTree(c, path, marks);
    TwinRefs(t.blocks, d.blocks);
  }

  /** Sources that upset nothing are among them. */
  lemma {:induction false} CleanIsUnbroken(st: State, words: seq<Token>, ntypes: nat)
    requires InRange(st) && Clean(st, words, ntypes)
    ensures Unbroken(st, words, ntypes)
    decreases |words|
  {
    hide Step, InRange;
    if |words| > 0 && Step(st, words[0], ntypes).Some? {
      StepInRange(st, words[0], ntypes);
      CleanIsUnbroken(Step(st, words[0], ntypes).value, words[1..], ntypes);
    }
  }

  // ----- the word that breaks it -----

  /** At the end of a condition: the blocks are a tree if and only if the arm of the IF is not a
      sequence by now, or the number of operations happens to be its first child. */
  lemma ConditionTree(st: State, c: State, ntypes: nat, path: seq<nat>, marks: seq<nat>)
    requires Tracks(st, c, path, marks) && Step(st, WClose, ntypes).Some?
    requires |st.scopes| > 0 && Top(st).kind.SCOPE_IF? && Top(st).delimiterDepth == 1
    ensures Top(st).first < |st.blocks|
    ensures var first := st.blocks[Top(st).first];
      IsTree(Step(st, WClose, ntypes).value.blocks) <==> (first.BMany? ==> first.cur == |st.ops|)
  {
    hide Sane, IsTree, InRange, Filled, Begin, ConditionEnded;
    ShapedInRange(c, path, marks);
    TopTwins(st, c);
    var s, n := Top(st), |st.ops|;
    TopInRange(st);
    TwinRefs(st.blocks, c.blocks);
    assert Waits(s) == false && PhaseOk(Top(c)) by { SaneParts(c, path, marks); TopOk(c, path, marks); NotWaiting(Top(c)); OpensTwins(s, Top(c)); }
    var b := st.blocks[s.block];
    assert b.BBranch? by { BranchOfIf(c, path, marks); assert SameBlock(b, c.blocks[s.block]); }
    var bs := st.blocks[s.block := ConditionEnded(b, n)];
    ConditionRefs(st.blocks, s.block, n);
    ArmKind(c, path, marks);
    assert SameBlock(st.blocks[s.first], c.blocks[s.first]);
    assert s.first != s.block by { ArmIsNotBranch(c, path, marks); }
    BeginTree(bs, s.first, n);
  }

  lemma TopInRange(st: State)
    requires InRange(st) && |st.scopes| > 0
    ensures Top(st).first < |st.blocks| && Top(st).block < |st.blocks|
  {
  }

  /** The arm of an IF, at the end of its condition, is a basic block, a sequence or a variable. */
  lemma ArmKind(c: State, path: seq<nat>, marks: seq<nat>)
    requires Sane(c, path, marks) && |c.scopes| > 0 && Top(c).kind.SCOPE_IF? && !Top(c).phase.SCOPE_ELSE_BODY?
    ensures Top(c).first < |c.blocks|
    ensures var b := c.blocks[Top(c).first]; b.BBasic? || b.BMany? || b.BVar?
  {
    hide Free, Alone, Apart, Depth, InChain;
    var m := marks[|marks| - 1];
    assert ScopeOk(c.blocks, path, m, Top(c));
    if m + 2 < |path| - 1 {
      assert Child(c.blocks, path[m + 2], path[m + 2 + 1]);
      if Scoped(c.blocks[path[m + 2]]) { assert m + 1 in marks; }
    }
  }

  lemma ArmIsNotBranch(c: State, path: seq<nat>, marks: seq<nat>)
    requires Sane(c, path, marks) && |c.scopes| > 0 && Top(c).kind.SCOPE_IF? && !Top(c).phase.SCOPE_ELSE_BODY?
    ensures Top(c).first != Top(c).block
  {
    hide Sane;
    ArmKind(c, path, marks);
    BranchOfIf(c, path, marks);
  }

  /** Writing the first index of a block of a tree keeps the tree exactly when it is the same. */
  lemma BeginTree(bs: seq<Block>, i: nat, n: nat)
    requires IsTree(bs) && i < |bs| && (bs[i].BBasic? || bs[i].BMany? || bs[i].BVar?)
    ensures IsTree(Begin(bs, i, n)) <==> (bs[i].BMany? ==> bs[i].cur == n)
  {
    hide IsTree, Refs;
    var b := WithStart(bs[i], n);
    if !bs[i].BMany? {
      SameStarts(bs, i, n);
      SameRefsIsTree(bs, bs[i := b]);
    } else if bs[i].cur == n {
      assert Begin(bs, i, n) == bs;
    } else if IsTree(bs[i := b]) {
      SameTotal(bs, i, b);
      ManyRefs(bs[i].cur, bs[i].next);
      ManyRefs(n, bs[i].next);
      IndexDiffers(bs[i].cur, n, bs[i].next);
    }
  }

  lemma SameStarts(bs: seq<Block>, i: nat, n: nat)
    requires i < |bs| && (bs[i].BBasic? || bs[i].BVar?)
    ensures var cs := bs[i := WithStart(bs[i], n)]; forall k :: 0 <= k < |bs| ==> Refs(bs[k]) == Refs(cs[k])
  {
  }

  lemma ManyRefs(cur: nat, next: nat)
    ensures Refs(BMany(cur, next)) == Index(cur) + Index(next)
  {
  }

  lemma SameTotal(bs: seq<Block>, i: nat, b: Block)
    requires i < |bs| && IsTree(bs) && IsTree(bs[i := b])
    ensures Refs(bs[i]) == Refs(b)
  {
    hide Total, IsTree, Indices, Refs;
    TotalReplaced(bs, References, i, b);
    OneParentIs(bs);
    OneParentIs(bs[i := b]);
    Replaced(Total(bs, References), Refs(bs[i]), Refs(b));
  }

  lemma OneParentIs(bs: seq<Block>)
    requires IsTree(bs)
    ensures |bs| > 0 && Total(bs, References) == Indices(1, |bs| - 1)
  {
  }

  lemma Replaced(total: multiset<nat>, a: multiset<nat>, b: multiset<nat>)
    requires a <= total && total - a + b == total
    ensures a == b
  {
    assert forall x :: (total - a + b)[x] == total[x] - a[x] + b[x];
  }

  lemma IndexDiffers(cur: nat, n: nat, next: nat)
    requires cur != n
    ensures Index(cur) + Index(next) != Index(n) + Index(next)
  {
    var a, b := Index(cur) + Index(next), Index(n) + Index(next);
    assert a[cur] == Index(cur)[cur] + Index(next)[cur] && b[cur] == Index(n)[cur] + Index(next)[cur];
    assert a[n] == Index(cur)[n] + Index(next)[n] && b[n] == Index(n)[n] + Index(next)[n];
  }
}
