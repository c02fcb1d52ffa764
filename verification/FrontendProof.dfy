/** Every word keeps the depth count exact, except the two that can upset it. */
module FrontendProof {
  import opened Memory
  import opened Ir
  import opened FlatBlocks
  import opened FrontendState
  import opened FrontendSteps

  /** The blocks that an open scope stands for. */
  predicate Scoped(b: Block) { b.BLoop? || b.BBranch? || b.BDefer? }

  /** Every LOOP, BRANCH and DEFER on the way belongs to an open scope. */
  predicate Framed(bs: seq<Block>, path: seq<nat>, marks: seq<nat>) {
    forall i :: 0 <= i < |path| && path[i] < |bs| && Scoped(bs[path[i]]) ==> i > 0 && (i - 1) in marks
  }

  /** Only the innermost scope can be waiting for a parenthesis or be in a condition. */
  predicate Settled(scopes: seq<OpenScope>) {
    forall k :: 0 <= k < |scopes| - 1 ==> !Opens(scopes[k])
  }

  predicate Sane(st: State, path: seq<nat>, marks: seq<nat>) {
    Ok(st, path, marks) && Framed(st.blocks, path, marks) && Settled(st.scopes)
  }

  /** The way is kept up to n; from there on only the given scopes have a block of theirs. */
  lemma FramedStays(bs: seq<Block>, cs: seq<Block>, path: seq<nat>, marks: seq<nat>, path1: seq<nat>, marks1: seq<nat>, n: nat)
    requires Grown(bs, cs) && Way(bs, path) && Framed(bs, path, marks)
    requires n < |path| && n <= |path1| && path1[..n] == path[..n]
    requires forall m :: m in marks && m + 1 < n ==> m in marks1
    requires forall i :: n <= i < |path1| && path1[i] < |cs| && Scoped(cs[path1[i]]) ==> i > 0 && (i - 1) in marks1
    ensures Framed(cs, path1, marks1)
  {
    hide Grown, InChain;
    forall i | 0 <= i < n && path1[i] < |cs| && Scoped(cs[path1[i]]) ensures i > 0 && (i - 1) in marks1 {
      assert path1[i] == path1[..n][i] == path[i];
      assert Child(bs, path[i], path[i + 1]);
      KindStays(bs, cs, path[i], path[i + 1]);
    }
  }

  lemma KindStays(bs: seq<Block>, cs: seq<Block>, a: nat, b: nat)
    requires Grown(bs, cs) && Child(bs, a, b)
    ensures a < |bs| && a < |cs| && SameLinks(bs[a], cs[a])
  {
  }

  // ----- opening -----

  lemma OpenedKeeps(st: State, st1: State, extra: seq<Block>, middle: Block, s: OpenScope, path: seq<nat>, marks: seq<nat>, path1: seq<nat>)
    requires Sane(st, path, marks) && (|st.scopes| > 0 ==> !Opens(Top(st)))
    requires st1.blocks == WrapAround(st, extra, middle) && st1.scopes == st.scopes + [s]
    requires path < path1 && Way(st1.blocks, path1) && path1[|path1| - 1] == st1.current < |st1.blocks| && st1.current >= |st.blocks|
    requires st1.blocks[st1.current].BBasic? && st1.depth == Depth(st1.blocks, path1)
    requires ScopeOk(st1.blocks, path1, |path| - 1, s) && Free(st1.blocks, st1.current, s) && Alone(s)
    requires forall w :: w in Waiting(s) ==> |st.blocks| <= w
    requires forall i :: |path| < i < |path1| && path1[i] < |st1.blocks| ==> !Scoped(st1.blocks[path1[i]])
    ensures Sane(st1, path1, marks + [|path| - 1])
  {
    hide ScopeOk, Waiting, Way, Depth, Free, Alone, Apart, Framed, Opens;
    WrappedWay(st.blocks, extra, path, st.current, middle, |st.ops|);
    Opened(st, st1, path, marks, path1, s);
    SaneCurrent(st, path, marks);
    var m: nat := |path| - 1;
    assert Framed(st1.blocks, path1, marks + [m]) by {
      NewFramed(st, st1, path, marks, path1);
    }
  }

  lemma NewFramed(st: State, st1: State, path: seq<nat>, marks: seq<nat>, path1: seq<nat>)
    requires Way(st.blocks, path) && Framed(st.blocks, path, marks) && Grown(st.blocks, st1.blocks) && path < path1
    requires path[|path| - 1] < |st1.blocks| && st1.blocks[path[|path| - 1]].BMany?
    requires forall i :: |path| < i < |path1| && path1[i] < |st1.blocks| ==> !Scoped(st1.blocks[path1[i]])
    ensures Framed(st1.blocks, path1, marks + [|path| - 1])
  {
    var m: nat := |path| - 1;
    FramedStays(st.blocks, st1.blocks, path, marks, path1, marks + [m], m);
  }

  lemma SaneFacts(st: State, path: seq<nat>, marks: seq<nat>)
    requires Sane(st, path, marks)
    ensures Way(st.blocks, path) && |path| > 0 && path[|path| - 1] == st.current < |st.blocks| && st.blocks[st.current].BBasic?
    ensures st.depth == Depth(st.blocks, path)
  {
  }

  lemma LoopKeeps(st: State, path: seq<nat>, marks: seq<nat>)
    requires Sane(st, path, marks) && (|st.scopes| > 0 ==> !Opens(Top(st))) && LoopBegun(st).Some?
    ensures var n := |st.blocks|;
      Sane(LoopBegun(st).value, path + [n + 3, n + 1, n], marks + [|path| - 1])
  {
    hide Sane, Way, Opens, Depth, Grown;
    SaneFacts(st, path, marks);
    var n, st1 := |st.blocks|, LoopBegun(st).value;
    var extra, bs1, s := [Fresh(st), BMany(n, INVALID)], st1.blocks, LoopScope(st);
    WrappedWay(st.blocks, extra, path, st.current, BLoop(n + 1), |st.ops|);
    assert bs1[n + 1] == BMany(n, INVALID) && bs1[n] == Fresh(st) && bs1[n + 3] == BLoop(n + 1);
    WaySnoc(bs1, path, n + 3);
    WaySnoc(bs1, path + [n + 3], n + 1);
    WaySnoc(bs1, path + [n + 3] + [n + 1], n);
    DepthSnoc(bs1, path, n + 3);
    DepthSnoc(bs1, path + [n + 3], n + 1);
    DepthSnoc(bs1, path + [n + 3] + [n + 1], n);
    var path1 := path + [n + 3, n + 1, n];
    assert path1 == path + [n + 3] + [n + 1] + [n];
    assert path1[..|path| - 1] == path[..|path| - 1];
    OpenedKeeps(st, st1, extra, BLoop(n + 1), s, path, marks, path1);
  }

  lemma IfKeeps(st: State, path: seq<nat>, marks: seq<nat>)
    requires Sane(st, path, marks) && (|st.scopes| > 0 ==> !Opens(Top(st))) && IfBegun(st).Some?
    ensures var n := |st.blocks|;
      Sane(IfBegun(st).value, path + [n + 3, n], marks + [|path| - 1])
  {
    hide Sane, Way, Opens, Depth, Grown;
    SaneFacts(st, path, marks);
    var n, st1 := |st.blocks|, IfBegun(st).value;
    var extra, bs1, s, middle := [Fresh(st), Fresh(st)], st1.blocks, IfScope(st), BBranch(Range(|st.ops|, 0), n, n + 1);
    WrappedWay(st.blocks, extra, path, st.current, middle, |st.ops|);
    assert bs1[n + 1] == Fresh(st) && bs1[n] == Fresh(st) && bs1[n + 3] == middle;
    WaySnoc(bs1, path, n + 3);
    WaySnoc(bs1, path + [n + 3], n);
    DepthSnoc(bs1, path, n + 3);
    DepthSnoc(bs1, path + [n + 3], n);
    var path1 := path + [n + 3, n];
    assert path1 == path + [n + 3] + [n];
    assert path1[..|path| - 1] == path[..|path| - 1];
    OpenedKeeps(st, st1, extra, middle, s, path, marks, path1);
  }

  lemma EpilogueKeeps(st: State, implicitEnd: bool, path: seq<nat>, marks: seq<nat>)
    requires Sane(st, path, marks) && (|st.scopes| > 0 ==> !Opens(Top(st))) && EpilogueBegun(st, implicitEnd).Some?
    ensures var n := |st.blocks|;
      Sane(EpilogueBegun(st, implicitEnd).value, path + [n + 3, if implicitEnd then n + 1 else n], marks + [|path| - 1])
  {
    hide Sane, Way, Opens, Depth, Grown;
    SaneFacts(st, path, marks);
    var n, st1 := |st.blocks|, EpilogueBegun(st, implicitEnd).value;
    var extra, bs1, s, middle := [Fresh(st), Fresh(st)], st1.blocks, EpilogueScope(st, implicitEnd), BDefer(n, n + 1);
    var a := if implicitEnd then n + 1 else n;
    WrappedWay(st.blocks, extra, path, st.current, middle, |st.ops|);
    assert bs1[n + 1] == Fresh(st) && bs1[n] == Fresh(st) && bs1[n + 3] == middle;
    WaySnoc(bs1, path, n + 3);
    WaySnoc(bs1, path + [n + 3], a);
    DepthSnoc(bs1, path, n + 3);
    DepthSnoc(bs1, path + [n + 3], a);
    var path1 := path + [n + 3, a];
    assert path1 == path + [n + 3] + [a];
    assert path1[..|path| - 1] == path[..|path| - 1];
    OpenedKeeps(st, st1, extra, middle, s, path, marks, path1);
  }

  // ----- going on and closing -----

  /** Starting basic blocks changes nothing else. */
  lemma BeginKept(bs: seq<Block>, i: nat, n: nat)
    requires i < |bs| && bs[i].BBasic?
    ensures Kept(bs, Begin(bs, i, n), |bs|) && |Begin(bs, i, n)| == |bs|
    ensures Begin(bs, i, n)[i] == BBasic(Range(n, bs[i].ops.len))
    ensures forall k :: 0 <= k < |bs| && k != i ==> Begin(bs, i, n)[k] == bs[k]
  {
  }

  lemma KeptTwice(bs: seq<Block>, cs: seq<Block>, ds: seq<Block>)
    requires Kept(bs, cs, |cs|) && Kept(cs, ds, |ds|) && |bs| == |cs| == |ds|
    ensures Kept(bs, ds, |ds|)
  {
  }

  lemma EndedKept(st: State)
    requires |st.scopes| > 0 && Free(st.blocks, st.current, Top(st))
    ensures Kept(st.blocks, Ended(st).blocks, |Ended(st).blocks|)
  {
    hide Kept, WithStart;
    var s := Top(st);
    AfterWaits(s);
    var bs := st.blocks;
    if s.kind.SCOPE_IF? && s.phase.SCOPE_BODY? {
      SecondWaits(s);
      BeginKept(bs, s.second, |st.ops|);
      bs := Begin(bs, s.second, |st.ops|);
    } else {
      assert Kept(bs, bs, |bs|) by { KeptSame(bs); }
    }
    BeginKept(bs, s.after, |st.ops|);
    KeptTwice(st.blocks, bs, Begin(bs, s.after, |st.ops|));
  }

  lemma KeptSame(bs: seq<Block>)
    ensures Kept(bs, bs, |bs|)
  {
  }

  lemma SecondWaits(s: OpenScope)
    requires s.kind.SCOPE_IF? && !s.phase.SCOPE_ELSE_BODY?
    ensures s.second in Waiting(s)
  {
  }

  lemma EndedKeeps(st: State, path: seq<nat>, marks: seq<nat>, m: nat)
    requires Sane(st, path, marks) && |st.scopes| > 0 && m == marks[|marks| - 1]
    ensures m < |path| && Sane(Ended(st), path[..m + 1] + [Top(st).after], marks[..|marks| - 1])
  {
    hide ScopeOk, Way, Depth, Kept, Framed, Opens;
    var st1 := Ended(st);
    MarkInside(st.blocks, path, m, Top(st));
    EndedKept(st);
    AfterMeans(st.blocks, path, m, Top(st));
    WayBack(st, st1, path, marks);
    ClosedFramed(st, st1, path, marks, m, Top(st).after);
  }

  lemma ClosedFramed(st: State, st1: State, path: seq<nat>, marks: seq<nat>, m: nat, after: nat)
    requires |marks| > 0 && m == marks[|marks| - 1] && m + 2 < |path| && path[m] < |st.blocks| && st.blocks[path[m]].BMany?
    requires Way(st.blocks, path) && Framed(st.blocks, path, marks) && Kept(st.blocks, st1.blocks, |st1.blocks|)
    requires after < |st1.blocks| && st1.blocks[after].BBasic?
    ensures Framed(st1.blocks, path[..m + 1] + [after], marks[..|marks| - 1])
  {
    FramedStays(st.blocks, st1.blocks, path, marks, path[..m + 1] + [after], marks[..|marks| - 1], m + 1);
  }

  lemma {:induction false} ImplicitKeeps(st: State, path: seq<nat>, marks: seq<nat>) returns (path1: seq<nat>, marks1: seq<nat>)
    requires Sane(st, path, marks)
    ensures Sane(ImplicitEnded(st), path1, marks1)
    decreases |st.scopes|
  {
    hide Sane, Ended, ImplicitBody;
    path1, marks1 := path, marks;
    if |st.scopes| > 0 && ImplicitBody(Top(st)) {
      MarksCount(st, path, marks);
      var m := marks[|marks| - 1];
      EndedKeeps(st, path, marks, m);
      EndedShorter(st);
      path1, marks1 := ImplicitKeeps(Ended(st), path[..m + 1] + [Top(st).after], marks[..|marks| - 1]);
    }
  }

  lemma MarksCount(st: State, path: seq<nat>, marks: seq<nat>)
    requires Sane(st, path, marks)
    ensures |marks| == |st.scopes|
  {
  }

  lemma EndedShorter(st: State)
    requires |st.scopes| > 0
    ensures |Ended(st).scopes| == |st.scopes| - 1
  {
  }

  lemma ArmIsBasic(st: State, path: seq<nat>, marks: seq<nat>, k: nat, b: nat)
    requires ScopesOk(st, path, marks) && k < |marks| && b in Waiting(st.scopes[k])
    ensures b < |st.blocks| && st.blocks[b].BBasic?
  {
    assert Free(st.blocks, st.current, st.scopes[k]);
  }

  lemma KeptBasic(bs: seq<Block>, cs: seq<Block>, b: nat)
    requires Kept(bs, cs, |cs|) && b < |bs| && bs[b].BBasic?
    ensures b < |cs| && cs[b].BBasic?
  {
  }

  /** The innermost scope goes on in another of its children. */
  lemma SwitchedKeeps(st: State, st1: State, path: seq<nat>, marks: seq<nat>, m: nat, s: OpenScope, t: OpenScope)
    requires Sane(st, path, marks) && |st.scopes| > 0 && m == marks[|marks| - 1] && s == Top(st)
    requires st1.scopes == st.scopes[|st.scopes| - 1 := t] && Kept(st.blocks, st1.blocks, |st1.blocks|)
    requires ScopeOk(st.blocks, path, m, s) && t.kind == s.kind && PhaseOk(t) && Arm(t) == st1.current
    requires t.block == s.block && t.first == s.first && t.second == s.second && t.after == s.after && t.parentDepth == s.parentDepth
    requires s.kind.SCOPE_IF? || s.kind.SCOPE_EPILOGUE?
    requires (forall w :: w in Waiting(t) ==> w in Waiting(s)) && Alone(t)
    requires st1.current in Waiting(s) && st1.current !in Waiting(t) && (st1.current == s.first || st1.current == s.second)
    requires st1.depth == s.parentDepth + (if s.kind.SCOPE_IF? then 1 else 2)
    ensures m + 2 < |path| && Sane(st1, path[..m + 2] + [st1.current], marks)
  {
    hide Depth, Framed, Opens, Waiting, Alone, Grown;
    var path1 := path[..m + 2] + [st1.current];
    ArmIsBasic(st, path, marks, |marks| - 1, st1.current);
    KeptBasic(st.blocks, st1.blocks, st1.current);
    ArmWay(st.blocks, st1.blocks, path, m, s, st1.current);
    DepthStays(st.blocks, st1.blocks, path, m);
    assert path1[..m] == path[..m] && path1[..m + 2] == path[..m + 2];
    assert Child(st.blocks, path[m], path[m + 1]) && Child(st.blocks, s.block, s.first);
    KindStays(st.blocks, st1.blocks, path[m], path[m + 1]);
    KindStays(st.blocks, st1.blocks, s.block, s.first);
    ChildStays(st.blocks, st1.blocks, path[m], s.after);
    Switched(st, st1, path, marks, path1, m, s, t);
    assert Framed(st1.blocks, path1, marks) by {
      FramedStays(st.blocks, st1.blocks, path, marks, path1, marks, m + 2);
    }
  }

  lemma TopOk(st: State, path: seq<nat>, marks: seq<nat>)
    requires ScopesOk(st, path, marks) && |st.scopes| > 0
    ensures |marks| > 0 && ScopeOk(st.blocks, path, marks[|marks| - 1], Top(st)) && Alone(Top(st)) && PhaseOk(Top(st))
    ensures Free(st.blocks, st.current, Top(st))
  {
  }

  /** ELSE and FINALLY. */
  lemma SecondKeeps(st: State, phase: Phase, path: seq<nat>, marks: seq<nat>, m: nat)
    requires Sane(st, path, marks) && |st.scopes| > 0 && m == marks[|marks| - 1] && Top(st).phase.SCOPE_BODY?
    requires (Top(st).kind.SCOPE_IF? && phase.SCOPE_ELSE_BODY?) || (Top(st).kind.SCOPE_EPILOGUE? && !Top(st).implicitEnd && phase.SCOPE_CLEANUP?)
    ensures m + 2 < |path| && Sane(SecondBegun(st, phase), path[..m + 2] + [Top(st).second], marks)
  {
    hide Sane, ScopesOk, ScopeOk, Way, Framed, Settled, Kept, WithStart;
    SaneParts(st, path, marks);
    TopOk(st, path, marks);
    var s := Top(st);
    assert Waiting(s) == [s.after, s.second] && Waiting(s)[1] == s.second;
    ArmIsBasic(st, path, marks, |marks| - 1, s.second);
    BeginKept(st.blocks, s.second, |st.ops|);
    SwitchedKeeps(st, SecondBegun(st, phase), path, marks, m, s, s.(phase := phase));
  }

  lemma SaneParts(st: State, path: seq<nat>, marks: seq<nat>)
    requires Sane(st, path, marks)
    ensures ScopesOk(st, path, marks) && Way(st.blocks, path) && |marks| == |st.scopes|
  {
  }

  // ----- staying where it stands -----

  /** Only ranges of operations and the phase of the innermost scope change. */
  lemma RephasedKeeps(st: State, st1: State, path: seq<nat>, marks: seq<nat>, m: nat, s: OpenScope, t: OpenScope)
    requires Sane(st, path, marks) && |st.scopes| > 0 && m == marks[|marks| - 1] && s == Top(st)
    requires st1.scopes == st.scopes[|st.scopes| - 1 := t] && Kept(st.blocks, st1.blocks, |st1.blocks|)
    requires st1.current == st.current && st1.depth == st.depth
    requires PhaseOk(t) && t == s.(phase := t.phase, delimiterDepth := t.delimiterDepth) && Arm(t) == Arm(s) && Waiting(t) == Waiting(s)
    ensures Sane(st1, path, marks)
  {
    hide Depth, Framed, Opens, Waiting, Alone, Grown, Arm, PhaseOk, Way, Free, Apart, InChain;
    TopOk(st, path, marks);
    ScopeStays(st.blocks, st1.blocks, path, path, m, s);
    assert ScopeOk(st1.blocks, path, m, t);
    Rephased(st, st1, path, marks);
    assert Framed(st1.blocks, path, marks) by { SameFramed(st, st1, path, marks); }
  }

  lemma SameFramed(st: State, st1: State, path: seq<nat>, marks: seq<nat>)
    requires Sane(st, path, marks) && Kept(st.blocks, st1.blocks, |st1.blocks|) && st1.current == st.current
    ensures Framed(st1.blocks, path, marks)
  {
    var n: nat := |path| - 1;
    FramedStays(st.blocks, st1.blocks, path, marks, path, marks, n);
  }

  lemma TouchedKeeps(st: State, st1: State, path: seq<nat>, marks: seq<nat>)
    requires Sane(st, path, marks) && Kept(st.blocks, st1.blocks, |st1.blocks|)
    requires st1.current == st.current && st1.depth == st.depth && st1.scopes == st.scopes
    ensures Sane(st1, path, marks)
  {
    hide ScopeOk, Waiting, Way, Depth, Framed, ScopesOk;
    Touched(st, st1, path, marks);
    SameFramed(st, st1, path, marks);
  }

  lemma EmittedKeeps(st: State, op: Op, path: seq<nat>, marks: seq<nat>)
    requires Sane(st, path, marks)
    ensures Emitted(st, op).Some? && Sane(Emitted(st, op).value, path, marks)
  {
    hide ScopesOk, Way, Framed, Depth;
    TouchedKeeps(st, Emitted(st, op).value, path, marks);
  }

  // ----- parentheses -----

  /** The two uses of parentheses that upset the frontend: a variable declared in the
      condition of an IF, and a prefix DEFER whose cleanup changed the depth count. */
  predicate Spoils(st: State, w: Token) {
    w.WClose? && |st.scopes| > 0 && Top(st).delimiterDepth == 1
    && (Top(st).kind.SCOPE_IF? ==> !(Top(st).first < |st.blocks| && st.blocks[Top(st).first].BBasic?))
    && (!Top(st).kind.SCOPE_IF? ==> st.depth != Top(st).parentDepth + 2)
  }

  lemma DelimitedKeeps(st: State, opening: bool, path: seq<nat>, marks: seq<nat>) returns (path1: seq<nat>)
    requires Sane(st, path, marks) && Delimited(st, opening).Some? && !Spoils(st, if opening then WOpen else WClose)
    ensures Sane(Delimited(st, opening).value, path1, marks)
  {
    hide Sane, ScopesOk, ScopeOk, Way, Framed, Settled, Kept, WithStart, Free, Alone;
    path1 := path;
    if |st.scopes| > 0 {
      SaneParts(st, path, marks);
      TopOk(st, path, marks);
      var s, st1, m := Top(st), Delimited(st, opening).value, marks[|marks| - 1];
      KeptSame(st.blocks);
      if !Waits(s) && s.delimiterDepth == 1 && !opening {
        if s.kind.SCOPE_IF? {
          ConditionCloses(st, path, marks, m);
        } else {
          CleanupCloses(st, path, marks, m);
          path1 := path[..m + 2] + [s.first];
        }
      } else if Waits(s) || s.delimiterDepth > 0 {
        RephasedKeeps(st, st1, path, marks, m, s, Top(st1));
      }
    }
  }

  lemma ConditionCloses(st: State, path: seq<nat>, marks: seq<nat>, m: nat)
    requires Sane(st, path, marks) && |st.scopes| > 0 && m == marks[|marks| - 1] && !Spoils(st, WClose)
    requires Top(st).kind.SCOPE_IF? && Top(st).delimiterDepth == 1 && !Waits(Top(st))
    ensures Delimited(st, false).Some? && Sane(Delimited(st, false).value, path, marks)
  {
    hide Sane, ScopesOk, Way, Framed, Settled, Kept, WithStart, Free, Alone;
    SaneParts(st, path, marks);
    TopOk(st, path, marks);
    var s, st1 := Top(st), Delimited(st, false).value;
    LeafEndsWay(st.blocks, path, m + 2);
    var bs := st.blocks[s.block := ConditionEnded(st.blocks[s.block], |st.ops|)];
    assert Kept(st.blocks, bs, |bs|) by { ConditionKept(st.blocks, s.block, |st.ops|); }
    BeginKept(bs, s.first, |st.ops|);
    KeptTwice(st.blocks, bs, st1.blocks);
    SaneCurrent(st, path, marks);
    RephasedKeeps(st, st1, path, marks, m, s, Top(st1));
  }

  lemma SaneCurrent(st: State, path: seq<nat>, marks: seq<nat>)
    requires Sane(st, path, marks)
    ensures |path| > 0 && path[|path| - 1] == st.current < |st.blocks| && st.blocks[st.current].BBasic?
  {
  }

  lemma ConditionKept(bs: seq<Block>, i: nat, n: nat)
    requires i < |bs| && bs[i].BBranch?
    ensures Kept(bs, bs[i := ConditionEnded(bs[i], n)], |bs|)
  {
  }

  lemma LeafEndsWay(bs: seq<Block>, path: seq<nat>, i: nat)
    requires Way(bs, path) && i < |path| && path[i] < |bs| && bs[path[i]].BBasic?
    ensures i == |path| - 1
  {
    hide Way;
    if i < |path| - 1 { WayGoesOn(bs, path, i); }
  }

  lemma WayGoesOn(bs: seq<Block>, path: seq<nat>, i: nat)
    requires Way(bs, path) && i < |path| - 1
    ensures path[i] < |bs| && !bs[path[i]].BBasic?
  {
    assert Child(bs, path[i], path[i + 1]);
  }

  lemma CleanupCloses(st: State, path: seq<nat>, marks: seq<nat>, m: nat)
    requires Sane(st, path, marks) && |st.scopes| > 0 && m == marks[|marks| - 1] && !Spoils(st, WClose)
    requires Top(st).kind.SCOPE_EPILOGUE? && Top(st).delimiterDepth == 1 && !Waits(Top(st))
    ensures Delimited(st, false).Some? && m + 2 < |path| && Sane(Delimited(st, false).value, path[..m + 2] + [Top(st).first], marks)
  {
    hide Sane, ScopesOk, ScopeOk, Way, Framed, Settled, Kept, WithStart;
    SaneParts(st, path, marks);
    TopOk(st, path, marks);
    var s := Top(st);
    assert Waiting(s) == [s.after, s.first] && Waiting(s)[1] == s.first;
    ArmIsBasic(st, path, marks, |marks| - 1, s.first);
    BeginKept(st.blocks, s.first, |st.ops|);
    SwitchedKeeps(st, Delimited(st, false).value, path, marks, m, s, s.(delimiterDepth := 0, phase := SCOPE_BODY));
  }

  // ----- going on below, with no new scope -----

  lemma ExtendedKeeps(st: State, st1: State, path: seq<nat>, marks: seq<nat>, path1: seq<nat>)
    requires Sane(st, path, marks) && Kept(st.blocks, st1.blocks, st.current) && st1.scopes == st.scopes
    requires path < path1 && Way(st1.blocks, path1) && path1[|path1| - 1] == st1.current < |st1.blocks| && st1.current >= |st.blocks|
    requires st1.blocks[st1.current].BBasic? && st1.depth == Depth(st1.blocks, path1)
    requires forall i :: |path| - 1 <= i < |path1| && path1[i] < |st1.blocks| ==> !Scoped(st1.blocks[path1[i]])
    ensures Sane(st1, path1, marks)
  {
    hide ScopeOk, Waiting, Depth, Free, Alone, Apart;
    Extended(st, st1, path, marks, path1);
    var n: nat := |path| - 1;
    FramedStays(st.blocks, st1.blocks, path, marks, path1, marks, n);
  }

  lemma VarKeeps(st: State, tid: nat, name: string, ntypes: nat, path: seq<nat>, marks: seq<nat>)
    requires Sane(st, path, marks) && VarDeclared(st, tid, name, ntypes).Some?
    ensures var n := |st.blocks|; Sane(VarDeclared(st, tid, name, ntypes).value, path + [n + 1, n + 3], marks)
  {
    hide Framed, Settled, Depth, Named, ScopesOk;
    var n, st1 := |st.blocks|, VarDeclared(st, tid, name, ntypes).value;
    var bs, bs1 := st.blocks, st1.blocks;
    assert bs1[n + 1] == BVar(|st.vars|, n + 3) && bs1[n + 3] == Fresh(st) && bs1[st.current] == BMany(n, n + 2);
    assert InChain(bs1, n + 2, n + 1, 2);
    assert Kept(bs, bs1, st.current);
    WayStays(bs, bs1, path);
    DepthStays(bs, bs1, path, |path| - 1);
    assert path == path[..|path| - 1] + [st.current];
    DepthSnoc(bs, path[..|path| - 1], st.current);
    DepthSnoc(bs1, path[..|path| - 1], st.current);
    WaySnoc(bs1, path, n + 1);
    WaySnoc(bs1, path + [n + 1], n + 3);
    DepthSnoc(bs1, path, n + 1);
    DepthSnoc(bs1, path + [n + 1], n + 3);
    assert path + [n + 1, n + 3] == path + [n + 1] + [n + 3];
    ExtendedKeeps(st, st1, path, marks, path + [n + 1, n + 3]);
  }
}
