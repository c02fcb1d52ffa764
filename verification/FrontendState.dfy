/** What the frontend knows about the blocks it is building: the way from the root to the block
    under construction, and the control structures that are open on it. */
module FrontendState {
  import opened Ir
  import opened FlatBlocks

  datatype ScopeKind = SCOPE_LOOP | SCOPE_IF | SCOPE_EPILOGUE

  datatype Phase = SCOPE_BODY | SCOPE_WAIT_OPEN | SCOPE_CONDITION | SCOPE_ELSE_BODY | SCOPE_CLEANUP | SCOPE_CLEANUP_WAIT_OPEN

  datatype OpenScope = OpenScope(
    kind: ScopeKind, phase: Phase, block: nat, first: nat, second: nat, after: nat,
    parentDepth: nat, breakDepth: nat, continueDepth: nat, delimiterDepth: nat, implicitEnd: bool)

  // ----- the way to a block -----

  /** The sequences the frontend builds have at most three children. */
  predicate InChain(bs: seq<Block>, next: nat, b: nat, links: nat)
    decreases links
  {
    links > 0 && next < |bs| && bs[next].BChain? && (b == bs[next].cur || InChain(bs, bs[next].next, b, links - 1))
  }

  predicate Child(bs: seq<Block>, a: nat, b: nat) {
    a < |bs| &&
    match bs[a]
    case BMany(cur, next) => b == cur || InChain(bs, next, b, 2)
    case BLoop(body) => b == body
    case BVar(_, body) => b == body
    case BBranch(_, yes, no) => b == yes || b == no
    case BDefer(next, cleanup) => b == next || b == cleanup
    case _ => false
  }

  predicate Way(bs: seq<Block>, path: seq<nat>) {
    && |path| > 0 && path[0] == 0
    && forall i :: 0 <= i < |path| - 1 ==> Child(bs, path[i], path[i + 1])
  }

  /** What a break has to leave one level for; a DEFER becomes a MANY. */
  predicate Counted(b: Block) { b.BMany? || b.BVar? || b.BLoop? || b.BDefer? }

  /** How many blocks on the way are left one by one by breaks. */
  function Depth(bs: seq<Block>, anc: seq<nat>): nat {
    if |anc| == 0 then 0 else
    var last := anc[|anc| - 1];
    Depth(bs, anc[..|anc| - 1]) + (if last < |bs| && Counted(bs[last]) then 1 else 0)
  }

  /** The block that a break of this level leaves last, when it stands below `anc`. */
  function Target(bs: seq<Block>, anc: seq<nat>, level: nat): nat {
    if |anc| == 0 then 0 else
    var last := anc[|anc| - 1];
    if !(last < |bs| && Counted(bs[last])) then Target(bs, anc[..|anc| - 1], level)
    else if level <= 1 then last
    else Target(bs, anc[..|anc| - 1], level - 1)
  }

  lemma {:induction false} TargetIs(bs: seq<Block>, anc: seq<nat>, p: nat)
    requires p < |anc| && anc[p] < |bs| && Counted(bs[anc[p]])
    ensures Depth(bs, anc) > Depth(bs, anc[..p])
    ensures Target(bs, anc, Depth(bs, anc) - Depth(bs, anc[..p])) == anc[p]
    decreases |anc|
  {
    var front := anc[..|anc| - 1];
    if p == |anc| - 1 {
      assert anc[..p] == front;
    } else {
      assert front[..p] == anc[..p];
      TargetIs(bs, front, p);
    }
  }

  // ----- growing -----

  /** The same block, up to the condition of a branch. */
  predicate SameLinks(b: Block, c: Block) {
    c == b || (b.BBranch? && c.BBranch? && c.yes == b.yes && c.no == b.no)
  }

  /** Blocks were added, and only basic blocks were replaced. */
  predicate Grown(bs: seq<Block>, cs: seq<Block>) {
    |bs| <= |cs| && forall i :: 0 <= i < |bs| && !bs[i].BBasic? ==> SameLinks(bs[i], cs[i])
  }

  lemma ChildStays(bs: seq<Block>, cs: seq<Block>, a: nat, b: nat)
    requires Grown(bs, cs) && Child(bs, a, b)
    ensures Child(cs, a, b)
  {
    if bs[a].BMany? && b != bs[a].cur { ChainStays(bs, cs, bs[a].next, b, 2); }
  }

  lemma {:induction false} ChainStays(bs: seq<Block>, cs: seq<Block>, next: nat, b: nat, links: nat)
    requires Grown(bs, cs) && InChain(bs, next, b, links)
    ensures InChain(cs, next, b, links)
    decreases links
  {
    if b != bs[next].cur { ChainStays(bs, cs, bs[next].next, b, links - 1); }
  }

  lemma WayStays(bs: seq<Block>, cs: seq<Block>, path: seq<nat>)
    requires Grown(bs, cs) && Way(bs, path)
    ensures Way(cs, path)
  {
    forall i | 0 <= i < |path| - 1 ensures Child(cs, path[i], path[i + 1]) { ChildStays(bs, cs, path[i], path[i + 1]); }
  }

  /** Above a block, the way keeps its depth. */
  lemma {:induction false} DepthStays(bs: seq<Block>, cs: seq<Block>, path: seq<nat>, n: nat)
    requires Grown(bs, cs) && Way(bs, path) && n < |path|
    ensures Depth(cs, path[..n]) == Depth(bs, path[..n])
    decreases n
  {
    if n > 0 {
      assert path[..n][..n - 1] == path[..n - 1];
      DepthStays(bs, cs, path, n - 1);
      assert Child(bs, path[n - 1], path[n]);
    }
  }

  lemma DepthSnoc(bs: seq<Block>, anc: seq<nat>, b: nat)
    ensures Depth(bs, anc + [b]) == Depth(bs, anc) + (if b < |bs| && Counted(bs[b]) then 1 else 0)
  {
    assert (anc + [b])[..|anc|] == anc;
  }

  // ----- open scopes -----

  /** The child of its block that the scope is in. */
  function Arm(s: OpenScope): nat {
    match s.kind
    case SCOPE_LOOP => s.first
    case SCOPE_IF => if s.phase.SCOPE_ELSE_BODY? then s.second else s.first
    case SCOPE_EPILOGUE => if s.phase.SCOPE_BODY? then s.first else s.second
  }

  /** The basic blocks that the scope will go on with. */
  function Waiting(s: OpenScope): seq<nat> {
    [s.after] +
    match s.kind
    case SCOPE_LOOP => []
    case SCOPE_IF => if s.phase.SCOPE_ELSE_BODY? then [] else [s.second]
    case SCOPE_EPILOGUE =>
      if s.phase.SCOPE_BODY? then (if s.implicitEnd then [] else [s.second])
      else if s.implicitEnd then [s.first] else []
  }

  predicate PhaseOk(s: OpenScope) {
    match s.kind
    case SCOPE_LOOP => s.phase.SCOPE_BODY? && s.delimiterDepth == 0
    case SCOPE_IF =>
      && (s.phase.SCOPE_BODY? || s.phase.SCOPE_WAIT_OPEN? || s.phase.SCOPE_CONDITION? || s.phase.SCOPE_ELSE_BODY?)
      && (s.delimiterDepth > 0 <==> s.phase.SCOPE_CONDITION?)
    case SCOPE_EPILOGUE =>
      && (s.phase.SCOPE_BODY? || s.phase.SCOPE_CLEANUP? || (s.implicitEnd && s.phase.SCOPE_CLEANUP_WAIT_OPEN?))
      && (s.delimiterDepth > 0 <==> s.implicitEnd && s.phase.SCOPE_CLEANUP?)
  }

  /** The scope stands on the way: its MANY at m, its block behind it, then the arm it is in. */
  predicate ScopeOk(bs: seq<Block>, path: seq<nat>, m: nat, s: OpenScope) {
    && m + 2 < |path| && path[m] < |bs| && bs[path[m]].BMany? && path[m + 1] == s.block < |bs| && path[m + 2] == Arm(s)
    && s.parentDepth == Depth(bs, path[..m]) && Child(bs, path[m], s.after) && PhaseOk(s)
    && match s.kind
       case SCOPE_LOOP =>
         && bs[s.block] == BLoop(s.first) && s.first < |bs| && bs[s.first].BMany?
         && s.breakDepth == s.parentDepth + 2 && s.continueDepth == s.parentDepth + 3
       case SCOPE_IF => bs[s.block].BBranch? && bs[s.block].yes == s.first && bs[s.block].no == s.second
       case SCOPE_EPILOGUE => bs[s.block] == BDefer(s.first, s.second) && s.first != s.second
  }

  predicate Free(bs: seq<Block>, current: nat, s: OpenScope) {
    forall w :: w in Waiting(s) ==> w < |bs| && bs[w].BBasic? && w != current
  }

  predicate Apart(s: OpenScope, t: OpenScope) {
    forall w :: w in Waiting(s) ==> w !in Waiting(t)
  }

  predicate Alone(s: OpenScope) {
    |Waiting(s)| == 2 ==> Waiting(s)[0] != Waiting(s)[1]
  }

  datatype Declared = Declared(tid: nat, name: string)

  /** The state of the frontend, as values. */
  datatype State = State(
    blocks: seq<Block>, ops: seq<Op>, vars: seq<Declared>, scopes: seq<OpenScope>, current: nat, depth: nat)

  predicate ScopesOk(st: State, path: seq<nat>, marks: seq<nat>) {
    && |marks| == |st.scopes|
    && (forall k :: 0 <= k < |marks| ==> ScopeOk(st.blocks, path, marks[k], st.scopes[k]))
    && (forall j, k :: 0 <= j < k < |marks| ==> marks[j] + 2 <= marks[k])
    && (forall k :: 0 <= k < |marks| ==> Free(st.blocks, st.current, st.scopes[k]) && Alone(st.scopes[k]))
    && (forall j, k :: 0 <= j < |marks| && 0 <= k < |marks| && j != k ==> Apart(st.scopes[j], st.scopes[k]))
  }

  predicate Ok(st: State, path: seq<nat>, marks: seq<nat>) {
    && Way(st.blocks, path) && path[|path| - 1] == st.current < |st.blocks| && st.blocks[st.current].BBasic?
    && ScopesOk(st, path, marks)
    && st.depth == Depth(st.blocks, path)
  }

  /** Only the current basic block was replaced by something else; the others stay basic. */
  predicate Kept(bs: seq<Block>, cs: seq<Block>, current: nat) {
    && Grown(bs, cs)
    && forall i :: 0 <= i < |bs| && bs[i].BBasic? && i != current ==> cs[i].BBasic?
  }

  /** An open scope stays as it is while blocks are added below it. */
  lemma ScopeStays(bs: seq<Block>, cs: seq<Block>, path: seq<nat>, path1: seq<nat>, m: nat, s: OpenScope)
    requires Grown(bs, cs) && Way(bs, path) && ScopeOk(bs, path, m, s) && path <= path1
    ensures ScopeOk(cs, path1, m, s)
  {
    hide PhaseOk, InChain;
    ChildStays(bs, cs, path[m], s.after);
    DepthStays(bs, cs, path, m);
    assert path1[..m] == path[..m];
    assert Child(bs, path[m], path[m + 1]) && Child(bs, path[m + 1], path[m + 2]);
  }

  /** Going on at a new basic block below the current one. */
  lemma Extended(st: State, st1: State, path: seq<nat>, marks: seq<nat>, path1: seq<nat>)
    requires Way(st.blocks, path) && path[|path| - 1] == st.current && ScopesOk(st, path, marks)
    requires Kept(st.blocks, st1.blocks, st.current) && st1.scopes == st.scopes
    requires path <= path1 && Way(st1.blocks, path1) && st1.current >= |st.blocks|
    ensures ScopesOk(st1, path1, marks)
  {
    hide ScopeOk, Waiting, Way;
    forall k | 0 <= k < |marks|
      ensures ScopeOk(st1.blocks, path1, marks[k], st1.scopes[k])
    {
      ScopeStays(st.blocks, st1.blocks, path, path1, marks[k], st.scopes[k]);
    }
  }

  /** One more scope is opened, at the MANY that took the place of the current block. */
  lemma Opened(st: State, st1: State, path: seq<nat>, marks: seq<nat>, path1: seq<nat>, s: OpenScope)
    requires Way(st.blocks, path) && path[|path| - 1] == st.current && ScopesOk(st, path, marks)
    requires Kept(st.blocks, st1.blocks, st.current) && st1.scopes == st.scopes + [s]
    requires path <= path1 && Way(st1.blocks, path1) && st1.current >= |st.blocks|
    requires ScopeOk(st1.blocks, path1, |path| - 1, s) && Free(st1.blocks, st1.current, s) && Alone(s)
    requires forall w :: w in Waiting(s) ==> |st.blocks| <= w
    ensures ScopesOk(st1, path1, marks + [|path| - 1])
  {
    hide ScopeOk, Waiting, Way;
    Extended(st, st1.(scopes := st.scopes), path, marks, path1);
    forall k | 0 <= k < |marks| ensures marks[k] + 2 <= |path| - 1 { MarkInside(st.blocks, path, marks[k], st.scopes[k]); }
  }

  lemma MarkInside(bs: seq<Block>, path: seq<nat>, m: nat, s: OpenScope)
    requires ScopeOk(bs, path, m, s)
    ensures m + 2 <= |path| - 1
  {
  }

  /** Going on in another child of the innermost scope, whose waiting block it was. */
  lemma Switched(st: State, st1: State, path: seq<nat>, marks: seq<nat>, path1: seq<nat>, m: nat, s: OpenScope, t: OpenScope)
    requires |st.scopes| == |marks| > 0 && m == marks[|marks| - 1] && s == st.scopes[|marks| - 1]
    requires st1.scopes == st.scopes[|marks| - 1 := t]
    requires m + 2 <= |path1| && m + 2 <= |path| && path1[..m + 2] == path[..m + 2]
    requires Way(st.blocks, path) && ScopesOk(st, path, marks)
    requires Kept(st.blocks, st1.blocks, |st1.blocks|) && ScopeOk(st1.blocks, path1, m, t)
    requires (forall w :: w in Waiting(t) ==> w in Waiting(s)) && Alone(t)
    requires st1.current in Waiting(s) && st1.current !in Waiting(t)
    ensures ScopesOk(st1, path1, marks)
  {
    hide ScopeOk, Waiting, Way;
    var n := |marks| - 1;
    MarkInside(st.blocks, path, m, s);
    assert path1[..m + 1] == path1[..m + 2][..m + 1] == path[..m + 2][..m + 1] == path[..m + 1];
    forall k | 0 <= k < n ensures ScopeOk(st1.blocks, path1, marks[k], st1.scopes[k]) {
      ScopeShorter(st.blocks, st1.blocks, path, path1, marks[k], st.scopes[k], m);
    }
  }

  /** The same when only the way down to an inner scope is kept. */
  lemma ScopeShorter(bs: seq<Block>, cs: seq<Block>, path: seq<nat>, path1: seq<nat>, m: nat, s: OpenScope, n: nat)
    requires Grown(bs, cs) && Way(bs, path) && ScopeOk(bs, path, m, s) && m + 2 <= n < |path|
    requires n < |path1| && path1[..n + 1] == path[..n + 1]
    ensures ScopeOk(cs, path1, m, s)
  {
    hide PhaseOk, InChain;
    assert path1[m] == path1[..n + 1][m] && path1[m + 1] == path1[..n + 1][m + 1] && path1[m + 2] == path1[..n + 1][m + 2];
    ChildStays(bs, cs, path[m], s.after);
    DepthStays(bs, cs, path, m);
    assert path1[..m] == path1[..n + 1][..m] == path[..m];
    assert Child(bs, path[m], path[m + 1]) && Child(bs, path[m + 1], path[m + 2]);
  }

  /** Closing the innermost scope: going on at the block behind it. */
  lemma WayBack(st: State, st1: State, path: seq<nat>, marks: seq<nat>)
    requires Way(st.blocks, path) && ScopesOk(st, path, marks) && |marks| > 0
    requires Kept(st.blocks, st1.blocks, |st1.blocks|) && st1.scopes == st.scopes[..|st.scopes| - 1]
    requires st1.current == st.scopes[|st.scopes| - 1].after
    requires st1.depth == st.scopes[|st.scopes| - 1].parentDepth + 1
    ensures Ok(st1, path[..marks[|marks| - 1] + 1] + [st1.current], marks[..|marks| - 1])
  {
    hide ScopeOk, InChain, Way, Depth, Waiting;
    var n := |marks| - 1;
    var m, s := marks[n], st.scopes[n];
    AfterMeans(st.blocks, path, m, s);
    var path1 := path[..m + 1] + [s.after];
    assert s.after in Waiting(s) by { AfterWaits(s); }
    TurnOff(st.blocks, st1.blocks, path, m, s.after);
    forall k | 0 <= k < n ensures ScopeOk(st1.blocks, path1, marks[k], st1.scopes[k]) {
      assert path1[..m + 1] == path[..m + 1];
      ScopeShorter(st.blocks, st1.blocks, path, path1, marks[k], st.scopes[k], m);
    }
  }

  lemma AfterWaits(s: OpenScope)
    ensures s.after in Waiting(s)
  {
  }

  /** Leaving the way at block m for another of its children. */
  lemma TurnOff(bs: seq<Block>, cs: seq<Block>, path: seq<nat>, m: nat, next: nat)
    requires Grown(bs, cs) && Way(bs, path) && m + 1 < |path| && path[m] < |bs| && bs[path[m]].BMany? && Child(bs, path[m], next)
    requires next < |cs| && cs[next].BBasic?
    ensures Way(cs, path[..m + 1] + [next]) && Depth(cs, path[..m + 1] + [next]) == Depth(bs, path[..m]) + 1
  {
    hide Grown, Child;
    var path1 := path[..m + 1] + [next];
    forall i | 0 <= i < |path1| - 1 ensures Child(cs, path1[i], path1[i + 1]) {
      if i < m {
        assert Child(bs, path[i], path[i + 1]);
        ChildStays(bs, cs, path[i], path[i + 1]);
      } else {
        ChildStays(bs, cs, path[m], next);
      }
    }
    DepthStays(bs, cs, path, m);
    ManyStays(bs, cs, path[m]);
    assert path[..m + 1] == path[..m] + [path[m]];
    DepthSnoc(cs, path[..m], path[m]);
    DepthSnoc(cs, path[..m + 1], next);
  }

  lemma ManyStays(bs: seq<Block>, cs: seq<Block>, b: nat)
    requires Grown(bs, cs) && b < |bs| && bs[b].BMany?
    ensures b < |cs| && cs[b] == bs[b]
  {
  }

  lemma AfterMeans(bs: seq<Block>, path: seq<nat>, m: nat, s: OpenScope)
    requires ScopeOk(bs, path, m, s)
    ensures m + 2 < |path| && path[m] < |bs| && bs[path[m]].BMany? && Child(bs, path[m], s.after) && s.parentDepth == Depth(bs, path[..m])
  {
  }

  lemma WaySnoc(bs: seq<Block>, path: seq<nat>, b: nat)
    requires Way(bs, path) && Child(bs, path[|path| - 1], b)
    ensures Way(bs, path + [b])
  {
  }

  /** The way to another child of the block of a scope. */
  lemma ArmWay(bs: seq<Block>, cs: seq<Block>, path: seq<nat>, m: nat, s: OpenScope, arm: nat)
    requires Grown(bs, cs) && Way(bs, path) && ScopeOk(bs, path, m, s) && Child(bs, s.block, arm) && arm < |cs| && cs[arm].BBasic?
    ensures Way(cs, path[..m + 2] + [arm])
    ensures Depth(cs, path[..m + 2] + [arm]) == s.parentDepth + 1 + (if Counted(bs[s.block]) then 1 else 0)
  {
    hide PhaseOk, InChain, Grown, Depth;
    var path1 := path[..m + 2] + [arm];
    forall i | 0 <= i < |path1| - 1 ensures Child(cs, path1[i], path1[i + 1]) {
      if i < m + 1 {
        assert Child(bs, path[i], path[i + 1]);
        ChildStays(bs, cs, path[i], path[i + 1]);
      } else {
        ChildStays(bs, cs, s.block, arm);
      }
    }
    DepthStays(bs, cs, path, m);
    ManyStays(bs, cs, path[m]);
    assert Child(bs, s.block, arm);
    CountStays(bs, cs, s.block, arm);
    assert path[..m + 1] == path[..m] + [path[m]] && path[..m + 2] == path[..m + 1] + [s.block];
    DepthSnoc(cs, path[..m], path[m]);
    DepthSnoc(cs, path[..m + 1], s.block);
    DepthSnoc(cs, path[..m + 2], arm);
  }

  lemma CountStays(bs: seq<Block>, cs: seq<Block>, a: nat, b: nat)
    requires Grown(bs, cs) && Child(bs, a, b)
    ensures a < |bs| && a < |cs| && Counted(cs[a]) == Counted(bs[a])
  {
  }

  /** The innermost scope changes its phase where it stands. */
  lemma Rephased(st: State, st1: State, path: seq<nat>, marks: seq<nat>)
    requires Ok(st, path, marks) && |marks| > 0
    requires Kept(st.blocks, st1.blocks, |st1.blocks|) && st1.current == st.current && st1.depth == st.depth
    requires |st1.scopes| == |st.scopes| && forall k :: 0 <= k < |marks| - 1 ==> st1.scopes[k] == st.scopes[k]
    requires var k := |marks| - 1;
      ScopeOk(st1.blocks, path, marks[k], st1.scopes[k]) && Waiting(st1.scopes[k]) == Waiting(st.scopes[k])
    ensures Ok(st1, path, marks)
  {
    hide ScopeOk, Waiting, Way, Depth;
    WayStays(st.blocks, st1.blocks, path);
    WholeDepthStays(st.blocks, st1.blocks, path, st.current);
    forall k | 0 <= k < |marks| ensures ScopeOk(st1.blocks, path, marks[k], st1.scopes[k]) {
      if k < |marks| - 1 { ScopeStays(st.blocks, st1.blocks, path, path, marks[k], st.scopes[k]); }
    }
  }

  lemma WholeDepthStays(bs: seq<Block>, cs: seq<Block>, path: seq<nat>, current: nat)
    requires Grown(bs, cs) && Way(bs, path) && path[|path| - 1] == current < |bs| && bs[current].BBasic? && cs[current].BBasic?
    ensures Depth(cs, path) == Depth(bs, path)
    ensures Depth(bs, path[..|path| - 1]) == Depth(bs, path)
  {
    DepthStays(bs, cs, path, |path| - 1);
    assert path == path[..|path| - 1] + [current];
    DepthSnoc(bs, path[..|path| - 1], current);
    DepthSnoc(cs, path[..|path| - 1], current);
  }

  /** Only ranges of operations were written. */
  lemma Touched(st: State, st1: State, path: seq<nat>, marks: seq<nat>)
    requires Ok(st, path, marks)
    requires Kept(st.blocks, st1.blocks, |st1.blocks|) && st1.current == st.current && st1.depth == st.depth && st1.scopes == st.scopes
    ensures Ok(st1, path, marks)
  {
    hide ScopeOk, Waiting, Way, Depth;
    WayStays(st.blocks, st1.blocks, path);
    WholeDepthStays(st.blocks, st1.blocks, path, st.current);
    forall k | 0 <= k < |marks| ensures ScopeOk(st1.blocks, path, marks[k], st1.scopes[k]) {
      ScopeStays(st.blocks, st1.blocks, path, path, marks[k], st.scopes[k]);
    }
  }

  // ----- splicing a block in -----

  /** The current basic block becomes: the old basic block, the new block, a new basic block. */
  function Wrapped(bs: seq<Block>, slot: nat, middle: Block, nops: nat): (r: seq<Block>)
    requires slot < |bs|
    ensures |r| == |bs| + 5
  {
    var n := |bs|;
    bs[slot := BMany(n, n + 2)]
    + [bs[slot], middle, BChain(n + 1, n + 4), BBasic(Range(nops, 0)), BChain(n + 3, INVALID)]
  }

  /** After splicing, the new block and the basic block behind it are reached, one level deeper. */
  lemma WrappedWay(bs: seq<Block>, extra: seq<Block>, path: seq<nat>, slot: nat, middle: Block, nops: nat)
    requires Way(bs, path) && path[|path| - 1] == slot < |bs| && bs[slot].BBasic?
    ensures var ws := Wrapped(bs + extra, slot, middle, nops);
      var n := |bs + extra|;
      && Kept(bs, ws, slot) && Way(ws, path) && ws[slot] == BMany(n, n + 2)
      && Child(ws, slot, n + 1) && Child(ws, slot, n + 3) && ws[n + 1] == middle && ws[n + 3] == BBasic(Range(nops, 0))
      && Depth(ws, path[..|path| - 1]) == Depth(bs, path) && Depth(ws, path) == Depth(bs, path) + 1
  {
    hide Depth;
    var ws, n := Wrapped(bs + extra, slot, middle, nops), |bs + extra|;
    assert InChain(ws, n + 4, n + 3, 1);
    assert InChain(ws, n + 2, n + 3, 2);
    WayBelow(bs, ws, path);
    DepthStays(bs, ws, path, |path| - 1);
    assert path == path[..|path| - 1] + [slot];
    DepthSnoc(bs, path[..|path| - 1], slot);
    DepthSnoc(ws, path[..|path| - 1], slot);
  }

  lemma WayBelow(bs: seq<Block>, cs: seq<Block>, path: seq<nat>)
    requires Grown(bs, cs) && Way(bs, path)
    ensures Way(cs, path)
  {
    WayStays(bs, cs, path);
  }
}
