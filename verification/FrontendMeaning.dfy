/** Sources built from operations, IF, LOOP, START and the jumps: the blocks the frontend
    builds for them stand for the tree one reads off the source. */
module FrontendMeaning {
  import opened Memory
  import opened Ir
  import opened FlatBlocks
  import opened FrontendState
  import opened FrontendSteps
  import opened FrontendShape
  import opened FrontendOps

  /** A source, statement by statement. */
  datatype Source =
    | Stop
    | Do(op: Op, rest: Source)
    | Repeat(body: Source, rest: Source)
    | Choose(cond: seq<Op>, yes: Source, no: Source, rest: Source)
    | Guard(body: Source, cleanup: Source, rest: Source)
    | Jump(again: bool, rest: Source)

  function OpWords(ops: seq<Op>): (ws: seq<Token>)
    ensures |ws| == |ops| && forall k :: 0 <= k < |ops| ==> ws[k] == WOp(ops[k])
  {
    seq(|ops|, k requires 0 <= k < |ops| => WOp(ops[k]))
  }

  /** The words it is written with; an ELSE with nothing behind it is left out. */
  function Words(s: Source): seq<Token> {
    match s
    case Stop => []
    case Do(op, rest) => [WOp(op)] + Words(rest)
    case Repeat(body, rest) => [WLoop] + (Words(body) + ([WAgain] + Words(rest)))
    case Choose(cond, yes, no, rest) =>
      [WIf] + ([WOpen] + (OpWords(cond) + ([WClose] + (Words(yes) + ((if no.Stop? then [] else [WElse] + Words(no)) + ([WDone] + Words(rest)))))))
    case Guard(body, cleanup, rest) => [WStart] + (Words(body) + ([WFinally] + (Words(cleanup) + ([WEnd] + Words(rest)))))
    case Jump(again, rest) => [if again then WContinue else WBreak] + Words(rest)
  }

  /** The depths that BREAK and CONTINUE aim at. */
  datatype Targets = NoLoop | InLoop(breakDepth: nat, continueDepth: nat)

  function Three(ops: seq<Op>, middle: Tree, rest: Tree): Tree { Many(Link(Basic(ops), Link(middle, Link(rest, End)))) }

  function Level(again: bool, depth: nat, loop: Targets): nat {
    if loop.NoLoop? then 0 else
    var target := if again then loop.continueDepth else loop.breakDepth;
    if target <= depth + 1 then depth + 2 - target else 0
  }

  /** The tree of a source that goes on behind the given operations. */
  function TreeOf(s: Source, ops: seq<Op>, depth: nat, loop: Targets): Tree
    decreases s
  {
    match s
    case Stop => Basic(ops)
    case Do(op, rest) => TreeOf(rest, ops + [op], depth, loop)
    case Repeat(body, rest) =>
      Three(ops, Loop(Many(Link(TreeOf(body, [], depth + 3, InLoop(depth + 2, depth + 3)), End))), TreeOf(rest, [], depth + 1, loop))
    case Choose(cond, yes, no, rest) =>
      Three(ops, Branch(cond, TreeOf(yes, [], depth + 1, loop), TreeOf(no, [], depth + 1, loop)), TreeOf(rest, [], depth + 1, loop))
    case Guard(body, cleanup, rest) =>
      Three(ops, Defer(TreeOf(body, [], depth + 2, loop), TreeOf(cleanup, [], depth + 2, NoLoop)), TreeOf(rest, [], depth + 1, loop))
    case Jump(again, rest) => Three(ops, Break(Level(again, depth, loop)), TreeOf(rest, [], depth + 1, loop))
  }

  /** Jumps stand in loops. */
  predicate Legal(s: Source, inLoop: bool) {
    match s
    case Stop => true
    case Do(_, rest) => Legal(rest, inLoop)
    case Repeat(body, rest) => Legal(body, true) && Legal(rest, inLoop)
    case Choose(_, yes, no, rest) => Legal(yes, inLoop) && Legal(no, inLoop) && Legal(rest, inLoop)
    case Guard(body, cleanup, rest) => Legal(body, inLoop) && Legal(cleanup, false) && Legal(rest, inLoop)
    case Jump(_, rest) => inLoop && Legal(rest, inLoop)
  }

  /** How many blocks it takes. */
  function Cost(s: Source): nat {
    match s
    case Stop => 0
    case Do(_, rest) => Cost(rest)
    case Repeat(body, rest) => 7 + Cost(body) + Cost(rest)
    case Choose(_, yes, no, rest) => 7 + Cost(yes) + Cost(no) + Cost(rest)
    case Guard(body, cleanup, rest) => 7 + Cost(body) + Cost(cleanup) + Cost(rest)
    case Jump(_, rest) => 5 + Cost(rest)
  }

  function OpsIn(s: Source): seq<Op> {
    match s
    case Stop => []
    case Do(op, rest) => [op] + OpsIn(rest)
    case Repeat(body, rest) => OpsIn(body) + OpsIn(rest)
    case Choose(cond, yes, no, rest) => cond + OpsIn(yes) + OpsIn(no) + OpsIn(rest)
    case Guard(body, cleanup, rest) => OpsIn(body) + OpsIn(cleanup) + OpsIn(rest)
    case Jump(_, rest) => OpsIn(rest)
  }

  // ----- feeding -----

  lemma {:induction false} FeedConcat(st: State, a: seq<Token>, b: seq<Token>, ntypes: nat)
    requires InRange(st)
    ensures Feed(st, a, ntypes).Some? ==> InRange(Feed(st, a, ntypes).value)
    ensures Feed(st, a + b, ntypes)
         == (if Feed(st, a, ntypes).None? then None else FeedFrom(Feed(st, a, ntypes).value, b, ntypes))
    decreases |a|
  {
    hide Step, InRange;
    if |a| == 0 {
      assert a + b == b;
    } else {
      assert (a + b)[0] == a[0] && (a + b)[1..] == a[1..] + b;
      if Step(st, a[0], ntypes).Some? {
        StepInRange(st, a[0], ntypes);
        FeedConcat(Step(st, a[0], ntypes).value, a[1..], b, ntypes);
      }
    }
  }

  function FeedFrom(st: State, ws: seq<Token>, ntypes: nat): Option<State> {
    if InRange(st) then Feed(st, ws, ntypes) else None
  }

  lemma FeedOne(st: State, w: Token, ws: seq<Token>, ntypes: nat, next: State)
    requires InRange(st) && Step(st, w, ntypes) == Some(next)
    ensures InRange(next) && Feed(st, [w] + ws, ntypes) == Feed(next, ws, ntypes)
  {
    hide Step, InRange;
    StepInRange(st, w, ntypes);
    assert ([w] + ws)[0] == w && ([w] + ws)[1..] == ws;
  }

  lemma FeedPart(st: State, a: seq<Token>, b: seq<Token>, ntypes: nat, next: State)
    requires InRange(st) && Feed(st, a, ntypes) == Some(next)
    ensures InRange(next) && Feed(st, a + b, ntypes) == Feed(next, b, ntypes)
  {
    FeedConcat(st, a, b, ntypes);
  }

  // ----- trees over more operations -----

  /** More operations do not change what the blocks stand for. */
  lemma {:induction false} RepMoreOps(bs: seq<Block>, ops: seq<Op>, more: seq<Op>, i: nat, t: Tree)
    requires Rep(bs, ops, i, t) && ops <= more
    ensures Rep(bs, more, i, t)
    decreases Size(t), 0
  {
    match t
    case Defer(next, cleanup) => RepMoreOps(bs, ops, more, bs[i].next, next); RepMoreOps(bs, ops, more, bs[i].cleanup, cleanup);
    case Many(kids) => KidsMoreOps(bs, ops, more, bs[i].cur, bs[i].next, kids);
    case CrashPad(body, pad) => RepMoreOps(bs, ops, more, bs[i].body, body); RepMoreOps(bs, ops, more, bs[i].pad, pad);
    case Branch(_, yes, no) => RepMoreOps(bs, ops, more, bs[i].yes, yes); RepMoreOps(bs, ops, more, bs[i].no, no);
    case Loop(body) => RepMoreOps(bs, ops, more, bs[i].body, body);
    case Var(_, body) => RepMoreOps(bs, ops, more, bs[i].body, body);
    case _ =>
  }

  lemma {:induction false} KidsMoreOps(bs: seq<Block>, ops: seq<Op>, more: seq<Op>, cur: nat, next: nat, ch: Chain)
    requires RepKids(bs, ops, cur, next, ch) && ops <= more
    ensures RepKids(bs, more, cur, next, ch)
    decreases ChainSize(ch), 0
  {
    if ch.Link? {
      RepMoreOps(bs, ops, more, cur, ch.cur);
      if next != INVALID && next < |bs| && bs[next].BChain? { KidsMoreOps(bs, ops, more, bs[next].cur, bs[next].next, ch.rest); }
    }
  }

  lemma {:induction false} SoundTree(s: Source, ops: seq<Op>, depth: nat, loop: Targets)
    ensures Sound(TreeOf(s, ops, depth, loop))
    decreases s
  {
    match s
    case Stop =>
    case Do(op, rest) => SoundTree(rest, ops + [op], depth, loop);
    case Repeat(body, rest) =>
      SoundTree(body, [], depth + 3, InLoop(depth + 2, depth + 3));
      SoundTree(rest, [], depth + 1, loop);
      var b := TreeOf(body, [], depth + 3, InLoop(depth + 2, depth + 3));
      assert ChainSound(Link(b, End));
      ThreeSound(ops, Loop(Many(Link(b, End))), TreeOf(rest, [], depth + 1, loop));
    case Choose(cond, yes, no, rest) =>
      SoundTree(yes, [], depth + 1, loop);
      SoundTree(no, [], depth + 1, loop);
      SoundTree(rest, [], depth + 1, loop);
      ThreeSound(ops, Branch(cond, TreeOf(yes, [], depth + 1, loop), TreeOf(no, [], depth + 1, loop)), TreeOf(rest, [], depth + 1, loop));
    case Guard(body, cleanup, rest) =>
      SoundTree(body, [], depth + 2, loop);
      SoundTree(cleanup, [], depth + 2, NoLoop);
      SoundTree(rest, [], depth + 1, loop);
      ThreeSound(ops, Defer(TreeOf(body, [], depth + 2, loop), TreeOf(cleanup, [], depth + 2, NoLoop)), TreeOf(rest, [], depth + 1, loop));
    case Jump(again, rest) =>
      SoundTree(rest, [], depth + 1, loop);
      ThreeSound(ops, Break(Level(again, depth, loop)), TreeOf(rest, [], depth + 1, loop));
  }

  lemma ThreeSound(ops: seq<Op>, middle: Tree, rest: Tree)
    requires Sound(middle) && Sound(rest)
    ensures Sound(Three(ops, middle, rest))
  {
    assert ChainSound(Link(rest, End));
    assert ChainSound(Link(middle, Link(rest, End)));
  }

  // ----- what a stretch of words does -----

  /** Where the frontend stands: in a basic block that ends with the operations so far, in no
      condition, with the right loop around. */
  predicate Stands(st: State, loop: Targets) {
    && InRange(st) && st.blocks[st.current].BBasic?
    && st.blocks[st.current].ops.start + st.blocks[st.current].ops.len == |st.ops|
    && (|st.scopes| > 0 ==> !Opens(Top(st)))
    && (loop.InLoop? ==>
          var n := InnermostLoop(st.scopes);
          && n > 0 && LeavesNoCleanup(st.scopes, n) && st.scopes[n - 1].breakDepth == loop.breakDepth
          && st.scopes[n - 1].continueDepth == loop.continueDepth && loop.continueDepth <= st.depth + 1 && loop.breakDepth <= st.depth + 1)
  }

  /** The operations of the current block. */
  function Here(st: State): seq<Op>
    requires st.current < |st.blocks| && st.blocks[st.current].BBasic?
  {
    var r := st.blocks[st.current].ops;
    if r.start + r.len <= |st.ops| then st.ops[r.start..r.start + r.len] else []
  }

  predicate Beyond(foot: set<nat>, at: nat, lo: nat) { forall i :: i in foot ==> i == at || lo <= i }

  /** Only the current block and new ones were written; the current one now stands for t. */
  predicate Grew(st: State, t: State, tree: Tree) {
    && |st.blocks| <= |t.blocks| <= INVALID && st.ops <= t.ops && t.scopes == st.scopes && t.vars == st.vars
    && (forall i :: 0 <= i < |st.blocks| && i != st.current ==> t.blocks[i] == st.blocks[i])
    && Rep(t.blocks, t.ops, st.current, tree)
    && Beyond(Foot(t.blocks, st.current, tree), st.current, |st.blocks|)
  }

  /** The blocks of a spliced construct, put together. */
  lemma ThreeRep(bs: seq<Block>, ops: seq<Op>, slot: nat, n: nat, lo: nat, here: seq<Op>, middle: Tree, rest: Tree)
    requires slot < |bs| && lo <= n && n + 5 <= |bs| <= INVALID && bs[slot] == BMany(n, n + 2)
    requires bs[n].BBasic? && Selects(ops, bs[n].ops, here) && bs[n + 2] == BChain(n + 1, n + 4) && bs[n + 4] == BChain(n + 3, INVALID)
    requires Rep(bs, ops, n + 1, middle) && Rep(bs, ops, n + 3, rest)
    requires Beyond(Foot(bs, n + 1, middle), n + 1, lo) && Beyond(Foot(bs, n + 3, rest), n + 3, lo)
    ensures Rep(bs, ops, slot, Three(here, middle, rest)) && Beyond(Foot(bs, slot, Three(here, middle, rest)), slot, lo)
  {
    var last := Link(rest, End);
    var more := Link(middle, last);
    assert RepRest(bs, ops, INVALID, End) && FootRest(bs, INVALID, End) == {};
    assert RepKids(bs, ops, n + 3, INVALID, last) && FootKids(bs, n + 3, INVALID, last) == Foot(bs, n + 3, rest);
    assert RepRest(bs, ops, n + 4, last) && FootRest(bs, n + 4, last) == {n + 4} + Foot(bs, n + 3, rest);
    assert RepKids(bs, ops, n + 1, n + 4, more) && FootKids(bs, n + 1, n + 4, more) == Foot(bs, n + 1, middle) + FootRest(bs, n + 4, last);
    assert RepRest(bs, ops, n + 2, more) && FootRest(bs, n + 2, more) == {n + 2} + FootKids(bs, n + 1, n + 4, more);
    assert Rep(bs, ops, n, Basic(here)) && Foot(bs, n, Basic(here)) == {n};
    assert RepKids(bs, ops, n, n + 2, Link(Basic(here), more));
    assert FootKids(bs, n, n + 2, Link(Basic(here), more)) == {n} + FootRest(bs, n + 2, more);
  }

  /** A part that later words do not touch goes on standing for its tree. */
  lemma PartStays(bs: seq<Block>, cs: seq<Block>, ops: seq<Op>, more: seq<Op>, at: nat, lo: nat, tree: Tree)
    requires Rep(bs, ops, at, tree) && Sound(tree) && ops <= more && |bs| <= |cs| <= INVALID
    requires Beyond(Foot(bs, at, tree), at, lo)
    requires at < |bs| && cs[at] == bs[at] && forall i :: lo <= i < |bs| ==> cs[i] == bs[i]
    ensures Rep(cs, more, at, tree) && Foot(cs, at, tree) == Foot(bs, at, tree)
  {
    FootInRange(bs, at, tree);
    RepFrame(bs, cs, ops, at, tree);
    RepMoreOps(cs, ops, more, at, tree);
  }

  lemma InnermostPush(scopes: seq<OpenScope>, s: OpenScope)
    ensures InnermostLoop(scopes + [s]) == if s.kind.SCOPE_LOOP? then |scopes| + 1 else InnermostLoop(scopes)
  {
    assert (scopes + [s])[..|scopes|] == scopes;
  }

  /** Opening a construct that is no loop and no cleanup keeps the loop around. */
  lemma StillInLoop(st: State, st1: State, loop: Targets, s: OpenScope)
    requires Stands(st, loop) && st1.scopes == st.scopes + [s] && !s.kind.SCOPE_LOOP? && !Opens(s) && !s.phase.SCOPE_CLEANUP?
    requires InRange(st1) && st1.blocks[st1.current].BBasic? && st1.depth >= st.depth
    requires st1.blocks[st1.current].ops.start + st1.blocks[st1.current].ops.len == |st1.ops|
    ensures Stands(st1, loop)
  {
    InnermostPush(st.scopes, s);
  }

  /** Back at the scopes from before. */
  lemma BackAgain(st: State, st1: State, loop: Targets)
    requires Stands(st, loop) && st1.scopes == st.scopes && st1.depth >= st.depth
    requires InRange(st1) && st1.blocks[st1.current].BBasic?
    requires st1.blocks[st1.current].ops.start + st1.blocks[st1.current].ops.len == |st1.ops|
    ensures Stands(st1, loop)
  {
  }

  // ----- operations -----

  lemma OpFed(st: State, op: Op, loop: Targets, ntypes: nat)
    requires Stands(st, loop)
    ensures Step(st, WOp(op), ntypes) == Emitted(st, op) && Emitted(st, op).Some?
    ensures var t := Emitted(st, op).value;
      && Stands(t, loop) && Here(t) == Here(st) + [op] && t.current == st.current && t.depth == st.depth && t.scopes == st.scopes && t.vars == st.vars
      && t.ops == st.ops + [op] && |t.blocks| == |st.blocks| && forall i :: 0 <= i < |st.blocks| && i != st.current ==> t.blocks[i] == st.blocks[i]
  {
    hide LeavesNoCleanup, InnermostLoop;
    var t := Emitted(st, op).value;
    var r := st.blocks[st.current].ops;
    assert t.ops[r.start..r.start + r.len + 1] == st.ops[r.start..] + [op];
    assert st.ops[r.start..r.start + r.len] == st.ops[r.start..];
  }

  lemma DoGrew(st: State, st1: State, t: State, tree: Tree)
    requires Grew(st1, t, tree) && st1.current == st.current && st1.scopes == st.scopes && st1.vars == st.vars && st.ops <= st1.ops
    requires |st1.blocks| == |st.blocks| && forall i :: 0 <= i < |st.blocks| && i != st.current ==> st1.blocks[i] == st.blocks[i]
    ensures Grew(st, t, tree)
  {
    hide Rep, Foot;
  }

  // ----- the induction -----

  /** The words of a source build its tree in place of the current block. */
  lemma {:induction false} Builds(s: Source, st: State, loop: Targets, ntypes: nat) returns (t: State)
    requires Stands(st, loop) && Legal(s, loop.InLoop?) && |st.blocks| + Cost(s) < INVALID
    ensures Feed(st, Words(s), ntypes) == Some(t) && InRange(t)
    ensures Grew(st, t, TreeOf(s, Here(st), st.depth, loop))
    ensures |t.blocks| == |st.blocks| + Cost(s) && t.ops == st.ops + OpsIn(s)
    decreases s, 2
  {
    hide Step, Grew, Here, Stands, Feed, InRange, Spliced, Three, InConstruct, OpsIn;
    StandsFacts(st, loop);
    match s
    case Stop =>
      t := st;
      NothingFed(st, ntypes);
      NoOpsIn();
      NothingBuilt(st, loop);
    case Do(op, rest) =>
      t := DoBuilds(op, rest, st, loop, ntypes);
      assert OpsIn(s) == [op] + OpsIn(rest) by { OpFirst(op, rest); }
    case Repeat(body, rest) =>
      var s3 := RepeatInside(s, st, loop, ntypes);
      t := RestBuilds(rest, st, s3, Loop(Many(Link(TreeOf(body, [], st.depth + 3, InLoop(st.depth + 2, st.depth + 3)), End))), loop, ntypes);
    case Choose(cond, yes, no, rest) =>
      var s3 := ChooseInside(s, st, loop, ntypes);
      t := RestBuilds(rest, st, s3, Branch(cond, TreeOf(yes, [], st.depth + 1, loop), TreeOf(no, [], st.depth + 1, loop)), loop, ntypes);
    case Guard(body, cleanup, rest) =>
      var s3 := GuardInside(s, st, loop, ntypes);
      t := RestBuilds(rest, st, s3, Defer(TreeOf(body, [], st.depth + 2, loop), TreeOf(cleanup, [], st.depth + 2, NoLoop)), loop, ntypes);
    case Jump(_, _) => t := JumpBuilds(s, st, loop, ntypes);
  }

  lemma OpFirst(op: Op, rest: Source)
    ensures OpsIn(Do(op, rest)) == [op] + OpsIn(rest)
  {
  }

  lemma NoOpsIn()
    ensures OpsIn(Stop) == []
  {
  }

  lemma NothingFed(st: State, ntypes: nat)
    requires InRange(st)
    ensures Feed(st, [], ntypes) == Some(st) && st.ops == st.ops + []
  {
  }

  lemma {:induction false} DoBuilds(op: Op, rest: Source, st: State, loop: Targets, ntypes: nat) returns (t: State)
    requires Stands(st, loop) && Legal(rest, loop.InLoop?) && |st.blocks| + Cost(rest) < INVALID
    ensures InRange(st) && Feed(st, [WOp(op)] + Words(rest), ntypes) == Some(t) && InRange(t)
    ensures Grew(st, t, TreeOf(rest, Here(st) + [op], st.depth, loop))
    ensures |t.blocks| == |st.blocks| + Cost(rest) && t.ops == st.ops + ([op] + OpsIn(rest))
    decreases rest, 3
  {
    hide Step, Grew, Here, Stands, Feed, Emitted;
    StandsFacts(st, loop);
    OpFed(st, op, loop, ntypes);
    var st1 := Emitted(st, op).value;
    FeedOne(st, WOp(op), Words(rest), ntypes, st1);
    t := Builds(rest, st1, loop, ntypes);
    DoGrew(st, st1, t, TreeOf(rest, Here(st) + [op], st.depth, loop));
  }

  lemma RepeatOps(s: Source, ops: seq<Op>)
    requires s.Repeat?
    ensures ops + OpsIn(s.body) + OpsIn(s.rest) == ops + OpsIn(s)
  {
  }

  lemma GuardOps(s: Source, ops: seq<Op>)
    requires s.Guard?
    ensures ops + OpsIn(s.body) + OpsIn(s.cleanup) + OpsIn(s.rest) == ops + OpsIn(s)
  {
  }

  lemma ChooseOps(s: Source, ops: seq<Op>, both: seq<Op>)
    requires s.Choose? && both == ops + s.cond + OpsIn(s.yes) + OpsIn(s.no)
    ensures both + OpsIn(s.rest) == ops + OpsIn(s)
  {
  }

  /** What is behind a construct. */
  lemma {:induction false} RestBuilds(rest: Source, st: State, s3: State, middle: Tree, loop: Targets, ntypes: nat) returns (t: State)
    requires Stands(st, loop) && Spliced(st, s3, middle) && InRange(s3) && Legal(rest, loop.InLoop?) && |s3.blocks| + Cost(rest) < INVALID
    ensures Feed(s3, Words(rest), ntypes) == Some(t) && InRange(t)
    ensures Grew(st, t, Three(Here(st), middle, TreeOf(rest, [], st.depth + 1, loop)))
    ensures |t.blocks| == |s3.blocks| + Cost(rest) && t.ops == s3.ops + OpsIn(rest)
    decreases rest, 3
  {
    hide Step, Grew, Here, Stands, InRange, Rep, Foot;
    StandsFacts(st, loop);
    SplicedStands(st, s3, middle, loop);
    t := Builds(rest, s3, loop, ntypes);
    SplicedOn(st, s3, t, middle, TreeOf(rest, [], st.depth + 1, loop), loop);
  }

  lemma StandsFacts(st: State, loop: Targets)
    requires Stands(st, loop)
    ensures InRange(st) && st.current < |st.blocks| && st.blocks[st.current].BBasic? && (|st.scopes| > 0 ==> !Opens(Top(st)))
    ensures Selects(st.ops, st.blocks[st.current].ops, Here(st))
  {
  }

  lemma NothingBuilt(st: State, loop: Targets)
    requires Stands(st, loop) && |st.blocks| <= INVALID
    ensures Grew(st, st, Basic(Here(st)))
  {
    assert Foot(st.blocks, st.current, Basic(Here(st))) == {st.current};
  }

  // ----- jumps -----

  lemma JumpFed(st: State, again: bool, loop: Targets, ntypes: nat)
    requires Stands(st, loop) && loop.InLoop? && |st.blocks| + 5 < INVALID
    ensures var w := if again then WContinue else WBreak;
      Step(st, w, ntypes) == Exited(st, again) && Exited(st, again).Some?
    ensures Exited(st, again).value == st.(blocks := WrapAround(st, [], BBreak(Level(again, st.depth, loop))), current := |st.blocks| + 3, depth := st.depth + 1)
  {
    hide LeavesNoCleanup, Wrapped;
  }

  /** A construct that was spliced in is complete once what is behind it is built. */
  lemma Completed(st: State, t: State, n: nat, middle: Tree, rest: Tree, loop: Targets)
    requires Stands(st, loop) && |st.blocks| <= n && n + 5 <= |t.blocks| <= INVALID && st.ops <= t.ops && t.scopes == st.scopes && t.vars == st.vars
    requires forall i :: 0 <= i < |st.blocks| && i != st.current ==> t.blocks[i] == st.blocks[i]
    requires t.blocks[st.current] == BMany(n, n + 2) && t.blocks[n] == st.blocks[st.current]
    requires t.blocks[n + 2] == BChain(n + 1, n + 4) && t.blocks[n + 4] == BChain(n + 3, INVALID)
    requires Rep(t.blocks, t.ops, n + 1, middle) && Rep(t.blocks, t.ops, n + 3, rest)
    requires Beyond(Foot(t.blocks, n + 1, middle), n + 1, |st.blocks|) && Beyond(Foot(t.blocks, n + 3, rest), n + 3, |st.blocks|)
    ensures Grew(st, t, Three(Here(st), middle, rest))
  {
    hide Rep, Foot, Stands, Beyond;
    StandsFacts(st, loop);
    StillSelects(st.ops, t.ops, st.blocks[st.current].ops, Here(st));
    ThreeRep(t.blocks, t.ops, st.current, n, |st.blocks|, Here(st), middle, rest);
  }

  lemma GrewFacts(st: State, t: State, tree: Tree)
    requires Grew(st, t, tree)
    ensures |st.blocks| <= |t.blocks| <= INVALID && st.ops <= t.ops && t.scopes == st.scopes && t.vars == st.vars
    ensures forall i :: 0 <= i < |st.blocks| && i != st.current ==> t.blocks[i] == st.blocks[i]
    ensures Rep(t.blocks, t.ops, st.current, tree) && Beyond(Foot(t.blocks, st.current, tree), st.current, |st.blocks|)
  {
  }

  lemma BeyondLess(foot: set<nat>, at: nat, lo: nat, low: nat)
    requires Beyond(foot, at, lo) && low <= lo && low <= at
    ensures Beyond(foot, at, low)
  {
  }

  lemma {:induction false} JumpBuilds(s: Source, st: State, loop: Targets, ntypes: nat) returns (t: State)
    requires s.Jump? && Stands(st, loop) && Legal(s, loop.InLoop?) && |st.blocks| + Cost(s) < INVALID
    ensures Feed(st, Words(s), ntypes) == Some(t) && InRange(t)
    ensures Grew(st, t, TreeOf(s, Here(st), st.depth, loop))
    ensures |t.blocks| == |st.blocks| + Cost(s) && t.ops == st.ops + OpsIn(s)
    decreases s, 0
  {
    hide Step, Stands, Wrapped, Exited, InRange, Grew, Rep, Feed, Beyond, Foot, Selects;
    StandsFacts(st, loop);
    JumpFed(st, s.again, loop, ntypes);
    var st1, n, level := Exited(st, s.again).value, |st.blocks|, Level(s.again, st.depth, loop);
    FeedOne(st, if s.again then WContinue else WBreak, Words(s.rest), ntypes, st1);
    assert st.blocks + [] == st.blocks;
    WrappedAt(st.blocks, st.current, BBreak(level), |st.ops|);
    BackAgain(st, st1, loop);
    t := Builds(s.rest, st1, loop, ntypes);
    assert Here(st1) == [];
    var rest := TreeOf(s.rest, [], st.depth + 1, loop);
    GrewFacts(st1, t, rest);
    BreakRep(t.blocks, t.ops, n + 1, level);
    BeyondLess(Foot(t.blocks, n + 3, rest), n + 3, n + 5, n);
    Completed(st, t, n, Break(level), rest, loop);
  }

  lemma BreakRep(bs: seq<Block>, ops: seq<Op>, i: nat, level: nat)
    requires i < |bs| && bs[i] == BBreak(level)
    ensures Rep(bs, ops, i, Break(level)) && Foot(bs, i, Break(level)) == {i}
    ensures forall lo: nat :: Beyond(Foot(bs, i, Break(level)), i, lo)
  {
  }

  lemma StillSelects(ops: seq<Op>, more: seq<Op>, r: Range, here: seq<Op>)
    requires Selects(ops, r, here) && ops <= more
    ensures Selects(more, r, here)
  {
  }

  // ----- constructs that were closed again -----

  /** The blocks of a construct whose scope had room for seven. */
  predicate InConstruct(foot: set<nat>, n: nat) { forall i :: i in foot ==> i == n || i == n + 1 || i == n + 3 || n + 7 <= i }

  /** The construct stands for `middle`, and the frontend goes on behind it. */
  predicate Spliced(st: State, s3: State, middle: Tree)
    requires st.current < |st.blocks|
  {
    var n := |st.blocks|;
    && n + 7 <= |s3.blocks| <= INVALID && st.ops <= s3.ops && s3.scopes == st.scopes && s3.vars == st.vars
    && (forall i :: 0 <= i < n && i != st.current ==> s3.blocks[i] == st.blocks[i])
    && s3.blocks[st.current] == BMany(n + 2, n + 4) && s3.blocks[n + 2] == st.blocks[st.current]
    && s3.blocks[n + 4] == BChain(n + 3, n + 6) && s3.blocks[n + 6] == BChain(n + 5, INVALID)
    && s3.current == n + 5 && s3.depth == st.depth + 1 && s3.blocks[n + 5] == BBasic(Range(|s3.ops|, 0))
    && Rep(s3.blocks, s3.ops, n + 3, middle) && Sound(middle) && InConstruct(Foot(s3.blocks, n + 3, middle), n)
  }

  /** The first arm is built, the second one and the block behind are still blank. */
  predicate FirstArm(st: State, t1: State, scope: OpenScope, middle: Block, first: Tree)
    requires st.current < |st.blocks|
  {
    var n := |st.blocks|;
    && n + 7 <= |t1.blocks| <= INVALID && st.ops <= t1.ops && t1.scopes == st.scopes + [scope] && t1.vars == st.vars
    && (forall i :: 0 <= i < n && i != st.current ==> t1.blocks[i] == st.blocks[i])
    && t1.blocks[st.current] == BMany(n + 2, n + 4) && t1.blocks[n + 2] == st.blocks[st.current] && t1.blocks[n + 3] == middle
    && t1.blocks[n + 4] == BChain(n + 3, n + 6) && t1.blocks[n + 6] == BChain(n + 5, INVALID)
    && t1.blocks[n + 1].BBasic? && t1.blocks[n + 1].ops.len == 0 && t1.blocks[n + 5].BBasic? && t1.blocks[n + 5].ops.len == 0
    && Rep(t1.blocks, t1.ops, n, first) && Sound(first) && Beyond(Foot(t1.blocks, n, first), n, n + 7)
  }

  /** Both arms are built, and the frontend goes on behind the construct. */
  predicate BothArms(st: State, s3: State, middle: Block, first: Tree, second: Tree)
    requires st.current < |st.blocks|
  {
    var n := |st.blocks|;
    && n + 7 <= |s3.blocks| <= INVALID && st.ops <= s3.ops && s3.scopes == st.scopes && s3.vars == st.vars
    && (forall i :: 0 <= i < n && i != st.current ==> s3.blocks[i] == st.blocks[i])
    && s3.blocks[st.current] == BMany(n + 2, n + 4) && s3.blocks[n + 2] == st.blocks[st.current] && s3.blocks[n + 3] == middle
    && s3.blocks[n + 4] == BChain(n + 3, n + 6) && s3.blocks[n + 6] == BChain(n + 5, INVALID)
    && s3.current == n + 5 && s3.depth == st.depth + 1 && s3.blocks[n + 5] == BBasic(Range(|s3.ops|, 0))
    && Rep(s3.blocks, s3.ops, n, first) && Sound(first) && Beyond(Foot(s3.blocks, n, first), n, n + 7)
    && Rep(s3.blocks, s3.ops, n + 1, second) && Sound(second) && Beyond(Foot(s3.blocks, n + 1, second), n + 1, n + 7)
  }

  /** The second arm is built from t1 on, and the construct is closed. */
  lemma SecondArm(st: State, t1: State, t2: State, s3: State, scope: OpenScope, middle: Block, first: Tree, second: Tree)
    requires st.current < |st.blocks| && FirstArm(st, t1, scope, middle, first)
    requires |t1.blocks| <= |t2.blocks| == |s3.blocks| <= INVALID && t1.ops <= t2.ops <= s3.ops
    requires forall i :: 0 <= i < |t1.blocks| && i != |st.blocks| + 1 ==> t2.blocks[i] == t1.blocks[i]
    requires forall i :: 0 <= i < |t2.blocks| && i != |st.blocks| + 5 ==> s3.blocks[i] == t2.blocks[i]
    requires Rep(t2.blocks, t2.ops, |st.blocks| + 1, second) && Sound(second) && Beyond(Foot(t2.blocks, |st.blocks| + 1, second), |st.blocks| + 1, |t1.blocks|)
    requires s3.scopes == st.scopes && s3.vars == st.vars && s3.current == |st.blocks| + 5 && s3.depth == st.depth + 1
    requires s3.blocks[|st.blocks| + 5] == BBasic(Range(|s3.ops|, 0))
    ensures BothArms(st, s3, middle, first, second)
  {
    hide Rep, Foot, Sound, Beyond;
    TwoArms(t1, t2, s3, |st.blocks|, first, second);
  }

  lemma SplicedStands(st: State, s3: State, middle: Tree, loop: Targets)
    requires Stands(st, loop) && Spliced(st, s3, middle) && InRange(s3)
    ensures Stands(s3, loop) && Here(s3) == []
  {
    hide Rep, Foot, LeavesNoCleanup, InnermostLoop;
  }

  lemma SplicedOn(st: State, s3: State, t: State, middle: Tree, rest: Tree, loop: Targets)
    requires Stands(st, loop) && Spliced(st, s3, middle) && Grew(s3, t, rest)
    ensures Grew(st, t, Three(Here(st), middle, rest))
  {
    hide Rep, Foot, Stands, Sound, Grew;
    StandsFacts(st, loop);
    var n := |st.blocks|;
    GrewFacts(s3, t, rest);
    ConstructStays(s3.blocks, t.blocks, s3.ops, t.ops, n, middle);
    BeyondLess(Foot(t.blocks, n + 5, rest), n + 5, |s3.blocks|, n);
    hide Beyond, InConstruct;
    Completed(st, t, n + 2, middle, rest, loop);
  }

  lemma ConstructStays(bs: seq<Block>, cs: seq<Block>, ops: seq<Op>, more: seq<Op>, n: nat, middle: Tree)
    requires Rep(bs, ops, n + 3, middle) && Sound(middle) && InConstruct(Foot(bs, n + 3, middle), n) && ops <= more
    requires n + 7 <= |bs| <= |cs| <= INVALID && forall i :: 0 <= i < |bs| && i != n + 5 ==> cs[i] == bs[i]
    ensures Rep(cs, more, n + 3, middle) && Beyond(Foot(cs, n + 3, middle), n + 3, n)
  {
    hide Rep, Foot, Sound;
    RepFrame(bs, cs, ops, n + 3, middle);
    RepMoreOps(cs, ops, more, n + 3, middle);
  }

  /** The construct on top is closed: the block behind it is current. */
  lemma CloseFed(st: State, t: State, s: OpenScope, w: Token, ntypes: nat)
    requires InRange(t) && t.scopes == st.scopes + [s] && s.after < |t.blocks| && t.blocks[s.after].BBasic? && t.blocks[s.after].ops.len == 0
    requires (w.WAgain? && s.kind.SCOPE_LOOP? && s.phase.SCOPE_BODY?)
      || (w.WEnd? && s.kind.SCOPE_EPILOGUE? && !s.implicitEnd && s.phase.SCOPE_CLEANUP?)
    ensures var bs := t.blocks[s.after := BBasic(Range(|t.ops|, 0))];
      Step(t, w, ntypes) == Some(t.(blocks := bs, scopes := st.scopes, current := s.after, depth := s.parentDepth + 1))
  {
    assert (st.scopes + [s])[..|st.scopes|] == st.scopes;
    assert t.blocks[s.after] == BBasic(Range(t.blocks[s.after].ops.start, 0));
  }

  // ----- loops -----

  lemma LoopShape(st: State)
    requires st.current < |st.blocks| && |st.blocks| + 7 < INVALID
    ensures LoopBegun(st).Some?
    ensures var s1, n := LoopBegun(st).value, |st.blocks|;
      && s1.depth == st.depth + 3 && s1.current == n
      && s1.ops == st.ops && s1.vars == st.vars && s1.scopes == st.scopes + [LoopScope(st)] && |s1.blocks| == n + 7
      && (forall i :: 0 <= i < n && i != st.current ==> s1.blocks[i] == st.blocks[i])
      && s1.blocks[st.current] == BMany(n + 2, n + 4) && s1.blocks[n] == Fresh(st) && s1.blocks[n + 1] == BMany(n, INVALID)
      && s1.blocks[n + 2] == st.blocks[st.current] && s1.blocks[n + 3] == BLoop(n + 1) && s1.blocks[n + 4] == BChain(n + 3, n + 6)
      && s1.blocks[n + 5] == Fresh(st) && s1.blocks[n + 6] == BChain(n + 5, INVALID)
  {
    hide Wrapped;
    var n, s1 := |st.blocks|, LoopBegun(st).value;
    var extra := [Fresh(st), BMany(n, INVALID)];
    WrapElsewhere(st, extra, BLoop(n + 1));
    WrappedAt(st.blocks + extra, st.current, BLoop(n + 1), |st.ops|);
    assert s1.blocks[n + 0] == extra[0] && s1.blocks[n + 1] == extra[1];
    assert (st.blocks + extra)[st.current] == st.blocks[st.current];
  }

  lemma LoopFed(st: State, loop: Targets, ntypes: nat)
    requires Stands(st, loop) && |st.blocks| + 7 < INVALID
    ensures Step(st, WLoop, ntypes) == LoopBegun(st) && LoopBegun(st).Some?
    ensures Stands(LoopBegun(st).value, InLoop(st.depth + 2, st.depth + 3)) && Here(LoopBegun(st).value) == []
  {
    hide Wrapped;
    LoopShape(st);
    assert Step(st, WLoop, ntypes) == LoopBegun(st);
    hide LoopBegun;
    InnermostPush(st.scopes, LoopScope(st));
    StepInRange(st, WLoop, ntypes);
  }

  lemma LoopRep(bs: seq<Block>, ops: seq<Op>, n: nat, body: Tree)
    requires n + 7 <= |bs| <= INVALID && bs[n + 3] == BLoop(n + 1) && bs[n + 1] == BMany(n, INVALID)
    requires Rep(bs, ops, n, body) && Beyond(Foot(bs, n, body), n, n + 7) && Sound(body)
    ensures var t := Loop(Many(Link(body, End))); Rep(bs, ops, n + 3, t) && Sound(t) && InConstruct(Foot(bs, n + 3, t), n)
  {
    assert RepRest(bs, ops, INVALID, End) && FootRest(bs, INVALID, End) == {};
    assert RepKids(bs, ops, n, INVALID, Link(body, End)) && FootKids(bs, n, INVALID, Link(body, End)) == Foot(bs, n, body);
    assert Rep(bs, ops, n + 1, Many(Link(body, End))) && Foot(bs, n + 1, Many(Link(body, End))) == {n + 1} + Foot(bs, n, body);
    assert ChainSound(Link(body, End));
  }

  lemma {:induction false} RepeatInside(s: Source, st: State, loop: Targets, ntypes: nat) returns (s3: State)
    requires s.Repeat? && Stands(st, loop) && Legal(s, loop.InLoop?) && |st.blocks| + Cost(s) < INVALID
    ensures InRange(s3) && InRange(st) && Feed(st, Words(s), ntypes) == Feed(s3, Words(s.rest), ntypes)
    ensures Spliced(st, s3, Loop(Many(Link(TreeOf(s.body, [], st.depth + 3, InLoop(st.depth + 2, st.depth + 3)), End))))
    ensures |s3.blocks| == |st.blocks| + 7 + Cost(s.body) && s3.ops == st.ops + OpsIn(s.body)
    ensures |s3.blocks| + Cost(s.rest) == |st.blocks| + Cost(s) && s3.ops + OpsIn(s.rest) == st.ops + OpsIn(s)
    decreases s, 0
  {
    hide Step, Stands, LoopBegun, InRange, Grew, Rep, Feed, Beyond, Foot, Selects, Sound, Here, InConstruct;
    StandsFacts(st, loop);
    LoopShape(st);
    LoopFed(st, loop, ntypes);
    var n, s1, inner := |st.blocks|, LoopBegun(st).value, InLoop(st.depth + 2, st.depth + 3);
    var later := [WAgain] + Words(s.rest);
    FeedOne(st, WLoop, Words(s.body) + later, ntypes, s1);
    var t1 := Builds(s.body, s1, inner, ntypes);
    FeedPart(s1, Words(s.body), later, ntypes, t1);
    var body := TreeOf(s.body, [], st.depth + 3, inner);
    GrewFacts(s1, t1, body);
    CloseFed(st, t1, LoopScope(st), WAgain, ntypes);
    s3 := t1.(blocks := t1.blocks[n + 5 := BBasic(Range(|t1.ops|, 0))], scopes := st.scopes, current := n + 5, depth := st.depth + 1);
    FeedOne(t1, WAgain, Words(s.rest), ntypes, s3);
    SoundTree(s.body, [], st.depth + 3, inner);
    PartStays(t1.blocks, s3.blocks, t1.ops, s3.ops, n, n + 7, body);
    LoopRep(s3.blocks, s3.ops, n, body);
    assert s3.ops + OpsIn(s.rest) == st.ops + OpsIn(s) by { RepeatOps(s, st.ops); }
  }

  lemma NothingHere(st: State, loop: Targets)
    requires Stands(st, loop) && st.blocks[st.current].ops.len == 0
    ensures Here(st) == []
  {
  }

  // ----- epilogues -----

  lemma GuardShape(st: State)
    requires st.current < |st.blocks| && |st.blocks| + 7 < INVALID
    ensures EpilogueBegun(st, false).Some?
    ensures var s1, n := EpilogueBegun(st, false).value, |st.blocks|;
      && s1.depth == st.depth + 2 && s1.current == n
      && s1.ops == st.ops && s1.vars == st.vars && s1.scopes == st.scopes + [EpilogueScope(st, false)] && |s1.blocks| == n + 7
      && (forall i :: 0 <= i < n && i != st.current ==> s1.blocks[i] == st.blocks[i])
      && s1.blocks[st.current] == BMany(n + 2, n + 4) && s1.blocks[n] == Fresh(st) && s1.blocks[n + 1] == Fresh(st)
      && s1.blocks[n + 2] == st.blocks[st.current] && s1.blocks[n + 3] == BDefer(n, n + 1) && s1.blocks[n + 4] == BChain(n + 3, n + 6)
      && s1.blocks[n + 5] == Fresh(st) && s1.blocks[n + 6] == BChain(n + 5, INVALID)
  {
    hide Wrapped;
    var n, s1 := |st.blocks|, EpilogueBegun(st, false).value;
    var extra := [Fresh(st), Fresh(st)];
    WrapElsewhere(st, extra, BDefer(n, n + 1));
    WrappedAt(st.blocks + extra, st.current, BDefer(n, n + 1), |st.ops|);
    assert s1.blocks[n + 0] == extra[0] && s1.blocks[n + 1] == extra[1];
    assert (st.blocks + extra)[st.current] == st.blocks[st.current];
  }

  lemma GuardFed(st: State, loop: Targets, ntypes: nat)
    requires Stands(st, loop) && |st.blocks| + 7 < INVALID
    ensures Step(st, WStart, ntypes) == EpilogueBegun(st, false) && EpilogueBegun(st, false).Some?
    ensures Stands(EpilogueBegun(st, false).value, loop) && Here(EpilogueBegun(st, false).value) == []
  {
    hide Wrapped;
    GuardShape(st);
    assert Step(st, WStart, ntypes) == EpilogueBegun(st, false);
    hide EpilogueBegun, InnermostLoop, LeavesNoCleanup;
    StepInRange(st, WStart, ntypes);
    StillInLoop(st, EpilogueBegun(st, false).value, loop, EpilogueScope(st, false));
  }

  lemma FinallyFed(st: State, t: State, s: OpenScope, ntypes: nat)
    requires InRange(t) && t.scopes == st.scopes + [s] && s.kind.SCOPE_EPILOGUE? && !s.implicitEnd && s.phase.SCOPE_BODY?
    requires s.second < |t.blocks| && t.blocks[s.second].BBasic? && t.blocks[s.second].ops.len == 0
    ensures var bs := t.blocks[s.second := BBasic(Range(|t.ops|, 0))];
      var s2 := t.(blocks := bs, scopes := st.scopes + [s.(phase := SCOPE_CLEANUP)], current := s.second, depth := s.parentDepth + 2);
      Step(t, WFinally, ntypes) == Some(s2) && Stands(s2, NoLoop) && Here(s2) == []
  {
    var s2 := SecondBegun(t, SCOPE_CLEANUP);
    assert (st.scopes + [s])[|st.scopes| := s.(phase := SCOPE_CLEANUP)] == st.scopes + [s.(phase := SCOPE_CLEANUP)];
    StepInRange(t, WFinally, ntypes);
  }

  lemma DeferRep(bs: seq<Block>, ops: seq<Op>, n: nat, next: Tree, cleanup: Tree)
    requires n + 7 <= |bs| <= INVALID && bs[n + 3] == BDefer(n, n + 1) && Rep(bs, ops, n, next) && Rep(bs, ops, n + 1, cleanup)
    requires Beyond(Foot(bs, n, next), n, n + 7) && Beyond(Foot(bs, n + 1, cleanup), n + 1, n + 7) && Sound(next) && Sound(cleanup)
    ensures var t := Defer(next, cleanup); Rep(bs, ops, n + 3, t) && Sound(t) && InConstruct(Foot(bs, n + 3, t), n)
  {
  }

  lemma DeferSpliced(st: State, s3: State, first: Tree, second: Tree)
    requires st.current < |st.blocks| && BothArms(st, s3, BDefer(|st.blocks|, |st.blocks| + 1), first, second)
    ensures Spliced(st, s3, Defer(first, second))
  {
    hide Rep, Foot, Sound, Beyond, InConstruct;
    DeferRep(s3.blocks, s3.ops, |st.blocks|, first, second);
  }

  lemma GuardParts(s: Source, inLoop: bool)
    requires s.Guard? && Legal(s, inLoop)
    ensures Words(s) == [WStart] + (Words(s.body) + ([WFinally] + (Words(s.cleanup) + ([WEnd] + Words(s.rest)))))
    ensures Legal(s.body, inLoop) && Legal(s.cleanup, false) && Legal(s.rest, inLoop)
    ensures Cost(s) == 7 + Cost(s.body) + Cost(s.cleanup) + Cost(s.rest)
  {
  }

  lemma {:induction false} GuardFirst(body: Source, ws: seq<Token>, st: State, loop: Targets, ntypes: nat) returns (t1: State)
    requires Stands(st, loop) && Legal(body, loop.InLoop?) && |st.blocks| + 7 + Cost(body) < INVALID
    ensures InRange(t1) && InRange(st) && Feed(st, [WStart] + (Words(body) + ws), ntypes) == Feed(t1, ws, ntypes)
    ensures FirstArm(st, t1, EpilogueScope(st, false), BDefer(|st.blocks|, |st.blocks| + 1), TreeOf(body, [], st.depth + 2, loop))
    ensures |t1.blocks| == |st.blocks| + 7 + Cost(body) && t1.ops == st.ops + OpsIn(body)
    decreases body, 3
  {
    hide Step, Stands, EpilogueBegun, InRange, Grew, Rep, Feed, Beyond, Foot, Selects, Sound, Here, Words, Legal, Cost, OpsIn, TreeOf;
    StandsFacts(st, loop);
    GuardShape(st);
    GuardFed(st, loop, ntypes);
    var s1 := EpilogueBegun(st, false).value;
    FeedOne(st, WStart, Words(body) + ws, ntypes, s1);
    t1 := Builds(body, s1, loop, ntypes);
    FeedPart(s1, Words(body), ws, ntypes, t1);
    var first := TreeOf(body, [], st.depth + 2, loop);
    GrewFacts(s1, t1, first);
    SoundTree(body, [], st.depth + 2, loop);
  }

  lemma {:induction false} GuardSecond(cleanup: Source, ws: seq<Token>, st: State, t1: State, first: Tree, loop: Targets, ntypes: nat)
      returns (s3: State)
    requires Stands(st, loop) && Legal(cleanup, false) && InRange(t1) && |t1.blocks| + Cost(cleanup) < INVALID
    requires FirstArm(st, t1, EpilogueScope(st, false), BDefer(|st.blocks|, |st.blocks| + 1), first)
    ensures InRange(s3) && Feed(t1, [WFinally] + (Words(cleanup) + ([WEnd] + ws)), ntypes) == Feed(s3, ws, ntypes)
    ensures BothArms(st, s3, BDefer(|st.blocks|, |st.blocks| + 1), first, TreeOf(cleanup, [], st.depth + 2, NoLoop))
    ensures |s3.blocks| == |t1.blocks| + Cost(cleanup) && s3.ops == t1.ops + OpsIn(cleanup)
    decreases cleanup, 3
  {
    hide Step, Stands, InRange, Grew, Rep, Feed, Beyond, Foot, Selects, Sound, Here, Words, Legal, Cost, OpsIn, TreeOf;
    StandsFacts(st, loop);
    var n, scope := |st.blocks|, EpilogueScope(st, false);
    FinallyFed(st, t1, scope, ntypes);
    var scope2 := scope.(phase := SCOPE_CLEANUP);
    var s2 := t1.(blocks := t1.blocks[n + 1 := BBasic(Range(|t1.ops|, 0))], scopes := st.scopes + [scope2], current := n + 1, depth := st.depth + 2);
    FeedOne(t1, WFinally, Words(cleanup) + ([WEnd] + ws), ntypes, s2);
    var t2 := Builds(cleanup, s2, NoLoop, ntypes);
    FeedPart(s2, Words(cleanup), [WEnd] + ws, ntypes, t2);
    var second := TreeOf(cleanup, [], st.depth + 2, NoLoop);
    GrewFacts(s2, t2, second);
    CloseFed(st, t2, scope2, WEnd, ntypes);
    s3 := t2.(blocks := t2.blocks[n + 5 := BBasic(Range(|t2.ops|, 0))], scopes := st.scopes, current := n + 5, depth := st.depth + 1);
    FeedOne(t2, WEnd, ws, ntypes, s3);
    SoundTree(cleanup, [], st.depth + 2, NoLoop);
    SecondArm(st, t1, t2, s3, scope, BDefer(n, n + 1), first, second);
  }

  lemma {:induction false} GuardInside(s: Source, st: State, loop: Targets, ntypes: nat) returns (s3: State)
    requires s.Guard? && Stands(st, loop) && Legal(s, loop.InLoop?) && |st.blocks| + Cost(s) < INVALID
    ensures InRange(s3) && InRange(st) && Feed(st, Words(s), ntypes) == Feed(s3, Words(s.rest), ntypes)
    ensures Spliced(st, s3, Defer(TreeOf(s.body, [], st.depth + 2, loop), TreeOf(s.cleanup, [], st.depth + 2, NoLoop)))
    ensures |s3.blocks| + Cost(s.rest) == |st.blocks| + Cost(s) && s3.ops + OpsIn(s.rest) == st.ops + OpsIn(s)
    decreases s, 0
  {
    GuardParts(s, loop.InLoop?);
    hide Stands, InRange, Feed, Words, Legal, Cost, OpsIn, TreeOf, FirstArm, BothArms, Spliced;
    StandsFacts(st, loop);
    var t1 := GuardFirst(s.body, [WFinally] + (Words(s.cleanup) + ([WEnd] + Words(s.rest))), st, loop, ntypes);
    var body, cleanup := TreeOf(s.body, [], st.depth + 2, loop), TreeOf(s.cleanup, [], st.depth + 2, NoLoop);
    s3 := GuardSecond(s.cleanup, Words(s.rest), st, t1, body, loop, ntypes);
    DeferSpliced(st, s3, body, cleanup);
    assert s3.ops + OpsIn(s.rest) == st.ops + OpsIn(s) by { GuardOps(s, st.ops); }
  }

  /** Both arms of a construct are still there when it is closed. */
  lemma TwoArms(t1: State, t2: State, s3: State, n: nat, first: Tree, second: Tree)
    requires n + 7 <= |t1.blocks| <= |t2.blocks| == |s3.blocks| <= INVALID && t1.ops <= t2.ops <= s3.ops
    requires Rep(t1.blocks, t1.ops, n, first) && Sound(first) && Beyond(Foot(t1.blocks, n, first), n, n + 7)
    requires Rep(t2.blocks, t2.ops, n + 1, second) && Sound(second) && Beyond(Foot(t2.blocks, n + 1, second), n + 1, |t1.blocks|)
    requires forall i :: 0 <= i < |t1.blocks| && i != n + 1 ==> t2.blocks[i] == t1.blocks[i]
    requires forall i :: 0 <= i < |t2.blocks| && i != n + 5 ==> s3.blocks[i] == t2.blocks[i]
    ensures Rep(s3.blocks, s3.ops, n, first) && Beyond(Foot(s3.blocks, n, first), n, n + 7)
    ensures Rep(s3.blocks, s3.ops, n + 1, second) && Beyond(Foot(s3.blocks, n + 1, second), n + 1, n + 7)
  {
    hide Rep, Foot, Sound, Beyond;
    PartStays(t1.blocks, s3.blocks, t1.ops, s3.ops, n, n + 7, first);
    PartStays(t2.blocks, s3.blocks, t2.ops, s3.ops, n + 1, |t1.blocks|, second);
    FartherOff(Foot(s3.blocks, n + 1, second), n + 1, |t1.blocks|, n + 7);
  }

  lemma FartherOff(foot: set<nat>, at: nat, lo: nat, low: nat)
    requires Beyond(foot, at, lo) && low <= lo
    ensures Beyond(foot, at, low)
  {
  }

  // ----- conditions -----

  lemma IfShape(st: State)
    requires st.current < |st.blocks| && |st.blocks| + 7 < INVALID
    ensures IfBegun(st).Some?
    ensures var s1, n := IfBegun(st).value, |st.blocks|;
      && s1.depth == st.depth + 1 && s1.current == n
      && s1.ops == st.ops && s1.vars == st.vars && s1.scopes == st.scopes + [IfScope(st)] && |s1.blocks| == n + 7
      && (forall i :: 0 <= i < n && i != st.current ==> s1.blocks[i] == st.blocks[i])
      && s1.blocks[st.current] == BMany(n + 2, n + 4) && s1.blocks[n] == Fresh(st) && s1.blocks[n + 1] == Fresh(st)
      && s1.blocks[n + 2] == st.blocks[st.current] && s1.blocks[n + 3] == BBranch(Range(|st.ops|, 0), n, n + 1)
      && s1.blocks[n + 4] == BChain(n + 3, n + 6) && s1.blocks[n + 5] == Fresh(st) && s1.blocks[n + 6] == BChain(n + 5, INVALID)
  {
    hide Wrapped;
    var n, s1 := |st.blocks|, IfBegun(st).value;
    var extra, middle := [Fresh(st), Fresh(st)], BBranch(Range(|st.ops|, 0), n, n + 1);
    WrapElsewhere(st, extra, middle);
    WrappedAt(st.blocks + extra, st.current, middle, |st.ops|);
    assert s1.blocks[n + 0] == extra[0] && s1.blocks[n + 1] == extra[1];
    assert (st.blocks + extra)[st.current] == st.blocks[st.current];
  }

  lemma OneCollected(st: State, op: Op, ntypes: nat)
    requires InRange(st) && InCondition(st) && st.blocks[st.current].BBasic?
    ensures Step(st, WOp(op), ntypes) == Some(st.(ops := st.ops + [op]))
  {
  }

  lemma FirstCollected(st: State, ops: seq<Op>, ntypes: nat, next: State)
    requires InRange(st) && InCondition(st) && st.blocks[st.current].BBasic? && |ops| > 0 && next == st.(ops := st.ops + [ops[0]])
    ensures InRange(next) && InCondition(next) && Feed(st, OpWords(ops), ntypes) == Feed(next, OpWords(ops[1..]), ntypes)
    ensures next.ops + ops[1..] == st.ops + ops
  {
    hide Step, Feed;
    OneCollected(st, ops[0], ntypes);
    assert OpWords(ops) == [WOp(ops[0])] + OpWords(ops[1..]);
    FeedOne(st, WOp(ops[0]), OpWords(ops[1..]), ntypes, next);
  }

  /** In a condition operations are only collected. */
  lemma {:induction false} Collected(st: State, ops: seq<Op>, ntypes: nat)
    requires InRange(st) && InCondition(st) && st.blocks[st.current].BBasic?
    ensures Feed(st, OpWords(ops), ntypes) == Some(st.(ops := st.ops + ops))
    decreases |ops|
  {
    hide Step, Feed, InRange, InCondition, OpWords;
    if |ops| == 0 {
      assert OpWords(ops) == [];
      NothingFed(st, ntypes);
      assert st.ops + ops == st.ops;
    } else {
      var next := st.(ops := st.ops + [ops[0]]);
      FirstCollected(st, ops, ntypes, next);
      Collected(next, ops[1..], ntypes);
    }
  }

  /** The state behind the condition. */
  function Conditioned(st: State, s1: State, cond: seq<Op>): State
    requires |st.blocks| + 7 == |s1.blocks|
  {
    var n, k := |st.blocks|, |st.ops| + |cond|;
    s1.(ops := st.ops + cond,
        blocks := s1.blocks[n + 3 := BBranch(Range(|st.ops|, |cond|), n, n + 1)][n := BBasic(Range(k, 0))],
        scopes := st.scopes + [IfScope(st).(phase := SCOPE_BODY)])
  }

  lemma CondFed(st: State, cond: seq<Op>, ws: seq<Token>, loop: Targets, ntypes: nat)
    requires Stands(st, loop) && |st.blocks| + 7 < INVALID && IfBegun(st).Some?
    ensures InRange(st) && |IfBegun(st).value.blocks| == |st.blocks| + 7
    ensures var s4 := Conditioned(st, IfBegun(st).value, cond);
      InRange(s4) && Feed(st, [WIf] + ([WOpen] + (OpWords(cond) + ([WClose] + ws))), ntypes) == Feed(s4, ws, ntypes)
  {
    hide LeavesNoCleanup, InnermostLoop, Feed, IfBegun, InRange;
    StandsFacts(st, loop);
    IfShape(st);
    var n, s1 := |st.blocks|, IfBegun(st).value;
    IfStep(st, loop, ntypes);
    FeedOne(st, WIf, [WOpen] + (OpWords(cond) + ([WClose] + ws)), ntypes, s1);
    var scope := IfScope(st);
    var s2 := s1.(scopes := st.scopes + [scope.(delimiterDepth := 1, phase := SCOPE_CONDITION)]);
    OpenStep(st, s1, scope, ntypes);
    FeedOne(s1, WOpen, OpWords(cond) + ([WClose] + ws), ntypes, s2);
    Collected(s2, cond, ntypes);
    var s3 := s2.(ops := s2.ops + cond);
    FeedPart(s2, OpWords(cond), [WClose] + ws, ntypes, s3);
    CloseStep(st, s3, cond, ntypes);
    FeedOne(s3, WClose, ws, ntypes, Conditioned(st, s1, cond));
  }

  lemma IfStep(st: State, loop: Targets, ntypes: nat)
    requires Stands(st, loop)
    ensures Step(st, WIf, ntypes) == IfBegun(st)
  {
    hide IfBegun, LeavesNoCleanup, InnermostLoop;
  }

  lemma OpenStep(st: State, s1: State, s: OpenScope, ntypes: nat)
    requires InRange(s1) && s1.scopes == st.scopes + [s] && s.kind.SCOPE_IF? && s.phase.SCOPE_WAIT_OPEN?
    ensures Step(s1, WOpen, ntypes) == Some(s1.(scopes := st.scopes + [s.(delimiterDepth := 1, phase := SCOPE_CONDITION)]))
  {
    assert (st.scopes + [s])[|st.scopes| := s.(delimiterDepth := 1, phase := SCOPE_CONDITION)]
        == st.scopes + [s.(delimiterDepth := 1, phase := SCOPE_CONDITION)];
  }

  lemma CloseStep(st: State, s3: State, cond: seq<Op>, ntypes: nat)
    requires InRange(s3) && |s3.blocks| == |st.blocks| + 7 && s3.ops == st.ops + cond && s3.current == |st.blocks|
    requires s3.scopes == st.scopes + [IfScope(st).(delimiterDepth := 1, phase := SCOPE_CONDITION)]
    requires s3.blocks[|st.blocks|] == Fresh(st) && s3.blocks[|st.blocks| + 3] == BBranch(Range(|st.ops|, 0), |st.blocks|, |st.blocks| + 1)
    ensures Step(s3, WClose, ntypes) == Some(Conditioned(st, s3, cond))
  {
    var s := IfScope(st).(delimiterDepth := 1, phase := SCOPE_CONDITION);
    assert (st.scopes + [s])[|st.scopes| := IfScope(st).(phase := SCOPE_BODY)] == st.scopes + [IfScope(st).(phase := SCOPE_BODY)];
  }

  lemma ConditionedStands(st: State, s1: State, cond: seq<Op>, loop: Targets)
    requires Stands(st, loop) && |st.blocks| + 7 == |s1.blocks| && s1.current == |st.blocks| && s1.depth == st.depth + 1
    requires InRange(Conditioned(st, s1, cond))
    ensures Stands(Conditioned(st, s1, cond), loop) && Here(Conditioned(st, s1, cond)) == []
  {
    hide LeavesNoCleanup, InnermostLoop;
    StillInLoop(st, Conditioned(st, s1, cond), loop, IfScope(st).(phase := SCOPE_BODY));
  }

  lemma ConditionedFacts(st: State, s1: State, cond: seq<Op>)
    requires st.current < |st.blocks| && |st.blocks| + 7 == |s1.blocks| && s1.current == |st.blocks| && s1.depth == st.depth + 1 && s1.vars == st.vars
    requires s1.blocks[|st.blocks| + 1] == Fresh(st) && s1.blocks[|st.blocks| + 5] == Fresh(st)
    ensures var n, s4 := |st.blocks|, Conditioned(st, s1, cond);
      && |s4.blocks| == n + 7 && s4.current == n && s4.depth == st.depth + 1 && s4.ops == st.ops + cond && s4.vars == st.vars
      && s4.scopes == st.scopes + [IfScope(st).(phase := SCOPE_BODY)]
      && (forall i :: 0 <= i < n + 7 && i != n && i != n + 3 ==> s4.blocks[i] == s1.blocks[i])
      && s4.blocks[n + 3] == BBranch(Range(|st.ops|, |cond|), n, n + 1)
      && s4.blocks[n + 1].BBasic? && s4.blocks[n + 1].ops.len == 0 && s4.blocks[n + 5].BBasic? && s4.blocks[n + 5].ops.len == 0
  {
  }

  lemma CondSelects(ops: seq<Op>, cond: seq<Op>, more: seq<Op>)
    requires ops + cond <= more
    ensures Selects(more, Range(|ops|, |cond|), cond)
  {
    assert more[..|ops| + |cond|] == ops + cond;
  }

  lemma BranchRep(bs: seq<Block>, ops: seq<Op>, n: nat, r: Range, cond: seq<Op>, yes: Tree, no: Tree)
    requires n + 7 <= |bs| <= INVALID && bs[n + 3] == BBranch(r, n, n + 1) && Selects(ops, r, cond)
    requires Rep(bs, ops, n, yes) && Rep(bs, ops, n + 1, no)
    requires Beyond(Foot(bs, n, yes), n, n + 7) && Beyond(Foot(bs, n + 1, no), n + 1, n + 7) && Sound(yes) && Sound(no)
    ensures var t := Branch(cond, yes, no); Rep(bs, ops, n + 3, t) && Sound(t) && InConstruct(Foot(bs, n + 3, t), n)
  {
  }

  lemma BranchSpliced(st: State, s3: State, cond: seq<Op>, yes: Tree, no: Tree)
    requires st.current < |st.blocks| && BothArms(st, s3, BBranch(Range(|st.ops|, |cond|), |st.blocks|, |st.blocks| + 1), yes, no)
    requires st.ops + cond <= s3.ops
    ensures Spliced(st, s3, Branch(cond, yes, no))
  {
    hide Rep, Foot, Sound, Beyond, InConstruct, Selects;
    CondSelects(st.ops, cond, s3.ops);
    BranchRep(s3.blocks, s3.ops, |st.blocks|, Range(|st.ops|, |cond|), cond, yes, no);
  }

  /** DONE behind the yes-arm, or behind ELSE and the other arm. */
  lemma DoneFed(st: State, t: State, s: OpenScope, ntypes: nat)
    requires InRange(t) && t.scopes == st.scopes + [s] && s.kind.SCOPE_IF? && (s.phase.SCOPE_BODY? || s.phase.SCOPE_ELSE_BODY?)
    requires s.after < |t.blocks| && t.blocks[s.after].BBasic? && t.blocks[s.after].ops.len == 0 && s.second != s.after
    requires s.second < |t.blocks| && (s.phase.SCOPE_BODY? ==> t.blocks[s.second].BBasic? && t.blocks[s.second].ops.len == 0)
    ensures var bs := if s.phase.SCOPE_BODY? then t.blocks[s.second := BBasic(Range(|t.ops|, 0))] else t.blocks;
      Step(t, WDone, ntypes) == Some(t.(blocks := bs[s.after := BBasic(Range(|t.ops|, 0))], scopes := st.scopes, current := s.after, depth := s.parentDepth + 1))
  {
    assert (st.scopes + [s])[..|st.scopes|] == st.scopes;
  }

  lemma ElseFed(st: State, t: State, s: OpenScope, loop: Targets, ntypes: nat)
    requires Stands(st, loop) && InRange(t) && t.scopes == st.scopes + [s] && s.kind.SCOPE_IF? && s.phase.SCOPE_BODY? && s.parentDepth == st.depth
    requires s.second < |t.blocks| && t.blocks[s.second].BBasic? && t.blocks[s.second].ops.len == 0
    ensures var bs := t.blocks[s.second := BBasic(Range(|t.ops|, 0))];
      var s2 := t.(blocks := bs, scopes := st.scopes + [s.(phase := SCOPE_ELSE_BODY)], current := s.second, depth := s.parentDepth + 1);
      Step(t, WElse, ntypes) == Some(s2) && Stands(s2, loop) && Here(s2) == []
  {
    hide LeavesNoCleanup, InnermostLoop;
    var s2 := SecondBegun(t, SCOPE_ELSE_BODY);
    assert (st.scopes + [s])[|st.scopes| := s.(phase := SCOPE_ELSE_BODY)] == st.scopes + [s.(phase := SCOPE_ELSE_BODY)];
    StepInRange(t, WElse, ntypes);
    StillInLoop(st, s2, loop, s.(phase := SCOPE_ELSE_BODY));
  }

  function ElseWords(no: Source): seq<Token> { if no.Stop? then [] else [WElse] + Words(no) }

  /** No ELSE: the other arm is empty. */
  lemma DoneAlone(ws: seq<Token>, st: State, t1: State, middle: Block, first: Tree, loop: Targets, ntypes: nat) returns (s3: State)
    requires Stands(st, loop) && InRange(t1) && st.current < |st.blocks| && FirstArm(st, t1, IfScope(st).(phase := SCOPE_BODY), middle, first)
    ensures InRange(s3) && Feed(t1, [WDone] + ws, ntypes) == Feed(s3, ws, ntypes)
    ensures BothArms(st, s3, middle, first, Basic([])) && |s3.blocks| == |t1.blocks| && s3.ops == t1.ops
  {
    hide Step, Stands, InRange, Rep, Feed, Beyond, Foot, Sound;
    var n := |st.blocks|;
    var scope := IfScope(st).(phase := SCOPE_BODY);
    DoneFed(st, t1, scope, ntypes);
    var t2 := t1.(blocks := t1.blocks[n + 1 := BBasic(Range(|t1.ops|, 0))]);
    s3 := t1.(blocks := t2.blocks[n + 5 := BBasic(Range(|t1.ops|, 0))], scopes := st.scopes, current := n + 5, depth := st.depth + 1);
    FeedOne(t1, WDone, ws, ntypes, s3);
    EmptyRep(t2.blocks, t2.ops, n + 1);
    SecondArm(st, t1, t2, s3, scope, middle, first, Basic([]));
  }

  /** ELSE, the other arm, and the end of the construct. */
  lemma {:induction false} ElseBuilds(no: Source, ws: seq<Token>, st: State, t1: State, middle: Block, first: Tree, loop: Targets, ntypes: nat)
      returns (s3: State)
    requires Stands(st, loop) && Legal(no, loop.InLoop?) && InRange(t1) && |t1.blocks| + Cost(no) < INVALID
    requires FirstArm(st, t1, IfScope(st).(phase := SCOPE_BODY), middle, first)
    ensures InRange(s3) && Feed(t1, [WElse] + (Words(no) + ([WDone] + ws)), ntypes) == Feed(s3, ws, ntypes)
    ensures BothArms(st, s3, middle, first, TreeOf(no, [], st.depth + 1, loop))
    ensures |s3.blocks| == |t1.blocks| + Cost(no) && s3.ops == t1.ops + OpsIn(no)
    decreases no, 3
  {
    hide Step, Stands, InRange, Grew, Rep, Feed, Beyond, Foot, Selects, Sound, Here, Words, Legal, Cost, OpsIn, TreeOf;
    StandsFacts(st, loop);
    var n := |st.blocks|;
    var scope := IfScope(st).(phase := SCOPE_BODY);
    ElseFed(st, t1, scope, loop, ntypes);
    var scope2 := scope.(phase := SCOPE_ELSE_BODY);
    var s2 := t1.(blocks := t1.blocks[n + 1 := BBasic(Range(|t1.ops|, 0))], scopes := st.scopes + [scope2], current := n + 1, depth := st.depth + 1);
    FeedOne(t1, WElse, Words(no) + ([WDone] + ws), ntypes, s2);
    var t2 := Builds(no, s2, loop, ntypes);
    FeedPart(s2, Words(no), [WDone] + ws, ntypes, t2);
    var second := TreeOf(no, [], st.depth + 1, loop);
    GrewFacts(s2, t2, second);
    DoneFed(st, t2, scope2, ntypes);
    s3 := t2.(blocks := t2.blocks[n + 5 := BBasic(Range(|t2.ops|, 0))], scopes := st.scopes, current := n + 5, depth := st.depth + 1);
    FeedOne(t2, WDone, ws, ntypes, s3);
    SoundTree(no, [], st.depth + 1, loop);
    SecondArm(st, t1, t2, s3, scope, middle, first, second);
  }

  lemma ElsePart(no: Source, ws: seq<Token>, depth: nat, loop: Targets)
    ensures no.Stop? ==> ElseWords(no) + ws == ws && TreeOf(no, [], depth, loop) == Basic([]) && Cost(no) == 0 && OpsIn(no) == []
    ensures !no.Stop? ==> ElseWords(no) + ws == [WElse] + (Words(no) + ws)
  {
  }

  /** The other arm, and the end of the construct. */
  lemma {:induction false} ElseInside(no: Source, ws: seq<Token>, st: State, t1: State, middle: Block, first: Tree, loop: Targets, ntypes: nat)
      returns (s3: State)
    requires Stands(st, loop) && Legal(no, loop.InLoop?) && InRange(t1) && |t1.blocks| + Cost(no) < INVALID
    requires FirstArm(st, t1, IfScope(st).(phase := SCOPE_BODY), middle, first)
    ensures InRange(s3) && Feed(t1, ElseWords(no) + ([WDone] + ws), ntypes) == Feed(s3, ws, ntypes)
    ensures BothArms(st, s3, middle, first, TreeOf(no, [], st.depth + 1, loop))
    ensures |s3.blocks| == |t1.blocks| + Cost(no) && s3.ops == t1.ops + OpsIn(no)
    decreases no, 4
  {
    hide Stands, InRange, Feed, Words, Legal, Cost, OpsIn, TreeOf, FirstArm, BothArms, ElseWords;
    StandsFacts(st, loop);
    ElsePart(no, [WDone] + ws, st.depth + 1, loop);
    if no.Stop? {
      s3 := DoneAlone(ws, st, t1, middle, first, loop, ntypes);
    } else {
      s3 := ElseBuilds(no, ws, st, t1, middle, first, loop, ntypes);
    }
  }

  lemma EmptyRep(bs: seq<Block>, ops: seq<Op>, i: nat)
    requires i < |bs| && bs[i] == BBasic(Range(|ops|, 0))
    ensures Rep(bs, ops, i, Basic([])) && Sound(Basic([])) && Foot(bs, i, Basic([])) == {i}
    ensures forall lo: nat :: Beyond(Foot(bs, i, Basic([])), i, lo)
  {
  }

  lemma ChooseParts(s: Source, inLoop: bool)
    requires s.Choose? && Legal(s, inLoop)
    ensures Words(s) == [WIf] + ([WOpen] + (OpWords(s.cond) + ([WClose] + (Words(s.yes) + (ElseWords(s.no) + ([WDone] + Words(s.rest)))))))
    ensures Legal(s.yes, inLoop) && Legal(s.no, inLoop) && Legal(s.rest, inLoop)
    ensures Cost(s) == 7 + Cost(s.yes) + Cost(s.no) + Cost(s.rest)
  {
  }

  lemma {:induction false} ChooseFirst(cond: seq<Op>, yes: Source, ws: seq<Token>, st: State, loop: Targets, ntypes: nat) returns (t1: State)
    requires Stands(st, loop) && Legal(yes, loop.InLoop?) && |st.blocks| + 7 + Cost(yes) < INVALID
    ensures InRange(t1) && InRange(st)
    ensures Feed(st, [WIf] + ([WOpen] + (OpWords(cond) + ([WClose] + (Words(yes) + ws)))), ntypes) == Feed(t1, ws, ntypes)
    ensures FirstArm(st, t1, IfScope(st).(phase := SCOPE_BODY), BBranch(Range(|st.ops|, |cond|), |st.blocks|, |st.blocks| + 1),
                     TreeOf(yes, [], st.depth + 1, loop))
    ensures |t1.blocks| == |st.blocks| + 7 + Cost(yes) && t1.ops == st.ops + cond + OpsIn(yes)
    decreases yes, 3
  {
    hide Step, Stands, IfBegun, InRange, Grew, Rep, Feed, Beyond, Foot, Sound, Here, Conditioned, Selects, Words, Legal, Cost, OpsIn, TreeOf, OpWords;
    StandsFacts(st, loop);
    IfShape(st);
    var s1 := IfBegun(st).value;
    ConditionedFacts(st, s1, cond);
    CondFed(st, cond, Words(yes) + ws, loop, ntypes);
    var s4 := Conditioned(st, s1, cond);
    ConditionedStands(st, s1, cond, loop);
    t1 := Builds(yes, s4, loop, ntypes);
    FeedPart(s4, Words(yes), ws, ntypes, t1);
    var first := TreeOf(yes, [], st.depth + 1, loop);
    GrewFacts(s4, t1, first);
    SoundTree(yes, [], st.depth + 1, loop);
  }

  /** A whole IF, in front of any words. */
  lemma {:induction false} ChooseArms(s: Source, cond: seq<Op>, yes: Source, no: Source, ws: seq<Token>, st: State, loop: Targets, ntypes: nat)
      returns (s3: State)
    requires Stands(st, loop) && Legal(yes, loop.InLoop?) && Legal(no, loop.InLoop?) && s.Choose? && yes == s.yes && no == s.no
    requires |st.blocks| + 7 + Cost(yes) + Cost(no) < INVALID
    ensures InRange(s3) && InRange(st)
    ensures Feed(st, [WIf] + ([WOpen] + (OpWords(cond) + ([WClose] + (Words(yes) + (ElseWords(no) + ([WDone] + ws)))))), ntypes) == Feed(s3, ws, ntypes)
    ensures Spliced(st, s3, Branch(cond, TreeOf(yes, [], st.depth + 1, loop), TreeOf(no, [], st.depth + 1, loop)))
    ensures |s3.blocks| == |st.blocks| + 7 + Cost(yes) + Cost(no) && s3.ops == st.ops + cond + OpsIn(yes) + OpsIn(no)
    decreases s, 0
  {
    hide Stands, InRange, Feed, Words, ElseWords, Legal, Cost, OpsIn, TreeOf, FirstArm, BothArms, Spliced, OpWords;
    StandsFacts(st, loop);
    var n, r := |st.blocks|, Range(|st.ops|, |cond|);
    var t1 := ChooseFirst(cond, yes, ElseWords(no) + ([WDone] + ws), st, loop, ntypes);
    var first, second := TreeOf(yes, [], st.depth + 1, loop), TreeOf(no, [], st.depth + 1, loop);
    s3 := ElseInside(no, ws, st, t1, BBranch(r, n, n + 1), first, loop, ntypes);
    BranchSpliced(st, s3, cond, first, second);
  }

  lemma {:induction false} ChooseInside(s: Source, st: State, loop: Targets, ntypes: nat) returns (s3: State)
    requires s.Choose? && Stands(st, loop) && Legal(s, loop.InLoop?) && |st.blocks| + Cost(s) < INVALID
    ensures InRange(s3) && InRange(st) && Feed(st, Words(s), ntypes) == Feed(s3, Words(s.rest), ntypes)
    ensures Spliced(st, s3, Branch(s.cond, TreeOf(s.yes, [], st.depth + 1, loop), TreeOf(s.no, [], st.depth + 1, loop)))
    ensures |s3.blocks| + Cost(s.rest) == |st.blocks| + Cost(s) && s3.ops + OpsIn(s.rest) == st.ops + OpsIn(s)
    decreases s, 1
  {
    ChooseParts(s, loop.InLoop?);
    hide Stands, InRange, Feed, Words, ElseWords, Legal, Cost, OpsIn, TreeOf, Spliced, OpWords;
    s3 := ChooseArms(s, s.cond, s.yes, s.no, Words(s.rest), st, loop, ntypes);
    ChooseOps(s, st.ops, s3.ops);
  }

  // ----- whole sources -----

  /** A source is accepted, and block 0 stands for the tree one reads off it. */
  lemma SourceMeans(s: Source, ntypes: nat)
    requires Legal(s, false) && 1 + Cost(s) < INVALID
    ensures InRange(START) && Compiled(START, Words(s), ntypes).Some?
    ensures var t := Compiled(START, Words(s), ntypes).value;
      Rep(t.blocks, t.ops, 0, TreeOf(s, [], 0, NoLoop)) && t.ops == OpsIn(s) && |t.blocks| == 1 + Cost(s)
  {
    hide Rep, Feed, Step;
    assert Stands(START, NoLoop) && Here(START) == [];
    var t := Builds(s, START, NoLoop, ntypes);
    assert [] + OpsIn(s) == OpsIn(s);
  }
}
