/** `remove_defers` on the block array: the array is rewritten in place while an epilogue
    stack records the cleanups that are pending. It computes the lowering of trees. */
module DeferRemover {
  import opened Ir
  import opened Lowering
  import opened FlatBlocks

  // ----- how many blocks the lowering of a tree appends -----

  function Added(t: Tree, epis: seq<Epi>): nat
    decreases Size(t)
  {
    var below := [Nothing] + epis;
    match t
    case Defer(next, cleanup) =>
      4 + Added(cleanup, below) + Added(next, [Pending(Lower(cleanup, below))] + epis)
    case CrashPad(body, pad) =>
      2 + Added(pad, below) + Added(body, [Pending(Lower(pad, below))] + epis)
    case Many(kids) => AddedKids(kids, below, true)
    case Branch(_, yes, no) => 2 + Added(yes, below) + Added(no, below)
    case Loop(body) => 1 + Added(body, below)
    case Var(_, body) => 1 + Added(body, below)
    case Break(level) => var n := |Inlined(below, level)|; if n == 0 then 0 else 2 * n + 1
    case _ => 0
  }

  function AddedKids(ch: Chain, epis: seq<Epi>, first: bool): nat
    decreases ChainSize(ch)
  {
    if !ch.Link? then 0
    else (if first then 1 else 2) + Added(ch.cur, epis) + AddedKids(ch.rest, epis, false)
  }

  /** What the code takes for granted of its input: indices of blocks that are reached lie in
      the array, and a break does not ask for more entries than the epilogue stack has. */
  predicate Acceptable(t: Tree, depth: nat)
    decreases Size(t)
  {
    match t
    case Defer(next, cleanup) => Acceptable(next, depth + 1) && Acceptable(cleanup, depth + 1)
    case CrashPad(body, pad) => Acceptable(body, depth + 1) && Acceptable(pad, depth + 1)
    case Many(kids) => ChainAcceptable(kids, depth + 1)
    case Branch(_, yes, no) => Acceptable(yes, depth + 1) && Acceptable(no, depth + 1)
    case Loop(body) => Acceptable(body, depth + 1)
    case Var(_, body) => Acceptable(body, depth + 1)
    case Break(level) => level <= depth + 1
    case Missing => false
    case _ => true
  }

  predicate ChainAcceptable(ch: Chain, depth: nat)
    decreases ChainSize(ch)
  {
    ch.Link? ==> Acceptable(ch.cur, depth) && ChainAcceptable(ch.rest, depth)
  }

  predicate EpisSound(epis: seq<Epi>) {
    forall k :: 0 <= k < |epis| && epis[k].Pending? ==> Sound(epis[k].cleanup)
  }

  lemma {:induction false} InlinedSound(epis: seq<Epi>, n: nat)
    requires EpisSound(epis)
    ensures forall c :: c in Inlined(epis, n) ==> Sound(c)
  {
    if n > 0 && |epis| > 0 { InlinedSound(epis[1..], n - 1); }
  }

  lemma {:induction false} SequenceSound(cs: seq<Tree>, last: Tree)
    requires Sound(last) && forall c :: c in cs ==> Sound(c)
    ensures ChainSound(Sequence(cs, last))
  {
    if |cs| > 0 { SequenceSound(cs[1..], last); }
  }

  /** Every index in the output leads to a block of the output. */
  lemma {:induction false} LowerSound(t: Tree, epis: seq<Epi>)
    requires Acceptable(t, |epis|) && EpisSound(epis)
    ensures Sound(Lower(t, epis))
    decreases Size(t)
  {
    var below := [Nothing] + epis;
    match t
    case Defer(next, cleanup) =>
      var c := Lower(cleanup, below);
      LowerSound(cleanup, below);
      LowerSound(next, [Pending(c)] + epis);
      assert ChainSound(Link(c, End));
    case CrashPad(body, pad) => LowerSound(pad, below); LowerSound(body, [Pending(Lower(pad, below))] + epis);
    case Many(kids) => LowerChainSound(kids, below);
    case Branch(_, yes, no) => LowerSound(yes, below); LowerSound(no, below);
    case Loop(body) => LowerSound(body, below);
    case Var(_, body) => LowerSound(body, below);
    case Break(level) => InlinedSound(below, level); SequenceSound(Inlined(below, level), Break(level + 1));
    case _ =>
  }

  lemma {:induction false} LowerChainSound(ch: Chain, epis: seq<Epi>)
    requires ChainAcceptable(ch, |epis|) && EpisSound(epis)
    ensures ChainSound(LowerChain(ch, epis))
    decreases ChainSize(ch)
  {
    if ch.Link? {
      LowerSound(ch.cur, epis);
      LowerChainSound(ch.rest, epis);
    }
  }

  // ----- the state of the rewriting -----

  /** An epilogue entry: 0, or the block of a cleanup that is already lowered. */
  predicate EpiOk(bs: seq<Block>, ops: seq<Op>, d: nat, e: Epi) {
    match e
    case Nothing => d == 0
    case Pending(c) => 0 < d < |bs| && Sound(c) && Rep(bs, ops, d, c)
  }

  predicate EpisOk(bs: seq<Block>, ops: seq<Op>, ds: seq<nat>, es: seq<Epi>) {
    |ds| == |es| && forall k :: 0 <= k < |es| ==> EpiOk(bs, ops, ds[k], es[k])
  }

  /** The blocks that pending cleanups occupy. */
  function EpiFoot(bs: seq<Block>, ds: seq<nat>, es: seq<Epi>): set<nat>
    requires |ds| == |es|
  {
    if |es| == 0 then {}
    else (if es[0].Pending? then Foot(bs, ds[0], es[0].cleanup) else {}) + EpiFoot(bs, ds[1..], es[1..])
  }

  lemma {:induction false} EpisFrame(bs: seq<Block>, cs: seq<Block>, ops: seq<Op>, ds: seq<nat>, es: seq<Epi>)
    requires EpisOk(bs, ops, ds, es) && AgreeAt(bs, cs, EpiFoot(bs, ds, es)) && |cs| <= INVALID
    ensures EpisOk(cs, ops, ds, es) && EpiFoot(cs, ds, es) == EpiFoot(bs, ds, es)
  {
    if |es| > 0 {
      if es[0].Pending? { RepFrame(bs, cs, ops, ds[0], es[0].cleanup); }
      EpisFrame(bs, cs, ops, ds[1..], es[1..]);
      forall k | 0 <= k < |es| ensures EpiOk(cs, ops, ds[k], es[k]) {
        if k > 0 { assert ds[k] == ds[1..][k - 1] && es[k] == es[1..][k - 1]; }
      }
    }
  }

  lemma EpisPush(bs: seq<Block>, ops: seq<Op>, ds: seq<nat>, es: seq<Epi>, d: nat, e: Epi)
    requires EpisOk(bs, ops, ds, es) && EpiOk(bs, ops, d, e)
    ensures EpisOk(bs, ops, [d] + ds, [e] + es)
    ensures EpiFoot(bs, [d] + ds, [e] + es) == (if e.Pending? then Foot(bs, d, e.cleanup) else {}) + EpiFoot(bs, ds, es)
  {
    assert ([d] + ds)[1..] == ds && ([e] + es)[1..] == es;
  }

  lemma {:induction false} EpiFootHas(bs: seq<Block>, ds: seq<nat>, es: seq<Epi>, k: nat)
    requires |ds| == |es| && k < |es| && es[k].Pending?
    ensures Foot(bs, ds[k], es[k].cleanup) <= EpiFoot(bs, ds, es)
  {
    if k > 0 { EpiFootHas(bs, ds[1..], es[1..], k - 1); }
  }

  lemma {:induction false} EpiFootInRange(bs: seq<Block>, ds: seq<nat>, es: seq<Epi>)
    requires |ds| == |es|
    ensures forall i :: i in EpiFoot(bs, ds, es) ==> i < |bs|
  {
    if |es| > 0 {
      if es[0].Pending? { FootInRange(bs, ds[0], es[0].cleanup); }
      EpiFootInRange(bs, ds[1..], es[1..]);
    }
  }

  /** The state in which slot `dst` may be filled with the lowering of t. */
  ghost predicate Ready(bs: seq<Block>, ops: seq<Op>, ds: seq<nat>, es: seq<Epi>, dst: nat, t: Tree) {
    && EpisOk(bs, ops, ds, es) && dst < |bs| && dst !in EpiFoot(bs, ds, es)
    && |bs| + Added(t, es) <= INVALID && Acceptable(t, |es|)
  }

  /** Slot `dst` now stands for u. Apart from it only new blocks were written, and what it
      reaches is itself, new blocks and shared ones. */
  ghost predicate Written(bs: seq<Block>, cs: seq<Block>, ops: seq<Op>, shared: set<nat>, dst: nat, u: Tree) {
    && |bs| <= |cs| <= INVALID
    && (forall i :: 0 <= i < |bs| && i != dst ==> cs[i] == bs[i])
    && Rep(cs, ops, dst, u) && Sound(u)
    && (forall i :: i in Foot(cs, dst, u) ==> i == dst || |bs| <= i || i in shared)
  }

  /** Slot `dst` stands for the lowering of t, which shares only pending cleanups. */
  ghost predicate Lowered(bs: seq<Block>, cs: seq<Block>, ops: seq<Op>, ds: seq<nat>, es: seq<Epi>, dst: nat, t: Tree)
    requires |ds| == |es|
  {
    |cs| == |bs| + Added(t, es) && Written(bs, cs, ops, EpiFoot(bs, ds, es), dst, Lower(t, es))
  }

  lemma EntryOk(bs: seq<Block>, ops: seq<Op>, ds: seq<nat>, es: seq<Epi>, k: nat)
    requires EpisOk(bs, ops, ds, es) && k < |es|
    ensures k < |ds| && EpiOk(bs, ops, ds[k], es[k])
  {
  }

  /** After lowering into a slot, the pending cleanups are as they were. */
  lemma EpisStay(bs: seq<Block>, cs: seq<Block>, ops: seq<Op>, ds: seq<nat>, es: seq<Epi>, dst: nat)
    requires EpisOk(bs, ops, ds, es) && dst !in EpiFoot(bs, ds, es) && |bs| <= |cs| <= INVALID
    requires forall i :: 0 <= i < |bs| && i != dst ==> cs[i] == bs[i]
    ensures EpisOk(cs, ops, ds, es) && EpiFoot(cs, ds, es) == EpiFoot(bs, ds, es)
  {
    EpiFootInRange(bs, ds, es);
    EpisFrame(bs, cs, ops, ds, es);
  }

  lemma EpisPop(bs: seq<Block>, ops: seq<Op>, ds: seq<nat>, es: seq<Epi>)
    requires EpisOk(bs, ops, ds, es) && |es| > 0
    ensures EpisOk(bs, ops, ds[1..], es[1..]) && EpiFoot(bs, ds[1..], es[1..]) <= EpiFoot(bs, ds, es)
    ensures es[0].Nothing? ==> EpiFoot(bs, ds, es) == EpiFoot(bs, ds[1..], es[1..])
  {
    forall k | 0 <= k < |es| - 1 ensures EpiOk(bs, ops, ds[1..][k], es[1..][k]) {
      assert EpiOk(bs, ops, ds[k + 1], es[k + 1]);
    }
  }

  /** After linking new blocks to slot `dst`, its children may be lowered: nothing pending
      lies in the new blocks. */
  lemma SlotsReady(bs: seq<Block>, cs: seq<Block>, ops: seq<Op>, ds: seq<nat>, es: seq<Epi>, dst: nat)
    requires EpisOk(bs, ops, ds, es) && dst !in EpiFoot(bs, ds, es) && |bs| <= |cs| <= INVALID
    requires forall i :: 0 <= i < |bs| && i != dst ==> cs[i] == bs[i]
    ensures EpisOk(cs, ops, [0] + ds, [Nothing] + es)
    ensures EpisOk(cs, ops, ds, es) && EpiFoot(cs, ds, es) == EpiFoot(bs, ds, es)
    ensures EpiFoot(cs, [0] + ds, [Nothing] + es) == EpiFoot(bs, ds, es)
    ensures forall i :: i in EpiFoot(bs, ds, es) ==> i < |bs|
  {
    EpisStay(bs, cs, ops, ds, es, dst);
    EpisPush(cs, ops, ds, es, 0, Nothing);
    EpiFootInRange(bs, ds, es);
  }

  /** The first new slot is ready for a tree under an entry without cleanup. */
  lemma FirstReady(bs: seq<Block>, cs: seq<Block>, ops: seq<Op>, ds: seq<nat>, es: seq<Epi>, dst: nat, slot: nat, u: Tree)
    requires EpisOk(bs, ops, ds, es) && dst !in EpiFoot(bs, ds, es) && |bs| <= slot < |cs| <= INVALID
    requires forall i :: 0 <= i < |bs| && i != dst ==> cs[i] == bs[i]
    requires |cs| + Added(u, [Nothing] + es) <= INVALID && Acceptable(u, |es| + 1)
    ensures Ready(cs, ops, [0] + ds, [Nothing] + es, slot, u)
    ensures EpiFoot(cs, ds, es) == EpiFoot(bs, ds, es)
    ensures forall i :: i in EpiFoot(bs, ds, es) ==> i < |bs|
  {
    SlotsReady(bs, cs, ops, ds, es, dst);
  }

  /** After the cleanup is in its slot, the slot of the protected part is ready. */
  lemma NextReady(cs: seq<Block>, ops: seq<Op>, ds: seq<nat>, es: seq<Epi>, slot: nat, c: Tree, shared: set<nat>,
                  zs: seq<Block>, bs: seq<Block>, next: nat, u: Tree)
    requires |ds| == |es| && EpisOk(cs, ops, [slot] + ds, [Pending(c)] + es)
    requires EpiFoot(cs, [slot] + ds, [Pending(c)] + es) == Foot(cs, slot, c) + shared
    requires Written(bs, cs, ops, shared, slot, c) && |zs| <= next < |bs| && next != slot
    requires forall i :: i in shared ==> i < |zs|
    requires |cs| + Added(u, [Pending(c)] + es) <= INVALID && Acceptable(u, |es| + 1)
    ensures Ready(cs, ops, [slot] + ds, [Pending(c)] + es, next, u)
  {
  }

  // ----- a MANY block under construction -----

  ghost predicate KidDone(bs: seq<Block>, ops: seq<Op>, i: nat, t: Tree, avoid: set<nat>, lo: nat, shared: set<nat>) {
    Rep(bs, ops, i, t) && Sound(t) && forall x :: x in Foot(bs, i, t) ==> x !in avoid && (lo <= x || x in shared)
  }

  ghost predicate KidsDone(bs: seq<Block>, ops: seq<Op>, kids: seq<nat>, ts: seq<Tree>, avoid: set<nat>, lo: nat, shared: set<nat>) {
    |ts| <= |kids| && forall j :: 0 <= j < |ts| ==> KidDone(bs, ops, kids[j], ts[j], avoid, lo, shared)
  }

  lemma KidsStay(bs: seq<Block>, cs: seq<Block>, ops: seq<Op>, kids: seq<nat>, more: seq<nat>, ts: seq<Tree>,
                 avoid: set<nat>, avoid1: set<nat>, lo: nat, shared: set<nat>)
    requires KidsDone(bs, ops, kids, ts, avoid, lo, shared) && |bs| <= |cs| <= INVALID
    requires forall i :: 0 <= i < |bs| && i !in avoid ==> cs[i] == bs[i]
    requires forall x :: x in avoid1 ==> x in avoid || |bs| <= x
    ensures KidsDone(cs, ops, kids + more, ts, avoid1, lo, shared)
  {
    forall j | 0 <= j < |ts| ensures KidDone(cs, ops, (kids + more)[j], ts[j], avoid1, lo, shared) {
      assert KidDone(bs, ops, kids[j], ts[j], avoid, lo, shared);
      FootInRange(bs, kids[j], ts[j]);
      RepFrame(bs, cs, ops, kids[j], ts[j]);
    }
  }

  /** Slot `dst` of bs has become a MANY block with finished children that stand for ts. */
  ghost predicate Building(bs: seq<Block>, cs: seq<Block>, ops: seq<Op>, shared: set<nat>, dst: nat,
                           kids: seq<nat>, links: seq<nat>, ts: seq<Tree>) {
    && dst < |bs| <= |cs| && Linked(cs, dst, kids, links) && |ts| == |kids|
    && (forall i :: 0 <= i < |bs| && i != dst ==> cs[i] == bs[i])
    && (forall k :: 0 <= k < |links| ==> |bs| <= links[k])
    && (forall j, k :: 0 <= j < k < |links| ==> links[j] < links[k])
    && KidsDone(cs, ops, kids, ts, {dst} + SetOf(links), |bs|, shared)
  }

  lemma KidCount(bs: seq<Block>, cs: seq<Block>, ops: seq<Op>, shared: set<nat>, dst: nat, kids: seq<nat>, links: seq<nat>, ts: seq<Tree>)
    requires Building(bs, cs, ops, shared, dst, kids, links, ts)
    ensures |kids| == |ts|
  {
  }

  lemma {:induction false} ChainOfSound(ts: seq<Tree>)
    requires forall j :: 0 <= j < |ts| ==> Sound(ts[j])
    ensures ChainSound(ChainOf(ts))
  {
    if |ts| > 0 { ChainOfSound(ts[1..]); }
  }

  lemma Built(bs: seq<Block>, cs: seq<Block>, ops: seq<Op>, shared: set<nat>, dst: nat, kids: seq<nat>, links: seq<nat>, ts: seq<Tree>)
    requires Building(bs, cs, ops, shared, dst, kids, links, ts)
    ensures Written(bs, cs, ops, shared, dst, Many(ChainOf(ts)))
  {
    assert forall j :: 0 <= j < |kids| ==> KidDone(cs, ops, kids[j], ts[j], {dst} + SetOf(links), |bs|, shared);
    LinkedRep(cs, ops, dst, kids, links, ts);
    ChainOfSound(ts);
  }

  lemma NewKid(cs: seq<Block>, ops: seq<Op>, shared: set<nat>, dst: nat, links: seq<nat>, child: nat, u: Tree, lo: nat, hi: nat)
    requires Rep(cs, ops, child, u) && Sound(u) && dst !in shared && dst < lo <= child < hi
    requires forall x :: x in shared ==> x < lo
    requires forall x :: x in Foot(cs, child, u) ==> x == child || hi <= x || x in shared
    requires forall x :: x in links ==> lo <= x < hi && x != child
    ensures KidDone(cs, ops, child, u, {dst} + SetOf(links), lo, shared)
  {
  }

  /** One more child, hung on the chain and then filled in. */
  lemma ChildAdded(bs: seq<Block>, r0: seq<Block>, r2: seq<Block>, r3: seq<Block>, ops: seq<Op>, shared: set<nat>, dst: nat,
                   kids: seq<nat>, links: seq<nat>, links1: seq<nat>, ts: seq<Tree>, child: nat, u: Tree)
    requires Building(bs, r0, ops, shared, dst, kids, links, ts) && child == |r0| < |r2| <= |r3| <= INVALID
    requires Linked(r2, dst, kids + [child], links1) && (links1 == links || (links1 == links + [child + 1] && child + 1 < |r2|))
    requires forall i :: 0 <= i < |r0| && i != dst && i !in links ==> r2[i] == r0[i]
    requires forall i :: 0 <= i < |r2| && i != child ==> r3[i] == r2[i]
    requires Rep(r3, ops, child, u) && Sound(u) && dst !in shared && forall x :: x in shared ==> x < |bs|
    requires forall x :: x in Foot(r3, child, u) ==> x == child || |r2| <= x || x in shared
    ensures Building(bs, r3, ops, shared, dst, kids + [child], links1, ts + [u])
  {
    var avoid, avoid1 := {dst} + SetOf(links), {dst} + SetOf(links1);
    forall x | x in links1 ensures |bs| <= x < |r2| && x != child {
      var k :| 0 <= k < |links1| && links1[k] == x;
    }
    NewKid(r3, ops, shared, dst, links1, child, u, |bs|, |r2|);
    OldKids(r0, r2, r3, ops, kids, ts, avoid, avoid1, child, |bs|, shared);
    KidsSnoc(r3, ops, kids, ts, avoid1, |bs|, shared, child, u);
  }

  lemma OldKids(r0: seq<Block>, r2: seq<Block>, r3: seq<Block>, ops: seq<Op>, kids: seq<nat>, ts: seq<Tree>,
                avoid: set<nat>, avoid1: set<nat>, child: nat, lo: nat, shared: set<nat>)
    requires KidsDone(r0, ops, kids, ts, avoid, lo, shared) && child == |r0| < |r2| <= |r3| <= INVALID
    requires forall i :: 0 <= i < |r0| && i !in avoid ==> r2[i] == r0[i]
    requires forall i :: 0 <= i < |r2| && i != child ==> r3[i] == r2[i]
    requires forall x :: x in avoid1 ==> x in avoid || |r0| <= x
    ensures KidsDone(r3, ops, kids, ts, avoid1, lo, shared)
  {
    KidsStay(r0, r2, ops, kids, [], ts, avoid, avoid1 + {child}, lo, shared);
    KidsStay(r2, r3, ops, kids + [], [], ts, avoid1 + {child}, avoid1, lo, shared);
    assert kids + [] + [] == kids;
  }

  lemma KidsSnoc(bs: seq<Block>, ops: seq<Op>, kids: seq<nat>, ts: seq<Tree>, avoid: set<nat>, lo: nat, shared: set<nat>, child: nat, u: Tree)
    requires |kids| == |ts| && KidsDone(bs, ops, kids, ts, avoid, lo, shared) && KidDone(bs, ops, child, u, avoid, lo, shared)
    ensures KidsDone(bs, ops, kids + [child], ts + [u], avoid, lo, shared)
  {
    forall j | 0 <= j < |ts| + 1
      ensures KidDone(bs, ops, (kids + [child])[j], (ts + [u])[j], avoid, lo, shared)
    {
      if j < |ts| { assert KidDone(bs, ops, kids[j], ts[j], avoid, lo, shared); }
    }
  }

  lemma {:induction false} SequenceIsChain(cs: seq<Tree>, last: Tree)
    ensures Sequence(cs, last) == ChainOf(cs + [last])
  {
    if |cs| == 0 {
      assert cs + [last] == [last] && [last][1..] == [];
    } else {
      assert (cs + [last])[1..] == cs[1..] + [last];
      SequenceIsChain(cs[1..], last);
    }
  }

  lemma {:induction false} InlinedStep(es: seq<Epi>, i: nat, n: nat)
    requires i < |es| && i < n
    ensures Inlined(es, i + 1) == if es[i].Pending? then Inlined(es, i) + [es[i].cleanup] else Inlined(es, i)
    ensures |Inlined(es, i + 1)| <= |Inlined(es, n)|
  {
    if i > 0 { InlinedStep(es[1..], i - 1, n - 1); }
  }

  /** What was written after slot `dst` got its first contents. */
  lemma LoweredFrom(as0: seq<Block>, bs: seq<Block>, cs: seq<Block>, ops: seq<Op>, ds: seq<nat>, es: seq<Epi>, dst: nat, t: Tree)
    requires |ds| == |es| && |bs| == |as0| && forall i :: 0 <= i < |bs| && i != dst ==> bs[i] == as0[i]
    requires EpiFoot(bs, ds, es) == EpiFoot(as0, ds, es) && Lowered(bs, cs, ops, ds, es, dst, t)
    ensures Lowered(as0, cs, ops, ds, es, dst, t)
  {
  }

  /** A block without children is its own lowering. */
  lemma LeafLowered(from: seq<Block>, bs: seq<Block>, ops: seq<Op>, ds: seq<nat>, es: seq<Epi>, src: nat, dst: nat, t: Tree)
    requires Rep(from, ops, src, t) && Acceptable(t, |es|) && |ds| == |es| && dst < |bs| <= INVALID && bs[dst] == from[src]
    requires t.Basic? || t.SoftCrash? || t.HardCrash? || t.Stray?
    ensures Lowered(bs, bs, ops, ds, es, dst, t)
  {
  }

  /** Where the walk along a chain goes on. */
  lemma NextChild(bs: seq<Block>, ops: seq<Op>, next: nat, ch: Chain)
    requires RepRest(bs, ops, next, ch)
    ensures if next == INVALID || next >= |bs| || !bs[next].BChain? then !ch.Link?
            else RepKids(bs, ops, bs[next].cur, bs[next].next, ch) && (bs[next].cur == INVALID ==> !ch.Link?)
  {
  }

  lemma BuildingLinked(bs: seq<Block>, cs: seq<Block>, ops: seq<Op>, shared: set<nat>, dst: nat,
                       kids: seq<nat>, links: seq<nat>, ts: seq<Tree>)
    requires Building(bs, cs, ops, shared, dst, kids, links, ts)
    ensures Linked(cs, dst, kids, links) && dst !in links
    ensures forall j, k :: 0 <= j < k < |links| ==> links[j] < links[k]
    ensures cs[dst].cur == INVALID <==> |ts| == 0
  {
  }

  /** A break that has nothing to run stays a break. */
  lemma BreakAlone(bs: seq<Block>, cs: seq<Block>, ops: seq<Op>, ds: seq<nat>, es: seq<Epi>, dst: nat, level: nat,
                   kids: seq<nat>, links: seq<nat>)
    requires |ds| == |es| && Inlined([Nothing] + es, level) == [] && |cs| == |bs|
    requires Building(bs, cs, ops, EpiFoot(bs, ds, es), dst, kids, links, [])
    ensures Lowered(bs, cs[dst := BBreak(level)], ops, ds, es, dst, Break(level))
  {
    assert Lower(Break(level), es) == Break(level);
  }

  lemma BreakLeaf(bs: seq<Block>, ops: seq<Op>, i: nat, level: nat)
    requires i < |bs| && bs[i] == BBreak(level)
    ensures Rep(bs, ops, i, Break(level)) && Foot(bs, i, Break(level)) == {i} && Sound(Break(level))
  {
  }

  /** Otherwise the break becomes the last child, one level further out. */
  lemma BreakAdded(bs: seq<Block>, r0: seq<Block>, rs: seq<Block>, ops: seq<Op>, shared: set<nat>, dst: nat, level: nat,
                   kids: seq<nat>, links: seq<nat>, links1: seq<nat>, ts: seq<Tree>)
    requires dst !in shared && forall x :: x in shared ==> x < |bs|
    requires Building(bs, r0, ops, shared, dst, kids, links, ts)
    requires |rs| == |r0| + 2 <= INVALID && rs[|r0|] == BBreak(level + 1)
    requires Linked(rs, dst, kids + [|r0|], links1) && links1 == links + [|r0| + 1]
    requires forall i :: 0 <= i < |r0| && i != dst && i !in links ==> rs[i] == r0[i]
    ensures Written(bs, rs, ops, shared, dst, Many(ChainOf(ts + [Break(level + 1)])))
  {
    var u, child: nat := Break(level + 1), |r0|;
    BreakLeaf(rs, ops, child, level + 1);
    ChildAdded(bs, r0, rs, rs, ops, shared, dst, kids, links, links1, ts, child, u);
    Built(bs, rs, ops, shared, dst, kids + [child], links1, ts + [u]);
  }

  lemma BreakShape(es: seq<Epi>, level: nat, ts: seq<Tree>)
    requires ts == Inlined([Nothing] + es, level) && |ts| > 0
    ensures Lower(Break(level), es) == Many(ChainOf(ts + [Break(level + 1)]))
    ensures Added(Break(level), es) == 2 * |ts| + 1
  {
    SequenceIsChain(ts, Break(level + 1));
  }

  lemma CopyWritten(bs: seq<Block>, r0: seq<Block>, rs: seq<Block>, ops: seq<Op>, shared: set<nat>, dst: nat,
                    kids: seq<nat>, links: seq<nat>, links1: seq<nat>, ts: seq<Tree>, d: nat, child: nat, u: Tree)
    requires Building(bs, r0, ops, shared, dst, kids, links, ts) && child == |r0| < |rs| <= INVALID
    requires dst !in shared && forall x :: x in shared ==> x < |bs|
    requires d < |r0| && Rep(r0, ops, d, u) && Sound(u) && Foot(r0, d, u) <= shared && rs[child] == r0[d]
    requires Linked(rs, dst, kids + [child], links1) && (links1 == links || (links1 == links + [child + 1] && child + 1 < |rs|))
    requires forall i :: 0 <= i < |r0| && i != dst && i !in links ==> rs[i] == r0[i]
    ensures Building(bs, rs, ops, shared, dst, kids + [child], links1, ts + [u]) && AgreeAt(r0, rs, shared)
  {
    assert forall x :: x in links ==> |bs| <= x;
    RepFrame(r0, rs, ops, d, u);
    assert d in Foot(r0, d, u);
    RepCopy(rs, ops, d, child, u);
    ChildAdded(bs, r0, rs, rs, ops, shared, dst, kids, links, links1, ts, child, u);
  }

  class Remover {
    const blocks: seq<Block>
    const ops: seq<Op>
    var res: seq<Block>
    var epis: seq<nat>  // top first

    constructor (blocks: seq<Block>, ops: seq<Op>)
      ensures this.blocks == blocks && this.ops == ops && |res| == 1 && epis == []
    {
      this.blocks := blocks;
      this.ops := ops;
      res := [BHardCrash];
      epis := [];
    }

    /** Room for n more blocks, with nothing particular in them. */
    method Extend(n: nat) returns (first: nat)
      modifies this`res
      ensures first == |old(res)| && |res| == first + n && res[..first] == old(res)
    {
      first := |res|;
      res := res + seq(n, i => BHardCrash);
    }

    /** Hangs one more child on the MANY block at `dst`, whose last link is `prev`. */
    method Attach(dst: nat, child: nat, prev: nat, ghost kids: seq<nat>, ghost links: seq<nat>) returns (last: nat, ghost links1: seq<nat>)
      requires Linked(res, dst, kids, links) && child < |res| && |res| + (if |kids| == 0 then 0 else 1) <= INVALID
      requires prev == (if |links| == 0 then INVALID else links[|links| - 1])
      requires dst !in links && forall i, j :: 0 <= i < j < |links| ==> links[i] != links[j]
      modifies this`res
      ensures |res| == |old(res)| + (if |kids| == 0 then 0 else 1)
      ensures Linked(res, dst, kids + [child], links1)
      ensures links1 == if |kids| == 0 then links else links + [|old(res)|]
      ensures last == (if |links1| == 0 then INVALID else links1[|links1| - 1])
      ensures forall i :: 0 <= i < |old(res)| && i != dst && i !in links ==> res[i] == old(res)[i]
    {
      last, links1 := prev, links;
      if res[dst].cur == INVALID {
        res := res[dst := BMany(child, res[dst].next)];
        assert kids == [];
      } else {
        var link := Extend(1);
        res := res[link := BChain(child, INVALID)];
        if res[dst].next == INVALID {
          res := res[dst := BMany(res[dst].cur, link)];
        } else {
          res := res[prev := BChain(res[prev].cur, link)];
        }
        last, links1 := link, links + [link];
      }
    }

    /** A new block with contents b, hung on the MANY block at `dst` as its last child. */
    method AddSlot(b: Block, dst: nat, prev: nat, ghost kids: seq<nat>, ghost links: seq<nat>)
      returns (child: nat, last: nat, ghost links1: seq<nat>)
      requires Linked(res, dst, kids, links) && |res| + (if |kids| == 0 then 1 else 2) <= INVALID
      requires prev == (if |links| == 0 then INVALID else links[|links| - 1])
      requires dst !in links && forall j, k :: 0 <= j < k < |links| ==> links[j] < links[k]
      modifies this`res
      ensures child == |old(res)| && |res| == child + (if |kids| == 0 then 1 else 2) && res[child] == b
      ensures Linked(res, dst, kids + [child], links1)
      ensures links1 == if |kids| == 0 then links else links + [child + 1]
      ensures last == (if |links1| == 0 then INVALID else links1[|links1| - 1])
      ensures forall i :: 0 <= i < |old(res)| && i != dst && i !in links ==> res[i] == old(res)[i]
    {
      child := Extend(1);
      res := res[child := b];
      assert Linked(res, dst, kids, links);
      assert child !in links;
      last, links1 := Attach(dst, child, prev, kids, links);
    }

    /** Writes the lowering of block `src` into slot `dst`. */
    method Remove(src: nat, dst: nat, ghost t: Tree, ghost es: seq<Epi>)
      requires Rep(blocks, ops, src, t) && Ready(res, ops, epis, es, dst, t)
      modifies this`res, this`epis
      ensures epis == old(epis) && Lowered(old(res), res, ops, epis, es, dst, t)
      decreases Size(t), 5
    {
      var b := blocks[src];
      res := res[dst := b];
      ghost var bs, ds := res, epis;
      EpisStay(old(res), bs, ops, epis, es, dst);
      epis := [0] + epis;  // popped below
      assert epis[1..] == ds;
      match b {
        case BDefer(_, _) => RemoveDefer(b, dst, t, ds, es);
        case BCrashPad(_, _) => RemovePad(b, dst, t, ds, es);
        case BMany(_, _) => RemoveMany(b, dst, t, ds, es);
        case BBreak(level) => RemoveBreak(level, dst, t, ds, es);
        case BBranch(_, _, _) => RemoveBranch(b, dst, t, ds, es);
        case BLoop(_) => RemoveInner(b, dst, t, ds, es);
        case BVar(_, _) => RemoveInner(b, dst, t, ds, es);
        case _ => LeafLowered(blocks, bs, ops, ds, es, src, dst, t);
      }
      epis := epis[1..];
      LoweredFrom(old(res), bs, res, ops, ds, es, dst, t);
    }

    /** Lowers a cleanup, which must not have itself on the epilogue stack, and then puts it
        there in the place of the current entry. */
    method RemoveCleanup(src: nat, slot: nat, ghost t: Tree, ghost ds: seq<nat>, ghost es: seq<Epi>, ghost shared: set<nat>)
      requires Rep(blocks, ops, src, t) && epis == [0] + ds && |ds| == |es| && shared == EpiFoot(res, ds, es)
      requires Ready(res, ops, epis, [Nothing] + es, slot, t) && slot > 0
      modifies this`res, this`epis
      ensures var c := Lower(t, [Nothing] + es);
              && epis == [slot] + ds && |res| == |old(res)| + Added(t, [Nothing] + es)
              && Written(old(res), res, ops, shared, slot, c)
              && EpisOk(res, ops, epis, [Pending(c)] + es)
              && EpiFoot(res, epis, [Pending(c)] + es) == Foot(res, slot, c) + shared
      decreases Size(t), 6
    {
      ghost var bs, c := res, Lower(t, [Nothing] + es);
      EpisPop(bs, ops, epis, [Nothing] + es);
      assert ([Nothing] + es)[1..] == es && epis[1..] == ds;
      Remove(src, slot, t, [Nothing] + es);
      EpisStay(bs, res, ops, ds, es, slot);
      epis := epis[0 := slot];
      EpisPush(res, ops, ds, es, slot, Pending(c));
      assert epis == [slot] + ds;
    }

    /** The blocks a DEFER at `dst` becomes, with room for the cleanup and the protected part. */
    method LinkDefer(dst: nat) returns (dstDefer: nat, dstNext: nat)
      requires dst < |res|
      modifies this`res
      ensures var n := |old(res)|;
              && |res| == n + 4 && dstDefer == n + 2 && dstNext == n + 3
              && res[dst] == BMany(n, n + 1) && res[n] == BCrashPad(n + 3, n + 2) && res[n + 1] == BChain(n + 2, INVALID)
              && forall i :: 0 <= i < n && i != dst ==> res[i] == old(res)[i]
    {
      var dstPad := Extend(4);
      var dstChain := dstPad + 1;
      dstDefer, dstNext := dstPad + 2, dstPad + 3;
      res := res[dst := BMany(dstPad, dstChain)];
      res := res[dstChain := BChain(dstDefer, INVALID)];
      res := res[dstPad := BCrashPad(dstNext, dstDefer)];
    }

    method RemoveDefer(b: Block, dst: nat, ghost t: Tree, ghost ds: seq<nat>, ghost es: seq<Epi>)
      requires b.BDefer? && t.Defer? && Rep(blocks, ops, b.next, t.next) && Rep(blocks, ops, b.cleanup, t.cleanup)
      requires epis == [0] + ds && Ready(res, ops, ds, es, dst, t)
      modifies this`res, this`epis
      ensures |epis| > 0 && epis[1..] == ds && Lowered(old(res), res, ops, ds, es, dst, t)
      decreases Size(t), 4
    {
      hide Foot, Written, EpiFoot, Rep, Sound;
      ghost var c := Lower(t.cleanup, [Nothing] + es);
      ghost var inside := [Pending(c)] + es;
      ghost var shared := EpiFoot(res, ds, es);
      var dstDefer, dstNext := LinkDefer(dst);
      ghost var bs := res;
      FirstReady(old(res), bs, ops, ds, es, dst, dstDefer, t.cleanup);
      RemoveCleanup(b.cleanup, dstDefer, t.cleanup, ds, es, shared);
      ghost var cs := res;
      NextReady(cs, ops, ds, es, dstDefer, c, shared, old(res), bs, dstNext, t.next);
      Remove(b.next, dstNext, t.next, inside);
      DeferWritten(old(res), bs, cs, res, ops, shared, dst, c, Lower(t.next, inside));
    }

    method RemovePad(b: Block, dst: nat, ghost t: Tree, ghost ds: seq<nat>, ghost es: seq<Epi>)
      requires b.BCrashPad? && t.CrashPad? && Rep(blocks, ops, b.body, t.body) && Rep(blocks, ops, b.pad, t.pad)
      requires epis == [0] + ds && Ready(res, ops, ds, es, dst, t)
      modifies this`res, this`epis
      ensures |epis| > 0 && epis[1..] == ds && Lowered(old(res), res, ops, ds, es, dst, t)
      decreases Size(t), 4
    {
      hide Foot, Written, EpiFoot, Rep, Sound;
      ghost var c := Lower(t.pad, [Nothing] + es);
      ghost var inside := [Pending(c)] + es;
      ghost var shared := EpiFoot(res, ds, es);
      var dstNext := Extend(2);
      var dstPad := dstNext + 1;
      res := res[dst := BCrashPad(dstNext, dstPad)];
      ghost var bs := res;
      FirstReady(old(res), bs, ops, ds, es, dst, dstPad, t.pad);
      RemoveCleanup(b.pad, dstPad, t.pad, ds, es, shared);
      ghost var cs := res;
      NextReady(cs, ops, ds, es, dstPad, c, shared, old(res), bs, dstNext, t.body);
      Remove(b.body, dstNext, t.body, inside);
      PadWritten(old(res), bs, cs, res, ops, shared, dst, c, Lower(t.body, inside));
    }

    /** Allocates one more child of the MANY block at `dst`, hangs it on the chain and fills
        it with the lowering of block `src`. */
    method AddChild(src: nat, dst: nat, prev: nat, ghost bs: seq<Block>, ghost shared: set<nat>, ghost below: seq<Epi>,
                    ghost kids: seq<nat>, ghost links: seq<nat>, ghost ts: seq<Tree>, ghost t: Tree)
      returns (last: nat, ghost kids1: seq<nat>, ghost links1: seq<nat>)
      requires Rep(blocks, ops, src, t) && Acceptable(t, |below|) && EpisOk(res, ops, epis, below) && EpiFoot(res, epis, below) == shared
      requires Building(bs, res, ops, shared, dst, kids, links, ts)
      requires dst !in shared && forall i :: i in shared ==> i < |bs|
      requires prev == (if |links| == 0 then INVALID else links[|links| - 1])
      requires |res| + (if |kids| == 0 then 1 else 2) + Added(t, below) <= INVALID
      modifies this`res, this`epis
      ensures epis == old(epis) && EpisOk(res, ops, epis, below)
      ensures EpiFoot(res, epis, below) == shared
      ensures |res| == |old(res)| + (if |kids| == 0 then 1 else 2) + Added(t, below)
      ensures |kids1| == |kids| + 1
      ensures Building(bs, res, ops, shared, dst, kids1, links1, ts + [Lower(t, below)])
      ensures last == (if |links1| == 0 then INVALID else links1[|links1| - 1])
      decreases Size(t), 6
    {
      ghost var r0 := res;
      var child;
      child, last, links1 := AddSlot(blocks[src], dst, prev, kids, links);
      ghost var r2 := res;
      EpisFrame(r0, r2, ops, epis, below);
      kids1 := kids + [child];
      Remove(src, child, t, below);
      EpisStay(r2, res, ops, epis, below, child);
      ChildAdded(bs, r0, r2, res, ops, shared, dst, kids, links, links1, ts, child, Lower(t, below));
    }

    method RemoveMany(b: Block, dst: nat, ghost t: Tree, ghost ds: seq<nat>, ghost es: seq<Epi>)
      requires b.BMany? && t.Many? && RepKids(blocks, ops, b.cur, b.next, t.kids)
      requires epis == [0] + ds && Ready(res, ops, ds, es, dst, t)
      modifies this`res, this`epis
      ensures epis == [0] + ds && Lowered(old(res), res, ops, ds, es, dst, t)
      decreases Size(t), 4
    {
      ghost var below, shared := [Nothing] + es, EpiFoot(res, ds, es);
      res := res[dst := BMany(INVALID, INVALID)];
      SlotsReady(old(res), res, ops, ds, es, dst);

      var prev: nat, child: nat, chain: nat := INVALID, b.cur, b.next;
      ghost var kids: seq<nat>, links: seq<nat>, ts: seq<Tree>, left := [], [], [], t.kids;
      while child != INVALID
        invariant child != INVALID ==> RepKids(blocks, ops, child, chain, left)
        invariant child == INVALID ==> !left.Link?
        invariant ChainAcceptable(left, |below|) && ChainSize(left) <= ChainSize(t.kids)
        invariant LowerChain(t.kids, below) == Append(ts, LowerChain(left, below))
        invariant |res| + AddedKids(left, below, |kids| == 0) == |old(res)| + AddedKids(t.kids, below, true)
        invariant epis == [0] + ds && EpisOk(res, ops, epis, below) && EpiFoot(res, epis, below) == shared
        invariant Building(old(res), res, ops, shared, dst, kids, links, ts)
        invariant prev == (if |links| == 0 then INVALID else links[|links| - 1])
        decreases ChainSize(left)
      {
        AppendSnoc(ts, Lower(left.cur, below), LowerChain(left.rest, below));
        ghost var kids1, links1;
        prev, kids1, links1 := AddChild(child, dst, prev, old(res), shared, below, kids, links, ts, left.cur);
        kids, links, ts := kids1, links1, ts + [Lower(left.cur, below)];
        left := left.rest;
        NextChild(blocks, ops, chain, left);
        if chain == INVALID || chain >= |blocks| || !blocks[chain].BChain? {
          child := INVALID;
        } else {
          child, chain := blocks[chain].cur, blocks[chain].next;
        }
      }
      AppendEnd(ts);
      Built(old(res), res, ops, shared, dst, kids, links, ts);
    }

    /** Hangs a copy of the i-th pending cleanup, which shares everything below it, on the
        MANY block at `dst`. */
    method AddCopy(i: nat, dst: nat, prev: nat, ghost bs: seq<Block>, ghost shared: set<nat>, ghost es: seq<Epi>,
                   ghost kids: seq<nat>, ghost links: seq<nat>, ghost ts: seq<Tree>)
      returns (last: nat, ghost kids1: seq<nat>, ghost links1: seq<nat>)
      requires EpisOk(res, ops, epis, es) && EpiFoot(res, epis, es) == shared && i < |es| && es[i].Pending?
      requires Building(bs, res, ops, shared, dst, kids, links, ts)
      requires dst !in shared && forall i :: i in shared ==> i < |bs|
      requires prev == (if |links| == 0 then INVALID else links[|links| - 1])
      requires |res| + 2 <= INVALID
      modifies this`res
      ensures EpisOk(res, ops, epis, es) && EpiFoot(res, epis, es) == shared
      ensures |res| == |old(res)| + (if |kids| == 0 then 1 else 2)
      ensures Building(bs, res, ops, shared, dst, kids1, links1, ts + [es[i].cleanup])
      ensures last == (if |links1| == 0 then INVALID else links1[|links1| - 1])
    {
      var d := epis[i];
      ghost var r0, u := res, es[i].cleanup;
      assert EpiOk(res, ops, d, es[i]);
      EpiFootHas(res, epis, es, i);
      BuildingLinked(bs, res, ops, shared, dst, kids, links, ts);
      var child;
      child, last, links1 := AddSlot(res[d], dst, prev, kids, links);
      CopyWritten(bs, r0, res, ops, shared, dst, kids, links, links1, ts, d, child, u);
      EpisFrame(r0, res, ops, epis, es);
      kids1 := kids + [child];
    }

    /** One entry: its cleanup is copied when there is one. */
    method CopyEntry(i: nat, level: nat, dst: nat, prev0: nat, ghost bs: seq<Block>, ghost shared: set<nat>, ghost es: seq<Epi>,
                     ghost kids0: seq<nat>, ghost links0: seq<nat>, ghost ts0: seq<Tree>)
      returns (prev: nat, ghost kids: seq<nat>, ghost links: seq<nat>, ghost ts: seq<Tree>)
      requires i < level <= |epis| && EpisOk(res, ops, epis, es) && |epis| == |es| && EpiFoot(res, epis, es) == shared && dst !in shared
      requires Building(bs, res, ops, shared, dst, kids0, links0, ts0) && ts0 == Inlined(es, i) && |kids0| == |ts0|
      requires forall k :: k in shared ==> k < |bs|
      requires prev0 == (if |links0| == 0 then INVALID else links0[|links0| - 1])
      requires |res| + 2 * (|Inlined(es, level)| - |ts0|) <= INVALID
      modifies this`res
      ensures EpisOk(res, ops, epis, es) && EpiFoot(res, epis, es) == shared
      ensures ts == Inlined(es, i + 1) && |ts| <= |Inlined(es, level)| && |kids| == |ts|
      ensures |res| == |old(res)| + (if |ts| == |ts0| then 0 else if |ts0| == 0 then 1 else 2) && |ts0| <= |ts| <= |ts0| + 1
      ensures Building(bs, res, ops, shared, dst, kids, links, ts)
      ensures prev == (if |links| == 0 then INVALID else links[|links| - 1])
    {
      hide Building, EpisOk, EpiFoot, Inlined;
      InlinedStep(es, i, level);
      assert EpiOk(res, ops, epis[i], es[i]) by { EntryOk(res, ops, epis, es, i); }
      if epis[i] != 0 {
        prev, kids, links := AddCopy(i, dst, prev0, bs, shared, es, kids0, links0, ts0);
        ts := ts0 + [es[i].cleanup];
        KidCount(bs, res, ops, shared, dst, kids, links, ts);
      } else {
        prev, kids, links, ts := prev0, kids0, links0, ts0;
      }
    }

    /** Copies the cleanups of the top entries into the MANY block at `dst`. */
    method CopyCleanups(level: nat, dst: nat, ghost bs: seq<Block>, ghost shared: set<nat>, ghost es: seq<Epi>)
      returns (prev: nat, ghost kids: seq<nat>, ghost links: seq<nat>)
      requires level <= |epis| && EpisOk(res, ops, epis, es) && EpiFoot(res, epis, es) == shared && dst !in shared
      requires Building(bs, res, ops, shared, dst, [], [], [])
      requires forall i :: i in shared ==> i < |bs|
      requires |res| + 2 * |Inlined(es, level)| <= INVALID
      modifies this`res
      ensures EpisOk(res, ops, epis, es) && EpiFoot(res, epis, es) == shared
      ensures var n := |Inlined(es, level)|; |res| == |old(res)| + (if n == 0 then 0 else 2 * n - 1)
      ensures Building(bs, res, ops, shared, dst, kids, links, Inlined(es, level))
      ensures prev == (if |links| == 0 then INVALID else links[|links| - 1])
    {
      assert |epis| == |es|;
      hide Building, EpisOk, EpiFoot;
      prev, kids, links := INVALID, [], [];
      ghost var ts: seq<Tree> := Inlined(es, 0);
      hide Inlined;
      for i := 0 to level
        invariant ts == Inlined(es, i) && |ts| <= |Inlined(es, level)| && |kids| == |ts|
        invariant |res| == |old(res)| + (if |ts| == 0 then 0 else 2 * |ts| - 1)
        invariant EpisOk(res, ops, epis, es) && EpiFoot(res, epis, es) == shared
        invariant Building(bs, res, ops, shared, dst, kids, links, ts)
        invariant prev == (if |links| == 0 then INVALID else links[|links| - 1])
      {
        prev, kids, links, ts := CopyEntry(i, level, dst, prev, bs, shared, es, kids, links, ts);
      }
    }

    method RemoveBreak(level: nat, dst: nat, ghost t: Tree, ghost ds: seq<nat>, ghost es: seq<Epi>)
      requires t == Break(level)
      requires epis == [0] + ds && Ready(res, ops, ds, es, dst, t)
      modifies this`res
      ensures Lowered(old(res), res, ops, ds, es, dst, t)
    {
      hide Foot, Rep, Sound, EpiFoot;
      ghost var below := [Nothing] + es;
      ghost var ts := Inlined(below, level);
      res := res[dst := BMany(INVALID, INVALID)];
      SlotsReady(old(res), res, ops, ds, es, dst);
      ghost var bs, shared := old(res), EpiFoot(old(res), ds, es);
      var prev;
      ghost var kids, links;
      prev, kids, links := CopyCleanups(level, dst, bs, shared, below);
      BuildingLinked(bs, res, ops, shared, dst, kids, links, ts);
      if res[dst].cur == INVALID {
        BreakAlone(bs, res, ops, ds, es, dst, level, kids, links);
        res := res[dst := BBreak(level)];
      } else {
        ghost var r0 := res;
        var child, last;
        ghost var links1;
        child, last, links1 := AddSlot(BBreak(level + 1), dst, prev, kids, links);
        BreakAdded(bs, r0, res, ops, shared, dst, level, kids, links, links1, ts);
        BreakShape(es, level, ts);
      }
    }

    method RemoveBranch(b: Block, dst: nat, ghost t: Tree, ghost ds: seq<nat>, ghost es: seq<Epi>)
      requires b.BBranch? && t.Branch? && Selects(ops, b.cond, t.cond)
      requires Rep(blocks, ops, b.yes, t.yes) && Rep(blocks, ops, b.no, t.no)
      requires epis == [0] + ds && Ready(res, ops, ds, es, dst, t)
      modifies this`res, this`epis
      ensures epis == [0] + ds && Lowered(old(res), res, ops, ds, es, dst, t)
      decreases Size(t), 4
    {
      hide EpiFoot, Selects;
      ghost var below := [Nothing] + es;
      var yes := Extend(2);
      var no := yes + 1;
      res := res[dst := BBranch(b.cond, yes, no)];
      ghost var bs := res;
      SlotsReady(old(res), bs, ops, ds, es, dst);
      Remove(b.yes, yes, t.yes, below);
      ghost var cs := res;
      EpisStay(bs, cs, ops, epis, below, yes);
      Remove(b.no, no, t.no, below);
      RepFrame(cs, res, ops, yes, Lower(t.yes, below));
    }

    method RemoveInner(b: Block, dst: nat, ghost t: Tree, ghost ds: seq<nat>, ghost es: seq<Epi>)
      requires (b.BLoop? && t.Loop?) || (b.BVar? && t.Var? && b.v == t.v)
      requires Rep(blocks, ops, b.body, t.body)
      requires epis == [0] + ds && Ready(res, ops, ds, es, dst, t)
      modifies this`res, this`epis
      ensures epis == [0] + ds && Lowered(old(res), res, ops, ds, es, dst, t)
      decreases Size(t), 4
    {
      ghost var below := [Nothing] + es;
      var body := Extend(1);
      res := res[dst := if b.BLoop? then BLoop(body) else BVar(b.v, body)];
      SlotsReady(old(res), res, ops, ds, es, dst);
      Remove(b.body, body, t.body, below);
    }
  }

  /** The whole rewriting: the new block array unfolds from block 0 to the lowered tree, and
      to nothing else; every index that is reached lies in the array. */
  method RemoveDefers(blocks: seq<Block>, ops: seq<Op>, ghost t: Tree) returns (out: seq<Block>)
    requires Rep(blocks, ops, 0, t) && Acceptable(t, 0)
    requires 1 + Added(t, []) <= INVALID
    ensures Rep(out, ops, 0, Lower(t, [])) && Sound(Lower(t, []))
    ensures forall u :: Rep(out, ops, 0, u) ==> u == Lower(t, [])
    ensures |out| == 1 + Added(t, [])
  {
    var r := new Remover(blocks, ops);
    r.Remove(0, 0, t, []);
    out := r.res;
    forall u | Rep(out, ops, 0, u) ensures u == Lower(t, []) { RepUnique(out, ops, 0, u, Lower(t, [])); }
  }

  /** The steps of lowering a DEFER put together: the array before, after linking the new
      blocks, after the cleanup, and after the protected part. */
  lemma DeferWritten(zs: seq<Block>, bs: seq<Block>, cs: seq<Block>, rs: seq<Block>, ops: seq<Op>,
                     shared: set<nat>, dst: nat, c: Tree, u: Tree)
    requires dst < |zs| && dst !in shared && |bs| == |zs| + 4 && forall i :: i in shared ==> i < |zs|
    requires forall i :: 0 <= i < |zs| && i != dst ==> bs[i] == zs[i]
    requires bs[dst] == BMany(|zs|, |zs| + 1)
    requires bs[|zs|] == BCrashPad(|zs| + 3, |zs| + 2) && bs[|zs| + 1] == BChain(|zs| + 2, INVALID)
    requires Written(bs, cs, ops, shared, |zs| + 2, c)
    requires Written(cs, rs, ops, Foot(cs, |zs| + 2, c) + shared, |zs| + 3, u)
    ensures Written(zs, rs, ops, shared, dst, Many(Link(CrashPad(u, c), Link(c, End))))
  {
    var n := |zs|;
    assert n + 3 !in Foot(cs, n + 2, c);
    RepFrame(cs, rs, ops, n + 2, c);
    DeferAssembled(rs, ops, dst, n, n + 1, n + 2, n + 3, u, c);
    var tail := Link(c, End);
    assert ChainSound(tail) && Sound(CrashPad(u, c));
    assert ChainSound(Link(CrashPad(u, c), tail));
  }

  /** The same for a CRASH_PAD. */
  lemma PadWritten(zs: seq<Block>, bs: seq<Block>, cs: seq<Block>, rs: seq<Block>, ops: seq<Op>,
                   shared: set<nat>, dst: nat, c: Tree, u: Tree)
    requires dst < |zs| && dst !in shared && |bs| == |zs| + 2 && forall i :: i in shared ==> i < |zs|
    requires forall i :: 0 <= i < |zs| && i != dst ==> bs[i] == zs[i]
    requires bs[dst] == BCrashPad(|zs|, |zs| + 1)
    requires Written(bs, cs, ops, shared, |zs| + 1, c)
    requires Written(cs, rs, ops, Foot(cs, |zs| + 1, c) + shared, |zs|, u)
    ensures Written(zs, rs, ops, shared, dst, CrashPad(u, c))
  {
    var n := |zs|;
    assert n !in Foot(cs, n + 1, c);
    RepFrame(cs, rs, ops, n + 1, c);
    assert rs[dst] == BCrashPad(n, n + 1);
    assert Foot(rs, dst, CrashPad(u, c)) == {dst} + (Foot(rs, n, u) + Foot(rs, n + 1, c));
  }

  /** The blocks that a DEFER becomes. */
  lemma DeferAssembled(bs: seq<Block>, ops: seq<Op>, at: nat, pad: nat, chain: nat, c: nat, next: nat, nextTree: Tree, cTree: Tree)
    requires at < |bs| && pad < |bs| && chain < |bs| <= INVALID && c < |bs| && next < |bs|
    requires bs[at] == BMany(pad, chain) && bs[chain] == BChain(c, INVALID) && bs[pad] == BCrashPad(next, c)
    requires Rep(bs, ops, c, cTree) && Rep(bs, ops, next, nextTree)
    ensures var t := Many(Link(CrashPad(nextTree, cTree), Link(cTree, End)));
            Rep(bs, ops, at, t) && Foot(bs, at, t) == {at, pad, chain} + Foot(bs, c, cTree) + Foot(bs, next, nextTree)
  {
    var tail := Link(cTree, End);
    assert RepRest(bs, ops, INVALID, End) && FootRest(bs, INVALID, End) == {};
    assert RepKids(bs, ops, c, INVALID, tail) && FootKids(bs, c, INVALID, tail) == Foot(bs, c, cTree);
    assert RepRest(bs, ops, chain, tail) && FootRest(bs, chain, tail) == {chain} + Foot(bs, c, cTree);
    var head := CrashPad(nextTree, cTree);
    assert Rep(bs, ops, pad, head) && Foot(bs, pad, head) == {pad} + (Foot(bs, next, nextTree) + Foot(bs, c, cTree));
    assert FootKids(bs, pad, chain, Link(head, tail)) == Foot(bs, pad, head) + FootRest(bs, chain, tail);
  }
}
