/** The block array of a function, and the tree it stands for. */
module FlatBlocks {
  import opened Ir

  const INVALID: nat := 0xFFFF_FFFF  // BLOCK_INVALID

  datatype Range = Range(start: nat, len: nat)

  datatype Block =
    | BBasic(ops: Range)
    | BDefer(next: nat, cleanup: nat)
    | BMany(cur: nat, next: nat)
    | BChain(cur: nat, next: nat)
    | BCrash
    | BHardCrash
    | BCrashPad(body: nat, pad: nat)
    | BBranch(cond: Range, yes: nat, no: nat)
    | BLoop(body: nat)
    | BBreak(level: nat)
    | BVar(v: nat, body: nat)

  predicate Selects(ops: seq<Op>, r: Range, sel: seq<Op>) {
    r.start + r.len <= |ops| && ops[r.start..r.start + r.len] == sel
  }

  /** Following the indices from block i unfolds to the tree t. */
  predicate Rep(bs: seq<Block>, ops: seq<Op>, i: nat, t: Tree)
    decreases Size(t), 0
  {
    if t.Missing? then i >= |bs| else
    i < |bs| &&
    match t
    case Basic(sel) => bs[i].BBasic? && Selects(ops, bs[i].ops, sel)
    case Defer(next, cleanup) => bs[i].BDefer? && Rep(bs, ops, bs[i].next, next) && Rep(bs, ops, bs[i].cleanup, cleanup)
    case Many(kids) => bs[i].BMany? && RepKids(bs, ops, bs[i].cur, bs[i].next, kids)
    case SoftCrash => bs[i].BCrash?
    case HardCrash => bs[i].BHardCrash?
    case CrashPad(body, pad) => bs[i].BCrashPad? && Rep(bs, ops, bs[i].body, body) && Rep(bs, ops, bs[i].pad, pad)
    case Branch(cond, yes, no) =>
      bs[i].BBranch? && Selects(ops, bs[i].cond, cond) && Rep(bs, ops, bs[i].yes, yes) && Rep(bs, ops, bs[i].no, no)
    case Loop(body) => bs[i].BLoop? && Rep(bs, ops, bs[i].body, body)
    case Break(level) => bs[i] == BBreak(level)
    case Var(v, body) => bs[i].BVar? && bs[i].v == v && Rep(bs, ops, bs[i].body, body)
    case Stray => bs[i].BChain?
    case Missing => true
  }

  /** The children from child `cur` and link `next` on. */
  predicate RepKids(bs: seq<Block>, ops: seq<Op>, cur: nat, next: nat, ch: Chain)
    decreases ChainSize(ch), 0
  {
    match ch
    case End => cur == INVALID
    case Link(t, rest) => cur != INVALID && Rep(bs, ops, cur, t) && RepRest(bs, ops, next, rest)
    case BadLink => false
  }

  predicate RepRest(bs: seq<Block>, ops: seq<Op>, next: nat, ch: Chain)
    decreases ChainSize(ch), 1
  {
    if next == INVALID then ch.End?
    else if next >= |bs| || !bs[next].BChain? then ch.BadLink?
    else RepKids(bs, ops, bs[next].cur, bs[next].next, ch)
  }

  /** A block stands for at most one tree, so no index reachable from it lies on a cycle. */
  lemma {:induction false} RepUnique(bs: seq<Block>, ops: seq<Op>, i: nat, t: Tree, u: Tree)
    requires Rep(bs, ops, i, t) && Rep(bs, ops, i, u)
    ensures t == u
    decreases Size(t), 0
  {
    match t
    case Defer(next, cleanup) =>
      RepUnique(bs, ops, bs[i].next, next, u.next);
      RepUnique(bs, ops, bs[i].cleanup, cleanup, u.cleanup);
    case Many(kids) => KidsUnique(bs, ops, bs[i].cur, bs[i].next, kids, u.kids);
    case CrashPad(body, pad) =>
      RepUnique(bs, ops, bs[i].body, body, u.body);
      RepUnique(bs, ops, bs[i].pad, pad, u.pad);
    case Branch(_, yes, no) =>
      RepUnique(bs, ops, bs[i].yes, yes, u.yes);
      RepUnique(bs, ops, bs[i].no, no, u.no);
    case Loop(body) => RepUnique(bs, ops, bs[i].body, body, u.body);
    case Var(_, body) => RepUnique(bs, ops, bs[i].body, body, u.body);
    case _ =>
  }

  lemma {:induction false} KidsUnique(bs: seq<Block>, ops: seq<Op>, cur: nat, next: nat, t: Chain, u: Chain)
    requires RepKids(bs, ops, cur, next, t) && RepKids(bs, ops, cur, next, u)
    ensures t == u
    decreases ChainSize(t), 0
  {
    if t.Link? {
      RepUnique(bs, ops, cur, t.cur, u.cur);
      if next != INVALID && next < |bs| && bs[next].BChain? {
        KidsUnique(bs, ops, bs[next].cur, bs[next].next, t.rest, u.rest);
      }
    }
  }

  // ----- which blocks a tree occupies -----

  /** No index of the tree leads out of the block array or into a broken chain. */
  predicate Sound(t: Tree)
    decreases Size(t)
  {
    match t
    case Defer(next, cleanup) => Sound(next) && Sound(cleanup)
    case Many(kids) => ChainSound(kids)
    case CrashPad(body, pad) => Sound(body) && Sound(pad)
    case Branch(_, yes, no) => Sound(yes) && Sound(no)
    case Loop(body) => Sound(body)
    case Var(_, body) => Sound(body)
    case Missing => false
    case _ => true
  }

  predicate ChainSound(ch: Chain)
    decreases ChainSize(ch)
  {
    match ch
    case Link(cur, rest) => Sound(cur) && ChainSound(rest)
    case End => true
    case BadLink => false
  }

  /** The indices that unfolding t from block i visits. */
  function Foot(bs: seq<Block>, i: nat, t: Tree): set<nat>
    decreases Size(t), 0
  {
    if i >= |bs| then {} else
    {i} +
    match t
    case Defer(next, cleanup) => if bs[i].BDefer? then Foot(bs, bs[i].next, next) + Foot(bs, bs[i].cleanup, cleanup) else {}
    case Many(kids) => if bs[i].BMany? then FootKids(bs, bs[i].cur, bs[i].next, kids) else {}
    case CrashPad(body, pad) => if bs[i].BCrashPad? then Foot(bs, bs[i].body, body) + Foot(bs, bs[i].pad, pad) else {}
    case Branch(_, yes, no) => if bs[i].BBranch? then Foot(bs, bs[i].yes, yes) + Foot(bs, bs[i].no, no) else {}
    case Loop(body) => if bs[i].BLoop? then Foot(bs, bs[i].body, body) else {}
    case Var(_, body) => if bs[i].BVar? then Foot(bs, bs[i].body, body) else {}
    case _ => {}
  }

  function FootKids(bs: seq<Block>, cur: nat, next: nat, ch: Chain): set<nat>
    decreases ChainSize(ch), 0
  {
    match ch
    case Link(t, rest) => Foot(bs, cur, t) + FootRest(bs, next, rest)
    case _ => {}
  }

  function FootRest(bs: seq<Block>, next: nat, ch: Chain): set<nat>
    decreases ChainSize(ch), 1
  {
    if next >= |bs| || !bs[next].BChain? then {}
    else {next} + FootKids(bs, bs[next].cur, bs[next].next, ch)
  }

  ghost predicate AgreeAt(bs: seq<Block>, cs: seq<Block>, where: set<nat>) {
    |bs| <= |cs| && forall i :: i in where && i < |bs| ==> cs[i] == bs[i]
  }

  /** What lies outside the footprint may change, and the array may grow. */
  lemma {:induction false} RepFrame(bs: seq<Block>, cs: seq<Block>, ops: seq<Op>, i: nat, t: Tree)
    requires Rep(bs, ops, i, t) && Sound(t) && AgreeAt(bs, cs, Foot(bs, i, t)) && |cs| <= INVALID
    ensures Rep(cs, ops, i, t) && Foot(cs, i, t) == Foot(bs, i, t)
    decreases Size(t), 0
  {
    match t
    case Defer(next, cleanup) =>
      RepFrame(bs, cs, ops, bs[i].next, next);
      RepFrame(bs, cs, ops, bs[i].cleanup, cleanup);
    case Many(kids) => KidsFrame(bs, cs, ops, bs[i].cur, bs[i].next, kids);
    case CrashPad(body, pad) =>
      RepFrame(bs, cs, ops, bs[i].body, body);
      RepFrame(bs, cs, ops, bs[i].pad, pad);
    case Branch(_, yes, no) =>
      RepFrame(bs, cs, ops, bs[i].yes, yes);
      RepFrame(bs, cs, ops, bs[i].no, no);
    case Loop(body) => RepFrame(bs, cs, ops, bs[i].body, body);
    case Var(_, body) => RepFrame(bs, cs, ops, bs[i].body, body);
    case _ =>
  }

  lemma {:induction false} KidsFrame(bs: seq<Block>, cs: seq<Block>, ops: seq<Op>, cur: nat, next: nat, ch: Chain)
    requires RepKids(bs, ops, cur, next, ch) && ChainSound(ch) && AgreeAt(bs, cs, FootKids(bs, cur, next, ch)) && |cs| <= INVALID
    ensures RepKids(cs, ops, cur, next, ch) && FootKids(cs, cur, next, ch) == FootKids(bs, cur, next, ch)
    decreases ChainSize(ch), 0
  {
    if ch.Link? {
      RepFrame(bs, cs, ops, cur, ch.cur);
      if next != INVALID {
        assert FootRest(bs, next, ch.rest) == {next} + FootKids(bs, bs[next].cur, bs[next].next, ch.rest);
        assert next in FootKids(bs, cur, next, ch) && cs[next] == bs[next];
        KidsFrame(bs, cs, ops, bs[next].cur, bs[next].next, ch.rest);
        assert FootRest(cs, next, ch.rest) == {next} + FootKids(cs, cs[next].cur, cs[next].next, ch.rest);
      }
    }
  }

  lemma {:induction false} FootInRange(bs: seq<Block>, i: nat, t: Tree)
    ensures forall j :: j in Foot(bs, i, t) ==> j < |bs|
    decreases Size(t), 0
  {
    if i < |bs| {
      match t
      case Defer(next, cleanup) =>
        if bs[i].BDefer? { FootInRange(bs, bs[i].next, next); FootInRange(bs, bs[i].cleanup, cleanup); }
      case Many(kids) => if bs[i].BMany? { FootKidsInRange(bs, bs[i].cur, bs[i].next, kids); }
      case CrashPad(body, pad) =>
        if bs[i].BCrashPad? { FootInRange(bs, bs[i].body, body); FootInRange(bs, bs[i].pad, pad); }
      case Branch(_, yes, no) =>
        if bs[i].BBranch? { FootInRange(bs, bs[i].yes, yes); FootInRange(bs, bs[i].no, no); }
      case Loop(body) => if bs[i].BLoop? { FootInRange(bs, bs[i].body, body); }
      case Var(_, body) => if bs[i].BVar? { FootInRange(bs, bs[i].body, body); }
      case _ =>
    }
  }

  lemma {:induction false} FootKidsInRange(bs: seq<Block>, cur: nat, next: nat, ch: Chain)
    ensures forall j :: j in FootKids(bs, cur, next, ch) ==> j < |bs|
    decreases ChainSize(ch), 0
  {
    if ch.Link? {
      FootInRange(bs, cur, ch.cur);
      if next < |bs| && bs[next].BChain? {
        FootKidsInRange(bs, bs[next].cur, bs[next].next, ch.rest);
        assert FootRest(bs, next, ch.rest) == {next} + FootKids(bs, bs[next].cur, bs[next].next, ch.rest);
      }
    }
  }

  /** A copy of a block shares everything below it. */
  lemma RepCopy(bs: seq<Block>, ops: seq<Op>, i: nat, j: nat, t: Tree)
    requires Rep(bs, ops, i, t) && Sound(t) && j < |bs| && bs[j] == bs[i]
    ensures Rep(bs, ops, j, t) && Foot(bs, j, t) <= {j} + Foot(bs, i, t)
  {
  }

  // ----- chains as lists -----

  function ChainOf(ts: seq<Tree>): Chain {
    if |ts| == 0 then End else Link(ts[0], ChainOf(ts[1..]))
  }

  function Append(ts: seq<Tree>, ch: Chain): Chain {
    if |ts| == 0 then ch else Link(ts[0], Append(ts[1..], ch))
  }

  lemma {:induction false} AppendSnoc(ts: seq<Tree>, t: Tree, ch: Chain)
    ensures Append(ts + [t], ch) == Append(ts, Link(t, ch))
  {
    if |ts| == 0 {
      assert [t][1..] == [];
      assert ts + [t] == [t];
    } else {
      assert (ts + [t])[1..] == ts[1..] + [t];
      AppendSnoc(ts[1..], t, ch);
    }
  }

  lemma {:induction false} AppendEnd(ts: seq<Tree>)
    ensures Append(ts, End) == ChainOf(ts)
  {
    if |ts| > 0 { AppendEnd(ts[1..]); }
  }

  /** The MANY block at `at` holds the children in order: the first directly, the others on
      the given CHAIN blocks. */
  ghost predicate Linked(bs: seq<Block>, at: nat, kids: seq<nat>, links: seq<nat>) {
    && at < |bs| && (forall k :: 0 <= k < |links| ==> links[k] < |bs|) && |bs| <= INVALID
    && (forall k :: 0 <= k < |kids| ==> kids[k] < |bs|)
    && |links| == (if |kids| == 0 then 0 else |kids| - 1)
    && bs[at] == BMany(if |kids| == 0 then INVALID else kids[0], LinkAt(links, 0))
    && (forall k {:trigger bs[links[k]]} :: 0 <= k < |links| ==> bs[links[k]] == BChain(kids[k + 1], LinkAt(links, k + 1)))
  }

  function LinkAt(links: seq<nat>, k: nat): nat {
    if k < |links| then links[k] else INVALID
  }

  function SetOf(s: seq<nat>): set<nat> { set x | x in s }

  lemma {:induction false} LinkedKids(bs: seq<Block>, ops: seq<Op>, at: nat, kids: seq<nat>, links: seq<nat>, ts: seq<Tree>, k: nat)
    requires Linked(bs, at, kids, links) && |ts| == |kids| && k < |kids|
    requires forall j :: 0 <= j < |kids| ==> Rep(bs, ops, kids[j], ts[j])
    ensures RepKids(bs, ops, kids[k], LinkAt(links, k), ChainOf(ts[k..]))
    ensures forall i :: i in FootKids(bs, kids[k], LinkAt(links, k), ChainOf(ts[k..])) ==>
              i in links || exists j :: 0 <= j < |kids| && i in Foot(bs, kids[j], ts[j])
    decreases |kids| - k
  {
    assert ts[k..][1..] == ts[k + 1..];
    if k + 1 < |kids| {
      LinkedKids(bs, ops, at, kids, links, ts, k + 1);
      assert links[k] in links;
    } else {
      assert ChainOf(ts[k + 1..]) == End;
    }
  }

  lemma LinkedRep(bs: seq<Block>, ops: seq<Op>, at: nat, kids: seq<nat>, links: seq<nat>, ts: seq<Tree>)
    requires Linked(bs, at, kids, links) && |ts| == |kids|
    requires forall j :: 0 <= j < |kids| ==> Rep(bs, ops, kids[j], ts[j])
    ensures Rep(bs, ops, at, Many(ChainOf(ts)))
    ensures forall i :: i in Foot(bs, at, Many(ChainOf(ts))) ==>
              i == at || i in links || exists j :: 0 <= j < |kids| && i in Foot(bs, kids[j], ts[j])
  {
    if |kids| > 0 {
      LinkedKids(bs, ops, at, kids, links, ts, 0);
      assert ts[0..] == ts;
    }
  }
}
