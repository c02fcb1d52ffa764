/** Removing DEFER blocks, on trees: what `remove_defers` computes. */
module Lowering {
  import opened Ir

  /** An entry of the epilogue stack, which gets one for every block on the way down. */
  datatype Epi = Nothing | Pending(cleanup: Tree)

  /** The cleanups among the top n entries, innermost first. */
  function Inlined(epis: seq<Epi>, n: nat): seq<Tree> {
    if n == 0 || |epis| == 0 then []
    else (if epis[0].Pending? then [epis[0].cleanup] else []) + Inlined(epis[1..], n - 1)
  }

  /** The cleanups in order, and then a last block. */
  function Sequence(cleanups: seq<Tree>, last: Tree): Chain {
    if |cleanups| == 0 then Link(last, End) else Link(cleanups[0], Sequence(cleanups[1..], last))
  }

  /** A break that runs the given cleanups first. The MANY that holds them is one more
      scope to leave. */
  function BreakVia(cleanups: seq<Tree>, level: nat): Tree {
    if |cleanups| == 0 then Break(level) else Many(Sequence(cleanups, Break(level + 1)))
  }

  /** t with its defers removed, where `epis` is the epilogue stack t is reached with,
      top first. */
  function Lower(t: Tree, epis: seq<Epi>): Tree
    decreases Size(t)
  {
    var below := [Nothing] + epis;
    match t
    case Defer(next, cleanup) =>
      var c := Lower(cleanup, below);
      Many(Link(CrashPad(Lower(next, [Pending(c)] + epis), c), Link(c, End)))
    case CrashPad(body, pad) =>
      var c := Lower(pad, below);
      CrashPad(Lower(body, [Pending(c)] + epis), c)
    case Many(kids) => Many(LowerChain(kids, below))
    case Branch(cond, yes, no) => Branch(cond, Lower(yes, below), Lower(no, below))
    case Loop(body) => Loop(Lower(body, below))
    case Var(v, body) => Var(v, Lower(body, below))
    case Break(level) => BreakVia(Inlined(below, level), level)
    case _ => t
  }

  /** A chain that runs into something else than a CHAIN block just ends. */
  function LowerChain(ch: Chain, epis: seq<Epi>): Chain
    decreases ChainSize(ch)
  {
    match ch
    case Link(cur, rest) => Link(Lower(cur, epis), LowerChain(rest, epis))
    case _ => End
  }

  function LowerFunc(f: Func): Func {
    f.(body := Lower(f.body, []))
  }

  function LowerProgram(p: Program): Program {
    p.(funcs := seq(|p.funcs|, i requires 0 <= i < |p.funcs| => LowerFunc(p.funcs[i])))
  }

  // ----- the surroundings of a block -----

  /** One block around the current one, seen from inside: a branch, a MANY, VAR or LOOP,
      or a DEFER whose `next` we are in. */
  datatype Around = InBranch | InScope | InNext(cleanup: Tree)

  function Scopes(path: seq<Around>): nat {
    if |path| == 0 then 0 else (if path[0].InBranch? then 0 else 1) + Scopes(path[1..])
  }

  function Branches(path: seq<Around>): nat {
    if |path| == 0 then 0 else (if path[0].InBranch? then 1 else 0) + Branches(path[1..])
  }

  /** The cleanups of the defers that a break over k scopes leaves, innermost first. */
  function Crossed(path: seq<Around>, k: nat): seq<Tree> {
    if k == 0 || |path| == 0 then []
    else if path[0].InBranch? then Crossed(path[1..], k)
    else (if path[0].InNext? then [path[0].cleanup] else []) + Crossed(path[1..], k - 1)
  }

  /** The cleanups among the first n blocks around. */
  function Nearest(path: seq<Around>, n: nat): seq<Tree> {
    if n == 0 || |path| == 0 then []
    else (if path[0].InNext? then [path[0].cleanup] else []) + Nearest(path[1..], n - 1)
  }

  /** How many blocks around lie up to and including the outermost defer that a break over
      k scopes leaves; 0 when it leaves none. */
  function Outermost(path: seq<Around>, k: nat): (i: nat)
    ensures i <= |path|
  {
    if k == 0 || |path| == 0 then 0 else
    var i := Outermost(path[1..], if path[0].InBranch? then k else k - 1);
    if i > 0 then i + 1 else if path[0].InNext? then 1 else 0
  }

  /** At least b + 1 of the scopes a break leaves lie beyond the outermost defer it leaves,
      where b is the number of branches between the break and that defer. */
  predicate Reaches(path: seq<Around>, level: nat) {
    var i := Outermost(path, level);
    i == 0 || Branches(path[..i]) + 1 <= level - Scopes(path[..i])
  }

  // ----- which trees may be lowered -----

  function PendingUses(path: seq<Around>): set<nat> {
    if |path| == 0 then {}
    else (if path[0].InNext? then Uses(path[0].cleanup) else {}) + PendingUses(path[1..])
  }

  /** The trees the lowering is meant for: without source crash pads and broken links, with
      cleanups that contain their own breaks, with breaks that stay inside the function
      and reach every cleanup they have to run, and without a second declaration of a
      variable that a pending cleanup uses. */
  predicate Lowerable(t: Tree, path: seq<Around>)
    decreases Size(t)
  {
    match t
    case Defer(next, cleanup) =>
      Closed(cleanup) && Lowerable(cleanup, []) && Lowerable(next, [InNext(cleanup)] + path)
    case Many(kids) => ChainLowerable(kids, [InScope] + path)
    case Branch(_, yes, no) => Lowerable(yes, [InBranch] + path) && Lowerable(no, [InBranch] + path)
    case Loop(body) => Lowerable(body, [InScope] + path)
    case Var(v, body) => v !in PendingUses(path) && Lowerable(body, [InScope] + path)
    case Break(level) => level <= Scopes(path) && Reaches(path, level)
    case CrashPad(_, _) => false
    case Missing => false
    case _ => true
  }

  predicate ChainLowerable(ch: Chain, path: seq<Around>)
    decreases ChainSize(ch)
  {
    match ch
    case Link(cur, rest) => Lowerable(cur, path) && ChainLowerable(rest, path)
    case End => true
    case BadLink => false
  }

  predicate ProgramLowerable(p: Program) {
    forall i :: 0 <= i < |p.funcs| ==> Lowerable(p.funcs[i].body, [])
  }
}
