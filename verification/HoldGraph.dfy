/** The graph of what holds what, as the first pass records it: the pool is that graph, it has
    no cycle as long as no place is made to hold one that leads back to it, and with a cycle a
    shared borrow never comes to an end. */
module HoldGraph {
  import opened Memory
  import opened Ir
  import opened InternTable
  import opened HoldPool
  import opened Places
  import opened Borrow
  import opened BorrowChecker

  // ----- chains of links -----

  /** Borrowing p goes on to q. */
  predicate Linked(s: Scope, g: Graph, p: Place, q: Place) {
    if p.MemberOf? then q == p.of
    else (exists k :: 0 <= k < |EdgesAt(g, p)| && EdgesAt(g, p)[k].to == q)
         || (q.FieldOf? && q.of == p && q.field < FieldCount(s, p))
  }

  predicate Chain(s: Scope, g: Graph, w: seq<Place>) {
    |w| > 0 && forall i :: 0 <= i < |w| - 1 ==> Linked(s, g, w[i], w[i + 1])
  }

  ghost predicate LeadsTo(s: Scope, g: Graph, p: Place, q: Place) {
    exists w :: Chain(s, g, w) && w[0] == p && w[|w| - 1] == q
  }

  lemma LinkGoesDown(s: Scope, g: Graph, rank: Place -> nat, p: Place, q: Place)
    requires Acyclic(s, g, rank) && Linked(s, g, p, q)
    ensures rank(q) < rank(p)
  {
    if p.MemberOf? {
      assert p == MemberOf(p.of);
    } else if q.FieldOf? && q.of == p && q.field < FieldCount(s, p) {
      assert q == FieldOf(p, q.field);
    }
  }

  lemma {:induction false} ChainGoesDown(s: Scope, g: Graph, rank: Place -> nat, w: seq<Place>)
    requires Acyclic(s, g, rank) && Chain(s, g, w)
    ensures rank(w[|w| - 1]) + |w| <= rank(w[0]) + 1
    decreases |w|
  {
    if |w| > 1 {
      ChainRest(s, g, w);
      LinkGoesDown(s, g, rank, w[0], w[1]);
      ChainGoesDown(s, g, rank, w[1..]);
    }
  }

  lemma ChainRest(s: Scope, g: Graph, w: seq<Place>)
    requires Chain(s, g, w) && |w| > 1
    ensures Linked(s, g, w[0], w[1]) && Chain(s, g, w[1..])
  {
    hide Linked;
    assert Linked(s, g, w[0], w[0 + 1]);
    var v := w[1..];
    forall i | 0 <= i < |v| - 1 ensures Linked(s, g, v[i], v[i + 1]) { assert Linked(s, g, w[i + 1], w[i + 1 + 1]); }
  }

  lemma ChainOn(s: Scope, g: Graph, p: Place, w: seq<Place>)
    requires Chain(s, g, w) && Linked(s, g, p, w[0])
    ensures Chain(s, g, [p] + w)
  {
    hide Linked;
    var v := [p] + w;
    forall i | 0 <= i < |v| - 1 ensures Linked(s, g, v[i], v[i + 1]) {
      if i > 0 { assert Linked(s, g, w[i - 1], w[i - 1 + 1]); }
    }
  }

  lemma LeadsOn(s: Scope, g: Graph, p: Place, q: Place, r: Place)
    requires Linked(s, g, p, q) && LeadsTo(s, g, q, r)
    ensures LeadsTo(s, g, p, r)
  {
    hide Linked;
    var w :| Chain(s, g, w) && w[0] == q && w[|w| - 1] == r;
    ChainOn(s, g, p, w);
    assert ([p] + w)[|w|] == r;
  }

  lemma LeadsToSelf(s: Scope, g: Graph, p: Place)
    ensures LeadsTo(s, g, p, p)
  {
    assert Chain(s, g, [p]);
  }

  // ----- one more edge -----

  /** Place p holds one more. */
  function WithEdge(g: Graph, p: Place, e: Edge): Graph { g[p := EdgesAt(g, p) + [e]] }

  /** An edge is recorded once. */
  function Noted(g: Graph, p: Place, e: Edge): Graph { if e in EdgesAt(g, p) then g else WithEdge(g, p, e) }

  lemma LinkedInMore(s: Scope, g: Graph, p: Place, e: Edge, a: Place, b: Place)
    requires Linked(s, g, a, b)
    ensures Linked(s, WithEdge(g, p, e), a, b)
  {
    if !a.MemberOf? {
      if k :| 0 <= k < |EdgesAt(g, a)| && EdgesAt(g, a)[k].to == b { assert EdgesAt(WithEdge(g, p, e), a)[k].to == b; }
    }
  }

  lemma ChainInMore(s: Scope, g: Graph, p: Place, e: Edge, w: seq<Place>)
    requires Chain(s, g, w)
    ensures Chain(s, WithEdge(g, p, e), w)
  {
    hide Linked, WithEdge;
    forall i | 0 <= i < |w| - 1 ensures Linked(s, WithEdge(g, p, e), w[i], w[i + 1]) { LinkedInMore(s, g, p, e, w[i], w[i + 1]); }
  }

  /** The rank that makes room for the new edge: all that leads to its owner moves up. */
  ghost function Raised(s: Scope, g: Graph, rank: Place -> nat, owner: Place, k: nat): Place -> nat {
    p => if LeadsTo(s, g, p, owner) then rank(p) + k else rank(p)
  }

  lemma RaisedGoesDown(s: Scope, g: Graph, rank: Place -> nat, owner: Place, k: nat, p: Place, q: Place)
    requires Acyclic(s, g, rank) && Linked(s, g, p, q)
    ensures Raised(s, g, rank, owner, k)(q) < Raised(s, g, rank, owner, k)(p)
  {
    hide Acyclic, Linked, LeadsTo;
    LinkGoesDown(s, g, rank, p, q);
    if LeadsTo(s, g, q, owner) { LeadsOn(s, g, p, q, owner); }
  }

  lemma RoomForEdge(s: Scope, g: Graph, rank: Place -> nat, owner: Place, e: Edge)
    requires Acyclic(s, g, rank) && (owner.MemberOf? || !LeadsTo(s, g, e.to, owner))
    ensures exists r: Place -> nat :: Acyclic(s, WithEdge(g, owner, e), r)
  {
    var more := WithEdge(g, owner, e);
    if owner.MemberOf? {
      forall p: Place, k | !p.MemberOf? && 0 <= k < |EdgesAt(more, p)| ensures rank(EdgesAt(more, p)[k].to) < rank(p) {
        assert EdgesAt(more, p) == EdgesAt(g, p);
      }
      assert Acyclic(s, more, rank);
    } else {
      var r := Raised(s, g, rank, owner, 1 + rank(e.to));
      LeadsToSelf(s, g, owner);
      hide LeadsTo;
      forall p: Place ensures r(p) < r(MemberOf(p)) { RaisedGoesDown(s, g, rank, owner, 1 + rank(e.to), MemberOf(p), p); }
      forall p: Place, k | !p.MemberOf? && 0 <= k < |EdgesAt(more, p)| ensures r(EdgesAt(more, p)[k].to) < r(p) {
        if k < |EdgesAt(g, p)| {
          assert EdgesAt(more, p)[k] == EdgesAt(g, p)[k];
          RaisedGoesDown(s, g, rank, owner, 1 + rank(e.to), p, EdgesAt(g, p)[k].to);
        } else {
          assert p == owner && EdgesAt(more, p)[k] == e;
        }
      }
      forall p: Place, i: nat | !p.MemberOf? && i < FieldCount(s, p) ensures r(FieldOf(p, i)) < r(p) {
        RaisedGoesDown(s, g, rank, owner, 1 + rank(e.to), p, FieldOf(p, i));
      }
      assert Acyclic(s, more, r);
    }
  }

  /** A hold keeps the graph free of cycles if and only if what is held does not lead back to
      the holder; the holds of array members are never followed. */
  lemma StaysAcyclic(s: Scope, g: Graph, rank: Place -> nat, owner: Place, e: Edge)
    requires Acyclic(s, g, rank)
    ensures (exists r: Place -> nat :: Acyclic(s, WithEdge(g, owner, e), r)) <==> owner.MemberOf? || !LeadsTo(s, g, e.to, owner)
  {
    if owner.MemberOf? || !LeadsTo(s, g, e.to, owner) {
      RoomForEdge(s, g, rank, owner, e);
    } else if r: Place -> nat :| Acyclic(s, WithEdge(g, owner, e), r) {
      var w :| Chain(s, g, w) && w[0] == e.to && w[|w| - 1] == owner;
      ClosedChain(s, g, owner, e, w);
      assert ([owner] + w)[|w|] == owner;
      ChainGoesDown(s, WithEdge(g, owner, e), r, [owner] + w);
    }
  }

  lemma ClosedChain(s: Scope, g: Graph, owner: Place, e: Edge, w: seq<Place>)
    requires Chain(s, g, w) && w[0] == e.to && w[|w| - 1] == owner && !owner.MemberOf?
    ensures Chain(s, WithEdge(g, owner, e), [owner] + w)
  {
    ChainInMore(s, g, owner, e, w);
    hide Chain;
    assert EdgesAt(WithEdge(g, owner, e), owner)[|EdgesAt(g, owner)|].to == w[0];
    ChainOn(s, WithEdge(g, owner, e), owner, w);
  }

  datatype Record = Record(owner: Place, edge: Edge)

  /** The graph after the holds that a pass has recorded, one after the other. */
  function After(rs: seq<Record>): Graph {
    if |rs| == 0 then map[] else var last := rs[|rs| - 1]; Noted(After(rs[..|rs| - 1]), last.owner, last.edge)
  }

  /** The hold leads back to its owner. */
  ghost predicate Closes(s: Scope, g: Graph, r: Record) {
    r.edge !in EdgesAt(g, r.owner) && !r.owner.MemberOf? && LeadsTo(s, g, r.edge.to, r.owner)
  }

  ghost predicate HasRank(s: Scope, g: Graph) { exists rank: Place -> nat :: Acyclic(s, g, rank) }

  lemma FewerEdges(s: Scope, g: Graph, rank: Place -> nat, owner: Place, e: Edge)
    requires Acyclic(s, WithEdge(g, owner, e), rank)
    ensures Acyclic(s, g, rank)
  {
    var more := WithEdge(g, owner, e);
    forall p: Place, k | !p.MemberOf? && 0 <= k < |EdgesAt(g, p)| ensures rank(EdgesAt(g, p)[k].to) < rank(p) {
      assert EdgesAt(more, p)[k] == EdgesAt(g, p)[k];
    }
  }

  ghost predicate NeverCloses(s: Scope, rs: seq<Record>) {
    forall i :: 0 <= i < |rs| ==> !Closes(s, After(rs[..i]), rs[i])
  }

  lemma NeverClosesLast(s: Scope, front: seq<Record>, last: Record)
    ensures NeverCloses(s, front + [last]) <==> NeverCloses(s, front) && !Closes(s, After(front), last)
  {
    hide Closes, After;
    var rs := front + [last];
    assert rs[..|front|] == front && rs[|front|] == last;
    forall i | 0 <= i < |front| ensures rs[..i] == front[..i] && rs[i] == front[i] { }
  }

  /** Over every run of the first pass: what it has recorded is free of cycles if and only if
      no hold led back to its owner when it was recorded. */
  lemma {:induction false} WholePass(s: Scope, depth: nat -> nat, rs: seq<Record>)
    requires TypesRanked(s, depth)
    ensures HasRank(s, After(rs)) <==> NeverCloses(s, rs)
    decreases |rs|
  {
    hide Acyclic, LeadsTo, Closes, Noted, TypesRanked;
    if |rs| == 0 {
      var rank := NoHoldsYet(s, depth);
    } else {
      var front, last := rs[..|rs| - 1], rs[|rs| - 1];
      assert rs == front + [last];
      WholePass(s, depth, front);
      NeverClosesLast(s, front, last);
      OneRecord(s, After(front), last);
    }
  }

  lemma OneRecord(s: Scope, g: Graph, r: Record)
    ensures HasRank(s, Noted(g, r.owner, r.edge)) <==> HasRank(s, g) && !Closes(s, g, r)
  {
    hide Acyclic, LeadsTo;
    if r.edge !in EdgesAt(g, r.owner) {
      if rank: Place -> nat :| Acyclic(s, g, rank) {
        StaysAcyclic(s, g, rank, r.owner, r.edge);
      } else if rank: Place -> nat :| Acyclic(s, WithEdge(g, r.owner, r.edge), rank) {
        FewerEdges(s, g, rank, r.owner, r.edge);
      }
    }
  }

  /** A struct ranks above the types of its fields, as the layout pass makes sure of. */
  ghost predicate TypesRanked(s: Scope, depth: nat -> nat) {
    forall t: nat, i :: t < |s.f.types| && s.f.types[t].kind.KStruct? && 0 <= i < |s.f.types[t].kind.fields| ==>
      depth(s.f.types[t].kind.fields[i].tid) < depth(t)
  }

  /** Nothing holds anything at first. A rank of the types, with fields below their structs,
      gives the rank of the places. */
  lemma NoHoldsYet(s: Scope, depth: nat -> nat) returns (rank: Place -> nat)
    requires TypesRanked(s, depth)
    ensures Acyclic(s, map[], rank)
  {
    rank := p => PlaceRank(s, depth, p);
    forall p: Place, i: nat | !p.MemberOf? && i < FieldCount(s, p) ensures rank(FieldOf(p, i)) < rank(p) {
      assert TypeAt(s, FieldOf(p, i)) == s.f.types[TypeAt(s, p)].kind.fields[i].tid;
    }
  }

  function PlaceRank(s: Scope, depth: nat -> nat, p: Place): nat {
    match p
    case MemberOf(of) => 1 + PlaceRank(s, depth, of)
    case _ => depth(TypeAt(s, p))
  }

  // ----- the pool is the graph -----

  ghost predicate PoolIs(handles: seq<Par>, runs: seq<Handle>, holds: seq<Hold>, g: Graph) {
    && Table(handles) && |runs| == |handles| && RunsOk(runs, holds)
    && (forall i :: 0 <= i < |handles| ==> EdgesMatch(handles, HeldBy(runs, holds, i), EdgesAt(g, PlaceOf(handles, i))))
    && (forall p :: p in g ==> Interned(handles, p))
  }

  /** Such a pool is what the borrow check starts from. */
  lemma PoolIsChecked(handles: seq<Par>, runs: seq<Handle>, holds: seq<Hold>, g: Graph)
    requires PoolIs(handles, runs, holds, g)
    ensures BorrowOk(handles, seq(|handles|, _ => LIFE_FREE), runs, holds, g, [])
  {
    hide EdgesMatch, Table, PlaceOf, EdgesAt, RunsOk, Interned;
  }

  lemma EdgeFound(handles: seq<Par>, hs: seq<Hold>, es: seq<Edge>, held: nat, justConst: bool)
    requires Table(handles) && EdgesMatch(handles, hs, es) && held < |handles|
    ensures HasEdge(hs, held, justConst) <==> Edge(PlaceOf(handles, held), justConst) in es
  {
    hide Table, PlaceOf;
    var e := Edge(PlaceOf(handles, held), justConst);
    if HasEdge(hs, held, justConst) {
      var k :| 0 <= k < |hs| && SameEdge(hs[k], held, justConst);
      assert es[k] == e;
    }
    if e in es {
      var k :| 0 <= k < |es| && es[k] == e;
      PlacesDiffer(handles, hs[k].par, held);
      assert SameEdge(hs[k], held, justConst);
    }
  }

  /** One hold more in the pool is one edge more in the graph. */
  lemma PoolNotes(handles: seq<Par>, runs: seq<Handle>, holds: seq<Hold>, g: Graph, runs1: seq<Handle>, holds1: seq<Hold>,
                  owner: nat, edge: Hold)
    requires PoolIs(handles, runs, holds, g) && owner < |handles| && edge.par < |handles|
    requires |runs1| == |runs| && RunsOk(runs1, holds1)
    requires forall i :: 0 <= i < |runs| && i != owner ==> HeldBy(runs1, holds1, i) == HeldBy(runs, holds, i)
    requires var before := HeldBy(runs, holds, owner);
      HeldBy(runs1, holds1, owner) == if HasEdge(before, edge.par, edge.justConst) then before else before + [edge]
    ensures PoolIs(handles, runs1, holds1, Noted(g, PlaceOf(handles, owner), Edge(PlaceOf(handles, edge.par), edge.justConst)))
  {
    hide Table, PlaceOf, RunsOk, HeldBy, HasEdge, Interned;
    var p, e := PlaceOf(handles, owner), Edge(PlaceOf(handles, edge.par), edge.justConst);
    var more, before := Noted(g, p, e), HeldBy(runs, holds, owner);
    assert EdgesMatch(handles, before, EdgesAt(g, p));
    EdgeFound(handles, before, EdgesAt(g, p), edge.par, edge.justConst);
    forall i | 0 <= i < |handles| ensures EdgesMatch(handles, HeldBy(runs1, holds1, i), EdgesAt(more, PlaceOf(handles, i))) {
      if i != owner {
        if PlaceOf(handles, i) == p { PlacesDiffer(handles, i, owner); }
        assert EdgesAt(more, PlaceOf(handles, i)) == EdgesAt(g, PlaceOf(handles, i));
      }
    }
    forall q | q in more ensures Interned(handles, q) {
      if q == p { FoundAt(handles, owner); }
    }
  }

  lemma FoundAt(handles: seq<Par>, i: nat)
    requires i < |handles|
    ensures Interned(handles, PlaceOf(handles, i))
  {
    hide PlaceOf;
  }

  lemma PoolGrows(handles: seq<Par>, par: Par, runs: seq<Handle>, holds: seq<Hold>, g: Graph)
    requires PoolIs(handles, runs, holds, g) && Table(handles + [par])
    ensures PoolIs(handles + [par], runs + [Handle(0, 0)], holds, g)
  {
    hide EdgesMatch, Interned, Table, PlaceOf, EdgesAt;
    var more, runs1 := handles + [par], runs + [Handle(0, 0)];
    assert RunsOk(runs1, holds);
    NewHoldsNothing(handles, par, g);
    forall i | 0 <= i < |more| ensures EdgesMatch(more, HeldBy(runs1, holds, i), EdgesAt(g, PlaceOf(more, i))) {
      if i < |handles| {
        PlaceStays(handles, more, i);
        EdgesMatchStays(handles, more, HeldBy(runs, holds, i), EdgesAt(g, PlaceOf(handles, i)));
      } else {
        NothingMatches(more);
      }
    }
    forall p | p in g ensures Interned(more, p) { InternedStays(handles, more, p); }
  }

  lemma NewHoldsNothing(handles: seq<Par>, par: Par, g: Graph)
    requires Table(handles) && Table(handles + [par]) && forall p :: p in g ==> Interned(handles, p)
    ensures EdgesAt(g, PlaceOf(handles + [par], |handles|)) == []
  {
    NewIsFree(handles, par, g, []);
  }

  lemma RunsGrow(runs: seq<Handle>, holds: seq<Hold>)
    requires RunsOk(runs, holds) && forall i :: 0 <= i < |runs| ==> NoDoubles(HeldBy(runs, holds, i))
    ensures RunsOk(runs + [Handle(0, 0)], holds)
    ensures forall i :: 0 <= i <= |runs| ==> NoDoubles(HeldBy(runs + [Handle(0, 0)], holds, i))
  {
    hide NoDoubles;
    var more := runs + [Handle(0, 0)];
    NothingTwice();
    forall i | 0 <= i <= |runs| ensures NoDoubles(HeldBy(more, holds, i)) {
      if i < |runs| { assert HeldBy(more, holds, i) == HeldBy(runs, holds, i); } else { assert HeldBy(more, holds, i) == []; }
    }
  }

  lemma NothingTwice()
    ensures NoDoubles([])
  {
  }

  // ----- the first pass -----

  predicate IsPortal(s: Scope, portals: set<nat>, p: Place) { IsType(s, TypeAt(s, p)) && TypeAt(s, p) in portals }

  predicate Retargetable(s: Scope, portals: set<nat>, p: Place) {
    IsPortal(s, portals, p) && RootOf(p).Root? && RootOf(p).kind.PAR_LOCAL?
  }

  /** How deep the variable is nested that a place is part of. */
  function DepthOf(s: Scope, depths: seq<nat>, p: Place): nat {
    var r := RootOf(p);
    if r.Root? && r.kind.PAR_LOCAL? && r.idx < |s.f.vars| && r.idx < |depths| then depths[r.idx] else 0
  }

  /** A portal may be led to what lives at least as long. */
  predicate RegionOk(s: Scope, portals: set<nat>, depths: seq<nat>, portal: Place, backing: Place) {
    Retargetable(s, portals, portal) && DepthOf(s, depths, backing) <= DepthOf(s, depths, portal)
  }

  datatype Verdict = Rejected | Passed | MadeHold(justConst: bool)

  /** What the pass makes of an operation on the two places on top of the stack. */
  function Recorded(s: Scope, portals: set<nat>, depths: seq<nat>, op: Op, dst: Place, src: Place): Verdict {
    match op
    case SliceFromAr =>
      var tid := TypeAt(s, dst);
      if !IsType(s, tid) || !(s.f.types[tid].kind.KSlice? || s.f.types[tid].kind.KView?) then Rejected
      else if !RegionOk(s, portals, depths, dst, src) then Rejected
      else MadeHold(s.f.types[tid].kind.KView?)
    case SliceFromOne => if RegionOk(s, portals, depths, dst, src) then MadeHold(false) else Rejected
    case Assign =>
      if !IsPortal(s, portals, dst) then Passed
      else if !Retargetable(s, portals, dst) then Rejected
      else if !IsPortal(s, portals, src) then Passed
      else if RegionOk(s, portals, depths, dst, src) then MadeHold(false) else Rejected
    case _ => Passed
  }

  class FirstPass {
    const ctx: CompileContext
    const pool: Pool
    const s: Scope
    const portals: set<nat>
    var depths: seq<nat>
    ghost var g: Graph

    ghost predicate Valid()
      reads this, pool, ctx, ctx.table, ctx.table.keys, ctx.table.vals, ctx.table.used
    {
      ctx.Valid() && pool.Valid() && PoolIs(ctx.handles, pool.handles, pool.holds, g)
    }

    constructor (ctx: CompileContext, pool: Pool, s: Scope, portals: set<nat>, depths: seq<nat>)
      requires ctx.Valid() && Table(ctx.handles) && pool.Valid() && |pool.handles| == |ctx.handles|
      requires forall i :: 0 <= i < |pool.handles| ==> pool.handles[i].num == 0
      ensures Valid() && g == map[] && this.ctx == ctx && this.pool == pool && this.s == s && this.portals == portals && this.depths == depths
    {
      this.ctx, this.pool, this.s, this.portals, this.depths := ctx, pool, s, portals, depths;
      g := map[];
    }

    /** A place that was interned meanwhile holds nothing yet. */
    method Extend()
      requires ctx.Valid() && Table(ctx.handles) && pool.Valid()
      requires |pool.handles| <= |ctx.handles| <= |pool.handles| + 1
      requires PoolIs(ctx.handles[..|pool.handles|], pool.handles, pool.holds, g)
      modifies pool
      ensures Valid()
    {
      hide Table, RunsOk, Indexed, Holds, ParIdxTable.Valid, PoolIs, NoDoubles;
      var n := |pool.handles|;
      if n < |ctx.handles| {
        assert ctx.handles == ctx.handles[..n] + [ctx.handles[n]];
        PoolGrows(ctx.handles[..n], ctx.handles[n], pool.handles, pool.holds, g);
        RunsGrow(pool.handles, pool.holds);
        pool.handles := pool.handles + [Handle(0, 0)];
      } else {
        assert ctx.handles == ctx.handles[..n];
      }
    }

    method PortalAt(idx: nat) returns (portal: bool)
      requires Table(ctx.handles) && idx < |ctx.handles|
      ensures portal == IsPortal(s, portals, PlaceOf(ctx.handles, idx))
    {
      hide PlaceOf, Table, TypeAt;
      var tid := ParType(s, ctx.handles, idx);
      return IsType(s, tid) && tid in portals;
    }

    method RetargetableAt(idx: nat) returns (free: bool)
      requires Table(ctx.handles) && idx < |ctx.handles|
      ensures free == Retargetable(s, portals, PlaceOf(ctx.handles, idx))
    {
      hide Table, TypeAt, IsPortal;
      free := PortalAt(idx);
      if !free { return; }
      var root := ParRoot(ctx.handles, idx);
      RootAt(ctx.handles, root, PlaceOf(ctx.handles, idx));
      free := ctx.handles[root].kind.PAR_LOCAL?;
    }

    method ScopeDepth(idx: nat) returns (d: nat)
      requires Table(ctx.handles) && idx < |ctx.handles|
      ensures d == DepthOf(s, depths, PlaceOf(ctx.handles, idx))
    {
      hide Table;
      var root := ParRoot(ctx.handles, idx);
      RootAt(ctx.handles, root, PlaceOf(ctx.handles, idx));
      var par := ctx.handles[root];
      if par.kind.PAR_LOCAL? && par.idx < |s.f.vars| && par.idx < |depths| { return depths[par.idx]; }
      return 0;
    }

    method CheckRegion(portal: nat, backing: nat) returns (ok: bool)
      requires Table(ctx.handles) && portal < |ctx.handles| && backing < |ctx.handles|
      ensures ok == RegionOk(s, portals, depths, PlaceOf(ctx.handles, portal), PlaceOf(ctx.handles, backing))
    {
      hide Table, PlaceOf, Retargetable, DepthOf;
      ok := RetargetableAt(portal);
      if !ok { return; }
      var inner := ScopeDepth(backing);
      var outer := ScopeDepth(portal);
      return inner <= outer;
    }

    /** The hold that an operation makes, if it is accepted. */
    method Record(op: Op, dst: nat, src: nat, site: nat) returns (ok: bool)
      requires Valid() && dst < |ctx.handles| && src < |ctx.handles|
      modifies this, pool
      ensures Valid() && depths == old(depths) && |pool.handles| == |ctx.handles|
      ensures var p, q := PlaceOf(ctx.handles, dst), PlaceOf(ctx.handles, src);
        var r := Recorded(s, portals, depths, op, p, q);
        ok == !r.Rejected? && g == if r.MadeHold? then Noted(old(g), p, Edge(q, r.justConst)) else old(g)
    {
      hide Table, PlaceOf, TypeAt, IsPortal, Retargetable, RegionOk, RunsOk, EdgesMatch, Interned, HeldBy, NoDoubles, Noted, Indexed, Holds, ParIdxTable.Valid;
      var justConst := false;
      if op.SliceFromAr? {
        var tid := ParType(s, ctx.handles, dst);
        if !IsType(s, tid) || !(s.f.types[tid].kind.KSlice? || s.f.types[tid].kind.KView?) { return false; }
        justConst := s.f.types[tid].kind.KView?;
      } else if op.Assign? {
        ok := PortalAt(dst);
        if !ok { return true; }
        ok := RetargetableAt(dst);
        if !ok { return; }
        ok := PortalAt(src);
        if !ok { return true; }
      } else if !op.SliceFromOne? {
        return true;
      }
      ok := CheckRegion(dst, src);
      if !ok { return; }
      ok := AddHold(dst, src, site, justConst);
    }

    method AddHold(owner: nat, held: nat, site: nat, justConst: bool) returns (ok: bool)
      requires Valid() && owner < |ctx.handles| && held < |ctx.handles|
      modifies this, pool
      ensures Valid() && ok && depths == old(depths)
      ensures g == Noted(old(g), PlaceOf(ctx.handles, owner), Edge(PlaceOf(ctx.handles, held), justConst))
    {
      hide Table, PlaceOf, RunsOk, EdgesMatch, Interned, HeldBy, NoDoubles, HasEdge, Noted, Indexed, Holds, ParIdxTable.Valid;
      ghost var runs, holds := pool.handles, pool.holds;
      ok := pool.AddHold(owner, held, site, justConst);
      PoolNotes(ctx.handles, runs, holds, g, pool.handles, pool.holds, owner, Hold(held, site, justConst));
      g := Noted(g, PlaceOf(ctx.handles, owner), Edge(PlaceOf(ctx.handles, held), justConst));
    }
  }

  /** The root of a place is no part of another one. */
  lemma {:induction false} RootAt(handles: seq<Par>, root: nat, p: Place)
    requires Table(handles) && root < |handles| && PlaceOf(handles, root) == RootOf(p)
    ensures RootOf(p) == Root(handles[root].kind, handles[root].idx)
  {
    RootIsRoot(p);
    assert ParOk(handles[root], root);
  }

  lemma {:induction false} RootIsRoot(p: Place)
    ensures RootOf(p).Root?
  {
    if !p.Root? { RootIsRoot(p.of); }
  }

  // ----- with a cycle -----

  /** `borrow_par`, given up after calls nested `fuel` deep. */
  function BorrowIn(fuel: nat, s: Scope, g: Graph, marks: map<Place, Life>, p: Place, want: Life): Option<(bool, map<Place, Life>)>
    decreases fuel, 1, 0
  {
    if fuel == 0 then None
    else if p.MemberOf? then BorrowIn(fuel - 1, s, g, marks, p.of, want)
    else
      var mark := if p in marks then marks[p] else LIFE_FREE;
      if Clashes(mark, want) then Some((false, marks))
      else match BorrowHeldIn(fuel - 1, s, g, marks[p := Marked(mark, want)], EdgesAt(g, p), want)
        case None => None
        case Some(r) => if !r.0 then Some(r) else BorrowFieldsIn(fuel - 1, s, g, r.1, p, FieldCount(s, p), want)
  }

  function BorrowHeldIn(fuel: nat, s: Scope, g: Graph, marks: map<Place, Life>, es: seq<Edge>, want: Life): Option<(bool, map<Place, Life>)>
    decreases fuel, 2, |es|
  {
    if |es| == 0 then Some((true, marks)) else
    match BorrowIn(fuel, s, g, marks, es[0].to, Held(es[0], want))
    case None => None
    case Some(r) => if !r.0 then Some(r) else BorrowHeldIn(fuel, s, g, r.1, es[1..], want)
  }

  function BorrowFieldsIn(fuel: nat, s: Scope, g: Graph, marks: map<Place, Life>, p: Place, left: nat, want: Life): Option<(bool, map<Place, Life>)>
    requires left <= FieldCount(s, p)
    decreases fuel, 2, left
  {
    if left == 0 then Some((true, marks)) else
    match BorrowIn(fuel, s, g, marks, FieldOf(p, FieldCount(s, p) - left), want)
    case None => None
    case Some(r) => if !r.0 then Some(r) else BorrowFieldsIn(fuel, s, g, r.1, p, left - 1, want)
  }

  predicate NoneUnique(marks: map<Place, Life>) { forall p :: p in marks ==> !marks[p].LIFE_UNIQUE? }

  /** All chains from p are shorter than `fuel` links. */
  ghost predicate Ends(fuel: nat, s: Scope, g: Graph, p: Place) {
    fuel > 0 && forall q :: Linked(s, g, p, q) ==> Ends(fuel - 1, s, g, q)
  }

  predicate Returns(r: Option<(bool, map<Place, Life>)>, ends: bool) {
    r.Some? == ends && (r.Some? ==> r.value.0 && NoneUnique(r.value.1))
  }

  /** Where nothing is borrowed uniquely, a shared borrow is accepted if it comes to an end,
      which depends on the links alone. */
  lemma {:induction false} SharedBorrow(fuel: nat, s: Scope, g: Graph, marks: map<Place, Life>, p: Place)
    requires NoneUnique(marks)
    ensures Returns(BorrowIn(fuel, s, g, marks, p, LIFE_SHARED), Ends(fuel, s, g, p))
    decreases fuel, 1, 0
  {
    if fuel > 0 {
      if p.MemberOf? {
        SharedBorrow(fuel - 1, s, g, marks, p.of);
        assert Linked(s, g, p, p.of);
      } else {
        var mark := if p in marks then marks[p] else LIFE_FREE;
        var m := marks[p := Marked(mark, LIFE_SHARED)];
        SharedHeld(fuel - 1, s, g, m, EdgesAt(g, p));
        var r := BorrowHeldIn(fuel - 1, s, g, m, EdgesAt(g, p), LIFE_SHARED);
        if r.Some? { SharedFields(fuel - 1, s, g, r.value.1, p, FieldCount(s, p)); }
        EndsByParts(fuel, s, g, p);
      }
    }
  }

  ghost predicate HeldEnd(fuel: nat, s: Scope, g: Graph, es: seq<Edge>) { forall k :: 0 <= k < |es| ==> Ends(fuel, s, g, es[k].to) }

  ghost predicate FieldsEnd(fuel: nat, s: Scope, g: Graph, p: Place, from: nat) {
    forall i: nat :: from <= i < FieldCount(s, p) ==> Ends(fuel, s, g, FieldOf(p, i))
  }

  lemma EndsByParts(fuel: nat, s: Scope, g: Graph, p: Place)
    requires fuel > 0 && !p.MemberOf?
    ensures Ends(fuel, s, g, p) <==> HeldEnd(fuel - 1, s, g, EdgesAt(g, p)) && FieldsEnd(fuel - 1, s, g, p, 0)
  {
    if Ends(fuel, s, g, p) {
      forall k | 0 <= k < |EdgesAt(g, p)| ensures Ends(fuel - 1, s, g, EdgesAt(g, p)[k].to) { assert Linked(s, g, p, EdgesAt(g, p)[k].to); }
      forall i: nat | i < FieldCount(s, p) ensures Ends(fuel - 1, s, g, FieldOf(p, i)) { assert Linked(s, g, p, FieldOf(p, i)); }
    } else {
      var q :| Linked(s, g, p, q) && !Ends(fuel - 1, s, g, q);
      if q.FieldOf? { assert q == FieldOf(q.of, q.field); }
    }
  }

  lemma {:induction false} SharedHeld(fuel: nat, s: Scope, g: Graph, marks: map<Place, Life>, es: seq<Edge>)
    requires NoneUnique(marks)
    ensures Returns(BorrowHeldIn(fuel, s, g, marks, es, LIFE_SHARED), HeldEnd(fuel, s, g, es))
    decreases fuel, 2, |es|
  {
    hide Ends;
    if |es| > 0 {
      SharedBorrow(fuel, s, g, marks, es[0].to);
      var r := BorrowIn(fuel, s, g, marks, es[0].to, LIFE_SHARED);
      if r.Some? { SharedHeld(fuel, s, g, r.value.1, es[1..]); }
      HeldEndFirst(fuel, s, g, es);
    }
  }

  lemma HeldEndFirst(fuel: nat, s: Scope, g: Graph, es: seq<Edge>)
    requires |es| > 0
    ensures HeldEnd(fuel, s, g, es) <==> Ends(fuel, s, g, es[0].to) && HeldEnd(fuel, s, g, es[1..])
  {
    hide Ends;
    if Ends(fuel, s, g, es[0].to) && HeldEnd(fuel, s, g, es[1..]) {
      forall k | 0 <= k < |es| ensures Ends(fuel, s, g, es[k].to) { if k > 0 { assert es[1..][k - 1] == es[k]; } }
    }
  }

  lemma {:induction false} SharedFields(fuel: nat, s: Scope, g: Graph, marks: map<Place, Life>, p: Place, left: nat)
    requires NoneUnique(marks) && left <= FieldCount(s, p)
    ensures Returns(BorrowFieldsIn(fuel, s, g, marks, p, left, LIFE_SHARED), FieldsEnd(fuel, s, g, p, FieldCount(s, p) - left))
    decreases fuel, 2, left
  {
    hide Ends;
    if left > 0 {
      var f := FieldOf(p, FieldCount(s, p) - left);
      SharedBorrow(fuel, s, g, marks, f);
      var r := BorrowIn(fuel, s, g, marks, f, LIFE_SHARED);
      if r.Some? { SharedFields(fuel, s, g, r.value.1, p, left - 1); }
    }
  }

  /** Without cycles every chain ends. */
  lemma {:induction false} AcyclicEnds(s: Scope, g: Graph, rank: Place -> nat, p: Place, fuel: nat)
    requires Acyclic(s, g, rank) && fuel > rank(p)
    ensures Ends(fuel, s, g, p)
    decreases fuel
  {
    hide Acyclic, Linked;
    forall q | Linked(s, g, p, q) ensures Ends(fuel - 1, s, g, q) {
      LinkGoesDown(s, g, rank, p, q);
      AcyclicEnds(s, g, rank, q, fuel - 1);
    }
  }

  lemma {:induction false} EndsAlong(fuel: nat, s: Scope, g: Graph, w: seq<Place>)
    requires Chain(s, g, w) && Ends(fuel, s, g, w[0])
    ensures |w| <= fuel && Ends(fuel - |w| + 1, s, g, w[|w| - 1])
    decreases |w|
  {
    if |w| > 1 {
      ChainRest(s, g, w);
      EndsAlong(fuel - 1, s, g, w[1..]);
    }
  }

  /** From a cycle there is no end, however deep the calls may nest. */
  lemma {:induction false} CycleNeverEnds(fuel: nat, s: Scope, g: Graph, w: seq<Place>)
    requires Chain(s, g, w) && |w| > 1 && w[|w| - 1] == w[0]
    ensures !Ends(fuel, s, g, w[0])
    decreases fuel
  {
    hide Ends, Chain;
    if Ends(fuel, s, g, w[0]) {
      EndsAlong(fuel, s, g, w);
      CycleNeverEnds(fuel - |w| + 1, s, g, w);
    }
  }

  /** Where nothing is borrowed uniquely, borrowing p as shared returns if and only if the
      chains from p are bounded. */
  lemma SharedBorrowReturns(s: Scope, g: Graph, marks: map<Place, Life>, p: Place)
    requires NoneUnique(marks)
    ensures (exists fuel: nat :: ReturnsIn(fuel, s, g, marks, p)) <==> (exists bound: nat :: ChainsWithin(s, g, p, bound))
  {
    hide Ends, ChainsWithin;
    if fuel: nat :| ReturnsIn(fuel, s, g, marks, p) {
      SharedBorrow(fuel, s, g, marks, p);
      EndsBounds(fuel, s, g, p);
    }
    if bound: nat :| ChainsWithin(s, g, p, bound) {
      BoundsEnd(bound, s, g, p);
      SharedBorrow(bound, s, g, marks, p);
      assert ReturnsIn(bound, s, g, marks, p);
    }
  }

  predicate ReturnsIn(fuel: nat, s: Scope, g: Graph, marks: map<Place, Life>, p: Place) {
    BorrowIn(fuel, s, g, marks, p, LIFE_SHARED).Some?
  }

  ghost predicate ChainsWithin(s: Scope, g: Graph, p: Place, bound: nat) {
    forall w :: |w| > 0 && Chain(s, g, w) && w[0] == p ==> |w| <= bound
  }

  lemma EndsBounds(fuel: nat, s: Scope, g: Graph, p: Place)
    requires Ends(fuel, s, g, p)
    ensures ChainsWithin(s, g, p, fuel)
  {
    hide Ends, Chain;
    forall w | |w| > 0 && Chain(s, g, w) && w[0] == p ensures |w| <= fuel { EndsAlong(fuel, s, g, w); }
  }

  lemma {:induction false} BoundsEnd(bound: nat, s: Scope, g: Graph, p: Place)
    requires ChainsWithin(s, g, p, bound)
    ensures Ends(bound, s, g, p)
    decreases bound
  {
    hide Linked;
    assert Chain(s, g, [p]);
    forall q | Linked(s, g, p, q) ensures Ends(bound - 1, s, g, q) {
      forall w | |w| > 0 && Chain(s, g, w) && w[0] == q ensures |w| <= bound - 1 {
        ChainOn(s, g, p, w);
        assert ([p] + w)[0] == p && |[p] + w| == |w| + 1;
      }
      BoundsEnd(bound - 1, s, g, q);
    }
  }

  // ----- all borrows -----

  ghost predicate EverEnds(s: Scope, g: Graph, p: Place) { exists n: nat :: Ends(n, s, g, p) }

  /** Borrowed as shared, with nothing borrowed uniquely. */
  ghost predicate EverReturns(s: Scope, g: Graph, p: Place) { exists fuel: nat :: ReturnsIn(fuel, s, g, map[], p) }

  lemma {:induction false} EndsLater(m: nat, n: nat, s: Scope, g: Graph, p: Place)
    requires Ends(m, s, g, p) && m <= n
    ensures Ends(n, s, g, p)
    decreases m
  {
    hide Linked;
    forall q | Linked(s, g, p, q) ensures Ends(n - 1, s, g, q) { EndsLater(m - 1, n - 1, s, g, q); }
  }

  /** The least bound below n. */
  ghost function Least(s: Scope, g: Graph, p: Place, n: nat): (m: nat)
    ensures Ends(n, s, g, p) ==> Ends(m, s, g, p)
    ensures m == 0 || !Ends(m - 1, s, g, p)
  {
    if n > 0 && Ends(n - 1, s, g, p) then Least(s, g, p, n - 1) else if n > 0 then n else 0
  }

  /** How deep the calls nest that borrow p. */
  ghost function Nesting(s: Scope, g: Graph, p: Place): (m: nat)
    ensures (EverEnds(s, g, p)) ==> Ends(m, s, g, p) && (m == 0 || !Ends(m - 1, s, g, p))
  {
    if n: nat :| Ends(n, s, g, p) then Least(s, g, p, n) else 0
  }

  /** Where every chain ends, there is a rank. */
  lemma EndsHaveRank(s: Scope, g: Graph)
    requires forall p: Place :: EverEnds(s, g, p)
    ensures HasRank(s, g)
  {
    var rank: Place -> nat := p => Nesting(s, g, p);
    forall p: Place, q: Place | Linked(s, g, p, q) ensures rank(q) < rank(p) { NestsLess(s, g, p, q); }
    forall p: Place ensures rank(p) < rank(MemberOf(p)) { assert Linked(s, g, MemberOf(p), p); }
    forall p: Place, k | !p.MemberOf? && 0 <= k < |EdgesAt(g, p)| ensures rank(EdgesAt(g, p)[k].to) < rank(p) {
      assert Linked(s, g, p, EdgesAt(g, p)[k].to);
    }
    forall p: Place, i: nat | !p.MemberOf? && i < FieldCount(s, p) ensures rank(FieldOf(p, i)) < rank(p) { assert Linked(s, g, p, FieldOf(p, i)); }
    assert Acyclic(s, g, rank);
  }

  lemma NestsLess(s: Scope, g: Graph, p: Place, q: Place)
    requires Linked(s, g, p, q) && EverEnds(s, g, p)
    ensures Nesting(s, g, q) < Nesting(s, g, p)
  {
    hide Linked;
    var m := Nesting(s, g, p);
    assert Ends(m, s, g, p) && Ends(m - 1, s, g, q);
    if Nesting(s, g, q) >= m { EndsLater(m - 1, Nesting(s, g, q) - 1, s, g, q); }
  }

  lemma ReturnsEnds(s: Scope, g: Graph, p: Place)
    requires EverReturns(s, g, p)
    ensures EverEnds(s, g, p)
  {
    hide Ends, BorrowIn;
    var fuel: nat :| ReturnsIn(fuel, s, g, map[], p);
    SharedBorrow(fuel, s, g, map[], p);
  }

  /** After every run of the first pass: each place can be borrowed as shared if and only if no
      hold led back to its owner when it was recorded. */
  lemma EveryBorrowReturns(s: Scope, depth: nat -> nat, rs: seq<Record>)
    requires TypesRanked(s, depth)
    ensures (forall p: Place :: EverReturns(s, After(rs), p)) <==> NeverCloses(s, rs)
  {
    hide Acyclic, Ends, After, NeverCloses, TypesRanked, BorrowIn, EverEnds;
    WholePass(s, depth, rs);
    var g := After(rs);
    if HasRank(s, g) {
      var rank: Place -> nat :| Acyclic(s, g, rank);
      forall p: Place ensures EverReturns(s, g, p) {
        AcyclicEnds(s, g, rank, p, rank(p) + 1);
        SharedBorrow(rank(p) + 1, s, g, map[], p);
        assert ReturnsIn(rank(p) + 1, s, g, map[], p);
      }
    }
    if forall p: Place :: EverReturns(s, g, p) {
      forall p: Place ensures EverEnds(s, g, p) {
        assert EverReturns(s, g, p);
        ReturnsEnds(s, g, p);
      }
      EndsHaveRank(s, g);
    }
  }

  /** A local portal that is assigned to itself: the first pass accepts it and records that it
      holds itself. Then no rank is left, a shared borrow of it never returns, and a unique one
      is refused. */
  lemma SelfAssignment(s: Scope, portals: set<nat>, depths: seq<nat>, g: Graph, p: Place, fuel: nat)
    requires Retargetable(s, portals, p) && !p.MemberOf? && EdgesAt(g, p) == []
    ensures Recorded(s, portals, depths, Assign, p, p) == MadeHold(false)
    ensures var h := Noted(g, p, Edge(p, false));
      && (forall rank: Place -> nat :: !Acyclic(s, h, rank))
      && BorrowIn(fuel, s, h, map[], p, LIFE_SHARED).None?
      && (fuel > 1 ==> BorrowIn(fuel, s, h, map[], p, LIFE_UNIQUE) == Some((false, map[p := LIFE_UNIQUE])))
  {
    var h := Noted(g, p, Edge(p, false));
    assert EdgesAt(h, p)[0].to == p;
    assert Chain(s, h, [p, p]);
    forall rank: Place -> nat ensures !Acyclic(s, h, rank) {
      if Acyclic(s, h, rank) { ChainGoesDown(s, h, rank, [p, p]); }
    }
    CycleNeverEnds(fuel, s, h, [p, p]);
    SharedBorrow(fuel, s, h, map[], p);
    if fuel > 1 { SelfRefused(fuel - 2, s, h, p); }
  }

  lemma SelfRefused(fuel: nat, s: Scope, g: Graph, p: Place)
    requires !p.MemberOf? && EdgesAt(g, p) == [Edge(p, false)]
    ensures BorrowIn(fuel + 2, s, g, map[], p, LIFE_UNIQUE) == Some((false, map[p := LIFE_UNIQUE]))
  {
    var marks: map<Place, Life> := map[p := LIFE_UNIQUE];
    var es := EdgesAt(g, p);
    assert BorrowIn(fuel + 1, s, g, marks, p, LIFE_UNIQUE) == Some((false, marks));
    assert es[0] == Edge(p, false) && Held(es[0], LIFE_UNIQUE) == LIFE_UNIQUE;
    assert BorrowHeldIn(fuel + 1, s, g, marks, es, LIFE_UNIQUE) == Some((false, marks));
    assert map[][p := LIFE_UNIQUE] == marks;
  }
}
