/** The borrow check as it runs: marks on the interned places, set while the holds and the
    fields of each argument are walked. */
module BorrowChecker {
  import opened Memory
  import opened Ir
  import opened InternTable
  import opened HoldPool
  import opened Places
  import opened Borrow
  import opened TypeScanner

  predicate EdgesMatch(handles: seq<Par>, hs: seq<Hold>, es: seq<Edge>) {
    |hs| == |es| && forall k :: 0 <= k < |hs| ==> hs[k].par < |handles| && es[k] == Edge(PlaceOf(handles, hs[k].par), hs[k].justConst)
  }

  predicate Interned(handles: seq<Par>, p: Place) { exists i :: 0 <= i < |handles| && PlaceOf(handles, i) == p }

  /** The runs are the graph, and the marks are those of the visits. */
  ghost predicate BorrowOk(handles: seq<Par>, life: seq<Life>, runs: seq<Handle>, holds: seq<Hold>, g: Graph, visits: seq<Visit>) {
    && Table(handles) && |life| == |runs| == |handles| && RunsOk(runs, holds)
    && (forall i :: 0 <= i < |handles| ==> EdgesMatch(handles, HeldBy(runs, holds, i), EdgesAt(g, PlaceOf(handles, i))))
    && (forall p :: p in g ==> Interned(handles, p))
    && (forall i :: 0 <= i < |handles| ==> life[i] == LifeIn(visits, PlaceOf(handles, i)))
    && (forall k :: 0 <= k < |visits| ==> Interned(handles, visits[k].place) && !visits[k].want.LIFE_FREE?)
  }

  lemma InternedStays(handles: seq<Par>, more: seq<Par>, p: Place)
    requires Table(handles) && handles <= more && Interned(handles, p)
    ensures Interned(more, p)
  {
    var i :| 0 <= i < |handles| && PlaceOf(handles, i) == p;
    PlaceStays(handles, more, i);
  }

  lemma EdgesMatchStays(handles: seq<Par>, more: seq<Par>, hs: seq<Hold>, es: seq<Edge>)
    requires Table(handles) && handles <= more && EdgesMatch(handles, hs, es)
    ensures EdgesMatch(more, hs, es)
  {
    forall k | 0 <= k < |hs| ensures es[k] == Edge(PlaceOf(more, hs[k].par), hs[k].justConst) { PlaceStays(handles, more, hs[k].par); }
  }

  /** A new place has no holds and no visits. */
  lemma NewIsFree(handles: seq<Par>, par: Par, g: Graph, visits: seq<Visit>)
    requires Table(handles) && Table(handles + [par])
    requires forall p :: p in g ==> Interned(handles, p)
    requires forall k :: 0 <= k < |visits| ==> Interned(handles, visits[k].place) && !visits[k].want.LIFE_FREE?
    ensures var p := PlaceOf(handles + [par], |handles|); EdgesAt(g, p) == [] && LifeIn(visits, p).LIFE_FREE?
  {
    var more := handles + [par];
    var p := PlaceOf(more, |handles|);
    if Interned(handles, p) {
      var i :| 0 <= i < |handles| && PlaceOf(handles, i) == p;
      PlaceStays(handles, more, i);
      PlacesDiffer(more, i, |handles|);
    }
    LifeMeans(visits, p);
  }

  lemma GrownOk(handles: seq<Par>, life: seq<Life>, runs: seq<Handle>, holds: seq<Hold>, g: Graph, visits: seq<Visit>, par: Par)
    requires BorrowOk(handles, life, runs, holds, g, visits) && Table(handles + [par])
    ensures BorrowOk(handles + [par], life + [LIFE_FREE], runs + [Handle(0, 0)], holds, g, visits)
  {
    hide EdgesMatch, Interned, Table, PlaceOf, LifeIn, EdgesAt;
    var more, runs1 := handles + [par], runs + [Handle(0, 0)];
    NewIsFree(handles, par, g, visits);
    assert RunsOk(runs1, holds);
    forall i | 0 <= i < |more| ensures EdgesMatch(more, HeldBy(runs1, holds, i), EdgesAt(g, PlaceOf(more, i))) {
      if i < |handles| {
        PlaceStays(handles, more, i);
        EdgesMatchStays(handles, more, HeldBy(runs, holds, i), EdgesAt(g, PlaceOf(handles, i)));
      } else {
        NothingMatches(more);
      }
    }
    forall p | p in g ensures Interned(more, p) { InternedStays(handles, more, p); }
    forall i | 0 <= i < |handles| ensures life[i] == LifeIn(visits, PlaceOf(more, i)) { PlaceStays(handles, more, i); }
    forall k | 0 <= k < |visits| ensures Interned(more, visits[k].place) { InternedStays(handles, more, visits[k].place); }
  }

  lemma NothingMatches(handles: seq<Par>)
    ensures EdgesMatch(handles, [], [])
  {
  }

  function Marked(l: Life, want: Life): Life {
    if want.LIFE_UNIQUE? then LIFE_UNIQUE else if l.LIFE_FREE? then LIFE_SHARED else l
  }

  lemma MarkedOk(handles: seq<Par>, life: seq<Life>, runs: seq<Handle>, holds: seq<Hold>, g: Graph, visits: seq<Visit>, idx: nat, want: Life)
    requires BorrowOk(handles, life, runs, holds, g, visits) && idx < |handles| && !want.LIFE_FREE? && !Clashes(life[idx], want)
    ensures BorrowOk(handles, life[idx := Marked(life[idx], want)], runs, holds, g, visits + [Visit(PlaceOf(handles, idx), want)])
  {
    hide EdgesMatch, Table, PlaceOf, EdgesAt, RunsOk;
    var v := Visit(PlaceOf(handles, idx), want);
    var vs := visits + [v];
    assert vs[..|vs| - 1] == visits;
    forall i | 0 <= i < |handles| ensures life[idx := Marked(life[idx], want)][i] == LifeIn(vs, PlaceOf(handles, i)) {
      if i != idx && PlaceOf(handles, i) == v.place { PlacesDiffer(handles, i, idx); }
    }
    assert Interned(handles, v.place);
  }

  // ----- the sequence of visits -----

  lemma {:induction false} HeldPrefix(s: Scope, g: Graph, rank: Place -> nat, p: Place, want: Life, k: nat, n: nat)
    requires Acyclic(s, g, rank) && !p.MemberOf? && k <= n <= |EdgesAt(g, p)|
    ensures ReachHeld(s, g, rank, p, want, k) <= ReachHeld(s, g, rank, p, want, n)
    decreases n
  {
    hide Reach, Acyclic;
    if k < n { HeldPrefix(s, g, rank, p, want, k, n - 1); }
  }

  lemma {:induction false} FieldsPrefix(s: Scope, g: Graph, rank: Place -> nat, p: Place, want: Life, k: nat, n: nat)
    requires Acyclic(s, g, rank) && !p.MemberOf? && k <= n <= FieldCount(s, p)
    ensures ReachFields(s, g, rank, p, want, k) <= ReachFields(s, g, rank, p, want, n)
    decreases n
  {
    hide Reach, Acyclic;
    if k < n { FieldsPrefix(s, g, rank, p, want, k, n - 1); }
  }

  /** Once visits clash, more visits do not help. */
  lemma ClashStays(vs: seq<Visit>, part: seq<Visit>, whole: seq<Visit>)
    requires part <= whole && !Compatible(vs + part)
    ensures !Compatible(vs + whole)
  {
    hide Compatible;
    var more := whole[|part|..];
    assert vs + whole == (vs + part) + more;
    if Compatible(vs + whole) { CompatiblePrefix(vs + part, more); }
  }

  class Borrower {
    const ctx: CompileContext
    const s: Scope
    const portals: set<nat>  // the types that hold references
    const holds: seq<Hold>
    var life: seq<Life>
    var runs: seq<Handle>
    ghost const g: Graph
    ghost const rank: Place -> nat
    ghost var visits: seq<Visit>

    ghost predicate Valid()
      reads this, ctx, ctx.table, ctx.table.keys, ctx.table.vals, ctx.table.used
    {
      ctx.Valid() && Acyclic(s, g, rank) && BorrowOk(ctx.handles, life, runs, holds, g, visits)
    }

    constructor (ctx: CompileContext, s: Scope, portals: set<nat>, runs: seq<Handle>, holds: seq<Hold>, ghost g: Graph, ghost rank: Place -> nat)
      requires ctx.Valid() && Acyclic(s, g, rank)
      requires BorrowOk(ctx.handles, seq(|ctx.handles|, _ => LIFE_FREE), runs, holds, g, [])
      ensures Valid() && visits == [] && this.ctx == ctx && this.s == s && this.portals == portals && this.g == g && this.rank == rank
    {
      this.ctx, this.s, this.portals, this.runs, this.holds := ctx, s, portals, runs, holds;
      life := seq(|ctx.handles|, _ => LIFE_FREE);
      this.g, this.rank, visits := g, rank, [];
    }

    /** The index of a field of a place; a new one is free and holds nothing. */
    method InternField(idx: nat, field: nat) returns (f: nat)
      requires Valid() && idx < |ctx.handles| <= 0xFFFF_FFFF
      modifies this, ctx, ctx.table, ctx.table.keys, ctx.table.vals, ctx.table.used
      ensures Valid() && ctx.table == old(ctx.table)
      ensures (ctx.table.keys == old(ctx.table.keys) && ctx.table.vals == old(ctx.table.vals) && ctx.table.used == old(ctx.table.used))
              || (fresh(ctx.table.keys) && fresh(ctx.table.vals) && fresh(ctx.table.used))
      ensures old(ctx.handles) <= ctx.handles
      ensures |ctx.handles| <= |old(ctx.handles)| + 1 && visits == old(visits)
      ensures f < |ctx.handles| && PlaceOf(ctx.handles, f) == FieldOf(PlaceOf(old(ctx.handles), idx), field)
    {
      hide Indexed, Holds, ParIdxTable.Valid, Acyclic, RunsOk, EdgesMatch, Interned, LifeIn, EdgesAt, PlaceOf;
      ghost var handles := ctx.handles;
      var par := Par(PAR_STRUCT_FILED, field, idx);
      assert Table(handles);
      TableGrows(handles, par);
      f := ctx.InternPar(par);
      FieldPlace(handles, ctx.handles, par, f);
      if |ctx.handles| > |life| {
        GrownOk(handles, life, runs, holds, g, visits, par);
        life, runs := life + [LIFE_FREE], runs + [Handle(0, 0)];
      }
    }

    /** Borrows a place with everything that it holds and consists of. It is refused exactly
        when that clashes with what was borrowed before, or with itself. */
    method BorrowPar(idx: nat, want: Life) returns (ok: bool)
      requires Valid() && Compatible(visits) && !want.LIFE_FREE?
      requires |ctx.handles| + |Reach(s, g, rank, PlaceOf(ctx.handles, idx), want)| <= 0x1_0000_0001
      modifies this, ctx, ctx.table, ctx.table.keys, ctx.table.vals, ctx.table.used
      ensures Valid() && ctx.table == old(ctx.table)
      ensures (ctx.table.keys == old(ctx.table.keys) && ctx.table.vals == old(ctx.table.vals) && ctx.table.used == old(ctx.table.used))
              || (fresh(ctx.table.keys) && fresh(ctx.table.vals) && fresh(ctx.table.used))
      ensures old(ctx.handles) <= ctx.handles
      ensures idx < |old(ctx.handles)| ==>
        var all := Reach(s, g, rank, PlaceOf(old(ctx.handles), idx), want);
        && |ctx.handles| < |old(ctx.handles)| + |all|
        && ok == Compatible(old(visits) + all) && (ok ==> visits == old(visits) + all)
      ensures idx >= |old(ctx.handles)| ==> !ok
      decreases rank(PlaceOf(ctx.handles, idx)), 3
    {
      hide Indexed, Holds, ParIdxTable.Valid, RunsOk, EdgesMatch, Interned, LifeIn, EdgesAt, ReachHeld, ReachFields, Compatible, TypeAt, BorrowOk, Acyclic, Table;
      if idx >= |ctx.handles| { return false; }
      var par := ctx.handles[idx];
      ghost var p := PlaceOf(ctx.handles, idx);
      MarkOf(ctx.handles, life, runs, holds, g, visits, idx);
      MemberGoesDown(s, g, rank, p);
      if par.kind.PAR_ARR_MEMBER? {
        ok := BorrowPar(par.parent, want);
        return;
      }
      ghost var v0, handles := visits, ctx.handles;
      ghost var held, fields := ReachHeld(s, g, rank, p, want, |EdgesAt(g, p)|), ReachFields(s, g, rank, p, want, FieldCount(s, p));
      ghost var all := Reach(s, g, rank, p, want);
      assert all == [Visit(p, want)] + held + fields;
      NextVisit(v0, Visit(p, want));
      if Clashes(life[idx], want) {
        ClashStays(v0, [Visit(p, want)], all);
        return false;
      }
      MarkedOk(ctx.handles, life, runs, holds, g, visits, idx, want);
      life := life[idx := Marked(life[idx], want)];
      visits := visits + [Visit(p, want)];
      ok := BorrowHeld(idx, want, p);
      assert v0 + ([Visit(p, want)] + held) == v0 + [Visit(p, want)] + held;
      if !ok {
        ClashStays(v0, [Visit(p, want)] + held, all);
        return;
      }
      PlaceStays(handles, ctx.handles, idx);
      ok := BorrowFields(idx, want, p);
      assert v0 + all == v0 + [Visit(p, want)] + held + fields;
    }

    method BorrowHeld(idx: nat, want: Life, ghost p: Place) returns (ok: bool)
      requires Valid() && Compatible(visits) && !want.LIFE_FREE? && idx < |ctx.handles| && p == PlaceOf(ctx.handles, idx) && !p.MemberOf?
      requires |ctx.handles| + |ReachHeld(s, g, rank, p, want, |EdgesAt(g, p)|)| <= 0x1_0000_0000
      modifies this, ctx, ctx.table, ctx.table.keys, ctx.table.vals, ctx.table.used
      ensures Valid() && ctx.table == old(ctx.table)
      ensures (ctx.table.keys == old(ctx.table.keys) && ctx.table.vals == old(ctx.table.vals) && ctx.table.used == old(ctx.table.used))
              || (fresh(ctx.table.keys) && fresh(ctx.table.vals) && fresh(ctx.table.used))
      ensures old(ctx.handles) <= ctx.handles
      ensures var all := ReachHeld(s, g, rank, p, want, |EdgesAt(g, p)|);
        && |ctx.handles| <= |old(ctx.handles)| + |all|
        && ok == Compatible(old(visits) + all) && (ok ==> visits == old(visits) + all)
      decreases rank(p), 2
    {
      hide Indexed, Holds, ParIdxTable.Valid, RunsOk, EdgesMatch, Interned, LifeIn, EdgesAt, ReachHeld, ReachFields, Compatible, TypeAt, Reach, PlaceOf, Acyclic, BorrowOk;
      ghost var v0, low, n := visits, |ctx.handles|, |EdgesAt(g, p)|;
      NothingHeld(s, g, rank, p, want, v0);
      RunLength(ctx.handles, life, runs, holds, g, visits, idx);
      var i: nat := 0;
      while i < runs[idx].num
        invariant idx < |runs| && runs[idx].num == n && i <= n && Compatible(visits)
        invariant idx < |ctx.handles| && Valid() && ctx.table == old(ctx.table)
        invariant (ctx.table.keys == old(ctx.table.keys) && ctx.table.vals == old(ctx.table.vals) && ctx.table.used == old(ctx.table.used))
                  || (fresh(ctx.table.keys) && fresh(ctx.table.vals) && fresh(ctx.table.used))
        invariant old(ctx.handles) <= ctx.handles && PlaceOf(ctx.handles, idx) == p
        invariant visits == v0 + ReachHeld(s, g, rank, p, want, i)
        invariant |ctx.handles| <= low + |ReachHeld(s, g, rank, p, want, i)|
      {
        ok := HeldStep(idx, i, want, p, v0, low);
        if !ok {
          HeldPrefix(s, g, rank, p, want, i + 1, n);
          ClashStays(v0, ReachHeld(s, g, rank, p, want, i + 1), ReachHeld(s, g, rank, p, want, n));
          return;
        }
        RunLength(ctx.handles, life, runs, holds, g, visits, idx);
        i := i + 1;
      }
      return true;
    }

    method HeldStep(idx: nat, i: nat, want: Life, ghost p: Place, ghost v0: seq<Visit>, ghost low: nat) returns (ok: bool)
      requires Valid() && Compatible(visits) && !want.LIFE_FREE? && idx < |ctx.handles| && p == PlaceOf(ctx.handles, idx) && !p.MemberOf?
      requires i < |EdgesAt(g, p)| && low + |ReachHeld(s, g, rank, p, want, |EdgesAt(g, p)|)| <= 0x1_0000_0000
      requires visits == v0 + ReachHeld(s, g, rank, p, want, i) && |ctx.handles| <= low + |ReachHeld(s, g, rank, p, want, i)|
      modifies this, ctx, ctx.table, ctx.table.keys, ctx.table.vals, ctx.table.used
      ensures Valid() && ctx.table == old(ctx.table)
      ensures (ctx.table.keys == old(ctx.table.keys) && ctx.table.vals == old(ctx.table.vals) && ctx.table.used == old(ctx.table.used))
              || (fresh(ctx.table.keys) && fresh(ctx.table.vals) && fresh(ctx.table.used))
      ensures old(ctx.handles) <= ctx.handles
      ensures idx < |ctx.handles| && PlaceOf(ctx.handles, idx) == p && |ctx.handles| <= low + |ReachHeld(s, g, rank, p, want, i + 1)|
      ensures ok == Compatible(v0 + ReachHeld(s, g, rank, p, want, i + 1)) && (ok ==> visits == v0 + ReachHeld(s, g, rank, p, want, i + 1))
      decreases rank(p), 1
    {
      hide Indexed, Holds, ParIdxTable.Valid, RunsOk, EdgesMatch, Interned, LifeIn, EdgesAt, ReachHeld, ReachFields, Compatible, TypeAt, Reach, PlaceOf, Acyclic, Table;
      ghost var before, e := ctx.handles, EdgesAt(g, p)[i];
      RunLength(ctx.handles, life, runs, holds, g, visits, idx);
      HoldIsEdge(ctx.handles, life, runs, holds, g, visits, idx, i);
      var hold := holds[runs[idx].start + i];
      HeldPrefix(s, g, rank, p, want, i + 1, |EdgesAt(g, p)|);
      NextHeld(s, g, rank, p, want, i);
      EdgeGoesDown(s, g, rank, p, i);
      ok := BorrowPar(hold.par, if hold.justConst then LIFE_SHARED else want);
      PlaceStays(before, ctx.handles, idx);
      ghost var now, part := Reach(s, g, rank, e.to, Held(e, want)), ReachHeld(s, g, rank, p, want, i);
      assert v0 + part + now == v0 + (part + now);
    }

    method BorrowFields(idx: nat, want: Life, ghost p: Place) returns (ok: bool)
      requires Valid() && Compatible(visits) && !want.LIFE_FREE? && idx < |ctx.handles| && p == PlaceOf(ctx.handles, idx) && !p.MemberOf?
      requires |ctx.handles| + |ReachFields(s, g, rank, p, want, FieldCount(s, p))| <= 0x1_0000_0000
      modifies this, ctx, ctx.table, ctx.table.keys, ctx.table.vals, ctx.table.used
      ensures Valid() && ctx.table == old(ctx.table)
      ensures (ctx.table.keys == old(ctx.table.keys) && ctx.table.vals == old(ctx.table.vals) && ctx.table.used == old(ctx.table.used))
              || (fresh(ctx.table.keys) && fresh(ctx.table.vals) && fresh(ctx.table.used))
      ensures old(ctx.handles) <= ctx.handles
      ensures var all := ReachFields(s, g, rank, p, want, FieldCount(s, p));
        && |ctx.handles| <= |old(ctx.handles)| + |all|
        && ok == Compatible(old(visits) + all) && (ok ==> visits == old(visits) + all)
      decreases rank(p), 2
    {
      hide Indexed, Holds, ParIdxTable.Valid, RunsOk, EdgesMatch, Interned, LifeIn, EdgesAt, ReachHeld, ReachFields, Compatible, TypeAt, Reach, PlaceOf, Acyclic, Table;
      ghost var v0, low := visits, |ctx.handles|;
      NoFields(s, g, rank, p, want, v0);
      var tid := ParType(s, ctx.handles, idx);
      if !IsType(s, tid) || !s.f.types[tid].kind.KStruct? { return true; }
      var count := |s.f.types[tid].kind.fields|;
      assert count == FieldCount(s, p);
      var i: nat := 0;
      while i < count
        invariant i <= count && Compatible(visits)
        invariant idx < |ctx.handles| && Valid() && ctx.table == old(ctx.table)
        invariant (ctx.table.keys == old(ctx.table.keys) && ctx.table.vals == old(ctx.table.vals) && ctx.table.used == old(ctx.table.used))
                  || (fresh(ctx.table.keys) && fresh(ctx.table.vals) && fresh(ctx.table.used))
        invariant old(ctx.handles) <= ctx.handles && PlaceOf(ctx.handles, idx) == p
        invariant visits == v0 + ReachFields(s, g, rank, p, want, i)
        invariant |ctx.handles| <= low + |ReachFields(s, g, rank, p, want, i)|
      {
        ok := FieldStep(idx, i, want, p, v0, low);
        if !ok {
          FieldsPrefix(s, g, rank, p, want, i + 1, count);
          ClashStays(v0, ReachFields(s, g, rank, p, want, i + 1), ReachFields(s, g, rank, p, want, count));
          return;
        }
        i := i + 1;
      }
      return true;
    }

    method FieldStep(idx: nat, i: nat, want: Life, ghost p: Place, ghost v0: seq<Visit>, ghost low: nat) returns (ok: bool)
      requires Valid() && Compatible(visits) && !want.LIFE_FREE? && idx < |ctx.handles| && p == PlaceOf(ctx.handles, idx) && !p.MemberOf?
      requires i < FieldCount(s, p) && low + |ReachFields(s, g, rank, p, want, FieldCount(s, p))| <= 0x1_0000_0000
      requires visits == v0 + ReachFields(s, g, rank, p, want, i) && |ctx.handles| <= low + |ReachFields(s, g, rank, p, want, i)|
      modifies this, ctx, ctx.table, ctx.table.keys, ctx.table.vals, ctx.table.used
      ensures Valid() && ctx.table == old(ctx.table)
      ensures (ctx.table.keys == old(ctx.table.keys) && ctx.table.vals == old(ctx.table.vals) && ctx.table.used == old(ctx.table.used))
              || (fresh(ctx.table.keys) && fresh(ctx.table.vals) && fresh(ctx.table.used))
      ensures old(ctx.handles) <= ctx.handles
      ensures idx < |ctx.handles| && PlaceOf(ctx.handles, idx) == p && |ctx.handles| <= low + |ReachFields(s, g, rank, p, want, i + 1)|
      ensures ok == Compatible(v0 + ReachFields(s, g, rank, p, want, i + 1)) && (ok ==> visits == v0 + ReachFields(s, g, rank, p, want, i + 1))
      decreases rank(p), 1
    {
      hide Indexed, Holds, ParIdxTable.Valid, RunsOk, EdgesMatch, Interned, LifeIn, EdgesAt, ReachHeld, ReachFields, Compatible, TypeAt, Reach, PlaceOf, Acyclic, Table, FieldCount;
      ghost var before := ctx.handles;
      FieldsPrefix(s, g, rank, p, want, i + 1, FieldCount(s, p));
      NextField(s, g, rank, p, want, i);
      FieldGoesDown(s, g, rank, p, i, want);
      var field := InternField(idx, i);
      PlaceStays(before, ctx.handles, idx);
      ghost var between := ctx.handles;
      ok := BorrowPar(field, want);
      PlaceStays(between, ctx.handles, idx);
      ghost var now, part := Reach(s, g, rank, FieldOf(p, i), want), ReachFields(s, g, rank, p, want, i);
      assert v0 + part + now == v0 + (part + now);
    }

    /** All marks are taken back. */
    method Reset()
      requires Valid()
      modifies this
      ensures Valid() && visits == []
    {
      ResetOk(ctx.handles, life, runs, holds, g, visits);
      life := seq(|ctx.handles|, _ => LIFE_FREE);
      visits := [];
    }

    /** A call is accepted exactly when no input that is borrowed uniquely has a type that
        holds references, and all that the arguments borrow together is compatible. */
    method CheckSig(args: seq<nat>, outs: nat, muts: seq<bool>) returns (ok: bool)
      requires Valid() && |args| == outs + |muts| && Inside(ctx.handles, args)
      requires |ctx.handles| + |ReachCall(s, g, rank, Stack(ctx.handles, args), outs, muts, |args|)| <= 0x1_0000_0000
      modifies this, ctx, ctx.table, ctx.table.keys, ctx.table.vals, ctx.table.used
      ensures Valid() && ctx.table == old(ctx.table)
      ensures (ctx.table.keys == old(ctx.table.keys) && ctx.table.vals == old(ctx.table.vals) && ctx.table.used == old(ctx.table.used))
              || (fresh(ctx.table.keys) && fresh(ctx.table.vals) && fresh(ctx.table.used))
      ensures old(ctx.handles) <= ctx.handles
      ensures var ps := Stack(old(ctx.handles), args);
        var all := ReachCall(s, g, rank, ps, outs, muts, |args|);
        && ok == (InputsOk(s, portals, ps, outs, muts, |args|) && Compatible(all))
        && (ok ==> visits == all)
    {
      hide Indexed, Holds, ParIdxTable.Valid, RunsOk, EdgesMatch, Interned, LifeIn, EdgesAt, ReachHeld, ReachFields, Compatible, TypeAt, Acyclic, BorrowOk, PlaceOf, Table, Reach;
      Reset();
      ghost var ps, low := Stack(ctx.handles, args), |ctx.handles|;
      NoArguments(s, g, rank, ps, outs, muts, portals);
      var i: nat := 0;
      while i < |args|
        invariant i <= |args| && Compatible(visits) && InputsOk(s, portals, ps, outs, muts, i)
        invariant Valid() && ctx.table == old(ctx.table)
        invariant (ctx.table.keys == old(ctx.table.keys) && ctx.table.vals == old(ctx.table.vals) && ctx.table.used == old(ctx.table.used))
                  || (fresh(ctx.table.keys) && fresh(ctx.table.vals) && fresh(ctx.table.used))
        invariant old(ctx.handles) <= ctx.handles && Inside(ctx.handles, args) && Stack(ctx.handles, args) == ps
        invariant visits == ReachCall(s, g, rank, ps, outs, muts, i) && |ctx.handles| <= low + |visits|
      {
        ok := Argument(args, outs, muts, i, ps, low);
        if !ok {
          RefusedAtOnce(s, g, rank, portals, ps, outs, muts, i);
          return;
        }
        i := i + 1;
      }
      return true;
    }

    method Argument(args: seq<nat>, outs: nat, muts: seq<bool>, i: nat, ghost ps: seq<Place>, ghost low: nat) returns (ok: bool)
      requires Valid() && Compatible(visits) && i < |args| == outs + |muts| && Inside(ctx.handles, args) && ps == Stack(ctx.handles, args)
      requires visits == ReachCall(s, g, rank, ps, outs, muts, i) && |ctx.handles| <= low + |visits|
      requires low + |ReachCall(s, g, rank, ps, outs, muts, |args|)| <= 0x1_0000_0000
      modifies this, ctx, ctx.table, ctx.table.keys, ctx.table.vals, ctx.table.used
      ensures Valid() && ctx.table == old(ctx.table)
      ensures (ctx.table.keys == old(ctx.table.keys) && ctx.table.vals == old(ctx.table.vals) && ctx.table.used == old(ctx.table.used))
              || (fresh(ctx.table.keys) && fresh(ctx.table.vals) && fresh(ctx.table.used))
      ensures old(ctx.handles) <= ctx.handles
      ensures Inside(ctx.handles, args) && Stack(ctx.handles, args) == ps
      ensures ok == (InputOk(s, portals, ps, outs, muts, i) && Compatible(ReachCall(s, g, rank, ps, outs, muts, i + 1)))
      ensures ok ==> visits == ReachCall(s, g, rank, ps, outs, muts, i + 1) && |ctx.handles| <= low + |visits|
    {
      hide Indexed, Holds, ParIdxTable.Valid, RunsOk, EdgesMatch, Interned, LifeIn, EdgesAt, ReachHeld, ReachFields, ReachCall, Compatible, TypeAt,
           Acyclic, BorrowOk, PlaceOf, Table, Reach;
      MarkOf(ctx.handles, life, runs, holds, g, visits, args[i]);
      var want := WantOf(outs, muts, i);
      if i >= outs && want.LIFE_UNIQUE? {
        var tid := ParType(s, ctx.handles, args[i]);
        if !IsType(s, tid) || tid in portals { return false; }
      }
      ghost var before := ctx.handles;
      CallPrefix(s, g, rank, ps, outs, muts, i + 1, |args|);
      NextArgument(s, g, rank, ps, outs, muts, i);
      ok := BorrowPar(args[i], want);
      StackStays(before, ctx.handles, args);
    }
  }

  /** An input may be borrowed uniquely only when it is no reference. */
  predicate InputOk(s: Scope, portals: set<nat>, ps: seq<Place>, outs: nat, muts: seq<bool>, i: nat)
    requires i < |ps| == outs + |muts|
  {
    i >= outs && muts[i - outs] ==> IsType(s, TypeAt(s, ps[i])) && TypeAt(s, ps[i]) !in portals
  }

  predicate InputsOk(s: Scope, portals: set<nat>, ps: seq<Place>, outs: nat, muts: seq<bool>, n: nat)
    requires n <= |ps| == outs + |muts|
  {
    forall i :: 0 <= i < n ==> InputOk(s, portals, ps, outs, muts, i)
  }

  lemma ResetOk(handles: seq<Par>, life: seq<Life>, runs: seq<Handle>, holds: seq<Hold>, g: Graph, visits: seq<Visit>)
    requires BorrowOk(handles, life, runs, holds, g, visits)
    ensures BorrowOk(handles, seq(|handles|, _ => LIFE_FREE), runs, holds, g, [])
  {
  }

  lemma NoArguments(s: Scope, g: Graph, rank: Place -> nat, ps: seq<Place>, outs: nat, muts: seq<bool>, portals: set<nat>)
    requires Acyclic(s, g, rank) && |ps| == outs + |muts|
    ensures ReachCall(s, g, rank, ps, outs, muts, 0) == [] && Compatible([]) && InputsOk(s, portals, ps, outs, muts, 0)
  {
  }

  lemma NextArgument(s: Scope, g: Graph, rank: Place -> nat, ps: seq<Place>, outs: nat, muts: seq<bool>, i: nat)
    requires Acyclic(s, g, rank) && i < |ps| == outs + |muts|
    ensures ReachCall(s, g, rank, ps, outs, muts, i + 1) == ReachCall(s, g, rank, ps, outs, muts, i) + Reach(s, g, rank, ps[i], WantOf(outs, muts, i))
  {
  }

  lemma {:induction false} CallPrefix(s: Scope, g: Graph, rank: Place -> nat, ps: seq<Place>, outs: nat, muts: seq<bool>, k: nat, n: nat)
    requires Acyclic(s, g, rank) && k <= n <= |ps| == outs + |muts|
    ensures ReachCall(s, g, rank, ps, outs, muts, k) <= ReachCall(s, g, rank, ps, outs, muts, n)
    decreases n
  {
    hide Reach, Acyclic;
    if k < n { CallPrefix(s, g, rank, ps, outs, muts, k, n - 1); }
  }

  /** One refused argument refuses the call. */
  lemma RefusedAtOnce(s: Scope, g: Graph, rank: Place -> nat, portals: set<nat>, ps: seq<Place>, outs: nat, muts: seq<bool>, i: nat)
    requires Acyclic(s, g, rank) && i < |ps| == outs + |muts|
    requires !(InputOk(s, portals, ps, outs, muts, i) && Compatible(ReachCall(s, g, rank, ps, outs, muts, i + 1)))
    ensures !(InputsOk(s, portals, ps, outs, muts, |ps|) && Compatible(ReachCall(s, g, rank, ps, outs, muts, |ps|)))
  {
    hide InputOk, Compatible, ReachCall, Acyclic;
    CallPrefix(s, g, rank, ps, outs, muts, i + 1, |ps|);
    if !Compatible(ReachCall(s, g, rank, ps, outs, muts, i + 1)) {
      assert [] + ReachCall(s, g, rank, ps, outs, muts, i + 1) == ReachCall(s, g, rank, ps, outs, muts, i + 1);
      assert [] + ReachCall(s, g, rank, ps, outs, muts, |ps|) == ReachCall(s, g, rank, ps, outs, muts, |ps|);
      ClashStays([], ReachCall(s, g, rank, ps, outs, muts, i + 1), ReachCall(s, g, rank, ps, outs, muts, |ps|));
    }
  }

  lemma MarkOf(handles: seq<Par>, life: seq<Life>, runs: seq<Handle>, holds: seq<Hold>, g: Graph, visits: seq<Visit>, idx: nat)
    requires BorrowOk(handles, life, runs, holds, g, visits) && idx < |handles|
    ensures Table(handles) && ParOk(handles[idx], idx)
    ensures idx < |life| && life[idx] == LifeIn(visits, PlaceOf(handles, idx))
    ensures forall k :: 0 <= k < |visits| ==> !visits[k].want.LIFE_FREE?
  {
  }

  lemma MemberGoesDown(s: Scope, g: Graph, rank: Place -> nat, p: Place)
    requires Acyclic(s, g, rank)
    ensures p.MemberOf? ==> rank(p.of) < rank(p)
  {
  }

  lemma NothingHeld(s: Scope, g: Graph, rank: Place -> nat, p: Place, want: Life, v0: seq<Visit>)
    requires Acyclic(s, g, rank) && !p.MemberOf?
    ensures ReachHeld(s, g, rank, p, want, 0) == [] && v0 + ReachHeld(s, g, rank, p, want, 0) == v0
  {
  }

  lemma NextHeld(s: Scope, g: Graph, rank: Place -> nat, p: Place, want: Life, i: nat)
    requires Acyclic(s, g, rank) && !p.MemberOf? && i < |EdgesAt(g, p)|
    ensures var e := EdgesAt(g, p)[i];
      ReachHeld(s, g, rank, p, want, i + 1) == ReachHeld(s, g, rank, p, want, i) + Reach(s, g, rank, e.to, Held(e, want))
  {
  }

  lemma NoFields(s: Scope, g: Graph, rank: Place -> nat, p: Place, want: Life, v0: seq<Visit>)
    requires Acyclic(s, g, rank) && !p.MemberOf?
    ensures ReachFields(s, g, rank, p, want, 0) == [] && v0 + ReachFields(s, g, rank, p, want, 0) == v0
  {
  }

  lemma NextField(s: Scope, g: Graph, rank: Place -> nat, p: Place, want: Life, i: nat)
    requires Acyclic(s, g, rank) && !p.MemberOf? && i < FieldCount(s, p)
    ensures ReachFields(s, g, rank, p, want, i + 1) == ReachFields(s, g, rank, p, want, i) + Reach(s, g, rank, FieldOf(p, i), want)
  {
  }

  lemma FieldPlace(handles: seq<Par>, more: seq<Par>, par: Par, f: nat)
    requires Table(handles) && par.kind.PAR_STRUCT_FILED? && par.parent < |handles| && f < |more| && more[f] == par
    requires more == if par in handles then handles else handles + [par]
    ensures PlaceOf(more, f) == FieldOf(PlaceOf(handles, par.parent), par.idx)
  {
    TableGrows(handles, par);
    assert ParOk(more[f], f);
    PlaceStays(handles, more, par.parent);
  }

  lemma RunLength(handles: seq<Par>, life: seq<Life>, runs: seq<Handle>, holds: seq<Hold>, g: Graph, visits: seq<Visit>, idx: nat)
    requires BorrowOk(handles, life, runs, holds, g, visits) && idx < |handles|
    ensures idx < |runs| && runs[idx].num == |EdgesAt(g, PlaceOf(handles, idx))|
  {
    assert EdgesMatch(handles, HeldBy(runs, holds, idx), EdgesAt(g, PlaceOf(handles, idx)));
  }

  lemma HoldIsEdge(handles: seq<Par>, life: seq<Life>, runs: seq<Handle>, holds: seq<Hold>, g: Graph, visits: seq<Visit>, idx: nat, i: nat)
    requires BorrowOk(handles, life, runs, holds, g, visits) && idx < |handles| && i < runs[idx].num
    ensures i < |EdgesAt(g, PlaceOf(handles, idx))| && runs[idx].start + i < |holds|
    ensures var hold := holds[runs[idx].start + i];
      hold.par < |handles| && EdgesAt(g, PlaceOf(handles, idx))[i] == Edge(PlaceOf(handles, hold.par), hold.justConst)
  {
    assert EdgesMatch(handles, HeldBy(runs, holds, idx), EdgesAt(g, PlaceOf(handles, idx)));
    assert HeldBy(runs, holds, idx)[i] == holds[runs[idx].start + i];
  }

  lemma EdgeGoesDown(s: Scope, g: Graph, rank: Place -> nat, p: Place, i: nat)
    requires Acyclic(s, g, rank) && !p.MemberOf? && i < |EdgesAt(g, p)|
    ensures rank(EdgesAt(g, p)[i].to) < rank(p)
  {
  }

  lemma FieldGoesDown(s: Scope, g: Graph, rank: Place -> nat, p: Place, i: nat, want: Life)
    requires Acyclic(s, g, rank) && !p.MemberOf? && i < FieldCount(s, p)
    ensures rank(FieldOf(p, i)) < rank(p) && |Reach(s, g, rank, FieldOf(p, i), want)| > 0
  {
  }

  // ----- accepted calls -----

  lemma InArgument(s: Scope, g: Graph, rank: Place -> nat, ps: seq<Place>, outs: nat, muts: seq<bool>, i: nat, v: Visit) returns (k: nat)
    requires Acyclic(s, g, rank) && i < |ps| == outs + |muts| && v in Reach(s, g, rank, ps[i], WantOf(outs, muts, i))
    ensures |ReachCall(s, g, rank, ps, outs, muts, i)| <= k < |ReachCall(s, g, rank, ps, outs, muts, i + 1)|
    ensures k < |ReachCall(s, g, rank, ps, outs, muts, |ps|)| && ReachCall(s, g, rank, ps, outs, muts, |ps|)[k] == v
  {
    hide Reach, Acyclic;
    var before, now := ReachCall(s, g, rank, ps, outs, muts, i), Reach(s, g, rank, ps[i], WantOf(outs, muts, i));
    var j :| 0 <= j < |now| && now[j] == v;
    k := |before| + j;
    assert ReachCall(s, g, rank, ps, outs, muts, i + 1) == before + now;
    CallPrefix(s, g, rank, ps, outs, muts, i + 1, |ps|);
  }

  /** What the visits of one argument borrow uniquely, those of no other argument borrow at all. */
  lemma VisitsAreExclusive(s: Scope, g: Graph, rank: Place -> nat, ps: seq<Place>, outs: nat, muts: seq<bool>, i: nat, j: nat, u: Visit, v: Visit)
    requires Acyclic(s, g, rank) && i < |ps| == outs + |muts| && j < |ps| && i != j
    requires Compatible(ReachCall(s, g, rank, ps, outs, muts, |ps|))
    requires u in Reach(s, g, rank, ps[i], WantOf(outs, muts, i)) && u.want.LIFE_UNIQUE?
    requires v in Reach(s, g, rank, ps[j], WantOf(outs, muts, j))
    ensures u.place != v.place
  {
    hide Compatible, Reach, Acyclic;
    var all := ReachCall(s, g, rank, ps, outs, muts, |ps|);
    var k := InArgument(s, g, rank, ps, outs, muts, i, u);
    var l := InArgument(s, g, rank, ps, outs, muts, j, v);
    if i < j {
      CallPrefix(s, g, rank, ps, outs, muts, i + 1, j);
      assert k < l;
    } else {
      CallPrefix(s, g, rank, ps, outs, muts, j + 1, i);
      assert l < k;
    }
    if u.place == v.place { UniqueOnce(all, k); }
  }

  /** A mutable slice is refused although nothing clashes: one local slice, passed as the only
      and mutable input. */
  lemma MutableSliceIsRefused(rank: Place -> nat)
    requires Acyclic(SliceScope(), map[], rank)
    ensures var ps := [Root(PAR_LOCAL, 0)];
      && TypeAt(SliceScope(), ps[0]) == 2 && SliceScope().f.types[2].kind.KSlice?
      && Compatible(ReachCall(SliceScope(), map[], rank, ps, 0, [true], 1))
      && !InputsOk(SliceScope(), {2}, ps, 0, [true], 1) && InputsOk(SliceScope(), {2}, ps, 0, [false], 1)
  {
    var s, p := SliceScope(), Root(PAR_LOCAL, 0);
    assert FieldCount(s, p) == 0 && EdgesAt(map[], p) == [];
    assert ReachHeld(s, map[], rank, p, LIFE_UNIQUE, 0) == [] && ReachFields(s, map[], rank, p, LIFE_UNIQUE, 0) == [];
    assert Reach(s, map[], rank, p, LIFE_UNIQUE) == [Visit(p, LIFE_UNIQUE)];
    assert ReachCall(s, map[], rank, [p], 0, [true], 0) == [];
    assert ReachCall(s, map[], rank, [p], 0, [true], 1) == [Visit(p, LIFE_UNIQUE)];
    assert !InputOk(s, {2}, [p], 0, [true], 0);
  }

  /** A function with one variable, a slice of int. */
  function SliceScope(): Scope {
    var types := [Type(KInt, 8, 8), Type(KByte, 1, 8), Type(KSlice(0), 12, 16)];
    Scope(Func(Sig([], []), types, [2], Basic([])), [])
  }
}
