/** The first pass over a function as it runs: it walks the blocks with a stack of interned places,
    the holds in their pool, and the depths of the variables, which it sets at each VAR and
    puts back behind it. */
module PortalScan {
  import opened Memory
  import opened Ir
  import opened InternTable
  import opened HoldPool
  import opened Places
  import opened TypeScan
  import opened TypeScanner
  import B = Borrow
  import opened HoldGraph
  import opened PortalRegions

  /** How many operations a tree holds: at most as many places are interned. */
  function OpCount(t: Tree): nat
    decreases Size(t)
  {
    match t
    case Basic(ops) => |ops|
    case Defer(next, cleanup) => OpCount(next) + OpCount(cleanup)
    case Many(kids) => ChainOps(kids)
    case CrashPad(body, pad) => OpCount(body) + OpCount(pad)
    case Branch(cond, yes, no) => |cond| + OpCount(yes) + OpCount(no)
    case Loop(body) => OpCount(body)
    case Var(_, body) => OpCount(body)
    case _ => 0
  }

  function ChainOps(ch: Chain): nat
    decreases ChainSize(ch)
  {
    if ch.Link? then OpCount(ch.cur) + ChainOps(ch.rest) else 0
  }

  class BlockScan {
    const scan: Scanner
    const pass: FirstPass
    var level: nat

    constructor (scan: Scanner, pass: FirstPass)
      requires scan.Valid() && pass.Valid() && scan.ctx == pass.ctx && scan.s == pass.s
      ensures Valid() && this.scan == scan && this.pass == pass && level == 0
    {
      this.scan, this.pass, level := scan, pass, 0;
    }

    ghost predicate Valid()
      reads this, scan, pass, pass.pool, pass.ctx, pass.ctx.table, pass.ctx.table.keys, pass.ctx.table.vals, pass.ctx.table.used
    {
      scan.ctx == pass.ctx && scan.s == pass.s && scan.Valid() && pass.Valid()
    }

    ghost function Known(): Look { Look(pass.s, scan.funcs, pass.portals) }

    /** A whole function. */
    method Function() returns (ok: bool)
      requires Valid() && |scan.ctx.handles| + OpCount(pass.s.f.body) <= 0x1_0000_0000
      modifies this, scan, pass, pass.pool, pass.ctx, pass.ctx.table, pass.ctx.table.keys, pass.ctx.table.vals, pass.ctx.table.used
      ensures Valid()
      ensures var r := FuncPass(Known(), old(pass.g)); ok == r.Some? && (ok ==> r.value == pass.g)
    {
      hide Table, PlaceOf, TypeAt, RunsOk, Indexed, Holds, ParIdxTable.Valid, PoolIs, NoDoubles, TreePass;
      scan.pars, level := [], 0;
      pass.depths := seq(|pass.s.f.vars|, _ => 0);
      ok := Block(pass.s.f.body);
    }

    /** The hold that an operation on the two topmost places makes. */
    method Note(op: Op, site: nat) returns (ok: bool)
      requires Valid()
      modifies pass, pass.pool
      ensures Valid() && pass.depths == old(pass.depths) && scan.pars == old(scan.pars)
      ensures var r := Noting(Known(), pass.depths, scan.Now(), old(pass.g), op);
        ok == r.Some? && (ok ==> pass.g == r.value)
    {
      hide Table, PlaceOf, TypeAt, RunsOk, Recorded, Indexed, Holds, ParIdxTable.Valid, PoolIs, NoDoubles;
      var n := |scan.pars|;
      if n < 2 { return true; }
      ok := pass.Record(op, scan.pars[n - 2], scan.pars[n - 1], site);
    }

    /** One operation: checked, its hold recorded, carried out on the stack. */
    method One(op: Op, site: nat) returns (ok: bool)
      requires Valid() && |scan.ctx.handles| <= 0xFFFF_FFFF
      modifies scan, pass, pass.pool, pass.ctx, pass.ctx.table, pass.ctx.table.keys, pass.ctx.table.vals, pass.ctx.table.used
      ensures Valid() && pass.depths == old(pass.depths) && pass.ctx.table == old(pass.ctx.table)
      ensures (pass.ctx.table.keys == old(pass.ctx.table.keys) && pass.ctx.table.vals == old(pass.ctx.table.vals) && pass.ctx.table.used == old(pass.ctx.table.used))
              || (fresh(pass.ctx.table.keys) && fresh(pass.ctx.table.vals) && fresh(pass.ctx.table.used))
      ensures |pass.ctx.handles| <= |old(pass.ctx.handles)| + 1
      ensures var r := OpPass(Known(), old(pass.depths), old(scan.Now()), old(pass.g), op);
        ok == r.Some? && (ok ==> r.value == (scan.Now(), pass.g))
    {
      hide Table, PlaceOf, TypeAt, RunsOk, Recorded, Indexed, Holds, ParIdxTable.Valid, PoolIs, NoDoubles, CheckOp, Effect, Noting;
      ok := Check(scan.s, scan.funcs, scan.ctx.handles, scan.pars, op);
      if !ok { return; }
      ok := Note(op, site);
      if !ok { return; }
      ghost var handles := pass.ctx.handles;
      SameRuns(handles, pass.pool.handles, pass.pool.holds, pass.g);
      ok := scan.Apply(op);
      assert pass.ctx.handles[..|handles|] == handles;
      pass.Extend();
    }

    /** A range of operations. */
    method Range(ops: seq<Op>, site: nat) returns (ok: bool)
      requires Valid() && |scan.ctx.handles| + |ops| <= 0x1_0000_0000
      modifies scan, pass, pass.pool, pass.ctx, pass.ctx.table, pass.ctx.table.keys, pass.ctx.table.vals, pass.ctx.table.used
      ensures Valid() && pass.depths == old(pass.depths) && pass.ctx.table == old(pass.ctx.table)
      ensures (pass.ctx.table.keys == old(pass.ctx.table.keys) && pass.ctx.table.vals == old(pass.ctx.table.vals) && pass.ctx.table.used == old(pass.ctx.table.used))
              || (fresh(pass.ctx.table.keys) && fresh(pass.ctx.table.vals) && fresh(pass.ctx.table.used))
      ensures |pass.ctx.handles| <= |old(pass.ctx.handles)| + |ops|
      ensures var r := OpsPass(Known(), old(pass.depths), old(scan.Now()), old(pass.g), ops);
        ok == r.Some? && (ok ==> r.value == (scan.Now(), pass.g))
    {
      hide Table, PlaceOf, RunsOk, Indexed, Holds, ParIdxTable.Valid, PoolIs, NoDoubles, OpPass;
      ghost var low, was, g0 := |pass.ctx.handles|, scan.Now(), pass.g;
      var i := 0;
      while i < |ops|
        invariant 0 <= i <= |ops| && Valid() && pass.depths == old(pass.depths) && pass.ctx.table == old(pass.ctx.table)
        invariant (pass.ctx.table.keys == old(pass.ctx.table.keys) && pass.ctx.table.vals == old(pass.ctx.table.vals) && pass.ctx.table.used == old(pass.ctx.table.used))
                  || (fresh(pass.ctx.table.keys) && fresh(pass.ctx.table.vals) && fresh(pass.ctx.table.used))
        invariant |pass.ctx.handles| <= low + i
        invariant OpsPass(Known(), old(pass.depths), was, g0, ops) == OpsPass(Known(), old(pass.depths), scan.Now(), pass.g, ops[i..])
      {
        assert ops[i..][0] == ops[i] && ops[i..][1..] == ops[i + 1..];
        ok := One(ops[i], site);
        if !ok { return; }
        i := i + 1;
      }
      return true;
    }

    /** `scan_block`. */
    method Block(t: Tree) returns (ok: bool)
      requires Valid() && scan.pars == [] && |scan.ctx.handles| + OpCount(t) <= 0x1_0000_0000 && |pass.depths| == |pass.s.f.vars|
      modifies this, scan, pass, pass.pool, pass.ctx, pass.ctx.table, pass.ctx.table.keys, pass.ctx.table.vals, pass.ctx.table.used
      ensures Valid() && pass.ctx.table == old(pass.ctx.table)
      ensures (pass.ctx.table.keys == old(pass.ctx.table.keys) && pass.ctx.table.vals == old(pass.ctx.table.vals) && pass.ctx.table.used == old(pass.ctx.table.used))
              || (fresh(pass.ctx.table.keys) && fresh(pass.ctx.table.vals) && fresh(pass.ctx.table.used))
      ensures |pass.ctx.handles| <= |old(pass.ctx.handles)| + OpCount(t)
      ensures var r := TreePass(Known(), old(pass.depths), old(level), t, old(pass.g));
        ok == r.Some? && (ok ==> r.value == pass.g && scan.pars == []) && pass.depths == old(pass.depths) && level == old(level)
      decreases Size(t), 0
    {
      hide Table, PlaceOf, TypeAt, RunsOk, Indexed, Holds, ParIdxTable.Valid, PoolIs, NoDoubles, OpsPass;
      match t {
        case Basic(ops) =>
          ok := Range(ops, 0);
          if ok { scan.Pop(|scan.pars|); }
        case Many(kids) => ok := Children(kids);
        case Defer(next, cleanup) =>
          ok := Block(next);
          if ok { ok := Block(cleanup); }
        case CrashPad(body, pad) =>
          ok := Block(body);
          if ok { ok := Block(pad); }
        case Branch(cond, yes, no) => ok := Arms(cond, yes, no);
        case Loop(body) => ok := Block(body);
        case Var(v, body) => ok := Variable(v, body);
        case SoftCrash => ok := true;
        case HardCrash => ok := true;
        case Break(_) => ok := true;
        case Stray => ok := false;
        case Missing => ok := false;
      }
    }

    /** A branch: the condition leaves one int, and both arms start without it. */
    method Arms(cond: seq<Op>, yes: Tree, no: Tree) returns (ok: bool)
      requires Valid() && scan.pars == [] && |scan.ctx.handles| + OpCount(Branch(cond, yes, no)) <= 0x1_0000_0000 && |pass.depths| == |pass.s.f.vars|
      modifies this, scan, pass, pass.pool, pass.ctx, pass.ctx.table, pass.ctx.table.keys, pass.ctx.table.vals, pass.ctx.table.used
      ensures Valid() && pass.ctx.table == old(pass.ctx.table)
      ensures (pass.ctx.table.keys == old(pass.ctx.table.keys) && pass.ctx.table.vals == old(pass.ctx.table.vals) && pass.ctx.table.used == old(pass.ctx.table.used))
              || (fresh(pass.ctx.table.keys) && fresh(pass.ctx.table.vals) && fresh(pass.ctx.table.used))
      ensures |pass.ctx.handles| <= |old(pass.ctx.handles)| + OpCount(Branch(cond, yes, no))
      ensures var r := TreePass(Known(), old(pass.depths), old(level), Branch(cond, yes, no), old(pass.g));
        ok == r.Some? && (ok ==> r.value == pass.g && scan.pars == []) && pass.depths == old(pass.depths) && level == old(level)
      decreases Size(yes) + Size(no), 1
    {
      hide Table, PlaceOf, TypeAt, RunsOk, Indexed, Holds, ParIdxTable.Valid, PoolIs, NoDoubles, OpsPass;
      assert scan.Now() == [];
      ok := Condition(cond);
      if !ok { return; }
      ok := Block(yes);
      if ok { ok := Block(no); }
    }

    method Condition(cond: seq<Op>) returns (ok: bool)
      requires Valid() && scan.pars == [] && |scan.ctx.handles| + |cond| <= 0x1_0000_0000 && |pass.depths| == |pass.s.f.vars|
      modifies this, scan, pass, pass.pool, pass.ctx, pass.ctx.table, pass.ctx.table.keys, pass.ctx.table.vals, pass.ctx.table.used
      ensures Valid() && pass.ctx.table == old(pass.ctx.table)
      ensures (pass.ctx.table.keys == old(pass.ctx.table.keys) && pass.ctx.table.vals == old(pass.ctx.table.vals) && pass.ctx.table.used == old(pass.ctx.table.used))
              || (fresh(pass.ctx.table.keys) && fresh(pass.ctx.table.vals) && fresh(pass.ctx.table.used))
      ensures |pass.ctx.handles| <= |old(pass.ctx.handles)| + |cond|
      ensures pass.depths == old(pass.depths) && level == old(level)
      ensures var r := OpsPass(Known(), old(pass.depths), [], old(pass.g), cond);
        ok == (r.Some? && |r.value.0| == 1 && IsInt(pass.s, TypeAt(pass.s, r.value.0[0]))) && (ok ==> r.value.1 == pass.g && scan.pars == [])
    {
      hide Table, PlaceOf, TypeAt, RunsOk, Indexed, Holds, ParIdxTable.Valid, PoolIs, NoDoubles, OpsPass;
      assert scan.Now() == [];
      ok := Range(cond, 0);
      if !ok { return; }
      if |scan.pars| != 1 { return false; }
      var tid := ParType(scan.s, scan.ctx.handles, scan.pars[0]);
      if !IsInt(scan.s, tid) { return false; }
      scan.Pop(1);
    }

    /** A VAR block: the variable is one deeper in its body, and as before behind it. */
    method Variable(v: nat, body: Tree) returns (ok: bool)
      requires Valid() && scan.pars == [] && |scan.ctx.handles| + OpCount(body) <= 0x1_0000_0000 && |pass.depths| == |pass.s.f.vars|
      modifies this, scan, pass, pass.pool, pass.ctx, pass.ctx.table, pass.ctx.table.keys, pass.ctx.table.vals, pass.ctx.table.used
      ensures Valid() && pass.ctx.table == old(pass.ctx.table)
      ensures (pass.ctx.table.keys == old(pass.ctx.table.keys) && pass.ctx.table.vals == old(pass.ctx.table.vals) && pass.ctx.table.used == old(pass.ctx.table.used))
              || (fresh(pass.ctx.table.keys) && fresh(pass.ctx.table.vals) && fresh(pass.ctx.table.used))
      ensures |pass.ctx.handles| <= |old(pass.ctx.handles)| + OpCount(body)
      ensures var r := TreePass(Known(), old(pass.depths), old(level), Var(v, body), old(pass.g));
        ok == r.Some? && (ok ==> r.value == pass.g && scan.pars == []) && pass.depths == old(pass.depths) && level == old(level)
      decreases Size(body), 1
    {
      hide Table, PlaceOf, TypeAt, RunsOk, Indexed, Holds, ParIdxTable.Valid, PoolIs, NoDoubles;
      if v >= |scan.s.f.vars| { return false; }
      var oldVarDepth, oldLevel := pass.depths[v], level;
      level := level + 1;
      pass.depths := pass.depths[v := level];
      ok := Block(body);
      pass.depths := pass.depths[v := oldVarDepth];
      level := oldLevel;
    }

    method Children(ch: Chain) returns (ok: bool)
      requires Valid() && scan.pars == [] && |scan.ctx.handles| + ChainOps(ch) <= 0x1_0000_0000 && |pass.depths| == |pass.s.f.vars|
      modifies this, scan, pass, pass.pool, pass.ctx, pass.ctx.table, pass.ctx.table.keys, pass.ctx.table.vals, pass.ctx.table.used
      ensures Valid() && pass.ctx.table == old(pass.ctx.table)
      ensures (pass.ctx.table.keys == old(pass.ctx.table.keys) && pass.ctx.table.vals == old(pass.ctx.table.vals) && pass.ctx.table.used == old(pass.ctx.table.used))
              || (fresh(pass.ctx.table.keys) && fresh(pass.ctx.table.vals) && fresh(pass.ctx.table.used))
      ensures |pass.ctx.handles| <= |old(pass.ctx.handles)| + ChainOps(ch)
      ensures var r := ChainPass(Known(), old(pass.depths), old(level), ch, old(pass.g));
        ok == r.Some? && (ok ==> r.value == pass.g && scan.pars == []) && pass.depths == old(pass.depths) && level == old(level)
      decreases ChainSize(ch), 0
    {
      hide Table, PlaceOf, TypeAt, RunsOk, Indexed, Holds, ParIdxTable.Valid, PoolIs, NoDoubles;
      var rest := ch;
      ghost var low, g0 := |pass.ctx.handles|, pass.g;
      while rest.Link?
        invariant Valid() && scan.pars == [] && |pass.depths| == |pass.s.f.vars| && pass.depths == old(pass.depths) && level == old(level)
        invariant pass.ctx.table == old(pass.ctx.table) && ChainSize(rest) <= ChainSize(ch)
        invariant (pass.ctx.table.keys == old(pass.ctx.table.keys) && pass.ctx.table.vals == old(pass.ctx.table.vals) && pass.ctx.table.used == old(pass.ctx.table.used))
                  || (fresh(pass.ctx.table.keys) && fresh(pass.ctx.table.vals) && fresh(pass.ctx.table.used))
        invariant |pass.ctx.handles| + ChainOps(rest) <= low + ChainOps(ch)
        invariant ChainPass(Known(), old(pass.depths), old(level), ch, g0) == ChainPass(Known(), old(pass.depths), old(level), rest, pass.g)
        decreases ChainSize(rest)
      {
        ok := Block(rest.cur);
        if !ok { return; }
        rest := rest.rest;
      }
      return rest.End?;
    }
  }

  lemma SameRuns(handles: seq<Par>, runs: seq<Handle>, holds: seq<Hold>, g: B.Graph)
    requires PoolIs(handles, runs, holds, g)
    ensures |runs| == |handles|
  {
  }
}
