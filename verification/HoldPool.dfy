/** The pool that keeps, for every place, the list of places it holds: each list is one run of
    a shared array, and a list that has to grow in the middle is moved to the end first. */
module HoldPool {

  datatype Hold = Hold(par: nat, site: nat, justConst: bool)

  /** The run of one owner. */
  datatype Handle = Handle(start: nat, num: nat)

  function Run(h: Handle, holds: seq<Hold>): seq<Hold>
    requires h.start + h.num <= |holds|
  {
    holds[h.start..h.start + h.num]
  }

  /** Runs that are not empty lie in the pool and apart from each other. */
  predicate RunsOk(handles: seq<Handle>, holds: seq<Hold>) {
    && (forall i :: 0 <= i < |handles| ==> handles[i].num > 0 ==> handles[i].start + handles[i].num <= |holds|)
    && (forall i, j :: 0 <= i < |handles| && 0 <= j < |handles| && i != j && handles[i].num > 0 && handles[j].num > 0 ==>
          handles[i].start + handles[i].num <= handles[j].start || handles[j].start + handles[j].num <= handles[i].start)
  }

  /** What place i holds, in the order it was added. */
  function HeldBy(handles: seq<Handle>, holds: seq<Hold>, i: nat): seq<Hold>
    requires i < |handles| && RunsOk(handles, holds)
  {
    if handles[i].num == 0 then [] else Run(handles[i], holds)
  }

  /** The same place is held in the same way. */
  predicate SameEdge(a: Hold, par: nat, justConst: bool) { a.par == par && a.justConst == justConst }

  predicate HasEdge(list: seq<Hold>, par: nat, justConst: bool) {
    exists k :: 0 <= k < |list| && SameEdge(list[k], par, justConst)
  }

  /** No edge twice. */
  predicate NoDoubles(list: seq<Hold>) {
    forall a, b :: 0 <= a < b < |list| ==> !SameEdge(list[b], list[a].par, list[a].justConst)
  }

  class Pool {
    var handles: seq<Handle>
    var holds: seq<Hold>

    ghost predicate Valid()
      reads this
    {
      && RunsOk(handles, holds)
      && forall i :: 0 <= i < |handles| ==> NoDoubles(HeldBy(handles, holds, i))
    }

    /** Adds one edge from `owner`, unless it is there. No other list changes, and no list
        loses or reorders anything. */
    method AddHold(owner: nat, held: nat, site: nat, justConst: bool) returns (ok: bool)
      requires Valid()
      modifies this
      ensures Valid() && |handles| == |old(handles)|
      ensures ok == (owner < |handles| && held < |handles|)
      ensures !ok ==> handles == old(handles) && holds == old(holds)
      ensures ok ==> forall i :: 0 <= i < |handles| && i != owner ==> HeldBy(handles, holds, i) == HeldBy(old(handles), old(holds), i)
      ensures ok ==>
        var before := HeldBy(old(handles), old(holds), owner);
        HeldBy(handles, holds, owner) ==
          if HasEdge(before, held, justConst) then before else before + [Hold(held, site, justConst)]
    {
      hide NoDoubles;
      if owner >= |handles| || held >= |handles| { return false; }
      ok := true;
      var h := handles[owner];
      ghost var before := HeldBy(handles, holds, owner);
      var i := 0;
      while i < h.num
        invariant i <= h.num
        invariant forall k :: 0 <= k < i ==> !SameEdge(before[k], held, justConst)
      {
        var edge := holds[h.start + i];
        assert edge == before[i];
        if edge.par == held && edge.justConst == justConst {
          assert SameEdge(before[i], held, justConst);
          return;
        }
        i := i + 1;
      }
      if h.num > 0 && h.start + h.num != |holds| {
        MoveToEnd(owner);
      } else if h.num == 0 {
        EmptyMoved(handles, holds, owner);
        handles := handles[owner := Handle(|holds|, 0)];
      }
      Append(owner, Hold(held, site, justConst));
    }

    /** A run in the middle is copied behind everything else. */
    method MoveToEnd(owner: nat)
      requires Valid() && owner < |handles| && handles[owner].num > 0
      modifies this
      ensures Valid() && |handles| == |old(handles)| && handles[owner].num == old(handles)[owner].num
      ensures handles[owner].start + handles[owner].num == |holds|
      ensures forall i :: 0 <= i < |handles| ==> HeldBy(handles, holds, i) == HeldBy(old(handles), old(holds), i)
    {
      hide NoDoubles, Run;
      var h := handles[owner];
      var start := |holds|;
      ghost var hs, pool := handles, holds;
      var i := 0;
      while i < h.num
        invariant i <= h.num && handles == hs && |holds| == |pool| + i
        invariant holds == pool + pool[h.start..h.start + i]
      {
        holds := holds + [holds[h.start + i]];
        i := i + 1;
      }
      handles := handles[owner := Handle(start, h.num)];
      MovedRun(hs, pool, owner);
    }

    /** One more edge at the end of the pool, for the owner whose run ends there. */
    method Append(owner: nat, edge: Hold)
      requires Valid() && owner < |handles| && handles[owner].start + handles[owner].num == |holds|
      requires !HasEdge(HeldBy(handles, holds, owner), edge.par, edge.justConst)
      modifies this
      ensures Valid() && |handles| == |old(handles)|
      ensures HeldBy(handles, holds, owner) == HeldBy(old(handles), old(holds), owner) + [edge]
      ensures forall i :: 0 <= i < |handles| && i != owner ==> HeldBy(handles, holds, i) == HeldBy(old(handles), old(holds), i)
    {
      hide Run, NoDoubles, HasEdge;
      ghost var hs, pool := handles, holds;
      AppendedRun(hs, pool, owner, edge);
      ghost var list := HeldBy(hs, pool, owner);
      assert NoDoubles(list + [edge]) by { StillNoDoubles(list, edge); }
      hide RunsOk, HeldBy;
      holds := holds + [edge];
      handles := handles[owner := handles[owner].(num := handles[owner].num + 1)];
    }
  }

  lemma StillNoDoubles(list: seq<Hold>, edge: Hold)
    requires NoDoubles(list) && !HasEdge(list, edge.par, edge.justConst)
    ensures NoDoubles(list + [edge])
  {
    var more := list + [edge];
    forall a, b | 0 <= a < b < |more| ensures !SameEdge(more[b], more[a].par, more[a].justConst) {
      if b == |list| { assert !SameEdge(list[a], edge.par, edge.justConst); }
    }
  }

  lemma EmptyMoved(handles: seq<Handle>, holds: seq<Hold>, owner: nat)
    requires RunsOk(handles, holds) && owner < |handles| && handles[owner].num == 0
    ensures var handles1 := handles[owner := Handle(|holds|, 0)];
      && RunsOk(handles1, holds)
      && forall i :: 0 <= i < |handles| ==> HeldBy(handles1, holds, i) == HeldBy(handles, holds, i)
  {
  }

  lemma MovedRun(handles: seq<Handle>, holds: seq<Hold>, owner: nat)
    requires RunsOk(handles, holds) && owner < |handles| && handles[owner].num > 0
    ensures var h := handles[owner];
      var handles1, holds1 := handles[owner := Handle(|holds|, h.num)], holds + holds[h.start..h.start + h.num];
      && RunsOk(handles1, holds1)
      && forall i :: 0 <= i < |handles| ==> HeldBy(handles1, holds1, i) == HeldBy(handles, holds, i)
  {
    var h := handles[owner];
    var handles1, holds1 := handles[owner := Handle(|holds|, h.num)], holds + holds[h.start..h.start + h.num];
    assert RunsOk(handles1, holds1);
    forall i | 0 <= i < |handles| ensures HeldBy(handles1, holds1, i) == HeldBy(handles, holds, i) {
      if handles[i].num > 0 { assert Run(handles1[i], holds1) == Run(handles[i], holds); }
    }
  }

  lemma AppendedRun(handles: seq<Handle>, holds: seq<Hold>, owner: nat, edge: Hold)
    requires RunsOk(handles, holds) && owner < |handles| && handles[owner].start + handles[owner].num == |holds|
    ensures var h := handles[owner];
      var handles1, holds1 := handles[owner := h.(num := h.num + 1)], holds + [edge];
      && RunsOk(handles1, holds1)
      && HeldBy(handles1, holds1, owner) == HeldBy(handles, holds, owner) + [edge]
      && forall i :: 0 <= i < |handles| && i != owner ==> HeldBy(handles1, holds1, i) == HeldBy(handles, holds, i)
  {
    var h := handles[owner];
    var handles1, holds1 := handles[owner := h.(num := h.num + 1)], holds + [edge];
    assert RunsOk(handles1, holds1);
    assert Run(handles1[owner], holds1) == holds[h.start..h.start + h.num] + [edge];
    forall i | 0 <= i < |handles| && i != owner ensures HeldBy(handles1, holds1, i) == HeldBy(handles, holds, i) {
      if handles[i].num > 0 { assert Run(handles1[i], holds1) == Run(handles[i], holds); }
    }
  }
}
