/** What a call borrows: every argument with all that it holds and consists of. */
module Borrow {
  import opened Memory
  import opened Ir
  import opened InternTable
  import opened Places

  datatype Life = LIFE_FREE | LIFE_UNIQUE | LIFE_SHARED

  /** Holding a place; just as shared, or the way the holder is borrowed. */
  datatype Edge = Edge(to: Place, justConst: bool)

  type Graph = map<Place, seq<Edge>>

  datatype Visit = Visit(place: Place, want: Life)

  function EdgesAt(g: Graph, p: Place): seq<Edge> { if p in g then g[p] else [] }

  function FieldCount(s: Scope, p: Place): nat {
    var tid := TypeAt(s, p);
    if IsType(s, tid) && s.f.types[tid].kind.KStruct? then |s.f.types[tid].kind.fields| else 0
  }

  function Held(e: Edge, want: Life): Life { if e.justConst then LIFE_SHARED else want }

  /** Holding and consisting of go down in rank: there is no cycle. */
  ghost predicate Acyclic(s: Scope, g: Graph, rank: Place -> nat) {
    && (forall p: Place :: rank(p) < rank(MemberOf(p)))
    && (forall p: Place, k :: !p.MemberOf? && 0 <= k < |EdgesAt(g, p)| ==> rank(EdgesAt(g, p)[k].to) < rank(p))
    && (forall p: Place, i: nat :: !p.MemberOf? && i < FieldCount(s, p) ==> rank(FieldOf(p, i)) < rank(p))
  }

  /** Everything that is borrowed along with a place, in the order it is visited. */
  ghost function Reach(s: Scope, g: Graph, rank: Place -> nat, p: Place, want: Life): seq<Visit>
    requires Acyclic(s, g, rank)
    decreases rank(p), 1, 0
  {
    if p.MemberOf? then Reach(s, g, rank, p.of, want) else
    [Visit(p, want)] + ReachHeld(s, g, rank, p, want, |EdgesAt(g, p)|) + ReachFields(s, g, rank, p, want, FieldCount(s, p))
  }

  ghost function ReachHeld(s: Scope, g: Graph, rank: Place -> nat, p: Place, want: Life, n: nat): seq<Visit>
    requires Acyclic(s, g, rank) && !p.MemberOf? && n <= |EdgesAt(g, p)|
    decreases rank(p), 0, n
  {
    if n == 0 then [] else
    var e := EdgesAt(g, p)[n - 1];
    ReachHeld(s, g, rank, p, want, n - 1) + Reach(s, g, rank, e.to, Held(e, want))
  }

  ghost function ReachFields(s: Scope, g: Graph, rank: Place -> nat, p: Place, want: Life, n: nat): seq<Visit>
    requires Acyclic(s, g, rank) && !p.MemberOf? && n <= FieldCount(s, p)
    decreases rank(p), 0, n
  {
    if n == 0 then [] else
    ReachFields(s, g, rank, p, want, n - 1) + Reach(s, g, rank, FieldOf(p, n - 1), want)
  }

  /** How the arguments of a call are borrowed: outputs uniquely, inputs as declared. */
  function WantOf(outs: nat, muts: seq<bool>, i: nat): Life
    requires i < outs + |muts|
  {
    if i < outs || muts[i - outs] then LIFE_UNIQUE else LIFE_SHARED
  }

  /** Everything that the first n arguments of a call borrow. */
  ghost function ReachCall(s: Scope, g: Graph, rank: Place -> nat, args: seq<Place>, outs: nat, muts: seq<bool>, n: nat): seq<Visit>
    requires Acyclic(s, g, rank) && n <= |args| == outs + |muts|
    decreases n
  {
    if n == 0 then [] else
    ReachCall(s, g, rank, args, outs, muts, n - 1) + Reach(s, g, rank, args[n - 1], WantOf(outs, muts, n - 1))
  }

  // ----- what makes visits compatible -----

  predicate BothShared(a: Visit, b: Visit) { a.want.LIFE_SHARED? && b.want.LIFE_SHARED? }

  /** Places are met twice only when they are shared every time. */
  predicate Compatible(vs: seq<Visit>) {
    forall i, j :: 0 <= i < j < |vs| && vs[i].place == vs[j].place ==> BothShared(vs[i], vs[j])
  }

  /** The mark that visits leave on a place. */
  function LifeIn(vs: seq<Visit>, p: Place): Life {
    if |vs| == 0 then LIFE_FREE else
    var before, v := LifeIn(vs[..|vs| - 1], p), vs[|vs| - 1];
    if v.place != p then before else if v.want.LIFE_UNIQUE? || before.LIFE_UNIQUE? then LIFE_UNIQUE else LIFE_SHARED
  }

  predicate Clashes(l: Life, want: Life) { l.LIFE_UNIQUE? || (l.LIFE_SHARED? && want.LIFE_UNIQUE?) }

  lemma {:induction false} LifeMeans(vs: seq<Visit>, p: Place)
    requires forall i :: 0 <= i < |vs| ==> !vs[i].want.LIFE_FREE?
    ensures LifeIn(vs, p).LIFE_FREE? <==> forall i :: 0 <= i < |vs| ==> vs[i].place != p
    ensures LifeIn(vs, p).LIFE_UNIQUE? <==> exists i :: 0 <= i < |vs| && vs[i].place == p && vs[i].want.LIFE_UNIQUE?
    decreases |vs|
  {
    if |vs| > 0 {
      var front, v := vs[..|vs| - 1], vs[|vs| - 1];
      LifeMeans(front, p);
      assert forall i :: 0 <= i < |front| ==> vs[i] == front[i];
      if LifeIn(front, p).LIFE_UNIQUE? {
        var i :| 0 <= i < |front| && front[i].place == p && front[i].want.LIFE_UNIQUE?;
        assert vs[i].place == p && vs[i].want.LIFE_UNIQUE?;
      }
    }
  }

  /** The mark is all that has to be looked at for the next visit. */
  lemma NextVisit(vs: seq<Visit>, v: Visit)
    requires Compatible(vs) && !v.want.LIFE_FREE? && forall i :: 0 <= i < |vs| ==> !vs[i].want.LIFE_FREE?
    ensures Compatible(vs + [v]) <==> !Clashes(LifeIn(vs, v.place), v.want)
  {
    LifeMeans(vs, v.place);
    var ws := vs + [v];
    if Clashes(LifeIn(vs, v.place), v.want) {
      var i :| 0 <= i < |vs| && vs[i].place == v.place && (LifeIn(vs, v.place).LIFE_UNIQUE? ==> vs[i].want.LIFE_UNIQUE?);
      assert ws[i].place == ws[|vs|].place && !BothShared(ws[i], ws[|vs|]);
    } else {
      forall i, j | 0 <= i < j < |ws| && ws[i].place == ws[j].place ensures BothShared(ws[i], ws[j]) {
        if j == |vs| { assert vs[i].place == v.place; } else { assert BothShared(vs[i], vs[j]); }
      }
    }
  }

  lemma CompatiblePrefix(vs: seq<Visit>, more: seq<Visit>)
    requires Compatible(vs + more)
    ensures Compatible(vs)
  {
    forall i, j | 0 <= i < j < |vs| && vs[i].place == vs[j].place ensures BothShared(vs[i], vs[j]) {
      assert (vs + more)[i] == vs[i] && (vs + more)[j] == vs[j];
    }
  }

  /** What is borrowed uniquely is met exactly once, so never shared besides. */
  lemma UniqueOnce(vs: seq<Visit>, k: nat)
    requires Compatible(vs) && k < |vs| && vs[k].want.LIFE_UNIQUE?
    ensures forall j :: 0 <= j < |vs| && vs[j].place == vs[k].place ==> j == k
  {
    hide Compatible;
    forall j | 0 <= j < |vs| && vs[j].place == vs[k].place ensures j == k {
      if j < k { CompatibleAt(vs, j, k); } else if k < j { CompatibleAt(vs, k, j); }
    }
  }

  lemma CompatibleAt(vs: seq<Visit>, i: nat, j: nat)
    requires Compatible(vs) && i < j < |vs| && vs[i].place == vs[j].place
    ensures BothShared(vs[i], vs[j])
  {
  }

  // ----- what is reached -----

  /** One step of borrowing: to the whole of a member, to something held, or to a field. */
  predicate Leads(s: Scope, g: Graph, a: Visit, b: Visit) {
    if a.place.MemberOf? then b == Visit(a.place.of, a.want)
    else (exists k :: 0 <= k < |EdgesAt(g, a.place)| && LeadsHeld(EdgesAt(g, a.place)[k], a, b))
         || (b.place.FieldOf? && b.place.of == a.place && b.place.field < FieldCount(s, a.place) && b.want == a.want)
  }

  predicate LeadsHeld(e: Edge, a: Visit, b: Visit) { b == Visit(e.to, Held(e, a.want)) }

  predicate Walk(s: Scope, g: Graph, w: seq<Visit>) {
    |w| > 0 && forall i :: 0 <= i < |w| - 1 ==> Leads(s, g, w[i], w[i + 1])
  }

  /** Where a walk ends is visited. */
  lemma {:induction false} WalksAreReached(s: Scope, g: Graph, rank: Place -> nat, w: seq<Visit>)
    requires Acyclic(s, g, rank) && Walk(s, g, w) && !w[|w| - 1].place.MemberOf?
    ensures w[|w| - 1] in Reach(s, g, rank, w[0].place, w[0].want)
    decreases |w|
  {
    var a := w[0];
    if |w| > 1 {
      var rest := w[1..];
      assert Leads(s, g, a, w[0 + 1]);
      forall i | 0 <= i < |rest| - 1 ensures Leads(s, g, rest[i], rest[i + 1]) { assert Leads(s, g, w[i + 1], w[i + 1 + 1]); }
      WalksAreReached(s, g, rank, rest);
      if !a.place.MemberOf? {
        if k :| 0 <= k < |EdgesAt(g, a.place)| && LeadsHeld(EdgesAt(g, a.place)[k], a, w[1]) {
          HeldIsReached(s, g, rank, a.place, a.want, k, |EdgesAt(g, a.place)|);
        } else {
          FieldIsReached(s, g, rank, a.place, a.want, w[1].place.field, FieldCount(s, a.place));
        }
      }
    }
  }

  lemma {:induction false} HeldIsReached(s: Scope, g: Graph, rank: Place -> nat, p: Place, want: Life, k: nat, n: nat)
    requires Acyclic(s, g, rank) && !p.MemberOf? && k < n <= |EdgesAt(g, p)|
    ensures var e := EdgesAt(g, p)[k]; forall v :: v in Reach(s, g, rank, e.to, Held(e, want)) ==> v in ReachHeld(s, g, rank, p, want, n)
    decreases n
  {
    hide Reach;
    if k < n - 1 { HeldIsReached(s, g, rank, p, want, k, n - 1); }
  }

  lemma {:induction false} FieldIsReached(s: Scope, g: Graph, rank: Place -> nat, p: Place, want: Life, k: nat, n: nat)
    requires Acyclic(s, g, rank) && !p.MemberOf? && k < n <= FieldCount(s, p)
    ensures forall v :: v in Reach(s, g, rank, FieldOf(p, k), want) ==> v in ReachFields(s, g, rank, p, want, n)
    decreases n
  {
    hide Reach;
    if k < n - 1 { FieldIsReached(s, g, rank, p, want, k, n - 1); }
  }

  /** And only that is visited to which a walk leads. */
  lemma {:induction false} ReachedByWalk(s: Scope, g: Graph, rank: Place -> nat, p: Place, want: Life, v: Visit) returns (w: seq<Visit>)
    requires Acyclic(s, g, rank) && v in Reach(s, g, rank, p, want)
    ensures Walk(s, g, w) && w[0] == Visit(p, want) && w[|w| - 1] == v && !v.place.MemberOf?
    decreases rank(p), 1, 0
  {
    hide ReachHeld, ReachFields;
    if p.MemberOf? {
      w := ReachedByWalk(s, g, rank, p.of, want, v);
      w := WalkOn(s, g, Visit(p, want), w);
    } else if v == Visit(p, want) {
      w := [v];
    } else if v in ReachHeld(s, g, rank, p, want, |EdgesAt(g, p)|) {
      w := HeldByWalk(s, g, rank, p, want, |EdgesAt(g, p)|, v);
    } else {
      w := FieldByWalk(s, g, rank, p, want, FieldCount(s, p), v);
    }
  }

  lemma WalkOn(s: Scope, g: Graph, a: Visit, rest: seq<Visit>) returns (w: seq<Visit>)
    requires Walk(s, g, rest) && Leads(s, g, a, rest[0])
    ensures Walk(s, g, w) && w[0] == a && w[|w| - 1] == rest[|rest| - 1]
  {
    w := [a] + rest;
    forall i | 0 <= i < |w| - 1 ensures Leads(s, g, w[i], w[i + 1]) {
      if i > 0 { assert Leads(s, g, rest[i - 1], rest[i - 1 + 1]); }
    }
  }

  lemma {:induction false} HeldByWalk(s: Scope, g: Graph, rank: Place -> nat, p: Place, want: Life, n: nat, v: Visit) returns (w: seq<Visit>)
    requires Acyclic(s, g, rank) && !p.MemberOf? && n <= |EdgesAt(g, p)| && v in ReachHeld(s, g, rank, p, want, n) && !p.MemberOf?
    ensures Walk(s, g, w) && w[0] == Visit(p, want) && w[|w| - 1] == v && !v.place.MemberOf?
    decreases rank(p), 0, n
  {
    hide Reach;
    var e := EdgesAt(g, p)[n - 1];
    if v in Reach(s, g, rank, e.to, Held(e, want)) {
      w := ReachedByWalk(s, g, rank, e.to, Held(e, want), v);
      assert LeadsHeld(EdgesAt(g, p)[n - 1], Visit(p, want), w[0]);
      w := WalkOn(s, g, Visit(p, want), w);
    } else {
      w := HeldByWalk(s, g, rank, p, want, n - 1, v);
    }
  }

  lemma {:induction false} FieldByWalk(s: Scope, g: Graph, rank: Place -> nat, p: Place, want: Life, n: nat, v: Visit) returns (w: seq<Visit>)
    requires Acyclic(s, g, rank) && !p.MemberOf? && n <= FieldCount(s, p) && v in ReachFields(s, g, rank, p, want, n) && !p.MemberOf?
    ensures Walk(s, g, w) && w[0] == Visit(p, want) && w[|w| - 1] == v && !v.place.MemberOf?
    decreases rank(p), 0, n
  {
    hide Reach;
    if v in Reach(s, g, rank, FieldOf(p, n - 1), want) {
      w := ReachedByWalk(s, g, rank, FieldOf(p, n - 1), want, v);
      w := WalkOn(s, g, Visit(p, want), w);
    } else {
      w := FieldByWalk(s, g, rank, p, want, n - 1, v);
    }
  }
}
