/** What a call that the borrow check accepts looks like, told of its arguments and of the chains of
    holds and fields from them: outputs and mutable inputs are alone with all they own. */
module CallRules {
  import opened Memory
  import opened InternTable
  import opened Places
  import opened Borrow
  import opened BorrowChecker
  import opened HoldGraph

  /** Outputs come first; an input is borrowed uniquely when it is mutable. */
  predicate Exclusive(outs: nat, muts: seq<bool>, i: nat)
    requires i < outs + |muts|
  {
    i < outs || muts[i - outs]
  }

  /** p owns q: as a part, or by a hold that is not shared in any case. */
  predicate Owns(s: Scope, g: Graph, p: Place, q: Place) {
    if p.MemberOf? then q == p.of
    else Edge(q, false) in EdgesAt(g, p) || (q.FieldOf? && q.of == p && q.field < FieldCount(s, p))
  }

  predicate OwnChain(s: Scope, g: Graph, w: seq<Place>) {
    |w| > 0 && forall i :: 0 <= i < |w| - 1 ==> Owns(s, g, w[i], w[i + 1])
  }

  // ----- chains and visits -----

  /** The places of a walk. */
  function Visited(w: seq<Visit>): (ps: seq<Place>)
    ensures |ps| == |w|
  {
    seq(|w|, i requires 0 <= i < |w| => w[i].place)
  }

  function AllUnique(w: seq<Place>): (vs: seq<Visit>)
    ensures |vs| == |w|
  {
    seq(|w|, i requires 0 <= i < |w| => Visit(w[i], LIFE_UNIQUE))
  }

  lemma OwnIsWalk(s: Scope, g: Graph, w: seq<Place>)
    requires OwnChain(s, g, w)
    ensures Walk(s, g, AllUnique(w))
  {
    var vs := AllUnique(w);
    forall i | 0 <= i < |vs| - 1 ensures Leads(s, g, vs[i], vs[i + 1]) {
      assert Owns(s, g, w[i], w[i + 1]);
      if !w[i].MemberOf? && Edge(w[i + 1], false) in EdgesAt(g, w[i]) {
        var k :| 0 <= k < |EdgesAt(g, w[i])| && EdgesAt(g, w[i])[k] == Edge(w[i + 1], false);
        assert LeadsHeld(EdgesAt(g, w[i])[k], vs[i], vs[i + 1]);
      }
    }
  }

  /** What an argument owns is borrowed uniquely when it is. */
  lemma OwnedIsVisited(s: Scope, g: Graph, rank: Place -> nat, w: seq<Place>)
    requires Acyclic(s, g, rank) && OwnChain(s, g, w) && !w[|w| - 1].MemberOf?
    ensures Visit(w[|w| - 1], LIFE_UNIQUE) in Reach(s, g, rank, w[0], LIFE_UNIQUE)
  {
    hide Acyclic, OwnChain, Walk, Reach;
    OwnIsWalk(s, g, w);
    WalksAreReached(s, g, rank, AllUnique(w));
  }

  /** And nothing else is. */
  lemma UniqueIsOwned(s: Scope, g: Graph, rank: Place -> nat, p: Place, want: Life, v: Visit) returns (w: seq<Place>)
    requires Acyclic(s, g, rank) && v in Reach(s, g, rank, p, want) && v.want.LIFE_UNIQUE?
    ensures want.LIFE_UNIQUE? && OwnChain(s, g, w) && w[0] == p && w[|w| - 1] == v.place
  {
    hide Acyclic, Reach;
    var vs := ReachedByWalk(s, g, rank, p, want, v);
    StaysUnique(s, g, vs, 0);
    w := Visited(vs);
    forall i | 0 <= i < |w| - 1 ensures Owns(s, g, w[i], w[i + 1]) {
      StaysUnique(s, g, vs, i);
      StaysUnique(s, g, vs, i + 1);
      assert Leads(s, g, vs[i], vs[i + 1]);
      UniqueStep(s, g, vs[i], vs[i + 1]);
    }
  }

  lemma UniqueStep(s: Scope, g: Graph, a: Visit, b: Visit)
    requires Leads(s, g, a, b) && b.want.LIFE_UNIQUE?
    ensures a.want.LIFE_UNIQUE? && Owns(s, g, a.place, b.place)
  {
    if !a.place.MemberOf? {
      if k :| 0 <= k < |EdgesAt(g, a.place)| && LeadsHeld(EdgesAt(g, a.place)[k], a, b) {
        assert EdgesAt(g, a.place)[k] == Edge(b.place, false);
      }
    }
  }

  /** A walk that ends in something unique has been unique all along. */
  lemma {:induction false} StaysUnique(s: Scope, g: Graph, w: seq<Visit>, i: nat)
    requires Walk(s, g, w) && i < |w| && w[|w| - 1].want.LIFE_UNIQUE?
    ensures w[i].want.LIFE_UNIQUE?
    decreases |w| - i
  {
    hide Leads;
    if i < |w| - 1 {
      StaysUnique(s, g, w, i + 1);
      assert Leads(s, g, w[i], w[i + 1]);
      UniqueStep(s, g, w[i], w[i + 1]);
    }
  }

  /** Nothing is visited that is not wanted either way. */
  lemma VisitsWanted(s: Scope, g: Graph, rank: Place -> nat, p: Place, want: Life, v: Visit)
    requires Acyclic(s, g, rank) && v in Reach(s, g, rank, p, want) && !want.LIFE_FREE?
    ensures !v.want.LIFE_FREE?
  {
    hide Acyclic, Reach;
    var w := ReachedByWalk(s, g, rank, p, want, v);
    NeverFree(s, g, w, |w| - 1);
  }

  lemma {:induction false} NeverFree(s: Scope, g: Graph, w: seq<Visit>, i: nat)
    requires Walk(s, g, w) && i < |w| && !w[0].want.LIFE_FREE?
    ensures !w[i].want.LIFE_FREE?
    decreases i
  {
    if i > 0 {
      NeverFree(s, g, w, i - 1);
      assert Leads(s, g, w[i - 1], w[i - 1 + 1]);
    }
  }

  /** Any chain of links is walked, wanted one way or the other at its end. */
  lemma {:induction false} ChainIsVisited(s: Scope, g: Graph, rank: Place -> nat, w: seq<Place>, want: Life) returns (v: Visit)
    requires Acyclic(s, g, rank) && Chain(s, g, w) && !w[|w| - 1].MemberOf?
    ensures v in Reach(s, g, rank, w[0], want) && v.place == w[|w| - 1]
  {
    hide Acyclic, Reach, Walk;
    var vs := ChainIsWalk(s, g, w, want);
    WalksAreReached(s, g, rank, vs);
    v := vs[|vs| - 1];
  }

  lemma {:induction false} ChainIsWalk(s: Scope, g: Graph, w: seq<Place>, want: Life) returns (vs: seq<Visit>)
    requires Chain(s, g, w)
    ensures Walk(s, g, vs) && vs[0] == Visit(w[0], want) && vs[|vs| - 1].place == w[|w| - 1]
    decreases |w|
  {
    vs := [Visit(w[0], want)];
    if |w| > 1 {
      ChainRest(s, g, w);
      var b := LinkIsStep(s, g, vs[0], w[1]);
      var rest := ChainIsWalk(s, g, w[1..], b.want);
      vs := WalkOn(s, g, vs[0], rest);
    }
  }

  lemma LinkIsStep(s: Scope, g: Graph, a: Visit, q: Place) returns (b: Visit)
    requires Linked(s, g, a.place, q)
    ensures Leads(s, g, a, b) && b.place == q
  {
    b := Visit(q, a.want);
    if !a.place.MemberOf? {
      if k :| 0 <= k < |EdgesAt(g, a.place)| && EdgesAt(g, a.place)[k].to == q {
        b := Visit(q, Held(EdgesAt(g, a.place)[k], a.want));
        assert LeadsHeld(EdgesAt(g, a.place)[k], a, b);
      }
    }
  }

  // ----- accepted calls -----

  lemma WantIs(outs: nat, muts: seq<bool>, i: nat)
    requires i < outs + |muts|
    ensures WantOf(outs, muts, i).LIFE_UNIQUE? <==> Exclusive(outs, muts, i)
    ensures !WantOf(outs, muts, i).LIFE_FREE?
  {
  }

  /** In an accepted call, what an output or a mutable input owns, itself included, no other
      argument leads to. */
  lemma AcceptedIsExclusive(s: Scope, g: Graph, rank: Place -> nat, ps: seq<Place>, outs: nat, muts: seq<bool>, i: nat, j: nat,
                            own: seq<Place>, other: seq<Place>)
    requires Acyclic(s, g, rank) && i < |ps| == outs + |muts| && j < |ps| && i != j
    requires Compatible(ReachCall(s, g, rank, ps, outs, muts, |ps|)) && Exclusive(outs, muts, i)
    requires OwnChain(s, g, own) && own[0] == ps[i] && !own[|own| - 1].MemberOf?
    requires Chain(s, g, other) && other[0] == ps[j] && !other[|other| - 1].MemberOf?
    ensures own[|own| - 1] != other[|other| - 1]
  {
    hide Acyclic, Compatible, Reach, ReachCall;
    WantIs(outs, muts, i);
    OwnedIsVisited(s, g, rank, own);
    var v := ChainIsVisited(s, g, rank, other, WantOf(outs, muts, j));
    VisitsAreExclusive(s, g, rank, ps, outs, muts, i, j, Visit(own[|own| - 1], LIFE_UNIQUE), v);
  }

  /** The visits of argument i, where exclusive arguments are wanted uniquely. */
  ghost function VisitsOf(s: Scope, g: Graph, rank: Place -> nat, ps: seq<Place>, outs: nat, muts: seq<bool>, i: nat): seq<Visit>
    requires Acyclic(s, g, rank) && i < |ps| == outs + |muts|
  {
    Reach(s, g, rank, ps[i], if Exclusive(outs, muts, i) then LIFE_UNIQUE else LIFE_SHARED)
  }

  /** Wherever they meet, both are shared. */
  predicate GetOn(us: seq<Visit>, vs: seq<Visit>) {
    forall u, v :: u in us && v in vs && u.place == v.place ==> BothShared(u, v)
  }

  lemma VisitsOfIs(s: Scope, g: Graph, rank: Place -> nat, ps: seq<Place>, outs: nat, muts: seq<bool>, i: nat)
    requires Acyclic(s, g, rank) && i < |ps| == outs + |muts|
    ensures VisitsOf(s, g, rank, ps, outs, muts, i) == Reach(s, g, rank, ps[i], WantOf(outs, muts, i))
    ensures !Exclusive(outs, muts, i) ==> forall v :: v in VisitsOf(s, g, rank, ps, outs, muts, i) ==> v.want.LIFE_SHARED?
  {
    hide Acyclic, Reach;
    WantIs(outs, muts, i);
    assert WantOf(outs, muts, i) == if Exclusive(outs, muts, i) then LIFE_UNIQUE else LIFE_SHARED;
    if !Exclusive(outs, muts, i) {
      forall v | v in VisitsOf(s, g, rank, ps, outs, muts, i) ensures v.want.LIFE_SHARED? {
        VisitsWanted(s, g, rank, ps[i], LIFE_SHARED, v);
        if v.want.LIFE_UNIQUE? { var w := UniqueIsOwned(s, g, rank, ps[i], LIFE_SHARED, v); }
      }
    }
  }

  lemma JoinedCompatible(us: seq<Visit>, vs: seq<Visit>)
    ensures Compatible(us + vs) <==> Compatible(us) && Compatible(vs) && GetOn(us, vs)
  {
    var ws := us + vs;
    if Compatible(ws) {
      CompatiblePrefix(us, vs);
      forall i, j | 0 <= i < j < |vs| && vs[i].place == vs[j].place ensures BothShared(vs[i], vs[j]) {
        assert ws[|us| + i] == vs[i] && ws[|us| + j] == vs[j];
      }
      forall u, v | u in us && v in vs && u.place == v.place ensures BothShared(u, v) {
        var i :| 0 <= i < |us| && us[i] == u;
        var j :| 0 <= j < |vs| && vs[j] == v;
        assert ws[i] == u && ws[|us| + j] == v;
      }
    }
    if Compatible(us) && Compatible(vs) && GetOn(us, vs) {
      forall i, j | 0 <= i < j < |ws| && ws[i].place == ws[j].place ensures BothShared(ws[i], ws[j]) {
        if j < |us| { CompatibleAt(us, i, j); } else if i >= |us| { CompatibleAt(vs, i - |us|, j - |us|); } else { assert us[i] in us && vs[j - |us|] in vs; }
      }
    }
  }

  /** The first n arguments get on with one another. */
  ghost predicate AllGetOn(s: Scope, g: Graph, rank: Place -> nat, ps: seq<Place>, outs: nat, muts: seq<bool>, n: nat)
    requires Acyclic(s, g, rank) && n <= |ps| == outs + |muts|
  {
    && (forall i :: 0 <= i < n && Exclusive(outs, muts, i) ==> Compatible(VisitsOf(s, g, rank, ps, outs, muts, i)))
    && (forall i, j :: 0 <= i < n && 0 <= j < n && i != j && Exclusive(outs, muts, i) ==>
          GetOn(VisitsOf(s, g, rank, ps, outs, muts, i), VisitsOf(s, g, rank, ps, outs, muts, j)))
  }

  /** A call is compatible if and only if each output and each mutable input meets nothing
      twice and no other argument meets anything of it but what both share. Inputs that are
      not mutable may overlap in any way. */
  lemma {:induction false} CallRule(s: Scope, g: Graph, rank: Place -> nat, ps: seq<Place>, outs: nat, muts: seq<bool>, n: nat)
    requires Acyclic(s, g, rank) && n <= |ps| == outs + |muts|
    ensures Compatible(ReachCall(s, g, rank, ps, outs, muts, n)) <==> AllGetOn(s, g, rank, ps, outs, muts, n)
    decreases n
  {
    hide Acyclic, Reach, Compatible, VisitsOf, GetOn;
    if n == 0 {
      NoVisits();
    } else {
      var us, vs := ReachCall(s, g, rank, ps, outs, muts, n - 1), VisitsOf(s, g, rank, ps, outs, muts, n - 1);
      CallRule(s, g, rank, ps, outs, muts, n - 1);
      VisitsOfIs(s, g, rank, ps, outs, muts, n - 1);
      assert ReachCall(s, g, rank, ps, outs, muts, n) == us + vs;
      JoinedCompatible(us, vs);
      if !Exclusive(outs, muts, n - 1) { SharedCompatible(vs); }
      GetOnCall(s, g, rank, ps, outs, muts, n - 1, vs);
      LastGetsOn(s, g, rank, ps, outs, muts, n);
    }
  }

  lemma NoVisits()
    ensures Compatible([])
  {
  }

  lemma SharedCompatible(vs: seq<Visit>)
    requires forall v :: v in vs ==> v.want.LIFE_SHARED?
    ensures Compatible(vs)
  {
    forall i, j | 0 <= i < j < |vs| && vs[i].place == vs[j].place ensures BothShared(vs[i], vs[j]) { assert vs[i] in vs && vs[j] in vs; }
  }

  lemma SharedGetOn(us: seq<Visit>, vs: seq<Visit>)
    requires (forall v :: v in us ==> v.want.LIFE_SHARED?) && (forall v :: v in vs ==> v.want.LIFE_SHARED?)
    ensures GetOn(us, vs)
  {
  }

  lemma GetOnTurned(us: seq<Visit>, vs: seq<Visit>)
    ensures GetOn(us, vs) <==> GetOn(vs, us)
  {
  }

  lemma GetOnJoined(us: seq<Visit>, us1: seq<Visit>, vs: seq<Visit>)
    ensures GetOn(us + us1, vs) <==> GetOn(us, vs) && GetOn(us1, vs)
  {
    forall u ensures u in us + us1 <==> u in us || u in us1 { }
  }

  /** Getting on with a call is getting on with each argument. */
  lemma {:induction false} GetOnCall(s: Scope, g: Graph, rank: Place -> nat, ps: seq<Place>, outs: nat, muts: seq<bool>, n: nat, vs: seq<Visit>)
    requires Acyclic(s, g, rank) && n <= |ps| == outs + |muts|
    ensures GetOn(ReachCall(s, g, rank, ps, outs, muts, n), vs)
       <==> forall i :: 0 <= i < n ==> GetOn(VisitsOf(s, g, rank, ps, outs, muts, i), vs)
    decreases n
  {
    hide Acyclic, Reach, VisitsOf;
    if n > 0 {
      GetOnCall(s, g, rank, ps, outs, muts, n - 1, vs);
      VisitsOfIs(s, g, rank, ps, outs, muts, n - 1);
      hide GetOn;
      GetOnJoined(ReachCall(s, g, rank, ps, outs, muts, n - 1), VisitsOf(s, g, rank, ps, outs, muts, n - 1), vs);
    }
  }

  /** What the last argument adds to the rule. */
  lemma LastGetsOn(s: Scope, g: Graph, rank: Place -> nat, ps: seq<Place>, outs: nat, muts: seq<bool>, n: nat)
    requires Acyclic(s, g, rank) && 0 < n <= |ps| == outs + |muts|
    ensures var vs := VisitsOf(s, g, rank, ps, outs, muts, n - 1);
      AllGetOn(s, g, rank, ps, outs, muts, n) <==>
        && AllGetOn(s, g, rank, ps, outs, muts, n - 1) && (Exclusive(outs, muts, n - 1) ==> Compatible(vs))
        && forall i :: 0 <= i < n - 1 ==> GetOn(VisitsOf(s, g, rank, ps, outs, muts, i), vs)
  {
    hide Acyclic, Reach, Compatible, VisitsOf, GetOn;
    var vs := VisitsOf(s, g, rank, ps, outs, muts, n - 1);
    forall i | 0 <= i < n - 1
      ensures GetOn(VisitsOf(s, g, rank, ps, outs, muts, i), vs) <==> GetOn(vs, VisitsOf(s, g, rank, ps, outs, muts, i))
      ensures !Exclusive(outs, muts, i) && !Exclusive(outs, muts, n - 1) ==> GetOn(VisitsOf(s, g, rank, ps, outs, muts, i), vs)
    {
      GetOnTurned(VisitsOf(s, g, rank, ps, outs, muts, i), vs);
      VisitsOfIs(s, g, rank, ps, outs, muts, i);
      VisitsOfIs(s, g, rank, ps, outs, muts, n - 1);
      if !Exclusive(outs, muts, i) && !Exclusive(outs, muts, n - 1) { SharedGetOn(VisitsOf(s, g, rank, ps, outs, muts, i), vs); }
    }
  }

  // ----- what is refused and what is not -----

  /** One place for two outputs, or for an output and any input: the call is refused. */
  lemma SamePlaceIsRefused(s: Scope, g: Graph, rank: Place -> nat, ps: seq<Place>, outs: nat, muts: seq<bool>, i: nat, j: nat)
    requires Acyclic(s, g, rank) && i < outs <= |ps| == outs + |muts| && j < |ps| && i != j
    requires ps[i] == ps[j] && !ps[i].MemberOf?
    ensures !Compatible(ReachCall(s, g, rank, ps, outs, muts, |ps|))
  {
    hide Acyclic, Reach, Compatible, ReachCall;
    if Compatible(ReachCall(s, g, rank, ps, outs, muts, |ps|)) {
      AcceptedIsExclusive(s, g, rank, ps, outs, muts, i, j, [ps[i]], [ps[j]]);
    }
  }

  /** One variable for both outputs of a call without inputs. */
  lemma TwoOutputsAreRefused(s: Scope, rank: Place -> nat, v: nat)
    requires Acyclic(s, map[], rank)
    ensures !Compatible(ReachCall(s, map[], rank, [Root(PAR_LOCAL, v), Root(PAR_LOCAL, v)], 2, [], 2))
  {
    hide Acyclic, Reach, Compatible, ReachCall;
    SamePlaceIsRefused(s, map[], rank, [Root(PAR_LOCAL, v), Root(PAR_LOCAL, v)], 2, [], 0, 1);
  }

  /** Inputs that are not mutable, whatever they are and hold. */
  lemma SharedInputsAreAccepted(s: Scope, g: Graph, rank: Place -> nat, portals: set<nat>, ps: seq<Place>)
    requires Acyclic(s, g, rank)
    ensures InputsOk(s, portals, ps, 0, seq(|ps|, _ => false), |ps|)
    ensures Compatible(ReachCall(s, g, rank, ps, 0, seq(|ps|, _ => false), |ps|))
  {
    hide Acyclic, Reach, Compatible, ReachCall, VisitsOf, GetOn;
    CallRule(s, g, rank, ps, 0, seq(|ps|, _ => false), |ps|);
  }

  /** The output `holder`, a view or a slice, made to hold the input `backing` that is not mutable:
      a call of both is accepted if and only if the hold is that of a view. */
  lemma ViewsShareTheirBacking(s: Scope, rank: Place -> nat, portals: set<nat>, holder: Place, backing: Place, justConst: bool)
    requires holder.Root? && backing.Root? && holder != backing && FieldCount(s, holder) == FieldCount(s, backing) == 0
    requires Acyclic(s, map[holder := [Edge(backing, justConst)]], rank)
    ensures InputsOk(s, portals, [holder, backing], 1, [false], 2)
    ensures Compatible(ReachCall(s, map[holder := [Edge(backing, justConst)]], rank, [holder, backing], 1, [false], 2)) <==> justConst
  {
    hide Acyclic, Compatible, ReachCall, GetOn;
    var g, ps := map[holder := [Edge(backing, justConst)]], [holder, backing];
    if justConst {
      var us, vs := VisitsOf(s, g, rank, ps, 1, [false], 0), VisitsOf(s, g, rank, ps, 1, [false], 1);
      OneHeld(s, rank, holder, backing, LIFE_UNIQUE);
      NoPartsBorrowed(s, g, rank, backing, LIFE_SHARED);
      assert us == [Visit(holder, LIFE_UNIQUE), Visit(backing, LIFE_SHARED)] && vs == [Visit(backing, LIFE_SHARED)];
      hide VisitsOf, Reach;
      TwoVisits(holder, backing);
      CallRule(s, g, rank, ps, 1, [false], 2);
    } else if Compatible(ReachCall(s, g, rank, ps, 1, [false], 2)) {
      assert Owns(s, g, holder, backing) by { assert EdgesAt(g, holder)[0] == Edge(backing, false); }
      AcceptedIsExclusive(s, g, rank, ps, 1, [false], 0, 1, [holder, backing], [backing]);
    }
  }

  lemma TwoVisits(p: Place, q: Place)
    requires p != q
    ensures Compatible([Visit(p, LIFE_UNIQUE), Visit(q, LIFE_SHARED)])
    ensures GetOn([Visit(p, LIFE_UNIQUE), Visit(q, LIFE_SHARED)], [Visit(q, LIFE_SHARED)])
  {
  }

  lemma OneHeld(s: Scope, rank: Place -> nat, p: Place, q: Place, want: Life)
    requires p.Root? && q.Root? && p != q && FieldCount(s, p) == FieldCount(s, q) == 0
    requires Acyclic(s, map[p := [Edge(q, true)]], rank)
    ensures Reach(s, map[p := [Edge(q, true)]], rank, p, want) == [Visit(p, want), Visit(q, LIFE_SHARED)]
  {
    hide Acyclic;
    var g := map[p := [Edge(q, true)]];
    NoPartsBorrowed(s, g, rank, q, LIFE_SHARED);
    assert ReachHeld(s, g, rank, p, want, 0) == [] && ReachFields(s, g, rank, p, want, 0) == [];
    assert EdgesAt(g, p)[0] == Edge(q, true);
    assert ReachHeld(s, g, rank, p, want, 1) == ReachHeld(s, g, rank, p, want, 0) + Reach(s, g, rank, q, LIFE_SHARED);
  }

  // ----- parts -----

  /** Borrowing a struct borrows each of its fields. */
  lemma FieldsAreBorrowed(s: Scope, g: Graph, rank: Place -> nat, p: Place, i: nat)
    requires Acyclic(s, g, rank) && !p.MemberOf? && IsType(s, TypeAt(s, p))
    requires s.f.types[TypeAt(s, p)].kind.KStruct? && i < |s.f.types[TypeAt(s, p)].kind.fields|
    ensures Visit(FieldOf(p, i), LIFE_UNIQUE) in Reach(s, g, rank, p, LIFE_UNIQUE)
  {
    hide Acyclic, Reach, TypeAt;
    assert Owns(s, g, p, FieldOf(p, i));
    OwnedIsVisited(s, g, rank, [p, FieldOf(p, i)]);
  }

  /** A struct and a field of it, as outputs of one call: refused. */
  lemma StructAndFieldAreRefused(s: Scope, g: Graph, rank: Place -> nat, p: Place, i: nat)
    requires Acyclic(s, g, rank) && !p.MemberOf? && IsType(s, TypeAt(s, p))
    requires s.f.types[TypeAt(s, p)].kind.KStruct? && i < |s.f.types[TypeAt(s, p)].kind.fields|
    ensures !Compatible(ReachCall(s, g, rank, [p, FieldOf(p, i)], 2, [], 2))
  {
    hide Acyclic, Reach, Compatible, ReachCall, TypeAt;
    assert Owns(s, g, p, FieldOf(p, i));
    if Compatible(ReachCall(s, g, rank, [p, FieldOf(p, i)], 2, [], 2)) {
      AcceptedIsExclusive(s, g, rank, [p, FieldOf(p, i)], 2, [], 0, 1, [p, FieldOf(p, i)], [FieldOf(p, i)]);
    }
  }

  /** Two fields of a struct that are no structs and hold nothing, as outputs of one call:
      accepted, if and only if they are different fields. */
  lemma FieldsKeepApart(s: Scope, rank: Place -> nat, p: Place, i: nat, j: nat)
    requires Acyclic(s, map[], rank) && FieldCount(s, FieldOf(p, i)) == FieldCount(s, FieldOf(p, j)) == 0
    ensures Compatible(ReachCall(s, map[], rank, [FieldOf(p, i), FieldOf(p, j)], 2, [], 2)) <==> i != j
  {
    hide Acyclic, Compatible, ReachCall, GetOn;
    var g, ps := map[], [FieldOf(p, i), FieldOf(p, j)];
    if i == j {
      SamePlaceIsRefused(s, g, rank, ps, 2, [], 0, 1);
    } else {
      NoPartsBorrowed(s, g, rank, FieldOf(p, i), LIFE_UNIQUE);
      NoPartsBorrowed(s, g, rank, FieldOf(p, j), LIFE_UNIQUE);
      var us, vs := VisitsOf(s, g, rank, ps, 2, [], 0), VisitsOf(s, g, rank, ps, 2, [], 1);
      assert us == [Visit(FieldOf(p, i), LIFE_UNIQUE)] && vs == [Visit(FieldOf(p, j), LIFE_UNIQUE)];
      hide VisitsOf, Reach;
      SinglesGetOn(FieldOf(p, i), FieldOf(p, j));
      CallRule(s, g, rank, ps, 2, [], 2);
    }
  }

  lemma SinglesGetOn(p: Place, q: Place)
    requires p != q
    ensures Compatible([Visit(p, LIFE_UNIQUE)]) && Compatible([Visit(q, LIFE_UNIQUE)])
    ensures GetOn([Visit(p, LIFE_UNIQUE)], [Visit(q, LIFE_UNIQUE)]) && GetOn([Visit(q, LIFE_UNIQUE)], [Visit(p, LIFE_UNIQUE)])
  {
  }

  lemma NoPartsBorrowed(s: Scope, g: Graph, rank: Place -> nat, p: Place, want: Life)
    requires Acyclic(s, g, rank) && !p.MemberOf? && p !in g && FieldCount(s, p) == 0
    ensures Reach(s, g, rank, p, want) == [Visit(p, want)]
  {
    hide Acyclic;
    assert EdgesAt(g, p) == [];
    assert ReachHeld(s, g, rank, p, want, 0) == [] && ReachFields(s, g, rank, p, want, 0) == [];
  }

  /** Two elements of one array, whichever they are, as outputs of one call: refused, as which
      elements they are is only known at run time. */
  lemma ElementsAreRefused(s: Scope, g: Graph, rank: Place -> nat, arr: Place)
    requires Acyclic(s, g, rank) && !arr.MemberOf?
    ensures !Compatible(ReachCall(s, g, rank, [MemberOf(arr), MemberOf(arr)], 2, [], 2))
  {
    hide Acyclic, Reach, Compatible, ReachCall;
    if Compatible(ReachCall(s, g, rank, [MemberOf(arr), MemberOf(arr)], 2, [], 2)) {
      AcceptedIsExclusive(s, g, rank, [MemberOf(arr), MemberOf(arr)], 2, [], 0, 1, [MemberOf(arr), arr], [MemberOf(arr), arr]);
    }
  }
}
