/** Places: what the indices that stand for pointers at check time mean. */
module Places {
  import opened Memory
  import opened Ir
  import opened InternTable

  /** A variable, an argument, a global, or a part of another place. */
  datatype Place = Root(kind: ParKind, idx: nat) | FieldOf(of: Place, field: nat) | MemberOf(of: Place)

  const NO_TYPE: nat := 0xFFFF_FFFF  // TYPE_INVALID_ID

  /** What the types of places depend on: a function and the globals of its program. */
  datatype Scope = Scope(f: Func, globals: seq<Global>)

  predicate IsType(s: Scope, tid: nat) { tid < |s.f.types| }

  /** The place of an index. */
  function PlaceOf(handles: seq<Par>, idx: nat): Place
    decreases idx
  {
    if idx >= |handles| then Root(PAR_LOCAL, idx) else
    var par := handles[idx];
    if Projects(par) && par.parent < idx then
      if par.kind.PAR_STRUCT_FILED? then FieldOf(PlaceOf(handles, par.parent), par.idx) else MemberOf(PlaceOf(handles, par.parent))
    else Root(par.kind, par.idx)
  }

  function TypeAt(s: Scope, p: Place): nat {
    match p
    case Root(kind, idx) =>
      if kind.PAR_GLOBAL? then (if idx < |s.globals| then s.globals[idx].tid else NO_TYPE)
      else if idx < |s.f.vars| then s.f.vars[idx] else NO_TYPE
    case FieldOf(of, field) =>
      var tid := TypeAt(s, of);
      if IsType(s, tid) && s.f.types[tid].kind.KStruct? && field < |s.f.types[tid].kind.fields|
      then s.f.types[tid].kind.fields[field].tid else NO_TYPE
    case MemberOf(of) =>
      var tid := TypeAt(s, of);
      if !IsType(s, tid) then NO_TYPE else
      match s.f.types[tid].kind
      case KArray(elem, _, _) => elem
      case KSlice(elem) => elem
      case KView(elem) => elem
      case _ => NO_TYPE
  }

  /** A table of places as interning makes it: nothing twice, parents before their parts,
      and the unused fields of a place are zero. */
  predicate Table(handles: seq<Par>) {
    && (forall i, j :: 0 <= i < j < |handles| ==> handles[i] != handles[j])
    && (forall i :: 0 <= i < |handles| ==> ParOk(handles[i], i))
  }

  predicate ParOk(p: Par, i: nat) {
    if Projects(p) then p.parent < i && (p.kind.PAR_ARR_MEMBER? ==> p.idx == 0) else p.parent == 0
  }

  /** New entries do not change the places of old ones. */
  lemma {:induction false} PlaceStays(handles: seq<Par>, more: seq<Par>, idx: nat)
    requires Table(handles) && handles <= more && idx < |handles|
    ensures PlaceOf(more, idx) == PlaceOf(handles, idx)
    decreases idx
  {
    assert ParOk(handles[idx], idx) && more[idx] == handles[idx];
    if Projects(handles[idx]) { PlaceStays(handles, more, handles[idx].parent); }
  }

  /** Different indices are different places. */
  lemma {:induction false} PlacesDiffer(handles: seq<Par>, i: nat, j: nat)
    requires Table(handles) && i < |handles| && j < |handles| && PlaceOf(handles, i) == PlaceOf(handles, j)
    ensures i == j
    decreases i
  {
    assert ParOk(handles[i], i) && ParOk(handles[j], j);
    if Projects(handles[i]) { PlacesDiffer(handles, handles[i].parent, handles[j].parent); }
    assert handles[i] == handles[j];
  }

  lemma TableGrows(handles: seq<Par>, par: Par)
    requires Table(handles) && ParOk(par, |handles|)
    ensures Table(if par in handles then handles else handles + [par])
  {
  }

  /** `par_type`, by way of the parents. */
  method ParType(s: Scope, handles: seq<Par>, idx: nat) returns (tid: nat)
    requires Table(handles)
    ensures tid == if idx < |handles| then TypeAt(s, PlaceOf(handles, idx)) else NO_TYPE
    decreases idx
  {
    if idx >= |handles| { return NO_TYPE; }
    var par := handles[idx];
    assert ParOk(par, idx);
    match par.kind {
      case PAR_LOCAL => tid := if par.idx < |s.f.vars| then s.f.vars[par.idx] else NO_TYPE;
      case PAR_ARG => tid := if par.idx < |s.f.vars| then s.f.vars[par.idx] else NO_TYPE;
      case PAR_GLOBAL => tid := if par.idx < |s.globals| then s.globals[par.idx].tid else NO_TYPE;
      case PAR_STRUCT_FILED =>
        var parent := ParType(s, handles, par.parent);
        if !IsType(s, parent) { return NO_TYPE; }
        var kind := s.f.types[parent].kind;
        if !kind.KStruct? || par.idx >= |kind.fields| { return NO_TYPE; }
        tid := kind.fields[par.idx].tid;
      case PAR_ARR_MEMBER =>
        var parent := ParType(s, handles, par.parent);
        if !IsType(s, parent) { return NO_TYPE; }
        var kind := s.f.types[parent].kind;
        if kind.KArray? || kind.KSlice? || kind.KView? { tid := kind.elem; } else { tid := NO_TYPE; }
    }
  }

  /** `par_root`: the variable, argument or global that a place is part of. */
  function RootOf(p: Place): Place {
    match p
    case Root(_, _) => p
    case FieldOf(of, _) => RootOf(of)
    case MemberOf(of) => RootOf(of)
  }

  method ParRoot(handles: seq<Par>, start: nat) returns (root: nat)
    requires Table(handles) && start < |handles|
    ensures root < |handles| && PlaceOf(handles, root) == RootOf(PlaceOf(handles, start))
  {
    root := start;
    while handles[root].kind.PAR_STRUCT_FILED? || handles[root].kind.PAR_ARR_MEMBER?
      invariant root < |handles| && RootOf(PlaceOf(handles, root)) == RootOf(PlaceOf(handles, start))
      decreases root
    {
      assert ParOk(handles[root], root);
      root := handles[root].parent;
    }
  }
}
