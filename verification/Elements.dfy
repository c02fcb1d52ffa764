/** Where elements and fields lie and what the operations on arrays, slices and structs do to them,
    told of what is loaded before and after. */
module Elements {
  import opened Memory
  import opened Ir
  import opened Semantics
  import TypeLayout

  // ----- places in memory -----

  /** The place n bytes behind p. */
  function Behind(p: Ptr, n: nat): Ptr {
    match p
    case Stor(off) => Stor(off + n)
    case Glob(g, off) => Glob(g, off + n)
    case Raw(addr) => Raw(addr + n)
  }

  /** Element i of an array. */
  function ElementOf(arr: Ptr, dataOffset: nat, size: nat, i: nat): Ptr {
    Behind(arr, TypeLayout.ElemOffset(dataOffset, size, i))
  }

  /** n bytes at p and k bytes at q have nothing in common. */
  predicate Apart(p: Ptr, n: nat, q: Ptr, k: nat) {
    match (p, q)
    case (Stor(a), Stor(b)) => a + n <= b || b + k <= a
    case (Glob(g, a), Glob(h, b)) => g == h ==> a + n <= b || b + k <= a
    case _ => true
  }

  /** m1 differs from m at most in the n bytes at p. */
  ghost predicate OnlyAt(m: Mem, m1: Mem, p: Ptr, n: nat) {
    forall q, k :: Apart(p, n, q, k) ==> Load(m1, q, k) == Load(m, q, k)
  }

  lemma LoadElsewhere(m: Mem, p: Ptr, cells: seq<Cell>, q: Ptr, k: nat)
    requires Store(m, p, cells).Some? && Apart(p, |cells|, q, k)
    ensures Load(Store(m, p, cells).value, q, k) == Load(m, q, k)
  {
    hide Overwrite, Open;
    if p.Stor? && q.Stor? {
      SameElsewhere(m.storage, p.off, cells, q.off, k);
    } else if p.Glob? && q.Glob? && p.g == q.g {
      SameElsewhere(m.globals[p.g], p.off, cells, q.off, k);
    }
  }

  lemma SameElsewhere(s: seq<Cell>, at: nat, cells: seq<Cell>, i: nat, k: nat)
    requires at + |cells| <= |s| && (at + |cells| <= i || i + k <= at)
    ensures i + k <= |s| ==> Overwrite(s, at, cells)[i..i + k] == s[i..i + k]
  {
    if i + k <= |s| {
      forall j | i <= j < i + k ensures Overwrite(s, at, cells)[j] == s[j] { OverwriteAt(s, at, cells, j); }
    }
  }

  lemma StoredOnly(m: Mem, p: Ptr, cells: seq<Cell>)
    requires Store(m, p, cells).Some?
    ensures OnlyAt(m, Store(m, p, cells).value, p, |cells|)
  {
    hide Load, Store, Apart;
    forall q, k | Apart(p, |cells|, q, k) ensures Load(Store(m, p, cells).value, q, k) == Load(m, q, k) { LoadElsewhere(m, p, cells, q, k); }
  }

  /** Changes inside a larger part, one after the other. */
  lemma OnlyTwice(m: Mem, m1: Mem, m2: Mem, base: Ptr, size: nat, i: nat, n: nat, j: nat, k: nat)
    requires OnlyAt(m, m1, Behind(base, i), n) && OnlyAt(m1, m2, Behind(base, j), k) && i + n <= size && j + k <= size
    ensures OnlyAt(m, m2, base, size)
  {
    hide Load;
    forall q, l | Apart(base, size, q, l) ensures Load(m2, q, l) == Load(m, q, l) {
      assert Apart(Behind(base, i), n, q, l) && Apart(Behind(base, j), k, q, l);
    }
  }

  lemma OnlyOnce(m: Mem, m1: Mem, base: Ptr, size: nat, i: nat, n: nat)
    requires OnlyAt(m, m1, Behind(base, i), n) && i + n <= size
    ensures OnlyAt(m, m1, base, size)
  {
    hide Load;
    forall q, l | Apart(base, size, q, l) ensures Load(m1, q, l) == Load(m, q, l) { assert Apart(Behind(base, i), n, q, l); }
  }

  /** Where much can be loaded, so can a part of it. */
  lemma LoadPart(m: Mem, p: Ptr, size: nat, i: nat, n: nat)
    requires Load(m, p, size).Some? && i + n <= size
    ensures Load(m, Behind(p, i), n) == Some(Load(m, p, size).value[i..i + n])
  {
    hide Open;
    var s := if p.Stor? then m.storage else m.globals[p.g];
    OpenPart(s, p.off, size, i, n);
  }

  lemma OpenPart(s: seq<Cell>, at: nat, size: nat, i: nat, n: nat)
    requires at + size <= |s| && i + n <= size
    ensures s[at + i..at + i + n] == s[at..at + size][i..i + n]
    ensures Open(s[at..at + size]) ==> Open(s[at + i..at + i + n])
  {
    var whole, part := s[at..at + size], s[at + i..at + i + n];
    forall j | 0 <= j < n ensures part[j] == whole[i..i + n][j] { assert whole[i + j] == s[at + (i + j)]; }
    assert part == whole[i..i + n];
    if Open(whole) { forall j | 0 <= j < n ensures !part[j].Saved? { assert part[j] == whole[i + j]; } }
  }

  /** Same bytes, same loads of everything inside. */
  lemma PtrAddIs(p: Ptr, n: nat)
    ensures PtrAdd(p, n) == Behind(p, n)
  {
  }

  lemma ElementIs(arr: Ptr, dataOffset: nat, size: nat, i: nat)
    ensures Elem(PtrAdd(arr, dataOffset), size, i) == ElementOf(arr, dataOffset, size, i)
  {
    assert size * i == TypeLayout.ElemOffset(dataOffset, size, i) - dataOffset;
  }

  // ----- counts -----

  lemma CountStored(m: Mem, p: Ptr, x: nat)
    requires x < TWO32 && Load(m, p, COUNT_SIZE).Some?
    ensures StoreCount(m, p, x).Some? && LoadCount(StoreCount(m, p, x).value, p) == Some(x)
    ensures OnlyAt(m, StoreCount(m, p, x).value, p, COUNT_SIZE)
  {
    hide OnlyAt;
    UnsignedRoundTrip(m, p, Digits(x, COUNT_SIZE));
    PowValues();
    DigitsRoundTrip(x, COUNT_SIZE);
    StoredOnly(m, p, AsCells(Digits(x, COUNT_SIZE)));
  }

  lemma SameCount(m: Mem, m1: Mem, p: Ptr)
    requires Load(m1, p, COUNT_SIZE) == Load(m, p, COUNT_SIZE)
    ensures LoadCount(m1, p) == LoadCount(m, p)
  {
  }

  lemma CountIsSmall(m: Mem, p: Ptr)
    ensures LoadCount(m, p).Some? ==> LoadCount(m, p).value < TWO32
  {
    if LoadCount(m, p).Some? {
      var cells := Load(m, p, COUNT_SIZE).value;
      ValueIsSmall(AsDigits(cells));
      PowValues();
    }
  }

  lemma {:induction false} ValueIsSmall(ds: seq<u8>)
    ensures Value(ds) < Pow256(|ds|)
  {
    if |ds| > 0 { ValueIsSmall(ds[1..]); }
  }

  // ----- arrays -----

  /** Type t is an array as it is laid out: the elements lie behind the length. */
  predicate LaidArray(types: seq<Type>, t: nat) {
    && t < |types| && types[t].kind.KArray? && types[t].kind.elem < |types| && types[t].kind.capacity < TWO32
    && COUNT_SIZE <= types[t].kind.dataOffset
    && types[t].kind.dataOffset + types[types[t].kind.elem].payload * types[t].kind.capacity <= types[t].payload
  }

  /** Its types and pointers on the stack, with the whole array in memory. */
  predicate OnArray(types: seq<Type>, tys: seq<TypeId>, d: Data) {
    && |tys| >= 2 && |d.params| >= 2 && LaidArray(types, tys[|tys| - 2])
    && Load(d.mem, Second(d), types[tys[|tys| - 2]].payload).Some? && LoadCount(d.mem, Second(d)).Some?
  }

  lemma {:induction false} Further(size: nat, i: nat, j: nat)
    requires i < j
    ensures size * i + size <= size * j
    decreases j
  {
    assert size * j == size * (j - 1) + size;
    if i < j - 1 { Further(size, i, j - 1); }
  }

  lemma ElementInside(payload: nat, dataOffset: nat, size: nat, capacity: nat, i: nat)
    requires dataOffset + size * capacity <= payload && i < capacity
    ensures TypeLayout.ElemOffset(dataOffset, size, i) + size <= payload
  {
    Further(size, i, capacity);
  }

  lemma ElementsApart(arr: Ptr, dataOffset: nat, size: nat, i: nat, j: nat)
    requires i < j
    ensures Apart(ElementOf(arr, dataOffset, size, j), size, ElementOf(arr, dataOffset, size, i), size)
  {
    Further(size, i, j);
  }

  lemma HeaderApart(arr: Ptr, dataOffset: nat, size: nat, i: nat)
    requires COUNT_SIZE <= dataOffset
    ensures var p := ElementOf(arr, dataOffset, size, i); Apart(arr, COUNT_SIZE, p, size) && Apart(p, size, arr, COUNT_SIZE)
  {
  }

  /** Pushing to an array of length n: it crashes when the array is full, and otherwise the
      array is one longer, the pushed cells are its element n, all elements before are as they
      were, and nothing outside the array changes. */
  lemma ArrPushResult(types: seq<Type>, tys: seq<TypeId>, d: Data, n: nat)
    requires OnArray(types, tys, d) && tys[|tys| - 1] == types[tys[|tys| - 2]].kind.elem
    requires LoadCount(d.mem, Second(d)) == Some(n) && Load(d.mem, Top(d), types[tys[|tys| - 1]].payload).Some?
    ensures var KArray(elem, capacity, dataOffset) := types[tys[|tys| - 2]].kind;
      var arr, size, res := Second(d), types[elem].payload, OpArray(types, ArrPush, tys, d);
      && (n >= capacity ==> res.out == Crashed && res.d == Crashing(Pop(d, 1), VM_ARRAY_CAPACITY))
      && (n < capacity ==>
          && res.out == Normal && res.d == d.(mem := res.d.mem, params := d.params[..|d.params| - 1]) && res.tys == tys[..|tys| - 1]
          && LoadCount(res.d.mem, arr) == Some(n + 1)
          && Load(res.d.mem, ElementOf(arr, dataOffset, size, n), size) == Load(d.mem, Top(d), size)
          && (forall i: nat :: i < n ==> Load(res.d.mem, ElementOf(arr, dataOffset, size, i), size) == Load(d.mem, ElementOf(arr, dataOffset, size, i), size))
          && OnlyAt(d.mem, res.d.mem, arr, types[tys[|tys| - 2]].payload))
  {
    hide Load, LoadCount, StoreCount, Store, OnlyAt, Open;
    var KArray(elem, capacity, dataOffset) := types[tys[|tys| - 2]].kind;
    var arr, size, payload := Second(d), types[elem].payload, types[tys[|tys| - 2]].payload;
    if n < capacity {
      var cells := Load(d.mem, Top(d), size).value;
      LoadedIsOpen(d.mem, Top(d), size);
      ElementIs(arr, dataOffset, size, n);
      var m1, m2 := PushInto(d.mem, arr, payload, dataOffset, size, capacity, n, cells);
      hide ElementOf;
      assert OpArray(types, ArrPush, tys, d) == OpRes(Normal, Pop(d, 1).(mem := m2), tys[..|tys| - 1]);
    }
  }

  lemma LoadedIsOpen(m: Mem, p: Ptr, n: nat)
    requires Load(m, p, n).Some?
    ensures Open(Load(m, p, n).value) && |Load(m, p, n).value| == n
  {
  }

  /** Storing an element and then the length. */
  lemma PushInto(m: Mem, arr: Ptr, payload: nat, dataOffset: nat, size: nat, capacity: nat, n: nat, cells: seq<Cell>) returns (m1: Mem, m2: Mem)
    requires Load(m, arr, payload).Some? && COUNT_SIZE <= dataOffset && dataOffset + size * capacity <= payload
    requires n < capacity < TWO32 && |cells| == size && Open(cells)
    ensures Store(m, ElementOf(arr, dataOffset, size, n), cells) == Some(m1) && StoreCount(m1, arr, n + 1) == Some(m2)
    ensures LoadCount(m2, arr) == Some(n + 1) && Load(m2, ElementOf(arr, dataOffset, size, n), size) == Some(cells)
    ensures forall i: nat :: i < n ==> Load(m2, ElementOf(arr, dataOffset, size, i), size) == Load(m, ElementOf(arr, dataOffset, size, i), size)
    ensures OnlyAt(m, m2, arr, payload)
  {
    hide Load, LoadCount, Store, StoreCount, OnlyAt, TypeLayout.ElemOffset;
    var at := TypeLayout.ElemOffset(dataOffset, size, n);
    var p := ElementOf(arr, dataOffset, size, n);
    ElementInside(payload, dataOffset, size, capacity, n);
    LoadPart(m, arr, payload, at, size);
    StoreWorks(m, p, cells);
    m1 := Store(m, p, cells).value;
    LoadStored(m, p, cells);
    StoredOnly(m, p, cells);
    LoadPart(m, arr, payload, 0, COUNT_SIZE);
    assert Behind(arr, 0) == arr;
    HeaderApart(arr, dataOffset, size, n);
    LoadElsewhere(m, p, cells, arr, COUNT_SIZE);
    CountStored(m1, arr, n + 1);
    m2 := StoreCount(m1, arr, n + 1).value;
    OnlyAtMeans(m1, m2, arr, COUNT_SIZE, p, size);
    forall i: nat | i < n
      ensures Load(m2, ElementOf(arr, dataOffset, size, i), size) == Load(m, ElementOf(arr, dataOffset, size, i), size)
    {
      ElementsApart(arr, dataOffset, size, i, n);
      HeaderApart(arr, dataOffset, size, i);
      LoadElsewhere(m, p, cells, ElementOf(arr, dataOffset, size, i), size);
      OnlyAtMeans(m1, m2, arr, COUNT_SIZE, ElementOf(arr, dataOffset, size, i), size);
    }
    OnlyTwice(m, m1, m2, arr, payload, at, size, 0, COUNT_SIZE);
  }

  lemma StoreWorks(m: Mem, p: Ptr, cells: seq<Cell>)
    requires Load(m, p, |cells|).Some?
    ensures Store(m, p, cells).Some?
  {
  }

  lemma OnlyAtMeans(m: Mem, m1: Mem, p: Ptr, n: nat, q: Ptr, k: nat)
    requires OnlyAt(m, m1, p, n) && Apart(p, n, q, k)
    ensures Load(m1, q, k) == Load(m, q, k)
  {
  }

  /** Asking an array of length n for element x: it crashes exactly when x is negative or its low
      32 bits are n or more, and otherwise gives the place of element x and changes nothing
      else. Of what is given, exactly the elements below 2^32 lie in the array. */
  lemma ArrAtResult(types: seq<Type>, tys: seq<TypeId>, d: Data, n: nat, x: int)
    requires OnArray(types, tys, d) && tys[|tys| - 1] == INT && LoadNum(d.mem, Top(d)) == Some(x)
    requires LoadCount(d.mem, Second(d)) == Some(n) && n <= types[tys[|tys| - 2]].kind.capacity
    ensures var KArray(elem, capacity, dataOffset) := types[tys[|tys| - 2]].kind;
      var res := OpArray(types, ArrAt, tys, d);
      && (res.out == Crashed <==> x < 0 || x % TWO32 >= n)
      && (res.out == Crashed ==> res.d == Crashing(Pop(d, 1), VM_ARRAY_BOUNDS))
      && (res.out == Normal <==> x >= 0 && x % TWO32 < n)
      && (res.out == Normal ==>
          && res.d == d.(params := d.params[..|d.params| - 2] + [ElementOf(Second(d), dataOffset, types[elem].payload, x)])
          && res.tys == tys[..|tys| - 2] + [elem]
          && (x < n <==> x < TWO32))
  {
    CountIsSmall(d.mem, Second(d));
    hide Load, LoadCount, LoadNum;
    if x >= 0 { ElementIs(Second(d), types[tys[|tys| - 2]].kind.dataOffset, types[types[tys[|tys| - 2]].kind.elem].payload, x); }
  }

  /** An element below 2^32 that the array has. */
  lemma AskedFor(types: seq<Type>, tys: seq<TypeId>, d: Data, n: nat, x: nat)
    requires |tys| >= 2 && |d.params| >= 2 && LaidArray(types, tys[|tys| - 2]) && tys[|tys| - 1] == INT
    requires LoadNum(d.mem, Top(d)) == Some(x) && LoadCount(d.mem, Second(d)) == Some(n)
    requires x < n <= types[tys[|tys| - 2]].kind.capacity
    ensures var KArray(elem, capacity, dataOffset) := types[tys[|tys| - 2]].kind;
      var res := OpArray(types, ArrAt, tys, d);
      && res.out == Normal && res.d.mem == d.mem
      && res.d.params == d.params[..|d.params| - 2] + [ElementOf(Second(d), dataOffset, types[elem].payload, x)]
  {
    hide Load, LoadCount, LoadNum, ElementOf;
    SmallIndex(x);
    ElementIs(Second(d), types[tys[|tys| - 2]].kind.dataOffset, types[types[tys[|tys| - 2]].kind.elem].payload, x);
  }

  /** What was pushed to an array of length n is what its element n is then asked for. */
  lemma PushedIsFound(types: seq<Type>, tys: seq<TypeId>, d: Data, n: nat, tys1: seq<TypeId>, e: Data)
    requires OnArray(types, tys, d) && tys[|tys| - 1] == types[tys[|tys| - 2]].kind.elem
    requires LoadCount(d.mem, Second(d)) == Some(n) && Load(d.mem, Top(d), types[tys[|tys| - 1]].payload).Some?
    requires OpArray(types, ArrPush, tys, d).out == Normal
    requires |tys1| >= 2 && |e.params| >= 2 && tys1[|tys1| - 2] == tys[|tys| - 2] && tys1[|tys1| - 1] == INT
    requires e.mem == OpArray(types, ArrPush, tys, d).d.mem && Second(e) == Second(d) && LoadNum(e.mem, Top(e)) == Some(n)
    ensures var res, size := OpArray(types, ArrAt, tys1, e), types[tys[|tys| - 1]].payload;
      res.out == Normal && |res.d.params| > 0 && Load(res.d.mem, Top(res.d), size) == Load(d.mem, Top(d), size)
  {
    hide Load, LoadCount, LoadNum, OnlyAt, ElementOf, Store, StoreCount;
    ArrPushResult(types, tys, d, n);
    var KArray(elem, capacity, dataOffset) := types[tys[|tys| - 2]].kind;
    assert n < capacity;
    SmallIndex(n);
    hide OpArray;
    AskedFor(types, tys1, e, n + 1, n);
  }

  /** Dropping x elements of n: refused when x is negative or its low 32 bits are more than n,
      and otherwise only the length changes. */
  lemma ArrDropResult(types: seq<Type>, tys: seq<TypeId>, d: Data, n: nat, x: int)
    requires OnArray(types, tys, d) && tys[|tys| - 1] == INT && LoadNum(d.mem, Top(d)) == Some(x)
    requires LoadCount(d.mem, Second(d)) == Some(n)
    ensures var res := OpArray(types, ArrDrop, tys, d);
      && (res.out == Crashed <==> x < 0 || x % TWO32 > n)
      && (res.out == Crashed ==> res.d == Crashing(Pop(d, 1), VM_ARRAY_UNDERFLOW))
      && (res.out == Normal <==> x >= 0 && x % TWO32 <= n)
      && (res.out == Normal ==>
          && res.d == d.(mem := res.d.mem, params := d.params[..|d.params| - 1]) && res.tys == tys[..|tys| - 1]
          && LoadCount(res.d.mem, Second(d)) == Some(n - x % TWO32)
          && OnlyAt(d.mem, res.d.mem, Second(d), COUNT_SIZE))
  {
    hide Load, LoadCount, LoadNum, StoreCount, OnlyAt;
    CountIsSmall(d.mem, Second(d));
    CapacityFits(types, tys[|tys| - 2]);
    LoadFront(d.mem, Second(d), types[tys[|tys| - 2]].payload, COUNT_SIZE);
    if x >= 0 && x % TWO32 <= n { CountStored(d.mem, Second(d), n - x % TWO32); }
  }

  lemma LoadFront(m: Mem, p: Ptr, size: nat, n: nat)
    requires Load(m, p, size).Some? && n <= size
    ensures Load(m, p, n).Some?
  {
    LoadPart(m, p, size, 0, n);
    assert Behind(p, 0) == p;
  }

  lemma CapacityFits(types: seq<Type>, t: nat)
    requires LaidArray(types, t)
    ensures COUNT_SIZE <= types[t].payload
  {
  }

  // ----- slices -----

  /** The slice at p shows len elements from `to` on. */
  predicate SliceIs(m: Mem, p: Ptr, to: Ptr, len: nat) {
    LoadPtr(m, p) == Some(to) && LoadCount(m, Behind(p, PTR_SIZE)) == Some(len)
  }

  lemma PtrStored(m: Mem, p: Ptr, to: Ptr)
    requires !to.Raw? && Load(m, p, PTR_SIZE).Some?
    ensures StorePtr(m, p, to).Some? && LoadPtr(StorePtr(m, p, to).value, p) == Some(to)
    ensures OnlyAt(m, StorePtr(m, p, to).value, p, PTR_SIZE)
  {
    hide OnlyAt;
    var cells := WordCells(Address(to));
    assert Open(cells) && !Plain(cells) by { assert !cells[0].Byte?; }
    LoadStored(m, p, cells);
    StoredOnly(m, p, cells);
  }

  lemma SamePtr(m: Mem, m1: Mem, p: Ptr)
    requires Load(m1, p, PTR_SIZE) == Load(m, p, PTR_SIZE)
    ensures LoadPtr(m1, p) == LoadPtr(m, p)
  {
  }

  /** A slice that was stored is the slice that is read back, in 12 bytes. */
  lemma SliceStored(m: Mem, p: Ptr, to: Ptr, len: nat)
    requires !to.Raw? && len < TWO32 && Load(m, p, TypeLayout.SLICE_SIZE).Some?
    ensures StoreSlice(m, p, to, len).Some? && SliceIs(StoreSlice(m, p, to, len).value, p, to, len)
    ensures OnlyAt(m, StoreSlice(m, p, to, len).value, p, TypeLayout.SLICE_SIZE)
  {
    hide Load, LoadPtr, LoadCount, StorePtr, StoreCount, OnlyAt;
    assert Behind(p, 0) == p;
    LoadPart(m, p, TypeLayout.SLICE_SIZE, 0, PTR_SIZE);
    LoadPart(m, p, TypeLayout.SLICE_SIZE, PTR_SIZE, COUNT_SIZE);
    PtrStored(m, p, to);
    PtrAddIs(p, SLICE_LEN_OFFSET);
    var m1, q := StorePtr(m, p, to).value, Behind(p, PTR_SIZE);
    OnlyAtMeans(m, m1, p, PTR_SIZE, q, COUNT_SIZE);
    CountStored(m1, q, len);
    var m2 := StoreCount(m1, q, len).value;
    OnlyAtMeans(m1, m2, q, COUNT_SIZE, p, PTR_SIZE);
    SamePtr(m1, m2, p);
    OnlyTwice(m, m1, m2, p, TypeLayout.SLICE_SIZE, 0, PTR_SIZE, PTR_SIZE, COUNT_SIZE);
  }

  predicate IsRef(types: seq<Type>, t: nat) { t < |types| && (types[t].kind.KSlice? || types[t].kind.KView?) && types[t].kind.elem < |types| }

  /** The slice on the stack, in memory. */
  predicate OnSlice(types: seq<Type>, tys: seq<TypeId>, d: Data) {
    && |tys| >= 2 && |d.params| >= 2 && IsRef(types, tys[|tys| - 2])
    && Load(d.mem, Second(d), TypeLayout.SLICE_SIZE).Some?
  }

  /** A slice or view made of an array of length n shows its n elements. */
  lemma SliceFromArResult(types: seq<Type>, tys: seq<TypeId>, d: Data, n: nat)
    requires OnSlice(types, tys, d) && LaidArray(types, tys[|tys| - 1]) && types[tys[|tys| - 1]].kind.elem == types[tys[|tys| - 2]].kind.elem
    requires LoadCount(d.mem, Top(d)) == Some(n)
    ensures var t := types[tys[|tys| - 1]].kind;
      var res := OpSlice(types, SliceFromAr, tys, d);
      && res.out == Normal && res.d == d.(mem := res.d.mem, params := d.params[..|d.params| - 1]) && res.tys == tys[..|tys| - 1]
      && SliceIs(res.d.mem, Second(d), ElementOf(Top(d), t.dataOffset, types[t.elem].payload, 0), n)
      && OnlyAt(d.mem, res.d.mem, Second(d), TypeLayout.SLICE_SIZE)
  {
    var t := types[tys[|tys| - 1]].kind;
    CountIsSmall(d.mem, Top(d));
    ElementIs(Top(d), t.dataOffset, types[t.elem].payload, 0);
    PtrAddIs(Top(d), t.dataOffset);
    assert ElementOf(Top(d), t.dataOffset, types[t.elem].payload, 0) == PtrAdd(Top(d), t.dataOffset);
    SliceStored(d.mem, Second(d), PtrAdd(Top(d), t.dataOffset), n);
    hide LoadCount, StoreSlice, OnlyAt, SliceIs;
  }

  /** A slice made of one element shows that one. */
  lemma SliceFromOneResult(types: seq<Type>, tys: seq<TypeId>, d: Data)
    requires OnSlice(types, tys, d) && types[tys[|tys| - 2]].kind.KSlice? && types[tys[|tys| - 2]].kind.elem == tys[|tys| - 1] && !Top(d).Raw?
    ensures var res := OpSlice(types, SliceFromOne, tys, d);
      && res.out == Normal && res.d == d.(mem := res.d.mem, params := d.params[..|d.params| - 1]) && res.tys == tys[..|tys| - 1]
      && SliceIs(res.d.mem, Second(d), Top(d), 1) && OnlyAt(d.mem, res.d.mem, Second(d), TypeLayout.SLICE_SIZE)
  {
    SliceStored(d.mem, Second(d), Top(d), 1);
    hide StoreSlice, OnlyAt, SliceIs;
  }

  /** Asking a slice of len elements for element x: it crashes exactly when x is negative or its
      low 32 bits are len or more, and otherwise gives the place x elements behind the first. */
  lemma SliceAtResult(types: seq<Type>, tys: seq<TypeId>, d: Data, to: Ptr, len: nat, x: int)
    requires OnSlice(types, tys, d) && tys[|tys| - 1] == INT && LoadNum(d.mem, Top(d)) == Some(x) && SliceIs(d.mem, Second(d), to, len)
    ensures var elem := types[tys[|tys| - 2]].kind.elem;
      var res := OpSlice(types, SliceAt, tys, d);
      && (res.out == Crashed <==> x < 0 || x % TWO32 >= len)
      && (res.out == Crashed ==> res.d == Crashing(Pop(d, 1), VM_ARRAY_BOUNDS))
      && (res.out == Normal <==> x >= 0 && x % TWO32 < len)
      && (res.out == Normal ==>
          && res.d == d.(params := d.params[..|d.params| - 2] + [ElementOf(to, 0, types[elem].payload, x)])
          && res.tys == tys[..|tys| - 2] + [elem]
          && (x < len <==> x < TWO32))
  {
    CountIsSmall(d.mem, Behind(Second(d), PTR_SIZE));
    hide Load, LoadCount, LoadPtr, LoadNum;
    PtrAddIs(Second(d), SLICE_LEN_OFFSET);
    if x >= 0 { ElementIs(to, 0, types[types[tys[|tys| - 2]].kind.elem].payload, x); }
  }

  /** Element x of a slice made of an array is element x of the array. */
  lemma SliceOfArray(types: seq<Type>, tys: seq<TypeId>, d: Data, n: nat, tys1: seq<TypeId>, e: Data, x: nat)
    requires OnSlice(types, tys, d) && LaidArray(types, tys[|tys| - 1]) && types[tys[|tys| - 1]].kind.elem == types[tys[|tys| - 2]].kind.elem
    requires LoadCount(d.mem, Top(d)) == Some(n) && x < n
    requires OnSlice(types, tys1, e) && tys1[|tys1| - 2] == tys[|tys| - 2] && tys1[|tys1| - 1] == INT
    requires e.mem == OpSlice(types, SliceFromAr, tys, d).d.mem && Second(e) == Second(d) && LoadNum(e.mem, Top(e)) == Some(x)
    ensures var t := types[tys[|tys| - 1]].kind;
      var res := OpSlice(types, SliceAt, tys1, e);
      res.out == Normal && |res.d.params| > 0 && Top(res.d) == ElementOf(Top(d), t.dataOffset, types[t.elem].payload, x)
  {
    SliceFromArResult(types, tys, d, n);
    CountIsSmall(d.mem, Top(d));
    SmallIndex(x);
    hide Load, LoadCount, LoadPtr, LoadNum, OpSlice, OnlyAt, SliceIs, ElementOf, LaidArray;
    var t := types[tys[|tys| - 1]].kind;
    var size := types[t.elem].payload;
    SliceAtResult(types, tys1, e, ElementOf(Top(d), t.dataOffset, size, 0), n, x);
    ElementOfElement(Top(d), t.dataOffset, size, x);
  }

  lemma SmallIndex(x: nat)
    requires x < TWO32
    ensures x % TWO32 == x
  {
  }

  lemma ElementOfElement(arr: Ptr, dataOffset: nat, size: nat, x: nat)
    ensures ElementOf(ElementOf(arr, dataOffset, size, 0), 0, size, x) == ElementOf(arr, dataOffset, size, x)
  {
    assert size * 0 == 0;
  }

  /** Moving the front of a slice by x elements, its length staying as it is, or making it x
      elements shorter; refused when x is negative or its low 32 bits are more than its length. */
  lemma SliceMoveResult(types: seq<Type>, op: Op, tys: seq<TypeId>, d: Data, to: Ptr, len: nat, x: int)
    requires op.SliceInc? || op.SliceDec?
    requires OnSlice(types, tys, d) && types[tys[|tys| - 2]].kind.KSlice? && tys[|tys| - 1] == INT
    requires LoadNum(d.mem, Top(d)) == Some(x) && SliceIs(d.mem, Second(d), to, len) && !to.Raw?
    ensures var res, size := OpSlice(types, op, tys, d), types[types[tys[|tys| - 2]].kind.elem].payload;
      && (res.out == Crashed <==> x < 0 || x % TWO32 > len)
      && (res.out == Crashed ==> res.d == Crashing(Pop(d, 1), VM_ARRAY_BOUNDS))
      && (res.out == Normal <==> x >= 0 && x % TWO32 <= len)
      && (res.out == Normal ==>
          && res.d == d.(mem := res.d.mem, params := d.params[..|d.params| - 1]) && res.tys == tys[..|tys| - 1]
          && OnlyAt(d.mem, res.d.mem, Second(d), TypeLayout.SLICE_SIZE)
          && if op.SliceInc? then SliceIs(res.d.mem, Second(d), ElementOf(to, 0, size, x), len)
             else SliceIs(res.d.mem, Second(d), to, len - x % TWO32))
  {
    hide Load, LoadCount, LoadPtr, LoadNum, StorePtr, StoreCount, OnlyAt, ElementOf;
    var p, size := Second(d), types[types[tys[|tys| - 2]].kind.elem].payload;
    CountIsSmall(d.mem, Behind(p, PTR_SIZE));
    PtrAddIs(p, SLICE_LEN_OFFSET);
    if x >= 0 && x % TWO32 <= len {
      if op.SliceInc? {
        ElementIs(to, 0, size, x);
        FrontMoved(d.mem, p, to, len, Elem(to, size, x));
      } else {
        LengthChanged(d.mem, p, to, len, len - x % TWO32);
      }
    }
  }

  lemma FrontMoved(m: Mem, p: Ptr, to: Ptr, len: nat, to1: Ptr)
    requires Load(m, p, TypeLayout.SLICE_SIZE).Some? && SliceIs(m, p, to, len) && !to1.Raw?
    ensures StorePtr(m, p, to1).Some? && SliceIs(StorePtr(m, p, to1).value, p, to1, len)
    ensures OnlyAt(m, StorePtr(m, p, to1).value, p, TypeLayout.SLICE_SIZE)
  {
    hide Load, LoadCount, LoadPtr, StorePtr, OnlyAt;
    LoadFront(m, p, TypeLayout.SLICE_SIZE, PTR_SIZE);
    PtrStored(m, p, to1);
    var m1 := StorePtr(m, p, to1).value;
    OnlyAtMeans(m, m1, p, PTR_SIZE, Behind(p, PTR_SIZE), COUNT_SIZE);
    SameCount(m, m1, Behind(p, PTR_SIZE));
    assert Behind(p, 0) == p;
    OnlyOnce(m, m1, p, TypeLayout.SLICE_SIZE, 0, PTR_SIZE);
  }

  lemma LengthChanged(m: Mem, p: Ptr, to: Ptr, len: nat, len1: nat)
    requires Load(m, p, TypeLayout.SLICE_SIZE).Some? && SliceIs(m, p, to, len) && len1 < TWO32
    ensures StoreCount(m, Behind(p, PTR_SIZE), len1).Some? && SliceIs(StoreCount(m, Behind(p, PTR_SIZE), len1).value, p, to, len1)
    ensures OnlyAt(m, StoreCount(m, Behind(p, PTR_SIZE), len1).value, p, TypeLayout.SLICE_SIZE)
  {
    hide Load, LoadCount, LoadPtr, StoreCount, OnlyAt;
    LoadPart(m, p, TypeLayout.SLICE_SIZE, PTR_SIZE, COUNT_SIZE);
    CountStored(m, Behind(p, PTR_SIZE), len1);
    var m1 := StoreCount(m, Behind(p, PTR_SIZE), len1).value;
    OnlyAtMeans(m, m1, Behind(p, PTR_SIZE), COUNT_SIZE, p, PTR_SIZE);
    SamePtr(m, m1, p);
    OnlyOnce(m, m1, p, TypeLayout.SLICE_SIZE, PTR_SIZE, COUNT_SIZE);
  }

  // ----- structs and copies -----

  /** A field is found at its offset. */
  lemma FieldResult(types: seq<Type>, field: nat, tys: seq<TypeId>, d: Data)
    requires |tys| >= 1 && |d.params| >= 1 && tys[|tys| - 1] < |types| && types[tys[|tys| - 1]].kind.KStruct?
    requires field < |types[tys[|tys| - 1]].kind.fields| && types[tys[|tys| - 1]].kind.fields[field].tid < |types|
    ensures var f := types[tys[|tys| - 1]].kind.fields[field];
      OpField(types, field, tys, d) == OpRes(Normal, d.(params := d.params[..|d.params| - 1] + [Behind(Top(d), f.offset)]), tys[..|tys| - 1] + [f.tid])
  {
  }

  /** A copy is what was at its source before, and nothing outside it changes. */
  lemma AssignResult(types: seq<Type>, tys: seq<TypeId>, d: Data)
    requires |tys| >= 2 && |d.params| >= 2 && tys[|tys| - 1] == tys[|tys| - 2] < |types|
    requires Load(d.mem, Top(d), types[tys[|tys| - 1]].payload).Some? && Load(d.mem, Second(d), types[tys[|tys| - 1]].payload).Some?
    ensures var res, size := OpValue(types, Assign, tys, d), types[tys[|tys| - 1]].payload;
      && res.out == Normal && res.d == d.(mem := res.d.mem, params := d.params[..|d.params| - 1]) && res.tys == tys[..|tys| - 1]
      && Load(res.d.mem, Second(d), size) == Load(d.mem, Top(d), size) && OnlyAt(d.mem, res.d.mem, Second(d), size)
  {
    var size := types[tys[|tys| - 1]].payload;
    var cells := Load(d.mem, Top(d), size).value;
    LoadedIsOpen(d.mem, Top(d), size);
    assert Store(d.mem, Second(d), cells).Some?;
    LoadStored(d.mem, Second(d), cells);
    StoredOnly(d.mem, Second(d), cells);
    hide Load, Store, OnlyAt;
  }

  // ----- fresh variables -----

  /** A variable that has just been put on the storage reads as zero: an int is 0, and an array or
      slice has no elements. Nothing else changes. */
  lemma FreshIsZero(d: Data, size: nat, i: nat)
    ensures var e, v := Grow(d, size, Byte(0)), Stor(|d.mem.storage|);
      && (i + NUM_SIZE <= size ==> LoadNum(e.mem, Behind(v, i)) == Some(0))
      && (i + COUNT_SIZE <= size ==> LoadCount(e.mem, Behind(v, i)) == Some(0))
      && forall q, k :: Load(d.mem, q, k).Some? ==> Load(e.mem, q, k) == Load(d.mem, q, k)
  {
    var e, v := Grow(d, size, Byte(0)), Stor(|d.mem.storage|);
    ZeroValue(NUM_SIZE);
    ZeroValue(COUNT_SIZE);
    if i + COUNT_SIZE <= size { ZeroLoads(d, size, i, COUNT_SIZE); }
    if i + NUM_SIZE <= size { ZeroLoads(d, size, i, NUM_SIZE); }
    forall q, k | Load(d.mem, q, k).Some? ensures Load(e.mem, q, k) == Load(d.mem, q, k) {
      if q.Stor? { assert e.mem.storage[q.off..q.off + k] == d.mem.storage[q.off..q.off + k]; }
    }
  }

  lemma ZeroLoads(d: Data, size: nat, i: nat, n: nat)
    requires i + n <= size
    ensures LoadUnsigned(Grow(d, size, Byte(0)).mem, Behind(Stor(|d.mem.storage|), i), n) == Some(Value(seq(n, _ => 0)))
  {
    var e, at := Grow(d, size, Byte(0)), |d.mem.storage| + i;
    var cells := e.mem.storage[at..at + n];
    assert forall k :: 0 <= k < n ==> cells[k] == Byte(0);
    assert AsDigits(cells) == seq(n, _ => 0);
  }

  lemma {:induction false} ZeroValue(n: nat)
    ensures Value(seq(n, _ => 0)) == 0
  {
    if n > 0 {
      assert seq(n, _ => 0)[1..] == seq(n - 1, _ => 0);
      ZeroValue(n - 1);
    }
  }

  // ----- types as they are laid out -----

  /** The types of a program, from their layouts. */
  function TypesOf(rows: seq<TypeLayout.Row>): seq<Type> {
    seq(|rows|, i requires 0 <= i < |rows| => Type(rows[i].kind, rows[i].payload, rows[i].size))
  }

  lemma ArraysAreLaid(rows: seq<TypeLayout.Row>, order: seq<nat>, t: nat)
    requires TypeLayout.InOrder(rows, order) && t in order && t < |rows| && rows[t].kind.KArray? && rows[t].kind.capacity < TWO32
    ensures LaidArray(TypesOf(rows), t)
  {
    hide TypeLayout.AlignUp, TypeLayout.InOrder;
    TypeLayout.ArrayLayout(rows, order, t);
    var a := rows[t].kind;
    TypeLayout.AlignUpMeans(COUNT_SIZE, rows[a.elem].align);
    TypeLayout.AlignUpMeans(a.dataOffset + rows[a.elem].payload * a.capacity, rows[t].align);
  }

  /** What is stored in one field of a struct does not change another. */
  lemma FieldsKeepApart(rows: seq<TypeLayout.Row>, order: seq<nat>, t: nat, i: nat, j: nat, p: Ptr, m: Mem, m1: Mem)
    requires TypeLayout.InOrder(rows, order) && t in order && t < |rows| && rows[t].kind.KStruct?
    requires i < |rows[t].kind.fields| && j < |rows[t].kind.fields| && i != j
    requires rows[t].kind.fields[i].tid < |rows| && rows[t].kind.fields[j].tid < |rows|
    requires var f := rows[t].kind.fields[i]; OnlyAt(m, m1, Behind(p, f.offset), rows[f.tid].payload)
    ensures var f := rows[t].kind.fields[j];
      Load(m1, Behind(p, f.offset), rows[f.tid].payload) == Load(m, Behind(p, f.offset), rows[f.tid].payload)
  {
    hide TypeLayout.InOrder, Load, OnlyAt;
    TypeLayout.StructFieldsApart(rows, order, t, i);
    TypeLayout.StructFieldsApart(rows, order, t, j);
    var f, g := rows[t].kind.fields[i], rows[t].kind.fields[j];
    OnlyAtMeans(m, m1, Behind(p, f.offset), rows[f.tid].payload, Behind(p, g.offset), rows[g.tid].payload);
  }

  // ----- an index beyond 32 bits -----

  /** An array of one byte, and behind it a number. */
  function OneByte(x: int): Option<Mem> {
    var blank := Mem(seq(16, i => Byte(0)), [], []);
    match StoreCount(blank, Stor(0), 1)
    case None => None
    case Some(m) => StoreNum(m, Stor(8), x)
  }

  function ByteTypes(): seq<Type> { [Type(KInt, 8, 8), Type(KByte, 1, 8), Type(KArray(1, 1, 4), 8, 8)] }

  /** The index 2^32 passes for 0: the array gives a place far outside of the storage. */
  lemma FarIndexIsTaken()
    ensures OneByte(TWO32).Some? && LaidArray(ByteTypes(), 2)
    ensures var d := Data(OneByte(TWO32).value, [Stor(0), Stor(8)], VM_OK, []);
      && LoadNum(d.mem, Stor(8)) == Some(TWO32) && LoadCount(d.mem, Stor(0)) == Some(1)
      && OpArray(ByteTypes(), ArrAt, [2, INT], d) == OpRes(Normal, d.(params := [Stor(4 + TWO32)]), [1])
      && |d.mem.storage| == 16
  {
    var blank := Mem(seq(16, i => Byte(0)), [], []);
    Blank(blank);
    CountStored(blank, Stor(0), 1);
    var m := StoreCount(blank, Stor(0), 1).value;
    assert Load(m, Stor(8), NUM_SIZE) == Load(blank, Stor(8), NUM_SIZE) by { OnlyAtMeans(blank, m, Stor(0), COUNT_SIZE, Stor(8), NUM_SIZE); }
    assert Load(m, Stor(0), 8).Some? by { CountKeeps(blank, m); }
    var cells := AsCells(Digits(TWO32 % TWO64, NUM_SIZE));
    StoreWorks(m, Stor(8), cells);
    NumRoundTrip(m, Stor(8), TWO32);
    var m1 := StoreNum(m, Stor(8), TWO32).value;
    LoadElsewhere(m, Stor(8), cells, Stor(0), COUNT_SIZE);
    LoadElsewhere(m, Stor(8), cells, Stor(0), 8);
    SameCount(m, m1, Stor(0));
    var d := Data(m1, [Stor(0), Stor(8)], VM_OK, []);
    assert d.params[..0] == [] && [2, INT][..0] == [];
    hide Load, LoadCount, LoadNum, StoreCount, StoreNum, OnlyAt;
    ArrAtResult(ByteTypes(), [2, INT], d, 1, TWO32);
  }

  lemma Blank(m: Mem)
    requires m.storage == seq(16, i => Byte(0))
    ensures forall at: nat, n: nat :: at + n <= 16 ==> Load(m, Stor(at), n).Some?
  {
  }

  lemma CountKeeps(m: Mem, m1: Mem)
    requires StoreCount(m, Stor(0), 1) == Some(m1) && Load(m, Stor(0), 8).Some?
    ensures Load(m1, Stor(0), 8).Some? && |m1.storage| == |m.storage|
  {
    StoreKeepsShape(m, Stor(0), AsCells(Digits(1, COUNT_SIZE)));
    forall i | 0 <= i < 8 ensures !m1.storage[i].Saved? { assert m.storage[0..8][i] == m.storage[i]; }
  }
}
