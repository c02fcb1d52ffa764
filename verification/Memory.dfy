/** The memory that both the block tree and the bytecode work on: the byte storage
    of the virtual machine, the memory of the globals, and the pointers into them. */
module Memory {

  const NUM_SIZE: nat := 8
  const COUNT_SIZE: nat := 4
  const PTR_SIZE: nat := 8
  const RETURN_SIZE: nat := 24
  const SLICE_LEN_OFFSET: nat := 8
  const TWO16: int := 0x1_0000
  const TWO32: int := 0x1_0000_0000
  const TWO63: int := 0x8000_0000_0000_0000
  const TWO64: int := 0x1_0000_0000_0000_0000

  type u8 = x: int | 0 <= x < 256

  datatype Option<+T> = None | Some(value: T)

  /** A symbolic address: an offset into the storage, an offset into the memory of one
      global, or a number that points nowhere (null is Raw(0)). */
  datatype Ptr = Stor(off: nat) | Glob(g: nat, off: nat) | Raw(addr: nat)

  /** What a pointer-sized slot can hold apart from plain bytes. */
  datatype Word = Address(p: Ptr) | NativeFn(id: nat)

  /** One byte of memory: a plain byte, the k-th byte of a stored word, or a byte of a
      saved return frame. Ordinary operations never read or write a Saved byte. */
  datatype Cell = Byte(b: u8) | Part(w: Word, k: nat) | Saved

  /** `world` is whatever native callbacks can observe and change. */
  datatype Mem = Mem(storage: seq<Cell>, globals: seq<seq<Cell>>, world: seq<int>)

  datatype VmResult =
    | VM_OK | VM_CRASH | VM_HARD_CRASH
    | VM_OOM_PARAM | VM_OOM_STORAGE | VM_OOM_CRASH
    | VM_PARAM_UNDERFLOW | VM_STORAGE_UNDERFLOW | VM_CRASH_UNDERFLOW | VM_BAD_CRASH_FRAME
    | VM_INVALID_STORAGE_OFFSET | VM_INVALID_ARG | VM_NULL_GLOBAL
    | VM_ARRAY_BOUNDS | VM_DIV_BY_ZERO | VM_ARRAY_CAPACITY | VM_ARRAY_UNDERFLOW
    | VM_NULL_CALL_TARGET | VM_NULL_NATIVE_FUNC | VM_INVALID_BYTECODE
    // Not result codes: the C program has no defined behaviour here.
    | UNDEFINED  // an operand is no data of the kind wanted, or a native misbehaves
    | ASTRAY     // control leaves the code, or a saved return frame is cut or misread

  // ----- reading and writing cells -----

  predicate Plain(cells: seq<Cell>) {
    forall i :: 0 <= i < |cells| ==> cells[i].Byte?
  }

  predicate Open(cells: seq<Cell>) {
    forall i :: 0 <= i < |cells| ==> !cells[i].Saved?
  }

  function Load(m: Mem, p: Ptr, n: nat): Option<seq<Cell>> {
    match p
    case Stor(o) =>
      if o + n <= |m.storage| && Open(m.storage[o..o + n]) then Some(m.storage[o..o + n]) else None
    case Glob(g, o) =>
      if g < |m.globals| && o + n <= |m.globals[g]| && Open(m.globals[g][o..o + n])
      then Some(m.globals[g][o..o + n]) else None
    case Raw(_) => None
  }

  function Overwrite(s: seq<Cell>, at: nat, cells: seq<Cell>): (r: seq<Cell>)
    requires at + |cells| <= |s|
    ensures |r| == |s|
  {
    s[..at] + cells + s[at + |cells|..]
  }

  function Store(m: Mem, p: Ptr, cells: seq<Cell>): Option<Mem> {
    if Load(m, p, |cells|).None? then None else
    match p
    case Stor(o) => Some(m.(storage := Overwrite(m.storage, o, cells)))
    case Glob(g, o) => Some(m.(globals := m.globals[g := Overwrite(m.globals[g], o, cells)]))
    case Raw(_) => None
  }

  function PtrAdd(p: Ptr, n: nat): Ptr {
    match p
    case Stor(o) => Stor(o + n)
    case Glob(g, o) => Glob(g, o + n)
    case Raw(a) => Raw(a + n)
  }

  /** The address of element idx of the elements that start at p. */
  function Elem(p: Ptr, size: nat, idx: nat): Ptr { PtrAdd(p, size * idx) }

  // ----- numbers in memory, little endian -----

  function Digits(n: nat, k: nat): (r: seq<u8>)
    ensures |r| == k
  {
    if k == 0 then [] else [n % 256] + Digits(n / 256, k - 1)
  }

  function Value(ds: seq<u8>): nat {
    if |ds| == 0 then 0 else ds[0] + 256 * Value(ds[1..])
  }

  function Pow256(k: nat): nat {
    if k == 0 then 1 else 256 * Pow256(k - 1)
  }

  lemma {:induction false} DigitsRoundTrip(n: nat, k: nat)
    requires n < Pow256(k)
    ensures Value(Digits(n, k)) == n
  {
    if k > 0 {
      DigitsRoundTrip(n / 256, k - 1);
      assert Digits(n, k)[1..] == Digits(n / 256, k - 1);
    }
  }

  lemma PowValues()
    ensures Pow256(2) == TWO16 && Pow256(4) == TWO32 && Pow256(8) == TWO64
  {
    assert Pow256(1) == 256 * Pow256(0);
    assert Pow256(2) == 256 * Pow256(1);
    assert Pow256(3) == 256 * Pow256(2);
    assert Pow256(4) == 256 * Pow256(3);
    assert Pow256(5) == 256 * Pow256(4);
    assert Pow256(6) == 256 * Pow256(5);
    assert Pow256(7) == 256 * Pow256(6);
    assert Pow256(8) == 256 * Pow256(7);
  }

  function AsCells(ds: seq<u8>): (r: seq<Cell>)
    ensures |r| == |ds|
  {
    seq(|ds|, i requires 0 <= i < |ds| => Byte(ds[i]))
  }

  function AsDigits(cells: seq<Cell>): (r: seq<u8>)
    requires Plain(cells)
    ensures |r| == |cells|
  {
    seq(|cells|, i requires 0 <= i < |cells| => cells[i].b)
  }

  function LoadUnsigned(m: Mem, p: Ptr, n: nat): Option<nat> {
    var cells := Load(m, p, n);
    if cells.Some? && Plain(cells.value) then Some(Value(AsDigits(cells.value))) else None
  }

  /** The int64 whose two's complement bit pattern is n modulo 2^64. */
  function Wrap(n: int): int {
    var u := n % TWO64;
    if u < TWO63 then u else u - TWO64
  }

  function LoadNum(m: Mem, p: Ptr): Option<int> {
    match LoadUnsigned(m, p, NUM_SIZE)
    case None => None
    case Some(u) => Some(Wrap(u))
  }

  function StoreNum(m: Mem, p: Ptr, x: int): Option<Mem> {
    Store(m, p, AsCells(Digits(x % TWO64, NUM_SIZE)))
  }

  function LoadCount(m: Mem, p: Ptr): Option<nat> {
    LoadUnsigned(m, p, COUNT_SIZE)
  }

  function StoreCount(m: Mem, p: Ptr, x: nat): Option<Mem> {
    Store(m, p, AsCells(Digits(x % TWO32, COUNT_SIZE)))
  }

  /** The eight cells that hold a stored word. */
  function WordCells(w: Word): seq<Cell> {
    seq(PTR_SIZE, i requires 0 <= i < PTR_SIZE => Part(w, i))
  }

  function StorePtr(m: Mem, p: Ptr, q: Ptr): Option<Mem> {
    Store(m, p, if q.Raw? then AsCells(Digits(q.addr % TWO64, PTR_SIZE)) else WordCells(Address(q)))
  }

  function LoadPtr(m: Mem, p: Ptr): Option<Ptr> {
    match Load(m, p, PTR_SIZE)
    case None => None
    case Some(cells) =>
      if Plain(cells) then Some(Raw(Value(AsDigits(cells))))
      else if cells[0].Part? && cells[0].w.Address? && cells == WordCells(cells[0].w) then Some(cells[0].w.p)
      else None
  }

  /** A function pointer: `Some(None)` is the null pointer. */
  function LoadFn(m: Mem, p: Ptr): Option<Option<nat>> {
    match Load(m, p, PTR_SIZE)
    case None => None
    case Some(cells) =>
      if cells[0].Part? && cells[0].w.NativeFn? && cells == WordCells(cells[0].w) then Some(Some(cells[0].w.id))
      else if Plain(cells) && Value(AsDigits(cells)) == 0 then Some(None)
      else None
  }

  // ----- 64 bit arithmetic -----

  datatype Arith = Add | Sub | Mul | Div | And | Or | Xor

  /** C division: the quotient is rounded towards zero. */
  function TruncDiv(l: int, r: int): int
    requires r != 0
  {
    var q := (if l < 0 then -l else l) / (if r < 0 then -r else r);
    if (l < 0) == (r < 0) then q else -q
  }

  function Bitwise(a: Arith, l: nat, r: nat, bits: nat): nat {
    if bits == 0 then 0 else
    var x, y := l % 2, r % 2;
    var b := match a
      case And => x * y
      case Or => if x + y > 0 then 1 else 0
      case _ => (x + y) % 2;
    b + 2 * Bitwise(a, l / 2, r / 2, bits - 1)
  }

  /** The one quotient that is no int64; C leaves it undefined, and machines trap on it. */
  predicate QuotientOverflows(a: Arith, l: int, r: int) { a.Div? && l == -TWO63 && r == -1 }

  function Compute(a: Arith, l: int, r: int): int
    requires a.Div? ==> r != 0
  {
    match a
    case Add => Wrap(l + r)
    case Sub => Wrap(l - r)
    case Mul => Wrap(l * r)
    case Div => Wrap(TruncDiv(l, r))
    case _ => Wrap(Bitwise(a, l % TWO64, r % TWO64, 64))
  }

  lemma NoMultiple(x: int, m: nat)
    requires -(m as int) < x * m < m
    ensures x == 0
  {
  }

  lemma RemainderIs(h: nat, m: nat, q: nat, r: nat)
    requires r < m && h == q * m + r
    ensures h % m == r
  {
    var p, s := h / m, h % m;
    assert h == p * m + s;
    assert (p - q) * m == p * m - q * m;
    NoMultiple(p - q, m);
  }

  // ----- laws of the memory -----

  /** Two memories with the same blocks and the same saved bytes. */
  predicate SameShape(m: Mem, n: Mem) {
    && |n.storage| == |m.storage|
    && |n.globals| == |m.globals|
    && (forall g :: 0 <= g < |m.globals| ==> |n.globals[g]| == |m.globals[g]|)
    && (forall i :: 0 <= i < |m.storage| ==> (n.storage[i].Saved? <==> m.storage[i].Saved?))
  }

  lemma OverwriteAt(s: seq<Cell>, at: nat, cells: seq<Cell>, i: nat)
    requires at + |cells| <= |s| && i < |s|
    ensures Overwrite(s, at, cells)[i] == if at <= i < at + |cells| then cells[i - at] else s[i]
    ensures Overwrite(s, at, cells)[at..at + |cells|] == cells
  {
  }

  lemma StoreKeepsShape(m: Mem, p: Ptr, cells: seq<Cell>)
    requires Open(cells) && Store(m, p, cells).Some?
    ensures SameShape(m, Store(m, p, cells).value)
    ensures Store(m, p, cells).value.world == m.world
  {
    if p.Stor? {
      var o, n := p.off, Store(m, p, cells).value;
      var part := m.storage[o..o + |cells|];
      assert Open(part);
      forall i: nat | i < |m.storage|
        ensures n.storage[i].Saved? <==> m.storage[i].Saved?
      {
        OverwriteAt(m.storage, o, cells, i);
        if o <= i < o + |cells| {
          assert part[i - o] == m.storage[i];
        }
      }
    }
  }

  lemma LoadStored(m: Mem, p: Ptr, cells: seq<Cell>)
    requires Open(cells) && Store(m, p, cells).Some?
    ensures Load(Store(m, p, cells).value, p, |cells|) == Some(cells)
  {
    if p.Stor? {
      if |m.storage| > 0 && p.off < |m.storage| { OverwriteAt(m.storage, p.off, cells, p.off); }
      assert Store(m, p, cells).value.storage[p.off..p.off + |cells|] == cells;
    } else {
      assert Store(m, p, cells).value.globals[p.g][p.off..p.off + |cells|] == cells;
    }
  }

  lemma UnsignedRoundTrip(m: Mem, p: Ptr, ds: seq<u8>)
    requires Store(m, p, AsCells(ds)).Some?
    ensures LoadUnsigned(Store(m, p, AsCells(ds)).value, p, |ds|) == Some(Value(ds))
  {
    var cells := AsCells(ds);
    LoadStored(m, p, cells);
    CellsRoundTrip(ds);
    assert Load(Store(m, p, cells).value, p, |ds|) == Some(cells);
  }

  lemma CellsRoundTrip(ds: seq<u8>)
    ensures Plain(AsCells(ds)) && AsDigits(AsCells(ds)) == ds
  {
    assert Plain(AsCells(ds));
    var back := AsDigits(AsCells(ds));
    assert forall i :: 0 <= i < |ds| ==> back[i] == ds[i];
    assert back == ds;
  }

  lemma WrapRepresents(x: int)
    requires -TWO63 <= x < TWO63
    ensures Wrap(x % TWO64) == x
  {
    if x < 0 {
      assert x % TWO64 == x + TWO64;
    } else {
      assert x % TWO64 == x;
    }
  }

  /** What was stored is what is loaded, for every int64. */
  lemma NumRoundTrip(m: Mem, p: Ptr, x: int)
    requires -TWO63 <= x < TWO63
    requires StoreNum(m, p, x).Some?
    ensures LoadNum(StoreNum(m, p, x).value, p) == Some(x)
  {
    var u: nat := x % TWO64;
    UnsignedRoundTrip(m, p, Digits(u, NUM_SIZE));
    PowValues();
    DigitsRoundTrip(u, NUM_SIZE);
    WrapRepresents(x);
  }
}
