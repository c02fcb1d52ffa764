/** What the operations on numbers compute, told of the numbers that are loaded before and after. */
module Arithmetic {
  import opened Memory
  import opened Ir
  import opened Semantics

  // ----- what the results mean -----

  predicate Int64(x: int) { -TWO63 <= x < TWO63 }

  /** Bit k of the two's complement form of a number, however long. */
  function Bit(x: int, k: nat): nat
    decreases k
  {
    if k == 0 then x % 2 else Bit(x / 2, k - 1)
  }

  function Abs(x: int): nat { if x < 0 then -x else x }

  /** x is the result of l and r: sums, differences and products agree with it modulo 2^64, a
      quotient leaves a remainder smaller than the divisor and with the sign of the dividend,
      and the others go bit by bit. */
  predicate Means(a: Arith, l: int, r: int, x: int) {
    && Int64(x)
    && match a
       case Add => (x - (l + r)) % TWO64 == 0
       case Sub => (x - (l - r)) % TWO64 == 0
       case Mul => (x - l * r) % TWO64 == 0
       case Div => var m := l - x * r; Abs(m) < Abs(r) && (m == 0 || (m < 0 <==> l < 0))
       case And => forall k: nat :: k < 64 ==> (Bit(x, k) == 1 <==> Bit(l, k) == 1 && Bit(r, k) == 1)
       case Or => forall k: nat :: k < 64 ==> (Bit(x, k) == 1 <==> Bit(l, k) == 1 || Bit(r, k) == 1)
       case Xor => forall k: nat :: k < 64 ==> (Bit(x, k) == 1 <==> Bit(l, k) != Bit(r, k))
  }

  /** Every bit is turned over. */
  predicate Flipped(x: int, y: int) { Int64(y) && forall k: nat :: k < 64 ==> Bit(y, k) != Bit(x, k) }

  // ----- wrapping -----

  lemma WrapMeans(n: int)
    ensures Int64(Wrap(n)) && (Wrap(n) - n) % TWO64 == 0
    ensures exists c: int :: Wrap(n) == n + c * TWO64
  {
    var c := n / TWO64;
    assert n == c * TWO64 + n % TWO64;
    assert Wrap(n) == n + (-c) * TWO64 || Wrap(n) == n + (-c - 1) * TWO64;
    var b := if Wrap(n) == n + (-c) * TWO64 then -c else -c - 1;
    assert Wrap(n) - n == b * TWO64;
    Multiple(b, TWO64);
  }

  lemma Multiple(c: int, n: int)
    requires n > 0
    ensures (c * n) % n == 0
  {
    var q, m := (c * n) / n, (c * n) % n;
    assert c * n == q * n + m;
    assert (c - q) * n == c * n - q * n;
    NoMultiple(c - q, n);
  }

  lemma WrapKeeps(x: int)
    requires Int64(x)
    ensures Wrap(x) == x
  {
    if x < 0 { assert x % TWO64 == x + TWO64; } else { assert x % TWO64 == x; }
  }

  lemma LoadedIsInt64(m: Mem, p: Ptr)
    ensures LoadNum(m, p).Some? ==> Int64(LoadNum(m, p).value)
  {
    if LoadNum(m, p).Some? { WrapMeans(LoadUnsigned(m, p, NUM_SIZE).value); }
  }

  // ----- quotients -----

  lemma QuotientMeans(l: int, r: int)
    requires Int64(l) && Int64(r) && r != 0 && !QuotientOverflows(Div, l, r)
    ensures Means(Div, l, r, TruncDiv(l, r))
  {
    var q, m := Divided(Abs(l), Abs(r));
    var p := q * Abs(r);
    QuotientFits(l, r, q);
    assert TruncDiv(l, r) == if (l < 0) == (r < 0) then q else 0 - q;
    assert TruncDiv(l, r) * r == if l < 0 then 0 - p else p by { Signs(q, l, r, TruncDiv(l, r)); }
  }

  lemma Divided(l: nat, r: nat) returns (q: nat, m: nat)
    requires r > 0
    ensures q == l / r && l == q * r + m && m < r
  {
    q, m := l / r, l % r;
  }

  lemma Signs(q: nat, l: int, r: int, x: int)
    requires x == if (l < 0) == (r < 0) then q else 0 - q
    ensures x * r == if l < 0 then 0 - q * Abs(r) else q * Abs(r)
  {
    if r < 0 { assert q * (-r) == -(q * r); }
    if x == 0 - q { assert (0 - q) * r == 0 - q * r; }
  }

  lemma QuotientFits(l: int, r: int, q: nat)
    requires Int64(l) && Int64(r) && r != 0 && !QuotientOverflows(Div, l, r) && q * Abs(r) <= Abs(l)
    ensures Int64(if (l < 0) == (r < 0) then q else 0 - q)
  {
    QuotientSmall(q, Abs(r), Abs(l));
  }

  /** The quotient is no larger than the dividend, and smaller when the divisor is not one. */
  lemma QuotientSmall(q: nat, r: nat, l: nat)
    requires r > 0 && q * r <= l
    ensures q <= l && (r > 1 && l > 0 ==> q < l)
  {
    if r > 1 && q > 0 { assert q * r >= q * 2; } else if r == 1 { assert q * r == q; }
  }

  // ----- bits -----

  function Pow2(n: nat): nat { if n == 0 then 1 else 2 * Pow2(n - 1) }

  lemma SixtyFour()
    ensures Pow2(64) == TWO64
  {
    Sixteen();
    hide Pow2;
    Squared(16, 0x1_0000);
    Squared(32, 0x1_0000_0000);
  }

  lemma Sixteen()
    ensures Pow2(16) == 0x1_0000
  {
    assert Pow2(8) == 0x100;
  }

  lemma Squared(n: nat, x: nat)
    requires Pow2(n) == x
    ensures Pow2(2 * n) == x * x
  {
    Doubled(n, n);
  }

  lemma {:induction false} Doubled(a: nat, b: nat)
    ensures Pow2(a + b) == Pow2(a) * Pow2(b)
  {
    if a > 0 { Doubled(a - 1, b); }
  }

  /** What is added above bit n does not change the bits below. */
  lemma {:induction false} LowBits(x: int, c: int, n: nat, k: nat)
    requires k < n
    ensures Bit(x + c * Pow2(n), k) == Bit(x, k)
    decreases n
  {
    var p := c * Pow2(n - 1);
    assert c * Pow2(n) == 2 * p;
    assert (x + 2 * p) % 2 == x % 2 && (x + 2 * p) / 2 == x / 2 + p;
    if k > 0 { LowBits(x / 2, c, n - 1, k - 1); }
  }

  lemma WrapBits(n: int, k: nat)
    requires k < 64
    ensures Bit(Wrap(n), k) == Bit(n, k)
  {
    WrapMeans(n);
    var c: int :| Wrap(n) == n + c * TWO64;
    SixtyFour();
    LowBits(n, c, 64, k);
  }

  lemma ResidueBits(n: int, k: nat)
    requires k < 64
    ensures Bit(n % TWO64, k) == Bit(n, k)
  {
    SixtyFour();
    assert n % TWO64 == n + (-(n / TWO64)) * TWO64;
    LowBits(n, -(n / TWO64), 64, k);
  }

  predicate BitMeans(a: Arith, l: nat, r: nat, b: nat) {
    match a
    case And => b == 1 <==> l == 1 && r == 1
    case Or => b == 1 <==> l == 1 || r == 1
    case _ => b == 1 <==> l != r
  }

  lemma {:induction false} BitwiseMeans(a: Arith, l: nat, r: nat, bits: nat, k: nat)
    requires k < bits
    ensures BitMeans(a, Bit(l, k), Bit(r, k), Bit(Bitwise(a, l, r, bits), k))
    decreases bits
  {
    var x, y, rest := l % 2, r % 2, Bitwise(a, l / 2, r / 2, bits - 1);
    var b := match a
      case And => x * y
      case Or => if x + y > 0 then 1 else 0
      case _ => (x + y) % 2;
    assert 0 <= b < 2;
    assert (b + 2 * rest) % 2 == b && (b + 2 * rest) / 2 == rest;
    if k > 0 { BitwiseMeans(a, l / 2, r / 2, bits - 1, k - 1); }
  }

  lemma {:induction false} NotBits(x: int, k: nat)
    ensures Bit(-1 - x, k) != Bit(x, k)
    decreases k
  {
    assert (-1 - x) / 2 == -1 - x / 2;
    if k > 0 { NotBits(x / 2, k - 1); }
  }

  // ----- the operations -----

  lemma ComputeMeans(a: Arith, l: int, r: int)
    requires Int64(l) && Int64(r) && (a.Div? ==> r != 0 && !QuotientOverflows(a, l, r))
    ensures Means(a, l, r, Compute(a, l, r))
  {
    match a
    case Add => WrapMeans(l + r);
    case Sub => WrapMeans(l - r);
    case Mul => WrapMeans(l * r);
    case Div =>
      QuotientMeans(l, r);
      WrapKeeps(TruncDiv(l, r));
    case _ => BitsMean(a, l, r);
  }

  lemma BitsMean(a: Arith, l: int, r: int)
    requires a.And? || a.Or? || a.Xor?
    ensures Means(a, l, r, Compute(a, l, r))
  {
    hide Bit, Wrap, Bitwise;
    var b := Bitwise(a, l % TWO64, r % TWO64, 64);
    WrapMeans(b);
    forall k: nat | k < 64 ensures BitMeans(a, Bit(l, k), Bit(r, k), Bit(Wrap(b), k)) {
      BitwiseMeans(a, l % TWO64, r % TWO64, 64, k);
      WrapBits(b, k);
      ResidueBits(l, k);
      ResidueBits(r, k);
    }
  }

  /** An arithmetic operation on two numbers: a division by zero crashes, the one quotient
      that is no int64 is undefined, and all others put their result in the place of the first
      operand and leave the rest of the state alone. */
  lemma CalcResult(types: seq<Type>, a: Arith, tys: seq<TypeId>, d: Data)
    requires |tys| >= 2 && tys[|tys| - 1] == tys[|tys| - 2] == INT && |d.params| >= 2
    requires LoadNum(d.mem, Second(d)).Some? && LoadNum(d.mem, Top(d)).Some?
    ensures var l, r := LoadNum(d.mem, Second(d)).value, LoadNum(d.mem, Top(d)).value;
      var res := OpValue(types, Calc(a), tys, d);
      && Int64(l) && Int64(r)
      && (res.out == Crashed <==> a.Div? && r == 0)
      && (res.out == Crashed ==> res.d == Crashing(Pop(d, 1), VM_DIV_BY_ZERO))
      && (res.out == Fault(UNDEFINED) <==> a.Div? && l == -TWO63 && r == -1)
      && (res.out == Normal <==> !(a.Div? && (r == 0 || (l == -TWO63 && r == -1))))
      && (res.out == Normal ==>
          && LoadNum(res.d.mem, Second(d)).Some? && Means(a, l, r, LoadNum(res.d.mem, Second(d)).value)
          && res.d == d.(mem := res.d.mem, params := d.params[..|d.params| - 1]) && res.tys == tys[..|tys| - 1])
  {
    hide Means, Compute, Load, Store;
    var l, r := LoadNum(d.mem, Second(d)).value, LoadNum(d.mem, Top(d)).value;
    LoadedIsInt64(d.mem, Second(d));
    LoadedIsInt64(d.mem, Top(d));
    if !(a.Div? && (r == 0 || QuotientOverflows(a, l, r))) {
      ComputeMeans(a, l, r);
      StoredNum(d.mem, Second(d), Compute(a, l, r));
      MeansInt64(a, l, r, Compute(a, l, r));
      NumRoundTrip(d.mem, Second(d), Compute(a, l, r));
    }
  }

  lemma MeansInt64(a: Arith, l: int, r: int, x: int)
    requires Means(a, l, r, x)
    ensures Int64(x)
  {
  }

  /** Where a number can be loaded, one can be stored. */
  lemma StoredNum(m: Mem, p: Ptr, x: int)
    requires LoadNum(m, p).Some?
    ensures StoreNum(m, p, x).Some?
  {
  }

  /** Turning over the bits of a number. */
  lemma BitNotResult(types: seq<Type>, tys: seq<TypeId>, d: Data)
    requires |tys| >= 1 && tys[|tys| - 1] == INT && |d.params| >= 1 && LoadNum(d.mem, Top(d)).Some?
    ensures var res := OpValue(types, BitNot, tys, d);
      && res.out == Normal && LoadNum(res.d.mem, Top(d)).Some?
      && Flipped(LoadNum(d.mem, Top(d)).value, LoadNum(res.d.mem, Top(d)).value)
      && res.d == d.(mem := res.d.mem) && res.tys == tys
  {
    hide Load, Store, Bit;
    var x := LoadNum(d.mem, Top(d)).value;
    LoadedIsInt64(d.mem, Top(d));
    StoredNum(d.mem, Top(d), -1 - x);
    NumRoundTrip(d.mem, Top(d), -1 - x);
    forall k: nat | k < 64 ensures Bit(-1 - x, k) != Bit(x, k) { NotBits(x, k); }
  }
}
