/** The table that gives every place (`Par`) one index: open addressing with linear probing,
    growing before it is three quarters full, and the interning on top of it. */
module InternTable {
  import opened Memory

  datatype ParKind = PAR_LOCAL | PAR_ARG | PAR_GLOBAL | PAR_STRUCT_FILED | PAR_ARR_MEMBER

  /** `parent` matters only for projections. */
  datatype Par = Par(kind: ParKind, idx: nat, parent: nat)

  function KindCode(k: ParKind): nat {
    match k
    case PAR_LOCAL => 0 case PAR_ARG => 1 case PAR_GLOBAL => 2 case PAR_STRUCT_FILED => 3 case PAR_ARR_MEMBER => 4
  }

  const FNV_BASIS: nat := 1469598103934665603
  const FNV_PRIME: nat := 1099511628211

  function Mix(h: nat, x: nat): nat {
    (Bitwise(Xor, h, x % TWO64, 64) * FNV_PRIME) % TWO64
  }

  function ParHash(p: Par): nat {
    Mix(Mix(Mix(FNV_BASIS, KindCode(p.kind)), p.idx), p.parent)
  }

  // ----- masking -----

  function Pow2(k: nat): (n: nat)
    ensures n > 0
  {
    if k == 0 then 1 else 2 * Pow2(k - 1)
  }

  /** The bits of h below the capacity, which is a power of two. */
  function Mask(h: nat, cap: nat): nat
    requires cap > 0
  {
    Bitwise(And, h, cap - 1, 64)
  }

  lemma {:induction false} MaskIsRemainder(h: nat, k: nat, bits: nat)
    requires k <= bits
    ensures Bitwise(And, h, Pow2(k) - 1, bits) == h % Pow2(k)
  {
    if bits > 0 {
      if k == 0 {
        MaskOfNothing(h, bits);
      } else {
        var m := Pow2(k) - 1;
        assert m % 2 == 1 && m / 2 == Pow2(k - 1) - 1;
        MaskIsRemainder(h / 2, k - 1, bits - 1);
        HalfRemainder(h, Pow2(k - 1));
      }
    }
  }

  lemma {:induction false} MaskOfNothing(h: nat, bits: nat)
    ensures Bitwise(And, h, 0, bits) == 0
  {
    if bits > 0 { MaskOfNothing(h / 2, bits - 1); }
  }

  lemma HalfRemainder(h: nat, m: nat)
    requires m > 0
    ensures h % 2 + 2 * ((h / 2) % m) == h % (2 * m)
  {
    var q, r := (h / 2) / m, (h / 2) % m;
    assert h / 2 == q * m + r;
    assert h == 2 * (h / 2) + h % 2;
    assert 2 * (q * m) == q * (2 * m);
    RemainderIs(h, 2 * m, q, h % 2 + 2 * r);
  }

  predicate Capacity(cap: nat) { exists k :: 4 <= k <= 64 && cap == Pow2(k) }

  lemma MaskIs(h: nat, cap: nat)
    requires Capacity(cap)
    ensures cap >= 16 && Mask(h, cap) == h % cap
  {
    hide Bitwise;
    var k: nat :| 4 <= k <= 64 && cap == Pow2(k);
    MaskIsRemainder(h, k, 64);
    PowGrows(4, k);
    Sixteen();
  }

  lemma MaskBelow(h: nat, cap: nat)
    requires Capacity(cap)
    ensures Mask(h, cap) < cap && cap >= 16
    ensures h < cap ==> Mask(h, cap) == h
    ensures Mask(cap, cap) == 0
  {
    hide Mask, Capacity;
    MaskIs(h, cap);
    MaskIs(cap, cap);
    if h < cap { RemainderIs(h, cap, 0, h); }
    RemainderIs(cap, cap, 1, 0);
  }

  lemma Sixteen()
    ensures Pow2(4) == 16
  {
    assert Pow2(1) == 2 && Pow2(2) == 4 && Pow2(3) == 8;
  }

  lemma {:induction false} PowGrows(j: nat, k: nat)
    requires j <= k
    ensures Pow2(j) <= Pow2(k)
  {
    if j < k { PowGrows(j, k - 1); }
  }

  // ----- probing -----

  /** The slot d steps behind slot `home`, going round. */
  function Slot(home: nat, d: nat, cap: nat): nat
    requires home < cap && d <= cap
  {
    if home + d < cap then home + d else home + d - cap
  }

  /** The next d slots from `home` on are all in use. */
  predicate Full(used: seq<bool>, home: nat, d: nat)
    requires home < |used| && d <= |used|
  {
    forall e :: 0 <= e < d ==> used[Slot(home, e, |used|)]
  }

  function UsedSlots(used: seq<bool>): set<nat> {
    set i: nat | i < |used| && used[i]
  }

  /** Slot i holds key and is reached by probing for it. */
  predicate Reached(keys: seq<Par>, used: seq<bool>, key: Par, d: nat)
    requires |keys| == |used| > 0 && Mask(ParHash(key), |used|) < |used|
  {
    var home := Mask(ParHash(key), |used|);
    d < |used| && Full(used, home, d) && used[Slot(home, d, |used|)] && keys[Slot(home, d, |used|)] == key
  }

  /** The arrays of the table hold exactly the map m. */
  ghost predicate Holds(keys: seq<Par>, vals: seq<nat>, used: seq<bool>, m: map<Par, nat>) {
    && |keys| == |vals| == |used| && Capacity(|used|)
    && (forall k: Par :: Mask(ParHash(k), |used|) < |used|)
    && (forall i :: 0 <= i < |used| && used[i] ==> keys[i] in m && m[keys[i]] == vals[i])
    && (forall k :: k in m ==> exists d :: Reached(keys, used, k, d))
    && (forall i, j :: 0 <= i < |used| && 0 <= j < |used| && used[i] && used[j] && keys[i] == keys[j] ==> i == j)
    && |UsedSlots(used)| == |m|
  }

  lemma MasksBelow(cap: nat)
    requires Capacity(cap)
    ensures forall k: Par :: Mask(ParHash(k), cap) < cap
  {
    forall k: Par ensures Mask(ParHash(k), cap) < cap { MaskBelow(ParHash(k), cap); }
  }

  /** As long as not all slots are used, probing meets a free one. */
  lemma FreeAhead(used: seq<bool>, home: nat) returns (d: nat)
    requires home < |used| && |UsedSlots(used)| < |used|
    ensures d < |used| && !used[Slot(home, d, |used|)]
  {
    var i := FreeSlot(used);
    d := if i >= home then i - home else i - home + |used|;
  }

  lemma FreeSlot(used: seq<bool>) returns (i: nat)
    requires |UsedSlots(used)| < |used|
    ensures i < |used| && !used[i]
  {
    if forall k :: 0 <= k < |used| ==> used[k] {
      AllUsed(used);
      assert false;
    }
    i :| i < |used| && !used[i];
  }

  lemma {:induction false} AllUsed(used: seq<bool>)
    requires forall k :: 0 <= k < |used| ==> used[k]
    ensures |UsedSlots(used)| == |used|
  {
    if |used| == 0 {
      assert UsedSlots(used) == {};
    } else {
      var n := |used| - 1;
      AllUsed(used[..n]);
      assert UsedSlots(used) == UsedSlots(used[..n]) + {n};
      assert n !in UsedSlots(used[..n]);
    }
  }

  lemma NoneUsed(used: seq<bool>)
    requires forall k :: 0 <= k < |used| ==> !used[k]
    ensures UsedSlots(used) == {}
  {
  }

  lemma UseSlot(used: seq<bool>, i: nat)
    requires i < |used| && !used[i]
    ensures |UsedSlots(used[i := true])| == |UsedSlots(used)| + 1
  {
    assert UsedSlots(used[i := true]) == UsedSlots(used) + {i};
  }

  /** The key is in none of the next d slots. */
  predicate NotMet(keys: seq<Par>, home: nat, d: nat, key: Par)
    requires home < |keys| && d <= |keys|
  {
    forall e :: 0 <= e < d ==> keys[Slot(home, e, |keys|)] != key
  }

  /** A key that probing has not met when it comes to a free slot is not in the table. */
  lemma NotThere(keys: seq<Par>, vals: seq<nat>, used: seq<bool>, m: map<Par, nat>, key: Par, d: nat)
    requires Holds(keys, vals, used, m) && d < |used|
    requires var home := Mask(ParHash(key), |used|);
      Full(used, home, d) && !used[Slot(home, d, |used|)] && NotMet(keys, home, d, key)
    ensures key !in m
  {
    hide Mask, ParHash, Capacity;
  }

  /** A new key goes into the free slot where its probing ends. */
  lemma Inserted(keys: seq<Par>, vals: seq<nat>, used: seq<bool>, m: map<Par, nat>, key: Par, val: nat, d: nat)
    requires Holds(keys, vals, used, m) && d < |used| && key !in m
    requires var home := Mask(ParHash(key), |used|); Full(used, home, d) && !used[Slot(home, d, |used|)]
    ensures var i := Slot(Mask(ParHash(key), |used|), d, |used|);
      Holds(keys[i := key], vals[i := val], used[i := true], m[key := val])
  {
    hide Mask, ParHash, Capacity;
    var home := Mask(ParHash(key), |used|);
    var i := Slot(home, d, |used|);
    var keys1, vals1, used1, m1 := keys[i := key], vals[i := val], used[i := true], m[key := val];
    UseSlot(used, i);
    assert |m1| == |m| + 1;
    assert Reached(keys1, used1, key, d);
    forall k | k in m1 ensures exists e :: Reached(keys1, used1, k, e) {
      if k != key {
        var e :| Reached(keys, used, k, e);
        StillReached(keys, used, i, key, k, e);
      }
    }
  }

  /** Filling a free slot leaves every other key where it is found. */
  lemma StillReached(keys: seq<Par>, used: seq<bool>, i: nat, key: Par, k: Par, e: nat)
    requires |keys| == |used| && i < |used| && !used[i] && Mask(ParHash(k), |used|) < |used| && Reached(keys, used, k, e)
    ensures Reached(keys[i := key], used[i := true], k, e)
  {
    hide Mask, ParHash;
  }

  /** The value of a key that is there is replaced in its slot. */
  lemma Replaced(keys: seq<Par>, vals: seq<nat>, used: seq<bool>, m: map<Par, nat>, i: nat, val: nat)
    requires Holds(keys, vals, used, m) && i < |used| && used[i]
    ensures Holds(keys, vals[i := val], used, m[keys[i] := val])
  {
    hide Mask, ParHash, Capacity, Full, Slot;
    var m1 := m[keys[i] := val];
    assert m1.Keys == m.Keys;
    assert |m1| == |m1.Keys| == |m.Keys| == |m|;
  }

  /** Going one slot further, as the code does it. */
  lemma NextSlot(home: nat, d: nat, cap: nat)
    requires Capacity(cap) && home < cap && d < cap
    ensures Mask(Slot(home, d, cap) + 1, cap) == Slot(home, d + 1, cap)
  {
    hide Mask, Capacity;
    MaskBelow(Slot(home, d, cap) + 1, cap);
  }

  lemma FullOn(used: seq<bool>, home: nat, d: nat)
    requires home < |used| && d < |used| && Full(used, home, d) && used[Slot(home, d, |used|)]
    ensures Full(used, home, d + 1)
  {
  }

  lemma EmptyHolds(keys: seq<Par>, vals: seq<nat>, used: seq<bool>)
    requires |keys| == |vals| == |used| && Capacity(|used|) && forall k :: 0 <= k < |used| ==> !used[k]
    ensures Holds(keys, vals, used, map[]) && UsedSlots(used) == {}
  {
    hide Mask, ParHash, Capacity;
    MasksBelow(|used|);
    NoneUsed(used);
  }

  /** The entries of the first i slots. */
  ghost predicate Copied(keys: seq<Par>, used: seq<bool>, m: map<Par, nat>, i: nat, part: map<Par, nat>)
    requires |keys| == |used| && i <= |used|
  {
    && part.Keys <= m.Keys && (forall k :: k in part ==> part[k] == m[k])
    && (forall j :: 0 <= j < i && used[j] ==> keys[j] in part)
    && (forall k :: k in part ==> exists j :: 0 <= j < i && used[j] && keys[j] == k)
  }

  /** A slot that is not copied yet holds a key that is new to the copy. */
  lemma NewToCopy(keys: seq<Par>, vals: seq<nat>, used: seq<bool>, m: map<Par, nat>, i: nat, part: map<Par, nat>)
    requires Holds(keys, vals, used, m) && i < |used| && Copied(keys, used, m, i, part) && used[i]
    ensures keys[i] !in part && Copied(keys, used, m, i + 1, part[keys[i] := vals[i]])
  {
    hide Mask, ParHash, Capacity, Full, Slot;
    var next := part[keys[i] := vals[i]];
    forall k | k in next ensures exists j :: 0 <= j < i + 1 && used[j] && keys[j] == k {
      if k == keys[i] { assert used[i] && keys[i] == k; }
    }
  }

  lemma AllCopied(keys: seq<Par>, vals: seq<nat>, used: seq<bool>, m: map<Par, nat>, part: map<Par, nat>)
    requires Holds(keys, vals, used, m) && Copied(keys, used, m, |used|, part)
    ensures part == m
  {
    hide Mask, ParHash, Capacity, Full;
    forall k | k in m ensures k in part {
      var d :| Reached(keys, used, k, d);
    }
  }

  lemma CopyIsSmaller(m: map<Par, nat>, part: map<Par, nat>)
    requires part.Keys <= m.Keys
    ensures |part| <= |m|
  {
    assert part.Keys + (m.Keys - part.Keys) == m.Keys;
    assert |part| == |part.Keys| && |m| == |m.Keys|;
  }

  // ----- the table -----

  class ParIdxTable {
    var keys: array<Par>
    var vals: array<nat>
    var used: array<bool>
    var len: nat
    ghost var m: map<Par, nat>  // what the table stands for

    constructor ()
      ensures Valid() && m == map[] && used.Length == 0 && fresh(keys) && fresh(vals) && fresh(used)
    {
      keys := new Par[0];
      vals := new nat[0];
      used := new bool[0];
      len := 0;
      m := map[];
    }

    /** The arrays hold the map, a quarter of the slots is free, and not too many are. */
    ghost predicate Valid()
      reads this, keys, vals, used
    {
      && keys.Length == vals.Length == used.Length && len == |m|
      && (used.Length == 0 ==> m == map[]) && 3 * used.Length <= 8 * |m| + 48
      && (used.Length > 0 ==> Holds(keys[..], vals[..], used[..], m) && len * 4 < used.Length * 3)
    }

    /** Probing: the slot that holds the key, or the free slot where it would go. */
    method Probe(key: Par) returns (i: nat, ghost d: nat)
      requires Valid() && used.Length > 0
      ensures d < used.Length && i < used.Length
      ensures var home := Mask(ParHash(key), used.Length);
        home < used.Length && i == Slot(home, d, used.Length) && Full(used[..], home, d)
      ensures used[i] <==> key in m
      ensures used[i] ==> keys[i] == key
    {
      hide Mask, ParHash, Capacity, Full, Slot, UsedSlots, NotMet;
      ghost var home := Mask(ParHash(key), used.Length);
      ghost var free := FreeAhead(used[..], home);
      i, d := Mask(ParHash(key), used.Length), 0;
      SlotZero(home, used.Length);
      NothingFull(used[..], home);
      NothingMet(keys[..], home, key);
      while used[i]
        invariant d < used.Length && d <= free && i == Slot(home, d, used.Length) < used.Length && Full(used[..], home, d)
        invariant NotMet(keys[..], home, d, key)
        decreases free - d
      {
        if keys[i] == key {
          assert keys[..][i] in m;
          return;
        }
        FullOn(used[..], home, d);
        NotMetOn(keys[..], home, d, key);
        FullMeets(used[..], home, d + 1, free);
        NextSlot(home, d, used.Length);
        i := Mask(i + 1, used.Length);
        d := d + 1;
        SlotBelow(home, d, used.Length);
      }
      NotThere(keys[..], vals[..], used[..], m, key, d);
    }

    method Get(key: Par) returns (found: bool, val: nat)
      requires Valid()
      ensures found == (key in m) && (found ==> val == m[key])
    {
      hide Mask, ParHash, Capacity, Full, Slot, UsedSlots;
      found, val := false, 0;
      if used.Length == 0 { return; }
      var i, d := Probe(key);
      if used[i] {
        assert used[..][i] && keys[..][i] == key;
        found, val := true, vals[i];
      }
    }

    /** Twice the capacity; every entry is put at its place in the new arrays. */
    method Grow()
      requires Valid() && used.Length < Pow2(64) && (len + 1) * 4 >= used.Length * 3
      modifies this
      ensures Valid() && m == old(m) && fresh(keys) && fresh(vals) && fresh(used)
      ensures used.Length == if old(used.Length) == 0 then 16 else 2 * old(used.Length)
    {
      hide Mask, ParHash, Capacity, Full, Slot, UsedSlots, Holds, Reached, Copied, Pow2;
      CapacityGrows(used.Length, keys[..], vals[..], used[..], m);
      keys, vals, used, len := Rehash(if used.Length == 0 then 16 else used.Length * 2);
    }

    /** All entries, put into new arrays. */
    method Rehash(cap: nat) returns (ks: array<Par>, vs: array<nat>, us: array<bool>, n: nat)
      requires Valid() && used.Length <= cap && Capacity(cap)
      ensures fresh(ks) && fresh(vs) && fresh(us) && ks.Length == vs.Length == us.Length == cap
      ensures Holds(ks[..], vs[..], us[..], m) && n == |m|
    {
      hide Mask, ParHash, Capacity, Full, Slot, UsedSlots, Holds, Reached, Copied, Pow2;
      ghost var ks0, vs0, us0 := keys[..], vals[..], used[..];
      ks, vs, us := new Par[cap](_ => Par(PAR_LOCAL, 0, 0)), new nat[cap](_ => 0), new bool[cap](_ => false);
      ghost var part: map<Par, nat> := map[];
      EmptyHolds(ks[..], vs[..], us[..]);
      NothingCopied(ks0, us0, m);
      n := 0;
      var i := 0;
      while i < used.Length
        invariant i <= used.Length && n == |part|
        invariant Holds(ks[..], vs[..], us[..], part) && Copied(ks0, us0, m, i, part)
        modifies ks, vs, us
      {
        assert used[i] == us0[i] && keys[i] == ks0[i] && vals[i] == vs0[i];
        if used[i] {
          NewToCopy(ks0, vs0, us0, m, i, part);
          CopyFits(ks0, us0, m, i, part, cap);
          Place(ks, vs, us, keys[i], vals[i], part);
          MapGrows(part, keys[i], vals[i]);
          part := part[keys[i] := vals[i]];
          n := n + 1;
        } else {
          SkipCopied(ks0, us0, m, i, part);
        }
        i := i + 1;
      }
      GrownIsSame(ks0, vs0, us0, m, part);
    }

    /** A new key is put into new arrays: no slot can hold it already. */
    static method Place(ks: array<Par>, vs: array<nat>, us: array<bool>, key: Par, val: nat, ghost part: map<Par, nat>)
      requires Holds(ks[..], vs[..], us[..], part) && key !in part && |part| < us.Length
      requires ks.Length == vs.Length == us.Length
      modifies ks, vs, us
      ensures Holds(ks[..], vs[..], us[..], part[key := val])
    {
      hide Mask, ParHash, Capacity, Full, Slot, UsedSlots;
      ghost var home := Mask(ParHash(key), us.Length);
      ghost var free := FreeAhead(us[..], home);
      ghost var d := 0;
      var j := Mask(ParHash(key), us.Length);
      SlotZero(home, us.Length);
      NothingFull(us[..], home);
      ghost var ks0, vs0, us0 := ks[..], vs[..], us[..];
      while us[j]
        invariant ks[..] == ks0 && vs[..] == vs0 && us[..] == us0
        invariant d < us.Length && d <= free && j == Slot(home, d, us.Length) < us.Length && Full(us[..], home, d)
        decreases free - d
      {
        FullOn(us[..], home, d);
        FullMeets(us[..], home, d + 1, free);
        NextSlot(home, d, us.Length);
        j := Mask(j + 1, us.Length);
        d := d + 1;
        SlotBelow(home, d, us.Length);
      }
      Inserted(ks[..], vs[..], us[..], part, key, val, d);
      ks[j], vs[j], us[j] := key, val, true;
      assert ks[..] == ks0[j := key] && vs[..] == vs0[j := val] && us[..] == us0[j := true];
    }

    method Put(key: Par, val: nat)
      requires Valid() && used.Length < Pow2(64)
      modifies this, keys, vals, used
      ensures Valid() && m == old(m)[key := val]
      ensures (keys == old(keys) && vals == old(vals) && used == old(used)) || (fresh(keys) && fresh(vals) && fresh(used))
    {
      hide Mask, ParHash, Capacity, Full, Slot, UsedSlots, Reached, Holds, Pow2;
      if (len + 1) * 4 >= used.Length * 3 { Grow(); }
      var i, d := Probe(key);
      ghost var ks, vs, us := keys[..], vals[..], used[..];
      if used[i] {
        Replaced(ks, vs, us, m, i, val);
        MapKeeps(m, key, val);
        vals[i] := val;
        assert keys[..] == ks && vals[..] == vs[i := val] && used[..] == us;
      } else {
        Inserted(ks, vs, us, m, key, val, d);
        MapGrows(m, key, val);
        keys[i], vals[i], used[i] := key, val, true;
        assert keys[..] == ks[i := key] && vals[..] == vs[i := val] && used[..] == us[i := true];
        len := len + 1;
      }
      m := m[key := val];
    }
  }

  lemma MapGrows(m: map<Par, nat>, key: Par, val: nat)
    requires key !in m
    ensures |m[key := val]| == |m| + 1
  {
  }

  lemma MapKeeps(m: map<Par, nat>, key: Par, val: nat)
    requires key in m
    ensures |m[key := val]| == |m|
  {
    assert m[key := val].Keys == m.Keys;
    assert |m[key := val].Keys| == |m.Keys|;
  }

  lemma SlotZero(home: nat, cap: nat)
    requires home < cap
    ensures Slot(home, 0, cap) == home
  {
  }

  lemma SlotBelow(home: nat, d: nat, cap: nat)
    requires home < cap && d <= cap
    ensures Slot(home, d, cap) < cap
  {
  }

  lemma NothingFull(used: seq<bool>, home: nat)
    requires home < |used|
    ensures Full(used, home, 0)
  {
  }

  lemma NothingMet(keys: seq<Par>, home: nat, key: Par)
    requires home < |keys|
    ensures NotMet(keys, home, 0, key)
  {
  }

  lemma NotMetOn(keys: seq<Par>, home: nat, d: nat, key: Par)
    requires home < |keys| && d < |keys| && NotMet(keys, home, d, key) && keys[Slot(home, d, |keys|)] != key
    ensures NotMet(keys, home, d + 1, key)
  {
  }

  lemma FullMeets(used: seq<bool>, home: nat, d: nat, free: nat)
    requires home < |used| && d <= |used| && free < |used| && Full(used, home, d) && !used[Slot(home, free, |used|)]
    ensures d <= free
  {
  }

  lemma CapacityGrows(cap: nat, keys: seq<Par>, vals: seq<nat>, used: seq<bool>, m: map<Par, nat>)
    requires cap == |used| < Pow2(64) && (cap > 0 ==> Holds(keys, vals, used, m))
    ensures Capacity(if cap == 0 then 16 else cap * 2)
  {
    hide Reached, UsedSlots, Mask;
    if cap == 0 {
      Sixteen();
    } else {
      var k: nat :| 4 <= k <= 64 && cap == Pow2(k);
      assert k < 64;
      assert cap * 2 == Pow2(k + 1);
    }
  }

  lemma NothingCopied(keys: seq<Par>, used: seq<bool>, m: map<Par, nat>)
    requires |keys| == |used|
    ensures Copied(keys, used, m, 0, map[])
  {
  }

  lemma SkipCopied(keys: seq<Par>, used: seq<bool>, m: map<Par, nat>, i: nat, part: map<Par, nat>)
    requires |keys| == |used| && i < |used| && Copied(keys, used, m, i, part) && !used[i]
    ensures Copied(keys, used, m, i + 1, part)
  {
    forall k | k in part ensures exists j :: 0 <= j < i + 1 && used[j] && keys[j] == k {
      var j :| 0 <= j < i && used[j] && keys[j] == k;
      assert used[j] && keys[j] == k;
    }
  }

  lemma CopyFits(keys: seq<Par>, used: seq<bool>, m: map<Par, nat>, i: nat, part: map<Par, nat>, cap: nat)
    requires |keys| == |used| && i <= |used| && Copied(keys, used, m, i, part) && |m| * 4 < |used| * 3 && |used| <= cap
    ensures |part| < cap
  {
    CopyIsSmaller(m, part);
  }

  lemma GrownIsSame(keys: seq<Par>, vals: seq<nat>, used: seq<bool>, m: map<Par, nat>, part: map<Par, nat>)
    requires |keys| == |used| && Copied(keys, used, m, |used|, part)
    requires |used| == 0 ==> m == map[]
    requires |used| > 0 ==> Holds(keys, vals, used, m)
    ensures part == m
  {
    if |used| > 0 { AllCopied(keys, vals, used, m, part); }
  }

  // ----- interning -----

  /** The places that have an index, and their table. A projection has an index above that of
      its parent. */
  class CompileContext {
    var handles: seq<Par>
    var table: ParIdxTable

    constructor ()
      ensures Valid() && handles == [] && fresh(table) && fresh(table.keys) && fresh(table.vals) && fresh(table.used)
    {
      handles := [];
      table := new ParIdxTable();
    }

    ghost predicate Valid()
      reads this, table, table.keys, table.vals, table.used
    {
      table.Valid() && Indexed(handles, table.m) && |table.m| == |handles|
    }

    /** The index of a place: its old one, or a new one behind all others. The places that
        had an index keep it. */
    method InternPar(par: Par) returns (idx: nat)
      requires Valid() && |handles| <= 0xFFFF_FFFF && (Projects(par) ==> par.parent < |handles|)
      modifies this, table, table.keys, table.vals, table.used
      ensures Valid() && table == old(table)
      ensures (table.keys == old(table.keys) && table.vals == old(table.vals) && table.used == old(table.used))
              || (fresh(table.keys) && fresh(table.vals) && fresh(table.used))
      ensures idx < |handles| && handles[idx] == par
      ensures handles == if par in old(handles) then old(handles) else old(handles) + [par]
      ensures par !in old(handles) ==> idx == |old(handles)|
    {
      hide Holds, Indexed, Pow2;
      IndexedMeans(handles, table.m, par);
      var found, val := table.Get(par);
      if found { return val; }
      idx := |handles|;
      IndexedGrows(handles, table.m, par);
      PowIsLarge();
      MapGrows(table.m, par, idx);
      handles := handles + [par];
      table.Put(par, idx);
    }
  }

  lemma SixteenTimes(k: nat)
    ensures Pow2(k + 4) == 16 * Pow2(k)
  {
    assert Pow2(k + 4) == 2 * Pow2(k + 3) && Pow2(k + 3) == 2 * Pow2(k + 2) && Pow2(k + 2) == 2 * Pow2(k + 1);
  }

  lemma PowIsLarge()
    ensures Pow2(64) > 0x10_0000_0000
  {
    hide Pow2;
    Sixteen();
    SixteenTimes(4);
    SixteenTimes(8);
    SixteenTimes(12);
    SixteenTimes(16);
    SixteenTimes(20);
    SixteenTimes(24);
    SixteenTimes(28);
    SixteenTimes(32);
    SixteenTimes(36);
    PowGrows(40, 64);
  }

  /** The map gives every place of the list its position. */
  ghost predicate Indexed(handles: seq<Par>, m: map<Par, nat>) {
    && (forall i :: 0 <= i < |handles| ==> handles[i] in m && m[handles[i]] == i)
    && (forall k :: k in m ==> m[k] < |handles| && handles[m[k]] == k)
    && (forall i :: 0 <= i < |handles| && Projects(handles[i]) ==> handles[i].parent < i)
  }

  lemma IndexedMeans(handles: seq<Par>, m: map<Par, nat>, par: Par)
    requires Indexed(handles, m)
    ensures par in handles <==> par in m
    ensures par in m ==> m[par] < |handles| && handles[m[par]] == par
  {
  }

  lemma IndexedGrows(handles: seq<Par>, m: map<Par, nat>, par: Par)
    requires Indexed(handles, m) && par !in m && (Projects(par) ==> par.parent < |handles|)
    ensures Indexed(handles + [par], m[par := |handles|])
  {
  }

  predicate Projects(p: Par) { p.kind.PAR_STRUCT_FILED? || p.kind.PAR_ARR_MEMBER? }

  /** Two places have the same index only if they are the same. */
  lemma InternIsInjective(c: CompileContext, a: Par, b: Par)
    requires c.Valid() && a in c.table.m && b in c.table.m && c.table.m[a] == c.table.m[b]
    ensures a == b
  {
  }
}
