/** The instructions of the virtual machine and their encoding as bytes: an opcode and then
    the operands, little endian, each in its own width. */
module Bytecode {
  import opened Memory

  datatype Instr =
    | IDone
    | IRet
    | IStorageAdd(amount: int)
    | IPushVar(offset: int)
    | IPushArg(idx: nat)
    | IDropN(count: nat)
    | IArrAt(dataOffset: nat, elemSize: nat, capacity: nat)
    | ICopy(bytes: nat)
    | ICalc(a: Arith)
    | IBitNot
    | IArrPush(dataOffset: nat, elemSize: nat, capacity: nat)
    | IArrDrop
    | IJump(target: nat)
    | IBranch(offset: int, yes: nat, no: nat)
    | IBranchTop(yes: nat, no: nat)
    | IPushCrash(target: nat)
    | IPopCrash
    | ICrash
    | IHardCrash
    | IPushGlobal(mem: nat)                // the memory of global g is the address g + 1
    | ICall(code: nat, argc: nat)          // the code of function f is the address f + 1
    | ICallNative(argc: nat)
    | ISliceFromArr(dataOffset: nat, elemSize: nat, lenOffset: nat)
    | ISliceAt(elemSize: nat, lenOffset: nat)
    | ISliceInc(elemSize: nat, lenOffset: nat)
    | ISliceDec(elemSize: nat, lenOffset: nat)
    | IStructAt(fieldOffset: nat)
    | ISliceFromOne(lenOffset: nat)
    | IExit(scope: nat)  // only while compiling: a jump whose target, the end of a scope, is open

  function ArithCode(a: Arith): u8 {
    match a
    case Add => 0 case Sub => 1 case Mul => 2 case Div => 3 case And => 4 case Or => 5 case Xor => 6
  }

  function Opcode(i: Instr): u8 {
    match i
    case IDone => 0
    case IRet => 1
    case IStorageAdd(_) => 2
    case IPushVar(_) => 3
    case IPushArg(_) => 4
    case IDropN(_) => 5
    case IArrAt(_, _, _) => 6
    case ICopy(_) => 7
    case ICalc(a) => 8 + ArithCode(a)
    case IBitNot => 15
    case IArrPush(_, _, _) => 16
    case IArrDrop => 17
    case IJump(_) => 18
    case IBranch(_, _, _) => 19
    case IBranchTop(_, _) => 20
    case IPushCrash(_) => 21
    case IPopCrash => 22
    case ICrash => 23
    case IHardCrash => 24
    case IPushGlobal(_) => 25
    case ICall(_, _) => 26
    case ICallNative(_) => 27
    case ISliceFromArr(_, _, _) => 28
    case ISliceAt(_, _) => 29
    case ISliceInc(_, _) => 30
    case ISliceDec(_, _) => 31
    case IStructAt(_) => 32
    case ISliceFromOne(_) => 33
    case IExit(_) => 18
  }

  /** The widths in bytes of the operands that follow an opcode. */
  function Widths(opcode: u8): Option<seq<nat>> {
    if opcode > 33 then None else Some(
      if opcode == 2 || opcode == 3 || opcode == 18 || opcode == 21 then [2]
      else if opcode == 4 || opcode == 5 || opcode == 27 then [4]
      else if opcode == 6 || opcode == 16 then [8, 8, 4]
      else if opcode == 7 || opcode == 25 || opcode == 32 || opcode == 33 then [8]
      else if opcode == 19 then [2, 2, 2]
      else if opcode == 20 then [2, 2]
      else if opcode == 26 then [8, 4]
      else if opcode == 28 then [8, 8, 8]
      else if opcode == 29 || opcode == 30 || opcode == 31 then [8, 8]
      else [])
  }

  function Operands(i: Instr): seq<nat> {
    match i
    case IStorageAdd(n) => [n % TWO16]
    case IPushVar(n) => [n % TWO16]
    case IPushArg(n) => [n]
    case IDropN(n) => [n]
    case IArrAt(d, e, c) => [d, e, c]
    case ICopy(n) => [n]
    case IArrPush(d, e, c) => [d, e, c]
    case IJump(t) => [t]
    case IBranch(n, y, m) => [n % TWO16, y, m]
    case IBranchTop(y, m) => [y, m]
    case IPushCrash(t) => [t]
    case IPushGlobal(m) => [m]
    case ICall(c, n) => [c, n]
    case ICallNative(n) => [n]
    case ISliceFromArr(d, e, l) => [d, e, l]
    case ISliceAt(e, l) => [e, l]
    case ISliceInc(e, l) => [e, l]
    case ISliceDec(e, l) => [e, l]
    case IStructAt(o) => [o]
    case ISliceFromOne(l) => [l]
    case IExit(_) => [0]
    case _ => []
  }

  /** A 16 bit field read as a signed number. */
  function Signed(n: nat): int { if n < 0x8000 then n else n - TWO16 }

  function Make(opcode: u8, v: seq<nat>): Instr
    requires Widths(opcode).Some? && |v| == |Widths(opcode).value|
  {
    if opcode == 0 then IDone
    else if opcode == 1 then IRet
    else if opcode == 2 then IStorageAdd(Signed(v[0]))
    else if opcode == 3 then IPushVar(Signed(v[0]))
    else if opcode == 4 then IPushArg(v[0])
    else if opcode == 5 then IDropN(v[0])
    else if opcode == 6 then IArrAt(v[0], v[1], v[2])
    else if opcode == 7 then ICopy(v[0])
    else if opcode == 8 then ICalc(Add)
    else if opcode == 9 then ICalc(Sub)
    else if opcode == 10 then ICalc(Mul)
    else if opcode == 11 then ICalc(Div)
    else if opcode == 12 then ICalc(And)
    else if opcode == 13 then ICalc(Or)
    else if opcode == 14 then ICalc(Xor)
    else if opcode == 15 then IBitNot
    else if opcode == 16 then IArrPush(v[0], v[1], v[2])
    else if opcode == 17 then IArrDrop
    else if opcode == 18 then IJump(v[0])
    else if opcode == 19 then IBranch(Signed(v[0]), v[1], v[2])
    else if opcode == 20 then IBranchTop(v[0], v[1])
    else if opcode == 21 then IPushCrash(v[0])
    else if opcode == 22 then IPopCrash
    else if opcode == 23 then ICrash
    else if opcode == 24 then IHardCrash
    else if opcode == 25 then IPushGlobal(v[0])
    else if opcode == 26 then ICall(v[0], v[1])
    else if opcode == 27 then ICallNative(v[0])
    else if opcode == 28 then ISliceFromArr(v[0], v[1], v[2])
    else if opcode == 29 then ISliceAt(v[0], v[1])
    else if opcode == 30 then ISliceInc(v[0], v[1])
    else if opcode == 31 then ISliceDec(v[0], v[1])
    else if opcode == 32 then IStructAt(v[0])
    else ISliceFromOne(v[0])
  }

  // ----- encoding -----

  function Sum(ws: seq<nat>): nat {
    if |ws| == 0 then 0 else ws[0] + Sum(ws[1..])
  }

  /** The bytes an instruction takes. */
  function Length(i: Instr): (n: nat)
    ensures n > 0
  {
    match i
    case IStorageAdd(_) => 3
    case IPushVar(_) => 3
    case IPushArg(_) => 5
    case IDropN(_) => 5
    case IArrAt(_, _, _) => 21
    case ICopy(_) => 9
    case IArrPush(_, _, _) => 21
    case IJump(_) => 3
    case IBranch(_, _, _) => 7
    case IBranchTop(_, _) => 5
    case IPushCrash(_) => 3
    case IPushGlobal(_) => 9
    case ICall(_, _) => 13
    case ICallNative(_) => 5
    case ISliceFromArr(_, _, _) => 25
    case ISliceAt(_, _) => 17
    case ISliceInc(_, _) => 17
    case ISliceDec(_, _) => 17
    case IStructAt(_) => 9
    case ISliceFromOne(_) => 9
    case IExit(_) => 3
    case _ => 1
  }

  lemma SumUnfolds(ws: seq<nat>)
    requires |ws| <= 3
    ensures Sum(ws) == (if |ws| > 0 then ws[0] else 0) + (if |ws| > 1 then ws[1] else 0) + (if |ws| > 2 then ws[2] else 0)
  {
    if |ws| > 0 {
      var a := ws[1..];
      assert Sum(ws) == ws[0] + Sum(a);
      if |a| > 0 {
        var b := a[1..];
        assert Sum(a) == a[0] + Sum(b);
        if |b| > 0 {
          assert Sum(b) == b[0] + Sum(b[1..]);
        }
      }
    }
  }

  lemma LengthOfWidths(i: Instr)
    ensures |Operands(i)| == |Widths(Opcode(i)).value|
    ensures Length(i) == 1 + Sum(Widths(Opcode(i)).value)
  {
    SumUnfolds(Widths(Opcode(i)).value);
  }

  function CodeLength(code: seq<Instr>): nat {
    if |code| == 0 then 0 else Length(code[0]) + CodeLength(code[1..])
  }

  function EncodeOperands(v: seq<nat>, ws: seq<nat>): (r: seq<u8>)
    requires |v| == |ws|
    ensures |r| == Sum(ws)
  {
    if |v| == 0 then [] else Digits(v[0], ws[0]) + EncodeOperands(v[1..], ws[1..])
  }

  function Encode(i: Instr): (r: seq<u8>)
    ensures |r| == Length(i)
  {
    LengthOfWidths(i);
    [Opcode(i)] + EncodeOperands(Operands(i), Widths(Opcode(i)).value)
  }

  function EncodeAll(code: seq<Instr>): (r: seq<u8>)
    ensures |r| == CodeLength(code)
  {
    if |code| == 0 then [] else Encode(code[0]) + EncodeAll(code[1..])
  }

  predicate IsOffset(n: int) { -0x8000 <= n < 0x8000 }

  /** The operands fit their fields. */
  predicate Fits(i: Instr) {
    match i
    case IStorageAdd(n) => IsOffset(n)
    case IPushVar(n) => IsOffset(n)
    case IPushArg(n) => n < TWO32
    case IDropN(n) => n < TWO32
    case IArrAt(d, e, c) => d < TWO64 && e < TWO64 && c < TWO32
    case ICopy(n) => n < TWO64
    case IArrPush(d, e, c) => d < TWO64 && e < TWO64 && c < TWO32
    case IJump(t) => t < TWO16
    case IBranch(n, y, m) => IsOffset(n) && y < TWO16 && m < TWO16
    case IBranchTop(y, m) => y < TWO16 && m < TWO16
    case IPushCrash(t) => t < TWO16
    case IPushGlobal(m) => m < TWO64
    case ICall(c, n) => c < TWO64 && n < TWO32
    case ICallNative(n) => n < TWO32
    case ISliceFromArr(d, e, l) => d < TWO64 && e < TWO64 && l < TWO64
    case ISliceAt(e, l) => e < TWO64 && l < TWO64
    case ISliceInc(e, l) => e < TWO64 && l < TWO64
    case ISliceDec(e, l) => e < TWO64 && l < TWO64
    case IStructAt(o) => o < TWO64
    case ISliceFromOne(l) => l < TWO64
    case IExit(_) => false
    case _ => true
  }

  predicate FitAll(v: seq<nat>, ws: seq<nat>) {
    |v| == |ws| && forall k :: 0 <= k < |v| ==> v[k] < Pow256(ws[k])
  }

  predicate AllFit(code: seq<Instr>) {
    forall k :: 0 <= k < |code| ==> Fits(code[k])
  }

  // ----- decoding -----

  datatype Fetched = Got(i: Instr, next: nat) | BadOpcode | OffEnd

  function ReadOperands(bytes: seq<u8>, at: nat, ws: seq<nat>): (v: seq<nat>)
    requires at + Sum(ws) <= |bytes|
    ensures |v| == |ws|
    decreases |ws|
  {
    if |ws| == 0 then [] else [Value(bytes[at..at + ws[0]])] + ReadOperands(bytes, at + ws[0], ws[1..])
  }

  function Fetch(bytes: seq<u8>, pc: nat): Fetched {
    if pc >= |bytes| then OffEnd
    else match Widths(bytes[pc])
      case None => BadOpcode
      case Some(ws) =>
        if pc + 1 + Sum(ws) > |bytes| then OffEnd
        else Got(Make(bytes[pc], ReadOperands(bytes, pc + 1, ws)), pc + 1 + Sum(ws))
  }

  // ----- decoding undoes encoding -----

  lemma SliceSplit(s: seq<u8>, at: nat, a: seq<u8>, b: seq<u8>)
    requires at + |a| + |b| <= |s| && s[at..at + |a| + |b|] == a + b
    ensures s[at..at + |a|] == a && s[at + |a|..at + |a| + |b|] == b
  {
    var all := s[at..at + |a| + |b|];
    assert all[..|a|] == a && all[|a|..] == b;
    assert all[..|a|] == s[at..at + |a|] && all[|a|..] == s[at + |a|..at + |a| + |b|];
  }

  lemma {:induction false} OperandsRoundTrip(bytes: seq<u8>, at: nat, v: seq<nat>, ws: seq<nat>)
    requires FitAll(v, ws) && at + Sum(ws) <= |bytes| && bytes[at..at + Sum(ws)] == EncodeOperands(v, ws)
    ensures ReadOperands(bytes, at, ws) == v
    decreases |ws|
  {
    if |v| > 0 {
      var w := ws[0];
      SliceSplit(bytes, at, Digits(v[0], w), EncodeOperands(v[1..], ws[1..]));
      DigitsRoundTrip(v[0], w);
      OperandsRoundTrip(bytes, at + w, v[1..], ws[1..]);
    }
  }

  lemma FieldsFit(i: Instr)
    requires Fits(i)
    ensures FitAll(Operands(i), Widths(Opcode(i)).value)
  {
    PowValues();
  }

  lemma MakeRoundTrip(i: Instr)
    requires Fits(i) && |Operands(i)| == |Widths(Opcode(i)).value|
    ensures Make(Opcode(i), Operands(i)) == i
  {
    SignedRoundTrip(if i.IStorageAdd? then i.amount else if i.IPushVar? || i.IBranch? then i.offset else 0);
  }

  lemma SignedRoundTrip(n: int)
    requires -0x8000 <= n < 0x8000
    ensures Signed(n % TWO16) == n
  {
    if n < 0 { assert n % TWO16 == n + TWO16; }
  }

  /** The bytes from `at` on begin with this code. */
  predicate CodeAt(bytes: seq<u8>, at: nat, code: seq<Instr>) {
    at + CodeLength(code) <= |bytes| && bytes[at..at + CodeLength(code)] == EncodeAll(code)
  }

  lemma FetchAt(bytes: seq<u8>, at: nat, i: Instr)
    requires Fits(i) && at + Length(i) <= |bytes| && bytes[at..at + Length(i)] == Encode(i)
    ensures Fetch(bytes, at) == Got(i, at + Length(i))
  {
    var ws := Widths(Opcode(i)).value;
    LengthOfWidths(i);
    FieldsFit(i);
    SliceSplit(bytes, at, [Opcode(i)], EncodeOperands(Operands(i), ws));
    assert bytes[at..at + 1][0] == Opcode(i);
    OperandsRoundTrip(bytes, at + 1, Operands(i), ws);
    MakeRoundTrip(i);
  }

  /** Fetching at the start of an encoded instruction gives it back and moves to the next. */
  lemma FetchFirst(bytes: seq<u8>, at: nat, code: seq<Instr>)
    requires |code| > 0 && CodeAt(bytes, at, code) && Fits(code[0])
    ensures Fetch(bytes, at) == Got(code[0], at + Length(code[0]))
    ensures CodeAt(bytes, at + Length(code[0]), code[1..])
  {
    SliceSplit(bytes, at, Encode(code[0]), EncodeAll(code[1..]));
    FetchAt(bytes, at, code[0]);
  }

  lemma {:induction false} EncodeConcat(a: seq<Instr>, b: seq<Instr>)
    ensures EncodeAll(a + b) == EncodeAll(a) + EncodeAll(b)
    ensures CodeLength(a + b) == CodeLength(a) + CodeLength(b)
  {
    if |a| == 0 {
      assert a + b == b;
    } else {
      assert (a + b)[1..] == a[1..] + b;
      EncodeConcat(a[1..], b);
    }
  }

  lemma LengthConcat(a: seq<Instr>, b: seq<Instr>)
    ensures CodeLength(a + b) == CodeLength(a) + CodeLength(b)
  {
    EncodeConcat(a, b);
  }

  // ----- the whole code -----

  /** All instructions from `at` to the end of the bytes. */
  function DecodeAll(bytes: seq<u8>, at: nat): Option<seq<Instr>>
    decreases if at < |bytes| then |bytes| - at else 0
  {
    if at >= |bytes| then Some([])
    else match Fetch(bytes, at)
      case Got(i, next) =>
        (match DecodeAll(bytes, next) case Some(rest) => Some([i] + rest) case None => None)
      case _ => None
  }

  /** Decoding the emitted bytes yields exactly the emitted instructions. */
  lemma {:induction false} DecodeEncode(bytes: seq<u8>, at: nat, code: seq<Instr>)
    requires AllFit(code) && CodeAt(bytes, at, code) && at + CodeLength(code) == |bytes|
    ensures DecodeAll(bytes, at) == Some(code)
    decreases |code|
  {
    if |code| > 0 {
      FetchFirst(bytes, at, code);
      DecodeEncode(bytes, at + Length(code[0]), code[1..]);
      assert [code[0]] + code[1..] == code;
    }
  }
}
