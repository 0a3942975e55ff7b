/** The register-level logic of one AR-KD2 motor driver: the operation-id
    bits of the driver-input command word, single input flags, 32-bit values
    split over two registers, the double-buffered speed update and the alarm
    reset. A register value is an unsigned 16-bit number; its bits are read
    through `Bits`, least significant first, and `|`, `& ~` and `1 << p` are
    defined on those bits. */
module MotorBits {
  import opened Wrappers

  /** An unsigned 16-bit register value (`std::uint16_t`). */
  type Word = w: int | 0 <= w < 0x1_0000

  /** An unsigned byte (`std::uint8_t`): operation ids and alarm codes. */
  type Byte = b: int | 0 <= b < 0x100

  // ---------------------------------------------------------------------
  // Bits of unsigned values
  // ---------------------------------------------------------------------

  function Pow2(n: nat): (r: nat)
    ensures r >= 1
  {
    if n == 0 then 1 else 2 * Pow2(n - 1)
  }

  /** The `n` low bits of `w`, least significant first. */
  function Bits(w: nat, n: nat): (b: seq<bool>)
    ensures |b| == n
  {
    if n == 0 then [] else [w % 2 == 1] + Bits(w / 2, n - 1)
  }

  /** The number a bit sequence stands for, least significant bit first. */
  function ValueOf(b: seq<bool>): (v: nat)
    ensures v < Pow2(|b|)
  {
    if b == [] then 0 else (if b[0] then 1 else 0) + 2 * ValueOf(b[1..])
  }

  /** A number below `2^n` is the value of its `n` bits. */
  lemma {:induction false} ValueOfBits(w: nat, n: nat)
    requires w < Pow2(n)
    ensures ValueOf(Bits(w, n)) == w
  {
    if n > 0 {
      ValueOfBits(w / 2, n - 1);
      assert Bits(w, n)[1..] == Bits(w / 2, n - 1);
    }
  }

  /** The bits of the value of a bit sequence are that sequence. */
  lemma {:induction false} BitsOfValue(b: seq<bool>)
    ensures Bits(ValueOf(b), |b|) == b
  {
    if b != [] {
      var v := ValueOf(b);
      assert v % 2 == (if b[0] then 1 else 0) && v / 2 == ValueOf(b[1..]);
      BitsOfValue(b[1..]);
      assert b == [b[0]] + b[1..];
    }
  }

  /** A value whose bits from `j` on are clear is below `2^j`. */
  lemma {:induction false} ValueBelow(b: seq<bool>, j: nat)
    requires j <= |b| && forall i :: j <= i < |b| ==> !b[i]
    ensures ValueOf(b) < Pow2(j)
  {
    if b != [] {
      ValueBelow(b[1..], if j == 0 then 0 else j - 1);
    }
  }

  /** The bits of a value below `2^j` from `j` on are clear. */
  lemma {:induction false} BitsAbove(w: nat, n: nat, j: nat, i: nat)
    requires w < Pow2(j) && j <= i < n
    ensures !Bits(w, n)[i]
  {
    if j == 0 {
      ZeroBits(n, i);
    } else {
      assert Bits(w, n)[i] == Bits(w / 2, n - 1)[i - 1];
      BitsAbove(w / 2, n - 1, j - 1, i - 1);
    }
  }

  lemma {:induction false} ZeroBits(n: nat, i: nat)
    requires i < n
    ensures !Bits(0, n)[i]
  {
    if i > 0 {
      ZeroBits(n - 1, i - 1);
    }
  }

  /** Two numbers below `2^n` with the same `n` bits are equal. */
  lemma BitsDetermine(a: nat, b: nat, n: nat)
    requires a < Pow2(n) && b < Pow2(n) && Bits(a, n) == Bits(b, n)
    ensures a == b
  {
    ValueOfBits(a, n);
    ValueOfBits(b, n);
  }

  lemma Pow2Values()
    ensures Pow2(6) == 64 && Pow2(8) == 0x100 && Pow2(16) == 0x1_0000
  {
  }

  /** Bit `p` of a word. */
  predicate Has(w: Word, p: nat)
    requires p < 16
  {
    Bits(w, 16)[p]
  }

  /** The word built from sixteen bits. */
  function WordOf(b: seq<bool>): (w: Word)
    requires |b| == 16
    ensures forall p :: 0 <= p < 16 ==> Has(w, p) == b[p]
  {
    Pow2Values();
    BitsOfValue(b);
    ValueOf(b)
  }

  /** `a | b`. */
  function Or(a: Word, b: Word): Word {
    WordOf(seq(16, i requires 0 <= i < 16 => Has(a, i) || Has(b, i)))
  }

  /** `a & ~m`. */
  function AndNot(a: Word, m: Word): Word {
    WordOf(seq(16, i requires 0 <= i < 16 => Has(a, i) && !Has(m, i)))
  }

  /** `1 << p`. */
  function Bit(p: nat): Word
    requires p < 16
  {
    WordOf(seq(16, i requires 0 <= i < 16 => i == p))
  }

  /** The word with bit `p` set when `on` and cleared otherwise. */
  function WithBit(w: Word, p: nat, on: bool): Word
    requires p < 16
  {
    if on then Or(w, Bit(p)) else AndNot(w, Bit(p))
  }

  lemma HasOr(a: Word, b: Word, q: nat)
    requires q < 16
    ensures Has(Or(a, b), q) == (Has(a, q) || Has(b, q))
  {
  }

  lemma HasAndNot(a: Word, m: Word, q: nat)
    requires q < 16
    ensures Has(AndNot(a, m), q) == (Has(a, q) && !Has(m, q))
  {
  }

  lemma HasBit(p: nat, q: nat)
    requires p < 16 && q < 16
    ensures Has(Bit(p), q) == (p == q)
  {
  }

  lemma ZeroHasNothing(q: nat)
    requires q < 16
    ensures !Has(0, q)
  {
    ZeroBits(16, q);
  }

  /** `setDriverInputFlag`'s change touches one bit: bit `p` becomes `on`,
      every other bit is kept. */
  lemma WithBitExact(w: Word, p: nat, on: bool, q: nat)
    requires p < 16 && q < 16
    ensures Has(WithBit(w, p, on), q) == if q == p then on else Has(w, q)
  {
    HasBit(p, q);
    if on {
      HasOr(w, Bit(p), q);
    } else {
      HasAndNot(w, Bit(p), q);
    }
  }

  /** Words with the same sixteen bits are equal. */
  lemma WordsEqual(a: Word, b: Word)
    requires forall q :: 0 <= q < 16 ==> Has(a, q) == Has(b, q)
    ensures a == b
  {
    Pow2Values();
    forall q | 0 <= q < 16 ensures Bits(a, 16)[q] == Bits(b, 16)[q] {
      assert Has(a, q) == Has(b, q);
    }
    assert Bits(a, 16) == Bits(b, 16);
    BitsDetermine(a, b, 16);
  }

  /** Setting or clearing a bit twice is the same as doing it once. */
  lemma WithBitIdempotent(w: Word, p: nat, on: bool)
    requires p < 16
    ensures WithBit(WithBit(w, p, on), p, on) == WithBit(w, p, on)
  {
    var once := WithBit(w, p, on);
    forall q | 0 <= q < 16 ensures Has(WithBit(once, p, on), q) == Has(once, q) {
      WithBitExact(once, p, on, q);
      WithBitExact(w, p, on, q);
    }
    WordsEqual(WithBit(once, p, on), once);
  }

  // ---------------------------------------------------------------------
  // The driver-input command word
  // ---------------------------------------------------------------------

  /** The inputs of the driver-input command word (register 0x007D). */
  datatype InputFlag =
    | M0 | M1 | M2 | Start | Home | Stop | Free
    | Ms0 | Ms1 | Ms2 | SStart | PlusJog | MinusJog | Fwd | Rvs

  /** Bit position of each input; bit 7 is unused. */
  function FlagBit(f: InputFlag): (p: nat)
    ensures p < 16 && p != 7
  {
    match f
    case M0 => 0
    case M1 => 1
    case M2 => 2
    case Start => 3
    case Home => 4
    case Stop => 5
    case Free => 6
    case Ms0 => 8
    case Ms1 => 9
    case Ms2 => 10
    case SStart => 11
    case PlusJog => 12
    case MinusJog => 13
    case Fwd => 14
    case Rvs => 15
  }

  /** Distinct inputs have distinct bits. */
  lemma FlagBitInjective(f: InputFlag, g: InputFlag)
    requires FlagBit(f) == FlagBit(g)
    ensures f == g
  {
  }

  // ---------------------------------------------------------------------
  // Function codes
  // ---------------------------------------------------------------------

  const FunctionFwd: int := 1
  const FunctionRvs: int := 2
  const FunctionHome: int := 3
  const FunctionStart: int := 4
  const FunctionPlusJog: int := 6
  const FunctionMinusJog: int := 7
  const FunctionMs0: int := 8
  const FunctionMs1: int := 9
  const FunctionMs2: int := 10
  const FunctionCOn: int := 17
  const FunctionStop: int := 18
  const FunctionM0: int := 48
  const FunctionM1: int := 49
  const FunctionM2: int := 50

  /** The function codes of the six operation-select inputs; entry `k`
      carries bit `k` of the operation id. */
  const OpCodes: seq<int> := [FunctionM0, FunctionM1, FunctionM2, FunctionMs0, FunctionMs1, FunctionMs2]

  /** `fallbackInputBitMaskForFunction`, as the input whose fixed bit
      stands for a function code when no NET-IN channel is assigned to it. */
  function FallbackFlag(code: int): (r: Option<InputFlag>)
    ensures r.Some? ==> r.value != Free && r.value != SStart
  {
    if code == FunctionM0 then Some(M0)
    else if code == FunctionM1 then Some(M1)
    else if code == FunctionM2 then Some(M2)
    else if code == FunctionStart then Some(Start)
    else if code == FunctionHome then Some(Home)
    else if code == FunctionStop then Some(Stop)
    else if code == FunctionMs0 then Some(Ms0)
    else if code == FunctionMs1 then Some(Ms1)
    else if code == FunctionMs2 then Some(Ms2)
    else if code == FunctionPlusJog then Some(PlusJog)
    else if code == FunctionMinusJog then Some(MinusJog)
    else if code == FunctionFwd then Some(Fwd)
    else if code == FunctionRvs then Some(Rvs)
    else None
  }

  /** Distinct function codes fall back on distinct inputs. */
  lemma FallbackInjective(c1: int, c2: int)
    requires FallbackFlag(c1).Some? && FallbackFlag(c1) == FallbackFlag(c2)
    ensures c1 == c2
  {
  }

  /** The lowest index at or after `i` holding `x`. */
  function FirstFrom(s: seq<int>, x: int, i: nat): (r: Option<nat>)
    requires i <= |s|
    ensures r.None? <==> x !in s[i..]
    ensures r.Some? ==> i <= r.value < |s| && s[r.value] == x && x !in s[i..r.value]
    decreases |s| - i
  {
    if i == |s| then None
    else if s[i] == x then Some(i)
    else
      var r := FirstFrom(s, x, i + 1);
      assert s[i..] == [s[i]] + s[i + 1..];
      if r.Some? then
        assert s[i..r.value] == [s[i]] + s[i + 1..r.value];
        r
      else r
  }

  /** The lowest index holding `x`. */
  function FirstIndex(s: seq<int>, x: int): (r: Option<nat>)
    ensures r.None? <==> x !in s
    ensures r.Some? ==> r.value < |s| && s[r.value] == x && x !in s[..r.value]
  {
    assert s[0..] == s;
    var r := FirstFrom(s, x, 0);
    if r.Some? then assert s[0..r.value] == s[..r.value]; r else r
  }

  /** The NET-IN function assignments the driver reports: one code per
      channel, sixteen channels. */
  predicate ValidAssignments(assign: Option<seq<int>>) {
    assign.Some? ==> |assign.value| == 16
  }

  /** `netInputBitForFunction`: nothing while no assignments are loaded,
      otherwise the lowest channel assigned the code. */
  function NetInputBit(assign: Option<seq<int>>, code: int): (r: Option<nat>)
    ensures assign.None? ==> r.None?
    ensures assign.Some? ==> r == FirstIndex(assign.value, code)
  {
    if assign.None? then None else FirstIndex(assign.value, code)
  }

  /** The bit that stands for a function code: its NET-IN channel if it
      has one, else its fallback input. */
  function CodeBit(assign: Option<seq<int>>, code: int): (r: Option<nat>)
    requires ValidAssignments(assign)
    ensures r.Some? ==> r.value < 16
  {
    match NetInputBit(assign, code)
    case Some(i) => Some(i)
    case None =>
      match FallbackFlag(code)
      case Some(f) => Some(FlagBit(f))
      case None => None
  }

  /** The bit of operation-id bit `k`: every operation-select code has a
      fallback input, so there always is one. */
  function OpBit(assign: Option<seq<int>>, k: nat): (p: nat)
    requires ValidAssignments(assign) && k < 6
    ensures p < 16 && CodeBit(assign, OpCodes[k]) == Some(p)
  {
    CodeBit(assign, OpCodes[k]).value
  }

  /** Six bit positions, one per operation-id bit. */
  predicate ValidPositions(ps: seq<nat>) {
    |ps| == 6 && forall k :: 0 <= k < 6 ==> ps[k] < 16
  }

  /** The positions of the six operation-id bits. */
  function OpPositions(assign: Option<seq<int>>): (ps: seq<nat>)
    requires ValidAssignments(assign)
    ensures ValidPositions(ps)
    ensures forall k :: 0 <= k < 6 ==> ps[k] == OpBit(assign, k)
  {
    seq(6, k requires 0 <= k < 6 => OpBit(assign, k))
  }

  predicate Distinct(ps: seq<nat>) {
    forall k, l :: 0 <= k < l < |ps| ==> ps[k] != ps[l]
  }

  /** Without assignments the operation id lives in M0..M2 (bits 0..2) and
      MS0..MS2 (bits 8..10), six distinct bits. */
  lemma FallbackPositions()
    ensures OpPositions(None) == FixedPositions
    ensures Distinct(OpPositions(None))
  {
    FallbackLowBits();
    FallbackHighBits();
    var ps := OpPositions(None);
    assert ps == [ps[0], ps[1], ps[2], ps[3], ps[4], ps[5]];
  }

  lemma FallbackLowBits()
    ensures OpBit(None, 0) == 0 && OpBit(None, 1) == 1 && OpBit(None, 2) == 2
  {
  }

  lemma FallbackHighBits()
    ensures OpBit(None, 3) == 8 && OpBit(None, 4) == 9 && OpBit(None, 5) == 10
  {
  }

  /** When every operation-select code has a NET-IN channel the six bits
      are distinct too. */
  lemma MappedDistinct(a: seq<int>)
    requires |a| == 16 && forall k :: 0 <= k < 6 ==> OpCodes[k] in a
    ensures Distinct(OpPositions(Some(a)))
  {
    var ps := OpPositions(Some(a));
    forall k, l | 0 <= k < l < 6 ensures ps[k] != ps[l] {
      assert a[ps[k]] == OpCodes[k] && a[ps[l]] == OpCodes[l];
    }
  }

  // ---------------------------------------------------------------------
  // The operation id
  // ---------------------------------------------------------------------

  /** `opId & (1 << k) != 0`. */
  predicate OpHas(op: Byte, k: nat)
    requires k < 8
  {
    Bits(op, 8)[k]
  }

  /** `1 << k` as a byte. */
  function OpMask(k: nat): (m: Byte)
    requires k < 8
    ensures forall i :: 0 <= i < 8 ==> OpHas(m, i) == (i == k)
  {
    Pow2Values();
    var b := seq(8, i requires 0 <= i < 8 => i == k);
    BitsOfValue(b);
    ValueOf(b)
  }

  /** `opId | m` on bytes. */
  function OrByte(op: Byte, m: Byte): (r: Byte)
    ensures forall i :: 0 <= i < 8 ==> OpHas(r, i) == (OpHas(op, i) || OpHas(m, i))
  {
    Pow2Values();
    var b := seq(8, i requires 0 <= i < 8 => OpHas(op, i) || OpHas(m, i));
    BitsOfValue(b);
    ValueOf(b)
  }

  /** The id the first `k` decoding steps build: step `i` sets id bit `i`
      when the word has the bit at `ps[i]`. */
  function DecodeUpTo(raw: Word, ps: seq<nat>, k: nat): Byte
    requires ValidPositions(ps) && k <= 6
  {
    if k == 0 then 0
    else if Has(raw, ps[k - 1]) then OrByte(DecodeUpTo(raw, ps, k - 1), OpMask(k - 1))
    else DecodeUpTo(raw, ps, k - 1)
  }

  /** Bit `i` of the partial id is the word's bit at `ps[i]` for the steps
      taken, clear otherwise. */
  lemma {:induction false} DecodeUpToBits(raw: Word, ps: seq<nat>, k: nat, i: nat)
    requires ValidPositions(ps) && k <= 6 && i < 8
    ensures OpHas(DecodeUpTo(raw, ps, k), i) == (i < k && Has(raw, ps[i]))
  {
    if k == 0 {
      Pow2Values();
      ZeroBits(8, i);
    } else {
      DecodeUpToBits(raw, ps, k - 1, i);
    }
  }

  /** Bit `k` of the id is the word's bit at position `ps[k]`. */
  function DecodeWith(raw: Word, ps: seq<nat>): (op: Byte)
    requires ValidPositions(ps)
    ensures op < 64
    ensures forall k :: 0 <= k < 6 ==> OpHas(op, k) == Has(raw, ps[k])
  {
    var op := DecodeUpTo(raw, ps, |ps|);
    forall i | 0 <= i < 8 ensures Bits(op, 8)[i] == (i < 6 && Has(raw, ps[i])) {
      DecodeUpToBits(raw, ps, |ps|, i);
    }
    Pow2Values();
    ValueOfBits(op, 8);
    ValueBelow(Bits(op, 8), 6);
    op
  }

  /** The fixed positions: M0, M1, M2 (bits 0..2), MS0, MS1, MS2 (bits
      8..10). */
  const FixedPositions: seq<nat> := [0, 1, 2, 8, 9, 10]

  /** `decodeOperationIdFromInputRaw`: bits M0, M1, M2, MS0, MS1, MS2 of
      the word become bits 0..5 of the id; every other bit is ignored. */
  function DecodeOperationId(raw: Word): (op: Byte)
    ensures op < 64
    ensures forall k :: 0 <= k < 6 ==> OpHas(op, k) == Has(raw, FixedPositions[k])
  {
    DecodeWith(raw, FixedPositions)
  }

  /** `decodeOperationIdFromInputRawMapped`. */
  function DecodeMapped(raw: Word, assign: Option<seq<int>>): (op: Byte)
    requires ValidAssignments(assign)
    ensures op < 64
    ensures forall k :: 0 <= k < 6 ==> OpHas(op, k) == Has(raw, OpBit(assign, k))
  {
    DecodeWith(raw, OpPositions(assign))
  }

  /** Without assignments the mapped decoding is the fixed one. */
  lemma DecodeUnmapped(raw: Word)
    ensures DecodeMapped(raw, None) == DecodeOperationId(raw)
  {
    FallbackPositions();
  }

  /** Only the six operation-select bits matter: words that agree on them
      decode to the same id. */
  lemma DecodeIgnoresOtherBits(a: Word, b: Word)
    requires forall k :: 0 <= k < 6 ==> Has(a, FixedPositions[k]) == Has(b, FixedPositions[k])
    ensures DecodeOperationId(a) == DecodeOperationId(b)
  {
    var x, y := DecodeOperationId(a), DecodeOperationId(b);
    Pow2Values();
    forall i | 0 <= i < 8 ensures Bits(x, 8)[i] == Bits(y, 8)[i] {
      if i < 6 {
        assert OpHas(x, i) == Has(a, FixedPositions[i]);
        assert OpHas(y, i) == Has(b, FixedPositions[i]);
      } else {
        BitsAbove(x, 8, 6, i);
        BitsAbove(y, 8, 6, i);
      }
    }
    assert Bits(x, 8) == Bits(y, 8);
    BitsDetermine(x, y, 8);
  }

  /** The word with inputs M0, M2, MS1 and MS2 on. */
  function ExampleWord(): Word {
    Or(Or(Or(Bit(0), Bit(2)), Bit(9)), Bit(10))
  }

  lemma ExampleWordBits(q: nat)
    requires q < 16
    ensures Has(ExampleWord(), q) == (q == 0 || q == 2 || q == 9 || q == 10)
  {
    HasOr(Or(Or(Bit(0), Bit(2)), Bit(9)), Bit(10), q);
    HasOr(Or(Bit(0), Bit(2)), Bit(9), q);
    HasOr(Bit(0), Bit(2), q);
    HasBit(0, q);
    HasBit(2, q);
    HasBit(9, q);
    HasBit(10, q);
  }

  /** The bits of operation 53, least significant first. */
  const Op53Bits: seq<bool> := [true, false, true, false, true, true, false, false]

  lemma Value53()
    ensures ValueOf(Op53Bits) == 53
  {
    var b := Op53Bits;
    assert ValueOf(b[7..]) == 0 && ValueOf(b[6..]) == 0 && ValueOf(b[5..]) == 1;
    assert ValueOf(b[4..]) == 3 && ValueOf(b[3..]) == 6 && ValueOf(b[2..]) == 13;
    assert ValueOf(b[1..]) == 26;
  }

  /** A word whose inputs M0, M2, MS1 and MS2 are on, and no other
      operation-select input, selects operation 53. */
  lemma DecodeExample(w: Word)
    requires Has(w, 0) && !Has(w, 1) && Has(w, 2) && !Has(w, 8) && Has(w, 9) && Has(w, 10)
    ensures DecodeOperationId(w) == 53
  {
    var op := DecodeOperationId(w);
    Pow2Values();
    forall i | 0 <= i < 8 ensures Bits(op, 8)[i] == Op53Bits[i] {
      if i < 6 {
        assert OpHas(op, i) == Has(w, FixedPositions[i]);
      } else {
        BitsAbove(op, 8, 6, i);
      }
    }
    assert Bits(op, 8) == Op53Bits;
    ValueOfBits(op, 8);
    Value53();
  }

  /** M0 | M2 | MS1 | MS2 is operation 53. */
  lemma DecodeExampleWord()
    ensures DecodeOperationId(ExampleWord()) == 53
  {
    ExampleWordBits(0);
    ExampleWordBits(1);
    ExampleWordBits(2);
    ExampleWordBits(8);
    ExampleWordBits(9);
    ExampleWordBits(10);
    DecodeExample(ExampleWord());
  }

  /** `operationIdMask`, over the first `n` positions. */
  function MaskOf(ps: seq<nat>, n: nat): Word
    requires ValidPositions(ps) && n <= |ps|
  {
    if n == 0 then 0 else Or(MaskOf(ps, n - 1), Bit(ps[n - 1]))
  }

  /** A bit of the mask is set exactly when it is one of the positions. */
  lemma {:induction false} MaskBits(ps: seq<nat>, n: nat, q: nat)
    requires ValidPositions(ps) && n <= 6 && q < 16
    ensures Has(MaskOf(ps, n), q) <==> q in ps[..n]
  {
    if n > 0 {
      MaskBits(ps, n - 1, q);
      HasOr(MaskOf(ps, n - 1), Bit(ps[n - 1]), q);
      HasBit(ps[n - 1], q);
      assert ps[..n] == ps[..n - 1] + [ps[n - 1]];
    } else {
      ZeroHasNothing(q);
    }
  }

  /** The positions among the first `n` whose id bit `op` has, set. */
  function OpBitsOf(ps: seq<nat>, op: Byte, n: nat): Word
    requires ValidPositions(ps) && n <= |ps|
  {
    if n == 0 then 0
    else if OpHas(op, n - 1) then Or(OpBitsOf(ps, op, n - 1), Bit(ps[n - 1]))
    else OpBitsOf(ps, op, n - 1)
  }

  /** With distinct positions, the bit at `ps[k]` is bit `k` of `op`, and
      no other bit is set. */
  lemma {:induction false} OpBitsOfBits(ps: seq<nat>, op: Byte, n: nat, q: nat)
    requires ValidPositions(ps) && Distinct(ps) && n <= 6 && q < 16
    ensures forall k :: 0 <= k < n && ps[k] == q ==> (Has(OpBitsOf(ps, op, n), q) <==> OpHas(op, k))
    ensures q !in ps[..n] ==> !Has(OpBitsOf(ps, op, n), q)
  {
    if n > 0 {
      OpBitsOfBits(ps, op, n - 1, q);
      assert ps[..n] == ps[..n - 1] + [ps[n - 1]];
      if OpHas(op, n - 1) {
        HasOr(OpBitsOf(ps, op, n - 1), Bit(ps[n - 1]), q);
        HasBit(ps[n - 1], q);
      }
    } else {
      ZeroHasNothing(q);
    }
  }

  lemma OrZero(w: Word)
    ensures Or(w, 0) == w
  {
    forall q | 0 <= q < 16 ensures Has(Or(w, 0), q) == Has(w, q) {
      HasOr(w, 0, q);
      ZeroHasNothing(q);
    }
    WordsEqual(Or(w, 0), w);
  }

  lemma OrAssoc(a: Word, b: Word, c: Word)
    ensures Or(Or(a, b), c) == Or(a, Or(b, c))
  {
    forall q | 0 <= q < 16 ensures Has(Or(Or(a, b), c), q) == Has(Or(a, Or(b, c)), q) {
      HasOr(Or(a, b), c, q);
      HasOr(a, b, q);
      HasOr(a, Or(b, c), q);
      HasOr(b, c, q);
    }
    WordsEqual(Or(Or(a, b), c), Or(a, Or(b, c)));
  }

  /** Applying operation-id bit `k` to the cleared word with bits `0..k-1`
      applied gives the one with bits `0..k` applied. */
  lemma OpBitsNext(cleared: Word, ps: seq<nat>, op: Byte, k: nat)
    requires ValidPositions(ps) && k < 6
    ensures (if OpHas(op, k) then Or(Or(cleared, OpBitsOf(ps, op, k)), Bit(ps[k])) else Or(cleared, OpBitsOf(ps, op, k)))
            == Or(cleared, OpBitsOf(ps, op, k + 1))
  {
    if OpHas(op, k) {
      OrAssoc(cleared, OpBitsOf(ps, op, k), Bit(ps[k]));
    }
  }

  /** The word `setSelectedOperationId` writes: the bits at the positions
      cleared, then those of `op` set. */
  function SelectedRaw(raw: Word, ps: seq<nat>, op: Byte): Word
    requires ValidPositions(ps)
  {
    Or(AndNot(raw, MaskOf(ps, |ps|)), OpBitsOf(ps, op, |ps|))
  }

  /** Only the operation-id bits change: the one at `ps[k]` becomes bit
      `k` of `op`, every other bit is kept. */
  lemma SelectedRawBits(raw: Word, ps: seq<nat>, op: Byte, q: nat)
    requires ValidPositions(ps) && Distinct(ps) && q < 16
    ensures forall k :: 0 <= k < 6 && ps[k] == q ==> Has(SelectedRaw(raw, ps, op), q) == OpHas(op, k)
    ensures q !in ps ==> Has(SelectedRaw(raw, ps, op), q) == Has(raw, q)
  {
    assert ps[..|ps|] == ps;
    HasOr(AndNot(raw, MaskOf(ps, |ps|)), OpBitsOf(ps, op, |ps|), q);
    HasAndNot(raw, MaskOf(ps, |ps|), q);
    MaskBits(ps, |ps|, q);
    OpBitsOfBits(ps, op, |ps|, q);
  }

  /** Decoding the selected word gives back the operation id. */
  lemma SelectDecode(raw: Word, ps: seq<nat>, op: Byte)
    requires ValidPositions(ps) && Distinct(ps) && op < 64
    ensures DecodeWith(SelectedRaw(raw, ps, op), ps) == op
  {
    var d := DecodeWith(SelectedRaw(raw, ps, op), ps);
    Pow2Values();
    forall i | 0 <= i < 8 ensures Bits(d, 8)[i] == Bits(op, 8)[i] {
      if i < 6 {
        SelectedRawBits(raw, ps, op, ps[i]);
      } else {
        BitsAbove(d, 8, 6, i);
        BitsAbove(op, 8, 6, i);
      }
    }
    assert Bits(d, 8) == Bits(op, 8);
    BitsDetermine(d, op, 8);
  }

  /** With no assignments loaded, the word written for `op` decodes to
      `op`. */
  lemma SelectDecodeUnmapped(raw: Word, op: Byte)
    requires op < 64
    ensures DecodeOperationId(SelectedRaw(raw, OpPositions(None), op)) == op
  {
    FallbackPositions();
    SelectDecode(raw, FixedPositions, op);
  }

  /** `operationAddr`: the upper register of operation `op`'s entry in a
      table of 32-bit entries. */
  function OperationAddr(base: int, op: Byte): (r: Result<int>)
    ensures r.Ok? <==> op <= 63
    ensures r.Ok? ==> r.value == base + 2 * op
  {
    if op > 63 then Err("Invalid operation id (allowed 0..63)") else Ok(base + 2 * op)
  }

  // ---------------------------------------------------------------------
  // 32-bit values over two registers
  // ---------------------------------------------------------------------

  predicate IsInt32(x: int) { -0x8000_0000 <= x < 0x8000_0000 }

  /** `static_cast<uint32_t>` of a 32-bit signed value: two's complement. */
  function Raw32(x: int): (r: nat)
    requires IsInt32(x)
    ensures r < 0x1_0000_0000
    ensures x >= 0 ==> r == x
    ensures x < 0 ==> r == x + 0x1_0000_0000
  {
    if x < 0 then x + 0x1_0000_0000 else x
  }

  /** `writeInt32`'s two registers: `(raw >> 16) & 0xFFFF`, then
      `raw & 0xFFFF`. */
  function Int32Words(x: int): (ws: seq<Word>)
    requires IsInt32(x)
    ensures |ws| == 2
  {
    [Raw32(x) / 0x1_0000, Raw32(x) % 0x1_0000]
  }

  /** `readU32`: `upper << 16 | lower`; the two halves do not overlap, so
      the `|` is a sum. */
  function U32(upper: Word, lower: Word): (r: nat)
    ensures r < 0x1_0000_0000
  {
    upper * 0x1_0000 + lower
  }

  /** Reading back the two registers written for a value gives its 32-bit
      pattern. */
  lemma Int32RoundTrip(x: int)
    requires IsInt32(x)
    ensures U32(Int32Words(x)[0], Int32Words(x)[1]) == Raw32(x)
  {
  }

  /** The id `readSelectedOperationId` returns for these caches and word. */
  function ActiveOp(opCache: Option<Byte>, word: Word, assign: Option<seq<int>>): Byte
    requires ValidAssignments(assign)
  {
    if opCache.Some? then opCache.value else DecodeMapped(word, assign)
  }

  /** `readAlarmCode`: the low byte of the 32-bit present-alarm value. */
  function AlarmCode(alarm: nat): Byte {
    alarm % 0x100
  }

  /** The alarm code is the low byte of the lower register. */
  lemma AlarmCodeLower(upper: Word, lower: Word)
    ensures AlarmCode(U32(upper, lower)) == lower % 0x100
  {
    assert U32(upper, lower) == (upper * 0x100) * 0x100 + lower;
  }

  /** The function code whose NET-IN channel may carry a flag; the
      operation-select inputs, FREE and SSTART always use their own bit. */
  function FlagFunction(f: InputFlag): Option<int> {
    match f
    case Start => Some(FunctionStart)
    case Home => Some(FunctionHome)
    case Stop => Some(FunctionStop)
    case PlusJog => Some(FunctionPlusJog)
    case MinusJog => Some(FunctionMinusJog)
    case Fwd => Some(FunctionFwd)
    case Rvs => Some(FunctionRvs)
    case _ => None
  }

  /** The bit `setDriverInputFlag` changes for a flag. */
  function FlagPos(assign: Option<seq<int>>, f: InputFlag): (p: nat)
    requires ValidAssignments(assign)
    ensures p < 16
    ensures assign.None? ==> p == FlagBit(f)
  {
    match FlagFunction(f)
    case None => FlagBit(f)
    case Some(code) =>
      match CodeBit(assign, code)
      case Some(b) => b
      case None => FlagBit(f)
  }
}

/** The motor object and the bus it writes through. */
module MotorDriver {
  import opened Wrappers
  import opened MotorBits

  // ---------------------------------------------------------------------
  // The bus and the motor
  // ---------------------------------------------------------------------

  /** One register write on the bus. */
  datatype Write = Write(addr: int, values: seq<Word>)

  /** A register outside the written run keeps its value. */
  lemma StoredElsewhere(regs: map<int, Word>, addr: int, vs: seq<Word>, a: int)
    requires !(addr <= a < addr + |vs|)
    ensures a in Stored(regs, addr, vs) <==> a in regs
    ensures a in regs ==> Stored(regs, addr, vs)[a] == regs[a]
  {
  }

  /** Registers `addr`, `addr + 1`, ... set to `vs`. */
  function Stored(regs: map<int, Word>, addr: int, vs: seq<Word>): (r: map<int, Word>)
    ensures forall a :: a in r <==> a in regs || addr <= a < addr + |vs|
    ensures forall a :: a in r ==> r[a] == if addr <= a < addr + |vs| then vs[a - addr] else regs[a]
  {
    if vs == [] then regs
    else Stored(regs, addr, vs[..|vs| - 1])[addr + |vs| - 1 := vs[|vs| - 1]]
  }

  /** The holding registers of the motor's slave, as the test double keeps
      them: a register never written reads as zero, and every write is
      logged. */
  class Bus {
    var regs: map<int, Word>
    var writes: seq<Write>

    constructor(regs0: map<int, Word>)
      ensures regs == regs0 && writes == []
    {
      regs := regs0;
      writes := [];
    }

    function Get(a: int): Word
      reads this
    {
      if a in regs then regs[a] else 0
    }

    method ReadRegisters(addr: int, n: nat) returns (vs: seq<Word>)
      ensures |vs| == n && forall i :: 0 <= i < n ==> vs[i] == Get(addr + i)
    {
      vs := [];
      var i := 0;
      while i < n
        invariant 0 <= i <= n && |vs| == i
        invariant forall j :: 0 <= j < i ==> vs[j] == Get(addr + j)
      {
        vs := vs + [Get(addr + i)];
        i := i + 1;
      }
    }

    method WriteRegister(addr: int, v: Word)
      modifies this
      ensures regs == old(regs)[addr := v]
      ensures writes == old(writes) + [Write(addr, [v])]
    {
      regs := regs[addr := v];
      writes := writes + [Write(addr, [v])];
    }

    method WriteRegisters(addr: int, vs: seq<Word>)
      modifies this
      ensures regs == Stored(old(regs), addr, vs)
      ensures writes == old(writes) + [Write(addr, vs)]
    {
      var i := 0;
      while i < |vs|
        invariant 0 <= i <= |vs| && writes == old(writes)
        invariant regs == Stored(old(regs), addr, vs[..i])
      {
        assert vs[..i + 1][..i] == vs[..i];
        regs := regs[addr + i := vs[i]];
        i := i + 1;
      }
      assert vs[..i] == vs;
      writes := writes + [Write(addr, vs)];
    }
  }

  /** The register addresses the motor uses (the AR-KD2 map). */
  const DriverInputCommand: int := 0x007D
  const PresentAlarm: int := 0x0080
  const AlarmResetCommand: int := 0x0180
  const SpeedNo0: int := 0x0480

  /** One motor: the cached driver-input word and selected operation id,
      and the NET-IN assignments once loaded. */
  class Motor {
    var rawCache: Option<Word>
    var opCache: Option<Byte>
    var netIn: Option<seq<int>>

    /** The caches agree with each other. */
    predicate Valid()
      reads this
    {
      && ValidAssignments(netIn)
      && (rawCache.Some? ==> opCache == Some(DecodeMapped(rawCache.value, netIn)))
    }

    constructor()
      ensures Valid() && rawCache.None? && opCache.None? && netIn.None?
    {
      rawCache := None;
      opCache := None;
      netIn := None;
    }

    /** What `initialize` leaves in the caches: it clears them, loads the
        NET-IN assignments it read, and then reads the driver-input word
        again, so that word and its mapped operation id end up cached. */
    method LoadAssignments(bus: Bus, a: seq<int>)
      requires |a| == 16
      modifies this
      ensures Valid() && netIn == Some(a)
      ensures rawCache == Some(bus.Get(DriverInputCommand))
      ensures opCache == Some(DecodeMapped(bus.Get(DriverInputCommand), Some(a)))
    {
      rawCache := None;
      opCache := None;
      netIn := Some(a);
      var raw := ReadDriverInputRaw(bus);
    }

    /** The driver-input word the next change starts from: the cached one,
        else the bus's (which is then cached). */
    function Current(bus: Bus): Word
      reads this, bus
    {
      if rawCache.Some? then rawCache.value else bus.Get(DriverInputCommand)
    }

    method ReadDriverInputRaw(bus: Bus) returns (raw: Word)
      requires Valid()
      modifies this
      ensures Valid() && netIn == old(netIn)
      ensures raw == bus.Get(DriverInputCommand) && rawCache == Some(raw)
    {
      var vs := bus.ReadRegisters(DriverInputCommand, 1);
      raw := vs[0];
      rawCache := Some(raw);
      var op := DecodeOperationIdMapped(raw);
      opCache := Some(op);
    }

    method InputRaw(bus: Bus) returns (raw: Word)
      requires Valid()
      modifies this
      ensures Valid() && netIn == old(netIn)
      ensures raw == old(Current(bus)) && rawCache == Some(raw)
    {
      if rawCache.Some? {
        raw := rawCache.value;
      } else {
        raw := ReadDriverInputRaw(bus);
      }
    }

    method WriteDriverInputRaw(bus: Bus, raw: Word)
      requires Valid()
      modifies this, bus
      ensures Valid() && netIn == old(netIn)
      ensures bus.regs == old(bus.regs)[DriverInputCommand := raw]
      ensures bus.writes == old(bus.writes) + [Write(DriverInputCommand, [raw])]
      ensures rawCache == Some(raw) && opCache == Some(DecodeMapped(raw, netIn))
    {
      bus.WriteRegister(DriverInputCommand, raw);
      rawCache := Some(raw);
      var op := DecodeOperationIdMapped(raw);
      opCache := Some(op);
    }

    /** `netInputBitForFunction`, a search of the assignments. */
    method NetInputBitForFunction(code: int) returns (r: Option<nat>)
      requires ValidAssignments(netIn)
      ensures r == NetInputBit(netIn, code)
    {
      if netIn.None? {
        return None;
      }
      var a := netIn.value;
      var i := 0;
      while i < |a|
        invariant 0 <= i <= |a| && FirstFrom(a, code, i) == FirstIndex(a, code)
      {
        if a[i] == code {
          return Some(i);
        }
        i := i + 1;
      }
      r := None;
    }

    /** The bit of a function code: its channel, else its fallback input. */
    method CodeBitOf(code: int) returns (r: Option<nat>)
      requires ValidAssignments(netIn)
      ensures r == CodeBit(netIn, code)
    {
      var i := NetInputBitForFunction(code);
      if i.Some? {
        return Some(i.value);
      }
      var f := FallbackFlag(code);
      r := if f.Some? then Some(FlagBit(f.value)) else None;
    }

    /** The bit of the `k`-th operation-select code; every one of them
        has a fallback input, so the search always ends with a bit. */
    method OpBitOf(k: nat) returns (p: nat)
      requires ValidAssignments(netIn) && k < 6
      ensures p == OpPositions(netIn)[k]
    {
      var b := CodeBitOf(OpCodes[k]);
      p := b.value;
    }

    /** `operationIdMask`: the bits of the six operation-select codes. */
    method OperationIdMask() returns (mask: Word)
      requires ValidAssignments(netIn)
      ensures mask == MaskOf(OpPositions(netIn), |OpPositions(netIn)|)
    {
      ghost var ps := OpPositions(netIn);
      mask := 0;
      var k := 0;
      while k < 6
        invariant 0 <= k <= 6 && mask == MaskOf(ps, k)
      {
        var p := OpBitOf(k);
        mask := Or(mask, Bit(p));
        k := k + 1;
      }
    }

    /** `decodeOperationIdFromInputRawMapped`: one step per operation-id
        bit. */
    method DecodeOperationIdMapped(raw: Word) returns (op: Byte)
      requires ValidAssignments(netIn)
      ensures op == DecodeMapped(raw, netIn)
    {
      ghost var ps := OpPositions(netIn);
      op := 0;
      op := DecodeBit(raw, op, 0);
      assert op == DecodeUpTo(raw, ps, 1);
      op := DecodeBit(raw, op, 1);
      assert op == DecodeUpTo(raw, ps, 2);
      op := DecodeBit(raw, op, 2);
      assert op == DecodeUpTo(raw, ps, 3);
      op := DecodeBit(raw, op, 3);
      assert op == DecodeUpTo(raw, ps, 4);
      op := DecodeBit(raw, op, 4);
      assert op == DecodeUpTo(raw, ps, 5);
      op := DecodeBit(raw, op, 5);
      assert op == DecodeUpTo(raw, ps, 6);
    }

    /** Bit `k` of the id set when the word has the `k`-th code's bit. */
    method DecodeBit(raw: Word, op: Byte, k: nat) returns (r: Byte)
      requires ValidAssignments(netIn) && k < 6
      ensures r == if Has(raw, OpPositions(netIn)[k]) then OrByte(op, OpMask(k)) else op
    {
      r := op;
      var p := OpBitOf(k);
      if Has(raw, p) {
        r := OrByte(op, OpMask(k));
      }
    }

    /** The `k`-th code's bit set when `op` has bit `k`. */
    method ApplyOpBit(raw: Word, op: Byte, k: nat) returns (r: Word)
      requires ValidAssignments(netIn) && k < 6
      ensures r == if OpHas(op, k) then Or(raw, Bit(OpPositions(netIn)[k])) else raw
    {
      r := raw;
      if !OpHas(op, k) {
        return;
      }
      var p := OpBitOf(k);
      r := Or(raw, Bit(p));
    }

    /** `setDriverInputFlag`: the flag's bit (the NET-IN channel of its
        function when assigned, else its own bit) set or cleared. */
    method SetDriverInputFlag(bus: Bus, flag: InputFlag, enabled: bool)
      requires Valid()
      modifies this, bus
      ensures Valid() && netIn == old(netIn)
      ensures bus.regs == old(bus.regs)[DriverInputCommand := WithBit(old(Current(bus)), FlagPos(netIn, flag), enabled)]
      ensures bus.writes == old(bus.writes) + [Write(DriverInputCommand, [WithBit(old(Current(bus)), FlagPos(netIn, flag), enabled)])]
      ensures rawCache == Some(WithBit(old(Current(bus)), FlagPos(netIn, flag), enabled))
    {
      var raw := InputRaw(bus);
      var p := FlagPosition(flag);
      raw := WithBit(raw, p, enabled);
      WriteDriverInputRaw(bus, raw);
    }

    /** The bit of a flag: the NET-IN channel of its function, else its
        function's fallback input, else the flag's own bit. */
    method FlagPosition(flag: InputFlag) returns (p: nat)
      requires Valid()
      ensures p == FlagPos(netIn, flag)
    {
      p := FlagBit(flag);
      var code := FlagFunction(flag);
      if code.Some? {
        var b := CodeBitOf(code.value);
        if b.Some? {
          p := b.value;
        }
      }
    }

    /** `readSelectedOperationId`: the cached id, else the decoded bus
        word. */
    method ReadSelectedOperationId(bus: Bus) returns (op: Byte)
      requires Valid()
      modifies this
      ensures Valid() && netIn == old(netIn)
      ensures op == ActiveOp(old(opCache), bus.Get(DriverInputCommand), netIn)
      ensures Current(bus) == old(Current(bus))
    {
      if opCache.Some? {
        return opCache.value;
      }
      var raw := ReadDriverInputRaw(bus);
      op := DecodeOperationIdMapped(raw);
    }

    /** `setSelectedOperationId`: an id above 63 is refused before the bus
        is touched; otherwise the operation-id bits of the word are
        replaced by those of `op`. */
    method SetSelectedOperationId(bus: Bus, op: Byte) returns (r: Result<()>)
      requires Valid()
      modifies this, bus
      ensures Valid() && netIn == old(netIn)
      ensures r.Err? <==> op > 63
      ensures r.Err? ==> bus.regs == old(bus.regs) && bus.writes == old(bus.writes) && rawCache == old(rawCache)
      ensures r.Ok? ==> bus.regs == old(bus.regs)[DriverInputCommand := SelectedRaw(old(Current(bus)), OpPositions(netIn), op)]
      ensures r.Ok? ==> bus.writes == old(bus.writes) + [Write(DriverInputCommand, [SelectedRaw(old(Current(bus)), OpPositions(netIn), op)])]
      ensures r.Ok? ==> rawCache == Some(SelectedRaw(old(Current(bus)), OpPositions(netIn), op))
      ensures r.Ok? && Distinct(OpPositions(netIn)) ==> opCache == Some(op)
    {
      if op > 63 {
        return Err("Invalid operation id (allowed 0..63)");
      }
      var raw := InputRaw(bus);
      raw := ReplaceOperationBits(raw, op);
      ghost var ps := OpPositions(netIn);
      WriteDriverInputRaw(bus, raw);
      if Distinct(ps) {
        SelectDecode(old(Current(bus)), ps, op);
      }
      r := Ok(());
    }

    /** The local update of `setSelectedOperationId`: the operation-id
        bits cleared with `operationIdMask`, then one step per id bit. */
    method ReplaceOperationBits(raw0: Word, op: Byte) returns (raw: Word)
      requires ValidAssignments(netIn)
      ensures raw == SelectedRaw(raw0, OpPositions(netIn), op)
    {
      var mask := OperationIdMask();
      ghost var ps := OpPositions(netIn);
      raw := AndNot(raw0, mask);
      ghost var cleared := raw;
      OrZero(cleared);
      raw := ApplyOpBit(raw, op, 0);
      OpBitsNext(cleared, ps, op, 0);
      raw := ApplyOpBit(raw, op, 1);
      OpBitsNext(cleared, ps, op, 1);
      raw := ApplyOpBit(raw, op, 2);
      OpBitsNext(cleared, ps, op, 2);
      raw := ApplyOpBit(raw, op, 3);
      OpBitsNext(cleared, ps, op, 3);
      raw := ApplyOpBit(raw, op, 4);
      OpBitsNext(cleared, ps, op, 4);
      raw := ApplyOpBit(raw, op, 5);
      OpBitsNext(cleared, ps, op, 5);
    }

    /** `writeInt32`: the value's two registers, upper word first, in one
        write. */
    method WriteInt32(bus: Bus, addr: int, value: int)
      requires IsInt32(value)
      modifies bus
      ensures bus.regs == Stored(old(bus.regs), addr, Int32Words(value))
      ensures bus.writes == old(bus.writes) + [Write(addr, Int32Words(value))]
    {
      var raw := Raw32(value);
      bus.WriteRegisters(addr, [raw / 0x1_0000, raw % 0x1_0000]);
    }

    /** `readU32`: two registers, upper word first. */
    method ReadU32(bus: Bus, addr: int) returns (v: nat)
      ensures v == U32(bus.Get(addr), bus.Get(addr + 1))
    {
      var vs := bus.ReadRegisters(addr, 2);
      v := (vs[0] as int) * 0x1_0000 + (vs[1] as int);
    }

    /** `readAlarmCode`: the low byte of the present-alarm value. */
    method ReadAlarmCode(bus: Bus) returns (code: Byte)
      ensures code == AlarmCode(U32(bus.Get(PresentAlarm), bus.Get(PresentAlarm + 1)))
    {
      var v := ReadU32(bus, PresentAlarm);
      code := v % 0x100;
    }

    /** `resetAlarm`: nothing when no alarm is present, else a 0 then a 1
        written to the alarm-reset command. */
    method ResetAlarm(bus: Bus)
      modifies bus
      ensures old(bus.Get(PresentAlarm + 1)) % 0x100 == 0 ==> bus.regs == old(bus.regs) && bus.writes == old(bus.writes)
      ensures old(bus.Get(PresentAlarm + 1)) % 0x100 != 0 ==>
        && bus.writes == old(bus.writes) + [Write(AlarmResetCommand, [0, 0]), Write(AlarmResetCommand, [0, 1])]
        && bus.regs == Stored(Stored(old(bus.regs), AlarmResetCommand, [0, 0]), AlarmResetCommand, [0, 1])
        && bus.Get(AlarmResetCommand) == 0 && bus.Get(AlarmResetCommand + 1) == 1
    {
      var code := ReadAlarmCode(bus);
      AlarmCodeLower(bus.Get(PresentAlarm), bus.Get(PresentAlarm + 1));
      if code == 0 {
        return;
      }
      assert Int32Words(0) == [0, 0] && Int32Words(1) == [0, 1];
      WriteInt32(bus, AlarmResetCommand, 0);
      WriteInt32(bus, AlarmResetCommand, 1);
      assert bus.regs[AlarmResetCommand] == 0 && bus.regs[AlarmResetCommand + 1] == 1;
    }

    /** `updateConstantSpeedBuffered`: the speed goes to the operation that
        is not active (1 when 0 is, else 0), which is then selected: two
        writes, the speed first, then the driver-input word. */
    method UpdateConstantSpeedBuffered(bus: Bus, speed: int) returns (next: Byte)
      requires Valid() && IsInt32(speed)
      modifies this, bus
      ensures Valid() && netIn == old(netIn)
      ensures next == if ActiveOp(old(opCache), old(bus.Get(DriverInputCommand)), netIn) == 0 then 1 else 0
      ensures bus.writes == old(bus.writes) + [
        Write(SpeedNo0 + 2 * next, Int32Words(speed)),
        Write(DriverInputCommand, [SelectedRaw(old(Current(bus)), OpPositions(netIn), next)])]
      ensures bus.regs == Stored(old(bus.regs), SpeedNo0 + 2 * next, Int32Words(speed))[
        DriverInputCommand := SelectedRaw(old(Current(bus)), OpPositions(netIn), next)]
      ensures rawCache == Some(SelectedRaw(old(Current(bus)), OpPositions(netIn), next))
      ensures Distinct(OpPositions(netIn)) ==> opCache == Some(next)
    {
      next := WriteInactiveSpeed(bus, speed);
      var r := SetSelectedOperationId(bus, next);
    }

    /** The first half of `updateConstantSpeedBuffered`: the speed written
        to the operation that is not active, the driver-input word left as
        it was. */
    method WriteInactiveSpeed(bus: Bus, speed: int) returns (next: Byte)
      requires Valid() && IsInt32(speed)
      modifies this, bus
      ensures Valid() && netIn == old(netIn) && Current(bus) == old(Current(bus))
      ensures next == if ActiveOp(old(opCache), old(bus.Get(DriverInputCommand)), netIn) == 0 then 1 else 0
      ensures bus.regs == Stored(old(bus.regs), SpeedNo0 + 2 * next, Int32Words(speed))
      ensures bus.writes == old(bus.writes) + [Write(SpeedNo0 + 2 * next, Int32Words(speed))]
    {
      var active := ReadSelectedOperationId(bus);
      next := if active == 0 then 1 else 0;
      var addr := OperationAddr(SpeedNo0, next);
      StoredElsewhere(bus.regs, addr.value, Int32Words(speed), DriverInputCommand);
      WriteInt32(bus, addr.value, speed);
    }
  }

  /** Two buffered updates in a row write to the two operations in turn:
      the speed the motor is running at is never the one overwritten, and
      after each update the selected operation is the one just written. */
  method BufferedUpdatesAlternate(m: Motor, bus: Bus, s1: int, s2: int) returns (n1: Byte, n2: Byte)
    requires m.Valid() && Distinct(OpPositions(m.netIn)) && IsInt32(s1) && IsInt32(s2)
    modifies m, bus
    ensures n1 != n2
    ensures bus.Get(SpeedNo0 + 2 * n1) == Int32Words(s1)[0] && bus.Get(SpeedNo0 + 2 * n1 + 1) == Int32Words(s1)[1]
    ensures DecodeMapped(bus.Get(DriverInputCommand), old(m.netIn)) == n2
  {
    n1 := m.UpdateConstantSpeedBuffered(bus, s1);
    ghost var regs1 := bus.regs;
    ghost var before := m.Current(bus);
    n2 := m.UpdateConstantSpeedBuffered(bus, s2);
    StoredElsewhere(regs1, SpeedNo0 + 2 * n2, Int32Words(s2), SpeedNo0 + 2 * n1);
    StoredElsewhere(regs1, SpeedNo0 + 2 * n2, Int32Words(s2), SpeedNo0 + 2 * n1 + 1);
    SelectDecode(before, OpPositions(m.netIn), n2);
  }
}
