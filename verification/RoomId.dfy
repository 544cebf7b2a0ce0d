/** Room ids: a sequence number, scrambled by a six-round Feistel network modulo 62^4, in eight base-62 digits. */
module RoomId {
  import opened Domain

  newtype uint32 = x: int | 0 <= x < 0x1_0000_0000
  newtype uint64 = x: int | 0 <= x < 0x1_0000_0000_0000_0000

  const HALF: nat := 14776336                // 62^4
  const SPACE: nat := 218340105584896        // 62^8
  const WIDTH: nat := 8
  const ROUNDS: nat := 6
  const DEFAULT_MASK: nat := 0x7a4bd9f1c3e5

  // ----- The Feistel network, for any round function -----

  type RoundFunction = (nat, nat) -> nat

  predicate InHalves(p: (nat, nat)) { p.0 < HALF && p.1 < HALF }

  function Forward(f: RoundFunction, p: (nat, nat), n: nat): (nat, nat) {
    if n == 0 then p else
      var q := Forward(f, p, n - 1);
      (q.1, (q.0 + f(q.1, n - 1)) % HALF)
  }

  function Backward(f: RoundFunction, p: (nat, nat), n: nat): (nat, nat)
    requires InHalves(p)
    decreases n
  {
    if n == 0 then p else Backward(f, ((p.1 + HALF - f(p.0, n - 1) % HALF) % HALF, p.0), n - 1)
  }

  lemma {:induction false} ForwardInHalves(f: RoundFunction, p: (nat, nat), n: nat)
    requires InHalves(p)
    ensures InHalves(Forward(f, p, n))
  {
    if n > 0 {
      ForwardInHalves(f, p, n - 1);
    }
  }

  /** Adding a value modulo `HALF` and then subtracting it, or the other way round, gives back the start. */
  lemma AddSubtract(x: nat, v: nat)
    requires x < HALF
    ensures ((x + v) % HALF + HALF - v % HALF) % HALF == x
    ensures ((x + HALF - v % HALF) % HALF + v) % HALF == x
  {
    var q, r := v / HALF, v % HALF;
    assert v == q * HALF + r;
    assert (x + v) % HALF == (x + r) % HALF by { ModAdds(x + r, q); }
    var y := (x + HALF - r) % HALF;
    assert (y + v) % HALF == (y + r) % HALF by { ModAdds(y + r, q); }
  }

  lemma {:induction false} ModAdds(a: nat, q: nat)
    ensures (a + q * HALF) % HALF == a % HALF
  {
    if q > 0 {
      ModAdds(a, q - 1);
      assert a + q * HALF == (a + (q - 1) * HALF) + HALF;
      assert ((a + (q - 1) * HALF) + HALF) % HALF == (a + (q - 1) * HALF) % HALF;
    }
  }

  lemma {:induction false} BackwardUndoesForward(f: RoundFunction, p: (nat, nat), n: nat)
    requires InHalves(p)
    ensures InHalves(Forward(f, p, n)) && Backward(f, Forward(f, p, n), n) == p
  {
    ForwardInHalves(f, p, n);
    if n > 0 {
      BackwardUndoesForward(f, p, n - 1);
      var q := Forward(f, p, n - 1);
      AddSubtract(q.0, f(q.1, n - 1));
    }
  }

  lemma {:induction false} ForwardUndoesBackward(f: RoundFunction, p: (nat, nat), n: nat)
    requires InHalves(p)
    ensures InHalves(Backward(f, p, n)) && Forward(f, Backward(f, p, n), n) == p
    decreases n
  {
    if n > 0 {
      var q := ((p.1 + HALF - f(p.0, n - 1) % HALF) % HALF, p.0);
      ForwardUndoesBackward(f, q, n - 1);
      AddSubtract(p.1, f(p.0, n - 1));
    }
  }

  function Scramble(f: RoundFunction, value: nat, rounds: nat): nat {
    var p := Forward(f, (value / HALF, value % HALF), rounds);
    p.0 * HALF + p.1
  }

  function Unscramble(f: RoundFunction, value: nat, rounds: nat): nat
    requires value < SPACE
  {
    var p := Backward(f, (value / HALF, value % HALF), rounds);
    p.0 * HALF + p.1
  }

  /** For every round function and number of rounds the network is a bijection of [0, 62^8), with `Unscramble` as
      its inverse. */
  lemma FeistelBijection(f: RoundFunction, x: nat, rounds: nat)
    requires x < SPACE
    ensures Scramble(f, x, rounds) < SPACE && Unscramble(f, Scramble(f, x, rounds), rounds) == x
    ensures Unscramble(f, x, rounds) < SPACE && Scramble(f, Unscramble(f, x, rounds), rounds) == x
  {
    var halves := (x / HALF, x % HALF);
    BackwardUndoesForward(f, halves, rounds);
    JoinSplit(Forward(f, halves, rounds));
    ForwardUndoesBackward(f, halves, rounds);
    JoinSplit(Backward(f, halves, rounds));
  }

  lemma JoinSplit(p: (nat, nat))
    requires InHalves(p)
    ensures var v := p.0 * HALF + p.1; v < SPACE && v / HALF == p.0 && v % HALF == p.1
  {
  }

  // ----- Base 62 -----

  /** The alphabet: the decimal digits, then the upper case letters, then the lower case ones. */
  function DigitChar(d: nat): (c: char)
    requires d < 62
    ensures IsBase62(c)
  {
    if d < 10 then ('0' as nat + d) as char
    else if d < 36 then ('A' as nat + d - 10) as char
    else ('a' as nat + d - 36) as char
  }

  predicate IsBase62(c: char) { '0' <= c <= '9' || 'A' <= c <= 'Z' || 'a' <= c <= 'z' }

  function Encode(value: nat, width: nat): (s: string)
    ensures |s| == width
    ensures forall c :: c in s ==> IsBase62(c)
  {
    if width == 0 then "" else Encode(value / 62, width - 1) + [DigitChar(value % 62)]
  }

  /** The position of a digit in the alphabet. */
  function DigitValue(c: char): nat {
    if '0' <= c <= '9' then c as nat - '0' as nat
    else if 'A' <= c <= 'Z' then c as nat - 'A' as nat + 10
    else if 'a' <= c <= 'z' then c as nat - 'a' as nat + 36
    else 0
  }

  function Decode(s: string): nat {
    if s == "" then 0 else Decode(s[..|s| - 1]) * 62 + DigitValue(s[|s| - 1])
  }

  function Power62(n: nat): (p: nat)
    ensures p > 0
  {
    if n == 0 then 1 else 62 * Power62(n - 1)
  }

  /** Decoding a fixed-width encoding gives the value modulo 62^width. */
  lemma {:induction false} Base62RoundTrip(value: nat, width: nat)
    ensures Decode(Encode(value, width)) == value % Power62(width)
  {
    if width > 0 {
      var s := Encode(value, width);
      assert s[..|s| - 1] == Encode(value / 62, width - 1);
      Base62RoundTrip(value / 62, width - 1);
      SplitMod(value, Power62(width - 1));
    }
  }

  lemma SplitMod(v: nat, m: nat)
    requires m > 0
    ensures (v / 62) % m * 62 + v % 62 == v % (62 * m)
  {
    var a, d := v / 62, v % 62;
    var q, r := a / m, a % m;
    assert v == (q * m + r) * 62 + d;
    assert (q * m + r) * 62 + d == q * (62 * m) + (r * 62 + d);
    assert r * 62 + d < 62 * m;
    UniqueMod(v, 62 * m, q, r * 62 + d);
  }

  lemma UniqueMod(v: nat, m: nat, q: nat, r: nat)
    requires m > 0 && v == q * m + r && r < m
    ensures v % m == r
  {
    var q', r' := v / m, v % m;
    assert v == q' * m + r';
    if q' < q {
      assert q' * m + m <= q * m by { assert q' + 1 <= q; MulMonotone(q' + 1, q, m); }
    } else if q < q' {
      assert q * m + m <= q' * m by { assert q + 1 <= q'; MulMonotone(q + 1, q', m); }
    }
  }

  lemma MulMonotone(a: nat, b: nat, m: nat)
    requires a <= b
    ensures a * m <= b * m
  {
  }

  // ----- The generator -----

  const WORD: nat := 0x1_0000_0000_0000_0000  // 2^64
  const SHIFT_15: nat := 0x8000               // a shift right is a division by a power of two
  const SHIFT_16: nat := 0x1_0000
  const SHIFT_17: nat := 0x2_0000

  /** Bitwise exclusive or. */
  function Xor(a: nat, b: nat): nat {
    if a == 0 && b == 0 then 0 else 2 * Xor(a / 2, b / 2) + (if a % 2 == b % 2 then 0 else 1)
  }

  function Pow2(n: nat): (p: nat)
    ensures p > 0
  {
    if n == 0 then 1 else 2 * Pow2(n - 1)
  }

  /** Exclusive or needs no more bits than its operands. */
  lemma {:induction false} XorBound(a: nat, b: nat, bits: nat)
    requires a < Pow2(bits) && b < Pow2(bits)
    ensures Xor(a, b) < Pow2(bits)
  {
    if a != 0 || b != 0 {
      XorBound(a / 2, b / 2, bits - 1);
    }
  }

  lemma {:induction false} Pow2Splits(m: nat, n: nat)
    ensures Pow2(m + n) == Pow2(m) * Pow2(n)
  {
    if m > 0 { Pow2Splits(m - 1, n); }
  }

  lemma WordIsPow2()
    ensures Pow2(64) == WORD
  {
    assert Pow2(8) == 256;
    Pow2Splits(8, 8);
    Pow2Splits(16, 16);
    Pow2Splits(32, 32);
  }

  function XorWord(a: uint64, b: uint64): (r: uint64)
    ensures r as nat == Xor(a as nat, b as nat)
  {
    WordIsPow2();
    XorBound(a as nat, b as nat, 64);
    Xor(a as nat, b as nat) as uint64
  }

  /** Wrapping multiplication. */
  function MulWord(a: uint64, b: nat): (r: uint64)
    ensures r as nat == a as nat * b % WORD
  {
    (a as nat * b % WORD) as uint64
  }

  /** The round function: wrapping 64-bit arithmetic, reduced modulo 62^4. */
  function Mixed(mask: nat, right: nat, round: nat): nat {
    var x0 := Xor(right, mask);
    var x1 := Xor(x0, (round + 1) * 0x9e3779b185ebca87 % WORD);
    var x2 := Xor(x1, x1 / SHIFT_17) * 0xff51afd7ed558ccd % WORD;
    var x3 := Xor(x2, x2 / SHIFT_15) * 0xc4ceb9fe1a85ec53 % WORD;
    Xor(x3, x3 / SHIFT_16) % HALF
  }

  function MixFunction(mask: nat): RoundFunction {
    (right, round) => Mixed(mask, right, round)
  }

  /** Every intermediate word fits 64 bits and the result 32. */
  method Round(mask: uint64, right: uint32, round: uint64) returns (r: uint32)
    requires round < 0xffff_ffff_ffff_ffff
    ensures r as nat == Mixed(mask as nat, right as nat, round as nat) && r as nat < HALF
  {
    hide Xor, XorWord, MulWord;
    var x: uint64 := right as uint64;
    x := XorWord(x, mask);
    x := XorWord(x, MulWord(round + 1, 0x9e3779b185ebca87));
    x := XorWord(x, x / SHIFT_17 as uint64);
    x := MulWord(x, 0xff51afd7ed558ccd);
    x := XorWord(x, x / SHIFT_15 as uint64);
    x := MulWord(x, 0xc4ceb9fe1a85ec53);
    x := XorWord(x, x / SHIFT_16 as uint64);
    r := (x % HALF as uint64) as uint32;
  }

  /** The loop over the halves; every sum fits 32 bits and the result 64. */
  method FeistelObfuscate(mask: uint64, seqNo: uint64) returns (r: uint64)
    requires seqNo as nat < SPACE
    ensures r as nat == Scramble(MixFunction(mask as nat), seqNo as nat, ROUNDS) && r as nat < SPACE
  {
    hide Mixed, Xor;
    ghost var f, halves := MixFunction(mask as nat), (seqNo as nat / HALF, seqNo as nat % HALF);
    var left: uint32 := (seqNo / HALF as uint64) as uint32;
    var right: uint32 := (seqNo % HALF as uint64) as uint32;
    var round: uint64 := 0;
    while round < 6
      invariant round <= 6
      invariant left as nat < HALF && right as nat < HALF
      invariant (left as nat, right as nat) == Forward(f, halves, round as nat)
    {
      var nextLeft := right;
      var roundValue := Round(mask, right, round);
      right := (left + roundValue) % HALF as uint32;
      left := nextLeft;
      round := round + 1;
    }
    r := (left as uint64) * (HALF as uint64) + right as uint64;
  }

  /** Fills a buffer of `width` digits from the back. */
  method EncodeBase62Fixed(value: uint64, width: int) returns (s: string)
    ensures s == if width <= 0 then "" else Encode(value as nat, width)
  {
    if width <= 0 { return ""; }
    var buf := new char[width];
    var i, v := width - 1, value;
    while i >= 0
      invariant -1 <= i < width
      invariant Encode(value as nat, width) == Encode(v as nat, i + 1) + buf[i + 1..]
    {
      ghost var tail := buf[i + 1..];
      buf[i] := DigitChar((v % 62) as nat);
      assert buf[i..] == [DigitChar((v % 62) as nat)] + tail;
      assert Encode(v as nat, i + 1) == Encode(v as nat / 62, i) + [DigitChar((v % 62) as nat)];
      v := v / 62;
      i := i - 1;
    }
    return buf[..];
  }

  /** The value before `n` in 64-bit arithmetic; the number before 0 is the largest. */
  function Pred(n: uint64): nat { if n == 0 then 0xffff_ffff_ffff_ffff else n as nat - 1 }

  /** The room id for sequence value `n`. */
  function RoomId(mask: nat, n: uint64): string {
    Encode(Scramble(MixFunction(mask), Pred(n) % SPACE, ROUNDS), WIDTH)
  }

  lemma SamePredecessor(mask: nat, a: uint64, b: uint64)
    ensures RoomId(mask, a) == RoomId(mask, b) <==> Pred(a) % SPACE == Pred(b) % SPACE
  {
    if RoomId(mask, a) == RoomId(mask, b) {
      PowerIsSpace();
      RoomIdInvertible(mask, Pred(a) % SPACE, ROUNDS, WIDTH);
      RoomIdInvertible(mask, Pred(b) % SPACE, ROUNDS, WIDTH);
    }
  }

  lemma SameRest(x: nat, y: nat, m: nat)
    requires m > 0
    ensures x % m == y % m <==> (x - y) % m == 0
  {
    var q, r := x / m, y / m;
    assert x - y == (q - r) * m + (x % m - y % m) by { Distribute(q, r, m); }
    if x % m == y % m {
      MultipleOf(q - r, m);
    } else if (x - y) % m == 0 {
      var k := (x - y) / m;
      assert (k - (q - r)) * m == x % m - y % m by { Distribute(k, q - r, m); }
      SmallMultiple(k - (q - r), m);
    }
  }

  lemma Distribute(a: int, b: int, m: int)
    ensures (a - b) * m == a * m - b * m
  {
  }

  lemma MultipleOf(k: int, m: nat)
    requires m > 0
    ensures (k * m) % m == 0
  {
    var d, r := (k * m) / m, (k * m) % m;
    assert k * m == d * m + r;
    assert (k - d) * m == r by { Distribute(k, d, m); }
    SmallMultiple(k - d, m);
  }

  /** A multiple of `m` strictly between -m and m is zero. */
  lemma SmallMultiple(k: int, m: int)
    requires m > 0 && -m < k * m < m
    ensures k == 0
  {
  }

  /** Two sequence numbers give the same room id if and only if they differ by a multiple of 62^8, whatever the mask; the
      number 0, which only a wrap reaches, stands for 2^64. Every id is eight base-62 digits. */
  lemma RoomIdsCollide(mask: nat, a: uint64, b: uint64)
    ensures a > 0 && b > 0 ==> (RoomId(mask, a) == RoomId(mask, b) <==> (a as int - b as int) % SPACE == 0)
    ensures b > 0 ==> (RoomId(mask, 0) == RoomId(mask, b) <==> (WORD - b as int) % SPACE == 0)
    ensures |RoomId(mask, a)| == WIDTH && forall c :: c in RoomId(mask, a) ==> IsBase62(c)
  {
    SamePredecessor(mask, a, b);
    SamePredecessor(mask, 0, b);
    SameRest(Pred(a), Pred(b), SPACE);
    SameRest(Pred(0), Pred(b), SPACE);
  }

  /** The ids of successive calls, from a counter on. */
  function Issued(mask: nat, counter: nat, calls: nat): (ids: seq<string>)
    requires counter + calls < WORD
    ensures |ids| == calls
    decreases calls
  {
    if calls == 0 then [] else [RoomId(mask, (counter + 1) as uint64)] + Issued(mask, counter + 1, calls - 1)
  }

  lemma {:induction false} IssuedAt(mask: nat, counter: nat, calls: nat, i: nat)
    requires counter + calls < WORD && i < calls
    ensures Issued(mask, counter, calls)[i] == RoomId(mask, (counter + 1 + i) as uint64)
    decreases calls
  {
    hide RoomId;
    if i > 0 { IssuedAt(mask, counter + 1, calls - 1, i - 1); }
  }

  lemma NearNumbersDiffer(mask: nat, a: uint64, b: uint64)
    requires 0 < b < a && a as nat - b as nat < SPACE
    ensures RoomId(mask, a) != RoomId(mask, b)
  {
    hide RoomId;
    RoomIdsCollide(mask, a, b);
    SmallRest(a as nat - b as nat, SPACE);
  }

  lemma SmallRest(x: nat, m: nat)
    requires 0 < x < m
    ensures x % m == x
  {
  }

  /** Up to 62^8 successive calls before the counter wraps give as many rooms different ids. */
  lemma SuccessiveIdsDiffer(mask: nat, counter: nat, calls: nat, i: nat, j: nat)
    requires counter + calls < WORD && calls <= SPACE && i < j < calls
    ensures Issued(mask, counter, calls)[i] != Issued(mask, counter, calls)[j]
  {
    IssuedAt(mask, counter, calls, i);
    IssuedAt(mask, counter, calls, j);
    NearNumbersDiffer(mask, (counter + 1 + j) as uint64, (counter + 1 + i) as uint64);
    hide RoomId, Issued;
  }

  lemma RoomIdInvertible(mask: nat, x: nat, rounds: nat, width: nat)
    requires x < SPACE && Power62(width) == SPACE
    ensures var f, id := MixFunction(mask), Encode(Scramble(MixFunction(mask), x, rounds), width);
      Decode(id) < SPACE && Unscramble(f, Decode(id), rounds) == x
  {
    FeistelBijection(MixFunction(mask), x, rounds);
    SmallRoundTrip(Scramble(MixFunction(mask), x, rounds), width);
  }

  lemma SmallRoundTrip(y: nat, width: nat)
    requires y < Power62(width)
    ensures Decode(Encode(y, width)) == y
  {
    Base62RoundTrip(y, width);
    UniqueMod(y, Power62(width), 0, y);
  }

  lemma PowerIsSpace()
    ensures Power62(WIDTH) == SPACE && Power62(4) == HALF
  {
    assert Power62(4) == 14776336;
    assert Power62(8) == 62 * 62 * 62 * 62 * Power62(4);
  }

  class SequentialRoomIdGenerator {
    const mask: uint64
    var counter: uint64

    /** The mask is reduced modulo 62^4; zero stands for the default mask. */
    constructor (seed: uint64, xorMask: uint64)
      ensures counter == seed
      ensures mask as nat == if xorMask as nat % HALF != 0 then xorMask as nat % HALF else DEFAULT_MASK % HALF
      ensures 0 < mask as nat < HALF
    {
      var m: nat := xorMask as nat % HALF;
      if m == 0 {
        m := DEFAULT_MASK % HALF;
      }
      mask := m as uint64;
      counter := seed;
    }

    /** The next id: the counter wraps at 64 bits. */
    method New() returns (id: string)
      modifies this
      ensures counter as int == (old(counter) as int + 1) % 0x1_0000_0000_0000_0000
      ensures id == RoomId(mask as nat, counter)
    {
      counter := ((counter as int + 1) % 0x1_0000_0000_0000_0000) as uint64;
      var seqNo: uint64 := (Pred(counter) % SPACE) as uint64;
      var obfuscated := FeistelObfuscate(mask, seqNo);
      id := EncodeBase62Fixed(obfuscated, WIDTH);
    }
  }
}
