/** Message ids: 48 bits of milliseconds and 80 bits of entropy, in 26 base-32 characters. */
module MessageId {
  import opened Text

  newtype byte = x: int | 0 <= x < 256

  // ----- Big-endian numbers -----

  function Value(bytes: seq<byte>): nat {
    if bytes == [] then 0 else Value(bytes[..|bytes| - 1]) * 256 + bytes[|bytes| - 1] as nat
  }

  function Power(base: nat, n: nat): (p: nat)
    requires base > 0
    ensures p > 0
  {
    if n == 0 then 1 else base * Power(base, n - 1)
  }

  lemma {:induction false} ValueBound(bytes: seq<byte>)
    ensures Value(bytes) < Power(256, |bytes|)
  {
    if bytes != [] {
      ValueBound(bytes[..|bytes| - 1]);
    }
  }

  lemma OnePlaceMore(a: nat, p: nat, b: nat, base: nat, last: nat)
    ensures (a * p + b) * base + last == a * (base * p) + (b * base + last)
  {
    assert (a * p) * base == a * (base * p);
  }

  lemma {:induction false} ValueConcat(a: seq<byte>, b: seq<byte>)
    ensures Value(a + b) == Value(a) * Power(256, |b|) + Value(b)
  {
    if b == [] {
      assert a + b == a;
    } else {
      var b' := b[..|b| - 1];
      assert (a + b)[..|a + b| - 1] == a + b';
      ValueConcat(a, b');
      OnePlaceMore(Value(a), Power(256, |b'|), Value(b'), 256, b[|b| - 1] as nat);
    }
  }

  /** The bytes plus one, dropping a carry out of the first. */
  function Successor(bytes: seq<byte>): seq<byte> {
    if bytes == [] then []
    else
      var init, last := bytes[..|bytes| - 1], bytes[|bytes| - 1];
      if last < 255 then init + [last + 1] else Successor(init) + [0]
  }

  lemma {:induction false} SuccessorValue(bytes: seq<byte>)
    ensures |Successor(bytes)| == |bytes|
    ensures Value(Successor(bytes)) == if Value(bytes) + 1 < Power(256, |bytes|) then Value(bytes) + 1 else 0
  {
    if bytes != [] {
      var init, last := bytes[..|bytes| - 1], bytes[|bytes| - 1];
      var next := Successor(bytes);
      ValueBound(init);
      SuccessorValue(init);
      assert next[..|next| - 1] == if last < 255 then init else Successor(init);
    }
  }

  lemma CarryStep(was: seq<byte>, i: nat, rest: seq<byte>)
    requires i < |was|
    ensures Successor(was[..i + 1]) + rest ==
      if was[i] < 255 then was[..i] + [was[i] + 1] + rest else Successor(was[..i]) + ([0] + rest)
  {
    assert was[..i + 1][..i] == was[..i];
  }

  /** The carry loop: plus one, and back to zero from all 255s. */
  method IncrementEntropy(entropy: array<byte>)
    modifies entropy
    ensures entropy[..] == Successor(old(entropy[..]))
  {
    ghost var was, rest := entropy[..], [];
    var i := entropy.Length - 1;
    assert was[..i + 1] == was;
    while i >= 0
      invariant -1 <= i < entropy.Length
      invariant entropy[..] == was[..i + 1] + rest
      invariant Successor(was) == Successor(was[..i + 1]) + rest
    {
      CarryStep(was, i, rest);
      assert entropy[..][i] == was[i];
      entropy[i] := ((entropy[i] as int + 1) % 256) as byte;
      assert entropy[..] == was[..i] + [entropy[i]] + rest;
      if entropy[i] != 0 {
        return;
      }
      rest := [0] + rest;
      assert entropy[..] == was[..i] + rest;
      i := i - 1;
    }
  }

  /** The entropy after `k` more ids in the same millisecond. */
  function After(entropy: seq<byte>, k: nat): seq<byte> {
    if k == 0 then entropy else Successor(After(entropy, k - 1))
  }

  lemma {:induction false} AfterLength(entropy: seq<byte>, k: nat)
    ensures |After(entropy, k)| == |entropy|
  {
    if k > 0 {
      AfterLength(entropy, k - 1);
      SuccessorValue(After(entropy, k - 1));
    }
  }

  lemma AfterValue(entropy: seq<byte>, k: nat)
    requires k > 0
    ensures var m, w := Power(256, |entropy|), Value(After(entropy, k - 1));
      Value(After(entropy, k)) == if w + 1 < m then w + 1 else 0
  {
    AfterLength(entropy, k - 1);
    SuccessorValue(After(entropy, k - 1));
  }

  lemma AfterBound(entropy: seq<byte>, k: nat)
    ensures Value(After(entropy, k)) < Power(256, |entropy|)
  {
    AfterLength(entropy, k);
    ValueBound(After(entropy, k));
  }

  /** From step `j` to step `k` the value rises by the difference, or wraps once and ends below where it began. */
  lemma {:induction false} AfterAhead(entropy: seq<byte>, j: nat, k: nat)
    requires j < k < j + Power(256, |entropy|)
    ensures var m, u, v := Power(256, |entropy|), Value(After(entropy, j)), Value(After(entropy, k));
      v == u + (k - j) || v == u + (k - j) - m
  {
    hide *;
    AfterBound(entropy, j);
    AfterBound(entropy, k - 1);
    AfterValue(entropy, k);
    if k - 1 > j {
      AfterAhead(entropy, j, k - 1);
    }
  }

  // ----- Base 32 (section 6 of RFC 4648, another alphabet, no padding) -----

  /** The alphabet: decimal digits, then upper case letters without I, L, O and U. */
  function DigitChar(d: nat): char
    requires d < 32
  {
    if d < 10 then ('0' as nat + d) as char
    else if d < 18 then ('A' as nat + d - 10) as char
    else if d < 20 then ('J' as nat + d - 18) as char
    else if d < 22 then ('M' as nat + d - 20) as char
    else if d < 27 then ('P' as nat + d - 22) as char
    else ('V' as nat + d - 27) as char
  }

  function Digits(v: nat, width: nat): (s: string)
    ensures |s| == width
  {
    if width == 0 then "" else Digits(v / 32, width - 1) + [DigitChar(v % 32)]
  }

  /** Five bytes make eight characters; a shorter rest is filled up with zero bits to whole characters. */
  function Encode(raw: seq<byte>): string {
    if |raw| >= 5 then Digits(Value(raw[..5]), 8) + Encode(raw[5..])
    else if |raw| == 4 then Digits(Value(raw) * 8, 7)
    else if |raw| == 3 then Digits(Value(raw) * 2, 5)
    else if |raw| == 2 then Digits(Value(raw) * 16, 4)
    else if |raw| == 1 then Digits(Value(raw) * 4, 2)
    else ""
  }

  /** Equal first parts apart, order is decided by the first parts. */
  lemma {:induction false} LessConcat(a: string, x: string, b: string, y: string)
    requires |a| == |b|
    ensures Less(a + x, b + y) <==> Less(a, b) || (a == b && Less(x, y))
  {
    if a == [] {
      assert a + x == x && b + y == y;
    } else {
      assert (a + x)[1..] == a[1..] + x && (b + y)[1..] == b[1..] + y;
      assert a == [a[0]] + a[1..] && b == [b[0]] + b[1..];
      LessConcat(a[1..], x, b[1..], y);
    }
  }

  lemma {:induction false} DigitsOrder(u: nat, v: nat, width: nat)
    requires u < Power(32, width) && v < Power(32, width)
    ensures Less(Digits(u, width), Digits(v, width)) <==> u < v
    ensures Digits(u, width) == Digits(v, width) <==> u == v
  {
    if width > 0 {
      DigitsOrder(u / 32, v / 32, width - 1);
      LessConcat(Digits(u / 32, width - 1), [DigitChar(u % 32)], Digits(v / 32, width - 1), [DigitChar(v % 32)]);
      var s, t := Digits(u, width), Digits(v, width);
      assert s[..width - 1] == Digits(u / 32, width - 1) && t[..width - 1] == Digits(v / 32, width - 1);
      assert Less([DigitChar(u % 32)], [DigitChar(v % 32)]) <==> u % 32 < v % 32;
      assert s[width - 1] == DigitChar(u % 32) && t[width - 1] == DigitChar(v % 32);
    }
  }

  lemma {:induction false} SplitOrder(u: nat, v: nat, x: nat, y: nat, p: nat)
    requires x < p && y < p
    ensures u * p + x < v * p + y <==> u < v || (u == v && x < y)
    ensures u * p + x == v * p + y <==> u == v && x == y
  {
    if u < v {
      assert (u + 1) * p <= v * p;
      assert (u + 1) * p == u * p + p;
    } else if v < u {
      assert (v + 1) * p <= u * p;
      assert (v + 1) * p == v * p + p;
    }
  }

  lemma PowersMatch()
    ensures Power(256, 1) * 4 == Power(32, 2) && Power(256, 2) * 16 == Power(32, 4)
    ensures Power(256, 3) * 2 == Power(32, 5) && Power(256, 4) * 8 == Power(32, 7) && Power(256, 5) == Power(32, 8)
  {
    assert Power(256, 5) == 1099511627776 && Power(32, 8) == 1099511627776;
    assert Power(256, 4) == 4294967296 && Power(32, 7) == 34359738368;
  }

  /** The encoding preserves order and tells numbers apart: on inputs of one length, text order is numeric order. */
  lemma {:induction false} EncodeOrder(a: seq<byte>, b: seq<byte>)
    requires |a| == |b|
    ensures Less(Encode(a), Encode(b)) <==> Value(a) < Value(b)
    ensures Encode(a) == Encode(b) <==> Value(a) == Value(b)
  {
    PowersMatch();
    if |a| >= 5 {
      EncodeOrder(a[5..], b[5..]);
      GroupOrder(a, b);
    } else {
      RestOrder(a, b);
    }
  }

  lemma RestOrder(a: seq<byte>, b: seq<byte>)
    requires |a| == |b| < 5
    ensures Less(Encode(a), Encode(b)) <==> Value(a) < Value(b)
    ensures Encode(a) == Encode(b) <==> Value(a) == Value(b)
  {
    PowersMatch();
    ValueBound(a);
    ValueBound(b);
    var u, v := Value(a), Value(b);
    match |a| {
      case 4 => DigitsOrder(u * 8, v * 8, 7);
      case 3 => DigitsOrder(u * 2, v * 2, 5);
      case 2 => DigitsOrder(u * 16, v * 16, 4);
      case 1 => DigitsOrder(u * 4, v * 4, 2);
      case _ =>
    }
  }

  /** The first five bytes and the rest. */
  lemma Grouped(raw: seq<byte>)
    requires |raw| >= 5
    ensures Encode(raw) == Digits(Value(raw[..5]), 8) + Encode(raw[5..]) && Value(raw[..5]) < Power(32, 8)
    ensures Value(raw) == Value(raw[..5]) * Power(256, |raw[5..]|) + Value(raw[5..]) && Value(raw[5..]) < Power(256, |raw[5..]|)
  {
    PowersMatch();
    ValueBound(raw[..5]);
    ValueBound(raw[5..]);
    assert raw == raw[..5] + raw[5..];
    ValueConcat(raw[..5], raw[5..]);
    hide Digits, Value, Power;
  }

  lemma GroupOrder(a: seq<byte>, b: seq<byte>)
    requires |a| == |b| >= 5
    requires Less(Encode(a[5..]), Encode(b[5..])) <==> Value(a[5..]) < Value(b[5..])
    requires Encode(a[5..]) == Encode(b[5..]) <==> Value(a[5..]) == Value(b[5..])
    ensures Less(Encode(a), Encode(b)) <==> Value(a) < Value(b)
    ensures Encode(a) == Encode(b) <==> Value(a) == Value(b)
  {
    Grouped(a);
    Grouped(b);
    hide Encode, Value, Power, Digits, Less;
    DigitsOrder(Value(a[..5]), Value(b[..5]), 8);
    LessConcat(Digits(Value(a[..5]), 8), Encode(a[5..]), Digits(Value(b[..5]), 8), Encode(b[5..]));
    SplitOrder(Value(a[..5]), Value(b[..5]), Value(a[5..]), Value(b[5..]), Power(256, |a[5..]|));
    assert Encode(a)[..8] == Digits(Value(a[..5]), 8) && Encode(a)[8..] == Encode(a[5..]);
    assert Encode(b)[..8] == Digits(Value(b[..5]), 8) && Encode(b)[8..] == Encode(b[5..]);
  }

  const ALPHABET := "0123456789ABCDEFGHJKMNPQRSTVWXYZ"

  /** The value of a character of the alphabet. */
  function DigitValue(c: char): nat {
    if c < 'A' then (if '0' <= c then c as nat - '0' as nat else 0)
    else if c < 'I' then c as nat - 'A' as nat + 10
    else if c < 'L' then c as nat - 'J' as int + 18
    else if c < 'O' then c as nat - 'M' as int + 20
    else if c < 'U' then c as nat - 'P' as int + 22
    else c as nat - 'V' as int + 27
  }

  lemma DigitRoundTrip(d: nat)
    requires d < 32
    ensures DigitChar(d) == ALPHABET[d] && DigitValue(DigitChar(d)) == d
  {
  }

  /** The number a text denotes in base 32. */
  function Number(s: string): nat {
    if s == [] then 0 else Number(s[..|s| - 1]) * 32 + DigitValue(s[|s| - 1])
  }

  lemma {:induction false} NumberConcat(a: string, b: string)
    ensures Number(a + b) == Number(a) * Power(32, |b|) + Number(b)
  {
    if b == [] {
      assert a + b == a;
    } else {
      var b' := b[..|b| - 1];
      assert (a + b)[..|a + b| - 1] == a + b';
      NumberConcat(a, b');
      OnePlaceMore(Number(a), Power(32, |b'|), Number(b'), 32, DigitValue(b[|b| - 1]));
    }
  }

  lemma {:induction false} NumberOfDigits(v: nat, width: nat)
    requires v < Power(32, width)
    ensures Number(Digits(v, width)) == v
  {
    if width > 0 {
      NumberOfDigits(v / 32, width - 1);
      DigitRoundTrip(v % 32);
      var s := Digits(v, width);
      assert s[..width - 1] == Digits(v / 32, width - 1) && s[width - 1] == DigitChar(v % 32);
    }
  }

  lemma {:induction false} PowerSum(base: nat, m: nat, n: nat)
    requires base > 0
    ensures Power(base, m + n) == Power(base, m) * Power(base, n)
  {
    if m > 0 {
      PowerSum(base, m - 1, n);
      assert base * (Power(base, m - 1) * Power(base, n)) == (base * Power(base, m - 1)) * Power(base, n);
    }
  }

  /** Powers of 32 and 256 as powers of two. */
  lemma {:induction false} PowersOfTwo(n: nat)
    ensures Power(32, n) == Power(2, 5 * n) && Power(256, n) == Power(2, 8 * n)
  {
    if n > 0 {
      PowersOfTwo(n - 1);
      PowerSum(2, 5, 5 * (n - 1));
      PowerSum(2, 8, 8 * (n - 1));
      assert Power(2, 5) == 32 && Power(2, 8) == 256;
    }
  }

  lemma {:induction false} EncodedBits(raw: seq<byte>)
    ensures 8 * |raw| <= 5 * |Encode(raw)| < 8 * |raw| + 5
  {
    if |raw| >= 5 { EncodedBits(raw[5..]); }
  }

  /** The characters of an encoding stand for exactly the bits of the bytes, followed by fewer than five zero bits. */
  lemma {:induction false} EncodeIsBase32(raw: seq<byte>)
    ensures 8 * |raw| <= 5 * |Encode(raw)| < 8 * |raw| + 5
    ensures Number(Encode(raw)) == Value(raw) * Power(2, 5 * |Encode(raw)| - 8 * |raw|)
  {
    EncodedBits(raw);
    PowersMatch();
    ValueBound(raw);
    if |raw| >= 5 {
      EncodeIsBase32(raw[5..]);
      GroupIsBase32(raw);
      hide Encode, Number, Value, Power;
    } else {
      RestIsBase32(raw);
    }
  }

  lemma RestIsBase32(raw: seq<byte>)
    requires |raw| < 5
    ensures |Encode(raw)| == (if |raw| == 0 then 0 else if |raw| == 1 then 2 else if |raw| == 2 then 4 else if |raw| == 3 then 5 else 7)
    ensures 5 * |Encode(raw)| >= 8 * |raw| && Number(Encode(raw)) == Value(raw) * Power(2, 5 * |Encode(raw)| - 8 * |raw|)
  {
    PowersMatch();
    ValueBound(raw);
    assert Power(2, 0) == 1 && Power(2, 1) == 2 && Power(2, 2) == 4 && Power(2, 3) == 8 && Power(2, 4) == 16;
    var v := Value(raw);
    match |raw| {
      case 4 => NumberOfDigits(v * 8, 7);
      case 3 => NumberOfDigits(v * 2, 5);
      case 2 => NumberOfDigits(v * 16, 4);
      case 1 => NumberOfDigits(v * 4, 2);
      case _ => assert raw == [];
    }
  }

  /** A product that is not multiplied out. */
  function Times(a: nat, b: nat): nat { a * b }

  lemma GroupNumber(raw: seq<byte>)
    requires |raw| >= 5
    ensures |Encode(raw)| == 8 + |Encode(raw[5..])|
    ensures Number(Encode(raw)) == Times(Value(raw[..5]), Power(32, |Encode(raw[5..])|)) + Number(Encode(raw[5..]))
    ensures Value(raw) == Times(Value(raw[..5]), Power(256, |raw[5..]|)) + Value(raw[5..])
  {
    Grouped(raw);
    NumberOfDigits(Value(raw[..5]), 8);
    NumberConcat(Digits(Value(raw[..5]), 8), Encode(raw[5..]));
    hide Encode, Number, Value, Power, Digits;
  }

  lemma PaddedPower(chars: nat, bytes: nat)
    requires 8 * bytes <= 5 * chars
    ensures Power(32, chars) == Times(Power(256, bytes), Power(2, 5 * chars - 8 * bytes))
  {
    PowersOfTwo(chars);
    PowersOfTwo(bytes);
    PowerSum(2, 8 * bytes, 5 * chars - 8 * bytes);
    hide Power;
  }

  lemma GroupIsBase32(raw: seq<byte>)
    requires |raw| >= 5
    requires 8 * |raw[5..]| <= 5 * |Encode(raw[5..])|
    requires Number(Encode(raw[5..])) == Times(Value(raw[5..]), Power(2, 5 * |Encode(raw[5..])| - 8 * |raw[5..]|))
    ensures 5 * |Encode(raw)| - 8 * |raw| == 5 * |Encode(raw[5..])| - 8 * |raw[5..]|
    ensures Number(Encode(raw)) == Times(Value(raw), Power(2, 5 * |Encode(raw)| - 8 * |raw|))
  {
    hide *;
    var chars, bytes := |Encode(raw[5..])|, |raw[5..]|;
    GroupNumber(raw);
    PaddedPower(chars, bytes);
    var q := Power(2, 5 * chars - 8 * bytes);
    Shifted(Value(raw[..5]), Power(256, bytes), Value(raw[5..]), q);
    assert 5 * |Encode(raw)| - 8 * |raw| == 5 * chars - 8 * bytes;
  }

  lemma Shifted(head: nat, p: nat, low: nat, q: nat)
    ensures Times(Times(head, p) + low, q) == Times(head, Times(p, q)) + Times(low, q)
  {
    assert (head * p) * q == head * (p * q);
  }

  // ----- The generator -----

  const ENTROPY: nat := 10
  const MS_SPAN: int := 0x1_0000_0000_0000  // 2^48

  /** The lowest 48 bits of the clock, most significant byte first; each shift by eight is a division by 256. */
  function MsBytes(ms: int): (b: seq<byte>)
    ensures |b| == 6 && Value(b) == ms % MS_SPAN
  {
    var v4 := ms / 256;
    var v3 := v4 / 256;
    var v2 := v3 / 256;
    var v1 := v2 / 256;
    var v0 := v1 / 256;
    var b: seq<byte> := [(v0 % 256) as byte, (v1 % 256) as byte, (v2 % 256) as byte,
                         (v3 % 256) as byte, (v4 % 256) as byte, (ms % 256) as byte];
    LastByte(b[..0], b[0]); LastByte(b[..1], b[1]); LastByte(b[..2], b[2]);
    LastByte(b[..3], b[3]); LastByte(b[..4], b[4]); LastByte(b[..5], b[5]);
    assert b[..1] == b[..0] + [b[0]] && b[..2] == b[..1] + [b[1]] && b[..3] == b[..2] + [b[2]];
    assert b[..4] == b[..3] + [b[3]] && b[..5] == b[..4] + [b[4]] && b == b[..5] + [b[5]];
    SixBytes(ms, v0, v1, v2, v3, v4);
    b
  }

  lemma SixBytes(ms: int, v0: int, v1: int, v2: int, v3: int, v4: int)
    requires v4 == ms / 256 && v3 == v4 / 256 && v2 == v3 / 256 && v1 == v2 / 256 && v0 == v1 / 256
    ensures ((((v0 % 256 * 256 + v1 % 256) * 256 + v2 % 256) * 256 + v3 % 256) * 256 + v4 % 256) * 256 + ms % 256 == ms % MS_SPAN
  {
    var q := v0 / 256;
    var r := ((((v0 % 256 * 256 + v1 % 256) * 256 + v2 % 256) * 256 + v3 % 256) * 256 + v4 % 256) * 256 + ms % 256;
    assert ms == q * MS_SPAN + r && 0 <= r < MS_SPAN;
  }

  lemma LastByte(head: seq<byte>, b: byte)
    ensures Value(head + [b]) == Value(head) * 256 + b as nat
  {
    assert (head + [b])[..|head|] == head;
  }

  function IdText(ms: int, entropy: seq<byte>): string {
    Encode(MsBytes(ms) + entropy)
  }

  /** Ids compare as text exactly as their clocks and then their entropies compare as numbers, and are equal only
      when both are: the encoding loses nothing. */
  lemma IdOrder(ms: int, e: seq<byte>, ms': int, e': seq<byte>)
    requires |e| == |e'| == ENTROPY
    ensures Less(IdText(ms, e), IdText(ms', e')) <==>
      ms % MS_SPAN < ms' % MS_SPAN || (ms % MS_SPAN == ms' % MS_SPAN && Value(e) < Value(e'))
    ensures IdText(ms, e) == IdText(ms', e') <==> ms % MS_SPAN == ms' % MS_SPAN && Value(e) == Value(e')
    ensures |IdText(ms, e)| == 26
  {
    EncodeOrder(MsBytes(ms) + e, MsBytes(ms') + e');
    ValueConcat(MsBytes(ms), e);
    ValueConcat(MsBytes(ms'), e');
    ValueBound(e);
    ValueBound(e');
    SplitOrder(Value(MsBytes(ms)), Value(MsBytes(ms')), Value(e), Value(e'), Power(256, |e|));
    EncodedLength(MsBytes(ms) + e);
  }

  lemma {:induction false} EncodedLength(raw: seq<byte>)
    ensures |Encode(raw)| == (8 * |raw| + 4) / 5
  {
    if |raw| >= 5 {
      EncodedLength(raw[5..]);
    }
  }

  class IdGenerator {
    var lastMs: int
    const entropy: array<byte>

    constructor ()
      ensures fresh(entropy) && Valid() && lastMs == 0 && Value(entropy[..]) == 0
    {
      lastMs := 0;
      entropy := new byte[ENTROPY](_ => 0);
      new;
      assert entropy[..] == [0, 0, 0, 0, 0, 0, 0, 0, 0, 0];
      AllZero(entropy[..]);
    }

    ghost predicate Valid()
      reads this
    {
      entropy.Length == ENTROPY
    }

    /** A new millisecond takes fresh random bytes; the same one counts up. */
    method New(ms: int, random: seq<byte>) returns (id: string)
      requires Valid() && |random| == ENTROPY
      modifies this`lastMs, entropy
      ensures Valid() && lastMs == ms
      ensures entropy[..] == if ms != old(lastMs) then random else Successor(old(entropy[..]))
      ensures id == IdText(ms, entropy[..])
    {
      if ms != lastMs {
        lastMs := ms;
        forall i | 0 <= i < ENTROPY { entropy[i] := random[i]; }
        assert entropy[..] == random;
      } else {
        IncrementEntropy(entropy);
      }
      var raw := MsBytes(ms) + entropy[..];
      id := Encode(raw);
    }
  }

  lemma {:induction false} AllZero(bytes: seq<byte>)
    requires forall i :: 0 <= i < |bytes| ==> bytes[i] == 0
    ensures Value(bytes) == 0
  {
    if bytes != [] {
      AllZero(bytes[..|bytes| - 1]);
    }
  }

  lemma IdOrderInSpan(ms: int, e: seq<byte>, ms': int, e': seq<byte>)
    requires |e| == |e'| == ENTROPY && 0 <= ms < MS_SPAN && 0 <= ms' < MS_SPAN
    ensures Less(IdText(ms, e), IdText(ms', e')) <==> ms < ms' || (ms == ms' && Value(e) < Value(e'))
  {
    IdOrder(ms, e, ms', e');
    InSpan(ms);
    InSpan(ms');
  }

  lemma InSpan(ms: int)
    requires 0 <= ms < MS_SPAN
    ensures ms % MS_SPAN == ms
  {
  }

  lemma SuccessorRises(bytes: seq<byte>)
    ensures |Successor(bytes)| == |bytes|
    ensures Value(bytes) < Value(Successor(bytes)) <==> Value(bytes) + 1 < Power(256, |bytes|)
  {
    SuccessorValue(bytes);
  }

  /** Below 2^48 milliseconds the next id is greater as text than the one before exactly when the clock moved on, or
      stood still and the entropy did not wrap: never when the clock went back. */
  lemma SuccessiveIdsRise(last: int, entropy: seq<byte>, ms: int, random: seq<byte>)
    requires |entropy| == |random| == ENTROPY && 0 <= last < MS_SPAN && 0 <= ms < MS_SPAN
    ensures Less(IdText(last, entropy), IdText(ms, if ms != last then random else Successor(entropy))) <==>
      ms > last || (ms == last && Value(entropy) + 1 < Power(256, |entropy|))
  {
    SuccessorRises(entropy);
    IdOrderInSpan(last, entropy, ms, if ms != last then random else Successor(entropy));
  }

  /** Ids made in one millisecond differ pairwise for up to 2^80 calls. */
  lemma IdsOfOneMillisecondDiffer(ms: int, entropy: seq<byte>, j: nat, k: nat)
    requires |entropy| == ENTROPY && j < k < j + Power(256, ENTROPY)
    ensures Power(256, ENTROPY) == 0x1_0000_0000_0000_0000_0000
    ensures IdText(ms, After(entropy, j)) != IdText(ms, After(entropy, k))
  {
    assert Power(256, 5) == 0x100_0000_0000;
    assert Power(256, 10) == 0x1_0000_0000_0000_0000_0000;
    AfterLength(entropy, j);
    AfterLength(entropy, k);
    AfterAhead(entropy, j, k);
    ValueBound(After(entropy, j));
    IdOrder(ms, After(entropy, j), ms, After(entropy, k));
  }
}
