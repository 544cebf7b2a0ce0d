/** Strings: decimal numerals, separators and lexicographic order. */
module Text {
  import opened Domain

  function Digit(n: nat): char
    requires n < 10
  {
    (n + '0' as int) as char
  }

  predicate IsDigit(c: char) { '0' <= c <= '9' }

  function Decimal(n: nat): string {
    if n < 10 then [Digit(n)] else Decimal(n / 10) + [Digit(n % 10)]
  }

  /** The number a non-empty string of digits denotes. */
  function ParseDecimal(s: string): Option<nat> {
    if s == [] || !IsDigit(s[|s| - 1]) then None
    else
      var d := s[|s| - 1] as int - '0' as int;
      if |s| == 1 then Some(d)
      else match ParseDecimal(s[..|s| - 1])
        case None => None
        case Some(n) => Some(10 * n + d)
  }

  lemma {:induction false} DecimalRoundTrip(n: nat)
    ensures ParseDecimal(Decimal(n)) == Some(n)
    ensures forall c :: c in Decimal(n) ==> IsDigit(c)
    ensures Decimal(n) != ""
  {
    var s := Decimal(n);
    if n >= 10 {
      DecimalRoundTrip(n / 10);
      assert s[..|s| - 1] == Decimal(n / 10);
    }
  }

  lemma DecimalInjective(a: nat, b: nat)
    requires Decimal(a) == Decimal(b)
    ensures a == b
  {
    DecimalRoundTrip(a);
    DecimalRoundTrip(b);
  }

  /** A separator that occurs in neither first part splits the two strings the same way. */
  lemma {:induction false} SplitUnique(a: string, x: string, b: string, y: string, sep: char)
    requires sep !in a && sep !in b
    requires a + [sep] + x == b + [sep] + y
    ensures a == b && x == y
  {
    var s, t := a + [sep] + x, b + [sep] + y;
    assert s[0] == t[0];
    if a != [] && b != [] {
      assert s[1..] == a[1..] + [sep] + x && t[1..] == b[1..] + [sep] + y;
      assert a == [s[0]] + a[1..] && b == [t[0]] + b[1..];
      SplitUnique(a[1..], x, b[1..], y, sep);
    } else {
      assert a == b;
      assert x == s[1..] && y == t[1..];
    }
  }

  /** Strict lexicographic order by character code. */
  predicate Less(a: string, b: string) {
    b != [] && (a == [] || a[0] < b[0] || (a[0] == b[0] && Less(a[1..], b[1..])))
  }

  lemma {:induction false} LessTotal(a: string, b: string)
    ensures a == b || Less(a, b) || Less(b, a)
    ensures !(Less(a, b) && Less(b, a))
    ensures !Less(a, a)
  {
    if a != [] && b != [] {
      LessTotal(a[1..], b[1..]);
      if a[0] == b[0] && a[1..] == b[1..] {
        assert a == [a[0]] + a[1..] && b == [b[0]] + b[1..];
      }
    }
    if a != [] {
      LessTotal(a[1..], a[1..]);
    }
  }

  lemma {:induction false} LessTransitive(a: string, b: string, c: string)
    requires Less(a, b) && Less(b, c)
    ensures Less(a, c)
  {
    if a != [] && a[0] == b[0] == c[0] {
      LessTransitive(a[1..], b[1..], c[1..]);
    }
  }

  // ----- UTF-8 -----

  /** The bytes of a character, as in section 3 of RFC 3629. */
  function Utf8Of(n: nat): (bytes: seq<nat>)
    ensures 1 <= |bytes| <= 4
  {
    if n < 0x80 then [n]
    else if n < 0x800 then [0xC0 + n / 64, 0x80 + n % 64]
    else if n < 0x1_0000 then [0xE0 + n / 4096, 0x80 + n / 64 % 64, 0x80 + n % 64]
    else [0xF0 + n / 262144, 0x80 + n / 4096 % 64, 0x80 + n / 64 % 64, 0x80 + n % 64]
  }

  function Utf8(s: string): seq<nat> {
    if s == [] then [] else Utf8Of(s[0] as int) + Utf8(s[1..])
  }

  /** How many bytes the character takes whose first byte this is. */
  function Width(first: nat): nat {
    if first < 0xC0 then 1 else if first < 0xE0 then 2 else if first < 0xF0 then 3 else 4
  }

  /** The characters' numbers, read back from the bytes by their first ones; the rest, if too short, is dropped. */
  function CodePoints(bytes: seq<nat>): seq<int>
    decreases |bytes|
  {
    if bytes == [] || |bytes| < Width(bytes[0]) then [] else
      var w := Width(bytes[0]);
      [if w == 1 then bytes[0]
       else if w == 2 then (bytes[0] - 0xC0) * 64 + (bytes[1] - 0x80)
       else if w == 3 then (bytes[0] - 0xE0) * 4096 + (bytes[1] - 0x80) * 64 + (bytes[2] - 0x80)
       else (bytes[0] - 0xF0) * 262144 + (bytes[1] - 0x80) * 4096 + (bytes[2] - 0x80) * 64 + (bytes[3] - 0x80)]
      + CodePoints(bytes[w..])
  }

  lemma HeadRead(n: nat, rest: seq<nat>)
    requires n < 0x11_0000
    ensures CodePoints(Utf8Of(n) + rest) == [n as int] + CodePoints(rest)
  {
    var bytes := Utf8Of(n) + rest;
    assert Width(bytes[0]) == |Utf8Of(n)|;
    assert bytes[|Utf8Of(n)|..] == rest;
    if n >= 0x800 { Digits64(n); }
  }

  lemma Digits64(n: nat)
    ensures n == n / 64 * 64 + n % 64
    ensures n / 64 == n / 4096 * 64 + n / 64 % 64
    ensures n / 4096 == n / 262144 * 64 + n / 4096 % 64
  {
  }

  /** `ByteLength` is the length of the bytes, and the bytes are a UTF-8 form: every character can be read back. */
  lemma {:induction false} Utf8RoundTrip(s: string)
    ensures ByteLength(s) == |Utf8(s)|
    ensures |CodePoints(Utf8(s))| == |s| && forall i :: 0 <= i < |s| ==> CodePoints(Utf8(s))[i] == s[i] as int
  {
    if s != [] {
      Utf8RoundTrip(s[1..]);
      HeadRead(s[0] as int, Utf8(s[1..]));
      hide CodePoints;
    }
  }
}
