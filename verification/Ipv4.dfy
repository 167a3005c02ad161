/**
  Dotted quads as the temporary ingress reads them: at most three digits a part, no leading zeros, no part over 255.
 */
module Ipv4 {
  import opened Options

  predicate IsDigit(c: char) {
    '0' <= c <= '9'
  }

  function DigitValue(c: char): nat
    requires IsDigit(c)
  {
    c as int - '0' as int
  }

  predicate AllDigits(s: string) {
    forall i :: 0 <= i < |s| ==> IsDigit(s[i])
  }

  /** One part of the pattern: a zero, or one to three digits without a leading zero. */
  predicate IsPart(s: string) {
    AllDigits(s) && (s == "0" || (1 <= |s| <= 3 && s[0] != '0'))
  }

  /** `Number(part)`. */
  function PartValue(s: string): nat
    requires AllDigits(s)
  {
    if s == "" then 0 else PartValue(s[..|s| - 1]) * 10 + DigitValue(s[|s| - 1])
  }

  /** The decimal numeral without leading zeros. */
  function Decimal(n: nat): string
    requires n <= 255
  {
    if n < 10 then [Digit(n)]
    else if n < 100 then [Digit(n / 10), Digit(n % 10)]
    else [Digit(n / 100), Digit(n / 10 % 10), Digit(n % 10)]
  }

  function Digit(n: nat): char
    requires n < 10
  {
    '0' + n as char
  }

  lemma DecimalRoundTrip(n: nat)
    requires n <= 255
    ensures IsPart(Decimal(n)) && PartValue(Decimal(n)) == n
  {
    var s := Decimal(n);
    assert AllDigits(s);
    PartValueUnfold(s);
    hide PartValue;
  }

  lemma PartValueUnfold(s: string)
    requires 1 <= |s| <= 3 && AllDigits(s)
    ensures |s| == 1 ==> PartValue(s) == DigitValue(s[0])
    ensures |s| == 2 ==> PartValue(s) == DigitValue(s[0]) * 10 + DigitValue(s[1])
    ensures |s| == 3 ==> PartValue(s) == DigitValue(s[0]) * 100 + DigitValue(s[1]) * 10 + DigitValue(s[2])
  {
    assert PartValue(s[..|s| - 1]) ==
           if |s| == 1 then 0 else PartValue(s[..|s| - 1][..|s| - 2]) * 10 + DigitValue(s[|s| - 2]);
    if |s| == 3 {
      assert s[..2][..1] == s[..1];
      assert s[..1][..0] == "";
    }
  }

  /** An accepted part is the numeral of its value. */
  lemma PartIsDecimal(s: string)
    requires IsPart(s) && PartValue(s) <= 255
    ensures Decimal(PartValue(s)) == s
  {
    PartValueUnfold(s);
  }

  function Split(s: string): (parts: seq<string>)
    ensures |parts| >= 1 && forall k :: 0 <= k < |parts| ==> '.' !in parts[k]
    ensures Join(parts) == s
  {
    if s == "" then [""]
    else
      var rest := Split(s[1..]);
      if s[0] == '.' then [""] + rest else [[s[0]] + rest[0]] + rest[1..]
  }

  function Join(parts: seq<string>): string
    requires |parts| >= 1
  {
    if |parts| == 1 then parts[0] else parts[0] + "." + Join(parts[1..])
  }

  /** Splitting undoes joining: the pattern can match a text in one way only. */
  lemma {:induction false} SplitJoin(parts: seq<string>)
    requires |parts| >= 1 && forall k :: 0 <= k < |parts| ==> '.' !in parts[k]
    ensures Split(Join(parts)) == parts
    decreases |parts|, |parts[0]|
  {
    var s := Join(parts);
    if parts[0] == "" {
      if |parts| > 1 {
        assert s[1..] == Join(parts[1..]);
        SplitJoin(parts[1..]);
      }
    } else {
      var shorter := [parts[0][1..]] + parts[1..];
      assert s[0] == parts[0][0] && s[0] != '.';
      assert s[1..] == Join(shorter);
      SplitJoin(shorter);
      assert [s[0]] + shorter[0] == parts[0];
    }
  }

  predicate AcceptedPart(part: string) {
    IsPart(part) && PartValue(part) <= 255
  }

  /** The accumulation over the octets, most significant first. */
  function Accumulate(octets: seq<nat>): nat {
    if octets == [] then 0 else Accumulate(octets[..|octets| - 1]) * 256 + octets[|octets| - 1]
  }

  function Values(parts: seq<string>): seq<nat>
    requires forall k :: 0 <= k < |parts| ==> AcceptedPart(parts[k])
  {
    seq(|parts|, k requires 0 <= k < |parts| => assert AcceptedPart(parts[k]); PartValue(parts[k]))
  }

  function Ipv4Number(value: string): Option<nat> {
    var parts := Split(value);
    if |parts| == 4 && forall k :: 0 <= k < |parts| ==> AcceptedPart(parts[k])
    then Some(Accumulate(Values(parts))) else None
  }

  const RANGE: nat := 0x1_0000_0000

  function Octets(n: nat): seq<nat> {
    [n / 0x100_0000, n / 0x1_0000 % 0x100, n / 0x100 % 0x100, n % 0x100]
  }

  function Numerals(octets: seq<nat>): seq<string>
    requires forall k :: 0 <= k < |octets| ==> octets[k] <= 255
  {
    seq(|octets|, k requires 0 <= k < |octets| => Decimal(octets[k]))
  }

  function Quad(n: nat): string
    requires n < RANGE
  {
    Join(Numerals(Octets(n)))
  }

  lemma AccumulateFour(a: nat, b: nat, c: nat, d: nat)
    ensures Accumulate([a, b, c, d]) == a * 0x100_0000 + b * 0x1_0000 + c * 0x100 + d
  {
    assert [a, b, c, d][..3] == [a, b, c] && [a, b, c][..2] == [a, b] && [a, b][..1] == [a];
    assert Accumulate([a]) == a;
    assert Accumulate([a, b]) == a * 256 + b;
    assert Accumulate([a, b, c]) == (a * 256 + b) * 256 + c;
  }

  /** Octets and accumulation are inverse. */
  lemma OctetsRoundTrip(n: nat)
    requires n < RANGE
    ensures |Octets(n)| == 4 && forall k :: 0 <= k < 4 ==> Octets(n)[k] <= 255
    ensures Accumulate(Octets(n)) == n
  {
    Undigits256(n);
    AccumulateFour(n / 0x100_0000, n / 0x1_0000 % 0x100, n / 0x100 % 0x100, n % 0x100);
    hide Accumulate;
  }

  lemma Undigits256(n: nat)
    requires n < RANGE
    ensures n / 0x100_0000 <= 255
    ensures n == n / 0x100_0000 * 0x100_0000 + n / 0x1_0000 % 0x100 * 0x1_0000 + n / 0x100 % 0x100 * 0x100 + n % 0x100
  {
    var m := n / 0x100;
    var l := m / 0x100;
    assert n == m * 0x100 + n % 0x100;
    assert m == l * 0x100 + m % 0x100;
    assert l == n / 0x1_0000 && l / 0x100 == n / 0x100_0000;
  }

  lemma AccumulateRoundTrip(o: seq<nat>)
    requires |o| == 4 && forall k :: 0 <= k < 4 ==> o[k] <= 255
    ensures Accumulate(o) < RANGE && Octets(Accumulate(o)) == o
  {
    assert o == [o[0], o[1], o[2], o[3]];
    AccumulateFour(o[0], o[1], o[2], o[3]);
    hide Accumulate;
    Digits256(o[0], o[1], o[2], o[3]);
  }

  lemma Digits256(a: nat, b: nat, c: nat, d: nat)
    requires a <= 255 && b <= 255 && c <= 255 && d <= 255
    ensures var n := a * 0x100_0000 + b * 0x1_0000 + c * 0x100 + d;
      n < RANGE && n / 0x100_0000 == a && n / 0x1_0000 % 0x100 == b && n / 0x100 % 0x100 == c && n % 0x100 == d
  {
    var n := a * 0x100_0000 + b * 0x1_0000 + c * 0x100 + d;
    assert n / 0x1_0000 == a * 0x100 + b;
    assert n / 0x100 == (a * 0x100 + b) * 0x100 + c;
  }

  /** Every number below 2^32 is the value of the quad that spells it. */
  lemma NumberOfQuad(n: nat)
    requires n < RANGE
    ensures Ipv4Number(Quad(n)) == Some(n)
  {
    OctetsRoundTrip(n);
    hide Octets, Accumulate, Decimal, Split, Join, IsPart, AllDigits, PartValue;
    var o := Octets(n);
    var parts := Numerals(o);
    forall k | 0 <= k < 4 ensures AcceptedPart(parts[k]) && PartValue(parts[k]) == o[k] && '.' !in parts[k] {
      DecimalRoundTrip(o[k]);
      NoDot(parts[k]);
    }
    SplitJoin(parts);
    assert Values(parts) == o;
  }

  lemma NoDot(part: string)
    requires IsPart(part)
    ensures '.' !in part
  {
  }

  /** Every accepted text is the quad of its value, which is below 2^32: no two texts share a number. */
  lemma QuadOfNumber(value: string)
    requires Ipv4Number(value).Some?
    ensures Ipv4Number(value).value < RANGE && Quad(Ipv4Number(value).value) == value
  {
    hide Octets, Accumulate, Decimal, Join, AllDigits, PartValue;
    var parts := Split(value);
    AccumulateRoundTrip(Values(parts));
    assert forall k :: 0 <= k < 4 ==> AcceptedPart(parts[k]);
    forall k | 0 <= k < 4 ensures Decimal(PartValue(parts[k])) == parts[k] {
      PartIsDecimal(parts[k]);
    }
    assert Numerals(Values(parts)) == parts;
  }

  // ----- Address blocks -------------------------------------------------------------------------

  /** A block in prefix notation: the addresses that agree with `base` on their first `bits` bits. */
  datatype Block = Block(base: nat, bits: nat)

  /** A number without its last k bits. */
  function Drop(n: nat, k: nat): nat {
    if k == 0 then n else Drop(n / 2, k - 1)
  }

  predicate Within(n: nat, b: Block) {
    b.bits <= 32 && Drop(n, 32 - b.bits) == Drop(b.base, 32 - b.bits)
  }

  /** The ranges refused: those of section 3 of RFC 1918 and section 7 of RFC 6598 among them. */
  datatype Range =
    | ThisNetwork | Private10 | Loopback | MulticastAndAbove | LinkLocal
    | Private172 | Private192 | Shared | Benchmarking

  function BlockOf(r: Range): Block {
    match r
    case ThisNetwork => Block(0x0000_0000, 8) // 0.0.0.0/8
    case Private10 => Block(0x0A00_0000, 8) // 10.0.0.0/8
    case Loopback => Block(0x7F00_0000, 8) // 127.0.0.0/8
    case MulticastAndAbove => Block(0xE000_0000, 3) // 224.0.0.0/3
    case LinkLocal => Block(0xA9FE_0000, 16) // 169.254.0.0/16
    case Private172 => Block(0xAC10_0000, 12) // 172.16.0.0/12
    case Private192 => Block(0xC0A8_0000, 16) // 192.168.0.0/16
    case Shared => Block(0x6440_0000, 10) // 100.64.0.0/10
    case Benchmarking => Block(0xC612_0000, 15) // 198.18.0.0/15
  }

  predicate InRange(n: nat, r: Range) {
    Within(n, BlockOf(r))
  }

  /** `publicIpv4`, by quotients and remainders. */
  predicate PublicIpv4(value: string) {
    var number := Ipv4Number(value);
    number.Some? &&
    var first := number.value / 0x100_0000;
    var second := number.value / 0x1_0000 % 256;
    !(first == 0 || first == 10 || first == 127 || first >= 224
      || (first == 169 && second == 254)
      || (first == 172 && 16 <= second <= 31)
      || (first == 192 && second == 168)
      || (first == 100 && 64 <= second <= 127)
      || (first == 198 && second in [18, 19]))
  }

  lemma {:induction false} DropTwice(n: nat, k: nat, m: nat)
    ensures Drop(Drop(n, k), m) == Drop(n, k + m)
    decreases k
  {
    if k > 0 {
      DropTwice(n / 2, k - 1, m);
    }
  }

  lemma DropFew(n: nat)
    ensures Drop(n, 1) == n / 2 && Drop(n, 4) == n / 16 && Drop(n, 8) == n / 256
  {
    assert Drop(n, 1) == n / 2;
    assert Drop(n, 2) == Drop(n / 2, 1) == n / 4;
    assert Drop(n, 4) == Drop(n / 4, 2) == n / 16 by { DropTwice(n, 2, 2); }
    assert Drop(n, 8) == Drop(n / 16, 4) by { DropTwice(n, 4, 4); }
    assert Drop(n / 16, 4) == Drop(n / 16 / 4, 2) == n / 256 by { DropTwice(n / 16, 2, 2); }
  }

  /** Dropping bits is dividing, for the prefix lengths in use. */
  lemma Drops(n: nat)
    ensures Drop(n, 16) == n / 0x1_0000 && Drop(n, 17) == n / 0x2_0000 && Drop(n, 20) == n / 0x10_0000
    ensures Drop(n, 22) == n / 0x40_0000 && Drop(n, 24) == n / 0x100_0000 && Drop(n, 29) == n / 0x2000_0000
  {
    DropFew(n);
    DropFew(n / 256);
    DropTwice(n, 8, 8);
    var m := n / 0x1_0000;
    DropFew(m);
    DropTwice(n, 16, 1);
    DropTwice(n, 16, 4);
    DropTwice(n, 16, 8);
    DropFew(m / 16);
    DropTwice(n, 20, 1);
    DropTwice(n, 21, 1);
    DropFew(m / 32);
    DropFew(m / 256);
    DropTwice(n, 24, 4);
    DropTwice(n, 28, 1);
    DropFew(m / 256 / 16);
  }

  /** The quotient that decides membership of each range. */
  function Quotient(n: nat, r: Range): nat {
    match r
    case ThisNetwork | Private10 | Loopback => n / 0x100_0000
    case MulticastAndAbove => n / 0x2000_0000
    case LinkLocal | Private192 => n / 0x1_0000
    case Private172 => n / 0x10_0000
    case Shared => n / 0x40_0000
    case Benchmarking => n / 0x2_0000
  }

  lemma DropIsQuotient(n: nat, r: Range)
    ensures Drop(n, 32 - BlockOf(r).bits) == Quotient(n, r)
  {
    Drops(n);
    hide Drop;
  }

  lemma RangeByQuotient(n: nat, r: Range)
    ensures InRange(n, r) <==> Quotient(n, r) == Quotient(BlockOf(r).base, r)
  {
    DropIsQuotient(n, r);
    DropIsQuotient(BlockOf(r).base, r);
    hide Drop, Quotient;
  }

  lemma Quotients(n: nat)
    requires n < RANGE
    ensures var first, second := n / 0x100_0000, n / 0x1_0000 % 256;
      && n / 0x1_0000 == first * 256 + second && first <= 255 && second <= 255
      && n / 0x2000_0000 == first / 32 && n / 0x10_0000 == first * 16 + second / 16
      && n / 0x40_0000 == first * 4 + second / 64 && n / 0x2_0000 == first * 128 + second / 2
  {
    var p := n / 0x1_0000;
    assert p / 256 == n / 0x100_0000;
    assert p == p / 256 * 256 + p % 256;
    assert n / 0x10_0000 == p / 16 && n / 0x40_0000 == p / 64 && n / 0x2_0000 == p / 2;
  }

  /** Membership of each range in terms of the first two octets. */
  predicate ByOctets(first: nat, second: nat, r: Range) {
    match r
    case ThisNetwork => first == 0
    case Private10 => first == 10
    case Loopback => first == 127
    case MulticastAndAbove => first >= 224
    case LinkLocal => first == 169 && second == 254
    case Private172 => first == 172 && 16 <= second <= 31
    case Private192 => first == 192 && second == 168
    case Shared => first == 100 && 64 <= second <= 127
    case Benchmarking => first == 198 && second in [18, 19]
  }

  lemma RangeByOctets(n: nat, r: Range)
    requires n < RANGE
    ensures InRange(n, r) <==> ByOctets(n / 0x100_0000, n / 0x1_0000 % 256, r)
  {
    RangeByQuotient(n, r);
    hide InRange;
    Quotients(n);
    BaseQuotients(r);
    QuotientByOctets(n / 0x100_0000, n / 0x1_0000 % 256, n, r);
  }

  /** The quotient each range demands. */
  function Wanted(r: Range): nat {
    match r
    case ThisNetwork => 0
    case Private10 => 10
    case Loopback => 127
    case MulticastAndAbove => 7
    case LinkLocal => 169 * 256 + 254
    case Private172 => 172 * 16 + 1
    case Private192 => 192 * 256 + 168
    case Shared => 100 * 4 + 1
    case Benchmarking => 198 * 128 + 9
  }

  lemma BaseQuotients(r: Range)
    ensures Quotient(BlockOf(r).base, r) == Wanted(r)
  {
  }

  lemma QuotientByOctets(first: nat, second: nat, n: nat, r: Range)
    requires first <= 255 && second <= 255
    requires n / 0x100_0000 == first && n / 0x1_0000 == first * 256 + second
    requires n / 0x2000_0000 == first / 32 && n / 0x10_0000 == first * 16 + second / 16
    requires n / 0x40_0000 == first * 4 + second / 64 && n / 0x2_0000 == first * 128 + second / 2
    ensures Quotient(n, r) == Wanted(r) <==> ByOctets(first, second, r)
  {
  }

  /** An address is public exactly when it is a dotted quad outside every range. */
  lemma PublicMeansOutsideRanges(value: string)
    ensures PublicIpv4(value) <==>
            Ipv4Number(value).Some? && forall r :: !InRange(Ipv4Number(value).value, r)
  {
    hide Ipv4Number, Within, InRange, Quad;
    if Ipv4Number(value).Some? {
      var n := Ipv4Number(value).value;
      QuadOfNumber(value);
      forall r ensures InRange(n, r) <==> ByOctets(n / 0x100_0000, n / 0x1_0000 % 256, r) {
        RangeByOctets(n, r);
      }
      assert PublicIpv4(value) <==> forall r :: !ByOctets(n / 0x100_0000, n / 0x1_0000 % 256, r) by {
        NoRange(n / 0x100_0000, n / 0x1_0000 % 256);
      }
    }
  }

  lemma NoRange(first: nat, second: nat)
    ensures (forall r :: !ByOctets(first, second, r)) <==>
            !(first == 0 || first == 10 || first == 127 || first >= 224
              || (first == 169 && second == 254)
              || (first == 172 && 16 <= second <= 31)
              || (first == 192 && second == 168)
              || (first == 100 && 64 <= second <= 127)
              || (first == 198 && second in [18, 19]))
  {
    assert ByOctets(first, second, ThisNetwork) <==> first == 0;
    assert ByOctets(first, second, Private10) <==> first == 10;
    assert ByOctets(first, second, Loopback) <==> first == 127;
    assert ByOctets(first, second, MulticastAndAbove) <==> first >= 224;
    assert ByOctets(first, second, LinkLocal) <==> first == 169 && second == 254;
    assert ByOctets(first, second, Private172) <==> first == 172 && 16 <= second <= 31;
    assert ByOctets(first, second, Private192) <==> first == 192 && second == 168;
    assert ByOctets(first, second, Shared) <==> first == 100 && 64 <= second <= 127;
    assert ByOctets(first, second, Benchmarking) <==> first == 198 && second in [18, 19];
  }
}
