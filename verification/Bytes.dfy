/** Big-endian numbers, as Python's `struct` packs and unpacks them. */
module Bytes {
  newtype byte = x: int | 0 <= x < 256

  /** `struct` format `>I` */
  function BigEndian(n: nat): (bytes: seq<byte>)
    requires n < 0x1_0000_0000
    ensures |bytes| == 4
  {
    [(n / 0x100_0000) as byte, (n / 0x1_0000 % 0x100) as byte, (n / 0x100 % 0x100) as byte, (n % 0x100) as byte]
  }

  function FromBigEndian(bytes: seq<byte>): nat
    requires |bytes| == 4
  {
    Digits(bytes[0] as nat, bytes[1] as nat, bytes[2] as nat, bytes[3] as nat)
  }

  function Digits(a: nat, b: nat, c: nat, d: nat): nat {
    ((a * 0x100 + b) * 0x100 + c) * 0x100 + d
  }

  lemma LastDigit(q: nat, d: nat)
    requires d < 0x100
    ensures (q * 0x100 + d) / 0x100 == q && (q * 0x100 + d) % 0x100 == d
  {
  }

  lemma Shift(n: nat)
    ensures n / 0x1_0000 == n / 0x100 / 0x100 && n / 0x100_0000 == n / 0x100 / 0x100 / 0x100
  {
  }

  lemma BigEndianRoundTrip(n: nat)
    requires n < 0x1_0000_0000
    ensures FromBigEndian(BigEndian(n)) == n
  {
    var q := n / 0x100;
    var r := q / 0x100;
    Shift(n);
    assert n == q * 0x100 + n % 0x100 && q == r * 0x100 + q % 0x100 && r == r / 0x100 * 0x100 + r % 0x100;
  }

  lemma DigitsUnique(a: nat, b: nat, c: nat, d: nat)
    requires a < 0x100 && b < 0x100 && c < 0x100 && d < 0x100
    ensures var n := Digits(a, b, c, d);
      && n < 0x1_0000_0000 && n % 0x100 == d && n / 0x100 % 0x100 == c && n / 0x1_0000 % 0x100 == b && n / 0x100_0000 == a
  {
    var n := Digits(a, b, c, d);
    Shift(n);
    LastDigit((a * 0x100 + b) * 0x100 + c, d);
    LastDigit(a * 0x100 + b, c);
    LastDigit(a, b);
  }

  lemma BigEndianUnique(bytes: seq<byte>)
    requires |bytes| == 4
    ensures FromBigEndian(bytes) < 0x1_0000_0000 && BigEndian(FromBigEndian(bytes)) == bytes
  {
    hide Digits;
    DigitsUnique(bytes[0] as nat, bytes[1] as nat, bytes[2] as nat, bytes[3] as nat);
  }

  /** `struct` format `>Q` */
  function BigEndian8(n: nat): (bytes: seq<byte>)
    requires n < 0x1_0000_0000_0000_0000
    ensures |bytes| == 8
  {
    BigEndian(n / 0x1_0000_0000) + BigEndian(n % 0x1_0000_0000)
  }

  function FromBigEndian8(bytes: seq<byte>): nat
    requires |bytes| == 8
  {
    FromBigEndian(bytes[..4]) * 0x1_0000_0000 + FromBigEndian(bytes[4..])
  }

  lemma BigEndian8RoundTrip(n: nat)
    requires n < 0x1_0000_0000_0000_0000
    ensures FromBigEndian8(BigEndian8(n)) == n
  {
    hide BigEndian, FromBigEndian;
    BigEndianRoundTrip(n / 0x1_0000_0000);
    BigEndianRoundTrip(n % 0x1_0000_0000);
    assert BigEndian8(n)[..4] == BigEndian(n / 0x1_0000_0000);
    assert BigEndian8(n)[4..] == BigEndian(n % 0x1_0000_0000);
  }
}
