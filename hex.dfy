/** Upper-case hexadecimal formatting for logs (gateway/internal/utils/hex.go). */
module HexFormat {
  import opened LittleEndian

  const HexDigits: string := "0123456789ABCDEF"

  /** The value of an upper-case hex digit (the inverse of indexing HexDigits). */
  function DigitValue(c: char): (d: nat)
    ensures d < 16
    ensures c in HexDigits ==> HexDigits[d] == c
  {
    if '0' <= c <= '9' then c as nat - '0' as nat
    else if 'A' <= c <= 'F' then c as nat - 'A' as nat + 10
    else 0
  }

  /** Hex4: four digits, most significant nibble first. */
  function Hex4(v: u16): (s: string)
    ensures |s| == 4
    ensures forall k :: 0 <= k < 4 ==> s[k] in HexDigits
  {
    [HexDigits[v / 0x1000 % 16], HexDigits[v / 0x100 % 16], HexDigits[v / 0x10 % 16], HexDigits[v % 16]]
  }

  /** Indexing HexDigits and DigitValue are inverse on 0..15. */
  lemma DigitRoundTrip(k: int)
    requires 0 <= k < 16
    ensures DigitValue(HexDigits[k]) == k
  {
  }

  /** Dividing by 16 and then by 16 again is dividing by 256, and once more by 4096. */
  lemma DivSixteenTwice(x: nat)
    ensures x / 16 / 16 == x / 256
    ensures x / 256 / 16 == x / 4096
  {
    var a := x / 16;
    var b := a / 16;
    assert x == 16 * a + x % 16;
    assert a == 16 * b + a % 16;
    assert 256 * b <= x < 256 * b + 256;
    var c := b / 16;
    assert b == 16 * c + b % 16;
    assert 4096 * c <= x < 4096 * c + 4096;
  }

  /** Four base-16 digits of a value below 0x10000 recompose it. */
  lemma BaseSixteenFour(v: nat)
    requires v < 0x1_0000
    ensures 4096 * (v / 0x1000 % 16) + 256 * (v / 0x100 % 16) + 16 * (v / 0x10 % 16) + v % 16 == v
  {
    DivSixteenTwice(v);
    var q3, q2, q1 := v / 16, v / 256, v / 4096;
    assert q2 == q3 / 16 && q1 == q2 / 16;
    assert v == v % 16 + 16 * q3;
    assert q3 == q3 % 16 + 16 * q2;
    assert q2 == q2 % 16 + 16 * q1;
    assert q1 < 16 && q1 % 16 == q1;
  }

  /** Reading the four digits back as base-16 gives the original value. */
  lemma Hex4Value(v: u16)
    ensures var s := Hex4(v);
      4096 * DigitValue(s[0]) + 256 * DigitValue(s[1]) + 16 * DigitValue(s[2]) + DigitValue(s[3]) == v
  {
    DigitRoundTrip(v / 0x1000 % 16);
    DigitRoundTrip(v / 0x100 % 16);
    DigitRoundTrip(v / 0x10 % 16);
    DigitRoundTrip(v % 16);
    BaseSixteenFour(v);
  }

  /** The two digits of one byte: high nibble, then low nibble. */
  function ByteHex(x: byte): (s: string)
    ensures |s| == 2
  {
    [HexDigits[x / 16], HexDigits[x % 16]]
  }

  /** The two digits read back as base-16 give the byte. */
  lemma ByteHexValue(x: byte)
    ensures 16 * DigitValue(ByteHex(x)[0]) + DigitValue(ByteHex(x)[1]) == x
  {
    DigitRoundTrip(x / 16);
    DigitRoundTrip(x % 16);
  }

  /** The hex text of a byte string, two digits per byte. */
  function HexOfBytes(b: seq<byte>): (s: string)
  {
    if b == [] then [] else ByteHex(b[0]) + HexOfBytes(b[1..])
  }

  /** BytesToHex: appends two digits per byte to `out`. */
  method BytesToHex(b: seq<byte>) returns (out: string)
    ensures out == HexOfBytes(b)
  {
    out := [];
    var i := 0;
    while i < |b|
      invariant 0 <= i <= |b|
      invariant out + HexOfBytes(b[i..]) == HexOfBytes(b)
    {
      assert b[i..][1..] == b[i + 1..];
      assert HexOfBytes(b[i..]) == ByteHex(b[i]) + HexOfBytes(b[i + 1..]);
      out := out + [HexDigits[b[i] / 16], HexDigits[b[i] % 16]];
      i := i + 1;
    }
  }

  /** The output has two characters per byte. */
  lemma {:induction false} HexOfBytesLength(b: seq<byte>)
    ensures |HexOfBytes(b)| == 2 * |b|
  {
    if b != [] {
      HexOfBytesLength(b[1..]);
    }
  }

  /** Characters 2i and 2i+1 are the high and low nibble of b[i]. */
  lemma {:induction false} HexOfBytesAt(b: seq<byte>, i: nat)
    requires i < |b|
    ensures |HexOfBytes(b)| == 2 * |b|
    ensures HexOfBytes(b)[2 * i] == HexDigits[b[i] / 16]
    ensures HexOfBytes(b)[2 * i + 1] == HexDigits[b[i] % 16]
  {
    HexOfBytesLength(b);
    HexOfBytesLength(b[1..]);
    var head, rest := ByteHex(b[0]), HexOfBytes(b[1..]);
    var all := HexOfBytes(b);
    assert all == head + rest;
    if i == 0 {
      assert all[0] == head[0] == HexDigits[b[0] / 16];
      assert all[1] == head[1] == HexDigits[b[0] % 16];
    } else {
      HexOfBytesAt(b[1..], i - 1);
      assert b[1..][i - 1] == b[i];
      assert all[2 * i] == rest[2 * (i - 1)];
      assert all[2 * i + 1] == rest[2 * (i - 1) + 1];
    }
  }

  /** Formatting distributes over concatenation. */
  lemma {:induction false} HexOfBytesAppend(a: seq<byte>, b: seq<byte>)
    ensures HexOfBytes(a + b) == HexOfBytes(a) + HexOfBytes(b)
  {
    if a == [] {
      assert a + b == b;
    } else {
      assert (a + b)[1..] == a[1..] + b;
      HexOfBytesAppend(a[1..], b);
    }
  }

  /** Formatting is injective: the hex text determines the bytes. */
  lemma {:induction false} HexOfBytesInjective(a: seq<byte>, b: seq<byte>)
    requires HexOfBytes(a) == HexOfBytes(b)
    ensures a == b
  {
    HexOfBytesLength(a);
    HexOfBytesLength(b);
    if a != [] {
      var ha, hb := HexOfBytes(a), HexOfBytes(b);
      assert ha[0] == hb[0] && ha[1] == hb[1];
      ByteHexValue(a[0]);
      ByteHexValue(b[0]);
      assert a[0] == b[0];
      assert HexOfBytes(a[1..]) == ha[2..] == hb[2..] == HexOfBytes(b[1..]);
      HexOfBytesInjective(a[1..], b[1..]);
    }
  }
}
