/** Base64 with padding, section 4 of RFC 4648, over bytes. */
module Base64 {
  import opened Prelude

  newtype byte = x: int | 0 <= x < 256

  newtype sextet = x: int | 0 <= x < 64

  predicate InAlphabet(c: char) {
    'A' <= c <= 'Z' || 'a' <= c <= 'z' || '0' <= c <= '9' || c == '+' || c == '/'
  }

  function Letter(d: sextet): char {
    var n := d as int;
    if n < 26 then 'A' + n as char
    else if n < 52 then 'a' + (n - 26) as char
    else if n < 62 then '0' + (n - 52) as char
    else if n == 62 then '+' else '/'
  }

  /** The runtime's decoder also takes the URL-safe alphabet. */
  function Value(c: char): Option<sextet> {
    if 'A' <= c <= 'Z' then Some((c - 'A') as int as sextet)
    else if 'a' <= c <= 'z' then Some(((c - 'a') as int + 26) as sextet)
    else if '0' <= c <= '9' then Some(((c - '0') as int + 52) as sextet)
    else if c == '+' || c == '-' then Some(62)
    else if c == '/' || c == '_' then Some(63)
    else None
  }

  // One group: bytes a, b, c as sextets and back.

  function Sextet0(a: byte): sextet { (a as int / 4) as sextet }

  function Sextet1(a: byte, b: byte): sextet { (a as int % 4 * 16 + b as int / 16) as sextet }

  function Sextet2(b: byte, c: byte): sextet { (b as int % 16 * 4 + c as int / 64) as sextet }

  function Sextet3(c: byte): sextet { (c as int % 64) as sextet }

  function Byte0(p: sextet, q: sextet): byte { (p as int * 4 + q as int / 16) as byte }

  function Byte1(q: sextet, r: sextet): byte { (q as int % 16 * 16 + r as int / 4) as byte }

  function Byte2(r: sextet, t: sextet): byte { (r as int % 4 * 64 + t as int) as byte }

  /** Three bytes are four sextets; a final one or two bytes are two or three. */
  function ToSextets(bytes: seq<byte>): (ds: seq<sextet>)
    ensures |ds| == (4 * |bytes| + 2) / 3
  {
    if |bytes| == 0 then []
    else if |bytes| == 1 then [Sextet0(bytes[0]), Sextet1(bytes[0], 0)]
    else if |bytes| == 2 then [Sextet0(bytes[0]), Sextet1(bytes[0], bytes[1]), Sextet2(bytes[1], 0)]
    else
      [Sextet0(bytes[0]), Sextet1(bytes[0], bytes[1]), Sextet2(bytes[1], bytes[2]), Sextet3(bytes[2])]
      + ToSextets(bytes[3..])
  }

  function FromSextets(ds: seq<sextet>): seq<byte> {
    if |ds| < 2 then []
    else if |ds| == 2 then [Byte0(ds[0], ds[1])]
    else if |ds| == 3 then [Byte0(ds[0], ds[1]), Byte1(ds[1], ds[2])]
    else [Byte0(ds[0], ds[1]), Byte1(ds[1], ds[2]), Byte2(ds[2], ds[3])] + FromSextets(ds[4..])
  }

  function Letters(ds: seq<sextet>): (s: string)
    ensures |s| == |ds|
    ensures forall i :: 0 <= i < |s| ==> s[i] == Letter(ds[i])
  {
    seq(|ds|, i requires 0 <= i < |ds| => Letter(ds[i]))
  }

  function Padding(n: nat): string {
    if n % 3 == 1 then "==" else if n % 3 == 2 then "=" else ""
  }

  function Encode(bytes: seq<byte>): string {
    Letters(ToSextets(bytes)) + Padding(|bytes|)
  }

  /** The sextets of the letters in a text up to the first padding sign; anything
      else before it is passed over. */
  function Sextets(s: string): seq<sextet> {
    if s == [] || s[0] == '=' then []
    else
      var rest := Sextets(s[1..]);
      var v := Value(s[0]);
      if v.Some? then [v.value] + rest else rest
  }

  function Decode(s: string): seq<byte> {
    FromSextets(Sextets(s))
  }

  lemma ValueOfLetter(d: sextet)
    ensures Value(Letter(d)) == Some(d) && Letter(d) != '='
  {
  }

  lemma {:induction false} SextetsOfLetters(ds: seq<sextet>, padding: string)
    requires padding != [] ==> padding[0] == '='
    ensures Sextets(Letters(ds) + padding) == ds
    decreases |ds|
  {
    var s := Letters(ds) + padding;
    if ds != [] {
      ValueOfLetter(ds[0]);
      assert s[1..] == Letters(ds[1..]) + padding;
      SextetsOfLetters(ds[1..], padding);
    } else {
      assert s == padding;
    }
  }

  /** The sextets of one group give its bytes back. */
  lemma GroupRoundTrip(a: byte, b: byte, c: byte)
    ensures Byte0(Sextet0(a), Sextet1(a, b)) == a
    ensures Byte1(Sextet1(a, b), Sextet2(b, c)) == b
    ensures Byte2(Sextet2(b, c), Sextet3(c)) == c
  {
    var x, y, z := a as int, b as int, c as int;
    assert (x % 4 * 16 + y / 16) / 16 == x % 4 && (x % 4 * 16 + y / 16) % 16 == y / 16;
    assert (y % 16 * 4 + z / 64) / 4 == y % 16 && (y % 16 * 4 + z / 64) % 4 == z / 64;
  }

  lemma {:induction false} BytesOfSextets(bytes: seq<byte>)
    ensures FromSextets(ToSextets(bytes)) == bytes
    decreases |bytes|
  {
    hide Sextet0, Sextet1, Sextet2, Sextet3, Byte0, Byte1, Byte2;
    if |bytes| >= 3 {
      GroupRoundTrip(bytes[0], bytes[1], bytes[2]);
      BytesOfSextets(bytes[3..]);
      assert ToSextets(bytes)[4..] == ToSextets(bytes[3..]);
      assert bytes == [bytes[0], bytes[1], bytes[2]] + bytes[3..];
    } else if |bytes| == 2 {
      GroupRoundTrip(bytes[0], bytes[1], 0);
    } else if |bytes| == 1 {
      GroupRoundTrip(bytes[0], 0, 0);
    }
  }

  /** Decoding undoes encoding, for every byte string; so encodings are distinct. */
  lemma DecodeEncode(bytes: seq<byte>)
    ensures Decode(Encode(bytes)) == bytes
  {
    SextetsOfLetters(ToSextets(bytes), Padding(|bytes|));
    BytesOfSextets(bytes);
  }

  /** Every encoding is a whole number of four-character groups, over the alphabet
      and the padding sign. */
  lemma EncodeShape(bytes: seq<byte>)
    ensures |Encode(bytes)| == (|bytes| + 2) / 3 * 4
    ensures forall i :: 0 <= i < |Encode(bytes)| ==> InAlphabet(Encode(bytes)[i]) || Encode(bytes)[i] == '='
  {
    var s := Encode(bytes);
    forall i | 0 <= i < |s|
      ensures InAlphabet(s[i]) || s[i] == '='
    {
      if i < |ToSextets(bytes)| {
        assert s[i] == Letter(ToSextets(bytes)[i]);
      }
    }
  }

  // ----- the encoding of RFC 4648, position by position -----

  const CAPITALS := "ABCDEFGHIJKLMNOPQRSTUVWXYZ"
  const SMALL := "abcdefghijklmnopqrstuvwxyz"
  const ALPHABET: string := CAPITALS + SMALL + "0123456789+/"

  /** Table 1 of the RFC. */
  lemma LetterTable(d: sextet)
    ensures |ALPHABET| == 64 && Letter(d) == ALPHABET[d as int]
  {
    if d < 26 {
      CapitalsInOrder(d as int);
    } else if d < 52 {
      SmallInOrder(d as int - 26);
    }
  }

  /** What the decoder takes each character for: Table 1 and Table 2 at once. */
  lemma ValueTable(c: char, d: sextet)
    ensures |ALPHABET| == 64
    ensures Value(c) == Some(d)
            <==> c == ALPHABET[d as int] || (d as int == 62 && c == '-') || (d as int == 63 && c == '_')
  {
    LetterTable(d);
    hide ALPHABET, CAPITALS, SMALL;
    ValueOfLetter(d);
  }

  lemma CapitalsInOrder(n: nat)
    requires n < 26
    ensures CAPITALS[n] == 'A' + n as char
  {
  }

  lemma SmallInOrder(n: nat)
    requires n < 26
    ensures SMALL[n] == 'a' + n as char
  {
  }

  /** The bytes, followed by zeros. */
  function ByteAt(bytes: seq<byte>, i: nat): int {
    if i < |bytes| then bytes[i] as int else 0
  }

  /** Group g of three bytes as a number of 24 bits. */
  function Group(bytes: seq<byte>, g: nat): int {
    65536 * ByteAt(bytes, 3 * g) + 256 * ByteAt(bytes, 3 * g + 1) + ByteAt(bytes, 3 * g + 2)
  }

  /** The j-th six bits of such a number. */
  function SixBits(group: int, j: nat): int
    requires j < 4
  {
    group / [262144, 4096, 64, 1][j] % 64
  }

  lemma SextetsOfGroup(a: byte, b: byte, c: byte)
    ensures var n := 65536 * a as int + 256 * b as int + c as int;
            && Sextet0(a) as int == SixBits(n, 0) && Sextet1(a, b) as int == SixBits(n, 1)
            && Sextet2(b, c) as int == SixBits(n, 2) && Sextet3(c) as int == SixBits(n, 3)
  {
    var x, y, z := a as int, b as int, c as int;
    FourSixBits(x / 4, x % 4 * 16 + y / 16, y % 16 * 4 + z / 64, z % 64);
    hide SixBits;
    assert 65536 * x + 256 * y + z
           == 262144 * (x / 4) + 4096 * (x % 4 * 16 + y / 16) + 64 * (y % 16 * 4 + z / 64) + z % 64;
  }

  lemma FourSixBits(p: int, q: int, r: int, t: int)
    requires 0 <= p < 64 && 0 <= q < 64 && 0 <= r < 64 && 0 <= t < 64
    ensures var n := 262144 * p + 4096 * q + 64 * r + t;
            SixBits(n, 0) == p && SixBits(n, 1) == q && SixBits(n, 2) == r && SixBits(n, 3) == t
  {
    var n := 262144 * p + 4096 * q + 64 * r + t;
    assert n / 262144 == p;
    assert n / 4096 == 64 * p + q;
    assert n / 64 == 4096 * p + 64 * q + r;
  }

  lemma {:induction false} SextetAt(bytes: seq<byte>, i: nat)
    requires i < |ToSextets(bytes)|
    ensures ToSextets(bytes)[i] as int == SixBits(Group(bytes, i / 4), i % 4)
    decreases |bytes|
  {
    hide Sextet0, Sextet1, Sextet2, Sextet3, SixBits;
    if i < 4 {
      SextetsOfGroup(bytes[0], if |bytes| > 1 then bytes[1] else 0, if |bytes| > 2 then bytes[2] else 0);
    } else {
      SextetAt(bytes[3..], i - 4);
      assert (i - 4) / 4 == i / 4 - 1 && (i - 4) % 4 == i % 4;
      var g := i / 4;
      assert Group(bytes[3..], g - 1) == Group(bytes, g);
    }
  }

  /** Every character of an encoding: six bits of its group of three bytes, the last
      group filled up with zeros, and padding signs where a whole character has no
      bits of the input. */
  lemma EncodeIsBase64(bytes: seq<byte>, i: nat)
    requires i < |Encode(bytes)|
    ensures 0 <= SixBits(Group(bytes, i / 4), i % 4) < 64 == |ALPHABET|
    ensures Encode(bytes)[i]
            == if 6 * i < 8 * |bytes| then ALPHABET[SixBits(Group(bytes, i / 4), i % 4)] else '='
  {
    hide SixBits, Letter;
    SixBitsRange(Group(bytes, i / 4), i % 4);
    if i < |ToSextets(bytes)| {
      SextetAt(bytes, i);
      LetterTable(ToSextets(bytes)[i]);
    }
  }

  lemma SixBitsRange(group: int, j: nat)
    requires j < 4
    ensures 0 <= SixBits(group, j) < 64
  {
  }
}
