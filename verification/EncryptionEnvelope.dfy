/** The envelope around encrypted fields: initialisation vector, tag and
    ciphertext, each in base64, joined by colons. The cipher and the text encoding
    are abstract inverse pairs. */
module EncryptionEnvelope {
  import opened Prelude
  import opened Base64

  const IV_LENGTH: nat := 12
  const AUTH_TAG_LENGTH: nat := 16

  type Bytes = seq<byte>

  /** seal(key, iv, plaintext) is ciphertext and tag; unseal gives None when the tag
      does not authenticate. utf8 and text convert between strings and bytes. */
  datatype Suite = Suite(
    seal: (Bytes, Bytes, Bytes) -> (Bytes, Bytes),
    unseal: (Bytes, Bytes, Bytes, Bytes) -> Option<Bytes>,
    utf8: string -> Bytes,
    text: Bytes -> string)

  ghost predicate Sound(suite: Suite) {
    && (forall key: Bytes, iv: Bytes, p: Bytes | |iv| == IV_LENGTH ::
          |suite.seal(key, iv, p).1| == AUTH_TAG_LENGTH
          && suite.unseal(key, iv, suite.seal(key, iv, p).1, suite.seal(key, iv, p).0) == Some(p))
    && (forall s: string :: suite.text(suite.utf8(s)) == s)
  }

  datatype Decrypted = Plain(text: string) | BadFormat | BadTag

  // ----- joining and splitting at colons -----

  function Join(parts: seq<string>): string
    requires parts != []
  {
    if |parts| == 1 then parts[0] else parts[0] + ":" + Join(parts[1..])
  }

  /** JavaScript's split(':'): one part more than there are colons. */
  function Split(s: string): (parts: seq<string>)
    ensures parts != []
  {
    if s == "" then [""]
    else if s[0] == ':' then [""] + Split(s[1..])
    else
      var rest := Split(s[1..]);
      [[s[0]] + rest[0]] + rest[1..]
  }

  function Colons(s: string): nat {
    if s == "" then 0 else Colons(s[1..]) + One(s[0] == ':')
  }

  lemma {:induction false} SplitCount(s: string)
    ensures |Split(s)| == Colons(s) + 1
  {
    if s != "" {
      SplitCount(s[1..]);
    }
  }

  lemma {:induction false} SplitPrefix(part: string, s: string)
    requires ':' !in part
    ensures Split(part + s) == [part + Split(s)[0]] + Split(s)[1..]
    decreases |part|
  {
    if part == "" {
      var first := Split(s)[0];
      assert part + s == s && part + first == first;
      assert [first] + Split(s)[1..] == Split(s);
    } else {
      assert (part + s)[1..] == part[1..] + s;
      SplitPrefix(part[1..], s);
      assert [part[0]] + (part[1..] + Split(s)[0]) == part + Split(s)[0];
    }
  }

  /** Parts without colons come back exactly. */
  lemma {:induction false} SplitJoin(parts: seq<string>)
    requires parts != [] && forall i :: 0 <= i < |parts| ==> ':' !in parts[i]
    ensures Split(Join(parts)) == parts
    decreases |parts|
  {
    if |parts| == 1 {
      SplitPrefix(parts[0], "");
      assert parts[0] + "" == parts[0];
    } else {
      SplitJoin(parts[1..]);
      var rest := ":" + Join(parts[1..]);
      assert rest[1..] == Join(parts[1..]);
      SplitPrefix(parts[0], rest);
      assert parts[0] + ":" + Join(parts[1..]) == parts[0] + rest;
      assert parts[0] + "" == parts[0];
    }
  }

  // ----- encrypt and decrypt -----

  function Encrypt(suite: Suite, key: Bytes, iv: Bytes, plaintext: string): string {
    var (ciphertext, tag) := suite.seal(key, iv, suite.utf8(plaintext));
    Join([Encode(iv), Encode(tag), Encode(ciphertext)])
  }

  function Decrypt(suite: Suite, key: Bytes, data: string): Decrypted {
    var parts := Split(data);
    if |parts| != 3 then BadFormat
    else
      var plain := suite.unseal(key, Decode(parts[0]), Decode(parts[1]), Decode(parts[2]));
      if plain.Some? then Plain(suite.text(plain.value)) else BadTag
  }

  /** An envelope splits back into exactly the three parts it was made of. */
  lemma EnvelopeSplits(iv: Bytes, tag: Bytes, ciphertext: Bytes)
    ensures Split(Join([Encode(iv), Encode(tag), Encode(ciphertext)])) == [Encode(iv), Encode(tag), Encode(ciphertext)]
  {
    EncodeShape(iv);
    EncodeShape(tag);
    EncodeShape(ciphertext);
    SplitJoin([Encode(iv), Encode(tag), Encode(ciphertext)]);
  }

  /** The envelope, written out. */
  lemma EnvelopeLayout(suite: Suite, key: Bytes, iv: Bytes, plaintext: string)
    ensures var (ciphertext, tag) := suite.seal(key, iv, suite.utf8(plaintext));
            Encrypt(suite, key, iv, plaintext) == Encode(iv) + ":" + Encode(tag) + ":" + Encode(ciphertext)
  {
    var (ciphertext, tag) := suite.seal(key, iv, suite.utf8(plaintext));
    JoinThree(Encode(iv), Encode(tag), Encode(ciphertext));
  }

  /** And how one is read: the parts stand for initialisation vector, tag and
      ciphertext in this order. */
  lemma EnvelopeReads(suite: Suite, key: Bytes, a: string, b: string, c: string)
    requires ':' !in a && ':' !in b && ':' !in c
    ensures var plain := suite.unseal(key, Decode(a), Decode(b), Decode(c));
            && (plain.Some? ==> Decrypt(suite, key, a + ":" + b + ":" + c) == Plain(suite.text(plain.value)))
            && (plain.None? ==> Decrypt(suite, key, a + ":" + b + ":" + c) == BadTag)
  {
    JoinThree(a, b, c);
    SplitJoin([a, b, c]);
  }

  /** decrypt undoes encrypt for every text, the empty one included. */
  lemma DecryptEncrypt(suite: Suite, key: Bytes, iv: Bytes, plaintext: string)
    requires Sound(suite) && |iv| == IV_LENGTH
    ensures Decrypt(suite, key, Encrypt(suite, key, iv, plaintext)) == Plain(plaintext)
  {
    var (ciphertext, tag) := suite.seal(key, iv, suite.utf8(plaintext));
    EnvelopeSplits(iv, tag, ciphertext);
    DecodeEncode(iv);
    DecodeEncode(tag);
    DecodeEncode(ciphertext);
  }

  /** A text is refused as malformed exactly if it has not two colons. */
  lemma BadFormatIff(suite: Suite, key: Bytes, data: string)
    ensures Decrypt(suite, key, data) == BadFormat <==> Colons(data) != 2
  {
    SplitCount(data);
  }

  // ----- fields that may hold legacy plain text -----

  predicate IsEncrypted(value: string) {
    var parts := Split(value);
    |parts| == 3 && |Decode(parts[0])| == IV_LENGTH && |Decode(parts[1])| == AUTH_TAG_LENGTH
  }

  function EncryptIfPresent(suite: Suite, key: Bytes, iv: Bytes, value: Option<string>): Option<string> {
    if value.None? || value.value == "" then value
    else Some(Encrypt(suite, key, iv, value.value))
  }

  function DecryptIfEncrypted(suite: Suite, key: Bytes, value: Option<string>): Option<string> {
    if value.None? || !IsEncrypted(value.value) then value
    else
      var result := Decrypt(suite, key, value.value);
      if result.Plain? then Some(result.text) else value
  }

  lemma EnvelopeIsEncrypted(suite: Suite, key: Bytes, iv: Bytes, plaintext: string)
    requires Sound(suite) && |iv| == IV_LENGTH
    ensures IsEncrypted(Encrypt(suite, key, iv, plaintext))
  {
    var (ciphertext, tag) := suite.seal(key, iv, suite.utf8(plaintext));
    EnvelopeSplits(iv, tag, ciphertext);
    DecodeEncode(iv);
    DecodeEncode(tag);
  }

  /** Every field value, absent and empty ones included, reads back as written. */
  lemma FieldRoundTrip(suite: Suite, key: Bytes, iv: Bytes, value: Option<string>)
    requires Sound(suite) && |iv| == IV_LENGTH
    ensures DecryptIfEncrypted(suite, key, EncryptIfPresent(suite, key, iv, value)) == value
  {
    if value.Some? && value.value != "" {
      EnvelopeIsEncrypted(suite, key, iv, value.value);
      DecryptEncrypt(suite, key, iv, value.value);
    }
  }

  lemma {:induction false} DecodedLength(ds: seq<sextet>)
    ensures |FromSextets(ds)| == 3 * |ds| / 4
    decreases |ds|
  {
    if |ds| >= 4 {
      DecodedLength(ds[4..]);
    }
  }

  /** What a plain text must look like to be taken for an envelope: two colons, 16
      or 17 base64 letters before the first and 22 between them, not counting other
      characters nor what follows a padding sign. Ordinary text can. */
  lemma IsEncryptedIff(value: string)
    ensures IsEncrypted(value) <==>
              Colons(value) == 2 && |Split(value)| == 3
              && |Sextets(Split(value)[0])| in {16, 17}
              && |Sextets(Split(value)[1])| == 22
  {
    SplitCount(value);
    if |Split(value)| == 3 {
      DecodedLength(Sextets(Split(value)[0]));
      DecodedLength(Sextets(Split(value)[1]));
    }
  }

  /** How a stored field reads: as it is, whatever the key, unless it has the shape above
      and its tag authenticates under the key; then as the text inside. */
  lemma FieldReads(suite: Suite, key: Bytes, a: string, b: string, c: string)
    requires ':' !in a && ':' !in b && ':' !in c
    ensures var stored := a + ":" + b + ":" + c;
            var plain := suite.unseal(key, Decode(a), Decode(b), Decode(c));
            DecryptIfEncrypted(suite, key, Some(stored))
            == if plain.Some? && |Sextets(a)| in {16, 17} && |Sextets(b)| == 22 then Some(suite.text(plain.value))
               else Some(stored)
  {
    JoinThree(a, b, c);
    SplitJoin([a, b, c]);
    SplitCount(a + ":" + b + ":" + c);
    IsEncryptedIff(a + ":" + b + ":" + c);
    EnvelopeReads(suite, key, a, b, c);
  }

  lemma {:induction false} OneSextetPerLetter(word: string)
    requires IsWord(word)
    ensures |Sextets(word)| == |word|
  {
    if word != [] {
      OneSextetPerLetter(word[1..]);
    }
  }

  predicate IsWord(s: string) {
    forall i :: 0 <= i < |s| ==> 'a' <= s[i] <= 'z'
  }

  lemma JoinThree(a: string, b: string, c: string)
    ensures Join([a, b, c]) == a + ":" + b + ":" + c
  {
    assert [a, b, c][1..] == [b, c] && [b, c][1..] == [c];
    assert Join([c]) == c;
    assert Join([b, c]) == b + ":" + c;
  }

  /** Such texts: a word of 16 letters, one of 22, and anything without a colon, as
      in "internationalize:electroencephalographs:yes". */
  lemma WordsTakenForEnvelope(a: string, b: string, rest: string)
    requires IsWord(a) && |a| == 16 && IsWord(b) && |b| == 22 && ':' !in rest
    ensures IsEncrypted(a + ":" + b + ":" + rest)
  {
    JoinThree(a, b, rest);
    SplitJoin([a, b, rest]);
    OneSextetPerLetter(a);
    OneSextetPerLetter(b);
    SplitCount(a + ":" + b + ":" + rest);
    IsEncryptedIff(a + ":" + b + ":" + rest);
  }
}
