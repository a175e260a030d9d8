/** Public identifiers: a resource prefix, an underscore, and a base62 Feistel block. */
module PublicId {
  import opened MachineInt
  import opened Wrappers
  import opened Feistel
  import opened Base62
  import opened Word64

  datatype IdError = InvalidFormat | InvalidPrefix | DecodingFailed

  /** The position of the first underscore, or the length when there is none. */
  function FirstUnderscore(s: string): (k: nat)
    ensures k <= |s| && '_' !in s[..k]
    ensures k < |s| ==> s[k] == '_'
  {
    if s == "" || s[0] == '_' then 0
    else
      var k := FirstUnderscore(s[1..]);
      assert s[..k + 1] == [s[0]] + s[1..][..k];
      k + 1
  }

  /** The id as the cipher leaves it, and back. */
  function Scramble(keys: RoundKeys, id: int64): uint64 {
    Number(EncryptBlock(Word(ToUnsigned(id)), keys))
  }

  function Unscramble(keys: RoundKeys, n: uint64): int64 {
    ToSigned(Number(DecryptBlock(Word(n), keys)))
  }

  function TextOf(prefix: string, n: uint64): string {
    prefix + "_" + Canonical(n)
  }

  function ReadText(expected: string, text: string): Result<uint64, IdError> {
    var k := FirstUnderscore(text);
    if k == |text| || k == 0 || k + 1 == |text| then Err(InvalidFormat)
    else if text[..k] != expected then Err(InvalidPrefix)
    else if Parse(text[k + 1..]).Err? then Err(DecodingFailed)
    else Ok(Parse(text[k + 1..]).value)
  }

  /** The round keys are any function of the prefix. */
  function EncodedId(schedule: string -> RoundKeys, prefix: string, id: int64): Result<string, IdError> {
    if prefix == "" then Err(InvalidPrefix) else Ok(TextOf(prefix, Scramble(schedule(prefix), id)))
  }

  function DecodedId(schedule: string -> RoundKeys, expected: string, text: string): Result<int64, IdError> {
    match ReadText(expected, text)
    case Err(e) => Err(e)
    case Ok(n) => Ok(Unscramble(schedule(expected), n))
  }

  class Codec {
    const schedule: string -> RoundKeys

    constructor (schedule: string -> RoundKeys)
      ensures this.schedule == schedule
    {
      this.schedule := schedule;
    }

    method Encode(prefix: string, id: int64) returns (r: Result<string, IdError>)
      ensures r == EncodedId(schedule, prefix, id)
    {
      if prefix == "" {
        return Err(InvalidPrefix);
      }
      var encrypted := Encrypt(Word(ToUnsigned(id)), schedule(prefix));
      var encoded := ToBase62(Number(encrypted));
      return Ok(prefix + "_" + encoded);
    }

    method Decode(expected: string, publicId: string) returns (r: Result<int64, IdError>)
      ensures r == DecodedId(schedule, expected, publicId)
    {
      var k := FirstUnderscore(publicId);
      if k == |publicId| || k == 0 || k + 1 == |publicId| {
        return Err(InvalidFormat);
      }
      if publicId[..k] != expected {
        return Err(InvalidPrefix);
      }
      var parsed := FromBase62(publicId[k + 1..]);
      if parsed.Err? {
        return Err(DecodingFailed);
      }
      var decrypted := Decrypt(Word(parsed.value), schedule(expected));
      return Ok(ToSigned(Number(decrypted)));
    }
  }

  lemma FirstUnderscoreIs(s: string, k: nat)
    requires k < |s| && s[k] == '_' && '_' !in s[..k]
    ensures FirstUnderscore(s) == k
  {
    var j := FirstUnderscore(s);
    assert forall i :: 0 <= i < j ==> s[i] == s[..j][i];
    assert forall i :: 0 <= i < k ==> s[i] == s[..k][i];
  }

  lemma ScrambleInverts(keys: RoundKeys, id: int64, n: uint64)
    ensures Unscramble(keys, Scramble(keys, id)) == id
    ensures Scramble(keys, Unscramble(keys, n)) == n
  {
    DecipheredNumber(keys, ToUnsigned(id));
    DecipheredNumber(keys, n);
    SignedUnsigned(id, Number(DecryptBlock(Word(n), keys)));
  }

  lemma DecipheredNumber(keys: RoundKeys, n: uint64)
    ensures Number(DecryptBlock(Word(Number(EncryptBlock(Word(n), keys))), keys)) == n
    ensures Number(EncryptBlock(Word(Number(DecryptBlock(Word(n), keys))), keys)) == n
  {
    var block := Word(n);
    CipherIsBijective(block, keys);
    WordOfNumber(EncryptBlock(block, keys));
    WordOfNumber(DecryptBlock(block, keys));
    NumberOfWord(n);
  }

  lemma ReadsOwnText(prefix: string, n: uint64)
    requires prefix != "" && '_' !in prefix
    ensures FirstUnderscore(TextOf(prefix, n)) == |prefix|
    ensures ReadText(prefix, TextOf(prefix, n)) == Ok(n)
  {
    var s := TextOf(prefix, n);
    assert s[..|prefix|] == prefix && s[|prefix| + 1..] == Canonical(n);
    FirstUnderscoreIs(s, |prefix|);
    ValueOfCanonical(n);
  }

  lemma UnderscoreBreaksReading(prefix: string, n: uint64)
    requires '_' in prefix
    ensures ReadText(prefix, TextOf(prefix, n)).Err?
  {
    var s := TextOf(prefix, n);
    var k := FirstUnderscore(prefix);
    assert prefix == prefix[..k] + prefix[k..] && k < |prefix|;
    assert s[..k] == prefix[..k] && s[k] == prefix[k];
    FirstUnderscoreIs(s, k);
    assert |s[..k]| < |prefix|;
  }

  /** The round trip recovers every id exactly when the prefix has no underscore. */
  lemma RoundTrip(schedule: string -> RoundKeys, prefix: string, id: int64)
    requires prefix != ""
    ensures DecodedId(schedule, prefix, EncodedId(schedule, prefix, id).value) == Ok(id) <==> '_' !in prefix
  {
    var n := Scramble(schedule(prefix), id);
    if '_' in prefix {
      UnderscoreBreaksReading(prefix, n);
    } else {
      ReadsOwnText(prefix, n);
      ScrambleInverts(schedule(prefix), id, n);
    }
  }

  /** One identifier, character by character. */
  lemma KnownText(schedule: string -> RoundKeys)
    requires schedule("inv") == KNOWN_KEYS
    ensures EncodedId(schedule, "inv", 42) == Ok("inv_7FBWZzg79lU")
  {
    KnownNumber();
    EncodingOf(schedule, "inv", 42);
    KnownTextOf(Scramble(schedule("inv"), 42));
  }

  lemma EncodingOf(schedule: string -> RoundKeys, prefix: string, id: int64)
    requires prefix != ""
    ensures EncodedId(schedule, prefix, id) == Ok(TextOf(prefix, Scramble(schedule(prefix), id)))
  {
  }

  lemma KnownTextOf(n: uint64)
    requires n == 6080668336615827500
    ensures TextOf("inv", n) == "inv_7FBWZzg79lU"
  {
    KnownDigits(n);
    assert "inv" + "_" + "7FBWZzg79lU" == "inv_7FBWZzg79lU";
  }

  lemma KnownNumber()
    ensures Scramble(KNOWN_KEYS, 42) == 6080668336615827500
  {
    KnownBlock();
    KnownConversions();
    assert ToUnsigned(42) == 42;
  }

  lemma KnownConversions()
    ensures Word(42) == 42 && Number(0x5462_dfa2_a8f3_a82c) == 6080668336615827500
  {
  }

  lemma KnownDigits(n: nat)
    requires n == 6080668336615827500
    ensures Canonical(n) == "7FBWZzg79lU"
  {
    assert Canonical(27849) == "7FB";
    assert Canonical(1726670) == "7FBW";
    assert Canonical(107053575) == "7FBWZ";
    assert Canonical(6637321711) == "7FBWZz";
    assert Canonical(411513946124) == "7FBWZzg";
    assert Canonical(25513864659695) == "7FBWZzg7";
    assert Canonical(1581859608901099) == "7FBWZzg79";
    assert Canonical(98075295751868185) == "7FBWZzg79l";
  }

  /** What decoding answers for a text whose first underscore stands between a and b. */
  lemma DecodeBySplit(schedule: string -> RoundKeys, expected: string, a: string, b: string)
    requires '_' !in a
    ensures var r := DecodedId(schedule, expected, a + "_" + b);
            if a == "" || b == "" then r == Err(InvalidFormat)
            else if a != expected then r == Err(InvalidPrefix)
            else if !AllInAlphabet(b) || Value(b) >= TWO_64 then r == Err(DecodingFailed)
            else r.Ok? && Scramble(schedule(expected), r.value) == Value(b)
  {
    var text := a + "_" + b;
    assert text[..|a|] == a && text[|a| + 1..] == b;
    FirstUnderscoreIs(text, |a|);
    if AllInAlphabet(b) && Value(b) < TWO_64 {
      ScrambleInverts(schedule(expected), 0, Value(b));
    }
  }

  lemma NoUnderscoreNoId(schedule: string -> RoundKeys, expected: string, text: string)
    requires '_' !in text
    ensures DecodedId(schedule, expected, text) == Err(InvalidFormat)
  {
  }

  /** An identifier made for one resource is refused where another is expected. */
  lemma OtherPrefixRejected(schedule: string -> RoundKeys, prefix: string, other: string, id: int64)
    requires prefix != "" && '_' !in prefix && other != prefix
    ensures DecodedId(schedule, other, EncodedId(schedule, prefix, id).value) == Err(InvalidPrefix)
  {
    var n := Scramble(schedule(prefix), id);
    ReadsOwnText(prefix, n);
    assert TextOf(prefix, n)[..|prefix|] == prefix;
  }

  /** Distinct ids get distinct texts, even under a prefix with underscores. */
  lemma EncodingIsInjective(schedule: string -> RoundKeys, prefix: string, a: int64, b: int64)
    requires prefix != "" && EncodedId(schedule, prefix, a) == EncodedId(schedule, prefix, b)
    ensures a == b
  {
    var keys := schedule(prefix);
    var m, n := Scramble(keys, a), Scramble(keys, b);
    assert TextOf(prefix, m)[|prefix| + 1..] == Canonical(m);
    assert TextOf(prefix, n)[|prefix| + 1..] == Canonical(n);
    ValueOfCanonical(m);
    ValueOfCanonical(n);
    ScrambleInverts(keys, a, m);
    ScrambleInverts(keys, b, n);
  }

  lemma ReadTextIsCanonical(expected: string, text: string)
    requires ReadText(expected, text).Ok?
    ensures |text| > |expected| + 1 && text == expected + "_" + text[|expected| + 1..]
    ensures TextOf(expected, ReadText(expected, text).value) == expected + "_" + StripZeros(text[|expected| + 1..])
  {
    CanonicalOfValue(text[|expected| + 1..]);
  }

  /** Decoding accepts only the canonical text of an id, up to leading zeros of its digits. */
  lemma AcceptedTextIsCanonical(schedule: string -> RoundKeys, expected: string, text: string)
    requires DecodedId(schedule, expected, text).Ok?
    ensures |text| > |expected| + 1 && text == expected + "_" + text[|expected| + 1..]
    ensures EncodedId(schedule, expected, DecodedId(schedule, expected, text).value)
         == Ok(expected + "_" + StripZeros(text[|expected| + 1..]))
  {
    var n := ReadText(expected, text).value;
    ReadTextIsCanonical(expected, text);
    ScrambleInverts(schedule(expected), 0, n);
  }
}
