/** The base62 codec of public identifiers. */
module Base62 {
  import opened MachineInt
  import opened Wrappers

  const DIGITS := "0123456789"
  const UPPER := "ABCDEFGHIJKLMNOPQRSTUVWXYZ"
  const LOWER := "abcdefghijklmnopqrstuvwxyz"
  const ALPHABET := DIGITS + UPPER + LOWER

  datatype DecodeError = InvalidCharacter(c: char) | ExceedsUint64

  function Digit(i: nat): char
    requires i < 62
  {
    if i < 10 then ('0' as int + i) as char
    else if i < 36 then ('A' as int + i - 10) as char
    else ('a' as int + i - 36) as char
  }

  lemma AlphabetAt(i: nat)
    requires i < 62
    ensures |ALPHABET| == 62 && ALPHABET[i] == Digit(i)
  {
    assert DIGITS == seq(10, i requires 0 <= i < 10 => ('0' as int + i) as char);
    assert UPPER == seq(26, i requires 0 <= i < 26 => ('A' as int + i) as char);
    assert LOWER == seq(26, i requires 0 <= i < 26 => ('a' as int + i) as char);
  }

  predicate InAlphabet(c: char) {
    '0' <= c <= '9' || 'A' <= c <= 'Z' || 'a' <= c <= 'z'
  }

  function IndexOf(c: char): (i: nat)
    requires InAlphabet(c)
    ensures i < 62 && Digit(i) == c
  {
    if c <= '9' then c as int - '0' as int
    else if c <= 'Z' then c as int - 'A' as int + 10
    else c as int - 'a' as int + 36
  }

  /** `strings.IndexByte(base62Chars, c)`. */
  method IndexByte(c: char) returns (idx: int)
    ensures idx == if InAlphabet(c) then IndexOf(c) else -1
  {
    AlphabetAt(0);
    for i := 0 to |ALPHABET|
      invariant forall j :: 0 <= j < i ==> Digit(j) != c
    {
      AlphabetAt(i);
      if ALPHABET[i] == c {
        return i;
      }
    }
    return -1;
  }

  predicate AllInAlphabet(s: string) {
    forall i :: 0 <= i < |s| ==> InAlphabet(s[i])
  }

  /** The exact number a digit string denotes, most significant digit first. */
  function Value(s: string): nat
    requires AllInAlphabet(s)
  {
    if s == "" then 0 else Value(s[..|s| - 1]) * 62 + IndexOf(s[|s| - 1])
  }

  /** The shortest digit string of a number. */
  function Canonical(n: nat): (s: string)
    ensures s != "" && AllInAlphabet(s)
  {
    if n < 62 then [Digit(n)] else Canonical(n / 62) + [Digit(n % 62)]
  }

  function StripZeros(s: string): string {
    if |s| > 1 && s[0] == '0' then StripZeros(s[1..]) else s
  }

  function Parse(s: string): Result<uint64, DecodeError> {
    if !AllInAlphabet(s) then Err(InvalidCharacter(FirstForeign(s)))
    else if Value(s) >= TWO_64 then Err(ExceedsUint64)
    else Ok(Value(s))
  }

  function FirstForeign(s: string): (c: char)
    requires !AllInAlphabet(s)
    ensures !InAlphabet(c) && c in s
  {
    if InAlphabet(s[0]) then FirstForeign(s[1..]) else s[0]
  }

  lemma {:induction false} FirstForeignAt(s: string, i: nat)
    requires i < |s| && AllInAlphabet(s[..i]) && !InAlphabet(s[i])
    ensures !AllInAlphabet(s) && FirstForeign(s) == s[i]
  {
    if i > 0 {
      assert InAlphabet(s[..i][0]);
      assert s[1..][..i - 1] == s[..i][1..];
      FirstForeignAt(s[1..], i - 1);
    }
  }

  /** Digit strings denote what they were made from. */
  lemma {:induction false} ValueOfCanonical(n: nat)
    ensures Value(Canonical(n)) == n
  {
    if n >= 62 {
      var s := Canonical(n);
      assert s[..|s| - 1] == Canonical(n / 62);
      ValueOfCanonical(n / 62);
    }
  }

  /** No leading zero, except for zero itself. */
  lemma {:induction false} CanonicalLeads(n: nat)
    ensures Canonical(n)[0] == '0' <==> n == 0
    ensures n == 0 ==> Canonical(n) == "0"
  {
    if n >= 62 {
      CanonicalLeads(n / 62);
      assert Canonical(n)[0] == Canonical(n / 62)[0];
    }
  }

  function Pow62(k: nat): nat {
    if k == 0 then 1 else 62 * Pow62(k - 1)
  }

  lemma {:induction false} CanonicalLength(n: nat, k: nat)
    requires k >= 1 && n < Pow62(k)
    ensures |Canonical(n)| <= k
  {
    if n >= 62 {
      CanonicalLength(n / 62, k - 1);
    }
  }

  /** Eleven characters are enough for every 64-bit word. */
  lemma ElevenDigits(n: uint64)
    ensures |Canonical(n)| <= 11
  {
    assert Pow62(3) == 238328;
    assert Pow62(6) == 56800235584;
    assert Pow62(9) == 13537086546263552;
    assert Pow62(11) > TWO_64;
    CanonicalLength(n, 11);
  }

  /** Re-encoding a nonempty digit string strips its leading zeros and changes nothing else. */
  lemma {:induction false} CanonicalOfValue(s: string)
    requires s != "" && AllInAlphabet(s)
    ensures Canonical(Value(s)) == StripZeros(s)
    decreases |s|
  {
    var front, last := s[..|s| - 1], s[|s| - 1];
    assert s == front + [last];
    if |s| == 1 {
      assert Value(front) == 0;
    } else {
      CanonicalOfValue(front);
      StripZerosSnoc(front, last);
      if Value(front) == 0 {
        CanonicalLeads(0);
      } else {
        ValueOfStripped(front);
      }
    }
  }

  lemma ValueOfStripped(s: string)
    requires s != "" && AllInAlphabet(s) && Canonical(Value(s)) == StripZeros(s) && Value(s) != 0
    ensures StripZeros(s) != "0"
  {
    CanonicalLeads(Value(s));
  }

  lemma {:induction false} StripZerosSnoc(s: string, c: char)
    requires s != ""
    ensures StripZeros(s + [c]) == if StripZeros(s) == "0" then [c] else StripZeros(s) + [c]
  {
    if |s| > 1 && s[0] == '0' {
      assert (s + [c])[1..] == s[1..] + [c];
      StripZerosSnoc(s[1..], c);
    } else if s == "0" {
      assert (s + [c])[1..] == [c];
    }
  }

  function Reversed(s: string): (r: string)
    ensures |r| == |s|
  {
    if s == "" then "" else Reversed(s[1..]) + [s[0]]
  }

  lemma {:induction false} ReversedAt(s: string, k: nat)
    requires k < |s|
    ensures Reversed(s)[k] == s[|s| - 1 - k]
  {
    if k < |s| - 1 {
      ReversedAt(s[1..], k);
    }
  }

  method ReverseInPlace(bytes: array<char>)
    modifies bytes
    ensures bytes[..] == Reversed(old(bytes[..]))
  {
    var i, j := 0, bytes.Length - 1;
    while i < j
      invariant 0 <= i <= bytes.Length && j == bytes.Length - 1 - i && i <= j + 1
      invariant forall k :: 0 <= k < i || j < k < bytes.Length ==> bytes[k] == old(bytes[bytes.Length - 1 - k])
      invariant forall k :: i <= k <= j ==> bytes[k] == old(bytes[k])
    {
      bytes[i], bytes[j] := bytes[j], bytes[i];
      i, j := i + 1, j - 1;
    }
    ghost var was := old(bytes[..]);
    forall k | 0 <= k < bytes.Length ensures bytes[k] == Reversed(was)[k] {
      ReversedAt(was, k);
    }
  }

  /** The builder holds the digits least significant first until the final reversal. */
  method ToBase62(num: uint64) returns (s: string)
    ensures s == Canonical(num)
    ensures AllInAlphabet(s) && Value(s) == num && 1 <= |s| <= 11
    ensures s[0] == '0' ==> s == "0"
  {
    ValueOfCanonical(num);
    CanonicalLeads(num);
    ElevenDigits(num);
    if num == 0 {
      return "0";
    }
    var n: int := num;
    var sb := "";
    while n > 0
      invariant n >= 0
      invariant n > 0 ==> Canonical(n) + Reversed(sb) == Canonical(num)
      invariant n == 0 ==> Reversed(sb) == Canonical(num)
    {
      var mod := n % 62;
      n := n / 62;
      AlphabetAt(mod);
      ReversedSnoc(sb, ALPHABET[mod]);
      sb := sb + [ALPHABET[mod]];
    }
    var bytes := new char[|sb|](i requires 0 <= i < |sb| => sb[i]);
    assert bytes[..] == sb;
    ReverseInPlace(bytes);
    s := bytes[..];
  }

  lemma {:induction false} ReversedSnoc(s: string, c: char)
    ensures Reversed(s + [c]) == [c] + Reversed(s)
  {
    if s != "" {
      assert (s + [c])[1..] == s[1..] + [c];
      ReversedSnoc(s[1..], c);
    }
  }

  method FromBase62(s: string) returns (r: Result<uint64, DecodeError>)
    ensures r == Parse(s)
    ensures r.Ok? <==> AllInAlphabet(s) && Value(s) < TWO_64
    ensures r.Ok? ==> r.value == Value(s)
    ensures r.Err? ==> (r.error.ExceedsUint64? <==> AllInAlphabet(s))
    ensures r.Ok? && s != "" ==> Canonical(r.value) == StripZeros(s)
  {
    var n := 0;
    for i := 0 to |s|
      invariant AllInAlphabet(s[..i]) && n == Value(s[..i])
    {
      var idx := IndexByte(s[i]);
      if idx == -1 {
        FirstForeignAt(s, i);
        return Err(InvalidCharacter(s[i]));
      }
      assert s[..i + 1][..i] == s[..i];
      n := n * 62 + idx;
    }
    assert s[..|s|] == s;
    if s != "" {
      CanonicalOfValue(s);
    }
    if !(0 <= n < TWO_64) {
      return Err(ExceedsUint64);
    }
    return Ok(n);
  }
}
