/** The fragment of Go's strings package the handlers use. */
module Text {

  /** Unicode's White_Space property, as `unicode.IsSpace` decides it. */
  predicate IsSpace(c: char) {
    || '\t' <= c <= '\r'
    || c == ' '
    || c == '\U{85}' || c == '\U{A0}' || c == '\U{1680}'
    || '\U{2000}' <= c <= '\U{200A}'
    || c == '\U{2028}' || c == '\U{2029}' || c == '\U{202F}' || c == '\U{205F}' || c == '\U{3000}'
  }

  /** `strings.TrimSpace`. */
  function TrimSpace(s: string): (t: string)
    ensures t != "" ==> !IsSpace(t[0]) && !IsSpace(t[|t| - 1])
    ensures t == "" <==> forall i :: 0 <= i < |s| ==> IsSpace(s[i])
  {
    if s == "" then ""
    else if IsSpace(s[0]) then TrimSpace(s[1..])
    else if IsSpace(s[|s| - 1]) then TrimSpace(s[..|s| - 1])
    else s
  }

  predicate Blank(s: string) {
    forall i :: 0 <= i < |s| ==> IsSpace(s[i])
  }

  /** s is t between blanks. */
  predicate Surrounds(s: string, a: string, t: string, b: string) {
    s == a + t + b && Blank(a) && Blank(b)
  }

  lemma BlankInFront(c: char, s: string, a: string, t: string, b: string)
    requires IsSpace(c) && Surrounds(s, a, t, b)
    ensures Surrounds([c] + s, [c] + a, t, b)
  {
    assert [c] + (a + t + b) == ([c] + a) + t + b;
  }

  lemma BlankBehind(c: char, s: string, a: string, t: string, b: string)
    requires IsSpace(c) && Surrounds(s, a, t, b)
    ensures Surrounds(s + [c], a, t, b + [c])
  {
    assert (a + t + b) + [c] == a + t + (b + [c]);
  }

  /** Trimming takes blanks off both ends and nothing from the middle. */
  lemma {:induction false} TrimIsMiddle(s: string) returns (a: string, b: string)
    ensures Surrounds(s, a, TrimSpace(s), b)
  {
    a, b := "", "";
    if s != "" && IsSpace(s[0]) {
      a, b := TrimIsMiddle(s[1..]);
      BlankInFront(s[0], s[1..], a, TrimSpace(s[1..]), b);
      assert s == [s[0]] + s[1..];
      a := [s[0]] + a;
    } else if s != "" && IsSpace(s[|s| - 1]) {
      a, b := TrimIsMiddle(s[..|s| - 1]);
      BlankBehind(s[|s| - 1], s[..|s| - 1], a, TrimSpace(s[..|s| - 1]), b);
      assert s == s[..|s| - 1] + [s[|s| - 1]];
      b := b + [s[|s| - 1]];
    }
  }

  predicate NoOuterBlanks(t: string) {
    t != "" ==> !IsSpace(t[0]) && !IsSpace(t[|t| - 1])
  }

  /** A text between blanks is what trimming returns. */
  lemma {:induction false} TrimSpaceIs(a: string, t: string, b: string)
    requires Blank(a) && Blank(b) && NoOuterBlanks(t)
    ensures TrimSpace(a + t + b) == t
    decreases |a| + |b|
  {
    var s := a + t + b;
    if t == "" {
      assert Blank(s);
    } else if a != "" {
      assert s[1..] == a[1..] + t + b;
      TrimSpaceIs(a[1..], t, b);
    } else if b != "" {
      assert s[..|s| - 1] == a + t + b[..|b| - 1];
      TrimSpaceIs(a, t, b[..|b| - 1]);
    } else {
      assert s == t;
    }
  }

  /** The number of bytes of a string in UTF-8, which is what Go's `len` counts. */
  function ByteLength(s: string): nat {
    if s == "" then 0
    else ByteLength(s[..|s| - 1]) + CharBytes(s[|s| - 1])
  }

  function CharBytes(c: char): nat {
    if c < '\U{80}' then 1 else if c < '\U{800}' then 2 else if c < '\U{10000}' then 3 else 4
  }

  /** A string has as many bytes as characters exactly when it is ASCII, and otherwise more. */
  lemma {:induction false} AsciiBytes(s: string)
    ensures |s| <= ByteLength(s) <= 4 * |s|
    ensures ByteLength(s) == |s| <==> forall i :: 0 <= i < |s| ==> s[i] < '\U{80}'
  {
    if s != "" {
      var front := s[..|s| - 1];
      AsciiBytes(front);
      assert forall i :: 0 <= i < |front| ==> front[i] == s[i];
      assert (forall i :: 0 <= i < |s| ==> s[i] < '\U{80}') <==>
             (forall i :: 0 <= i < |front| ==> front[i] < '\U{80}') && s[|s| - 1] < '\U{80}';
    }
  }

  lemma TrimSpaceIdempotent(s: string)
    ensures TrimSpace(TrimSpace(s)) == TrimSpace(s)
  {
  }
}
