/** The request fingerprint: a digest of an injective rendering of (invoice id, card token). */
module Fingerprint {

  function DecimalDigit(d: nat): char
    requires d < 10
  {
    ('0' as int + d) as char
  }

  function Decimal(n: nat): (s: string)
    ensures s != "" && forall i :: 0 <= i < |s| ==> '0' <= s[i] <= '9'
  {
    if n < 10 then [DecimalDigit(n)] else Decimal(n / 10) + [DecimalDigit(n % 10)]
  }

  /** `strconv.FormatInt(n, 10)`. */
  function FormatInt(n: int): (s: string)
    ensures '\n' !in s
  {
    if n < 0 then "-" + Decimal(-n) else Decimal(n)
  }

  function Preimage(invoice: int, token: string): string {
    "invoice_id=" + FormatInt(invoice) + "\ncard_token=" + token
  }

  function RequestHash(digest: string -> string, invoice: int, token: string): string {
    digest(Preimage(invoice, token))
  }

  /** The digest does not confuse these two requests. */
  predicate Separates(digest: string -> string, i: int, t: string, j: int, u: string) {
    digest(Preimage(i, t)) == digest(Preimage(j, u)) ==> Preimage(i, t) == Preimage(j, u)
  }

  /** The number a string of decimal digits denotes. */
  function DecimalValue(s: string): nat
    requires forall i :: 0 <= i < |s| ==> '0' <= s[i] <= '9'
  {
    if s == "" then 0 else DecimalValue(s[..|s| - 1]) * 10 + (s[|s| - 1] as int - '0' as int)
  }

  /** Decimal digits denote the number they were made from, and lead with zero only for zero. */
  lemma {:induction false} DecimalDenotes(n: nat)
    ensures DecimalValue(Decimal(n)) == n
    ensures Decimal(n)[0] == '0' <==> n == 0
    ensures n == 0 ==> Decimal(n) == "0"
  {
    if n >= 10 {
      var s := Decimal(n);
      assert s[..|s| - 1] == Decimal(n / 10);
      DecimalDenotes(n / 10);
      assert s[0] == Decimal(n / 10)[0];
    }
  }

  lemma {:induction false} DecimalIsInjective(m: nat, n: nat)
    requires Decimal(m) == Decimal(n)
    ensures m == n
  {
    var s, t := Decimal(m), Decimal(n);
    assert s[|s| - 1] == t[|t| - 1];
    if m >= 10 && n >= 10 {
      assert s[..|s| - 1] == Decimal(m / 10) && t[..|t| - 1] == Decimal(n / 10);
      DecimalIsInjective(m / 10, n / 10);
    }
  }

  lemma FormatIntIsInjective(m: int, n: int)
    requires FormatInt(m) == FormatInt(n)
    ensures m == n
  {
    assert m < 0 <==> FormatInt(m)[0] == '-';
    assert n < 0 <==> FormatInt(n)[0] == '-';
    if m < 0 {
      assert FormatInt(m)[1..] == Decimal(-m) && FormatInt(n)[1..] == Decimal(-n);
      DecimalIsInjective(-m, -n);
    } else {
      DecimalIsInjective(m, n);
    }
  }

  lemma FirstLineIsUnique(a: string, b: string, x: string, y: string)
    requires '\n' !in a && '\n' !in b && a + "\n" + x == b + "\n" + y
    ensures a == b && x == y
  {
    var s, t := a + "\n" + x, b + "\n" + y;
    assert s[|a|] == '\n' && t[|b|] == '\n';
    assert (forall i :: 0 <= i < |a| ==> s[i] == a[i]) && (forall i :: 0 <= i < |b| ==> t[i] == b[i]);
    assert |a| == |b|;
    assert a == s[..|a|] == t[..|b|] == b;
    assert x == s[|a| + 1..] == t[|b| + 1..] == y;
  }

  lemma SamePrefix(p: string, x: string, y: string)
    requires p + x == p + y
    ensures x == y
  {
    assert x == (p + x)[|p|..];
    assert y == (p + y)[|p|..];
  }

  lemma Lines(invoice: int, token: string)
    ensures Preimage(invoice, token) == ("invoice_id=" + FormatInt(invoice)) + "\n" + ("card_token=" + token)
    ensures '\n' !in "invoice_id=" + FormatInt(invoice)
  {
    var p, n, c := "invoice_id=", FormatInt(invoice), "card_token=";
    assert "\ncard_token=" == "\n" + c;
    assert p + n + ("\n" + c) + token == (p + n) + "\n" + (c + token);
  }

  /** One preimage, character by character. */
  lemma KnownPreimage(token: string)
    ensures Preimage(-42, token) == "invoice_id=-42\ncard_token=" + token
  {
    assert Decimal(42) == "42";
    assert "invoice_id=" + "-42" + "\ncard_token=" == "invoice_id=-42\ncard_token=";
  }

  /** Different (invoice, token) pairs never share a preimage, whatever the token contains. */
  lemma PreimageIsInjective(i: int, t: string, j: int, u: string)
    requires Preimage(i, t) == Preimage(j, u)
    ensures i == j && t == u
  {
    Lines(i, t);
    Lines(j, u);
    FirstLineIsUnique("invoice_id=" + FormatInt(i), "invoice_id=" + FormatInt(j), "card_token=" + t, "card_token=" + u);
    SamePrefix("invoice_id=", FormatInt(i), FormatInt(j));
    SamePrefix("card_token=", t, u);
    FormatIntIsInjective(i, j);
  }

  /** Two requests share a fingerprint exactly when they name the same invoice and token. */
  lemma FingerprintIdentifies(digest: string -> string, i: int, t: string, j: int, u: string)
    requires Separates(digest, i, t, j, u)
    ensures RequestHash(digest, i, t) == RequestHash(digest, j, u) <==> i == j && t == u
  {
    if Preimage(i, t) == Preimage(j, u) {
      PreimageIsInjective(i, t, j, u);
    }
  }
}
