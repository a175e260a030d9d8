/** Finite sets of identifiers listed in ascending order: the meaning of ORDER BY id ASC. */
module Ordered {

  predicate Increasing(s: seq<int>) {
    forall i, j :: 0 <= i < j < |s| ==> s[i] < s[j]
  }

  ghost predicate ListsExactly(s: seq<int>, ids: set<int>) {
    forall x :: x in s <==> x in ids
  }

  lemma HasMember(ids: set<int>)
    ensures ids != {} ==> exists x :: x in ids
  {
    assert (forall x :: x !in ids) ==> ids == {};
  }

  predicate IsLeast(m: int, ids: set<int>) {
    m in ids && forall x :: x in ids ==> m <= x
  }

  lemma {:induction false} HasLeast(ids: set<int>)
    requires ids != {}
    ensures exists m :: IsLeast(m, ids)
    decreases |ids|
  {
    HasMember(ids);
    var a :| a in ids;
    var rest := ids - {a};
    assert ids == rest + {a};
    if rest == {} {
      assert IsLeast(a, ids);
    } else {
      HasLeast(rest);
      var m :| IsLeast(m, rest);
      assert IsLeast(if m < a then m else a, ids);
    }
  }

  /** The members of `ids`, smallest first. */
  function InOrder(ids: set<int>): (s: seq<int>)
    ensures Increasing(s) && ListsExactly(s, ids)
  {
    if ids == {} then []
    else
      HasLeast(ids);
      var m :| IsLeast(m, ids);
      [m] + InOrder(ids - {m})
  }

  /** An ascending listing is determined by its members. */
  lemma {:induction false} ListingIsUnique(s: seq<int>, t: seq<int>)
    requires Increasing(s) && Increasing(t)
    requires forall x :: x in s <==> x in t
    ensures s == t
  {
    if s == [] {
      assert forall i :: 0 <= i < |t| ==> t[i] in t;
    } else {
      assert s[0] in t && t != [];
      assert t[0] in s;
      assert s[0] == t[0];
      forall x ensures x in s[1..] <==> x in t[1..] {
        assert x in s[1..] ==> x in s && x != s[0];
        assert x in t[1..] ==> x in t && x != t[0];
      }
      ListingIsUnique(s[1..], t[1..]);
      assert s == [s[0]] + s[1..] && t == [t[0]] + t[1..];
    }
  }
}
