/** Lists of distinct items: removing one, inserting one. */
module Lists {

  ghost predicate Distinct<T>(s: seq<T>) {
    forall i, j :: 0 <= i < j < |s| ==> s[i] != s[j]
  }

  function Index(s: seq<nat>, x: nat): (i: nat)
    requires x in s
    ensures i < |s| && s[i] == x
  {
    if s[0] == x then 0 else 1 + Index(s[1..], x)
  }

  lemma IndexUnique(s: seq<nat>, i: nat)
    requires Distinct(s) && i < |s|
    ensures Index(s, s[i]) == i
  {
  }

  function Without(s: seq<nat>, x: nat): seq<nat> {
    if x in s then var i := Index(s, x); s[..i] + s[i + 1..] else s
  }

  lemma WithoutIs(s: seq<nat>, x: nat)
    requires Distinct(s)
    ensures Distinct(Without(s, x))
    ensures forall y :: y in Without(s, x) <==> y in s && y != x
  {
    if x in s {
      CutIs(s, Index(s, x));
    }
  }

  lemma CutIs(s: seq<nat>, i: nat)
    requires Distinct(s) && i < |s|
    ensures Distinct(s[..i] + s[i + 1..])
    ensures forall y :: y in s[..i] + s[i + 1..] <==> y in s && y != s[i]
  {
    var r := s[..i] + s[i + 1..];
    forall y | y in s && y != s[i] ensures y in r {
      var j :| 0 <= j < |s| && s[j] == y;
      assert r[if j < i then j else j - 1] == y;
    }
    forall y | y in r ensures y in s && y != s[i] {
      var j :| 0 <= j < |r| && r[j] == y;
      assert s[if j < i then j else j + 1] == y;
    }
  }

  lemma SpliceIs(s: seq<nat>, k: nat, x: nat)
    requires Distinct(s) && x !in s && k <= |s|
    ensures Distinct(s[..k] + [x] + s[k..])
    ensures forall y :: y in s[..k] + [x] + s[k..] <==> y in s || y == x
  {
    var r := s[..k] + [x] + s[k..];
    forall y | y in s || y == x ensures y in r {
      if y in s {
        var i :| 0 <= i < |s| && s[i] == y;
        assert r[if i < k then i else i + 1] == y;
      } else {
        assert r[k] == y;
      }
    }
  }

  lemma Tail(s: seq<nat>)
    requires Distinct(s) && s != []
    ensures Distinct(s[1..]) && s[0] !in s[1..] && forall t :: t in s <==> t == s[0] || t in s[1..]
  {
    forall t | t in s ensures t == s[0] || t in s[1..] {
      var i :| 0 <= i < |s| && s[i] == t;
      assert i > 0 ==> s[1..][i - 1] == t;
    }
  }

  lemma Cons(x: nat, s: seq<nat>)
    requires Distinct(s)
    ensures x !in s ==> Distinct([x] + s)
    ensures forall t :: t in [x] + s <==> t == x || t in s
  {
  }
}
