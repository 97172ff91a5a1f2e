/** Python's ordering of `str` values (code point by code point, a proper
    prefix first) and `sorted(set(...))`, which the Cloudflare crawlers use to
    fix the order in which names are batched. */
module NameOrder {
  import opened Common

  /** `a < b` on Python strings. */
  predicate LexLess(a: string, b: string) {
    if a == [] then b != []
    else if b == [] then false
    else a[0] < b[0] || (a[0] == b[0] && LexLess(a[1..], b[1..]))
  }

  lemma {:induction false} LexLessIrreflexive(a: string)
    ensures !LexLess(a, a)
  {
    if a != [] { LexLessIrreflexive(a[1..]); }
  }

  lemma {:induction false} LexLessTransitive(a: string, b: string, c: string)
    requires LexLess(a, b) && LexLess(b, c)
    ensures LexLess(a, c)
  {
    if a != [] && b != [] && c != [] && a[0] == b[0] == c[0] {
      LexLessTransitive(a[1..], b[1..], c[1..]);
    }
  }

  /** Any two distinct strings are ordered one way or the other. */
  lemma {:induction false} LexLessTotal(a: string, b: string)
    requires a != b
    ensures LexLess(a, b) || LexLess(b, a)
  {
    if a != [] && b != [] && a[0] == b[0] {
      assert a == [a[0]] + a[1..] && b == [b[0]] + b[1..];
      LexLessTotal(a[1..], b[1..]);
    }
  }

  lemma LexLessAsymmetric(a: string, b: string)
    requires LexLess(a, b)
    ensures !LexLess(b, a)
  {
    if LexLess(b, a) {
      LexLessTransitive(a, b, a);
      LexLessIrreflexive(a);
    }
  }

  /** Strictly increasing, hence sorted and free of duplicates. */
  predicate StrictlySorted(s: seq<string>) {
    forall i, j :: 0 <= i < j < |s| ==> LexLess(s[i], s[j])
  }

  lemma StrictlySortedNoDups(s: seq<string>)
    requires StrictlySorted(s)
    ensures NoDups(s)
  {
    forall i, j | 0 <= i < j < |s| ensures s[i] != s[j] {
      if s[i] == s[j] { LexLessIrreflexive(s[i]); }
    }
  }

  /** The least element of a non-empty set of names. */
  method Least(s: set<string>) returns (m: string)
    requires s != {}
    ensures m in s
    ensures forall x :: x in s && x != m ==> LexLess(m, x)
  {
    m :| m in s;
    var rest := s - {m};
    while rest != {}
      invariant m in s && rest <= s
      invariant forall x :: x in s - rest && x != m ==> LexLess(m, x)
      decreases rest
    {
      var x :| x in rest;
      if LexLess(x, m) {
        forall y | y in s - rest && y != x ensures LexLess(x, y) {
          if y != m { LexLessTransitive(x, m, y); }
        }
        m := x;
      } else if x != m {
        LexLessTotal(x, m);
      }
      rest := rest - {x};
    }
  }

  /** `list(sorted(s))` for a set of names. */
  method SortNames(s: set<string>) returns (names: seq<string>)
    ensures StrictlySorted(names)
    ensures forall x :: x in names <==> x in s
    ensures |names| == |s|
  {
    names := [];
    var rest := s;
    while rest != {}
      invariant rest <= s
      invariant StrictlySorted(names)
      invariant forall x :: x in names <==> x in s && x !in rest
      invariant forall x, y :: x in names && y in rest ==> LexLess(x, y)
      invariant |names| + |rest| == |s|
      decreases rest
    {
      var m := Least(rest);
      forall i | 0 <= i < |names| ensures LexLess(names[i], m) { }
      names := names + [m];
      rest := rest - {m};
    }
  }

  lemma SameElementsBothEmpty(a: seq<string>, b: seq<string>)
    requires forall x :: x in a <==> x in b
    ensures a == [] <==> b == []
  {
    if a != [] { assert a[0] in a; }
    if b != [] { assert b[0] in b; }
  }

  /** A set of names has exactly one strictly sorted listing: the order in
      which names are batched depends only on which names there are. */
  lemma {:induction false} SortedUnique(a: seq<string>, b: seq<string>)
    requires StrictlySorted(a) && StrictlySorted(b)
    requires forall x :: x in a <==> x in b
    ensures a == b
  {
    SameElementsBothEmpty(a, b);
    if a != [] {
      assert a[0] in b;
      assert b[0] in a;
      if a[0] != b[0] {
        var i :| 0 <= i < |a| && a[i] == b[0];
        var j :| 0 <= j < |b| && b[j] == a[0];
        assert LexLess(a[0], b[0]);
        assert LexLess(b[0], a[0]);
        LexLessAsymmetric(a[0], b[0]);
        assert false;
      }
      forall x ensures x in a[1..] <==> x in b[1..] {
        if x in a[1..] {
          var i :| 1 <= i < |a| && a[i] == x;
          assert LexLess(a[0], x);
          LexLessIrreflexive(x);
          assert x in b && x != b[0];
        }
        if x in b[1..] {
          var j :| 1 <= j < |b| && b[j] == x;
          assert LexLess(b[0], x);
          LexLessIrreflexive(x);
          assert x in a && x != a[0];
        }
      }
      SortedUnique(a[1..], b[1..]);
      assert a == [a[0]] + a[1..] && b == [b[0]] + b[1..];
    }
  }
}
