/** Names in the order of their character codes, as an array of strings is sorted. */
module NameOrder {
  predicate Le(a: string, b: string)
  {
    a == "" || (b != "" && (a[0] < b[0] || (a[0] == b[0] && Le(a[1..], b[1..]))))
  }

  lemma {:induction false} LeTotal(a: string, b: string)
    ensures Le(a, b) || Le(b, a)
    ensures Le(a, b) && Le(b, a) ==> a == b
    decreases |a|
  {
    if a != "" && b != "" && a[0] == b[0] {
      LeTotal(a[1..], b[1..]);
      assert a == [a[0]] + a[1..] && b == [b[0]] + b[1..];
    }
  }

  // Where the two first differ, at k, a has the smaller character.
  ghost predicate SmallerAt(a: string, b: string, k: nat)
  {
    k < |a| && k < |b| && a[..k] == b[..k] && a[k] < b[k]
  }

  // A name comes before another when it begins it, or has the smaller character where they
  // first differ.
  lemma {:induction false} LeByFirstDifference(a: string, b: string)
    ensures Le(a, b) <==> a <= b || exists k: nat :: SmallerAt(a, b, k)
    decreases |a|
  {
    if a != "" && b != "" && a[0] == b[0] {
      LeByFirstDifference(a[1..], b[1..]);
      assert a == [a[0]] + a[1..] && b == [b[0]] + b[1..];
      if k: nat :| SmallerAt(a[1..], b[1..], k) {
        assert a[..k + 1] == [a[0]] + a[1..][..k] && b[..k + 1] == [b[0]] + b[1..][..k];
        assert SmallerAt(a, b, k + 1);
      }
      if k: nat :| SmallerAt(a, b, k) {
        assert a[..k][1..] == a[1..][..k - 1] && b[..k][1..] == b[1..][..k - 1];
        assert SmallerAt(a[1..], b[1..], k - 1);
      }
    } else if a != "" && b != "" && a[0] < b[0] {
      assert SmallerAt(a, b, 0);
    }
  }

  lemma {:induction false} LeTrans(a: string, b: string, c: string)
    requires Le(a, b) && Le(b, c)
    ensures Le(a, c)
    decreases |a|
  {
    if a != "" && a[0] == b[0] && b[0] == c[0] { LeTrans(a[1..], b[1..], c[1..]); }
  }

  predicate IsLeast(s: set<string>, m: string) { m in s && forall x :: x in s ==> Le(m, x) }

  method FindLeast(s: set<string>) returns (m: string)
    requires s != {}
    ensures IsLeast(s, m)
  {
    m :| m in s;
    LeTotal(m, m);
    var left := s - {m};
    while left != {}
      invariant left <= s && m in s && forall x :: x in s && x !in left ==> Le(m, x)
      decreases |left|
    {
      var x :| x in left;
      LeTotal(m, x);
      LeTotal(x, x);
      if !Le(m, x) {
        forall y | y in s && y !in left ensures Le(x, y) { LeTrans(x, m, y); }
        m := x;
      }
      left := left - {x};
    }
  }

  lemma {:induction false} LeastExists(s: set<string>)
    requires s != {}
    ensures exists m :: IsLeast(s, m)
    decreases |s|
  {
    var x :| x in s;
    LeTotal(x, x);
    if s == {x} {
      assert IsLeast(s, x);
    } else {
      LeastExists(s - {x});
      var m :| IsLeast(s - {x}, m);
      LeTotal(m, x);
      if Le(m, x) {
        assert IsLeast(s, m);
      } else {
        forall y | y in s ensures Le(x, y) { if y != x { LeTrans(x, m, y); } }
        assert IsLeast(s, x);
      }
    }
  }

  ghost function Least(s: set<string>): (m: string)
    requires s != {}
    ensures IsLeast(s, m)
  {
    LeastExists(s);
    var m :| IsLeast(s, m);
    m
  }

  ghost function Sorted(s: set<string>): seq<string>
    decreases |s|
  {
    if s == {} then [] else [Least(s)] + Sorted(s - {Least(s)})
  }

  predicate Ascending(names: seq<string>)
  {
    forall i, j :: 0 <= i < j < |names| ==> Le(names[i], names[j]) && names[i] != names[j]
  }

  // The sorted names are the names, once each and ascending.
  lemma {:induction false} SortedAscends(s: set<string>)
    ensures forall x :: x in Sorted(s) <==> x in s
    ensures |Sorted(s)| == |s|
    ensures Ascending(Sorted(s))
    decreases |s|
  {
    if s != {} {
      var m, rest := Least(s), s - {Least(s)};
      SortedAscends(rest);
      assert Sorted(s) == [m] + Sorted(rest);
      forall i, j | 0 <= i < j < |Sorted(s)| ensures Le(Sorted(s)[i], Sorted(s)[j]) && Sorted(s)[i] != Sorted(s)[j] {
        assert Sorted(s)[j] == Sorted(rest)[j - 1];
        assert Sorted(rest)[j - 1] in Sorted(rest);
        if i > 0 { assert Sorted(s)[i] == Sorted(rest)[i - 1]; }
      }
    }
  }

  method SortNames(names: set<string>) returns (sorted: seq<string>)
    ensures sorted == Sorted(names)
  {
    sorted := [];
    var left := names;
    while left != {}
      invariant left <= names && sorted + Sorted(left) == Sorted(names)
      decreases |left|
    {
      var m := FindLeast(left);
      LeTotal(m, Least(left));
      assert sorted + ([m] + Sorted(left - {m})) == sorted + [m] + Sorted(left - {m});
      sorted := sorted + [m];
      left := left - {m};
    }
    assert sorted + [] == sorted;
  }
}
