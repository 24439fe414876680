/**
  What it means for one list to be what is left of another: the elements with a property, at
  their places, in their order and as often as they were there.
*/
module Filters {

  // `at` are the places in s of the elements of r: exactly those where s has the property.
  ghost predicate Selects<T(!new)>(at: seq<nat>, s: seq<T>, keep: T -> bool, r: seq<T>)
  {
    && |at| == |r|
    && (forall i, j :: 0 <= i < j < |at| ==> at[i] < at[j])
    && (forall i :: 0 <= i < |at| ==> at[i] < |s| && r[i] == s[at[i]])
    && (forall k :: 0 <= k < |s| ==> (keep(s[k]) <==> k in at))
  }

  ghost predicate IsFilter<T(!new)>(s: seq<T>, keep: T -> bool, r: seq<T>)
  {
    exists at :: Selects(at, s, keep, r)
  }

  lemma FilterNone<T(!new)>(keep: T -> bool)
    ensures IsFilter([], keep, [])
  {
    assert Selects([], [], keep, []);
  }

  lemma FilterPush<T(!new)>(s: seq<T>, keep: T -> bool, r: seq<T>, x: T)
    requires IsFilter(s, keep, r)
    ensures IsFilter(s + [x], keep, if keep(x) then r + [x] else r)
  {
    var at :| Selects(at, s, keep, r);
    if keep(x) { SelectsLast(at, s, keep, r, x); } else { SelectsOthers(at, s, keep, r, x); }
  }

  lemma FilterLast<T(!new)>(s: seq<T>, keep: T -> bool, front: seq<T>)
    requires s != [] && IsFilter(s[..|s| - 1], keep, front)
    ensures IsFilter(s, keep, front + (if keep(s[|s| - 1]) then [s[|s| - 1]] else []))
  {
    FilterPush(s[..|s| - 1], keep, front, s[|s| - 1]);
    assert s[..|s| - 1] + [s[|s| - 1]] == s && front + [] == front;
  }

  lemma SelectsLast<T(!new)>(at: seq<nat>, s: seq<T>, keep: T -> bool, r: seq<T>, x: T)
    requires Selects(at, s, keep, r) && keep(x)
    ensures Selects(at + [|s|], s + [x], keep, r + [x])
  {
    var next: seq<nat> := at + [|s|];
    assert next[|at|] in next;
    forall k | 0 <= k < |s + [x]| ensures keep((s + [x])[k]) <==> k in next {
      if k < |s| { assert (s + [x])[k] == s[k] && (k in next <==> k in at); }
    }
  }

  lemma SelectsOthers<T(!new)>(at: seq<nat>, s: seq<T>, keep: T -> bool, r: seq<T>, x: T)
    requires Selects(at, s, keep, r) && !keep(x)
    ensures Selects(at, s + [x], keep, r)
  {
    forall k | 0 <= k < |s + [x]| ensures keep((s + [x])[k]) <==> k in at {
      if k < |s| { assert (s + [x])[k] == s[k]; }
    }
  }

  lemma FilterMembers<T(!new)>(s: seq<T>, keep: T -> bool, r: seq<T>)
    requires IsFilter(s, keep, r)
    ensures forall x :: x in r <==> x in s && keep(x)
  {
    var at :| Selects(at, s, keep, r);
    forall x | x in s && keep(x) ensures x in r {
      var k :| 0 <= k < |s| && s[k] == x;
      var i :| 0 <= i < |at| && at[i] == k;
      assert r[i] == x;
    }
    forall x | x in r ensures x in s && keep(x) {
      var i :| 0 <= i < |r| && r[i] == x;
      assert at[i] in at;
    }
  }

  // Places in increasing order are known by the set of them.
  lemma {:induction false} PlacesUnique(a: seq<nat>, b: seq<nat>)
    requires forall i, j :: 0 <= i < j < |a| ==> a[i] < a[j]
    requires forall i, j :: 0 <= i < j < |b| ==> b[i] < b[j]
    requires forall k :: k in a <==> k in b
    ensures a == b
    decreases |a|
  {
    if a != [] || b != [] {
      var n, m := |a| - 1, |b| - 1;
      assert a != [] ==> a[n] in b;
      assert b != [] ==> b[m] in a;
      assert a[n] == b[m];
      forall k ensures k in a[..n] <==> k in b[..m] {
        assert k in a[..n] <==> k in a && k != a[n];
        assert k in b[..m] <==> k in b && k != b[m];
      }
      PlacesUnique(a[..n], b[..m]);
      assert a == a[..n] + [a[n]] && b == b[..m] + [b[m]];
    }
  }

  // There is one such list.
  lemma FilterUnique<T(!new)>(s: seq<T>, keep: T -> bool, r: seq<T>, r': seq<T>)
    requires IsFilter(s, keep, r) && IsFilter(s, keep, r')
    ensures r == r'
  {
    var at :| Selects(at, s, keep, r);
    var at' :| Selects(at', s, keep, r');
    forall k ensures k in at <==> k in at' {
      if k in at { assert k < |s| && keep(s[k]); }
      if k in at' { assert k < |s| && keep(s[k]); }
    }
    PlacesUnique(at, at');
  }
}
