/** Counting facts about finite sets and sequences. */
module Collections {

  /** The order in which a query without an order returns its rows is not known. */
  method Any<T(==)>(rows: set<T>) returns (a: T)
    requires rows != {}
    ensures a in rows
  {
    a :| a in rows;
  }

  function Elements<T>(s: seq<T>): set<T> {
    set a | a in s
  }

  lemma {:induction false} FewElements<T>(s: seq<T>)
    ensures |Elements(s)| <= |s|
  {
    if s == [] {
      assert Elements(s) == {};
    } else {
      FewElements(s[1..]);
      assert Elements(s) == Elements(s[1..]) + {s[0]};
    }
  }

  lemma {:induction false} AllDistinct<T>(s: seq<T>)
    requires forall i, j :: 0 <= i < j < |s| ==> s[i] != s[j]
    ensures |Elements(s)| == |s|
  {
    if s == [] {
      assert Elements(s) == {};
    } else {
      AllDistinct(s[1..]);
      assert Elements(s) == Elements(s[1..]) + {s[0]};
    }
  }

  lemma {:induction false} Included<T>(s: set<T>, t: set<T>)
    requires s <= t
    ensures |s| <= |t|
  {
    if s != {} {
      var a :| a in s;
      Included(s - {a}, t - {a});
    }
  }

  lemma SameSize<T>(s: set<T>, t: set<T>)
    requires s <= t && |s| == |t|
    ensures s == t
  {
    if s != t {
      var a :| a in t && a !in s;
      Included(s, t - {a});
    }
  }

  predicate IsLeast(m: int, s: set<int>) {
    m in s && forall x :: x in s ==> m <= x
  }

  lemma {:induction false} LeastExists(s: set<int>, a: int) returns (m: int)
    requires a in s
    ensures IsLeast(m, s)
    decreases |s|
  {
    if b :| b in s && b < a {
      m := LeastExists(s - {a}, b);
      forall x | x in s
        ensures m <= x
      {
        assert x == a || x in s - {a};
      }
    } else {
      m := a;
    }
  }

  lemma LeastIn(s: set<int>)
    ensures s == {} || exists m :: IsLeast(m, s)
  {
    if a :| a in s {
      var m := LeastExists(s, a);
    } else {
      assert forall x: int :: x in s <==> x in {};
    }
  }

  predicate Ascending(r: seq<int>) {
    forall i, j :: 0 <= i < j < |r| ==> r[i] < r[j]
  }

  /** The elements of a set in ascending order. */
  function Sorted(s: set<int>): (r: seq<int>)
    ensures Elements(r) == s && Ascending(r)
    decreases |s|
  {
    if s == {} then
      assert Elements<int>([]) == {};
      []
    else
      LeastIn(s);
      var m: int :| IsLeast(m, s);
      var rest := Sorted(s - {m});
      LeastFirst(s, m, rest);
      [m] + rest
  }

  lemma LeastFirst(s: set<int>, m: int, rest: seq<int>)
    requires IsLeast(m, s) && Elements(rest) == s - {m} && Ascending(rest)
    ensures Elements([m] + rest) == s && Ascending([m] + rest)
  {
    forall k | 0 <= k < |rest|
      ensures m < rest[k]
    {
      assert rest[k] in Elements(rest);
    }
    assert Elements([m] + rest) == {m} + Elements(rest);
  }

  lemma LastIsGreatest(used: set<int>)
    ensures var sorted := Sorted(used); forall x :: x in used ==> sorted != [] && x <= sorted[|sorted| - 1]
  {
    var sorted := Sorted(used);
    forall x | x in used
      ensures sorted != [] && x <= sorted[|sorted| - 1]
    {
      assert x in Elements(sorted);
    }
  }

  /** A generated name: any value that is not in use. */
  method Unused(used: set<int>) returns (n: int)
    ensures n !in used
  {
    n := *;
    if n in used {
      var sorted := Sorted(used);
      LastIsGreatest(used);
      n := sorted[|sorted| - 1] + 1;
    }
  }
}
