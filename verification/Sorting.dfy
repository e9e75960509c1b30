/** The order Python sorts text by, and the two sorts the contracts rely on. */
module Sorting {
  import opened Prelude

  /** Code point by code point; a prefix comes first. */
  predicate AtMost(a: string, b: string) {
    a == [] || (b != [] && (a[0] < b[0] || (a[0] == b[0] && AtMost(a[1..], b[1..]))))
  }

  lemma {:induction false} OrderIsTotal(a: string, b: string)
    ensures AtMost(a, b) || AtMost(b, a)
    ensures AtMost(a, b) && AtMost(b, a) ==> a == b
  {
    if a != [] && b != [] && a[0] == b[0] {
      OrderIsTotal(a[1..], b[1..]);
      assert a == [a[0]] + a[1..] && b == [b[0]] + b[1..];
    }
  }

  lemma {:induction false} OrderIsTransitive(a: string, b: string, c: string)
    requires AtMost(a, b) && AtMost(b, c)
    ensures AtMost(a, c)
  {
    if a != [] && a[0] == b[0] == c[0] {
      OrderIsTransitive(a[1..], b[1..], c[1..]);
    }
  }

  predicate IsLeast(least: string, names: set<string>) {
    least in names && forall x :: x in names ==> AtMost(least, x)
  }

  lemma {:induction false} LeastExists(names: set<string>) returns (least: string)
    requires names != {}
    ensures IsLeast(least, names)
  {
    hide AtMost;
    var n :| n in names;
    var rest := names - {n};
    assert names == rest + {n};
    OrderIsTotal(n, n);
    least := n;
    if rest != {} {
      var m := LeastExists(rest);
      OrderIsTotal(m, n);
      if AtMost(m, n) {
        least := m;
      } else {
        forall x | x in rest ensures AtMost(n, x) {
          OrderIsTransitive(n, m, x);
        }
      }
    }
  }

  lemma LeastIsUnique(a: string, b: string, names: set<string>)
    requires IsLeast(a, names) && IsLeast(b, names)
    ensures a == b
  {
    OrderIsTotal(a, b);
  }

  function Least(names: set<string>): (least: string)
    requires names != {}
    ensures IsLeast(least, names)
  {
    assert exists n :: IsLeast(n, names) by {
      var n := LeastExists(names);
    }
    assert forall a, b | IsLeast(a, names) && IsLeast(b, names) :: a == b by {
      forall a, b | IsLeast(a, names) && IsLeast(b, names) ensures a == b {
        LeastIsUnique(a, b, names);
      }
    }
    var least :| least in names && IsLeast(least, names);
    least
  }

  /** Python's `sorted` on a set of names. */
  function Sorted(names: set<string>): (xs: seq<string>)
    ensures Elems(xs) == names && Distinct(xs)
    ensures forall i, j :: 0 <= i < j < |xs| ==> AtMost(xs[i], xs[j])
  {
    if names == {} then []
    else
      var least := Least(names);
      var rest := Sorted(names - {least});
      assert forall i :: 0 <= i < |rest| ==> rest[i] in Elems(rest);
      assert names == {least} + Elems(rest) == Elems([least] + rest);
      [least] + rest
  }

  /** Python's stable `sorted` with a text key. */
  function SortBy<T>(xs: seq<T>, key: T -> string): seq<T> {
    if xs == [] then [] else Insert(xs[0], SortBy(xs[1..], key), key)
  }

  function Insert<T>(x: T, xs: seq<T>, key: T -> string): seq<T> {
    if xs == [] || AtMost(key(x), key(xs[0])) then [x] + xs else [xs[0]] + Insert(x, xs[1..], key)
  }

  ghost predicate Ascending<T>(xs: seq<T>, key: T -> string) {
    forall i, j :: 0 <= i < j < |xs| ==> AtMost(key(xs[i]), key(xs[j]))
  }

  ghost predicate DistinctKeys<T>(xs: seq<T>, key: T -> string) {
    forall i, j :: 0 <= i < j < |xs| ==> key(xs[i]) != key(xs[j])
  }

  lemma {:induction false} InsertSorts<T>(x: T, xs: seq<T>, key: T -> string)
    requires Ascending(xs, key)
    ensures Ascending(Insert(x, xs, key), key)
    ensures multiset(Insert(x, xs, key)) == multiset(xs) + multiset{x}
  {
    if xs != [] {
      OrderIsTotal(key(x), key(xs[0]));
      assert xs == [xs[0]] + xs[1..];
      if AtMost(key(x), key(xs[0])) {
        forall j | 0 <= j < |xs| ensures AtMost(key(x), key(xs[j])) {
          if j > 0 {
            OrderIsTransitive(key(x), key(xs[0]), key(xs[j]));
          }
        }
      } else {
        InsertSorts(x, xs[1..], key);
        var tail := Insert(x, xs[1..], key);
        forall j | 0 <= j < |tail| ensures AtMost(key(xs[0]), key(tail[j])) {
          assert tail[j] in multiset(tail);
          assert tail[j] == x || tail[j] in xs[1..];
        }
      }
    }
  }

  lemma {:induction false} SortSorts<T>(xs: seq<T>, key: T -> string)
    ensures Ascending(SortBy(xs, key), key)
    ensures multiset(SortBy(xs, key)) == multiset(xs)
  {
    if xs != [] {
      SortSorts(xs[1..], key);
      InsertSorts(xs[0], SortBy(xs[1..], key), key);
      assert xs == [xs[0]] + xs[1..];
    }
  }

  lemma HeadsAgree<T>(a: seq<T>, b: seq<T>, key: T -> string)
    requires Ascending(a, key) && Ascending(b, key) && multiset(a) == multiset(b) && a != [] && b != []
    requires DistinctKeys(a, key)
    ensures a[0] == b[0]
  {
    assert a[0] in multiset(b) && b[0] in multiset(a);
    var i :| 0 <= i < |b| && b[i] == a[0];
    var j :| 0 <= j < |a| && a[j] == b[0];
    OrderIsTotal(key(a[0]), key(b[0]));
  }

  lemma TailsAgree<T>(a: seq<T>, b: seq<T>)
    requires a != [] && b != [] && a[0] == b[0] && multiset(a) == multiset(b)
    ensures multiset(a[1..]) == multiset(b[1..])
  {
    assert a == [a[0]] + a[1..] && b == [b[0]] + b[1..];
    assert multiset(a[1..]) == multiset(a) - multiset{a[0]};
    assert multiset(b[1..]) == multiset(b) - multiset{b[0]};
  }

  /** With distinct keys there is only one ascending arrangement of the same elements. */
  lemma {:induction false} AscendingIsUnique<T>(a: seq<T>, b: seq<T>, key: T -> string)
    requires Ascending(a, key) && Ascending(b, key) && multiset(a) == multiset(b)
    requires DistinctKeys(a, key)
    ensures a == b
  {
    assert |a| == |multiset(a)| == |multiset(b)| == |b|;
    if a != [] {
      HeadsAgree(a, b, key);
      TailsAgree(a, b);
      AscendingIsUnique(a[1..], b[1..], key);
      assert a == [a[0]] + a[1..] && b == [b[0]] + b[1..];
    }
  }

  lemma KeysStayDistinct<T>(a: seq<T>, b: seq<T>, key: T -> string)
    requires DistinctKeys(a, key) && multiset(a) == multiset(b)
    ensures DistinctKeys(b, key)
  {
    forall i, j | 0 <= i < j < |b| ensures key(b[i]) != key(b[j]) {
      assert b[i] in multiset(a) && b[j] in multiset(a);
      var k :| 0 <= k < |a| && a[k] == b[i];
      var l :| 0 <= l < |a| && a[l] == b[j];
      if k == l {
        assert multiset(b)[b[i]] >= 2 by {
          assert b == b[..i] + [b[i]] + b[i + 1..j] + [b[j]] + b[j + 1..];
        }
        OnceEach(a, key, k);
      }
    }
  }

  lemma OnceEach<T>(a: seq<T>, key: T -> string, k: nat)
    requires DistinctKeys(a, key) && k < |a|
    ensures multiset(a)[a[k]] == 1
  {
    assert a == a[..k] + [a[k]] + a[k + 1..];
    assert forall i :: 0 <= i < k ==> a[i] != a[k];
    assert a[k] !in a[..k] && a[k] !in a[k + 1..];
  }

  /** Sorting by a distinct key forgets the order the elements came in, and nothing else. */
  lemma SortForgetsOrder<T>(a: seq<T>, b: seq<T>, key: T -> string)
    requires DistinctKeys(a, key)
    ensures SortBy(a, key) == SortBy(b, key) <==> multiset(a) == multiset(b)
  {
    SortSorts(a, key);
    SortSorts(b, key);
    if multiset(a) == multiset(b) {
      KeysStayDistinct(a, SortBy(a, key), key);
      AscendingIsUnique(SortBy(a, key), SortBy(b, key), key);
    }
  }
}
