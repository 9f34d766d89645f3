// Strings in code-point order, and the sorted listing of a set of them.
module Lexicographic {

  predicate Leq(a: string, b: string) {
    a == [] || (b != [] && (a[0] < b[0] || (a[0] == b[0] && Leq(a[1..], b[1..]))))
  }

  lemma {:induction false} Total(a: string, b: string)
    ensures Leq(a, b) || Leq(b, a)
  {
    if a != [] && b != [] && a[0] == b[0] {
      Total(a[1..], b[1..]);
    }
  }

  lemma {:induction false} Antisymmetric(a: string, b: string)
    requires Leq(a, b) && Leq(b, a)
    ensures a == b
  {
    if a != [] {
      Antisymmetric(a[1..], b[1..]);
      assert a == [a[0]] + a[1..] && b == [b[0]] + b[1..];
    }
  }

  lemma {:induction false} Transitive(a: string, b: string, c: string)
    requires Leq(a, b) && Leq(b, c)
    ensures Leq(a, c)
  {
    if a != [] && a[0] == b[0] == c[0] {
      Transitive(a[1..], b[1..], c[1..]);
    }
  }

  predicate IsLeast(k: string, keys: set<string>) {
    k in keys && forall j :: j in keys ==> Leq(k, j)
  }

  lemma {:induction false} LeastExists(keys: set<string>)
    requires keys != {}
    ensures exists k :: IsLeast(k, keys)
    decreases |keys|
  {
    var x :| x in keys;
    var rest := keys - {x};
    Total(x, x);
    if rest == {} {
      assert keys == {x};
      assert IsLeast(x, keys);
    } else {
      LeastExists(rest);
      var y :| IsLeast(y, rest);
      Total(x, y);
      if Leq(x, y) {
        forall j | j in keys
          ensures Leq(x, j)
        {
          if j != x {
            Transitive(x, y, j);
          }
        }
        assert IsLeast(x, keys);
      } else {
        assert IsLeast(y, keys);
      }
    }
  }

  lemma LeastUnique(j: string, k: string, keys: set<string>)
    requires IsLeast(j, keys) && IsLeast(k, keys)
    ensures j == k
  {
    Antisymmetric(j, k);
  }

  /** The keys in increasing order. */
  function Sorted(keys: set<string>): (s: seq<string>)
    ensures forall k :: k in keys <==> k in s
    ensures |s| == |keys|
    decreases |keys|
  {
    if keys == {} then []
    else
      LeastExists(keys);
      assert forall j, k :: IsLeast(j, keys) && IsLeast(k, keys) ==> j == k by {
        forall j, k | IsLeast(j, keys) && IsLeast(k, keys)
          ensures j == k
        {
          LeastUnique(j, k, keys);
        }
      }
      var k :| IsLeast(k, keys);
      [k] + Sorted(keys - {k})
  }

  lemma SortedHead(keys: set<string>)
    requires keys != {}
    ensures var s := Sorted(keys); IsLeast(s[0], keys) && s[1..] == Sorted(keys - {s[0]})
  {
    LeastExists(keys);
    var k :| IsLeast(k, keys);
    forall j | IsLeast(j, keys)
      ensures j == k
    {
      LeastUnique(j, k, keys);
    }
    assert Sorted(keys) == [k] + Sorted(keys - {k});
  }

  /** The listing is strictly increasing. */
  lemma {:induction false} SortedIncreases(keys: set<string>, s: seq<string>, i: nat, j: nat)
    requires s == Sorted(keys) && i < j < |s|
    ensures Leq(s[i], s[j]) && s[i] != s[j]
    decreases |keys|
  {
    SortedHead(keys);
    var head, rest := s[0], s[1..];
    if i == 0 {
      assert rest[j - 1] in rest;
      assert rest[j - 1] in keys - {head};
    } else {
      SortedIncreases(keys - {head}, rest, i - 1, j - 1);
    }
  }
}
