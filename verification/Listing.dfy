/** Names in byte order, as directory reads and sorts deliver them (cmd/agent/gen.go:370-386, cmd/agent/manifest.go:118-138). */
module Listing {

  type Name = seq<int>

  /** Byte-wise lexicographic order. */
  predicate Below(a: Name, b: Name) {
    b != [] && (a == [] || a[0] < b[0] || (a[0] == b[0] && Below(a[1..], b[1..])))
  }

  lemma {:induction false} BelowIsTransitive(a: Name, b: Name, c: Name)
    requires Below(a, b) && Below(b, c)
    ensures Below(a, c)
  {
    if a != [] && a[0] == b[0] == c[0] {
      BelowIsTransitive(a[1..], b[1..], c[1..]);
    }
  }

  lemma {:induction false} BelowIsIrreflexive(a: Name)
    ensures !Below(a, a)
  {
    if a != [] {
      BelowIsIrreflexive(a[1..]);
    }
  }

  lemma {:induction false} BelowIsTotal(a: Name, b: Name)
    requires a != b
    ensures Below(a, b) || Below(b, a)
  {
    if a != [] && b != [] && a[0] == b[0] {
      assert a == [a[0]] + a[1..] && b == [b[0]] + b[1..];
      BelowIsTotal(a[1..], b[1..]);
    }
  }

  predicate Ascending(s: seq<Name>) {
    forall i, j :: 0 <= i < j < |s| ==> Below(s[i], s[j])
  }

  predicate Least(m: Name, s: set<Name>) {
    m in s && forall x :: x in s && x != m ==> Below(m, x)
  }

  lemma {:induction false} LeastExists(s: set<Name>)
    requires s != {}
    ensures exists m :: Least(m, s)
  {
    var x :| x in s;
    if s == {x} {
      assert Least(x, s);
    } else {
      var rest := s - {x};
      LeastExists(rest);
      var m :| Least(m, rest);
      BelowIsTotal(m, x);
      if Below(m, x) {
        assert Least(m, s);
      } else {
        forall y | y in s && y != x ensures Below(x, y) {
          if y != m {
            BelowIsTransitive(x, m, y);
          }
        }
        assert Least(x, s);
      }
    }
  }

  lemma LeastIsUnique(s: set<Name>)
    ensures forall a, b :: Least(a, s) && Least(b, s) ==> a == b
  {
    forall a, b | Least(a, s) && Least(b, s) ensures a == b {
      if a != b {
        BelowIsTransitive(a, b, a);
        BelowIsIrreflexive(a);
      }
    }
  }

  function Sorted(s: set<Name>): seq<Name> {
    if s == {} then []
    else
      LeastExists(s);
      LeastIsUnique(s);
      var m :| m in s && Least(m, s);
      [m] + Sorted(s - {m})
  }

  /** A sorted set lists its members, each once, in order. */
  lemma {:induction false} SortedLists(s: set<Name>)
    ensures Ascending(Sorted(s)) && |Sorted(s)| == |s|
    ensures forall x :: x in Sorted(s) <==> x in s
  {
    if s != {} {
      var m := Sorted(s)[0];
      LeastExists(s);
      assert Least(m, s) && Sorted(s) == [m] + Sorted(s - {m});
      SortedLists(s - {m});
    }
  }

  lemma AscendingNamesDiffer(s: seq<Name>)
    requires Ascending(s)
    ensures forall i, j :: 0 <= i < |s| && 0 <= j < |s| && s[i] == s[j] ==> i == j
  {
    forall i, j | 0 <= i < j < |s| ensures s[i] != s[j] {
      BelowIsIrreflexive(s[i]);
    }
  }

  /** There is only one ascending list of a set. */
  lemma {:induction false} SortedIsUnique(s: set<Name>, names: seq<Name>)
    requires Ascending(names) && forall x :: x in names <==> x in s
    ensures Sorted(s) == names
  {
    if names == [] {
      assert s == {};
    } else {
      assert names[0] in s;
      LeastExists(s);
      LeastIsUnique(s);
      AscendingNamesDiffer(names);
      assert Least(names[0], s);
      var rest := s - {names[0]};
      forall x ensures x in names[1..] <==> x in rest {
        if x in rest {
          var i :| 0 <= i < |names| && names[i] == x;
          assert names[1..][i - 1] == x;
        }
      }
      SortedIsUnique(rest, names[1..]);
    }
  }
}
