/**
 * `BTreeSet<String>` as the sequence it iterates in: strictly increasing under
 * the byte-wise order of strings.
 */
module SortedSets {
  import opened Wrappers
  import opened Strings

  /** Strictly increasing: every element is below every later one. */
  predicate Sorted(s: seq<string>) {
    forall i, j :: 0 <= i < j < |s| ==> LexLe(s[i], s[j]) && s[i] != s[j]
  }

  /** `BTreeSet::insert`: `x` goes in its place, unless it is already there. */
  function Insert(s: seq<string>, x: string): seq<string>
    decreases |s|
  {
    if s == [] then [x]
    else if x == s[0] then s
    else if LexLe(x, s[0]) then [x] + s
    else [s[0]] + Insert(s[1..], x)
  }

  /** Inserting adds exactly `x` and keeps the set ordered. */
  lemma {:induction false} InsertSorted(s: seq<string>, x: string)
    requires Sorted(s)
    decreases |s|
    ensures Sorted(Insert(s, x))
    ensures forall y :: y in Insert(s, x) <==> y in s || y == x
  {
    if s != [] && x != s[0] {
      if LexLe(x, s[0]) {
        forall j | 0 <= j < |s| ensures LexLe(x, s[j]) && x != s[j] {
          if j > 0 {
            LexLeTransitive(x, s[0], s[j]);
            if x == s[j] {
              LexLeAntisymmetric(s[0], x);
            }
          }
        }
        assert Sorted([x] + s);
      } else {
        LexLeTotal(x, s[0]);
        InsertSorted(s[1..], x);
        var rest := Insert(s[1..], x);
        forall y | y in rest ensures LexLe(s[0], y) && s[0] != y {
          if y != x {
            var j :| 0 <= j < |s[1..]| && s[1..][j] == y;
            assert s[j + 1] == y;
          }
        }
        var r := [s[0]] + rest;
        forall i, j | 0 <= i < j < |r| ensures LexLe(r[i], r[j]) && r[i] != r[j] {
          if i == 0 {
            assert r[j] in rest;
          } else {
            assert r[i] == rest[i - 1] && r[j] == rest[j - 1];
          }
        }
        forall y ensures y in r <==> y in s || y == x {
          assert s == [s[0]] + s[1..];
        }
      }
    }
  }

  /** `collect::<BTreeSet<_>>()`: the elements inserted one by one, from the first. */
  function FromSeq(xs: seq<string>): seq<string>
    decreases |xs|
  {
    if xs == [] then [] else Insert(FromSeq(xs[..|xs| - 1]), xs[|xs| - 1])
  }

  /** The collected set is ordered and holds exactly the given elements. */
  lemma {:induction false} FromSeqSorted(xs: seq<string>)
    decreases |xs|
    ensures Sorted(FromSeq(xs))
    ensures forall y :: y in FromSeq(xs) <==> y in xs
  {
    if xs != [] {
      var init := xs[..|xs| - 1];
      FromSeqSorted(init);
      InsertSorted(FromSeq(init), xs[|xs| - 1]);
      assert xs == init + [xs[|xs| - 1]];
    }
  }

  /** The first element of an ordered set is below all its elements. */
  lemma FirstIsLeast(s: seq<string>)
    requires Sorted(s) && s != []
    ensures forall y :: y in s ==> LexLe(s[0], y)
  {
    forall y | y in s ensures LexLe(s[0], y) {
      var j :| 0 <= j < |s| && s[j] == y;
      if j == 0 {
        LexLeTotal(y, y);
      }
    }
  }

  /** Two ordered sets with the same elements are the same sequence. */
  lemma {:induction false} SortedUnique(a: seq<string>, b: seq<string>)
    requires Sorted(a) && Sorted(b)
    requires forall y :: y in a <==> y in b
    decreases |a|
    ensures a == b
  {
    if a != [] {
      assert a[0] in b;
    }
    if b != [] {
      assert b[0] in a;
    }
    if a != [] && b != [] {
      FirstIsLeast(a);
      FirstIsLeast(b);
      LexLeAntisymmetric(a[0], b[0]);
      forall y ensures y in a[1..] <==> y in b[1..] {
        if y in a[1..] {
          var j :| 0 <= j < |a[1..]| && a[1..][j] == y;
          assert a[j + 1] == y && a[0] != y;
          assert y in b;
          var k :| 0 <= k < |b| && b[k] == y;
          assert k != 0;
          assert b[1..][k - 1] == y;
        }
        if y in b[1..] {
          var j :| 0 <= j < |b[1..]| && b[1..][j] == y;
          assert b[j + 1] == y && b[0] != y;
          assert y in a;
          var k :| 0 <= k < |a| && a[k] == y;
          assert k != 0;
          assert a[1..][k - 1] == y;
        }
      }
      SortedUnique(a[1..], b[1..]);
      assert a == [a[0]] + a[1..] && b == [b[0]] + b[1..];
    }
  }

  /** `BTreeSet::take`: the element, if present, and the set without it. */
  function Take(s: seq<string>, x: string): (r: (Option<string>, seq<string>))
    ensures r.0 == (if x in s then Some(x) else None)
    ensures forall y :: y in r.1 <==> y in s && y != x
    ensures Sorted(s) ==> Sorted(r.1)
  {
    if x in s then (Some(x), Without(s, x)) else (None, s)
  }

  function Without(s: seq<string>, x: string): (r: seq<string>)
    ensures forall y :: y in r <==> y in s && y != x
    ensures Sorted(s) ==> Sorted(r)
    decreases |s|
  {
    if s == [] then []
    else
      var rest := Without(s[1..], x);
      assert forall y :: y in s[1..] ==> y in s;
      if s[0] == x then rest
      else
        assert Sorted(s) ==> forall y :: y in rest ==> LexLe(s[0], y) && s[0] != y by {
          if Sorted(s) {
            forall y | y in rest ensures LexLe(s[0], y) && s[0] != y {
              var j :| 0 <= j < |s[1..]| && s[1..][j] == y;
              assert s[j + 1] == y;
            }
          }
        }
        assert Sorted(s) ==> Sorted(s[1..]) by {
          if Sorted(s) {
            forall i, j | 0 <= i < j < |s[1..]| ensures LexLe(s[1..][i], s[1..][j]) && s[1..][i] != s[1..][j] {
              assert s[1..][i] == s[i + 1] && s[1..][j] == s[j + 1];
            }
          }
        }
        [s[0]] + rest
  }

  /** `m` is the smallest element of `s`. */
  predicate IsLeast(m: string, s: set<string>) {
    m in s && forall y :: y in s ==> LexLe(m, y)
  }

  lemma {:induction false} LeastExists(s: set<string>)
    requires s != {}
    decreases |s|
    ensures exists m :: IsLeast(m, s)
  {
    var x :| x in s;
    LexLeTotal(x, x);
    if s - {x} != {} {
      LeastExists(s - {x});
      var m :| IsLeast(m, s - {x});
      LexLeTotal(x, m);
      if LexLe(x, m) {
        forall y | y in s ensures LexLe(x, y) {
          if y != x {
            LexLeTransitive(x, m, y);
          }
        }
        assert IsLeast(x, s);
      } else {
        assert IsLeast(m, s);
      }
    } else {
      forall y | y in s ensures LexLe(x, y) {
        assert y !in s - {x};
      }
      assert IsLeast(x, s);
    }
  }

  lemma LeastUnique(s: set<string>)
    ensures forall a, b :: IsLeast(a, s) && IsLeast(b, s) ==> a == b
  {
    forall a, b | IsLeast(a, s) && IsLeast(b, s) ensures a == b {
      LexLeAntisymmetric(a, b);
    }
  }

  /** The keys of a `BTreeMap` as its iterator yields them: the set, in order. */
  function OfSet(s: set<string>): (r: seq<string>)
    decreases |s|
  {
    if s == {} then []
    else
      LeastExists(s);
      LeastUnique(s);
      var m :| IsLeast(m, s);
      [m] + OfSet(s - {m})
  }

  /** The ordered keys are ordered, and are exactly the set. */
  lemma {:induction false} OfSetSorted(s: set<string>)
    decreases |s|
    ensures Sorted(OfSet(s))
    ensures forall y :: y in OfSet(s) <==> y in s
  {
    if s != {} {
      LeastExists(s);
      LeastUnique(s);
      var m :| IsLeast(m, s);
      var rest := OfSet(s - {m});
      OfSetSorted(s - {m});
      assert OfSet(s) == [m] + rest;
      var r := [m] + rest;
      forall i, j | 0 <= i < j < |r| ensures LexLe(r[i], r[j]) && r[i] != r[j] {
        if i == 0 {
          assert r[j] in rest;
        } else {
          assert r[i] == rest[i - 1] && r[j] == rest[j - 1];
        }
      }
    }
  }
}
