/** Python 2's ordering of byte strings and the `sorted(d.items())` enumeration of a
    dictionary with string keys: keys in strictly increasing order, each once. */
module Sorting {

  /** `a < b` on Python strings: lexicographic by character code, a proper prefix first. */
  predicate Less(a: string, b: string)
  {
    if |a| == 0 then |b| > 0
    else if |b| == 0 then false
    else a[0] < b[0] || (a[0] == b[0] && Less(a[1..], b[1..]))
  }

  lemma {:induction false} LessIrreflexive(a: string)
    ensures !Less(a, a)
  {
    if |a| > 0 { LessIrreflexive(a[1..]); }
  }

  lemma {:induction false} LessAsymmetric(a: string, b: string)
    ensures !(Less(a, b) && Less(b, a))
  {
    if |a| > 0 && |b| > 0 && a[0] == b[0] { LessAsymmetric(a[1..], b[1..]); }
  }

  lemma {:induction false} LessTotal(a: string, b: string)
    ensures a == b || Less(a, b) || Less(b, a)
  {
    if |a| > 0 && |b| > 0 && a[0] == b[0] {
      LessTotal(a[1..], b[1..]);
      if a[1..] == b[1..] {
        assert a == [a[0]] + a[1..];
        assert b == [b[0]] + b[1..];
      }
    }
  }

  lemma {:induction false} LessTransitive(a: string, b: string, c: string)
    requires Less(a, b) && Less(b, c)
    ensures Less(a, c)
  {
    if |a| > 0 && |b| > 0 && |c| > 0 && a[0] == b[0] && b[0] == c[0] {
      LessTransitive(a[1..], b[1..], c[1..]);
    }
  }

  /** `m` is the smallest element of `s`. */
  predicate IsLeast(m: string, s: set<string>)
  {
    m in s && forall x :: x in s && x != m ==> Less(m, x)
  }

  lemma LeastExists(s: set<string>)
    requires s != {}
    ensures exists m :: IsLeast(m, s)
    decreases |s|
  {
    var x :| x in s;
    if s == {x} {
      assert IsLeast(x, s);
    } else {
      LeastExists(s - {x});
      var m :| IsLeast(m, s - {x});
      LessTotal(m, x);
      if Less(m, x) {
        assert IsLeast(m, s);
      } else {
        forall y | y in s && y != x ensures Less(x, y) {
          if y != m { LessTransitive(x, m, y); }
        }
        assert IsLeast(x, s);
      }
    }
  }

  lemma LeastUnique(s: set<string>)
    ensures forall m, n :: IsLeast(m, s) && IsLeast(n, s) ==> m == n
  {
    forall m, n | IsLeast(m, s) && IsLeast(n, s) ensures m == n {
      if m != n { LessAsymmetric(m, n); }
    }
  }

  predicate StrictlySorted(ks: seq<string>)
  {
    forall i, j :: 0 <= i < j < |ks| ==> Less(ks[i], ks[j])
  }

  /** The keys of a dictionary in the order `sorted(d.items())` visits them. */
  function SortedKeys(s: set<string>): (ks: seq<string>)
    ensures |ks| == |s|
    ensures forall k :: k in ks <==> k in s
    ensures StrictlySorted(ks)
    decreases |s|
  {
    if s == {} then []
    else
      LeastExists(s);
      LeastUnique(s);
      var m :| IsLeast(m, s);
      [m] + SortedKeys(s - {m})
  }

  /** Order independence: a strictly increasing enumeration of a set is unique, so
      however a dictionary was built, its sorted keys are `SortedKeys` of its key set. */
  lemma {:induction false} SortedUnique(ks: seq<string>, s: set<string>)
    requires StrictlySorted(ks)
    requires forall k :: k in ks <==> k in s
    ensures ks == SortedKeys(s)
    decreases |ks|
  {
    if ks == [] {
      assert s == {};
    } else {
      var m := ks[0];
      SortedHead(ks, s);
      SortedKeysHead(s, m);
      SortedUnique(ks[1..], s - {m});
    }
  }

  /** `SortedKeys` starts with the least element. */
  lemma SortedKeysHead(s: set<string>, m: string)
    requires IsLeast(m, s)
    ensures SortedKeys(s) == [m] + SortedKeys(s - {m})
  {
    LeastUnique(s);
  }

  /** The head of a strictly increasing enumeration of `s` is the least element, and
      the tail enumerates the rest. */
  lemma SortedHead(ks: seq<string>, s: set<string>)
    requires StrictlySorted(ks) && ks != []
    requires forall k :: k in ks <==> k in s
    ensures IsLeast(ks[0], s)
    ensures StrictlySorted(ks[1..])
    ensures forall k :: k in ks[1..] <==> k in s - {ks[0]}
  {
    var m := ks[0];
    forall x | x in s && x != m ensures Less(m, x) {
      var j :| 0 <= j < |ks| && ks[j] == x;
      assert j != 0;
    }
    forall k ensures k in ks[1..] <==> k in s - {m} {
      if k in ks[1..] {
        var j :| 1 <= j < |ks| && ks[j] == k;
        if k == m { LessIrreflexive(m); }
      }
      if k in s - {m} {
        var j :| 0 <= j < |ks| && ks[j] == k;
        assert j != 0;
        assert ks[1..][j - 1] == k;
      }
    }
  }

  /** `ks` with every occurrence of `k` removed. */
  function Without(ks: seq<string>, k: string): (r: seq<string>)
    ensures forall x :: x in r <==> x in ks && x != k
    ensures |r| <= |ks|
  {
    if ks == [] then []
    else if ks[0] == k then Without(ks[1..], k)
    else [ks[0]] + Without(ks[1..], k)
  }

  lemma {:induction false} WithoutKeepsOrder(ks: seq<string>, k: string)
    requires StrictlySorted(ks)
    ensures StrictlySorted(Without(ks, k))
  {
    if ks != [] {
      WithoutKeepsOrder(ks[1..], k);
      var rest := Without(ks[1..], k);
      if ks[0] != k {
        forall j | 0 <= j < |rest| ensures Less(ks[0], rest[j]) {
          assert rest[j] in ks[1..];
        }
      }
    }
  }

  /** Removing a key from a set removes it from its sorted enumeration, in place. */
  lemma SortedKeysRemove(s: set<string>, k: string)
    ensures SortedKeys(s - {k}) == Without(SortedKeys(s), k)
  {
    WithoutKeepsOrder(SortedKeys(s), k);
    SortedUnique(Without(SortedKeys(s), k), s - {k});
  }
}
