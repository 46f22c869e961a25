/**
 The ordering JavaScript's default `Array.prototype.sort()` uses for strings
 (lexicographic comparison, character by character, a proper prefix first),
 and a sort that produces a sorted permutation under it.
 */
module StringSort {

  /** `a` sorts no later than `b` under the default string comparison. */
  predicate StrLe(a: string, b: string)
  {
    if |a| == 0 then true
    else if |b| == 0 then false
    else if a[0] < b[0] then true
    else if a[0] > b[0] then false
    else StrLe(a[1..], b[1..])
  }

  lemma {:induction false} StrLeReflexive(a: string)
    ensures StrLe(a, a)
  {
    if |a| > 0 {
      StrLeReflexive(a[1..]);
    }
  }

  lemma {:induction false} StrLeTotal(a: string, b: string)
    ensures StrLe(a, b) || StrLe(b, a)
  {
    if |a| > 0 && |b| > 0 && a[0] == b[0] {
      StrLeTotal(a[1..], b[1..]);
    }
  }

  lemma {:induction false} StrLeTransitive(a: string, b: string, c: string)
    requires StrLe(a, b) && StrLe(b, c)
    ensures StrLe(a, c)
  {
    if |a| > 0 && |b| > 0 && |c| > 0 && a[0] == b[0] == c[0] {
      StrLeTransitive(a[1..], b[1..], c[1..]);
    }
  }

  lemma {:induction false} StrLeAntisymmetric(a: string, b: string)
    requires StrLe(a, b) && StrLe(b, a)
    ensures a == b
  {
    if |a| > 0 && |b| > 0 {
      StrLeAntisymmetric(a[1..], b[1..]);
      assert a == [a[0]] + a[1..];
      assert b == [b[0]] + b[1..];
    }
  }

  /** Ascending under `StrLe`. */
  ghost predicate Sorted(s: seq<string>)
  {
    forall i, j :: 0 <= i < j < |s| ==> StrLe(s[i], s[j])
  }

  /** Ascending with no two entries equal. */
  ghost predicate StrictlySorted(s: seq<string>)
  {
    forall i, j :: 0 <= i < j < |s| ==> StrLe(s[i], s[j]) && s[i] != s[j]
  }

  ghost predicate NoDuplicates(s: seq<string>)
  {
    forall i, j :: 0 <= i < j < |s| ==> s[i] != s[j]
  }

  /** A string that sorts no later than the head of a sorted list sorts no later than all of it. */
  lemma LeHeadLeAll(x: string, s: seq<string>)
    requires Sorted(s) && |s| > 0 && StrLe(x, s[0])
    ensures forall k :: 0 <= k < |s| ==> StrLe(x, s[k])
  {
    forall k | 0 <= k < |s|
      ensures StrLe(x, s[k])
    {
      if k > 0 {
        StrLeTransitive(x, s[0], s[k]);
      }
    }
  }

  /** Insertion of `x` into a sorted list. */
  function Insert(x: string, s: seq<string>): (r: seq<string>)
    requires Sorted(s)
    ensures Sorted(r)
    ensures multiset(r) == multiset(s) + multiset{x}
    ensures |r| == |s| + 1
  {
    if s == [] then [x]
    else if StrLe(x, s[0]) then
      LeHeadLeAll(x, s);
      [x] + s
    else
      StrLeTotal(x, s[0]);
      var rest := Insert(x, s[1..]);
      assert s == [s[0]] + s[1..];
      assert forall k :: 0 <= k < |rest| ==> StrLe(s[0], rest[k]) by {
        forall k | 0 <= k < |rest|
          ensures StrLe(s[0], rest[k])
        {
          assert rest[k] in multiset(rest);
          assert rest[k] == x || rest[k] in multiset(s[1..]);
          if rest[k] != x {
            var m :| 0 <= m < |s[1..]| && s[1..][m] == rest[k];
            assert s[m + 1] == rest[k];
          }
        }
      }
      [s[0]] + rest
  }

  /** The model of `Array.prototype.sort()` on strings: a sorted permutation of the input. */
  function SortStrings(s: seq<string>): (r: seq<string>)
    ensures Sorted(r)
    ensures multiset(r) == multiset(s)
    ensures |r| == |s|
  {
    if s == [] then []
    else
      assert s == [s[0]] + s[1..];
      Insert(s[0], SortStrings(s[1..]))
  }

  /** A list has no duplicates exactly when no string occurs in it more than once. */
  lemma {:induction false} NoDuplicatesIffSingleOccurrences(s: seq<string>)
    ensures NoDuplicates(s) <==> forall x :: multiset(s)[x] <= 1
  {
    if s != [] {
      var t := s[1..];
      assert s == [s[0]] + t;
      NoDuplicatesIffSingleOccurrences(t);
      if NoDuplicates(s) {
        assert NoDuplicates(t) by {
          forall i, j | 0 <= i < j < |t| ensures t[i] != t[j] {
            assert s[i + 1] == t[i] && s[j + 1] == t[j];
          }
        }
        assert s[0] !in t;
        forall x ensures multiset(s)[x] <= 1 {
          assert multiset(s)[x] == multiset{s[0]}[x] + multiset(t)[x];
        }
      } else {
        var i, j :| 0 <= i < j < |s| && s[i] == s[j];
        if i == 0 {
          assert s[0] in multiset(t) by { assert t[j - 1] == s[0]; }
          assert multiset(s)[s[0]] == 1 + multiset(t)[s[0]];
        } else {
          assert t[i - 1] == t[j - 1];
          assert !NoDuplicates(t);
          var y :| multiset(t)[y] > 1;
          assert multiset(s)[y] == multiset{s[0]}[y] + multiset(t)[y];
        }
      }
    }
  }

  /** Sorting keeps a duplicate-free list duplicate-free, and then the order is strict. */
  lemma SortKeepsDistinct(s: seq<string>, r: seq<string>)
    requires NoDuplicates(s)
    requires Sorted(r) && multiset(r) == multiset(s)
    ensures StrictlySorted(r)
  {
    NoDuplicatesIffSingleOccurrences(s);
    NoDuplicatesIffSingleOccurrences(r);
  }

  /**
   Two strictly sorted lists with the same members are the same list: the sorted
   result depends only on which strings occur, not on their input order.
   */
  lemma {:induction false} StrictlySortedUnique(a: seq<string>, b: seq<string>)
    requires StrictlySorted(a) && StrictlySorted(b)
    requires forall x :: x in a <==> x in b
    ensures a == b
  {
    assert a != [] ==> a[0] in a;
    assert b != [] ==> b[0] in b;
    if a != [] && b != [] {
      assert a[0] in b;
      assert b[0] in a;
      var i :| 0 <= i < |b| && b[i] == a[0];
      var j :| 0 <= j < |a| && a[j] == b[0];
      if a[0] != b[0] {
        assert i > 0 && j > 0;
        assert StrLe(b[0], b[i]) && StrLe(a[0], a[j]);
        StrLeAntisymmetric(a[0], b[0]);
      }
      var a', b' := a[1..], b[1..];
      forall x
        ensures x in a' <==> x in b'
      {
        if x in a' {
          var k :| 0 <= k < |a'| && a'[k] == x;
          assert a[k + 1] == x && x != a[0] && x in b;
          var m :| 0 <= m < |b| && b[m] == x;
          assert m != 0 && b'[m - 1] == x;
        }
        if x in b' {
          var k :| 0 <= k < |b'| && b'[k] == x;
          assert b[k + 1] == x && x != b[0] && x in a;
          var m :| 0 <= m < |a| && a[m] == x;
          assert m != 0 && a'[m - 1] == x;
        }
      }
      StrictlySortedUnique(a', b');
      assert a == [a[0]] + a' && b == [b[0]] + b';
    }
  }
}
