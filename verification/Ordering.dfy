/** Lexicographic string order and sorting by a string key, shared by every
    component that calls the Go `sort` package. */
module Ordering {

  datatype Option<+T> = None | Some(value: T)

  predicate StrLe(a: string, b: string) {
    |a| == 0 || (|b| != 0 && (a[0] < b[0] || (a[0] == b[0] && StrLe(a[1..], b[1..]))))
  }

  lemma {:induction false} StrLeTotal(a: string, b: string)
    ensures StrLe(a, b) || StrLe(b, a)
  {
    if |a| != 0 && |b| != 0 && a[0] == b[0] {
      StrLeTotal(a[1..], b[1..]);
    }
  }

  lemma {:induction false} StrLeAntisymmetric(a: string, b: string)
    requires StrLe(a, b) && StrLe(b, a)
    ensures a == b
  {
    if |a| != 0 {
      StrLeAntisymmetric(a[1..], b[1..]);
      assert a == [a[0]] + a[1..] && b == [b[0]] + b[1..];
    }
  }

  lemma {:induction false} StrLeTransitive(a: string, b: string, c: string)
    requires StrLe(a, b) && StrLe(b, c)
    ensures StrLe(a, c)
  {
    if |a| != 0 && a[0] == b[0] && b[0] == c[0] {
      StrLeTransitive(a[1..], b[1..], c[1..]);
    }
  }

  predicate Distinct<T(==)>(s: seq<T>) {
    forall i, j :: 0 <= i < j < |s| ==> s[i] != s[j]
  }

  predicate SortedBy<T>(s: seq<T>, key: T -> string) {
    forall i, j :: 0 <= i < j < |s| ==> StrLe(key(s[i]), key(s[j]))
  }

  /** Insertion before the first element whose key is not smaller. */
  function InsertBy<T>(x: T, s: seq<T>, key: T -> string): (r: seq<T>)
    ensures multiset(r) == multiset(s) + multiset{x}
  {
    if |s| == 0 then [x]
    else if StrLe(key(x), key(s[0])) then [x] + s
    else
      var r := [s[0]] + InsertBy(x, s[1..], key);
      assert s == [s[0]] + s[1..];
      r
  }

  lemma {:induction false} InsertKeepsSorted<T>(x: T, s: seq<T>, key: T -> string)
    requires SortedBy(s, key)
    ensures SortedBy(InsertBy(x, s, key), key)
  {
    if |s| == 0 {
    } else if StrLe(key(x), key(s[0])) {
      forall j | 0 <= j < |s| ensures StrLe(key(x), key(s[j])) {
        if j > 0 { StrLeTransitive(key(x), key(s[0]), key(s[j])); }
      }
    } else {
      InsertKeepsSorted(x, s[1..], key);
      StrLeTotal(key(x), key(s[0]));
      var t := InsertBy(x, s[1..], key);
      forall j | 0 <= j < |t| ensures StrLe(key(s[0]), key(t[j])) {
        assert t[j] in multiset(t);
        if t[j] != x {
          assert t[j] in multiset(s[1..]);
          var k :| 0 <= k < |s[1..]| && s[1..][k] == t[j];
          assert s[k + 1] == t[j];
        }
      }
    }
  }

  function SortBy<T>(s: seq<T>, key: T -> string): (r: seq<T>)
    ensures multiset(r) == multiset(s)
    ensures |r| == |s|
  {
    if |s| == 0 then []
    else
      assert s == [s[0]] + s[1..];
      var r := InsertBy(s[0], SortBy(s[1..], key), key);
      assert |multiset(r)| == |multiset(s)|;
      r
  }

  lemma {:induction false} SortBySorts<T>(s: seq<T>, key: T -> string)
    ensures SortedBy(SortBy(s, key), key)
  {
    if |s| != 0 {
      SortBySorts(s[1..], key);
      InsertKeepsSorted(s[0], SortBy(s[1..], key), key);
    }
  }

  predicate KeyIdentifies<T(==)>(s: seq<T>, key: T -> string) {
    forall i, j :: 0 <= i < j < |s| && key(s[i]) == key(s[j]) ==> s[i] == s[j]
  }

  lemma SortedHeadsAgree<T>(a: seq<T>, b: seq<T>, key: T -> string)
    requires |a| != 0 && multiset(a) == multiset(b)
    requires SortedBy(a, key) && SortedBy(b, key) && KeyIdentifies(a, key)
    ensures |b| != 0 && a[0] == b[0]
  {
    assert a[0] in multiset(b);
    var i :| 0 <= i < |b| && b[i] == a[0];
    assert b[0] in multiset(a);
    var j :| 0 <= j < |a| && a[j] == b[0];
    if i != 0 && j != 0 {
      StrLeAntisymmetric(key(a[0]), key(b[0]));
    }
  }

  lemma WithoutHead<T>(s: seq<T>)
    requires |s| > 0
    ensures s == [s[0]] + s[1..] && multiset(s[1..]) == multiset(s) - multiset{s[0]}
  {
    assert s == [s[0]] + s[1..];
  }

  /** A sorted list whose keys identify its elements is determined by its contents. */
  lemma {:induction false} SortedIsUnique<T>(a: seq<T>, b: seq<T>, key: T -> string)
    requires multiset(a) == multiset(b)
    requires SortedBy(a, key) && SortedBy(b, key) && KeyIdentifies(a, key)
    ensures a == b
  {
    assert |multiset(a)| == |multiset(b)|;
    if |a| != 0 {
      SortedHeadsAgree(a, b, key);
      WithoutHead(a);
      WithoutHead(b);
      SortedIsUnique(a[1..], b[1..], key);
    }
  }

  function Self(s: string): string { s }

  /** Sorting strings gives the same list for every permutation of the input. */
  lemma SortStringsIsPermutationInvariant(a: seq<string>, b: seq<string>)
    requires multiset(a) == multiset(b)
    ensures SortBy(a, Self) == SortBy(b, Self)
  {
    SortBySorts(a, Self);
    SortBySorts(b, Self);
    SortedIsUnique(SortBy(a, Self), SortBy(b, Self), Self);
  }

  lemma {:induction false} DistinctIsMultiplicityOne<T>(s: seq<T>)
    ensures Distinct(s) <==> forall x :: x in multiset(s) ==> multiset(s)[x] == 1
  {
    if |s| != 0 {
      var t := s[1..];
      assert s == [s[0]] + t;
      assert multiset(s) == multiset{s[0]} + multiset(t);
      DistinctIsMultiplicityOne(t);
      if Distinct(s) {
        assert Distinct(t);
        assert s[0] !in t;
      }
      if forall x :: x in multiset(s) ==> multiset(s)[x] == 1 {
        assert s[0] in multiset(s);
        assert s[0] !in multiset(t);
        forall x | x in multiset(t) ensures multiset(t)[x] == 1 { assert x in multiset(s); }
        forall i, j | 0 <= i < j < |s| ensures s[i] != s[j] {
          if i == 0 { assert s[j] == t[j - 1]; assert t[j - 1] in multiset(t); }
          else { assert s[i] == t[i - 1] && s[j] == t[j - 1]; }
        }
      }
    }
  }

  lemma PermutationKeepsDistinct<T>(a: seq<T>, b: seq<T>)
    requires multiset(a) == multiset(b)
    ensures Distinct(a) == Distinct(b)
    ensures |a| == |b|
    ensures forall x :: x in a <==> x in b
  {
    DistinctIsMultiplicityOne(a);
    DistinctIsMultiplicityOne(b);
    assert |multiset(a)| == |multiset(b)|;
    forall x ensures x in a <==> x in b {
      assert x in a <==> x in multiset(a);
      assert x in b <==> x in multiset(b);
    }
  }
}
