/** Observations offered one after the other to a store that keeps each once: the
    submission loops of the two collectors. */
module Storing {
  import opened Ordering

  /** A submission that works, or fails before or after its row is durable. */
  datatype Put = Works | FailsBefore | FailsAfter

  /** The first n elements, as a set. */
  function Elements<T>(s: seq<T>, n: nat): set<T>
    requires n <= |s|
    decreases n
  {
    if n == 0 then {} else Elements(s, n - 1) + {s[n - 1]}
  }

  lemma {:induction false} ElementsMember<T>(s: seq<T>, n: nat, x: T)
    requires n <= |s|
    ensures x in Elements(s, n) <==> exists i :: 0 <= i < n && s[i] == x
    decreases n
  {
    if n != 0 { ElementsMember(s, n - 1, x); }
  }

  lemma {:induction false} ElementsGrow<T>(s: seq<T>, m: nat, n: nat)
    requires m <= n <= |s|
    ensures Elements(s, m) <= Elements(s, n)
    decreases n
  {
    if m < n { ElementsGrow(s, m, n - 1); }
  }

  lemma {:induction false} DistinctElements<T>(s: seq<T>, n: nat)
    requires Distinct(s) && n <= |s|
    ensures |Elements(s, n)| == n
    decreases n
  {
    if n != 0 {
      DistinctElements(s, n - 1);
      ElementsMember(s, n - 1, s[n - 1]);
    }
  }

  lemma CountNew<T>(before: set<T>, seen: set<T>, x: T)
    ensures |(seen + {x}) - before| == |seen - before| + if x in before + seen then 0 else 1
  {
    if x in before + seen { assert (seen + {x}) - before == seen - before; }
    else { assert (seen + {x}) - before == (seen - before) + {x}; }
  }

  lemma SplitByOld<T>(all: set<T>, before: set<T>)
    ensures |all| == |all - before| + |all * before|
  {
    assert all == (all - before) + (all * before);
  }

  /** How many of the first n offers are new when they come. */
  function New<T(==)>(before: set<T>, wanted: seq<T>, n: nat): nat
    requires n <= |wanted|
    decreases n
  {
    if n == 0 then 0 else New(before, wanted, n - 1) + if wanted[n - 1] in before + Elements(wanted, n - 1) then 0
      else 1
  }

  lemma {:induction false} NewIsCount<T>(before: set<T>, wanted: seq<T>, n: nat)
    requires n <= |wanted|
    ensures New(before, wanted, n) == |Elements(wanted, n) - before|
    decreases n
  {
    if n != 0 {
      NewIsCount(before, wanted, n - 1);
      CountNew(before, Elements(wanted, n - 1), wanted[n - 1]);
    }
  }

  datatype Stored<T> = Stored(rows: set<T>, inserted: nat, deduplicated: nat, ok: bool)

  /** Everything has been offered: what was new is counted as inserted. */
  ghost predicate AllOffered<T>(before: set<T>, wanted: seq<T>, r: Stored<T>) {
    && r.rows == before + Elements(wanted, |wanted|) && r.inserted + r.deduplicated == |wanted|
    && r.inserted == |Elements(wanted, |wanted|) - before|
  }

  /** The loop stops at the first failure, whose row may have been stored; without one,
      all is stored and counted. */
  method OfferAll<T(==)>(before: set<T>, wanted: seq<T>, put: nat -> Put) returns (r: Stored<T>)
    ensures r.ok <==> forall i :: 0 <= i < |wanted| ==> put(i) == Works
    ensures before <= r.rows <= before + Elements(wanted, |wanted|)
    ensures r.ok ==> AllOffered(before, wanted, r)
  {
    var rows, inserted, deduplicated := before, 0, 0;
    for i := 0 to |wanted|
      invariant inserted + deduplicated == i && inserted == New(before, wanted, i)
      invariant forall j :: 0 <= j < i ==> put(j) == Works
      invariant rows == before + Elements(wanted, i)
    {
      ElementsGrow(wanted, i, |wanted|);
      ElementsGrow(wanted, i + 1, |wanted|);
      if put(i) == FailsBefore { return Stored(rows, inserted, deduplicated, false); }
      var known := wanted[i] in rows;
      rows := rows + {wanted[i]};
      if put(i) == FailsAfter { return Stored(rows, inserted, deduplicated, false); }
      if known { deduplicated := deduplicated + 1; } else { inserted := inserted + 1; }
    }
    NewIsCount(before, wanted, |wanted|);
    return Stored(rows, inserted, deduplicated, true);
  }

  /** For distinct offers, the rest were there before. */
  lemma OfferedOnce<T>(before: set<T>, wanted: seq<T>, r: Stored<T>)
    requires Distinct(wanted) && AllOffered(before, wanted, r)
    ensures r.deduplicated == |Elements(wanted, |wanted|) * before|
  {
    DistinctElements(wanted, |wanted|);
    SplitByOld(Elements(wanted, |wanted|), before);
  }
}
