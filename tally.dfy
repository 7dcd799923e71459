/**
  Python dictionaries used as counters (`d[k] = d.get(k, 0) + 1`) and the stable descending sort
  visualization.py applies to them. A dictionary keeps insertion order, so it is modelled as an
  association list of (key, count) pairs.
 */
module Tally {

  type Counter = seq<(string, nat)>

  /** `list(d.keys())` */
  function Keys(c: Counter): seq<string> {
    if c == [] then [] else [c[0].0] + Keys(c[1..])
  }

  /** `d.get(k, 0)` */
  function CountOf(c: Counter, k: string): nat {
    if c == [] then 0 else if c[0].0 == k then c[0].1 else CountOf(c[1..], k)
  }

  /** The sum of `d.values()`. */
  function Total(c: Counter): nat {
    if c == [] then 0 else c[0].1 + Total(c[1..])
  }

  /** `d[k] = d.get(k, 0) + 1`: in place when `k` is a key, appended at the end otherwise. */
  function Bump(c: Counter, k: string): Counter {
    if c == [] then [(k, 1)]
    else if c[0].0 == k then [(k, c[0].1 + 1)] + c[1..]
    else [c[0]] + Bump(c[1..], k)
  }

  /** How often `k` occurs in `items`. */
  function Occurrences(items: seq<string>, k: string): nat {
    if items == [] then 0
    else Occurrences(items[..|items| - 1], k) + (if items[|items| - 1] == k then 1 else 0)
  }

  /** The items without repeats, each where it first occurs. */
  function Distinct(items: seq<string>): seq<string> {
    if items == [] then []
    else
      var front := items[..|items| - 1];
      var last := items[|items| - 1];
      if last in front then Distinct(front) else Distinct(front) + [last]
  }

  predicate NoDuplicates(s: seq<string>) {
    forall i, j :: 0 <= i < j < |s| ==> s[i] != s[j]
  }

  /**
    `c` is the counter obtained by counting `items` in order: its keys are the distinct items
    in first-seen order, each counted as often as it occurs, and the counts add up to `|items|`.
   */
  ghost predicate IsTally(c: Counter, items: seq<string>) {
    && Keys(c) == Distinct(items)
    && (forall k :: CountOf(c, k) == Occurrences(items, k))
    && Total(c) == |items|
  }

  lemma {:induction false} BumpFacts(c: Counter, k: string)
    ensures Keys(Bump(c, k)) == if k in Keys(c) then Keys(c) else Keys(c) + [k]
    ensures forall j :: CountOf(Bump(c, k), j) == CountOf(c, j) + (if j == k then 1 else 0)
    ensures Total(Bump(c, k)) == Total(c) + 1
  {
    if c != [] && c[0].0 != k {
      BumpFacts(c[1..], k);
      assert Keys(Bump(c, k)) == [c[0].0] + Keys(Bump(c[1..], k));
    }
  }

  lemma {:induction false} DistinctMembers(items: seq<string>)
    ensures forall x :: x in Distinct(items) <==> x in items
    ensures NoDuplicates(Distinct(items))
  {
    if items != [] {
      var front := items[..|items| - 1];
      DistinctMembers(front);
      assert items == front + [items[|items| - 1]];
    }
  }

  /** Counting one more item keeps the counter a tally of the longer sequence. */
  lemma BumpTally(c: Counter, items: seq<string>, k: string)
    requires IsTally(c, items)
    ensures IsTally(Bump(c, k), items + [k])
  {
    BumpFacts(c, k);
    DistinctMembers(items);
    var longer := items + [k];
    assert longer[..|longer| - 1] == items;
    forall j
      ensures CountOf(Bump(c, k), j) == Occurrences(longer, j)
    {
    }
  }

  /** The empty counter is the tally of no items. */
  lemma EmptyTally()
    ensures IsTally([], [])
  {
  }

  /** A tally has no key twice and no zero count. */
  lemma TallyShape(c: Counter, items: seq<string>)
    requires IsTally(c, items)
    ensures NoDuplicates(Keys(c))
    ensures forall k :: k in Keys(c) <==> k in items
  {
    DistinctMembers(items);
  }

  // ---------------------------------------------------------------------------------------
  // `sorted(d.items(), key=lambda x: x[1], reverse=True)`: a stable sort by descending count.

  predicate NonIncreasing(s: Counter) {
    forall i, j :: 0 <= i < j < |s| ==> s[i].1 >= s[j].1
  }

  /** Insert `x` after every entry whose count is at least its own. */
  function InsertDesc(sorted: Counter, x: (string, nat)): Counter {
    if sorted == [] then [x]
    else if sorted[0].1 >= x.1 then [sorted[0]] + InsertDesc(sorted[1..], x)
    else [x] + sorted
  }

  /** The stable descending sort, one insertion per item in input order. */
  function SortDesc(s: Counter): Counter {
    if s == [] then [] else InsertDesc(SortDesc(s[..|s| - 1]), s[|s| - 1])
  }

  /** The entries of `s` whose count is `v`, in order. */
  function WithCount(s: Counter, v: nat): Counter {
    if s == [] then [] else (if s[0].1 == v then [s[0]] else []) + WithCount(s[1..], v)
  }

  lemma {:induction false} InsertDescMultiset(sorted: Counter, x: (string, nat))
    ensures multiset(InsertDesc(sorted, x)) == multiset(sorted) + multiset{x}
  {
    if sorted != [] && sorted[0].1 >= x.1 {
      InsertDescMultiset(sorted[1..], x);
      assert sorted == [sorted[0]] + sorted[1..];
    }
  }

  predicate AllAtMost(s: Counter, m: nat) {
    forall i :: 0 <= i < |s| ==> s[i].1 <= m
  }

  lemma {:induction false} InsertDescBounded(sorted: Counter, x: (string, nat), m: nat)
    requires AllAtMost(sorted, m) && x.1 <= m
    ensures AllAtMost(InsertDesc(sorted, x), m)
  {
    if sorted != [] && sorted[0].1 >= x.1 {
      InsertDescBounded(sorted[1..], x, m);
    }
  }

  lemma {:induction false} InsertDescSorted(sorted: Counter, x: (string, nat))
    requires NonIncreasing(sorted)
    ensures NonIncreasing(InsertDesc(sorted, x))
  {
    if sorted != [] && sorted[0].1 >= x.1 {
      var rest := sorted[1..];
      InsertDescSorted(rest, x);
      InsertDescBounded(rest, x, sorted[0].1);
      var tail := InsertDesc(rest, x);
      assert InsertDesc(sorted, x) == [sorted[0]] + tail;
    }
  }

  lemma {:induction false} InsertDescWithCount(sorted: Counter, x: (string, nat), v: nat)
    requires NonIncreasing(sorted)
    ensures WithCount(InsertDesc(sorted, x), v) == WithCount(sorted, v) + (if x.1 == v then [x] else [])
  {
    if sorted == [] {
    } else if sorted[0].1 >= x.1 {
      InsertDescWithCount(sorted[1..], x, v);
      assert ([sorted[0]] + InsertDesc(sorted[1..], x))[1..] == InsertDesc(sorted[1..], x);
    } else {
      assert ([x] + sorted)[1..] == sorted;
      if x.1 == v {
        WithCountBelow(sorted, v);
      }
    }
  }

  lemma {:induction false} WithCountBelow(s: Counter, v: nat)
    requires forall i :: 0 <= i < |s| ==> s[i].1 < v
    ensures WithCount(s, v) == []
  {
    if s != [] {
      WithCountBelow(s[1..], v);
    }
  }

  lemma {:induction false} WithCountAppend(a: Counter, b: Counter, v: nat)
    ensures WithCount(a + b, v) == WithCount(a, v) + WithCount(b, v)
  {
    if a == [] {
      assert a + b == b;
    } else {
      var head := if a[0].1 == v then [a[0]] else [];
      WithCountAppend(a[1..], b, v);
      calc {
        WithCount(a + b, v);
        { assert (a + b)[0] == a[0] && (a + b)[1..] == a[1..] + b; }
        head + WithCount(a[1..] + b, v);
        head + (WithCount(a[1..], v) + WithCount(b, v));
        (head + WithCount(a[1..], v)) + WithCount(b, v);
      }
    }
  }

  lemma {:induction false} SortDescSorted(s: Counter)
    ensures NonIncreasing(SortDesc(s))
  {
    if s != [] {
      SortDescSorted(s[..|s| - 1]);
      InsertDescSorted(SortDesc(s[..|s| - 1]), s[|s| - 1]);
    }
  }

  lemma {:induction false} SortDescPermutation(s: Counter)
    ensures multiset(SortDesc(s)) == multiset(s)
  {
    if s != [] {
      var front, last := s[..|s| - 1], s[|s| - 1];
      SortDescPermutation(front);
      InsertDescMultiset(SortDesc(front), last);
      assert s == front + [last];
    }
  }

  lemma {:induction false} SortDescStable(s: Counter, v: nat)
    ensures WithCount(SortDesc(s), v) == WithCount(s, v)
  {
    if s != [] {
      var front, last := s[..|s| - 1], s[|s| - 1];
      SortDescStable(front, v);
      SortDescSorted(front);
      InsertDescWithCount(SortDesc(front), last, v);
      assert s == front + [last];
      WithCountAppend(front, [last], v);
    }
  }

  /**
    The sort orders by non-increasing count, is a permutation, and is stable: the entries of
    any one count keep their input order.
   */
  lemma SortDescFacts(s: Counter)
    ensures NonIncreasing(SortDesc(s))
    ensures multiset(SortDesc(s)) == multiset(s)
    ensures forall v :: WithCount(SortDesc(s), v) == WithCount(s, v)
  {
    SortDescSorted(s);
    SortDescPermutation(s);
    forall v
      ensures WithCount(SortDesc(s), v) == WithCount(s, v)
    {
      SortDescStable(s, v);
    }
  }

  /** `sorted(...)[:10]`: the ten largest counts, largest first, ties in first-seen order. */
  function TopTen(c: Counter): (top: Counter)
  {
    var sorted := SortDesc(c);
    if |sorted| <= 10 then sorted else sorted[..10]
  }

  /** The top list holds at most ten entries of the counter, with non-increasing counts. */
  lemma TopTenFacts(c: Counter)
    ensures |TopTen(c)| == if |c| < 10 then |c| else 10
    ensures NonIncreasing(TopTen(c))
    ensures forall e :: e in TopTen(c) ==> e in c
    ensures forall i, e :: 0 <= i < |TopTen(c)| && e in c && e !in TopTen(c) ==> TopTen(c)[i].1 >= e.1
  {
    SortDescFacts(c);
    var sorted := SortDesc(c);
    var top := TopTen(c);
    assert |sorted| == |c| by {
      assert |multiset(sorted)| == |multiset(c)|;
    }
    assert top == sorted[..|top|];
    forall e | e in top
      ensures e in c
    {
      assert e in multiset(sorted);
    }
    forall i, e | 0 <= i < |top| && e in c && e !in top
      ensures top[i].1 >= e.1
    {
      assert e in multiset(sorted);
      var j :| 0 <= j < |sorted| && sorted[j] == e;
      assert j >= |top|;
      assert top[i] == sorted[i];
    }
  }
}
