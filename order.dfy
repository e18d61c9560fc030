/** The comparator both list commands hand to `Array.prototype.sort`: the status rank first,
    then ascending `daysUntilDue` when both tickets have one, otherwise a tie. The engine's
    sort is stable, so it is modelled by a stable insertion sort. */
module Ordering {
  import opened Wrappers

  /** What the comparator looks at: the status rank and the optional day count. */
  datatype SortKey = SortKey(rank: nat, days: Option<int>)

  /** `statusOrder[a.status] - statusOrder[b.status]`, then `a.daysUntilDue - b.daysUntilDue`. */
  function Compare(a: SortKey, b: SortKey): int {
    if a.rank != b.rank then a.rank - b.rank
    else if a.days.Some? && b.days.Some? then a.days.value - b.days.value
    else 0
  }

  /** Swapping the arguments negates the comparison. */
  lemma CompareAntisymmetric(a: SortKey, b: SortKey)
    ensures Compare(a, b) == -Compare(b, a)
  {
  }

  /** Every neighbouring pair is in comparator order. */
  predicate AdjacentOrdered<T>(s: seq<T>, key: T -> SortKey) {
    forall i :: 0 <= i < |s| - 1 ==> Compare(key(s[i]), key(s[i + 1])) <= 0
  }

  /** Puts `x` after the last element that does not compare above it. */
  function Insert<T>(s: seq<T>, x: T, key: T -> SortKey): (r: seq<T>)
    ensures |r| == |s| + 1
    ensures multiset(r) == multiset(s) + multiset{x}
    ensures r[|r| - 1] == x || (s != [] && r[|r| - 1] == s[|s| - 1])
    decreases |s|
  {
    if s == [] || Compare(key(s[|s| - 1]), key(x)) <= 0 then s + [x]
    else
      var init := s[..|s| - 1];
      assert s == init + [s[|s| - 1]];
      Insert(init, x, key) + [s[|s| - 1]]
  }

  /** `[...tickets].sort(cmp)`: a sorted copy; the input sequence itself is a value and stays as it was. */
  function Sort<T>(xs: seq<T>, key: T -> SortKey): (r: seq<T>)
    ensures |r| == |xs|
    ensures multiset(r) == multiset(xs)
    decreases |xs|
  {
    if xs == [] then []
    else
      var init := xs[..|xs| - 1];
      assert xs == init + [xs[|xs| - 1]];
      Insert(Sort(init, key), xs[|xs| - 1], key)
  }

  /** Inserting into an ordered sequence keeps it ordered. */
  lemma {:induction false} InsertOrdered<T>(s: seq<T>, x: T, key: T -> SortKey)
    requires AdjacentOrdered(s, key)
    ensures AdjacentOrdered(Insert(s, x, key), key)
    decreases |s|
  {
    if s == [] || Compare(key(s[|s| - 1]), key(x)) <= 0 {
    } else {
      var init := s[..|s| - 1];
      var last := s[|s| - 1];
      InsertOrdered(init, x, key);
      var r := Insert(init, x, key);
      CompareAntisymmetric(key(last), key(x));
      assert Compare(key(r[|r| - 1]), key(last)) <= 0;
      var out := r + [last];
      forall i | 0 <= i < |out| - 1 ensures Compare(key(out[i]), key(out[i + 1])) <= 0 {
        if i < |r| - 1 {
          assert out[i] == r[i] && out[i + 1] == r[i + 1];
        }
      }
    }
  }

  /** The sorted copy has every neighbouring pair in comparator order. */
  lemma {:induction false} SortOrdered<T>(xs: seq<T>, key: T -> SortKey)
    ensures AdjacentOrdered(Sort(xs, key), key)
    decreases |xs|
  {
    if xs != [] {
      SortOrdered(xs[..|xs| - 1], key);
      InsertOrdered(Sort(xs[..|xs| - 1], key), xs[|xs| - 1], key);
    }
  }

  /** Ranks never decrease along the sorted copy, between any two positions. */
  lemma {:induction false} RanksAscend<T>(s: seq<T>, key: T -> SortKey, i: nat, j: nat)
    requires AdjacentOrdered(s, key)
    requires i <= j < |s|
    ensures key(s[i]).rank <= key(s[j]).rank
    decreases j - i
  {
    if i < j {
      RanksAscend(s, key, i, j - 1);
      assert Compare(key(s[j - 1]), key(s[j])) <= 0;
    }
  }

  /** Within a rank whose every element carries a day count, the day counts ascend. */
  lemma {:induction false} DaysAscendWithinRank<T>(s: seq<T>, key: T -> SortKey, i: nat, j: nat)
    requires AdjacentOrdered(s, key)
    requires i <= j < |s| && key(s[i]).rank == key(s[j]).rank
    requires forall k :: 0 <= k < |s| && key(s[k]).rank == key(s[i]).rank ==> key(s[k]).days.Some?
    ensures key(s[i]).days.Some? && key(s[j]).days.Some? && key(s[i]).days.value <= key(s[j]).days.value
    decreases j - i
  {
    if i < j {
      RanksAscend(s, key, i, j - 1);
      RanksAscend(s, key, j - 1, j);
      assert key(s[j - 1]).rank == key(s[j]).rank;
      DaysAscendWithinRank(s, key, i, j - 1);
      assert Compare(key(s[j - 1]), key(s[j])) <= 0;
    }
  }
}
