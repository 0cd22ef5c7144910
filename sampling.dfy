/** The library calls the quiz draws its choices through: pandas' `unique()`,
    `random.sample` and `random.shuffle`. The random draws are parameters, so
    every contract below holds of every outcome the random source can give. */
module Sampling {

  /** No value occurs twice. */
  predicate NoDup<T(==)>(s: seq<T>) {
    forall i, j :: 0 <= i < j < |s| ==> s[i] != s[j]
  }

  /** The values of `s` that are not in `excluded`, each once, in the order of
      their first occurrence: `s[~s.isin(excluded)].unique().tolist()`. */
  function UniqueExcluding<T(==)>(s: seq<T>, excluded: set<T>): (r: seq<T>)
    ensures forall i :: 0 <= i < |r| ==> r[i] in s && r[i] !in excluded
    ensures forall i :: 0 <= i < |s| && s[i] !in excluded ==> s[i] in r
    ensures NoDup(r)
  {
    if s == [] then []
    else if s[0] in excluded then UniqueExcluding(s[1..], excluded)
    else [s[0]] + UniqueExcluding(s[1..], excluded + {s[0]})
  }

  /** When `s` has no duplicates and `c` is the only value of `s` that is
      excluded, exactly `c` is lost. */
  lemma {:induction false} UniqueExcludingLength<T>(s: seq<T>, excluded: set<T>, c: T)
    requires NoDup(s)
    requires forall i :: 0 <= i < |s| ==> (s[i] in excluded <==> s[i] == c)
    ensures |UniqueExcluding(s, excluded)| == if c in s then |s| - 1 else |s|
  {
    if s != [] {
      var t := s[1..];
      assert forall i :: 0 <= i < |t| ==> t[i] == s[i + 1];
      assert s[0] !in t;
      if s[0] in excluded {
        UniqueExcludingLength(t, excluded, c);
        assert c !in t;
      } else {
        UniqueExcludingLength(t, excluded + {s[0]}, c);
        assert c in s <==> c in t;
      }
    }
  }

  /** `k` indices that `random.sample(population, k)` can pick from a
      population of `size`: in range and pairwise different. */
  predicate IsSample(picks: seq<nat>, k: nat, size: nat) {
    && |picks| == k
    && (forall i :: 0 <= i < k ==> picks[i] < size)
    && (forall i, j :: 0 <= i < j < k ==> picks[i] != picks[j])
  }

  /** `random.sample(population, k)` when its draws pick the positions `picks`,
      in that order. */
  function Sample<T(==)>(population: seq<T>, picks: seq<nat>): (r: seq<T>)
    requires IsSample(picks, |picks|, |population|)
    ensures |r| == |picks|
    ensures forall i :: 0 <= i < |r| ==> r[i] in population
    ensures NoDup(population) ==> NoDup(r)
  {
    seq(|picks|, i requires 0 <= i < |picks| => population[picks[i]])
  }

  /** The draws `random.shuffle` makes on a list of length `n`: for `i` from
      `n - 1` down to 1 it draws `j` in `[0, i]` and swaps positions `i` and `j`
      (CPython's Fisher-Yates). Draw `k` belongs to `i == n - 1 - k`. */
  predicate IsShuffleDraws(draws: seq<nat>, n: nat) {
    && |draws| == (if n == 0 then 0 else n - 1)
    && forall k :: 0 <= k < |draws| ==> draws[k] <= n - 1 - k
  }

  function Swap<T>(s: seq<T>, i: nat, j: nat): seq<T>
    requires i < |s| && j < |s|
  {
    s[i := s[j]][j := s[i]]
  }

  lemma SwapPermutes<T>(s: seq<T>, i: nat, j: nat)
    requires i < |s| && j < |s|
    ensures multiset(Swap(s, i, j)) == multiset(s)
    ensures NoDup(s) ==> NoDup(Swap(s, i, j))
  {
    var r := Swap(s, i, j);
    if NoDup(s) {
      forall p, q | 0 <= p < q < |r| ensures r[p] != r[q] {
        var p' := if p == i then j else if p == j then i else p;
        var q' := if q == i then j else if q == j then i else q;
        assert r[p] == s[p'] && r[q] == s[q'];
      }
    }
  }

  /** The list once the swaps for draws `k..` have been made. */
  function ShuffleFrom<T>(s: seq<T>, draws: seq<nat>, k: nat): seq<T>
    requires IsShuffleDraws(draws, |s|) && k <= |draws|
    decreases |draws| - k
  {
    if k == |draws| then s
    else ShuffleFrom(Swap(s, |s| - 1 - k, draws[k]), draws, k + 1)
  }


  /** Shuffling rearranges: the result is a permutation of the input, and a
      list without duplicates stays without duplicates. */
  lemma {:induction false} ShufflePermutes<T>(s: seq<T>, draws: seq<nat>, k: nat)
    requires IsShuffleDraws(draws, |s|) && k <= |draws|
    ensures |ShuffleFrom(s, draws, k)| == |s|
    ensures multiset(ShuffleFrom(s, draws, k)) == multiset(s)
    ensures NoDup(s) ==> NoDup(ShuffleFrom(s, draws, k))
    decreases |draws| - k
  {
    if k < |draws| {
      var i := |s| - 1 - k;
      SwapPermutes(s, i, draws[k]);
      ShufflePermutes(Swap(s, i, draws[k]), draws, k + 1);
    }
  }

  /** `random.shuffle(s)` when its draws are `draws`: a rearrangement of `s`. */
  function Shuffled<T>(s: seq<T>, draws: seq<nat>): (r: seq<T>)
    requires IsShuffleDraws(draws, |s|)
    ensures |r| == |s| && multiset(r) == multiset(s)
    ensures NoDup(s) ==> NoDup(r)
  {
    ShufflePermutes(s, draws, 0);
    ShuffleFrom(s, draws, 0)
  }

  /** Draws that each pick the position being filled swap nothing: the
      shuffle keeps the list as it is. */
  lemma {:induction false} SelfDrawsKeepOrder<T>(s: seq<T>, draws: seq<nat>, k: nat)
    requires IsShuffleDraws(draws, |s|) && k <= |draws|
    requires forall m :: 0 <= m < |draws| ==> draws[m] == |s| - 1 - m
    ensures ShuffleFrom(s, draws, k) == s
    decreases |draws| - k
  {
    if k < |draws| {
      assert Swap(s, |s| - 1 - k, draws[k]) == s;
      SelfDrawsKeepOrder(s, draws, k + 1);
    }
  }

  /** `random.shuffle` on a list, in place. */
  method Shuffle<T>(a: array<T>, draws: seq<nat>)
    requires IsShuffleDraws(draws, a.Length)
    modifies a
    ensures a[..] == Shuffled(old(a[..]), draws)
  {
    var k := 0;
    while k < |draws|
      invariant 0 <= k <= |draws|
      invariant ShuffleFrom(a[..], draws, k) == Shuffled(old(a[..]), draws)
    {
      var i, j := a.Length - 1 - k, draws[k];
      ghost var before := a[..];
      a[i], a[j] := a[j], a[i];
      assert a[..] == Swap(before, i, j);
      k := k + 1;
    }
  }
}
