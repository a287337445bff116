/**
 * Insertion-ordered counting dictionaries, the `d[k] = d.get(k, 0) + 1`
 * idiom, as association lists: the keys appear in the order of their first
 * occurrence, as in a Python `dict`.
 */
module Tally {

  /** `d[k] = d.get(k, 0) + 1`: an existing key is counted up in place, a
      new key is appended with count 1. */
  function Bump<K(==)>(d: seq<(K, nat)>, k: K): (r: seq<(K, nat)>)
    ensures |r| == |d| || |r| == |d| + 1
  {
    if d == [] then [(k, 1)]
    else if d[0].0 == k then [(k, d[0].1 + 1)] + d[1..]
    else [d[0]] + Bump(d[1..], k)
  }

  /** `d.get(k, 0)`. */
  function Lookup<K(==)>(d: seq<(K, nat)>, k: K): nat {
    if d == [] then 0
    else if d[0].0 == k then d[0].1
    else Lookup(d[1..], k)
  }

  /** The sum of all counts. */
  function Total<K>(d: seq<(K, nat)>): nat {
    if d == [] then 0 else d[0].1 + Total(d[1..])
  }

  /** `k in d`. */
  predicate HasKey<K(==)>(d: seq<(K, nat)>, k: K) {
    d != [] && (d[0].0 == k || HasKey(d[1..], k))
  }

  /** Every key occurs once, with a positive count. */
  predicate WellFormed<K(==)>(d: seq<(K, nat)>) {
    d == [] || (d[0].1 >= 1 && !HasKey(d[1..], d[0].0) && WellFormed(d[1..]))
  }

  /** The number of occurrences of `k` in `xs`. */
  function Occurrences<K(==)>(xs: seq<K>, k: K): (n: nat)
    ensures n <= |xs|
  {
    if xs == [] then 0
    else Occurrences(xs[..|xs| - 1], k) + (if xs[|xs| - 1] == k then 1 else 0)
  }

  /** The loop `for x in xs: d[x] = d.get(x, 0) + 1`, starting from `{}`. */
  function TallyOf<K(==)>(xs: seq<K>): seq<(K, nat)> {
    if xs == [] then [] else Bump(TallyOf(xs[..|xs| - 1]), xs[|xs| - 1])
  }

  lemma {:induction false} LookupBump<K>(d: seq<(K, nat)>, k: K, j: K)
    ensures Lookup(Bump(d, k), j) == Lookup(d, j) + (if j == k then 1 else 0)
  {
    if d != [] && d[0].0 != k {
      LookupBump(d[1..], k, j);
    }
  }

  lemma {:induction false} TotalBump<K>(d: seq<(K, nat)>, k: K)
    ensures Total(Bump(d, k)) == Total(d) + 1
  {
    if d != [] && d[0].0 != k {
      TotalBump(d[1..], k);
    }
  }

  lemma {:induction false} HasKeyBump<K>(d: seq<(K, nat)>, k: K, j: K)
    ensures HasKey(Bump(d, k), j) <==> HasKey(d, j) || j == k
  {
    if d != [] && d[0].0 != k {
      HasKeyBump(d[1..], k, j);
    }
  }

  lemma {:induction false} BumpWellFormed<K>(d: seq<(K, nat)>, k: K)
    requires WellFormed(d)
    ensures WellFormed(Bump(d, k))
  {
    if d != [] && d[0].0 != k {
      BumpWellFormed(d[1..], k);
      HasKeyBump(d[1..], k, d[0].0);
      assert Bump(d, k)[1..] == Bump(d[1..], k);
    } else if d != [] {
      assert Bump(d, k)[1..] == d[1..];
    }
  }

  /** After the loop, every element is counted exactly as often as it occurs. */
  lemma {:induction false} TallyCounts<K>(xs: seq<K>, k: K)
    ensures Lookup(TallyOf(xs), k) == Occurrences(xs, k)
  {
    if xs != [] {
      TallyCounts(xs[..|xs| - 1], k);
      LookupBump(TallyOf(xs[..|xs| - 1]), xs[|xs| - 1], k);
    }
  }

  /** The counts add up to the number of elements. */
  lemma {:induction false} TallyTotal<K>(xs: seq<K>)
    ensures Total(TallyOf(xs)) == |xs|
  {
    if xs != [] {
      TallyTotal(xs[..|xs| - 1]);
      TotalBump(TallyOf(xs[..|xs| - 1]), xs[|xs| - 1]);
    }
  }

  /** Each key appears once, with a positive count. */
  lemma {:induction false} TallyWellFormed<K>(xs: seq<K>)
    ensures WellFormed(TallyOf(xs))
  {
    if xs != [] {
      TallyWellFormed(xs[..|xs| - 1]);
      BumpWellFormed(TallyOf(xs[..|xs| - 1]), xs[|xs| - 1]);
    }
  }

  /** The keys of the tally are exactly the elements. */
  lemma {:induction false} TallyKeys<K>(xs: seq<K>, k: K)
    ensures HasKey(TallyOf(xs), k) <==> k in xs
  {
    if xs != [] {
      var init := xs[..|xs| - 1];
      TallyKeys(init, k);
      HasKeyBump(TallyOf(init), xs[|xs| - 1], k);
      assert xs == init + [xs[|xs| - 1]];
    }
  }

  /** In a well-formed tally a key is present exactly when its count is positive. */
  lemma {:induction false} LookupPositive<K>(d: seq<(K, nat)>, k: K)
    requires WellFormed(d)
    ensures Lookup(d, k) > 0 <==> HasKey(d, k)
  {
    if d != [] && d[0].0 != k {
      LookupPositive(d[1..], k);
    }
  }
}
