/**
 * Facts about sequences shared by the forecast fold and the weather tally:
 * occurrence counts, the distinct values of a sequence in order of first
 * appearance, and the index of the first occurrence of a value.
 */
module Seqs {

  /** No value occurs twice. */
  predicate Distinct<T(==)>(xs: seq<T>) {
    forall i, j :: 0 <= i < j < |xs| ==> xs[i] != xs[j]
  }

  /** Extending a prefix by one element. */
  lemma TakeSnoc<T>(s: seq<T>, i: nat)
    requires i < |s|
    ensures s[..i + 1] == s[..i] + [s[i]]
    ensures s[..i + 1][..i] == s[..i]
  {
  }

  /** Number of occurrences of `x` in `xs`. */
  function Count<T(==)>(xs: seq<T>, x: T): (n: nat)
    ensures n <= |xs|
    ensures n > 0 <==> x in xs
  {
    if xs == [] then 0
    else
      assert xs == xs[..|xs| - 1] + [xs[|xs| - 1]];
      Count(xs[..|xs| - 1], x) + (if xs[|xs| - 1] == x then 1 else 0)
  }

  /**
   * The distinct values of `xs`, each once, in the order in which each value
   * first appears: the key order of a JavaScript object that is filled by
   * assigning `acc[k]` for every `k` of `xs` in turn.
   */
  function Dedup<T(==)>(xs: seq<T>): (r: seq<T>)
    ensures |r| <= |xs|
  {
    if xs == [] then []
    else
      var p := Dedup(xs[..|xs| - 1]);
      if xs[|xs| - 1] in p then p else p + [xs[|xs| - 1]]
  }

  /** `Dedup` holds exactly the values of its input. */
  lemma {:induction false} DedupMembership<T>(xs: seq<T>, x: T)
    ensures x in Dedup(xs) <==> x in xs
  {
    if xs != [] {
      var p := xs[..|xs| - 1];
      assert xs == p + [xs[|xs| - 1]];
      DedupMembership(p, x);
    }
  }

  /** `Dedup` holds each value once. */
  lemma {:induction false} DedupDistinct<T>(xs: seq<T>)
    ensures Distinct(Dedup(xs))
  {
    if xs != [] {
      DedupDistinct(xs[..|xs| - 1]);
    }
  }

  lemma CountAppend<T>(xs: seq<T>, y: T, x: T)
    ensures Count(xs + [y], x) == Count(xs, x) + (if y == x then 1 else 0)
  {
    assert (xs + [y])[..|xs|] == xs;
  }

  lemma DedupAppend<T>(xs: seq<T>, y: T)
    ensures Dedup(xs + [y]) == if y in Dedup(xs) then Dedup(xs) else Dedup(xs) + [y]
  {
    assert (xs + [y])[..|xs|] == xs;
  }

  /** Position of the first occurrence of `x` in `xs`. */
  function FirstIndex<T(==)>(xs: seq<T>, x: T): (i: nat)
    requires x in xs
    ensures i < |xs| && xs[i] == x
    ensures forall j :: 0 <= j < i ==> xs[j] != x
  {
    if xs[0] == x then 0 else 1 + FirstIndex(xs[1..], x)
  }

  /** Appending a value does not move the first occurrence of one already present. */
  lemma FirstIndexAppend<T>(xs: seq<T>, y: T, x: T)
    requires x in xs
    ensures FirstIndex(xs + [y], x) == FirstIndex(xs, x)
  {
    var i, k := FirstIndex(xs + [y], x), FirstIndex(xs, x);
    assert (xs + [y])[k] == x;
    assert xs[i] == x by { assert i <= k; }
  }

  /**
   * `Dedup` lists the values strictly in the order of their first occurrence
   * in the input.
   */
  lemma {:induction false} DedupFirstAppearance<T>(xs: seq<T>)
    ensures forall i :: 0 <= i < |Dedup(xs)| ==> Dedup(xs)[i] in xs
    ensures forall i, j :: 0 <= i < j < |Dedup(xs)| ==>
      FirstIndex(xs, Dedup(xs)[i]) < FirstIndex(xs, Dedup(xs)[j])
  {
    forall i | 0 <= i < |Dedup(xs)| ensures Dedup(xs)[i] in xs {
      DedupMembership(xs, Dedup(xs)[i]);
    }
    if xs != [] {
      var p, y := xs[..|xs| - 1], xs[|xs| - 1];
      assert xs == p + [y];
      DedupFirstAppearance(p);
      var r := Dedup(xs);
      forall x | x in p ensures FirstIndex(xs, x) == FirstIndex(p, x) {
        FirstIndexAppend(p, y, x);
      }
      forall x | x in Dedup(p) ensures x in p {
        DedupMembership(p, x);
      }
      DedupMembership(p, y);
      if y !in p {
        assert FirstIndex(xs, y) == |p|;
        forall i, j | 0 <= i < j < |r|
          ensures FirstIndex(xs, r[i]) < FirstIndex(xs, r[j])
        {
          assert r[i] in Dedup(p);
          if j == |r| - 1 {
            assert FirstIndex(p, r[i]) < |p|;
          } else {
            assert r[j] in Dedup(p);
          }
        }
      }
    }
  }

  /** Total number of occurrences in `xs` of the entries of `ks`, entry by entry. */
  function Occurrences<T(==)>(xs: seq<T>, ks: seq<T>): nat {
    if ks == [] then 0
    else Occurrences(xs, ks[..|ks| - 1]) + Count(xs, ks[|ks| - 1])
  }

  /** In a sequence without repetitions a value occurs at most once. */
  lemma {:induction false} CountDistinct<T>(ks: seq<T>, y: T)
    requires Distinct(ks)
    ensures Count(ks, y) == if y in ks then 1 else 0
  {
    if ks != [] {
      var p, k := ks[..|ks| - 1], ks[|ks| - 1];
      assert ks == p + [k];
      CountDistinct(p, y);
      CountAppend(p, k, y);
    }
  }

  /** One more element of `xs` adds one occurrence per entry of `ks` equal to it. */
  lemma {:induction false} OccurrencesAppend<T>(xs: seq<T>, y: T, ks: seq<T>)
    ensures Occurrences(xs + [y], ks) == Occurrences(xs, ks) + Count(ks, y)
  {
    if ks != [] {
      var p, k := ks[..|ks| - 1], ks[|ks| - 1];
      assert ks == p + [k];
      OccurrencesAppend(xs, y, p);
      CountAppend(xs, y, k);
      CountAppend(p, k, y);
    }
  }

  /** Counting, value by value, the occurrences of the distinct values of `xs` counts `xs`. */
  lemma {:induction false} OccurrencesOfDedup<T>(xs: seq<T>)
    ensures Occurrences(xs, Dedup(xs)) == |xs|
  {
    if xs != [] {
      var p, y := xs[..|xs| - 1], xs[|xs| - 1];
      assert xs == p + [y];
      OccurrencesOfDedup(p);
      OccurrencesAppend(p, y, Dedup(p));
      DedupDistinct(p);
      CountDistinct(Dedup(p), y);
      DedupMembership(p, y);
      DedupAppend(p, y);
      if y !in Dedup(p) {
        var d := Dedup(p) + [y];
        assert d[..|d| - 1] == Dedup(p);
        CountAppend(p, y, y);
      }
    }
  }
}
