/**
  The idiom `if x not in lst: lst.append(x)`, which both the host resolver and the
  manifest registry use to keep a duplicate-free list in first-seen order.
*/
module OrderedSet {

  predicate NoDuplicates<T(==)>(s: seq<T>) {
    forall i, j :: 0 <= i < j < |s| ==> s[i] != s[j]
  }

  /** `if x not in s: s.append(x)` */
  function AddNew<T(==)>(s: seq<T>, x: T): seq<T> {
    if x in s then s else s + [x]
  }

  /** `for x in xs: if x not in s: s.append(x)` */
  function AddAll<T(==)>(s: seq<T>, xs: seq<T>): seq<T>
    decreases |xs|
  {
    if |xs| == 0 then s else AddNew(AddAll(s, xs[..|xs| - 1]), xs[|xs| - 1])
  }

  /** The list built from nothing: `xs` without its repetitions. */
  function Dedup<T(==)>(xs: seq<T>): seq<T> {
    AddAll([], xs)
  }

  /** Deduplicating one more element adds it at the end if it is new. */
  lemma {:induction false} DedupSnoc<T>(xs: seq<T>, x: T)
    ensures Dedup(xs + [x]) == AddNew(Dedup(xs), x)
  {
    assert (xs + [x])[..|xs|] == xs;
  }

  /** The index of the first occurrence of `x` in `xs`, or `|xs|` when there is none. */
  function IndexOf<T(==)>(xs: seq<T>, x: T): (k: nat)
    ensures k <= |xs|
    ensures k < |xs| <==> x in xs
    ensures k < |xs| ==> xs[k] == x
    ensures forall i :: 0 <= i < k ==> xs[i] != x
    decreases |xs|
  {
    if |xs| == 0 then 0 else if xs[0] == x then 0 else 1 + IndexOf(xs[1..], x)
  }

  /** Entries already in the list stay where they are: the old list is a prefix. */
  lemma {:induction false} AddAllKeepsPrefix<T>(s: seq<T>, xs: seq<T>)
    ensures s <= AddAll(s, xs)
    decreases |xs|
  {
    if |xs| > 0 {
      AddAllKeepsPrefix(s, xs[..|xs| - 1]);
    }
  }

  /** The result holds exactly the old entries and the added ones. */
  lemma {:induction false} AddAllElements<T>(s: seq<T>, xs: seq<T>, x: T)
    ensures x in AddAll(s, xs) <==> x in s || x in xs
    decreases |xs|
  {
    if |xs| > 0 {
      var init := xs[..|xs| - 1];
      AddAllElements(s, init, x);
      assert xs == init + [xs[|xs| - 1]];
    }
  }

  /** No entry is ever added twice. */
  lemma {:induction false} AddAllNoDuplicates<T>(s: seq<T>, xs: seq<T>)
    requires NoDuplicates(s)
    ensures NoDuplicates(AddAll(s, xs))
    decreases |xs|
  {
    if |xs| > 0 {
      AddAllNoDuplicates(s, xs[..|xs| - 1]);
    }
  }

  /** The first occurrence of an element of a prefix lies in that prefix. */
  lemma {:induction false} IndexOfInPrefix<T>(xs: seq<T>, n: nat, x: T)
    requires n <= |xs| && x in xs[..n]
    ensures IndexOf(xs, x) == IndexOf(xs[..n], x)
    decreases |xs|
  {
    if xs[0] != x {
      assert xs[1..][..n - 1] == xs[..n][1..];
      IndexOfInPrefix(xs[1..], n - 1, x);
    }
  }

  /** `Dedup` lists its elements in the order in which they are first seen. */
  lemma {:induction false} DedupFirstSeenOrder<T>(xs: seq<T>)
    ensures forall i, j :: 0 <= i < j < |Dedup(xs)| ==>
      IndexOf(xs, Dedup(xs)[i]) < IndexOf(xs, Dedup(xs)[j])
    decreases |xs|
  {
    if |xs| > 0 {
      var n := |xs| - 1;
      var init := xs[..n];
      var d0, d := Dedup(init), Dedup(xs);
      assert d == AddNew(d0, xs[n]);
      DedupFirstSeenOrder(init);
      forall y | y in d0 ensures IndexOf(xs, y) == IndexOf(init, y) && IndexOf(init, y) < n {
        AddAllElements([], init, y);
        IndexOfInPrefix(xs, n, y);
      }
      forall i, j | 0 <= i < j < |d| ensures IndexOf(xs, d[i]) < IndexOf(xs, d[j]) {
        assert d[i] == d0[i] && d0[i] in d0;
        if j < |d0| {
          assert d[j] == d0[j] && d0[j] in d0;
        } else {
          assert d[j] == xs[n] && xs[n] !in d0;
          AddAllElements([], init, xs[n]);
          assert IndexOf(xs, xs[n]) == n by {
            forall k | 0 <= k < n ensures xs[k] != xs[n] {
              assert xs[k] == init[k];
            }
          }
        }
      }
    }
  }
}
