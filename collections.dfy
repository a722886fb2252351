/** Sequence helpers: duplicates, first occurrences and the keyed-overwrite deduplication. */
module Collections {

  ghost predicate NoDuplicates<T>(s: seq<T>)
  {
    forall i, j :: 0 <= i < j < |s| ==> s[i] != s[j]
  }

  /** The position of the first occurrence of `x` in `s`. */
  function FirstIndex<T(==)>(s: seq<T>, x: T): (i: nat)
    requires x in s
    ensures i < |s| && s[i] == x && x !in s[..i]
  {
    if s[0] == x then 0
    else
      var k := FirstIndex(s[1..], x);
      assert s[..k + 1] == [s[0]] + s[1..][..k];
      k + 1
  }

  /** A position holding `x` with no earlier `x` is the first index of `x`. */
  lemma FirstIndexUnique<T>(s: seq<T>, x: T, i: nat)
    requires i < |s| && s[i] == x && x !in s[..i]
    ensures FirstIndex(s, x) == i
  {
  }

  /** An element of a prefix has the same first index in the prefix and in the whole. */
  lemma FirstIndexPrefix<T>(s: seq<T>, n: nat, x: T)
    requires n <= |s| && x in s[..n]
    ensures x in s && FirstIndex(s, x) == FirstIndex(s[..n], x)
  {
    var k := FirstIndex(s[..n], x);
    assert s[..n][..k] == s[..k];
    FirstIndexUnique(s, x, k);
  }

  /**
   * The elements of `s` with later repetitions dropped. It is what a loop of
   * keyed writes `$keyed[$x] = ...` over `s` leaves in its key order: a key
   * written again keeps the position of its first write.
   */
  function Dedup<T(==)>(s: seq<T>): (d: seq<T>)
    ensures forall i :: 0 <= i < |d| ==> d[i] in s
    ensures forall i :: 0 <= i < |s| ==> s[i] in d
    ensures NoDuplicates(d)
    ensures |d| <= |s|
  {
    if s == [] then []
    else
      var p := Dedup(s[..|s| - 1]);
      assert forall i :: 0 <= i < |s| - 1 ==> s[i] == s[..|s| - 1][i];
      if s[|s| - 1] in p then p else p + [s[|s| - 1]]
  }

  /** One more element: Dedup keeps it iff it is new. */
  lemma DedupSnoc<T>(s: seq<T>, x: T)
    ensures Dedup(s + [x]) == if x in Dedup(s) then Dedup(s) else Dedup(s) + [x]
  {
    assert (s + [x])[..|s|] == s;
  }

  /** The elements of `d` occur in `s`, and their first occurrences there come in the order of `d`. */
  ghost predicate InFirstOccurrenceOrder<T>(d: seq<T>, s: seq<T>)
  {
    forall i, j :: 0 <= i < j < |d| ==> d[i] in s && d[j] in s && FirstIndex(s, d[i]) < FirstIndex(s, d[j])
  }

  /** Order by first occurrence in a prefix is order by first occurrence in the whole. */
  lemma OrderInPrefix<T>(d: seq<T>, s: seq<T>, n: nat)
    requires n <= |s| && forall i :: 0 <= i < |d| ==> d[i] in s[..n]
    requires InFirstOccurrenceOrder(d, s[..n])
    ensures InFirstOccurrenceOrder(d, s)
  {
    forall i | 0 <= i < |d|
      ensures d[i] in s && FirstIndex(s, d[i]) == FirstIndex(s[..n], d[i])
    {
      FirstIndexPrefix(s, n, d[i]);
    }
  }

  /** An element first occurring after a prefix can follow the elements of that prefix. */
  lemma OrderAppendLater<T>(d: seq<T>, s: seq<T>, n: nat)
    requires n < |s| && s[n] !in s[..n] && forall i :: 0 <= i < |d| ==> d[i] in s[..n]
    requires InFirstOccurrenceOrder(d, s)
    ensures InFirstOccurrenceOrder(d + [s[n]], s)
  {
    FirstIndexUnique(s, s[n], n);
    var e := d + [s[n]];
    forall i | 0 <= i < |d|
      ensures FirstIndex(s, d[i]) < n
    {
      FirstIndexPrefix(s, n, d[i]);
    }
    forall i, j | 0 <= i < j < |e|
      ensures e[i] in s && e[j] in s && FirstIndex(s, e[i]) < FirstIndex(s, e[j])
    {
      assert e[i] == d[i];
      if j < |d| {
        assert e[j] == d[j];
      }
    }
  }

  /** Positions in `d` and first occurrences in `s` are ordered alike. */
  lemma FirstOccurrenceMonotone<T>(d: seq<T>, s: seq<T>, x: T, y: T)
    requires InFirstOccurrenceOrder(d, s) && forall i :: 0 <= i < |d| ==> d[i] in s
    requires x in d && y in d && FirstIndex(d, x) <= FirstIndex(d, y)
    ensures x in s && y in s && FirstIndex(s, x) <= FirstIndex(s, y)
  {
    var i, j := FirstIndex(d, x), FirstIndex(d, y);
    if i < j {
      assert FirstIndex(s, d[i]) < FirstIndex(s, d[j]);
    }
  }

  /** Dedup lists the elements in the order of their first occurrences in `s`. */
  lemma {:induction false} DedupFirstOccurrenceOrder<T>(s: seq<T>)
    ensures InFirstOccurrenceOrder(Dedup(s), s)
  {
    if s != [] {
      var n := |s| - 1;
      var p := s[..n];
      DedupFirstOccurrenceOrder(p);
      var dp := Dedup(p);
      assert forall i :: 0 <= i < |dp| ==> dp[i] in s[..n];
      OrderInPrefix(dp, s, n);
      if s[n] !in dp {
        assert s[n] !in s[..n];
        OrderAppendLater(dp, s, n);
      }
    }
  }
}
