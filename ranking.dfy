/** `sorted(overspending, key=lambda x: x["overspent"], reverse=True)`: Python's sort is stable,
    also with `reverse=True`, so records with equal `overspent` keep their relative order. */
module Ranking {
  import opened Seqs
  import opened Finance

  /** Largest overspend first. */
  predicate SortedByOverspent(s: seq<OverspendRecord>)
  {
    forall i, j :: 0 <= i < j < |s| ==> s[i].overspent >= s[j].overspent
  }

  /** Places `x` after every record of `t` whose overspend is at least `x`'s. */
  function Insert(t: seq<OverspendRecord>, x: OverspendRecord): (r: seq<OverspendRecord>)
    ensures multiset(r) == multiset(t) + multiset{x}
    ensures forall j :: 0 <= j < |r| ==> r[j] == x || r[j] in t
  {
    if t == [] then [x]
    else if t[0].overspent >= x.overspent then
      assert t == [t[0]] + t[1..];
      [t[0]] + Insert(t[1..], x)
    else
      [x] + t
  }

  /** Insertion keeps a sorted sequence sorted. */
  lemma {:induction false} InsertSorted(t: seq<OverspendRecord>, x: OverspendRecord)
    requires SortedByOverspent(t)
    ensures SortedByOverspent(Insert(t, x))
  {
    if t != [] && t[0].overspent >= x.overspent {
      InsertSorted(t[1..], x);
      var rest := Insert(t[1..], x);
      forall j | 0 <= j < |rest|
        ensures t[0].overspent >= rest[j].overspent
      {
        if rest[j] != x {
          var k :| 0 <= k < |t[1..]| && t[1..][k] == rest[j];
          assert t[k + 1] == rest[j];
        }
      }
    }
  }

  /** The stable descending sort, as insertion of each record in input order. */
  function SortByOverspent(s: seq<OverspendRecord>): (r: seq<OverspendRecord>)
    ensures multiset(r) == multiset(s)
    ensures SortedByOverspent(r)
  {
    if s == [] then []
    else
      assert s == s[..|s| - 1] + [s[|s| - 1]];
      InsertSorted(SortByOverspent(s[..|s| - 1]), s[|s| - 1]);
      Insert(SortByOverspent(s[..|s| - 1]), s[|s| - 1])
  }

  function WithOverspent(k: real): OverspendRecord -> bool
  {
    (r: OverspendRecord) => r.overspent == k
  }

  /** Records of a sorted sequence with overspend below `x`'s hold no record of `x`'s key. */
  lemma {:induction false} NoneWithKey(t: seq<OverspendRecord>, k: real)
    requires forall i :: 0 <= i < |t| ==> t[i].overspent < k
    ensures Filter(t, WithOverspent(k)) == []
  {
    FilterNone(t, WithOverspent(k));
  }

  /** Insertion appends `x` to the records of its own key, and leaves the other keys alone. */
  lemma {:induction false} InsertStable(t: seq<OverspendRecord>, x: OverspendRecord, k: real)
    requires SortedByOverspent(t)
    ensures Filter(Insert(t, x), WithOverspent(k)) == Filter(t, WithOverspent(k)) + Filter([x], WithOverspent(k))
  {
    if t == [] {
    } else if t[0].overspent >= x.overspent {
      SortedTail(t);
      InsertStable(t[1..], x, k);
      InsertStablePast(t, x, k);
    } else {
      InsertStableFront(t, x, k);
    }
  }

  lemma SortedTail(t: seq<OverspendRecord>)
    requires t != [] && SortedByOverspent(t)
    ensures SortedByOverspent(t[1..])
  {
    forall i, j | 0 <= i < j < |t[1..]|
      ensures t[1..][i].overspent >= t[1..][j].overspent
    {
      assert t[1..][i] == t[i + 1] && t[1..][j] == t[j + 1];
    }
  }

  /** `x` passes the first record: the key's records keep that record in front. */
  lemma InsertStablePast(t: seq<OverspendRecord>, x: OverspendRecord, k: real)
    requires t != [] && t[0].overspent >= x.overspent
    requires Filter(Insert(t[1..], x), WithOverspent(k)) == Filter(t[1..], WithOverspent(k)) + Filter([x], WithOverspent(k))
    ensures Filter(Insert(t, x), WithOverspent(k)) == Filter(t, WithOverspent(k)) + Filter([x], WithOverspent(k))
  {
    InsertPast(t, x);
    FilterTailAppend(t, Insert(t[1..], x), Filter([x], WithOverspent(k)), WithOverspent(k));
  }

  lemma InsertPast(t: seq<OverspendRecord>, x: OverspendRecord)
    requires t != [] && t[0].overspent >= x.overspent
    ensures Insert(t, x) == [t[0]] + Insert(t[1..], x)
  {
  }

  /** `x` goes first: every record of `t` has a smaller overspend, so none shares its key. */
  lemma InsertStableFront(t: seq<OverspendRecord>, x: OverspendRecord, k: real)
    requires SortedByOverspent(t) && t != [] && t[0].overspent < x.overspent
    ensures Filter(Insert(t, x), WithOverspent(k)) == Filter(t, WithOverspent(k)) + Filter([x], WithOverspent(k))
  {
    var p := WithOverspent(k);
    assert Insert(t, x) == [x] + t;
    FilterConcat([x], t, p);
    if x.overspent == k {
      assert forall i :: 0 <= i < |t| ==> t[i].overspent <= t[0].overspent;
      NoneWithKey(t, k);
    }
  }

  /** Stability: for every key, the records with that overspend appear in input order. */
  lemma {:induction false} SortIsStable(s: seq<OverspendRecord>, k: real)
    ensures Filter(SortByOverspent(s), WithOverspent(k)) == Filter(s, WithOverspent(k))
  {
    if s != [] {
      var init, x := s[..|s| - 1], s[|s| - 1];
      assert s == init + [x];
      SortIsStable(init, k);
      InsertStable(SortByOverspent(init), x, k);
      FilterConcat(init, [x], WithOverspent(k));
    }
  }
}
