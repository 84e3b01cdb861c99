/** Sequence helpers standing in for Python's comprehensions, `sum`, `find_one` and dict building. */
module Seqs {
  import opened Wrappers

  /** The elements of `s` satisfying `p`, in their original order (a Mongo `find` with a filter). */
  function Filter<T>(s: seq<T>, p: T -> bool): (r: seq<T>)
    ensures |r| <= |s|
  {
    if s == [] then [] else Filter(s[..|s| - 1], p) + (if p(s[|s| - 1]) then [s[|s| - 1]] else [])
  }

  /** The filtered sequence holds elements of `s` that pass, and every element that passes. */
  lemma {:induction false} FilterMembers<T>(s: seq<T>, p: T -> bool)
    ensures forall i :: 0 <= i < |Filter(s, p)| ==> Filter(s, p)[i] in s && p(Filter(s, p)[i])
    ensures forall i :: 0 <= i < |s| && p(s[i]) ==> s[i] in Filter(s, p)
  {
    if s != [] {
      var init, x := s[..|s| - 1], s[|s| - 1];
      FilterMembers(init, p);
      var r, earlier := Filter(s, p), Filter(init, p);
      assert r == earlier + (if p(x) then [x] else []);
      forall i | 0 <= i < |r|
        ensures r[i] in s && p(r[i])
      {
        if i < |earlier| {
          assert r[i] == earlier[i];
          var k :| 0 <= k < |init| && init[k] == earlier[i];
          assert s[k] == init[k];
        }
      }
      forall i | 0 <= i < |s| && p(s[i])
        ensures s[i] in r
      {
        if i < |init| {
          assert s[i] == init[i];
          var k :| 0 <= k < |earlier| && earlier[k] == init[i];
          assert r[k] == earlier[k];
        } else {
          assert r[|r| - 1] == x;
        }
      }
    }
  }

  /** One more element is kept at the end exactly when it passes. */
  lemma FilterSnoc<T>(s: seq<T>, x: T, p: T -> bool)
    ensures Filter(s + [x], p) == Filter(s, p) + (if p(x) then [x] else [])
  {
    assert (s + [x])[..|s|] == s;
  }

  lemma AppendAssoc<T>(a: seq<T>, b: seq<T>, c: seq<T>)
    ensures a + (b + c) == (a + b) + c
  {
  }

  /** Filtering a concatenation filters each part: together with the one-element case this fixes
      the order of the result to the order of `s`. */
  lemma {:induction false} FilterConcat<T>(a: seq<T>, b: seq<T>, p: T -> bool)
    ensures Filter(a + b, p) == Filter(a, p) + Filter(b, p)
  {
    if b == [] {
      assert a + b == a;
    } else {
      var init, x := b[..|b| - 1], b[|b| - 1];
      assert a + b == (a + init) + [x];
      FilterSnoc(a + init, x, p);
      FilterConcat(a, init, p);
      AppendAssoc(Filter(a, p), Filter(init, p), if p(x) then [x] else []);
    }
  }

  /** Filtering a sequence with a given first element. */
  lemma FilterCons<T>(h: T, s: seq<T>, p: T -> bool)
    ensures Filter([h] + s, p) == (if p(h) then [h] else []) + Filter(s, p)
  {
    assert Filter([h], p) == (if p(h) then [h] else []) by {
      assert [h][..0] == [];
    }
    FilterConcat([h], s, p);
  }

  /** Replacing the tail of a non-empty sequence by one whose filtered form appends `y`
      appends `y` to the filtered whole. */
  lemma FilterTailAppend<T>(t: seq<T>, r: seq<T>, y: seq<T>, p: T -> bool)
    requires t != [] && Filter(r, p) == Filter(t[1..], p) + y
    ensures Filter([t[0]] + r, p) == Filter(t, p) + y
  {
    FilterCons(t[0], r, p);
    assert t == [t[0]] + t[1..];
    FilterCons(t[0], t[1..], p);
    AppendAssoc(if p(t[0]) then [t[0]] else [], Filter(t[1..], p), y);
  }

  /** A filter that every element passes keeps the whole sequence. */
  lemma {:induction false} FilterAll<T>(s: seq<T>, p: T -> bool)
    requires forall i :: 0 <= i < |s| ==> p(s[i])
    ensures Filter(s, p) == s
  {
    if s != [] {
      FilterAll(s[..|s| - 1], p);
      assert s == s[..|s| - 1] + [s[|s| - 1]];
    }
  }

  /** A filter that no element passes gives the empty sequence. */
  lemma {:induction false} FilterNone<T>(s: seq<T>, p: T -> bool)
    requires forall i :: 0 <= i < |s| ==> !p(s[i])
    ensures Filter(s, p) == []
  {
    if s != [] {
      FilterNone(s[..|s| - 1], p);
    }
  }

  /** Python's `sum(f(x) for x in s)`: 0 plus every term, left to right. */
  function Sum<T>(s: seq<T>, f: T -> real): real
  {
    if s == [] then 0.0 else f(s[0]) + Sum(s[1..], f)
  }

  lemma {:induction false} SumConcat<T>(a: seq<T>, b: seq<T>, f: T -> real)
    ensures Sum(a + b, f) == Sum(a, f) + Sum(b, f)
  {
    if a == [] {
      assert a + b == b;
    } else {
      assert (a + b)[1..] == a[1..] + b;
      SumConcat(a[1..], b, f);
    }
  }

  /** The filtered sum of a non-empty sequence is that of all but its last element, plus the
      last element's term if it passes the filter. */
  lemma SumFilterLast<T>(s: seq<T>, p: T -> bool, f: T -> real)
    requires s != []
    ensures Sum(Filter(s, p), f)
         == Sum(Filter(s[..|s| - 1], p), f) + (if p(s[|s| - 1]) then f(s[|s| - 1]) else 0.0)
  {
    var x := s[|s| - 1];
    SumConcat(Filter(s[..|s| - 1], p), if p(x) then [x] else [], f);
    assert [x][1..] == [];
  }

  /** Some element of a non-empty `s` satisfies `p` exactly when one before the last does or
      the last does. */
  lemma ExistsLast<T>(s: seq<T>, init: seq<T>, p: T -> bool)
    requires s != [] && init == s[..|s| - 1]
    ensures (exists i :: 0 <= i < |s| && p(s[i])) <==> (exists i :: 0 <= i < |init| && p(init[i])) || p(s[|s| - 1])
  {
    if exists i :: 0 <= i < |init| && p(init[i]) {
      var i :| 0 <= i < |init| && p(init[i]);
      assert s[i] == init[i];
    }
    if exists i :: 0 <= i < |s| && p(s[i]) {
      var i :| 0 <= i < |s| && p(s[i]);
      if i < |init| {
        assert init[i] == s[i];
      }
    }
  }

  /** The first index whose element satisfies `p` (what Mongo's `find_one`, `update_one` and
      `delete_one` act on). */
  function FirstIndex<T>(s: seq<T>, p: T -> bool): (r: Option<nat>)
    ensures r.Some? ==> r.value < |s| && p(s[r.value]) && forall j :: 0 <= j < r.value ==> !p(s[j])
    ensures r.None? ==> forall j :: 0 <= j < |s| ==> !p(s[j])
  {
    if s == [] then None
    else if p(s[0]) then Some(0)
    else match FirstIndex(s[1..], p)
      case None => None
      case Some(k) => Some(k + 1)
  }

  /** The last index whose element satisfies `p`: the entry a Python dict comprehension keeps
      when several elements share a key. */
  function LastIndex<T>(s: seq<T>, p: T -> bool): (r: Option<nat>)
    ensures r.Some? ==> r.value < |s| && p(s[r.value]) && forall j :: r.value < j < |s| ==> !p(s[j])
    ensures r.None? ==> forall j :: 0 <= j < |s| ==> !p(s[j])
  {
    if s == [] then None
    else if p(s[|s| - 1]) then Some(|s| - 1)
    else LastIndex(s[..|s| - 1], p)
  }
}
