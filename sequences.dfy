/** Small facts about sequences that the graph model relies on. */
module Sequences {

  /** The elements of a sequence, as a set (how the suite compares result lists). */
  function Elements<T>(s: seq<T>): (r: set<T>)
    ensures forall i :: 0 <= i < |s| ==> s[i] in r
    ensures forall x :: x in r ==> x in s
    ensures r == {} <==> s == []
  {
    assert s != [] ==> s[0] in s;
    set x | x in s
  }

  /** No element occurs twice. */
  predicate Distinct<T(==)>(s: seq<T>)
  {
    forall i, j :: 0 <= i < j < |s| ==> s[i] != s[j]
  }

  function Min(a: nat, b: nat): nat
  {
    if a <= b then a else b
  }

  /** The first occurrence of every element of `s`, in the order of `s`. */
  function Dedup<T(==)>(s: seq<T>): (r: seq<T>)
    ensures Distinct(r)
    ensures forall i :: 0 <= i < |s| ==> s[i] in r
    ensures forall i :: 0 <= i < |r| ==> r[i] in s
    ensures |r| <= |s|
  {
    if s == [] then []
    else
      var init := s[..|s| - 1];
      var last := s[|s| - 1];
      assert s == init + [last];
      var r0 := Dedup(init);
      if last in r0 then r0 else r0 + [last]
  }

  /** The window `[offset, offset + count)` of `s`, clipped to its length. */
  function Slice<T>(s: seq<T>, offset: nat, count: nat): (r: seq<T>)
    ensures |r| == if offset >= |s| then 0 else Min(count, |s| - offset)
    ensures forall i :: 0 <= i < |r| ==> r[i] == s[offset + i]
  {
    if offset >= |s| then [] else s[offset..offset + Min(count, |s| - offset)]
  }

  /** Two adjacent windows make up the window spanning both. */
  lemma SliceSplit<T>(s: seq<T>, offset: nat, c1: nat, c2: nat)
    ensures Slice(s, offset, c1 + c2) == Slice(s, offset, c1) + Slice(s, offset + c1, c2)
  {
    var a, b, c := Slice(s, offset, c1 + c2), Slice(s, offset, c1), Slice(s, offset + c1, c2);
    assert |a| == |b| + |c|;
    forall i | 0 <= i < |a| ensures a[i] == (b + c)[i] {
      if i >= |b| {
        assert (b + c)[i] == c[i - |b|];
      }
    }
  }

  /** A sequence without repeats has as many elements as its set of elements. */
  lemma {:induction false} DistinctElements<T>(s: seq<T>)
    requires Distinct(s)
    ensures |Elements(s)| == |s|
  {
    if s != [] {
      var init, last := s[..|s| - 1], s[|s| - 1];
      assert s == init + [last];
      assert Distinct(init);
      assert last !in init by {
        assert forall i :: 0 <= i < |init| ==> init[i] == s[i] != s[|s| - 1];
      }
      assert Elements(s) == Elements(init) + {last};
      DistinctElements(init);
    }
  }

  /** A sequence without repeats is no longer than any set holding its elements. */
  lemma {:induction false} DistinctWithin<T>(s: seq<T>, within: set<T>)
    requires Distinct(s) && Elements(s) <= within
    ensures |s| <= |within|
  {
    if s != [] {
      var init, last := s[..|s| - 1], s[|s| - 1];
      assert s == init + [last];
      assert Elements(init) <= within - {last} by {
        forall x | x in Elements(init) ensures x in within - {last} {
          var i :| 0 <= i < |init| && init[i] == x;
          assert s[i] == x;
        }
      }
      DistinctWithin(init, within - {last});
    }
  }
}
