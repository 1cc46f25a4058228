/**
 * Emitting fragments: the bins are visited in ascending id order and each
 * becomes one fragment holding its primary and complement index lists.
 */
module Emission {
  import opened BinScan

  /** One fragment of the sequence: the indices it covers on each strand. */
  datatype Fragment = Fragment(primary: seq<int>, complement: seq<int>)

  lemma HasMember(ids: set<int>)
    requires ids != {}
    ensures exists x :: x in ids
  {
    if forall x :: x !in ids {
      assert false;
    }
  }

  /** The least of a non-empty set of ids. */
  ghost function Least(ids: set<int>): (m: int)
    requires ids != {}
    ensures m in ids && forall y :: y in ids ==> m <= y
    decreases |ids|
  {
    HasMember(ids);
    var x :| x in ids;
    if ids == {x} then
      assert forall y :: y in ids ==> y == x;
      x
    else
      var rest := ids - {x};
      assert ids == rest + {x};
      var m := Least(rest);
      assert forall y :: y in ids ==> y == x || y in rest;
      if x < m then x else m
  }

  /** The ids in ascending order: the key order of `Hash#sort`. */
  ghost function SortedIds(ids: set<int>): (r: seq<int>)
    ensures Increasing(r) && |r| == |ids|
    ensures forall x :: x in r <==> x in ids
    decreases |ids|
  {
    if ids == {} then []
    else
      var m := Least(ids);
      var rest := SortedIds(ids - {m});
      assert forall i :: 0 <= i < |rest| ==> m < rest[i] by {
        forall i | 0 <= i < |rest| ensures m < rest[i] {
          assert rest[i] in ids - {m};
        }
      }
      [m] + rest
  }

  /** An increasing listing of exactly the ids starts with the least id, then lists the rest. */
  lemma HeadIsLeast(ids: set<int>, xs: seq<int>)
    requires Increasing(xs) && (forall x :: x in xs <==> x in ids) && xs != []
    ensures xs[0] in ids
    ensures Least(ids) == xs[0] && Increasing(xs[1..])
    ensures forall x :: x in xs[1..] <==> x in ids - {xs[0]}
  {
    assert xs[0] in xs;
    forall y | y in ids ensures xs[0] <= y {
      var i :| 0 <= i < |xs| && xs[i] == y;
    }
    forall x ensures x in xs[1..] <==> x in ids - {xs[0]} {
      if x in xs[1..] {
        var i :| 1 <= i < |xs| && xs[i] == x;
      }
      if x in ids - {xs[0]} {
        var i :| 0 <= i < |xs| && xs[i] == x;
        assert x == xs[1..][i - 1];
      }
    }
  }

  /** An increasing listing of exactly the ids is the sorted one: the order is unique. */
  lemma {:induction false} SortedUnique(ids: set<int>, xs: seq<int>)
    requires Increasing(xs) && forall x :: x in xs <==> x in ids
    ensures xs == SortedIds(ids)
    decreases |xs|
  {
    if xs == [] {
      assert forall x :: x !in ids;
      assert ids == {};
    } else {
      HeadIsLeast(ids, xs);
      SortedUnique(ids - {xs[0]}, xs[1..]);
      SortedFromLeast(ids, xs[0]);
      assert xs == [xs[0]] + xs[1..];
    }
  }

  /** The fragment a bin becomes. */
  function FragmentOf(bins: map<int, Bin>, id: int): Fragment
    requires id in bins
  {
    Fragment(bins[id].p, bins[id].c)
  }

  /** The fragments of `bins`, one per bin, in ascending id order. */
  ghost function Emitted(bins: map<int, Bin>): (r: seq<Fragment>)
    ensures |r| == |bins|
  {
    var ids := SortedIds(bins.Keys);
    seq(|ids|, i requires 0 <= i < |ids| => FragmentOf(bins, ids[i]))
  }

  /** Given the ids in ascending order, the emitted fragments are their bins' fragments in that order. */
  lemma EmittedAlong(bins: map<int, Bin>, ids: seq<int>)
    requires Increasing(ids) && forall x :: x in ids <==> x in bins
    ensures |Emitted(bins)| == |ids|
    ensures forall i :: 0 <= i < |ids| ==> ids[i] in bins && Emitted(bins)[i] == FragmentOf(bins, ids[i])
  {
    SortedUnique(bins.Keys, ids);
    forall i | 0 <= i < |ids| ensures ids[i] in bins {
      assert ids[i] in ids;
    }
  }

  /** The emitted fragments, read off an ascending listing of the ids. */
  lemma EmittedFrom(bins: map<int, Bin>, ids: seq<int>, fragments: seq<Fragment>)
    requires Increasing(ids) && forall x :: x in ids <==> x in bins
    requires |fragments| == |ids|
    requires forall i :: 0 <= i < |ids| ==> ids[i] in bins && fragments[i] == FragmentOf(bins, ids[i])
    ensures Emitted(bins) == fragments
  {
    EmittedAlong(bins, ids);
  }

  /** The number of ids below `id`: its position in ascending order. */
  ghost function Rank(ids: set<int>, id: int): nat {
    |set y | y in ids && y < id|
  }

  /**
   * Every bin is emitted, at the position given by the number of smaller
   * ids: fragments come out in ascending id order.
   */
  lemma EmittedInOrder(bins: map<int, Bin>)
    ensures forall id :: id in bins ==>
      Rank(bins.Keys, id) < |Emitted(bins)| && Emitted(bins)[Rank(bins.Keys, id)] == FragmentOf(bins, id)
  {
    var ids := SortedIds(bins.Keys);
    forall id | id in bins
      ensures Rank(bins.Keys, id) < |Emitted(bins)| && Emitted(bins)[Rank(bins.Keys, id)] == FragmentOf(bins, id)
    {
      var i :| 0 <= i < |ids| && ids[i] == id;
      RankInSorted(bins.Keys, ids, i);
    }
  }

  /** In an increasing listing of a set, position i holds the id with exactly i smaller ids. */
  lemma RankInSorted(ids: set<int>, xs: seq<int>, i: int)
    requires Increasing(xs) && (forall x :: x in xs <==> x in ids) && 0 <= i < |xs|
    ensures Rank(ids, xs[i]) == i
  {
    var prefix := xs[..i];
    assert (set y | y in ids && y < xs[i]) == Elements(prefix) by {
      forall y | y in ids && y < xs[i] ensures y in prefix {
        var j :| 0 <= j < |xs| && xs[j] == y;
        assert j < i;
        assert prefix[j] == y;
      }
      forall y | y in prefix ensures y in ids && y < xs[i] {
        var j :| 0 <= j < i && prefix[j] == y;
        assert xs[j] == y;
      }
    }
    assert Increasing(prefix);
    DistinctCount(prefix);
  }

  /** The values listed in `xs`. */
  function Elements(xs: seq<int>): set<int> {
    set x | x in xs
  }

  /** An increasing sequence lists as many distinct values as it has entries. */
  lemma {:induction false} DistinctCount(xs: seq<int>)
    requires Increasing(xs)
    ensures |Elements(xs)| == |xs|
  {
    if xs != [] {
      var before, last := xs[..|xs| - 1], xs[|xs| - 1];
      assert Increasing(before);
      DistinctCount(before);
      assert last !in before by {
        forall j | 0 <= j < |before| ensures before[j] != last {
          assert before[j] == xs[j];
        }
      }
      assert xs == before + [last];
      assert Elements(xs) == Elements(before) + {last};
    } else {
      assert Elements(xs) == {};
    }
  }

  /** Listing a set in order starts with its least element. */
  lemma SortedFromLeast(ids: set<int>, m: int)
    requires m in ids && forall y :: y in ids ==> m <= y
    ensures SortedIds(ids) == [m] + SortedIds(ids - {m})
  {
    assert Least(ids) == m;
  }

  /** `Hash#sort` on the bins' keys: repeatedly take the least id not yet listed. */
  method SortIds(keys: set<int>) returns (ids: seq<int>)
    ensures ids == SortedIds(keys)
  {
    ids := [];
    var rest := keys;
    while rest != {}
      invariant Increasing(ids)
      invariant forall x :: x in keys <==> x in ids || x in rest
      invariant forall i, y :: 0 <= i < |ids| && y in rest ==> ids[i] < y
      decreases |rest|
    {
      assert Least(rest) in rest;
      var m :| m in rest && forall y :: y in rest ==> m <= y;
      ids := ids + [m];
      rest := rest - {m};
    }
    SortedUnique(keys, ids);
  }

  /** One fragment per listed id, in the order listed. */
  method EmitInOrder(bins: map<int, Bin>, ids: seq<int>) returns (fragments: seq<Fragment>)
    requires forall j :: 0 <= j < |ids| ==> ids[j] in bins
    ensures |fragments| == |ids|
    ensures forall j :: 0 <= j < |ids| ==> fragments[j] == FragmentOf(bins, ids[j])
  {
    fragments := [];
    for i := 0 to |ids|
      invariant |fragments| == i
      invariant forall j :: 0 <= j < i ==> fragments[j] == FragmentOf(bins, ids[j])
    {
      fragments := fragments + [FragmentOf(bins, ids[i])];
    }
  }

  /** The bins' fragments, appended in ascending id order. */
  method EmitFragments(bins: map<int, Bin>) returns (fragments: seq<Fragment>)
    ensures fragments == Emitted(bins)
  {
    var ids := SortIds(bins.Keys);
    assert forall j :: 0 <= j < |ids| ==> ids[j] in bins by {
      forall j | 0 <= j < |ids| ensures ids[j] in bins {
        assert ids[j] in ids;
      }
    }
    fragments := EmitInOrder(bins, ids);
  }
}
