/**
 * Concrete runs of the bin scan.  Each example is stepped through index by
 * index: lemma <Name>Step<k> states what processing index k does to the state
 * reached after indices -1 .. k-1, <Name>Scan chains the steps, and
 * <Name>Drop removes the `-1` bin from the final state.
 */
module BinExamples {
  import opened BinScan
  import opened BinProperties
  import opened Emission

  /** Primary cut after 0 and 2, complement cut after 1 and 3, strands separated at 1, 2 and 3. */
  const Worked := CalculatedCuts({0, 2}, {1, 3}, {1, 2, 3})

  /** Primary cut after 1, complement cut after 3, strands separated at 2 and 3. */
  const Staggered := CalculatedCuts({1}, {3}, {2, 3})

  /** Primary cut after 0, no complement cut, strands separated only at 1. */
  const Dropping := CalculatedCuts({0}, {}, {1})

  /** No strand cut, strands separated only at 0. */
  const LoneHorizontal := CalculatedCuts({}, {}, {0})

  /** One more index processed: the scan state advances by `Step`. */
  lemma Chain(k: int, cuts: CalculatedCuts, s: Scan, t: Scan)
    requires 0 <= k && ScanTo(k, cuts) == s && Step(s, k, cuts) == t
    ensures ScanTo(k + 1, cuts) == t
  {
  }

  /** The bins handed back are those of the final scan state, minus the `-1` bin. */
  lemma BinsAt(size: int, cc: CalculatedCuts, s: Scan, bins: map<int, Bin>)
    requires 0 <= size && ScanTo(size, Linear(cc)) == s && s.bins - {-1} == bins
    ensures BinsOf(size, cc) == bins
  {
  }

  lemma WorkedStep0(cc: CalculatedCuts)
    requires cc == Worked
    ensures Step(Scan(0, 1, 1, map[-1 := Bin([-1], [-1]), 0 := EmptyBin, 1 := EmptyBin]), 0, Linear(cc)) ==
      Scan(2, 0, 2, map[-1 := Bin([-1], [-1]), 0 := Bin([0], [0]), 2 := EmptyBin])
  {
    var m1 := Bin([-1], [-1]);
    assert Merge(Scan(0, 1, 1, map[-1 := m1, 0 := EmptyBin, 1 := EmptyBin]), 0, cc.hcBetweenStrands) == Scan(0, 0, 1, map[-1 := m1, 0 := EmptyBin]);
    assert [] + [0] == [0];
    assert Place(Scan(0, 0, 1, map[-1 := m1, 0 := EmptyBin]), 0) == Scan(0, 0, 1, map[-1 := m1, 0 := Bin([0], [0])]);
  }

  lemma WorkedStep1(cc: CalculatedCuts)
    requires cc == Worked
    ensures Step(Scan(2, 0, 2, map[-1 := Bin([-1], [-1]), 0 := Bin([0], [0]), 2 := EmptyBin]), 1, Linear(cc)) ==
      Scan(2, 3, 3, map[-1 := Bin([-1], [-1]), 0 := Bin([0], [0, 1]), 2 := Bin([1], []), 3 := EmptyBin])
  {
    var m1 := Bin([-1], [-1]);
    assert Merge(Scan(2, 0, 2, map[-1 := m1, 0 := Bin([0], [0]), 2 := EmptyBin]), 1, cc.hcBetweenStrands) == Scan(2, 0, 2, map[-1 := m1, 0 := Bin([0], [0]), 2 := EmptyBin]);
    assert [] + [1] == [1];
    assert [0] + [1] == [0, 1];
    assert Place(Scan(2, 0, 2, map[-1 := m1, 0 := Bin([0], [0]), 2 := EmptyBin]), 1) == Scan(2, 0, 2, map[-1 := m1, 0 := Bin([0], [0, 1]), 2 := Bin([1], [])]);
  }

  lemma WorkedStep2(cc: CalculatedCuts)
    requires cc == Worked
    ensures Step(Scan(2, 3, 3, map[-1 := Bin([-1], [-1]), 0 := Bin([0], [0, 1]), 2 := Bin([1], []), 3 := EmptyBin]), 2, Linear(cc)) ==
      Scan(4, 3, 4, map[-1 := Bin([-1], [-1]), 0 := Bin([0], [0, 1]), 2 := Bin([1, 2], []), 3 := Bin([], [2]), 4 := EmptyBin])
  {
    var m1 := Bin([-1], [-1]);
    assert Merge(Scan(2, 3, 3, map[-1 := m1, 0 := Bin([0], [0, 1]), 2 := Bin([1], []), 3 := EmptyBin]), 2, cc.hcBetweenStrands) == Scan(2, 3, 3, map[-1 := m1, 0 := Bin([0], [0, 1]), 2 := Bin([1], []), 3 := EmptyBin]);
    assert [] + [2] == [2];
    assert [1] + [2] == [1, 2];
    assert Place(Scan(2, 3, 3, map[-1 := m1, 0 := Bin([0], [0, 1]), 2 := Bin([1], []), 3 := EmptyBin]), 2) == Scan(2, 3, 3, map[-1 := m1, 0 := Bin([0], [0, 1]), 2 := Bin([1, 2], []), 3 := Bin([], [2])]);
  }

  lemma WorkedStep3(cc: CalculatedCuts)
    requires cc == Worked
    ensures Step(Scan(4, 3, 4, map[-1 := Bin([-1], [-1]), 0 := Bin([0], [0, 1]), 2 := Bin([1, 2], []), 3 := Bin([], [2]), 4 := EmptyBin]), 3, Linear(cc)) ==
      Scan(4, 5, 5, map[-1 := Bin([-1], [-1]), 0 := Bin([0], [0, 1]), 2 := Bin([1, 2], []), 3 := Bin([], [2, 3]), 4 := Bin([3], []), 5 := EmptyBin])
  {
    var m1 := Bin([-1], [-1]);
    assert Merge(Scan(4, 3, 4, map[-1 := m1, 0 := Bin([0], [0, 1]), 2 := Bin([1, 2], []), 3 := Bin([], [2]), 4 := EmptyBin]), 3, cc.hcBetweenStrands) == Scan(4, 3, 4, map[-1 := m1, 0 := Bin([0], [0, 1]), 2 := Bin([1, 2], []), 3 := Bin([], [2]), 4 := EmptyBin]);
    assert [] + [3] == [3];
    assert [2] + [3] == [2, 3];
    assert Place(Scan(4, 3, 4, map[-1 := m1, 0 := Bin([0], [0, 1]), 2 := Bin([1, 2], []), 3 := Bin([], [2]), 4 := EmptyBin]), 3) == Scan(4, 3, 4, map[-1 := m1, 0 := Bin([0], [0, 1]), 2 := Bin([1, 2], []), 3 := Bin([], [2, 3]), 4 := Bin([3], [])]);
  }

  lemma WorkedStep4(cc: CalculatedCuts)
    requires cc == Worked
    ensures Step(Scan(4, 5, 5, map[-1 := Bin([-1], [-1]), 0 := Bin([0], [0, 1]), 2 := Bin([1, 2], []), 3 := Bin([], [2, 3]), 4 := Bin([3], []), 5 := EmptyBin]), 4, Linear(cc)) ==
      Scan(4, 4, 5, map[-1 := Bin([-1], [-1]), 0 := Bin([0], [0, 1]), 2 := Bin([1, 2], []), 3 := Bin([], [2, 3]), 4 := Bin([3, 4], [4])])
  {
    var m1 := Bin([-1], [-1]);
    assert Merge(Scan(4, 5, 5, map[-1 := m1, 0 := Bin([0], [0, 1]), 2 := Bin([1, 2], []), 3 := Bin([], [2, 3]), 4 := Bin([3], []), 5 := EmptyBin]), 4, cc.hcBetweenStrands) == Scan(4, 4, 5, map[-1 := m1, 0 := Bin([0], [0, 1]), 2 := Bin([1, 2], []), 3 := Bin([], [2, 3]), 4 := Bin([3], [])]);
    assert [] + [4] == [4];
    assert [3] + [4] == [3, 4];
    assert Place(Scan(4, 4, 5, map[-1 := m1, 0 := Bin([0], [0, 1]), 2 := Bin([1, 2], []), 3 := Bin([], [2, 3]), 4 := Bin([3], [])]), 4) == Scan(4, 4, 5, map[-1 := m1, 0 := Bin([0], [0, 1]), 2 := Bin([1, 2], []), 3 := Bin([], [2, 3]), 4 := Bin([3, 4], [4])]);
  }

  lemma WorkedStep5(cc: CalculatedCuts)
    requires cc == Worked
    ensures Step(Scan(4, 4, 5, map[-1 := Bin([-1], [-1]), 0 := Bin([0], [0, 1]), 2 := Bin([1, 2], []), 3 := Bin([], [2, 3]), 4 := Bin([3, 4], [4])]), 5, Linear(cc)) ==
      Scan(4, 4, 5, map[-1 := Bin([-1], [-1]), 0 := Bin([0], [0, 1]), 2 := Bin([1, 2], []), 3 := Bin([], [2, 3]), 4 := Bin([3, 4, 5], [4, 5])])
  {
    var m1 := Bin([-1], [-1]);
    assert Merge(Scan(4, 4, 5, map[-1 := m1, 0 := Bin([0], [0, 1]), 2 := Bin([1, 2], []), 3 := Bin([], [2, 3]), 4 := Bin([3, 4], [4])]), 5, cc.hcBetweenStrands) == Scan(4, 4, 5, map[-1 := m1, 0 := Bin([0], [0, 1]), 2 := Bin([1, 2], []), 3 := Bin([], [2, 3]), 4 := Bin([3, 4], [4])]);
    assert [3, 4] + [5] == [3, 4, 5];
    assert [4] + [5] == [4, 5];
    assert Place(Scan(4, 4, 5, map[-1 := m1, 0 := Bin([0], [0, 1]), 2 := Bin([1, 2], []), 3 := Bin([], [2, 3]), 4 := Bin([3, 4], [4])]), 5) == Scan(4, 4, 5, map[-1 := m1, 0 := Bin([0], [0, 1]), 2 := Bin([1, 2], []), 3 := Bin([], [2, 3]), 4 := Bin([3, 4, 5], [4, 5])]);
  }

  lemma WorkedScan(size: int, cc: CalculatedCuts)
    requires size == 6 && cc == Worked
    ensures ScanTo(size, Linear(cc)) == Scan(4, 4, 5, map[-1 := Bin([-1], [-1]), 0 := Bin([0], [0, 1]), 2 := Bin([1, 2], []), 3 := Bin([], [2, 3]), 4 := Bin([3, 4, 5], [4, 5])])
  {
    FirstStep(cc);
    WorkedStep0(cc);
    Chain(0, Linear(cc), Scan(0, 1, 1, map[-1 := Bin([-1], [-1]), 0 := EmptyBin, 1 := EmptyBin]), Scan(2, 0, 2, map[-1 := Bin([-1], [-1]), 0 := Bin([0], [0]), 2 := EmptyBin]));
    WorkedStep1(cc);
    Chain(1, Linear(cc), Scan(2, 0, 2, map[-1 := Bin([-1], [-1]), 0 := Bin([0], [0]), 2 := EmptyBin]), Scan(2, 3, 3, map[-1 := Bin([-1], [-1]), 0 := Bin([0], [0, 1]), 2 := Bin([1], []), 3 := EmptyBin]));
    WorkedStep2(cc);
    Chain(2, Linear(cc), Scan(2, 3, 3, map[-1 := Bin([-1], [-1]), 0 := Bin([0], [0, 1]), 2 := Bin([1], []), 3 := EmptyBin]), Scan(4, 3, 4, map[-1 := Bin([-1], [-1]), 0 := Bin([0], [0, 1]), 2 := Bin([1, 2], []), 3 := Bin([], [2]), 4 := EmptyBin]));
    WorkedStep3(cc);
    Chain(3, Linear(cc), Scan(4, 3, 4, map[-1 := Bin([-1], [-1]), 0 := Bin([0], [0, 1]), 2 := Bin([1, 2], []), 3 := Bin([], [2]), 4 := EmptyBin]), Scan(4, 5, 5, map[-1 := Bin([-1], [-1]), 0 := Bin([0], [0, 1]), 2 := Bin([1, 2], []), 3 := Bin([], [2, 3]), 4 := Bin([3], []), 5 := EmptyBin]));
    WorkedStep4(cc);
    Chain(4, Linear(cc), Scan(4, 5, 5, map[-1 := Bin([-1], [-1]), 0 := Bin([0], [0, 1]), 2 := Bin([1, 2], []), 3 := Bin([], [2, 3]), 4 := Bin([3], []), 5 := EmptyBin]), Scan(4, 4, 5, map[-1 := Bin([-1], [-1]), 0 := Bin([0], [0, 1]), 2 := Bin([1, 2], []), 3 := Bin([], [2, 3]), 4 := Bin([3, 4], [4])]));
    WorkedStep5(cc);
    Chain(5, Linear(cc), Scan(4, 4, 5, map[-1 := Bin([-1], [-1]), 0 := Bin([0], [0, 1]), 2 := Bin([1, 2], []), 3 := Bin([], [2, 3]), 4 := Bin([3, 4], [4])]), Scan(4, 4, 5, map[-1 := Bin([-1], [-1]), 0 := Bin([0], [0, 1]), 2 := Bin([1, 2], []), 3 := Bin([], [2, 3]), 4 := Bin([3, 4, 5], [4, 5])]));
  }

  lemma WorkedDrop()
    ensures map[-1 := Bin([-1], [-1]), 0 := Bin([0], [0, 1]), 2 := Bin([1, 2], []), 3 := Bin([], [2, 3]), 4 := Bin([3, 4, 5], [4, 5])] - {-1} ==
      map[0 := Bin([0], [0, 1]), 2 := Bin([1, 2], []), 3 := Bin([], [2, 3]), 4 := Bin([3, 4, 5], [4, 5])]
  {
  }

  /**
   * Size 6 with the `Worked` cuts: four fragments, ids 0, 2, 3 and 4, the
   * middle two single-stranded.
   */
  lemma WorkedExample(size: int, cc: CalculatedCuts)
    requires size == 6 && cc == Worked
    ensures BinsOf(size, cc) == map[0 := Bin([0], [0, 1]), 2 := Bin([1, 2], []), 3 := Bin([], [2, 3]), 4 := Bin([3, 4, 5], [4, 5])]
  {
    WorkedScan(size, cc);
    WorkedDrop();
    BinsAt(size, cc, Scan(4, 4, 5, map[-1 := Bin([-1], [-1]), 0 := Bin([0], [0, 1]), 2 := Bin([1, 2], []), 3 := Bin([], [2, 3]), 4 := Bin([3, 4, 5], [4, 5])]), map[0 := Bin([0], [0, 1]), 2 := Bin([1, 2], []), 3 := Bin([], [2, 3]), 4 := Bin([3, 4, 5], [4, 5])]);
  }

  lemma WorkedEmission(bins: map<int, Bin>)
    requires bins == map[0 := Bin([0], [0, 1]), 2 := Bin([1, 2], []), 3 := Bin([], [2, 3]), 4 := Bin([3, 4, 5], [4, 5])]
    ensures Emitted(bins) == [Fragment([0], [0, 1]), Fragment([1, 2], []), Fragment([], [2, 3]), Fragment([3, 4, 5], [4, 5])]
  {
    var ids := [0, 2, 3, 4];
    var fragments := [Fragment([0], [0, 1]), Fragment([1, 2], []), Fragment([], [2, 3]), Fragment([3, 4, 5], [4, 5])];
    assert forall x :: x in ids <==> x in bins;
    assert forall i :: 0 <= i < |ids| ==> ids[i] in bins && fragments[i] == FragmentOf(bins, ids[i]);
    EmittedFrom(bins, ids, fragments);
  }

  /** The worked example's fragments, emitted in ascending id order 0, 2, 3, 4. */
  lemma WorkedFragments(size: int, cc: CalculatedCuts)
    requires size == 6 && cc == Worked
    ensures Emitted(BinsOf(size, cc)) ==
      [Fragment([0], [0, 1]), Fragment([1, 2], []), Fragment([], [2, 3]), Fragment([3, 4, 5], [4, 5])]
  {
    WorkedExample(size, cc);
    WorkedEmission(BinsOf(size, cc));
  }

  lemma StaggeredStep0(cc: CalculatedCuts)
    requires cc == Staggered
    ensures Step(Scan(0, 1, 1, map[-1 := Bin([-1], [-1]), 0 := EmptyBin, 1 := EmptyBin]), 0, Linear(cc)) ==
      Scan(0, 0, 1, map[-1 := Bin([-1], [-1]), 0 := Bin([0], [0])])
  {
    var m1 := Bin([-1], [-1]);
    assert Merge(Scan(0, 1, 1, map[-1 := m1, 0 := EmptyBin, 1 := EmptyBin]), 0, cc.hcBetweenStrands) == Scan(0, 0, 1, map[-1 := m1, 0 := EmptyBin]);
    assert [] + [0] == [0];
    assert Place(Scan(0, 0, 1, map[-1 := m1, 0 := EmptyBin]), 0) == Scan(0, 0, 1, map[-1 := m1, 0 := Bin([0], [0])]);
  }

  lemma StaggeredStep1(cc: CalculatedCuts)
    requires cc == Staggered
    ensures Step(Scan(0, 0, 1, map[-1 := Bin([-1], [-1]), 0 := Bin([0], [0])]), 1, Linear(cc)) ==
      Scan(2, 0, 2, map[-1 := Bin([-1], [-1]), 0 := Bin([0, 1], [0, 1]), 2 := EmptyBin])
  {
    var m1 := Bin([-1], [-1]);
    assert Merge(Scan(0, 0, 1, map[-1 := m1, 0 := Bin([0], [0])]), 1, cc.hcBetweenStrands) == Scan(0, 0, 1, map[-1 := m1, 0 := Bin([0], [0])]);
    assert [0] + [1] == [0, 1];
    assert Place(Scan(0, 0, 1, map[-1 := m1, 0 := Bin([0], [0])]), 1) == Scan(0, 0, 1, map[-1 := m1, 0 := Bin([0, 1], [0, 1])]);
  }

  lemma StaggeredStep2(cc: CalculatedCuts)
    requires cc == Staggered
    ensures Step(Scan(2, 0, 2, map[-1 := Bin([-1], [-1]), 0 := Bin([0, 1], [0, 1]), 2 := EmptyBin]), 2, Linear(cc)) ==
      Scan(2, 0, 2, map[-1 := Bin([-1], [-1]), 0 := Bin([0, 1], [0, 1, 2]), 2 := Bin([2], [])])
  {
    var m1 := Bin([-1], [-1]);
    assert Merge(Scan(2, 0, 2, map[-1 := m1, 0 := Bin([0, 1], [0, 1]), 2 := EmptyBin]), 2, cc.hcBetweenStrands) == Scan(2, 0, 2, map[-1 := m1, 0 := Bin([0, 1], [0, 1]), 2 := EmptyBin]);
    assert [] + [2] == [2];
    assert [0, 1] + [2] == [0, 1, 2];
    assert Place(Scan(2, 0, 2, map[-1 := m1, 0 := Bin([0, 1], [0, 1]), 2 := EmptyBin]), 2) == Scan(2, 0, 2, map[-1 := m1, 0 := Bin([0, 1], [0, 1, 2]), 2 := Bin([2], [])]);
  }

  lemma StaggeredStep3(cc: CalculatedCuts)
    requires cc == Staggered
    ensures Step(Scan(2, 0, 2, map[-1 := Bin([-1], [-1]), 0 := Bin([0, 1], [0, 1, 2]), 2 := Bin([2], [])]), 3, Linear(cc)) ==
      Scan(2, 3, 3, map[-1 := Bin([-1], [-1]), 0 := Bin([0, 1], [0, 1, 2, 3]), 2 := Bin([2, 3], []), 3 := EmptyBin])
  {
    var m1 := Bin([-1], [-1]);
    assert Merge(Scan(2, 0, 2, map[-1 := m1, 0 := Bin([0, 1], [0, 1, 2]), 2 := Bin([2], [])]), 3, cc.hcBetweenStrands) == Scan(2, 0, 2, map[-1 := m1, 0 := Bin([0, 1], [0, 1, 2]), 2 := Bin([2], [])]);
    assert [0, 1, 2] + [3] == [0, 1, 2, 3];
    assert [2] + [3] == [2, 3];
    assert Place(Scan(2, 0, 2, map[-1 := m1, 0 := Bin([0, 1], [0, 1, 2]), 2 := Bin([2], [])]), 3) == Scan(2, 0, 2, map[-1 := m1, 0 := Bin([0, 1], [0, 1, 2, 3]), 2 := Bin([2, 3], [])]);
  }

  lemma StaggeredStep4(cc: CalculatedCuts)
    requires cc == Staggered
    ensures Step(Scan(2, 3, 3, map[-1 := Bin([-1], [-1]), 0 := Bin([0, 1], [0, 1, 2, 3]), 2 := Bin([2, 3], []), 3 := EmptyBin]), 4, Linear(cc)) ==
      Scan(2, 2, 3, map[-1 := Bin([-1], [-1]), 0 := Bin([0, 1], [0, 1, 2, 3]), 2 := Bin([2, 3, 4], [4])])
  {
    var m1 := Bin([-1], [-1]);
    assert Merge(Scan(2, 3, 3, map[-1 := m1, 0 := Bin([0, 1], [0, 1, 2, 3]), 2 := Bin([2, 3], []), 3 := EmptyBin]), 4, cc.hcBetweenStrands) == Scan(2, 2, 3, map[-1 := m1, 0 := Bin([0, 1], [0, 1, 2, 3]), 2 := Bin([2, 3], [])]);
    assert [] + [4] == [4];
    assert [2, 3] + [4] == [2, 3, 4];
    assert Place(Scan(2, 2, 3, map[-1 := m1, 0 := Bin([0, 1], [0, 1, 2, 3]), 2 := Bin([2, 3], [])]), 4) == Scan(2, 2, 3, map[-1 := m1, 0 := Bin([0, 1], [0, 1, 2, 3]), 2 := Bin([2, 3, 4], [4])]);
  }

  lemma StaggeredStep5(cc: CalculatedCuts)
    requires cc == Staggered
    ensures Step(Scan(2, 2, 3, map[-1 := Bin([-1], [-1]), 0 := Bin([0, 1], [0, 1, 2, 3]), 2 := Bin([2, 3, 4], [4])]), 5, Linear(cc)) ==
      Scan(2, 2, 3, map[-1 := Bin([-1], [-1]), 0 := Bin([0, 1], [0, 1, 2, 3]), 2 := Bin([2, 3, 4, 5], [4, 5])])
  {
    var m1 := Bin([-1], [-1]);
    assert Merge(Scan(2, 2, 3, map[-1 := m1, 0 := Bin([0, 1], [0, 1, 2, 3]), 2 := Bin([2, 3, 4], [4])]), 5, cc.hcBetweenStrands) == Scan(2, 2, 3, map[-1 := m1, 0 := Bin([0, 1], [0, 1, 2, 3]), 2 := Bin([2, 3, 4], [4])]);
    assert [2, 3, 4] + [5] == [2, 3, 4, 5];
    assert [4] + [5] == [4, 5];
    assert Place(Scan(2, 2, 3, map[-1 := m1, 0 := Bin([0, 1], [0, 1, 2, 3]), 2 := Bin([2, 3, 4], [4])]), 5) == Scan(2, 2, 3, map[-1 := m1, 0 := Bin([0, 1], [0, 1, 2, 3]), 2 := Bin([2, 3, 4, 5], [4, 5])]);
  }

  lemma StaggeredScan(size: int, cc: CalculatedCuts)
    requires size == 6 && cc == Staggered
    ensures ScanTo(size, Linear(cc)) == Scan(2, 2, 3, map[-1 := Bin([-1], [-1]), 0 := Bin([0, 1], [0, 1, 2, 3]), 2 := Bin([2, 3, 4, 5], [4, 5])])
  {
    FirstStep(cc);
    StaggeredStep0(cc);
    Chain(0, Linear(cc), Scan(0, 1, 1, map[-1 := Bin([-1], [-1]), 0 := EmptyBin, 1 := EmptyBin]), Scan(0, 0, 1, map[-1 := Bin([-1], [-1]), 0 := Bin([0], [0])]));
    StaggeredStep1(cc);
    Chain(1, Linear(cc), Scan(0, 0, 1, map[-1 := Bin([-1], [-1]), 0 := Bin([0], [0])]), Scan(2, 0, 2, map[-1 := Bin([-1], [-1]), 0 := Bin([0, 1], [0, 1]), 2 := EmptyBin]));
    StaggeredStep2(cc);
    Chain(2, Linear(cc), Scan(2, 0, 2, map[-1 := Bin([-1], [-1]), 0 := Bin([0, 1], [0, 1]), 2 := EmptyBin]), Scan(2, 0, 2, map[-1 := Bin([-1], [-1]), 0 := Bin([0, 1], [0, 1, 2]), 2 := Bin([2], [])]));
    StaggeredStep3(cc);
    Chain(3, Linear(cc), Scan(2, 0, 2, map[-1 := Bin([-1], [-1]), 0 := Bin([0, 1], [0, 1, 2]), 2 := Bin([2], [])]), Scan(2, 3, 3, map[-1 := Bin([-1], [-1]), 0 := Bin([0, 1], [0, 1, 2, 3]), 2 := Bin([2, 3], []), 3 := EmptyBin]));
    StaggeredStep4(cc);
    Chain(4, Linear(cc), Scan(2, 3, 3, map[-1 := Bin([-1], [-1]), 0 := Bin([0, 1], [0, 1, 2, 3]), 2 := Bin([2, 3], []), 3 := EmptyBin]), Scan(2, 2, 3, map[-1 := Bin([-1], [-1]), 0 := Bin([0, 1], [0, 1, 2, 3]), 2 := Bin([2, 3, 4], [4])]));
    StaggeredStep5(cc);
    Chain(5, Linear(cc), Scan(2, 2, 3, map[-1 := Bin([-1], [-1]), 0 := Bin([0, 1], [0, 1, 2, 3]), 2 := Bin([2, 3, 4], [4])]), Scan(2, 2, 3, map[-1 := Bin([-1], [-1]), 0 := Bin([0, 1], [0, 1, 2, 3]), 2 := Bin([2, 3, 4, 5], [4, 5])]));
  }

  lemma StaggeredDrop()
    ensures map[-1 := Bin([-1], [-1]), 0 := Bin([0, 1], [0, 1, 2, 3]), 2 := Bin([2, 3, 4, 5], [4, 5])] - {-1} ==
      map[0 := Bin([0, 1], [0, 1, 2, 3]), 2 := Bin([2, 3, 4, 5], [4, 5])]
  {
  }

  /**
   * A staggered cut (primary after 1, complement after 3) with the strands
   * separated between the two cut points gives two fragments with a
   * complement overhang 2, 3 on the left one.
   */
  lemma StaggeredCut(size: int, cc: CalculatedCuts)
    requires size == 6 && cc == Staggered
    ensures BinsOf(size, cc) == map[0 := Bin([0, 1], [0, 1, 2, 3]), 2 := Bin([2, 3, 4, 5], [4, 5])]
  {
    StaggeredScan(size, cc);
    StaggeredDrop();
    BinsAt(size, cc, Scan(2, 2, 3, map[-1 := Bin([-1], [-1]), 0 := Bin([0, 1], [0, 1, 2, 3]), 2 := Bin([2, 3, 4, 5], [4, 5])]), map[0 := Bin([0, 1], [0, 1, 2, 3]), 2 := Bin([2, 3, 4, 5], [4, 5])]);
  }

  lemma DroppingStep0(cc: CalculatedCuts)
    requires cc == Dropping
    ensures Step(Scan(0, 1, 1, map[-1 := Bin([-1], [-1]), 0 := EmptyBin, 1 := EmptyBin]), 0, Linear(cc)) ==
      Scan(2, 0, 2, map[-1 := Bin([-1], [-1]), 0 := Bin([0], [0]), 2 := EmptyBin])
  {
    var m1 := Bin([-1], [-1]);
    assert Merge(Scan(0, 1, 1, map[-1 := m1, 0 := EmptyBin, 1 := EmptyBin]), 0, cc.hcBetweenStrands) == Scan(0, 0, 1, map[-1 := m1, 0 := EmptyBin]);
    assert [] + [0] == [0];
    assert Place(Scan(0, 0, 1, map[-1 := m1, 0 := EmptyBin]), 0) == Scan(0, 0, 1, map[-1 := m1, 0 := Bin([0], [0])]);
  }

  lemma DroppingStep1(cc: CalculatedCuts)
    requires cc == Dropping
    ensures Step(Scan(2, 0, 2, map[-1 := Bin([-1], [-1]), 0 := Bin([0], [0]), 2 := EmptyBin]), 1, Linear(cc)) ==
      Scan(2, 0, 2, map[-1 := Bin([-1], [-1]), 0 := Bin([0], [0, 1]), 2 := Bin([1], [])])
  {
    var m1 := Bin([-1], [-1]);
    assert Merge(Scan(2, 0, 2, map[-1 := m1, 0 := Bin([0], [0]), 2 := EmptyBin]), 1, cc.hcBetweenStrands) == Scan(2, 0, 2, map[-1 := m1, 0 := Bin([0], [0]), 2 := EmptyBin]);
    assert [] + [1] == [1];
    assert [0] + [1] == [0, 1];
    assert Place(Scan(2, 0, 2, map[-1 := m1, 0 := Bin([0], [0]), 2 := EmptyBin]), 1) == Scan(2, 0, 2, map[-1 := m1, 0 := Bin([0], [0, 1]), 2 := Bin([1], [])]);
  }

  lemma DroppingStep2(cc: CalculatedCuts)
    requires cc == Dropping
    ensures Step(Scan(2, 0, 2, map[-1 := Bin([-1], [-1]), 0 := Bin([0], [0, 1]), 2 := Bin([1], [])]), 2, Linear(cc)) ==
      Scan(0, 0, 2, map[-1 := Bin([-1], [-1]), 0 := Bin([0, 2], [0, 1, 2])])
  {
    var m1 := Bin([-1], [-1]);
    assert Merge(Scan(2, 0, 2, map[-1 := m1, 0 := Bin([0], [0, 1]), 2 := Bin([1], [])]), 2, cc.hcBetweenStrands) == Scan(0, 0, 2, map[-1 := m1, 0 := Bin([0], [0, 1])]);
    assert [0] + [2] == [0, 2];
    assert [0, 1] + [2] == [0, 1, 2];
    assert Place(Scan(0, 0, 2, map[-1 := m1, 0 := Bin([0], [0, 1])]), 2) == Scan(0, 0, 2, map[-1 := m1, 0 := Bin([0, 2], [0, 1, 2])]);
  }

  lemma DroppingScan(size: int, cc: CalculatedCuts)
    requires size == 3 && cc == Dropping
    ensures ScanTo(size - 1, Linear(cc)) == Scan(2, 0, 2, map[-1 := Bin([-1], [-1]), 0 := Bin([0], [0, 1]), 2 := Bin([1], [])])
    ensures ScanTo(size, Linear(cc)) == Scan(0, 0, 2, map[-1 := Bin([-1], [-1]), 0 := Bin([0, 2], [0, 1, 2])])
  {
    FirstStep(cc);
    DroppingStep0(cc);
    Chain(0, Linear(cc), Scan(0, 1, 1, map[-1 := Bin([-1], [-1]), 0 := EmptyBin, 1 := EmptyBin]), Scan(2, 0, 2, map[-1 := Bin([-1], [-1]), 0 := Bin([0], [0]), 2 := EmptyBin]));
    DroppingStep1(cc);
    Chain(1, Linear(cc), Scan(2, 0, 2, map[-1 := Bin([-1], [-1]), 0 := Bin([0], [0]), 2 := EmptyBin]), Scan(2, 0, 2, map[-1 := Bin([-1], [-1]), 0 := Bin([0], [0, 1]), 2 := Bin([1], [])]));
    assert ScanTo(2, Linear(cc)) == Scan(2, 0, 2, map[-1 := Bin([-1], [-1]), 0 := Bin([0], [0, 1]), 2 := Bin([1], [])]);
    DroppingStep2(cc);
    Chain(2, Linear(cc), Scan(2, 0, 2, map[-1 := Bin([-1], [-1]), 0 := Bin([0], [0, 1]), 2 := Bin([1], [])]), Scan(0, 0, 2, map[-1 := Bin([-1], [-1]), 0 := Bin([0, 2], [0, 1, 2])]));
  }

  lemma DroppingDrop()
    ensures map[-1 := Bin([-1], [-1]), 0 := Bin([0, 2], [0, 1, 2])] - {-1} ==
      map[0 := Bin([0, 2], [0, 1, 2])]
  {
  }

  /** Size 3 with the `Dropping` cuts: a single fragment. */
  lemma DroppingBins(size: int, cc: CalculatedCuts)
    requires size == 3 && cc == Dropping
    ensures BinsOf(size, cc) == map[0 := Bin([0, 2], [0, 1, 2])]
  {
    DroppingScan(size, cc);
    DroppingDrop();
    BinsAt(size, cc, Scan(0, 0, 2, map[-1 := Bin([-1], [-1]), 0 := Bin([0, 2], [0, 1, 2])]), map[0 := Bin([0, 2], [0, 1, 2])]);
  }

  /** In the `Dropping` run, the merge at index 2 deletes bin 2 while it still holds primary index 1. */
  lemma DroppingLoses()
    ensures !Lossless(Scan(2, 0, 2, map[-1 := Bin([-1], [-1]), 0 := Bin([0], [0, 1]), 2 := Bin([1], [])]), 2, {1})
  {
  }

  /** Primary index 1 is in no bin of the `Dropping` result. */
  lemma DroppingOwners()
    ensures PrimaryOwners(map[0 := Bin([0, 2], [0, 1, 2])], 1) == {}
  {
    assert 1 !in [0, 2];
  }

  /**
   * A merge deletes the larger-id bin with whatever it holds: primary index 1
   * sits in bin 2, which the merge at index 2 deletes, so index 1 ends up in
   * no primary list and the bins do not partition the indices.
   */
  lemma MergeDropsIndices(size: int, cc: CalculatedCuts)
    requires size == 3 && cc == Dropping
    ensures PrimaryOwners(BinsOf(size, cc), 1) == {}
    ensures !LosslessScan(size, cc)
  {
    DroppingBins(size, cc);
    DroppingOwners();
    DroppingScan(size, cc);
    DroppingLoses();
    assert !Lossless(ScanTo(size - 1, Linear(cc)), size - 1, cc.hcBetweenStrands);
  }

  lemma LoneHorizontalStep0(cc: CalculatedCuts)
    requires cc == LoneHorizontal
    ensures Step(Scan(0, 1, 1, map[-1 := Bin([-1], [-1]), 0 := EmptyBin, 1 := EmptyBin]), 0, Linear(cc)) ==
      Scan(0, 1, 1, map[-1 := Bin([-1], [-1]), 0 := Bin([0], []), 1 := Bin([], [0])])
  {
    var m1 := Bin([-1], [-1]);
    assert Merge(Scan(0, 1, 1, map[-1 := m1, 0 := EmptyBin, 1 := EmptyBin]), 0, cc.hcBetweenStrands) == Scan(0, 1, 1, map[-1 := m1, 0 := EmptyBin, 1 := EmptyBin]);
    assert [] + [0] == [0];
    assert Place(Scan(0, 1, 1, map[-1 := m1, 0 := EmptyBin, 1 := EmptyBin]), 0) == Scan(0, 1, 1, map[-1 := m1, 0 := Bin([0], []), 1 := Bin([], [0])]);
  }

  lemma LoneHorizontalStep1(cc: CalculatedCuts)
    requires cc == LoneHorizontal
    ensures Step(Scan(0, 1, 1, map[-1 := Bin([-1], [-1]), 0 := Bin([0], []), 1 := Bin([], [0])]), 1, Linear(cc)) ==
      Scan(0, 0, 1, map[-1 := Bin([-1], [-1]), 0 := Bin([0, 1], [1])])
  {
    var m1 := Bin([-1], [-1]);
    assert Merge(Scan(0, 1, 1, map[-1 := m1, 0 := Bin([0], []), 1 := Bin([], [0])]), 1, cc.hcBetweenStrands) == Scan(0, 0, 1, map[-1 := m1, 0 := Bin([0], [])]);
    assert [0] + [1] == [0, 1];
    assert [] + [1] == [1];
    assert Place(Scan(0, 0, 1, map[-1 := m1, 0 := Bin([0], [])]), 1) == Scan(0, 0, 1, map[-1 := m1, 0 := Bin([0, 1], [1])]);
  }

  lemma LoneHorizontalScan(size: int, cc: CalculatedCuts)
    requires size == 2 && cc == LoneHorizontal
    ensures ScanTo(size - 1, Linear(cc)) == Scan(0, 1, 1, map[-1 := Bin([-1], [-1]), 0 := Bin([0], []), 1 := Bin([], [0])])
    ensures ScanTo(size, Linear(cc)) == Scan(0, 0, 1, map[-1 := Bin([-1], [-1]), 0 := Bin([0, 1], [1])])
  {
    FirstStep(cc);
    LoneHorizontalStep0(cc);
    Chain(0, Linear(cc), Scan(0, 1, 1, map[-1 := Bin([-1], [-1]), 0 := EmptyBin, 1 := EmptyBin]), Scan(0, 1, 1, map[-1 := Bin([-1], [-1]), 0 := Bin([0], []), 1 := Bin([], [0])]));
    LoneHorizontalStep1(cc);
    Chain(1, Linear(cc), Scan(0, 1, 1, map[-1 := Bin([-1], [-1]), 0 := Bin([0], []), 1 := Bin([], [0])]), Scan(0, 0, 1, map[-1 := Bin([-1], [-1]), 0 := Bin([0, 1], [1])]));
  }

  lemma LoneHorizontalDrop()
    ensures map[-1 := Bin([-1], [-1]), 0 := Bin([0, 1], [1])] - {-1} == map[0 := Bin([0, 1], [1])]
  {
  }

  /** Complement index 0 is in no bin of the `LoneHorizontal` result. */
  lemma LoneHorizontalOwners()
    ensures ComplementOwners(map[0 := Bin([0, 1], [1])], 0) == {}
  {
    assert 0 !in [1];
  }

  /**
   * The `-1` bin does not protect a lone horizontal cut at index 0: the
   * strands start apart in bins 0 and 1, the merge at index 1 deletes bin 1
   * while it holds complement index 0, and that index ends up in no bin.
   */
  lemma HorizontalAtZeroDropsIndex(size: int, cc: CalculatedCuts)
    requires size == 2 && cc == LoneHorizontal
    ensures BinsOf(size, cc) == map[0 := Bin([0, 1], [1])]
    ensures ComplementOwners(BinsOf(size, cc), 0) == {}
    ensures !LosslessScan(size, cc)
  {
    LoneHorizontalScan(size, cc);
    LoneHorizontalDrop();
    BinsAt(size, cc, Scan(0, 0, 1, map[-1 := Bin([-1], [-1]), 0 := Bin([0, 1], [1])]), map[0 := Bin([0, 1], [1])]);
    LoneHorizontalOwners();
    assert !Lossless(ScanTo(size - 1, Linear(cc)), size - 1, cc.hcBetweenStrands);
  }
}
