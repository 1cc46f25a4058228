/**
 * The bin-construction scan of a linear SequenceRange, as a function of the
 * sequence size and the three cut sets.  `ScanTo(k, cuts)` is the state of the
 * scan's variables once the indices -1 .. k-1 have been processed; one `Step`
 * processes one index: re-attach the strands' bins (Merge), record the index
 * on both strands (Place), then start a fresh bin on every strand cut after
 * the index (CutAfter).
 */
module BinScan {

  /** The primary-strand and complement-strand indices gathered under one bin id. */
  datatype Bin = Bin(p: seq<int>, c: seq<int>)

  const EmptyBin: Bin := Bin([], [])

  /**
   * What the cut calculator yields: indices after which the primary and the
   * complement backbone is cut, and indices at which the strands are detached.
   */
  datatype CalculatedCuts = CalculatedCuts(vcPrimary: set<int>, vcComplement: set<int>, hcBetweenStrands: set<int>)

  /** The scan's variables: the current bin of each strand, the last id minted, the bins. */
  datatype Scan = Scan(pId: int, cId: int, uniqueId: int, bins: map<int, Bin>)

  function Min(a: int, b: int): int { if a <= b then a else b }

  function Max(a: int, b: int): int { if a <= b then b else a }

  /** `xs` is strictly increasing. */
  predicate Increasing(xs: seq<int>) {
    forall i, j :: 0 <= i < j < |xs| ==> xs[i] < xs[j]
  }

  /** `xs` is strictly increasing and every element lies in [lo, hi). */
  predicate Ascending(xs: seq<int>, lo: int, hi: int) {
    && (forall i :: 0 <= i < |xs| ==> lo <= xs[i] < hi)
    && Increasing(xs)
  }

  /** No element of `xs` occurs in `ys`. */
  predicate Apart(xs: seq<int>, ys: seq<int>) {
    forall x :: x in xs ==> x !in ys
  }

  /** Both current ids name a bin. */
  predicate Live(s: Scan) {
    s.pId in s.bins && s.cId in s.bins
  }

  /** The linear setup: -1 is a cut point on both strands, so real data starts in fresh bins. */
  function Linear(cc: CalculatedCuts): (r: CalculatedCuts)
    ensures -1 in r.vcPrimary && -1 in r.vcComplement && r.hcBetweenStrands == cc.hcBetweenStrands
    ensures forall i :: i != -1 ==> (i in r.vcPrimary <==> i in cc.vcPrimary) && (i in r.vcComplement <==> i in cc.vcComplement)
  {
    cc.(vcPrimary := cc.vcPrimary + {-1}, vcComplement := cc.vcComplement + {-1})
  }

  /** A bin with empty lists under `id`; every other bin is left as it was. */
  function SetupNewBin(bins: map<int, Bin>, id: int): (r: map<int, Bin>)
    ensures r.Keys == bins.Keys + {id} && r[id] == EmptyBin
    ensures forall k :: k in bins && k != id ==> r[k] == bins[k]
  {
    bins[id := EmptyBin]
  }

  /** Both strands start in the sentinel bin -1. */
  function Start(): Scan {
    Scan(-1, -1, -1, SetupNewBin(map[], -1))
  }

  /** The strands are in different bins but still bonded at `idx`. */
  predicate Merges(s: Scan, idx: int, hCut: set<int>) {
    s.pId != s.cId && idx !in hCut
  }

  function Merge(s: Scan, idx: int, hCut: set<int>): Scan {
    if Merges(s, idx, hCut) then
      var lo := Min(s.pId, s.cId);
      Scan(lo, lo, s.uniqueId, s.bins - {Max(s.pId, s.cId)})
    else
      s
  }

  function Place(s: Scan, idx: int): Scan
    requires Live(s)
  {
    var withP := s.bins[s.pId := s.bins[s.pId].(p := s.bins[s.pId].p + [idx])];
    s.(bins := withP[s.cId := withP[s.cId].(c := withP[s.cId].c + [idx])])
  }

  /** A fresh, empty bin for the primary strand, one past the last id minted. */
  function MintPrimary(s: Scan): Scan {
    Scan(s.uniqueId + 1, s.cId, s.uniqueId + 1, SetupNewBin(s.bins, s.uniqueId + 1))
  }

  /** A fresh, empty bin for the complement strand, one past the last id minted. */
  function MintComplement(s: Scan): Scan {
    Scan(s.pId, s.uniqueId + 1, s.uniqueId + 1, SetupNewBin(s.bins, s.uniqueId + 1))
  }

  function CutAfter(s: Scan, idx: int, cuts: CalculatedCuts): Scan {
    var s' := if idx in cuts.vcPrimary then MintPrimary(s) else s;
    if idx in cuts.vcComplement then MintComplement(s') else s'
  }

  function Step(s: Scan, idx: int, cuts: CalculatedCuts): (t: Scan)
    requires Live(s)
    ensures Live(t)
  {
    CutAfter(Place(Merge(s, idx, cuts.hcBetweenStrands), idx), idx, cuts)
  }

  /** The scan's state once the indices -1 .. k-1 have been processed. */
  function ScanTo(k: int, cuts: CalculatedCuts): (s: Scan)
    requires -1 <= k
    ensures Live(s)
    decreases k + 1
  {
    if k == -1 then Start() else Step(ScanTo(k - 1, cuts), k - 1, cuts)
  }

  /** The last index the scan visits is End(size) - 1: `-1.upto(size - 1)`. */
  function End(size: int): int {
    if size < -1 then -1 else size
  }

  /** The bins of a linear sequence of `size` indices: the scan's bins without the sentinel. */
  function BinsOf(size: int, cc: CalculatedCuts): map<int, Bin> {
    ScanTo(End(size), Linear(cc)).bins - {-1}
  }

  /** Ids: both current ids are real (non-sentinel) bins and no id exceeds the last minted. */
  ghost predicate IdsInv(s: Scan) {
    && Live(s)
    && 0 <= s.pId <= s.uniqueId && 0 <= s.cId <= s.uniqueId
    && (forall id :: id in s.bins ==> -1 <= id <= s.uniqueId)
    && -1 in s.bins && s.bins[-1] == Bin([-1], [-1])
  }

  /** Every real bin's lists are strictly increasing within [0, k). */
  ghost predicate ListsInv(s: Scan, k: int) {
    forall id :: id in s.bins && id != -1 ==> Ascending(s.bins[id].p, 0, k) && Ascending(s.bins[id].c, 0, k)
  }

  /** No index is in two bins on the same strand. */
  ghost predicate ApartInv(s: Scan) {
    && (forall a, b :: a in s.bins && b in s.bins && a != b ==> Apart(s.bins[a].p, s.bins[b].p))
    && (forall a, b :: a in s.bins && b in s.bins && a != b ==> Apart(s.bins[a].c, s.bins[b].c))
  }

  /** What holds of the scan after indices -1 .. k-1, k >= 0. */
  ghost predicate Inv(s: Scan, k: int) {
    IdsInv(s) && ListsInv(s, k) && ApartInv(s)
  }

  /** Index -1 goes to the sentinel bin, and each strand then gets a fresh bin of its own. */
  lemma FirstStep(cc: CalculatedCuts)
    ensures ScanTo(0, Linear(cc)) == Scan(0, 1, 1, map[-1 := Bin([-1], [-1]), 0 := EmptyBin, 1 := EmptyBin])
  {
    var cuts := Linear(cc);
    assert Start() == Scan(-1, -1, -1, map[-1 := EmptyBin]);
    assert Merge(Start(), -1, cuts.hcBetweenStrands) == Start();
    var s := Place(Start(), -1);
    assert [] + [-1] == [-1];
    assert s.bins == map[-1 := Bin([-1], [-1])];
    assert ScanTo(0, cuts) == CutAfter(s, -1, cuts);
  }

  lemma FirstInv(cc: CalculatedCuts)
    ensures Inv(ScanTo(0, Linear(cc)), 0)
  {
    FirstStep(cc);
    var s := ScanTo(0, Linear(cc));
    assert forall id :: id in s.bins ==> s.bins[id] == EmptyBin || id == -1;
  }

  lemma MergeKeeps(s: Scan, k: int, hCut: set<int>)
    requires Inv(s, k)
    ensures Inv(Merge(s, k, hCut), k)
  {
  }

  /** Where Place puts `idx`: last on the primary list of `pId` and the complement list of `cId`. */
  lemma PlaceShape(s: Scan, idx: int)
    requires Live(s)
    ensures var t := Place(s, idx);
      && t.pId == s.pId && t.cId == s.cId && t.uniqueId == s.uniqueId && t.bins.Keys == s.bins.Keys
      && (forall id :: id in s.bins ==>
            t.bins[id].p == (if id == s.pId then s.bins[id].p + [idx] else s.bins[id].p) &&
            t.bins[id].c == (if id == s.cId then s.bins[id].c + [idx] else s.bins[id].c))
  {
  }

  lemma AscendingGrows(xs: seq<int>, ys: seq<int>, k: int)
    requires 0 <= k && Ascending(xs, 0, k) && (ys == xs || ys == xs + [k])
    ensures Ascending(ys, 0, k + 1) && k !in xs
  {
  }

  lemma ApartGrows(xa: seq<int>, xb: seq<int>, ya: seq<int>, yb: seq<int>, k: int)
    requires Apart(xa, xb) && k !in xa && k !in xb
    requires (ya == xa && yb == xb) || (ya == xa + [k] && yb == xb) || (ya == xa && yb == xb + [k])
    ensures Apart(ya, yb)
  {
  }

  /** Index `k` is not yet in any bin once the scan has passed only 0 .. k-1. */
  lemma NotYetPlaced(s: Scan, k: int)
    requires 0 <= k && Inv(s, k)
    ensures forall id :: id in s.bins ==> k !in s.bins[id].p && k !in s.bins[id].c
  {
    forall id | id in s.bins
      ensures k !in s.bins[id].p && k !in s.bins[id].c
    {
      if id == -1 {
        assert s.bins[id] == Bin([-1], [-1]);
      } else {
        AscendingGrows(s.bins[id].p, s.bins[id].p, k);
        AscendingGrows(s.bins[id].c, s.bins[id].c, k);
      }
    }
  }

  lemma PlaceKeepsLists(s: Scan, k: int)
    requires 0 <= k && Inv(s, k)
    ensures ListsInv(Place(s, k), k + 1)
  {
    var t := Place(s, k);
    PlaceShape(s, k);
    forall id | id in t.bins && id != -1
      ensures Ascending(t.bins[id].p, 0, k + 1) && Ascending(t.bins[id].c, 0, k + 1)
    {
      AscendingGrows(s.bins[id].p, t.bins[id].p, k);
      AscendingGrows(s.bins[id].c, t.bins[id].c, k);
    }
  }

  lemma PlaceKeepsApart(s: Scan, k: int)
    requires 0 <= k && Inv(s, k)
    ensures ApartInv(Place(s, k))
  {
    var t := Place(s, k);
    PlaceShape(s, k);
    NotYetPlaced(s, k);
    forall a, b | a in t.bins && b in t.bins && a != b
      ensures Apart(t.bins[a].p, t.bins[b].p) && Apart(t.bins[a].c, t.bins[b].c)
    {
      ApartGrows(s.bins[a].p, s.bins[b].p, t.bins[a].p, t.bins[b].p, k);
      ApartGrows(s.bins[a].c, s.bins[b].c, t.bins[a].c, t.bins[b].c, k);
    }
  }

  lemma PlaceKeeps(s: Scan, k: int)
    requires 0 <= k && Inv(s, k)
    ensures Inv(Place(s, k), k + 1)
  {
    PlaceShape(s, k);
    assert IdsInv(Place(s, k));
    PlaceKeepsLists(s, k);
    PlaceKeepsApart(s, k);
  }

  /** Adding an empty bin under an unused id keeps the lists and their disjointness. */
  lemma FreshBinKeeps(s: Scan, t: Scan, k: int)
    requires ListsInv(s, k) && ApartInv(s)
    requires s.uniqueId + 1 !in s.bins && t.bins == SetupNewBin(s.bins, s.uniqueId + 1)
    ensures ListsInv(t, k) && ApartInv(t)
  {
    var u := s.uniqueId + 1;
    forall id | id in t.bins && id != -1
      ensures Ascending(t.bins[id].p, 0, k) && Ascending(t.bins[id].c, 0, k)
    {
      if id != u { assert t.bins[id] == s.bins[id]; }
    }
    forall a, b | a in t.bins && b in t.bins && a != b
      ensures Apart(t.bins[a].p, t.bins[b].p) && Apart(t.bins[a].c, t.bins[b].c)
    {
      if a != u && b != u {
        assert t.bins[a] == s.bins[a] && t.bins[b] == s.bins[b];
      }
    }
  }

  /** Minting for the primary strand keeps the invariant. */
  lemma MintPrimaryKeeps(s: Scan, k: int)
    requires Inv(s, k)
    ensures Inv(MintPrimary(s), k)
  {
    assert s.uniqueId + 1 !in s.bins;
    FreshBinKeeps(s, MintPrimary(s), k);
  }

  /** Minting for the complement strand keeps the invariant. */
  lemma MintComplementKeeps(s: Scan, k: int)
    requires Inv(s, k)
    ensures Inv(MintComplement(s), k)
  {
    assert s.uniqueId + 1 !in s.bins;
    FreshBinKeeps(s, MintComplement(s), k);
  }

  lemma CutKeeps(s: Scan, k: int, cuts: CalculatedCuts)
    requires Inv(s, k + 1)
    ensures Inv(CutAfter(s, k, cuts), k + 1)
  {
    var s' := if k in cuts.vcPrimary then MintPrimary(s) else s;
    if k in cuts.vcPrimary { MintPrimaryKeeps(s, k + 1); }
    if k in cuts.vcComplement { MintComplementKeeps(s', k + 1); }
  }

  lemma StepKeeps(s: Scan, k: int, cuts: CalculatedCuts)
    requires 0 <= k && Inv(s, k)
    ensures Inv(Step(s, k, cuts), k + 1)
  {
    var m := Merge(s, k, cuts.hcBetweenStrands);
    MergeKeeps(s, k, cuts.hcBetweenStrands);
    PlaceKeeps(m, k);
    CutKeeps(Place(m, k), k, cuts);
  }

  lemma ScanStepKeeps(k: int, cc: CalculatedCuts)
    requires 1 <= k && Inv(ScanTo(k - 1, Linear(cc)), k - 1)
    ensures Inv(ScanTo(k, Linear(cc)), k)
  {
    var cuts := Linear(cc);
    var s := ScanTo(k - 1, cuts);
    assert ScanTo(k, cuts) == Step(s, k - 1, cuts);
    StepKeeps(s, k - 1, cuts);
  }

  /** The invariant holds at every index of the scan. */
  lemma {:induction false} ScanInvariant(k: int, cc: CalculatedCuts)
    requires 0 <= k
    ensures Inv(ScanTo(k, Linear(cc)), k)
    decreases k
  {
    if k == 0 {
      FirstInv(cc);
    } else {
      ScanInvariant(k - 1, cc);
      ScanStepKeeps(k, cc);
    }
  }

  /**
   * Finished bins: non-negative ids (the sentinel -1 is gone), every list
   * strictly increasing within [0, size), and no index in two bins on the
   * same strand.
   */
  ghost predicate WellFormedBins(bins: map<int, Bin>, size: int) {
    && -1 !in bins
    && (forall id :: id in bins ==> 0 <= id && Ascending(bins[id].p, 0, size) && Ascending(bins[id].c, 0, size))
    && (forall a, b :: a in bins && b in bins && a != b ==>
          Apart(bins[a].p, bins[b].p) && Apart(bins[a].c, bins[b].c))
  }

  /** The bins of every scan are well formed. */
  lemma BinsWellFormed(size: int, cc: CalculatedCuts)
    ensures WellFormedBins(BinsOf(size, cc), size)
  {
    if 0 <= size {
      ScanInvariant(size, cc);
    } else {
      assert ScanTo(End(size), Linear(cc)) == Start();
    }
  }
}
