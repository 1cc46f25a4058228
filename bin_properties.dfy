/**
 * What the bin scan guarantees: the merge rule, fresh and growing ids, when
 * every index ends up in exactly one bin per strand, and the worked examples.
 */
module BinProperties {
  import opened BinScan

  /** The bins whose primary (complement) list holds `j`. */
  ghost function PrimaryOwners(bins: map<int, Bin>, j: int): set<int> {
    set id | id in bins && j in bins[id].p
  }

  ghost function ComplementOwners(bins: map<int, Bin>, j: int): set<int> {
    set id | id in bins && j in bins[id].c
  }

  /** A merge at `idx` throws away only an empty bin. */
  ghost predicate Lossless(s: Scan, idx: int, hCut: set<int>)
    requires Live(s)
  {
    Merges(s, idx, hCut) ==> s.bins[Max(s.pId, s.cId)] == EmptyBin
  }

  /** No merge of the scan over 0 .. size-1 throws away a bin that already holds indices. */
  ghost predicate LosslessScan(size: int, cc: CalculatedCuts) {
    forall i :: 0 <= i < size ==> Lossless(ScanTo(i, Linear(cc)), i, cc.hcBetweenStrands)
  }

  function Indices(n: nat): (r: seq<int>)
    ensures |r| == n && forall i :: 0 <= i < n ==> r[i] == i
  {
    seq(n, i => i)
  }

  // ---------------------------------------------------------------------------
  // One step of the scan

  /**
   * Minting: the step adds one to the last id for every strand cut after `idx`,
   * the strand cut gets the fresh id and an empty bin, and every id the step
   * adds is above all ids minted before it.
   */
  lemma CutRule(s: Scan, idx: int, cuts: CalculatedCuts)
    requires Live(s)
    ensures var t := Step(s, idx, cuts);
      && t.uniqueId == s.uniqueId + (if idx in cuts.vcPrimary then 1 else 0) + (if idx in cuts.vcComplement then 1 else 0)
      && (idx in cuts.vcPrimary ==> t.pId == s.uniqueId + 1 && t.bins[t.pId] == EmptyBin)
      && (idx in cuts.vcComplement ==> t.cId == t.uniqueId && t.bins[t.cId] == EmptyBin)
      && (forall id :: id in t.bins && id !in s.bins ==> s.uniqueId < id <= t.uniqueId)
  {
    var pl := Place(Merge(s, idx, cuts.hcBetweenStrands), idx);
    PlaceShape(Merge(s, idx, cuts.hcBetweenStrands), idx);
    var s' := if idx in cuts.vcPrimary then MintPrimary(pl) else pl;
    assert s'.bins.Keys <= pl.bins.Keys + {s.uniqueId + 1};
  }

  /** A step never changes a bin whose id is at most the last id minted, except by Merge and Place. */
  lemma CutAfterKeepsOld(s: Scan, idx: int, cuts: CalculatedCuts)
    ensures var t := CutAfter(s, idx, cuts);
      && s.uniqueId <= t.uniqueId
      && forall id :: id in s.bins && id <= s.uniqueId ==> id in t.bins && t.bins[id] == s.bins[id]
  {
  }

  /**
   * The merge rule: when the strands' bins differ and `idx` is not separated,
   * the larger-id bin is gone for good and `idx` is recorded on both strands
   * of the smaller-id bin, which both strands continue in unless cut.
   */
  lemma MergeRule(s: Scan, k: int, cuts: CalculatedCuts)
    requires 0 <= k && Inv(s, k)
    requires Merges(s, k, cuts.hcBetweenStrands)
    ensures var t := Step(s, k, cuts); var lo := Min(s.pId, s.cId);
      && Max(s.pId, s.cId) !in t.bins
      && lo in t.bins && t.bins[lo] == Bin(s.bins[lo].p + [k], s.bins[lo].c + [k])
      && (k !in cuts.vcPrimary ==> t.pId == lo)
      && (k !in cuts.vcComplement ==> t.cId == lo)
  {
    var m := Merge(s, k, cuts.hcBetweenStrands);
    MergeKeeps(s, k, cuts.hcBetweenStrands);
    PlaceShape(m, k);
    PlaceKeeps(m, k);
    CutAfterKeepsOld(Place(m, k), k, cuts);
    CutRule(s, k, cuts);
  }

  /**
   * Without a merge (same bin, or the strands separated at `k`) no bin is
   * deleted, and `k` ends each strand's current list.
   */
  lemma SeparatedRule(s: Scan, k: int, cuts: CalculatedCuts)
    requires 0 <= k && Inv(s, k)
    requires !Merges(s, k, cuts.hcBetweenStrands)
    ensures var t := Step(s, k, cuts);
      && s.bins.Keys <= t.bins.Keys
      && t.bins[s.pId].p == s.bins[s.pId].p + [k]
      && t.bins[s.cId].c == s.bins[s.cId].c + [k]
  {
    PlaceShape(s, k);
    PlaceKeeps(s, k);
    CutAfterKeepsOld(Place(s, k), k, cuts);
  }

  /**
   * Ids only grow: the last id minted never decreases along the scan, and an
   * id that appears later is above every id minted earlier, so an id, once
   * deleted, is never reused.
   */
  lemma {:induction false} IdsMonotone(i: int, j: int, cuts: CalculatedCuts)
    requires -1 <= i <= j
    ensures ScanTo(i, cuts).uniqueId <= ScanTo(j, cuts).uniqueId
    ensures forall id :: id in ScanTo(j, cuts).bins && id !in ScanTo(i, cuts).bins ==> ScanTo(i, cuts).uniqueId < id
    decreases j - i
  {
    if i < j {
      IdsMonotone(i, j - 1, cuts);
      IdsStep(j, cuts);
    }
  }

  /** `CutRule` for the step that takes the scan from `j - 1` to `j`. */
  lemma IdsStep(j: int, cuts: CalculatedCuts)
    requires 0 <= j
    ensures ScanTo(j - 1, cuts).uniqueId <= ScanTo(j, cuts).uniqueId
    ensures forall id :: id in ScanTo(j, cuts).bins && id !in ScanTo(j - 1, cuts).bins ==> ScanTo(j - 1, cuts).uniqueId < id
  {
    CutRule(ScanTo(j - 1, cuts), j - 1, cuts);
  }

  // ---------------------------------------------------------------------------
  // Every index placed exactly once per strand

  ghost predicate InPrimary(bins: map<int, Bin>, j: int) {
    exists id :: id in bins && j in bins[id].p
  }

  ghost predicate InComplement(bins: map<int, Bin>, j: int) {
    exists id :: id in bins && j in bins[id].c
  }

  ghost predicate Covers(s: Scan, k: int) {
    forall j :: 0 <= j < k ==> InPrimary(s.bins, j) && InComplement(s.bins, j)
  }

  lemma MergeCovers(s: Scan, k: int, hCut: set<int>)
    requires Live(s) && Covers(s, k) && Lossless(s, k, hCut)
    ensures Covers(Merge(s, k, hCut), k)
  {
    var m := Merge(s, k, hCut);
    forall j | 0 <= j < k
      ensures InPrimary(m.bins, j) && InComplement(m.bins, j)
    {
      assert InPrimary(s.bins, j) && InComplement(s.bins, j);
      var a :| a in s.bins && j in s.bins[a].p;
      var b :| b in s.bins && j in s.bins[b].c;
      assert a in m.bins && j in m.bins[a].p;
      assert b in m.bins && j in m.bins[b].c;
    }
  }

  lemma PlaceCovers(s: Scan, k: int)
    requires Live(s) && Covers(s, k)
    ensures Covers(Place(s, k), k + 1)
  {
    var pl := Place(s, k);
    PlaceShape(s, k);
    forall j | 0 <= j < k + 1
      ensures InPrimary(pl.bins, j) && InComplement(pl.bins, j)
    {
      if j == k {
        assert s.pId in pl.bins && j in pl.bins[s.pId].p && s.cId in pl.bins && j in pl.bins[s.cId].c;
      } else {
        assert InPrimary(s.bins, j) && InComplement(s.bins, j);
      var a :| a in s.bins && j in s.bins[a].p;
        var b :| b in s.bins && j in s.bins[b].c;
        assert a in pl.bins && j in pl.bins[a].p && b in pl.bins && j in pl.bins[b].c;
      }
    }
  }

  lemma CutCovers(s: Scan, k: int, cuts: CalculatedCuts)
    requires IdsInv(s) && Covers(s, k + 1)
    ensures Covers(CutAfter(s, k, cuts), k + 1)
  {
    var t := CutAfter(s, k, cuts);
    CutAfterKeepsOld(s, k, cuts);
    forall j | 0 <= j < k + 1
      ensures InPrimary(t.bins, j) && InComplement(t.bins, j)
    {
      assert InPrimary(s.bins, j) && InComplement(s.bins, j);
      var a :| a in s.bins && j in s.bins[a].p;
      var b :| b in s.bins && j in s.bins[b].c;
      assert a in t.bins && j in t.bins[a].p && b in t.bins && j in t.bins[b].c;
    }
  }

  lemma MergePlaceCovers(s: Scan, k: int, hCut: set<int>)
    requires 0 <= k && Inv(s, k) && Covers(s, k) && Lossless(s, k, hCut)
    ensures IdsInv(Place(Merge(s, k, hCut), k)) && Covers(Place(Merge(s, k, hCut), k), k + 1)
  {
    var m := Merge(s, k, hCut);
    MergeCovers(s, k, hCut);
    MergeKeeps(s, k, hCut);
    PlaceCovers(m, k);
    PlaceKeeps(m, k);
  }

  lemma MergePlaceCoversAt(k: int, cc: CalculatedCuts)
    requires 1 <= k
    requires Covers(ScanTo(k - 1, Linear(cc)), k - 1)
    requires Lossless(ScanTo(k - 1, Linear(cc)), k - 1, cc.hcBetweenStrands)
    ensures var pl := Place(Merge(ScanTo(k - 1, Linear(cc)), k - 1, cc.hcBetweenStrands), k - 1);
      IdsInv(pl) && Covers(pl, k)
  {
    ScanInvariant(k - 1, cc);
    MergePlaceCovers(ScanTo(k - 1, Linear(cc)), k - 1, cc.hcBetweenStrands);
  }

  lemma CoverStep(k: int, cc: CalculatedCuts)
    requires 1 <= k
    requires Covers(ScanTo(k - 1, Linear(cc)), k - 1)
    requires Lossless(ScanTo(k - 1, Linear(cc)), k - 1, cc.hcBetweenStrands)
    ensures Covers(ScanTo(k, Linear(cc)), k)
  {
    MergePlaceCoversAt(k, cc);
    assert ScanTo(k, Linear(cc)) == CutAfter(Place(Merge(ScanTo(k - 1, Linear(cc)), k - 1, cc.hcBetweenStrands), k - 1), k - 1, Linear(cc));
    CutCovers(Place(Merge(ScanTo(k - 1, Linear(cc)), k - 1, cc.hcBetweenStrands), k - 1), k - 1, Linear(cc));
  }

  lemma {:induction false} ScanCovers(k: int, cc: CalculatedCuts)
    requires 0 <= k
    requires forall i :: 0 <= i < k ==> Lossless(ScanTo(i, Linear(cc)), i, cc.hcBetweenStrands)
    ensures Covers(ScanTo(k, Linear(cc)), k)
    decreases k
  {
    if 0 < k {
      ScanCovers(k - 1, cc);
      CoverStep(k, cc);
    }
  }

  lemma OwnedOnce(bins: map<int, Bin>, j: int, a: int, primary: bool)
    requires a in bins && (if primary then j in bins[a].p else j in bins[a].c)
    requires forall x, y :: x in bins && y in bins && x != y ==> Apart(bins[x].p, bins[y].p) && Apart(bins[x].c, bins[y].c)
    ensures primary ==> PrimaryOwners(bins, j) == {a}
    ensures !primary ==> ComplementOwners(bins, j) == {a}
  {
    if primary {
      forall b | b in PrimaryOwners(bins, j) ensures b == a {
      }
    } else {
      forall b | b in ComplementOwners(bins, j) ensures b == a {
      }
    }
  }

  /** For a non-negative size the result is the final scan state's bins without the `-1` bin. */
  lemma BinsAtEnd(size: int, cc: CalculatedCuts)
    requires 0 <= size
    ensures BinsOf(size, cc) == ScanTo(size, Linear(cc)).bins - {-1}
  {
  }

  /** The `-1` bin keeps holding just `-1` on both strands. */
  lemma SentinelBin(k: int, cc: CalculatedCuts)
    requires 0 <= k
    ensures -1 in ScanTo(k, Linear(cc)).bins && ScanTo(k, Linear(cc)).bins[-1] == Bin([-1], [-1])
  {
    ScanInvariant(k, cc);
  }

  /** Removing the sentinel bin keeps every index other than -1 in some bin. */
  lemma DropSentinelCovers(bins: map<int, Bin>, j: int)
    requires InPrimary(bins, j) && InComplement(bins, j) && j != -1
    requires -1 in bins && bins[-1] == Bin([-1], [-1])
    ensures InPrimary(bins - {-1}, j) && InComplement(bins - {-1}, j)
  {
    var a :| a in bins && j in bins[a].p;
    var b :| b in bins && j in bins[b].c;
    assert a in bins - {-1} && b in bins - {-1};
  }

  /** An index the scan has passed is in some bin of each strand when no merge lost anything. */
  lemma CoveredAtEnd(size: int, cc: CalculatedCuts, j: int)
    requires LosslessScan(size, cc) && 0 <= j < size
    ensures InPrimary(BinsOf(size, cc), j) && InComplement(BinsOf(size, cc), j)
  {
    ScanCovers(size, cc);
    SentinelBin(size, cc);
    BinsAtEnd(size, cc);
    DropSentinelCovers(ScanTo(size, Linear(cc)).bins, j);
  }

  /** An index the scan has passed is in exactly one bin per strand when no merge lost anything. */
  lemma OwnersInRange(size: int, cc: CalculatedCuts, j: int)
    requires LosslessScan(size, cc) && 0 <= j < size
    ensures |PrimaryOwners(BinsOf(size, cc), j)| == 1 && |ComplementOwners(BinsOf(size, cc), j)| == 1
  {
    var bins := BinsOf(size, cc);
    BinsWellFormed(size, cc);
    CoveredAtEnd(size, cc, j);
    var a :| a in bins && j in bins[a].p;
    var b :| b in bins && j in bins[b].c;
    OwnedOnce(bins, j, a, true);
    OwnedOnce(bins, j, b, false);
  }

  /** No bin holds an index outside 0 .. size-1. */
  lemma OwnersOutOfRange(size: int, cc: CalculatedCuts, j: int)
    requires !(0 <= j < size)
    ensures PrimaryOwners(BinsOf(size, cc), j) == {} && ComplementOwners(BinsOf(size, cc), j) == {}
  {
    var bins := BinsOf(size, cc);
    BinsWellFormed(size, cc);
    forall id | id in bins ensures j !in bins[id].p && j !in bins[id].c {
      assert Ascending(bins[id].p, 0, size) && Ascending(bins[id].c, 0, size);
    }
  }

  /**
   * When no merge throws away a non-empty bin, every index 0 .. size-1 is in
   * exactly one bin's primary list and exactly one bin's complement list, and
   * no other index appears in any bin.
   */
  lemma EachIndexOnce(size: int, cc: CalculatedCuts)
    requires LosslessScan(size, cc)
    ensures forall j :: 0 <= j < size ==>
      |PrimaryOwners(BinsOf(size, cc), j)| == 1 && |ComplementOwners(BinsOf(size, cc), j)| == 1
    ensures forall j :: !(0 <= j < size) ==>
      PrimaryOwners(BinsOf(size, cc), j) == {} && ComplementOwners(BinsOf(size, cc), j) == {}
  {
    forall j | 0 <= j < size
      ensures |PrimaryOwners(BinsOf(size, cc), j)| == 1 && |ComplementOwners(BinsOf(size, cc), j)| == 1
    {
      OwnersInRange(size, cc, j);
    }
    forall j | !(0 <= j < size)
      ensures PrimaryOwners(BinsOf(size, cc), j) == {} && ComplementOwners(BinsOf(size, cc), j) == {}
    {
      OwnersOutOfRange(size, cc, j);
    }
  }

  // ---------------------------------------------------------------------------
  // Strands never separated

  /** While the strands stay bonded, only a just-minted bin can differ, and every bin is double-stranded. */
  ghost predicate Bonded(s: Scan)
    requires Live(s)
  {
    && (s.pId != s.cId ==> s.bins[Max(s.pId, s.cId)] == EmptyBin)
    && (forall id :: id in s.bins ==> s.bins[id].p == s.bins[id].c)
  }

  lemma BondedMergePlace(s: Scan, k: int, hCut: set<int>)
    requires Live(s) && Bonded(s) && k !in hCut
    ensures var pl := Place(Merge(s, k, hCut), k); pl.pId == pl.cId && Bonded(pl)
  {
    var m := Merge(s, k, hCut);
    assert m.pId == m.cId;
    assert forall id :: id in m.bins ==> m.bins[id].p == m.bins[id].c;
    PlaceShape(m, k);
  }

  lemma BondedCut(s: Scan, k: int, cuts: CalculatedCuts)
    requires IdsInv(s) && s.pId == s.cId && Bonded(s)
    ensures Bonded(CutAfter(s, k, cuts))
  {
    var s' := if k in cuts.vcPrimary then MintPrimary(s) else s;
    assert s'.pId <= s'.uniqueId && s'.cId <= s'.uniqueId && s'.uniqueId == s.uniqueId + (if k in cuts.vcPrimary then 1 else 0);
    assert s.pId <= s.uniqueId;
    assert Bonded(s');
    if k in cuts.vcComplement {
      var t := MintComplement(s');
      assert t.cId == s'.uniqueId + 1 && t.pId <= s'.uniqueId;
      assert t.bins[t.cId] == EmptyBin;
    }
  }

  lemma BondedStep(k: int, cc: CalculatedCuts)
    requires 1 <= k && Bonded(ScanTo(k - 1, Linear(cc))) && k - 1 !in cc.hcBetweenStrands
    ensures Bonded(ScanTo(k, Linear(cc)))
  {
    var cuts := Linear(cc);
    var s := ScanTo(k - 1, cuts);
    ScanInvariant(k - 1, cc);
    var m := Merge(s, k - 1, cuts.hcBetweenStrands);
    BondedMergePlace(s, k - 1, cuts.hcBetweenStrands);
    MergeKeeps(s, k - 1, cuts.hcBetweenStrands);
    PlaceKeeps(m, k - 1);
    BondedCut(Place(m, k - 1), k - 1, cuts);
  }

  lemma {:induction false} BondedScan(k: int, cc: CalculatedCuts)
    requires 0 <= k
    requires forall j :: 0 <= j < k ==> j !in cc.hcBetweenStrands
    ensures Bonded(ScanTo(k, Linear(cc)))
    decreases k
  {
    if k == 0 {
      FirstStep(cc);
    } else {
      BondedScan(k - 1, cc);
      BondedStep(k, cc);
    }
  }

  /**
   * With no separated index in 0 .. size-1 every merge is lossless, so the
   * bins partition the indices, and every fragment holds the same indices on
   * both strands.
   */
  lemma NoSeparation(size: int, cc: CalculatedCuts)
    requires forall j :: 0 <= j < size ==> j !in cc.hcBetweenStrands
    ensures LosslessScan(size, cc)
    ensures forall id :: id in BinsOf(size, cc) ==> BinsOf(size, cc)[id].p == BinsOf(size, cc)[id].c
  {
    forall i | 0 <= i < size
      ensures Lossless(ScanTo(i, Linear(cc)), i, cc.hcBetweenStrands)
    {
      BondedScan(i, cc);
    }
    if 0 <= size {
      BondedScan(size, cc);
    } else {
      assert ScanTo(End(size), Linear(cc)) == Start();
    }
  }

  // ---------------------------------------------------------------------------
  // No cuts

  lemma {:induction false} NoCutsScan(k: int, cc: CalculatedCuts)
    requires 1 <= k
    requires forall j :: 0 <= j < k ==> j !in cc.vcPrimary && j !in cc.vcComplement
    requires 0 !in cc.hcBetweenStrands
    ensures ScanTo(k, Linear(cc)) == Scan(0, 0, 1, map[-1 := Bin([-1], [-1]), 0 := Bin(Indices(k), Indices(k))])
    decreases k
  {
    var cuts := Linear(cc);
    if k == 1 {
      FirstStep(cc);
      var m1 := Bin([-1], [-1]);
      assert Indices(1) == [0];
      assert Merge(ScanTo(0, cuts), 0, cuts.hcBetweenStrands) == Scan(0, 0, 1, map[-1 := m1, 0 := EmptyBin]);
      assert [] + [0] == [0];
      assert Place(Scan(0, 0, 1, map[-1 := m1, 0 := EmptyBin]), 0) == Scan(0, 0, 1, map[-1 := m1, 0 := Bin([0], [0])]);
      assert 0 !in cuts.vcPrimary && 0 !in cuts.vcComplement;
    } else {
      NoCutsScan(k - 1, cc);
      assert Indices(k - 1) + [k - 1] == Indices(k);
    }
  }

  /**
   * Without vertical cuts in 0 .. size-1 (and index 0 not separated) the
   * result is one bin, id 0, holding 0 .. size-1 on both strands: horizontal
   * cuts alone never split a fragment.
   */
  lemma NoCutsOneFragment(size: int, cc: CalculatedCuts)
    requires 1 <= size
    requires forall j :: 0 <= j < size ==> j !in cc.vcPrimary && j !in cc.vcComplement
    requires 0 !in cc.hcBetweenStrands
    ensures BinsOf(size, cc) == map[0 := Bin(Indices(size), Indices(size))]
  {
    NoCutsScan(size, cc);
  }
}
