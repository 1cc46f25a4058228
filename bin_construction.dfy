/**
 * `create_bins` as the loop it is: one pass over the indices -1 .. size-1 of
 * a linear sequence, updating the two current bin ids, the last id minted and
 * the hash of bins in place.  The loop is proved to compute `BinsOf`.
 */
module BinConstruction {
  import opened BinScan

  /** The scan state after one more index. */
  lemma NextIndex(k: int, cuts: CalculatedCuts)
    requires -1 <= k
    ensures ScanTo(k + 1, cuts) == Step(ScanTo(k, cuts), k, cuts)
  {
  }

  /** Dropping the sentinel from the finished scan leaves `BinsOf`, which is well formed. */
  lemma FinishedScan(size: int, cc: CalculatedCuts, s: Scan)
    requires s == ScanTo(End(size), Linear(cc))
    ensures s.bins - {-1} == BinsOf(size, cc) && WellFormedBins(s.bins - {-1}, size)
  {
    BinsWellFormed(size, cc);
  }

  /** The strands are in different bins but bonded at `idx`: fold the newer bin into the older. */
  method MergeStrands(pBinId: int, cBinId: int, bins: map<int, Bin>, idx: int, hCut: set<int>)
    returns (pBinId': int, cBinId': int, bins': map<int, Bin>)
    requires pBinId in bins && cBinId in bins
    ensures forall u :: Scan(pBinId', cBinId', u, bins') == Merge(Scan(pBinId, cBinId, u, bins), idx, hCut)
  {
    pBinId', cBinId', bins' := pBinId, cBinId, bins;
    if pBinId != cBinId && idx !in hCut {
      var minId, maxId := Min(pBinId, cBinId), Max(pBinId, cBinId);
      bins' := bins - {maxId};
      pBinId', cBinId' := minId, minId;
    }
  }

  /**
   * The body of the scan loop for index `idx`: merge the strands' bins if they
   * differ but are bonded at `idx`, record `idx` on both strands, then open a
   * fresh bin for each strand cut after `idx`.
   */
  method ScanIndex(pBinId: int, cBinId: int, uniqueId: int, bins: map<int, Bin>, idx: int, cuts: CalculatedCuts)
    returns (pBinId': int, cBinId': int, uniqueId': int, bins': map<int, Bin>)
    requires Live(Scan(pBinId, cBinId, uniqueId, bins))
    ensures Scan(pBinId', cBinId', uniqueId', bins') == Step(Scan(pBinId, cBinId, uniqueId, bins), idx, cuts)
  {
    uniqueId' := uniqueId;
    pBinId', cBinId', bins' := MergeStrands(pBinId, cBinId, bins, idx, cuts.hcBetweenStrands);

    bins' := bins'[pBinId' := bins'[pBinId'].(p := bins'[pBinId'].p + [idx])];
    bins' := bins'[cBinId' := bins'[cBinId'].(c := bins'[cBinId'].c + [idx])];

    if idx in cuts.vcPrimary {
      uniqueId' := uniqueId' + 1;
      pBinId' := uniqueId';
      bins' := SetupNewBin(bins', pBinId');
    }
    if idx in cuts.vcComplement {
      uniqueId' := uniqueId' + 1;
      cBinId' := uniqueId';
      bins' := SetupNewBin(bins', cBinId');
    }
  }

  /**
   * The scan itself: the sentinel bin -1 holds both strands to start with,
   * then every index from -1 to size - 1 is visited in turn.
   */
  method ScanIndices(size: int, cuts: CalculatedCuts) returns (pBinId: int, cBinId: int, uniqueId: int, bins: map<int, Bin>)
    ensures Scan(pBinId, cBinId, uniqueId, bins) == ScanTo(End(size), cuts)
  {
    uniqueId := -1;
    pBinId, cBinId := uniqueId, uniqueId;
    bins := SetupNewBin(map[], uniqueId);

    var idx := -1;
    while idx <= size - 1
      invariant -1 <= idx && (idx == -1 || idx <= size)
      invariant Scan(pBinId, cBinId, uniqueId, bins) == ScanTo(idx, cuts)
      decreases size - idx
    {
      pBinId, cBinId, uniqueId, bins := ScanIndex(pBinId, cBinId, uniqueId, bins, idx, cuts);
      NextIndex(idx, cuts);
      idx := idx + 1;
    }
  }

  /**
   * Builds the bins of a linear sequence of `size` indices from the
   * calculated cuts: ids in ascending order of creation, each bin holding the
   * indices of one fragment, ascending, on each strand.
   */
  method CreateBins(size: int, cc: CalculatedCuts) returns (bins: map<int, Bin>)
    ensures bins == BinsOf(size, cc) && WellFormedBins(bins, size)
  {
    // Linear sequence: -1 is a cut point on both strands.
    var cuts := cc.(vcPrimary := cc.vcPrimary + {-1}, vcComplement := cc.vcComplement + {-1});
    assert cuts == Linear(cc);

    var pBinId, cBinId, uniqueId;
    pBinId, cBinId, uniqueId, bins := ScanIndices(size, cuts);
    FinishedScan(size, cc, Scan(pBinId, cBinId, uniqueId, bins));
    // The sentinel bin only marked the start of the strands.
    bins := bins - {-1};
  }
}
