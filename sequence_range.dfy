/**
 * A SequenceRange: a double-stranded stretch of sequence with optional
 * bounds on each strand, the cut ranges registered against it, and the
 * fragments those cuts produce, cached until the next registration.
 */
module SequenceRanges {
  import opened Wrappers
  import opened BinScan
  import opened BinConstruction
  import opened Emission

  /**
   * A cut range: a vertical cut given by up to four coordinates (left and
   * right on the primary, then on the complement strand), or a horizontal
   * cut separating the strands from `left` to `right`.
   */
  datatype CutRange =
    | Vertical(pCutLeft: Option<int>, pCutRight: Option<int>, cCutLeft: Option<int>, cCutRight: Option<int>)
    | Horizontal(left: int, right: int)

  /** A value handed to `add_cut_ranges`: a cut range, an array (possibly nested), or anything else. */
  datatype Arg = Cut(range: CutRange) | List(items: seq<Arg>) | Other

  datatype Error = ArgumentError | IndexError | TypeError

  /** The envelope of both strands: leftmost and rightmost bound and the length between them. */
  datatype Extent = Extent(left: int, right: int, size: int)

  /** `x` is the least of the bounds that are set. */
  predicate LeastOf(x: int, a: Option<int>, b: Option<int>) {
    (a == Some(x) || b == Some(x)) && (a.Some? ==> x <= a.value) && (b.Some? ==> x <= b.value)
  }

  /** `x` is the greatest of the bounds that are set. */
  predicate GreatestOf(x: int, a: Option<int>, b: Option<int>) {
    (a == Some(x) || b == Some(x)) && (a.Some? ==> a.value <= x) && (b.Some? ==> b.value <= x)
  }

  /** A strand with both bounds set whose left bound lies right of its right bound. */
  predicate Inverted(lo: Option<int>, hi: Option<int>) {
    lo.Some? && hi.Some? && lo.value > hi.value
  }

  /** The least of the bounds that are set, if any. */
  function MinDefined(a: Option<int>, b: Option<int>): (r: Option<int>)
    ensures r.None? <==> a.None? && b.None?
    ensures r.Some? ==> LeastOf(r.value, a, b)
  {
    match (a, b)
    case (None, None) => None
    case (Some(x), None) => Some(x)
    case (None, Some(y)) => Some(y)
    case (Some(x), Some(y)) => Some(Min(x, y))
  }

  /** The greatest of the bounds that are set, if any. */
  function MaxDefined(a: Option<int>, b: Option<int>): (r: Option<int>)
    ensures r.None? <==> a.None? && b.None?
    ensures r.Some? ==> GreatestOf(r.value, a, b)
  {
    match (a, b)
    case (None, None) => None
    case (Some(x), None) => Some(x)
    case (None, Some(y)) => Some(y)
    case (Some(x), Some(y)) => Some(Max(x, y))
  }

  /**
   * The checks and the envelope computed when a SequenceRange is built.
   * Only bounds on the same strand are compared with each other.
   */
  function Validate(pLeft: Option<int>, pRight: Option<int>, cLeft: Option<int>, cRight: Option<int>): (r: Result<Extent, Error>)
    ensures r.Failure? <==>
      || (pLeft.None? && cLeft.None?)
      || (pRight.None? && cRight.None?)
      || Inverted(pLeft, pRight)
      || Inverted(cLeft, cRight)
    ensures r.Failure? ==> r.error == ArgumentError
    ensures r.Success? ==>
      && LeastOf(r.value.left, pLeft, cLeft)
      && GreatestOf(r.value.right, pRight, cRight)
      && r.value.size == r.value.right - r.value.left + 1
    ensures r.Success? && ((pLeft.Some? && pRight.Some?) || (cLeft.Some? && cRight.Some?)) ==>
      r.value.left <= r.value.right && r.value.size >= 1
  {
    if pLeft.None? && cLeft.None? then Failure(ArgumentError)
    else if pRight.None? && cRight.None? then Failure(ArgumentError)
    else if Inverted(pLeft, pRight) then Failure(ArgumentError)
    else if Inverted(cLeft, cRight) then Failure(ArgumentError)
    else
      var left := MinDefined(pLeft, cLeft).value;
      var right := MaxDefined(pRight, cRight).value;
      Success(Extent(left, right, right - left + 1))
  }

  /** Bounds on different strands are never compared: the envelope can be inverted. */
  lemma InvertedEnvelope()
    ensures Validate(Some(5), None, None, Some(3)) == Success(Extent(5, 3, -1))
  {
  }

  /** An envelope inverted by ten or more leaves a size whose placeholder string cannot be built. */
  lemma UnbuildablePlaceholder()
    ensures Validate(Some(20), None, None, Some(9)) == Success(Extent(20, 9, -10))
    ensures PlaceholderFails(-10) && !PlaceholderFails(-9)
  {
  }

  /** A coordinate that is either unset or inside [left, right]. */
  predicate Within(left: int, right: int, coordinate: Option<int>) {
    coordinate.None? || (left <= coordinate.value && coordinate.value <= right)
  }

  /** The bounds check on raw vertical-cut coordinates, one coordinate after another. */
  function CheckCut(left: int, right: int, pCutLeft: Option<int>, pCutRight: Option<int>, cCutLeft: Option<int>, cCutRight: Option<int>): (r: Outcome<Error>)
    ensures r.Pass? <==>
      Within(left, right, pCutLeft) && Within(left, right, pCutRight) &&
      Within(left, right, cCutLeft) && Within(left, right, cCutRight)
    ensures r.Fail? ==> r.error == IndexError
  {
    if !Within(left, right, pCutLeft) then Fail(IndexError)
    else if !Within(left, right, pCutRight) then Fail(IndexError)
    else if !Within(left, right, cCutLeft) then Fail(IndexError)
    else if !Within(left, right, cCutRight) then Fail(IndexError)
    else Pass
  }

  /** `Array#flatten`: nested arrays are spliced in place, in order. */
  function Flatten(args: seq<Arg>): (r: seq<Arg>)
    ensures forall a :: a in r ==> !a.List?
    decreases args
  {
    if args == [] then []
    else
      FlattenHead(args[0]) + Flatten(args[1..])
  }

  /** The first entry's contribution to a flattening. */
  function FlattenHead(arg: Arg): seq<Arg> {
    if arg.List? then Flatten(arg.items) else [arg]
  }

  lemma FlattenCons(args: seq<Arg>)
    requires args != []
    ensures Flatten(args) == FlattenHead(args[0]) + Flatten(args[1..])
  {
  }

  /** Flattening distributes over concatenation. */
  lemma {:induction false} FlattenAppend(a: seq<Arg>, b: seq<Arg>)
    ensures Flatten(a + b) == Flatten(a) + Flatten(b)
    decreases a
  {
    if a != [] {
      FlattenCons(a + b);
      assert (a + b)[0] == a[0] && (a + b)[1..] == a[1..] + b;
      FlattenAppend(a[1..], b);
      FlattenCons(a);
      ghost var head := FlattenHead(a[0]);
      assert head + (Flatten(a[1..]) + Flatten(b)) == (head + Flatten(a[1..])) + Flatten(b);
    } else {
      assert a + b == b;
    }
  }

  /** An array without nested arrays is left as it is. */
  lemma {:induction false} FlattenFlat(args: seq<Arg>)
    requires forall a :: a in args ==> !a.List?
    ensures Flatten(args) == args
    decreases args
  {
    if args != [] {
      assert args[0] in args;
      FlattenFlat(args[1..]);
      assert args == [args[0]] + args[1..];
    }
  }

  /** Flattening twice is flattening once. */
  lemma FlattenIdempotent(args: seq<Arg>)
    ensures Flatten(Flatten(args)) == Flatten(args)
  {
    FlattenFlat(Flatten(args));
  }

  /** How many entries from the start are cut ranges: where the type check first fails. */
  function LeadingCuts(items: seq<Arg>): (k: nat)
    ensures k <= |items|
    ensures forall j :: 0 <= j < k ==> items[j].Cut?
    ensures k < |items| ==> !items[k].Cut?
  {
    if items == [] || !items[0].Cut? then 0 else 1 + LeadingCuts(items[1..])
  }

  /** The type check stops at the first entry that is not a cut range. */
  lemma LeadingCutsAt(items: seq<Arg>, i: int)
    requires 0 <= i <= |items| && forall j :: 0 <= j < i ==> items[j].Cut?
    requires i == |items| || !items[i].Cut?
    ensures LeadingCuts(items) == i
  {
  }

  /** The cut ranges carried by entries that are all cut ranges. */
  function RangesOf(items: seq<Arg>): seq<CutRange>
    requires forall j :: 0 <= j < |items| ==> items[j].Cut?
  {
    seq(|items|, j requires 0 <= j < |items| => items[j].range)
  }

  /** Every fragment's primary and complement lists are strictly increasing within [0, size). */
  predicate AscendingFragments(fragments: seq<Fragment>, size: int) {
    forall i :: 0 <= i < |fragments| ==>
      Ascending(fragments[i].primary, 0, size) && Ascending(fragments[i].complement, 0, size)
  }

  /** The ascending order of the fragments' index lists. */
  lemma EmittedWellFormed(bins: map<int, Bin>, size: int)
    requires WellFormedBins(bins, size)
    ensures AscendingFragments(Emitted(bins), size)
  {
    var ids := SortedIds(bins.Keys);
    forall i | 0 <= i < |Emitted(bins)|
      ensures Ascending(Emitted(bins)[i].primary, 0, size) && Ascending(Emitted(bins)[i].complement, 0, size)
    {
      assert ids[i] in ids;
    }
  }

  /** Every fragment's index lists are ascending and inside [0, size). */
  lemma FragmentsAscending(size: int, cc: CalculatedCuts)
    ensures AscendingFragments(Emitted(BinsOf(size, cc)), size)
  {
    BinsWellFormed(size, cc);
    EmittedWellFormed(BinsOf(size, cc), size);
  }

  /**
   * `ceil(size / 10.0)`: how many copies of the ten digits `0123456789` make up
   * the placeholder string that sizes the fragment container.
   */
  function PlaceholderCopies(size: int): (n: int)
    ensures 10 * (n - 1) < size <= 10 * n
  {
    -((-size) / 10)
  }

  /** Repeating a string a negative number of times raises ArgumentError, so the placeholder cannot be built. */
  function PlaceholderFails(size: int): (b: bool)
    ensures b <==> size <= -10
  {
    PlaceholderCopies(size) < 0
  }

  /** The bins built from the cut sets, emitted in ascending id order. */
  method ComputeFragments(size: int, cc: CalculatedCuts) returns (fragments: seq<Fragment>)
    ensures fragments == Emitted(BinsOf(size, cc))
  {
    var bins := CreateBins(size, cc);
    fragments := EmitFragments(bins);
  }

  class SequenceRange {
    const pLeft: Option<int>
    const pRight: Option<int>
    const cLeft: Option<int>
    const cRight: Option<int>
    const left: int
    const right: int
    const size: int
    /** The cut calculation: the cut sets the registered cut ranges produce over `size` indices. */
    const calculate: (int, seq<CutRange>) -> CalculatedCuts
    var cutRanges: seq<CutRange>
    var fragmentsCurrent: bool
    /** The fragments last computed; `None` (Ruby's `nil`) until a computation completes. */
    var fragmentsCache: Option<seq<Fragment>>

    /**
     * A current cache holds exactly the fragments of the registered cut
     * ranges.  When the placeholder cannot be built, no computation ever
     * completes and the cache stays unset.
     */
    ghost predicate Valid()
      reads this
    {
      && (PlaceholderFails(size) ==> fragmentsCache.None?)
      && (fragmentsCurrent && !PlaceholderFails(size) ==>
            fragmentsCache == Some(Emitted(BinsOf(size, calculate(size, cutRanges)))))
    }

    /** A range with valid bounds and no cut ranges yet. */
    constructor (pLeft: Option<int>, pRight: Option<int>, cLeft: Option<int>, cRight: Option<int>,
                 calculate: (int, seq<CutRange>) -> CalculatedCuts)
      requires Validate(pLeft, pRight, cLeft, cRight).Success?
      ensures Valid() && !fragmentsCurrent && cutRanges == [] && fragmentsCache.None?
      ensures this.pLeft == pLeft && this.pRight == pRight && this.cLeft == cLeft && this.cRight == cRight
      ensures Success(Extent(left, right, size)) == Validate(pLeft, pRight, cLeft, cRight)
      ensures this.calculate == calculate
    {
      this.pLeft, this.pRight, this.cLeft, this.cRight := pLeft, pRight, cLeft, cRight;
      var extent := Validate(pLeft, pRight, cLeft, cRight).value;
      left, right, size := extent.left, extent.right, extent.size;
      this.calculate := calculate;
      cutRanges := [];
      fragmentsCurrent := false;
      fragmentsCache := None;
    }

    /**
     * Registers a vertical cut given by raw coordinates.  The cache is marked
     * stale first, so even a rejected cut invalidates it.
     */
    method AddCutRange(pCutLeft: Option<int>, pCutRight: Option<int>, cCutLeft: Option<int>, cCutRight: Option<int>)
      returns (r: Outcome<Error>)
      requires Valid()
      modifies this
      ensures Valid() && !fragmentsCurrent && fragmentsCache == old(fragmentsCache)
      ensures r == CheckCut(left, right, pCutLeft, pCutRight, cCutLeft, cCutRight)
      ensures r.Pass? ==> cutRanges == old(cutRanges) + [Vertical(pCutLeft, pCutRight, cCutLeft, cCutRight)]
      ensures r.Fail? ==> cutRanges == old(cutRanges)
    {
      fragmentsCurrent := false;
      r := CheckCut(left, right, pCutLeft, pCutRight, cCutLeft, cCutRight);
      if r.Pass? {
        cutRanges := cutRanges + [Vertical(pCutLeft, pCutRight, cCutLeft, cCutRight)];
      }
    }

    /** Registers a cut range built elsewhere, with no bounds check. */
    method AddPrebuiltCutRange(cutRange: CutRange)
      requires Valid()
      modifies this
      ensures Valid() && !fragmentsCurrent && fragmentsCache == old(fragmentsCache)
      ensures cutRanges == old(cutRanges) + [cutRange]
    {
      fragmentsCurrent := false;
      cutRanges := cutRanges + [cutRange];
    }

    /**
     * Registers every cut range in `args` after flattening nested arrays.
     * The first entry that is not a cut range raises TypeError; the entries
     * before it stay registered.
     */
    method AddCutRanges(args: seq<Arg>) returns (r: Outcome<Error>)
      requires Valid()
      modifies this
      ensures Valid() && fragmentsCache == old(fragmentsCache)
      ensures var flat := Flatten(args); var k := LeadingCuts(flat);
        && cutRanges == old(cutRanges) + RangesOf(flat[..k])
        && (r.Fail? <==> k < |flat|)
        && (r.Fail? ==> r.error == TypeError)
        && fragmentsCurrent == (old(fragmentsCurrent) && k == 0)
    {
      var flat := Flatten(args);
      for i := 0 to |flat|
        invariant forall j :: 0 <= j < i ==> flat[j].Cut?
        invariant Valid() && fragmentsCache == old(fragmentsCache)
        invariant cutRanges == old(cutRanges) + RangesOf(flat[..i])
        invariant fragmentsCurrent == (old(fragmentsCurrent) && i == 0)
      {
        if !flat[i].Cut? {
          LeadingCutsAt(flat, i);
          return Fail(TypeError);
        }
        AddPrebuiltCutRange(flat[i].range);
        assert RangesOf(flat[..i + 1]) == RangesOf(flat[..i]) + [flat[i].range];
      }
      LeadingCutsAt(flat, |flat|);
      return Pass;
    }

    /** Registers a horizontal cut from `hLeft` to `hRight`, a single index unless told otherwise. */
    method AddHorizontalCutRange(hLeft: int, hRight: int := hLeft)
      requires Valid()
      modifies this
      ensures Valid() && !fragmentsCurrent && fragmentsCache == old(fragmentsCache)
      ensures cutRanges == old(cutRanges) + [Horizontal(hLeft, hRight)]
    {
      fragmentsCurrent := false;
      cutRanges := cutRanges + [Horizontal(hLeft, hRight)];
    }

    /**
     * The fragments of the sequence: the cached ones when the cache is
     * current, otherwise recomputed from the registered cut ranges and
     * stored.  The cache is marked current before the placeholder string is
     * built, so when that raises, later calls return the unset cache.
     */
    method Fragments() returns (r: Result<Option<seq<Fragment>>, Error>)
      requires Valid()
      modifies this
      ensures Valid() && fragmentsCurrent && cutRanges == old(cutRanges)
      ensures old(fragmentsCurrent) ==> r == Success(old(fragmentsCache)) && fragmentsCache == old(fragmentsCache)
      ensures !old(fragmentsCurrent) && PlaceholderFails(size) ==>
        r == Failure(ArgumentError) && fragmentsCache == old(fragmentsCache)
      ensures !PlaceholderFails(size) ==>
        r == Success(fragmentsCache) && fragmentsCache == Some(Emitted(BinsOf(size, calculate(size, cutRanges))))
      ensures PlaceholderFails(size) ==> r != Success(Some(Emitted(BinsOf(size, calculate(size, cutRanges)))))
      ensures r.Success? && r.value.Some? ==> AscendingFragments(r.value.value, size)
    {
      if !fragmentsCurrent {
        fragmentsCurrent := true;
        if PlaceholderFails(size) {
          return Failure(ArgumentError);
        }
        var fragments := ComputeFragments(size, calculate(size, cutRanges));
        fragmentsCache := Some(fragments);
      }
      r := Success(fragmentsCache);
      if fragmentsCache.Some? {
        FragmentsAscending(size, calculate(size, cutRanges));
      }
    }
  }

  /** Builds a SequenceRange, or raises ArgumentError on bad bounds. */
  method New(pLeft: Option<int>, pRight: Option<int>, cLeft: Option<int>, cRight: Option<int>,
             calculate: (int, seq<CutRange>) -> CalculatedCuts)
    returns (r: Result<SequenceRange, Error>)
    ensures r.Failure? <==> Validate(pLeft, pRight, cLeft, cRight).Failure?
    ensures r.Failure? ==> r.error == ArgumentError
    ensures r.Success? ==> fresh(r.value) && r.value.Valid() && r.value.cutRanges == [] && !r.value.fragmentsCurrent
    ensures r.Success? ==> r.value.fragmentsCache.None?
    ensures r.Success? ==>
      && r.value.pLeft == pLeft && r.value.pRight == pRight
      && r.value.cLeft == cLeft && r.value.cRight == cRight
      && r.value.calculate == calculate
    ensures r.Success? ==> Success(Extent(r.value.left, r.value.right, r.value.size)) == Validate(pLeft, pRight, cLeft, cRight)
  {
    var v := Validate(pLeft, pRight, cLeft, cRight);
    if v.Failure? {
      return Failure(v.error);
    }
    var range := new SequenceRange(pLeft, pRight, cLeft, cRight, calculate);
    return Success(range);
  }

  /**
   * Asking twice without registering anything in between gives the same
   * fragments, unless the first call raised; then the second returns the
   * unset cache.
   */
  method FragmentsTwice(range: SequenceRange)
    returns (first: Result<Option<seq<Fragment>>, Error>, second: Result<Option<seq<Fragment>>, Error>)
    requires range.Valid()
    modifies range
    ensures first.Success? ==> first == second
    ensures first.Failure? ==> first.error == ArgumentError && second == Success(None)
    ensures second.Success?
  {
    first := range.Fragments();
    second := range.Fragments();
  }
}
