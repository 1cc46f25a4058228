# SequenceRange: cut registration and fragment assembly

A model of `Bio::RestrictionEnzyme::Range::SequenceRange` from BioRuby's
restriction-enzyme utilities. A SequenceRange is a double-stranded stretch of
sequence. Each strand (primary and complement) has optional left and right
bounds. Cut ranges are registered against it and turned into fragments:

- A vertical cut severs one or both backbones after an index.
- A horizontal cut separates the strands without severing them.

The model has three parts:

- **Construction and validation.** `Validate` holds the bounds checks and
  computes the envelope (`left`, `right`, `size`). The class
  `SequenceRanges.SequenceRange` holds the bounds as constants. It holds the
  registered cut ranges, the "fragments current" flag and the cached
  fragments as mutable fields.
- **Cut registration.** `AddCutRange`, `AddPrebuiltCutRange`, `AddCutRanges`
  and `AddHorizontalCutRange` append to `cutRanges`. Each one marks the cache
  stale.
- **Bin construction and emission.**
  - `BinScan` specifies `create_bins` as a function: `ScanTo(k, cuts)` is the
    scan state once indices -1 .. k-1 have been visited, and `Step` is one
    iteration of the loop body.
  - `BinConstruction.CreateBins` is the loop itself, over two current bin
    ids, the last id minted and a map of bins. It is proved to compute
    `BinsOf(size, cc)`.
  - `Emission` sorts the bin ids and emits one fragment per bin in ascending
    id order.
  - `SequenceRange.Fragments` ties these together behind the cache flag.

The collaborator `CalculatedCuts` is not part of this model. It turns the
registered cut ranges into three integer sets: primary cut points, complement
cut points, and indices where the strands are separated. Here it is the value
`BinScan.CalculatedCuts`, produced by a function field
`SequenceRange.calculate` that is fixed when the object is built. This lets
the cache invariant `Valid()` state that a current cache equals a fresh
recomputation.

Files:

- `wrappers.dfy`: Option, Result and Outcome.
- `bin_scan.dfy`: the scan as functions, and its invariant.
- `bin_construction.dfy`: the imperative `create_bins`.
- `bin_properties.dfy`: the merge rule, id growth, and each index once per
  strand.
- `bin_examples.dfy`: worked runs.
- `emission.dfy`: sorting and fragment emission.
- `sequence_range.dfy`: the class, validation and registration.

Ruby's `nil` is `None`. A raised exception is the `Failure` or `Fail` branch
of the result, carrying `ArgumentError`, `IndexError` or `TypeError`.

## Model

| member | source | states |
|---|---|---|
| SequenceRanges.Validate | lib/bio/util/restriction_enzyme/range/sequence_range.rb:40-60 | Fails with ArgumentError exactly when both lefts are unset, or both rights are unset, or a strand with both bounds has left > right. Otherwise `left` is the least set left bound, `right` the greatest set right bound, and `size == right - left + 1`. When some strand has both bounds, `left <= right` and `size >= 1`. |
| SequenceRanges.MinDefined | lib/bio/util/restriction_enzyme/range/sequence_range.rb:52-54 | Unset only when both inputs are unset; otherwise one of the set inputs and no greater than either. |
| SequenceRanges.MaxDefined | lib/bio/util/restriction_enzyme/range/sequence_range.rb:56-58 | Unset only when both inputs are unset; otherwise one of the set inputs and no smaller than either. |
| SequenceRanges.InvertedEnvelope | lib/bio/util/restriction_enzyme/range/sequence_range.rb:44-60 | Primary left 5 with complement right 3 is accepted, because bounds on different strands are never compared. It gives left 5, right 3 and size -1. |
| SequenceRanges.UnbuildablePlaceholder | lib/bio/util/restriction_enzyme/range/sequence_range.rb:40-60 | Primary left 20 with complement right 9 is accepted with size -10, a size whose placeholder string cannot be built; size -9 still can be. |
| SequenceRanges.SequenceRange.constructor | lib/bio/util/restriction_enzyme/range/sequence_range.rb:40-63 | For bounds that pass validation: stores the bounds, the envelope and the cut calculation, with no cut ranges, a stale cache and no cached fragments (`nil`). |
| SequenceRanges.New | lib/bio/util/restriction_enzyme/range/sequence_range.rb:40-63 | Construction fails with ArgumentError exactly when `Validate` does. Otherwise it returns a fresh object that stores the four strand bounds and the cut calculation it was given, whose envelope is the validated one, with no cut ranges, a stale cache and no cached fragments. |
| SequenceRanges.CheckCut | lib/bio/util/restriction_enzyme/range/sequence_range.rb:73-76 | Passes exactly when every set coordinate lies in `[left, right]`; otherwise fails with IndexError. |
| SequenceRanges.SequenceRange.AddCutRange | lib/bio/util/restriction_enzyme/range/sequence_range.rb:67-80 | Marks the cache stale even when the cut is rejected. Appends exactly one vertical cut range when `CheckCut` passes. On IndexError it leaves `cutRanges` unchanged. |
| SequenceRanges.SequenceRange.AddPrebuiltCutRange | lib/bio/util/restriction_enzyme/range/sequence_range.rb:68-71 | Appends a pre-built cut range with no bounds check and marks the cache stale. |
| SequenceRanges.Flatten | lib/bio/util/restriction_enzyme/range/sequence_range.rb:83 | The flattened argument list contains no arrays. |
| SequenceRanges.FlattenAppend | lib/bio/util/restriction_enzyme/range/sequence_range.rb:83 | Flattening a concatenation gives the concatenation of the flattenings, so order is kept. |
| SequenceRanges.FlattenIdempotent | lib/bio/util/restriction_enzyme/range/sequence_range.rb:83 | Flattening an already flattened list changes nothing. |
| SequenceRanges.LeadingCuts | lib/bio/util/restriction_enzyme/range/sequence_range.rb:84-85 | The position of the first entry that is not a cut range, or the length if there is none. Every earlier entry is a cut range. |
| SequenceRanges.SequenceRange.AddCutRanges | lib/bio/util/restriction_enzyme/range/sequence_range.rb:82-88 | Registers the leading cut ranges of the flattened arguments, in order. Fails with TypeError exactly when a non-cut-range entry follows them, and the entries before it stay registered. The cache becomes stale as soon as one entry has been registered. |
| SequenceRanges.SequenceRange.AddHorizontalCutRange | lib/bio/util/restriction_enzyme/range/sequence_range.rb:90-93 | Appends `Horizontal(hLeft, hRight)` with no bounds check, `hRight` defaulting to `hLeft`, and marks the cache stale. |
| SequenceRanges.PlaceholderCopies | lib/bio/util/restriction_enzyme/range/sequence_range.rb:101-102 | The number of copies of the ten digits is the least integer `n` with `size <= 10 * n`: `ceil(size / 10.0)`. |
| SequenceRanges.PlaceholderFails | lib/bio/util/restriction_enzyme/range/sequence_range.rb:101-102 | Building the placeholder raises exactly when `size <= -10`, the sizes for which the repeat count is negative. |
| SequenceRanges.ComputeFragments | lib/bio/util/restriction_enzyme/range/sequence_range.rb:104-110 | Building the bins and emitting them gives exactly `Emitted(BinsOf(size, cc))`. |
| SequenceRanges.SequenceRange.Fragments | lib/bio/util/restriction_enzyme/range/sequence_range.rb:97-112 | Marks the cache current in every case and leaves `cutRanges` unchanged. When the cache was already current it returns the stored value unchanged, which is `nil` if no computation ever completed. Otherwise, when `size <= -10`, it raises ArgumentError and keeps the old cache. For any other size the result and the new cache are the emitted fragments of `BinsOf(size, calculate(size, cutRanges))`. Every fragment it returns has index lists ascending within `[0, size)`. |
| SequenceRanges.FragmentsTwice | lib/bio/util/restriction_enzyme/range/sequence_range.rb:97-99 | Two calls with no registration in between return the same fragments. When the first call raises, the second returns `nil` as if it were current. |
| SequenceRanges.FragmentsAscending | lib/bio/util/restriction_enzyme/range/sequence_range.rb:109 | Each emitted fragment's primary and complement lists are strictly increasing within `[0, size)`. |
| Emission.SortedIds | lib/bio/util/restriction_enzyme/range/sequence_range.rb:109 | The ids strictly increasing, each listed once, nothing else. |
| Emission.SortedUnique | lib/bio/util/restriction_enzyme/range/sequence_range.rb:109 | Any strictly increasing listing of exactly the ids is the sorted one. |
| Emission.SortIds | lib/bio/util/restriction_enzyme/range/sequence_range.rb:109 | The loop that takes the least remaining id computes `SortedIds`. |
| Emission.EmitFragments | lib/bio/util/restriction_enzyme/range/sequence_range.rb:109 | Emits one fragment per bin, in ascending id order: exactly `Emitted(bins)`. |
| Emission.EmittedInOrder | lib/bio/util/restriction_enzyme/range/sequence_range.rb:109 | Every bin is emitted, at the position equal to the number of smaller ids. |
| BinScan.Linear | lib/bio/util/restriction_enzyme/range/sequence_range.rb:146-148 | -1 is a cut point on both strands. The other cut points and the separated indices are unchanged. |
| BinScan.SetupNewBin | lib/bio/util/restriction_enzyme/range/sequence_range.rb:187-191 | Adds an empty bin under the id and leaves every other bin as it was. |
| BinScan.Step | lib/bio/util/restriction_enzyme/range/sequence_range.rb:155-177 | One iteration keeps both current ids pointing at existing bins. |
| BinScan.StepKeeps | lib/bio/util/restriction_enzyme/range/sequence_range.rb:155-177 | One iteration preserves the scan invariant. The invariant: current ids are minted, non-sentinel ids; every list is strictly increasing over the indices visited; no index is in two bins on one strand. |
| BinScan.ScanInvariant | lib/bio/util/restriction_enzyme/range/sequence_range.rb:155-177 | The invariant holds after every index of the scan. |
| BinScan.BinsWellFormed | lib/bio/util/restriction_enzyme/range/sequence_range.rb:134-183 | Bin -1 is gone. Every id is non-negative, every list is strictly increasing within `[0, size)`, and no index is in two bins on the same strand. |
| BinConstruction.MergeStrands | lib/bio/util/restriction_enzyme/range/sequence_range.rb:158-162 | Computes `Merge`. When the ids differ and the index is not separated, the larger-id bin is deleted and both ids become the smaller one. |
| BinConstruction.ScanIndex | lib/bio/util/restriction_enzyme/range/sequence_range.rb:155-177 | The loop body computes exactly one `Step` of the scan. |
| BinConstruction.ScanIndices | lib/bio/util/restriction_enzyme/range/sequence_range.rb:150-177 | The setup and loop over -1 .. size-1 end in the state `ScanTo(End(size), cuts)`. |
| BinConstruction.CreateBins | lib/bio/util/restriction_enzyme/range/sequence_range.rb:134-183 | Returns `BinsOf(size, cc)`, and those bins are well formed as in `BinsWellFormed`. |
| BinProperties.CutRule | lib/bio/util/restriction_enzyme/range/sequence_range.rb:166-175 | Every strand cut after the index gets a fresh empty bin. Its id is one past the last id minted. New ids are above all ids minted before the step. |
| BinProperties.MergeRule | lib/bio/util/restriction_enzyme/range/sequence_range.rb:158-165 | On a merge the larger id's bin is gone and the index is appended to both lists of the smaller id's bin. Both strands continue there unless cut. |
| BinProperties.SeparatedRule | lib/bio/util/restriction_enzyme/range/sequence_range.rb:157-165 | Without a merge no bin is deleted, and the index ends each strand's current list. |
| BinProperties.IdsMonotone | lib/bio/util/restriction_enzyme/range/sequence_range.rb:166-175 | The last id minted never decreases. An id that appears later is above every id minted earlier, so deleted ids are never reused. |
| BinProperties.EachIndexOnce | lib/bio/util/restriction_enzyme/range/sequence_range.rb:155-181 | When no merge discards a non-empty bin, each index 0 .. size-1 is in exactly one bin's primary list and exactly one bin's complement list. No other index appears. |
| BinProperties.NoSeparation | lib/bio/util/restriction_enzyme/range/sequence_range.rb:158-162 | With no separated index, every merge is lossless and every bin holds the same indices on both strands. |
| BinProperties.NoCutsOneFragment | lib/bio/util/restriction_enzyme/range/sequence_range.rb:155-177 | With `size >= 1`, no cut points in 0 .. size-1 and index 0 not separated, the result is the single bin 0 holding 0 .. size-1 on both strands. Both extra conditions are needed (see `HorizontalAtZeroDropsIndex`). |
| BinExamples.WorkedExample | lib/bio/util/restriction_enzyme/range/sequence_range.rb:125-128 | The documented example. Size 6, primary cuts {0, 2}, complement cuts {1, 3}, separated {1, 2, 3}. Result: bins 0, 2, 3 and 4 with exactly the documented lists. |
| BinExamples.WorkedFragments | lib/bio/util/restriction_enzyme/range/sequence_range.rb:109 | The same example emits its four fragments in id order 0, 2, 3, 4. |
| BinExamples.StaggeredCut | lib/bio/util/restriction_enzyme/range/sequence_range.rb:155-177 | A staggered cut: primary after 1, complement after 3, separated at 2 and 3. It gives a left fragment with primary 0,1 and complement 0..3, and a right fragment with the rest. |
| BinExamples.MergeDropsIndices | lib/bio/util/restriction_enzyme/range/sequence_range.rb:158-162 | A merge deletes the larger bin together with its contents. Size 3, primary cut after 0, separated at 1: primary index 1 ends up in no bin. |
| BinExamples.HorizontalAtZeroDropsIndex | lib/bio/util/restriction_enzyme/range/sequence_range.rb:155-181 | The `-1` bin does not protect a lone horizontal cut at 0. Size 2, no strand cut, separated only at 0: the result is the single bin 0 with primary 0, 1 and complement 1 only, so complement index 0 is in no bin. |

## Left out

- The circular branch of bin construction is not modelled. `@circular` is never assigned in the class, and the branch itself is unfinished. Only the linear setup is modelled.
- The internals of `CalculatedCuts` are not part of this model. This covers adding cuts from cut ranges and removing incomplete cuts. The three cut sets come from the function field `calculate`, which is fixed per object.
- `CutRanges`, `VerticalCutRange`, `HorizontalCutRange`, `Fragments` and `Fragment` are not part of this model. Cut ranges are plain values with no validation of their own. The fragment container is a sequence of (primary, complement) list pairs.
- The placeholder digit string that sizes the `Fragments` container is modelled only through the error it can raise (`PlaceholderFails`); its contents only feed the container. `size / 10.0` followed by `ceil` is taken as the exact integer ceiling, which floating point gives for every size below 2^53 in magnitude.
- Ruby's `kind_of?` dispatch in `add_cut_range` is two operations here: `AddCutRange` for raw coordinates and `AddPrebuiltCutRange` for a pre-built cut range. Non-integer coordinates are not modelled.
- Adding -1 to the cut lists is set insertion. The in-place change to the collaborator's arrays is not modelled, and neither is their order.
- SequenceRanges.SequenceRange.Fragments: its only failure is the placeholder's ArgumentError. If the cut calculation raised during a recomputation, the flag would likewise stay set with the old cache; the calculation here is a total function and never raises.
- SequenceRanges.SequenceRange.constructor requires bounds that pass `Validate`. The ArgumentError path of construction is modelled by `New`.
- BinProperties.EachIndexOnce is stated only under `LosslessScan`. A merge deletes the larger-id bin with whatever it already holds. `MergeDropsIndices` shows an index lost that way when the separated set does not match the cuts. `HorizontalAtZeroDropsIndex` shows the same loss for a lone horizontal cut at index 0.
- Emission.SortIds models `Hash#sort` by repeatedly taking the least remaining id. Only the resulting order is claimed, not the library's algorithm.
- The worked example's separated indices {1, 2, 3} and the staggered example's {2, 3} are inputs here. In the full pipeline the cut calculation would supply them. With no separated index at all, each fresh bin is merged back at the next index, so the staggered cut does not split the sequence.
