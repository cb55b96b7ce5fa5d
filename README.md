# step-perf in Dafny

step-perf simulates a dataflow accelerator as a network of operators that pass
stop-token streams to each other. A stream is a sequence of elements. Each element
is a plain value or a value followed by a stop token of some level. A level-`k` stop
closes the innermost `k` dimensions of the tensor being streamed, so a stream of
shape `[2, 3]` reads `v v S1 v v S2`. Values are tiles: matrices with a
shape, an on-chip offset and a byte width. Selectors are one-hot or multi-hot
vectors that route tiles. Buffers are materialized multi-dimensional blocks of
tiles with a creation time.

The model covers:

- the stream primitives: elements, tiles, selectors, buffers and channels
  (`Elems`, `Tiles`, `Select`, `SelectNpy`, `Buffers`, `Channels`);
- the canonical stop levels of a tensor shape, and how they nest (`Shapes`, `Nesting`);
- the shape operators: `Bufferize`, `Streamify`, `DynStreamify`, `Flatten`,
  `Promote`, `Repeat`, `Expand` and `Reshape`;
- the compute operators `Map`, `Accum`, `MapAccum` and `FlatMap`, with their
  roofline cost (`Roofline`) and the tile functions that instantiate them
  (`MapFns`, `AccumFns`, `MapAccumFns`, over the matrix algebra in `Matrices`);
- the routing operators `EagerMerge`, `Parallelize`, `Partition` and `Reassemble`;
- the memory units: `OffChipLoad`, `DynOffChipLoad`, `OffChipStore`,
  `RandomOffChipLoad`, `RandomOffChipStore` and `MetadataGen`. The model covers their
  address generation and their stop levels;
- the channel-depth and element-size choices of the protobuf driver (`ProtoDriver`);
- the Mixture-of-Experts reference layer used to check simulated results (`MoE`),
  and its routing inputs (`RouteUtils`), over real vectors (`Vectors`).

Each operator's run loop is a `method` whose `ensures` equates its output to a
specification function on the input stream. The properties the simulator relies on
are lemmas about those functions. They include:

- round trips: `Streamify` of `Bufferize`, and `Flatten` of `Promote`;
- the stop levels each operator produces for a tensor of a given shape;
- the order of the addresses the memory units generate;
- the equality between the multi-process MoE layer and its single-process run.

A panic in the source, including a failed constructor assertion and an unsigned underflow, is an `Err` result in the model. The few exceptions, where a `requires` excludes the input instead, are listed under "Left out" with the member's name.

## Model

| member | source | states |
|---|---|---|
| Elems.Default | src/primitives/elem.rs:12-16 | the default element is a plain value holding the value type's default, at level 0 |
| Elems.DamSizeOfStopIgnoresValue | src/primitives/elem.rs:19-25 | a stop element's size is the stop type's size whatever its value; a plain value's is the value's size |
| Elems.CanonicalByLevel | src/primitives/elem.rs:6-10 | an element whose stop, if any, is above level 0 is rebuilt exactly from its value and level |
| Calc.DivCeil | src/utils/calculation.rs:2-8 | the quotient covers `a` with `b`-sized blocks and one block fewer would not |
| Calc.DivCeilUnique | src/utils/calculation.rs:2-8 | any block count that covers `a` minimally equals `div_ceil(a, b)` |
| Cast.ToUsizeVec | src/utils/cast.rs:1-9 | the conversion succeeds exactly when every entry fits; then the vector is kept entry for entry |
| Cast.ToU64Vec | src/utils/cast.rs:10-18 | the conversion succeeds exactly when every entry fits in 64 bits; then the vector is kept entry for entry |
| Tiles.SizeOfMatrixTile | src/primitives/tile.rs:25-27 | a rows x cols tile takes bytes-per-element times rows times cols bytes |
| Tiles.CloneWithReadFromMu | src/primitives/tile.rs:33-40 | only the `read_from_mu` flag changes; validity and byte size are kept |
| Tiles.NewBlank | src/primitives/tile.rs:45-52 | a valid tile with no data, the given shape, and an offset equal to the first dimension |
| Tiles.New | src/primitives/tile.rs:54-64 | a valid tile holding the array, shaped like it, with the row count as offset |
| Tiles.NewBlankPadded | src/primitives/tile.rs:66-80 | a valid tile with no data, the given shape, and the given offset unchanged |
| Tiles.NewPadded | src/primitives/tile.rs:82-97 | a valid tile holding the array, shaped like it, with the given offset |
| Tiles.NewZero | src/primitives/tile.rs:104-116 | a valid rows x cols tile whose every entry is zero, offset = rows |
| Tiles.NewZeroPadded | src/primitives/tile.rs:118-136 | a valid rows x cols tile whose every entry is zero, with the given offset |
| Tiles.NewEmpty | src/primitives/tile.rs:138-151 | succeeds exactly when the shape has no entries; the tile is then valid, of that shape, and zero bytes long |
| Select.MultiHotToSelVec | src/primitives/select.rs:47-56 | the result lists exactly the positions of the set flags, strictly ascending |
| Select.MultiHotFromSelVec | src/primitives/select.rs:57-68 | `size` flags, set exactly at the listed indices; an index out of range is an error |
| Select.MultiHotRoundTrip | src/primitives/select.rs:47-68 | reading back the flags built from an ascending in-range index list gives the list |
| Select.MultiHotRoundTripFlags | src/primitives/select.rs:47-68 | rebuilding from the selected indices gives back the same flags |
| Select.IndexToSelVec | src/primitives/select.rs:112-124 | the present entries in order, missing entries dropped |
| Select.IndexFromSelVec | src/primitives/select.rs:125-136 | one present entry per index, in order, whatever the size argument |
| Select.IndexRoundTrip | src/primitives/select.rs:112-136 | any index list, repeats included, comes back unchanged |
| Select.SelectorSizes | src/primitives/select.rs:70-72 | a multi-hot vector takes one byte per stream, an index list 8 bytes per index |
| Select.MultiHotWithReadFromMu | src/primitives/select.rs:76-80 | only the `read_from_mu` flag changes |
| Select.IndexWithReadFromMu | src/primitives/select.rs:144-148 | only the `read_from_mu` flag changes |
| SelectNpy.GetStopLevel | src/utils/select_npy.rs:69-90 | the level is the largest group of innermost dimensions whose period divides `i + 1` |
| SelectNpy.ClosedIff | src/utils/select_npy.rs:69-90 | the divisibility test agrees with "every index of the innermost k dimensions is at its end" |
| SelectNpy.StopLevelIsTrailing | src/utils/select_npy.rs:69-90 | the stop level of entry `i` counts the trailing dimensions whose index is at its end |
| SelectNpy.StopLevelIsCanonical | src/utils/select_npy.rs:69-90 | inside the tensor, the stop level equals the canonical stream level of that position |
| SelectNpy.ElemShape | src/utils/select_npy.rs:43-47 | the outer dimensions followed by the last one rebuild the file's shape, and their product times the last is the entry count |
| SelectNpy.Chunks | src/utils/select_npy.rs:37-41 | every piece is non-empty and at most the vector length long |
| SelectNpy.Tag | src/utils/select_npy.rs:49-62 | one element per vector, holding it with `read_from_mu` false, with the canonical stop levels of the outer shape |
| SelectNpy.Flags | src/utils/select_npy.rs:34-35 | an entry is selected exactly when it is nonzero |
| SelectNpy.ReadMultiHot | src/utils/select_npy.rs:10-67 | succeeds exactly when the shape is non-empty with a non-empty last dimension; then vector `i` holds the flags of entries `i*len .. i*len+len` and the stop levels are the canonical levels of the outer shape |
| SelectNpy.StopLevelOf | src/utils/select_npy.rs:49-62 | the level of vector `i` is the canonical stream level at position `i` of the outer shape |
| Shapes.OutermostDiff | src/primitives/buffer.rs:237-247 | the result is the first position where the two index tuples differ: they agree before it and differ at it |
| Shapes.OutermostDiffUnique | src/primitives/buffer.rs:237-247 | any position with equal prefixes and a difference there is `outermost_diff_index` |
| Shapes.LevelAt | src/primitives/buffer.rs:167-200 | the canonical level after flat entry `i` counts the trailing dimensions of its row-major index that sit at their last value |
| Shapes.LastLevel | src/primitives/buffer.rs:189-192 | the last entry of a tensor without empty dimensions closes every dimension |
| Shapes.InnerLevel | src/primitives/buffer.rs:175-186 | every entry but the last closes fewer dimensions than the rank |
| Shapes.NextIndexDiff | src/primitives/buffer.rs:175-186 | consecutive row-major indices first differ just outside the trailing positions that roll over, so `ndim - changed_index - 1` is that trailing count |
| Shapes.LevelFromDiff | src/primitives/buffer.rs:175-186 | the stop level `to_elem_iter` computes from `outermost_diff_index` is the canonical level of the entry |
| Shapes.ShapeLevelsSnoc | src/primitives/buffer.rs:167-200 | one more innermost dimension turns every entry of the outer stream into a row closing that entry's levels one higher |
| Nesting.NestShape | src/operator/reshape.rs:1-60 | the levels of `outer + inner` are the levels of `inner` repeated once per outer entry, each copy's last level raised by that entry |
| Buffers.EqualityIgnoresTime | src/primitives/buffer.rs:37-48 | `==` ignores the creation time while `eq_with_time` holds exactly when the times agree |
| Buffers.StreamOf | src/primitives/buffer.rs:167-210 | the reference stream has one element per entry, carries the entries in row-major order, and entry `i` is `StreamEntry(b, i)` |
| Buffers.StreamLast | src/primitives/buffer.rs:189-192 | the last entry of a buffer of two or more entries is sent as a stop of level `ndim` |
| Buffers.ToElemIter | src/primitives/buffer.rs:167-210 | the iterator's output equals the reference stream `StreamOf(b)` |
| Buffers.Assemble | src/primitives/buffer.rs:152-164 | building the array succeeds exactly when the reversed counts multiply to the number of values; a deeper stop yields a stop-token result of level `st - rank` |
| Buffers.FromStreamSpec | src/primitives/buffer.rs:65-164 | never reads past the input; `Finished` exactly for an empty channel; a buffer result dequeued at least one element |
| Buffers.FromStreamWellFormed | src/primitives/buffer.rs:65-164 | a buffer read back is consistent with its shape and created at the first dequeue; a left-over stop token has level above 0 |
| Buffers.FromStream | src/primitives/buffer.rs:65-164 | a rank of 0 fails the assertion before anything is dequeued; otherwise the dequeue loop's result and dequeue count equal `FromStreamSpec` |
| Buffers.FromStreamCorrected | src/primitives/buffer.rs:112-135 | the padded reading never fails with the out-of-bounds index, never over-reads, and is `Finished` exactly for an empty channel |
| RoundTrip.StreamLevels | src/primitives/buffer.rs:167-210 | the stop levels of a buffer's stream are the canonical levels of its shape (no empty dimension, one entry only at rank 1) |
| RoundTrip.ScanShape | src/primitives/buffer.rs:86-137 | on the canonical levels of a shape whose outer dimensions are at least 2, the scan closes after `Product(shape)` elements with counts that reverse to the shape |
| RoundTrip.ScanShapeCorrected | src/primitives/buffer.rs:86-137 | the padded scan does the same for every shape without empty dimensions |
| RoundTrip.ScanIgnoresRest | src/primitives/buffer.rs:86-137 | elements after the one that closes the buffer are never read |
| RoundTrip.RoundTrip | src/primitives/buffer.rs:65-210 | `from_stream(to_elem_iter(b))` at rank `ndim` reads back `b` (stamped with the read time), consuming exactly its entries, with a raised last stop returned as a stop token, whatever follows |
| RoundTrip.UnitDimensionLost | src/primitives/buffer.rs:112-120 | the buffer of shape [1, 3] streams as `Val, Val, ValStop(2)` and `from_stream` at rank 2 fails with the out-of-bounds index |
| RoundTrip.RoundTripCorrected | src/primitives/buffer.rs:65-210 | the padded `from_stream` reads back every buffer without empty dimensions (one entry only at rank 1), unit dimensions included |
| RoundTrip.UnitDimensionRead | src/primitives/buffer.rs:112-120 | the padded reading returns the [1, 3] buffer from `Val, Val, ValStop(2)` |
| Bufferize.Run | src/operator/bufferize.rs:60-97 | at rank 0 the first `from_stream` call fails its assertion, whatever the input; otherwise the loop's output is `BufferizeFrom(s, rank, 0)`: one buffer per `from_stream` call, a plain value or a stop carrying the left-over level, ending at a closed input and failing on an incomplete buffer |
| Bufferize.NextBuffer | src/operator/bufferize.rs:62-95 | each outcome of one `from_stream` call (closed input, incomplete buffer, buffer, buffer with stop) matches what the operator emits for it and where it resumes |
| Bufferize.BufferizeWellFormed | src/operator/bufferize.rs:60-97 | every buffer sent is consistent with its shape, and every stop sent closes at least one level |
| Bufferize.BufferizeEmpty | src/operator/bufferize.rs:91 | a closed input ends the operator with nothing sent |
| Bufferize.BufferizeFlat | src/operator/bufferize.rs:60-97 | a stream of whole buffers of `rank` dimensions is cut back into those buffers, each sent with the outer levels its last element closed and stamped with its first element's position |
| Bufferize.BufferizeTwoByThree | src/operator/bufferize.rs:60-97 | a [2, 3] stream at rank 1 gives a plain buffer of three values, then a buffer closing the outer level |
| Streamify.EmitCopy | src/operator/streamify.rs:92-130 | one read-out passes every element unchanged except that, on the last repetition, a stop at the operator's rank is raised |
| Streamify.EmitBuffer | src/operator/streamify.rs:71-235 | the pieces sent for one input buffer equal `StreamifyBuffer` of its stream, its outer level and the repeat factors |
| Streamify.ReadRepeats | src/operator/streamify.rs:86-133 | the loop over the repeat factors (innermost first) produces `RepeatUpTo` over all of them |
| Streamify.ReadOuts | src/operator/streamify.rs:90-131 | one factor `f` gives `f` read-outs, only the last raised |
| Streamify.Run | src/operator/streamify.rs:60-244 | the output is every input buffer's piece, one after the other |
| Streamify.StreamifyValues | src/operator/streamify.rs:60-244 | every entry of every buffer comes out in order, once without factors and as many times as the factors add up to with them |
| Streamify.RaisedWhole | src/operator/streamify.rs:136-170 | in a whole read-out only the last stop is at the operator's rank, so raising rank stops raises the last one |
| Streamify.TwoThreeAdds | src/operator/streamify.rs:86-133 | with repeat factors `[2, 3]` the buffer's data comes out 5 times, one read-out per unit of each factor, not the 6 times of a `[2, 3] + shape` tensor |
| Streamify.RepeatShape | src/operator/streamify.rs:174-235 | with one repeat factor `r` a buffer of `shape` comes out as the tensor `[r] + shape`, its last stop raised by the outer level, data repeated `r` times |
| Streamify.StreamifyStamped | src/operator/streamify.rs:60-244 | without repeat factors, streaming the buffers `Bufferize` sends gives back the stream they were cut from |
| Streamify.BufferizeOfStreamify | src/operator/streamify.rs:60-244 | `Bufferize` after `Streamify` gives back the buffers, stamped with their first element's position |
| Streamify.StreamifyOfBufferize | src/operator/bufferize.rs:60-97 | `Streamify` after `Bufferize` gives back a stream made of whole tiles unchanged |
| DynStreamify.RaiseCopy | src/operator/dynstreamify.rs:147-193 | one read-out for a reference stop `r`: rank stops raised by `r`, a stop above the rank an error |
| DynStreamify.ValLoop | src/operator/dynstreamify.rs:89-120 | a plain-value buffer is read out once per reference value until the reference closes; a reference stop is an error |
| DynStreamify.StopLoop | src/operator/dynstreamify.rs:122-206 | a buffer with a stop: plain read-outs for reference values, raised read-outs for reference stops, ending after a stop above `repeat_rank` or at the reference's end |
| DynStreamify.Run | src/operator/dynstreamify.rs:80-222 | the output equals `DynStream`: each buffer on the part of the reference the previous buffers left |
| DynStreamify.DynStreamVal | src/operator/dynstreamify.rs:89-120 | at a plain-value buffer the rest of the output is its read-outs on the rest of the reference |
| DynStreamify.DynStreamStop | src/operator/dynstreamify.rs:122-209 | at a buffer with a stop, the output continues with its piece and the next buffers on the reference after the part it used |
| DynStreamify.ValCopiesAll | src/operator/dynstreamify.rs:89-120 | a plain-value buffer succeeds exactly when the reference holds no stop, and then comes out once per reference element |
| DynStreamify.StopCopiesBlock | src/operator/dynstreamify.rs:122-206 | on a reference block whose last stop is the first above `repeat_rank`, the block is used up and each element gives a read-out raised by its level |
| DynStreamify.ReadoutLevels | src/operator/dynstreamify.rs:122-206 | the read-outs of a buffer carry the buffer's levels nested once per reference level, and its data once per reference element |
| DynStreamify.StreamBelowRank | src/operator/dynstreamify.rs:163-176 | a buffer's own stream never stops above its rank, so the rank check never fires on whole buffers |
| DynStreamify.DynBlock | src/operator/dynstreamify.rs:122-206 | one reference block turns a buffer into its data once per element, with the block's levels nesting the buffer's |
| DynStreamify.DynShape | src/operator/dynstreamify.rs:122-206 | a reference shaped like tensor `outer` with `repeat_rank = |outer| - 1` turns a buffer of `shape` into the tensor `outer + shape` |
| DynStreamify.RefBlock | src/operator/dynstreamify.rs:194-198 | a reference shaped like `outer` is exactly one block: only its last element stops above `|outer| - 1` |
| Flatten.NewRank | src/operator/flatten.rs:53-59 | a stop never rises; it stays exactly when at most `min_rank`; a merged or higher stop lands at or above `min_rank` and loses at most `max_rank - min_rank` levels |
| Flatten.FlattenStream | src/operator/flatten.rs:37-79 | one output per input with the same value and the collapsed level; an output is plain exactly when its new rank is 0 |
| Flatten.Run | src/operator/flatten.rs:16-79 | the constructor fails unless `min_rank < max_rank`; then the loop's output equals `FlattenStream` |
| Flatten.FlattenPair | src/operator/flatten.rs:53-59 | flattening levels `k` and `k + 1` of a tensor `outer + [a, b] + inner` (with `k = |inner|`) gives the tensor `outer + [a * b] + inner` |
| Flatten.NewRankStep | src/operator/flatten.rs:53-59 | merging a wide range of levels equals merging all but its top level, then the remaining pair |
| Flatten.FlattenCompose | src/operator/flatten.rs:53-59 | a wide flatten of a stream is a narrower flatten followed by a pair flatten |
| Flatten.FlattenThreeTwoFour | src/operator/flatten.rs:100-163 | the (3, 2, 4) stream flattened over levels 0 and 1 is the (3, 8) stream |
| Promote.PromotedRank | src/operator/promote.rs:59-60 | a stop goes up by one exactly when it is at least `promote_rank`, and stays otherwise |
| Promote.PromoteElem | src/operator/promote.rs:37-70 | the value is kept, the level promoted; the output is a stop exactly when the input was or the rank is 0 |
| Promote.Run | src/operator/promote.rs:33-75 | the loop's output equals `PromoteStream` |
| Promote.PromoteInserts | src/operator/promote.rs:33-75 | `Promote(k)` on a tensor whose innermost `k` dimensions are `inner` inserts a dimension of size one above them |
| Promote.PromoteTwoFive | src/operator/promote.rs:91-124 | with rank 2, the (2, 5) stream becomes the (1, 2, 5) stream |
| Promote.FlattenUndoesPromote | src/operator/promote.rs:33-75 | flattening the inserted dimension with the one inside it gives back the original canonical stream |
| Repeat.RepeatElem | src/operator/repeat.rs:37-82 | `repeat_factor` copies of the value; all plain but the last, which carries the input's level plus one |
| Repeat.Run | src/operator/repeat.rs:33-88 | a factor of 0 fails on the first element (the unsigned `repeat_factor - 1` underflows) and sends nothing for an empty input; otherwise the output equals `RepeatStream`, with `|input| * repeat_factor` elements and as many cycles |
| Repeat.RepeatLevels | src/operator/repeat.rs:33-88 | the stop levels of the output are the input's with each entry expanded into a row of `repeat_factor` |
| Repeat.RepeatValues | src/operator/repeat.rs:33-88 | the output values are the input values, each `repeat_factor` times in a row |
| Repeat.RepeatTensor | src/operator/repeat.rs:33-88 | repeating a tensor's stream gives the stream of the tensor with `repeat_factor` as a new innermost dimension |
| Expand.Broadcast | src/operator/expand.rs:76-104 | one copy of the input per reference element, with that element's kind and level |
| Expand.ExpandScalar | src/operator/expand.rs:44-74 | a rank-0 input is copied once per reference value to the reference's end; a reference stop is an error |
| Expand.ExpandStop | src/operator/expand.rs:75-112 | a stop input is copied up to and including the first reference stop of level at least `expand_rank`; a reference that ends first is an error |
| Expand.Run | src/operator/expand.rs:40-119 | the operator's output equals `ExpandStream` |
| Expand.StretchCount | src/operator/expand.rs:75-112 | each input's stretch holds exactly one closing reference element, its last |
| Expand.ExpandShape | src/operator/expand.rs:40-119 | every output element is an input value, and the output carries the reference's stop levels over its length |
| Expand.ExpandDefined | src/operator/expand.rs:75-112 | with stop inputs only, the run completes exactly when the reference closes at least once per input |
| Expand.ExpandWhole | src/operator/expand.rs:75-112 | when the reference closes once per input and ends on a closing element, the output has the reference's length and levels |
| Expand.ExpandScalarExample | src/operator/expand.rs:136-165 | a rank-0 input against a rank-0 reference of three values gives the input three times |
| Reshape.Pad | src/operator/reshape.rs:112-130 | `n` copies of the pad value; only the last is a stop, at the given level |
| Reshape.RunInnermost | src/operator/reshape.rs:49-171 | the innermost split's loop equals `Chunked` on the whole input |
| Reshape.RunOuter | src/operator/reshape.rs:172-219 | the outer split's loop equals `Split` on the whole input |
| Reshape.Run | src/operator/reshape.rs:48-220 | the operator's output equals `ReshapeStream` |
| Reshape.PartialVals | src/operator/reshape.rs:54-80 | values that do not fill the open chunk pass unchanged and only advance the counter |
| Reshape.FullChunk | src/operator/reshape.rs:54-80 | a full chunk of values closes on its last value, at level 2 at the very end when an outer dimension is added |
| Reshape.TailChunk | src/operator/reshape.rs:133-168 | values that leave a chunk open at the end are padded up to the chunk size, the last pad closing the vector |
| Reshape.StopPadded | src/operator/reshape.rs:94-131 | a stop that leaves its chunk open is sent plain and followed by padding that closes at its level plus one |
| Reshape.ClosingPadded | src/operator/reshape.rs:94-131 | a row's closing value ending a partial chunk is sent plain, then padding closes the chunk as a full row |
| Reshape.VectorChunks | src/operator/reshape.rs:49-171 | `n` plain values become `ceil(n / chunk_size)` vectors of `chunk_size` entries: the values in order, then padding |
| Reshape.NineByFour | src/operator/reshape.rs:241-336 | nine values cut by four give twelve entries, closing at 4, 8 and 12, the last three padding |
| Reshape.RowOutput | src/operator/reshape.rs:49-171 | a row of `n` entries becomes `ceil(n / chunk_size)` rows of `chunk_size` entries, the last carrying the row's level one higher |
| Reshape.RowsChunks | src/operator/reshape.rs:49-171 | a stream of rows of `n` entries becomes rows of `ceil(n / chunk_size)` vectors of `chunk_size` entries |
| Reshape.ReshapeTensor | src/operator/reshape.rs:49-171 | splitting the innermost dimension `n` by `chunk_size` turns the tensor `outer + [n]` into `outer + [ceil(n / chunk_size), chunk_size]` |
| Reshape.SplitLevelsOf | src/operator/reshape.rs:172-219 | the outer split keeps every value and changes levels only as the counting rule `SplitLevels` says |
| Reshape.SplitShape | src/operator/reshape.rs:188-214 | on levels, splitting dimension `|inner|` of `outer + [q * c] + inner` every `c` closings gives `outer + [q, c] + inner`, ending with the counter at 0 |
| Reshape.SplitTensor | src/operator/reshape.rs:172-219 | on a tensor, the outer split succeeds, keeps the values, and gives the levels of `outer + [q, chunk_size] + inner` |
| Roofline.LoadCycles | src/operator/map.rs:248-253 | a tile read from a memory unit costs at least its size over the bandwidth, rounded up; otherwise nothing |
| Roofline.StoreCycles | src/operator/map.rs:256-261 | writing back costs at least the tile's size over the bandwidth, rounded up; otherwise nothing |
| Map.BinaryMap | src/operator/map.rs:82-174 | succeeds exactly on aligned inputs, sending per pair the function's tile with the pair's stop, with the summed roofline cycles; otherwise fails with a shape mismatch exactly when the inputs mismatch, else because one closed early |
| Map.PairStop | src/operator/map.rs:87-118 | a pair is accepted exactly when both are plain or both stop at the same level; the carried stop is that level |
| Map.BinaryStep | src/operator/map.rs:126-172 | the output is the function's tile, plain exactly when no stop is carried, and costs the step's roofline cycles |
| Map.UnaryMap | src/operator/map.rs:233-292 | one output per input: the function's tile with the input's stop, and the summed roofline cycles |
| Map.AlignedLevels | src/operator/map.rs:82-174 | aligned inputs carry the same levels, so the output keeps the tensor's shape |
| Accum.StepOf | src/operator/accum.rs:61-124 | one element sends at most one tile |
| Accum.Run | src/operator/accum.rs:136-175 | the loop's output and cycles equal `AccumFrom` from the initial accumulator |
| Accum.AccumLevels | src/operator/accum.rs:136-175 | on a canonical stream the output levels are the input levels reduced by `rank`: one output per element closing at least `rank` dimensions |
| Accum.AccumShape | src/operator/accum.rs:136-175 | accumulating the innermost `rank` dimensions of the tensor `outer + inner` gives the stream of the tensor `outer` |
| Accum.AccumThreeByThree | src/operator/accum.rs:136-175 | a 3 x 3 stream accumulated at rank 1 gives three tiles, the last closing one dimension |
| Accum.AccumGroup | src/operator/accum.rs:136-175 | a group of elements only the last of which closes `rank` dimensions sends one tile: every value folded into the accumulator, at the closing level less `rank`, and the accumulator restarts |
| MapAccum.Zip | src/operator/map_accum.rs:173-247 | the two streams read as one stream of operand pairs as far as both reach, with the first's stops |
| MapAccum.Run | src/operator/map_accum.rs:173-247 | succeeds exactly on aligned inputs and then equals accumulating the zipped pairs; otherwise fails with a shape mismatch exactly when the inputs mismatch |
| MapAccum.FoldPair | src/operator/map_accum.rs:69-161 | one matched pair does what accumulating the pair does (fold, or send and restart) |
| MapAccum.ZipLevels | src/operator/map_accum.rs:173-247 | aligned streams zip into a stream of their common length and levels |
| MapAccum.MapAccumShape | src/operator/map_accum.rs:173-247 | accumulating the innermost dimensions of two aligned streams of the tensor `outer + inner` gives the stream of `outer` |
| FlatMap.Retiled | src/operator/flatmap.rs:43-137 | fails exactly for a blank tile without two dimensions; otherwise sends one vector per row (or column), cut short at the offset when filtering |
| FlatMap.Retile | src/operator/flatmap.rs:43-137 | the method's output equals `Retiled` |
| FlatMap.RetiledStops | src/operator/flatmap.rs:64-75 | only the last vector sent carries a stop, and it carries the input's |
| FlatMap.RetiledVectors | src/operator/flatmap.rs:55-62 | vector `k` is a valid 1 x N tile holding row (or column) `k` of the array, real within the offset |
| FlatMap.RowsRestack | src/operator/flatmap.rs:43-137 | splitting a tile into rows and stacking them again with `retile_row` at rank 1 gives back the tile's data, shape and clamped offset |
| FlatMap.RetileStreamify | src/operator/flatmap.rs:144-163 | the run equals retiling every input tile in turn, the first failure ending the simulation |
| FlatMap.RetileFailureStays | src/operator/flatmap.rs:144-163 | once a tile has failed, later tiles change nothing |
| FlatMap.RetileLevels | src/operator/flatmap.rs:144-163 | splitting tiles of `c` rows keeps the stream's stops and spreads each input entry over `c` entries |
| FlatMap.ExpertTiles | src/operator/flatmap.rs:205-256 | a selector fails exactly when it is a stop or does not pick exactly one expert; otherwise it gives that expert's addresses |
| FlatMap.ExpertAddrs | src/operator/flatmap.rs:219-245 | the inner loop's output equals the expert's block of addresses |
| FlatMap.ExpertAddrGen | src/operator/flatmap.rs:205-256 | the run's output equals the address blocks of every selected expert, in order |
| FlatMap.ExpertsFail | src/operator/flatmap.rs:205-256 | the simulation stops exactly when some selector is a stop or does not pick exactly one expert |
| FlatMap.ExpertLevels | src/operator/flatmap.rs:205-256 | each selector becomes an `n` x 1 block: the output has two more innermost dimensions than the input |
| FlatMap.ExpertBlocksDisjoint | src/operator/flatmap.rs:225-232 | two different experts' weight-tile addresses never coincide |
| FlatMap.ReadLine | src/operator/flatmap.rs:305-345 | the inner loop's output equals the line's reads |
| FlatMap.CacheReadStep | src/operator/flatmap.rs:293-420 | one step equals the pair's checks followed by the line's reads |
| FlatMap.CacheReadAddrGen | src/operator/flatmap.rs:293-422 | the run equals `CacheReadStream`: a pair at a time while both streams have one, and both must end together |
| FlatMap.ReadsFollowWrites | src/operator/flatmap.rs:305-340 | read `i` of a line goes to the address `cache_write_addr_gen` gave that line's entry `i` |
| FlatMap.CacheReadLevels | src/operator/flatmap.rs:293-422 | when every length is `d`, the reads add an innermost dimension of size `d` to the index stream |
| FlatMap.FlagLine | src/operator/flatmap.rs:462-487 | the inner loop's output equals the line's flags |
| FlatMap.FilterLastTile | src/operator/flatmap.rs:452-521 | the run equals the flags of every line in turn |
| FlatMap.LastFlagsRoute | src/operator/flatmap.rs:462-487 | every slot but the last of a line is routed to branch 1, the last to branch 0 |
| FlatMap.FiltersAlignWithReads | src/operator/flatmap.rs:293-521 | wherever the reads can be generated the flags can too, and the two streams are aligned element by element |
| MapFns.Matmul | src/functions/map_fn.rs:15-67 | fails exactly on the source's shape and bandwidth checks; otherwise the `m` x `n` product entry by entry, with `in1`'s offset and width, costing the flop count over the bandwidth rounded up |
| MapFns.TransposedWeight | src/functions/map_fn.rs:15-67 | a weight given transposed gives the same result as the product with its transpose |
| MapFns.MatmulIdentity | src/functions/map_fn.rs:15-67 | multiplying by the identity gives back the tile's entries, shape and offset |
| MapFns.ElementWise | src/functions/map_fn.rs:69-258 | `div`, `mul` and `add`: fail exactly on incompatible shapes or a zero bandwidth; otherwise the operation on the operands broadcast to the larger shape, one operation per result entry |
| MapFns.BroadcastEntries | src/functions/map_fn.rs:69-258 | every result entry combines, from each operand, the entry at the same position, a single row or column being repeated |
| MapFns.ElementWiseSwap | src/functions/map_fn.rs:69-258 | with a commutative operation and equal widths the operands can be swapped |
| MapFns.AddCommutes | src/functions/map_fn.rs:196-258 | `add` is commutative on operands of one width |
| MapFns.AddSameShape | src/functions/map_fn.rs:196-258 | on operands of one shape `add` succeeds and adds entry by entry |
| MapFns.Unary | src/functions/map_fn.rs:262-329 | `silu` and `exp`: the function on every entry, shape, offset and data presence kept, at the per-entry cost over the bandwidth |
| MapFns.UnaryCompose | src/functions/map_fn.rs:262-329 | two point-wise functions in a row give the tile of their composition |
| MapFns.RowWiseSum | src/functions/map_fn.rs:331-367 | the `rows` x 1 column whose entry `i` is the sum of row `i`, offset kept, one operation per entry summed |
| MapFns.RowWiseSumOfAdd | src/functions/map_fn.rs:331-367 | the row sums of a sum of two tiles are the sums of their row sums |
| MapFns.SetOffset | src/functions/map_fn.rs:369-400 | fails exactly for a non-2-D tile or an offset tile without a usable entry; otherwise only the offset (read from the 1 x 1 tile) and the flag change, in one cycle |
| MapFns.SetOffsetTwice | src/functions/map_fn.rs:369-400 | setting the offset twice equals setting the second offset once |
| MapFns.RowWiseAppend | src/functions/map_fn.rs:402-450 | the appended rows overwrite the tile from its offset on, other rows kept, and the offset moves past them; one cycle |
| MapFns.CacheWriteAddrGen | src/functions/map_fn.rs:452-473 | fails exactly on an unusable index or length tile; otherwise the 1 x 1 tile of `idx * offset_per_idx + len`, one cycle |
| MapFns.CacheAddrInjective | src/functions/map_fn.rs:452-473 | slots of lines shorter than `offset_per_idx` get distinct addresses |
| MapFns.MapAdd | src/operator/map.rs:82-174 | a map of `add` over aligned streams of same-shape tiles sends the entry-by-entry sums, each step costing at least the `add`'s own cycles |
| AccumFns.ElementWise | src/functions/accum_fn.rs:15-111 | the accumulator's `mul` and `add`: the map function of the same name, with the offset reset to the row count |
| AccumFns.AddSameShape | src/functions/accum_fn.rs:64-111 | on a tile and an accumulator of one shape, `add` adds entry by entry and leaves no padding |
| AccumFns.RetileCol | src/functions/accum_fn.rs:113-136 | fails exactly on the source's checks; otherwise the accumulator with the tile on its right, unpadded, at no cycle cost |
| AccumFns.RetileColRows | src/functions/accum_fn.rs:113-136 | every row of the result is the accumulator's row followed by the tile's |
| AccumFns.RetileRow | src/functions/accum_fn.rs:138-192 | fails exactly on the source's checks; otherwise the tile below the accumulator, the offsets added, at no cycle cost |
| AccumFns.RetileRowCells | src/functions/accum_fn.rs:138-192 | the rows of the result are the accumulator's followed by the tile's |
| AccumFns.SignalReqAllRead | src/functions/accum_fn.rs:194-210 | a 1 x 1 eight-byte tile holding 1 (blank when the tile has no data), one cycle |
| AccumFns.FoldAdd | src/functions/accum_fn.rs:64-111 | folding `add` over same-shape tiles adds each entry's sum into the accumulator |
| AccumFns.AccumulateAdd | src/operator/accum.rs:136-175 | an `add` accumulator started from zeros sends, per group, the entry-by-entry sum of the group at the reduced level |
| AccumFns.FoldRetileRow | src/functions/accum_fn.rs:138-192 | folding `retile_row` stacks the tiles' rows below the accumulator's and adds up their offsets |
| AccumFns.AccumulateRetileRow | src/operator/accum.rs:136-175 | a row-retiling accumulator started empty sends, per group, one tile holding all the group's rows, with their offsets summed |
| MapAccumFns.Matmul | src/functions/map_accum_fn.rs:11-70 | fails exactly on the source's checks; otherwise the map `matmul` with the accumulator's entries added, at the same cost |
| MapAccumFns.DynMatmul | src/functions/map_accum_fn.rs:78-152 | with an accumulator without entries exactly the map `matmul`; otherwise the accumulating `matmul` |
| MapAccumFns.FoldMatmul | src/functions/map_accum_fn.rs:11-70 | folding `matmul` over slices adds the sum of the slices' products into the accumulator |
| MapAccumFns.AccumulateMatmul | src/operator/map_accum.rs:173-247 | a map-accumulate `matmul` started from zeros sends, per group of slices, the sum of the slices' products |
| MapAccumFns.TiledProduct | src/functions/map_accum_fn.rs:11-70 | when the slices are the column blocks of `a` and the row blocks of `b`, the summed products are the full product `a * b` |
| OffChipLoad.MultiIndexInRange | src/memory/offchip_load.rs:158-165 | the multi-index of any flat position has every component below its dimension |
| OffChipLoad.MultiIndexOf | src/memory/offchip_load.rs:158-165 | the remainder-and-quotient loop, innermost dimension first, computes the row-major multi-index of the flat position |
| OffChipLoad.Wrap | src/memory/offchip_load.rs:173-179 | a wrapped tile index lies inside a non-empty stored tensor, and is 0 when the stored tensor is empty |
| OffChipLoad.WrapBelow | src/memory/offchip_load.rs:173-179 | an index already inside the stored tensor is left unchanged by the wrap |
| OffChipLoad.ViewIndex | src/memory/offchip_load.rs:167-179 | the tile-index loop computes the stride-weighted sum of the multi-index, wrapped into the stored tensor |
| OffChipLoad.RowMajorInverse | src/memory/offchip_load.rs:156-171 | under row-major strides over its own shape, the strided sum of the multi-index of position `i` is `i`: the view reads in storage order |
| OffChipLoad.StopOf | src/memory/offchip_load.rs:197-216 | a tile carries no stop exactly when it closes no dimension, otherwise the number of dimensions it closes |
| OffChipLoad.TrailingAtLeast | src/memory/offchip_load.rs:200-216 | at least `m` trailing dimensions are at their end exactly when each of the last `m` components is its dimension's last index |
| OffChipLoad.StopLevel | src/memory/offchip_load.rs:196-216 | the innermost-first stop-level loop yields the number of trailing dimensions at their last index, or no stop when there are none |
| OffChipLoad.RowAddresses | src/memory/offchip_load.rs:190-193 | the inner address loop produces the byte addresses `start + c`, `c` stepping by `addr_offset` below the row width |
| OffChipLoad.TileAddresses | src/memory/offchip_load.rs:183-194 | the tile-address loops produce the rows of the tile in order, row `r` starting `r * row_offset` bytes after the tile's base address |
| OffChipLoad.JoinRuns | src/memory/offchip_load.rs:188-194 | two increasing address runs, the first wholly below the second, make one increasing run over the union of their ranges |
| OffChipLoad.RowOrder | src/memory/offchip_load.rs:190-193 | a row's addresses strictly increase and stay within the row's bytes |
| OffChipLoad.RowCount | src/memory/offchip_load.rs:190 | a row holds one address per started block of `addr_offset` bytes |
| OffChipLoad.TileCount | src/memory/offchip_load.rs:189-194 | a tile holds `tile_row` rows of that many addresses each |
| OffChipLoad.RowFromAt | src/memory/offchip_load.rs:190-191 | address `k` of a row is its start plus `k * addr_offset` |
| OffChipLoad.TileRowsAt | src/memory/offchip_load.rs:183-194 | address `k` of row `r` of a tile is `base + r * row_offset + k * addr_offset` |
| OffChipLoad.TileOrder | src/memory/offchip_load.rs:183-194 | when rows are at least a row's width apart, a tile's addresses strictly increase and lie within its rows: no address is requested twice |
| OffChipLoad.NoAddresses | src/memory/offchip_load.rs:189-194 | a tile has no address exactly when it has no row or its rows have no byte |
| OffChipLoad.TileIndexAt | src/memory/offchip_load.rs:156-179 | the stored tile an output position reads lies inside the stored tensor |
| OffChipLoad.Requests | src/memory/offchip_load.rs:156-262 | the requests of the first `n` output positions number `n` |
| OffChipLoad.RequestsAt | src/memory/offchip_load.rs:156-262 | request `i` is the one of output position `i`: requests come in flat output order |
| OffChipLoad.Generated | src/memory/offchip_load.rs:116-265 | address generation yields requests exactly when the loader has an output, a tensor and tiles with addresses, and then one per output position |
| OffChipLoad.Pass | src/memory/offchip_load.rs:157-261 | one pass of the flat loop fails on a missing last dimension or a zero step, yields nothing when the tile has no address, and otherwise the request of that position |
| OffChipLoad.GenerateAddr | src/memory/offchip_load.rs:116-265 | the flat address loop computes the generated requests or their failure |
| OffChipLoad.Sent | src/memory/offchip_load.rs:295-301 | a request is sent on chip as its tile, with the stop level it closes or as a plain value |
| OffChipLoad.Stream | src/memory/offchip_load.rs:339-351 | the on-chip stream has one element per request, each the request's tile and stop |
| OffChipLoad.ChunksConcat | src/memory/offchip_load.rs:305-321 | dispatching in groups of `par_dispatch` loses and reorders no address, and every group is non-empty and at most `par_dispatch` long |
| OffChipLoad.ConcatAppend | src/memory/offchip_load.rs:305-321 | putting groups back together distributes over appending lists of groups |
| OffChipLoad.Run | src/memory/offchip_load.rs:284-353 | the run checks the view's rank, then reads every generated request in `par_dispatch` groups and sends its tile on chip, or reports the failure |
| OffChipLoad.TransferStream | src/memory/offchip_load.rs:295-353 | a run's on-chip output is the stream of its requests and its memory requests, put back together, are every request's addresses in order |
| OffChipLoad.LoadLevels | src/memory/offchip_load.rs:196-261 | the loader's on-chip stream carries the canonical stop levels of its output shape |
| OffChipLoad.LoadedCount | src/memory/offchip_load.rs:267-274 | `loaded_elems` is the number of tiles the loader sends times `on_chip_req_elems` |
| OffChipLoad.ContiguousOrder | src/memory/offchip_load.rs:119-179 | a view with the stored tensor's own shape and row-major strides sends every stored tile once, in storage order |
| OffChipLoad.ContiguousAt | src/memory/offchip_load.rs:156-179 | under that view, output position `i` reads stored tile `i` |
| OffChipLoad.RequestAddresses | src/memory/offchip_load.rs:183-194 | every tile's addresses strictly increase, number `tile_row` times the started `addr_offset` blocks of a row, and stay within the tile's rows |
| DynOffChipLoad.Adjust | src/memory/dyn_offchip_load.rs:274-290 | a tile keeps its tile and its stop or plain-value kind; only a tile closing every output dimension, in a pass for a stop reference, has its level raised by the reference's level |
| DynOffChipLoad.RefStop | src/memory/dyn_offchip_load.rs:359-370 | a reference element passes on a stop exactly when it is a stop element, and then its level |
| DynOffChipLoad.Fit | src/memory/dyn_offchip_load.rs:121-270 | the view reads one stride per output dimension, the leading ones of the given strides |
| DynOffChipLoad.View | src/memory/dyn_offchip_load.rs:121-270 | the loader seen by its address loop keeps the stored tiles and has one stride per output dimension |
| DynOffChipLoad.StreamTiles | src/memory/dyn_offchip_load.rs:272-342 | one pass streams every generated request of the view, the final tile's stop raised by the reference's, or reports the failure |
| DynOffChipLoad.RanSticky | src/memory/dyn_offchip_load.rs:358-375 | once a prefix of the reference stream makes a pass fail, the whole run fails the same way |
| DynOffChipLoad.Run | src/memory/dyn_offchip_load.rs:358-375 | the run makes one pass per reference element, in order, until the reference stream closes |
| DynOffChipLoad.PassLevels | src/memory/dyn_offchip_load.rs:274-290 | when only the last request closes every output dimension, a pass's output is the view's stream with its last stop raised by the reference's |
| DynOffChipLoad.PassOut | src/memory/dyn_offchip_load.rs:272-342 | each element a pass sends is its request's tile with the adjusted stop, one per request |
| DynOffChipLoad.PassIsRaised | src/memory/dyn_offchip_load.rs:272-342 | every pass streams the view's canonical stop levels, the last raised by the reference element's level |
| DynOffChipLoad.ScalarViewDropsStops | src/memory/dyn_offchip_load.rs:278-290 | a view with no output dimension sends one plain tile per pass, so a reference's stop is not passed on |
| DynOffChipLoad.PlainPass | src/memory/dyn_offchip_load.rs:276 | a pass of one stopless request sends one plain tile |
| DynOffChipLoad.RunLevels | src/memory/dyn_offchip_load.rs:358-375 | the loaded stream nests the view inside the reference: one copy of the view's levels per reference element, the last raised by that element's level |
| DynOffChipLoad.NestStep | src/memory/dyn_offchip_load.rs:358-375 | appending a pass raised by one more reference level nests one more outer entry |
| DynOffChipLoad.RunShape | src/memory/dyn_offchip_load.rs:358-375 | a reference stream of shape `outer` makes the loaded stream the canonical stream of `outer` followed by the output shape |
| OffChipStore.Blank | src/memory/offchip_store.rs:103-104 | a row of tiles starts as `tile_row` empty rows |
| OffChipStore.Join | src/memory/offchip_store.rs:119-127 | horizontal concatenation continues each row by the same row of the tile |
| OffChipStore.Collect | src/memory/offchip_store.rs:110-157 | with a store path, a tile must hold data of `tile_row` rows and a stop must complete a row of the tensor's width; without one the state is untouched |
| OffChipStore.Send | src/memory/offchip_store.rs:206-255 | writing needs a `tile_row` x `tile_col` tile as wide per entry as the first, keeps the collected data and advances the tile index by one |
| OffChipStore.Step | src/memory/offchip_store.rs:108-270 | one turn of the loop keeps a row of `tile_row` rows and advances the tile index by one |
| OffChipStore.StoreFrom | src/memory/offchip_store.rs:108-270 | after `k` tiles the tile index is `k`; the first failing tile stops the simulation |
| OffChipStore.MetaShape | src/memory/offchip_store.rs:182-187 | the saved shape has the tensor's rank |
| OffChipStore.Finish | src/memory/offchip_store.rs:158-202 | the end of the stream keeps the memory traffic and saves a tensor exactly when there is a store path |
| OffChipStore.FailureStays | src/memory/offchip_store.rs:108-270 | once a tile has failed, later tiles change nothing |
| OffChipStore.CollectTile | src/memory/offchip_store.rs:110-157 | the data half of a turn computes `Collect` |
| OffChipStore.SendTile | src/memory/offchip_store.rs:206-255 | the memory half of a turn, with its checks, address loops, dispatch and acknowledgements, computes `Send` |
| OffChipStore.Run | src/memory/offchip_store.rs:97-271 | the run collects and writes every tile in turn, then makes the end checks |
| OffChipStore.SameTiles | src/memory/offchip_store.rs:206-214 | every tile stored was `tile_row` x `tile_col` with the byte width recorded from the first tile |
| OffChipStore.StoreAddresses | src/memory/offchip_store.rs:216-255 | the groups sent to memory, put back together, are every tile's addresses in stream order, with one acknowledgement taken per address |
| OffChipStore.StepSends | src/memory/offchip_store.rs:230-255 | a successful turn sends its tile's addresses in `par_dispatch` groups and takes one acknowledgement per address |
| OffChipStore.TileWrites | src/memory/offchip_store.rs:216-228 | tile `k` is written at `tile_row` rows of strictly increasing addresses within its span, starting `k` tiles after the base |
| OffChipStore.TileSize | src/primitives/tile.rs:25 | a two-dimensional tile's size in bytes is rows times columns times its byte width |
| OffChipStore.MetaShapeElems | src/memory/offchip_store.rs:163-187 | the saved shape describes exactly the entries the end check demands |
| OffChipStore.HJoin | src/memory/offchip_store.rs:119-143 | tiles joined side by side have `tile_row` rows |
| OffChipStore.StepFits | src/memory/offchip_store.rs:110-157 | a fitting plain tile joins the row being built; a fitting stop also appends that row to the tensor and starts a new one |
| OffChipStore.Feed | src/memory/offchip_store.rs:108-270 | feeding tiles keeps a row of `tile_row` rows |
| OffChipStore.FeedFrom | src/memory/offchip_store.rs:108-270 | the state after `j + m` tiles is the state after `j`, fed the next `m` |
| OffChipStore.FeedAppend | src/memory/offchip_store.rs:108-270 | feeding two runs of tiles is feeding the first, then the second from where the first left off |
| OffChipStore.RowPrefix | src/memory/offchip_store.rs:115-128 | the plain tiles of a row join side by side and leave the collected rows alone |
| OffChipStore.RowJoined | src/memory/offchip_store.rs:131-154 | a whole row of tiles appends its joined rows to the tensor and starts a new row |
| OffChipStore.RowsCollected | src/memory/offchip_store.rs:108-157 | after `g` rows of tiles the store holds those rows untiled, with no row begun |
| OffChipStore.Untiled | src/memory/offchip_store.rs:97-157 | a tensor streamed row of tiles by row of tiles, each row closed by a stop, is stored without failure and collected as the untiled tensor |
| OffChipStore.SavedWhole | src/memory/offchip_store.rs:158-202 | when the rows make up the whole tensor the end check passes and the untiled tensor is saved with its shape |
| OffChipStore.VStackSize | src/memory/offchip_store.rs:145-150 | each row of tiles adds `tile_row` rows to the tensor |
| OffChipStore.HJoinWidth | src/memory/offchip_store.rs:119-143 | each tile adds `tile_col` columns to every row |
| OffChipStore.HJoinAt | src/memory/offchip_store.rs:119-143 | entry `(r, p * tile_col + c)` of tiles side by side is entry `(r, c)` of tile `p` |
| OffChipStore.VStackAt | src/memory/offchip_store.rs:97-157 | entry `(g * tile_row + r, p * tile_col + c)` of the collected tensor is entry `(r, c)` of tile `p` of row `g`: collecting inverts the tiling |
| RandomOffChipLoad.Window | src/memory/random_offchip_load.rs:93-118 | a window of the stored tensor is a rectangular `tile_row` x `tile_col` array |
| RandomOffChipLoad.Precomputed | src/memory/random_offchip_load.rs:89-123 | the constructor pre-computes one tile per window of every slice, and fails on an empty window size |
| RandomOffChipLoad.WindowPosition | src/memory/random_offchip_load.rs:105-118 | the windows are listed slice by slice, window rows outer and window columns inner, so the position decomposes back into slice, row and column |
| RandomOffChipLoad.PrecomputedCount | src/memory/random_offchip_load.rs:73-123 | a stored tensor of the checked untiled shape gives one pre-computed tile per tile of the tiled shape |
| RandomOffChipLoad.PrecomputedWindow | src/memory/random_offchip_load.rs:105-118 | the tile at window `(i, j)` of slice `s` is a full tile read from memory whose entry `(r, c)` is the slice's entry `(i * tile_row + r, j * tile_col + c)` |
| RandomOffChipLoad.IndexOf | src/memory/random_offchip_load.rs:204-205 | a request's tile index is entry `[0, 0]` of its data, and a request without that entry fails |
| RandomOffChipLoad.TileAddrs | src/memory/random_offchip_load.rs:152-168 | tile addresses exist exactly when the tensor has a last dimension and the address step is non-zero for a tile with rows |
| RandomOffChipLoad.GenerateTileAddresses | src/memory/random_offchip_load.rs:152-168 | the row loop over the tile computes its addresses |
| RandomOffChipLoad.TileAddrsShape | src/memory/random_offchip_load.rs:152-168 | a tile's addresses are `tile_row` rows of `ceil(width / addr_offset)` each, strictly increasing |
| RandomOffChipLoad.TileAddressAt | src/memory/random_offchip_load.rs:152-168 | address `k` of row `r` of tile `idx` is `base + idx * tile_bytes + r * row_offset + k * addr_offset` |
| RandomOffChipLoad.CreateTileData | src/memory/random_offchip_load.rs:171-188 | the answer is the stored tile when the index names one, otherwise a blank `tile_row` x `tile_col` tile read from memory |
| RandomOffChipLoad.Serve | src/memory/random_offchip_load.rs:200-316 | serving one request answers with exactly one element |
| RandomOffChipLoad.Served | src/memory/random_offchip_load.rs:198-318 | serving `n` requests sends `n` answers on chip, or fails |
| RandomOffChipLoad.Run | src/memory/random_offchip_load.rs:198-318 | the run serves every request in arrival order until the request stream closes |
| RandomOffChipLoad.ServedFails | src/memory/random_offchip_load.rs:198-318 | a failure stays a failure once more requests are served |
| RandomOffChipLoad.Answers | src/memory/random_offchip_load.rs:200-316 | answer `k` has request `k`'s kind and stop level and carries the tile named by request `k`'s index |
| RandomOffChipLoad.RequestedAddresses | src/memory/random_offchip_load.rs:206-231 | the address groups sent to memory, put back together, are the requested tiles' addresses in order |
| RandomOffChipLoad.NoDataBlank | src/memory/random_offchip_load.rs:183-186 | without stored data every answer is a blank tile of the tile's shape |
| RandomOffChipStore.WriteAddrs | src/memory/random_offchip_store.rs:128-142 | a write's addresses exist exactly when the address step is non-zero for a tile with rows |
| RandomOffChipStore.WriteAddressAt | src/memory/random_offchip_store.rs:130-142 | a write has `tile_row` rows of addresses, address `k` of row `r` at `base + waddr * tile_size + r * row_offset + k * addr_offset` |
| RandomOffChipStore.Placement | src/memory/random_offchip_store.rs:181-215 | a write lands at the corner of tile `waddr`, wholly inside the untiled tensor, and only for a tile whose data fills (or broadcasts over) the tile's shape |
| RandomOffChipStore.Overwritten | src/memory/random_offchip_store.rs:205-211 | overwriting a region keeps the tensor's shape |
| RandomOffChipStore.Written | src/memory/random_offchip_store.rs:181-215 | without a kept tensor a write changes nothing |
| RandomOffChipStore.Ack | src/memory/random_offchip_store.rs:241-335 | every acknowledgement is `true`, plain or a stop of the same level as the address element or as the data element, as configured |
| RandomOffChipStore.Step | src/memory/random_offchip_store.rs:240-336 | processing one pair appends exactly its acknowledgement |
| RandomOffChipStore.Processed | src/memory/random_offchip_store.rs:225-388 | after `n` pairs there are `n` more acknowledgements, or the first failure |
| RandomOffChipStore.Contents | src/memory/random_offchip_store.rs:181-215 | a kept tensor's contents have its rows and columns |
| RandomOffChipStore.FillRow | src/memory/random_offchip_store.rs:205-211 | one row of the tile's region takes the same row of the data, a size-1 dimension repeating; nothing else changes |
| RandomOffChipStore.SameContents | src/memory/random_offchip_store.rs:205-211 | an array holding the overwritten entries has the overwritten contents |
| RandomOffChipStore.Store.constructor | src/memory/random_offchip_store.rs:48-126 | a store of a 2-D tiled tensor starts with nothing sent and keeps the tensor it was given |
| RandomOffChipStore.Store.SendWriteRequest | src/memory/random_offchip_store.rs:128-179 | the write's addresses go to memory in `par_dispatch` groups, appended to what was sent; a failure sends nothing |
| RandomOffChipStore.Store.UpdateUnderlying | src/memory/random_offchip_store.rs:181-215 | the kept tensor becomes the tensor with the tile's region overwritten, or stays as it was on a failure |
| RandomOffChipStore.Store.StorePair | src/memory/random_offchip_store.rs:242-259 | one pair reads the tile index from the address tile, sends the write, updates the kept tensor and appends its acknowledgement; the first of these that fails ends the pair with its failure |
| RandomOffChipStore.Store.Run | src/memory/random_offchip_store.rs:225-388 | pairs of write address and data tile are processed in order while both streams have one; a stream closing before the other fails |
| RandomOffChipStore.StaysFailed | src/memory/random_offchip_store.rs:225-388 | once a pair fails, the run fails with that pair's failure |
| RandomOffChipStore.StaysFailedUpTo | src/memory/random_offchip_store.rs:225-388 | a failure after `n` pairs is the state after every later count of pairs |
| RandomOffChipStore.Acks | src/memory/random_offchip_store.rs:240-336 | a successful run acknowledges every pair once, in order |
| RandomOffChipStore.Unequal | src/memory/random_offchip_store.rs:380-382 | address and data streams of different lengths always fail |
| RandomOffChipStore.NoTensorKept | src/memory/random_offchip_store.rs:181-215 | without a kept tensor, no run creates one |
| RandomOffChipStore.StoreThenLoad | src/memory/random_offchip_store.rs:181-215 | storing a full tile at `waddr` and reading the window there, as the random loader cuts tiles, gives back the stored data |
| RandomOffChipStore.OtherTilesUnchanged | src/memory/random_offchip_store.rs:194-211 | writing one tile leaves every other tile of the tensor as it was |
| MetadataGen.ElemArray | src/memory/metadata_gen.rs:43-143 | the element array exists exactly for a tensor with a dimension whose entries fit 64 bits, and then has one element per entry with canonical stop levels |
| MetadataGen.Entries | src/memory/metadata_gen.rs:83-140 | element `k` is entry `k`'s scalar tile with the level entry `k` closes |
| MetadataGen.ElemArrayIsTensor | src/memory/metadata_gen.rs:43-143 | the stream is the tensor: its values are the entries in row-major order and its levels are the shape's canonical levels |
| MetadataGen.VectorLevels | src/memory/metadata_gen.rs:48-76 | in a vector only the last entry closes a dimension, and it closes one |
| MetadataGen.VectorElems | src/memory/metadata_gen.rs:48-76 | the vector branch, every entry plain but the last closing one level, computes the element array |
| MetadataGen.TensorElems | src/memory/metadata_gen.rs:79-142 | the general branch, a multi-index and the stop loop per entry, computes the element array |
| MetadataGen.GetElemArray | src/memory/metadata_gen.rs:43-143 | `get_elem_array` computes the element array or its failure |
| MetadataGen.Run | src/memory/metadata_gen.rs:149-163 | the run sends element `k` of the array at `start + k`, or fails as the array does |
| EagerMerge.Start | src/operator/eager_merge.rs:49-52 | the scan starts with no stream peeked or closed and no pick |
| EagerMerge.Visit | src/operator/eager_merge.rs:55-77 | peeking one stream keeps a flag per stream |
| EagerMerge.RoundFrom | src/operator/eager_merge.rs:55-78 | one pass of the peeking loop keeps a flag per stream |
| EagerMerge.VisitSound | src/operator/eager_merge.rs:55-77 | peeking one stream keeps the pick among the streams seen with something, at their head times |
| EagerMerge.RoundSound | src/operator/eager_merge.rs:54-78 | a pass keeps the pick sound and every flag witnessed by a peek between the start time and now |
| EagerMerge.RoundDecides | src/operator/eager_merge.rs:55-78 | a pass decides every stream whose peek shows something or closes, and keeps every earlier decision |
| EagerMerge.FirstPassPicksEarliest | src/operator/eager_merge.rs:60-70 | when every stream shows its head, a pass picks the earliest head, the lowest index on a tie |
| EagerMerge.FirstPass | src/operator/eager_merge.rs:54-78 | a first pass over streams all showing their heads picks the earliest, lowest index on a tie |
| EagerMerge.Round | src/operator/eager_merge.rs:55-78 | the `for` loop over the streams computes one pass |
| EagerMerge.GetEarliestInputIdx | src/operator/eager_merge.rs:48-119 | the choice is none exactly when every stream is closed; otherwise it is the pick, made once every stream is decided or the clock has reached the pick's time |
| EagerMerge.GroupEnd | src/operator/eager_merge.rs:151-189 | a group from a position ends just past its first element closing it at the input rank, or at the stream's end, and holds at least one element |
| EagerMerge.Datas | src/operator/eager_merge.rs:153-176 | the forwarded data are the channel elements' data, in order |
| EagerMerge.Merge | src/operator/eager_merge.rs:127-191 | the merge for an arbitration order records each output element's source and a position per stream within that stream |
| EagerMerge.MergeStep | src/operator/eager_merge.rs:137-189 | one more choice appends the chosen stream's next group and moves its position past it |
| EagerMerge.MergeProjection | src/operator/eager_merge.rs:127-191 | nothing is lost, duplicated or reordered: the output elements taken from stream `i` are, in order, that stream's elements up to its position |
| EagerMerge.OneHot | src/operator/eager_merge.rs:142-146 | the selector emitted for stream `i` among `n` is one-hot at `i` |
| EagerMerge.ForwardGroup | src/operator/eager_merge.rs:151-189 | the forwarding loop sends the chosen stream's group unchanged, reports whether the stream closed inside it, and fails on a stop above the input rank |
| EagerMerge.Run | src/operator/eager_merge.rs:127-191 | the output follows a fair arbitration order: one one-hot selector per choice and each choice's group forwarded; it ends drained or cut short, or fails on a stop above the input rank |
| EagerMerge.EmittedStep | src/operator/eager_merge.rs:137-189 | choosing a stream with an element left and forwarding its group keeps the run following the order |
| EagerMerge.RunStep | src/operator/eager_merge.rs:151-189 | forwarding the chosen group keeps the output and the positions equal to the merge's |
| EagerMerge.Choose | src/operator/eager_merge.rs:129-135 | a choice names a stream with an element left, and none is made only when every stream is drained |
| EagerMerge.Fair | src/operator/eager_merge.rs:127-191 | a fair order names only existing streams |
| EagerMerge.RunsOut | src/operator/eager_merge.rs:186 | a group that ends without a closing element ends the run cut short |
| EagerMerge.FairSnoc | src/operator/eager_merge.rs:129-135 | choosing a stream with an element left keeps the order fair |
| Parallelize.Clock | src/operator/parallelize.rs:65-69 | reading waits for every element read so far to arrive |
| Parallelize.Closed | src/operator/parallelize.rs:62-104 | the first `i` elements close at most `i` groups |
| Parallelize.Dest | src/operator/parallelize.rs:62-104 | every element goes to one of the outputs |
| Parallelize.Outputs | src/operator/parallelize.rs:60-106 | there is one output record for each of the `n` output streams, whatever the number of switching costs |
| Parallelize.Run | src/operator/parallelize.rs:60-106 | with `n` output streams and the switching costs given apart, the run fails exactly on a stop above the partition rank or on an element dealt to an output that has no switching cost (index out of bounds); otherwise it sends each element to its group's output modulo `n`, stamped with the clock plus that output's switching cost |
| Parallelize.EnoughCosts | src/operator/parallelize.rs:61-75 | with at least as many switching costs as outputs, no element is dealt to an output without a cost |
| Parallelize.OutputsStep | src/operator/parallelize.rs:70-98 | sending an element extends its destination's record by that element and leaves the other outputs alone |
| Parallelize.RankZeroRoundRobin | src/operator/parallelize.rs:80-82 | at partition rank 0 every element is a group of its own, so element `i` goes to output `i mod n` |
| Parallelize.ClosedAll | src/operator/parallelize.rs:80-82 | at partition rank 0 each of the first `i` elements closes a group |
| Parallelize.NextGroupNextOutput | src/operator/parallelize.rs:63-104 | after an element closing a group the next element goes to the next output, and otherwise to the same one |
| Parallelize.FourToFour | src/operator/parallelize.rs:131-240 | four plain tiles at rank 0 over four outputs with switching cost 1 go one to each output, in order |
| Partition.MaxSwitch | src/operator/partition.rs:72-80 | the scan finds the largest switching cost among the selected streams, 0 when none is selected |
| Partition.GroupFrom | src/operator/partition.rs:112-213 | a group that succeeds uses at least one input element and sends one element per element used |
| Partition.Deliver | src/operator/partition.rs:91-103 | delivering keeps one stream per output |
| Partition.Advance | src/operator/partition.rs:106-214 | moving one group consumes at least one input element and keeps one stream per output |
| Partition.PartitionFrom | src/operator/partition.rs:226-250 | the run keeps one stream per output |
| Partition.Empties | src/operator/partition.rs:35-59 | every output stream starts empty |
| Partition.HandleWriteCycles | src/operator/partition.rs:71-88 | the write cost is the slowest selected switch, plus the write-back load when configured |
| Partition.EnqueueToExperts | src/operator/partition.rs:91-103 | the element is appended once to each selected stream |
| Partition.ProcessInputStream | src/operator/partition.rs:106-214 | the loop moves one group to the selected streams and fails where the group does |
| Partition.AdvanceStep | src/operator/partition.rs:112-213 | one element fails the group, ends it after being delivered, or is delivered before the rest of the group |
| Partition.RouteElem | src/operator/partition.rs:117-202 | the loop body for one element computes its checks, cycles and the element it sends |
| Partition.Run | src/operator/partition.rs:226-250 | the run moves one group per selector token until the selector stream ends, starting from one empty output per output stream, their number given apart from the switching costs |
| Partition.ProcessToken | src/operator/partition.rs:233-245 | one selector token is loaded, read as a selection, and moves one group with the expected stop its own stop implies |
| Partition.RunStep | src/operator/partition.rs:227-249 | one selector token either fails the run or the run continues from where its group left off |
| Partition.PartitionEnd | src/operator/partition.rs:247 | the run ends when the selector stream does |
| Partition.DeliverTwice | src/operator/partition.rs:91-103 | delivering two runs of elements is delivering them together |
| Partition.ElemStepFacts | src/operator/partition.rs:146-201 | an element is sent with the write-back flag; under a plain selector it keeps its stop, at most the rank, and ends the group at the rank; under a selector stop it must stop at the expected level, and the group closes with a stop at the rank |
| Partition.UnknownStreamFails | src/operator/partition.rs:71-95 | an element whose stop level is acceptable is routed exactly when every selected index has a switching cost and an output stream; otherwise the run fails with index out of range |
| Partition.GroupUnfold | src/operator/partition.rs:112-213 | a successful group is its first element's step and then nothing or the rest of the group |
| Partition.GroupValues | src/operator/partition.rs:126-184 | a group sends each input element it uses, in order, carrying the write-back flag |
| Partition.GroupKeepsLevels | src/operator/partition.rs:155-187 | under a plain selector a group runs to the first stop at the partition rank and keeps every element's stop |
| Partition.GroupCloses | src/operator/partition.rs:151-187 | under a selector stop a group is plain values up to the input stop the selector demands, sent with only its last element a stop at the partition rank |
| Partition.GroupRankZero | src/operator/partition.rs:131-144 | at partition rank 0 each selector token moves exactly one element |
| Partition.AdvanceUnselected | src/operator/partition.rs:91-103 | a group leaves every stream it does not select as it was |
| Partition.AdvanceFlags | src/operator/partition.rs:126-184 | a group only adds elements carrying the write-back flag |
| Partition.PartitionUnselected | src/operator/partition.rs:226-250 | a stream no remaining selector token names ends the run as it was |
| Partition.PartitionFlags | src/operator/partition.rs:226-250 | every element the run forwards carries the write-back flag |
| Reassemble.PlaceFrom | src/operator/reassemble.rs:134-135 | an entry's place in the order lies at or after the starting position |
| Reassemble.SortedFirst | src/operator/reassemble.rs:134-135 | the first `i` entries sorted by head time list `i` positions, each an entry among them |
| Reassemble.PlaceFromBounds | src/operator/reassemble.rs:134-135 | every entry before the place arrived no later, and the entry at the place arrived later |
| Reassemble.SortedFirstServesInOrder | src/operator/reassemble.rs:134-135 | the stable sort of the first `i` entries lists each once, earlier heads first, selection order on ties |
| Reassemble.InsertServesInOrder | src/operator/reassemble.rs:134-135 | placing an entry after the entries arrived no later keeps the serving order |
| Reassemble.OrderServesInOrder | src/operator/reassemble.rs:134-135 | `sorted_indices` lists every selection entry once, in ascending head time, stable on ties |
| Reassemble.SortByArrival | src/operator/reassemble.rs:134-135 | `sort_by_key` on the entries computes that order |
| Reassemble.LastServedOnly | src/operator/reassemble.rs:137-138 | only the entry served last is the last of `sorted_indices` |
| Reassemble.SendTime | src/operator/reassemble.rs:62-80 | forwarding an element never moves the clock back |
| Reassemble.GroupFrom | src/operator/reassemble.rs:141-266 | a group that succeeds drains at least one element of its stream, sends one per element drained, and never moves the clock back |
| Reassemble.PeekErrorNone | src/operator/reassemble.rs:82-109 | the peek fails exactly when some selected stream is missing or closed |
| Reassemble.Heads | src/operator/reassemble.rs:111-119 | there is one head arrival time per selected stream |
| Reassemble.Latest | src/operator/reassemble.rs:87-106 | the latest arrival bounds every arrival |
| Reassemble.LatestLeast | src/operator/reassemble.rs:87-106 | the latest arrival is the least such bound |
| Reassemble.ServeFrom | src/operator/reassemble.rs:137-267 | draining the streams in serving order keeps every position within its stream |
| Reassemble.Serve | src/operator/reassemble.rs:121-268 | serving a selection keeps every position within its stream |
| Reassemble.TokenStep | src/operator/reassemble.rs:286-298 | one selector token keeps every position within its stream |
| Reassemble.Start | src/operator/reassemble.rs:280-303 | the run starts at every stream's head |
| Reassemble.DrainGroup | src/operator/reassemble.rs:141-266 | the inner loop computes one group of the stream |
| Reassemble.GroupStep | src/operator/reassemble.rs:141-266 | one element ends the group after being sent, or is sent before the rest of the group |
| Reassemble.CountTrue | src/operator/reassemble.rs:84-97 | the count of peeked streams never exceeds their number |
| Reassemble.CountTrueAll | src/operator/reassemble.rs:87 | every stream is peeked exactly when the count reaches their number |
| Reassemble.PeekAllStreams | src/operator/reassemble.rs:82-109 | the scan fails exactly as the first missing or closed stream decides, and otherwise returns every head arrival and a clock at or after the latest |
| Reassemble.PeekRound | src/operator/reassemble.rs:88-102 | one scan peeks every stream whose head has arrived, keeping the earlier peeks and their count, or fails on a closed stream |
| Reassemble.PeekErrorAt | src/operator/reassemble.rs:93-100 | the first missing or closed stream decides the peek's failure |
| Reassemble.ProcessInputStream | src/operator/reassemble.rs:121-268 | the method peeks every selected stream, sorts the selection by head arrival and drains one group from each stream in that order |
| Reassemble.Run | src/operator/reassemble.rs:280-303 | the run serves one selector token after another until the selector stream closes |
| Reassemble.ServeUnfold | src/operator/reassemble.rs:121-137 | a failed peek or an empty selection fails the token, and otherwise the streams are served in order of head arrival, from the latest arrival on |
| Reassemble.ServeStep | src/operator/reassemble.rs:137-267 | each stream in serving order fails the token or is drained before the remaining streams |
| Reassemble.TokenUnfold | src/operator/reassemble.rs:286-298 | a token is waited for and loaded, then its selection is served with its stop as the extra rank |
| Reassemble.RunStep | src/operator/reassemble.rs:281-302 | one selector token fails the run, or the run goes on from its result |
| Reassemble.SendTimeBounds | src/operator/reassemble.rs:62-80 | an element is forwarded no earlier than its arrival nor its load and write-back, and exactly then when nothing else waits |
| Reassemble.GroupDrains | src/operator/reassemble.rs:141-266 | a successful group drains its elements in order, each rewritten and stamped with its send time |
| Reassemble.GroupFails | src/operator/reassemble.rs:262-264 | draining a group fails exactly when the stream closes before an element ends it |
| Reassemble.GroupLevels | src/operator/reassemble.rs:170-259 | at rank 0 a group is one element, sent plain unless served last, when its level is raised by the extra rank plus one; above rank 0 inner stops are kept and only the last stream's closing stop is raised |
| Reassemble.ServeFlags | src/operator/reassemble.rs:173-197 | serving the streams only appends elements carrying the write-back flag |
| Reassemble.ServeAllFlags | src/operator/reassemble.rs:121-268 | serving a selection only appends elements carrying the write-back flag |
| Reassemble.TokenFlags | src/operator/reassemble.rs:286-298 | one token only appends elements carrying the write-back flag |
| Reassemble.RunFlags | src/operator/reassemble.rs:280-303 | every element the run forwards carries the write-back flag |
| Reassemble.Levels | src/operator/reassemble.rs:170-226 | the stop levels of the forwarded elements, one per element |
| Reassemble.RankOneGroup | src/operator/reassemble.rs:329-455 | a group of two values and a stop 1 at rank 1 is drained whole, its stop raised by the extra rank plus one when served last |
| Reassemble.RankOneServe | src/operator/reassemble.rs:329-455 | serving two such groups in selection order keeps the first one's stop and raises the last one's |
| Reassemble.StartOfFour | src/operator/reassemble.rs:329-455 | four streams start at their heads with nothing forwarded |
| Reassemble.FirstTwoSelected | src/operator/reassemble.rs:382-455 | the test's selector picks the first two of four streams |
| Reassemble.RankOneHeads | src/operator/reassemble.rs:329-455 | the test's first two streams are ready, both heads arrived at time 0 |
| Reassemble.TiedOrder | src/operator/reassemble.rs:134-135 | two heads arrived together are served in selection order |
| Reassemble.TwoTiedServe | src/operator/reassemble.rs:121-137 | a selection of two streams whose heads arrived together is served in selection order |
| Reassemble.TiedToken | src/operator/reassemble.rs:286-298 | a token selecting two streams whose heads arrived together serves them in selection order |
| Reassemble.RankOneToken | src/operator/reassemble.rs:329-455 | a token of the rank-1 test drains both selected groups, the last stop raised by the token's level plus two, and leaves the other streams alone |
| Channels.Capacity | src/build_sim/channel.rs:113-126 | a request builds its channel with the given capacity, or with the default of 1024 when none is given |
| Channels.Builder.Bounded | src/build_sim/channel.rs:113-126 | each call of `bounded` builds one new channel of the requested capacity and records it |
| Channels.ChannelMap.constructor | src/build_sim/channel.rs:57-67 | a new map has no table yet |
| Channels.ChannelMap.Instantiate | src/build_sim/channel.rs:273-275 | instantiating creates an empty table |
| Channels.ChannelMap.GetReceiver | src/build_sim/channel.rs:95-184 | asking for a receiver takes the stored receiver of the id, or builds a channel and stores its sender; a table created on first use; a failure exactly where the request fails |
| Channels.ChannelMap.GetSender | src/build_sim/channel.rs:186-271 | asking for a sender takes the stored sender, or builds a channel and stores its receiver; the same pairing for the other end |
| Channels.ChannelMap.Connect | src/build_sim/channel.rs:106-183 | the body shared by both ends leaves the table and the built channels as the request says |
| Channels.SinglePairs | src/build_sim/channel.rs:153-175 | two complementary requests for a single channel pair up: the second gets the channel built for the first, and the table is back as it was |
| Channels.SingleSameSideFails | src/build_sim/channel.rs:153-176 | asking twice for the same end of a single channel fails |
| Channels.BroadcastPairs | src/build_sim/channel.rs:107-150 | stream `s` of a broadcast node pairs like a single channel, and the table keeps every other entry and stream |
| Channels.BroadcastOthersUntouched | src/build_sim/channel.rs:108-128 | a request on one stream index leaves the other stream indices of the broadcast entry as they were |
| Channels.MixedUseFails | src/build_sim/channel.rs:151-176 | an id used by a single channel fails a broadcast request, and an id used by a broadcast node fails a single one |
| Channels.BuildsOnlyWhenUnpaired | src/build_sim/channel.rs:106-183 | a request builds a channel exactly when it finds no end to take, and then hands out that channel |
| Channels.LazyTable | src/build_sim/channel.rs:179-182 | a request on a map never instantiated acts on an empty table: it builds one default-capacity channel and stores the opposite end |
| ProtoDriver.ChanDepth | src/proto_driver/mod.rs:120-130 | a depth configured for the id always wins; without one the base depth (possibly none) is used |
| ProtoDriver.ChanDepthIdempotent | src/proto_driver/mod.rs:607-615 | looking the depth up again, with the first lookup as the base, changes nothing |
| ProtoDriver.ElemBytes | src/proto_driver/mod.rs:143 | a value is 2 bytes exactly when bfloat16 is mocked, and 4 otherwise |
| MoE.LocalExperts | scripts/deepseekv3/moe_v0.py:71-81 | the layer is built exactly when the routed experts divide evenly among the processes, and each process then owns an equal share within the routed experts |
| MoE.ShareBound | scripts/deepseekv3/moe_v0.py:80-81 | every rank's share ends within the routed experts |
| MoE.SingleProcessOwnsAll | scripts/deepseekv3/moe_v0.py:74-81 | without a process group the only process owns every routed expert |
| MoE.OneOwner | scripts/deepseekv3/moe_v0.py:75-81 | every routed expert is owned by exactly one rank |
| MoE.ExpertSlots | scripts/deepseekv3/moe_v0.py:82-83 | the expert list holds an expert exactly at the owned positions |
| MoE.SlotSum | scripts/deepseekv3/moe_v0.py:94-95 | an expert's weighted output for one token keeps the model dimension |
| MoE.ExpertSum | scripts/deepseekv3/moe_v0.py:90-95 | the summed output of a range of experts for one token keeps the model dimension |
| MoE.Partial | scripts/deepseekv3/moe_v0.py:88-95 | a process's `y` before the all-reduce has one row of the model dimension per token |
| MoE.CountZero | scripts/deepseekv3/moe_v0.py:89-92 | an expert's `bincount` entry is zero exactly when no token selected it |
| MoE.SlotSumAbsent | scripts/deepseekv3/moe_v0.py:94-95 | a token that does not select an expert gets nothing from it |
| MoE.SlotSumOne | scripts/deepseekv3/moe_v0.py:94-95 | a token that selects an expert in exactly one slot gets its output weighted by that slot's weight |
| MoE.SlotOf | scripts/deepseekv3/moe_v0.py:94 | `torch.where` finds the slot where a token selected the expert, the first such slot |
| MoE.LocalForward | scripts/deepseekv3/moe_v0.py:86-95 | the loop over the owned experts computes, for every token, the sum of each owned expert's output weighted by the token's routing weight for it |
| MoE.ExpertStep | scripts/deepseekv3/moe_v0.py:90-95 | one turn of the loop, skipped or applied, extends `y` to one more expert |
| MoE.AddExpert | scripts/deepseekv3/moe_v0.py:93-95 | `y[idx] += expert(x[idx]) * weights[idx, top]` adds one expert's weighted output to every token that selected it |
| MoE.SkipExpert | scripts/deepseekv3/moe_v0.py:91-92 | skipping an expert nobody selected loses nothing |
| MoE.FrontStep | scripts/deepseekv3/moe_v0.py:95 | updating one more token's row moves the front of updated tokens by one |
| MoE.TokenHit | scripts/deepseekv3/moe_v0.py:94-95 | a token that selected the expert in slot `s` gets its output weighted by `weights[t, s]` added |
| MoE.TokenMiss | scripts/deepseekv3/moe_v0.py:94-95 | a token that did not select the expert keeps its row |
| MoE.AllReduce | scripts/deepseekv3/moe_v0.py:97-98 | the all-reduce keeps the shape of the partial outputs |
| MoE.Combine | scripts/deepseekv3/moe_v0.py:97-99 | the layer's output has one row per token |
| MoE.SharedOut | scripts/deepseekv3/moe_v0.py:96 | the shared experts are applied token by token |
| MoE.ExpertSumSplit | scripts/deepseekv3/moe_v0.py:90-95 | splitting the expert range in two splits each token's sum |
| MoE.WorldParts | scripts/deepseekv3/moe_v0.py:90-95 | there is one partial output per process, each one row per token |
| MoE.ReduceShares | scripts/deepseekv3/moe_v0.py:90-98 | summing the partial outputs of the first `q` shares gives the output of the experts those shares own |
| MoE.PartialSplit | scripts/deepseekv3/moe_v0.py:90-95 | the output of an expert range is the sum of the outputs of its two halves |
| MoE.WorldMatchesSingle | scripts/deepseekv3/moe_v0.py:71-99 | running the layer on `p` processes, each with its share, gives every process the output of the single-process run |
| MoE.ProcessComputesShare | scripts/deepseekv3/moe_v0.py:74-81 | each process of a `p`-process run owns exactly its rank's share |
| RouteUtils.Normalize | scripts/deepseekv3/utils.py:33 | normalizing keeps one probability per expert |
| RouteUtils.NormalizeSumsToOne | scripts/deepseekv3/utils.py:33 | the normalized distribution sums to 1 |
| RouteUtils.Positive | scripts/deepseekv3/utils.py:40 | the number of experts with positive probability is at most the number of experts |
| RouteUtils.IndicesError | scripts/deepseekv3/utils.py:29-40 | sampling is possible only when at least one expert is asked for and the distribution has a non-zero sum, no negative entry and enough experts of positive probability |
| RouteUtils.CreateIndices | scripts/deepseekv3/utils.py:11-43 | asking for more experts than exist fails; asking for none fails once a token is drawn; otherwise each of the `num_tokens` rows is a draw from the normalized distribution |
| RouteUtils.IndicesShape | scripts/deepseekv3/utils.py:36-43 | every row holds `num_selected` distinct expert ids, each below the number of experts |
| RouteUtils.RowScale | scripts/deepseekv3/utils.py:56 | dividing a row by its sum keeps its length |
| RouteUtils.RouteScale | scripts/deepseekv3/utils.py:45-58 | the route scales exist exactly when no non-empty row sums to zero, and keep the shape of the random values |
| RouteUtils.RouteScaleRows | scripts/deepseekv3/utils.py:52-58 | every non-empty row of route scales sums to 1, and draws in `[0, 1)` give scales in `[0, 1]` |

## Left out

- Stop levels are `nat`. The source uses `u32`, and overflow of a level is not modelled.
- Floating-point values in `MoE`, `RouteUtils` and `Vectors` are `real`. The multi-process and single-process MoE outputs therefore agree exactly, not within a tolerance.
- A NaN produced by dividing by a zero sum is modelled as `Err(ZeroRow)`, or as `BadDistribution` when sampling would raise. Rows and token counts that produce no NaN succeed.
- The simulation clock is modelled only where an operator's output depends on it: the read clock of `Parallelize` (`Parallelize.Clock`), the send times of `Reassemble` (`Reassemble.SendTime`) and the arrival times `EagerMerge` compares. Elsewhere the clock is not modelled: a buffer's creation time is the position of its input in the stream (src/operator/bufferize.rs:64-85), and cycle counts are roofline cost formulas, not a timed schedule.
- Accum's per-tile load cost is the abstract `op.load`; only the cost formula around it is modelled.
- Tiles.NewBlank: requires a non-empty shape, since `new_blank` indexes `shape[0]` (src/primitives/tile.rs:51) and panics on an empty one.
- Calc.DivCeil: requires a non-zero divisor. `div_ceil` panics on `b == 0` (src/utils/calculation.rs:4); every call in the core divides by the constant PMU bandwidth, except the map and accumulate functions, which divide by `flop_per_cycle` and return `Err(DivisionByZero)` themselves when it is 0.
- SelectNpy.GetStopLevel: requires every dimension positive. With a zero dimension a period is 0 and `%` panics (src/utils/select_npy.rs:83); the reader never reaches that case, since a shape with a zero outer dimension holds no vectors to label.
- RandomOffChipStore.Store.constructor: requires a 2-D tiled shape and, when a tensor is given, array dimensions equal to the untiled shape. The source asserts both (src/memory/random_offchip_store.rs:85 and 94-98) and panics otherwise; the model has no failing construction path.
- Streamify.RepeatShape: the output shape `repeat_factor * buffer.shape()` documented at src/operator/streamify.rs:12 is proved for one repeat factor only. With several factors the loop at src/operator/streamify.rs:86-133 reads the buffer once per unit of each factor, so the copies add up rather than multiply (`Streamify.TwoThreeAdds`) and the output is not a tensor of shape `repeat_factor + shape`. The model follows the loop; which of the two is intended is not decided here.
- Tile entries are unbounded `int`. The source's tiles hold `f32` (two bytes each when bf16 is mocked) or `u64`, so rounding is not modelled: `MapAccumFns.TiledProduct`, `AccumFns.FoldAdd`, `AccumFns.AccumulateAdd` and `MapFns.RowWiseSumOfAdd` hold exactly over the integers, not bit for bit in `f32`.
- Addresses are unbounded `nat`. The source computes them in `u64` (`base + idx * tile_bytes + r * row_offset + k * addr_offset` in the off-chip loaders and stores, `idx * offset_per_idx + len` in `MapFns.CacheWriteAddrGen`), and overflow of an address is not modelled.
- Reassemble.PeekAllStreams: the non-blocking `peek` (src/operator/reassemble.rs:93) is modelled by arrival time: a head is visible once its arrival time is at most the operator's clock. `EagerMerge` leaves the same `peek` (src/operator/eager_merge.rs:60) to a `visible` parameter instead, since its choices are stated for any outcome of the peeks. Neither models the scheduler that decides what has actually arrived.
- Parallelize.Run: requires at least one output. With zero outputs the source loops forever without sending, and a loop that never ends has no result to model.
- MoE.LocalForward: requires that no token lists the same expert twice. Indexed `y[idx] +=` (scripts/deepseekv3/moe_v0.py:95) applies a repeated index only once, whereas the model sums once per slot.
- The MLP, Expert and Linear layers (scripts/deepseekv3/moe_v0.py:28-56) are an abstract `expert` function that keeps the model dimension. The shared experts are an abstract `shared` function.
- `torch.distributed` world size and rank are a `Group` parameter, and `all_reduce` is a sum over the partial outputs of all ranks. `torch.multinomial` and `torch.rand` are parameters (`draw`, `rand`).
- Partition and Reassemble are modelled for multi-hot selectors only. A one-hot selector is the multi-hot selector with one index set.
- EagerMerge.Run: its ensures say each choice names an input with an element left and forwards that input's group. That the choice is the input whose head arrived earliest is proved of the selection function (`EagerMerge.FirstPassPicksEarliest`), not of the run's choices.
- RoundTrip.RoundTripCorrected: excludes buffers of rank two or more that hold a single entry (shape `[1, 1]`, etc.).
- The corrected `from_stream` is not used by `Bufferize`, which keeps the reading as written, so that Bufferize behaves as the source does.
- An operator that panics after sending part of its output is modelled as `Err` for the whole run; the partial output is not recorded.
- Off-chip memory timing (HBM request scheduling, bandwidth and latency), write acknowledgements, and logging are not modelled.
- Reading and writing `.npy` and JSON files is not modelled. The data such a file would hold is a parameter.
- The wiring that builds an operator graph from the protobuf program (`build_from_proto`, `parse_proto`), src/utils/configs.rs and the program builder are not part of this model.
- Of the channels, the model keeps the pairing of channel ends while the graph is built (`ChannelMap`) and each channel's capacity. The data on a channel is a sequence of elements. Blocking on a full or empty channel, waiting, and the concurrency of the scheduler are not modelled.

## Findings

| source | as written | input that shows it | evidently intended | confidence | as-written member | corrected member |
|---|---|---|---|---|---|---|
| src/primitives/buffer.rs:112-120 | `from_stream` assumes that every dimension is opened by its own stop level. A stream that skips a level because an outer dimension has size one makes the rank-closing stop index `shape_info[rank - 1]` out of bounds | the buffer of shape `[1, 3]`, streamed as `Val x, Val y, ValStop(z, 2)` and read back at rank 2 | skipped dimensions are read as dimensions of size one, so every buffer with positive dimensions round-trips | not executed | RoundTrip.UnitDimensionLost | RoundTrip.RoundTripCorrected |
