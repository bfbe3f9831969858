# Precipitation overlay: caches and aggregation, modelled in Dafny

The web app shows a precipitation forecast (many stochastic realizations
over a 200 x 135 grid, hour by hour) as a coloured map overlay. Two
providers do the work behind the map:

- `DataProvider` (website/src/DataContext.tsx) fetches one NetCDF grid per
  `{realization, time}` and caches it. A request for a key that is already
  being fetched waits in a poll loop (`dataQueue`) instead of fetching
  again. `getAllRealizations` fetches every realization of the metadata
  range. `getMetadata` memoises the metadata file.
- `Renderer` (website/src/RenderContext.tsx) collapses the realizations of
  one hour into one grid (mean, "max", "min", realization 1, or nothing).
  It paints that grid into an RGBA `ImageData` with the rows flipped. It
  caches the encoded image per `{visualization, time}`, with the same
  poll-loop coalescing over `renderQueue`.

This project models those pieces as pure functions over immutable values and
proves what they guarantee, including the quirks they have.

## Modules

| file | module | contents |
|---|---|---|
| wrappers.dfy | `Wrappers` | `Option` (an `undefined` hole, an absent key) and `Result` (a thrown error) |
| numbers.dfy | `Numbers` | `Val = NaN \| Num(real)`; `>`/`<` that reject NaN; `Number.MIN_VALUE`, `Number.MAX_VALUE`; `Uint8ClampedArray` clamping and `Math.round` |
| grids.dfy | `Grids` | `Grid<T>(width, height, cells)`; realization grids (`Field`) and aggregated frames (`Frame`, cells `Option<Val>`) |
| aggregation.dfy | `Aggregation` | `renderMean`, `renderMax`, `renderMin`: reference functions and the loops |
| raster.dfy | `Raster` | the pixel loop of `render`: the flip index map, RGBA offsets, the resulting bytes |
| coalescing.dfy | `Coalescing` | the poll-loop cache protocol shared by both providers, as a state machine |
| data_context.dfy | `DataContext` | `DataProvider.render`, `getAllRealizations`, `getMetadata` |
| render_context.dfy | `RenderContext` | the `VisualizationType` dispatch, drawing, and `Renderer.render`'s cache |

## How the code is modelled

- **Numbers.** Each value is a real or NaN, with no floating-point rounding.
  Reading a JavaScript array past its end gives `undefined`, and `isNaN`,
  `>` and `<` treat `undefined` exactly like NaN. So `Grids.At` returns NaN
  for an out-of-range index. This is what happens when a realization is
  smaller than realization 0: nothing checks that the sizes agree.
- **Max and min.** In `renderMax` the running maximum is a `const` seeded
  with `Number.MIN_VALUE` (2^-1074) and never updated. So a cell ends up
  holding the value of the *last* realization whose value exceeds 2^-1074,
  not the largest value. If no realization qualifies, the cell stays an
  array hole (`None`). `renderMin` does the same with `Number.MAX_VALUE`.
  The model keeps this behaviour, and lemmas show concrete cases where it
  differs from the true extremum.
- **Mean.** NaN values are skipped, but the sum is still divided by the
  number of realizations, NaN ones included. A cell that is NaN in every
  realization comes out as 0.
- **Caches.** JavaScript runs one task at a time and switches only at an
  `await`. So each call of either `render` is a sequence of atomic steps in
  `Coalescing`:
  - `Poll`: one test of the wait loop. Once the key is not queued, the cache
    test and the `queue.add` run in the same step.
  - `Complete`: the work finished, so the key is dequeued and the result, if
    any, is stored.
  - `Throw`: the work threw, and nothing is cleaned up.

  Calls interleave arbitrarily. For the data cache, a loaded grid completes
  and any failure throws. For the render cache, any failure before `toBlob`
  throws, and the `toBlob` callback completes with the entry, or with
  nothing when the blob is `null`.
- **Keys.** Both caches key on `JSON.stringify` of a two-field object, which
  gives distinct strings for distinct pairs. So the key is modelled as the
  pair itself.

## Behaviour the code has that one might not expect

- Realizations of different sizes are not rejected: there is no dimension
  check, and reads past the end of a smaller realization count as NaN.
- A failed fetch or render is never removed from its queue. Later callers
  for that key wait forever instead of retrying.
- `renderMax` and `renderMin` keep the last qualifying value, not an
  extremum.

## Model

| member | source | states |
|---|---|---|
| Numbers.SentinelBounds | website/src/RenderContext.tsx:47-61 | the seeds satisfy 0 < `Number.MIN_VALUE` < 1 < `Number.MAX_VALUE`; no value <= 0 is `> Number.MIN_VALUE`, and 1 is `< Number.MAX_VALUE` |
| Numbers.Clamp | website/src/RenderContext.tsx:127-130 | a store into the `Uint8ClampedArray` keeps 0..255 as is, sends negatives to 0 and larger values to 255; the stored byte is the byte nearest to the value |
| Numbers.Round | website/src/RenderContext.tsx:130 | `Math.round` gives the integer n with x - 0.5 < n <= x + 0.5: the nearest integer, halves rounded up |
| Grids.At | website/src/RenderContext.tsx:33-34 | an in-range read is the stored cell; a number is only ever read from inside the array, so a read past the end is NaN (`undefined`) |
| Grids.CellAt | website/src/RenderContext.tsx:124 | `precipitations[data]` on a frame: an in-range read is the stored cell, which may be a hole; a value is only ever read from inside the array, so past the end reads `undefined` |
| Grids.LiftIsInjective | website/src/RenderContext.tsx:70-73 | turning a realization grid into a frame loses nothing: equal frames come from equal grids |
| Aggregation.SkipNaNSum | website/src/RenderContext.tsx:31-36 | the `+=` accumulator of one cell, which skips `isNaN` values, equals the sum of the column's numbers with NaN filtered out |
| Aggregation.MeanOf | website/src/RenderContext.tsx:27-41 | no frame iff there is no realization; width and height come from realization 0 only; `width*height` cells; each cell is (sum of the non-NaN values) / (number of realizations) |
| Aggregation.RenderMean | website/src/RenderContext.tsx:27-41 | the zero-filled accumulator loops followed by the division loop compute exactly `MeanOf` |
| Aggregation.SumCells | website/src/RenderContext.tsx:30-36 | after the k/j loop nest every accumulator cell holds its column's NaN-skipping sum |
| Aggregation.AddRealization | website/src/RenderContext.tsx:32-35 | one inner pass adds realization k to every cell where it is not NaN, so the sums extend from k to k+1 realizations |
| Aggregation.DivideCells | website/src/RenderContext.tsx:37-39 | the last loop divides every cell by the realization count and keeps the length |
| Aggregation.AllNaNColumnSumsToZero | website/src/RenderContext.tsx:30-36 | a column with only NaN contributes no number and sums to 0 |
| Aggregation.MeanOfAllNaNCellIsZero | website/src/RenderContext.tsx:30-38 | a cell that is NaN (or missing) in every realization has mean exactly 0 |
| Aggregation.MeanCountsNaNRealizations | website/src/RenderContext.tsx:31-39 | a cell that is 2, NaN, 4 in three realizations averages to 2 (= 6/3), not 3: the divisor counts NaN realizations |
| Aggregation.Beats | website/src/RenderContext.tsx:47-63 | the `> max` / `< min` test against the never-updated seed: only a number passes; a value beating `Number.MIN_VALUE` is positive; every number <= 1 beats `Number.MAX_VALUE` |
| Aggregation.LastBeating | website/src/RenderContext.tsx:46-52 | the cell is unset iff no realization beats the seed; otherwise it holds a value that beats the seed, and that value is the one at the last such realization |
| Aggregation.ExtremumOf | website/src/RenderContext.tsx:42-69 | `renderMax`/`renderMin`: no frame iff no realization; dimensions from realization 0; cell j unset iff no realization's value at j beats the seed, else it holds the last realization's value that does |
| Aggregation.RenderExtremum | website/src/RenderContext.tsx:42-69 | the j/k loop nest over an array of holes computes exactly `ExtremumOf` |
| Aggregation.ScanCell | website/src/RenderContext.tsx:47-52 | the inner loop leaves the cell holding the last seed-beating value, or a hole |
| Aggregation.ExtremumNeverSelectsNaN | website/src/RenderContext.tsx:49-50 | NaN is never written into a max or min frame |
| Aggregation.MaxKeepsLastNotLargest | website/src/RenderContext.tsx:47-51 | realizations 5 then 1 give a max cell of 1, not 5 |
| Aggregation.MinKeepsLastNotSmallest | website/src/RenderContext.tsx:61-65 | realizations 1 then 5 give a min cell of 5, not 1 |
| Aggregation.MaxOfZeroFieldIsUnset | website/src/RenderContext.tsx:45-52 | a single realization that is 0 everywhere leaves every max cell unset |
| Raster.PixelIndex | website/src/RenderContext.tsx:121 | `pixel = j * width + i` lies in row j: between `j * width` and `j * width + width` when i < width |
| Raster.SourceIndex | website/src/RenderContext.tsx:122 | `data = (height - j - 1) * width + i` is the pixel number of column i in the mirrored row; for i < width it lies in the grid, in row `height - j - 1` (`data / width`) and column i (`data % width`) |
| Raster.ByteIndex | website/src/RenderContext.tsx:127-130 | the offset `4 * pixel + c` with c < 4 gives back the pixel as offset / 4 and the channel as offset % 4 |
| Raster.IndicesInRange | website/src/RenderContext.tsx:119-124 | for i < width and j < height both `pixel` and `data` lie in [0, width*height) |
| Raster.WritesInRange | website/src/RenderContext.tsx:127-130 | every write index `4*pixel + c` with c < 4 is below `4*width*height` |
| Raster.WritesDistinct | website/src/RenderContext.tsx:119-130 | distinct (i, j, c) write distinct bytes |
| Raster.WritesCover | website/src/RenderContext.tsx:119-131 | every byte of the `4*width*height` buffer is written by some (i, j, c) |
| Raster.FlipMatchesLoops | website/src/RenderContext.tsx:121-122 | the loop pairing `pixel -> data` is the row flip `Flip` on pixel numbers |
| Raster.FlipInvolution | website/src/RenderContext.tsx:121-122 | the flip stays in [0, width*height) and applying it twice is the identity |
| Raster.FlipBijective | website/src/RenderContext.tsx:119-122 | the flip is injective on [0, width*height) and every pixel is the flip of some pixel (its own flip) |
| Raster.Relative | website/src/RenderContext.tsx:111-125 | a position results iff the cell holds a number (a hole or NaN gives NaN); the value is recovered from the position as `min + relative * (max - min)` |
| Raster.RelativeEndpoints | website/src/RenderContext.tsx:111-125 | 0 maps to 0 and 132 maps to 1 |
| Raster.RelativeStrictlyIncreasing | website/src/RenderContext.tsx:111-125 | a larger value always lies strictly further along the scale |
| Raster.RelativeUnclamped | website/src/RenderContext.tsx:111-125 | nothing clamps: above 132 gives more than 1, below 0 gives less than 0, and 264 gives 2 |
| Raster.Channel | website/src/RenderContext.tsx:127-130 | red, green and blue in 0..255 are stored as they are and clamped otherwise; alpha in [0, 1] is stored as the byte nearest to `alpha * 255`, alpha >= 1 as 255, alpha <= 0 as 0 |
| Raster.Image | website/src/RenderContext.tsx:119-132 | `4*width*height` bytes; channel c of pixel (i, j) is the colour of frame cell `(height - j - 1)*width + i` |
| Coalescing.Init | website/src/DataContext.tsx:52-53 | the empty `new Map()` and `new Set()` with no call running, a state that satisfies the invariant |
| Coalescing.Next | website/src/DataContext.tsx:75-104 | one atomic step of a `render` call: only the stepping call moves, no call changes key, only that call's key can change in the queue or the cache, and no entry is removed |
| Coalescing.Run | website/src/DataContext.tsx:75-104 | any interleaving of steps keeps every existing call and its key, adds at most one call per event, and never removes a stored key |
| Coalescing.NextKeepsInv | website/src/DataContext.tsx:75-105 | every step keeps the invariant: stored and queued keys are disjoint; a working call's key is queued and unstored; at most one working call per key; every answer equals the stored entry. No stored entry changes |
| Coalescing.RunKeepsInv | website/src/DataContext.tsx:75-105 | the same over any interleaving of steps |
| Coalescing.ReachableSingleFlight | website/src/DataContext.tsx:77-83 | in every reachable state at most one call per key is fetching |
| Coalescing.EntriesNeverOverwritten | website/src/DataContext.tsx:101-103 | once an entry is stored it stays, with the same value, through any later steps |
| Coalescing.CallersAgree | website/src/DataContext.tsx:80-104 | a caller served from the cache and a caller that did the work for the same key obtain the same value |
| Coalescing.QueuedKeyWaits | website/src/DataContext.tsx:77-79 | a caller whose key is queued changes nothing and keeps waiting |
| Coalescing.StoredKeyIsServed | website/src/DataContext.tsx:80-82 | a caller whose key is stored gets that entry and the queue is untouched |
| Coalescing.MissQueuesKey | website/src/DataContext.tsx:83 | otherwise the key is added to the queue before any work, and the caller becomes its worker |
| Coalescing.CompleteDequeues | website/src/RenderContext.tsx:136-144 | completion always dequeues the key and stores only when there is a result; the key had no entry before, so nothing is overwritten |
| Coalescing.ThrowStrands | website/src/DataContext.tsx:93-95 | a throw after queueing leaves the key queued, unstored and with no worker |
| Coalescing.NextKeepsStranded | website/src/DataContext.tsx:77-79 | no single step rescues such a key |
| Coalescing.StrandedForever | website/src/DataContext.tsx:77-95 | such a key stays queued and unstored through any later steps, so its callers wait forever |
| DataContext.Load | website/src/DataContext.tsx:89-101 | a grid results iff the file has `x`, `y` and the data variable; its width is the `x` size, its height the `y` size; a missing `x` or `y` is "Incomplete dataset" |
| DataContext.Respond | website/src/DataContext.tsx:84-104 | a loaded grid is stored under the key and the key leaves `dataQueue`; any failure changes neither structure and abandons the call |
| DataContext.LoadedGridIsKept | website/src/DataContext.tsx:101-104 | a loaded grid is stored and its key dequeued, and every later state still maps the key to that grid |
| DataContext.IncompleteDatasetStrandsKey | website/src/DataContext.tsx:91-95 | after "Incomplete dataset" the key stays queued and is never stored, whatever happens later |
| DataContext.RealizationKeys | website/src/DataContext.tsx:58-60 | a `RangeError` iff `real_max < real_min`; otherwise `real_max - real_min` keys with realizations exactly `real_min .. real_max - 1`, strictly increasing, all at `time` |
| DataContext.LoadAll | website/src/DataContext.tsx:57-62 | succeeds iff every key loads; the results are the loads in key order; a failure is the error of some key |
| DataContext.GetAllRealizations | website/src/DataContext.tsx:55-63 | metadata failure and negative range fail; with good metadata and all loads succeeding the result is the grid of realization `real_min + i` at position i |
| DataContext.GetMetadata | website/src/DataContext.tsx:64-74 | a memoised object is returned and kept; otherwise the fetch's outcome is returned; whatever is returned successfully is memoised, and a failure leaves the memo as it was |
| DataContext.MetadataMemoised | website/src/DataContext.tsx:64-74 | once metadata is memoised every later call returns it, whatever a fetch would return |
| RenderContext.Code | website/src/RenderContext.tsx:6-12 | the enum numbering: every case is numbered in 0..4 |
| RenderContext.CodeRoundTrip | website/src/RenderContext.tsx:6-12 | the enum numbering 0..4 and the cases correspond one to one |
| RenderContext.FromCode | website/src/RenderContext.tsx:94-107 | a case is selected iff the number is 0..4; anything else reaches `default` |
| RenderContext.Dispatch | website/src/RenderContext.tsx:93-108 | an unknown number is an error; NONE is a 0x0 empty frame; REAL1 is realization 1 as loaded; a MEAN/MAX/MIN frame takes its size from realization `real_min` |
| RenderContext.NoOverlayFetchesNothing | website/src/RenderContext.tsx:103-104 | the NONE frame is 0x0 and empty and does not depend on the metadata or on any data request |
| RenderContext.Real1IsPassthrough | website/src/RenderContext.tsx:70-73 | REAL1 ignores the metadata and returns exactly the grid loaded for realization 1 |
| RenderContext.AggregationsUseEveryRealization | website/src/RenderContext.tsx:94-100 | MEAN/MAX/MIN aggregate the grids of all realizations `real_min .. real_max - 1` in order |
| RenderContext.Draw | website/src/RenderContext.tsx:93-132 | drawing fails iff the dispatch fails; otherwise it has the frame's size and its bytes are the flipped, coloured frame |
| RenderContext.Drawn | website/src/RenderContext.tsx:93-145 | the call draws its own key's visualization and time: a size is returned iff that dispatch succeeds, and then it is the frame's width and height with the key still queued; a failure changes neither structure and abandons the call |
| RenderContext.BlobReady | website/src/RenderContext.tsx:136-144 | the callback always removes the key from `renderQueue`; iff the blob is not `null` it stores the entry with the width and height of the key's own frame, and it touches no other key |
| RenderContext.CachedRenderReturnsStoredSize | website/src/RenderContext.tsx:80-90 | a call whose key is in `renderCache` returns the cached width and height and does not queue the key |
| RenderContext.FailedDrawStrandsKey | website/src/RenderContext.tsx:91-108 | a failure after `renderQueue.add` leaves the key queued and uncached forever |
| RenderContext.UnknownVisualizationFails | website/src/RenderContext.tsx:105-106 | a visualization number outside 0..4 makes the drawing fail |
| RenderContext.UnknownVisualizationStrandsKey | website/src/RenderContext.tsx:91-106 | a call whose key has a visualization outside 0..4 returns nothing, and its key stays queued and uncached through any later steps |
| RenderContext.BlobDecidesCaching | website/src/RenderContext.tsx:136-144 | the `toBlob` callback always dequeues; a `null` blob caches nothing; a real blob is cached with the size of the key's own frame, and the key had no entry before |
| RenderContext.NoOverlayCachesEmptyEntry | website/src/RenderContext.tsx:103-104 | the entry cached for a NONE key is always a 0 x 0 image |

## Left out

- Raster.Image: takes the colour scale as a parameter from values to colours, because `chroma.scale` is a library whose code is not part of this model. Only the `rgb()` clamping and `Math.round(alpha * 255)` into the `Uint8ClampedArray` are modelled.
- Canvas and image APIs: `getContext`, `putImageData`, `drawImage`, `Image`, `URL.createObjectURL` and the encoding in `toBlob` are browser services. The blob `toBlob` passes to its callback is an input.
- RenderContext.Draw: treats `new ImageData(width, height)` as always succeeding. For NONE the size is 0 x 0, which the HTML standard makes throw; in a browser every NONE drawing therefore fails and strands its key, which the model does not state.
- Network and file decoding: `fetch`, `arrayBuffer`, `NetCDFReader` and `res.json()` are inputs. A decoded file is modelled as its `x`/`y` sizes and its data variable, each possibly absent. The data cache's answers to the aggregations are a function argument `load`.
- Poll timing: `sleep(100)` is not modelled. A waiting call may poll at any moment, and no liveness or latency is claimed.
- DataContext.LoadAll: states only that a failure carries the error of some failing key. The body picks the first in key order, but which `Promise.all` rejection settles first depends on timing and is not modelled.
- DataContext.GetMetadata: models calls that do not overlap. A call that starts while another is still fetching fetches too, and the later store overwrites `metadata`; this is not modelled.
- Floating point: values are reals. Rounding, infinities, `-0` and the `Array` length limit of 2^32 - 1 are not modelled.
- Time labels: `intTimeToStrTime` (date arithmetic in a library) and the React providers, the map, the side panel and `useRender` are UI code outside the core.
