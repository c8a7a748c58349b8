# marker-cluster, modelled in Dafny

A model of the clustering engine of the `marker-cluster` library and of the
`MarkerCluster` class that queries its output.

The engine builds one level per zoom, from `maxZoom + 1` down to `minZoom`.
Each level is a multimap from a `y` coordinate to the `(x, point)` pairs on
that line, plus the list of its keys. To build a level, the engine sweeps the
level above it in key order:

- A queue of open accumulators keeps each accumulator's `y` window and `x` window.
- A cursor moves past the accumulators whose `y` window has ended.
- Each pair joins the first accumulator at or after the cursor whose `x` window holds it. If none does, the pair opens a new accumulator.
- When some pair joined an accumulator, the level is rebuilt:
  - an accumulator with several members becomes one cluster at the plain mean of its members' coordinates;
  - a one-member accumulator puts its member back;
  - the keys are sorted.
- Otherwise the level above is reused.

On the read side:

- `getPoints` chooses the level `clamp(minZoom, zoom, maxZoom + 1)`.
- It projects and optionally expands the viewport, then splits it at the antimeridian.
- Each window is scanned with two binary searches over the `y`-sorted buffer, followed by a linear `x` filter.
- `getZoom`, `getChildren` and `_getChildrenIds` read the flat cluster buffers.
- `_setStore` fills the zoom → buffers store.

Files, one module each:

| file | module | models |
|---|---|---|
| `projection.dfy` | `Projection` | `clamp`, `lngToX`, `xToLng`, `boundedLngToX`, `pair`, `pixelsToDistance` |
| `levels.dfy` | `Levels` | points, levels, leaf counts, the ascending key sort |
| `sweep.dfy` | `Sweep` | `clusteringQueue`, `mutateQueue`, `addDot`, `addDots`, `getStore` |
| `search.dfy` | `Search` | `_mutatePoints`: both binary searches and the `x` filter |
| `query.dfy` | `Query` | the viewport geometry of `getPoints` |
| `marker_cluster.dfy` | `MarkerClusters` | the `MarkerCluster` class |

The model follows the source's form:

- The queue and its cursor form a class (`Sweeper`) whose methods update them in place.
- The multimap and key list under construction form a second class (`LevelBuilder`).
- `MarkerCluster` is a class whose `SetStore` replaces its buffers.
- Each loop of the source is a `while` loop, proved against a specification function.
- The properties are stated about those functions.

Coordinates are exact reals. JavaScript semantics are modelled as follows:

- A read past the end of an array is `undefined`. It is modelled as `None`, so every comparison with it is false.
- A destructuring read of `undefined` is a `TypeError` outcome.
- `count || 1` is `Weight`.
- The truncating `%` of `boundedLngToX` is `FMod`.

Two behaviours of the query side are proved exactly as the code has them.
With an inverted latitude band the upper search can loop for ever; see
"## Findings". A relative expansion of a range that crosses the
antimeridian is taken from the width of the complementary arc, so the
expanded window can lie on the far side of the world
(Query.CrossingExpansionUsesComplement).

## Model

| member | source | states |
|---|---|---|
| Projection.Clamp | src/utils.ts:3-4 | the result lies in `[min, max]` when `min <= max`, equals `v` when `v` is in range, and is always one of `min`, `v`, `max` |
| Projection.ClampMonotone | src/utils.ts:3-4 | clamping is monotone in the clamped value |
| Projection.LngToX | src/utils.ts:6 | longitudes in [-180, 180] map into [0, 1], and those below 180 map below 1 |
| Projection.XToLng | src/utils.ts:19 | `lngToX(xToLng(x)) == x` |
| Projection.LngRoundTrip | src/utils.ts:6 | `xToLng(lngToX(lng)) == lng` |
| Projection.FModBounds | src/utils.ts:15 | JavaScript's truncating `a % m` for `m > 0` lies strictly between `-m` and `m`, and is non-negative for a non-negative `a` |
| Projection.Wrap360 | src/utils.ts:15 | `((a % 360) + 360) % 360` with a truncating `%` lies in [0, 360) and differs from `a` by whole turns |
| Projection.BoundedLngToX | src/utils.ts:14-15 | the result lies in [0, 1) for every longitude |
| Projection.BoundedLngToXPeriodic | src/utils.ts:14-15 | `boundedLngToX(lng + 360) == boundedLngToX(lng)` |
| Projection.BoundedLngToXInRange | src/utils.ts:14-15 | on [-180, 180) it agrees with `lngToX` |
| Projection.PairDiagonal | src/utils.ts:24-28 | on naturals, `pair(a, b)` lies between the triangular numbers of `a + b` and `a + b + 1` |
| Projection.PairBelowNextDiagonal | src/utils.ts:24-28 | a pair on a lower diagonal has a smaller key than any pair on a higher one |
| Projection.PairInjective | src/utils.ts:24-28 | on naturals, equal keys imply equal pairs (Cantor pairing) |
| Projection.Pow2 | src/utils.ts:34 | `Math.pow(2, zoom)` is positive for every integer zoom |
| Projection.PixelsToDistanceScale | src/utils.ts:30-34 | `pixelsToDistance` times `extent * 2^zoom` gives back the pixels; positive pixels give a positive distance and non-zero pixels a non-zero one |
| Projection.PixelsToDistanceHalves | src/utils.ts:30-34 | one zoom level up, the same pixels cover half the distance |
| Levels.SumWLowerBound | src/utils.ts:74-76 | with every count positive, the summed `count \|\| 1` is at least the number of members |
| Levels.KeysWeightGrowLine | src/utils.ts:50-51 | appending a pair to an existing line adds its weight to the level's total |
| Levels.KeysWeightOtherLine | src/utils.ts:52-54 | updating a line the key list does not name leaves the total unchanged, and appending its key as a new last key adds exactly that line's weight |
| Levels.KeysWeightPermutation | src/utils.ts:191-194 | reordering the key list (the sort) keeps the level's total leaf count |
| Levels.InsertSorted | src/utils.ts:193 | inserting into an ascending list keeps it ascending |
| Levels.InsertMultiset | src/utils.ts:193 | inserting adds exactly one occurrence of the value and changes nothing else |
| Levels.SortAscendingSpec | src/utils.ts:193 | the key sort returns an ascending permutation of its input |
| Levels.SortAscendingSorted | src/utils.ts:193 | an already ascending key list comes back unchanged |
| Levels.SortAscendingDistinct | src/utils.ts:193 | sorting a duplicate-free key list keeps it duplicate-free |
| Levels.SortedDistinctAscending | src/utils.ts:193 | a sorted, duplicate-free key list is strictly ascending |
| Sweep.Absorb | src/utils.ts:100-104 | an absorbing accumulator gains `p` at the end of its members and keeps its windows |
| Sweep.FirstFit | src/utils.ts:98-99 | the scan's stop is the first accumulator at or after `start` whose `[xMin, xMax]` holds `x`, or the queue's end |
| Sweep.FirstFitAt | src/utils.ts:98-108 | a scan that passed only misfits and stopped at a fit (or at the end) has found FirstFit |
| Sweep.OfferShape | src/utils.ts:98-112 | an offer keeps the queue's length exactly when it absorbs, appends exactly one accumulator otherwise, and never touches accumulators before `start` |
| Sweep.OfferWeight | src/utils.ts:98-112 | in every case the queue's leaf count grows by exactly the offered point's weight |
| Sweep.OfferPositive | src/utils.ts:98-112 | an offer of a positively weighted point keeps every accumulator positively weighted |
| Sweep.OfferTracked | src/utils.ts:100-104 | each accumulator's `ySum` and `xSum` stay the sums of its members' coordinates |
| Sweep.OfferAll | src/utils.ts:132-147 | offering a line's pairs in turn adds at most one accumulator per pair and keeps every accumulator non-empty |
| Sweep.OfferAllStep | src/utils.ts:132-147 | offering one more pair of the line is one more `clusteringQueue` on the queue so far |
| Sweep.OfferAllFacts | src/utils.ts:132-147 | the offers of a line leave the accumulators before the cursor alone, add exactly the line's leaf count, and keep every accumulator positively weighted |
| Sweep.Skip | src/utils.ts:124-128 | the cursor stops at the first accumulator at or after it whose `yMax` reaches `y`, or at the end; every accumulator passed has `yMax < y` |
| Sweep.Sweeper.constructor | src/utils.ts:171-173 | the sweep starts with an empty queue and cursor 0 |
| Sweep.Sweeper.ClusteringQueue | src/utils.ts:90-113 | the new queue is `Offer` of the old one (absorb into FirstFit, or append `[y + 2r, x - r, x + r, [y, x, p]]`), the result is 1 exactly when some accumulator absorbed, and the cursor is unchanged |
| Sweep.Sweeper.MutateQueue | src/utils.ts:117-148 | the cursor becomes `Skip` of the old cursor and the queue becomes `OfferAll` of the line from it; the result is 1 exactly when the queue grew by fewer accumulators than the line has pairs, i.e. some pair joined one; the queue keeps its prefix and gains exactly the line's leaf count |
| Sweep.Sweeper.OfferLine | src/utils.ts:132-147 | the loop over the line leaves the queue `OfferAll` of the line from the cursor, with the same result and guarantees |
| Sweep.CountLeaves | src/utils.ts:72-76 | the backward loop sums `count \|\| 1` over the members |
| Sweep.LevelBuilder.AddDot | src/utils.ts:43-56 | an existing key's line gains `[x, p]` and the key list is unchanged; a new key gets the line `[x, p]` and is appended; the key list stays exactly the map's keys, without duplicates, and other lines are untouched |
| Sweep.LevelBuilder.AddDots | src/utils.ts:58-88 | the map and key list become `PutDot`/`PutKey` of `Collapse(acc)`: with two or more members it adds one cluster at the members' mean coordinates, whose count is the members' summed weight and whose zoom is `z`; with one member it re-adds that member at its own coordinates; leaf counts add up |
| Sweep.SweepState | src/utils.ts:173-180 | after any number of lines the cursor lies within the queue and every accumulator holds a member |
| Sweep.SweepQueue | src/utils.ts:173-180 | every accumulator left by the sweep holds at least one member |
| Sweep.SweepStateStep | src/utils.ts:176-180 | sweeping one more line is one more `mutateQueue`: the cursor moves to `Skip`, the line's pairs are offered from there, and the pair count grows by the line's length |
| Sweep.SweepStateFacts | src/utils.ts:173-180 | after any number of lines the queue holds exactly their leaf count, has at most one accumulator per pair, and only positively weighted members |
| Sweep.SweepLevel | src/utils.ts:165-180 | the loop over the keys leaves exactly `SweepQueue` of the level; `clustered` is 1 exactly when fewer accumulators than pairs remain; the queue holds the level's leaf count |
| Sweep.RebuildStep | src/utils.ts:186-188 | rebuilding one more accumulator is one more `addDots` |
| Sweep.Regroup | src/utils.ts:181-188 | the loop of `addDots` over the queue computes `Rebuild`; its key list is exactly the map's keys without duplicates, and it holds the queue's leaf count |
| Sweep.RebuildLevel | src/utils.ts:181-194 | the new level is `Rebuild` of the queue with its key list sorted: strictly ascending keys that are exactly its map's keys, and the queue's leaf count |
| Sweep.BuildLevel | src/utils.ts:161-197 | the stored level is `NextLevel` of the level above at `r = pixelsToDistance(radius, extent, z)`; `clustered` is 1 exactly when the sweep left fewer accumulators than pairs; without it the level above itself is stored, with it a rebuilt level; lines and leaf count are kept |
| Sweep.GetStore | src/utils.ts:150-206 | the store holds exactly `maxZoom + 1` (the input) and every zoom from `maxZoom` down to `minZoom`; each of those levels is `NextLevel` of the level stored above it (`Built`), and is that level itself or a rebuilt one; every level has the input's leaf count |
| Search.LowerStep | src/index.ts:347-359 | one halving step of the lower search keeps its invariant, shrinks the range, and leaves the final result unchanged |
| Search.UpperStep | src/index.ts:365-377 | the same for the upper search |
| Search.LowerSearchBounds | src/index.ts:347-359 | the lower search stops at an index with everything before at most `minY` and the entry there at least `minY` |
| Search.UpperSearchBounds | src/index.ts:365-377 | the upper search stops at the last index at most `maxY`; everything after is above `maxY` |
| Search.BandBounds | src/index.ts:344-379 | on a sorted axis with `minY <= maxY` the two searches bracket the band and the second search starts inside its invariant |
| Search.FilterMembers | src/index.ts:381-391 | the filter keeps exactly the indices of the range whose `x` lies in `[minX, maxX]` |
| Search.FilterIncreasing | src/index.ts:381-391 | the kept indices are strictly increasing and inside the range |
| Search.Visited | src/index.ts:344-391 | every reported index is a valid index of both axes |
| Search.VisitedSound | src/index.ts:344-391 | every reported index has `minY <= y <= maxY` and `minX <= x <= maxX`, so an inverted band reports nothing |
| Search.VisitedComplete | src/index.ts:344-391 | every index with `minY < y <= maxY` and `x` in `[minX, maxX]` is reported |
| Search.VisitedIncreasing | src/index.ts:389-391 | indices are reported in strictly increasing order, each at most once |
| Search.SearchFirst | src/index.ts:344-363 | the first `while` loop computes the lower search (and terminates) |
| Search.SearchLast | src/index.ts:361-377 | the second `while` loop computes the upper search (and terminates) |
| Search.MutatePoints | src/index.ts:335-392 | on a sorted axis `_mutatePoints` calls `mutate` on exactly the `Visited` indices, in order; an inverted band returns at once |
| Search.UpperStepAsWritten | src/index.ts:365-374 | one `fn2` step from any range, with `Math.floor` and `undefined` reads as written, keeps at least one end fixed; at `(3, 1)` on the input of "## Findings" it keeps both, which is the stall |
| Search.UpperSearchStalls | src/index.ts:347-377 | on `y = [0.5, 0.5, 0.5]`, `minY = 0.6`, `maxY = 0.4` the lower search stops at 3 and the upper search goes `(3, 2) → (3, 1) → (3, 1)` with its test still true |
| Search.UpperGuardUnderInv | src/index.ts:365-377 | wherever the upper search's invariant holds, the loop test as written is the modelled one and a step as written is a step of `UpperSearch` that shrinks the range |
| Search.MinEdgeMayBeSkipped | src/index.ts:347-359 | on `y = [0.1, 0.5, 0.5, 0.5]` with `minY = 0.5`, index 1 is skipped although its `y` equals `minY` |
| Query.ZoomLevel | src/index.ts:157-159 | the integer level read is `clamp(minZoom, zoom, maxZoom + 1)` |
| Query.PixelExpansion | src/index.ts:180-184 | an absolute expansion exists exactly when `expand` is set, non-zero and `\|expand\| >= 1`, and it is that many pixels at `zoom` |
| Query.Windows | src/index.ts:190-215 | the query makes one or two scans, all over the same latitude band |
| Query.WindowsInUnitSquare | src/index.ts:190-213 | every scanned window satisfies `0 <= minX <= maxX <= 1` |
| Query.WindowsWholeWorld | src/index.ts:193-213 | a query 360 degrees wide or wider covers the whole x axis |
| Query.WindowsCoverArc | src/index.ts:193-209 | for longitudes in [-180, 180] (west below 180) and without expansion, the windows cover exactly the arc from the west edge eastward to the east edge: `eastLng == 180` reaches `x = 1`, and a range whose projected west edge lies east of its east edge is split into `[0, maxX]` and `[minX, 1]` |
| Query.BandExpands | src/index.ts:180-188 | a non-negative expansion of a band inside [0, 1] gives a band, still inside [0, 1], that contains the original |
| Query.BandRelative | src/index.ts:181-187 | an unclamped relative expansion moves `minY` down and `maxY` up by exactly `expand` times the band's width, so the band is `1 + 2 * expand` times as wide |
| Query.BandAbsolute | src/index.ts:181-187 | an unclamped absolute expansion moves each edge by `expand` pixels at `zoom` |
| Query.XRelative | src/index.ts:197-202 | with a relative expansion no pixel distance is set, so an unclamped x range moves each end out by `expand` times the absolute value of `maxX - minX` |
| Query.XAbsolute | src/index.ts:181-202 | with an absolute expansion an unclamped x range moves each end out by the pixel distance the latitude step computed |
| Query.CrossingExpansionUsesComplement | src/index.ts:193-202 | from 170 to -170 degrees with `expand = 0.6` the single window is `[73/180, 107/180]`, and longitude 175, inside the queried arc, is not covered |
| Query.Hits | src/index.ts:204-215 | the indices reported by the scans are valid indices of both axes |
| Query.HitsSound | src/index.ts:204-215 | every reported index lies in one of the windows, in both band and x range |
| Query.HitsComplete | src/index.ts:204-215 | every index strictly inside some window's band and within its x range is reported |
| MarkerClusters.ZoomRange | src/index.ts:303-305 | the inner loop of `_setStore` sets exactly the zooms `(next, t[i]]` |
| MarkerClusters.AssignedDomain | src/index.ts:290-306 | zoom `j` is in the store exactly when `t[i+1] < j <= t[i]` for some chunk `i`, with `t = zoomSplitter ++ [minZoom - 1]` |
| MarkerClusters.AssignedLookup | src/index.ts:290-306 | with non-increasing split zooms, such a zoom `j` reads chunk `i` |
| MarkerClusters.MapIndex | src/index.ts:163-173 | a negative id becomes `clusterMapper(lng, lat, clusters[-id], id)` and anything else `markerMapper(points[id], lng, lat)`; `lng` projects back to the stored `x` and `lat` is `yToLat(y)` |
| MarkerClusters.Report | src/index.ts:163-173 | one mapper call per reported index, in order |
| MarkerClusters.LastBelow | src/index.ts:229-233 | the backward scan finds the largest `i` with `clusterEndIndexes[i] < c`, or -1 when there is none |
| MarkerClusters.ChildrenIds | src/index.ts:319-333 | cluster `-c` has `clusters[c - 1]` children (none when that count is missing or not positive); child `k` is `clusters[c + 1 + k]` |
| MarkerClusters.ChildOf | src/index.ts:249-253 | a negative child id `c` becomes `{clusterId: c, count: clusters[-c]}`, and any other id becomes `points[c]` |
| MarkerClusters.ExpandLat | src/index.ts:175-188 | the latitude edges after expansion and clamping are `Band`; `expandX` is the pixel expansion, if there is one |
| MarkerClusters.ExpandLng | src/index.ts:197-202 | the longitude edges after `expandX \|\|= \|maxX - minX\| * expand` and clamping are `XExpanded` |
| MarkerClusters.MarkerCluster.constructor | src/index.ts:47-57 | an absent option takes its default (0, 16, 60, 256); nothing is loaded |
| MarkerClusters.MarkerCluster.SetStore | src/index.ts:285-317 | the store is `Assigned` over `zoomSplitter ++ [minZoom - 1]`; points, clusters, zoom splitter and end indexes are replaced |
| MarkerClusters.MarkerCluster.GetPoints | src/index.ts:140-219 | returns `[]` before any load and a `TypeError` for a level that is missing; otherwise one mapper call per index that the window scans report, in scan order (none for an inverted band) |
| MarkerClusters.MarkerCluster.GetZoom | src/index.ts:224-234 | returns `zoomSplitter[i]` for the largest `i` with `clusterEndIndexes[i] < -clusterId`, or -1 when there is none (a `TypeError` before any load) |
| MarkerClusters.MarkerCluster.GetChildrenIds | src/index.ts:319-333 | the child ids are `ChildrenIds(clusters, -clusterId)` |
| MarkerClusters.MarkerCluster.GetChildren | src/index.ts:239-261 | `[]` before any load; otherwise exactly as many children as the cluster's count, the child ids mapped by `ChildOf`, last child first |
| MarkerClusters.MarkerCluster.GetOriginAxis | src/index.ts:263-283 | fresh arrays with one entry per point: `x` projects back to the point's longitude, and `y` is `latToY` of its latitude |

## Left out

- `load`, `loadAsync`, `cleanUp` and the worker bootstrap are not modelled. They are thread and browser plumbing. src/worker.ts is not part of this model.
- The store is not wired to the clustering output: `getData` is imported by index.ts but is not defined in utils.ts. `SetStore` therefore takes an abstract `Data` value, with the flat `data` array regrouped as one `PointsData` per three buffers.
- `latToY`, `yToLat` and `boundedLatToY` are function parameters. They rely on sine, logarithm, arctangent and exponential, and nothing is proved about their values.
- IEEE floating point is not modelled: coordinates are exact reals, and the float-keyed maps use exact real keys.
- Zoom is an integer in `getPoints`, so fractional zooms are not modelled (src/index.ts:157-159, 181-187). Inside [minZoom, maxZoom + 1], `_store.get(clamp(minZoom, zoom, maxZoom + 1))` finds no level for a fractional zoom, and destructuring `undefined` throws a `TypeError`. Outside that range, the zoom is clamped to an integer bound and that level is served, but the pixel expansion is computed with `Math.pow(2, zoom)` at the fractional zoom.
- `performance.now` and `console.log` in `getStore` are left out (timing output only).
- The cluster's `coords` field (`[yToLat(y), xToLng(x)]`) is not stored in `Cluster`, since the projection is opaque.
- The cluster's `items` keep the member points. The source removes the two running sums with `splice` first, which the queue model's separate `ySum`/`xSum` fields reproduce.
- Options: an option passed explicitly as `undefined` overrides its default in the source's object spread. The model treats it as absent.
- Projection.PixelsToDistance: `extent > 0` is required. For a zero extent the source divides by zero and returns an infinity; a negative extent flips the sign. Neither fits the option's meaning, a tile size in pixels.
- MarkerClusters.MarkerCluster.GetPoints: it requires `extent > 0` only for a pixel expansion (`|expand| >= 1`), the one path that calls `pixelsToDistance`.
- MarkerClusters.MarkerCluster.GetPoints: it requires that the chosen level's `y` buffer is sorted. An inverted latitude band reports nothing, where the source's second search can loop for ever (see "## Findings"). A level with a missing chunk is modelled as a `TypeError`.
- Search.VisitedComplete: completeness is stated for `minY < y`, not `minY <= y`. When entries equal to `minY` are preceded by equal entries, the lower search's `start = middle + 1` on equality can skip them (Search.MinEdgeMayBeSkipped).
- Sweep.LevelBuilder.AddDots: the centroid is the plain mean of the members' coordinates, as the code computes it. Member counts do not weight it.
- Sweep.GetStore: it requires every pair of the top level to weigh at least one leaf (`PositiveLevel`). The top level holds input markers, which weigh 1, so the source's callers meet it; the leaf-count and non-empty guarantees rest on it.
- Sweep.GetStore: the top level's key list is taken as given. The source builds it from an `ArrayBufferLike` that this model does not see.
- Sweep.GetStore: it requires every key of the top level to name a line (`KeysPresent`). For a key without one, the source reads `.length` of `undefined` and throws (src/utils.ts:136, 179); that error is not modelled. The specification functions read such a line as empty (`LineOf`), a case the methods never reach.
- benchmark/index.js and src/types.ts are not part of this model. They hold a benchmark and type declarations only.

## Findings

| source | as written | input that shows it | evidently intended | confidence | as-written member | corrected member |
|---|---|---|---|---|---|---|
| src/index.ts:365-377 | the upper search loops while `yAxis[end] > maxY`, starting from where the lower search stopped; when `minY > maxY` its range can stop shrinking | `yAxis = [0.5, 0.5, 0.5]`, `minY = 0.6`, `maxY = 0.4`: the lower search stops at 3, then `(start, end)` goes `(3, 2) → (3, 1) → (3, 1) → …` | an inverted band holds no point: report nothing and return | not executed | Search.UpperSearchStalls | Search.MutatePoints |
