# rootable: a verified model of the PXD cluster pipeline

`rootable` (talachem/fromRoot) reads Belle II pixel-detector (PXD) data from
ROOT files into a table of per-cluster columns. A cluster is a group of
pixel readings ("digits") on one of the 40 sensors. Its row holds the total
and seed charge, the sizes, the seed position and the event number. The
table can be extended with the digits of each cluster, a fixed-size ADC
matrix per cluster, global coordinates, layer and ladder numbers, and the
Monte Carlo truth of the particle that made it.

This project models the integer and index bookkeeping of that pipeline in
Dafny and proves what each part promises. There is one module per source
file:

- `McLists` reconciles a sparse truth relation into one dense link list, with `-1` where there is no link (`findMissing`, `fillMCList`).
- `ExtractMatrix` models `extractMatrix`. It clips a window to the ladder, re-centres it once on its first maximum, and grows it by two while charge touches its border away from the ladder's edge.
- `ClustersFromDigits` models the per-sensor cluster builder over `genCluster` groups.
- `LegacyClustersFromDigits` models the older builder, which works on a scratch grid with a visited set.
- `PxdFilter` models the 9 x 9 pad-and-roll builder for pixels outside the regions of interest.
- `McToClusters` models truth resolution (`_getMCData`), the per-event loop of `MCtoClusters.get`, and the digit walk of `MCtoDigits._process`.
- `FlatLadder` holds the per-event charge plane those walks share.
- `GenerateMatrices` models the fixed-window matrices.
- `ClusterCoordinates` models the sensor catalogue, the layer/ladder lookup and the indexing part of the coordinate transform.
- `FancyDict` models the column table.
- `Pxd` models the PXD loaders.
- `Rootable` models file-argument parsing and the load flags of the user-facing class.

Shared pieces live in `Common` and `Grid`. `Common` holds the Python exceptions, Python indexing, sums and the first maximum. `Grid` holds numpy 2-D slicing, argmax, `nonzero` and sums. `Panels` holds the panel IDs.

Two kinds of code are modelled differently:

- Code that updates state in place is a class or a method over arrays, proved equal to a function on values. This covers `FancyDict`, the `PXD` and `Rootable` objects, `ClusterCoordinates`, `fillMCList`, the scratch grids and the gather loops.
- Code that only computes is made of functions and lemmas.

Errors the Python code raises are `Err` results, named after the Python exception: AssertionError, IndexError, KeyError, ValueError, TypeError and AttributeError.

Where the code departs from the package's documented design, the model follows the code:

- Clustering is not a 4-connected flood fill. The newer builder takes the groups `genCluster` returns. The older ones take the windows `extractMatrix` grows, and skip digits that an earlier window of the same sensor already covered.
- Duplicate pixel coordinates are not reported: the last write wins.
- A relation with too few link values raises IndexError, and surplus values are ignored. There is no length-mismatch error.
- An even or oversized window fails the `assert` statements of `extractMatrix`.
- The "already loaded" guards exist only in `Rootable.getClusters` and `getDigits`. The other loaders warn and load again.

## Model

| member | source | states |
|---|---|---|
| `Panels.PanelIDsAscending` | rootable/detectors/clustersFromDigits.py:15-20 | the 40 sensor IDs every detector class lists are strictly ascending, so no ID appears twice |
| `Panels.IndexOfSpec` | rootable/detectors/clustersFromDigits.py:22 | `panelIDtoDepth[id]` succeeds exactly for the 40 panel IDs (KeyError otherwise) and returns a position holding that ID |
| `Panels.PanelsAccepted` | rootable/detectors/clustersFromDigits.py:22 | the keys of `panelIDtoDepth` are exactly the panel IDs |
| `Panels.IndexOfInverse` | rootable/detectors/clustersFromDigits.py:22 | the dictionary built by `enumerate(panelIDs)` maps the k-th ID back to k |
| `Panels.NoneKnown` | build/lib/rootable/detectors/clustersFromDigits.py:207 | `knownPixels` at the start of an event holds an empty set for every panel and no other key |
| `Grid.ArgMax2DIsFirstMax` | rootable/common/extractMatrix.py:25 | `np.unravel_index(matrix.argmax(), shape)` is a position of the maximum, and no earlier position in row-major order holds it |
| `Grid.NonZeroSpec` | rootable/common/extractMatrix.py:48 | `np.nonzero` lists non-zero cells only, lists every non-zero cell, in row-major order, `count_nonzero` of them |
| `Grid.SliceCells` | rootable/common/extractMatrix.py:18 | a slice `g[r0:r1, c0:c1]` has shape (r1 - r0, c1 - c0) and holds the cells it covers |
| `McLists.FindMissing` | build/lib/rootable/common/mcLists.py:5-9 | the result is ascending, inside `[0, length)`, and holds exactly the positions the list does not mention |
| `McLists.FindMissingIgnoresOutOfRange` | build/lib/rootable/common/mcLists.py:9 | entries outside `[0, length)` do not change the missing positions |
| `McLists.FillMCList` | build/lib/rootable/common/mcLists.py:12-29 | the loop computes `FillSpec`: the dense list, or IndexError when `toClusters` runs out or holds an empty array |
| `McLists.RankCountsNonMissing` | build/lib/rootable/common/mcLists.py:19-28 | after the loop `fillIndex` equals `length` minus the number of missing positions |
| `McLists.RankMonotone` | build/lib/rootable/common/mcLists.py:28 | `fillIndex` never decreases, and grows past every non-missing position |
| `McLists.RankHits` | build/lib/rootable/common/mcLists.py:25-28 | every value slot consumed belongs to one non-missing position |
| `McLists.FillableStep` | build/lib/rootable/common/mcLists.py:20-28 | one more position that does not raise extends the prefix that fills, and moves `fillIndex` by one exactly when the position is not missing |
| `McLists.FillShape` | build/lib/rootable/common/mcLists.py:18-22 | the filled list has `length` entries and `-1` at every missing position |
| `McLists.FillableIff` | build/lib/rootable/common/mcLists.py:24-27 | the fill raises exactly when fewer usable values than non-missing positions are supplied |
| `McLists.FillOrderedMerge` | build/lib/rootable/common/mcLists.py:20-28 | the k-th non-missing position in ascending order holds `toClusters[k]` (its first element when it is an array) |
| `McLists.FillIgnoresExtras` | build/lib/rootable/common/mcLists.py:25 | values beyond the ones consumed make no difference |
| `McLists.FillExample` | build/lib/rootable/common/mcLists.py:12-29 | `fillMCList([0, 2], [5, 7], 3) == [5, -1, 7]` |
| `ExtractMatrix.Clip` | rootable/common/extractMatrix.py:17-20 | `np.clip` stays within `[lo, hi]`, keeps a value already inside and moves one outside to the nearer end |
| `ExtractMatrix.Bounds` | rootable/common/extractMatrix.py:15-20 | the first cut along one axis lies in the ladder, is at most `matrixSize` wide, is empty exactly when `x + size // 2 + 1 <= 0`, and is centred on `x` when no clipping happens |
| `ExtractMatrix.FirstCut` | rootable/common/extractMatrix.py:15-22 | the first cut is a non-empty rectangle of the ladder no larger than the requested size, or ValueError (the argmax of an empty slice) exactly when it is empty |
| `ExtractMatrix.FirstCutUnclipped` | rootable/common/extractMatrix.py:17-22 | without clipping the first cut is the full rectangle centred on `(uCellID, vCellID)` |
| `ExtractMatrix.Moved` | rootable/common/extractMatrix.py:30-37 | the re-centred cut has exactly the requested size, keeps the first cut's upper bounds, and starts at `u + offset - centre` when that needs no clipping |
| `ExtractMatrix.Centre` | rootable/common/extractMatrix.py:15-37 | the window after re-centring is a rectangle of the ladder of at most the requested size, or ValueError exactly when the first cut is empty |
| `ExtractMatrix.MovedCentre` | rootable/common/extractMatrix.py:28-37 | after moving, the centre pixel of the new window is the pixel the offset was computed from |
| `ExtractMatrix.CentreMovesMaximumToCentre` | rootable/common/extractMatrix.py:24-37 | when no clipping intervenes, the first cut's maximum lands on the centre pixel of the re-centred window |
| `ExtractMatrix.WindowCells` | rootable/common/extractMatrix.py:22 | a window is the rectangle of the ladder its bounds name |
| `ExtractMatrix.Border` | rootable/common/extractMatrix.py:39 | the border is the first row, last row, first column and last column, `2 * cols + 2 * rows` pixels |
| `ExtractMatrix.Finish` | rootable/common/extractMatrix.py:47-58 | the result holds the final window and its lower corner, and the window is the rectangle of the ladder at that corner |
| `ExtractMatrix.FinishShifted` | rootable/common/extractMatrix.py:48-52 | the global positions are `np.nonzero(matrix)` shifted by the window's lower corner |
| `ExtractMatrix.PositionsSound` | rootable/common/extractMatrix.py:48-52 | every reported global position is a non-zero pixel of the window |
| `ExtractMatrix.PositionsComplete` | rootable/common/extractMatrix.py:48-52 | every non-zero pixel of the window is reported |
| `ExtractMatrix.FinishPositions` | rootable/common/extractMatrix.py:48-52 | the reported positions are exactly the window's non-zero pixels, in row-major order |
| `ExtractMatrix.FinishSeed` | rootable/common/extractMatrix.py:54-56 | the seed is the window's first maximum in row-major order, in global coordinates |
| `ExtractMatrix.SeedFromArgMax` | rootable/common/extractMatrix.py:54-56 | `argmax` shifted by the lower corner is the first maximum of the ladder rectangle |
| `ExtractMatrix.Grow` | rootable/common/extractMatrix.py:9-45 | the recursion either fails the size assertions (AssertionError), finds the first cut empty (ValueError), or stops at a size it accepts where the window no longer grows |
| `ExtractMatrix.Extract` | rootable/common/extractMatrix.py:5-58 | AssertionError for a rejected size, otherwise only AssertionError or ValueError, and on success a rectangle of the ladder at the final size |
| `ExtractMatrix.ExtractSpec` | rootable/common/extractMatrix.py:39-58 | a successful extraction is a ladder rectangle of at most the final size, reports exactly its non-zero pixels, takes its first maximum as seed, and stopped because its border is empty or it touches an edge |
| `ExtractMatrix.GrowValueErrorOnlyIfEmpty` | rootable/common/extractMatrix.py:42-45 | growing never empties a non-empty cut, so ValueError only comes from the size first asked for |
| `ExtractMatrix.ExtractValueError` | rootable/common/extractMatrix.py:9-25 | ValueError is raised exactly when the assertions pass and the first cut is empty |
| `ClustersFromDigits.ColumnsSpec` | rootable/detectors/clustersFromDigits.py:209-212 | `cluster[:, 0]`, `cluster[:, 1]` and `cluster[:, 2]` have one entry per member, entry k being member k's field |
| `ClustersFromDigits.OnSensorSpec` | rootable/detectors/clustersFromDigits.py:197-199 | the boolean-mask selection `cells[sensors == sensor]` keeps exactly the event's digits on that sensor, in order |
| `ClustersFromDigits.ClusterRowSpec` | rootable/detectors/clustersFromDigits.py:209-239 | a cluster's row carries its event and sensor and its cell columns; the cluster charge is their sum, the seed charge their maximum, the sizes count the distinct u and v cells (between 1 and the cluster size), and the position is `_pixelToUV` of the first cell holding the seed charge |
| `ClustersFromDigits.TagSpec` | rootable/detectors/clustersFromDigits.py:206-208 | the groups of one `genCluster` call are visited in order, each tagged with its event and sensor |
| `ClustersFromDigits.TabulateColumns` | rootable/detectors/clustersFromDigits.py:241-254 | every one of the twelve columns holds one entry per row, and reading row k across them gives row k back |
| `ClustersFromDigits.RowsOfSpec` | rootable/detectors/clustersFromDigits.py:225-239 | row k is the row of the k-th cluster met |
| `ClustersFromDigits.RowsStep` | rootable/detectors/clustersFromDigits.py:208-239 | one more non-empty group appends its row at the end |
| `ClustersFromDigits.EventJobsStep` | rootable/detectors/clustersFromDigits.py:196-208 | the sensors' loop adds each sensor's groups after those of the sensors before it |
| `ClustersFromDigits.EventJobsPrefix` | rootable/detectors/clustersFromDigits.py:196 | the groups of the first k sensors come first among an event's |
| `ClustersFromDigits.AllJobsSplit` | rootable/detectors/clustersFromDigits.py:190 | the groups of the first i events come first among all of them |
| `ClustersFromDigits.SensorJobsInEvent` | rootable/detectors/clustersFromDigits.py:196-208 | group j of the k-th sensor sits right after the groups of the sensors before it |
| `ClustersFromDigits.EventJobsInAll` | rootable/detectors/clustersFromDigits.py:190-208 | group q of event i sits right after the groups of the events before it |
| `ClustersFromDigits.EmptyGroupRaises` | rootable/detectors/clustersFromDigits.py:209-210 | an empty group met anywhere is among all the groups, so the whole call raises |
| `ClustersFromDigits.SensorJobsFacts` | rootable/detectors/clustersFromDigits.py:197-206 | the groups of one sensor carry its event and sensor, and a sensor without digits is skipped and yields none |
| `ClustersFromDigits.EventJobsFacts` | rootable/detectors/clustersFromDigits.py:196-208 | every group of event i belongs to event i and to a listed sensor that has a digit in that event |
| `ClustersFromDigits.AllJobsFacts` | rootable/detectors/clustersFromDigits.py:190-208 | every group names an event below n and a listed sensor with a digit in it, and event numbers never decrease along the groups |
| `ClustersFromDigits.ProcessRowStats` | rootable/detectors/clustersFromDigits.py:171-254 | a successful table has twelve equally long columns, one row per `genCluster` group, and every row keeps the row statistics |
| `ClustersFromDigits.ProcessRowOrigins` | rootable/detectors/clustersFromDigits.py:190-236 | every row names an existing event and a panel on which that event has a digit, and `eventNumber` never decreases down the table |
| `ClustersFromDigits.EventJobsNonEmpty` | rootable/detectors/clustersFromDigits.py:196-208 | an event's groups are all non-empty when each sensor's are |
| `ClustersFromDigits.AllJobsNonEmpty` | rootable/detectors/clustersFromDigits.py:190-208 | all groups are non-empty when each sensor's in each event are |
| `ClustersFromDigits.AllJobsEmptyIff` | rootable/detectors/clustersFromDigits.py:190-210 | some group is empty exactly when some sensor in some event has an empty group |
| `ClustersFromDigits.ProcessRaisesIff` | rootable/detectors/clustersFromDigits.py:206-212 | `_process` raises IndexError exactly when `genCluster` returns an empty group for some panel in some event |
| `ClustersFromDigits.SensorRows` | rootable/detectors/clustersFromDigits.py:197-239 | one sensor's step appends exactly the rows of its groups, or raises IndexError exactly when one of them is empty |
| `ClustersFromDigits.EventRowsOf` | rootable/detectors/clustersFromDigits.py:196-239 | the sensors' loop appends the rows of every panel's groups in turn, or raises IndexError exactly when one is empty |
| `ClustersFromDigits.EmptyGroupInEvent` | rootable/detectors/clustersFromDigits.py:208-210 | an empty group at some sensor is among the event's groups |
| `ClustersFromDigits.EmptyEventRaises` | rootable/detectors/clustersFromDigits.py:190-210 | an event with an empty group makes the whole call raise |
| `ClustersFromDigits.Process` | rootable/detectors/clustersFromDigits.py:171-254 | the three nested loops compute `ProcessSpec`: the table of the rows of all groups in event, panel and group order, or IndexError |
| `LegacyClustersFromDigits.Depth` | build/lib/rootable/detectors/clustersFromDigits.py:22 | a panel's plane is below the number of panels |
| `LegacyClustersFromDigits.DepthBijection` | build/lib/rootable/detectors/clustersFromDigits.py:15-22 | `panelIDtoDepth` sends the k-th panel ID to plane k, and plane `panelIDtoDepth[id]` holds panel `id` back |
| `LegacyClustersFromDigits.Wrap` | build/lib/rootable/detectors/clustersFromDigits.py:199 | a negative index into an axis of length n counts from the end: the result is in range and equals x or x + n |
| `LegacyClustersFromDigits.CellZeroUnlessHit` | build/lib/rootable/detectors/clustersFromDigits.py:190-199 | a cell of the zeroed scratch grid that no digit writes stays zero |
| `LegacyClustersFromDigits.ScatterStep` | build/lib/rootable/detectors/clustersFromDigits.py:199 | the fancy-indexed assignment is last-writer-wins, and a cell is hit exactly when some digit lands on it |
| `LegacyClustersFromDigits.Plane` | build/lib/rootable/detectors/clustersFromDigits.py:216 | `matrixLadder[depth]` is a 250 x 768 plane whose every cell is that of the scatter |
| `LegacyClustersFromDigits.PlaneOf` | build/lib/rootable/detectors/clustersFromDigits.py:216 | reading plane p of the 3-D grid gives its cells, with the grid's row and column counts |
| `LegacyClustersFromDigits.FinishRowStats` | build/lib/rootable/detectors/clustersFromDigits.py:222-227 | the row of a finished window has the window's sum, non-zero count and maximum, the maximum held by the seed pixel; both sizes are 1 |
| `LegacyClustersFromDigits.RowCells` | build/lib/rootable/detectors/clustersFromDigits.py:218-220 | the row has one cell per non-zero pixel, with u and v swapped, each holding that pixel's non-zero charge |
| `LegacyClustersFromDigits.FinishRowCells` | build/lib/rootable/detectors/clustersFromDigits.py:216-220 | the same holds for the row of a finished window |
| `LegacyClustersFromDigits.LegacyRowSpec` | build/lib/rootable/detectors/clustersFromDigits.py:213-235 | the row of every successful `extractMatrix` call is numbered with its event and sensor and keeps both the statistics and the cells |
| `LegacyClustersFromDigits.PlaneMatches` | build/lib/rootable/detectors/clustersFromDigits.py:199-216 | after the scatter, each plane of the scratch array is the plane the scatter defines |
| `LegacyClustersFromDigits.WalkSkip` | build/lib/rootable/detectors/clustersFromDigits.py:210-211 | a digit whose pixel a window of its sensor already covers is skipped |
| `LegacyClustersFromDigits.WalkFails` | build/lib/rootable/detectors/clustersFromDigits.py:216 | an uncovered digit whose `extractMatrix` fails ends the event with that error |
| `LegacyClustersFromDigits.WalkAppends` | build/lib/rootable/detectors/clustersFromDigits.py:213-235 | an uncovered digit puts its window's row in front of the rest, and the rest sees the window's pixels as covered |
| `LegacyClustersFromDigits.WalkEvent` | build/lib/rootable/detectors/clustersFromDigits.py:207-235 | the digit loop computes the per-event walk from an empty `knownPixels` |
| `LegacyClustersFromDigits.DepthList` | build/lib/rootable/detectors/clustersFromDigits.py:198 | the depth list exists exactly when every sensor ID is a panel, and then it lists each digit's plane |
| `LegacyClustersFromDigits.IndicesValid` | build/lib/rootable/detectors/clustersFromDigits.py:199 | the fancy-indexed write raises IndexError exactly when some digit's index lies outside its plane |
| `LegacyClustersFromDigits.Scatter` | build/lib/rootable/detectors/clustersFromDigits.py:199 | after the assignment the grid is the scatter of the event's digits |
| `LegacyClustersFromDigits.Clear` | build/lib/rootable/detectors/clustersFromDigits.py:237 | zeroing the written cells leaves the whole grid zero again |
| `LegacyClustersFromDigits.ProcessEvent` | build/lib/rootable/detectors/clustersFromDigits.py:192-237 | one event computes its rows: empty events are skipped; otherwise KeyError, IndexError, or the walk; the grid ends zeroed when it succeeds |
| `LegacyClustersFromDigits.LegacyProcess` | build/lib/rootable/detectors/clustersFromDigits.py:171-252 | the loop over events computes `LegacySpec`: the table of all events' rows, or the first event's error |
| `LegacyClustersFromDigits.RowOkOf` | build/lib/rootable/detectors/clustersFromDigits.py:213-227 | a row with the window's statistics and cells keeps `LegacyRowOk`: every cell charge is non-zero and at most the seed charge |
| `LegacyClustersFromDigits.LegacyRowOkOfWindow` | build/lib/rootable/detectors/clustersFromDigits.py:213-227 | so does the row of every successful window |
| `LegacyClustersFromDigits.EventRowsOkAppend` | build/lib/rootable/detectors/clustersFromDigits.py:213 | rows of one event joined together stay rows of that event |
| `LegacyClustersFromDigits.PrependRowOk` | build/lib/rootable/detectors/clustersFromDigits.py:213 | one more valid row in front keeps the per-event bound |
| `LegacyClustersFromDigits.WalkAppendsOk` | build/lib/rootable/detectors/clustersFromDigits.py:209-235 | an uncovered digit's step keeps the per-event bound |
| `LegacyClustersFromDigits.WalkFacts` | build/lib/rootable/detectors/clustersFromDigits.py:209-235 | the digit loop yields at most one row per remaining digit, each numbered with the event and valid |
| `LegacyClustersFromDigits.EventRowsFacts` | build/lib/rootable/detectors/clustersFromDigits.py:192-235 | an event yields at most one row per digit, each numbered with the event and valid |
| `LegacyClustersFromDigits.AllRowsOkAppend` | build/lib/rootable/detectors/clustersFromDigits.py:192 | appending a later event's rows keeps the table grouped by event in ascending order |
| `LegacyClustersFromDigits.CollectFacts` | build/lib/rootable/detectors/clustersFromDigits.py:192 | collecting valid per-event outcomes gives rows grouped by event in ascending order |
| `LegacyClustersFromDigits.LegacyRowsFacts` | build/lib/rootable/detectors/clustersFromDigits.py:171-252 | every row belongs to an input event, rows are grouped by event in ascending order, and each row is valid |
| `LegacyClustersFromDigits.LegacyRaisesIff` | build/lib/rootable/detectors/clustersFromDigits.py:192-216 | `_process` raises exactly when some event does, with the first failing event's error |
| `LegacyClustersFromDigits.LegacySkipsEmptyEvent` | build/lib/rootable/detectors/clustersFromDigits.py:194-195 | an event without digits adds nothing |
| `McToClusters.MCDataEntries` | rootable/detectors/mcToClusters.py:91-106 | the four arrays have one entry per link; a `-1` link keeps pdg 0 and zero momenta, any other link r holds the truth at index r |
| `McToClusters.MCDataRaisesIff` | rootable/detectors/mcToClusters.py:97-104 | `_getMCData` raises IndexError exactly when some link other than `-1` indexes outside one of the four arrays |
| `McToClusters.GetMCData` | rootable/detectors/mcToClusters.py:86-106 | the zero-initialised loop computes `MCDataSpec` |
| `McToClusters.HStackShape` | rootable/detectors/mcToClusters.py:77-83 | `np.hstack` of well-shaped per-event tables is well shaped and as long as all of them together |
| `McToClusters.ClusterEventShape` | rootable/detectors/mcToClusters.py:65-75 | an event's table has one row per cluster of the event, its `clsNumber` being the `fillMCList` link list |
| `McToClusters.ClusterTables` | rootable/detectors/mcToClusters.py:65-75 | the per-event tables are stored in event order |
| `McToClusters.StackedShape` | rootable/detectors/mcToClusters.py:77-83 | stacking tables of given row counts gives the sum of the counts |
| `McToClusters.ClusterTruthShape` | rootable/detectors/mcToClusters.py:38-83 | `MCtoClusters.get` returns five equally long columns, one row per cluster of every event |
| `McToClusters.ClusterTruthErrors` | rootable/detectors/mcToClusters.py:59-83 | `get` raises ValueError exactly when there is no event (hstack of nothing), and otherwise only IndexError, exactly when some event does |
| `McToClusters.ClusterEventTable` | rootable/detectors/mcToClusters.py:69-75 | the body of the event loop computes that event's table or error |
| `McToClusters.ClusterTruth` | rootable/detectors/mcToClusters.py:59-83 | the event loop computes `ClusterTruthSpec` |
| `McToClusters.Tabulate` | rootable/detectors/mcToClusters.py:252-258 | the five output columns have one entry per collected row |
| `McToClusters.ExtractCall` | rootable/detectors/mcToClusters.py:230 | as written the call raises TypeError; the corrected call is `extractMatrix` with its default window |
| `McToClusters.EventLinks` | rootable/detectors/mcToClusters.py:215-221 | once the checks before the loop pass, the link list has one entry per digit, so the assertion never fires |
| `McToClusters.DigitEventWalks` | rootable/detectors/mcToClusters.py:207-226 | an event whose arrays do not fit raises IndexError; otherwise it is the digit walk over its scattered plane |
| `McToClusters.LinksResolvePrepend` | rootable/detectors/mcToClusters.py:240-250 | a row resolved from one of the event's links keeps all rows resolved |
| `McToClusters.DigitWalkFacts` | rootable/detectors/mcToClusters.py:226-250 | a walk that succeeds yields at most one row per remaining digit, each the resolved truth of one of the event's links; KeyError comes only from a sensor that is not a panel |
| `McToClusters.AsWrittenWalk` | rootable/detectors/mcToClusters.py:226-230 | as written, the first uncovered digit raises KeyError for an unknown sensor and TypeError otherwise |
| `McToClusters.AsWrittenEvent` | rootable/detectors/mcToClusters.py:207-230 | as written, an event with digits never yields a row |
| `McToClusters.AsWrittenYieldsNothing` | rootable/detectors/mcToClusters.py:199-258 | as written, `_process` succeeds only when no event has a digit, and then returns empty columns |
| `McToClusters.CorrectedKeepsFirstDigit` | rootable/detectors/mcToClusters.py:226-250 | with the corrected call, the first digit of an event always yields a row, holding its own link's truth |
| `McToClusters.CorrectedWalkErrors` | rootable/detectors/mcToClusters.py:226-250 | with the corrected call the walk never raises TypeError, and IndexError only for a link that does not resolve |
| `McToClusters.CorrectedEventErrors` | rootable/detectors/mcToClusters.py:207-250 | with the corrected call, an event whose digits sit on panels and whose links resolve fails only with the window's own errors |
| `McToClusters.DigitWalkErrorKinds` | rootable/detectors/mcToClusters.py:226-250 | a walk raises only KeyError, IndexError or an error of the call |
| `McToClusters.DigitEventBounded` | rootable/detectors/mcToClusters.py:207-250 | an event yields at most one row per digit |
| `McToClusters.DigitTruthBounded` | rootable/detectors/mcToClusters.py:199-258 | `_process` returns five equally long columns with at most one row per input digit |
| `McToClusters.WalkDigits` | rootable/detectors/mcToClusters.py:224-250 | the digit loop computes the digit walk |
| `McToClusters.DigitEventRows` | rootable/detectors/mcToClusters.py:208-250 | the body of the event loop computes that event's rows or error |
| `McToClusters.DigitStep` | rootable/detectors/mcToClusters.py:207 | a successful event extends the rows collected so far; a failing event is the outcome of the whole call |
| `McToClusters.DigitTruth` | rootable/detectors/mcToClusters.py:199-258 | the event loop computes `DigitTruthSpec` |
| `PxdFilter.SliceEnd` | rootable/detectors/pxdFilter.py:230-236 | a slice stop past the axis end is the axis length: the smaller of the stop and the length |
| `PxdFilter.BoxAt` | rootable/detectors/pxdFilter.py:230-234 | the sliced box of pixel (x, y) contains it, lies on the plane and spans at most 9 rows and 9 columns |
| `PxdFilter.Pad` | rootable/detectors/pxdFilter.py:237-239 | `np.pad` with zeros after the last row and column gives a 9 x 9 matrix |
| `PxdFilter.Window` | rootable/detectors/pxdFilter.py:236-239 | a pixel's window is exactly 9 x 9 |
| `PxdFilter.WindowCells` | rootable/detectors/pxdFilter.py:230-239 | each window cell holds the plane cell it covers when inside the sliced box, and zero otherwise |
| `PxdFilter.Rotate` | rootable/detectors/pxdFilter.py:246 | `np.roll` of a length-9 axis by t keeps the axis length 9 |
| `PxdFilter.RotateSplits` | rootable/detectors/pxdFilter.py:246 | a rotation is the sequence cut at -t (mod 9) with its halves swapped |
| `PxdFilter.SwapKeeps` | rootable/detectors/pxdFilter.py:246 | swapping the halves keeps the multiset of entries, the sum and the non-zero count |
| `PxdFilter.RotateKeeps` | rootable/detectors/pxdFilter.py:246 | a rotation keeps the entries, the sum and the non-zero count |
| `PxdFilter.RotateRows` | rootable/detectors/pxdFilter.py:246 | rotating every row by t keeps the 9 x 9 shape and rotates each row |
| `PxdFilter.Roll` | rootable/detectors/pxdFilter.py:246 | the two-axis roll keeps the 9 x 9 shape |
| `PxdFilter.RollCells` | rootable/detectors/pxdFilter.py:246 | cell (a, b) of the roll comes from (a - s0, b - s1), cyclically |
| `PxdFilter.RowWiseTotals` | rootable/detectors/pxdFilter.py:254-255 | matrices whose rows agree in sum and non-zero count agree in both |
| `PxdFilter.SwapHalves` | rootable/detectors/pxdFilter.py:246 | swapping two halves of the rows keeps the values, the sum and the non-zero count |
| `PxdFilter.RotateRowsKeeps` | rootable/detectors/pxdFilter.py:246 | rotating every row keeps the values, the sum and the non-zero count |
| `PxdFilter.RollKeeps` | rootable/detectors/pxdFilter.py:246 | the roll keeps the window's multiset of values, hence its sum and its non-zero count |
| `PxdFilter.Shift` | rootable/detectors/pxdFilter.py:241-246 | the shift moves the entry at p to the centre (4, 4), except that at (4, 0) it is (0, 0) |
| `PxdFilter.RecentreAt` | rootable/detectors/pxdFilter.py:241-246 | the re-centred window is 9 x 9 |
| `PxdFilter.RollNothing` | rootable/detectors/pxdFilter.py:242 | a roll by (0, 0) changes nothing, so at (4, 0) nothing moves |
| `PxdFilter.RecentreAtKeeps` | rootable/detectors/pxdFilter.py:241-246 | re-centring keeps the window's values, sum and non-zero count |
| `PxdFilter.RecentreAtSeed` | rootable/detectors/pxdFilter.py:243-246 | rolling by (4 - p.0, 4 - p.1) brings the entry at p to the centre; when it is a maximum, so is the centre |
| `PxdFilter.RecentreSeed` | rootable/detectors/pxdFilter.py:241-253 | unless the first maximum sits at (4, 0), the seed charge `matrix[4, 4]` is the window's maximum |
| `PxdFilter.RecentreSkipsFourZero` | rootable/detectors/pxdFilter.py:242 | with the first maximum at (4, 0), the centre need not hold the maximum: one charged pixel at (4, 0) is a witness |
| `PxdFilter.RollToCentre` | rootable/detectors/pxdFilter.py:243-246 | the roll by (4 - p.0, 4 - p.1) puts the entry at p at the centre; when that entry is a maximum, no cell exceeds the centre |
| `PxdFilter.IntendedShift` | rootable/detectors/pxdFilter.py:242-244 | with the test against column 4 the shift always carries the first maximum's position to (4, 4) |
| `PxdFilter.RecentreIntended` | rootable/detectors/pxdFilter.py:241-246 | the window re-centred with the intended test is 9 x 9 |
| `PxdFilter.RecentreIntendedSeed` | rootable/detectors/pxdFilter.py:241-253 | with the intended test the seed charge `matrix[4, 4]` is the window's maximum wherever the first maximum lies |
| `PxdFilter.Firsts` | rootable/detectors/pxdFilter.py:250 | shifting the first coordinates by d keeps their number and offsets each |
| `PxdFilter.Seconds` | rootable/detectors/pxdFilter.py:251 | the same for the second coordinates |
| `PxdFilter.ClusterFacts` | rootable/detectors/pxdFilter.py:224-260 | a cluster is tagged with its event, sensor and fitted position; charge and size are the unrolled window's; the sizes and the three cell columns have `clsSize` entries, all charges non-zero; off (4, 0) the seed is the maximum |
| `PxdFilter.ClusterCellsListed` | rootable/detectors/pxdFilter.py:248-251 | entry k of the cell columns is a non-zero cell of the re-centred window, offset by the pixel itself rather than by the window's corner |
| `PxdFilter.ClusterCellsComplete` | rootable/detectors/pxdFilter.py:248-251 | every non-zero cell of the re-centred window has an entry in the cell columns |
| `PxdFilter.WindowCellsListed` | rootable/detectors/pxdFilter.py:248-251 | cell columns read off the non-zero positions of a 9 x 9 window name its non-zero cells |
| `PxdFilter.ClusterFields` | rootable/detectors/pxdFilter.py:248-251 | the cell columns are the re-centred window's non-zero positions offset by the pixel, and the charges found there |
| `PxdFilter.OffsetCellsListed` | rootable/detectors/pxdFilter.py:250-251 | the non-zero positions offset by (x, y) name non-zero cells |
| `PxdFilter.OffsetCellsComplete` | rootable/detectors/pxdFilter.py:250-251 | every non-zero cell is named by an offset non-zero position |
| `PxdFilter.NoneSeen` | rootable/detectors/pxdFilter.py:215 | `knownPixels` starts with empty row and column lists for every panel and no other key |
| `PxdFilter.Rows` | rootable/detectors/pxdFilter.py:214 | the rows of `np.nonzero`, one per non-zero pixel |
| `PxdFilter.Cols` | rootable/detectors/pxdFilter.py:214 | the columns of `np.nonzero`, one per non-zero pixel |
| `PxdFilter.Zipped` | rootable/detectors/pxdFilter.py:217 | `zip` yields as many triples as the shorter of the pixels and the sensor IDs |
| `PxdFilter.Claims` | rootable/detectors/pxdFilter.py:217-222 | the triples that open a cluster are at most the remaining ones, each an index from k below the zip's length |
| `PxdFilter.ClaimsErrors` | rootable/detectors/pxdFilter.py:217-218 | the loop raises exactly when a paired sensor ID is not a key of `knownPixels`, and then KeyError |
| `PxdFilter.ClaimSettles` | rootable/detectors/pxdFilter.py:221-222 | extending a free sensor's lists by all the pixels settles it and leaves every other sensor as free as before |
| `PxdFilter.ClaimStep` | rootable/detectors/pxdFilter.py:218-219 | a triple is skipped exactly when its sensor is no longer free |
| `PxdFilter.ClaimsFirst` | rootable/detectors/pxdFilter.py:217-222 | each claimed triple is the first from k on paired with its still-free sensor |
| `PxdFilter.FirstStep` | rootable/detectors/pxdFilter.py:217-222 | the step of `ClaimsFirst` for a triple that claims |
| `PxdFilter.DistinctStep` | rootable/detectors/pxdFilter.py:217-222 | the step of `ClaimsDistinct` for a triple that claims |
| `PxdFilter.ClaimsDistinct` | rootable/detectors/pxdFilter.py:217-222 | the claimed triples ascend and their sensors all differ |
| `PxdFilter.ClaimsCover` | rootable/detectors/pxdFilter.py:217-222 | every free sensor paired from k on is claimed |
| `PxdFilter.CoverStep` | rootable/detectors/pxdFilter.py:217-222 | the step of `ClaimsCover` for a triple that claims |
| `PxdFilter.Sensors` | rootable/detectors/pxdFilter.py:213 | entry k is the sensor ID of digit k of the event |
| `PxdFilter.Opened` | rootable/detectors/pxdFilter.py:217-260 | cluster a is the window cluster of the a-th claimed pixel with its paired sensor |
| `PxdFilter.Pixels` | rootable/detectors/pxdFilter.py:212-214 | `np.nonzero(matrixLadder)` lists exactly the non-zero cells of the plane, each of them on the plane |
| `PxdFilter.ClusterTags` | rootable/detectors/pxdFilter.py:224-225 | a cluster carries its event and its sensor |
| `PxdFilter.OpenedTags` | rootable/detectors/pxdFilter.py:217-225 | the clusters of a successful event carry its event number and a paired sensor |
| `PxdFilter.OpenedFirstAt` | rootable/detectors/pxdFilter.py:217-260 | cluster a is the window of the first pixel paired with its sensor |
| `PxdFilter.OpenedFirst` | rootable/detectors/pxdFilter.py:217-260 | every cluster is the window of the first pixel paired with its sensor, which is a panel |
| `PxdFilter.OpenedDistinct` | rootable/detectors/pxdFilter.py:217-225 | no two clusters of one event share a sensor |
| `PxdFilter.OpenedCover` | rootable/detectors/pxdFilter.py:217-225 | every sensor paired with a pixel gets a cluster |
| `PxdFilter.PixelLoopErrors` | rootable/detectors/pxdFilter.py:217-222 | the pixel loop raises KeyError exactly when a paired ID is not a panel; otherwise its clusters are first, distinct and covering |
| `PxdFilter.AtMostOnePerPanel` | rootable/detectors/pxdFilter.py:215-225 | clusters on pairwise different panels number at most 40 |
| `PxdFilter.FilterEventBound` | rootable/detectors/pxdFilter.py:209-260 | an event opens at most 40 clusters |
| `PxdFilter.PixelFacts` | rootable/detectors/pxdFilter.py:217-260 | the clusters of a plane's pixels belong to the event and lie on distinct panels |
| `PxdFilter.ColumnsLayout` | rootable/detectors/pxdFilter.py:262-283 | every column has one entry per cluster, taken from it; every cluster is marked unselected, from the PXD and from `fileName`; the twelve cluster columns come exactly when `processType == 'clusters'` |
| `PxdFilter.FilterErrors` | rootable/detectors/pxdFilter.py:209-222 | `_process` raises exactly when some event does, with IndexError (cell outside the plane) or KeyError (sensor not a panel) |
| `PxdFilter.FilterClusters` | rootable/detectors/pxdFilter.py:209-260 | on success the clusters come event by event in ascending order, at most one per sensor and event, at most 40 per event |
| `PxdFilter.Each` | rootable/detectors/pxdFilter.py:217-260 | entry a is what the a-th claimed triple opens |
| `PxdFilter.EachSnoc` | rootable/detectors/pxdFilter.py:217-260 | claiming one more triple appends what it opens |
| `PxdFilter.ClaimAdvance` | rootable/detectors/pxdFilter.py:218-222 | claiming triple k moves it from the claims to come to those made |
| `PxdFilter.WalkPixels` | rootable/detectors/pxdFilter.py:217-260 | the loop with `knownPixels` updated step by step yields what the claimed triples open, or KeyError exactly as `Claims` says |
| `PxdFilter.Opener` | rootable/detectors/pxdFilter.py:223-260 | triple q opens the window cluster of its pixel, with its sensor, in event i |
| `PxdFilter.WalkIsPixelLoop` | rootable/detectors/pxdFilter.py:217-260 | the walk with each triple opening its pixel's window is the pixel loop |
| `PxdFilter.EachOpened` | rootable/detectors/pxdFilter.py:217-260 | the claimed triples open the clusters of the pixel loop |
| `PxdFilter.ProcessEvent` | rootable/detectors/pxdFilter.py:209-260 | one event scatters onto a fresh plane and walks its non-zero pixels, giving `FilterEvent` |
| `PxdFilter.EventStep` | rootable/detectors/pxdFilter.py:209 | one more event appends its clusters, or its error is the whole pass's |
| `PxdFilter.Process` | rootable/detectors/pxdFilter.py:181-283 | `_process` computes `FilterSpec`: every event's clusters in order, in the layout `processType` asks for |
| `PxdFilter.FillMCData` | rootable/detectors/pxdFilter.py:168-179 | every column of `sampleData` becomes `sampleSize` zero entries like its first entry; an empty column raises IndexError |
| `FlatLadder.FlatStep` | rootable/detectors/pxdFilter.py:212 | the fancy-indexed write of one more digit changes only its own cell, to its charge (last writer wins) |
| `FlatLadder.FlatPlane` | rootable/detectors/pxdFilter.py:211-212 | the event's plane is 250 x 768 and every cell is the scatter's |
| `FlatLadder.Read` | rootable/detectors/pxdFilter.py:214 | reading the 2-D array gives its cells, with its row and column counts |
| `FlatLadder.ReadMatches` | rootable/detectors/pxdFilter.py:211-214 | after the scatter the array reads as the event's plane |
| `FlatLadder.ScatterLadder` | rootable/detectors/mcToClusters.py:209-210 | a fresh zeroed ladder is scattered exactly when every cell index fits the ladder; otherwise IndexError |
| `GenerateMatrices.LastAtNone` | build/lib/rootable/detectors/generateMatrices.py:17-47 | a cell no pixel of its cluster lands on keeps its 0 |
| `GenerateMatrices.LastAtIs` | build/lib/rootable/detectors/generateMatrices.py:47 | a cell holds the charge of the last pixel of its cluster that lands on it |
| `GenerateMatrices.SameSpotSamePixel` | build/lib/rootable/detectors/generateMatrices.py:29-44 | two pixels of one cluster landing on the same cell have the same (u, v) cell IDs |
| `GenerateMatrices.KeptPixelShown` | build/lib/rootable/detectors/generateMatrices.py:32-47 | with distinct cells every kept pixel shows its own charge |
| `GenerateMatrices.SeedAtCentre` | build/lib/rootable/detectors/generateMatrices.py:25-30 | the seed is always kept and lands at `matrixSize // 2` (transposed in 'vu'); with distinct cells the centre holds the cluster's maximum |
| `GenerateMatrices.SquareNeverMisplaced` | build/lib/rootable/detectors/generateMatrices.py:41-44 | with a square size no kept pixel leaves the matrix in either order |
| `GenerateMatrices.GetErrorIff` | build/lib/rootable/detectors/generateMatrices.py:11-49 | `get` raises exactly when there is no cluster, some cluster is empty, or a 'vu' pixel leaves a non-square matrix |
| `GenerateMatrices.NeverMisplacedUV` | build/lib/rootable/detectors/generateMatrices.py:41-42 | in the 'uv' order every kept pixel is inside the matrix |
| `GenerateMatrices.TransposedOverflow` | build/lib/rootable/detectors/generateMatrices.py:43-44 | a concrete 1 x 3, two-pixel cluster in 'vu' order makes `get` raise ValueError |
| `GenerateMatrices.Bound` | build/lib/rootable/detectors/generateMatrices.py:14-15 | a bound above every cluster length |
| `GenerateMatrices.Unique` | build/lib/rootable/detectors/generateMatrices.py:15 | `np.unique` is ascending, without repeats, and holds exactly the lengths that occur |
| `GenerateMatrices.Where` | build/lib/rootable/detectors/generateMatrices.py:20 | `np.where(lengthes == length)[0]` is ascending and holds exactly the clusters of that length |
| `GenerateMatrices.AfterConcat` | build/lib/rootable/detectors/generateMatrices.py:47 | writes done in two batches compose |
| `GenerateMatrices.AfterUntouched` | build/lib/rootable/detectors/generateMatrices.py:47 | writes to other matrices leave a cell alone |
| `GenerateMatrices.ClusterPutsTargets` | build/lib/rootable/detectors/generateMatrices.py:32-44 | a cluster writes only to its own matrix, and only inside it unless one of its pixels is misplaced |
| `GenerateMatrices.ClusterPutsAfter` | build/lib/rootable/detectors/generateMatrices.py:29-47 | drawing a cluster's writes over a zero cell gives the cluster's cell |
| `GenerateMatrices.GroupPutsAfter` | build/lib/rootable/detectors/generateMatrices.py:19-47 | a group's writes leave other matrices alone and draw each member's matrix as its own writes do |
| `GenerateMatrices.GroupPutsInside` | build/lib/rootable/detectors/generateMatrices.py:32-44 | without misplaced clusters a group writes only inside the output |
| `GenerateMatrices.GroupDrawn` | build/lib/rootable/detectors/generateMatrices.py:19-47 | after the pass of length `unique[g]` exactly the clusters of lengths up to it are drawn |
| `GenerateMatrices.Assign` | build/lib/rootable/detectors/generateMatrices.py:47 | the fancy assignment leaves every cell at the last write to it, or at its old value |
| `GenerateMatrices.DrawGroup` | build/lib/rootable/detectors/generateMatrices.py:19-47 | one pass draws its clusters and keeps the earlier ones drawn, or raises ValueError exactly when one of them is bad |
| `GenerateMatrices.Get` | build/lib/rootable/detectors/generateMatrices.py:11-49 | `get` raises exactly the error `GetError` names; otherwise it returns a fresh n x s0 x s1 array whose matrix k is cluster k drawn around its seed |
| `ClusterCoordinates.TablesParallel` | rootable/detectors/clusterCoordinates.py:13-76 | the ID, shift, rotation, layer and ladder tables all have 40 entries |
| `ClusterCoordinates.LayerSplit` | rootable/detectors/clusterCoordinates.py:75 | the first 16 sensors are in layer 1, the other 24 in layer 2 |
| `ClusterCoordinates.LayerFromID` | rootable/detectors/clusterCoordinates.py:13-17 | the layer table agrees with the sensor ID divided by 8192 |
| `ClusterCoordinates.LadderPairs` | rootable/detectors/clusterCoordinates.py:76 | sensors 2t and 2t + 1 share a ladder |
| `ClusterCoordinates.LayerPairs` | rootable/detectors/clusterCoordinates.py:75 | sensors 2t and 2t + 1 share a layer |
| `ClusterCoordinates.RotationPairs` | rootable/detectors/clusterCoordinates.py:68-72 | sensors 2t and 2t + 1 share a rotation |
| `ClusterCoordinates.ShiftPairs` | rootable/detectors/clusterCoordinates.py:22-64 | sensors 2t and 2t + 1 share the transverse shift; the first is shifted forward along z, the second backward |
| `ClusterCoordinates.LadderAscending` | rootable/detectors/clusterCoordinates.py:76 | ladder numbers grow from one pair to the next |
| `ClusterCoordinates.PairsAscendFar` | rootable/detectors/clusterCoordinates.py:76 | in a table of ascending pairs an earlier pair's value is smaller than a later one's |
| `ClusterCoordinates.SamePairIff` | rootable/detectors/clusterCoordinates.py:76 | in such a table two entries are equal exactly when they lie in the same pair |
| `ClusterCoordinates.LadderOnTwoSensors` | rootable/detectors/clusterCoordinates.py:76 | two sensors share a ladder number exactly when they form a pair |
| `ClusterCoordinates.RotMatrix` | rootable/detectors/clusterCoordinates.py:101-102 | the rotation matrix is 3 x 3 |
| `ClusterCoordinates.RowTimes` | rootable/detectors/clusterCoordinates.py:105 | one row of `np.matmul` has three entries |
| `ClusterCoordinates.Place` | rootable/detectors/clusterCoordinates.py:101-106 | the point (u, 0, v) rotated and shifted is (u cos + x shift, -u sin + y shift, v + z shift) for the sensor's angle in degrees |
| `ClusterCoordinates.Position` | rootable/detectors/clusterCoordinates.py:95-98 | the row of an ID in the table, or none exactly when no entry holds it |
| `ClusterCoordinates.PositionIff` | rootable/detectors/clusterCoordinates.py:98 | an ID's row is found exactly when the ID is in the table |
| `ClusterCoordinates.UniqueIndexed` | rootable/detectors/clusterCoordinates.py:79-83 | a table without repeats has every ID at its own row |
| `ClusterCoordinates.Rows` | rootable/detectors/clusterCoordinates.py:95 | entry i is the row of the i-th sensor ID |
| `ClusterCoordinates.HandledStep` | rootable/detectors/clusterCoordinates.py:95-106 | advancing past entry j adds it to the handled entries exactly when it belongs to the current sensor |
| `ClusterCoordinates.HandledRow` | rootable/detectors/clusterCoordinates.py:94 | finishing a sensor's entries is starting the next sensor |
| `ClusterCoordinates.FitsStep` | rootable/detectors/clusterCoordinates.py:104 | an entry of the current sensor that has both positions keeps the handled entries placeable |
| `ClusterCoordinates.SkippedStep` | rootable/detectors/clusterCoordinates.py:95-106 | passing over an entry of another sensor keeps every written position |
| `ClusterCoordinates.ClusterCoordinates.constructor` | rootable/detectors/clusterCoordinates.py:10-83 | the tables are the catalogue and both dictionaries hold one entry per panel ID |
| `ClusterCoordinates.ClusterCoordinates.Fill` | rootable/detectors/clusterCoordinates.py:79-83 | the loop fills both dictionaries from the tables, row by row, and changes no table |
| `ClusterCoordinates.ClusterCoordinates.InDictionaries` | rootable/detectors/clusterCoordinates.py:79-83 | both dictionaries hold exactly the IDs of the table |
| `ClusterCoordinates.ClusterCoordinates.CatalogueLookup` | rootable/detectors/clusterCoordinates.py:13-17 | with the catalogue the dictionaries accept exactly the 40 PXD panel IDs, and an ID's row is its position in `panelIDs` |
| `ClusterCoordinates.ClusterCoordinates.Layers` | rootable/detectors/clusterCoordinates.py:110-123 | `layers` raises KeyError exactly when some ID is not in the table, and otherwise returns each entry's layer and ladder |
| `ClusterCoordinates.ClusterCoordinates.CatalogueLayers` | rootable/detectors/clusterCoordinates.py:110-123 | with the catalogue every returned layer is the ID divided by 8192, and 1 exactly for the first 16 panels |
| `ClusterCoordinates.ClusterCoordinates.RowsMark` | rootable/detectors/clusterCoordinates.py:95 | `np.where(sensorIDs == sensorID)` marks exactly the entries holding that sensor's ID |
| `ClusterCoordinates.ClusterCoordinates.PlacedStep` | rootable/detectors/clusterCoordinates.py:106 | writing entry j's placed point keeps the written entries placed |
| `ClusterCoordinates.ClusterCoordinates.PlaceRow` | rootable/detectors/clusterCoordinates.py:94-106 | one sensor's pass places all its entries by its transform, or raises exactly when one of them has no u or v position |
| `ClusterCoordinates.ClusterCoordinates.PlaceEntry` | rootable/detectors/clusterCoordinates.py:104-106 | one entry of the current sensor is placed, or raises when it has no u or v position |
| `ClusterCoordinates.ClusterCoordinates.Get` | rootable/detectors/clusterCoordinates.py:85-108 | `get` raises IndexError exactly when an entry of a known sensor has no u or v position; otherwise every entry of a known sensor is placed by its transform and every other entry stays 0 |
| `ClusterCoordinates.ClusterCoordinates.RowRaises` | rootable/detectors/clusterCoordinates.py:104 | an entry of the sensor without a u or v position makes `get` fail |
| `ClusterCoordinates.ClusterCoordinates.GetResult` | rootable/detectors/clusterCoordinates.py:94-108 | after the last sensor every entry is handled and placed as expected |
| `ClusterCoordinates.ClusterCoordinates.CataloguePositions` | rootable/detectors/clusterCoordinates.py:85-108 | with the catalogue, z is the v position plus the sensor's z shift, and every entry not on a PXD panel stays at the origin |
| `FancyDict.Slot` | rootable/common/fancyDict.py:18 | a Python integer index is valid exactly when -n <= i < n, and then denotes a position congruent to it modulo n |
| `FancyDict.SlotIndex` | rootable/common/fancyDict.py:18 | indexing a column is reading the slot the index denotes, or IndexError |
| `FancyDict.Without` | rootable/common/fancyDict.py:138-139 | removing a name keeps exactly the other names, without repeats, and changes nothing when the name is absent |
| `FancyDict.Len` | rootable/common/fancyDict.py:123-124 | `len` is the number of columns |
| `FancyDict.NumRows` | rootable/common/fancyDict.py:141-144 | `numClusters` is the length of the first column in insertion order; IndexError on a table without columns |
| `FancyDict.Column` | rootable/common/fancyDict.py:16-17 | reading a column by name gives that column, or KeyError exactly when the name is absent |
| `FancyDict.RowAt` | rootable/common/fancyDict.py:18 | reading one position gives every column's entry there under the same names, or IndexError exactly when some column is too short |
| `FancyDict.PickAt` | rootable/common/fancyDict.py:18 | selecting positions gives the entries at those positions, in the order given |
| `FancyDict.Picked` | rootable/common/fancyDict.py:18 | selecting positions keeps the names and their order, gives every column one entry per position, or IndexError exactly when some position is outside some column |
| `FancyDict.RowIsPickedOne` | rootable/common/fancyDict.py:18 | reading one position agrees with selecting the one-element list of it: both fail together, and otherwise each column is the one entry |
| `FancyDict.Append` | rootable/common/fancyDict.py:45-48 | `set` keeps the table well formed |
| `FancyDict.AppendKeeps` | rootable/common/fancyDict.py:45-48 | `set` leaves every other column as it was |
| `FancyDict.AppendGrows` | rootable/common/fancyDict.py:45-48 | `set` keeps every name and extends the named column by the values |
| `FancyDict.AppendEffect` | rootable/common/fancyDict.py:45-48 | after `set` the column is the old one followed by the values, a new name comes last, and every other column is unchanged |
| `FancyDict.Extended` | rootable/common/fancyDict.py:54-57 | `extend` raises AssertionError exactly when some given column is not in the table; otherwise the names and their order are kept |
| `FancyDict.ExtendedColumn` | rootable/common/fancyDict.py:56-57 | after `extend` a column is the old one followed by the given one |
| `FancyDict.ExtendedColumns` | rootable/common/fancyDict.py:56-57 | after `extend` every column is the old one followed by its given values, if any |
| `FancyDict.Grown` | rootable/common/fancyDict.py:56-57 | extending a prefix of the given columns keeps the table's names |
| `FancyDict.Assigned` | rootable/common/fancyDict.py:28-30 | assigning a column raises IndexError on a table without columns and AssertionError exactly when the value is not as long as the first column; otherwise the column is replaced or added last and the others are kept |
| `FancyDict.AssignedKeepsShape` | rootable/common/fancyDict.py:28-30 | a successful column assignment keeps the table rectangular and its row count, and reads back as assigned |
| `FancyDict.CellAssigned` | rootable/common/fancyDict.py:31-34 | assigning an entry raises AssertionError for an unknown name and IndexError for a position outside the column; otherwise exactly that entry changes |
| `FancyDict.Put` | rootable/common/fancyDict.py:34 | replacing the entry at a Python index changes exactly the slot the index denotes |
| `FancyDict.Misfit` | rootable/common/fancyDict.py:38-39 | the first column in order, from m on, without an entry at the position |
| `FancyDict.MisfitFirst` | rootable/common/fancyDict.py:38-39 | the first misfit is the position before which all columns fit and at which one does not |
| `FancyDict.Written` | rootable/common/fancyDict.py:38-39 | writing a prefix of the columns keeps the table's names |
| `FancyDict.RowEffect` | rootable/common/fancyDict.py:35-39 | writing a row at one integer index raises AssertionError unless its keys are the table's names, and IndexError exactly when some column has no entry at the position; the names and order are kept |
| `FancyDict.RowEffectReadsBack` | rootable/common/fancyDict.py:35-39 | a row written without raising reads back as that row |
| `FancyDict.RowEffectPartial` | rootable/common/fancyDict.py:38-39 | when the write raises IndexError, the columns before the first misfit hold the row's entries and it and the later columns are unchanged |
| `FancyDict.Drop` | rootable/common/fancyDict.py:138-139 | popping removes exactly that column and its name, keeping the others |
| `FancyDict.Across` | rootable/common/fancyDict.py:159 | row i across the named columns, in the order named |
| `FancyDict.Stacked` | rootable/common/fancyDict.py:153-166 | `stack` raises KeyError for a missing column and ValueError for no columns or different lengths; otherwise `toKey` holds, row by row, the joined entries of the columns, and the other columns are kept |
| `FancyDict.PopAll` | rootable/common/fancyDict.py:169-171 | the pops raise only KeyError |
| `FancyDict.StackEffect` | rootable/common/fancyDict.py:146-171 | `stack` as a whole keeps the table well formed |
| `FancyDict.PopAllRemoves` | rootable/common/fancyDict.py:169-171 | popping distinct present columns succeeds and removes exactly them |
| `FancyDict.PopAllRepeated` | rootable/common/fancyDict.py:169-171 | naming a column twice makes the pops raise KeyError |
| `FancyDict.PopAllSkips` | rootable/common/fancyDict.py:169-171 | naming an absent column makes the pops raise KeyError |
| `FancyDict.StackRemovesSources` | rootable/common/fancyDict.py:146-171 | with `pop`, stacking distinct columns keeps the old columns and `toKey` less the stacked ones, so a `toKey` among them is lost too |
| `FancyDict.Narrow` | rootable/common/fancyDict.py:77-105 | one `mask &= ...` step raises KeyError for an unknown column and ValueError when it does not broadcast; otherwise a row stays exactly when it was in and passes the test |
| `FancyDict.MaskOf` | rootable/common/fancyDict.py:66-105 | the mask has one entry per row |
| `FancyDict.MaskMeaning` | rootable/common/fancyDict.py:66-105 | the mask is built exactly when every condition is usable, and a row is in it exactly when it passes every condition |
| `FancyDict.Kept` | rootable/common/fancyDict.py:109 | the positions a mask keeps, ascending, exactly those where it holds |
| `FancyDict.Filter` | rootable/common/fancyDict.py:109 | `values[mask]` holds the entries at the kept positions, in order |
| `FancyDict.KeptAll` | rootable/common/fancyDict.py:66 | an all-true mask keeps every position |
| `FancyDict.Filtered` | rootable/common/fancyDict.py:59-111 | `where` raises StopIteration on a table without columns; otherwise it keeps the names and never lengthens a column |
| `FancyDict.WhereRows` | rootable/common/fancyDict.py:59-111 | on a table with columns `where` succeeds exactly when the table is rectangular and every condition usable, and then holds exactly the rows passing every condition, in order |
| `FancyDict.WhereNothing` | rootable/common/fancyDict.py:59-111 | with no conditions `where` returns a rectangular table unchanged |
| `FancyDict.FilterAll` | rootable/common/fancyDict.py:109 | an all-true mask keeps a column as it is |
| `FancyDict.FancyDict.constructor` | rootable/common/fancyDict.py:8-9 | the object holds the given table, or an empty one |
| `FancyDict.FancyDict.Set` | rootable/common/fancyDict.py:41-48 | `set` changes the contents to `Append` of them |
| `FancyDict.FancyDict.Extend` | rootable/common/fancyDict.py:50-57 | `extend` raises AssertionError exactly as `Extended` does and otherwise changes the contents to it; on error nothing changes |
| `FancyDict.FancyDict.ExtendOne` | rootable/common/fancyDict.py:56-57 | one pass extends the next given column |
| `FancyDict.FancyDict.SetColumn` | rootable/common/fancyDict.py:28-30 | column assignment raises as `Assigned` does and otherwise changes the contents to it |
| `FancyDict.FancyDict.SetCell` | rootable/common/fancyDict.py:31-34 | entry assignment raises as `CellAssigned` does and otherwise changes the contents to it |
| `FancyDict.FancyDict.SetRow` | rootable/common/fancyDict.py:35-39 | row assignment at one integer index ends as `RowEffect` says, including the columns already written when it raises |
| `FancyDict.FancyDict.WriteOne` | rootable/common/fancyDict.py:38-39 | one pass writes the next column, or reports that it has no entry at the position |
| `FancyDict.FancyDict.Pop` | rootable/common/fancyDict.py:138-139 | `pop` returns the column and removes it, or raises KeyError and changes nothing |
| `FancyDict.FancyDict.Stack` | rootable/common/fancyDict.py:146-171 | `stack` ends as `StackEffect` says |
| `FancyDict.FancyDict.AllPresent` | rootable/common/fancyDict.py:154-156 | the check passes exactly when every named column exists |
| `FancyDict.FancyDict.PopEach` | rootable/common/fancyDict.py:169-171 | the pops end as `PopAll` says |
| `FancyDict.FancyDict.Where` | rootable/common/fancyDict.py:59-111 | `where` returns a new object holding `Filtered` of the contents, or its error, and leaves `self` unchanged |
| `FancyDict.FancyDict.Mask` | rootable/common/fancyDict.py:66-105 | the mask loop computes `MaskOf` |
| `FancyDict.FancyDict.FilterColumns` | rootable/common/fancyDict.py:108-109 | the filtering loop raises IndexError exactly when a column is not as long as the mask, and otherwise filters every column |
| `FancyDict.FancyDict.Rows` | rootable/common/fancyDict.py:18 | selecting positions returns a new object holding `Picked` of the contents, or IndexError |
| `FancyDict.GrownStep` | rootable/common/fancyDict.py:56-57 | one more given column is extended |
| `FancyDict.WrittenStep` | rootable/common/fancyDict.py:38-39 | one more column is written at the position |
| `FancyDict.WrittenPut` | rootable/common/fancyDict.py:38-39 | writing one more column puts the row's entry in it |
| `FancyDict.MaskStep` | rootable/common/fancyDict.py:69-105 | one more condition narrows the mask of the earlier ones |
| `FancyDict.FilterEach` | rootable/common/fancyDict.py:108-109 | filtering every column keeps the names |
| `FancyDict.FilterStep` | rootable/common/fancyDict.py:108-109 | one more column is filtered |
| `FancyDict.FilterDone` | rootable/common/fancyDict.py:108-109 | after the loop every column is filtered |
| `FancyDict.MaskSticks` | rootable/common/fancyDict.py:69-72 | once a condition makes the mask raise, the whole mask raises with that error |
| `Pxd.ClusterKeysFacts` | rootable/detectors/pxd.py:98-113 | the cluster branch names start with the charge and none of them is a name the loader adds itself (event number, mark, file name) |
| `Pxd.EventPieces` | rootable/detectors/pxd.py:132-134 | piece i of the event-number list is `i + offset` repeated once per cluster of event i |
| `Pxd.EventNumbersOf` | rootable/detectors/pxd.py:128-135 | the concatenation fails with ValueError exactly when there are no events |
| `Pxd.EventNumbersShape` | rootable/detectors/pxd.py:132-135 | the event numbers are as many as the clusters summed over events, never decrease, and each lies in `[offset, offset + events)` |
| `Pxd.EventNumbersAt` | rootable/detectors/pxd.py:132-135 | cluster j of event i, at the position after all clusters of earlier events, gets the number `i + offset` |
| `Pxd.Pick` | rootable/detectors/pxd.py:184-188 | indexing a row by a list of indices succeeds exactly when each index is a valid Python index, and then yields the indexed cells in order |
| `Pxd.GatheredFails` | rootable/detectors/pxd.py:181-188 | the gather raises IndexError exactly when some relation entry of some event indexes out of range |
| `Pxd.GatheredShape` | rootable/detectors/pxd.py:181-188 | a successful gather has one list per relation entry, in event then entry order, each as long as its entry |
| `Pxd.GatheredAt` | rootable/detectors/pxd.py:181-188 | the list for entry j of event e sits after the entries of the earlier events and is the event's cells picked by that entry |
| `Pxd.GatherEvent` | rootable/detectors/pxd.py:184-188 | the loop over one event's relation entries yields the u, v and charge picks, or nothing exactly when one of them fails |
| `Pxd.GatherDigits` | rootable/detectors/pxd.py:169-192 | the loop over events yields the three gathered columns exactly when all three gathers succeed, and IndexError otherwise |
| `Pxd.SetAll` | rootable/detectors/pxd.py:100-106 | setting each named column in turn keeps the table rectangular-by-column, keeps every old name and adds the new ones |
| `Pxd.SetAllEffect` | rootable/detectors/pxd.py:100-106 | each named column becomes its old contents followed by the new values; every other column is unchanged and no name appears or disappears |
| `Pxd.Count` | rootable/detectors/pxd.py:112-113 | repeating a list by a negative count gives the empty list, otherwise the count itself |
| `Pxd.Present` | rootable/detectors/pxd.py:100-101 | the lookups get through exactly the names at the head of the list that have a column, stop at the first name without one, and reach the end exactly when no name is missing |
| `Pxd.SetEach` | rootable/detectors/pxd.py:100-101 | the `set` loop succeeds exactly when every name has a column and then sets them all; otherwise it raises KeyError |
| `Pxd.ClusterSetStage` | rootable/detectors/pxd.py:96-106 | KeyError exactly when the reconstruction read in place of the cluster branches lacks a name read; otherwise every name read has a column, the charges become the old ones followed by the selected ones, and the marks and file names are not touched |
| `Pxd.SelectedErrors` | rootable/detectors/pxd.py:96-108 | the selected part fails exactly when the reconstruction read lacks a name (KeyError) or the branches hold no event (ValueError), and then leaves the count as it was |
| `Pxd.Unselected` | rootable/detectors/pxd.py:117-123 | the table of clusters outside the regions of interest is a well-formed table |
| `Pxd.UnselectedColumns` | rootable/detectors/pxd.py:117-123 | that table holds the outside charges, one `roiSelected = False` mark and one file name per outside cluster |
| `Pxd.UnselectedFits` | rootable/detectors/pxd.py:121-124 | its column names are among those the selected part has already set, so the `extend` cannot fail |
| `Pxd.Tagged` | rootable/detectors/pxd.py:112-113 | marking and naming the added rows keeps the table well-formed |
| `Pxd.TaggedStage` | rootable/detectors/pxd.py:112-113 | marking appends exactly `added` `roiSelected = True` marks and `added` copies of the file name, leaving the charges alone |
| `Pxd.EventsStage` | rootable/detectors/pxd.py:107-108 | adding the event numbers fails with ValueError exactly when the branches hold no event, and otherwise adds the event-number column without touching charges, marks or names |
| `Pxd.MarkedStage` | rootable/detectors/pxd.py:110-113 | the count becomes the new charge-column length and the marks grow by exactly the difference to the old count |
| `Pxd.SelectedBookkeeping` | rootable/detectors/pxd.py:96-113 | the selected part fails with ValueError exactly when the branches hold no event, and otherwise with KeyError exactly when the reconstruction read in their place lacks a name, leaving the count in both cases; on success the new charges follow the old ones, the count grows by their number, and each is marked selected |
| `Pxd.SelectedMarked` | rootable/detectors/pxd.py:96-113 | the successful case of the selected part, with the same charge, count and mark conclusions |
| `Pxd.UnselectBookkeeping` | rootable/detectors/pxd.py:119-124 | extending by the unselected table never fails once the selected part has run, appends its charges and marks, and raises the count by its row number |
| `Pxd.OutsideBookkeeping` | rootable/detectors/pxd.py:115-124 | line 118 raises KeyError exactly when the outside reconstruction lacks a name read, leaving the table and count as the selected part left them; otherwise the outside clusters follow those already loaded, are counted, and are marked unselected |
| `Pxd.ClustersOutcome` | rootable/detectors/pxd.py:89-126 | `getClusters` raises ValueError exactly when the cluster branches hold no event, and otherwise KeyError exactly when a reconstruction it reads (inside, or outside when asked for) lacks one of the names read; the `extend` never fails |
| `Pxd.CorrectedReads` | rootable/detectors/clustersFromDigits.py:241-254 | every reconstruction holding the twelve names the builder returns has all the cluster names the corrected reading asks for, inside and outside |
| `Pxd.CorrectedOutcome` | rootable/detectors/pxd.py:89-126 | read with only the names a reconstruction has, `getClusters` fails exactly when the cluster branches hold no event, and then with ValueError |
| `Pxd.AsWrittenLacks` | rootable/detectors/pxd.py:100-101 | a reconstruction holding exactly the twelve names the builder returns has no `uStart`, so it lacks a name of the as-written reading |
| `Pxd.AsWrittenInside` | rootable/detectors/pxd.py:97-101 | without the PXDClusters branches, the as-written `getClusters` raises KeyError after setting the first five cluster columns, with the count untouched |
| `Pxd.AsWrittenOutside` | rootable/detectors/pxd.py:110-118 | with includeUnselected and the PXDDigitsOUT branches present, the as-written `getClusters` raises KeyError at line 118 after the selected clusters are counted and marked |
| `Pxd.ClustersCounted` | rootable/detectors/pxd.py:110-124 | after a successful `getClusters` the count equals the number of cluster rows, marks and file names, grown by the selected plus outside clusters |
| `Pxd.ClustersCharges` | rootable/detectors/pxd.py:98-124 | the charge column becomes the old charges, then the selected ones, then the outside ones; nothing guards against loading twice |
| `Pxd.OutsideCharges` | rootable/detectors/pxd.py:115-124 | the charge conclusion in the case where outside clusters are loaded |
| `Pxd.ClustersMarks` | rootable/detectors/pxd.py:110-124 | the mark column becomes the old marks, then one True per selected cluster, then one False per outside cluster |
| `Pxd.OutsideMarks` | rootable/detectors/pxd.py:115-124 | the mark conclusion in the case where outside clusters are loaded |
| `Pxd.DigitTable` | rootable/detectors/pxd.py:196-197 | the outside digit table holds exactly the digit column names |
| `Pxd.DigitColumns` | rootable/detectors/pxd.py:164-192 | a successful digit source provides a value list for every digit column name |
| `Pxd.DigitsSet` | rootable/detectors/pxd.py:164-192 | setting the digit columns keeps the table well-formed |
| `Pxd.DigitsOutcome` | rootable/detectors/pxd.py:151-200 | `getDigits` raises IndexError exactly when the gather meets an out-of-range entry, and then leaves the table unchanged |
| `Pxd.DigitsRows` | rootable/detectors/pxd.py:164-198 | after a successful `getDigits` each digit column is its old contents, then the gathered digits, then the outside digits when they were asked for |
| `Pxd.DigitsKeep` | rootable/detectors/pxd.py:151-200 | `getDigits` leaves every other column and its presence unchanged |
| `Pxd.MatricesEffect` | rootable/detectors/pxd.py:214-227 | a failed generation changes nothing; a successful one adds the matrix column, and the digit columns are then removed exactly when popping is asked for, and kept as they were otherwise |
| `Pxd.MatricesRestoreDigits` | rootable/detectors/pxd.py:202-228 | a successful `getMatrices` leaves the digit flag as it found it; digits it loaded itself are popped again, digits already there are left as they were; a failure before loading changes nothing |
| `Pxd.PXD.constructor` | rootable/detectors/pxd.py:13-80 | a new reader has nothing loaded, a zero count, and the given table or an empty one |
| `Pxd.PXD.SetColumns` | rootable/detectors/pxd.py:100-106 | the `set` loop leaves the table and outcome as `SetEach` of the old table: KeyError at the first name without a column, after the names before it are set |
| `Pxd.PXD.EventNumbers` | rootable/detectors/pxd.py:128-135 | `_getEventNumbers` fails exactly when `EventNumbersOf` does, and otherwise appends its numbers as the event-number column |
| `Pxd.PXD.NumberEvents` | rootable/detectors/pxd.py:102-108 | the event-number step leaves the table as `WithEvents` of the old one, or unchanged on ValueError |
| `Pxd.PXD.MarkSelected` | rootable/detectors/pxd.py:110-113 | the new count and table are those of `Marked` on the old table |
| `Pxd.PXD.Tag` | rootable/detectors/pxd.py:112-113 | the table becomes `Tagged` of the old one |
| `Pxd.PXD.AddUnselected` | rootable/detectors/pxd.py:115-124 | the table and count become those of `Unselect` on the old table |
| `Pxd.PXD.LoadSelected` | rootable/detectors/pxd.py:96-113 | the outcome, table and count are those of `SelectedLoaded` on the old state |
| `Pxd.PXD.LoadClusters` | rootable/detectors/pxd.py:96-124 | the outcome, table and count are those of `ClustersLoaded` on the old state |
| `Pxd.PXD.GetClusters` | rootable/detectors/pxd.py:89-126 | `getClusters` leaves the state as `ClustersLoaded` of the old one and raises the cluster flag exactly when it succeeds |
| `Pxd.PXD.SetDigits` | rootable/detectors/pxd.py:164-192 | the table and outcome are those of `DigitsSet` on the old table |
| `Pxd.PXD.ExtendDigits` | rootable/detectors/pxd.py:194-198 | the table and outcome are those of the outside-digit extension of the old table |
| `Pxd.PXD.GetDigits` | rootable/detectors/pxd.py:151-200 | `getDigits` leaves the table as `DigitsLoaded` of the old one, keeps the count, and raises the digit flag exactly when it succeeds |
| `Pxd.PXD.LoadDigits` | rootable/detectors/pxd.py:164-198 | the table and outcome are those of `DigitsLoaded` on the old table |
| `Pxd.PXD.MakeMatrices` | rootable/detectors/pxd.py:214-226 | the table and outcome are those of `Matrices` on the old table |
| `Pxd.PXD.GetMatrices` | rootable/detectors/pxd.py:202-228 | `getMatrices` leaves table and digit flag as `MatricesLoaded` of the old ones, keeps the count, and raises the matrix flag exactly when it succeeds |
| `Pxd.PXD.LoadMatrices` | rootable/detectors/pxd.py:209-227 | the table, outcome and digit flag are those of `MatricesLoaded` on the old state |
| `Rootable.Find` | build/lib/rootable/rootable.py:103 | the position `partition` cuts at is the first occurrence of the separator, or none exactly when it does not occur |
| `Rootable.FindFirst` | build/lib/rootable/rootable.py:103 | any position holding the first occurrence is the one found |
| `Rootable.PartitionSplits` | build/lib/rootable/rootable.py:103 | the part before has no colon; with a colon the argument is before, colon, after, and without one the whole argument is before and after is empty |
| `Rootable.SplitSpecShape` | build/lib/rootable/rootable.py:103-107 | for every argument the file part has no colon and ends in ".root", and the tree name is never empty |
| `Rootable.SplitSpecRoundTrip` | build/lib/rootable/rootable.py:103-107 | a file already ending in ".root" joined to a tree name by a colon splits back into exactly those parts; the file alone gives the tree "tree" |
| `Rootable.SplitSpecAddsSuffix` | build/lib/rootable/rootable.py:104-107 | a file without the suffix gets ".root" appended once and the tree "tree" |
| `Rootable.AnsweredCons` | build/lib/rootable/rootable.py:129-130 | the first n + 1 calls return exactly when the first does and the next n return after it |
| `Rootable.SentAll` | build/lib/rootable/rootable.py:129-130 | a loader loop finishes exactly when every call returns, and then has made all the calls in order |
| `Rootable.StoppedAtCons` | build/lib/rootable/rootable.py:129-130 | stopping at call k of the rest is stopping at call k + 1 when the first call returned |
| `Rootable.SentStops` | build/lib/rootable/rootable.py:129-130 | a loop that raises has made the calls up to the first one that raises and raises its exception |
| `Rootable.ClusterCallsZip` | build/lib/rootable/rootable.py:129-130 | `zip` pairs the i-th tree with the i-th file name and stops at the shorter list |
| `Rootable.NamesTreesSplit` | build/lib/rootable/rootable.py:102-114 | the names and trees recorded for a list of arguments are those of the first argument followed by those of the rest |
| `Rootable.AllOpenCons` | build/lib/rootable/rootable.py:112-114 | the first n + 1 arguments open exactly when the first opens and the next n open after it |
| `Rootable.OpenFromAll` | build/lib/rootable/rootable.py:102-114 | `open` finishes exactly when every argument's tree opens, and then has recorded one name and one tree per argument, in order |
| `Rootable.OpenStoppedAtCons` | build/lib/rootable/rootable.py:102-123 | stopping at argument k of the rest is stopping at argument k + 1 when the first opened |
| `Rootable.OpenFromStops` | build/lib/rootable/rootable.py:109-123 | a failing `open` stops at the first argument that fails, with its name recorded but not its tree, and raises its error |
| `Rootable.OpenOptions` | build/lib/rootable/rootable.py:96-101 | `open` sets `multiplyFiles` exactly when more than one file is given, records the includeUnselected option, and keeps the load flags and the calls made |
| `Rootable.OpenRecords` | build/lib/rootable/rootable.py:92-124 | `open` succeeds exactly when every argument opens; then the i-th name is the argument's base name and the i-th tree is the one its split names; on failure exactly one name has no tree |
| `Rootable.RanSpec` | build/lib/rootable/rootable.py:125-186 | a loader run appends its calls to the log as they are made, sets the loaded flags exactly when none raised, and leaves trees, names and options alone |
| `Rootable.GuardedLoaders` | build/lib/rootable/rootable.py:125-139 | `getClusters` and `getDigits` with their flag set change nothing; otherwise a successful call forwarded each tree (with its file name for clusters) in order and set its flag |
| `Rootable.RanIgnoresFlags` | build/lib/rootable/rootable.py:141-186 | a run makes the same calls and gets the same answer whatever the flags were |
| `Rootable.MatricesUnguarded` | build/lib/rootable/rootable.py:141-149 | `getMatrices` behaves the same whether or not its flag was already set: the warning does not stop it |
| `Rootable.CoordinatesUnguarded` | build/lib/rootable/rootable.py:151-159 | `getCoordinates` behaves the same whether or not its flag was already set |
| `Rootable.LayersUnguarded` | build/lib/rootable/rootable.py:171-179 | `getLayers` behaves the same whether or not its flag was already set |
| `Rootable.MCDataUnguarded` | build/lib/rootable/rootable.py:181-186 | `getMCData` behaves the same whether or not its flag was already set |
| `Rootable.LoadersSetFlags` | build/lib/rootable/rootable.py:141-186 | a loader that raised nothing has set its own flag and no other |
| `Rootable.CountsAgree` | build/lib/rootable/rootable.py:59-68 | `numEvents` and `numClusters` raise KeyError exactly when their column is missing; with one event number per cluster there are no more events than clusters |
| `Rootable.NumClustersIsNumRows` | build/lib/rootable/rootable.py:66-68 | `numClusters` agrees with the table's row count when the charge column comes first |
| `Rootable.Rootable.constructor` | build/lib/rootable/rootable.py:17-30 | a new object has one `None` tree, no file opened, no calls made and every flag cleared |
| `Rootable.Rootable.Send` | build/lib/rootable/rootable.py:129-130 | the loop of calls extends the log and raises as `Sent` says, and changes nothing else |
| `Rootable.Rootable.Run` | build/lib/rootable/rootable.py:125-186 | the state after a loader body is `Ran` of the old state |
| `Rootable.Rootable.Open` | build/lib/rootable/rootable.py:92-124 | the state and outcome after `open` are `AfterOpen` of the old state |
| `Rootable.Rootable.GetClusters` | build/lib/rootable/rootable.py:125-131 | the state and outcome are `AfterClusters` of the old state |
| `Rootable.Rootable.GetDigits` | build/lib/rootable/rootable.py:133-139 | the state and outcome are `AfterDigits` of the old state |
| `Rootable.Rootable.GetMatrices` | build/lib/rootable/rootable.py:141-149 | the state and outcome are `AfterMatrices` of the old state and the given `matrixSize`, which defaults to (9, 9) |
| `Rootable.MatricesPassSize` | build/lib/rootable/rootable.py:141-148 | every call `getMatrices` makes passes on its `matrixSize` and the includeUnselected flag; without the digits there is one call per tree in order, with them a single call without a tree |
| `Rootable.SentPrefix` | build/lib/rootable/rootable.py:146-148 | a loader loop logs a prefix of its calls, all of them when none raised |
| `Rootable.Rootable.GetCoordinates` | build/lib/rootable/rootable.py:151-159 | the state and outcome are `AfterCoordinates` of the old state |
| `Rootable.Rootable.GetLayers` | build/lib/rootable/rootable.py:171-179 | the state and outcome are `AfterLayers` of the old state |
| `Rootable.Rootable.GetSphericals` | build/lib/rootable/rootable.py:161-169 | the state and outcome are `AfterSphericals` of the old state: AttributeError as soon as a call would be made |
| `Rootable.Rootable.GetMCData` | build/lib/rootable/rootable.py:181-186 | the state and outcome are `AfterMCData` of the old state |

## Findings

| source | as written | input that shows it | evidently intended | confidence | as-written member | corrected member |
|---|---|---|---|---|---|---|
| rootable/detectors/mcToClusters.py:230 | `MCtoDigits._process` calls `extractMatrix(matrixLadder, x, y)` with three arguments. `extractMatrix` requires four (`eventNumber` has no default), so the call raises TypeError. It also unpacks three of the five values `extractMatrix` returns. | any event with at least one digit on a panel, e.g. one digit (u, v, id) = (10, 20, 8480) with charge 5 and relation -1 | call `extractMatrix` with the event number and take its first three results, so that every digit not yet covered yields a truth row | not executed | `McToClusters.AsWrittenEvent`, `McToClusters.AsWrittenYieldsNothing` | `McToClusters.CorrectedKeepsFirstDigit`, `McToClusters.CorrectedWalkErrors`, `McToClusters.CorrectedEventErrors` |
| rootable/detectors/pxd.py:101 | `getClusters` reads a reconstruction from `clustersFromDigits.get` with all ten cluster names (line 101, and line 118 for the outside part), but the reconstruction has no `uStart` or `vStart` (clustersFromDigits.py:241-254). | a tree without the PXDClusters branches: KeyError 'uStart' after five columns are set; or, with includeUnselected and the PXDDigitsOUT branches present, KeyError at line 118 after the selected clusters are counted | read a reconstruction with only the cluster names it has, so that `getClusters` fails only on a tree without events | not executed | `Pxd.AsWrittenInside`, `Pxd.AsWrittenOutside`, `Pxd.AsWrittenLacks` | `Pxd.CorrectedReads`, `Pxd.CorrectedOutcome`, `Pxd.ClustersCounted`, `Pxd.ClustersCharges`, `Pxd.ClustersMarks` |
| rootable/detectors/pxdFilter.py:242 | the window is rolled unless its first maximum is at (4, 0): the test compares the column with 0, not with the centre column 4 | a 9 x 9 window whose only charged pixel is at (4, 0): it is not rolled, and `matrix[4, 4]` is 0 instead of the maximum | skip the roll only when the maximum is already at (4, 4), so that the seed charge is always the maximum | not executed | `PxdFilter.RecentreSkipsFourZero` | `PxdFilter.RecentreIntendedSeed`, `PxdFilter.RecentreAtSeed`, `PxdFilter.RecentreSeed` |

## Left out

- File and tree I/O through uproot is not modelled. `open` receives an `opens` parameter that says whether a file/tree pair opens; the loaders receive the branches of a tree as values (`Pxd.Tree`, the digit and truth records).
- `os.path.basename`/`splitext` is a parameter `baseName` of `Rootable.Open`. Path syntax is platform code.
- The `warnings.warn` calls are not modelled: they have no effect on the state.
- The branch-name tables and `branches()` are not modelled. They are string bookkeeping, and the missing-branch tests become `Option` fields of `Pxd.Tree`.
- Rootable: the object holds no `PXD` object. Every forwarded call is logged, and the PXD's answer is a parameter `respond`. The effect of each call on the columns is what the `Pxd` module proves.
- FancyDict.RowEffect, FancyDict.FancyDict.SetRow: only a row write at one integer index is modelled. The array, slice and boolean-mask row writes that `self.data[key][index] = value[key]` also accepts (rootable/common/fancyDict.py:35-39), with numpy's broadcasting and its last-writer-wins rule for repeated indices, are not. Row reads at a list of indices are modelled (`FancyDict.Picked`).
- Rootable.MatricesUnguarded, Rootable.CoordinatesUnguarded, Rootable.LayersUnguarded, Rootable.MCDataUnguarded: these compare only the outcome and the calls made, not the flag each loader sets afterwards, which `Rootable.LoadersSetFlags` states.
- `Rootable.where`, `data`, `__repr__`, `__iter__`, `__len__`, `__getitem__`, `particles`, `keys`, `items`, `values`, `get`, `pop`, `stack`, `asStructuredArray` and `asDict` are not modelled. They delegate to the table, whose operations `FancyDict` models, or build numpy structured arrays.
- The `data` argument of `Rootable.__init__` (build/lib/rootable/rootable.py:17) is ignored by the source. The model's constructor takes none.
- Rootable.GetSphericals: `PXD` has no `getSphericals` method, so the loader raises AttributeError as soon as it would make a call. The model states that instead of a spherical transform. `ClusterCoordinates.sphericals` (square root, arccos, arctan) is floating-point code and is not modelled.
- `PXD.getCoordinates`, `PXD.getLayers` and `PXD.getMCData` (rootable/detectors/pxd.py:230-274) are not methods of `Pxd.PXD`. They pass `ClusterCoordinates.get`/`layers` or the truth loaders straight to `set`. Those parts are modelled in `ClusterCoordinates` and `McToClusters`, and the calls are logged by `Rootable`.
- Floating-point values (positions, shifts, momenta) are `real`, or an opaque payload type where they are only copied. Rounding is not modelled, and cos/sin of the rotation angles are a parameter `Trig`. So `ClusterCoordinates` proves which entries are written and the z coordinate, not the numeric x/y values.
- `_pixelToUV` (the polynomial calibration) and `genCluster` are function parameters. The body of `genCluster` is not part of this model; only its result shape is used.
- The `where` condition strings (regular-expression parsing and `eval` of a comparison) are modelled as `FancyDict.Condition` values: a column name and a test on its entries.
- Pxd: `_getData` returns (not raises) the `KeyError` class when `np.hstack` fails on a tree without events. The model stacks nothing there. The call still raises ValueError at the event numbers, as in the source, but the column contents left behind by that failed call differ.
- Pxd: `np.array(..., dtype=object)` of gathered cell lists that all have the same length builds a 2-D array in numpy. The model keeps one list per cluster, so it does not capture what follows from the 2-D array: `np.vectorize(len)` then raises TypeError on the integer entries (build/lib/rootable/detectors/generateMatrices.py:14), and a later `set` or `extend` of a differently shaped column raises ValueError in `np.concatenate`.
- Pxd: the truthiness test `if eventTree` in `getMatrices` is modelled as "a tree was given" (`Some`). A tree that tests false is not modelled.
- Pxd: the reconstruction `clustersFromDigits.get` returns is a value of `Pxd.Tree` (`inROI`, `outROI`); the model does not re-derive it from the digits here. The cluster lemmas require that it holds at least the twelve names the builder returns (`Pxd.Reconstructed`, clustersFromDigits.py:241-254), and the digit loaders only that it holds the three digit columns (`Pxd.DigitsShaped`).
- Pxd: the cluster loaders take a parameter `call` of type `Pxd.Takeover`. `AsWritten` reads a reconstruction with all ten cluster names, as lines 100-101 and 118 do; `Corrected` reads it with the eight names it has. The `PXD` methods are proved for both; the lemmas about the as-written reading are the Findings row for line 101.
- Pxd: `generateMatrices.get` is a parameter `generate` of `Pxd.Matrices`. `GenerateMatrices` models what it computes on integer matrices, but the column values are not converted between the two.
- Inputs that the source reads as parallel numpy arrays of one event (u, v, charge, sensor) are zipped into one sequence of digits, so unequal lengths cannot be expressed. Where two independent lists must be parallel, as with truth tables and links or the uPositions/vPositions/sensorIDs columns, a length mismatch is modelled as the IndexError numpy raises.
- GenerateMatrices.Get: the charge and cell-ID columns must be aligned, with one u and one v ID per charge (`Aligned`). numpy's error on misaligned columns is not modelled.
- Concurrency is not modelled: the source is single-threaded.
