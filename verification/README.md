# ParaView-to-ABR support scripts, modelled in Dafny

This project models the Unity support scripts of the CSCI 5606/5609 "ParaView to ABR" course
repository. These scripts sit between the ABR (Artifact-Based Rendering) engine and a Unity scene:

- **Data accessors** (`ABRVolumeDataAccessor`, `ABRLineDataAccessor`, `ABRSurfaceDataAccessor`).
  - Each picks "its" data impression from those the engine reports, re-running the choice every frame.
  - Each answers data queries against that impression:
    - voxel reads, nearest-voxel reads and trilinear reads in a volume;
    - the closest line, lines within a radius and per-line averages;
    - the closest surface vertex's scalar.
  - Each normalises values against a variable's range.
  - The volume and line accessors also maintain a per-voxel or per-line visibility mask.
- **`ColorMap`**: a list of control points kept sorted by data value.
  - A colour is looked up by CIELAB interpolation between the two points that bracket a value.
  - Options: a custom data range and a special colour for values outside the map.
  - The list is filled by sampling a texture or a colour-map asset, or by adding parsed XML points.
- **Timestep navigation**.
  - `TimestepAnimationController` walks a ring of timestep numbers and notifies listeners.
  - `ABRTimestepSelector` loads one KeyData per timestep whose data file exists. Every frame it points the template impressions at the current timestep's KeyData.
  - Both jump to a listed timestep on request. An unlisted number moves to the nearest entry, the lowest index winning ties, unless entry 0 is nearest or tied for nearest; then nothing changes (see Findings).
- **Per-frame behaviours**.
  - `VolumeDataProbe` detects entering and leaving the volume and latches the value under the probe.
  - `SetScaleFromData` scales an object by a clamped linear interpolation.
  - `BounceObject` moves an object up and down between two heights and colours it by height.

## How the model is organised

Each core script has its own module. Four shared modules carry logic that several scripts repeat:

- `ImpressionSelection`: the selection loop of the three accessors.
- `TimestepIndex`: the timestep list, the ring index and the nearest-entry scan.
- `RangeNormalizer`: the `(v - min) / (max - min)` normalisation.
- `UnityMath`: the Mathf and Vector3 operations used.

Modelling conventions:

- **Numbers.** C# `float` is modelled as `real`. Distances are compared as squared distances, because the square root is monotone and so preserves every comparison.
- **Engine and library calls become parameters.**
  - The engine's impression list is a sequence.
  - The CIELAB conversions are the functions `toLab` and `fromLab`.
  - Texture and asset sampling are the functions `pixelBilinear` and `colorInterp`.
  - The data-file check is `fileExists`.
- **Events and warnings.**
  - UnityEvents are recorded as sequences or counters.
  - `ABREngine.Render` calls are counted in `renderRequests`.
  - Only the warnings that follow from the state are counted: each accessor's ambiguous-selection warning, the selector's missing-impression warning, the colour map's empty-map and not-found warnings (on `BounceObject`'s per-frame lookups too, returned as `colorMapWarned`), and the probe's missing-accessor warning. Other logging is not modelled, for example the surface accessor's per-candidate log of key-data paths.
- **Exceptions.** Where the source would throw, the model either reports a flag (`indexError`, `materialMissing`) or states the condition as a precondition.

## Model

| member | source | states |
|---|---|---|
| ImpressionSelection.SelectImpression | Assets/Scripts/ABRVolumeDataAccessor.cs:442-476 | The choice is the single candidate whatever its path; among several, the last candidate whose path matches (prefix or exact, by the flag), with no later match; otherwise none. The warning is raised exactly when several candidates exist and none matches. |
| ImpressionSelection.SelectionIsUnique | Assets/Scripts/ABRVolumeDataAccessor.cs:452-463 | At most one choice meets the selection rule, so the rule determines the selected impression. |
| ImpressionSelection.ExactChoiceSurvivesPrefixMode | Assets/Scripts/ABRVolumeDataAccessor.cs:459-461 | Among several candidates, turning the suffix flag on never loses a match. Prefix mode chooses the exact-mode choice or a later candidate. |
| VolumeAccessor.MinDataValue | Assets/Scripts/ABRVolumeDataAccessor.cs:49-57 | The sentinel when no data are available. |
| VolumeAccessor.MaxDataValue | Assets/Scripts/ABRVolumeDataAccessor.cs:62-70 | The sentinel when no data are available. |
| VolumeAccessor.MulIsProduct | Assets/Scripts/ABRVolumeDataAccessor.cs:354 | Repeated addition equals the product used in the voxel index. |
| VolumeAccessor.LinearIndexIsProduct | Assets/Scripts/ABRVolumeDataAccessor.cs:354 | The voxel index is `x + y*nx + z*nx*ny`. |
| VolumeAccessor.GetValueAtVoxel | Assets/Scripts/ABRVolumeDataAccessor.cs:348-362 | Gives the data-array entry at the linear index exactly when data are available and the index lies in the array. Otherwise it gives the sentinel. |
| VolumeAccessor.LinearIndexRoundTrip | Assets/Scripts/ABRVolumeDataAccessor.cs:354 | Inside the grid, the index lies in `[0, nx*ny*nz)`. `x`, `y` and `z` are recovered from it by remainder and division. |
| VolumeAccessor.LinearIndexInjective | Assets/Scripts/ABRVolumeDataAccessor.cs:354 | Distinct voxels inside the grid have distinct indices. |
| VolumeAccessor.VoxelInGridIsRead | Assets/Scripts/ABRVolumeDataAccessor.cs:348-362 | On a well-formed grid, every voxel inside the grid reads its own stored value and never the sentinel. |
| VolumeAccessor.XOverflowAliasesNextRow | Assets/Scripts/ABRVolumeDataAccessor.cs:354-358 | There is no per-axis check, so `x = nx` reads the same as `(0, y + 1, z)`. |
| VolumeAccessor.NearestVoxel | Assets/Scripts/ABRVolumeDataAccessor.cs:337-339 | On a grid with no empty axis, the rounded and clamped voxel always lies inside the grid. |
| VolumeAccessor.GetValueAtNearestVoxel | Assets/Scripts/ABRVolumeDataAccessor.cs:333-343 | Gives the sentinel unless data are available and every coordinate lies in `[0, dim)`. Otherwise it reads a voxel inside the grid that is within one voxel below, or half a voxel above, the point on each axis. |
| VolumeAccessor.NearestVoxelReadsStoredValue | Assets/Scripts/ABRVolumeDataAccessor.cs:333-343 | For a contained point on a well-formed grid, the nearest read is one of the stored values. |
| VolumeAccessor.TrilinearCell | Assets/Scripts/ABRVolumeDataAccessor.cs:285-290 | Floor indices are at least 0, ceil indices at most `dim - 1`, and fractions at least 0. Inside the grid, the cell's low corner and fraction add up to the point, and the high corner is the next voxel or, at a whole coordinate, the same one. |
| VolumeAccessor.CornerValues | Assets/Scripts/ABRVolumeDataAccessor.cs:293-300 | Gives each of the eight corner reads as written. At z = zCeil the x indices are swapped: `v001` and `v011` read xCeil, `v101` and `v111` read xFloor. |
| VolumeAccessor.GetValueAtVoxelSpacePoint | Assets/Scripts/ABRVolumeDataAccessor.cs:283-326 | The sentinel when no data are available. |
| VolumeAccessor.TrilinearAtVoxelIsExact | Assets/Scripts/ABRVolumeDataAccessor.cs:283-326 | At the integer coordinates of a voxel inside the grid, all corners coincide and trilinear sampling equals the voxel read. |
| VolumeAccessor.TrilinearCentreIsMean | Assets/Scripts/ABRVolumeDataAccessor.cs:293-325 | At (0.5, 0.5, 0.5), sampling gives the mean of the eight voxels of the first cell. |
| VolumeAccessor.CellAtCentre | Assets/Scripts/ABRVolumeDataAccessor.cs:285-290 | The cell at (0.5, 0.5, 0.5) spans voxels 0 to 1 on each axis, with every fraction 0.5. |
| VolumeAccessor.BlendAtCentre | Assets/Scripts/ABRVolumeDataAccessor.cs:308-323 | With every fraction 0.5, the blend is the mean of the corner values. |
| VolumeAccessor.AxisRescale | Assets/Scripts/ABRVolumeDataAccessor.cs:171-176 | A voxel coordinate converted to data space with one axis's count and back with another's is scaled by the ratio of the counts. |
| VolumeAccessor.AxisRoundTrip | Assets/Scripts/ABRVolumeDataAccessor.cs:171-196 | On one axis, the voxel-to-data and data-to-voxel maps are inverse to each other. |
| VolumeAccessor.DataSpacePointToVoxelSpace | Assets/Scripts/ABRVolumeDataAccessor.cs:164-179 | The identity without data. With data, the box's minimum corner maps to voxel (0, 0, 0). |
| VolumeAccessor.VoxelDataRoundTripAsWritten | Assets/Scripts/ABRVolumeDataAccessor.cs:186-199 | Converting voxel to data to voxel keeps x. It turns y and z into x rescaled by `ny/nx` and `nz/nx`. |
| VolumeAccessor.VoxelToDataLosesY | Assets/Scripts/ABRVolumeDataAccessor.cs:193-196 | On a 2x2x2 unit box, voxel (0, 1, 0) maps to data point (0, 0, 0) and does not round-trip. |
| VolumeAccessor.VoxelDataRoundTripCorrected | Assets/Scripts/ABRVolumeDataAccessor.cs:164-199 | With per-axis normalisation, converting voxel to data to voxel is the identity. |
| VolumeAccessor.DataVoxelRoundTripCorrected | Assets/Scripts/ABRVolumeDataAccessor.cs:164-199 | With per-axis normalisation, converting data to voxel to data is the identity. |
| VolumeAccessor.VoxelSpacePointToDataSpace | Assets/Scripts/ABRVolumeDataAccessor.cs:186-199 | As written, every axis of the result is that axis's minimum plus `v.x / nx` times that axis's size: the x fraction is reused for y and z. So every result lies on the diagonal of the data box. |
| VolumeAccessor.VoxelToDataIgnoresYZ | Assets/Scripts/ABRVolumeDataAccessor.cs:193-196 | As written, the conversion ignores y and z: voxel points that agree on x map to the same data point. |
| VolumeAccessor.VoxelSpacePointToDataSpaceCorrected | Assets/Scripts/ABRVolumeDataAccessor.cs:186-199 | Corrected: voxel (0, 0, 0) maps to the box's minimum corner and voxel `(nx, ny, nz)` to its maximum corner. `VoxelDataRoundTripCorrected` proves it inverts `DataSpacePointToVoxelSpace`. |
| VolumeAccessor.ContainsVoxelSpacePoint | Assets/Scripts/ABRVolumeDataAccessor.cs:242-251 | A point is contained exactly when data are available and the voxel whose cell holds the point (its floor on each axis) lies in the grid. |
| VolumeAccessor.ContainsDataSpacePoint | Assets/Scripts/ABRVolumeDataAccessor.cs:229-236 | False without data. Otherwise `Bounds.Contains` includes the faces, so both corners of a box are contained. |
| VolumeAccessor.AxisContains | Assets/Scripts/ABRVolumeDataAccessor.cs:164-179 | On one axis of positive size and count, the voxel coordinate lies in `[0, count)` exactly when the data coordinate lies in `[min, min + size)`. |
| VolumeAccessor.VoxelContainmentIsHalfOpenBox | Assets/Scripts/ABRVolumeDataAccessor.cs:229-251 | A data point's voxel coordinates pass the voxel test exactly when the point is in the data box but not on one of its far faces. |
| VolumeAccessor.NormalizeDataValue | Assets/Scripts/ABRVolumeDataAccessor.cs:420-423 | The range minimum maps to 0 and the maximum to 1, unclamped. |
| VolumeAccessor.GetValueAtDataSpacePoint | Assets/Scripts/ABRVolumeDataAccessor.cs:266-270 | The sentinel when no data are available. |
| VolumeAccessor.DataSpaceMinCornerReadsFirstVoxel | Assets/Scripts/ABRVolumeDataAccessor.cs:266-270 | Sampling at the data box's minimum corner reads the first stored value. |
| VolumeAccessor.CornerValuesCorrected | Assets/Scripts/ABRVolumeDataAccessor.cs:293-300 | The low corner reads the cell's low voxel, and the high corner reads its high voxel. |
| VolumeAccessor.GetValueAtVoxelSpacePointCorrected | Assets/Scripts/ABRVolumeDataAccessor.cs:283-326 | The sentinel when no data are available. |
| VolumeAccessor.RampIsLinear | Assets/Scripts/ABRVolumeDataAccessor.cs:308-312 | The reference field `a + b*x` used to check the interpolation. |
| VolumeAccessor.EdgeLerp | Assets/Scripts/ABRVolumeDataAccessor.cs:308-312 | Interpolating a linear field between neighbouring voxels reproduces the field at the point. |
| VolumeAccessor.BlendOfXEdges | Assets/Scripts/ABRVolumeDataAccessor.cs:308-323 | When corners vary only in x, the blend is the interpolation along x. |
| VolumeAccessor.CellInGrid | Assets/Scripts/ABRVolumeDataAccessor.cs:285-290 | For a point inside the grid, both cell corners are inside the grid, and the low corner plus the fraction is the point's x. |
| VolumeAccessor.CorrectedTrilinearReproducesLinearX | Assets/Scripts/ABRVolumeDataAccessor.cs:283-326 | With corners paired per axis, sampling any field linear in x inside the grid gives the field's value at the point. |
| VolumeAccessor.CellBlendOfLinearField | Assets/Scripts/ABRVolumeDataAccessor.cs:293-323 | For a linear field, the corrected blend of a cell is the interpolation of the field along x. |
| VolumeAccessor.CornersOfLinearField | Assets/Scripts/ABRVolumeDataAccessor.cs:293-300 | For a linear field, the corrected corners hold the field at the low and high x. |
| VolumeAccessor.CornerOfLinearField | Assets/Scripts/ABRVolumeDataAccessor.cs:348-362 | For a linear field, a voxel read gives the field at that voxel's x. |
| VolumeAccessor.LookupInRampGrid | Assets/Scripts/ABRVolumeDataAccessor.cs:348-362 | In the 2x1x2 grid with the value x at each voxel, a voxel read gives its x. |
| VolumeAccessor.RampGridIsLinearInX | Assets/Scripts/ABRVolumeDataAccessor.cs:348-362 | That grid holds the field `0 + 1*x`. |
| VolumeAccessor.TrilinearAsWrittenMisreadsRamp | Assets/Scripts/ABRVolumeDataAccessor.cs:297-300 | As written, sampling that grid at (0.25, 0, 0.5) gives 0.5 instead of 0.25. |
| VolumeAccessor.TrilinearCorrectedReadsRamp | Assets/Scripts/ABRVolumeDataAccessor.cs:293-325 | The corrected sampling gives 0.25 there. |
| VolumeAccessor.CellAtRampPoint | Assets/Scripts/ABRVolumeDataAccessor.cs:285-290 | The cell of that point spans x and z from 0 to 1 at y = 0. |
| VolumeAccessor.CornersAtRampPoint | Assets/Scripts/ABRVolumeDataAccessor.cs:293-300 | The corner reads there, as written and corrected. |
| VolumeAccessor.BlendsAtRampPoint | Assets/Scripts/ABRVolumeDataAccessor.cs:308-323 | The two blends at that point are 0.5 and 0.25. |
| VolumeAccessor.VolumeDataAccessor.constructor | Assets/Scripts/ABRVolumeDataAccessor.cs:428-433 | Defaults: the smoke key-data path, suffixes allowed, a sentinel of -9999, and no impression. |
| VolumeAccessor.VolumeDataAccessor.Grid | Assets/Scripts/ABRVolumeDataAccessor.cs:106-109 | Data are available exactly when an impression is selected, and they are that impression's grid. |
| VolumeAccessor.VolumeDataAccessor.SetVoxelVisibility | Assets/Scripts/ABRVolumeDataAccessor.cs:372-383 | The first call allocates an all-visible mask the length of the data. The call then sets only the voxel's bit to `show` and keeps every other bit. Without data, nothing changes. |
| VolumeAccessor.VolumeDataAccessor.ApplyVoxelVisibility | Assets/Scripts/ABRVolumeDataAccessor.cs:392-398 | The mask is unchanged. With data, the style is flagged changed and one render is requested. The accessor's settings and warning count are kept. |
| VolumeAccessor.VolumeDataAccessor.ResetVoxelVisibility | Assets/Scripts/ABRVolumeDataAccessor.cs:406-413 | With data, the mask is removed, so every voxel is visible, and one render is requested. Without data, nothing changes. The accessor's path, suffix flag, sentinel and warning count are kept. |
| VolumeAccessor.VolumeDataAccessor.UpdateCurrentDataImpression | Assets/Scripts/ABRVolumeDataAccessor.cs:442-476 | The selected impression is the one the selection rule chooses, or none. The warning counter grows exactly when several candidates exist and none matches. |
| LineAccessor.NumLines | Assets/Scripts/ABRLineDataAccessor.cs:196-204 | The number of vertex lists, or 0 without usable render info. |
| LineAccessor.FirstClosestIsUnique | Assets/Scripts/ABRLineDataAccessor.cs:224-235 | Only one (line, vertex) pair is the first closest in line-major order. |
| LineAccessor.GetClosestLineInDataSpace | Assets/Scripts/ABRLineDataAccessor.cs:219-239 | Gives -1 exactly when no data or no lines are available. Otherwise it gives the line owning the first vertex of minimum distance in line-major order. |
| LineAccessor.HitsUpTo | Assets/Scripts/ABRLineDataAccessor.cs:265-273 | The hit count over a prefix of a line is at most its length. |
| LineAccessor.HitCounts | Assets/Scripts/ABRLineDataAccessor.cs:262-275 | One hit count per line. |
| LineAccessor.Repeat | Assets/Scripts/ABRLineDataAccessor.cs:268-271 | The index repeated once per hit. |
| LineAccessor.GetNearbyLinesInDataSpace | Assets/Scripts/ABRLineDataAccessor.cs:259-277 | Empty without data. Otherwise it gives the line indices in order, each repeated once per vertex closer than the radius. |
| LineAccessor.HitsPositive | Assets/Scripts/ABRLineDataAccessor.cs:265-273 | A line has a hit exactly when one of its vertices is within the radius. |
| LineAccessor.BlocksMembership | Assets/Scripts/ABRLineDataAccessor.cs:262-275 | An index is listed exactly when its line has a hit. |
| LineAccessor.NearbyMembership | Assets/Scripts/ABRLineDataAccessor.cs:259-277 | An index is in the nearby result exactly when that line has a vertex closer than the radius. |
| LineAccessor.Occurrences | Assets/Scripts/ABRLineDataAccessor.cs:259-277 | Counts the occurrences of an index in the result. |
| LineAccessor.OccurrencesZero | Assets/Scripts/ABRLineDataAccessor.cs:259-277 | An index occurs zero times exactly when it is absent. |
| LineAccessor.OccurrencesInAppend | Assets/Scripts/ABRLineDataAccessor.cs:268-271 | Occurrences add up over appended lists. |
| LineAccessor.RepeatOccurrences | Assets/Scripts/ABRLineDataAccessor.cs:268-271 | A repeated index occurs as often as it was repeated. |
| LineAccessor.BlocksCount | Assets/Scripts/ABRLineDataAccessor.cs:262-275 | Each line index occurs as often as its line has hits. |
| LineAccessor.NearbyCount | Assets/Scripts/ABRLineDataAccessor.cs:259-277 | In the nearby result, line `l` occurs once per vertex of `l` within the radius. |
| LineAccessor.BlocksSorted | Assets/Scripts/ABRLineDataAccessor.cs:262-275 | The listed indices never decrease. |
| LineAccessor.NearbySorted | Assets/Scripts/ABRLineDataAccessor.cs:259-277 | The nearby result is non-decreasing. |
| LineAccessor.NearbyMonotoneInRadius | Assets/Scripts/ABRLineDataAccessor.cs:259-277 | Every line found with a radius is also found with any larger radius. |
| LineAccessor.NearbyAsWrittenRepeatsLine | Assets/Scripts/ABRLineDataAccessor.cs:268-271 | One line with two vertices at the probe point is reported twice. |
| LineAccessor.PresentMembership | Assets/Scripts/ABRLineDataAccessor.cs:262-275 | In the corrected list, an index is present exactly when its line has a hit. |
| LineAccessor.PresentIsDistinct | Assets/Scripts/ABRLineDataAccessor.cs:262-275 | The corrected list is strictly increasing and holds the same indices as the as-written list. |
| LineAccessor.NearbyCorrectedIsDistinct | Assets/Scripts/ABRLineDataAccessor.cs:259-277 | Reporting each line once yields a strictly increasing list of exactly the lines the source reports. |
| LineAccessor.Channel | Assets/Scripts/ABRLineDataAccessor.cs:303-305 | The chosen channel of every vertex of the line, in order. |
| LineAccessor.GetAverageScalarValueOnLine | Assets/Scripts/ABRLineDataAccessor.cs:298-310 | The sentinel without data. Otherwise the arithmetic mean of the channel over the line's vertices. |
| LineAccessor.GetAverageColorDataValueOnLine | Assets/Scripts/ABRLineDataAccessor.cs:283-286 | The mean of channel 0, or the sentinel. |
| LineAccessor.GetAverageTextureDataValueOnLine | Assets/Scripts/ABRLineDataAccessor.cs:292-295 | The mean of channel 1, or the sentinel. |
| LineAccessor.SumBounds | Assets/Scripts/ABRLineDataAccessor.cs:302-306 | A sum of values within bounds lies between count times each bound. |
| LineAccessor.MeanBetweenBounds | Assets/Scripts/ABRLineDataAccessor.cs:298-310 | The average lies between the smallest and largest channel values. |
| LineAccessor.MinColorDataValue | Assets/Scripts/ABRLineDataAccessor.cs:55-63 | The colour variable's minimum, or the sentinel without data. |
| LineAccessor.MaxColorDataValue | Assets/Scripts/ABRLineDataAccessor.cs:68-76 | The colour variable's maximum, or the sentinel without data. |
| LineAccessor.MinTextureDataValue | Assets/Scripts/ABRLineDataAccessor.cs:82-90 | The texture variable's minimum, or the sentinel without data. |
| LineAccessor.MaxTextureDataValue | Assets/Scripts/ABRLineDataAccessor.cs:95-103 | The texture variable's maximum, or the sentinel without data. |
| LineAccessor.NormalizeColorDataValue | Assets/Scripts/ABRLineDataAccessor.cs:348-351 | The minimum maps to 0 and the maximum to 1, unclamped. |
| LineAccessor.NormalizeTextureDataValue | Assets/Scripts/ABRLineDataAccessor.cs:357-360 | The minimum maps to 0 and the maximum to 1, unclamped. |
| LineAccessor.LineDataAccessor.constructor | Assets/Scripts/ABRLineDataAccessor.cs:367-372 | Defaults: the wind key-data path, suffixes allowed, a sentinel of -9999, and no impression. |
| LineAccessor.LineDataAccessor.Data | Assets/Scripts/ABRLineDataAccessor.cs:128-131 | Data are available exactly when an impression is selected, and they are that impression's data. |
| LineAccessor.LineDataAccessor.SetVisibleLines | Assets/Scripts/ABRLineDataAccessor.cs:316-328 | Without a mask, a fresh one of `NumLines` entries is allocated; an existing mask keeps its length. Afterwards bit `i` is set exactly when `i` is listed, so out-of-range indices are ignored. The style is flagged and one render is requested. The accessor's path, suffix flag, sentinel and warning count are kept. |
| LineAccessor.LineDataAccessor.ResetLineVisibility | Assets/Scripts/ABRLineDataAccessor.cs:333-340 | With data, the mask is removed, so every line is visible, and one render is requested. Without data, nothing changes. The accessor's path, suffix flag, sentinel and warning count are kept. |
| LineAccessor.LineDataAccessor.UpdateCurrentDataImpression | Assets/Scripts/ABRLineDataAccessor.cs:381-415 | The same selection rule as the volume accessor, with its warning counter. |
| SurfaceAccessor.FirstNearestIsUnique | Assets/Scripts/ABRSurfaceDataAccessor.cs:234-242 | Only one vertex is the lowest-index vertex at minimum distance. |
| SurfaceAccessor.FirstNearestExists | Assets/Scripts/ABRSurfaceDataAccessor.cs:234-242 | Every non-empty vertex list has such a vertex. |
| SurfaceAccessor.GetScalarValueAtClosestDataSpacePoint | Assets/Scripts/ABRSurfaceDataAccessor.cs:229-247 | The sentinel without data, without usable render info or without vertices. Otherwise channel `scalarID` of the lowest-index vertex at minimum distance, an index in `[0, vertices.Length)`. |
| SurfaceAccessor.GetColorValueAtClosestDataSpacePoint | Assets/Scripts/ABRSurfaceDataAccessor.cs:202-205 | The same, reading channel 0. |
| SurfaceAccessor.GetPatternValueAtClosestDataSpacePoint | Assets/Scripts/ABRSurfaceDataAccessor.cs:222-225 | The same, reading channel 1. |
| SurfaceAccessor.MinColorDataValue | Assets/Scripts/ABRSurfaceDataAccessor.cs:49-57 | The colour variable's minimum, or the sentinel without data. |
| SurfaceAccessor.MaxColorDataValue | Assets/Scripts/ABRSurfaceDataAccessor.cs:62-70 | The colour variable's maximum, or the sentinel without data. |
| SurfaceAccessor.MinPatternDataValue | Assets/Scripts/ABRSurfaceDataAccessor.cs:76-84 | The pattern variable's minimum, or the sentinel without data. |
| SurfaceAccessor.MaxPatternDataValue | Assets/Scripts/ABRSurfaceDataAccessor.cs:89-97 | The pattern variable's maximum, or the sentinel without data. |
| SurfaceAccessor.NormalizeColorDataValue | Assets/Scripts/ABRSurfaceDataAccessor.cs:295-298 | The minimum maps to 0 and the maximum to 1, unclamped. |
| SurfaceAccessor.NormalizePatternDataValue | Assets/Scripts/ABRSurfaceDataAccessor.cs:304-307 | The minimum maps to 0 and the maximum to 1, unclamped. |
| SurfaceAccessor.SurfaceDataAccessor.constructor | Assets/Scripts/ABRSurfaceDataAccessor.cs:314-319 | Defaults: the ground key-data path, suffixes allowed, a sentinel of -9999, and no impression. |
| SurfaceAccessor.SurfaceDataAccessor.Data | Assets/Scripts/ABRSurfaceDataAccessor.cs:122-125 | Data are available exactly when an impression is selected, and they are that impression's data. |
| SurfaceAccessor.SurfaceDataAccessor.UpdateCurrentDataImpression | Assets/Scripts/ABRSurfaceDataAccessor.cs:328-363 | The same selection rule as the volume accessor, with its warning counter. |
| ColorMaps.FirstWithValue | Assets/Scripts/ColorMap.cs:337-344 | Gives -1 exactly when no point has the value; otherwise the first index whose value is exactly that value. |
| ColorMaps.RemoveFirstWithValue | Assets/Scripts/ColorMap.cs:335-349 | Unchanged when no point has the value. Otherwise it is one point shorter, and exactly that first point is gone from the multiset. |
| ColorMaps.DeleteAt | Assets/Scripts/ColorMap.cs:340 | `RemoveAt` keeps the order of the other points. |
| ColorMaps.RemoveKeepsUnique | Assets/Scripts/ColorMap.cs:335-349 | Removal keeps the values unique. |
| ColorMaps.RemoveFromUnique | Assets/Scripts/ColorMap.cs:335-349 | With unique values, removal leaves no point of that value and keeps every other point. |
| ColorMaps.InsertByValue | Assets/Scripts/ColorMap.cs:328 | Insertion after every point of no greater value adds exactly that point to the multiset. |
| ColorMaps.SortByValue | Assets/Scripts/ColorMap.cs:328 | The sort is a permutation. |
| ColorMaps.InsertBounds | Assets/Scripts/ColorMap.cs:328 | Insertion preserves upper bounds and absent values. |
| ColorMaps.SortNoValue | Assets/Scripts/ColorMap.cs:328 | Sorting adds no value. |
| ColorMaps.InsertKeepsSorted | Assets/Scripts/ColorMap.cs:328 | Insertion keeps a sorted list sorted. |
| ColorMaps.InsertKeepsStrictlySorted | Assets/Scripts/ColorMap.cs:328 | Inserting a new value keeps a strictly ascending list strictly ascending. |
| ColorMaps.SortIsSorted | Assets/Scripts/ColorMap.cs:328 | The sort's result is ordered by value. |
| ColorMaps.SortIsStrictlySorted | Assets/Scripts/ColorMap.cs:328 | With unique values, the result is strictly ascending. |
| ColorMaps.SortOfSorted | Assets/Scripts/ColorMap.cs:328 | Sorting an ordered list leaves it unchanged. |
| ColorMaps.SortedSplit | Assets/Scripts/ColorMap.cs:328 | A sorted list's front is sorted, and its last two values are in order. |
| ColorMaps.AddedControlPt | Assets/Scripts/ColorMap.cs:322-329 | After adding, the list is sorted, contains the new point, and is the old list minus its first point of that value, plus the new point, as a multiset. |
| ColorMaps.StrictlySortedIsUnique | Assets/Scripts/ColorMap.cs:322-329 | A strictly ascending list has unique values. |
| ColorMaps.AddKeepsStrictlySorted | Assets/Scripts/ColorMap.cs:322-329 | From unique values, adding keeps the list strictly ascending. The new point is the only one of its value, and every point of another value is kept. |
| ColorMaps.AddAboveAppends | Assets/Scripts/ColorMap.cs:322-329 | Adding a value above every value appends the point. |
| ColorMaps.Alpha | Assets/Scripts/ColorMap.cs:223-225 | The blend weight lies in `(0, 1]` and is 1 exactly at the upper point's value. |
| ColorMaps.LabLerp | Assets/Scripts/ColorMap.cs:236-240 | Gives the first colour at weight 0 and the second at weight 1. |
| ColorMaps.LabLerpBetween | Assets/Scripts/ColorMap.cs:236-240 | For weights in [0, 1], each CIELAB channel of the blend lies between the two colours' channels. |
| ColorMaps.BracketIsUnique | Assets/Scripts/ColorMap.cs:217-220 | The scan from index 1 stops at one index only. |
| ColorMaps.BracketOfSortedMap | Assets/Scripts/ColorMap.cs:217-220 | On a strictly ascending map, the scan stops at `i` exactly when `v[i-1] < value <= v[i]`. |
| ColorMaps.BracketExists | Assets/Scripts/ColorMap.cs:214-220 | Strictly between the end values, the scan always stops inside the list, sorted or not. |
| ColorMaps.SampleValuesAscend | Assets/Scripts/ColorMap.cs:264-277 | With at least two samples, the values `i/(n-1)` rise strictly from 0 to 1. |
| ColorMaps.RatiosAscend | Assets/Scripts/ColorMap.cs:277 | Dividing by a positive bound keeps the order of `0 <= a < b <= m` and maps it into [0, 1]. |
| ColorMaps.SamplePrefixIsStrictlySorted | Assets/Scripts/ColorMap.cs:276-279 | Samples are strictly ascending. |
| ColorMaps.AddNextSample | Assets/Scripts/ColorMap.cs:276-279 | Each `AddControlPt` in the sampling loop appends the next sample. |
| ColorMaps.AddAllNext | Assets/Scripts/ColorMap.cs:305-313 | Each XML point is added to what the earlier points left. |
| ColorMaps.AddAllIsStrictlySorted | Assets/Scripts/ColorMap.cs:305-313 | Loading XML points gives a strictly ascending map with a point for every value listed. |
| ColorMaps.ColorMap.constructor | Assets/Scripts/ColorMap.cs:109-120 | Defaults: custom range off and [0, 1], special colour off, opaque black, and no points. |
| ColorMaps.ColorMap.GetDataValueWithCustomMinMax | Assets/Scripts/ColorMap.cs:159-172 | The identity when the custom range is off. When it is on, the custom minimum goes to the first control value and the custom maximum to the last. |
| ColorMaps.CustomRangeKeepsRelativePosition | Assets/Scripts/ColorMap.cs:159-172 | The remap is affine. A value's position between the custom bounds equals the remapped value's position between the first and last control values. |
| ColorMaps.ColorMap.LookupColor | Assets/Scripts/ColorMap.cs:184-247 | Covers every case of the lookup, and warns exactly when the map is empty. The result is:<br>- with no points, the out-of-range colour;<br>- with one point, its colour, with no remap;<br>- otherwise, after the remap, at or beyond the ends, the end colours, or the out-of-range colour when that option is on (even at the end values);<br>- inside the ends, the CIELAB blend of the bracketing points with weight `Alpha`. |
| ColorMaps.LookupAtControlValue | Assets/Scripts/ColorMap.cs:217-244 | At an interior control value, the lookup gives that point's colour through the CIELAB round trip. |
| ColorMaps.ColorMap.RemoveControlPt | Assets/Scripts/ColorMap.cs:335-349 | Reports true exactly when some point has the value, and removes only the first such point. Warns when nothing was found and warning was asked for. |
| ColorMaps.ColorMap.AddControlPt | Assets/Scripts/ColorMap.cs:322-329 | The new list is `AddedControlPt` of the old one. |
| ColorMaps.ColorMap.ReplaceWithSamples | Assets/Scripts/ColorMap.cs:273-280 | The list is replaced by exactly the samples at `i/(n-1)`, strictly ascending. |
| ColorMaps.ColorMap.SetFromTexture2D | Assets/Scripts/ColorMap.cs:273-280 | The list is replaced by `numSamples` points, each at `i/(numSamples-1)` with the texture's colour at (value, 0.5), strictly ascending. `numSamples` defaults to 11 in the source; the model takes it as an explicit argument. |
| ColorMaps.ColorMap.SetFromABRVisAsset | Assets/Scripts/ColorMap.cs:255-267 | The list is replaced by 11 points, each at `i/10` with the asset's interpolated colour, strictly ascending. |
| ColorMaps.ColorMap.SetFromXmlPoints | Assets/Scripts/ColorMap.cs:294-314 | The list is replaced by the XML points added one by one, each opaque. `AddAllIsStrictlySorted` shows the result is strictly ascending. |
| TimestepIndex.Steps | Assets/Scripts/TimestepAnimationController.cs:135-138 | Every entry lies in `[first, last]`. The list starts at `first` and is non-empty exactly when `first <= last`. With `first > last` it is empty whatever the increment. |
| TimestepIndex.ListSteps | Assets/Scripts/TimestepAnimationController.cs:135-138 | The loop builds exactly `Steps(first, last, inc)`. |
| TimestepIndex.AppendStep | Assets/Scripts/TimestepAnimationController.cs:135-138 | One turn of that loop keeps the whole list. |
| TimestepIndex.StepsAscending | Assets/Scripts/TimestepAnimationController.cs:135-138 | The list is strictly ascending. |
| TimestepIndex.StepsMembership | Assets/Scripts/TimestepAnimationController.cs:135-138 | A number is listed exactly when it lies in `[first, last]` and is a whole number of increments past `first`. |
| TimestepIndex.Next | Assets/Scripts/TimestepAnimationController.cs:80-83 | Stays in `[0, n)` and equals `(i + 1) mod n`. |
| TimestepIndex.Prev | Assets/Scripts/TimestepAnimationController.cs:93-96 | Stays in `[0, n)` and equals `(i - 1 + n) mod n`. |
| TimestepIndex.NextPrevInverse | Assets/Scripts/TimestepAnimationController.cs:78-98 | Advancing then rewinding, or the reverse, restores the index. |
| TimestepIndex.Advanced | Assets/Scripts/TimestepAnimationController.cs:78-85 | Repeated advancing stays in `[0, n)`. |
| TimestepIndex.AdvancedIsModular | Assets/Scripts/TimestepAnimationController.cs:78-85 | `k` advances move the index `k` places round the ring. |
| TimestepIndex.FullCycleReturns | Assets/Scripts/TimestepAnimationController.cs:78-85 | `n` advances return to the start. |
| TimestepIndex.IndexOf | Assets/Scripts/TimestepAnimationController.cs:105 | Gives -1 exactly when the number is absent; otherwise the first position holding it. |
| TimestepIndex.FirstNearestIsUnique | Assets/Scripts/TimestepAnimationController.cs:107-114 | Only one index is nearest with the lowest index on ties. |
| TimestepIndex.ExactMatchIsFirstNearest | Assets/Scripts/TimestepAnimationController.cs:105 | A listed number's first position is its nearest entry. |
| TimestepIndex.ScanNext | Assets/Scripts/TimestepAnimationController.cs:108-113 | One turn of the scan replaces the best index exactly when the entry is strictly nearer. |
| TimestepIndex.ScanAsWritten | Assets/Scripts/TimestepAnimationController.cs:106-115 | As written, the scan gives -1 exactly when entry 0 is the nearest, and otherwise the nearest index. |
| TimestepIndex.ClosestIndexAsWritten | Assets/Scripts/TimestepAnimationController.cs:105-115 | As written: a listed number gives its position. An unlisted number gives -1 when the first entry is nearest, and otherwise the nearest index. |
| TimestepIndex.FirstEntryIsNeverNearest | Assets/Scripts/TimestepAnimationController.cs:105-115 | For timesteps 4, 18 and 32 and a request for 0, entry 0 is nearest yet nothing is chosen. |
| TimestepIndex.Scan | Assets/Scripts/TimestepAnimationController.cs:106-115 | The corrected scan gives the nearest index, lowest on ties. |
| TimestepIndex.ClosestIndex | Assets/Scripts/TimestepAnimationController.cs:105-115 | Corrected: the listed position, otherwise the nearest index, lowest on ties; -1 only for an empty list. |
| TimestepAnimation.TimestepAnimationController.constructor | Assets/Scripts/TimestepAnimationController.cs:18-26 | Inspector defaults 4, 74 and 14, with no timesteps yet. |
| TimestepAnimation.TimestepAnimationController.Start | Assets/Scripts/TimestepAnimationController.cs:132-140 | The list becomes `Steps(first, last, inc)` and the index 0. |
| TimestepAnimation.TimestepAnimationController.HasTimestep | Assets/Scripts/TimestepAnimationController.cs:57-60 | List membership. |
| TimestepAnimation.TimestepAnimationController.CurrentTimestep | Assets/Scripts/TimestepAnimationController.cs:65-72 | Gives -1 on an empty list, and otherwise a listed number, the one at the index. |
| TimestepAnimation.TimestepAnimationController.AdvanceOneTimestep | Assets/Scripts/TimestepAnimationController.cs:78-85 | The index becomes `Next` of the old one, and the new number is notified. |
| TimestepAnimation.TimestepAnimationController.RewindOneTimestep | Assets/Scripts/TimestepAnimationController.cs:91-98 | The index becomes `Prev` of the old one, and the new number is notified. |
| TimestepAnimation.TimestepAnimationController.SetTimestep | Assets/Scripts/TimestepAnimationController.cs:103-122 | As written. The index is unchanged on an empty list, and a listed number moves to its first position. An unlisted number moves to the nearest entry, lowest on ties, unless entry 0 is nearest or tied for nearest; then nothing changes. Listeners are notified only when the index changes. |
| TimestepAnimation.TimestepAnimationController.SetTimestepCorrected | Assets/Scripts/TimestepAnimationController.cs:103-122 | The evidently intended choice: the nearest entry, entry 0 included, lowest on ties. A listed number is displayed exactly, and listeners are notified only when the index changes. |
| TimestepAnimation.TimestepAnimationController.NotifyListeners | Assets/Scripts/TimestepAnimationController.cs:126-130 | Records the displayed number. |
| TimestepSelection.Select | Assets/Scripts/ABRTimestepSelector.cs:121-135 | The filtered list is never longer than the steps. |
| TimestepSelection.SelectMembership | Assets/Scripts/ABRTimestepSelector.cs:121-135 | A number is selected exactly when it is a step whose file status is the wanted one. |
| TimestepSelection.SelectKeepsAscending | Assets/Scripts/ABRTimestepSelector.cs:121-135 | Filtering keeps a strictly ascending list strictly ascending. |
| TimestepSelection.SelectPartition | Assets/Scripts/ABRTimestepSelector.cs:121-135 | Every step is either loaded or skipped, never both. |
| TimestepSelection.SelectCons | Assets/Scripts/ABRTimestepSelector.cs:121-135 | Filtering a list that starts with `n` keeps `n` exactly when its status is the wanted one. |
| TimestepSelection.LoadedTimesteps | Assets/Scripts/ABRTimestepSelector.cs:121-135 | The loaded numbers are ascending, and are exactly the `first + k*inc <= last` whose data file exists. |
| TimestepSelection.KeyDataFor | Assets/Scripts/ABRTimestepSelector.cs:128-131 | The KeyData list is parallel to the numbers: entry `k` is loaded from the base path plus number `k`. |
| TimestepSelection.LoadStep | Assets/Scripts/ABRTimestepSelector.cs:122-134 | One turn of the loading loop moves a step to the list it belongs to. |
| TimestepSelection.KeyDataForAppend | Assets/Scripts/ABRTimestepSelector.cs:128-131 | Appending a number appends its KeyData. |
| TimestepSelection.LoadSteps | Assets/Scripts/ABRTimestepSelector.cs:121-135 | The loop lists exactly the existing steps with parallel KeyData, and reports the rest as skipped, in order. |
| TimestepSelection.ABRTimestepSelector.constructor | Assets/Scripts/ABRTimestepSelector.cs:29-50 | Inspector defaults: the wind paths, 4, 74 and 14, and nothing loaded. |
| TimestepSelection.ABRTimestepSelector.HasTimestep | Assets/Scripts/ABRTimestepSelector.cs:62-65 | List membership. |
| TimestepSelection.ABRTimestepSelector.CurrentTimestep | Assets/Scripts/ABRTimestepSelector.cs:70-77 | Gives -1 when the list is empty, and otherwise a listed number. |
| TimestepSelection.ABRTimestepSelector.SetTimestep | Assets/Scripts/ABRTimestepSelector.cs:83-100 | The same as-written choice as the animation controller, with no notification. The index is unchanged on an empty list, and also when an unlisted number is nearest to entry 0 or tied with it. |
| TimestepSelection.ABRTimestepSelector.SetTimestepCorrected | Assets/Scripts/ABRTimestepSelector.cs:83-100 | The evidently intended choice: the nearest entry, entry 0 included, lowest on ties. |
| TimestepSelection.ABRTimestepSelector.LookupAndLoad | Assets/Scripts/ABRTimestepSelector.cs:113-135 | The impressions are looked up while none are known, warning on frame 1 when there are none. Timesteps load only while none are loaded and impressions are known, and then equal `LoadSteps`. |
| TimestepSelection.ABRTimestepSelector.Update | Assets/Scripts/ABRTimestepSelector.cs:111-169 | The lookup and loading above, then the swap. Afterwards every line, glyph, surface or volume impression holds the current timestep's KeyData. Only those that differed are flagged changed. `renderRequests` grows by exactly the number of distinct such impressions whose KeyData differed, one `Render` call each. The frame fails with `indexError` when such an impression exists but nothing was loaded. |
| TimestepSelection.ABRTimestepSelector.SwapKeyData | Assets/Scripts/ABRTimestepSelector.cs:140-168 | The swap alone, with the guarantees just stated, including the exact render count. Other impressions are untouched. |
| TimestepSelection.ABRTimestepSelector.SwapAll | Assets/Scripts/ABRTimestepSelector.cs:145-167 | The loop once the current KeyData exists. Every line, glyph, surface or volume impression ends with that KeyData, flagged changed when it differed. `renderRequests` grows by the number of distinct impressions whose KeyData differed, so a listed-twice impression renders once. Other impressions are untouched. |
| DataProbe.Transition | Assets/Scripts/VolumeDataProbe.cs:159-168 | The new flag is the reading. OnEnterVolume fires exactly on an outside-to-inside change, and OnExitVolume exactly on an inside-to-outside change. So the two never fire together, and one fires exactly when the state changes. |
| DataProbe.EntersAndExitsAlternate | Assets/Scripts/VolumeDataProbe.cs:159-168 | Over any run of frames, enter and exit events balance up to the difference between the final and initial inside flags. |
| DataProbe.VolumeDataProbe.constructor | Assets/Scripts/VolumeDataProbe.cs:100-113 | No accessor, outside, zero values and no events. |
| DataProbe.VolumeDataProbe.Start | Assets/Scripts/VolumeDataProbe.cs:116-126 | Falls back to the accessor on the same object, and warns when there is still none. The probe starts outside. |
| DataProbe.VolumeDataProbe.Update | Assets/Scripts/VolumeDataProbe.cs:153-182 | The inside flag follows containment, with events exactly on transitions. Inside, the value is latched and notified, with its normalisation, only when it changed. Outside, or without an accessor, the stored values are kept. |
| RangeNormalizer.Normalize | Assets/Scripts/ABRVolumeDataAccessor.cs:420-423 | The minimum maps to 0 and the maximum to 1. On an ascending range, results fall below 0 or above 1 exactly for values outside it. |
| RangeNormalizer.NormalizeLerpInverse | Assets/Scripts/ColorMap.cs:164-167 | Normalisation and linear interpolation over the same range are inverse maps. |
| RangeNormalizer.NormalizeMonotone | Assets/Scripts/SetScaleFromData.cs:63 | Normalisation preserves order on an ascending range. |
| ScaleFromData.ScaleAmount | Assets/Scripts/SetScaleFromData.cs:63 | The amount lies in [0, 1]. It is 0 at or below the minimum and 1 at or above the maximum, and the plain normalisation between them. |
| ScaleFromData.ScaleReachesBothEnds | Assets/Scripts/SetScaleFromData.cs:18-28 | At or below the minimum data value the scale is `minScale`, and at or above the maximum it is `maxScale`. Every component lies between the two scales' components. |
| ScaleFromData.ScaleMonotone | Assets/Scripts/SetScaleFromData.cs:61-66 | A larger value never gives a smaller scale component when `maxScale` is the larger. |
| ScaleFromData.LerpMonotone | Assets/Scripts/SetScaleFromData.cs:64 | Interpolation is monotone in the amount. |
| ScaleFromData.SetScaleFromData.constructor | Assets/Scripts/SetScaleFromData.cs:43-50 | Reset defaults. |
| ScaleFromData.SetScaleFromData.Start | Assets/Scripts/SetScaleFromData.cs:52-59 | Scales its own object unless another object was assigned. |
| ScaleFromData.SetScaleFromData.SetDataValue | Assets/Scripts/SetScaleFromData.cs:38-41 | Only `dataValue` changes. |
| ScaleFromData.SetScaleFromData.Update | Assets/Scripts/SetScaleFromData.cs:61-66 | The object's scale becomes `ScaleFor` of the current value. |
| Bounce.NextDirection | Assets/Scripts/BounceObject.cs:41-45 | Becomes -1 above the maximum and +1 below the minimum, and otherwise stays unchanged. It always remains ±1. |
| Bounce.StepKeepsInBand | Assets/Scripts/BounceObject.cs:35-46 | With a step no larger than the band, each frame keeps the object within one step of the band and heading back towards it. |
| Bounce.RunStaysInBand | Assets/Scripts/BounceObject.cs:35-46 | The same holds over any number of frames. |
| Bounce.Data01 | Assets/Scripts/BounceObject.cs:59 | 0 at the minimum height and 1 at the maximum, unclamped. On an ascending band, it lies in [0, 1] exactly for heights in the band. |
| Bounce.BounceObject.constructor | Assets/Scripts/BounceObject.cs:20-31 | Reset defaults, moving up. |
| Bounce.BounceObject.Update | Assets/Scripts/BounceObject.cs:35-63 | y moves by the old direction times the step, x and z are kept, and the direction flips past either height. With a colour map, the material takes `LookupColor` of `Data01(y)`; `materialMissing` is raised exactly when there is no renderer. `colorMapWarned` reports the colour map's empty-map warning, raised exactly when the map has no points. |
| UnityMath.WithinRadiusMonotone | Assets/Scripts/ABRLineDataAccessor.cs:268 | A point within a radius is within every larger radius. |
| UnityMath.LerpVec | Assets/Scripts/SetScaleFromData.cs:64 | `Vector3.Lerp` clamps its amount: the result equals `a` at or below 0 and `b` at or above 1, and each component lies between the ends. |

## Left out

- **World-space conversions.** `WorldSpacePointToDataSpace`, `DataSpacePointToWorldSpace` and `ContainsWorldSpacePoint` in the three accessors are not modelled; they rely on Unity transforms and matrices. The probe therefore takes its position already in data space.
- **Foreign components.** Engine lookups of game objects, meshes and colliders (`GetGameObject`, `GetMesh`, `GetMeshCollider`) are not modelled, and neither is `BoundsInDataSpace` beyond the box stored with the grid.
- **Parameters for foreign code.**
  - The CIELAB conversions are parameters, with no properties assumed.
  - `Texture2D.GetPixelBilinear` and `ColormapVisAsset.GetColorInterp` are parameters.
  - XML parsing in `SetFromXML` is not modelled; `SetFromXmlPoints` starts from the parsed points.
  - The file-existence test and media-path handling in the timestep selector become the `fileExists` parameter.
- **ColorMap.Start**: the choice between asset, texture and XML initialisation is not modelled. It depends on engine and asset lookups; the three initialisers themselves are modelled.
- **Input handling.** Mouse raycasts, height keys and arrow keys (probe, animation controller) are not modelled, and neither is the commented-out timed playback.
- **Logging and events.**
  - `Debug.Log` output is not modelled. The only exceptions are counters for the warnings named above; for example, the surface accessor's per-candidate path log is not counted.
  - UnityEvents are recorded as counters or sequences, not invoked.
- **Floating point.** Values are exact reals: there is no NaN, infinity or rounding. Zero-width ranges, empty lines, a single sample and flat bounding boxes, which give NaN or division by zero in the source, are excluded by preconditions.
- **Exceptions excluded by preconditions.**
  - The `controlPts[0]` read in `GetDataValueWithCustomMinMax` when the custom range is on and the list is empty.
  - The division by a zero voxel count in `VoxelSpacePointToDataSpace`.
  - The null-reference exception in the line accessor's `GetNumLines` when no impression is current. `NumLines` takes the line data itself, so it cannot be called without data.
  - An out-of-range `BitArray` index in `SetVoxelVisibility`.
  - The empty-list read in `AdvanceOneTimestep` and `RewindOneTimestep`.
  - A vertex without the requested scalar channel.
  - In the line averages, a line index outside the render info, missing line render info, and an empty line. These would throw, or divide 0 by 0.
- ImpressionSelection.PathMatches: compares the prefix by code point. The source's one-argument `string.StartsWith` is culture-sensitive, so the two can differ on ignorable or combining characters, such as a soft hyphen or a decomposed accent. They agree on plain ASCII key-data paths such as those these scripts configure.
- ColorMaps.ColorMap.GetDataValueWithCustomMinMax: requires at least one control point when the custom range is on. With an empty list the source throws an index exception at `controlPts[0]` (Assets/Scripts/ColorMap.cs:165).
- VolumeAccessor.VoxelSpacePointToDataSpace: requires data and a non-zero x voxel count. The source has no data check there and divides by the x voxel count (Assets/Scripts/ABRVolumeDataAccessor.cs:189).
- ColorMaps.ColorMap.constructor: the source's `Reset` sets the control-point list to null; the model starts with an empty list, which is what Unity's serializer provides. With a null list `LookupColor` would throw instead of warning.
- VolumeAccessor.VolumeDataAccessor.SetVoxelVisibility: requires the linear index to lie in the mask, where the source would throw.
- LineAccessor.GetClosestLineInDataSpace: requires line 0 to have a vertex, because the source reads its first vertex unconditionally.
- VolumeAccessor.MinDataValue, VolumeAccessor.MaxDataValue: only the no-data sentinel is stated; with data they return the range stored with the grid.
- VolumeAccessor.GetValueAtVoxelSpacePoint, VolumeAccessor.GetValueAtDataSpacePoint: their contracts state only the no-data sentinel. The sampling itself is stated by `TrilinearAtVoxelIsExact`, `TrilinearCentreIsMean` and `DataSpaceMinCornerReadsFirstVoxel`.
- TimestepSelection.Select: its own contract bounds only the length. What it keeps is stated by `SelectMembership`, `SelectKeepsAscending` and `SelectPartition`.
- **Integer widths.** C# `int` is unbounded here. Index arithmetic that would overflow 32 bits on huge grids is not modelled.
- LineAccessor.GetAverageScalarValueOnLine: requires `CanAverage`, as do the colour and texture averages. That is, with data: line render info, a line index in range, a non-empty line and the channel at every vertex. The source throws or gives NaN otherwise.
- TimestepAnimation.TimestepAnimationController.Start: requires a positive increment or `first > last`. With an increment of 0 or less and `first <= last`, the source's loop never ends, which the model cannot express.
- TimestepSelection.ABRTimestepSelector.LookupAndLoad: requires the same on the frame that loads. The loading loop does not end otherwise.
- TimestepSelection.ABRTimestepSelector.Update: requires the same, for the same reason.
- TimestepSelection.LoadSteps: requires the same, for the same reason.
- TimestepIndex.Steps: requires the same, for the same reason.
- TimestepIndex.ListSteps: requires the same, for the same reason.
- **Not part of this model.** `SetMeshColorFromData.cs`, `FlowFilter.cs` and the ParaView Python scripts.

## Findings

The as-written members model the source's own code. The volume and line accessors keep the as-written behaviour in their public operations, because those operations model the source as it is. The corrected members state the evidently intended behaviour and prove its property. The timestep classes' `SetTimestep` methods also follow the source as written. Their `SetTimestepCorrected` twins use the corrected choice.

| source | as written | input that shows it | evidently intended | confidence | as-written member | corrected member |
|---|---|---|---|---|---|---|
| Assets/Scripts/ABRVolumeDataAccessor.cs:193-196 | `VoxelSpacePointToDataSpace` divides the x coordinate by `nx` and uses that for all three axes | On a 2x2x2 grid in the unit box, voxel (0, 1, 0) maps to data point (0, 0, 0) | Each axis uses its own coordinate and count, so the conversion inverts `DataSpacePointToVoxelSpace` | not executed | VolumeAccessor.VoxelToDataLosesY | VolumeAccessor.VoxelDataRoundTripCorrected |
| Assets/Scripts/ABRVolumeDataAccessor.cs:297-300 | The four z = 1 corners pair the low-x slot with the high-x voxel and the reverse | A 2x1x2 grid holding x at each voxel, sampled at (0.25, 0, 0.5), gives 0.5 | The z = 1 corners pair like the z = 0 ones, so a field linear in x is reproduced (0.25 there) | not executed | VolumeAccessor.TrilinearAsWrittenMisreadsRamp | VolumeAccessor.CorrectedTrilinearReproducesLinearX |
| Assets/Scripts/ABRLineDataAccessor.cs:268-271 | `continue` inside the vertex loop only moves to the next vertex, so a line is added once per vertex within the radius | One line with two vertices at the probe point, radius 1, gives [0, 0] | Each nearby line is reported once | not executed | LineAccessor.NearbyAsWrittenRepeatsLine | LineAccessor.NearbyCorrectedIsDistinct |
| Assets/Scripts/TimestepAnimationController.cs:105-115 | When the number is not listed, `closestIndex` stays -1 unless a later entry is strictly nearer than entry 0. So entry 0 is never chosen this way (the same code is at Assets/Scripts/ABRTimestepSelector.cs:88-98) | Timesteps 4, 18 and 32 and a request for 0: nothing is selected | The nearest entry is selected, including the first | not executed | TimestepIndex.FirstEntryIsNeverNearest | TimestepIndex.ClosestIndex |
