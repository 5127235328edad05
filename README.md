# DesAuto slicer core in Dafny

This project models the core of an early FFF (fused filament) 3D-printing
slicer and proves properties of that model. The slicer turns a triangle
mesh read from an ASCII STL file into layers and extruder paths. One Dafny
module stands for each source file:

- `Wrappers` (`wrappers.dfy`): the `Option` type. It stands for Python's
  `None` and for operations that raise.
- `Methods` (`methods.dfy`, from `src/STL/Methods.py`): the geometry helpers.
  They cover tolerant point equality, the plane and scanline tests, z
  interpolation, the duplicate-free append, lexicographic point ordering,
  the sign of a normal and the facet normal.
- `ReadStl` (`read_stl.dfy`, from `src/STL/ReadSTL.py`): the mesh model and
  the ASCII STL line parser.
  - `StlFacet` and `Stl` are classes, because their methods update fields in
    place.
  - Parsing works over the file's lines. Float conversion is a parameter.
- `LegacyReadStl` (`legacy_read_stl.dfy`, from the older `ReadSTL.py` at
  the repository root): the older reader. Its `getMatrix` appends to the
  vertex lists in place, and its solid name is one character shorter.
- `SliceStl` (`slice_stl.dfy`, from `src/STL/SliceSTL.py`): the slicer's
  bookkeeping. It covers the bounding limits starting from 0, the slice
  count with its optional extra top slice, the bucketing of facets into
  slices, edges from a facet's plane crossings and the edge-stitching
  search.
- `Clipping` (`clipping.dfy`, from `src/STL/Clipping.py`): the clipper. It
  covers the outcodes, the push of a point toward a window face, the
  keep-first row dedup, the push loop capped at 100 passes, the fan
  triangulation and the way the output mesh is built.
- `Extrusion` (`extrusion.dfy`, from `src/STL/Extrusion.py`): the extruder
  path object, the density clamp and the height table. It also covers the
  tolerant slice lookup, the infill scanline starts, segment/scanline
  crossings, the open/close state machine of `makePaths`, and the totals
  that `addPath` keeps on the `Extrusion` object.
- `Offset` (`offset.dfy`, from `src/STL/Offset.py`): the mesh offsetter. It
  moves every vertex along a displacement built from the normals of the
  faces that touch it.
- `Transforms` (`transforms.dfy`, from `src/STL/Transform.py`): the
  homogeneous transform state machine.
  - Each operation writes the pending matrix `Tsub`. Then `updateT`
    composes `Tsub` into `T`, moves the current centroid through it and
    resets `Tsub` to the identity.
  - `T` is kept as the history of the pending matrices composed into it.
    `Value` multiplies that history out, so every method's effect is stated
    as one step on a `Pose`: the history, the starting centroid and the
    orientation log. The current centroid is that starting centroid carried
    through the history.
  - Under the usual laws of `sin` and `cos`, `rotateToOriginal` is proved
    to restore the linear 3×3 block of `T` after any translations and axis
    rotations.

Python floats are exact `real`s here. A library routine the model cannot
see becomes a function parameter, so no proof depends on how it is
computed:

- `sqrt`;
- `round`;
- `sin` and `cos`;
- float parsing;
- `np.linalg.solve` and `np.linalg.inv`;
- the vector normalisation of the clipper;
- the missing `cleanDuplicates`.

Most Python exceptions that the code can reach become `None`, a `false`
flag or an explicit failure outcome. The rest are input-shape conditions
(vector lengths, the window size, matrix rows, layer heights) kept as
preconditions. Each is listed under "## Left out" on a line headed by the
member's name.

## Model

| member | source | states |
|---|---|---|
| Methods.CheckSimilarTuples | src/STL/Methods.py:9-17 | The loop's answer is `Similar`. Identical lists are similar. Lists of different lengths are not. Otherwise the answer is whether the summed absolute coordinate difference is at most tol. |
| Methods.SimilarReflexive | src/STL/Methods.py:9-17 | Every point is similar to itself, whatever the tolerance. |
| Methods.SimilarLengthMismatch | src/STL/Methods.py:9-17 | Points of different lengths are never similar. |
| Methods.SimilarSymmetric | src/STL/Methods.py:9-17 | Similarity does not depend on argument order. |
| Methods.SimilarZeroTolIsEquality | src/STL/Methods.py:9-17 | With tolerance 0, similarity is exact equality. |
| Methods.AbsDiffSumZero | src/STL/Methods.py:14-17 | The summed absolute difference is zero exactly when the two lists are equal. |
| Methods.LineIntersectsDatum | src/STL/Methods.py:19-28 | True when either endpoint is within tol of the plane. Otherwise (for tol >= 0) true exactly when the plane lies between the endpoint heights, inclusive. |
| Methods.InterpolateZ | src/STL/Methods.py:30-42 | None exactly when the height difference is at most tol. Otherwise the result is a 3-point at the plane's height, on the line through the two points. |
| Methods.InterpolateZWithinSegment | src/STL/Methods.py:30-42 | When the plane lies between the endpoint heights, the interpolated point lies between the endpoints in x and y as well. |
| Methods.InterpolateZExtrapolates | src/STL/Methods.py:30-42 | There is no segment check: a plane above both endpoints still yields a point. |
| Methods.IsOutOfBounds | src/STL/Methods.py:44-49 | True exactly when no coordinate lies strictly between start and end. |
| Methods.NormalizeVector | src/STL/Methods.py:51-57 | A zero maximum gives [0, 0, 0]. Otherwise every entry is divided by the absolute value of the largest entry. |
| Methods.NormalizeVectorMax | src/STL/Methods.py:51-57 | After normalising, the largest entry is 1 or -1, following the sign of the original maximum. |
| Methods.SumVectors | src/STL/Methods.py:59-65 | The result is the element-wise sum of the vectors, as long as the first vector. |
| Methods.VectorSumSingle | src/STL/Methods.py:59-65 | The sum of one vector is that vector. |
| Methods.SumTwoVectors | src/STL/Methods.py:59-65 | Summing a point and a displacement adds them coordinate by coordinate. |
| Methods.SafeAppend | src/STL/Methods.py:67-73 | The list is unchanged when a similar point is present, and gets `pnt` appended otherwise. It grows by at most one. Afterwards a point similar to `pnt` is always present. |
| Methods.EuclidianDistance | src/STL/Methods.py:75-80 | The loop computes `sqrt` of the sum of squared differences over the shorter length. |
| Methods.SquaredDistanceProps | src/STL/Methods.py:75-80 | The squared distance is non-negative and symmetric. It is zero exactly when the compared prefixes are equal. |
| Methods.HorizontalIntersectsLineSeg | src/STL/Methods.py:82-91 | False for a segment of constant y. Otherwise the same as the source's two asymmetric range tests: a hit lies between the endpoint heights, and every such line except one through the first endpoint is hit. |
| Methods.VerticalIntersectsLineSeg | src/STL/Methods.py:93-102 | The same as the horizontal test, on x. |
| Methods.HorizontalEndpointAsymmetry | src/STL/Methods.py:82-91 | A line through the lower first endpoint of a rising segment is missed. The same segment reversed is hit. |
| Methods.LexTotal | src/STL/Methods.py:104-116 | The (x, y, z) ordering is total. |
| Methods.LexTransitive | src/STL/Methods.py:104-116 | The (x, y, z) ordering is transitive. |
| Methods.LexAntisymmetric | src/STL/Methods.py:104-116 | Points that are mutually ordered are equal. |
| Methods.OrderPoints | src/STL/Methods.py:104-116 | None and lists of at most one point come back unchanged. A list whose points differ in length raises (None). Any other list comes back as a permutation of itself, sorted by (x, y, z). |
| Methods.SortedPermutationUnique | src/STL/Methods.py:104-116 | Two sorted permutations of the same points are equal, so the sorted order is unique. |
| Methods.SortByOrderedSet | src/STL/Methods.py:118-127 | Fails (ValueError or IndexError) exactly when some `original[k]` is missing from `toMatch` or its first index there is past the end of `toSort`. Otherwise entry k of the result is `toSort` at the first index of `original[k]` in `toMatch`. |
| Methods.NormalSign | src/STL/Methods.py:129-134 | The result is 0, 1 or -1: the sign of x for a horizontal scan, otherwise of y. |
| Methods.Cross | src/STL/Methods.py:136-147 | The cross product is orthogonal to both of its arguments. |
| Methods.CalculateNormal | src/STL/Methods.py:136-147 | The normal is orthogonal to q−r and to q−s. It is the cross product, divided by its largest entry when that is non-zero. |
| ReadStl.FindIsFirst | src/STL/ReadSTL.py:152-158 | Python's `find` returns the first occurrence at or after the start, and -1 only when there is none. |
| ReadStl.NameOfSolidIs | src/STL/ReadSTL.py:152-158 | The solid's name runs from two past the first space up to the next space. With no next space, the last character is dropped. The name holds no space. |
| ReadStl.WordsStartWithSpace | src/STL/ReadSTL.py:225-236 | There is one word per space in the line, and each word starts with its space. |
| ReadStl.WordsHaveOneSpace | src/STL/ReadSTL.py:225-236 | No word holds a space after its first character. |
| ReadStl.WordsConcat | src/STL/ReadSTL.py:225-236 | The words put back together give the line from its first space onward. |
| ReadStl.GetTextBetweenSpaces | src/STL/ReadSTL.py:225-236 | The slicing loop yields exactly `Words`: for each space, the text up to the next space or the end of the line. |
| ReadStl.ParsedFloatsAll | src/STL/ReadSTL.py:214-223 | When every word parses, there is one float per word, in order. |
| ReadStl.GetFloatsFromString | src/STL/ReadSTL.py:214-223 | The loop keeps the words that parse as floats, in order, and skips the others. |
| ReadStl.HeaderIndicesAre | src/STL/ReadSTL.py:171-178 | Exactly the indices of the lines containing "facet normal", in increasing order. |
| ReadStl.GetFacetIndices | src/STL/ReadSTL.py:171-178 | The loop returns those header indices. |
| ReadStl.FirstLineWithIs | src/STL/ReadSTL.py:180-189 | The search finds the first line at or after the start that contains the text, or nothing when there is none. |
| ReadStl.FacetLoopIs | src/STL/ReadSTL.py:180-189 | The facet loop is the lines from the index up to, not including, the first "endfacet" line. It is None when the scan runs past the last line (IndexError). |
| ReadStl.GetFacetLoop | src/STL/ReadSTL.py:180-189 | The while loop returns that facet loop. |
| ReadStl.VerticesOfIs | src/STL/ReadSTL.py:203-212 | One vertex per loop line, from line 2 up to the first "endloop" line. None where the source raises IndexError. |
| ReadStl.GetVertices | src/STL/ReadSTL.py:203-212 | The while loop returns those vertices. |
| ReadStl.GetNormal | src/STL/ReadSTL.py:197-201 | The floats of the loop's first line. None for an empty loop. |
| ReadStl.ParseFacets | src/STL/ReadSTL.py:160-169 | A finished parse has one facet per header index. |
| ReadStl.UnterminatedMeansLastOpen | src/STL/ReadSTL.py:160-169 | With increasing headers, the parse stops with the swallowed IndexError exactly when the last facet loop runs past the end. No partial facet list comes back. |
| ReadStl.GetFacets | src/STL/ReadSTL.py:160-169 | The loop over the headers gives the outcome of `ParseFacets`. The facets are fresh objects holding the parsed normal and vertices. |
| ReadStl.HomogenizeRoundTrip | src/STL/ReadSTL.py:74-78 | Appending the homogeneous 1 and cutting back to three entries restores a 3-vector. |
| ReadStl.StlFacet.constructor | src/STL/ReadSTL.py:4-18 | The facet holds the given normal and vertices, and counts the vertices. |
| ReadStl.StlFacet.LoadFromMatrix | src/STL/ReadSTL.py:21-35 | Row 0, cut to 3 entries, is the normal, and row k+1 is vertex k. The vertex count is unchanged, and vertices past the matrix are untouched. |
| ReadStl.StlFacet.CopyVertices | src/STL/ReadSTL.py:38-40 | The result is the vertex list, as a value. |
| ReadStl.StlFacet.GetMatrix | src/STL/ReadSTL.py:46-53 | There are n+1 rows: the normal with 1 appended, then each vertex with 1 appended. The facet is not changed. |
| ReadStl.StlFacet.ReloadFromMatrix | src/STL/ReadSTL.py:21-53 | Exporting a facet of 3-vectors with getMatrix and loading it back with loadFromMatrix leaves it as it was. |
| ReadStl.StlFacet.Coordinates | src/STL/ReadSTL.py:55-71 | One coordinate per vertex, on the given axis, in vertex order. |
| ReadStl.StlFacet.GetXCoordinates | src/STL/ReadSTL.py:55-59 | The x coordinates of the vertices, in order. |
| ReadStl.StlFacet.GetYCoordinates | src/STL/ReadSTL.py:61-65 | The y coordinates of the vertices, in order. |
| ReadStl.StlFacet.GetZCoordinates | src/STL/ReadSTL.py:67-71 | The z coordinates of the vertices, in order. |
| ReadStl.AllVerticesLength | src/STL/ReadSTL.py:131-138 | The vertex list has one entry per vertex of every face, duplicates kept. |
| ReadStl.AllVerticesAt | src/STL/ReadSTL.py:131-138 | Vertex j of face k sits right after the vertices of the earlier faces. |
| ReadStl.Stl.constructor | src/STL/ReadSTL.py:85-105 | The solid holds the given file, name, lines and faces. |
| ReadStl.Stl.EmptyCopy | src/STL/ReadSTL.py:115-124 | The result is a new solid with the same name and file, no lines, and either no face or the one given. The source solid is unchanged. |
| ReadStl.Stl.NumFaces | src/STL/ReadSTL.py:127-129 | The number of faces. |
| ReadStl.Stl.GetAllVertices | src/STL/ReadSTL.py:131-138 | Every vertex of every face, face by face. |
| ReadStl.ParseFile | src/STL/ReadSTL.py:107-113 | No lines raises. Otherwise the result is a new solid named from the first line, keeping the file's lines and holding the facets of `ParseFacets`. A failed facet loop is reported as unterminated. |
| LegacyReadStl.LegacyFacet.constructor | ReadSTL.py:2-15 | The facet holds the given normal and vertex lists. |
| LegacyReadStl.LegacyFacet.GetMatrix | ReadSTL.py:22-30 | The rows are the vertex lists themselves. Each list gets one 1 appended per occurrence in the facet, so every call lengthens the vertices again. |
| LegacyReadStl.HomogenizeOnce | ReadSTL.py:22-30 | On a facet with distinct 3-vectors, one call leaves every vertex with 4 entries, the last one 1. |
| LegacyReadStl.MakePoints | ReadSTL.py:150-159 | Fresh, distinct vertex lists holding the given coordinates. |
| LegacyReadStl.LegacyNameOneShorter | ReadSTL.py:99-105 | The older solid name is the newer one without its last character. |
| LegacyReadStl.LegacyStl.constructor | ReadSTL.py:58-80 | The solid holds the given file, name, lines and faces. |
| LegacyReadStl.LegacyStl.NumFaces | ReadSTL.py:83-85 | Always None: `num_faces` reads an attribute that is never assigned. |
| LegacyReadStl.GetLegacyFacets | ReadSTL.py:107-159 | Same outcome as the newer `ParseFacets`. Each facet's vertices are fresh, distinct lists. |
| LegacyReadStl.Parse | ReadSTL.py:58-80 | No lines raises. Otherwise a new solid named by the older rule, holding the parsed facets. |
| SliceStl.LimitsBound | src/STL/SliceSTL.py:268-277 | On every axis, min <= 0 <= max, and every vertex coordinate lies within its axis bounds. |
| SliceStl.LimitsAttained | src/STL/SliceSTL.py:268-277 | A non-zero bound is the coordinate of some vertex. |
| SliceStl.FindMaxAndMinLimits | src/STL/SliceSTL.py:268-277 | The loop returns the six bounds, starting from 0. |
| SliceStl.NumOfSlicesIs | src/STL/SliceSTL.py:57-69 | The extra slice exists exactly when max_z is not a whole multiple of del_z (max_z, not the extent). Without it, the count is the ceiling of extent over del_z. |
| SliceStl.NumOfSlicesExample | src/STL/SliceSTL.py:57-69 | With del_z 0.5 and min_z 0: a 5.0 top gives 10 slices, and a 0.3 top gives 2 (one layer plus the extra top slice). |
| SliceStl.SlicesCoveredBracket | src/STL/SliceSTL.py:80-90 | The first plane of a face's range is at or below the face, and the end of the range is at or above it. |
| SliceStl.CoveredIndicesInBounds | src/STL/SliceSTL.py:71-90 | For a face between min_z and max_z and del_z > 0, every index of its range names one of the numSlices+1 groups. |
| SliceStl.GroupMembership | src/STL/SliceSTL.py:71-90 | A face is in group g exactly when g is in its covered range. |
| SliceStl.LastGroupEmpty | src/STL/SliceSTL.py:71-78 | The extra list at index numSlices never receives a face. |
| SliceStl.FacesWithinLimits | src/STL/SliceSTL.py:25-54 | The z limits of all vertices bound the heights of every face. |
| SliceStl.Slicer.constructor | src/STL/SliceSTL.py:25-54 | Sets limits from all vertices (min_z <= 0 <= max_z), the extra-slice flag and the slice count, then buckets each face into every group its range names. |
| SliceStl.Slicer.FindFacetsAtEachSlice | src/STL/SliceSTL.py:71-78 | Rebuilds the numSlices+1 groups: each face, in order, in every group its range names. |
| SliceStl.BucketFaces | src/STL/SliceSTL.py:71-78 | The nested append loop yields, for each group, the faces whose range names it, in face order. |
| SliceStl.AppendToRange | src/STL/SliceSTL.py:76-78 | The face is appended to the groups from start to end−1 only. |
| SliceStl.SlicerLineIntersectsDatum | src/STL/SliceSTL.py:221-228 | True exactly when the plane is at or below p1 and at or above p2, or strictly above p1 and at or below p2. |
| SliceStl.SlicerIntersectsBetween | src/STL/SliceSTL.py:221-228 | A hit lies between the endpoint heights. Every plane between them is hit, except the start height of a rising segment. |
| SliceStl.SlicerRisingStartMissed | src/STL/SliceSTL.py:221-228 | A segment rising from the plane misses it. A falling one through its start height hits it. |
| SliceStl.SlicerInterpolateZ | src/STL/SliceSTL.py:232-247 | A horizontal segment on the plane gives its first point. One off the plane gives None. Otherwise the point of the line at the plane's height. |
| SliceStl.SlicerInterpolateMatches | src/STL/SliceSTL.py:232-247 | Off the horizontal case, the Slicer's interpolation agrees with the shared helper at tolerance 0. |
| SliceStl.GetEdgesFromFace | src/STL/SliceSTL.py:148-159 | None for at most one point; one edge for two points. For more points, one edge from each point to the next, closing back to the first. Every edge carries the face's normal. |
| SliceStl.EdgesFormCycle | src/STL/SliceSTL.py:148-159 | Each edge ends where the next one, cyclically, starts. |
| SliceStl.JoinFromIs | src/STL/SliceSTL.py:187-196 | The join is the first edge, other than the current one, with an endpoint similar to the point, and it returns the opposite endpoint. There is nothing only when no other edge touches the point. |
| SliceStl.FindJoiningPoint | src/STL/SliceSTL.py:187-196 | The loop returns that join. |
| SliceStl.Stitch | src/STL/SliceSTL.py:173-185 | After n rounds: n+1 points, n normals, and the edges used so far, each a valid index. |
| SliceStl.StitchSteps | src/STL/SliceSTL.py:173-185 | Starts at edge 0's second point. Each round takes the joining point of the previous point, skipping the edge just used, and records that edge's normal. |
| SliceStl.StitchStaysFailed | src/STL/SliceSTL.py:173-185 | Once a lookup fails, every later round fails too. |
| SliceStl.StitchEdges | src/STL/SliceSTL.py:173-185 | Fails for no edges or when a lookup fails. Otherwise it returns len(edges)+1 points and len(edges) normals, as `Stitch` gives them. |
| Clipping.CS | src/STL/Clipping.py:24-32 | Adds the outcode onto the fourth entry and leaves the others alone. |
| Clipping.CodeDecodes | src/STL/Clipping.py:24-32 | The code decodes into one base-4 digit per axis. The digit is 0 inside, 1 below 0 and 2 above the window: at most one bit per axis. |
| Clipping.CodeZeroIffInBox | src/STL/Clipping.py:24-32 | From a zero fourth entry, the code is 0 exactly for points in the closed window. |
| Clipping.PushPoint | src/STL/Clipping.py:35-69 | A point with code 0 comes back unchanged. Any other comes back as a 4-vector whose code is recomputed from 0. |
| Clipping.PushOnPlane | src/STL/Clipping.py:54-67 | When the parameter is in (0, 1], the pushed point lands on the chosen plane of axis `iter % 3`: 0 or the window size. |
| Clipping.PushStays | src/STL/Clipping.py:64-67 | When the parameter is outside (0, 1] or the direction has no component on the axis, the coordinates stay put. |
| Clipping.DedupKeepsFirst | src/STL/Clipping.py:72-79 | The same rows, no duplicates, in the order of first occurrence. |
| Clipping.UniqueRowOrdered | src/STL/Clipping.py:72-79 | The loop yields exactly `Dedup`. |
| Clipping.PushPass | src/STL/Clipping.py:117-136 | One loop pass: the row at i % length is replaced by its pushes toward both neighbours, and duplicates are removed. A single remaining coded row raises. |
| Clipping.PushLoop | src/STL/Clipping.py:114-136 | The while loop is the bounded run `PushRun`: at most 100 passes, ending early when no coded row is left. |
| Clipping.PushRunCoded | src/STL/Clipping.py:114-136 | Every row's fourth entry stays the code of its coordinates throughout the loop. |
| Clipping.KeptRowsInBox | src/STL/Clipping.py:140-142 | The rows kept after the loop lie in the closed window. |
| Clipping.ClassifyFacet | src/STL/Clipping.py:84-142 | Matches `Classify`: the inside test, the outside test, the all-zero-codes test, and otherwise the push loop and the kept rows. It fails where Python raises: fewer than three vertices, a coordinate the tests read that is missing, a vertex without the fourth entry CS reads, or a ragged vertex array. |
| Clipping.PolygonInBox | src/STL/Clipping.py:105-142 | For a facet of 3-coordinate vertices, every vertex of a clipped polygon lies in the closed window. |
| Clipping.TestsEvaluate | src/STL/Clipping.py:96-104 | When the first three vertices have three coordinates, neither test raises, and each answers its condition on the rounded minima and maxima. |
| Clipping.InsideKept | src/STL/Clipping.py:96-100 | A facet whose first three vertices pass the inside test is kept whole, whatever vertices follow. |
| Clipping.ExtraVerticesFailPush | src/STL/Clipping.py:105-117 | A facet of more than three 3-coordinate vertices that reaches the push loop raises: the padded rows have four entries and the others three. |
| Clipping.RaggedRows | src/STL/Clipping.py:115 | Rows of four entries followed by a row of three are not a rectangular array. |
| Clipping.InsideIgnoresLowerBounds | src/STL/Clipping.py:96-100 | A facet that pokes out below 0 is kept whole: the lower-bound terms are tuples, which are always true. |
| Clipping.OutsideDropped | src/STL/Clipping.py:101-104 | A facet whose first three vertices are wholly beyond one face of the window on some axis, but not kept by the inside test, is dropped, whatever vertices follow. |
| Clipping.Fan | src/STL/Clipping.py:156-158 | len % 3 + 1 triangles (v0, vi, vi+1), all with the shared normal. |
| Clipping.FanOfHexagon | src/STL/Clipping.py:156-158 | A hexagon is fanned into one triangle, and its last three vertices are lost. |
| Clipping.FanInWindow | src/STL/Clipping.py:156-158 | A polygon in the window fans into triangles in the window. |
| Clipping.ClipFacetSound | src/STL/Clipping.py:84-158 | A facet of 3-coordinate vertices contributes either itself or triangles inside the window. |
| Clipping.ClipAllSound | src/STL/Clipping.py:82-158 | When every vertex has three coordinates, every output facet is an input facet kept whole, or a triangle whose vertices lie in the closed window. |
| Clipping.ClipAllFails | src/STL/Clipping.py:82-158 | A facet that raises makes the whole clip fail. |
| Clipping.AddFace | src/STL/Clipping.py:16-22 | The first face makes a new empty copy of the original, without lines, holding that face. Later faces are appended to the copy in place, and its name, file and lines stay. |
| Clipping.ClipOne | src/STL/Clipping.py:84-158 | One facet's contribution equals `ClipFacet`: itself, nothing, or new fan triangles. It fails exactly where `Classify` does. |
| Clipping.MakeFan | src/STL/Clipping.py:156-158 | New facets holding the triangles of `Fan`. |
| Clipping.ClipFacets | src/STL/Clipping.py:82-158 | When nothing is kept, the input mesh itself comes back. Otherwise a new mesh with its name and file, and no lines, holds the facets of `ClipAll`. |
| Clipping.Clip | src/STL/Clipping.py:5-160 | None for a solid without lines, such as an empty copy (AttributeError), and when re-parsing the lines or a facet fails. Otherwise the output of `ClipFacets` over the parsed facets: the input itself when nothing is kept, else a fresh mesh with its name and file and no lines. |
| Clipping.ClipTwice | src/STL/Clipping.py:16-22 | Clipping again the fresh mesh a clip returned fails, since that mesh has no lines to re-parse. |
| Extrusion.Path.CalcPathLength | src/STL/Extrusion.py:21-27 | The loop sums the distances between consecutive points. |
| Extrusion.Path.GetXYZ | src/STL/Extrusion.py:29-38 | Three columns as long as the path: the x, y and z of each point. |
| Extrusion.SegmentLength | src/STL/Extrusion.py:21-27 | A two-point path is as long as the distance between its ends. |
| Extrusion.PathLengthNonNegative | src/STL/Extrusion.py:21-27 | No path has negative length, given a square root that is never negative. |
| Extrusion.ClampDensity | src/STL/Extrusion.py:74 | The density is \|d\| when that is at most 1, and 1 otherwise, so it always lies in [0, 1]. |
| Extrusion.CalcInfillData | src/STL/Extrusion.py:228-234 | Fails exactly on the ZeroDivisionError cases: a zero layer height, or a line count of -1. |
| Extrusion.InfillSpacingNonNegative | src/STL/Extrusion.py:228-234 | For a density in [0, 1], a positive layer height and a square root into [0, 1], the spacing exists and is non-negative. |
| Extrusion.SolidInfillHasZeroSpacing | src/STL/Extrusion.py:228-234 | Density 1 at layer height 0.25 gives spacing 0, on which the scanline loops of findInfillCoord never end. |
| Extrusion.StepsWithin | src/STL/Extrusion.py:97-108 | The loop visits lo, lo + spacing, and so on. Each value is at most hi, and one more step would exceed hi. |
| Extrusion.HorizontalStarts | src/STL/Extrusion.py:97-102 | The first loop yields (xmin, y) for each visited y. |
| Extrusion.VerticalStarts | src/STL/Extrusion.py:103-108 | The second loop yields (x, ymin) for each visited x. |
| Extrusion.LayerGap | src/STL/Extrusion.py:90 | Before the last entry is replaced, the height i * h of layer i is at least one layer height above that of any earlier layer j. |
| Extrusion.ZIndex | src/STL/Extrusion.py:85-91 | One height per slice. |
| Extrusion.FirstClose | src/STL/Extrusion.py:110-117 | The first table position within tol of z, or none when no position is. |
| Extrusion.SliceIndexMeaning | src/STL/Extrusion.py:110-117 | 0 below the first layer less tol. An empty table raises. Above the last height plus tol there is no slice. Otherwise the first height within tol, or no slice when there is none. |
| Extrusion.SliceIndexOfLayer | src/STL/Extrusion.py:85-117 | The height of layer i is found at slice i of the table whenever the tolerance is at most half a layer height. With the extra top slice, this holds for every layer below the replaced last entry. |
| Extrusion.FindLineSegIntersection | src/STL/Extrusion.py:208-226 | A crossing is a 3-point whose z is pnt1's, or 0 when pnt1 has more than three entries. |
| Extrusion.SegmentCrossing | src/STL/Extrusion.py:208-226 | A horizontal scan finds a crossing exactly when `horizontalIntersectsLineSeg` holds, with y = line_c. A vertical scan gives None on a near-vertical segment, and otherwise finds a crossing exactly when `verticalIntersectsLineSeg` holds, with x = line_c. |
| Extrusion.IntersectionOnSegmentLine | src/STL/Extrusion.py:208-226 | On a segment that is not near-vertical, a crossing lies on the line through its two ends. |
| Extrusion.SpanPathsShape | src/STL/Extrusion.py:192-206 | Every path of the state machine has two crossings, start then end. There are at most as many paths as +1 signs. |
| Extrusion.MakePaths | src/STL/Extrusion.py:192-206 | Sorts the crossings, pairs the normals with them through sortByOrderedSet, then runs the open/close machine. A 0 sign is skipped, a −1 (re)opens the start, and a +1 closes a path if one is open. |
| Extrusion.RunSpans | src/STL/Extrusion.py:198-206 | The loop with its `start` variable yields exactly the state machine's paths. |
| Extrusion.MakePathsShape | src/STL/Extrusion.py:192-206 | Every path joins two of the crossings. There are at most as many paths as +1 signs among the paired normals. |
| Extrusion.NormalsFollowInversePermutation | src/STL/Extrusion.py:195-196 | sortByOrderedSet pairs normals through the inverse of the sort's permutation. For three crossings that sort as b, c, a, crossing b gets c's normal rather than its own. |
| Extrusion.CollectFromHits | src/STL/Extrusion.py:183-188 | The collected crossings are the hits of consecutive segments (i, i+1), in order, each with that segment's normal. |
| Extrusion.HitsOnScanline | src/STL/Extrusion.py:183-188 | Every crossing of the outline lies on the scanline. |
| Extrusion.GetPaths | src/STL/Extrusion.py:178-190 | Tests the consecutive pairs only, with no wrap-around. No paths for fewer than two crossings; otherwise makePaths of the crossings. |
| Extrusion.PathsOnScanline | src/STL/Extrusion.py:178-206 | Both ends of every path of a scanline lie on that scanline. |
| Extrusion.TotalLengthAppend | src/STL/Extrusion.py:125-132 | Appending a path to one slice adds its length to the total. |
| Extrusion.Extrusion.constructor | src/STL/Extrusion.py:51-80 | Stores the mesh, wall thickness and layer height. The density is clamped, totals start at 0, and there is one empty path list per slice. |
| Extrusion.Extrusion.SetupSlices | src/STL/Extrusion.py:85-91 | numSlices empty path lists, and a height table of i * layer height, with the last entry max_z when the extra top slice exists. |
| Extrusion.Extrusion.FindInfillCoord | src/STL/Extrusion.py:93-108 | The horizontal starts have x = xmin and the vertical starts y = ymin. Both step from the minimum by the spacing without passing the maximum. |
| Extrusion.Extrusion.GetSliceIndex | src/STL/Extrusion.py:110-117 | The search loop with early return answers `SliceIndex`. |
| Extrusion.Extrusion.AddPath | src/STL/Extrusion.py:125-132 | A first point without a slice changes nothing. Otherwise the path is appended to its slice, its length added to the print length and length/speed to the print time. The totals keep accounting for exactly the stored paths. |
| Extrusion.Extrusion.AppendToSlice | src/STL/Extrusion.py:130-133 | The path is appended to slice i, its length added to the print length and length/speed to the print time. Totals that accounted for the stored paths still do. |
| Offset.TouchingNormalMember | src/STL/Offset.py:51-60 | The raw list holds exactly the normals of the faces with a vertex similar to the point. |
| Offset.DuplicateVertexCountsTwice | src/STL/Offset.py:51-60 | A face with two vertices at the point contributes its normal twice: the `continue` does not stop the scan. |
| Offset.GetConnectedNormals | src/STL/Offset.py:51-60 | The touching normals in face order, one per matching vertex, passed once through the cleaner. |
| Offset.DotSelf | src/STL/Offset.py:62-76 | A vector's dot product with itself is never negative, and is zero only for the zero vector. |
| Offset.GramSymmetric | src/STL/Offset.py:62-76 | The n×n matrix of pairwise dot products is symmetric, with a non-negative diagonal. |
| Offset.CalculateOffsetWeights | src/STL/Offset.py:62-76 | Builds the Gram matrix row by row and solves it. A length mismatch raises (None). Otherwise it returns the solver's outcome. |
| Offset.AverageVectors | src/STL/Offset.py:78-83 | Defined exactly when every vector is as long as the first. The element-wise sum is then divided by the dimension. |
| Offset.AverageDividesByDimension | src/STL/Offset.py:78-83 | Three copies of (1, 1) average to (1.5, 1.5): the sum is divided by the dimension, not by the count. |
| Offset.WeightedVector | src/STL/Offset.py:43-49 | Defined exactly when there are enough weights and the normals can be summed. |
| Offset.WeightedUniform | src/STL/Offset.py:43-49 | With every weight equal to c, the weighted vector is c times the plain average. |
| Offset.SingularSumsNormals | src/STL/Offset.py:34-41 | A singular solve gives the plain sum of the normals, which is the normal itself for a single normal. |
| Offset.SolvedWeighsNormals | src/STL/Offset.py:34-41 | A successful solve gives the weighted vector. Too few weights raise. |
| Offset.OffsetDistance | src/STL/Offset.py:26-32 | An empty vector raises. An offset of 0 gives a zero displacement. |
| Offset.OffsetDistanceReach | src/STL/Offset.py:26-32 | For a vector with a positive largest entry, the displacement keeps its length, and its largest entry is exactly the offset. |
| Offset.MovedVertex | src/STL/Offset.py:17-19 | A moved vertex is as long as the input vertex, and is the input vertex plus its displacement. |
| Offset.MovedVerticesAre | src/STL/Offset.py:15-19 | A face's vertices all move exactly when each one does, and vertex j becomes the j-th moved vertex. |
| Offset.OffsetFacesShape | src/STL/Offset.py:10-24 | One facet per input facet, each with the same normal and vertex count, and each vertex moved. |
| Offset.ZeroOffsetKeepsFaces | src/STL/Offset.py:10-24 | An offset of 0 that succeeds gives back the input facets. |
| Offset.GetOffsetVector | src/STL/Offset.py:34-41 | The offset vector of the normals, cleaned twice. |
| Offset.GetOffsetDistance | src/STL/Offset.py:26-32 | The displacement of the point. |
| Offset.MoveVertices | src/STL/Offset.py:15-19 | The inner loop moves each vertex of the face, or fails at the first failure. |
| Offset.MoveVertex | src/STL/Offset.py:17-18 | One vertex plus its displacement, as long as the vertex. None when the displacement raises or is shorter than the vertex. |
| Offset.GetOffsetStl | src/STL/Offset.py:10-24 | A new solid with the input's name and file, holding the offset facets. None when some vertex's offset raises. |
| Transforms.PlaneIndex | src/STL/Transform.py:270-282 | "x" selects axis 0, "y" axis 1, and anything else axis 2. |
| Transforms.ShiftMoves | src/STL/Transform.py:187-192 | A translation moves the centroid by exactly its displacement, and leaves the orientation log alone. |
| Transforms.TranslateToTargets | src/STL/Transform.py:194-207 | translateToOrigin ends at the origin, and translateToOriginal at the original centroid. |
| Transforms.ApplyFixesOrigin | src/STL/Transform.py:100-106 | Every update but a translation keeps a centroid at the origin there. |
| Transforms.RotateAboutCentroidKeeps | src/STL/Transform.py:136-150 | Rotating about the point where the centroid is leaves the centroid there. |
| Transforms.RotateAtOriginFixes | src/STL/Transform.py:136-150 | Rotating about the origin keeps a centroid at the origin. |
| Transforms.RotateInPlaceKeepsCentroid | src/STL/Transform.py:152-162 | rotateInPlace leaves the centroid where it is. |
| Transforms.UndoKeepsCentroid | src/STL/Transform.py:164-173 | Undoing any list of logged rotations leaves the centroid where it is. |
| Transforms.RotateToOriginalKeepsCentroid | src/STL/Transform.py:164-173 | rotateToOriginal leaves the centroid where it is and the log empty. |
| Transforms.RotateToOriginalRestores | src/STL/Transform.py:164-173 | From a fresh transform with an affine T, after any translations and axis rotations, rotateToOriginal restores the orientation: the linear 3×3 block of T is the original one again. |
| Transforms.RunBlock | src/STL/Transform.py:109-192 | Translations and axis rotations keep T affine. They append the rotations to the log, and the block of T becomes the original block times the product of the logged rotations. |
| Transforms.UndoBlockIs | src/STL/Transform.py:164-173 | Undoing logged rotations from the last one back multiplies the block by the inverse rotations of each entry, z then y then x. T stays affine. |
| Transforms.UndoEntryBlock | src/STL/Transform.py:168-173 | Undoing one log entry in place multiplies the block by the rotations through −psi, −phi and −theta, in that order. |
| Transforms.EntryUndoCancel | src/STL/Transform.py:109-173 | The three undo rotations of an entry cancel the three rotations that logged it. |
| Transforms.LogCancel | src/STL/Transform.py:164-173 | Undoing every entry of a log, from the last one back, cancels the product of the log's rotations. |
| Transforms.AboutCentroidKeeps | src/STL/Transform.py:210-219 | Any non-translation update performed about the centroid leaves it where it is. |
| Transforms.PerspectiveKeepsCentroid | src/STL/Transform.py:363-381 | A perspective update leaves the centroid where it is. |
| Transforms.PlanePoseKeepsPoint | src/STL/Transform.py:257-266 | The helper transform of reflect ends with its centroid back at the plane's point. |
| Transforms.PlaneWithZeroNormal | src/STL/Transform.py:257-266 | With a zero normal, reflect is the XY reflection about the point. |
| Transforms.DoublePointHasZero | src/STL/Transform.py:396-409 | doublePoint always leaves one vanishing distance zero, and keeps q and r. |
| Transforms.MatMulIdentity | src/STL/Transform.py:44-53 | Composing with the reset identity leaves a matrix unchanged. |
| Transforms.ReflectionInvolution | src/STL/Transform.py:242-255 | Reflecting twice across the same axis plane restores T. |
| Transforms.ProjectionFlattens | src/STL/Transform.py:270-282 | The orthographic update zeroes column k of T, so every point lands on the plane normal to axis k. The other columns are kept. |
| Transforms.DehomogenizeMeaning | src/STL/Transform.py:70-76 | Afterwards the fourth entry is 0 or 1. A row whose fourth entry s is neither is divided by s, and any other row is untouched. |
| Transforms.NormalImageIdentity | src/STL/Transform.py:78-92 | With T the identity and an exact inverse, normals are unchanged. |
| Transforms.Transform.constructor | src/STL/Transform.py:21-42 | T and Tsub start as the identity and the log empty. The current centroid is the given one. |
| Transforms.Transform.UpdateT | src/STL/Transform.py:44-53 | T := T·Tsub, the centroid is moved through Tsub, and Tsub is the identity again. |
| Transforms.Transform.UpdateCentroid | src/STL/Transform.py:100-106 | The centroid becomes ([c, 1]·m)[0:3], and nothing else changes. |
| Transforms.Transform.UpdateOrientation | src/STL/Transform.py:94-98 | A vector whose length is not 3 raises and changes nothing. Otherwise it is appended to the log. |
| Transforms.Transform.TransformPoints | src/STL/Transform.py:55-76 | Every row is multiplied by T and then normalised by its fourth entry, which ends as 0 or 1. |
| Transforms.Transform.TransformNorm | src/STL/Transform.py:78-92 | The normal, extended with 1, times the transposed inverse of T, cut to 3 entries. |
| Transforms.Transform.RotateAroundX | src/STL/Transform.py:109-116 | One x-rotation update, logged as (theta, 0, 0). |
| Transforms.Transform.RotateAroundY | src/STL/Transform.py:118-125 | One y-rotation update, logged as (0, phi, 0). |
| Transforms.Transform.RotateAroundZ | src/STL/Transform.py:127-134 | One z-rotation update, logged as (0, 0, psi). |
| Transforms.Transform.Rotate | src/STL/Transform.py:136-150 | The non-zero axis rotations x, y, z, performed about (x, y, z). The moves there and back happen only when that point is not the origin. |
| Transforms.Transform.RotateInPlace | src/STL/Transform.py:152-162 | A rotation about the current centroid, which does not move. |
| Transforms.Transform.RotateToOriginal | src/STL/Transform.py:164-173 | Undoes the logged rotations from the last one back, over the original entries only. Ends with an empty log and the centroid where it was. |
| Transforms.Transform.RotateToFront | src/STL/Transform.py:175-183 | rotateToOriginal, then (unless the original orientation is zero) rotations by minus its z, y and x angles, in that order. |
| Transforms.Transform.TurnToFront | src/STL/Transform.py:180-183 | Unless the original orientation is zero, one z, one y and one x rotation by minus its angles, in that order. |
| Transforms.Transform.TurnBack | src/STL/Transform.py:180-183 | One z, one y and one x rotation by the given angles, in that order. |
| Transforms.Transform.Translate | src/STL/Transform.py:187-192 | The centroid moves by exactly (delx, dely, delz). |
| Transforms.Transform.TranslateToOrigin | src/STL/Transform.py:194-198 | The centroid ends at the origin. |
| Transforms.Transform.TranslateToOriginal | src/STL/Transform.py:200-207 | The centroid ends at the original centroid. |
| Transforms.Transform.Scale | src/STL/Transform.py:210-219 | Scales about the current centroid, which does not move. |
| Transforms.Transform.ScaleSpecific | src/STL/Transform.py:221-223 | scale with s = 1. |
| Transforms.Transform.ScaleGlobal | src/STL/Transform.py:225-227 | s = 0 raises ZeroDivisionError and changes nothing. Otherwise it scales by 1/s about the centroid. |
| Transforms.Transform.Shear | src/STL/Transform.py:230-239 | One shear update. |
| Transforms.Transform.ReflectOverXY | src/STL/Transform.py:242-245 | One update with −1 on the z diagonal. |
| Transforms.Transform.ReflectOverYZ | src/STL/Transform.py:247-250 | One update with −1 on the x diagonal. |
| Transforms.Transform.ReflectOverXZ | src/STL/Transform.py:252-255 | One update with −1 on the y diagonal. |
| Transforms.Transform.Reflect | src/STL/Transform.py:257-266 | The final T of the helper transform for the plane becomes the pending matrix and is composed in. |
| Transforms.Transform.PlaneTransform | src/STL/Transform.py:259-264 | The helper transform of reflect, built by its five calls, is exactly the pose the plane reflection is defined by. |
| Transforms.Transform.Orthographic | src/STL/Transform.py:270-282 | Zeroes the projection axis's diagonal entry of the pending matrix. From the identity, that is one projection update. |
| Transforms.Transform.Axonometric | src/STL/Transform.py:285-301 | rotateToFront, rotateInPlace about y and about x, then the orthographic projection. |
| Transforms.Transform.Oblique | src/STL/Transform.py:334-350 | rotateToFront, then one update whose pending matrix has the receding-axis entries −f cos α and −f sin α, with the projection axis zeroed. |
| Transforms.Transform.Cabinet | src/STL/Transform.py:357-360 | oblique with f = −1/2. |
| Transforms.Transform.Perspective | src/STL/Transform.py:363-381 | One update writing the last column. The centroid does not move. |
| Transforms.Transform.TriplePointAngular | src/STL/Transform.py:383-391 | The perspective update with the vanishing distances sin θ/d, cos θ sin φ/d and cos θ cos φ/d. |
| Transforms.Transform.TriplePoint | src/STL/Transform.py:393-394 | perspective(p, q, r, 1). |
| Transforms.Transform.DoublePoint | src/STL/Transform.py:396-409 | The perspective update with one vanishing distance forced to zero. |
| Transforms.Transform.SinglePoint | src/STL/Transform.py:411-413 | d = 0 raises and changes nothing. Otherwise perspective(0, 0, 1/d, 1). |
| Transforms.Transform.SinglePointAtOrigin | src/STL/Transform.py:415-422 | d = 0 raises after the move to the origin, which stays done. Otherwise the single-point perspective about the centroid, which does not move. |

## Left out

- File reading (`readFile` in both readers): the parsers take the file's lines as given.
- `float(word)`: a parameter `parseFloat`, returning None where Python raises ValueError.
- `sqrt`, `round`, `sin`, `cos`, `np.linalg.solve`, `np.linalg.inv`, the clipper's `np.around` normalisation and `cleanDuplicates`: parameters. `cleanDuplicates` is not defined in `src/STL/Methods.py`.
- Floating point: the model uses exact reals, so rounding error, NaN and infinities are not captured.
- `STL.clipping` in `src/STL/ReadSTL.py` (lines 239-381): an earlier draft that cannot run as written. `src/STL/Clipping.py`, modelled here, supersedes it.
- `vertex()`, `toString()` and the printing methods in both readers, and `Path.toLine`/`Path.toString`: string formatting of floats.
- The older reader's `getFacetIndices`, `getFacetLoop`, `getVertices`, `getFloatsFromString`, `getTextBetweenSpaces` and coordinate getters: textually the same as the newer reader's, so they reuse the `ReadStl` definitions.
- `Slicer.checkSimilarTuples` and `Slicer.isOutOfBounds` (`src/STL/SliceSTL.py:250-266`): identical to the versions in `src/STL/Methods.py` and modelled once there.
- `Slicer.sliceSTL`, `getEdgesForAllSlices`, `getSliceEdges`, `getIntersectionPointsFromFace` and `Slice`: these raise as written (an undefined `layer_height`, `range(...).append`, the index past the last point, a `z_datum` read from an x coordinate). The helpers they call are modelled.
- Extrusion's `makeBorderWalls`, `makeInfill`, `fillHull`, `addSliceHulls` and `printMass`, and the constructor's import of the missing `Hull` module and its 4-argument `Slicer` call. The constructor model covers the field set-up and `setupSlices`.
- Extrusion.Extrusion.FindInfillCoord: takes the limits as a parameter. The source calls `Slicer.findMaxAndMinLimits(self.stl)`, which binds the STL as `self` and then fails on `self.stl` (AttributeError, `src/STL/SliceSTL.py:272`). It requires a positive spacing, because the source loops forever on spacing 0 (see `SolidInfillHasZeroSpacing`).
- Methods.InterpolateZ: requires tol >= 0, 3-coordinate points and a second point at least as long as the first. A negative tolerance would let a zero height difference through to the division (ZeroDivisionError). Shorter points raise IndexError. The default tolerance is 1e-5.
- Methods.SumVectors: requires a non-empty list whose vectors are at least as long as the first. Python raises IndexError on an empty list or a shorter vector.
- Methods.NormalizeVector: requires a non-empty vector. `max` of an empty list raises ValueError.
- ReadStl.StlFacet.LoadFromMatrix: requires 1 <= rows <= vertices + 1. No rows, or more rows than vertex slots, raise IndexError.
- ReadStl.StlFacet.Coordinates: requires every vertex to have the coordinate read. A shorter vertex raises IndexError.
- ReadStl.StlFacet.GetXCoordinates: requires every vertex to have at least one entry. A shorter vertex raises IndexError.
- ReadStl.StlFacet.GetYCoordinates: requires every vertex to have at least two entries. A shorter vertex raises IndexError.
- ReadStl.StlFacet.GetZCoordinates: requires every vertex to have at least three entries. A shorter vertex raises IndexError.
- SliceStl.Slicer.constructor: requires a positive layer height and faces whose vertices have three coordinates. A zero height raises ZeroDivisionError (`src/STL/SliceSTL.py:60`). A face without vertices raises ValueError from `min([])` (`src/STL/SliceSTL.py:86`), and a vertex with fewer than three coordinates raises IndexError (`src/STL/SliceSTL.py:275`). A negative height runs in Python and gives a negative slice count, which the model does not cover.
- Extrusion.Extrusion.constructor: requires the same as the Slicer constructor, which it runs in setupSlices. A zero layer height already raises ZeroDivisionError at `src/STL/Extrusion.py:75`. A negative one is not covered.
- Extrusion.Extrusion.AddPath: requires a path with a first point of at least three coordinates. An empty path or a shorter point raises IndexError in getSliceIndex.
- Extrusion.FindLineSegIntersection: requires a first point of three coordinates, a second of two, and tol >= 0. Shorter points raise IndexError. Its only caller passes the default tolerance 1e-5.
- Methods.LineIntersectsDatum: requires three coordinates on both points. A shorter first point raises IndexError at once; a shorter second point raises unless the first point is within tol of the plane.
- Methods.HorizontalIntersectsLineSeg: requires a segment of two points with at least two coordinates each. Fewer raise IndexError.
- Methods.VerticalIntersectsLineSeg: requires a segment of two points with at least one coordinate each. Fewer raise IndexError.
- Methods.NormalSign: requires a vector of at least two entries, even for a horizontal scan, which reads only the first. A one-entry vector on a horizontal scan runs in Python; an empty one raises IndexError.
- Methods.CalculateNormal: requires three 3-vectors. `np.cross` of 2-vectors gives a scalar and other lengths raise ValueError; neither is modelled.
- Methods.SafeAppend: returns the new list as a value. The source appends to the caller's list in place and returns that same list, so the caller's aliasing of it is not modelled.
- SliceStl.FindMaxAndMinLimits: requires every vertex to have three coordinates. A shorter vertex raises IndexError (`src/STL/SliceSTL.py:275`).
- SliceStl.SlicerLineIntersectsDatum: requires three coordinates on both points. A shorter point raises IndexError.
- SliceStl.SlicerInterpolateZ: requires a first point of three coordinates and a second at least as long. Shorter points raise IndexError.
- Extrusion.Path.GetXYZ: requires every point to have three coordinates. A shorter point raises IndexError (`src/STL/Extrusion.py:35-37`).
- Extrusion.MakePaths: requires as many normals as crossings, 3-coordinate crossings (as FindLineSegIntersection gives) and normals of at least two entries. Fewer normals raise IndexError in sortByOrderedSet or NormalSign; surplus normals run in Python and are not modelled.
- Extrusion.GetPaths: requires at least one normal per outline segment, outline points of three coordinates and normals of two entries. The source reads `hull.normals[i]` only for a segment that crosses the scanline, so fewer normals raise IndexError only then; that case is not modelled.
- Extrusion.Extrusion.SetupSlices: requires the Slicer constructor's conditions, since it builds a Slicer (see SliceStl.Slicer.constructor).
- Clipping.ClassifyFacet: requires a window of three sizes. A shorter window raises IndexError and a longer one runs with its extra entries ignored; neither is modelled. The same holds for the window of Clipping.ClipOne, Clipping.ClipFacets, Clipping.Clip and Clipping.ClipTwice.
- Clipping.ClipOne: requires a window of three sizes, as ClassifyFacet.
- Clipping.ClipFacets: requires a window of three sizes, as ClassifyFacet.
- Clipping.Clip: requires a window of three sizes, as ClassifyFacet.
- Clipping.ClipTwice: requires a window of three sizes, as ClassifyFacet.
- Transforms.Transform.TransformPoints: requires rows of four entries. `A @ self.T` raises ValueError on other row lengths (`src/STL/Transform.py:70`).
- Clipping.ClipAllSound: proved only for facets whose vertices have three coordinates, as the readers parse them. A vertex with a fourth entry adds that entry to CS's code, so a window verdict on such vertices says nothing about the box.
- Clipping.ClipFacetSound: the same 3-coordinate hypothesis as ClipAllSound.
- Clipping.PolygonInBox: the same 3-coordinate hypothesis as ClipAllSound.
- Transforms.RotateToOriginalRestores: assumes exact reals and the laws sin(0) = 0, cos(0) = 1, sin(−a) = −sin(a), cos(−a) = cos(a) and sin² + cos² = 1 for the `sin` and `cos` parameters. It starts from an empty log and covers translations and axis rotations, the updates `rotate` and `rotateInPlace` are made of; scaling, shear, reflection and projection updates in between are not covered. Only the 3×3 linear block of T is restored. The translation part of T is not, because rotateToOriginal undoes no translation.
- Transforms.Transform.TriplePointAngular: requires d != 0, where the source divides by d.
- Transforms.Transform.constructor: requires 3-vectors for the orientation and the centroid. `orig_orientation` and `orig_centroid` are never reassigned, so they are constants.
- Transforms.Transform.TransformNorm: the source also appends 1 to the caller's normal list. That mutation of the argument is not modelled.
- Transforms.Transform.Reflect: requires 3-vectors for the point and the normal, as the Transform constructor model does for the helper transform. Shorter ones raise IndexError (`src/STL/Transform.py:261-264`); longer ones run in Python and are not modelled. Also, the centroid is proved only for the helper transform. Its centroid returns to the plane's point, and a zero normal gives the XY reflection. The composed matrix itself is not simplified.
- Transform's `trimetric`, `dimetric`, `isometric` and `getScaleLengths` (`arcsin`/`arccos` presets), `cavalier` (`tan`), the printout of `axonometric`, and `print`.
- The orientation log holds `Angles` triples. A logged vector of another length raises in `updateOrientation` before it is appended.
- The debug print in `getOffsetSTL` (`src/STL/Offset.py:20-22`).
- Rendering, the GUI widgets and the test scripts: they are outside the slicer core.
