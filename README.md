# HoudiniAlembicLoader core, modelled in Dafny

HoudiniAlembicLoader reads Alembic archives written by Houdini into a flat
list of scene objects: polygon meshes, point clouds and cameras. Each
object carries:

- a name;
- a visibility flag;
- its chain of transform matrices and their product;
- for meshes and point clouds, attribute tables ("spread sheets") keyed by
  attribute name.

This project models the core of that loader and proves properties of the
model:

- the decoder that turns one Alembic property into a typed attribute
  column;
- the column classes and their getters;
- the builder that routes decoded columns by geometry scope into the
  points, vertices and primitives tables and sorts them;
- the table queries;
- the matrix composition `combine_xform`;
- the pre-order walk `parse_object` over the object hierarchy;
- the open/read state of `AlembicStorage`.

The Alembic library is not modelled. Its place is taken by plain data:

- a property is a name, a metadata dictionary and either a flat array
  sample (pod type, data-type extent, element count, scalars), a scalar,
  or a compound of child properties (module `Properties`);
- an object is a node with its full name, its optional `visible` char,
  its schema kind with the one sample the read selects, and its children
  (module `ObjectTree`);
- an archive is its optional `1.samples` value and the hierarchy as each
  sample index selects it (module `Storage`).

Library exceptions become `Err` results (module `Failures`). `open`
receives the library's file opener as a `reader` function parameter.

Modules, in dependency order:

| module | models |
|---|---|
| `Wrappers` | `Option`, `Result`, stand-ins for null pointers and exceptions |
| `Failures` | the exceptions that reach `open`/`read`, and get_as's two messages |
| `Matrices` | 4×4 real matrices stored row-major like Imath's M44d: product, transpose, identity, associativity |
| `Xforms` | `combine_xform` and the order in which it multiplies |
| `CText` | `atoi` (for `arrayExtent`) and the ordering of `std::string` keys |
| `Properties` | the abstract property headers, their typed-property tests, and fetching a compound's `.vals`/`.indices` |
| `Columns` | the `Attribute*Column` classes: kinds, `rowCount`, `get` |
| `Decoder` | `getArrayExtent` and `parse_attributes(parent, key, …)` |
| `SpreadSheet` | `AttributeSpreadSheet`: `get_as`, the typed getters, `rowCount`, `columnCount`, `contains_key`, the sort by key |
| `SheetBuilder` | `parse_attributes(points, vertices, primitives, …)` |
| `Scene` | `SceneObject` and its defaults, the three object kinds, `AlembicScene` |
| `ObjectTree` | the object hierarchy the walk reads |
| `Geometry` | `parse_common_property`, `parse_polymesh`, `parse_points`, and the camera's resolution reads |
| `Walker` | `parse_object` |
| `Storage` | `AlembicStorage` |

Modelling decisions:

- **Matrices.** A matrix is the 16 numbers of Imath's `M44d` in storage
  order. Imath multiplies row vectors on the left, so the loop
  `m = xforms[i] * m` gives `xforms[n-1] * … * xforms[0]`.
  - `to(M44d)` copies the numbers unchanged, so `combinedXforms` is that
    product.
  - `Matrix4x4f`'s comment says its numbers are read column-major. Read
    that way, each matrix is transposed, and `Xforms.ComposeReadColumnMajor`
    proves that the header's description at hpp:206-208 then holds:
    `xforms[0] * xforms[1] * … * xforms[n-1]`.
- **Sheets.** A sheet is a sequence of `(key, column)` entries. The .cpp
  appends with `emplace_back` and sorts with `std::sort`, which needs a
  sequence; the header shown declares `std::map`. The header is out of step
  with the .cpp, and the model follows the .cpp.
  - `find` returns the first entry under a key.
  - `SortByKey` is an insertion sort that keeps equal keys in insertion
    order. `std::sort` on pairs would order equal keys by column pointer,
    which is not modelled.
  - `SpreadSheet.FindSorted` shows that the model's sort keeps every
    lookup: the model's lookup gives the first-inserted entry under a key.
    The source's `std::sort` can put a later-appended column first when a
    key is repeated, so there the two can differ (see "## Left out").
- **One getter for three.** `get_as_string/float/int(index, key)` are the
  one function `SpreadSheet.GetValueAs` with a kind argument.
  `get_as_vector2/3/4(index, key, xs)` are the method
  `SpreadSheet.GetVectorAs`.
- **`column_as_vector3`.** Both `parse_polymesh` and `parse_points` call
  `points.column_as_vector3("P")`, which the header shown does not declare.
  It is modelled as `get_as` with the Vector3 kind, whose failure ends the
  read (its null-pointer reading is under "## Left out").
- **Typed-property matching** is reduced to the pod type:
  - `IFloatArrayProperty` with `kNoMatching` means a float32 array of any
    extent;
  - `IV2fArrayProperty` means a float32 array of extent 2 with
    interpretation `vector`;
  - the int32, uint32 and string arrays are matched by pod type alone.
- **Well-formed samples.** What the library promises of every sample it
  hands out is the predicate `Properties.WellFormed` (extended to the
  hierarchy by `ObjectTree.WellFormedNode` and
  `Storage.WellFormedArchive`): an extent of at least 1, and
  `size * extent` scalars. From it the model proves that every row below
  `rowCount` of a direct column can be read (`Decoder.DecodedIsBacked`),
  so copying `P` never reads past its buffer.
- **Name and visibility.** cpp:438-455 takes both from `o.getParent()`,
  the node's direct parent, wrapped as an `IXform`; the code does not check
  that it is a transform.
- **The top object.** It has no parent. The walk passes it as its own
  parent, which nothing reads, because the top object is never geometry.
- **Row counts.** For a decoded flat float array holding vectors,
  cpp:287-292 divides the element count by `arrayExtent` when that exceeds
  1, and otherwise uses the count itself; it does not divide by the
  component width.
- **No uniform row count.** Nothing in the code checks that the columns of
  a table share a row count: `rowCount()` reads only the first column.

## Model

| member | source | states |
|---|---|---|
| Xforms.CombineXform | src/houdini_alembic.cpp:33-39 | the loop's result is `Compose(xforms)`: start from the identity, multiply each matrix onto the left |
| Xforms.ComposeSnoc | src/houdini_alembic.cpp:33-39 | appending a matrix to the list multiplies it onto the left of the combination |
| Xforms.ComposeSingle | src/houdini_alembic.cpp:33-39 | an empty list combines to the identity, a single matrix to itself |
| Xforms.ComposeIsReversedProduct | src/houdini_alembic.cpp:27-39 | the combination is `xs[n-1] * … * xs[0]`, the left-to-right product of the reversed list |
| Xforms.ComposeReadColumnMajor | src/houdini_alembic.hpp:57-63 | read column-major, as Matrix4x4f declares, the combination is `xs[0] * … * xs[n-1]` of the re-read matrices, as hpp:206-208 describes |
| Xforms.ComposeIsNotLeftToRight | src/houdini_alembic.cpp:27-39 | for a translation and a rotation the combination differs from the naive left-to-right product |
| CText.AtoiOfDecimal | src/houdini_alembic.cpp:61-65 | `atoi` reads back every decimal numeral, signed or not |
| CText.AtoiSkipsSpace | src/houdini_alembic.cpp:61-65 | `atoi` skips a leading white-space character |
| CText.AtoiReadsLeadingDigits | src/houdini_alembic.cpp:61-65 | for any digits followed by a non-digit or nothing, `atoi` gives the digits' value, negated after `-`, unchanged after `+` |
| CText.AtoiNoDigits | src/houdini_alembic.cpp:61-65 | text with no digit, nor sign and digit, after its leading space reads as 0 |
| CText.AtoiExamples | src/houdini_alembic.cpp:61-65 | four inputs: `" 3"` and `"3x"` read as 3, `"x3"` and `""` as 0 |
| CText.KeyLeTotal | src/houdini_alembic.cpp:372-380 | any two keys are ordered one way or the other |
| CText.KeyLeTransitive | src/houdini_alembic.cpp:372-380 | the key order is transitive |
| CText.KeyLeAntisymmetric | src/houdini_alembic.cpp:372-380 | two keys ordered both ways are equal |
| Properties.FindChild | src/houdini_alembic.cpp:51-59 | a compound's child under a name: absent exactly when no child has that name, otherwise a child with that name |
| Properties.FetchStringArray | src/houdini_alembic.cpp:51-59 | reading a child as a string array succeeds exactly when it exists and is one, and then returns that child's sample (size and values); otherwise fails as missing or as mismatched |
| Properties.FetchUInt32Array | src/houdini_alembic.cpp:51-59 | the same for a uint32 array |
| Properties.FetchV2fArray | src/houdini_alembic.cpp:51-59 | the same for a V2f array |
| Columns.Get | src/houdini_alembic.cpp:67-243 | every column's `get` returns a value of the column's kind, with 2, 3 or 4 components for the vector kinds |
| Columns.BackedRowReadable | src/houdini_alembic.cpp:67-224 | a direct column holding a scalar per row can be read at every row below `rowCount` |
| Columns.DirectVectorComponent | src/houdini_alembic.cpp:72-78 | row i, component k of a direct VectorD column is `floats[i*D+k]` |
| Columns.ConcatIsPrefix | src/houdini_alembic.cpp:67-156 | rows 0..n-1 of a direct vector column, laid end to end, give back the first n·D floats of its buffer |
| Columns.IndexedRow | src/houdini_alembic.cpp:158-184 | an indexed String or Vector2 row is the pool entry its index names, whatever the pool size |
| Columns.GetVector | src/houdini_alembic.cpp:72-78 | the vector `get(index, xs)` writes exactly the row's components into `xs[0..D)` and nothing past them |
| Decoder.ArrayExtentOfNumeral | src/houdini_alembic.cpp:61-65 | `getArrayExtent` is 1 when the metadata is missing or empty, and the number for any numeral |
| Decoder.FlatNeverFails | src/houdini_alembic.cpp:274-340 | a flat property never makes the decoder throw |
| Decoder.IndexedFailures | src/houdini_alembic.cpp:254-273 | a compound fails exactly when its `.vals` or `.indices` cannot be fetched, with the first failing fetch's error; otherwise it gives an indexed column |
| Decoder.UnsupportedExactly | src/houdini_alembic.cpp:254-340 | "unsupported" exactly for a flat V2f array, a float array of width outside 1..4, or a property no typed test admits |
| Decoder.DecodedKind | src/houdini_alembic.cpp:254-337 | the kind dispatch: string compound gives String, float32 compound of extent 2 gives Vector2, width 1..4 gives Float/Vector2/3/4, int32 gives Int, string gives String |
| Decoder.DecodedRowCount | src/houdini_alembic.cpp:278-337 | rowCount is the element count (of `.indices` when indexed), and for vector columns the count divided by `arrayExtent` when that exceeds 1 |
| Decoder.DecodedIsBacked | src/houdini_alembic.cpp:278-337 | a direct column decoded from a well-formed sample holds a scalar for each of its rows |
| Decoder.IndexedStringExample | src/houdini_alembic.cpp:227-262 | pool `["a","b"]` with indices `[1,0,1]` reads as rows `"b","a","b"` |
| Decoder.FloatTriplesExample | src/houdini_alembic.cpp:278-325 | nine floats with `arrayExtent` 3 are three Vector3 rows of consecutive triples; without it, a Float column of nine rows |
| Decoder.ArrayExtentWithoutNumber | src/houdini_alembic.cpp:61-65 | a non-empty `arrayExtent` with no number at its head gives extent 0 |
| Decoder.UnreadableArrayExtent | src/houdini_alembic.cpp:278-325 | every flat float attribute whose `arrayExtent` reads as 0 or less is unsupported |
| SpreadSheet.Find | src/houdini_alembic.hpp:115 | `find` fails exactly when no entry has the key |
| SpreadSheet.FindFirst | src/houdini_alembic.hpp:115 | what `find` returns is the column of the first entry under the key |
| SpreadSheet.GetAs | src/houdini_alembic.hpp:113-124 | "key not found" exactly when the key is absent; "value type mismatch" exactly when its column is of another kind; otherwise that column |
| SpreadSheet.GetAsMessages | src/houdini_alembic.hpp:117-121 | the two failures carry the source's two messages |
| SpreadSheet.GetValueAs | src/houdini_alembic.hpp:150-158 | `get_as_X(index, key)` fails as `get_as_X(key)` does, else is `get(index)` of the found column, a value of the requested kind |
| SpreadSheet.GetVectorAs | src/houdini_alembic.hpp:159-167 | `get_as_vectorN(index, key, xs)` fails as `get_as` does without writing, else writes the row's components and nothing more |
| SpreadSheet.ContainsKeyIffFound | src/houdini_alembic.hpp:179-181 | `contains_key` holds exactly when some entry has the key, exactly when `get_as` does not fail with "key not found" |
| SpreadSheet.ColumnCountOfDistinct | src/houdini_alembic.hpp:175-177 | with one entry per key, `columnCount` is the number of keys |
| SpreadSheet.RowCountOfLeastKey | src/houdini_alembic.hpp:169-174 | in a sorted table, `rowCount` is the row count of the column under the least key, as `begin()` gives |
| SpreadSheet.SortSorted | src/houdini_alembic.cpp:372-380 | after the sort the table is ordered by key |
| SpreadSheet.SortPermutes | src/houdini_alembic.cpp:372-380 | the sort keeps exactly the entries it was given |
| SpreadSheet.FindSorted | src/houdini_alembic.cpp:372-380 | sorting changes no lookup |
| SheetBuilder.Route | src/houdini_alembic.cpp:359-369 | `var` and `vtx` go to the points table; `fvr` to the vertices table and `uni` to the primitives table, each exactly when that table was given; any other scope, `""` included, is dropped |
| SheetBuilder.ParseAttributes | src/houdini_alembic.cpp:343-381 | the loop and sorts compute `BuildSheets`: each visible property decoded and appended by scope, the first exception ending the call, then every given table sorted |
| SheetBuilder.ErrorSticks | src/houdini_alembic.cpp:347-370 | once a property's decoding has thrown, the later properties change nothing |
| SheetBuilder.FailsExactly | src/houdini_alembic.cpp:347-370 | the call fails exactly when some visible property fails to decode |
| SheetBuilder.AppendAllContents | src/houdini_alembic.cpp:347-370 | each table gains exactly the selected entries, in property order, and no table appears or disappears |
| SheetBuilder.BuildSheetsContents | src/houdini_alembic.cpp:343-381 | each table comes out sorted and holds its old entries plus the selected ones, nothing else; no empty or `.` key is added; absent tables stay absent |
| SheetBuilder.SelectedVisible | src/houdini_alembic.cpp:350-355 | no selected entry has an empty key or one starting with `.` |
| SheetBuilder.BuiltLookup | src/houdini_alembic.cpp:372-380 | in each of the three tables, a lookup after the sorts finds what it finds in the unsorted appended table |
| SheetBuilder.BuildKeepsBacked | src/houdini_alembic.cpp:343-381 | from well-formed samples every direct column in every table can be read at each of its rows |
| Scene.DefaultCommon | src/houdini_alembic.hpp:189-211 | a new object has an empty name, is not visible, has a zero matrix and no transforms |
| Geometry.VisibilityCases | src/houdini_alembic.cpp:448-455 | visible without a `visible` property; with one, visible exactly when it is -1 |
| Geometry.ParseCommonProperty | src/houdini_alembic.cpp:438-456 | the object takes the parent's name and visibility, its transform list grows by the current list, and its combined matrix is `Compose` of that list |
| Geometry.CommonOfFresh | src/houdini_alembic.cpp:438-456 | for a new object the list is the current one and the combined matrix is the reversed left-to-right product |
| Geometry.ToUInt32Values | src/houdini_alembic.cpp:389-393 | the int32 to uint32 copy keeps non-negative values and wraps negative ones by 2^32 |
| Geometry.CopyUInt32 | src/houdini_alembic.cpp:389-393 | the copy has the sample's length; each int32 is kept when not negative and wrapped by 2^32 when negative |
| Geometry.Positions | src/houdini_alembic.cpp:404-409 | one position per row of the P column |
| Geometry.PositionsAreRows | src/houdini_alembic.cpp:404-409 | position i is row i of the P column |
| Geometry.CopyPositions | src/houdini_alembic.cpp:404-409 | the resize-and-fill loop produces exactly `Positions` of the column |
| Geometry.PositionsFrom | src/houdini_alembic.cpp:403-409 | fails exactly as `get_as("P", Vector3)` does, with its error; else the positions of the column `find` gives |
| Geometry.CameraShape | src/houdini_alembic.cpp:533-534 | fails exactly when `resx` or `resy` is missing, naming the first missing; else their truncations |
| Geometry.TruncateBounds | src/houdini_alembic.cpp:533-534 | `(int)` truncates toward zero by less than one |
| Geometry.MeshFaces | src/houdini_alembic.cpp:389-393 | faceCounts and indices are element-for-element uint32 copies of the sample's int32 arrays, negative values wrapped by 2^32 |
| Geometry.MeshPositions | src/houdini_alembic.cpp:403-409 | a mesh's positions are the P column's rows, one per row |
| Geometry.MeshSorted | src/houdini_alembic.cpp:395-402 | a mesh's three tables are sorted by key |
| Geometry.PointsContents | src/houdini_alembic.cpp:412-436 | a point cloud's ids are the sample's; its positions are the P column's rows; its table is sorted |
| Geometry.MeshNeedsP | src/houdini_alembic.cpp:403-404 | a mesh whose point table has no `P` fails with "key not found" |
| Geometry.ParsePolymesh | src/houdini_alembic.cpp:383-410 | computes `MeshShape`: face copies, the two attribute compounds, then P |
| Geometry.ParsePoints | src/houdini_alembic.cpp:412-436 | computes `PointsShape`: ids, the two attribute compounds into the points table only, then P |
| Walker.ParseObject | src/houdini_alembic.cpp:458-578 | appends exactly the objects of `Walk` to the objects so far, or ends with its failure |
| Walker.WalkEach | src/houdini_alembic.cpp:567-576 | the children are visited in index order, each with the same list |
| Walker.ChildErrorSticks | src/houdini_alembic.cpp:567-576 | once a child's walk has thrown, later children change nothing |
| Walker.WalkCarries | src/houdini_alembic.cpp:458-578 | every emitted object's list extends the list the walk was entered with (and the transform's matrix when at an Xform), and its combined matrix is `Compose` of its list |
| Walker.WalkCount | src/houdini_alembic.cpp:458-578 | one object per geometry node, geometry nodes not descended into |
| Walker.GeometryEmitsOne | src/houdini_alembic.cpp:462-558 | a geometry node emits one object with its parent's name and visibility, the current list and its reversed product; its children are ignored |
| Walker.XformAppendsItsMatrix | src/houdini_alembic.cpp:560-571 | for every geometry child of a transform, its one object is among the transform's objects and carries the received list plus that transform's matrix, and the transform's name and visibility |
| Walker.ChildrenJoined | src/houdini_alembic.cpp:567-576 | the walk over the first k children succeeds exactly when each child's own walk with the same list does, and then gives their objects end to end |
| Walker.SiblingsIsolated | src/houdini_alembic.cpp:560-577 | for any number of children, each is walked on its own with the same list; the walk succeeds exactly when all do, and its objects are theirs in index order |
| Walker.WalkFailsExactly | src/houdini_alembic.cpp:458-578 | the walk fails exactly when some reachable geometry node fails to build |
| Storage.ReadSceneFacts | src/houdini_alembic.cpp:611-626 | a read yields one object per geometry node, each with `Compose` of its list as combined matrix, and fails exactly when a geometry node fails |
| Storage.AlembicStorage.constructor | src/houdini_alembic.hpp:254-256 | a new storage is unopened with frame count 0 |
| Storage.AlembicStorage.Open | src/houdini_alembic.cpp:583-606 | the old archive is dropped first; on success it holds the archive the reader opened, with frame count `1.samples` or 1; on failure it is closed, keeps its frame count, and returns the message |
| Storage.AlembicStorage.Read | src/houdini_alembic.cpp:611-626 | nothing for an unopened storage; otherwise the scene of the walk from the top with an empty list, or nothing and the failure; one object per geometry node |

## Left out

- The Alembic library. It is replaced by the abstract properties, nodes
  and `reader` described above:
  - the text of its exception messages is not modelled (`Failure` keeps
    only which fetch failed);
  - its index clamping for sample selectors is folded into the archive's
    `top` function.
- Camera intrinsics and framing vectors (cpp:508-531, 536-556): matrix
  inverse, `multDirMatrix`, `atan`/`tan`, single-precision arithmetic. Only
  the common fields and the `resx`/`resy` reads are modelled, with their
  failures. The camera's own `schema.get` is assumed not to fail.
- Float and double conversions: the `double *` get overloads, `to(M44d)`'s
  float cast, and `to(V3d)`. Numbers are reals.
- `snprint` formatting.
- Integer widths. Counts and indices are unbounded, and `atoi` overflow
  is not modelled. The explicit int32-to-uint32 face copy and the
  truncating `(int)` casts are modelled.
- Failures while reading `1.samples` in `open` (after the archive is set,
  which would leave it open with `open` returning false), and a `visible`
  property that is not a char. All of these are assumed not to happen.
- The typed-property interpretation checks of the typed reads. Matching
  is by pod type as described above.
- In-place aliasing. Tables are passed to the builder by value and
  returned, rather than through three distinct pointers, and the scene
  objects list is threaded through `ParseObject` the same way.
- SheetBuilder.Route: the operator precedence at cpp:360,
  `points && var || vtx`, is not modelled. Both callers pass a non-null
  `points`, so it is taken as always present.
- Repeated keys in a table. `std::sort` on (key, column pointer) pairs
  puts equal keys in pointer order, so when the two compounds
  (cpp:394-401) both hold a key, the source's lookup may return the
  later-appended column. The model's stable sort always finds the first.
- The null pointer of `column_as_vector3`. The unit tests use it as if it
  returned a nullable pointer. If so, the source dereferences null for a
  mesh or point cloud with no Vector3 `P`. The model has no crashes and
  reports the `get_as` failure instead.
- The uniform-row-count invariant of tables. The code does not enforce
  it.
- The viewer (`ofApp`) and the OpenGL preview are not part of this model.
