# Scene exporters and panel predicates of the SingularityA viewer

This project models how the viewer exports in-world objects. It covers two
exporters:

- **SLXP.** The viewer's own scene format, in both its encodings: a binary
  stream of length-prefixed fields behind a magic header, and JSON text with
  a fixed key order and non-finite floats clamped.
- **Collada.** The bookkeeping of the COLLADA 1.4.1 exporter:
  - the material and texture registries;
  - the polylist and skin-weight index arithmetic;
  - the `<source>`/`<accessor>` counts and the 16-value matrix layout;
  - the joint-node tree;
  - the object loop that builds geometries, skin controllers, scene nodes
    and the material library.

Two smaller pieces are modelled beside the exporters:

- the inline status, ordering and filter predicates of `LLNotification`;
- the bit packing of the avatar profile panel, together with its notes-send
  guard, its OK-button guard and the group-row font style.

## How the model is built

Floats are the 32-bit IEEE-754 bit pattern `Float(bits)`:

- Classification (finite, NaN, infinite), `==` and `<` are defined from the
  bits.
- `sanitize` maps every float into the finite subtype.
- Text rendering of a float (ostream `<<`) is a parameter `fmt`.

The binary SLXP path writes into an `OStream` class whose byte sequence
each serializer extends:

- a `size_t` is written as 8 little-endian bytes;
- a float as its 4 bytes.

Every serializer is proved against a byte-sequence function. A decoder of
the same layout proves the round trip.

The Collada exporter is the class `DaeSaver.Saver`:

- its fields are the registries `mAllMaterials`, `mTextures`,
  `mTextureNames` and `mObjects`;
- its methods change them the way the C++ members do;
- the DOM is modelled as the lists and records the exporter appends.

The settings `DAEExportConsolidateMaterials`, `DAEExportSkipTransparent` and
`DAEExportRiggedMesh` are a `Settings` parameter. Inventory lookups
(texture exportability and name) and file-name scrubbing are function
parameters.

The notification clock is a parameter. An `LLDate` is its number of seconds
since the epoch.

### Where the model follows the code rather than the documented behaviour

- `sanitize` maps ±infinity to ±10e30 (that is 1.0e31), as written in
  `indra/slxp/slxp.h:140-142`, not to ±1e30.
- When an object's encoding throws, the export raises `SLXPExportWarning`
  and returns without writing the file (`indra/newview/slxpexport.cpp:213-219`).
  It does not write a partial file.
- The warning notification is raised without the `REASON` argument that the
  code builds beside it (`indra/newview/slxpexport.cpp:215-217`).
- The bind-shape matrix is written to JSON unsanitized
  (`indra/slxp/slxp.h:362`). `Slxp.BindShapeMatrixNotSanitized` exhibits
  that its text depends on how non-finite floats are rendered.

## Model

| member | source | states |
|---|---|---|
| Numeric.ClassesPartition | indra/slxp/slxp.h:136-137 | every float is exactly one of finite, NaN, infinite |
| Numeric.Sanitize | indra/slxp/slxp.h:134-144 | the result is always finite; finite input unchanged, NaN to 0, +inf to 10e30, -inf to -10e30 |
| Numeric.SanitizeFixedPoints | indra/slxp/slxp.h:134-144 | sanitize fixes exactly the finite floats and is idempotent |
| Numeric.FloatEqMeaning | indra/newview/daeexport.h:53 | float `==` is false on NaN and identifies +0 with -0, otherwise equality of bits |
| Numeric.FloatEqReflexive | indra/newview/daeexport.h:62 | a float equals itself iff it is not NaN |
| Numeric.LeRoundTrip | indra/slxp/slxp.h:18-21 | reading back width little-endian bytes gives the value written |
| Numeric.SizeBytes | indra/slxp/slxp.h:18-21 | a `size_t` occupies 8 bytes |
| Numeric.SizeBytesRoundTrip | indra/slxp/slxp.h:18-21 | a size below 2^64 is recovered from its 8 bytes |
| Numeric.FloatBytes | indra/slxp/slxp.h:18-21 | a float occupies 4 bytes |
| Numeric.FloatBytesRoundTrip | indra/slxp/slxp.h:18-21 | a float is recovered from its 4 bytes |
| Numeric.StringBytes | indra/slxp/slxp.h:41-43 | one byte per character |
| Numeric.StringBytesRoundTrip | indra/slxp/slxp.h:41-43 | a byte string is recovered from its bytes |
| Numeric.NatToString | indra/newview/daeexport.cpp:1498 | `%d` of a count is a non-empty string of decimal digits |
| Numeric.ParseNatToString | indra/newview/daeexport.cpp:1498 | the decimal text reads back as the number |
| Numeric.NatToStringInjective | indra/newview/daeexport.cpp:1498 | distinct counts give distinct texts, so "Material<N>" names differ |
| Numeric.JoinSnoc | indra/slxp/slxp.h:72-77 | joining with one more element adds "," and it, with no trailing comma |
| Numeric.LastComma | indra/slxp/slxp.h:72-77 | finds the last separator, or reports that none exists |
| Numeric.SplitJoin | indra/slxp/slxp.h:72-77 | comma-free elements joined by "," split back into the same list |
| Numeric.ReplaceChar | indra/newview/daeexport.cpp:672 | every occurrence of the character is replaced, and nothing else changes |
| Numeric.ReplaceCharFacts | indra/newview/daeexport.cpp:672 | for distinct characters no `from` is left; every `to` in the result came from a `from` or a `to`; other characters kept; a string without `from` is unchanged; replacing twice is replacing once |
| Slxp.NewBase | indra/slxp/slxp.h:292-296 | name, id and parent id as given, parent id defaulting to 0 |
| Slxp.ListJson | indra/slxp/slxp.h:116-131 | an empty list is "[]"; any list is bracketed |
| Slxp.GridRows | indra/slxp/slxp.h:102-114 | one row text per outer index |
| Slxp.VectorToJson | indra/slxp/slxp.h:116-131 | the loop's text is "[", the element texts joined by ",", then "]" |
| Slxp.IndicesToJson | indra/slxp/slxp.h:69-80 | the loop's text is the comma-joined bracketed index list |
| Slxp.ArrayToJson | indra/slxp/slxp.h:82-100 | the loop's text is the bracketed list of the first len floats |
| Slxp.GridRowStep | indra/slxp/slxp.h:106-111 | one row appends the next len1 values as a bracketed row; the text written so far is kept as a prefix |
| Slxp.Array2ToJson | indra/slxp/slxp.h:102-114 | the nested loop's text is the rows, row by row, inside one bracket pair |
| Slxp.IndicesJsonRoundTrip | indra/slxp/slxp.h:69-80 | parsing the index JSON gives back exactly the indices |
| Slxp.JoinNonEmpty | indra/slxp/slxp.h:72-77 | a join starting with a non-empty element is non-empty |
| Slxp.JoinStartsWithFirst | indra/slxp/slxp.h:72-77 | a join begins with its first element |
| Slxp.TrsJsonFiniteOnly | indra/slxp/slxp.h:155-226 | the transform text depends only on how finite floats are rendered |
| Slxp.FaceJsonFiniteOnly | indra/slxp/slxp.h:271-283 | the face text depends only on how finite floats are rendered |
| Slxp.ObjectJsonFiniteOnly | indra/slxp/slxp.h:355-367 | likewise for an object whose bind-shape values, if present, are finite |
| Slxp.GridRowsFiniteOnly | indra/slxp/slxp.h:102-114 | rows of finite values depend only on the finite rendering |
| Slxp.DocumentJsonFiniteOnly | indra/slxp/slxp.h:440-448 | the document text never depends on NaN or infinity rendering, bind-shape values apart |
| Slxp.BindShapeMatrixNotSanitized | indra/slxp/slxp.h:362 | some matrix text differs under two renderings that agree on finite floats |
| Slxp.MatrixStartsWithFirst | indra/slxp/slxp.h:102-114 | the matrix text starts with "[[" and the first value |
| Slxp.BindShapeEntryInsertion | indra/slxp/slxp.h:355-367 | the BindShapeMatrix entry appears between the base keys and Faces iff the flag is set |
| Slxp.FlattenChars | indra/slxp/slxp.h:41-43 | writing characters one by one gives the string's bytes |
| Slxp.DocumentBytesHeader | indra/slxp/slxp.h:426-437 | the stream starts 'S','L','X','P',0,0,1, then the title's 8-byte length, then its bytes |
| Slxp.BinaryIgnoresIdsAndJoints | indra/slxp/slxp.h:298-303 | the binary form ignores ids, parent ids and the joints list |
| Slxp.ObjectViews | indra/slxp/slxp.h:398-402 | one decoded view per object, in order |
| Slxp.ReadSizeRoundTrip | indra/slxp/slxp.h:18-21 | a written size reads back, leaving the rest |
| Slxp.ReadFloatRoundTrip | indra/slxp/slxp.h:18-21 | a written float reads back, leaving the rest |
| Slxp.ReadStringRoundTrip | indra/slxp/slxp.h:41-43 | a length-prefixed string reads back, leaving the rest |
| Slxp.ReadVec3RoundTrip | indra/slxp/slxp.h:165-172 | x, y, z read back in order |
| Slxp.ReadVec4RoundTrip | indra/slxp/slxp.h:184-191 | x, y, z, w read back in order |
| Slxp.ReadTrsRoundTrip | indra/slxp/slxp.h:212-218 | position, rotation, scale read back in order |
| Slxp.ReadChunksRoundTrip | indra/slxp/slxp.h:45-51 | the fixed-size face images read back in order |
| Slxp.ReadObjectRoundTrip | indra/slxp/slxp.h:348-353 | name, transform and face images of an object read back |
| Slxp.ReadObjectsRoundTrip | indra/slxp/slxp.h:53-64 | a serialized object list reads back object by object |
| Slxp.DecodeDocumentRoundTrip | indra/slxp/slxp.h:426-438 | decoding the document's bytes gives its title and object views |
| Slxp.OStream.constructor | indra/slxp/slxp.h:426 | a fresh stream is empty |
| Slxp.OStream.Write | indra/slxp/slxp.h:18-21 | the bytes are appended and nothing else changes |
| Slxp.WriteSize | indra/slxp/slxp.h:18-21 | appends the 8 bytes of the size |
| Slxp.WriteFloat | indra/slxp/slxp.h:18-21 | appends the 4 bytes of the float |
| Slxp.WriteArray | indra/slxp/slxp.h:23-29 | appends the length, then the first len elements in order |
| Slxp.WriteArray2 | indra/slxp/slxp.h:31-39 | appends both dimensions, then the len0·len1 elements row by row |
| Slxp.WriteRow | indra/slxp/slxp.h:36-37 | the inner loop extends the written prefix by one row |
| Slxp.WriteString | indra/slxp/slxp.h:41-43 | appends the length, then the characters |
| Slxp.WriteVector | indra/slxp/slxp.h:45-51 | appends the element count, then every element in order |
| Slxp.SerializeVec3 | indra/slxp/slxp.h:149-172 | appends x, y, z |
| Slxp.SerializeVec4 | indra/slxp/slxp.h:184-191 | appends x, y, z, w |
| Slxp.SerializeTrs | indra/slxp/slxp.h:212-218 | appends position, rotation, scale |
| Slxp.SerializeBase | indra/slxp/slxp.h:298-303 | appends the name and the transform, not the ids |
| Slxp.SerializeObject | indra/slxp/slxp.h:348-353 | appends the base and the face vector |
| Slxp.SerializeObjects | indra/slxp/slxp.h:53-64 | appends the count and every object in order |
| Slxp.SerializeCollection | indra/slxp/slxp.h:398-402 | appends the objects only |
| Slxp.SerializeDocument | indra/slxp/slxp.h:426-438 | appends magic, version, title and collection |
| Slxp.SlxpObject.constructor | indra/slxp/slxp.h:325-328 | name, id, parent id as given; no faces; flag clear; matrix zero |
| Slxp.SlxpObject.SetBindShapeMatrix | indra/slxp/slxp.h:330-334 | all 16 values copied and the flag set, nothing else changed |
| Slxp.SlxpObject.UnsetBindShapeMatrix | indra/slxp/slxp.h:336-341 | only the flag is cleared; the matrix values stay |
| SlxpExport.AppendConverted | indra/newview/slxpexport.cpp:59-112 | the destination grows by exactly size converted elements and keeps its prefix |
| SlxpExport.AppendConvertedFromEmpty | indra/newview/slxpexport.cpp:59-112 | copying into an empty list gives the converted prefix |
| SlxpExport.AddJointsPreorder | indra/newview/slxpexport.cpp:114-119 | appends the subtree in preorder, each joint with its parent's number |
| SlxpExport.PreorderLength | indra/newview/slxpexport.cpp:114-119 | the walk lists every joint of the subtree once |
| SlxpExport.PreorderListLength | indra/newview/slxpexport.cpp:117-118 | the children's walks together list all their joints |
| SlxpExport.PreorderParentsFirst | indra/newview/slxpexport.cpp:114-119 | the root comes first and every other joint's parent is listed before it |
| SlxpExport.ParentsFirstCons | indra/newview/slxpexport.cpp:114-119 | the joint put in front of its preordered children leaves every later entry after its parent |
| SlxpExport.PreorderListParents | indra/newview/slxpexport.cpp:117-118 | in the children's walk each joint's parent is the given joint or listed earlier |
| SlxpExport.JointRecords | indra/newview/slxpexport.cpp:157-166 | one joint record per walked joint |
| SlxpExport.JointRecordsAt | indra/newview/slxpexport.cpp:159-164 | record k is joint k's name, number, parent number or 0, with the avatar's transform |
| SlxpExport.FacesOf | indra/newview/slxpexport.cpp:188-200 | one face record per volume face |
| SlxpExport.BuildFace | indra/newview/slxpexport.cpp:190-199 | the copied face is the face record of the volume face |
| SlxpExport.BuildObject | indra/newview/slxpexport.cpp:170-204 | the built object is the object record of the entry |
| SlxpExport.BuildJoint | indra/newview/slxpexport.cpp:159-164 | the built joint is the joint record with the avatar's transform |
| SlxpExport.BuildJoints | indra/newview/slxpexport.cpp:151-167 | an avatar appends one joint record per joint, in preorder |
| SlxpExport.HandleFilePicker | indra/newview/slxpexport.cpp:121-228 | cancelled, no file name, no objects, failed objects: the notice and no file; otherwise success, with the document JSON written when the file opens and nothing written when it does not |
| SlxpExport.DocumentCounts | indra/newview/slxpexport.cpp:145-205 | joints total the avatars' joint counts; objects count the non-avatar entries |
| SlxpExport.AvatarJointRecords | indra/newview/slxpexport.cpp:151-167 | an avatar's first record is its root with parent 0; all carry the avatar's transform |
| SlxpExport.FacesOfAt | indra/newview/slxpexport.cpp:188-200 | face record k comes from volume face k |
| SlxpExport.FaceCounts | indra/newview/slxpexport.cpp:190-198 | positions, normals and texcoords per vertex; indices copied; tangents and weights only when present |
| SlxpExport.ObjectRecordFacts | indra/newview/slxpexport.cpp:170-200 | faces in order, parent id or 0, flag iff rigged mesh, matrix copied |
| SlxpExport.GetSelectionObjects | indra/newview/slxpexport.cpp:244-253 | appends the selected nodes that have a volume, in order |
| SlxpExport.SelectedEntriesExact | indra/newview/slxpexport.cpp:244-253 | exactly the selected objects with a volume are listed |
| SlxpExport.GetAvatarAttachments | indra/newview/slxpexport.cpp:255-277 | appends each attachment's block in order |
| SlxpExport.AddAttachment | indra/newview/slxpexport.cpp:259-275 | one attachment's block: itself, then its children with a volume |
| SlxpExport.ChildEntriesHaveVolume | indra/newview/slxpexport.cpp:270-275 | listed children have a volume and are named by GetObjectName |
| SlxpExport.AttachmentEntriesFacts | indra/newview/slxpexport.cpp:255-277 | listed entries have a volume; a block starts with its non-HUD attachment |
| DaeMaterial.ColorEqReflexive | indra/newview/daeexport.h:53 | a color equals itself iff no channel is NaN |
| DaeMaterial.EqualMeaning | indra/newview/daeexport.h:56-69 | `==` needs all ids and the name to agree and the four color channels to compare equal; it follows from identity for NaN-free colors; a NaN in any channel of either color makes it false |
| DaeMaterial.MatchesIgnoresName | indra/newview/daeexport.h:46-54 | matches never reads the name |
| DaeMaterial.MatchesMaterialIds | indra/newview/daeexport.h:46-54 | the color id and color are always compared; normal and specular ids only with material params |
| DaeMaterial.Copy | indra/newview/daeexport.h:75-92 | all five fields are copied |
| DaeMaterial.CopyEqual | indra/newview/daeexport.h:75-92 | the copy `==` the original iff the color equals itself |
| DaeMaterial.MaterialOf | indra/newview/daeexport.cpp:1489-1498 | the new material carries the entry's colour id and colour and the given name; normal and specular ids come from the material parameters, and are null when there are none |
| DaeMaterial.MaterialOfMatches | indra/newview/daeexport.cpp:1489-1498 | a new material matches its own entry unless the color holds a NaN |
| DaeGeometry.SkipFaceCases | indra/newview/daeexport.cpp:1470-1474 | skip only with the setting on: always for the transparent texture, else iff alpha < 0.01 |
| DaeGeometry.FaceIndices | indra/newview/daeexport.cpp:854-857 | one emitted index per face index |
| DaeGeometry.AddFaceIndices | indra/newview/daeexport.cpp:854-863 | appends offset + index for each index and one vcount 3 per started triangle |
| DaeGeometry.AddPolygons | indra/newview/daeexport.cpp:812-868 | material, three inputs, the indices of included kept faces, vcount all 3, count = vcount length |
| DaeGeometry.PolyIndicesInRange | indra/newview/daeexport.cpp:846-866 | every emitted index is below the running vertex total |
| DaeGeometry.PolyIndicesCount | indra/newview/daeexport.cpp:846-866 | without a face list, one index per index of every kept face |
| DaeGeometry.KeptUpTo | indra/newview/daeexport.cpp:917-928 | a vertex keeps at most four channels |
| DaeGeometry.VertexCounts | indra/newview/daeexport.cpp:913-930 | one vcount per vertex |
| DaeGeometry.PairsSnoc | indra/newview/daeexport.cpp:923-925 | a kept channel appends (joint, running weight count) and its amount |
| DaeGeometry.AddVertex | indra/newview/daeexport.cpp:915-929 | appends a pair and a weight per positive channel; vcount is their number |
| DaeGeometry.AddFaceWeights | indra/newview/daeexport.cpp:913-930 | appends every vertex's pairs, weights and vcount |
| DaeGeometry.AddJointsAndWeights | indra/newview/daeexport.cpp:870-936 | joint inputs without offset; vertex inputs JOINT at offset 0 and WEIGHT at offset 1, the latter naming the `-weights` source; the weights source holds exactly the kept weights as one WEIGHT float per value; `v` pairs each kept channel with its weight index; vcounts per vertex; count = vcount length |
| DaeGeometry.KeptUpToPositive | indra/newview/daeexport.cpp:921 | only positive amounts are kept |
| DaeGeometry.VertexCountsSum | indra/newview/daeexport.cpp:913-930 | the vcounts add up to the pairs written, each at most 4 |
| DaeGeometry.SkinCountsSum | indra/newview/daeexport.cpp:904-932 | over the whole skin: vcount sum = weight count, each vcount ≤ 4, all amounts positive |
| DaeGeometry.JointNodesOf | indra/newview/daeexport.cpp:995-1000 | one child node per child joint |
| DaeGeometry.AddJointNodes | indra/newview/daeexport.cpp:938-1000 | appends one node holding the joint's subtree |
| DaeGeometry.JointNodeIdsArePreorder | indra/newview/daeexport.cpp:938-1000 | the node ids in document order are the joint names in preorder, one per joint |
| DaeGeometry.JointNodesIdsArePreorder | indra/newview/daeexport.cpp:995-1000 | the children's node ids are their joints' preorder names |
| DaeSources.FloatParams | indra/newview/daeexport.cpp:730-735 | one param per parameter letter |
| DaeSources.AddSourceParams | indra/newview/daeexport.cpp:711-736 | array count = values; accessor count = values / params, stride = params |
| DaeSources.AccessorCoversArray | indra/newview/daeexport.cpp:727-728 | the accessor covers the array up to a remainder smaller than the stride, exactly when divisible |
| DaeSources.AddSourceFloats | indra/newview/daeexport.cpp:738-758 | array and accessor count = values, one float param |
| DaeSources.AddSourceNames | indra/newview/daeexport.cpp:760-780 | Name_array of the names; accessor count = names, one name param |
| DaeSources.AppendMatrix | indra/newview/daeexport.cpp:782-786 | appends the 16 values in column-major order |
| DaeSources.ColumnMajorIsTranspose | indra/newview/daeexport.cpp:784-785 | value 4c + r is row r, column c; applied twice it is the identity |
| DaeSources.ColumnMajorAll | indra/newview/daeexport.cpp:793-800 | 16 values per matrix |
| DaeSources.ColumnMajorAllAt | indra/newview/daeexport.cpp:799-800 | matrix k occupies values 16k to 16k + 15 |
| DaeSources.AddSourceMatrices | indra/newview/daeexport.cpp:788-810 | array count 16·n, accessor count n, stride 16, one float4x4 param |
| DaeSources.MatrixSourceLayout | indra/newview/daeexport.cpp:788-810 | value 16k + 4c + r is row r, column c of matrix k |
| DaeScene.SymmetricColumnMajor | indra/newview/daeexport.cpp:782-786 | a symmetric matrix is written as itself |
| DaeScene.IdentityColumnMajor | indra/newview/daeexport.cpp:1386 | the bind shape matrix written is the identity |
| DaeScene.KeptNumbersFacts | indra/newview/daeexport.cpp:1328-1332 | the face list holds exactly the kept face numbers, increasing, one per kept face |
| DaeScene.PolyIndicesSameDrawn | indra/newview/daeexport.cpp:852 | two face lists that include the same faces give the same polylist |
| DaeScene.KeptListDrawsAll | indra/newview/daeexport.cpp:1328-1334 | the last per-face polylist draws the whole mesh, as with no list |
| DaeScene.DrawnGrows | indra/newview/daeexport.cpp:1315-1335 | a face included by a list is included by every extension of it |
| DaeScene.SkinReadableAnyList | indra/newview/daeexport.cpp:1395 | weights readable for every kept face suffice for any face list |
| DaeScene.Floats3 | indra/newview/daeexport.cpp:1278-1284 | three values per vertex |
| DaeScene.Floats2 | indra/newview/daeexport.cpp:1288-1289 | two values per texture coordinate |
| DaeScene.Floats3At | indra/newview/daeexport.cpp:1278-1284 | vertex k sits at 3k, 3k+1, 3k+2 |
| DaeScene.VertexDataLengths | indra/newview/daeexport.cpp:1232-1300 | positions and normals hold 3, uvs 2 values per vertex of the polylists' offset |
| DaeScene.AddFaceVertices | indra/newview/daeexport.cpp:1263-1290 | appends each vertex's position, normal and texture coordinate |
| DaeScene.VertexData | indra/newview/daeexport.cpp:1232-1296 | the face loop yields exactly the data of the kept faces |
| DaeScene.Bound | indra/newview/daeexport.cpp:1441-1447 | one binding per object material |
| DaeScene.Library | indra/newview/daeexport.cpp:1454-1460 | one library material per registered material |
| DaeScene.BoundAt | indra/newview/daeexport.cpp:1443-1446 | binding i is "<name>-material" targeting "#<name>-material" |
| DaeScene.LibraryAt | indra/newview/daeexport.cpp:1456-1459 | material i is "<name>-material" instancing "#<name>-fx" |
| DaeScene.BoundResolves | indra/newview/daeexport.cpp:1441-1460 | every binding of registered materials names a library material |
| DaeSaver.FirstMatch | indra/newview/daeexport.cpp:1480-1486 | the first registered material that matches, or none matches |
| DaeSaver.GetMaterialFacts | indra/newview/daeexport.cpp:1476-1501 | consolidating with a match: registry unchanged, result matches; otherwise one record "Material<N>" appended |
| DaeSaver.RegistryNamesUnique | indra/newview/daeexport.cpp:1498 | registered names are pairwise distinct |
| DaeSaver.MaterialsStepFacts | indra/newview/daeexport.cpp:1508-1517 | one face keeps the registry growing and named, the list registered and free of `==` pairs |
| DaeSaver.MaterialsPassFacts | indra/newview/daeexport.cpp:1503-1519 | the same over every face |
| DaeSaver.MaterialsPassUnconsolidated | indra/newview/daeexport.cpp:1503-1519 | without consolidation: one new material per kept face, and the list gets exactly those |
| DaeSaver.FacesPassFacts | indra/newview/daeexport.cpp:1521-1531 | the registry only grows; appended face numbers are valid and increasing |
| DaeSaver.FacesPassRegistersSkippedFace | indra/newview/daeexport.cpp:1526 | a skipped face can still register a material |
| DaeSaver.DedupFacts | indra/newview/daeexport.cpp:663-667 | no id twice, exactly the candidates, in first-seen order |
| DaeSaver.TextureNameFacts | indra/newview/daeexport.cpp:668-678 | blank or non-exportable ids get an empty name; no name holds a space (through ReplaceCharFacts) |
| DaeSaver.TextureNames | indra/newview/daeexport.cpp:667-678 | one name per registered id |
| DaeSaver.ExportableCount | indra/newview/daeexport.cpp:412-421 | the non-empty names count the exportable ids, exactly when scrubbing never empties a name |
| DaeSaver.NumExportableTextures | indra/newview/daeexport.cpp:412-421 | the count of non-empty names |
| DaeSaver.ConsolidatedPassFacts | indra/newview/daeexport.cpp:1316-1324 | the material passes only extend the registry and the face list |
| DaeSaver.ConsolidatedListsGrow | indra/newview/daeexport.cpp:1315-1324 | each polylist's face list extends the previous one |
| DaeSaver.ObjectMaterialsRegistered | indra/newview/daeexport.cpp:1311-1336 | after an object every material it binds is registered |
| DaeSaver.RegistryAfterObjectsNamed | indra/newview/daeexport.cpp:1126-1460 | the library's material ids are pairwise distinct |
| DaeSaver.SceneStep | indra/newview/daeexport.cpp:1338-1407 | one object's nodes keep the scene invariant |
| DaeSaver.AvatarStep | indra/newview/daeexport.cpp:1354-1374 | at most one avatar node, present iff the flag is set, rooted at the skeleton id |
| DaeSaver.AvatarUniqueStep | indra/newview/daeexport.cpp:1354-1374 | the avatar node is appended only while none is in the scene, so there is never a second one |
| DaeSaver.SkeletonsStep | indra/newview/daeexport.cpp:1398-1402 | every controller instance names the avatar's root joint |
| DaeSaver.PolylistsInRange | indra/newview/daeexport.cpp:1298-1336 | every polylist indexes only vertices the positions source holds |
| DaeSaver.GeometriesSnoc | indra/newview/daeexport.cpp:1216-1336 | the geometry list keeps, for each object k so far, the geometry `prim<k>-mesh` with its sources and one polylist per material drawn with that material's face list |
| DaeSaver.SkinnedCountStrict | indra/newview/daeexport.cpp:1348-1412 | a skinned object adds a controller, so later skinned objects get strictly later controller indices |
| DaeSaver.PrimNodesAppend | indra/newview/daeexport.cpp:1338 | the prim nodes of a concatenated scene are those of each part in order |
| DaeSaver.PrimNodesStep | indra/newview/daeexport.cpp:1338-1374 | appending one object's nodes adds exactly its prim node to the prim nodes |
| DaeSaver.PrimNodesOfObject | indra/newview/daeexport.cpp:1338-1374 | one object's nodes hold exactly one prim node, the first |
| DaeSaver.ControllersStep | indra/newview/daeexport.cpp:1348-1412 | a skinned object's controller goes at index "skinned objects so far"; an unskinned object adds none |
| DaeSaver.PrimsStep | indra/newview/daeexport.cpp:1338-1447 | the k-th prim node is `prim<k>`, instancing object k's skin or geometry and binding its materials |
| DaeSaver.ObjectsSavedStep | indra/newview/daeexport.cpp:1189-1448 | geometries, controllers and prim nodes stay tied to the objects they came from |
| DaeSaver.SaveStateStep | indra/newview/daeexport.cpp:1189-1448 | one object's output keeps the whole loop invariant |
| DaeSaver.BindingsResolve | indra/newview/daeexport.cpp:1440-1460 | every material a prim node binds is in the material library |
| DaeSaver.BoundRegisteredStep | indra/newview/daeexport.cpp:1440-1447 | bindings stay within the registry as it grows |
| DaeSaver.Saver.constructor | indra/newview/daeexport.cpp:1467-1468 | all registries empty |
| DaeSaver.Saver.Add | indra/newview/daeexport.cpp:632-635 | appends the object and its name, nothing else |
| DaeSaver.Saver.GetMaterial | indra/newview/daeexport.cpp:1476-1501 | result and registry as specified by getMaterial |
| DaeSaver.Saver.GetMaterials | indra/newview/daeexport.cpp:1503-1519 | the loop state equals the pass over all faces |
| DaeSaver.Saver.GetMaterialsStep | indra/newview/daeexport.cpp:1507-1518 | one face: skipped, or its material registered and appended unless consolidation finds an `==` one |
| DaeSaver.Saver.GetFacesWithMaterial | indra/newview/daeexport.cpp:1521-1531 | every face goes through getMaterial; the numbers of `==` faces appended |
| DaeSaver.Saver.AddTexture | indra/newview/daeexport.cpp:663-678 | the registry stays the deduplicated candidates with their names |
| DaeSaver.Saver.AddCandidates | indra/newview/daeexport.cpp:663-679 | one face's candidates registered in order |
| DaeSaver.Saver.AddFaceTextures | indra/newview/daeexport.cpp:646-680 | one object's faces registered |
| DaeSaver.Saver.UpdateTextureInfo | indra/newview/daeexport.cpp:637-682 | ids are the deduplicated candidates of every face; names are parallel |
| DaeSaver.Saver.PlanConsolidated | indra/newview/daeexport.cpp:1316-1324 | one polylist per material, drawn with the growing face list |
| DaeSaver.Saver.AddMaterialPolylist | indra/newview/daeexport.cpp:1318-1323 | one material's pass and polylist keep the plan invariant |
| DaeSaver.Saver.AddKeptFace | indra/newview/daeexport.cpp:1332-1334 | appends the face number and a polylist drawn with the list so far |
| DaeSaver.Saver.PerFaceStep | indra/newview/daeexport.cpp:1328-1335 | one face keeps the per-face invariant; a skipped face changes nothing, a kept face k appends k to the face list and adds one polylist |
| DaeSaver.Saver.PlanPerFace | indra/newview/daeexport.cpp:1325-1336 | one polylist per kept face, each drawn with the kept numbers so far; material index stays in range |
| DaeSaver.Saver.AddGeometry | indra/newview/daeexport.cpp:1216-1336 | geometry `prim<k>-mesh` with its sources and one polylist per material, each drawn with that material's face list; registry and face list as specified |
| DaeSaver.Saver.AddNodes | indra/newview/daeexport.cpp:1338-1447 | the prim node `prim<k>`, its skin or geometry instance, its bindings, and the avatar node once |
| DaeSaver.Saver.BuildSources | indra/newview/daeexport.cpp:1298-1300 | positions, normals and map0 sources of the kept vertices |
| DaeSaver.Saver.PlanPolylists | indra/newview/daeexport.cpp:1314-1336 | the consolidated or per-face plan |
| DaeSaver.Saver.AddSkin | indra/newview/daeexport.cpp:1348-1412 | controller iff skinned, with `-joints`, `-bind_poses` (TRANSFORM float4x4) and `-weights` sources that its joint and vertex-weight inputs reference by id; avatar node only for the first; skeleton reference |
| DaeSaver.Saver.BindMaterials | indra/newview/daeexport.cpp:1440-1447 | the bindings of the object's materials |
| DaeSaver.Saver.LibraryMaterials | indra/newview/daeexport.cpp:1454-1460 | the library of the registry |
| DaeSaver.Saver.SaveObject | indra/newview/daeexport.cpp:1189-1448 | one object keeps the loop invariant |
| DaeSaver.Saver.AddObject | indra/newview/daeexport.cpp:1189-1448 | object k's geometry, controller iff skinned, prim node and bindings, with the registry after its materials |
| DaeSaver.Saver.SaveDae | indra/newview/daeexport.cpp:1114-1465 | geometry k is object k's mesh with one polylist per material and its face list; each skinned object j has its controller at index "skinned objects before j"; prim node k is `prim<k>` instancing object k's skin or geometry; every binding resolves in the library; at most one avatar; skeletons resolve |
| Notifications.ForLookup | indra/llui/llnotifications.h:379 | the lookup notification has the given id, priority UNSPECIFIED, no temporary responder, expiry at the epoch, and is neither cancelled, responded to nor ignored |
| Notifications.ExpiryMonotone | indra/llui/llnotifications.h:541-550 | never expires at epoch 0; otherwise expired iff now is later; stays expired |
| Notifications.ActiveMeaning | indra/llui/llnotifications.h:442-447 | active iff not responded, not cancelled, not expired; active now means active before |
| Notifications.LookupActive | indra/llui/llnotifications.h:379 | a lookup notification is active and not ignored |
| Notifications.IdentityOnlyById | indra/llui/llnotifications.h:509-522 | `<`, `==`, `!=` and orderByUUID read only the id |
| Notifications.OrderByUuidIsStrict | indra/llui/llnotifications.h:616-622 | orderByUUID is a strict weak order whose equivalence is `==`, agreeing with `<` |
| Notifications.LookupFinds | indra/llui/llnotifications.h:379 | the lookup notification of an id is `==` to the notification |
| Notifications.FilterByInt | indra/llui/llnotifications.h:589-606 | each tag compares field and value by its operator; unknown tags keep nothing |
| Notifications.FilterByIdFindsSame | indra/llui/llnotifications.h:582 | the default EQUAL filter on the id finds exactly the `==` notifications |
| Notifications.ParentChannelName | indra/llui/llnotifications.h:739 | the empty string without parents, else the first parent |
| AvatarPanel.BitOfOr | indra/newview/llpanelavatar.cpp:753 | a bit of `a \| b` is set iff set in a or b |
| AvatarPanel.BitOfAnd | indra/newview/llpanelavatar.cpp:728 | a bit of `a & b` is set iff set in both |
| AvatarPanel.BitOfPow2 | indra/newview/llpanelavatar.cpp:728 | `1<<n` has exactly bit n |
| AvatarPanel.BitsDetermineMask | indra/newview/llpanelavatar.cpp:747-764 | two masks below 2^k with the same low k bits are equal |
| AvatarPanel.AndPow2 | indra/newview/llpanelavatar.cpp:728-732 | `mask & 1<<t` is non-zero iff bit t is set |
| AvatarPanel.BitOfLowMask | indra/newview/llpanelavatar.cpp:726-733 | 2^k - 1 has exactly the bits below k |
| AvatarPanel.MaskOf | indra/newview/llpanelavatar.cpp:747-764 | the mask of k boxes is below 2^k |
| AvatarPanel.MaskOfBits | indra/newview/llpanelavatar.cpp:747-764 | bit t set iff box t exists and is checked |
| AvatarPanel.ChecksOf | indra/newview/llpanelavatar.cpp:726-733 | one box per counted bit |
| AvatarPanel.GetAfterSet | indra/newview/llpanelavatar.cpp:726-764 | get after set gives the mask restricted to its low count bits |
| AvatarPanel.SetAfterGet | indra/newview/llpanelavatar.cpp:726-764 | set after get gives the boxes back |
| AvatarPanel.AdvancedPanel.constructor | indra/newview/llpanelavatar.cpp:694-703 | no boxes in use and no line editors |
| AvatarPanel.AdvancedPanel.PostBuild | indra/newview/llpanelavatar.cpp:536-558 | want-to count min(8, size), skills count min(6, size), editors found |
| AvatarPanel.AdvancedPanel.SetWantSkills | indra/newview/llpanelavatar.cpp:722-741 | counted boxes take the mask bits, the rest unchanged; texts set only with both editors |
| AvatarPanel.AdvancedPanel.GetWantSkills | indra/newview/llpanelavatar.cpp:743-776 | bit t set iff t is counted and box t checked; texts from the editors when present |
| AvatarPanel.Unpack | indra/newview/llpanelavatar.cpp:726-733 | counted boxes set from the bits, the others untouched |
| AvatarPanel.Pack | indra/newview/llpanelavatar.cpp:747-764 | the mask of the counted boxes, no higher bit |
| AvatarPanel.NotesToSendMeaning | indra/newview/llpanelavatar.cpp:1575-1592 | sent iff changed and, without server notes, neither empty nor "Loading"; the text as edited |
| AvatarPanel.OkEnabled | indra/newview/llpanelavatar.cpp:1644-1648 | OK enabled exactly when the properties are in and the button is visible |
| AvatarPanel.GroupFontStyleRoundTrip | indra/newview/llpanelavatar.cpp:263-269 | the style reads back as (listed in profile, is the active group); "NORMAL" for an unknown group |

## Left out

- Floating-point geometry is not modelled: the bind-shape transform of vertices and normals, the renormalisation of normals, `transformTexCoord`, and the node and joint matrices (`getJointMatrixForAttachment`, `getRelativeMatrix`, `getMatrixRotScale`). Vertex data enters the model after that transform.
- The split of a packed weight value into joint index and amount (`(S32)w[c]` and `w[c] - joint_idx`) is float arithmetic and is not modelled. Each weight channel is given as a (joint, amount) pair already split out. Whether a channel is kept is the exporter's own `amount > 0.0f` test, modelled as an IEEE `<` on the amount's bits.
- Float-to-text formatting (ostream `<<`, `llformat("%f")`) is a parameter.
- `generateEffects`, `generateImagesSection` and texture export are not modelled. They are asynchronous cache reads, idle workers and image codecs.
- The permission checks are oracles: `canExportTexture` is the function parameter `exportName`, and `getScrubbedFileName` is `scrub`.
- These are not modelled: `LLURI::escape` of the file name, the asset header with its `gmtime` timestamp, the author lookup in `LLAvatarNameCache`, and `dae.writeAll`.
- The raw byte dump of an `SLXPFace` is an opaque fixed-size image (`RawLayout`). The `serialize_vector` cast over the index list is undefined behaviour and is not modelled separately.
- The binary SLXP path is unused by the exporter and is modelled independently of `HandleFilePicker`.
- Slxp.SlxpObject.constructor: sets the transform to zero vectors. The C++ constructor leaves the transform uninitialised until the exporter copies it.
- Slxp.ReadStringRoundTrip: holds only for strings of byte-sized characters, because the model's characters are wider than a C++ `char`.
- SlxpExport.GetObjectName has no contract. The `Title` name-value pair is an optional string of the object, and "Object" is used when it is absent.
- Object names in `slxpexport.h` resolved asynchronously (`processObjectProperties`) are not modelled. Their definitions are not part of this model.
- AvatarPanel.AdvancedPanel.GetWantSkills: always produces both masks. A null mask argument, which the C++ skips, is not modelled.
- AvatarPanel.AdvancedPanel: the checkboxes are boolean arrays and the line editors are optional strings. The widgets are not modelled.
- Notifications.UuidLess: assumes LLUUID's byte-wise `<` agrees with the order of the 128-bit value. LLUUID is not part of this model.
- Notifications.ExpiryMonotone: an `LLDate` is whole seconds since the epoch. The clock is a parameter.
- Notification channels, signals, templates, XML and LLSD parsing, and the singletons in `llnotifications.h` are not modelled. Only `filterBy` is modelled among the filters.
- DaeSaver.Saver.SaveDae: the scene node transform matrices and the float content of joint nodes are not modelled. The `<asset>` header and the effects library are left out as listed above.
