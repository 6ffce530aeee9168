/** The elements saveDAE of `daeexport.cpp` builds for each object: the
    geometry with its vertex sources and polylists, the skin controller of a
    rigged mesh, the scene nodes and the material bindings, with the float
    data of the vertex sources. */
module DaeScene {
  import opened Numeric
  import opened Slxp
  import opened SlxpExport
  import opened DaeMaterial
  import opened DaeSources
  import opened DaeGeometry

  /** A `<geometry>`: its id, the positions, normals and map0 sources, the
      `<vertices>` element's id and the source of its POSITION input, and
      the polylists. */
  datatype Geometry = Geometry(
    id: string,
    positions: Source,
    normals: Source,
    map0: Source,
    verticesId: string,
    verticesPosition: string,
    polylists: seq<Polylist>)

  /** A `<controller>` with its `<skin>`: the skinned geometry, the bind
      shape matrix values, the joint-name and bind-pose sources and the
      vertex weights. */
  datatype Controller = Controller(
    id: string,
    skinSource: string,
    bindShapeMatrix: seq<Float>,
    joints: Source,
    bindPoses: Source,
    vertexWeights: VertexWeights)

  /** An `<instance_material>` of a node's bind_material. */
  datatype BoundMaterial = BoundMaterial(symbol: string, target: string)

  /** What a prim node instantiates: the geometry, or the controller with
      its skeleton reference. */
  datatype Instance = InstanceGeometry(url: string) | InstanceController(url: string, skeleton: string)

  /** A node of the visual scene: an object's node (the transform matrix
      values are not modelled), or the avatar node holding the joint tree. */
  datatype SceneNode =
    | PrimNode(id: string, name: string, nodeType: string, instance: Instance, bound: seq<BoundMaterial>)
    | AvatarNode(id: string, name: string, nodeType: string, joints: seq<JointNode>)

  /** A `<material>` of library_materials and the effect it instantiates. */
  datatype MaterialElement = MaterialElement(id: string, effectUrl: string)

  /** The modelled part of the written document. */
  datatype Collada = Collada(
    geometries: seq<Geometry>,
    controllers: seq<Controller>,
    scene: seq<SceneNode>,
    materials: seq<MaterialElement>)

  /** LLMatrix4(): the identity. */
  const IdentityMatrix: Matrix16 := [
    PositiveOne, PositiveZero, PositiveZero, PositiveZero,
    PositiveZero, PositiveOne, PositiveZero, PositiveZero,
    PositiveZero, PositiveZero, PositiveOne, PositiveZero,
    PositiveZero, PositiveZero, PositiveZero, PositiveOne]

  /** A symmetric matrix is its own column-major image. */
  lemma SymmetricColumnMajor(m: Matrix16)
    requires m[1] == m[4] && m[2] == m[8] && m[3] == m[12]
    requires m[6] == m[9] && m[7] == m[13] && m[11] == m[14]
    ensures ColumnMajor(m) == m
  {
    forall i | 0 <= i < 16 ensures ColumnMajor(m)[i] == m[i] {
      assert i == 0 || i == 1 || i == 2 || i == 3 || i == 4 || i == 5 || i == 6 || i == 7
        || i == 8 || i == 9 || i == 10 || i == 11 || i == 12 || i == 13 || i == 14 || i == 15;
    }
  }

  /** The identity is its own column-major image. */
  lemma IdentityColumnMajor()
    ensures ColumnMajor(IdentityMatrix) == IdentityMatrix
  {
    SymmetricColumnMajor(IdentityMatrix);
  }

  /** The node id prim_number gives: "prim" and the object's position. */
  function PrimId(k: nat): string {
    "prim" + NatToString(k)
  }

  // ===========================================================================
  // Kept faces

  /** The number of faces skipFace lets through. */
  function KeptCount(settings: Settings, faces: seq<DaeFace>): nat {
    if faces == [] then 0
    else KeptCount(settings, faces[..|faces| - 1]) + (if Kept(settings, faces[|faces| - 1]) then 1 else 0)
  }

  /** The numbers of the kept faces, in face order. */
  function KeptNumbers(settings: Settings, faces: seq<DaeFace>): seq<int> {
    if faces == [] then []
    else KeptNumbers(settings, faces[..|faces| - 1]) + (if Kept(settings, faces[|faces| - 1]) then [|faces| - 1] else [])
  }

  /** The kept-face list holds exactly the kept face numbers, increasing, one
      per kept face. */
  lemma {:induction false} KeptNumbersFacts(settings: Settings, faces: seq<DaeFace>)
    ensures |KeptNumbers(settings, faces)| == KeptCount(settings, faces)
    ensures forall k :: k in KeptNumbers(settings, faces) <==> 0 <= k < |faces| && Kept(settings, faces[k])
    ensures forall i, j | 0 <= i < j < |KeptNumbers(settings, faces)| ::
      KeptNumbers(settings, faces)[i] < KeptNumbers(settings, faces)[j]
  {
    if faces != [] {
      var init := faces[..|faces| - 1];
      KeptNumbersFacts(settings, init);
      assert forall k | 0 <= k < |init| :: init[k] == faces[k];
      var a := KeptNumbers(settings, init);
      assert forall i | 0 <= i < |a| :: a[i] in a && a[i] < |init|;
    }
  }

  /** Two face lists that select the same faces give the same polylist. */
  lemma {:induction false} PolyIndicesSameDrawn(settings: Settings, faces: seq<DaeFace>, a: Option<seq<int>>, b: Option<seq<int>>)
    requires forall k | 0 <= k < |faces| :: Drawn(settings, a, faces, k) <==> Drawn(settings, b, faces, k)
    ensures PolyIndices(settings, faces, a) == PolyIndices(settings, faces, b)
    ensures TriangleCount(settings, faces, a) == TriangleCount(settings, faces, b)
  {
    if faces != [] {
      var init := faces[..|faces| - 1];
      forall k | 0 <= k < |init|
        ensures Drawn(settings, a, init, k) <==> Drawn(settings, b, init, k)
      {
        assert init[k] == faces[k];
        assert Drawn(settings, a, faces, k) <==> Drawn(settings, b, faces, k);
      }
      PolyIndicesSameDrawn(settings, init, a, b);
    }
  }

  /** Once every kept face is listed, the polylist draws the whole mesh: the
      same indices and triangles as with no face list at all. */
  lemma KeptListDrawsAll(settings: Settings, faces: seq<DaeFace>)
    ensures PolyIndices(settings, faces, Some(KeptNumbers(settings, faces))) == PolyIndices(settings, faces, None)
    ensures TriangleCount(settings, faces, Some(KeptNumbers(settings, faces))) == TriangleCount(settings, faces, None)
  {
    KeptNumbersFacts(settings, faces);
    PolyIndicesSameDrawn(settings, faces, Some(KeptNumbers(settings, faces)), None);
  }

  /** A face drawn with a shorter list is drawn with any list extending it:
      a growing face list only ever adds faces to later polylists. */
  lemma DrawnGrows(settings: Settings, faces: seq<DaeFace>, a: seq<int>, b: seq<int>, k: int)
    requires a <= b && 0 <= k < |faces|
    ensures Drawn(settings, Some(a), faces, k) ==> Drawn(settings, Some(b), faces, k)
  {
    if k in a {
      var i :| 0 <= i < |a| && a[i] == k;
      assert b[i] == k;
    }
  }

  /** A skin readable over every kept face is readable over any face list. */
  lemma SkinReadableAnyList(settings: Settings, faces: seq<DaeFace>, faceList: seq<int>)
    requires SkinReadable(settings, faces, None)
    ensures SkinReadable(settings, faces, Some(faceList))
  {
  }

  // ===========================================================================
  // Vertex data

  /** The kept faces have positions, normals and texture coordinates for
      each of their vertices. */
  predicate VerticesReadable(settings: Settings, faces: seq<DaeFace>) {
    forall k | 0 <= k < |faces| :: Kept(settings, faces[k]) ==>
      faces[k].numVertices <= |faces[k].positions|
      && faces[k].numVertices <= |faces[k].normals|
      && faces[k].numVertices <= |faces[k].texCoords|
  }

  function Floats3(vs: seq<Vec3>): (r: seq<Float>)
    ensures |r| == 3 * |vs|
  {
    if vs == [] then [] else Floats3(vs[..|vs| - 1]) + [vs[|vs| - 1].x, vs[|vs| - 1].y, vs[|vs| - 1].z]
  }

  function Floats2(vs: seq<Vec2>): (r: seq<Float>)
    ensures |r| == 2 * |vs|
  {
    if vs == [] then [] else Floats2(vs[..|vs| - 1]) + [vs[|vs| - 1].x, vs[|vs| - 1].y]
  }

  /** Vertex k of a coordinate list sits at 3k, 3k + 1 and 3k + 2. */
  lemma {:induction false} Floats3At(vs: seq<Vec3>, k: nat)
    requires k < |vs|
    ensures Floats3(vs)[3 * k] == vs[k].x && Floats3(vs)[3 * k + 1] == vs[k].y && Floats3(vs)[3 * k + 2] == vs[k].z
  {
    if k < |vs| - 1 {
      Floats3At(vs[..|vs| - 1], k);
    }
  }

  /** position_data: x, y, z of every vertex of every kept face. */
  function PositionData(settings: Settings, faces: seq<DaeFace>): seq<Float>
    requires VerticesReadable(settings, faces)
  {
    if faces == [] then []
    else
      var f := faces[|faces| - 1];
      PositionData(settings, faces[..|faces| - 1])
      + (if Kept(settings, f) then Floats3(f.positions[..f.numVertices]) else [])
  }

  /** normal_data: x, y, z of every vertex normal of every kept face. */
  function NormalData(settings: Settings, faces: seq<DaeFace>): seq<Float>
    requires VerticesReadable(settings, faces)
  {
    if faces == [] then []
    else
      var f := faces[|faces| - 1];
      NormalData(settings, faces[..|faces| - 1])
      + (if Kept(settings, f) then Floats3(f.normals[..f.numVertices]) else [])
  }

  /** uv_data: s, t of every vertex of every kept face. */
  function UvData(settings: Settings, faces: seq<DaeFace>): seq<Float>
    requires VerticesReadable(settings, faces)
  {
    if faces == [] then []
    else
      var f := faces[|faces| - 1];
      UvData(settings, faces[..|faces| - 1])
      + (if Kept(settings, f) then Floats2(f.texCoords[..f.numVertices]) else [])
  }

  /** The three sources cover the same vertices: three (or two) values for
      each vertex counted into the polylists' index offset, so each of their
      accessors has one entry per vertex. */
  lemma {:induction false} VertexDataLengths(settings: Settings, faces: seq<DaeFace>)
    requires VerticesReadable(settings, faces)
    ensures |PositionData(settings, faces)| == 3 * VertexOffset(settings, faces)
    ensures |NormalData(settings, faces)| == 3 * VertexOffset(settings, faces)
    ensures |UvData(settings, faces)| == 2 * VertexOffset(settings, faces)
  {
    if faces != [] {
      VertexDataLengths(settings, faces[..|faces| - 1]);
    }
  }

  /** The loop body over one kept face's vertices. */
  method AddFaceVertices(pos: seq<Float>, norm: seq<Float>, uv: seq<Float>, f: DaeFace)
    returns (pos': seq<Float>, norm': seq<Float>, uv': seq<Float>)
    requires f.numVertices <= |f.positions| && f.numVertices <= |f.normals| && f.numVertices <= |f.texCoords|
    ensures pos' == pos + Floats3(f.positions[..f.numVertices])
    ensures norm' == norm + Floats3(f.normals[..f.numVertices])
    ensures uv' == uv + Floats2(f.texCoords[..f.numVertices])
  {
    pos', norm', uv' := pos, norm, uv;
    for i := 0 to f.numVertices
      invariant pos' == pos + Floats3(f.positions[..i])
      invariant norm' == norm + Floats3(f.normals[..i])
      invariant uv' == uv + Floats2(f.texCoords[..i])
    {
      assert f.positions[..i + 1][..i] == f.positions[..i];
      assert f.normals[..i + 1][..i] == f.normals[..i];
      assert f.texCoords[..i + 1][..i] == f.texCoords[..i];
      var v := f.positions[i];
      var n := f.normals[i];
      var t := f.texCoords[i];
      AppendAssoc(pos, Floats3(f.positions[..i]), [v.x, v.y, v.z]);
      AppendAssoc(norm, Floats3(f.normals[..i]), [n.x, n.y, n.z]);
      AppendAssoc(uv, Floats2(f.texCoords[..i]), [t.x, t.y]);
      pos' := pos' + [v.x, v.y, v.z];
      norm' := norm' + [n.x, n.y, n.z];
      uv' := uv' + [t.x, t.y];
    }
  }

  /** The face loop of saveDAE: skipped faces contribute no vertices. */
  method VertexData(settings: Settings, faces: seq<DaeFace>) returns (pos: seq<Float>, norm: seq<Float>, uv: seq<Float>)
    requires VerticesReadable(settings, faces)
    ensures pos == PositionData(settings, faces)
    ensures norm == NormalData(settings, faces)
    ensures uv == UvData(settings, faces)
  {
    pos, norm, uv := [], [], [];
    for k := 0 to |faces|
      invariant VerticesReadable(settings, faces[..k])
      invariant pos == PositionData(settings, faces[..k])
      invariant norm == NormalData(settings, faces[..k])
      invariant uv == UvData(settings, faces[..k])
    {
      assert faces[..k + 1][..k] == faces[..k];
      assert faces[..k + 1][k] == faces[k];
      assert VerticesReadable(settings, faces[..k + 1]) by {
        forall j | 0 <= j < k + 1 ensures faces[..k + 1][j] == faces[j] {}
      }
      if SkipFace(settings, faces[k].te) {
        AppendNil(pos);
        AppendNil(norm);
        AppendNil(uv);
        continue;
      }
      pos, norm, uv := AddFaceVertices(pos, norm, uv, faces[k]);
    }
    TakeAll(faces);
  }

  // ===========================================================================
  // Materials

  /** The bind_material entries for a node's materials. */
  function Bound(mats: seq<MaterialInfo>): (r: seq<BoundMaterial>)
    ensures |r| == |mats|
  {
    if mats == [] then []
    else Bound(mats[..|mats| - 1]) + [BoundMaterial(mats[|mats| - 1].name + "-material", "#" + mats[|mats| - 1].name + "-material")]
  }

  /** library_materials: one material per registered material, instantiating
      that material's effect. */
  function Library(mats: seq<MaterialInfo>): (r: seq<MaterialElement>)
    ensures |r| == |mats|
  {
    if mats == [] then []
    else Library(mats[..|mats| - 1]) + [MaterialElement(mats[|mats| - 1].name + "-material", "#" + mats[|mats| - 1].name + "-fx")]
  }

  lemma {:induction false} BoundAt(mats: seq<MaterialInfo>, i: nat)
    requires i < |mats|
    ensures Bound(mats)[i] == BoundMaterial(mats[i].name + "-material", "#" + mats[i].name + "-material")
  {
    if i < |mats| - 1 {
      BoundAt(mats[..|mats| - 1], i);
    }
  }

  lemma {:induction false} LibraryAt(mats: seq<MaterialInfo>, i: nat)
    requires i < |mats|
    ensures Library(mats)[i] == MaterialElement(mats[i].name + "-material", "#" + mats[i].name + "-fx")
  {
    if i < |mats| - 1 {
      LibraryAt(mats[..|mats| - 1], i);
    }
  }

  /** A binding resolves in a library when some library material has the
      binding's symbol as id and the binding's target refers to it. */
  predicate Resolves(b: BoundMaterial, lib: seq<MaterialElement>) {
    exists j | 0 <= j < |lib| :: b.symbol == lib[j].id && b.target == "#" + lib[j].id
  }

  /** Every binding of materials taken from a registry resolves in the
      registry's library. */
  lemma BoundResolves(mats: seq<MaterialInfo>, registry: seq<MaterialInfo>)
    requires forall i | 0 <= i < |mats| :: mats[i] in registry
    ensures forall i | 0 <= i < |mats| :: Resolves(Bound(mats)[i], Library(registry))
  {
    forall i | 0 <= i < |mats|
      ensures Resolves(Bound(mats)[i], Library(registry))
    {
      var j :| 0 <= j < |registry| && registry[j] == mats[i];
      BoundAt(mats, i);
      LibraryAt(registry, j);
      assert "#" + mats[i].name + "-material" == "#" + (mats[i].name + "-material");
      assert Bound(mats)[i].symbol == Library(registry)[j].id && Bound(mats)[i].target == "#" + Library(registry)[j].id;
    }
  }
}
