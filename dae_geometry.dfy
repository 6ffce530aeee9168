/** The geometry builders of the Collada exporter (`daeexport.cpp`): which
    faces are skipped, the `<polylist>` of an object with its running vertex
    offset, the `<vertex_weights>` of a rigged mesh, and the joint `<node>`
    tree of the skeleton. */
module DaeGeometry {
  import opened Numeric
  import opened Slxp
  import opened SlxpExport
  import opened DaeMaterial
  import opened DaeSources

  /** LL_TEXTURE_BLANK and LL_TEXTURE_TRANSPARENT. */
  const TextureBlank: Uuid := 0x5748_decc_f629_461c_9a36_a35a_221f_e21f
  const TextureTransparent: Uuid := 0x8dcd_4a48_2d37_4909_9f78_f7a9_eb4e_f903

  /** The saved settings the exporter reads: DAEExportConsolidateMaterials,
      DAEExportSkipTransparent, DAEExportRiggedMesh. */
  datatype Settings = Settings(consolidateMaterials: bool, skipTransparent: bool, exportRiggedMesh: bool)

  /** One weight channel of a vertex: the joint index and the amount the
      exporter splits out of the packed float (the split itself is float
      arithmetic and not modelled). */
  datatype Channel = Channel(joint: int, amount: Float)

  /** A vertex's four weight channels. */
  datatype Weights = Weights(c0: Channel, c1: Channel, c2: Channel, c3: Channel)

  function Component(w: Weights, c: nat): Channel
    requires c < 4
  {
    if c == 0 then w.c0 else if c == 1 then w.c1 else if c == 2 then w.c2 else w.c3
  }

  /** A volume face with its texture entry. `indices` holds mNumIndices
      entries; the vertex values are those the exporter writes (after the
      bind-shape and texture-parameter transforms, which are float geometry). */
  datatype DaeFace = DaeFace(
    te: TextureEntry,
    numVertices: nat,
    indices: seq<uint16>,
    positions: seq<Vec3>,
    normals: seq<Vec3>,
    texCoords: seq<Vec2>,
    weights: seq<Weights>)

  /** skipFace: with DAEExportSkipTransparent on, a face whose alpha is below
      0.01 or whose texture is the transparent one. */
  predicate SkipFace(settings: Settings, te: TextureEntry) {
    settings.skipTransparent && (FloatLess(te.color.a, OneHundredth) || te.id == TextureTransparent)
  }

  /** With the setting off nothing is skipped; with it on, a NaN alpha alone
      does not skip a face (NaN is not below anything), the transparent
      texture always does. */
  lemma SkipFaceCases(settings: Settings, te: TextureEntry)
    ensures !settings.skipTransparent ==> !SkipFace(settings, te)
    ensures settings.skipTransparent && te.id == TextureTransparent ==> SkipFace(settings, te)
    ensures settings.skipTransparent && te.color.a.IsNaN() ==> (SkipFace(settings, te) <==> te.id == TextureTransparent)
    ensures settings.skipTransparent && te.id != TextureTransparent ==>
      (SkipFace(settings, te) <==> FloatLess(te.color.a, OneHundredth))
  {
  }

  predicate Kept(settings: Settings, f: DaeFace) {
    !SkipFace(settings, f.te)
  }

  /** The face list argument: NULL (every face) or the listed face numbers. */
  predicate Included(faceList: Option<seq<int>>, k: int) {
    faceList.None? || k in faceList.value
  }

  // ===========================================================================
  // addPolygons

  /** An `<input>` of a polylist. */
  datatype Input = Input(semantic: string, offset: nat, source: string)

  datatype Polylist = Polylist(material: string, inputs: seq<Input>, p: seq<int>, vcount: seq<int>, count: nat)

  /** A polylist's inputs: vertices, normals and map0 of its geometry, all
      at offset 0 (one index per corner serves all three). */
  function PolylistInputs(geomId: string): seq<Input> {
    [Input("VERTEX", 0, "#" + geomId + "-vertices"), Input("NORMAL", 0, "#" + geomId + "-normals"),
     Input("TEXCOORD", 0, "#" + geomId + "-map0")]
  }

  /** The running vertex offset: the vertices of every kept face so far,
      whether or not the face is included. */
  function VertexOffset(settings: Settings, faces: seq<DaeFace>): nat {
    if faces == [] then 0
    else (VertexOffset(settings, faces[..|faces| - 1])
      + (if Kept(settings, faces[|faces| - 1]) then faces[|faces| - 1].numVertices else 0))
  }

  /** A face's indices shifted by the offset, as U32 values. */
  function FaceIndices(f: DaeFace, offset: nat): (r: seq<int>)
    ensures |r| == |f.indices|
  {
    seq(|f.indices|, i requires 0 <= i < |f.indices| => (offset + f.indices[i]) % 0x1_0000_0000)
  }

  /** The faces a polylist draws: kept and included. */
  predicate Drawn(settings: Settings, faceList: Option<seq<int>>, faces: seq<DaeFace>, k: int)
    requires 0 <= k < |faces|
  {
    Kept(settings, faces[k]) && Included(faceList, k)
  }

  function PolyIndices(settings: Settings, faces: seq<DaeFace>, faceList: Option<seq<int>>): seq<int> {
    if faces == [] then []
    else
      PolyIndices(settings, faces[..|faces| - 1], faceList)
      + (if Drawn(settings, faceList, faces, |faces| - 1)
         then FaceIndices(faces[|faces| - 1], VertexOffset(settings, faces[..|faces| - 1])) else [])
  }

  /** One triangle is counted at every third index of a drawn face. */
  function TriangleCount(settings: Settings, faces: seq<DaeFace>, faceList: Option<seq<int>>): nat {
    if faces == [] then 0
    else
      TriangleCount(settings, faces[..|faces| - 1], faceList)
      + (if Drawn(settings, faceList, faces, |faces| - 1) then (|faces[|faces| - 1].indices| + 2) / 3 else 0)
  }

  /** Appends one face's shifted indices, a vcount of 3 at every third. */
  method AddFaceIndices(p: seq<int>, vcount: seq<int>, f: DaeFace, offset: nat)
    returns (p': seq<int>, vcount': seq<int>)
    requires forall j | 0 <= j < |vcount| :: vcount[j] == 3
    ensures p' == p + FaceIndices(f, offset)
    ensures |vcount'| == |vcount| + (|f.indices| + 2) / 3
    ensures forall j | 0 <= j < |vcount'| :: vcount'[j] == 3
  {
    p', vcount' := p, vcount;
    for i := 0 to |f.indices|
      invariant p' == p + FaceIndices(f, offset)[..i]
      invariant |vcount'| == |vcount| + (i + 2) / 3
      invariant forall j | 0 <= j < |vcount'| :: vcount'[j] == 3
    {
      var index := (offset + f.indices[i]) % 0x1_0000_0000;
      TakeSnoc(FaceIndices(f, offset), i);
      AppendAssoc(p, FaceIndices(f, offset)[..i], [index]);
      p' := p' + [index];
      if i % 3 == 0 {
        vcount' := vcount' + [3];
      }
    }
    TakeAll(FaceIndices(f, offset));
  }

  /** addPolygons: the three inputs, then for each kept face (in order) its
      indices shifted by the running offset when the face is included; the
      offset grows by every kept face's vertex count. */
  method AddPolygons(geomId: string, materialId: string, faces: seq<DaeFace>, settings: Settings, faceList: Option<seq<int>>)
    returns (pl: Polylist)
    ensures pl.material == materialId
    ensures pl.inputs == PolylistInputs(geomId)
    ensures pl.p == PolyIndices(settings, faces, faceList)
    ensures |pl.vcount| == TriangleCount(settings, faces, faceList)
    ensures forall j | 0 <= j < |pl.vcount| :: pl.vcount[j] == 3
    ensures pl.count == |pl.vcount|
  {
    var inputs := [Input("VERTEX", 0, "#" + geomId + "-vertices"), Input("NORMAL", 0, "#" + geomId + "-normals"),
      Input("TEXCOORD", 0, "#" + geomId + "-map0")];
    var p: seq<int> := [];
    var vcount: seq<int> := [];
    var indexOffset: nat := 0;
    var numTris: nat := 0;
    for k := 0 to |faces|
      invariant indexOffset == VertexOffset(settings, faces[..k])
      invariant p == PolyIndices(settings, faces[..k], faceList)
      invariant |vcount| == numTris == TriangleCount(settings, faces[..k], faceList)
      invariant forall j | 0 <= j < |vcount| :: vcount[j] == 3
    {
      assert faces[..k + 1][..k] == faces[..k];
      assert faces[..k + 1][k] == faces[k];
      if SkipFace(settings, faces[k].te) {
        AppendNil(p);
        continue;
      }
      var f := faces[k];
      if faceList.None? || k in faceList.value {
        p, vcount := AddFaceIndices(p, vcount, f, indexOffset);
        numTris := numTris + (|f.indices| + 2) / 3;
      } else {
        AppendNil(p);
      }
      indexOffset := indexOffset + f.numVertices;
    }
    TakeAll(faces);
    pl := Polylist(materialId, inputs, p, vcount, numTris);
  }

  /** A face whose indices stay below its vertex count. */
  predicate FaceIndicesValid(f: DaeFace) {
    forall i | 0 <= i < |f.indices| :: f.indices[i] < f.numVertices
  }

  /** Every index a polylist emits points into the geometry's vertex block of
      the face it came from, hence below the total vertex count, provided
      faces index their own vertices and the total fits in 32 bits. */
  lemma {:induction false} PolyIndicesInRange(settings: Settings, faces: seq<DaeFace>, faceList: Option<seq<int>>)
    requires forall k | 0 <= k < |faces| :: FaceIndicesValid(faces[k])
    requires VertexOffset(settings, faces) <= 0x1_0000_0000
    ensures forall j | 0 <= j < |PolyIndices(settings, faces, faceList)| ::
      0 <= PolyIndices(settings, faces, faceList)[j] < VertexOffset(settings, faces)
  {
    if faces != [] {
      var init := faces[..|faces| - 1];
      var f := faces[|faces| - 1];
      assert forall k | 0 <= k < |init| :: init[k] == faces[k];
      PolyIndicesInRange(settings, init, faceList);
      var off := VertexOffset(settings, init);
      if Drawn(settings, faceList, faces, |faces| - 1) {
        var r := PolyIndices(settings, faces, faceList);
        var a := PolyIndices(settings, init, faceList);
        assert r == a + FaceIndices(f, off);
        forall j | 0 <= j < |r|
          ensures 0 <= r[j] < VertexOffset(settings, faces)
        {
          if j >= |a| {
            var i := j - |a|;
            assert r[j] == FaceIndices(f, off)[i];
            assert f.indices[i] < f.numVertices;
          }
        }
      }
    }
  }

  /** Without a face list, as many indices are emitted as the kept faces
      hold, and the triangle count is the number of vcount entries. */
  function KeptIndexCount(settings: Settings, faces: seq<DaeFace>): nat {
    if faces == [] then 0
    else (KeptIndexCount(settings, faces[..|faces| - 1])
      + (if Kept(settings, faces[|faces| - 1]) then |faces[|faces| - 1].indices| else 0))
  }

  lemma {:induction false} PolyIndicesCount(settings: Settings, faces: seq<DaeFace>)
    ensures |PolyIndices(settings, faces, None)| == KeptIndexCount(settings, faces)
  {
    if faces != [] {
      PolyIndicesCount(settings, faces[..|faces| - 1]);
    }
  }

  // ===========================================================================
  // addJointsAndWeights

  /** A channel is kept when its amount is above 0. */
  predicate Positive(ch: Channel) {
    FloatLess(PositiveZero, ch.amount)
  }

  /** The kept channels among the first c of a vertex, in channel order. */
  function KeptUpTo(w: Weights, c: nat): (r: seq<Channel>)
    requires c <= 4
    ensures |r| <= c
  {
    if c == 0 then []
    else KeptUpTo(w, c - 1) + (if Positive(Component(w, c - 1)) then [Component(w, c - 1)] else [])
  }

  function VertexChannels(ws: seq<Weights>): seq<Channel> {
    if ws == [] then [] else VertexChannels(ws[..|ws| - 1]) + KeptUpTo(ws[|ws| - 1], 4)
  }

  function VertexCounts(ws: seq<Weights>): (r: seq<int>)
    ensures |r| == |ws|
  {
    if ws == [] then [] else VertexCounts(ws[..|ws| - 1]) + [|KeptUpTo(ws[|ws| - 1], 4)|]
  }

  /** The included, kept faces have a weight per vertex. */
  predicate SkinReadable(settings: Settings, faces: seq<DaeFace>, faceList: Option<seq<int>>) {
    forall k | 0 <= k < |faces| :: Drawn(settings, faceList, faces, k) ==> faces[k].numVertices <= |faces[k].weights|
  }

  function SkinChannels(settings: Settings, faces: seq<DaeFace>, faceList: Option<seq<int>>): seq<Channel>
    requires SkinReadable(settings, faces, faceList)
  {
    if faces == [] then []
    else
      assert SkinReadable(settings, faces[..|faces| - 1], faceList) by {
        forall k | 0 <= k < |faces| - 1 ensures faces[..|faces| - 1][k] == faces[k] {}
      }
      SkinChannels(settings, faces[..|faces| - 1], faceList)
      + (if Drawn(settings, faceList, faces, |faces| - 1)
         then VertexChannels(faces[|faces| - 1].weights[..faces[|faces| - 1].numVertices]) else [])
  }

  function SkinCounts(settings: Settings, faces: seq<DaeFace>, faceList: Option<seq<int>>): seq<int>
    requires SkinReadable(settings, faces, faceList)
  {
    if faces == [] then []
    else
      assert SkinReadable(settings, faces[..|faces| - 1], faceList) by {
        forall k | 0 <= k < |faces| - 1 ensures faces[..|faces| - 1][k] == faces[k] {}
      }
      SkinCounts(settings, faces[..|faces| - 1], faceList)
      + (if Drawn(settings, faceList, faces, |faces| - 1)
         then VertexCounts(faces[|faces| - 1].weights[..faces[|faces| - 1].numVertices]) else [])
  }

  /** An `<input>` without an offset attribute (a domInputLocal), as
      `<joints>` holds them. */
  datatype LocalInput = LocalInput(semantic: string, source: string)

  /** The `<joints>` and `<vertex_weights>` of a skin: the joint inputs, the
      vertex-weight inputs, the (joint, weight index) list `v`, the
      per-vertex counts, the count attribute, and the weights `<source>`
      added to the skin next to them. */
  datatype VertexWeights = VertexWeights(
    jointInputs: seq<LocalInput>,
    inputs: seq<Input>,
    v: seq<int>,
    vcount: seq<int>,
    count: nat,
    weights: Source)

  /** The pair list for channels: joint k, then k itself, for every k. */
  predicate PairsOf(v: seq<int>, chs: seq<Channel>) {
    && |v| == 2 * |chs|
    && (forall k | 0 <= k < |chs| :: v[2 * k] == chs[k].joint)
    && (forall k | 0 <= k < |chs| :: v[2 * k + 1] == k)
  }

  /** Amounts of the channels, in order. */
  predicate AmountsOf(ws: seq<Float>, chs: seq<Channel>) {
    |ws| == |chs| && forall k | 0 <= k < |chs| :: ws[k] == chs[k].amount
  }

  lemma PairsSnoc(v: seq<int>, ws: seq<Float>, chs: seq<Channel>, ch: Channel)
    requires PairsOf(v, chs) && AmountsOf(ws, chs)
    ensures PairsOf(v + [ch.joint, |ws|], chs + [ch]) && AmountsOf(ws + [ch.amount], chs + [ch])
  {
    var v', chs' := v + [ch.joint, |ws|], chs + [ch];
    forall k | 0 <= k < |chs'|
      ensures v'[2 * k] == chs'[k].joint && v'[2 * k + 1] == k
    {
      if k < |chs| {
        assert v'[2 * k] == v[2 * k] && v'[2 * k + 1] == v[2 * k + 1];
      }
    }
  }

  /** The four-channel loop for one vertex. */
  method AddVertex(v: seq<int>, weights: seq<Float>, ghost chs: seq<Channel>, w: Weights)
    returns (v': seq<int>, weights': seq<Float>, vcount: int)
    requires PairsOf(v, chs) && AmountsOf(weights, chs)
    ensures PairsOf(v', chs + KeptUpTo(w, 4)) && AmountsOf(weights', chs + KeptUpTo(w, 4))
    ensures vcount == |KeptUpTo(w, 4)|
  {
    v', weights', vcount := v, weights, 0;
    for c := 0 to 4
      invariant PairsOf(v', chs + KeptUpTo(w, c)) && AmountsOf(weights', chs + KeptUpTo(w, c))
      invariant vcount == |KeptUpTo(w, c)|
    {
      var ch := Component(w, c);
      if FloatLess(PositiveZero, ch.amount) {
        ghost var before := chs + KeptUpTo(w, c);
        AppendAssoc(chs, KeptUpTo(w, c), [ch]);
        assert before + [ch] == chs + KeptUpTo(w, c + 1);
        PairsSnoc(v', weights', before, ch);
        v' := v' + [ch.joint, |weights'|];
        weights' := weights' + [ch.amount];
        vcount := vcount + 1;
      } else {
        AppendNil(KeptUpTo(w, c));
      }
    }
  }

  /** The vertex loop of one face. */
  method AddFaceWeights(v: seq<int>, weights: seq<Float>, vcounts: seq<int>, ghost chs: seq<Channel>, f: DaeFace)
    returns (v': seq<int>, weights': seq<Float>, vcounts': seq<int>)
    requires f.numVertices <= |f.weights|
    requires PairsOf(v, chs) && AmountsOf(weights, chs)
    ensures PairsOf(v', chs + VertexChannels(f.weights[..f.numVertices]))
    ensures AmountsOf(weights', chs + VertexChannels(f.weights[..f.numVertices]))
    ensures vcounts' == vcounts + VertexCounts(f.weights[..f.numVertices])
  {
    v', weights', vcounts' := v, weights, vcounts;
    for i := 0 to f.numVertices
      invariant PairsOf(v', chs + VertexChannels(f.weights[..i]))
      invariant AmountsOf(weights', chs + VertexChannels(f.weights[..i]))
      invariant vcounts' == vcounts + VertexCounts(f.weights[..i])
    {
      assert f.weights[..i + 1][..i] == f.weights[..i];
      assert f.weights[..i + 1][i] == f.weights[i];
      AppendAssoc(chs, VertexChannels(f.weights[..i]), KeptUpTo(f.weights[i], 4));
      var vc;
      v', weights', vc := AddVertex(v', weights', chs + VertexChannels(f.weights[..i]), f.weights[i]);
      AppendAssoc(vcounts, VertexCounts(f.weights[..i]), [vc]);
      vcounts' := vcounts' + [vc];
    }
  }

  /** addJointsAndWeights: the JOINT and INV_BIND_MATRIX joint inputs, the
      JOINT and WEIGHT vertex-weight inputs, then for every vertex of every
      kept, included face the number of its positive channels, and for each
      such channel its joint and the running weight index. */
  method AddJointsAndWeights(parentId: string, faces: seq<DaeFace>, settings: Settings, faceList: Option<seq<int>>)
    returns (vw: VertexWeights)
    requires SkinReadable(settings, faces, faceList)
    ensures vw.jointInputs == [LocalInput("JOINT", "#" + parentId + "-joints"), LocalInput("INV_BIND_MATRIX", "#" + parentId + "-bind_poses")]
    ensures vw.inputs == [Input("JOINT", 0, "#" + parentId + "-joints"), Input("WEIGHT", 1, "#" + parentId + "-weights")]
    ensures PairsOf(vw.v, SkinChannels(settings, faces, faceList))
    ensures AmountsOf(vw.weights.floats, SkinChannels(settings, faces, faceList))
    ensures vw.weights.id == parentId + "-weights" && vw.inputs[1].source == "#" + vw.weights.id
    ensures vw.weights.params == [Param("WEIGHT", "float")]
    ensures vw.weights.arrayCount == vw.weights.accessorCount == |vw.weights.floats|
    ensures vw.vcount == SkinCounts(settings, faces, faceList)
    ensures vw.count == |vw.vcount|
  {
    var v: seq<int> := [];
    var vcounts: seq<int> := [];
    var weights: seq<Float> := [];
    for k := 0 to |faces|
      invariant SkinReadable(settings, faces[..k], faceList)
      invariant PairsOf(v, SkinChannels(settings, faces[..k], faceList))
      invariant AmountsOf(weights, SkinChannels(settings, faces[..k], faceList))
      invariant vcounts == SkinCounts(settings, faces[..k], faceList)
    {
      assert faces[..k + 1][..k] == faces[..k];
      assert faces[..k + 1][k] == faces[k];
      assert SkinReadable(settings, faces[..k + 1], faceList) by {
        forall j | 0 <= j < k + 1 ensures faces[..k + 1][j] == faces[j] {}
      }
      if SkipFace(settings, faces[k].te) {
        AppendNil(SkinChannels(settings, faces[..k], faceList));
        AppendNil(vcounts);
        continue;
      }
      if faceList.None? || k in faceList.value {
        var f := faces[k];
        v, weights, vcounts := AddFaceWeights(v, weights, vcounts, SkinChannels(settings, faces[..k], faceList), f);
      } else {
        AppendNil(SkinChannels(settings, faces[..k], faceList));
        AppendNil(vcounts);
      }
    }
    TakeAll(faces);
    var weightsSource := AddSourceFloats(parentId + "-weights", "WEIGHT", weights);
    vw := VertexWeights(
      [LocalInput("JOINT", "#" + parentId + "-joints"), LocalInput("INV_BIND_MATRIX", "#" + parentId + "-bind_poses")],
      [Input("JOINT", 0, "#" + parentId + "-joints"), Input("WEIGHT", 1, "#" + parentId + "-weights")],
      v, vcounts, |vcounts|, weightsSource);
  }

  function Sum(xs: seq<int>): int {
    if xs == [] then 0 else Sum(xs[..|xs| - 1]) + xs[|xs| - 1]
  }

  lemma {:induction false} SumAppend(a: seq<int>, b: seq<int>)
    ensures Sum(a + b) == Sum(a) + Sum(b)
  {
    if b != [] {
      assert (a + b)[..|a + b| - 1] == a + b[..|b| - 1];
      assert (a + b)[|a + b| - 1] == b[|b| - 1];
      SumAppend(a, b[..|b| - 1]);
    } else {
      assert a + b == a;
    }
  }

  predicate AllPositive(chs: seq<Channel>) {
    forall k | 0 <= k < |chs| :: Positive(chs[k])
  }

  predicate AtMostFour(xs: seq<int>) {
    forall j | 0 <= j < |xs| :: 0 <= xs[j] <= 4
  }

  lemma AllPositiveAppend(a: seq<Channel>, b: seq<Channel>)
    requires AllPositive(a) && AllPositive(b)
    ensures AllPositive(a + b)
  {
    forall k | 0 <= k < |a + b|
      ensures Positive((a + b)[k])
    {
      if k >= |a| {
        assert (a + b)[k] == b[k - |a|];
      }
    }
  }

  lemma AtMostFourAppend(a: seq<int>, b: seq<int>)
    requires AtMostFour(a) && AtMostFour(b)
    ensures AtMostFour(a + b)
  {
    forall j | 0 <= j < |a + b|
      ensures 0 <= (a + b)[j] <= 4
    {
      if j >= |a| {
        assert (a + b)[j] == b[j - |a|];
      }
    }
  }

  lemma {:induction false} KeptUpToPositive(w: Weights, c: nat)
    requires c <= 4
    ensures AllPositive(KeptUpTo(w, c))
  {
    if c > 0 {
      KeptUpToPositive(w, c - 1);
      var ch := Component(w, c - 1);
      if Positive(ch) {
        AllPositiveAppend(KeptUpTo(w, c - 1), [ch]);
      } else {
        AppendNil(KeptUpTo(w, c - 1));
      }
    }
  }

  /** Per vertex, the count is at most 4, the counts add up to the number of
      kept channels, and every kept channel is positive. */
  lemma {:induction false} VertexCountsSum(ws: seq<Weights>)
    ensures Sum(VertexCounts(ws)) == |VertexChannels(ws)|
    ensures AtMostFour(VertexCounts(ws))
    ensures AllPositive(VertexChannels(ws))
  {
    if ws != [] {
      var init := ws[..|ws| - 1];
      var w := ws[|ws| - 1];
      VertexCountsSum(init);
      SumAppend(VertexCounts(init), [|KeptUpTo(w, 4)|]);
      assert Sum([|KeptUpTo(w, 4)|]) == |KeptUpTo(w, 4)| by {
        assert [|KeptUpTo(w, 4)|][..0] == [];
      }
      AtMostFourAppend(VertexCounts(init), [|KeptUpTo(w, 4)|]);
      KeptUpToPositive(w, 4);
      AllPositiveAppend(VertexChannels(init), KeptUpTo(w, 4));
    }
  }

  /** The vcount list sums to the number of weights, each entry is at most 4,
      and every weight written is positive. */
  lemma {:induction false} SkinCountsSum(settings: Settings, faces: seq<DaeFace>, faceList: Option<seq<int>>)
    requires SkinReadable(settings, faces, faceList)
    ensures Sum(SkinCounts(settings, faces, faceList)) == |SkinChannels(settings, faces, faceList)|
    ensures AtMostFour(SkinCounts(settings, faces, faceList))
    ensures AllPositive(SkinChannels(settings, faces, faceList))
  {
    if faces != [] {
      var init := faces[..|faces| - 1];
      assert SkinReadable(settings, init, faceList) by {
        forall k | 0 <= k < |init| ensures init[k] == faces[k] {}
      }
      SkinCountsSum(settings, init, faceList);
      var counts, chs := SkinCounts(settings, init, faceList), SkinChannels(settings, init, faceList);
      var f := faces[|faces| - 1];
      if Drawn(settings, faceList, faces, |faces| - 1) {
        var ws := f.weights[..f.numVertices];
        assert SkinCounts(settings, faces, faceList) == counts + VertexCounts(ws);
        assert SkinChannels(settings, faces, faceList) == chs + VertexChannels(ws);
        VertexCountsSum(ws);
        SumAppend(counts, VertexCounts(ws));
        AtMostFourAppend(counts, VertexCounts(ws));
        AllPositiveAppend(chs, VertexChannels(ws));
      } else {
        assert SkinCounts(settings, faces, faceList) == counts + [];
        assert SkinChannels(settings, faces, faceList) == chs + [];
        AppendNil(counts);
        AppendNil(chs);
      }
    }
  }

  // ===========================================================================
  // addJointNodes

  /** A joint `<node>`: id, sid and name are the joint's name, the type is
      JOINT, the `<matrix>` has sid "transform" (its float values are not
      modelled), and the children are the child joints' nodes. */
  datatype JointNode = JointNode(id: string, sid: string, name: string, nodeType: string, matrixSid: string, children: seq<JointNode>)

  function JointNodeOf(j: Joint): JointNode
    decreases j, 1
  {
    JointNode(j.name, j.name, j.name, "JOINT", "transform", JointNodesOf(j.children))
  }

  function JointNodesOf(cs: seq<Joint>): (r: seq<JointNode>)
    ensures |r| == |cs|
    decreases cs, 0
  {
    if cs == [] then [] else JointNodesOf(cs[..|cs| - 1]) + [JointNodeOf(cs[|cs| - 1])]
  }

  /** addJointNodes: adds the joint's node under the parent, then each child's
      node under it, in child order. */
  method AddJointNodes(siblings: seq<JointNode>, joint: Joint) returns (out: seq<JointNode>)
    ensures out == siblings + [JointNodeOf(joint)]
    decreases joint
  {
    var children: seq<JointNode> := [];
    for i := 0 to |joint.children|
      invariant children == JointNodesOf(joint.children[..i])
    {
      assert joint.children[..i + 1][..i] == joint.children[..i];
      children := AddJointNodes(children, joint.children[i]);
    }
    TakeAll(joint.children);
    out := siblings + [JointNode(joint.name, joint.name, joint.name, "JOINT", "transform", children)];
  }

  /** The node ids in document order. */
  function NodeIds(n: JointNode): seq<string>
    decreases n, 1
  {
    [n.id] + NodeIdsList(n.children)
  }

  function NodeIdsList(ns: seq<JointNode>): seq<string>
    decreases ns, 0
  {
    if ns == [] then [] else NodeIdsList(ns[..|ns| - 1]) + NodeIds(ns[|ns| - 1])
  }

  function Names(ps: seq<Placed>): (r: seq<string>)
    ensures |r| == |ps|
  {
    if ps == [] then [] else Names(ps[..|ps| - 1]) + [ps[|ps| - 1].name]
  }

  lemma {:induction false} NamesAppend(a: seq<Placed>, b: seq<Placed>)
    ensures Names(a + b) == Names(a) + Names(b)
  {
    if b != [] {
      assert (a + b)[..|a + b| - 1] == a + b[..|b| - 1];
      NamesAppend(a, b[..|b| - 1]);
      AppendAssoc(Names(a), Names(b[..|b| - 1]), [b[|b| - 1].name]);
    } else {
      assert a + b == a;
      AppendNil(Names(a));
    }
  }

  /** The node tree has the skeleton's shape: read in document order, its
      node ids are the joint names in the preorder the SLXP exporter uses,
      one node per joint. */
  lemma {:induction false} JointNodeIdsArePreorder(j: Joint, parent: Option<int>)
    ensures NodeIds(JointNodeOf(j)) == Names(Preorder(j, parent))
    ensures |NodeIds(JointNodeOf(j))| == JointCount(j)
    decreases j, 1
  {
    JointNodesIdsArePreorder(j.children, Some(j.num));
    NamesAppend([Placed(j.name, j.num, parent)], PreorderList(j.children, Some(j.num)));
    PreorderLength(j, parent);
  }

  lemma {:induction false} JointNodesIdsArePreorder(cs: seq<Joint>, parent: Option<int>)
    ensures NodeIdsList(JointNodesOf(cs)) == Names(PreorderList(cs, parent))
    decreases cs, 0
  {
    if cs != [] {
      var init := cs[..|cs| - 1];
      JointNodesIdsArePreorder(init, parent);
      JointNodeIdsArePreorder(cs[|cs| - 1], parent);
      var ns := JointNodesOf(cs);
      assert ns[..|ns| - 1] == JointNodesOf(init);
      NamesAppend(PreorderList(init, parent), Preorder(cs[|cs| - 1], parent));
    }
  }
}
