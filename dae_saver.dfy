/** DAESaver of `daeexport.cpp`: the registries it keeps while exporting
    (every material handed out, the texture ids with their file names) and
    the object loop of saveDAE that turns each object into a geometry, an
    optional skin controller and a scene node. */
module DaeSaver {
  import opened Numeric
  import opened Slxp
  import opened SlxpExport
  import opened DaeMaterial
  import opened DaeSources
  import opened DaeGeometry
  import opened DaeScene

  /** An exported object: its volume faces, whether it is a rigged mesh, the
      skin info's joint names and inverse bind matrices, and the root joint
      (`mPelvisp`) of the avatar it is attached to (`getAvatarAncestor`), if
      any; without one the exporter falls back to the pelvis of the agent's
      own avatar, passed to SaveDae as `agentSkeleton`. */
  datatype DaeObject = DaeObject(
    faces: seq<DaeFace>,
    isRiggedMesh: bool,
    jointNames: seq<string>,
    invBindMatrices: seq<Matrix16>,
    avatarSkeleton: Option<Joint>)

  /** An entry of mObjects: the object and its name. */
  datatype ObjectInfo = ObjectInfo(obj: DaeObject, name: string)

  // ===========================================================================
  // The material registry

  /** The name getMaterial gives the n-th registered material. */
  function MaterialName(n: nat): string {
    "Material" + NatToString(n)
  }

  /** The first registered material matching the entry, by position. */
  function FirstMatch(reg: seq<MaterialInfo>, te: TextureEntry): (r: Option<nat>)
    ensures r.Some? ==> r.value < |reg| && Matches(reg[r.value], te)
    ensures r.Some? ==> forall j | 0 <= j < r.value :: !Matches(reg[j], te)
    ensures r.None? ==> forall j | 0 <= j < |reg| :: !Matches(reg[j], te)
  {
    if reg == [] then None
    else
      var r := FirstMatch(reg[..|reg| - 1], te);
      if r.Some? then r
      else if Matches(reg[|reg| - 1], te) then Some(|reg| - 1)
      else None
  }

  /** What getMaterial returns and the registry after it. */
  datatype Lookup = Lookup(material: MaterialInfo, registry: seq<MaterialInfo>)

  function GetMaterialSpec(settings: Settings, reg: seq<MaterialInfo>, te: TextureEntry): Lookup {
    var found := FirstMatch(reg, te);
    if settings.consolidateMaterials && found.Some? then Lookup(reg[found.value], reg)
    else Lookup(MaterialOf(te, MaterialName(|reg|)), reg + [MaterialOf(te, MaterialName(|reg|))])
  }

  /** Every registered material is named after its position. */
  predicate RegistryNamed(reg: seq<MaterialInfo>) {
    forall i | 0 <= i < |reg| :: reg[i].name == MaterialName(i)
  }

  /** getMaterial only ever appends, hands out a registered material, and
      keeps the names consecutive. In consolidate mode a match is the first
      registered material matching the entry and nothing is added; otherwise
      one material, made from the entry, is appended. */
  lemma GetMaterialFacts(settings: Settings, reg: seq<MaterialInfo>, te: TextureEntry)
    ensures reg <= GetMaterialSpec(settings, reg, te).registry
    ensures GetMaterialSpec(settings, reg, te).material in GetMaterialSpec(settings, reg, te).registry
    ensures RegistryNamed(reg) ==> RegistryNamed(GetMaterialSpec(settings, reg, te).registry)
    ensures settings.consolidateMaterials && FirstMatch(reg, te).Some? ==>
      GetMaterialSpec(settings, reg, te).registry == reg && Matches(GetMaterialSpec(settings, reg, te).material, te)
    ensures !(settings.consolidateMaterials && FirstMatch(reg, te).Some?) ==>
      |GetMaterialSpec(settings, reg, te).registry| == |reg| + 1
      && GetMaterialSpec(settings, reg, te).material.colorId == te.id
      && GetMaterialSpec(settings, reg, te).material.name == MaterialName(|reg|)
  {
  }

  /** Consecutive names are unique: two positions of a named registry hold
      different names. */
  lemma RegistryNamesUnique(reg: seq<MaterialInfo>, i: nat, j: nat)
    requires RegistryNamed(reg) && i < |reg| && j < |reg| && i != j
    ensures reg[i].name != reg[j].name
  {
    NatToStringInjective(i, j);
    assert ("Material" + NatToString(i))[8..] == NatToString(i);
    assert ("Material" + NatToString(j))[8..] == NatToString(j);
  }

  /** std::find with operator== over a material list. */
  predicate ContainsEqual(list: seq<MaterialInfo>, m: MaterialInfo) {
    exists i | 0 <= i < |list| :: Equal(list[i], m)
  }

  /** The registry and the result list while getMaterials runs. */
  datatype MaterialsState = MaterialsState(registry: seq<MaterialInfo>, list: seq<MaterialInfo>)

  function MaterialsStep(settings: Settings, st: MaterialsState, f: DaeFace): MaterialsState {
    if SkipFace(settings, f.te) then st
    else
      var l := GetMaterialSpec(settings, st.registry, f.te);
      MaterialsState(l.registry,
        if !settings.consolidateMaterials || !ContainsEqual(st.list, l.material) then st.list + [l.material] else st.list)
  }

  function MaterialsPass(settings: Settings, st: MaterialsState, faces: seq<DaeFace>): MaterialsState {
    if faces == [] then st
    else MaterialsStep(settings, MaterialsPass(settings, st, faces[..|faces| - 1]), faces[|faces| - 1])
  }

  /** No two entries of the list compare equal. */
  predicate NoEqualPair(list: seq<MaterialInfo>) {
    forall i, j | 0 <= i < j < |list| :: !Equal(list[i], list[j])
  }

  /** Every list entry is a registered material. */
  predicate ListRegistered(st: MaterialsState) {
    forall i | 0 <= i < |st.list| :: st.list[i] in st.registry
  }

  /** One face of getMaterials: the registry only grows and stays named, the
      list only grows and holds registered materials, and in consolidate
      mode no entry equal to one already listed is added. */
  lemma MaterialsStepFacts(settings: Settings, st: MaterialsState, f: DaeFace)
    ensures st.registry <= MaterialsStep(settings, st, f).registry
    ensures st.list <= MaterialsStep(settings, st, f).list
    ensures RegistryNamed(st.registry) ==> RegistryNamed(MaterialsStep(settings, st, f).registry)
    ensures ListRegistered(st) ==> ListRegistered(MaterialsStep(settings, st, f))
    ensures settings.consolidateMaterials && NoEqualPair(st.list) ==> NoEqualPair(MaterialsStep(settings, st, f).list)
  {
    GetMaterialFacts(settings, st.registry, f.te);
    var st' := MaterialsStep(settings, st, f);
    if ListRegistered(st) {
      forall i | 0 <= i < |st'.list| ensures st'.list[i] in st'.registry {
        if i < |st.list| {
          assert st'.list[i] == st.list[i];
        }
      }
    }
  }

  lemma {:induction false} MaterialsPassFacts(settings: Settings, st: MaterialsState, faces: seq<DaeFace>)
    ensures st.registry <= MaterialsPass(settings, st, faces).registry
    ensures st.list <= MaterialsPass(settings, st, faces).list
    ensures RegistryNamed(st.registry) ==> RegistryNamed(MaterialsPass(settings, st, faces).registry)
    ensures ListRegistered(st) ==> ListRegistered(MaterialsPass(settings, st, faces))
    ensures settings.consolidateMaterials && NoEqualPair(st.list) ==> NoEqualPair(MaterialsPass(settings, st, faces).list)
  {
    if faces != [] {
      var mid := MaterialsPass(settings, st, faces[..|faces| - 1]);
      MaterialsPassFacts(settings, st, faces[..|faces| - 1]);
      MaterialsStepFacts(settings, mid, faces[|faces| - 1]);
    }
  }

  /** Without consolidation every kept face registers a fresh material and
      lists exactly that one: the list grows by the registry's new tail, one
      entry per kept face. */
  lemma {:induction false} MaterialsPassUnconsolidated(settings: Settings, st: MaterialsState, faces: seq<DaeFace>)
    requires !settings.consolidateMaterials
    ensures |MaterialsPass(settings, st, faces).registry| == |st.registry| + KeptCount(settings, faces)
    ensures MaterialsPass(settings, st, faces).list == st.list + MaterialsPass(settings, st, faces).registry[|st.registry|..]
  {
    if faces != [] {
      var mid := MaterialsPass(settings, st, faces[..|faces| - 1]);
      MaterialsPassUnconsolidated(settings, st, faces[..|faces| - 1]);
      MaterialsPassFacts(settings, st, faces[..|faces| - 1]);
      var f := faces[|faces| - 1];
      if Kept(settings, f) {
        var m := MaterialOf(f.te, MaterialName(|mid.registry|));
        var after := MaterialsPass(settings, st, faces);
        assert after.registry == mid.registry + [m];
        assert after.list == mid.list + [m];
        assert after.registry[|st.registry|..] == mid.registry[|st.registry|..] + [m];
        AppendAssoc(st.list, mid.registry[|st.registry|..], [m]);
      }
    }
  }

  /** The registry and the face-number list while getFacesWithMaterial runs. */
  datatype FacesState = FacesState(registry: seq<MaterialInfo>, list: seq<int>)

  /** Every face, skipped or not, goes through getMaterial; its number is
      listed when the result compares equal to the material asked for. */
  function FacesPass(settings: Settings, st: FacesState, faces: seq<DaeFace>, mat: MaterialInfo): FacesState {
    if faces == [] then st
    else
      var prev := FacesPass(settings, st, faces[..|faces| - 1], mat);
      var l := GetMaterialSpec(settings, prev.registry, faces[|faces| - 1].te);
      FacesState(l.registry, if Equal(mat, l.material) then prev.list + [|faces| - 1] else prev.list)
  }

  /** getFacesWithMaterial appends face numbers in increasing order, each a
      valid face, and the registry only grows. */
  lemma {:induction false} FacesPassFacts(settings: Settings, st: FacesState, faces: seq<DaeFace>, mat: MaterialInfo)
    ensures st.registry <= FacesPass(settings, st, faces, mat).registry
    ensures RegistryNamed(st.registry) ==> RegistryNamed(FacesPass(settings, st, faces, mat).registry)
    ensures st.list <= FacesPass(settings, st, faces, mat).list
    ensures forall i | |st.list| <= i < |FacesPass(settings, st, faces, mat).list| ::
      0 <= FacesPass(settings, st, faces, mat).list[i] < |faces|
    ensures forall i, j | |st.list| <= i < j < |FacesPass(settings, st, faces, mat).list| ::
      FacesPass(settings, st, faces, mat).list[i] < FacesPass(settings, st, faces, mat).list[j]
  {
    if faces != [] {
      var prev := FacesPass(settings, st, faces[..|faces| - 1], mat);
      FacesPassFacts(settings, st, faces[..|faces| - 1], mat);
      GetMaterialFacts(settings, prev.registry, faces[|faces| - 1].te);
    }
  }

  /** In consolidate mode a skipped face still goes through getMaterial, so
      asking for the faces of a material can register a new material: here a
      transparent face, skipped by getMaterials, adds "Material0". */
  lemma FacesPassRegistersSkippedFace()
    ensures exists settings: Settings, f: DaeFace, mat: MaterialInfo ::
      settings.consolidateMaterials && SkipFace(settings, f.te)
      && |FacesPass(settings, FacesState([], []), [f], mat).registry| == 1
  {
    var settings := Settings(true, true, false);
    var te := TextureEntry(TextureTransparent, Color4(PositiveOne, PositiveOne, PositiveOne, PositiveOne), None);
    var f := DaeFace(te, 0, [], [], [], [], []);
    var mat := MaterialOf(te, "");
    assert [f][..0] == [];
    assert FirstMatch([], te) == None;
    assert |FacesPass(settings, FacesState([], []), [f], mat).registry| == 1;
  }

  // ===========================================================================
  // The texture registry

  /** A face's texture ids in the order updateTextureInfo considers them:
      the colour id, then the normal and specular ids when present. */
  function Candidates(te: TextureEntry): seq<Uuid> {
    [te.id] + (if te.material.Some? then [te.material.value.normalId, te.material.value.specularId] else [])
  }

  function FaceCandidates(faces: seq<DaeFace>): seq<Uuid> {
    if faces == [] then [] else FaceCandidates(faces[..|faces| - 1]) + Candidates(faces[|faces| - 1].te)
  }

  function ObjectCandidates(objs: seq<ObjectInfo>): seq<Uuid> {
    if objs == [] then [] else ObjectCandidates(objs[..|objs| - 1]) + FaceCandidates(objs[|objs| - 1].obj.faces)
  }

  /** Each id once, at its first occurrence. */
  function Dedup(ids: seq<Uuid>): seq<Uuid> {
    if ids == [] then []
    else Dedup(ids[..|ids| - 1]) + (if ids[|ids| - 1] in Dedup(ids[..|ids| - 1]) then [] else [ids[|ids| - 1]])
  }

  predicate Distinct(ids: seq<Uuid>) {
    forall i, j | 0 <= i < j < |ids| :: ids[i] != ids[j]
  }

  /** The registry holds each candidate exactly once, and later candidates
      never reorder earlier entries (first-seen order). */
  lemma {:induction false} DedupFacts(ids: seq<Uuid>)
    ensures Distinct(Dedup(ids))
    ensures forall x :: x in Dedup(ids) <==> x in ids
    ensures forall k | 0 <= k <= |ids| :: Dedup(ids[..k]) <= Dedup(ids)
  {
    if ids != [] {
      var init := ids[..|ids| - 1];
      DedupFacts(init);
      forall k | 0 <= k <= |ids| ensures Dedup(ids[..k]) <= Dedup(ids) {
        if k < |ids| {
          assert ids[..k] == init[..k];
        } else {
          assert ids[..k] == ids;
        }
      }
    }
  }

  /** The name recorded for a texture id: the scrubbed inventory name with
      spaces turned into underscores when the id is not the blank texture
      and the texture may be exported; otherwise empty. */
  function TextureName(id: Uuid, exportName: Uuid -> Option<string>, scrub: string -> string): string {
    if id != TextureBlank && exportName(id).Some? then ReplaceChar(scrub(exportName(id).value), ' ', '_') else ""
  }

  /** Blank or non-exportable ids get an empty name; no name holds a space. */
  lemma TextureNameFacts(id: Uuid, exportName: Uuid -> Option<string>, scrub: string -> string)
    ensures id == TextureBlank || exportName(id).None? ==> TextureName(id, exportName, scrub) == ""
    ensures ' ' !in TextureName(id, exportName, scrub)
  {
    if id != TextureBlank && exportName(id).Some? {
      ReplaceCharFacts(scrub(exportName(id).value), ' ', '_');
    }
  }

  /** The names of the registered ids, in registry order. */
  function TextureNames(ids: seq<Uuid>, exportName: Uuid -> Option<string>, scrub: string -> string): (r: seq<string>)
    ensures |r| == |ids|
  {
    if ids == [] then [] else TextureNames(ids[..|ids| - 1], exportName, scrub) + [TextureName(ids[|ids| - 1], exportName, scrub)]
  }

  function CountNonEmpty(names: seq<string>): nat {
    if names == [] then 0 else CountNonEmpty(names[..|names| - 1]) + (if names[|names| - 1] != "" then 1 else 0)
  }

  function CountExportable(ids: seq<Uuid>, exportName: Uuid -> Option<string>): nat {
    if ids == [] then 0
    else CountExportable(ids[..|ids| - 1], exportName) + (if ids[|ids| - 1] != TextureBlank && exportName(ids[|ids| - 1]).Some? then 1 else 0)
  }

  /** The exportable-texture count is at most the number of ids that are not
      blank and may be exported, and equals it when no scrubbed name is
      empty. */
  lemma {:induction false} ExportableCount(ids: seq<Uuid>, exportName: Uuid -> Option<string>, scrub: string -> string)
    ensures CountNonEmpty(TextureNames(ids, exportName, scrub)) <= CountExportable(ids, exportName)
    ensures (forall s :: scrub(s) != "") ==>
      CountNonEmpty(TextureNames(ids, exportName, scrub)) == CountExportable(ids, exportName)
  {
    if ids != [] {
      var init := ids[..|ids| - 1];
      ExportableCount(init, exportName, scrub);
      var names := TextureNames(ids, exportName, scrub);
      assert names[..|names| - 1] == TextureNames(init, exportName, scrub);
    }
  }

  /** ColladaExportFloater::getNumExportableTextures: the non-empty names. */
  method NumExportableTextures(names: seq<string>) returns (res: nat)
    ensures res == CountNonEmpty(names)
  {
    res := 0;
    for i := 0 to |names|
      invariant res == CountNonEmpty(names[..i])
    {
      assert names[..i + 1][..i] == names[..i];
      if names[i] != "" {
        res := res + 1;
      }
    }
    TakeAll(names);
  }

  // ===========================================================================
  // The registry across saveDAE

  /** The getFacesWithMaterial passes of consolidate mode, one per material,
      all appending to the same face list. */
  function ConsolidatedPass(settings: Settings, st: FacesState, faces: seq<DaeFace>, mats: seq<MaterialInfo>): FacesState {
    if mats == [] then st
    else FacesPass(settings, ConsolidatedPass(settings, st, faces, mats[..|mats| - 1]), faces, mats[|mats| - 1])
  }

  /** The passes only extend the registry and the face list, keep the names
      consecutive, and each pass's list extends the one before it. */
  lemma {:induction false} ConsolidatedPassFacts(settings: Settings, st: FacesState, faces: seq<DaeFace>, mats: seq<MaterialInfo>)
    ensures st.registry <= ConsolidatedPass(settings, st, faces, mats).registry
    ensures RegistryNamed(st.registry) ==> RegistryNamed(ConsolidatedPass(settings, st, faces, mats).registry)
    ensures st.list <= ConsolidatedPass(settings, st, faces, mats).list
  {
    if mats != [] {
      var mid := ConsolidatedPass(settings, st, faces, mats[..|mats| - 1]);
      ConsolidatedPassFacts(settings, st, faces, mats[..|mats| - 1]);
      FacesPassFacts(settings, mid, faces, mats[|mats| - 1]);
    }
  }

  lemma ConsolidatedListsGrow(settings: Settings, st: FacesState, faces: seq<DaeFace>, mats: seq<MaterialInfo>, j: nat)
    requires j < |mats|
    ensures ConsolidatedPass(settings, st, faces, mats[..j]).list <= ConsolidatedPass(settings, st, faces, mats[..j + 1]).list
  {
    assert mats[..j + 1][..j] == mats[..j];
    FacesPassFacts(settings, ConsolidatedPass(settings, st, faces, mats[..j]), faces, mats[j]);
  }

  /** getMaterials on an object, from an empty list. */
  function ObjectMaterials(settings: Settings, reg: seq<MaterialInfo>, obj: DaeObject): MaterialsState {
    MaterialsPass(settings, MaterialsState(reg, []), obj.faces)
  }

  /** The registry after saveDAE has handled one object. */
  function RegistryAfterObject(settings: Settings, reg: seq<MaterialInfo>, obj: DaeObject): seq<MaterialInfo> {
    var ms := ObjectMaterials(settings, reg, obj);
    if settings.consolidateMaterials then ConsolidatedPass(settings, FacesState(ms.registry, []), obj.faces, ms.list).registry
    else ms.registry
  }

  /** The registry after saveDAE has handled the objects, from the cleared one. */
  function RegistryAfterObjects(settings: Settings, objs: seq<ObjectInfo>): seq<MaterialInfo> {
    if objs == [] then [] else RegistryAfterObject(settings, RegistryAfterObjects(settings, objs[..|objs| - 1]), objs[|objs| - 1].obj)
  }

  /** An object's materials are registered once saveDAE is done with it, the
      registry only grew, and its names stay consecutive. */
  lemma ObjectMaterialsRegistered(settings: Settings, reg: seq<MaterialInfo>, obj: DaeObject)
    ensures reg <= RegistryAfterObject(settings, reg, obj)
    ensures RegistryNamed(reg) ==> RegistryNamed(RegistryAfterObject(settings, reg, obj))
    ensures forall i | 0 <= i < |ObjectMaterials(settings, reg, obj).list| ::
      ObjectMaterials(settings, reg, obj).list[i] in RegistryAfterObject(settings, reg, obj)
  {
    var ms := ObjectMaterials(settings, reg, obj);
    MaterialsPassFacts(settings, MaterialsState(reg, []), obj.faces);
    if settings.consolidateMaterials {
      ConsolidatedPassFacts(settings, FacesState(ms.registry, []), obj.faces, ms.list);
      var after := RegistryAfterObject(settings, reg, obj);
      forall i | 0 <= i < |ms.list| ensures ms.list[i] in after {
        var j :| 0 <= j < |ms.registry| && ms.registry[j] == ms.list[i];
        assert after[j] == ms.registry[j];
      }
    }
  }

  /** The registry saveDAE leaves is named consecutively, so the library's
      material ids are pairwise different. */
  lemma {:induction false} RegistryAfterObjectsNamed(settings: Settings, objs: seq<ObjectInfo>)
    ensures RegistryNamed(RegistryAfterObjects(settings, objs))
    ensures forall i, j | 0 <= i < j < |RegistryAfterObjects(settings, objs)| ::
      Library(RegistryAfterObjects(settings, objs))[i].id != Library(RegistryAfterObjects(settings, objs))[j].id
  {
    if objs != [] {
      RegistryAfterObjectsNamed(settings, objs[..|objs| - 1]);
      ObjectMaterialsRegistered(settings, RegistryAfterObjects(settings, objs[..|objs| - 1]), objs[|objs| - 1].obj);
    }
    var reg := RegistryAfterObjects(settings, objs);
    forall i, j | 0 <= i < j < |reg| ensures Library(reg)[i].id != Library(reg)[j].id {
      LibraryAt(reg, i);
      LibraryAt(reg, j);
      RegistryNamesUnique(reg, i, j);
      assert Library(reg)[i].id[..|Library(reg)[i].id| - 9] == reg[i].name;
      assert Library(reg)[j].id[..|Library(reg)[j].id| - 9] == reg[j].name;
    }
  }

  /** The number of faces in the kept prefix never exceeds the whole. */
  lemma {:induction false} KeptCountPrefix(settings: Settings, faces: seq<DaeFace>, k: nat)
    requires k <= |faces|
    ensures KeptCount(settings, faces[..k]) <= KeptCount(settings, faces)
  {
    if k < |faces| {
      assert faces[..|faces| - 1][..k] == faces[..k];
      KeptCountPrefix(settings, faces[..|faces| - 1], k);
    } else {
      assert faces[..k] == faces;
    }
  }

  /** A polylist of an object's geometry: drawn under the material, with
      the given face list. */
  predicate PolylistDrawn(settings: Settings, faces: seq<DaeFace>, pl: Polylist, mat: MaterialInfo, list: seq<int>) {
    && pl.material == mat.name + "-material"
    && pl.p == PolyIndices(settings, faces, Some(list))
    && pl.count == TriangleCount(settings, faces, Some(list))
  }

  /** The objects' geometries index only the vertices their sources hold. */
  predicate IndicesInRange(g: Geometry) {
    forall j, i | 0 <= j < |g.polylists| && 0 <= i < |g.polylists[j].p| :: 0 <= g.polylists[j].p[i] < g.positions.accessorCount
  }

  /** The faces index their own vertices and the vertex total fits in 32 bits. */
  predicate ObjectIndicesValid(settings: Settings, obj: DaeObject) {
    (forall k | 0 <= k < |obj.faces| :: FaceIndicesValid(obj.faces[k])) && VertexOffset(settings, obj.faces) <= 0x1_0000_0000
  }

  /** At most one avatar node in the scene. */
  predicate AtMostOneAvatar(scene: seq<SceneNode>) {
    forall i, j | 0 <= i < j < |scene| :: !(scene[i].AvatarNode? && scene[j].AvatarNode?)
  }

  /** The avatar node whose root joint node has the given id. */
  predicate AvatarRooted(n: SceneNode, rootId: string) {
    n.AvatarNode? && |n.joints| == 1 && n.joints[0].id == rootId
  }

  /** Every controller instance names as skeleton the root joint of an
      avatar node of the scene. */
  predicate SkeletonsResolve(scene: seq<SceneNode>) {
    forall i | 0 <= i < |scene| && scene[i].PrimNode? && scene[i].instance.InstanceController? ::
      && |scene[i].instance.skeleton| > 0
      && scene[i].instance.skeleton[0] == '#'
      && exists j | 0 <= j < |scene| :: AvatarRooted(scene[j], scene[i].instance.skeleton[1..])
  }

  /** The face list saveDAE ends an object with: in consolidate mode the
      faces found for all its materials, otherwise every kept face. */
  function FinalFaceList(settings: Settings, reg: seq<MaterialInfo>, obj: DaeObject): seq<int> {
    var ms := ObjectMaterials(settings, reg, obj);
    if settings.consolidateMaterials then ConsolidatedPass(settings, FacesState(ms.registry, []), obj.faces, ms.list).list
    else KeptNumbers(settings, obj.faces)
  }

  /** The face list polylist j of an object is drawn with: in consolidate
      mode the faces found for its first j + 1 materials, otherwise its
      first j + 1 kept faces. */
  function PolylistFaces(settings: Settings, reg: seq<MaterialInfo>, obj: DaeObject, j: nat): seq<int>
    requires j < |ObjectMaterials(settings, reg, obj).list|
  {
    var ms := ObjectMaterials(settings, reg, obj);
    if settings.consolidateMaterials then ConsolidatedPass(settings, FacesState(ms.registry, []), obj.faces, ms.list[..j + 1]).list
    else
      MaterialsPassUnconsolidated(settings, MaterialsState(reg, []), obj.faces);
      KeptNumbersFacts(settings, obj.faces);
      KeptNumbers(settings, obj.faces)[..j + 1]
  }

  /** Whether saveDAE gives the object a skin controller. */
  predicate Skinned(settings: Settings, obj: DaeObject) {
    settings.exportRiggedMesh && obj.isRiggedMesh
  }

  function SkinnedCount(settings: Settings, objs: seq<ObjectInfo>): nat {
    if objs == [] then 0
    else SkinnedCount(settings, objs[..|objs| - 1]) + (if Skinned(settings, objs[|objs| - 1].obj) then 1 else 0)
  }

  /** The scene nodes one object adds, given whether the avatar node was
      already added and the skeleton id so far: its prim node, followed by
      the avatar node when it is the first skinned object. */
  predicate NodesShape(nodes: seq<SceneNode>, avatarAdded: bool, skeletonId: string, avatarAdded': bool, skeletonId': string) {
    && |nodes| >= 1
    && nodes[0].PrimNode?
    && (avatarAdded ==> avatarAdded' && skeletonId' == skeletonId)
    && (nodes[0].instance.InstanceController? ==> avatarAdded' && nodes[0].instance.skeleton == "#" + skeletonId')
    && (if !avatarAdded && avatarAdded' then |nodes| == 2 && AvatarRooted(nodes[1], skeletonId')
        else |nodes| == 1 && avatarAdded' == avatarAdded && skeletonId' == skeletonId)
  }

  /** The scene so far: at most one avatar node, present exactly once the
      flag is set and rooted at the skeleton id, and every controller
      instance's skeleton resolving to it. */
  predicate SceneState(scene: seq<SceneNode>, avatarAdded: bool, skeletonId: string) {
    && AtMostOneAvatar(scene)
    && SkeletonsResolve(scene)
    && (avatarAdded <==> exists i | 0 <= i < |scene| :: scene[i].AvatarNode?)
    && (avatarAdded ==> exists j | 0 <= j < |scene| :: AvatarRooted(scene[j], skeletonId))
  }

  /** Appending one object's nodes keeps the scene in shape. */
  lemma SceneStep(scene: seq<SceneNode>, nodes: seq<SceneNode>, avatarAdded: bool, skeletonId: string, avatarAdded': bool, skeletonId': string)
    requires SceneState(scene, avatarAdded, skeletonId)
    requires NodesShape(nodes, avatarAdded, skeletonId, avatarAdded', skeletonId')
    ensures SceneState(scene + nodes, avatarAdded', skeletonId')
  {
    AvatarStep(scene, nodes, avatarAdded, skeletonId, avatarAdded', skeletonId');
    SkeletonsStep(scene, nodes, avatarAdded, skeletonId, avatarAdded', skeletonId');
  }

  /** The avatar node stays unique, present once the flag is set, and
      rooted at the skeleton id. */
  lemma AvatarStep(scene: seq<SceneNode>, nodes: seq<SceneNode>, avatarAdded: bool, skeletonId: string, avatarAdded': bool, skeletonId': string)
    requires SceneState(scene, avatarAdded, skeletonId)
    requires NodesShape(nodes, avatarAdded, skeletonId, avatarAdded', skeletonId')
    ensures AtMostOneAvatar(scene + nodes)
    ensures avatarAdded' <==> exists i | 0 <= i < |scene + nodes| :: (scene + nodes)[i].AvatarNode?
    ensures avatarAdded' ==> exists j | 0 <= j < |scene + nodes| :: AvatarRooted((scene + nodes)[j], skeletonId')
  {
    var s := scene + nodes;
    assert forall i | 0 <= i < |scene| :: s[i] == scene[i];
    assert forall i | 0 <= i < |nodes| :: s[|scene| + i] == nodes[i];
    AvatarUniqueStep(scene, nodes, avatarAdded, skeletonId, avatarAdded', skeletonId');
    if avatarAdded {
      var j :| 0 <= j < |scene| && AvatarRooted(scene[j], skeletonId);
      assert AvatarRooted(s[j], skeletonId');
    }
    if !avatarAdded && avatarAdded' {
      assert AvatarRooted(s[|scene| + 1], skeletonId');
    }
    if !avatarAdded' {
      forall i | 0 <= i < |s| ensures !s[i].AvatarNode? {
        if i >= |scene| {
          assert s[i] == nodes[0];
        }
      }
    }
  }

  /** A second avatar node is only appended when none was there. */
  lemma AvatarUniqueStep(scene: seq<SceneNode>, nodes: seq<SceneNode>, avatarAdded: bool, skeletonId: string, avatarAdded': bool, skeletonId': string)
    requires SceneState(scene, avatarAdded, skeletonId)
    requires NodesShape(nodes, avatarAdded, skeletonId, avatarAdded', skeletonId')
    ensures AtMostOneAvatar(scene + nodes)
  {
    var s := scene + nodes;
    forall i, j | 0 <= i < j < |s|
      ensures !(s[i].AvatarNode? && s[j].AvatarNode?)
    {
      if j < |scene| {
        assert s[i] == scene[i] && s[j] == scene[j];
      } else if i < |scene| {
        assert s[i] == scene[i] && s[j] == nodes[j - |scene|];
        if s[i].AvatarNode? {
          assert avatarAdded;
          assert j == |scene|;
        }
      } else {
        assert i == |scene| && s[i] == nodes[0];
      }
    }
  }

  /** Every controller instance still names the avatar's root joint. */
  lemma SkeletonsStep(scene: seq<SceneNode>, nodes: seq<SceneNode>, avatarAdded: bool, skeletonId: string, avatarAdded': bool, skeletonId': string)
    requires SceneState(scene, avatarAdded, skeletonId)
    requires NodesShape(nodes, avatarAdded, skeletonId, avatarAdded', skeletonId')
    ensures SkeletonsResolve(scene + nodes)
  {
    var s := scene + nodes;
    forall i | 0 <= i < |s| && s[i].PrimNode? && s[i].instance.InstanceController?
      ensures |s[i].instance.skeleton| > 0 && s[i].instance.skeleton[0] == '#'
      ensures exists j | 0 <= j < |s| :: AvatarRooted(s[j], s[i].instance.skeleton[1..])
    {
      if i < |scene| {
        assert s[i] == scene[i];
        var j :| 0 <= j < |scene| && AvatarRooted(scene[j], scene[i].instance.skeleton[1..]);
        assert AvatarRooted(s[j], s[i].instance.skeleton[1..]);
      } else {
        assert i == |scene| && s[i] == nodes[0];
        assert s[i].instance.skeleton[1..] == skeletonId';
        if !avatarAdded {
          assert AvatarRooted(s[|scene| + 1], skeletonId');
        } else {
          var j :| 0 <= j < |scene| && AvatarRooted(scene[j], skeletonId);
          assert AvatarRooted(s[j], skeletonId');
        }
      }
    }
  }

  /** Each planned polylist indexes below the geometry's position count. */
  lemma PolylistsInRange(settings: Settings, faces: seq<DaeFace>, g: Geometry, mats: seq<MaterialInfo>, lists: seq<seq<int>>)
    requires |g.polylists| == |mats| == |lists|
    requires forall j | 0 <= j < |g.polylists| :: PolylistDrawn(settings, faces, g.polylists[j], mats[j], lists[j])
    requires g.positions.accessorCount == VertexOffset(settings, faces)
    requires (forall k | 0 <= k < |faces| :: FaceIndicesValid(faces[k])) && VertexOffset(settings, faces) <= 0x1_0000_0000
    ensures IndicesInRange(g)
  {
    forall j | 0 <= j < |g.polylists| ensures forall i | 0 <= i < |g.polylists[j].p| :: 0 <= g.polylists[j].p[i] < g.positions.accessorCount {
      PolyIndicesInRange(settings, faces, Some(lists[j]));
    }
  }

  /** The three vertex sources of a geometry: one entry per vertex of the
      kept faces, positions and normals as X, Y, Z and texture coordinates
      as S, T. */
  predicate SourcesOf(settings: Settings, geomId: string, faces: seq<DaeFace>, positions: Source, normals: Source, map0: Source) {
    && VerticesReadable(settings, faces)
    && positions.id == geomId + "-positions" && normals.id == geomId + "-normals" && map0.id == geomId + "-map0"
    && positions.floats == PositionData(settings, faces) && positions.params == FloatParams("XYZ")
    && normals.floats == NormalData(settings, faces) && normals.params == FloatParams("XYZ")
    && map0.floats == UvData(settings, faces) && map0.params == FloatParams("ST")
    && positions.accessorCount == VertexOffset(settings, faces)
    && normals.accessorCount == VertexOffset(settings, faces)
    && map0.accessorCount == VertexOffset(settings, faces)
  }

  /** The skin controller of a rigged mesh: it skins the geometry, writes
      the identity as bind shape matrix, lists the skin's joint names and
      inverse bind matrices, and weighs the vertices of the faces listed. */
  predicate ControllerOf(settings: Settings, primId: string, geomId: string, obj: DaeObject, faceList: seq<int>, c: Controller) {
    && c.id == primId + "-skin"
    && c.skinSource == "#" + geomId
    && c.bindShapeMatrix == IdentityMatrix
    && c.joints.id == c.id + "-joints"
    && c.joints.names == obj.jointNames && c.joints.params == [Param("JOINT", "name")]
    && c.bindPoses.id == c.id + "-bind_poses"
    && c.bindPoses.floats == ColumnMajorAll(obj.invBindMatrices)
    && c.bindPoses.accessorCount == |obj.invBindMatrices|
    && c.bindPoses.params == [Param("TRANSFORM", "float4x4")]
    && c.vertexWeights.jointInputs == [LocalInput("JOINT", "#" + c.joints.id), LocalInput("INV_BIND_MATRIX", "#" + c.bindPoses.id)]
    && c.vertexWeights.inputs == [Input("JOINT", 0, "#" + c.joints.id), Input("WEIGHT", 1, "#" + c.vertexWeights.weights.id)]
    && SkinReadable(settings, obj.faces, Some(faceList))
    && c.vertexWeights.vcount == SkinCounts(settings, obj.faces, Some(faceList))
    && PairsOf(c.vertexWeights.v, SkinChannels(settings, obj.faces, Some(faceList)))
    && AmountsOf(c.vertexWeights.weights.floats, SkinChannels(settings, obj.faces, Some(faceList)))
    && c.vertexWeights.weights.id == c.id + "-weights"
  }

  /** The geometry saveDAE writes for object k, given the registry the
      earlier objects leave: its id, its `<vertices>`, its three vertex
      sources, and one polylist per material of the object, drawn under that
      material with the face list planned for it; its indices are in range
      when the faces index their own vertices. */
  predicate GeometryOf(settings: Settings, k: nat, reg: seq<MaterialInfo>, obj: DaeObject, g: Geometry) {
    && VerticesReadable(settings, obj.faces)
    && g.id == PrimId(k) + "-mesh"
    && g.verticesId == g.id + "-vertices" && g.verticesPosition == "#" + g.id + "-positions"
    && SourcesOf(settings, g.id, obj.faces, g.positions, g.normals, g.map0)
    && |g.polylists| == |ObjectMaterials(settings, reg, obj).list|
    && (forall j | 0 <= j < |g.polylists| :: g.polylists[j].inputs == PolylistInputs(g.id))
    && (forall j | 0 <= j < |g.polylists| ::
          PolylistDrawn(settings, obj.faces, g.polylists[j], ObjectMaterials(settings, reg, obj).list[j], PolylistFaces(settings, reg, obj, j)))
    && (ObjectIndicesValid(settings, obj) ==> IndicesInRange(g))
  }

  /** Geometry j is the geometry of object j. */
  predicate GeometryAt(settings: Settings, objs: seq<ObjectInfo>, gs: seq<Geometry>, j: int) {
    0 <= j < |gs| && j < |objs| && GeometryOf(settings, j, RegistryAfterObjects(settings, objs[..j]), objs[j].obj, gs[j])
  }

  predicate GeometriesOf(settings: Settings, objs: seq<ObjectInfo>, gs: seq<Geometry>) {
    |gs| <= |objs| && forall j | 0 <= j < |gs| :: GeometryAt(settings, objs, gs, j)
  }

  lemma GeometriesSnoc(settings: Settings, objs: seq<ObjectInfo>, gs: seq<Geometry>, g: Geometry)
    requires GeometriesOf(settings, objs, gs) && |gs| < |objs|
    requires GeometryOf(settings, |gs|, RegistryAfterObjects(settings, objs[..|gs|]), objs[|gs|].obj, g)
    ensures GeometriesOf(settings, objs, gs + [g])
  {
    forall j | 0 <= j < |gs| + 1
      ensures GeometryAt(settings, objs, gs + [g], j)
    {
      if j < |gs| {
        assert GeometryAt(settings, objs, gs, j);
        assert (gs + [g])[j] == gs[j];
      }
    }
  }

  /** The prim nodes bind materials of the registry. */
  predicate BoundRegistered(scene: seq<SceneNode>, sceneMats: seq<seq<MaterialInfo>>, reg: seq<MaterialInfo>) {
    |sceneMats| == |scene|
    && forall i | 0 <= i < |scene| && scene[i].PrimNode? ::
      scene[i].bound == Bound(sceneMats[i]) && forall m | m in sceneMats[i] :: m in reg
  }

  lemma BoundRegisteredStep(scene: seq<SceneNode>, sceneMats: seq<seq<MaterialInfo>>, reg: seq<MaterialInfo>, reg': seq<MaterialInfo>,
                            nodes: seq<SceneNode>, newMats: seq<seq<MaterialInfo>>)
    requires BoundRegistered(scene, sceneMats, reg) && reg <= reg'
    requires |nodes| == 1 || (|nodes| == 2 && nodes[1].AvatarNode?)
    requires |newMats| == |nodes| && nodes[0].PrimNode? && nodes[0].bound == Bound(newMats[0])
    requires forall j | 0 <= j < |newMats[0]| :: newMats[0][j] in reg'
    ensures BoundRegistered(scene + nodes, sceneMats + newMats, reg')
  {
    var s := scene + nodes;
    var ms := sceneMats + newMats;
    forall i | 0 <= i < |s| && s[i].PrimNode?
      ensures s[i].bound == Bound(ms[i]) && forall m | m in ms[i] :: m in reg'
    {
      if i < |scene| {
        assert s[i] == scene[i] && ms[i] == sceneMats[i];
        forall m | m in ms[i] ensures m in reg' {
          InGrown(m, reg, reg');
        }
      } else {
        assert i == |scene| && ms[i] == newMats[0];
        forall m | m in ms[i] ensures m in reg' {
          var j :| 0 <= j < |newMats[0]| && newMats[0][j] == m;
        }
      }
    }
  }

  /** saveDAE's loop state after the first k objects: the registry they
      leave, one geometry each, one controller per skinned object, and a
      scene whose prim nodes bind registered materials and whose avatar
      node is unique and resolves every skeleton. */
  predicate SaveState(settings: Settings, objs: seq<ObjectInfo>, k: nat, reg: seq<MaterialInfo>,
                      geometries: seq<Geometry>, controllers: seq<Controller>, scene: seq<SceneNode>,
                      sceneMats: seq<seq<MaterialInfo>>, avatarAdded: bool, skeletonId: string)
    requires k <= |objs|
  {
    && ObjectsSaved(settings, objs, k, reg, geometries, controllers, scene)
    && BoundRegistered(scene, sceneMats, reg)
    && SceneState(scene, avatarAdded, skeletonId)
  }

  /** The registry, geometries, controllers and prim nodes the first k
      objects leave. */
  predicate ObjectsSaved(settings: Settings, objs: seq<ObjectInfo>, k: nat, reg: seq<MaterialInfo>,
                         geometries: seq<Geometry>, controllers: seq<Controller>, scene: seq<SceneNode>)
    requires k <= |objs|
  {
    && reg == RegistryAfterObjects(settings, objs[..k])
    && |geometries| == k && GeometriesOf(settings, objs, geometries)
    && ControllersOf(settings, objs, k, controllers)
    && PrimsOf(settings, objs, k, scene)
  }

  /** The controllers after the first k objects: one per skinned object, in
      object order, each the skin controller of its object. */
  predicate ControllersOf(settings: Settings, objs: seq<ObjectInfo>, k: nat, cs: seq<Controller>)
    requires k <= |objs|
  {
    |cs| == SkinnedCount(settings, objs[..k]) && forall j | 0 <= j < k :: ControllerAt(settings, objs, cs, j)
  }

  /** When object j is skinned, its controller is the one after those of
      the skinned objects before it. */
  predicate ControllerAt(settings: Settings, objs: seq<ObjectInfo>, cs: seq<Controller>, j: int) {
    && 0 <= j < |objs|
    && (Skinned(settings, objs[j].obj) ==>
         && SkinnedCount(settings, objs[..j]) < |cs|
         && ControllerOf(settings, PrimId(j), PrimId(j) + "-mesh", objs[j].obj,
              FinalFaceList(settings, RegistryAfterObjects(settings, objs[..j]), objs[j].obj), cs[SkinnedCount(settings, objs[..j])]))
  }

  /** A skinned object's controller comes before those of the skinned
      objects after it, so no two skinned objects share a controller. */
  lemma {:induction false} SkinnedCountStrict(settings: Settings, objs: seq<ObjectInfo>, i: nat, j: nat)
    requires i < j <= |objs| && Skinned(settings, objs[i].obj)
    ensures SkinnedCount(settings, objs[..i]) < SkinnedCount(settings, objs[..j])
  {
    assert objs[..j][..j - 1] == objs[..j - 1];
    if i < j - 1 {
      SkinnedCountStrict(settings, objs, i, j - 1);
    }
  }

  /** The prim nodes of a scene, in document order. */
  function PrimNodes(scene: seq<SceneNode>): (r: seq<SceneNode>)
    ensures |r| <= |scene|
    ensures forall i | 0 <= i < |r| :: r[i].PrimNode?
  {
    if scene == [] then []
    else PrimNodes(scene[..|scene| - 1]) + (if scene[|scene| - 1].PrimNode? then [scene[|scene| - 1]] else [])
  }

  lemma {:induction false} PrimNodesAppend(a: seq<SceneNode>, b: seq<SceneNode>)
    ensures PrimNodes(a + b) == PrimNodes(a) + PrimNodes(b)
  {
    if b == [] {
      assert a + b == a;
    } else {
      assert (a + b)[..|a + b| - 1] == a + b[..|b| - 1];
      PrimNodesAppend(a, b[..|b| - 1]);
    }
  }

  /** Object k's node: id and name "prim<k>", binding the object's
      materials, instancing its skin controller when it is skinned and its
      geometry otherwise. */
  predicate PrimOf(settings: Settings, k: nat, reg: seq<MaterialInfo>, obj: DaeObject, n: SceneNode) {
    PrimNodeOf(settings, k, PrimId(k) + "-mesh", obj, ObjectMaterials(settings, reg, obj).list, n)
  }

  /** A prim node for object k with the given geometry id and materials. */
  predicate PrimNodeOf(settings: Settings, k: nat, geomId: string, obj: DaeObject, mats: seq<MaterialInfo>, n: SceneNode) {
    && n.PrimNode? && n.id == PrimId(k) && n.name == PrimId(k) && n.nodeType == "NODE"
    && n.bound == Bound(mats)
    && (Skinned(settings, obj) ==> n.instance.InstanceController? && n.instance.url == "#" + PrimId(k) + "-skin")
    && (!Skinned(settings, obj) ==> n.instance == InstanceGeometry("#" + geomId))
  }

  /** The prim nodes after the first k objects: object j's node is the j-th. */
  predicate PrimsOf(settings: Settings, objs: seq<ObjectInfo>, k: nat, scene: seq<SceneNode>)
    requires k <= |objs|
  {
    |PrimNodes(scene)| == k && forall j | 0 <= j < k :: PrimAt(settings, objs, PrimNodes(scene), j)
  }

  /** Prim node j is the node of object j. */
  predicate PrimAt(settings: Settings, objs: seq<ObjectInfo>, prims: seq<SceneNode>, j: int) {
    0 <= j < |prims| && j < |objs| && PrimOf(settings, j, RegistryAfterObjects(settings, objs[..j]), objs[j].obj, prims[j])
  }

  /** One more object keeps the controllers in step: a skinned object's
      controller is appended after the earlier ones. */
  lemma ControllersStep(settings: Settings, objs: seq<ObjectInfo>, k: nat, cs: seq<Controller>, ctrl: Option<Controller>)
    requires k < |objs|
    requires ControllersOf(settings, objs, k, cs)
    requires ctrl.Some? <==> Skinned(settings, objs[k].obj)
    requires ctrl.Some? ==> ControllerOf(settings, PrimId(k), PrimId(k) + "-mesh", objs[k].obj,
      FinalFaceList(settings, RegistryAfterObjects(settings, objs[..k]), objs[k].obj), ctrl.value)
    ensures ControllersOf(settings, objs, k + 1, if ctrl.Some? then cs + [ctrl.value] else cs)
  {
    assert objs[..k + 1][..k] == objs[..k];
    var cs' := if ctrl.Some? then cs + [ctrl.value] else cs;
    assert |cs'| == SkinnedCount(settings, objs[..k + 1]);
    forall j | 0 <= j < k + 1
      ensures ControllerAt(settings, objs, cs', j)
    {
      if j < k {
        assert ControllerAt(settings, objs, cs, j);
        if Skinned(settings, objs[j].obj) {
          assert cs'[SkinnedCount(settings, objs[..j])] == cs[SkinnedCount(settings, objs[..j])];
        }
      } else if ctrl.Some? {
        assert cs' == cs + [ctrl.value];
      }
    }
  }

  /** Appending one object's nodes appends its prim node to the prim nodes:
      the avatar node that may follow it is not one. */
  lemma PrimNodesStep(scene: seq<SceneNode>, nodes: seq<SceneNode>)
    requires nodes != [] && nodes[0].PrimNode?
    requires |nodes| == 1 || (|nodes| == 2 && nodes[1].AvatarNode?)
    ensures PrimNodes(scene + nodes) == PrimNodes(scene) + [nodes[0]]
  {
    PrimNodesAppend(scene, nodes);
    PrimNodesOfObject(nodes);
  }

  lemma PrimNodesOfObject(nodes: seq<SceneNode>)
    requires nodes != [] && nodes[0].PrimNode?
    requires |nodes| == 1 || (|nodes| == 2 && nodes[1].AvatarNode?)
    ensures PrimNodes(nodes) == [nodes[0]]
  {
    PrimNodesSingle(nodes[0]);
    if |nodes| == 2 {
      var first := nodes[..1];
      assert first == [nodes[0]];
      assert PrimNodes(nodes) == PrimNodes(first);
    } else {
      assert nodes == [nodes[0]];
    }
  }

  lemma PrimNodesSingle(n: SceneNode)
    ensures PrimNodes([n]) == if n.PrimNode? then [n] else []
  {
    assert [n][..0] == [];
  }

  /** One more object keeps the prim nodes in step. */
  lemma PrimsStep(settings: Settings, objs: seq<ObjectInfo>, k: nat, scene: seq<SceneNode>, nodes: seq<SceneNode>)
    requires k < |objs|
    requires PrimsOf(settings, objs, k, scene)
    requires |nodes| == 1 || (|nodes| == 2 && nodes[1].AvatarNode?)
    requires PrimOf(settings, k, RegistryAfterObjects(settings, objs[..k]), objs[k].obj, nodes[0])
    ensures PrimsOf(settings, objs, k + 1, scene + nodes)
  {
    PrimNodesStep(scene, nodes);
    var ps := PrimNodes(scene + nodes);
    forall j | 0 <= j < k + 1
      ensures PrimAt(settings, objs, ps, j)
    {
      if j < k {
        assert PrimAt(settings, objs, PrimNodes(scene), j);
        assert ps[j] == PrimNodes(scene)[j];
      }
    }
  }

  /** What saveDAE writes for object k, given the registry the earlier
      objects leave: its geometry, its controller exactly when it is
      skinned, and its prim node, followed by the avatar node when it is the
      first skinned object. */
  predicate ObjectOutput(settings: Settings, k: nat, reg: seq<MaterialInfo>, obj: DaeObject,
                         geom: Geometry, ctrl: Option<Controller>, nodes: seq<SceneNode>, objMaterials: seq<MaterialInfo>,
                         avatarAdded: bool, skeletonId: string, avatarAdded': bool, skeletonId': string) {
    && objMaterials == ObjectMaterials(settings, reg, obj).list
    && GeometryOf(settings, k, reg, obj, geom)
    && (ctrl.Some? <==> Skinned(settings, obj))
    && (ctrl.Some? ==> ControllerOf(settings, PrimId(k), PrimId(k) + "-mesh", obj, FinalFaceList(settings, reg, obj), ctrl.value))
    && NodesShape(nodes, avatarAdded, skeletonId, avatarAdded', skeletonId')
    && PrimOf(settings, k, reg, obj, nodes[0])
  }

  /** One object's output keeps saveDAE's loop state. */
  lemma SaveStateStep(settings: Settings, objs: seq<ObjectInfo>, k: nat, reg: seq<MaterialInfo>, reg': seq<MaterialInfo>,
                      geometries: seq<Geometry>, controllers: seq<Controller>, scene: seq<SceneNode>,
                      sceneMats: seq<seq<MaterialInfo>>, avatarAdded: bool, skeletonId: string,
                      geom: Geometry, ctrl: Option<Controller>, nodes: seq<SceneNode>, objMaterials: seq<MaterialInfo>,
                      avatarAdded': bool, skeletonId': string)
    requires k < |objs|
    requires SaveState(settings, objs, k, reg, geometries, controllers, scene, sceneMats, avatarAdded, skeletonId)
    requires reg' == RegistryAfterObject(settings, reg, objs[k].obj)
    requires ObjectOutput(settings, k, reg, objs[k].obj, geom, ctrl, nodes, objMaterials, avatarAdded, skeletonId, avatarAdded', skeletonId')
    ensures SaveState(settings, objs, k + 1, reg', geometries + [geom], if ctrl.Some? then controllers + [ctrl.value] else controllers,
                      scene + nodes, sceneMats + (if |nodes| == 2 then [objMaterials, []] else [objMaterials]), avatarAdded', skeletonId')
  {
    ObjectsSavedStep(settings, objs, k, reg, reg', geometries, controllers, scene, geom, ctrl, nodes, objMaterials,
                     avatarAdded, skeletonId, avatarAdded', skeletonId');
    ObjectMaterialsRegistered(settings, reg, objs[k].obj);
    SceneStep(scene, nodes, avatarAdded, skeletonId, avatarAdded', skeletonId');
    BoundRegisteredStep(scene, sceneMats, reg, reg', nodes, if |nodes| == 2 then [objMaterials, []] else [objMaterials]);
  }

  lemma ObjectsSavedStep(settings: Settings, objs: seq<ObjectInfo>, k: nat, reg: seq<MaterialInfo>, reg': seq<MaterialInfo>,
                         geometries: seq<Geometry>, controllers: seq<Controller>, scene: seq<SceneNode>,
                         geom: Geometry, ctrl: Option<Controller>, nodes: seq<SceneNode>, objMaterials: seq<MaterialInfo>,
                         avatarAdded: bool, skeletonId: string, avatarAdded': bool, skeletonId': string)
    requires k < |objs|
    requires ObjectsSaved(settings, objs, k, reg, geometries, controllers, scene)
    requires reg' == RegistryAfterObject(settings, reg, objs[k].obj)
    requires ObjectOutput(settings, k, reg, objs[k].obj, geom, ctrl, nodes, objMaterials, avatarAdded, skeletonId, avatarAdded', skeletonId')
    ensures ObjectsSaved(settings, objs, k + 1, reg', geometries + [geom], if ctrl.Some? then controllers + [ctrl.value] else controllers,
                         scene + nodes)
  {
    assert objs[..k + 1][..k] == objs[..k];
    ControllersStep(settings, objs, k, controllers, ctrl);
    PrimsStep(settings, objs, k, scene, nodes);
    GeometriesSnoc(settings, objs, geometries, geom);
  }

  /** Every binding of a prim node whose materials are registered resolves
      in the registry's library. */
  lemma BindingsResolve(scene: seq<SceneNode>, sceneMats: seq<seq<MaterialInfo>>, reg: seq<MaterialInfo>)
    requires BoundRegistered(scene, sceneMats, reg)
    ensures forall i, b | 0 <= i < |scene| && scene[i].PrimNode? && 0 <= b < |scene[i].bound| ::
      Resolves(scene[i].bound[b], Library(reg))
  {
    forall i | 0 <= i < |scene| && scene[i].PrimNode?
      ensures forall b | 0 <= b < |scene[i].bound| :: Resolves(scene[i].bound[b], Library(reg))
    {
      BoundResolves(sceneMats[i], reg);
    }
  }

  /** A member of a registry stays one as the registry grows. */
  lemma InGrown(m: MaterialInfo, reg: seq<MaterialInfo>, reg': seq<MaterialInfo>)
    requires m in reg && reg <= reg'
    ensures m in reg'
  {
    var i :| 0 <= i < |reg| && reg[i] == m;
    assert reg'[i] == m;
  }

  // ===========================================================================
  // The saver

  class Saver {
    var allMaterials: seq<MaterialInfo>
    var textures: seq<Uuid>
    var textureNames: seq<string>
    var objects: seq<ObjectInfo>

    constructor ()
      ensures allMaterials == [] && textures == [] && textureNames == [] && objects == []
    {
      allMaterials := [];
      textures := [];
      textureNames := [];
      objects := [];
    }

    /** add: appends the object and its name. */
    method Add(obj: DaeObject, name: string)
      modifies this
      ensures objects == old(objects) + [ObjectInfo(obj, name)]
      ensures allMaterials == old(allMaterials) && textures == old(textures) && textureNames == old(textureNames)
    {
      objects := objects + [ObjectInfo(obj, name)];
    }

    /** getMaterial: in consolidate mode, the first registered match; else a
        new material named after the registry size, appended. */
    method GetMaterial(settings: Settings, te: TextureEntry) returns (mat: MaterialInfo)
      modifies this
      ensures Lookup(mat, allMaterials) == GetMaterialSpec(settings, old(allMaterials), te)
      ensures textures == old(textures) && textureNames == old(textureNames) && objects == old(objects)
    {
      if settings.consolidateMaterials {
        for i := 0 to |allMaterials|
          invariant forall j | 0 <= j < i :: !Matches(allMaterials[j], te)
        {
          if Matches(allMaterials[i], te) {
            assert FirstMatch(allMaterials, te) == Some(i);
            return allMaterials[i];
          }
        }
      }
      mat := MaterialInfo(te.id, NullUuid, NullUuid, te.color, MaterialName(|allMaterials|));
      if te.material.Some? {
        mat := mat.(normalId := te.material.value.normalId, specularId := te.material.value.specularId);
      }
      allMaterials := allMaterials + [mat];
    }

    /** std::find with operator==. */
    static method FindEqual(list: seq<MaterialInfo>, m: MaterialInfo) returns (found: bool)
      ensures found == ContainsEqual(list, m)
    {
      found := false;
      for i := 0 to |list|
        invariant found == exists j | 0 <= j < i :: Equal(list[j], m)
      {
        if Equal(list[i], m) {
          found := true;
        }
      }
    }

    /** getMaterials: for each kept face in order, getMaterial, and the
        result is listed unless consolidating and an equal one is listed. */
    method GetMaterials(settings: Settings, obj: DaeObject, ret: seq<MaterialInfo>) returns (ret': seq<MaterialInfo>)
      modifies this
      ensures MaterialsState(allMaterials, ret') == MaterialsPass(settings, MaterialsState(old(allMaterials), ret), obj.faces)
      ensures textures == old(textures) && textureNames == old(textureNames) && objects == old(objects)
    {
      ret' := ret;
      for k := 0 to |obj.faces|
        invariant MaterialsState(allMaterials, ret') == MaterialsPass(settings, MaterialsState(old(allMaterials), ret), obj.faces[..k])
        invariant textures == old(textures) && textureNames == old(textureNames) && objects == old(objects)
      {
        ret' := GetMaterialsStep(settings, obj, MaterialsState(old(allMaterials), ret), k, ret');
      }
      TakeAll(obj.faces);
    }

    /** One face of getMaterials. */
    method GetMaterialsStep(settings: Settings, obj: DaeObject, ghost start: MaterialsState, k: nat, ret': seq<MaterialInfo>)
      returns (ret'': seq<MaterialInfo>)
      requires k < |obj.faces|
      requires MaterialsState(allMaterials, ret') == MaterialsPass(settings, start, obj.faces[..k])
      modifies this
      ensures MaterialsState(allMaterials, ret'') == MaterialsPass(settings, start, obj.faces[..k + 1])
      ensures textures == old(textures) && textureNames == old(textureNames) && objects == old(objects)
    {
      assert obj.faces[..k + 1][..k] == obj.faces[..k];
      ret'' := ret';
      var te := obj.faces[k].te;
      if SkipFace(settings, te) {
        return;
      }
      var mat := GetMaterial(settings, te);
      var listed := FindEqual(ret'', mat);
      if !settings.consolidateMaterials || !listed {
        ret'' := ret'' + [mat];
      }
    }

    /** getFacesWithMaterial: every face goes through getMaterial, and its
        number is listed when the result equals `mat`. */
    method GetFacesWithMaterial(settings: Settings, obj: DaeObject, mat: MaterialInfo, ret: seq<int>) returns (ret': seq<int>)
      modifies this
      ensures FacesState(allMaterials, ret') == FacesPass(settings, FacesState(old(allMaterials), ret), obj.faces, mat)
      ensures textures == old(textures) && textureNames == old(textureNames) && objects == old(objects)
    {
      ret' := ret;
      for k := 0 to |obj.faces|
        invariant FacesState(allMaterials, ret') == FacesPass(settings, FacesState(old(allMaterials), ret), obj.faces[..k], mat)
        invariant textures == old(textures) && textureNames == old(textureNames) && objects == old(objects)
      {
        assert obj.faces[..k + 1][..k] == obj.faces[..k];
        var m := GetMaterial(settings, obj.faces[k].te);
        if Equal(mat, m) {
          ret' := ret' + [k];
        }
      }
      TakeAll(obj.faces);
    }

    /** Registers one candidate id unless already present. */
    method AddTexture(id: Uuid, exportName: Uuid -> Option<string>, scrub: string -> string, ghost seen: seq<Uuid>)
      modifies this
      requires textures == Dedup(seen) && textureNames == TextureNames(textures, exportName, scrub)
      ensures textures == Dedup(seen + [id]) && textureNames == TextureNames(textures, exportName, scrub)
      ensures allMaterials == old(allMaterials) && objects == old(objects)
    {
      assert (seen + [id])[..|seen|] == seen;
      if id !in textures {
        var name := "";
        if id != TextureBlank && exportName(id).Some? {
          var safeName := scrub(exportName(id).value);
          name := ReplaceChar(safeName, ' ', '_');
        }
        textures := textures + [id];
        textureNames := textureNames + [name];
        assert textures[..|textures| - 1] == old(textures);
      }
    }

    /** Registers the candidate ids of one face, in order. */
    method AddCandidates(candidates: seq<Uuid>, exportName: Uuid -> Option<string>, scrub: string -> string, ghost seen: seq<Uuid>)
      modifies this
      requires textures == Dedup(seen) && textureNames == TextureNames(textures, exportName, scrub)
      ensures textures == Dedup(seen + candidates) && textureNames == TextureNames(textures, exportName, scrub)
      ensures allMaterials == old(allMaterials) && objects == old(objects)
    {
      AppendNil(seen);
      for c := 0 to |candidates|
        invariant textures == Dedup(seen + candidates[..c])
        invariant textureNames == TextureNames(textures, exportName, scrub)
        invariant allMaterials == old(allMaterials) && objects == old(objects)
      {
        AddTexture(candidates[c], exportName, scrub, seen + candidates[..c]);
        TakeSnoc(candidates, c);
        AppendAssoc(seen, candidates[..c], [candidates[c]]);
      }
      TakeAll(candidates);
    }

    /** Registers the candidate ids of every face of one object. */
    method AddFaceTextures(faces: seq<DaeFace>, exportName: Uuid -> Option<string>, scrub: string -> string, ghost seen: seq<Uuid>)
      modifies this
      requires textures == Dedup(seen) && textureNames == TextureNames(textures, exportName, scrub)
      ensures textures == Dedup(seen + FaceCandidates(faces)) && textureNames == TextureNames(textures, exportName, scrub)
      ensures allMaterials == old(allMaterials) && objects == old(objects)
    {
      assert faces[..0] == [];
      AppendNil(seen);
      for k := 0 to |faces|
        invariant textures == Dedup(seen + FaceCandidates(faces[..k]))
        invariant textureNames == TextureNames(textures, exportName, scrub)
        invariant allMaterials == old(allMaterials) && objects == old(objects)
      {
        assert faces[..k + 1][..k] == faces[..k];
        AddCandidates(Candidates(faces[k].te), exportName, scrub, seen + FaceCandidates(faces[..k]));
        AppendAssoc(seen, FaceCandidates(faces[..k]), Candidates(faces[k].te));
      }
      TakeAll(faces);
    }

    /** updateTextureInfo: clears both lists, then walks every face of every
        object (skipped ones included) and registers its candidate ids. */
    method UpdateTextureInfo(exportName: Uuid -> Option<string>, scrub: string -> string)
      modifies this
      ensures textures == Dedup(ObjectCandidates(objects))
      ensures textureNames == TextureNames(textures, exportName, scrub)
      ensures allMaterials == old(allMaterials) && objects == old(objects)
    {
      textures := [];
      textureNames := [];
      for o := 0 to |objects|
        invariant allMaterials == old(allMaterials) && objects == old(objects)
        invariant textures == Dedup(ObjectCandidates(objects[..o]))
        invariant textureNames == TextureNames(textures, exportName, scrub)
      {
        assert objects[..o + 1][..o] == objects[..o];
        AddFaceTextures(objects[o].obj.faces, exportName, scrub, ObjectCandidates(objects[..o]));
      }
      TakeAll(objects);
    }

    /** The consolidated polylists: for each of the object's materials, the
        faces found for it are appended to the shared list, and a polylist
        is drawn with the list so far. */
    method PlanConsolidated(settings: Settings, obj: DaeObject, geomId: string, objMaterials: seq<MaterialInfo>)
      returns (pls: seq<Polylist>, faces: seq<int>, ghost lists: seq<seq<int>>)
      requires settings.consolidateMaterials
      modifies this
      ensures FacesState(allMaterials, faces) == ConsolidatedPass(settings, FacesState(old(allMaterials), []), obj.faces, objMaterials)
      ensures |pls| == |objMaterials| && |lists| == |objMaterials|
      ensures forall j | 0 <= j < |lists| ::
        lists[j] == ConsolidatedPass(settings, FacesState(old(allMaterials), []), obj.faces, objMaterials[..j + 1]).list
      ensures forall j | 0 <= j < |pls| :: PolylistDrawn(settings, obj.faces, pls[j], objMaterials[j], lists[j])
      ensures forall j | 0 <= j < |pls| :: pls[j].inputs == PolylistInputs(geomId)
      ensures textures == old(textures) && textureNames == old(textureNames) && objects == old(objects)
    {
      ghost var st0 := FacesState(allMaterials, []);
      pls, faces, lists := [], [], [];
      for j := 0 to |objMaterials|
        invariant |pls| == j && |lists| == j
        invariant FacesState(allMaterials, faces) == ConsolidatedPass(settings, st0, obj.faces, objMaterials[..j])
        invariant forall i | 0 <= i < j :: lists[i] == ConsolidatedPass(settings, st0, obj.faces, objMaterials[..i + 1]).list
        invariant forall i | 0 <= i < j :: PolylistDrawn(settings, obj.faces, pls[i], objMaterials[i], lists[i])
        invariant forall i | 0 <= i < j :: pls[i].inputs == PolylistInputs(geomId)
        invariant textures == old(textures) && textureNames == old(textureNames) && objects == old(objects)
      {
        pls, faces, lists := AddMaterialPolylist(settings, obj, geomId, objMaterials, pls, faces, lists, st0);
      }
      assert objMaterials[..|objMaterials|] == objMaterials;
    }

    /** One material of the consolidated plan: its faces join the list and a
        polylist drawn with the list is added under it. */
    method AddMaterialPolylist(settings: Settings, obj: DaeObject, geomId: string, mats: seq<MaterialInfo>,
                               pls: seq<Polylist>, faces: seq<int>, ghost lists: seq<seq<int>>, ghost st0: FacesState)
      returns (pls': seq<Polylist>, faces': seq<int>, ghost lists': seq<seq<int>>)
      requires |pls| == |lists| < |mats|
      requires FacesState(allMaterials, faces) == ConsolidatedPass(settings, st0, obj.faces, mats[..|pls|])
      requires forall i | 0 <= i < |pls| :: lists[i] == ConsolidatedPass(settings, st0, obj.faces, mats[..i + 1]).list
      requires forall i | 0 <= i < |pls| :: PolylistDrawn(settings, obj.faces, pls[i], mats[i], lists[i])
      requires forall i | 0 <= i < |pls| :: pls[i].inputs == PolylistInputs(geomId)
      modifies this
      ensures |pls'| == |pls| + 1 && |lists'| == |lists| + 1
      ensures FacesState(allMaterials, faces') == ConsolidatedPass(settings, st0, obj.faces, mats[..|pls'|])
      ensures forall i | 0 <= i < |pls'| :: lists'[i] == ConsolidatedPass(settings, st0, obj.faces, mats[..i + 1]).list
      ensures forall i | 0 <= i < |pls'| :: PolylistDrawn(settings, obj.faces, pls'[i], mats[i], lists'[i])
      ensures forall i | 0 <= i < |pls'| :: pls'[i].inputs == PolylistInputs(geomId)
      ensures textures == old(textures) && textureNames == old(textureNames) && objects == old(objects)
    {
      var j := |pls|;
      assert mats[..j + 1][..j] == mats[..j];
      faces' := GetFacesWithMaterial(settings, obj, mats[j], faces);
      assert faces' == ConsolidatedPass(settings, st0, obj.faces, mats[..j + 1]).list;
      var pl := AddPolygons(geomId, mats[j].name + "-material", obj.faces, settings, Some(faces'));
      assert PolylistDrawn(settings, obj.faces, pl, mats[j], faces');
      pls' := pls + [pl];
      lists' := lists + [faces'];
      forall i | 0 <= i < |pls'|
        ensures lists'[i] == ConsolidatedPass(settings, st0, obj.faces, mats[..i + 1]).list
        ensures PolylistDrawn(settings, obj.faces, pls'[i], mats[i], lists'[i])
        ensures pls'[i].inputs == PolylistInputs(geomId)
      {
        if i < j {
          assert pls'[i] == pls[i] && lists'[i] == lists[i];
        } else {
          assert i == j && pls'[i] == pl && lists'[i] == faces';
        }
      }
    }

    /** A kept face of the per-face plan: its number joins the list, and a
        polylist drawn with the list is added under the next material. */
    static method AddKeptFace(settings: Settings, obj: DaeObject, geomId: string, mats: seq<MaterialInfo>, k: int,
                              pls: seq<Polylist>, faces: seq<int>, ghost lists: seq<seq<int>>)
      returns (pls': seq<Polylist>, faces': seq<int>, ghost lists': seq<seq<int>>)
      requires |faces| == |pls| == |lists| < |mats|
      requires forall j | 0 <= j < |lists| :: lists[j] == faces[..j + 1]
      requires forall i | 0 <= i < |pls| :: PolylistDrawn(settings, obj.faces, pls[i], mats[i], lists[i])
      requires forall i | 0 <= i < |pls| :: pls[i].inputs == PolylistInputs(geomId)
      ensures faces' == faces + [k] && |pls'| == |pls| + 1 && |lists'| == |lists| + 1
      ensures forall j | 0 <= j < |lists'| :: lists'[j] == faces'[..j + 1]
      ensures forall i | 0 <= i < |pls'| :: PolylistDrawn(settings, obj.faces, pls'[i], mats[i], lists'[i])
      ensures forall i | 0 <= i < |pls'| :: pls'[i].inputs == PolylistInputs(geomId)
    {
      faces' := faces + [k];
      var pl := AddPolygons(geomId, mats[|pls|].name + "-material", obj.faces, settings, Some(faces'));
      pls' := pls + [pl];
      lists' := lists + [faces'];
      forall j | 0 <= j < |lists'| ensures lists'[j] == faces'[..j + 1] {
        if j < |lists| {
          assert faces'[..j + 1] == faces[..j + 1];
        }
      }
    }

    /** The loop state of the per-face plan after the first k faces. */
    static predicate PerFaceState(settings: Settings, obj: DaeObject, geomId: string, mats: seq<MaterialInfo>, k: nat,
                                  pls: seq<Polylist>, faces: seq<int>, lists: seq<seq<int>>)
      requires k <= |obj.faces|
    {
      && faces == KeptNumbers(settings, obj.faces[..k])
      && |faces| == |pls| == |lists| <= |mats|
      && (forall j | 0 <= j < |lists| :: lists[j] == faces[..j + 1])
      && (forall i | 0 <= i < |pls| :: PolylistDrawn(settings, obj.faces, pls[i], mats[i], lists[i]))
      && (forall i | 0 <= i < |pls| :: pls[i].inputs == PolylistInputs(geomId))
    }

    /** One face of the per-face plan: a skipped face changes nothing. */
    static method PerFaceStep(settings: Settings, obj: DaeObject, geomId: string, mats: seq<MaterialInfo>, k: nat,
                              pls: seq<Polylist>, faces: seq<int>, ghost lists: seq<seq<int>>)
      returns (pls': seq<Polylist>, faces': seq<int>, ghost lists': seq<seq<int>>)
      requires k < |obj.faces| && |mats| == KeptCount(settings, obj.faces)
      requires PerFaceState(settings, obj, geomId, mats, k, pls, faces, lists)
      ensures PerFaceState(settings, obj, geomId, mats, k + 1, pls', faces', lists')
      ensures SkipFace(settings, obj.faces[k].te) ==> pls' == pls && faces' == faces
      ensures !SkipFace(settings, obj.faces[k].te) ==> |pls'| == |pls| + 1 && faces' == faces + [k]
    {
      assert obj.faces[..k + 1][..k] == obj.faces[..k];
      assert obj.faces[..k + 1][k] == obj.faces[k];
      if SkipFace(settings, obj.faces[k].te) {
        AppendNil(faces);
        return pls, faces, lists;
      }
      KeptNumbersFacts(settings, obj.faces[..k + 1]);
      KeptCountPrefix(settings, obj.faces, k + 1);
      pls', faces', lists' := AddKeptFace(settings, obj, geomId, mats, k, pls, faces, lists);
    }

    /** The per-face polylists: each kept face's number is appended to the
        list and a polylist is drawn with the list so far, under the next of
        the object's materials. */
    static method PlanPerFace(settings: Settings, obj: DaeObject, geomId: string, objMaterials: seq<MaterialInfo>)
      returns (pls: seq<Polylist>, faces: seq<int>, ghost lists: seq<seq<int>>)
      requires |objMaterials| == KeptCount(settings, obj.faces)
      ensures faces == KeptNumbers(settings, obj.faces)
      ensures |pls| == |objMaterials| && |lists| == |objMaterials| && |faces| == |objMaterials|
      ensures forall j | 0 <= j < |lists| :: lists[j] == faces[..j + 1]
      ensures forall j | 0 <= j < |pls| :: PolylistDrawn(settings, obj.faces, pls[j], objMaterials[j], lists[j])
      ensures forall j | 0 <= j < |pls| :: pls[j].inputs == PolylistInputs(geomId)
    {
      pls, faces, lists := [], [], [];
      for k := 0 to |obj.faces|
        invariant PerFaceState(settings, obj, geomId, objMaterials, k, pls, faces, lists)
      {
        pls, faces, lists := PerFaceStep(settings, obj, geomId, objMaterials, k, pls, faces, lists);
      }
      assert obj.faces[..|obj.faces|] == obj.faces;
      KeptNumbersFacts(settings, obj.faces);
    }

    /** The geometry of object k: the vertex sources of its kept faces, its
        materials from getMaterials, and one polylist per material drawn
        with the face list planned for it. */
    method AddGeometry(settings: Settings, k: nat, obj: DaeObject)
      returns (geom: Geometry, objMaterials: seq<MaterialInfo>, faceList: seq<int>)
      requires VerticesReadable(settings, obj.faces)
      modifies this
      ensures allMaterials == RegistryAfterObject(settings, old(allMaterials), obj)
      ensures objMaterials == ObjectMaterials(settings, old(allMaterials), obj).list
      ensures faceList == FinalFaceList(settings, old(allMaterials), obj)
      ensures textures == old(textures) && textureNames == old(textureNames) && objects == old(objects)
      ensures GeometryOf(settings, k, old(allMaterials), obj, geom)
    {
      var geomId := PrimId(k) + "-mesh";
      var positions, normals, map0 := BuildSources(settings, geomId, obj.faces);
      ghost var reg0 := allMaterials;
      objMaterials := GetMaterials(settings, obj, []);
      var pls;
      ghost var lists;
      pls, faceList, lists := PlanPolylists(settings, obj, geomId, objMaterials, reg0);
      geom := Geometry(geomId, positions, normals, map0, geomId + "-vertices", "#" + geomId + "-positions", pls);
      if ObjectIndicesValid(settings, obj) {
        PolylistsInRange(settings, obj.faces, geom, objMaterials, lists);
      }
    }

    /** The scene nodes of object k: its prim node, instancing the skin
        controller when it is a skinned rigged mesh and the geometry
        otherwise, and binding its materials; before it, for the first
        skinned object, the avatar node. */
    static method AddNodes(settings: Settings, k: nat, obj: DaeObject, geomId: string, faceList: seq<int>, objMaterials: seq<MaterialInfo>,
                           agentSkeleton: Joint, avatarAdded: bool, skeletonId: string)
      returns (ctrl: Option<Controller>, nodes: seq<SceneNode>, avatarAdded': bool, skeletonId': string)
      requires Skinned(settings, obj) ==> SkinReadable(settings, obj.faces, None)
      ensures NodesShape(nodes, avatarAdded, skeletonId, avatarAdded', skeletonId')
      ensures PrimNodeOf(settings, k, geomId, obj, objMaterials, nodes[0])
      ensures ctrl.Some? <==> Skinned(settings, obj)
      ensures !avatarAdded && avatarAdded' ==> nodes[1].joints == [JointNodeOf(
        if obj.avatarSkeleton.Some? then obj.avatarSkeleton.value else agentSkeleton)]
      ensures ctrl.Some? ==> ControllerOf(settings, PrimId(k), geomId, obj, faceList, ctrl.value)
    {
      var primId := PrimId(k);
      var instance, avatarNodes;
      ctrl, instance, avatarNodes, avatarAdded', skeletonId' :=
        AddSkin(settings, primId, geomId, obj, faceList, agentSkeleton, avatarAdded, skeletonId);
      var bound := BindMaterials(objMaterials);
      nodes := [PrimNode(primId, primId, "NODE", instance, bound)] + avatarNodes;
    }

    /** The positions, normals and map0 sources of a geometry. */
    static method BuildSources(settings: Settings, geomId: string, faces: seq<DaeFace>)
      returns (positions: Source, normals: Source, map0: Source)
      requires VerticesReadable(settings, faces)
      ensures SourcesOf(settings, geomId, faces, positions, normals, map0)
    {
      var pos, norm, uv := VertexData(settings, faces);
      VertexDataLengths(settings, faces);
      positions := AddSourceParams(geomId + "-positions", "XYZ", pos);
      normals := AddSourceParams(geomId + "-normals", "XYZ", norm);
      map0 := AddSourceParams(geomId + "-map0", "ST", uv);
    }

    /** The triangles of an object: consolidated or per face. */
    method PlanPolylists(settings: Settings, obj: DaeObject, geomId: string, objMaterials: seq<MaterialInfo>, ghost reg0: seq<MaterialInfo>)
      returns (pls: seq<Polylist>, faceList: seq<int>, ghost lists: seq<seq<int>>)
      requires objMaterials == ObjectMaterials(settings, reg0, obj).list
      requires allMaterials == ObjectMaterials(settings, reg0, obj).registry
      modifies this
      ensures allMaterials == RegistryAfterObject(settings, reg0, obj)
      ensures faceList == FinalFaceList(settings, reg0, obj)
      ensures |pls| == |objMaterials| && |lists| == |objMaterials|
      ensures forall j | 0 <= j < |lists| :: lists[j] == PolylistFaces(settings, reg0, obj, j)
      ensures forall j | 0 <= j < |pls| :: PolylistDrawn(settings, obj.faces, pls[j], objMaterials[j], lists[j])
      ensures forall j | 0 <= j < |pls| :: pls[j].inputs == PolylistInputs(geomId)
      ensures textures == old(textures) && textureNames == old(textureNames) && objects == old(objects)
    {
      if settings.consolidateMaterials {
        pls, faceList, lists := PlanConsolidated(settings, obj, geomId, objMaterials);
      } else {
        MaterialsPassUnconsolidated(settings, MaterialsState(reg0, []), obj.faces);
        pls, faceList, lists := PlanPerFace(settings, obj, geomId, objMaterials);
      }
    }

    /** The rigged-mesh branch: the avatar node for the first skinned object,
        the controller, and the controller instance; otherwise the geometry
        instance. */
    static method AddSkin(settings: Settings, primId: string, geomId: string, obj: DaeObject, faceList: seq<int>,
                          agentSkeleton: Joint, avatarAdded: bool, skeletonId: string)
      returns (ctrl: Option<Controller>, instance: Instance, avatarNodes: seq<SceneNode>, avatarAdded': bool, skeletonId': string)
      requires Skinned(settings, obj) ==> SkinReadable(settings, obj.faces, None)
      ensures ctrl.Some? <==> Skinned(settings, obj)
      ensures !Skinned(settings, obj) ==>
        instance == InstanceGeometry("#" + geomId) && avatarNodes == [] && avatarAdded' == avatarAdded && skeletonId' == skeletonId
      ensures Skinned(settings, obj) ==>
        instance == InstanceController("#" + ctrl.value.id, "#" + skeletonId') && avatarAdded'
      ensures avatarAdded ==> avatarAdded' && skeletonId' == skeletonId && avatarNodes == []
      ensures !avatarAdded && avatarAdded' ==>
        && skeletonId' == (if obj.avatarSkeleton.Some? then obj.avatarSkeleton.value else agentSkeleton).name
        && avatarNodes == [AvatarNode("Avatar", "Avatar", "NODE",
             [JointNodeOf(if obj.avatarSkeleton.Some? then obj.avatarSkeleton.value else agentSkeleton)])]
      ensures ctrl.Some? ==> ControllerOf(settings, primId, geomId, obj, faceList, ctrl.value)
    {
      avatarAdded', skeletonId' := avatarAdded, skeletonId;
      avatarNodes := [];
      if !(settings.exportRiggedMesh && obj.isRiggedMesh) {
        return None, InstanceGeometry("#" + geomId), avatarNodes, avatarAdded', skeletonId';
      }
      if !avatarAdded {
        var root := if obj.avatarSkeleton.Some? then obj.avatarSkeleton.value else agentSkeleton;
        var joints := AddJointNodes([], root);
        assert joints == [JointNodeOf(root)];
        avatarNodes := [AvatarNode("Avatar", "Avatar", "NODE", joints)];
        skeletonId' := root.name;
        avatarAdded' := true;
      }
      var ctrlId := primId + "-skin";
      IdentityColumnMajor();
      var bindShape := AppendMatrix([], IdentityMatrix);
      var jointNames := AddSourceNames(ctrlId + "-joints", "JOINT", obj.jointNames);
      var bindPoses := AddSourceMatrices(ctrlId + "-bind_poses", "TRANSFORM", obj.invBindMatrices);
      SkinReadableAnyList(settings, obj.faces, faceList);
      var vw := AddJointsAndWeights(ctrlId, obj.faces, settings, Some(faceList));
      assert "#" + (ctrlId + "-joints") == "#" + ctrlId + "-joints";
      assert "#" + (ctrlId + "-bind_poses") == "#" + ctrlId + "-bind_poses";
      ctrl := Some(Controller(ctrlId, "#" + geomId, bindShape, jointNames, bindPoses, vw));
      instance := InstanceController("#" + ctrlId, "#" + skeletonId');
    }

    /** The bind_material entries, one per material of the object. */
    static method BindMaterials(mats: seq<MaterialInfo>) returns (bound: seq<BoundMaterial>)
      ensures bound == Bound(mats)
    {
      bound := [];
      for i := 0 to |mats|
        invariant bound == Bound(mats[..i])
      {
        assert mats[..i + 1][..i] == mats[..i];
        var matName := mats[i].name + "-material";
        assert "#" + matName == "#" + mats[i].name + "-material";
        bound := bound + [BoundMaterial(matName, "#" + matName)];
      }
      assert mats[..|mats|] == mats;
    }

    /** library_materials: one material per registered material. */
    static method LibraryMaterials(mats: seq<MaterialInfo>) returns (lib: seq<MaterialElement>)
      ensures lib == Library(mats)
    {
      lib := [];
      for i := 0 to |mats|
        invariant lib == Library(mats[..i])
      {
        assert mats[..i + 1][..i] == mats[..i];
        lib := lib + [MaterialElement(mats[i].name + "-material", "#" + mats[i].name + "-fx")];
      }
      assert mats[..|mats|] == mats;
    }

    /** One object of saveDAE's loop: its geometry, its controller when it
        is skinned, and its nodes are appended, and the loop state is kept. */
    method SaveObject(settings: Settings, agentSkeleton: Joint, k: nat,
                      geometries: seq<Geometry>, controllers: seq<Controller>, scene: seq<SceneNode>,
                      ghost sceneMats: seq<seq<MaterialInfo>>, avatarAdded: bool, skeletonId: string)
      returns (geometries': seq<Geometry>, controllers': seq<Controller>, scene': seq<SceneNode>,
               ghost sceneMats': seq<seq<MaterialInfo>>, avatarAdded': bool, skeletonId': string)
      requires k < |objects|
      requires VerticesReadable(settings, objects[k].obj.faces)
      requires Skinned(settings, objects[k].obj) ==> SkinReadable(settings, objects[k].obj.faces, None)
      requires SaveState(settings, objects, k, allMaterials, geometries, controllers, scene, sceneMats, avatarAdded, skeletonId)
      modifies this
      ensures textures == old(textures) && textureNames == old(textureNames) && objects == old(objects)
      ensures SaveState(settings, objects, k + 1, allMaterials, geometries', controllers', scene', sceneMats', avatarAdded', skeletonId')
    {
      ghost var reg := allMaterials;
      var geom, ctrl, nodes, objMaterials;
      geom, ctrl, nodes, objMaterials, avatarAdded', skeletonId' := AddObject(settings, agentSkeleton, k, avatarAdded, skeletonId);
      SaveStateStep(settings, objects, k, reg, allMaterials, geometries, controllers, scene, sceneMats, avatarAdded, skeletonId,
                    geom, ctrl, nodes, objMaterials, avatarAdded', skeletonId');
      geometries' := geometries + [geom];
      controllers' := if ctrl.Some? then controllers + [ctrl.value] else controllers;
      sceneMats' := sceneMats + (if |nodes| == 2 then [objMaterials, []] else [objMaterials]);
      scene' := scene + nodes;
    }

    /** Object k's geometry, controller and nodes, with the registry grown
        by its materials. */
    method AddObject(settings: Settings, agentSkeleton: Joint, k: nat, avatarAdded: bool, skeletonId: string)
      returns (geom: Geometry, ctrl: Option<Controller>, nodes: seq<SceneNode>, objMaterials: seq<MaterialInfo>,
               avatarAdded': bool, skeletonId': string)
      requires k < |objects|
      requires VerticesReadable(settings, objects[k].obj.faces)
      requires Skinned(settings, objects[k].obj) ==> SkinReadable(settings, objects[k].obj.faces, None)
      modifies this
      ensures textures == old(textures) && textureNames == old(textureNames) && objects == old(objects)
      ensures allMaterials == RegistryAfterObject(settings, old(allMaterials), objects[k].obj)
      ensures ObjectOutput(settings, k, old(allMaterials), objects[k].obj, geom, ctrl, nodes, objMaterials,
                           avatarAdded, skeletonId, avatarAdded', skeletonId')
    {
      var obj := objects[k].obj;
      var faceList;
      geom, objMaterials, faceList := AddGeometry(settings, k, obj);
      ctrl, nodes, avatarAdded', skeletonId' :=
        AddNodes(settings, k, obj, geom.id, faceList, objMaterials, agentSkeleton, avatarAdded, skeletonId);
    }

    /** saveDAE's object loop and material library: the registry is cleared,
        each object adds its geometry, controller and nodes in order, and
        every registered material gets a library entry. */
    method SaveDae(settings: Settings, agentSkeleton: Joint) returns (doc: Collada)
      requires forall k | 0 <= k < |objects| :: VerticesReadable(settings, objects[k].obj.faces)
      requires forall k | 0 <= k < |objects| :: Skinned(settings, objects[k].obj) ==> SkinReadable(settings, objects[k].obj.faces, None)
      modifies this
      ensures allMaterials == RegistryAfterObjects(settings, objects)
      ensures textures == old(textures) && textureNames == old(textureNames) && objects == old(objects)
      ensures doc.materials == Library(allMaterials)
      ensures |doc.geometries| == |objects| && GeometriesOf(settings, objects, doc.geometries)
      ensures ControllersOf(settings, objects, |objects|, doc.controllers)
      ensures PrimsOf(settings, objects, |objects|, doc.scene)
      ensures forall i, b | 0 <= i < |doc.scene| && doc.scene[i].PrimNode? && 0 <= b < |doc.scene[i].bound| ::
        Resolves(doc.scene[i].bound[b], doc.materials)
      ensures AtMostOneAvatar(doc.scene) && SkeletonsResolve(doc.scene)
    {
      allMaterials := [];
      var geometries: seq<Geometry> := [];
      var controllers: seq<Controller> := [];
      var scene: seq<SceneNode> := [];
      ghost var sceneMats: seq<seq<MaterialInfo>> := [];
      var avatarAdded := false;
      var skeletonId := "";
      for k := 0 to |objects|
        invariant textures == old(textures) && textureNames == old(textureNames) && objects == old(objects)
        invariant SaveState(settings, objects, k, allMaterials, geometries, controllers, scene, sceneMats, avatarAdded, skeletonId)
      {
        geometries, controllers, scene, sceneMats, avatarAdded, skeletonId :=
          SaveObject(settings, agentSkeleton, k, geometries, controllers, scene, sceneMats, avatarAdded, skeletonId);
      }
      assert objects[..|objects|] == objects;
      var lib := LibraryMaterials(allMaterials);
      doc := Collada(geometries, controllers, scene, lib);
      BindingsResolve(scene, sceneMats, allMaterials);
    }
  }
}
