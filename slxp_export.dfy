/** The SLXP exporter of `slxpexport.cpp`: it walks an ordered list of named
    scene objects, turns avatars into joint records (one per skeleton joint, in
    preorder) and every other object into an object record with one face per
    volume face, and writes the document's JSON text unless an early check or a
    failed entry stops it. */
module SlxpExport {
  import opened Numeric
  import opened Slxp

  // ===========================================================================
  // Host values the exporter reads

  /** LLVector3, LLQuaternion, LLVector2 and LLVector4a, by component. */
  datatype Vector3 = Vector3(x: Float, y: Float, z: Float)
  datatype Quaternion = Quaternion(x: Float, y: Float, z: Float, w: Float)
  datatype Vector2 = Vector2(x: Float, y: Float)
  datatype Vector4a = Vector4a(x: Float, y: Float, z: Float, w: Float)

  /** An LLJoint: its name, its joint number and its children in list order.
      A joint's parent is the joint whose children list holds it. */
  datatype Joint = Joint(name: string, num: int, children: seq<Joint>)

  /** An LLVolumeFace: the counts and the arrays it refers to. Tangents
      and weights may be absent (null in the C++). */
  datatype VolumeFace = VolumeFace(
    numVertices: nat,
    numIndices: nat,
    positions: seq<Vector4a>,
    normals: seq<Vector4a>,
    tangents: Option<seq<Vector4a>>,
    texCoords: seq<Vector2>,
    weights: Option<seq<Vector4a>>,
    indices: seq<uint16>)

  /** An LLViewerObject as far as the exporter looks at it. `parentLocalId` is
      the parent's local id when there is a parent; `rootJoint` is read for
      avatars, `bindShapeMatrix` (the skin info's) for rigged meshes, `title`
      is the "Title" name-value pair. `encodingThrows` says whether encoding
      this object raises a std::exception, which the model cannot derive. */
  datatype SceneObject = SceneObject(
    localId: uint32,
    parentLocalId: Option<uint32>,
    isAvatar: bool,
    rootJoint: Joint,
    isRiggedMesh: bool,
    bindShapeMatrix: Matrix16,
    hasVolume: bool,
    volumeFaces: seq<VolumeFace>,
    position: Vector3,
    rotation: Quaternion,
    scale: Vector3,
    isHudAttachment: bool,
    title: Option<string>,
    children: seq<Option<SceneObject>>,
    encodingThrows: bool)

  /** object_entry_t: a display name and the object. */
  datatype Entry = Entry(name: string, obj: SceneObject)

  /** ExportData: the title and the entries to export, in order. */
  datatype ExportData = ExportData(title: string, objects: seq<Entry>)

  // ===========================================================================
  // The Copy helpers

  function Vec3OfVector3(v: Vector3): Vec3 {
    Vec3(v.x, v.y, v.z)
  }

  function Vec4OfQuaternion(q: Quaternion): Vec4 {
    Vec4(q.x, q.y, q.z, q.w)
  }

  function Vec2OfVector2(v: Vector2): Vec2 {
    Vec2(v.x, v.y)
  }

  function Vec2OfVector4a(v: Vector4a): Vec2 {
    Vec2(v.x, v.y)
  }

  function Vec3OfVector4a(v: Vector4a): Vec3 {
    Vec3(v.x, v.y, v.z)
  }

  function Vec4OfVector4a(v: Vector4a): Vec4 {
    Vec4(v.x, v.y, v.z, v.w)
  }

  function SameIndex(i: uint16): uint16 {
    i
  }

  /** The array overloads of Copy: push the first `size` elements of `src`,
      converted, onto the back of `dst`. Earlier elements of `dst` stay. */
  method AppendConverted<S, D>(src: seq<S>, size: nat, dst: seq<D>, convert: S -> D) returns (out: seq<D>)
    requires size <= |src|
    ensures |out| == |dst| + size
    ensures out[..|dst|] == dst
    ensures forall i | 0 <= i < size :: out[|dst| + i] == convert(src[i])
  {
    out := dst;
    for i := 0 to size
      invariant |out| == |dst| + i
      invariant out[..|dst|] == dst
      invariant forall k | 0 <= k < i :: out[|dst| + k] == convert(src[k])
    {
      out := out + [convert(src[i])];
    }
  }

  /** With an empty destination, the array Copy is the conversion itself. */
  lemma AppendConvertedFromEmpty<S, D>(src: seq<S>, size: nat, out: seq<D>, convert: S -> D)
    requires size <= |src| && |out| == size
    requires forall i | 0 <= i < size :: out[i] == convert(src[i])
    ensures out == Mapped(convert, src[..size])
  {
  }

  /** The transform the exporter copies from an object. */
  function TrsOf(o: SceneObject): Trs {
    Trs(Vec3OfVector3(o.position), Vec4OfQuaternion(o.rotation), Vec3OfVector3(o.scale))
  }

  // ===========================================================================
  // AddJointsPreorder

  /** A joint as the preorder list holds it, with its parent's joint number. */
  datatype Placed = Placed(name: string, num: int, parentNum: Option<int>)

  /** The number of joints in a subtree. */
  function JointCount(j: Joint): nat
    decreases j, 1
  {
    1 + ChildrenCount(j.children)
  }

  function ChildrenCount(cs: seq<Joint>): nat
    decreases cs, 0
  {
    if cs == [] then 0 else ChildrenCount(cs[..|cs| - 1]) + JointCount(cs[|cs| - 1])
  }

  /** The joint, then each child's subtree in list order. */
  function Preorder(j: Joint, parent: Option<int>): seq<Placed>
    decreases j, 1
  {
    [Placed(j.name, j.num, parent)] + PreorderList(j.children, Some(j.num))
  }

  function PreorderList(cs: seq<Joint>, parent: Option<int>): seq<Placed>
    decreases cs, 0
  {
    if cs == [] then [] else PreorderList(cs[..|cs| - 1], parent) + Preorder(cs[|cs| - 1], parent)
  }

  /** Pushes the joint, then recursively each child, onto the back of `joints`. */
  method AddJointsPreorder(joints: seq<Placed>, joint: Joint, parent: Option<int>) returns (out: seq<Placed>)
    ensures out == joints + Preorder(joint, parent)
    decreases joint
  {
    out := joints + [Placed(joint.name, joint.num, parent)];
    ghost var head := out;
    for i := 0 to |joint.children|
      invariant out == head + PreorderList(joint.children[..i], Some(joint.num))
    {
      var child := joint.children[i];
      assert joint.children[..i + 1][..i] == joint.children[..i];
      out := AddJointsPreorder(out, child, Some(joint.num));
      AppendAssoc(head, PreorderList(joint.children[..i], Some(joint.num)), Preorder(child, Some(joint.num)));
    }
    TakeAll(joint.children);
    AppendAssoc(joints, [Placed(joint.name, joint.num, parent)], PreorderList(joint.children, Some(joint.num)));
  }

  /** The preorder list holds every joint of the subtree exactly once by count. */
  lemma {:induction false} PreorderLength(j: Joint, parent: Option<int>)
    ensures |Preorder(j, parent)| == JointCount(j)
    decreases j, 1
  {
    PreorderListLength(j.children, Some(j.num));
  }

  lemma {:induction false} PreorderListLength(cs: seq<Joint>, parent: Option<int>)
    ensures |PreorderList(cs, parent)| == ChildrenCount(cs)
    decreases cs, 0
  {
    if cs != [] {
      PreorderListLength(cs[..|cs| - 1], parent);
      PreorderLength(cs[|cs| - 1], parent);
    }
  }

  /** Some earlier entry is the parent of entry k. */
  ghost predicate ParentEarlier(r: seq<Placed>, k: int)
    requires 0 <= k < |r|
  {
    exists m | 0 <= m < k :: r[k].parentNum == Some(r[m].num)
  }

  /** A joint comes before its children: the list starts with the joint itself,
      and every later entry's parent number is that of an earlier entry. */
  lemma {:induction false} PreorderParentsFirst(j: Joint, parent: Option<int>)
    ensures Preorder(j, parent)[0] == Placed(j.name, j.num, parent)
    ensures forall k | 0 < k < |Preorder(j, parent)| :: ParentEarlier(Preorder(j, parent), k)
    decreases j, 1
  {
    PreorderListParents(j.children, j.num);
    ParentsFirstCons(Placed(j.name, j.num, parent), PreorderList(j.children, Some(j.num)));
  }

  /** Putting an entry in front of a list whose entries are its children or
      have an earlier parent gives a list where every later entry has an
      earlier parent. */
  lemma ParentsFirstCons(head: Placed, rest: seq<Placed>)
    requires forall k | 0 <= k < |rest| :: rest[k].parentNum == Some(head.num) || ParentEarlier(rest, k)
    ensures forall k | 0 < k < |[head] + rest| :: ParentEarlier([head] + rest, k)
  {
    var r := [head] + rest;
    forall k | 0 < k < |r|
      ensures ParentEarlier(r, k)
    {
      assert r[k] == rest[k - 1];
      if rest[k - 1].parentNum == Some(head.num) {
        assert r[k].parentNum == Some(r[0].num);
      } else {
        assert ParentEarlier(rest, k - 1);
        var m :| 0 <= m < k - 1 && rest[k - 1].parentNum == Some(rest[m].num);
        assert r[m + 1] == rest[m];
      }
    }
  }

  lemma {:induction false} PreorderListParents(cs: seq<Joint>, n: int)
    ensures forall k | 0 <= k < |PreorderList(cs, Some(n))| ::
      PreorderList(cs, Some(n))[k].parentNum == Some(n) || ParentEarlier(PreorderList(cs, Some(n)), k)
    decreases cs, 0
  {
    if cs != [] {
      var init := PreorderList(cs[..|cs| - 1], Some(n));
      var last := Preorder(cs[|cs| - 1], Some(n));
      var r := init + last;
      PreorderListParents(cs[..|cs| - 1], n);
      PreorderParentsFirst(cs[|cs| - 1], Some(n));
      forall k | 0 <= k < |r|
        ensures r[k].parentNum == Some(n) || ParentEarlier(r, k)
      {
        if k < |init| {
          assert r[k] == init[k];
          if init[k].parentNum != Some(n) {
            assert ParentEarlier(init, k);
            var m :| 0 <= m < k && init[k].parentNum == Some(init[m].num);
            assert r[m] == init[m];
          }
        } else if k > |init| {
          var k' := k - |init|;
          assert r[k] == last[k'];
          assert ParentEarlier(last, k');
          var m :| 0 <= m < k' && last[k'].parentNum == Some(last[m].num);
          assert r[|init| + m] == last[m];
        } else {
          assert r[k] == last[0];
        }
      }
    }
  }

  // ===========================================================================
  // The records built for each entry

  /** Joint numbers are signed; the record's id is an unsigned int. */
  function AsUnsigned(n: int): uint32 {
    n % 0x1_0000_0000
  }

  /** SLXPJoint(name, joint number); ParentId is the parent's joint number, or
      stays 0 without a parent; the transform is the given one. */
  function JointRecordOf(p: Placed, trs: Trs): JointRecord {
    JointRecord(Base(p.name, AsUnsigned(p.num),
      if p.parentNum.Some? then AsUnsigned(p.parentNum.value) else 0, trs))
  }

  function JointRecords(ps: seq<Placed>, trs: Trs): (r: seq<JointRecord>)
    ensures |r| == |ps|
  {
    if ps == [] then [] else JointRecords(ps[..|ps| - 1], trs) + [JointRecordOf(ps[|ps| - 1], trs)]
  }

  lemma {:induction false} JointRecordsAt(ps: seq<Placed>, trs: Trs, k: nat)
    requires k < |ps|
    ensures JointRecords(ps, trs)[k] == JointRecordOf(ps[k], trs)
  {
    if k < |ps| - 1 {
      JointRecordsAt(ps[..|ps| - 1], trs, k);
    }
  }

  /** What a volume face becomes: the first mNumVertices positions, normals
      and texture coordinates, tangents and weights only when present, and the
      first mNumIndices indices. */
  function FaceOf(vf: VolumeFace): Face
    requires FaceReadable(vf)
  {
    Face(
      Mapped(Vec3OfVector4a, vf.positions[..vf.numVertices]),
      Mapped(Vec3OfVector4a, vf.normals[..vf.numVertices]),
      if vf.tangents.Some? then Mapped(Vec3OfVector4a, vf.tangents.value[..vf.numVertices]) else [],
      Mapped(Vec2OfVector2, vf.texCoords[..vf.numVertices]),
      if vf.weights.Some? then Mapped(Vec4OfVector4a, vf.weights.value[..vf.numVertices]) else [],
      vf.indices[..vf.numIndices])
  }

  /** The arrays hold at least the counts the face advertises. */
  predicate FaceReadable(vf: VolumeFace) {
    && vf.numVertices <= |vf.positions|
    && vf.numVertices <= |vf.normals|
    && (vf.tangents.Some? ==> vf.numVertices <= |vf.tangents.value|)
    && vf.numVertices <= |vf.texCoords|
    && (vf.weights.Some? ==> vf.numVertices <= |vf.weights.value|)
    && vf.numIndices <= |vf.indices|
  }

  predicate FacesReadable(vfs: seq<VolumeFace>) {
    forall i | 0 <= i < |vfs| :: FaceReadable(vfs[i])
  }

  function FacesOf(vfs: seq<VolumeFace>): (r: seq<Face>)
    requires FacesReadable(vfs)
    ensures |r| == |vfs|
  {
    if vfs == [] then [] else FacesOf(vfs[..|vfs| - 1]) + [FaceOf(vfs[|vfs| - 1])]
  }

  /** An object entry's record: named after the entry, identified by the local
      id, parented by the parent's local id or 0, with the bind-shape flag
      exactly for rigged meshes. */
  function ObjectRecordOf(e: Entry): ObjectRecord
    requires FacesReadable(e.obj.volumeFaces)
  {
    ObjectRecord(
      Base(e.name, e.obj.localId, if e.obj.parentLocalId.Some? then e.obj.parentLocalId.value else 0, TrsOf(e.obj)),
      FacesOf(e.obj.volumeFaces),
      e.obj.isRiggedMesh,
      BindShapeOf(e.obj))
  }

  /** The skin's bind-shape matrix for a rigged mesh; otherwise the record
      keeps the matrix it was constructed with. */
  function BindShapeOf(o: SceneObject): Matrix16 {
    if o.isRiggedMesh then o.bindShapeMatrix else ZeroMatrix
  }

  /** What the exporter needs of an entry: a non-avatar object has a volume
      whose faces can be read. */
  predicate EntryReadable(e: Entry) {
    !e.obj.isAvatar ==> e.obj.hasVolume && FacesReadable(e.obj.volumeFaces)
  }

  predicate EntriesReadable(es: seq<Entry>) {
    forall i | 0 <= i < |es| :: EntryReadable(es[i])
  }

  /** The joint records an entry contributes: none unless it is an avatar
      whose encoding succeeds. */
  function EntryJoints(e: Entry): seq<JointRecord> {
    if e.obj.encodingThrows || !e.obj.isAvatar then []
    else JointRecords(Preorder(e.obj.rootJoint, None), TrsOf(e.obj))
  }

  /** The object records an entry contributes: one for a non-avatar whose
      encoding succeeds. */
  function EntryObjects(e: Entry): seq<ObjectRecord>
    requires EntryReadable(e)
  {
    if e.obj.encodingThrows || e.obj.isAvatar then [] else [ObjectRecordOf(e)]
  }

  function CollectJoints(es: seq<Entry>): seq<JointRecord> {
    if es == [] then [] else CollectJoints(es[..|es| - 1]) + EntryJoints(es[|es| - 1])
  }

  function CollectObjects(es: seq<Entry>): seq<ObjectRecord>
    requires EntriesReadable(es)
  {
    if es == [] then [] else CollectObjects(es[..|es| - 1]) + EntryObjects(es[|es| - 1])
  }

  function FailureCount(es: seq<Entry>): nat {
    if es == [] then 0 else FailureCount(es[..|es| - 1]) + (if es[|es| - 1].obj.encodingThrows then 1 else 0)
  }

  function BuildDocument(data: ExportData): Document
    requires EntriesReadable(data.objects)
  {
    Document(data.title, Collection(CollectObjects(data.objects), CollectJoints(data.objects)))
  }

  // ===========================================================================
  // HandleFilePicker

  /** What the file picker reports, and whether the file system lets the
      `std::fstream` open the chosen file for writing. */
  datatype Picker = Picker(cancelled: bool, filename: Option<string>, opens: bool)

  /** A notification raised with LLNotificationsUtil::add: its name and the
      REASON argument, when one is passed. */
  datatype Notice = Notice(name: string, reason: Option<string>)

  /** The notification raised and the file written, as (path, contents). */
  datatype Outcome = Outcome(notice: Notice, file: Option<(string, string)>)

  const CancelledNotice: string := "SLXPExportCancelled"
  const ErrorNotice: string := "SLXPExportError"
  const WarningNotice: string := "SLXPExportWarning"
  const SuccessNotice: string := "SLXPExportSuccessful"
  const NoFileNameReason: string := "no file name provided."
  const NoObjectsReason: string := "no objects selected for export."

  /** Builds one face from a volume face with the Copy helpers. */
  method BuildFace(vf: VolumeFace) returns (face: Face)
    requires FaceReadable(vf)
    ensures face == FaceOf(vf)
  {
    var n := vf.numVertices;
    var positions := AppendConverted(vf.positions, n, [], Vec3OfVector4a);
    AppendConvertedFromEmpty(vf.positions, n, positions, Vec3OfVector4a);
    var normals := AppendConverted(vf.normals, n, [], Vec3OfVector4a);
    AppendConvertedFromEmpty(vf.normals, n, normals, Vec3OfVector4a);
    var tangents: seq<Vec3> := [];
    if vf.tangents.Some? {
      tangents := AppendConverted(vf.tangents.value, n, [], Vec3OfVector4a);
      AppendConvertedFromEmpty(vf.tangents.value, n, tangents, Vec3OfVector4a);
    }
    var texCoords := AppendConverted(vf.texCoords, n, [], Vec2OfVector2);
    AppendConvertedFromEmpty(vf.texCoords, n, texCoords, Vec2OfVector2);
    var weights: seq<Vec4> := [];
    if vf.weights.Some? {
      weights := AppendConverted(vf.weights.value, n, [], Vec4OfVector4a);
      AppendConvertedFromEmpty(vf.weights.value, n, weights, Vec4OfVector4a);
    }
    var indices := AppendConverted(vf.indices, vf.numIndices, [], SameIndex);
    assert indices == vf.indices[..vf.numIndices];
    face := Face(positions, normals, tangents, texCoords, weights, indices);
  }

  /** Builds the object record of a non-avatar entry on an SlxpObject. */
  method BuildObject(e: Entry) returns (rec: ObjectRecord)
    requires FacesReadable(e.obj.volumeFaces)
    ensures rec == ObjectRecordOf(e)
  {
    var o := e.obj;
    var obj := new SlxpObject(e.name, o.localId);
    if o.parentLocalId.Some? {
      obj.base := obj.base.(parentId := o.parentLocalId.value);
    }
    if o.isRiggedMesh {
      obj.SetBindShapeMatrix(o.bindShapeMatrix);
    }
    ghost var base := obj.base;
    for f := 0 to |o.volumeFaces|
      invariant obj.faces == FacesOf(o.volumeFaces[..f])
      invariant obj.base == base
      invariant obj.hasBindShapeMatrix == o.isRiggedMesh
      invariant obj.bindShapeMatrix == if o.isRiggedMesh then o.bindShapeMatrix else ZeroMatrix
    {
      var face := BuildFace(o.volumeFaces[f]);
      assert o.volumeFaces[..f + 1][..f] == o.volumeFaces[..f];
      obj.faces := obj.faces + [face];
    }
    TakeAll(o.volumeFaces);
    obj.base := obj.base.(trs := TrsOf(o));
    rec := obj.Record();
  }

  /** Builds one SLXPJoint: named and numbered after the joint, ParentId set
      only when the joint has a parent, the avatar object's transform copied. */
  method BuildJoint(p: Placed, o: SceneObject) returns (rec: JointRecord)
    ensures rec == JointRecordOf(p, TrsOf(o))
  {
    var base := NewBase(p.name, AsUnsigned(p.num));
    if p.parentNum.Some? {
      base := base.(parentId := AsUnsigned(p.parentNum.value));
    }
    base := base.(trs := TrsOf(o));
    rec := JointRecord(base);
  }

  /** Builds the joint records of an avatar entry: the skeleton in preorder,
      each joint with the avatar object's transform. */
  method BuildJoints(joints: seq<JointRecord>, o: SceneObject) returns (out: seq<JointRecord>)
    ensures out == joints + JointRecords(Preorder(o.rootJoint, None), TrsOf(o))
  {
    var placed := AddJointsPreorder([], o.rootJoint, None);
    assert placed == Preorder(o.rootJoint, None);
    out := joints;
    for k := 0 to |placed|
      invariant out == joints + JointRecords(placed[..k], TrsOf(o))
    {
      var rec := BuildJoint(placed[k], o);
      assert placed[..k + 1][..k] == placed[..k];
      AppendAssoc(joints, JointRecords(placed[..k], TrsOf(o)), [rec]);
      out := out + [rec];
    }
    TakeAll(placed);
  }

  /** The early checks run in order, each raising its notification and
      writing nothing; a failed entry raises a warning (without its REASON
      argument) and writes nothing; otherwise the document's JSON and a line
      end go to the chosen file when it opens, and success is reported
      whether or not it opened: the stream's state is never checked. */
  method HandleFilePicker(picker: Picker, data: ExportData, fmt: FloatFormat) returns (outcome: Outcome)
    requires EntriesReadable(data.objects)
    ensures picker.cancelled ==> outcome == Outcome(Notice(CancelledNotice, None), None)
    ensures !picker.cancelled && picker.filename.None? ==>
      outcome == Outcome(Notice(ErrorNotice, Some(NoFileNameReason)), None)
    ensures !picker.cancelled && picker.filename.Some? && data.objects == [] ==>
      outcome == Outcome(Notice(ErrorNotice, Some(NoObjectsReason)), None)
    ensures !picker.cancelled && picker.filename.Some? && data.objects != [] && FailureCount(data.objects) > 0 ==>
      outcome == Outcome(Notice(WarningNotice, None), None)
    ensures !picker.cancelled && picker.filename.Some? && data.objects != [] && FailureCount(data.objects) == 0 && picker.opens ==>
      outcome == Outcome(Notice(SuccessNotice, None),
        Some((picker.filename.value, DocumentJson(fmt, BuildDocument(data)) + "\n")))
    ensures !picker.cancelled && picker.filename.Some? && data.objects != [] && FailureCount(data.objects) == 0 && !picker.opens ==>
      outcome == Outcome(Notice(SuccessNotice, None), None)
    ensures outcome.file.Some? ==> picker.opens
  {
    if picker.cancelled {
      return Outcome(Notice(CancelledNotice, None), None);
    }
    if picker.filename.None? {
      return Outcome(Notice(ErrorNotice, Some(NoFileNameReason)), None);
    }
    if |data.objects| == 0 {
      return Outcome(Notice(ErrorNotice, Some(NoObjectsReason)), None);
    }
    var es := data.objects;
    var joints: seq<JointRecord> := [];
    var objects: seq<ObjectRecord> := [];
    var warnings := 0;
    for i := 0 to |es|
      invariant joints == CollectJoints(es[..i])
      invariant objects == CollectObjects(es[..i])
      invariant warnings == FailureCount(es[..i])
    {
      var e := es[i];
      assert es[..i + 1][..i] == es[..i];
      if e.obj.encodingThrows {
        warnings := warnings + 1;
      } else if e.obj.isAvatar {
        joints := BuildJoints(joints, e.obj);
      } else {
        var rec := BuildObject(e);
        objects := objects + [rec];
      }
    }
    TakeAll(es);
    if warnings > 0 {
      return Outcome(Notice(WarningNotice, None), None);
    }
    if !picker.opens {
      return Outcome(Notice(SuccessNotice, None), None);
    }
    var text := DocumentJson(fmt, Document(data.title, Collection(objects, joints))) + "\n";
    outcome := Outcome(Notice(SuccessNotice, None), Some((picker.filename.value, text)));
  }

  // ---------------------------------------------------------------------------
  // What the built document holds

  function AvatarJoints(e: Entry): nat {
    if e.obj.isAvatar && !e.obj.encodingThrows then JointCount(e.obj.rootJoint) else 0
  }

  /** The number of avatar joints the entries contribute. */
  function AvatarJointTotal(es: seq<Entry>): nat {
    if es == [] then 0
    else AvatarJointTotal(es[..|es| - 1]) + AvatarJoints(es[|es| - 1])
  }

  /** The number of entries that become object records. */
  function ObjectEntryTotal(es: seq<Entry>): nat {
    if es == [] then 0
    else ObjectEntryTotal(es[..|es| - 1]) + (if !es[|es| - 1].obj.isAvatar && !es[|es| - 1].obj.encodingThrows then 1 else 0)
  }

  /** The document holds one joint record per joint of every avatar's
      skeleton, and one object record per other entry. */
  lemma {:induction false} DocumentCounts(es: seq<Entry>)
    requires EntriesReadable(es)
    ensures |CollectJoints(es)| == AvatarJointTotal(es)
    ensures |CollectObjects(es)| == ObjectEntryTotal(es)
  {
    if es != [] {
      var e := es[|es| - 1];
      DocumentCounts(es[..|es| - 1]);
      if e.obj.isAvatar && !e.obj.encodingThrows {
        PreorderLength(e.obj.rootJoint, None);
      }
    }
  }

  /** An avatar's joint records: the root first with ParentId 0, each later
      joint after its parent, and all of them carrying the avatar object's
      transform rather than anything of the joint. */
  lemma AvatarJointRecords(e: Entry)
    requires e.obj.isAvatar && !e.obj.encodingThrows
    ensures |EntryJoints(e)| == JointCount(e.obj.rootJoint)
    ensures EntryJoints(e)[0].base.name == e.obj.rootJoint.name
    ensures EntryJoints(e)[0].base.id == AsUnsigned(e.obj.rootJoint.num)
    ensures EntryJoints(e)[0].base.parentId == 0
    ensures forall k | 0 <= k < |EntryJoints(e)| :: EntryJoints(e)[k].base.trs == TrsOf(e.obj)
  {
    var pre := Preorder(e.obj.rootJoint, None);
    PreorderLength(e.obj.rootJoint, None);
    PreorderParentsFirst(e.obj.rootJoint, None);
    JointRecordsAt(pre, TrsOf(e.obj), 0);
    forall k | 0 <= k < |pre|
      ensures EntryJoints(e)[k].base.trs == TrsOf(e.obj)
    {
      JointRecordsAt(pre, TrsOf(e.obj), k);
    }
  }

  /** One face record per volume face, in order, with nothing filtered. */
  lemma {:induction false} FacesOfAt(vfs: seq<VolumeFace>, k: nat)
    requires FacesReadable(vfs) && k < |vfs|
    ensures FacesOf(vfs)[k] == FaceOf(vfs[k])
  {
    if k < |vfs| - 1 {
      FacesOfAt(vfs[..|vfs| - 1], k);
    }
  }

  /** A face record has mNumVertices positions, normals and texture
      coordinates, mNumIndices indices, and tangents and weights only when
      the volume face has them. */
  lemma FaceCounts(vf: VolumeFace)
    requires FaceReadable(vf)
    ensures |FaceOf(vf).positions| == |FaceOf(vf).normals| == |FaceOf(vf).texCoords| == vf.numVertices
    ensures |FaceOf(vf).indices| == vf.numIndices
    ensures |FaceOf(vf).tangents| == (if vf.tangents.Some? then vf.numVertices else 0)
    ensures |FaceOf(vf).weights| == (if vf.weights.Some? then vf.numVertices else 0)
    ensures forall i | 0 <= i < vf.numIndices :: FaceOf(vf).indices[i] == vf.indices[i]
  {
  }

  /** An object record: its faces are the volume faces in order, its ParentId
      is the parent's local id or 0, and it carries a bind-shape matrix iff the
      object is a rigged mesh (then the skin's matrix). */
  lemma ObjectRecordFacts(e: Entry)
    requires FacesReadable(e.obj.volumeFaces)
    ensures |ObjectRecordOf(e).faces| == |e.obj.volumeFaces|
    ensures forall k | 0 <= k < |e.obj.volumeFaces| :: ObjectRecordOf(e).faces[k] == FaceOf(e.obj.volumeFaces[k])
    ensures ObjectRecordOf(e).base.parentId == if e.obj.parentLocalId.Some? then e.obj.parentLocalId.value else 0
    ensures ObjectRecordOf(e).hasBindShapeMatrix <==> e.obj.isRiggedMesh
    ensures e.obj.isRiggedMesh ==> ObjectRecordOf(e).bindShapeMatrix == e.obj.bindShapeMatrix
  {
    forall k | 0 <= k < |e.obj.volumeFaces|
      ensures ObjectRecordOf(e).faces[k] == FaceOf(e.obj.volumeFaces[k])
    {
      FacesOfAt(e.obj.volumeFaces, k);
    }
  }

  // ===========================================================================
  // Building the entry list

  /** A selection node: its name and its object. */
  datatype SelectionNode = SelectionNode(name: string, obj: SceneObject)

  function SelectedEntry(n: SelectionNode): seq<Entry> {
    if n.obj.hasVolume then [Entry(n.name, n.obj)] else []
  }

  /** The entries GetSelectionObjects adds: the nodes whose object has a volume. */
  function SelectedEntries(nodes: seq<SelectionNode>): seq<Entry> {
    if nodes == [] then []
    else SelectedEntries(nodes[..|nodes| - 1]) + SelectedEntry(nodes[|nodes| - 1])
  }

  method GetSelectionObjects(selection: seq<SelectionNode>, objects: seq<Entry>) returns (out: seq<Entry>)
    ensures out == objects + SelectedEntries(selection)
  {
    out := objects;
    for i := 0 to |selection|
      invariant out == objects + SelectedEntries(selection[..i])
    {
      var node := selection[i];
      assert selection[..i + 1][..i] == selection[..i];
      if node.obj.hasVolume {
        AppendAssoc(objects, SelectedEntries(selection[..i]), [Entry(node.name, node.obj)]);
        out := out + [Entry(node.name, node.obj)];
      } else {
        AppendNil(SelectedEntries(selection[..i]));
      }
    }
    TakeAll(selection);
  }

  /** Exactly the nodes with a volume are listed, under the node's name. */
  lemma {:induction false} SelectedEntriesExact(nodes: seq<SelectionNode>)
    ensures forall e | e in SelectedEntries(nodes) :: e.obj.hasVolume
    ensures forall i | 0 <= i < |nodes| && nodes[i].obj.hasVolume :: Entry(nodes[i].name, nodes[i].obj) in SelectedEntries(nodes)
  {
    if nodes != [] {
      SelectedEntriesExact(nodes[..|nodes| - 1]);
      forall i | 0 <= i < |nodes| - 1 && nodes[i].obj.hasVolume
        ensures Entry(nodes[i].name, nodes[i].obj) in SelectedEntries(nodes)
      {
        assert nodes[..|nodes| - 1][i] == nodes[i];
      }
    }
  }

  /** GetObjectName: the "Title" name-value, or "Object" without one. */
  function GetObjectName(o: SceneObject): string {
    if o.title.Some? then o.title.value else "Object"
  }

  function ChildEntry(c: Option<SceneObject>): seq<Entry> {
    if c.Some? && c.value.hasVolume then [Entry(GetObjectName(c.value), c.value)] else []
  }

  /** The kept children of one attachment: present and with a volume. */
  function ChildEntries(children: seq<Option<SceneObject>>): seq<Entry> {
    if children == [] then []
    else ChildEntries(children[..|children| - 1]) + ChildEntry(children[|children| - 1])
  }

  /** One attachment's block: nothing for a missing, volume-less or HUD
      attachment; otherwise the attachment, then its kept children. */
  function AttachmentBlock(a: Option<SceneObject>): seq<Entry> {
    if a.None? || !a.value.hasVolume || a.value.isHudAttachment then []
    else [Entry(GetObjectName(a.value), a.value)] + ChildEntries(a.value.children)
  }

  function AttachmentEntries(atts: seq<Option<SceneObject>>): seq<Entry> {
    if atts == [] then [] else AttachmentEntries(atts[..|atts| - 1]) + AttachmentBlock(atts[|atts| - 1])
  }

  /** getAvatarAttachments: each attachment's block appended, in order, after
      the entries already collected. */
  method GetAvatarAttachments(attachments: seq<Option<SceneObject>>, objects: seq<Entry>) returns (out: seq<Entry>)
    ensures out == objects + AttachmentEntries(attachments)
  {
    out := objects;
    for i := 0 to |attachments|
      invariant out == objects + AttachmentEntries(attachments[..i])
    {
      assert attachments[..i + 1][..i] == attachments[..i];
      out := AddAttachment(out, attachments[i]);
      AppendAssoc(objects, AttachmentEntries(attachments[..i]), AttachmentBlock(attachments[i]));
    }
    TakeAll(attachments);
  }

  /** One pass of getAvatarAttachments' outer loop: the attachment and then
      its kept children, or nothing. */
  method AddAttachment(before: seq<Entry>, a: Option<SceneObject>) returns (out: seq<Entry>)
    ensures out == before + AttachmentBlock(a)
  {
    out := before;
    if a.Some? && a.value.hasVolume && !a.value.isHudAttachment {
      var obj := a.value;
      out := out + [Entry(GetObjectName(obj), obj)];
      ghost var afterRoot := out;
      for k := 0 to |obj.children|
        invariant out == afterRoot + ChildEntries(obj.children[..k])
      {
        var child := obj.children[k];
        assert obj.children[..k + 1][..k] == obj.children[..k];
        if child.Some? && child.value.hasVolume {
          AppendAssoc(afterRoot, ChildEntries(obj.children[..k]), [Entry(GetObjectName(child.value), child.value)]);
          out := out + [Entry(GetObjectName(child.value), child.value)];
        } else {
          AppendNil(ChildEntries(obj.children[..k]));
        }
      }
      TakeAll(obj.children);
      AppendAssoc(before, [Entry(GetObjectName(obj), obj)], ChildEntries(obj.children));
    } else {
      AppendNil(before);
    }
  }

  lemma {:induction false} ChildEntriesHaveVolume(children: seq<Option<SceneObject>>)
    ensures forall e | e in ChildEntries(children) :: e.obj.hasVolume && e.name == GetObjectName(e.obj)
  {
    if children != [] {
      ChildEntriesHaveVolume(children[..|children| - 1]);
    }
  }

  /** Every listed entry has a volume and is named by GetObjectName; an
      attachment's block starts with the attachment, which is never a HUD
      attachment, and is followed by its kept children. */
  lemma {:induction false} AttachmentEntriesFacts(atts: seq<Option<SceneObject>>)
    ensures forall e | e in AttachmentEntries(atts) :: e.obj.hasVolume && e.name == GetObjectName(e.obj)
    ensures forall i | 0 <= i < |atts| && AttachmentBlock(atts[i]) != [] ::
      !atts[i].value.isHudAttachment && AttachmentBlock(atts[i])[0].obj == atts[i].value
  {
    if atts != [] {
      AttachmentEntriesFacts(atts[..|atts| - 1]);
      var a := atts[|atts| - 1];
      if a.Some? {
        ChildEntriesHaveVolume(a.value.children);
      }
      forall i | 0 <= i < |atts| - 1
        ensures atts[..|atts| - 1][i] == atts[i]
      {
      }
    }
  }
}
