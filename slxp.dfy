/** The SLXP scene format of `slxp.h`: a closed set of records (vectors, the
    local transform, faces, objects, joints, the collection and the document),
    each with a JSON text form and a versioned binary form. */
module Slxp {
  import opened Numeric

  datatype Vec2 = Vec2(x: Float, y: Float)
  datatype Vec3 = Vec3(x: Float, y: Float, z: Float)
  datatype Vec4 = Vec4(x: Float, y: Float, z: Float, w: Float)

  /** Local position, rotation (a quaternion) and scale: WithTRS. */
  datatype Trs = Trs(localPosition: Vec3, localRotation: Vec4, localScale: Vec3)

  const ZeroVec3: Vec3 := Vec3(PositiveZero, PositiveZero, PositiveZero)
  const ZeroTrs: Trs := Trs(ZeroVec3, Vec4(PositiveZero, PositiveZero, PositiveZero, PositiveZero), ZeroVec3)

  datatype Face = Face(
    positions: seq<Vec3>,
    normals: seq<Vec3>,
    tangents: seq<Vec3>,
    texCoords: seq<Vec2>,
    weights: seq<Vec4>,
    indices: seq<uint16>)

  /** What every object and joint record carries: SLXPObjectBaseMixin. */
  datatype Base = Base(name: string, id: uint32, parentId: uint32, trs: Trs)

  const ZeroMatrix: seq<Float> := [
    PositiveZero, PositiveZero, PositiveZero, PositiveZero, PositiveZero, PositiveZero, PositiveZero, PositiveZero,
    PositiveZero, PositiveZero, PositiveZero, PositiveZero, PositiveZero, PositiveZero, PositiveZero, PositiveZero]

  /** A 4x4 float matrix, row after row. */
  type Matrix16 = m: seq<Float> | |m| == 16 witness ZeroMatrix

  /** The value of an SLXPObject, as a copy of it (in a vector) holds it. */
  datatype ObjectRecord = ObjectRecord(
    base: Base,
    faces: seq<Face>,
    hasBindShapeMatrix: bool,
    bindShapeMatrix: Matrix16)

  datatype JointRecord = JointRecord(base: Base)

  datatype Collection = Collection(objects: seq<ObjectRecord>, joints: seq<JointRecord>)

  datatype Document = Document(title: string, collection: Collection)

  /** The bytes 'S', 'L', 'X', 'P'. */
  const Magic: seq<byte> := [0x53, 0x4C, 0x58, 0x50]
  /** FormatVersionA, FormatVersionB, FormatVersionC. */
  const FormatVersion: seq<byte> := [0, 0, 1]

  /** A record with the constructor's defaults: ParentId 0 unless given. */
  function NewBase(name: string, id: uint32, parentId: uint32 := 0): (b: Base)
    ensures b.name == name && b.id == id && b.parentId == parentId
  {
    Base(name, id, parentId, ZeroTrs)
  }

  // ===========================================================================
  // JSON text

  /** How `operator<<` renders a float at the stream's default precision. It is
      a parameter of every JSON function: the model does not fix a formatting. */
  type FloatFormat = Float -> string

  /** vectorToJSON: "[", each element's text joined by ",", "]". */
  function ListJson<T>(render: T -> string, xs: seq<T>): (r: string)
    ensures xs == [] ==> r == "[]"
    ensures |r| >= 2 && r[0] == '[' && r[|r| - 1] == ']'
  {
    Bracket(Mapped(render, xs))
  }

  function Vec2Json(fmt: FloatFormat, v: Vec2): string {
    Bracket([fmt(Sanitize(v.x)), fmt(Sanitize(v.y))])
  }

  function Vec3Json(fmt: FloatFormat, v: Vec3): string {
    Bracket([fmt(Sanitize(v.x)), fmt(Sanitize(v.y)), fmt(Sanitize(v.z))])
  }

  function Vec4Json(fmt: FloatFormat, v: Vec4): string {
    Bracket([fmt(Sanitize(v.x)), fmt(Sanitize(v.y)), fmt(Sanitize(v.z)), fmt(Sanitize(v.w))])
  }

  function TrsJson(fmt: FloatFormat, t: Trs): string {
    "\"LocalPosition\": " + Vec3Json(fmt, t.localPosition) + ",\n"
    + "\"LocalRotation\": " + Vec4Json(fmt, t.localRotation) + ",\n"
    + "\"LocalScale\": " + Vec3Json(fmt, t.localScale)
  }

  function IndexText(i: uint16): string {
    NatToString(i)
  }

  /** The Indices_list_t overload of vectorToJSON: unsigned shorts in decimal. */
  function IndicesJson(xs: seq<uint16>): string {
    ListJson(IndexText, xs)
  }

  function FaceJson(fmt: FloatFormat, f: Face): string {
    "{\n"
    + "\"Positions\": " + ListJson(v => Vec3Json(fmt, v), f.positions) + ",\n"
    + "\"Normals\": " + ListJson(v => Vec3Json(fmt, v), f.normals) + ",\n"
    + "\"Tangents\": " + ListJson(v => Vec3Json(fmt, v), f.tangents) + ",\n"
    + "\"TexCoords\": " + ListJson(v => Vec2Json(fmt, v), f.texCoords) + ",\n"
    + "\"Weights\": " + ListJson(v => Vec4Json(fmt, v), f.weights) + ",\n"
    + "\"Indices\": " + IndicesJson(f.indices) + "\n"
    + "}"
  }

  /** Name goes between quotes exactly as it is: nothing is escaped. */
  function BaseJson(fmt: FloatFormat, b: Base): string {
    "\"Name\": \"" + b.name + "\",\n"
    + "\"Id\": " + NatToString(b.id) + ",\n"
    + "\"ParentId\": " + NatToString(b.parentId) + ",\n"
    + TrsJson(fmt, b.trs)
  }

  /** The rows of arrayToJSON(values, len0, len1): `len0` rows of `len1`
      floats each, taken from the front of `values`. The floats are written as
      they are, without Sanitize. */
  function GridRows(fmt: FloatFormat, values: seq<Float>, len0: nat, len1: nat): (rows: seq<string>)
    requires len0 * len1 <= |values|
    ensures |rows| == len0
    decreases len0
  {
    if len0 == 0 then []
    else
      NextRowFits(len0, len1, |values|);
      [ListJson(fmt, values[..len1])] + GridRows(fmt, values[len1..], len0 - 1, len1)
  }

  lemma NextRowFits(len0: nat, len1: nat, n: nat)
    requires 0 < len0 && len0 * len1 <= n
    ensures len1 <= n && (len0 - 1) * len1 <= n - len1
  {
    assert len0 * len1 == (len0 - 1) * len1 + len1;
  }

  lemma GridRowsFirst(fmt: FloatFormat, values: seq<Float>, start: nat, n: nat, len1: nat)
    requires 0 < n && start <= |values| && n * len1 <= |values| - start
    ensures len1 <= |values| - start && (n - 1) * len1 <= |values| - start - len1
    ensures GridRows(fmt, values[start..], n, len1)
         == [ListJson(fmt, values[start..][..len1])] + GridRows(fmt, values[start + len1..], n - 1, len1)
  {
    NextRowFits(n, len1, |values| - start);
    assert values[start..][len1..] == values[start + len1..];
  }

  function GridJson(fmt: FloatFormat, values: seq<Float>, len0: nat, len1: nat): string
    requires len0 * len1 <= |values|
  {
    Bracket(GridRows(fmt, values, len0, len1))
  }

  function MatrixJson(fmt: FloatFormat, m: Matrix16): string {
    GridJson(fmt, m, 4, 4)
  }

  function ObjectJsonHead(fmt: FloatFormat, o: ObjectRecord): string {
    "{\n" + BaseJson(fmt, o.base) + ",\n"
  }

  function BindShapeEntry(fmt: FloatFormat, m: Matrix16): string {
    "\"BindShapeMatrix\": " + MatrixJson(fmt, m) + ",\n"
  }

  function ObjectJsonTail(fmt: FloatFormat, o: ObjectRecord): string {
    "\"Faces\": " + ListJson(f => FaceJson(fmt, f), o.faces) + "\n" + "}"
  }

  function ObjectJson(fmt: FloatFormat, o: ObjectRecord): string {
    ObjectJsonHead(fmt, o)
    + (if o.hasBindShapeMatrix then BindShapeEntry(fmt, o.bindShapeMatrix) else "")
    + ObjectJsonTail(fmt, o)
  }

  function JointJson(fmt: FloatFormat, j: JointRecord): string {
    "{\n" + BaseJson(fmt, j.base) + "\n" + "}"
  }

  /** Both keys, Objects then Joints. */
  function CollectionJson(fmt: FloatFormat, c: Collection): string {
    "{\n"
    + "\"Objects\": " + ListJson(o => ObjectJson(fmt, o), c.objects) + ",\n"
    + "\"Joints\": " + ListJson(j => JointJson(fmt, j), c.joints) + "\n"
    + "}"
  }

  function DocumentJson(fmt: FloatFormat, d: Document): string {
    "{\n"
    + "\"Title\": \"" + d.title + "\", \n"
    + "\"Collection\": " + CollectionJson(fmt, d.collection) + "\n"
    + "}"
  }

  // ---------------------------------------------------------------------------
  // The JSON builders that loop, as the source writes them

  /** The text of a list being written: the opening bracket, the elements
      so far and, once there is one, the comma that precedes the next. */
  function Partial(done: seq<string>, more: bool): string {
    "[" + Join(done) + (if done != [] && more then "," else "")
  }

  lemma PartialStep(done: seq<string>, text: string, more: bool)
    ensures Partial(done, true) + text + (if more then "," else "") == Partial(done + [text], more)
  {
    JoinSnoc(done, text);
  }

  /** The generic vectorToJSON: each element's text, a comma after every element
      but the last, all in brackets. */
  method VectorToJson<T>(render: T -> string, values: seq<T>) returns (s: string)
    ensures s == ListJson(render, values)
  {
    s := "[";
    var i := 0;
    while i < |values|
      invariant 0 <= i <= |values|
      invariant s == Partial(Mapped(render, values[..i]), i < |values|)
    {
      ghost var done := Mapped(render, values[..i]);
      var text := render(values[i]);
      assert Mapped(render, values[..i + 1]) == done + [text];
      PartialStep(done, text, i + 1 < |values|);
      s := s + text;
      if i != |values| - 1 {
        s := s + ",";
      }
      i := i + 1;
    }
    TakeAll(values);
    s := s + "]";
  }

  /** The Indices_list_t overload of vectorToJSON. */
  method IndicesToJson(values: seq<uint16>) returns (s: string)
    ensures s == IndicesJson(values)
  {
    s := VectorToJson(IndexText, values);
  }

  /** arrayToJSON(values, len): the first `len` floats, unsanitized. */
  method ArrayToJson(fmt: FloatFormat, values: seq<Float>, len: nat) returns (s: string)
    requires len <= |values|
    ensures s == ListJson(fmt, values[..len])
  {
    s := VectorToJson(fmt, values[..len]);
  }

  /** The state of arrayToJSON(values, len0, len1) after i rows: `start`
      values consumed, the rows written so far, and the rows still to come. */
  ghost predicate GridState(fmt: FloatFormat, values: seq<Float>, len0: nat, len1: nat, i: nat, start: nat, s: string, done: seq<string>)
    requires len0 * len1 <= |values|
  {
    && i <= len0 && start <= |values|
    && (len0 - i) * len1 <= |values| - start
    && GridRows(fmt, values, len0, len1) == done + GridRows(fmt, values[start..], len0 - i, len1)
    && s == Partial(done, i < len0)
  }

  /** One row of arrayToJSON(values, len0, len1): the next `len1` values in
      brackets, then a comma unless it is the last row. */
  method GridRowStep(fmt: FloatFormat, values: seq<Float>, len0: nat, len1: nat, i: nat, start: nat, s: string, ghost done: seq<string>)
    returns (s': string, ghost done': seq<string>)
    requires len0 * len1 <= |values| && i < len0
    requires GridState(fmt, values, len0, len1, i, start, s, done)
    ensures start + len1 <= |values| && GridState(fmt, values, len0, len1, i + 1, start + len1, s', done')
    ensures |s'| > |s| && s'[..|s|] == s
  {
    GridRowsFirst(fmt, values, start, len0 - i, len1);
    var row := ArrayToJson(fmt, values[start..], len1);
    ghost var later := GridRows(fmt, values[start + len1..], len0 - i - 1, len1);
    AppendAssoc(done, [row], later);
    PartialStep(done, row, i + 1 < len0);
    s' := s + row;
    done' := done + [row];
    if i != len0 - 1 {
      s' := s' + ",";
    }
  }

  /** arrayToJSON(values, len0, len1): one bracketed row per `len1` values. */
  method Array2ToJson(fmt: FloatFormat, values: seq<Float>, len0: nat, len1: nat) returns (s: string)
    requires len0 * len1 <= |values|
    ensures s == GridJson(fmt, values, len0, len1)
  {
    ghost var done: seq<string> := [];
    s := "[";
    var i: nat, start: nat := 0, 0;
    while i < len0
      invariant GridState(fmt, values, len0, len1, i, start, s, done)
    {
      s, done := GridRowStep(fmt, values, len0, len1, i, start, s, done);
      i, start := i + 1, start + len1;
    }
    assert GridRows(fmt, values, len0, len1) == done;
    s := s + "]";
  }

  // ---------------------------------------------------------------------------
  // Properties of the JSON text

  /** Reads back a bracketed list of decimal numbers. */
  function ParseIndexList(s: string): Option<seq<int>> {
    if |s| < 2 || s[0] != '[' || s[|s| - 1] != ']' then None
    else
      var inner := s[1..|s| - 1];
      if inner == "" then Some([])
      else
        var parts := SplitCommas(inner);
        if forall k | 0 <= k < |parts| :: forall j | 0 <= j < |parts[k]| :: IsDigit(parts[k][j]) then
          Some(seq(|parts|, k requires 0 <= k < |parts| => ParseDecimal(parts[k]) as int))
        else None
  }

  /** The JSON text of an index list reads back as the same indices, in order. */
  lemma IndicesJsonRoundTrip(xs: seq<uint16>)
    ensures ParseIndexList(IndicesJson(xs)) == Some(xs)
  {
    var parts := Mapped(IndexText, xs);
    var s := IndicesJson(xs);
    assert s == "[" + Join(parts) + "]";
    assert s[1..|s| - 1] == Join(parts);
    if xs != [] {
      forall k | 0 <= k < |parts|
        ensures CommaFree(parts[k])
        ensures forall j | 0 <= j < |parts[k]| :: IsDigit(parts[k][j])
      {
        assert parts[k] == IndexText(xs[k]);
      }
      SplitJoin(parts);
      assert parts[0] == IndexText(xs[0]);
      JoinNonEmpty(parts);
      var r := seq(|parts|, k requires 0 <= k < |parts| => ParseDecimal(parts[k]) as int);
      forall k | 0 <= k < |parts|
        ensures r[k] == xs[k]
      {
        assert parts[k] == IndexText(xs[k]);
        ParseNatToString(xs[k]);
      }
      assert r == xs;
      assert ParseIndexList(s) == Some(r);
    }
  }

  lemma {:induction false} JoinNonEmpty(xs: seq<string>)
    requires |xs| > 0 && |xs[0]| > 0
    ensures Join(xs) != ""
  {
    if |xs| > 1 {
      JoinNonEmpty(xs[..|xs| - 1]);
    }
  }

  /** A list's text starts with its first element's text. */
  lemma {:induction false} JoinStartsWithFirst(xs: seq<string>)
    requires |xs| > 0
    ensures |Join(xs)| >= |xs[0]|
    ensures forall k | 0 <= k < |xs[0]| :: Join(xs)[k] == xs[0][k]
  {
    if |xs| > 1 {
      var init := xs[..|xs| - 1];
      JoinStartsWithFirst(init);
      assert init[0] == xs[0];
    }
  }

  /** Two float formats that print every finite float alike. */
  ghost predicate AgreeOnFinite(f1: FloatFormat, f2: FloatFormat) {
    forall x: Float :: x.IsFinite() ==> f1(x) == f2(x)
  }

  lemma TrsJsonFiniteOnly(f1: FloatFormat, f2: FloatFormat, t: Trs)
    requires AgreeOnFinite(f1, f2)
    ensures TrsJson(f1, t) == TrsJson(f2, t)
  {
  }

  lemma FaceJsonFiniteOnly(f1: FloatFormat, f2: FloatFormat, f: Face)
    requires AgreeOnFinite(f1, f2)
    ensures FaceJson(f1, f) == FaceJson(f2, f)
  {
    assert Mapped(v => Vec3Json(f1, v), f.positions) == Mapped(v => Vec3Json(f2, v), f.positions);
    assert Mapped(v => Vec3Json(f1, v), f.normals) == Mapped(v => Vec3Json(f2, v), f.normals);
    assert Mapped(v => Vec3Json(f1, v), f.tangents) == Mapped(v => Vec3Json(f2, v), f.tangents);
    assert Mapped(v => Vec2Json(f1, v), f.texCoords) == Mapped(v => Vec2Json(f2, v), f.texCoords);
    assert Mapped(v => Vec4Json(f1, v), f.weights) == Mapped(v => Vec4Json(f2, v), f.weights);
  }

  /** Only sanitized floats reach the formatter in an object's text, unless a
      bind-shape matrix with a non-finite entry is emitted: with every such
      entry finite (or the flag clear), two formats that agree on finite floats
      give the same text, so no NaN or infinity token can appear. */
  lemma ObjectJsonFiniteOnly(f1: FloatFormat, f2: FloatFormat, o: ObjectRecord)
    requires AgreeOnFinite(f1, f2)
    requires o.hasBindShapeMatrix ==> forall k | 0 <= k < 16 :: o.bindShapeMatrix[k].IsFinite()
    ensures ObjectJson(f1, o) == ObjectJson(f2, o)
  {
    TrsJsonFiniteOnly(f1, f2, o.base.trs);
    forall k | 0 <= k < |o.faces|
      ensures FaceJson(f1, o.faces[k]) == FaceJson(f2, o.faces[k])
    {
      FaceJsonFiniteOnly(f1, f2, o.faces[k]);
    }
    assert Mapped(f => FaceJson(f1, f), o.faces) == Mapped(f => FaceJson(f2, f), o.faces);
    if o.hasBindShapeMatrix {
      GridRowsFiniteOnly(f1, f2, o.bindShapeMatrix, 4, 4);
    }
  }

  lemma {:induction false} GridRowsFiniteOnly(f1: FloatFormat, f2: FloatFormat, values: seq<Float>, len0: nat, len1: nat)
    requires AgreeOnFinite(f1, f2)
    requires len0 * len1 <= |values|
    requires forall k | 0 <= k < |values| :: values[k].IsFinite()
    ensures GridRows(f1, values, len0, len1) == GridRows(f2, values, len0, len1)
    decreases len0
  {
    if len0 > 0 {
      NextRowFits(len0, len1, |values|);
      assert Mapped(f1, values[..len1]) == Mapped(f2, values[..len1]);
      GridRowsFiniteOnly(f1, f2, values[len1..], len0 - 1, len1);
    }
  }

  /** The document's text, likewise, never depends on how a non-finite float
      would print, as long as every emitted bind-shape matrix is finite. */
  lemma DocumentJsonFiniteOnly(f1: FloatFormat, f2: FloatFormat, d: Document)
    requires AgreeOnFinite(f1, f2)
    requires forall i | 0 <= i < |d.collection.objects| ::
      var o := d.collection.objects[i];
      o.hasBindShapeMatrix ==> forall k | 0 <= k < 16 :: o.bindShapeMatrix[k].IsFinite()
    ensures DocumentJson(f1, d) == DocumentJson(f2, d)
  {
    var c := d.collection;
    forall i | 0 <= i < |c.objects|
      ensures ObjectJson(f1, c.objects[i]) == ObjectJson(f2, c.objects[i])
    {
      ObjectJsonFiniteOnly(f1, f2, c.objects[i]);
    }
    assert Mapped(o => ObjectJson(f1, o), c.objects) == Mapped(o => ObjectJson(f2, o), c.objects);
    forall i | 0 <= i < |c.joints|
      ensures JointJson(f1, c.joints[i]) == JointJson(f2, c.joints[i])
    {
      TrsJsonFiniteOnly(f1, f2, c.joints[i].base.trs);
    }
    assert Mapped(j => JointJson(f1, j), c.joints) == Mapped(j => JointJson(f2, j), c.joints);
  }

  /** The bind-shape matrix, by contrast, is written without Sanitize: a NaN in
      it reaches the formatter, and two formats that agree on every finite
      float give different matrix text. */
  lemma BindShapeMatrixNotSanitized()
    ensures exists f1: FloatFormat, f2: FloatFormat, m: Matrix16 ::
      AgreeOnFinite(f1, f2) && MatrixJson(f1, m) != MatrixJson(f2, m)
  {
    var m: Matrix16 := seq(16, i => if i == 0 then Float(0x7FC0_0000) else PositiveZero);
    var f1: FloatFormat := (x: Float) => if x.IsFinite() then "0" else "nan";
    var f2: FloatFormat := (x: Float) => "0";
    assert !m[0].IsFinite();
    assert f1(m[0])[0] == 'n' && f2(m[0])[0] == '0';
    MatrixStartsWithFirst(f1, m);
    MatrixStartsWithFirst(f2, m);
    assert MatrixJson(f1, m)[2] != MatrixJson(f2, m)[2];
    assert AgreeOnFinite(f1, f2);
  }

  /** A matrix's text begins "[[" followed by the first entry's text. */
  lemma MatrixStartsWithFirst(fmt: FloatFormat, m: Matrix16)
    ensures |MatrixJson(fmt, m)| >= 2 + |fmt(m[0])|
    ensures MatrixJson(fmt, m)[..2] == "[["
    ensures forall k | 0 <= k < |fmt(m[0])| :: MatrixJson(fmt, m)[2 + k] == fmt(m[0])[k]
  {
    var rows := GridRows(fmt, m, 4, 4);
    var cells := Mapped(fmt, m[..4]);
    JoinStartsWithFirst(cells);
    assert cells[0] == fmt(m[0]);
    assert rows[0] == "[" + Join(cells) + "]";
    JoinStartsWithFirst(rows);
    var s := MatrixJson(fmt, m);
    assert s == "[" + Join(rows) + "]";
  }

  /** Setting the bind-shape flag inserts exactly one entry, "BindShapeMatrix"
      with the matrix rows, between the record fields and "Faces"; with the flag
      clear the matrix values do not show at all. */
  lemma BindShapeEntryInsertion(fmt: FloatFormat, o: ObjectRecord, m: Matrix16)
    ensures ObjectJson(fmt, o.(hasBindShapeMatrix := true, bindShapeMatrix := m))
         == ObjectJsonHead(fmt, o) + BindShapeEntry(fmt, m) + ObjectJsonTail(fmt, o)
    ensures ObjectJson(fmt, o.(hasBindShapeMatrix := false, bindShapeMatrix := m))
         == ObjectJsonHead(fmt, o) + ObjectJsonTail(fmt, o)
  {
    var flagged := o.(hasBindShapeMatrix := true, bindShapeMatrix := m);
    var cleared := o.(hasBindShapeMatrix := false, bindShapeMatrix := m);
    assert ObjectJsonHead(fmt, flagged) == ObjectJsonHead(fmt, o) == ObjectJsonHead(fmt, cleared);
    assert ObjectJsonTail(fmt, flagged) == ObjectJsonTail(fmt, o) == ObjectJsonTail(fmt, cleared);
    AppendEmpty(ObjectJsonHead(fmt, o), ObjectJsonTail(fmt, o));
  }

  // ===========================================================================
  // Binary form

  /** The in-memory image of an SLXPFace, which `unsafe_write` dumps as raw
      bytes: `size` is sizeof(SLXPFace) and `image` the bytes of one face. */
  datatype RawLayout = RawLayout(size: nat, image: Face -> seq<byte>)

  ghost predicate ValidLayout(layout: RawLayout) {
    forall f: Face :: |layout.image(f)| == layout.size
  }

  /** The elements' images back to back, first to last. */
  function Flatten<T>(image: T -> seq<byte>, xs: seq<T>): seq<byte> {
    if xs == [] then [] else image(xs[0]) + Flatten(image, xs[1..])
  }

  lemma {:induction false} FlattenSnoc<T>(image: T -> seq<byte>, xs: seq<T>, x: T)
    ensures Flatten(image, xs + [x]) == Flatten(image, xs) + image(x)
  {
    if xs != [] {
      assert (xs + [x])[1..] == xs[1..] + [x];
      FlattenSnoc(image, xs[1..], x);
    }
  }

  function CharImage(c: char): seq<byte> {
    [(c as int) % 0x100]
  }

  lemma {:induction false} FlattenChars(s: string)
    ensures Flatten(CharImage, s) == StringBytes(s)
  {
    if s != [] {
      FlattenChars(s[1..]);
      assert StringBytes(s) == CharImage(s[0]) + StringBytes(s[1..]);
    }
  }

  function Vec2Bytes(v: Vec2): seq<byte> {
    FloatBytes(v.x) + FloatBytes(v.y)
  }

  function Vec3Bytes(v: Vec3): seq<byte> {
    FloatBytes(v.x) + FloatBytes(v.y) + FloatBytes(v.z)
  }

  function Vec4Bytes(v: Vec4): seq<byte> {
    FloatBytes(v.x) + FloatBytes(v.y) + FloatBytes(v.z) + FloatBytes(v.w)
  }

  function TrsBytes(t: Trs): seq<byte> {
    Vec3Bytes(t.localPosition) + Vec4Bytes(t.localRotation) + Vec3Bytes(t.localScale)
  }

  /** A std::string: its length as a size_t, then its bytes. */
  function StringField(s: string): seq<byte> {
    SizeBytes(|s|) + StringBytes(s)
  }

  /** Name, then the transform; Id and ParentId are not written. */
  function BaseBytes(b: Base): seq<byte> {
    StringField(b.name) + TrsBytes(b.trs)
  }

  /** The base fields, then the face count and each face's raw image. */
  function ObjectBytes(o: ObjectRecord, layout: RawLayout): seq<byte> {
    BaseBytes(o.base) + SizeBytes(|o.faces|) + Flatten(layout.image, o.faces)
  }

  function JointBytes(j: JointRecord): seq<byte> {
    BaseBytes(j.base)
  }

  function ObjectEncoder(layout: RawLayout): ObjectRecord -> seq<byte> {
    o => ObjectBytes(o, layout)
  }

  function ObjectsBytes(objects: seq<ObjectRecord>, layout: RawLayout): seq<byte> {
    Flatten(ObjectEncoder(layout), objects)
  }

  /** Only the objects are written: joints have no binary form in a collection. */
  function CollectionBytes(c: Collection, layout: RawLayout): seq<byte> {
    SizeBytes(|c.objects|) + ObjectsBytes(c.objects, layout)
  }

  function DocumentBytes(d: Document, layout: RawLayout): seq<byte> {
    Magic + FormatVersion + StringField(d.title) + CollectionBytes(d.collection, layout)
  }

  /** The header: magic, version 0.0.1, then the title with its length. */
  lemma DocumentBytesHeader(d: Document, layout: RawLayout)
    ensures DocumentBytes(d, layout)[..7] == [0x53, 0x4C, 0x58, 0x50, 0, 0, 1]
    ensures DocumentBytes(d, layout)[7..15] == SizeBytes(|d.title|)
    ensures DocumentBytes(d, layout)[15..15 + |d.title|] == StringBytes(d.title)
  {
    var head, size, chars, rest := Magic + FormatVersion, SizeBytes(|d.title|), StringBytes(d.title), CollectionBytes(d.collection, layout);
    assert DocumentBytes(d, layout) == head + (size + chars) + rest;
    ThreeFields(head, size, chars, rest);
  }

  lemma ThreeFields(a: seq<byte>, b: seq<byte>, c: seq<byte>, rest: seq<byte>)
    ensures (a + (b + c) + rest)[..|a|] == a
    ensures (a + (b + c) + rest)[|a|..|a| + |b|] == b
    ensures (a + (b + c) + rest)[|a| + |b|..|a| + |b| + |c|] == c
  {
    var s := a + (b + c) + rest;
    assert s[..|a|] == a;
    assert s[|a|..|a| + |b|] == b;
    assert s[|a| + |b|..|a| + |b| + |c|] == c;
  }

  /** Ids and parent ids leave no trace in the binary form, nor do joints. */
  lemma BinaryIgnoresIdsAndJoints(d: Document, layout: RawLayout, joints: seq<JointRecord>)
    ensures DocumentBytes(d, layout) == DocumentBytes(d.(collection := d.collection.(joints := joints)), layout)
    ensures forall b: Base, id: uint32, parentId: uint32 ::
      BaseBytes(b) == BaseBytes(b.(id := id, parentId := parentId))
  {
  }

  // ---------------------------------------------------------------------------
  // Reading the binary form back

  /** What the binary form keeps of an object: the name, the transform and the
      raw face images. */
  datatype ObjectView = ObjectView(name: string, trs: Trs, faceImages: seq<seq<byte>>)

  datatype DocumentView = DocumentView(title: string, objects: seq<ObjectView>)

  function FaceImages(faces: seq<Face>, layout: RawLayout): seq<seq<byte>> {
    seq(|faces|, i requires 0 <= i < |faces| => layout.image(faces[i]))
  }

  function ObjectViewOf(o: ObjectRecord, layout: RawLayout): ObjectView {
    ObjectView(o.base.name, o.base.trs, FaceImages(o.faces, layout))
  }

  function ObjectViews(objects: seq<ObjectRecord>, layout: RawLayout): (views: seq<ObjectView>)
    ensures |views| == |objects|
    ensures forall i | 0 <= i < |objects| :: views[i] == ObjectViewOf(objects[i], layout)
  {
    if objects == [] then [] else [ObjectViewOf(objects[0], layout)] + ObjectViews(objects[1..], layout)
  }

  function ViewOf(d: Document, layout: RawLayout): DocumentView {
    DocumentView(d.title, ObjectViews(d.collection.objects, layout))
  }

  function ReadSize(bs: seq<byte>): Option<(nat, seq<byte>)> {
    if |bs| < 8 then None else Some((LeValue(bs[..8]), bs[8..]))
  }

  function ReadFloat(bs: seq<byte>): Option<(Float, seq<byte>)> {
    if |bs| < 4 then None
    else
      var v := LeValue(bs[..4]);
      assert Pow256(4) == 0x1_0000_0000;
      Some((Float(v), bs[4..]))
  }

  function ReadString(bs: seq<byte>): Option<(string, seq<byte>)> {
    var n :- ReadSize(bs);
    if |n.1| < n.0 then None else Some((BytesString(n.1[..n.0]), n.1[n.0..]))
  }

  function ReadVec3(bs: seq<byte>): Option<(Vec3, seq<byte>)> {
    var x :- ReadFloat(bs);
    var y :- ReadFloat(x.1);
    var z :- ReadFloat(y.1);
    Some((Vec3(x.0, y.0, z.0), z.1))
  }

  function ReadVec4(bs: seq<byte>): Option<(Vec4, seq<byte>)> {
    var x :- ReadFloat(bs);
    var y :- ReadFloat(x.1);
    var z :- ReadFloat(y.1);
    var w :- ReadFloat(z.1);
    Some((Vec4(x.0, y.0, z.0, w.0), w.1))
  }

  function ReadTrs(bs: seq<byte>): Option<(Trs, seq<byte>)> {
    var p :- ReadVec3(bs);
    var r :- ReadVec4(p.1);
    var s :- ReadVec3(r.1);
    Some((Trs(p.0, r.0, s.0), s.1))
  }

  function ReadChunks(count: nat, size: nat, bs: seq<byte>): Option<(seq<seq<byte>>, seq<byte>)> {
    if count == 0 then Some(([], bs))
    else if |bs| < size then None
    else
      var rest :- ReadChunks(count - 1, size, bs[size..]);
      Some(([bs[..size]] + rest.0, rest.1))
  }

  function ReadObject(size: nat, bs: seq<byte>): Option<(ObjectView, seq<byte>)> {
    var name :- ReadString(bs);
    var trs :- ReadTrs(name.1);
    var count :- ReadSize(trs.1);
    var faces :- ReadChunks(count.0, size, count.1);
    Some((ObjectView(name.0, trs.0, faces.0), faces.1))
  }

  function ReadObjects(count: nat, size: nat, bs: seq<byte>): Option<(seq<ObjectView>, seq<byte>)> {
    if count == 0 then Some(([], bs))
    else
      var first :- ReadObject(size, bs);
      var rest :- ReadObjects(count - 1, size, first.1);
      Some(([first.0] + rest.0, rest.1))
  }

  /** Parses a whole binary SLXP file given sizeof(SLXPFace). */
  function DecodeDocument(size: nat, bs: seq<byte>): Option<DocumentView> {
    if |bs| < 7 || bs[..7] != Magic + FormatVersion then None
    else
      var title :- ReadString(bs[7..]);
      var count :- ReadSize(title.1);
      var objects :- ReadObjects(count.0, size, count.1);
      if objects.1 != [] then None else Some(DocumentView(title.0, objects.0))
  }

  /** The lengths the binary form stores fit in a size_t, and every string is
      a byte string. */
  predicate ObjectFits(o: ObjectRecord) {
    IsByteString(o.base.name) && |o.base.name| < SizeModulus && |o.faces| < SizeModulus
  }

  predicate DocumentFits(d: Document) {
    && IsByteString(d.title) && |d.title| < SizeModulus
    && |d.collection.objects| < SizeModulus
    && forall i | 0 <= i < |d.collection.objects| :: ObjectFits(d.collection.objects[i])
  }

  lemma ReadSizeRoundTrip(n: nat, rest: seq<byte>)
    requires n < SizeModulus
    ensures ReadSize(SizeBytes(n) + rest) == Some((n, rest))
  {
    var bs := SizeBytes(n) + rest;
    assert bs[..8] == SizeBytes(n);
    SizeBytesRoundTrip(n);
  }

  lemma ReadFloatRoundTrip(f: Float, rest: seq<byte>)
    ensures ReadFloat(FloatBytes(f) + rest) == Some((f, rest))
  {
    var bs := FloatBytes(f) + rest;
    assert bs[..4] == FloatBytes(f);
    FloatBytesRoundTrip(f);
  }

  lemma ReadStringRoundTrip(s: string, rest: seq<byte>)
    requires IsByteString(s) && |s| < SizeModulus
    ensures ReadString(StringField(s) + rest) == Some((s, rest))
  {
    assert StringField(s) + rest == SizeBytes(|s|) + (StringBytes(s) + rest);
    ReadSizeRoundTrip(|s|, StringBytes(s) + rest);
    assert (StringBytes(s) + rest)[..|s|] == StringBytes(s);
    assert (StringBytes(s) + rest)[|s|..] == rest;
    StringBytesRoundTrip(s);
  }

  lemma ReadVec3RoundTrip(v: Vec3, rest: seq<byte>)
    ensures ReadVec3(Vec3Bytes(v) + rest) == Some((v, rest))
  {
    var afterY := FloatBytes(v.z) + rest;
    var afterX := FloatBytes(v.y) + afterY;
    assert Vec3Bytes(v) + rest == FloatBytes(v.x) + afterX;
    ReadFloatRoundTrip(v.x, afterX);
    ReadFloatRoundTrip(v.y, afterY);
    ReadFloatRoundTrip(v.z, rest);
  }

  lemma ReadVec4RoundTrip(v: Vec4, rest: seq<byte>)
    ensures ReadVec4(Vec4Bytes(v) + rest) == Some((v, rest))
  {
    var afterZ := FloatBytes(v.w) + rest;
    var afterY := FloatBytes(v.z) + afterZ;
    var afterX := FloatBytes(v.y) + afterY;
    assert Vec4Bytes(v) + rest == FloatBytes(v.x) + afterX;
    ReadFloatRoundTrip(v.x, afterX);
    ReadFloatRoundTrip(v.y, afterY);
    ReadFloatRoundTrip(v.z, afterZ);
    ReadFloatRoundTrip(v.w, rest);
  }

  lemma ReadTrsRoundTrip(t: Trs, rest: seq<byte>)
    ensures ReadTrs(TrsBytes(t) + rest) == Some((t, rest))
  {
    var p, r, s := t.localPosition, t.localRotation, t.localScale;
    assert TrsBytes(t) + rest == Vec3Bytes(p) + (Vec4Bytes(r) + (Vec3Bytes(s) + rest));
    ReadVec3RoundTrip(p, Vec4Bytes(r) + (Vec3Bytes(s) + rest));
    ReadVec4RoundTrip(r, Vec3Bytes(s) + rest);
    ReadVec3RoundTrip(s, rest);
  }

  lemma {:induction false} ReadChunksRoundTrip(faces: seq<Face>, layout: RawLayout, rest: seq<byte>)
    requires ValidLayout(layout)
    ensures ReadChunks(|faces|, layout.size, Flatten(layout.image, faces) + rest)
         == Some((FaceImages(faces, layout), rest))
  {
    if faces != [] {
      var first := layout.image(faces[0]);
      var tail := Flatten(layout.image, faces[1..]) + rest;
      assert Flatten(layout.image, faces) + rest == first + tail;
      assert (first + tail)[..layout.size] == first;
      assert (first + tail)[layout.size..] == tail;
      ReadChunksRoundTrip(faces[1..], layout, rest);
      assert FaceImages(faces, layout) == [first] + FaceImages(faces[1..], layout);
      assert |faces| - 1 == |faces[1..]|;
      assert ReadChunks(|faces|, layout.size, first + tail)
          == Some(([first] + FaceImages(faces[1..], layout), rest));
    } else {
      assert FaceImages(faces, layout) == [];
      assert Flatten(layout.image, faces) + rest == rest;
    }
  }

  lemma ReadObjectRoundTrip(o: ObjectRecord, layout: RawLayout, rest: seq<byte>)
    requires ValidLayout(layout) && ObjectFits(o)
    ensures ReadObject(layout.size, ObjectBytes(o, layout) + rest) == Some((ObjectViewOf(o, layout), rest))
  {
    var faces := Flatten(layout.image, o.faces) + rest;
    var afterTrs := SizeBytes(|o.faces|) + faces;
    assert ObjectBytes(o, layout) + rest == StringField(o.base.name) + (TrsBytes(o.base.trs) + afterTrs);
    ReadStringRoundTrip(o.base.name, TrsBytes(o.base.trs) + afterTrs);
    ReadTrsRoundTrip(o.base.trs, afterTrs);
    ReadSizeRoundTrip(|o.faces|, faces);
    ReadChunksRoundTrip(o.faces, layout, rest);
  }

  lemma {:induction false} ReadObjectsRoundTrip(objects: seq<ObjectRecord>, layout: RawLayout, rest: seq<byte>)
    requires ValidLayout(layout)
    requires forall i | 0 <= i < |objects| :: ObjectFits(objects[i])
    ensures ReadObjects(|objects|, layout.size, ObjectsBytes(objects, layout) + rest)
         == Some((ObjectViews(objects, layout), rest))
  {
    if objects != [] {
      var tail := ObjectsBytes(objects[1..], layout) + rest;
      assert ObjectsBytes(objects, layout) + rest == ObjectBytes(objects[0], layout) + tail;
      ReadObjectRoundTrip(objects[0], layout, tail);
      ReadObjectsRoundTrip(objects[1..], layout, rest);
      assert |objects| - 1 == |objects[1..]|;
    } else {
      assert ObjectsBytes(objects, layout) + rest == rest;
    }
  }

  /** Decoding the binary form gives back the title and, for every object in
      order, its name, transform and face images: everything the writer stores. */
  lemma DecodeDocumentRoundTrip(d: Document, layout: RawLayout)
    requires ValidLayout(layout) && DocumentFits(d)
    ensures DecodeDocument(layout.size, DocumentBytes(d, layout)) == Some(ViewOf(d, layout))
  {
    var objects := d.collection.objects;
    var header := Magic + FormatVersion;
    var body := ObjectsBytes(objects, layout);
    var tail := StringField(d.title) + (SizeBytes(|objects|) + body);
    AppendAssoc(header, StringField(d.title), SizeBytes(|objects|) + body);
    SplitAt(header, tail);
    ReadStringRoundTrip(d.title, SizeBytes(|objects|) + body);
    ReadSizeRoundTrip(|objects|, body);
    AppendNil(body);
    ReadObjectsRoundTrip(objects, layout, []);
  }

  // ---------------------------------------------------------------------------
  // The writers, as the source performs them on an output stream

  /** A binary output stream: everything written so far. */
  class OStream {
    var bytes: seq<byte>

    constructor ()
      ensures bytes == []
    {
      bytes := [];
    }

    /** ostream::write. */
    method Write(bs: seq<byte>)
      modifies this
      ensures bytes == old(bytes) + bs
    {
      bytes := bytes + bs;
    }
  }

  /** unsafe_write of one size_t. */
  method WriteSize(os: OStream, n: nat)
    modifies os
    ensures os.bytes == old(os.bytes) + SizeBytes(n)
  {
    os.Write(SizeBytes(n));
  }

  /** unsafe_write of one float. */
  method WriteFloat(os: OStream, f: Float)
    modifies os
    ensures os.bytes == old(os.bytes) + FloatBytes(f)
  {
    os.Write(FloatBytes(f));
  }

  /** unsafe_write(os, array, len): the length, then `len` raw elements. */
  method WriteArray<T>(os: OStream, values: seq<T>, len: nat, image: T -> seq<byte>)
    requires len <= |values|
    modifies os
    ensures os.bytes == old(os.bytes) + SizeBytes(len) + Flatten(image, values[..len])
  {
    WriteSize(os, len);
    ghost var header := os.bytes;
    for i := 0 to len
      invariant os.bytes == header + Flatten(image, values[..i])
    {
      ghost var done := Flatten(image, values[..i]);
      FlattenSnoc(image, values[..i], values[i]);
      TakeSnoc(values, i);
      os.Write(image(values[i]));
      AppendAssoc(header, done, image(values[i]));
    }
  }

  /** unsafe_write(os, array, len0, len1): both lengths, then `len0` rows of
      `len1` raw elements; the rows are laid out one after another in `values`. */
  method WriteArray2<T>(os: OStream, values: seq<T>, len0: nat, len1: nat, image: T -> seq<byte>)
    requires len0 * len1 <= |values|
    modifies os
    ensures os.bytes == old(os.bytes) + SizeBytes(len0) + SizeBytes(len1) + Flatten(image, values[..len0 * len1])
  {
    WriteSize(os, len0);
    WriteSize(os, len1);
    ghost var header := os.bytes;
    var k: nat, i: nat := 0, 0;
    while i < len0
      invariant i <= len0 && k == i * len1
      invariant (len0 - i) * len1 <= |values| - k
      invariant os.bytes == header + Flatten(image, values[..k])
    {
      NextRowFits(len0 - i, len1, |values| - k);
      WriteRow(os, values, k, len1, image, header);
      assert (i + 1) * len1 == i * len1 + len1;
      k, i := k + len1, i + 1;
    }
  }

  /** One row of unsafe_write's nested loop: the next `len1` elements. */
  method WriteRow<T>(os: OStream, values: seq<T>, start: nat, len1: nat, image: T -> seq<byte>, ghost header: seq<byte>)
    requires start + len1 <= |values|
    requires os.bytes == header + Flatten(image, values[..start])
    modifies os
    ensures os.bytes == header + Flatten(image, values[..start + len1])
  {
    for k := start to start + len1
      invariant os.bytes == header + Flatten(image, values[..k])
    {
      ghost var done := Flatten(image, values[..k]);
      FlattenSnoc(image, values[..k], values[k]);
      TakeSnoc(values, k);
      os.Write(image(values[k]));
      AppendAssoc(header, done, image(values[k]));
    }
  }

  /** unsafe_write of a std::string: its length, then its characters. */
  method WriteString(os: OStream, s: string)
    modifies os
    ensures os.bytes == old(os.bytes) + StringField(s)
  {
    WriteArray(os, s, |s|, CharImage);
    TakeAll(s);
    FlattenChars(s);
  }

  /** unsafe_write of a std::vector: its size, then each element's raw bytes. */
  method WriteVector<T>(os: OStream, values: seq<T>, image: T -> seq<byte>)
    modifies os
    ensures os.bytes == old(os.bytes) + SizeBytes(|values|) + Flatten(image, values)
  {
    WriteSize(os, |values|);
    ghost var header := os.bytes;
    for i := 0 to |values|
      invariant os.bytes == header + Flatten(image, values[..i])
    {
      ghost var done := Flatten(image, values[..i]);
      FlattenSnoc(image, values[..i], values[i]);
      TakeSnoc(values, i);
      os.Write(image(values[i]));
      AppendAssoc(header, done, image(values[i]));
    }
    TakeAll(values);
  }

  method SerializeVec3(os: OStream, v: Vec3)
    modifies os
    ensures os.bytes == old(os.bytes) + Vec3Bytes(v)
  {
    WriteFloat(os, v.x);
    WriteFloat(os, v.y);
    WriteFloat(os, v.z);
  }

  method SerializeVec4(os: OStream, v: Vec4)
    modifies os
    ensures os.bytes == old(os.bytes) + Vec4Bytes(v)
  {
    WriteFloat(os, v.x);
    WriteFloat(os, v.y);
    WriteFloat(os, v.z);
    WriteFloat(os, v.w);
  }

  method SerializeTrs(os: OStream, t: Trs)
    modifies os
    ensures os.bytes == old(os.bytes) + TrsBytes(t)
  {
    SerializeVec3(os, t.localPosition);
    SerializeVec4(os, t.localRotation);
    SerializeVec3(os, t.localScale);
  }

  /** SLXPObjectBaseMixin::serialize, also all of SLXPJoint::serialize. */
  method SerializeBase(os: OStream, b: Base)
    modifies os
    ensures os.bytes == old(os.bytes) + BaseBytes(b)
  {
    WriteString(os, b.name);
    SerializeTrs(os, b.trs);
  }

  /** SLXPObject::serialize: the base fields, then the faces as raw memory. */
  method SerializeObject(os: OStream, o: ObjectRecord, layout: RawLayout)
    modifies os
    ensures os.bytes == old(os.bytes) + ObjectBytes(o, layout)
  {
    SerializeBase(os, o.base);
    ghost var mid := os.bytes;
    WriteVector(os, o.faces, layout.image);
    AppendAssoc(old(os.bytes), BaseBytes(o.base), SizeBytes(|o.faces|));
    AppendAssoc(old(os.bytes), BaseBytes(o.base) + SizeBytes(|o.faces|), Flatten(layout.image, o.faces));
  }

  /** serialize_vector over the objects: the count, then each object. */
  method SerializeObjects(os: OStream, objects: seq<ObjectRecord>, layout: RawLayout)
    modifies os
    ensures os.bytes == old(os.bytes) + SizeBytes(|objects|) + ObjectsBytes(objects, layout)
  {
    WriteSize(os, |objects|);
    ghost var header := os.bytes;
    for i := 0 to |objects|
      invariant os.bytes == header + ObjectsBytes(objects[..i], layout)
    {
      ghost var done := ObjectsBytes(objects[..i], layout);
      SerializeObject(os, objects[i], layout);
      FlattenSnoc(ObjectEncoder(layout), objects[..i], objects[i]);
      TakeSnoc(objects, i);
      AppendAssoc(header, done, ObjectBytes(objects[i], layout));
    }
    TakeAll(objects);
  }

  /** SLXPCollection::serialize writes the objects and nothing else. */
  method SerializeCollection(os: OStream, c: Collection, layout: RawLayout)
    modifies os
    ensures os.bytes == old(os.bytes) + CollectionBytes(c, layout)
  {
    SerializeObjects(os, c.objects, layout);
  }

  /** SLXP::serialize: magic, version, title, collection. */
  method SerializeDocument(os: OStream, d: Document, layout: RawLayout)
    modifies os
    ensures os.bytes == old(os.bytes) + DocumentBytes(d, layout)
  {
    os.Write(CharImage('S'));
    os.Write(CharImage('L'));
    os.Write(CharImage('X'));
    os.Write(CharImage('P'));
    os.Write([0]);
    os.Write([0]);
    os.Write([1]);
    assert os.bytes == old(os.bytes) + (Magic + FormatVersion);
    ghost var afterMagic := os.bytes;
    WriteString(os, d.title);
    ghost var header := os.bytes;
    SerializeCollection(os, d.collection, layout);
    AppendAssoc(old(os.bytes), Magic + FormatVersion, StringField(d.title));
    AppendAssoc(old(os.bytes), Magic + FormatVersion + StringField(d.title), CollectionBytes(d.collection, layout));
  }

  // ===========================================================================
  // SLXPObject while it is being filled in

  /** An SLXPObject under construction: the exporter updates its fields in
      place; `Record()` is the value a copy of it holds. */
  class SlxpObject {
    var base: Base
    var faces: seq<Face>
    var hasBindShapeMatrix: bool
    var bindShapeMatrix: Matrix16

    /** The transform starts at zero here, where C++ leaves it uninitialised
        until the exporter assigns it; the bind-shape matrix starts zeroed and
        unflagged. */
    constructor (name: string, id: uint32, parentId: uint32 := 0)
      ensures base.name == name && base.id == id && base.parentId == parentId
      ensures faces == [] && !hasBindShapeMatrix && bindShapeMatrix == ZeroMatrix
    {
      base := NewBase(name, id, parentId);
      faces := [];
      hasBindShapeMatrix := false;
      bindShapeMatrix := ZeroMatrix;
    }

    /** Copies all sixteen values and raises the flag. */
    method SetBindShapeMatrix(m: Matrix16)
      modifies this
      ensures bindShapeMatrix == m && hasBindShapeMatrix
      ensures base == old(base) && faces == old(faces)
    {
      bindShapeMatrix := m;
      hasBindShapeMatrix := true;
    }

    /** Lowers the flag only; the values stay. */
    method UnsetBindShapeMatrix()
      modifies this
      ensures !hasBindShapeMatrix
      ensures bindShapeMatrix == old(bindShapeMatrix) && base == old(base) && faces == old(faces)
    {
      hasBindShapeMatrix := false;
    }

    function HasBindShapeMatrix(): bool
      reads this
    {
      hasBindShapeMatrix
    }

    function Record(): ObjectRecord
      reads this
    {
      ObjectRecord(base, faces, hasBindShapeMatrix, bindShapeMatrix)
    }
  }
}
