/** DAESaver::MaterialInfo of `daeexport.h`: the three texture ids and the
    colour a face is drawn with, plus the material's generated name. */
module DaeMaterial {
  import opened Numeric

  /** An LLColor4; its `==` compares the four components as floats. */
  datatype Color4 = Color4(r: Float, g: Float, b: Float, a: Float)

  predicate ColorEq(x: Color4, y: Color4) {
    FloatEq(x.r, y.r) && FloatEq(x.g, y.g) && FloatEq(x.b, y.b) && FloatEq(x.a, y.a)
  }

  /** A colour equals itself exactly when none of its components is NaN. */
  lemma ColorEqReflexive(c: Color4)
    ensures ColorEq(c, c) <==> !c.r.IsNaN() && !c.g.IsNaN() && !c.b.IsNaN() && !c.a.IsNaN()
  {
    FloatEqReflexive(c.r);
    FloatEqReflexive(c.g);
    FloatEqReflexive(c.b);
    FloatEqReflexive(c.a);
  }

  /** A face's LLMaterial: its normal-map and specular-map ids. */
  datatype MaterialParams = MaterialParams(normalId: Uuid, specularId: Uuid)

  /** An LLTextureEntry as far as the exporter reads it: the colour texture
      id, the colour, and the material parameters when the face has them. */
  datatype TextureEntry = TextureEntry(id: Uuid, color: Color4, material: Option<MaterialParams>)

  datatype MaterialInfo = MaterialInfo(
    colorId: Uuid,
    normalId: Uuid,
    specularId: Uuid,
    color: Color4,
    name: string)

  /** `matches(te)`: the colour id and the colour always; the normal and
      specular ids only when the entry has material parameters. */
  predicate Matches(m: MaterialInfo, te: TextureEntry) {
    && m.colorId == te.id
    && (te.material.None? || m.normalId == te.material.value.normalId)
    && (te.material.None? || m.specularId == te.material.value.specularId)
    && ColorEq(m.color, te.color)
  }

  /** `operator==`: all five fields, the colour by float comparison. */
  predicate Equal(x: MaterialInfo, y: MaterialInfo) {
    && x.colorId == y.colorId
    && x.normalId == y.normalId
    && x.specularId == y.specularId
    && ColorEq(x.color, y.color)
    && x.name == y.name
  }

  /** `operator!=`. */
  predicate NotEqual(x: MaterialInfo, y: MaterialInfo) {
    !Equal(x, y)
  }

  /** `==` is value equality except that a NaN colour component makes a
      material unequal to every material, itself included, and the two float
      zeros compare equal. */
  lemma EqualMeaning(x: MaterialInfo, y: MaterialInfo)
    ensures Equal(x, y) ==>
      (x.colorId == y.colorId && x.normalId == y.normalId && x.specularId == y.specularId && x.name == y.name)
    ensures Equal(x, y) ==> ColorEq(x.color, y.color)
    ensures !x.color.r.IsNaN() && !x.color.g.IsNaN() && !x.color.b.IsNaN() && !x.color.a.IsNaN() ==>
      (x == y ==> Equal(x, y))
    ensures x.color.r.IsNaN() || x.color.g.IsNaN() || x.color.b.IsNaN() || x.color.a.IsNaN() ==> !Equal(x, y)
    ensures y.color.r.IsNaN() || y.color.g.IsNaN() || y.color.b.IsNaN() || y.color.a.IsNaN() ==> !Equal(x, y)
  {
    ColorEqReflexive(x.color);
  }

  /** `matches` never reads the name: renaming a material does not change
      which entries it matches. */
  lemma MatchesIgnoresName(m: MaterialInfo, te: TextureEntry, name: string)
    ensures Matches(m.(name := name), te) <==> Matches(m, te)
  {
  }

  /** Without material parameters, `matches` ignores the normal and specular
      ids; with them, it requires both. */
  lemma MatchesMaterialIds(m: MaterialInfo, te: TextureEntry)
    ensures te.material.None? ==> (Matches(m, te) <==> m.colorId == te.id && ColorEq(m.color, te.color))
    ensures te.material.Some? ==>
      (Matches(m, te) <==>
        (m.colorId == te.id && ColorEq(m.color, te.color)
         && m.normalId == te.material.value.normalId && m.specularId == te.material.value.specularId))
  {
  }

  /** The copy constructor and the assignment operator: a field-by-field copy. */
  function Copy(rhs: MaterialInfo): (r: MaterialInfo)
    ensures r.colorId == rhs.colorId && r.normalId == rhs.normalId && r.specularId == rhs.specularId
    ensures r.color == rhs.color && r.name == rhs.name
  {
    MaterialInfo(rhs.colorId, rhs.normalId, rhs.specularId, rhs.color, rhs.name)
  }

  /** A copy compares equal to its original exactly when the colour compares
      equal to itself. */
  lemma CopyEqual(m: MaterialInfo)
    ensures Equal(Copy(m), m) <==> ColorEq(m.color, m.color)
  {
  }

  /** The material getMaterial registers for an entry: the entry's colour id,
      its normal and specular ids when it has material parameters (null ids
      otherwise), its colour, and the given name. */
  function MaterialOf(te: TextureEntry, name: string): (r: MaterialInfo)
    ensures r.name == name
    ensures r.colorId == te.id && r.color == te.color
    ensures te.material.None? ==> r.normalId == NullUuid && r.specularId == NullUuid
    ensures te.material.Some? ==>
      r.normalId == te.material.value.normalId && r.specularId == te.material.value.specularId
  {
    MaterialInfo(
      te.id,
      if te.material.Some? then te.material.value.normalId else NullUuid,
      if te.material.Some? then te.material.value.specularId else NullUuid,
      te.color,
      name)
  }

  /** A registered material matches the entry it was made from iff that
      entry's colour has no NaN component. */
  lemma MaterialOfMatches(te: TextureEntry, name: string)
    ensures Matches(MaterialOf(te, name), te) <==> ColorEq(te.color, te.color)
  {
  }
}
