/** The `<source>` elements of the Collada exporter (`daeexport.cpp`): a
    float or name array and the `<accessor>` that reads it in groups, as in
    section 5 of the COLLADA 1.4.1 specification. The DOM is modelled as
    records; each builder returns the element it adds. */
module DaeSources {
  import opened Numeric
  import opened Slxp

  /** An accessor `<param>`: its name and type attributes. */
  datatype Param = Param(name: string, kind: string)

  /** A `<source>`: its id, the array element (tag, id, count and values) and
      the accessor (source reference, count, stride when set, params). */
  datatype Source = Source(
    id: string,
    arrayTag: string,
    arrayId: string,
    arrayCount: nat,
    floats: seq<Float>,
    names: seq<string>,
    accessorSource: string,
    accessorCount: nat,
    stride: Option<nat>,
    params: seq<Param>)

  function ArrayId(srcId: string): string {
    srcId + "-array"
  }

  /** Each character of `params` names one float parameter. */
  function FloatParams(params: string): (r: seq<Param>)
    ensures |r| == |params|
  {
    if params == [] then [] else FloatParams(params[..|params| - 1]) + [Param([params[|params| - 1]], "float")]
  }

  /** addSourceParams: the values in a float array, read by an accessor whose
      stride is the number of parameter letters and whose count is the number
      of whole groups. */
  method AddSourceParams(srcId: string, params: string, vals: seq<Float>) returns (src: Source)
    requires |params| > 0
    ensures src.id == srcId && src.arrayTag == "float_array" && src.arrayId == ArrayId(srcId)
    ensures src.arrayCount == |vals| && src.floats == vals && src.names == []
    ensures src.accessorSource == "#" + ArrayId(srcId)
    ensures src.accessorCount == |vals| / |params| && src.stride == Some(|params|)
    ensures src.params == FloatParams(params)
  {
    var values: seq<Float> := [];
    for k := 0 to |vals|
      invariant values == vals[..k]
    {
      values := values + [vals[k]];
    }
    var ps: seq<Param> := [];
    for k := 0 to |params|
      invariant ps == FloatParams(params[..k])
    {
      assert params[..k + 1][..k] == params[..k];
      ps := ps + [Param([params[k]], "float")];
    }
    assert params[..|params|] == params;
    src := Source(srcId, "float_array", ArrayId(srcId), |vals|, values, [],
      "#" + ArrayId(srcId), |vals| / |params|, Some(|params|), ps);
  }

  /** The accessor of addSourceParams reads the whole array exactly when the
      value count is a multiple of the group size; otherwise the trailing
      partial group is not read. */
  lemma AccessorCoversArray(params: string, vals: seq<Float>)
    requires |params| > 0
    ensures (|vals| / |params|) * |params| <= |vals|
    ensures (|vals| / |params|) * |params| == |vals| <==> |vals| % |params| == 0
    ensures |vals| - (|vals| / |params|) * |params| < |params|
  {
  }

  /** addSource for floats: one accessor entry per value, a single float
      parameter, no stride set. */
  method AddSourceFloats(srcId: string, paramName: string, vals: seq<Float>) returns (src: Source)
    ensures src.id == srcId && src.arrayTag == "float_array" && src.arrayId == ArrayId(srcId)
    ensures src.arrayCount == |vals| && src.floats == vals && src.names == []
    ensures src.accessorSource == "#" + ArrayId(srcId)
    ensures src.accessorCount == |vals| && src.stride.None?
    ensures src.params == [Param(paramName, "float")]
  {
    var values: seq<Float> := [];
    for i := 0 to |vals|
      invariant values == vals[..i]
    {
      values := values + [vals[i]];
    }
    src := Source(srcId, "float_array", ArrayId(srcId), |vals|, values, [],
      "#" + ArrayId(srcId), |vals|, None, [Param(paramName, "float")]);
  }

  /** addSource for names: a Name_array with one accessor entry per name. */
  method AddSourceNames(srcId: string, paramName: string, vals: seq<string>) returns (src: Source)
    ensures src.id == srcId && src.arrayTag == "Name_array" && src.arrayId == ArrayId(srcId)
    ensures src.arrayCount == |vals| && src.names == vals && src.floats == []
    ensures src.accessorSource == "#" + ArrayId(srcId)
    ensures src.accessorCount == |vals| && src.stride.None?
    ensures src.params == [Param(paramName, "name")]
  {
    var names: seq<string> := [];
    for i := 0 to |vals|
      invariant names == vals[..i]
    {
      names := names + [vals[i]];
    }
    src := Source(srcId, "Name_array", ArrayId(srcId), |vals|, [], names,
      "#" + ArrayId(srcId), |vals|, None, [Param(paramName, "name")]);
  }

  // ---------------------------------------------------------------------------
  // Matrices

  /** An LLMatrix4 is held row after row: entry (r, c) is m[4 * r + c]. */
  function Entry(m: Matrix16, r: nat, c: nat): Float
    requires r < 4 && c < 4
  {
    m[4 * r + c]
  }

  /** The sixteen values `append` writes: value i is mMatrix[i % 4][i / 4]. */
  function ColumnMajor(m: Matrix16): (r: Matrix16) {
    seq(16, i requires 0 <= i < 16 => m[(i % 4) * 4 + i / 4])
  }

  /** `append`: pushes the matrix's values column after column. */
  method AppendMatrix(arr: seq<Float>, m: Matrix16) returns (out: seq<Float>)
    ensures out == arr + ColumnMajor(m)
  {
    out := arr;
    for i := 0 to 16
      invariant out == arr + ColumnMajor(m)[..i]
    {
      out := out + [m[(i % 4) * 4 + i / 4]];
      TakeSnoc(ColumnMajor(m), i);
      AppendAssoc(arr, ColumnMajor(m)[..i], [ColumnMajor(m)[i]]);
    }
    TakeAll(ColumnMajor(m));
  }

  /** The written values are the transpose: position 4c + r holds entry (r, c),
      so a Collada reader taking them row after row gets the matrix back
      transposed, and writing twice restores the original. */
  lemma ColumnMajorIsTranspose(m: Matrix16)
    ensures forall r, c | 0 <= r < 4 && 0 <= c < 4 :: ColumnMajor(m)[4 * c + r] == Entry(m, r, c)
    ensures ColumnMajor(ColumnMajor(m)) == m
  {
    forall r, c | 0 <= r < 4 && 0 <= c < 4
      ensures ColumnMajor(m)[4 * c + r] == Entry(m, r, c)
    {
      var i := 4 * c + r;
      assert i % 4 == r && i / 4 == c;
    }
    forall i | 0 <= i < 16
      ensures ColumnMajor(ColumnMajor(m))[i] == m[i]
    {
      var j := (i % 4) * 4 + i / 4;
      assert j % 4 == i / 4 && j / 4 == i % 4;
    }
  }

  /** The values of several matrices, each column after column, in order. */
  function ColumnMajorAll(ms: seq<Matrix16>): (r: seq<Float>)
    ensures |r| == 16 * |ms|
  {
    if ms == [] then [] else ColumnMajorAll(ms[..|ms| - 1]) + ColumnMajor(ms[|ms| - 1])
  }

  lemma {:induction false} ColumnMajorAllAt(ms: seq<Matrix16>, k: nat, i: nat)
    requires k < |ms| && i < 16
    ensures ColumnMajorAll(ms)[16 * k + i] == ColumnMajor(ms[k])[i]
  {
    if k < |ms| - 1 {
      ColumnMajorAllAt(ms[..|ms| - 1], k, i);
    }
  }

  /** addSource for matrices: 16 values per matrix, one accessor entry of
      stride 16 per matrix, a float4x4 parameter. */
  method AddSourceMatrices(srcId: string, paramName: string, vals: seq<Matrix16>) returns (src: Source)
    ensures src.id == srcId && src.arrayTag == "float_array" && src.arrayId == ArrayId(srcId)
    ensures src.arrayCount == 16 * |vals| && src.floats == ColumnMajorAll(vals) && src.names == []
    ensures src.accessorSource == "#" + ArrayId(srcId)
    ensures src.accessorCount == |vals| && src.stride == Some(16)
    ensures src.params == [Param(paramName, "float4x4")]
  {
    var values: seq<Float> := [];
    for k := 0 to |vals|
      invariant values == ColumnMajorAll(vals[..k])
    {
      values := AppendMatrix(values, vals[k]);
      assert vals[..k + 1][..k] == vals[..k];
    }
    TakeAll(vals);
    src := Source(srcId, "float_array", ArrayId(srcId), 16 * |vals|, values, [],
      "#" + ArrayId(srcId), |vals|, Some(16), [Param(paramName, "float4x4")]);
  }

  /** In a matrix source, matrix k's entry (r, c) sits at 16k + 4c + r: the
      array count is stride times accessor count, and each accessor entry is
      one whole matrix. */
  lemma MatrixSourceLayout(vals: seq<Matrix16>, k: nat, r: nat, c: nat)
    requires k < |vals| && r < 4 && c < 4
    ensures ColumnMajorAll(vals)[16 * k + 4 * c + r] == Entry(vals[k], r, c)
  {
    ColumnMajorAllAt(vals, k, 4 * c + r);
    ColumnMajorIsTranspose(vals[k]);
  }
}
