/**
 * Mesh assembly for the GUI example renderer (examples/gui/render.cc): the Material record and
 * LoadObj, which merges the shapes delivered by the OBJ loader into one flat Mesh with
 * face-varying normals and UVs.
 *
 * The loader itself is not part of this model: LoadObj receives the loader's error string and
 * shapes as parameters. Floats are reals; vector normalisation (vnormalize) is a parameter.
 */
module ObjMesh {
  import opened Vec

  const TWO_TO_32: int := 0x1_0000_0000

  /** Conversion of an integer into a 32-bit `unsigned int`: reduction modulo 2^32. */
  function Wrap32(n: int): (r: nat)
    ensures r < TWO_TO_32
    ensures 0 <= n < TWO_TO_32 ==> r == n
  {
    n % TWO_TO_32
  }

  /** std::vector::resize(n, fill): keeps the first n old elements and pads with `fill`. */
  function Resize<T>(s: seq<T>, n: nat, fill: T): (r: seq<T>)
    ensures |r| == n
  {
    seq(n, j requires 0 <= j < n => if j < |s| then s[j] else fill)
  }

  /** `base` with the elements from index `at` on replaced by `block`. */
  function Overwrite<T>(base: seq<T>, at: nat, block: seq<T>): (r: seq<T>)
    requires at + |block| <= |base|
    ensures |r| == |base|
  {
    seq(|base|, j requires 0 <= j < |base| => if at <= j < at + |block| then block[j - at] else base[j])
  }

  /** Overwriting a prefix and then the block right after it is one overwrite by their concatenation. */
  lemma OverwriteAdjacent<T>(base: seq<T>, front: seq<T>, at: nat, back: seq<T>)
    requires at == |front| && at + |back| <= |base|
    ensures Overwrite(Overwrite(base, 0, front), at, back) == Overwrite(base, 0, front + back)
  {
  }

  /** Overwriting the front of the part after `front` replaces that part's first |block| elements. */
  lemma OverwriteAfter<T>(front: seq<T>, rest: seq<T>, block: seq<T>)
    requires |block| <= |rest|
    ensures Overwrite(front + rest, |front|, block) == front + block + rest[|block|..]
  {
  }

  /** Overwriting all of `base` leaves just the block. */
  lemma OverwriteWhole<T>(base: seq<T>, block: seq<T>)
    requires |block| == |base|
    ensures Overwrite(base, 0, block) == block
  {
  }

  /** Writing the next element of a block extends the overwritten prefix by one. */
  lemma OverwriteSnoc1<T>(base: seq<T>, at: nat, block: seq<T>, i: nat)
    requires at + |block| <= |base| && i < |block|
    ensures Overwrite(base, at, block[..i])[at + i := block[i]] == Overwrite(base, at, block[..i + 1])
  {
  }

  /** Writing the next three elements of a block one by one extends the overwritten prefix by three. */
  lemma OverwriteSnoc3<T>(base: seq<T>, at: nat, block: seq<T>, i: nat)
    requires at + |block| <= |base| && i + 3 <= |block|
    ensures Overwrite(base, at, block[..i])[at + i := block[i]][at + i + 1 := block[i + 1]][at + i + 2 := block[i + 2]]
         == Overwrite(base, at, block[..i + 3])
  {
  }

  // ---------------------------------------------------------------------------------------------
  // Material (render.cc:30-63)

  class Material {
    var ambient: Float3
    var diffuse: Float3
    var reflection: Float3
    var refraction: Float3
    var id: int
    var diffuseTexId: int
    var reflectionTexId: int
    var transparencyTexId: int
    var bumpTexId: int
    var normalTexId: int
    var alphaTexId: int

    /** Black ambient, reflection and refraction, mid-grey diffuse, and every id "unset" (-1). */
    constructor ()
      ensures ambient == [0.0, 0.0, 0.0] && diffuse == [0.5, 0.5, 0.5]
      ensures reflection == [0.0, 0.0, 0.0] && refraction == [0.0, 0.0, 0.0]
      ensures id == -1
      ensures diffuseTexId == -1 && reflectionTexId == -1 && transparencyTexId == -1
      ensures bumpTexId == -1 && normalTexId == -1 && alphaTexId == -1
    {
      ambient := [0.0, 0.0, 0.0];
      diffuse := [0.5, 0.5, 0.5];
      reflection := [0.0, 0.0, 0.0];
      refraction := [0.0, 0.0, 0.0];
      id := -1;
      diffuseTexId := -1;
      reflectionTexId := -1;
      transparencyTexId := -1;
      bumpTexId := -1;
      normalTexId := -1;
      alphaTexId := -1;
    }
  }

  // ---------------------------------------------------------------------------------------------
  // Mesh (render.cc:17-28): every std::vector is a sequence that LoadObj reassigns.

  class Mesh {
    var numVertices: nat
    var numFaces: nat
    var vertices: seq<real>                 // xyz per vertex
    var facevaryingNormals: seq<real>       // xyz per triangle corner
    var facevaryingTangents: seq<real>
    var facevaryingBinormals: seq<real>
    var facevaryingUvs: seq<real>           // xy per triangle corner
    var facevaryingVertexColors: seq<real>
    var faces: seq<nat>                     // three vertex indices per triangle (unsigned int)
    var materialIds: seq<nat>               // one per triangle (unsigned int)

    /** A mesh with no vertices and no faces, as the renderer's global mesh starts out. */
    constructor ()
      ensures numVertices == 0 && numFaces == 0
      ensures vertices == [] && faces == [] && materialIds == []
      ensures facevaryingNormals == [] && facevaryingUvs == []
      ensures facevaryingTangents == [] && facevaryingBinormals == [] && facevaryingVertexColors == []
    {
      numVertices, numFaces := 0, 0;
      vertices, faces, materialIds := [], [], [];
      facevaryingNormals, facevaryingUvs := [], [];
      facevaryingTangents, facevaryingBinormals, facevaryingVertexColors := [], [], [];
    }
  }

  // ---------------------------------------------------------------------------------------------
  // Loader shapes

  /** One shape as the OBJ loader delivers it: flat xyz positions and normals, flat uv texcoords,
      three vertex indices per triangle and one material id per triangle. */
  datatype Shape = Shape(positions: seq<real>, normals: seq<real>, texcoords: seq<real>,
                         indices: seq<nat>, materialIds: seq<int>)

  function FaceCount(s: Shape): nat { |s.indices| / 3 }

  function VertexCount(s: Shape): nat { |s.positions| / 3 }

  /** Index slot j addresses a vertex that every array LoadObj reads through it has: its normal
      when the shape has normals and its position otherwise, and its texcoord when it has texcoords. */
  predicate CornerValid(s: Shape, j: nat)
    requires j < |s.indices|
  {
    && (|s.normals| > 0 ==> 3 * s.indices[j] + 2 < |s.normals|)
    && (|s.normals| == 0 ==> 3 * s.indices[j] + 2 < |s.positions|)
    && (|s.texcoords| > 0 ==> 2 * s.indices[j] + 1 < |s.texcoords|)
  }

  /** What LoadObj relies on: the size asserts at render.cc:220-224 and, for its reads of the shape
      to stay in bounds, one material id per face and every index slot valid. */
  predicate WellFormed(s: Shape) {
    && |s.indices| % 3 == 0 && |s.positions| % 3 == 0 && |s.normals| % 3 == 0
    && |s.materialIds| >= FaceCount(s)
    && (forall j | 0 <= j < |s.indices| :: CornerValid(s, j))
  }

  predicate AllWellFormed(shapes: seq<Shape>) {
    forall i | 0 <= i < |shapes| :: WellFormed(shapes[i])
  }

  /** Every index of the shape names one of its own vertices. */
  predicate IndicesInRange(s: Shape) {
    forall j | 0 <= j < |s.indices| :: s.indices[j] < VertexCount(s)
  }

  // ---------------------------------------------------------------------------------------------
  // Running offsets: the vertex and face counts of the first n shapes.

  function NumVertices(shapes: seq<Shape>, n: nat): nat
    requires n <= |shapes|
  {
    if n == 0 then 0 else NumVertices(shapes, n - 1) + VertexCount(shapes[n - 1])
  }

  function NumFaces(shapes: seq<Shape>, n: nat): nat
    requires n <= |shapes|
  {
    if n == 0 then 0 else NumFaces(shapes, n - 1) + FaceCount(shapes[n - 1])
  }

  /** The running counts never decrease: the first i shapes count no more than the first n. */
  lemma {:induction false} CountsGrow(shapes: seq<Shape>, i: nat, n: nat)
    requires i <= n <= |shapes|
    ensures NumVertices(shapes, i) <= NumVertices(shapes, n)
    ensures NumFaces(shapes, i) <= NumFaces(shapes, n)
  {
    if i < n {
      CountsGrow(shapes, i, n - 1);
    }
  }

  // ---------------------------------------------------------------------------------------------
  // What one shape contributes to each merged array.

  /** The shape's indices shifted by the vertex offset, stored as `unsigned int`. */
  function ShapeFaces(s: Shape, vertexOffset: nat): seq<nat> {
    seq(|s.indices|, j requires 0 <= j < |s.indices| => Wrap32(s.indices[j] + vertexOffset))
  }

  /** The shape's per-face material ids, stored as `unsigned int`. */
  function ShapeMaterials(s: Shape): seq<nat>
    requires |s.materialIds| >= FaceCount(s)
  {
    seq(FaceCount(s), f requires 0 <= f < FaceCount(s) => Wrap32(s.materialIds[f]))
  }

  /** The shape's positions multiplied by the scene scale. */
  function ShapeVertices(s: Shape, scale: real): seq<real> {
    seq(|s.positions|, j requires 0 <= j < |s.positions| => scale * s.positions[j])
  }

  /** The vertex index at corner c of face f, with the bounds WellFormed guarantees for it. */
  function Corner(s: Shape, f: nat, c: nat): (v: nat)
    requires WellFormed(s) && f < FaceCount(s) && c < 3
    ensures 3 * f + c < |s.indices| && v == s.indices[3 * f + c]
    ensures |s.normals| > 0 ==> 3 * v + 2 < |s.normals|
    ensures |s.normals| == 0 ==> 3 * v + 2 < |s.positions|
    ensures |s.texcoords| > 0 ==> 2 * v + 1 < |s.texcoords|
  {
    assert CornerValid(s, 3 * f + c);
    s.indices[3 * f + c]
  }

  function PositionOf(s: Shape, v: nat): Float3
    requires 3 * v + 2 < |s.positions|
  {
    [s.positions[3 * v], s.positions[3 * v + 1], s.positions[3 * v + 2]]
  }

  function NormalOf(s: Shape, v: nat): Float3
    requires 3 * v + 2 < |s.normals|
  {
    [s.normals[3 * v], s.normals[3 * v + 1], s.normals[3 * v + 2]]
  }

  function TexcoordOf(s: Shape, v: nat): seq<real>
    requires 2 * v + 1 < |s.texcoords|
  {
    [s.texcoords[2 * v], s.texcoords[2 * v + 1]]
  }

  /** CalcNormal (render.cc:69-76): the normalised cross product of (v2 - v0) and (v1 - v0), in that order. */
  function CalcNormal(v0: Float3, v1: Float3, v2: Float3, normalize: Float3 -> Float3): (n: Float3)
    ensures n == normalize(Neg(Cross(Sub(v1, v0), Sub(v2, v0))))
  {
    CalcNormalOrientation(v0, v1, v2);
    normalize(Cross(Sub(v2, v0), Sub(v1, v0)))
  }

  /** Before normalisation, the geometric normal is perpendicular to both edges leaving v0, and it is
      the negation of the (v1 - v0) x (v2 - v0) orientation. */
  lemma CalcNormalOrientation(v0: Float3, v1: Float3, v2: Float3)
    ensures Dot(Cross(Sub(v2, v0), Sub(v1, v0)), Sub(v1, v0)) == 0.0
    ensures Dot(Cross(Sub(v2, v0), Sub(v1, v0)), Sub(v2, v0)) == 0.0
    ensures Cross(Sub(v2, v0), Sub(v1, v0)) == Neg(Cross(Sub(v1, v0), Sub(v2, v0)))
  {
    CrossIsOrthogonal(Sub(v2, v0), Sub(v1, v0));
    CrossAntiCommutes(Sub(v1, v0), Sub(v2, v0));
  }

  /** The flat normal of face f, from the shape's unscaled positions. */
  function GeometricNormal(s: Shape, f: nat, normalize: Float3 -> Float3): Float3
    requires WellFormed(s) && |s.normals| == 0 && f < FaceCount(s)
  {
    CalcNormal(PositionOf(s, Corner(s, f, 0)), PositionOf(s, Corner(s, f, 1)),
               PositionOf(s, Corner(s, f, 2)), normalize)
  }

  /** Three float3 values laid out one after the other, as the three corners of a face. */
  function Corners3(a: Float3, b: Float3, c: Float3): (r: seq<real>)
    ensures |r| == 9
  {
    [a[0], a[1], a[2], b[0], b[1], b[2], c[0], c[1], c[2]]
  }

  /** Component k of corner i of a Corners3 layout. */
  lemma Corners3At(a: Float3, b: Float3, c: Float3, i: nat, k: nat)
    requires i < 3 && k < 3
    ensures Corners3(a, b, c)[3 * i + k] == (if i == 0 then a else if i == 1 then b else c)[k]
  {
    if i == 0 {
      if k == 0 {} else if k == 1 {} else {}
    } else if i == 1 {
      if k == 0 {} else if k == 1 {} else {}
    } else {
      if k == 0 {} else if k == 1 {} else {}
    }
  }

  /** Three uv pairs laid out one after the other, as the three corners of a face. */
  function Pairs3(a: seq<real>, b: seq<real>, c: seq<real>): (r: seq<real>)
    requires |a| == 2 && |b| == 2 && |c| == 2
    ensures |r| == 6
  {
    [a[0], a[1], b[0], b[1], c[0], c[1]]
  }

  /** Component k of corner i of a Pairs3 layout. */
  lemma Pairs3At(a: seq<real>, b: seq<real>, c: seq<real>, i: nat, k: nat)
    requires |a| == 2 && |b| == 2 && |c| == 2 && i < 3 && k < 2
    ensures Pairs3(a, b, c)[2 * i + k] == (if i == 0 then a else if i == 1 then b else c)[k]
  {
    if i == 0 {
      if k == 0 {} else {}
    } else if i == 1 {
      if k == 0 {} else {}
    } else {
      if k == 0 {} else {}
    }
  }

  /** Storing the nine components of three corners one by one, right after an overwritten front,
      extends the front by their Corners3 layout. */
  lemma StoreCorners(x: seq<real>, base: seq<real>, at: nat, front: seq<real>, p: nat, a: Float3, b: Float3, c: Float3)
    requires at + |front| + 9 <= |base| && p == at + |front| && x == Overwrite(base, at, front)
    ensures x[p + 0 := a[0]][p + 1 := a[1]][p + 2 := a[2]][p + 3 := b[0]][p + 4 := b[1]][p + 5 := b[2]]
             [p + 6 := c[0]][p + 7 := c[1]][p + 8 := c[2]]
         == Overwrite(base, at, front + Corners3(a, b, c))
  {
  }

  /** Storing the six components of three uv pairs one by one, right after an overwritten front,
      extends the front by their Pairs3 layout. */
  lemma StorePairs(x: seq<real>, base: seq<real>, at: nat, front: seq<real>, p: nat, a: seq<real>, b: seq<real>, c: seq<real>)
    requires |a| == 2 && |b| == 2 && |c| == 2
    requires at + |front| + 6 <= |base| && p == at + |front| && x == Overwrite(base, at, front)
    ensures x[p + 0 := a[0]][p + 1 := a[1]][p + 2 := b[0]][p + 3 := b[1]][p + 4 := c[0]][p + 5 := c[1]]
         == Overwrite(base, at, front + Pairs3(a, b, c))
  {
  }

  /** The nine normal components stored for face f when the shape has vertex normals: component
      m % 3 of the normal of the vertex at corner m / 3. */
  function VertexNormalsOfFace(s: Shape, f: nat): (r: seq<real>)
    requires WellFormed(s) && |s.normals| > 0 && f < FaceCount(s)
    ensures |r| == 9
  {
    seq(9, m requires 0 <= m < 9 => NormalOf(s, Corner(s, f, m / 3))[m % 3])
  }

  /** The nine normal components stored for face f when the shape has no normals: the face's
      geometric normal on each of its three corners. */
  function GeometricNormalsOfFace(s: Shape, f: nat, normalize: Float3 -> Float3): (r: seq<real>)
    requires WellFormed(s) && |s.normals| == 0 && f < FaceCount(s)
    ensures |r| == 9
  {
    seq(9, m requires 0 <= m < 9 => GeometricNormal(s, f, normalize)[m % 3])
  }

  /** The six uv components stored for face f: component m % 2 of the texcoord of the vertex at
      corner m / 2. */
  function UvsOfFace(s: Shape, f: nat): (r: seq<real>)
    requires WellFormed(s) && |s.texcoords| > 0 && f < FaceCount(s)
    ensures |r| == 6
  {
    seq(6, m requires 0 <= m < 6 => TexcoordOf(s, Corner(s, f, m / 2))[m % 2])
  }

  /** The per-face normal block is the three corner normals laid out one after the other. */
  lemma VertexNormalsOfFaceLayout(s: Shape, f: nat)
    requires WellFormed(s) && |s.normals| > 0 && f < FaceCount(s)
    ensures VertexNormalsOfFace(s, f)
         == Corners3(NormalOf(s, Corner(s, f, 0)), NormalOf(s, Corner(s, f, 1)), NormalOf(s, Corner(s, f, 2)))
  {
    var a, b, c := NormalOf(s, Corner(s, f, 0)), NormalOf(s, Corner(s, f, 1)), NormalOf(s, Corner(s, f, 2));
    forall m | 0 <= m < 9
      ensures VertexNormalsOfFace(s, f)[m] == Corners3(a, b, c)[m]
    {
      Corners3At(a, b, c, m / 3, m % 3);
    }
  }

  /** The geometric normal block is the face's normal repeated on its three corners. */
  lemma GeometricNormalsOfFaceLayout(s: Shape, f: nat, normalize: Float3 -> Float3)
    requires WellFormed(s) && |s.normals| == 0 && f < FaceCount(s)
    ensures GeometricNormalsOfFace(s, f, normalize)
         == Corners3(GeometricNormal(s, f, normalize), GeometricNormal(s, f, normalize), GeometricNormal(s, f, normalize))
  {
    var g := GeometricNormal(s, f, normalize);
    forall m | 0 <= m < 9
      ensures GeometricNormalsOfFace(s, f, normalize)[m] == Corners3(g, g, g)[m]
    {
      Corners3At(g, g, g, m / 3, m % 3);
    }
  }

  /** The per-face uv block is the three corner texcoords laid out one after the other. */
  lemma UvsOfFaceLayout(s: Shape, f: nat)
    requires WellFormed(s) && |s.texcoords| > 0 && f < FaceCount(s)
    ensures UvsOfFace(s, f)
         == Pairs3(TexcoordOf(s, Corner(s, f, 0)), TexcoordOf(s, Corner(s, f, 1)), TexcoordOf(s, Corner(s, f, 2)))
  {
    var a, b, c := TexcoordOf(s, Corner(s, f, 0)), TexcoordOf(s, Corner(s, f, 1)), TexcoordOf(s, Corner(s, f, 2));
    forall m | 0 <= m < 6
      ensures UvsOfFace(s, f)[m] == Pairs3(a, b, c)[m]
    {
      Pairs3At(a, b, c, m / 2, m % 2);
    }
  }

  /** Face-varying normals of the first n faces of a shape with vertex normals. */
  function VertexNormalsUpTo(s: Shape, n: nat): (r: seq<real>)
    requires WellFormed(s) && |s.normals| > 0 && n <= FaceCount(s)
    ensures |r| == 9 * n
  {
    if n == 0 then [] else VertexNormalsUpTo(s, n - 1) + VertexNormalsOfFace(s, n - 1)
  }

  /** Face-varying normals of the first n faces of a shape without normals. */
  function GeometricNormalsUpTo(s: Shape, n: nat, normalize: Float3 -> Float3): (r: seq<real>)
    requires WellFormed(s) && |s.normals| == 0 && n <= FaceCount(s)
    ensures |r| == 9 * n
  {
    if n == 0 then [] else GeometricNormalsUpTo(s, n - 1, normalize) + GeometricNormalsOfFace(s, n - 1, normalize)
  }

  function ShapeNormals(s: Shape, normalize: Float3 -> Float3): seq<real>
    requires WellFormed(s)
  {
    if |s.normals| > 0 then VertexNormalsUpTo(s, FaceCount(s))
    else GeometricNormalsUpTo(s, FaceCount(s), normalize)
  }

  /** Face-varying UVs of the first n faces of a shape with texcoords. */
  function UvsUpTo(s: Shape, n: nat): (r: seq<real>)
    requires WellFormed(s) && |s.texcoords| > 0 && n <= FaceCount(s)
    ensures |r| == 6 * n
  {
    if n == 0 then [] else UvsUpTo(s, n - 1) + UvsOfFace(s, n - 1)
  }

  /** With vertex normals, component k of corner c of face f is component k of the normal of the
      corner's vertex. */
  lemma {:induction false} VertexNormalsAt(s: Shape, n: nat, f: nat, c: nat, k: nat)
    requires WellFormed(s) && |s.normals| > 0 && n <= FaceCount(s)
    requires f < n && c < 3 && k < 3
    ensures VertexNormalsUpTo(s, n)[9 * f + 3 * c + k] == s.normals[3 * Corner(s, f, c) + k]
  {
    var prev := VertexNormalsUpTo(s, n - 1);
    assert VertexNormalsUpTo(s, n) == prev + VertexNormalsOfFace(s, n - 1);
    if f < n - 1 {
      VertexNormalsAt(s, n - 1, f, c, k);
    } else {
      assert (3 * c + k) / 3 == c && (3 * c + k) % 3 == k;
    }
  }

  /** Without vertex normals, all three corners of face f hold its geometric normal. */
  lemma {:induction false} GeometricNormalsAt(s: Shape, n: nat, normalize: Float3 -> Float3, f: nat, c: nat, k: nat)
    requires WellFormed(s) && |s.normals| == 0 && n <= FaceCount(s)
    requires f < n && c < 3 && k < 3
    ensures GeometricNormalsUpTo(s, n, normalize)[9 * f + 3 * c + k] == GeometricNormal(s, f, normalize)[k]
  {
    var prev := GeometricNormalsUpTo(s, n - 1, normalize);
    assert GeometricNormalsUpTo(s, n, normalize) == prev + GeometricNormalsOfFace(s, n - 1, normalize);
    if f < n - 1 {
      GeometricNormalsAt(s, n - 1, normalize, f, c, k);
    } else {
      assert (3 * c + k) % 3 == k;
    }
  }

  /** Component k of corner c of face f is component k of the texcoord of the corner's vertex. */
  lemma {:induction false} UvsAt(s: Shape, n: nat, f: nat, c: nat, k: nat)
    requires WellFormed(s) && |s.texcoords| > 0 && n <= FaceCount(s)
    requires f < n && c < 3 && k < 2
    ensures UvsUpTo(s, n)[6 * f + 2 * c + k] == s.texcoords[2 * Corner(s, f, c) + k]
  {
    var prev := UvsUpTo(s, n - 1);
    assert UvsUpTo(s, n) == prev + UvsOfFace(s, n - 1);
    if f < n - 1 {
      UvsAt(s, n - 1, f, c, k);
    } else {
      assert (2 * c + k) / 2 == c && (2 * c + k) % 2 == k;
    }
  }

  // ---------------------------------------------------------------------------------------------
  // The merged arrays of the first n shapes: each shape's block placed after those of the shapes
  // before it.

  /** blocks[0] + ... + blocks[n - 1]. */
  function Concat(blocks: seq<seq<real>>, n: nat): (r: seq<real>)
    requires n <= |blocks|
  {
    if n == 0 then [] else Concat(blocks, n - 1) + blocks[n - 1]
  }

  /** Concatenating more blocks keeps every component of the fewer. */
  lemma {:induction false} ConcatPrefix(blocks: seq<seq<real>>, m: nat, n: nat, p: nat)
    requires m <= n <= |blocks| && p < |Concat(blocks, m)|
    ensures p < |Concat(blocks, n)| && Concat(blocks, n)[p] == Concat(blocks, m)[p]
  {
    if m < n {
      ConcatPrefix(blocks, m, n - 1, p);
    }
  }

  /** Component j of block i sits right after the first i blocks. */
  lemma ConcatBlockAt(blocks: seq<seq<real>>, i: nat, n: nat, j: nat)
    requires i < n <= |blocks| && j < |blocks[i]|
    ensures |Concat(blocks, i)| + j < |Concat(blocks, n)|
    ensures Concat(blocks, n)[|Concat(blocks, i)| + j] == blocks[i][j]
  {
    ConcatPrefix(blocks, i + 1, n, |Concat(blocks, i)| + j);
  }

  /** The normals of each shape, in shape order. */
  function NormalsBlocks(shapes: seq<Shape>, normalize: Float3 -> Float3): (r: seq<seq<real>>)
    requires AllWellFormed(shapes)
    ensures |r| == |shapes|
  {
    seq(|shapes|, i requires 0 <= i < |shapes| => ShapeNormals(shapes[i], normalize))
  }

  function MergedVertices(shapes: seq<Shape>, n: nat, scale: real): (r: seq<real>)
    requires AllWellFormed(shapes) && n <= |shapes|
    ensures |r| == 3 * NumVertices(shapes, n)
  {
    if n == 0 then [] else MergedVertices(shapes, n - 1, scale) + ShapeVertices(shapes[n - 1], scale)
  }

  function MergedFaces(shapes: seq<Shape>, n: nat): (r: seq<nat>)
    requires AllWellFormed(shapes) && n <= |shapes|
    ensures |r| == 3 * NumFaces(shapes, n)
  {
    if n == 0 then [] else MergedFaces(shapes, n - 1) + ShapeFaces(shapes[n - 1], NumVertices(shapes, n - 1))
  }

  function MergedMaterials(shapes: seq<Shape>, n: nat): (r: seq<nat>)
    requires AllWellFormed(shapes) && n <= |shapes|
    ensures |r| == NumFaces(shapes, n)
  {
    if n == 0 then [] else MergedMaterials(shapes, n - 1) + ShapeMaterials(shapes[n - 1])
  }

  /** The normals of the first n shapes: each shape's face-varying normals after those of the
      shapes before it. */
  function MergedNormals(shapes: seq<Shape>, n: nat, normalize: Float3 -> Float3): (r: seq<real>)
    requires AllWellFormed(shapes) && n <= |shapes|
    ensures |r| == 9 * NumFaces(shapes, n)
  {
    NormalsLength(shapes, n, normalize);
    Concat(NormalsBlocks(shapes, normalize), n)
  }

  /** Each shape contributes nine normal components per face. */
  lemma {:induction false} NormalsLength(shapes: seq<Shape>, n: nat, normalize: Float3 -> Float3)
    requires AllWellFormed(shapes) && n <= |shapes|
    ensures |Concat(NormalsBlocks(shapes, normalize), n)| == 9 * NumFaces(shapes, n)
  {
    if n > 0 {
      NormalsLength(shapes, n - 1, normalize);
    }
  }

  /** What the UV slots of shape i hold once the shape is merged: its own face-varying UVs when it
      has texcoords, otherwise the slots of `base` as they were. */
  function UvSlot(shapes: seq<Shape>, i: nat, base: seq<real>): (r: seq<real>)
    requires AllWellFormed(shapes) && i < |shapes| && 6 * NumFaces(shapes, |shapes|) <= |base|
    ensures |r| == 6 * FaceCount(shapes[i])
  {
    CountsGrow(shapes, i + 1, |shapes|);
    var s := shapes[i];
    if |s.texcoords| > 0 then UvsUpTo(s, FaceCount(s))
    else base[6 * NumFaces(shapes, i)..6 * NumFaces(shapes, i + 1)]
  }

  /** The UV slots of each shape, in shape order. */
  function UvSlots(shapes: seq<Shape>, base: seq<real>): (r: seq<seq<real>>)
    requires AllWellFormed(shapes) && 6 * NumFaces(shapes, |shapes|) <= |base|
    ensures |r| == |shapes|
  {
    seq(|shapes|, i requires 0 <= i < |shapes| => UvSlot(shapes, i, base))
  }

  /** The UV array after the first n shapes, starting from `base`, the resized UV array: the slots
      of those shapes, each overwritten by the shape's UVs when it has texcoords and kept as it was
      otherwise, followed by the rest of `base`. */
  function MergedUvs(shapes: seq<Shape>, n: nat, base: seq<real>): (r: seq<real>)
    requires AllWellFormed(shapes) && n <= |shapes| && 6 * NumFaces(shapes, |shapes|) <= |base|
    ensures |r| == |base|
  {
    UvsLength(shapes, n, base);
    CountsGrow(shapes, n, |shapes|);
    Concat(UvSlots(shapes, base), n) + base[6 * NumFaces(shapes, n)..]
  }

  /** Each shape has six UV slots per face. */
  lemma {:induction false} UvsLength(shapes: seq<Shape>, n: nat, base: seq<real>)
    requires AllWellFormed(shapes) && n <= |shapes| && 6 * NumFaces(shapes, |shapes|) <= |base|
    ensures |Concat(UvSlots(shapes, base), n)| == 6 * NumFaces(shapes, n)
  {
    if n > 0 {
      UvsLength(shapes, n - 1, base);
    }
  }

  /** Merged face index: the shape-local index plus the vertex count of all earlier shapes,
      reduced to 32 bits. */
  lemma {:induction false} MergedFacesAt(shapes: seq<Shape>, n: nat, i: nat, j: nat)
    requires AllWellFormed(shapes) && i < n <= |shapes| && j < |shapes[i].indices|
    ensures 3 * NumFaces(shapes, i) + j < |MergedFaces(shapes, n)|
    ensures MergedFaces(shapes, n)[3 * NumFaces(shapes, i) + j] == Wrap32(shapes[i].indices[j] + NumVertices(shapes, i))
  {
    if i < n - 1 {
      MergedFacesAt(shapes, n - 1, i, j);
      CountsGrow(shapes, i + 1, n - 1);
    }
  }

  /** If each shape's indices name its own vertices and the merged vertex count fits in 32 bits,
      every merged face index names a vertex of the merged mesh. */
  lemma {:induction false} MergedFacesInRange(shapes: seq<Shape>, n: nat)
    requires AllWellFormed(shapes) && n <= |shapes|
    requires forall i | 0 <= i < |shapes| :: IndicesInRange(shapes[i])
    requires NumVertices(shapes, n) <= TWO_TO_32
    ensures forall k | 0 <= k < |MergedFaces(shapes, n)| :: MergedFaces(shapes, n)[k] < NumVertices(shapes, n)
  {
    if n > 0 {
      MergedFacesInRange(shapes, n - 1);
      var vo := NumVertices(shapes, n - 1);
      var s := shapes[n - 1];
      forall j | 0 <= j < |s.indices|
        ensures ShapeFaces(s, vo)[j] < NumVertices(shapes, n)
      {
        assert s.indices[j] < VertexCount(s);
      }
    }
  }

  /** Position component j of shape i lands at merged offset 3 * NumVertices(shapes, i) + j, scaled. */
  lemma {:induction false} MergedVerticesAt(shapes: seq<Shape>, n: nat, scale: real, i: nat, j: nat)
    requires AllWellFormed(shapes) && i < n <= |shapes| && j < |shapes[i].positions|
    ensures 3 * NumVertices(shapes, i) + j < |MergedVertices(shapes, n, scale)|
    ensures MergedVertices(shapes, n, scale)[3 * NumVertices(shapes, i) + j] == scale * shapes[i].positions[j]
  {
    if i < n - 1 {
      MergedVerticesAt(shapes, n - 1, scale, i, j);
      CountsGrow(shapes, i + 1, n - 1);
    }
  }

  /** Face f of shape i carries the shape's material id for f at merged face NumFaces(shapes, i) + f. */
  lemma {:induction false} MergedMaterialsAt(shapes: seq<Shape>, n: nat, i: nat, f: nat)
    requires AllWellFormed(shapes) && i < n <= |shapes| && f < FaceCount(shapes[i])
    ensures NumFaces(shapes, i) + f < |MergedMaterials(shapes, n)|
    ensures MergedMaterials(shapes, n)[NumFaces(shapes, i) + f] == Wrap32(shapes[i].materialIds[f])
  {
    if i < n - 1 {
      MergedMaterialsAt(shapes, n - 1, i, f);
      CountsGrow(shapes, i + 1, n - 1);
    }
  }

  /** The normals block of shape i sits at merged offset 9 * NumFaces(shapes, i). */
  lemma MergedNormalsBlock(shapes: seq<Shape>, n: nat, normalize: Float3 -> Float3, i: nat, j: nat)
    requires AllWellFormed(shapes) && i < n <= |shapes| && j < 9 * FaceCount(shapes[i])
    ensures 9 * NumFaces(shapes, i) + j < |MergedNormals(shapes, n, normalize)|
    ensures MergedNormals(shapes, n, normalize)[9 * NumFaces(shapes, i) + j] == ShapeNormals(shapes[i], normalize)[j]
  {
    NormalsLength(shapes, i, normalize);
    ConcatBlockAt(NormalsBlocks(shapes, normalize), i, n, j);
  }

  /** Corner c of face f of shape i, in the merged face-varying normals: the vertex normal of the
      corner's vertex when the shape has normals, otherwise the face's geometric normal, the same
      on all three corners. */
  lemma {:induction false} MergedNormalCorner(shapes: seq<Shape>, n: nat, normalize: Float3 -> Float3, i: nat, f: nat, c: nat, k: nat)
    requires AllWellFormed(shapes) && i < n <= |shapes| && f < FaceCount(shapes[i]) && c < 3 && k < 3
    ensures 9 * (NumFaces(shapes, i) + f) + 3 * c + k < |MergedNormals(shapes, n, normalize)|
    ensures MergedNormals(shapes, n, normalize)[9 * (NumFaces(shapes, i) + f) + 3 * c + k]
         == if |shapes[i].normals| > 0 then shapes[i].normals[3 * Corner(shapes[i], f, c) + k]
            else GeometricNormal(shapes[i], f, normalize)[k]
  {
    var s, j := shapes[i], 9 * f + 3 * c + k;
    MergedNormalsBlock(shapes, n, normalize, i, j);
    assert 9 * (NumFaces(shapes, i) + f) + 3 * c + k == 9 * NumFaces(shapes, i) + j;
    if |s.normals| > 0 {
      VertexNormalsAt(s, FaceCount(s), f, c, k);
    } else {
      GeometricNormalsAt(s, FaceCount(s), normalize, f, c, k);
    }
  }

  /** Shape i overwrites its UV slots when it has texcoords and leaves the array as it was when
      it has none. */
  lemma MergedUvsStep(shapes: seq<Shape>, i: nat, base: seq<real>)
    requires AllWellFormed(shapes) && i < |shapes| && 6 * NumFaces(shapes, |shapes|) <= |base|
    ensures 6 * NumFaces(shapes, i + 1) <= |base|
    ensures MergedUvs(shapes, i + 1, base)
         == if |shapes[i].texcoords| > 0
            then Overwrite(MergedUvs(shapes, i, base), 6 * NumFaces(shapes, i), UvsUpTo(shapes[i], FaceCount(shapes[i])))
            else MergedUvs(shapes, i, base)
  {
    CountsGrow(shapes, i + 1, |shapes|);
    UvsLength(shapes, i, base);
    var front, slot := Concat(UvSlots(shapes, base), i), UvSlot(shapes, i, base);
    var a, b := 6 * NumFaces(shapes, i), 6 * NumFaces(shapes, i + 1);
    assert Concat(UvSlots(shapes, base), i + 1) == front + slot;
    if |shapes[i].texcoords| > 0 {
      OverwriteAfter(front, base[a..], slot);
      assert base[a..][|slot|..] == base[b..];
    } else {
      assert base[a..] == slot + base[b..];
    }
  }

  /** The UV slots of shape i sit at merged offset 6 * NumFaces(shapes, i). */
  lemma MergedUvsSlot(shapes: seq<Shape>, n: nat, base: seq<real>, i: nat, j: nat)
    requires AllWellFormed(shapes) && i < n <= |shapes| && 6 * NumFaces(shapes, |shapes|) <= |base|
    requires j < 6 * FaceCount(shapes[i])
    ensures 6 * NumFaces(shapes, i) + j < |base|
    ensures MergedUvs(shapes, n, base)[6 * NumFaces(shapes, i) + j] == UvSlot(shapes, i, base)[j]
  {
    UvsLength(shapes, i, base);
    UvsLength(shapes, n, base);
    CountsGrow(shapes, n, |shapes|);
    ConcatBlockAt(UvSlots(shapes, base), i, n, j);
  }

  /** Corner c of face f of shape i, in the merged UVs of the first n shapes: the texcoord of the
      corner's vertex when the shape has texcoords, otherwise whatever `base` held there. */
  lemma MergedUvsAt(shapes: seq<Shape>, n: nat, base: seq<real>, i: nat, f: nat, c: nat, k: nat)
    requires AllWellFormed(shapes) && i < n <= |shapes| && 6 * NumFaces(shapes, |shapes|) <= |base|
    requires f < FaceCount(shapes[i]) && c < 3 && k < 2
    ensures 6 * NumFaces(shapes, i) + 6 * f + 2 * c + k < |base|
    ensures MergedUvs(shapes, n, base)[6 * NumFaces(shapes, i) + 6 * f + 2 * c + k]
         == if |shapes[i].texcoords| > 0 then shapes[i].texcoords[2 * Corner(shapes[i], f, c) + k]
            else base[6 * NumFaces(shapes, i) + 6 * f + 2 * c + k]
  {
    var s, j := shapes[i], 6 * f + 2 * c + k;
    MergedUvsSlot(shapes, n, base, i, j);
    if |s.texcoords| > 0 {
      UvsAt(s, FaceCount(s), f, c, k);
    } else {
      CountsGrow(shapes, i + 1, |shapes|);
      assert NumFaces(shapes, i + 1) == NumFaces(shapes, i) + FaceCount(s);
    }
  }

  // ---------------------------------------------------------------------------------------------
  // The loops of LoadObj, one method per inner loop over a shape.

  /** render.cc:251-264: copy the shape's index triples to face offset `faceOffset`, add
      `vertexOffset` to each, and copy the per-face material ids. */
  method CopyFaces(faces: seq<nat>, materialIds: seq<nat>, s: Shape, faceOffset: nat, vertexOffset: nat)
    returns (faces': seq<nat>, materialIds': seq<nat>)
    requires WellFormed(s)
    requires 3 * (faceOffset + FaceCount(s)) <= |faces| && faceOffset + FaceCount(s) <= |materialIds|
    ensures faces' == Overwrite(faces, 3 * faceOffset, ShapeFaces(s, vertexOffset))
    ensures materialIds' == Overwrite(materialIds, faceOffset, ShapeMaterials(s))
  {
    faces', materialIds' := faces, materialIds;
    for f := 0 to FaceCount(s)
      invariant faces' == Overwrite(faces, 3 * faceOffset, ShapeFaces(s, vertexOffset)[..3 * f])
      invariant materialIds' == Overwrite(materialIds, faceOffset, ShapeMaterials(s)[..f])
    {
      var p := 3 * (faceOffset + f);
      faces' := faces'[p := s.indices[3 * f + 0]];
      faces' := faces'[p + 1 := s.indices[3 * f + 1]];
      faces' := faces'[p + 2 := s.indices[3 * f + 2]];
      faces' := faces'[p := Wrap32(faces'[p] + vertexOffset)];
      faces' := faces'[p + 1 := Wrap32(faces'[p + 1] + vertexOffset)];
      faces' := faces'[p + 2 := Wrap32(faces'[p + 2] + vertexOffset)];
      materialIds' := materialIds'[faceOffset + f := Wrap32(s.materialIds[f])];
      OverwriteSnoc3(faces, 3 * faceOffset, ShapeFaces(s, vertexOffset), 3 * f);
      OverwriteSnoc1(materialIds, faceOffset, ShapeMaterials(s), f);
      assert ShapeFaces(s, vertexOffset)[3 * f] == Wrap32(s.indices[3 * f] + vertexOffset);
      assert ShapeFaces(s, vertexOffset)[3 * f + 1] == Wrap32(s.indices[3 * f + 1] + vertexOffset);
      assert ShapeFaces(s, vertexOffset)[3 * f + 2] == Wrap32(s.indices[3 * f + 2] + vertexOffset);
      assert p == 3 * faceOffset + 3 * f;
    }
    assert ShapeFaces(s, vertexOffset)[..3 * FaceCount(s)] == ShapeFaces(s, vertexOffset);
    assert ShapeMaterials(s)[..FaceCount(s)] == ShapeMaterials(s);
  }

  /** render.cc:266-273: the scaled positions at vertex offset `vertexOffset`. */
  method CopyPositions(vertices: seq<real>, s: Shape, vertexOffset: nat, scale: real) returns (vertices': seq<real>)
    requires WellFormed(s)
    requires 3 * vertexOffset + |s.positions| <= |vertices|
    ensures vertices' == Overwrite(vertices, 3 * vertexOffset, ShapeVertices(s, scale))
  {
    vertices' := vertices;
    for v := 0 to VertexCount(s)
      invariant vertices' == Overwrite(vertices, 3 * vertexOffset, ShapeVertices(s, scale)[..3 * v])
    {
      var p := 3 * (vertexOffset + v);
      vertices' := vertices'[p := scale * s.positions[3 * v + 0]];
      vertices' := vertices'[p + 1 := scale * s.positions[3 * v + 1]];
      vertices' := vertices'[p + 2 := scale * s.positions[3 * v + 2]];
      OverwriteSnoc3(vertices, 3 * vertexOffset, ShapeVertices(s, scale), 3 * v);
      assert ShapeVertices(s, scale)[3 * v] == scale * s.positions[3 * v + 0];
      assert ShapeVertices(s, scale)[3 * v + 1] == scale * s.positions[3 * v + 1];
      assert ShapeVertices(s, scale)[3 * v + 2] == scale * s.positions[3 * v + 2];
      assert p == 3 * vertexOffset + 3 * v;
    }
    assert ShapeVertices(s, scale)[..3 * VertexCount(s)] == ShapeVertices(s, scale);
  }

  /** render.cc:276-308: corner by corner, the vertex normal of the corner's vertex. */
  method CopyVertexNormals(normals: seq<real>, s: Shape, faceOffset: nat) returns (normals': seq<real>)
    requires WellFormed(s) && |s.normals| > 0
    requires 9 * (faceOffset + FaceCount(s)) <= |normals|
    ensures normals' == Overwrite(normals, 9 * faceOffset, VertexNormalsUpTo(s, FaceCount(s)))
  {
    normals' := normals;
    for f := 0 to FaceCount(s)
      invariant normals' == Overwrite(normals, 9 * faceOffset, VertexNormalsUpTo(s, f))
    {
      var f0, f1, f2 := Corner(s, f, 0), Corner(s, f, 1), Corner(s, f, 2);
      var n0, n1, n2 := NormalOf(s, f0), NormalOf(s, f1), NormalOf(s, f2);
      var p := 9 * (faceOffset + f);
      ghost var prev := normals';
      normals' := normals'[p + 0 := n0[0]][p + 1 := n0[1]][p + 2 := n0[2]];
      normals' := normals'[p + 3 := n1[0]][p + 4 := n1[1]][p + 5 := n1[2]];
      normals' := normals'[p + 6 := n2[0]][p + 7 := n2[1]][p + 8 := n2[2]];
      StoreCorners(prev, normals, 9 * faceOffset, VertexNormalsUpTo(s, f), p, n0, n1, n2);
      VertexNormalsOfFaceLayout(s, f);
    }
  }

  /** render.cc:311-347: the geometric normal of each face on all three of its corners. */
  method FillGeometricNormals(normals: seq<real>, s: Shape, faceOffset: nat, normalize: Float3 -> Float3)
    returns (normals': seq<real>)
    requires WellFormed(s) && |s.normals| == 0
    requires 9 * (faceOffset + FaceCount(s)) <= |normals|
    ensures normals' == Overwrite(normals, 9 * faceOffset, GeometricNormalsUpTo(s, FaceCount(s), normalize))
  {
    normals' := normals;
    for f := 0 to FaceCount(s)
      invariant normals' == Overwrite(normals, 9 * faceOffset, GeometricNormalsUpTo(s, f, normalize))
    {
      var f0, f1, f2 := Corner(s, f, 0), Corner(s, f, 1), Corner(s, f, 2);
      var v0, v1, v2 := PositionOf(s, f0), PositionOf(s, f1), PositionOf(s, f2);
      var n := CalcNormal(v0, v1, v2, normalize);
      var p := 9 * (faceOffset + f);
      ghost var prev := normals';
      normals' := normals'[p + 0 := n[0]][p + 1 := n[1]][p + 2 := n[2]];
      normals' := normals'[p + 3 := n[0]][p + 4 := n[1]][p + 5 := n[2]];
      normals' := normals'[p + 6 := n[0]][p + 7 := n[1]][p + 8 := n[2]];
      StoreCorners(prev, normals, 9 * faceOffset, GeometricNormalsUpTo(s, f, normalize), p, n, n, n);
      GeometricNormalsOfFaceLayout(s, f, normalize);
    }
  }

  /** render.cc:351-379: corner by corner, the texcoord of the corner's vertex. */
  method CopyTexcoords(uvs: seq<real>, s: Shape, faceOffset: nat) returns (uvs': seq<real>)
    requires WellFormed(s) && |s.texcoords| > 0
    requires 6 * (faceOffset + FaceCount(s)) <= |uvs|
    ensures uvs' == Overwrite(uvs, 6 * faceOffset, UvsUpTo(s, FaceCount(s)))
  {
    uvs' := uvs;
    for f := 0 to FaceCount(s)
      invariant uvs' == Overwrite(uvs, 6 * faceOffset, UvsUpTo(s, f))
    {
      var f0, f1, f2 := Corner(s, f, 0), Corner(s, f, 1), Corner(s, f, 2);
      var t0, t1, t2 := TexcoordOf(s, f0), TexcoordOf(s, f1), TexcoordOf(s, f2);
      var p := 6 * (faceOffset + f);
      ghost var prev := uvs';
      uvs' := uvs'[p + 0 := t0[0]][p + 1 := t0[1]];
      uvs' := uvs'[p + 2 := t1[0]][p + 3 := t1[1]];
      uvs' := uvs'[p + 4 := t2[0]][p + 5 := t2[1]];
      StorePairs(prev, uvs, 6 * faceOffset, UvsUpTo(s, f), p, t0, t1, t2);
      UvsOfFaceLayout(s, f);
    }
  }

  /** The state of the shape loop of LoadObj after the first i shapes: each array is its resized
      starting value (the `...Base` arrays) with the merged arrays of those shapes written over its
      front, and the UV array has the slots of every such shape with texcoords overwritten. */
  ghost predicate MergedUpTo(shapes: seq<Shape>, i: nat, scale: real, normalize: Float3 -> Float3,
                             vertices: seq<real>, faces: seq<nat>, materialIds: seq<nat>, normals: seq<real>, uvs: seq<real>,
                             vertexBase: seq<real>, faceBase: seq<nat>, materialBase: seq<nat>,
                             normalBase: seq<real>, uvBase: seq<real>)
    requires AllWellFormed(shapes) && i <= |shapes|
  {
    && |vertexBase| == 3 * NumVertices(shapes, |shapes|) && |faceBase| == 3 * NumFaces(shapes, |shapes|)
    && |materialBase| == NumFaces(shapes, |shapes|) && |normalBase| == 9 * NumFaces(shapes, |shapes|)
    && |uvBase| == 6 * NumFaces(shapes, |shapes|)
    && NumVertices(shapes, i) <= NumVertices(shapes, |shapes|) && NumFaces(shapes, i) <= NumFaces(shapes, |shapes|)
    && vertices == Overwrite(vertexBase, 0, MergedVertices(shapes, i, scale))
    && faces == Overwrite(faceBase, 0, MergedFaces(shapes, i))
    && materialIds == Overwrite(materialBase, 0, MergedMaterials(shapes, i))
    && normals == Overwrite(normalBase, 0, MergedNormals(shapes, i, normalize))
    && uvs == MergedUvs(shapes, i, uvBase)
  }

  /** One iteration of the shape loop of LoadObj (render.cc:250-382): shape i's faces, material ids,
      positions, normals and UVs written at the running offsets, which extends every merged array
      by that shape. */
  method MergeShape(shapes: seq<Shape>, i: nat, vertexIdxOffset: nat, faceIdxOffset: nat,
                    scale: real, normalize: Float3 -> Float3,
                    vertices: seq<real>, faces: seq<nat>, materialIds: seq<nat>, normals: seq<real>, uvs: seq<real>,
                    ghost vertexBase: seq<real>, ghost faceBase: seq<nat>, ghost materialBase: seq<nat>,
                    ghost normalBase: seq<real>, ghost uvBase: seq<real>)
    returns (vertices': seq<real>, faces': seq<nat>, materialIds': seq<nat>, normals': seq<real>, uvs': seq<real>)
    requires AllWellFormed(shapes) && i < |shapes|
    requires vertexIdxOffset == NumVertices(shapes, i) && faceIdxOffset == NumFaces(shapes, i)
    requires MergedUpTo(shapes, i, scale, normalize, vertices, faces, materialIds, normals, uvs,
                        vertexBase, faceBase, materialBase, normalBase, uvBase)
    ensures MergedUpTo(shapes, i + 1, scale, normalize, vertices', faces', materialIds', normals', uvs',
                       vertexBase, faceBase, materialBase, normalBase, uvBase)
  {
    var s := shapes[i];
    CountsGrow(shapes, i + 1, |shapes|);

    faces', materialIds' := CopyFaces(faces, materialIds, s, faceIdxOffset, vertexIdxOffset);
    assert MergedFaces(shapes, i + 1) == MergedFaces(shapes, i) + ShapeFaces(s, vertexIdxOffset);
    assert MergedMaterials(shapes, i + 1) == MergedMaterials(shapes, i) + ShapeMaterials(s);
    OverwriteAdjacent(faceBase, MergedFaces(shapes, i), 3 * faceIdxOffset, ShapeFaces(s, vertexIdxOffset));
    OverwriteAdjacent(materialBase, MergedMaterials(shapes, i), faceIdxOffset, ShapeMaterials(s));

    vertices' := CopyPositions(vertices, s, vertexIdxOffset, scale);
    assert MergedVertices(shapes, i + 1, scale) == MergedVertices(shapes, i, scale) + ShapeVertices(s, scale);
    OverwriteAdjacent(vertexBase, MergedVertices(shapes, i, scale), 3 * vertexIdxOffset, ShapeVertices(s, scale));

    if |s.normals| > 0 {
      normals' := CopyVertexNormals(normals, s, faceIdxOffset);
    } else {
      normals' := FillGeometricNormals(normals, s, faceIdxOffset, normalize);
    }
    assert MergedNormals(shapes, i + 1, normalize) == MergedNormals(shapes, i, normalize) + ShapeNormals(s, normalize);
    OverwriteAdjacent(normalBase, MergedNormals(shapes, i, normalize), 9 * faceIdxOffset, ShapeNormals(s, normalize));

    uvs' := uvs;
    if |s.texcoords| > 0 {
      uvs' := CopyTexcoords(uvs, s, faceIdxOffset);
    }
    MergedUvsStep(shapes, i, uvBase);
  }

  /** The counting loop of LoadObj (render.cc:215-228): total vertex and face counts of all shapes. */
  method CountShapes(shapes: seq<Shape>) returns (numVertices: nat, numFaces: nat)
    ensures numVertices == NumVertices(shapes, |shapes|) && numFaces == NumFaces(shapes, |shapes|)
  {
    numVertices, numFaces := 0, 0;
    for i := 0 to |shapes|
      invariant numVertices == NumVertices(shapes, i) && numFaces == NumFaces(shapes, i)
    {
      numVertices := numVertices + |shapes[i].positions| / 3;
      numFaces := numFaces + |shapes[i].indices| / 3;
    }
  }

  /** The shape loop of LoadObj (render.cc:247-383) over the resized vectors: every face-indexed and
      vertex-indexed array becomes the merged array of all shapes, and the UV array becomes the
      resized one with the slots of every shape with texcoords overwritten. */
  method MergeShapes(shapes: seq<Shape>, scale: real, normalize: Float3 -> Float3,
                     vertices: seq<real>, faces: seq<nat>, materialIds: seq<nat>, normals: seq<real>, uvs: seq<real>)
    returns (vertices': seq<real>, faces': seq<nat>, materialIds': seq<nat>, normals': seq<real>, uvs': seq<real>)
    requires AllWellFormed(shapes)
    requires |vertices| == 3 * NumVertices(shapes, |shapes|) && |faces| == 3 * NumFaces(shapes, |shapes|)
    requires |materialIds| == NumFaces(shapes, |shapes|) && |normals| == 9 * NumFaces(shapes, |shapes|)
    requires |uvs| == 6 * NumFaces(shapes, |shapes|)
    ensures vertices' == MergedVertices(shapes, |shapes|, scale)
    ensures faces' == MergedFaces(shapes, |shapes|)
    ensures materialIds' == MergedMaterials(shapes, |shapes|)
    ensures normals' == MergedNormals(shapes, |shapes|, normalize)
    ensures uvs' == MergedUvs(shapes, |shapes|, uvs)
  {
    vertices', faces', materialIds', normals', uvs' := vertices, faces, materialIds, normals, uvs;
    assert Overwrite(vertices, 0, []) == vertices;
    assert Overwrite(faces, 0, []) == faces;
    assert Overwrite(materialIds, 0, []) == materialIds;
    assert Overwrite(normals, 0, []) == normals;
    assert MergedUvs(shapes, 0, uvs) == uvs;

    var vertexIdxOffset, faceIdxOffset := 0, 0;
    for i := 0 to |shapes|
      invariant vertexIdxOffset == NumVertices(shapes, i) && faceIdxOffset == NumFaces(shapes, i)
      invariant MergedUpTo(shapes, i, scale, normalize, vertices', faces', materialIds', normals', uvs',
                           vertices, faces, materialIds, normals, uvs)
    {
      vertices', faces', materialIds', normals', uvs' :=
        MergeShape(shapes, i, vertexIdxOffset, faceIdxOffset, scale, normalize, vertices', faces', materialIds', normals', uvs',
                   vertices, faces, materialIds, normals, uvs);
      vertexIdxOffset := vertexIdxOffset + |shapes[i].positions| / 3;
      faceIdxOffset := faceIdxOffset + |shapes[i].indices| / 3;
    }
    OverwriteWhole(vertices, MergedVertices(shapes, |shapes|, scale));
    OverwriteWhole(faces, MergedFaces(shapes, |shapes|));
    OverwriteWhole(materialIds, MergedMaterials(shapes, |shapes|));
    OverwriteWhole(normals, MergedNormals(shapes, |shapes|, normalize));
  }

  /** The body of LoadObj after the error check (render.cc:215-383): count, resize the mesh's
      vectors to the counts, and merge the shapes into them. */
  method MergeIntoResized(shapes: seq<Shape>, scale: real, normalize: Float3 -> Float3,
                          oldVertices: seq<real>, oldFaces: seq<nat>, oldMaterialIds: seq<nat>,
                          oldNormals: seq<real>, oldUvs: seq<real>)
    returns (numVertices: nat, numFaces: nat,
             vertices: seq<real>, faces: seq<nat>, materialIds: seq<nat>, normals: seq<real>, uvs: seq<real>)
    requires AllWellFormed(shapes)
    ensures numVertices == NumVertices(shapes, |shapes|) && numFaces == NumFaces(shapes, |shapes|)
    ensures vertices == MergedVertices(shapes, |shapes|, scale)
    ensures faces == MergedFaces(shapes, |shapes|)
    ensures materialIds == MergedMaterials(shapes, |shapes|)
    ensures normals == MergedNormals(shapes, |shapes|, normalize)
    ensures uvs == MergedUvs(shapes, |shapes|, Resize(oldUvs, 6 * NumFaces(shapes, |shapes|), 0.0))
  {
    numVertices, numFaces := CountShapes(shapes);
    vertices := Resize(oldVertices, numVertices * 3, 0.0);
    faces := Resize(oldFaces, numFaces * 3, 0);
    materialIds := Resize(oldMaterialIds, numFaces, 0);
    normals := Resize(oldNormals, numFaces * 3 * 3, 0.0);
    uvs := Resize(oldUvs, numFaces * 3 * 2, 0.0);
    assert numFaces * 3 * 2 == 6 * NumFaces(shapes, |shapes|);
    vertices, faces, materialIds, normals, uvs := MergeShapes(shapes, scale, normalize, vertices, faces, materialIds, normals, uvs);
  }

  // ---------------------------------------------------------------------------------------------
  // LoadObj (render.cc:201-386)

  /** Merges the loader's shapes into `mesh`. A non-empty loader error fails without touching the
      mesh. Otherwise the counts are the sums over the shapes, every array is resized to its
      face or vertex count and filled shape after shape at the running offsets. The UV slots of
      shapes without texcoords keep what resizing left there. */
  method LoadObj(mesh: Mesh, loaderError: string, shapes: seq<Shape>, scale: real, normalize: Float3 -> Float3)
    returns (ok: bool)
    requires loaderError == [] ==> AllWellFormed(shapes)
    modifies mesh
    ensures ok == (loaderError == [])
    ensures !ok ==> unchanged(mesh)
    ensures ok ==> && mesh.numVertices == NumVertices(shapes, |shapes|)
                   && mesh.numFaces == NumFaces(shapes, |shapes|)
                   && mesh.vertices == MergedVertices(shapes, |shapes|, scale)
                   && mesh.faces == MergedFaces(shapes, |shapes|)
                   && mesh.materialIds == MergedMaterials(shapes, |shapes|)
                   && mesh.facevaryingNormals == MergedNormals(shapes, |shapes|, normalize)
                   && mesh.facevaryingUvs
                      == MergedUvs(shapes, |shapes|, Resize(old(mesh.facevaryingUvs), 6 * NumFaces(shapes, |shapes|), 0.0))
    ensures unchanged(mesh`facevaryingTangents, mesh`facevaryingBinormals, mesh`facevaryingVertexColors)
  {
    if loaderError != [] {
      return false;
    }
    var numVertices, numFaces, vertices, faces, materialIds, normals, uvs :=
      MergeIntoResized(shapes, scale, normalize, mesh.vertices, mesh.faces, mesh.materialIds,
                       mesh.facevaryingNormals, mesh.facevaryingUvs);
    mesh.numFaces, mesh.numVertices := numFaces, numVertices;
    mesh.vertices, mesh.faces, mesh.materialIds := vertices, faces, materialIds;
    mesh.facevaryingNormals, mesh.facevaryingUvs := normals, uvs;
    return true;
  }
}
