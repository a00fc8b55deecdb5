/** The per-row body of Renderer::Render (render.cc:431-552), run by a single worker that claims
    rows 0, 1, 2, ... in order. Ray traversal is an oracle; pixel values are reals. */
module Renderer {
  import opened Vec

  // ---------------------------------------------------------------------------------------------
  // The scene a render reads

  /** What the BVH traversal reports for one ray: a miss, or the hit distance, barycentric
      coordinates and the index of the triangle hit. */
  datatype Hit = Miss | Hit(t: real, u: real, v: real, primId: nat)

  /** Everything Render reads besides its output buffers: the image size, camera origin and pass
      counters of the configuration, the face-varying normals and UVs of the global mesh, the
      traversal of the global accelerator (given the ray origin and direction) and the float3
      normalisation (vnormalize). */
  datatype Scene = Scene(width: int, height: int, eye: Float3, pass: int, maxPasses: int,
                         normals: seq<real>, uvs: seq<real>,
                         traverse: (Float3, Float3) -> Hit, normalize: Float3 -> Float3)

  /** The number of columns and rows the loops visit: none when the size is not positive. */
  function Cols(sc: Scene): nat { if sc.width > 0 then sc.width else 0 }

  function Rows(sc: Scene): nat { if sc.height > 0 then sc.height else 0 }

  /** Index of the first float of row y in every RGBA buffer: the rows before it, four floats per
      pixel (RowStartIsProduct: 4 * (y * width + 0), the source's index of column 0). */
  function RowStart(sc: Scene, y: nat): nat {
    if y == 0 then 0 else RowStart(sc, y - 1) + 4 * Cols(sc)
  }

  /** The row start is the source's 4 * (y * width) whenever the row has columns. */
  lemma {:induction false} RowStartIsProduct(sc: Scene, y: nat)
    ensures RowStart(sc, y) == 4 * (y * Cols(sc))
  {
    if y > 0 {
      RowStartIsProduct(sc, y - 1);
      assert (y - 1) * Cols(sc) + Cols(sc) == y * Cols(sc);
    }
  }

  /** The unnormalised direction of the ray through pixel (x, y): across the image plane from
      (-0.5, -0.5) towards (0.5, 0.5), one unit down the -z axis. */
  function PixelDir(sc: Scene, x: int, y: nat): (d: Float3)
    requires sc.width > 0 && sc.height > 0
    ensures 0 <= x < sc.width ==> -0.5 <= d[0] < 0.5
    ensures y < sc.height ==> -0.5 <= d[1] < 0.5
    ensures d[2] == -1.0
    ensures x == 0 ==> d[0] == -0.5
  {
    FractionBelowOne(x, sc.width);
    FractionBelowOne(y, sc.height);
    [x as real / sc.width as real - 0.5, y as real / sc.height as real - 0.5, -1.0]
  }

  /** A column or row index divided by the image size lies in [0, 1). */
  lemma FractionBelowOne(i: int, n: int)
    requires n > 0
    ensures 0 <= i < n ==> 0.0 <= i as real / n as real < 1.0
  {
    if 0 <= i < n {
      assert i as real < n as real;
      assert (i as real / n as real) * n as real == i as real;
    }
  }

  /** The direction of the ray of pixel (x, y): vnormalize of its unnormalised direction. */
  function RayDir(sc: Scene, x: int, y: nat): Float3
    requires sc.width > 0 && sc.height > 0
  {
    sc.normalize(PixelDir(sc, x, y))
  }

  /** The traversal result for the ray of pixel (x, y), cast from the eye. */
  function Traced(sc: Scene, x: int, y: nat): Hit
    requires sc.width > 0 && sc.height > 0
  {
    sc.traverse(sc.eye, RayDir(sc, x, y))
  }

  /** A hit names a triangle whose first-corner normal and UV the mesh holds (when it has any). */
  predicate InMesh(sc: Scene, h: Hit) {
    h.Hit? ==> && (|sc.normals| > 0 ==> 9 * h.primId + 2 < |sc.normals|)
               && (|sc.uvs| > 0 ==> 6 * h.primId + 1 < |sc.uvs|)
  }

  /** Every ray the render casts hits a triangle of the mesh or nothing. */
  predicate PrimsInMesh(sc: Scene) {
    forall x, y | 0 <= x < sc.width && 0 <= y < sc.height :: InMesh(sc, Traced(sc, x, y))
  }

  /** pass / max_passes, stored in the blue channel of a hit. */
  function PassFraction(pass: int, maxPasses: int): real {
    if maxPasses == 0 then 0.0 else pass as real / maxPasses as real
  }

  // ---------------------------------------------------------------------------------------------
  // What one pixel stores

  /** The five buffers a hit is scattered into: the colour buffer and the position, barycentric,
      normal and texcoord images of the configuration. */
  datatype Image = Rgba | Position | Varycoord | Normal | Texcoord

  /** Channel c of pixel (x, y) in image `img` after the pixel is shaded, where `prev` is what the
      channel held before: a miss writes nothing; a hit writes colour, position and barycentric
      channels, the normal only when the mesh has normals, and texcoord channels 0 and 1 only when
      it has UVs. */
  function Shaded(img: Image, prev: real, sc: Scene, x: int, y: nat, c: int): (r: real)
    requires 0 <= x < sc.width && y < sc.height && 0 <= c < 4 && PrimsInMesh(sc)
    ensures Traced(sc, x, y) == Miss ==> r == prev
    ensures img == Normal && |sc.normals| == 0 ==> r == prev
    ensures img == Texcoord && (|sc.uvs| == 0 || c >= 2) ==> r == prev
    ensures Traced(sc, x, y).Hit? && c == 3 && img != Texcoord && (img == Normal ==> |sc.normals| > 0) ==> r == 1.0
  {
    match Traced(sc, x, y)
    case Miss => prev
    case Hit(t, u, v, prim) =>
      assert InMesh(sc, Traced(sc, x, y));
      match img
      case Rgba =>
        [x as real / sc.width as real, y as real / sc.height as real, PassFraction(sc.pass, sc.maxPasses), 1.0][c]
      case Position =>
        if c < 3 then sc.eye[c] + t * RayDir(sc, x, y)[c] else 1.0
      case Varycoord =>
        [u, v, 0.0, 1.0][c]
      case Normal =>
        if |sc.normals| == 0 then prev
        else if c < 3 then 0.5 * sc.normals[9 * prim + c] + 0.5
        else 1.0
      case Texcoord =>
        if |sc.uvs| > 0 && c < 2 then sc.uvs[6 * prim + c] else prev
  }

  // ---------------------------------------------------------------------------------------------
  // One row, as specifications over buffer contents

  /** The progress value of channel c of column x: (x / 8) % 2 on the colour channels, 0 on alpha. */
  function DashValue(x: int, c: int): real {
    if c < 3 then ((x / 8) % 2) as real else 0.0
  }

  /** The aux buffer after the first n columns of row y got their progress dash. */
  function Dashed(aux: seq<real>, sc: Scene, y: nat, n: nat): (r: seq<real>)
    requires y < sc.height && n <= Cols(sc) && BufferSize(sc) <= |aux|
    ensures |r| == |aux|
  {
    RowFits(sc, y);
    var rs := RowStart(sc, y);
    seq(|aux|, j requires 0 <= j < |aux| => if rs <= j < rs + 4 * n then DashValue((j - rs) / 4, (j - rs) % 4) else aux[j])
  }

  /** The aux buffer after the first n columns of row y were zeroed. */
  function Cleared(aux: seq<real>, sc: Scene, y: nat, n: nat): (r: seq<real>)
    requires y < sc.height && n <= Cols(sc) && BufferSize(sc) <= |aux|
    ensures |r| == |aux|
  {
    RowFits(sc, y);
    var rs := RowStart(sc, y);
    seq(|aux|, j requires 0 <= j < |aux| => if rs <= j < rs + 4 * n then 0.0 else aux[j])
  }

  /** Image `img` after the pixels of the first n columns of row y were shaded. */
  function ShadedRow(img: Image, buf: seq<real>, sc: Scene, y: nat, n: nat): (r: seq<real>)
    requires y < sc.height && n <= Cols(sc) && BufferSize(sc) <= |buf| && PrimsInMesh(sc)
    ensures |r| == |buf|
  {
    RowFits(sc, y);
    var rs := RowStart(sc, y);
    seq(|buf|, j requires 0 <= j < |buf| =>
      if rs <= j < rs + 4 * n then Shaded(img, buf[j], sc, (j - rs) / 4, y, (j - rs) % 4) else buf[j])
  }

  /** The floats of a width x height RGBA buffer, 4 * width * height (BufferSizeIsProduct). */
  function BufferSize(sc: Scene): nat { RowStart(sc, Rows(sc)) }

  lemma BufferSizeIsProduct(sc: Scene)
    ensures BufferSize(sc) == 4 * (Rows(sc) * Cols(sc))
  {
    RowStartIsProduct(sc, Rows(sc));
  }

  /** Rows are laid out one after the other: row y ends no later than any later row starts. */
  lemma {:induction false} RowsOrdered(sc: Scene, y: nat, z: nat)
    requires y < z
    ensures RowStart(sc, y) + 4 * Cols(sc) <= RowStart(sc, z)
    decreases z
  {
    if y < z - 1 {
      RowsOrdered(sc, y, z - 1);
    }
  }

  /** Row y lies inside the buffer. */
  lemma RowFits(sc: Scene, y: nat)
    requires y < sc.height
    ensures RowStart(sc, y) + 4 * Cols(sc) <= BufferSize(sc)
  {
    if y + 1 < Rows(sc) {
      RowsOrdered(sc, y + 1, Rows(sc));
    }
  }

  // ---------------------------------------------------------------------------------------------
  // The whole render, buffer by buffer

  /** The row the worker stops before: the first y below height at which the cancel check fires,
      or height when it never does. */
  function RowsDone(height: int, cancelled: int -> bool, y: nat): (r: nat)
    ensures y <= r && (r <= height || r == y)
    ensures forall k | y <= k < r :: !cancelled(k)
    ensures r < height ==> cancelled(r)
    decreases height - y
  {
    if y >= height || cancelled(y) then y else RowsDone(height, cancelled, y + 1)
  }

  /** Without cancellation every row in [0, height) is rendered. */
  lemma NoCancelRendersAll(height: int, cancelled: int -> bool)
    requires forall k :: !cancelled(k)
    ensures RowsDone(height, cancelled, 0) == if height > 0 then height else 0
  {
  }

  /** Image `img` after rows 0 .. rows - 1 were shaded, each once, in order. */
  function RenderedImage(img: Image, buf: seq<real>, sc: Scene, rows: nat): (r: seq<real>)
    requires rows <= Rows(sc) && BufferSize(sc) <= |buf| && PrimsInMesh(sc)
    ensures |r| == |buf|
  {
    if rows == 0 then buf
    else
      RowFits(sc, rows - 1);
      ShadedRow(img, RenderedImage(img, buf, sc, rows - 1), sc, rows - 1, Cols(sc))
  }

  /** The aux buffer after rows 0 .. rows - 1 each got their dash and were zeroed again. */
  function RenderedAux(aux: seq<real>, sc: Scene, rows: nat): (r: seq<real>)
    requires rows <= Rows(sc) && BufferSize(sc) <= |aux|
    ensures |r| == |aux|
  {
    if rows == 0 then aux
    else
      RowFits(sc, rows - 1);
      var n := Cols(sc);
      Cleared(Dashed(RenderedAux(aux, sc, rows - 1), sc, rows - 1, n), sc, rows - 1, n)
  }

  /** The floats past the first `rows` rows still hold what they held before the render. */
  lemma {:induction false} RenderedImageBeyond(img: Image, buf: seq<real>, sc: Scene, rows: nat, j: nat)
    requires rows <= Rows(sc) && BufferSize(sc) <= |buf| && PrimsInMesh(sc)
    requires RowStart(sc, rows) <= j < |buf|
    ensures RenderedImage(img, buf, sc, rows)[j] == buf[j]
  {
    if rows > 0 {
      RowsOrdered(sc, rows - 1, rows);
      RenderedImageBeyond(img, buf, sc, rows - 1, j);
    }
  }

  /** Each row is shaded exactly once: after the first `rows` rows, channel c of pixel (x, y) with
      y < rows is the shading of what the buffer held there before the render. */
  lemma {:induction false} RenderedImageRow(img: Image, buf: seq<real>, sc: Scene, rows: nat, y: nat, j: nat)
    requires rows <= Rows(sc) && BufferSize(sc) <= |buf| && PrimsInMesh(sc) && y < rows
    requires RowStart(sc, y) <= j < RowStart(sc, y) + 4 * Cols(sc)
    ensures j < |buf|
    ensures RenderedImage(img, buf, sc, rows)[j]
         == Shaded(img, buf[j], sc, (j - RowStart(sc, y)) / 4, y, (j - RowStart(sc, y)) % 4)
  {
    RowFits(sc, y);
    if y == rows - 1 {
      RenderedImageBeyond(img, buf, sc, y, j);
    } else {
      RowsOrdered(sc, y, rows - 1);
      RowFits(sc, rows - 1);
      var before := RenderedImage(img, buf, sc, rows - 1);
      assert RenderedImage(img, buf, sc, rows)[j] == before[j];
      RenderedImageRow(img, buf, sc, rows - 1, y, j);
    }
  }

  /** The aux floats past the first `rows` rows are untouched. */
  lemma {:induction false} RenderedAuxBeyond(aux: seq<real>, sc: Scene, rows: nat, j: nat)
    requires rows <= Rows(sc) && BufferSize(sc) <= |aux|
    requires RowStart(sc, rows) <= j < |aux|
    ensures RenderedAux(aux, sc, rows)[j] == aux[j]
  {
    if rows > 0 {
      RowsOrdered(sc, rows - 1, rows);
      RenderedAuxBeyond(aux, sc, rows - 1, j);
    }
  }

  /** Every rendered row of the aux buffer ends zeroed: the progress dash never survives a row. */
  lemma {:induction false} RenderedAuxCleared(aux: seq<real>, sc: Scene, rows: nat, j: nat)
    requires rows <= Rows(sc) && BufferSize(sc) <= |aux| && j < RowStart(sc, rows) && j < |aux|
    ensures RenderedAux(aux, sc, rows)[j] == 0.0
  {
    RowFits(sc, rows - 1);
    if j < RowStart(sc, rows - 1) {
      RenderedAuxCleared(aux, sc, rows - 1, j);
    }
  }

  // ---------------------------------------------------------------------------------------------
  // One pixel and one row, step by step

  /** Image `img` after pixel (x, y) alone was shaded. */
  function ShadedPixel(img: Image, buf: seq<real>, sc: Scene, x: nat, y: nat): (r: seq<real>)
    requires x < sc.width && y < sc.height && BufferSize(sc) <= |buf| && PrimsInMesh(sc)
    ensures |r| == |buf|
  {
    RowFits(sc, y);
    var p := RowStart(sc, y) + 4 * x;
    seq(|buf|, j requires 0 <= j < |buf| => if p <= j < p + 4 then Shaded(img, buf[j], sc, x, y, j - p) else buf[j])
  }

  /** A pixel written channel by channel: its four floats become the pixel's shading. */
  lemma PixelLayout(img: Image, buf: seq<real>, sc: Scene, x: nat, y: nat)
    requires x < sc.width && y < sc.height && BufferSize(sc) <= |buf| && PrimsInMesh(sc)
    ensures RowStart(sc, y) + 4 * x + 4 <= |buf|
    ensures var p := RowStart(sc, y) + 4 * x;
      ShadedPixel(img, buf, sc, x, y)
        == buf[p := Shaded(img, buf[p], sc, x, y, 0)][p + 1 := Shaded(img, buf[p + 1], sc, x, y, 1)]
              [p + 2 := Shaded(img, buf[p + 2], sc, x, y, 2)][p + 3 := Shaded(img, buf[p + 3], sc, x, y, 3)]
  {
    RowFits(sc, y);
  }

  /** A miss keeps every image as it was, and so does a hit for the normal image of a mesh
      without normals and for the texcoord image of a mesh without UVs. */
  lemma PixelKept(img: Image, buf: seq<real>, sc: Scene, x: nat, y: nat)
    requires x < sc.width && y < sc.height && BufferSize(sc) <= |buf| && PrimsInMesh(sc)
    requires || Traced(sc, x, y) == Miss
             || (img == Normal && |sc.normals| == 0)
             || (img == Texcoord && |sc.uvs| == 0)
    ensures ShadedPixel(img, buf, sc, x, y) == buf
  {
  }

  /** On a hit the colour pixel becomes (x / width, y / height, pass / max_passes, 1). */
  lemma HitRgba(buf: seq<real>, sc: Scene, x: nat, y: nat)
    requires x < sc.width && y < sc.height && BufferSize(sc) <= |buf| && PrimsInMesh(sc)
    requires Traced(sc, x, y).Hit?
    ensures RowStart(sc, y) + 4 * x + 4 <= |buf|
    ensures var p := RowStart(sc, y) + 4 * x;
      ShadedPixel(Rgba, buf, sc, x, y)
        == buf[p := x as real / sc.width as real][p + 1 := y as real / sc.height as real]
              [p + 2 := PassFraction(sc.pass, sc.maxPasses)][p + 3 := 1.0]
  {
    PixelLayout(Rgba, buf, sc, x, y);
  }

  /** On a hit the position pixel becomes the hit point eye + t * dir, with alpha 1. */
  lemma HitPosition(buf: seq<real>, sc: Scene, x: nat, y: nat, hit: Hit, dir: Float3)
    requires x < sc.width && y < sc.height && BufferSize(sc) <= |buf| && PrimsInMesh(sc)
    requires hit == Traced(sc, x, y) && hit.Hit? && dir == RayDir(sc, x, y)
    ensures RowStart(sc, y) + 4 * x + 4 <= |buf|
    ensures var p := RowStart(sc, y) + 4 * x;
      ShadedPixel(Position, buf, sc, x, y)
        == buf[p := sc.eye[0] + hit.t * dir[0]][p + 1 := sc.eye[1] + hit.t * dir[1]]
              [p + 2 := sc.eye[2] + hit.t * dir[2]][p + 3 := 1.0]
  {
    PixelLayout(Position, buf, sc, x, y);
    var p := RowStart(sc, y) + 4 * x;
    assert Shaded(Position, buf[p], sc, x, y, 0) == sc.eye[0] + hit.t * dir[0];
    assert Shaded(Position, buf[p + 1], sc, x, y, 1) == sc.eye[1] + hit.t * dir[1];
    assert Shaded(Position, buf[p + 2], sc, x, y, 2) == sc.eye[2] + hit.t * dir[2];
  }

  /** On a hit the barycentric pixel becomes (u, v, 0, 1). */
  lemma HitVarycoord(buf: seq<real>, sc: Scene, x: nat, y: nat)
    requires x < sc.width && y < sc.height && BufferSize(sc) <= |buf| && PrimsInMesh(sc)
    requires Traced(sc, x, y).Hit?
    ensures RowStart(sc, y) + 4 * x + 4 <= |buf|
    ensures var p := RowStart(sc, y) + 4 * x;
            var h := Traced(sc, x, y);
      ShadedPixel(Varycoord, buf, sc, x, y) == buf[p := h.u][p + 1 := h.v][p + 2 := 0.0][p + 3 := 1.0]
  {
    PixelLayout(Varycoord, buf, sc, x, y);
  }

  /** On a hit, in a mesh with normals, the normal pixel becomes 0.5 * n + 0.5 of the first
      corner normal of the triangle hit, with alpha 1. */
  lemma HitNormal(buf: seq<real>, sc: Scene, x: nat, y: nat, prim: nat)
    requires x < sc.width && y < sc.height && BufferSize(sc) <= |buf| && PrimsInMesh(sc)
    requires Traced(sc, x, y).Hit? && |sc.normals| > 0 && prim == Traced(sc, x, y).primId
    ensures RowStart(sc, y) + 4 * x + 4 <= |buf|
    ensures 9 * prim + 2 < |sc.normals|
    ensures var p := RowStart(sc, y) + 4 * x;
            var q := 9 * prim;
      ShadedPixel(Normal, buf, sc, x, y)
        == buf[p := 0.5 * sc.normals[q] + 0.5][p + 1 := 0.5 * sc.normals[q + 1] + 0.5]
              [p + 2 := 0.5 * sc.normals[q + 2] + 0.5][p + 3 := 1.0]
  {
    assert InMesh(sc, Traced(sc, x, y));
    PixelLayout(Normal, buf, sc, x, y);
  }

  /** On a hit, in a mesh with UVs, channels 0 and 1 of the texcoord pixel become the first
      corner UV of the triangle hit; channels 2 and 3 keep their values. */
  lemma HitTexcoord(buf: seq<real>, sc: Scene, x: nat, y: nat, prim: nat)
    requires x < sc.width && y < sc.height && BufferSize(sc) <= |buf| && PrimsInMesh(sc)
    requires Traced(sc, x, y).Hit? && |sc.uvs| > 0 && prim == Traced(sc, x, y).primId
    ensures RowStart(sc, y) + 4 * x + 4 <= |buf|
    ensures 6 * prim + 1 < |sc.uvs|
    ensures var p := RowStart(sc, y) + 4 * x;
            var q := 6 * prim;
      ShadedPixel(Texcoord, buf, sc, x, y) == buf[p := sc.uvs[q]][p + 1 := sc.uvs[q + 1]]
  {
    assert InMesh(sc, Traced(sc, x, y));
    PixelLayout(Texcoord, buf, sc, x, y);
  }

  /** Shading one more column of a row is shading that column's pixel. */
  lemma ShadedRowStep(img: Image, buf: seq<real>, sc: Scene, y: nat, x: nat)
    requires x < Cols(sc) && y < sc.height && BufferSize(sc) <= |buf| && PrimsInMesh(sc)
    ensures ShadedRow(img, buf, sc, y, x + 1) == ShadedPixel(img, ShadedRow(img, buf, sc, y, x), sc, x, y)
  {
    RowFits(sc, y);
    var rs := RowStart(sc, y);
    forall j | 0 <= j < |buf|
      ensures ShadedRow(img, buf, sc, y, x + 1)[j] == ShadedPixel(img, ShadedRow(img, buf, sc, y, x), sc, x, y)[j]
    {
      if rs + 4 * x <= j < rs + 4 * x + 4 {
        assert (j - rs) / 4 == x && (j - rs) % 4 == j - (rs + 4 * x);
      }
    }
  }

  /** Dashing one more column of the aux row writes that column's four dash values. */
  lemma DashedStep(aux: seq<real>, sc: Scene, y: nat, x: nat)
    requires y < sc.height && x < Cols(sc) && BufferSize(sc) <= |aux|
    ensures RowStart(sc, y) + 4 * x + 4 <= |aux|
    ensures var p := RowStart(sc, y) + 4 * x;
      Dashed(aux, sc, y, x + 1)
        == Dashed(aux, sc, y, x)[p := DashValue(x, 0)][p + 1 := DashValue(x, 1)]
                                [p + 2 := DashValue(x, 2)][p + 3 := DashValue(x, 3)]
  {
    RowFits(sc, y);
    var rs := RowStart(sc, y);
    var p := rs + 4 * x;
    var written := Dashed(aux, sc, y, x)[p := DashValue(x, 0)][p + 1 := DashValue(x, 1)]
                                        [p + 2 := DashValue(x, 2)][p + 3 := DashValue(x, 3)];
    forall j | 0 <= j < |aux|
      ensures Dashed(aux, sc, y, x + 1)[j] == written[j]
    {
      if j == p {
        assert (j - rs) / 4 == x && (j - rs) % 4 == 0;
      } else if j == p + 1 {
        assert (j - rs) / 4 == x && (j - rs) % 4 == 1;
      } else if j == p + 2 {
        assert (j - rs) / 4 == x && (j - rs) % 4 == 2;
      } else if j == p + 3 {
        assert (j - rs) / 4 == x && (j - rs) % 4 == 3;
      }
    }
  }

  /** Zeroing one more column of the aux row zeroes that column's four floats. */
  lemma ClearedStep(aux: seq<real>, sc: Scene, y: nat, x: nat)
    requires y < sc.height && x < Cols(sc) && BufferSize(sc) <= |aux|
    ensures RowStart(sc, y) + 4 * x + 4 <= |aux|
    ensures var p := RowStart(sc, y) + 4 * x;
      Cleared(aux, sc, y, x + 1) == Cleared(aux, sc, y, x)[p := 0.0][p + 1 := 0.0][p + 2 := 0.0][p + 3 := 0.0]
  {
    RowFits(sc, y);
  }

  /** The colour and aux buffers Render is handed and the position, barycentric, normal and
      texcoord images of the configuration: six float arrays of 4 floats per pixel. */
  class Framebuffers {
    const rgba: array<real>
    const aux: array<real>
    const position: array<real>
    const varycoord: array<real>
    const normal: array<real>
    const texcoord: array<real>

    /** No two buffers share storage. */
    predicate Distinct() {
      && rgba != aux && rgba != position && rgba != varycoord && rgba != normal && rgba != texcoord
      && aux != position && aux != varycoord && aux != normal && aux != texcoord
      && position != varycoord && position != normal && position != texcoord
      && varycoord != normal && varycoord != texcoord
      && normal != texcoord
    }

    /** Every buffer holds the width * height pixels of the scene. */
    predicate Holds(sc: Scene) {
      var size := BufferSize(sc);
      && size <= rgba.Length && size <= aux.Length && size <= position.Length
      && size <= varycoord.Length && size <= normal.Length && size <= texcoord.Length
    }

    /** Six fresh zeroed buffers of `size` floats each. */
    constructor(size: nat)
      ensures Distinct()
      ensures rgba.Length == size && aux.Length == size && position.Length == size
      ensures varycoord.Length == size && normal.Length == size && texcoord.Length == size
      ensures fresh(rgba) && fresh(aux) && fresh(position) && fresh(varycoord) && fresh(normal) && fresh(texcoord)
    {
      rgba := new real[size](_ => 0.0);
      aux := new real[size](_ => 0.0);
      position := new real[size](_ => 0.0);
      varycoord := new real[size](_ => 0.0);
      normal := new real[size](_ => 0.0);
      texcoord := new real[size](_ => 0.0);
    }

    /** The first x loop of a row: the progress dash across row y of the aux buffer. */
    method DrawProgressRow(sc: Scene, y: nat)
      requires y < sc.height && Holds(sc)
      modifies aux
      ensures aux[..] == Dashed(old(aux[..]), sc, y, Cols(sc))
    {
      RowFits(sc, y);
      RowStartIsProduct(sc, y);
      ghost var before := aux[..];
      var x := 0;
      while x < sc.width
        invariant x <= Cols(sc)
        invariant aux[..] == Dashed(before, sc, y, x)
      {
        var p := 4 * (y * sc.width + x);
        assert p == RowStart(sc, y) + 4 * x;
        var c := ((x / 8) % 2) as real;
        aux[p] := c;
        aux[p + 1] := c;
        aux[p + 2] := c;
        aux[p + 3] := 0.0;
        DashedStep(before, sc, y, x);
        x := x + 1;
      }
    }

    /** The body of the second x loop: traverse the ray of pixel (x, y) and, on a hit, scatter
        it into the colour, position, barycentric, normal and texcoord images. */
    method ScatterPixel(sc: Scene, x: nat, y: nat)
      requires x < sc.width && y < sc.height && PrimsInMesh(sc) && Holds(sc) && Distinct()
      modifies rgba, position, varycoord, normal, texcoord
      ensures rgba[..] == ShadedPixel(Rgba, old(rgba[..]), sc, x, y)
      ensures position[..] == ShadedPixel(Position, old(position[..]), sc, x, y)
      ensures varycoord[..] == ShadedPixel(Varycoord, old(varycoord[..]), sc, x, y)
      ensures normal[..] == ShadedPixel(Normal, old(normal[..]), sc, x, y)
      ensures texcoord[..] == ShadedPixel(Texcoord, old(texcoord[..]), sc, x, y)
    {
      RowStartIsProduct(sc, y);
      var p := 4 * (y * sc.width + x);
      assert p == RowStart(sc, y) + 4 * x;
      var dir := sc.normalize([x as real / sc.width as real - 0.5, y as real / sc.height as real - 0.5, -1.0]);
      var hit := sc.traverse(sc.eye, dir);
      assert dir == RayDir(sc, x, y) && hit == Traced(sc, x, y);
      if hit.Hit? {
        StoreColour(sc, x, y, hit, dir, p);
        StorePosition(sc, x, y, hit, dir, p);
        StoreVarycoord(sc, x, y, hit, dir, p);
        StoreNormal(sc, x, y, hit, dir, p);
        StoreTexcoord(sc, x, y, hit, dir, p);
      } else {
        PixelKept(Rgba, rgba[..], sc, x, y);
        PixelKept(Position, position[..], sc, x, y);
        PixelKept(Varycoord, varycoord[..], sc, x, y);
        PixelKept(Normal, normal[..], sc, x, y);
        PixelKept(Texcoord, texcoord[..], sc, x, y);
      }
    }

    /** A hit's colour: (x / width, y / height, pass / max_passes, 1). */
    method StoreColour(sc: Scene, x: nat, y: nat, hit: Hit, dir: Float3, p: nat)
      requires x < sc.width && y < sc.height && PrimsInMesh(sc) && Holds(sc)
      requires hit == Traced(sc, x, y) && hit.Hit? && dir == RayDir(sc, x, y) && p == RowStart(sc, y) + 4 * x
      modifies rgba
      ensures rgba[..] == ShadedPixel(Rgba, old(rgba[..]), sc, x, y)
    {
      HitRgba(rgba[..], sc, x, y);
      rgba[p] := x as real / sc.width as real;
      rgba[p + 1] := y as real / sc.height as real;
      rgba[p + 2] := PassFraction(sc.pass, sc.maxPasses);
      rgba[p + 3] := 1.0;
    }

    /** A hit's position: the point eye + t * dir, alpha 1. */
    method StorePosition(sc: Scene, x: nat, y: nat, hit: Hit, dir: Float3, p: nat)
      requires x < sc.width && y < sc.height && PrimsInMesh(sc) && Holds(sc)
      requires hit == Traced(sc, x, y) && hit.Hit? && dir == RayDir(sc, x, y) && p == RowStart(sc, y) + 4 * x
      modifies position
      ensures position[..] == ShadedPixel(Position, old(position[..]), sc, x, y)
    {
      HitPosition(position[..], sc, x, y, hit, dir);
      position[p] := sc.eye[0] + hit.t * dir[0];
      position[p + 1] := sc.eye[1] + hit.t * dir[1];
      position[p + 2] := sc.eye[2] + hit.t * dir[2];
      position[p + 3] := 1.0;
    }

    /** A hit's barycentric coordinates: (u, v, 0, 1). */
    method StoreVarycoord(sc: Scene, x: nat, y: nat, hit: Hit, dir: Float3, p: nat)
      requires x < sc.width && y < sc.height && PrimsInMesh(sc) && Holds(sc)
      requires hit == Traced(sc, x, y) && hit.Hit? && dir == RayDir(sc, x, y) && p == RowStart(sc, y) + 4 * x
      modifies varycoord
      ensures varycoord[..] == ShadedPixel(Varycoord, old(varycoord[..]), sc, x, y)
    {
      HitVarycoord(varycoord[..], sc, x, y);
      varycoord[p] := hit.u;
      varycoord[p + 1] := hit.v;
      varycoord[p + 2] := 0.0;
      varycoord[p + 3] := 1.0;
    }

    /** A hit's normal, written only when the mesh has face-varying normals. */
    method StoreNormal(sc: Scene, x: nat, y: nat, hit: Hit, dir: Float3, p: nat)
      requires x < sc.width && y < sc.height && PrimsInMesh(sc) && Holds(sc)
      requires hit == Traced(sc, x, y) && hit.Hit? && dir == RayDir(sc, x, y) && p == RowStart(sc, y) + 4 * x
      modifies normal
      ensures normal[..] == ShadedPixel(Normal, old(normal[..]), sc, x, y)
    {
      var prim := hit.primId;
      if |sc.normals| > 0 {
        HitNormal(normal[..], sc, x, y, prim);
        normal[p] := 0.5 * sc.normals[9 * prim + 0] + 0.5;
        normal[p + 1] := 0.5 * sc.normals[9 * prim + 1] + 0.5;
        normal[p + 2] := 0.5 * sc.normals[9 * prim + 2] + 0.5;
        normal[p + 3] := 1.0;
      } else {
        PixelKept(Normal, normal[..], sc, x, y);
      }
    }

    /** A hit's UV, channels 0 and 1 only, written only when the mesh has face-varying UVs. */
    method StoreTexcoord(sc: Scene, x: nat, y: nat, hit: Hit, dir: Float3, p: nat)
      requires x < sc.width && y < sc.height && PrimsInMesh(sc) && Holds(sc)
      requires hit == Traced(sc, x, y) && hit.Hit? && dir == RayDir(sc, x, y) && p == RowStart(sc, y) + 4 * x
      modifies texcoord
      ensures texcoord[..] == ShadedPixel(Texcoord, old(texcoord[..]), sc, x, y)
    {
      var prim := hit.primId;
      if |sc.uvs| > 0 {
        HitTexcoord(texcoord[..], sc, x, y, prim);
        texcoord[p] := sc.uvs[6 * prim + 0];
        texcoord[p + 1] := sc.uvs[6 * prim + 1];
      } else {
        PixelKept(Texcoord, texcoord[..], sc, x, y);
      }
    }

    /** The second x loop of a row: every pixel of row y is traced and scattered. */
    method ShadeRow(sc: Scene, y: nat)
      requires y < sc.height && PrimsInMesh(sc) && Holds(sc) && Distinct()
      modifies rgba, position, varycoord, normal, texcoord
      ensures rgba[..] == ShadedRow(Rgba, old(rgba[..]), sc, y, Cols(sc))
      ensures position[..] == ShadedRow(Position, old(position[..]), sc, y, Cols(sc))
      ensures varycoord[..] == ShadedRow(Varycoord, old(varycoord[..]), sc, y, Cols(sc))
      ensures normal[..] == ShadedRow(Normal, old(normal[..]), sc, y, Cols(sc))
      ensures texcoord[..] == ShadedRow(Texcoord, old(texcoord[..]), sc, y, Cols(sc))
    {
      RowFits(sc, y);
      ghost var r0, p0, v0, n0, t0 := rgba[..], position[..], varycoord[..], normal[..], texcoord[..];
      var x := 0;
      while x < sc.width
        invariant x <= Cols(sc)
        invariant rgba[..] == ShadedRow(Rgba, r0, sc, y, x)
        invariant position[..] == ShadedRow(Position, p0, sc, y, x)
        invariant varycoord[..] == ShadedRow(Varycoord, v0, sc, y, x)
        invariant normal[..] == ShadedRow(Normal, n0, sc, y, x)
        invariant texcoord[..] == ShadedRow(Texcoord, t0, sc, y, x)
      {
        ScatterPixel(sc, x, y);
        ShadedRowStep(Rgba, r0, sc, y, x);
        ShadedRowStep(Position, p0, sc, y, x);
        ShadedRowStep(Varycoord, v0, sc, y, x);
        ShadedRowStep(Normal, n0, sc, y, x);
        ShadedRowStep(Texcoord, t0, sc, y, x);
        x := x + 1;
      }
    }

    /** The third x loop of a row: row y of the aux buffer is zeroed. */
    method ClearProgressRow(sc: Scene, y: nat)
      requires y < sc.height && Holds(sc)
      modifies aux
      ensures aux[..] == Cleared(old(aux[..]), sc, y, Cols(sc))
    {
      RowFits(sc, y);
      RowStartIsProduct(sc, y);
      ghost var before := aux[..];
      var x := 0;
      while x < sc.width
        invariant x <= Cols(sc)
        invariant aux[..] == Cleared(before, sc, y, x)
      {
        var p := 4 * (y * sc.width + x);
        assert p == RowStart(sc, y) + 4 * x;
        aux[p] := 0.0;
        aux[p + 1] := 0.0;
        aux[p + 2] := 0.0;
        aux[p + 3] := 0.0;
        ClearedStep(before, sc, y, x);
        x := x + 1;
      }
    }

    /** The body of the worker loop for row y: dash, shade, clear. */
    method RenderRow(sc: Scene, y: nat)
      requires y < sc.height && PrimsInMesh(sc) && Holds(sc) && Distinct()
      modifies rgba, aux, position, varycoord, normal, texcoord
      ensures aux[..] == Cleared(Dashed(old(aux[..]), sc, y, Cols(sc)), sc, y, Cols(sc))
      ensures rgba[..] == ShadedRow(Rgba, old(rgba[..]), sc, y, Cols(sc))
      ensures position[..] == ShadedRow(Position, old(position[..]), sc, y, Cols(sc))
      ensures varycoord[..] == ShadedRow(Varycoord, old(varycoord[..]), sc, y, Cols(sc))
      ensures normal[..] == ShadedRow(Normal, old(normal[..]), sc, y, Cols(sc))
      ensures texcoord[..] == ShadedRow(Texcoord, old(texcoord[..]), sc, y, Cols(sc))
    {
      DrawProgressRow(sc, y);
      ShadeRow(sc, y);
      ClearProgressRow(sc, y);
    }

    /** Renderer::Render with one worker: false, writing nothing, when the accelerator is not
        valid; otherwise rows 0, 1, ... are rendered in order until the last row or the first row
        at which the cancel check fires (`cancelled(y)`), and the result is true. */
    method Render(sc: Scene, accelValid: bool, cancelled: int -> bool) returns (ok: bool)
      requires PrimsInMesh(sc) && Holds(sc) && Distinct()
      modifies rgba, aux, position, varycoord, normal, texcoord
      ensures ok == accelValid
      ensures !ok ==> && unchanged(rgba) && unchanged(aux) && unchanged(position)
                      && unchanged(varycoord) && unchanged(normal) && unchanged(texcoord)
      ensures ok ==> var rows := RowsDone(sc.height, cancelled, 0);
        && rows <= Rows(sc)
        && aux[..] == RenderedAux(old(aux[..]), sc, rows)
        && rgba[..] == RenderedImage(Rgba, old(rgba[..]), sc, rows)
        && position[..] == RenderedImage(Position, old(position[..]), sc, rows)
        && varycoord[..] == RenderedImage(Varycoord, old(varycoord[..]), sc, rows)
        && normal[..] == RenderedImage(Normal, old(normal[..]), sc, rows)
        && texcoord[..] == RenderedImage(Texcoord, old(texcoord[..]), sc, rows)
    {
      if !accelValid {
        return false;
      }
      ghost var a0, r0, p0, v0, n0, t0 := aux[..], rgba[..], position[..], varycoord[..], normal[..], texcoord[..];
      var y := 0;
      while y < sc.height
        invariant y <= Rows(sc)
        invariant RowsDone(sc.height, cancelled, y) == RowsDone(sc.height, cancelled, 0)
        invariant aux[..] == RenderedAux(a0, sc, y)
        invariant rgba[..] == RenderedImage(Rgba, r0, sc, y)
        invariant position[..] == RenderedImage(Position, p0, sc, y)
        invariant varycoord[..] == RenderedImage(Varycoord, v0, sc, y)
        invariant normal[..] == RenderedImage(Normal, n0, sc, y)
        invariant texcoord[..] == RenderedImage(Texcoord, t0, sc, y)
      {
        if cancelled(y) {
          break;
        }
        RenderRow(sc, y);
        y := y + 1;
      }
      return true;
    }
  }
}
