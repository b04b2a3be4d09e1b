/**
 * The coordinate helpers of webgl-toolkit.mjs and tools.mjs: flat lists of
 * 2-D vertices for a rectangle, for sprite pivots and for atlas UVs, and the
 * projection matrix that maps pixel space to clip space.
 *
 * A flat coordinate list holds x0, y0, x1, y1, ...; `Vertex(s, k)` is its
 * k-th point.  Coordinates are reals: the conversion to 32-bit floats that
 * the source performs when uploading is not modelled.
 */
module Geometry {

  type Point = (real, real)

  /** An atlas entry: the sprite's top-left pixel and its size in pixels. */
  datatype Sprite = Sprite(position: Point, size: Point)

  /** A decoded image; only its dimensions matter to the core. */
  datatype Image = Image(width: nat, height: nat)

  /** A float as the source computes it here: finite, or an infinity from dividing by zero. */
  datatype Scalar = Finite(value: real) | PosInfinity | NegInfinity

  /** The k-th 2-D vertex of a flat coordinate list. */
  function Vertex(coords: seq<real>, k: nat): Point
    requires 2 * k + 1 < |coords|
  {
    (coords[2 * k], coords[2 * k + 1])
  }

  // ---------------------------------------------------------------------------
  // Rectangles
  // ---------------------------------------------------------------------------

  /**
   * getRectangleCoords: six vertices, two triangles.  The first triangle is
   * top-left, top-right, bottom-left; the second is bottom-left, top-right,
   * bottom-right, so the two share the diagonal from top-right to bottom-left.
   */
  function RectangleCoords(x: real, y: real, width: real, height: real): (r: seq<real>)
    ensures |r| == 12
    ensures Vertex(r, 0) == (x, y)
    ensures Vertex(r, 1) == (x + width, y)
    ensures Vertex(r, 2) == (x, y + height)
    ensures Vertex(r, 3) == Vertex(r, 2) && Vertex(r, 4) == Vertex(r, 1)
    ensures Vertex(r, 5) == (x + width, y + height)
  {
    var x1, x2, y1, y2 := x, x + width, y, y + height;
    [x1, y1, x2, y1, x1, y2,
     x1, y2, x2, y1, x2, y2]
  }

  /** The axis-aligned rectangle [x, x + width] x [y, y + height] as a point set. */
  predicate InRectangle(p: Point, x: real, y: real, width: real, height: real) {
    x <= p.0 <= x + width && y <= p.1 <= y + height
  }

  /** Twice the signed area of the triangle a, b, p. */
  function Cross(a: Point, b: Point, p: Point): real {
    (b.0 - a.0) * (p.1 - a.1) - (b.1 - a.1) * (p.0 - a.0)
  }

  /** p lies in the closed triangle a, b, c (of either winding). */
  predicate InTriangle(p: Point, a: Point, b: Point, c: Point) {
    var d1, d2, d3 := Cross(a, b, p), Cross(b, c, p), Cross(c, a, p);
    (d1 >= 0.0 && d2 >= 0.0 && d3 >= 0.0) || (d1 <= 0.0 && d2 <= 0.0 && d3 <= 0.0)
  }

  /** p is covered by one of the two triangles of a six-vertex list, as drawn with TRIANGLES. */
  predicate CoveredByQuad(coords: seq<real>, p: Point)
    requires |coords| == 12
  {
    InTriangle(p, Vertex(coords, 0), Vertex(coords, 1), Vertex(coords, 2)) ||
    InTriangle(p, Vertex(coords, 3), Vertex(coords, 4), Vertex(coords, 5))
  }

  lemma ScaleMonotone(a: real, b: real, c: real)
    requires a > 0.0
    ensures a * b <= a * c <==> b <= c
  {
    if b <= c {
      assert a * c - a * b == a * (c - b);
    } else {
      assert a * b - a * c == a * (b - c);
    }
  }

  /**
   * The sign cases of the two triangles' edge tests, with a and b the
   * scaled offsets along the two sides and c the scaled area.
   */
  lemma QuadCases(a: real, b: real, c: real)
    requires c > 0.0
    ensures ((a >= 0.0 && c - a - b >= 0.0 && b >= 0.0) || (a <= 0.0 && c - a - b <= 0.0 && b <= 0.0) ||
             (a + b - c >= 0.0 && c - b >= 0.0 && c - a >= 0.0) || (a + b - c <= 0.0 && c - b <= 0.0 && c - a <= 0.0))
            <==> (0.0 <= a <= c && 0.0 <= b <= c)
  {
  }

  /**
   * The two triangles of getRectangleCoords cover exactly the rectangle:
   * no point of the rectangle is missed and no point outside it is drawn.
   */
  lemma RectangleIsTwoTriangles(x: real, y: real, width: real, height: real, p: Point)
    requires width > 0.0 && height > 0.0
    ensures CoveredByQuad(RectangleCoords(x, y, width, height), p) <==> InRectangle(p, x, y, width, height)
  {
    var dx, dy := p.0 - x, p.1 - y;
    RectangleEdgeTests(x, y, width, height, p);
    ScaledBounds(width, height, dx, dy);
    QuadCases(width * dy, height * dx, width * height);
  }

  /** The six edge tests reduce to three products of the offsets with the sides. */
  lemma RectangleEdgeTests(x: real, y: real, width: real, height: real, p: Point)
    ensures var r := RectangleCoords(x, y, width, height);
      var a, b, c := width * (p.1 - y), height * (p.0 - x), width * height;
      Cross(Vertex(r, 0), Vertex(r, 1), p) == a &&
      Cross(Vertex(r, 1), Vertex(r, 2), p) == c - a - b &&
      Cross(Vertex(r, 2), Vertex(r, 0), p) == b &&
      Cross(Vertex(r, 3), Vertex(r, 4), p) == a + b - c &&
      Cross(Vertex(r, 4), Vertex(r, 5), p) == c - b &&
      Cross(Vertex(r, 5), Vertex(r, 3), p) == c - a
  {
    var dx, dy := p.0 - x, p.1 - y;
    assert height * (p.0 - (x + width)) == height * dx - width * height;
    assert width * (p.1 - (y + height)) == width * dy - width * height;
  }

  /** With positive sides, the scaled offsets lie between 0 and the scaled area exactly when the offsets lie in the sides. */
  lemma ScaledBounds(width: real, height: real, dx: real, dy: real)
    requires width > 0.0 && height > 0.0
    ensures 0.0 <= width * dy <= width * height <==> 0.0 <= dy <= height
    ensures 0.0 <= height * dx <= width * height <==> 0.0 <= dx <= width
  {
    ScaleMonotone(width, dy, height);
    ScaleMonotone(width, 0.0, dy);
    ScaleMonotone(height, dx, width);
    ScaleMonotone(height, 0.0, dx);
    assert height * width == width * height;
  }

  // ---------------------------------------------------------------------------
  // Pivots and UVs
  // ---------------------------------------------------------------------------

  /** getPivotPoints: the same offset, minus half the sprite's size, for each of the six vertices. */
  function PivotPoints(width: real, height: real): (r: seq<real>)
    ensures |r| == 12
    ensures forall k :: 0 <= k < 6 ==> Vertex(r, k) == (-0.5 * width, -0.5 * height)
  {
    var pair := [-0.5 * width, -0.5 * height];
    pair + pair + pair + pair + pair + pair
  }

  /**
   * Shifting a sprite's quad at the origin by its pivot offsets centres it on
   * the origin: the top-left and bottom-right corners become mirror images.
   */
  lemma PivotCentresQuad(width: real, height: real)
    ensures var q, v := RectangleCoords(0.0, 0.0, width, height), PivotPoints(width, height);
      q[0] + v[0] == -(q[10] + v[10]) && q[1] + v[1] == -(q[11] + v[11]) &&
      q[0] + v[0] == -0.5 * width && q[1] + v[1] == -0.5 * height
  {
    var v := PivotPoints(width, height);
    assert Vertex(v, 0) == (-0.5 * width, -0.5 * height);
    assert Vertex(v, 5) == (-0.5 * width, -0.5 * height);
  }

  /**
   * getUvFromSpriteData: the sprite's rectangle divided by the image size.
   * Scaling each UV vertex back by the image size gives the sprite's pixel
   * rectangle.
   */
  function UvFromSpriteData(image: Image, sprite: Sprite): (r: seq<real>)
    requires image.width > 0 && image.height > 0
    ensures |r| == 12
    ensures var px := RectangleCoords(sprite.position.0, sprite.position.1, sprite.size.0, sprite.size.1);
      forall k :: 0 <= k < 6 ==>
        Vertex(r, k).0 * (image.width as real) == Vertex(px, k).0 &&
        Vertex(r, k).1 * (image.height as real) == Vertex(px, k).1
  {
    var w, h := image.width as real, image.height as real;
    RectangleCoords(sprite.position.0 / w, sprite.position.1 / h, sprite.size.0 / w, sprite.size.1 / h)
  }

  /** The sprite's rectangle lies inside the image. */
  predicate SpriteInside(image: Image, sprite: Sprite) {
    0.0 <= sprite.position.0 && 0.0 <= sprite.size.0 && sprite.position.0 + sprite.size.0 <= image.width as real &&
    0.0 <= sprite.position.1 && 0.0 <= sprite.size.1 && sprite.position.1 + sprite.size.1 <= image.height as real
  }

  lemma QuotientInUnit(n: real, d: real)
    requires d > 0.0 && 0.0 <= n <= d
    ensures 0.0 <= n / d <= 1.0
  {
    assert d * (n / d) == n;
    ScaleMonotone(d, n / d, 1.0);
    ScaleMonotone(d, 0.0, n / d);
  }

  lemma QuotientSum(a: real, b: real, d: real)
    requires d != 0.0
    ensures a / d + b / d == (a + b) / d
  {
    var x, y := a / d + b / d, (a + b) / d;
    assert d * x == a + b;
    assert d * y == a + b;
    assert d * (x - y) == 0.0;
  }

  /** A sprite inside the image has every UV component in [0, 1]. */
  lemma UvWithinUnitSquare(image: Image, sprite: Sprite)
    requires image.width > 0 && image.height > 0
    requires SpriteInside(image, sprite)
    ensures var r := UvFromSpriteData(image, sprite);
      forall i :: 0 <= i < |r| ==> 0.0 <= r[i] <= 1.0
  {
    var w, h := image.width as real, image.height as real;
    var (px, py) := sprite.position;
    var (sw, sh) := sprite.size;
    QuotientInUnit(px, w);
    QuotientInUnit(px + sw, w);
    QuotientInUnit(py, h);
    QuotientInUnit(py + sh, h);
    QuotientSum(px, sw, w);
    QuotientSum(py, sh, h);
    var r := UvFromSpriteData(image, sprite);
    forall i | 0 <= i < |r| ensures 0.0 <= r[i] <= 1.0 {
      var k := i / 2;
      assert Vertex(r, k) == (r[2 * k], r[2 * k + 1]);
    }
  }

  /**
   * Sprite 1 of the atlas demos, at (450, 100) with size 160 x 160, in an
   * image taken to be 800 x 600 (the demos load the image from a file).
   */
  lemma AtlasDemoSpriteUv()
    ensures var image, sprite := Image(800, 600), Sprite((450.0, 100.0), (160.0, 160.0));
      UvFromSpriteData(image, sprite) == RectangleCoords(450.0 / 800.0, 100.0 / 600.0, 160.0 / 800.0, 160.0 / 600.0) &&
      forall i :: 0 <= i < 12 ==> 0.0 <= UvFromSpriteData(image, sprite)[i] <= 1.0
  {
    UvWithinUnitSquare(Image(800, 600), Sprite((450.0, 100.0), (160.0, 160.0)));
  }

  /** The UVs used when none are given: the whole image. */
  const DefaultUv: seq<real> := [0.0, 0.0, 1.0, 0.0, 0.0, 1.0, 0.0, 1.0, 1.0, 0.0, 1.0, 1.0]

  lemma DefaultUvIsUnitRectangle()
    ensures DefaultUv == RectangleCoords(0.0, 0.0, 1.0, 1.0)
    ensures forall i :: 0 <= i < |DefaultUv| ==> 0.0 <= DefaultUv[i] <= 1.0
  {
  }

  // ---------------------------------------------------------------------------
  // Atlases: `.map(...).flat()` over the sprites
  // ---------------------------------------------------------------------------

  /** Concatenation of the chunks, in order. */
  function Flatten(chunks: seq<seq<real>>): seq<real> {
    if chunks == [] then [] else chunks[0] + Flatten(chunks[1..])
  }

  lemma {:induction false} FlattenLength(chunks: seq<seq<real>>, n: nat)
    requires forall j :: 0 <= j < |chunks| ==> |chunks[j]| == n
    ensures |Flatten(chunks)| == n * |chunks|
  {
    if chunks != [] {
      var tail := chunks[1..];
      assert forall j :: 0 <= j < |tail| ==> |tail[j]| == n by {
        forall j | 0 <= j < |tail| ensures |tail[j]| == n {
          assert tail[j] == chunks[j + 1];
        }
      }
      FlattenLength(tail, n);
      assert n * |chunks| == n + n * |tail|;
    }
  }

  /** With chunks of n numbers each, chunk i occupies [n * i, n * i + n) of the flat list. */
  lemma {:induction false} FlattenChunk(chunks: seq<seq<real>>, n: nat, i: nat)
    requires forall j :: 0 <= j < |chunks| ==> |chunks[j]| == n
    requires i < |chunks|
    ensures n * i + n <= |Flatten(chunks)|
    ensures Flatten(chunks)[n * i .. n * i + n] == chunks[i]
  {
    var tail := chunks[1..];
    var rest := Flatten(tail);
    assert Flatten(chunks) == chunks[0] + rest;
    assert |chunks[0]| == n;
    if i == 0 {
      assert (chunks[0] + rest)[0 .. n] == chunks[0];
    } else {
      assert forall j :: 0 <= j < |tail| ==> |tail[j]| == n by {
        forall j | 0 <= j < |tail| ensures |tail[j]| == n {
          assert tail[j] == chunks[j + 1];
        }
      }
      FlattenChunk(tail, n, i - 1);
      var lo := n * (i - 1);
      assert n * i == n + lo;
      assert rest[lo .. lo + n] == chunks[i];
      assert (chunks[0] + rest)[n + lo .. n + lo + n] == rest[lo .. lo + n];
    }
  }

  /** Per-sprite quads at the origin, sized like each sprite. */
  function AtlasPositions(atlas: seq<Sprite>): seq<real> {
    Flatten(seq(|atlas|, i requires 0 <= i < |atlas| => RectangleCoords(0.0, 0.0, atlas[i].size.0, atlas[i].size.1)))
  }

  /** Per-sprite UV rectangles. */
  function AtlasUvs(image: Image, atlas: seq<Sprite>): seq<real>
    requires image.width > 0 && image.height > 0
  {
    Flatten(seq(|atlas|, i requires 0 <= i < |atlas| => UvFromSpriteData(image, atlas[i])))
  }

  /** Per-sprite pivot offsets. */
  function AtlasPivots(atlas: seq<Sprite>): seq<real> {
    Flatten(seq(|atlas|, i requires 0 <= i < |atlas| => PivotPoints(atlas[i].size.0, atlas[i].size.1)))
  }

  /** Every sprite contributes twelve numbers, six vertices, to each atlas list. */
  lemma AtlasLengths(image: Image, atlas: seq<Sprite>)
    requires image.width > 0 && image.height > 0
    ensures |AtlasPositions(atlas)| == |AtlasUvs(image, atlas)| == |AtlasPivots(atlas)| == 12 * |atlas|
  {
    FlattenLength(seq(|atlas|, j requires 0 <= j < |atlas| => RectangleCoords(0.0, 0.0, atlas[j].size.0, atlas[j].size.1)), 12);
    FlattenLength(seq(|atlas|, j requires 0 <= j < |atlas| => UvFromSpriteData(image, atlas[j])), 12);
    FlattenLength(seq(|atlas|, j requires 0 <= j < |atlas| => PivotPoints(atlas[j].size.0, atlas[j].size.1)), 12);
  }

  /** Sprite i's quad is chunk i of the position list. */
  lemma AtlasPositionsChunk(atlas: seq<Sprite>, i: nat)
    requires i < |atlas|
    ensures 12 * i + 12 <= |AtlasPositions(atlas)|
    ensures AtlasPositions(atlas)[12 * i .. 12 * i + 12] == RectangleCoords(0.0, 0.0, atlas[i].size.0, atlas[i].size.1)
  {
    FlattenChunk(seq(|atlas|, j requires 0 <= j < |atlas| => RectangleCoords(0.0, 0.0, atlas[j].size.0, atlas[j].size.1)), 12, i);
  }

  /** Sprite i's UV rectangle is chunk i of the UV list. */
  lemma AtlasUvsChunk(image: Image, atlas: seq<Sprite>, i: nat)
    requires image.width > 0 && image.height > 0
    requires i < |atlas|
    ensures 12 * i + 12 <= |AtlasUvs(image, atlas)|
    ensures AtlasUvs(image, atlas)[12 * i .. 12 * i + 12] == UvFromSpriteData(image, atlas[i])
  {
    FlattenChunk(seq(|atlas|, j requires 0 <= j < |atlas| => UvFromSpriteData(image, atlas[j])), 12, i);
  }

  /** Sprite i's pivot offsets are chunk i of the pivot list. */
  lemma AtlasPivotsChunk(atlas: seq<Sprite>, i: nat)
    requires i < |atlas|
    ensures 12 * i + 12 <= |AtlasPivots(atlas)|
    ensures AtlasPivots(atlas)[12 * i .. 12 * i + 12] == PivotPoints(atlas[i].size.0, atlas[i].size.1)
  {
    FlattenChunk(seq(|atlas|, j requires 0 <= j < |atlas| => PivotPoints(atlas[j].size.0, atlas[j].size.1)), 12, i);
  }

  /**
   * Sprite i of an atlas owns the numbers [12 i, 12 i + 12) of the position,
   * UV and pivot lists, that is vertices 6 i to 6 i + 5: a draw of 6 vertices
   * from offset 6 i draws exactly that sprite.
   */
  lemma AtlasSpriteLayout(image: Image, atlas: seq<Sprite>, i: nat)
    requires image.width > 0 && image.height > 0
    requires i < |atlas|
    ensures 12 * i + 12 <= |AtlasPositions(atlas)| && 12 * i + 12 <= |AtlasUvs(image, atlas)| && 12 * i + 12 <= |AtlasPivots(atlas)|
    ensures AtlasPositions(atlas)[12 * i .. 12 * i + 12] == RectangleCoords(0.0, 0.0, atlas[i].size.0, atlas[i].size.1)
    ensures AtlasUvs(image, atlas)[12 * i .. 12 * i + 12] == UvFromSpriteData(image, atlas[i])
    ensures AtlasPivots(atlas)[12 * i .. 12 * i + 12] == PivotPoints(atlas[i].size.0, atlas[i].size.1)
  {
    AtlasPositionsChunk(atlas, i);
    AtlasUvsChunk(image, atlas, i);
    AtlasPivotsChunk(atlas, i);
  }

  // ---------------------------------------------------------------------------
  // Projection
  // ---------------------------------------------------------------------------

  /** numerator / denominator as a float: a nonzero numerator over zero is an infinity. */
  function Quotient(numerator: real, denominator: real): (q: Scalar)
    requires numerator != 0.0
    ensures q.Finite? <==> denominator != 0.0
    ensures q.Finite? ==> q.value * denominator == numerator
    ensures q == PosInfinity <==> denominator == 0.0 && numerator > 0.0
  {
    if denominator != 0.0 then Finite(numerator / denominator)
    else if numerator > 0.0 then PosInfinity
    else NegInfinity
  }

  /** The values setProjectionMatrix uploads, in column-major order. */
  function ProjectionMatrix(width: real, height: real): (m: seq<Scalar>)
    ensures |m| == 9
    ensures width != 0.0 && height != 0.0 ==> forall i :: 0 <= i < 9 ==> m[i].Finite?
    ensures m[0].Finite? <==> width != 0.0
    ensures m[4].Finite? <==> height != 0.0
  {
    [Quotient(2.0, width), Finite(0.0), Finite(0.0),
     Finite(0.0), Quotient(-2.0, height), Finite(0.0),
     Finite(-1.0), Finite(1.0), Finite(1.0)]
  }

  /** The real entries of a finite matrix. */
  function Values(m: seq<Scalar>): (r: seq<real>)
    requires forall i :: 0 <= i < |m| ==> m[i].Finite?
    ensures |r| == |m| && forall i :: 0 <= i < |m| ==> r[i] == m[i].value
  {
    seq(|m|, i requires 0 <= i < |m| => m[i].value)
  }

  /** A 3 x 3 matrix given column by column, applied to the homogeneous point (x, y, 1). */
  function ApplyColumnMajor(m: seq<real>, p: Point): (real, real, real)
    requires |m| == 9
  {
    (m[0] * p.0 + m[3] * p.1 + m[6],
     m[1] * p.0 + m[4] * p.1 + m[7],
     m[2] * p.0 + m[5] * p.1 + m[8])
  }

  /** The projection sends pixel (x, y) to clip (2x/w - 1, 1 - 2y/h): x is scaled, y is flipped. */
  lemma ProjectionToClip(width: real, height: real, p: Point)
    requires width != 0.0 && height != 0.0
    ensures ApplyColumnMajor(Values(ProjectionMatrix(width, height)), p)
         == (2.0 * p.0 / width - 1.0, 1.0 - 2.0 * p.1 / height, 1.0)
  {
    var m := Values(ProjectionMatrix(width, height));
    assert m == [2.0 / width, 0.0, 0.0, 0.0, -2.0 / height, 0.0, -1.0, 1.0, 1.0];
    var sx, sy := 2.0 / width, -2.0 / height;
    assert sx * p.0 == 2.0 * p.0 / width;
    assert sy * p.1 == -(2.0 * p.1 / height);
    assert m[0] == sx && m[4] == sy;
    assert m[0] * p.0 + m[3] * p.1 + m[6] == sx * p.0 - 1.0;
    assert m[1] * p.0 + m[4] * p.1 + m[7] == sy * p.1 + 1.0;
    assert m[2] * p.0 + m[5] * p.1 + m[8] == 1.0;
    var t := ApplyColumnMajor(m, p);
    assert t.0 == 2.0 * p.0 / width - 1.0;
    assert t.1 == 1.0 - 2.0 * p.1 / height;
    assert t.2 == 1.0;
  }

  /** The top-left pixel lands on clip (-1, 1) and the bottom-right corner (w, h) on (1, -1). */
  lemma ProjectionCorners(width: real, height: real)
    requires width != 0.0 && height != 0.0
    ensures ApplyColumnMajor(Values(ProjectionMatrix(width, height)), (0.0, 0.0)) == (-1.0, 1.0, 1.0)
    ensures ApplyColumnMajor(Values(ProjectionMatrix(width, height)), (width, height)) == (1.0, -1.0, 1.0)
  {
    ProjectionToClip(width, height, (0.0, 0.0));
    ProjectionToClip(width, height, (width, height));
    assert 2.0 * width / width == 2.0;
    assert 2.0 * height / height == 2.0;
  }
}
