/**
 * Quad mesh and translation of a Part node, derived from its layer's bounds
 * and the document centre.
 */
module Geometry {
  import opened Layers

  /** The texture coordinates of the four quad vertices, in vertex order. */
  const DefaultUvs: seq<real> := [0.0, 0.0, 0.0, 1.0, 1.0, 0.0, 1.0, 1.0]

  /** The two triangles of the quad: (0,1,2) and (2,1,3). */
  const DefaultIndices: seq<nat> := [0, 1, 2, 2, 1, 3]

  /** The document centre: half the canvas width and height. */
  function DocCenter(width: int, height: int): (c: (real, real))
    ensures 2.0 * c.0 == width as real && 2.0 * c.1 == height as real
  {
    (width as real / 2.0, height as real / 2.0)
  }

  /**
   * Flat (x, y) pairs of the quad: half the box's size either side of the
   * origin, vertex k at the corner whose texture coordinate is
   * (DefaultUvs[2k], DefaultUvs[2k+1]).
   */
  function QuadVerts(b: Rect): (v: seq<real>)
    ensures |v| == 8
    // symmetric about the origin: vertex 3-k is the mirror of vertex k
    ensures forall k :: 0 <= k < 4 ==> v[2 * k] == -v[6 - 2 * k] && v[2 * k + 1] == -v[7 - 2 * k]
    // the quad is exactly as wide and as high as the box
    ensures v[4] - v[0] == b.width as real && v[3] - v[1] == b.height as real
    ensures v[0] == v[2] && v[4] == v[6] && v[1] == v[5] && v[3] == v[7]
  {
    var cutW := b.width as real / 2.0;
    var cutH := b.height as real / 2.0;
    [-cutW, -cutH, -cutW, cutH, cutW, -cutH, cutW, cutH]
  }

  /** The box centre relative to the document centre (cx, cy), with z = 0. */
  function Translation(b: Rect, cx: real, cy: real): (t: seq<real>)
    ensures |t| == 3 && t[2] == 0.0
    ensures 2.0 * (t[0] + cx) == 2.0 * b.x as real + b.width as real
    ensures 2.0 * (t[1] + cy) == 2.0 * b.y as real + b.height as real
  {
    var cutW := b.width as real / 2.0;
    var cutH := b.height as real / 2.0;
    [(b.x as real + cutW) - cx, (b.y as real + cutH) - cy, 0.0]
  }

  /**
   * Placed at its translation, the quad covers the layer's box in document
   * coordinates: the vertex with texture coordinate (u, v) lands on
   * (x + u * width, y + v * height).
   */
  lemma QuadCoversBox(b: Rect, cx: real, cy: real)
    ensures var v, t := QuadVerts(b), Translation(b, cx, cy);
      forall k :: 0 <= k < 4 ==>
        && v[2 * k] + t[0] + cx == b.x as real + DefaultUvs[2 * k] * b.width as real
        && v[2 * k + 1] + t[1] + cy == b.y as real + DefaultUvs[2 * k + 1] * b.height as real
  {
  }

  /** Degenerate bounds give an all-zero quad. */
  lemma ZeroSizeQuad(b: Rect)
    requires b.width == 0 && b.height == 0
    ensures QuadVerts(b) == [0.0, 0.0, 0.0, 0.0, 0.0, 0.0, 0.0, 0.0]
  {
  }

  /** Bounds (10, 20, 40, 60) on a 200 x 100 canvas. */
  lemma GeometryExample()
    ensures var c := DocCenter(200, 100);
      && QuadVerts(Rect(10, 20, 40, 60)) == [-20.0, -30.0, -20.0, 30.0, 20.0, -30.0, 20.0, 30.0]
      && Translation(Rect(10, 20, 40, 60), c.0, c.1) == [-70.0, 0.0, 0.0]
  {
  }
}
