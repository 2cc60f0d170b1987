/** The size arithmetic of `display_image` and where its draw calls land on
    the canvas. */
module Raster {
  import opened Images
  import opened Mesh

  /** Python's `int()` of a float: truncation toward zero. */
  function Int(x: real): (r: int)
    ensures 0.0 <= x ==> 0 <= r && r as real <= x < r as real + 1.0
    ensures x < 0.0 ==> r <= 0 && r as real - 1.0 < x <= r as real
  {
    if x >= 0.0 then x.Floor else -((-x).Floor)
  }

  /** The drawing scale of `display_image`: `ratio`, raised to 2 when
      smaller, then doubled under anti-aliasing. */
  function Scale(ratio: int, aa: bool): (r: int)
    ensures r >= 2 && (aa ==> r >= 4 && r % 2 == 0)
    ensures ratio >= 2 ==> r == if aa then 2 * ratio else ratio
    ensures ratio < 2 ==> r == if aa then 4 else 2
  {
    var r := if ratio < 2 then 2 else ratio;
    if aa then r * 2 else r
  }

  /** What `display_image` returns: the canvas it draws on, the draw calls
      in order, and the size of the image handed back (the canvas size, or
      half of `ratio * width + 1` truncated under anti-aliasing). */
  datatype Picture = Picture(canvasWidth: int, canvasHeight: int, draws: seq<Draw>, width: int, height: int)

  /** Every point of every draw call lies in [0, w] x [0, h]. */
  predicate InRect(draws: seq<Draw>, w: real, h: real)
  {
    forall dr, pt | dr in draws && pt in dr.points :: 0.0 <= pt.0 <= w && 0.0 <= pt.1 <= h
  }

  /** Scaling by a non-negative ratio keeps the order. */
  lemma ScaleMonotone(a: real, b: real, ratio: real)
    requires a <= b && ratio >= 0.0
    ensures a * ratio <= b * ratio
  {
    assert (b - a) * ratio >= 0.0;
  }

  /** A dot in the box [min_x, min_x + w] x [min_y, min_y + h] maps into
      [0, ratio * w] x [0, ratio * h]. */
  lemma ScreenInBox(v: Vec3, minX: real, minY: real, w: real, h: real, ratio: real)
    requires ratio >= 0.0 && minX <= v.x <= minX + w && minY <= v.y <= minY + h
    ensures var pt := Screen(v, minX, minY, ratio); 0.0 <= pt.0 <= ratio * w && 0.0 <= pt.1 <= ratio * h
  {
    var x, y := v.x - minX, v.y - minY;
    ScaleMonotone(0.0, x, ratio);
    ScaleMonotone(x, w, ratio);
    ScaleMonotone(0.0, y, ratio);
    ScaleMonotone(y, h, ratio);
    assert w * ratio == ratio * w && h * ratio == ratio * h;
  }

  /** So does every prefix of the screen points of such dots. */
  lemma PrefixInBox(ds: seq<Vec3>, k: nat, minX: real, minY: real, w: real, h: real, ratio: real)
    requires k <= |ds| && ratio >= 0.0
    requires forall i | 0 <= i < |ds| :: minX <= ds[i].x <= minX + w && minY <= ds[i].y <= minY + h
    ensures forall pt | pt in ScreenAll(ds, minX, minY, ratio)[..k] :: 0.0 <= pt.0 <= ratio * w && 0.0 <= pt.1 <= ratio * h
  {
    var sa := ScreenAll(ds, minX, minY, ratio);
    forall pt | pt in sa[..k]
      ensures 0.0 <= pt.0 <= ratio * w && 0.0 <= pt.1 <= ratio * h
    {
      var i :| 0 <= i < k && sa[i] == pt;
      ScreenInBox(ds[i], minX, minY, w, h, ratio);
    }
  }

  /** A Polygon whose dots lie in the box [min_x, min_x + w] x
      [min_y, min_y + h] draws inside [0, ratio * w] x [0, ratio * h]. */
  lemma PolygonInRect(ds: seq<Vec3>, minX: real, minY: real, w: real, h: real, ratio: real,
                      color: Rgba, falsy: bool)
    requires ratio >= 0.0
    requires forall k | 0 <= k < |ds| :: minX <= ds[k].x <= minX + w && minY <= ds[k].y <= minY + h
    ensures InRect(PngDraws(ds, minX, minY, ratio, color, falsy), ratio * w, ratio * h)
  {
    var draws := PngDraws(ds, minX, minY, ratio, color, falsy);
    PngDrawsArePrefixes(ds, minX, minY, ratio, color, falsy);
    forall dr | dr in draws
      ensures forall pt | pt in dr.points :: 0.0 <= pt.0 <= ratio * w && 0.0 <= pt.1 <= ratio * h
    {
      PrefixInBox(ds, |dr.points|, minX, minY, w, h, ratio);
    }
  }

  /** Two lists of draw calls inside the rectangle stay inside it
      together. */
  lemma InRectAppend(a: seq<Draw>, b: seq<Draw>, w: real, h: real)
    requires InRect(a, w, h) && InRect(b, w, h)
    ensures InRect(a + b, w, h)
  {
    forall dr, pt | dr in a + b && pt in dr.points
      ensures 0.0 <= pt.0 <= w && 0.0 <= pt.1 <= h
    {
      if dr !in a {
        assert dr in b;
      }
    }
  }

  /** Halving before truncating is halving the truncation:
      `int(a / 2) == int(a) // 2` for a >= 0. */
  lemma HalfOfInt(a: real)
    requires a >= 0.0
    ensures Int(a / 2.0) == Int(a) / 2
  {
    var n := Int(a);
    var q := n / 2;
    assert n == 2 * q + n % 2;
    assert q as real <= a / 2.0 < q as real + 1.0;
  }

  /** The sizes `display_image` computes from the scale and the box: the
      canvas `int(scale * width + 1)` x `int(scale * height + 1)`, and under
      anti-aliasing the image `resize`d to half of those values, truncated. */
  function Sized(scale: real, aa: bool, width: real, height: real, draws: seq<Draw>): (p: Picture)
    ensures p.draws == draws
    ensures p.canvasWidth == Int(scale * width + 1.0) && p.canvasHeight == Int(scale * height + 1.0)
    ensures !aa ==> p.width == p.canvasWidth && p.height == p.canvasHeight
  {
    var srcWidth, srcHeight := scale * width + 1.0, scale * height + 1.0;
    if aa then
      Picture(Int(srcWidth), Int(srcHeight), draws, Int(srcWidth / 2.0), Int(srcHeight / 2.0))
    else
      Picture(Int(srcWidth), Int(srcHeight), draws, Int(srcWidth), Int(srcHeight))
  }

  /** The image is half the canvas, rounded down, on both sides: the
      canvas is twice the image, or one more. */
  predicate Halved(p: Picture)
  {
    2 * p.width <= p.canvasWidth <= 2 * p.width + 1 && 2 * p.height <= p.canvasHeight <= 2 * p.height + 1
  }

  /** Under anti-aliasing the image is half the canvas, rounded down, on
      each side whose box is not inverted. */
  lemma SizedHalves(scale: real, width: real, height: real, draws: seq<Draw>)
    requires scale >= 0.0
    ensures var p := Sized(scale, true, width, height, draws);
      (width >= 0.0 ==> p.width == p.canvasWidth / 2) && (height >= 0.0 ==> p.height == p.canvasHeight / 2)
    ensures width >= 0.0 && height >= 0.0 ==> Halved(Sized(scale, true, width, height, draws))
  {
    if width >= 0.0 {
      assert scale * width >= 0.0;
      HalfOfInt(scale * width + 1.0);
    }
    if height >= 0.0 {
      assert scale * height >= 0.0;
      HalfOfInt(scale * height + 1.0);
    }
  }

  /** So for a box that is not inverted the image is halved exactly when
      anti-aliasing is on. */
  lemma SizedHalved(scale: real, aa: bool, width: real, height: real, draws: seq<Draw>)
    requires scale >= 0.0 && width >= 0.0 && height >= 0.0
    ensures aa ==> Halved(Sized(scale, aa, width, height, draws))
  {
    if aa {
      SizedHalves(scale, width, height, draws);
    }
  }

  /** Every point of every draw call has a pixel of the canvas under it. */
  predicate InCanvas(p: Picture)
  {
    forall dr, pt | dr in p.draws && pt in dr.points ::
      0.0 <= pt.0 < p.canvasWidth as real && 0.0 <= pt.1 < p.canvasHeight as real
  }

  /** Draw calls inside [0, scale * width] x [0, scale * height] land on the
      canvas: every point has a pixel of the canvas under it. */
  lemma SizedInCanvas(scale: real, aa: bool, width: real, height: real, draws: seq<Draw>)
    requires InRect(draws, scale * width, scale * height)
    ensures InCanvas(Sized(scale, aa, width, height, draws))
  {
  }
}
