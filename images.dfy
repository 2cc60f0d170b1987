/** RGBA pixel buffers and the three Pillow operations the skin code combines:
    `Image.new` (a transparent canvas), `crop` + `ImageOps.mirror`, and `paste`.
    A buffer is an `array2<Rgba>` indexed `[x, y]`: `Length0` is the width and
    `Length1` the height, as in Pillow's `(x, y)` coordinates. */
module Images {
  import opened Common

  newtype byte = x: int | 0 <= x < 256

  datatype Rgba = Rgba(r: byte, g: byte, b: byte, a: byte)

  /** The fill of `Image.new("RGBA", size)` and of a crop outside the source. */
  const Transparent := Rgba(0, 0, 0, 0)

  predicate InBounds(img: array2<Rgba>, x: int, y: int)
  {
    0 <= x < img.Length0 && 0 <= y < img.Length1
  }

  /** The pixel at (x, y), or transparent when (x, y) lies outside the image:
      what a crop reaching beyond the edge of the source yields there. */
  function PixelOr(img: array2<Rgba>, x: int, y: int): Rgba
    reads img
  {
    if InBounds(img, x, y) then img[x, y] else Transparent
  }

  /** `getpixel((x, y))`: Pillow raises IndexError outside the image. */
  function GetPixel(img: array2<Rgba>, x: int, y: int): (r: Result<Rgba>)
    reads img
    ensures r.Ok? <==> InBounds(img, x, y)
    ensures r.Ok? ==> r.value == img[x, y]
    ensures r.Err? ==> r.error == IndexError
  {
    if InBounds(img, x, y) then Ok(img[x, y]) else Err(IndexError)
  }

  /** `paste(ImageOps.mirror(src.crop((x0, y0, x1, y1))), (px, py))`. */
  datatype MirrorPaste = MirrorPaste(x0: int, y0: int, x1: int, y1: int, px: int, py: int)

  /** Whether the pasted box covers canvas pixel (x, y). */
  predicate Covers(m: MirrorPaste, x: int, y: int)
  {
    m.px <= x < m.px + (m.x1 - m.x0) && m.py <= y < m.py + (m.y1 - m.y0)
  }

  /** The source pixel a mirrored paste puts at canvas pixel (x, y): columns of
      the crop are read right to left, rows top to bottom. */
  function Mirrored(src: array2<Rgba>, m: MirrorPaste, x: int, y: int): Rgba
    reads src
  {
    PixelOr(src, m.x1 - 1 - (x - m.px), m.y0 + (y - m.py))
  }

  /** Canvas pixel (x, y) after pasting `src` at (0, 0) on a transparent canvas
      and then the mirrored boxes `ps` in order: the last box covering (x, y) wins. */
  function Upgraded(src: array2<Rgba>, ps: seq<MirrorPaste>, x: int, y: int): Rgba
    reads src
  {
    if ps == [] then PixelOr(src, x, y)
    else if Covers(ps[|ps| - 1], x, y) then Mirrored(src, ps[|ps| - 1], x, y)
    else Upgraded(src, ps[..|ps| - 1], x, y)
  }

  /** The canvas holds the result of the pastes `ps` on every pixel. */
  ghost predicate Shows(canvas: array2<Rgba>, src: array2<Rgba>, ps: seq<MirrorPaste>)
    reads canvas, src
  {
    forall x, y | 0 <= x < canvas.Length0 && 0 <= y < canvas.Length1 ::
      canvas[x, y] == Upgraded(src, ps, x, y)
  }

  /** `Image.new("RGBA", (w, h), (0, 0, 0, 0))` followed by `paste(src, (0, 0))`. */
  method NewCanvas(src: array2<Rgba>, w: nat, h: nat) returns (canvas: array2<Rgba>)
    ensures fresh(canvas)
    ensures canvas.Length0 == w && canvas.Length1 == h
    ensures Shows(canvas, src, [])
  {
    canvas := new Rgba[w, h];
    forall x, y | 0 <= x < w && 0 <= y < h {
      canvas[x, y] := PixelOr(src, x, y);
    }
  }

  /** One mirrored paste; Pillow clips the box to the canvas. */
  method ApplyPaste(canvas: array2<Rgba>, src: array2<Rgba>, ghost ps: seq<MirrorPaste>, m: MirrorPaste)
    requires canvas != src
    requires Shows(canvas, src, ps)
    modifies canvas
    ensures Shows(canvas, src, ps + [m])
  {
    forall x, y | 0 <= x < canvas.Length0 && 0 <= y < canvas.Length1 && Covers(m, x, y) {
      canvas[x, y] := Mirrored(src, m, x, y);
    }
    assert (ps + [m])[..|ps|] == ps;
  }

  /** The two pasted boxes lie side by side or one above the other. */
  predicate Apart(m: MirrorPaste, n: MirrorPaste)
  {
    m.px + (m.x1 - m.x0) <= n.px || n.px + (n.x1 - n.x0) <= m.px ||
    m.py + (m.y1 - m.y0) <= n.py || n.py + (n.y1 - n.y0) <= m.py
  }

  /** No two boxes of `ps` overlap on the canvas. */
  predicate Disjoint(ps: seq<MirrorPaste>)
  {
    forall i, j | 0 <= i < j < |ps| :: Apart(ps[i], ps[j])
  }

  /** A pixel no box covers keeps the base paste; a pixel covered by box k of a
      disjoint list shows that box's mirrored source pixel. */
  lemma {:induction false} UpgradedCases(src: array2<Rgba>, ps: seq<MirrorPaste>, x: int, y: int)
    ensures (forall k | 0 <= k < |ps| :: !Covers(ps[k], x, y)) ==> Upgraded(src, ps, x, y) == PixelOr(src, x, y)
    ensures Disjoint(ps) ==>
      forall k | 0 <= k < |ps| && Covers(ps[k], x, y) :: Upgraded(src, ps, x, y) == Mirrored(src, ps[k], x, y)
    decreases |ps|
  {
    if ps != [] {
      var init := ps[..|ps| - 1];
      UpgradedCases(src, init, x, y);
      assert forall k | 0 <= k < |init| :: init[k] == ps[k];
      if Disjoint(ps) {
        assert Disjoint(init);
      }
    }
  }
}
