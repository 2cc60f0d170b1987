/** What one face loop of `generate_polygons` yields, on values: for every cell
    in loop order, the texel is read with `getpixel` (IndexError outside the
    image), a transparent texel is skipped, and an opaque one becomes a quad
    whose four corners are looked up in `volume_points` (KeyError when one is
    missing). The first error ends the loop. */
module Quads {
  import opened Common
  import opened Images
  import opened Mesh
  import opened Lattice
  import opened Body
  import opened Atlas

  /** A kept cell: its four lattice keys, the points stored there, and the
      texel colour. */
  datatype Quad = Quad(keys: seq<Key>, corners: seq<Vec3>, color: Rgba)

  /** The four keys are all stored in the dictionary. */
  predicate AllStored<V>(vol: Nested<V>, keys: seq<Key>)
  {
    forall q | 0 <= q < |keys| :: Lookup(vol, keys[q]).Some?
  }

  /** Cell (a, b) of a face loop: an error, nothing (transparent texel), or
      a quad. */
  function CellQuad(img: array2<Rgba>, f: FaceLoop, vol: Nested<Vec3>, a: int, b: int): (r: Result<Option<Quad>>)
    reads img
  {
    var t := Texel(f, a, b);
    match GetPixel(img, t.0, t.1)
    case Err(e) => Err(e)
    case Ok(c) =>
      if c.a == 0 then Ok(None)
      else
        var keys := QuadKeys(f, a, b);
        if AllStored(vol, keys) then
          Ok(Some(Quad(keys, [Lookup(vol, keys[0]).value, Lookup(vol, keys[1]).value,
                              Lookup(vol, keys[2]).value, Lookup(vol, keys[3]).value], c)))
        else Err(KeyError)
  }

  /** The quads so far, extended by one more cell. */
  function AddCell(acc: Result<seq<Quad>>, cell: Result<Option<Quad>>): Result<seq<Quad>>
  {
    if acc.Err? then acc
    else match cell
      case Err(e) => Err(e)
      case Ok(None) => acc
      case Ok(Some(q)) => Ok(acc.value + [q])
  }

  /** The quads so far, extended by one more row. */
  function AddRow(acc: Result<seq<Quad>>, row: Result<seq<Quad>>): Result<seq<Quad>>
  {
    if acc.Err? then acc else if row.Err? then row else Ok(acc.value + row.value)
  }

  /** The first m cells of row a. */
  function RowQuads(img: array2<Rgba>, f: FaceLoop, vol: Nested<Vec3>, a: int, m: nat): Result<seq<Quad>>
    reads img
  {
    if m == 0 then Ok([]) else AddCell(RowQuads(img, f, vol, a, m - 1), CellQuad(img, f, vol, a, f.lo2 + m - 1))
  }

  /** The first m rows. */
  function FaceRows(img: array2<Rgba>, f: FaceLoop, vol: Nested<Vec3>, m: nat): Result<seq<Quad>>
    reads img
  {
    if m == 0 then Ok([]) else AddRow(FaceRows(img, f, vol, m - 1), RowQuads(img, f, vol, f.lo1 + m - 1, Span(f.lo2, f.hi2)))
  }

  /** The whole face loop. */
  function FaceQuads(img: array2<Rgba>, f: FaceLoop, vol: Nested<Vec3>): Result<seq<Quad>>
    reads img
  {
    FaceRows(img, f, vol, Span(f.lo1, f.hi1))
  }

  /** The quad an opaque, fully stored cell yields. */
  ghost predicate QuadOf(img: array2<Rgba>, f: FaceLoop, vol: Nested<Vec3>, a: int, b: int, q: Quad)
    reads img
  {
    var t := Texel(f, a, b);
    InLoop(f, a, b) && InBounds(img, t.0, t.1) && img[t.0, t.1].a != 0 &&
    q.keys == QuadKeys(f, a, b) && AllStored(vol, q.keys) && q.color == img[t.0, t.1] &&
    |q.corners| == 4 && forall k | 0 <= k < 4 :: Lookup(vol, q.keys[k]) == Some(q.corners[k])
  }

  /** A cell that can be read and whose quad, if any, can be built. */
  ghost predicate CellReadable(img: array2<Rgba>, f: FaceLoop, vol: Nested<Vec3>, a: int, b: int)
    reads img
  {
    var t := Texel(f, a, b);
    InBounds(img, t.0, t.1) && (img[t.0, t.1].a != 0 ==> AllStored(vol, QuadKeys(f, a, b)))
  }

  lemma CellQuadCases(img: array2<Rgba>, f: FaceLoop, vol: Nested<Vec3>, a: int, b: int)
    requires InLoop(f, a, b)
    ensures var r := CellQuad(img, f, vol, a, b);
      (r.Ok? <==> CellReadable(img, f, vol, a, b)) &&
      (r.Ok? && r.value.Some? ==> QuadOf(img, f, vol, a, b, r.value.value)) &&
      (r.Ok? && r.value.None? <==> r.Ok? && img[Texel(f, a, b).0, Texel(f, a, b).1].a == 0)
  {
  }

  /** Row a is Ok exactly when each of its first m cells is readable. */
  lemma {:induction false} RowQuadsOk(img: array2<Rgba>, f: FaceLoop, vol: Nested<Vec3>, a: int, m: nat)
    requires f.lo1 <= a < f.hi1 && m <= Span(f.lo2, f.hi2)
    ensures RowQuads(img, f, vol, a, m).Ok? <==> forall b | f.lo2 <= b < f.lo2 + m :: CellReadable(img, f, vol, a, b)
  {
    if m > 0 {
      RowQuadsOk(img, f, vol, a, m - 1);
      CellQuadCases(img, f, vol, a, f.lo2 + m - 1);
    }
  }

  /** Every quad of row a is the quad of one of its opaque cells. */
  lemma {:induction false} RowQuadsSound(img: array2<Rgba>, f: FaceLoop, vol: Nested<Vec3>, a: int, m: nat, q: Quad)
    requires f.lo1 <= a < f.hi1 && m <= Span(f.lo2, f.hi2)
    requires RowQuads(img, f, vol, a, m).Ok? && q in RowQuads(img, f, vol, a, m).value
    ensures exists b | f.lo2 <= b < f.lo2 + m :: QuadOf(img, f, vol, a, b, q)
  {
    var b := f.lo2 + m - 1;
    var prev := RowQuads(img, f, vol, a, m - 1);
    CellQuadCases(img, f, vol, a, b);
    if q in prev.value {
      RowQuadsSound(img, f, vol, a, m - 1, q);
    } else {
      assert QuadOf(img, f, vol, a, b, q);
    }
  }

  /** Every opaque cell of row a yields its quad. */
  lemma {:induction false} RowQuadsComplete(img: array2<Rgba>, f: FaceLoop, vol: Nested<Vec3>, a: int, m: nat, b: int)
    requires f.lo1 <= a < f.hi1 && m <= Span(f.lo2, f.hi2) && f.lo2 <= b < f.lo2 + m
    requires RowQuads(img, f, vol, a, m).Ok?
    ensures CellQuad(img, f, vol, a, b).Ok?
    ensures CellQuad(img, f, vol, a, b).value.Some? ==>
      CellQuad(img, f, vol, a, b).value.value in RowQuads(img, f, vol, a, m).value
  {
    if b < f.lo2 + m - 1 {
      RowQuadsComplete(img, f, vol, a, m - 1, b);
    }
  }

  /** The first m rows are Ok exactly when each of their cells is readable. */
  lemma {:induction false} FaceRowsOk(img: array2<Rgba>, f: FaceLoop, vol: Nested<Vec3>, m: nat)
    requires m <= Span(f.lo1, f.hi1)
    ensures FaceRows(img, f, vol, m).Ok? <==>
      forall a, b | f.lo1 <= a < f.lo1 + m && f.lo2 <= b < f.hi2 :: CellReadable(img, f, vol, a, b)
  {
    if m > 0 {
      FaceRowsOk(img, f, vol, m - 1);
      RowQuadsOk(img, f, vol, f.lo1 + m - 1, Span(f.lo2, f.hi2));
    }
  }

  /** A face loop completes exactly when every cell's texel is inside the
      image and every opaque cell's four keys are stored. */
  lemma FaceQuadsOk(img: array2<Rgba>, f: FaceLoop, vol: Nested<Vec3>)
    ensures FaceQuads(img, f, vol).Ok? <==> forall a, b | InLoop(f, a, b) :: CellReadable(img, f, vol, a, b)
  {
    FaceRowsOk(img, f, vol, Span(f.lo1, f.hi1));
  }

  /** Every quad of the first m rows is the quad of one of their opaque
      cells. */
  lemma {:induction false} FaceRowsSound(img: array2<Rgba>, f: FaceLoop, vol: Nested<Vec3>, m: nat, q: Quad)
    requires m <= Span(f.lo1, f.hi1)
    requires FaceRows(img, f, vol, m).Ok? && q in FaceRows(img, f, vol, m).value
    ensures exists a, b :: QuadOf(img, f, vol, a, b, q)
  {
    var a := f.lo1 + m - 1;
    if q in FaceRows(img, f, vol, m - 1).value {
      FaceRowsSound(img, f, vol, m - 1, q);
    } else {
      RowQuadsSound(img, f, vol, a, Span(f.lo2, f.hi2), q);
    }
  }

  /** Every opaque cell of the first m rows yields its quad. */
  lemma {:induction false} FaceRowsComplete(img: array2<Rgba>, f: FaceLoop, vol: Nested<Vec3>, m: nat, a: int, b: int)
    requires m <= Span(f.lo1, f.hi1) && f.lo1 <= a < f.lo1 + m && f.lo2 <= b < f.hi2
    requires FaceRows(img, f, vol, m).Ok?
    ensures CellQuad(img, f, vol, a, b).Ok?
    ensures CellQuad(img, f, vol, a, b).value.Some? ==>
      CellQuad(img, f, vol, a, b).value.value in FaceRows(img, f, vol, m).value
  {
    if a < f.lo1 + m - 1 {
      FaceRowsComplete(img, f, vol, m - 1, a, b);
    } else {
      RowQuadsComplete(img, f, vol, a, Span(f.lo2, f.hi2), b);
    }
  }

  /** A cell has one quad. */
  lemma QuadOfIsCellQuad(img: array2<Rgba>, f: FaceLoop, vol: Nested<Vec3>, a: int, b: int, q: Quad)
    requires QuadOf(img, f, vol, a, b, q)
    ensures CellQuad(img, f, vol, a, b) == Ok(Some(q))
  {
    var keys := QuadKeys(f, a, b);
    assert q.corners == [Lookup(vol, keys[0]).value, Lookup(vol, keys[1]).value,
                         Lookup(vol, keys[2]).value, Lookup(vol, keys[3]).value];
  }

  /** The quads of a completed face loop are exactly those of its opaque
      cells: a quad is kept if and only if its texel's alpha is non-zero. */
  lemma FaceQuadsExact(img: array2<Rgba>, f: FaceLoop, vol: Nested<Vec3>, q: Quad)
    requires FaceQuads(img, f, vol).Ok?
    ensures q in FaceQuads(img, f, vol).value <==> exists a, b :: QuadOf(img, f, vol, a, b, q)
  {
    if q in FaceQuads(img, f, vol).value {
      FaceRowsSound(img, f, vol, Span(f.lo1, f.hi1), q);
    }
    if exists a, b :: QuadOf(img, f, vol, a, b, q) {
      var a, b :| QuadOf(img, f, vol, a, b, q);
      FaceRowsComplete(img, f, vol, Span(f.lo1, f.hi1), a, b);
      QuadOfIsCellQuad(img, f, vol, a, b, q);
    }
  }

  /** Once every texel can be read, the only possible failure is a missing
      key, and an opaque cell with a missing key makes the loop fail. */
  lemma {:induction false} FaceRowsKeyError(img: array2<Rgba>, f: FaceLoop, vol: Nested<Vec3>, m: nat)
    requires m <= Span(f.lo1, f.hi1)
    requires forall a, b | InLoop(f, a, b) :: InBounds(img, Texel(f, a, b).0, Texel(f, a, b).1)
    ensures FaceRows(img, f, vol, m).Err? ==> FaceRows(img, f, vol, m).error == KeyError
  {
    if m > 0 {
      FaceRowsKeyError(img, f, vol, m - 1);
      RowKeyError(img, f, vol, f.lo1 + m - 1, Span(f.lo2, f.hi2));
    }
  }

  lemma {:induction false} RowKeyError(img: array2<Rgba>, f: FaceLoop, vol: Nested<Vec3>, a: int, m: nat)
    requires f.lo1 <= a < f.hi1 && m <= Span(f.lo2, f.hi2)
    requires forall b | f.lo2 <= b < f.hi2 :: InBounds(img, Texel(f, a, b).0, Texel(f, a, b).1)
    ensures RowQuads(img, f, vol, a, m).Err? ==> RowQuads(img, f, vol, a, m).error == KeyError
  {
    if m > 0 {
      RowKeyError(img, f, vol, a, m - 1);
    }
  }

  /** So with every texel inside the image, the loop raises KeyError exactly
      when some opaque cell has a key that is not stored. */
  lemma FaceQuadsKeyError(img: array2<Rgba>, f: FaceLoop, vol: Nested<Vec3>)
    requires forall a, b | InLoop(f, a, b) :: InBounds(img, Texel(f, a, b).0, Texel(f, a, b).1)
    ensures FaceQuads(img, f, vol) == Err(KeyError) <==>
      exists a, b | InLoop(f, a, b) :: PixelOr(img, Texel(f, a, b).0, Texel(f, a, b).1).a != 0 && !AllStored(vol, QuadKeys(f, a, b))
  {
    FaceQuadsOk(img, f, vol);
    FaceRowsKeyError(img, f, vol, Span(f.lo1, f.hi1));
  }

  /** An error in a row ends the row: later cells are never looked at. */
  lemma {:induction false} RowErrStays(img: array2<Rgba>, f: FaceLoop, vol: Nested<Vec3>, a: int, m0: nat, m: nat)
    requires m0 <= m && RowQuads(img, f, vol, a, m0).Err?
    ensures RowQuads(img, f, vol, a, m) == RowQuads(img, f, vol, a, m0)
    decreases m
  {
    if m > m0 {
      RowErrStays(img, f, vol, a, m0, m - 1);
    }
  }

  /** An error in a row ends the face loop. */
  lemma {:induction false} FaceErrStays(img: array2<Rgba>, f: FaceLoop, vol: Nested<Vec3>, m0: nat, m: nat)
    requires m0 <= m && FaceRows(img, f, vol, m0).Err?
    ensures FaceRows(img, f, vol, m) == FaceRows(img, f, vol, m0)
    decreases m
  {
    if m > m0 {
      FaceErrStays(img, f, vol, m0, m - 1);
    }
  }

  /** The image a part reads is large enough: 64h x 64h for the skin, and
      22h x 17h for the cape. */
  predicate LargeEnough(img: array2<Rgba>, p: Part, h: int)
  {
    if p == Cape then img.Length0 >= 22 * h && img.Length1 >= 17 * h
    else img.Length0 >= 64 * h && img.Length1 >= 64 * h
  }

  /** With an image that large, no face loop of any part raises: every texel
      is inside the image and every key is in the part's lattice. */
  lemma LoopQuadsOk(img: array2<Rgba>, p: Part, face: Face, h: int, s: int)
    requires h >= 1 && (s == 0 || s == 1)
    requires LargeEnough(img, p, h)
    ensures FaceQuads(img, Loop(p, face, h, s), VolumeOf(LatticeFor(p, h, s))).Ok?
  {
    var f := Loop(p, face, h, s);
    var vol := VolumeOf(LatticeFor(p, h, s));
    forall a, b | InLoop(f, a, b)
      ensures CellReadable(img, f, vol, a, b)
    {
      TexelInAtlas(p, face, h, s, a, b);
      QuadsResolve(p, face, h, s, a, b);
    }
    FaceQuadsOk(img, f, vol);
  }

  /** As written, at hd_ratio 2 or more the cape's left loop raises KeyError
      whenever the texel of its first cell, (h, h), is opaque. */
  lemma CapeLeftRaises(cape: array2<Rgba>, h: int, s: int)
    requires h >= 2 && LargeEnough(cape, Cape, h)
    requires cape[h, h].a != 0
    ensures FaceQuads(cape, LoopAsWritten(Cape, Left, h, s), VolumeOf(LatticeFor(Cape, h, s))) == Err(KeyError)
  {
    var f := LoopAsWritten(Cape, Left, h, s);
    var vol := VolumeOf(LatticeFor(Cape, h, s));
    CapeLeftMisses(h, s);
    assert Texel(f, 0, 0) == (h, h);
    assert !AllStored(vol, QuadKeys(f, 0, 0));
    FaceQuadsKeyError(cape, f, vol);
  }
}
