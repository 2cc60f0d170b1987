/** The mutable side of `generate_polygons` for one part: the lattice loops
    fill `volume_points` with fresh `Point` objects, one `append_dict` per
    insert, and each face loop turns the opaque texels into `Polygon` objects
    whose dots are the very Points stored in the dictionary. Both are proved
    against the value-level tables of the lattice and quad modules. */
module Volume {
  import opened Common
  import opened Images
  import opened Mesh
  import opened Lattice
  import opened Atlas
  import opened Quads
  import opened Body

  /** The Point dictionary holds a Point exactly at the keys where the
      coordinate dictionary holds coordinates, created with them. */
  ghost predicate Mirrors(vol: Nested<Point>, spec: Nested<Vec3>)
  {
    forall key: Key ::
      (Lookup(vol, key).Some? <==> Lookup(spec, key).Some?) &&
      (Lookup(vol, key).Some? ==> Lookup(vol, key).value.init == Lookup(spec, key).value)
  }

  /** A Point as its constructor left it, made by `owner`'s lattice loops for
      the render whose camera is `cam`. */
  ghost predicate Unmoved(pt: Point, cam: Camera, owner: Part)
    reads pt
  {
    pt.cam == cam && pt.owner == Some(owner) && pt.origin == pt.init && !pt.isPreProjected && !pt.isProjected
  }

  /** Every Point of the dictionary is unmoved. */
  ghost predicate AllUnmoved(vol: Nested<Point>, cam: Camera, owner: Part)
    reads set key: Key | Lookup(vol, key).Some? :: Lookup(vol, key).value
  {
    forall key: Key | Lookup(vol, key).Some? :: Unmoved(Lookup(vol, key).value, cam, owner)
  }

  /** `Lookup` under a name of its own, so that facts about where the Points
      came from do not fire during the lattice proofs. */
  function PointAt(vol: Nested<Point>, key: Key): Option<Point>
  {
    Lookup(vol, key)
  }

  /** Every Point of r is the one vol holds at that key or one of `made`. */
  ghost predicate Within(r: Nested<Point>, vol: Nested<Point>, made: set<Point>)
  {
    forall key: Key | PointAt(r, key).Some? :: PointAt(r, key) == PointAt(vol, key) || PointAt(r, key).value in made
  }

  /** `append_dict` adds at most the Point it is given. */
  lemma WithinAppend(vol: Nested<Point>, key: Key, pt: Point)
    ensures Within(AppendDict(vol, key, pt), vol, {pt})
  {
    forall other: Key | PointAt(AppendDict(vol, key, pt), other).Some?
      ensures PointAt(AppendDict(vol, key, pt), other) == PointAt(vol, other) || PointAt(AppendDict(vol, key, pt), other).value == pt
    {
    }
  }

  lemma WithinTrans(r: Nested<Point>, q: Nested<Point>, vol: Nested<Point>, m1: set<Point>, m2: set<Point>)
    requires Within(q, vol, m1) && Within(r, q, m2)
    ensures Within(r, vol, m1 + m2)
  {
  }

  /** Every Point the dictionary holds. */
  function Values(vol: Nested<Point>): set<Point>
  {
    set i, j, k | i in vol && j in vol[i] && k in vol[i][j] :: vol[i][j][k]
  }

  /** A Point of the dictionary is stored at some key. */
  lemma ValueAt(vol: Nested<Point>, d: Point) returns (key: Key)
    requires d in Values(vol)
    ensures Lookup(vol, key) == Some(d)
  {
    var i, j, k :| i in vol && j in vol[i] && k in vol[i][j] && vol[i][j][k] == d;
    key := (i, j, k);
  }

  /** A Point stored at a key is among the dictionary's Points. */
  lemma InValues(vol: Nested<Point>, key: Key)
    requires Lookup(vol, key).Some?
    ensures Lookup(vol, key).value in Values(vol)
  {
    var (i, j, k) := key;
    assert vol[i][j][k] in Values(vol);
  }

  /** `append_dict` on both dictionaries at once keeps them in step. */
  lemma MirrorsAppend(vol: Nested<Point>, spec: Nested<Vec3>, key: Key, pt: Point, v: Vec3)
    requires Mirrors(vol, spec) && pt.init == v
    ensures Mirrors(AppendDict(vol, key, pt), AppendDict(spec, key, v))
  {
    forall other: Key
      ensures var r, s := AppendDict(vol, key, pt), AppendDict(spec, key, v);
        (Lookup(r, other).Some? <==> Lookup(s, other).Some?) &&
        (Lookup(r, other).Some? ==> Lookup(r, other).value.init == Lookup(s, other).value)
    {
      assert Lookup(vol, other).Some? <==> Lookup(spec, other).Some?;
    }
  }

  /** One more insert at the end is one more `append_dict`. */
  lemma LatticeOfSnoc(ins: seq<Insert>, x: Insert)
    ensures LatticeOf(ins + [x]) == AppendDict(LatticeOf(ins), x.0, x.1)
  {
    assert (ins + [x])[..|ins|] == ins;
  }

  /** The two inserts of one step. */
  lemma LatticeOfCell(ins: seq<Insert>, n: Nest, a: int, b: int)
    ensures LatticeOf(ins + CellInserts(n, a, b)) ==
      AppendDict(AppendDict(LatticeOf(ins), NestKey(n, a, b, false), NestCoords(n, a, b, false)),
                 NestKey(n, a, b, true), NestCoords(n, a, b, true))
  {
    var x := (NestKey(n, a, b, false), NestCoords(n, a, b, false));
    var y := (NestKey(n, a, b, true), NestCoords(n, a, b, true));
    assert ins + CellInserts(n, a, b) == (ins + [x]) + [y];
    LatticeOfSnoc(ins, x);
    LatticeOfSnoc(ins + [x], y);
  }

  /** One step of the inner lattice loop: a fresh Point at each of the two
      fixed keys, stored by `append_dict`. */
  method StoreCell(cam: Camera, vol: Nested<Point>, ghost ins: seq<Insert>, n: Nest, a: int, b: int, ghost owner: Part)
    returns (r: Nested<Point>, ghost made: set<Point>)
    requires Mirrors(vol, LatticeOf(ins)) && AllUnmoved(vol, cam, owner)
    ensures Mirrors(r, LatticeOf(ins + CellInserts(n, a, b))) && AllUnmoved(r, cam, owner)
    ensures fresh(made) && Within(r, vol, made)
  {
    ghost var spec := LatticeOf(ins);
    var r1, p1 := StorePoint(cam, vol, spec, NestKey(n, a, b, false), NestCoords(n, a, b, false), owner);
    ghost var spec1 := AppendDict(spec, NestKey(n, a, b, false), NestCoords(n, a, b, false));
    var p2;
    r, p2 := StorePoint(cam, r1, spec1, NestKey(n, a, b, true), NestCoords(n, a, b, true), owner);
    WithinTrans(r, r1, vol, {p1}, {p2});
    made := {p1, p2};
    LatticeOfCell(ins, n, a, b);
  }

  /** `volume_points = append_dict(volume_points, i, j, k, Point(...))`: a new
      Point, stored only when the key is free. */
  method StorePoint(cam: Camera, vol: Nested<Point>, ghost spec: Nested<Vec3>, key: Key, v: Vec3, ghost owner: Part)
    returns (r: Nested<Point>, pt: Point)
    requires Mirrors(vol, spec) && AllUnmoved(vol, cam, owner)
    ensures r == AppendDict(vol, key, pt)
    ensures Mirrors(r, AppendDict(spec, key, v)) && AllUnmoved(r, cam, owner)
    ensures fresh(pt) && Within(r, vol, {pt})
  {
    pt := new Point(cam, v, Some(owner));
    MirrorsAppend(vol, spec, key, pt, v);
    WithinAppend(vol, key, pt);
    r := AppendDict(vol, key, pt);
  }

  /** The inner lattice loop: b over `range(lo2, hi2)` for a fixed a. */
  method StoreRow(cam: Camera, vol: Nested<Point>, ghost ins: seq<Insert>, n: Nest, a: int, ghost owner: Part)
    returns (r: Nested<Point>, ghost made: set<Point>)
    requires Mirrors(vol, LatticeOf(ins)) && AllUnmoved(vol, cam, owner)
    ensures Mirrors(r, LatticeOf(ins + RowInserts(n, a, Span(n.lo2, n.hi2)))) && AllUnmoved(r, cam, owner)
    ensures fresh(made) && Within(r, vol, made)
  {
    r, made := vol, {};
    assert ins + RowInserts(n, a, 0) == ins;
    var k := 0;
    while k < Span(n.lo2, n.hi2)
      invariant k <= Span(n.lo2, n.hi2)
      invariant Mirrors(r, LatticeOf(ins + RowInserts(n, a, k))) && AllUnmoved(r, cam, owner)
      invariant fresh(made) && Within(r, vol, made)
    {
      ghost var q := r;
      ghost var m;
      r, m := StoreCell(cam, r, ins + RowInserts(n, a, k), n, a, n.lo2 + k, owner);
      WithinTrans(r, q, vol, made, m);
      made := made + m;
      RowInsertsStep(ins, n, a, k);
      k := k + 1;
    }
  }

  /** One more step of the inner loop. */
  lemma RowInsertsStep(ins: seq<Insert>, n: Nest, a: int, k: nat)
    ensures ins + RowInserts(n, a, k) + CellInserts(n, a, n.lo2 + k) == ins + RowInserts(n, a, k + 1)
  {
  }

  /** One more round of the outer loop. */
  lemma NestRowsStep(ins: seq<Insert>, n: Nest, m: nat)
    ensures ins + NestRows(n, m) + RowInserts(n, n.lo1 + m, Span(n.lo2, n.hi2)) == ins + NestRows(n, m + 1)
  {
  }

  /** One loop pair: a over `range(lo1, hi1)`, then the inner loop. */
  method StoreNest(cam: Camera, vol: Nested<Point>, ghost ins: seq<Insert>, n: Nest, ghost owner: Part)
    returns (r: Nested<Point>, ghost made: set<Point>)
    requires Mirrors(vol, LatticeOf(ins)) && AllUnmoved(vol, cam, owner)
    ensures Mirrors(r, LatticeOf(ins + NestInserts(n))) && AllUnmoved(r, cam, owner)
    ensures fresh(made) && Within(r, vol, made)
  {
    r, made := vol, {};
    assert ins + NestRows(n, 0) == ins;
    var m := 0;
    while m < Span(n.lo1, n.hi1)
      invariant m <= Span(n.lo1, n.hi1)
      invariant Mirrors(r, LatticeOf(ins + NestRows(n, m))) && AllUnmoved(r, cam, owner)
      invariant fresh(made) && Within(r, vol, made)
    {
      ghost var q := r;
      ghost var rowMade;
      r, rowMade := StoreRow(cam, r, ins + NestRows(n, m), n, n.lo1 + m, owner);
      WithinTrans(r, q, vol, made, rowMade);
      made := made + rowMade;
      NestRowsStep(ins, n, m);
      m := m + 1;
    }
  }

  /** The lattice loops of one part, loop pair by loop pair: every Point is
      new, unmoved, and stands where the value-level lattice puts the same
      coordinates. */
  method BuildVolume(cam: Camera, nests: seq<Nest>, ghost owner: Part) returns (vol: Nested<Point>)
    ensures Mirrors(vol, LatticeOf(LatticeInserts(nests)))
    ensures AllUnmoved(vol, cam, owner)
    ensures fresh(Values(vol))
  {
    vol := map[];
    ghost var made: set<Point> := {};
    for ni := 0 to |nests|
      invariant Mirrors(vol, LatticeOf(LatticeInserts(nests[..ni]))) && AllUnmoved(vol, cam, owner)
      invariant fresh(made) && Within(vol, map[], made)
    {
      ghost var q := vol;
      ghost var nestMade;
      vol, nestMade := StoreNest(cam, vol, LatticeInserts(nests[..ni]), nests[ni], owner);
      WithinTrans(vol, q, map[], made, nestMade);
      made := made + nestMade;
      assert nests[..ni + 1][..ni] == nests[..ni];
    }
    assert nests[..|nests|] == nests;
    forall d | d in Values(vol)
      ensures fresh(d)
    {
      var key := ValueAt(vol, d);
      assert PointAt(vol, key).Some? && PointAt(map[], key).None?;
    }
  }

  /** The polygons of a face loop stand for its quads: one each, in order,
      with the quad's colour, and with the Points stored at the quad's four
      keys as dots, so quads that share a key share the Point. */
  ghost predicate Realizes(polys: seq<Polygon>, quads: seq<Quad>, vol: Nested<Point>)
  {
    |polys| == |quads| &&
    forall n | 0 <= n < |polys| ::
      polys[n].color == quads[n].color && |polys[n].dots| == 4 && |quads[n].keys| == 4 &&
      forall k | 0 <= k < 4 :: Lookup(vol, quads[n].keys[k]) == Some(polys[n].dots[k])
  }

  lemma RealizesAppend(p1: seq<Polygon>, q1: seq<Quad>, p2: seq<Polygon>, q2: seq<Quad>, vol: Nested<Point>)
    requires Realizes(p1, q1, vol) && Realizes(p2, q2, vol)
    ensures Realizes(p1 + p2, q1 + q2, vol)
  {
    forall n | 0 <= n < |p1 + p2|
      ensures (p1 + p2)[n].color == (q1 + q2)[n].color && |(p1 + p2)[n].dots| == 4 && |(q1 + q2)[n].keys| == 4 &&
        forall k | 0 <= k < 4 :: Lookup(vol, (q1 + q2)[n].keys[k]) == Some((p1 + p2)[n].dots[k])
    {
      if n < |p1| {
        assert (p1 + p2)[n] == p1[n] && (q1 + q2)[n] == q1[n];
      } else {
        assert (p1 + p2)[n] == p2[n - |p1|] && (q1 + q2)[n] == q2[n - |q1|];
      }
    }
  }

  /** The dots of a realized polygon were created at the quad's corners. */
  lemma RealizedCorners(img: array2<Rgba>, f: FaceLoop, vol: Nested<Point>, spec: Nested<Vec3>,
                        polys: seq<Polygon>, n: nat, k: nat)
    requires Mirrors(vol, spec) && FaceQuads(img, f, spec).Ok?
    requires Realizes(polys, FaceQuads(img, f, spec).value, vol)
    requires n < |polys| && k < 4
    ensures |FaceQuads(img, f, spec).value[n].corners| == 4
    ensures polys[n].dots[k].init == FaceQuads(img, f, spec).value[n].corners[k]
  {
    var q := FaceQuads(img, f, spec).value[n];
    FaceQuadsExact(img, f, spec, q);
    var a, b :| QuadOf(img, f, spec, a, b, q);
    assert Lookup(vol, q.keys[k]) == Some(polys[n].dots[k]);
    assert Lookup(spec, q.keys[k]) == Some(q.corners[k]);
  }

  /** One cell of a face loop: read the texel (IndexError outside the image)
      and, when its alpha is non-zero, make a Polygon of the four looked-up
      Points (KeyError when one is missing). */
  method CellPolygon(img: array2<Rgba>, f: FaceLoop, vol: Nested<Point>, ghost spec: Nested<Vec3>, a: int, b: int)
    returns (r: Result<Option<Polygon>>)
    requires Mirrors(vol, spec)
    ensures r.Ok? <==> CellQuad(img, f, spec, a, b).Ok?
    ensures r.Err? ==> r.error == CellQuad(img, f, spec, a, b).error
    ensures r.Ok? ==> (r.value.Some? <==> CellQuad(img, f, spec, a, b).value.Some?)
    ensures r.Ok? && r.value.Some? ==>
      Realizes([r.value.value], [CellQuad(img, f, spec, a, b).value.value], vol) &&
      fresh(r.value.value) && !r.value.value.isProjected
  {
    var t := Texel(f, a, b);
    var c := GetPixel(img, t.0, t.1);
    if c.Err? {
      return Err(c.error);
    }
    if c.value.a == 0 {
      return Ok(None);
    }
    var keys := QuadKeys(f, a, b);
    var d0, d1, d2, d3 := Lookup(vol, keys[0]), Lookup(vol, keys[1]), Lookup(vol, keys[2]), Lookup(vol, keys[3]);
    if d0.None? || d1.None? || d2.None? || d3.None? {
      assert !AllStored(spec, keys);
      return Err(KeyError);
    }
    assert AllStored(spec, keys);
    var poly := new Polygon([d0.value, d1.value, d2.value, d3.value], c.value);
    r := Ok(Some(poly));
  }

  /** The inner loop of a face loop: b over `range(lo2, hi2)` for a fixed a. */
  method RowPolygons(img: array2<Rgba>, f: FaceLoop, vol: Nested<Point>, ghost spec: Nested<Vec3>, a: int)
    returns (r: Result<seq<Polygon>>)
    requires Mirrors(vol, spec)
    ensures r.Ok? <==> RowQuads(img, f, spec, a, Span(f.lo2, f.hi2)).Ok?
    ensures r.Err? ==> r.error == RowQuads(img, f, spec, a, Span(f.lo2, f.hi2)).error
    ensures r.Ok? ==> Realizes(r.value, RowQuads(img, f, spec, a, Span(f.lo2, f.hi2)).value, vol)
    ensures r.Ok? ==> forall poly | poly in r.value :: fresh(poly) && !poly.isProjected
  {
    var row: seq<Polygon> := [];
    var k := 0;
    while k < Span(f.lo2, f.hi2)
      invariant k <= Span(f.lo2, f.hi2)
      invariant RowQuads(img, f, spec, a, k).Ok? && Realizes(row, RowQuads(img, f, spec, a, k).value, vol)
      invariant forall poly | poly in row :: fresh(poly) && !poly.isProjected
    {
      var c := CellPolygon(img, f, vol, spec, a, f.lo2 + k);
      if c.Err? {
        RowErrStays(img, f, spec, a, k + 1, Span(f.lo2, f.hi2));
        return Err(c.error);
      }
      if c.value.Some? {
        RealizesAppend(row, RowQuads(img, f, spec, a, k).value, [c.value.value],
                       [CellQuad(img, f, spec, a, f.lo2 + k).value.value], vol);
        row := row + [c.value.value];
      }
      k := k + 1;
    }
    r := Ok(row);
  }

  /** One face loop: a over `range(lo1, hi1)`, then the inner loop. The
      result is the value-level face loop's, with a Polygon for each quad. */
  method FaceLoopPolygons(img: array2<Rgba>, f: FaceLoop, vol: Nested<Point>, ghost spec: Nested<Vec3>)
    returns (r: Result<seq<Polygon>>)
    requires Mirrors(vol, spec)
    ensures r.Ok? <==> FaceQuads(img, f, spec).Ok?
    ensures r.Err? ==> r.error == FaceQuads(img, f, spec).error
    ensures r.Ok? ==> Realizes(r.value, FaceQuads(img, f, spec).value, vol)
    ensures r.Ok? ==> forall poly | poly in r.value :: fresh(poly) && !poly.isProjected
  {
    var acc: seq<Polygon> := [];
    var m := 0;
    while m < Span(f.lo1, f.hi1)
      invariant m <= Span(f.lo1, f.hi1)
      invariant FaceRows(img, f, spec, m).Ok? && Realizes(acc, FaceRows(img, f, spec, m).value, vol)
      invariant forall poly | poly in acc :: fresh(poly) && !poly.isProjected
    {
      var row := RowPolygons(img, f, vol, spec, f.lo1 + m);
      if row.Err? {
        FaceErrStays(img, f, spec, m + 1, Span(f.lo1, f.hi1));
        return Err(row.error);
      }
      RealizesAppend(acc, FaceRows(img, f, spec, m).value, row.value,
                     RowQuads(img, f, spec, f.lo1 + m, Span(f.lo2, f.hi2)).value, vol);
      acc := acc + row.value;
      m := m + 1;
    }
    r := Ok(acc);
  }
}
