/** The `Render` class of both renderers: the pipeline `get_render` runs,
    `calculate_angles`, `determine_faces`, `generate_polygons`,
    `member_rotation`, `create_project_plan` and `display_image`, over the
    render's own state. The legacy renderer is the same class with `legacy`
    set: it resets `cube_points` for every part, takes the model-wide faces
    from an unturned cube, builds its second layers on every face, and has no
    cape and no slim arms. */
module Render {
  import opened Common
  import opened Images
  import opened Body
  import opened Mesh
  import opened Faces
  import opened Pose
  import opened Atlas
  import opened Quads
  import opened Volume
  import opened Generate
  import opened Blocks
  import opened Order
  import opened Raster

  const Origin := Vec3(0.0, 0.0, 0.0)

  /** Entries of `visible_faces` for the first n parts of `parts`: part m
      has back faces `want[m]` and front faces their complement. */
  predicate FoundUpTo(bk: map<Part, seq<Face>>, fr: map<Part, seq<Face>>, parts: seq<Part>, n: nat,
                      want: seq<seq<Face>>)
    requires n <= |parts| && n <= |want|
  {
    forall m | 0 <= m < n :: parts[m] in bk && parts[m] in fr &&
      bk[parts[m]] == want[m] && fr[parts[m]] == Complement(want[m])
  }

  /** Entering part n leaves the entries of the earlier parts alone when
      no part is listed twice. */
  lemma FoundNext(bk: map<Part, seq<Face>>, fr: map<Part, seq<Face>>, parts: seq<Part>, n: nat,
                  want: seq<seq<Face>>, w: seq<Face>)
    requires n < |parts| && n == |want| && FoundUpTo(bk, fr, parts, n, want)
    requires Distinct(parts)
    ensures FoundUpTo(bk[parts[n] := w], fr[parts[n] := Complement(w)], parts, n + 1, want + [w])
  {
  }

  /** Part p's face dictionary after generation: each face loop that runs
      gave one polygon per quad of its job, on the Points of the lattice
      dictionary `vols[p]`, and every other face is empty. */
  ghost predicate Made(polys: map<Part, map<Face, seq<Polygon>>>, vols: map<Part, Nested<Point>>, run: Run, p: Part)
  {
    p in polys && p in vols && Built(polys[p], vols[p], run, p, |LoopFaces|)
  }

  /** The face dictionaries after the first n blocks: their parts are made
      and the other parts still have their empty face lists. */
  ghost predicate Midway(polys: map<Part, map<Face, seq<Polygon>>>, vols: map<Part, Nested<Point>>, run: Run, n: nat)
  {
    n <= |GenParts| &&
    (forall m | 0 <= m < n :: Made(polys, vols, run, GenParts[m])) &&
    forall m | n <= m < |GenParts| :: GenParts[m] in polys && polys[GenParts[m]] == NoPolygons
  }

  /** Block n makes its own part and leaves the others alone. */
  lemma MidwayNext(polys0: map<Part, map<Face, seq<Polygon>>>, vols0: map<Part, Nested<Point>>,
                   polys: map<Part, map<Face, seq<Polygon>>>, vols: map<Part, Nested<Point>>, run: Run, n: nat)
    requires n < |GenParts| && Midway(polys0, vols0, run, n) && Made(polys, vols, run, GenParts[n])
    requires forall q | q != GenParts[n] && q in polys0 :: q in polys && polys[q] == polys0[q]
    requires forall q | q != GenParts[n] && q in vols0 :: q in vols && vols[q] == vols0[q]
    ensures Midway(polys, vols, run, n + 1)
  {
    GenPartsListed();
    forall m | 0 <= m < n
      ensures Made(polys, vols, run, GenParts[m])
    {
      assert GenParts[m] != GenParts[n];
    }
    forall m | n + 1 <= m < |GenParts|
      ensures GenParts[m] in polys && polys[GenParts[m]] == NoPolygons
    {
      assert GenParts[m] != GenParts[n];
    }
  }

  /** After the last block every part is made. */
  lemma MidwayAll(polys: map<Part, map<Face, seq<Polygon>>>, vols: map<Part, Nested<Point>>, run: Run)
    requires Midway(polys, vols, run, |GenParts|)
    ensures forall p: Part :: Made(polys, vols, run, p)
  {
    GenPartsListed();
    forall p: Part
      ensures Made(polys, vols, run, p)
    {
      assert p in GenParts;
      var m :| 0 <= m < |GenParts| && GenParts[m] == p;
    }
  }

  /** The parts `member_rotation` visits, in source order. */
  const RotationOrder: seq<Part> :=
    [Head, Helmet, Cape, RArm, RArmLayer, LArm, LArmLayer, RLeg, RLegLayer, LLeg, LLegLayer]

  /** Every part that turns is visited: only the torso and its layer are
      left out. */
  lemma RotationOrderCovers(p: Part, headOnly: bool, displayHair: bool, legacy: bool)
    requires Rotates(p, headOnly, displayHair, legacy)
    ensures p in RotationOrder
  {
    match p {
      case Head => assert RotationOrder[0] == p;
      case Helmet => assert RotationOrder[1] == p;
      case Cape => assert RotationOrder[2] == p;
      case RArm => assert RotationOrder[3] == p;
      case RArmLayer => assert RotationOrder[4] == p;
      case LArm => assert RotationOrder[5] == p;
      case LArmLayer => assert RotationOrder[6] == p;
      case RLeg => assert RotationOrder[7] == p;
      case RLegLayer => assert RotationOrder[8] == p;
      case LLeg => assert RotationOrder[9] == p;
      case LLegLayer => assert RotationOrder[10] == p;
    }
  }

  /** Each face's list belongs to the part's Polygons. */
  lemma InPieces(faces: map<Face, seq<Polygon>>, f: Face, poly: Polygon)
    requires f in faces && poly in faces[f]
    ensures poly in Pieces(faces)
  {
  }

  /** Every Polygon of a part sits in the list of one of its six faces. */
  lemma PieceFace(faces: map<Face, seq<Polygon>>, poly: Polygon) returns (f: Face)
    requires poly in Pieces(faces)
    ensures f in faces && poly in faces[f] && f in PolygonFaces
  {
    var g: Face, q: Polygon :| g in faces && q in faces[g] && q == poly;
    f := g;
    match f {
      case Front => assert PolygonFaces[0] == f;
      case Back => assert PolygonFaces[1] == f;
      case Top => assert PolygonFaces[2] == f;
      case Bottom => assert PolygonFaces[3] == f;
      case Right => assert PolygonFaces[4] == f;
      case Left => assert PolygonFaces[5] == f;
    }
  }

  /** Every polygon of `polys` is in `pieces`, and its dots are in
      `points` and were made by its own part. */
  ghost predicate Listed(polys: map<Part, map<Face, seq<Polygon>>>, pieces: set<Polygon>, points: set<Point>)
  {
    forall p | p in polys :: Pieces(polys[p]) <= pieces &&
      forall poly | poly in Pieces(polys[p]) :: forall d | d in poly.dots :: d in points && d.owner == Some(p)
  }

  /** Entering the face dictionary of one more part keeps the others
      listed. */
  lemma ListedAdd(polys: map<Part, map<Face, seq<Polygon>>>, pieces: set<Polygon>, points: set<Point>,
                  p: Part, faces: map<Face, seq<Polygon>>, dots: set<Point>)
    requires Listed(polys, pieces, points)
    requires forall poly, d | poly in Pieces(faces) && d in poly.dots :: d in dots && d.owner == Some(p)
    ensures Listed(polys[p := faces], pieces + Pieces(faces), points + dots)
  {
  }

  /** Every part has its six face lists, so no lookup of `display_image`
      or `create_project_plan` raises. */
  predicate Complete(polys: map<Part, map<Face, seq<Polygon>>>)
  {
    forall p: Part :: p in polys && forall f: Face :: f in polys[p]
  }

  /** Once every part is made, every part has its six face lists. */
  lemma MadeComplete(polys: map<Part, map<Face, seq<Polygon>>>, vols: map<Part, Nested<Point>>, run: Run)
    requires forall p: Part :: Made(polys, vols, run, p)
    ensures Complete(polys)
  {
    forall p: Part
      ensures p in polys
    {
      assert Made(polys, vols, run, p);
    }
    forall p: Part, f: Face
      ensures f in polys[p]
    {
      assert Made(polys, vols, run, p);
      assert Built(polys[p], vols[p], run, p, |LoopFaces|);
      match f {
        case Back => assert LoopFaces[0] == f;
        case Front => assert LoopFaces[1] == f;
        case Right => assert LoopFaces[2] == f;
        case Left => assert LoopFaces[3] == f;
        case Top => assert LoopFaces[4] == f;
        case Bottom => assert LoopFaces[5] == f;
      }
    }
  }

  /** The dots of every Polygon are among `points`. */
  ghost predicate Owned(polys: map<Part, map<Face, seq<Polygon>>>, points: set<Point>)
  {
    forall p, f, poly, d | p in polys && f in polys[p] && poly in polys[p][f] && d in poly.dots :: d in points
  }

  lemma ListedOwned(polys: map<Part, map<Face, seq<Polygon>>>, pieces: set<Polygon>, points: set<Point>)
    requires Listed(polys, pieces, points)
    ensures Owned(polys, points)
  {
    forall p, f, poly, d | p in polys && f in polys[p] && poly in polys[p][f] && d in poly.dots
      ensures d in points
    {
      InPieces(polys[p], f, poly);
    }
  }

  class Render {
    const legacy: bool
    /** `cos_a`, `sin_a`, `cos_b`, `sin_b` and `min_x`, `max_x`, `min_y`,
        `max_y`, shared with every Point the render makes. */
    const cam: Camera
    const turns: Turns
    const ratio: int
    const headOnly: bool
    const displayHair: bool
    const layers: bool
    const displayCape: bool
    const aa: bool

    var bodyAngles: map<Part, Angles>
    var cubePoints: seq<(Point, seq<Face>)>
    /** `visible_faces[p]["back"]` and `visible_faces[p]["front"]`. */
    var back: map<Part, seq<Face>>
    var front: map<Part, seq<Face>>
    var frontFaces: seq<Face>
    var backFaces: seq<Face>
    /** What the corner loop knows of the entries of `cube_points`, in order. */
    ghost var marks: seq<Mark>
    /** Every Point `set_cube_points` has made. */
    ghost var cubeRepr: set<Point>
    /** `polygons[p][face]`. */
    var polygons: map<Part, map<Face, seq<Polygon>>>
    /** The lattice dictionary each part's polygons were cut from. */
    ghost var vols: map<Part, Nested<Point>>
    /** Every Point and every Polygon `generate_polygons` has made. */
    ghost var points: set<Point>
    ghost var pieces: set<Polygon>

    /** A new render: the cape is shown only when asked for and the player
        has a cape image, and never by the legacy renderer. */
    constructor (legacy: bool, turns: Turns, ratio: int, headOnly: bool, displayHair: bool, layers: bool,
                 displayCape: bool, hasCape: bool, aa: bool)
      ensures this.legacy == legacy && this.turns == turns && this.ratio == ratio
      ensures this.headOnly == headOnly && this.displayHair == displayHair && this.layers == layers && this.aa == aa
      ensures this.displayCape == (displayCape && hasCape && !legacy)
      ensures fresh(cam) && cam.view == NoTurn && cam.minX == 0.0 && cam.maxX == 0.0 && cam.minY == 0.0 && cam.maxY == 0.0
      ensures cubePoints == [] && marks == [] && cubeRepr == {}
      ensures polygons == map[] && vols == map[] && points == {} && pieces == {}
    {
      this.legacy := legacy;
      this.turns := turns;
      this.ratio := ratio;
      this.headOnly := headOnly;
      this.displayHair := displayHair;
      this.layers := layers;
      this.displayCape := displayCape && hasCape && !legacy;
      this.aa := aa;
      cam := new Camera();
      bodyAngles := map[];
      cubePoints := [];
      marks := [];
      cubeRepr := {};
      back, front := map[], map[];
      frontFaces, backFaces := [], [];
      polygons, vols, points, pieces := map[], map[], {}, {};
    }

    /** `calculate_angles`: the view rotation and the angles of every part. */
    method CalculateAngles()
      modifies this`bodyAngles, cam`view
      ensures cam.view == ViewOf(turns)
      ensures bodyAngles == BodyAngles(turns, legacy)
    {
      cam.view := ViewOf(turns);
      bodyAngles := BodyAngles(turns, legacy);
    }

    /** No Point is listed twice in `cube_points`, and all belong to this
        render and are among `cubeRepr`. */
    ghost predicate CubeDistinct()
      reads this
    {
      (forall i, j | 0 <= i < j < |cubePoints| :: cubePoints[i].0 != cubePoints[j].0) &&
      (forall i | 0 <= i < |cubePoints| ::
        cubePoints[i].0 in cubeRepr && cubePoints[i].0.cam == cam && cubePoints[i].0.owner.None?)
    }

    /** `marks` follows `cube_points` entry by entry. */
    ghost predicate Tracks()
      reads this, cubeRepr
    {
      |marks| == |cubePoints| &&
      forall q | 0 <= q < |cubePoints| ::
        cubePoints[q].0 in cubeRepr && marks[q] == Mark(cubePoints[q].1, cubePoints[q].0.origin, cubePoints[q].0.isPreProjected)
    }

    /** One `append` of `set_cube_points`: a new Point at corner c with the
        three faces meeting there. */
    method AppendCorner(c: nat) returns (pt: Point)
      requires c < 8 && CubeDistinct() && Tracks()
      modifies this`cubePoints, this`marks, this`cubeRepr
      ensures cubePoints == old(cubePoints) + [(pt, CornerLabels(c))] && fresh(pt)
      ensures cubeRepr == old(cubeRepr) + {pt}
      ensures marks == old(marks) + [FreshCube()[c]]
      ensures CubeDistinct() && Tracks()
    {
      pt := new Point(cam, Corner(c), None);
      cubePoints := cubePoints + [(pt, CornerLabels(c))];
      marks := marks + [FreshCube()[c]];
      cubeRepr := cubeRepr + {pt};
    }

    /** `set_cube_points`: eight new Points at the corners of the unit cube,
        each with the three faces meeting there, appended to `cube_points`;
        the legacy renderer empties the list first. */
    method SetCubePoints()
      requires CubeDistinct() && Tracks()
      modifies this`cubePoints, this`marks, this`cubeRepr
      ensures old(cubeRepr) <= cubeRepr && forall o | o in cubeRepr && o !in old(cubeRepr) :: fresh(o)
      ensures var base := if legacy then [] else old(cubePoints);
        |cubePoints| == |base| + 8 && cubePoints[..|base|] == base &&
        forall i | |base| <= i < |cubePoints| :: fresh(cubePoints[i].0)
      ensures marks == (if legacy then [] else old(marks)) + FreshCube()
      ensures CubeDistinct() && Tracks()
    {
      if legacy {
        cubePoints := [];
        marks := [];
      }
      ghost var base := cubePoints;
      ghost var ms := marks;
      ghost var added: seq<(Point, seq<Face>)> := [];
      for c := 0 to 8
        invariant cubePoints == base + added && |added| == c
        invariant forall d | 0 <= d < c :: fresh(added[d].0)
        invariant marks == ms + FreshCube()[..c]
        invariant old(cubeRepr) <= cubeRepr && forall o | o in cubeRepr && o !in old(cubeRepr) :: fresh(o)
        invariant CubeDistinct() && Tracks()
      {
        var pt := AppendCorner(c);
        added := added + [(pt, CornerLabels(c))];
        assert FreshCube()[..c + 1] == FreshCube()[..c] + [FreshCube()[c]];
      }
      assert cubePoints[..|base|] == base;
      assert FreshCube()[..8] == FreshCube();
    }

    /** Corner `pt` holds the model coordinates and the pre-projected flag
        of `m`. */
    ghost predicate Agrees(pt: Point, m: Mark)
      reads pt
    {
      pt.origin == m.origin && pt.isPreProjected == m.pre
    }

    /** Corner `pt` holds `m` and is projected with the view. */
    ghost predicate Settled(pt: Point, m: Mark, view: Angles)
      reads pt
    {
      Agrees(pt, m) && pt.isProjected && pt.dest == Turn(m.origin, view)
    }

    /** The body of the corner loop for corner q, which holds `m`:
        pre-project it (not in the final legacy pass), project it, and tell
        whether it replaces the best so far: always for the first corner,
        otherwise when the best, at depth `bz`, is strictly deeper. The best
        corner is already projected, so reading its depth changes nothing,
        and no other corner is touched. */
    method Visit(q: nat, t: Option<Angles>, best: nat, ghost m: Mark, ghost bz: real) returns (replace: bool)
      requires q < |cubePoints| && CubeDistinct() && Agrees(cubePoints[q].0, m)
      requires q > 0 ==> best < q && cubePoints[best].0.isProjected && cubePoints[best].0.dest.z == bz
      modifies cubePoints[q].0, cam, if q > 0 then {cubePoints[best].0} else {}
      ensures Settled(cubePoints[q].0, ScanMark(m, t), cam.view)
      ensures forall i | 0 <= i < |cubePoints| && i != q :: unchanged(cubePoints[i].0)
      ensures replace == (q == 0 || bz > Turn(ScanMark(m, t).origin, cam.view).z)
      ensures cam.view == old(cam.view)
    {
      var pt := cubePoints[q].0;
      if t.Some? {
        pt.PreProject(Origin, t.value);
      }
      pt.Project();
      if q == 0 {
        replace := true;
      } else {
        var bd := cubePoints[best].0.GetDepth();
        var d := pt.GetDepth();
        replace := bd > d;
      }
    }

    /** The corner loop of `determine_faces` over all of `cube_points`: each
        corner is pre-projected about the origin with the part's angles (the
        final legacy pass only projects), projected, and the first corner of
        strictly smallest depth is kept. */
    method ScanCube(t: Option<Angles>) returns (best: nat)
      requires cubePoints != [] && CubeDistinct() && Tracks()
      modifies cubeRepr, cam, this`marks
      ensures Tracks() && marks == ScanAll(old(marks), t)
      ensures best < |cubePoints| && best == ArgMinFirst(Depths(marks, cam.view))
      ensures cam.view == old(cam.view)
    {
      ghost var view := cam.view;
      ghost var was := marks;
      ghost var zs: seq<real> := [];
      best := 0;
      var q := 0;
      while q < |cubePoints|
        invariant q <= |cubePoints| && |zs| == q
        invariant if q == 0 then best == 0 else best < q
        invariant cam.view == view
        invariant forall i | 0 <= i < q :: Settled(cubePoints[i].0, ScanMark(was[i], t), view)
        invariant forall i | q <= i < |cubePoints| :: Agrees(cubePoints[i].0, was[i])
        invariant forall i | 0 <= i < q :: zs[i] == Turn(ScanMark(was[i], t).origin, view).z
        invariant forall i | 0 <= i < q :: zs[best] <= zs[i]
        invariant forall i | 0 <= i < best :: zs[i] > zs[best]
      {
        ghost var bz := if q == 0 then 0.0 else zs[best];
        var replace := Visit(q, t, best, was[q], bz);
        if replace {
          best := q;
        }
        zs := zs + [Turn(ScanMark(was[q], t).origin, view).z];
        q := q + 1;
      }
      marks := ScanAll(was, t);
      assert zs == Depths(marks, view);
      ArgMinFirstUnique(zs, best);
    }

    /** `cube_points` after the cubes of the first n parts of `visible_faces`
        in the current renderer. */
    ghost predicate Swept(n: nat)
      requires n <= |VisibleParts|
      reads this, cubeRepr
    {
      |cubePoints| == 8 * n && CubeDistinct() && Tracks() &&
      (forall p | p in VisibleParts :: p in bodyAngles) &&
      marks == SweptSeq(n, bodyAngles)
    }

    /** One round of the part loop of the current `determine_faces`: eight
        more corners, then a pass over all corners so far. The earlier
        corners are pre-projected already and keep their rotations, so the
        winner is the first deepest of all 8(n + 1) corners. */
    method ScanPart(n: nat) returns (best: nat)
      requires !legacy && n < |VisibleParts| && Swept(n)
      modifies this`cubePoints, this`marks, this`cubeRepr, cubeRepr, cam
      ensures Swept(n + 1)
      ensures old(cubeRepr) <= cubeRepr && forall o | o in cubeRepr && o !in old(cubeRepr) :: fresh(o)
      ensures cubePoints[..8 * n] == old(cubePoints) && forall i | 8 * n <= i < |cubePoints| :: fresh(cubePoints[i].0)
      ensures cam.view == old(cam.view)
      ensures best < |cubePoints| && cubePoints[best].1 == SweptBack(n, bodyAngles, cam.view)
    {
      var t := bodyAngles[VisibleParts[n]];
      ghost var ms := marks;
      SetCubePoints();
      best := ScanCube(Some(t));
    }

    /** One round of the part loop of the current `determine_faces`: scan
        part n's cube with all earlier ones and enter the labels of the first
        deepest corner as the part's back faces, their complement as its
        front faces. */
    method EnterPart(n: nat, bk: map<Part, seq<Face>>, fr: map<Part, seq<Face>>)
      returns (bk': map<Part, seq<Face>>, fr': map<Part, seq<Face>>)
      requires !legacy && n < |VisibleParts| && Swept(n)
      requires FoundUpTo(bk, fr, VisibleParts, n, SweptBacks(n, bodyAngles, cam.view))
      modifies this`cubePoints, this`marks, this`cubeRepr, cubeRepr, cam
      ensures Swept(n + 1) && cam.view == old(cam.view)
      ensures old(cubeRepr) <= cubeRepr && forall o | o in cubeRepr && o !in old(cubeRepr) :: fresh(o)
      ensures FoundUpTo(bk', fr', VisibleParts, n + 1, SweptBacks(n + 1, bodyAngles, cam.view))
      ensures bk'.Keys == bk.Keys + {VisibleParts[n]} && fr'.Keys == fr.Keys + {VisibleParts[n]}
    {
      var best := ScanPart(n);
      var p := VisibleParts[n];
      VisiblePartsDistinct();
      FoundNext(bk, fr, VisibleParts, n, SweptBacks(n, bodyAngles, cam.view), cubePoints[best].1);
      bk' := bk[p := cubePoints[best].1];
      fr' := fr[p := Complement(cubePoints[best].1)];
    }

    /** The part loop of the current `determine_faces`: `cube_points`
        starts empty and is never cleared, so part n is given the labels of
        the first deepest of all 8(n + 1) corners so far. */
    method SweepParts() returns (bk: map<Part, seq<Face>>, fr: map<Part, seq<Face>>)
      requires !legacy && cubePoints == [] && marks == [] && cubeRepr == {}
      requires forall p | p in VisibleParts :: p in bodyAngles
      modifies this`cubePoints, this`marks, this`cubeRepr, cam
      ensures cam.view == old(cam.view)
      ensures forall m | 0 <= m < |VisibleParts| :: VisibleParts[m] in bk && VisibleParts[m] in fr
      ensures FoundUpTo(bk, fr, VisibleParts, |VisibleParts|, SweptBacks(|VisibleParts|, old(bodyAngles), old(cam.view)))
    {
      bk, fr := map[], map[];
      var n := 0;
      while n < |VisibleParts|
        invariant n <= |VisibleParts| && Swept(n) && cam.view == old(cam.view)
        invariant forall o | o in cubeRepr :: fresh(o)
        invariant forall m | 0 <= m < n :: VisibleParts[m] in bk && VisibleParts[m] in fr
        invariant FoundUpTo(bk, fr, VisibleParts, n, SweptBacks(n, bodyAngles, cam.view))
      {
        bk, fr := EnterPart(n, bk, fr);
        n := n + 1;
      }
    }

    /** `determine_faces` of the current renderer: the part loop, then the
        model-wide front faces are the torso's, and the back faces their
        complement. */
    method DetermineFacesCurrent()
      requires !legacy && cubePoints == [] && marks == [] && cubeRepr == {}
      requires forall p | p in VisibleParts :: p in bodyAngles
      modifies this`cubePoints, this`marks, this`cubeRepr, this`back, this`front, this`frontFaces, this`backFaces, cam
      ensures cam.view == old(cam.view)
      ensures FoundUpTo(back, front, VisibleParts, |VisibleParts|, SweptBacks(|VisibleParts|, old(bodyAngles), old(cam.view)))
      ensures Torso in front && frontFaces == front[Torso] && backFaces == Complement(frontFaces)
    {
      var bk, fr := SweepParts();
      assert VisibleParts[1] == Torso;
      back, front, frontFaces, backFaces := bk, fr, fr[Torso], Complement(fr[Torso]);
    }

    /** The legacy `set_cube_points` and corner loop: a cube of its own,
        scanned with angles t, or projected only when t is None. */
    method LoneScan(t: Option<Angles>) returns (labels: seq<Face>)
      requires legacy && CubeDistinct() && Tracks()
      modifies this`cubePoints, this`marks, this`cubeRepr, cubeRepr, cam
      ensures CubeDistinct() && Tracks() && cam.view == old(cam.view)
      ensures old(cubeRepr) <= cubeRepr && forall o | o in cubeRepr && o !in old(cubeRepr) :: fresh(o)
      ensures labels == CubeBack(if t.Some? then t.value else NoTurn, cam.view)
    {
      SetCubePoints();
      var best := ScanCube(t);
      LoneCube(t, cam.view);
      assert [] + FreshCube() == FreshCube();
      assert marks[best].labels == CornerLabels(best);
      labels := cubePoints[best].1;
    }

    /** One round of the part loop of the legacy `determine_faces`: a cube of
        the part's own, scanned with its angles, gives the part's back faces
        and their complement its front faces. */
    method EnterLone(n: nat, bk: map<Part, seq<Face>>, fr: map<Part, seq<Face>>)
      returns (bk': map<Part, seq<Face>>, fr': map<Part, seq<Face>>)
      requires legacy && n < |LegacyVisibleParts| && CubeDistinct() && Tracks()
      requires forall p | p in LegacyVisibleParts :: p in bodyAngles
      requires FoundUpTo(bk, fr, LegacyVisibleParts, n, LoneBacks(n, bodyAngles, cam.view))
      modifies this`cubePoints, this`marks, this`cubeRepr, cubeRepr, cam
      ensures CubeDistinct() && Tracks() && cam.view == old(cam.view)
      ensures old(cubeRepr) <= cubeRepr && forall o | o in cubeRepr && o !in old(cubeRepr) :: fresh(o)
      ensures FoundUpTo(bk', fr', LegacyVisibleParts, n + 1, LoneBacks(n + 1, bodyAngles, cam.view))
      ensures bk'.Keys == bk.Keys + {LegacyVisibleParts[n]} && fr'.Keys == fr.Keys + {LegacyVisibleParts[n]}
    {
      var p := LegacyVisibleParts[n];
      var labels := LoneScan(Some(bodyAngles[p]));
      VisiblePartsDistinct();
      FoundNext(bk, fr, LegacyVisibleParts, n, LoneBacks(n, bodyAngles, cam.view), labels);
      bk' := bk[p := labels];
      fr' := fr[p := Complement(labels)];
    }

    /** The part loop of the legacy `determine_faces`: every part gets a cube
        of its own. */
    method SweepLone() returns (bk: map<Part, seq<Face>>, fr: map<Part, seq<Face>>)
      requires legacy && CubeDistinct() && Tracks()
      requires forall p | p in LegacyVisibleParts :: p in bodyAngles
      modifies this`cubePoints, this`marks, this`cubeRepr, cubeRepr, cam
      ensures CubeDistinct() && Tracks() && cam.view == old(cam.view)
      ensures old(cubeRepr) <= cubeRepr && forall o | o in cubeRepr && o !in old(cubeRepr) :: fresh(o)
      ensures forall m | 0 <= m < |LegacyVisibleParts| :: LegacyVisibleParts[m] in bk && LegacyVisibleParts[m] in fr
      ensures FoundUpTo(bk, fr, LegacyVisibleParts, |LegacyVisibleParts|,
                        LoneBacks(|LegacyVisibleParts|, old(bodyAngles), old(cam.view)))
    {
      bk, fr := map[], map[];
      var n := 0;
      while n < |LegacyVisibleParts|
        invariant n <= |LegacyVisibleParts| && CubeDistinct() && Tracks() && cam.view == old(cam.view)
        invariant old(cubeRepr) <= cubeRepr && forall o | o in cubeRepr && o !in old(cubeRepr) :: fresh(o)
        invariant forall m | 0 <= m < n :: LegacyVisibleParts[m] in bk && LegacyVisibleParts[m] in fr
        invariant FoundUpTo(bk, fr, LegacyVisibleParts, n, LoneBacks(n, bodyAngles, cam.view))
      {
        bk, fr := EnterLone(n, bk, fr);
        n := n + 1;
      }
    }

    /** The last cube of the legacy `determine_faces`: only projected, its
        first deepest corner gives the model-wide back faces, and their
        complement the front faces. */
    method FinalCube()
      requires legacy && CubeDistinct() && Tracks()
      modifies this`cubePoints, this`marks, this`cubeRepr, cubeRepr, this`frontFaces, this`backFaces, cam
      ensures cam.view == old(cam.view)
      ensures backFaces == CubeBack(NoTurn, cam.view) && frontFaces == Complement(backFaces)
    {
      var labels := LoneScan(None);
      ghost var view := cam.view;
      backFaces, frontFaces := labels, Complement(labels);
      assert cam.view == view;
    }

    /** `determine_faces` of the legacy renderer: the part loop, then one
        more cube, only projected, whose first deepest corner gives the
        model-wide back faces, and their complement the front faces. */
    method DetermineFacesLegacy()
      requires legacy && CubeDistinct() && Tracks()
      requires forall p | p in LegacyVisibleParts :: p in bodyAngles
      modifies this`cubePoints, this`marks, this`cubeRepr, cubeRepr, this`back, this`front, this`frontFaces,
        this`backFaces, cam
      ensures cam.view == old(cam.view)
      ensures FoundUpTo(back, front, LegacyVisibleParts, |LegacyVisibleParts|,
                        LoneBacks(|LegacyVisibleParts|, old(bodyAngles), old(cam.view)))
      ensures backFaces == CubeBack(NoTurn, cam.view) && frontFaces == Complement(backFaces)
    {
      back, front := SweepLone();
      FinalCube();
    }

    /** What `generate_polygons` reads, as this render holds it. */
    function Request(h: int, skin: array2<Rgba>, cape: Option<array2<Rgba>>, slim: Result<bool>): Gen
      reads this
    {
      Gen(Options(headOnly, displayHair, layers, displayCape, legacy), front, h, slim, skin, cape)
    }

    /** Every polygon is listed in `pieces`, and its dots in `points`, made
        by its own part on this render's camera. */
    ghost predicate Stocked()
      reads this
    {
      Listed(polygons, pieces, points) && forall d | d in points :: d.cam == cam && d.owner.Some?
    }

    /** No Point has been turned or projected yet, and no Polygon projected. */
    ghost predicate Rested()
      reads this, points, pieces
    {
      (forall d | d in points :: d.origin == d.init && !d.isPreProjected && !d.isProjected) &&
      (forall poly | poly in pieces :: !poly.isProjected)
    }

    /** Enters the face dictionary of part p, cut from `volume`, whose
        Points `dots` have not been turned or projected yet. */
    method Store(p: Part, faces: map<Face, seq<Polygon>>, ghost volume: Nested<Point>, ghost dots: set<Point>)
      requires Stocked() && Rested()
      requires forall poly | poly in Pieces(faces) :: !poly.isProjected && forall d | d in poly.dots :: d in dots
      requires forall d | d in dots :: Unmoved(d, cam, p)
      modifies this`polygons, this`vols, this`points, this`pieces
      ensures polygons == old(polygons)[p := faces] && vols == old(vols)[p := volume]
      ensures points == old(points) + dots && pieces == old(pieces) + Pieces(faces)
      ensures Stocked() && Rested()
    {
      ListedAdd(polygons, pieces, points, p, faces, dots);
      polygons := polygons[p := faces];
      vols := vols[p := volume];
      points := points + dots;
      pieces := pieces + Pieces(faces);
    }

    /** One block of `generate_polygons` without the slim test: part p's
        face loops when the part is built, on the lattice shifted by s. */
    method EnterBlock(g: Gen, ghost run: Run, p: Part, s: int) returns (r: Outcome)
      requires Feeds(run, g) && (Generated(p, g.o) ==> s == Shift(g) || ShiftFree(p))
      requires p in polygons && polygons[p] == NoPolygons
      requires Stocked() && Rested()
      modifies this`polygons, this`vols, this`points, this`pieces
      ensures r == FacesOutcome(run, p, |LoopFaces|)
      ensures r.Pass? ==> Made(polygons, vols, run, p)
      ensures forall q | q != p && q in old(polygons) :: q in polygons && polygons[q] == old(polygons)[q]
      ensures forall q | q != p && q in old(vols) :: q in vols && vols[q] == old(vols)[q]
      ensures Stocked() && Rested()
    {
      var res, volume, dots := Block(cam, g, run, p, s);
      if res.Err? {
        return Fail(res.error);
      }
      Store(p, res.value, volume, dots);
      r := Pass;
    }

    /** The start of `generate_polygons`: six empty face lists for every
        part. */
    method ResetPolygons()
      modifies this`polygons, this`vols, this`points, this`pieces
      ensures forall p: Part :: p in polygons && polygons[p] == NoPolygons
      ensures Stocked() && Rested() && points == {} && pieces == {}
    {
      PartsListed();
      polygons := map p | p in PolygonParts :: NoPolygons;
      vols, points, pieces := map[], {}, {};
      assert Pieces(NoPolygons) == {};
    }

    /** The state of `generate_polygons` before block n, with shift
        `start`: the earlier blocks have passed and made their parts. */
    ghost predicate Ready(g: Gen, run: Run, n: nat, start: int)
      reads this, points, pieces
    {
      n <= |GenParts| && GenOutcome(run, n) == Pass && Midway(polygons, vols, run, n) &&
      (n <= SlimAt ==> start == 0) && (n > SlimAt && !g.o.headOnly ==> start == Shift(g)) &&
      Stocked() && Rested()
    }

    /** Block n of `generate_polygons`, with the slim test where it sits:
        the outcome of the first n + 1 blocks, and the shift from then on. */
    method Step(g: Gen, ghost run: Run, n: nat, start: int) returns (r: Outcome, next: int)
      requires Feeds(run, g) && n < |GenParts| && Ready(g, run, n, start)
      modifies this`polygons, this`vols, this`points, this`pieces
      ensures r == GenOutcome(run, n + 1)
      ensures r.Pass? ==> Ready(g, run, n + 1, next)
      ensures Stocked() && Rested()
    {
      next := start;
      if n == SlimAt && !g.o.headOnly && !g.o.legacy {
        match g.slim
        case Err(e) =>
          return Fail(e), next;
        case Ok(b) =>
          next := if b then 1 else 0;
      }
      if n < SlimAt {
        EarlyShiftFree(n);
      }
      ghost var polys0, vols0 := polygons, vols;
      r := EnterBlock(g, run, GenParts[n], next);
      if r.Pass? {
        MidwayNext(polys0, vols0, polygons, vols, run, n);
      }
    }

    /** `generate_polygons`: every part starts with six empty face lists,
        then the blocks run in source order; before the right arm the slim
        test either raises or fixes the shift of the arms. */
    method GeneratePolygons(h: int, skin: array2<Rgba>, cape: Option<array2<Rgba>>, slim: Result<bool>,
                            ghost run: Run) returns (r: Outcome)
      requires Feeds(run, Request(h, skin, cape, slim))
      modifies this`polygons, this`vols, this`points, this`pieces
      ensures r == GenOutcome(run, |GenParts|)
      ensures r.Pass? ==> (forall p: Part :: Made(polygons, vols, run, p)) && Complete(polygons)
      ensures Stocked() && Rested()
    {
      var g := Request(h, skin, cape, slim);
      ResetPolygons();
      r := RunBlocks(g, run);
      if r.Pass? {
        MadeComplete(polygons, vols, run);
      }
    }

    /** The blocks of `generate_polygons`, in source order. */
    method RunBlocks(g: Gen, ghost run: Run) returns (r: Outcome)
      requires Feeds(run, g) && g.o.headOnly == headOnly
      requires forall p: Part :: p in polygons && polygons[p] == NoPolygons
      requires Stocked() && Rested() && points == {} && pieces == {}
      modifies this`polygons, this`vols, this`points, this`pieces
      ensures r == GenOutcome(run, |GenParts|)
      ensures r.Pass? ==> forall p: Part :: Made(polygons, vols, run, p)
      ensures Stocked() && Rested()
    {
      var start := 0;
      for n := 0 to |GenParts|
        invariant Ready(g, run, n, start)
      {
        r, start := Step(g, run, n, start);
        if r.Fail? {
          GenFailStays(run, n + 1, |GenParts|);
          return;
        }
      }
      MidwayAll(polygons, vols, run);
      r := Pass;
    }

    /** Whether `member_rotation` turns part p. */
    predicate Swings(p: Part)
    {
      Rotates(p, headOnly, displayHair, legacy)
    }

    /** Where `member_rotation` leaves a Point of part p made at v: turned
        about the part's joint by the angles its `body_angles` key holds, or
        left alone. */
    function Posture(h: int, p: Part, v: Vec3): Vec3
      reads this
    {
      if Swings(p) && Pivot(p, h).Some? && AngleKey(p) in bodyAngles then
        RotateAbout(v, Pivot(p, h).value, bodyAngles[AngleKey(p)])
      else v
    }

    /** Every Point is where it was made or, when its part turns, turned once
        to its posture; none is projected. */
    ghost predicate Posed(h: int)
      reads this, points
    {
      forall d | d in points :: d.owner.Some? && !d.isProjected &&
        (d.isPreProjected ==> Swings(d.owner.value) && d.origin == Posture(h, d.owner.value, d.init)) &&
        (!d.isPreProjected ==> d.origin == d.init)
    }

    /** The loop over the Polygons of one face in `member_rotation`. */
    method RotateFace(h: int, p: Part, face: Face)
      requires Swings(p) && AngleKey(p) in bodyAngles
      requires p in polygons && face in polygons[p]
      requires Stocked() && Posed(h)
      modifies points
      ensures Posed(h)
      ensures forall d | d in points :: old(d.isPreProjected) ==> d.isPreProjected
      ensures forall poly, d | poly in polygons[p][face] && d in poly.dots :: d.isPreProjected
    {
      var pivot, t := Pivot(p, h).value, bodyAngles[AngleKey(p)];
      var polys := polygons[p][face];
      for i := 0 to |polys|
        invariant Posed(h)
        invariant forall d | d in points :: old(d.isPreProjected) ==> d.isPreProjected
        invariant forall k, d | 0 <= k < i && d in polys[k].dots :: d.isPreProjected
      {
        InPieces(polygons[p], face, polys[i]);
        polys[i].PreProject(pivot, t);
      }
    }

    /** The face loops of one part in `member_rotation`, in the order of the
        part's face dictionary. */
    method RotatePart(h: int, p: Part)
      requires Swings(p) && AngleKey(p) in bodyAngles
      requires p in polygons && forall f: Face :: f in polygons[p]
      requires Stocked() && Posed(h)
      modifies points
      ensures Posed(h)
      ensures forall d | d in points :: old(d.isPreProjected) ==> d.isPreProjected
      ensures forall poly, d | poly in Pieces(polygons[p]) && d in poly.dots :: d.isPreProjected
    {
      for k := 0 to |PolygonFaces|
        invariant Posed(h)
        invariant forall d | d in points :: old(d.isPreProjected) ==> d.isPreProjected
        invariant forall m, poly, d | 0 <= m < k && poly in polygons[p][PolygonFaces[m]] && d in poly.dots ::
          d.isPreProjected
      {
        RotateFace(h, p, PolygonFaces[k]);
      }
      forall poly, d | poly in Pieces(polygons[p]) && d in poly.dots
        ensures d.isPreProjected
      {
        var f := PieceFace(polygons[p], poly);
        var m :| 0 <= m < |PolygonFaces| && PolygonFaces[m] == f;
      }
    }

    /** `member_rotation`: the parts that turn, in source order, each about
        its joint. Afterwards every dot of a part's Polygons is at its
        posture: turned once if the part turns, where it was made
        otherwise. */
    method MemberRotation(h: int)
      requires forall p: Part :: p in polygons && forall f: Face :: f in polygons[p]
      requires forall p | Swings(p) :: AngleKey(p) in bodyAngles
      requires Stocked() && Posed(h)
      modifies points
      ensures Posed(h)
      ensures forall p, poly, d | p in polygons && poly in Pieces(polygons[p]) && d in poly.dots ::
        d.origin == Posture(h, p, d.init)
    {
      for k := 0 to |RotationOrder|
        invariant Posed(h)
        invariant forall m, poly, d | 0 <= m < k && Swings(RotationOrder[m]) &&
          poly in Pieces(polygons[RotationOrder[m]]) && d in poly.dots :: d.isPreProjected
      {
        if Swings(RotationOrder[k]) {
          RotatePart(h, RotationOrder[k]);
        }
      }
      forall p, poly, d | p in polygons && poly in Pieces(polygons[p]) && d in poly.dots
        ensures d.origin == Posture(h, p, d.init)
      {
        if Swings(p) {
          RotationOrderCovers(p, headOnly, displayHair, legacy);
          var m :| 0 <= m < |RotationOrder| && RotationOrder[m] == p;
        }
      }
    }

    /** Every projected Point holds its model coordinates turned by the view,
        inside the box, and every projected Polygon has all its dots
        projected. */
    ghost predicate Aimed()
      reads this, cam, points, pieces
    {
      (forall d | d in points && d.isProjected :: d.dest == Turn(d.origin, cam.view) && cam.Holds(d.dest)) &&
      (forall poly, d | poly in pieces && poly.isProjected && d in poly.dots :: d in points && d.isProjected)
    }

    /** The body of the innermost loop of `create_project_plan`: project
        the Polygon unless it is projected already. */
    method ProjectPolygon(p: Part, poly: Polygon)
      requires p in polygons && poly in Pieces(polygons[p])
      requires Stocked() && Aimed()
      modifies poly, poly.dots, cam
      ensures Aimed() && poly.isProjected
      ensures forall d | d in points :: d.origin == old(d.origin) && d.isPreProjected == old(d.isPreProjected)
      ensures cam.view == old(cam.view)
    {
      if !poly.isProjected {
        ghost var x0, x1, y0, y1 := cam.minX, cam.maxX, cam.minY, cam.maxY;
        poly.Project(cam);
        forall d | d in points && d.isProjected && d !in poly.dots
          ensures cam.Holds(d.dest)
        {
          GrownBoxHolds(d.dest, x0, x1, y0, y1, cam);
        }
      }
    }

    /** The loop over the Polygons of one face in `create_project_plan`. */
    method ProjectFace(p: Part, face: Face)
      requires p in polygons && face in polygons[p]
      requires Stocked() && Aimed()
      modifies pieces, points, cam
      ensures Aimed() && cam.view == old(cam.view)
      ensures forall d | d in points :: d.origin == old(d.origin) && d.isPreProjected == old(d.isPreProjected)
      ensures forall poly | poly in pieces :: old(poly.isProjected) ==> poly.isProjected
      ensures forall poly | poly in polygons[p][face] :: poly.isProjected
    {
      var polys := polygons[p][face];
      for i := 0 to |polys|
        invariant Aimed() && cam.view == old(cam.view)
        invariant forall d | d in points :: d.origin == old(d.origin) && d.isPreProjected == old(d.isPreProjected)
        invariant forall poly | poly in pieces :: old(poly.isProjected) ==> poly.isProjected
        invariant forall k | 0 <= k < i :: polys[k].isProjected
      {
        InPieces(polygons[p], face, polys[i]);
        ProjectPolygon(p, polys[i]);
      }
    }

    /** The face loop of one part in `create_project_plan`. */
    method ProjectPart(p: Part)
      requires p in polygons && forall f: Face :: f in polygons[p]
      requires Stocked() && Aimed()
      modifies pieces, points, cam
      ensures Aimed() && cam.view == old(cam.view)
      ensures forall d | d in points :: d.origin == old(d.origin) && d.isPreProjected == old(d.isPreProjected)
      ensures forall poly | poly in pieces :: old(poly.isProjected) ==> poly.isProjected
      ensures forall poly | poly in Pieces(polygons[p]) :: poly.isProjected
    {
      for k := 0 to |PolygonFaces|
        invariant Aimed() && cam.view == old(cam.view)
        invariant forall d | d in points :: d.origin == old(d.origin) && d.isPreProjected == old(d.isPreProjected)
        invariant forall poly | poly in pieces :: old(poly.isProjected) ==> poly.isProjected
        invariant forall m, poly | 0 <= m < k && poly in polygons[p][PolygonFaces[m]] :: poly.isProjected
      {
        ProjectFace(p, PolygonFaces[k]);
      }
      forall poly | poly in Pieces(polygons[p])
        ensures poly.isProjected
      {
        var f := PieceFace(polygons[p], poly);
        var m :| 0 <= m < |PolygonFaces| && PolygonFaces[m] == f;
      }
    }

    /** `create_project_plan`: every Polygon of every part, in the order of
        `polygons`, is projected unless it already is. Afterwards every dot
        of every Polygon is projected with the view and lies in the box;
        the model coordinates and the view stay as they were. */
    method CreateProjectPlan()
      requires forall p: Part :: p in polygons && forall f: Face :: f in polygons[p]
      requires Stocked() && Aimed()
      modifies pieces, points, cam
      ensures Aimed() && cam.view == old(cam.view)
      ensures forall d | d in points :: d.origin == old(d.origin) && d.isPreProjected == old(d.isPreProjected)
      ensures forall p, poly | p in polygons && poly in Pieces(polygons[p]) :: poly.isProjected
      ensures forall p, poly, d | p in polygons && poly in Pieces(polygons[p]) && d in poly.dots ::
        d.isProjected && d.dest == Turn(d.origin, cam.view) && cam.Holds(d.dest)
      ensures Placed()
    {
      for k := 0 to |PolygonParts|
        invariant Aimed() && cam.view == old(cam.view)
        invariant forall d | d in points :: d.origin == old(d.origin) && d.isPreProjected == old(d.isPreProjected)
        invariant forall m, poly | 0 <= m < k && poly in Pieces(polygons[PolygonParts[m]]) :: poly.isProjected
      {
        ProjectPart(PolygonParts[k]);
      }
      PartsListed();
      forall p, poly | p in polygons && poly in Pieces(polygons[p])
        ensures poly.isProjected
      {
        assert p in PolygonParts;
        var m :| 0 <= m < |PolygonParts| && PolygonParts[m] == p;
      }
      ListedOwned(polygons, pieces, points);
      forall p, f, poly | p in polygons && f in polygons[p] && poly in polygons[p][f]
        ensures Boxed(poly, cam.minX, cam.minY, cam.maxX - cam.minX, cam.maxY - cam.minY)
      {
        InPieces(polygons[p], f, poly);
      }
    }

    /** Every dot of every Polygon is in the box. */
    ghost predicate Placed()
      reads this, cam, points
    {
      Owned(polygons, points) &&
      forall p, f, poly | p in polygons && f in polygons[p] && poly in polygons[p][f] ::
        Boxed(poly, cam.minX, cam.minY, cam.maxX - cam.minX, cam.maxY - cam.minY)
    }

    /** The draw calls of `add_png_polygon` for the Polygons `polys`, in
        order, with the renderer's own test for an unset reference. */
    ghost function PolysDraws(polys: seq<Polygon>, minX: real, minY: real, r: real): seq<Draw>
      requires forall poly, d | poly in polys && d in poly.dots :: d in points
      reads this, points
    {
      if polys == [] then []
      else
        var last := polys[|polys| - 1];
        PolysDraws(polys[..|polys| - 1], minX, minY, r) + PngDraws(DestsOf(last.dots), minX, minY, r, last.color, !legacy)
    }

    /** The draw calls of the faces `faces` of part p, in order. */
    ghost function EntryDraws(p: Part, faces: seq<Face>, minX: real, minY: real, r: real): seq<Draw>
      requires Complete(polygons) && Owned(polygons, points)
      reads this, points
    {
      if faces == [] then []
      else EntryDraws(p, faces[..|faces| - 1], minX, minY, r) + PolysDraws(polygons[p][faces[|faces| - 1]], minX, minY, r)
    }

    /** The draw calls of a display order, entry by entry. */
    ghost function OrderDraws(order: seq<Entry>, minX: real, minY: real, r: real): seq<Draw>
      requires Complete(polygons) && Owned(polygons, points)
      reads this, points
    {
      if order == [] then []
      else OrderDraws(order[..|order| - 1], minX, minY, r) + EntryDraws(order[|order| - 1].0, order[|order| - 1].1, minX, minY, r)
    }

    /** Every dot of `poly` lies in the box [min_x, min_x + w] x
        [min_y, min_y + h]. */
    ghost predicate Boxed(poly: Polygon, minX: real, minY: real, w: real, h: real)
      reads poly.dots
    {
      forall d | d in poly.dots :: minX <= d.dest.x <= minX + w && minY <= d.dest.y <= minY + h
    }

    /** `add_png_polygon` of the render's own version for one Polygon
        whose dots lie in the box [min_x, min_x + w] x [min_y, min_y + h]:
        its draw calls stay inside [0, r * w] x [0, r * h]. */
    method DrawPolygon(poly: Polygon, minX: real, minY: real, r: real, ghost w: real, ghost h: real)
      returns (draws: seq<Draw>)
      requires r >= 0.0 && Boxed(poly, minX, minY, w, h)
      ensures draws == PngDraws(DestsOf(poly.dots), minX, minY, r, poly.color, !legacy)
      ensures InRect(draws, r * w, r * h)
    {
      if legacy {
        draws := poly.AddPngPolygonLegacy(minX, minY, r);
      } else {
        draws := poly.AddPngPolygon(minX, minY, r);
      }
      PolygonInRect(DestsOf(poly.dots), minX, minY, w, h, r, poly.color, !legacy);
    }

    /** One more Polygon adds its own draw calls at the end. */
    lemma PolysDrawsNext(polys: seq<Polygon>, i: nat, minX: real, minY: real, r: real)
      requires i < |polys| && forall poly, d | poly in polys && d in poly.dots :: d in points
      ensures PolysDraws(polys[..i + 1], minX, minY, r) ==
        PolysDraws(polys[..i], minX, minY, r) + PngDraws(DestsOf(polys[i].dots), minX, minY, r, polys[i].color, !legacy)
    {
      assert polys[..i + 1][..i] == polys[..i];
    }

    /** The innermost loop of `display_image`: the Polygons of one face
        list, in order. */
    method DrawPolys(polys: seq<Polygon>, minX: real, minY: real, r: real, ghost w: real, ghost h: real)
      returns (draws: seq<Draw>)
      requires r >= 0.0 && forall poly, d | poly in polys && d in poly.dots :: d in points
      requires forall poly | poly in polys :: Boxed(poly, minX, minY, w, h)
      ensures draws == PolysDraws(polys, minX, minY, r)
      ensures InRect(draws, r * w, r * h)
    {
      draws := [];
      for i := 0 to |polys|
        invariant draws == PolysDraws(polys[..i], minX, minY, r)
        invariant InRect(draws, r * w, r * h)
      {
        var more := DrawPolygon(polys[i], minX, minY, r, w, h);
        InRectAppend(draws, more, r * w, r * h);
        PolysDrawsNext(polys, i, minX, minY, r);
        draws := draws + more;
      }
      assert polys[..|polys|] == polys;
    }

    /** One more face adds the draw calls of its Polygons at the end. */
    lemma EntryDrawsNext(p: Part, faces: seq<Face>, k: nat, minX: real, minY: real, r: real)
      requires Complete(polygons) && Owned(polygons, points) && k < |faces|
      ensures EntryDraws(p, faces[..k + 1], minX, minY, r) ==
        EntryDraws(p, faces[..k], minX, minY, r) + PolysDraws(polygons[p][faces[k]], minX, minY, r)
    {
      assert faces[..k + 1][..k] == faces[..k];
    }

    /** The face loop of one entry of the display order. */
    method DrawEntry(p: Part, faces: seq<Face>, minX: real, minY: real, r: real, ghost w: real, ghost h: real)
      returns (draws: seq<Draw>)
      requires Complete(polygons) && Owned(polygons, points) && r >= 0.0
      requires forall f, poly | f in polygons[p] && poly in polygons[p][f] :: Boxed(poly, minX, minY, w, h)
      ensures draws == EntryDraws(p, faces, minX, minY, r)
      ensures InRect(draws, r * w, r * h)
    {
      draws := [];
      for k := 0 to |faces|
        invariant draws == EntryDraws(p, faces[..k], minX, minY, r)
        invariant InRect(draws, r * w, r * h)
      {
        var more := DrawPolys(polygons[p][faces[k]], minX, minY, r, w, h);
        InRectAppend(draws, more, r * w, r * h);
        EntryDrawsNext(p, faces, k, minX, minY, r);
        draws := draws + more;
      }
      assert faces[..|faces|] == faces;
    }

    /** The loop of `display_image` over the display order. */
    method DrawOrder(order: seq<Entry>, minX: real, minY: real, r: real, ghost w: real, ghost h: real)
      returns (draws: seq<Draw>)
      requires Complete(polygons) && Owned(polygons, points) && r >= 0.0
      requires forall p, f, poly | p in polygons && f in polygons[p] && poly in polygons[p][f] :: Boxed(poly, minX, minY, w, h)
      ensures draws == OrderDraws(order, minX, minY, r)
      ensures InRect(draws, r * w, r * h)
    {
      draws := [];
      for i := 0 to |order|
        invariant draws == OrderDraws(order[..i], minX, minY, r)
        invariant InRect(draws, r * w, r * h)
      {
        var more := DrawEntry(order[i].0, order[i].1, minX, minY, r, w, h);
        InRectAppend(draws, more, r * w, r * h);
        assert order[..i + 1][..i] == order[..i];
        draws := draws + more;
      }
      assert order[..|order|] == order;
    }

    /** `display_image`: the scale, the canvas size, the draw calls of the
        display order entry by entry, face by face and Polygon by Polygon,
        and the halved size under anti-aliasing. Every drawn point lies
        inside the canvas. */
    method DisplayImage() returns (img: Picture)
      requires Knows(front, legacy) && Complete(polygons) && Placed()
      ensures img == Sized(Scale(ratio, aa) as real, aa, cam.maxX - cam.minX, cam.maxY - cam.minY,
        OrderDraws(DisplayOrder(frontFaces, backFaces, front, legacy), cam.minX, cam.minY, Scale(ratio, aa) as real))
      ensures InCanvas(img)
      ensures aa ==> Halved(img)
    {
      var width := cam.maxX - cam.minX;
      var height := cam.maxY - cam.minY;
      var r := Scale(ratio, aa) as real;
      var order := DisplayOrder(frontFaces, backFaces, front, legacy);
      var draws := DrawOrder(order, cam.minX, cam.minY, r, width, height);
      assert draws == OrderDraws(order, cam.minX, cam.minY, r);
      SizedInCanvas(r, aa, width, height, draws);
      SizedHalved(r, aa, width, height, draws);
      img := Sized(r, aa, width, height, draws);
    }
  }
}
