/** One part's block of `generate_polygons` on the heap: the lattice loops
    fill a fresh `volume_points`, then each face loop that runs appends the
    part's Polygons for that face. Proved against the value-level run of the
    generation module. */
module Blocks {
  import opened Common
  import opened Images
  import opened Body
  import opened Mesh
  import opened Atlas
  import opened Quads
  import opened Volume
  import opened Generate

  /** `{"front": [], "back": [], "top": [], "bottom": [], "right": [], "left": []}`. */
  const NoPolygons: map<Face, seq<Polygon>> := map[Front := [], Back := [], Top := [], Bottom := [], Right := [], Left := []]

  /** The parts whose blocks come before `start` is computed; their loops do
      not depend on it. */
  predicate ShiftFree(p: Part)
  {
    p == Head || p == Helmet || p == Torso || p == TorsoLayer || p == Cape
  }

  lemma ShiftUnused(p: Part, face: Face, h: int, s: int)
    requires ShiftFree(p)
    ensures Loop(p, face, h, s) == Loop(p, face, h, 0)
    ensures LatticeFor(p, h, s) == LatticeFor(p, h, 0)
  {
  }

  /** The blocks before the slim test are those of parts without arms or
      legs. */
  lemma EarlyShiftFree(n: nat)
    requires n < SlimAt
    ensures ShiftFree(GenParts[n])
  {
  }

  /** A block before the slim test runs the same loops as the value-level
      run, which uses the final shift everywhere. */
  lemma JobAtShift(g: Gen, p: Part, face: Face, s: int)
    requires s == Shift(g) || ShiftFree(p)
    ensures Loop(p, face, g.h, s) == Loop(p, face, g.h, Shift(g))
    ensures LatticeFor(p, g.h, s) == LatticeFor(p, g.h, Shift(g))
  {
    if s != Shift(g) {
      ShiftUnused(p, face, g.h, s);
      ShiftUnused(p, face, g.h, Shift(g));
    }
  }

  /** The face lists of a part after its first k face loops: for each loop
      that runs, one Polygon per quad of the loop over the part's Points, and
      nothing for a loop that does not run. */
  ghost predicate Built(faces: map<Face, seq<Polygon>>, vol: Nested<Point>, run: Run, p: Part, k: nat)
    requires k <= |LoopFaces|
  {
    forall j | 0 <= j < k :: LoopFaces[j] in faces &&
      if Runs(run, p, LoopFaces[j]) then
        run.jobs[(p, LoopFaces[j])].Ok? && Realizes(faces[LoopFaces[j]], run.jobs[(p, LoopFaces[j])].value, vol)
      else faces[LoopFaces[j]] == []
  }

  /** The six face loops of a part, in source order, with the shift s. */
  function LoopsOf(p: Part, h: int, s: int): (r: seq<FaceLoop>)
    ensures |r| == |LoopFaces| && forall j | 0 <= j < |LoopFaces| :: r[j] == Loop(p, LoopFaces[j], h, s)
  {
    [Loop(p, Back, h, s), Loop(p, Front, h, s), Loop(p, Right, h, s),
     Loop(p, Left, h, s), Loop(p, Top, h, s), Loop(p, Bottom, h, s)]
  }

  /** A face loop run with `start` = s is the value-level run's. */
  lemma JobMatches(g: Gen, run: Run, p: Part, face: Face, s: int)
    requires Feeds(run, g) && (s == Shift(g) || ShiftFree(p))
    ensures run.jobs[(p, face)] == FaceQuads(ImageFor(g, p), Loop(p, face, g.h, s), VolumeOf(LatticeFor(p, g.h, s)))
  {
    assert run.jobs[(p, face)] == Job(g, p, face);
    JobAtShift(g, p, face, s);
  }

  /** The loops of a block, whatever the shift it is run with, are the loops
      of the value-level run. */
  lemma BlockMatches(g: Gen, run: Run, p: Part, s: int)
    requires Feeds(run, g) && (s == Shift(g) || ShiftFree(p))
    ensures LatticeFor(p, g.h, s) == LatticeFor(p, g.h, Shift(g))
    ensures forall j | 0 <= j < |LoopFaces| ::
      run.jobs[(p, LoopFaces[j])] == FaceQuads(ImageFor(g, p), LoopsOf(p, g.h, s)[j], VolumeOf(LatticeFor(p, g.h, s)))
  {
    forall j | 0 <= j < |LoopFaces|
      ensures run.jobs[(p, LoopFaces[j])] ==
        FaceQuads(ImageFor(g, p), LoopsOf(p, g.h, s)[j], VolumeOf(LatticeFor(p, g.h, s)))
    {
      JobMatches(g, run, p, LoopFaces[j], s);
    }
    JobAtShift(g, p, Back, s);
  }

  /** Once a face loop has raised, the part's outcome is that exception. */
  lemma {:induction false} FacesFailStays(r: Run, p: Part, j: nat, k: nat)
    requires j <= k <= |LoopFaces| && FacesOutcome(r, p, j).Fail?
    ensures FacesOutcome(r, p, k) == FacesOutcome(r, p, j)
  {
    if j < k {
      FacesFailStays(r, p, j, k - 1);
    }
  }

  /** The dots of realized polygons are Points of the dictionary. */
  lemma RealizedValues(polys: seq<Polygon>, quads: seq<Quad>, vol: Nested<Point>)
    requires Realizes(polys, quads, vol)
    ensures forall poly, d | poly in polys && d in poly.dots :: d in Values(vol)
  {
    forall poly, d | poly in polys && d in poly.dots
      ensures d in Values(vol)
    {
      var n :| 0 <= n < |polys| && polys[n] == poly;
      var k :| 0 <= k < |poly.dots| && poly.dots[k] == d;
      var key := quads[n].keys[k];
      InValues(vol, key);
    }
  }

  /** The Points of a dictionary the lattice loops left alone. */
  lemma ValuesUnmoved(vol: Nested<Point>, cam: Camera, p: Part)
    requires AllUnmoved(vol, cam, p)
    ensures forall d | d in Values(vol) :: Unmoved(d, cam, p)
  {
    forall d | d in Values(vol)
      ensures Unmoved(d, cam, p)
    {
      var key := ValueAt(vol, d);
    }
  }

  /** Every Polygon of a part's face lists. */
  ghost function Pieces(faces: map<Face, seq<Polygon>>): set<Polygon>
  {
    set f, poly | f in faces && poly in faces[f] :: poly
  }

  /** Setting one face's list adds at most that list's Polygons. */
  lemma PiecesUpdate(faces: map<Face, seq<Polygon>>, face: Face, ps: seq<Polygon>)
    ensures Pieces(faces[face := ps]) <= Pieces(faces) + set poly | poly in ps
  {
  }

  /** The Polygons of a list whose dots all belong to the dictionary. */
  ghost predicate Over(ps: set<Polygon>, vol: Nested<Point>)
    reads ps
  {
    forall poly | poly in ps :: !poly.isProjected && forall d | d in poly.dots :: d in Values(vol)
  }

  /** One more face loop that sets its face's list to ps. */
  lemma BuiltNext(faces: map<Face, seq<Polygon>>, vol: Nested<Point>, run: Run, p: Part, j: nat, ps: seq<Polygon>)
    requires j < |LoopFaces| && Built(faces, vol, run, p, j)
    requires forall k | j <= k < |LoopFaces| :: LoopFaces[k] in faces && faces[LoopFaces[k]] == []
    requires Runs(run, p, LoopFaces[j]) ==> run.jobs[(p, LoopFaces[j])].Ok? && Realizes(ps, run.jobs[(p, LoopFaces[j])].value, vol)
    requires !Runs(run, p, LoopFaces[j]) ==> ps == []
    ensures Built(faces[LoopFaces[j] := ps], vol, run, p, j + 1)
    ensures forall k | j + 1 <= k < |LoopFaces| :: LoopFaces[k] in faces[LoopFaces[j] := ps] && faces[LoopFaces[j] := ps][LoopFaces[k]] == []
  {
  }

  /** Face loop j of a block, run only when the part is built and the face
      passes its test: the face's list becomes the loop's Polygons. */
  method EnterFace(o: Options, front: map<Part, seq<Face>>, p: Part, img: array2<Rgba>, f: FaceLoop,
                   vol: Nested<Point>, ghost spec: Nested<Vec3>, ghost run: Run, faces: map<Face, seq<Polygon>>, j: nat)
    returns (r: Result<map<Face, seq<Polygon>>>, ghost added: set<Polygon>)
    requires j < |LoopFaces| && run.o == o && run.front == front && Mirrors(vol, spec)
    requires run.jobs[(p, LoopFaces[j])] == FaceQuads(img, f, spec)
    requires Built(faces, vol, run, p, j)
    requires forall k | j <= k < |LoopFaces| :: LoopFaces[k] in faces && faces[LoopFaces[k]] == []
    ensures r.Err? <==> FaceStep(run, p, LoopFaces[j]).Fail?
    ensures r.Err? ==> FaceStep(run, p, LoopFaces[j]) == Fail(r.error)
    ensures r.Ok? ==> Built(r.value, vol, run, p, j + 1)
    ensures r.Ok? ==> forall k | j + 1 <= k < |LoopFaces| :: LoopFaces[k] in r.value && r.value[LoopFaces[k]] == []
    ensures r.Ok? ==> Pieces(r.value) <= Pieces(faces) + added
    ensures fresh(added) && Over(added, vol)
  {
    var face := LoopFaces[j];
    added := {};
    if Generated(p, o) && Gated(p, face, front, o.legacy) {
      var res := FaceLoopPolygons(img, f, vol, spec);
      if res.Err? {
        return Err(res.error), added;
      }
      RealizedValues(res.value, run.jobs[(p, face)].value, vol);
      PiecesUpdate(faces, face, res.value);
      BuiltNext(faces, vol, run, p, j, res.value);
      added := set poly | poly in res.value;
      r := Ok(faces[face := res.value]);
    } else {
      BuiltNext(faces, vol, run, p, j, []);
      assert faces[face := []] == faces;
      r := Ok(faces);
    }
  }

  /** The face loops of a block, in source order, over the part's Points. */
  method FaceLoops(o: Options, front: map<Part, seq<Face>>, p: Part, img: array2<Rgba>, loops: seq<FaceLoop>,
                   vol: Nested<Point>, ghost spec: Nested<Vec3>, ghost run: Run)
    returns (r: Result<map<Face, seq<Polygon>>>)
    requires |loops| == |LoopFaces| && run.o == o && run.front == front && Mirrors(vol, spec)
    requires forall j | 0 <= j < |LoopFaces| :: run.jobs[(p, LoopFaces[j])] == FaceQuads(img, loops[j], spec)
    ensures r.Ok? <==> FacesOutcome(run, p, |LoopFaces|).Pass?
    ensures r.Err? ==> FacesOutcome(run, p, |LoopFaces|) == Fail(r.error)
    ensures r.Ok? ==> Built(r.value, vol, run, p, |LoopFaces|)
    ensures r.Ok? ==> fresh(Pieces(r.value)) && Over(Pieces(r.value), vol)
  {
    var faces := NoPolygons;
    for j := 0 to |LoopFaces|
      invariant FacesOutcome(run, p, j) == Pass
      invariant Built(faces, vol, run, p, j)
      invariant forall k | j <= k < |LoopFaces| :: LoopFaces[k] in faces && faces[LoopFaces[k]] == []
      invariant fresh(Pieces(faces)) && Over(Pieces(faces), vol)
    {
      var res, added := EnterFace(o, front, p, img, loops[j], vol, spec, run, faces, j);
      if res.Err? {
        FacesFailStays(run, p, j + 1, |LoopFaces|);
        return Err(res.error);
      }
      faces := res.value;
    }
    r := Ok(faces);
  }

  /** The block of part p over its lattice and its six face loops: the
      lattice loops, then the face loops. It raises what the value-level run
      raises, and otherwise yields the part's face lists. */
  method BlockPolygons(cam: Camera, o: Options, front: map<Part, seq<Face>>, p: Part, img: array2<Rgba>,
                       lattice: Lattice3, loops: seq<FaceLoop>, ghost run: Run)
    returns (r: Result<map<Face, seq<Polygon>>>, ghost volume: Nested<Point>, ghost dots: set<Point>)
    requires |loops| == |LoopFaces| && run.o == o && run.front == front
    requires forall j | 0 <= j < |LoopFaces| :: run.jobs[(p, LoopFaces[j])] == FaceQuads(img, loops[j], VolumeOf(lattice))
    ensures r.Ok? <==> FacesOutcome(run, p, |LoopFaces|).Pass?
    ensures r.Err? ==> FacesOutcome(run, p, |LoopFaces|) == Fail(r.error)
    ensures Mirrors(volume, VolumeOf(lattice)) && AllUnmoved(volume, cam, p)
    ensures r.Ok? ==> Built(r.value, volume, run, p, |LoopFaces|)
    ensures r.Ok? ==> fresh(Pieces(r.value)) && Over(Pieces(r.value), volume)
    ensures dots == Values(volume) && fresh(dots) && forall d | d in dots :: Unmoved(d, cam, p)
  {
    var vol := BuildVolume(cam, Nests(lattice), p);
    volume := vol;
    dots := Values(vol);
    r := FaceLoops(o, front, p, img, loops, vol, VolumeOf(lattice), run);
    ValuesUnmoved(vol, cam, p);
  }

  /** The block of part p of a render, with `start` = s. */
  method PartPolygons(cam: Camera, g: Gen, ghost run: Run, p: Part, s: int)
    returns (r: Result<map<Face, seq<Polygon>>>, ghost volume: Nested<Point>, ghost dots: set<Point>)
    requires Feeds(run, g) && (s == Shift(g) || ShiftFree(p))
    ensures r.Ok? <==> FacesOutcome(run, p, |LoopFaces|).Pass?
    ensures r.Err? ==> FacesOutcome(run, p, |LoopFaces|) == Fail(r.error)
    ensures Mirrors(volume, VolumeOf(LatticeFor(p, g.h, Shift(g))))
    ensures r.Ok? ==> Built(r.value, volume, run, p, |LoopFaces|)
    ensures r.Ok? ==> fresh(Pieces(r.value)) && Over(Pieces(r.value), volume)
    ensures dots == Values(volume) && fresh(dots) && forall d | d in dots :: Unmoved(d, cam, p)
  {
    BlockMatches(g, run, p, s);
    r, volume, dots := BlockPolygons(cam, g.o, g.front, p, ImageFor(g, p), LatticeFor(p, g.h, s), LoopsOf(p, g.h, s), run);
  }

  /** The block of part p, which a part that is not built skips: it then
      keeps its six empty face lists. */
  method Block(cam: Camera, g: Gen, ghost run: Run, p: Part, s: int)
    returns (r: Result<map<Face, seq<Polygon>>>, ghost volume: Nested<Point>, ghost dots: set<Point>)
    requires Feeds(run, g) && (Generated(p, g.o) ==> s == Shift(g) || ShiftFree(p))
    ensures r.Ok? <==> FacesOutcome(run, p, |LoopFaces|).Pass?
    ensures r.Err? ==> FacesOutcome(run, p, |LoopFaces|) == Fail(r.error)
    ensures r.Ok? ==> Built(r.value, volume, run, p, |LoopFaces|)
    ensures r.Ok? ==> fresh(Pieces(r.value)) && Over(Pieces(r.value), volume)
    ensures dots == Values(volume) && fresh(dots) && forall d | d in dots :: Unmoved(d, cam, p)
  {
    if Generated(p, g.o) {
      r, volume, dots := PartPolygons(cam, g, run, p, s);
    } else {
      FacesOutcomePass(run, p, |LoopFaces|);
      r, volume, dots := Ok(NoPolygons), map[], {};
      assert Pieces(NoPolygons) == {};
    }
  }
}
