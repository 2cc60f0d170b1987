/** The objects the renderers of minepi/skin_render.py and MinePI/skin_render.py
    build their picture from: the shared view and bounding box (`Camera`, held
    by `Render` in the source), `Point`, `Polygon`, and the three-level
    dictionary of lattice points filled by `append_dict`. */
module Mesh {
  import opened Common
  import opened Images
  import opened Body

  datatype Vec3 = Vec3(x: real, y: real, z: real)

  /** A rotation as the source passes it around: (cos a, sin a, cos b, sin b). */
  datatype Angles = Angles(cosA: real, sinA: real, cosB: real, sinB: real)

  /** cos 0 = 1 and sin 0 = 0 for both angles. */
  const NoTurn := Angles(1.0, 0.0, 1.0, 0.0)

  /** The rotation `pre_project` and `project` apply: about the y axis by b,
      then about the x axis by a. */
  function Turn(v: Vec3, t: Angles): Vec3
  {
    Vec3(v.x * t.cosB + v.z * t.sinB,
         v.x * t.sinA * t.sinB + v.y * t.cosA - v.z * t.sinA * t.cosB,
         -v.x * t.cosA * t.sinB + v.y * t.sinA + v.z * t.cosA * t.cosB)
  }

  /** `pre_project(dx, dy, dz, ...)`: the turn about the pivot (dx, dy, dz). */
  function RotateAbout(v: Vec3, pivot: Vec3, t: Angles): Vec3
  {
    var d := Turn(Vec3(v.x - pivot.x, v.y - pivot.y, v.z - pivot.z), t);
    Vec3(d.x + pivot.x, d.y + pivot.y, d.z + pivot.z)
  }

  /** The pivot itself stays where it is, whatever the angles. */
  lemma PivotStays(pivot: Vec3, t: Angles)
    ensures RotateAbout(pivot, pivot, t) == pivot
  {
  }

  /** With both angles zero the rotations change nothing. */
  lemma NoTurnIsIdentity(v: Vec3, pivot: Vec3)
    ensures Turn(v, NoTurn) == v
    ensures RotateAbout(v, pivot, NoTurn) == v
  {
  }

  /** A turn keeps the distance to the pivot: the 3x3 matrix is orthogonal
      whenever each (cos, sin) pair lies on the unit circle. */
  lemma TurnKeepsLength(v: Vec3, t: Angles)
    requires t.cosA * t.cosA + t.sinA * t.sinA == 1.0
    requires t.cosB * t.cosB + t.sinB * t.sinB == 1.0
    ensures var w := Turn(v, t); w.x * w.x + w.y * w.y + w.z * w.z == v.x * v.x + v.y * v.y + v.z * v.z
  {
    var a, b, c, s := t.cosA, t.sinA, t.cosB, t.sinB;
    var w := Turn(v, t);
    // The turn about y keeps the length in the (x, z) plane ...
    var p, r := v.x * c + v.z * s, -v.x * s + v.z * c;
    assert w.x == p;
    PlaneTurnKeepsLength(v.x, v.z, c, s);
    // ... and the turn about x then keeps it in the (y, z) plane.
    assert w.y == v.y * a - r * b && w.z == v.y * b + r * a;
    PlaneTurnKeepsLength(v.y, -r, a, b);
  }

  /** A plane rotation by (cos, sin) with cos^2 + sin^2 = 1 keeps the length. */
  lemma PlaneTurnKeepsLength(x: real, y: real, c: real, s: real)
    requires c * c + s * s == 1.0
    ensures (x * c + y * s) * (x * c + y * s) + (-x * s + y * c) * (-x * s + y * c) == x * x + y * y
  {
    calc {
      (x * c + y * s) * (x * c + y * s) + (-x * s + y * c) * (-x * s + y * c);
      == x * x * (c * c + s * s) + y * y * (c * c + s * s);
      == x * x + y * y;
    }
  }

  function Min(a: real, b: real): real { if b < a then b else a }
  function Max(a: real, b: real): real { if b > a then b else a }

  /** The bounding box starts at 0 and is only ever lowered by `min` and
      raised by `max`, so its lower ends stay at or below 0 and its upper
      ends at or above 0. */
  type NonPos = x: real | x <= 0.0
  type NonNeg = x: real | x >= 0.0

  /** The render-wide view rotation (`cos_a`, `sin_a`, `cos_b`, `sin_b`) and the
      bounding box `min_x`, `max_x`, `min_y`, `max_y` that `Point.project` widens. */
  class Camera {
    var view: Angles
    var minX: NonPos
    var maxX: NonNeg
    var minY: NonPos
    var maxY: NonNeg

    /** The box starts as the single point (0, 0). */
    constructor ()
      ensures view == NoTurn
      ensures minX == 0.0 && maxX == 0.0 && minY == 0.0 && maxY == 0.0
      ensures HoldsOrigin()
    {
      view := NoTurn;
      minX, maxX, minY, maxY := 0.0, 0.0, 0.0, 0.0;
    }

    /** The box contains the screen position of `v`. */
    ghost predicate Holds(v: Vec3)
      reads this
    {
      minX <= v.x <= maxX && minY <= v.y <= maxY
    }

    /** The box contains the origin, so it is never inverted: it starts as
        the point (0, 0) and only grows. */
    ghost predicate HoldsOrigin()
      reads this
    {
      minX <= 0.0 <= maxX && minY <= 0.0 <= maxY
    }

    /** Whatever `project` has widened it by, the box still holds the origin,
        so its width and height are never negative. */
    lemma AlwaysHoldsOrigin()
      ensures HoldsOrigin()
      ensures maxX - minX >= 0.0 && maxY - minY >= 0.0
    {
    }

    /** The four `min`/`max` updates at the end of `project`. */
    method Widen(v: Vec3)
      modifies this
      ensures view == old(view)
      ensures minX == Min(old(minX), v.x) && maxX == Max(old(maxX), v.x)
      ensures minY == Min(old(minY), v.y) && maxY == Max(old(maxY), v.y)
      ensures Holds(v)
      ensures minX <= old(minX) && maxX >= old(maxX) && minY <= old(minY) && maxY >= old(maxY)
      ensures HoldsOrigin()
    {
      minX := Min(minX, v.x);
      maxX := Max(maxX, v.x);
      minY := Min(minY, v.y);
      maxY := Max(maxY, v.y);
    }
  }

  /** The box only grows, so whatever it held it still holds. */
  lemma GrownBoxHolds(v: Vec3, x0: real, x1: real, y0: real, y1: real, c: Camera)
    requires x0 <= v.x <= x1 && y0 <= v.y <= y1
    requires c.minX <= x0 && c.maxX >= x1 && c.minY <= y0 && c.maxY >= y1
    ensures c.Holds(v)
  {
  }

  /** `Point`: model coordinates that `pre_project` rotates at most once, and
      screen coordinates `project` computes. */
  class Point {
    const cam: Camera
    /** The coordinates the point was created with. */
    ghost const init: Vec3
    /** The part whose lattice created the point; None for a cube corner of
        `set_cube_points`. */
    ghost const owner: Option<Part>
    var origin: Vec3
    var dest: Vec3
    var isProjected: bool
    var isPreProjected: bool

    constructor (cam: Camera, v: Vec3, ghost owner: Option<Part>)
      ensures this.cam == cam && init == v && origin == v && this.owner == owner
      ensures !isProjected && !isPreProjected
    {
      this.cam := cam;
      init := v;
      this.owner := owner;
      origin := v;
      dest := Vec3(0.0, 0.0, 0.0);
      isProjected := false;
      isPreProjected := false;
    }

    /** `pre_project`: the first call rotates the model coordinates about the
        pivot; every later call leaves them alone. */
    method PreProject(pivot: Vec3, t: Angles)
      modifies this
      ensures old(isPreProjected) ==> origin == old(origin)
      ensures !old(isPreProjected) ==> origin == RotateAbout(old(origin), pivot, t)
      ensures isPreProjected
      ensures dest == old(dest) && isProjected == old(isProjected)
    {
      if !isPreProjected {
        origin := RotateAbout(origin, pivot, t);
        isPreProjected := true;
      }
    }

    /** `project`: the view rotation of the model coordinates, then the box
        widened to contain it. */
    method Project()
      modifies this, cam
      ensures dest == Turn(origin, cam.view) && isProjected
      ensures origin == old(origin) && isPreProjected == old(isPreProjected)
      ensures cam.view == old(cam.view)
      ensures cam.minX == Min(old(cam.minX), dest.x) && cam.maxX == Max(old(cam.maxX), dest.x)
      ensures cam.minY == Min(old(cam.minY), dest.y) && cam.maxY == Max(old(cam.maxY), dest.y)
      ensures cam.Holds(dest)
    {
      dest := Turn(origin, cam.view);
      isProjected := true;
      cam.Widen(dest);
    }

    /** `get_depth`: projects first only when not yet projected. */
    method GetDepth() returns (d: real)
      modifies this, cam
      ensures old(isProjected) ==> d == old(dest).z && unchanged(this) && unchanged(cam)
      ensures !old(isProjected) ==> d == Turn(origin, cam.view).z && dest == Turn(origin, cam.view) && isProjected
      ensures origin == old(origin) && isPreProjected == old(isPreProjected) && cam.view == old(cam.view)
      ensures old(cam.minX) >= cam.minX && old(cam.maxX) <= cam.maxX
      ensures old(cam.minY) >= cam.minY && old(cam.maxY) <= cam.maxY
      ensures isProjected && d == dest.z
    {
      if !isProjected {
        Project();
      }
      d := dest.z;
    }
  }

  /** The screen coordinates of a sequence of points. */
  function DestsOf(ps: seq<Point>): (r: seq<Vec3>)
    reads ps
    ensures |r| == |ps|
    ensures forall i | 0 <= i < |ps| :: r[i] == ps[i].dest
  {
    if ps == [] then [] else DestsOf(ps[..|ps| - 1]) + [ps[|ps| - 1].dest]
  }

  /** One `draw.polygon(points_2d, fill=color, outline=color)` call. */
  datatype Draw = Draw(points: seq<(real, real)>, color: Rgba)

  /** `((x - min_x) * ratio, (y - min_y) * ratio)`. */
  function Screen(v: Vec3, minX: real, minY: real, ratio: real): (real, real)
  {
    ((v.x - minX) * ratio, (v.y - minY) * ratio)
  }

  function ScreenAll(ds: seq<Vec3>, minX: real, minY: real, ratio: real): (r: seq<(real, real)>)
    ensures |r| == |ds|
    ensures forall i | 0 <= i < |ds| :: r[i] == Screen(ds[i], minX, minY, ratio)
  {
    if ds == [] then [] else ScreenAll(ds[..|ds| - 1], minX, minY, ratio) + [Screen(ds[|ds| - 1], minX, minY, ratio)]
  }

  /** The variables of the loop in `add_png_polygon` after some dots: the
      reference x and y (None until set) and the two same-plane flags. */
  datatype PngState = PngState(coordX: Option<real>, coordY: Option<real>, sameX: bool, sameY: bool)

  /** `if not coord_x` (current renderer, `falsy` set) treats a reference of
      0.0 as unset; `if coord_x == None` (legacy renderer) does not. */
  predicate Unset(c: Option<real>, falsy: bool)
  {
    c.None? || (falsy && c.value == 0.0)
  }

  /** The loop variables after the dots `ds`. */
  function PngScan(ds: seq<Vec3>, falsy: bool): PngState
  {
    if ds == [] then PngState(None, None, true, true)
    else
      var s := PngScan(ds[..|ds| - 1], falsy);
      var v := ds[|ds| - 1];
      var cx := if Unset(s.coordX, falsy) then v.x else s.coordX.value;
      var cy := if Unset(s.coordY, falsy) then v.y else s.coordY.value;
      PngState(Some(cx), Some(cy), s.sameX && cx == v.x, s.sameY && cy == v.y)
  }

  /** The draw calls of `add_png_polygon`: after each dot, the prefix drawn so
      far is drawn when it is flat in neither x nor y. */
  function PngDraws(ds: seq<Vec3>, minX: real, minY: real, ratio: real, color: Rgba, falsy: bool): seq<Draw>
  {
    if ds == [] then []
    else
      var s := PngScan(ds, falsy);
      PngDraws(ds[..|ds| - 1], minX, minY, ratio, color, falsy) +
      (if !(s.sameX || s.sameY) then [Draw(ScreenAll(ds, minX, minY, ratio), color)] else [])
  }

  /** Every draw call is a prefix of the polygon's screen points, at least two
      long, in the polygon's colour; at most one call per dot. */
  lemma {:induction false} PngDrawsArePrefixes(ds: seq<Vec3>, minX: real, minY: real, ratio: real, color: Rgba, falsy: bool)
    ensures |PngDraws(ds, minX, minY, ratio, color, falsy)| <= |ds|
    ensures forall d | d in PngDraws(ds, minX, minY, ratio, color, falsy) ::
      d.color == color && 2 <= |d.points| <= |ds| && d.points == ScreenAll(ds, minX, minY, ratio)[..|d.points|]
  {
    if ds != [] {
      var init := ds[..|ds| - 1];
      PngDrawsArePrefixes(init, minX, minY, ratio, color, falsy);
      assert ScreenAll(init, minX, minY, ratio) == ScreenAll(ds, minX, minY, ratio)[..|init|];
      if |ds| == 1 {
        assert init == [];
        assert PngScan(ds, falsy).sameX;
      }
    }
  }

  /** With the legacy `== None` test the reference coordinates are those of the
      first dot, and a flag stays set exactly while every dot so far shares
      that dot's coordinate. */
  lemma {:induction false} LegacyPngScan(ds: seq<Vec3>)
    requires ds != []
    ensures PngScan(ds, false) ==
      PngState(Some(ds[0].x), Some(ds[0].y),
               forall i | 0 <= i < |ds| :: ds[i].x == ds[0].x,
               forall i | 0 <= i < |ds| :: ds[i].y == ds[0].y)
  {
    var init := ds[..|ds| - 1];
    if init != [] {
      LegacyPngScan(init);
      assert init[0] == ds[0];
    }
  }

  /** So the legacy version draws the prefix ending at a dot exactly when the
      prefix holds a dot off the first dot's x and one off its y. */
  lemma LegacyDrawsWhenSpread(ds: seq<Vec3>)
    requires ds != []
    ensures !(PngScan(ds, false).sameX || PngScan(ds, false).sameY) <==>
      (exists i | 0 <= i < |ds| :: ds[i].x != ds[0].x) && (exists i | 0 <= i < |ds| :: ds[i].y != ds[0].y)
  {
    LegacyPngScan(ds);
  }

  /** `if not coord_x` and `if coord_x == None` agree whenever the first dot
      has non-zero x and y. */
  lemma {:induction false} FalsyScanAgrees(ds: seq<Vec3>)
    requires ds != [] && ds[0].x != 0.0 && ds[0].y != 0.0
    ensures PngScan(ds, true) == PngScan(ds, false)
  {
    var init := ds[..|ds| - 1];
    if init != [] {
      assert init[0] == ds[0];
      FalsyScanAgrees(init);
      LegacyPngScan(init);
    }
  }

  lemma {:induction false} FalsyDrawsAgree(ds: seq<Vec3>, minX: real, minY: real, ratio: real, color: Rgba)
    requires ds != [] && ds[0].x != 0.0 && ds[0].y != 0.0
    ensures PngDraws(ds, minX, minY, ratio, color, true) == PngDraws(ds, minX, minY, ratio, color, false)
  {
    var init := ds[..|ds| - 1];
    FalsyScanAgrees(ds);
    if init != [] {
      assert init[0] == ds[0];
      FalsyDrawsAgree(init, minX, minY, ratio, color);
    }
  }

  /** Where they differ: a quad whose first two dots sit at x = 0.0 and whose
      last two share another x keeps `same_plan_x` set under `if not coord_x`
      (the reference 0.0 counts as unset and is replaced by each new x), so it
      is never drawn; the legacy test keeps the first dot as reference and
      draws the last two prefixes once the first two dots differ in y. */
  lemma FalsyQuirk(ds: seq<Vec3>, minX: real, minY: real, ratio: real, color: Rgba)
    requires |ds| == 4 && ds[0].x == 0.0 && ds[1].x == 0.0
    requires ds[2].x == ds[3].x && ds[2].x != 0.0 && ds[1].y != ds[0].y
    ensures PngDraws(ds, minX, minY, ratio, color, true) == []
    ensures PngDraws(ds, minX, minY, ratio, color, false) ==
      [Draw(ScreenAll(ds[..3], minX, minY, ratio), color), Draw(ScreenAll(ds, minX, minY, ratio), color)]
  {
    var d1, d2, d3 := ds[..1], ds[..2], ds[..3];
    assert ds[..|ds| - 1] == d3 && d3[..2] == d2 && d2[..1] == d1 && d1[..0] == [];
    // `if not coord_x`: the x reference is 0.0, then 0.0, then x2, and x stays flat.
    assert PngScan(d1, true).coordX == Some(0.0) && PngScan(d1, true).sameX;
    assert PngScan(d2, true).coordX == Some(0.0) && PngScan(d2, true).sameX;
    assert PngScan(d3, true).coordX == Some(ds[2].x) && PngScan(d3, true).sameX;
    assert PngScan(ds, true).sameX;
    assert PngDraws(d1, minX, minY, ratio, color, true) == [];
    assert PngDraws(d2, minX, minY, ratio, color, true) == [];
    assert PngDraws(d3, minX, minY, ratio, color, true) == [];
    // `if coord_x == None`: the first dot stays the reference.
    LegacyPngScan(d1);
    LegacyPngScan(d2);
    LegacyPngScan(d3);
    LegacyPngScan(ds);
    assert d3[2].x != d3[0].x && d3[1].y != d3[0].y;
    assert PngDraws(d1, minX, minY, ratio, color, false) == [];
    assert PngDraws(d2, minX, minY, ratio, color, false) == [];
  }

  /** A dot inside the render's box maps into the canvas rectangle
      [0, (max_x - min_x) * ratio] x [0, (max_y - min_y) * ratio]. */
  lemma ScreenInCanvas(v: Vec3, minX: real, maxX: real, minY: real, maxY: real, ratio: real)
    requires minX <= v.x <= maxX && minY <= v.y <= maxY && ratio >= 0.0
    ensures var p := Screen(v, minX, minY, ratio);
      0.0 <= p.0 <= (maxX - minX) * ratio && 0.0 <= p.1 <= (maxY - minY) * ratio
  {
    assert (maxX - v.x) * ratio >= 0.0;
    assert (maxY - v.y) * ratio >= 0.0;
    assert (v.x - minX) * ratio >= 0.0;
    assert (v.y - minY) * ratio >= 0.0;
  }

  /** `Polygon`: four shared points and a colour. */
  class Polygon {
    const dots: seq<Point>
    const color: Rgba
    var isProjected: bool

    constructor (dots: seq<Point>, color: Rgba)
      ensures this.dots == dots && this.color == color && !isProjected
    {
      this.dots := dots;
      this.color := color;
      isProjected := false;
    }

    /** `Polygon.pre_project`: every dot's `pre_project`, so a dot shared with
        a polygon rotated earlier keeps its first rotation. */
    method PreProject(pivot: Vec3, t: Angles)
      modifies dots
      ensures forall d | d in dots :: d.isPreProjected
      ensures forall d | d in dots :: old(d.isPreProjected) ==> d.origin == old(d.origin)
      ensures forall d | d in dots :: !old(d.isPreProjected) ==> d.origin == RotateAbout(old(d.origin), pivot, t)
      ensures forall d | d in dots :: d.dest == old(d.dest) && d.isProjected == old(d.isProjected)
    {
      for i := 0 to |dots|
        invariant forall d | d in dots[..i] :: d.isPreProjected
        invariant forall d | d in dots[..i] :: old(d.isPreProjected) ==> d.origin == old(d.origin)
        invariant forall d | d in dots[..i] :: !old(d.isPreProjected) ==> d.origin == RotateAbout(old(d.origin), pivot, t)
        invariant forall d | d in dots && d !in dots[..i] :: d.origin == old(d.origin) && d.isPreProjected == old(d.isPreProjected)
        invariant forall d | d in dots :: d.dest == old(d.dest) && d.isProjected == old(d.isProjected)
      {
        assert dots[..i + 1] == dots[..i] + [dots[i]];
        dots[i].PreProject(pivot, t);
      }
      assert dots[..|dots|] == dots;
    }

    /** `Polygon.project`: projects each dot not yet projected. All dots of a
        polygon belong to one render, whose camera is `c`. */
    method Project(ghost c: Camera)
      requires forall d | d in dots :: d.cam == c
      requires forall d | d in dots :: d.isProjected ==> c.Holds(d.dest)
      modifies this, dots, c
      ensures isProjected
      ensures forall d | d in dots :: d.isProjected && c.Holds(d.dest)
      ensures forall d | d in dots :: old(d.isProjected) ==> d.dest == old(d.dest)
      ensures forall d | d in dots :: !old(d.isProjected) ==> d.dest == Turn(d.origin, c.view)
      ensures forall d | d in dots :: d.origin == old(d.origin) && d.isPreProjected == old(d.isPreProjected)
      ensures c.view == old(c.view)
      ensures c.minX <= old(c.minX) && c.maxX >= old(c.maxX) && c.minY <= old(c.minY) && c.maxY >= old(c.maxY)
    {
      for i := 0 to |dots|
        invariant forall d | d in dots[..i] :: d.isProjected
        invariant forall d | d in dots :: d.isProjected ==> c.Holds(d.dest)
        invariant forall d | d in dots :: old(d.isProjected) ==> d.dest == old(d.dest)
        invariant forall d | d in dots[..i] :: !old(d.isProjected) ==> d.dest == Turn(d.origin, c.view)
        invariant forall d | d in dots && d !in dots[..i] :: d.isProjected == old(d.isProjected) && d.dest == old(d.dest)
        invariant forall d | d in dots :: d.origin == old(d.origin) && d.isPreProjected == old(d.isPreProjected)
        invariant c.view == old(c.view)
        invariant c.minX <= old(c.minX) && c.maxX >= old(c.maxX) && c.minY <= old(c.minY) && c.maxY >= old(c.maxY)
      {
        assert dots[..i + 1] == dots[..i] + [dots[i]];
        var d := dots[i];
        if !d.isProjected {
          ghost var x0, x1, y0, y1 := c.minX, c.maxX, c.minY, c.maxY;
          d.Project();
          forall e | e in dots && e.isProjected
            ensures c.Holds(e.dest)
          {
            if e != d {
              GrownBoxHolds(e.dest, x0, x1, y0, y1, c);
            }
          }
        }
      }
      assert dots[..|dots|] == dots;
      isProjected := true;
    }

    /** `add_png_polygon` of the current renderer (`if not coord_x`). */
    method AddPngPolygon(minX: real, minY: real, ratio: real) returns (draws: seq<Draw>)
      ensures draws == PngDraws(DestsOf(dots), minX, minY, ratio, color, true)
    {
      draws := PngLoop(minX, minY, ratio, true);
    }

    /** `add_png_polygon` of the legacy renderer (`if coord_x == None`). */
    method AddPngPolygonLegacy(minX: real, minY: real, ratio: real) returns (draws: seq<Draw>)
      ensures draws == PngDraws(DestsOf(dots), minX, minY, ratio, color, false)
    {
      draws := PngLoop(minX, minY, ratio, false);
    }

    /** The loop shared by both versions of `add_png_polygon`. */
    method PngLoop(minX: real, minY: real, ratio: real, falsy: bool) returns (draws: seq<Draw>)
      ensures draws == PngDraws(DestsOf(dots), minX, minY, ratio, color, falsy)
    {
      ghost var ds := DestsOf(dots);
      var points2d: seq<(real, real)> := [];
      var sameX, sameY := true, true;
      var coordX: Option<real> := None;
      var coordY: Option<real> := None;
      draws := [];
      for i := 0 to |dots|
        invariant PngScan(ds[..i], falsy) == PngState(coordX, coordY, sameX, sameY)
        invariant points2d == ScreenAll(ds[..i], minX, minY, ratio)
        invariant draws == PngDraws(ds[..i], minX, minY, ratio, color, falsy)
      {
        assert ds[..i + 1][..i] == ds[..i];
        var coord := dots[i].dest;
        if Unset(coordX, falsy) {
          coordX := Some(coord.x);
        }
        if Unset(coordY, falsy) {
          coordY := Some(coord.y);
        }
        if coordX.value != coord.x {
          sameX := false;
        }
        if coordY.value != coord.y {
          sameY := false;
        }
        points2d := points2d + [Screen(coord, minX, minY, ratio)];
        if !(sameX || sameY) {
          draws := draws + [Draw(points2d, color)];
        }
      }
      assert ds[..|dots|] == ds;
    }
  }

  /** A point of the three-level lattice dictionary: `volume_points[i][j][k]`. */
  type Key = (int, int, int)
  type Nested<V> = map<int, map<int, map<int, V>>>

  /** `volume_points[i][j][k]`, or None where Python raises KeyError. */
  function Lookup<V>(dic: Nested<V>, key: Key): Option<V>
  {
    if key.0 in dic && key.1 in dic[key.0] && key.2 in dic[key.0][key.1] then Some(dic[key.0][key.1][key.2]) else None
  }

  /** `is_not_existing(dic, i, j, k)`: the triple lookup raises KeyError. */
  function IsNotExisting<V>(dic: Nested<V>, key: Key): (r: bool)
    ensures r <==> Lookup(dic, key).None?
  {
    !(key.0 in dic && key.1 in dic[key.0] && key.2 in dic[key.0][key.1])
  }

  /** `append_dict(dic, i, j, k, value)`: stores the value only where no value
      is stored yet, creating the missing inner dictionaries on the way. */
  function AppendDict<V>(dic: Nested<V>, key: Key, value: V): (r: Nested<V>)
    ensures Lookup(r, key) == if IsNotExisting(dic, key) then Some(value) else Lookup(dic, key)
    ensures forall other: Key | other != key :: Lookup(r, other) == Lookup(dic, other)
  {
    var (i, j, k) := key;
    if !IsNotExisting(dic, key) then dic
    else if i in dic && j in dic[i] then dic[i := dic[i][j := dic[i][j][k := value]]]
    else if i in dic then dic[i := dic[i][j := map[k := value]]]
    else dic[i := map[j := map[k := value]]]
  }

  /** Of several `append_dict` calls for one key the first one wins. */
  lemma AppendDictFirstWins<V>(dic: Nested<V>, key: Key, first: V, second: V)
    requires IsNotExisting(dic, key)
    ensures Lookup(AppendDict(AppendDict(dic, key, first), key, second), key) == Some(first)
  {
  }
}
