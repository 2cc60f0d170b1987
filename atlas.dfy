/** The closed tables of `generate_polygons` in the current renderer: for
    every part its three lattice loop pairs, and for every (part, face) the
    face loop that reads the skin (or cape) atlas and the four lattice keys
    of each quad. `h` is `hd_ratio`, `s` is `start` (1 for a slim skin). */
module Atlas {
  import opened Body
  import opened Mesh
  import opened Lattice

  /** `k + ka * a + kb * b`: an atlas coordinate as a function of the face
      loop's outer variable a and inner variable b. */
  datatype Lin = Lin(k: int, ka: int, kb: int)

  function At(l: Lin, a: int, b: int): int
  {
    l.k + l.ka * a + l.kb * b
  }

  /** One face loop: a over `range(lo1, hi1)`, b over `range(lo2, hi2)`, the
      quad's keys on the plane with fixed component c, `step` apart along b,
      and the texel read at (tx, ty). */
  datatype FaceLoop = FaceLoop(plane: Plane, c: int, step: int, lo1: int, hi1: int, lo2: int, hi2: int, tx: Lin, ty: Lin)

  /** The four keys of the quad of cell (a, b), in the order they are listed. */
  function QuadKeys(f: FaceLoop, a: int, b: int): (r: seq<Key>)
    ensures |r| == 4
  {
    var s := f.step;
    if f.plane.XPlane? then
      [KeyOf(XPlane, a, b, f.c), KeyOf(XPlane, a, b + s, f.c), KeyOf(XPlane, a + 1, b + s, f.c), KeyOf(XPlane, a + 1, b, f.c)]
    else
      [KeyOf(f.plane, a, b, f.c), KeyOf(f.plane, a + 1, b, f.c), KeyOf(f.plane, a + 1, b + s, f.c), KeyOf(f.plane, a, b + s, f.c)]
  }

  /** The `getpixel` coordinates of cell (a, b). */
  function Texel(f: FaceLoop, a: int, b: int): (int, int)
  {
    (At(f.tx, a, b), At(f.ty, a, b))
  }

  /** The box a part's faces cover in lattice keys: i over [x0, x1), j over
      [0, y1), k over [z0, z1) on the back and front; the side faces take k
      over [k0, k1) with keys `step` apart. */
  datatype Box = Box(x0: int, x1: int, y1: int, z0: int, z1: int, k0: int, k1: int, step: int)

  /** The loop of one face of a box: back and front walk (i, j) at z0 and z1,
      right and left walk (j, k) at x0 and x1, top and bottom walk (i, k) at
      0 and y1. */
  function FaceOf(b: Box, face: Face, tx: Lin, ty: Lin): FaceLoop
  {
    match face
    case Back => FaceLoop(ZPlane, b.z0, 1, b.x0, b.x1, 0, b.y1, tx, ty)
    case Front => FaceLoop(ZPlane, b.z1, 1, b.x0, b.x1, 0, b.y1, tx, ty)
    case Right => FaceLoop(XPlane, b.x0, b.step, 0, b.y1, b.k0, b.k1, tx, ty)
    case Left => FaceLoop(XPlane, b.x1, b.step, 0, b.y1, b.k0, b.k1, tx, ty)
    case Top => FaceLoop(YPlane, 0, b.step, b.x0, b.x1, b.k0, b.k1, tx, ty)
    case Bottom => FaceLoop(YPlane, b.y1, b.step, b.x0, b.x1, b.k0, b.k1, tx, ty)
  }

  function BoxOf(p: Part, h: int, s: int, capeStep: int): Box
  {
    match p
    case Head => Box(0, 8 * h, 8 * h, -2 * h, 6 * h, -2 * h, 6 * h, 1)
    case Helmet => Box(0, 8 * h, 8 * h, -2 * h, 6 * h, -2 * h, 6 * h, 1)
    case Torso => Box(0, 8 * h, 12 * h, 0, 4 * h, 0, 4 * h, 1)
    case TorsoLayer => Box(0, 8 * h, 12 * h, 0, 4 * h, 0, 4 * h, 1)
    case RArm => Box(s, 4 * h, 12 * h, 0, 4 * h, 0, 4 * h, 1)
    case RArmLayer => Box(s, 4 * h, 12 * h, 0, 4 * h, 0, 4 * h, 1)
    case LArm => Box(0, (4 - s) * h, 12 * h, 0, 4 * h, 0, 4 * h, 1)
    case LArmLayer => Box(0, (4 - s) * h, 12 * h, 0, 4 * h, 0, 4 * h, 1)
    case Cape => Box(0, 10 * h, 16 * h, 0, h, 0, 1, capeStep)
    case _ => Box(0, 4 * h, 12 * h, 0, 4 * h, 0, 4 * h, 1)
  }

  /** Texel columns and rows of the head and the helmet. */
  function HeadTexels(face: Face, h: int, helmet: bool): (Lin, Lin)
  {
    var ox := if helmet then 32 * h else 0;
    match face
    case Back => (Lin(ox + 32 * h - 1, -1, 0), Lin(8 * h, 0, 1))
    case Front => (Lin(ox + 8 * h, 1, 0), Lin(8 * h, 0, 1))
    case Right => (Lin(ox + 2 * h, 0, 1), Lin(8 * h, 1, 0))
    case Left => (Lin(ox + 22 * h - 1, 0, -1), Lin(8 * h, 1, 0))
    case Top => (Lin(ox + 8 * h, 1, 0), Lin(2 * h, 0, 1))
    case Bottom => (if helmet then Lin(48 * h + 1, 0, 0) else Lin(16 * h, 1, 0), Lin(2 * h, 0, 1))
  }

  /** Torso and torso layer: the layer adds an unscaled 16 to every row. */
  function TorsoTexels(face: Face, h: int, dy: int): (Lin, Lin)
  {
    match face
    case Back => (Lin(40 * h - 1, -1, 0), Lin(20 * h + dy, 0, 1))
    case Front => (Lin(20 * h, 1, 0), Lin(20 * h + dy, 0, 1))
    case Right => (Lin(16 * h, 0, 1), Lin(20 * h + dy, 1, 0))
    case Left => (Lin(32 * h - 1, 0, -1), Lin(20 * h + dy, 1, 0))
    case Top => (Lin(20 * h, 1, 0), Lin(16 * h + dy, 0, 1))
    case Bottom => (Lin(28 * h, 1, 0), Lin(20 * h - 1 + dy, 0, -1))
  }

  /** The cape reads `im_cape`; its side faces have a single cell along k. */
  function CapeTexels(face: Face, h: int): (Lin, Lin)
  {
    match face
    case Back => (Lin(11 * h - 1, -1, 0), Lin(h, 0, 1))
    case Front => (Lin(12 * h, 1, 0), Lin(h, 0, 1))
    case Right => (Lin(12 * h, 0, 0), Lin(h, 1, 0))
    case Left => (Lin(h, 0, 0), Lin(h, 1, 0))
    case Top => (Lin(1, 1, 0), Lin(0, 0, 0))
    case Bottom => (Lin(11 * h, 1, 0), Lin(0, 0, 0))
  }

  /** Right arm and its layer: the layer's back starts at `56 - 2 * start`
      where the base uses `56 - start`; the layer adds an unscaled 16 to rows. */
  function RArmTexels(face: Face, h: int, s: int, layer: bool): (Lin, Lin)
  {
    var dy := if layer then 16 else 0;
    match face
    case Back => (Lin((if layer then 56 - 2 * s else 56 - s) * h - 1, -1, 0), Lin(20 * h + dy, 0, 1))
    case Front => (Lin((44 - s) * h, 1, 0), Lin(20 * h + dy, 0, 1))
    case Right => (Lin(40 * h, 0, 1), Lin(20 * h + dy, 1, 0))
    case Left => (Lin((52 - s) * h - 1, 0, -1), Lin(20 * h + dy, 1, 0))
    case Top => (Lin((44 - s) * h, 1, 0), Lin(16 * h + dy, 0, 1))
    case Bottom => (Lin((48 - 2 * s) * h, 1, 0), Lin(16 * h + dy, 0, 1))
  }

  /** Left arm and its layer: the layer sits 16h columns further right. */
  function LArmTexels(face: Face, h: int, s: int, layer: bool): (Lin, Lin)
  {
    var ox := if layer then 16 * h else 0;
    match face
    case Back => (Lin((48 - 2 * s) * h + ox - 1, -1, 0), Lin(52 * h, 0, 1))
    case Front => (Lin(36 * h + ox, 1, 0), Lin(52 * h, 0, 1))
    case Right => (Lin(32 * h + ox, 0, 1), Lin(52 * h, 1, 0))
    case Left => (Lin((44 - s) * h + ox - 1, 0, -1), Lin(52 * h, 1, 0))
    case Top => (Lin(36 * h + ox, 1, 0), Lin(48 * h, 0, 1))
    case Bottom => (Lin((40 - s) * h + ox, 1, 0), Lin(48 * h, 0, 1))
  }

  /** A leg (or leg layer) whose texture starts at column ox, with side rows
      from ySide and top and bottom rows from yTop. */
  function LegTexels(face: Face, h: int, ox: int, ySide: int, yTop: int): (Lin, Lin)
  {
    match face
    case Back => (Lin(ox + 16 * h - 1, -1, 0), Lin(ySide, 0, 1))
    case Front => (Lin(ox + 4 * h, 1, 0), Lin(ySide, 0, 1))
    case Right => (Lin(ox, 0, 1), Lin(ySide, 1, 0))
    case Left => (Lin(ox + 12 * h - 1, 0, -1), Lin(ySide, 1, 0))
    case Top => (Lin(ox + 4 * h, 1, 0), Lin(yTop, 0, 1))
    case Bottom => (Lin(ox + 8 * h, 1, 0), Lin(yTop, 0, 1))
  }

  function Texels(p: Part, face: Face, h: int, s: int): (Lin, Lin)
  {
    match p
    case Head => HeadTexels(face, h, false)
    case Helmet => HeadTexels(face, h, true)
    case Torso => TorsoTexels(face, h, 0)
    case TorsoLayer => TorsoTexels(face, h, 16)
    case Cape => CapeTexels(face, h)
    case RArm => RArmTexels(face, h, s, false)
    case RArmLayer => RArmTexels(face, h, s, true)
    case LArm => LArmTexels(face, h, s, false)
    case LArmLayer => LArmTexels(face, h, s, true)
    case RLeg => LegTexels(face, h, 0, 20 * h, 16 * h)
    case RLegLayer => LegTexels(face, h, 0, 36 * h, 32 * h)
    case LLeg => LegTexels(face, h, 16 * h, 52 * h, 48 * h)
    case LLegLayer => LegTexels(face, h, 0, 52 * h, 48 * h)
  }

  /** The face loop with the cape's side keys `capeStep` apart along k. */
  function LoopWith(p: Part, face: Face, h: int, s: int, capeStep: int): FaceLoop
  {
    var t := Texels(p, face, h, s);
    FaceOf(BoxOf(p, h, s, capeStep), face, t.0, t.1)
  }

  /** The face loops as written: the cape's side quads join keys k = 0 and
      k = 1. */
  function LoopAsWritten(p: Part, face: Face, h: int, s: int): FaceLoop
  {
    LoopWith(p, face, h, s, 1)
  }

  /** The face loops the renderer uses here: the cape's side quads join its
      back keys (k = 0) to its front keys (k = hd_ratio). Every other loop is
      the one as written. */
  function Loop(p: Part, face: Face, h: int, s: int): FaceLoop
  {
    LoopWith(p, face, h, s, h)
  }

  /** The three loop pairs of a part: (i, j) at two z keys, (j, k) at two x
      keys, (i, k) at two y keys. */
  datatype Lattice3 = Lattice3(zs: Nest, xs: Nest, ys: Nest)

  function Nests(l: Lattice3): seq<Nest>
  {
    [l.zs, l.xs, l.ys]
  }

  /** The fixed keys of a loop pair and the coordinates of its points on the
      fixed axis. */
  datatype Ends = Ends(c1: int, c2: int, fix1: real, fix2: real)

  /** A part's loop pairs over i in [i0, i1), j in [0, j1), k in [k0, k1), with
      the coordinate maps fx, fy and fz shared by all three pairs. */
  function BoxLattice(i0: int, i1: int, j1: int, k0: int, k1: int, z: Ends, x: Ends, y: Ends,
                      fx: Affine, fy: Affine, fz: Affine): Lattice3
  {
    Lattice3(
      Nest(ZPlane, i0, i1, 0, j1, z.c1, z.c2, z.fix1, z.fix2, fx, fy),
      Nest(XPlane, 0, j1, k0, k1, x.c1, x.c2, x.fix1, x.fix2, fy, fz),
      Nest(YPlane, i0, i1, k0, k1, y.c1, y.c2, y.fix1, y.fix2, fx, fz))
  }

  /** Fixed keys equal to their coordinates. */
  function Plain(c1: int, c2: int): Ends
  {
    Ends(c1, c2, c1 as real, c2 as real)
  }

  /** The lattice loops of every part. */
  function LatticeFor(p: Part, h: int, s: int): Lattice3
  {
    var r := h as real;
    // the second layers stretch by 4.25/4, 8.25/8 and 12.25/12 and shift by h/8
    var layerZ := Ends(0, 4 * h, -r / 8.0, 33.0 * r / 8.0);
    var layerY := Ends(0, 12 * h, 63.0 * r / 8.0, 161.0 * r / 8.0);
    var legLayerY := Ends(0, 12 * h, 159.0 * r / 8.0, 257.0 * r / 8.0);
    var limbZ := Affine(17.0 / 16.0, -r / 8.0);
    var limbY := Affine(49.0 / 48.0, 63.0 * r / 8.0);
    var legY := Affine(49.0 / 48.0, 159.0 * r / 8.0);
    match p
    case Head =>
      BoxLattice(0, 9 * h, 9 * h, -2 * h, 7 * h, Plain(-2 * h, 6 * h), Plain(0, 8 * h), Plain(0, 8 * h), Same, Same, Same)
    case Helmet =>
      var grow := Affine(17.0 / 16.0, -r / 4.0);
      BoxLattice(0, 9 * h, 9 * h, -2 * h, 7 * h, Ends(-2 * h, 6 * h, -9.0 * r / 4.0, 25.0 * r / 4.0),
                 Ends(0, 8 * h, -r / 4.0, 33.0 * r / 4.0), Ends(0, 8 * h, -r / 4.0, 33.0 * r / 4.0), grow, grow, grow)
    case Torso =>
      BoxLattice(0, 9 * h, 13 * h, 0, 5 * h, Plain(0, 4 * h), Plain(0, 8 * h),
                 Ends(0, 12 * h, 8.0 * r, 20.0 * r), Same, Affine(1.0, 8.0 * r), Same)
    case TorsoLayer =>
      BoxLattice(0, 9 * h, 13 * h, 0, 5 * h, layerZ, Ends(0, 8 * h, -r / 8.0, 65.0 * r / 8.0), layerY,
                 Affine(33.0 / 32.0, -r / 8.0), limbY, limbZ)
    case Cape =>
      Lattice3(
        Nest(ZPlane, 0, 11 * h, 0, 17 * h, 0, h, -1.0, 0.0, Affine(1.0, -1.0), Affine(1.0, 8.0 * r)),
        Nest(XPlane, 0, 17 * h, 0, 2 * h, 0, 8 * h, 0.0, 8.0 * r, Affine(1.0, 8.0 * r), Same),
        Nest(YPlane, 0, 11 * h, 0, 2 * h, 0, 12 * h, 8.0 * r, 20.0 * r, Same, Same))
    case RArm =>
      BoxLattice(s, 5 * h, 13 * h, 0, 5 * h, Plain(0, 4 * h), Ends(s, 4 * h, (s - 4 * h) as real, 0.0),
                 Ends(0, 12 * h, 8.0 * r, 20.0 * r), Affine(1.0, -4.0 * r), Affine(1.0, 8.0 * r), Same)
    case RArmLayer =>
      BoxLattice(s, 5 * h, 13 * h, 0, 5 * h, layerZ, Ends(s, 4 * h, (s as real - 33.0 / 8.0) * r, r / 8.0), layerY,
                 Affine(17.0 / 16.0, -33.0 * r / 8.0), limbY, limbZ)
    case LArm =>
      BoxLattice(0, (5 - s) * h, 13 * h, 0, 5 * h, Plain(0, 4 * h), Ends(0, (4 - s) * h, 8.0 * r, ((12 - s) * h) as real),
                 Ends(0, 12 * h, 8.0 * r, 20.0 * r), Affine(1.0, 8.0 * r), Affine(1.0, 8.0 * r), Same)
    case LArmLayer =>
      BoxLattice(0, (5 - s) * h, 13 * h, 0, 5 * h, layerZ, Ends(0, (4 - s) * h, 63.0 * r / 8.0, (97.0 / 8.0 - s as real) * r),
                 layerY, Affine(17.0 / 16.0, 63.0 * r / 8.0), limbY, limbZ)
    case RLeg =>
      BoxLattice(0, 5 * h, 13 * h, 0, 5 * h, Plain(0, 4 * h), Plain(0, 4 * h),
                 Ends(0, 12 * h, 20.0 * r, 32.0 * r), Same, Affine(1.0, 20.0 * r), Same)
    case RLegLayer =>
      BoxLattice(0, 5 * h, 13 * h, 0, 5 * h, layerZ, Ends(0, 4 * h, -r / 8.0, 33.0 * r / 8.0), legLayerY,
                 Affine(17.0 / 16.0, -r / 8.0), legY, limbZ)
    case LLeg =>
      BoxLattice(0, 9 * h, 13 * h, 0, 5 * h, Plain(0, 4 * h), Ends(0, 4 * h, 4.0 * r, 8.0 * r),
                 Ends(0, 12 * h, 20.0 * r, 32.0 * r), Affine(1.0, 4.0 * r), Affine(1.0, 20.0 * r), Same)
    case LLegLayer =>
      BoxLattice(0, 5 * h, 13 * h, 0, 5 * h, layerZ, Ends(0, 4 * h, 31.0 * r / 8.0, 65.0 * r / 8.0), legLayerY,
                 Affine(17.0 / 16.0, 31.0 * r / 8.0), legY, limbZ)
  }

  /** A key one of the three loop pairs inserts. */
  predicate Holds3(l: Lattice3, key: Key)
  {
    NestHolds(l.zs, key) || NestHolds(l.xs, key) || NestHolds(l.ys, key)
  }

  /** The dictionary a part's lattice loops build. */
  function VolumeOf(l: Lattice3): Nested<Vec3>
  {
    LatticeOf(LatticeInserts(Nests(l)))
  }

  /** `volume_points[i][j][k]` succeeds exactly on the keys the loop pairs
      hold. */
  lemma VolumeHolds(l: Lattice3, key: Key)
    ensures Lookup(VolumeOf(l), key).Some? <==> Holds3(l, key)
  {
    LatticeHolds(Nests(l), key);
    assert Holds(Nests(l), key) <==> Holds3(l, key) by {
      if NestHolds(l.zs, key) {
        assert l.zs in Nests(l);
      } else if NestHolds(l.xs, key) {
        assert l.xs in Nests(l);
      } else if NestHolds(l.ys, key) {
        assert l.ys in Nests(l);
      }
    }
  }

  /** A cell of a face loop lies in its loop ranges. */
  predicate InLoop(f: FaceLoop, a: int, b: int)
  {
    f.lo1 <= a < f.hi1 && f.lo2 <= b < f.hi2
  }

  /** Every key a face loop reads is one of its part's lattice loops. */
  lemma QuadKeysHeld(p: Part, face: Face, h: int, s: int, a: int, b: int)
    requires h >= 1 && (s == 0 || s == 1)
    requires InLoop(Loop(p, face, h, s), a, b)
    ensures forall q | 0 <= q < 4 :: Holds3(LatticeFor(p, h, s), QuadKeys(Loop(p, face, h, s), a, b)[q])
  {
    match p
    case Head => HeadKeysHeld(face, h, s, a, b);
    case Helmet => HelmetKeysHeld(face, h, s, a, b);
    case Torso => TorsoKeysHeld(face, h, s, a, b);
    case TorsoLayer => TorsoLayerKeysHeld(face, h, s, a, b);
    case Cape => CapeKeysHeld(face, h, s, a, b);
    case RLeg => RLegKeysHeld(face, h, s, a, b);
    case RLegLayer => RLegLayerKeysHeld(face, h, s, a, b);
    case LLeg => LLegKeysHeld(face, h, s, a, b);
    case LLegLayer => LLegLayerKeysHeld(face, h, s, a, b);
    case RArm => if s == 0 { RArmKeysHeld(face, h, a, b); } else { SlimRArmKeysHeld(face, h, a, b); }
    case RArmLayer => if s == 0 { RArmLayerKeysHeld(face, h, a, b); } else { SlimRArmLayerKeysHeld(face, h, a, b); }
    case LArm => if s == 0 { LArmKeysHeld(face, h, a, b); } else { SlimLArmKeysHeld(face, h, a, b); }
    case LArmLayer => if s == 0 { LArmLayerKeysHeld(face, h, a, b); } else { SlimLArmLayerKeysHeld(face, h, a, b); }
  }

  lemma HeadKeysHeld(face: Face, h: int, s: int, a: int, b: int)
    requires h >= 1
    requires InLoop(Loop(Head, face, h, s), a, b)
    ensures forall q | 0 <= q < 4 :: Holds3(LatticeFor(Head, h, s), QuadKeys(Loop(Head, face, h, s), a, b)[q])
  {
  }

  lemma HelmetKeysHeld(face: Face, h: int, s: int, a: int, b: int)
    requires h >= 1
    requires InLoop(Loop(Helmet, face, h, s), a, b)
    ensures forall q | 0 <= q < 4 :: Holds3(LatticeFor(Helmet, h, s), QuadKeys(Loop(Helmet, face, h, s), a, b)[q])
  {
  }

  lemma TorsoKeysHeld(face: Face, h: int, s: int, a: int, b: int)
    requires h >= 1
    requires InLoop(Loop(Torso, face, h, s), a, b)
    ensures forall q | 0 <= q < 4 :: Holds3(LatticeFor(Torso, h, s), QuadKeys(Loop(Torso, face, h, s), a, b)[q])
  {
  }

  lemma TorsoLayerKeysHeld(face: Face, h: int, s: int, a: int, b: int)
    requires h >= 1
    requires InLoop(Loop(TorsoLayer, face, h, s), a, b)
    ensures forall q | 0 <= q < 4 :: Holds3(LatticeFor(TorsoLayer, h, s), QuadKeys(Loop(TorsoLayer, face, h, s), a, b)[q])
  {
  }

  lemma CapeKeysHeld(face: Face, h: int, s: int, a: int, b: int)
    requires h >= 1
    requires InLoop(Loop(Cape, face, h, s), a, b)
    ensures forall q | 0 <= q < 4 :: Holds3(LatticeFor(Cape, h, s), QuadKeys(Loop(Cape, face, h, s), a, b)[q])
  {
  }

  lemma RLegKeysHeld(face: Face, h: int, s: int, a: int, b: int)
    requires h >= 1
    requires InLoop(Loop(RLeg, face, h, s), a, b)
    ensures forall q | 0 <= q < 4 :: Holds3(LatticeFor(RLeg, h, s), QuadKeys(Loop(RLeg, face, h, s), a, b)[q])
  {
  }

  lemma RLegLayerKeysHeld(face: Face, h: int, s: int, a: int, b: int)
    requires h >= 1
    requires InLoop(Loop(RLegLayer, face, h, s), a, b)
    ensures forall q | 0 <= q < 4 :: Holds3(LatticeFor(RLegLayer, h, s), QuadKeys(Loop(RLegLayer, face, h, s), a, b)[q])
  {
  }

  lemma LLegKeysHeld(face: Face, h: int, s: int, a: int, b: int)
    requires h >= 1
    requires InLoop(Loop(LLeg, face, h, s), a, b)
    ensures forall q | 0 <= q < 4 :: Holds3(LatticeFor(LLeg, h, s), QuadKeys(Loop(LLeg, face, h, s), a, b)[q])
  {
  }

  lemma LLegLayerKeysHeld(face: Face, h: int, s: int, a: int, b: int)
    requires h >= 1
    requires InLoop(Loop(LLegLayer, face, h, s), a, b)
    ensures forall q | 0 <= q < 4 :: Holds3(LatticeFor(LLegLayer, h, s), QuadKeys(Loop(LLegLayer, face, h, s), a, b)[q])
  {
  }

  lemma RArmKeysHeld(face: Face, h: int, a: int, b: int)
    requires h >= 1
    requires InLoop(Loop(RArm, face, h, 0), a, b)
    ensures forall q | 0 <= q < 4 :: Holds3(LatticeFor(RArm, h, 0), QuadKeys(Loop(RArm, face, h, 0), a, b)[q])
  {
  }

  lemma SlimRArmKeysHeld(face: Face, h: int, a: int, b: int)
    requires h >= 1
    requires InLoop(Loop(RArm, face, h, 1), a, b)
    ensures forall q | 0 <= q < 4 :: Holds3(LatticeFor(RArm, h, 1), QuadKeys(Loop(RArm, face, h, 1), a, b)[q])
  {
  }

  lemma RArmLayerKeysHeld(face: Face, h: int, a: int, b: int)
    requires h >= 1
    requires InLoop(Loop(RArmLayer, face, h, 0), a, b)
    ensures forall q | 0 <= q < 4 :: Holds3(LatticeFor(RArmLayer, h, 0), QuadKeys(Loop(RArmLayer, face, h, 0), a, b)[q])
  {
  }

  lemma SlimRArmLayerKeysHeld(face: Face, h: int, a: int, b: int)
    requires h >= 1
    requires InLoop(Loop(RArmLayer, face, h, 1), a, b)
    ensures forall q | 0 <= q < 4 :: Holds3(LatticeFor(RArmLayer, h, 1), QuadKeys(Loop(RArmLayer, face, h, 1), a, b)[q])
  {
  }

  lemma LArmKeysHeld(face: Face, h: int, a: int, b: int)
    requires h >= 1
    requires InLoop(Loop(LArm, face, h, 0), a, b)
    ensures forall q | 0 <= q < 4 :: Holds3(LatticeFor(LArm, h, 0), QuadKeys(Loop(LArm, face, h, 0), a, b)[q])
  {
  }

  lemma SlimLArmKeysHeld(face: Face, h: int, a: int, b: int)
    requires h >= 1
    requires InLoop(Loop(LArm, face, h, 1), a, b)
    ensures forall q | 0 <= q < 4 :: Holds3(LatticeFor(LArm, h, 1), QuadKeys(Loop(LArm, face, h, 1), a, b)[q])
  {
  }

  lemma LArmLayerKeysHeld(face: Face, h: int, a: int, b: int)
    requires h >= 1
    requires InLoop(Loop(LArmLayer, face, h, 0), a, b)
    ensures forall q | 0 <= q < 4 :: Holds3(LatticeFor(LArmLayer, h, 0), QuadKeys(Loop(LArmLayer, face, h, 0), a, b)[q])
  {
  }

  lemma SlimLArmLayerKeysHeld(face: Face, h: int, a: int, b: int)
    requires h >= 1
    requires InLoop(Loop(LArmLayer, face, h, 1), a, b)
    ensures forall q | 0 <= q < 4 :: Holds3(LatticeFor(LArmLayer, h, 1), QuadKeys(Loop(LArmLayer, face, h, 1), a, b)[q])
  {
  }

  /** So for every part, slim or not, every quad of every face finds its
      four points in `volume_points`. */
  lemma QuadsResolve(p: Part, face: Face, h: int, s: int, a: int, b: int)
    requires h >= 1 && (s == 0 || s == 1)
    requires InLoop(Loop(p, face, h, s), a, b)
    ensures forall q | 0 <= q < 4 :: Lookup(VolumeOf(LatticeFor(p, h, s)), QuadKeys(Loop(p, face, h, s), a, b)[q]).Some?
  {
    var keys := QuadKeys(Loop(p, face, h, s), a, b);
    QuadKeysHeld(p, face, h, s, a, b);
    forall q | 0 <= q < 4
      ensures Lookup(VolumeOf(LatticeFor(p, h, s)), keys[q]).Some?
    {
      VolumeHolds(LatticeFor(p, h, s), keys[q]);
    }
  }

  /** Only the cape's side loops differ between the loops as written and the
      ones used here, and at hd_ratio 1 not even those. */
  lemma LoopDiffersOnlyOnCapeSides(p: Part, face: Face, h: int, s: int)
    ensures Loop(p, face, h, s) != LoopAsWritten(p, face, h, s) <==>
      p == Cape && face in [Right, Left, Top, Bottom] && h != 1
  {
  }

  /** As written, the cape's left loop at hd_ratio 2 or more reads key
      (10h, 1, 1) for its first cell, which no cape lattice loop inserts, so
      the lookup raises KeyError as soon as that cell's texel is opaque. */
  lemma CapeLeftMisses(h: int, s: int)
    requires h >= 2
    ensures var f := LoopAsWritten(Cape, Left, h, s);
      InLoop(f, 0, 0) && QuadKeys(f, 0, 0)[2] == (10 * h, 1, 1) &&
      Lookup(VolumeOf(LatticeFor(Cape, h, s)), (10 * h, 1, 1)).None?
  {
    VolumeHolds(LatticeFor(Cape, h, s), (10 * h, 1, 1));
  }

  /** Likewise the bottom loop's first cell reads (1, 16h, 1). */
  lemma CapeBottomMisses(h: int, s: int)
    requires h >= 2
    ensures var f := LoopAsWritten(Cape, Bottom, h, s);
      InLoop(f, 0, 0) && QuadKeys(f, 0, 0)[2] == (1, 16 * h, 1) &&
      Lookup(VolumeOf(LatticeFor(Cape, h, s)), (1, 16 * h, 1)).None?
  {
    VolumeHolds(LatticeFor(Cape, h, s), (1, 16 * h, 1));
  }

  /** The texel of cell (a, b) lies in the 64h x 64h skin, or for the cape in
      the 22h x 17h cape image. */
  predicate TexelFits(p: Part, face: Face, h: int, s: int, a: int, b: int)
  {
    var t := Texel(Loop(p, face, h, s), a, b);
    if p == Cape then 0 <= t.0 < 22 * h && 0 <= t.1 < 17 * h
    else 0 <= t.0 < 64 * h && 0 <= t.1 < 64 * h
  }

  /** Every texel a face loop reads lies in its image. */
  lemma TexelInAtlas(p: Part, face: Face, h: int, s: int, a: int, b: int)
    requires h >= 1 && (s == 0 || s == 1)
    requires InLoop(Loop(p, face, h, s), a, b)
    ensures TexelFits(p, face, h, s, a, b)
  {
    match p
    case Head => HeadFits(face, h, s, a, b);
    case Helmet => HelmetFits(face, h, s, a, b);
    case Torso => TorsoFits(face, h, s, a, b);
    case TorsoLayer => TorsoLayerFits(face, h, s, a, b);
    case Cape => CapeFits(face, h, s, a, b);
    case RLeg => RLegFits(face, h, s, a, b);
    case RLegLayer => RLegLayerFits(face, h, s, a, b);
    case LLeg => LLegFits(face, h, s, a, b);
    case LLegLayer => LLegLayerFits(face, h, s, a, b);
    case RArm => if s == 0 { RArmFits(face, h, a, b); } else { SlimRArmFits(face, h, a, b); }
    case RArmLayer => if s == 0 { RArmLayerFits(face, h, a, b); } else { SlimRArmLayerFits(face, h, a, b); }
    case LArm => if s == 0 { LArmFits(face, h, a, b); } else { SlimLArmFits(face, h, a, b); }
    case LArmLayer => if s == 0 { LArmLayerFits(face, h, a, b); } else { SlimLArmLayerFits(face, h, a, b); }
  }

  // One lemma per part, and for the arms one per value of `start`, keeps
  // each texel-bound proof linear and small.

  lemma HeadFits(face: Face, h: int, s: int, a: int, b: int)
    requires h >= 1
    requires InLoop(Loop(Head, face, h, s), a, b)
    ensures TexelFits(Head, face, h, s, a, b)
  {
  }

  lemma HelmetFits(face: Face, h: int, s: int, a: int, b: int)
    requires h >= 1
    requires InLoop(Loop(Helmet, face, h, s), a, b)
    ensures TexelFits(Helmet, face, h, s, a, b)
  {
  }

  lemma TorsoFits(face: Face, h: int, s: int, a: int, b: int)
    requires h >= 1
    requires InLoop(Loop(Torso, face, h, s), a, b)
    ensures TexelFits(Torso, face, h, s, a, b)
  {
  }

  lemma TorsoLayerFits(face: Face, h: int, s: int, a: int, b: int)
    requires h >= 1
    requires InLoop(Loop(TorsoLayer, face, h, s), a, b)
    ensures TexelFits(TorsoLayer, face, h, s, a, b)
  {
  }

  lemma CapeFits(face: Face, h: int, s: int, a: int, b: int)
    requires h >= 1
    requires InLoop(Loop(Cape, face, h, s), a, b)
    ensures TexelFits(Cape, face, h, s, a, b)
  {
  }

  lemma RLegFits(face: Face, h: int, s: int, a: int, b: int)
    requires h >= 1
    requires InLoop(Loop(RLeg, face, h, s), a, b)
    ensures TexelFits(RLeg, face, h, s, a, b)
  {
  }

  lemma RLegLayerFits(face: Face, h: int, s: int, a: int, b: int)
    requires h >= 1
    requires InLoop(Loop(RLegLayer, face, h, s), a, b)
    ensures TexelFits(RLegLayer, face, h, s, a, b)
  {
  }

  lemma LLegFits(face: Face, h: int, s: int, a: int, b: int)
    requires h >= 1
    requires InLoop(Loop(LLeg, face, h, s), a, b)
    ensures TexelFits(LLeg, face, h, s, a, b)
  {
  }

  lemma LLegLayerFits(face: Face, h: int, s: int, a: int, b: int)
    requires h >= 1
    requires InLoop(Loop(LLegLayer, face, h, s), a, b)
    ensures TexelFits(LLegLayer, face, h, s, a, b)
  {
  }

  lemma RArmFits(face: Face, h: int, a: int, b: int)
    requires h >= 1
    requires InLoop(Loop(RArm, face, h, 0), a, b)
    ensures TexelFits(RArm, face, h, 0, a, b)
  {
  }

  lemma SlimRArmFits(face: Face, h: int, a: int, b: int)
    requires h >= 1
    requires InLoop(Loop(RArm, face, h, 1), a, b)
    ensures TexelFits(RArm, face, h, 1, a, b)
  {
  }

  lemma RArmLayerFits(face: Face, h: int, a: int, b: int)
    requires h >= 1
    requires InLoop(Loop(RArmLayer, face, h, 0), a, b)
    ensures TexelFits(RArmLayer, face, h, 0, a, b)
  {
  }

  lemma SlimRArmLayerFits(face: Face, h: int, a: int, b: int)
    requires h >= 1
    requires InLoop(Loop(RArmLayer, face, h, 1), a, b)
    ensures TexelFits(RArmLayer, face, h, 1, a, b)
  {
  }

  lemma LArmFits(face: Face, h: int, a: int, b: int)
    requires h >= 1
    requires InLoop(Loop(LArm, face, h, 0), a, b)
    ensures TexelFits(LArm, face, h, 0, a, b)
  {
  }

  lemma SlimLArmFits(face: Face, h: int, a: int, b: int)
    requires h >= 1
    requires InLoop(Loop(LArm, face, h, 1), a, b)
    ensures TexelFits(LArm, face, h, 1, a, b)
  {
  }

  lemma LArmLayerFits(face: Face, h: int, a: int, b: int)
    requires h >= 1
    requires InLoop(Loop(LArmLayer, face, h, 0), a, b)
    ensures TexelFits(LArmLayer, face, h, 0, a, b)
  {
  }

  lemma SlimLArmLayerFits(face: Face, h: int, a: int, b: int)
    requires h >= 1
    requires InLoop(Loop(LArmLayer, face, h, 1), a, b)
    ensures TexelFits(LArmLayer, face, h, 1, a, b)
  {
  }

  /** Back faces read the atlas right to left: the column of cell a is
      C - 1 - a for a column C fixed per part, and the row does not depend
      on a. */
  lemma BackReadsMirrored(p: Part, h: int, s: int, a: int, b: int)
    ensures var f := Loop(p, Back, h, s);
      Texel(f, a, b).0 == Texel(f, 0, b).0 - a && Texel(f, a, b).1 == Texel(f, 0, b).1
  {
  }

  /** The torso layer reads every texel 16 rows below the torso's, whatever
      hd_ratio is, over the same loops. */
  lemma TorsoLayerRows(face: Face, h: int, s: int, a: int, b: int)
    ensures var base := Loop(Torso, face, h, s); var layer := Loop(TorsoLayer, face, h, s);
      (base.lo1, base.hi1, base.lo2, base.hi2) == (layer.lo1, layer.hi1, layer.lo2, layer.hi2) &&
      Texel(layer, a, b) == (Texel(base, a, b).0, Texel(base, a, b).1 + 16)
  {
  }

  /** The right-arm layer's back starts `start` columns of hd_ratio further
      left than the base's; every other right-arm-layer column matches the
      base. */
  lemma RArmLayerBack(face: Face, h: int, s: int, a: int, b: int)
    ensures Texel(Loop(RArmLayer, face, h, s), a, b).0 ==
      Texel(Loop(RArm, face, h, s), a, b).0 - (if face == Back then s * h else 0)
  {
  }

  /** The helmet's bottom reads a single column, 48h + 1, for every cell. */
  lemma HelmetBottomColumn(h: int, s: int, a: int, b: int)
    ensures Texel(Loop(Helmet, Bottom, h, s), a, b).0 == 48 * h + 1
  {
  }

  /** `start` is not scaled in the slim arms' loop bounds: the right arm skips
      one cell, not hd_ratio cells, and the left arm's last cell sits at
      (4 - start) * hd_ratio - 1. */
  lemma SlimArmBounds(face: Face, h: int)
    requires face in [Back, Front, Top, Bottom]
    ensures Loop(RArm, face, h, 1).lo1 == 1 && Loop(RArm, face, h, 1).hi1 == 4 * h
    ensures Loop(LArm, face, h, 1).lo1 == 0 && Loop(LArm, face, h, 1).hi1 == 3 * h
  {
  }
}
