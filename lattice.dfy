/** The point lattices of `generate_polygons`. Every part fills a fresh
    `volume_points` dictionary with three pairs of nested loops; each pair
    walks one plane of the part's box and inserts, for both of its fixed
    keys, a point at a key (i, j, k) with model coordinates computed from the
    loop variables. `append_dict` keeps the first point stored for a key. */
module Lattice {
  import opened Common
  import opened Mesh

  /** The plane a loop pair walks: the key component it keeps fixed is z for
      `ZPlane`, x for `XPlane` and y for `YPlane`. */
  datatype Plane = XPlane | YPlane | ZPlane

  /** The key of loop variables (a, b) on a plane whose fixed component is c:
      (i, j) on a z plane, (j, k) on an x plane, (i, k) on a y plane. */
  function KeyOf(plane: Plane, a: int, b: int, c: int): (r: Key)
    ensures plane.ZPlane? ==> r.2 == c && (r.0, r.1) == (a, b)
    ensures plane.XPlane? ==> r.0 == c && (r.1, r.2) == (a, b)
    ensures plane.YPlane? ==> r.1 == c && (r.0, r.2) == (a, b)
  {
    match plane
    case ZPlane => (a, b, c)
    case XPlane => (c, a, b)
    case YPlane => (a, c, b)
  }

  /** `scale * v + offset`: how a layer stretches its lattice (`i * 8.5 / 8 -
      0.25 * hd_ratio` is `Affine(17/16, -h/4)`), exactly, without rounding. */
  datatype Affine = Affine(scale: real, offset: real)

  function Apply(f: Affine, v: int): real
  {
    f.scale * (v as real) + f.offset
  }

  const Same := Affine(1.0, 0.0)

  /** The number of values `range(lo, hi)` yields. */
  function Span(lo: int, hi: int): nat
  {
    if lo < hi then hi - lo else 0
  }

  /** One pair of lattice loops: the outer variable a runs over `range(lo1,
      hi1)`, the inner b over `range(lo2, hi2)`; each step inserts the key with
      fixed component `c1` at coordinate `fix1` on the fixed axis, then the one
      with `c2` at `fix2`. `f1` and `f2` give the other two coordinates. */
  datatype Nest = Nest(plane: Plane, lo1: int, hi1: int, lo2: int, hi2: int,
                       c1: int, c2: int, fix1: real, fix2: real, f1: Affine, f2: Affine)

  function NestKey(n: Nest, a: int, b: int, second: bool): Key
  {
    KeyOf(n.plane, a, b, if second then n.c2 else n.c1)
  }

  /** The model coordinates of the point created for (a, b). */
  function NestCoords(n: Nest, a: int, b: int, second: bool): Vec3
  {
    var fixed := if second then n.fix2 else n.fix1;
    match n.plane
    case ZPlane => Vec3(Apply(n.f1, a), Apply(n.f2, b), fixed)
    case XPlane => Vec3(fixed, Apply(n.f1, a), Apply(n.f2, b))
    case YPlane => Vec3(Apply(n.f1, a), fixed, Apply(n.f2, b))
  }

  /** A key the loop pair inserts: its fixed component is `c1` or `c2` and the
      other two lie in the loop ranges. */
  predicate NestHolds(n: Nest, key: Key)
  {
    match n.plane
    case ZPlane => (key.2 == n.c1 || key.2 == n.c2) && n.lo1 <= key.0 < n.hi1 && n.lo2 <= key.1 < n.hi2
    case XPlane => (key.0 == n.c1 || key.0 == n.c2) && n.lo1 <= key.1 < n.hi1 && n.lo2 <= key.2 < n.hi2
    case YPlane => (key.1 == n.c1 || key.1 == n.c2) && n.lo1 <= key.0 < n.hi1 && n.lo2 <= key.2 < n.hi2
  }

  /** A key some loop pair of the lattice inserts. */
  predicate Holds(lattice: seq<Nest>, key: Key)
  {
    exists n | n in lattice :: NestHolds(n, key)
  }

  type Insert = (Key, Vec3)

  /** The two inserts of step (a, b). */
  function CellInserts(n: Nest, a: int, b: int): seq<Insert>
  {
    [(NestKey(n, a, b, false), NestCoords(n, a, b, false)), (NestKey(n, a, b, true), NestCoords(n, a, b, true))]
  }

  /** The inserts of the first m steps of the inner loop for outer value a. */
  function RowInserts(n: Nest, a: int, m: nat): seq<Insert>
  {
    if m == 0 then [] else RowInserts(n, a, m - 1) + CellInserts(n, a, n.lo2 + m - 1)
  }

  /** The inserts of the first m rounds of the outer loop. */
  function NestRows(n: Nest, m: nat): seq<Insert>
  {
    if m == 0 then [] else NestRows(n, m - 1) + RowInserts(n, n.lo1 + m - 1, Span(n.lo2, n.hi2))
  }

  function NestInserts(n: Nest): seq<Insert>
  {
    NestRows(n, Span(n.lo1, n.hi1))
  }

  /** The inserts of the loop pairs in order. */
  function LatticeInserts(lattice: seq<Nest>): seq<Insert>
  {
    if lattice == [] then [] else LatticeInserts(lattice[..|lattice| - 1]) + NestInserts(lattice[|lattice| - 1])
  }

  /** The dictionary after the inserts, one `append_dict` each. */
  function LatticeOf(ins: seq<Insert>): Nested<Vec3>
  {
    if ins == [] then map[] else AppendDict(LatticeOf(ins[..|ins| - 1]), ins[|ins| - 1].0, ins[|ins| - 1].1)
  }

  /** The coordinates of the first insert with the key. */
  function FirstWith(ins: seq<Insert>, key: Key): Option<Vec3>
  {
    if ins == [] then None
    else if FirstWith(ins[..|ins| - 1], key).Some? then FirstWith(ins[..|ins| - 1], key)
    else if ins[|ins| - 1].0 == key then Some(ins[|ins| - 1].1)
    else None
  }

  /** The dictionary holds, for every key, the first point inserted for it. */
  lemma {:induction false} LatticeFirstWins(ins: seq<Insert>, key: Key)
    ensures Lookup(LatticeOf(ins), key) == FirstWith(ins, key)
  {
    if ins != [] {
      LatticeFirstWins(ins[..|ins| - 1], key);
    }
  }

  /** The first insert with a key is the one `FirstWith` finds. */
  lemma {:induction false} FirstWithIsFirst(ins: seq<Insert>, i: nat, key: Key)
    requires i < |ins| && ins[i].0 == key
    requires forall j | 0 <= j < i :: ins[j].0 != key
    ensures FirstWith(ins, key) == Some(ins[i].1)
  {
    if i < |ins| - 1 {
      FirstWithIsFirst(ins[..|ins| - 1], i, key);
    } else {
      FirstWithNone(ins[..|ins| - 1], key);
    }
  }

  /** A key no insert carries is not found. */
  lemma {:induction false} FirstWithNone(ins: seq<Insert>, key: Key)
    requires forall j | 0 <= j < |ins| :: ins[j].0 != key
    ensures FirstWith(ins, key) == None
  {
    if ins != [] {
      FirstWithNone(ins[..|ins| - 1], key);
    }
  }

  /** A key some insert carries is found. */
  lemma {:induction false} FirstWithSome(ins: seq<Insert>, e: Insert)
    requires e in ins
    ensures FirstWith(ins, e.0).Some?
  {
    if e in ins[..|ins| - 1] {
      FirstWithSome(ins[..|ins| - 1], e);
    } else {
      assert ins == ins[..|ins| - 1] + [ins[|ins| - 1]];
    }
  }

  /** Row a inserts both keys of every inner step taken. */
  lemma {:induction false} RowHas(n: Nest, a: int, m: nat, b: int, second: bool)
    requires n.lo2 <= b < n.lo2 + m
    ensures (NestKey(n, a, b, second), NestCoords(n, a, b, second)) in RowInserts(n, a, m)
  {
    if b < n.lo2 + m - 1 {
      RowHas(n, a, m - 1, b, second);
    }
  }

  /** The first m rounds insert both keys of every step they take. */
  lemma {:induction false} RowsHave(n: Nest, m: nat, a: int, b: int, second: bool)
    requires n.lo1 <= a < n.lo1 + m && n.lo2 <= b < n.hi2
    ensures (NestKey(n, a, b, second), NestCoords(n, a, b, second)) in NestRows(n, m)
  {
    if a < n.lo1 + m - 1 {
      RowsHave(n, m - 1, a, b, second);
    } else {
      RowHas(n, a, Span(n.lo2, n.hi2), b, second);
    }
  }

  /** Every key a loop pair holds is inserted by it. */
  lemma NestHas(n: Nest, key: Key) returns (e: Insert)
    requires NestHolds(n, key)
    ensures e in NestInserts(n) && e.0 == key
  {
    match n.plane
    case ZPlane =>
      var second := key.2 != n.c1;
      RowsHave(n, Span(n.lo1, n.hi1), key.0, key.1, second);
      e := (NestKey(n, key.0, key.1, second), NestCoords(n, key.0, key.1, second));
    case XPlane =>
      var second := key.0 != n.c1;
      RowsHave(n, Span(n.lo1, n.hi1), key.1, key.2, second);
      e := (NestKey(n, key.1, key.2, second), NestCoords(n, key.1, key.2, second));
    case YPlane =>
      var second := key.1 != n.c1;
      RowsHave(n, Span(n.lo1, n.hi1), key.0, key.2, second);
      e := (NestKey(n, key.0, key.2, second), NestCoords(n, key.0, key.2, second));
  }

  /** Row a inserts only keys the loop pair holds. */
  lemma {:induction false} RowOnly(n: Nest, a: int, m: nat, e: Insert)
    requires n.lo1 <= a < n.hi1 && m <= Span(n.lo2, n.hi2)
    requires e in RowInserts(n, a, m)
    ensures NestHolds(n, e.0)
  {
    if e !in CellInserts(n, a, n.lo2 + m - 1) {
      RowOnly(n, a, m - 1, e);
    }
  }

  /** A loop pair inserts only keys it holds. */
  lemma {:induction false} RowsOnly(n: Nest, m: nat, e: Insert)
    requires m <= Span(n.lo1, n.hi1)
    requires e in NestRows(n, m)
    ensures NestHolds(n, e.0)
  {
    if e in NestRows(n, m - 1) {
      RowsOnly(n, m - 1, e);
    } else {
      RowOnly(n, n.lo1 + m - 1, Span(n.lo2, n.hi2), e);
    }
  }

  /** The inserts of a lattice are those of its loop pairs. */
  lemma {:induction false} LatticeInsertsOf(lattice: seq<Nest>, e: Insert)
    ensures e in LatticeInserts(lattice) <==> exists n | n in lattice :: e in NestInserts(n)
  {
    if lattice != [] {
      LatticeInsertsOf(lattice[..|lattice| - 1], e);
      var last := lattice[|lattice| - 1];
      assert forall n | n in lattice :: n in lattice[..|lattice| - 1] || n == last;
    }
  }

  /** The lattice dictionary has a point exactly at the keys some loop pair
      holds, so a face loop reading any other key raises KeyError. */
  lemma LatticeHolds(lattice: seq<Nest>, key: Key)
    ensures Lookup(LatticeOf(LatticeInserts(lattice)), key).Some? <==> Holds(lattice, key)
  {
    var ins := LatticeInserts(lattice);
    LatticeFirstWins(ins, key);
    if Holds(lattice, key) {
      var n :| n in lattice && NestHolds(n, key);
      var e := NestHas(n, key);
      LatticeInsertsOf(lattice, e);
      FirstWithSome(ins, e);
    } else {
      forall j | 0 <= j < |ins|
        ensures ins[j].0 != key
      {
        LatticeInsertsOf(lattice, ins[j]);
        var n :| n in lattice && ins[j] in NestInserts(n);
        RowsOnly(n, Span(n.lo1, n.hi1), ins[j]);
      }
      FirstWithNone(ins, key);
    }
  }
}
