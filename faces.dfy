/** Face classification of `determine_faces` and `set_cube_points`: the eight
    labelled corners of the unit cube, the first corner of smallest depth, and
    the complement of its labels in `all_faces` order. */
module Faces {
  import opened Common
  import opened Body
  import opened Mesh

  /** Corner `c` of the unit cube, in the order `set_cube_points` appends them:
      x is bit 2, y bit 1 and z bit 0 of the index. */
  function Corner(c: nat): Vec3
    requires c < 8
  {
    Vec3(if c >= 4 then 1.0 else 0.0, if c % 4 >= 2 then 1.0 else 0.0, if c % 2 == 1 then 1.0 else 0.0)
  }

  /** The three faces meeting at corner `c`. */
  function CornerLabels(c: nat): (r: seq<Face>)
    requires c < 8
    ensures |r| == 3
  {
    [if c % 2 == 1 then Front else Back, if c >= 4 then Left else Right, if c % 4 >= 2 then Bottom else Top]
  }

  /** Each corner names one face of each opposite pair: its z side (back at
      z = 0), its x side (right at x = 0) and its y side (top at y = 0). */
  lemma CornerLabelsSides(c: nat)
    requires c < 8
    ensures var l := CornerLabels(c); var v := Corner(c);
      (Back in l <==> v.z == 0.0) && (Front in l <==> v.z == 1.0) &&
      (Right in l <==> v.x == 0.0) && (Left in l <==> v.x == 1.0) &&
      (Top in l <==> v.y == 0.0) && (Bottom in l <==> v.y == 1.0)
  {
  }

  /** `[face for face in all_faces if face not in labels]`. */
  function Complement(labels: seq<Face>): (r: seq<Face>)
    ensures |r| <= 6
  {
    (if Back in labels then [] else [Back]) + (if Right in labels then [] else [Right]) +
    (if Top in labels then [] else [Top]) + (if Front in labels then [] else [Front]) +
    (if Left in labels then [] else [Left]) + (if Bottom in labels then [] else [Bottom])
  }

  /** The complement holds exactly the faces the labels leave out. */
  lemma ComplementMembers(labels: seq<Face>, f: Face)
    ensures f in Complement(labels) <==> f !in labels
  {
    match f
    case Back =>
    case Right =>
    case Top =>
    case Front =>
    case Left =>
    case Bottom =>
  }

  /** Back and front of a corner split the six faces three and three, with
      one face of every opposite pair on each side. */
  lemma CornerSplit(c: nat)
    requires c < 8
    ensures |Complement(CornerLabels(c))| == 3
    ensures forall f :: f in CornerLabels(c) <==> Opposite(f) in Complement(CornerLabels(c))
  {
  }

  /** The index of the first strictly smallest element: the loop keeps the
      current best and replaces it only by a strictly smaller depth. */
  function ArgMinFirst(s: seq<real>): (r: nat)
    requires s != []
    ensures r < |s|
  {
    if |s| == 1 then 0
    else
      var r := ArgMinFirst(s[..|s| - 1]);
      if s[r] > s[|s| - 1] then |s| - 1 else r
  }

  /** The index picked holds a smallest element, and every element before
      it is strictly larger. */
  lemma {:induction false} ArgMinFirstIsMin(s: seq<real>)
    requires s != []
    ensures forall i | 0 <= i < |s| :: s[ArgMinFirst(s)] <= s[i]
    ensures forall i | 0 <= i < ArgMinFirst(s) :: s[i] > s[ArgMinFirst(s)]
  {
    if |s| > 1 {
      var init := s[..|s| - 1];
      ArgMinFirstIsMin(init);
      assert forall i | 0 <= i < |init| :: init[i] == s[i];
    }
  }

  /** Any index with those two properties is the one `ArgMinFirst` picks. */
  lemma ArgMinFirstUnique(s: seq<real>, k: nat)
    requires k < |s|
    requires forall i | 0 <= i < |s| :: s[k] <= s[i]
    requires forall i | 0 <= i < k :: s[i] > s[k]
    ensures ArgMinFirst(s) == k
  {
    ArgMinFirstIsMin(s);
  }

  /** The depth of cube corner `c` once pre-projected about the origin with a
      part's angles and projected with the view. */
  function CornerDepth(c: nat, part: Angles, view: Angles): real
    requires c < 8
  {
    Turn(RotateAbout(Corner(c), Vec3(0.0, 0.0, 0.0), part), view).z
  }

  /** The depths of the eight corners of one cube, in the order they are
      appended. */
  function CubeDepths(part: Angles, view: Angles): (r: seq<real>)
    ensures |r| == 8
    ensures forall c | 0 <= c < 8 :: r[c] == CornerDepth(c, part, view)
  {
    seq(8, c requires 0 <= c < 8 => CornerDepth(c, part, view))
  }

  /** The depths of all corners `cube_points` holds after the cubes of
      `parts` were appended: the corners of each earlier cube keep the angles
      of the part they were made for. */
  function AccumDepths(parts: seq<Part>, angles: map<Part, Angles>, view: Angles): (r: seq<real>)
    requires forall p | p in parts :: p in angles
    ensures |r| == 8 * |parts|
    ensures forall q | 0 <= q < |r| :: r[q] == CornerDepth(q % 8, angles[parts[q / 8]], view)
  {
    if parts == [] then []
    else
      var init := AccumDepths(parts[..|parts| - 1], angles, view);
      var last := CubeDepths(angles[parts[|parts| - 1]], view);
      assert forall q | 8 * (|parts| - 1) <= q < 8 * |parts| :: q / 8 == |parts| - 1 && q % 8 == q - 8 * (|parts| - 1);
      init + last
  }

  /** What the corner loop knows of one entry of `cube_points`: the labels,
      the model coordinates and whether the point was pre-projected. */
  datatype Mark = Mark(labels: seq<Face>, origin: Vec3, pre: bool)

  /** The eight entries `set_cube_points` appends, untouched. */
  function FreshCube(): (r: seq<Mark>)
    ensures |r| == 8
    ensures forall c | 0 <= c < 8 :: r[c] == Mark(CornerLabels(c), Corner(c), false)
  {
    seq(8, c requires 0 <= c < 8 => Mark(CornerLabels(c), Corner(c), false))
  }

  /** One pass of the corner loop over an entry: the part's rotation about
      the origin when it has one and the point was not pre-projected yet;
      the final legacy pass (no angles) only projects. */
  function ScanMark(m: Mark, t: Option<Angles>): Mark
  {
    if t.Some? && !m.pre then Mark(m.labels, RotateAbout(m.origin, Vec3(0.0, 0.0, 0.0), t.value), true) else m
  }

  /** The corner loop over every entry. */
  function ScanAll(ms: seq<Mark>, t: Option<Angles>): (r: seq<Mark>)
    ensures |r| == |ms|
    ensures forall i | 0 <= i < |ms| :: r[i] == ScanMark(ms[i], t)
  {
    seq(|ms|, i requires 0 <= i < |ms| => ScanMark(ms[i], t))
  }

  /** The depths `get_depth` reads once every entry is projected. */
  function Depths(ms: seq<Mark>, view: Angles): (r: seq<real>)
    ensures |r| == |ms|
    ensures forall i | 0 <= i < |ms| :: r[i] == Turn(ms[i].origin, view).z
  {
    seq(|ms|, i requires 0 <= i < |ms| => Turn(ms[i].origin, view).z)
  }

  /** `cube_points` after the cubes of the first n parts of `visible_faces`
      in the current renderer: entry i is corner i % 8 of cube i / 8, turned
      with the angles of that cube's part. */
  predicate SweptMarks(ms: seq<Mark>, n: nat, angles: map<Part, Angles>)
    requires n <= |VisibleParts|
    requires forall p | p in VisibleParts :: p in angles
  {
    |ms| == 8 * n &&
    forall i | 0 <= i < |ms| ::
      ms[i] == Mark(CornerLabels(i % 8), RotateAbout(Corner(i % 8), Vec3(0.0, 0.0, 0.0), angles[VisibleParts[i / 8]]), true)
  }

  /** One round of the part loop of the current renderer: the corners of the
      earlier cubes keep their rotations, the new cube turns with the part's
      angles, and the depths scanned are those of all cubes so far. */
  lemma SweepStep(ms: seq<Mark>, n: nat, angles: map<Part, Angles>, view: Angles)
    requires n < |VisibleParts| && forall p | p in VisibleParts :: p in angles
    requires SweptMarks(ms, n, angles)
    ensures var next := ScanAll(ms + FreshCube(), Some(angles[VisibleParts[n]]));
      SweptMarks(next, n + 1, angles) && Depths(next, view) == AccumDepths(VisibleParts[..n + 1], angles, view)
  {
    var t := angles[VisibleParts[n]];
    var next := ScanAll(ms + FreshCube(), Some(t));
    var parts := VisibleParts[..n + 1];
    forall i | 0 <= i < |next|
      ensures next[i] == Mark(CornerLabels(i % 8), RotateAbout(Corner(i % 8), Vec3(0.0, 0.0, 0.0), angles[VisibleParts[i / 8]]), true)
      ensures parts[i / 8] == VisibleParts[i / 8]
    {
      if i >= 8 * n {
        var c := i - 8 * n;
        assert i % 8 == c && i / 8 == n;
        assert (ms + FreshCube())[i] == FreshCube()[c];
      } else {
        assert (ms + FreshCube())[i] == ms[i];
      }
    }
  }

  /** What the part loop of the current renderer leaves in `cube_points`
      after n rounds: each round appends a fresh cube and scans every entry
      with the round's part angles. */
  function SweptSeq(n: nat, angles: map<Part, Angles>): (r: seq<Mark>)
    requires n <= |VisibleParts| && forall p | p in VisibleParts :: p in angles
    ensures |r| == 8 * n
  {
    if n == 0 then [] else ScanAll(SweptSeq(n - 1, angles) + FreshCube(), Some(angles[VisibleParts[n - 1]]))
  }

  /** After n rounds entry i is corner i % 8 of cube i / 8, turned once with
      the angles of that cube's part: earlier entries are never turned again. */
  lemma {:induction false} SweptSeqMarks(n: nat, angles: map<Part, Angles>)
    requires n <= |VisibleParts| && forall p | p in VisibleParts :: p in angles
    ensures SweptMarks(SweptSeq(n, angles), n, angles)
  {
    if n > 0 {
      SweptSeqMarks(n - 1, angles);
      SweepStep(SweptSeq(n - 1, angles), n - 1, angles, NoTurn);
    }
  }

  /** The depths scanned in round n are those of all n + 1 cubes so far, each
      turned with its own part's angles. */
  lemma SweptSeqDepths(n: nat, angles: map<Part, Angles>, view: Angles)
    requires n < |VisibleParts| && forall p | p in VisibleParts :: p in angles
    ensures Depths(SweptSeq(n + 1, angles), view) == AccumDepths(VisibleParts[..n + 1], angles, view)
    ensures forall i | 0 <= i < 8 * (n + 1) :: SweptSeq(n + 1, angles)[i].labels == CornerLabels(i % 8)
  {
    SweptSeqMarks(n, angles);
    SweepStep(SweptSeq(n, angles), n, angles, view);
  }

  /** A cube scanned on its own, as the legacy renderer does: with angles it
      yields the cube's own depths, and without (the final pass) the depths
      of the unturned cube. */
  lemma LoneCube(t: Option<Angles>, view: Angles)
    ensures var next := ScanAll(FreshCube(), t);
      Depths(next, view) == CubeDepths(if t.Some? then t.value else NoTurn, view) &&
      forall c | 0 <= c < 8 :: next[c].labels == CornerLabels(c)
  {
    if t.None? {
      forall c | 0 <= c < 8
        ensures Turn(Corner(c), view).z == CornerDepth(c, NoTurn, view)
      {
        NoTurnIsIdentity(Corner(c), Vec3(0.0, 0.0, 0.0));
      }
    }
  }

  /** The back labels the current renderer stores for the n-th part of
      `visible_faces`: the labels of the first deepest of all 8(n + 1)
      corners accumulated so far. */
  function AccumBack(n: nat, angles: map<Part, Angles>, view: Angles): seq<Face>
    requires n < |VisibleParts|
    requires forall p | p in VisibleParts :: p in angles
  {
    CornerLabels(ArgMinFirst(AccumDepths(VisibleParts[..n + 1], angles, view)) % 8)
  }

  /** The labels part n is given by the part loop of the current renderer:
      those of the first deepest entry once round n is done. */
  function SweptBack(n: nat, angles: map<Part, Angles>, view: Angles): seq<Face>
    requires n < |VisibleParts|
    requires forall p | p in VisibleParts :: p in angles
  {
    var ms := SweptSeq(n + 1, angles);
    ms[ArgMinFirst(Depths(ms, view))].labels
  }

  /** The part loop gives part n the labels of the first deepest of all
      8(n + 1) corners, each turned with its own part's angles. */
  lemma SweptBackIsAccumBack(n: nat, angles: map<Part, Angles>, view: Angles)
    requires n < |VisibleParts|
    requires forall p | p in VisibleParts :: p in angles
    ensures SweptBack(n, angles, view) == AccumBack(n, angles, view)
  {
    SweptSeqDepths(n, angles, view);
  }

  /** The back labels the part loop stores for the first n parts of
      `visible_faces`, in order. */
  function SweptBacks(n: nat, angles: map<Part, Angles>, view: Angles): (r: seq<seq<Face>>)
    requires n <= |VisibleParts|
    requires forall p | p in VisibleParts :: p in angles
    ensures |r| == n
  {
    if n == 0 then [] else SweptBacks(n - 1, angles, view) + [SweptBack(n - 1, angles, view)]
  }

  /** Entry m of the list is what part m is given. */
  lemma {:induction false} SweptBacksAt(n: nat, angles: map<Part, Angles>, view: Angles, m: nat)
    requires m < n <= |VisibleParts|
    requires forall p | p in VisibleParts :: p in angles
    ensures SweptBacks(n, angles, view)[m] == SweptBack(m, angles, view)
  {
    if m < n - 1 {
      SweptBacksAt(n - 1, angles, view, m);
    }
  }

  /** The back labels of one cube on its own: what the legacy renderer stores,
      since it rebuilds `cube_points` for every part. */
  function CubeBack(part: Angles, view: Angles): seq<Face>
  {
    CornerLabels(ArgMinFirst(CubeDepths(part, view)))
  }

  /** The back labels the legacy renderer stores for the first n parts of
      its `visible_faces`, in order: each part's own cube. */
  function LoneBacks(n: nat, angles: map<Part, Angles>, view: Angles): (r: seq<seq<Face>>)
    requires n <= |LegacyVisibleParts|
    requires forall p | p in LegacyVisibleParts :: p in angles
    ensures |r| == n
  {
    if n == 0 then [] else LoneBacks(n - 1, angles, view) + [CubeBack(angles[LegacyVisibleParts[n - 1]], view)]
  }

  /** Entry m of the list is the back of part m's own cube. */
  lemma {:induction false} LoneBacksAt(n: nat, angles: map<Part, Angles>, view: Angles, m: nat)
    requires m < n <= |LegacyVisibleParts|
    requires forall p | p in LegacyVisibleParts :: p in angles
    ensures LoneBacks(n, angles, view)[m] == CubeBack(angles[LegacyVisibleParts[m]], view)
  {
    if m < n - 1 {
      LoneBacksAt(n - 1, angles, view, m);
    }
  }

  /** The head's cube is scanned alone, so there both renderers agree. */
  lemma FirstPartAlone(angles: map<Part, Angles>, view: Angles)
    requires forall p | p in VisibleParts :: p in angles
    ensures AccumBack(0, angles, view) == CubeBack(angles[Head], view)
  {
    assert VisibleParts[..1] == [Head];
    var s := AccumDepths([Head], angles, view);
    assert s == CubeDepths(angles[Head], view);
  }

  lemma TurnedHeadDepth(c: nat)
    requires c < 8
    ensures CornerDepth(c, Angles(1.0, 0.0, 0.0, 1.0), NoTurn) == if c >= 4 then -1.0 else 0.0
  {
  }

  lemma UnturnedDepth(c: nat)
    requires c < 8
    ensures CornerDepth(c, NoTurn, NoTurn) == if c % 2 == 1 then 1.0 else 0.0
  {
  }

  /** A corner already scanned that is at least as deep as every corner of
      the next cube keeps its place as the best. */
  lemma {:induction false} EarlierBestStays(prev: seq<real>, cube: seq<real>)
    requires prev != []
    requires forall i | 0 <= i < |cube| :: prev[ArgMinFirst(prev)] <= cube[i]
    ensures ArgMinFirst(prev + cube) == ArgMinFirst(prev)
    decreases |cube|
  {
    if cube != [] {
      var init := cube[..|cube| - 1];
      assert (prev + cube)[..|prev + cube| - 1] == prev + init;
      EarlierBestStays(prev, init);
      assert (prev + cube)[|prev + cube| - 1] == cube[|cube| - 1];
    } else {
      assert prev + cube == prev;
    }
  }

  /** So the torso's back faces can be those of a head corner: when the head
      holds a corner at least as deep as all of the torso's, the torso is
      given that corner's labels, whatever its own deepest corner is. */
  lemma HeadCornerLeaks(head: seq<real>, torso: seq<real>)
    requires |head| == 8 && |torso| == 8
    requires forall i | 0 <= i < 8 :: head[ArgMinFirst(head)] <= torso[i]
    ensures CornerLabels(ArgMinFirst(head + torso) % 8) == CornerLabels(ArgMinFirst(head))
  {
    EarlierBestStays(head, torso);
    var k := ArgMinFirst(head);
    assert k < 8 && k % 8 == k;
  }

  /** Corner depths with the view unrotated: the head turned by 90 degrees
      about the vertical axis puts its x = 1 corners deepest, while the
      unturned torso's deepest are its z = 0 corners. */
  lemma LeakWitness()
    ensures forall c | 0 <= c < 8 :: CornerDepth(c, Angles(1.0, 0.0, 0.0, 1.0), NoTurn) == if c >= 4 then -1.0 else 0.0
    ensures forall c | 0 <= c < 8 :: CornerDepth(c, NoTurn, NoTurn) == if c % 2 == 1 then 1.0 else 0.0
    ensures var head := [0.0, 0.0, 0.0, 0.0, -1.0, -1.0, -1.0, -1.0];
      var torso := [0.0, 1.0, 0.0, 1.0, 0.0, 1.0, 0.0, 1.0];
      CornerLabels(ArgMinFirst(head + torso) % 8) == [Back, Left, Top] &&
      CornerLabels(ArgMinFirst(torso)) == [Back, Right, Top]
  {
    forall c | 0 <= c < 8
      ensures CornerDepth(c, Angles(1.0, 0.0, 0.0, 1.0), NoTurn) == if c >= 4 then -1.0 else 0.0
    {
      TurnedHeadDepth(c);
    }
    forall c | 0 <= c < 8
      ensures CornerDepth(c, NoTurn, NoTurn) == if c % 2 == 1 then 1.0 else 0.0
    {
      UnturnedDepth(c);
    }
    var head := [0.0, 0.0, 0.0, 0.0, -1.0, -1.0, -1.0, -1.0];
    var torso := [0.0, 1.0, 0.0, 1.0, 0.0, 1.0, 0.0, 1.0];
    ArgMinFirstUnique(head, 4);
    HeadCornerLeaks(head, torso);
    ArgMinFirstUnique(torso, 0);
  }
}
