/** What `generate_polygons` builds, stated on values: which parts it builds,
    which of their face loops run, in which order, and the first exception
    raised. The render class is proved against these functions. */
module Generate {
  import opened Common
  import opened Images
  import opened Body
  import opened Atlas
  import opened Quads

  /** The switches of a render that decide what is built. */
  datatype Options = Options(headOnly: bool, displayHair: bool, layers: bool, displayCape: bool, legacy: bool)

  /** The five second-layer parts. */
  predicate IsLayer(p: Part)
  {
    p == TorsoLayer || p == RArmLayer || p == LArmLayer || p == RLegLayer || p == LLegLayer
  }

  /** Whether the part's block runs at all: the head always, the helmet with
      hair shown, everything else unless only the head is drawn, a second
      layer only with layers shown, and the cape only with a cape shown (the
      legacy renderer has no cape block). */
  predicate Generated(p: Part, o: Options)
  {
    match p
    case Head => true
    case Helmet => o.displayHair
    case Cape => !o.headOnly && o.displayCape && !o.legacy
    case _ => !o.headOnly && (IsLayer(p) ==> o.layers)
  }

  /** Whether the face loop of a built part runs: the helmet's always, the
      legacy renderer's second layers always, any other only for a face in
      the part's visible front faces. */
  predicate Gated(p: Part, face: Face, front: map<Part, seq<Face>>, legacy: bool)
  {
    p == Helmet || (legacy && IsLayer(p)) || (p in front && face in front[p])
  }

  /** The parts' blocks in source order. */
  const GenParts: seq<Part> :=
    [Head, Helmet, Torso, TorsoLayer, Cape, RArm, RArmLayer, LArm, LArmLayer, RLeg, RLegLayer, LLeg, LLegLayer]

  /** `start = 1 if self.player.is_slim else 0` sits before the right arm. */
  const SlimAt: nat := 5

  /** Everything `generate_polygons` reads: the switches, the visible faces,
      `hd_ratio`, the answer of `is_slim`, the skin and the cape image. */
  datatype Gen = Gen(o: Options, front: map<Part, seq<Face>>, h: int, slim: Result<bool>,
                     skin: array2<Rgba>, cape: Option<array2<Rgba>>)

  /** The images a render reads. */
  function Sources(g: Gen): set<array2<Rgba>>
  {
    {g.skin} + if g.cape.Some? then {g.cape.value} else {}
  }

  /** The cape reads the cape image, every other part the skin. */
  function ImageFor(g: Gen, p: Part): (r: array2<Rgba>)
    ensures r in Sources(g)
  {
    if p == Cape && g.cape.Some? then g.cape.value else g.skin
  }

  /** The slim shift `start`: 1 for a slim skin, 0 otherwise and always 0 in
      the legacy renderer. */
  function Shift(g: Gen): int
  {
    if !g.o.legacy && g.slim == Ok(true) then 1 else 0
  }

  /** The quads of one face loop of a part, or the exception it raises. */
  function Job(g: Gen, p: Part, face: Face): Result<seq<Quad>>
    reads Sources(g)
  {
    FaceQuads(ImageFor(g, p), Loop(p, face, g.h, Shift(g)), VolumeOf(LatticeFor(p, g.h, Shift(g))))
  }

  /** The result of every face loop, whether it runs or not. */
  type Table = t: imap<(Part, Face), Result<seq<Quad>>> | forall k :: k in t
    ghost witness imap k: (Part, Face) | true :: Err(KeyError)

  /** What `generate_polygons` decides on: the switches, the visible faces,
      the answer of `is_slim`, and what each face loop would yield. */
  datatype Run = Run(o: Options, front: map<Part, seq<Face>>, slim: Result<bool>, jobs: Table)

  /** The face-loop table of a render's inputs. */
  ghost function Jobs(g: Gen): (t: Table)
    reads Sources(g)
    ensures forall p: Part, face: Face :: t[(p, face)] == Job(g, p, face)
  {
    imap k: (Part, Face) | true :: Job(g, k.0, k.1)
  }

  ghost function RunOf(g: Gen): Run
    reads Sources(g)
  {
    Run(g.o, g.front, g.slim, Jobs(g))
  }

  /** The run of a render's inputs, stated without naming the table: each
      face loop's entry is that loop's quads. */
  ghost predicate Feeds(r: Run, g: Gen)
    reads Sources(g)
  {
    r.o == g.o && r.front == g.front && r.slim == g.slim &&
    forall p: Part, face: Face {:trigger Job(g, p, face)} :: r.jobs[(p, face)] == Job(g, p, face)
  }

  /** The run of a render's inputs is the only one they feed. */
  lemma FeedsExactly(r: Run, g: Gen)
    ensures Feeds(r, g) <==> r == RunOf(g)
  {
    if Feeds(r, g) {
      forall k: (Part, Face)
        ensures r.jobs[k] == RunOf(g).jobs[k]
      {
        assert r.jobs[(k.0, k.1)] == Job(g, k.0, k.1);
      }
      assert r.jobs == RunOf(g).jobs;
    }
    if r == RunOf(g) {
      forall p: Part, face: Face
        ensures r.jobs[(p, face)] == Job(g, p, face)
      {
      }
    }
  }

  /** Whether face loop (p, face) runs. */
  predicate Runs(r: Run, p: Part, face: Face)
  {
    Generated(p, r.o) && Gated(p, face, r.front, r.o.legacy)
  }

  /** Face loop (p, face) raises when it runs and a texel or key is missing. */
  function FaceStep(r: Run, p: Part, face: Face): Outcome
  {
    if Runs(r, p, face) && r.jobs[(p, face)].Err? then Fail(r.jobs[(p, face)].error) else Pass
  }

  /** The first k face loops of a part, in `LoopFaces` order. */
  function FacesOutcome(r: Run, p: Part, k: nat): Outcome
    requires k <= |LoopFaces|
  {
    if k == 0 then Pass
    else if FacesOutcome(r, p, k - 1).Fail? then FacesOutcome(r, p, k - 1)
    else FaceStep(r, p, LoopFaces[k - 1])
  }

  /** Whether the slim test raises at block n. */
  predicate SlimFails(r: Run, n: nat)
  {
    n == SlimAt && !r.o.headOnly && !r.o.legacy && r.slim.Err?
  }

  /** Block n: the slim test where it sits, then the part's face loops. */
  function PartOutcome(r: Run, n: nat): Outcome
    requires n < |GenParts|
  {
    if SlimFails(r, n) then Fail(r.slim.error)
    else FacesOutcome(r, GenParts[n], |LoopFaces|)
  }

  /** The first n blocks: the first exception raised, if any. */
  function GenOutcome(r: Run, n: nat): Outcome
    requires n <= |GenParts|
  {
    if n == 0 then Pass
    else if GenOutcome(r, n - 1).Fail? then GenOutcome(r, n - 1)
    else PartOutcome(r, n - 1)
  }

  /** Once a block has raised, `generate_polygons` raises that exception. */
  lemma {:induction false} GenFailStays(r: Run, j: nat, k: nat)
    requires j <= k <= |GenParts| && GenOutcome(r, j).Fail?
    ensures GenOutcome(r, k) == GenOutcome(r, j)
  {
    if j < k {
      GenFailStays(r, j, k - 1);
    }
  }

  /** Every part has exactly one block. */
  lemma GenPartsListed()
    ensures Distinct(GenParts)
    ensures forall p: Part :: p in GenParts
  {
    forall p: Part
      ensures p in GenParts
    {
      match p {
        case Head => assert GenParts[0] == p;
        case Helmet => assert GenParts[1] == p;
        case Torso => assert GenParts[2] == p;
        case TorsoLayer => assert GenParts[3] == p;
        case Cape => assert GenParts[4] == p;
        case RArm => assert GenParts[5] == p;
        case RArmLayer => assert GenParts[6] == p;
        case LArm => assert GenParts[7] == p;
        case LArmLayer => assert GenParts[8] == p;
        case RLeg => assert GenParts[9] == p;
        case RLegLayer => assert GenParts[10] == p;
        case LLeg => assert GenParts[11] == p;
        case LLegLayer => assert GenParts[12] == p;
      }
    }
  }

  /** A part's face loops pass exactly when every loop that runs yields its
      quads. */
  lemma {:induction false} FacesOutcomePass(r: Run, p: Part, k: nat)
    requires k <= |LoopFaces|
    ensures FacesOutcome(r, p, k).Pass? <==>
      forall j | 0 <= j < k :: Runs(r, p, LoopFaces[j]) ==> r.jobs[(p, LoopFaces[j])].Ok?
  {
    if k > 0 {
      FacesOutcomePass(r, p, k - 1);
    }
  }

  /** `generate_polygons` returns exactly when the slim test does not raise
      where it runs and every face loop that runs yields its quads. */
  lemma {:induction false} GenOutcomePass(r: Run, n: nat)
    requires n <= |GenParts|
    ensures GenOutcome(r, n).Pass? <==>
      forall m | 0 <= m < n :: !SlimFails(r, m) &&
        forall j | 0 <= j < |LoopFaces| :: Runs(r, GenParts[m], LoopFaces[j]) ==> r.jobs[(GenParts[m], LoopFaces[j])].Ok?
  {
    if n > 0 {
      GenOutcomePass(r, n - 1);
      FacesOutcomePass(r, GenParts[n - 1], |LoopFaces|);
    }
  }

  /** A skin of at least 64 x 64 texels per `hd_ratio`, with a cape image of
      at least 22 x 17 where the cape is built, never makes
      `generate_polygons` raise: every texel is inside its image, every key
      is in the part's lattice, and the slim test finds its pixel. */
  lemma WellSizedPasses(g: Gen)
    requires g.h >= 1 && LargeEnough(g.skin, Head, g.h)
    requires g.o.displayCape && !g.o.legacy ==> g.cape.Some? && LargeEnough(g.cape.value, Cape, g.h)
    requires g.slim.Err? ==> g.o.headOnly || g.o.legacy
    ensures GenOutcome(RunOf(g), |GenParts|) == Pass
  {
    var r := RunOf(g);
    forall m, j | 0 <= m < |GenParts| && 0 <= j < |LoopFaces| && Runs(r, GenParts[m], LoopFaces[j])
      ensures r.jobs[(GenParts[m], LoopFaces[j])].Ok?
    {
      LoopQuadsOk(ImageFor(g, GenParts[m]), GenParts[m], LoopFaces[j], g.h, Shift(g));
    }
    GenOutcomePass(r, |GenParts|);
  }

  /** With only the head drawn, only the head's and the helmet's loops run;
      the legacy renderer and a render without a cape never run the cape's. */
  lemma OnlyHeadWhenHeadOnly(r: Run, p: Part, face: Face)
    requires Runs(r, p, face)
    ensures r.o.headOnly ==> p == Head || p == Helmet
    ensures p == Cape ==> r.o.displayCape && !r.o.legacy
    ensures p == Helmet ==> r.o.displayHair
  {
  }
}
