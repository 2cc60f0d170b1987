/** The pose of a render request: `calculate_angles` turns the request's
    angles into the view rotation and one rotation per part, and
    `member_rotation` turns each part about its joint. The angles arrive as
    exact cosine and sine values; `radians`, `sin` and `cos` are not part of
    this model. */
module Pose {
  import opened Common
  import opened Body
  import opened Mesh

  /** The cosine and sine of one angle of the request. */
  datatype CosSin = CosSin(cos: real, sin: real)

  /** The request's angles: `vr` and `hr` turn the view, `hrh` the head,
      `vrll`, `vrrl`, `vrla` and `vrra` swing the legs and arms, `vrc` the
      cape. */
  datatype Turns = Turns(vr: CosSin, hr: CosSin, hrh: CosSin, vrll: CosSin, vrrl: CosSin,
                         vrla: CosSin, vrra: CosSin, vrc: CosSin)

  /** The angle zero. */
  const Zero := CosSin(1.0, 0.0)

  /** `cos_a`, `sin_a`, `cos_b`, `sin_b` of the view. */
  function ViewOf(t: Turns): Angles
  {
    Angles(t.vr.cos, t.vr.sin, t.hr.cos, t.hr.sin)
  }

  /** An arm or leg swings about the x axis only. */
  function Swing(a: CosSin): Angles
  {
    Angles(a.cos, a.sin, 1.0, 0.0)
  }

  /** `body_angles[p]`: the head and helmet turn about the vertical axis by
      `hrh`, the torso and its layer stay put, each limb and its layer swing
      by the limb's angle, and the cape swings back by `-vrc`. */
  function PartAngles(t: Turns, p: Part): Angles
  {
    match p
    case Head => Angles(1.0, 0.0, t.hrh.cos, t.hrh.sin)
    case Helmet => Angles(1.0, 0.0, t.hrh.cos, t.hrh.sin)
    case Torso => NoTurn
    case TorsoLayer => NoTurn
    case RArm => Swing(t.vrra)
    case RArmLayer => Swing(t.vrra)
    case LArm => Swing(t.vrla)
    case LArmLayer => Swing(t.vrla)
    case RLeg => Swing(t.vrrl)
    case RLegLayer => Swing(t.vrrl)
    case LLeg => Swing(t.vrll)
    case LLegLayer => Swing(t.vrll)
    case Cape => Angles(t.vrc.cos, -t.vrc.sin, 1.0, 0.0)
  }

  /** `body_angles` after `calculate_angles`: every part, except the cape in
      the legacy renderer. */
  function BodyAngles(t: Turns, legacy: bool): (r: map<Part, Angles>)
    ensures forall p: Part :: p in r <==> !(legacy && p == Cape)
    ensures forall p | p in r :: r[p] == PartAngles(t, p)
  {
    PartsListed();
    map p: Part | p in PolygonParts && !(legacy && p == Cape) :: PartAngles(t, p)
  }

  /** `polygons` has a dictionary for every part. */
  lemma PartsListed()
    ensures forall p: Part :: p in PolygonParts
  {
    forall p: Part
      ensures p in PolygonParts
    {
      match p {
        case Helmet => assert PolygonParts[0] == p;
        case Head => assert PolygonParts[1] == p;
        case Torso => assert PolygonParts[2] == p;
        case TorsoLayer => assert PolygonParts[3] == p;
        case RArm => assert PolygonParts[4] == p;
        case RArmLayer => assert PolygonParts[5] == p;
        case LArm => assert PolygonParts[6] == p;
        case LArmLayer => assert PolygonParts[7] == p;
        case RLeg => assert PolygonParts[8] == p;
        case RLegLayer => assert PolygonParts[9] == p;
        case LLeg => assert PolygonParts[10] == p;
        case LLegLayer => assert PolygonParts[11] == p;
        case Cape => assert PolygonParts[12] == p;
      }
    }
  }

  /** The joint `member_rotation` turns a part about: the neck for the head
      and helmet, the top of the torso for the cape, the shoulders and the
      hips. The torso and its layer are not turned. */
  function Pivot(p: Part, h: int): (r: Option<Vec3>)
    ensures r.None? <==> p == Torso || p == TorsoLayer
  {
    var r := h as real;
    match p
    case Head => Some(Vec3(4.0 * r, 8.0 * r, 2.0 * r))
    case Helmet => Some(Vec3(4.0 * r, 8.0 * r, 2.0 * r))
    case Cape => Some(Vec3(4.0 * r, 8.0 * r, 0.0))
    case RArm => Some(Vec3(-2.0 * r, 10.0 * r, 2.0 * r))
    case RArmLayer => Some(Vec3(-2.0 * r, 10.0 * r, 2.0 * r))
    case LArm => Some(Vec3(10.0 * r, 10.0 * r, 2.0 * r))
    case LArmLayer => Some(Vec3(10.0 * r, 10.0 * r, 2.0 * r))
    case RLeg => Some(Vec3(2.0 * r, 22.0 * r, 2.0 * r))
    case RLegLayer => Some(Vec3(2.0 * r, 22.0 * r, 2.0 * r))
    case LLeg => Some(Vec3(6.0 * r, 22.0 * r, 2.0 * r))
    case LLegLayer => Some(Vec3(6.0 * r, 22.0 * r, 2.0 * r))
    case Torso => None
    case TorsoLayer => None
  }

  /** The `body_angles` key `member_rotation` reads for a part: the helmet
      reads the head's. */
  function AngleKey(p: Part): Part
  {
    if p == Helmet then Head else p
  }

  /** Whether `member_rotation` turns the part's polygons: the head always,
      the helmet with hair shown, the rest unless only the head is drawn;
      the torso never, and the legacy renderer has no cape. */
  predicate Rotates(p: Part, headOnly: bool, displayHair: bool, legacy: bool)
  {
    match p
    case Head => true
    case Helmet => displayHair
    case Torso => false
    case TorsoLayer => false
    case Cape => !headOnly && !legacy
    case _ => !headOnly
  }

  /** A second layer and the helmet turn exactly like their base part: same
      joint, same angles. */
  lemma LayersTurnWithBase(t: Turns, p: Part, h: int)
    ensures Pivot(p, h) == Pivot(BasePart(p), h)
    ensures PartAngles(t, AngleKey(p)) == PartAngles(t, BasePart(p))
    ensures PartAngles(t, p) == PartAngles(t, BasePart(p))
  {
  }

  /** A part that turns has a joint, and the angles it reads exist. */
  lemma RotatedPartsHaveJoints(t: Turns, p: Part, h: int, headOnly: bool, displayHair: bool, legacy: bool)
    requires Rotates(p, headOnly, displayHair, legacy)
    ensures Pivot(p, h).Some?
    ensures AngleKey(p) in BodyAngles(t, legacy)
  {
  }

  /** With every angle of the request zero, no part is turned at all and the
      view is the identity. */
  lemma RestPose(t: Turns, p: Part, v: Vec3, pivot: Vec3)
    requires t == Turns(Zero, Zero, Zero, Zero, Zero, Zero, Zero, Zero)
    ensures ViewOf(t) == NoTurn && PartAngles(t, p) == NoTurn
    ensures RotateAbout(v, pivot, PartAngles(t, p)) == v
  {
    NoTurnIsIdentity(v, pivot);
  }
}
