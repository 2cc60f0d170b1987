/** The vocabulary both renderers share: the body parts, the six faces of a
    cuboid, and the fixed orders in which the renderers walk them. */
module Body {
  datatype Part =
    | Head | Helmet | Torso | TorsoLayer | RArm | RArmLayer
    | LArm | LArmLayer | RLeg | RLegLayer | LLeg | LLegLayer | Cape

  datatype Face = Back | Right | Top | Front | Left | Bottom

  /** `all_faces`. */
  const AllFaces: seq<Face> := [Back, Right, Top, Front, Left, Bottom]

  /** The order of the six face loops of every part in `generate_polygons`. */
  const LoopFaces: seq<Face> := [Back, Front, Right, Left, Top, Bottom]

  /** The keys of `visible_faces` in the current renderer, in order. */
  const VisibleParts: seq<Part> :=
    [Head, Torso, TorsoLayer, RArm, RArmLayer, LArm, LArmLayer, RLeg, RLegLayer, LLeg, LLegLayer, Cape]

  /** The keys of `visible_faces` in the legacy renderer: no cape. */
  const LegacyVisibleParts: seq<Part> :=
    [Head, Torso, TorsoLayer, RArm, RArmLayer, LArm, LArmLayer, RLeg, RLegLayer, LLeg, LLegLayer]

  /** No element is listed twice. */
  predicate Distinct<T(==)>(s: seq<T>)
  {
    forall i, j | 0 <= i < j < |s| :: s[i] != s[j]
  }

  /** Each part has one entry in `visible_faces`. */
  lemma VisiblePartsDistinct()
    ensures Distinct(VisibleParts) && Distinct(LegacyVisibleParts)
  {
  }

  /** The keys of `polygons` and of each part's face dictionary, in order. */
  const PolygonParts: seq<Part> :=
    [Helmet, Head, Torso, TorsoLayer, RArm, RArmLayer, LArm, LArmLayer, RLeg, RLegLayer, LLeg, LLegLayer, Cape]
  const PolygonFaces: seq<Face> := [Front, Back, Top, Bottom, Right, Left]

  /** The part whose angles and pivot a part shares: the helmet follows the
      head and every second-layer part its base part. */
  function BasePart(p: Part): Part
  {
    match p
    case Helmet => Head
    case TorsoLayer => Torso
    case RArmLayer => RArm
    case LArmLayer => LArm
    case RLegLayer => RLeg
    case LLegLayer => LLeg
    case _ => p
  }

  /** The face on the other side of the cuboid. */
  function Opposite(f: Face): Face
  {
    match f
    case Back => Front
    case Front => Back
    case Right => Left
    case Left => Right
    case Top => Bottom
    case Bottom => Top
  }
}
