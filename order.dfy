/** `get_display_order` of both renderers: the painter's order in which
    `display_image` draws the pieces. Each entry names one part and the faces
    of it to draw; the second layer of a part is drawn around its base part,
    its hidden faces before and its visible faces after. */
module Order {
  import opened Body

  /** One `{piece: faces}` dictionary of the list. */
  type Entry = (Part, seq<Face>)

  /** The outer part drawn around a base part: the helmet around the head. */
  function LayerOf(p: Part): Part
  {
    match p
    case Head => Helmet
    case Torso => TorsoLayer
    case RArm => RArmLayer
    case LArm => LArmLayer
    case RLeg => RLegLayer
    case LLeg => LLegLayer
    case _ => p
  }

  /** The six parts that carry a layer. */
  predicate Layered(p: Part)
  {
    p == Head || p == Torso || p == RArm || p == LArm || p == RLeg || p == LLeg
  }

  /** `{P_layer: back_faces}, {P: front(P)}, {P_layer: front(P)}`; the helmet
      uses the head's front faces. */
  function Triple(p: Part, backFaces: seq<Face>, front: map<Part, seq<Face>>): seq<Entry>
    requires p in front
  {
    [(LayerOf(p), backFaces), (p, front[p]), (LayerOf(p), front[p])]
  }

  /** The triples of the parts given, in order. */
  function Triples(ps: seq<Part>, backFaces: seq<Face>, front: map<Part, seq<Face>>): (r: seq<Entry>)
    requires forall p | p in ps :: p in front
    ensures |r| == 3 * |ps|
  {
    if ps == [] then [] else Triple(ps[0], backFaces, front) + Triples(ps[1..], backFaces, front)
  }

  /** The limbs and torso when the top is visible: the far leg, near leg, far
      arm, torso and near arm, where "far" is the left side when the right
      face is visible. */
  function TopLimbs(right: bool): seq<Part>
  {
    if right then [LLeg, RLeg, LArm, Torso, RArm] else [RLeg, LLeg, RArm, Torso, LArm]
  }

  /** The limbs and torso otherwise: arms and torso first, then legs. */
  function SideLimbs(right: bool): seq<Part>
  {
    if right then [LArm, Torso, RArm, LLeg, RLeg] else [RArm, Torso, LArm, RLeg, LLeg]
  }

  /** The parts whose front faces the order reads. */
  predicate Knows(front: map<Part, seq<Face>>, legacy: bool)
  {
    Head in front && Torso in front && RArm in front && LArm in front &&
    RLeg in front && LLeg in front && (!legacy ==> Cape in front)
  }

  /** The cape entry when `shown`: never in the legacy renderer. */
  function CapeIf(shown: bool, front: map<Part, seq<Face>>, legacy: bool): (r: seq<Entry>)
    requires !legacy ==> Cape in front
    ensures r == [] || (!legacy && r == [(Cape, front[Cape])])
  {
    if shown && !legacy then [(Cape, front[Cape])] else []
  }

  /** The limbs and torso, ordered by the side faces in view. */
  function Limbs(frontFaces: seq<Face>, backFaces: seq<Face>, front: map<Part, seq<Face>>): (r: seq<Entry>)
    requires Knows(front, true)
    ensures |r| == 15
  {
    var right := Right in frontFaces;
    Triples(if Top in frontFaces then TopLimbs(right) else SideLimbs(right), backFaces, front)
  }

  /** The two layouts: with the top in view the head closes the list, after
      the limbs and the back cape; otherwise it follows the front cape. */
  function Assemble(top: bool, pre: seq<Entry>, head: seq<Entry>, limbs: seq<Entry>, post: seq<Entry>): seq<Entry>
  {
    if top then pre + limbs + post + head else pre + head + limbs + post
  }

  /** `get_display_order`; `legacy` selects the copy in MinePI/skin_render.py,
      which has no cape entries. */
  function DisplayOrder(frontFaces: seq<Face>, backFaces: seq<Face>, front: map<Part, seq<Face>>, legacy: bool): seq<Entry>
    requires Knows(front, legacy)
  {
    Assemble(Top in frontFaces, CapeIf(Front in frontFaces, front, legacy), Triple(Head, backFaces, front),
             Limbs(frontFaces, backFaces, front), CapeIf(Back in frontFaces, front, legacy))
  }

  /** Exactly one of the back and front faces is visible, as for every face
      set the face classification produces. */
  predicate OneOfBackFront(frontFaces: seq<Face>)
  {
    (Front in frontFaces) != (Back in frontFaces)
  }

  /** The list has 19 entries (18 in the legacy renderer, which has no cape):
      six triples and one cape entry. */
  lemma DisplayOrderLength(frontFaces: seq<Face>, backFaces: seq<Face>, front: map<Part, seq<Face>>, legacy: bool)
    requires Knows(front, legacy) && OneOfBackFront(frontFaces)
    ensures |DisplayOrder(frontFaces, backFaces, front, legacy)| == if legacy then 18 else 19
  {
  }

  /** The cape is drawn first, before everything, when its front faces us,
      and otherwise once, after the limbs; it appears nowhere else. */
  lemma CapePlacement(frontFaces: seq<Face>, backFaces: seq<Face>, front: map<Part, seq<Face>>, i: nat)
    requires Knows(front, false) && OneOfBackFront(frontFaces)
    requires i < |DisplayOrder(frontFaces, backFaces, front, false)|
    ensures var r := DisplayOrder(frontFaces, backFaces, front, false);
      var last := if Top in frontFaces then |r| - 4 else |r| - 1;
      r[i].0 == Cape <==> (i == 0 && Front in frontFaces) || (i == last && Back in frontFaces)
  {
    LimbsNoCape(frontFaces, backFaces, front);
    var head := Triple(Head, backFaces, front);
    var limbs := Limbs(frontFaces, backFaces, front);
    assert |head| == 3;
    var pre := CapeIf(Front in frontFaces, front, false);
    var post := CapeIf(Back in frontFaces, front, false);
    var r := DisplayOrder(frontFaces, backFaces, front, false);
    assert r == Assemble(Top in frontFaces, pre, head, limbs, post);
    assert |r| == |pre| + 18 + |post|;
    assert Back in frontFaces ==> |post| == 1;
    CapeInAssemble(Top in frontFaces, pre, head, limbs, post, (Cape, front[Cape]), i);
  }

  /** A cape entry draws the cape's own visible faces. */
  lemma CapeEntry(frontFaces: seq<Face>, backFaces: seq<Face>, front: map<Part, seq<Face>>, i: nat)
    requires Knows(front, false)
    requires i < |DisplayOrder(frontFaces, backFaces, front, false)|
    ensures var r := DisplayOrder(frontFaces, backFaces, front, false);
      r[i].0 == Cape ==> r[i] == (Cape, front[Cape])
  {
    LimbsNoCape(frontFaces, backFaces, front);
    var head := Triple(Head, backFaces, front);
    var limbs := Limbs(frontFaces, backFaces, front);
    var pre := CapeIf(Front in frontFaces, front, false);
    var post := CapeIf(Back in frontFaces, front, false);
    CapeInAssemble(Top in frontFaces, pre, head, limbs, post, (Cape, front[Cape]), i);
  }

  /** The limbs and torso hold no cape entry. */
  lemma LimbsNoCape(frontFaces: seq<Face>, backFaces: seq<Face>, front: map<Part, seq<Face>>)
    requires Knows(front, true)
    ensures forall e | e in Limbs(frontFaces, backFaces, front) :: e.0 != Cape
  {
    var right := Right in frontFaces;
    TriplesParts(if Top in frontFaces then TopLimbs(right) else SideLimbs(right), backFaces, front);
  }

  /** Where a cape entry can sit in either layout. */
  lemma CapeInAssemble(top: bool, pre: seq<Entry>, head: seq<Entry>, limbs: seq<Entry>, post: seq<Entry>, e: Entry, i: int)
    requires 0 <= i < |Assemble(top, pre, head, limbs, post)| && e.0 == Cape
    requires pre == [] || pre == [e]
    requires post == [] || post == [e]
    requires forall x | x in head :: x.0 != Cape
    requires forall x | x in limbs :: x.0 != Cape
    ensures var r := Assemble(top, pre, head, limbs, post);
      var last := if top then |pre| + |limbs| else |r| - 1;
      (r[i].0 == Cape <==> (i == 0 && pre != []) || (i == last && post != [])) &&
      (r[i].0 == Cape ==> r[i] == e)
  {
    if top {
      CapeAt(pre, limbs, post, head, e, i);
    } else {
      assert pre + head + limbs + post == pre + (head + limbs) + post + [];
      CapeAt(pre, head + limbs, post, [], e, i);
    }
  }

  /** Where a cape entry can sit in a list made of an optional cape, cape-free
      entries, an optional cape and cape-free entries. */
  lemma CapeAt(a: seq<Entry>, b: seq<Entry>, c: seq<Entry>, d: seq<Entry>, e: Entry, i: int)
    requires 0 <= i < |a + b + c + d| && e.0 == Cape
    requires a == [] || a == [e]
    requires c == [] || c == [e]
    requires forall x | x in b :: x.0 != Cape
    requires forall x | x in d :: x.0 != Cape
    ensures var r := a + b + c + d;
      (r[i].0 == Cape <==> (i == 0 && a != []) || (i == |a| + |b| && c != [])) &&
      (r[i].0 == Cape ==> r[i] == e)
  {
    ConcatAt(a, b, c, d, i);
  }

  /** Indexing into four concatenated lists. */
  lemma ConcatAt(a: seq<Entry>, b: seq<Entry>, c: seq<Entry>, d: seq<Entry>, i: int)
    requires 0 <= i < |a + b + c + d|
    ensures (a + b + c + d)[i] ==
      if i < |a| then a[i]
      else if i < |a| + |b| then b[i - |a|]
      else if i < |a| + |b| + |c| then c[i - |a| - |b|]
      else d[i - |a| - |b| - |c|]
  {
  }

  /** The triples of the limbs and torso hold no cape entry. */
  lemma {:induction false} TriplesParts(ps: seq<Part>, backFaces: seq<Face>, front: map<Part, seq<Face>>)
    requires forall p | p in ps :: p in front && Layered(p)
    ensures forall e | e in Triples(ps, backFaces, front) :: e.0 != Cape
  {
    if ps != [] {
      TriplesParts(ps[1..], backFaces, front);
    }
  }

  /** The head triple closes the list when the top is visible, and opens it,
      after a cape drawn first, otherwise. */
  lemma HeadPlacement(frontFaces: seq<Face>, backFaces: seq<Face>, front: map<Part, seq<Face>>, legacy: bool)
    requires Knows(front, legacy) && OneOfBackFront(frontFaces)
    ensures var r := DisplayOrder(frontFaces, backFaces, front, legacy);
      var c := if !legacy && Front in frontFaces then 1 else 0;
      (Top in frontFaces ==> r[|r| - 3..] == Triple(Head, backFaces, front)) &&
      (Top !in frontFaces ==> r[c..c + 3] == Triple(Head, backFaces, front))
  {
  }

  /** Every base part in the list is drawn between its layer's hidden faces
      and its layer's visible faces. */
  predicate Framed(r: seq<Entry>, backFaces: seq<Face>, front: map<Part, seq<Face>>)
  {
    Knows(front, true) &&
    forall i | 0 <= i < |r| :: Layered(r[i].0) ==>
      0 < i < |r| - 1 && r[i] == (r[i].0, front[r[i].0]) &&
      r[i - 1] == (LayerOf(r[i].0), backFaces) && r[i + 1] == (LayerOf(r[i].0), front[r[i].0])
  }

  lemma TripleFramed(p: Part, backFaces: seq<Face>, front: map<Part, seq<Face>>)
    requires Layered(p) && Knows(front, true)
    ensures Framed(Triple(p, backFaces, front), backFaces, front)
  {
  }

  lemma {:induction false} TriplesFramed(ps: seq<Part>, backFaces: seq<Face>, front: map<Part, seq<Face>>)
    requires forall p | p in ps :: p in front && Layered(p)
    requires Knows(front, true)
    ensures Framed(Triples(ps, backFaces, front), backFaces, front)
  {
    if ps != [] {
      TripleFramed(ps[0], backFaces, front);
      TriplesFramed(ps[1..], backFaces, front);
      FramedAppend(Triple(ps[0], backFaces, front), Triples(ps[1..], backFaces, front), backFaces, front);
    }
  }

  lemma FramedAppend(a: seq<Entry>, b: seq<Entry>, backFaces: seq<Face>, front: map<Part, seq<Face>>)
    requires Framed(a, backFaces, front) && Framed(b, backFaces, front)
    ensures Framed(a + b, backFaces, front)
  {
    var r := a + b;
    forall i | 0 <= i < |r| && Layered(r[i].0)
      ensures 0 < i < |r| - 1 && r[i] == (r[i].0, front[r[i].0]) &&
        r[i - 1] == (LayerOf(r[i].0), backFaces) && r[i + 1] == (LayerOf(r[i].0), front[r[i].0])
    {
      if i < |a| {
        assert r[i - 1] == a[i - 1] && r[i + 1] == a[i + 1];
      } else {
        assert r[i - 1] == b[i - |a| - 1] && r[i + 1] == b[i - |a| + 1];
      }
    }
  }

  /** A list without base parts is trivially framed. */
  lemma FramedNoBase(a: seq<Entry>, backFaces: seq<Face>, front: map<Part, seq<Face>>)
    requires Knows(front, true)
    requires forall x | x in a :: !Layered(x.0)
    ensures Framed(a, backFaces, front)
  {
    assert forall i | 0 <= i < |a| :: a[i] in a;
  }

  /** In every branch of the order, every base part is drawn between its
      layer's hidden faces and its layer's visible faces. */
  lemma BaseFramedByLayer(frontFaces: seq<Face>, backFaces: seq<Face>, front: map<Part, seq<Face>>, legacy: bool)
    requires Knows(front, legacy)
    ensures Framed(DisplayOrder(frontFaces, backFaces, front, legacy), backFaces, front)
  {
    var pre := CapeIf(Front in frontFaces, front, legacy);
    var post := CapeIf(Back in frontFaces, front, legacy);
    var head := Triple(Head, backFaces, front);
    var limbs := Limbs(frontFaces, backFaces, front);
    TripleFramed(Head, backFaces, front);
    LimbsFramed(frontFaces, backFaces, front);
    FramedNoBase(pre, backFaces, front);
    FramedNoBase(post, backFaces, front);
    if Top in frontFaces {
      FramedFour(pre, limbs, post, head, backFaces, front);
    } else {
      FramedFour(pre, head, limbs, post, backFaces, front);
    }
  }

  lemma LimbsFramed(frontFaces: seq<Face>, backFaces: seq<Face>, front: map<Part, seq<Face>>)
    requires Knows(front, true)
    ensures Framed(Limbs(frontFaces, backFaces, front), backFaces, front)
  {
    var right := Right in frontFaces;
    TriplesFramed(if Top in frontFaces then TopLimbs(right) else SideLimbs(right), backFaces, front);
  }

  lemma FramedFour(a: seq<Entry>, b: seq<Entry>, c: seq<Entry>, d: seq<Entry>, backFaces: seq<Face>, front: map<Part, seq<Face>>)
    requires Framed(a, backFaces, front) && Framed(b, backFaces, front)
    requires Framed(c, backFaces, front) && Framed(d, backFaces, front)
    ensures Framed(a + b + c + d, backFaces, front)
  {
    FramedAppend(a, b, backFaces, front);
    FramedAppend(a + b, c, backFaces, front);
    FramedAppend(a + b + c, d, backFaces, front);
  }
}
