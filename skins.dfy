/** The `Skin` class of minepi/skin.py: the 64x32 to 64x64 upgrade of old
    skins, slim detection, the cape slot, and the ';' framing of the saved form. */
module Skins {
  import opened Common
  import opened Images

  /** One pass of the upgrade loop: the six mirrored boxes of the right leg
      (f1 = 0, f2 = 0) or of the right arm (f1 = 40, f2 = 16). */
  function UpgradeRound(f1: int, f2: int): seq<MirrorPaste>
  {
    [ MirrorPaste(4 + f1, 16, 8 + f1, 20, 20 + f2, 48),
      MirrorPaste(8 + f1, 16, 12 + f1, 20, 24 + f2, 48),
      MirrorPaste(8 + f1, 20, 12 + f1, 32, 16 + f2, 52),
      MirrorPaste(12 + f1, 20, 16 + f1, 32, 20 + f2, 52),
      MirrorPaste(4 + f1, 20, 8 + f1, 32, 24 + f2, 52),
      MirrorPaste(0 + f1, 20, 4 + f1, 32, 28 + f2, 52) ]
  }

  /** The boxes pasted after the first `i` passes of the loop. */
  function UpgradeRounds(i: nat): seq<MirrorPaste>
  {
    if i == 0 then [] else if i == 1 then UpgradeRound(0, 0) else UpgradeRound(0, 0) + UpgradeRound(40, 16)
  }

  /** All twelve boxes, in the order the loop pastes them. */
  const SkinUpgrade: seq<MirrorPaste> := UpgradeRounds(2)

  /** The upgrade of a 32-row skin: a 64x64 transparent canvas, the old skin
      pasted at (0, 0), then the twelve mirrored boxes. */
  method UpgradeSkin(raw: array2<Rgba>) returns (canvas: array2<Rgba>)
    ensures fresh(canvas)
    ensures canvas.Length0 == 64 && canvas.Length1 == 64
    ensures Shows(canvas, raw, SkinUpgrade)
  {
    canvas := NewCanvas(raw, 64, 64);
    for i := 0 to 2
      invariant fresh(canvas) && canvas.Length0 == 64 && canvas.Length1 == 64
      invariant Shows(canvas, raw, UpgradeRounds(i))
    {
      var f1 := if i != 0 then 40 else 0;
      var f2 := if i != 0 then 16 else 0;
      ghost var ps := UpgradeRounds(i);
      var m := MirrorPaste(4 + f1, 16, 8 + f1, 20, 20 + f2, 48);
      ApplyPaste(canvas, raw, ps, m);
      ps := ps + [m];
      m := MirrorPaste(8 + f1, 16, 12 + f1, 20, 24 + f2, 48);
      ApplyPaste(canvas, raw, ps, m);
      ps := ps + [m];
      m := MirrorPaste(8 + f1, 20, 12 + f1, 32, 16 + f2, 52);
      ApplyPaste(canvas, raw, ps, m);
      ps := ps + [m];
      m := MirrorPaste(12 + f1, 20, 16 + f1, 32, 20 + f2, 52);
      ApplyPaste(canvas, raw, ps, m);
      ps := ps + [m];
      m := MirrorPaste(4 + f1, 20, 8 + f1, 32, 24 + f2, 52);
      ApplyPaste(canvas, raw, ps, m);
      ps := ps + [m];
      m := MirrorPaste(0 + f1, 20, 4 + f1, 32, 28 + f2, 52);
      ApplyPaste(canvas, raw, ps, m);
      ps := ps + [m];
      assert ps == UpgradeRounds(i + 1);
    }
  }

  /** The six boxes of one pass never overlap and lie in columns [16 + f2, 32 + f2). */
  lemma RoundDisjoint(f1: int, f2: int)
    ensures Disjoint(UpgradeRound(f1, f2))
    ensures forall m | m in UpgradeRound(f1, f2) ::
      m.py >= 48 && m.x1 - m.x0 == 4 && 16 + f2 <= m.px && m.px + 4 <= 32 + f2
  {
    var r := UpgradeRound(f1, f2);
    forall i, j | 0 <= i < j < 6
      ensures Apart(r[i], r[j])
    {
      if i < 2 {
        if j >= 2 {
          assert r[i].py + 4 <= r[j].py;
        }
      }
    }
  }

  /** Concatenating two disjoint lists whose boxes are pairwise apart. */
  lemma DisjointAppend(a: seq<MirrorPaste>, b: seq<MirrorPaste>)
    requires Disjoint(a) && Disjoint(b)
    requires forall m, n | m in a && n in b :: Apart(m, n)
    ensures Disjoint(a + b)
  {
    var ab := a + b;
    forall i, j | 0 <= i < j < |ab|
      ensures Apart(ab[i], ab[j])
    {
      if j < |a| {
        assert ab[i] == a[i] && ab[j] == a[j];
      } else if i >= |a| {
        assert ab[i] == b[i - |a|] && ab[j] == b[j - |a|];
      } else {
        assert ab[i] in a && ab[j] in b;
      }
    }
  }

  /** The twelve boxes never overlap, so each shows its own mirrored crop. */
  lemma SkinUpgradeDisjoint()
    ensures |SkinUpgrade| == 12
    ensures Disjoint(SkinUpgrade)
    ensures forall m | m in SkinUpgrade :: m.py >= 48 && m.x1 - m.x0 == 4
  {
    RoundDisjoint(0, 0);
    RoundDisjoint(40, 16);
    DisjointAppend(UpgradeRound(0, 0), UpgradeRound(40, 16));
  }

  /** Rows 0-31 of the upgraded skin are the old skin. */
  lemma UpgradeKeepsTop(raw: array2<Rgba>, x: int, y: int)
    requires 0 <= y < 32
    ensures Upgraded(raw, SkinUpgrade, x, y) == PixelOr(raw, x, y)
  {
    SkinUpgradeDisjoint();
    UpgradedCases(raw, SkinUpgrade, x, y);
  }

  /** A pixel inside box k shows the horizontally mirrored source box. */
  lemma UpgradeMirrorsBox(raw: array2<Rgba>, k: nat, x: int, y: int)
    requires k < 12 && Covers(SkinUpgrade[k], x, y)
    ensures Upgraded(raw, SkinUpgrade, x, y) ==
      PixelOr(raw, SkinUpgrade[k].x1 - 1 - (x - SkinUpgrade[k].px), SkinUpgrade[k].y0 + (y - SkinUpgrade[k].py))
  {
    SkinUpgradeDisjoint();
    UpgradedCases(raw, SkinUpgrade, x, y);
  }

  /** Below row 31, a pixel outside the twelve boxes is transparent. */
  lemma UpgradeRestTransparent(raw: array2<Rgba>, x: int, y: int)
    requires raw.Length1 == 32 && 32 <= y
    requires forall m | m in SkinUpgrade :: !Covers(m, x, y)
    ensures Upgraded(raw, SkinUpgrade, x, y) == Transparent
  {
    UpgradedCases(raw, SkinUpgrade, x, y);
  }

  /** The saved form of a skin: the base64 of its PNG and, when a cape is held,
      the base64 of the cape's PNG after a ';'. */
  function EncodeFrame(skin: string, cape: Option<string>): (r: string)
    ensures cape.Some? && cape.value != [] ==> |r| == |skin| + 1 + |cape.value| && r[|skin|] == ';'
    ensures !(cape.Some? && cape.value != []) ==> r == skin
  {
    if cape.Some? && cape.value != [] then skin + ";" + cape.value else skin
  }

  /** `str.split(";")`: the pieces between separators, empty ones included. */
  function Split(s: string): (r: seq<string>)
    ensures |r| >= 1
  {
    if s == [] then [[]]
    else
      var rest := Split(s[1..]);
      if s[0] == ';' then [[]] + rest else [[s[0]] + rest[0]] + rest[1..]
  }

  /** There is one piece more than there are separators, and no piece holds
      one. */
  lemma {:induction false} SplitPieces(s: string)
    ensures |Split(s)| == multiset(s)[';'] + 1
    ensures forall k | 0 <= k < |Split(s)| :: ';' !in Split(s)[k]
  {
    if s != [] {
      SplitPieces(s[1..]);
      assert s == [s[0]] + s[1..];
    }
  }

  /** `decodeb64`'s unpacking: exactly one ';' is required, and an empty cape
      part means no cape. */
  function DecodeFrame(s: string): (r: Result<(string, Option<string>)>)
    ensures r.Ok? <==> multiset(s)[';'] == 1
    ensures r.Err? ==> r.error.ValueError?
    ensures r.Ok? ==> ';' !in r.value.0 && (r.value.1.Some? ==> r.value.1.value != [] && ';' !in r.value.1.value)
  {
    SplitPieces(s);
    var parts := Split(s);
    if |parts| != 2 then Err(ValueError("wrong number of values to unpack"))
    else Ok((parts[0], if parts[1] != [] then Some(parts[1]) else None))
  }

  /** Without a separator the string is one piece. */
  lemma {:induction false} SplitNoSeparator(s: string)
    requires ';' !in s
    ensures Split(s) == [s]
  {
    if s != [] {
      SplitNoSeparator(s[1..]);
      assert s == [s[0]] + s[1..];
    }
  }

  /** Splitting `a;b` with no ';' inside a or b gives [a, b]. */
  lemma SplitJoin(a: string, b: string)
    requires ';' !in a && ';' !in b
    ensures Split(a + ";" + b) == [a, b]
  {
    var t := ";" + b;
    SplitStep(';', b);
    SplitNoSeparator(b);
    assert t == [';'] + b;
    var r := Split(t);
    assert r == [[], b];
    SplitPrefix(a, t);
    assert a + ";" + b == a + t && a + r[0] == a;
  }

  /** A prefix without separators joins the first piece. */
  lemma {:induction false} SplitPrefix(a: string, t: string)
    requires ';' !in a
    ensures Split(a + t) == [a + Split(t)[0]] + Split(t)[1..]
  {
    var r := Split(t);
    if a == [] {
      assert a + t == t && a + r[0] == r[0];
      assert [r[0]] + r[1..] == r;
    } else {
      var u := a[1..] + t;
      SplitPrefix(a[1..], t);
      var ru := Split(u);
      assert ru[0] == a[1..] + r[0] && ru[1..] == r[1..];
      SplitStep(a[0], u);
      assert a + t == [a[0]] + u;
      assert [a[0]] + ru[0] == a + r[0];
    }
  }

  /** One character in front: a separator starts a new piece, anything else
      joins the first piece. */
  lemma SplitStep(c: char, t: string)
    ensures Split([c] + t) == if c == ';' then [[]] + Split(t) else [[c] + Split(t)[0]] + Split(t)[1..]
  {
    assert ([c] + t)[1..] == t;
  }

  /** A skin saved with a cape reads back as the same two parts; one saved
      without a cape has no ';' and fails the two-way unpack. */
  lemma FrameRoundTrip(skin: string, cape: Option<string>)
    requires ';' !in skin
    requires cape.Some? ==> ';' !in cape.value
    ensures cape.Some? && cape.value != [] ==> DecodeFrame(EncodeFrame(skin, cape)) == Ok((skin, cape))
    ensures !(cape.Some? && cape.value != []) ==> DecodeFrame(EncodeFrame(skin, cape)).Err?
  {
    if cape.Some? && cape.value != [] {
      SplitJoin(skin, cape.value);
    } else {
      SplitNoSeparator(skin);
    }
  }

  /** What `decodeb64` promises to read: the skin part alone, or the skin
      and cape parts around one ';' (an empty cape part meaning no cape). */
  function DecodeSaved(s: string): (r: Result<(string, Option<string>)>)
    ensures r.Ok? <==> multiset(s)[';'] <= 1
    ensures r.Err? ==> r.error.ValueError?
    ensures r.Ok? ==> ';' !in r.value.0 && (r.value.1.Some? ==> r.value.1.value != [] && ';' !in r.value.1.value)
    ensures multiset(s)[';'] == 1 ==> r == DecodeFrame(s)
  {
    SplitPieces(s);
    var parts := Split(s);
    if |parts| == 1 then Ok((parts[0], None))
    else if |parts| != 2 then Err(ValueError("too many values to unpack"))
    else Ok((parts[0], if parts[1] != [] then Some(parts[1]) else None))
  }

  /** Every saved skin reads back, with or without a cape. */
  lemma SavedRoundTrip(skin: string, cape: Option<string>)
    requires ';' !in skin
    requires cape.Some? ==> ';' !in cape.value
    ensures DecodeSaved(EncodeFrame(skin, cape)) == Ok((skin, if cape.Some? && cape.value != [] then cape else None))
  {
    if cape.Some? && cape.value != [] {
      SplitJoin(skin, cape.value);
    } else {
      SplitNoSeparator(skin);
    }
  }

  /** `Skin`: the raw skin (upgraded when it had 32 rows) and the optional cape. */
  class Skin {
    var rawSkin: array2<Rgba>
    var rawCape: Option<array2<Rgba>>

    /** `Skin.__init__`: stores the cape through `set_cape`, and replaces a
        32-row skin by its 64x64 upgrade. */
    constructor (raw: array2<Rgba>, cape: Option<array2<Rgba>>)
      ensures rawCape == cape
      ensures raw.Length1 != 32 ==> rawSkin == raw
      ensures raw.Length1 == 32 ==>
        fresh(rawSkin) && rawSkin.Length0 == 64 && rawSkin.Length1 == 64 && Shows(rawSkin, raw, SkinUpgrade)
    {
      var skin := raw;
      if raw.Length1 == 32 {
        skin := UpgradeSkin(raw);
      }
      rawSkin := skin;
      rawCape := cape;
    }

    /** `has_cape`: an image is held in the cape slot. */
    function HasCape(): (r: bool)
      reads this
      ensures r <==> rawCape.Some?
    {
      rawCape.Some?
    }

    /** `is_slim`: the alpha of pixel (46, 52) is zero; `getpixel` raises
        IndexError on an image too small to hold that pixel. */
    function IsSlim(): (r: Result<bool>)
      reads this, rawSkin
      ensures r.Ok? <==> InBounds(rawSkin, 46, 52)
      ensures r.Ok? ==> (r.value <==> rawSkin[46, 52].a == 0)
    {
      match GetPixel(rawSkin, 46, 52)
      case Ok(p) => Ok(p.a == 0)
      case Err(e) => Err(e)
    }

    /** `set_cape`: the resized copy is discarded, so the image stored is the
        one given, with its own size. */
    method SetCape(cape: array2<Rgba>)
      modifies this
      ensures rawCape == Some(cape) && rawSkin == old(rawSkin)
      ensures HasCape()
    {
      rawCape := Some(cape);
    }
  }

  /** Canvas pixel (46, 52), the pixel `is_slim` reads, holds pixel (41, 20)
      of the old skin after the upgrade: the last arm box mirrors it there. */
  lemma UpgradedSlimPixel(canvas: array2<Rgba>, raw: array2<Rgba>)
    requires canvas.Length0 == 64 && canvas.Length1 == 64 && Shows(canvas, raw, SkinUpgrade)
    ensures canvas[46, 52] == PixelOr(raw, 41, 20)
  {
    UpgradeMirrorsBox(raw, 11, 46, 52);
  }

  /** A skin built from a 32-row image is slim exactly when pixel (41, 20) of
      that image is transparent. */
  lemma OldSkinSlim(s: Skin, raw: array2<Rgba>)
    requires raw.Length1 == 32 && 42 <= raw.Length0
    requires s.rawSkin.Length0 == 64 && s.rawSkin.Length1 == 64 && Shows(s.rawSkin, raw, SkinUpgrade)
    ensures s.IsSlim() == Ok(raw[41, 20].a == 0)
  {
    UpgradedSlimPixel(s.rawSkin, raw);
  }
}
