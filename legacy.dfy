/** The parts of MinePI/skin_render.py outside its `Render` pipeline:
    `fix_old_skins`, the id check of `get_skin_mojang`, the name-history scan
    of `to_name`, and the skin preparation at the top of `get_render`. The
    legacy pipeline itself is the `Render` class run with `legacy` set. */
module Legacy {
  import opened Common
  import opened Images
  import opened Uuids
  import Skins

  /** One limb of `fix_old_skins`: the mirrored top, bottom, left, front,
      right and back boxes, leg (f1 = 0, f2 = 0) or arm (f1 = 40, f2 = 16),
      in the order they are pasted. */
  function FixLimb(f1: int, f2: int): seq<MirrorPaste>
  {
    [ MirrorPaste(4 + f1, 16, 8 + f1, 20, 20 + f2, 48),
      MirrorPaste(8 + f1, 16, 12 + f1, 20, 24 + f2, 48),
      MirrorPaste(8 + f1, 20, 12 + f1, 32, 16 + f2, 52),
      MirrorPaste(4 + f1, 20, 8 + f1, 32, 20 + f2, 52),
      MirrorPaste(0 + f1, 20, 4 + f1, 32, 24 + f2, 52),
      MirrorPaste(12 + f1, 20, 16 + f1, 32, 28 + f2, 52) ]
  }

  /** The twelve boxes of `fix_old_skins`: the leg's six, then the arm's. */
  const OldSkinFix: seq<MirrorPaste> := FixLimb(0, 0) + FixLimb(40, 16)

  /** `fix_old_skins`: a transparent canvas as wide as the skin and 64 rows
      high, the skin pasted at (0, 0), then the twelve mirrored boxes. */
  method FixOldSkins(skin: array2<Rgba>) returns (canvas: array2<Rgba>)
    ensures fresh(canvas)
    ensures canvas.Length0 == skin.Length0 && canvas.Length1 == 64
    ensures Shows(canvas, skin, OldSkinFix)
  {
    canvas := NewCanvas(skin, skin.Length0, 64);
    ghost var ps: seq<MirrorPaste> := [];
    var i := 0;
    while i < |OldSkinFix|
      invariant 0 <= i <= |OldSkinFix| && ps == OldSkinFix[..i]
      invariant fresh(canvas) && canvas.Length0 == skin.Length0 && canvas.Length1 == 64
      invariant Shows(canvas, skin, ps)
    {
      ApplyPaste(canvas, skin, ps, OldSkinFix[i]);
      ps := ps + [OldSkinFix[i]];
      i := i + 1;
    }
    assert ps == OldSkinFix;
  }

  /** Box k of a limb, spelled out. */
  lemma FixLimbBoxes(f1: int, f2: int)
    ensures |FixLimb(f1, f2)| == 6
    ensures Disjoint(FixLimb(f1, f2))
    ensures forall m | m in FixLimb(f1, f2) ::
      m.py >= 48 && m.x1 - m.x0 == 4 && 16 + f2 <= m.px && m.px + 4 <= 32 + f2
  {
    var r := FixLimb(f1, f2);
    forall i, j | 0 <= i < j < 6
      ensures Apart(r[i], r[j])
    {
      if i < 2 && j >= 2 {
        assert r[i].py + 4 <= r[j].py;
      }
    }
  }

  /** The twelve boxes never overlap and all lie in rows 48-63. */
  lemma OldSkinFixDisjoint()
    ensures |OldSkinFix| == 12
    ensures Disjoint(OldSkinFix)
    ensures forall m | m in OldSkinFix :: m.py >= 48 && m.x1 - m.x0 == 4 && m.py + (m.y1 - m.y0) <= 64
  {
    FixLimbBoxes(0, 0);
    FixLimbBoxes(40, 16);
    Skins.DisjointAppend(FixLimb(0, 0), FixLimb(40, 16));
  }

  /** Rows 0-31 of the fixed skin are the old skin. */
  lemma FixKeepsTop(skin: array2<Rgba>, x: int, y: int)
    requires 0 <= y < 32
    ensures Upgraded(skin, OldSkinFix, x, y) == PixelOr(skin, x, y)
  {
    OldSkinFixDisjoint();
    UpgradedCases(skin, OldSkinFix, x, y);
  }

  /** A pixel inside box k shows the source box read right to left. */
  lemma FixMirrorsBox(skin: array2<Rgba>, k: nat, x: int, y: int)
    requires k < 12 && Covers(OldSkinFix[k], x, y)
    ensures Upgraded(skin, OldSkinFix, x, y) ==
      PixelOr(skin, OldSkinFix[k].x1 - 1 - (x - OldSkinFix[k].px), OldSkinFix[k].y0 + (y - OldSkinFix[k].py))
  {
    OldSkinFixDisjoint();
    UpgradedCases(skin, OldSkinFix, x, y);
  }

  /** For a 32-row skin, every pixel below row 31 outside the twelve boxes
      is transparent. */
  lemma FixRestTransparent(skin: array2<Rgba>, x: int, y: int)
    requires skin.Length1 == 32 && 32 <= y
    requires forall m | m in OldSkinFix :: !Covers(m, x, y)
    ensures Upgraded(skin, OldSkinFix, x, y) == Transparent
  {
    UpgradedCases(skin, OldSkinFix, x, y);
  }

  /** The legacy fix and the upgrade of minepi/skin.py paste the same
      boxes with the same sources at rows 48, but at row 52 they put a
      different source column at x = 20, 24 and 28 of each limb. */
  lemma FixAndUpgradeDiffer()
    ensures forall k | k in {0, 1, 2, 6, 7, 8} :: OldSkinFix[k] == Skins.SkinUpgrade[k]
    ensures forall k | k in {3, 4, 5, 9, 10, 11} ::
      OldSkinFix[k].px == Skins.SkinUpgrade[k].px && OldSkinFix[k].py == Skins.SkinUpgrade[k].py &&
      OldSkinFix[k].x0 != Skins.SkinUpgrade[k].x0
  {
  }

  /** The top of `get_render`: `hd_ratio` is taken from the width before the
      fix, and only a skin of 32 rows is fixed. */
  method PrepareSkin(skin: array2<Rgba>) returns (img: array2<Rgba>, hdRatio: int)
    ensures hdRatio == skin.Length0 / 64
    ensures skin.Length1 != 32 ==> img == skin
    ensures skin.Length1 == 32 ==>
      fresh(img) && img.Length0 == skin.Length0 && img.Length1 == 64 && Shows(img, skin, OldSkinFix)
  {
    hdRatio := skin.Length0 / 64;
    img := skin;
    if skin.Length1 == 32 {
      img := FixOldSkins(skin);
    }
  }

  /** `ch.lower()` for the characters it can bring into 'a'..'f': the ASCII
      capitals. */
  function Lower(c: char): (r: char)
    ensures 'a' <= r <= 'f' <==> 'a' <= c <= 'f' || 'A' <= c <= 'F'
  {
    if 'A' <= c <= 'Z' then (c as int + 32) as char else c
  }

  /** The test of the character loop: a digit, or a letter a-f in either case. */
  predicate IsHex(c: char)
  {
    !((c < '0' || c > '9') && (Lower(c) < 'a' || Lower(c) > 'f'))
  }

  /** What the id check decides: a 32-character id of hex digits passes,
      another 32-character id is an invalid UUID, any other length an
      invalid username or UUID. */
  function IdVerdict(uuid: string): (r: Outcome)
    ensures r == Pass <==> |uuid| == 32 && forall c | c in uuid :: '0' <= c <= '9' || 'a' <= c <= 'f' || 'A' <= c <= 'F'
  {
    if |uuid| != 32 then Fail(ValueError("Invalid Username or UUID"))
    else if exists c | c in uuid :: !IsHex(c) then Fail(ValueError("UUID is invalid"))
    else Pass
  }

  /** The character loop of `get_skin_mojang`. */
  method CheckId(uuid: string) returns (r: Outcome)
    ensures r == IdVerdict(uuid)
  {
    if |uuid| != 32 {
      return Fail(ValueError("Invalid Username or UUID"));
    }
    for i := 0 to |uuid|
      invariant forall k | 0 <= k < i :: IsHex(uuid[k])
    {
      if !IsHex(uuid[i]) {
        return Fail(ValueError("UUID is invalid"));
      }
    }
    return Pass;
  }

  /** The id `get_skin_mojang` checks: for a user of at most 16 characters
      the id the profile lookup answered (`None` when the lookup did not
      answer 200), otherwise the user string; dashes are removed either way.
      Returns the id the session lookup is made with. */
  method ResolveId(user: string, lookup: Option<string>) returns (r: Result<string>)
    ensures |user| <= 16 && lookup.None? ==> r == Err(ValueError("Username is invalid"))
    ensures |user| > 16 ==> (r.Ok? <==> IdVerdict(Undashed(user)) == Pass)
    ensures |user| <= 16 && lookup.Some? ==> (r.Ok? <==> IdVerdict(Undashed(lookup.value)) == Pass)
    ensures r.Ok? ==> (|r.value| == 32 && '-' !in r.value &&
      r.value == Undashed(if |user| > 16 then user else lookup.value))
    ensures r.Err? && (|user| > 16 || lookup.Some?) ==>
      Fail(r.error) == IdVerdict(Undashed(if |user| > 16 then user else lookup.value))
  {
    var uuid: string;
    if |user| <= 16 {
      if lookup.None? {
        return Err(ValueError("Username is invalid"));
      }
      uuid := Undashed(lookup.value);
    } else {
      uuid := Undashed(user);
    }
    UndashedSpec(if |user| > 16 then user else lookup.value);
    var v := CheckId(uuid);
    if v.Fail? {
      return Err(v.error);
    }
    return Ok(uuid);
  }

  /** A dashed spelling of a hex id passes the check as the id itself. */
  lemma DashedIdAccepted(u: string)
    requires |u| == 32 && forall c | c in u :: '0' <= c <= '9' || 'a' <= c <= 'f'
    ensures Undashed(Dashed(u)) == u && IdVerdict(Undashed(Dashed(u))) == Pass
  {
    UndashDashed(u);
  }

  /** One entry of the name history: the name and, except usually on the
      first entry, the time it was taken. */
  datatype NameEntry = NameEntry(name: string, changedToAt: Option<real>)

  /** The scan of `to_name` from entry i down to entry 1, then entry 0. */
  function ScanFrom(history: seq<NameEntry>, t: real, i: nat): (r: Result<string>)
    requires i < |history|
  {
    if i == 0 then Ok(history[0].name)
    else if history[i].changedToAt.None? then Err(KeyError)
    else if t > history[i].changedToAt.value then Ok(history[i].name)
    else ScanFrom(history, t, i - 1)
  }

  /** What `to_name` returns for a history: the last name without a
      timestamp, the scan from the last entry with one, and an IndexError
      for an empty history. */
  function NameAt(history: seq<NameEntry>, timestamp: Option<real>): (r: Result<string>)
    ensures history == [] ==> r == Err(IndexError)
    ensures history != [] && timestamp.None? ==> r == Ok(history[|history| - 1].name)
  {
    if history == [] then Err(IndexError)
    else if timestamp.None? then Ok(history[|history| - 1].name)
    else ScanFrom(history, timestamp.value, |history| - 1)
  }

  /** The name-selection loop of `to_name`. */
  method ToName(history: seq<NameEntry>, timestamp: Option<real>) returns (r: Result<string>)
    ensures r == NameAt(history, timestamp)
  {
    if history == [] {
      return Err(IndexError);
    }
    if timestamp.None? {
      return Ok(history[|history| - 1].name);
    }
    var t := timestamp.value;
    var i := |history| - 1;
    while i > 0
      invariant 0 <= i < |history|
      invariant NameAt(history, timestamp) == ScanFrom(history, t, i)
    {
      if history[i].changedToAt.None? {
        return Err(KeyError);
      }
      if t > history[i].changedToAt.value {
        return Ok(history[i].name);
      }
      i := i - 1;
    }
    return Ok(history[0].name);
  }

  /** Every entry after the first carries its time. */
  predicate Timed(history: seq<NameEntry>)
  {
    forall k | 1 <= k < |history| :: history[k].changedToAt.Some?
  }

  /** The scan picks the latest entry j >= 1 taken strictly before t, or
      entry 0 when there is none; it raises KeyError only on an untimed
      entry after every later entry was taken at t or later. */
  lemma {:induction false} ScanPicks(history: seq<NameEntry>, t: real, i: nat)
    requires i < |history|
    ensures ScanFrom(history, t, i).Ok? ==> exists j | 0 <= j <= i ::
      ScanFrom(history, t, i).value == history[j].name &&
      (j == 0 || (history[j].changedToAt.Some? && t > history[j].changedToAt.value)) &&
      forall k | j < k <= i :: history[k].changedToAt.Some? && !(t > history[k].changedToAt.value)
    ensures ScanFrom(history, t, i).Err? ==> (ScanFrom(history, t, i) == Err(KeyError) &&
      exists j | 1 <= j <= i :: history[j].changedToAt.None? &&
        forall k | j < k <= i :: history[k].changedToAt.Some? && !(t > history[k].changedToAt.value))
    ensures Timed(history) ==> ScanFrom(history, t, i).Ok?
  {
    if i > 0 && history[i].changedToAt.Some? && !(t > history[i].changedToAt.value) {
      ScanPicks(history, t, i - 1);
      var r := ScanFrom(history, t, i);
      if r.Ok? {
        var j :| 0 <= j <= i - 1 &&
          r.value == history[j].name &&
          (j == 0 || (history[j].changedToAt.Some? && t > history[j].changedToAt.value)) &&
          forall k | j < k <= i - 1 :: history[k].changedToAt.Some? && !(t > history[k].changedToAt.value);
        assert forall k | j < k <= i :: history[k].changedToAt.Some? && !(t > history[k].changedToAt.value);
      } else {
        var j :| 1 <= j <= i - 1 && history[j].changedToAt.None? &&
          forall k | j < k <= i - 1 :: history[k].changedToAt.Some? && !(t > history[k].changedToAt.value);
        assert forall k | j < k <= i :: history[k].changedToAt.Some? && !(t > history[k].changedToAt.value);
      }
    }
  }

  /** For a timed history in order of time, `to_name` with a timestamp
      returns the name in force just before it: the latest entry taken
      strictly earlier, or the first name if there is none. */
  lemma NameInForce(history: seq<NameEntry>, t: real, j: nat)
    requires Timed(history) && j < |history|
    requires forall a, b | 1 <= a < b < |history| :: history[a].changedToAt.value <= history[b].changedToAt.value
    requires j == 0 || t > history[j].changedToAt.value
    requires forall k | j < k < |history| :: !(t > history[k].changedToAt.value)
    ensures NameAt(history, Some(t)) == Ok(history[j].name)
  {
    ScanTo(history, t, |history| - 1, j);
  }

  /** The scan from i stops at the first entry from the top taken strictly
      before t. */
  lemma {:induction false} ScanTo(history: seq<NameEntry>, t: real, i: nat, j: nat)
    requires Timed(history) && j <= i < |history|
    requires j == 0 || t > history[j].changedToAt.value
    requires forall k | j < k <= i :: !(t > history[k].changedToAt.value)
    ensures ScanFrom(history, t, i) == Ok(history[j].name)
  {
    if i > j {
      ScanTo(history, t, i - 1, j);
    }
  }
}
