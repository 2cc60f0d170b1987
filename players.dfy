/** The `Player` class of minepi/player.py: uuid normalisation in the
    constructor, and the bookkeeping of `initialize` once the Mojang responses
    are in (the responses themselves are parameters). */
module Players {
  import opened Common
  import opened Images
  import opened Uuids
  import opened Skins

  /** The constructor's check: a given, non-empty uuid loses every "-" and
      must then be 32 characters long; `None` and "" are not checked. */
  function NormalizeUuid(uuid: Option<string>): (r: Result<Option<string>>)
    ensures uuid.None? || uuid == Some("") ==> r == Ok(uuid)
    ensures uuid.Some? && uuid.value != "" ==> (r.Ok? <==> |Undashed(uuid.value)| == 32)
    ensures uuid.Some? && uuid.value != "" && r.Ok? ==>
      r.value.Some? && |r.value.value| == 32 && '-' !in r.value.value &&
      forall c :: c != '-' ==> (c in r.value.value <==> c in uuid.value)
    ensures r.Err? ==> r.error == ValueError("UUID seems to be invalid.")
  {
    if uuid.Some? && uuid.value != "" then
      var u := Undashed(uuid.value);
      UndashedSpec(uuid.value);
      if |u| != 32 then Err(ValueError("UUID seems to be invalid.")) else Ok(Some(u))
    else Ok(uuid)
  }

  /** A normalised uuid passes the check again unchanged. */
  lemma NormalizeIdempotent(uuid: Option<string>)
    requires NormalizeUuid(uuid).Ok?
    ensures NormalizeUuid(NormalizeUuid(uuid).value) == NormalizeUuid(uuid)
  {
    if uuid.Some? && uuid.value != "" {
      UndashedIdempotent(uuid.value);
    }
  }

  /** Both spellings of an id normalise to the same undashed form. */
  lemma NormalizeBothSpellings(u: string)
    requires |u| == 32 && '-' !in u
    ensures NormalizeUuid(Some(u)) == Ok(Some(u))
    ensures NormalizeUuid(Some(Dashed(u))) == Ok(Some(u))
  {
    UndashedSpec(u);
    UndashDashed(u);
  }

  /** The "CAPE" entry of the textures: absent, present without a "url", or
      present with one. */
  datatype CapeEntry = NoCape | CapeWithoutUrl | CapeAt(url: string)

  /** The `textures` entry of a profile: the skin url (None when the entry
      has no "SKIN" key or that has no "url"), the skin's "model" metadata
      when present, and the "CAPE" entry. */
  datatype Textures = Textures(skinUrl: Option<string>, skinModel: Option<string>, cape: CapeEntry)
  {
    /** The cape url `initialize` keeps: the "url" of a "CAPE" entry, else None. */
    function CapeUrl(): (r: Option<string>)
      ensures r.Some? <==> cape.CapeAt?
      ensures r.Some? ==> r.value == cape.url
    {
      if cape.CapeAt? then Some(cape.url) else None
    }

    /** `textures["SKIN"]["url"]` and, when "CAPE" is a key, `textures["CAPE"]["url"]`
        both exist, so the two url reads raise nothing. */
    predicate UrlsReadable()
    {
      skinUrl.Some? && !cape.CapeWithoutUrl?
    }
  }

  /** The keys of a 200 answer of the name lookup that matter: "uuid", which
      `initialize` reads, and "id", which the legacy renderer reads from the same
      endpoint. */
  datatype LookupAnswer = LookupAnswer(uuid: Option<string>, id: Option<string>)

  /** As written: `resp_dict["uuid"].replace("-", "")`, KeyError without "uuid". */
  function LookupUuid(a: LookupAnswer): (r: Result<string>)
    ensures r.Ok? <==> a.uuid.Some?
    ensures r.Err? ==> r.error == KeyError
    ensures r.Ok? ==> '-' !in r.value && (|a.uuid.value| == 32 && '-' !in a.uuid.value ==> r.value == a.uuid.value)
  {
    UndashedSpec(if a.uuid.Some? then a.uuid.value else "");
    if a.uuid.None? then Err(KeyError) else Ok(Undashed(a.uuid.value))
  }

  /** Corrected: the id read under "id", as the legacy renderer reads it. */
  function LookupId(a: LookupAnswer): (r: Result<string>)
    ensures r.Ok? <==> a.id.Some?
    ensures r.Err? ==> r.error == KeyError
    ensures r.Ok? ==> '-' !in r.value && (|a.id.value| == 32 && '-' !in a.id.value ==> r.value == a.id.value)
  {
    UndashedSpec(if a.id.Some? then a.id.value else "");
    if a.id.None? then Err(KeyError) else Ok(Undashed(a.id.value))
  }

  /** An answer that carries only "id": the read as written raises KeyError,
      the corrected read gives the id, undashed, and both spellings of a
      32-digit id give the same result. */
  lemma IdOnlyAnswer(u: string)
    requires |u| == 32 && '-' !in u
    ensures LookupUuid(LookupAnswer(None, Some(u))) == Err(KeyError)
    ensures LookupId(LookupAnswer(None, Some(u))) == Ok(u)
    ensures LookupId(LookupAnswer(None, Some(Dashed(u)))) == Ok(u)
  {
    UndashDashed(u);
  }

  /** A session-server profile: the name and, when the "textures" property is
      present, its decoded value. */
  datatype Profile = Profile(name: string, textures: Option<Textures>)

  /** The box argument of Pillow's `Image.paste`: a corner pair, or a bare int. */
  datatype PasteBox = Corner(x: int, y: int) | IntBox(n: int)

  /** `paste` takes the length of its box argument first; an int has none, so
      Python raises TypeError before anything is pasted. */
  function PasteCorner(box: PasteBox): (r: Result<(int, int)>)
    ensures r.Ok? <==> box.Corner?
    ensures r.Ok? ==> r.value == (box.x, box.y)
    ensures r.Err? ==> r.error == TypeError
  {
    match box
    case Corner(x, y) => Ok((x, y))
    case IntBox(_) => Err(TypeError)
  }

  /** The arguments of the first paste of the 32-row upgrade in `initialize`:
      `paste(self._raw_skin, 0, 0)` passes 0 as the box. */
  const InitializeBaseBox := IntBox(0)

  /** As written, the upgrade in `initialize` raises TypeError on every
      32-row skin; the box (0, 0) used by `Skin.__init__` pastes at the origin. */
  lemma InitializeBaseBoxRaises()
    ensures PasteCorner(InitializeBaseBox) == Err(TypeError)
    ensures PasteCorner(Corner(0, 0)) == Ok((0, 0))
  {
  }

  class Player {
    var uuid: Option<string>
    var username: Option<string>
    var slim: Option<bool>
    var rawSkin: Option<array2<Rgba>>
    var rawCape: Option<array2<Rgba>>
    var rawSkinUrl: Option<string>
    var rawCapeUrl: Option<string>

    /** The fields `Player.__init__` sets once the uuid has passed its check. */
    constructor (id: Option<string>, name: Option<string>, skin: Option<array2<Rgba>>, cape: Option<array2<Rgba>>)
      ensures uuid == id && username == name && rawSkin == skin && rawCape == cape
      ensures slim.None? && rawSkinUrl.None? && rawCapeUrl.None?
    {
      uuid := id;
      username := name;
      slim := None;
      rawSkin := skin;
      rawCape := cape;
      rawSkinUrl := None;
      rawCapeUrl := None;
    }

    /** `has_cape`: the truthiness of the cape url, so a known but empty url
        counts as no cape; whether an image is held does not matter. */
    function HasCape(): (r: bool)
      reads this
      ensures r <==> rawCapeUrl.Some? && rawCapeUrl.value != ""
    {
      match rawCapeUrl
      case None => false
      case Some(url) => |url| > 0
    }

    /** `is_slim`. */
    function IsSlim(): (r: Option<bool>)
      reads this
      ensures r == slim
    {
      slim
    }

    /** `initialize` after its requests: `lookup` is the answer of the name
        lookup (None unless status 200), `profile` the session-server answer
        (None unless status 200), `skinDownload` and `capeDownload` the images
        behind the two urls. */
    method Initialize(lookup: Option<LookupAnswer>, profile: Option<Profile>,
                      skinDownload: array2<Rgba>, capeDownload: array2<Rgba>) returns (r: Outcome)
      modifies this
      ensures old(uuid).None? && old(username).None? ==> r == Fail(ValueError(""))
      ensures old(username).Some? && old(uuid).None? && lookup.Some? && lookup.value.uuid.None? ==>
        r == Fail(KeyError)
      ensures (old(uuid).Some? || old(username).Some?) && !(old(uuid).None? && lookup.Some? && lookup.value.uuid.None?) ==>
        (r == Fail(UnboundLocalError) <==> (old(uuid).None? && lookup.None?) || profile.None?)
      ensures (old(uuid).Some? || (old(username).Some? && lookup.Some? && lookup.value.uuid.Some?)) &&
              profile.Some? && profile.value.textures.None? ==>
        r == Fail(NotImplementedError)
      ensures (old(uuid).Some? || (old(username).Some? && lookup.Some? && lookup.value.uuid.Some?)) &&
              profile.Some? && profile.value.textures.Some? ==>
        (r == Fail(KeyError) <==> !profile.value.textures.value.UrlsReadable()) &&
        (profile.value.textures.value.UrlsReadable() ==>
          (r.Pass? <==> !SlimProbeMissing(profile.value.textures.value, old(rawSkin), old(slim), skinDownload)))
      ensures r.Pass? ==>
        (old(uuid).Some? || (lookup.Some? && lookup.value.uuid.Some?)) &&
        uuid == (if old(uuid).Some? then old(uuid) else Some(LookupUuid(lookup.value).value)) &&
        profile.Some? && profile.value.textures.Some? &&
        username == (if old(username).Some? then old(username) else Some(profile.value.name))
      ensures r.Pass? ==> Loaded(profile.value.textures.value, old(rawSkin), old(rawCape), old(slim), skinDownload, capeDownload)
      ensures r.Fail? && r.error == IndexError ==>
        profile.Some? && profile.value.textures.Some? &&
        SlimProbeMissing(profile.value.textures.value, old(rawSkin), old(slim), skinDownload)
    {
      if uuid.None? && username.None? {
        return Fail(ValueError(""));
      }
      if uuid.None? && lookup.Some? {
        match LookupUuid(lookup.value)
        case Err(e) =>
          return Fail(e);
        case Ok(id) =>
          uuid := Some(id);
      }
      if uuid.None? || profile.None? {
        // `textures` is never bound
        return Fail(UnboundLocalError);
      }
      if username.None? {
        username := Some(profile.value.name);
      }
      if profile.value.textures.None? {
        return Fail(NotImplementedError);
      }
      r := LoadTextures(profile.value.textures.value, skinDownload, capeDownload);
    }

    /** The state `initialize` leaves once the textures are known: the urls,
        the images (a 32-row skin replaced by its upgrade with the boxes of
        `Skin.__init__`), and the slim flag (from the "model" metadata when the
        skin was downloaded, else from pixel (46, 52)). */
    ghost predicate Loaded(t: Textures, skin0: Option<array2<Rgba>>, cape0: Option<array2<Rgba>>,
                           slim0: Option<bool>, skinDownload: array2<Rgba>, capeDownload: array2<Rgba>)
      reads this, skinDownload, if rawSkin.Some? then {rawSkin.value} else {}, if skin0.Some? then {skin0.value} else {}
    {
      var src := if skin0.Some? then skin0.value else skinDownload;
      t.UrlsReadable() && rawSkinUrl == t.skinUrl && rawCapeUrl == t.CapeUrl() &&
      rawCape == (if cape0.Some? || t.CapeUrl().None? then cape0 else Some(capeDownload)) &&
      rawSkin.Some? &&
      (src.Length1 == 32 ==>
        rawSkin.value.Length0 == 64 && rawSkin.value.Length1 == 64 && Shows(rawSkin.value, src, SkinUpgrade)) &&
      (src.Length1 != 32 ==> rawSkin.value == src) &&
      (skin0.None? ==> slim == Some(t.skinModel == Some("slim"))) &&
      (skin0.Some? && slim0.None? ==> InBounds(rawSkin.value, 46, 52) && slim == Some(rawSkin.value[46, 52].a == 0)) &&
      (skin0.Some? && slim0.Some? ==> slim == slim0)
    }

    /** The one way the texture step raises: a passed-in skin, no slim flag
        yet, and an image without pixel (46, 52). */
    ghost predicate SlimProbeMissing(t: Textures, skin0: Option<array2<Rgba>>, slim0: Option<bool>, skinDownload: array2<Rgba>)
      reads this, if rawSkin.Some? then {rawSkin.value} else {}
    {
      skin0.Some? && slim0.None? && rawSkin.Some? && !InBounds(rawSkin.value, 46, 52)
    }

    /** The second half of `initialize`, from `self._raw_skin_url = ...` on. */
    method LoadTextures(textures: Textures, skinDownload: array2<Rgba>, capeDownload: array2<Rgba>) returns (r: Outcome)
      modifies this
      ensures r.Pass? ==> Loaded(textures, old(rawSkin), old(rawCape), old(slim), skinDownload, capeDownload)
      ensures r.Pass? && (if old(rawSkin).Some? then old(rawSkin).value else skinDownload).Length1 == 32 ==>
        fresh(rawSkin.value)
      ensures r == Fail(KeyError) <==> !textures.UrlsReadable()
      ensures textures.UrlsReadable() ==> (r.Pass? <==> !SlimProbeMissing(textures, old(rawSkin), old(slim), skinDownload))
      ensures r.Fail? && r.error != KeyError ==> r.error == IndexError && SlimProbeMissing(textures, old(rawSkin), old(slim), skinDownload)
      ensures uuid == old(uuid) && username == old(username)
    {
      if textures.skinUrl.None? {
        // `textures["SKIN"]["url"]`
        return Fail(KeyError);
      }
      rawSkinUrl := textures.skinUrl;
      if textures.cape.CapeWithoutUrl? {
        // `textures["CAPE"]["url"]`
        return Fail(KeyError);
      }
      rawCapeUrl := textures.CapeUrl();
      if rawSkin.None? {
        slim := Some(textures.skinModel == Some("slim"));
        rawSkin := Some(skinDownload);
      }
      if rawCape.None? && rawCapeUrl.Some? {
        rawCape := Some(capeDownload);
      }
      var skin := rawSkin.value;
      if skin.Length1 == 32 {
        skin := UpgradeSkin(skin);
        rawSkin := Some(skin);
      }
      if slim.None? {
        match GetPixel(skin, 46, 52)
        case Err(e) =>
          return Fail(e);
        case Ok(p) =>
          slim := Some(p.a == 0);
      }
      return Pass;
    }
  }

  /** The two cape tests of the class disagree on an empty url: the download
      in `initialize` tests `is not None` and fetches a cape, while `has_cape`
      tests truthiness and reports none. */
  lemma EmptyCapeUrlDownloaded(p: Player, t: Textures, skin0: Option<array2<Rgba>>, slim0: Option<bool>,
                               skinDownload: array2<Rgba>, capeDownload: array2<Rgba>)
    requires p.Loaded(t, skin0, None, slim0, skinDownload, capeDownload)
    ensures p.HasCape() <==> t.cape.CapeAt? && t.cape.url != ""
    ensures p.rawCape.Some? <==> t.cape.CapeAt?
    ensures t.cape == CapeAt("") ==> !p.HasCape() && p.rawCape == Some(capeDownload)
  {
  }

  /** `Player(uuid, name, raw_skin, raw_cape)`: ValueError when the uuid check fails. */
  method NewPlayer(uuid: Option<string>, name: Option<string>,
                   skin: Option<array2<Rgba>>, cape: Option<array2<Rgba>>) returns (r: Result<Player>)
    ensures r.Ok? <==> NormalizeUuid(uuid).Ok?
    ensures r.Err? ==> r.error == ValueError("UUID seems to be invalid.")
    ensures r.Ok? ==>
      fresh(r.value) && r.value.uuid == NormalizeUuid(uuid).value && r.value.username == name &&
      r.value.rawSkin == skin && r.value.rawCape == cape && r.value.slim.None? && !r.value.HasCape()
  {
    match NormalizeUuid(uuid)
    case Err(e) =>
      return Err(e);
    case Ok(id) =>
      var p := new Player(id, name, skin, cape);
      return Ok(p);
  }

  /** A player built from a 32-row skin and initialised is slim exactly when
      pixel (41, 20) of that skin is transparent. */
  lemma OldSkinPlayerSlim(canvas: array2<Rgba>, raw: array2<Rgba>, slim: bool)
    requires raw.Length1 == 32
    requires canvas.Length0 == 64 && canvas.Length1 == 64 && Shows(canvas, raw, SkinUpgrade)
    requires slim == (canvas[46, 52].a == 0)
    ensures slim <==> PixelOr(raw, 41, 20).a == 0
  {
    UpgradedSlimPixel(canvas, raw);
  }
}
