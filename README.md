# MinePI skin renderer, modelled in Dafny

MinePI draws a Minecraft skin as an oblique 3D picture. The skin is a 64 x 64 texel atlas, possibly scaled by `hd_ratio`. The picture has a head, a helmet, a torso, two arms, two legs, a second layer over each of those, and a cape. This project models the pipeline that turns the atlas into draw calls, in both renderers of the repository:

- the current package, `minepi/skin_render.py`;
- the legacy copy, `MinePI/skin_render.py`, which has no cape and no slim arms.

It also models the skin normalisation of `minepi/skin.py` and `minepi/player.py`, and the uuid helpers of `minepi/utils.py`.

The stages of a render are these:

- **Lattice.** `generate_polygons` builds a three-level dictionary of `Point`s per part with `append_dict`. The first Point stored at a key wins, so neighbouring quads share Point objects.
- **Face loops.** These walk the atlas and keep a `Polygon` for each texel whose alpha is non-zero. A face loop runs only for the faces `determine_faces` finds visible.
- **Posing.** `member_rotation` turns each part about its joint once.
- **Projection.** `create_project_plan` projects every dot with the view rotation and widens the render's bounding box.
- **Drawing.** `display_image` walks `get_display_order` and draws each Polygon as its prefixes: a prefix is drawn once its dots already differ in x and in y from the reference coordinates, at most one draw per dot.

The model is split by concern:

- **Render.** The `Render` class holds `cube_points`, `polygons`, the visible faces and the angles, and its methods change them in place. `Point` and `Polygon` are classes (module `Mesh`), because the shared identity of Points matters.
- **Value level.** What the loops compute is also stated on values: the atlas tables in `Atlas`, the lattice in `Lattice`, quads in `Quads`, the outcome of the blocks in `Generate`, the display order in `Order` and the size arithmetic in `Raster`. The methods are proved against these functions.
- **Shared parts.** The legacy renderer is the same class with its `legacy` switch set. Its differences are each modelled as their own member:
  - one cube per part in `determine_faces`;
  - a final unturned cube;
  - second layers, when requested, built for all six faces, without the visibility test;
  - `== None` in `add_png_polygon`;
  - no cape.
- **Inputs.** Sines and cosines of the request's angles are given as reals (`Pose.Turns`). Pixels are `array2<Rgba>` indexed `[x, y]`.

## Model

| member | source | states |
|---|---|---|
| Mesh.IsNotExisting | minepi/skin_render.py:9-21 | true exactly when the triple lookup `dic[i][j][k]` has no value |
| Mesh.AppendDict | minepi/skin_render.py:24-36 | stores the value only at a free key and keeps every stored key's value; the inner dictionaries are created on the way |
| Mesh.AppendDictFirstWins | minepi/skin_render.py:24-36 | of several `append_dict` calls for one key the first value stays, later ones change nothing |
| Lattice.KeyOf | minepi/skin_render.py:318-336 | the key of a lattice step: (i, j) on a z plane, (j, k) on an x plane, (i, k) on a y plane |
| Lattice.LatticeFirstWins | minepi/skin_render.py:318-336 | the lattice dictionary holds, for every key, the coordinates of the first insert carrying it |
| Lattice.LatticeHolds | minepi/skin_render.py:318-336 | a key has a Point exactly when one of the part's three loop pairs inserts it, so any other key raises KeyError |
| Volume.StorePoint | minepi/skin_render.py:320-323 | one `append_dict(..., Point(...))`: a new Point, stored only when the key is free |
| Volume.StoreCell | minepi/skin_render.py:320-323 | one inner step of a lattice loop: a fresh Point at each of the two fixed-plane keys |
| Volume.StoreRow | minepi/skin_render.py:319-323 | the inner lattice loop for a fixed outer index, as the value-level inserts in order |
| Volume.StoreNest | minepi/skin_render.py:318-323 | one loop pair of a lattice, as the value-level inserts in order |
| Volume.BuildVolume | minepi/skin_render.py:317-336 | the three loop pairs of a part: every Point is new and unmoved and stands at the key's coordinates of the value-level lattice |
| Volume.CellPolygon | minepi/skin_render.py:338-348 | one cell of a face loop: IndexError outside the image, no Polygon for alpha 0, KeyError for a missing key, otherwise a Polygon of the four looked-up Points in the texel's colour |
| Volume.RowPolygons | minepi/skin_render.py:339-348 | the inner face loop: the value-level row of quads, a Polygon per quad |
| Volume.FaceLoopPolygons | minepi/skin_render.py:338-348 | one face loop: the value-level face loop's result, with a Polygon for each quad |
| Volume.RealizedCorners | minepi/skin_render.py:342-347 | the dots of a Polygon are the Points created at its quad's four corners |
| Quads.FaceQuadsOk | minepi/skin_render.py:338-348 | a face loop completes exactly when every texel is inside the image and every opaque cell's four keys are stored |
| Quads.FaceQuadsExact | minepi/skin_render.py:338-348 | the quads of a completed face loop are exactly those of its cells with non-zero alpha |
| Quads.FaceQuadsKeyError | minepi/skin_render.py:338-348 | with every texel readable, the loop raises KeyError exactly when some opaque cell has a key that is not stored |
| Quads.FaceErrStays | minepi/skin_render.py:338-348 | an exception in a row ends the face loop |
| Quads.LoopQuadsOk | minepi/skin_render.py:338-1623 | with an image of 64h x 64h (22h x 17h for the cape) no face loop of any part raises, for `start` 0 or 1 |
| Quads.CapeLeftRaises | minepi/skin_render.py:775-784 | as written, with hd_ratio 2 or more the cape's left loop raises KeyError when the texel (h, h) is opaque |
| Atlas.QuadKeys | minepi/skin_render.py:342-346 | the four keys of a cell's quad, in the order listed |
| Atlas.VolumeHolds | minepi/skin_render.py:318-336 | a lookup in the part's lattice succeeds exactly on the keys its loop pairs hold |
| Atlas.QuadKeysHeld | minepi/skin_render.py:338-1623 | every key a face loop of any part reads is held by one of the part's lattice loops |
| Atlas.QuadsResolve | minepi/skin_render.py:338-1623 | for every part, slim or not, every quad of every face finds its four Points, at every hd_ratio of at least 1 |
| Atlas.LoopDiffersOnlyOnCapeSides | minepi/skin_render.py:764-806 | the loops used here differ from the loops as written only on the cape's four side faces, and not at all at hd_ratio 1 |
| Atlas.CapeLeftMisses | minepi/skin_render.py:775-784 | as written, at hd_ratio 2 or more the cape's left loop reads key (10h, 1, 1) in its first cell, which no cape lattice loop inserts |
| Atlas.CapeBottomMisses | minepi/skin_render.py:797-806 | as written, at hd_ratio 2 or more the cape's bottom loop reads key (1, 16h, 1) in its first cell, which is not inserted |
| Atlas.TexelInAtlas | minepi/skin_render.py:341-1616 | every texel a face loop reads lies in [0, 64h) x [0, 64h), or in the 22h x 17h cape image |
| Atlas.BackReadsMirrored | minepi/skin_render.py:338-348 | back faces read the atlas right to left: column C - 1 - a, with a row that does not depend on a |
| Atlas.TorsoLayerRows | minepi/skin_render.py:609-715 | the torso layer reads every texel 16 rows below the torso's, not scaled by hd_ratio, over the same loops |
| Atlas.RArmLayerBack | minepi/skin_render.py:905-1011 | the right-arm layer's back starts `start` hd_ratio columns further left than the base's; every other column matches the base |
| Atlas.HelmetBottomColumn | minepi/skin_render.py:498-510 | the helmet's bottom reads the single column 48h + 1 for every cell |
| Atlas.SlimArmBounds | minepi/skin_render.py:808-1106 | `start` is not scaled in the slim arms' loop bounds: the right arm skips one cell and the left arm's last cell is (4 - start) * h - 1 |
| Generate.GenFailStays | minepi/skin_render.py:300-1623 | once a block raises, `generate_polygons` raises that exception |
| Generate.GenPartsListed | minepi/skin_render.py:316-1623 | each of the thirteen parts has exactly one block |
| Generate.FacesOutcomePass | minepi/skin_render.py:338-409 | a part's face loops pass exactly when every loop that runs yields its quads |
| Generate.GenOutcomePass | minepi/skin_render.py:300-1623 | `generate_polygons` returns exactly when the slim test does not raise and every face loop that runs yields its quads |
| Generate.WellSizedPasses | minepi/skin_render.py:300-1623 | a skin of at least 64h x 64h, and a cape image of at least 22h x 17h where the cape is built, never make `generate_polygons` raise |
| Generate.OnlyHeadWhenHeadOnly | minepi/skin_render.py:411-512 | with `head_only` only the head's and helmet's loops run; the cape's loops run only with a cape shown and never in the legacy renderer; the helmet's only with hair shown |
| Blocks.LoopsOf | minepi/skin_render.py:338-409 | the six face loops of a part, in source order, with the slim shift |
| Blocks.JobMatches | minepi/skin_render.py:808-903 | a face loop run with `start` = s is the value-level run's |
| Blocks.BlockMatches | minepi/skin_render.py:808-1623 | the loops of a block equal those of the value-level run whatever shift the block runs with |
| Blocks.FacesFailStays | minepi/skin_render.py:338-409 | once a face loop raises, the part's outcome is that exception |
| Blocks.EnterFace | minepi/skin_render.py:338-348 | face loop j runs only when the part is built and the face passes its visibility test; the face's list becomes the loop's Polygons |
| Blocks.FaceLoops | minepi/skin_render.py:338-409 | the six face loops of a block in source order: the first exception raised, or the face lists of the value-level run |
| Blocks.BlockPolygons | minepi/skin_render.py:316-409 | a part's block, lattice then face loops, raises what the value-level run raises and otherwise yields the part's face lists |
| Blocks.PartPolygons | minepi/skin_render.py:512-1623 | the block of a part of a render run with `start` = s |
| Blocks.Block | minepi/skin_render.py:411-512 | a part that is not built keeps its six empty face lists |
| Body.VisiblePartsDistinct | minepi/skin_render.py:152-165 | each part has one entry in `visible_faces` |
| Faces.CornerLabels | minepi/skin_render.py:187-298 | the three faces that meet at each of the eight corners of the unit cube |
| Faces.CornerLabelsSides | minepi/skin_render.py:187-298 | each corner names exactly one face of each opposite pair: back/front, right/left, top/bottom |
| Faces.Complement | minepi/skin_render.py:182 | the faces of `all_faces` the labels leave out, in `all_faces` order |
| Faces.ComplementMembers | minepi/skin_render.py:182 | the complement holds exactly the faces not among the labels |
| Faces.CornerSplit | minepi/skin_render.py:181-182 | back and front of a corner split the six faces three and three, one of every opposite pair on each side |
| Faces.ArgMinFirst | minepi/skin_render.py:173-179 | the corner loop's choice: the current best is replaced only by a strictly smaller depth |
| Faces.ArgMinFirstIsMin | minepi/skin_render.py:173-179 | the index picked holds a smallest depth, and every earlier depth is strictly larger |
| Faces.ArgMinFirstUnique | minepi/skin_render.py:173-179 | any index with those two properties is the one picked |
| Faces.CubeDepths | minepi/skin_render.py:173-179 | the depths of a cube's eight corners, in the order they are appended |
| Faces.AccumDepths | minepi/skin_render.py:169-179 | the depths `cube_points` holds after several parts: every earlier cube keeps the angles of its own part |
| Faces.SweepStep | minepi/skin_render.py:169-182 | one round of the part loop: earlier corners keep their rotations, the new cube turns with the part's angles |
| Faces.SweptSeqMarks | minepi/skin_render.py:169-179 | after n rounds entry i is corner i % 8 of cube i / 8, turned once with that cube's part's angles |
| Faces.SweptSeqDepths | minepi/skin_render.py:169-179 | round n scans the depths of all n + 1 cubes so far, each with its own part's angles |
| Faces.SweptBackIsAccumBack | minepi/skin_render.py:169-181 | part n is given the labels of the first deepest of all 8(n + 1) corners |
| Faces.SweptBacksAt | minepi/skin_render.py:169-181 | entry m of the stored back labels is what part m is given |
| Faces.LoneCube | MinePI/skin_render.py:401-424 | a cube scanned on its own yields its own depths, and the final pass those of the unturned cube |
| Faces.LoneBacksAt | MinePI/skin_render.py:401-413 | in the legacy renderer part m's back labels are those of its own cube |
| Faces.FirstPartAlone | minepi/skin_render.py:169-181 | the head's cube is scanned alone, so both renderers give the head the same faces |
| Faces.EarlierBestStays | minepi/skin_render.py:173-179 | an earlier corner at least as deep as every corner of the next cube stays the best |
| Faces.HeadCornerLeaks | minepi/skin_render.py:169-181 | when the head holds a corner at least as deep as all of the torso's, the torso gets that corner's labels whatever its own deepest corner is |
| Faces.LeakWitness | minepi/skin_render.py:169-181 | concrete angles where this happens: a head turned 90 degrees puts its x = 1 corners deepest, the unturned torso its z = 0 corners |
| Mesh.PivotStays | minepi/skin_render.py:1828-1836 | the turn of `pre_project` about the pivot (dx, dy, dz) leaves the pivot itself where it is, whatever the angles |
| Mesh.NoTurnIsIdentity | minepi/skin_render.py:1828-1836 | with both angles zero the rotation changes nothing |
| Mesh.TurnKeepsLength | minepi/skin_render.py:1828-1836 | a turn keeps the distance to the pivot whenever each (cos, sin) pair lies on the unit circle |
| Mesh.PlaneTurnKeepsLength | minepi/skin_render.py:1833-1835 | a plane rotation with cos^2 + sin^2 = 1 keeps the length |
| Mesh.Camera.constructor | minepi/skin_render.py:79-87 | the box starts as the single point (0, 0), so it holds the origin, and the view is not yet set |
| Mesh.Camera.Widen | minepi/skin_render.py:1849-1852 | the box grows just enough to hold the new point: the min/max updates; it still holds the origin |
| Mesh.Camera.AlwaysHoldsOrigin | minepi/skin_render.py:84-87 | since the box starts at 0 and is only widened by `min`/`max`, it always holds the origin, so its width and height are never negative |
| Mesh.GrownBoxHolds | minepi/skin_render.py:1849-1852 | the box only grows, so whatever it held it still holds |
| Mesh.Point.constructor | minepi/skin_render.py:1813-1826 | a new Point at its model coordinates, neither pre-projected nor projected |
| Mesh.Point.PreProject | minepi/skin_render.py:1828-1836 | the first call turns the model coordinates about the pivot and sets the flag; every later call changes nothing |
| Mesh.Point.Project | minepi/skin_render.py:1838-1852 | the destination is the view rotation of the model coordinates, the box is widened to contain it |
| Mesh.Point.GetDepth | minepi/skin_render.py:1854-1857 | projects only when not yet projected and returns the destination depth |
| Mesh.PngDrawsArePrefixes | minepi/skin_render.py:1884-1905 | every draw call is a prefix of the Polygon's screen points, at least two long, in its colour, at most one per dot |
| Mesh.LegacyPngScan | MinePI/skin_render.py:1735-1756 | with `== None` the reference coordinates are the first dot's, and a flag stays set while every dot so far shares it |
| Mesh.LegacyDrawsWhenSpread | MinePI/skin_render.py:1735-1756 | the legacy version draws the prefix ending at a dot exactly when it holds a dot off the first dot's x and one off its y |
| Mesh.FalsyScanAgrees | minepi/skin_render.py:1892-1901 | `if not coord_x` and `if coord_x == None` agree when the first dot has non-zero x and y |
| Mesh.FalsyDrawsAgree | minepi/skin_render.py:1884-1905 | so then both versions issue the same draw calls |
| Mesh.FalsyQuirk | minepi/skin_render.py:1892-1905 | for any box corner and ratio, a quad whose first two dots sit at x = 0.0 with different y, and whose last two share a non-zero x, is never drawn by the current version, while the legacy one draws its three-dot and four-dot prefixes |
| Mesh.ScreenInCanvas | minepi/skin_render.py:1902 | a dot inside the box maps into [0, (max_x - min_x) * ratio] x [0, (max_y - min_y) * ratio] |
| Mesh.Polygon.constructor | minepi/skin_render.py:1864-1869 | a new Polygon over the given dots and colour, not projected |
| Mesh.Polygon.PreProject | minepi/skin_render.py:1913-1915 | every dot's `pre_project`, so a dot shared with a Polygon turned earlier keeps its first rotation |
| Mesh.Polygon.Project | minepi/skin_render.py:1907-1911 | projects each dot not yet projected; afterwards every dot is at the view rotation of its model coordinates and in the box |
| Mesh.Polygon.AddPngPolygon | minepi/skin_render.py:1884-1905 | the draw calls of the current version (`if not coord_x`) |
| Mesh.Polygon.AddPngPolygonLegacy | MinePI/skin_render.py:1735-1756 | the draw calls of the legacy version (`== None`) |
| Mesh.Polygon.PngLoop | minepi/skin_render.py:1892-1905 | the dot loop shared by both versions: a draw call for every prefix whose dots already differ in x and in y |
| Pose.BodyAngles | minepi/skin_render.py:111-149 | `body_angles` holds every part (not the cape in the legacy renderer), each with its angles from the request |
| Pose.PartsListed | minepi/skin_render.py:301-315 | `polygons` has a dictionary for every part |
| Pose.Pivot | minepi/skin_render.py:1625-1670 | the joint of a part: the neck for head and helmet, the torso top for the cape, the shoulders and hips; only the torso and its layer have none |
| Pose.LayersTurnWithBase | minepi/skin_render.py:1625-1670 | a second layer and the helmet turn about the same joint with the same angles as their base part |
| Pose.RotatedPartsHaveJoints | minepi/skin_render.py:1625-1670 | a part that turns has a joint, and the angles it reads exist |
| Pose.RestPose | minepi/skin_render.py:111-149 | with every request angle zero the view is the identity and no part moves |
| Order.Triples | minepi/skin_render.py:1708-1809 | three entries per part: layer back faces, base front faces, layer front faces |
| Order.CapeIf | minepi/skin_render.py:1710-1711 | the cape entry with the cape's visible faces when shown, never in the legacy renderer |
| Order.Limbs | minepi/skin_render.py:1713-1753 | the fifteen entries of the limbs and the torso |
| Order.DisplayOrderLength | minepi/skin_render.py:1708-1809 | the display order has 19 entries, 18 in the legacy renderer |
| Order.CapePlacement | minepi/skin_render.py:1708-1809 | the cape is drawn first when "front" is a torso front face, otherwise once after the limbs, and nowhere else |
| Order.CapeEntry | minepi/skin_render.py:1710-1711 | a cape entry draws the cape's own visible faces |
| Order.LimbsNoCape | minepi/skin_render.py:1713-1753 | the limbs and torso hold no cape entry |
| Order.TriplesParts | minepi/skin_render.py:1708-1809 | the triples of the limbs and torso hold no cape entry |
| Order.HeadPlacement | minepi/skin_render.py:1713-1809 | the head triple closes the list when "top" is visible and opens it, after any cape drawn first, otherwise |
| Order.BaseFramedByLayer | MinePI/skin_render.py:1572-1664 | in every branch, each base part is drawn between its layer's hidden faces and its layer's visible faces |
| Raster.Int | minepi/skin_render.py:1694 | Python's `int()` of a float: truncation toward zero |
| Raster.Scale | minepi/skin_render.py:1682-1687 | the scale is `ratio` raised to 2, doubled under anti-aliasing: always at least 2, even and at least 4 under anti-aliasing |
| Raster.ScreenInBox | minepi/skin_render.py:1902 | a dot in the box maps into [0, ratio * w] x [0, ratio * h] |
| Raster.PolygonInRect | minepi/skin_render.py:1884-1905 | a Polygon with dots in the box draws inside [0, ratio * w] x [0, ratio * h] |
| Raster.HalfOfInt | minepi/skin_render.py:1689-1705 | `int(a / 2) == int(a) // 2` for a >= 0 |
| Raster.Sized | minepi/skin_render.py:1680-1705 | the canvas is `int(scale * width + 1)` x `int(scale * height + 1)`; without anti-aliasing the image is the canvas |
| Raster.SizedHalves | minepi/skin_render.py:1689-1705 | under anti-aliasing the image is half the canvas, rounded down, on each side whose box is not inverted |
| Raster.SizedHalved | minepi/skin_render.py:1689-1705 | for a box that is not inverted, the image is half the canvas on both sides whenever anti-aliasing is on |
| Raster.SizedInCanvas | minepi/skin_render.py:1694-1702 | draw calls inside [0, scale * width] x [0, scale * height] land on the canvas |
| Render.RotationOrderCovers | minepi/skin_render.py:1625-1670 | `member_rotation` visits every part that turns: only the torso and its layer are left out |
| Render.MadeComplete | minepi/skin_render.py:301-315 | once every block has made its part, every part has its six face lists |
| Render.Render.constructor | minepi/skin_render.py:40-87 | a new render: the cape is shown only when asked for and the player has a cape image (never in the legacy renderer), the box is (0, 0), `cube_points` and `polygons` are empty |
| Render.Render.CalculateAngles | minepi/skin_render.py:111-149 | the view rotation and the angles of every part |
| Render.Render.AppendCorner | minepi/skin_render.py:188-197 | one `append`: a new Point at corner c with the three faces meeting there |
| Render.Render.SetCubePoints | minepi/skin_render.py:187-298 | eight new Points at the unit cube's corners with their labels, appended to `cube_points`; the legacy renderer empties the list first |
| Render.Render.Visit | minepi/skin_render.py:173-179 | one corner: pre-projected and projected, and whether it replaces the best so far (the first corner, or one strictly shallower than the best) |
| Render.Render.ScanCube | minepi/skin_render.py:173-179 | the corner loop over all of `cube_points`: the index picked is the first of strictly smallest depth |
| Render.Render.ScanPart | minepi/skin_render.py:169-179 | one round of the part loop: the winner is the first deepest of all 8(n + 1) corners so far |
| Render.Render.EnterPart | minepi/skin_render.py:169-182 | one round enters the winner's labels as the part's back faces and their complement as its front faces |
| Render.Render.SweepParts | minepi/skin_render.py:169-182 | the part loop: part n gets the labels of the first deepest of all 8(n + 1) corners, earlier cubes keeping their own rotations |
| Render.Render.DetermineFacesCurrent | minepi/skin_render.py:151-185 | the part loop, then the model-wide front faces are the torso's and the back faces their complement |
| Render.Render.LoneScan | MinePI/skin_render.py:403-424 | a cube of its own, scanned with the part's angles or only projected: its first deepest corner's labels |
| Render.Render.EnterLone | MinePI/skin_render.py:401-413 | one legacy round: the part's own cube gives its back faces, their complement its front faces |
| Render.Render.SweepLone | MinePI/skin_render.py:401-413 | the legacy part loop: every part gets the back of its own cube |
| Render.Render.FinalCube | MinePI/skin_render.py:415-424 | the model-wide faces come from an unturned cube under the view rotation only |
| Render.Render.DetermineFacesLegacy | MinePI/skin_render.py:384-424 | the legacy part loop, then the final unturned cube gives the model-wide back faces and their complement the front faces |
| Render.Render.Store | minepi/skin_render.py:338-409 | enters a part's face dictionary without touching the other parts |
| Render.Render.EnterBlock | minepi/skin_render.py:316-409 | a part's block: outcome of its face loops; on success the part's face lists are the value-level run's; other parts unchanged |
| Render.Render.ResetPolygons | minepi/skin_render.py:301-315 | six empty face lists for every part |
| Render.Render.Step | minepi/skin_render.py:808 | block n, with the slim test where it sits: outcome of the first n + 1 blocks and the shift from then on |
| Render.Render.GeneratePolygons | minepi/skin_render.py:300-1623 | outcome of all blocks; on success every part's face lists are the value-level run's and all six face lists of every part exist |
| Render.Render.RunBlocks | minepi/skin_render.py:316-1623 | the blocks in source order, with the same outcome and face lists |
| Render.Render.RotateFace | minepi/skin_render.py:1626-1628 | every dot of the face's Polygons is pre-projected and sits at its posture |
| Render.Render.RotatePart | minepi/skin_render.py:1626-1628 | every dot of the part's Polygons is pre-projected and sits at its posture |
| Render.Render.MemberRotation | minepi/skin_render.py:1625-1670 | every dot of a part's Polygons is turned once about the part's joint if the part turns, and stays where it was made otherwise |
| Render.Render.ProjectPolygon | minepi/skin_render.py:1676-1677 | the Polygon is projected, model coordinates untouched |
| Render.Render.ProjectFace | minepi/skin_render.py:1675-1677 | every Polygon of the face is projected, earlier projections kept |
| Render.Render.ProjectPart | minepi/skin_render.py:1674-1677 | every Polygon of the part is projected |
| Render.Render.CreateProjectPlan | minepi/skin_render.py:1672-1677 | every dot is projected with the view and lies in the box; model coordinates and view unchanged |
| Render.Render.DrawPolygon | minepi/skin_render.py:1702 | the draw calls of one Polygon in the render's own version stay inside the scaled box |
| Render.Render.DrawPolys | minepi/skin_render.py:1701-1702 | the Polygons of one face list, in order, and their draw calls stay inside the scaled box |
| Render.Render.DrawEntry | minepi/skin_render.py:1699-1702 | the faces of one display-order entry, in order |
| Render.Render.DrawOrder | minepi/skin_render.py:1698-1702 | the display order, entry by entry |
| Render.Render.DisplayImage | minepi/skin_render.py:1679-1706 | the canvas size from the scale and box, the draw calls of the display order, the image half the canvas on both sides under anti-aliasing (the box always holds the origin), and every drawn point on the canvas |
| Images.GetPixel | minepi/skin.py:109 | `getpixel` raises IndexError outside the image and returns the pixel inside |
| Images.NewCanvas | minepi/skin.py:50-51 | a transparent canvas of the given size with the source pasted at (0, 0), clipped |
| Images.ApplyPaste | minepi/skin.py:57 | one mirrored crop pasted at its corner, clipped to the canvas; every other pixel is kept |
| Images.UpgradedCases | minepi/skin.py:50-62 | a pixel outside every box keeps the base paste; one inside box k shows that box's mirrored source pixel |
| Skins.UpgradeSkin | minepi/skin.py:49-64 | the 64 x 64 upgrade of a 32-row skin: the base paste, then the twelve mirrored boxes |
| Skins.SkinUpgradeDisjoint | minepi/skin.py:53-62 | the twelve boxes never overlap |
| Skins.UpgradeKeepsTop | minepi/skin.py:49-51 | rows 0-31 of the upgrade are the old skin |
| Skins.UpgradeMirrorsBox | minepi/skin.py:53-62 | a pixel inside box k shows the horizontally mirrored source box |
| Skins.UpgradeRestTransparent | minepi/skin.py:50 | below row 31, every pixel outside the twelve boxes is (0, 0, 0, 0) |
| Skins.EncodeFrame | minepi/skin.py:149-172 | the skin part, then `;` and the cape part exactly when a cape is held |
| Skins.Split | minepi/skin.py:188 | `str.split(";")`, empty pieces included |
| Skins.SplitPieces | minepi/skin.py:188 | one piece more than there are separators, and no piece holds one |
| Skins.DecodeFrame | minepi/skin.py:188-202 | exactly one `;` is needed; an empty cape part means no cape |
| Skins.SplitJoin | minepi/skin.py:188 | splitting `a;b` with no `;` in a or b gives [a, b] |
| Skins.FrameRoundTrip | minepi/skin.py:149-204 | as written, a skin saved with a cape reads back as the same two parts; one saved without a cape fails the two-way unpack |
| Skins.DecodeSaved | minepi/skin.py:174-202 | the documented reading: one piece is a skin without a cape, two pieces a skin and cape, more is ValueError; on strings with exactly one `;` it agrees with the unpack as written |
| Skins.SavedRoundTrip | minepi/skin.py:149-204 | every saved skin, with or without a cape, reads back as its skin and cape |
| Skins.Skin.constructor | minepi/skin.py:26-64 | stores the cape through `set_cape`, and replaces a 32-row skin by its 64 x 64 upgrade |
| Skins.Skin.HasCape | minepi/skin.py:100-102 | true exactly when a cape image is held |
| Skins.Skin.IsSlim | minepi/skin.py:105-109 | true exactly when the alpha of pixel (46, 52) is 0; IndexError when the image lacks that pixel |
| Skins.Skin.SetCape | minepi/skin.py:111-132 | the image stored is the one given, with its own size |
| Skins.UpgradedSlimPixel | minepi/skin.py:62 | pixel (46, 52) of the upgrade holds pixel (41, 20) of the old skin |
| Skins.OldSkinSlim | minepi/skin.py:49-64 | a skin made from a 32-row image is slim exactly when pixel (41, 20) of that image is transparent |
| Players.NormalizeUuid | minepi/player.py:97-101 | a given uuid loses every "-" and must then be 32 characters, else ValueError; no uuid means no check |
| Players.NormalizeIdempotent | minepi/player.py:97-101 | a normalised uuid passes the check again unchanged |
| Players.NormalizeBothSpellings | minepi/player.py:97-101 | the dashed and undashed spellings of an id normalise to the same undashed id |
| Players.PasteCorner | minepi/player.py:223 | `paste` with an int box raises TypeError; a corner pair pastes there |
| Players.InitializeBaseBoxRaises | minepi/player.py:223 | the box 0 passed at this line raises TypeError, while (0, 0) pastes at the origin |
| Players.LookupUuid | minepi/player.py:182-184 | the name lookup's id as written: KeyError exactly when the answer has no "uuid", else that value with its dashes removed |
| Players.LookupId | MinePI/skin_render.py:264-268 | the corrected read of the same answer, under "id" as the legacy renderer reads it: KeyError exactly when "id" is missing, else the id undashed |
| Players.IdOnlyAnswer | minepi/player.py:184 | an answer carrying only "id" makes the as-written read raise KeyError, while the corrected read yields the 32-digit id from either spelling |
| Players.Player.constructor | minepi/player.py:74-96 | the fields `__init__` sets once the uuid has passed its check |
| Players.Player.HasCape | minepi/player.py:147-149 | true exactly when a non-empty cape url is known (Python truthiness: an empty url is no cape), whether or not an image is held |
| Players.EmptyCapeUrlDownloaded | minepi/player.py:204-217 | after the texture step, `has_cape` is true exactly when the "CAPE" entry holds a non-empty url, and a cape image is held exactly when it holds a url, so an empty url is downloaded yet reported as no cape |
| Players.Player.IsSlim | minepi/player.py:152-154 | the slim flag as stored |
| Players.Player.Initialize | minepi/player.py:156-248 | ValueError with neither uuid nor name; KeyError when the name lookup answers without "uuid"; otherwise UnboundLocalError exactly when no uuid is known after the lookup or the profile request fails, NotImplementedError when the profile has no "textures" property, KeyError exactly when the skin url or a present "CAPE" entry's url is missing, and else success exactly when the slim probe finds its pixel; on success the uuid (from "uuid", undashed) and name are filled in and the textures loaded |
| Players.Player.LoadTextures | minepi/player.py:203-243 | KeyError exactly when `textures["SKIN"]["url"]` is missing or "CAPE" is a key without "url"; otherwise fails (IndexError) exactly when a passed-in skin without a slim flag lacks pixel (46, 52), and on success sets the urls, the images (a 32-row skin replaced by its upgrade), and the slim flag from the metadata or from pixel (46, 52) |
| Players.NewPlayer | minepi/player.py:74-101 | a Player exactly when the uuid check passes, else ValueError |
| Players.OldSkinPlayerSlim | minepi/player.py:221-243 | a player initialised from a 32-row skin is slim exactly when pixel (41, 20) of that skin is transparent |
| Uuids.DashedLayout | minepi/utils.py:31-44 | the dashed form is four characters longer and keeps the input's characters in order between the dashes |
| Uuids.DashedOf32 | minepi/utils.py:44 | a 32-character id becomes 36 characters with dashes exactly at 8, 13, 18 and 23 |
| Uuids.UndashedSpec | minepi/utils.py:47-60 | no dash is left, every other character is kept in order, and a dash-free string is unchanged |
| Uuids.UndashedIdempotent | minepi/utils.py:60 | removing dashes twice is removing them once |
| Uuids.UndashDashed | minepi/utils.py:31-60 | dashing a dash-free id and removing the dashes gives it back |
| Uuids.DashUndashed | minepi/utils.py:31-60 | removing the dashes of an 8-4-4-4-12 id and dashing it again gives it back |
| Uuids.LabymodId | minepi/utils.py:384-385 | the id is dashed only when it is 32 characters long |
| Uuids.MinecraftCapesId | minepi/utils.py:532-533 | the id is undashed only when it is 36 characters long |
| Uuids.ServiceIdsRoundTrip | minepi/utils.py:384-385 | a dash-free 32-character id survives both services' formats, and a dashed 36-character id the opposite trip |
| Uuids.CheckFetchArgs | minepi/utils.py:172-173 | ValueError exactly when player, name and uuid are all missing |
| Legacy.FixOldSkins | MinePI/skin_render.py:311-346 | a canvas as wide as the skin and 64 rows high showing the skin pasted at (0, 0) and the twelve mirrored boxes |
| Legacy.OldSkinFixDisjoint | MinePI/skin_render.py:316-344 | the twelve boxes never overlap and lie in rows 48-63 |
| Legacy.FixKeepsTop | MinePI/skin_render.py:313-314 | rows 0-31 of the fixed skin are the old skin |
| Legacy.FixMirrorsBox | MinePI/skin_render.py:316-344 | a pixel inside box k shows the source box read right to left |
| Legacy.FixRestTransparent | MinePI/skin_render.py:313 | for a 32-row skin every pixel below row 31 outside the boxes is (0, 0, 0, 0) |
| Legacy.FixAndUpgradeDiffer | MinePI/skin_render.py:316-344 | the same boxes and sources as the upgrade of minepi/skin.py at row 48, but a different source at x = 20, 24 and 28 of row 52 |
| Legacy.PrepareSkin | MinePI/skin_render.py:298-301 | `hd_ratio` is the width over 64, and only a 32-row skin is fixed |
| Legacy.IdVerdict | MinePI/skin_render.py:272-291 | a 32-character id of hex digits passes; another 32-character id is "UUID is invalid"; any other length "Invalid Username or UUID" |
| Legacy.CheckId | MinePI/skin_render.py:272-276 | the character loop decides as the verdict says |
| Legacy.ResolveId | MinePI/skin_render.py:260-276 | a short user without a lookup answer is "Username is invalid"; otherwise the dashes are removed and the id checked |
| Legacy.DashedIdAccepted | MinePI/skin_render.py:268-275 | a dashed spelling of a hex id passes as the id itself |
| Legacy.NameAt | MinePI/skin_render.py:166-199 | the last name without a timestamp; IndexError for an empty history |
| Legacy.ToName | MinePI/skin_render.py:186-199 | the selection loop returns what the history determines |
| Legacy.ScanPicks | MinePI/skin_render.py:190-199 | the scan picks the latest entry j >= 1 taken before t, or entry 0; KeyError only on an untimed entry |
| Legacy.NameInForce | MinePI/skin_render.py:190-199 | for a timed history in time order, the name in force just before the timestamp |

## Left out

- HTTP: every aiohttp request in `minepi/utils.py`, `Player.initialize` and the legacy `get_skin_mojang`, `to_uuid`, `to_name` and `get_skin`. Their answers are parameters (`lookup`, `profile`, the downloaded images, the name history).
- `MinePI/functions.py` and the `render_3d_*` wrappers are thin wrappers over the HTTP calls. They are not part of this model.
- The orchestration of `get_render` in both renderers is not modelled as one method: the asyncio executor hop, the call sequence `calculate_angles`, `determine_faces`, `generate_polygons`, `member_rotation`, `create_project_plan`, `display_image`. Each stage is a method with its own contract, and the contracts chain. `Legacy.PrepareSkin` models the legacy `get_render`'s skin preparation.
- asyncio: `run_in_executor`, and the `asyncio.Event` of `Player`.
- Trigonometry: `radians`, `sin`, `cos` in `calculate_angles`. The cosines and sines are given reals, and reals are exact (no IEEE-754 rounding).
- PIL: `ImageDraw.polygon` fill, LANCZOS resampling, `convert`, PNG save and open, base64. `display_image` yields the draw calls and the sizes instead of pixels. `encodeb64`/`decodeb64` model only the `;` framing of the already encoded parts.
- `Polygon.face` and `face_depth` are computed but never read.
- `Legacy.Lower` models `str.lower()` only for ASCII capitals. Unicode case mapping is not modelled; no other character can become a hex digit.
- Render.Render.DetermineFacesCurrent: requires an empty `cube_points`, that is a fresh render. A second `get_render` on the same object, which would see the corners of the first, is not modelled.
- Players.Player.Initialize: when no request yields a profile, `textures` is never bound and Python raises UnboundLocalError. The model returns that one error whichever request failed; the status codes themselves are folded into the `lookup` and `profile` parameters.
- Players.Player.LoadTextures: uses the upgrade boxes of `Skin.__init__`. The TypeError of the base paste at minepi/player.py:223 is stated separately (see Findings).
- Players.Player.Initialize: the session-server answer is assumed to carry "name", "properties" and, per property, "name" and "value", and a "textures" value that decodes to a dictionary with a "textures" key. A missing one would raise KeyError, and a bad encoding a decoding error, before the modelled reads. The name lookup's answer is read as written, under "uuid" (see Findings).
- The cape's side loops in `generate_polygons` join the back keys to the front keys (k = 0 and k = hd_ratio) rather than k = 0 and k = 1 (see Findings).
- setup.py, the examples, `minepi/__init__.py` and `minepi/errors.py`: packaging, demos and bare exception classes.

## Findings

| source | as written | input that shows it | evidently intended | confidence | as-written member | corrected member |
|---|---|---|---|---|---|---|
| minepi/skin_render.py:764-806 | all four cape side loops read `volume_points[...][...][1]` as the cape's front plane, but the cape lattice stores the front plane at k = hd_ratio; the left and bottom loops then miss keys, and the right and top loops resolve but join k = 0 to the Points at k = 1, inside the cape, so the model draws different side quads even where the source raises nothing | hd_ratio = 2 and an opaque texel (2, 2) of the cape image: the left loop reads key (20, 1, 1), which is not stored, and raises KeyError | the side quads join the back plane (k = 0) to the front plane (k = hd_ratio), and every key resolves | not executed | Atlas.CapeLeftMisses | Atlas.QuadsResolve |
| minepi/skin.py:188 | `skin, cape = b64.split(";")` needs exactly two pieces, while `encodeb64` writes no `;` for a skin without a cape | any skin without a cape: its saved string has one piece and the unpack raises ValueError | accept the skin part alone, as the docstring at minepi/skin.py:178-180 promises | not executed | Skins.FrameRoundTrip | Skins.SavedRoundTrip |
| minepi/player.py:223 | `new_skin_im.paste(self._raw_skin, 0, 0)` passes the int 0 as the box | any 32-row skin passed through `initialize` | `paste(self._raw_skin, (0, 0))`, as in `Skin.__init__` | not executed | Players.InitializeBaseBoxRaises | Players.Player.LoadTextures |
| minepi/player.py:184 | the name lookup reads `resp_dict["uuid"]`, while the legacy renderer reads the answer of the same endpoint under `"id"` (MinePI/skin_render.py:161, 267) | `Player(name="...")` whose lookup answer carries "id" and no "uuid": `initialize` raises KeyError | read `resp_dict["id"]` | plausible, rests on the endpoint's answer format; not executed | Players.LookupUuid | Players.LookupId |
