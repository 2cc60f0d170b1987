/** The UUID string helpers of minepi/utils.py and the argument checks at the
    top of its `fetch_*` coroutines. */
module Uuids {
  import opened Common

  /** Python's `s[i:j]` for 0 <= i <= j: both ends are clamped to the length. */
  function Slice(s: string, i: nat, j: nat): (r: string)
    requires i <= j
    ensures |r| == (if j <= |s| then j - i else if i <= |s| then |s| - i else 0)
    ensures forall k :: 0 <= k < |r| ==> r[k] == s[i + k]
  {
    if |s| <= i then [] else if |s| <= j then s[i..] else s[i..j]
  }

  /** Python's `s[i:]`. */
  function Tail(s: string, i: nat): (r: string)
    ensures |r| == (if i <= |s| then |s| - i else 0)
    ensures forall k :: 0 <= k < |r| ==> r[k] == s[i + k]
  {
    if |s| <= i then [] else s[i..]
  }

  /** `uuid_to_dashed`: the 8-4-4-4-rest grouping joined by "-". */
  function Dashed(u: string): string
  {
    Slice(u, 0, 8) + "-" + Slice(u, 8, 12) + "-" + Slice(u, 12, 16) + "-" + Slice(u, 16, 20) + "-" + Tail(u, 20)
  }

  /** `uuid_to_undashed`: `str.replace("-", "")`. */
  function Undashed(s: string): string
  {
    if s == [] then [] else (if s[0] == '-' then [] else [s[0]]) + Undashed(s[1..])
  }

  /** The five groups of a dashed id, i.e. a string shaped 8-4-4-4-12 whose groups hold no "-". */
  predicate DashedShape(d: string)
  {
    |d| == 36 && d[8] == '-' && d[13] == '-' && d[18] == '-' && d[23] == '-' &&
    forall k :: 0 <= k < 36 && k != 8 && k != 13 && k != 18 && k != 23 ==> d[k] != '-'
  }

  /** The dashed form is four characters longer and keeps the characters of
      the input, in order, between the dashes. */
  lemma DashedLayout(u: string)
    ensures |Dashed(u)| == |u| + 4
    ensures |u| >= 20 ==>
      Dashed(u)[8] == '-' && Dashed(u)[13] == '-' && Dashed(u)[18] == '-' && Dashed(u)[23] == '-'
    ensures |u| >= 20 ==>
      Dashed(u) == u[..8] + "-" + u[8..12] + "-" + u[12..16] + "-" + u[16..20] + "-" + u[20..]
  {
    if |u| >= 20 {
      assert Slice(u, 0, 8) == u[..8];
      assert Slice(u, 8, 12) == u[8..12];
      assert Slice(u, 12, 16) == u[12..16];
      assert Slice(u, 16, 20) == u[16..20];
      assert Tail(u, 20) == u[20..];
    }
  }

  /** A 32-character id becomes a 36-character id with dashes exactly at 8, 13, 18 and 23. */
  lemma DashedOf32(u: string)
    requires |u| == 32 && '-' !in u
    ensures DashedShape(Dashed(u))
  {
    DashedLayout(u);
    var d := Dashed(u);
    forall k | 0 <= k < 36 && k != 8 && k != 13 && k != 18 && k != 23
      ensures d[k] != '-'
    {
      if k < 8 { assert d[k] == u[k]; }
      else if k < 13 { assert d[k] == u[k - 1]; }
      else if k < 18 { assert d[k] == u[k - 2]; }
      else if k < 23 { assert d[k] == u[k - 3]; }
      else { assert d[k] == u[k - 4]; }
    }
  }

  /** Removing dashes distributes over concatenation. */
  lemma {:induction false} UndashedAppend(a: string, b: string)
    ensures Undashed(a + b) == Undashed(a) + Undashed(b)
  {
    if a == [] {
      assert a + b == b;
    } else {
      assert (a + b)[0] == a[0];
      assert (a + b)[1..] == a[1..] + b;
      UndashedAppend(a[1..], b);
    }
  }

  /** `replace("-", "")` leaves no dash, keeps every other character in order,
      and is the identity on dash-free strings. */
  lemma {:induction false} UndashedSpec(s: string)
    ensures '-' !in Undashed(s)
    ensures |Undashed(s)| <= |s|
    ensures '-' !in s ==> Undashed(s) == s
    ensures forall c :: c != '-' ==> (c in Undashed(s) <==> c in s)
    ensures |Undashed(s)| == |s| - multiset(s)['-']
  {
    if s != [] {
      UndashedSpec(s[1..]);
      assert s == [s[0]] + s[1..];
      assert multiset(s) == multiset([s[0]]) + multiset(s[1..]);
    }
  }

  /** `uuid_to_undashed` is idempotent. */
  lemma UndashedIdempotent(s: string)
    ensures Undashed(Undashed(s)) == Undashed(s)
  {
    UndashedSpec(s);
    UndashedSpec(Undashed(s));
  }

  /** Removing the dashes of `a + "-" + b`. */
  lemma UndashedJoin(a: string, b: string)
    ensures Undashed(a + "-" + b) == Undashed(a) + Undashed(b)
  {
    assert a + "-" + b == a + ("-" + b);
    UndashedAppend(a, "-" + b);
    assert ("-" + b)[0] == '-' && ("-" + b)[1..] == b;
  }

  /** Removing the dashes of a dash-free string changes nothing. */
  lemma UndashedNoDash(s: string)
    requires '-' !in s
    ensures Undashed(s) == s
  {
    UndashedSpec(s);
  }

  /** Five dash-free groups joined by dashes lose exactly the four dashes. */
  lemma UndashedGroups(p1: string, p2: string, p3: string, p4: string, p5: string)
    requires '-' !in p1 && '-' !in p2 && '-' !in p3 && '-' !in p4 && '-' !in p5
    ensures Undashed(p1 + "-" + p2 + "-" + p3 + "-" + p4 + "-" + p5) == p1 + p2 + p3 + p4 + p5
  {
    UndashedNoDash(p1); UndashedNoDash(p2); UndashedNoDash(p3); UndashedNoDash(p4); UndashedNoDash(p5);
    var j2 := p1 + "-" + p2;
    var j3 := j2 + "-" + p3;
    var j4 := j3 + "-" + p4;
    UndashedJoin(p1, p2);
    UndashedJoin(j2, p3);
    UndashedJoin(j3, p4);
    UndashedJoin(j4, p5);
  }

  /** Dashing a dash-free id and removing the dashes again gives the id back. */
  lemma UndashDashed(u: string)
    requires '-' !in u
    ensures Undashed(Dashed(u)) == u
  {
    var p1, p2, p3, p4, p5 := Slice(u, 0, 8), Slice(u, 8, 12), Slice(u, 12, 16), Slice(u, 16, 20), Tail(u, 20);
    assert u == p1 + p2 + p3 + p4 + p5;
    assert '-' !in p1 && '-' !in p2 && '-' !in p3 && '-' !in p4 && '-' !in p5;
    UndashedGroups(p1, p2, p3, p4, p5);
  }

  /** Removing the dashes of an 8-4-4-4-12 id and dashing it again gives the id back. */
  lemma DashUndashed(d: string)
    requires DashedShape(d)
    ensures Dashed(Undashed(d)) == d
  {
    var g1, g2, g3, g4, g5 := d[..8], d[9..13], d[14..18], d[19..23], d[24..];
    assert d == g1 + "-" + g2 + "-" + g3 + "-" + g4 + "-" + g5;
    assert '-' !in g1 && '-' !in g2 && '-' !in g3 && '-' !in g4 && '-' !in g5 by {
      assert forall k :: 0 <= k < 8 ==> g1[k] == d[k];
      assert forall k :: 0 <= k < 4 ==> g2[k] == d[k + 9];
      assert forall k :: 0 <= k < 4 ==> g3[k] == d[k + 14];
      assert forall k :: 0 <= k < 4 ==> g4[k] == d[k + 19];
      assert forall k :: 0 <= k < 12 ==> g5[k] == d[k + 24];
    }
    UndashedGroups(g1, g2, g3, g4, g5);
    var u := g1 + g2 + g3 + g4 + g5;
    DashedLayout(u);
    assert u[..8] == g1 && u[8..12] == g2 && u[12..16] == g3 && u[16..20] == g4 && u[20..] == g5;
  }

  /** The id sent to the Labymod and 5zig services: dashed only when 32 characters long. */
  function LabymodId(uuid: string): (r: string)
    ensures |uuid| == 32 ==> |r| == 36
    ensures |uuid| != 32 ==> r == uuid
  {
    DashedLayout(uuid);
    if |uuid| == 32 then Dashed(uuid) else uuid
  }

  /** The id sent to the MinecraftCapes service: undashed only when 36 characters long. */
  function MinecraftCapesId(uuid: string): (r: string)
    ensures |uuid| == 36 ==> '-' !in r
    ensures |uuid| != 36 ==> r == uuid
  {
    UndashedSpec(uuid);
    if |uuid| == 36 then Undashed(uuid) else uuid
  }

  /** A dash-free 32-character id survives the trip through both services' formats,
      and a dashed 36-character id survives the opposite trip. */
  lemma ServiceIdsRoundTrip(u: string, d: string)
    requires |u| == 32 && '-' !in u
    requires DashedShape(d)
    ensures MinecraftCapesId(LabymodId(u)) == u
    ensures LabymodId(MinecraftCapesId(d)) == d
  {
    UndashDashed(u);
    DashUndashed(d);
    UndashedSpec(d);
    assert |Undashed(d)| == 32 by {
      DashedLayout(Undashed(d));
    }
  }

  /** The guard at the top of every `fetch_*` coroutine: at least one of player,
      name and uuid must be given. */
  function CheckFetchArgs(hasPlayer: bool, name: Option<string>, uuid: Option<string>): (r: Outcome)
    ensures r.Fail? <==> !hasPlayer && name.None? && uuid.None?
    ensures r.Fail? ==> r.error.ValueError?
  {
    if !hasPlayer && name.None? && uuid.None? then Fail(ValueError("At least one parameter must be passed"))
    else Pass
  }
}
