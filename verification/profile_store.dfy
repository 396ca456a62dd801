/**
 * The profile store of the vector editor: named profiles, each an
 * insertion-ordered map from layer name to one point list, loaded from the
 * polyline entities of drawing files; and the gap-based rescale that moves
 * whole panel layers apart or together without deforming them.
 */
module ProfileStore {
  import opened Geometry
  import opened Dicts

  /** Layer name -> point list, in the order the layers were first seen. */
  type Profile = ODict<Polyline>

  /** What the store keeps: a valid ordered map with no empty point list. */
  ghost predicate WellFormed(p: Profile)
  {
    p.Valid() && forall k :: k in p.entries ==> |p.entries[k]| > 0
  }

  /** The entity types a profile is read from. */
  predicate IsPolylineType(dxfType: string)
  {
    dxfType == "LWPOLYLINE" || dxfType == "POLYLINE"
  }

  /** An entity that `load_profile` stores: a polyline with at least one point. */
  predicate Kept(e: Entity)
  {
    IsPolylineType(e.dxfType) && |e.points| > 0
  }

  /**
   * The layers of one drawing, entity by entity: a kept polyline writes its
   * points under its layer, replacing what an earlier one wrote there.
   */
  function LayersOf(es: seq<Entity>): (p: Profile)
    ensures WellFormed(p)
  {
    if |es| == 0 then Empty()
    else
      var e := es[|es| - 1];
      var p := LayersOf(es[..|es| - 1]);
      if Kept(e) then p.Put(e.layer, e.points) else p
  }

  /** A layer holds the points of the LAST kept polyline on it. */
  lemma {:induction false} LayersOfLastWins(es: seq<Entity>, i: int)
    requires 0 <= i < |es| && Kept(es[i])
    requires forall j :: i < j < |es| ==> !(Kept(es[j]) && es[j].layer == es[i].layer)
    ensures LayersOf(es).Get(es[i].layer) == Some(es[i].points)
  {
    if i < |es| - 1 {
      var init := es[..|es| - 1];
      assert forall j :: i < j < |init| ==> init[j] == es[j];
      LayersOfLastWins(init, i);
    }
  }

  /**
   * A layer with no kept polyline is absent: other entity types and empty
   * point lists store nothing.
   */
  lemma {:induction false} LayersOfAbsent(es: seq<Entity>, layer: string)
    requires forall j :: 0 <= j < |es| ==> !(Kept(es[j]) && es[j].layer == layer)
    ensures LayersOf(es).Get(layer) == None
  {
    if |es| > 0 {
      var init := es[..|es| - 1];
      assert forall j :: 0 <= j < |init| ==> init[j] == es[j];
      LayersOfAbsent(init, layer);
    }
  }

  /** `os.path.basename` on a POSIX path: what follows the last `/`. */
  function Basename(path: string): (b: string)
    ensures '/' !in b
  {
    var slash := LastIndex(path, '/');
    var b := path[slash + 1..];
    assert '/' !in b by {
      forall j | 0 <= j < |b| ensures b[j] != '/' {
        assert b[j] == path[slash + 1 + j];
      }
    }
    b
  }

  predicate AllDots(s: string)
  {
    forall k :: 0 <= k < |s| ==> s[k] == '.'
  }

  /**
   * `os.path.splitext(name)[0]`: cut at the last dot, unless only dots
   * precede it (a leading-dot name has no extension).
   */
  function StripExtension(name: string): (r: string)
    ensures |r| <= |name| && r == name[..|r|]
    ensures r != name ==> |r| > 0 && name[|r|] == '.'
  {
    var dot := LastIndex(name, '.');
    if dot > 0 && !AllDots(name[..dot]) then name[..dot] else name
  }

  /** The profile's key: the file name without directory or extension. */
  function ProfileName(path: string): (name: string)
    ensures '/' !in name
    ensures |name| <= |Basename(path)| && name == Basename(path)[..|name|]
    ensures name != Basename(path) ==> |name| > 0 && Basename(path)[|name|] == '.'
  {
    var b := Basename(path);
    var name := StripExtension(b);
    assert '/' !in name by {
      forall j | 0 <= j < |name| ensures name[j] != '/' {
        assert name[j] == b[j];
      }
    }
    name
  }

  lemma LastIndexAt(s: string, c: char, k: int)
    requires 0 <= k < |s| && s[k] == c
    requires forall j :: k < j < |s| ==> s[j] != c
    ensures LastIndex(s, c) == k
  {
  }

  /** A `.dxf` file in a directory loads under its stem. */
  lemma DxfProfileName(dir: string, stem: string)
    requires '/' !in stem && !AllDots(stem)
    ensures ProfileName(dir + "/" + stem + ".dxf") == stem
  {
    var path := dir + "/" + stem + ".dxf";
    assert path[|dir|] == '/';
    forall j | |dir| < j < |path| ensures path[j] != '/' {
      if j <= |dir| + |stem| {
        assert path[j] == stem[j - |dir| - 1];
      } else {
        assert path[j] == ".dxf"[j - |dir| - |stem| - 1];
      }
    }
    LastIndexAt(path, '/', |dir|);
    var base := stem + ".dxf";
    assert path[|dir| + 1..] == base;
    assert Basename(path) == base;
    forall j | |stem| < j < |base| ensures base[j] != '.' {
      assert base[j] == ".dxf"[j - |stem|];
    }
    LastIndexAt(base, '.', |stem|);
    assert base[..|stem|] == stem;
  }

  /** What one file contributes: nothing when unreadable, else its layers. */
  function Loaded(store: ODict<Profile>, path: string, content: Option<seq<Entity>>): (r: ODict<Profile>)
    ensures store.Valid() ==> r.Valid()
    ensures content.None? ==> r == store
    ensures content.Some? ==> r.Get(ProfileName(path)) == Some(LayersOf(content.value))
    ensures forall n :: n != ProfileName(path) ==> r.Get(n) == store.Get(n)
    ensures store.Valid() && content.Some? ==>
      r.keys == if ProfileName(path) in store.entries then store.keys else store.keys + [ProfileName(path)]
  {
    match content
    case None => store
    case Some(es) => store.Put(ProfileName(path), LayersOf(es))
  }

  /** A directory entry: its file name, and its entities when it parses. */
  datatype DxfFile = DxfFile(fileName: string, content: Option<seq<Entity>>)

  const ProfileDirectory := "assets/dxf"

  predicate EndsWithDxf(name: string)
  {
    |name| >= 4 && name[|name| - 4..] == ".dxf"
  }

  /** `load_profiles`: every `.dxf` entry of the listing, in listing order. */
  function LoadAll(store: ODict<Profile>, listing: seq<DxfFile>): (r: ODict<Profile>)
    ensures store.Valid() ==> r.Valid()
    ensures forall n :: n in store.entries ==> n in r.entries
  {
    if |listing| == 0 then store
    else LoadEntry(LoadAll(store, listing[..|listing| - 1]), listing[|listing| - 1])
  }

  /** One entry of the listing: a `.dxf` file is loaded from the profile directory. */
  function LoadEntry(before: ODict<Profile>, f: DxfFile): (r: ODict<Profile>)
    ensures !EndsWithDxf(f.fileName) || f.content.None? ==> r == before
  {
    if EndsWithDxf(f.fileName) then Loaded(before, ProfileDirectory + "/" + f.fileName, f.content)
    else before
  }

  /**
   * Load order: names already stored keep their places in front; a name
   * is added at the end when first loaded and never moves afterwards.
   */
  lemma {:induction false} LoadAllKeepsOrder(store: ODict<Profile>, listing: seq<DxfFile>)
    requires store.Valid()
    ensures var r := LoadAll(store, listing);
      |store.keys| <= |r.keys| && r.keys[..|store.keys|] == store.keys
  {
    if |listing| > 0 {
      var before := LoadAll(store, listing[..|listing| - 1]);
      LoadAllKeepsOrder(store, listing[..|listing| - 1]);
      var r := LoadAll(store, listing);
      assert r.keys == before.keys || r.keys == before.keys + [r.keys[|r.keys| - 1]];
      assert r.keys[..|before.keys|] == before.keys;
      assert before.keys[..|store.keys|] == store.keys;
    }
  }

  /**
   * Failure isolation: an entry that does not parse changes nothing, so
   * the listing loads as if it were not there.
   */
  lemma {:induction false} UnreadableFileIgnored(store: ODict<Profile>, listing: seq<DxfFile>, i: int)
    requires 0 <= i < |listing| && listing[i].content == None
    ensures LoadAll(store, listing) == LoadAll(store, listing[..i] + listing[i + 1..])
  {
    var n := |listing|;
    var init, last := listing[..n - 1], listing[n - 1];
    DropEntry(listing, i);
    LoadAllSnoc(store, init, last);
    if i < n - 1 {
      var rest := init[..i] + init[i + 1..];
      UnreadableFileIgnored(store, init, i);
      LoadAllSnoc(store, rest, last);
    }
  }

  lemma LoadAllSnoc(store: ODict<Profile>, front: seq<DxfFile>, f: DxfFile)
    ensures LoadAll(store, front + [f]) == LoadEntry(LoadAll(store, front), f)
  {
    assert (front + [f])[..|front|] == front;
  }

  /** Dropping entry `i` of a listing, seen from its last entry. */
  lemma DropEntry(listing: seq<DxfFile>, i: int)
    requires 0 <= i < |listing|
    ensures var n := |listing|;
      var init, last := listing[..n - 1], listing[n - 1];
      && listing == init + [last]
      && (i == n - 1 ==> listing[..i] + listing[i + 1..] == init)
      && (i < n - 1 ==> listing[..i] + listing[i + 1..] == (init[..i] + init[i + 1..]) + [last])
  {
  }

  /** `'SLOT' in layer` */
  predicate IsSlot(layer: string)
  {
    Contains(layer, "SLOT")
  }

  /** The keys whose point list is non-empty, in key order. */
  function NonEmptyKeys(ks: seq<string>, m: map<string, Polyline>): (r: seq<string>)
    ensures forall k :: k in r <==> k in ks && k in m && |m[k]| > 0
    ensures Distinct(ks) ==> Distinct(r)
  {
    if |ks| == 0 then []
    else
      var init := ks[..|ks| - 1];
      var k := ks[|ks| - 1];
      assert ks == init + [k];
      var r := NonEmptyKeys(init, m);
      if k in m && |m[k]| > 0 then r + [k] else r
  }

  /** The panel layers: non-empty and not a slot, in key order. */
  function PanelLayers(ks: seq<string>, m: map<string, Polyline>): (r: seq<string>)
    ensures forall k :: k in r <==> k in ks && k in m && |m[k]| > 0 && !IsSlot(k)
  {
    if |ks| == 0 then []
    else
      var init := ks[..|ks| - 1];
      var k := ks[|ks| - 1];
      assert ks == init + [k];
      var r := PanelLayers(init, m);
      if k in m && |m[k]| > 0 && !IsSlot(k) then r + [k] else r
  }

  /** The layers whose name contains the marker character. */
  function Marked(ls: seq<string>, c: char): (r: seq<string>)
    ensures forall k :: k in r <==> k in ls && c in k
  {
    if |ls| == 0 then []
    else
      var init := ls[..|ls| - 1];
      var k := ls[|ls| - 1];
      assert ls == init + [k];
      var r := Marked(init, c);
      if c in k then r + [k] else r
  }

  /**
   * A side group: the panel layers whose name contains the marker (`'L'`,
   * `'R'`, `'T'` or `'B'`). One layer may belong to several groups.
   */
  function Side(p: Profile, c: char): (r: seq<string>)
    ensures forall k :: k in r <==> k in p.keys && k in p.entries && |p.entries[k]| > 0 && !IsSlot(k) && c in k
  {
    Marked(PanelLayers(p.keys, p.entries), c)
  }

  /** The gaps are defined only when every side group is non-empty. */
  predicate HasAllSides(p: Profile)
  {
    |Side(p, 'L')| > 0 && |Side(p, 'R')| > 0 && |Side(p, 'T')| > 0 && |Side(p, 'B')| > 0
  }

  function MinXs(p: Profile, ls: seq<string>): (r: seq<real>)
    requires forall l :: l in ls ==> l in p.entries && |p.entries[l]| > 0
    ensures |r| == |ls|
    ensures forall i :: 0 <= i < |ls| ==> r[i] == MinX(p.entries[ls[i]])
  {
    seq(|ls|, i requires 0 <= i < |ls| => MinX(p.entries[ls[i]]))
  }

  function MaxXs(p: Profile, ls: seq<string>): (r: seq<real>)
    requires forall l :: l in ls ==> l in p.entries && |p.entries[l]| > 0
    ensures |r| == |ls|
    ensures forall i :: 0 <= i < |ls| ==> r[i] == MaxX(p.entries[ls[i]])
  {
    seq(|ls|, i requires 0 <= i < |ls| => MaxX(p.entries[ls[i]]))
  }

  function MinYs(p: Profile, ls: seq<string>): (r: seq<real>)
    requires forall l :: l in ls ==> l in p.entries && |p.entries[l]| > 0
    ensures |r| == |ls|
    ensures forall i :: 0 <= i < |ls| ==> r[i] == MinY(p.entries[ls[i]])
  {
    seq(|ls|, i requires 0 <= i < |ls| => MinY(p.entries[ls[i]]))
  }

  function MaxYs(p: Profile, ls: seq<string>): (r: seq<real>)
    requires forall l :: l in ls ==> l in p.entries && |p.entries[l]| > 0
    ensures |r| == |ls|
    ensures forall i :: 0 <= i < |ls| ==> r[i] == MaxY(p.entries[ls[i]])
  {
    seq(|ls|, i requires 0 <= i < |ls| => MaxY(p.entries[ls[i]]))
  }

  /** `min(lo) - max(hi)`: the smallest difference `lo[i] - hi[j]`, attained. */
  function Separation(lo: seq<real>, hi: seq<real>): (gap: real)
    requires |lo| > 0 && |hi| > 0
    ensures forall i, j :: 0 <= i < |lo| && 0 <= j < |hi| ==> gap <= lo[i] - hi[j]
    ensures exists i, j :: 0 <= i < |lo| && 0 <= j < |hi| && gap == lo[i] - hi[j]
  {
    MinOf(lo) - MaxOf(hi)
  }

  /** Positions of a pair that attains the separation. */
  lemma SeparationAt(lo: seq<real>, hi: seq<real>) returns (i: int, j: int)
    requires |lo| > 0 && |hi| > 0
    ensures 0 <= i < |lo| && 0 <= j < |hi| && Separation(lo, hi) == lo[i] - hi[j]
  {
    i, j :| 0 <= i < |lo| && 0 <= j < |hi| && Separation(lo, hi) == lo[i] - hi[j];
  }

  /**
   * The horizontal gap: the smallest left edge of a right-side layer minus
   * the largest right edge of a left-side layer.
   */
  function HorizontalGap(p: Profile): (gap: real)
    requires HasAllSides(p)
    ensures gap <= MinX(p.entries[Side(p, 'R')[0]]) - MaxX(p.entries[Side(p, 'L')[0]])
  {
    Separation(MinXs(p, Side(p, 'R')), MaxXs(p, Side(p, 'L')))
  }

  /** The vertical gap: top-side bottoms against bottom-side tops. */
  function VerticalGap(p: Profile): (gap: real)
    requires HasAllSides(p)
    ensures gap <= MinY(p.entries[Side(p, 'T')[0]]) - MaxY(p.entries[Side(p, 'B')[0]])
  {
    Separation(MinYs(p, Side(p, 'T')), MaxYs(p, Side(p, 'B')))
  }

  /**
   * The horizontal gap is the narrowest separation between a right-side
   * layer and a left-side layer, and some such pair has exactly that
   * separation (it is negative when they overlap).
   */
  lemma HorizontalGapIsNarrowest(p: Profile)
    requires HasAllSides(p)
    ensures forall r, l :: r in Side(p, 'R') && l in Side(p, 'L') ==>
      HorizontalGap(p) <= MinX(p.entries[r]) - MaxX(p.entries[l])
    ensures exists r, l :: (r in Side(p, 'R') && l in Side(p, 'L') &&
      HorizontalGap(p) == MinX(p.entries[r]) - MaxX(p.entries[l]))
  {
    forall r, l | r in Side(p, 'R') && l in Side(p, 'L')
      ensures HorizontalGap(p) <= MinX(p.entries[r]) - MaxX(p.entries[l])
    {
      HorizontalGapBound(p, r, l);
    }
    HorizontalGapAttained(p);
  }

  lemma HorizontalGapBound(p: Profile, r: string, l: string)
    requires HasAllSides(p) && r in Side(p, 'R') && l in Side(p, 'L')
    ensures HorizontalGap(p) <= MinX(p.entries[r]) - MaxX(p.entries[l])
  {
    var rights, lefts := Side(p, 'R'), Side(p, 'L');
    var i :| 0 <= i < |rights| && rights[i] == r;
    var j :| 0 <= j < |lefts| && lefts[j] == l;
    assert HorizontalGap(p) <= MinXs(p, rights)[i] - MaxXs(p, lefts)[j];
  }

  lemma HorizontalGapAttained(p: Profile)
    requires HasAllSides(p)
    ensures exists r, l :: (r in Side(p, 'R') && l in Side(p, 'L') &&
      HorizontalGap(p) == MinX(p.entries[r]) - MaxX(p.entries[l]))
  {
    var rights, lefts := Side(p, 'R'), Side(p, 'L');
    var lo, hi := MinXs(p, rights), MaxXs(p, lefts);
    var i, j := SeparationAt(lo, hi);
    var r, l := rights[i], lefts[j];
    assert HorizontalGap(p) == MinX(p.entries[r]) - MaxX(p.entries[l]);
    assert r in rights && l in lefts;
  }

  /** The vertical counterpart of `HorizontalGapIsNarrowest`. */
  lemma VerticalGapIsNarrowest(p: Profile)
    requires HasAllSides(p)
    ensures forall t, b :: t in Side(p, 'T') && b in Side(p, 'B') ==>
      VerticalGap(p) <= MinY(p.entries[t]) - MaxY(p.entries[b])
    ensures exists t, b :: (t in Side(p, 'T') && b in Side(p, 'B') &&
      VerticalGap(p) == MinY(p.entries[t]) - MaxY(p.entries[b]))
  {
    forall t, b | t in Side(p, 'T') && b in Side(p, 'B')
      ensures VerticalGap(p) <= MinY(p.entries[t]) - MaxY(p.entries[b])
    {
      VerticalGapBound(p, t, b);
    }
    VerticalGapAttained(p);
  }

  lemma VerticalGapBound(p: Profile, t: string, b: string)
    requires HasAllSides(p) && t in Side(p, 'T') && b in Side(p, 'B')
    ensures VerticalGap(p) <= MinY(p.entries[t]) - MaxY(p.entries[b])
  {
    var tops, bottoms := Side(p, 'T'), Side(p, 'B');
    var i :| 0 <= i < |tops| && tops[i] == t;
    var j :| 0 <= j < |bottoms| && bottoms[j] == b;
    assert VerticalGap(p) <= MinYs(p, tops)[i] - MaxYs(p, bottoms)[j];
  }

  lemma VerticalGapAttained(p: Profile)
    requires HasAllSides(p)
    ensures exists t, b :: (t in Side(p, 'T') && b in Side(p, 'B') &&
      VerticalGap(p) == MinY(p.entries[t]) - MaxY(p.entries[b]))
  {
    var tops, bottoms := Side(p, 'T'), Side(p, 'B');
    var lo, hi := MinYs(p, tops), MaxYs(p, bottoms);
    var i, j := SeparationAt(lo, hi);
    var r, l := tops[i], bottoms[j];
    assert VerticalGap(p) == MinY(p.entries[r]) - MaxY(p.entries[l]);
    assert r in tops && l in bottoms;
  }

  /** Every point moved by the same offset: a rigid move keeping the order. */
  function Translate(pts: Polyline, dx: real, dy: real): (r: Polyline)
    ensures |r| == |pts|
    ensures forall i :: 0 <= i < |pts| ==> r[i].x - pts[i].x == dx && r[i].y - pts[i].y == dy
  {
    seq(|pts|, i requires 0 <= i < |pts| => Point(pts[i].x + dx, pts[i].y + dy))
  }

  /**
   * A layer's offset: none across for a layer marked `'L'`, none down for
   * one marked `'T'`; otherwise the gap's growth, new gap minus old gap.
   */
  function LayerOffset(layer: string, hGap: real, vGap: real, scaleX: real, scaleY: real): (off: (real, real))
    ensures 'L' in layer || scaleX == 1.0 ==> off.0 == 0.0
    ensures 'T' in layer || scaleY == 1.0 ==> off.1 == 0.0
    ensures 'L' !in layer ==> off.0 == hGap * (scaleX - 1.0)
    ensures 'T' !in layer ==> off.1 == vGap * (scaleY - 1.0)
  {
    (if 'L' in layer then 0.0 else hGap * scaleX - hGap,
     if 'T' in layer then 0.0 else vGap * scaleY - vGap)
  }

  /** Slots are copied; every other layer is translated by its offset. */
  function MoveLayer(layer: string, pts: Polyline, hGap: real, vGap: real, scaleX: real, scaleY: real): (r: Polyline)
    ensures |r| == |pts|
    ensures IsSlot(layer) ==> r == pts
  {
    if IsSlot(layer) then pts
    else
      var off := LayerOffset(layer, hGap, vGap, scaleX, scaleY);
      Translate(pts, off.0, off.1)
  }

  /**
   * The layers `ks` of `m`, in order, each moved by `MoveLayer`; empty
   * point lists are dropped.
   */
  function MoveLayers(ks: seq<string>, m: map<string, Polyline>, hGap: real, vGap: real, scaleX: real, scaleY: real): (r: Profile)
    ensures forall k :: k in r.entries ==> k in m && |m[k]| > 0
  {
    if |ks| == 0 then Empty()
    else
      var k := ks[|ks| - 1];
      var r := MoveLayers(ks[..|ks| - 1], m, hGap, vGap, scaleX, scaleY);
      if k in m && |m[k]| > 0 then r.Put(k, MoveLayer(k, m[k], hGap, vGap, scaleX, scaleY)) else r
  }

  /**
   * Over distinct keys the moved layers form a well-formed ordered map: the
   * non-empty keys in order, each holding its moved point list.
   */
  lemma {:induction false} MoveLayersShape(ks: seq<string>, m: map<string, Polyline>, hGap: real, vGap: real, scaleX: real, scaleY: real)
    requires Distinct(ks)
    ensures var r := MoveLayers(ks, m, hGap, vGap, scaleX, scaleY);
      && WellFormed(r)
      && r.keys == NonEmptyKeys(ks, m)
      && (forall k :: k in r.entries <==> k in ks && k in m && |m[k]| > 0)
      && (forall k :: k in r.entries ==> r.entries[k] == MoveLayer(k, m[k], hGap, vGap, scaleX, scaleY))
  {
    if |ks| > 0 {
      var init := ks[..|ks| - 1];
      var k := ks[|ks| - 1];
      assert ks == init + [k];
      assert k !in init;
      MoveLayersShape(init, m, hGap, vGap, scaleX, scaleY);
    }
  }

  /** `scale_profile` on a profile whose side groups are all present. */
  function Rescale(p: Profile, scaleX: real, scaleY: real): (r: Profile)
    requires HasAllSides(p)
    ensures forall k :: k in r.entries ==> k in p.entries && |p.entries[k]| > 0
  {
    MoveLayers(p.keys, p.entries, HorizontalGap(p), VerticalGap(p), scaleX, scaleY)
  }

  /**
   * The result has exactly the layers with a non-empty point list, in the
   * input's order, and is itself a well-formed profile.
   */
  lemma RescaleLayers(p: Profile, scaleX: real, scaleY: real)
    requires p.Valid() && HasAllSides(p)
    ensures var r := Rescale(p, scaleX, scaleY);
      && WellFormed(r)
      && r.keys == NonEmptyKeys(p.keys, p.entries)
      && (forall k :: k in r.entries <==> k in p.entries && |p.entries[k]| > 0)
  {
    MoveLayersShape(p.keys, p.entries, HorizontalGap(p), VerticalGap(p), scaleX, scaleY);
  }

  /** Slot layers come back verbatim. */
  lemma RescaleKeepsSlots(p: Profile, scaleX: real, scaleY: real, k: string)
    requires p.Valid() && HasAllSides(p)
    requires k in p.entries && |p.entries[k]| > 0 && IsSlot(k)
    ensures k in Rescale(p, scaleX, scaleY).entries
    ensures Rescale(p, scaleX, scaleY).entries[k] == p.entries[k]
  {
    MoveLayersShape(p.keys, p.entries, HorizontalGap(p), VerticalGap(p), scaleX, scaleY);
  }

  /**
   * Every other layer is moved rigidly by the layer's one offset (see
   * `Translate`).
   */
  lemma RescaleTranslatesPanels(p: Profile, scaleX: real, scaleY: real, k: string)
    requires p.Valid() && HasAllSides(p)
    requires k in p.entries && |p.entries[k]| > 0 && !IsSlot(k)
    ensures k in Rescale(p, scaleX, scaleY).entries
    ensures Rescale(p, scaleX, scaleY).entries[k] ==
      Translate(p.entries[k], LayerOffset(k, HorizontalGap(p), VerticalGap(p), scaleX, scaleY).0,
                              LayerOffset(k, HorizontalGap(p), VerticalGap(p), scaleX, scaleY).1)
  {
    MoveLayersShape(p.keys, p.entries, HorizontalGap(p), VerticalGap(p), scaleX, scaleY);
  }

  lemma {:induction false} NonEmptyKeysAll(ks: seq<string>, m: map<string, Polyline>)
    requires forall k :: k in ks ==> k in m && |m[k]| > 0
    ensures NonEmptyKeys(ks, m) == ks
  {
    if |ks| > 0 {
      var init := ks[..|ks| - 1];
      NonEmptyKeysAll(init, m);
      assert ks == init + [ks[|ks| - 1]];
    }
  }

  /** At scale 1 nothing moves, whatever the gaps. */
  lemma UnitMoveLayer(layer: string, pts: Polyline, hGap: real, vGap: real)
    ensures MoveLayer(layer, pts, hGap, vGap, 1.0, 1.0) == pts
  {
    if !IsSlot(layer) {
      assert LayerOffset(layer, hGap, vGap, 1.0, 1.0) == (0.0, 0.0);
      assert Translate(pts, 0.0, 0.0) == pts;
    }
  }

  /** At scale 1 the moved layers are the layers themselves, whatever the gaps. */
  lemma MoveLayersUnit(p: Profile, hGap: real, vGap: real)
    requires WellFormed(p)
    ensures MoveLayers(p.keys, p.entries, hGap, vGap, 1.0, 1.0) == p
  {
    var r := MoveLayers(p.keys, p.entries, hGap, vGap, 1.0, 1.0);
    MoveLayersShape(p.keys, p.entries, hGap, vGap, 1.0, 1.0);
    NonEmptyKeysAll(p.keys, p.entries);
    forall k | k in p.entries ensures r.entries[k] == p.entries[k] {
      UnitMoveLayer(k, p.entries[k], hGap, vGap);
    }
    assert r.entries == p.entries;
  }

  /** At scale 1 on both axes a stored profile comes back unchanged. */
  lemma RescaleUnit(p: Profile)
    requires WellFormed(p) && HasAllSides(p)
    ensures Rescale(p, 1.0, 1.0) == p
  {
    MoveLayersUnit(p, HorizontalGap(p), VerticalGap(p));
  }

  /**
   * With the drawing's three panel names: LEFTRIGHT (it contains L and T)
   * never moves; FRONTBACK and BOTTOM (no L, but a T) move only across.
   */
  lemma RoleLayerOffsets(hGap: real, vGap: real, scaleX: real, scaleY: real)
    ensures LayerOffset("LEFTRIGHT", hGap, vGap, scaleX, scaleY) == (0.0, 0.0)
    ensures LayerOffset("FRONTBACK", hGap, vGap, scaleX, scaleY) == (hGap * scaleX - hGap, 0.0)
    ensures LayerOffset("BOTTOM", hGap, vGap, scaleX, scaleY) == (hGap * scaleX - hGap, 0.0)
  {
    assert "LEFTRIGHT"[0] == 'L' && "LEFTRIGHT"[3] == 'T';
    assert "FRONTBACK"[4] == 'T' && 'L' !in "FRONTBACK";
    assert "BOTTOM"[2] == 'T' && 'L' !in "BOTTOM";
  }

  /**
   * The layer loop of `scale_profile`: empty layers skipped, slots copied,
   * every other layer translated by the growth of the gaps.
   */
  method MoveAllLayers(original: Profile, hGap: real, vGap: real, scaleX: real, scaleY: real) returns (scaled: Profile)
    requires original.Valid()
    ensures scaled == MoveLayers(original.keys, original.entries, hGap, vGap, scaleX, scaleY)
  {
    var newHGap := hGap * scaleX;
    var newVGap := vGap * scaleY;
    scaled := Empty();
    for i := 0 to |original.keys|
      invariant scaled == MoveLayers(original.keys[..i], original.entries, hGap, vGap, scaleX, scaleY)
    {
      var layer := original.keys[i];
      assert original.keys[..i + 1][..i] == original.keys[..i];
      var points := original.entries[layer];
      if |points| == 0 {
        continue;
      }
      var moved: Polyline;
      if IsSlot(layer) {
        moved := points;
      } else {
        var xOffset := if 'L' in layer then 0.0 else newHGap - hGap;
        var yOffset := if 'T' in layer then 0.0 else newVGap - vGap;
        moved := Translate(points, xOffset, yOffset);
      }
      assert moved == MoveLayer(layer, points, hGap, vGap, scaleX, scaleY);
      scaled := scaled.Put(layer, moved);
    }
    assert original.keys[..|original.keys|] == original.keys;
  }

  /** The outcome of `scale_profile`: no such profile, a side group missing, or the result. */
  datatype Scaling = NoProfile | MissingSide | Scaled(profile: Profile)

  /**
   * `ProfileManager`: the loaded profiles by name, in load order. Every
   * stored profile is well formed.
   */
  class ProfileManager {
    var profiles: ODict<Profile>

    ghost predicate Valid()
      reads this
    {
      profiles.Valid() && forall n :: n in profiles.entries ==> WellFormed(profiles.entries[n])
    }

    /** `__init__`: an empty store, then every `.dxf` file of the listing. */
    constructor (listing: seq<DxfFile>)
      ensures Valid() && profiles == LoadAll(Empty(), listing)
    {
      profiles := Empty();
      new;
      LoadProfiles(listing);
    }

    /**
     * `load_profile`: an unreadable file leaves the store alone; otherwise
     * the file's profile is reset to empty and filled entity by entity.
     */
    method LoadProfile(path: string, content: Option<seq<Entity>>)
      requires Valid()
      modifies this
      ensures Valid()
      ensures profiles == Loaded(old(profiles), path, content)
    {
      if content.None? {
        return;
      }
      var es := content.value;
      var name := ProfileName(path);
      profiles := profiles.Put(name, Empty());
      for i := 0 to |es|
        invariant profiles == old(profiles).Put(name, LayersOf(es[..i]))
      {
        assert es[..i + 1][..i] == es[..i];
        var e := es[i];
        if IsPolylineType(e.dxfType) && |e.points| > 0 {
          PutPut(old(profiles), name, LayersOf(es[..i]), LayersOf(es[..i]).Put(e.layer, e.points));
          profiles := profiles.Put(name, profiles.entries[name].Put(e.layer, e.points));
        }
      }
      assert es[..|es|] == es;
    }

    /** `load_profiles` over a directory listing (empty when the directory is new). */
    method LoadProfiles(listing: seq<DxfFile>)
      requires Valid()
      modifies this
      ensures Valid()
      ensures profiles == LoadAll(old(profiles), listing)
    {
      for i := 0 to |listing|
        invariant Valid()
        invariant profiles == LoadAll(old(profiles), listing[..i])
      {
        assert listing[..i + 1][..i] == listing[..i];
        if EndsWithDxf(listing[i].fileName) {
          LoadProfile(ProfileDirectory + "/" + listing[i].fileName, listing[i].content);
        }
      }
      assert listing[..|listing|] == listing;
    }

    /** `get_profile` */
    function GetProfile(name: string): (r: Option<Profile>)
      reads this
      requires Valid()
      ensures r.Some? <==> name in profiles.entries
      ensures r.Some? ==> r.value == profiles.entries[name] && WellFormed(r.value)
    {
      profiles.Get(name)
    }

    /** `list_profiles`: the names, once each, in load order. */
    function ListProfiles(): (names: seq<string>)
      reads this
      requires Valid()
      ensures names == profiles.keys
      ensures Distinct(names)
      ensures forall n :: n in names <==> GetProfile(n).Some?
    {
      profiles.keys
    }

    /**
     * `scale_profile`: None for an unknown name, the failure of `min`/`max`
     * when a side group is empty, else the profile with every panel layer
     * moved by its offset and every slot layer copied.
     */
    method ScaleProfile(name: string, scaleX: real, scaleY: real) returns (r: Scaling)
      requires Valid()
      ensures name !in profiles.entries ==> r == NoProfile
      ensures name in profiles.entries && !HasAllSides(profiles.entries[name]) ==> r == MissingSide
      ensures name in profiles.entries && HasAllSides(profiles.entries[name]) ==>
        r == Scaled(Rescale(profiles.entries[name], scaleX, scaleY))
    {
      if name !in profiles.entries {
        return NoProfile;
      }
      var original := profiles.entries[name];
      if !HasAllSides(original) {
        return MissingSide;
      }
      var hGap := HorizontalGap(original);
      var vGap := VerticalGap(original);
      var scaled := MoveAllLayers(original, hGap, vGap, scaleX, scaleY);
      r := Scaled(scaled);
    }
  }
}
