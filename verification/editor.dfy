/**
 * The editor window's model: the container's dimensions and current
 * profile, the profile chosen in the selection box, and the export that
 * writes the chosen profile, rescaled to the container, as one LWPOLYLINE
 * per layer.
 */
module Editor {
  import opened Geometry
  import opened Dicts
  import opened ProfileStore

  const DefaultWidth := 400
  const DefaultHeight := 600
  const DefaultThickness := 18

  /** A length in millimetres as the factor `export_dxf` passes on (`mm / 1000`, true division). */
  function Metres(mm: int): (r: real)
    ensures r * 1000.0 == mm as real
    ensures mm >= 0 ==> r >= 0.0
  {
    mm as real / 1000.0
  }

  /** The ranges the dimension spin boxes allow. */
  predicate InRange(width: int, height: int, material: int)
  {
    100 <= width <= 2000 && 100 <= height <= 2000 && 1 <= material <= 50
  }

  /** `Container`: the box being designed, in whole millimetres. */
  class Container {
    var width: int
    var height: int
    var materialThickness: int
    var currentProfile: Option<Profile>

    constructor ()
      ensures width == DefaultWidth && height == DefaultHeight && materialThickness == DefaultThickness
      ensures currentProfile == None
    {
      width := DefaultWidth;
      height := DefaultHeight;
      materialThickness := DefaultThickness;
      currentProfile := None;
    }

    /** `update_dimensions`: the three sizes change, the profile does not. */
    method UpdateDimensions(width: int, height: int, material: int)
      modifies this
      ensures this.width == width && this.height == height && materialThickness == material
      ensures currentProfile == old(currentProfile)
    {
      this.width := width;
      this.height := height;
      materialThickness := material;
    }
  }

  /**
   * The profile `update_profile` shows for a name: only a non-empty name of
   * a stored profile with at least one layer; otherwise nothing changes.
   */
  function Shown(store: ODict<Profile>, name: string): (r: Option<Profile>)
    ensures r.Some? <==> name != "" && name in store.entries && |store.entries[name].keys| > 0
    ensures r.Some? ==> r.value == store.entries[name]
  {
    if name == "" then None
    else match store.Get(name)
      case None => None
      case Some(p) => if |p.keys| == 0 then None else Some(p)
  }

  /** The entities written for a profile: one LWPOLYLINE per non-empty layer, in layer order. */
  function ExportOf(ks: seq<string>, m: map<string, Polyline>): (es: seq<Entity>)
    ensures |es| <= |ks|
    ensures forall i :: 0 <= i < |es| ==> es[i].dxfType == "LWPOLYLINE" && es[i].layer in ks
  {
    if |ks| == 0 then []
    else
      var k := ks[|ks| - 1];
      var es := ExportOf(ks[..|ks| - 1], m);
      if k in m && |m[k]| > 0 then es + [Entity("LWPOLYLINE", k, m[k])] else es
  }

  /** The entities `export_dxf` adds to the new drawing for a profile. */
  function Exported(p: Profile): (es: seq<Entity>)
    ensures |es| <= |p.keys|
    ensures forall i :: 0 <= i < |es| ==> es[i].dxfType == "LWPOLYLINE" && es[i].layer in p.keys
  {
    ExportOf(p.keys, p.entries)
  }

  /**
   * Exactly one LWPOLYLINE per key with a non-empty point list, carrying
   * that key's points, in key order; nothing for the other keys.
   */
  lemma {:induction false} ExportOfExact(ks: seq<string>, m: map<string, Polyline>)
    ensures var es, nk := ExportOf(ks, m), NonEmptyKeys(ks, m);
      && |es| == |nk|
      && forall i :: 0 <= i < |es| ==> nk[i] in m && es[i] == Entity("LWPOLYLINE", nk[i], m[nk[i]])
  {
    if |ks| > 0 {
      ExportOfExact(ks[..|ks| - 1], m);
    }
  }

  /** For a stored profile: the i-th entity written is the i-th layer with its points. */
  lemma ExportedOnePerLayer(p: Profile)
    requires WellFormed(p)
    ensures |Exported(p)| == |p.keys|
    ensures forall i :: 0 <= i < |p.keys| ==>
      p.keys[i] in p.entries && Exported(p)[i] == Entity("LWPOLYLINE", p.keys[i], p.entries[p.keys[i]])
  {
    ExportOfExact(p.keys, p.entries);
    NonEmptyKeysAll(p.keys, p.entries);
  }

  /** The loop of `export_dxf` adding one LWPOLYLINE per non-empty layer. */
  method WriteLayers(q: Profile) returns (es: seq<Entity>)
    ensures es == Exported(q)
  {
    es := [];
    for i := 0 to |q.keys|
      invariant es == ExportOf(q.keys[..i], q.entries)
    {
      assert q.keys[..i + 1][..i] == q.keys[..i];
      var layer := q.keys[i];
      if layer in q.entries && |q.entries[layer]| > 0 {
        es := es + [Entity("LWPOLYLINE", layer, q.entries[layer])];
      }
    }
    assert q.keys[..|q.keys|] == q.keys;
  }

  /** The part of `m` on the keys `ks`. */
  function Restrict(ks: seq<string>, m: map<string, Polyline>): (r: map<string, Polyline>)
  {
    map k | k in ks && k in m :: m[k]
  }

  lemma ExportOfSnoc(ks: seq<string>, k: string, m: map<string, Polyline>)
    requires k in m && |m[k]| > 0
    ensures ExportOf(ks + [k], m) == ExportOf(ks, m) + [Entity("LWPOLYLINE", k, m[k])]
  {
    assert (ks + [k])[..|ks|] == ks;
  }

  lemma LayersOfSnoc(es: seq<Entity>, e: Entity)
    requires Kept(e)
    ensures LayersOf(es + [e]) == LayersOf(es).Put(e.layer, e.points)
  {
    assert (es + [e])[..|es|] == es;
  }

  lemma RestrictSnoc(ks: seq<string>, k: string, m: map<string, Polyline>)
    requires k !in ks && k in m
    ensures ODict(ks, Restrict(ks, m)).Put(k, m[k]) == ODict(ks + [k], Restrict(ks + [k], m))
  {
    assert k !in Restrict(ks, m);
    assert Restrict(ks + [k], m) == Restrict(ks, m)[k := m[k]];
  }

  lemma {:induction false} ReloadPrefix(ks: seq<string>, m: map<string, Polyline>)
    requires Distinct(ks)
    requires forall k :: k in ks ==> k in m && |m[k]| > 0
    ensures LayersOf(ExportOf(ks, m)) == ODict(ks, Restrict(ks, m))
  {
    if |ks| > 0 {
      var init := ks[..|ks| - 1];
      var k := ks[|ks| - 1];
      assert ks == init + [k];
      assert k !in init;
      ReloadPrefix(init, m);
      ExportOfSnoc(init, k, m);
      LayersOfSnoc(ExportOf(init, m), Entity("LWPOLYLINE", k, m[k]));
      RestrictSnoc(init, k, m);
    }
  }

  /**
   * Round trip: loading the exported entities gives back the profile that
   * was exported, layer names, points and layer order alike.
   */
  lemma ExportThenLoad(p: Profile)
    requires WellFormed(p)
    ensures LayersOf(Exported(p)) == p
  {
    ReloadPrefix(p.keys, p.entries);
    assert Restrict(p.keys, p.entries) == p.entries;
  }

  /**
   * `VectorEditor`: the container, the profile store, and the name in the
   * selection box (empty when the store is empty).
   */
  class VectorEditor {
    const container: Container
    const manager: ProfileManager
    var choice: string

    ghost predicate Valid()
      reads this, container, manager
    {
      && manager.Valid()
      && InRange(container.width, container.height, container.materialThickness)
      && (container.currentProfile.Some? ==> WellFormed(container.currentProfile.value))
    }

    /**
     * `__init__`: default container, profiles loaded from the listing, the
     * first listed name selected and shown.
     */
    constructor (listing: seq<DxfFile>)
      ensures Valid() && fresh(container) && fresh(manager)
      ensures manager.profiles == LoadAll(Empty(), listing)
      ensures container.width == DefaultWidth && container.height == DefaultHeight
      ensures container.materialThickness == DefaultThickness
      ensures choice == (if |manager.profiles.keys| > 0 then manager.profiles.keys[0] else "")
      ensures container.currentProfile == Shown(manager.profiles, choice)
    {
      container := new Container();
      var store := new ProfileManager(listing);
      manager := store;
      var names := store.ListProfiles();
      choice := if |names| > 0 then names[0] else "";
      new;
      if |names| > 0 {
        UpdateProfile(names[0]);
      }
    }

    /** `update_profile`: show the named profile if there is one with layers. */
    method UpdateProfile(name: string)
      requires Valid()
      modifies container
      ensures Valid()
      ensures container.currentProfile ==
        if Shown(manager.profiles, name).Some? then Shown(manager.profiles, name) else old(container.currentProfile)
      ensures container.width == old(container.width) && container.height == old(container.height)
      ensures container.materialThickness == old(container.materialThickness)
    {
      if name == "" {
        return;
      }
      var profile := manager.GetProfile(name);
      if profile.None? || |profile.value.keys| == 0 {
        return;
      }
      container.currentProfile := profile;
    }

    /** The selection box changes: its new text is shown as by `update_profile`. */
    method ChooseProfile(name: string)
      requires Valid()
      modifies this, container
      ensures Valid() && choice == name
      ensures container.currentProfile ==
        if Shown(manager.profiles, name).Some? then Shown(manager.profiles, name) else old(container.currentProfile)
      ensures container.width == old(container.width) && container.height == old(container.height)
      ensures container.materialThickness == old(container.materialThickness)
    {
      choice := name;
      UpdateProfile(name);
    }

    /** `update_dimensions`: new sizes, then the chosen profile shown again. */
    method UpdateDimensions(width: int, height: int, material: int)
      requires Valid() && InRange(width, height, material)
      modifies container
      ensures Valid()
      ensures container.width == width && container.height == height
      ensures container.materialThickness == material
      ensures container.currentProfile ==
        if Shown(manager.profiles, choice).Some? then Shown(manager.profiles, choice) else old(container.currentProfile)
    {
      container.UpdateDimensions(width, height, material);
      if choice != "" {
        UpdateProfile(choice);
      }
    }

    /**
     * `export_dxf`: nothing without a file path, a chosen name, a stored
     * profile with layers, or when the rescale fails for a missing side;
     * otherwise the chosen profile rescaled by the container's width and
     * height in metres, one LWPOLYLINE per non-empty layer.
     */
    method ExportDxf(filepath: string) returns (out: Option<seq<Entity>>)
      requires Valid()
      ensures out.Some? <==>
        && filepath != ""
        && Shown(manager.profiles, choice).Some?
        && HasAllSides(manager.profiles.entries[choice])
      ensures out.Some? ==>
        out.value == Exported(Rescale(manager.profiles.entries[choice],
                                      Metres(container.width), Metres(container.height)))
    {
      if filepath == "" {
        return None;
      }
      if choice == "" {
        return None;
      }
      var profile := manager.GetProfile(choice);
      if profile.None? || |profile.value.keys| == 0 {
        return None;
      }
      var scaled := manager.ScaleProfile(choice, Metres(container.width), Metres(container.height));
      match scaled
      case NoProfile =>
        return None;
      case MissingSide =>
        return None;
      case Scaled(q) =>
        var es := WriteLayers(q);
        return Some(es);
    }
  }

  /**
   * What an export writes reloads, through the profile loader, as exactly
   * the rescaled profile: the file holds nothing more and nothing less.
   */
  lemma ExportReloads(p: Profile, scaleX: real, scaleY: real)
    requires WellFormed(p) && HasAllSides(p)
    ensures LayersOf(Exported(Rescale(p, scaleX, scaleY))) == Rescale(p, scaleX, scaleY)
  {
    RescaleLayers(p, scaleX, scaleY);
    ExportThenLoad(Rescale(p, scaleX, scaleY));
  }
}
