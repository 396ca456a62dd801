/**
 * The panel scaler of the DXF viewer: a panel is an outline with slot and
 * cutline polylines; scaling it applies a non-uniform affine scale anchored
 * at the minimum corner of the outline's bounding box, with one factor per
 * axis chosen from the panel's role (which two of width, height and depth
 * its plane spans). Also the per-role grouping of a drawing's polylines into
 * panels, and the scaler object whose factors the viewer overwrites from the
 * target dimensions.
 */
module PanelScaling {
  import opened Geometry

  /** `scale_factors`: one ratio per container dimension. */
  datatype ScaleFactors = ScaleFactors(width: real, height: real, depth: real)

  /** The factors a new scaler starts with. */
  const Unscaled := ScaleFactors(1.0, 1.0, 1.0)

  /** The container the reference drawing was made for, in millimetres. */
  const ReferenceWidth: real := 400.0
  const ReferenceHeight: real := 600.0
  const ReferenceDepth: real := 200.0

  /**
   * The factors for target dimensions: each target divided by the
   * reference dimension, so that factor times reference gives the target
   * back.
   */
  function TargetFactors(width: real, height: real, depth: real): (f: ScaleFactors)
    ensures f.width * ReferenceWidth == width
    ensures f.height * ReferenceHeight == height
    ensures f.depth * ReferenceDepth == depth
  {
    ScaleFactors(width / ReferenceWidth, height / ReferenceHeight, depth / ReferenceDepth)
  }

  /** The reference dimensions themselves leave every factor at 1. */
  lemma ReferenceTargetsAreUnscaled()
    ensures TargetFactors(ReferenceWidth, ReferenceHeight, ReferenceDepth) == Unscaled
  {
  }

  /** A panel's geometry: outline, slots and cutlines, each an ordered polyline. */
  datatype Panel = Panel(outline: Polyline, slots: seq<Polyline>, cutlines: seq<Polyline>)

  datatype Role = LeftRight | FrontBack | Bottom

  /** Role by substring test on the panel name; `LEFTRIGHT` is tested first. */
  function RoleOf(name: string): (r: Role)
    ensures r == LeftRight <==> Contains(name, "LEFTRIGHT")
    ensures r == FrontBack <==> !Contains(name, "LEFTRIGHT") && Contains(name, "FRONTBACK")
  {
    if Contains(name, "LEFTRIGHT") then LeftRight
    else if Contains(name, "FRONTBACK") then FrontBack
    else Bottom
  }

  /**
   * The factors (for the new width, for the new height) a role uses: a
   * side panel spans depth x height, a front or back panel width x height,
   * the bottom width x depth.
   */
  function AxisFactors(role: Role, f: ScaleFactors): (r: (real, real))
    ensures role != LeftRight ==> r.0 == f.width
    ensures role != Bottom ==> r.1 == f.height
    ensures role == LeftRight ==> r.0 == f.depth
    ensures role == Bottom ==> r.1 == f.depth
  {
    match role
    case LeftRight => (f.depth, f.height)
    case FrontBack => (f.width, f.height)
    case Bottom => (f.width, f.depth)
  }

  /** The three panel names of the drawing select the three rows of the table. */
  lemma RoleAxisMapping(f: ScaleFactors)
    ensures AxisFactors(RoleOf("LEFTRIGHT"), f) == (f.depth, f.height)
    ensures AxisFactors(RoleOf("FRONTBACK"), f) == (f.width, f.height)
    ensures AxisFactors(RoleOf("BOTTOM"), f) == (f.width, f.depth)
    ensures RoleOf("FRONTBACK_LEFTRIGHT") == LeftRight
  {
    assert "LEFTRIGHT"[..9] == "LEFTRIGHT";
    assert "FRONTBACK"[..9] == "FRONTBACK";
    assert "FRONTBACK_LEFTRIGHT"[10..] == "LEFTRIGHT";
  }

  /**
   * What the scaler divides by: a non-empty outline whose bounding box has
   * positive width and height.
   */
  predicate Scalable(outline: Polyline)
  {
    |outline| > 0 && MaxX(outline) - MinX(outline) > 0.0 && MaxY(outline) - MinY(outline) > 0.0
  }

  /**
   * The outline's frame: its minimum corner, its extents, and the factors
   * that stretch them.
   */
  datatype Frame = Frame(minX: real, minY: real, width: real, height: real, fx: real, fy: real)

  function FrameOf(name: string, outline: Polyline, f: ScaleFactors): (fr: Frame)
    requires Scalable(outline)
    ensures fr.width > 0.0 && fr.height > 0.0
  {
    var axes := AxisFactors(RoleOf(name), f);
    Frame(MinX(outline), MinY(outline),
          MaxX(outline) - MinX(outline), MaxY(outline) - MinY(outline), axes.0, axes.1)
  }

  lemma CancelExtent(d: real, w: real, f: real)
    requires w != 0.0
    ensures (d / w) * (w * f) == d * f
  {
    calc {
      (d / w) * (w * f);
      ((d / w) * w) * f;
      { assert (d / w) * w == d; }
      d * f;
    }
  }

  /** The affine map v -> corner + (v - corner) * factor along one axis. */
  function Stretch(v: real, corner: real, factor: real): (r: real)
  {
    corner + (v - corner) * factor
  }

  /**
   * One point, stretched about the frame's corner by the frame's factors.
   * The source computes it by normalising against the old extents and
   * multiplying by the new ones; `NormalisedIsStretch` shows the two agree.
   */
  function ScalePoint(p: Point, fr: Frame): (r: Point)
  {
    Point(Stretch(p.x, fr.minX, fr.fx), Stretch(p.y, fr.minY, fr.fy))
  }

  /**
   * `(v - corner) / extent * (extent * factor) + corner`, the source's
   * normalise-then-scale form, is the stretch by `factor` about `corner`.
   */
  lemma NormalisedIsStretch(v: real, corner: real, extent: real, factor: real)
    requires extent != 0.0
    ensures corner + ((v - corner) / extent) * (extent * factor) == Stretch(v, corner, factor)
  {
    CancelExtent(v - corner, extent, factor);
  }

  /** A polyline point by point: same length, same order, each point mapped. */
  function ScalePolyline(pts: Polyline, fr: Frame): (r: Polyline)
    ensures |r| == |pts|
  {
    seq(|pts|, i requires 0 <= i < |pts| => ScalePoint(pts[i], fr))
  }

  function ScaleEach(ls: seq<Polyline>, fr: Frame): (r: seq<Polyline>)
    ensures |r| == |ls|
  {
    seq(|ls|, i requires 0 <= i < |ls| => ScalePolyline(ls[i], fr))
  }

  /**
   * `scale_panel`: the outline, every slot and every cutline are mapped in
   * the OUTLINE's frame (its corner and its extents, never their own).
   */
  function ScaledPanel(name: string, panel: Panel, f: ScaleFactors): (r: Panel)
    requires Scalable(panel.outline)
    ensures |r.outline| == |panel.outline| && |r.slots| == |panel.slots| && |r.cutlines| == |panel.cutlines|
  {
    var fr := FrameOf(name, panel.outline, f);
    Panel(ScalePolyline(panel.outline, fr), ScaleEach(panel.slots, fr), ScaleEach(panel.cutlines, fr))
  }

  /**
   * Structure is preserved: one output polyline per input polyline, each
   * of the same length, and every point of every slot and cutline is placed
   * by the outline's corner and the role's factors.
   */
  lemma ScaledPanelShape(name: string, panel: Panel, f: ScaleFactors)
    requires Scalable(panel.outline)
    ensures var r := ScaledPanel(name, panel, f);
      && |r.outline| == |panel.outline|
      && |r.slots| == |panel.slots|
      && |r.cutlines| == |panel.cutlines|
      && (forall i :: 0 <= i < |panel.slots| ==> |r.slots[i]| == |panel.slots[i]|)
      && (forall i :: 0 <= i < |panel.cutlines| ==> |r.cutlines[i]| == |panel.cutlines[i]|)
  {
  }

  lemma ScaledSlotPoint(name: string, panel: Panel, f: ScaleFactors, i: int, j: int)
    requires Scalable(panel.outline)
    requires 0 <= i < |panel.slots| && 0 <= j < |panel.slots[i]|
    ensures var fr := FrameOf(name, panel.outline, f);
      var p := panel.slots[i][j];
      ScaledPanel(name, panel, f).slots[i][j] ==
        Point(Stretch(p.x, MinX(panel.outline), fr.fx), Stretch(p.y, MinY(panel.outline), fr.fy))
  {
    var fr := FrameOf(name, panel.outline, f);
    var s := ScaleEach(panel.slots, fr);
    assert ScaledPanel(name, panel, f).slots == s;
    assert s[i] == ScalePolyline(panel.slots[i], fr);
  }

  lemma ScaledCutlinePoint(name: string, panel: Panel, f: ScaleFactors, i: int, j: int)
    requires Scalable(panel.outline)
    requires 0 <= i < |panel.cutlines| && 0 <= j < |panel.cutlines[i]|
    ensures var fr := FrameOf(name, panel.outline, f);
      var p := panel.cutlines[i][j];
      ScaledPanel(name, panel, f).cutlines[i][j] ==
        Point(Stretch(p.x, MinX(panel.outline), fr.fx), Stretch(p.y, MinY(panel.outline), fr.fy))
  {
    var fr := FrameOf(name, panel.outline, f);
    var s := ScaleEach(panel.cutlines, fr);
    assert ScaledPanel(name, panel, f).cutlines == s;
    assert s[i] == ScalePolyline(panel.cutlines[i], fr);
  }

  lemma ScalePolylineUnit(pts: Polyline, fr: Frame)
    requires fr.fx == 1.0 && fr.fy == 1.0
    ensures ScalePolyline(pts, fr) == pts
  {
    var r := ScalePolyline(pts, fr);
    forall i | 0 <= i < |pts| ensures r[i] == pts[i] {
      assert r[i] == Point(Stretch(pts[i].x, fr.minX, 1.0), Stretch(pts[i].y, fr.minY, 1.0));
    }
  }

  /** When both factors the role uses are 1, the panel comes back unchanged. */
  lemma UnitFactorsKeepPanel(name: string, panel: Panel, f: ScaleFactors)
    requires Scalable(panel.outline)
    requires AxisFactors(RoleOf(name), f) == (1.0, 1.0)
    ensures ScaledPanel(name, panel, f) == panel
  {
    var fr := FrameOf(name, panel.outline, f);
    var r := ScaledPanel(name, panel, f);
    ScalePolylineUnit(panel.outline, fr);
    forall i | 0 <= i < |panel.slots| ensures r.slots[i] == panel.slots[i] {
      ScalePolylineUnit(panel.slots[i], fr);
    }
    forall i | 0 <= i < |panel.cutlines| ensures r.cutlines[i] == panel.cutlines[i] {
      ScalePolylineUnit(panel.cutlines[i], fr);
    }
  }

  /** At the reference dimensions every panel is drawn as loaded. */
  lemma ReferenceTargetsKeepPanel(name: string, panel: Panel)
    requires Scalable(panel.outline)
    ensures ScaledPanel(name, panel, TargetFactors(ReferenceWidth, ReferenceHeight, ReferenceDepth)) == panel
  {
    ReferenceTargetsAreUnscaled();
    UnitFactorsKeepPanel(name, panel, Unscaled);
  }

  function Affine(xs: seq<real>, c: real, a: real): (r: seq<real>)
    ensures |r| == |xs|
    ensures forall i :: 0 <= i < |xs| ==> r[i] == Stretch(xs[i], c, a)
  {
    seq(|xs|, i requires 0 <= i < |xs| => Stretch(xs[i], c, a))
  }

  /** Stretching by a non-negative factor about a fixed corner keeps order. */
  lemma StretchMonotone(u: real, v: real, c: real, a: real)
    requires u <= v && a >= 0.0
    ensures Stretch(u, c, a) <= Stretch(v, c, a)
  {
    assert (v - c) * a - (u - c) * a == (v - u) * a;
  }

  lemma MinOfAffine(xs: seq<real>, c: real, a: real)
    requires |xs| > 0 && a >= 0.0
    ensures MinOf(Affine(xs, c, a)) == Stretch(MinOf(xs), c, a)
  {
    var m := MinOf(xs);
    var ys := Affine(xs, c, a);
    var j :| 0 <= j < |xs| && xs[j] == m;
    assert ys[j] == Stretch(m, c, a);
    forall i | 0 <= i < |ys| ensures Stretch(m, c, a) <= ys[i] {
      StretchMonotone(m, xs[i], c, a);
    }
    MinOfUnique(ys, Stretch(m, c, a));
  }

  lemma MaxOfAffine(xs: seq<real>, c: real, a: real)
    requires |xs| > 0 && a >= 0.0
    ensures MaxOf(Affine(xs, c, a)) == Stretch(MaxOf(xs), c, a)
  {
    var m := MaxOf(xs);
    var ys := Affine(xs, c, a);
    var j :| 0 <= j < |xs| && xs[j] == m;
    assert ys[j] == Stretch(m, c, a);
    forall i | 0 <= i < |ys| ensures ys[i] <= Stretch(m, c, a) {
      StretchMonotone(xs[i], m, c, a);
    }
    MaxOfUnique(ys, Stretch(m, c, a));
  }

  lemma XsOfScaled(o: Polyline, fr: Frame)
    ensures Xs(ScalePolyline(o, fr)) == Affine(Xs(o), fr.minX, fr.fx)
    ensures Ys(ScalePolyline(o, fr)) == Affine(Ys(o), fr.minY, fr.fy)
  {
    var s := ScalePolyline(o, fr);
    forall i | 0 <= i < |o| ensures Xs(s)[i] == Affine(Xs(o), fr.minX, fr.fx)[i] {
      assert s[i].x == Stretch(o[i].x, fr.minX, fr.fx);
    }
    forall i | 0 <= i < |o| ensures Ys(s)[i] == Affine(Ys(o), fr.minY, fr.fy)[i] {
      assert s[i].y == Stretch(o[i].y, fr.minY, fr.fy);
    }
  }

  /** The bounding box of a scaled polyline is the stretched bounding box. */
  lemma ScaledBox(o: Polyline, fr: Frame)
    requires |o| > 0 && fr.fx >= 0.0 && fr.fy >= 0.0
    ensures var s := ScalePolyline(o, fr);
      && MinX(s) == Stretch(MinX(o), fr.minX, fr.fx) && MaxX(s) == Stretch(MaxX(o), fr.minX, fr.fx)
      && MinY(s) == Stretch(MinY(o), fr.minY, fr.fy) && MaxY(s) == Stretch(MaxY(o), fr.minY, fr.fy)
  {
    XsOfScaled(o, fr);
    MinOfAffine(Xs(o), fr.minX, fr.fx);
    MaxOfAffine(Xs(o), fr.minX, fr.fx);
    MinOfAffine(Ys(o), fr.minY, fr.fy);
    MaxOfAffine(Ys(o), fr.minY, fr.fy);
  }

  /** Anchored at its own minimum corner, a polyline keeps that corner. */
  lemma AnchoredBox(o: Polyline, fr: Frame)
    requires |o| > 0 && fr.fx >= 0.0 && fr.fy >= 0.0
    requires fr.minX == MinX(o) && fr.minY == MinY(o)
    ensures var s := ScalePolyline(o, fr);
      && MinX(s) == MinX(o) && MinY(s) == MinY(o)
      && MaxX(s) == Stretch(MaxX(o), MinX(o), fr.fx)
      && MaxY(s) == Stretch(MaxY(o), MinY(o), fr.fy)
  {
    ScaledBox(o, fr);
    assert Stretch(MinX(o), MinX(o), fr.fx) == MinX(o);
    assert Stretch(MinY(o), MinY(o), fr.fy) == MinY(o);
  }

  /**
   * Proportionality: with non-negative factors the scaled outline keeps
   * its minimum corner, and its far corner is the old one stretched about
   * it, so the new extents are the old width and height times the role's
   * factors (`Stretch(max, min, f) - min == (max - min) * f`).
   */
  lemma ScaledOutlineBox(name: string, panel: Panel, f: ScaleFactors)
    requires Scalable(panel.outline)
    requires AxisFactors(RoleOf(name), f).0 >= 0.0 && AxisFactors(RoleOf(name), f).1 >= 0.0
    ensures var o := panel.outline;
      var s := ScaledPanel(name, panel, f).outline;
      && |s| > 0
      && MinX(s) == MinX(o) && MinY(s) == MinY(o)
      && MaxX(s) == Stretch(MaxX(o), MinX(o), AxisFactors(RoleOf(name), f).0)
      && MaxY(s) == Stretch(MaxY(o), MinY(o), AxisFactors(RoleOf(name), f).1)
  {
    AnchoredBox(panel.outline, FrameOf(name, panel.outline, f));
  }

  /** `ezdxf` query `POLYLINE[layer=="..."]`: a POLYLINE entity on that layer. */
  predicate OnLayer(e: Entity, layer: string)
  {
    e.dxfType == "POLYLINE" && e.layer == layer
  }

  /**
   * The point lists of the POLYLINE entities on a layer, in drawing order:
   * every such entity's points are there (`PolylinesOnInOrder` adds that
   * nothing else is, and the order).
   */
  function PolylinesOn(es: seq<Entity>, layer: string): (r: seq<Polyline>)
    ensures |r| <= |es|
    ensures forall i :: 0 <= i < |es| && OnLayer(es[i], layer) ==> es[i].points in r
  {
    if |es| == 0 then []
    else
      var init := PolylinesOn(es[..|es| - 1], layer);
      assert forall i :: 0 <= i < |es| - 1 ==> es[..|es| - 1][i] == es[i];
      if OnLayer(es[|es| - 1], layer) then init + [es[|es| - 1].points] else init
  }

  /** The positions of the POLYLINE entities on a layer, ascending. */
  function OnLayerIndices(es: seq<Entity>, layer: string): (idx: seq<int>)
    ensures forall k :: 0 <= k < |idx| ==> 0 <= idx[k] < |es| && OnLayer(es[idx[k]], layer)
    ensures forall k, l :: 0 <= k < l < |idx| ==> idx[k] < idx[l]
    ensures forall i :: 0 <= i < |es| && OnLayer(es[i], layer) ==> i in idx
  {
    if |es| == 0 then []
    else
      var n := |es| - 1;
      var init := OnLayerIndices(es[..n], layer);
      assert forall i :: 0 <= i < n ==> es[..n][i] == es[i];
      if OnLayer(es[n], layer) then init + [n] else init
  }

  /**
   * Order: the k-th polyline found is the k-th on-layer entity of the
   * drawing, so slots and cutlines keep drawing order.
   */
  lemma {:induction false} PolylinesOnInOrder(es: seq<Entity>, layer: string)
    ensures var r := PolylinesOn(es, layer);
      var idx := OnLayerIndices(es, layer);
      && |r| == |idx|
      && forall k :: 0 <= k < |r| ==> r[k] == es[idx[k]].points
  {
    if |es| > 0 {
      var n := |es| - 1;
      PolylinesOnInOrder(es[..n], layer);
      var r0, idx0 := PolylinesOn(es[..n], layer), OnLayerIndices(es[..n], layer);
      var r, idx := PolylinesOn(es, layer), OnLayerIndices(es, layer);
      assert r[..|r0|] == r0 && idx[..|idx0|] == idx0;
      forall k | 0 <= k < |r0|
        ensures r[k] == es[idx[k]].points
      {
        assert r[k] == r0[k] && idx[k] == idx0[k];
        assert es[..n][idx0[k]] == es[idx0[k]];
      }
    }
  }

  /** Nothing else: every polyline found is the points of an on-layer entity. */
  lemma OnlyOnLayer(es: seq<Entity>, layer: string, p: Polyline)
    requires p in PolylinesOn(es, layer)
    ensures exists i :: 0 <= i < |es| && OnLayer(es[i], layer) && es[i].points == p
  {
    PolylinesOnInOrder(es, layer);
    var r, idx := PolylinesOn(es, layer), OnLayerIndices(es, layer);
    var k :| 0 <= k < |r| && r[k] == p;
    assert OnLayer(es[idx[k]], layer) && es[idx[k]].points == p;
  }

  /** The last element, or the empty polyline when there is none. */
  function LastOr(ls: seq<Polyline>): (r: Polyline)
    ensures ls == [] ==> r == []
    ensures ls != [] ==> r in ls
  {
    if ls == [] then [] else ls[|ls| - 1]
  }

  /** The three panel names the viewer loads, in plotting order. */
  const Roles: seq<string> := ["LEFTRIGHT", "FRONTBACK", "BOTTOM"]

  /**
   * One panel of the drawing: the last polyline on the role's layer as the
   * outline; the `{role}_SLOT5_5` polylines as slots; the `{role}_XCUTLINE`
   * polylines followed by the `{role}_YCUTLINE` ones as cutlines.
   */
  function PanelOf(es: seq<Entity>, role: string): (r: Panel)
    ensures |r.slots| <= |es| && |r.cutlines| <= 2 * |es|
    ensures forall i :: 0 <= i < |es| && OnLayer(es[i], role + "_SLOT5_5") ==> es[i].points in r.slots
    ensures forall i :: 0 <= i < |es| && OnLayer(es[i], role + "_XCUTLINE") ==> es[i].points in r.cutlines
    ensures forall i :: 0 <= i < |es| && OnLayer(es[i], role + "_YCUTLINE") ==> es[i].points in r.cutlines
  {
    Panel(LastOr(PolylinesOn(es, role)),
          PolylinesOn(es, role + "_SLOT5_5"),
          PolylinesOn(es, role + "_XCUTLINE") + PolylinesOn(es, role + "_YCUTLINE"))
  }

  /** The outline is the points of the LAST polyline on the role's layer. */
  lemma {:induction false} OutlineIsLastPolyline(es: seq<Entity>, role: string, i: int)
    requires 0 <= i < |es| && OnLayer(es[i], role)
    requires forall j :: i < j < |es| ==> !OnLayer(es[j], role)
    ensures PanelOf(es, role).outline == es[i].points
  {
    if i < |es| - 1 {
      var init := es[..|es| - 1];
      assert forall j :: i < j < |init| ==> init[j] == es[j];
      OutlineIsLastPolyline(init, role, i);
    }
  }

  /** With no polyline on the role's layer the outline stays empty. */
  lemma {:induction false} NoOutlineWhenLayerEmpty(es: seq<Entity>, role: string)
    requires forall j :: 0 <= j < |es| ==> !OnLayer(es[j], role)
    ensures PanelOf(es, role).outline == []
    ensures PolylinesOn(es, role) == []
  {
    if |es| > 0 {
      var init := es[..|es| - 1];
      assert forall j :: 0 <= j < |init| ==> init[j] == es[j];
      NoOutlineWhenLayerEmpty(init, role);
    }
  }

  lemma PolylinesOnSnoc(es: seq<Entity>, i: int, layer: string)
    requires 0 <= i < |es|
    ensures PolylinesOn(es[..i + 1], layer) ==
      PolylinesOn(es[..i], layer) + (if OnLayer(es[i], layer) then [es[i].points] else [])
  {
    assert es[..i + 1][..i] == es[..i];
  }

  /** The loop that appends the polylines on `layer` to `acc`. */
  method AppendPolylinesOn(acc: seq<Polyline>, es: seq<Entity>, layer: string)
    returns (r: seq<Polyline>)
    ensures r == acc + PolylinesOn(es, layer)
  {
    r := acc;
    for i := 0 to |es|
      invariant r == acc + PolylinesOn(es[..i], layer)
    {
      PolylinesOnSnoc(es, i, layer);
      if OnLayer(es[i], layer) {
        r := r + [es[i].points];
      }
    }
    assert es[..|es|] == es;
  }

  /** `load_dxf` for one role, with the drawing given as its entity sequence. */
  method LoadPanel(es: seq<Entity>, role: string) returns (panel: Panel)
    ensures panel == PanelOf(es, role)
  {
    var outline: Polyline := [];
    for i := 0 to |es|
      invariant outline == LastOr(PolylinesOn(es[..i], role))
    {
      PolylinesOnSnoc(es, i, role);
      if OnLayer(es[i], role) {
        outline := es[i].points;
      }
    }
    assert es[..|es|] == es;
    var slots := AppendPolylinesOn([], es, role + "_SLOT5_5");
    var cutlines := AppendPolylinesOn([], es, role + "_XCUTLINE");
    cutlines := AppendPolylinesOn(cutlines, es, role + "_YCUTLINE");
    panel := Panel(outline, slots, cutlines);
  }

  /** `load_dxf`: one panel per role, in the order of `Roles`. */
  method LoadPanels(es: seq<Entity>) returns (panels: seq<(string, Panel)>)
    ensures |panels| == |Roles|
    ensures forall i :: 0 <= i < |Roles| ==> panels[i] == (Roles[i], PanelOf(es, Roles[i]))
  {
    panels := [];
    for k := 0 to |Roles|
      invariant |panels| == k
      invariant forall i :: 0 <= i < k ==> panels[i] == (Roles[i], PanelOf(es, Roles[i]))
    {
      var panel := LoadPanel(es, Roles[k]);
      panels := panels + [(Roles[k], panel)];
    }
  }

  /** The loop that maps one polyline point by point. */
  method ScalePoints(pts: Polyline, fr: Frame) returns (r: Polyline)
    requires fr.width != 0.0 && fr.height != 0.0
    ensures r == ScalePolyline(pts, fr)
  {
    r := [];
    for i := 0 to |pts|
      invariant |r| == i
      invariant forall j :: 0 <= j < i ==> r[j] == ScalePoint(pts[j], fr)
    {
      var p := pts[i];
      var newWidth := fr.width * fr.fx;
      var newHeight := fr.height * fr.fy;
      var normX := (p.x - fr.minX) / fr.width;
      var normY := (p.y - fr.minY) / fr.height;
      NormalisedIsStretch(p.x, fr.minX, fr.width, fr.fx);
      NormalisedIsStretch(p.y, fr.minY, fr.height, fr.fy);
      r := r + [Point(fr.minX + normX * newWidth, fr.minY + normY * newHeight)];
    }
  }

  /** The loop over a list of polylines (the slots, the cutlines). */
  method ScaleAll(ls: seq<Polyline>, fr: Frame) returns (r: seq<Polyline>)
    requires fr.width != 0.0 && fr.height != 0.0
    ensures r == ScaleEach(ls, fr)
  {
    r := [];
    for i := 0 to |ls|
      invariant |r| == i
      invariant forall j :: 0 <= j < i ==> r[j] == ScalePolyline(ls[j], fr)
    {
      var scaled := ScalePoints(ls[i], fr);
      r := r + [scaled];
    }
  }

  /**
   * `PanelScaler`: the loaded panels and the factors, which start at 1 and
   * which the viewer overwrites whenever a target dimension changes.
   */
  class PanelScaler {
    const originalPanels: seq<(string, Panel)>
    var factors: ScaleFactors

    constructor (panels: seq<(string, Panel)>)
      ensures originalPanels == panels && factors == Unscaled
    {
      originalPanels := panels;
      factors := Unscaled;
    }

    /** `update_scaling`: the factors for the width, height and depth targets. */
    method UpdateScaling(width: real, height: real, depth: real)
      modifies this
      ensures factors == TargetFactors(width, height, depth)
    {
      factors := ScaleFactors(width / ReferenceWidth, height / ReferenceHeight, depth / ReferenceDepth);
    }

    /** `scale_panel` under the current factors. */
    method ScalePanel(name: string, panel: Panel) returns (r: Panel)
      requires Scalable(panel.outline)
      ensures r == ScaledPanel(name, panel, factors)
    {
      var originalWidth := MaxX(panel.outline) - MinX(panel.outline);
      var originalHeight := MaxY(panel.outline) - MinY(panel.outline);
      var fx, fy;
      if Contains(name, "LEFTRIGHT") {
        fx, fy := factors.depth, factors.height;
      } else if Contains(name, "FRONTBACK") {
        fx, fy := factors.width, factors.height;
      } else {
        fx, fy := factors.width, factors.depth;
      }
      assert (fx, fy) == AxisFactors(RoleOf(name), factors);
      var fr := Frame(MinX(panel.outline), MinY(panel.outline), originalWidth, originalHeight, fx, fy);
      assert fr == FrameOf(name, panel.outline, factors);
      var outline := ScalePoints(panel.outline, fr);
      var slots := ScaleAll(panel.slots, fr);
      var cutlines := ScaleAll(panel.cutlines, fr);
      r := Panel(outline, slots, cutlines);
    }
  }
}
