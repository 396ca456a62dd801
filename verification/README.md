# Panel and profile geometry of the vector config editor

A Dafny model of the geometric core behind two small desktop tools for
designing a flat-pack container:

- the DXF panel scaler (`dxf_inspect.py`): a drawing holds three panels
  (`LEFTRIGHT`, `FRONTBACK`, `BOTTOM`), each an outline with slot and
  cutline polylines. Scaling a panel stretches it about the minimum corner
  of its outline's bounding box, with one factor per axis chosen from the
  panel's role. The factors start at 1 and are overwritten from target
  dimensions divided by the reference container 400 x 600 x 200 mm.
- the profile store (`profile_manager.py`): named profiles, each an
  insertion-ordered map from layer name to point list, loaded from the
  polyline entities of `.dxf` files. The gap-based rescale computes the
  horizontal and vertical gaps between side groups of panel layers (names
  containing `L`/`R` and `T`/`B`) and moves whole layers rigidly by the
  gap's growth; slot layers are copied.
- the editor (`vector_editor.py`): a mutable container (width, height,
  material thickness, current profile), the guarded profile selection and
  the export that writes the chosen profile, rescaled by width/1000 and
  height/1000, as one LWPOLYLINE per non-empty layer.

Coordinates are exact `real`s. Python dicts are modelled by `Dicts.ODict`,
a key order (`seq`) beside a `map`: assigning an existing key keeps its
place, a new key is appended.

Files: `geometry.dfy` (points, entities, min/max, substring and `rfind`
helpers), `dicts.dfy` (ordered dicts), `panel_scaling.dfy` (module
`PanelScaling`), `profile_store.dfy` (module `ProfileStore`), `editor.dfy`
(module `Editor`).

Two error paths of the code are modelled as follows:

- `scale_panel` has no guard and divides by the outline's width and height,
  so a panel with an empty or degenerate outline raises there.
  `PanelScaler.ScalePanel` therefore requires `Scalable(panel.outline)`
  (non-empty outline, positive width and height).
- In `scale_profile`, `min`/`max` over an empty side group raise, and only
  `export_dxf`'s `try` catches the exception. `ProfileManager.ScaleProfile`
  returns `MissingSide` for that case, and `ExportDxf` then writes nothing.

## Model

| member | source | states |
|---|---|---|
| PanelScaling.PanelScaler.constructor | dxf_inspect.py:15-21 | a new scaler keeps the panels and starts with width, height and depth factors all 1.0 |
| PanelScaling.PanelScaler.UpdateScaling | dxf_inspect.py:197-201 | the factors become exactly `TargetFactors` of the three targets, nothing else changes |
| PanelScaling.TargetFactors | dxf_inspect.py:199-201 | each factor times its reference dimension (400, 600, 200) gives the target back |
| PanelScaling.ReferenceTargetsAreUnscaled | dxf_inspect.py:17-21 | targets equal to the reference dimensions give the initial all-ones factors |
| PanelScaling.RoleOf | dxf_inspect.py:30-38 | a name is LEFTRIGHT exactly when it contains `LEFTRIGHT`, FRONTBACK exactly when it contains `FRONTBACK` but not `LEFTRIGHT`, BOTTOM otherwise |
| PanelScaling.AxisFactors | dxf_inspect.py:30-38 | x is scaled by width except for LEFTRIGHT (depth); y by height except for BOTTOM (depth) |
| PanelScaling.RoleAxisMapping | dxf_inspect.py:30-38 | LEFTRIGHT stretches by (depth, height), FRONTBACK by (width, height), BOTTOM by (width, depth); the LEFTRIGHT test wins when a name contains both |
| PanelScaling.FrameOf | dxf_inspect.py:26-27 | a scalable outline yields a frame with strictly positive width and height, so the divisions are defined |
| PanelScaling.NormalisedIsStretch | dxf_inspect.py:47-51 | the code's normalise-by-old-extent, multiply-by-new-extent form equals `corner + (v - corner) * factor` |
| PanelScaling.ScaledPanel | dxf_inspect.py:23-81 | the scaled panel has as many outline points, slots and cutlines as the original |
| PanelScaling.ScaledPanelShape | dxf_inspect.py:44-81 | as many outline points, slots and cutlines as before, each slot and cutline of its original length |
| PanelScaling.ScaledSlotPoint | dxf_inspect.py:55-64 | every slot point is stretched about the OUTLINE's minimum corner with the role's factors |
| PanelScaling.ScaledCutlinePoint | dxf_inspect.py:66-75 | every cutline point is stretched about the OUTLINE's minimum corner with the role's factors |
| PanelScaling.ScalePolylineUnit | dxf_inspect.py:44-52 | with both factors 1 a polyline maps to itself |
| PanelScaling.UnitFactorsKeepPanel | dxf_inspect.py:44-81 | when the role's two factors are 1 the whole panel (outline, slots, cutlines) comes back unchanged |
| PanelScaling.ReferenceTargetsKeepPanel | dxf_inspect.py:197-201 | at the reference dimensions every panel is scaled to itself |
| PanelScaling.ScaledBox | dxf_inspect.py:41-52 | the bounding box of a stretched polyline is the stretched bounding box (non-negative factors) |
| PanelScaling.AnchoredBox | dxf_inspect.py:41-52 | stretched about its own minimum corner, a polyline keeps that corner |
| PanelScaling.ScaledOutlineBox | dxf_inspect.py:26-52 | the scaled outline keeps its minimum corner and its maximum corner is the old one stretched by the role's factors, i.e. new extents are old extents times the factors |
| PanelScaling.PolylinesOn | dxf_inspect.py:170-182 | the point lists of the POLYLINE entities on a layer: no more lists than entities, and every such entity's points are among them |
| PanelScaling.OnLayerIndices | dxf_inspect.py:170-182 | the positions of the layer's POLYLINE entities: each such position once, in ascending order, and no other position |
| PanelScaling.PolylinesOnInOrder | dxf_inspect.py:170-182 | the k-th list found is the points of the k-th POLYLINE entity on the layer in drawing order, and there are exactly as many lists as such entities |
| PanelScaling.OnlyOnLayer | dxf_inspect.py:170-182 | every list found is the points of some POLYLINE entity on the layer |
| PanelScaling.PanelOf | dxf_inspect.py:166-184 | every slot polyline of the role is among the slots and every X/Y cutline among the cutlines, with no more slots than entities |
| PanelScaling.OutlineIsLastPolyline | dxf_inspect.py:169-171 | the outline is the points of the last POLYLINE on the role's layer |
| PanelScaling.NoOutlineWhenLayerEmpty | dxf_inspect.py:167-171 | with no POLYLINE on the role's layer the outline stays empty |
| PanelScaling.AppendPolylinesOn | dxf_inspect.py:174-182 | the query loop appends exactly the layer's polylines, in drawing order, after what was already there |
| PanelScaling.LoadPanel | dxf_inspect.py:166-184 | one role's panel: last role polyline as outline, `_SLOT5_5` polylines as slots, `_XCUTLINE` then `_YCUTLINE` polylines as cutlines |
| PanelScaling.LoadPanels | dxf_inspect.py:166-184 | exactly the three roles, in the order LEFTRIGHT, FRONTBACK, BOTTOM, each with its panel |
| PanelScaling.ScalePoints | dxf_inspect.py:44-52 | the code's per-point loop yields the closed-form stretched polyline |
| PanelScaling.ScaleAll | dxf_inspect.py:55-75 | the slot and cutline loops yield each polyline stretched in the outline's frame, in order |
| PanelScaling.PanelScaler.ScalePanel | dxf_inspect.py:23-81 | for a scalable outline, the result is the panel stretched in the outline's frame by the role's current factors |
| ProfileStore.LayersOf | profile_manager.py:39-63 | the layers read from a drawing form a well-formed profile (ordered, no empty point list) |
| ProfileStore.LayersOfLastWins | profile_manager.py:48-63 | a layer holds the points of the last LWPOLYLINE/POLYLINE with points on it |
| ProfileStore.LayersOfAbsent | profile_manager.py:48-63 | a layer without such an entity (other types, empty point lists) is absent |
| ProfileStore.StripExtension | profile_manager.py:35 | the result is a prefix of the name: all of it, or cut just before a dot |
| ProfileStore.ProfileName | profile_manager.py:35 | a profile name holds no `/` and is a prefix of the base name: the whole base name, or the part before a dot that starts its extension |
| ProfileStore.DxfProfileName | profile_manager.py:21-35 | the file `stem.dxf` in a directory is stored under `stem` |
| ProfileStore.Loaded | profile_manager.py:27-78 | an unreadable file changes nothing; otherwise the file's name maps to the layers of its entities, every other name is unchanged, a new name is appended and a reloaded name keeps its place |
| ProfileStore.LoadAll | profile_manager.py:9-25 | loading a listing keeps the store an ordered map and never drops a name |
| ProfileStore.LoadAllKeepsOrder | profile_manager.py:9-25 | the names already stored stay in front, in their order, so a loaded name keeps its place through later loads |
| ProfileStore.UnreadableFileIgnored | profile_manager.py:19-25 | a file that does not parse leaves the store as if it were not in the directory |
| ProfileStore.NonEmptyKeys | profile_manager.py:125-127 | exactly the keys with a non-empty point list, once each when the keys are distinct |
| ProfileStore.PanelLayers | profile_manager.py:89-91 | exactly the non-empty, non-SLOT layers |
| ProfileStore.Marked | profile_manager.py:111-114 | exactly the layers whose name contains the marker letter |
| ProfileStore.Side | profile_manager.py:111-114 | a side group: the non-empty, non-SLOT layers whose name contains the letter |
| ProfileStore.Separation | profile_manager.py:117-118 | `min(lo) - max(hi)` is at most every difference and equals one of them |
| ProfileStore.HorizontalGap | profile_manager.py:111-117 | the horizontal gap is at most the distance between the first left-group and first right-group layers |
| ProfileStore.VerticalGap | profile_manager.py:111-118 | the vertical gap is at most the distance between the first bottom-group and first top-group layers |
| ProfileStore.HorizontalGapIsNarrowest | profile_manager.py:117 | the horizontal gap is the narrowest distance from a left-group right edge to a right-group left edge, and is attained |
| ProfileStore.VerticalGapIsNarrowest | profile_manager.py:118 | the vertical gap is the narrowest distance from a bottom-group top to a top-group bottom, and is attained |
| ProfileStore.Translate | profile_manager.py:142 | same number of points, each moved by exactly (dx, dy) |
| ProfileStore.LayerOffset | profile_manager.py:121-139 | a layer marked `L` (or at x scale 1) does not move across, any other moves by gap times (scale x - 1); likewise `T` and y |
| ProfileStore.MoveLayer | profile_manager.py:129-142 | a layer keeps its number of points, and a SLOT layer keeps its points |
| ProfileStore.MoveLayers | profile_manager.py:125-144 | only layers with a non-empty point list are written |
| ProfileStore.Rescale | profile_manager.py:80-146 | every layer of the result is a non-empty layer of the input |
| ProfileStore.MoveLayersUnit | profile_manager.py:121-144 | at scale 1 the layer loop gives back a well-formed profile unchanged, whatever the gaps |
| ProfileStore.MoveLayersShape | profile_manager.py:125-144 | over distinct keys: a well-formed profile with the non-empty keys in order, each holding its moved points |
| ProfileStore.RescaleLayers | profile_manager.py:125-144 | the result has exactly the input's non-empty layers, in input order, and is well formed |
| ProfileStore.RescaleKeepsSlots | profile_manager.py:129-131 | SLOT layers are copied unchanged |
| ProfileStore.RescaleTranslatesPanels | profile_manager.py:132-142 | every other layer is translated rigidly by its layer offset |
| ProfileStore.UnitMoveLayer | profile_manager.py:121-142 | at scale 1 no layer moves, whatever the gaps |
| ProfileStore.RescaleUnit | profile_manager.py:121-144 | at scale 1 on both axes a stored profile comes back unchanged |
| ProfileStore.RoleLayerOffsets | profile_manager.py:134-139 | LEFTRIGHT never moves; FRONTBACK and BOTTOM move only across, by gap times (scale - 1) |
| ProfileStore.MoveAllLayers | profile_manager.py:121-144 | the layer loop builds exactly the moved profile |
| ProfileStore.ProfileManager.constructor | profile_manager.py:5-7 | the store holds what loading the directory listing into an empty store gives |
| ProfileStore.ProfileManager.LoadProfile | profile_manager.py:27-78 | an unreadable file leaves the store unchanged; otherwise the file's name is set to the layers of its entities, in place if it was already loaded |
| ProfileStore.ProfileManager.LoadProfiles | profile_manager.py:9-25 | every `.dxf` entry of the listing is loaded, in listing order |
| ProfileStore.ProfileManager.GetProfile | profile_manager.py:148-150 | a profile is found exactly for a stored name, and it is that name's stored, well-formed profile |
| ProfileStore.ProfileManager.ListProfiles | profile_manager.py:152-154 | the stored names in load order, each once, exactly those `GetProfile` finds |
| ProfileStore.ProfileManager.ScaleProfile | profile_manager.py:80-146 | unknown name gives NoProfile, an empty side group MissingSide, otherwise the rescaled profile |
| Dicts.PutPut | profile_manager.py:39-63 | writing a key twice leaves the second value in the first write's place |
| Editor.Container.constructor | vector_editor.py:83-87 | a new container is 400 x 600 with thickness 18 and no profile |
| Editor.Container.UpdateDimensions | vector_editor.py:89-92 | exactly the three sizes change; the current profile does not |
| Editor.Shown | vector_editor.py:169-182 | a profile is shown only for a non-empty name of a stored profile with at least one layer, and it is that profile |
| Editor.VectorEditor.constructor | vector_editor.py:95-167 | default container, the loaded store, the first listed name selected and shown when there is one |
| Editor.VectorEditor.UpdateProfile | vector_editor.py:169-182 | empty name, unknown name or empty profile leave the current profile; otherwise it becomes exactly the stored profile; sizes unchanged |
| Editor.VectorEditor.ChooseProfile | vector_editor.py:117-119 | a new selection is recorded and shown as by `update_profile` |
| Editor.VectorEditor.UpdateDimensions | vector_editor.py:184-197 | the sizes are set, then the selected profile is shown again |
| Editor.Metres | vector_editor.py:226-227 | the factor times 1000 is the length in millimetres, and it is non-negative for a non-negative length |
| Editor.ExportOf | vector_editor.py:231-234 | no more entities than keys, each an LWPOLYLINE on one of the keys |
| Editor.ExportOfExact | vector_editor.py:231-234 | exactly one LWPOLYLINE per key with a non-empty point list, carrying that key's points, in key order, and nothing for the other keys |
| Editor.Exported | vector_editor.py:231-234 | no more entities than layers, each an LWPOLYLINE on a layer of the profile |
| Editor.ExportedOnePerLayer | vector_editor.py:231-234 | for a stored profile the i-th entity written is an LWPOLYLINE on the i-th layer with exactly its points |
| Editor.WriteLayers | vector_editor.py:231-234 | the export loop writes exactly `Exported` of the scaled profile |
| Editor.ExportThenLoad | vector_editor.py:231-234 | loading the exported entities gives back the profile: same layers, points and order |
| Editor.ExportReloads | vector_editor.py:223-234 | what an export writes reloads as exactly the rescaled profile |
| Editor.VectorEditor.ExportDxf | vector_editor.py:199-240 | output exactly when there is a path, a shown profile and all four side groups; it is the profile rescaled by width/1000 and height/1000, one LWPOLYLINE per non-empty layer |

## Left out

- Qt widgets, signals, spin boxes, dialogs and `main` in both tools: the spin-box ranges become `Editor.InRange`, the file dialog's answer becomes the `filepath` parameter (empty when cancelled), and the combo box's text becomes `VectorEditor.choice`.
- Rendering: `update_plot` (matplotlib) and `DrawingArea.paintEvent` with its integer-truncating transform are pixel output.
- ezdxf I/O (`readfile`, `modelspace`, `query`, `get_points`, `points`, `vertices`, `new`, `add_lwpolyline`, `saveas`): a drawing is given as a sequence of `Entity` values, an unreadable file as `None`, and an export returns the entities it would add instead of saving them.
- File system: the directory is given as a listing of `DxfFile` entries; creating a missing directory is the empty listing. `load_dxf`'s fallback Windows path and `sys.exit` are not modelled.
- `get_polyline_coords` skipping a vertex without a location (`AttributeError`): entities carry their point lists already.
- A failure after `load_profile` has reset a profile to `{}` (an exception while iterating the model space) would leave a partial profile; only the whole-file failure is modelled.
- Logging (`print`, `traceback`).
- Floating point: coordinates and factors are exact reals.
- The `reference_y` argument of `scale_profile` (passed thickness/1000 by the export) is never read; it is not a parameter of the model. `DXFViewer.export_dxf` is an empty stub.
- Aliasing: `current_profile` and the store share one Python dict; profiles are values here, which is faithful because neither is mutated after loading.
- Paths are POSIX: `Basename` splits at `/` only.
- PanelScaling.PanelScaler.ScalePanel: requires positive outline extents rather than reproducing the division by zero the code raises on a degenerate outline.
- ProfileStore.Rescale: requires all four side groups to be non-empty; the exception the code raises otherwise is the `MissingSide` result of `ScaleProfile`.
- The React pages under `src/` are static markup.
