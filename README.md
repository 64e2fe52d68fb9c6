# Flood tools: a verified model

The flood tools are small widgets docked into an image viewer. A user picks a
temperature increase `delta` (a spin box, 0 to 3 in steps of 0.1). The tool
raises the sea level to `new_level = delta * 85` and labels every pixel of
the island image at or below that level as flooded (label 13; every other
cell is 0). The labels go into an overlay layer, and the level is shown on a
slider (0 to 255). The same three-line transform appears in several scripts,
each wired to the viewer in its own way:

- `FunctionGuiFloodTool`: `flood` returns a layer data tuple with the level
  in its metadata, and the widget's call pushes the level, rounded, back into
  the level slider.
- `FancyGuiFloodTool`: `flood` returns `(labels, level)`. The Apply button
  creates a labels layer on its first press and overwrites that same layer's
  data on later presses.
- `MagicguiFloodToolDocs`: `flood` overwrites its `new_level` argument, and a
  callback keeps the disabled level slider at `delta * 85`.
- `MagicguiFloodTool`: `flood` ignores its `level` argument.
- `ThresholdWidget`: a strict threshold `data > value` of a chosen image.
  The mask goes into a layer named `result of threshold`, which is added at
  half opacity if it is missing and otherwise has only its data replaced.

`FloodCore` holds the transform once: `NewLevel`, the comparison `AtOrBelow`,
the scaling `LabelsOf` and their composition `FloodLabels`. It also holds the
bounds of both controls. `Napari` is the viewer, reduced to an ordered list
of layer objects (name, kind, pixel data, opacity). A tool that stores a layer
holds the same object that the viewer lists. So writing `layer.data` changes
what the viewer shows, and the methods' frames say which layers can change.

Modelling choices:

- An image is a flat `seq<int>`. The comparison is elementwise, so the grid
  shape matters only through its length.
- `delta` and the level are exact `real` numbers.
- A boolean mask held by a layer compares as 0/1 when it is read back as an
  image (`Napari.AsIntensities`).
- `flood` computes the unrounded product `delta * 85` in every variant.
  Only `MyGui.__call__` rounds it (Python's half-to-even `round`), and only
  to show it on the level slider.

## Model

| member | source | states |
|---|---|---|
| `FloodCore.NewLevel` | marcelo_zoccoler/entry_user_interf3/scripts/functiongui_add_flood_tool.py:10 | `new_level = delta*85` with no clamping: dividing the level by 85 gives back `delta` exactly, and the level is negative exactly when `delta` is |
| `FloodCore.AtOrBelow` | docs/marcelo_zoccoler/entry_user_interf3/scripts/add_flood_tool.py:9 | `image <= new_level`: same length as the image; cell i is true iff pixel i is at or below the level |
| `FloodCore.LabelsOf` | docs/marcelo_zoccoler/entry_user_interf3/scripts/add_flood_tool.py:10 | `astype(int)*13`: same length; cell i is 13 where the mask is true and 0 where it is false |
| `FloodCore.FloodLabels` | marcelo_zoccoler/entry_user_interf3/scripts/functiongui_add_flood_tool.py:10-14 | the label image keeps the image's length; cell i is 13 iff `image[i] <= delta*85`; every cell is 0 or 13 |
| `FloodCore.LevelWithinSliderBounds` | docs/marcelo_zoccoler/entry_user_interf3/scripts/magicgui_add_flood_tool.py:16-19 | a `delta` inside the spin box range [0, 3] gives `delta*85` inside the slider range [0, 255]; the end points map to 0 and 255; the same bounds are set at marcelo_zoccoler/entry_user_interf3/scripts/magicgui_add_flood_tool.py:21-24 |
| `FloodCore.FloodMonotone` | marcelo_zoccoler/entry_user_interf3/scripts/functiongui_add_flood_tool.py:10-14 | raising `delta` never turns a 13 cell into 0 |
| `FloodCore.NoIncreaseFloodsOnlyNonPositive` | marcelo_zoccoler/entry_user_interf3/scripts/magicgui_add_flood_tool.py:9-13 | with `delta = 0`, cell i is 13 iff `image[i] <= 0` |
| `FloodCore.FullIncreaseFloodsAll` | docs/marcelo_zoccoler/entry_user_interf3/scripts/magicgui_add_flood_tool.py:7-10 | with `delta = 3`, every pixel of an image whose values are at most 255 is flooded |
| `FloodCore.SmallIslandAtOneDegree` | docs/marcelo_zoccoler/entry_user_interf3/scripts/add_flood_tool.py:7-11 | image `[[0,100],[200,255]]` at `delta = 1`: level 85, labels `[[13,0],[0,0]]` |
| `FloodCore.TwoPixelsAtTwoDegrees` | docs/marcelo_zoccoler/entry_user_interf3/scripts/add_flood_tool.py:7-11 | image `[[50,90]]` at `delta = 2`: level 170, labels `[[13,13]]` |
| `FunctionGuiFloodTool.Flood` | marcelo_zoccoler/entry_user_interf3/scripts/functiongui_add_flood_tool.py:9-16 | the tuple is named `flood result`; its metadata has exactly the key `new_level`, equal to `delta*85` with no clamping; its data keeps the image's length, and cell i is 13 iff `image[i] <= delta*85`, else 0 |
| `FunctionGuiFloodTool.FloodIgnoresLevel` | marcelo_zoccoler/entry_user_interf3/scripts/functiongui_add_flood_tool.py:9-16 | the `level` argument has no effect on the result |
| `FunctionGuiFloodTool.RoundHalfEven` | marcelo_zoccoler/entry_user_interf3/scripts/functiongui_add_flood_tool.py:34 | Python `round`: the result is within 1/2 of the input, and on a tie it is even |
| `FunctionGuiFloodTool.RoundedLevelOnSlider` | marcelo_zoccoler/entry_user_interf3/scripts/functiongui_add_flood_tool.py:27-35 | rounding a level inside [0, 255] stays inside the slider's [0, 255] |
| `FunctionGuiFloodTool.HalfDegreeRoundsToEven` | marcelo_zoccoler/entry_user_interf3/scripts/functiongui_add_flood_tool.py:34 | `delta = 0.5` gives level 42.5, which is shown as 42 (tie to even) |
| `FunctionGuiFloodTool.MyGui.constructor` | marcelo_zoccoler/entry_user_interf3/scripts/functiongui_add_flood_tool.py:19-30 | both controls start at the defaults of `flood` (`delta = 0`, `level = 0`), inside their ranges |
| `FunctionGuiFloodTool.MyGui.SetDelta` | marcelo_zoccoler/entry_user_interf3/scripts/functiongui_add_flood_tool.py:24-26 | the spin box refuses a value outside [0, 3] and keeps its old value; otherwise it takes the new one |
| `FunctionGuiFloodTool.MyGui.Call` | marcelo_zoccoler/entry_user_interf3/scripts/functiongui_add_flood_tool.py:32-35 | after the call, the level slider holds the rounded `new_level` of this call; the sliders stay in range; with no image the call fails and the slider is unchanged |
| `FancyGuiFloodTool.Flood` | docs/marcelo_zoccoler/entry_user_interf3/scripts/add_flood_tool.py:7-11 | returns `(labels, level)` with `level == delta*85`; labels keep the image's length, and cell i is 13 iff `image[i] <= level`, else 0 |
| `FancyGuiFloodTool.ClampToSpinBox` | marcelo_zoccoler/entry_user_interf3/scripts/flood_tool.py:26-28 | the spin box keeps its value in [0, 3]: in-range values pass unchanged, others go to the nearer bound |
| `FancyGuiFloodTool.FancyGui.constructor` | docs/marcelo_zoccoler/entry_user_interf3/scripts/add_flood_tool.py:15-22 | a fresh widget holds its viewer and no stored labels layer |
| `FancyGuiFloodTool.FancyGui.SetSpinBox` | marcelo_zoccoler/entry_user_interf3/scripts/flood_tool.py:26-28 | the spin box takes the clamped value; nothing else changes |
| `FancyGuiFloodTool.FancyGui.ApplyDelta` | docs/marcelo_zoccoler/entry_user_interf3/scripts/add_flood_tool.py:24-32 | a missing `napari_island` layer fails the call and changes nothing. The first call adds exactly one fresh labels layer holding `flood`'s labels and stores it. Later calls overwrite only that layer's data, keep its name, kind and opacity, and add no layer. The slider equals `flood`'s level. Every other layer is unchanged |
| `FancyGuiFloodTool.ApplyTwice` | docs/marcelo_zoccoler/entry_user_interf3/scripts/add_flood_tool.py:28-31 | two presses of Apply add exactly one layer, the stored one; it holds the flood labels of the island image at the second press's (clamped) `delta`, and the slider shows that press's level; the presses succeed iff the viewer has a `napari_island` layer |
| `MagicguiFloodToolDocs.Flood` | docs/marcelo_zoccoler/entry_user_interf3/scripts/magicgui_add_flood_tool.py:6-10 | the incoming `new_level` is overwritten; the labels keep the image's length; cell i is 13 iff `image[i] <= delta*85`; every cell is 0 or 13 |
| `MagicguiFloodToolDocs.FloodIgnoresStaleLevel` | docs/marcelo_zoccoler/entry_user_interf3/scripts/magicgui_add_flood_tool.py:6-7 | the labels depend only on `image` and `delta`, so an automatic call made before the slider updates gives the same result |
| `MagicguiFloodToolDocs.FloodWidget.constructor` | docs/marcelo_zoccoler/entry_user_interf3/scripts/magicgui_add_flood_tool.py:16-20 | both controls start at 0, with the slider in sync with the spin box |
| `MagicguiFloodToolDocs.FloodWidget.UpdateLevel` | docs/marcelo_zoccoler/entry_user_interf3/scripts/magicgui_add_flood_tool.py:23-25 | a level `delta*85` inside [0, 255] is stored on the slider; one outside is refused and the slider keeps its value, so a slider inside its range stays inside it |
| `MagicguiFloodToolDocs.FloodWidget.ChangeDelta` | docs/marcelo_zoccoler/entry_user_interf3/scripts/magicgui_add_flood_tool.py:16-25 | a value outside [0, 3] is refused. Otherwise the spin box takes it, and the slider then shows `delta*85`, inside [0, 255]. The invariant "slider == spin box * 85" is kept |
| `MagicguiFloodTool.Flood` | marcelo_zoccoler/entry_user_interf3/scripts/magicgui_add_flood_tool.py:8-15 | labels keep the image's length; every cell is 0 or 13; cell i is 13 iff `image[i] <= delta*85` |
| `MagicguiFloodTool.FloodIgnoresLevel` | marcelo_zoccoler/entry_user_interf3/scripts/magicgui_add_flood_tool.py:8-15 | the `level` argument is unused: the output depends only on `image` and `delta` |
| `ThresholdWidget.Above` | docs/johannes_mueller/qtdesigner_and_magicgui/example/my_custom_widget.py:34 | `data > value`: same length as the data; cell i is true iff `data[i]` is strictly above the value, so a pixel equal to it is false |
| `ThresholdWidget.AboveComplementsFlood` | docs/johannes_mueller/qtdesigner_and_magicgui/example/my_custom_widget.py:34 | at the same threshold, the strict mask is the cellwise negation of the flood mask `<=`; a cell is above iff its flood label is 0 |
| `ThresholdWidget.RethresholdMask` | docs/johannes_mueller/qtdesigner_and_magicgui/example/my_custom_widget.py:33-34 | thresholding a stored boolean mask again keeps its length; at a slider value of 1 or more the result is all false, at 0 it is the mask itself, below 0 it is all true |
| `ThresholdWidget.CustomWidget.constructor` | docs/johannes_mueller/qtdesigner_and_magicgui/example/my_custom_widget.py:11-24 | the widget holds its viewer and the chosen image layer |
| `ThresholdWidget.CustomWidget.OnSliderChange` | docs/johannes_mueller/qtdesigner_and_magicgui/example/my_custom_widget.py:32-41 | with no chosen layer the handler fails and changes nothing. If no layer is named `result of threshold`, exactly one fresh image layer is appended under that name, at opacity 0.5, holding the mask, and the earlier layers are unchanged. Otherwise only that layer's data is replaced, no layer is added, and every other layer, including the source image, is unchanged. Afterwards, looking up `result of threshold` gives the mask of the current slider value |
| `Napari.AsIntensities` | docs/johannes_mueller/qtdesigner_and_magicgui/example/my_custom_widget.py:34 | integer pixel data is compared as it is; a boolean mask keeps its length and compares as 0/1, with 1 exactly at the true cells |
| `Napari.Viewer.Lookup` | docs/johannes_mueller/qtdesigner_and_magicgui/example/my_custom_widget.py:36 | `name in viewer.layers`: it finds a listed layer with that name, and finds none iff no listed layer has that name |
| `Napari.Viewer.AddLayer` | docs/marcelo_zoccoler/entry_user_interf3/scripts/add_flood_tool.py:29 | `add_labels`/`add_image`: exactly one fresh layer with the given name, kind, data and opacity is appended |
| `Napari.FirstNamedAppend` | docs/johannes_mueller/qtdesigner_and_magicgui/example/my_custom_widget.py:36-39 | appending a layer keeps the earlier first match, and finds the new layer when no earlier layer has its name |

## Left out

- Window construction, docking, the event loop, reading the island image
  from a file, and the plugin hook are left out. The image is a parameter or
  a field.
- The binding that magicgui builds from a function signature is left out,
  and so is the automatic call of `flood` on every parameter change
  (`auto_call`). No member runs `flood` from `FloodWidget.ChangeDelta`; the
  only statement about the automatic call is
  `MagicguiFloodToolDocs.FloodIgnoresStaleLevel`.
- After a call, the viewer shows the returned layer data tuple or labels.
  This routing is done by the host and is not modelled for the
  `FunctionGuiFloodTool`, `MagicguiFloodToolDocs` and `MagicguiFloodTool`
  variants. It is modelled
  for `FancyGuiFloodTool` and `ThresholdWidget`, whose own code does it.
- The Qt event filter that passes parent changes to the image chooser is
  left out. It is GUI plumbing.
- The window of `marcelo_zoccoler/entry_user_interf3/scripts/add_flood_tool.py`,
  the generated layout code of `flood_tool.py` and the `MyGUI.py`
  label-printing examples are left out. They contain no logic beyond what is
  modelled; only the control bounds of `flood_tool.py` are used.
- `image_analysis_functions.py` is left out. It only forwards to library
  top-hat filters whose behaviour is not part of this model.
- Floating point is left out. `delta * 85` is an exact real product, so
  `RoundHalfEven` rounds exact ties. Python rounds the float product, which
  can land just off a tie.
- Numpy dtypes, broadcasting and multi-channel images are left out. An image
  is a flat sequence of integer intensities.
- `FancyGuiFloodTool.FancyGui.ApplyDelta`: does not model how a Qt slider
  turns the float level into an integer; the slider is kept as a real.
- `MagicguiFloodToolDocs.FloodWidget.UpdateLevel` (and `ChangeDelta`, which calls it): does not model how the
  integer slider stores a fractional `delta * 85`; the slider is kept as a
  real.
- `Napari.Viewer.AddLayer`: napari renames a layer whose name is already
  taken (`label` becomes `label [1]`); the model keeps the name as given, and
  a lookup returns the first layer with that name.
- The name and opacity of a labels layer added without them are taken as the
  viewer's defaults (`label`, 0.7). They are constants of the `Napari`
  module, not behaviour of the tools.
- The determinism of `flood` is not stated as a separate lemma. Every
  variant is a Dafny function, so equal inputs give equal outputs by
  construction.
