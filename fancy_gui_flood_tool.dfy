/** The flood tool built from a designer form: `flood` returns the label image
    and the new level, and the Apply button either creates the labels layer
    (first press) or overwrites the data of the layer it created. */
module FancyGuiFloodTool {
  import opened FloodCore
  import opened Napari

  /** `flood(image, delta)`: the pair `(label_image, new_level)`. */
  function Flood(image: seq<int>, delta: real): (r: (seq<int>, real))
    ensures r.1 == delta * LevelPerDegree
    ensures |r.0| == |image|
    ensures forall i :: 0 <= i < |image| ==> r.0[i] == if image[i] as real <= r.1 then FloodLabel else 0
  {
    (FloodLabels(image, delta), NewLevel(delta))
  }

  /** Name of the island image layer the tool reads. */
  const IslandName := "napari_island"

  /** The Qt spin box keeps a value inside its range by clamping it. The box
      also rounds to its two decimals; every value a user can type or step to
      already has two decimals, so that rounding changes no reachable value
      and is not modelled. */
  function ClampToSpinBox(d: real): (c: real)
    ensures DeltaMin <= c <= DeltaMax
    ensures DeltaMin <= d <= DeltaMax ==> c == d
    ensures d < DeltaMin ==> c == DeltaMin
    ensures d > DeltaMax ==> c == DeltaMax
  {
    if d < DeltaMin then DeltaMin else if d > DeltaMax then DeltaMax else d
  }

  class FancyGui {
    /** The viewer the widget is docked into. */
    const viewer: Viewer
    /** The labels layer created by the first Apply; null until then. */
    var labelLayer: Layer?
    /** Value of the temperature spin box. */
    var spinBox: real
    /** Value of the sea level slider. */
    var slider: real

    ghost predicate Valid()
      reads this
    {
      DeltaMin <= spinBox <= DeltaMax && LevelMin as real <= slider <= LevelMax as real
    }

    /** `__init__`: no labels layer is stored yet; both controls start at 0. */
    constructor (napariViewer: Viewer)
      ensures Valid()
      ensures viewer == napariViewer && labelLayer == null
      ensures spinBox == 0.0 && slider == 0.0
    {
      viewer := napariViewer;
      labelLayer := null;
      spinBox := 0.0;
      slider := 0.0;
    }

    /** Typing or stepping a value into the spin box. */
    method SetSpinBox(d: real)
      requires Valid()
      modifies this`spinBox
      ensures Valid()
      ensures spinBox == ClampToSpinBox(d)
    {
      spinBox := ClampToSpinBox(d);
    }

    /** `apply_delta`: flood the island image at the spin box's temperature
        increase, show the labels and move the slider to the new level. When
        the viewer has no island layer the lookup fails and nothing changes. */
    method ApplyDelta() returns (ok: bool)
      requires Valid()
      modifies this`labelLayer, this`slider, viewer, labelLayer
      ensures Valid()
      ensures spinBox == old(spinBox)
      ensures ok == old(viewer.Lookup(IslandName)).Some?
      ensures !ok ==> labelLayer == old(labelLayer) && slider == old(slider)
      ensures !ok ==> viewer.layers == old(viewer.layers)
      ensures !ok && labelLayer != null ==> unchanged(labelLayer)
      ensures ok ==>
        var island := old(viewer.Lookup(IslandName)).value;
        var result := Flood(AsIntensities(old(island.data)), spinBox);
        && slider == result.1
        && labelLayer != null
        && labelLayer.data == Intensities(result.0)
        && (old(labelLayer) == null ==>
              && fresh(labelLayer)
              && labelLayer.kind == LabelsLayer
              && viewer.layers == old(viewer.layers) + [labelLayer])
        && (old(labelLayer) != null ==>
              && labelLayer == old(labelLayer)
              && labelLayer.name == old(labelLayer.name)
              && labelLayer.kind == old(labelLayer.kind)
              && labelLayer.opacity == old(labelLayer.opacity)
              && viewer.layers == old(viewer.layers))
      ensures forall l :: l in old(viewer.layers) && l != old(labelLayer) ==> unchanged(l)
    {
      var found := viewer.Lookup(IslandName);
      if found.None? {
        return false;
      }
      var image := AsIntensities(found.value.data);
      var result := Flood(image, spinBox);
      var labels, level := result.0, result.1;
      if labelLayer == null {
        labelLayer := viewer.AddLayer(UnnamedLabelsName, LabelsLayer, Intensities(labels), DefaultLabelsOpacity);
      } else {
        labelLayer.data := Intensities(labels);
      }
      LevelWithinSliderBounds(spinBox);
      slider := level;
      ok := true;
    }
  }

  /** Two presses of Apply leave exactly one labels layer added to the viewer,
      holding the result of the second press. */
  method ApplyTwice(gui: FancyGui, d1: real, d2: real) returns (ok: bool)
    requires gui.Valid() && gui.labelLayer == null
    modifies gui, gui.viewer
    ensures ok == old(gui.viewer.Lookup(IslandName)).Some?
    ensures ok ==> |gui.viewer.layers| == |old(gui.viewer.layers)| + 1
    ensures ok ==> gui.viewer.layers[..|old(gui.viewer.layers)|] == old(gui.viewer.layers)
    ensures ok ==> gui.labelLayer == gui.viewer.layers[|old(gui.viewer.layers)|]
    ensures ok ==> gui.slider == NewLevel(ClampToSpinBox(d2))
    ensures ok ==>
      var island := old(gui.viewer.Lookup(IslandName)).value;
      && gui.labelLayer != null
      && gui.labelLayer.data == Intensities(FloodLabels(AsIntensities(old(island.data)), ClampToSpinBox(d2)))
  {
    gui.SetSpinBox(d1);
    ok := gui.ApplyDelta();
    if !ok {
      return;
    }
    ghost var island := old(gui.viewer.Lookup(IslandName)).value;
    FirstNamedAppend(old(gui.viewer.layers), gui.labelLayer, IslandName);
    assert gui.viewer.Lookup(IslandName) == Some(island);
    assert island.data == old(island.data);
    gui.SetSpinBox(d2);
    ok := gui.ApplyDelta();
    assert ok;
  }
}
