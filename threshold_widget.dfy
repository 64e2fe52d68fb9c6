/** The designer-form widget with an image chooser and a slider: moving the
    slider thresholds the chosen image strictly above the slider value and
    shows the mask in a layer named 'result of threshold', created on first
    use and overwritten afterwards. */
module ThresholdWidget {
  import opened FloodCore
  import opened Napari

  const ResultName := "result of threshold"
  const ResultOpacity: real := 0.5

  /** `data > value`: the strict elementwise comparison. */
  function Above(data: seq<int>, value: real): (mask: seq<bool>)
    ensures |mask| == |data|
    ensures forall i :: 0 <= i < |data| ==> mask[i] == (data[i] as real > value)
  {
    if data == [] then [] else [data[0] as real > value] + Above(data[1..], value)
  }

  /** Cellwise negation of a mask. */
  function Negated(mask: seq<bool>): (r: seq<bool>)
    ensures |r| == |mask|
    ensures forall i :: 0 <= i < |mask| ==> r[i] == !mask[i]
  {
    if mask == [] then [] else [!mask[0]] + Negated(mask[1..])
  }

  /** At the same threshold, the strict mask is the complement of the flood
      mask `image <= level`: a pixel is above the value exactly when it is not
      flooded, and a pixel equal to the value is flooded but not above it. */
  lemma AboveComplementsFlood(data: seq<int>, value: real)
    ensures Above(data, value) == Negated(AtOrBelow(data, value))
    ensures forall i :: 0 <= i < |data| ==>
      (Above(data, value)[i] <==> LabelsOf(AtOrBelow(data, value))[i] == 0)
  {
  }

  /** Thresholding a stored mask again (the image chooser may pick the
      'result of threshold' layer itself): at a slider value of 1 or more
      nothing is above, at 0 the mask comes back unchanged, and below 0
      every cell is above. */
  lemma RethresholdMask(bits: seq<bool>, value: int)
    ensures |Above(AsIntensities(Mask(bits)), value as real)| == |bits|
    ensures value >= 1 ==> Above(AsIntensities(Mask(bits)), value as real) == seq(|bits|, _ => false)
    ensures value == 0 ==> Above(AsIntensities(Mask(bits)), value as real) == bits
    ensures value < 0 ==> Above(AsIntensities(Mask(bits)), value as real) == seq(|bits|, _ => true)
  {
  }

  class CustomWidget {
    /** The viewer the widget is docked into. */
    const viewer: Viewer
    /** The layer chosen in the image layer box; null when there is none. */
    var selected: Layer?
    /** Value of the horizontal slider. */
    var slider: int

    constructor (napariViewer: Viewer, selected: Layer?)
      ensures viewer == napariViewer && this.selected == selected && slider == 0
    {
      viewer := napariViewer;
      this.selected := selected;
      slider := 0;
    }

    /** `on_slider_change`: threshold the chosen image at the slider value.
        Without a chosen layer the handler fails before anything changes. If
        no layer is named 'result of threshold', one is added at half opacity;
        otherwise only that layer's data is replaced. */
    method OnSliderChange() returns (ok: bool)
      modifies viewer, viewer.layers
      ensures slider == old(slider) && selected == old(selected)
      ensures ok == (selected != null)
      ensures !ok ==> viewer.layers == old(viewer.layers)
      ensures !ok ==> forall l :: l in old(viewer.layers) ==> unchanged(l)
      ensures ok && old(viewer.Lookup(ResultName)).None? ==>
        && |viewer.layers| == |old(viewer.layers)| + 1
        && viewer.layers[..|old(viewer.layers)|] == old(viewer.layers)
        && var added := viewer.layers[|old(viewer.layers)|];
        && fresh(added)
        && added.name == ResultName && added.kind == ImageLayer
        && added.data == Mask(Above(AsIntensities(old(selected.data)), slider as real))
        && added.opacity == ResultOpacity
        && forall l :: l in old(viewer.layers) ==> unchanged(l)
      ensures ok && old(viewer.Lookup(ResultName)).Some? ==>
        var result := old(viewer.Lookup(ResultName)).value;
        && viewer.layers == old(viewer.layers)
        && result.data == Mask(Above(AsIntensities(old(selected.data)), slider as real))
        && result.name == ResultName && result.kind == old(result.kind)
        && result.opacity == old(result.opacity)
        && forall l :: l in old(viewer.layers) && l != result ==> unchanged(l)
      ensures ok ==>
        && viewer.Lookup(ResultName).Some?
        && viewer.Lookup(ResultName).value.data ==
             Mask(Above(AsIntensities(old(selected.data)), slider as real))
    {
      if selected == null {
        return false;
      }
      var mask := Above(AsIntensities(selected.data), slider as real);
      var existing := viewer.Lookup(ResultName);
      if existing.None? {
        var added := viewer.AddLayer(ResultName, ImageLayer, Mask(mask), ResultOpacity);
        FirstNamedAppend(old(viewer.layers), added, ResultName);
      } else {
        existing.value.data := Mask(mask);
      }
      ok := true;
    }
  }
}
