/** The host viewer, reduced to what the flood tools use: an ordered list of
    layer objects, each with a name, a kind, pixel data and an opacity. A tool
    that keeps a layer keeps a reference to the same object the viewer lists,
    so writing its data changes what the viewer shows. */
module Napari {

  datatype Option<T> = None | Some(value: T)

  datatype Kind = ImageLayer | LabelsLayer

  /** Pixel data of a layer: integer intensities, or a boolean mask (a
      thresholded image shown as an image layer). */
  datatype Pixels = Intensities(values: seq<int>) | Mask(bits: seq<bool>)

  /** Name the viewer gives a labels layer added without a name: it is named
      after the variable passed in, which in the flood tool is `label`. */
  const UnnamedLabelsName := "label"

  /** Opacity of a labels layer added without one. */
  const DefaultLabelsOpacity: real := 0.7

  /** The intensities a comparison sees: a mask compares as 1 for true, 0 for false. */
  function AsIntensities(p: Pixels): (v: seq<int>)
    ensures p.Intensities? ==> v == p.values
    ensures p.Mask? ==> |v| == |p.bits|
    ensures p.Mask? ==> forall i :: 0 <= i < |p.bits| ==> 0 <= v[i] <= 1 && (v[i] == 1 <==> p.bits[i])
  {
    match p
    case Intensities(values) => values
    case Mask(bits) => seq(|bits|, i requires 0 <= i < |bits| => if bits[i] then 1 else 0)
  }

  class Layer {
    var name: string
    var kind: Kind
    var data: Pixels
    var opacity: real

    constructor (name: string, kind: Kind, data: Pixels, opacity: real)
      ensures this.name == name && this.kind == kind
      ensures this.data == data && this.opacity == opacity
    {
      this.name := name;
      this.kind := kind;
      this.data := data;
      this.opacity := opacity;
    }
  }

  /** The first layer of `layers` called `name`, if any. */
  function FirstNamed(layers: seq<Layer>, name: string): (r: Option<Layer>)
    reads layers`name
    ensures r.Some? ==> r.value in layers && r.value.name == name
    ensures r.None? <==> forall l :: l in layers ==> l.name != name
  {
    if layers == [] then None
    else if layers[0].name == name then Some(layers[0])
    else FirstNamed(layers[1..], name)
  }

  /** Appending a layer keeps the first match among the earlier layers, and
      finds the new layer when none of them has its name. */
  lemma {:induction false} FirstNamedAppend(layers: seq<Layer>, l: Layer, name: string)
    ensures FirstNamed(layers + [l], name) ==
      if FirstNamed(layers, name).Some? then FirstNamed(layers, name)
      else if l.name == name then Some(l) else None
  {
    if layers != [] {
      assert (layers + [l])[1..] == layers[1..] + [l];
      FirstNamedAppend(layers[1..], l, name);
    }
  }

  class Viewer {
    var layers: seq<Layer>

    constructor ()
      ensures layers == []
    {
      layers := [];
    }

    /** `name in viewer.layers` and `viewer.layers[name]`. */
    function Lookup(name: string): (r: Option<Layer>)
      reads this, layers`name
      ensures r.Some? ==> r.value in layers && r.value.name == name
      ensures r.None? <==> forall l :: l in layers ==> l.name != name
    {
      FirstNamed(layers, name)
    }

    /** `add_image` / `add_labels`: a new layer appended at the top. */
    method AddLayer(name: string, kind: Kind, data: Pixels, opacity: real) returns (l: Layer)
      modifies this
      ensures fresh(l)
      ensures l.name == name && l.kind == kind && l.data == data && l.opacity == opacity
      ensures layers == old(layers) + [l]
    {
      l := new Layer(name, kind, data, opacity);
      layers := layers + [l];
    }
  }
}
