/** The flood tool built as a FunctionGui subclass: `flood` returns a layer
    data tuple whose metadata carries the new level, and the overridden call
    pushes that level, rounded, back into the level slider. */
module FunctionGuiFloodTool {
  import opened FloodCore
  import Napari

  /** `(data, {'name': ..., 'metadata': {...}})`: the layer the viewer is to show. */
  datatype LayerDataTuple = LayerDataTuple(data: seq<int>, name: string, metadata: map<string, real>)

  const ResultName := "flood result"
  const LevelKey := "new_level"

  /** `flood(image, delta, level)`: the `level` argument is accepted and unused. */
  function Flood(image: seq<int>, delta: real, level: int): (t: LayerDataTuple)
    ensures t.name == ResultName
    ensures t.metadata.Keys == {LevelKey} && t.metadata[LevelKey] == delta * LevelPerDegree
    ensures |t.data| == |image|
    ensures forall i :: 0 <= i < |image| ==>
      t.data[i] == if image[i] as real <= delta * LevelPerDegree then FloodLabel else 0
  {
    LayerDataTuple(FloodLabels(image, delta), ResultName, map[LevelKey := NewLevel(delta)])
  }

  /** The result depends on the image and the temperature increase only. */
  lemma FloodIgnoresLevel(image: seq<int>, delta: real, level: int, level': int)
    ensures Flood(image, delta, level) == Flood(image, delta, level')
  {
  }

  /** Python's `round` on a number: the nearest integer, and on a tie the even one. */
  function RoundHalfEven(x: real): (r: int)
    ensures x - 0.5 <= r as real <= x + 0.5
    ensures (r as real - x == 0.5 || x - r as real == 0.5) ==> r % 2 == 0
  {
    var below := x.Floor;
    var fraction := x - below as real;
    if fraction < 0.5 then below
    else if fraction > 0.5 then below + 1
    else if below % 2 == 0 then below
    else below + 1
  }

  /** Rounding a level inside the slider range stays inside it. */
  lemma RoundedLevelOnSlider(x: real)
    requires LevelMin as real <= x <= LevelMax as real
    ensures LevelMin <= RoundHalfEven(x) <= LevelMax
  {
  }

  /** A tie rounds to the even neighbour: 0.5 degrees give level 42.5, shown as 42. */
  lemma HalfDegreeRoundsToEven()
    ensures RoundHalfEven(NewLevel(0.5)) == 42
  {
  }

  /** The widget generated from `flood`: an image choice, the temperature spin
      box and the level slider. */
  class MyGui {
    /** Data of the image layer chosen in the image box; None when there is none. */
    var image: Napari.Option<seq<int>>
    /** Value of the temperature spin box. */
    var delta: real
    /** Value of the water level slider. */
    var level: int

    ghost predicate Valid()
      reads this
    {
      DeltaMin <= delta <= DeltaMax && LevelMin <= level <= LevelMax
    }

    /** Both controls start at the parameter defaults of `flood`. */
    constructor (image: Napari.Option<seq<int>>)
      ensures Valid()
      ensures this.image == image && delta == 0.0 && level == 0
    {
      this.image := image;
      delta := 0.0;
      level := 0;
    }

    /** Setting the spin box: a value outside [0, 3] is refused and nothing changes. */
    method SetDelta(d: real) returns (ok: bool)
      requires Valid()
      modifies this`delta
      ensures Valid()
      ensures ok == (DeltaMin <= d <= DeltaMax)
      ensures delta == if ok then d else old(delta)
    {
      ok := DeltaMin <= d <= DeltaMax;
      if ok {
        delta := d;
      }
    }

    /** `__call__`: run `flood` on the current values, then show the rounded
        new level on the slider. Without an image the call fails before
        anything changes. */
    method Call() returns (ok: bool)
      requires Valid()
      modifies this`level
      ensures Valid()
      ensures ok == image.Some?
      ensures !ok ==> level == old(level)
      ensures ok ==> level == RoundHalfEven(delta * LevelPerDegree)
      ensures ok ==> delta * LevelPerDegree - 0.5 <= level as real <= delta * LevelPerDegree + 0.5
    {
      if image.None? {
        return false;
      }
      var result := Flood(image.value, delta, level);
      var newLevel := RoundHalfEven(result.metadata[LevelKey]);
      LevelWithinSliderBounds(delta);
      RoundedLevelOnSlider(result.metadata[LevelKey]);
      level := newLevel;
      ok := true;
    }
  }
}
