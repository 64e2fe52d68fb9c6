/** The flood transform that every flood tool repeats: a temperature increase
    `delta` raises the water level to `delta * 85`, and every pixel of the
    island image at or below that level is labelled as flooded (label 13). */
module FloodCore {

  /** Label given to a flooded cell (blue in the viewer's labels colormap). */
  const FloodLabel := 13

  /** Water level gained per degree of temperature increase. */
  const LevelPerDegree: real := 85.0

  /** Range of the temperature spin box. */
  const DeltaMin: real := 0.0
  const DeltaMax: real := 3.0

  /** Range of the water level slider. */
  const LevelMin := 0
  const LevelMax := 255

  /** `new_level = delta*85`; delta is neither clamped nor validated. */
  function NewLevel(delta: real): (level: real)
    ensures level / LevelPerDegree == delta
    ensures (level < 0.0) == (delta < 0.0)
  {
    delta * LevelPerDegree
  }

  /** `image <= new_level`: the elementwise comparison with the level. */
  function AtOrBelow(image: seq<int>, level: real): (mask: seq<bool>)
    ensures |mask| == |image|
    ensures forall i :: 0 <= i < |image| ==> mask[i] == (image[i] as real <= level)
  {
    if image == [] then [] else [image[0] as real <= level] + AtOrBelow(image[1..], level)
  }

  /** `mask.astype(int)*13`: true becomes the flood label, false becomes 0. */
  function LabelsOf(mask: seq<bool>): (labels: seq<int>)
    ensures |labels| == |mask|
    ensures forall i :: 0 <= i < |mask| ==> labels[i] == if mask[i] then FloodLabel else 0
  {
    if mask == [] then [] else [if mask[0] then FloodLabel else 0] + LabelsOf(mask[1..])
  }

  /** The label image of one flood: same length as the image, a cell is 13
      exactly where the pixel is at or below `delta * 85`, and 0 elsewhere. */
  function FloodLabels(image: seq<int>, delta: real): (labels: seq<int>)
    ensures |labels| == |image|
    ensures forall i :: 0 <= i < |image| ==>
      (labels[i] == FloodLabel <==> image[i] as real <= delta * LevelPerDegree)
    ensures forall i :: 0 <= i < |image| ==> labels[i] in {0, FloodLabel}
  {
    LabelsOf(AtOrBelow(image, NewLevel(delta)))
  }

  /** A temperature increase inside the spin box range gives a level inside
      the slider range. */
  lemma LevelWithinSliderBounds(delta: real)
    requires DeltaMin <= delta <= DeltaMax
    ensures LevelMin as real <= NewLevel(delta) <= LevelMax as real
    ensures delta == DeltaMin ==> NewLevel(delta) == LevelMin as real
    ensures delta == DeltaMax ==> NewLevel(delta) == LevelMax as real
  {
  }

  /** Raising the temperature never un-floods a cell. */
  lemma FloodMonotone(image: seq<int>, delta: real, delta': real)
    requires delta <= delta'
    ensures forall i :: 0 <= i < |image| && FloodLabels(image, delta)[i] == FloodLabel ==>
      FloodLabels(image, delta')[i] == FloodLabel
  {
  }

  /** With no temperature increase only pixels at or below 0 are flooded. */
  lemma NoIncreaseFloodsOnlyNonPositive(image: seq<int>)
    ensures forall i :: 0 <= i < |image| ==>
      (FloodLabels(image, 0.0)[i] == FloodLabel <==> image[i] <= 0)
  {
  }

  /** At the largest increase every 8-bit pixel is flooded. */
  lemma FullIncreaseFloodsAll(image: seq<int>)
    requires forall i :: 0 <= i < |image| ==> image[i] <= LevelMax
    ensures FloodLabels(image, DeltaMax) == seq(|image|, _ => FloodLabel)
  {
  }

  /** The 2x2 island [[0, 100], [200, 255]] at delta 1: only the 0 pixel floods. */
  lemma SmallIslandAtOneDegree()
    ensures NewLevel(1.0) == 85.0
    ensures FloodLabels([0, 100, 200, 255], 1.0) == [13, 0, 0, 0]
  {
  }

  /** The 1x2 island [[50, 90]] at delta 2: the level is 170 and both pixels flood. */
  lemma TwoPixelsAtTwoDegrees()
    ensures NewLevel(2.0) == 170.0
    ensures FloodLabels([50, 90], 2.0) == [13, 13]
  {
  }
}
