/** The flood tool generated by magicgui from the `flood` signature: `flood`
    returns the label image only and never reads its `level` argument. */
module MagicguiFloodTool {
  import opened FloodCore

  /** `flood(image, delta, level)`: the label image for `delta * 85`. */
  function Flood(image: seq<int>, delta: real, level: int): (labels: seq<int>)
    ensures |labels| == |image|
    ensures forall i :: 0 <= i < |image| ==> labels[i] in {0, FloodLabel}
    ensures forall i :: 0 <= i < |image| ==>
      (labels[i] == FloodLabel <==> image[i] as real <= delta * LevelPerDegree)
  {
    FloodLabels(image, delta)
  }

  /** Whatever the level slider shows, the labels are the same. */
  lemma FloodIgnoresLevel(image: seq<int>, delta: real, level: int, level': int)
    ensures Flood(image, delta, level) == Flood(image, delta, level')
  {
  }
}
