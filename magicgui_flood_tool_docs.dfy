/** The auto-calling magicgui flood tool: `flood` overwrites its `new_level`
    argument, and a callback on the temperature spin box keeps the disabled
    level slider at `delta * 85`. */
module MagicguiFloodToolDocs {
  import opened FloodCore

  /** `flood(image, delta, new_level)`: the incoming `new_level` is replaced by
      `delta * 85` before it is used. */
  function Flood(image: seq<int>, delta: real, newLevel: int): (labels: seq<int>)
    ensures |labels| == |image|
    ensures forall i :: 0 <= i < |image| ==> labels[i] in {0, FloodLabel}
    ensures forall i :: 0 <= i < |image| ==>
      (labels[i] == FloodLabel <==> image[i] as real <= delta * LevelPerDegree)
  {
    var newLevel := NewLevel(delta);
    LabelsOf(AtOrBelow(image, newLevel))
  }

  /** A stale slider value cannot change the labels: an automatic call that
      runs before the slider is updated floods exactly as one that runs after. */
  lemma FloodIgnoresStaleLevel(image: seq<int>, delta: real, stale: int, current: int)
    ensures Flood(image, delta, stale) == Flood(image, delta, current)
  {
  }

  /** The generated widget: the temperature spin box and the disabled level slider. */
  class FloodWidget {
    /** Value of the temperature spin box. */
    var delta: real
    /** Value shown by the level slider. */
    var newLevel: real

    /** The slider always shows the level of the spin box's value, inside its range. */
    ghost predicate Valid()
      reads this
    {
      && DeltaMin <= delta <= DeltaMax
      && newLevel == delta * LevelPerDegree
      && LevelMin as real <= newLevel <= LevelMax as real
    }

    /** Both controls start at the parameter defaults of `flood`. */
    constructor ()
      ensures Valid()
      ensures delta == 0.0 && newLevel == 0.0
    {
      delta := 0.0;
      newLevel := 0.0;
    }

    /** `update_level(delta)`: the callback connected to a change of the spin
        box. The slider refuses a level outside [0, 255] and keeps its value. */
    method UpdateLevel(d: real) returns (ok: bool)
      modifies this`newLevel
      ensures ok == (LevelMin as real <= d * LevelPerDegree <= LevelMax as real)
      ensures newLevel == if ok then d * LevelPerDegree else old(newLevel)
      ensures LevelMin as real <= old(newLevel) <= LevelMax as real ==>
        LevelMin as real <= newLevel <= LevelMax as real
    {
      var level := NewLevel(d);
      ok := LevelMin as real <= level <= LevelMax as real;
      if ok {
        newLevel := level;
      }
    }

    /** The user sets the spin box: a value outside [0, 3] is refused; a new
        value is stored and, because it changed, `update_level` runs. */
    method ChangeDelta(d: real) returns (ok: bool)
      requires Valid()
      modifies this
      ensures Valid()
      ensures ok == (DeltaMin <= d <= DeltaMax)
      ensures delta == if ok then d else old(delta)
      ensures newLevel == delta * LevelPerDegree
    {
      ok := DeltaMin <= d <= DeltaMax;
      if !ok {
        return;
      }
      if d != delta {
        delta := d;
        LevelWithinSliderBounds(d);
        var updated := UpdateLevel(d);
        assert updated;
      }
      LevelWithinSliderBounds(delta);
    }
  }
}
