/**
 * VolumeDataProbe: a scene object that reads the volume data at its own
 * position every frame. It tracks whether it is inside the volume, reports
 * entering and leaving it, and keeps the last data value it read (raw and
 * normalised), reporting each change.
 */
module DataProbe {
  import opened UnityMath
  import opened Wrappers
  import opened VolumeAccessor

  /** The inside flag after a frame, and whether that frame entered or left
      the volume. */
  datatype Edge = Edge(inside: bool, entered: bool, exited: bool)

  function Transition(wasInside: bool, nowInside: bool): (e: Edge)
    ensures e.inside == nowInside
    ensures e.entered <==> !wasInside && nowInside
    ensures e.exited <==> wasInside && !nowInside
    ensures !(e.entered && e.exited)
    ensures (e.entered || e.exited) <==> wasInside != nowInside
  {
    if nowInside && !wasInside then Edge(true, true, false)
    else if !nowInside && wasInside then Edge(false, false, true)
    else Edge(wasInside, false, false)
  }

  /** The inside flag after a run of frames whose containment tests gave readings. */
  function FinalInside(inside: bool, readings: seq<bool>): bool
    decreases |readings|
  {
    if |readings| == 0 then inside else FinalInside(Transition(inside, readings[0]).inside, readings[1..])
  }

  /** The numbers of enter and exit events over such a run. */
  function Enters(inside: bool, readings: seq<bool>): nat
    decreases |readings|
  {
    if |readings| == 0 then 0
    else (if Transition(inside, readings[0]).entered then 1 else 0) + Enters(readings[0], readings[1..])
  }

  function Exits(inside: bool, readings: seq<bool>): nat
    decreases |readings|
  {
    if |readings| == 0 then 0
    else (if Transition(inside, readings[0]).exited then 1 else 0) + Exits(readings[0], readings[1..])
  }

  function Indicator(b: bool): int { if b then 1 else 0 }

  /** Enter and exit events alternate: over any run they balance, except for
      one extra enter if the run ends inside having started outside, or one
      extra exit the other way round. */
  lemma {:induction false} EntersAndExitsAlternate(inside: bool, readings: seq<bool>)
    ensures Enters(inside, readings) - Exits(inside, readings)
         == Indicator(FinalInside(inside, readings)) - Indicator(inside)
    decreases |readings|
  {
    if |readings| > 0 {
      EntersAndExitsAlternate(readings[0], readings[1..]);
    }
  }

  /** The volume is readable at every point: its bounding box has no flat side
      and its colour range is not empty, so sampling and normalising give
      numbers (the source would produce NaN otherwise). */
  predicate Readable(g: Option<VolumeGrid>, outOfRange: real)
  {
    g.Some? ==>
      g.value.boundsSize.x != 0.0 && g.value.boundsSize.y != 0.0 && g.value.boundsSize.z != 0.0 &&
      MaxDataValue(g, outOfRange) != MinDataValue(g, outOfRange)
  }

  class VolumeDataProbe {
    var volumeDataAccessor: VolumeDataAccessor?
    var insideDataVolume: bool
    var dataValueUnderProbe: real
    var normalizedDataValueUnderProbe: real

    /** Invocations of OnEnterVolume and OnExitVolume. */
    var enterEvents: nat
    var exitEvents: nat
    /** Arguments of OnDataValueChanged and OnNormalizedDataValueChanged, oldest first. */
    var dataValueEvents: seq<real>
    var normalizedValueEvents: seq<real>
    /** Warnings that no volume accessor was found. */
    var missingAccessorWarnings: nat

    /** The component as added to a scene: no accessor, C#'s zero defaults. */
    constructor ()
      ensures volumeDataAccessor == null && !insideDataVolume
      ensures dataValueUnderProbe == 0.0 && normalizedDataValueUnderProbe == 0.0
      ensures enterEvents == 0 && exitEvents == 0 && dataValueEvents == [] && normalizedValueEvents == []
      ensures missingAccessorWarnings == 0
    {
      volumeDataAccessor := null;
      insideDataVolume := false;
      dataValueUnderProbe := 0.0;
      normalizedDataValueUnderProbe := 0.0;
      enterEvents := 0;
      exitEvents := 0;
      dataValueEvents := [];
      normalizedValueEvents := [];
      missingAccessorWarnings := 0;
    }

    /** Falls back to the accessor on the same scene object when none was
        assigned, warns when there is still none, and starts outside. */
    method Start(accessorOnSameObject: VolumeDataAccessor?)
      modifies this`volumeDataAccessor, this`missingAccessorWarnings, this`insideDataVolume
      ensures volumeDataAccessor == if old(volumeDataAccessor) != null then old(volumeDataAccessor) else accessorOnSameObject
      ensures missingAccessorWarnings == old(missingAccessorWarnings) + Indicator(volumeDataAccessor == null)
      ensures !insideDataVolume
    {
      if volumeDataAccessor == null {
        volumeDataAccessor := accessorOnSameObject;
      }
      if volumeDataAccessor == null {
        missingAccessorWarnings := missingAccessorWarnings + 1;
      }
      insideDataVolume := false;
    }

    /** The volume part of a frame. probeInDataSpace is the probe's world
        position as the accessor's WorldSpacePointToDataSpace converts it. */
    method Update(probeInDataSpace: Vec3)
      requires volumeDataAccessor != null ==>
                 Readable(volumeDataAccessor.Grid(), volumeDataAccessor.outOfRangeDataValue)
      modifies this`insideDataVolume, this`dataValueUnderProbe, this`normalizedDataValueUnderProbe
      modifies this`enterEvents, this`exitEvents, this`dataValueEvents, this`normalizedValueEvents
      ensures volumeDataAccessor == null ==>
                insideDataVolume == old(insideDataVolume) && enterEvents == old(enterEvents) && exitEvents == old(exitEvents)
      ensures volumeDataAccessor != null ==>
                var edge := Transition(old(insideDataVolume), ContainsDataSpacePoint(volumeDataAccessor.Grid(), probeInDataSpace));
                insideDataVolume == edge.inside &&
                enterEvents == old(enterEvents) + Indicator(edge.entered) &&
                exitEvents == old(exitEvents) + Indicator(edge.exited)
      ensures volumeDataAccessor != null && insideDataVolume ==>
                var g, oor := volumeDataAccessor.Grid(), volumeDataAccessor.outOfRangeDataValue;
                var v := GetValueAtDataSpacePoint(g, oor, probeInDataSpace);
                g.Some? &&
                dataValueUnderProbe == v &&
                (v != old(dataValueUnderProbe) ==>
                   normalizedDataValueUnderProbe == NormalizeDataValue(g, oor, v) &&
                   dataValueEvents == old(dataValueEvents) + [v] &&
                   normalizedValueEvents == old(normalizedValueEvents) + [normalizedDataValueUnderProbe])
      ensures volumeDataAccessor == null || !insideDataVolume || dataValueUnderProbe == old(dataValueUnderProbe) ==>
                dataValueUnderProbe == old(dataValueUnderProbe) &&
                normalizedDataValueUnderProbe == old(normalizedDataValueUnderProbe) &&
                dataValueEvents == old(dataValueEvents) && normalizedValueEvents == old(normalizedValueEvents)
    {
      if volumeDataAccessor != null {
        var g, oor := volumeDataAccessor.Grid(), volumeDataAccessor.outOfRangeDataValue;
        var nowInsideData := ContainsDataSpacePoint(g, probeInDataSpace);
        if nowInsideData && !insideDataVolume {
          insideDataVolume := true;
          enterEvents := enterEvents + 1;
        } else if !nowInsideData && insideDataVolume {
          insideDataVolume := false;
          exitEvents := exitEvents + 1;
        }

        if insideDataVolume {
          var dataVal := GetValueAtDataSpacePoint(g, oor, probeInDataSpace);
          if dataVal != dataValueUnderProbe {
            dataValueUnderProbe := dataVal;
            dataValueEvents := dataValueEvents + [dataValueUnderProbe];
            normalizedDataValueUnderProbe := NormalizeDataValue(g, oor, dataVal);
            normalizedValueEvents := normalizedValueEvents + [normalizedDataValueUnderProbe];
          }
        }
      }
    }
  }
}
