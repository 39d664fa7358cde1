/**
 * TimestepAnimationController: steps through the timestep numbers a
 * visualisation displays, forwards and backwards with wrap-around, or jumps
 * to a requested number, telling its OnTimestepChanged listeners the number
 * now displayed.
 */
module TimestepAnimation {
  import opened TimestepIndex

  class TimestepAnimationController {
    var firstTimestepNumber: int
    var lastTimestepNumber: int
    var timestepNumberInc: int
    var timestepNumbers: seq<int>
    /** An index into timestepNumbers, not a timestep number. */
    var currentTimestepIndex: int
    /** The numbers passed to OnTimestepChanged, oldest first. */
    var notified: seq<int>

    /** The index points into the list, or is 0 while the list is empty. */
    ghost predicate Valid()
      reads this
    {
      0 <= currentTimestepIndex &&
      (currentTimestepIndex < |timestepNumbers| || (|timestepNumbers| == 0 && currentTimestepIndex == 0))
    }

    /** The component as placed in a scene, before Start: the inspector
        defaults and no timesteps yet. */
    constructor ()
      ensures firstTimestepNumber == 4 && lastTimestepNumber == 74 && timestepNumberInc == 14
      ensures timestepNumbers == [] && currentTimestepIndex == 0 && notified == []
      ensures Valid()
    {
      firstTimestepNumber := 4;
      lastTimestepNumber := 74;
      timestepNumberInc := 14;
      timestepNumbers := [];
      currentTimestepIndex := 0;
      notified := [];
    }

    /** Lists first, first + inc, ... up to last and selects the first entry. */
    method Start()
      requires timestepNumberInc > 0 || firstTimestepNumber > lastTimestepNumber
      modifies this
      ensures firstTimestepNumber == old(firstTimestepNumber) && lastTimestepNumber == old(lastTimestepNumber)
      ensures timestepNumberInc == old(timestepNumberInc) && notified == old(notified)
      ensures timestepNumbers == Steps(firstTimestepNumber, lastTimestepNumber, timestepNumberInc)
      ensures currentTimestepIndex == 0 && Valid()
    {
      timestepNumbers := ListSteps(firstTimestepNumber, lastTimestepNumber, timestepNumberInc);
      currentTimestepIndex := 0;
    }

    function HasTimestep(timestepNumber: int): (r: bool)
      reads this
      ensures r <==> exists k :: 0 <= k < |timestepNumbers| && timestepNumbers[k] == timestepNumber
    {
      timestepNumber in timestepNumbers
    }

    /** The number displayed, or -1 while there are no timesteps. */
    function CurrentTimestep(): (n: int)
      reads this
      requires Valid()
      ensures |timestepNumbers| == 0 ==> n == -1
      ensures |timestepNumbers| > 0 ==> HasTimestep(n)
    {
      if |timestepNumbers| > 0 then timestepNumbers[currentTimestepIndex] else -1
    }

    /** Moves to the next entry, from the last back to the first, and notifies.
        The source fails on an empty list, when it reads the number to report. */
    method AdvanceOneTimestep()
      requires Valid() && |timestepNumbers| > 0
      modifies this
      ensures Valid() && timestepNumbers == old(timestepNumbers)
      ensures currentTimestepIndex == Next(old(currentTimestepIndex), |timestepNumbers|)
      ensures notified == old(notified) + [CurrentTimestep()]
      ensures firstTimestepNumber == old(firstTimestepNumber) && lastTimestepNumber == old(lastTimestepNumber)
      ensures timestepNumberInc == old(timestepNumberInc)
    {
      currentTimestepIndex := currentTimestepIndex + 1;
      if currentTimestepIndex >= |timestepNumbers| {
        currentTimestepIndex := 0;
      }
      NotifyListeners();
    }

    /** Moves to the previous entry, from the first round to the last, and
        notifies. */
    method RewindOneTimestep()
      requires Valid() && |timestepNumbers| > 0
      modifies this
      ensures Valid() && timestepNumbers == old(timestepNumbers)
      ensures currentTimestepIndex == Prev(old(currentTimestepIndex), |timestepNumbers|)
      ensures notified == old(notified) + [CurrentTimestep()]
      ensures firstTimestepNumber == old(firstTimestepNumber) && lastTimestepNumber == old(lastTimestepNumber)
      ensures timestepNumberInc == old(timestepNumberInc)
    {
      currentTimestepIndex := currentTimestepIndex - 1;
      if currentTimestepIndex < 0 {
        currentTimestepIndex := |timestepNumbers| - 1;
      }
      NotifyListeners();
    }

    /** SetTimestep, as written: selects the listed number, or else the
        nearest one (the lowest index on a tie), except that the scan never
        chooses entry 0, so when entry 0 is nearest (or tied for nearest) to an
        unlisted number nothing changes. Listeners hear of it only when the
        index changes. */
    method SetTimestep(timestepNumber: int)
      requires Valid()
      modifies this
      ensures Valid() && timestepNumbers == old(timestepNumbers)
      ensures |timestepNumbers| == 0 ==> currentTimestepIndex == old(currentTimestepIndex)
      ensures HasTimestep(timestepNumber) ==>
                currentTimestepIndex == IndexOf(timestepNumbers, timestepNumber) && CurrentTimestep() == timestepNumber
      ensures |timestepNumbers| > 0 && !HasTimestep(timestepNumber) && IsFirstNearest(timestepNumbers, timestepNumber, 0) ==>
                currentTimestepIndex == old(currentTimestepIndex)
      ensures |timestepNumbers| > 0 && !HasTimestep(timestepNumber) && !IsFirstNearest(timestepNumbers, timestepNumber, 0) ==>
                IsFirstNearest(timestepNumbers, timestepNumber, currentTimestepIndex)
      ensures notified == if currentTimestepIndex == old(currentTimestepIndex) then old(notified)
                          else old(notified) + [CurrentTimestep()]
      ensures firstTimestepNumber == old(firstTimestepNumber) && lastTimestepNumber == old(lastTimestepNumber)
      ensures timestepNumberInc == old(timestepNumberInc)
    {
      var closestIndex := ClosestIndexAsWritten(timestepNumbers, timestepNumber);
      if closestIndex != -1 && closestIndex != currentTimestepIndex {
        currentTimestepIndex := closestIndex;
        NotifyListeners();
      }
    }

    /** SetTimestep as evidently intended: the nearest entry, entry 0
        included, the lowest index winning ties. */
    method SetTimestepCorrected(timestepNumber: int)
      requires Valid()
      modifies this
      ensures Valid() && timestepNumbers == old(timestepNumbers)
      ensures |timestepNumbers| == 0 ==> currentTimestepIndex == old(currentTimestepIndex)
      ensures |timestepNumbers| > 0 ==> IsFirstNearest(timestepNumbers, timestepNumber, currentTimestepIndex)
      ensures HasTimestep(timestepNumber) ==> CurrentTimestep() == timestepNumber
      ensures notified == if currentTimestepIndex == old(currentTimestepIndex) then old(notified)
                          else old(notified) + [CurrentTimestep()]
      ensures firstTimestepNumber == old(firstTimestepNumber) && lastTimestepNumber == old(lastTimestepNumber)
      ensures timestepNumberInc == old(timestepNumberInc)
    {
      var closestIndex := ClosestIndex(timestepNumbers, timestepNumber);
      if closestIndex != -1 && closestIndex != currentTimestepIndex {
        currentTimestepIndex := closestIndex;
        NotifyListeners();
      }
    }

    /** OnTimestepChanged.Invoke with the number now displayed. */
    method NotifyListeners()
      requires 0 <= currentTimestepIndex < |timestepNumbers|
      modifies this`notified
      ensures notified == old(notified) + [timestepNumbers[currentTimestepIndex]]
    {
      notified := notified + [timestepNumbers[currentTimestepIndex]];
    }
  }
}
