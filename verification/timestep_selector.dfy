/**
 * ABRTimestepSelector: treats the DataImpressions that use a template data
 * path as templates, loads one KeyData per timestep whose data file exists,
 * and on every frame points each template impression at the KeyData of the
 * current timestep, flagging the impressions whose data changed.
 */
module TimestepSelection {
  import opened TimestepIndex

  /** Where a KeyData was loaded from: the template data path an impression was
      designed with, or the file of one timestep (the base data path followed by
      the timestep number). Loading the same path gives the same KeyData. */
  datatype DataPath = TemplatePath(path: string) | TimestepPath(basePath: string, timestep: int)
  datatype KeyData = KeyData(source: DataPath)

  /** The impression types whose KeyData the selector replaces, and the rest. */
  datatype ImpressionKind = SimpleLine | SimpleGlyph | SimpleSurface | SimpleVolume | OtherKind

  class DataImpression {
    const kind: ImpressionKind
    var keyData: KeyData
    /** RenderHints.DataChanged */
    var dataChanged: bool

    constructor (kind: ImpressionKind, keyData: KeyData)
      ensures this.kind == kind && this.keyData == keyData && !dataChanged
    {
      this.kind := kind;
      this.keyData := keyData;
      dataChanged := false;
    }
  }

  /** The entries of steps whose data file exists (want == true) or is missing
      (want == false), in their original order. */
  function Select(steps: seq<int>, fileExists: int -> bool, want: bool): (r: seq<int>)
    ensures |r| <= |steps|
  {
    if |steps| == 0 then []
    else
      var rest := Select(steps[1..], fileExists, want);
      if fileExists(steps[0]) == want then [steps[0]] + rest else rest
  }

  /** Select keeps exactly the entries with the wanted file status. */
  lemma {:induction false} SelectMembership(steps: seq<int>, fileExists: int -> bool, want: bool, n: int)
    ensures n in Select(steps, fileExists, want) <==> n in steps && fileExists(n) == want
  {
    if |steps| > 0 {
      SelectMembership(steps[1..], fileExists, want, n);
      assert n in steps <==> n == steps[0] || n in steps[1..];
    }
  }

  lemma {:induction false} SelectKeepsAscending(steps: seq<int>, fileExists: int -> bool, want: bool)
    requires StrictlyAscending(steps)
    ensures StrictlyAscending(Select(steps, fileExists, want))
  {
    if |steps| > 0 {
      var tail := steps[1..];
      assert StrictlyAscending(tail) by {
        forall i, j | 0 <= i < j < |tail| ensures tail[i] < tail[j] {
          assert tail[i] == steps[i + 1] && tail[j] == steps[j + 1];
        }
      }
      SelectKeepsAscending(tail, fileExists, want);
      var rest := Select(tail, fileExists, want);
      forall n | n in rest ensures steps[0] < n {
        SelectMembership(tail, fileExists, want, n);
        var k :| 0 <= k < |tail| && tail[k] == n;
        assert tail[k] == steps[k + 1];
      }
      if fileExists(steps[0]) == want {
        var r := [steps[0]] + rest;
        forall i, j | 0 <= i < j < |r| ensures r[i] < r[j] {
          assert r[j] == rest[j - 1] && r[j] in rest;
          if i > 0 {
            assert r[i] == rest[i - 1];
          }
        }
      }
    }
  }

  /** Every entry lands in exactly one of the two selections. */
  lemma {:induction false} SelectPartition(steps: seq<int>, fileExists: int -> bool)
    ensures |Select(steps, fileExists, true)| + |Select(steps, fileExists, false)| == |steps|
  {
    if |steps| > 0 {
      SelectPartition(steps[1..], fileExists);
    }
  }

  /** Select on a list that starts with n. */
  lemma SelectCons(n: int, rest: seq<int>, fileExists: int -> bool, want: bool)
    ensures Select([n] + rest, fileExists, want)
         == (if fileExists(n) == want then [n] else []) + Select(rest, fileExists, want)
  {
    assert ([n] + rest)[1..] == rest;
  }

  /** The timesteps the selector loads: ascending, and exactly the numbers
      first + k * inc up to last whose data file exists. */
  lemma LoadedTimesteps(first: int, last: int, inc: int, fileExists: int -> bool, n: int)
    requires inc > 0
    ensures StrictlyAscending(Select(Steps(first, last, inc), fileExists, true))
    ensures n in Select(Steps(first, last, inc), fileExists, true)
        <==> first <= n <= last && (n - first) % inc == 0 && fileExists(n)
  {
    StepsAscending(first, last, inc);
    SelectKeepsAscending(Steps(first, last, inc), fileExists, true);
    SelectMembership(Steps(first, last, inc), fileExists, true, n);
    StepsMembership(first, last, inc, n);
  }

  /** The KeyData loaded for each listed timestep, position by position. */
  function KeyDataFor(basePath: string, numbers: seq<int>): (kd: seq<KeyData>)
    ensures |kd| == |numbers|
    ensures forall k :: 0 <= k < |kd| ==> kd[k].source == TimestepPath(basePath, numbers[k])
  {
    seq(|numbers|, k requires 0 <= k < |numbers| => KeyData(TimestepPath(basePath, numbers[k])))
  }

  /** One turn of the loading loop: step i moves from the steps still to
      walk to the end of the list it belongs to. */
  lemma LoadStep(done: seq<int>, i: int, last: int, inc: int, fileExists: int -> bool, want: bool)
    requires inc > 0 && i <= last
    ensures done + Select(Steps(i, last, inc), fileExists, want)
         == (if fileExists(i) == want then done + [i] else done) + Select(Steps(i + inc, last, inc), fileExists, want)
  {
    var rest := Select(Steps(i + inc, last, inc), fileExists, want);
    SelectCons(i, Steps(i + inc, last, inc), fileExists, want);
    if fileExists(i) == want {
      assert done + ([i] + rest) == (done + [i]) + rest;
    } else {
      assert [] + rest == rest;
    }
  }

  lemma KeyDataForAppend(basePath: string, numbers: seq<int>, n: int)
    ensures KeyDataFor(basePath, numbers + [n]) == KeyDataFor(basePath, numbers) + [KeyData(TimestepPath(basePath, n))]
  {
  }

  /** The loading loop: walks first, first + inc, ... up to last, listing each
      step whose data file exists with its KeyData and reporting the others as
      skipped. */
  method LoadSteps(first: int, last: int, inc: int, basePath: string, fileExists: int -> bool)
    returns (numbers: seq<int>, keyData: seq<KeyData>, skipped: seq<int>)
    requires inc > 0 || first > last
    ensures numbers == Select(Steps(first, last, inc), fileExists, true)
    ensures keyData == KeyDataFor(basePath, numbers)
    ensures skipped == Select(Steps(first, last, inc), fileExists, false)
  {
    numbers, keyData, skipped := [], [], [];
    if inc <= 0 {
      assert first > last && Steps(first, last, inc) == [];
      return;
    }
    ghost var loaded := Select(Steps(first, last, inc), fileExists, true);
    ghost var missing := Select(Steps(first, last, inc), fileExists, false);
    ghost var rest := Steps(first, last, inc);
    var i := first;
    while i <= last
      invariant rest == Steps(i, last, inc)
      invariant numbers + Select(rest, fileExists, true) == loaded
      invariant skipped + Select(rest, fileExists, false) == missing
      invariant keyData == KeyDataFor(basePath, numbers)
      decreases last - i
    {
      LoadStep(numbers, i, last, inc, fileExists, true);
      LoadStep(skipped, i, last, inc, fileExists, false);
      if fileExists(i) {
        KeyDataForAppend(basePath, numbers, i);
        numbers := numbers + [i];
        keyData := keyData + [KeyData(TimestepPath(basePath, i))];
      } else {
        skipped := skipped + [i];
      }
      i := i + inc;
      rest := Steps(i, last, inc);
    }
    assert rest == [];
    assert numbers + [] == numbers && skipped + [] == skipped;
  }

  /** The line, glyph, surface and volume impressions in seen whose KeyData,
      as recorded in keys, is not key: those the swap loop renders for, each
      once however often the list holds it. */
  ghost function Stale(seen: set<DataImpression>, keys: map<DataImpression, KeyData>, key: KeyData): set<DataImpression>
  {
    set d | d in seen && d in keys && d.kind != OtherKind && keys[d] != key
  }

  lemma StaleAdd(seen: set<DataImpression>, x: DataImpression, keys: map<DataImpression, KeyData>, key: KeyData)
    ensures |Stale(seen + {x}, keys, key)|
         == |Stale(seen, keys, key)| + if x !in seen && x in keys && x.kind != OtherKind && keys[x] != key then 1 else 0
  {
    if x !in seen && x in keys && x.kind != OtherKind && keys[x] != key {
      assert Stale(seen + {x}, keys, key) == Stale(seen, keys, key) + {x};
    } else {
      assert Stale(seen + {x}, keys, key) == Stale(seen, keys, key);
    }
  }

  /** The state the swap loop leaves d in once the impressions in seen have
      been visited: KeyData set to key and the changed flag raised if it
      differed, for a line, glyph, surface or volume impression in seen;
      otherwise the state recorded in keys and flags. */
  ghost predicate Swapped(d: DataImpression, seen: set<DataImpression>, keys: map<DataImpression, KeyData>,
                          flags: map<DataImpression, bool>, key: KeyData)
    requires d in keys && d in flags
    reads d
  {
    if d in seen && d.kind != OtherKind then d.keyData == key && d.dataChanged == (flags[d] || keys[d] != key)
    else d.keyData == keys[d] && d.dataChanged == flags[d]
  }

  class ABRTimestepSelector {
    var dataPathForTemplateDataImpressions: string
    var baseDataPathForTimesteps: string
    var firstTimestepNumber: int
    var lastTimestepNumber: int
    var timestepNumberInc: int

    var dataImpressions: seq<DataImpression>
    var timestepNumbers: seq<int>
    var timestepKeyData: seq<KeyData>
    /** An index into timestepNumbers and timestepKeyData, not a timestep number. */
    var currentTimestepIndex: int

    /** Calls to ABREngine.Render. */
    var renderRequests: nat
    /** Warnings that no impression uses the template data path. */
    var noImpressionWarnings: nat
    /** Timesteps skipped because their data file is missing, in warning order. */
    var skippedTimesteps: seq<int>

    /** The two lists stay parallel, and the index points into them or is 0
        while they are empty. */
    ghost predicate Valid()
      reads this
    {
      |timestepKeyData| == |timestepNumbers| &&
      0 <= currentTimestepIndex &&
      (currentTimestepIndex < |timestepNumbers| || (|timestepNumbers| == 0 && currentTimestepIndex == 0))
    }

    /** The component with its inspector defaults, after Start. */
    constructor ()
      ensures dataPathForTemplateDataImpressions == "LANL/FireSim/KeyData/Wind"
      ensures baseDataPathForTimesteps == "LANL/FireSim/KeyData/Wind_"
      ensures firstTimestepNumber == 4 && lastTimestepNumber == 74 && timestepNumberInc == 14
      ensures dataImpressions == [] && timestepNumbers == [] && timestepKeyData == []
      ensures currentTimestepIndex == 0 && renderRequests == 0
      ensures noImpressionWarnings == 0 && skippedTimesteps == []
      ensures Valid()
    {
      dataPathForTemplateDataImpressions := "LANL/FireSim/KeyData/Wind";
      baseDataPathForTimesteps := "LANL/FireSim/KeyData/Wind_";
      firstTimestepNumber := 4;
      lastTimestepNumber := 74;
      timestepNumberInc := 14;
      dataImpressions := [];
      timestepNumbers := [];
      timestepKeyData := [];
      currentTimestepIndex := 0;
      renderRequests := 0;
      noImpressionWarnings := 0;
      skippedTimesteps := [];
    }

    function HasTimestep(timestepNumber: int): (r: bool)
      reads this
      ensures r <==> exists k :: 0 <= k < |timestepNumbers| && timestepNumbers[k] == timestepNumber
    {
      timestepNumber in timestepNumbers
    }

    /** The timestep number whose data are displayed, or -1 before any are loaded. */
    function CurrentTimestep(): (n: int)
      reads this
      requires Valid()
      ensures |timestepNumbers| == 0 ==> n == -1
      ensures |timestepNumbers| > 0 ==> HasTimestep(n)
    {
      if |timestepNumbers| > 0 then timestepNumbers[currentTimestepIndex] else -1
    }

    /** SetTimestep, as written: the same choice as the animation
        controller's, entry 0 never being chosen by the scan. Nothing is
        notified; the next Update swaps the KeyData. */
    method SetTimestep(timestepNumber: int)
      requires Valid()
      modifies this`currentTimestepIndex
      ensures Valid()
      ensures |timestepNumbers| == 0 ==> currentTimestepIndex == old(currentTimestepIndex)
      ensures HasTimestep(timestepNumber) ==>
                currentTimestepIndex == IndexOf(timestepNumbers, timestepNumber) && CurrentTimestep() == timestepNumber
      ensures |timestepNumbers| > 0 && !HasTimestep(timestepNumber) && IsFirstNearest(timestepNumbers, timestepNumber, 0) ==>
                currentTimestepIndex == old(currentTimestepIndex)
      ensures |timestepNumbers| > 0 && !HasTimestep(timestepNumber) && !IsFirstNearest(timestepNumbers, timestepNumber, 0) ==>
                IsFirstNearest(timestepNumbers, timestepNumber, currentTimestepIndex)
    {
      var closestIndex := ClosestIndexAsWritten(timestepNumbers, timestepNumber);
      if closestIndex != -1 && closestIndex != currentTimestepIndex {
        currentTimestepIndex := closestIndex;
      }
    }

    /** SetTimestep as evidently intended: the nearest entry, entry 0
        included, the lowest index winning ties. */
    method SetTimestepCorrected(timestepNumber: int)
      requires Valid()
      modifies this`currentTimestepIndex
      ensures Valid()
      ensures |timestepNumbers| == 0 ==> currentTimestepIndex == old(currentTimestepIndex)
      ensures |timestepNumbers| > 0 ==> IsFirstNearest(timestepNumbers, timestepNumber, currentTimestepIndex)
      ensures HasTimestep(timestepNumber) ==> CurrentTimestep() == timestepNumber
    {
      var closestIndex := ClosestIndex(timestepNumbers, timestepNumber);
      if closestIndex != -1 && closestIndex != currentTimestepIndex {
        currentTimestepIndex := closestIndex;
      }
    }

    ghost function ImpressionsAfterLookup(engineImpressions: seq<DataImpression>): seq<DataImpression>
      reads this
    {
      if |dataImpressions| == 0 then engineImpressions else dataImpressions
    }

    /** Whether this frame loads the timesteps: impressions are known and
        nothing has been loaded yet. */
    ghost predicate LoadsThisFrame(engineImpressions: seq<DataImpression>)
      reads this
    {
      |ImpressionsAfterLookup(engineImpressions)| != 0 && |timestepKeyData| == 0
    }

    /** The first part of a frame: finds the impressions by template data
        path while none are known (warning on the first frame if there are
        none), then loads the timesteps once impressions are known and none
        are loaded. */
    method LookupAndLoad(frameCount: int, engineImpressions: seq<DataImpression>, fileExists: int -> bool)
      requires Valid()
      requires LoadsThisFrame(engineImpressions) ==> timestepNumberInc > 0 || firstTimestepNumber > lastTimestepNumber
      modifies this`dataImpressions, this`noImpressionWarnings
      modifies this`timestepNumbers, this`timestepKeyData, this`skippedTimesteps
      ensures Valid()
      ensures dataImpressions == old(ImpressionsAfterLookup(engineImpressions))
      ensures noImpressionWarnings
           == old(noImpressionWarnings) + (if old(|dataImpressions|) == 0 && frameCount == 1 && |engineImpressions| == 0 then 1 else 0)
      ensures old(LoadsThisFrame(engineImpressions)) ==>
                timestepNumbers == Select(Steps(firstTimestepNumber, lastTimestepNumber, timestepNumberInc), fileExists, true) &&
                timestepKeyData == KeyDataFor(baseDataPathForTimesteps, timestepNumbers) &&
                skippedTimesteps == old(skippedTimesteps)
                  + Select(Steps(firstTimestepNumber, lastTimestepNumber, timestepNumberInc), fileExists, false)
      ensures !old(LoadsThisFrame(engineImpressions)) ==>
                timestepNumbers == old(timestepNumbers) && timestepKeyData == old(timestepKeyData) &&
                skippedTimesteps == old(skippedTimesteps)
    {
      if |dataImpressions| == 0 {
        dataImpressions := engineImpressions;
        if frameCount == 1 && |dataImpressions| == 0 {
          noImpressionWarnings := noImpressionWarnings + 1;
        }
      }
      if |dataImpressions| != 0 && |timestepKeyData| == 0 {
        var numbers, keyData, skipped := LoadSteps(firstTimestepNumber, lastTimestepNumber, timestepNumberInc,
                                                   baseDataPathForTimesteps, fileExists);
        timestepNumbers, timestepKeyData, skippedTimesteps := numbers, keyData, skippedTimesteps + skipped;
      }
    }

    /** One frame. engineImpressions stands for the engine's answer to the
        lookup by template data path, fileExists for the data-file check and
        frameCount for Time.frameCount. indexError reports the frame on which
        the source reads timestepKeyData while it is still empty (no data file
        was found), which throws and ends the frame there. */
    method Update(frameCount: int, engineImpressions: seq<DataImpression>, fileExists: int -> bool)
      returns (indexError: bool)
      requires Valid()
      requires LoadsThisFrame(engineImpressions) ==> timestepNumberInc > 0 || firstTimestepNumber > lastTimestepNumber
      modifies this`dataImpressions, this`noImpressionWarnings
      modifies this`timestepNumbers, this`timestepKeyData, this`skippedTimesteps, this`renderRequests
      modifies set d: DataImpression | d in dataImpressions + engineImpressions
      ensures Valid()
      ensures dataImpressions == old(ImpressionsAfterLookup(engineImpressions))
      ensures noImpressionWarnings
           == old(noImpressionWarnings) + (if old(|dataImpressions|) == 0 && frameCount == 1 && |engineImpressions| == 0 then 1 else 0)
      ensures old(LoadsThisFrame(engineImpressions)) ==>
                timestepNumbers == Select(Steps(firstTimestepNumber, lastTimestepNumber, timestepNumberInc), fileExists, true) &&
                timestepKeyData == KeyDataFor(baseDataPathForTimesteps, timestepNumbers) &&
                skippedTimesteps == old(skippedTimesteps)
                  + Select(Steps(firstTimestepNumber, lastTimestepNumber, timestepNumberInc), fileExists, false)
      ensures !old(LoadsThisFrame(engineImpressions)) ==>
                timestepNumbers == old(timestepNumbers) && timestepKeyData == old(timestepKeyData) &&
                skippedTimesteps == old(skippedTimesteps)
      ensures indexError <==> |timestepKeyData| == 0 && exists d :: d in dataImpressions && d.kind != OtherKind
      ensures indexError ==> renderRequests == old(renderRequests)
      ensures indexError ==> forall d :: d in dataImpressions ==> d.keyData == old(d.keyData) && d.dataChanged == old(d.dataChanged)
      ensures !indexError ==> forall d :: d in dataImpressions && d.kind != OtherKind ==>
                d.keyData == timestepKeyData[currentTimestepIndex] &&
                d.dataChanged == (old(d.dataChanged) || old(d.keyData) != timestepKeyData[currentTimestepIndex])
      ensures forall d :: d in dataImpressions && d.kind == OtherKind ==>
                d.keyData == old(d.keyData) && d.dataChanged == old(d.dataChanged)
      ensures !indexError ==> (renderRequests > old(renderRequests) <==>
                exists d :: d in dataImpressions && d.kind != OtherKind && old(d.keyData) != timestepKeyData[currentTimestepIndex])
      ensures !indexError ==>
                renderRequests == old(renderRequests) +
                  |set d | d in dataImpressions && d.kind != OtherKind && old(d.keyData) != timestepKeyData[currentTimestepIndex]|
    {
      LookupAndLoad(frameCount, engineImpressions, fileExists);
      label Loaded:
      indexError := SwapKeyData();
      if !indexError && |timestepKeyData| > 0 {
        ghost var key := timestepKeyData[currentTimestepIndex];
        assert (set d | d in dataImpressions && d.kind != OtherKind && old@Loaded(d.keyData) != key)
            == (set d | d in dataImpressions && d.kind != OtherKind && old(d.keyData) != key);
      }
    }

    /** The swap loop: each line, glyph, surface or volume impression whose
        KeyData is not the current timestep's gets it, is flagged as changed
        and requests a render. */
    method SwapKeyData() returns (indexError: bool)
      requires Valid()
      modifies this`renderRequests, set d: DataImpression | d in dataImpressions
      ensures indexError <==> |timestepKeyData| == 0 && exists d :: d in dataImpressions && d.kind != OtherKind
      ensures indexError ==> renderRequests == old(renderRequests)
      ensures indexError ==> forall d :: d in dataImpressions ==> d.keyData == old(d.keyData) && d.dataChanged == old(d.dataChanged)
      ensures !indexError ==> forall d :: d in dataImpressions && d.kind != OtherKind ==>
                d.keyData == timestepKeyData[currentTimestepIndex] &&
                d.dataChanged == (old(d.dataChanged) || old(d.keyData) != timestepKeyData[currentTimestepIndex])
      ensures forall d :: d in dataImpressions && d.kind == OtherKind ==>
                d.keyData == old(d.keyData) && d.dataChanged == old(d.dataChanged)
      ensures !indexError ==> (renderRequests > old(renderRequests) <==>
                exists d :: d in dataImpressions && d.kind != OtherKind && old(d.keyData) != timestepKeyData[currentTimestepIndex])
      ensures !indexError ==>
                renderRequests == old(renderRequests) +
                  |set d | d in dataImpressions && d.kind != OtherKind && old(d.keyData) != timestepKeyData[currentTimestepIndex]|
    {
      if |timestepKeyData| == 0 {
        // The source throws at the first line, glyph, surface or volume
        // impression; none before it has been changed.
        indexError := exists d :: d in dataImpressions && d.kind != OtherKind;
        return;
      }
      indexError := false;
      SwapAll(timestepKeyData[currentTimestepIndex]);
      ghost var stale := set d | d in dataImpressions && d.kind != OtherKind && old(d.keyData) != timestepKeyData[currentTimestepIndex];
      if stale != {} {
        ghost var w :| w in stale;
      } else {
        assert forall d :: d in dataImpressions && d.kind != OtherKind ==>
                 old(d.keyData) == timestepKeyData[currentTimestepIndex] by {
          forall d | d in dataImpressions && d.kind != OtherKind
            ensures old(d.keyData) == timestepKeyData[currentTimestepIndex]
          {
            assert d !in stale;
          }
        }
      }
    }

    /** The swap loop once a KeyData for the current timestep exists: each
        line, glyph, surface or volume impression whose KeyData is not key
        gets it, is flagged as changed and requests a render, once however
        often the list holds it. */
    method SwapAll(key: KeyData)
      modifies this`renderRequests, set d: DataImpression | d in dataImpressions
      ensures forall d :: d in dataImpressions && d.kind != OtherKind ==>
                d.keyData == key && d.dataChanged == (old(d.dataChanged) || old(d.keyData) != key)
      ensures forall d :: d in dataImpressions && d.kind == OtherKind ==>
                d.keyData == old(d.keyData) && d.dataChanged == old(d.dataChanged)
      ensures renderRequests == old(renderRequests) +
                |set d | d in dataImpressions && d.kind != OtherKind && old(d.keyData) != key|
    {
      ghost var keys := map d | d in dataImpressions :: d.keyData;
      ghost var flags := map d | d in dataImpressions :: d.dataChanged;
      ghost var seen: set<DataImpression> := {};
      var i := 0;
      while i < |dataImpressions|
        invariant 0 <= i <= |dataImpressions|
        invariant forall j :: 0 <= j < i ==> dataImpressions[j] in seen
        invariant seen <= keys.Keys
        invariant forall d :: d in keys ==> d in flags && Swapped(d, seen, keys, flags, key)
        invariant renderRequests == old(renderRequests) + |Stale(seen, keys, key)|
      {
        var di := dataImpressions[i];
        StaleAdd(seen, di, keys, key);
        if di.kind != OtherKind && di.keyData != key {
          di.keyData := key;
          di.dataChanged := true;
          renderRequests := renderRequests + 1;
        }
        seen := seen + {di};
        i := i + 1;
      }
      assert forall d :: d in dataImpressions ==> d in seen;
      assert Stale(seen, keys, key) == set d | d in dataImpressions && d.kind != OtherKind && old(d.keyData) != key;
    }
  }
}
