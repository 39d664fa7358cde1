/**
 * The rule by which the volume, line and surface accessors pick "their" data
 * impression from the ones the engine reports, re-run every frame
 * (UpdateCurrentDataImpression in the three accessor classes). The engine's list
 * is modelled by the sequence of the impressions' key-data paths.
 */
module ImpressionSelection {
  import opened Wrappers

  /** Whether path has key as a code-point prefix, when a suffix (e.g. a
      timestep number) may follow the configured path; `path == key`
      otherwise. The code-point prefix stands for `StartsWith`, which agrees
      with it on ASCII paths. */
  predicate PathMatches(path: string, key: string, canIncludeSuffix: bool)
  {
    if canIncludeSuffix then key <= path else path == key
  }

  /** What the selection promises: no candidate gives nothing, a single candidate
      is taken whatever its path, and among several the LAST one whose path
      matches wins (each match overwrites the previous choice); if none matches,
      nothing is chosen. */
  ghost predicate IsSelection(paths: seq<string>, key: string, canIncludeSuffix: bool, chosen: Option<nat>)
  {
    if |paths| == 0 then chosen == None
    else if |paths| == 1 then chosen == Some(0)
    else match chosen
      case None =>
        forall j :: 0 <= j < |paths| ==> !PathMatches(paths[j], key, canIncludeSuffix)
      case Some(k) =>
        k < |paths| && PathMatches(paths[k], key, canIncludeSuffix) &&
        forall j :: k < j < |paths| ==> !PathMatches(paths[j], key, canIncludeSuffix)
  }

  /** The selection loop shared by the three accessors. `ambiguous` records the
      warning the source logs when several impressions exist but none matches. */
  method SelectImpression(paths: seq<string>, key: string, canIncludeSuffix: bool)
    returns (chosen: Option<nat>, ambiguous: bool)
    ensures IsSelection(paths, key, canIncludeSuffix, chosen)
    ensures chosen.Some? ==> chosen.value < |paths|
    ensures ambiguous <==> |paths| > 1 && chosen == None
  {
    chosen := None;
    if |paths| == 1 {
      chosen := Some(0);
    } else if |paths| > 1 {
      for i := 0 to |paths|
        invariant chosen.None? ==> forall j :: 0 <= j < i ==> !PathMatches(paths[j], key, canIncludeSuffix)
        invariant chosen.Some? ==>
          chosen.value < i && PathMatches(paths[chosen.value], key, canIncludeSuffix) &&
          forall j :: chosen.value < j < i ==> !PathMatches(paths[j], key, canIncludeSuffix)
      {
        if PathMatches(paths[i], key, canIncludeSuffix) {
          chosen := Some(i);
        }
      }
    }
    ambiguous := |paths| > 1 && chosen == None;
  }

  /** The selection is a function of its inputs: at most one choice satisfies it. */
  lemma SelectionIsUnique(paths: seq<string>, key: string, suffix: bool, c1: Option<nat>, c2: Option<nat>)
    requires IsSelection(paths, key, suffix, c1) && IsSelection(paths, key, suffix, c2)
    ensures c1 == c2
  {
  }

  /** Among several candidates, a path that matches exactly is also accepted in
      prefix mode, so switching the suffix flag on never loses a match: whatever
      exact mode chooses, prefix mode chooses it or a later candidate. */
  lemma ExactChoiceSurvivesPrefixMode(paths: seq<string>, key: string, ce: Option<nat>, cp: Option<nat>)
    requires |paths| > 1
    requires IsSelection(paths, key, false, ce) && IsSelection(paths, key, true, cp)
    ensures ce.Some? ==> cp.Some? && ce.value <= cp.value
  {
  }
}
