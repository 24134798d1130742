/** The cannibalization store: the rule set, the client hierarchy loaded from the server, the
    cases detected on it, and the family and year lists offered by the filters. Server
    responses are parameters (`None` when the request failed); `round` is the rounding the
    engine applies to the reported volumes. */
module CannibalizationStore {
  import opened Prelude
  import opened Sorting
  import opened CannibalizationTypes
  import opened CannibalizationEngine

  /** Drop 50%, growth 20%, at least 10 units a month, split in August. */
  const DefaultRules := DetectionRules(0.5, 0.2, 10.0, 8)

  /** A `Partial<DetectionRules>`: the fields a caller supplies. */
  datatype RulesPatch = RulesPatch(
    dropThreshold: Option<real>,
    growthThreshold: Option<real>,
    minVolume: Option<real>,
    splitMonth: Option<int>)

  /** `Object.assign(rules, patch)`: each supplied field overwrites, every other field stays. */
  function ApplyPatch(rules: DetectionRules, patch: RulesPatch): (r: DetectionRules)
    ensures r.dropThreshold == if patch.dropThreshold.Some? then patch.dropThreshold.value else rules.dropThreshold
    ensures r.growthThreshold == if patch.growthThreshold.Some? then patch.growthThreshold.value else rules.growthThreshold
    ensures r.minVolume == if patch.minVolume.Some? then patch.minVolume.value else rules.minVolume
    ensures r.splitMonth == if patch.splitMonth.Some? then patch.splitMonth.value else rules.splitMonth
  {
    var r := if patch.dropThreshold.Some? then rules.(dropThreshold := patch.dropThreshold.value) else rules;
    var r := if patch.growthThreshold.Some? then r.(growthThreshold := patch.growthThreshold.value) else r;
    var r := if patch.minVolume.Some? then r.(minVolume := patch.minVolume.value) else r;
    if patch.splitMonth.Some? then r.(splitMonth := patch.splitMonth.value) else r
  }

  const EmptyPatch := RulesPatch(None, None, None, None)

  /** An empty patch changes nothing, and applying the same patch twice is applying it once. */
  lemma PatchLaws(rules: DetectionRules, patch: RulesPatch)
    ensures ApplyPatch(rules, EmptyPatch) == rules
    ensures ApplyPatch(ApplyPatch(rules, patch), patch) == ApplyPatch(rules, patch)
  {
  }

  /** A patch that supplies every field replaces the rules whatever they were. */
  lemma FullPatchReplaces(rules: DetectionRules, other: DetectionRules)
    ensures ApplyPatch(rules, RulesPatch(Some(other.dropThreshold), Some(other.growthThreshold),
      Some(other.minVolume), Some(other.splitMonth))) == other
  {
  }

  /** What `analyze` stores: nothing for an empty hierarchy, otherwise the engine's result. */
  function Analyzed(rawData: seq<ClientNode>, rules: DetectionRules, round: (real, nat) -> real): seq<DetectedCannibalization>
  {
    if |rawData| == 0 then [] else Analysis(rawData, rules, round)
  }

  /** The empty-data shortcut agrees with the engine: with no clients the engine finds no case,
      so `analyze` always stores the engine's result. */
  lemma AnalyzedIsAnalysis(rawData: seq<ClientNode>, rules: DetectionRules, round: (real, nat) -> real)
    ensures Analyzed(rawData, rules, round) == Analysis(rawData, rules, round)
    ensures Analysis([], rules, round) == []
  {
  }

  /** `years.sort().reverse()`. */
  function YearsDescending(years: seq<string>): seq<string>
  {
    Reverse(Sort(years, LexLe))
  }

  /** The stored years are the fetched ones, most recent (greatest) first. */
  lemma YearsDescendingOrdered(years: seq<string>)
    ensures multiset(YearsDescending(years)) == multiset(years)
    ensures forall i, j :: 0 <= i < j < |years| ==> LexLe(YearsDescending(years)[j], YearsDescending(years)[i])
  {
    var s := Sort(years, LexLe);
    SortStringsAscending(years);
    ReverseMultiset(s);
  }

  lemma {:induction false} ReverseMultiset<T>(s: seq<T>)
    ensures multiset(Reverse(s)) == multiset(s)
  {
    if s != [] {
      ReverseMultiset(s[1..]);
      assert s == [s[0]] + s[1..];
    }
  }

  class Store {
    var isLoading: bool
    var rawData: seq<ClientNode>
    var detectedCases: seq<DetectedCannibalization>
    var availableFamilies: seq<string>
    var availableYears: seq<string>
    var rules: DetectionRules

    constructor()
      ensures !isLoading && rawData == [] && detectedCases == []
      ensures availableFamilies == [] && availableYears == []
      ensures rules == DefaultRules
    {
      isLoading := false;
      rawData := [];
      detectedCases := [];
      availableFamilies := [];
      availableYears := [];
      rules := DefaultRules;
    }

    /** The detected cases are those of the current data and rules. */
    ghost predicate Consistent(round: (real, nat) -> real)
      reads this
    {
      detectedCases == Analysis(rawData, rules, round)
    }

    method Analyze(round: (real, nat) -> real)
      modifies this
      ensures detectedCases == Analyzed(rawData, rules, round)
      ensures Consistent(round)
      ensures rawData == old(rawData) && rules == old(rules) && isLoading == old(isLoading)
      ensures availableFamilies == old(availableFamilies) && availableYears == old(availableYears)
    {
      AnalyzedIsAnalysis(rawData, rules, round);
      if |rawData| == 0 {
        detectedCases := [];
        return;
      }
      detectedCases := RunAnalysis(rawData, rules, round);
    }

    method UpdateRules(patch: RulesPatch, round: (real, nat) -> real)
      modifies this
      ensures rules == ApplyPatch(old(rules), patch)
      ensures detectedCases == Analyzed(rawData, rules, round)
      ensures Consistent(round)
      ensures rawData == old(rawData) && isLoading == old(isLoading)
      ensures availableFamilies == old(availableFamilies) && availableYears == old(availableYears)
    {
      rules := ApplyPatch(rules, patch);
      Analyze(round);
    }

    /** `response` is the server's hierarchy, or `None` when the request failed. On failure the
        data is emptied and the previous cases are left as they were. */
    method FetchData(response: Option<seq<ClientNode>>, round: (real, nat) -> real)
      modifies this
      ensures response.Some? ==> rawData == response.value && Consistent(round)
      ensures response.None? ==> rawData == [] && detectedCases == old(detectedCases)
      ensures !isLoading
      ensures rules == old(rules)
      ensures availableFamilies == old(availableFamilies) && availableYears == old(availableYears)
    {
      isLoading := true;
      if response.Some? {
        rawData := response.value;
        Analyze(round);
      } else {
        rawData := [];
      }
      isLoading := false;
    }

    /** `response` holds the families and years, or is `None` when either request failed, in
        which case nothing changes. */
    method LoadMetadata(response: Option<(seq<string>, seq<string>)>)
      modifies this
      ensures response.Some? ==> availableFamilies == response.value.0
      ensures response.Some? ==> availableYears == YearsDescending(response.value.1)
      ensures response.None? ==> availableFamilies == old(availableFamilies) && availableYears == old(availableYears)
      ensures rawData == old(rawData) && detectedCases == old(detectedCases) && rules == old(rules)
      ensures isLoading == old(isLoading)
    {
      if response.Some? {
        availableFamilies := response.value.0;
        var sorted := SortInOrder(response.value.1, LexLe);
        availableYears := Reverse(sorted);
      }
    }
  }
}
