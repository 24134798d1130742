/** The cannibalization detector: per client and product family it classifies SKUs as
    victims (sales dropped after the split month) or cannibals (sales grew), pairs the
    largest victim with the largest cannibal, and ranks the resulting cases by impact.
    `round(x, d)` stands for `parseFloat(x.toFixed(d))`. */
module CannibalizationEngine {
  import opened Prelude
  import opened Sorting
  import opened CannibalizationTypes

  /** A `slice` bound: a negative one counts from the end; both are clamped to the length. */
  function SliceBound(i: int, len: nat): (b: nat)
    ensures b <= len
  {
    if i < 0 then Max(len + i, 0) else Min(i, len)
  }

  /** `vector.slice(start, end)`. */
  function Slice(v: seq<real>, start: int, end: int): (r: seq<real>)
    ensures |r| == Max(0, SliceBound(end, |v|) - SliceBound(start, |v|))
    ensures forall i :: 0 <= i < |r| ==> r[i] == v[SliceBound(start, |v|) + i]
  {
    var s := SliceBound(start, |v|);
    var e := SliceBound(end, |v|);
    if e <= s then [] else v[s..e]
  }

  /** Mean of `vector.slice(start, end)`, 0 for an empty slice. */
  function CalculateAverage(v: seq<real>, start: int, end: int): real
  {
    var slice := Slice(v, start, end);
    if |slice| == 0 then 0.0 else Sum(slice) / (|slice| as real)
  }

  /** The average times the number of months averaged gives back their total. */
  lemma AverageTimesCount(v: seq<real>, start: int, end: int)
    ensures |Slice(v, start, end)| == 0 ==> CalculateAverage(v, start, end) == 0.0
    ensures CalculateAverage(v, start, end) * (|Slice(v, start, end)| as real) == Sum(Slice(v, start, end))
  {
  }

  /** The mean lies between any lower and upper bound of the averaged months. */
  lemma AverageBounds(v: seq<real>, start: nat, end: nat, lo: real, hi: real)
    requires start < end <= |v|
    requires forall i :: start <= i < end ==> lo <= v[i] <= hi
    ensures lo <= CalculateAverage(v, start, end) <= hi
  {
    var slice := Slice(v, start, end);
    SumBounds(slice, lo, hi);
    QuotientBounds(Sum(slice), |slice| as real, lo, hi);
  }

  lemma QuotientBounds(total: real, n: real, lo: real, hi: real)
    requires n > 0.0 && n * lo <= total <= n * hi
    ensures lo <= total / n <= hi
  {
    var q := total / n;
    assert q * n == total;
    assert (q - lo) * n >= 0.0 && (hi - q) * n >= 0.0;
  }

  lemma {:induction false} SumBounds(s: seq<real>, lo: real, hi: real)
    requires forall i :: 0 <= i < |s| ==> lo <= s[i] <= hi
    ensures (|s| as real) * lo <= Sum(s) <= (|s| as real) * hi
  {
    if s != [] {
      SumBounds(s[..|s| - 1], lo, hi);
    }
  }

  /** `num / den >= t` for a positive denominator, without the division. */
  lemma RatioAtLeast(num: real, den: real, t: real)
    requires den > 0.0
    ensures num / den >= t <==> num >= t * den
  {
    var q := num / den;
    assert q * den == num;
    if q >= t {
      assert q * den >= t * den;
    } else {
      assert q * den < t * den;
    }
  }

  /** Index of the first post-split month: month 1..12 becomes index 0..11. */
  function SplitIndex(rules: DetectionRules): int
  {
    rules.splitMonth - 1
  }

  /** `12 - splitIndex`: the months from the split to December, over which a change of the
      monthly average is projected. */
  function PostMonths(splitIndex: int): real
  {
    (12 - splitIndex) as real
  }

  /** A change of the monthly average, projected over the months after the split. */
  function Projected(monthlyChange: real, splitIndex: int): real
  {
    monthlyChange * PostMonths(splitIndex)
  }

  function AvgPre(sku: SkuMonthlyData, rules: DetectionRules): real
  {
    CalculateAverage(sku.salesVector, 0, SplitIndex(rules))
  }

  function AvgPost(sku: SkuMonthlyData, rules: DetectionRules): real
  {
    CalculateAverage(sku.salesVector, SplitIndex(rules), 12)
  }

  /** A SKU whose combined averages stay under `minVolume` is noise and never classified. */
  predicate IsNoise(sku: SkuMonthlyData, rules: DetectionRules)
  {
    AvgPre(sku, rules) + AvgPost(sku, rules) < rules.minVolume
  }

  datatype Victim = Victim(sku: SkuMonthlyData, avgPre: real, avgPost: real, loss: real)

  datatype Cannibal = Cannibal(sku: SkuMonthlyData, avgPre: real, avgPost: real, gain: real)

  /** The victim record of a SKU with the given averages, if it is not noise and its
      relative drop reaches `dropThreshold`. */
  function VictimGiven(sku: SkuMonthlyData, pre: real, post: real, splitIndex: int, rules: DetectionRules): Option<Victim>
  {
    if pre + post < rules.minVolume || pre <= 0.0 then None
    else if (pre - post) / pre >= rules.dropThreshold then
      Some(Victim(sku, pre, post, Projected(pre - post, splitIndex)))
    else None
  }

  /** The cannibal record of a SKU with the given averages, if it is not noise, grew, and its
      growth rate (999 for a SKU without pre-split sales) reaches `growthThreshold`. */
  function CannibalGiven(sku: SkuMonthlyData, pre: real, post: real, splitIndex: int, rules: DetectionRules): Option<Cannibal>
  {
    if pre + post < rules.minVolume || post - pre <= 0.0 then None
    else
      var growthRate := if pre > 0.0 then (post - pre) / pre else 999.0;
      if growthRate >= rules.growthThreshold then
        Some(Cannibal(sku, pre, post, Projected(post - pre, splitIndex)))
      else None
  }

  function VictimOf(sku: SkuMonthlyData, rules: DetectionRules): Option<Victim>
  {
    VictimGiven(sku, AvgPre(sku, rules), AvgPost(sku, rules), SplitIndex(rules), rules)
  }

  function CannibalOf(sku: SkuMonthlyData, rules: DetectionRules): Option<Cannibal>
  {
    CannibalGiven(sku, AvgPre(sku, rules), AvgPost(sku, rules), SplitIndex(rules), rules)
  }

  /** The victims of a family in SKU order. */
  function Victims(skus: seq<SkuMonthlyData>, rules: DetectionRules): seq<Victim>
  {
    Collect(skus, sku => VictimOf(sku, rules))
  }

  /** The cannibals of a family in SKU order. */
  function Cannibals(skus: seq<SkuMonthlyData>, rules: DetectionRules): seq<Cannibal>
  {
    Collect(skus, sku => CannibalOf(sku, rules))
  }

  /** `(a, b) => b.loss - a.loss`: larger losses first. */
  predicate LossFirst(a: Victim, b: Victim) { a.loss >= b.loss }

  /** `(a, b) => b.gain - a.gain`: larger gains first. */
  predicate GainFirst(a: Cannibal, b: Cannibal) { a.gain >= b.gain }

  /** `(a, b) => b.impactScore - a.impactScore`: larger impact first. */
  predicate ImpactFirst(a: DetectedCannibalization, b: DetectedCannibalization)
  {
    a.impactScore >= b.impactScore
  }

  /** `x * 100` then rounded to one decimal; NaN and the infinities pass through. */
  function PercentRounded(x: Number, round: (real, nat) -> real): Number
  {
    match x
    case Finite(q) => Finite(round(q * 100.0, 1))
    case NaN => NaN
    case PosInfinity => PosInfinity
    case NegInfinity => NegInfinity
  }

  function BuildCase(client: ClientNode, family: FamilyGroup, v: Victim, c: Cannibal,
                     round: (real, nat) -> real): DetectedCannibalization
  {
    DetectedCannibalization(
      client.id + "-" + family.name, client.name, client.matriz, client.gerencia,
      client.jefatura, client.route, family.name, v.sku.name, c.sku.name,
      round(v.loss, 2), round(c.gain, 2), round(c.gain - v.loss, 2),
      PercentRounded(Divide(c.gain, v.loss), round), v.loss + c.gain)
  }

  /** The case a family yields: its main victim paired with its main cannibal. */
  function FamilyCase(client: ClientNode, family: FamilyGroup, rules: DetectionRules,
                      round: (real, nat) -> real): Option<DetectedCannibalization>
  {
    var vs := Victims(family.skus, rules);
    var cs := Cannibals(family.skus, rules);
    if |vs| > 0 && |cs| > 0 then
      Some(BuildCase(client, family, Sort(vs, LossFirst)[0], Sort(cs, GainFirst)[0], round))
    else None
  }

  /** The cases of a client's families, in family order. */
  function ClientCases(client: ClientNode, rules: DetectionRules, round: (real, nat) -> real)
    : seq<DetectedCannibalization>
  {
    Collect(client.families, family => FamilyCase(client, family, rules, round))
  }

  /** The cases of one client, as a function of the client. */
  function CasesOf(rules: DetectionRules, round: (real, nat) -> real): ClientNode -> seq<DetectedCannibalization>
  {
    client => ClientCases(client, rules, round)
  }

  /** The cases of all clients, in client order. */
  function AllCases(data: seq<ClientNode>, rules: DetectionRules, round: (real, nat) -> real)
    : seq<DetectedCannibalization>
  {
    ConcatMap(data, CasesOf(rules, round))
  }

  /** The result of the analysis: nothing for a split month without months on both sides,
      otherwise all cases ranked by impact. */
  function Analysis(data: seq<ClientNode>, rules: DetectionRules, round: (real, nat) -> real)
    : seq<DetectedCannibalization>
  {
    if !ComparableSplitMonth(rules.splitMonth) then []
    else Sort(AllCases(data, rules, round), ImpactFirst)
  }

  /** The body of the per-SKU step once both averages are known: the noise filter, then the
      victim test and the cannibal test. */
  method ClassifySku(sku: SkuMonthlyData, avgPre: real, avgPost: real, splitIndex: int, rules: DetectionRules)
    returns (victim: Option<Victim>, cannibal: Option<Cannibal>)
    ensures victim == VictimGiven(sku, avgPre, avgPost, splitIndex, rules)
    ensures cannibal == CannibalGiven(sku, avgPre, avgPost, splitIndex, rules)
  {
    victim, cannibal := None, None;
    if avgPre + avgPost < rules.minVolume {
      return;
    }
    if avgPre > 0.0 {
      var dropRate := (avgPre - avgPost) / avgPre;
      if dropRate >= rules.dropThreshold {
        victim := Some(Victim(sku, avgPre, avgPost, Projected(avgPre - avgPost, splitIndex)));
      }
    }
    var gainDiff := avgPost - avgPre;
    if gainDiff > 0.0 {
      var growthRate := if avgPre > 0.0 then (avgPost - avgPre) / avgPre else 999.0;
      if growthRate >= rules.growthThreshold {
        cannibal := Some(Cannibal(sku, avgPre, avgPost, Projected(gainDiff, splitIndex)));
      }
    }
  }

  /** Step 1 for one family: classify every SKU, keeping SKU order in both lists. */
  method ClassifySkus(family: FamilyGroup, rules: DetectionRules)
    returns (victims: seq<Victim>, cannibals: seq<Cannibal>)
    ensures victims == Victims(family.skus, rules)
    ensures cannibals == Cannibals(family.skus, rules)
  {
    var splitIndex := rules.splitMonth - 1;
    victims := [];
    cannibals := [];
    var k := 0;
    while k < |family.skus|
      invariant 0 <= k <= |family.skus|
      invariant victims == Victims(family.skus[..k], rules)
      invariant cannibals == Cannibals(family.skus[..k], rules)
    {
      var sku := family.skus[k];
      var avgPre := CalculateAverage(sku.salesVector, 0, splitIndex);
      var avgPost := CalculateAverage(sku.salesVector, splitIndex, 12);
      var victim, cannibal := ClassifySku(sku, avgPre, avgPost, splitIndex, rules);
      victims := victims + Listed(victim);
      cannibals := cannibals + Listed(cannibal);
      ClassifyStep(family.skus, k, rules);
      k := k + 1;
    }
    assert family.skus[..k] == family.skus;
  }

  lemma ClassifyStep(skus: seq<SkuMonthlyData>, k: nat, rules: DetectionRules)
    requires k < |skus|
    ensures Victims(skus[..k + 1], rules) == Victims(skus[..k], rules) + Listed(VictimOf(skus[k], rules))
    ensures Cannibals(skus[..k + 1], rules) == Cannibals(skus[..k], rules) + Listed(CannibalOf(skus[k], rules))
  {
    CollectStep(skus, k, sku => VictimOf(sku, rules));
    CollectStep(skus, k, sku => CannibalOf(sku, rules));
  }

  /** Step 2 for one family: when it has victims and cannibals, sort both by volume and pair
      the heads into a case. */
  method MatchFamily(client: ClientNode, family: FamilyGroup, rules: DetectionRules,
                     round: (real, nat) -> real)
    returns (found: Option<DetectedCannibalization>)
    ensures found == FamilyCase(client, family, rules, round)
  {
    var victims, cannibals := ClassifySkus(family, rules);
    if |victims| == 0 || |cannibals| == 0 {
      return None;
    }
    var byLoss := SortInOrder(victims, LossFirst);
    var byGain := SortInOrder(cannibals, GainFirst);
    SortHead(victims, LossFirst);
    SortHead(cannibals, GainFirst);
    found := Some(BuildCase(client, family, byLoss[0], byGain[0], round));
  }

  /** The families of one client, each matched in turn. */
  method MatchClient(client: ClientNode, rules: DetectionRules, round: (real, nat) -> real)
    returns (found: seq<DetectedCannibalization>)
    ensures found == ClientCases(client, rules, round)
  {
    found := [];
    var j := 0;
    while j < |client.families|
      invariant 0 <= j <= |client.families|
      invariant found == Collect(client.families[..j], family => FamilyCase(client, family, rules, round))
    {
      var familyCase := MatchFamily(client, client.families[j], rules, round);
      found := found + Listed(familyCase);
      CollectStep(client.families, j, family => FamilyCase(client, family, rules, round));
      j := j + 1;
    }
    assert client.families[..j] == client.families;
  }

  method RunAnalysis(data: seq<ClientNode>, rules: DetectionRules, round: (real, nat) -> real)
    returns (results: seq<DetectedCannibalization>)
    ensures results == Analysis(data, rules, round)
    ensures !ComparableSplitMonth(rules.splitMonth) ==> results == []
    ensures forall i, j :: 0 <= i < j < |results| ==> results[i].impactScore >= results[j].impactScore
  {
    var splitIndex := rules.splitMonth - 1;
    if splitIndex < 1 || splitIndex > 10 {
      return [];
    }
    var found: seq<DetectedCannibalization> := [];
    var i := 0;
    while i < |data|
      invariant 0 <= i <= |data|
      invariant found == AllCases(data[..i], rules, round)
    {
      ConcatMapStep(data, i, CasesOf(rules, round));
      var clientCases := MatchClient(data[i], rules, round);
      found := found + clientCases;
      i := i + 1;
    }
    assert data[..i] == data;
    results := SortInOrder(found, ImpactFirst);
    AnalysisRanked(data, rules, round);
  }

  /** The ranking: impact scores never increase along the result. */
  lemma AnalysisRanked(data: seq<ClientNode>, rules: DetectionRules, round: (real, nat) -> real)
    ensures forall i, j :: 0 <= i < j < |Analysis(data, rules, round)| ==>
      Analysis(data, rules, round)[i].impactScore >= Analysis(data, rules, round)[j].impactScore
  {
    if ComparableSplitMonth(rules.splitMonth) {
      SortSorted(AllCases(data, rules, round), ImpactFirst);
    }
  }

  /** A SKU is a victim exactly when it is not noise, sold before the split, and its relative
      drop reaches the threshold; its loss is the drop projected over the post-split months. */
  lemma VictimCriterion(sku: SkuMonthlyData, pre: real, post: real, splitIndex: int, rules: DetectionRules)
    ensures VictimGiven(sku, pre, post, splitIndex, rules).Some? <==>
      pre + post >= rules.minVolume && pre > 0.0 && pre - post >= rules.dropThreshold * pre
    ensures VictimGiven(sku, pre, post, splitIndex, rules).Some? ==>
      VictimGiven(sku, pre, post, splitIndex, rules).value == Victim(sku, pre, post, Projected(pre - post, splitIndex))
  {
    if pre > 0.0 {
      RatioAtLeast(pre - post, pre, rules.dropThreshold);
    }
  }

  /** A SKU is a cannibal only when it is not noise and grew; its gain is the growth projected
      over the post-split months. One that sold before the split qualifies exactly when its
      relative growth reaches the threshold; one that did not, exactly when the threshold is
      at most 999. */
  lemma CannibalCriterion(sku: SkuMonthlyData, pre: real, post: real, splitIndex: int, rules: DetectionRules)
    ensures CannibalGiven(sku, pre, post, splitIndex, rules).Some? ==>
      pre + post >= rules.minVolume && post > pre &&
      CannibalGiven(sku, pre, post, splitIndex, rules).value == Cannibal(sku, pre, post, Projected(post - pre, splitIndex))
    ensures pre + post >= rules.minVolume && pre > 0.0 ==>
      (CannibalGiven(sku, pre, post, splitIndex, rules).Some? <==> post > pre && post - pre >= rules.growthThreshold * pre)
    ensures pre + post >= rules.minVolume && pre <= 0.0 && post > pre ==>
      (CannibalGiven(sku, pre, post, splitIndex, rules).Some? <==> rules.growthThreshold <= 999.0)
  {
    if pre > 0.0 {
      RatioAtLeast(post - pre, pre, rules.growthThreshold);
    }
  }

  /** With a non-negative drop threshold no SKU is at the same time a victim and a cannibal. */
  lemma VictimCannibalExclusive(sku: SkuMonthlyData, pre: real, post: real, splitIndex: int, rules: DetectionRules)
    requires rules.dropThreshold >= 0.0
    ensures !(VictimGiven(sku, pre, post, splitIndex, rules).Some? && CannibalGiven(sku, pre, post, splitIndex, rules).Some?)
  {
    VictimCriterion(sku, pre, post, splitIndex, rules);
    if VictimGiven(sku, pre, post, splitIndex, rules).Some? {
      assert rules.dropThreshold * pre >= 0.0;
    }
  }

  /** With a positive drop threshold a victim's loss is positive. */
  lemma VictimLossPositive(sku: SkuMonthlyData, pre: real, post: real, splitIndex: int, rules: DetectionRules)
    requires splitIndex < 12
    requires rules.dropThreshold > 0.0
    requires VictimGiven(sku, pre, post, splitIndex, rules).Some?
    ensures VictimGiven(sku, pre, post, splitIndex, rules).value.loss > 0.0
  {
    VictimCriterion(sku, pre, post, splitIndex, rules);
    assert rules.dropThreshold * pre > 0.0;
    ProductPositive(pre - post, PostMonths(splitIndex));
    assert Projected(pre - post, splitIndex) > 0.0;
  }

  lemma ProductPositive(a: real, b: real)
    requires a > 0.0 && b > 0.0
    ensures a * b > 0.0
  {
  }

  /** A SKU with no sales at all averages zero on both sides of the split, so it is neither a
      victim nor a cannibal, whatever the rules. */
  lemma SilentSkuIgnored(sku: SkuMonthlyData, rules: DetectionRules)
    requires forall m :: 0 <= m < |sku.salesVector| ==> sku.salesVector[m] == 0.0
    ensures AvgPre(sku, rules) == 0.0 && AvgPost(sku, rules) == 0.0
    ensures VictimOf(sku, rules) == None && CannibalOf(sku, rules) == None
  {
    var v := sku.salesVector;
    SumOfZeros(Slice(v, 0, SplitIndex(rules)));
    SumOfZeros(Slice(v, SplitIndex(rules), 12));
  }

  /** The victim `victims.sort(...)[0]` picks: the first one with the largest loss. */
  function MainVictim(vs: seq<Victim>): Victim
    requires |vs| > 0
  {
    vs[FirstBest(vs, LossFirst)]
  }

  /** The cannibal `cannibals.sort(...)[0]` picks: the first one with the largest gain. */
  function MainCannibal(cs: seq<Cannibal>): Cannibal
    requires |cs| > 0
  {
    cs[FirstBest(cs, GainFirst)]
  }

  /** No victim lost more than the main victim, and every victim listed before it lost less. */
  lemma MainVictimLargest(vs: seq<Victim>)
    requires |vs| > 0
    ensures forall w :: 0 <= w < |vs| ==> vs[w].loss <= MainVictim(vs).loss
    ensures forall w :: 0 <= w < FirstBest(vs, LossFirst) ==> vs[w].loss < MainVictim(vs).loss
  {
    FirstBestIsBest(vs, LossFirst);
  }

  /** No cannibal gained more than the main cannibal, and every one listed before it gained less. */
  lemma MainCannibalLargest(cs: seq<Cannibal>)
    requires |cs| > 0
    ensures forall w :: 0 <= w < |cs| ==> cs[w].gain <= MainCannibal(cs).gain
    ensures forall w :: 0 <= w < FirstBest(cs, GainFirst) ==> cs[w].gain < MainCannibal(cs).gain
  {
    FirstBestIsBest(cs, GainFirst);
  }

  /** The case a family yields: one exactly when it has a victim and a cannibal, pairing the
      main victim with the main cannibal; its figures are the rounded loss, gain and balance,
      the rounded percentage of the loss the gain covers, and the unrounded total volume. */
  lemma FamilyCaseMeaning(client: ClientNode, family: FamilyGroup, rules: DetectionRules,
                          round: (real, nat) -> real)
    ensures var vs := Victims(family.skus, rules);
            var cs := Cannibals(family.skus, rules);
            FamilyCase(client, family, rules, round).Some? <==> |vs| > 0 && |cs| > 0
    ensures var vs := Victims(family.skus, rules);
            var cs := Cannibals(family.skus, rules);
            var r := FamilyCase(client, family, rules, round);
            r.Some? ==>
              var v := MainVictim(vs);
              var c := MainCannibal(cs);
              && r.value.id == client.id + "-" + family.name
              && r.value.clientName == client.name && r.value.family == family.name
              && r.value.victimSku == v.sku.name && r.value.cannibalSku == c.sku.name
              && r.value.volumeLost == round(v.loss, 2)
              && r.value.volumeGained == round(c.gain, 2)
              && r.value.netBalance == round(c.gain - v.loss, 2)
              && r.value.substitutionRate == PercentRounded(Divide(c.gain, v.loss), round)
              && r.value.impactScore == v.loss + c.gain
  {
    var vs := Victims(family.skus, rules);
    var cs := Cannibals(family.skus, rules);
    if |vs| > 0 && |cs| > 0 {
      SortHead(vs, LossFirst);
      SortHead(cs, GainFirst);
      assert FamilyCase(client, family, rules, round).value
          == BuildCase(client, family, MainVictim(vs), MainCannibal(cs), round);
    }
  }

  /** A case is reported exactly when some client's family yields it. */
  lemma {:induction false} AllCasesMembership(data: seq<ClientNode>, rules: DetectionRules,
                                              round: (real, nat) -> real, x: DetectedCannibalization)
    ensures x in AllCases(data, rules, round) <==>
      exists i :: 0 <= i < |data| && x in ClientCases(data[i], rules, round)
  {
    ConcatMapMembership(data, CasesOf(rules, round), x);
  }

  /** A client's case comes from one of its families. */
  lemma ClientCasesMembership(client: ClientNode, rules: DetectionRules,
                              round: (real, nat) -> real, x: DetectedCannibalization)
    ensures x in ClientCases(client, rules, round) <==>
      exists j :: 0 <= j < |client.families| && FamilyCase(client, client.families[j], rules, round) == Some(x)
  {
    CollectMembership(client.families, family => FamilyCase(client, family, rules, round), x);
  }

  /** The number of (client, family) pairs. */
  function FamilyCount(data: seq<ClientNode>): nat
  {
    if data == [] then 0 else FamilyCount(data[..|data| - 1]) + |data[|data| - 1].families|
  }

  /** Each family of each client contributes at most one case. */
  lemma {:induction false} AtMostOneCasePerFamily(data: seq<ClientNode>, rules: DetectionRules,
                                                  round: (real, nat) -> real)
    ensures |AllCases(data, rules, round)| <= FamilyCount(data)
  {
    if data != [] {
      var c := data[|data| - 1];
      AtMostOneCasePerFamily(data[..|data| - 1], rules, round);
      CollectLength(c.families, family => FamilyCase(c, family, rules, round));
    }
  }

  /** A cannibal's gain is positive whenever the split leaves post-split months. */
  lemma CannibalGainPositive(sku: SkuMonthlyData, pre: real, post: real, splitIndex: int, rules: DetectionRules)
    requires splitIndex < 12
    requires CannibalGiven(sku, pre, post, splitIndex, rules).Some?
    ensures CannibalGiven(sku, pre, post, splitIndex, rules).value.gain > 0.0
  {
    CannibalCriterion(sku, pre, post, splitIndex, rules);
    ProductPositive(post - pre, PostMonths(splitIndex));
  }

  /** Every victim of a family lost volume when the drop threshold is positive. */
  lemma VictimsLossPositive(skus: seq<SkuMonthlyData>, rules: DetectionRules, v: Victim)
    requires ComparableSplitMonth(rules.splitMonth) && rules.dropThreshold > 0.0
    requires v in Victims(skus, rules)
    ensures v.loss > 0.0
  {
    CollectMembership(skus, sku => VictimOf(sku, rules), v);
    var k :| 0 <= k < |skus| && VictimOf(skus[k], rules) == Some(v);
    var sku := skus[k];
    VictimLossPositive(sku, AvgPre(sku, rules), AvgPost(sku, rules), SplitIndex(rules), rules);
  }

  /** Every cannibal of a family gained volume. */
  lemma CannibalsGainPositive(skus: seq<SkuMonthlyData>, rules: DetectionRules, c: Cannibal)
    requires ComparableSplitMonth(rules.splitMonth)
    requires c in Cannibals(skus, rules)
    ensures c.gain > 0.0
  {
    CollectMembership(skus, sku => CannibalOf(sku, rules), c);
    var k :| 0 <= k < |skus| && CannibalOf(skus[k], rules) == Some(c);
    var sku := skus[k];
    CannibalGainPositive(sku, AvgPre(sku, rules), AvgPost(sku, rules), SplitIndex(rules), rules);
  }

  /** In a family's case with a positive drop threshold, the substitution rate is the rounding
      of a positive percentage. */
  lemma FamilyRatePositive(client: ClientNode, family: FamilyGroup, rules: DetectionRules,
                           round: (real, nat) -> real)
    requires ComparableSplitMonth(rules.splitMonth) && rules.dropThreshold > 0.0
    requires FamilyCase(client, family, rules, round).Some?
    ensures exists q :: q > 0.0 && FamilyCase(client, family, rules, round).value.substitutionRate == Finite(round(q, 1))
  {
    var vs := Victims(family.skus, rules);
    var cs := Cannibals(family.skus, rules);
    SortHead(vs, LossFirst);
    SortHead(cs, GainFirst);
    var v := MainVictim(vs);
    var c := MainCannibal(cs);
    assert v in vs && c in cs;
    VictimsLossPositive(family.skus, rules, v);
    CannibalsGainPositive(family.skus, rules, c);
    QuotientPercentPositive(c.gain, v.loss);
    var d := Divide(c.gain, v.loss);
    var q := d.value * 100.0;
    assert FamilyCase(client, family, rules, round).value.substitutionRate == PercentRounded(d, round);
    PercentRoundedFinite(d, round);
  }

  lemma PercentRoundedFinite(x: Number, round: (real, nat) -> real)
    requires x.Finite?
    ensures PercentRounded(x, round) == Finite(round(x.value * 100.0, 1))
  {
  }

  lemma QuotientPercentPositive(a: real, b: real)
    requires a > 0.0 && b > 0.0
    ensures Divide(a, b).Finite? && Divide(a, b).value * 100.0 > 0.0
  {
    var q := a / b;
    assert q * b == a;
  }

  /** With a positive drop threshold every reported substitution rate is a finite, rounded,
      positive percentage: the main victim's loss and the main cannibal's gain are positive. */
  lemma SubstitutionRatePositive(data: seq<ClientNode>, rules: DetectionRules,
                                 round: (real, nat) -> real, x: DetectedCannibalization)
    requires rules.dropThreshold > 0.0
    requires x in Analysis(data, rules, round)
    ensures exists q :: q > 0.0 && x.substitutionRate == Finite(round(q, 1))
  {
    assert x in multiset(AllCases(data, rules, round));
    AllCasesMembership(data, rules, round, x);
    var i :| 0 <= i < |data| && x in ClientCases(data[i], rules, round);
    ClientCasesMembership(data[i], rules, round, x);
    var j :| 0 <= j < |data[i].families| && FamilyCase(data[i], data[i].families[j], rules, round) == Some(x);
    FamilyRatePositive(data[i], data[i].families[j], rules, round);
  }

  lemma {:induction false} SumConstant(n: nat, c: real)
    ensures Sum(seq(n, _ => c)) == (n as real) * c
  {
    if n > 0 {
      assert seq(n, _ => c)[..n - 1] == seq(n - 1, _ => c);
      SumConstant(n - 1, c);
    }
  }

  /** Six months at `before` followed by six months at `after`. */
  function TwoLevelYear(before: real, after: real): seq<real>
  {
    seq(6, _ => before) + seq(6, _ => after)
  }

  lemma TwoLevelAverages(before: real, after: real)
    ensures CalculateAverage(TwoLevelYear(before, after), 0, 6) == before
    ensures CalculateAverage(TwoLevelYear(before, after), 6, 12) == after
  {
    var v := TwoLevelYear(before, after);
    assert Slice(v, 0, 6) == seq(6, _ => before);
    assert Slice(v, 6, 12) == seq(6, _ => after);
    SumConstant(6, before);
    SumConstant(6, after);
  }

  const ExampleRules := DetectionRules(0.5, 0.2, 10.0, 7)
  const ExampleFalling := SkuMonthlyData("A", TwoLevelYear(100.0, 40.0), [])
  const ExampleRising := SkuMonthlyData("B", TwoLevelYear(0.0, 70.0), [])
  const ExampleFamily := FamilyGroup("F", 0.0, [ExampleFalling, ExampleRising])
  const ExampleClient := ClientNode("C1", "M", "Client", "R", "G", "J", [ExampleFamily])

  /** In the example family the falling SKU is the only victim and the new SKU the only cannibal. */
  lemma ExampleCandidates()
    ensures Victims(ExampleFamily.skus, ExampleRules) == [Victim(ExampleFalling, 100.0, 40.0, 360.0)]
    ensures Cannibals(ExampleFamily.skus, ExampleRules) == [Cannibal(ExampleRising, 0.0, 70.0, 420.0)]
  {
    var rules := ExampleRules;
    var skus := ExampleFamily.skus;
    TwoLevelAverages(100.0, 40.0);
    TwoLevelAverages(0.0, 70.0);
    assert VictimOf(ExampleFalling, rules) == Some(Victim(ExampleFalling, 100.0, 40.0, 360.0));
    assert CannibalOf(ExampleFalling, rules) == None;
    assert VictimOf(ExampleRising, rules) == None;
    assert CannibalOf(ExampleRising, rules) == Some(Cannibal(ExampleRising, 0.0, 70.0, 420.0));
    CollectStep(skus, 0, sku => VictimOf(sku, rules));
    CollectStep(skus, 1, sku => VictimOf(sku, rules));
    CollectStep(skus, 0, sku => CannibalOf(sku, rules));
    CollectStep(skus, 1, sku => CannibalOf(sku, rules));
    assert skus[..0] == [] && skus[..2] == skus;
  }

  /** The case expected from the example family. */
  function ExampleCase(round: (real, nat) -> real): DetectedCannibalization
  {
    DetectedCannibalization("C1-F", "Client", "M", "G", "J", "R", "F", "A", "B",
      round(360.0, 2), round(420.0, 2), round(60.0, 2), Finite(round(350.0 / 3.0, 1)), 780.0)
  }

  lemma ExampleFamilyCase(round: (real, nat) -> real)
    ensures FamilyCase(ExampleClient, ExampleFamily, ExampleRules, round) == Some(ExampleCase(round))
  {
    ExampleCandidates();
    assert 420.0 / 360.0 * 100.0 == 350.0 / 3.0;
    assert "C1" + "-" + "F" == "C1-F";
  }

  /** One family, split at month 7: a SKU falling from 100 to 40 a month and a new SKU selling
      70 a month. With drop 0.5, growth 0.2 and minimum volume 10 the analysis reports one case
      of 360 lost, 420 gained, balance 60 and a rate of 350/3 = 116.67% before rounding. */
  lemma WorkedExample(round: (real, nat) -> real)
    ensures Analysis([ExampleClient], ExampleRules, round) == [ExampleCase(round)]
  {
    var rules := ExampleRules;
    var x := ExampleCase(round);
    ExampleFamilyCase(round);
    CollectStep(ExampleClient.families, 0, family => FamilyCase(ExampleClient, family, rules, round));
    assert ExampleClient.families[..0] == [] && ExampleClient.families[..1] == ExampleClient.families;
    assert ClientCases(ExampleClient, rules, round) == [x];
    ConcatMapStep([ExampleClient], 0, CasesOf(rules, round));
    assert [ExampleClient][..0] == [] && [ExampleClient][..1] == [ExampleClient];
    assert AllCases([ExampleClient], rules, round) == [x];
    assert Sort([x], ImpactFirst) == [x];
  }
}
