/** Eval reports and the regression comparison of two of them, over exact reals. */
module Evals {

  datatype Dimension =
    | Groundedness | ToolChoice | ApprovalTrigger | ResponseUsefulness
    | FormatCorrectness | CitationPresence | LatencySignal | CostSignal

  const DIMENSIONS: set<Dimension> :=
    {Groundedness, ToolChoice, ApprovalTrigger, ResponseUsefulness,
     FormatCorrectness, CitationPresence, LatencySignal, CostSignal}

  type ScoreCard = Dimension -> real

  datatype Result = Result(caseKey: string, passed: bool, card: ScoreCard)

  /** `averages` has no entries when there are no results. */
  datatype Report = Report(runName: string, total: nat, passed: int, failed: int, average: real,
                           averages: map<Dimension, real>, results: seq<Result>)

  function TotalScore(card: ScoreCard): real {
    (card(Groundedness) + card(ToolChoice) + card(ApprovalTrigger) + card(ResponseUsefulness)
     + card(FormatCorrectness) + card(CitationPresence) + card(LatencySignal) + card(CostSignal)) / 8.0
  }

  function SumBy(results: seq<Result>, score: ScoreCard -> real): real {
    if results == [] then 0.0 else SumBy(results[..|results| - 1], score) + score(results[|results| - 1].card)
  }

  function Of(d: Dimension): ScoreCard -> real {
    (card: ScoreCard) => card(d)
  }

  /** The places whose result passed, or did not. */
  function Marked(results: seq<Result>, passed: bool): set<nat> {
    set i: nat | i < |results| && results[i].passed == passed
  }

  function BuildReport(name: string, results: seq<Result>): Report {
    var n, passed := |results|, |Marked(results, true)|;
    Report(name, n, passed, n - passed,
           if n == 0 then 0.0 else SumBy(results, TotalScore) / (n as real),
           if n == 0 then map[] else map d | d in DIMENSIONS :: SumBy(results, Of(d)) / (n as real),
           results)
  }

  lemma {:induction false} SumsExchange(results: seq<Result>)
    ensures SumBy(results, TotalScore) == TotalScore((d: Dimension) => SumBy(results, Of(d)))
  {
    if results != [] {
      SumsExchange(results[..|results| - 1]);
    }
  }

  lemma {:induction false} PlacesSplit(n: nat, part: set<nat>, rest: set<nat>)
    requires part !! rest
    requires forall i: nat :: i in part || i in rest <==> i < n
    ensures |part| + |rest| == n
  {
    if n == 0 {
      assert part == {} && rest == {};
    } else {
      assert |part| == |part - {n - 1}| + if n - 1 in part then 1 else 0;
      assert |rest| == |rest - {n - 1}| + if n - 1 in rest then 1 else 0;
      PlacesSplit(n - 1, part - {n - 1}, rest - {n - 1});
    }
  }

  lemma SharedDivisor(a: real, b: real, c: real, d: real, e: real, f: real, g: real, h: real, n: real)
    requires n > 0.0
    ensures ((a + b + c + d + e + f + g + h) / 8.0) / n
            == (a / n + b / n + c / n + d / n + e / n + f / n + g / n + h / n) / 8.0
  {
  }

  /** The results' scores in one dimension, added up. */
  function DimensionSum(results: seq<Result>, d: Dimension): real {
    if results == [] then 0.0 else results[0].card(d) + DimensionSum(results[1..], d)
  }

  lemma {:induction false} DimensionSumMore(results: seq<Result>, r: Result, d: Dimension)
    ensures DimensionSum(results + [r], d) == DimensionSum(results, d) + r.card(d)
  {
    if results == [] {
      assert ([] + [r])[1..] == [];
    } else {
      DimensionSumMore(results[1..], r, d);
      assert (results + [r])[1..] == results[1..] + [r];
    }
  }

  lemma {:induction false} SumsAre(results: seq<Result>, d: Dimension)
    ensures SumBy(results, Of(d)) == DimensionSum(results, d)
  {
    if results != [] {
      var n := |results| - 1;
      SumsAre(results[..n], d);
      DimensionSumMore(results[..n], results[n], d);
      assert results == results[..n] + [results[n]];
    }
  }

  /** Each dimension average is that dimension's sum over the results, divided by their number. */
  lemma AveragesAreSums(name: string, results: seq<Result>, d: Dimension)
    ensures results != [] ==>
              var report := BuildReport(name, results);
              d in report.averages && report.averages[d] * (|results| as real) == DimensionSum(results, d)
    ensures results == [] ==> BuildReport(name, results).averages == map[]
  {
    hide SumBy, DimensionSum, TotalScore, Marked;
    SumsAre(results, d);
    if results != [] {
      DividedBack(SumBy(results, Of(d)), |results| as real, BuildReport(name, results).averages[d]);
    }
  }

  lemma DividedBack(sum: real, n: real, average: real)
    requires n > 0.0 && average == sum / n
    ensures average * n == sum
  {
  }

  /** A report's average is the mean of its eight dimension averages; a report on nothing averages zero. */
  lemma AverageOfAverages(name: string, results: seq<Result>)
    ensures results == [] ==> BuildReport(name, results).average == 0.0
    ensures results != [] ==>
              var report := BuildReport(name, results); var averages := report.averages;
              && averages.Keys == DIMENSIONS
              && 8.0 * report.average
                 == averages[Groundedness] + averages[ToolChoice] + averages[ApprovalTrigger]
                    + averages[ResponseUsefulness] + averages[FormatCorrectness] + averages[CitationPresence]
                    + averages[LatencySignal] + averages[CostSignal]
  {
    if results != [] {
      SumsExchange(results);
      var s := (d: Dimension) => SumBy(results, Of(d));
      SharedDivisor(s(Groundedness), s(ToolChoice), s(ApprovalTrigger), s(ResponseUsefulness),
                    s(FormatCorrectness), s(CitationPresence), s(LatencySignal), s(CostSignal), |results| as real);
    }
  }

  /** A report counts what it was made from: all results, those that passed and those that did not. */
  lemma ResultsAreCounted(name: string, results: seq<Result>)
    ensures var report := BuildReport(name, results);
            && report.runName == name && report.results == results && report.total == |results|
            && report.passed == |set i: nat | i < |results| && results[i].passed|
            && report.failed == |set i: nat | i < |results| && !results[i].passed|
  {
    PlacesSplit(|results|, Marked(results, true), Marked(results, false));
    assert Marked(results, true) == set i: nat | i < |results| && results[i].passed;
    assert Marked(results, false) == set i: nat | i < |results| && !results[i].passed;
  }

  // ---- Comparing two reports ----

  datatype Standing = Improved | Regressed | Same {
    function Mirrored(): Standing {
      match this
      case Improved => Regressed
      case Regressed => Improved
      case Same => Same
    }
  }

  datatype Comparison = Comparison(scoreDelta: real, passDelta: int, improved: nat, regressed: nat, same: nat) {
    function Count(standing: Standing): nat {
      match standing
      case Improved => improved
      case Regressed => regressed
      case Same => same
    }
  }

  function Stands(score: real, before: real): Standing {
    if score > before then Improved else if score < before then Regressed else Same
  }

  /** The total score of each case; of a repeated key, the last. */
  function ScoresOf(results: seq<Result>): map<string, real> {
    if results == [] then map[]
    else
      var last := results[|results| - 1];
      ScoresOf(results[..|results| - 1])[last.caseKey := TotalScore(last.card)]
  }

  /** The first `n` places whose case is in the baseline and stands to it in the given way. */
  function Places(results: seq<Result>, before: map<string, real>, standing: Standing, n: nat): set<nat>
    requires n <= |results|
  {
    set i: nat | i < n && results[i].caseKey in before
                 && Stands(TotalScore(results[i].card), before[results[i].caseKey]) == standing
  }

  /** Counts, result by result, how the current report stands to the baseline; new cases do not count. */
  method CompareReports(current: Report, baseline: Report, round: real -> real) returns (c: Comparison)
    ensures c.scoreDelta == round(current.average - baseline.average)
    ensures c.passDelta == current.passed - baseline.passed
    ensures forall standing ::
              c.Count(standing) == |Places(current.results, ScoresOf(baseline.results), standing, |current.results|)|
    ensures var now := current.results; var before := ScoresOf(baseline.results);
            && c.improved == |set i: nat | i < |now| && now[i].caseKey in before
                                            && TotalScore(now[i].card) > before[now[i].caseKey]|
            && c.regressed == |set i: nat | i < |now| && now[i].caseKey in before
                                             && TotalScore(now[i].card) < before[now[i].caseKey]|
            && c.same == |set i: nat | i < |now| && now[i].caseKey in before
                                        && TotalScore(now[i].card) == before[now[i].caseKey]|
  {
    hide ScoresOf, TotalScore, Places;
    var before := ScoresOf(baseline.results);
    var improved, regressed, same := 0, 0, 0;
    forall standing {
      NoPlaces(current.results, before, standing);
    }
    for i := 0 to |current.results|
      invariant improved == |Places(current.results, before, Improved, i)|
      invariant regressed == |Places(current.results, before, Regressed, i)|
      invariant same == |Places(current.results, before, Same, i)|
    {
      var r := current.results[i];
      var score := TotalScore(r.card);
      forall standing {
        OneMorePlace(current.results, before, standing, i);
      }
      if r.caseKey in before {
        if score > before[r.caseKey] {
          improved := improved + 1;
        } else if score < before[r.caseKey] {
          regressed := regressed + 1;
        } else {
          same := same + 1;
        }
      }
    }
    c := Comparison(round(current.average - baseline.average), current.passed - baseline.passed,
                    improved, regressed, same);
    PlacesAre(current.results, before);
  }

  lemma PlacesAre(now: seq<Result>, before: map<string, real>)
    ensures Places(now, before, Improved, |now|)
            == set i: nat | i < |now| && now[i].caseKey in before && TotalScore(now[i].card) > before[now[i].caseKey]
    ensures Places(now, before, Regressed, |now|)
            == set i: nat | i < |now| && now[i].caseKey in before && TotalScore(now[i].card) < before[now[i].caseKey]
    ensures Places(now, before, Same, |now|)
            == set i: nat | i < |now| && now[i].caseKey in before && TotalScore(now[i].card) == before[now[i].caseKey]
  {
    hide TotalScore;
  }

  /** The score a case is compared with: an eighth of the eight dimensions of its last result. */
  lemma {:induction false} LastScoreCounts(results: seq<Result>, i: nat)
    requires i < |results| && forall j :: i < j < |results| ==> results[j].caseKey != results[i].caseKey
    ensures results[i].caseKey in ScoresOf(results)
    ensures var card := results[i].card;
            8.0 * ScoresOf(results)[results[i].caseKey]
            == card(Groundedness) + card(ToolChoice) + card(ApprovalTrigger) + card(ResponseUsefulness)
               + card(FormatCorrectness) + card(CitationPresence) + card(LatencySignal) + card(CostSignal)
  {
    if i < |results| - 1 {
      LastScoreCounts(results[..|results| - 1], i);
    }
  }

  /** A case that gains in some dimension and loses in none has improved; the other way round it has regressed. */
  lemma GainIsImprovement(better: ScoreCard, worse: ScoreCard, gained: Dimension)
    requires (forall d :: better(d) >= worse(d)) && better(gained) > worse(gained)
    ensures Stands(TotalScore(better), TotalScore(worse)) == Improved
    ensures Stands(TotalScore(worse), TotalScore(better)) == Regressed
  {
    match gained
    case Groundedness =>
    case ToolChoice =>
    case ApprovalTrigger =>
    case ResponseUsefulness =>
    case FormatCorrectness =>
    case CitationPresence =>
    case LatencySignal =>
    case CostSignal =>
  }

  lemma NoPlaces(results: seq<Result>, before: map<string, real>, standing: Standing)
    ensures Places(results, before, standing, 0) == {}
  {
  }

  lemma OneMorePlace(results: seq<Result>, before: map<string, real>, standing: Standing, n: nat)
    requires n < |results|
    ensures var k := results[n].caseKey;
            |Places(results, before, standing, n + 1)| == |Places(results, before, standing, n)|
            + if k in before && Stands(TotalScore(results[n].card), before[k]) == standing then 1 else 0
  {
    hide TotalScore, Stands;
    var k := results[n].caseKey;
    var places := Places(results, before, standing, n);
    if k in before && Stands(TotalScore(results[n].card), before[k]) == standing {
      assert Places(results, before, standing, n + 1) == places + {n};
    } else {
      assert Places(results, before, standing, n + 1) == places;
    }
  }

  ghost predicate UniqueCases(results: seq<Result>) {
    forall i, j :: 0 <= i < j < |results| ==> results[i].caseKey != results[j].caseKey
  }

  /** The cases of both reports whose score stands in the given way. */
  function Cases(now: map<string, real>, before: map<string, real>, standing: Standing): set<string> {
    set k | k in now && k in before && Stands(now[k], before[k]) == standing
  }

  lemma {:induction false} ScoreKeys(results: seq<Result>, k: string)
    ensures k in ScoresOf(results) <==> exists i :: 0 <= i < |results| && results[i].caseKey == k
  {
    if results != [] {
      ScoreKeys(results[..|results| - 1], k);
    }
  }

  lemma NoCases(before: map<string, real>, standing: Standing)
    ensures Cases(map[], before, standing) == {}
  {
  }

  lemma OneMoreCase(now: map<string, real>, before: map<string, real>, standing: Standing, k: string, score: real)
    requires k !in now
    ensures |Cases(now[k := score], before, standing)| == |Cases(now, before, standing)|
            + if k in before && Stands(score, before[k]) == standing then 1 else 0
  {
    var cases := Cases(now, before, standing);
    if k in before && Stands(score, before[k]) == standing {
      assert Cases(now[k := score], before, standing) == cases + {k};
    } else {
      assert Cases(now[k := score], before, standing) == cases;
    }
  }

  /** With unique keys, places are cases. */
  lemma {:induction false} PlacesAreCases(results: seq<Result>, before: map<string, real>, standing: Standing, n: nat)
    requires n <= |results| && UniqueCases(results)
    ensures |Places(results, before, standing, n)| == |Cases(ScoresOf(results[..n]), before, standing)|
  {
    hide TotalScore, Places, Cases, Stands;
    if n == 0 {
      NoPlaces(results, before, standing);
      NoCases(before, standing);
      assert ScoresOf(results[..0]) == map[];
    } else {
      var k, score := results[n - 1].caseKey, TotalScore(results[n - 1].card);
      var earlier := ScoresOf(results[..n - 1]);
      PlacesAreCases(results, before, standing, n - 1);
      OneMorePlace(results, before, standing, n - 1);
      ScoreKeys(results[..n - 1], k);
      assert results[..n][..n - 1] == results[..n - 1];
      OneMoreCase(earlier, before, standing, k, score);
    }
  }

  lemma CasesMirror(a: map<string, real>, b: map<string, real>, standing: Standing)
    ensures Cases(a, b, standing) == Cases(b, a, standing.Mirrored())
  {
  }

  lemma CasesAddUp(a: map<string, real>, b: map<string, real>)
    ensures |Cases(a, b, Improved)| + |Cases(a, b, Regressed)| + |Cases(a, b, Same)| == |a.Keys * b.Keys|
  {
    var up, down, same := Cases(a, b, Improved), Cases(a, b, Regressed), Cases(a, b, Same);
    assert a.Keys * b.Keys == up + down + same;
    assert |up + down| == |up| + |down|;
  }

  /**
   * For reports whose case keys are unique, swapping the two reports swaps improved and regressed and
   * keeps the rest, and the three counts add up to the number of shared cases.
   */
  method CompareBothWays(x: Report, y: Report, round: real -> real) returns (there: Comparison, back: Comparison)
    requires UniqueCases(x.results) && UniqueCases(y.results)
    requires forall d :: round(-d) == -round(d)
    ensures there.improved == back.regressed && there.regressed == back.improved && there.same == back.same
    ensures there.passDelta == -back.passDelta && there.scoreDelta == -back.scoreDelta
    ensures there.improved + there.regressed + there.same == |ScoresOf(x.results).Keys * ScoresOf(y.results).Keys|
  {
    hide Places, Cases, ScoresOf, TotalScore, UniqueCases, Stands;
    there := CompareReports(x, y, round);
    back := CompareReports(y, x, round);
    var a, b := ScoresOf(x.results), ScoresOf(y.results);
    assert x.results[..|x.results|] == x.results && y.results[..|y.results|] == y.results;
    forall standing: Standing
      ensures there.Count(standing) == |Cases(a, b, standing)| == back.Count(standing.Mirrored())
    {
      PlacesAreCases(x.results, b, standing, |x.results|);
      PlacesAreCases(y.results, a, standing.Mirrored(), |y.results|);
      CasesMirror(a, b, standing);
    }
    CasesAddUp(a, b);
    assert there.improved == there.Count(Improved) == back.Count(Regressed);
    assert there.regressed == there.Count(Regressed) == back.Count(Improved);
    assert there.same == there.Count(Same) == back.Count(Same);
    assert x.average - y.average == -(y.average - x.average);
  }
}
