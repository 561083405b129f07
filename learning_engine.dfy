/**
 * The learning engine's computations on resolved predictions: judging a
 * prediction against the game result, the learning-data fields derived from
 * it (actual confidence, training weight), and the statistics and text that
 * `generateLearningInsights` builds from stored learning data.
 */
module LearningEngine {
  import opened Wrappers
  import opened JsText
  import EdgeCalculator

  // ---------------------------------------------------------------- evaluatePrediction

  /**
   * `evaluatePrediction`: a moneyline prediction is correct when its predicted
   * winner is the side that won; spread and total are placeholders that always
   * answer false, as does every other bet type.
   */
  function EvaluatePrediction(betType: string, predictedWinner: Option<string>, winner: string): (correct: bool)
    ensures correct <==> betType == "moneyline" && predictedWinner == Some(winner)
  {
    if betType == "moneyline" then predictedWinner == Some(winner)
    else if betType == "spread" then false
    else if betType == "total" then false
    else false
  }

  /** Only a moneyline prediction can ever be judged correct, and a missing winner never is. */
  lemma OnlyMoneylineCanWin(betType: string, predictedWinner: Option<string>, winner: string)
    requires betType != "moneyline" || predictedWinner.None?
    ensures !EvaluatePrediction(betType, predictedWinner, winner)
  {
  }

  // ---------------------------------------------------------------- createLearningDataEntry

  /** `actual_confidence`: the confidence when correct, its complement to 100 otherwise. */
  function ActualConfidence(confidence: int, wasCorrect: bool): (actual: int)
    ensures wasCorrect ==> actual == confidence
    ensures !wasCorrect ==> actual + confidence == 100
  {
    if wasCorrect then confidence else 100 - confidence
  }

  /** A confidence on the 0..100 scale stays on it, and a wrong prediction at c reads as 100 - c. */
  lemma ActualConfidenceInRange(confidence: int, wasCorrect: bool)
    requires 0 <= confidence <= 100
    ensures 0 <= ActualConfidence(confidence, wasCorrect) <= 100
    ensures ActualConfidence(ActualConfidence(confidence, false), false) == confidence
  {
  }

  function Factor(applies: bool, f: real): real {
    if applies then f else 1.0
  }

  /**
   * The weight as a product of the three factors that apply. It lies in
   * [1, 3.24]; it is above 1 exactly when some factor applies; it reaches 3.24
   * exactly when all three do; a correct prediction never gets the 1.5
   * factor, so it stays at or below 1.8 · 1.2.
   */
  function TrainingWeight(confidenceScore: int, adminMarkedBad: bool, wasCorrect: bool, daysSince: real): (w: real)
    ensures 1.0 <= w <= 3.24
    ensures w > 1.0 <==> (!wasCorrect && confidenceScore > 80) || adminMarkedBad || daysSince < 30.0
    ensures w == 3.24 <==> !wasCorrect && confidenceScore > 80 && adminMarkedBad && daysSince < 30.0
    ensures wasCorrect ==> w <= 2.16
  {
    var a := Factor(!wasCorrect && confidenceScore > 80, 1.5);
    var b := Factor(adminMarkedBad, 1.8);
    var c := Factor(daysSince < 30.0, 1.2);
    FactorProduct(a, b, c);
    a * b * c
  }

  /** The product of three factors, each either 1 or its own value. */
  lemma FactorProduct(a: real, b: real, c: real)
    requires (a == 1.0 || a == 1.5) && (b == 1.0 || b == 1.8) && (c == 1.0 || c == 1.2)
    ensures 1.0 <= a * b * c <= 3.24
    ensures a * b * c > 1.0 <==> a == 1.5 || b == 1.8 || c == 1.2
    ensures a * b * c == 3.24 <==> a == 1.5 && b == 1.8 && c == 1.2
    ensures a == 1.0 ==> a * b * c <= 2.16
  {
    if a == 1.0 {
      if b == 1.0 {
        assert a * b * c == c;
      } else {
        assert a * b * c == 1.8 * c;
      }
    } else {
      if b == 1.0 {
        assert a * b * c == 1.5 * c;
      } else {
        assert a * b * c == 2.7 * c;
      }
    }
  }

  /**
   * `calculateTrainingWeight`, with the age of the prediction in days given
   * instead of read from the clock.
   */
  method CalculateTrainingWeight(confidenceScore: int, adminMarkedBad: bool, wasCorrect: bool, daysSince: real)
    returns (weight: real)
    ensures weight == TrainingWeight(confidenceScore, adminMarkedBad, wasCorrect, daysSince)
  {
    weight := 1.0;
    if !wasCorrect && confidenceScore > 80 {
      weight := weight * 1.5;
    }
    if adminMarkedBad {
      weight := weight * 1.8;
    }
    if daysSince < 30.0 {
      weight := weight * 1.2;
    }
  }

  /** One row of learning data, as `generateLearningInsights` reads it. */
  datatype LearningRecord = LearningRecord(
    predictedConfidence: Option<int>, // confidence_vs_outcome.predicted_confidence
    wasCorrect: bool,                 // confidence_vs_outcome.was_correct
    factors: seq<string>)             // factors_vs_outcome.factors, [] when missing

  // ---------------------------------------------------------------- calculateConfidenceBuckets

  /** The seven buckets in the order they are declared: `65-70` is 0, ..., `95-100` is 6. */
  const BucketCount: nat := 7

  function BucketLow(b: nat): nat { 65 + 5 * b }
  function BucketHigh(b: nat): nat { 70 + 5 * b }

  /**
   * The bucket the `>= 95`, `>= 90`, ..., `>= 70` cascade picks: each bucket
   * holds the confidences from its low bound to below its high bound, except
   * that everything under 70 falls into the first and everything from 95 up
   * into the last.
   */
  function BucketOf(confidence: int): (b: nat)
    ensures b < BucketCount
    ensures b > 0 ==> BucketLow(b) <= confidence
    ensures b < BucketCount - 1 ==> confidence < BucketHigh(b)
  {
    if confidence >= 95 then 6
    else if confidence >= 90 then 5
    else if confidence >= 85 then 4
    else if confidence >= 80 then 3
    else if confidence >= 75 then 2
    else if confidence >= 70 then 1
    else 0
  }

  /** Whatever the confidence, exactly one bucket's bounds admit it, and it is `BucketOf`'s. */
  lemma BucketUnique(confidence: int, b: nat)
    requires b < BucketCount
    requires b > 0 ==> BucketLow(b) <= confidence
    requires b < BucketCount - 1 ==> confidence < BucketHigh(b)
    ensures b == BucketOf(confidence)
  {
  }

  datatype Tally = Tally(predictions: nat, wins: nat)

  /** `if (!confidence) continue`: a missing or zero confidence is not counted. */
  predicate Counted(r: LearningRecord) {
    r.predictedConfidence.Some? && r.predictedConfidence.value != 0
  }

  function EmptyTallies(): (t: seq<Tally>)
    ensures |t| == BucketCount
  {
    seq(BucketCount, _ => Tally(0, 0))
  }

  /** One step of the loop: the record's bucket counts one more prediction, and one more win if it was correct. */
  function CountRecord(t: seq<Tally>, r: LearningRecord): (t': seq<Tally>)
    requires |t| == BucketCount
    ensures |t'| == BucketCount
  {
    if !Counted(r) then t
    else
      var b := BucketOf(r.predictedConfidence.value);
      t[b := Tally(t[b].predictions + 1, t[b].wins + if r.wasCorrect then 1 else 0)]
  }

  predicate WinsBounded(t: seq<Tally>) {
    forall b :: 0 <= b < |t| ==> t[b].wins <= t[b].predictions
  }

  /** The buckets after the records; in every bucket the wins never exceed the predictions. */
  function Tallies(records: seq<LearningRecord>): (t: seq<Tally>)
    ensures |t| == BucketCount && WinsBounded(t)
    decreases |records|
  {
    if records == [] then EmptyTallies()
    else CountRecord(Tallies(records[..|records| - 1]), records[|records| - 1])
  }

  function TotalPredictions(t: seq<Tally>): nat
    decreases |t|
  {
    if t == [] then 0 else TotalPredictions(t[..|t| - 1]) + t[|t| - 1].predictions
  }

  function CountedRecords(records: seq<LearningRecord>): nat
    decreases |records|
  {
    if records == [] then 0
    else CountedRecords(records[..|records| - 1]) + if Counted(records[|records| - 1]) then 1 else 0
  }

  lemma {:induction false} TotalBump(t: seq<Tally>, b: nat, x: Tally)
    requires b < |t| && x.predictions == t[b].predictions + 1
    ensures TotalPredictions(t[b := x]) == TotalPredictions(t) + 1
    decreases |t|
  {
    var u := t[b := x];
    if b < |t| - 1 {
      assert u[..|u| - 1] == t[..|t| - 1][b := x];
      TotalBump(t[..|t| - 1], b, x);
    } else {
      assert u[..|u| - 1] == t[..|t| - 1];
    }
  }

  lemma {:induction false} TotalEmpty(n: nat)
    ensures TotalPredictions(seq(n, _ => Tally(0, 0))) == 0
  {
    if n > 0 {
      var t := seq(n, _ => Tally(0, 0));
      assert t[..n - 1] == seq(n - 1, _ => Tally(0, 0));
      TotalEmpty(n - 1);
    }
  }

  /** Every counted record lands in exactly one bucket: the bucket counts add up to the counted records. */
  lemma {:induction false} EachRecordInOneBucket(records: seq<LearningRecord>)
    ensures TotalPredictions(Tallies(records)) == CountedRecords(records)
    decreases |records|
  {
    if records == [] {
      TotalEmpty(BucketCount);
    } else {
      var init := records[..|records| - 1];
      var r := records[|records| - 1];
      EachRecordInOneBucket(init);
      if Counted(r) {
        var t := Tallies(init);
        var b := BucketOf(r.predictedConfidence.value);
        TotalBump(t, b, Tally(t[b].predictions + 1, t[b].wins + if r.wasCorrect then 1 else 0));
      }
    }
  }

  /** A bucket's win rate in percent; an empty bucket reports 0. */
  function Rate(t: Tally): (rate: real)
    requires t.wins <= t.predictions
    ensures t.predictions == 0 ==> rate == 0.0
    ensures 0.0 <= rate <= 100.0
  {
    if t.predictions > 0 then
      Percent(t.wins, t.predictions)
    else 0.0
  }

  /** `(wins / total) * 100` for a non-empty total. */
  function Percent(wins: nat, total: nat): (p: real)
    requires 0 < total && wins <= total
    ensures 0.0 <= p <= 100.0
    ensures p * total as real == 100.0 * wins as real
  {
    var q := wins as real / total as real;
    assert q <= 1.0 by {
      assert q * total as real == wins as real;
      if q > 1.0 {
        assert q * total as real > 1.0 * total as real;
      }
    }
    q * 100.0
  }

  /** An entry of the result: the bucket's key `low-high` and its win rate. */
  datatype BucketRate = BucketRate(low: nat, high: nat, rate: real)

  /** `calculateConfidenceBuckets`: the seven buckets' win rates, in key order. */
  method CalculateConfidenceBuckets(learningData: seq<LearningRecord>) returns (result: seq<BucketRate>)
    ensures |result| == BucketCount
    ensures forall b :: 0 <= b < BucketCount ==>
      result[b] == BucketRate(BucketLow(b), BucketHigh(b), Rate(Tallies(learningData)[b]))
  {
    var buckets := EmptyTallies();
    var i := 0;
    while i < |learningData|
      invariant 0 <= i <= |learningData|
      invariant buckets == Tallies(learningData[..i])
    {
      var data := learningData[i];
      assert learningData[..i + 1][..i] == learningData[..i];
      if Counted(data) {
        var bucket := BucketOf(data.predictedConfidence.value);
        var wins := if data.wasCorrect then buckets[bucket].wins + 1 else buckets[bucket].wins;
        buckets := buckets[bucket := Tally(buckets[bucket].predictions + 1, wins)];
      }
      i := i + 1;
    }
    assert learningData[..|learningData|] == learningData;
    result := [];
    var b := 0;
    while b < BucketCount
      invariant 0 <= b <= BucketCount && |result| == b
      invariant forall c :: 0 <= c < b ==> result[c] == BucketRate(BucketLow(c), BucketHigh(c), Rate(buckets[c]))
    {
      result := result + [BucketRate(BucketLow(b), BucketHigh(b), Rate(buckets[b]))];
      b := b + 1;
    }
  }

  // ---------------------------------------------------------------- analyzeFactorPerformance

  /** One use of a factor by a record, with whether that record's prediction was correct. */
  datatype FactorUse = FactorUse(factor: string, won: bool)

  function RecordUses(factors: seq<string>, won: bool): seq<FactorUse>
    decreases |factors|
  {
    if factors == [] then []
    else RecordUses(factors[..|factors| - 1], won) + [FactorUse(factors[|factors| - 1], won)]
  }

  /** Every factor use, in the order the nested loops visit them. */
  function Uses(records: seq<LearningRecord>): seq<FactorUse>
    decreases |records|
  {
    if records == [] then []
    else
      var r := records[|records| - 1];
      Uses(records[..|records| - 1]) + RecordUses(r.factors, r.wasCorrect)
  }

  datatype Stat = Stat(uses: nat, wins: nat)

  /**
   * `factorStats`, with its keys in insertion order. `Object.entries` lists
   * the keys in that order only when no factor looks like an array index and
   * none is named like a built-in object property.
   */
  datatype FactorStats = FactorStats(order: seq<string>, stats: map<string, Stat>)

  /** The keys listed once each, exactly the keys of the map, each used at least once and won at most as often. */
  ghost predicate WellFormed(fs: FactorStats) {
    (forall f :: f in fs.stats <==> f in fs.order)
    && (forall i, j :: 0 <= i < j < |fs.order| ==> fs.order[i] != fs.order[j])
    && (forall f :: f in fs.stats ==> 0 < fs.stats[f].uses && fs.stats[f].wins <= fs.stats[f].uses)
  }

  /** One step of the inner loop: a new factor is added with zero counts, then its counts go up. */
  function RecordUse(fs: FactorStats, u: FactorUse): FactorStats {
    var prev := if u.factor in fs.stats then fs.stats[u.factor] else Stat(0, 0);
    var order := if u.factor in fs.stats then fs.order else fs.order + [u.factor];
    FactorStats(order, fs.stats[u.factor := Stat(prev.uses + 1, prev.wins + if u.won then 1 else 0)])
  }

  lemma RecordUseWellFormed(fs: FactorStats, u: FactorUse)
    requires WellFormed(fs)
    ensures WellFormed(RecordUse(fs, u))
  {
    var r := RecordUse(fs, u);
    if u.factor !in fs.stats {
      forall i, j | 0 <= i < j < |r.order| ensures r.order[i] != r.order[j] {
        if j == |fs.order| {
          assert r.order[i] == fs.order[i];
        } else {
          assert r.order[i] == fs.order[i] && r.order[j] == fs.order[j];
        }
      }
    }
  }

  function StatsOf(uses: seq<FactorUse>): (fs: FactorStats)
    decreases |uses|
  {
    if uses == [] then FactorStats([], map[])
    else RecordUse(StatsOf(uses[..|uses| - 1]), uses[|uses| - 1])
  }

  lemma {:induction false} StatsWellFormed(uses: seq<FactorUse>)
    ensures WellFormed(StatsOf(uses))
    decreases |uses|
  {
    if uses != [] {
      StatsWellFormed(uses[..|uses| - 1]);
      RecordUseWellFormed(StatsOf(uses[..|uses| - 1]), uses[|uses| - 1]);
    }
  }

  /** An entry of `factorsWithRates`. */
  datatype FactorRate = FactorRate(factor: string, uses: nat, winRate: real)

  /** The `map` over `Object.entries(factorStats)`. */
  function Rated(order: seq<string>, stats: map<string, Stat>): (rs: seq<FactorRate>)
    requires forall f :: f in order ==> f in stats && 0 < stats[f].uses && stats[f].wins <= stats[f].uses
    ensures |rs| == |order|
    ensures forall i :: 0 <= i < |rs| ==> rs[i].factor == order[i] && rs[i].uses == stats[order[i]].uses
    ensures forall i :: 0 <= i < |rs| ==> 0.0 <= rs[i].winRate <= 100.0
    decreases |order|
  {
    if order == [] then []
    else
      var f := order[|order| - 1];
      Rated(order[..|order| - 1], stats) + [FactorRate(f, stats[f].uses, Percent(stats[f].wins, stats[f].uses))]
  }

  /** `.filter(f => f.uses >= 10)`. */
  function Frequent(rs: seq<FactorRate>): (fr: seq<FactorRate>)
    ensures forall i :: 0 <= i < |fr| ==> fr[i].uses >= 10
    ensures forall x :: x in fr <==> x in rs && x.uses >= 10
    decreases |rs|
  {
    if rs == [] then []
    else Frequent(rs[..|rs| - 1]) + if rs[|rs| - 1].uses >= 10 then [rs[|rs| - 1]] else []
  }

  /** Sorted by win rate, highest first. */
  predicate Descending(rs: seq<FactorRate>) {
    forall i, j :: 0 <= i < j < |rs| ==> rs[i].winRate >= rs[j].winRate
  }

  /** Insert `x` into a descending list after every entry whose rate is at least its own. */
  function Insert(x: FactorRate, rs: seq<FactorRate>): (r: seq<FactorRate>)
    ensures multiset(r) == multiset(rs) + multiset{x}
    decreases |rs|
  {
    if rs == [] then [x]
    else if rs[0].winRate >= x.winRate then
      assert rs == [rs[0]] + rs[1..];
      [rs[0]] + Insert(x, rs[1..])
    else [x] + rs
  }

  /** No entry of `rs` is rated above `v`. */
  predicate AtMost(rs: seq<FactorRate>, v: real) {
    forall i :: 0 <= i < |rs| ==> rs[i].winRate <= v
  }

  /** Inserting an entry rated at most `v` into entries rated at most `v` keeps that bound. */
  lemma {:induction false} InsertAtMost(x: FactorRate, rs: seq<FactorRate>, v: real)
    requires AtMost(rs, v) && x.winRate <= v
    ensures AtMost(Insert(x, rs), v)
    decreases |rs|
  {
    if rs != [] && rs[0].winRate >= x.winRate {
      InsertAtMost(x, rs[1..], v);
    }
  }

  lemma {:induction false} InsertDescending(x: FactorRate, rs: seq<FactorRate>)
    requires Descending(rs)
    ensures Descending(Insert(x, rs))
    decreases |rs|
  {
    if rs != [] && rs[0].winRate >= x.winRate {
      InsertDescending(x, rs[1..]);
      InsertAtMost(x, rs[1..], rs[0].winRate);
      ConsDescending(rs[0], Insert(x, rs[1..]));
    }
  }

  /** An entry rated at least as high as every entry of a descending list can go in front of it. */
  lemma ConsDescending(h: FactorRate, rest: seq<FactorRate>)
    requires Descending(rest) && AtMost(rest, h.winRate)
    ensures Descending([h] + rest)
  {
    var r := [h] + rest;
    forall i, j | 0 <= i < j < |r| ensures r[i].winRate >= r[j].winRate {
      assert r[j] == rest[j - 1];
      if i > 0 {
        assert r[i] == rest[i - 1];
      }
    }
  }

  /**
   * `factorsWithRates.sort((a, b) => b.winRate - a.winRate)`: a stable sort on
   * win rate, highest first, written as insertion of each entry in turn.
   */
  function SortByRate(rs: seq<FactorRate>): (sorted: seq<FactorRate>)
    ensures multiset(sorted) == multiset(rs)
    decreases |rs|
  {
    if rs == [] then []
    else
      assert rs == rs[..|rs| - 1] + [rs[|rs| - 1]];
      Insert(rs[|rs| - 1], SortByRate(rs[..|rs| - 1]))
  }

  /** The sort orders by win rate, highest first, and keeps every entry as often as it was there. */
  lemma {:induction false} SortByRateSorts(rs: seq<FactorRate>)
    ensures Descending(SortByRate(rs)) && multiset(SortByRate(rs)) == multiset(rs) && |SortByRate(rs)| == |rs|
    decreases |rs|
  {
    if rs != [] {
      SortByRateSorts(rs[..|rs| - 1]);
      InsertDescending(rs[|rs| - 1], SortByRate(rs[..|rs| - 1]));
    }
    assert |multiset(SortByRate(rs))| == |multiset(rs)|;
  }

  function SumRates(rs: seq<FactorRate>): real
    decreases |rs|
  {
    if rs == [] then 0.0 else SumRates(rs[..|rs| - 1]) + rs[|rs| - 1].winRate
  }

  /** `.filter(f => f.winRate < avgWinRate - 5)`. */
  function BelowBy5(rs: seq<FactorRate>, avg: real): (r: seq<FactorRate>)
    ensures forall i :: 0 <= i < |r| ==> r[i].winRate < avg - 5.0
    ensures forall x :: x in r ==> x in rs
    decreases |rs|
  {
    if rs == [] then []
    else BelowBy5(rs[..|rs| - 1], avg) + if rs[|rs| - 1].winRate < avg - 5.0 then [rs[|rs| - 1]] else []
  }

  function Take(rs: seq<FactorRate>, n: nat): (r: seq<FactorRate>)
    ensures |r| <= n && |r| <= |rs| && r == rs[..|r|]
  {
    if |rs| <= n then rs else rs[..n]
  }

  /**
   * The factors with the highest win rates (`top`) and the ones well below
   * average (`overvalued`). With no frequent factor the average is NaN, every
   * comparison with it fails, and both lists are empty.
   */
  datatype FactorAnalysis = FactorAnalysis(top: seq<FactorRate>, overvalued: seq<FactorRate>)

  function Analysis(sorted: seq<FactorRate>): (r: FactorAnalysis)
    ensures |r.top| == (if |sorted| < 5 then |sorted| else 5) && r.top == sorted[..|r.top|]
    ensures |r.overvalued| <= 3 && (sorted == [] ==> r.overvalued == [])
  {
    if sorted == [] then FactorAnalysis([], [])
    else
      var avg := SumRates(sorted) / |sorted| as real;
      FactorAnalysis(Take(sorted, 5), Take(BelowBy5(sorted, avg), 3))
  }

  /** The frequent factors of the records, sorted by non-increasing rate; the analysis takes its lists from this. */
  function SortedFactors(learningData: seq<LearningRecord>): (sorted: seq<FactorRate>)
    ensures Descending(sorted)
  {
    var fs := StatsOf(Uses(learningData));
    StatsWellFormed(Uses(learningData));
    SortByRateSorts(Frequent(Rated(fs.order, fs.stats)));
    SortByRate(Frequent(Rated(fs.order, fs.stats)))
  }

  /** One record's factors counted into `factorStats`. */
  method CountFactors(fs: FactorStats, factors: seq<string>, wasCorrect: bool, ghost before: seq<FactorUse>)
    returns (fs': FactorStats)
    requires fs == StatsOf(before)
    ensures fs' == StatsOf(before + RecordUses(factors, wasCorrect))
  {
    var order, factorStats := fs.order, fs.stats;
    var j := 0;
    assert before + RecordUses(factors[..0], wasCorrect) == before;
    while j < |factors|
      invariant 0 <= j <= |factors|
      invariant FactorStats(order, factorStats) == StatsOf(before + RecordUses(factors[..j], wasCorrect))
    {
      UsesSnoc(before, factors, wasCorrect, j);
      order, factorStats := CountFactor(order, factorStats, factors[j], wasCorrect);
      j := j + 1;
    }
    assert factors[..|factors|] == factors;
    fs' := FactorStats(order, factorStats);
  }

  /** The body of the inner loop: one use of `factor` in a record that was or was not correct. */
  method CountFactor(order: seq<string>, factorStats: map<string, Stat>, factor: string, wasCorrect: bool)
    returns (order': seq<string>, factorStats': map<string, Stat>)
    ensures FactorStats(order', factorStats') == RecordUse(FactorStats(order, factorStats), FactorUse(factor, wasCorrect))
  {
    order', factorStats' := order, factorStats;
    if factor !in factorStats' {
      factorStats' := factorStats'[factor := Stat(0, 0)];
      order' := order' + [factor];
    }
    var wins := if wasCorrect then factorStats'[factor].wins + 1 else factorStats'[factor].wins;
    RecordUseIs(FactorStats(order, factorStats), FactorUse(factor, wasCorrect), order', factorStats');
    factorStats' := factorStats'[factor := Stat(factorStats'[factor].uses + 1, wins)];
  }

  lemma RecordUseIs(fs: FactorStats, u: FactorUse, order: seq<string>, stats: map<string, Stat>)
    requires u.factor in fs.stats ==> order == fs.order && stats == fs.stats
    requires u.factor !in fs.stats ==> order == fs.order + [u.factor] && stats == fs.stats[u.factor := Stat(0, 0)]
    ensures u.factor in stats
    ensures RecordUse(fs, u)
         == FactorStats(order, stats[u.factor := Stat(stats[u.factor].uses + 1, stats[u.factor].wins + if u.won then 1 else 0)])
  {
  }

  lemma UsesSnoc(before: seq<FactorUse>, factors: seq<string>, won: bool, j: nat)
    requires j < |factors|
    ensures StatsOf(before + RecordUses(factors[..j + 1], won))
         == RecordUse(StatsOf(before + RecordUses(factors[..j], won)), FactorUse(factors[j], won))
  {
    assert factors[..j + 1][..j] == factors[..j];
    var done := RecordUses(factors[..j], won);
    assert RecordUses(factors[..j + 1], won) == done + [FactorUse(factors[j], won)];
    assert before + (done + [FactorUse(factors[j], won)]) == (before + done) + [FactorUse(factors[j], won)];
  }

  lemma UsesPrefix(records: seq<LearningRecord>, i: nat)
    requires i < |records|
    ensures Uses(records[..i + 1]) == Uses(records[..i]) + RecordUses(records[i].factors, records[i].wasCorrect)
  {
    assert records[..i + 1][..i] == records[..i];
  }

  /** `analyzeFactorPerformance`. */
  method AnalyzeFactorPerformance(learningData: seq<LearningRecord>) returns (analysis: FactorAnalysis)
    ensures analysis == Analysis(SortedFactors(learningData))
  {
    var fs := FactorStats([], map[]);
    var i := 0;
    while i < |learningData|
      invariant 0 <= i <= |learningData|
      invariant fs == StatsOf(Uses(learningData[..i]))
    {
      UsesPrefix(learningData, i);
      fs := CountFactors(fs, learningData[i].factors, learningData[i].wasCorrect, Uses(learningData[..i]));
      i := i + 1;
    }
    assert learningData[..|learningData|] == learningData;
    StatsWellFormed(Uses(learningData));
    var factorsWithRates := Frequent(Rated(fs.order, fs.stats));
    factorsWithRates := SortByRate(factorsWithRates);
    analysis := Analysis(factorsWithRates);
  }

  /** Every frequent factor was used at least ten times and has a rate in [0, 100]. */
  lemma SortedFactorsRange(learningData: seq<LearningRecord>)
    ensures forall x :: x in SortedFactors(learningData) ==> x.uses >= 10 && 0.0 <= x.winRate <= 100.0
  {
    var fs := StatsOf(Uses(learningData));
    StatsWellFormed(Uses(learningData));
    var rated := Rated(fs.order, fs.stats);
    var frequent := Frequent(rated);
    var sorted := SortedFactors(learningData);
    assert sorted == SortByRate(frequent);
    forall x | x in sorted ensures x.uses >= 10 && 0.0 <= x.winRate <= 100.0 {
      assert x in multiset(sorted);
      assert x in frequent;
      var i :| 0 <= i < |rated| && rated[i] == x;
    }
  }

  /**
   * `top` holds at most five entries, highest win rate first, and no factor
   * left out of it rates higher than one in it.
   */
  lemma TopIsBest(sorted: seq<FactorRate>)
    requires Descending(sorted)
    ensures var top := Analysis(sorted).top;
      |top| <= 5 && Descending(top) && top == sorted[..|top|]
      && forall i, j :: 0 <= i < |top| <= j < |sorted| ==> sorted[j].winRate <= top[i].winRate
  {
    var top := Analysis(sorted).top;
    if sorted != [] {
      forall i, j | 0 <= i < |top| <= j < |sorted| ensures sorted[j].winRate <= top[i].winRate {
        assert top[i] == sorted[i];
      }
    }
  }

  /** `overvalued` holds at most three entries, each more than 5 points below the average of the frequent factors. */
  lemma OvervaluedAreBelowAverage(sorted: seq<FactorRate>)
    ensures var over := Analysis(sorted).overvalued;
      |over| <= 3 && (forall x :: x in over ==> x in sorted)
      && (sorted != [] ==> forall x :: x in over ==> x.winRate < SumRates(sorted) / |sorted| as real - 5.0)
  {
    if sorted != [] {
      var avg := SumRates(sorted) / |sorted| as real;
      var below := BelowBy5(sorted, avg);
      var over := Take(below, 3);
      forall x | x in over ensures x in sorted && x.winRate < avg - 5.0 {
        var i :| 0 <= i < |over| && over[i] == x;
        assert below[i] == x;
      }
    }
  }

  /** The analysis of stored learning data has the properties above, and every entry of it is a frequent factor. */
  lemma AnalysisProperties(learningData: seq<LearningRecord>)
    ensures var sorted := SortedFactors(learningData);
      var a := Analysis(sorted);
      |a.top| <= 5 && Descending(a.top) && a.top == sorted[..|a.top|] && |a.overvalued| <= 3
      && (forall x :: x in a.top || x in a.overvalued ==> x.uses >= 10 && 0.0 <= x.winRate <= 100.0)
  {
    var sorted := SortedFactors(learningData);
    SortedFactorsRange(learningData);
    TopIsBest(sorted);
    OvervaluedAreBelowAverage(sorted);
    var top := Analysis(sorted).top;
    forall x | x in top ensures x in sorted {
      var i :| 0 <= i < |top| && top[i] == x;
      assert sorted[i] == x;
    }
  }

  // ---------------------------------------------------------------- formatLearningInsights

  function Midpoint(b: BucketRate): real {
    (b.low + b.high) as real / 2.0
  }

  datatype Calibration = WellCalibrated | Overconfident | Unreported

  /**
   * A bucket within 3 points of its midpoint is well calibrated; one 3 or more
   * below it is overconfident; one 3 or more above it gets no line.
   */
  function Calibrate(b: BucketRate): (c: Calibration)
    ensures c == WellCalibrated <==> -3.0 < b.rate - Midpoint(b) < 3.0
    ensures c == Overconfident <==> b.rate <= Midpoint(b) - 3.0
    ensures c == Unreported <==> b.rate >= Midpoint(b) + 3.0
  {
    var diff := EdgeCalculator.Abs(b.rate - Midpoint(b));
    if diff < 3.0 then WellCalibrated
    else if b.rate < Midpoint(b) then Overconfident
    else Unreported
  }

  function BucketKey(b: BucketRate): string {
    NatToString(b.low) + "-" + NatToString(b.high)
  }

  const WellMark := "✓ "
  const OverMark := "⚠ "
  const ConfidenceArrow := "% confidence → "
  const WellTail := "% actual (well calibrated)\n"
  const OverTail := "% actual (overconfident)\n"

  function CalibrationLine(b: BucketRate): string {
    match Calibrate(b)
    case WellCalibrated => WellMark + BucketKey(b) + ConfidenceArrow + ToFixed1(b.rate) + WellTail
    case Overconfident => OverMark + BucketKey(b) + ConfidenceArrow + ToFixed1(b.rate) + OverTail
    case Unreported => ""
  }

  function CalibrationText(buckets: seq<BucketRate>): string
    decreases |buckets|
  {
    if buckets == [] then ""
    else CalibrationText(buckets[..|buckets| - 1]) + CalibrationLine(buckets[|buckets| - 1])
  }

  function TopLine(i: nat, f: FactorRate): string {
    NatToString(i + 1) + ". \"" + f.factor + "\" → " + ToFixed1(f.winRate) + "% win rate\n"
  }

  function TopText(top: seq<FactorRate>): string
    decreases |top|
  {
    if top == [] then "" else TopText(top[..|top| - 1]) + TopLine(|top| - 1, top[|top| - 1])
  }

  function OvervaluedLine(f: FactorRate): string {
    "- \"" + f.factor + "\" → Only " + ToFixed1(f.winRate) + "% win rate\n"
  }

  function OvervaluedText(overvalued: seq<FactorRate>): string
    decreases |overvalued|
  {
    if overvalued == [] then ""
    else OvervaluedText(overvalued[..|overvalued| - 1]) + OvervaluedLine(overvalued[|overvalued| - 1])
  }

  function Header(sport: string, betType: string, sampleSize: nat, winRate: real): string {
    "\nLEARNING INSIGHTS FOR " + ToUpper(sport) + " " + ToUpper(betType) + "\nSample Size: "
    + NatToString(sampleSize) + " predictions | Win Rate: " + ToFixed1(winRate) + "%\n\nCONFIDENCE CALIBRATION:\n"
  }

  const TopHeading := "\nTOP PREDICTIVE FACTORS:\n"
  const OvervaluedHeading := "\nOVERVALUED FACTORS (Use Less):\n"

  /** The insights text, section by section. */
  function InsightsText(sport: string, betType: string, winRate: real, sampleSize: nat,
                        confidenceBuckets: seq<BucketRate>, topFactors: seq<FactorRate>,
                        overvaluedFactors: seq<FactorRate>): string
  {
    Header(sport, betType, sampleSize, winRate) + CalibrationText(confidenceBuckets)
    + TopSection(topFactors) + OvervaluedSection(overvaluedFactors)
  }

  /** The top-factor section, present only when there is a top factor. */
  function TopSection(topFactors: seq<FactorRate>): string {
    if |topFactors| > 0 then TopHeading + TopText(topFactors) else ""
  }

  /** The overvalued-factor section, present only when there is an overvalued factor. */
  function OvervaluedSection(overvaluedFactors: seq<FactorRate>): string {
    if |overvaluedFactors| > 0 then OvervaluedHeading + OvervaluedText(overvaluedFactors) else ""
  }

  lemma Assoc<T>(a: seq<T>, b: seq<T>, c: seq<T>)
    ensures a + (b + c) == (a + b) + c
  {
  }

  lemma CalibrationTextSnoc(buckets: seq<BucketRate>, k: nat)
    requires k < |buckets|
    ensures CalibrationText(buckets[..k + 1]) == CalibrationText(buckets[..k]) + CalibrationLine(buckets[k])
  {
    assert buckets[..k + 1][..k] == buckets[..k];
  }

  lemma TopTextSnoc(top: seq<FactorRate>, i: nat)
    requires i < |top|
    ensures TopText(top[..i + 1]) == TopText(top[..i]) + TopLine(i, top[i])
  {
    assert top[..i + 1][..i] == top[..i];
  }

  lemma OvervaluedTextSnoc(over: seq<FactorRate>, i: nat)
    requires i < |over|
    ensures OvervaluedText(over[..i + 1]) == OvervaluedText(over[..i]) + OvervaluedLine(over[i])
  {
    assert over[..i + 1][..i] == over[..i];
  }

  /** The calibration loop of `formatLearningInsights`. */
  method AppendCalibration(text: string, confidenceBuckets: seq<BucketRate>) returns (text': string)
    ensures text' == text + CalibrationText(confidenceBuckets)
  {
    text' := text;
    var k := 0;
    while k < |confidenceBuckets|
      invariant 0 <= k <= |confidenceBuckets|
      invariant text' == text + CalibrationText(confidenceBuckets[..k])
    {
      CalibrationTextSnoc(confidenceBuckets, k);
      var bucket := confidenceBuckets[k];
      Assoc(text, CalibrationText(confidenceBuckets[..k]), CalibrationLine(bucket));
      var midpoint := Midpoint(bucket);
      var diff := EdgeCalculator.Abs(bucket.rate - midpoint);
      if diff < 3.0 {
        var line := WellMark + BucketKey(bucket) + ConfidenceArrow + ToFixed1(bucket.rate) + WellTail;
        assert CalibrationLine(bucket) == line;
        text' := text' + line;
      } else if bucket.rate < midpoint {
        var line := OverMark + BucketKey(bucket) + ConfidenceArrow + ToFixed1(bucket.rate) + OverTail;
        assert CalibrationLine(bucket) == line;
        text' := text' + line;
      } else {
        assert CalibrationLine(bucket) == "";
      }
      k := k + 1;
    }
    assert confidenceBuckets[..|confidenceBuckets|] == confidenceBuckets;
  }

  /** The `topFactors.forEach` loop: numbered lines, 1 first. */
  method AppendTop(text: string, topFactors: seq<FactorRate>) returns (text': string)
    ensures text' == text + TopText(topFactors)
  {
    text' := text;
    var i := 0;
    while i < |topFactors|
      invariant 0 <= i <= |topFactors|
      invariant text' == text + TopText(topFactors[..i])
    {
      TopTextSnoc(topFactors, i);
      Assoc(text, TopText(topFactors[..i]), TopLine(i, topFactors[i]));
      text' := text' + TopLine(i, topFactors[i]);
      i := i + 1;
    }
    assert topFactors[..|topFactors|] == topFactors;
  }

  /** The `overvaluedFactors.forEach` loop. */
  method AppendOvervalued(text: string, overvaluedFactors: seq<FactorRate>) returns (text': string)
    ensures text' == text + OvervaluedText(overvaluedFactors)
  {
    text' := text;
    var i := 0;
    while i < |overvaluedFactors|
      invariant 0 <= i <= |overvaluedFactors|
      invariant text' == text + OvervaluedText(overvaluedFactors[..i])
    {
      OvervaluedTextSnoc(overvaluedFactors, i);
      Assoc(text, OvervaluedText(overvaluedFactors[..i]), OvervaluedLine(overvaluedFactors[i]));
      text' := text' + OvervaluedLine(overvaluedFactors[i]);
      i := i + 1;
    }
    assert overvaluedFactors[..|overvaluedFactors|] == overvaluedFactors;
  }

  /** `formatLearningInsights`: the text is built by appending section after section. */
  method FormatLearningInsights(sport: string, betType: string, winRate: real, sampleSize: nat,
                                confidenceBuckets: seq<BucketRate>, topFactors: seq<FactorRate>,
                                overvaluedFactors: seq<FactorRate>)
    returns (text: string)
    ensures text == InsightsText(sport, betType, winRate, sampleSize, confidenceBuckets, topFactors, overvaluedFactors)
  {
    var header := Header(sport, betType, sampleSize, winRate);
    text := AppendCalibration(header, confidenceBuckets);
    var calibrated := text;
    if |topFactors| > 0 {
      text := AppendTop(text + TopHeading, topFactors);
      Assoc(calibrated, TopHeading, TopText(topFactors));
    } else {
      assert calibrated + TopSection(topFactors) == calibrated;
    }
    var topped := text;
    if |overvaluedFactors| > 0 {
      text := AppendOvervalued(text + OvervaluedHeading, overvaluedFactors);
      Assoc(topped, OvervaluedHeading, OvervaluedText(overvaluedFactors));
    } else {
      assert topped + OvervaluedSection(overvaluedFactors) == topped;
    }
  }

  // ---------------------------------------------------------------- generateLearningInsights

  datatype Insights = Insufficient(sampleSize: nat) | Report(text: string)

  function CorrectPredictions(records: seq<LearningRecord>): (n: nat)
    ensures n <= |records|
    decreases |records|
  {
    if records == [] then 0
    else CorrectPredictions(records[..|records| - 1]) + if records[|records| - 1].wasCorrect then 1 else 0
  }

  /** What `generateLearningInsights` returns for the learning data its query found. */
  function InsightsFor(sport: string, betType: string, learningData: Option<seq<LearningRecord>>): (insights: Insights)
    ensures insights.Insufficient? <==> learningData.None? || |learningData.value| < 50
    ensures insights.Insufficient? ==> insights.sampleSize == if learningData.None? then 0 else |learningData.value|
  {
    match learningData
    case None => Insufficient(0)
    case Some(data) =>
      if |data| < 50 then Insufficient(|data|)
      else
        var t := Tallies(data);
        var buckets := seq(BucketCount, b requires 0 <= b < BucketCount => BucketRate(BucketLow(b), BucketHigh(b), Rate(t[b])));
        var a := Analysis(SortedFactors(data));
        Report(InsightsText(sport, betType, Percent(CorrectPredictions(data), |data|), |data|, buckets, a.top, a.overvalued))
  }

  /**
   * `generateLearningInsights` after its query (the query itself is not
   * modelled): fewer than 50 rows, or none, give the insufficient-data result
   * with the sample size; otherwise the insights text.
   */
  method GenerateLearningInsights(sport: string, betType: string, learningData: Option<seq<LearningRecord>>)
    returns (insights: Insights)
    ensures insights == InsightsFor(sport, betType, learningData)
    ensures insights.Insufficient? <==> learningData.None? || |learningData.value| < 50
    ensures insights.Insufficient? ==> insights.sampleSize == if learningData.None? then 0 else |learningData.value|
  {
    if learningData.None? || |learningData.value| < 50 {
      return Insufficient(if learningData.None? then 0 else |learningData.value|);
    }
    var data := learningData.value;
    var totalPredictions := |data|;
    var correctPredictions := CorrectPredictions(data);
    var winRate := Percent(correctPredictions, totalPredictions);
    var confidenceBuckets := CalculateConfidenceBuckets(data);
    var factorAnalysis := AnalyzeFactorPerformance(data);
    var t := Tallies(data);
    assert confidenceBuckets == seq(BucketCount, b requires 0 <= b < BucketCount => BucketRate(BucketLow(b), BucketHigh(b), Rate(t[b])));
    var text := FormatLearningInsights(sport, betType, winRate, totalPredictions, confidenceBuckets,
                                       factorAnalysis.top, factorAnalysis.overvalued);
    insights := Report(text);
  }
}
