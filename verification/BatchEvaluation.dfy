/**
 The evaluation of a batch of predictions (evaluate in src/evaluators/quality_metrics.py), for any way of scoring one
 prediction against one reference text: the best score over the alternatives of a reference, averaged over the batch.
 */
module BatchEvaluation {
  import opened Sequences
  import opened Numbers
  import opened Words
  import opened Fractions

  datatype Metric = F1 | Em | RougeLMetric | EditSim | Unsupported(name: string)

  const ALL_METRICS: set<Metric> := {F1, Em, RougeLMetric, EditSim}

  datatype Evaluation = Means(scores: map<Metric, real>) | LengthMismatch

  /** A score for every metric, prediction and reference text. */
  type Scorer = (Metric, string, string) -> real

  /** Surviving pieces of a reference in order, stripped. */
  function StrippedPieces(pieces: seq<string>): seq<string> {
    if pieces == [] then []
    else (if Strip(pieces[0]) == "" then [] else [Strip(pieces[0])]) + StrippedPieces(pieces[1..])
  }

  /** The alternatives of a reference: non-blank pieces between bars, or the empty text. */
  function References(reference: string): (refs: seq<string>)
    ensures refs != []
  {
    var refs := StrippedPieces(SplitOn(reference, '|'));
    if refs == [] then [""] else refs
  }

  lemma {:induction false} PiecesOfBoth(s: seq<string>, t: seq<string>)
    ensures StrippedPieces(s + t) == StrippedPieces(s) + StrippedPieces(t)
  {
    if s == [] {
      assert s + t == t;
    } else {
      assert (s + t)[1..] == s[1..] + t;
      PiecesOfBoth(s[1..], t);
    }
  }

  /** A reference without a bar is one alternative, stripped, blank or not. */
  lemma {:induction false} OneAlternative(reference: string)
    requires '|' !in reference
    ensures References(reference) == [Strip(reference)]
  {
    SplitOnWithoutBar(reference, '|');
    assert [reference][1..] == [] && StrippedPieces([]) == [];
    assert StrippedPieces([reference]) == if Strip(reference) == "" then [] else [Strip(reference)];
  }

  /** Two references joined by a bar have the alternatives of both, unless one is blank and adds none. */
  lemma {:induction false} AlternativesOfBoth(a: string, b: string)
    ensures
      var one, two := StrippedPieces(SplitOn(a, '|')), StrippedPieces(SplitOn(b, '|'));
      && (one != [] ==> References(a) == one)
      && (two != [] ==> References(b) == two)
      && References(a + "|" + b) == if one + two == [] then [""] else one + two
  {
    assert a + "|" + b == a + ['|'] + b;
    SplitOnAtBar(a, '|', b);
    PiecesOfBoth(SplitOn(a, '|'), SplitOn(b, '|'));
  }

  /** The scores of a prediction against every alternative. */
  function ScoresOver(m: Metric, score: Scorer, prediction: string, refs: seq<string>): (scores: seq<real>)
    ensures |scores| == |refs|
  {
    if refs == [] then []
    else ScoresOver(m, score, prediction, Init(refs)) + [score(m, prediction, Last(refs))]
  }

  /** The best score of a prediction over the alternatives of its reference. */
  function BestScore(m: Metric, score: Scorer, prediction: string, reference: string): real {
    MaxOf(ScoresOver(m, score, prediction, References(reference)))
  }

  function BestScores(m: Metric, score: Scorer, predictions: seq<string>, references: seq<string>): (scores: seq<real>)
    requires |predictions| == |references|
    ensures |scores| == |predictions|
  {
    if predictions == [] then []
    else BestScores(m, score, Init(predictions), Init(references))
         + [BestScore(m, score, Last(predictions), Last(references))]
  }

  /** The list a metric collects over the batch; an unsupported one collects nothing. */
  function Collected(m: Metric, score: Scorer, predictions: seq<string>, references: seq<string>): seq<real>
    requires |predictions| == |references|
  {
    if m in ALL_METRICS then BestScores(m, score, predictions, references) else []
  }

  /** The report: the mean of every list that is not empty. */
  function EvaluationOf(metrics: set<Metric>, score: Scorer, predictions: seq<string>,
                        references: seq<string>): Evaluation {
    if |predictions| != |references| then LengthMismatch
    else Means(map m | m in metrics && Collected(m, score, predictions, references) != [] ::
                 Mean(Collected(m, score, predictions, references)))
  }

  lemma {:induction false} OneMoreScore(m: Metric, score: Scorer, prediction: string, refs: seq<string>, k: nat)
    requires 0 < k < |refs|
    ensures
      var before := MaxOf(ScoresOver(m, score, prediction, refs[..k]));
      var s := score(m, prediction, refs[k]);
      MaxOf(ScoresOver(m, score, prediction, refs[..k + 1])) == if s > before then s else before
  {
    var scores := ScoresOver(m, score, prediction, refs[..k + 1]);
    assert Init(refs[..k + 1]) == refs[..k];
    assert Init(scores) == ScoresOver(m, score, prediction, refs[..k]);
  }

  lemma {:induction false} CollectedOneMore(m: Metric, score: Scorer, predictions: seq<string>, references: seq<string>,
                                            k: nat)
    requires k < |predictions| == |references|
    ensures Collected(m, score, predictions[..k + 1], references[..k + 1]) ==
            Collected(m, score, predictions[..k], references[..k]) +
            if m in ALL_METRICS then [BestScore(m, score, predictions[k], references[k])] else []
  {
    assert Init(predictions[..k + 1]) == predictions[..k] && Init(references[..k + 1]) == references[..k];
  }

  /** What one pair adds to the list of a metric. */
  function Gain(m: Metric, score: Scorer, prediction: string, refs: seq<string>): seq<real>
    requires refs != []
  {
    if m in ALL_METRICS then [MaxOf(ScoresOver(m, score, prediction, refs))] else []
  }

  ghost function Appended(scores: map<Metric, seq<real>>, m: Metric, gain: seq<real>): map<Metric, seq<real>> {
    if m in scores then scores[m := scores[m] + gain] else scores
  }

  /** Appends to different lists do not disturb each other. */
  lemma {:induction false} FourAppends(scores: map<Metric, seq<real>>, one: map<Metric, seq<real>>,
                                       two: map<Metric, seq<real>>, three: map<Metric, seq<real>>,
                                       four: map<Metric, seq<real>>, gains: map<Metric, seq<real>>)
    requires gains.Keys == ALL_METRICS
    requires one == Appended(scores, F1, gains[F1]) && two == Appended(one, Em, gains[Em])
    requires three == Appended(two, RougeLMetric, gains[RougeLMetric])
    requires four == Appended(three, EditSim, gains[EditSim])
    ensures four.Keys == scores.Keys
    ensures forall m :: m in scores ==> four[m] == scores[m] + (if m in ALL_METRICS then gains[m] else [])
  {
  }

  /** `scores` holds what every requested metric has collected from the first `k` pairs. */
  ghost predicate CollectedAll(scores: map<Metric, seq<real>>, metrics: set<Metric>, score: Scorer,
                               predictions: seq<string>, references: seq<string>, k: nat)
    requires k <= |predictions| == |references|
  {
    && scores.Keys == metrics
    && forall m :: m in metrics ==> scores[m] == Collected(m, score, predictions[..k], references[..k])
  }

  lemma {:induction false} PairCollected(before: map<Metric, seq<real>>, after: map<Metric, seq<real>>,
                                         metrics: set<Metric>, score: Scorer, predictions: seq<string>,
                                         references: seq<string>, k: nat)
    requires k < |predictions| == |references|
    requires CollectedAll(before, metrics, score, predictions, references, k)
    requires after.Keys == metrics
    requires forall m :: m in metrics ==>
      after[m] == before[m] + Gain(m, score, predictions[k], References(references[k]))
    ensures CollectedAll(after, metrics, score, predictions, references, k + 1)
  {
    forall m | m in metrics
      ensures after[m] == Collected(m, score, predictions[..k + 1], references[..k + 1])
    {
      CollectedOneMore(m, score, predictions, references, k);
    }
  }

  lemma {:induction false} ReportFromCollected(scores: map<Metric, seq<real>>, metrics: set<Metric>, score: Scorer,
                                               predictions: seq<string>, references: seq<string>)
    requires |predictions| == |references|
    requires CollectedAll(scores, metrics, score, predictions, references, |predictions|)
    ensures Means(map m | m in scores && scores[m] != [] :: Mean(scores[m]))
         == EvaluationOf(metrics, score, predictions, references)
  {
    var lists := map m | m in metrics :: Collected(m, score, predictions, references);
    assert scores == lists by {
      assert predictions[..|predictions|] == predictions && references[..|references|] == references;
    }
    MeansOf(lists, EvaluationOf(metrics, score, predictions, references).scores);
  }

  lemma {:induction false} MeansOf(lists: map<Metric, seq<real>>, report: map<Metric, real>)
    requires forall m :: m in report <==> m in lists && lists[m] != []
    requires forall m :: m in report ==> report[m] == Mean(lists[m])
    ensures report == map m | m in lists && lists[m] != [] :: Mean(lists[m])
  {
  }

  // ---------- order between the reported means ----------

  /** One metric is never above another on a single pair. */
  ghost predicate NeverAbove(low: Metric, high: Metric, score: Scorer)
  {
    forall p, r :: score(low, p, r) <= score(high, p, r)
  }

  lemma {:induction false} OrderSurvivesMax(low: Metric, high: Metric, score: Scorer, prediction: string,
                                            refs: seq<string>)
    requires NeverAbove(low, high, score)
    requires refs != []
    ensures MaxOf(ScoresOver(low, score, prediction, refs)) <= MaxOf(ScoresOver(high, score, prediction, refs))
  {
    var n := |refs| - 1;
    assert refs[..n + 1] == refs;
    if n == 0 {
      assert Init(refs) == [];
    } else {
      OrderSurvivesMax(low, high, score, prediction, refs[..n]);
      OneMoreScore(low, score, prediction, refs, n);
      OneMoreScore(high, score, prediction, refs, n);
    }
  }

  lemma {:induction false} OrderSurvivesSum(low: Metric, high: Metric, score: Scorer, predictions: seq<string>,
                                            references: seq<string>)
    requires NeverAbove(low, high, score)
    requires |predictions| == |references|
    ensures Sum(BestScores(low, score, predictions, references)) <=
            Sum(BestScores(high, score, predictions, references))
  {
    if predictions != [] {
      var ps, rs := Init(predictions), Init(references);
      OrderSurvivesSum(low, high, score, ps, rs);
      OrderSurvivesMax(low, high, score, Last(predictions), References(Last(references)));
      SumOfOneMore(BestScores(low, score, ps, rs), BestScore(low, score, Last(predictions), Last(references)));
      SumOfOneMore(BestScores(high, score, ps, rs), BestScore(high, score, Last(predictions), Last(references)));
    }
  }

  /** An order on every pair survives the best over the alternatives and the mean over the batch. */
  lemma {:induction false} OrderSurvivesEvaluation(low: Metric, high: Metric, score: Scorer, predictions: seq<string>,
                                                   references: seq<string>)
    requires NeverAbove(low, high, score)
    requires |predictions| == |references| && predictions != []
    ensures Mean(BestScores(low, score, predictions, references)) <=
            Mean(BestScores(high, score, predictions, references))
  {
    OrderSurvivesSum(low, high, score, predictions, references);
    QuotientOrder(Sum(BestScores(low, score, predictions, references)),
                  Sum(BestScores(high, score, predictions, references)), |predictions| as real);
  }

  // ---------- what the report says ----------

  lemma {:induction false} MaxIsMaxOf(xs: seq<real>)
    requires xs != []
    ensures (exists i :: 0 <= i < |xs| && xs[i] == MaxOf(xs)) && forall i :: 0 <= i < |xs| ==> xs[i] <= MaxOf(xs)
  {
    assert MaxOf(xs) in xs;
  }

  /** The best score is that of one alternative of the reference, and no alternative scores more. */
  lemma {:induction false} BestIsBest(m: Metric, score: Scorer, prediction: string, reference: string)
    ensures
      var refs, best := References(reference), BestScore(m, score, prediction, reference);
      && (exists k :: 0 <= k < |refs| && score(m, prediction, refs[k]) == best)
      && forall k :: 0 <= k < |refs| ==> score(m, prediction, refs[k]) <= best
  {
    BestOver(m, score, prediction, References(reference));
  }

  lemma {:induction false} BestOver(m: Metric, score: Scorer, prediction: string, refs: seq<string>)
    requires refs != []
    ensures
      var best := MaxOf(ScoresOver(m, score, prediction, refs));
      && (exists k :: 0 <= k < |refs| && score(m, prediction, refs[k]) == best)
      && forall k :: 0 <= k < |refs| ==> score(m, prediction, refs[k]) <= best
  {
    var scores := ScoresOver(m, score, prediction, refs);
    ScoresAt(m, score, prediction, refs);
    MaxIsMaxOf(scores);
    var k :| 0 <= k < |scores| && scores[k] == MaxOf(scores);
    assert score(m, prediction, refs[k]) == MaxOf(scores);
  }

  lemma {:induction false} ScoresAt(m: Metric, score: Scorer, prediction: string, refs: seq<string>)
    ensures forall k :: 0 <= k < |refs| ==> ScoresOver(m, score, prediction, refs)[k] == score(m, prediction, refs[k])
  {
    if refs != [] {
      ScoresAt(m, score, prediction, Init(refs));
    }
  }

  /** A batch of one pair reports its best score. */
  lemma {:induction false} OnePairReport(metrics: set<Metric>, score: Scorer, prediction: string, reference: string,
                                         m: Metric)
    requires m in metrics && m in ALL_METRICS
    ensures
      var report := EvaluationOf(metrics, score, [prediction], [reference]).scores;
      m in report && report[m] == BestScore(m, score, prediction, reference)
  {
    var ps, rs, best := [prediction], [reference], BestScore(m, score, prediction, reference);
    assert Init(ps) == [] && Init(rs) == [] && Last(ps) == prediction && Last(rs) == reference;
    assert BestScores(m, score, ps, rs) == [best];
    SumOfOneMore([], best);
    assert [] + [best] == [best];
    MeanTimesCount([best]);
  }

  lemma {:induction false} BestScoresOfBoth(m: Metric, score: Scorer, ps: seq<string>, rs: seq<string>,
                                            ps': seq<string>, rs': seq<string>)
    requires |ps| == |rs| && |ps'| == |rs'|
    ensures BestScores(m, score, ps + ps', rs + rs') == BestScores(m, score, ps, rs) + BestScores(m, score, ps', rs')
    decreases |ps'|
  {
    if ps' == [] {
      assert ps + ps' == ps && rs + rs' == rs;
    } else {
      BestScoresOfBoth(m, score, ps, rs, Init(ps'), Init(rs'));
      LastOfBoth(ps, ps');
      LastOfBoth(rs, rs');
      var best := BestScore(m, score, Last(ps'), Last(rs'));
      JoinedLast(BestScores(m, score, ps, rs), BestScores(m, score, Init(ps'), Init(rs')), best);
    }
  }

  lemma {:induction false} LastOfBoth(s: seq<string>, t: seq<string>)
    requires t != []
    ensures s + t != [] && Init(s + t) == s + Init(t) && Last(s + t) == Last(t)
  {
  }

  lemma {:induction false} JoinedLast(xs: seq<real>, ys: seq<real>, y: real)
    ensures (xs + ys) + [y] == xs + (ys + [y])
  {
  }

  lemma {:induction false} ReportIsMean(metrics: set<Metric>, score: Scorer, ps: seq<string>, rs: seq<string>,
                                        m: Metric)
    requires |ps| == |rs| && ps != [] && m in metrics && m in ALL_METRICS
    ensures m in EvaluationOf(metrics, score, ps, rs).scores
    ensures EvaluationOf(metrics, score, ps, rs).scores[m] == Mean(BestScores(m, score, ps, rs))
  {
  }

  /** What a batch reports, as often as it has pairs, is the sum of the best scores of its pairs. */
  lemma {:induction false} ReportTotals(metrics: set<Metric>, score: Scorer, ps: seq<string>, rs: seq<string>,
                                        m: Metric, report: map<Metric, real>)
    requires |ps| == |rs| && ps != [] && m in metrics && m in ALL_METRICS
    requires Means(report) == EvaluationOf(metrics, score, ps, rs)
    ensures m in report && Times(|ps|, report[m]) == Sum(BestScores(m, score, ps, rs))
  {
    ReportIsMean(metrics, score, ps, rs, m);
    TimesMean(|ps|, BestScores(m, score, ps, rs));
  }

  lemma {:induction false} TimesMean(n: nat, xs: seq<real>)
    requires n == |xs| && n > 0
    ensures Times(n, Mean(xs)) == Sum(xs)
  {
    TimesIsProduct(n, Mean(xs));
    MeanTimesCount(xs);
  }

  /**
   Reported means of two batches, each counted as often as its batch has pairs, add up to that of the batches joined.
   */
  lemma {:induction false} JoinedReport(metrics: set<Metric>, score: Scorer, ps: seq<string>, rs: seq<string>,
                                        ps': seq<string>, rs': seq<string>, m: Metric, one: map<Metric, real>,
                                        two: map<Metric, real>, both: map<Metric, real>)
    requires |ps| == |rs| && |ps'| == |rs'| && ps != [] && ps' != []
    requires m in metrics && m in ALL_METRICS
    requires Means(one) == EvaluationOf(metrics, score, ps, rs)
    requires Means(two) == EvaluationOf(metrics, score, ps', rs')
    requires Means(both) == EvaluationOf(metrics, score, ps + ps', rs + rs')
    ensures m in one && m in two && m in both
    ensures Times(|ps + ps'|, both[m]) == Times(|ps|, one[m]) + Times(|ps'|, two[m])
  {
    ReportTotals(metrics, score, ps, rs, m, one);
    ReportTotals(metrics, score, ps', rs', m, two);
    ReportTotals(metrics, score, ps + ps', rs + rs', m, both);
    BestScoresOfBoth(m, score, ps, rs, ps', rs');
    SumOfBoth(BestScores(m, score, ps, rs), BestScores(m, score, ps', rs'));
  }

  /** Every score of a pair lies in [0, 1]. */
  ghost predicate ScoresInUnit(m: Metric, score: Scorer) {
    forall p, r :: 0.0 <= score(m, p, r) <= 1.0
  }

  lemma {:induction false} BestRange(m: Metric, score: Scorer, prediction: string, refs: seq<string>)
    requires ScoresInUnit(m, score)
    requires refs != []
    ensures 0.0 <= MaxOf(ScoresOver(m, score, prediction, refs)) <= 1.0
  {
    var n := |refs| - 1;
    assert refs[..n + 1] == refs;
    assert 0.0 <= score(m, prediction, refs[n]) <= 1.0;
    if n == 0 {
      assert Init(refs) == [];
    } else {
      BestRange(m, score, prediction, refs[..n]);
      OneMoreScore(m, score, prediction, refs, n);
    }
  }

  lemma {:induction false} SumRange(m: Metric, score: Scorer, predictions: seq<string>, references: seq<string>)
    requires ScoresInUnit(m, score)
    requires |predictions| == |references|
    ensures 0.0 <= Sum(BestScores(m, score, predictions, references)) <= |predictions| as real
  {
    if predictions != [] {
      var ps, rs := Init(predictions), Init(references);
      SumRange(m, score, ps, rs);
      BestRange(m, score, Last(predictions), References(Last(references)));
      SumOfOneMore(BestScores(m, score, ps, rs), BestScore(m, score, Last(predictions), Last(references)));
    }
  }

  /** The report holds exactly the supported metrics asked for, once there is a pair to score. */
  lemma {:induction false} ReportedMetrics(metrics: set<Metric>, score: Scorer, predictions: seq<string>,
                                           references: seq<string>)
    requires |predictions| == |references|
    ensures EvaluationOf(metrics, score, predictions, references).scores.Keys ==
            if predictions == [] then {} else metrics * ALL_METRICS
  {
    var report := EvaluationOf(metrics, score, predictions, references).scores;
    forall m
      ensures m in report <==> m in (if predictions == [] then {} else metrics * ALL_METRICS)
    {
      if m in metrics && m in ALL_METRICS {
        assert |Collected(m, score, predictions, references)| == |predictions|;
      }
    }
  }

  lemma {:induction false} MeanRange(m: Metric, score: Scorer, predictions: seq<string>, references: seq<string>)
    requires ScoresInUnit(m, score)
    requires |predictions| == |references| && predictions != []
    ensures 0.0 <= Mean(BestScores(m, score, predictions, references)) <= 1.0
  {
    SumRange(m, score, predictions, references);
    MeanInUnit(BestScores(m, score, predictions, references));
  }

  lemma {:induction false} MeanInUnit(xs: seq<real>)
    requires xs != [] && 0.0 <= Sum(xs) <= |xs| as real
    ensures 0.0 <= Mean(xs) <= 1.0
  {
    QuotientOrder(0.0, Sum(xs), |xs| as real);
    QuotientOrder(Sum(xs), |xs| as real, |xs| as real);
  }

  lemma {:induction false} ReportInUnit(metrics: set<Metric>, score: Scorer, ps: seq<string>, rs: seq<string>,
                                        m: Metric)
    requires ScoresInUnit(m, score)
    requires |ps| == |rs| && ps != [] && m in metrics && m in ALL_METRICS
    ensures
      var report := EvaluationOf(metrics, score, ps, rs).scores;
      m in report && 0.0 <= report[m] <= 1.0
  {
    ReportIsMean(metrics, score, ps, rs, m);
    MeanRange(m, score, ps, rs);
  }
}
