/**
 The scores of src/evaluators/quality_metrics.py and the batch evaluation over them.
 Lower-casing and the removal of articles and punctuation are an arbitrary function `clean`.
 Rounding to four decimals is not modelled.
 */
module QualityMetrics {
  import opened Sequences
  import opened Numbers
  import opened Words
  import opened Fractions
  import EditDistance
  import CommonSubsequence
  import opened BatchEvaluation

  type Cleaner = string -> string

  function NormalizeAnswer(clean: Cleaner, text: string): string {
    Join(Split(clean(text)))
  }

  function Tokens(clean: Cleaner, text: string): seq<string> {
    Split(NormalizeAnswer(clean, text))
  }

  // ---------- the four scores ----------

  function TokenF1(clean: Cleaner, prediction: string, reference: string): real {
    TokenF1Of(Tokens(clean, prediction), Tokens(clean, reference))
  }

  function TokenF1Of(p: seq<string>, r: seq<string>): real {
    if p == [] && r == [] then 1.0
    else if p == [] || r == [] then 0.0
    else HarmonicMean(|multiset(p) * multiset(r)|, |p|, |r|)
  }

  function ExactMatch(clean: Cleaner, prediction: string, reference: string): real {
    if NormalizeAnswer(clean, prediction) == NormalizeAnswer(clean, reference) then 1.0 else 0.0
  }

  function RougeL(clean: Cleaner, prediction: string, reference: string): real {
    RougeLOf(Tokens(clean, prediction), Tokens(clean, reference))
  }

  function RougeLOf(p: seq<string>, r: seq<string>): real {
    if p == [] || r == [] then 0.0 else HarmonicMean(CommonSubsequence.Lcs(p, r), |p|, |r|)
  }

  function EditSimilarity(clean: Cleaner, prediction: string, reference: string): real {
    EditSimilarityOf(NormalizeAnswer(clean, prediction), NormalizeAnswer(clean, reference))
  }

  function EditSimilarityOf(a: string, b: string): real {
    if a == [] && b == [] then 1.0
    else if a == [] || b == [] then 0.0
    else Remaining(EditDistance.Distance(a, b), Max(|a|, |b|))
  }

  /** The part of a text of length `longest` that `dist` edits leave alone. */
  function Remaining(dist: nat, longest: nat): real
    requires longest > 0
  {
    1.0 - dist as real / longest as real
  }

  /** Precision and recall of `common` matches combined, as both F1 scores compute it. */
  function HarmonicMean(common: nat, m: nat, n: nat): real
    requires m > 0 && n > 0
  {
    var precision := common as real / m as real;
    var recall := common as real / n as real;
    if precision + recall == 0.0 then 0.0 else 2.0 * precision * recall / (precision + recall)
  }

  // ---------- what the scores mean ----------

  /** The combined score is the share of matched tokens in the two texts together. */
  lemma {:induction false} HarmonicMeanIsShare(common: nat, m: nat, n: nat)
    requires m > 0 && n > 0
    ensures HarmonicMean(common, m, n) == 2.0 * common as real / (m + n) as real
  {
    var c, x, y := common as real, m as real, n as real;
    var p, r := c / x, c / y;
    assert p * x == c && r * y == c;
    if common > 0 {
      assert p > 0.0 && r > 0.0;
      var h := 2.0 * p * r / (p + r);
      ShareOf(c, x, y, p, r);
      assert h * (p + r) == 2.0 * p * r;
      assert (2.0 * c / (x + y)) * (p + r) == 2.0 * p * r;
      SameQuotient(h, 2.0 * c / (x + y), p + r);
    }
  }

  lemma {:induction false} ShareOf(c: real, x: real, y: real, p: real, r: real)
    requires c > 0.0 && x > 0.0 && y > 0.0 && p * x == c && r * y == c
    ensures (2.0 * c / (x + y)) * (p + r) == 2.0 * p * r
  {
    // p + r == p * r * (x + y) / c
    assert p * (r * y) == p * c;
    assert r * (p * x) == r * c;
    assert (p * r) * (x + y) == (p + r) * c;
    var q := 2.0 * c / (x + y);
    assert q * (x + y) == 2.0 * c;
    assert (q * (p + r)) * (x + y) == (q * (x + y)) * (p + r);
    assert (q * (p + r)) * (x + y) == 2.0 * (c * (p + r));
    assert (q * (p + r)) * (x + y) == (2.0 * p * r) * (x + y);
    SameQuotient(q * (p + r), 2.0 * p * r, x + y);
  }

  lemma {:induction false} SameQuotient(u: real, v: real, d: real)
    requires d != 0.0 && u * d == v * d
    ensures u == v
  {
    assert (u - v) * d == 0.0;
  }

  /** The combined score is between 0 and 1, symmetric, and perfect only when every token is matched. */
  lemma {:induction false} HarmonicMeanRange(common: nat, m: nat, n: nat)
    requires m > 0 && n > 0 && common <= m && common <= n
    ensures 0.0 <= HarmonicMean(common, m, n) <= 1.0
    ensures HarmonicMean(common, m, n) == 1.0 <==> common == m == n
    ensures HarmonicMean(common, m, n) == HarmonicMean(common, n, m)
  {
    HarmonicMeanIsShare(common, m, n);
    HarmonicMeanIsShare(common, n, m);
    ShareInUnit(common, m + n);
  }

  lemma {:induction false} ShareInUnit(common: nat, total: nat)
    requires 2 * common <= total && total > 0
    ensures 0.0 <= 2.0 * common as real / total as real <= 1.0
    ensures 2.0 * common as real / total as real == 1.0 <==> 2 * common == total
  {
    var c, d := 2.0 * common as real, total as real;
    QuotientOrder(0.0, c, d);
    QuotientOrder(c, d, d);
    assert c == d <==> 2 * common == total;
  }

  /** More matches, higher score. */
  lemma {:induction false} HarmonicMeanOrder(c: nat, c': nat, m: nat, n: nat)
    requires m > 0 && n > 0
    ensures c <= c' <==> HarmonicMean(c, m, n) <= HarmonicMean(c', m, n)
    ensures c == c' <==> HarmonicMean(c, m, n) == HarmonicMean(c', m, n)
  {
    HarmonicMeanIsShare(c, m, n);
    HarmonicMeanIsShare(c', m, n);
    QuotientOrder(2.0 * c as real, 2.0 * c' as real, (m + n) as real);
  }

  /** Normalised texts are equal exactly when their tokens are. */
  lemma {:induction false} SameTextIffSameTokens(clean: Cleaner, s: string, t: string)
    ensures Tokens(clean, s) == Split(clean(s))
    ensures NormalizeAnswer(clean, s) == NormalizeAnswer(clean, t) <==> Tokens(clean, s) == Tokens(clean, t)
    ensures NormalizeAnswer(clean, s) == [] <==> Tokens(clean, s) == []
  {
    SplitGivesWords(clean(s));
    SplitGivesWords(clean(t));
    SplitOfJoin(Split(clean(s)));
    SplitOfJoin(Split(clean(t)));
  }

  lemma {:induction false} SharedIsPart<T>(p: multiset<T>, r: multiset<T>)
    ensures |p * r| <= |p| && |p * r| <= |r|
    ensures |p * r| == |p| == |r| <==> p == r
  {
    assert p == p * r + (p - p * r);
    assert r == p * r + (r - p * r);
    assert |p| == |p * r| + |p - p * r| && |r| == |p * r| + |r - p * r|;
    if p == r {
      assert p * r == p;
    }
  }

  /** Token F1 lies in [0, 1] and is 1 exactly when the texts hold the same tokens equally often. */
  lemma {:induction false} TokenF1Range(p: seq<string>, r: seq<string>)
    ensures 0.0 <= TokenF1Of(p, r) <= 1.0
    ensures TokenF1Of(p, r) == 1.0 <==> multiset(p) == multiset(r)
    ensures TokenF1Of(p, r) == TokenF1Of(r, p)
  {
    var mp, mr := multiset(p), multiset(r);
    assert |mp| == |p| && |mr| == |r|;
    assert mp * mr == mr * mp;
    if p != [] && r != [] {
      SharedIsPart(mp, mr);
      HarmonicMeanRange(|mp * mr|, |p|, |r|);
    } else if p != [] {
      assert p[0] in mp;
    } else if r != [] {
      assert r[0] in mr;
    }
  }

  /** ROUGE-L lies in [0, 1] and is 1 exactly when the token lists are equal and not empty. */
  lemma {:induction false} RougeLRange(p: seq<string>, r: seq<string>)
    ensures 0.0 <= RougeLOf(p, r) <= 1.0
    ensures RougeLOf(p, r) == 1.0 <==> p == r && p != []
    ensures RougeLOf(p, r) == RougeLOf(r, p)
  {
    if p != [] && r != [] {
      CommonSubsequence.AtMostShorter(p, r);
      CommonSubsequence.FullLengthIffEqual(p, r);
      CommonSubsequence.Symmetric(p, r);
      HarmonicMeanRange(CommonSubsequence.Lcs(p, r), |p|, |r|);
    }
  }

  /** Matching in order never beats matching as bags; the two agree exactly when no match is lost. */
  lemma {:induction false} RougeLAtMostTokenF1(p: seq<string>, r: seq<string>)
    ensures RougeLOf(p, r) <= TokenF1Of(p, r)
    ensures p != [] && r != [] ==>
      (RougeLOf(p, r) == TokenF1Of(p, r) <==> CommonSubsequence.Lcs(p, r) == |multiset(p) * multiset(r)|)
  {
    if p != [] && r != [] {
      CommonSubsequence.AtMostShared(p, r);
      HarmonicMeanOrder(CommonSubsequence.Lcs(p, r), |multiset(p) * multiset(r)|, |p|, |r|);
    }
  }

  lemma {:induction false} RemainingRange(dist: nat, longest: nat)
    requires dist <= longest && longest > 0
    ensures 0.0 <= Remaining(dist, longest) <= 1.0
    ensures Remaining(dist, longest) == 1.0 <==> dist == 0
    ensures Remaining(dist, longest) == 0.0 <==> dist == longest
  {
    var d, n := dist as real, longest as real;
    QuotientOrder(d, n, n);
    QuotientOrder(0.0, d, n);
    assert n / n == 1.0;
  }

  /** Edit similarity lies in [0, 1], is symmetric, and is 1 exactly on equal texts; the two
      special cases for empty texts agree with the general formula wherever it is defined. */
  lemma {:induction false} EditSimilarityRange(a: string, b: string)
    ensures 0.0 <= EditSimilarityOf(a, b) <= 1.0
    ensures EditSimilarityOf(a, b) == 1.0 <==> a == b
    ensures EditSimilarityOf(a, b) == EditSimilarityOf(b, a)
    ensures (a != [] || b != []) ==>
      EditSimilarityOf(a, b) == Remaining(EditDistance.Distance(a, b), Max(|a|, |b|))
  {
    EditDistance.AtMostLonger(a, b);
    EditDistance.ZeroIffEqual(a, b);
    EditDistance.Symmetric(a, b);
    if a != [] || b != [] {
      RemainingRange(EditDistance.Distance(a, b), Max(|a|, |b|));
    }
  }

  // ---------- the scores as shares ----------

  /** Token F1 is the share of matched tokens in the two lists; of two lists without tokens it is 1. */
  lemma {:induction false} TokenShare(p: seq<string>, r: seq<string>)
    ensures p != [] || r != [] ==>
      TokenF1Of(p, r) == 2.0 * |multiset(p) * multiset(r)| as real / (|p| + |r|) as real
    ensures p == [] && r == [] ==> TokenF1Of(p, r) == 1.0
  {
    if p != [] && r != [] {
      HarmonicMeanIsShare(|multiset(p) * multiset(r)|, |p|, |r|);
    } else {
      assert multiset(p) * multiset(r) == multiset{};
    }
  }

  /** ROUGE-L is the share of tokens matched in order; of two lists without tokens it is 0. */
  lemma {:induction false} RougeShare(p: seq<string>, r: seq<string>)
    ensures p != [] || r != [] ==>
      RougeLOf(p, r) == 2.0 * CommonSubsequence.Lcs(p, r) as real / (|p| + |r|) as real
    ensures p == [] && r == [] ==> RougeLOf(p, r) == 0.0
  {
    if p != [] && r != [] {
      HarmonicMeanIsShare(CommonSubsequence.Lcs(p, r), |p|, |r|);
    }
  }

  /** Edit similarity, which is the remaining part, is the share of the longer text that the distance leaves. */
  lemma {:induction false} RemainingTimesAll(dist: nat, longest: nat)
    requires longest > 0
    ensures Remaining(dist, longest) * longest as real == longest as real - dist as real
  {
    var d, n := dist as real, longest as real;
    assert d / n * n == d;
    assert (1.0 - d / n) * n == n - d / n * n;
  }

  // ---------- evaluation over a batch ----------

  function Score(m: Metric, clean: Cleaner, prediction: string, reference: string): real
    requires m in ALL_METRICS
  {
    match m
    case F1 => TokenF1(clean, prediction, reference)
    case Em => ExactMatch(clean, prediction, reference)
    case RougeLMetric => RougeL(clean, prediction, reference)
    case EditSim => EditSimilarity(clean, prediction, reference)
  }

  /** The four metrics as one function; of any other nothing is ever collected. */
  function Scores(clean: Cleaner): Scorer {
    (m: Metric, prediction: string, reference: string) =>
      if m in ALL_METRICS then Score(m, clean, prediction, reference) else 0.0
  }

  /** One pair scored by the programs themselves. */
  method ScorePair(m: Metric, clean: Cleaner, prediction: string, reference: string) returns (score: real)
    requires m in ALL_METRICS
    ensures score == Score(m, clean, prediction, reference)
    ensures m == F1 ==> score == TokenF1(clean, prediction, reference)
    ensures m == Em ==> score == ExactMatch(clean, prediction, reference)
    ensures m == RougeLMetric ==> score == RougeL(clean, prediction, reference)
    ensures m == EditSim ==> score == EditSimilarity(clean, prediction, reference)
  {
    match m
    case F1 => score := TokenF1(clean, prediction, reference);
    case Em => score := ExactMatch(clean, prediction, reference);
    case RougeLMetric =>
      var p, r := Tokens(clean, prediction), Tokens(clean, reference);
      if p == [] || r == [] {
        score := 0.0;
      } else {
        var lcs := CommonSubsequence.LcsLength(p, r);
        score := HarmonicMean(lcs, |p|, |r|);
      }
    case EditSim =>
      var a, b := NormalizeAnswer(clean, prediction), NormalizeAnswer(clean, reference);
      if a == [] && b == [] {
        score := 1.0;
      } else if a == [] || b == [] {
        score := 0.0;
      } else {
        var dist := EditDistance.Levenshtein(a, b);
        score := Remaining(dist, Max(|a|, |b|));
      }
  }

  method Best(m: Metric, clean: Cleaner, prediction: string, refs: seq<string>) returns (best: real)
    requires m in ALL_METRICS
    requires refs != []
    ensures best == MaxOf(ScoresOver(m, Scores(clean), prediction, refs))
  {
    best := ScorePair(m, clean, prediction, refs[0]);
    assert Init(refs[..1]) == [];
    for k := 1 to |refs|
      invariant best == MaxOf(ScoresOver(m, Scores(clean), prediction, refs[..k]))
    {
      var s := ScorePair(m, clean, prediction, refs[k]);
      OneMoreScore(m, Scores(clean), prediction, refs, k);
      if s > best {
        best := s;
      }
    }
    assert refs[..|refs|] == refs;
  }

  /** One of the four appends made for a pair, when the metric was asked for. */
  method Tally(m: Metric, clean: Cleaner, prediction: string, refs: seq<string>, scores: map<Metric, seq<real>>)
    returns (after: map<Metric, seq<real>>)
    requires m in ALL_METRICS && refs != []
    ensures after == if m in scores then scores[m := scores[m] + Gain(m, Scores(clean), prediction, refs)] else scores
  {
    after := scores;
    if m in scores {
      var best := Best(m, clean, prediction, refs);
      after := scores[m := scores[m] + [best]];
    }
  }

  method TallyPair(clean: Cleaner, prediction: string, refs: seq<string>, scores: map<Metric, seq<real>>)
    returns (after: map<Metric, seq<real>>)
    requires refs != []
    ensures after.Keys == scores.Keys
    ensures forall m :: m in scores ==> after[m] == scores[m] + Gain(m, Scores(clean), prediction, refs)
  {
    ghost var gains := map m | m in ALL_METRICS :: Gain(m, Scores(clean), prediction, refs);
    var one := Tally(F1, clean, prediction, refs, scores);
    var two := Tally(Em, clean, prediction, refs, one);
    var three := Tally(RougeLMetric, clean, prediction, refs, two);
    after := Tally(EditSim, clean, prediction, refs, three);
    FourAppends(scores, one, two, three, after, gains);
  }

  method Evaluate(metrics: set<Metric>, clean: Cleaner, predictions: seq<string>, references: seq<string>)
    returns (result: Evaluation)
    ensures result == EvaluationOf(metrics, Scores(clean), predictions, references)
  {
    if |predictions| != |references| {
      return LengthMismatch;
    }
    var scores: map<Metric, seq<real>> := map m | m in metrics :: [];
    for k := 0 to |predictions|
      invariant CollectedAll(scores, metrics, Scores(clean), predictions, references, k)
    {
      ghost var before := scores;
      scores := TallyPair(clean, predictions[k], References(references[k]), scores);
      PairCollected(before, scores, metrics, Scores(clean), predictions, references, k);
    }
    ReportFromCollected(scores, metrics, Scores(clean), predictions, references);
    result := Means(map m | m in scores && scores[m] != [] :: Mean(scores[m]));
  }

  // ---------- order between the reported means ----------

  lemma {:induction false} PairOrders(clean: Cleaner)
    ensures NeverAbove(RougeLMetric, F1, Scores(clean))
    ensures NeverAbove(Em, F1, Scores(clean))
    ensures NeverAbove(Em, EditSim, Scores(clean))
  {
    forall p, r
      ensures RougeL(clean, p, r) <= TokenF1(clean, p, r)
      ensures ExactMatch(clean, p, r) <= TokenF1(clean, p, r)
      ensures ExactMatch(clean, p, r) <= EditSimilarity(clean, p, r)
    {
      var tp, tr := Tokens(clean, p), Tokens(clean, r);
      RougeLAtMostTokenF1(tp, tr);
      TokenF1Range(tp, tr);
      EditSimilarityRange(NormalizeAnswer(clean, p), NormalizeAnswer(clean, r));
    }
  }

  /** What the report of any batch satisfies, whatever the cleaning does. */
  lemma {:induction false} ReportOrder(metrics: set<Metric>, clean: Cleaner, predictions: seq<string>,
                                       references: seq<string>)
    requires |predictions| == |references| && predictions != []
    ensures
      var report := EvaluationOf(metrics, Scores(clean), predictions, references).scores;
      && report.Keys == metrics * ALL_METRICS
      && (RougeLMetric in report && F1 in report ==> report[RougeLMetric] <= report[F1])
      && (Em in report && F1 in report ==> report[Em] <= report[F1])
      && (Em in report && EditSim in report ==> report[Em] <= report[EditSim])
  {
    ReportedMetrics(metrics, Scores(clean), predictions, references);
    PairOrders(clean);
    OrderSurvivesEvaluation(RougeLMetric, F1, Scores(clean), predictions, references);
    OrderSurvivesEvaluation(Em, F1, Scores(clean), predictions, references);
    OrderSurvivesEvaluation(Em, EditSim, Scores(clean), predictions, references);
  }

  /** Exact match is below ROUGE-L as well, except on two texts without tokens: there ROUGE-L is 0. */
  lemma {:induction false} ExactMatchBelowRougeL(clean: Cleaner, p: string, r: string)
    ensures ExactMatch(clean, p, r) <= RougeL(clean, p, r) <==> !(Tokens(clean, p) == Tokens(clean, r) == [])
  {
    SameTextIffSameTokens(clean, p, r);
    RougeLRange(Tokens(clean, p), Tokens(clean, r));
  }

  /** Two empty texts: an exact match whose ROUGE-L is 0. */
  lemma {:induction false} EmptyTexts(clean: Cleaner)
    requires clean("") == ""
    ensures Tokens(clean, "") == []
    ensures ExactMatch(clean, "", "") == 1.0 && RougeL(clean, "", "") == 0.0
  {
    SameTextIffSameTokens(clean, "", "");
  }

  /** A single pair is a perfect edit match exactly when it is an exact match, and then its F1 is perfect too. */
  lemma {:induction false} PerfectPair(clean: Cleaner, p: string, r: string)
    ensures EditSimilarity(clean, p, r) == 1.0 <==> ExactMatch(clean, p, r) == 1.0
    ensures ExactMatch(clean, p, r) == 1.0 ==> TokenF1(clean, p, r) == 1.0
    ensures RougeL(clean, p, r) == 1.0 <==> ExactMatch(clean, p, r) == 1.0 && Tokens(clean, p) != []
  {
    SameTextIffSameTokens(clean, p, r);
    EditSimilarityRange(NormalizeAnswer(clean, p), NormalizeAnswer(clean, r));
    TokenF1Range(Tokens(clean, p), Tokens(clean, r));
    RougeLRange(Tokens(clean, p), Tokens(clean, r));
  }

  /** Every pair scores in [0, 1]. */
  lemma {:induction false} ScoreRange(m: Metric, clean: Cleaner, p: string, r: string)
    requires m in ALL_METRICS
    ensures 0.0 <= Score(m, clean, p, r) <= 1.0
  {
    TokenF1Range(Tokens(clean, p), Tokens(clean, r));
    RougeLRange(Tokens(clean, p), Tokens(clean, r));
    EditSimilarityRange(NormalizeAnswer(clean, p), NormalizeAnswer(clean, r));
  }

  /** Every reported mean lies in [0, 1]. */
  lemma {:induction false} ReportRange(metrics: set<Metric>, clean: Cleaner, predictions: seq<string>,
                                       references: seq<string>, m: Metric)
    requires |predictions| == |references| && predictions != []
    requires m in metrics * ALL_METRICS
    ensures
      var report := EvaluationOf(metrics, Scores(clean), predictions, references).scores;
      m in report && 0.0 <= report[m] <= 1.0
  {
    forall p, r
      ensures 0.0 <= Scores(clean)(m, p, r) <= 1.0
    {
      ScoreRange(m, clean, p, r);
    }
    ReportInUnit(metrics, Scores(clean), predictions, references, m);
  }
}
