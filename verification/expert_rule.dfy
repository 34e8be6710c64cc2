/** The per-sample expert-selection rule of the subspace ensemble. For one sample,
    each base model contributes the neighbours its ball tree returned, its own
    predicted label and its largest class probability; the rule measures each model's
    accuracy on those neighbours, keeps the models whose local accuracy beats the
    threshold, and answers with the first best-scoring one (or, when none qualifies,
    with the first model of highest local accuracy). */
module ExpertRule {
  import opened FirstMax

  /** What model `m` contributes for one sample: the calibration indices of its
      nearest neighbours, its predicted label and `max(predict_proba)`. */
  datatype ModelView = ModelView(neighbours: seq<nat>, predicted: int, proba: real)

  /** The blend weights `[w0, w1, w2, w3]`: confidence weight, local-accuracy weight,
      eligibility threshold and neighbour count. */
  datatype Blend = Blend(confidence: real, locality: real, threshold: real, k: int)

  /* ---------------- accuracy ---------------- */

  /** Number of positions where the two label sequences agree. */
  function Matches(a: seq<int>, b: seq<int>): (r: nat)
    requires |a| == |b|
    ensures r <= |a|
  {
    if a == [] then 0
    else Matches(a[..|a| - 1], b[..|b| - 1]) + (if a[|a| - 1] == b[|b| - 1] then 1 else 0)
  }

  /** `accuracy_score(truth, pred, normalize=True)`: the fraction of agreeing positions. */
  function Accuracy(truth: seq<int>, pred: seq<int>): (r: real)
    requires |truth| == |pred| > 0
    ensures 0.0 <= r <= 1.0
  {
    Matches(truth, pred) as real / |truth| as real
  }

  /** Every listed position is below `n`. */
  predicate InRange(idx: seq<nat>, n: nat)
  {
    forall i :: 0 <= i < |idx| ==> idx[i] < n
  }

  /** The entries of `s` at the positions listed in `idx`, in that order. */
  function Gather(s: seq<int>, idx: seq<nat>): (g: seq<int>)
    requires InRange(idx, |s|)
    ensures |g| == |idx|
  {
    seq(|idx|, i requires 0 <= i < |idx| => s[idx[i]])
  }

  /** A ball-tree answer over a calibration set of `N` samples: at least one neighbour,
      each a valid calibration index. */
  predicate ValidView(v: ModelView, N: nat)
  {
    |v.neighbours| > 0 && InRange(v.neighbours, N)
  }

  /** The stored calibration record: one prediction list per model, each as long as
      the true labels. */
  predicate Calibrated(predictions: seq<seq<int>>, truth: seq<int>)
  {
    |predictions| > 0 && forall m :: 0 <= m < |predictions| ==> |predictions[m]| == |truth|
  }

  predicate ValidViews(views: seq<ModelView>, predictions: seq<seq<int>>, truth: seq<int>)
  {
    && Calibrated(predictions, truth)
    && |views| == |predictions|
    && forall m :: 0 <= m < |views| ==> ValidView(views[m], |truth|)
  }

  /** Local accuracy of a model: its accuracy on its own neighbours of the sample. */
  function LocalAccuracy(v: ModelView, pred: seq<int>, truth: seq<int>): (a: real)
    requires |pred| == |truth| && ValidView(v, |truth|)
    ensures 0.0 <= a <= 1.0
  {
    Accuracy(Gather(truth, v.neighbours), Gather(pred, v.neighbours))
  }

  function Accuracies(views: seq<ModelView>, predictions: seq<seq<int>>, truth: seq<int>): (accs: seq<real>)
    requires ValidViews(views, predictions, truth)
    ensures |accs| == |views|
  {
    seq(|views|, m requires 0 <= m < |views| => LocalAccuracy(views[m], predictions[m], truth))
  }

  /* ---------------- selection ---------------- */

  /** An eligible model's combined score `w[1]*acc + w[0]*proba`: with non-negative
      weights, an accuracy and a probability in [0, 1] score between 0 and `w0 + w1`. */
  function Score(w: Blend, acc: real, proba: real): (r: real)
    ensures 0.0 <= w.locality && 0.0 <= w.confidence && 0.0 <= acc <= 1.0 && 0.0 <= proba <= 1.0 ==>
              0.0 <= r <= w.locality + w.confidence
  {
    ScoreBound(w.locality, acc, w.confidence, proba);
    w.locality * acc + w.confidence * proba
  }

  lemma ScoreBound(l: real, a: real, c: real, p: real)
    ensures 0.0 <= l && 0.0 <= c && 0.0 <= a <= 1.0 && 0.0 <= p <= 1.0 ==> 0.0 <= l * a + c * p <= l + c
  {
    if 0.0 <= l && 0.0 <= c && 0.0 <= a <= 1.0 && 0.0 <= p <= 1.0 {
      var x, y := l * a, c * p;
      assert 0.0 <= x <= l by { WeightedTerm(l, a); }
      assert 0.0 <= y <= c by { WeightedTerm(c, p); }
    }
  }

  /** A non-negative weight times a fraction in [0, 1] lies between 0 and the weight. */
  lemma WeightedTerm(c: real, x: real)
    ensures 0.0 <= c && 0.0 <= x <= 1.0 ==> 0.0 <= c * x <= c
  {
    if 0.0 <= c && 0.0 <= x <= 1.0 {
      assert c * x <= c * 1.0;
    }
  }

  /** The models whose local accuracy is strictly above the threshold, in model order. */
  function Experts(accs: seq<real>, threshold: real): (es: seq<nat>)
    ensures forall i :: 0 <= i < |es| ==> es[i] < |accs| && accs[es[i]] > threshold
  {
    if accs == [] then []
    else
      var init := Experts(accs[..|accs| - 1], threshold);
      init + (if accs[|accs| - 1] > threshold then [|accs| - 1] else [])
  }

  /** The eligible models are listed in increasing order and none is missing. */
  lemma {:induction false} ExpertsOrderedComplete(accs: seq<real>, threshold: real)
    ensures var es := Experts(accs, threshold);
            && (forall i, j :: 0 <= i < j < |es| ==> es[i] < es[j])
            && (forall m :: 0 <= m < |accs| && accs[m] > threshold ==> m in es)
  {
    if accs != [] {
      var init := accs[..|accs| - 1];
      ExpertsOrderedComplete(init, threshold);
      var es := Experts(accs, threshold);
      forall m | 0 <= m < |accs| && accs[m] > threshold
        ensures m in es
      {
        if m < |init| {
          assert init[m] == accs[m];
          assert m in Experts(init, threshold);
        }
      }
    }
  }

  /** Appending one accuracy appends its index exactly when it beats the threshold. */
  lemma ExtendExperts(accs: seq<real>, a: real, threshold: real)
    ensures Experts(accs + [a], threshold) ==
            Experts(accs, threshold) + (if a > threshold then [|accs|] else [])
  {
    assert (accs + [a])[..|accs|] == accs;
  }

  function ExpertScores(views: seq<ModelView>, accs: seq<real>, es: seq<nat>, w: Blend): (sc: seq<real>)
    requires |accs| == |views|
    requires forall i :: 0 <= i < |es| ==> es[i] < |accs|
    ensures |sc| == |es|
  {
    seq(|es|, i requires 0 <= i < |es| => Score(w, accs[es[i]], views[es[i]].proba))
  }

  /** The model whose prediction is returned. */
  function Chosen(views: seq<ModelView>, predictions: seq<seq<int>>, truth: seq<int>, w: Blend): (e: nat)
    requires ValidViews(views, predictions, truth)
    ensures e < |views|
  {
    var accs := Accuracies(views, predictions, truth);
    var es := Experts(accs, w.threshold);
    if |es| > 0 then es[ArgMax(ExpertScores(views, accs, es, w))]
    else ArgMax(accs)
  }

  /** The label the rule returns for one sample: always some model's own prediction. */
  function Decide(views: seq<ModelView>, predictions: seq<seq<int>>, truth: seq<int>, w: Blend): (answer: int)
    requires ValidViews(views, predictions, truth)
    ensures exists m :: 0 <= m < |views| && answer == views[m].predicted
  {
    views[Chosen(views, predictions, truth, w)].predicted
  }

  /** The first best-scoring entry of the eligible list is an eligible model whose
      score no eligible model beats, and that every earlier eligible model scores
      strictly below. */
  lemma BestExpert(accs: seq<real>, scores: seq<real>, threshold: real, sc: seq<real>, i: nat)
    requires |scores| == |accs|
    requires |sc| == |Experts(accs, threshold)|
    requires forall t :: 0 <= t < |sc| ==> sc[t] == scores[Experts(accs, threshold)[t]]
    requires IsFirstMax(sc, i)
    ensures var e := Experts(accs, threshold)[i];
            && accs[e] > threshold
            && (forall j :: 0 <= j < |accs| && accs[j] > threshold ==> scores[j] <= scores[e])
            && (forall j :: 0 <= j < e && accs[j] > threshold ==> scores[j] < scores[e])
  {
    var es := Experts(accs, threshold);
    ExpertsOrderedComplete(accs, threshold);
    forall j | 0 <= j < |accs| && accs[j] > threshold
      ensures scores[j] <= scores[es[i]]
      ensures j < es[i] ==> scores[j] < scores[es[i]]
    {
      var t :| 0 <= t < |es| && es[t] == j;
      assert sc[t] <= sc[i];
      assert t != i && (t > i ==> es[i] < es[t]) ==> (j < es[i] ==> t < i);
    }
  }

  /** Every model's combined score, eligible or not. */
  function Scores(views: seq<ModelView>, accs: seq<real>, w: Blend): (sc: seq<real>)
    requires |accs| == |views|
    ensures |sc| == |views|
  {
    seq(|views|, j requires 0 <= j < |views| => Score(w, accs[j], views[j].proba))
  }

  /** The selection rule when some model is eligible, stated without the intermediate
      lists: the chosen model is eligible, no eligible model scores higher, and every
      eligible model before it scores strictly lower. */
  lemma ExpertSelection(views: seq<ModelView>, predictions: seq<seq<int>>, truth: seq<int>, w: Blend)
    requires ValidViews(views, predictions, truth)
    requires exists j :: 0 <= j < |views| && Accuracies(views, predictions, truth)[j] > w.threshold
    ensures var accs := Accuracies(views, predictions, truth);
            var sc := Scores(views, accs, w);
            var e := Chosen(views, predictions, truth, w);
            && accs[e] > w.threshold
            && (forall j :: 0 <= j < |accs| && accs[j] > w.threshold ==> sc[j] <= sc[e])
            && (forall j :: 0 <= j < e && accs[j] > w.threshold ==> sc[j] < sc[e])
  {
    var accs := Accuracies(views, predictions, truth);
    var es := Experts(accs, w.threshold);
    var j0 :| 0 <= j0 < |views| && accs[j0] > w.threshold;
    ExpertsOrderedComplete(accs, w.threshold);
    assert j0 in es;
    var sc := ExpertScores(views, accs, es, w);
    var scores := Scores(views, accs, w);
    ExpertScoresAreScores(views, accs, es, w);
    var i := ArgMax(sc);
    BestExpert(accs, scores, w.threshold, sc, i);
    assert Chosen(views, predictions, truth, w) == es[i];
  }

  /** The score list of the eligible models reads the full score list at their indices. */
  lemma ExpertScoresAreScores(views: seq<ModelView>, accs: seq<real>, es: seq<nat>, w: Blend)
    requires |accs| == |views|
    requires forall i :: 0 <= i < |es| ==> es[i] < |accs|
    ensures forall t :: 0 <= t < |es| ==> ExpertScores(views, accs, es, w)[t] == Scores(views, accs, w)[es[t]]
  {
  }

  /** The selection rule when no model is eligible: the first model of highest local
      accuracy. */
  lemma FallbackSelection(views: seq<ModelView>, predictions: seq<seq<int>>, truth: seq<int>, w: Blend)
    requires ValidViews(views, predictions, truth)
    requires forall j :: 0 <= j < |views| ==> Accuracies(views, predictions, truth)[j] <= w.threshold
    ensures Experts(Accuracies(views, predictions, truth), w.threshold) == []
    ensures IsFirstMax(Accuracies(views, predictions, truth), Chosen(views, predictions, truth, w))
  {
    NoExperts(Accuracies(views, predictions, truth), w.threshold);
  }

  lemma {:induction false} NoExperts(accs: seq<real>, threshold: real)
    requires forall m :: 0 <= m < |accs| ==> accs[m] <= threshold
    ensures Experts(accs, threshold) == []
  {
    if accs != [] {
      NoExperts(accs[..|accs| - 1], threshold);
    }
  }

  /** A threshold of 1 or more admits no model (local accuracy never exceeds 1), so
      the rule always falls back to the first model of highest local accuracy. */
  lemma HighThresholdFallsBack(views: seq<ModelView>, predictions: seq<seq<int>>, truth: seq<int>, w: Blend)
    requires ValidViews(views, predictions, truth)
    requires w.threshold >= 1.0
    ensures Experts(Accuracies(views, predictions, truth), w.threshold) == []
    ensures Decide(views, predictions, truth, w) == views[ArgMax(Accuracies(views, predictions, truth))].predicted
  {
    var accs := Accuracies(views, predictions, truth);
    assert forall m :: 0 <= m < |accs| ==> accs[m] <= 1.0;
    FallbackSelection(views, predictions, truth, w);
  }

  /* ---------------- local versus global accuracy ---------------- */

  /** Number of listed calibration indices where the model agrees with the truth. */
  function AgreeCount(idx: seq<nat>, pred: seq<int>, truth: seq<int>): nat
    requires |pred| == |truth|
    requires InRange(idx, |truth|)
  {
    if idx == [] then 0
    else
      var t := idx[|idx| - 1];
      AgreeCount(idx[..|idx| - 1], pred, truth) + (if truth[t] == pred[t] then 1 else 0)
  }

  lemma {:induction false} MatchesGather(idx: seq<nat>, pred: seq<int>, truth: seq<int>)
    requires |pred| == |truth|
    requires InRange(idx, |truth|)
    ensures Matches(Gather(truth, idx), Gather(pred, idx)) == AgreeCount(idx, pred, truth)
  {
    if idx != [] {
      var init := idx[..|idx| - 1];
      MatchesGather(init, pred, truth);
      assert Gather(truth, idx)[..|idx| - 1] == Gather(truth, init);
      assert Gather(pred, idx)[..|idx| - 1] == Gather(pred, init);
    }
  }

  /** Taking out the entry at position `p` takes out exactly its own contribution. */
  lemma {:induction false} AgreeCountRemove(b: seq<nat>, p: nat, pred: seq<int>, truth: seq<int>)
    requires |pred| == |truth| && InRange(b, |truth|) && p < |b|
    ensures InRange(b[..p] + b[p + 1..], |truth|)
    ensures AgreeCount(b, pred, truth) ==
            AgreeCount(b[..p] + b[p + 1..], pred, truth) + (if truth[b[p]] == pred[b[p]] then 1 else 0)
    decreases |b|
  {
    var r := b[..p] + b[p + 1..];
    assert InRange(r, |truth|) by {
      forall i | 0 <= i < |r| ensures r[i] < |truth| {
        if i < p { assert r[i] == b[i]; } else { assert r[i] == b[i + 1]; }
      }
    }
    if p < |b| - 1 {
      var init := b[..|b| - 1];
      AgreeCountRemove(init, p, pred, truth);
      assert r[..|r| - 1] == init[..p] + init[p + 1..];
      assert r[|r| - 1] == b[|b| - 1];
    } else {
      assert r == b[..|b| - 1];
    }
  }

  lemma {:induction false} AgreeCountPermutation(a: seq<nat>, b: seq<nat>, pred: seq<int>, truth: seq<int>)
    requires |pred| == |truth|
    requires InRange(a, |truth|)
    requires multiset(a) == multiset(b)
    ensures InRange(b, |truth|)
    ensures AgreeCount(a, pred, truth) == AgreeCount(b, pred, truth)
    decreases |a|
  {
    forall i | 0 <= i < |b|
      ensures b[i] < |truth|
    {
      assert b[i] in multiset(a);
    }
    if a == [] {
      assert |b| == |multiset(b)| == 0;
    } else {
      var x := a[|a| - 1];
      var a' := a[..|a| - 1];
      MultisetRemove(a, |a| - 1);
      assert a[..|a| - 1] + a[|a|..] == a';
      assert x in multiset(b);
      var p :| 0 <= p < |b| && b[p] == x;
      var b' := b[..p] + b[p + 1..];
      MultisetRemove(b, p);
      AgreeCountPermutation(a', b', pred, truth);
      AgreeCountRemove(b, p, pred, truth);
    }
  }

  lemma MultisetRemove(b: seq<nat>, p: nat)
    requires p < |b|
    ensures multiset(b[..p] + b[p + 1..]) == multiset(b) - multiset{b[p]}
  {
    assert b == b[..p] + [b[p]] + b[p + 1..];
    calc {
      multiset(b);
      multiset(b[..p]) + multiset{b[p]} + multiset(b[p + 1..]);
      multiset(b[..p] + b[p + 1..]) + multiset{b[p]};
    }
  }

  function Range(n: nat): (r: seq<nat>)
    ensures |r| == n
  {
    seq(n, i requires 0 <= i < n => i)
  }

  /** When a model's neighbours are the whole calibration set (k equal to its size,
      in whatever order the tree returns them), its local accuracy is its global
      calibration accuracy. */
  lemma FullNeighbourhoodIsGlobalAccuracy(v: ModelView, pred: seq<int>, truth: seq<int>)
    requires |pred| == |truth| && ValidView(v, |truth|)
    requires multiset(v.neighbours) == multiset(Range(|truth|))
    ensures |truth| > 0 && LocalAccuracy(v, pred, truth) == Accuracy(truth, pred)
  {
    var N := |truth|;
    assert |v.neighbours| == |multiset(v.neighbours)| == |multiset(Range(N))| == N;
    MatchesGather(v.neighbours, pred, truth);
    MatchesGather(Range(N), pred, truth);
    AgreeCountPermutation(v.neighbours, Range(N), pred, truth);
    assert Gather(truth, Range(N)) == truth;
    assert Gather(pred, Range(N)) == pred;
  }
}
