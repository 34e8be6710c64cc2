/** The subspace ensemble: at fit time it stores every model's calibration
    predictions next to the true labels and tunes the blend weights by a two-stage
    random search; at prediction time it applies the expert-selection rule to each
    sample with the tuned weights. */
module SubSpace {
  import opened Outcomes
  import opened FirstMax
  import opened ExpertRule

  /* ---------------- the random search, as values ---------------- */

  /** A multiple of 0.001: what `round(x, 3)` leaves. */
  predicate OnGrid(x: real)
  {
    (x * 1000.0).Floor as real == x * 1000.0
  }

  /** `round(x, 3)` on exact reals (halves round up): the nearest multiple of 0.001,
      which leaves a multiple of 0.001 as it is. */
  function Round3(x: real): (r: real)
    ensures OnGrid(r)
    ensures x - 0.0005 < r <= x + 0.0005
    ensures OnGrid(x) ==> r == x
  {
    var n := (x * 1000.0 + 0.5).Floor;
    RoundedOnGrid(x, n);
    n as real / 1000.0
  }

  lemma RoundedOnGrid(x: real, n: int)
    requires n == (x * 1000.0 + 0.5).Floor
    ensures OnGrid(n as real / 1000.0)
    ensures x - 0.0005 < n as real / 1000.0 <= x + 0.0005
    ensures OnGrid(x) ==> n as real / 1000.0 == x
  {
    assert n as real <= x * 1000.0 + 0.5 < n as real + 1.0;
    var r := n as real / 1000.0;
    assert r * 1000.0 == n as real;
    assert (n as real).Floor == n;
    if OnGrid(x) {
      var m := (x * 1000.0).Floor;
      assert x * 1000.0 + 0.5 == m as real + 0.5;
      assert n == m;
    }
  }

  /** Rounding never leaves an interval whose ends are multiples of 0.001. */
  lemma RoundWithin(lo: real, hi: real, x: real)
    requires OnGrid(lo) && OnGrid(hi)
    ensures lo <= x <= hi ==> lo <= Round3(x) <= hi
  {
    if lo <= x <= hi {
      var a, b := (lo * 1000.0).Floor, (hi * 1000.0).Floor;
      var n := (x * 1000.0 + 0.5).Floor;
      assert a as real <= x * 1000.0 + 0.5 < b as real + 1.0;
      assert a <= n <= b;
      assert Round3(x) == n as real / 1000.0;
    }
  }

  /** Sums and differences of multiples of 0.001 are multiples of 0.001. */
  lemma GridSum(x: real, y: real)
    ensures OnGrid(x) && OnGrid(y) ==> OnGrid(x + y) && OnGrid(x - y)
  {
    if OnGrid(x) && OnGrid(y) {
      var a, b := (x * 1000.0).Floor, (y * 1000.0).Floor;
      assert (x + y) * 1000.0 == x * 1000.0 + y * 1000.0;
      assert (x - y) * 1000.0 == x * 1000.0 - y * 1000.0;
      assert ((a + b) as real).Floor == a + b;
      assert ((a - b) as real).Floor == a - b;
    }
  }

  /** `random.uniform(a, b)` given the underlying draw `u` of `random.random()`:
      a point of [a, b]. */
  function Uniform(a: real, b: real, u: real): (r: real)
    ensures a <= b && 0.0 <= u <= 1.0 ==> a <= r <= b
  {
    WeightedTerm(b - a, u);
    a + (b - a) * u
  }

  /** `int(x)`: truncation toward zero. */
  function Trunc(x: real): (r: int)
    ensures x >= 0.0 ==> 0 <= r && r as real <= x < r as real + 1.0
    ensures x < 0.0 ==> r <= 0 && r as real - 1.0 < x <= r as real
  {
    if x >= 0.0 then x.Floor else -((-x).Floor)
  }

  /** A blend as the search writes it: `w1 = round(1 - w0, 3)` makes `w0 + w1 = 1`,
      and each rounded entry is a multiple of 0.001. */
  predicate Normalised(b: Blend)
  {
    b.confidence + b.locality == 1.0 && OnGrid(b.confidence) && OnGrid(b.locality) && OnGrid(b.threshold)
  }

  /** Stage-1 trial `i` (draws `2i`, `2i+1`): a fresh list `[w0, 1 - w0, w2, 6]` with
      `w0` from [0, 1] and `w2` from [0.2, 0.8]. */
  function Stage1Candidate(rand: nat -> real, i: nat): (c: Blend)
    ensures c.k == 6 && Normalised(c)
    ensures 0.0 <= rand(2 * i) <= 1.0 ==> 0.0 <= c.confidence <= 1.0
    ensures 0.0 <= rand(2 * i + 1) <= 1.0 ==> 0.2 <= c.threshold <= 0.8
  {
    var w0 := Round3(rand(2 * i));
    RoundWithin(0.0, 1.0, rand(2 * i));
    GridSum(1.0, w0);
    RoundWithin(0.2, 0.8, Uniform(0.2, 0.8, rand(2 * i + 1)));
    Blend(w0, Round3(1.0 - w0), Round3(Uniform(0.2, 0.8, rand(2 * i + 1))), 6)
  }

  /** One stage-2 trial applied to the list it mutates: `w0` moves by at most 0.1,
      `w1` follows, and `w2` is drawn between the old `w2 - 0.1` and the NEW `w1 + 0.1`. */
  function Stage2Step(w: Blend, u0: real, u1: real): (r: Blend)
    ensures r.k == w.k && Normalised(r)
  {
    var w0 := Round3(Uniform(w.confidence - 0.1, w.confidence + 0.1, u0));
    GridSum(1.0, w0);
    var w1 := Round3(1.0 - w0);
    Blend(w0, w1, Round3(Uniform(w.threshold - 0.1, w1 + 0.1, u1)), w.k)
  }

  /** With draws in [0, 1], a stage-2 trial moves `w0` by at most 0.1, and its `w2`
      lies between the old `w2 - 0.1` and the new `w1 + 0.1` (when that range is
      not empty): the bound the aliasing produces. */
  lemma Stage2StepBounds(w: Blend, u0: real, u1: real)
    requires OnGrid(w.confidence)
    requires 0.0 <= u0 <= 1.0 && 0.0 <= u1 <= 1.0
    ensures var r := Stage2Step(w, u0, u1);
            && w.confidence - 0.1 <= r.confidence <= w.confidence + 0.1
            && (OnGrid(w.threshold) && w.threshold - 0.1 <= r.locality + 0.1 ==>
                  w.threshold - 0.1 <= r.threshold <= r.locality + 0.1)
  {
    var r := Stage2Step(w, u0, u1);
    var lo, hi := w.confidence - 0.1, w.confidence + 0.1;
    GridSum(w.confidence, 0.1);
    assert OnGrid(lo) && OnGrid(hi);
    RoundWithin(lo, hi, Uniform(lo, hi, u0));
    if OnGrid(w.threshold) {
      var lo2, hi2 := w.threshold - 0.1, r.locality + 0.1;
      GridSum(w.threshold, 0.1);
      GridSum(r.locality, 0.1);
      assert OnGrid(lo2) && OnGrid(hi2);
      RoundWithin(lo2, hi2, Uniform(lo2, hi2, u1));
    }
  }

  /** The list after `n` stage-2 trials, the first reading draws `from`, `from+1`. */
  function Walk(start: Blend, rand: nat -> real, from: nat, n: nat): (r: Blend)
    ensures (n > 0 || Normalised(start)) ==> Normalised(r)
  {
    if n == 0 then start
    else
      var prev := Walk(start, rand, from, n - 1);
      Stage2Step(prev, rand(from + 2 * (n - 1)), rand(from + 2 * (n - 1) + 1))
  }

  /** With draws in [0, 1], `w0` ends within `0.1 * n` of where the walk started. */
  lemma {:induction false} WalkStaysNear(start: Blend, rand: nat -> real, from: nat, n: nat)
    requires OnGrid(start.confidence)
    requires forall j :: from <= j < from + 2 * n ==> 0.0 <= rand(j) <= 1.0
    ensures start.confidence - 0.1 * n as real <= Walk(start, rand, from, n).confidence
                                                 <= start.confidence + 0.1 * n as real
  {
    if n > 0 {
      WalkStaysNear(start, rand, from, n - 1);
      var prev := Walk(start, rand, from, n - 1);
      var u0, u1 := rand(from + 2 * (n - 1)), rand(from + 2 * (n - 1) + 1);
      assert 0.0 <= u0 <= 1.0 && 0.0 <= u1 <= 1.0;
      Stage2StepBounds(prev, u0, u1);
    }
  }

  /** The calibration set as the search sees it: per sample, one view per model. */
  predicate ValidCalibration(cv: seq<seq<ModelView>>, predictions: seq<seq<int>>, truth: seq<int>)
  {
    |cv| == |truth| > 0 && forall s :: 0 <= s < |cv| ==> ValidViews(cv[s], predictions, truth)
  }

  /** Accuracy on the calibration set of the rule run with blend `w`. */
  function CalibrationAccuracy(cv: seq<seq<ModelView>>, predictions: seq<seq<int>>, truth: seq<int>, w: Blend): real
    requires ValidCalibration(cv, predictions, truth)
  {
    Accuracy(truth, seq(|cv|, s requires 0 <= s < |cv| => Decide(cv[s], predictions, truth, w)))
  }

  function Stage1Accuracies(cv: seq<seq<ModelView>>, predictions: seq<seq<int>>, truth: seq<int>,
                            rand: nat -> real, n1: nat): (accs: seq<real>)
    requires ValidCalibration(cv, predictions, truth)
    ensures |accs| == n1
  {
    seq(n1, i requires 0 <= i < n1 => CalibrationAccuracy(cv, predictions, truth, Stage1Candidate(rand, i)))
  }

  /** The most accurate stage-1 candidate (first on ties). */
  function Stage1Best(cv: seq<seq<ModelView>>, predictions: seq<seq<int>>, truth: seq<int>,
                      rand: nat -> real, n1: nat): Blend
    requires ValidCalibration(cv, predictions, truth) && n1 > 0
  {
    Stage1Candidate(rand, ArgMax(Stage1Accuracies(cv, predictions, truth, rand, n1)))
  }

  /** The weights the search leaves behind: every stage-2 trial mutates the same list
      (the stage-1 winner), so whichever entry `index(max(acc))` picks, it is that list
      in its final state: the last stage-2 candidate. */
  function SearchResult(cv: seq<seq<ModelView>>, predictions: seq<seq<int>>, truth: seq<int>,
                        rand: nat -> real, n1: nat, n2: nat): (r: Blend)
    requires ValidCalibration(cv, predictions, truth) && n1 > 0
    ensures Normalised(r)
  {
    Walk(Stage1Best(cv, predictions, truth, rand, n1), rand, 2 * n1, n2)
  }

  /** `candidates[j]` is stage-1 trial `j` and `accs[j]` its calibration accuracy. */
  ghost predicate Stage1Record(cv: seq<seq<ModelView>>, predictions: seq<seq<int>>, truth: seq<int>,
                               rand: nat -> real, candidates: seq<Blend>, accs: seq<real>)
  {
    && ValidCalibration(cv, predictions, truth)
    && |candidates| == |accs|
    && (forall j :: 0 <= j < |candidates| ==> candidates[j] == Stage1Candidate(rand, j))
    && (forall j :: 0 <= j < |accs| ==> accs[j] == CalibrationAccuracy(cv, predictions, truth, Stage1Candidate(rand, j)))
  }

  lemma Stage1RecordExtend(cv: seq<seq<ModelView>>, predictions: seq<seq<int>>, truth: seq<int>,
                           rand: nat -> real, candidates: seq<Blend>, accs: seq<real>, a: real)
    requires ValidCalibration(cv, predictions, truth)
    requires Stage1Record(cv, predictions, truth, rand, candidates, accs)
    requires a == CalibrationAccuracy(cv, predictions, truth, Stage1Candidate(rand, |accs|))
    ensures Stage1Record(cv, predictions, truth, rand, candidates + [Stage1Candidate(rand, |accs|)], accs + [a])
  {
  }

  /** The recorded stage-1 accuracies are the stage-1 accuracy list, so the list
      `index(max(acc))` picks is the first most accurate candidate. */
  lemma {:induction false} Stage1RecordBest(cv: seq<seq<ModelView>>, predictions: seq<seq<int>>, truth: seq<int>,
                                            rand: nat -> real, candidates: seq<Blend>, accs: seq<real>)
    requires ValidCalibration(cv, predictions, truth) && |accs| > 0
    requires Stage1Record(cv, predictions, truth, rand, candidates, accs)
    ensures accs == Stage1Accuracies(cv, predictions, truth, rand, |accs|)
    ensures candidates[ArgMax(accs)] == Stage1Best(cv, predictions, truth, rand, |accs|)
  {
    assert accs == Stage1Accuracies(cv, predictions, truth, rand, |accs|);
  }

  lemma WalkStep(start: Blend, rand: nat -> real, from: nat, n: nat)
    ensures Walk(start, rand, from, n + 1) == Stage2Step(Walk(start, rand, from, n), rand(from + 2 * n), rand(from + 2 * n + 1))
  {
  }

  /** `accs[j]` is the calibration accuracy of the list after `j + 1` stage-2 trials. */
  ghost predicate Stage2Record(cv: seq<seq<ModelView>>, predictions: seq<seq<int>>, truth: seq<int>,
                               start: Blend, rand: nat -> real, from: nat, accs: seq<real>)
  {
    && ValidCalibration(cv, predictions, truth)
    && forall j :: 0 <= j < |accs| ==> accs[j] == CalibrationAccuracy(cv, predictions, truth, Walk(start, rand, from, j + 1))
  }

  lemma Stage2RecordExtend(cv: seq<seq<ModelView>>, predictions: seq<seq<int>>, truth: seq<int>,
                           start: Blend, rand: nat -> real, from: nat, accs: seq<real>, b: Blend, a: real)
    requires ValidCalibration(cv, predictions, truth)
    requires Stage2Record(cv, predictions, truth, start, rand, from, accs)
    requires b == Walk(start, rand, from, |accs| + 1)
    requires a == CalibrationAccuracy(cv, predictions, truth, b)
    ensures Stage2Record(cv, predictions, truth, start, rand, from, accs + [a])
  {
  }

  /** The search never touches the neighbour count `w[3]`. */
  lemma {:induction false} WalkKeepsNeighbourCount(start: Blend, rand: nat -> real, from: nat, n: nat)
    ensures Walk(start, rand, from, n).k == start.k
  {
    if n > 0 {
      WalkKeepsNeighbourCount(start, rand, from, n - 1);
    }
  }

  /** Whatever the draws, the tuned weights keep the neighbour count 6 of every
      stage-1 list. */
  lemma SearchKeepsNeighbourCount(cv: seq<seq<ModelView>>, predictions: seq<seq<int>>, truth: seq<int>,
                                  rand: nat -> real, n1: nat, n2: nat)
    requires ValidCalibration(cv, predictions, truth) && n1 > 0
    ensures SearchResult(cv, predictions, truth, rand, n1, n2).k == 6
  {
    WalkKeepsNeighbourCount(Stage1Best(cv, predictions, truth, rand, n1), rand, 2 * n1, n2);
  }

  /* ---------------- the pass of `expert_fit_decision` ---------------- */

  /** After the pass has seen the models `0 .. |acc|-1`: `acc` holds their local
      accuracies, `experts` the eligible ones, with their scores and predictions. */
  ghost predicate SurveyRecord(views: seq<ModelView>, accs: seq<real>, w: Blend, acc: seq<real>,
                               experts: seq<nat>, expertScores: seq<real>, samplePredictions: seq<int>)
    requires |accs| == |views|
  {
    && |acc| <= |accs| && acc == accs[..|acc|]
    && experts == Experts(acc, w.threshold)
    && |expertScores| == |experts| && |samplePredictions| == |experts|
    && (forall i :: 0 <= i < |experts| ==> expertScores[i] == Score(w, accs[experts[i]], views[experts[i]].proba))
    && (forall i :: 0 <= i < |experts| ==> samplePredictions[i] == views[experts[i]].predicted)
  }

  lemma SurveyExtend(views: seq<ModelView>, accs: seq<real>, w: Blend, acc: seq<real>,
                     experts: seq<nat>, expertScores: seq<real>, samplePredictions: seq<int>)
    requires |accs| == |views|
    requires SurveyRecord(views, accs, w, acc, experts, expertScores, samplePredictions)
    requires |acc| < |accs|
    ensures var m, a := |acc|, accs[|acc|];
            if a > w.threshold then
              SurveyRecord(views, accs, w, acc + [a], experts + [m], expertScores + [Score(w, a, views[m].proba)],
                           samplePredictions + [views[m].predicted])
            else
              SurveyRecord(views, accs, w, acc + [a], experts, expertScores, samplePredictions)
  {
    var a := accs[|acc|];
    ExtendExperts(acc, a, w.threshold);
    assert accs[..|acc| + 1] == acc + [a];
  }

  lemma SurveyComplete(views: seq<ModelView>, accs: seq<real>, w: Blend, acc: seq<real>,
                       experts: seq<nat>, expertScores: seq<real>, samplePredictions: seq<int>)
    requires |accs| == |views|
    requires SurveyRecord(views, accs, w, acc, experts, expertScores, samplePredictions)
    requires |acc| == |accs|
    ensures acc == accs
    ensures experts == Experts(accs, w.threshold)
    ensures expertScores == ExpertScores(views, accs, experts, w)
    ensures |samplePredictions| == |experts|
    ensures forall i :: 0 <= i < |experts| ==> samplePredictions[i] == views[experts[i]].predicted
  {
    assert accs[..|acc|] == accs;
  }

  /* ---------------- mutable state ---------------- */

  /** A blend-weight list `[w0, w1, w2, w3]` that the search mutates in place. */
  class BlendWeights {
    var w0: real
    var w1: real
    var w2: real
    var w3: int

    constructor (b: Blend)
      ensures Value() == b
    {
      w0, w1, w2, w3 := b.confidence, b.locality, b.threshold, b.k;
    }

    function Value(): Blend
      reads this
    {
      Blend(w0, w1, w2, w3)
    }
  }

  /** The body of a stage-2 trial: `tmp_w2 = tmp_w` names the same list, so the draw
      for `w2` reads the old `tmp_w[2]` and the freshly written `tmp_w[1]`. */
  method Stage2Trial(tmp: BlendWeights, tmp2: BlendWeights, u0: real, u1: real)
    requires tmp2 == tmp
    modifies tmp
    ensures tmp.Value() == Stage2Step(old(tmp.Value()), u0, u1)
  {
    tmp2.w0 := Round3(Uniform(tmp.w0 - 0.1, tmp.w0 + 0.1, u0));
    tmp2.w1 := Round3(1.0 - tmp2.w0);
    tmp2.w2 := Round3(Uniform(tmp.w2 - 0.1, tmp.w1 + 0.1, u1));
  }

  /** A stage-2 trial moves the list one step further along its walk; `w[3]` stays. */
  method Stage2Advance(tmp: BlendWeights, ghost start: Blend, rand: nat -> real, from: nat, i: nat)
    returns (tmp2: BlendWeights)
    requires tmp.Value() == Walk(start, rand, from, i)
    modifies tmp
    ensures tmp2 == tmp
    ensures tmp.Value() == Walk(start, rand, from, i + 1) && tmp.Value().k == start.k
  {
    tmp2 := tmp;
    Stage2Trial(tmp, tmp2, rand(from + 2 * i), rand(from + 2 * i + 1));
    WalkStep(start, rand, from, i);
    WalkKeepsNeighbourCount(start, rand, from, i + 1);
  }

  class SubSpaceEnsemble {
    /** Number of base models (the keys of `models`, in iteration order). */
    const numModels: nat
    const cvScores: seq<real>
    var k: int
    var weights: Blend
    const nRand: int
    const randSplit: real
    /** `predictions[m]`: model `m`'s predictions over the calibration samples. */
    var predictions: seq<seq<int>>
    var truth: seq<int>
    /** How many ball trees have been built (`fit` appends one per model). */
    var trees: nat

    ghost predicate Valid()
      reads this`trees, this`predictions, this`truth
    {
      && numModels > 0 && |cvScores| > 0
      && (trees == 0 ==> predictions == [] && truth == [])
      && (trees > 0 ==> |predictions| == numModels && |truth| > 0 && Calibrated(predictions, truth))
    }

    constructor (numModels: nat, cvScores: seq<real>, k: int, weights: Blend, nRand: int, randSplit: real)
      requires numModels > 0 && |cvScores| > 0
      ensures Valid()
      ensures this.numModels == numModels && this.cvScores == cvScores && this.k == k
      ensures this.weights == weights && this.nRand == nRand && this.randSplit == randSplit
      ensures trees == 0
    {
      this.numModels, this.cvScores, this.k, this.weights := numModels, cvScores, k, weights;
      this.nRand, this.randSplit := nRand, randSplit;
      predictions, truth, trees := [], [], 0;
    }

    /** `__init__`: refuses an empty `models` or `cv_scores`. */
    static method Create(numModels: nat, cvScores: seq<real>, k: int, weights: Blend, nRand: int, randSplit: real)
      returns (r: Result<SubSpaceEnsemble>)
      ensures r.Failure? <==> numModels == 0 || |cvScores| == 0
      ensures r.Failure? ==> r.error == InvalidArgument
      ensures r.Success? ==> fresh(r.value) && r.value.Valid() && r.value.trees == 0
      ensures r.Success? ==> r.value.numModels == numModels && r.value.k == k && r.value.weights == weights
      ensures r.Success? ==> r.value.nRand == nRand && r.value.randSplit == randSplit
    {
      if numModels == 0 || |cvScores| == 0 {
        return Failure(InvalidArgument);
      }
      var e := new SubSpaceEnsemble(numModels, cvScores, k, weights, nRand, randSplit);
      return Success(e);
    }

    /** The neighbour lists of one model for one sample and the accuracy on them
        (the inner loop of `expert_fit_decision`). */
    method NeighbourAccuracy(v: ModelView, pred: seq<int>) returns (a: real)
      requires |pred| == |truth| && ValidView(v, |truth|)
      ensures a == LocalAccuracy(v, pred, truth)
    {
      var neighPred: seq<int> := [];
      var neighTrue: seq<int> := [];
      var t := 0;
      while t < |v.neighbours|
        invariant 0 <= t <= |v.neighbours|
        invariant neighPred == Gather(pred, v.neighbours[..t])
        invariant neighTrue == Gather(truth, v.neighbours[..t])
      {
        var n := v.neighbours[t];
        neighPred := neighPred + [pred[n]];
        neighTrue := neighTrue + [truth[n]];
        t := t + 1;
      }
      assert v.neighbours[..t] == v.neighbours;
      a := Accuracy(neighTrue, neighPred);
    }

    /** The pass of `expert_fit_decision` over the models: every local accuracy, the
        eligible models in order, their scores and their predictions. */
    method SurveyModels(view: seq<ModelView>, w: Blend)
      returns (acc: seq<real>, experts: seq<nat>, expertScores: seq<real>, samplePredictions: seq<int>)
      requires ValidViews(view, predictions, truth)
      ensures acc == Accuracies(view, predictions, truth)
      ensures experts == Experts(acc, w.threshold)
      ensures expertScores == ExpertScores(view, acc, experts, w)
      ensures |samplePredictions| == |experts|
      ensures forall i :: 0 <= i < |experts| ==> samplePredictions[i] == view[experts[i]].predicted
    {
      var P, T := predictions, truth;
      ghost var accs := Accuracies(view, P, T);
      acc, experts, expertScores, samplePredictions := [], [], [], [];
      var m := 0;
      while m < |view|
        invariant 0 <= m <= |view| && |acc| == m
        invariant SurveyRecord(view, accs, w, acc, experts, expertScores, samplePredictions)
      {
        var a := NeighbourAccuracy(view[m], P[m]);
        SurveyExtend(view, accs, w, acc, experts, expertScores, samplePredictions);
        acc := acc + [a];
        if a > w.threshold {
          experts := experts + [m];
          expertScores := expertScores + [Score(w, a, view[m].proba)];
          samplePredictions := samplePredictions + [view[m].predicted];
        }
        m := m + 1;
      }
      SurveyComplete(view, accs, w, acc, experts, expertScores, samplePredictions);
    }

    /** What `expert_fit_decision` and `expert_decision` do once the trees have
        answered: the prediction of the first best-scoring eligible model, or of the
        first model of highest local accuracy when none is eligible. */
    method Select(view: seq<ModelView>, w: Blend) returns (answer: int)
      requires ValidViews(view, predictions, truth)
      ensures answer == Decide(view, predictions, truth, w)
    {
      var acc, experts, expertScores, samplePredictions := SurveyModels(view, w);
      if |experts| > 0 {
        var i := FindFirstMax(expertScores);
        answer := samplePredictions[i];
      } else {
        var j := FindFirstMax(acc);
        answer := view[j].predicted;
      }
    }

    /** `expert_fit_decision`: every tree is asked for the `w[3]` nearest calibration
        samples, which a tree over fewer samples refuses; the answer is then the rule
        under `w`. */
    method ExpertFitDecision(view: seq<ModelView>, w: Blend) returns (r: Result<int>)
      requires ValidViews(view, predictions, truth)
      ensures r.Failure? <==> w.k > |truth|
      ensures r.Failure? ==> r.error == TooFewPoints
      ensures r.Success? ==> r.value == Decide(view, predictions, truth, w)
    {
      if w.k > |truth| {
        return Failure(TooFewPoints);
      }
      var answer := Select(view, w);
      return Success(answer);
    }

    /** `expert_decision`: the same rule, with the trees asked for the fitted `k`
        neighbours and the choice made under the fitted weights. */
    method ExpertDecision(view: seq<ModelView>) returns (r: Result<int>)
      requires ValidViews(view, predictions, truth)
      ensures r.Failure? <==> k > |truth|
      ensures r.Failure? ==> r.error == TooFewPoints
      ensures r.Success? ==> r.value == Decide(view, predictions, truth, weights)
    {
      if k > |truth| {
        return Failure(TooFewPoints);
      }
      var answer := Select(view, weights);
      return Success(answer);
    }

    /** `find_weights`: the rule's answer for every calibration sample, in order; the
        first sample's query fails when `w[3]` exceeds the calibration size. */
    method FindWeights(cv: seq<seq<ModelView>>, w: Blend) returns (r: Result<seq<int>>)
      requires forall s :: 0 <= s < |cv| ==> ValidViews(cv[s], predictions, truth)
      ensures r.Failure? <==> |cv| > 0 && w.k > |truth|
      ensures r.Failure? ==> r.error == TooFewPoints
      ensures r.Success? ==> |r.value| == |cv|
      ensures r.Success? ==> forall s :: 0 <= s < |cv| ==> r.value[s] == Decide(cv[s], predictions, truth, w)
    {
      var pred: seq<int> := [];
      var s := 0;
      while s < |cv|
        invariant 0 <= s <= |cv|
        invariant s > 0 ==> w.k <= |truth|
        invariant |pred| == s
        invariant forall t :: 0 <= t < s ==> pred[t] == Decide(cv[t], predictions, truth, w)
      {
        var answer := ExpertFitDecision(cv[s], w);
        if answer.Failure? {
          return Failure(answer.error);
        }
        pred := pred + [answer.value];
        s := s + 1;
      }
      return Success(pred);
    }

    /** `predict`: one answer per sample, in input order. Before `fit` there is no
        tree to query, and a `k` above the calibration size makes every query fail,
        so in both cases any sample makes it fail. */
    method Predict(X: seq<seq<ModelView>>) returns (r: Result<seq<int>>)
      requires Valid()
      requires trees > 0 ==> forall s :: 0 <= s < |X| ==> ValidViews(X[s], predictions, truth)
      ensures r.Failure? <==> |X| > 0 && (trees == 0 || k > |truth|)
      ensures r.Failure? ==> r.error == if trees == 0 then NotFitted else TooFewPoints
      ensures r.Success? ==> |r.value| == |X|
      ensures r.Success? ==> forall s :: 0 <= s < |X| ==> r.value[s] == Decide(X[s], predictions, truth, weights)
    {
      if |X| > 0 && trees == 0 {
        return Failure(NotFitted);
      }
      ghost var P, T, W := predictions, truth, weights;
      var labels: seq<int> := [];
      var s := 0;
      while s < |X|
        invariant 0 <= s <= |X|
        invariant s > 0 ==> k <= |truth|
        invariant |labels| == s
        invariant forall t :: 0 <= t < s ==> labels[t] == Decide(X[t], P, T, W)
      {
        var answer := ExpertDecision(X[s]);
        if answer.Failure? {
          return Failure(answer.error);
        }
        labels := labels + [answer.value];
        s := s + 1;
      }
      return Success(labels);
    }

    /** `accuracy_score(self.true, self.find_weights(X_cv, w))`. */
    method EvaluateCandidate(cv: seq<seq<ModelView>>, w: Blend) returns (r: Result<real>)
      requires ValidCalibration(cv, predictions, truth)
      ensures r.Failure? <==> w.k > |truth|
      ensures r.Failure? ==> r.error == TooFewPoints
      ensures r.Success? ==> r.value == CalibrationAccuracy(cv, predictions, truth, w)
    {
      var pred := FindWeights(cv, w);
      if pred.Failure? {
        return Failure(pred.error);
      }
      ghost var P, T := predictions, truth;
      assert pred.value == seq(|cv|, s requires 0 <= s < |cv| => Decide(cv[s], P, T, w));
      return Success(Accuracy(truth, pred.value));
    }

    /** Stage 1 of the search: `n1` fresh candidate lists and their calibration
        accuracies (each list is built anew, so only its value matters). Every
        candidate asks for 6 neighbours, so with fewer than 6 calibration samples
        the first trial fails. */
    method SearchStage1(cv: seq<seq<ModelView>>, rand: nat -> real, n1: int)
      returns (s: Status, candidates: seq<Blend>, accs: seq<real>)
      requires ValidCalibration(cv, predictions, truth)
      ensures s.Err? <==> n1 > 0 && |truth| < 6
      ensures s.Err? ==> s.error == TooFewPoints
      ensures s.Ok? ==> |accs| == (if n1 > 0 then n1 else 0)
      ensures s.Ok? ==> Stage1Record(cv, predictions, truth, rand, candidates, accs)
    {
      ghost var P, T := predictions, truth;
      candidates, accs := [], [];
      var i := 0;
      while i < n1
        invariant 0 <= i && (if n1 > 0 then i <= n1 else i == 0)
        invariant i > 0 ==> 6 <= |truth|
        invariant |accs| == i && Stage1Record(cv, P, T, rand, candidates, accs)
      {
        var tmp := Stage1Candidate(rand, i);
        var acc := EvaluateCandidate(cv, tmp);
        if acc.Failure? {
          return Err(acc.error), candidates, accs;
        }
        Stage1RecordExtend(cv, P, T, rand, candidates, accs, acc.value);
        candidates, accs := candidates + [tmp], accs + [acc.value];
        i := i + 1;
      }
      s := Ok;
    }

    /** One stage-2 trial: mutate the list in place, then score it on the calibration set. */
    method Stage2Iteration(cv: seq<seq<ModelView>>, rand: nat -> real, n1: nat, i: nat, tmp: BlendWeights,
                           ghost start: Blend, ghost accs: seq<real>)
      returns (tmp2: BlendWeights, r: Result<real>)
      requires |accs| == i && Stage2Record(cv, predictions, truth, start, rand, 2 * n1, accs)
      requires tmp.Value() == Walk(start, rand, 2 * n1, i)
      modifies tmp
      ensures tmp2 == tmp
      ensures tmp.Value() == Walk(start, rand, 2 * n1, i + 1)
      ensures r.Failure? <==> start.k > |truth|
      ensures r.Failure? ==> r.error == TooFewPoints
      ensures r.Success? ==> Stage2Record(cv, predictions, truth, start, rand, 2 * n1, accs + [r.value])
    {
      tmp2 := Stage2Advance(tmp, start, rand, 2 * n1, i);
      var current := tmp2.Value();
      r := EvaluateCandidate(cv, current);
      if r.Success? {
        Stage2RecordExtend(cv, predictions, truth, start, rand, 2 * n1, accs, current, r.value);
      }
    }

    /** Stage 2 of the search: every trial mutates `tmp` (the list `tmp_w2 = tmp_w`
        aliases) and appends that same list to the candidates. It starts from a
        stage-1 list, whose neighbour count the trees have already answered, so its
        queries succeed. */
    method SearchStage2(cv: seq<seq<ModelView>>, rand: nat -> real, n1: nat, n2: nat, tmp: BlendWeights)
      returns (candidates: seq<BlendWeights>, accs: seq<real>)
      requires ValidCalibration(cv, predictions, truth)
      requires tmp.Value().k <= |truth|
      modifies tmp
      ensures |candidates| == |accs| == n2
      ensures forall i :: 0 <= i < n2 ==> candidates[i] == tmp
      ensures Stage2Record(cv, predictions, truth, old(tmp.Value()), rand, 2 * n1, accs)
      ensures tmp.Value() == Walk(old(tmp.Value()), rand, 2 * n1, n2)
    {
      ghost var start := tmp.Value();
      candidates, accs := [], [];
      var i := 0;
      while i < n2
        invariant 0 <= i <= n2
        invariant |candidates| == |accs| == i
        invariant forall j :: 0 <= j < i ==> candidates[j] == tmp
        invariant Stage2Record(cv, predictions, truth, start, rand, 2 * n1, accs)
        invariant tmp.Value() == Walk(start, rand, 2 * n1, i)
      {
        var tmp2, acc := Stage2Iteration(cv, rand, n1, i, tmp, start, accs);
        candidates, accs := candidates + [tmp2], accs + [acc.value];
        i := i + 1;
      }
    }

    /** The two-stage search of `fit` over the stored calibration record: the
        stage-1 winner (first of highest accuracy), then the list it becomes after
        the stage-2 trials. With no stage-1 or no stage-2 trial, `max` of an empty
        accuracy list fails; with fewer than 6 calibration samples, the first
        stage-1 query does. */
    method Search(cv: seq<seq<ModelView>>, rand: nat -> real) returns (r: Result<Blend>)
      requires ValidCalibration(cv, predictions, truth)
      ensures r.Success? <==> 0 < Trunc(randSplit * nRand as real) < nRand && 6 <= |truth|
      ensures r.Failure? ==>
        r.error == if 0 < Trunc(randSplit * nRand as real) && |truth| < 6 then TooFewPoints else NoCandidates
      ensures r.Success? ==>
        var n1 := Trunc(randSplit * nRand as real);
        r.value == SearchResult(cv, predictions, truth, rand, n1, nRand - n1)
      ensures r.Success? ==> r.value.k == 6
    {
      ghost var P, T := predictions, truth;
      var n1 := Trunc(randSplit * nRand as real);
      var s1, candidates, accs := SearchStage1(cv, rand, n1);
      if s1.Err? {
        return Failure(s1.error);
      }
      if n1 <= 0 {
        return Failure(NoCandidates);
      }
      Stage1RecordBest(cv, P, T, rand, candidates, accs);
      var best := FindFirstMax(accs);
      var tmp := new BlendWeights(candidates[best]);
      var n2 := nRand - n1;
      if n2 <= 0 {
        return Failure(NoCandidates);
      }
      var candidates2, accs2 := SearchStage2(cv, rand, n1, n2, tmp);
      var best2 := FindFirstMax(accs2);
      SearchKeepsNeighbourCount(cv, P, T, rand, n1, n2);
      return Success(candidates2[best2].Value());
    }

    /** The bookkeeping of `fit`: one more ball tree per model, then the calibration
        predictions and labels. */
    method Store(cvPredictions: seq<seq<int>>, y: seq<int>, cv: seq<seq<ModelView>>)
      requires Valid()
      requires |cvPredictions| == numModels
      requires forall m :: 0 <= m < numModels ==> |cvPredictions[m]| == |cv|
      requires |y| == |cv| > 0
      requires forall t :: 0 <= t < |cv| ==> |cv[t]| == numModels
      requires forall t :: 0 <= t < |cv| ==> forall m :: 0 <= m < numModels ==> ValidView(cv[t][m], |cv|)
      modifies this`trees, this`predictions, this`truth
      ensures Valid() && ValidCalibration(cv, predictions, truth)
      ensures predictions == cvPredictions && truth == y && trees == old(trees) + numModels
    {
      trees, predictions, truth := trees + numModels, cvPredictions, y;
    }

    /** `fit` once the labels are present: stores the calibration record (one more
        ball tree per model), searches, and keeps the list the search ends with. */
    method Calibrate(cvPredictions: seq<seq<int>>, y: seq<int>, cv: seq<seq<ModelView>>, rand: nat -> real)
      returns (s: Status)
      requires Valid()
      requires |cvPredictions| == numModels
      requires forall m :: 0 <= m < numModels ==> |cvPredictions[m]| == |cv|
      requires |y| == |cv| > 0
      requires forall t :: 0 <= t < |cv| ==> |cv[t]| == numModels
      requires forall t :: 0 <= t < |cv| ==> forall m :: 0 <= m < numModels ==> ValidView(cv[t][m], |cv|)
      modifies this
      ensures Valid() && ValidCalibration(cv, predictions, truth)
      ensures predictions == cvPredictions && truth == y && trees == old(trees) + numModels
      ensures s.Ok? <==> 0 < Trunc(randSplit * nRand as real) < nRand && 6 <= |cv|
      ensures s.Err? ==> s.error == if 0 < Trunc(randSplit * nRand as real) && |cv| < 6 then TooFewPoints else NoCandidates
      ensures s.Err? ==> weights == old(weights) && k == old(k)
      ensures s.Ok? ==>
        var n1 := Trunc(randSplit * nRand as real);
        && weights == SearchResult(cv, predictions, truth, rand, n1, nRand - n1)
        && k == weights.k == 6
    {
      Store(cvPredictions, y, cv);
      var found := Search(cv, rand);
      if found.Failure? {
        return Err(found.error);
      }
      weights, k := found.value, found.value.k;
      s := Ok;
    }

    /** `fit`: refuses missing labels, then calibrates with the draws
        `rand(0), rand(1), ...`. */
    method Fit(cvPredictions: seq<seq<int>>, y: Option<seq<int>>, cv: seq<seq<ModelView>>, rand: nat -> real)
      returns (s: Status)
      requires Valid()
      requires |cvPredictions| == numModels
      requires forall m :: 0 <= m < numModels ==> |cvPredictions[m]| == |cv|
      requires y.Some? ==> |y.value| == |cv|
      requires forall t :: 0 <= t < |cv| ==> |cv[t]| == numModels
      requires forall t :: 0 <= t < |cv| ==> forall m :: 0 <= m < numModels ==> ValidView(cv[t][m], |cv|)
      modifies this
      ensures Valid()
      ensures y.None? ==> s == Err(MissingLabels) && unchanged(this)
      ensures y.Some? && |cv| == 0 ==> s == Err(EmptyInput) && unchanged(this)
      ensures y.Some? && |cv| > 0 ==>
        predictions == cvPredictions && truth == y.value && trees == old(trees) + numModels
      ensures s.Ok? <==> y.Some? && |cv| > 0 && 0 < Trunc(randSplit * nRand as real) < nRand && 6 <= |cv|
      ensures y.Some? && |cv| > 0 && s.Err? ==>
        s.error == if 0 < Trunc(randSplit * nRand as real) && |cv| < 6 then TooFewPoints else NoCandidates
      ensures s.Err? ==> weights == old(weights) && k == old(k)
      ensures s.Ok? ==> ValidCalibration(cv, predictions, truth)
      ensures s.Ok? ==>
        var n1 := Trunc(randSplit * nRand as real);
        && weights == SearchResult(cv, predictions, truth, rand, n1, nRand - n1)
        && k == weights.k == 6
    {
      if y.None? {
        return Err(MissingLabels);
      }
      if |cv| == 0 {
        return Err(EmptyInput);
      }
      s := Calibrate(cvPredictions, y.value, cv, rand);
    }
  }
}
