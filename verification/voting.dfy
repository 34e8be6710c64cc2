/** The static combinator: weighted voting over one-hot prediction blocks, with the
    weight vector fixed by the user ('weights'), uniform ('majority'), counted from
    calibration accuracy ('accuracy') or returned by a numerical optimiser
    ('optimal'). */
module Voting {
  import opened Outcomes
  import opened FirstMax
  import opened LabelCodec

  /** The `scheme` flag; any other string lands in `Unrecognized`. */
  datatype Scheme = Majority | GivenWeights | Accuracy | Optimal | Unrecognized

  /* ---------------- encoded prediction rows ---------------- */

  /** An encoded sample row: `M` blocks, one per model in model order, each of width `L`. */
  predicate WellShaped(row: seq<seq<int>>, M: nat, L: nat)
  {
    |row| == M && forall m :: 0 <= m < M ==> |row[m]| == L
  }

  /** Every prediction of every model is in the vocabulary. */
  predicate Known(c: seq<int>, X: seq<seq<int>>)
  {
    forall m, i :: 0 <= m < |X| && 0 <= i < |X[m]| ==> X[m][i] in c
  }

  /** Every model has one prediction per sample. */
  predicate Rectangular(X: seq<seq<int>>, N: nat)
  {
    forall m :: 0 <= m < |X| ==> |X[m]| == N
  }

  /** The one-hot rows of the true labels. */
  function EncodeLabels(c: seq<int>, y: seq<int>): (t: seq<seq<int>>)
    requires forall i :: 0 <= i < |y| ==> y[i] in c
    ensures |t| == |y|
  {
    seq(|y|, i requires 0 <= i < |y| => OneHot(Index(c, y[i]), |c|))
  }

  /** The fit-time layout: `X[m]` holds model `m`'s predictions over the `N` samples,
      and row `i` is the concatenation, in model order, of the one-hot vectors of
      `X[0][i], X[1][i], ...` (the transpose before the reshape). */
  function EncodeRows(c: seq<int>, X: seq<seq<int>>, N: nat): (rows: seq<seq<seq<int>>>)
    requires Rectangular(X, N) && Known(c, X)
    ensures |rows| == N
    ensures forall i :: 0 <= i < N ==> WellShaped(rows[i], |X|, |c|)
  {
    seq(N, i requires 0 <= i < N =>
      seq(|X|, m requires 0 <= m < |X| => OneHot(Index(c, X[m][i]), |c|)))
  }

  /** Block `m` of row `i` decodes to model `m`'s prediction for sample `i`: the
      fit-time encoding loses nothing and puts each model's vote in its own block. */
  lemma FitLayoutDecodes(c: seq<int>, X: seq<seq<int>>, N: nat, i: nat, m: nat)
    requires Rectangular(X, N) && Known(c, X)
    requires i < N && m < |X|
    ensures IsOneHot(EncodeRows(c, X, N)[i][m], |c|)
    ensures |c| > 0 && Decode(c, ArgMax(AsReals(EncodeRows(c, X, N)[i][m]))) == X[m][i]
  {
    var p := Index(c, X[m][i]);
    assert EncodeRows(c, X, N)[i][m] == OneHot(p, |c|);
    OneHotArgMax(p, |c|);
  }

  /** Entry `f` of the model-major flattening of `X` (model `f / N`, sample `f % N`). */
  function FlatEntry(c: seq<int>, X: seq<seq<int>>, N: nat, f: nat): (x: int)
    requires Rectangular(X, N) && Known(c, X) && f < |X| * N
    ensures x in c
  {
    FlatIndexInRange(f, |X|, N);
    var m, s := f / N, f % N;
    assert X[m][s] in c;
    X[m][s]
  }

  lemma FlatIndexInRange(f: nat, M: nat, N: nat)
    requires f < M * N
    ensures N > 0 && f / N < M && f % N < N
  {
  }

  /** Position of block `b` of row `i` in the flattening of `M` lists of `N`. */
  function FlatIndex(i: nat, b: nat, M: nat, N: nat): (f: nat)
    requires i < N && b < M
    ensures f < M * N
  {
    assert i * M <= (N - 1) * M;
    i * M + b
  }

  /** The layout `transform` builds: the predictions are flattened model by model
      (no transpose) and cut into `N` rows of `|X|` blocks, so block `b` of row `i`
      encodes entry `i * |X| + b` of that flattening. */
  function FlatRows(c: seq<int>, X: seq<seq<int>>, N: nat): (rows: seq<seq<seq<int>>>)
    requires Rectangular(X, N) && Known(c, X)
    ensures |rows| == N
    ensures forall i :: 0 <= i < N ==> WellShaped(rows[i], |X|, |c|)
  {
    seq(N, i requires 0 <= i < N => seq(|X|, b requires 0 <= b < |X| => FlatBlock(c, X, N, i, b)))
  }

  /** Block `b` of row `i` in the transform-time layout. */
  function FlatBlock(c: seq<int>, X: seq<seq<int>>, N: nat, i: nat, b: nat): (r: seq<int>)
    requires Rectangular(X, N) && Known(c, X) && i < N && b < |X|
    ensures |r| == |c|
  {
    OneHot(Index(c, FlatEntry(c, X, N, FlatIndex(i, b, |X|, N))), |c|)
  }

  /** With a single model the two layouts coincide. */
  lemma SingleModelLayoutsAgree(c: seq<int>, X: seq<seq<int>>, N: nat)
    requires Rectangular(X, N) && Known(c, X) && |X| == 1
    ensures FlatRows(c, X, N) == EncodeRows(c, X, N)
  {
    forall i | 0 <= i < N
      ensures FlatRows(c, X, N)[i] == EncodeRows(c, X, N)[i]
    {
      SingleModelRow(c, X, N, i);
    }
  }

  lemma SingleModelRow(c: seq<int>, X: seq<seq<int>>, N: nat, i: nat)
    requires Rectangular(X, N) && Known(c, X) && |X| == 1 && i < N
    ensures FlatRows(c, X, N)[i] == EncodeRows(c, X, N)[i]
  {
    SmallQuotient(i, N);
    assert FlatEntry(c, X, N, FlatIndex(i, 0, |X|, N)) == X[0][i];
    assert FlatRows(c, X, N)[i][0] == EncodeRows(c, X, N)[i][0];
  }

  lemma SmallQuotient(i: nat, N: nat)
    requires i < N
    ensures i * 1 + 0 == i && i / N == 0 && i % N == i
  {
  }

  /** With two models and two samples, where model 0 (the only one with weight)
      predicts label 0 for both, the transform-time layout makes sample 1 vote for
      label 1 while the fit-time layout votes, as model 0 does, for label 0. */
  lemma TransformLayoutMixesModels()
    ensures var c, X, w := [0, 1], [[0, 0], [1, 1]], [1.0, 0.0];
            && Rectangular(X, 2) && Known(c, X)
            && X[0][1] == 0
            && Winner(FlatRows(c, X, 2)[1], w, 2, 2) == 1
            && Winner(EncodeRows(c, X, 2)[1], w, 2, 2) == 0
  {
    var c, X := [0, 1], [[0, 0], [1, 1]];
    assert Known(c, X);
    assert Index(c, 0) == 0 && Index(c, 1) == 1;
    assert FlatEntry(c, X, 2, FlatIndex(1, 0, 2, 2)) == 1;
    assert FlatRows(c, X, 2)[1][0] == OneHot(1, 2);
    SoleWeightDecides(FlatRows(c, X, 2)[1], 2, 1);
    assert EncodeRows(c, X, 2)[1][0] == OneHot(0, 2);
    SoleWeightDecides(EncodeRows(c, X, 2)[1], 2, 0);
  }

  /** With weights `[1, 0]` over two models, the row votes for model 0's label. */
  lemma SoleWeightDecides(row: seq<seq<int>>, L: nat, p: nat)
    requires WellShaped(row, 2, L) && p < L && row[0] == OneHot(p, L)
    ensures Winner(row, [1.0, 0.0], 2, L) == p
  {
    var w := [1.0, 0.0];
    var v := Votes(row, w, L);
    forall j | 0 <= j < L
      ensures v[j] == AsReals(OneHot(p, L))[j]
    {
      assert Tally(row, w, j, 1) == row[0][j] as real;
    }
    assert v == AsReals(OneHot(p, L));
    OneHotArgMax(p, L);
  }

  /* ---------------- voting ---------------- */

  /** Weighted votes for label `j` from the first `n` blocks of a row. */
  function Tally(row: seq<seq<int>>, w: seq<real>, j: nat, n: nat): real
    requires n <= |row| && n <= |w|
    requires forall m :: 0 <= m < n ==> j < |row[m]|
  {
    if n == 0 then 0.0
    else Tally(row, w, j, n - 1) + w[n - 1] * (row[n - 1][j] as real)
  }

  /** The summed, weight-scaled blocks of a row. */
  function Votes(row: seq<seq<int>>, w: seq<real>, L: nat): (v: seq<real>)
    requires WellShaped(row, |row|, L) && |row| <= |w|
    ensures |v| == L
  {
    seq(L, j requires 0 <= j < L => Tally(row, w, j, |row|))
  }

  /** The label index a row votes for: the first index of the largest weighted sum. */
  function Winner(row: seq<seq<int>>, w: seq<real>, M: nat, L: nat): (k: nat)
    requires WellShaped(row, M, L) && M <= |w| && L > 0
    ensures k < L
  {
    ArgMax(Votes(row, w, L))
  }

  function Ones(M: nat): (w: seq<real>)
  {
    seq(M, _ => 1.0)
  }

  /** The weights voting actually uses: a falsy weight list (None or []) becomes `M` ones. */
  function EffectiveWeights(w: seq<real>, M: nat): (r: seq<real>)
    ensures w != [] ==> r == w
    ensures w == [] ==> |r| == M && forall m :: 0 <= m < M ==> r[m] == 1.0
  {
    if w == [] then Ones(M) else w
  }

  /** The accumulation loop of `voting` for one row: each model's one-hot block,
      scaled by its weight, is added into a running vote vector of length `L`. */
  method SumVotes(row: seq<seq<int>>, w: seq<real>, M: nat, L: nat) returns (votes: seq<real>)
    requires WellShaped(row, M, L) && M <= |w|
    ensures votes == Votes(row, w, L)
  {
    votes := seq(L, _ => 0.0);
    var m := 0;
    while m < M
      invariant 0 <= m <= M
      invariant |votes| == L
      invariant forall j :: 0 <= j < L ==> votes[j] == Tally(row, w, j, m)
    {
      var block, wm := row[m], w[m];
      votes := seq(L, j requires 0 <= j < L => votes[j] + wm * (block[j] as real));
      m := m + 1;
    }
  }

  /** What `voting` returns for `rows` with the effective weights `w`: a failure
      when some row is not `M` blocks of `L` or `w` is too short, otherwise the
      winner of every row as a one-hot row. */
  function VoteRows(rows: seq<seq<seq<int>>>, w: seq<real>, M: nat, L: nat): (r: Result<seq<seq<int>>>)
    ensures r.Success? <==>
      |rows| == 0 ||
      (M > 0 && L > 0 && M <= |w| && forall i :: 0 <= i < |rows| ==> WellShaped(rows[i], M, L))
    ensures r.Failure? ==> r.error == ShapeMismatch
    ensures r.Success? ==> |r.value| == |rows| && forall i :: 0 <= i < |rows| ==>
      WellShaped(rows[i], M, L) && M <= |w| && L > 0 &&
      r.value[i] == OneHot(Winner(rows[i], w, M, L), L)
  {
    if |rows| == 0 then Success([])
    else if M > 0 && L > 0 && M <= |w| && forall i :: 0 <= i < |rows| ==> WellShaped(rows[i], M, L) then
      Success(seq(|rows|, i requires 0 <= i < |rows| => OneHot(Winner(rows[i], w, M, L), L)))
    else Failure(ShapeMismatch)
  }

  /** The row loop of `voting`, stopping at the first row of the wrong shape. */
  method VoteAll(rows: seq<seq<seq<int>>>, w: seq<real>, M: nat, L: nat) returns (r: Result<seq<seq<int>>>)
    ensures r == VoteRows(rows, w, M, L)
  {
    var predictions: seq<seq<int>> := [];
    var i := 0;
    while i < |rows|
      invariant 0 <= i <= |rows|
      invariant |predictions| == i
      invariant i > 0 ==> M > 0 && L > 0 && M <= |w|
      invariant forall t :: 0 <= t < i ==> WellShaped(rows[t], M, L)
      invariant forall t :: 0 <= t < i ==>
        M <= |w| && L > 0 && predictions[t] == OneHot(Winner(rows[t], w, M, L), L)
    {
      var row := rows[i];
      if M == 0 || L == 0 || |w| < M || !WellShaped(row, M, L) {
        return Failure(ShapeMismatch);
      }
      var votes := SumVotes(row, w, M, L);
      var k := FindFirstMax(votes);
      predictions := predictions + [OneHot(k, L)];
      i := i + 1;
    }
    if |rows| > 0 {
      assert predictions == seq(|rows|, t requires 0 <= t < |rows| => OneHot(Winner(rows[t], w, M, L), L));
    }
    return Success(predictions);
  }

  /** The winner carries the largest weighted vote sum, and every label before it
      strictly less. */
  lemma WinnerHasMostVotes(row: seq<seq<int>>, w: seq<real>, M: nat, L: nat, j: nat)
    requires WellShaped(row, M, L) && M <= |w| && j < L
    ensures Tally(row, w, j, M) <= Tally(row, w, Winner(row, w, M, L), M)
    ensures j < Winner(row, w, M, L) ==> Tally(row, w, j, M) < Tally(row, w, Winner(row, w, M, L), M)
  {
    var v := Votes(row, w, L);
    assert v[j] == Tally(row, w, j, M);
  }

  lemma {:induction false} ZeroTally(row: seq<seq<int>>, w: seq<real>, j: nat, n: nat)
    requires n <= |row| && n <= |w|
    requires forall m :: 0 <= m < n ==> j < |row[m]|
    requires forall m :: 0 <= m < |w| ==> w[m] == 0.0
    ensures Tally(row, w, j, n) == 0.0
  {
    if n > 0 {
      ZeroTally(row, w, j, n - 1);
    }
  }

  /** All-zero weights tie every label at zero, so the lowest index wins. */
  lemma ZeroWeightsPickFirst(row: seq<seq<int>>, w: seq<real>, M: nat, L: nat)
    requires WellShaped(row, M, L) && M <= |w| && L > 0
    requires forall m :: 0 <= m < |w| ==> w[m] == 0.0
    ensures Winner(row, w, M, L) == 0
  {
    var v := Votes(row, w, L);
    forall j | 0 <= j < L
      ensures v[j] == 0.0
    {
      ZeroTally(row, w, j, M);
    }
    ConstantPicksFirst(v, 0.0);
  }

  /** Number of the first `n` models whose block is the one-hot vector of label `j`. */
  function Supporters(row: seq<seq<int>>, j: nat, n: nat): nat
    requires n <= |row|
  {
    if n == 0 then 0
    else Supporters(row, j, n - 1) + (if row[n - 1] == OneHot(j, |row[n - 1]|) then 1 else 0)
  }

  lemma {:induction false} UniformTallyCountsSupporters(row: seq<seq<int>>, M: nat, L: nat, j: nat, n: nat)
    requires WellShaped(row, M, L) && j < L && n <= M
    requires forall m :: 0 <= m < M ==> IsOneHot(row[m], L)
    ensures Tally(row, Ones(M), j, n) == Supporters(row, j, n) as real
  {
    if n > 0 {
      UniformTallyCountsSupporters(row, M, L, j, n - 1);
      var b := row[n - 1];
      var p :| 0 <= p < L && b == OneHot(p, L);
      if p == j {
        assert b[j] == 1;
      } else {
        assert b[j] == 0;
        assert OneHot(j, L)[p] == 0;
        assert b != OneHot(j, L);
      }
    }
  }

  /** The 'majority' scheme is plurality voting: with its default weights (a falsy
      list turned into ones) the winner is the first label predicted by the largest
      number of models. */
  lemma MajorityIsPlurality(row: seq<seq<int>>, M: nat, L: nat)
    requires WellShaped(row, M, L) && L > 0
    requires forall m :: 0 <= m < M ==> IsOneHot(row[m], L)
    ensures IsFirstMax(seq(L, j requires 0 <= j < L => Supporters(row, j, M) as real),
                       Winner(row, EffectiveWeights([], M), M, L))
  {
    var counts := seq(L, j requires 0 <= j < L => Supporters(row, j, M) as real);
    var v := Votes(row, Ones(M), L);
    forall j | 0 <= j < L
      ensures v[j] == counts[j]
    {
      UniformTallyCountsSupporters(row, M, L, j, M);
    }
    assert v == counts;
  }

  /* ---------------- accuracy weights ---------------- */

  /** Number of the first `n` calibration rows whose block `m` equals the true one-hot row. */
  function CorrectCount(enc: seq<seq<seq<int>>>, truth: seq<seq<int>>, m: nat, n: nat): (c: nat)
    requires n <= |enc| && n <= |truth|
    requires forall i :: 0 <= i < n ==> m < |enc[i]|
    ensures c <= n
  {
    if n == 0 then 0
    else CorrectCount(enc, truth, m, n - 1) + (if enc[n - 1][m] == truth[n - 1] then 1 else 0)
  }

  predicate Calibration(enc: seq<seq<seq<int>>>, truth: seq<seq<int>>, M: nat)
  {
    |enc| == |truth| && forall i :: 0 <= i < |enc| ==> |enc[i]| == M
  }

  /** The 'accuracy' scheme's weights: model `m`'s raw count of correct calibration rows. */
  function AccuracyWeights(enc: seq<seq<seq<int>>>, truth: seq<seq<int>>, M: nat): (w: seq<real>)
    requires Calibration(enc, truth, M)
    ensures |w| == M
    ensures forall m :: 0 <= m < M ==> 0.0 <= w[m] <= |enc| as real
  {
    seq(M, m requires 0 <= m < M => CorrectCount(enc, truth, m, |enc|) as real)
  }

  /** Every accuracy weight is a whole number between 0 and the number of calibration rows. */
  lemma AccuracyWeightBounds(enc: seq<seq<seq<int>>>, truth: seq<seq<int>>, M: nat, m: nat)
    requires Calibration(enc, truth, M) && m < M
    ensures AccuracyWeights(enc, truth, M)[m] == AccuracyWeights(enc, truth, M)[m].Floor as real
    ensures 0.0 <= AccuracyWeights(enc, truth, M)[m] <= |enc| as real
  {
    var c := CorrectCount(enc, truth, m, |enc|);
    assert AccuracyWeights(enc, truth, M)[m] == c as real;
    assert (c as real).Floor == c;
  }

  /** The counting loop of the 'accuracy' scheme: one pass over the rows, one
      counter per model. */
  method CountCorrect(enc: seq<seq<seq<int>>>, truth: seq<seq<int>>, M: nat) returns (counts: seq<nat>)
    requires Calibration(enc, truth, M)
    ensures |counts| == M
    ensures forall m :: 0 <= m < M ==> counts[m] == CorrectCount(enc, truth, m, |enc|)
  {
    counts := seq(M, _ => 0);
    var i := 0;
    while i < |enc|
      invariant 0 <= i <= |enc|
      invariant |counts| == M
      invariant forall m :: 0 <= m < M ==> counts[m] == CorrectCount(enc, truth, m, i)
    {
      var m := 0;
      while m < M
        invariant 0 <= m <= M
        invariant |counts| == M
        invariant forall m' :: 0 <= m' < m ==> counts[m'] == CorrectCount(enc, truth, m', i + 1)
        invariant forall m' :: m <= m' < M ==> counts[m'] == CorrectCount(enc, truth, m', i)
      {
        if enc[i][m] == truth[i] {
          counts := counts[m := counts[m] + 1];
        }
        m := m + 1;
      }
      i := i + 1;
    }
  }

  /** The weights `fit` leaves behind for each scheme (`optimized` stands for the
      optimiser's result vector). */
  function FittedWeights(scheme: Scheme, w: seq<real>, enc: seq<seq<seq<int>>>, truth: seq<seq<int>>,
                         M: nat, optimized: seq<real>): (r: seq<real>)
    requires Calibration(enc, truth, M)
    ensures scheme == Accuracy ==> |r| == M && forall m :: 0 <= m < M ==> 0.0 <= r[m] <= |enc| as real
    ensures scheme == Optimal ==> r == optimized
    ensures scheme != Accuracy && scheme != Optimal ==> r == w
  {
    match scheme
    case Accuracy => AccuracyWeights(enc, truth, M)
    case Optimal => optimized
    case _ => w
  }

  /* ---------------- the combinator ---------------- */

  class Combinator {
    const scheme: Scheme
    /** The weight list; `[]` also stands for `None`, which voting treats like an empty list. */
    var weights: seq<real>
    /** False exactly while `self.weights` is `None` (and then `weights` is `[]`). */
    var hasWeights: bool
    var numLabels: nat
    var numModels: nat
    /** The fitted label vocabulary; `[]` before `fit`. */
    var classes: seq<int>

    ghost predicate Valid()
      reads this
    {
      numLabels == |classes| && StrictlyIncreasing(classes)
    }

    constructor (scheme: Scheme, weights: Option<seq<real>>)
      ensures Valid()
      ensures this.scheme == scheme && hasWeights == weights.Some?
      ensures this.weights == match weights
                              case None => []
                              case Some(w) => w
      ensures numLabels == 0 && numModels == 0 && classes == []
    {
      this.scheme := scheme;
      this.weights := match weights case None => [] case Some(w) => w;
      hasWeights := weights.Some?;
      numLabels, numModels, classes := 0, 0, [];
    }

    /** `__init__`: the 'majority' scheme drops any weights; the 'weights' scheme
        needs a list (None fails on `len`, while an empty list is accepted). */
    static method Create(scheme: Scheme, weights: Option<seq<real>>) returns (r: Result<Combinator>)
      ensures r.Failure? <==> scheme == GivenWeights && weights.None?
      ensures r.Failure? ==> r.error == InvalidArgument
      ensures r.Success? ==> fresh(r.value) && r.value.Valid()
      ensures r.Success? ==> r.value.scheme == scheme && r.value.numLabels == 0 && r.value.numModels == 0
      ensures r.Success? ==> r.value.weights == match weights
                                               case None => []
                                               case Some(w) => if scheme == Majority then [] else w
      ensures r.Success? ==> r.value.hasWeights == (scheme != Majority && weights.Some?)
    {
      if scheme == Majority {
        var c := new Combinator(scheme, None);
        return Success(c);
      }
      if scheme == GivenWeights && weights.None? {
        return Failure(InvalidArgument);
      }
      var c := new Combinator(scheme, weights);
      return Success(c);
    }

    /** `fit_encoders`: fits the codec on `y`, encodes the true labels and the
        calibration predictions in the fit-time layout and sets `num_models`. */
    method FitEncoders(X: seq<seq<int>>, y: seq<int>)
      returns (r: Result<(seq<seq<seq<int>>>, seq<seq<int>>)>)
      requires Rectangular(X, |y|)
      modifies this`numLabels, this`classes, this`numModels
      ensures Valid()
      ensures numLabels == |set z | z in y| && classes == Classes(y)
      ensures r.Success? <==> |y| > 0 && |X| > 0 && Known(classes, X)
      ensures r.Failure? ==> numModels == old(numModels)
      ensures r.Failure? ==> r.error == (if |y| > 0 && |X| > 0 then UnknownLabel else EmptyInput)
      ensures r.Success? ==> numModels == |X|
      ensures r.Success? ==> r.value.0 == EncodeRows(classes, X, |y|)
      ensures r.Success? ==> r.value.1 == EncodeLabels(classes, y)
      ensures r.Success? ==> Calibration(r.value.0, r.value.1, numModels)
      ensures r.Success? ==> forall i :: 0 <= i < |y| ==> WellShaped(r.value.0[i], numModels, numLabels)
    {
      numLabels := |set z | z in y|;
      classes := Classes(y);
      NumLabelsIsVocabularySize(y);
      if |y| == 0 || |X| == 0 {
        return Failure(EmptyInput);
      }
      if !Known(classes, X) {
        return Failure(UnknownLabel);
      }
      var rows := EncodeRows(classes, X, |y|);
      // the encoded width is num_models * num_labels, so the division gives |X|
      numModels := |X|;
      return Success((rows, EncodeLabels(classes, y)));
    }

    /** `find_weights`: the 'accuracy' scheme counts correct calibration rows per
        model, 'optimal' takes the optimiser's vector, any other scheme keeps the
        weights it has. */
    method FindWeights(enc: seq<seq<seq<int>>>, truth: seq<seq<int>>, optimized: seq<real>)
      requires Calibration(enc, truth, numModels)
      modifies this`weights, this`hasWeights
      ensures weights == FittedWeights(scheme, old(weights), enc, truth, numModels, optimized)
      ensures hasWeights == (old(hasWeights) || scheme == Accuracy || scheme == Optimal)
    {
      if scheme == Accuracy {
        var M := numModels;
        var counts := CountCorrect(enc, truth, M);
        weights, hasWeights := seq(M, m requires 0 <= m < M => counts[m] as real), true;
      } else if scheme == Optimal {
        weights, hasWeights := optimized, true;
      }
    }

    /** `fit`: refuses a missing `y`, fits the encoders and, for every scheme but
        'majority' and 'weights', derives the weights and takes their `len`, which
        fails when an unrecognised scheme was built without weights. */
    method Fit(X: seq<seq<int>>, y: Option<seq<int>>, optimized: seq<real>) returns (s: Status)
      requires y.Some? ==> Rectangular(X, |y.value|)
      modifies this
      ensures y.None? ==> s == Err(MissingLabels) && unchanged(this)
      ensures y.Some? ==> Valid() && numLabels == |set z | z in y.value| && classes == Classes(y.value)
      ensures s.Ok? <==> y.Some? && |y.value| > 0 && |X| > 0 && Known(classes, X) &&
                         (scheme == Unrecognized ==> old(hasWeights))
      ensures s.Err? ==> s.error == if y.None? then MissingLabels
                                    else if |y.value| == 0 || |X| == 0 then EmptyInput
                                    else if !Known(classes, X) then UnknownLabel
                                    else InvalidArgument
      ensures s.Err? ==> weights == old(weights) && hasWeights == old(hasWeights)
      ensures s.Err? && s.error != InvalidArgument ==> numModels == old(numModels)
      ensures y.Some? && |y.value| > 0 && |X| > 0 && Known(classes, X) ==> numModels == |X|
      ensures s.Ok? ==> hasWeights == (old(hasWeights) || scheme == Accuracy || scheme == Optimal)
      ensures s.Ok? ==> weights == FittedWeights(scheme, old(weights), EncodeRows(classes, X, |y.value|),
                                                 EncodeLabels(classes, y.value), |X|, optimized)
    {
      if y.None? {
        return Err(MissingLabels);
      }
      var enc := FitEncoders(X, y.value);
      if enc.Failure? {
        return Err(enc.error);
      }
      if scheme != Majority && scheme != GivenWeights {
        FindWeights(enc.value.0, enc.value.1, optimized);
        if !hasWeights {
          return Err(InvalidArgument);
        }
      }
      return Ok;
    }

    /** `voting`: replaces falsy weights by ones, then for every row sums the
        weight-scaled blocks and re-emits the first index of the largest sum as a
        one-hot row. A row that is not `num_models` blocks of `num_labels`, or a weight
        list shorter than `num_models`, makes the call fail. */
    method Voting(rows: seq<seq<seq<int>>>) returns (r: Result<seq<seq<int>>>)
      modifies this`weights, this`hasWeights
      ensures weights == EffectiveWeights(old(weights), numModels)
      ensures hasWeights == (old(hasWeights) || old(weights) == [])
      ensures r == VoteRows(rows, weights, numModels, numLabels)
    {
      if weights == [] {
        weights, hasWeights := Ones(numModels), true;
      }
      r := VoteAll(rows, weights, numModels, numLabels);
    }

    /** `transform` / `predict`, with the calibration layout: encode the models'
        predictions, vote, and decode the winning index of each row. */
    method Transform(X: seq<seq<int>>) returns (r: Result<seq<int>>)
      requires Valid()
      requires |X| > 0 ==> Rectangular(X, |X[0]|)
      modifies this`weights, this`hasWeights
      ensures Valid()
      ensures |X| == 0 ==> r == Failure(EmptyInput)
      ensures |X| > 0 && classes == [] ==> r == Failure(NotFitted)
      ensures |X| > 0 && classes != [] && !Known(classes, X) ==> r == Failure(UnknownLabel)
      ensures |X| > 0 && classes != [] && Known(classes, X) && |X[0]| == 0 ==> r == Failure(EmptyInput)
      ensures r.Success? <==>
        (|X| > 0 && |X[0]| > 0 && classes != [] && Known(classes, X) &&
         |X| == numModels && numModels <= |EffectiveWeights(old(weights), numModels)|)
      ensures r.Failure? && r.error != ShapeMismatch ==> weights == old(weights) && hasWeights == old(hasWeights)
      ensures r.Success? || r.error == ShapeMismatch ==> hasWeights == (old(hasWeights) || old(weights) == [])
      ensures r.Failure? && r.error == ShapeMismatch ==> weights == EffectiveWeights(old(weights), numModels)
      ensures r.Success? ==> |X| > 0 && |X[0]| > 0 && Known(classes, X)
      ensures r.Success? ==> weights == EffectiveWeights(old(weights), numModels)
      ensures r.Success? ==> |r.value| == |X[0]| && |X| == numModels <= |weights| && numLabels > 0
      ensures r.Success? ==> forall i :: 0 <= i < |X[0]| ==>
        r.value[i] == classes[Winner(EncodeRows(classes, X, |X[0]|)[i], weights, numModels, numLabels)]
    {
      if |X| == 0 {
        return Failure(EmptyInput);
      }
      if classes == [] {
        return Failure(NotFitted);
      }
      if !Known(classes, X) {
        return Failure(UnknownLabel);
      }
      var N := |X[0]|;
      if N == 0 {
        return Failure(EmptyInput);
      }
      var rows := EncodeRows(classes, X, N);
      var voted := Voting(rows);
      if voted.Failure? {
        return Failure(voted.error);
      }
      var c := classes;
      var labels := seq(N, i requires 0 <= i < N => c[ArgMax(AsReals(voted.value[i]))]);
      forall i | 0 <= i < N
        ensures labels[i] == classes[Winner(rows[i], weights, numModels, numLabels)]
      {
        OneHotArgMax(Winner(rows[i], weights, numModels, numLabels), numLabels);
      }
      assert WellShaped(rows[0], numModels, numLabels);
      return Success(labels);
    }
  }
}
