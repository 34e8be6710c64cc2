# Ensemble combiners of `combinations.py`

This project is a Dafny model of the two classifier-combination rules in
`combinations.py`, together with proofs about them.

**`Combinator`: a static, a-posteriori combiner.**
- `fit` fits a label codec on the calibration labels.
  - The codec is the vocabulary of distinct labels in ascending order. A label's index is its rank.
- It encodes each calibration sample as a row of one-hot blocks, one block per base model, in model order.
- Depending on the `scheme`, the weights are:
  - uniform (`majority`);
  - the user's (`weights`);
  - the raw number of calibration rows each model gets right (`accuracy`);
  - an optimiser's output (`optimal`).
- `voting` scales each block by its model's weight and sums the blocks. It answers with the first label of largest weighted sum.
- `transform` decodes that answer back to a label.

**`SubSpaceEnsemble4_2`: a dynamic expert-selection rule.**
- For each sample, every base model is judged by its accuracy on that sample's nearest calibration neighbours, as its own feature space sees them.
  - Models whose local accuracy is strictly above the threshold `w[2]` are eligible.
  - Among the eligible models, the first one with the highest `w[1]*acc + w[0]*proba` answers.
  - When no model is eligible, the first model of highest local accuracy answers.
- `fit` stores the calibration predictions and labels. It then tunes `[w0, w1, w2, w3]` by a two-stage random search.
  - Stage 1 draws fresh candidates.
  - Stage 2 perturbs the stage-1 winner in place.
  - Because stage 2 assigns the list to a second name and mutates it, every stage-2 entry is that same list. The weights `fit` keeps are therefore the list after the last trial, whatever the stage-2 accuracies were.
  - The model follows this behaviour: `BlendWeights` is the shared list, and `SearchResult` is its final value.

**Modules.**
- `Outcomes`: error kinds and the `Option`/`Result`/`Status` wrappers.
- `FirstMax`: the first-maximum selection.
  - It covers numpy's `argmax` and Python's `xs.index(max(xs))`.
- `LabelCodec`: the label vocabulary and one-hot vectors.
- `Voting`: the static combiner, as class `Combinator`.
- `ExpertRule`: the per-sample selection rule as functions, with its lemmas.
- `SubSpace`: the random search and class `SubSpaceEnsemble`.

**Inputs that the model takes as parameters.**
- Base-model outputs, per sample and model (`ModelView`):
  - the neighbour lists the ball trees return;
  - the predicted label;
  - `max(predict_proba)`.
- The random draws: `rand: nat -> real`.
  - `fit` reads `rand(0), rand(1), …` in the order the source calls `random`.
- The optimiser's result vector.

## Model

| member | source | states |
|---|---|---|
| FirstMax.ArgMax | combinations.py:145 | the index `argmax` returns is a maximum position, and every earlier entry is strictly smaller (first index on ties) |
| FirstMax.FindFirstMax | combinations.py:262 | the `xs.index(max(xs))` scan returns the first position of the maximum, the same index as `ArgMax` |
| FirstMax.ConstantPicksFirst | combinations.py:140-145 | a vote vector whose entries are all equal (e.g. all zero) selects index 0 |
| FirstMax.FirstMaxUnique | combinations.py:262 | the first maximum is unique, so the scan and the recursive definition agree |
| LabelCodec.Insert | combinations.py:104 | adding a label keeps the vocabulary ascending and duplicate-free, and adds exactly that label |
| LabelCodec.Classes | combinations.py:104 | the fitted vocabulary is ascending and holds exactly the labels of `y` |
| LabelCodec.NumLabelsIsVocabularySize | combinations.py:95 | `num_labels = len(set(y))` equals the vocabulary size, so each index 0..L-1 names one label |
| LabelCodec.IndexOf | combinations.py:113 | a label has an index iff it is in the vocabulary, and that index points back at it |
| LabelCodec.Encode | combinations.py:113 | encoding fails, with UnknownLabel, exactly on labels outside the vocabulary; otherwise it gives an index that points back at the label |
| LabelCodec.Decode | combinations.py:78 | decoding an index gives a vocabulary label |
| LabelCodec.DecodeEncode | combinations.py:78 | encoding succeeds exactly on vocabulary labels, and decoding the encoding returns the label |
| LabelCodec.EncodeDecode | combinations.py:78 | encoding the label at index i of an ascending vocabulary gives i back |
| LabelCodec.OneHotArgMax | combinations.py:78 | `argmax` of the one-hot vector of j is j |
| Voting.EncodeLabels | combinations.py:104-107 | one one-hot row per true label |
| Voting.EncodeRows | combinations.py:113-118 | one row per sample, each made of `num_models` blocks of width `num_labels` |
| Voting.FitLayoutDecodes | combinations.py:113-118 | block m of row i is one-hot and decodes to model m's prediction for sample i: the fit layout loses nothing |
| Voting.FlatRows | combinations.py:75-76 | the layout `transform` builds: one row per sample of `num_models` blocks, block b of row i taken from entry i·M+b of the model-major flattening |
| Voting.SingleModelLayoutsAgree | combinations.py:75-76 | with one model the transform layout equals the fit layout |
| Voting.TransformLayoutMixesModels | combinations.py:75-76 | for two models and two samples, the transform layout votes differently from the fit layout (see Findings) |
| Voting.SoleWeightDecides | combinations.py:140-145 | with weights [1, 0] a row votes for model 0's label |
| Voting.Votes | combinations.py:140-145 | the summed weighted blocks form a vector of length `num_labels` |
| Voting.Winner | combinations.py:145 | the winning label index is below `num_labels` |
| Voting.EffectiveWeights | combinations.py:130-133 | a non-empty weight list is used as it is; an empty or absent one becomes `num_models` weights of 1 |
| Voting.SumVotes | combinations.py:140-144 | the accumulation loop leaves, for each label, the weighted sum of the models' blocks |
| Voting.VoteRows | combinations.py:128-148 | voting succeeds iff every row is `num_models` blocks of `num_labels` and there are enough weights; it then gives one one-hot row per input row, carrying that row's winner |
| Voting.VoteAll | combinations.py:134-148 | the row loop computes exactly `VoteRows`, stopping with ShapeMismatch at a malformed row |
| Voting.WinnerHasMostVotes | combinations.py:140-145 | no label gets more weighted votes than the winner, and every label before it gets strictly fewer |
| Voting.ZeroWeightsPickFirst | combinations.py:140-145 | with all-zero weights every row votes for label index 0 |
| Voting.UniformTallyCountsSupporters | combinations.py:133 | with all-ones weights a label's vote sum is the number of models predicting it |
| Voting.MajorityIsPlurality | combinations.py:38-40 | the `majority` scheme (falsy weights turned into ones) picks the first label predicted by the most models |
| Voting.AccuracyWeights | combinations.py:154-161 | the `accuracy` weights have one entry per model, each between 0 and the number of calibration rows |
| Voting.CorrectCount | combinations.py:156-160 | a model is right on at most as many rows as were counted |
| Voting.AccuracyWeightBounds | combinations.py:154-161 | each accuracy weight is a whole number between 0 and the number of calibration rows |
| Voting.CountCorrect | combinations.py:156-160 | the counting loop gives, per model, the number of rows whose block equals the true one-hot row |
| Voting.FittedWeights | combinations.py:150-169 | `accuracy` gives one weight per model, between 0 and the number of calibration rows; `optimal` gives the optimiser's vector; every other scheme keeps the weights it had |
| Voting.Combinator.constructor | combinations.py:25-36 | stores scheme and weights, and whether a weight list was given at all, with zero labels and zero models |
| Voting.Combinator.Create | combinations.py:25-54 | `majority` drops the weights; `weights` without a list fails; otherwise the weights, or their absence, are kept |
| Voting.Combinator.FitEncoders | combinations.py:91-122 | `num_labels` is the number of distinct labels; on success `num_models` is the number of models and the rows and labels are encoded in the fit layout; empty input or an unknown label fails |
| Voting.Combinator.FindWeights | combinations.py:150-169 | `accuracy` sets the per-model correct counts, `optimal` the optimiser's vector (both leave a weight list in place), any other scheme leaves the weights as they were |
| Voting.Combinator.Fit | combinations.py:56-65 | succeeds exactly when labels are given, the input is non-empty, every prediction is a known label and, for a scheme other than `majority`, `weights`, `accuracy` and `optimal`, a weight list was given. Missing labels, empty input and unknown labels fail first; without weights such a scheme fails with InvalidArgument after the encoders have run (`len(None)`). Every failure leaves the weights. On success the codec is fitted and the weights are `FittedWeights` of the scheme |
| Voting.Combinator.Voting | combinations.py:124-148 | falsy weights are replaced by ones (a weight list then exists), and the result is `VoteRows` under the effective weights |
| Voting.Combinator.Transform | combinations.py:67-82 | succeeds exactly when the codec is fitted, every prediction is a known label, there is at least one sample, the input has `num_models` models and enough weights; then one label per sample, the vocabulary label of that sample's weighted-vote winner (fit layout; see Findings). Empty input, an unfitted codec and an unknown label fail with the weights untouched; a voting failure leaves the falsy weights replaced by ones |
| ExpertRule.Accuracy | combinations.py:320 | `accuracy_score` lies in [0, 1] |
| ExpertRule.Gather | combinations.py:313-316 | the neighbours' predictions / labels, one per neighbour |
| ExpertRule.LocalAccuracy | combinations.py:313-320 | a model's local accuracy lies in [0, 1] |
| ExpertRule.Accuracies | combinations.py:303-320 | one local accuracy per model |
| ExpertRule.Score | combinations.py:327 | with non-negative weights, a local accuracy and a confidence in [0, 1], the score `w[1]*acc + w[0]*proba` lies between 0 and `w[1] + w[0]` |
| ExpertRule.Experts | combinations.py:325-326 | every listed model is a valid index with local accuracy strictly above the threshold |
| ExpertRule.ExpertsOrderedComplete | combinations.py:325-326 | the eligible list is in model order and contains every model above the threshold |
| ExpertRule.ExpertScores | combinations.py:327 | one score per eligible model |
| ExpertRule.Chosen | combinations.py:329-344 | the model whose prediction is returned is one of the models |
| ExpertRule.Decide | combinations.py:329-344 | the returned label is always some model's own prediction for the sample |
| ExpertRule.BestExpert | combinations.py:329-340 | the first best-scoring entry of the eligible list is eligible, not beaten by any eligible model, and strictly above every earlier eligible model |
| ExpertRule.ExpertSelection | combinations.py:325-340 | when some model is eligible, the chosen model is eligible, has the highest score among eligible models, and every earlier eligible model scores strictly lower |
| ExpertRule.FallbackSelection | combinations.py:341-344 | when no model is eligible, the chosen model is the first of highest local accuracy |
| ExpertRule.HighThresholdFallsBack | combinations.py:325-344 | a threshold of 1 or more admits no model, so the answer is the first most locally accurate model's prediction |
| ExpertRule.FullNeighbourhoodIsGlobalAccuracy | combinations.py:313-320 | if the neighbours are the whole calibration set in any order, local accuracy equals global calibration accuracy |
| ExpertRule.AgreeCountPermutation | combinations.py:313-320 | the number of agreeing neighbours does not depend on the order the tree returns them in |
| SubSpace.Trunc | combinations.py:246 | `int(x)` truncates toward zero: the whole number less than 1 away from `x` on the side of zero |
| SubSpace.Round3 | combinations.py:252-254 | `round(x, 3)` gives a multiple of 0.001 within 0.0005 of `x`, and leaves a multiple of 0.001 as it is |
| SubSpace.Uniform | combinations.py:254 | `random.uniform(a, b)` with a draw in [0, 1] lies in [a, b] |
| SubSpace.Stage1Candidate | combinations.py:251-254 | a stage-1 list has `w[3] = 6`, `w0 + w1 = 1` and every entry a multiple of 0.001; with draws in [0, 1], `w0` lies in [0, 1] and `w2` in [0.2, 0.8] |
| SubSpace.Stage2Step | combinations.py:266-268 | a stage-2 trial keeps `w[3]`, `w0 + w1 = 1`, and every entry a multiple of 0.001 |
| SubSpace.Stage2StepBounds | combinations.py:266-268 | with draws in [0, 1], a trial moves `w0` by at most 0.1, and `w2` lands between the old `w2 - 0.1` and the new `w1 + 0.1`: the aliasing bound |
| SubSpace.Walk | combinations.py:265-270 | after at least one stage-2 trial the list satisfies `w0 + w1 = 1` with every entry a multiple of 0.001 |
| SubSpace.WalkStaysNear | combinations.py:265-270 | after `n` stage-2 trials with draws in [0, 1], `w0` is within `0.1·n` of where it started |
| SubSpace.SearchResult | combinations.py:262-275 | the tuned weights satisfy `w0 + w1 = 1`, with every entry a multiple of 0.001 |
| SubSpace.Stage1RecordBest | combinations.py:262 | the recorded stage-1 accuracies are those of the stage-1 candidates, and `index(max)` picks the first most accurate one |
| SubSpace.WalkKeepsNeighbourCount | combinations.py:266-269 | stage-2 trials never change `w[3]` |
| SubSpace.SearchKeepsNeighbourCount | combinations.py:251 | the tuned weights keep the neighbour count 6, so `k` becomes 6 |
| SubSpace.BlendWeights.constructor | combinations.py:262 | the mutable list holds the given stage-1 winner |
| SubSpace.Stage2Trial | combinations.py:266-269 | one in-place trial turns the shared list into `Stage2Step` of its old value; the `w2` draw reads the old `w2` and the freshly written `w1` |
| SubSpace.Stage2Advance | combinations.py:265-269 | one trial moves the shared list one step further along its walk, keeping `w[3]` |
| SubSpace.SubSpaceEnsemble.constructor | combinations.py:209-221 | stores the parameters, with no trees, predictions or labels |
| SubSpace.SubSpaceEnsemble.Create | combinations.py:201-221 | fails iff there are no models or no cv scores; otherwise the parameters are stored |
| SubSpace.SubSpaceEnsemble.NeighbourAccuracy | combinations.py:311-320 | the neighbour loop computes the model's local accuracy |
| SubSpace.SubSpaceEnsemble.SurveyModels | combinations.py:303-328 | the model pass collects every local accuracy, the eligible models in order, their scores and their predictions |
| SubSpace.SubSpaceEnsemble.Select | combinations.py:325-344 | once the trees have answered, the answer is `Decide`: the first best-scoring eligible model's prediction, else the first most locally accurate model's |
| SubSpace.SubSpaceEnsemble.ExpertFitDecision | combinations.py:294-344 | fails with TooFewPoints exactly when `w[3]` exceeds the number of calibration samples (the ball-tree query refuses it, line 308); otherwise the answer is `Decide`, the rule characterised by `ExpertSelection` / `FallbackSelection` |
| SubSpace.SubSpaceEnsemble.ExpertDecision | combinations.py:365-416 | fails with TooFewPoints exactly when the fitted `k` exceeds the number of calibration samples (line 379); otherwise the rule with the fitted weights |
| SubSpace.SubSpaceEnsemble.FindWeights | combinations.py:284-292 | fails with TooFewPoints exactly when there is a sample and `w[3]` exceeds the calibration size; otherwise one answer per calibration sample, in order, each the rule's decision |
| SubSpace.SubSpaceEnsemble.Predict | combinations.py:346-357 | with samples given, fails with NotFitted before `fit` and with TooFewPoints when the fitted `k` exceeds the calibration size; otherwise one answer per sample, in input order, each the rule's decision with the fitted weights |
| SubSpace.SubSpaceEnsemble.EvaluateCandidate | combinations.py:257-258 | fails with TooFewPoints exactly when the candidate's `w[3]` exceeds the calibration size; otherwise the accuracy of the rule run with the candidate over the calibration set |
| SubSpace.SubSpaceEnsemble.SearchStage1 | combinations.py:250-260 | fails with TooFewPoints exactly when there is a trial and fewer than 6 calibration samples; otherwise `int(rand_split*N_rand)` fresh candidates (none when that is not positive), each recorded with its calibration accuracy |
| SubSpace.SubSpaceEnsemble.Stage2Iteration | combinations.py:266-274 | one stage-2 trial advances the shared list one walk step; its evaluation fails exactly when the list's `w[3]` exceeds the calibration size, and otherwise records that list's accuracy |
| SubSpace.SubSpaceEnsemble.SearchStage2 | combinations.py:265-274 | from a stage-1 winner whose `w[3]` fits the calibration set, every stage-2 entry is the same list, which ends as the walk of `N_rand - N_rand1` trials from that winner, each trial recorded with its accuracy |
| SubSpace.SubSpaceEnsemble.Search | combinations.py:246-275 | succeeds exactly when both stages have trials and there are at least 6 calibration samples. With stage-1 trials and fewer samples the first query fails (TooFewPoints); with a stage empty, `max([])` fails (NoCandidates). The result is the stage-1 winner after all stage-2 trials, with `w[3] = 6` |
| SubSpace.SubSpaceEnsemble.Store | combinations.py:233-245 | one more ball tree per model; the calibration predictions and labels are stored |
| SubSpace.SubSpaceEnsemble.Calibrate | combinations.py:232-279 | stores the calibration record in every case; succeeds exactly when both stages have trials and there are at least 6 calibration samples, then sets the weights to the search result and `k` to 6; on failure (TooFewPoints or NoCandidates, as in `Search`) weights and `k` stay |
| SubSpace.SubSpaceEnsemble.Fit | combinations.py:223-282 | missing labels or no calibration samples fail with the state unchanged; otherwise as `Calibrate`: success exactly with both stages non-empty and at least 6 calibration samples |

## Left out

- The `optimal` scheme's optimiser (scipy SLSQP over floating point) and its objective `f`. Its result vector is a parameter of `Fit` and `FindWeights`.
- sklearn `LabelEncoder`/`OneHotEncoder` internals and numpy reshapes. The codec is modelled as its fitted vocabulary with the index/one-hot bijection.
- Ball-tree construction and queries, the models' feature transforms (`representations`) and sparse densification. Neighbour lists are inputs.
  - `trees` is modelled as a count only.
  - A second `fit` therefore does not capture that the source keeps querying the first fit's trees.
  - The length of the given neighbour lists is not tied to the neighbour count a query asks for (`w[3]` or `self.k`). Only the query's refusal of a count above the number of calibration samples is modelled, as TooFewPoints.
  - A neighbour count below 1 is treated as a query that succeeds.
- Base-model `predict` / `predict_proba` calls. Their outputs are inputs.
- `score` of both classes, the print statements and the timing calls.
- Floating point.
  - Weights and accuracies are exact reals.
  - `round(x, 3)` is modelled as rounding halves up.
  - `random.random()` draws are the parameter `rand`.
  - SubSpace.SubSpaceEnsemble.Search: `N_rand1 = int(rand_split * N_rand)` truncates the exact product. On floats the product can fall just below a whole number: 0.58 · 100 gives 57.99…, truncated to 57, while the exact product gives 58. In those cases the model's stage-1 and stage-2 trial counts differ from the source's by one.
- Voting.Combinator.Voting: a weight vector given as a numpy array is never replaced, even when empty. The model replaces every empty weight list by ones, as it does `None`.
- Error kinds: numpy/sklearn exceptions are collapsed into `Error` values.
  - A malformed row or too few weights becomes ShapeMismatch.
  - `max([])` becomes NoCandidates.
  - `len(None)` in `__init__`, and in `fit` for an unrecognised scheme without weights, becomes InvalidArgument.
  - A ball-tree query for more neighbours than calibration samples becomes TooFewPoints.
- Voting.Combinator.FitEncoders: requires every model to have exactly one prediction per label. This excludes ragged input, on which numpy fails. It also excludes rectangular input of the wrong length, which the source can accept silently: 2 models with 3 predictions each, 2 labels and 2 classes reshape to 2 rows of width 6, so `num_models` becomes 3. The model does not capture that mis-sized layout.
- Voting.Combinator.Transform: requires every model to have as many predictions as the first.
- SubSpace.SubSpaceEnsemble.Fit: requires `|y_true| == |X_cv|`. Otherwise the source fails inside `accuracy_score`.
- SubSpace.SubSpaceEnsemble.Fit: an empty `X_cv` is answered with EmptyInput and an unchanged state. The source fails at whichever first call rejects empty input: the first base model's `predict` (line 235), its feature transform (line 237) or the ball-tree construction (line 243). A failure after line 237 leaves one representation appended, which the model does not capture.
- SubSpace.SubSpaceEnsemble.SearchStage2: requires the stage-1 winner's `w[3]` not to exceed the calibration size. `Search` only reaches stage 2 after stage-1 queries with that same count (6) have succeeded, and the trials never change it.
- SubSpace.SubSpaceEnsemble.Create: `cv_scores` is only checked for being non-empty. The source stores it and never reads it.
- The `weights` arguments of both `fit` methods are unused in the source and are not modelled.
- The stage-1 candidate lists are built fresh, and stage 1 itself never mutates them, so they are modelled as values. When stage 1 ends, the winning list is copied into a `BlendWeights` object. Stage 2 mutates that object in place of the source's stage-1 list, which nothing reads again. The model does not keep the identity between that object and the stage-1 entry in `poss_w`.

## Findings

| source | as written | input that shows it | evidently intended | confidence | as-written member | corrected member |
|---|---|---|---|---|---|---|
| combinations.py:75-76 | `transform` flattens the model-by-sample prediction matrix without the transpose that `fit_encoders` applies at line 118. Row i is cut from entries i·M … i·M+M−1 of the model-major flattening, mixing models and samples. | two models, two samples, labels {0, 1}, model 0 predicts [0, 0], model 1 predicts [1, 1], weights [1, 0]: sample 1 votes for label 1 although the only weighted model predicts 0 | the fit-time layout, where row i holds every model's prediction for sample i | not executed | Voting.TransformLayoutMixesModels | Voting.Combinator.Transform |
