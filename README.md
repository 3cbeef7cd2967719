# BERT-ITE ranking evaluator and training skeleton, in Dafny

This project models the discrete core of the BERT-ITE recommender
(`src/model_bertIte_onehot_log_loss`). The tensor maths is left out. Four modules cover the rest:

- `Wrappers` (`wrappers.dfy`): `Option` and `Min`.
- `Ranking` (`ranking.dfy`): the ranking evaluator of `model_util.py`. It has four parts:
  - `get_hit_ratio` and `get_ndcg`, as loops with early return;
  - the per-user score map, which is an insertion-ordered dictionary from candidate item to rating;
  - `heapq.nlargest`, modelled as a stable descending insertion sort followed by a prefix;
  - the three `eval_one_rating` and three `evaluate_model` versions, including the per-K
    columns and their means. The mean of an empty list is `NaN`, as `numpy` gives it.
- `Attention` (`attention.dfy`): the integer and shape parts of `model.py`:
  - the expansion of the padding mask to a `T × T` matrix per example, and the `[:T, :T]` slice;
  - which score entries are blocked;
  - splitting the embedding into heads and merging them back;
  - the encoder input layout, with the user token at position 0.
- `Training` (`training.dfy`): `Manager.train_and_evaluate`, as a `Manager` class whose methods
  update a `Disk` object. It covers:
  - the run key and the checkpoint and log paths;
  - restoring a checkpoint;
  - the epoch loop and the batch loop;
  - the epoch loss `total_loss / n` written into the table rows;
  - the checkpoint written after every tenth epoch;
  - the result table, which is rewritten to the log after every row.

  The run is specified by ghost functions `EpochStep` and `RunTo` over a `RunState`. The methods
  are proved to follow them, and the schedule properties are lemmas about them.

Interfaces to the parts that are not modelled:

- The ratings the network predicts are a field of each test case.
- The NDCG discount `log 2 / log(i + 2)` is a parameter `disc` with `disc(0) == 1` and
  `0 < disc(i) <= 1`.
- The model and optimizer state is the history of optimizer updates applied to it.
- The loss of a batch, the size of each epoch's training set and the test cases the model
  rates are functions in an `Env` value.

The code has no guard against a fully masked attention row. The model follows the code: `Attention.FullyBlockedRows` shows that
an all-padding mask blocks every row of its example.

## Model

| member | source | states |
|---|---|---|
| Ranking.FirstIndex | src/model_bertIte_onehot_log_loss/model_util.py:15-18 | `None` exactly when the item is absent; otherwise an index holding the item with no earlier occurrence |
| Ranking.GetHitRatio | src/model_bertIte_onehot_log_loss/model_util.py:8-12 | returns 1.0 when the ground truth occurs in the rank list and 0 otherwise |
| Ranking.GetNdcg | src/model_bertIte_onehot_log_loss/model_util.py:14-19 | returns the discount at the 0-based index of the first occurrence of the ground truth, and 0 when it is absent |
| Ranking.NdcgAtTop | src/model_bertIte_onehot_log_loss/model_util.py:17-18 | a ground truth at position 0 gives NDCG 1 |
| Ranking.NdcgPositiveIffHit | src/model_bertIte_onehot_log_loss/model_util.py:8-19 | NDCG lies in [0, 1]; it is positive iff the hit ratio is 1, and 0 iff the hit ratio is 0 |
| Ranking.FirstIndexPrefix | src/model_bertIte_onehot_log_loss/model_util.py:15-18 | appending to a list that already holds the item does not move its first occurrence |
| Ranking.BuildScoreMap | src/model_bertIte_onehot_log_loss/model_util.py:121-125 | the filling loop builds the dictionary of the first `len(user_ids)` rows; it needs at least that many candidate items |
| Ranking.ScoreMapKeys | src/model_bertIte_onehot_log_loss/model_util.py:121-125 | the keys are distinct and are exactly the items of the rows read |
| Ranking.ScoreMapOrder | src/model_bertIte_onehot_log_loss/model_util.py:121-125 | the keys are in first-occurrence order: a duplicate keeps its first insertion position |
| Ranking.ScoreMapRatings | src/model_bertIte_onehot_log_loss/model_util.py:121-125 | each key holds the rating of its last occurrence |
| Ranking.SortDescRanked | src/model_bertIte_onehot_log_loss/model_util.py:129 | the sort orders keys by non-increasing rating, and ties keep dictionary order |
| Ranking.TopKShape | src/model_bertIte_onehot_log_loss/model_util.py:129 | the top-K list has length min(K, number of keys), holds only keys, and has no duplicates |
| Ranking.TopKOrdered | src/model_bertIte_onehot_log_loss/model_util.py:129 | ratings do not increase along the list, and equal ratings keep dictionary insertion order |
| Ranking.TopKDominates | src/model_bertIte_onehot_log_loss/model_util.py:129 | every key left out has a rating no greater than any listed rating |
| Ranking.TopKTieBreak | src/model_bertIte_onehot_log_loss/model_util.py:129 | a key left out with the same rating as a listed key comes later in insertion order |
| Ranking.TopKAll | src/model_bertIte_onehot_log_loss/model_util.py:129 | when K is at least the number of keys, the list is a permutation of the keys |
| Ranking.TopKPrefix | src/model_bertIte_onehot_log_loss/model_util.py:128-134 | for K1 <= K2, the top-K1 list is a prefix of the top-K2 list |
| Ranking.HitMonotone | src/model_bertIte_onehot_log_loss/model_util.py:128-134 | for K1 <= K2 the hit ratio does not decrease, and a hit at K1 keeps its NDCG at K2 |
| Ranking.TopKRankBound | src/model_bertIte_onehot_log_loss/model_util.py:129-132 | every key rated strictly above the ground truth is listed before it |
| Ranking.StrictBestIsTop | src/model_bertIte_onehot_log_loss/model_util.py:129-132 | a ground truth rated strictly above every other key heads the list, with hit 1 and NDCG 1 |
| Ranking.BeatenMissesTopOne | src/model_bertIte_onehot_log_loss/model_util.py:129-132 | a ground truth beaten by some key misses the top-1 list, with hit 0 and NDCG 0 |
| Ranking.RankOne | src/model_bertIte_onehot_log_loss/model_util.py:129-132 | the hit ratio and NDCG of the top-K list of the user's dictionary, against the last target id |
| Ranking.EvalOneRating | src/model_bertIte_onehot_log_loss/model_util.py:107-135 | eval_one_rating_ver3: the two result lists are the user's per-K hit ratios and NDCGs, in `top_k` order |
| Ranking.EvalOneRatingV2 | src/model_bertIte_onehot_log_loss/model_util.py:64-87 | eval_one_rating_ver2: the single-K case of ver3, with the last target id as ground truth |
| Ranking.EvalOneRatingV1 | src/model_bertIte_onehot_log_loss/model_util.py:30-52 | eval_one_rating_ver1: the single-K case, with `target_ids[0][-1]` as ground truth |
| Ranking.UserResultsMonotone | src/model_bertIte_onehot_log_loss/model_util.py:127-135 | within one user's lists, a larger K has a hit ratio at least as high, and a hit keeps its NDCG |
| Ranking.AppendRow | src/model_bertIte_onehot_log_loss/model_util.py:99-101 | appends the user's i-th values to column i for every i |
| Ranking.EmptyColumns | src/model_bertIte_onehot_log_loss/model_util.py:92-94 | one empty column per K |
| Ranking.ColumnMeans | src/model_bertIte_onehot_log_loss/model_util.py:102-104 | entry i is the mean of column i |
| Ranking.EvaluateModel | src/model_bertIte_onehot_log_loss/model_util.py:89-105 | evaluate_model_ver3: two lists of length `len(top_k)`; entry i is the mean over all users of their i-th value |
| Ranking.EvaluateModelV2 | src/model_bertIte_onehot_log_loss/model_util.py:54-62 | evaluate_model_ver2: the means over all users of the single-K hit ratio and NDCG |
| Ranking.EvaluateModelV1 | src/model_bertIte_onehot_log_loss/model_util.py:21-28 | evaluate_model_ver1: as ver2, with each user ranked against the last id of their first target row |
| Ranking.MeanInUnitInterval | src/model_bertIte_onehot_log_loss/model_util.py:103-104 | the mean of a non-empty list of values in [0, 1] is a number in [0, 1] |
| Ranking.MeansInUnitInterval | src/model_bertIte_onehot_log_loss/model_util.py:89-105 | with at least one user every per-K mean lies in [0, 1]; with none every mean is NaN |
| Ranking.HitMeanMonotone | src/model_bertIte_onehot_log_loss/model_util.py:89-105 | the mean hit ratio does not decrease from a smaller K to a larger one |
| Attention.ExpandMaskSpec | src/model_bertIte_onehot_log_loss/model.py:45-48 | the expansion succeeds iff every mask row has length T, and then gives `E[b][0][i][j] == mask[b][j]` for every query row i |
| Attention.CropIsNoOp | src/model_bertIte_onehot_log_loss/model.py:58 | the `[:, :, :T, :T]` slice of an expanded mask is the mask itself |
| Attention.BlockedIffPadding | src/model_bertIte_onehot_log_loss/model.py:45-58 | score entry (i, j) of example b is blocked iff `mask[b][j] == 0` |
| Attention.FullyBlockedRows | src/model_bertIte_onehot_log_loss/model.py:45-60 | some score row of example b is fully blocked iff its mask is all padding (and T > 0); then every row is |
| Attention.NoPaddingNoBlock | src/model_bertIte_onehot_log_loss/model.py:45-58 | a mask without padding blocks no entry |
| Attention.HeadWidth | src/model_bertIte_onehot_log_loss/model.py:28 | construction succeeds iff `n_embd % n_head == 0`, and then `n_head` heads of the width give `n_embd` |
| Attention.ConcatChunks | src/model_bertIte_onehot_log_loss/model.py:51-63 | cutting a vector into equal chunks and joining them gives the vector back |
| Attention.ChunksConcat | src/model_bertIte_onehot_log_loss/model.py:51-63 | joining equal chunks and cutting them again gives the chunks back |
| Attention.MergeSplit | src/model_bertIte_onehot_log_loss/model.py:51-63 | splitting the embedding into heads and merging them back is the identity |
| Attention.SplitMerge | src/model_bertIte_onehot_log_loss/model.py:51-63 | merging heads and splitting them again is the identity |
| Attention.RunBlocksLength | src/model_bertIte_onehot_log_loss/model.py:125-126 | a stack of blocks that each keep the number of positions keeps it, so every block sees the encoder input's width T |
| Attention.EncoderInputLayout | src/model_bertIte_onehot_log_loss/model.py:117-128 | with ids in range the input has length 1 + item count, with the user's embedding at position 0 and item p's at position p + 1; the block stack's output keeps 1 + item count positions and the user representation is read from it at the user token's position, equal to the raw user embedding when there are no blocks |
| Attention.LookupFailsOutside | src/model_bertIte_onehot_log_loss/model.py:117-122 | an id outside its table makes the lookup fail |
| Attention.MaskMatchesLayout | src/model_bertIte_onehot_log_loss/model.py:123-126 | for T the length of the encoder input, T is 1 + item count and the mask expands at T iff every mask row has length 1 + item count |
| Training.DecimalRoundTrip | src/model_bertIte_onehot_log_loss/model.py:175-176 | reading the printed digits of a number gives the number back |
| Training.RunKeyFields | src/model_bertIte_onehot_log_loss/model.py:175-176 | the run key splits at its underscores into the four hyperparameters |
| Training.RunKeyInjective | src/model_bertIte_onehot_log_loss/model.py:175-176 | two configurations have the same run key iff they are equal, so runs whose (num_factor, batch_size, eta, lr) differ never share a checkpoint or a fresh log |
| Training.Manager.ResumedLogPaths | src/model_bertIte_onehot_log_loss/model.py:176-185 | a restored run's log path is never the fresh run's log path, and different restored epochs give different paths |
| Training.BatchSizesSpec | src/model_bertIte_onehot_log_loss/model.py:218-221 | the batches cover the data exactly once; each holds between 1 and `batch_size` rows, and only the last can be short |
| Training.ReportedLossDivisor | src/model_bertIte_onehot_log_loss/model.py:222-257 | the divisor `len // batch_size` is one less than the batch count when the last batch is short, and 0 exactly when the data is smaller than one batch |
| Training.Manager.TrainEpoch | src/model_bertIte_onehot_log_loss/model.py:227-255 | the batch loop applies one update per batch in order and sums each batch's loss, taken before that batch's step |
| Training.Disk.SaveCheckpoint | src/model_bertIte_onehot_log_loss/model.py:260-265 | the checkpoint replaces whatever the path held; the logs are unchanged |
| Training.Disk.WriteLog | src/model_bertIte_onehot_log_loss/model.py:278-279 | the log file holds the whole table, replacing its previous content |
| Training.Manager.AppendResults | src/model_bertIte_onehot_log_loss/model.py:273-279 | appends one row per K in `[5, 10, 20, 30, 40, 50]` order, and the log then holds the extended table |
| Training.Manager.Evaluate | src/model_bertIte_onehot_log_loss/model.py:269-279 | the rows appended are the per-K means evaluate_model_ver3 gives for the model's ratings |
| Training.Manager.RunEpoch | src/model_bertIte_onehot_log_loss/model.py:208-281 | one epoch moves the run state as `EpochStep` says; the checkpoint and the log are rewritten exactly when the epoch finishes and is a save epoch, and the disk is otherwise unchanged |
| Training.Manager.RunEpochs | src/model_bertIte_onehot_log_loss/model.py:208-281 | the epoch loop ends in the state `RunTo` gives; the disk holds its last checkpoint and its table |
| Training.Manager.TrainAndEvaluate | src/model_bertIte_onehot_log_loss/model.py:175-281 | a missing checkpoint on restore fails and changes nothing; otherwise the run starts at `epoch_ii + 1` from the restored or fresh state, and the disk ends as the run specification says |
| Training.RunToStopped | src/model_bertIte_onehot_log_loss/model.py:208-257 | once an exception stops the run, later epochs change nothing |
| Training.SaveEpochsSpec | src/model_bertIte_onehot_log_loss/model.py:258 | checkpoints are written exactly after the epochs e in range with `(e + 1) % 10 == 0`, in increasing order |
| Training.SaveEpochsSplit | src/model_bertIte_onehot_log_loss/model.py:208-258 | the checkpoint schedule of a range is the schedule of its two halves, one after the other |
| Training.SaveEpochsDecade | src/model_bertIte_onehot_log_loss/model.py:258 | each block of ten epochs starting at a multiple of ten holds exactly one checkpoint, its last epoch |
| Training.SaveEpochsCount | src/model_bertIte_onehot_log_loss/model.py:208-258 | the first 10k epochs write k checkpoints |
| Training.SaveEpochsLast | src/model_bertIte_onehot_log_loss/model.py:208-258 | the last checkpoint of the first 10k epochs is the one after epoch 10k - 1 |
| Training.ParamsAfterSplit | src/model_bertIte_onehot_log_loss/model.py:208-254 | training one range of epochs and then the next is the same as training both ranges |
| Training.RunShape | src/model_bertIte_onehot_log_loss/model.py:192-276 | without an exception: epochs run in order; checkpoints are written exactly at the save epochs; the table has 1 + 6(c + 1) rows after c checkpoints; the last checkpoint holds the last save epoch and the parameters after it |
| Training.FreshRun | src/model_bertIte_onehot_log_loss/model.py:177-276 | a fresh run writes 20 checkpoints, the last for epoch 199, and ends with 127 table rows |
| Training.ResumeMatchesFresh | src/model_bertIte_onehot_log_loss/model.py:177-265 | resuming from the checkpoint of save epoch c starts at c + 1 and applies the same per-epoch, per-batch update sequence as an uninterrupted run; no epoch is repeated or skipped, and its checkpoints complete the schedule |

## Left out

- Tensor numerics are left out because they are floating-point library code. They are:
  - the network's forward pass: embeddings as values, projections, scaled dot product,
    softmax with `-inf`, dropout, LayerNorm, GELU and the sigmoid heads;
  - the loss (`compute_loss`) and `loss.backward()`;
  - Adam.

  The ratings of a test user, the loss of a batch and the effect of an optimizer step are inputs
  to the model.
- Actual NDCG values are left out. The discount `log 2 / log(i + 2)` is an abstract `disc` with
  `disc(0) == 1` and `0 < disc(i) <= 1`.
- I/O and foreign calls are left out:
  - `torch.save` and `torch.load` formats, `open(...).write` and `AsciiTable` rendering are
    modelled as whole-value replacement in the `Disk` maps;
  - `print`, `progressbar`, `tqdm` and `.to(device)` and the numpy conversions are not modelled.
- `Data_Utils` and `config` are not part of this model:
  - test data preprocessing, training data per epoch, and the configuration object are not
    modelled;
  - each epoch's training-set size is an input;
  - the test cases are a function of the parameters.
- `eta` and `lr` are given as the strings that formatting produces. It is assumed that they hold
  no underscore. Float formatting itself is not modelled.
- The model's random initialisation is not modelled. A fresh model is the empty update history.
- `TrainAndEvaluate` treats checkpoint and log paths as separate namespaces. A collision between
  a checkpoint and a log file when `saved_model_path` and `log_path` coincide is not modelled.
- `root_path` only locates the training and test data and the configuration (`train_path`,
  the test files and `config.Config`), and `Data_Utils` and `config` are not part of this model. The `save_log` and
  `save_model` arguments of `Manager.__init__` are not modelled, since nothing reads them.
- RunKeyInjective: the run key omits every configuration field other than num_factor, batch_size,
  eta and lr (n_layer, n_head, reg_lambda, the dropout rates) and omits `root_path`. Runs that
  differ only in those fields, under the same `saved_model_path`, share a checkpoint path and a
  fresh log path, and with `restore` on the second loads the first's checkpoint. The model's
  `Config` holds only the four key fields, so it does not capture this collision.
- The attention maths after masking is not modelled. There is no fallback for a fully masked
  row, because the code has none; only the condition for one is stated.
- ResumeMatchesFresh: states that a resumed run applies the same update sequence as an
  uninterrupted run, not that it reaches the same weights. The source's resumed run differs
  numerically in three ways, none of them modelled:
  - dropout draws random masks in `model.train()` mode;
  - the training data is regenerated each epoch;
  - the checkpoint does not save the random generator's state.
- A user with a single candidate row is not modelled as a failure. In the source, `squeeze`
  turns that user's ratings into a 0-d array, and `rating[i]` then raises `IndexError` in each
  evaluator. The model returns a hit ratio and NDCG for such a user.
- `Manager.__init__` defaults `restore` to `True`. The model's constructor takes `restore`
  explicitly. A default `Manager` on a disk with no checkpoint ends in `MissingCheckpoint`.
- The block stack is a sequence of length-keeping functions on positions. What a block computes
  is not modelled.
- An external interruption of a run is not modelled as an event. It appears only in
  `ResumeMatchesFresh`, which relates a run resumed from an intermediate checkpoint to an
  uninterrupted one.
- `DataLoader` internals are not modelled beyond the sizes and order of the batches a
  sequential sampler yields.
- The printed loss line is not modelled. Its divisor is stated by `ReportedLossDivisor`, and the
  same `total_loss / n` value goes into the table rows.
- The 32- and 64-bit widths of tensor indices and of `epoch` are not modelled. All integers are
  unbounded, which matches Python's `int` for everything the model computes.
