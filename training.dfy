/** The control skeleton of Manager.train_and_evaluate in model.py: run-key paths, the resume
    decision, the epoch and batch loops, the checkpoint interval and the cumulative result table.
    Tensor numerics are parameters: the loss of a batch and the test ratings are functions of the
    model parameters, which are represented by the history of optimizer updates applied to them. */
module Training {
  import opened Wrappers
  import Ranking

  /** The fixed epoch budget. */
  const Epochs: int := 200

  /** A checkpoint is written after every tenth epoch. */
  const SaveEvery: int := 10

  /** The K values evaluated at initialisation and at every checkpoint. */
  const TopKs: seq<nat> := [5, 10, 20, 30, 40, 50]

  // ---------------------------------------------------------------------------
  // Run keys and paths: f'{num_factor}_{batch_size}_{eta}_{lr}'
  // ---------------------------------------------------------------------------

  /** The hyperparameters that key a run. `eta` and `lr` are floats in the source; here they are
      the strings Python's formatting gives them, which never hold an underscore. */
  datatype Config = Config(numFactor: nat, batchSize: nat, eta: string, lr: string)

  function DigitChar(d: nat): char
    requires d < 10
  {
    ('0' as int + d) as char
  }

  /** str(n) for a non-negative integer: decimal digits, no leading zeros. */
  function Decimal(n: nat): (s: string)
    ensures |s| > 0 && forall i | 0 <= i < |s| :: '0' <= s[i] <= '9'
  {
    if n < 10 then [DigitChar(n)] else Decimal(n / 10) + [DigitChar(n % 10)]
  }

  /** The value of a string of decimal digits. */
  function ParseDecimal(s: string): nat
  {
    if s == [] then 0
    else
      var c := s[|s| - 1];
      10 * ParseDecimal(s[..|s| - 1]) + (if '0' <= c <= '9' then c as int - '0' as int else 0)
  }

  /** Reading the digits back gives the number, so different numbers print differently. */
  lemma {:induction false} DecimalRoundTrip(n: nat)
    ensures ParseDecimal(Decimal(n)) == n
  {
    if n >= 10 {
      DecimalRoundTrip(n / 10);
      var s := Decimal(n);
      assert s[..|s| - 1] == Decimal(n / 10);
    }
  }

  /** str(i) for any integer. */
  function IntString(i: int): string
  {
    if i < 0 then "-" + Decimal(-i) else Decimal(i)
  }

  /** The run key shared by the checkpoint and the log path. */
  function RunKey(cf: Config): string
  {
    Decimal(cf.numFactor) + "_" + (Decimal(cf.batchSize) + "_" + (cf.eta + "_" + cf.lr))
  }

  /** Splitting a string at every underscore. */
  function Fields(s: string): (r: seq<string>)
    ensures |r| > 0
  {
    if s == [] then [""]
    else
      var rest := Fields(s[1..]);
      if s[0] == '_' then [""] + rest else [[s[0]] + rest[0]] + rest[1..]
  }

  lemma {:induction false} FieldsPlain(x: string)
    requires '_' !in x
    ensures Fields(x) == [x]
  {
    if x != [] {
      assert '_' !in x[1..] by { assert forall c | c in x[1..] :: c in x; }
      FieldsPlain(x[1..]);
      assert [x[0]] + x[1..] == x;
    }
  }

  lemma {:induction false} FieldsJoin(x: string, y: string)
    requires '_' !in x
    ensures Fields(x + "_" + y) == [x] + Fields(y)
  {
    if x == [] {
      assert x + "_" + y == "_" + y;
      assert ("_" + y)[1..] == y;
    } else {
      assert '_' !in x[1..] by { assert forall c | c in x[1..] :: c in x; }
      FieldsJoin(x[1..], y);
      assert (x + "_" + y)[1..] == x[1..] + "_" + y;
      assert [x[0]] + x[1..] == x;
    }
  }

  lemma DigitsHaveNoUnderscore(n: nat)
    ensures '_' !in Decimal(n)
  {
    var s := Decimal(n);
    forall i | 0 <= i < |s| ensures s[i] != '_' {
    }
  }

  /** The key splits back into its four parts. */
  lemma RunKeyFields(cf: Config)
    requires '_' !in cf.eta && '_' !in cf.lr
    ensures Fields(RunKey(cf)) == [Decimal(cf.numFactor), Decimal(cf.batchSize), cf.eta, cf.lr]
  {
    DigitsHaveNoUnderscore(cf.numFactor);
    DigitsHaveNoUnderscore(cf.batchSize);
    FieldsPlain(cf.lr);
    FieldsJoin(cf.eta, cf.lr);
    FieldsJoin(Decimal(cf.batchSize), cf.eta + "_" + cf.lr);
    assert Decimal(cf.batchSize) + "_" + (cf.eta + "_" + cf.lr) == Decimal(cf.batchSize) + "_" + cf.eta + "_" + cf.lr;
    FieldsJoin(Decimal(cf.numFactor), Decimal(cf.batchSize) + "_" + (cf.eta + "_" + cf.lr));
  }

  /** Distinct (num_factor, batch_size, eta, lr) tuples give distinct run keys, so runs that differ
      in one of those four fields never share a checkpoint or a fresh log. */
  lemma RunKeyInjective(cf1: Config, cf2: Config)
    requires '_' !in cf1.eta && '_' !in cf1.lr && '_' !in cf2.eta && '_' !in cf2.lr
    ensures RunKey(cf1) == RunKey(cf2) <==> cf1 == cf2
  {
    if RunKey(cf1) == RunKey(cf2) {
      RunKeyFields(cf1);
      RunKeyFields(cf2);
      DecimalRoundTrip(cf1.numFactor);
      DecimalRoundTrip(cf2.numFactor);
      DecimalRoundTrip(cf1.batchSize);
      DecimalRoundTrip(cf2.batchSize);
    }
  }

  // ---------------------------------------------------------------------------
  // Model state, checkpoints, the result table and the files
  // ---------------------------------------------------------------------------

  /** One optimizer step: the `step`-th batch (counted from 1) of an epoch. */
  datatype Update = Update(epoch: int, step: nat)

  /** Model and optimizer state, represented by the updates applied since initialisation. */
  type Params = seq<Update>

  /** {'epoch', 'model_state_dict', 'optimizer_state_dict', 'loss'}. */
  datatype Checkpoint = Checkpoint(epoch: int, params: Params, loss: real)

  /** A row of eval_result_data: the header, or [epoch, train loss, K, hit, NDCG]. */
  datatype Row = Header | Row(epoch: int, loss: real, topK: nat, hit: Ranking.Mean, ndcg: Ranking.Mean)

  /** How a run ends: normally, or with the exception that stops it. */
  datatype Outcome =
    | Finished
    | MissingCheckpoint        // torch.load of an absent checkpoint
    | InvalidBatchSize(epoch: int)  // DataLoader rejects batch_size 0
    | ZeroDivision(epoch: int)      // total_loss / n with n == len(train_data) // batch_size == 0

  /** The files the run reads and overwrites: checkpoints (torch.save/torch.load) and logs, whose
      content is the table rendered in full at every write. */
  class Disk {
    var checkpoints: map<string, Checkpoint>
    var logs: map<string, seq<Row>>

    constructor (checkpoints: map<string, Checkpoint>, logs: map<string, seq<Row>>)
      ensures this.checkpoints == checkpoints && this.logs == logs
    {
      this.checkpoints := checkpoints;
      this.logs := logs;
    }

    /** torch.save(..., path): replaces whatever the path held. */
    method SaveCheckpoint(path: string, c: Checkpoint)
      modifies this
      ensures checkpoints == old(checkpoints)[path := c] && logs == old(logs)
    {
      checkpoints := checkpoints[path := c];
    }

    /** open(path, "w").write(table): the whole table, replacing the previous content. */
    method WriteLog(path: string, table: seq<Row>)
      modifies this
      ensures logs == old(logs)[path := table] && checkpoints == old(checkpoints)
    {
      logs := logs[path := table];
    }
  }

  // ---------------------------------------------------------------------------
  // The specification of a run
  // ---------------------------------------------------------------------------

  /** What the run consumes but does not compute: the size of each epoch's preprocessed training
      set, the loss of a batch given the current parameters, the test cases rated by the model
      with the given parameters, and the NDCG discount. */
  datatype Env = Env(
    trainSize: int -> nat,
    lossAt: (Params, Update) -> real,
    casesAt: Params -> seq<Ranking.TestCase>,
    disc: nat -> real)

  /** Every test set the model could be evaluated on is well formed. */
  ghost predicate ValidEnv(env: Env)
  {
    forall p :: Ranking.AllWellFormed(env.casesAt(p))
  }

  /** (e + 1) % 10 == 0; Python's % and Dafny's agree for a positive divisor. */
  predicate IsSaveEpoch(e: int)
  {
    (e + 1) % SaveEvery == 0
  }

  /** The sizes of the batches a DataLoader with a sequential sampler and no drop_last yields:
      full batches in order, the last one possibly short. */
  function BatchSizes(size: nat, batchSize: nat): seq<nat>
    requires batchSize > 0
    decreases size
  {
    if size == 0 then []
    else if size <= batchSize then [size]
    else [batchSize] + BatchSizes(size - batchSize, batchSize)
  }

  /** len(train_dataloader). */
  function Batches(size: nat, batchSize: nat): nat
    requires batchSize > 0
  {
    |BatchSizes(size, batchSize)|
  }

  function Total(s: seq<nat>): nat
  {
    if s == [] then 0 else s[0] + Total(s[1..])
  }

  /** The batches cover the data exactly once: every batch is non-empty and at most batch_size
      long, and only the last one can be short. */
  lemma {:induction false} BatchSizesSpec(size: nat, batchSize: nat)
    requires batchSize > 0
    ensures Total(BatchSizes(size, batchSize)) == size
    ensures forall i | 0 <= i < |BatchSizes(size, batchSize)| :: 0 < BatchSizes(size, batchSize)[i] <= batchSize
    ensures forall i | 0 <= i < |BatchSizes(size, batchSize)| - 1 :: BatchSizes(size, batchSize)[i] == batchSize
    decreases size
  {
    if size > batchSize {
      BatchSizesSpec(size - batchSize, batchSize);
    }
  }

  /** The updates of the first k batches of epoch e. */
  function EpochUpdates(e: int, k: nat): (u: seq<Update>)
    ensures |u| == k && forall i | 0 <= i < k :: u[i] == Update(e, i + 1)
  {
    seq(k, i requires 0 <= i < k => Update(e, i + 1))
  }

  /** total_loss after the first k batches of epoch e, starting from parameters p: each batch's
      loss is taken before its own optimizer step. */
  function LossSum(p: Params, e: int, k: nat, lossAt: (Params, Update) -> real): real
  {
    if k == 0 then 0.0 else LossSum(p, e, k - 1, lossAt) + lossAt(p + EpochUpdates(e, k - 1), Update(e, k))
  }

  /** One table row per K: zip(top_k, lst_ex_hit, lst_ex_ndcg). */
  function ResultRows(tag: int, loss: real, hits: seq<Ranking.Mean>, ndcgs: seq<Ranking.Mean>): (rows: seq<Row>)
    requires |hits| == |TopKs| && |ndcgs| == |TopKs|
    ensures |rows| == |TopKs|
  {
    seq(|TopKs|, i requires 0 <= i < |TopKs| => Row(tag, loss, TopKs[i], hits[i], ndcgs[i]))
  }

  /** The per-K means evaluate_model_ver3 returns for a test set. */
  function MeanHits(data: seq<Ranking.TestCase>): seq<Ranking.Mean>
    requires Ranking.AllWellFormed(data)
  {
    seq(|TopKs|, i requires 0 <= i < |TopKs| => Ranking.MeanOf(Ranking.HitColumn(data, TopKs, i)))
  }

  function MeanNdcgs(data: seq<Ranking.TestCase>, disc: nat -> real): seq<Ranking.Mean>
    requires Ranking.AllWellFormed(data)
  {
    seq(|TopKs|, i requires 0 <= i < |TopKs| => Ranking.MeanOf(Ranking.NdcgColumn(data, TopKs, disc, i)))
  }

  /** The rows an evaluation of the model with parameters p adds to the table. */
  ghost function EvalRows(tag: int, loss: real, p: Params, env: Env): seq<Row>
    requires ValidEnv(env)
  {
    var data := env.casesAt(p);
    ResultRows(tag, loss, MeanHits(data), MeanNdcgs(data, env.disc))
  }

  /** The run's variables: parameters, the table, the last checkpoint it wrote, the epochs it
      wrote checkpoints for, and whether an exception has stopped it. */
  datatype RunState = RunState(params: Params, table: seq<Row>, ckpt: Option<Checkpoint>, saves: seq<int>, outcome: Outcome)

  /** The state before the first epoch: the header and the rows of the evaluation at initialisation,
      labelled epoch 0 and loss 0 even when the parameters were restored. */
  ghost function InitState(p: Params, env: Env): RunState
    requires ValidEnv(env)
  {
    RunState(p, [Header] + EvalRows(0, 0.0, p, env), None, [], Finished)
  }

  /** One iteration of the epoch loop. */
  ghost function EpochStep(s: RunState, e: int, batchSize: nat, env: Env): RunState
    requires ValidEnv(env)
  {
    if !s.outcome.Finished? then s
    else if batchSize == 0 then s.(outcome := InvalidBatchSize(e))
    else
      var nb := Batches(env.trainSize(e), batchSize);
      var p := s.params + EpochUpdates(e, nb);
      var total := LossSum(s.params, e, nb, env.lossAt);
      var n := env.trainSize(e) / batchSize;
      if n == 0 then s.(params := p, outcome := ZeroDivision(e))
      else if IsSaveEpoch(e) then
        RunState(p, s.table + EvalRows(e + 1, total / n as real, p, env), Some(Checkpoint(e, p, total)), s.saves + [e], Finished)
      else s.(params := p)
  }

  /** The state after the epochs start .. e - 1. */
  ghost function RunTo(s0: RunState, start: int, e: int, batchSize: nat, env: Env): RunState
    requires ValidEnv(env)
    decreases e - start
  {
    if e <= start then s0 else EpochStep(RunTo(s0, start, e - 1, batchSize, env), e - 1, batchSize, env)
  }

  /** Once an exception has stopped the run, later epochs change nothing. */
  lemma {:induction false} RunToStopped(s0: RunState, start: int, e: int, e': int, batchSize: nat, env: Env)
    requires ValidEnv(env) && e <= e'
    requires !RunTo(s0, start, e, batchSize, env).outcome.Finished?
    ensures RunTo(s0, start, e', batchSize, env) == RunTo(s0, start, e, batchSize, env)
    decreases e' - e
  {
    if e < e' {
      RunToStopped(s0, start, e, e' - 1, batchSize, env);
      if e' - 1 < start {
        assert RunTo(s0, start, e', batchSize, env) == s0;
      }
    }
  }

  // ---------------------------------------------------------------------------
  // The checkpoint schedule
  // ---------------------------------------------------------------------------

  /** The epochs in [a, b) after which a checkpoint is written, in increasing order. */
  function SaveEpochs(a: int, b: int): (r: seq<int>)
    decreases b - a
  {
    if b <= a then [] else SaveEpochs(a, b - 1) + (if IsSaveEpoch(b - 1) then [b - 1] else [])
  }

  /** Exactly the epochs e in [a, b) with (e + 1) % 10 == 0, each once, in increasing order. */
  lemma {:induction false} SaveEpochsSpec(a: int, b: int)
    ensures forall x :: x in SaveEpochs(a, b) <==> a <= x < b && IsSaveEpoch(x)
    ensures forall i, j | 0 <= i < j < |SaveEpochs(a, b)| :: SaveEpochs(a, b)[i] < SaveEpochs(a, b)[j]
    decreases b - a
  {
    if b > a {
      SaveEpochsSpec(a, b - 1);
      var s := SaveEpochs(a, b - 1);
      assert forall i | 0 <= i < |s| :: s[i] < b - 1 by {
        forall i | 0 <= i < |s| ensures s[i] < b - 1 { assert s[i] in s; }
      }
    }
  }

  /** A run resumed at m continues the schedule of a run that began at a: nothing repeated, nothing skipped. */
  lemma {:induction false} SaveEpochsSplit(a: int, m: int, b: int)
    requires a <= m <= b
    ensures SaveEpochs(a, m) + SaveEpochs(m, b) == SaveEpochs(a, b)
    decreases b - m
  {
    if b > m {
      SaveEpochsSplit(a, m, b - 1);
    }
  }

  /** No save epoch in [a, b) means no checkpoint there. */
  lemma {:induction false} SaveEpochsNone(a: int, b: int)
    requires forall x | a <= x < b :: !IsSaveEpoch(x)
    ensures SaveEpochs(a, b) == []
    decreases b - a
  {
    if b > a {
      SaveEpochsNone(a, b - 1);
    }
  }

  /** Ten consecutive epochs from a multiple of ten hold exactly one checkpoint, the last. */
  lemma SaveEpochsDecade(k: nat)
    ensures SaveEpochs(10 * k, 10 * k + 10) == [10 * k + 9]
  {
    var a := 10 * k;
    forall x | a <= x < a + 9 ensures !IsSaveEpoch(x) {
      var j := x + 1 - a;
      assert x + 1 == 10 * k + j && 0 < j < 10;
    }
    SaveEpochsNone(a, a + 9);
    assert (a + 10) % 10 == 0;
  }

  /** The first 10k epochs write k checkpoints; a fresh run of 200 epochs writes 20. */
  lemma {:induction false} SaveEpochsCount(k: nat)
    ensures |SaveEpochs(0, 10 * k)| == k
  {
    if k > 0 {
      SaveEpochsCount(k - 1);
      SaveEpochsSplit(0, 10 * (k - 1), 10 * k);
      SaveEpochsDecade(k - 1);
    }
  }

  // ---------------------------------------------------------------------------
  // Properties of the run
  // ---------------------------------------------------------------------------

  /** The parameters after training epochs a .. b - 1 from p, each epoch's batches in order. */
  function ParamsAfter(p: Params, a: int, b: int, batchSize: nat, trainSize: int -> nat): Params
    requires batchSize > 0
    decreases b - a
  {
    if b <= a then p
    else ParamsAfter(p, a, b - 1, batchSize, trainSize) + EpochUpdates(b - 1, Batches(trainSize(b - 1), batchSize))
  }

  /** Training a .. m - 1 and then m .. b - 1 is training a .. b - 1. */
  lemma {:induction false} ParamsAfterSplit(p: Params, a: int, m: int, b: int, batchSize: nat, trainSize: int -> nat)
    requires batchSize > 0 && a <= m <= b
    ensures ParamsAfter(ParamsAfter(p, a, m, batchSize, trainSize), m, b, batchSize, trainSize)
            == ParamsAfter(p, a, b, batchSize, trainSize)
    decreases b - m
  {
    if b > m {
      ParamsAfterSplit(p, a, m, b - 1, batchSize, trainSize);
    }
  }

  /** Every epoch's data fills at least one whole batch, so no exception stops the run. */
  ghost predicate NoCrash(batchSize: nat, env: Env)
  {
    batchSize > 0 && forall e :: env.trainSize(e) >= batchSize
  }

  /** Without an exception: the run finishes, the parameters have seen epochs start .. e - 1 in
      order, checkpoints were written exactly after the save epochs, the table grew by one row per K
      per checkpoint, and the last checkpoint holds the last save epoch and the parameters then. */
  lemma {:induction false} RunShape(p0: Params, start: int, e: int, batchSize: nat, env: Env)
    requires ValidEnv(env) && NoCrash(batchSize, env)
    ensures var r := RunTo(InitState(p0, env), start, e, batchSize, env);
            var saves := SaveEpochs(start, e);
            r.outcome.Finished?
            && r.params == ParamsAfter(p0, start, e, batchSize, env.trainSize)
            && r.saves == saves
            && |r.table| == 1 + 6 * (1 + |saves|)
            && (r.ckpt.Some? <==> |saves| > 0)
            && (r.ckpt.Some? ==>
                  r.ckpt.value.epoch == saves[|saves| - 1]
                  && r.ckpt.value.params == ParamsAfter(p0, start, saves[|saves| - 1] + 1, batchSize, env.trainSize))
    decreases e - start
  {
    assert |TopKs| == 6;
    if e > start {
      RunShape(p0, start, e - 1, batchSize, env);
      assert env.trainSize(e - 1) >= batchSize;
      assert env.trainSize(e - 1) / batchSize > 0;
    }
  }

  /** The first 10k epochs write their last checkpoint after epoch 10k - 1. */
  lemma SaveEpochsLast(k: nat)
    requires k > 0
    ensures |SaveEpochs(0, 10 * k)| == k && SaveEpochs(0, 10 * k)[k - 1] == 10 * k - 1
  {
    SaveEpochsCount(k);
    SaveEpochsSplit(0, 10 * (k - 1), 10 * k);
    SaveEpochsDecade(k - 1);
  }

  /** A fresh run finishes with a table of 1 + 6 * 21 rows and a checkpoint of epoch 199. */
  lemma FreshRun(batchSize: nat, env: Env)
    requires ValidEnv(env) && NoCrash(batchSize, env)
    ensures var r := RunTo(InitState([], env), 0, Epochs, batchSize, env);
            r.outcome.Finished? && |r.saves| == 20 && |r.table| == 127
            && r.ckpt.Some? && r.ckpt.value.epoch == Epochs - 1
  {
    RunShape([], 0, Epochs, batchSize, env);
    SaveEpochsLast(20);
  }

  /** Resuming from the checkpoint a run wrote after save epoch c (the run stopped from outside
      later) starts at c + 1, writes the remaining checkpoints of the schedule, and applies the
      same per-epoch, per-batch update sequence as an uninterrupted run: no epoch is repeated or
      skipped. Params is that update history, not the numeric weights. */
  lemma ResumeMatchesFresh(c: int, batchSize: nat, env: Env)
    requires ValidEnv(env) && NoCrash(batchSize, env)
    requires 0 <= c < Epochs && IsSaveEpoch(c)
    ensures var written := RunTo(InitState([], env), 0, c + 1, batchSize, env).ckpt;
            written.Some? && written.value.epoch == c &&
            var resumed := RunTo(InitState(written.value.params, env), c + 1, Epochs, batchSize, env);
            var full := RunTo(InitState([], env), 0, Epochs, batchSize, env);
            resumed.outcome.Finished? && full.outcome.Finished?
            && resumed.params == full.params
            && SaveEpochs(0, c + 1) + resumed.saves == full.saves
  {
    RunShape([], 0, c + 1, batchSize, env);
    assert SaveEpochs(0, c + 1) == SaveEpochs(0, c) + [c];
    var written := RunTo(InitState([], env), 0, c + 1, batchSize, env).ckpt;
    RunShape(written.value.params, c + 1, Epochs, batchSize, env);
    RunShape([], 0, Epochs, batchSize, env);
    ParamsAfterSplit([], 0, c + 1, Epochs, batchSize, env.trainSize);
    SaveEpochsSplit(0, c + 1, Epochs);
  }

  lemma MulAtLeast(d: int, b: int)
    requires d >= 1 && b > 0
    ensures d * b >= b
  {
    assert d * b == (d - 1) * b + b;
  }

  /** Quotient and remainder are the unique q, r with x == q * b + r and 0 <= r < b. */
  lemma DivUnique(x: int, b: int, q: int, r: int)
    requires b > 0 && 0 <= r < b && x == q * b + r
    ensures x / b == q && x % b == r
  {
    var q', r' := x / b, x % b;
    assert x == q' * b + r';
    if q' > q {
      var d := q' - q;
      assert q' * b == q * b + d * b;
      MulAtLeast(d, b);
    } else if q' < q {
      var d := q - q';
      assert q * b == q' * b + d * b;
      MulAtLeast(d, b);
    }
  }

  lemma DivStep(size: nat, b: nat)
    requires 0 < b <= size
    ensures (size - b) / b == size / b - 1 && (size - b) % b == size % b
  {
    var q, r := (size - b) / b, (size - b) % b;
    assert size - b == q * b + r && 0 <= r < b;
    assert size == (q + 1) * b + r;
    DivUnique(size, b, q + 1, r);
  }

  /** The reported epoch loss divides total_loss by len // batch_size: one less than the number
      of batches whenever the last batch is short, and zero (the division fails) exactly when the
      data is smaller than one batch. */
  lemma {:induction false} ReportedLossDivisor(size: nat, batchSize: nat)
    requires batchSize > 0
    ensures Batches(size, batchSize) == size / batchSize + (if size % batchSize == 0 then 0 else 1)
    ensures size / batchSize == 0 <==> size < batchSize
    decreases size
  {
    if size > batchSize {
      ReportedLossDivisor(size - batchSize, batchSize);
      DivStep(size, batchSize);
    } else if size == batchSize {
      DivUnique(size, batchSize, 1, 0);
    } else {
      DivUnique(size, batchSize, 0, size);
    }
  }

  // ---------------------------------------------------------------------------
  // Manager
  // ---------------------------------------------------------------------------

  class Manager {
    const logPath: string
    const savedModelPath: string
    const restore: bool
    const cf: Config

    constructor (logPath: string, savedModelPath: string, restore: bool, cf: Config)
      ensures this.logPath == logPath && this.savedModelPath == savedModelPath
      ensures this.restore == restore && this.cf == cf
    {
      this.logPath := logPath;
      this.savedModelPath := savedModelPath;
      this.restore := restore;
      this.cf := cf;
    }

    /** ckp_path: the model directory followed by the run key. */
    function CkpPath(): string
    {
      savedModelPath + RunKey(cf)
    }

    /** log_path: the log directory and the run key, marked with the restored epoch when restoring. */
    function LogPath(epochII: int): string
    {
      var base := logPath + RunKey(cf);
      if restore then base + "(" + IntString(epochII) + ")" else base
    }

    /** A resumed run writes its own log: the path names the restored epoch, so it is never the
        log of the fresh run with the same key, nor the log of a resume from another epoch. */
    lemma ResumedLogPaths(e1: nat, e2: nat)
      requires restore
      ensures LogPath(e1) != logPath + RunKey(cf)
      ensures LogPath(e1) == LogPath(e2) <==> e1 == e2
    {
      var base := logPath + RunKey(cf);
      var s1, s2 := LogPath(e1), LogPath(e2);
      assert s1 == base + "(" + Decimal(e1) + ")";
      assert s2 == base + "(" + Decimal(e2) + ")";
      if s1 == s2 {
        assert s1[|base| + 1 .. |s1| - 1] == Decimal(e1);
        assert s2[|base| + 1 .. |s2| - 1] == Decimal(e2);
        DecimalRoundTrip(e1);
        DecimalRoundTrip(e2);
      }
    }

    /** One epoch of the batch loop: `step` counts the batches, each batch's loss is taken with
        the parameters before its optimizer step and added to total_loss. */
    method TrainEpoch(epoch: int, params: Params, env: Env) returns (params': Params, totalLoss: real)
      requires cf.batchSize > 0
      ensures var nb := Batches(env.trainSize(epoch), cf.batchSize);
              params' == params + EpochUpdates(epoch, nb) && totalLoss == LossSum(params, epoch, nb, env.lossAt)
    {
      var batches := Batches(env.trainSize(epoch), cf.batchSize);
      params' := params;
      totalLoss := 0.0;
      var step := 0;
      while step < batches
        invariant step <= batches
        invariant params' == params + EpochUpdates(epoch, step)
        invariant totalLoss == LossSum(params, epoch, step, env.lossAt)
      {
        step := step + 1;
        var loss := env.lossAt(params', Update(epoch, step));
        params' := params' + [Update(epoch, step)];
        totalLoss := totalLoss + loss;
      }
    }

    /** Appends one row per K and rewrites the log after each. */
    method AppendResults(disk: Disk, path: string, table: seq<Row>, tag: int, loss: real,
                         hits: seq<Ranking.Mean>, ndcgs: seq<Ranking.Mean>) returns (table': seq<Row>)
      requires |hits| == |TopKs| && |ndcgs| == |TopKs|
      modifies disk
      ensures table' == table + ResultRows(tag, loss, hits, ndcgs)
      ensures disk.logs == old(disk.logs)[path := table'] && disk.checkpoints == old(disk.checkpoints)
    {
      table' := table;
      var rows := ResultRows(tag, loss, hits, ndcgs);
      for i := 0 to |TopKs|
        invariant table' == table + rows[..i]
        invariant disk.checkpoints == old(disk.checkpoints)
        invariant i > 0 ==> disk.logs == old(disk.logs)[path := table']
        invariant i == 0 ==> disk.logs == old(disk.logs)
      {
        table' := table' + [Row(tag, loss, TopKs[i], hits[i], ndcgs[i])];
        assert rows[..i + 1] == rows[..i] + [rows[i]];
        disk.WriteLog(path, table');
      }
      assert rows[..|TopKs|] == rows;
    }

    /** Evaluates the model with parameters p on the test set and appends the results. */
    method Evaluate(disk: Disk, path: string, table: seq<Row>, tag: int, loss: real, p: Params, env: Env)
      returns (table': seq<Row>)
      requires ValidEnv(env)
      modifies disk
      ensures table' == table + EvalRows(tag, loss, p, env)
      ensures disk.logs == old(disk.logs)[path := table'] && disk.checkpoints == old(disk.checkpoints)
    {
      var data := env.casesAt(p);
      assert Ranking.AllWellFormed(data);
      var hits, ndcgs := Ranking.EvaluateModel(data, TopKs, env.disc);
      assert hits == MeanHits(data) && ndcgs == MeanNdcgs(data, env.disc);
      table' := AppendResults(disk, path, table, tag, loss, hits, ndcgs);
    }

    /** One iteration of the epoch loop: train on every batch, report the loss, and after every
        tenth epoch save a checkpoint and evaluate. `st` is the run's state before the epoch and
        `st'` after it. */
    method RunEpoch(disk: Disk, log: string, ckpPath: string, epoch: int, params: Params, table: seq<Row>,
                    ghost st: RunState, env: Env)
      returns (outcome: Outcome, params': Params, table': seq<Row>, ghost st': RunState, ghost saved: bool)
      requires ValidEnv(env)
      requires st.outcome.Finished? && st.params == params && st.table == table
      modifies disk
      ensures st' == EpochStep(st, epoch, cf.batchSize, env)
      ensures st'.outcome == outcome && st'.params == params' && st'.table == table'
      ensures saved <==> outcome.Finished? && IsSaveEpoch(epoch)
      ensures saved ==>
                st'.ckpt.Some? && disk.checkpoints == old(disk.checkpoints)[ckpPath := st'.ckpt.value]
                && disk.logs == old(disk.logs)[log := table']
      ensures !saved ==>
                st'.ckpt == st.ckpt && disk.checkpoints == old(disk.checkpoints) && disk.logs == old(disk.logs) && table' == table
    {
      st' := EpochStep(st, epoch, cf.batchSize, env);
      saved := false;
      if cf.batchSize == 0 {
        outcome, params', table' := InvalidBatchSize(epoch), params, table;
        return;
      }
      var n := env.trainSize(epoch) / cf.batchSize;
      var totalLoss;
      params', totalLoss := TrainEpoch(epoch, params, env);
      table' := table;
      if n == 0 {
        outcome := ZeroDivision(epoch);
        return;
      }
      if (epoch + 1) % SaveEvery == 0 {
        assert st' == RunState(params', table + EvalRows(epoch + 1, totalLoss / n as real, params', env),
                               Some(Checkpoint(epoch, params', totalLoss)), st.saves + [epoch], Finished);
        disk.SaveCheckpoint(ckpPath, Checkpoint(epoch, params', totalLoss));
        table' := Evaluate(disk, log, table, epoch + 1, totalLoss / n as real, params', env);
        saved := true;
      }
      outcome := Finished;
    }

    /** train_and_evaluate: restore or start fresh, evaluate, then run epochs epoch_ii + 1 .. 199,
        saving and evaluating after every tenth. The disk ends as the run specification says. */
    method TrainAndEvaluate(disk: Disk, env: Env) returns (outcome: Outcome)
      requires ValidEnv(env)
      modifies disk
      ensures restore && CkpPath() !in old(disk.checkpoints) ==>
                outcome == MissingCheckpoint
                && disk.checkpoints == old(disk.checkpoints) && disk.logs == old(disk.logs)
      ensures !(restore && CkpPath() !in old(disk.checkpoints)) ==>
                var epochII := if restore then old(disk.checkpoints)[CkpPath()].epoch else -1;
                var p0 := if restore then old(disk.checkpoints)[CkpPath()].params else [];
                var r := RunTo(InitState(p0, env), epochII + 1, Epochs, cf.batchSize, env);
                outcome == r.outcome
                && disk.checkpoints == (if r.ckpt.Some? then old(disk.checkpoints)[CkpPath() := r.ckpt.value]
                                        else old(disk.checkpoints))
                && disk.logs == old(disk.logs)[LogPath(epochII) := r.table]
    {
      var ckpPath := CkpPath();
      var epochII := -1;
      var params: Params := [];
      if restore {
        if ckpPath !in disk.checkpoints {
          return MissingCheckpoint;
        }
        var checkpoint := disk.checkpoints[ckpPath];
        params := checkpoint.params;
        epochII := checkpoint.epoch;
      }
      var log := LogPath(epochII);
      var table := Evaluate(disk, log, [Header], 0, 0.0, params, env);
      assert table == InitState(params, env).table;
      outcome := RunEpochs(disk, log, ckpPath, epochII + 1, params, table, env);
    }

    /** The epoch loop, from `start` to the end of the budget or the first exception. */
    method RunEpochs(disk: Disk, log: string, ckpPath: string, start: int, params: Params, table: seq<Row>, env: Env)
      returns (outcome: Outcome)
      requires ValidEnv(env)
      requires log in disk.logs && disk.logs[log] == table
      modifies disk
      ensures var r := RunTo(RunState(params, table, None, [], Finished), start, Epochs, cf.batchSize, env);
              outcome == r.outcome
              && disk.checkpoints == (if r.ckpt.Some? then old(disk.checkpoints)[ckpPath := r.ckpt.value]
                                      else old(disk.checkpoints))
              && disk.logs == old(disk.logs)[log := r.table]
    {
      ghost var s0 := RunState(params, table, None, [], Finished);
      ghost var st := s0;
      var params, table := params, table;
      var epoch := start;
      outcome := Finished;
      while epoch < Epochs && outcome.Finished?
        invariant start <= epoch && (epoch <= Epochs || epoch == start)
        invariant RunTo(s0, start, epoch, cf.batchSize, env) == st
        invariant st.outcome == outcome && st.params == params && st.table == table
        invariant disk.checkpoints == if st.ckpt.Some? then old(disk.checkpoints)[ckpPath := st.ckpt.value] else old(disk.checkpoints)
        invariant disk.logs == old(disk.logs)[log := table]
        decreases Epochs - epoch
      {
        ghost var saved;
        outcome, params, table, st, saved := RunEpoch(disk, log, ckpPath, epoch, params, table, st, env);
        epoch := epoch + 1;
      }
      if outcome.Finished? {
        assert RunTo(s0, start, Epochs, cf.batchSize, env) == RunTo(s0, start, epoch, cf.batchSize, env);
      } else {
        RunToStopped(s0, start, epoch, Epochs, cf.batchSize, env);
      }
    }
  }
}
