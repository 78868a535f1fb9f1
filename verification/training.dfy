/** Initialisation (`init`) and the epoch loop (`doGradientDescent`). */
module Training {
  import opened Common
  import opened Ratings
  import opened RatingTable
  import opened FactorModel
  import opened Sgd
  import opened Evaluation
  import Baseline

  /** One SGD step per line of `es`, in order. */
  function ApplySteps(m: Model, cfg: Config, es: seq<Rating>): (m': Model)
    requires cfg.factor > 0 && Fits(m, cfg.factor) && InRange(es, |m.userAvg|, |m.itemAvg|)
    ensures SameShape(m, m', cfg.factor)
    decreases |es|
  {
    if |es| == 0 then m
    else
      assert forall x :: x in es[1..] ==> x in es;
      ApplySteps(Step(m, cfg, es[0].user, es[0].item, es[0].score), cfg, es[1..])
  }

  /** The inner loop of an epoch: one step per entry of user `u`'s row. */
  function RowSteps(m: Model, cfg: Config, u: int, row: Row): (m': Model)
    requires cfg.factor > 0 && Fits(m, cfg.factor) && InRange(RowEntries(u, row), |m.userAvg|, |m.itemAvg|)
    ensures SameShape(m, m', cfg.factor)
    decreases |row|
  {
    if |row| == 0 then m
    else
      assert RowEntries(u, row)[0] == Rating(u, row[0].0, row[0].1);
      assert RowEntries(u, row[1..]) == RowEntries(u, row)[1..];
      RowSteps(Step(m, cfg, u, row[0].0, row[0].1), cfg, u, row[1..])
  }

  /** One epoch: the outer loop over the users of the table, each running
      the inner loop over its row. */
  function Epoch(m: Model, cfg: Config, t: Table): (m': Model)
    requires cfg.factor > 0 && Fits(m, cfg.factor) && InRange(Entries(t), |m.userAvg|, |m.itemAvg|)
    ensures SameShape(m, m', cfg.factor)
    decreases |t|
  {
    if |t| == 0 then m
    else Epoch(RowSteps(m, cfg, t[0].0, t[0].1), cfg, t[1..])
  }

  lemma {:induction false} ApplyStepsAppend(m: Model, cfg: Config, a: seq<Rating>, b: seq<Rating>)
    requires cfg.factor > 0 && Fits(m, cfg.factor) && InRange(a + b, |m.userAvg|, |m.itemAvg|)
    ensures InRange(a, |m.userAvg|, |m.itemAvg|)
    ensures var mid := ApplySteps(m, cfg, a);
      InRange(b, |mid.userAvg|, |mid.itemAvg|) && ApplySteps(m, cfg, a + b) == ApplySteps(mid, cfg, b)
    decreases |a|
  {
    assert forall x :: x in a ==> x in a + b;
    assert forall x :: x in b ==> x in a + b;
    if |a| == 0 {
      assert a + b == b;
    } else {
      assert (a + b)[0] == a[0];
      assert (a + b)[1..] == a[1..] + b;
      ApplyStepsAppend(Step(m, cfg, a[0].user, a[0].item, a[0].score), cfg, a[1..], b);
    }
  }

  lemma {:induction false} RowStepsInOrder(m: Model, cfg: Config, u: int, row: Row)
    requires cfg.factor > 0 && Fits(m, cfg.factor) && InRange(RowEntries(u, row), |m.userAvg|, |m.itemAvg|)
    ensures RowSteps(m, cfg, u, row) == ApplySteps(m, cfg, RowEntries(u, row))
    decreases |row|
  {
    if |row| > 0 {
      var es := RowEntries(u, row);
      assert es[0] == Rating(u, row[0].0, row[0].1);
      assert RowEntries(u, row[1..]) == es[1..];
      RowStepsInOrder(Step(m, cfg, u, row[0].0, row[0].1), cfg, u, row[1..]);
    }
  }

  /** An epoch applies exactly one SGD step per table entry, in the table's
      iteration order. */
  lemma {:induction false} EpochInTableOrder(m: Model, cfg: Config, t: Table)
    requires cfg.factor > 0 && Fits(m, cfg.factor) && InRange(Entries(t), |m.userAvg|, |m.itemAvg|)
    ensures Epoch(m, cfg, t) == ApplySteps(m, cfg, Entries(t))
    decreases |t|
  {
    if |t| > 0 {
      var head := RowEntries(t[0].0, t[0].1);
      ApplyStepsAppend(m, cfg, head, Entries(t[1..]));
      RowStepsInOrder(m, cfg, t[0].0, t[0].1);
      EpochInTableOrder(RowSteps(m, cfg, t[0].0, t[0].1), cfg, t[1..]);
    }
  }

  /** A user with no line among `es` keeps its factor column and its bias,
      and likewise an item. */
  lemma {:induction false} ApplyStepsKeepsUnrated(m: Model, cfg: Config, es: seq<Rating>, u: int, i: int)
    requires cfg.factor > 0 && Fits(m, cfg.factor) && InRange(es, |m.userAvg|, |m.itemAvg|)
    requires 0 <= u < |m.userAvg| && 0 <= i < |m.itemAvg|
    ensures var m' := ApplySteps(m, cfg, es);
      && ((forall x :: x in es ==> x.user != u) ==>
            m'.userAvg[u] == m.userAvg[u] && forall f :: 0 <= f < cfg.factor ==> m'.user[f][u] == m.user[f][u])
      && ((forall x :: x in es ==> x.item != i) ==>
            m'.itemAvg[i] == m.itemAvg[i] && forall f :: 0 <= f < cfg.factor ==> m'.item[f][i] == m.item[f][i])
    decreases |es|
  {
    if |es| > 0 {
      assert forall x :: x in es[1..] ==> x in es;
      var next := Step(m, cfg, es[0].user, es[0].item, es[0].score);
      StepFrame(m, cfg, es[0].user, es[0].item, es[0].score);
      ApplyStepsKeepsUnrated(next, cfg, es[1..], u, i);
    }
  }

  // ---------------------------------------------------------------------
  // The epoch loop

  /** The values logged after an epoch. */
  datatype Report = Report(cost: Quotient, meanSquaredError: Quotient)

  /** The final state and the per-epoch log. */
  datatype Run = Run(model: Model, log: seq<Report>)

  /** What an epoch needs: a positive factor count, matrices of the right
      shape, and table ids within the dimensions. */
  predicate Trainable(m: Model, cfg: Config, t: Table) {
    && cfg.factor > 0
    && Fits(m, cfg.factor)
    && InRange(Entries(t), |m.userAvg|, |m.itemAvg|)
  }

  /** What the loop needs: a trainable state and test ids within the
      dimensions. */
  predicate Ready(m: Model, cfg: Config, t: Table, test: seq<Rating>) {
    Trainable(m, cfg, t) && InRange(test, |m.userAvg|, |m.itemAvg|)
  }

  /** The state after the last of `states`, or `m` when there are none. */
  function Final(m: Model, states: seq<Model>): Model {
    if |states| == 0 then m else states[|states| - 1]
  }

  /** The states left by each of the first `n` rounds of the loop: every
      round runs one epoch over the table from the state the round before
      left. */
  function States(m: Model, cfg: Config, t: Table, n: int): (s: seq<Model>)
    requires Trainable(m, cfg, t)
    ensures |s| == if n > 0 then n else 0
    ensures SameShape(m, Final(m, s), cfg.factor)
    decreases n
  {
    if n <= 0 then []
    else
      var prev := States(m, cfg, t, n - 1);
      prev + [Epoch(Final(m, prev), cfg, t)]
  }

  /** Every state of a run has the starting shape. */
  lemma {:induction false} StatesShape(m: Model, cfg: Config, t: Table, n: int)
    requires Trainable(m, cfg, t)
    ensures forall k :: 0 <= k < |States(m, cfg, t, n)| ==> SameShape(m, States(m, cfg, t, n)[k], cfg.factor)
    decreases n
  {
    if n > 0 {
      StatesShape(m, cfg, t, n - 1);
      var s := States(m, cfg, t, n);
      var prev := States(m, cfg, t, n - 1);
      forall k | 0 <= k < |s|
        ensures SameShape(m, s[k], cfg.factor)
      {
        if k < |prev| {
          assert s[k] == prev[k];
        } else {
          assert s[k] == Final(m, s);
        }
      }
    }
  }

  /** `costFunction` and `predict` (before its square root) on one state. */
  function Evaluate(m: Model, cfg: Config, t: Table, test: seq<Rating>): Report
    requires Ready(m, cfg, t, test)
  {
    Report(Cost(m, cfg.factor, t), MeanSquaredError(m, cfg, test))
  }

  /** The log line of each state, in order. */
  function Reports(states: seq<Model>, cfg: Config, t: Table, test: seq<Rating>): seq<Report>
    requires forall k :: 0 <= k < |states| ==> Ready(states[k], cfg, t, test)
  {
    seq(|states|, k requires 0 <= k < |states| => Evaluate(states[k], cfg, t, test))
  }

  /** `n` rounds of the loop, each running one epoch over the table and then
      logging the cost and the test error of the new state: the last state
      and the log. */
  function Train(m: Model, cfg: Config, t: Table, test: seq<Rating>, n: int): (run: Run)
    requires Ready(m, cfg, t, test)
    ensures SameShape(m, run.model, cfg.factor)
    ensures |run.log| == if n > 0 then n else 0
  {
    var states := States(m, cfg, t, n);
    StatesShape(m, cfg, t, n);
    assert forall k :: 0 <= k < |states| ==> Ready(states[k], cfg, t, test);
    Run(Final(m, states), Reports(states, cfg, t, test))
  }

  /** `doGradientDescent`: `iteration` rounds. */
  function DoGradientDescent(m: Model, cfg: Config, t: Table, test: seq<Rating>): (run: Run)
    requires Ready(m, cfg, t, test)
    ensures SameShape(m, run.model, cfg.factor)
    ensures |run.log| == if cfg.iteration > 0 then cfg.iteration else 0
  {
    Train(m, cfg, t, test, cfg.iteration)
  }

  /** With no iterations (zero or negative) the loop changes nothing and
      logs nothing. */
  lemma ZeroIterations(m: Model, cfg: Config, t: Table, test: seq<Rating>)
    requires Ready(m, cfg, t, test) && cfg.iteration <= 0
    ensures DoGradientDescent(m, cfg, t, test) == Run(m, [])
  {
  }

  /** Round n + 1 applies one SGD step per table entry, in table order, to
      the state left by round n. */
  lemma NextRound(m: Model, cfg: Config, t: Table, n: nat)
    requires Trainable(m, cfg, t)
    ensures var prev := Final(m, States(m, cfg, t, n));
      && Trainable(prev, cfg, t)
      && Final(m, States(m, cfg, t, n + 1)) == ApplySteps(prev, cfg, Entries(t))
  {
    var prev := Final(m, States(m, cfg, t, n));
    assert SameShape(m, prev, cfg.factor);
    EpochInTableOrder(prev, cfg, t);
  }

  /** The first k states of an n-round run are those of a k-round run. */
  lemma {:induction false} StatesPrefix(m: Model, cfg: Config, t: Table, n: int, k: nat)
    requires Trainable(m, cfg, t) && k <= n
    ensures States(m, cfg, t, n)[..k] == States(m, cfg, t, k)
    decreases n
  {
    if k < n {
      StatesPrefix(m, cfg, t, n - 1, k);
      var prev := States(m, cfg, t, n - 1);
      assert States(m, cfg, t, n)[..k] == prev[..k];
    }
  }

  /** Log line k of the loop reports the cost and the test error of the
      state after exactly k + 1 epochs. */
  lemma LogReportsEachEpoch(m: Model, cfg: Config, t: Table, test: seq<Rating>, k: int)
    requires Ready(m, cfg, t, test) && 0 <= k < cfg.iteration
    ensures var after := Final(m, States(m, cfg, t, k + 1));
      && Ready(after, cfg, t, test)
      && DoGradientDescent(m, cfg, t, test).log[k] == Evaluate(after, cfg, t, test)
  {
    StatesPrefix(m, cfg, t, cfg.iteration, k + 1);
    var states := States(m, cfg, t, cfg.iteration);
    assert states[..k + 1][k] == states[k];
  }

  /** The state left by any number of rounds can be trained further. */
  lemma FinalTrainable(m: Model, cfg: Config, t: Table, n: int)
    requires Trainable(m, cfg, t)
    ensures Trainable(Final(m, States(m, cfg, t, n)), cfg, t)
  {
    var states := States(m, cfg, t, n);
    assert SameShape(m, Final(m, states), cfg.factor);
  }

  /** Running a + b rounds is running a rounds and then b more from the
      state they leave. */
  lemma {:induction false} StatesCompose(m: Model, cfg: Config, t: Table, a: nat, b: nat)
    requires Trainable(m, cfg, t)
    ensures var first := States(m, cfg, t, a);
      && Trainable(Final(m, first), cfg, t)
      && States(m, cfg, t, a + b) == first + States(Final(m, first), cfg, t, b)
    decreases b
  {
    FinalTrainable(m, cfg, t, a);
    if b > 0 {
      StatesCompose(m, cfg, t, a, b - 1);
      ComposeOneMore(m, cfg, t, a, b);
    } else {
      var first := States(m, cfg, t, a);
      assert first + [] == first;
    }
  }

  /** The inductive step of `StatesCompose`: one more round on both sides. */
  lemma ComposeOneMore(m: Model, cfg: Config, t: Table, a: nat, b: nat)
    requires Trainable(m, cfg, t) && b > 0
    requires Trainable(Final(m, States(m, cfg, t, a)), cfg, t)
    requires var first := States(m, cfg, t, a);
      States(m, cfg, t, a + (b - 1)) == first + States(Final(m, first), cfg, t, b - 1)
    ensures var first := States(m, cfg, t, a);
      States(m, cfg, t, a + b) == first + States(Final(m, first), cfg, t, b)
  {
    var first := States(m, cfg, t, a);
    var mid := Final(m, first);
    var second := States(mid, cfg, t, b - 1);
    assert Final(m, first + second) == Final(mid, second);
    var next := Epoch(Final(mid, second), cfg, t);
    assert first + second + [next] == first + (second + [next]);
  }

  /** The log of two runs of states back to back is the two logs back to back. */
  lemma ReportsAppend(x: seq<Model>, y: seq<Model>, cfg: Config, t: Table, test: seq<Rating>)
    requires forall k :: 0 <= k < |x| ==> Ready(x[k], cfg, t, test)
    requires forall k :: 0 <= k < |y| ==> Ready(y[k], cfg, t, test)
    ensures forall k :: 0 <= k < |x + y| ==> Ready((x + y)[k], cfg, t, test)
    ensures Reports(x + y, cfg, t, test) == Reports(x, cfg, t, test) + Reports(y, cfg, t, test)
  {
    assert forall k :: 0 <= k < |x + y| ==> (x + y)[k] == if k < |x| then x[k] else y[k - |x|];
  }

  /** Training for a + b rounds is training for a and then for b more from
      the state left behind; the logs concatenate. */
  lemma RunsCompose(m: Model, cfg: Config, t: Table, test: seq<Rating>, a: nat, b: nat)
    requires Ready(m, cfg, t, test)
    ensures var first := Train(m, cfg, t, test, a);
      && Ready(first.model, cfg, t, test)
      && var second := Train(first.model, cfg, t, test, b);
         Train(m, cfg, t, test, a + b) == Run(second.model, first.log + second.log)
  {
    StatesCompose(m, cfg, t, a, b);
    var first := States(m, cfg, t, a);
    var mid := Final(m, first);
    var second := States(mid, cfg, t, b);
    assert Final(m, first + second) == Final(mid, second);
    StatesShape(m, cfg, t, a);
    StatesShape(mid, cfg, t, b);
    ReportsAppend(first, second, cfg, t, test);
  }

  /** A user that no table entry mentions keeps its factor column and bias
      through any number of epochs, and likewise an item. */
  lemma {:induction false} EpochsKeepUnrated(m: Model, cfg: Config, t: Table, n: int, u: int, i: int)
    requires Trainable(m, cfg, t)
    requires 0 <= u < |m.userAvg| && 0 <= i < |m.itemAvg|
    ensures var m' := Final(m, States(m, cfg, t, n));
      && ((forall x :: x in Entries(t) ==> x.user != u) ==>
            m'.userAvg[u] == m.userAvg[u] && forall f :: 0 <= f < cfg.factor ==> m'.user[f][u] == m.user[f][u])
      && ((forall x :: x in Entries(t) ==> x.item != i) ==>
            m'.itemAvg[i] == m.itemAvg[i] && forall f :: 0 <= f < cfg.factor ==> m'.item[f][i] == m.item[f][i])
    decreases n
  {
    if n > 0 {
      EpochsKeepUnrated(m, cfg, t, n - 1, u, i);
      NextRound(m, cfg, t, n - 1);
      var prev := Final(m, States(m, cfg, t, n - 1));
      ApplyStepsKeepsUnrated(prev, cfg, Entries(t), u, i);
    }
  }

  // ---------------------------------------------------------------------
  // Initialisation

  /** The state `init` leaves behind. */
  datatype Setup = Setup(dims: Dimensions, table: Table, biases: Baseline.Biases, model: Model)

  /** `init`: scan the dimensions over both streams, read the training lines
      into the table and the biases, and take the given matrices as the
      random initial factors (factor rows by entity columns). */
  function Init(train: seq<Rating>, test: seq<Rating>, cfg: Config,
                userInit: seq<seq<real>>, itemInit: seq<seq<real>>): (s: Setup)
    requires NonNegativeIds(train) && NonNegativeIds(test)
    requires Matrix(userInit, cfg.factor, ScanDimensions(train, test).userNumber)
    requires Matrix(itemInit, cfg.factor, ScanDimensions(train, test).itemNumber)
    ensures |s.model.userAvg| == s.dims.userNumber && |s.model.itemAvg| == s.dims.itemNumber
    ensures cfg.factor > 0 ==> Ready(s.model, cfg, s.table, test)
    ensures s.dims == ScanDimensions(train, test) && s.table == BuildTable(train)
    ensures var b := Baseline.Estimate(train, s.dims.userNumber, s.dims.itemNumber);
      s.model.userAvg == b.userAvg && s.model.itemAvg == b.itemAvg
    ensures s.model.user == userInit && s.model.item == itemInit
  {
    var dims := ScanDimensions(train, test);
    var table := BuildTable(train);
    TableInRange(train, dims.userNumber, dims.itemNumber);
    var biases := Baseline.Estimate(train, dims.userNumber, dims.itemNumber);
    Setup(dims, table, biases, Model(userInit, itemInit, biases.userAvg, biases.itemAvg))
  }

  /** `init` followed by `doGradientDescent`. */
  function InitAndTrain(train: seq<Rating>, test: seq<Rating>, cfg: Config,
                        userInit: seq<seq<real>>, itemInit: seq<seq<real>>): (run: Run)
    requires cfg.factor > 0 && NonNegativeIds(train) && NonNegativeIds(test)
    requires Matrix(userInit, cfg.factor, ScanDimensions(train, test).userNumber)
    requires Matrix(itemInit, cfg.factor, ScanDimensions(train, test).itemNumber)
    ensures Matrix(run.model.user, cfg.factor, ScanDimensions(train, test).userNumber)
    ensures Matrix(run.model.item, cfg.factor, ScanDimensions(train, test).itemNumber)
    ensures |run.model.userAvg| == ScanDimensions(train, test).userNumber
    ensures |run.model.itemAvg| == ScanDimensions(train, test).itemNumber
    ensures |run.log| == if cfg.iteration > 0 then cfg.iteration else 0
  {
    var s := Init(train, test, cfg, userInit, itemInit);
    DoGradientDescent(s.model, cfg, s.table, test)
  }

  /** A user with no training line (one seen only in the test stream, say)
      ends training with the factor column it started with and a bias of 0;
      likewise an item. */
  lemma UnratedKeepInitialState(train: seq<Rating>, test: seq<Rating>, cfg: Config,
                                userInit: seq<seq<real>>, itemInit: seq<seq<real>>, u: int, i: int)
    requires cfg.factor > 0 && NonNegativeIds(train) && NonNegativeIds(test)
    requires Matrix(userInit, cfg.factor, ScanDimensions(train, test).userNumber)
    requires Matrix(itemInit, cfg.factor, ScanDimensions(train, test).itemNumber)
    requires 0 <= u < ScanDimensions(train, test).userNumber && 0 <= i < ScanDimensions(train, test).itemNumber
    ensures var m := InitAndTrain(train, test, cfg, userInit, itemInit).model;
      && ((forall x :: x in train ==> x.user != u) ==>
            m.userAvg[u] == 0.0 && forall f :: 0 <= f < cfg.factor ==> m.user[f][u] == userInit[f][u])
      && ((forall x :: x in train ==> x.item != i) ==>
            m.itemAvg[i] == 0.0 && forall f :: 0 <= f < cfg.factor ==> m.item[f][i] == itemInit[f][i])
  {
    var s := Init(train, test, cfg, userInit, itemInit);
    TableEntries(train);
    EpochsKeepUnrated(s.model, cfg, s.table, cfg.iteration, u, i);
    if forall x :: x in train ==> x.user != u {
      Baseline.NoLinesOfUser(train, u);
    }
    if forall x :: x in train ==> x.item != i {
      Baseline.NoLinesOfItem(train, i);
    }
  }
}
