/** The two per-epoch metrics: the training cost (`costFunction`) and the
    test prediction error (`predict`). */
module Evaluation {
  import opened Common
  import opened Ratings
  import opened RatingTable
  import opened FactorModel

  // ---------------------------------------------------------------------
  // Training cost

  /** The running total and count after the inner loop over one row. */
  function RowCost(m: Model, factor: int, u: int, row: Row, total: real, count: int): (r: (real, int))
    requires Fits(m, factor) && InRange(RowEntries(u, row), |m.userAvg|, |m.itemAvg|)
    ensures r.1 == count + |row|
    decreases |row|
  {
    if |row| == 0 then (total, count)
    else
      assert RowEntries(u, row)[0] == Rating(u, row[0].0, row[0].1);
      assert RowEntries(u, row[1..]) == RowEntries(u, row)[1..];
      RowCost(m, factor, u, row[1..], total + Affinity(m, factor, u, row[0].0), count + 1)
  }

  /** The running total and count after the outer loop over the rows. */
  function TableCost(m: Model, factor: int, t: Table, total: real, count: int): (r: (real, int))
    requires Fits(m, factor) && InRange(Entries(t), |m.userAvg|, |m.itemAvg|)
    ensures r.1 >= count
    decreases |t|
  {
    if |t| == 0 then (total, count)
    else
      var (total', count') := RowCost(m, factor, t[0].0, t[0].1, total, count);
      TableCost(m, factor, t[1..], total', count')
  }

  /** `costFunction`: the total of the user-item column products over every
      table entry divided by the number of entries. The score of an entry is
      read but not used, and nothing is squared. */
  function Cost(m: Model, factor: int, t: Table): Quotient
    requires Fits(m, factor) && InRange(Entries(t), |m.userAvg|, |m.itemAvg|)
  {
    var (total, count) := TableCost(m, factor, t, 0.0, 0);
    Divide(total, count)
  }

  /** The sum of the column products of the pairs in `es`. */
  function SumAffinity(m: Model, factor: int, es: seq<Rating>): real
    requires Fits(m, factor) && InRange(es, |m.userAvg|, |m.itemAvg|)
    decreases |es|
  {
    if |es| == 0 then 0.0
    else
      assert forall x :: x in es[1..] ==> x in es;
      Affinity(m, factor, es[0].user, es[0].item) + SumAffinity(m, factor, es[1..])
  }

  lemma {:induction false} SumAffinityAppend(m: Model, factor: int, a: seq<Rating>, b: seq<Rating>)
    requires Fits(m, factor) && InRange(a + b, |m.userAvg|, |m.itemAvg|)
    ensures InRange(a, |m.userAvg|, |m.itemAvg|) && InRange(b, |m.userAvg|, |m.itemAvg|)
    ensures SumAffinity(m, factor, a + b) == SumAffinity(m, factor, a) + SumAffinity(m, factor, b)
    decreases |a|
  {
    assert forall x :: x in a ==> x in a + b;
    assert forall x :: x in b ==> x in a + b;
    if |a| > 0 {
      assert (a + b)[0] == a[0];
      assert (a + b)[1..] == a[1..] + b;
      SumAffinityAppend(m, factor, a[1..], b);
    } else {
      assert a + b == b;
    }
  }

  lemma {:induction false} RowCostSpec(m: Model, factor: int, u: int, row: Row, total: real, count: int)
    requires Fits(m, factor) && InRange(RowEntries(u, row), |m.userAvg|, |m.itemAvg|)
    ensures RowCost(m, factor, u, row, total, count)
         == (total + SumAffinity(m, factor, RowEntries(u, row)), count + |row|)
    decreases |row|
  {
    if |row| > 0 {
      var es := RowEntries(u, row);
      assert es[0] == Rating(u, row[0].0, row[0].1);
      assert RowEntries(u, row[1..]) == es[1..];
      RowCostSpec(m, factor, u, row[1..], total + Affinity(m, factor, u, row[0].0), count + 1);
    }
  }

  lemma {:induction false} TableCostSpec(m: Model, factor: int, t: Table, total: real, count: int)
    requires Fits(m, factor) && InRange(Entries(t), |m.userAvg|, |m.itemAvg|)
    ensures TableCost(m, factor, t, total, count)
         == (total + SumAffinity(m, factor, Entries(t)), count + |Entries(t)|)
    decreases |t|
  {
    if |t| > 0 {
      var head := RowEntries(t[0].0, t[0].1);
      SumAffinityAppend(m, factor, head, Entries(t[1..]));
      RowCostSpec(m, factor, t[0].0, t[0].1, total, count);
      TableCostSpec(m, factor, t[1..], total + SumAffinity(m, factor, head), count + |t[0].1|);
    }
  }

  /** The cost is the mean of the column products over the table entries in
      iteration order: NaN for an empty table. */
  lemma CostIsMeanAffinity(m: Model, factor: int, t: Table)
    requires Fits(m, factor) && InRange(Entries(t), |m.userAvg|, |m.itemAvg|)
    ensures Cost(m, factor, t) == Divide(SumAffinity(m, factor, Entries(t)), |Entries(t)|)
  {
    TableCostSpec(m, factor, t, 0.0, 0);
  }

  // ---------------------------------------------------------------------
  // Test prediction error

  /** The two range checks of `predict`, in order: below the minimum becomes
      the minimum, then above the maximum becomes the maximum. */
  function Clamp(x: real, rangeMin: int, rangeMax: int): (y: real)
    ensures rangeMin <= rangeMax ==> rangeMin as real <= y <= rangeMax as real
    ensures rangeMin as real <= x <= rangeMax as real ==> y == x
    ensures x < rangeMin as real && rangeMin <= rangeMax ==> y == rangeMin as real
    ensures x > rangeMax as real ==> y == rangeMax as real
    ensures rangeMax < rangeMin ==> y == rangeMax as real
  {
    var raised := if x < rangeMin as real then rangeMin as real else x;
    if raised > rangeMax as real then rangeMax as real else raised
  }

  /** The unclamped prediction: column product plus both biases. */
  function RawPrediction(m: Model, factor: int, r: Rating): real
    requires Fits(m, factor) && 0 <= r.user < |m.userAvg| && 0 <= r.item < |m.itemAvg|
  {
    Affinity(m, factor, r.user, r.item) + (m.userAvg[r.user] + m.itemAvg[r.item])
  }

  /** The prediction compared with a test score. */
  function Prediction(m: Model, cfg: Config, r: Rating): real
    requires Fits(m, cfg.factor) && 0 <= r.user < |m.userAvg| && 0 <= r.item < |m.itemAvg|
  {
    Clamp(RawPrediction(m, cfg.factor, r), cfg.rangeMin, cfg.rangeMax)
  }

  /** The predicted score lies in the rating range whenever that range is
      non-empty, and is the raw prediction when that is already in range. */
  lemma PredictionInRange(m: Model, cfg: Config, r: Rating)
    requires Fits(m, cfg.factor) && 0 <= r.user < |m.userAvg| && 0 <= r.item < |m.itemAvg|
    ensures cfg.rangeMin <= cfg.rangeMax ==>
              cfg.rangeMin as real <= Prediction(m, cfg, r) <= cfg.rangeMax as real
    ensures var raw := RawPrediction(m, cfg.factor, r);
      cfg.rangeMin as real <= raw <= cfg.rangeMax as real ==> Prediction(m, cfg, r) == raw
  {
  }

  /** `Math.pow(x, 2)`. */
  function Square(x: real): real {
    x * x
  }

  lemma SquareSign(x: real)
    ensures Square(x) >= 0.0
    ensures x != 0.0 ==> Square(x) > 0.0
    ensures x == 0.0 ==> Square(x) == 0.0
  {
    if x > 0.0 {
      calc {
        Square(x);
        x * x;
      >
        0.0;
      }
    } else if x < 0.0 {
      calc {
        Square(x);
        (-x) * (-x);
      >
        0.0;
      }
    }
  }

  /** The accumulated squared error `Math.pow(predict-score, 2)` over `test`. */
  function SquaredErrors(m: Model, cfg: Config, test: seq<Rating>): (s: real)
    requires Fits(m, cfg.factor) && InRange(test, |m.userAvg|, |m.itemAvg|)
    ensures s >= 0.0
    ensures s == 0.0 <==> forall j :: 0 <= j < |test| ==> Prediction(m, cfg, test[j]) == test[j].score
    decreases |test|
  {
    if |test| == 0 then 0.0
    else
      var p := test[..|test| - 1];
      var r := test[|test| - 1];
      assert forall x :: x in p ==> x in test;
      var diff := Prediction(m, cfg, r) - r.score;
      var s := SquaredErrors(m, cfg, p) + Square(diff);
      var prev := SquaredErrors(m, cfg, p);
      SquareSign(diff);
      assert s == 0.0 <==> prev == 0.0 && diff == 0.0;
      assert forall j :: 0 <= j < |p| ==> p[j] == test[j];
      assert (forall j :: 0 <= j < |test| ==> Prediction(m, cfg, test[j]) == test[j].score)
        <==> (forall j :: 0 <= j < |p| ==> Prediction(m, cfg, p[j]) == p[j].score) && diff == 0.0;
      s
  }

  /** The mean squared error over the test lines, the quantity whose square
      root `predict` returns: NaN for no test lines, otherwise non-negative,
      and zero exactly when every clamped prediction equals its score. */
  function MeanSquaredError(m: Model, cfg: Config, test: seq<Rating>): (q: Quotient)
    requires Fits(m, cfg.factor) && InRange(test, |m.userAvg|, |m.itemAvg|)
    ensures q.NaN? <==> |test| == 0
    ensures q.Value? ==> q.value >= 0.0
    ensures q.Value? ==>
              (q.value == 0.0 <==> forall j :: 0 <= j < |test| ==> Prediction(m, cfg, test[j]) == test[j].score)
  {
    Divide(SquaredErrors(m, cfg, test), |test|)
  }

  /** A raw prediction of 6.7 against a maximum of 5 is scored as 5. */
  lemma ClampExample()
    ensures Clamp(6.7, 1, 5) == 5.0
  {
  }
}
