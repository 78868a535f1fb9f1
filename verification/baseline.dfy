/** The baseline predictors computed by `readIntoMemory`: the global mean
    score and each user's and item's mean deviation from it. */
module Baseline {
  import opened Common
  import opened Ratings
  import RatingTable

  /** The accumulators of the reading loop: per-user and per-item score sums
      (kept in `userAvg` and `itemAvg` themselves), per-user and per-item line
      counts (`userCount`, `itemCount`, floating point in the source), the
      score total and the line count. */
  datatype Accumulators = Accumulators(
    userSum: seq<real>, userCount: seq<real>,
    itemSum: seq<real>, itemCount: seq<real>,
    total: real, totalCount: int)

  /** The outcome of the estimation: the global mean and the two bias vectors. */
  datatype Biases = Biases(mean: Quotient, userAvg: seq<real>, itemAvg: seq<real>)

  function Zeros(n: nat): seq<real> {
    seq(n, _ => 0.0)
  }

  /** The accumulators after the reading loop has consumed `rs`. Every line
      counts, including a repeated (user, item) pair. */
  function Accumulate(rs: seq<Rating>, userNumber: nat, itemNumber: nat): (a: Accumulators)
    requires InRange(rs, userNumber, itemNumber)
    ensures |a.userSum| == |a.userCount| == userNumber
    ensures |a.itemSum| == |a.itemCount| == itemNumber
    decreases |rs|
  {
    if |rs| == 0 then
      Accumulators(Zeros(userNumber), Zeros(userNumber), Zeros(itemNumber), Zeros(itemNumber), 0.0, 0)
    else
      var p := rs[..|rs| - 1];
      var r := rs[|rs| - 1];
      assert forall x :: x in p ==> x in rs;
      var a := Accumulate(p, userNumber, itemNumber);
      Accumulators(
        a.userSum[r.user := a.userSum[r.user] + r.score],
        a.userCount[r.user := a.userCount[r.user] + 1.0],
        a.itemSum[r.item := a.itemSum[r.item] + r.score],
        a.itemCount[r.item := a.itemCount[r.item] + 1.0],
        a.total + r.score,
        a.totalCount + 1)
  }

  /** The final loops over `userAvg` and `itemAvg`: an entity with lines gets
      its sum divided by its count, minus the global mean; an entity without
      lines keeps its accumulated value. A NaN mean only arises when there are
      no lines at all, and then every count is zero. */
  function Finalize(sums: seq<real>, counts: seq<real>, mean: Quotient): (r: seq<real>)
    requires |counts| == |sums|
    ensures |r| == |sums|
    ensures forall c :: 0 <= c < |sums| && counts[c] != 0.0 && mean.Value? ==>
              (r[c] + mean.value) * counts[c] == sums[c]
    ensures forall c :: 0 <= c < |sums| && (counts[c] == 0.0 || mean.NaN?) ==> r[c] == sums[c]
  {
    seq(|sums|, c requires 0 <= c < |sums| =>
      if counts[c] != 0.0 && mean.Value? then sums[c] / counts[c] - mean.value else sums[c])
  }

  // ---------------------------------------------------------------------
  // Reference definitions in terms of the lines

  function ScoreSum(rs: seq<Rating>): real
    decreases |rs|
  {
    if |rs| == 0 then 0.0 else ScoreSum(rs[..|rs| - 1]) + rs[|rs| - 1].score
  }

  /** The lines of user `u`, in file order. */
  function LinesOfUser(rs: seq<Rating>, u: int): (ls: seq<Rating>)
    ensures |ls| <= |rs|
    ensures forall x :: x in ls ==> x in rs && x.user == u
    decreases |rs|
  {
    if |rs| == 0 then []
    else
      var p := rs[..|rs| - 1];
      assert forall x :: x in p ==> x in rs;
      if rs[|rs| - 1].user == u then LinesOfUser(p, u) + [rs[|rs| - 1]] else LinesOfUser(p, u)
  }

  /** The lines of item `i`, in file order. */
  function LinesOfItem(rs: seq<Rating>, i: int): (ls: seq<Rating>)
    ensures |ls| <= |rs|
    ensures forall x :: x in ls ==> x in rs && x.item == i
    decreases |rs|
  {
    if |rs| == 0 then []
    else
      var p := rs[..|rs| - 1];
      assert forall x :: x in p ==> x in rs;
      if rs[|rs| - 1].item == i then LinesOfItem(p, i) + [rs[|rs| - 1]] else LinesOfItem(p, i)
  }

  /** A user that no line mentions has no lines. */
  lemma {:induction false} NoLinesOfUser(rs: seq<Rating>, u: int)
    requires forall x :: x in rs ==> x.user != u
    ensures LinesOfUser(rs, u) == []
    decreases |rs|
  {
    if |rs| > 0 {
      var p := rs[..|rs| - 1];
      assert forall x :: x in p ==> x in rs;
      assert rs[|rs| - 1] in rs;
      NoLinesOfUser(p, u);
    }
  }

  /** An item that no line mentions has no lines. */
  lemma {:induction false} NoLinesOfItem(rs: seq<Rating>, i: int)
    requires forall x :: x in rs ==> x.item != i
    ensures LinesOfItem(rs, i) == []
    decreases |rs|
  {
    if |rs| > 0 {
      var p := rs[..|rs| - 1];
      assert forall x :: x in p ==> x in rs;
      assert rs[|rs| - 1] in rs;
      NoLinesOfItem(p, i);
    }
  }

  /** A mean deviation: the mean score of `lines` minus `mean`. */
  function Deviation(lines: seq<Rating>, mean: real): real
    requires |lines| > 0
  {
    ScoreSum(lines) / |lines| as real - mean
  }

  lemma ScoreSumAppend(xs: seq<Rating>, r: Rating)
    ensures ScoreSum(xs + [r]) == ScoreSum(xs) + r.score
  {
    assert (xs + [r])[..|xs|] == xs;
  }

  /** The user accumulators hold the score sum and the line count of exactly
      that user's lines, and the totals are over all lines. */
  lemma {:induction false} AccumulateUserSums(rs: seq<Rating>, userNumber: nat, itemNumber: nat)
    requires InRange(rs, userNumber, itemNumber)
    ensures var a := Accumulate(rs, userNumber, itemNumber);
      && a.total == ScoreSum(rs) && a.totalCount == |rs|
      && forall u :: 0 <= u < userNumber ==>
           a.userSum[u] == ScoreSum(LinesOfUser(rs, u)) && a.userCount[u] == |LinesOfUser(rs, u)| as real
    decreases |rs|
  {
    if |rs| > 0 {
      var p := rs[..|rs| - 1];
      var r := rs[|rs| - 1];
      assert forall x :: x in p ==> x in rs;
      AccumulateUserSums(p, userNumber, itemNumber);
      ScoreSumAppend(LinesOfUser(p, r.user), r);
    }
  }

  /** The item accumulators hold the score sum and the line count of exactly
      that item's lines. */
  lemma {:induction false} AccumulateItemSums(rs: seq<Rating>, userNumber: nat, itemNumber: nat)
    requires InRange(rs, userNumber, itemNumber)
    ensures var a := Accumulate(rs, userNumber, itemNumber);
      forall i :: 0 <= i < itemNumber ==>
        a.itemSum[i] == ScoreSum(LinesOfItem(rs, i)) && a.itemCount[i] == |LinesOfItem(rs, i)| as real
    decreases |rs|
  {
    if |rs| > 0 {
      var p := rs[..|rs| - 1];
      var r := rs[|rs| - 1];
      assert forall x :: x in p ==> x in rs;
      AccumulateItemSums(p, userNumber, itemNumber);
      ScoreSumAppend(LinesOfItem(p, r.item), r);
    }
  }

  /** `readIntoMemory`'s bias estimation over the training lines. */
  function Estimate(rs: seq<Rating>, userNumber: nat, itemNumber: nat): (b: Biases)
    requires InRange(rs, userNumber, itemNumber)
    ensures |b.userAvg| == userNumber && |b.itemAvg| == itemNumber
    ensures b.mean == Divide(ScoreSum(rs), |rs|)
    ensures forall u :: 0 <= u < userNumber && |LinesOfUser(rs, u)| == 0 ==> b.userAvg[u] == 0.0
    ensures forall u :: 0 <= u < userNumber && |LinesOfUser(rs, u)| > 0 ==>
              b.mean.Value? && b.userAvg[u] == Deviation(LinesOfUser(rs, u), b.mean.value)
    ensures forall i :: 0 <= i < itemNumber && |LinesOfItem(rs, i)| == 0 ==> b.itemAvg[i] == 0.0
    ensures forall i :: 0 <= i < itemNumber && |LinesOfItem(rs, i)| > 0 ==>
              b.mean.Value? && b.itemAvg[i] == Deviation(LinesOfItem(rs, i), b.mean.value)
  {
    var a := Accumulate(rs, userNumber, itemNumber);
    AccumulateUserSums(rs, userNumber, itemNumber);
    AccumulateItemSums(rs, userNumber, itemNumber);
    var mean := Divide(a.total, a.totalCount);
    Biases(mean, Finalize(a.userSum, a.userCount, mean), Finalize(a.itemSum, a.itemCount, mean))
  }

  /** With no training lines every bias stays 0. */
  lemma EmptyTrainingSet(userNumber: nat, itemNumber: nat)
    ensures var b := Estimate([], userNumber, itemNumber);
      && b.mean == NaN
      && (forall u :: 0 <= u < userNumber ==> b.userAvg[u] == 0.0)
      && (forall i :: 0 <= i < itemNumber ==> b.itemAvg[i] == 0.0)
  {
  }

  /** The score total and the user lines of the worked example. */
  lemma ExampleLines(rs: seq<Rating>)
    requires rs == [Rating(0, 0, 5.0), Rating(0, 1, 3.0), Rating(1, 0, 1.0)]
    ensures ScoreSum(rs) == 9.0
    ensures LinesOfUser(rs, 0) == rs[..2] && ScoreSum(rs[..2]) == 8.0
    ensures LinesOfUser(rs, 1) == [rs[2]] && ScoreSum([rs[2]]) == 1.0
  {
    var p2 := rs[..2];
    var p1 := rs[..1];
    assert p2 == [Rating(0, 0, 5.0), Rating(0, 1, 3.0)] && p2[..1] == p1 && p1[..0] == [];
    assert ScoreSum(p1) == 5.0;
    assert ScoreSum(p2) == 8.0;
    assert [rs[2]][..0] == [];
    assert LinesOfUser(p1, 1) == [] && LinesOfUser(p2, 1) == [];
    assert LinesOfUser(p1, 0) == p1 && LinesOfUser(p2, 0) == p1 + [rs[1]] == p2;
  }

  /** The item lines of the worked example. */
  lemma ExampleItemLines(rs: seq<Rating>)
    requires rs == [Rating(0, 0, 5.0), Rating(0, 1, 3.0), Rating(1, 0, 1.0)]
    ensures LinesOfItem(rs, 0) == [rs[0], rs[2]] && ScoreSum([rs[0], rs[2]]) == 6.0
    ensures LinesOfItem(rs, 1) == [rs[1]] && ScoreSum([rs[1]]) == 3.0
  {
    var p2 := rs[..2];
    var p1 := rs[..1];
    assert p2 == [Rating(0, 0, 5.0), Rating(0, 1, 3.0)] && p2[..1] == p1 && p1[..0] == [];
    assert [rs[1]][..0] == [] && [rs[0], rs[2]][..1] == p1;
    assert ScoreSum(p1) == 5.0;
    assert LinesOfItem(p1, 1) == [] && LinesOfItem(p2, 0) == p1;
  }

  /** The score total and the per-entity deviations of the worked example. */
  lemma ExampleDeviations(rs: seq<Rating>)
    requires rs == [Rating(0, 0, 5.0), Rating(0, 1, 3.0), Rating(1, 0, 1.0)]
    ensures ScoreSum(rs) == 9.0
    ensures |LinesOfUser(rs, 0)| > 0 && Deviation(LinesOfUser(rs, 0), 3.0) == 1.0
    ensures |LinesOfUser(rs, 1)| > 0 && Deviation(LinesOfUser(rs, 1), 3.0) == -2.0
    ensures |LinesOfItem(rs, 0)| > 0 && Deviation(LinesOfItem(rs, 0), 3.0) == 0.0
    ensures |LinesOfItem(rs, 1)| > 0 && Deviation(LinesOfItem(rs, 1), 3.0) == 0.0
  {
    ExampleLines(rs);
    ExampleItemLines(rs);
  }

  /** The worked example: scores 5, 3 (user 0) and 1 (user 1) give mean 3,
      user biases 1 and -2, item biases 0 and 0. */
  lemma EstimateExample(rs: seq<Rating>)
    requires rs == [Rating(0, 0, 5.0), Rating(0, 1, 3.0), Rating(1, 0, 1.0)]
    ensures Estimate(rs, 2, 2) == Biases(Value(3.0), [1.0, -2.0], [0.0, 0.0])
  {
    ExampleDeviations(rs);
    var b := Estimate(rs, 2, 2);
    assert b.mean == Value(3.0);
    assert b.userAvg[0] == 1.0 && b.userAvg[1] == -2.0;
    assert b.itemAvg[0] == 0.0 && b.itemAvg[1] == 0.0;
    assert b.userAvg == [1.0, -2.0];
    assert b.itemAvg == [0.0, 0.0];
  }

  /** A repeated (user, item) line counts every time in the biases while the
      table keeps only its last score: scores 5 then 3 for the same pair give
      mean 4, user and item bias 0, and a table entry of 3. */
  lemma DuplicateLinesExample()
    ensures Estimate([Rating(0, 0, 5.0), Rating(0, 0, 3.0)], 1, 1) == Biases(Value(4.0), [0.0], [0.0])
    ensures RatingTable.Entries(RatingTable.BuildTable([Rating(0, 0, 5.0), Rating(0, 0, 3.0)]))
         == [Rating(0, 0, 3.0)]
  {
    var rs := [Rating(0, 0, 5.0), Rating(0, 0, 3.0)];
    var p1 := rs[..1];
    assert p1 == [Rating(0, 0, 5.0)] && p1[..0] == [];
    assert ScoreSum(p1) == 5.0;
    assert ScoreSum(rs) == 8.0;
    assert LinesOfUser(rs, 0) == rs;
    assert LinesOfItem(rs, 0) == rs;
    var b := Estimate(rs, 1, 1);
    assert b.mean == Value(4.0);
    assert b.userAvg[0] == 0.0 && b.itemAvg[0] == 0.0;
    assert b.userAvg == [0.0] && b.itemAvg == [0.0];
    RatingTable.DuplicateExample();
  }
}
