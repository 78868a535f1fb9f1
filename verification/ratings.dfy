/** Parsed input lines and the dimension scan (`setUserNumberAndItemNumber`). */
module Ratings {

  /** One input line `userId itemId score timestamp`; the timestamp is read and dropped. */
  datatype Rating = Rating(user: int, item: int, score: real)

  /** The sizes of the user and item index spaces (`userNumber`, `itemNumber`). */
  datatype Dimensions = Dimensions(userNumber: int, itemNumber: int)

  /** Every id in `rs` is a valid index into arrays of the given sizes. */
  predicate InRange(rs: seq<Rating>, userNumber: int, itemNumber: int) {
    forall r :: r in rs ==> 0 <= r.user < userNumber && 0 <= r.item < itemNumber
  }

  predicate NonNegativeIds(rs: seq<Rating>) {
    forall r :: r in rs ==> 0 <= r.user && 0 <= r.item
  }

  /** The conditional `a>b?a:b` that advances a running maximum. */
  function Larger(a: int, b: int): int {
    if a > b then a else b
  }

  /** The running maxima (user, item) after one scanning loop over `rs`
      started from `maxUser` and `maxItem`: the largest of the start value
      and every id seen. */
  function ScanIds(rs: seq<Rating>, maxUser: int, maxItem: int): (r: (int, int))
    ensures maxUser <= r.0 && maxItem <= r.1
    ensures forall x :: x in rs ==> x.user <= r.0 && x.item <= r.1
    ensures r.0 == maxUser || exists x :: x in rs && x.user == r.0
    ensures r.1 == maxItem || exists x :: x in rs && x.item == r.1
    decreases |rs|
  {
    if |rs| == 0 then (maxUser, maxItem)
    else
      var r := ScanIds(rs[1..], Larger(maxUser, rs[0].user), Larger(maxItem, rs[0].item));
      assert forall x :: x in rs ==> x == rs[0] || x in rs[1..];
      r
  }

  /** Both scanning loops share the running maxima, both start at 0, and each
      count is the final maximum plus one. The result is the least count that
      makes every id of either stream an index, and never less than 1. */
  function ScanDimensions(train: seq<Rating>, test: seq<Rating>): (d: Dimensions)
    ensures d.userNumber >= 1 && d.itemNumber >= 1
    ensures forall r :: r in train + test ==> r.user < d.userNumber && r.item < d.itemNumber
    ensures d.userNumber == 1 || exists r :: r in train + test && r.user == d.userNumber - 1
    ensures d.itemNumber == 1 || exists r :: r in train + test && r.item == d.itemNumber - 1
    ensures NonNegativeIds(train) && NonNegativeIds(test) ==>
              InRange(train, d.userNumber, d.itemNumber) && InRange(test, d.userNumber, d.itemNumber)
  {
    var (u, i) := ScanIds(train, 0, 0);
    var (u', i') := ScanIds(test, u, i);
    Dimensions(u' + 1, i' + 1)
  }

  /** The worked example: user ids {1, 7} in training and {5} in test give
      8 users; item ids {3, 2} and {1} give 4 items. */
  lemma ScanExample()
    ensures ScanDimensions([Rating(1, 3, 4.0), Rating(7, 2, 2.0)], [Rating(5, 1, 3.0)])
         == Dimensions(8, 4)
  {
    var train := [Rating(1, 3, 4.0), Rating(7, 2, 2.0)];
    var test := [Rating(5, 1, 3.0)];
    assert train + test == [Rating(1, 3, 4.0), Rating(7, 2, 2.0), Rating(5, 1, 3.0)];
    assert Rating(7, 2, 2.0) in train + test;
    assert Rating(1, 3, 4.0) in train + test;
  }
}
