/** The training state of `Stochastic`: latent factor matrices, bias vectors,
    and the configuration set through its setters. */
module FactorModel {

  /** `factor`, `iteration`, `alpha`, `lambda`, `rangeMin`, `rangeMax`. The
      rating range is integral, as in the source. */
  datatype Config = Config(
    factor: int, iteration: int,
    alpha: real, lambda: real,
    rangeMin: int, rangeMax: int)

  /** `user` is factor rows by userNumber columns and `item` factor rows by
      itemNumber columns: entry [f][c] is the f-th latent coordinate of
      entity c. `userAvg` and `itemAvg` are the bias vectors. */
  datatype Model = Model(
    user: seq<seq<real>>, item: seq<seq<real>>,
    userAvg: seq<real>, itemAvg: seq<real>)

  /** `rows` is a rectangular height-by-width matrix. */
  predicate Matrix(rows: seq<seq<real>>, height: int, width: int) {
    |rows| == height && forall f :: 0 <= f < |rows| ==> |rows[f]| == width
  }

  /** Both matrices have `factor` rows and one column per entry of the
      matching bias vector. */
  predicate Fits(m: Model, factor: int) {
    Matrix(m.user, factor, |m.userAvg|) && Matrix(m.item, factor, |m.itemAvg|)
  }

  /** `m'` has the shape of `m`. */
  predicate SameShape(m: Model, m': Model, factor: int) {
    && Fits(m', factor)
    && |m'.userAvg| == |m.userAvg|
    && |m'.itemAvg| == |m.itemAvg|
  }

  /** Column `c` of a matrix, as extracted by Jama's `getMatrix(0, factor-1, c, c)`. */
  function Column(rows: seq<seq<real>>, c: int): seq<real>
    requires forall f :: 0 <= f < |rows| ==> 0 <= c < |rows[f]|
  {
    seq(|rows|, f requires 0 <= f < |rows| => var row := rows[f]; assert 0 <= c < |row|; row[c])
  }

  /** The inner product, accumulated in increasing factor order. */
  function Dot(a: seq<real>, b: seq<real>): real
    requires |a| == |b|
    decreases |a|
  {
    if |a| == 0 then 0.0 else Dot(a[..|a| - 1], b[..|b| - 1]) + a[|a| - 1] * b[|b| - 1]
  }

  /** The product of user `u`'s column with item `i`'s column: the 1x1
      matrix `transpose(user column) * item column`. */
  function Affinity(m: Model, factor: int, u: int, i: int): real
    requires Fits(m, factor) && 0 <= u < |m.userAvg| && 0 <= i < |m.itemAvg|
  {
    Dot(Column(m.user, u), Column(m.item, i))
  }

  /** The product depends on the two columns only: a model that agrees with
      `m` on user `u`'s and item `i`'s columns gives the same product. */
  lemma AffinityLocal(m: Model, m': Model, factor: int, u: int, i: int)
    requires Fits(m, factor) && SameShape(m, m', factor)
    requires 0 <= u < |m.userAvg| && 0 <= i < |m.itemAvg|
    requires forall f :: 0 <= f < factor ==> m'.user[f][u] == m.user[f][u] && m'.item[f][i] == m.item[f][i]
    ensures Affinity(m', factor, u, i) == Affinity(m, factor, u, i)
  {
    assert Column(m'.user, u) == Column(m.user, u);
    assert Column(m'.item, i) == Column(m.item, i);
  }
}
