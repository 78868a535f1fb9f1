/** One stochastic gradient descent step (`stochasticGradientDescent`). */
module Sgd {
  import opened FactorModel

  /** `x - alpha*(e*y + lambda*x)`: one regularised descent move of the
      latent coordinate `x` for error `e` and co-factor coordinate `y`. */
  function MoveFactor(x: real, e: real, y: real, cfg: Config): real {
    x - cfg.alpha * (e * y + cfg.lambda * x)
  }

  /** `x - alpha*(e + lambda*x)`: one regularised descent move of the bias
      `x` for error `e`. */
  function MoveBias(x: real, e: real, cfg: Config): real {
    x - cfg.alpha * (e + cfg.lambda * x)
  }

  /** Pass `f` of the factor loop with error term `e`: `user[f][u]` is
      moved first and `item[f][i]` is then moved using the new `user[f][u]`. */
  function Pass(q: Model, cfg: Config, u: int, i: int, e: real, f: int): (p: Model)
    requires Fits(q, cfg.factor) && 0 <= u < |q.userAvg| && 0 <= i < |q.itemAvg| && 0 <= f < cfg.factor
    ensures SameShape(q, p, cfg.factor)
  {
    var userF := MoveFactor(q.user[f][u], e, q.item[f][i], cfg);
    var itemF := MoveFactor(q.item[f][i], e, userF, cfg);
    q.(user := q.user[f := q.user[f][u := userF]], item := q.item[f := q.item[f][i := itemF]])
  }

  /** The state after the first `k` passes of the factor loop for the pair
      (u, i) and score `r`, with the product `d` fixed before the loop. The
      error term is re-read from the bias vectors on every pass. */
  function FactorPasses(m: Model, cfg: Config, u: int, i: int, r: real, d: real, k: nat): (p: Model)
    requires Fits(m, cfg.factor) && 0 <= u < |m.userAvg| && 0 <= i < |m.itemAvg| && k <= cfg.factor
    ensures SameShape(m, p, cfg.factor)
    ensures p.userAvg == m.userAvg && p.itemAvg == m.itemAvg
    decreases k
  {
    if k == 0 then m
    else
      var q := FactorPasses(m, cfg, u, i, r, d, k - 1);
      Pass(q, cfg, u, i, d - r + q.userAvg[u] + q.itemAvg[i], k - 1)
  }

  /** A pass writes row `f` only, in that row only user `u`'s and item
      `i`'s coordinates, and the item coordinate reads the new user one. */
  lemma PassFrame(q: Model, cfg: Config, u: int, i: int, e: real, f: int)
    requires Fits(q, cfg.factor) && 0 <= u < |q.userAvg| && 0 <= i < |q.itemAvg| && 0 <= f < cfg.factor
    ensures var p := Pass(q, cfg, u, i, e, f);
      && p.userAvg == q.userAvg && p.itemAvg == q.itemAvg
      && (forall g :: 0 <= g < cfg.factor && g != f ==> p.user[g] == q.user[g] && p.item[g] == q.item[g])
      && (forall c :: 0 <= c < |q.userAvg| && c != u ==> p.user[f][c] == q.user[f][c])
      && (forall c :: 0 <= c < |q.itemAvg| && c != i ==> p.item[f][c] == q.item[f][c])
      && p.user[f][u] == MoveFactor(q.user[f][u], e, q.item[f][i], cfg)
      && p.item[f][i] == MoveFactor(q.item[f][i], e, p.user[f][u], cfg)
  {
  }

  /** After `k` passes the rows from `k` on are untouched. */
  lemma {:induction false} LaterRowsUntouched(m: Model, cfg: Config, u: int, i: int, r: real, d: real, k: nat)
    requires Fits(m, cfg.factor) && 0 <= u < |m.userAvg| && 0 <= i < |m.itemAvg| && k <= cfg.factor
    ensures var p := FactorPasses(m, cfg, u, i, r, d, k);
      forall f :: k <= f < cfg.factor ==> p.user[f] == m.user[f] && p.item[f] == m.item[f]
    decreases k
  {
    if k > 0 {
      LaterRowsUntouched(m, cfg, u, i, r, d, k - 1);
      var q := FactorPasses(m, cfg, u, i, r, d, k - 1);
      PassFrame(q, cfg, u, i, d - r + q.userAvg[u] + q.itemAvg[i], k - 1);
    }
  }

  /** After `k` passes no column other than user `u`'s and item `i`'s has
      moved. */
  lemma {:induction false} OtherColumnsUntouched(m: Model, cfg: Config, u: int, i: int, r: real, d: real, k: nat)
    requires Fits(m, cfg.factor) && 0 <= u < |m.userAvg| && 0 <= i < |m.itemAvg| && k <= cfg.factor
    ensures var p := FactorPasses(m, cfg, u, i, r, d, k);
      && (forall f, c :: 0 <= f < cfg.factor && 0 <= c < |m.userAvg| && c != u ==> p.user[f][c] == m.user[f][c])
      && (forall f, c :: 0 <= f < cfg.factor && 0 <= c < |m.itemAvg| && c != i ==> p.item[f][c] == m.item[f][c])
    decreases k
  {
    if k > 0 {
      OtherColumnsUntouched(m, cfg, u, i, r, d, k - 1);
      var q := FactorPasses(m, cfg, u, i, r, d, k - 1);
      PassFrame(q, cfg, u, i, d - r + q.userAvg[u] + q.itemAvg[i], k - 1);
    }
  }

  /** After `k` passes, row `f < k` holds its closed-form update, computed
      from the old values of that row alone and the error of the old biases. */
  lemma {:induction false} PassedRowUpdated(m: Model, cfg: Config, u: int, i: int, r: real, d: real, e: real, k: nat, f: nat)
    requires Fits(m, cfg.factor) && 0 <= u < |m.userAvg| && 0 <= i < |m.itemAvg| && f < k <= cfg.factor
    requires e == d - r + m.userAvg[u] + m.itemAvg[i]
    ensures var p := FactorPasses(m, cfg, u, i, r, d, k);
      && p.user[f][u] == MoveFactor(m.user[f][u], e, m.item[f][i], cfg)
      && p.item[f][i] == MoveFactor(m.item[f][i], e, p.user[f][u], cfg)
    decreases k
  {
    var q := FactorPasses(m, cfg, u, i, r, d, k - 1);
    var p := FactorPasses(m, cfg, u, i, r, d, k);
    assert q.userAvg == m.userAvg && q.itemAvg == m.itemAvg;
    assert p == Pass(q, cfg, u, i, e, k - 1);
    PassFrame(q, cfg, u, i, e, k - 1);
    if f < k - 1 {
      PassedRowUpdated(m, cfg, u, i, r, d, e, k - 1, f);
      assert p.user[f] == q.user[f] && p.item[f] == q.item[f];
    } else {
      LaterRowsUntouched(m, cfg, u, i, r, d, k - 1);
      assert q.user[f] == m.user[f] && q.item[f] == m.item[f];
    }
  }

  /** Only user `u`'s column, item `i`'s column and the two bias cells
      `userAvg[u]`, `itemAvg[i]` differ between `m` and `m'`. */
  predicate Untouched(m: Model, m': Model, u: int, i: int)
    requires |m'.user| == |m.user| && |m'.item| == |m.item|
    requires |m'.userAvg| == |m.userAvg| && |m'.itemAvg| == |m.itemAvg|
  {
    && (forall f, c :: 0 <= f < |m.user| && 0 <= c < |m.user[f]| && c != u && c < |m'.user[f]| ==>
          m'.user[f][c] == m.user[f][c])
    && (forall f, c :: 0 <= f < |m.item| && 0 <= c < |m.item[f]| && c != i && c < |m'.item[f]| ==>
          m'.item[f][c] == m.item[f][c])
    && (forall c :: 0 <= c < |m.userAvg| && c != u ==> m'.userAvg[c] == m.userAvg[c])
    && (forall c :: 0 <= c < |m.itemAvg| && c != i ==> m'.itemAvg[c] == m.itemAvg[c])
  }

  /** One SGD step on the line (u, i, r). `factor` must be positive: Jama
      reads the first row of the matrix it wraps. */
  function Step(m: Model, cfg: Config, u: int, i: int, r: real): (m': Model)
    requires cfg.factor > 0 && Fits(m, cfg.factor)
    requires 0 <= u < |m.userAvg| && 0 <= i < |m.itemAvg|
    ensures SameShape(m, m', cfg.factor)
  {
    var d := Affinity(m, cfg.factor, u, i);
    var p := FactorPasses(m, cfg, u, i, r, d, cfg.factor);
    var ua := MoveBias(p.userAvg[u], d - r + p.userAvg[u] + p.itemAvg[i], cfg);
    var q := p.(userAvg := p.userAvg[u := ua]);
    var ia := MoveBias(q.itemAvg[i], d - r + q.userAvg[u] + q.itemAvg[i], cfg);
    q.(itemAvg := q.itemAvg[i := ia])
  }

  /** A step changes nothing but user `u`'s column, item `i`'s column and
      the two bias cells of the pair. */
  lemma StepFrame(m: Model, cfg: Config, u: int, i: int, r: real)
    requires cfg.factor > 0 && Fits(m, cfg.factor)
    requires 0 <= u < |m.userAvg| && 0 <= i < |m.itemAvg|
    ensures Untouched(m, Step(m, cfg, u, i, r), u, i)
  {
    OtherColumnsUntouched(m, cfg, u, i, r, Affinity(m, cfg.factor, u, i), cfg.factor);
  }

  /** The update rule in closed form. With d the product of the old columns
      and e = d - r + userAvg[u] + itemAvg[i] from the old biases: every user
      coordinate moves against e times the old item coordinate; every item
      coordinate moves against e times the NEW user coordinate; the user bias
      moves against e; the item bias moves against the error recomputed with
      the NEW user bias. */
  lemma StepFormula(m: Model, cfg: Config, u: int, i: int, r: real)
    requires cfg.factor > 0 && Fits(m, cfg.factor)
    requires 0 <= u < |m.userAvg| && 0 <= i < |m.itemAvg|
    ensures var m' := Step(m, cfg, u, i, r);
      var d := Affinity(m, cfg.factor, u, i);
      var e := d - r + m.userAvg[u] + m.itemAvg[i];
      && (forall f :: 0 <= f < cfg.factor ==>
            && m'.user[f][u] == MoveFactor(m.user[f][u], e, m.item[f][i], cfg)
            && m'.item[f][i] == MoveFactor(m.item[f][i], e, m'.user[f][u], cfg))
      && m'.userAvg[u] == MoveBias(m.userAvg[u], e, cfg)
      && m'.itemAvg[i] == MoveBias(m.itemAvg[i], d - r + m'.userAvg[u] + m.itemAvg[i], cfg)
  {
    var d := Affinity(m, cfg.factor, u, i);
    var e := d - r + m.userAvg[u] + m.itemAvg[i];
    forall f | 0 <= f < cfg.factor
      ensures var m' := Step(m, cfg, u, i, r);
        && m'.user[f][u] == MoveFactor(m.user[f][u], e, m.item[f][i], cfg)
        && m'.item[f][i] == MoveFactor(m.item[f][i], e, m'.user[f][u], cfg)
    {
      PassedRowUpdated(m, cfg, u, i, r, d, e, cfg.factor, f);
    }
  }

  /** The columns [1, 0] and [0, 1] of the worked example are orthogonal. */
  lemma ExampleProduct(m: Model)
    requires m == Model([[1.0], [0.0]], [[0.0], [1.0]], [0.0], [0.0])
    ensures Fits(m, 2) && Affinity(m, 2, 0, 0) == 0.0
  {
    assert Column(m.user, 0) == [1.0, 0.0];
    assert Column(m.item, 0) == [0.0, 1.0];
    assert [1.0, 0.0][..1] == [1.0] && [0.0, 1.0][..1] == [0.0];
    assert Dot([1.0], [0.0]) == 0.0;
  }

  /** The worked example: user column [1, 0], item column [0, 1], alpha 0.1,
      lambda 0, score 4 and zero biases give user [1, 0.4], item [0.4, 1.16],
      user bias 0.4 and item bias 0.36. The item's second coordinate is 1.16
      and not 1 because it reads the user coordinate already moved to 0.4. */
  lemma StepExample()
    ensures Step(Model([[1.0], [0.0]], [[0.0], [1.0]], [0.0], [0.0]), Config(2, 1, 0.1, 0.0, 1, 5), 0, 0, 4.0)
         == Model([[1.0], [0.4]], [[0.4], [1.16]], [0.4], [0.36])
  {
    var m := Model([[1.0], [0.0]], [[0.0], [1.0]], [0.0], [0.0]);
    var cfg := Config(2, 1, 0.1, 0.0, 1, 5);
    ExampleProduct(m);
    StepFormula(m, cfg, 0, 0, 4.0);
    var m' := Step(m, cfg, 0, 0, 4.0);
    assert m'.user[0] == [1.0] && m'.user[1] == [0.4];
    assert m'.item[0] == [0.4] && m'.item[1] == [1.16];
  }
}
