/** Denoising utilities of meegkit/utils/denoise.py: weighted demeaning,
    weighted power, and the outlier sample and trial selections.
    Data are 2-D (samples x channels); weights are an explicit matrix. */
module Denoise {
  import opened Arrays

  // ---------------------------------------------------------------------------
  // demean
  // ---------------------------------------------------------------------------

  /** The two ValueErrors that `demean` raises. */
  datatype DemeanError =
    | WeightRowsMismatch    // weights and data differ in their number of samples
    | WeightColumnsInvalid  // weights have neither one column nor one per channel

  /** The centred data and the mean that was removed (one entry per channel). */
  datatype Demeaned = Demeaned(x: Matrix, mean: seq<real>)

  /** The weight column that applies to data column j: a single weight column
      is broadcast over every channel. */
  function WeightCol(W: Matrix, j: nat): nat
  {
    if W.cols == 1 then 0 else j
  }

  /** The weights that apply to data column j. */
  function WeightsFor(X: Matrix, W: Matrix, j: nat): (w: seq<real>)
    requires W.rows == X.rows && (W.cols == 1 || W.cols == X.cols) && j < X.cols
    ensures |w| == X.rows
  {
    Col(W, WeightCol(W, j))
  }

  /** Weighted mean of column j: sum(X * w) / sum(w). A column whose weights
      sum to zero gets mean 0 (numpy would produce NaN there). */
  function WeightedMean(X: Matrix, W: Matrix, j: nat): real
    requires W.rows == X.rows && (W.cols == 1 || W.cols == X.cols) && j < X.cols
  {
    var w := WeightsFor(X, W, j);
    if Sum(w) == 0.0 then 0.0 else Dot(w, Col(X, j)) / Sum(w)
  }

  /** Plain mean of column j (np.mean(X, axis=0)). */
  function PlainMean(X: Matrix, j: nat): real
    requires j < X.cols
  {
    if X.rows == 0 then 0.0 else Sum(Col(X, j)) / (X.rows as real)
  }

  /** X - mn, the mean row broadcast over every sample. */
  function SubtractRow(X: Matrix, mn: seq<real>): (r: Matrix)
    requires |mn| == X.cols
    ensures r.rows == X.rows && r.cols == X.cols
    ensures forall i, j | 0 <= i < X.rows && 0 <= j < X.cols :: r.at[i][j] == X.at[i][j] - mn[j]
  {
    Mat(X.rows, X.cols, seq(X.rows, i requires 0 <= i < X.rows =>
      seq(X.cols, j requires 0 <= j < X.cols => X.at[i][j] - mn[j])))
  }

  /** `demean(X, weights, return_mean=True)`. Absent weights are the empty
      matrix. The shape checks happen only when some weight is non-zero. */
  function Demean(X: Matrix, W: Matrix): (r: Result<Demeaned, DemeanError>)
    ensures r.Err? <==> AnyNonzero(W) && (W.rows != X.rows || (W.cols != 1 && W.cols != X.cols))
    ensures r.Err? ==> (r.error == WeightRowsMismatch <==> W.rows != X.rows)
    ensures r.Ok? ==> r.value.x.rows == X.rows && r.value.x.cols == X.cols && |r.value.mean| == X.cols
    ensures r.Ok? ==> forall i, j | 0 <= i < X.rows && 0 <= j < X.cols ::
                        r.value.x.at[i][j] == X.at[i][j] - r.value.mean[j]
  {
    if AnyNonzero(W) then
      if W.rows != X.rows then
        Err(WeightRowsMismatch)
      else if W.cols == 1 || W.cols == X.cols then
        var mn := seq(X.cols, j requires 0 <= j < X.cols => WeightedMean(X, W, j));
        Ok(Demeaned(SubtractRow(X, mn), mn))
      else
        Err(WeightColumnsInvalid)
    else
      var mn := seq(X.cols, j requires 0 <= j < X.cols => PlainMean(X, j));
      Ok(Demeaned(SubtractRow(X, mn), mn))
  }

  /** With weights that are not all zero, every output column has zero weighted
      sum whenever the weights of that column do not sum to zero. */
  lemma DemeanWeightedBalance(X: Matrix, W: Matrix, j: nat)
    requires AnyNonzero(W) && W.rows == X.rows && (W.cols == 1 || W.cols == X.cols)
    requires j < X.cols && Sum(WeightsFor(X, W, j)) != 0.0
    ensures Demean(X, W).Ok?
    ensures Dot(WeightsFor(X, W, j), Col(Demean(X, W).value.x, j)) == 0.0
  {
    var r := Demean(X, W).value;
    var w := WeightsFor(X, W, j);
    var m := WeightedMean(X, W, j);
    assert r.mean[j] == m;
    assert Col(r.x, j) == Shift(Col(X, j), m);
    DotShift(w, Col(X, j), m);
    assert m * Sum(w) == Dot(w, Col(X, j));
  }

  /** With all-zero (or absent) weights `demean` subtracts the plain column
      mean, so every output column sums to zero. */
  lemma DemeanFallbackBalance(X: Matrix, W: Matrix, j: nat)
    requires !AnyNonzero(W) && j < X.cols
    ensures Demean(X, W).Ok?
    ensures X.rows > 0 ==> Demean(X, W).value.mean[j] == Sum(Col(X, j)) / (X.rows as real)
    ensures Sum(Col(Demean(X, W).value.x, j)) == 0.0
  {
    var r := Demean(X, W).value;
    var m := PlainMean(X, j);
    assert r.mean[j] == m;
    assert Col(r.x, j) == Shift(Col(X, j), m);
    SumShift(Col(X, j), m);
  }

  /** A weight matrix of c columns, each a copy of the single column of w. */
  function SpreadColumn(w: Matrix, c: nat): (r: Matrix)
    requires w.cols == 1
    ensures r.rows == w.rows && r.cols == c
    ensures forall i, j | 0 <= i < w.rows && 0 <= j < c :: r.at[i][j] == w.at[i][0]
  {
    Mat(w.rows, c, seq(w.rows, i requires 0 <= i < w.rows => seq(c, j => w.at[i][0])))
  }

  /** One weight column gives the same result as a per-channel weight matrix
      whose columns are all that column. */
  lemma DemeanSingleColumnWeights(X: Matrix, w: Matrix)
    requires w.cols == 1 && X.cols >= 1
    ensures Demean(X, w) == Demean(X, SpreadColumn(w, X.cols))
  {
    var S := SpreadColumn(w, X.cols);
    if AnyNonzero(w) {
      var i, j :| 0 <= i < w.rows && 0 <= j < 1 && w.at[i][j] != 0.0;
      assert S.at[i][0] != 0.0;
    }
    if AnyNonzero(S) {
      var i, j :| 0 <= i < S.rows && 0 <= j < S.cols && S.at[i][j] != 0.0;
      assert w.at[i][0] != 0.0;
    }
    if AnyNonzero(w) && w.rows == X.rows {
      forall j | 0 <= j < X.cols ensures WeightedMean(X, w, j) == WeightedMean(X, S, j) {
        assert WeightsFor(X, w, j) == WeightsFor(X, S, j);
      }
      var m1 := seq(X.cols, j requires 0 <= j < X.cols => WeightedMean(X, w, j));
      var m2 := seq(X.cols, j requires 0 <= j < X.cols => WeightedMean(X, S, j));
      assert m1 == m2;
    }
  }

  // ---------------------------------------------------------------------------
  // wpwr
  // ---------------------------------------------------------------------------

  /** Weighted power y and the total weight. */
  datatype Power = Power(y: real, tweight: real)

  /** `X * weights` fails in numpy unless the shapes broadcast. */
  datatype WpwrError = ShapesDoNotBroadcast

  /** numpy's broadcasting rule for one axis. */
  predicate Broadcastable(a: nat, b: nat)
  {
    a == b || a == 1 || b == 1
  }

  /** The length of one broadcast axis. */
  function BroadcastLen(a: nat, b: nat): nat
  {
    if a == 1 then b else a
  }

  /** The index into an axis of length a that broadcast index i reads. */
  function BroadcastIndex(a: nat, i: nat): nat
  {
    if a == 1 then 0 else i
  }

  /** The broadcast elementwise product `X * W`. */
  function BroadcastMul(X: Matrix, W: Matrix): (r: Matrix)
    requires Broadcastable(X.rows, W.rows) && Broadcastable(X.cols, W.cols)
    ensures r.rows == BroadcastLen(X.rows, W.rows) && r.cols == BroadcastLen(X.cols, W.cols)
    ensures forall i, j | 0 <= i < r.rows && 0 <= j < r.cols ::
              r.at[i][j] == X.at[BroadcastIndex(X.rows, i)][BroadcastIndex(X.cols, j)]
                              * W.at[BroadcastIndex(W.rows, i)][BroadcastIndex(W.cols, j)]
  {
    var n := BroadcastLen(X.rows, W.rows);
    var c := BroadcastLen(X.cols, W.cols);
    Mat(n, c, seq(n, i requires 0 <= i < n => seq(c, j requires 0 <= j < c =>
      X.at[BroadcastIndex(X.rows, i)][BroadcastIndex(X.cols, j)]
        * W.at[BroadcastIndex(W.rows, i)][BroadcastIndex(W.cols, j)])))
  }

  /** `wpwr(X, weights)`; absent weights are the empty matrix (size 0). */
  function Wpwr(X: Matrix, W: Matrix): (r: Result<Power, WpwrError>)
    ensures r.Err? <==> W.rows * W.cols > 0 && !(Broadcastable(X.rows, W.rows) && Broadcastable(X.cols, W.cols))
    ensures r.Ok? ==> r.value.y >= 0.0
    ensures W.rows * W.cols == 0 ==> r.Ok? && r.value.tweight == (X.rows * X.cols) as real
    ensures W.rows * W.cols == 0 ==> r.Ok? && r.value.y == Total(Squared(X))
    ensures W.rows * W.cols > 0 && r.Ok? ==> r.value.tweight == Total(W)
    ensures W.rows * W.cols > 0 && r.Ok? ==> r.value.y == Total(Squared(BroadcastMul(X, W)))
  {
    if W.rows * W.cols > 0 then
      if Broadcastable(X.rows, W.rows) && Broadcastable(X.cols, W.cols) then
        var P := Squared(BroadcastMul(X, W));
        SumRowsNonneg(P.at);
        Ok(Power(Total(P), Total(W)))
      else
        Err(ShapesDoNotBroadcast)
    else
      var P := Squared(X);
      SumRowsNonneg(P.at);
      Ok(Power(Total(P), (X.rows * X.cols) as real))
  }

  /** With weights of the data's own shape, y is the sum of (X w)^2 over every
      element and the total weight is the sum of the weights. */
  lemma WpwrSameShape(X: Matrix, W: Matrix)
    requires W.rows == X.rows && W.cols == X.cols && X.rows * X.cols > 0
    ensures Wpwr(X, W).Ok?
    ensures Wpwr(X, W).value.tweight == Total(W)
    ensures Wpwr(X, W).value.y == SumRows(seq(X.rows, i requires 0 <= i < X.rows =>
              seq(X.cols, j requires 0 <= j < X.cols => (X.at[i][j] * W.at[i][j]) * (X.at[i][j] * W.at[i][j]))))
  {
    var P := Squared(BroadcastMul(X, W));
    var Q := seq(X.rows, i requires 0 <= i < X.rows =>
              seq(X.cols, j requires 0 <= j < X.cols => (X.at[i][j] * W.at[i][j]) * (X.at[i][j] * W.at[i][j])));
    forall i | 0 <= i < X.rows ensures P.at[i] == Q[i] {
      assert BroadcastIndex(X.rows, i) == i;
      forall j | 0 <= j < X.cols ensures P.at[i][j] == Q[i][j] {
        assert BroadcastIndex(X.cols, j) == j;
      }
    }
    assert P.at == Q;
  }

  /** Unit weights of the data's shape give the unweighted power. */
  lemma WpwrUnitWeights(X: Matrix)
    requires X.rows * X.cols > 0
    ensures Wpwr(X, Ones(X.rows, X.cols)) == Wpwr(X, Mat(0, 0, []))
  {
    var U := Ones(X.rows, X.cols);
    var B := BroadcastMul(X, U);
    MatrixExt(B, X);
    SumRowsOnes(U.at, X.cols);
  }
  // ---------------------------------------------------------------------------
  // find_outlier_samples
  // ---------------------------------------------------------------------------

  /** Zero every weight whose sample exceeds t in absolute value
      (`weights[np.where(abs(X) > toobig1)] = 0`). */
  function Mask(W: Matrix, X: Matrix, t: real): (r: Matrix)
    requires W.rows == X.rows && W.cols == X.cols
    ensures r.rows == X.rows && r.cols == X.cols
    ensures forall i, j | 0 <= i < X.rows && 0 <= j < X.cols ::
              r.at[i][j] == if Abs(X.at[i][j]) > t then 0.0 else W.at[i][j]
  {
    Mat(X.rows, X.cols, seq(X.rows, i requires 0 <= i < X.rows =>
      seq(X.cols, j requires 0 <= j < X.cols => if Abs(X.at[i][j]) > t then 0.0 else W.at[i][j])))
  }

  /** `demean(X, weights)` for weights of the data's own shape, which never fails. */
  function DemeanedBy(X: Matrix, W: Matrix): (r: Matrix)
    requires W.rows == X.rows && W.cols == X.cols
    ensures r.rows == X.rows && r.cols == X.cols
  {
    Demean(X, W).value.x
  }

  /** The weights and the data between two passes of find_outlier_samples. */
  datatype Stage = Stage(w: Matrix, x: Matrix)

  predicate Aligned(s: Stage)
  {
    s.w.rows == s.x.rows && s.w.cols == s.x.cols
  }

  /** One absolute-threshold pass: mask the weights, then demean with them. */
  function AbsolutePass(s: Stage, t: real): (r: Stage)
    requires Aligned(s)
    ensures Aligned(r) && r.x.rows == s.x.rows && r.x.cols == s.x.cols
  {
    var w := Mask(s.w, s.x, t);
    Stage(w, DemeanedBy(s.x, w))
  }

  /** The three passes of lines 124-131, starting from unit weights. */
  function AbsolutePasses(X: Matrix, t: real): (r: Stage)
    ensures Aligned(r) && r.x.rows == X.rows && r.x.cols == X.cols
  {
    AbsolutePass(AbsolutePass(AbsolutePass(Stage(Ones(X.rows, X.cols), X), t), t), t)
  }

  /** Some sample of row i has power above t2 times its channel's mean power. */
  predicate RowExceeds(X: Matrix, mn: seq<real>, t2: real, i: nat)
    requires |mn| == X.cols && i < X.rows
  {
    exists j | 0 <= j < X.cols :: X.at[i][j] * X.at[i][j] > mn[j] * t2
  }

  /** `weights[idx] = 0` for the rows idx that exceed the relative threshold. */
  function ZeroRows(W: Matrix, X: Matrix, mn: seq<real>, t2: real): (r: Matrix)
    requires W.rows == X.rows && W.cols == X.cols && |mn| == X.cols
    ensures r.rows == X.rows && r.cols == X.cols
    ensures forall i, j | 0 <= i < X.rows && 0 <= j < X.cols ::
              r.at[i][j] == if RowExceeds(X, mn, t2, i) then 0.0 else W.at[i][j]
  {
    Mat(X.rows, X.cols, seq(X.rows, i requires 0 <= i < X.rows =>
      seq(X.cols, j requires 0 <= j < X.cols => if RowExceeds(X, mn, t2, i) then 0.0 else W.at[i][j])))
  }

  /** The weights and data after the absolute step (unit weights when toobig1 is None). */
  function AbsoluteStep(X: Matrix, toobig1: Option<real>): (r: Stage)
    ensures Aligned(r) && r.x.rows == X.rows && r.x.cols == X.cols
  {
    if toobig1.Some? then AbsolutePasses(X, toobig1.value) else Stage(Ones(X.rows, X.cols), X)
  }

  /** Mean power per channel, weighted by the current weights (line 137). */
  function MeanPower(s: Stage): (mn: seq<real>)
    requires Aligned(s)
    ensures |mn| == s.x.cols
  {
    Demean(Squared(s.x), s.w).value.mean
  }

  /** `if toobig2:` -- None and 0 are both falsy. */
  predicate RelativeRequested(toobig2: Option<real>)
  {
    toobig2.Some? && toobig2.value != 0.0
  }

  /** The weights find_outlier_samples returns, with the relative threshold
      comparing each sample's power against toobig2 times the mean power. */
  function OutlierSamples(X: Matrix, toobig1: Option<real>, toobig2: Option<real>): (r: Matrix)
    ensures r.rows == X.rows && r.cols == X.cols
  {
    var s := AbsoluteStep(X, toobig1);
    if RelativeRequested(toobig2) then ZeroRows(s.w, s.x, MeanPower(s), toobig2.value) else s.w
  }

  /** The relative step as written: X is overwritten with the tiled mean, so
      the comparison is between the mean and itself. */
  function Tile(mn: seq<real>, n: nat): (r: Matrix)
    ensures r.rows == n && r.cols == |mn|
    ensures forall i | 0 <= i < n :: r.at[i] == mn
  {
    Mat(n, |mn|, seq(n, i => mn))
  }

  function OutlierSamplesAsWritten(X: Matrix, toobig1: Option<real>, toobig2: Option<real>): (r: Matrix)
    ensures r.rows == X.rows && r.cols == X.cols
  {
    var s := AbsoluteStep(X, toobig1);
    if RelativeRequested(toobig2) then
      var mn := MeanPower(s);
      ZeroRows(s.w, Tile(mn, X.rows), mn, toobig2.value)
    else s.w
  }

  /** The three absolute passes zero exactly the samples that exceed toobig1
      in the data, or in the data after the first or the second demeaning.
      Every other weight stays 1. */
  lemma AbsolutePassesZeroExactly(X: Matrix, t: real, i: nat, j: nat)
    requires i < X.rows && j < X.cols
    ensures var s1 := AbsolutePass(Stage(Ones(X.rows, X.cols), X), t);
            var s2 := AbsolutePass(s1, t);
            var w := OutlierSamples(X, Some(t), None).at[i][j];
            (w == 0.0 || w == 1.0)
            && (w == 0.0 <==> Abs(X.at[i][j]) > t || Abs(s1.x.at[i][j]) > t || Abs(s2.x.at[i][j]) > t)
  {
  }

  /** With toobig1 None and no relative threshold every weight is 1. */
  lemma OutlierSamplesNoThresholds(X: Matrix, toobig2: Option<real>)
    requires !RelativeRequested(toobig2)
    ensures OutlierSamples(X, None, toobig2) == Ones(X.rows, X.cols)
  {
  }

  /** The relative step only zeroes: a weight is 0 after it exactly when it
      was 0 before or its row has a sample above toobig2 times the mean power. */
  lemma RelativeStepZeroesRows(X: Matrix, toobig1: Option<real>, t2: real, i: nat, j: nat)
    requires t2 != 0.0 && i < X.rows && j < X.cols
    ensures var s := AbsoluteStep(X, toobig1);
            var w := OutlierSamples(X, toobig1, Some(t2)).at[i][j];
            (w == 0.0 || w == s.w.at[i][j])
            && (w == 0.0 <==> s.w.at[i][j] == 0.0 || RowExceeds(s.x, MeanPower(s), t2, i))
  {
  }

  /** Every returned weight is 0 or 1, and a weight is 1 only if it was 1 after
      each earlier step: find_outlier_samples only ever turns ones into zeros. */
  lemma OutlierSamplesOnlyZeroes(X: Matrix, toobig1: Option<real>, toobig2: Option<real>, i: nat, j: nat)
    requires i < X.rows && j < X.cols
    ensures var w := OutlierSamples(X, toobig1, toobig2).at[i][j];
            (w == 0.0 || w == 1.0)
            && (w == 1.0 ==> AbsoluteStep(X, toobig1).w.at[i][j] == 1.0)
            && (toobig1.Some? && w == 1.0 ==> Abs(X.at[i][j]) <= toobig1.value)
  {
    var s := AbsoluteStep(X, toobig1);
    if toobig1.Some? {
      AbsolutePassesZeroExactly(X, toobig1.value, i, j);
    }
  }

  /** Comparing the tiled mean with itself decides the same for every row. */
  lemma TiledRowsAllOrNothing(W: Matrix, mn: seq<real>, t2: real)
    requires W.cols == |mn|
    ensures var r := ZeroRows(W, Tile(mn, W.rows), mn, t2);
            r == W || forall i, j | 0 <= i < W.rows && 0 <= j < W.cols :: r.at[i][j] == 0.0
  {
    var T := Tile(mn, W.rows);
    var r := ZeroRows(W, T, mn, t2);
    if W.rows > 0 {
      if RowExceeds(T, mn, t2, 0) {
        var j0 :| 0 <= j0 < W.cols && T.at[0][j0] * T.at[0][j0] > mn[j0] * t2;
        forall i | 0 <= i < W.rows ensures RowExceeds(T, mn, t2, i) {
          assert T.at[i][j0] == T.at[0][j0];
        }
      } else {
        forall i | 0 <= i < W.rows ensures !RowExceeds(T, mn, t2, i) {
          assert T.at[i] == T.at[0];
        }
        MatrixExt(r, W);
      }
    } else {
      MatrixExt(r, W);
    }
  }

  /** As written, the relative step either leaves every weight alone or
      zeroes every one, whatever the samples are. */
  lemma AsWrittenAllOrNothing(X: Matrix, toobig1: Option<real>, toobig2: Option<real>)
    ensures var r := OutlierSamplesAsWritten(X, toobig1, toobig2);
            r == AbsoluteStep(X, toobig1).w
            || forall i, j | 0 <= i < X.rows && 0 <= j < X.cols :: r.at[i][j] == 0.0
  {
    var s := AbsoluteStep(X, toobig1);
    if RelativeRequested(toobig2) {
      TiledRowsAllOrNothing(s.w, MeanPower(s), toobig2.value);
    }
  }

  /** Mean power 25 for the single channel [0, 0, 0, 10]. */
  lemma ExampleMeanPower(X: Matrix)
    requires X == Mat(4, 1, [[0.0], [0.0], [0.0], [10.0]])
    ensures MeanPower(AbsoluteStep(X, None)) == [25.0]
  {
    var s := AbsoluteStep(X, None);
    var W := s.w;
    assert W.at[0][0] == 1.0;
    assert AnyNonzero(W);
    var P := Squared(X);
    assert Col(P, 0) == [0.0, 0.0, 0.0, 100.0];
    assert Col(W, 0) == [1.0, 1.0, 1.0, 1.0];
    assert WeightsFor(P, W, 0) == [1.0, 1.0, 1.0, 1.0];
    assert Sum([1.0, 1.0, 1.0, 1.0]) == 4.0;
    assert Dot([1.0, 1.0, 1.0, 1.0], [0.0, 0.0, 0.0, 100.0]) == 100.0;
    assert WeightedMean(P, W, 0) == 25.0;
  }

  /** With one channel, a row exceeds the threshold exactly when its only sample does. */
  lemma RowExceedsOneChannel(M: Matrix, mn: seq<real>, t2: real, i: nat)
    requires M.cols == 1 && |mn| == 1 && i < M.rows
    ensures RowExceeds(M, mn, t2, i) <==> M.at[i][0] * M.at[i][0] > mn[0] * t2
  {
  }

  /** A one-channel tiled mean m with m * m > m * t2 zeroes every row. */
  lemma TiledOneChannelZeroes(W: Matrix, m: real, t2: real)
    requires W.cols == 1 && m * m > m * t2
    ensures forall i | 0 <= i < W.rows :: ZeroRows(W, Tile([m], W.rows), [m], t2).at[i] == [0.0]
  {
    var T := Tile([m], W.rows);
    forall i | 0 <= i < W.rows ensures ZeroRows(W, T, [m], t2).at[i] == [0.0] {
      assert T.at[i] == [m];
      RowExceedsOneChannel(T, [m], t2, i);
    }
  }

  /** Counterexample: one sample of power 100 among three silent ones, with
      toobig2 = 2. As written every weight is zeroed, the silent samples
      included. */
  lemma AsWrittenZeroesQuietSamples(X: Matrix)
    requires X == Mat(4, 1, [[0.0], [0.0], [0.0], [10.0]])
    ensures OutlierSamplesAsWritten(X, None, Some(2.0)).at == [[0.0], [0.0], [0.0], [0.0]]
  {
    var s := AbsoluteStep(X, None);
    ExampleMeanPower(X);
    TiledOneChannelZeroes(s.w, 25.0, 2.0);
    var a := ZeroRows(s.w, Tile([25.0], 4), [25.0], 2.0);
    assert OutlierSamplesAsWritten(X, None, Some(2.0)) == a;
    assert |a.at| == 4;
  }

  /** On the same input the corrected comparison zeroes only the loud sample. */
  lemma CorrectedZeroesLoudSample(X: Matrix)
    requires X == Mat(4, 1, [[0.0], [0.0], [0.0], [10.0]])
    ensures OutlierSamples(X, None, Some(2.0)).at == [[1.0], [1.0], [1.0], [0.0]]
  {
    var s := AbsoluteStep(X, None);
    assert s.x == X && s.w == Ones(4, 1);
    ExampleMeanPower(X);
    var mn := MeanPower(s);
    assert mn == [25.0];
    var c := ZeroRows(s.w, X, mn, 2.0);
    forall i | 0 <= i < 3 ensures c.at[i] == [1.0] {
      assert X.at[i][0] == 0.0;
      RowExceedsOneChannel(X, mn, 2.0, i);
    }
    assert c.at[3] == [0.0] by {
      assert X.at[3][0] == 10.0;
      RowExceedsOneChannel(X, mn, 2.0, 3);
    }
    assert OutlierSamples(X, None, Some(2.0)) == c;
  }

  /** A real matrix view of a 2-D array. */
  function Snapshot(a: array2<real>): (r: Matrix)
    reads a
    ensures r.rows == a.Length0 && r.cols == a.Length1
    ensures forall i, j | 0 <= i < a.Length0 && 0 <= j < a.Length1 :: r.at[i][j] == a[i, j]
  {
    Mat(a.Length0, a.Length1, seq(a.Length0, i requires 0 <= i < a.Length0 reads a =>
      seq(a.Length1, j requires 0 <= j < a.Length1 reads a => a[i, j])))
  }

  /** `np.ones((n, c))` as a fresh array. */
  method NewOnes(n: nat, c: nat) returns (a: array2<real>)
    ensures fresh(a) && a.Length0 == n && a.Length1 == c
    ensures Snapshot(a) == Ones(n, c)
  {
    a := new real[n, c]((i, j) => 1.0);
    MatrixExt(Snapshot(a), Ones(n, c));
  }

  /** In place: `weights[np.where(abs(X) > t)] = 0`. */
  method MaskInPlace(w: array2<real>, X: Matrix, t: real)
    requires w.Length0 == X.rows && w.Length1 == X.cols
    modifies w
    ensures Snapshot(w) == Mask(old(Snapshot(w)), X, t)
  {
    ghost var before := Snapshot(w);
    var i := 0;
    while i < w.Length0
      invariant 0 <= i <= w.Length0
      invariant forall a, b | 0 <= a < i && 0 <= b < w.Length1 ::
                  w[a, b] == if Abs(X.at[a][b]) > t then 0.0 else before.at[a][b]
      invariant forall a, b | i <= a < w.Length0 && 0 <= b < w.Length1 :: w[a, b] == before.at[a][b]
    {
      var j := 0;
      while j < w.Length1
        invariant 0 <= j <= w.Length1
        invariant forall a, b | 0 <= a < i && 0 <= b < w.Length1 ::
                    w[a, b] == if Abs(X.at[a][b]) > t then 0.0 else before.at[a][b]
        invariant forall b | 0 <= b < j ::
                    w[i, b] == if Abs(X.at[i][b]) > t then 0.0 else before.at[i][b]
        invariant forall a, b | i <= a < w.Length0 && 0 <= b < w.Length1 && (a > i || b >= j) ::
                    w[a, b] == before.at[a][b]
      {
        if Abs(X.at[i][j]) > t {
          w[i, j] := 0.0;
        }
        j := j + 1;
      }
      i := i + 1;
    }
    MatrixExt(Snapshot(w), Mask(before, X, t));
  }

  /** In place: `weights[idx] = 0` for the rows that exceed the relative threshold. */
  method ZeroRowsInPlace(w: array2<real>, X: Matrix, mn: seq<real>, t2: real)
    requires w.Length0 == X.rows && w.Length1 == X.cols && |mn| == X.cols
    modifies w
    ensures Snapshot(w) == ZeroRows(old(Snapshot(w)), X, mn, t2)
  {
    ghost var before := Snapshot(w);
    var i := 0;
    while i < w.Length0
      invariant 0 <= i <= w.Length0
      invariant forall a, b | 0 <= a < i && 0 <= b < w.Length1 ::
                  w[a, b] == if RowExceeds(X, mn, t2, a) then 0.0 else before.at[a][b]
      invariant forall a, b | i <= a < w.Length0 && 0 <= b < w.Length1 :: w[a, b] == before.at[a][b]
    {
      if RowExceeds(X, mn, t2, i) {
        var j := 0;
        while j < w.Length1
          invariant 0 <= j <= w.Length1
          invariant forall a, b | 0 <= a < i && 0 <= b < w.Length1 ::
                      w[a, b] == if RowExceeds(X, mn, t2, a) then 0.0 else before.at[a][b]
          invariant forall b | 0 <= b < j :: w[i, b] == 0.0
          invariant forall a, b | i <= a < w.Length0 && 0 <= b < w.Length1 && (a > i || b >= j) ::
                      w[a, b] == before.at[a][b]
        {
          w[i, j] := 0.0;
          j := j + 1;
        }
      }
      i := i + 1;
    }
    MatrixExt(Snapshot(w), ZeroRows(before, X, mn, t2));
  }

  /** `find_outlier_samples(X, toobig1, toobig2)`: the weights start at one and
      are zeroed in place; toobig2 None stands for the default `[]`. */
  method FindOutlierSamples(X: Matrix, toobig1: Option<real>, toobig2: Option<real>)
    returns (weights: Matrix)
    ensures weights == OutlierSamples(X, toobig1, toobig2)
    ensures weights.rows == X.rows && weights.cols == X.cols
  {
    var w := NewOnes(X.rows, X.cols);
    var x := X;
    if toobig1.Some? {
      var t := toobig1.value;
      ghost var s0 := Stage(Snapshot(w), x);
      MaskInPlace(w, x, t);
      x := DemeanedBy(x, Snapshot(w));
      ghost var s1 := Stage(Snapshot(w), x);
      assert s1 == AbsolutePass(s0, t);
      MaskInPlace(w, x, t);
      x := DemeanedBy(x, Snapshot(w));
      ghost var s2 := Stage(Snapshot(w), x);
      assert s2 == AbsolutePass(s1, t);
      MaskInPlace(w, x, t);
      x := DemeanedBy(x, Snapshot(w));
      assert Stage(Snapshot(w), x) == AbsolutePass(s2, t);
    } else {
      w := NewOnes(X.rows, X.cols);
    }
    assert Stage(Snapshot(w), x) == AbsoluteStep(X, toobig1);
    if RelativeRequested(toobig2) {
      var mn := MeanPower(Stage(Snapshot(w), x));
      ZeroRowsInPlace(w, x, mn, toobig2.value);
    }
    weights := Snapshot(w);
  }
  // ---------------------------------------------------------------------------
  // find_outlier_trials
  // ---------------------------------------------------------------------------

  /** A threshold: a finite number or np.inf (the stand-in for `thresh=None`). */
  datatype Bound = Fin(t: real) | Inf

  /** A normalised deviation. It is NaN when every sample is zero (0 / 0). */
  datatype Score = Num(v: real) | NaN

  /** `d < thresh`, with IEEE semantics for NaN (never below anything). */
  predicate Below(d: Score, b: Bound)
  {
    match d
    case NaN => false
    case Num(v) => b.Inf? || v < b.t
  }

  /** Data for find_outlier_trials: the number of axes of the ndarray and its
      C-order view as (rows, n_trials), rows being n_chans, or n_samples * n_chans
      for a 3-D array (the reshape of line 179 is this view). */
  datatype TrialData = TrialData(ndim: nat, view: Matrix)

  /** Row means over trials (`np.mean(X, axis=-1)`). */
  function TrialMean(X: Matrix, i: nat): real
    requires i < X.rows
  {
    if X.cols == 0 then 0.0 else Sum(X.at[i]) / (X.cols as real)
  }

  /** The squared deviations of trial j from the trial average, one per row. */
  function SquaredDeviations(X: Matrix, j: nat): (r: seq<real>)
    requires j < X.cols
    ensures |r| == X.rows && forall i | 0 <= i < X.rows :: r[i] >= 0.0
  {
    seq(X.rows, i requires 0 <= i < X.rows =>
      (X.at[i][j] - TrialMean(X, i)) * (X.at[i][j] - TrialMean(X, i)))
  }

  /** Trial j's deviation divided by the mean power per trial (lines 184-187). */
  function TrialScore(X: Matrix, j: nat): (d: Score)
    requires j < X.cols
    ensures d.NaN? <==> Total(Squared(X)) == 0.0
    ensures d.Num? ==> d.v >= 0.0
    ensures d.Num? ==> d.v * Total(Squared(X)) == Sum(SquaredDeviations(X, j)) * (X.cols as real)
  {
    var power := Total(Squared(X));
    if power == 0.0 then NaN
    else
      SumNonneg(SquaredDeviations(X, j));
      SquaredTotalNonneg(X);
      Num(PerTrial(Sum(SquaredDeviations(X, j)), power, X.cols as real))
  }

  /** `dev / (power / n_trials)`: the deviation relative to the mean power per trial. */
  function PerTrial(dev: real, power: real, n: real): (v: real)
    requires dev >= 0.0 && power > 0.0 && n > 0.0
    ensures v >= 0.0 && v * power == dev * n
  {
    var q := power / n;
    assert q * n == power;
    var v := dev / q;
    assert v * q == dev;
    assert v * power == (v * q) * n;
    v
  }

  /** v * T == dev * n with T > 0 and n > 0: v < t exactly when dev < t * (T / n). */
  lemma ScaledBelow(v: real, dev: real, T: real, n: real, t: real)
    requires T > 0.0 && n > 0.0 && v * T == dev * n
    ensures v < t <==> dev < t * (T / n)
  {
    var q := T / n;
    assert q * n == T;
    assert v * q * n == dev * n;
    assert v * q == dev;
    assert q > 0.0;
    if v < t {
      assert v * q < t * q;
    } else {
      assert v * q >= t * q;
    }
  }

  lemma Cancel(n: real, T: real)
    requires T != 0.0
    ensures (n / T) * T == n
  {
  }

  /** v * T == dev * n with T != 0: v is dev scaled by n / T. */
  lemma Rescale(v: real, dev: real, T: real, n: real)
    requires T != 0.0 && v * T == dev * n
    ensures v == (n / T) * dev
  {
    assert v == (v * T) / T;
    assert (dev * n) / T == (n / T) * dev;
  }

  /** `d` of lines 183-187, one score per trial. */
  function Deviations(X: Matrix): (d: seq<Score>)
    ensures |d| == X.cols && forall j | 0 <= j < X.cols :: d[j] == TrialScore(X, j)
  {
    seq(X.cols, j requires 0 <= j < X.cols => TrialScore(X, j))
  }

  /** The finite scores, NaN counted as 0. */
  function ScoreValues(d: seq<Score>): (r: seq<real>)
    ensures |r| == |d| && forall k | 0 <= k < |d| :: r[k] == (if d[k].Num? then d[k].v else 0.0)
  {
    seq(|d|, k requires 0 <= k < |d| => if d[k].Num? then d[k].v else 0.0)
  }

  /** Every trial's squared deviation, `np.sum(d ** 2, axis=0)` of line 185. */
  function DeviationTotals(X: Matrix): (r: seq<real>)
    ensures |r| == X.cols && forall j | 0 <= j < X.cols :: r[j] == Sum(SquaredDeviations(X, j))
  {
    seq(X.cols, j requires 0 <= j < X.cols => Sum(SquaredDeviations(X, j)))
  }

  /** When every row's trial mean is 0, the deviations add up to the total power. */
  lemma ZeroMeanDeviationsTotal(X: Matrix)
    requires forall i | 0 <= i < X.rows :: TrialMean(X, i) == 0.0
    ensures Sum(DeviationTotals(X)) == Total(Squared(X))
  {
    var P := Squared(X);
    forall j | 0 <= j < X.cols ensures DeviationTotals(X)[j] == ColSums(P)[j] {
      forall i | 0 <= i < X.rows ensures SquaredDeviations(X, j)[i] == Col(P, j)[i] {
        assert TrialMean(X, i) == 0.0;
      }
      assert SquaredDeviations(X, j) == Col(P, j);
    }
    assert DeviationTotals(X) == ColSums(P);
    SumColSums(P);
  }

  /** When every row's trial mean is 0, mean power per trial is the average
      deviation, so the scores average to 1: they add up to n_trials. */
  lemma DeviationsSumToTrials(X: Matrix)
    requires Total(Squared(X)) != 0.0
    requires forall i | 0 <= i < X.rows :: TrialMean(X, i) == 0.0
    ensures Sum(ScoreValues(Deviations(X))) == X.cols as real
  {
    var T := Total(Squared(X));
    var n := X.cols as real;
    var vals := ScoreValues(Deviations(X));
    var devs := DeviationTotals(X);
    forall j | 0 <= j < X.cols ensures vals[j] == (n / T) * devs[j] {
      var d := TrialScore(X, j);
      assert Deviations(X)[j] == d && d.Num?;
      assert vals[j] == d.v;
      Rescale(d.v, devs[j], T, n);
    }
    SumScale(devs, n / T, vals);
    ZeroMeanDeviationsTotal(X);
    Cancel(n, T);
  }

  /** The docstring's reading of `thresh` holds when every trial mean is 0: a
      trial is kept exactly when its squared deviation is below t times the
      average squared deviation over trials. */
  lemma ZeroMeanThresholdMeaning(X: Matrix, j: nat, t: real)
    requires j < X.cols && Total(Squared(X)) != 0.0
    requires forall i | 0 <= i < X.rows :: TrialMean(X, i) == 0.0
    ensures Below(Deviations(X)[j], Fin(t)) <==>
              DeviationTotals(X)[j] < t * (Sum(DeviationTotals(X)) / (X.cols as real))
  {
    ZeroMeanDeviationsTotal(X);
    var T := Total(Squared(X));
    var n := X.cols as real;
    var dev := DeviationTotals(X)[j];
    SquaredTotalNonneg(X);
    var d := TrialScore(X, j);
    assert Deviations(X)[j] == d;
    assert T > 0.0 && d.Num?;
    ScaledBelow(d.v, dev, T, n, t);
    assert Below(d, Fin(t)) <==> d.v < t;
  }

  /** `np.where(d < b)[0]` restricted to the first n entries. */
  function WhereBelow(d: seq<Score>, b: Bound, n: nat): (idx: seq<nat>)
    requires n <= |d|
    ensures Increasing(idx)
    ensures forall k | 0 <= k < |idx| :: idx[k] < n
    ensures forall j | 0 <= j < n :: j in idx <==> Below(d[j], b)
  {
    if n == 0 then []
    else
      var prev := WhereBelow(d, b, n - 1);
      if Below(d[n - 1], b) then prev + [n - 1] else prev
  }

  /** `np.setdiff1d(a, b)` for an increasing a: the entries of a that are not in b. */
  function SetDiff(a: seq<nat>, b: seq<nat>): (r: seq<nat>)
    requires Increasing(a)
    ensures Increasing(r)
    ensures forall x :: x in r <==> x in a && x !in b
    ensures forall k | 0 <= k < |r| :: r[k] in a
  {
    if |a| == 0 then []
    else
      assert Increasing(a[1..]);
      var rest := SetDiff(a[1..], b);
      assert forall k | 0 <= k < |rest| :: a[0] < rest[k] by {
        forall k | 0 <= k < |rest| ensures a[0] < rest[k] {
          assert rest[k] in rest;
        }
      }
      if a[0] in b then rest else [a[0]] + rest
  }

  /** Lines 224-226: the trials of range(n) that are not kept, or none when
      every trial is kept. */
  function Rejected(kept: seq<nat>, n: nat): (bads: seq<nat>)
    requires Increasing(kept) && forall k | 0 <= k < |kept| :: kept[k] < n
    ensures Increasing(bads) && forall k | 0 <= k < |bads| :: bads[k] < n
    ensures forall j :: j in bads <==> 0 <= j < n && j !in kept
  {
    if |kept| < n then
      var r := SetDiff(IntRange(0, n), kept);
      assert forall k | 0 <= k < |r| :: r[k] < n by {
        forall k | 0 <= k < |r| ensures r[k] < n { assert r[k] in r; }
      }
      r
    else
      IncreasingBounds(kept, 0, n);
      assert |kept| == n by {
        if |kept| > 0 { assert 0 <= kept[0] <= n - |kept|; }
      }
      IncreasingFull(kept, n);
      []
  }

  /** `idx[bads2]`. */
  function Pick(idx: seq<nat>, ks: seq<nat>): (r: seq<nat>)
    requires forall k | 0 <= k < |ks| :: ks[k] < |idx|
    ensures |r| == |ks| && forall k | 0 <= k < |ks| :: r[k] == idx[ks[k]]
  {
    seq(|ks|, k requires 0 <= k < |ks| => idx[ks[k]])
  }

  /** `X[:, idx]`. */
  function SelectCols(X: Matrix, idx: seq<nat>): (r: Matrix)
    requires forall k | 0 <= k < |idx| :: idx[k] < X.cols
    ensures r.rows == X.rows && r.cols == |idx|
  {
    Mat(X.rows, |idx|, seq(X.rows, i requires 0 <= i < X.rows =>
      seq(|idx|, k requires 0 <= k < |idx| => X.at[i][idx[k]])))
  }

  /** The trials the first threshold keeps (line 188). */
  function FirstKept(X: Matrix, ts: seq<Bound>): (idx: seq<nat>)
    requires |ts| >= 1
    ensures Increasing(idx) && forall k | 0 <= k < |idx| :: idx[k] < X.cols
    ensures forall j | 0 <= j < X.cols :: j in idx <==> Below(Deviations(X)[j], ts[0])
  {
    WhereBelow(Deviations(X), ts[0], X.cols)
  }

  /** The trials find_outlier_trials finally keeps: those the first threshold
      keeps, less those that the recursive call on them (lines 219-222) rejects. */
  function Kept(X: Matrix, ts: seq<Bound>): (kept: seq<nat>)
    requires |ts| >= 1
    ensures Increasing(kept) && forall k | 0 <= k < |kept| :: kept[k] < X.cols
    ensures forall j | j in kept :: j in FirstKept(X, ts)
    ensures |ts| == 1 ==> kept == FirstKept(X, ts)
    ensures |ts| > 1 ==> var idx := FirstKept(X, ts);
              forall k | 0 <= k < |idx| :: idx[k] in kept <==> k in Kept(SelectCols(X, idx), ts[1..])
    decreases |ts|
  {
    var idx := FirstKept(X, ts);
    if |ts| > 1 then
      var sub := SelectCols(X, idx);
      var bads2 := Rejected(Kept(sub, ts[1..]), sub.cols);
      var picked := Pick(idx, bads2);
      var kept := SetDiff(idx, picked);
      assert forall k | 0 <= k < |kept| :: kept[k] < X.cols by {
        forall k | 0 <= k < |kept| ensures kept[k] < X.cols {
          var m :| 0 <= m < |idx| && idx[m] == kept[k];
        }
      }
      forall k | 0 <= k < |idx| ensures idx[k] in picked <==> k in bads2 {
        PickedAt(idx, bads2, k);
      }
      kept
    else idx
  }

  /** idx[k] is among idx[ks] exactly when k is among ks, idx having no duplicates. */
  lemma PickedAt(idx: seq<nat>, ks: seq<nat>, k: nat)
    requires Increasing(idx) && k < |idx|
    requires forall m | 0 <= m < |ks| :: ks[m] < |idx|
    ensures idx[k] in Pick(idx, ks) <==> k in ks
  {
    var picked := Pick(idx, ks);
    if idx[k] in picked {
      var m :| 0 <= m < |ks| && picked[m] == idx[k];
      assert idx[ks[m]] == idx[k];
    }
    if k in ks {
      var m :| 0 <= m < |ks| && ks[m] == k;
      assert picked[m] == idx[k];
    }
  }

  /** The rejected trials (increasing) and the deviations of this call. */
  datatype Trials = Trials(bads: seq<nat>, d: seq<Score>)

  /** `find_outlier_trials` on a 2-D view with the thresholds ts, consumed in order. */
  function OutlierTrials(X: Matrix, ts: seq<Bound>): (r: Trials)
    requires |ts| >= 1
    ensures |r.d| == X.cols
    ensures Increasing(r.bads) && forall k | 0 <= k < |r.bads| :: r.bads[k] < X.cols
    ensures forall j :: j in r.bads <==> 0 <= j < X.cols && j !in Kept(X, ts)
  {
    Trials(Rejected(Kept(X, ts), X.cols), Deviations(X))
  }

  /** With a single threshold t the rejected trials are, in increasing order
      and without duplicates, exactly the trials j with not (d_j < t). */
  lemma SingleThreshold(X: Matrix, t: Bound)
    ensures var r := OutlierTrials(X, [t]);
            Increasing(r.bads) && r.d == Deviations(X)
            && forall j :: j in r.bads <==> 0 <= j < X.cols && !Below(r.d[j], t)
  {
  }

  /** thresh=None (np.inf) rejects nothing unless every sample is zero, in
      which case d is NaN throughout and every trial is rejected. */
  lemma NoThresholdRejectsNothing(X: Matrix)
    ensures Total(Squared(X)) != 0.0 ==> OutlierTrials(X, [Inf]).bads == []
    ensures Total(Squared(X)) == 0.0 ==> OutlierTrials(X, [Inf]).bads == IntRange(0, X.cols)
  {
    var r := OutlierTrials(X, [Inf]);
    var kept := Kept(X, [Inf]);
    assert kept == FirstKept(X, [Inf]);
    if Total(Squared(X)) == 0.0 {
      assert forall j | 0 <= j < X.cols :: j !in kept;
      HeadIn(kept);
      if X.cols > 0 {
        SetDiffNothing(IntRange(0, X.cols));
      }
    } else {
      assert forall j | 0 <= j < X.cols :: j in kept;
      HeadIn(r.bads);
    }
  }

  /** Removing nothing from an increasing sequence leaves it unchanged. */
  lemma {:induction false} SetDiffNothing(a: seq<nat>)
    requires Increasing(a)
    ensures SetDiff(a, []) == a
  {
    if |a| > 0 {
      assert Increasing(a[1..]);
      SetDiffNothing(a[1..]);
    }
  }

  /** More thresholds never un-reject a trial: what [t1] rejects, [t1, t2, ...]
      rejects too, and the deviations reported are the same. */
  lemma MoreThresholdsRejectMore(X: Matrix, ts: seq<Bound>)
    requires |ts| >= 1
    ensures OutlierTrials(X, ts).d == OutlierTrials(X, [ts[0]]).d
    ensures forall j | j in OutlierTrials(X, [ts[0]]).bads :: j in OutlierTrials(X, ts).bads
  {
    assert Kept(X, [ts[0]]) == FirstKept(X, ts);
  }

  /** Python's list `thresh`, which the recursion empties with `pop(0)`. */
  class ThresholdList {
    var items: seq<Bound>

    constructor (xs: seq<Bound>)
      ensures items == xs
    {
      items := xs;
    }

    /** `thresh.pop(0)`; find_outlier_trials pops only after reading thresh[0]. */
    method PopFront() returns (x: Bound)
      requires items != []
      modifies this
      ensures x == old(items)[0] && items == old(items)[1..]
    {
      x := items[0];
      items := items[1..];
    }
  }

  /** The `thresh` argument: None, a single number, a list shared with the
      caller, or another indexable sequence of numbers (an ndarray or a tuple),
      which has no `pop`. */
  datatype ThresholdArg = Unset | Number(t: real) | List(list: ThresholdList) | Fixed(values: seq<Bound>)

  /** The errors of find_outlier_trials. */
  datatype TrialsError =
    | MoreThanThreeDims   // ValueError('X should be 2D or 3D')
    | FewerThanTwoDims    // ValueError from `n_chans, n_trials = X.shape`
    | NoThresholds        // IndexError from `thresh[0]` on an empty list
    | CannotPop           // AttributeError from `thresh.pop(0)` on an ndarray or tuple

  /** The recursion of find_outlier_trials on a 2-D view; pops every threshold. */
  method OutlierTrialsRec(X: Matrix, thresh: ThresholdList) returns (r: Trials)
    requires |thresh.items| >= 1
    modifies thresh
    ensures thresh.items == []
    ensures r == OutlierTrials(X, old(thresh.items))
    decreases |thresh.items|
  {
    ghost var ts := thresh.items;
    var d := Deviations(X);
    var idx := WhereBelow(d, thresh.items[0], X.cols);
    var _ := thresh.PopFront();
    if |thresh.items| > 0 {
      var sub := OutlierTrialsRec(SelectCols(X, idx), thresh);
      idx := SetDiff(idx, Pick(idx, sub.bads));
    }
    assert idx == Kept(X, ts);
    r := Trials(Rejected(idx, X.cols), d);
  }

  /** `find_outlier_trials(X, thresh, show=False)`. A number becomes a one-entry
      list, None becomes [np.inf]; a list passed in is emptied. */
  method FindOutlierTrials(X: TrialData, thresh: ThresholdArg) returns (r: Result<Trials, TrialsError>)
    modifies if thresh.List? then {thresh.list} else {}
    ensures r.Err? <==> X.ndim > 3 || X.ndim < 2 || (thresh.List? && old(thresh.list.items) == []) || thresh.Fixed?
    ensures r.Err? ==> r.error == (if X.ndim > 3 then MoreThanThreeDims
                                   else if X.ndim < 2 then FewerThanTwoDims
                                   else if thresh.Fixed? && thresh.values != [] then CannotPop
                                   else NoThresholds)
    ensures r.Err? && thresh.List? ==> thresh.list.items == old(thresh.list.items)
    ensures r.Ok? && thresh.List? ==> thresh.list.items == []
    ensures r.Ok? ==> r.value == OutlierTrials(X.view,
              match thresh
              case Unset => [Inf]
              case Number(t) => [Fin(t)]
              case List(l) => old(l.items)
              case Fixed(ts) => ts)
  {
    var list: ThresholdList;
    match thresh {
      case Unset => list := new ThresholdList([Inf]);
      case Number(t) => list := new ThresholdList([Fin(t)]);
      case List(l) => list := l;
      case Fixed(ts) => list := new ThresholdList(ts);
    }
    if X.ndim > 3 {
      return Err(MoreThanThreeDims);
    }
    if X.ndim < 2 {
      return Err(FewerThanTwoDims);
    }
    if list.items == [] {
      return Err(NoThresholds);
    }
    if thresh.Fixed? {
      // `thresh[0]` at line 188 succeeds; `thresh.pop(0)` at line 218 does not
      return Err(CannotPop);
    }
    var trials := OutlierTrialsRec(X.view, list);
    r := Ok(trials);
  }

  /** The evidently intended `find_outlier_trials`: an ndarray or tuple of
      thresholds is consumed in order, as a list is. */
  method FindOutlierTrialsCorrected(X: TrialData, thresh: ThresholdArg) returns (r: Result<Trials, TrialsError>)
    modifies if thresh.List? then {thresh.list} else {}
    ensures r.Err? <==> X.ndim > 3 || X.ndim < 2 || (thresh.List? && old(thresh.list.items) == [])
                        || (thresh.Fixed? && thresh.values == [])
    ensures r.Err? ==> r.error == (if X.ndim > 3 then MoreThanThreeDims
                                   else if X.ndim < 2 then FewerThanTwoDims
                                   else NoThresholds)
    ensures r.Err? && thresh.List? ==> thresh.list.items == old(thresh.list.items)
    ensures r.Ok? && thresh.List? ==> thresh.list.items == []
    ensures r.Ok? ==> r.value == OutlierTrials(X.view,
              match thresh
              case Unset => [Inf]
              case Number(t) => [Fin(t)]
              case List(l) => old(l.items)
              case Fixed(ts) => ts)
  {
    var list: ThresholdList;
    match thresh {
      case Unset => list := new ThresholdList([Inf]);
      case Number(t) => list := new ThresholdList([Fin(t)]);
      case List(l) => list := l;
      case Fixed(ts) => list := new ThresholdList(ts);
    }
    if X.ndim > 3 {
      return Err(MoreThanThreeDims);
    }
    if X.ndim < 2 {
      return Err(FewerThanTwoDims);
    }
    if list.items == [] {
      return Err(NoThresholds);
    }
    var trials := OutlierTrialsRec(X.view, list);
    r := Ok(trials);
  }
}
