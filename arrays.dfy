/** Shared vocabulary for the model of the meegkit statistics helpers:
    failure-compatible results, rectangular real matrices (rows are samples,
    columns are channels, as numpy lays out a 2-D array), and the sums the
    helpers are built from, with their linearity lemmas. */
module Arrays {

  /** The outcome of an operation that may raise a Python exception. */
  datatype Result<T, E> = Ok(value: T) | Err(error: E)

  /** An optional argument (Python's None). */
  datatype Option<T> = None | Some(value: T)

  /** A 2-D array with its shape; `at[i][j]` is the element in row i, column j. */
  datatype Mat = Mat(rows: nat, cols: nat, at: seq<seq<real>>)

  predicate WellShaped(m: Mat)
  {
    |m.at| == m.rows && forall i | 0 <= i < m.rows :: |m.at[i]| == m.cols
  }

  /** numpy arrays are rectangular: every row has `cols` entries. */
  type Matrix = m: Mat | WellShaped(m) witness Mat(0, 0, [])

  function Abs(x: real): (r: real)
    ensures r >= 0.0 && (r == x || r == -x)
  {
    if x < 0.0 then -x else x
  }

  /** Sum of a vector (np.sum of a 1-D array). */
  function Sum(s: seq<real>): real
  {
    if |s| == 0 then 0.0 else s[0] + Sum(s[1..])
  }

  /** Sum of the elementwise products of two vectors of one length. */
  function Dot(w: seq<real>, x: seq<real>): real
    requires |w| == |x|
  {
    if |w| == 0 then 0.0 else w[0] * x[0] + Dot(w[1..], x[1..])
  }

  /** `x - m` for a vector x and a scalar m. */
  function Shift(x: seq<real>, m: real): (r: seq<real>)
    ensures |r| == |x| && forall i | 0 <= i < |x| :: r[i] == x[i] - m
  {
    seq(|x|, i requires 0 <= i < |x| => x[i] - m)
  }

  /** Column j of a matrix, `M[:, j]`. */
  function Col(M: Matrix, j: nat): (r: seq<real>)
    requires j < M.cols
    ensures |r| == M.rows && forall i | 0 <= i < M.rows :: r[i] == M.at[i][j]
  {
    seq(M.rows, i requires 0 <= i < M.rows => M.at[i][j])
  }

  /** Sum of every element of a list of rows. */
  function SumRows(rows: seq<seq<real>>): real
  {
    if |rows| == 0 then 0.0 else Sum(rows[0]) + SumRows(rows[1..])
  }

  /** np.sum over every element of a matrix. */
  function Total(M: Matrix): real
  {
    SumRows(M.at)
  }

  /** np.ones((n, c)). */
  function Ones(n: nat, c: nat): (r: Matrix)
    ensures r.rows == n && r.cols == c
    ensures forall i, j | 0 <= i < n && 0 <= j < c :: r.at[i][j] == 1.0
  {
    Mat(n, c, seq(n, i => seq(c, j => 1.0)))
  }

  /** The elementwise square `M ** 2`. */
  function Squared(M: Matrix): (r: Matrix)
    ensures r.rows == M.rows && r.cols == M.cols
    ensures forall i, j | 0 <= i < M.rows && 0 <= j < M.cols :: r.at[i][j] == M.at[i][j] * M.at[i][j]
  {
    Mat(M.rows, M.cols, seq(M.rows, i requires 0 <= i < M.rows =>
      seq(M.cols, j requires 0 <= j < M.cols => M.at[i][j] * M.at[i][j])))
  }

  /** numpy's `M.any()`: some element is non-zero. */
  predicate AnyNonzero(M: Matrix)
  {
    exists i, j | 0 <= i < M.rows && 0 <= j < M.cols :: M.at[i][j] != 0.0
  }

  /** Removing a constant from every entry lowers the sum by |x| times it. */
  lemma {:induction false} SumShift(x: seq<real>, m: real)
    ensures Sum(Shift(x, m)) == Sum(x) - (|x| as real) * m
  {
    if |x| > 0 {
      assert Shift(x, m)[1..] == Shift(x[1..], m);
      SumShift(x[1..], m);
    }
  }

  /** Weighted form of SumShift: sum_i w_i (x_i - m) = sum_i w_i x_i - m sum_i w_i. */
  lemma {:induction false} DotShift(w: seq<real>, x: seq<real>, m: real)
    requires |w| == |x|
    ensures Dot(w, Shift(x, m)) == Dot(w, x) - m * Sum(w)
  {
    if |w| > 0 {
      assert Shift(x, m)[1..] == Shift(x[1..], m);
      DotShift(w[1..], x[1..], m);
    }
  }

  /** A sum of non-negative terms is non-negative. */
  lemma {:induction false} SumNonneg(s: seq<real>)
    requires forall i | 0 <= i < |s| :: s[i] >= 0.0
    ensures Sum(s) >= 0.0
  {
    if |s| > 0 {
      SumNonneg(s[1..]);
    }
  }

  /** A total of non-negative entries is non-negative. */
  lemma {:induction false} SumRowsNonneg(rows: seq<seq<real>>)
    requires forall i, j | 0 <= i < |rows| && 0 <= j < |rows[i]| :: rows[i][j] >= 0.0
    ensures SumRows(rows) >= 0.0
  {
    if |rows| > 0 {
      SumNonneg(rows[0]);
      SumRowsNonneg(rows[1..]);
    }
  }

  /** The total power of a matrix is non-negative. */
  lemma SquaredTotalNonneg(M: Matrix)
    ensures Total(Squared(M)) >= 0.0
  {
    var P := Squared(M);
    forall i, j | 0 <= i < |P.at| && 0 <= j < |P.at[i]| ensures P.at[i][j] >= 0.0 {
      assert P.at[i][j] == M.at[i][j] * M.at[i][j];
    }
    SumRowsNonneg(P.at);
  }

  /** A vector of c ones sums to c. */
  lemma {:induction false} SumOnes(s: seq<real>)
    requires forall i | 0 <= i < |s| :: s[i] == 1.0
    ensures Sum(s) == |s| as real
  {
    if |s| > 0 {
      SumOnes(s[1..]);
    }
  }

  /** n rows of c ones sum to n * c. */
  lemma {:induction false} SumRowsOnes(rows: seq<seq<real>>, c: nat)
    requires forall i | 0 <= i < |rows| :: |rows[i]| == c
    requires forall i, j | 0 <= i < |rows| && 0 <= j < c :: rows[i][j] == 1.0
    ensures SumRows(rows) == (|rows| * c) as real
  {
    if |rows| > 0 {
      SumOnes(rows[0]);
      SumRowsOnes(rows[1..], c);
    }
  }

  /** Two matrices of one shape with the same entries are equal. */
  lemma MatrixExt(A: Matrix, B: Matrix)
    requires A.rows == B.rows && A.cols == B.cols
    requires forall i, j | 0 <= i < A.rows && 0 <= j < A.cols :: A.at[i][j] == B.at[i][j]
    ensures A == B
  {
    assert forall i | 0 <= i < A.rows :: A.at[i] == B.at[i];
    assert A.at == B.at;
  }

  /** The first element of a non-empty sequence is one of its elements. */
  lemma HeadIn<T>(s: seq<T>)
    ensures |s| > 0 ==> s[0] in s
  {
  }

  /** Strictly increasing: sorted and free of duplicates. */
  predicate Increasing(s: seq<int>)
  {
    forall a, b | 0 <= a < b < |s| :: s[a] < s[b]
  }

  /** A strictly increasing sequence of values in [lo, n): s[k] lies in [lo + k, n - |s| + k]. */
  lemma {:induction false} IncreasingBounds(s: seq<int>, lo: int, n: int)
    requires Increasing(s)
    requires forall k | 0 <= k < |s| :: lo <= s[k] < n
    ensures forall k | 0 <= k < |s| :: lo + k <= s[k] <= n - |s| + k
  {
    if |s| > 0 {
      var t := s[1..];
      assert Increasing(t);
      forall k | 0 <= k < |t| ensures s[0] + 1 <= t[k] < n { assert t[k] == s[k + 1]; }
      IncreasingBounds(t, s[0] + 1, n);
      forall k | 0 <= k < |s| ensures lo + k <= s[k] <= n - |s| + k {
        if k > 0 {
          assert s[k] == t[k - 1];
        } else if |s| > 1 {
          assert s[0] < s[1] && s[1] == t[0];
        }
      }
    }
  }

  /** n strictly increasing indices below n are exactly 0, 1, ..., n - 1. */
  lemma IncreasingFull(s: seq<int>, n: int)
    requires Increasing(s) && |s| == n
    requires forall k | 0 <= k < |s| :: 0 <= s[k] < n
    ensures forall j | 0 <= j < n :: j in s
  {
    IncreasingBounds(s, 0, n);
    forall j | 0 <= j < n ensures j in s { assert s[j] == j; }
  }

  /** `np.arange(a, b)` for integers: a, a + 1, ..., b - 1. */
  function IntRange(a: int, b: int): (r: seq<int>)
    ensures |r| == (if b > a then b - a else 0)
    ensures forall k | 0 <= k < |r| :: r[k] == a + k
    ensures Increasing(r)
    ensures forall x :: x in r <==> a <= x < b
  {
    var r := if b > a then seq(b - a, k => a + k) else [];
    assert forall x | a <= x < b :: x in r by {
      forall x | a <= x < b ensures x in r {
        assert r[x - a] == x;
      }
    }
    r
  }

  /** `sub` is `s` read at the strictly increasing positions `idx`: a
      subsequence of s that keeps s's order. */
  ghost predicate Embeds<T>(idx: seq<int>, sub: seq<T>, s: seq<T>)
  {
    && |idx| == |sub|
    && Increasing(idx)
    && forall k | 0 <= k < |idx| :: 0 <= idx[k] < |s| && sub[k] == s[idx[k]]
  }

  /** Every position moved one place to the right. */
  function ShiftUp(idx: seq<int>): (r: seq<int>)
    ensures |r| == |idx| && forall k | 0 <= k < |idx| :: r[k] == idx[k] + 1
  {
    seq(|idx|, k requires 0 <= k < |idx| => idx[k] + 1)
  }

  /** A subsequence of s is one of [x] + s that skips x. */
  lemma EmbedsSkip<T>(x: T, sub: seq<T>, s: seq<T>, idx: seq<int>)
    requires Embeds(idx, sub, s)
    ensures Embeds(ShiftUp(idx), sub, [x] + s)
  {
    var r := ShiftUp(idx);
    forall k | 0 <= k < |idx| ensures 0 <= r[k] < |[x] + s| && sub[k] == ([x] + s)[r[k]] {
      assert ([x] + s)[idx[k] + 1] == s[idx[k]];
    }
  }

  /** A subsequence of s extends to one of [x] + s that keeps x. */
  lemma EmbedsKeep<T>(x: T, sub: seq<T>, s: seq<T>, idx: seq<int>)
    requires Embeds(idx, sub, s)
    ensures Embeds([0] + ShiftUp(idx), [x] + sub, [x] + s)
  {
    var r := ShiftUp(idx);
    EmbedsSkip(x, sub, s, idx);
    var q := [0] + r;
    forall a, b | 0 <= a < b < |q| ensures q[a] < q[b] {
      if a > 0 {
        assert q[a] == r[a - 1] && q[b] == r[b - 1];
      } else {
        assert q[b] == r[b - 1] && r[b - 1] == idx[b - 1] + 1;
      }
    }
    forall k | 0 <= k < |q| ensures 0 <= q[k] < |[x] + s| && ([x] + sub)[k] == ([x] + s)[q[k]] {
      if k > 0 {
        assert q[k] == r[k - 1];
        assert ([x] + sub)[k] == sub[k - 1];
      }
    }
  }

  /** A position found in idx moves to the next position in ShiftUp(idx). */
  lemma InShiftUp(idx: seq<int>, j: int)
    requires j - 1 in idx
    ensures j in ShiftUp(idx) && j in [0] + ShiftUp(idx)
  {
    var m :| 0 <= m < |idx| && idx[m] == j - 1;
    assert ShiftUp(idx)[m] == j;
    assert ([0] + ShiftUp(idx))[m + 1] == j;
  }

  /** The sum of one vector's entries added pairwise to another's. */
  lemma {:induction false} SumAdd(a: seq<real>, b: seq<real>, c: seq<real>)
    requires |a| == |b| == |c|
    requires forall k | 0 <= k < |c| :: c[k] == a[k] + b[k]
    ensures Sum(c) == Sum(a) + Sum(b)
  {
    if |c| > 0 {
      SumAdd(a[1..], b[1..], c[1..]);
    }
  }

  /** Scaling every entry scales the sum. */
  lemma {:induction false} SumScale(a: seq<real>, m: real, c: seq<real>)
    requires |a| == |c|
    requires forall k | 0 <= k < |c| :: c[k] == m * a[k]
    ensures Sum(c) == m * Sum(a)
  {
    if |c| > 0 {
      SumScale(a[1..], m, c[1..]);
    }
  }

  /** A vector of zeros sums to zero. */
  lemma {:induction false} SumZeros(s: seq<real>)
    requires forall k | 0 <= k < |s| :: s[k] == 0.0
    ensures Sum(s) == 0.0
  {
    if |s| > 0 {
      SumZeros(s[1..]);
    }
  }

  /** The column sums, `np.sum(M, axis=0)`. */
  function ColSums(M: Matrix): (r: seq<real>)
    ensures |r| == M.cols && forall j | 0 <= j < M.cols :: r[j] == Sum(Col(M, j))
  {
    seq(M.cols, j requires 0 <= j < M.cols => Sum(Col(M, j)))
  }

  /** Summing the column sums gives the total: the order of a double sum
      does not matter. */
  lemma {:induction false} SumColSums(M: Matrix)
    ensures Sum(ColSums(M)) == Total(M)
    decreases M.rows
  {
    if M.rows == 0 {
      forall j | 0 <= j < M.cols ensures ColSums(M)[j] == 0.0 {
        assert Col(M, j) == [];
      }
      SumZeros(ColSums(M));
    } else {
      var T: Matrix := Mat(M.rows - 1, M.cols, M.at[1..]);
      forall j | 0 <= j < M.cols ensures ColSums(M)[j] == M.at[0][j] + ColSums(T)[j] {
        assert Col(M, j)[1..] == Col(T, j);
      }
      SumAdd(M.at[0], ColSums(T), ColSums(M));
      SumColSums(T);
    }
  }
}
