/** The structural parts of the synthetic generators of
    support/parse_data.py (`toyReg`, `toyClass`, `NoisyOpt_isoBig`,
    `NoisyOpt_isoSmall`, `NoisyOpt_SmallSparse`). Random draws are
    parameters: a stream of standard normal draws, taken in the order the
    routine asks numpy for them, and a chooser standing for
    `np.random.choice`. Arithmetic is over the reals; float64 rounding,
    `exp` and the normalisation of the softmax are not modelled. */
module Synthetic {
  import opened Tensor

  /** Standard normal draws, in the order numpy produces them. */
  type Stream = nat -> real

  /** `np.random.normal(loc=0.0, scale=scale, size=k)` after `first` draws
      were already taken from the stream. */
  function Normal(z: Stream, first: nat, k: nat, scale: real): (v: seq<real>)
    ensures |v| == k
  {
    seq(k, i requires 0 <= i < k => scale * z(first + i))
  }

  function Dot(u: seq<real>, v: seq<real>): real
    requires |u| == |v|
  {
    if u == [] then 0.0 else u[0] * v[0] + Dot(u[1..], v[1..])
  }

  /** `np.dot(X, w) + noise` for an (n, d) array X held flat. */
  function LinearOutputs(x: seq<real>, n: nat, d: nat, w: seq<real>, noise: seq<real>): (y: seq<real>)
    requires |x| == n * d && |w| == d && |noise| == n
    ensures |y| == n
  {
    var rows := Reshape(x, n, d);
    seq(n, i requires 0 <= i < n => Dot(rows[i], w) + noise[i])
  }

  /** Output i depends on input row i and noise i only: the noise that
      separates y from the model's prediction is exactly the drawn noise,
      so two samples with equal inputs and equal noise get equal outputs. */
  lemma LinearOutputsRowwise(x: seq<real>, n: nat, d: nat, w: seq<real>, noise: seq<real>, i: nat, j: nat)
    requires |x| == n * d && |w| == d && |noise| == n && i < n && j < n
    requires Reshape(x, n, d)[i] == Reshape(x, n, d)[j] && noise[i] == noise[j]
    ensures LinearOutputs(x, n, d, w, noise)[i] == LinearOutputs(x, n, d, w, noise)[j]
    ensures LinearOutputs(x, n, d, w, noise)[i] - noise[i] == Dot(Reshape(x, n, d)[i], w)
  {
  }

  /** A column vector, shape (d, 1). */
  function ColumnVector(v: seq<real>): (m: seq<seq<real>>)
    ensures |m| == |v| && forall i :: 0 <= i < |v| ==> m[i] == [v[i]]
  {
    seq(|v|, i requires 0 <= i < |v| => [v[i]])
  }

  /** `w + delta` on an array: every element shifted by delta. */
  function Shift(m: seq<seq<real>>, delta: real): (r: seq<seq<real>>)
    ensures |r| == |m|
    ensures forall i :: 0 <= i < |m| ==> |r[i]| == |m[i]|
    ensures forall i, j :: 0 <= i < |m| && 0 <= j < |m[i]| ==> r[i][j] - m[i][j] == delta
  {
    seq(|m|, i requires 0 <= i < |m| => seq(|m[i]|, j requires 0 <= j < |m[i]| => m[i][j] + delta))
  }

  /** `(sigma ** 2) * np.eye(d)`. */
  function ScaledIdentity(d: nat, sigma: real): (m: seq<seq<real>>)
    ensures |m| == d && forall i :: 0 <= i < d ==> |m[i]| == d
    ensures forall i :: 0 <= i < d ==> m[i][i] == sigma * sigma
    ensures forall i, j :: 0 <= i < d && 0 <= j < d && i != j ==> m[i][j] == 0.0
  {
    seq(d, i => seq(d, j => if i == j then sigma * sigma else 0.0))
  }

  // ---------------------------------------------------------------- toyClass

  /** toyClass draws labels among nc = 4 classes. */
  const NumClasses: nat := 4

  type ClassIndex = c: nat | c < NumClasses

  /** `np.random.choice(nc, p=probs)` for the draw with the given number,
      where probs is the softmax of the logit column passed in. */
  type Chooser = (nat, seq<real>) -> ClassIndex

  /** The hand-prepared weight vectors w_0, w_1, w_2 of toyClass. */
  function ClassWeights(): seq<seq<real>>
  {
    [[3.1415, 1.4142, 2.7182], [3.1415, -1.4142, 2.7182], [-3.1415, 1.4142, -2.7182]]
  }

  /** `np.transpose(np.concatenate((w_0, w_1, w_2)).reshape((nc-1, d)))`:
      the (d, nc-1) matrix whose column c is w_c. */
  function WTrue(ws: seq<seq<real>>, d: nat): (m: seq<seq<real>>)
    requires forall c :: 0 <= c < |ws| ==> |ws[c]| == d
    ensures |m| == d && forall r :: 0 <= r < d ==> |m[r]| == |ws|
    ensures forall r, c :: 0 <= r < d && 0 <= c < |ws| ==> m[r][c] == ws[c][r]
  {
    ReshapeFlatten(ws, d);
    Transpose(Reshape(Flatten(ws), |ws|, d), d)
  }

  /** Column i of a matrix held as rows. */
  function Column(a: seq<seq<real>>, i: nat): (col: seq<real>)
    requires forall c :: 0 <= c < |a| ==> i < |a[c]|
    ensures |col| == |a| && forall c :: 0 <= c < |a| ==> col[c] == a[c][i]
  {
    seq(|a|, c requires 0 <= c < |a| => a[c][i])
  }

  /** The logits as the code computes them (lines 266-267, 277-278):
      `A[:-1, :] = np.dot(W_true, np.transpose(X))` with the last row left
      at zero. numpy accepts the product only because d == nc - 1, and row
      c of it is sum_k W_true[c][k] * x[k] = sum_k w_k[c] * x[k]. */
  function LogitsAsWritten(ws: seq<seq<real>>, xs: seq<seq<real>>): (a: seq<seq<real>>)
    requires |ws| == NumClasses - 1
    requires forall c :: 0 <= c < |ws| ==> |ws[c]| == NumClasses - 1
    requires forall i :: 0 <= i < |xs| ==> |xs[i]| == NumClasses - 1
    ensures |a| == NumClasses && forall c :: 0 <= c < NumClasses ==> |a[c]| == |xs|
    ensures forall c, i :: 0 <= c < NumClasses && 0 <= i < |xs| ==>
              a[c][i] == if c < NumClasses - 1
                         then ws[0][c] * xs[i][0] + ws[1][c] * xs[i][1] + ws[2][c] * xs[i][2]
                         else 0.0
  {
    var wt := WTrue(ws, NumClasses - 1);
    TransposedProduct(ws, xs);
    seq(NumClasses, c requires 0 <= c < NumClasses =>
      seq(|xs|, i requires 0 <= i < |xs| => if c < NumClasses - 1 then Dot(wt[c], xs[i]) else 0.0))
  }

  /** The logits of multinomial-logit regression with weight vectors w_c
      and the last class pinned to zero: class c < nc - 1 of sample i gets
      w_c . x_i. */
  function Logits(ws: seq<seq<real>>, xs: seq<seq<real>>, d: nat): (a: seq<seq<real>>)
    requires |ws| == NumClasses - 1
    requires forall c :: 0 <= c < |ws| ==> |ws[c]| == d
    requires forall i :: 0 <= i < |xs| ==> |xs[i]| == d
    ensures |a| == NumClasses && forall c :: 0 <= c < NumClasses ==> |a[c]| == |xs|
    ensures forall c, i :: 0 <= c < NumClasses && 0 <= i < |xs| ==>
              a[c][i] == if c < NumClasses - 1 then Dot(ws[c], xs[i]) else 0.0
  {
    seq(NumClasses, c requires 0 <= c < NumClasses =>
      seq(|xs|, i requires 0 <= i < |xs| => if c < NumClasses - 1 then Dot(ws[c], xs[i]) else 0.0))
  }

  /** The logit column of a sample depends on that sample's inputs alone:
      two samples with the same inputs get the same column, wherever they
      stand in their arrays. */
  lemma LogitsColumnOwnInputs(ws: seq<seq<real>>, xs: seq<seq<real>>, xs': seq<seq<real>>, d: nat, i: nat, j: nat)
    requires |ws| == NumClasses - 1
    requires forall c :: 0 <= c < |ws| ==> |ws[c]| == d
    requires forall k :: 0 <= k < |xs| ==> |xs[k]| == d
    requires forall k :: 0 <= k < |xs'| ==> |xs'[k]| == d
    requires i < |xs| && j < |xs'| && xs[i] == xs'[j]
    ensures Column(Logits(ws, xs, d), i) == Column(Logits(ws, xs', d), j)
    ensures Column(Logits(ws, xs, d), i)[NumClasses - 1] == 0.0
  {
    var a, b := Logits(ws, xs, d), Logits(ws, xs', d);
    forall c | 0 <= c < NumClasses
      ensures Column(a, i)[c] == Column(b, j)[c]
    {
    }
  }

  /** The code's logits differ from w_c . x: for the toyClass weights and
      x = (0, 1, 0), class 0 gets w_1[0] = 3.1415 where w_0 . x = 1.4142. */
  lemma LogitsAsWrittenDiffer()
    ensures LogitsAsWritten(ClassWeights(), [[0.0, 1.0, 0.0]])[0][0] == 3.1415
    ensures Logits(ClassWeights(), [[0.0, 1.0, 0.0]], 3)[0][0] == 1.4142
  {
    var ws := ClassWeights();
    var x := [0.0, 1.0, 0.0];
    var wt := WTrue(ws, 3);
    assert wt[0] == [3.1415, 3.1415, -3.1415];
    Dot3(wt[0], x);
    Dot3(ws[0], x);
  }

  /** Row c of `np.dot(W_true, X^T)` at sample i: the dot product of row c
      of the transposed weights with x_i weighs x_i[k] by w_k[c]. */
  lemma TransposedProduct(ws: seq<seq<real>>, xs: seq<seq<real>>)
    requires |ws| == NumClasses - 1
    requires forall c :: 0 <= c < |ws| ==> |ws[c]| == NumClasses - 1
    requires forall i :: 0 <= i < |xs| ==> |xs[i]| == NumClasses - 1
    ensures forall c, i :: 0 <= c < NumClasses - 1 && 0 <= i < |xs| ==>
              Dot(WTrue(ws, NumClasses - 1)[c], xs[i])
              == ws[0][c] * xs[i][0] + ws[1][c] * xs[i][1] + ws[2][c] * xs[i][2]
  {
    var wt := WTrue(ws, NumClasses - 1);
    forall c, i | 0 <= c < NumClasses - 1 && 0 <= i < |xs|
      ensures Dot(wt[c], xs[i]) == ws[0][c] * xs[i][0] + ws[1][c] * xs[i][1] + ws[2][c] * xs[i][2]
    {
      Dot3(wt[c], xs[i]);
    }
  }

  lemma Dot3(u: seq<real>, v: seq<real>)
    requires |u| == 3 && |v| == 3
    ensures Dot(u, v) == u[0] * v[0] + u[1] * v[1] + u[2] * v[2]
  {
    assert Dot(u[2..], v[2..]) == u[2] * v[2] + Dot(u[3..], v[3..]);
    assert Dot(u[1..], v[1..]) == u[1] * v[1] + Dot(u[2..], v[2..]);
  }

  /** The labels of count samples: label i is drawn, with draw number
      first + i, from the logit column of sample i alone. */
  function ClassLabels(a: seq<seq<real>>, count: nat, first: nat, choose: Chooser): (y: seq<ClassIndex>)
    requires forall c :: 0 <= c < |a| ==> |a[c]| == count
    ensures |y| == count
  {
    seq(count, i requires 0 <= i < count => choose(first + i, Column(a, i)))
  }

  /** `for i in range(n): y[i, 0] = np.random.choice(nc, p=P[:, i])`: label
      i is drawn from the column of sample i alone, with draw number
      first + i, and is a class index below nc. */
  method DrawLabels(a: seq<seq<real>>, count: nat, first: nat, choose: Chooser) returns (y: seq<ClassIndex>)
    requires forall c :: 0 <= c < |a| ==> |a[c]| == count
    ensures y == ClassLabels(a, count, first, choose)
    ensures forall i :: 0 <= i < count ==> y[i] == choose(first + i, Column(a, i)) && y[i] < NumClasses
  {
    var labels := new ClassIndex[count];
    for i := 0 to count
      invariant forall k :: 0 <= k < i ==> labels[k] == choose(first + k, Column(a, k))
    {
      labels[i] := choose(first + i, Column(a, i));
    }
    y := labels[..];
  }

  // ----------------------------------------------------- NoisyOpt_SmallSparse

  /** `w[idx_on, :] = vals`: element idx_on[k] takes vals[k], in order. */
  function Scatter(w: seq<real>, idxOn: seq<nat>, vals: seq<real>): (r: seq<real>)
    requires |idxOn| == |vals| && forall k :: 0 <= k < |idxOn| ==> idxOn[k] < |w|
    ensures |r| == |w|
    ensures forall i :: 0 <= i < |w| && i !in idxOn ==> r[i] == w[i]
    decreases |idxOn|
  {
    if idxOn == [] then w
    else Scatter(w[idxOn[0] := vals[0]], idxOn[1..], vals[1..])
  }

  /** The sparse true weights: `np.zeros(d)` with the chosen entries set. */
  function SparseWeights(d: nat, idxOn: seq<nat>, vals: seq<real>): (w: seq<real>)
    requires |idxOn| == |vals| && forall k :: 0 <= k < |idxOn| ==> idxOn[k] < d
    ensures |w| == d
    ensures forall i :: 0 <= i < d && i !in idxOn ==> w[i] == 0.0
  {
    Scatter(seq(d, i => 0.0), idxOn, vals)
  }

  predicate Distinct(s: seq<nat>)
  {
    forall k, l :: 0 <= k < l < |s| ==> s[k] != s[l]
  }

  /** The indices whose entry is not zero. */
  function Support(w: seq<real>): set<nat>
  {
    set i: nat | i < |w| && w[i] != 0.0
  }

  /** After scattering distinct indices, entry idx_on[k] holds vals[k] and
      every entry not chosen keeps its old value. */
  lemma {:induction false} ScatterAt(w: seq<real>, idxOn: seq<nat>, vals: seq<real>)
    requires |idxOn| == |vals| && forall k :: 0 <= k < |idxOn| ==> idxOn[k] < |w|
    requires Distinct(idxOn)
    ensures forall k :: 0 <= k < |idxOn| ==> Scatter(w, idxOn, vals)[idxOn[k]] == vals[k]
    ensures forall i :: 0 <= i < |w| && i !in idxOn ==> Scatter(w, idxOn, vals)[i] == w[i]
    decreases |idxOn|
  {
    if idxOn != [] {
      var w' := w[idxOn[0] := vals[0]];
      ScatterAt(w', idxOn[1..], vals[1..]);
      forall k | 0 <= k < |idxOn|
        ensures Scatter(w, idxOn, vals)[idxOn[k]] == vals[k]
      {
        if k > 0 {
          assert idxOn[1..][k - 1] == idxOn[k];
        } else {
          assert idxOn[0] !in idxOn[1..];
        }
      }
    }
  }

  /** The support of the sparse weights is exactly the chosen indices when
      no drawn value is zero, so it has exactly d0 elements. */
  lemma SparseSupport(d: nat, idxOn: seq<nat>, vals: seq<real>)
    requires |idxOn| == |vals| && forall k :: 0 <= k < |idxOn| ==> idxOn[k] < d
    requires Distinct(idxOn) && forall k :: 0 <= k < |vals| ==> vals[k] != 0.0
    ensures Support(SparseWeights(d, idxOn, vals)) == set k | 0 <= k < |idxOn| :: idxOn[k]
    ensures |Support(SparseWeights(d, idxOn, vals))| == |idxOn|
  {
    var w := SparseWeights(d, idxOn, vals);
    ScatterAt(seq(d, i => 0.0), idxOn, vals);
    var chosen := set k | 0 <= k < |idxOn| :: idxOn[k];
    forall i: nat | i in Support(w)
      ensures i in chosen
    {
      assert i in idxOn;
      var k :| 0 <= k < |idxOn| && idxOn[k] == i;
    }
    DistinctCard(idxOn);
  }

  /** A sequence without repetitions has as many distinct elements as entries. */
  lemma {:induction false} DistinctCard(s: seq<nat>)
    requires Distinct(s)
    ensures |set k | 0 <= k < |s| :: s[k]| == |s|
  {
    if s != [] {
      var init := s[..|s| - 1];
      DistinctCard(init);
      var a := set k | 0 <= k < |init| :: init[k];
      var b := set k | 0 <= k < |s| :: s[k];
      assert b == a + {s[|s| - 1]};
      assert s[|s| - 1] !in a;
    }
  }

  /** `np.zeros((d, d)) + corr` followed by `np.fill_diagonal(cov, diag)`. */
  function Covariance(d: nat, corr: real, diag: real): (m: seq<seq<real>>)
    ensures |m| == d && forall i :: 0 <= i < d ==> |m[i]| == d
  {
    var filled := seq(d, i => seq(d, j => corr));
    seq(d, i requires 0 <= i < d => filled[i][i := diag])
  }

  /** The covariance has the diagonal variance on the diagonal and the
      pairwise correlation everywhere else, and is symmetric. */
  lemma CovarianceEntries(d: nat, corr: real, diag: real, i: nat, j: nat)
    requires i < d && j < d
    ensures |Covariance(d, corr, diag)| == d && |Covariance(d, corr, diag)[i]| == d
    ensures Covariance(d, corr, diag)[i][j] == if i == j then diag else corr
    ensures Covariance(d, corr, diag)[i][j] == Covariance(d, corr, diag)[j][i]
  {
  }
}
