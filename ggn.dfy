/**
 * The tail of compute_ggn (src/train_utils.py:194-200): the Jacobian leaves of the
 * parameter tree are reshaped to [N, C, P] and concatenated along the last axis into
 * one [N, C, D] Jacobian, and the per-item GGN is the sandwich J^T H J written as
 * einsum("nax,nab,nby->nxy").  The Jacobian and the Hessian themselves are inputs.
 */
module Ggn {
  import opened Wrappers
  import opened Tensors

  /**
   * One leaf of the Jacobian pytree: the derivative of the [N, C] output with respect
   * to a parameter leaf of `width` entries, stored row-major as [N, C, width].
   */
  datatype Leaf = Leaf(width: nat, data: seq<real>)

  /**
   * x.reshape(n, c, -1) yields [n, c, width]: the leaf holds n * c * width values, and
   * n * c is positive, since -1 cannot be inferred for a size-0 array.
   */
  predicate Reshapable(leaf: Leaf, n: nat, c: nat) {
    n > 0 && c > 0 && |leaf.data| == (n * c) * leaf.width
  }

  /** Offset of item i, output a in a row-major [n, c, p] buffer, and its bound. */
  lemma RowBounds(n: nat, c: nat, p: nat, i: nat, a: nat)
    requires i < n && a < c
    ensures (i * c + a) * p + p <= (n * c) * p
  {
    MulMono(i + 1, n, c);
    assert (i + 1) * c == i * c + c;
    var row := i * c + a;
    MulMono(row + 1, n * c, p);
    assert (row + 1) * p == row * p + p;
  }

  /** Row [i][a] of a row-major [n, c, p] leaf: the p values starting at (i * c + a) * p. */
  function LeafRow(leaf: Leaf, n: nat, c: nat, i: nat, a: nat): (r: seq<real>)
    requires Reshapable(leaf, n, c) && i < n && a < c
    ensures |r| == leaf.width
  {
    var p := leaf.width;
    RowBounds(n, c, p, i, a);
    leaf.data[(i * c + a) * p .. (i * c + a) * p + p]
  }

  /** x.reshape(n, c, -1) of a row-major leaf. */
  function Reshape(leaf: Leaf, n: nat, c: nat): (r: Tensor3)
    requires Reshapable(leaf, n, c)
    ensures IsCube(r, n, c, leaf.width)
  {
    seq(n, i requires 0 <= i < n =>
      seq(c, a requires 0 <= a < c => LeafRow(leaf, n, c, i, a)))
  }

  /** Entry [i][a][q] of the reshaped leaf is entry (i * c + a) * P + q of the leaf. */
  lemma ReshapeAt(leaf: Leaf, n: nat, c: nat, i: nat, a: nat, q: nat)
    requires Reshapable(leaf, n, c) && i < n && a < c && q < leaf.width
    ensures (i * c + a) * leaf.width + q < |leaf.data|
    ensures Reshape(leaf, n, c)[i][a][q] == leaf.data[(i * c + a) * leaf.width + q]
  {
    var p := leaf.width;
    var start := (i * c + a) * p;
    RowBounds(n, c, p, i, a);
    assert Reshape(leaf, n, c)[i][a] == leaf.data[start .. start + p];
  }

  /** A positive product has a positive right factor. */
  lemma PositiveFactor(x: nat, p: nat)
    requires x * p > 0
    ensures p > 0
  {
  }

  /** Multiplication by the same factor preserves strict order only from a smaller left factor. */
  lemma MulCancel(x: nat, y: nat, p: nat)
    requires x * p < y * p
    ensures x < y
  {
    if x >= y {
      MulMono(y, x, p);
    }
  }

  /** Euclidean division of k < m * p by p: a quotient below m and a remainder below p. */
  lemma DivSplit(k: nat, m: nat, p: nat) returns (row: nat, q: nat)
    requires k < m * p
    ensures row < m && q < p
    ensures row * p + q == k
  {
    PositiveFactor(m, p);
    row, q := k / p, k % p;
    assert row * p <= k;
    MulCancel(row, m, p);
  }

  /** Row-major index arithmetic: every k < n * c * p is (i * c + a) * p + q for one i < n, a < c, q < p. */
  lemma IndexSplit(k: nat, n: nat, c: nat, p: nat) returns (i: nat, a: nat, q: nat)
    requires k < (n * c) * p
    ensures i < n && a < c && q < p
    ensures (i * c + a) * p + q == k
  {
    var row;
    row, q := DivSplit(k, n * c, p);
    i, a := DivSplit(row, n, c);
  }

  /** Nothing is lost: every value of the leaf sits at its row-major position in the reshaped leaf. */
  lemma ReshapeCovers(leaf: Leaf, n: nat, c: nat, k: nat)
    requires Reshapable(leaf, n, c) && k < |leaf.data|
    ensures exists i: nat, a: nat, q: nat ::
              i < n && a < c && q < leaf.width && (i * c + a) * leaf.width + q == k &&
              Reshape(leaf, n, c)[i][a][q] == leaf.data[k]
  {
    var i, a, q := IndexSplit(k, n, c, leaf.width);
    ReshapeAt(leaf, n, c, i, a, q);
  }

  /** Every leaf can be reshaped to [n, c, -1]. */
  predicate AllReshapable(leaves: seq<Leaf>, n: nat, c: nat) {
    forall l :: 0 <= l < |leaves| ==> Reshapable(leaves[l], n, c)
  }

  /** D: the sum of the leaf widths. */
  function ParamDim(leaves: seq<Leaf>): nat {
    if |leaves| == 0 then 0
    else ParamDim(leaves[..|leaves| - 1]) + leaves[|leaves| - 1].width
  }

  /** The number of values over all leaves. */
  function DataSize(leaves: seq<Leaf>): nat {
    if |leaves| == 0 then 0
    else DataSize(leaves[..|leaves| - 1]) + |leaves[|leaves| - 1].data|
  }

  /** D is the total leaf size over N * C: the sum over the leaves of their size per item and output. */
  lemma {:induction false} ParamDimOfSizes(leaves: seq<Leaf>, n: nat, c: nat)
    requires AllReshapable(leaves, n, c)
    ensures (n * c) * ParamDim(leaves) == DataSize(leaves)
    decreases |leaves|
  {
    if |leaves| > 0 {
      var k := |leaves| - 1;
      assert AllReshapable(leaves[..k], n, c);
      ParamDimOfSizes(leaves[..k], n, c);
      var nc, pd, w := n * c, ParamDim(leaves[..k]), leaves[k].width;
      assert nc * (pd + w) == nc * pd + nc * w;
    }
  }

  /** Where leaf l starts along the concatenated axis: the widths of the leaves before it. */
  function Offset(leaves: seq<Leaf>, l: nat): nat
    requires l <= |leaves|
  {
    ParamDim(leaves[..l])
  }

  /** Row [i][a] of the concatenation: the rows [i][a] of the reshaped leaves, in leaf order. */
  function JointRow(leaves: seq<Leaf>, n: nat, c: nat, i: nat, a: nat): (r: seq<real>)
    requires AllReshapable(leaves, n, c) && i < n && a < c
    ensures |r| == ParamDim(leaves)
  {
    if |leaves| == 0 then []
    else
      var k := |leaves| - 1;
      JointRow(leaves[..k], n, c, i, a) + Reshape(leaves[k], n, c)[i][a]
  }

  /**
   * jnp.concatenate([x.reshape(N, C, -1) for x in leaves], axis=2).  An empty leaf
   * list (concatenate raises) or a leaf that does not reshape gives None.
   */
  function FlattenLeaves(leaves: seq<Leaf>, n: nat, c: nat): (r: Option<Tensor3>)
    ensures r.Some? <==> |leaves| > 0 && AllReshapable(leaves, n, c)
    ensures r.Some? ==> IsCube(r.value, n, c, ParamDim(leaves))
  {
    if |leaves| == 0 || !AllReshapable(leaves, n, c) then None
    else
      Some(seq(n, i requires 0 <= i < n =>
        seq(c, a requires 0 <= a < c => JointRow(leaves, n, c, i, a))))
  }

  /** The widths before leaf l and of leaf l fit within D. */
  lemma {:induction false} OffsetBound(leaves: seq<Leaf>, l: nat)
    requires l < |leaves|
    ensures Offset(leaves, l) + leaves[l].width <= ParamDim(leaves)
    decreases |leaves|
  {
    var k := |leaves| - 1;
    assert leaves[..k + 1] == leaves;
    if l < k {
      assert leaves[..k][..l] == leaves[..l];
      assert leaves[..k][l] == leaves[l];
      OffsetBound(leaves[..k], l);
    } else {
      assert leaves[..k] == leaves[..l];
    }
  }

  /** Within row [i][a] of the concatenation, leaf l occupies positions Offset(l) .. Offset(l) + P_l. */
  lemma {:induction false} JointRowAt(leaves: seq<Leaf>, n: nat, c: nat, i: nat, a: nat, l: nat, q: nat)
    requires AllReshapable(leaves, n, c) && i < n && a < c
    requires l < |leaves| && q < leaves[l].width
    ensures Offset(leaves, l) + q < ParamDim(leaves)
    ensures JointRow(leaves, n, c, i, a)[Offset(leaves, l) + q] == Reshape(leaves[l], n, c)[i][a][q]
    decreases |leaves|
  {
    OffsetBound(leaves, l);
    var k := |leaves| - 1;
    var front := leaves[..k];
    assert AllReshapable(front, n, c);
    var head, last := JointRow(front, n, c, i, a), Reshape(leaves[k], n, c)[i][a];
    assert JointRow(leaves, n, c, i, a) == head + last;
    if l < k {
      assert front[..l] == leaves[..l];
      assert front[l] == leaves[l];
      JointRowAt(front, n, c, i, a, l, q);
    } else {
      assert front == leaves[..l];
      assert Offset(leaves, l) == |head|;
    }
  }

  /**
   * The flattened Jacobian at [i][a][Offset(l) + q] is entry (i * C + a) * P_l + q of
   * leaf l: the leaves sit side by side along D in leaf order.
   */
  lemma FlattenAt(leaves: seq<Leaf>, n: nat, c: nat, i: nat, a: nat, l: nat, q: nat)
    requires AllReshapable(leaves, n, c) && i < n && a < c
    requires l < |leaves| && q < leaves[l].width
    ensures FlattenLeaves(leaves, n, c).Some?
    ensures Offset(leaves, l) + q < ParamDim(leaves)
    ensures (i * c + a) * leaves[l].width + q < |leaves[l].data|
    ensures FlattenLeaves(leaves, n, c).value[i][a][Offset(leaves, l) + q]
         == leaves[l].data[(i * c + a) * leaves[l].width + q]
  {
    JointRowAt(leaves, n, c, i, a, l, q);
    ReshapeAt(leaves[l], n, c, i, a, q);
  }

  /** The transpose of an r x c matrix. */
  function Transpose(m: Mat, r: nat, c: nat): (t: Mat)
    requires IsMat(m, r, c)
    ensures IsMat(t, c, r)
    ensures forall y, x :: 0 <= y < c && 0 <= x < r ==> t[y][x] == m[x][y]
  {
    seq(c, y requires 0 <= y < c => seq(r, x requires 0 <= x < r => m[x][y]))
  }

  /** The row sums of a matrix. */
  function RowSums(m: Mat): (r: seq<real>)
    ensures |r| == |m|
  {
    seq(|m|, x requires 0 <= x < |m| => Sum(m[x]))
  }

  /** The matrix product of an r x k and a k x c matrix. */
  function MatMul(a: Mat, b: Mat, r: nat, k: nat, c: nat): (p: Mat)
    requires IsMat(a, r, k) && IsMat(b, k, c)
    ensures IsMat(p, r, c)
  {
    seq(r, x requires 0 <= x < r =>
      seq(c, y requires 0 <= y < c =>
        Sum(seq(k, j requires 0 <= j < k => a[x][j] * b[j][y]))))
  }

  /** The c x c terms J[a][x] * H[a][b] * J[b][y] of one GGN entry, indexed [a][b]. */
  function Terms(j: Mat, h: Mat, c: nat, d: nat, x: nat, y: nat): (t: Mat)
    requires IsMat(j, c, d) && IsMat(h, c, c) && x < d && y < d
    ensures IsMat(t, c, c)
  {
    seq(c, a requires 0 <= a < c =>
      seq(c, b requires 0 <= b < c => j[a][x] * h[a][b] * j[b][y]))
  }

  /** One item's GGN: entry [x][y] is the sum over a and b of J[a][x] * H[a][b] * J[b][y]. */
  function ItemGgn(j: Mat, h: Mat, c: nat, d: nat): (g: Mat)
    requires IsMat(j, c, d) && IsMat(h, c, c)
    ensures IsMat(g, d, d)
  {
    seq(d, x requires 0 <= x < d =>
      seq(d, y requires 0 <= y < d => Sum(RowSums(Terms(j, h, c, d, x, y)))))
  }

  /** einsum("nax,nab,nby->nxy", J, H, J): the per-item GGNs [N, D, D]. */
  function Sandwich(jac: Tensor3, hess: Tensor3, n: nat, c: nat, d: nat): (g: Tensor3)
    requires IsCube(jac, n, c, d) && IsCube(hess, n, c, c)
    ensures IsCube(g, n, d, d)
  {
    seq(n, i requires 0 <= i < n => ItemGgn(jac[i], hess[i], c, d))
  }

  /**
   * The tail of compute_ggn: flatten the Jacobian leaves, then contract with the loss
   * Hessian.  None when the leaves do not flatten.
   */
  function ComputeGgn(leaves: seq<Leaf>, hess: Tensor3, n: nat, c: nat): (r: Option<Tensor3>)
    requires IsCube(hess, n, c, c)
    ensures r.Some? <==> |leaves| > 0 && AllReshapable(leaves, n, c)
    ensures r.Some? ==> IsCube(r.value, n, ParamDim(leaves), ParamDim(leaves))
  {
    match FlattenLeaves(leaves, n, c)
    case None => None
    case Some(jac) => Some(Sandwich(jac, hess, n, c, ParamDim(leaves)))
  }

  /** A sequence of all zeros sums to zero. */
  lemma SumZeros(s: seq<real>)
    requires forall j :: 0 <= j < |s| ==> s[j] == 0.0
    ensures Sum(s) == 0.0
  {
    SumScale(s, 0.0, s);
  }

  /** The columns of an r x c matrix without rows are empty. */
  lemma NoRowsColumnSums(m: Mat, c: nat)
    requires IsMat(m, 0, c)
    ensures Sum(RowSums(Transpose(m, 0, c))) == 0.0
  {
    var t := Transpose(m, 0, c);
    forall y | 0 <= y < c ensures RowSums(t)[y] == 0.0 {
      assert t[y] == [];
    }
    SumZeros(RowSums(t));
  }

  /** Column y of an r x c matrix is column y of its first r - 1 rows, then m[r - 1][y]. */
  lemma ColumnSnoc(m: Mat, r: nat, c: nat, y: nat)
    requires r > 0 && IsMat(m, r, c) && y < c
    ensures IsMat(m[..r - 1], r - 1, c)
    ensures Transpose(m, r, c)[y] == Transpose(m[..r - 1], r - 1, c)[y] + [m[r - 1][y]]
  {
    var front := m[..r - 1];
    assert IsMat(front, r - 1, c);
    var col, colf := Transpose(m, r, c)[y], Transpose(front, r - 1, c)[y];
    assert |col| == |colf + [m[r - 1][y]]|;
    forall x | 0 <= x < r ensures col[x] == (colf + [m[r - 1][y]])[x] {
      if x < r - 1 {
        assert col[x] == m[x][y] == front[x][y] == colf[x];
      }
    }
  }

  /** Summing a matrix by rows or by columns gives the same total. */
  lemma {:induction false} SumByColumns(m: Mat, r: nat, c: nat)
    requires IsMat(m, r, c)
    ensures Sum(RowSums(Transpose(m, r, c))) == Sum(RowSums(m))
    decreases r
  {
    if r == 0 {
      NoRowsColumnSums(m, c);
      assert RowSums(m) == [];
    } else {
      var k := r - 1;
      var front := m[..k];
      assert IsMat(front, k, c);
      var t, tf := RowSums(Transpose(m, r, c)), RowSums(Transpose(front, k, c));
      SumByColumns(front, k, c);
      forall y | 0 <= y < c ensures t[y] == tf[y] + m[k][y] {
        ColumnSnoc(m, r, c, y);
        SumSnoc(Transpose(front, k, c)[y], m[k][y]);
      }
      SumAdd(tf, m[k], t);
      assert RowSums(m) == RowSums(front) + [Sum(m[k])];
      SumSnoc(RowSums(front), Sum(m[k]));
    }
  }

  /** A symmetric c x c matrix. */
  predicate Symmetric(h: Mat, c: nat) {
    IsMat(h, c, c) && forall a, b :: 0 <= a < c && 0 <= b < c ==> h[a][b] == h[b][a]
  }

  /** Each item's GGN is symmetric whenever its loss Hessian is. */
  lemma ItemGgnSymmetric(j: Mat, h: Mat, c: nat, d: nat, x: nat, y: nat)
    requires IsMat(j, c, d) && Symmetric(h, c) && x < d && y < d
    ensures ItemGgn(j, h, c, d)[x][y] == ItemGgn(j, h, c, d)[y][x]
  {
    var txy, tyx := Terms(j, h, c, d, x, y), Terms(j, h, c, d, y, x);
    var tt := Transpose(txy, c, c);
    forall a, b | 0 <= a < c && 0 <= b < c ensures tyx[a][b] == tt[a][b] {
      assert h[a][b] == h[b][a];
    }
    MatExt(tyx, tt, c, c);
    SumByColumns(txy, c, c);
  }

  /** Every GGN[i] of the sandwich is symmetric when every H[i] is. */
  lemma SandwichSymmetric(jac: Tensor3, hess: Tensor3, n: nat, c: nat, d: nat)
    requires IsCube(jac, n, c, d) && IsCube(hess, n, c, c)
    requires forall i :: 0 <= i < n ==> Symmetric(hess[i], c)
    ensures forall i, x, y :: 0 <= i < n && 0 <= x < d && 0 <= y < d ==>
      Sandwich(jac, hess, n, c, d)[i][x][y] == Sandwich(jac, hess, n, c, d)[i][y][x]
  {
    forall i, x, y | 0 <= i < n && 0 <= x < d && 0 <= y < d
      ensures Sandwich(jac, hess, n, c, d)[i][x][y] == Sandwich(jac, hess, n, c, d)[i][y][x]
    {
      ItemGgnSymmetric(jac[i], hess[i], c, d, x, y);
    }
  }

  /** The einsum is the matrix product J^T (H J) of each item. */
  lemma ItemGgnIsProduct(j: Mat, h: Mat, c: nat, d: nat)
    requires IsMat(j, c, d) && IsMat(h, c, c)
    ensures ItemGgn(j, h, c, d) == MatMul(Transpose(j, c, d), MatMul(h, j, c, c, d), d, c, d)
  {
    var jt, hj := Transpose(j, c, d), MatMul(h, j, c, c, d);
    var g, p := ItemGgn(j, h, c, d), MatMul(jt, hj, d, c, d);
    forall x, y | 0 <= x < d && 0 <= y < d ensures g[x][y] == p[x][y] {
      var t := Terms(j, h, c, d, x, y);
      var outer := seq(c, a requires 0 <= a < c => jt[x][a] * hj[a][y]);
      forall a | 0 <= a < c ensures RowSums(t)[a] == outer[a] {
        var inner := seq(c, b requires 0 <= b < c => h[a][b] * j[b][y]);
        assert hj[a][y] == Sum(inner);
        SumScale(inner, j[a][x], t[a]);
      }
      SumPointwise(RowSums(t), outer);
    }
    assert g == p by {
      forall x | 0 <= x < d ensures g[x] == p[x] {}
    }
  }

  /** The dot product of two vectors of equal length. */
  function Dot(a: seq<real>, b: seq<real>): real
    requires |a| == |b|
  {
    Sum(seq(|a|, i requires 0 <= i < |a| => a[i] * b[i]))
  }

  /** The product of an r x c matrix with a vector of length c. */
  function MatVec(m: Mat, v: seq<real>, r: nat, c: nat): (w: seq<real>)
    requires IsMat(m, r, c) && |v| == c
    ensures |w| == r
  {
    seq(r, x requires 0 <= x < r => Dot(m[x], v))
  }

  /** The quadratic form v^T m v of a c x c matrix. */
  function Quad(m: Mat, v: seq<real>, c: nat): real
    requires IsMat(m, c, c) && |v| == c
  {
    Dot(v, MatVec(m, v, c, c))
  }

  /** A c x c matrix whose quadratic form is never negative (positive semi-definite). */
  ghost predicate Psd(h: Mat, c: nat) {
    IsMat(h, c, c) && forall u: seq<real> :: |u| == c ==> Quad(h, u, c) >= 0.0
  }

  lemma DotComm(a: seq<real>, b: seq<real>)
    requires |a| == |b|
    ensures Dot(a, b) == Dot(b, a)
  {
    var ab := seq(|a|, i requires 0 <= i < |a| => a[i] * b[i]);
    var ba := seq(|b|, i requires 0 <= i < |b| => b[i] * a[i]);
    SumPointwise(ab, ba);
  }

  /** (a b) v == a (b v): the sums over the inner index and over v's index can be swapped. */
  lemma MatVecMul(a: Mat, b: Mat, v: seq<real>, r: nat, k: nat, c: nat)
    requires IsMat(a, r, k) && IsMat(b, k, c) && |v| == c
    ensures MatVec(MatMul(a, b, r, k, c), v, r, c) == MatVec(a, MatVec(b, v, k, c), r, k)
  {
    var ab, bv := MatMul(a, b, r, k, c), MatVec(b, v, k, c);
    var lhs, rhs := MatVec(ab, v, r, c), MatVec(a, bv, r, k);
    forall x | 0 <= x < r ensures lhs[x] == rhs[x] {
      var m := ProductTerms(a, b, v, r, k, c, x);
      ProductTermsRows(a, b, v, r, k, c, x);
      ProductTermsColumns(a, b, v, r, k, c, x);
      SumByColumns(m, c, k);
    }
  }

  /** The c x k terms a[x][j] * b[j][y] * v[y] of entry x of (a b) v, indexed [y][j]. */
  function ProductTerms(a: Mat, b: Mat, v: seq<real>, r: nat, k: nat, c: nat, x: nat): (m: Mat)
    requires IsMat(a, r, k) && IsMat(b, k, c) && |v| == c && x < r
    ensures IsMat(m, c, k)
  {
    seq(c, y requires 0 <= y < c => seq(k, j requires 0 <= j < k => a[x][j] * b[j][y] * v[y]))
  }

  lemma ProductTermsRows(a: Mat, b: Mat, v: seq<real>, r: nat, k: nat, c: nat, x: nat)
    requires IsMat(a, r, k) && IsMat(b, k, c) && |v| == c && x < r
    ensures Sum(RowSums(ProductTerms(a, b, v, r, k, c, x))) == Dot(MatMul(a, b, r, k, c)[x], v)
  {
    var m, ab := ProductTerms(a, b, v, r, k, c, x), MatMul(a, b, r, k, c);
    var byRows := seq(c, y requires 0 <= y < c => ab[x][y] * v[y]);
    forall y | 0 <= y < c ensures RowSums(m)[y] == byRows[y] {
      SumScale(seq(k, j requires 0 <= j < k => a[x][j] * b[j][y]), v[y], m[y]);
    }
    SumPointwise(RowSums(m), byRows);
  }

  lemma ProductTermsColumns(a: Mat, b: Mat, v: seq<real>, r: nat, k: nat, c: nat, x: nat)
    requires IsMat(a, r, k) && IsMat(b, k, c) && |v| == c && x < r
    ensures Sum(RowSums(Transpose(ProductTerms(a, b, v, r, k, c, x), c, k))) == Dot(a[x], MatVec(b, v, k, c))
  {
    var t, bv := Transpose(ProductTerms(a, b, v, r, k, c, x), c, k), MatVec(b, v, k, c);
    var byCols := seq(k, j requires 0 <= j < k => a[x][j] * bv[j]);
    forall j | 0 <= j < k ensures RowSums(t)[j] == byCols[j] {
      SumScale(seq(c, y requires 0 <= y < c => b[j][y] * v[y]), a[x][j], t[j]);
    }
    SumPointwise(RowSums(t), byCols);
  }

  /** (J^T w) . v == w . (J v) for a c x d matrix J. */
  lemma DotTranspose(j: Mat, w: seq<real>, v: seq<real>, c: nat, d: nat)
    requires IsMat(j, c, d) && |w| == c && |v| == d
    ensures Dot(MatVec(Transpose(j, c, d), w, d, c), v) == Dot(w, MatVec(j, v, c, d))
  {
    TransposeTermsRows(j, w, v, c, d);
    TransposeTermsColumns(j, w, v, c, d);
    SumByColumns(TransposeTerms(j, w, v, c, d), d, c);
  }

  /** The d x c terms j[a][x] * w[a] * v[x] of (J^T w) . v, indexed [x][a]. */
  function TransposeTerms(j: Mat, w: seq<real>, v: seq<real>, c: nat, d: nat): (m: Mat)
    requires IsMat(j, c, d) && |w| == c && |v| == d
    ensures IsMat(m, d, c)
  {
    seq(d, x requires 0 <= x < d => seq(c, a requires 0 <= a < c => j[a][x] * w[a] * v[x]))
  }

  lemma TransposeTermsRows(j: Mat, w: seq<real>, v: seq<real>, c: nat, d: nat)
    requires IsMat(j, c, d) && |w| == c && |v| == d
    ensures Sum(RowSums(TransposeTerms(j, w, v, c, d))) == Dot(MatVec(Transpose(j, c, d), w, d, c), v)
  {
    var m, jt := TransposeTerms(j, w, v, c, d), Transpose(j, c, d);
    var jtw := MatVec(jt, w, d, c);
    var byRows := seq(d, x requires 0 <= x < d => jtw[x] * v[x]);
    forall x | 0 <= x < d ensures RowSums(m)[x] == byRows[x] {
      SumScale(seq(c, a requires 0 <= a < c => jt[x][a] * w[a]), v[x], m[x]);
    }
    SumPointwise(RowSums(m), byRows);
  }

  lemma TransposeTermsColumns(j: Mat, w: seq<real>, v: seq<real>, c: nat, d: nat)
    requires IsMat(j, c, d) && |w| == c && |v| == d
    ensures Sum(RowSums(Transpose(TransposeTerms(j, w, v, c, d), d, c))) == Dot(w, MatVec(j, v, c, d))
  {
    var t, jv := Transpose(TransposeTerms(j, w, v, c, d), d, c), MatVec(j, v, c, d);
    var byCols := seq(c, a requires 0 <= a < c => w[a] * jv[a]);
    forall a | 0 <= a < c ensures RowSums(t)[a] == byCols[a] {
      SumScale(seq(d, x requires 0 <= x < d => j[a][x] * v[x]), w[a], t[a]);
    }
    SumPointwise(RowSums(t), byCols);
  }

  /** v^T (J^T H J) v is the quadratic form of H at u = J v. */
  lemma ItemGgnQuad(j: Mat, h: Mat, c: nat, d: nat, v: seq<real>)
    requires IsMat(j, c, d) && IsMat(h, c, c) && |v| == d
    ensures Quad(ItemGgn(j, h, c, d), v, d) == Quad(h, MatVec(j, v, c, d), c)
  {
    var jt, hj := Transpose(j, c, d), MatMul(h, j, c, c, d);
    var u := MatVec(j, v, c, d);
    var hu := MatVec(h, u, c, c);
    ItemGgnIsProduct(j, h, c, d);
    MatVecMul(jt, hj, v, d, c, d);
    MatVecMul(h, j, v, c, c, d);
    var gv := MatVec(jt, hu, d, c);
    assert MatVec(ItemGgn(j, h, c, d), v, d, d) == gv;
    DotComm(v, gv);
    DotTranspose(j, hu, v, c, d);
    DotComm(hu, u);
  }

  /** Each item's GGN is positive semi-definite whenever its loss Hessian is. */
  lemma ItemGgnPsd(j: Mat, h: Mat, c: nat, d: nat)
    requires IsMat(j, c, d) && Psd(h, c)
    ensures Psd(ItemGgn(j, h, c, d), d)
  {
    forall v: seq<real> | |v| == d ensures Quad(ItemGgn(j, h, c, d), v, d) >= 0.0 {
      ItemGgnQuad(j, h, c, d, v);
    }
  }

  /** The GGN of every item is positive semi-definite when every loss Hessian is. */
  lemma ComputeGgnPsd(leaves: seq<Leaf>, hess: Tensor3, n: nat, c: nat)
    requires IsCube(hess, n, c, c) && forall i :: 0 <= i < n ==> Psd(hess[i], c)
    requires ComputeGgn(leaves, hess, n, c).Some?
    ensures forall i :: 0 <= i < n ==> Psd(ComputeGgn(leaves, hess, n, c).value[i], ParamDim(leaves))
  {
    var jac := FlattenLeaves(leaves, n, c).value;
    var dim := ParamDim(leaves);
    forall i | 0 <= i < n ensures Psd(ComputeGgn(leaves, hess, n, c).value[i], dim) {
      ItemGgnPsd(jac[i], hess[i], c, dim);
    }
  }

  /** The GGN of every item is symmetric, whatever the Jacobian, when every loss Hessian is. */
  lemma ComputeGgnSymmetric(leaves: seq<Leaf>, hess: Tensor3, n: nat, c: nat)
    requires IsCube(hess, n, c, c) && forall i :: 0 <= i < n ==> Symmetric(hess[i], c)
    requires ComputeGgn(leaves, hess, n, c).Some?
    ensures forall i, x, y :: 0 <= i < n && 0 <= x < ParamDim(leaves) && 0 <= y < ParamDim(leaves) ==>
      ComputeGgn(leaves, hess, n, c).value[i][x][y] == ComputeGgn(leaves, hess, n, c).value[i][y][x]
  {
    var jac := FlattenLeaves(leaves, n, c).value;
    SandwichSymmetric(jac, hess, n, c, ParamDim(leaves));
  }
}
