/** The math bridge between the framework's fixed-size vectors and matrices
    (TVec3, TVec4, TMat3, TMat4) and the engine's linear-algebra types
    (Eigen vectors, matrices and 3-D isometries).

    Scalars are modelled as `real`: the framework stores `float`, the engine
    `double`, and the precision change is not part of this model. */
module MathBridge {

  /** A framework 3-vector. */
  datatype TVec3 = TVec3(x: real, y: real, z: real)

  /** A framework 4-vector. */
  datatype TVec4 = TVec4(x: real, y: real, z: real, w: real)

  /** An engine-side dense vector: its coefficients in order. */
  type EigenVec = seq<real>

  /** A framework square matrix of dimension `n`. Its entries are kept
      column by column, so entry (i, j) lives at `buff[i + n * j]`. */
  datatype TMat = TMat(n: nat, buff: seq<real>)

  /** An engine-side dense matrix, as a sequence of rows. */
  type EigenMat = seq<seq<real>>

  /** An engine-side rigid transform: its linear (rotation) block and its
      translation column. */
  datatype Isometry = Isometry(rotation: EigenMat, translation: EigenVec)

  predicate ValidMat(m: TMat) {
    |m.buff| == m.n * m.n
  }

  predicate IsEigenMat(e: EigenMat, n: nat) {
    |e| == n && forall i :: 0 <= i < n ==> |e[i]| == n
  }

  predicate IsIsometry(tf: Isometry) {
    IsEigenMat(tf.rotation, 3) && |tf.translation| == 3
  }

  /** Multiplication by a non-negative factor is monotone. */
  lemma MulMonotone(a: int, b: int, c: int)
    requires a >= 0 && b <= c
    ensures a * b <= a * c
  {
  }

  /** Column-major indices of an n-by-n matrix stay inside its buffer. */
  lemma ColumnMajorInRange(n: nat, i: nat, j: nat)
    requires i < n && j < n
    ensures i + n * j < n * n
  {
    MulMonotone(n, j, n - 1);
    assert n * (n - 1) == n * n - n;
  }

  /** Euclidean quotient and remainder are unique. */
  lemma DivModUnique(n: int, k: int, q: int, r: int)
    requires n > 0 && 0 <= r < n && k == n * q + r
    ensures k / n == q && k % n == r
  {
    var q', r' := k / n, k % n;
    assert k == n * q' + r' && 0 <= r' < n;
    assert n * (q' - q) == r - r' by {
      assert n * q' - n * q == n * (q' - q);
    }
    if q' > q {
      MulMonotone(n, 1, q' - q);
      assert false;
    } else if q' < q {
      MulMonotone(n, 1, q - q');
      assert false;
    }
  }

  /** Column-major indexing is invertible: the row is the remainder and the
      column is the quotient by `n`. */
  lemma ColumnMajorDecode(n: nat, i: nat, j: nat)
    requires i < n
    ensures (i + n * j) % n == i && (i + n * j) / n == j
  {
    DivModUnique(n, i + n * j, j, i);
  }

  /** Every buffer position is the column-major index of some (row, column). */
  lemma ColumnMajorEncode(n: nat, k: nat)
    requires k < n * n
    ensures k % n < n && k / n < n && k == k % n + n * (k / n)
  {
  }

  /** Entry (i, j) of a framework matrix, as the framework's `mat(i, j)` reads it. */
  function At(m: TMat, i: nat, j: nat): real
    requires ValidMat(m) && i < m.n && j < m.n
  {
    ColumnMajorInRange(m.n, i, j);
    m.buff[i + m.n * j]
  }

  // ---------------------------------------------------------------------------
  // Vectors

  function Vec3ToEigen(v: TVec3): (e: EigenVec)
    ensures |e| == 3
  {
    [v.x, v.y, v.z]
  }

  function Vec4ToEigen(v: TVec4): (e: EigenVec)
    ensures |e| == 4
  {
    [v.x, v.y, v.z, v.w]
  }

  function Vec3FromEigen(e: EigenVec): (v: TVec3)
    requires |e| == 3
  {
    TVec3(e[0], e[1], e[2])
  }

  function Vec4FromEigen(e: EigenVec): (v: TVec4)
    requires |e| == 4
  {
    TVec4(e[0], e[1], e[2], e[3])
  }

  /** Both 3-vector conversions are inverse to each other. */
  lemma Vec3RoundTrip(v: TVec3, e: EigenVec)
    requires |e| == 3
    ensures Vec3FromEigen(Vec3ToEigen(v)) == v
    ensures Vec3ToEigen(Vec3FromEigen(e)) == e
  {
  }

  /** Both 4-vector conversions are inverse to each other. */
  lemma Vec4RoundTrip(v: TVec4, e: EigenVec)
    requires |e| == 4
    ensures Vec4FromEigen(Vec4ToEigen(v)) == v
    ensures Vec4ToEigen(Vec4FromEigen(e)) == e
  {
  }

  // ---------------------------------------------------------------------------
  // Square matrices (mat3 and mat4 share one definition, parameterised by n)

  /** Element-wise copy of a framework matrix into an engine matrix. */
  function MatToEigen(m: TMat): (e: EigenMat)
    requires ValidMat(m)
    ensures IsEigenMat(e, m.n)
    ensures forall i, j :: 0 <= i < m.n && 0 <= j < m.n ==> e[i][j] == At(m, i, j)
  {
    seq(m.n, i requires 0 <= i < m.n =>
      seq(m.n, j requires 0 <= j < m.n => At(m, i, j)))
  }

  /** Element-wise copy of an engine matrix into a framework matrix. */
  function MatFromEigen(e: EigenMat, n: nat): (m: TMat)
    requires IsEigenMat(e, n)
    ensures ValidMat(m) && m.n == n
    ensures forall i, j :: 0 <= i < n && 0 <= j < n ==> At(m, i, j) == e[i][j]
  {
    var buff := seq(n * n, k requires 0 <= k < n * n =>
      ColumnMajorEncode(n, k);
      e[k % n][k / n]);
    var m := TMat(n, buff);
    assert forall i, j :: 0 <= i < n && 0 <= j < n ==> At(m, i, j) == e[i][j] by {
      forall i, j | 0 <= i < n && 0 <= j < n
        ensures At(m, i, j) == e[i][j]
      {
        ColumnMajorInRange(n, i, j);
        ColumnMajorDecode(n, i, j);
      }
    }
    m
  }

  /** A framework matrix survives the trip to the engine and back unchanged. */
  lemma {:induction false} MatRoundTrip(m: TMat)
    requires ValidMat(m)
    ensures MatFromEigen(MatToEigen(m), m.n) == m
  {
    var m' := MatFromEigen(MatToEigen(m), m.n);
    forall k | 0 <= k < m.n * m.n
      ensures m'.buff[k] == m.buff[k]
    {
      ColumnMajorEncode(m.n, k);
      var i, j := k % m.n, k / m.n;
      ColumnMajorInRange(m.n, i, j);
      assert m'.buff[i + m.n * j] == At(m', i, j) == At(m, i, j);
    }
  }

  /** An engine matrix survives the trip to the framework and back unchanged. */
  lemma {:induction false} EigenMatRoundTrip(e: EigenMat, n: nat)
    requires IsEigenMat(e, n)
    ensures MatToEigen(MatFromEigen(e, n)) == e
  {
    var e' := MatToEigen(MatFromEigen(e, n));
    forall i | 0 <= i < n
      ensures e'[i] == e[i]
    {
      assert forall j :: 0 <= j < n ==> e'[i][j] == e[i][j];
    }
  }

  // ---------------------------------------------------------------------------
  // Homogeneous transforms

  /** The identity 4x4 framework matrix: what a default-constructed TMat4 holds. */
  function Identity4(): (m: TMat)
    ensures ValidMat(m) && m.n == 4
  {
    TMat(4, seq(16, k requires 0 <= k < 16 => if k % 4 == k / 4 then 1.0 else 0.0))
  }

  /** The engine transform of a framework 4x4 matrix: the upper-left 3x3 block
      becomes the rotation and rows 0..2 of column 3 the translation. The
      bottom row of the matrix is not read. */
  function Mat4ToEigenTf(m: TMat): (tf: Isometry)
    requires ValidMat(m) && m.n == 4
    ensures IsIsometry(tf)
    ensures forall i, j :: 0 <= i < 3 && 0 <= j < 3 ==> tf.rotation[i][j] == At(m, i, j)
    ensures tf.translation == [At(m, 0, 3), At(m, 1, 3), At(m, 2, 3)]
  {
    Isometry(
      seq(3, i requires 0 <= i < 3 => seq(3, j requires 0 <= j < 3 => At(m, i, j))),
      Vec3ToEigen(TVec3(At(m, 0, 3), At(m, 1, 3), At(m, 2, 3))))
  }

  /** The framework matrix of an engine transform: an identity matrix whose
      column 3 (rows 0..2) is overwritten by the translation and whose
      upper-left 3x3 block is overwritten by the rotation. */
  function Mat4FromEigenTf(tf: Isometry): (m: TMat)
    requires IsIsometry(tf)
    ensures ValidMat(m) && m.n == 4
    ensures forall i, j :: 0 <= i < 3 && 0 <= j < 3 ==> At(m, i, j) == tf.rotation[i][j]
    ensures forall i :: 0 <= i < 3 ==> At(m, i, 3) == tf.translation[i]
    ensures HasAffineBottomRow(m)
  {
    var id := Identity4();
    var m := TMat(4, seq(16, k requires 0 <= k < 16 =>
      var i, j := k % 4, k / 4;
      if i < 3 && j < 3 then tf.rotation[i][j]
      else if i < 3 && j == 3 then tf.translation[i]
      else id.buff[k]));
    assert forall i, j :: 0 <= i < 4 && 0 <= j < 4 ==> At(m, i, j) == m.buff[i + 4 * j];
    m
  }

  /** The bottom row of a homogeneous rigid transform. */
  predicate HasAffineBottomRow(m: TMat)
    requires ValidMat(m) && m.n == 4
  {
    At(m, 3, 0) == 0.0 && At(m, 3, 1) == 0.0 && At(m, 3, 2) == 0.0 && At(m, 3, 3) == 1.0
  }

  /** The 12 entries that a transform carries: the rotation block and the
      translation column. */
  predicate SameRigidPart(a: TMat, b: TMat)
    requires ValidMat(a) && a.n == 4 && ValidMat(b) && b.n == 4
  {
    forall i, j :: 0 <= i < 3 && 0 <= j < 4 ==> At(a, i, j) == At(b, i, j)
  }

  /** Framework -> engine -> framework keeps the rotation block and the
      translation column, resets the bottom row to (0, 0, 0, 1), and so is
      the identity on matrices that already have that bottom row. */
  lemma {:induction false} TfRoundTrip(m: TMat)
    requires ValidMat(m) && m.n == 4
    ensures SameRigidPart(Mat4FromEigenTf(Mat4ToEigenTf(m)), m)
    ensures HasAffineBottomRow(Mat4FromEigenTf(Mat4ToEigenTf(m)))
    ensures HasAffineBottomRow(m) <==> Mat4FromEigenTf(Mat4ToEigenTf(m)) == m
  {
    var m' := Mat4FromEigenTf(Mat4ToEigenTf(m));
    assert forall i, j :: 0 <= i < 4 && 0 <= j < 4 ==> At(m', i, j) == m'.buff[i + 4 * j];
    assert forall i, j :: 0 <= i < 4 && 0 <= j < 4 ==> At(m, i, j) == m.buff[i + 4 * j];
    if HasAffineBottomRow(m) {
      forall k | 0 <= k < 16
        ensures m'.buff[k] == m.buff[k]
      {
        assert k == k % 4 + 4 * (k / 4);
      }
      assert m'.buff == m.buff;
    }
  }

  /** Engine -> framework -> engine is the identity on transforms. */
  lemma {:induction false} EigenTfRoundTrip(tf: Isometry)
    requires IsIsometry(tf)
    ensures Mat4ToEigenTf(Mat4FromEigenTf(tf)) == tf
  {
    var tf' := Mat4ToEigenTf(Mat4FromEigenTf(tf));
    forall i | 0 <= i < 3
      ensures tf'.rotation[i] == tf.rotation[i]
    {
      assert forall j :: 0 <= j < 3 ==> tf'.rotation[i][j] == tf.rotation[i][j];
    }
    assert tf'.translation == tf.translation;
  }
}
