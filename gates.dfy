/** Single-qubit amplitude vectors, the 2x2 gate matrices that act on them,
    and the facts about the two gates of the demo (Hadamard and Pauli-X).
    Arithmetic is on exact reals. */
module Gates {

  /** The column vector [[zero], [one]] of one qubit: the amplitudes of |0⟩ and |1⟩. */
  datatype Amplitudes = Amplitudes(zero: real, one: real)

  /** |0⟩, the state both qubits start in and are reset to. */
  const Ket0 := Amplitudes(1.0, 0.0)

  /** |1⟩ */
  const Ket1 := Amplitudes(0.0, 1.0)

  /** The 2x2 matrix [[m00, m01], [m10, m11]]. */
  datatype Matrix = Matrix(m00: real, m01: real, m10: real, m11: real)

  const Identity := Matrix(1.0, 0.0, 0.0, 1.0)

  /** The X entry of the gates table. */
  const PauliX := Matrix(0.0, 1.0, 1.0, 0.0)

  /** The H entry of the gates table, with h standing for 1 / Math.sqrt(2). */
  function Hadamard(h: real): Matrix
  {
    Matrix(h, h, h, -h)
  }

  /** What is known of the real number 1 / Math.sqrt(2): positive, and its square is 1/2. */
  predicate IsHadamardEntry(h: real)
  {
    h > 0.0 && h * h == 0.5
  }

  /** Matrix-vector product g * v. */
  function Apply(g: Matrix, v: Amplitudes): Amplitudes
  {
    Amplitudes(g.m00 * v.zero + g.m01 * v.one, g.m10 * v.zero + g.m11 * v.one)
  }

  /** Matrix product g * k. */
  function Product(g: Matrix, k: Matrix): Matrix
  {
    Matrix(g.m00 * k.m00 + g.m01 * k.m10, g.m00 * k.m01 + g.m01 * k.m11,
           g.m10 * k.m00 + g.m11 * k.m10, g.m10 * k.m01 + g.m11 * k.m11)
  }

  /** Sum of the squared amplitudes (the total measurement probability). */
  function Norm(v: Amplitudes): real
  {
    v.zero * v.zero + v.one * v.one
  }

  /** A real matrix whose columns are orthonormal, i.e. a real unitary. */
  predicate Orthogonal(g: Matrix)
  {
    && g.m00 * g.m00 + g.m10 * g.m10 == 1.0
    && g.m01 * g.m01 + g.m11 * g.m11 == 1.0
    && g.m00 * g.m01 + g.m10 * g.m11 == 0.0
  }

  /** The two amplitudes exchanged: what the X gate does to a qubit,
      and applying X again gives the vector back. */
  function Swapped(v: Amplitudes): (r: Amplitudes)
    ensures r == Apply(PauliX, v)
    ensures Apply(PauliX, r) == v
    ensures Norm(r) == Norm(v)
  {
    Amplitudes(v.one, v.zero)
  }

  /** The arithmetic behind one entry of a product of a row with two columns. */
  lemma RowTimesColumns(a: real, b: real, c: real, d: real, e: real, f: real, x: real, y: real)
    ensures a * (c * x + d * y) + b * (e * x + f * y) == (a * c + b * e) * x + (a * d + b * f) * y
  {
    assert a * (c * x + d * y) == a * c * x + a * d * y;
    assert b * (e * x + f * y) == b * e * x + b * f * y;
  }

  /** Applying two gates in turn is applying their product. */
  lemma ApplyProduct(g: Matrix, k: Matrix, v: Amplitudes)
    ensures Apply(g, Apply(k, v)) == Apply(Product(g, k), v)
  {
    RowTimesColumns(g.m00, g.m01, k.m00, k.m01, k.m10, k.m11, v.zero, v.one);
    RowTimesColumns(g.m10, g.m11, k.m00, k.m01, k.m10, k.m11, v.zero, v.one);
  }

  /** H * H is the identity matrix. */
  lemma HadamardSquared(h: real)
    requires h * h == 0.5
    ensures Product(Hadamard(h), Hadamard(h)) == Identity
  {
    assert (-h) * (-h) == h * h;
    assert h * (-h) == -(h * h);
  }

  /** H is its own inverse: applying it twice gives back the vector. */
  lemma HadamardSelfInverse(h: real, v: Amplitudes)
    requires h * h == 0.5
    ensures Apply(Hadamard(h), Apply(Hadamard(h), v)) == v
  {
    ApplyProduct(Hadamard(h), Hadamard(h), v);
    HadamardSquared(h);
  }

  /** A real unitary keeps the sum of squared amplitudes. */
  lemma OrthogonalPreservesNorm(g: Matrix, v: Amplitudes)
    requires Orthogonal(g)
    ensures Norm(Apply(g, v)) == Norm(v)
  {
    var a, b := v.zero, v.one;
    calc {
      Norm(Apply(g, v));
      (g.m00 * a + g.m01 * b) * (g.m00 * a + g.m01 * b) + (g.m10 * a + g.m11 * b) * (g.m10 * a + g.m11 * b);
      (g.m00 * g.m00 + g.m10 * g.m10) * (a * a) + (g.m01 * g.m01 + g.m11 * g.m11) * (b * b)
        + 2.0 * (g.m00 * g.m01 + g.m10 * g.m11) * (a * b);
      1.0 * (a * a) + 1.0 * (b * b) + 2.0 * 0.0 * (a * b);
      Norm(v);
    }
  }

  /** X is a real unitary. */
  lemma PauliXOrthogonal()
    ensures Orthogonal(PauliX)
  {
  }

  /** H is a real unitary. */
  lemma HadamardOrthogonal(h: real)
    requires h * h == 0.5
    ensures Orthogonal(Hadamard(h))
  {
    assert (-h) * (-h) == h * h;
    assert h * (-h) == -(h * h);
  }

  /** The |1⟩ amplitude of H|0⟩ is h, which is never exactly 1. */
  lemma HadamardOfKet0(h: real)
    requires IsHadamardEntry(h)
    ensures Apply(Hadamard(h), Ket0) == Amplitudes(h, h)
    ensures Apply(Hadamard(h), Ket0).one != 1.0
  {
  }
}
