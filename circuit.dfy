/** The two-qubit circuit of the demo: two independent amplitude vectors,
    the gate dispatch of a click on the gate palette, the hard-wired CNOT
    and the reset. The pure functions give the meaning of each operation on
    the pair of vectors; the class Simulator is the mutable global state
    whose methods are proved against them. */
module Circuit {
  import opened Gates

  /** The keys of the gates table. */
  datatype Kind = H | X | CNOT

  /** The contents of the two slots of the qubits array. */
  datatype Qubits = Qubits(q0: Amplitudes, q1: Amplitudes)
  {
    /** qubits[q] */
    function At(q: nat): Amplitudes
      requires q < 2
    {
      if q == 0 then q0 else q1
    }

    /** The state with qubits[q] replaced by v. */
    function With(q: nat, v: Amplitudes): (r: Qubits)
      requires q < 2
      ensures r.At(q) == v && r.At(1 - q) == At(1 - q)
    {
      if q == 0 then Qubits(v, q1) else Qubits(q0, v)
    }
  }

  /** One call addGate(kind, qubit), as made by a click in the page. */
  datatype Click = Click(kind: Kind, qubit: nat)

  /** Both qubits in |0⟩: the initial value of qubits and the one reset restores. */
  function Initial(): (r: Qubits)
    ensures r.At(0) == Ket0 && r.At(1) == Ket0
    ensures Normalized(r)
  {
    Qubits(Ket0, Ket0)
  }

  /** gates[kind]; the CNOT entry holds no matrix. */
  function GateMatrix(kind: Kind, h: real): Matrix
    requires kind != CNOT
  {
    if kind == H then Hadamard(h) else PauliX
  }

  /** applyGate(g, q): qubit q's vector becomes g times it, the other qubit keeps its vector. */
  function ApplyGateTo(st: Qubits, g: Matrix, q: nat): (r: Qubits)
    requires q < 2
    ensures r.At(q) == Apply(g, st.At(q))
    ensures r.At(1 - q) == st.At(1 - q)
  {
    st.With(q, Apply(g, st.At(q)))
  }

  /** applyCNOT(c, t): flip the target with X only when the control's |1⟩ amplitude is exactly 1. */
  function CnotOn(st: Qubits, c: nat, t: nat): (r: Qubits)
    requires c < 2 && t < 2
    ensures st.At(c).one != 1.0 ==> r == st
    ensures st.At(c).one == 1.0 ==> r.At(t) == Amplitudes(st.At(t).one, st.At(t).zero)
    ensures r.At(1 - t) == st.At(1 - t)
    ensures c != t ==> r.At(c) == st.At(c)
  {
    if st.At(c).one == 1.0 then ApplyGateTo(st, PauliX, t) else st
  }

  /** The state part of addGate(kind, qubit): CNOT always acts with control 0 and target 1. */
  function AddGateTo(st: Qubits, click: Click, h: real): Qubits
    requires click.qubit < 2
  {
    if click.kind == CNOT then CnotOn(st, 0, 1)
    else ApplyGateTo(st, GateMatrix(click.kind, h), click.qubit)
  }

  /** Every click names qubit 0 or 1. */
  predicate InRange(clicks: seq<Click>)
  {
    forall i :: 0 <= i < |clicks| ==> clicks[i].qubit < 2
  }

  /** The state after a sequence of clicks, one addGate call at a time. */
  function Run(st: Qubits, clicks: seq<Click>, h: real): Qubits
    requires InRange(clicks)
    decreases |clicks|
  {
    if clicks == [] then st else Run(AddGateTo(st, clicks[0], h), clicks[1..], h)
  }

  /** Each qubit's vector has total probability 1. */
  predicate Normalized(st: Qubits)
  {
    Norm(st.At(0)) == 1.0 && Norm(st.At(1)) == 1.0
  }

  // ---------------------------------------------------------------------
  // The dispatch of addGate

  /** A CNOT click acts like applyCNOT(0, 1), whichever qubit the click named. */
  lemma CnotClickIgnoresQubit(st: Qubits, q: nat, h: real)
    requires q < 2
    ensures AddGateTo(st, Click(CNOT, q), h) == CnotOn(st, 0, 1)
    ensures AddGateTo(st, Click(CNOT, q), h) == AddGateTo(st, Click(CNOT, 1 - q), h)
  {
  }

  /** An H or X click applies gates[kind] to the qubit it names and leaves the other alone. */
  lemma GateClickAppliesMatrix(st: Qubits, kind: Kind, q: nat, h: real)
    requires q < 2 && kind != CNOT
    ensures AddGateTo(st, Click(kind, q), h).At(q) == Apply(GateMatrix(kind, h), st.At(q))
    ensures AddGateTo(st, Click(kind, q), h).At(1 - q) == st.At(1 - q)
  {
  }

  /** A two-click circuit is the two addGate calls in order. */
  lemma RunTwo(st: Qubits, a: Click, b: Click, h: real)
    requires a.qubit < 2 && b.qubit < 2
    ensures Run(st, [a, b], h) == AddGateTo(AddGateTo(st, a, h), b, h)
  {
    var mid := AddGateTo(st, a, h);
    assert [a, b][0] == a && [a, b][1..] == [b];
    assert Run(st, [a, b], h) == Run(mid, [b], h);
    assert [b][0] == b && [b][1..] == [];
    assert Run(mid, [b], h) == Run(AddGateTo(mid, b, h), [], h);
  }

  // ---------------------------------------------------------------------
  // Self-inverse gates

  /** Two X clicks on the same qubit restore the state. */
  lemma XTwiceRestores(st: Qubits, q: nat, h: real)
    requires q < 2
    ensures Run(st, [Click(X, q), Click(X, q)], h) == st
  {
    var once := AddGateTo(st, Click(X, q), h);
    assert once.At(q) == Swapped(st.At(q));
    RunTwo(st, Click(X, q), Click(X, q), h);
  }

  /** Two H clicks on the same qubit restore the state (exact reals). */
  lemma HTwiceRestores(st: Qubits, q: nat, h: real)
    requires q < 2 && h * h == 0.5
    ensures Run(st, [Click(H, q), Click(H, q)], h) == st
  {
    HadamardSelfInverse(h, st.At(q));
    RunTwo(st, Click(H, q), Click(H, q), h);
  }

  /** With control and target distinct, a second CNOT undoes the first. */
  lemma CnotSelfInverse(st: Qubits, c: nat, t: nat)
    requires c < 2 && t < 2 && c != t
    ensures CnotOn(CnotOn(st, c, t), c, t) == st
  {
    var once := CnotOn(st, c, t);
    assert once.At(c) == st.At(c);
    if st.At(c).one == 1.0 {
      assert once.At(t) == Swapped(st.At(t));
      assert CnotOn(once, c, t).At(t) == Swapped(once.At(t));
    }
  }

  // ---------------------------------------------------------------------
  // Normalization is an invariant of every circuit

  /** applyGate with a real unitary keeps both vectors normalized. */
  lemma ApplyGatePreservesNorm(st: Qubits, g: Matrix, q: nat)
    requires q < 2 && Orthogonal(g) && Normalized(st)
    ensures Normalized(ApplyGateTo(st, g, q))
  {
    OrthogonalPreservesNorm(g, st.At(q));
  }

  /** applyCNOT(0, 1) keeps both vectors normalized: at most it swaps the target's amplitudes. */
  lemma CnotPreservesNorm(st: Qubits)
    requires Normalized(st)
    ensures Normalized(CnotOn(st, 0, 1))
  {
    if st.At(0).one == 1.0 {
      var r := Qubits(st.q0, Swapped(st.q1));
      assert CnotOn(st, 0, 1) == r;
    } else {
      assert CnotOn(st, 0, 1) == st;
    }
  }

  /** Every matrix of the gates table is a real unitary. */
  lemma GateMatrixOrthogonal(kind: Kind, h: real)
    requires kind != CNOT && h * h == 0.5
    ensures Orthogonal(GateMatrix(kind, h))
  {
    if kind == H {
      HadamardOrthogonal(h);
    } else {
      PauliXOrthogonal();
      assert GateMatrix(kind, h) == PauliX;
    }
  }

  /** One click keeps both vectors normalized. */
  lemma AddGatePreservesNorm(st: Qubits, click: Click, h: real)
    requires click.qubit < 2 && h * h == 0.5 && Normalized(st)
    ensures Normalized(AddGateTo(st, click, h))
  {
    if click.kind == CNOT {
      CnotPreservesNorm(st);
      assert AddGateTo(st, click, h) == CnotOn(st, 0, 1);
    } else {
      var g := GateMatrix(click.kind, h);
      GateMatrixOrthogonal(click.kind, h);
      ApplyGatePreservesNorm(st, g, click.qubit);
      assert AddGateTo(st, click, h) == ApplyGateTo(st, g, click.qubit);
    }
  }

  /** The normalization step of one addGate call, stated for a pre- and a post-state. */
  lemma KeepsNorm(before: Qubits, after: Qubits, click: Click, h: real)
    requires click.qubit < 2 && h * h == 0.5 && after == AddGateTo(before, click, h)
    ensures Normalized(before) ==> Normalized(after)
  {
    if Normalized(before) {
      AddGatePreservesNorm(before, click, h);
    }
  }

  /** Any sequence of clicks from a normalized state ends in a normalized state. */
  lemma {:induction false} RunPreservesNorm(st: Qubits, clicks: seq<Click>, h: real)
    requires InRange(clicks) && h * h == 0.5 && Normalized(st)
    ensures Normalized(Run(st, clicks, h))
    decreases |clicks|
  {
    if clicks != [] {
      AddGatePreservesNorm(st, clicks[0], h);
      RunPreservesNorm(AddGateTo(st, clicks[0], h), clicks[1..], h);
    }
  }

  /** Every state reachable from the initial one by clicks is normalized. */
  lemma ReachableNormalized(clicks: seq<Click>, h: real)
    requires InRange(clicks) && h * h == 0.5
    ensures Normalized(Run(Initial(), clicks, h))
  {
    RunPreservesNorm(Initial(), clicks, h);
  }

  // ---------------------------------------------------------------------
  // Circuits without H are classical bit circuits

  /** A pair of classical bits, one per qubit. */
  datatype Bits = Bits(b0: bool, b1: bool)

  /** The basis vector of one bit. */
  function Basis(b: bool): Amplitudes
  {
    if b then Ket1 else Ket0
  }

  /** The two-qubit state of a pair of bits. */
  function Encode(bits: Bits): Qubits
  {
    Qubits(Basis(bits.b0), Basis(bits.b1))
  }

  /** A click on a pair of classical bits: X negates its bit, CNOT xors bit 0 into bit 1. */
  function BitStep(bits: Bits, click: Click): Bits
    requires click.qubit < 2 && click.kind != H
  {
    match click.kind
    case X => if click.qubit == 0 then Bits(!bits.b0, bits.b1) else Bits(bits.b0, !bits.b1)
    case CNOT => Bits(bits.b0, bits.b1 != bits.b0)
  }

  predicate NoHadamard(clicks: seq<Click>)
  {
    forall i :: 0 <= i < |clicks| ==> clicks[i].kind != H
  }

  function BitRun(bits: Bits, clicks: seq<Click>): Bits
    requires InRange(clicks) && NoHadamard(clicks)
    decreases |clicks|
  {
    if clicks == [] then bits else BitRun(BitStep(bits, clicks[0]), clicks[1..])
  }

  /** X swaps the amplitudes of a basis vector: it negates the bit. */
  lemma XOnBasis(b: bool)
    ensures Apply(PauliX, Basis(b)) == Basis(!b)
  {
  }

  /** applyGate(X, q) on basis states negates bit q. */
  lemma ClassicalX(bits: Bits, q: nat)
    requires q < 2
    ensures ApplyGateTo(Encode(bits), PauliX, q) == Encode(BitStep(bits, Click(X, q)))
  {
    var st := Encode(bits);
    XOnBasis(bits.b0);
    XOnBasis(bits.b1);
    assert ApplyGateTo(st, PauliX, q) == st.With(q, Apply(PauliX, st.At(q)));
    if q == 0 {
      assert st.With(0, Apply(PauliX, st.At(0))) == Qubits(Basis(!bits.b0), Basis(bits.b1));
    } else {
      assert st.With(1, Apply(PauliX, st.At(1))) == Qubits(Basis(bits.b0), Basis(!bits.b1));
    }
  }

  /** A set control bit flips the target bit. */
  lemma CnotOnSetControl(b1: bool)
    ensures CnotOn(Encode(Bits(true, b1)), 0, 1) == Encode(Bits(true, !b1))
  {
    XOnBasis(b1);
  }

  /** A clear control bit leaves both bits alone. */
  lemma CnotOnClearControl(b1: bool)
    ensures CnotOn(Encode(Bits(false, b1)), 0, 1) == Encode(Bits(false, b1))
  {
  }

  /** applyCNOT(0, 1) on basis states xors bit 0 into bit 1. */
  lemma ClassicalCnot(bits: Bits)
    ensures CnotOn(Encode(bits), 0, 1) == Encode(BitStep(bits, Click(CNOT, 0)))
  {
    if bits.b0 {
      CnotOnSetControl(bits.b1);
      assert bits == Bits(true, bits.b1);
    } else {
      CnotOnClearControl(bits.b1);
      assert bits == Bits(false, bits.b1);
    }
  }

  /** One X or CNOT click on basis states is the classical bit operation. */
  lemma ClassicalStep(bits: Bits, click: Click, h: real)
    requires click.qubit < 2 && click.kind != H
    ensures AddGateTo(Encode(bits), click, h) == Encode(BitStep(bits, click))
  {
    if click.kind == X {
      ClassicalX(bits, click.qubit);
    } else {
      ClassicalCnot(bits);
      assert BitStep(bits, click) == BitStep(bits, Click(CNOT, 0));
    }
  }

  /** A circuit of X and CNOT clicks maps basis states to basis states exactly as the bit circuit does. */
  lemma {:induction false} ClassicalRun(bits: Bits, clicks: seq<Click>, h: real)
    requires InRange(clicks) && NoHadamard(clicks)
    ensures Run(Encode(bits), clicks, h) == Encode(BitRun(bits, clicks))
    decreases |clicks|
  {
    if clicks != [] {
      ClassicalStep(bits, clicks[0], h);
      ClassicalRun(BitStep(bits, clicks[0]), clicks[1..], h);
    }
  }

  /** X on qubit 0 then CNOT drives both qubits to |1⟩. */
  lemma XThenCnot(h: real)
    ensures Run(Initial(), [Click(X, 0), Click(CNOT, 0)], h) == Qubits(Ket1, Ket1)
  {
    RunTwo(Initial(), Click(X, 0), Click(CNOT, 0), h);
    ClassicalStep(Bits(false, false), Click(X, 0), h);
    ClassicalStep(Bits(true, false), Click(CNOT, 0), h);
  }

  /** H on qubit 0 then CNOT leaves qubit 1 in |0⟩: the control's |1⟩ amplitude h is not exactly 1,
      so no flip happens and no entangled state arises. */
  lemma HThenCnotDoesNotFlip(h: real)
    requires IsHadamardEntry(h)
    ensures Run(Initial(), [Click(H, 0), Click(CNOT, 0)], h) == Qubits(Amplitudes(h, h), Ket0)
  {
    HadamardOfKet0(h);
    var afterH := AddGateTo(Initial(), Click(H, 0), h);
    assert afterH == Qubits(Amplitudes(h, h), Ket0);
    assert Run(Initial(), [Click(H, 0), Click(CNOT, 0)], h) == AddGateTo(afterH, Click(CNOT, 0), h);
  }

  // ---------------------------------------------------------------------
  // The mutable global state

  /** The page's global qubits array together with the H entry of the gates table. */
  class Simulator {
    var qubits: array<Amplitudes>
    /** The number stored as 1 / Math.sqrt(2) in the gates table. */
    const h: real

    ghost predicate Valid()
      reads this
    {
      qubits.Length == 2 && IsHadamardEntry(h)
    }

    ghost function State(): Qubits
      reads this, qubits
      requires Valid()
    {
      Qubits(qubits[0], qubits[1])
    }

    /** The initialisation of qubits: both in |0⟩. */
    constructor (h: real)
      requires IsHadamardEntry(h)
      ensures Valid() && fresh(qubits) && this.h == h
      ensures State() == Initial()
    {
      this.h := h;
      qubits := new Amplitudes[2] [Ket0, Ket0];
    }

    /** applyGate(gate, qubit): multiply the qubit's vector by the matrix, in its slot. */
    method ApplyGate(g: Matrix, q: nat)
      requires Valid() && q < 2
      modifies qubits
      ensures Valid()
      ensures qubits[q] == Amplitudes(g.m00 * old(qubits[q]).zero + g.m01 * old(qubits[q]).one,
                                      g.m10 * old(qubits[q]).zero + g.m11 * old(qubits[q]).one)
      ensures qubits[1 - q] == old(qubits[1 - q])
      ensures State() == ApplyGateTo(old(State()), g, q)
    {
      var state := qubits[q];
      qubits[q] := Apply(g, state);
    }

    /** applyCNOT(control, target). */
    method ApplyCNOT(control: nat, target: nat)
      requires Valid() && control < 2 && target < 2
      modifies qubits
      ensures Valid()
      ensures old(qubits[control]).one == 1.0 ==> qubits[target] == Swapped(old(qubits[target]))
      ensures old(qubits[control]).one != 1.0 ==> qubits[0] == old(qubits[0]) && qubits[1] == old(qubits[1])
      ensures control != target ==> qubits[control] == old(qubits[control])
      ensures State() == CnotOn(old(State()), control, target)
    {
      if qubits[control].one == 1.0 {
        ApplyGate(PauliX, target);
      }
    }

    /** The state part of addGate(type, qubit). */
    method AddGate(kind: Kind, qubit: nat)
      requires Valid() && qubit < 2
      modifies qubits
      ensures Valid()
      ensures State() == AddGateTo(old(State()), Click(kind, qubit), h)
      ensures old(Normalized(State())) ==> Normalized(State())
    {
      ghost var before := State();
      if kind == CNOT {
        ApplyCNOT(0, 1);
        assert AddGateTo(before, Click(kind, qubit), h) == CnotOn(before, 0, 1);
      } else {
        ApplyGate(GateMatrix(kind, h), qubit);
        assert AddGateTo(before, Click(kind, qubit), h) == ApplyGateTo(before, GateMatrix(kind, h), qubit);
      }
      KeepsNorm(before, State(), Click(kind, qubit), h);
    }

    /** The state part of resetCircuit: a new array with both qubits in |0⟩. */
    method ResetCircuit()
      requires Valid()
      modifies this
      ensures Valid() && fresh(qubits)
      ensures State() == Initial()
    {
      qubits := new Amplitudes[2] [Ket0, Ket0];
    }
  }
}
