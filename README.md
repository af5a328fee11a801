# QTangle two-qubit simulator, modelled in Dafny

QTangle is a browser demo of a two-qubit circuit. The page keeps a global
array `qubits` with one amplitude vector per qubit. Both vectors start as
|0⟩ = [1, 0]. A click on the gate palette calls `addGate(type, qubit)`:

- `H` or `X` multiplies that qubit's vector by the gate's 2x2 matrix from
  the `gates` table.
- `CNOT` is hard-wired to control 0 and target 1. It applies X to qubit 1
  only when qubit 0's |1⟩ amplitude is exactly 1.

`resetCircuit` puts both vectors back to |0⟩. The qubits are stored
independently, so there is no joint state and no entanglement.

The model has two modules.

- `Gates` (gates.dfy) defines single-qubit vectors (`Amplitudes`), 2x2
  matrices, the matrix-vector and matrix-matrix products, the squared norm,
  and the two gate matrices:
  - `PauliX`.
  - `Hadamard(h)`, where `h` stands for `1 / Math.sqrt(2)`.
  Its lemmas say that X swaps the amplitudes and is an involution, that
  H·H = I, and that both gates are real unitaries that keep the norm.
- `Circuit` (circuit.dfy) defines:
  - the pair of vectors (`Qubits`);
  - the pure meaning of each operation: `ApplyGateTo` (applyGate), `CnotOn`
    (applyCNOT), `AddGateTo` (the dispatch in addGate) and `Initial` (the
    initial value and the reset value);
  - `Run`, a sequence of clicks applied one `addGate` call at a time;
  - the class `Simulator`, which holds the mutable `qubits` array.
  Each of the class's methods is proved against the pure function. The lemmas
  prove four things:
  - Both vectors stay normalized through any sequence of clicks.
  - A circuit with only X and CNOT acts on basis states exactly like the
    matching classical bit circuit (`BitStep`, `BitRun`).
  - X, H and CNOT are each self-inverse.
  - H followed by CNOT does not flip qubit 1.

The code has no joint statevector, no tensor-product CNOT and no error
results: it keeps two independent 2-vectors and a CNOT that compares one
amplitude with 1. `HThenCnotDoesNotFlip` states what happens with H on
qubit 0 and then CNOT: no flip happens, because the control's |1⟩ amplitude
after H is `h`, and `h` is not 1.

## Model

| member | source | states |
|---|---|---|
| `Gates.Swapped` | script.js:10 | Swapping the two amplitudes is what X does (`Apply(PauliX, v)`). Applying X again gives the original vector, and the norm is kept. |
| `Gates.ApplyProduct` | script.js:17-20 | Applying one gate and then another equals applying their matrix product. |
| `Gates.HadamardSquared` | script.js:9 | With h² = 1/2, H·H is the identity matrix. |
| `Gates.HadamardSelfInverse` | script.js:9 | With h² = 1/2, applying H twice gives back any vector. |
| `Gates.OrthogonalPreservesNorm` | script.js:17-20 | The product with a real unitary keeps the sum of squared amplitudes. |
| `Gates.PauliXOrthogonal` | script.js:10 | The X matrix is a real unitary. |
| `Gates.HadamardOrthogonal` | script.js:9 | With h² = 1/2, the H matrix is a real unitary. |
| `Gates.HadamardOfKet0` | script.js:9 | H·&#124;0⟩ = [h, h], and its &#124;1⟩ amplitude is not exactly 1. |
| `Gates.Apply` | script.js:17-20 | Definition: the matrix-vector product. Its meaning is stated by `ApplyProduct` (composition) and `OrthogonalPreservesNorm` (norm). |
| `Gates.Hadamard` | script.js:9 | Definition: the H matrix [[h, h], [h, -h]]. Its properties are stated by `HadamardSquared`, `HadamardSelfInverse` and `HadamardOrthogonal`. |
| `Circuit.Initial` | script.js:2-5 | Both qubits are &#124;0⟩, and the state is normalized. The same value is restored by reset (script.js:72-75). |
| `Circuit.GateMatrix` | script.js:8-12 | Definition: `gates[type]` for H and X; the CNOT entry holds no matrix. With h² = 1/2, both entries are real unitaries (`GateMatrixOrthogonal`). |
| `Circuit.AddGateTo` | script.js:42-46 | Definition: the state part of addGate. Its meaning is stated by `CnotClickIgnoresQubit` and `GateClickAppliesMatrix`. |
| `Circuit.Qubits.With` | script.js:21 | Writing slot q sets that slot and keeps the other slot. |
| `Circuit.ApplyGateTo` | script.js:15-22 | After applyGate, qubit q holds the matrix product with its old vector, and the other qubit's vector is unchanged. |
| `Circuit.CnotOn` | script.js:53-58 | If the control's &#124;1⟩ amplitude is not 1, nothing changes. If it is 1, the target's two amplitudes are exchanged. Only the target can change, so a distinct control keeps its vector. |
| `Circuit.CnotSelfInverse` | script.js:53-58 | With control ≠ target, a second applyCNOT undoes the first. |
| `Circuit.CnotClickIgnoresQubit` | script.js:42-43 | A CNOT click acts as applyCNOT(0, 1), whichever qubit the click names. |
| `Circuit.GateClickAppliesMatrix` | script.js:44-46 | An H or X click applies `gates[type]` to the qubit it names and leaves the other qubit alone. |
| `Circuit.RunTwo` | script.js:32-50 | Helper, not a property of the program: unfolds `Run` on two clicks into two addGate calls in order. |
| `Circuit.XTwiceRestores` | script.js:10 | Two X clicks on the same qubit restore the whole state. |
| `Circuit.HTwiceRestores` | script.js:9 | With h² = 1/2, two H clicks on the same qubit restore the whole state. |
| `Circuit.ApplyGatePreservesNorm` | script.js:15-22 | applyGate with a real unitary keeps both qubits normalized. |
| `Circuit.CnotPreservesNorm` | script.js:53-58 | applyCNOT(0, 1) keeps both qubits normalized. |
| `Circuit.GateMatrixOrthogonal` | script.js:8-12 | With h² = 1/2, every matrix in the gates table is a real unitary. |
| `Circuit.AddGatePreservesNorm` | script.js:42-46 | One click of any kind keeps both qubits normalized. |
| `Circuit.KeepsNorm` | script.js:42-46 | If the state before a click is normalized, so is the state after it. This is the step `Simulator.AddGate` uses. |
| `Circuit.RunPreservesNorm` | script.js:42-46 | Any sequence of clicks from a normalized state ends in a normalized state. |
| `Circuit.ReachableNormalized` | script.js:2-5 | Every state reachable from the initial &#124;0⟩&#124;0⟩ is normalized. |
| `Circuit.XOnBasis` | script.js:10 | X maps the basis vector of bit b to the basis vector of !b. |
| `Circuit.ClassicalX` | script.js:15-22 | applyGate(X, q) on basis states negates bit q. |
| `Circuit.CnotOnSetControl` | script.js:53-58 | If the control bit is set, applyCNOT(0, 1) flips the target bit. |
| `Circuit.CnotOnClearControl` | script.js:53-58 | If the control bit is clear, applyCNOT(0, 1) changes nothing. |
| `Circuit.ClassicalCnot` | script.js:53-58 | On basis states, applyCNOT(0, 1) xors bit 0 into bit 1. |
| `Circuit.ClassicalStep` | script.js:42-46 | An X or CNOT click on basis states equals the classical bit step. |
| `Circuit.ClassicalRun` | script.js:42-46 | A circuit of X and CNOT clicks maps basis states exactly as the bit circuit does. |
| `Circuit.XThenCnot` | script.js:42-46 | X on qubit 0 and then CNOT leaves both qubits in &#124;1⟩. |
| `Circuit.HThenCnotDoesNotFlip` | script.js:53-58 | H on qubit 0 and then CNOT leaves qubit 1 in &#124;0⟩. No entangled state arises. |
| `Circuit.Simulator.constructor` | script.js:2-5 | Both qubits start in &#124;0⟩. The H entry must be 1/√2 (h > 0, h² = 1/2), as fixed at script.js:9, and `Valid()` keeps it so. |
| `Circuit.Simulator.ApplyGate` | script.js:15-22 | The slot's new vector is [g00·a0 + g01·a1, g10·a0 + g11·a1], written in place. The other slot is unchanged, and the new state is `ApplyGateTo` of the old one. |
| `Circuit.Simulator.ApplyCNOT` | script.js:53-58 | If the old control's &#124;1⟩ amplitude is 1, the target's amplitudes are swapped. Otherwise both slots are unchanged. A distinct control is never modified. |
| `Circuit.Simulator.AddGate` | script.js:42-46 | The new state is the dispatch `AddGateTo` of the old one: CNOT means applyCNOT(0, 1), and any other kind applies `gates[type]`. A normalized state stays normalized. |
| `Circuit.Simulator.ResetCircuit` | script.js:72-75 | A new array holding &#124;0⟩, &#124;0⟩, whatever the prior state. This equals the initial state, so a second reset gives the same result as one. |

## Left out

- DOM work: the element creation and text in `addGate` (script.js:33-39), `updateQubitState` (script.js:61-64), and clearing the containers and labels in `resetCircuit` (script.js:68-69, script.js:78-79). These are presentation only.
- `getStateString` (script.js:25-29) is left out. It formats amplitudes with `toFixed(2)`, which is float-to-string rounding.
- Floating point: amplitudes are exact reals. The value `1 / Math.sqrt(2)` cannot be written exactly, so the model takes it as a parameter `h` with h > 0 and h² = 1/2 (`IsHadamardEntry`). The `Simulator` constructor requires this of `h`, and `Valid()` keeps it. With floats, H·H·|0⟩ does not give exactly [1, 0], so in JavaScript the `=== 1` test of `applyCNOT` can decide differently than in the model after H gates. With only X and CNOT, every product involves 0 or 1, so floats and reals agree.
- Out-of-range qubit indices and unknown gate names crash the page with a JavaScript error. They are excluded: the methods require an index below 2, and the gate type is the datatype `Kind` = H | X | CNOT. The `CNOT: null` entry never reaches `GateMatrix`.
- Joint-space semantics: an N-qubit statevector, probabilities and error results are not in the code, so they are not modelled.
- `Run` and `BitRun` model a sequence of separate clicks. The code has no loop over gates; the page calls `addGate` once per click.
