# OmniQ core, modelled in Dafny

OmniQ is a quantum-computing toolkit. It consists of:

- a C++ core library (`libomniq-core`) with state-vector, density-matrix and stabilizer-tableau simulators, circuits, error correction, Grover search, phase estimation and noise channels;
- a Qt debugger (`omniq-debugger`) with its own small simulator;
- a Python front end (`omniq-python`).

This project models the parts of these that are exact and deterministic, and proves what they promise. Those parts are:

- **Stabilizer simulation** (`clifford_tableau.dfy`, `clifford_simulator.dfy`). The CHP-style tableau has its in-place gate updates and `rowsum`. C++'s truncating `%` is written out. `measure` takes the random bit as a parameter.
- **Error correction.**
  - Pauli-string stabilizers (`stabilizer.dfy`).
  - ±1 syndromes (`syndrome.dfy`).
  - The rotated surface-code lattice (`surface_code.dfy`).
  - The greedy matching decoder (`mwpm.dfy`).
  - The union-find decoder with path compression and union by rank (`union_find.dfy`).
- **Circuits and stepping.**
  - The core gate-list circuit with its cancellation pass and OpenQASM 2.0 text (`circuit.dfy`).
  - The debugger engine with history and breakpoints (`execution_engine.dfy`).
  - The debugger back end's circuit and gate embedding (`quantum_backend.dfy`).
  - The debugger's `CoreInterface` bookkeeping and circuit import (`core_interface.dfy`).
  - The Python circuit builder and its records (`circuit_py.dfy`).
- **Index-level state operations.** Amplitudes are exact complex numbers over `real` (`complex.dfy`).
  - Permutation and sign gates of the state vector and density matrix (`statevector.dfy`, `density_matrix.dfy`).
  - Tensor products, controlled-gate embedding, measurement projectors and the partial trace (`operators.dfy`).
  - The partial transpose and negativity sum (`spectral.dfy`).
  - The Bell, GHZ and W states and the entanglement measures' input checks (`quantum_states.dfy`).
- **Search oracles.**
  - Grover's oracle factories, oracle gate and shot packing, in C++ (`grovers.dfy`) and Python (`algorithms_py.dfy`).
  - The circuit shape and phase packing of phase estimation (`qpe.dfy`).
- **Noise.**
  - The depolarizing, amplitude-damping and phase-damping channels, with range checks and Kraus completeness Σ E†E = I stated over squared weights so that it is exact (`noise_channel.dfy`, `depolarizing.dfy`, `amplitude_damping.dfy`, `phase_damping.dfy`).
  - The noise model's gate classification, guards and presets (`noise_model.dfy`).
  - The Python noise-model builder (`noise_py.dfy`).

Shared modules:

- `wrappers.dfy`: Option and Result. A C++ exception is an `Err` naming its kind.
- `bits.dfy`: integer bit arithmetic on unbounded naturals.
- `text.dfy`: decimal text with its parse.

Classes whose fields the source updates in place are Dafny classes with `modifies` frames. Arrays the source mutates stay arrays. Pure logic is functions and lemmas.

Floating-point functions are parameters with the laws the proofs need (`sqrt`, `exp`), or are left out. Random draws are also parameters. Where the simulator only carries a quantum state along, the state is a symbolic value.

Where a header or a comment disagrees with its `.cpp`, the `.cpp` is modelled:

- The comment in `SurfaceCode.cpp` promises d² − 1 ancillas. The loops create (d − 1)², and the model has (d − 1)².
- The camelCase API declared in `Circuit.h` and `Statevector.h` is not the one the sources implement. The model follows the sources.
- `GroversAlgorithm::build_circuit` calls `addGate(GateType::H, i)`. That overload is declared in `Circuit.h` but defined in no `.cpp`. The model reads it as appending an H gate on qubit i with no range check.
- The deterministic branch of `measure` XORs the signs of destabilizer rows, as the source does. CHP instead accumulates a scratch row.

## Model

| member | source | states |
|---|---|---|
| CliffordTableau.Init | libomniq-core/src/simulators/clifford/CliffordSimulator.cpp:13-28 | the |0…0⟩ tableau has 2n rows of n columns, all entries 0 or 1 |
| CliffordTableau.InitRows | libomniq-core/src/simulators/clifford/CliffordSimulator.cpp:19-27 | row i of the initial tableau is Z_i and row n+i is X_i, with sign 0 |
| CliffordTableau.Sdag | libomniq-core/src/simulators/clifford/CliffordSimulator.cpp:82-87 | applySdag is applyS three times, still a well-shaped tableau |
| CliffordTableau.Cz | libomniq-core/src/simulators/clifford/CliffordSimulator.cpp:100-105 | applyCZ is H on q2, CNOT(q1, q2), H on q2 |
| CliffordTableau.Rowsum | libomniq-core/src/simulators/clifford/CliffordSimulator.cpp:43-54 | rowsum(h, i) yields a well-shaped tableau of the same size |
| CliffordTableau.FirstXFrom | libomniq-core/src/simulators/clifford/CliffordSimulator.cpp:139-145 | the pivot is the first stabilizer row at or after k with x(p, q) set, or −1 when no such row exists |
| CliffordTableau.MeasureRandom | libomniq-core/src/simulators/clifford/CliffordSimulator.cpp:152-167 | the random branch keeps the tableau well-shaped and of the same size |
| CliffordTableau.Measure | libomniq-core/src/simulators/clifford/CliffordSimulator.cpp:134-180 | measure keeps the tableau well-shaped and of the same size |
| CliffordTableau.GatesKeepBinary | libomniq-core/src/simulators/clifford/CliffordSimulator.cpp:56-132 | every gate (H, S, S†, CNOT, CZ, X, Y, Z) maps a 0/1 tableau to a 0/1 tableau |
| CliffordTableau.HInvolution | libomniq-core/src/simulators/clifford/CliffordSimulator.cpp:56-68 | applyH twice is the identity on a 0/1 tableau |
| CliffordTableau.PauliInvolutions | libomniq-core/src/simulators/clifford/CliffordSimulator.cpp:107-132 | applyX, applyY and applyZ change only signs and each is an involution |
| CliffordTableau.CnotInvolution | libomniq-core/src/simulators/clifford/CliffordSimulator.cpp:89-98 | applyCNOT(c, t) with c ≠ t twice is the identity |
| CliffordTableau.CnotColumns | libomniq-core/src/simulators/clifford/CliffordSimulator.cpp:89-98 | CNOT adds column c of x into column t and column t of z into column c, mod 2, and touches nothing else |
| CliffordTableau.SSquaredIsZ | libomniq-core/src/simulators/clifford/CliffordSimulator.cpp:70-80 | applyS twice equals applyZ on a 0/1 tableau |
| CliffordTableau.SdagUndoesS | libomniq-core/src/simulators/clifford/CliffordSimulator.cpp:82-87 | applySdag after applyS is the identity (S⁴ = I) |
| CliffordTableau.ZCommutesS | libomniq-core/src/simulators/clifford/CliffordSimulator.cpp:70-80 | S, then Z, then S returns the original tableau |
| CliffordTableau.CzInvolution | libomniq-core/src/simulators/clifford/CliffordSimulator.cpp:100-105 | applyCZ twice is the identity |
| CliffordTableau.RowsumOnlyRowH | libomniq-core/src/simulators/clifford/CliffordSimulator.cpp:43-54 | rowsum(h, i) changes only row h, whose x and z parts become the XOR of rows h and i |
| CliffordTableau.MeasureRandomBranch | libomniq-core/src/simulators/clifford/CliffordSimulator.cpp:152-167 | the random branch leaves row p equal to Z_q with the drawn sign and reports that sign |
| CliffordTableau.DetOutcomeBit | libomniq-core/src/simulators/clifford/CliffordSimulator.cpp:168-176 | the deterministic outcome of a 0/1 tableau is 0 or 1 |
| CliffordTableau.MeasureOutcome | libomniq-core/src/simulators/clifford/CliffordSimulator.cpp:134-180 | the deterministic branch leaves the tableau unchanged; on a 0/1 tableau both branches report 0 or 1 |
| CliffordTableau.MeasureCanLeaveNegativeSign | libomniq-core/src/simulators/clifford/CliffordSimulator.cpp:43-54 | on two qubits, H(0), S(0), CNOT(0,1), H(0), then measure(0) with draw 0 leaves sign r = −1 |
| CliffordTableau.MeasureLast | libomniq-core/src/simulators/clifford/CliffordSimulator.cpp:53 | the last step of that trace yields r = −1 because `%` truncates toward zero |
| CliffordTableau.RowsumRowFixed | libomniq-core/src/simulators/clifford/CliffordSimulator.cpp:43-54 | with a remainder in [0, 4) the rowsum sign is 0 or 1 |
| CliffordTableau.MeasureFixed | libomniq-core/src/simulators/clifford/CliffordSimulator.cpp:134-180 | measure with the corrected rowsum keeps the tableau well-shaped |
| CliffordTableau.MeasureFixedKeepsBinary | libomniq-core/src/simulators/clifford/CliffordSimulator.cpp:134-180 | with the corrected rowsum a measurement keeps a 0/1 tableau 0/1 and reports 0 or 1 |
| CliffordSimulation.CliffordSimulator.constructor | libomniq-core/src/simulators/clifford/CliffordSimulator.cpp:13-28 | the arrays hold the initial tableau and the measurement history is empty |
| CliffordSimulation.CliffordSimulator.Reset | libomniq-core/src/simulators/clifford/CliffordSimulator.cpp:30 | reset restores the initial tableau and clears the history |
| CliffordSimulation.CliffordSimulator.ApplyH | libomniq-core/src/simulators/clifford/CliffordSimulator.cpp:56-68 | the arrays afterwards hold H of the old tableau |
| CliffordSimulation.CliffordSimulator.ApplyS | libomniq-core/src/simulators/clifford/CliffordSimulator.cpp:70-80 | the arrays afterwards hold S of the old tableau |
| CliffordSimulation.CliffordSimulator.ApplySdag | libomniq-core/src/simulators/clifford/CliffordSimulator.cpp:82-87 | the arrays afterwards hold S† of the old tableau |
| CliffordSimulation.CliffordSimulator.ApplyCNOT | libomniq-core/src/simulators/clifford/CliffordSimulator.cpp:89-98 | the arrays afterwards hold CNOT of the old tableau |
| CliffordSimulation.CliffordSimulator.ApplyCZ | libomniq-core/src/simulators/clifford/CliffordSimulator.cpp:100-105 | the arrays afterwards hold CZ of the old tableau |
| CliffordSimulation.CliffordSimulator.ApplyX | libomniq-core/src/simulators/clifford/CliffordSimulator.cpp:107-114 | the arrays afterwards hold X of the old tableau |
| CliffordSimulation.CliffordSimulator.ApplyY | libomniq-core/src/simulators/clifford/CliffordSimulator.cpp:116-123 | the arrays afterwards hold Y of the old tableau |
| CliffordSimulation.CliffordSimulator.ApplyZ | libomniq-core/src/simulators/clifford/CliffordSimulator.cpp:125-132 | the arrays afterwards hold Z of the old tableau |
| CliffordSimulation.CliffordSimulator.RowsumColumns | libomniq-core/src/simulators/clifford/CliffordSimulator.cpp:47-51 | the phase accumulates 2r(h) + 2r(i) + Σ g; row h's x and z become the mod-2 sums; other rows are unchanged |
| CliffordSimulation.CliffordSimulator.Rowsum | libomniq-core/src/simulators/clifford/CliffordSimulator.cpp:43-54 | the arrays afterwards hold rowsum(h, i) of the old tableau |
| CliffordSimulation.CliffordSimulator.FindPivot | libomniq-core/src/simulators/clifford/CliffordSimulator.cpp:136-145 | the result is the first stabilizer row with x(p, q) set, or −1 |
| CliffordSimulation.CliffordSimulator.RowsumAgainstPivot | libomniq-core/src/simulators/clifford/CliffordSimulator.cpp:157-161 | every row other than p with x(i, q) set is multiplied by row p |
| CliffordSimulation.CliffordSimulator.ProjectRow | libomniq-core/src/simulators/clifford/CliffordSimulator.cpp:163-167 | row p becomes Z_q with the drawn sign; the other rows are unchanged |
| CliffordSimulation.CliffordSimulator.DeterministicOutcome | libomniq-core/src/simulators/clifford/CliffordSimulator.cpp:168-176 | the result is the XOR of the destabilizer signs whose x(i, q) is set |
| CliffordSimulation.CliffordSimulator.Measure | libomniq-core/src/simulators/clifford/CliffordSimulator.cpp:134-180 | outcome and new tableau are those of the tableau-level measure, and the outcome is appended to the history |
| Stabilizers.GetPauli | libomniq-core/src/modules/qec/Stabilizer.cpp:17-22 | the Pauli at index k exactly when 0 ≤ k < size, otherwise out_of_range |
| Stabilizers.SupportBelow | libomniq-core/src/modules/qec/Stabilizer.cpp:24-32 | the loop pushes exactly the non-identity positions below k, in increasing order |
| Stabilizers.WeightBelow | libomniq-core/src/modules/qec/Stabilizer.cpp:34-41 | the count of non-identity entries below k never exceeds k |
| Stabilizers.Lacks | libomniq-core/src/modules/qec/Stabilizer.cpp:43-57 | the early-exit loop returns true exactly when no entry equals the given Pauli |
| Stabilizers.Letters | libomniq-core/src/modules/qec/Stabilizer.cpp:59-78 | toString writes one letter per entry, in order, each among I, X, Y, Z |
| Stabilizers.WeightIsSupportSize | libomniq-core/src/modules/qec/Stabilizer.cpp:24-41 | the weight loop counts exactly the positions the support loop pushes |
| Stabilizers.WeightOfStabilizer | libomniq-core/src/modules/qec/Stabilizer.cpp:34-41 | getWeight() equals the length of getSupportQubits() |
| Stabilizers.SupportMembers | libomniq-core/src/modules/qec/Stabilizer.cpp:24-32 | a position is in the support exactly when its Pauli is not I |
| Stabilizers.BothTypesIffOnlyIAndY | libomniq-core/src/modules/qec/Stabilizer.cpp:43-57 | isXType and isZType both hold exactly when every entry is I or Y |
| Stabilizers.SupportIsSortedNonIdentity | libomniq-core/src/modules/qec/Stabilizer.cpp:24-32 | the support is the unique strictly increasing list of the non-identity positions |
| Stabilizers.ToStringInjective | libomniq-core/src/modules/qec/Stabilizer.cpp:59-78 | two stabilizers with the same string are equal |
| Syndromes.CountBelow | libomniq-core/src/modules/qec/Syndrome.cpp:40-47 | the count of −1 entries below k is at most k |
| Syndromes.ViolatedBelow | libomniq-core/src/modules/qec/Syndrome.cpp:49-57 | the pushed indices are exactly the −1 positions below k, in increasing order |
| Syndromes.NoneViolated | libomniq-core/src/modules/qec/Syndrome.cpp:59-65 | the early-return loop returns true exactly when no entry is −1 |
| Syndromes.CountIsViolatedLength | libomniq-core/src/modules/qec/Syndrome.cpp:40-57 | countViolations() equals the length of getViolatedStabilizers() |
| Syndromes.CountZeroBelow | libomniq-core/src/modules/qec/Syndrome.cpp:40-47 | no −1 among the first k entries exactly when the count is 0 |
| Syndromes.AllZeroIffNoViolations | libomniq-core/src/modules/qec/Syndrome.cpp:40-65 | isAllZero() holds exactly when countViolations() is 0 |
| Syndromes.Syndrome.constructor | libomniq-core/src/modules/qec/Syndrome.cpp:12 | no entries and code distance 0 |
| Syndromes.Syndrome.Sized | libomniq-core/src/modules/qec/Syndrome.cpp:14-17 | n entries, every one +1, code distance 0 |
| Syndromes.Syndrome.GetMeasurement | libomniq-core/src/modules/qec/Syndrome.cpp:19-24 | the entry at the index exactly when it is in range, otherwise out_of_range |
| Syndromes.Syndrome.SetMeasurement | libomniq-core/src/modules/qec/Syndrome.cpp:26-34 | out_of_range first, then invalid_argument for a value other than ±1; only an accepted call changes the addressed entry |
| Syndromes.Syndrome.SetMeasurements | libomniq-core/src/modules/qec/Syndrome.cpp:36-38 | the measurements are replaced wholesale, unchecked |
| Syndromes.Syndrome.SetCodeDistance | libomniq-core/include/omniq/QEC/Syndrome.h:39 | the code distance becomes the argument |
| Syndromes.Syndrome.CountViolations | libomniq-core/src/modules/qec/Syndrome.cpp:40-47 | the loop returns the number of −1 entries |
| Syndromes.Syndrome.GetViolatedStabilizers | libomniq-core/src/modules/qec/Syndrome.cpp:49-57 | the loop returns the −1 positions in increasing order |
| Syndromes.Syndrome.IsAllZero | libomniq-core/src/modules/qec/Syndrome.cpp:59-65 | the loop returns true exactly when no entry is −1 |
| Syndromes.FreshSyndromeSatisfied | libomniq-core/src/modules/qec/Syndrome.cpp:14-17 | a fresh Syndrome(n) has no violations and is all zero |
| Syndromes.SetChangesCountByOne | libomniq-core/src/modules/qec/Syndrome.cpp:26-47 | accepting −1 at a satisfied entry adds exactly one violation, and +1 at a violated entry removes exactly one |
| SurfaceCodes.DataRows | libomniq-core/src/modules/qec/SurfaceCode.cpp:30-36 | the first rows·d data qubits, row-major, qubit (r, c) with global index r·d + c |
| SurfaceCodes.DataRowsShape | libomniq-core/src/modules/qec/SurfaceCode.cpp:30-36 | list position k holds the data qubit with global index k at the cell (k / d, k % d) |
| SurfaceCodes.DataRowsAt | libomniq-core/src/modules/qec/SurfaceCode.cpp:30-36 | the data qubit at cell (r, c) sits at list position r·d + c |
| SurfaceCodes.GridCellsMembers | libomniq-core/src/modules/qec/SurfaceCode.cpp:40-60 | a cell is listed for a parity exactly when it lies in the (d−1)×(d−1) grid and row + col has that parity |
| SurfaceCodes.GridCellsSorted | libomniq-core/src/modules/qec/SurfaceCode.cpp:40-60 | the ancilla cells of one parity come in row-major order |
| SurfaceCodes.XAncillaCells | libomniq-core/src/modules/qec/SurfaceCode.cpp:40-48 | a cell holds an X ancilla exactly when it lies in the (d−1)×(d−1) grid and row + col is even |
| SurfaceCodes.ZAncillaCells | libomniq-core/src/modules/qec/SurfaceCode.cpp:52-60 | a cell holds a Z ancilla exactly when it lies in the grid and row + col is odd |
| SurfaceCodes.AncillaTotal | libomniq-core/src/modules/qec/SurfaceCode.cpp:40-60 | the two ancilla loops place (d−1)² ancillas in all, not the d² − 1 of the comment |
| SurfaceCodes.StabilizerList | libomniq-core/src/modules/qec/SurfaceCode.cpp:63-127 | one stabilizer per ancilla, in ancilla order, indexed 0, 1, … |
| SurfaceCodes.PlaquetteMarked | libomniq-core/src/modules/qec/SurfaceCode.cpp:73-87 | for a plaquette inside the lattice all four neighbours are in range, so the marked data qubits are its four corners |
| SurfaceCodes.PlaquetteSupport | libomniq-core/src/modules/qec/SurfaceCode.cpp:63-127 | a plaquette stabilizer's support is exactly its four corners r·d+c, r·d+c+1, (r+1)·d+c, (r+1)·d+c+1, ascending, and its weight is 4 |
| SurfaceCodes.LayDataQubits | libomniq-core/src/modules/qec/SurfaceCode.cpp:30-36 | the loop lays out the d×d data qubits row-major, numbered 0 … d²−1, with a lookup map that inverts the list |
| SurfaceCodes.DataLookup | libomniq-core/src/modules/qec/SurfaceCode.cpp:33-34 | the lookup map finds, for an in-range cell, the data qubit with global index r·d + c |
| SurfaceCodes.NeighbourOp | libomniq-core/src/modules/qec/SurfaceCode.cpp:70-87 | the Pauli vector of d² entries with the given Pauli on every in-range neighbour the map finds, I elsewhere |
| SurfaceCodes.BuildStabilizers | libomniq-core/src/modules/qec/SurfaceCode.cpp:67-127 | the loop builds, for each ancilla in order, its neighbour operator and a running index |
| SurfaceCodes.LayAncillas | libomniq-core/src/modules/qec/SurfaceCode.cpp:38-60 | the loop places the grid cells of the given parity row-major, numbered on from the data qubits, with a lookup map |
| SurfaceCodes.NewSurfaceCode | libomniq-core/src/modules/qec/SurfaceCode.cpp:12-19 | invalid_argument exactly when the distance is even or below 3; otherwise a valid code of that distance |
| SurfaceCodes.SurfaceCode.constructor | libomniq-core/src/modules/qec/SurfaceCode.cpp:12-19 | a valid lattice and stabilizer set for an accepted distance |
| SurfaceCodes.SurfaceCode.InitializeLattice | libomniq-core/src/modules/qec/SurfaceCode.cpp:21-61 | the data qubits, both ancilla lists and their lookup maps are laid out as the lattice predicate describes |
| SurfaceCodes.SurfaceCode.ConstructStabilizers | libomniq-core/src/modules/qec/SurfaceCode.cpp:63-128 | the X and Z stabilizer lists hold one neighbour operator per ancilla, in order |
| SurfaceCodes.SurfaceCode.QubitCounts | libomniq-core/include/omniq/QEC/SurfaceCode.h:42-47 | d² data qubits and (d−1)² ancillas |
| SurfaceCodes.SurfaceCode.GetStabilizerSupport | libomniq-core/src/modules/qec/SurfaceCode.cpp:152-161 | out_of_range exactly for an index outside the chosen list; otherwise the four corners of that ancilla's plaquette |
| SurfaceCodes.SurfaceCode.MeasureSyndromes | libomniq-core/src/modules/qec/SurfaceCode.cpp:130-142 | a fresh syndrome with one +1 entry per stabilizer and the code distance recorded |
| SurfaceCodes.SurfaceCode.IsLogicalZero | libomniq-core/src/modules/qec/SurfaceCode.cpp:180-185 | always true, since the syndrome it reads is all +1 |
| MatchingDecoders.CalculateWeight | libomniq-core/src/modules/qec/MWPMDecoder.cpp:72-76 | the weight is the non-negative distance \|a − b\|, zero exactly for equal indices |
| MatchingDecoders.WeightSymmetric | libomniq-core/src/modules/qec/MWPMDecoder.cpp:72-76 | calculateWeight(a, b) equals calculateWeight(b, a) |
| MatchingDecoders.BestPartnerCorrect | libomniq-core/src/modules/qec/MWPMDecoder.cpp:48-60 | the partner is −1 exactly when no unmatched later violation is nearer than 1e9; otherwise it is the nearest such one, ties going to the first |
| MatchingDecoders.GreedyDisjoint | libomniq-core/src/modules/qec/MWPMDecoder.cpp:44-67 | every paired index was unmatched when paired, and no violation appears in two pairs |
| MatchingDecoders.GreedyCount | libomniq-core/src/modules/qec/MWPMDecoder.cpp:44-67 | when every two violations are nearer than 1e9, the pass forms half the unmatched positions, rounded down |
| MatchingDecoders.PairCount | libomniq-core/src/modules/qec/MWPMDecoder.cpp:38-70 | findMatching on n violations pairwise nearer than 1e9 forms exactly n/2 pairs |
| MatchingDecoders.FlattenValuesAt | libomniq-core/src/modules/qec/MWPMDecoder.cpp:28-33 | entries 2p and 2p+1 of the correction are the two violations of pair p |
| MatchingDecoders.DecodeNoViolations | libomniq-core/src/modules/qec/MWPMDecoder.cpp:17-21 | a syndrome with no −1 entry decodes to the empty correction |
| MatchingDecoders.DecodeEntriesViolated | libomniq-core/src/modules/qec/MWPMDecoder.cpp:16-36 | every entry of the correction is the index of a violated stabilizer |
| MatchingDecoders.DecodeEntriesDistinct | libomniq-core/src/modules/qec/MWPMDecoder.cpp:16-36 | no stabilizer index appears twice in the correction |
| MatchingDecoders.DecodeLength | libomniq-core/src/modules/qec/MWPMDecoder.cpp:16-70 | with at most 1e9 stabilizers and k violations the correction has 2·(k/2) entries |
| MatchingDecoders.MWPMDecoder.constructor | libomniq-core/src/modules/qec/MWPMDecoder.cpp:12-14 | the code distance starts at 3 |
| MatchingDecoders.MWPMDecoder.SetCodeDistance | libomniq-core/include/omniq/QEC/Decoder.h:43 | the code distance becomes the argument |
| MatchingDecoders.MWPMDecoder.NearestPartner | libomniq-core/src/modules/qec/MWPMDecoder.cpp:48-60 | the inner loop returns the partner the reference BestPartner chooses |
| MatchingDecoders.MWPMDecoder.FindMatching | libomniq-core/src/modules/qec/MWPMDecoder.cpp:38-70 | the loop returns the value pairs of the reference greedy pass |
| MatchingDecoders.MWPMDecoder.Decode | libomniq-core/src/modules/qec/MWPMDecoder.cpp:16-36 | the correction is the flattened greedy matching of the violated indices |
| UnionFindDecoders.Redirect | libomniq-core/src/modules/qec/UnionFindDecoder.cpp:19-24 | pointing x straight at its representative keeps the rank forest and every representative |
| UnionFindDecoders.Link | libomniq-core/src/modules/qec/UnionFindDecoder.cpp:34-40 | hanging root c under root t of higher rank gives c's members the representative t and changes no one else |
| UnionFindDecoders.RaiseRoot | libomniq-core/src/modules/qec/UnionFindDecoder.cpp:38-40 | raising a root's rank keeps the forest and its sets |
| UnionFindDecoders.LinkMerges | libomniq-core/src/modules/qec/UnionFindDecoder.cpp:34-37 | unite with different ranks merges exactly the two sets |
| UnionFindDecoders.TieMerges | libomniq-core/src/modules/qec/UnionFindDecoder.cpp:38-41 | unite with equal ranks merges exactly the two sets and keeps the forest valid |
| UnionFindDecoders.MergeSame | libomniq-core/src/modules/qec/UnionFindDecoder.cpp:30-31 | unite of two elements already in one set changes no set |
| UnionFindDecoders.UnionFind.constructor | libomniq-core/src/modules/qec/UnionFindDecoder.cpp:13-17 | n singleton sets with rank 0: two elements share a set exactly when equal |
| UnionFindDecoders.UnionFind.Find | libomniq-core/src/modules/qec/UnionFindDecoder.cpp:19-24 | returns x's representative, points x at it, keeps every set and every rank |
| UnionFindDecoders.UnionFind.Unite | libomniq-core/src/modules/qec/UnionFindDecoder.cpp:26-42 | afterwards x and y share a set, the sets of x and y are merged and every other set is unchanged; the representative with the higher rank wins, and on a tie x's representative wins and its rank alone grows by 1 |
| UnionFindDecoders.UnionFind.Connected | libomniq-core/src/modules/qec/UnionFindDecoder.cpp:44-46 | true exactly when x and y were in the same set; sets and ranks unchanged |
| UnionFindDecoders.Firsts | libomniq-core/src/modules/qec/UnionFindDecoder.cpp:83-92 | the first-appearance list is no longer than its input |
| UnionFindDecoders.FirstsDistinct | libomniq-core/src/modules/qec/UnionFindDecoder.cpp:83-92 | the std::set check keeps every pushed representative distinct |
| UnionFindDecoders.FirstsMembers | libomniq-core/src/modules/qec/UnionFindDecoder.cpp:83-92 | an item is pushed exactly when it occurs in the input |
| UnionFindDecoders.RootsOf | libomniq-core/src/modules/qec/UnionFindDecoder.cpp:86-87 | one representative per violation, in order |
| UnionFindDecoders.Distance | libomniq-core/src/modules/qec/UnionFindDecoder.cpp:67 | std::abs of the difference: zero exactly for equal indices |
| UnionFindDecoders.DecodedEntries | libomniq-core/src/modules/qec/UnionFindDecoder.cpp:53-95 | every correction entry is a violated stabilizer index, none repeats, and there are at most as many as violations |
| UnionFindDecoders.DecodedCovers | libomniq-core/src/modules/qec/UnionFindDecoder.cpp:53-95 | every violation's cluster representative appears in the correction |
| UnionFindDecoders.UnionFindDecoder.constructor | libomniq-core/src/modules/qec/UnionFindDecoder.cpp:49-51 | the code distance starts at 3 |
| UnionFindDecoders.UnionFindDecoder.SetCodeDistance | libomniq-core/include/omniq/QEC/Decoder.h:43 | the code distance becomes the argument |
| UnionFindDecoders.UnionFindDecoder.Decode | libomniq-core/src/modules/qec/UnionFindDecoder.cpp:53-77 | empty for no violation; otherwise there is a forest in which violations at most d apart share a set, only violations were joined, and the correction is the first-appearance list of their representatives |
| UnionFindDecoders.SingletonsDecodeEmpty | libomniq-core/src/modules/qec/UnionFindDecoder.cpp:56-58 | the empty correction is explained by the forest of singletons |
| UnionFindDecoders.AllRows | libomniq-core/src/modules/qec/UnionFindDecoder.cpp:65-73 | after the double loop every two violations at most d apart, in either order, share a set |
| UnionFindDecoders.GrowClusters | libomniq-core/src/modules/qec/UnionFindDecoder.cpp:65-73 | the loop leaves a valid forest of the same size in which every close pair of violations shares a set |
| UnionFindDecoders.ExtractCorrection | libomniq-core/src/modules/qec/UnionFindDecoder.cpp:79-95 | the correction is the first-appearance list of the violations' representatives; sets unchanged |
| Circuits.QubitErrors | libomniq-core/src/common/Circuit.cpp:376-380 | no error exactly when every qubit lies in [0, num_qubits) |
| Circuits.GateErrors | libomniq-core/src/common/Circuit.cpp:375-381 | no gate error exactly when every gate's qubits are in range |
| Circuits.MeasurementErrors | libomniq-core/src/common/Circuit.cpp:383-388 | no measurement error exactly when every measured qubit is in range |
| Circuits.Optimized | libomniq-core/src/common/Circuit.cpp:329-359 | optimize never lengthens the gate list |
| Circuits.OptimizedDropsOnly | libomniq-core/src/common/Circuit.cpp:329-359 | optimize only drops gates: what it keeps is a sub-multiset of the input |
| Circuits.OptimizedIsSubsequence | libomniq-core/src/common/Circuit.cpp:329-359 | optimize keeps the gates it does not drop in their input order: the result is a subsequence of the input |
| Circuits.OptimizedReduced | libomniq-core/src/common/Circuit.cpp:334-356 | no two neighbours of the result are an equal self-inverse H, X or Z on the same qubits |
| Circuits.ReducedUnchanged | libomniq-core/src/common/Circuit.cpp:334-356 | a list without cancelling neighbours passes unchanged |
| Circuits.OptimizeIdempotent | libomniq-core/src/common/Circuit.cpp:329-359 | optimizing twice equals optimizing once |
| Circuits.RepeatOptimized | libomniq-core/src/common/Circuit.cpp:341-349 | a run of one self-inverse gate cancels in pairs: an even run leaves nothing, an odd run one gate |
| Circuits.PairsCancel | libomniq-core/src/common/Circuit.cpp:341-349 | H H X X on one qubit optimizes to no gates |
| Circuits.HundredCancel | libomniq-core/src/common/Circuit.cpp:341-349 | a hundred H on one qubit optimize to no gates |
| Circuits.QasmVersion | libomniq-core/src/common/Circuit.cpp:300-326 | the QASM text starts with the line "OPENQASM 2.0;" |
| Circuits.QasmHasGateLines | libomniq-core/src/common/Circuit.cpp:309-319 | the line of every gate occurs in the QASM text |
| Circuits.QasmHasMeasureLines | libomniq-core/src/common/Circuit.cpp:321-323 | the line "measure q[i] -> c[i];" of every measurement occurs in the QASM text |
| Circuits.Circuit.constructor | libomniq-core/src/common/Circuit.cpp:39-44 | no gates, measurements or custom gates, with the given sizes |
| Circuits.Circuit.Copy | libomniq-core/src/common/Circuit.cpp:46-52 | the copy has the same sizes, gates, measurements and custom gates |
| Circuits.Circuit.AddGate | libomniq-core/src/common/Circuit.cpp:66-79 | a null gate or a qubit outside [0, num_qubits) is an invalid_argument that stores nothing; otherwise the gate goes last |
| Circuits.Circuit.AddMeasurement | libomniq-core/src/common/Circuit.cpp:81-91 | the same null and range checks on the measured qubit; otherwise the measurement goes last |
| Circuits.Circuit.AddMeasurementAt | libomniq-core/src/common/Circuit.cpp:136-138 | add_measurement(qubit, basis) builds the measurement and adds it with the same check |
| Circuits.Circuit.AddHadamard | libomniq-core/src/common/Circuit.cpp:93-95 | a Hadamard on the qubit is added exactly when the qubit is in range |
| Circuits.Circuit.AddPauliX | libomniq-core/src/common/Circuit.cpp:97-99 | a Pauli-X on the qubit is added exactly when the qubit is in range |
| Circuits.Circuit.AddPauliY | libomniq-core/src/common/Circuit.cpp:101-103 | a Pauli-Y on the qubit is added exactly when the qubit is in range |
| Circuits.Circuit.AddPauliZ | libomniq-core/src/common/Circuit.cpp:105-107 | a Pauli-Z on the qubit is added exactly when the qubit is in range |
| Circuits.Circuit.AddCnot | libomniq-core/src/common/Circuit.cpp:109-111 | a CNOT is added exactly when both qubits are in range |
| Circuits.Circuit.AddSwap | libomniq-core/src/common/Circuit.cpp:113-118 | three CNOTs a→b, b→a, a→b are added, all or none |
| Circuits.Circuit.AddParameterised | libomniq-core/src/common/Circuit.cpp:120-134 | a phase shift or rotation with its angle is added exactly when the qubit is in range |
| Circuits.Circuit.AddCustomGate | libomniq-core/src/common/Circuit.cpp:141-146 | an empty name is an invalid_argument; otherwise the name is bound to the gate, replacing an earlier binding |
| Circuits.Circuit.Depth | libomniq-core/src/common/Circuit.cpp:199-205 | the depth is the number of gates |
| Circuits.Circuit.Reset | libomniq-core/src/common/Circuit.cpp:208-211 | no gates and no measurements; custom gates stay |
| Circuits.Circuit.Clear | libomniq-core/src/common/Circuit.cpp:227-230 | no gates, measurements or custom gates |
| Circuits.Circuit.RemoveGate | libomniq-core/src/common/Circuit.cpp:213-218 | out_of_range past the end; otherwise exactly gate `index` is removed and the rest keep their order |
| Circuits.Circuit.RemoveMeasurement | libomniq-core/src/common/Circuit.cpp:220-225 | out_of_range past the end; otherwise exactly measurement `index` is removed |
| Circuits.Circuit.Compose | libomniq-core/src/common/Circuit.cpp:233-261 | invalid_argument for a qubit-count mismatch; otherwise a fresh valid circuit with this circuit's gates then the other's, likewise measurements, and no custom gates |
| Circuits.Circuit.Optimize | libomniq-core/src/common/Circuit.cpp:329-359 | the gates become the optimized list of the old gates |
| Circuits.Circuit.GetValidationErrors | libomniq-core/src/common/Circuit.cpp:371-391 | one error per out-of-range gate qubit, in order, then one per out-of-range measurement |
| Circuits.Circuit.IsValid | libomniq-core/src/common/Circuit.cpp:367-369 | true exactly when there is no validation error; every circuit built with the checked add methods is valid |
| Circuits.Circuit.ToQasm | libomniq-core/src/common/Circuit.cpp:300-326 | the text is the header, then the gate lines, then the measurement lines |
| Circuits.GateSection | libomniq-core/src/common/Circuit.cpp:309-319 | the loop writes the line of each gate in order: h, x, cx, nothing for other types |
| Circuits.MeasureSection | libomniq-core/src/common/Circuit.cpp:321-323 | the loop writes one measure line per measurement in order |
| Circuits.OutOfRangeQubits | libomniq-core/src/common/Circuit.cpp:376-380 | the inner loop reports exactly the out-of-range qubits, in order |
| Circuits.HeaderText | libomniq-core/src/common/Circuit.cpp:302-307 | the header declares q[num_qubits] and, only for a positive count, c[num_classical_bits] |
| Circuits.PushKept | libomniq-core/src/common/Circuit.cpp:339-355 | the previous kept gate is popped when the new one cancels it; otherwise the new one is kept |
| Circuits.NewCircuit | libomniq-core/src/common/Circuit.cpp:39-44 | invalid_argument exactly for a negative qubit count; otherwise an empty valid circuit |
| Circuits.AddKeepsValid | libomniq-core/src/common/Circuit.cpp:66-79 | appending a gate whose qubits are in range keeps every gate in range |
| ExecutionEngines.ApplyGate | libomniq-core/src/debugger/ExecutionEngine.cpp:29-59 | H, X, Y, Z, CNOT, PHASE, RX, RY and RZ each count as one applied gate; any other type leaves the state as it was |
| ExecutionEngines.BreakpointHitFirst | libomniq-core/src/debugger/ExecutionEngine.cpp:130-146 | the first enabled breakpoint at the step decides the answer, later ones are ignored, and with none the answer is false |
| ExecutionEngines.StaleHistoryAfterStepBack | libomniq-core/src/debugger/ExecutionEngine.cpp:61-72 | on three handled gates, forward, back, forward, forward, forward, back ends at step 2 holding the state after one gate |
| ExecutionEngines.TracksPreserved | libomniq-core/src/debugger/ExecutionEngine.cpp:61-72 | with a history that is overwritten from the current step on, every start, forward and backward keeps history[k] equal to the state after k gates |
| ExecutionEngines.ExecutionEngine.constructor | libomniq-core/src/debugger/ExecutionEngine.cpp:11-16 | step 0 on a fresh state, which is the whole history, in step mode with no breakpoints |
| ExecutionEngines.ExecutionEngine.StepForward | libomniq-core/src/debugger/ExecutionEngine.cpp:18-64 | runtime_error once finished, leaving everything as it was; otherwise one gate applied, step + 1 and the new state appended to the history |
| ExecutionEngines.ExecutionEngine.StepBackward | libomniq-core/src/debugger/ExecutionEngine.cpp:66-73 | runtime_error at step 0; otherwise step − 1 and the state restored from the history |
| ExecutionEngines.ExecutionEngine.RunToEnd | libomniq-core/src/debugger/ExecutionEngine.cpp:81-85 | ends finished at step = number of gates, holding the remaining gates applied to the state it started from, with the state after each of them appended to the history in order |
| ExecutionEngines.ExecutionEngine.IsAtBreakpoint | libomniq-core/src/debugger/ExecutionEngine.cpp:126-128 | the answer of the breakpoint check at the current step |
| ExecutionEngines.ExecutionEngine.RunToBreakpoint | libomniq-core/src/debugger/ExecutionEngine.cpp:75-79 | the step never decreases; it stops finished or at a step whose breakpoint check holds, no breakpoint fired at any step it passed, the state is the passed gates applied to the starting state, and the history gains the state after each passed gate |
| ExecutionEngines.ExecutionEngine.Reset | libomniq-core/src/debugger/ExecutionEngine.cpp:87-92 | step 0 on a fresh state with a one-state history; breakpoints and mode stay |
| ExecutionEngines.ExecutionEngine.AddBreakpoint | libomniq-core/src/debugger/ExecutionEngine.cpp:94-100 | one enabled breakpoint without condition, described as "Gate <index>", goes last |
| ExecutionEngines.ExecutionEngine.AddConditionalBreakpoint | libomniq-core/src/debugger/ExecutionEngine.cpp:102-110 | one enabled breakpoint with the condition and description goes last |
| ExecutionEngines.ExecutionEngine.RemoveBreakpoint | libomniq-core/src/debugger/ExecutionEngine.cpp:112-116 | an index inside the list removes exactly that breakpoint; any other index changes nothing |
| ExecutionEngines.ExecutionEngine.ToggleBreakpoint | libomniq-core/src/debugger/ExecutionEngine.cpp:118-122 | the breakpoints become the toggled list |
| ExecutionEngines.ExecutionEngine.ClearBreakpoints | libomniq-core/src/debugger/ExecutionEngine.cpp:124 | no breakpoints remain |
| ExecutionEngines.ExecutionEngine.SetMode | libomniq-core/include/omniq/Debugger/ExecutionEngine.h:65 | the mode becomes the given one |
| ExecutionEngines.ExecutionEngine.CheckBreakpoint | libomniq-core/src/debugger/ExecutionEngine.cpp:130-146 | the loop's answer equals the first-enabled-breakpoint rule |
| ExecutionEngines.ToggleTwice | libomniq-core/src/debugger/ExecutionEngine.cpp:118-122 | toggling twice restores the list; toggling flips exactly the flag at an index inside the list and nothing else |
| Statevectors.Log2Pow2 | libomniq-core/src/common/Statevector.cpp:36-41 | a size that passes the power-of-two test is exactly 2 to the power of its log2 |
| Statevectors.Pow2IsPow2 | libomniq-core/src/common/Statevector.cpp:36-41 | every 2^n passes the power-of-two test and its log2 is n |
| Statevectors.Pow2Add | libomniq-core/src/common/Statevector.cpp:372-374 | 2^(n1+n2) = 2^n1 · 2^n2, so the tensor product of the two sizes fits n1 + n2 qubits |
| Statevectors.InitialAmplitudes | libomniq-core/src/common/Statevector.cpp:25-33 | Statevector(n) holds 2^n amplitudes |
| Statevectors.Partner | libomniq-core/src/common/Statevector.cpp:155-161 | the partner index stays below 2^n and is the index with bit q flipped |
| Statevectors.PauliXTwice | libomniq-core/src/common/Statevector.cpp:151-163 | Pauli X applied twice restores every amplitude |
| Statevectors.PauliYTwice | libomniq-core/src/common/Statevector.cpp:165-179 | Pauli Y applied twice restores every amplitude (−i·i = 1) |
| Statevectors.PauliZTwice | libomniq-core/src/common/Statevector.cpp:181-192 | Pauli Z applied twice restores every amplitude |
| Statevectors.CnotTwice | libomniq-core/src/common/Statevector.cpp:130-149 | CNOT with distinct control and target applied twice restores every amplitude |
| Statevectors.CnotControlClear | libomniq-core/src/common/Statevector.cpp:141-148 | CNOT leaves every amplitude whose control bit is clear in place |
| Statevectors.KronEntry | libomniq-core/src/common/Statevector.cpp:379-384 | entry i·|b| + j of the tensor product is in range and equals a_i·b_j |
| Statevectors.ZExpectationBounds | libomniq-core/src/common/Statevector.cpp:342-357 | the Z expectation lies between −‖a‖² and ‖a‖², and applying Pauli Z on the same qubit leaves it unchanged |
| Statevectors.InitialExpectation | libomniq-core/src/common/Statevector.cpp:25-33 | on the state built by Statevector(n), n > 0, the Z expectation of every qubit is 1 |
| Statevectors.Statevector.constructor | libomniq-core/src/common/Statevector.cpp:25-33 | n qubits with amplitude 1 at index 0 (for n > 0) and 0 elsewhere |
| Statevectors.Statevector.FromList | libomniq-core/src/common/Statevector.cpp:35-44 | the amplitudes are the given list and the qubit count is its log2 |
| Statevectors.Statevector.ApplyPauliX | libomniq-core/src/common/Statevector.cpp:151-163 | invalid_argument exactly for a qubit outside [0, n), changing nothing; otherwise amplitude k becomes the old amplitude at k with bit q flipped |
| Statevectors.Statevector.ApplyPauliY | libomniq-core/src/common/Statevector.cpp:165-179 | invalid_argument exactly for a bad qubit; otherwise each pair (a_i, a_j) with bit q clear in i becomes (−i·a_j, i·a_i) |
| Statevectors.Statevector.ApplyPauliZ | libomniq-core/src/common/Statevector.cpp:181-192 | invalid_argument exactly for a bad qubit; otherwise the amplitudes with bit q set change sign and the rest stay |
| Statevectors.Statevector.ApplyCnot | libomniq-core/src/common/Statevector.cpp:130-149 | invalid_argument exactly for a bad qubit or control = target; otherwise the target bit is flipped wherever the control bit is set |
| Statevectors.Statevector.MeasureExpectation | libomniq-core/src/common/Statevector.cpp:342-361 | invalid_argument exactly for a bad qubit or an observable other than "Z"/"z"; otherwise Σ |a_k|² · (±1 by bit q) |
| Statevectors.Statevector.SetAmplitudes | libomniq-core/src/common/Statevector.cpp:363-370 | invalid_argument exactly when the size differs from 2^n, changing nothing; otherwise the amplitudes are the given ones |
| Statevectors.Statevector.TensorProduct | libomniq-core/src/common/Statevector.cpp:372-388 | a fresh state on n1 + n2 qubits holding a ⊗ b |
| Statevectors.NewStatevector | libomniq-core/src/common/Statevector.cpp:17-33 | invalid_argument exactly for n < 0; otherwise a fresh valid state with the initial amplitudes |
| Statevectors.NewStatevectorFrom | libomniq-core/src/common/Statevector.cpp:35-44 | invalid_argument exactly when the size is 0 or not a power of two; otherwise a state holding the list on log2(size) qubits |
| Statevectors.SwapPairs | libomniq-core/src/common/Statevector.cpp:156-162 | the in-place loop of apply_pauli_x produces exactly the Pauli-X image of the old array |
| Statevectors.RotatePairs | libomniq-core/src/common/Statevector.cpp:170-178 | the in-place loop of apply_pauli_y produces exactly the Pauli-Y image of the old array |
| Statevectors.SwapControlled | libomniq-core/src/common/Statevector.cpp:141-148 | the in-place loop of apply_cnot produces exactly the CNOT image of the old array |
| Statevectors.FillKron | libomniq-core/src/common/Statevector.cpp:379-384 | the nested loops of tensor_product fill the result with a ⊗ b |
| Statevectors.FillRow | libomniq-core/src/common/Statevector.cpp:380-383 | one pass of the inner loop extends the filled prefix by one row a_i·b |
| DensityMatrices.InitialMatrix | libomniq-core/src/common/DensityMatrix.cpp:14-22 | DensityMatrix(n) is a square 2^n × 2^n matrix |
| DensityMatrices.SwapCells | libomniq-core/src/common/DensityMatrix.cpp:194 | std::swap of two cells exchanges exactly those two and keeps the matrix square |
| DensityMatrices.CellUntouched | libomniq-core/src/common/DensityMatrix.cpp:187-196 | a visit changes no cell other than the visited one and its partner |
| DensityMatrices.CellSwapped | libomniq-core/src/common/DensityMatrix.cpp:187-196 | the visited cell and its partner exchange values |
| DensityMatrices.FootprintClosed | libomniq-core/src/common/DensityMatrix.cpp:165-174 | flipping the bit of both indices keeps a cell inside the footprint of X (bits differ) or of CNOT (both control bits set) |
| DensityMatrices.SwapProgressStep | libomniq-core/src/common/DensityMatrix.cpp:187-196 | visiting (i, j) swaps it with its partner exactly when it lies in the footprint |
| DensityMatrices.SwapProgressEnds | libomniq-core/src/common/DensityMatrix.cpp:164-176 | after the nested loops every footprint pair has been swapped twice, so the matrix equals the one before |
| DensityMatrices.PauliZConjTwice | libomniq-core/src/common/DensityMatrix.cpp:233-251 | the sign flip of apply_pauli_z is an involution that keeps the diagonal |
| DensityMatrices.NegateProgressEnds | libomniq-core/src/common/DensityMatrix.cpp:240-250 | after the nested loops exactly the entries whose row and column differ in bit q have changed sign |
| DensityMatrices.NegateProgressStep | libomniq-core/src/common/DensityMatrix.cpp:244-248 | one visit negates the visited entry exactly when its bits differ |
| DensityMatrices.PauliXConjTwice | libomniq-core/src/common/DensityMatrix.cpp:179-197 | the intended X ρ X is an involution |
| DensityMatrices.PauliXConjInitial | libomniq-core/src/common/DensityMatrix.cpp:179-197 | the intended X ρ X sends the population of index 0 to index 2^q, which the initial matrix leaves empty |
| DensityMatrices.CnotPartner | libomniq-core/src/common/DensityMatrix.cpp:168-171 | the CNOT partner of an index stays below 2^n and flips the target bit only when the control bit is set |
| DensityMatrices.CnotConjTwice | libomniq-core/src/common/DensityMatrix.cpp:152-177 | the intended CNOT ρ CNOT is an involution |
| DensityMatrices.CnotPartnerTwice | libomniq-core/src/common/DensityMatrix.cpp:168-171 | the CNOT partner of the partner is the index itself |
| DensityMatrices.DoubleSwapMissesGate | libomniq-core/src/common/DensityMatrix.cpp:164-196 | X ρ X moves the initial one-qubit matrix, and CNOT moves some 4 × 4 matrix, while the loops as written leave every matrix unchanged |
| DensityMatrices.ExpectationUnderZ | libomniq-core/src/common/DensityMatrix.cpp:254-268 | Z ρ Z on any qubit keeps the Z expectation of every qubit |
| DensityMatrices.InitialDiagonal | libomniq-core/src/common/DensityMatrix.cpp:14-22 | on the initial matrix of n > 0 qubits the Z expectation of every qubit is 1 |
| DensityMatrices.SetMatrixAcceptsRagged | libomniq-core/src/common/DensityMatrix.cpp:275-283 | the size check of set_matrix accepts [[1, 0], [1]], which is not square |
| DensityMatrices.DensityMatrix.constructor | libomniq-core/src/common/DensityMatrix.cpp:14-22 | n qubits holding the initial matrix |
| DensityMatrices.DensityMatrix.FromSquare | libomniq-core/src/common/DensityMatrix.cpp:24-39 | a square power-of-two matrix is stored as given on log2(size) qubits |
| DensityMatrices.DensityMatrix.ApplyPauliX | libomniq-core/src/common/DensityMatrix.cpp:179-197 | invalid_argument exactly for a bad qubit; in every case the matrix ends as it began |
| DensityMatrices.DensityMatrix.ApplyCnot | libomniq-core/src/common/DensityMatrix.cpp:152-177 | invalid_argument exactly for a bad qubit or control = target; in every case the matrix ends as it began |
| DensityMatrices.DensityMatrix.DoubleSwap | libomniq-core/src/common/DensityMatrix.cpp:164-176 | the shared nested swap loop leaves the matrix as it was |
| DensityMatrices.DensityMatrix.SwapRow | libomniq-core/src/common/DensityMatrix.cpp:165-175 | one row of the loop advances the swap progress to the end of that row |
| DensityMatrices.DensityMatrix.ApplyPauliZ | libomniq-core/src/common/DensityMatrix.cpp:233-251 | invalid_argument exactly for a bad qubit, changing nothing; otherwise the matrix becomes Z ρ Z |
| DensityMatrices.DensityMatrix.NegateDiffering | libomniq-core/src/common/DensityMatrix.cpp:240-250 | the nested loop of apply_pauli_z produces Z ρ Z |
| DensityMatrices.DensityMatrix.NegateRow | libomniq-core/src/common/DensityMatrix.cpp:241-249 | one row of the loop advances the negation progress to the end of that row |
| DensityMatrices.DensityMatrix.MeasureExpectation | libomniq-core/src/common/DensityMatrix.cpp:254-273 | invalid_argument exactly for a bad qubit or an observable other than "Z"/"z"; otherwise Σ Re ρ_kk · (±1 by bit q) |
| DensityMatrices.DensityMatrix.SetMatrix | libomniq-core/src/common/DensityMatrix.cpp:275-283 | invalid_argument exactly when the matrix is not square of size 2^n, changing nothing; otherwise the matrix is the given one |
| DensityMatrices.NewDensityMatrix | libomniq-core/src/common/DensityMatrix.cpp:14-22 | invalid_argument exactly for n < 0; otherwise the initial matrix on n qubits |
| DensityMatrices.NewDensityMatrixFrom | libomniq-core/src/common/DensityMatrix.cpp:24-39 | invalid_argument exactly for size 0, a size that is not a power of two, or a row of the wrong length; otherwise the matrix as given |
| Operators.ConstantsArePermutations | libomniq-core/src/common/Operators.cpp:44-55 | CNOT is the permutation that exchanges basis states 2 and 3, SWAP the one that exchanges 1 and 2; both fix the rest |
| Operators.ControlledGate | libomniq-core/src/common/Operators.cpp:90-97 | a 4 × 4 matrix equal to the identity outside its bottom-right 2 × 2 block, which holds the gate |
| Operators.ControlledPauli | libomniq-core/src/common/Operators.cpp:99-109 | controlledX's CNOT constant agrees with controlledGate(PAULI_X), and controlledZ is diag(1, 1, 1, −1) |
| Operators.TensorProduct | libomniq-core/src/common/Operators.cpp:128-142 | an (rA·rB) × (cA·cB) matrix whose entry (i·rB + k, j·cB + l) is A(i, j)·B(k, l) |
| Operators.FillBlock | libomniq-core/src/common/Operators.cpp:136-139 | the block assignment fills block (i, j) and keeps every block filled before |
| Operators.WriteBlock | libomniq-core/src/common/Operators.cpp:136-139 | the rows of one block are written and every cell outside the block keeps its value |
| Operators.WriteBlockRow | libomniq-core/src/common/Operators.cpp:136-139 | one row of a block writes cells (i·rB + k, j·cB + l) only |
| Operators.CreateMultiQubitGate | libomniq-core/src/common/Operators.cpp:145-156 | invalid_argument exactly for an empty list; otherwise a 2^n × 2^n matrix whose entries are the products of the gates' entries selected bit by bit (the left fold of tensorProduct) |
| Operators.FoldStep | libomniq-core/src/common/Operators.cpp:150-154 | one step of the fold extends the Kronecker product of the first i gates to the first i + 1 |
| Operators.SingleGate | libomniq-core/src/common/Operators.cpp:145-156 | a one-element list yields that gate |
| Operators.IdentityFold | libomniq-core/src/common/Operators.cpp:145-156 | the fold of n ≥ 1 identities is the 2^n × 2^n identity |
| Operators.MeasurementOperator | libomniq-core/src/common/Operators.cpp:159-195 | invalid_argument exactly for a basis other than 0, 1 or 2; otherwise a 2 × 2 matrix |
| Operators.MeasurementOperatorsComplete | libomniq-core/src/common/Operators.cpp:159-195 | in each basis the two outcome projectors add up to the identity and multiply to zero; in the Z basis they are diag(1, 0) and diag(0, 1) |
| Operators.PartialTrace | libomniq-core/src/common/Operators.cpp:213-236 | invalid_argument exactly when qubit ≥ totalQubits, for any matrix; otherwise an h × h matrix with entry (i, j) = M(i, j) + M(i + h, j + h), h = 2^(n−1) |
| Operators.PartialTraceKeepsTrace | libomniq-core/src/common/Operators.cpp:213-236 | the diagonal of the first k rows of the result adds up to that of M plus the shifted block |
| Operators.PartialTraceTrace | libomniq-core/src/common/Operators.cpp:213-236 | the partial trace keeps the trace of the leading 2h × 2h block |
| Spectral.PartialTransposeEntry | libomniq-core/src/common/Spectral.cpp:31-36 | every index the loop computes is in range, and entry (i1·dB + j2, j1·dB + i2) of the partial transpose is entry (i1·dB + i2, j1·dB + j2) of rho |
| Spectral.PartialTransposeTwice | libomniq-core/src/common/Spectral.cpp:21-43 | the partial transpose is an involution |
| Spectral.PartialTransposeDiagonal | libomniq-core/src/common/Spectral.cpp:21-43 | every diagonal entry is unchanged |
| Spectral.PartialTransposeTrace | libomniq-core/src/common/Spectral.cpp:21-43 | the trace is unchanged |
| Spectral.PartialTransposeTrivialB | libomniq-core/src/common/Spectral.cpp:21-43 | with a one-dimensional B the partial transpose is rho itself |
| Spectral.WrittenStep | libomniq-core/src/common/Spectral.cpp:36 | iteration (i1, j1, i2, j2) writes exactly one new cell, (i1·dB + j2, j1·dB + i2) |
| Spectral.NoneWritten | libomniq-core/src/common/Spectral.cpp:27-30 | before the first iteration no cell has been written |
| Spectral.WrittenCarry | libomniq-core/src/common/Spectral.cpp:27-40 | the end of each inner loop is the start of the next iteration of the loop around it |
| Spectral.PartialTranspose | libomniq-core/src/common/Spectral.cpp:21-43 | the four nested loops produce exactly the partial transpose |
| Spectral.TransposeBlockRow | libomniq-core/src/common/Spectral.cpp:28-39 | the j1 loop for one i1 writes all the cells of that block row correctly |
| Spectral.AllWritten | libomniq-core/src/common/Spectral.cpp:27-42 | after the last iteration every cell of the result holds its final value |
| Spectral.TransposeBlock | libomniq-core/src/common/Spectral.cpp:29-38 | the (i2, j2) loops for one (i1, j1) write that block correctly |
| Spectral.TransposeColumn | libomniq-core/src/common/Spectral.cpp:30-37 | the innermost loop writes rho_T(i1·dB + j2, j1·dB + i2) = rho(i1·dB + i2, j1·dB + j2) for every j2 |
| Spectral.NegativePartSign | libomniq-core/src/common/Spectral.cpp:53-59 | the negativity is never negative, and it is zero exactly when no eigenvalue is negative |
| Spectral.CalculateNegativity | libomniq-core/src/common/Spectral.cpp:45-62 | the loop returns the sum of the absolute values of the negative eigenvalues, which is ≥ 0 |
| QuantumStates.CreateBellState | libomniq-core/src/common/QuantumStates.cpp:152-178 | invalid_argument exactly for an index outside 0..3; otherwise four amplitudes scaled by 1/√2: Φ± on indices 0 and 3, Ψ± on 1 and 2, with sign − for the odd indices |
| QuantumStates.BellOrthonormal | libomniq-core/src/common/QuantumStates.cpp:152-178 | the four Bell states are normalised and pairwise orthogonal |
| QuantumStates.CreateGHZState | libomniq-core/src/common/QuantumStates.cpp:180-193 | invalid_argument exactly for fewer than two qubits; otherwise 2^n amplitudes, 1/√2 at index 0 and at the last index and 0 elsewhere |
| QuantumStates.GHZNormalised | libomniq-core/src/common/QuantumStates.cpp:180-193 | the GHZ state is normalised |
| QuantumStates.WSupport | libomniq-core/src/common/QuantumStates.cpp:195-213 | the W coefficients are 1 exactly at the indices 2^i, i < n, and 0 elsewhere |
| QuantumStates.WNormalised | libomniq-core/src/common/QuantumStates.cpp:195-213 | the W state has n unit coefficients, so the amplitude 1/√n normalises it |
| QuantumStates.WStep | libomniq-core/src/common/QuantumStates.cpp:208-211 | one pass of the loop turns the zero at 2^i into the amplitude and leaves every other entry |
| QuantumStates.CreateWState | libomniq-core/src/common/QuantumStates.cpp:195-213 | invalid_argument exactly for fewer than two qubits; otherwise the loop leaves the amplitude 1/√n at each index 2^i, i < n, and zeros elsewhere |
| QuantumStates.InnerConj | libomniq-core/src/common/QuantumStates.cpp:20-27 | ⟨b|a⟩ is the conjugate of ⟨a|b⟩ |
| QuantumStates.StateFidelity | libomniq-core/src/common/QuantumStates.cpp:20-27 | invalid_argument exactly for vectors of different dimensions; otherwise a value ≥ 0 |
| QuantumStates.StateFidelitySymmetric | libomniq-core/src/common/QuantumStates.cpp:20-27 | the state fidelity does not depend on the order of its arguments |
| QuantumStates.DoubleSumSwap | libomniq-core/src/common/QuantumStates.cpp:29-39 | the order of a finite double sum can be exchanged |
| QuantumStates.DensityFidelityTrace | libomniq-core/src/common/QuantumStates.cpp:29-39 | invalid_argument exactly for matrices of different shapes |
| QuantumStates.DensityFidelitySymmetric | libomniq-core/src/common/QuantumStates.cpp:29-39 | tr(ρ1·ρ2) = tr(ρ2·ρ1), so the density-matrix fidelity is symmetric |
| QuantumStates.InsertDescending | libomniq-core/src/common/QuantumStates.cpp:92-93 | inserting keeps the list descending and adds exactly one copy of the value |
| QuantumStates.SortDescending | libomniq-core/src/common/QuantumStates.cpp:92-93 | the result is descending and a permutation of the input |
| QuantumStates.HeadIsMax | libomniq-core/src/common/QuantumStates.cpp:92-97 | the head of a descending list is its largest value |
| QuantumStates.DescendingUnique | libomniq-core/src/common/QuantumStates.cpp:92-93 | two descending arrangements of the same values are the same list |
| QuantumStates.Concurrence | libomniq-core/src/common/QuantumStates.cpp:66-101 | invalid_argument exactly for anything but a 4 × 4 matrix; otherwise max(0, λ1 − λ2 − λ3 − λ4) ≥ 0 over the descending eigenvalues |
| QuantumStates.ConcurrenceOrderFree | libomniq-core/src/common/QuantumStates.cpp:88-101 | the concurrence depends only on the eigenvalues, not on the order the eigensolver reports them |
| QuantumStates.ConcurrenceBound | libomniq-core/src/common/QuantumStates.cpp:95-98 | with non-negative eigenvalues the concurrence is at most the largest one, and zero when the largest does not exceed the sum of the others |
| QuantumStates.CreateDensityMatrix | libomniq-core/src/common/QuantumStates.cpp:215-217 | |ψ⟩⟨ψ| is a square matrix of the vector's dimension |
| QuantumStates.DensityMatrixHermitian | libomniq-core/src/common/QuantumStates.cpp:215-217 | |ψ⟩⟨ψ| is Hermitian, with real diagonal |ψ_i|² |
| QuantumStates.DensityMatrixTrace | libomniq-core/src/common/QuantumStates.cpp:215-217 | the trace of |ψ⟩⟨ψ| is ‖ψ‖² |
| QuantumStates.MeasurementProbabilities | libomniq-core/src/common/QuantumStates.cpp:219-233 | invalid_argument exactly for a basis outside {0, 1, 2}; otherwise two probabilities ≥ 0 |
| QuantumStates.MeasurementProbabilitiesZ | libomniq-core/src/common/QuantumStates.cpp:225-233 | in the Z basis the probabilities are |ψ0|² and |ψ1|² |
| QuantumStates.ChooseOutcome | libomniq-core/src/common/QuantumStates.cpp:235-247 | the outcome is 0 exactly when the total is positive and the draw lies below p0 / total, else 1 |
| QuantumStates.MeasureOutcome | libomniq-core/src/common/QuantumStates.cpp:219-248 | invalid_argument exactly for a bad basis; otherwise outcome 0 or 1 |
| QuantumStates.ChooseOutcomeCertain | libomniq-core/src/common/QuantumStates.cpp:235-247 | an outcome of probability zero is never drawn |
| QuantumStates.PartialTransposeFirstOf | libomniq-core/src/common/QuantumStates.cpp:120-149 | the intended transpose on the first qubit is a matrix of the same shape |
| QuantumStates.PartialTransposeFirstEntry | libomniq-core/src/common/QuantumStates.cpp:134-142 | entry (i + k·h, j + l·h) of the intended transpose is entry (i + l·h, j + k·h) of ρ |
| QuantumStates.PartialTransposeFirstTwice | libomniq-core/src/common/QuantumStates.cpp:120-149 | the intended transpose is an involution |
| QuantumStates.PartialTransposeFirstTrace | libomniq-core/src/common/QuantumStates.cpp:120-149 | the intended transpose keeps the trace |
| QuantumStates.PartialTransposeAsWritten | libomniq-core/src/common/QuantumStates.cpp:120-149 | as written: invalid_argument exactly for a non-square matrix; otherwise the result equals the input |
| QuantumStates.CopyOf | libomniq-core/src/common/QuantumStates.cpp:128 | the copy holds every entry of the matrix |
| QuantumStates.SwapBlockAsWritten | libomniq-core/src/common/QuantumStates.cpp:133-145 | the k and l loops for one (i, j) leave every cell as it was |
| QuantumStates.SwapBlockLine | libomniq-core/src/common/QuantumStates.cpp:135-144 | the l loop for one k exchanges exactly the cells (i, j + h) and (i + h, j) and leaves the rest |
| QuantumStates.SwapEntries | libomniq-core/src/common/QuantumStates.cpp:141-143 | the two named entries trade values and every other entry is unchanged |
| QuantumStates.PartialTransposeFirst | libomniq-core/src/common/QuantumStates.cpp:120-149 | corrected: invalid_argument exactly for a non-square matrix; otherwise the transpose on the first qubit |
| QuantumStates.ExchangeRow | libomniq-core/src/common/QuantumStates.cpp:132-145 | the j loop for one i exchanges every pair of that row once |
| QuantumStates.AsWrittenMissesTranspose | libomniq-core/src/common/QuantumStates.cpp:120-149 | on the two-qubit matrix with a single 1 at (3, 0) the intended transpose moves it to (1, 2), while the routine as written returns the matrix unchanged |
| QuantumStates.CalculateNegativity | libomniq-core/src/common/QuantumStates.cpp:102-118 | as written: invalid_argument exactly for a non-square matrix; otherwise the sum of \|λ\| over the negative eigenvalues of the matrix itself, because the partial transpose returns its input; the sum is ≥ 0 |
| QuantumStates.CalculateNegativityCorrected | libomniq-core/src/common/QuantumStates.cpp:102-118 | corrected: invalid_argument exactly for a non-square matrix; otherwise the sum of \|λ\| over the negative eigenvalues of the transpose on the first qubit, which is ≥ 0 |
| QuantumStates.AnyBelowTolerance | libomniq-core/src/common/QuantumStates.cpp:316-322 | true exactly when some eigenvalue lies below −10⁻¹² |
| QuantumStates.IsEntangled | libomniq-core/src/common/QuantumStates.cpp:309-324 | as written: true exactly when some eigenvalue of the matrix itself lies below −10⁻¹², because the partial transpose returns its input |
| QuantumStates.IsEntangledCorrected | libomniq-core/src/common/QuantumStates.cpp:309-324 | corrected: true exactly when some eigenvalue of the transpose on the first qubit lies below −10⁻¹² |
| QuantumStates.AsWrittenSeesNoEntanglement | libomniq-core/src/common/QuantumStates.cpp:102-118 | as written, a density matrix with no negative eigenvalue, such as a Bell state, gets negativity 0 and is not reported entangled (the same holds for isEntangled, lines 309-324) |
| QuantumStates.EntangledHasNegativity | libomniq-core/src/common/QuantumStates.cpp:309-324 | an eigenvalue below the tolerance gives positive negativity, so a state reported entangled has nonzero negativity |
| QuantumStates.RowCoherence | libomniq-core/src/common/QuantumStates.cpp:288-290 | a partial row sum of moduli is ≥ 0 |
| QuantumStates.UpperCoherence | libomniq-core/src/common/QuantumStates.cpp:287-291 | the sum over the rows so far is ≥ 0 |
| QuantumStates.CalculateCoherence | libomniq-core/src/common/QuantumStates.cpp:282-294 | the nested loops return Σ |ρ(i, j)| over i < j < dim, which is ≥ 0 |
| QuantumStates.DiagonalCoherence | libomniq-core/src/common/QuantumStates.cpp:282-294 | a matrix with no entries above the diagonal has coherence zero |
| QuantumBackend.SingleQubitMatrix | omniq-debugger/src/QuantumBackend.cpp:88-137 | invalid_argument exactly for a type other than H, X, Y, Z, PHASE, RX, RY, RZ; otherwise a 2 × 2 matrix, the Pauli constant for X and Z |
| QuantumBackend.TwoQubitMatrix | omniq-debugger/src/QuantumBackend.cpp:164-189 | invalid_argument exactly for a type other than CNOT, SWAP, CP; otherwise a 4 × 4 matrix, the CNOT constant for CNOT |
| QuantumBackend.EmbedSingle | omniq-debugger/src/QuantumBackend.cpp:139-159 | the embedded gate is a 2^n × 2^n matrix |
| QuantumBackend.EmbedTwo | omniq-debugger/src/QuantumBackend.cpp:191-216 | the embedded two-qubit gate is a 2^n × 2^n matrix |
| QuantumBackend.AgreeSingle | omniq-debugger/src/QuantumBackend.cpp:142-149 | j agrees with i outside qubit q exactly when j is i with bit q set to 0 or 1 |
| QuantumBackend.SingleRowSparse | omniq-debugger/src/QuantumBackend.cpp:139-159 | row i of the embedded gate is zero except at i with bit q cleared and set, where it holds G(bit_q(i), 0) and G(bit_q(i), 1) |
| QuantumBackend.EmbedSingleAction | omniq-debugger/src/QuantumBackend.cpp:29-36 | amplitude i of G·ψ mixes the two amplitudes equal to i outside qubit q, weighted by row bit_q(i) of G |
| QuantumBackend.EmbeddedPauliX | omniq-debugger/src/QuantumBackend.cpp:29-36 | the embedded Pauli X does what Statevector's apply_pauli_x does |
| QuantumBackend.EmbeddedPauliY | omniq-debugger/src/QuantumBackend.cpp:29-36 | the embedded Pauli Y does what Statevector's apply_pauli_y does |
| QuantumBackend.EmbeddedPauliZ | omniq-debugger/src/QuantumBackend.cpp:29-36 | the embedded Pauli Z does what Statevector's apply_pauli_z does |
| QuantumBackend.EmbedIdentity | omniq-debugger/src/QuantumBackend.cpp:139-159 | embedding the 2 × 2 identity gives the 2^n × 2^n identity |
| QuantumBackend.AgreeTwo | omniq-debugger/src/QuantumBackend.cpp:194-201 | j agrees with i outside the two qubits exactly when j is i with the two bits set to j's gate column |
| QuantumBackend.EmbedTwoMonomialAction | omniq-debugger/src/QuantumBackend.cpp:38-51 | for a gate with one nonzero entry per row, amplitude i of G·ψ is that weight times the amplitude of i with the two qubits set to the selected column |
| QuantumBackend.EmbeddedCnot | omniq-debugger/src/QuantumBackend.cpp:38-51 | the embedded CNOT does what Statevector's apply_cnot does |
| QuantumBackend.SwapMonomial | omniq-debugger/src/QuantumBackend.cpp:170-187 | the SWAP constant has exactly one 1 per row, in the column with the two bits exchanged |
| QuantumBackend.EmbeddedSwap | omniq-debugger/src/QuantumBackend.cpp:38-51 | the embedded SWAP exchanges bits q1 and q2 of every index |
| QuantumBackend.EmbeddedControlledPhase | omniq-debugger/src/QuantumBackend.cpp:38-51 | the embedded controlled phase multiplies exactly the amplitudes with both bits set by the phase |
| QuantumBackend.ApplySingle | omniq-debugger/src/QuantumBackend.cpp:29-36 | out_of_range exactly for a bad qubit, invalid_argument for a type without a 2 × 2 matrix, otherwise new amplitudes of the same length |
| QuantumBackend.ApplyTwo | omniq-debugger/src/QuantumBackend.cpp:38-51 | out_of_range for a bad qubit, invalid_argument for control = target or a type without a 4 × 4 matrix, otherwise new amplitudes of the same length |
| QuantumBackend.MaskedNormSplit | omniq-debugger/src/QuantumBackend.cpp:53-68 | the probabilities of 0 and 1 on one qubit add up to the squared norm |
| QuantumBackend.MaskedSumSplit | omniq-debugger/src/QuantumBackend.cpp:70-86 | the two qubit amplitudes add up to the sum of all amplitudes |
| QuantumBackend.QubitProbabilityLaws | omniq-debugger/src/QuantumBackend.cpp:53-68 | 0 for a bad qubit or value; P(q=0) + P(q=1) is the squared norm; never negative |
| QuantumBackend.QubitAmplitudeLaws | omniq-debugger/src/QuantumBackend.cpp:70-86 | zero for a bad qubit or value; the two amplitudes of a qubit add up to the sum of all amplitudes |
| QuantumBackend.MaskedNormPauliZ | omniq-debugger/src/QuantumBackend.cpp:53-68 | a Z gate changes no qubit's probabilities |
| QuantumBackend.InitialProbabilities | omniq-debugger/src/QuantumBackend.cpp:13-27 | in the initial state every qubit reads 0 with certainty |
| QuantumBackend.QuantumState.constructor | omniq-debugger/src/QuantumBackend.cpp:13-22 | n qubits with the amplitude 1 at index 0 |
| QuantumBackend.QuantumState.Reset | omniq-debugger/src/QuantumBackend.cpp:24-27 | the amplitudes go back to the initial state |
| QuantumBackend.QuantumState.CreateSingleQubitGate | omniq-debugger/src/QuantumBackend.cpp:88-162 | invalid_argument exactly for an unsupported type; otherwise the double loop fills the embedded gate |
| QuantumBackend.QuantumState.CreateTwoQubitGate | omniq-debugger/src/QuantumBackend.cpp:164-219 | invalid_argument exactly for an unsupported type; otherwise the double loop fills the embedded two-qubit gate |
| QuantumBackend.QuantumState.ApplyGate | omniq-debugger/src/QuantumBackend.cpp:29-36 | on success the amplitudes are G·ψ; on a throw nothing changes |
| QuantumBackend.QuantumState.ApplyTwoQubitGate | omniq-debugger/src/QuantumBackend.cpp:38-51 | on success the amplitudes are G·ψ; on a throw nothing changes |
| QuantumBackend.QuantumState.GetQubitProbability | omniq-debugger/src/QuantumBackend.cpp:53-68 | the loop returns the masked squared norm, 0 for a bad qubit or value |
| QuantumBackend.QuantumState.GetQubitAmplitude | omniq-debugger/src/QuantumBackend.cpp:70-86 | the loop returns the masked sum of amplitudes, zero for a bad qubit or value |
| QuantumBackend.FillSingleRow | omniq-debugger/src/QuantumBackend.cpp:140-158 | one row of the double loop writes the embedded gate's row |
| QuantumBackend.FillTwoRow | omniq-debugger/src/QuantumBackend.cpp:192-215 | one row of the double loop writes the embedded two-qubit gate's row |
| QuantumBackend.OtherQubitsMatch | omniq-debugger/src/QuantumBackend.cpp:141-149 | the innermost loop answers whether i and j agree outside the gate's qubits |
| QuantumBackend.NewQuantumState | omniq-debugger/src/QuantumBackend.cpp:13-22 | invalid_argument exactly for n ≤ 0; otherwise the initial state |
| QuantumBackend.ApplyAgreesWithStatevector | omniq-debugger/src/QuantumBackend.cpp:29-51 | applyGate with X, Y, Z or CNOT does exactly what Statevector's apply_pauli_x, apply_pauli_y, apply_pauli_z and apply_cnot do |
| QuantumBackend.StepOutcome | omniq-debugger/src/QuantumBackend.cpp:247-253 | a successful step keeps the number of amplitudes |
| QuantumBackend.Describe | omniq-debugger/src/QuantumBackend.cpp:264-318 | every type except MEASURE starts its text with its own tag; MEASURE prints nothing |
| QuantumBackend.DescriptionDeterminesGate | omniq-debugger/src/QuantumBackend.cpp:264-318 | equal descriptions come from gates of the same type on the same qubits (and the same second qubit where it is printed) |
| QuantumBackend.QuantumCircuit.constructor | omniq-debugger/src/QuantumBackend.cpp:222-227 | n qubits, no gates, cursor 0 |
| QuantumBackend.QuantumCircuit.AddGate | omniq-debugger/src/QuantumBackend.cpp:229-232 | the gate is appended with second qubit −1 and nothing is checked |
| QuantumBackend.QuantumCircuit.AddTwoQubitGate | omniq-debugger/src/QuantumBackend.cpp:234-237 | the gate is appended with its two qubits and nothing is checked |
| QuantumBackend.QuantumCircuit.ExecuteStep | omniq-debugger/src/QuantumBackend.cpp:239-260 | false at the end of the list; otherwise the gate at the cursor is applied (single-qubit overload for second qubit −1) and the cursor advances; a throw leaves cursor and state as they were |
| QuantumBackend.QuantumCircuit.Reset | omniq-debugger/src/QuantumBackend.cpp:262 | only the cursor goes back to 0; the gates stay |
| QuantumBackend.QuantumCircuit.GetGateDescription | omniq-debugger/src/QuantumBackend.cpp:264-318 | "Invalid step" exactly for a step outside the list; otherwise the gate's tag comes first |
| QuantumBackend.NewQuantumCircuit | omniq-debugger/src/QuantumBackend.cpp:222-227 | invalid_argument exactly for n ≤ 0; otherwise an empty circuit at cursor 0 |
| CoreInterfaces.StringToGateType | omniq-debugger/src/CoreInterface.cpp:564-589 | invalid_argument for a name it does not know; it never yields MEASURE |
| CoreInterfaces.GateNamesRoundTrip | omniq-debugger/src/CoreInterface.cpp:535-589 | the two conversions are inverse on the eleven named types, a name is accepted exactly when it names one of them, and "UNKNOWN" (MEASURE's name) is rejected |
| CoreInterfaces.ToInt | omniq-debugger/src/CoreInterface.cpp:422 | an integral JSON number is read as itself; anything else gives the default |
| CoreInterfaces.DecodeGate | omniq-debugger/src/CoreInterface.cpp:436-456 | as written: an unknown type is skipped; the type's name and the qubit are kept; CNOT and SWAP read a target (default qubit + 1) and no parameter; every other type, CP included, becomes a single-qubit gate with its parameter |
| CoreInterfaces.DecodeGateCorrected | omniq-debugger/src/CoreInterface.cpp:436-456 | a CP record also reads its target and keeps its parameter; every other record decodes as before |
| CoreInterfaces.DecodeGates | omniq-debugger/src/CoreInterface.cpp:436-456 | the loop appends at most one gate per record |
| CoreInterfaces.DecodeGatesCorrected | omniq-debugger/src/CoreInterface.cpp:436-456 | the corrected loop appends at most one gate per record |
| CoreInterfaces.DecodeGatesSnoc | omniq-debugger/src/CoreInterface.cpp:437-455 | each turn of the loop appends the decoding of one record |
| CoreInterfaces.DecodeGatesCorrectedSnoc | omniq-debugger/src/CoreInterface.cpp:437-455 | each turn of the corrected loop appends the decoding of one record |
| CoreInterfaces.ImportedCpNeverRuns | omniq-debugger/src/CoreInterface.cpp:446-451 | a CP record decodes with second qubit −1, and executing it always throws |
| CoreInterfaces.ImportedCpRuns | omniq-debugger/src/CoreInterface.cpp:446-451 | with the corrected decoding a CP record on two distinct in-range qubits runs and multiplies exactly the amplitudes with both qubits 1 by e^{iφ} |
| CoreInterfaces.ImportKeepsSeedGates | omniq-debugger/src/CoreInterface.cpp:415-431 | after an import the circuit starts with the three seed gates, so step 1 runs H on qubit 0 whatever the records say |
| CoreInterfaces.Summaries | omniq-debugger/src/CoreInterface.cpp:481-515 | one summary per qubit 0..count−1 and nothing else |
| CoreInterfaces.Drive | omniq-debugger/src/CoreInterface.cpp:98-100 | the amplitudes keep their length and the cursor stays within the gate list |
| CoreInterfaces.DriveLaws | omniq-debugger/src/CoreInterface.cpp:98-100 | the counter and the cursor move in lock step; the loop stops at step unless the list ends first, and a throw happens before step on a gate that exists |
| CoreInterfaces.DriveOneStep | omniq-debugger/src/CoreInterface.cpp:98-100 | one turn runs the gate at the cursor: success moves both on, a throw stops the drive |
| CoreInterfaces.DriveExtend | omniq-debugger/src/CoreInterface.cpp:116-123 | driving to step and then to step + 1 equals driving to step + 1, which is what executeToStep's successive calls rely on |
| CoreInterfaces.DriveFailureStable | omniq-debugger/src/CoreInterface.cpp:98-113 | once a gate throws, every later target stops at the same place |
| CoreInterfaces.ResetLeavesCursor | omniq-debugger/src/CoreInterface.cpp:127-131 | after resetExecution the next executeStep(1) runs the gate at the old cursor on the old amplitudes, not the first gate |
| CoreInterfaces.ResetAlignsCursor | omniq-debugger/src/CoreInterface.cpp:127-131 | after the intended full reset, executeStep(k) leaves counter and cursor both at k unless the list ends or a gate throws |
| CoreInterfaces.CoreInterface.constructor | omniq-debugger/src/CoreInterface.cpp:15-17 | no circuit, no state, both counters 0, not executing, no error, no summaries |
| CoreInterfaces.CoreInterface.UpdateQubitStates | omniq-debugger/src/CoreInterface.cpp:481-515 | with a state, the summaries become one per qubit of the state; without one nothing changes |
| CoreInterfaces.CoreInterface.CreateCircuit | omniq-debugger/src/CoreInterface.cpp:21-44 | true exactly for n > 0: a fresh circuit holding H(0), CNOT(0, 1), H(1) at cursor 0, a fresh initial state, 3 steps and fresh summaries; otherwise only the error changes |
| CoreInterfaces.CoreInterface.ExecuteStep | omniq-debugger/src/CoreInterface.cpp:93-114 | rejected for an invalid step or without a circuit; otherwise the back end is driven as Drive says, and a throw records the error and skips the summary refresh |
| CoreInterfaces.CoreInterface.ResetExecution | omniq-debugger/src/CoreInterface.cpp:127-131 | as written: only the counter goes back to 0; circuit cursor, state and summaries stay |
| CoreInterfaces.CoreInterface.ResetExecutionCorrected | omniq-debugger/src/CoreInterface.cpp:127-131 | the intended reset: counter, circuit cursor, state and summaries all go back to the start |
| CoreInterfaces.CoreInterface.GetQubitProbability | omniq-debugger/src/CoreInterface.cpp:178-189 | 0 for a qubit outside 0..7 or without a summary; with fresh summaries it is the back end's probability of the qubit, P(1) for any value other than 0 |
| CoreInterfaces.CoreInterface.AddGate | omniq-debugger/src/CoreInterface.cpp:359-364 | always true; the step total grows by one and nothing else changes |
| CoreInterfaces.CoreInterface.RemoveGate | omniq-debugger/src/CoreInterface.cpp:366-374 | true exactly for a step in 0..totalSteps, and then the total drops by one |
| CoreInterfaces.CoreInterface.InsertGate | omniq-debugger/src/CoreInterface.cpp:376-386 | true exactly for a step in 0..totalSteps, and then the total grows by one |
| CoreInterfaces.CoreInterface.OptimizeCircuit | omniq-debugger/src/CoreInterface.cpp:388-393 | always true; the total becomes max(1, total − 1) |
| CoreInterfaces.CoreInterface.ImportCircuit | omniq-debugger/src/CoreInterface.cpp:415-467 | false when num_qubits is missing or not positive; otherwise a fresh circuit holding the seed gates followed by the decoded records, at cursor 0, with a fresh state, the view mode, the step total and the summaries set |
| CoreInterfaces.CoreInterface.ImportCircuitCorrected | omniq-debugger/src/CoreInterface.cpp:415-467 | the same outcomes, with the circuit holding exactly the records decoded the corrected way |
| CoreInterfaces.AddSeedGates | omniq-debugger/src/CoreInterface.cpp:26-28 | the three addGate calls leave exactly the seed gates |
| CoreInterfaces.CollectSummaries | omniq-debugger/src/CoreInterface.cpp:489-514 | the loop over the qubits builds the summaries of every qubit |
| CoreInterfaces.Advance | omniq-debugger/src/CoreInterface.cpp:98-100 | the while loop leaves counter, cursor and amplitudes as Drive says |
| CoreInterfaces.AdvanceOnce | omniq-debugger/src/CoreInterface.cpp:98-100 | one turn of the loop: the back end's step and its effect on what remains of the drive |
| CoreInterfaces.AppendRecords | omniq-debugger/src/CoreInterface.cpp:437-455 | the loop appends the decoded records after the gates already present |
| CoreInterfaces.AddRecord | omniq-debugger/src/CoreInterface.cpp:438-454 | one record appends its decoding, or nothing for an unknown type |
| CoreInterfaces.AppendRecordsCorrected | omniq-debugger/src/CoreInterface.cpp:437-455 | the corrected loop appends the corrected decodings |
| CoreInterfaces.AddRecordCorrected | omniq-debugger/src/CoreInterface.cpp:438-454 | one record appends its corrected decoding |
| CoreInterfaces.ImportedProbabilities | omniq-debugger/src/CoreInterface.cpp:458-462 | after a successful import every qubit reports P(0) = 1 and P(1) = 0 |
| CoreInterfaces.ReportedProbabilitiesSum | omniq-debugger/src/CoreInterface.cpp:178-189 | any non-zero value reads P(1), and the two reported probabilities of a qubit add up to the squared norm of the state |
| CoreInterfaces.CoreInterface.ExecuteToStep | omniq-debugger/src/CoreInterface.cpp:116-123 | a target at or below the counter succeeds and changes nothing; otherwise the state is driven towards the target, capped at totalSteps, and the call succeeds exactly when the target is in range and no gate throws |
| CoreInterfaces.CoreInterface.ExecuteFull | omniq-debugger/src/CoreInterface.cpp:125 | drives the state to totalSteps; succeeds exactly when no gate on the way throws |
| PyCircuits.Record | omniq-python/omniq/circuit.py:68-84 | the record of tuple i holds its type, its first operand as qubit and i as step; a target exactly for CNOT, SWAP and CP, and a parameter exactly for CP, RX, RY, RZ and PHASE, read from the right tuple positions |
| PyCircuits.RecordImport | omniq-debugger/src/CoreInterface.cpp:436-456 | the corrected import decodes every built tuple's record back to the gate it stands for; the import as written does so for every type except CP |
| PyCircuits.Records | omniq-python/omniq/circuit.py:67-84 | one record per tuple |
| PyCircuits.IntendedAll | omniq-python/omniq/circuit.py:10-63 | one back-end gate per tuple |
| PyCircuits.RecordsImport | omniq-debugger/src/CoreInterface.cpp:436-456 | the corrected import rebuilds exactly the gates of the whole list, and the import as written does too when no tuple is CP |
| PyCircuits.Circuit.constructor | omniq-python/omniq/circuit.py:6-8 | the given qubit count and no gates |
| PyCircuits.Circuit.Append | omniq-python/omniq/circuit.py:12-13 | one tuple is appended and the builder itself is returned |
| PyCircuits.Circuit.H | omniq-python/omniq/circuit.py:10-13 | ('H', qubit) is appended and self returned |
| PyCircuits.Circuit.X | omniq-python/omniq/circuit.py:15-18 | ('X', qubit) is appended and self returned |
| PyCircuits.Circuit.Y | omniq-python/omniq/circuit.py:20-23 | ('Y', qubit) is appended and self returned |
| PyCircuits.Circuit.Z | omniq-python/omniq/circuit.py:25-28 | ('Z', qubit) is appended and self returned |
| PyCircuits.Circuit.Cx | omniq-python/omniq/circuit.py:30-33 | ('CNOT', control, target) is appended and self returned |
| PyCircuits.Circuit.Swap | omniq-python/omniq/circuit.py:35-38 | ('SWAP', qubit1, qubit2) is appended and self returned |
| PyCircuits.Circuit.Rx | omniq-python/omniq/circuit.py:40-43 | ('RX', qubit, angle) is appended and self returned |
| PyCircuits.Circuit.Ry | omniq-python/omniq/circuit.py:45-48 | ('RY', qubit, angle) is appended and self returned |
| PyCircuits.Circuit.Rz | omniq-python/omniq/circuit.py:50-53 | ('RZ', qubit, angle) is appended and self returned |
| PyCircuits.Circuit.Phase | omniq-python/omniq/circuit.py:55-58 | ('PHASE', qubit, angle) is appended and self returned |
| PyCircuits.Circuit.Cp | omniq-python/omniq/circuit.py:60-63 | ('CP', control, target, angle) is appended: the angle taken first is stored last |
| PyCircuits.Circuit.ToDict | omniq-python/omniq/circuit.py:65-89 | the dictionary holds num_qubits and one record per tuple, in order |
| PyCircuits.DictImport | omniq-python/omniq/circuit.py:65-89 | to_dict followed by the corrected import gives back exactly the gates built |
| Grovers.DatabaseOracleAccepts | libomniq-core/src/modules/algorithms/Grovers.cpp:233-241 | the database oracle accepts exactly the bit lists whose value Σ input[i]·2^i is the target |
| Grovers.ClauseSatisfiedIff | libomniq-core/src/modules/algorithms/Grovers.cpp:247-258 | a clause holds exactly when one of its literals names a variable below num_variables whose value (false past the input) matches the literal's sign |
| Grovers.SatOracleAccepts | libomniq-core/src/modules/algorithms/Grovers.cpp:243-264 | the SAT oracle accepts exactly when every clause is satisfied |
| Grovers.SatOracleEdgeCases | libomniq-core/src/modules/algorithms/Grovers.cpp:243-264 | no clauses accept everything, and a clause whose variables all lie past num_variables rejects everything |
| Grovers.GraphColoringOracle | libomniq-core/src/modules/algorithms/Grovers.cpp:266-283 | the graph-colouring oracle accepts every input |
| Grovers.OptimalIterations | libomniq-core/src/modules/algorithms/Grovers.cpp:285-292 | 0 exactly for a non-positive qubit or solution count; otherwise at least 1, and the rounded value when that is at least 1 |
| Grovers.SuccessProbability | libomniq-core/src/modules/algorithms/Grovers.cpp:294-301 | 0 for a non-positive qubit or solution count or a negative iteration count; otherwise the squared sine, within [0, 1] |
| Grovers.BitString | libomniq-core/src/modules/algorithms/Grovers.cpp:148-151 | the bit list of an index has num_qubits entries |
| Grovers.BitStringValue | libomniq-core/src/modules/algorithms/Grovers.cpp:148-151 | the bit list of an index is made of bits and reads back as that index |
| Grovers.Marked | libomniq-core/src/modules/algorithms/Grovers.cpp:141-157 | the oracle's sign flip keeps the number of amplitudes |
| Grovers.MarkedTwice | libomniq-core/src/modules/algorithms/Grovers.cpp:141-157 | applying the oracle gate twice restores every amplitude |
| Grovers.DatabaseMarksTarget | libomniq-core/src/modules/algorithms/Grovers.cpp:141-157 | with the database oracle exactly the target amplitude changes sign |
| Grovers.BitStringOf | libomniq-core/src/modules/algorithms/Grovers.cpp:148-151 | the inner loop builds the index's bit list |
| Grovers.OracleGate.constructor | libomniq-core/src/modules/algorithms/Grovers.cpp:122-127 | the gate keeps its qubit count and oracle |
| Grovers.OracleGate.Apply | libomniq-core/src/modules/algorithms/Grovers.cpp:129-157 | the state's amplitudes become the oracle's sign flip of the old ones |
| Grovers.NewOracleGate | libomniq-core/src/modules/algorithms/Grovers.cpp:122-127 | invalid_argument exactly for a null oracle |
| Grovers.ShotBits | libomniq-core/src/modules/algorithms/Grovers.cpp:106-109 | one measured bit per qubit |
| Grovers.ShotResultBits | libomniq-core/src/modules/algorithms/Grovers.cpp:106-109 | bit i of the packed result is the bit measured on qubit i |
| Grovers.PackShot | libomniq-core/src/modules/algorithms/Grovers.cpp:105-110 | the loop packs the measured bits into their value, which lies below 2^n |
| Grovers.GroversAlgorithm.constructor | libomniq-core/src/modules/algorithms/Grovers.cpp:14-28 | the counts and oracle are kept, with the optimal iteration count |
| Grovers.GroversAlgorithm.SetIterations | libomniq-core/src/modules/algorithms/Grovers.cpp:30-35 | invalid_argument exactly for a negative count, changing nothing; otherwise the count is set |
| Grovers.GroversAlgorithm.BuildCircuit | libomniq-core/src/modules/algorithms/Grovers.cpp:42-50 | a circuit on n qubits holding one Hadamard per qubit, in order |
| Grovers.GroversAlgorithm.ExecuteWithMeasurements | libomniq-core/src/modules/algorithms/Grovers.cpp:92-114 | invalid_argument exactly for a non-positive shot count; otherwise one packed result below 2^n per shot |
| Grovers.NewGroversAlgorithm | libomniq-core/src/modules/algorithms/Grovers.cpp:14-28 | invalid_argument exactly for non-positive qubits or solutions or a null oracle; otherwise an algorithm with the optimal iteration count |
| PyAlgorithms.PackFromPrefix | omniq-python/omniq/algorithms.py:169-174 | resuming the OR-shift loop after any prefix yields the packed value of the whole bit list |
| PyAlgorithms.DatabaseOraclesAgree | omniq-python/omniq/algorithms.py:159-176 | the Python database oracle agrees with the C++ one on every input, and on a bit list accepts exactly when its little-endian value is the target |
| PyAlgorithms.ClauseFromAgrees | omniq-python/omniq/algorithms.py:191-202 | the literal loop over one clause, from any position, decides the C++ clause semantics for the remaining literals |
| PyAlgorithms.ClausesFromAgree | omniq-python/omniq/algorithms.py:189-208 | the clause loop, from any position, decides that every remaining clause is satisfied |
| PyAlgorithms.SatOraclesAgree | omniq-python/omniq/algorithms.py:178-210 | the Python SAT oracle agrees with the C++ one on every input |
| PyAlgorithms.ColorScanIs | omniq-python/omniq/algorithms.py:236-242 | the colour scan yields the highest colour at or after c whose bit is present and set, or the earlier value when there is none |
| PyAlgorithms.ColorOfIs | omniq-python/omniq/algorithms.py:231-242 | a vertex's colour is the last c below num_colors whose bit lies within the input and is set, or -1 |
| PyAlgorithms.EdgesFromIff | omniq-python/omniq/algorithms.py:226-248 | the edge loop, from any position, rejects exactly when a remaining in-range edge joins two vertices of the same colour other than -1 |
| PyAlgorithms.GraphColoringOracleAccepts | omniq-python/omniq/algorithms.py:212-251 | the graph-colouring oracle rejects exactly when some edge with both ends below num_vertices joins two vertices with the same assigned colour |
| PyAlgorithms.GraphColoringOraclesDiffer | omniq-python/omniq/algorithms.py:212-251 | on one edge whose ends both have colour 0, the Python oracle rejects while the C++ one accepts |
| Qpe.QftCheck | libomniq-core/src/modules/algorithms/QPE.cpp:125-128 | applying a (possibly inverse) QFT succeeds exactly when the state's qubit count equals the gate's, and fails with invalid_argument otherwise |
| Qpe.NewControlledUnitary | libomniq-core/src/modules/algorithms/QPE.cpp:166-174 | invalid_argument exactly for a null unitary; otherwise a gate named ControlledUnitary whose only listed qubit is the control |
| Qpe.ControlledUnitaryCheck | libomniq-core/src/modules/algorithms/QPE.cpp:190-194 | the controlled unitary applies exactly when the control and every target lie inside the state, and fails with invalid_argument otherwise |
| Qpe.EigenvalueToPhase | libomniq-core/src/modules/algorithms/QPE.cpp:253-258 | the phase of any eigenvalue lies in [0, 1) |
| Qpe.PhaseRoundTrip | libomniq-core/src/modules/algorithms/QPE.cpp:247-258 | a phase in [0, 1) turned into its eigenvalue and back is unchanged |
| Qpe.PhaseOfFullTurn | libomniq-core/src/modules/algorithms/QPE.cpp:253-258 | eigenvalues differing by whole turns of 2π have the same phase |
| Qpe.EstimateIs | libomniq-core/src/modules/algorithms/QPE.cpp:84-96 | each estimate is m / 2^p with m the packed measurement of the precision qubits, below 2^p, so it lies in [0, 1) |
| Qpe.Qpe.constructor | libomniq-core/src/modules/algorithms/QPE.cpp:13-26 | the qubit counts and unitary are kept, with no eigenvalues or eigenstates |
| Qpe.Qpe.TotalQubits | libomniq-core/src/modules/algorithms/QPE.h:97 | the total exceeds both the precision and the eigenstate qubit counts |
| Qpe.Qpe.SetEigenvaluesAndStates | libomniq-core/src/modules/algorithms/QPE.cpp:28-32 | both lists are stored exactly as given |
| Qpe.Qpe.BuildCircuit | libomniq-core/src/modules/algorithms/QPE.cpp:34-55 | a (p + e)-qubit circuit of 2p + 1 gates: Hadamards on 0 .. p-1, then the controlled unitary of qubit i with power 2^i on the e qubits from p, then one width-p inverse QFT; every gate is within range |
| Qpe.Qpe.BuildQft | libomniq-core/src/modules/algorithms/QPE.cpp:57-62 | a p-qubit circuit holding a single forward QFT gate named QFT |
| Qpe.Qpe.BuildInverseQft | libomniq-core/src/modules/algorithms/QPE.cpp:64-69 | a p-qubit circuit holding a single inverse QFT gate named InverseQFT |
| Qpe.GateCheck | libomniq-core/src/modules/algorithms/QPE.cpp:145-148 | a gate applied to an n-qubit state fails only with invalid_argument: a QFT when n differs from its width, a controlled unitary when its qubits do not fit |
| Qpe.RunChecks | libomniq-core/src/common/Circuit.cpp:174-176 | applying a gate list throws exactly when some gate fails its check, and then with invalid_argument |
| Qpe.ExecuteStatevector | libomniq-core/src/common/Circuit.cpp:162-178 | execute_statevector from the default state runs the gates on numQubits qubits and throws exactly when some gate fails its check |
| Qpe.InverseQftRejectsCircuit | libomniq-core/src/modules/algorithms/QPE.cpp:34-55 | on the (p + e)-qubit state of build_circuit's circuit every gate but the last passes, and the last, the width-p inverse QFT, throws invalid_argument because e > 0 |
| Qpe.Qpe.ExecuteWithMeasurements | libomniq-core/src/modules/algorithms/QPE.cpp:76-100 | as written: every call throws invalid_argument, for a non-positive shot count by the check and otherwise because the first shot's execute() throws on build_circuit's circuit |
| Qpe.Qpe.ExecuteWithMeasurementsCorrected | libomniq-core/src/modules/algorithms/QPE.cpp:76-100 | corrected, with the inverse QFT acting on the precision qubits: invalid_argument exactly for a non-positive shot count; otherwise one estimate per shot, each the packed precision bits over 2^p |
| Qpe.NewQpe | libomniq-core/src/modules/algorithms/QPE.cpp:13-26 | invalid_argument exactly for non-positive precision or eigenstate counts or a null unitary; otherwise a fresh QPE holding those arguments |
| NoiseChannels.GramIsProduct | libomniq-core/include/omniq/Noise/NoiseChannel.h:22-26 | for any lawful square root, the exact Gram matrix of a weighted operator is E†E of the matrix the channel hands over |
| NoiseChannels.GramSumSnoc | libomniq-core/include/omniq/Noise/NoiseChannel.h:22-26 | the Gram sum of a list grows by the Gram matrix of each appended operator |
| NoiseChannels.UnitaryGram | libomniq-core/include/omniq/Noise/NoiseChannel.h:22-26 | a unitary scaled by √w has Gram matrix w · I |
| NoiseChannels.IdentityUnitary | libomniq-core/src/modules/noise/DepolarizingChannel.cpp:31 | the identity is unitary |
| NoiseChannels.PauliXUnitary | libomniq-core/src/modules/noise/DepolarizingChannel.cpp:34 | Pauli X is unitary |
| NoiseChannels.PauliYUnitary | libomniq-core/src/modules/noise/DepolarizingChannel.cpp:37 | Pauli Y is unitary |
| NoiseChannels.PauliZUnitary | libomniq-core/src/modules/noise/DepolarizingChannel.cpp:40 | Pauli Z is unitary |
| NoiseChannels.WeightedMaterialise | libomniq-core/src/modules/noise/DepolarizingChannel.cpp:31-40 | an operator weighted by w on both columns is handed over as √w times its matrix |
| NoiseChannels.IdentityGramComplete | libomniq-core/include/omniq/Noise/NoiseChannel.h:22-26 | operators with Gram matrices w_k · I whose weights add up to 1 satisfy Σ E†E = I |
| NoiseChannels.PairComplete | libomniq-core/include/omniq/Noise/NoiseChannel.h:22-26 | two operators with Gram matrices w · I and (1 − w) · I form a complete set |
| NoiseChannels.QuadComplete | libomniq-core/include/omniq/Noise/NoiseChannel.h:22-26 | four operators with Gram matrices w_k · I and weights adding up to 1 form a complete set |
| NoiseChannels.SqrtZeroOne | libomniq-core/src/modules/noise/AmplitudeDampingChannel.cpp:37-42 | any lawful square root maps 0 to 0 and 1 to 1, so the boundary operators are exact |
| NoiseChannels.DecayInRange | libomniq-core/src/modules/noise/AmplitudeDampingChannel.cpp:19-23 | 1 − exp(−gateTime / T) lies in [0, 1) for a positive T and a non-negative gate time |
| NoiseChannels.DecayScaleInvariant | libomniq-core/src/modules/noise/AmplitudeDampingChannel.cpp:21 | the decay parameter depends on gateTime / T only |
| DepolarizingChannels.KrausOfComplete | libomniq-core/src/modules/noise/DepolarizingChannel.cpp:27-43 | weights 1 − p, p/3, p/3, p/3 on any four unitaries give Σ E†E = I for every p in [0, 1] |
| DepolarizingChannels.KrausComplete | libomniq-core/src/modules/noise/DepolarizingChannel.cpp:27-43 | √(1−p) I, √(p/3) X, √(p/3) Y, √(p/3) Z satisfy Σ E†E = I for every p in [0, 1] |
| DepolarizingChannels.DepolarizingChannel.constructor | libomniq-core/src/modules/noise/DepolarizingChannel.cpp:14-18 | a probability in [0, 1] is stored as given |
| DepolarizingChannels.DepolarizingChannel.SetErrorProbability | libomniq-core/src/modules/noise/DepolarizingChannel.cpp:20-25 | invalid_argument exactly outside [0, 1], leaving p unchanged; otherwise p becomes the value; the channel stays valid |
| DepolarizingChannels.DepolarizingChannel.KrausOperators | libomniq-core/src/modules/noise/DepolarizingChannel.cpp:27-43 | four operators forming a complete set |
| DepolarizingChannels.DepolarizingChannel.Description | libomniq-core/src/modules/noise/DepolarizingChannel.cpp:49-53 | the channel name, then "(p=", the formatted probability and ")" |
| DepolarizingChannels.NewDepolarizingChannel | libomniq-core/src/modules/noise/DepolarizingChannel.cpp:14-18 | invalid_argument exactly for a probability outside [0, 1]; otherwise a fresh channel with that probability |
| AmplitudeDampingChannels.KrausOfComplete | libomniq-core/src/modules/noise/AmplitudeDampingChannel.cpp:32-46 | a unitary weighted (1, 1 − γ) and a decay matrix weighted (0, γ) form a complete set for every γ in [0, 1] |
| AmplitudeDampingChannels.LoweringDecay | libomniq-core/src/modules/noise/AmplitudeDampingChannel.cpp:40-43 | the lowering matrix has a zero first column and a unit second column |
| AmplitudeDampingChannels.KrausComplete | libomniq-core/src/modules/noise/AmplitudeDampingChannel.cpp:32-46 | the two amplitude-damping operators satisfy Σ E†E = I for every γ in [0, 1] |
| AmplitudeDampingChannels.KrausMatrices | libomniq-core/src/modules/noise/AmplitudeDampingChannel.cpp:35-43 | with a lawful square root the operators handed over are exactly [[1, 0], [0, √(1−γ)]] and [[0, √γ], [0, 0]] |
| AmplitudeDampingChannels.AmplitudeDampingChannel.constructor | libomniq-core/src/modules/noise/AmplitudeDampingChannel.cpp:13-17 | a γ in [0, 1] is stored as given |
| AmplitudeDampingChannels.AmplitudeDampingChannel.SetGamma | libomniq-core/src/modules/noise/AmplitudeDampingChannel.cpp:25-30 | invalid_argument exactly outside [0, 1], leaving γ unchanged; otherwise γ becomes the value; the channel stays valid |
| AmplitudeDampingChannels.AmplitudeDampingChannel.KrausOperators | libomniq-core/src/modules/noise/AmplitudeDampingChannel.cpp:32-46 | two operators forming a complete set |
| AmplitudeDampingChannels.AmplitudeDampingChannel.Description | libomniq-core/src/modules/noise/AmplitudeDampingChannel.cpp:52-56 | the channel name, then "(γ=", the formatted γ and ")" |
| AmplitudeDampingChannels.NewAmplitudeDampingChannel | libomniq-core/src/modules/noise/AmplitudeDampingChannel.cpp:13-17 | invalid_argument exactly for a γ outside [0, 1]; otherwise a fresh channel with that γ |
| AmplitudeDampingChannels.FromT1 | libomniq-core/src/modules/noise/AmplitudeDampingChannel.cpp:19-23 | γ = 1 − exp(−gateTime / T1), rejected exactly when outside [0, 1]; a positive T1 and a non-negative gate time always succeed |
| PhaseDampingChannels.KrausOfComplete | libomniq-core/src/modules/noise/PhaseDampingChannel.cpp:32-42 | two unitaries weighted 1 − λ and λ form a complete set for every λ in [0, 1] |
| PhaseDampingChannels.KrausComplete | libomniq-core/src/modules/noise/PhaseDampingChannel.cpp:32-42 | √(1−λ) I and √λ Z satisfy Σ E†E = I for every λ in [0, 1] |
| PhaseDampingChannels.PhaseDampingChannel.constructor | libomniq-core/src/modules/noise/PhaseDampingChannel.cpp:14-18 | a λ in [0, 1] is stored as given |
| PhaseDampingChannels.PhaseDampingChannel.SetLambda | libomniq-core/src/modules/noise/PhaseDampingChannel.cpp:25-30 | invalid_argument exactly outside [0, 1], leaving λ unchanged; otherwise λ becomes the value; the channel stays valid |
| PhaseDampingChannels.PhaseDampingChannel.KrausOperators | libomniq-core/src/modules/noise/PhaseDampingChannel.cpp:32-42 | two operators forming a complete set |
| PhaseDampingChannels.PhaseDampingChannel.Description | libomniq-core/src/modules/noise/PhaseDampingChannel.cpp:48-52 | the channel name, then "(λ=", the formatted λ and ")" |
| PhaseDampingChannels.NewPhaseDampingChannel | libomniq-core/src/modules/noise/PhaseDampingChannel.cpp:14-18 | invalid_argument exactly for a λ outside [0, 1]; otherwise a fresh channel with that λ |
| PhaseDampingChannels.FromT2 | libomniq-core/src/modules/noise/PhaseDampingChannel.cpp:20-23 | λ = 1 − exp(−gateTime / T2), rejected exactly when outside [0, 1]; a positive T2 and a non-negative gate time always succeed |
| NoiseModels.StepComplete | libomniq-core/src/modules/noise/NoiseModel.cpp:55-89 | every channel applyGateNoise or applyIdleNoise constructs with a parameter in [0, 1] has a complete set of Kraus operators |
| NoiseModels.DepolarizingError | libomniq-core/src/modules/noise/NoiseModel.cpp:25-32 | the probability is never negative, is positive exactly for a fidelity below 1, is a probability exactly for a fidelity of at least 1/4, and equals (4/3)(1 − F) below 1 |
| NoiseModels.GateProfile | libomniq-core/src/modules/noise/NoiseModel.cpp:47-53 | CNOT, CZ and SWAP select the two-qubit fidelity and gate time; every other name selects the single-qubit ones |
| NoiseModels.Guarded | libomniq-core/src/modules/noise/NoiseModel.cpp:55-60 | no channel for a non-positive parameter, invalid_argument exactly above 1, otherwise exactly that one channel |
| NoiseModels.Then | libomniq-core/src/modules/noise/NoiseModel.cpp:34-90 | two applications in sequence succeed exactly when both do, concatenate their channels, and the first error stops the call |
| NoiseModels.IdleNoise | libomniq-core/src/modules/noise/NoiseModel.cpp:66-90 | nothing when disabled, for a non-positive idle time or a multi-qubit matrix; otherwise at most two channels, all on the given qubit with parameters in (0, 1] |
| NoiseModels.GateNoise | libomniq-core/src/modules/noise/NoiseModel.cpp:34-64 | nothing when disabled or for a multi-qubit matrix; otherwise at most three channels, all on the gate's first qubit with parameters in (0, 1] |
| NoiseModels.GateNoiseComplete | libomniq-core/src/modules/noise/NoiseModel.cpp:34-64 | every channel a successful applyGateNoise constructs is complete |
| NoiseModels.GateNoiseSucceeds | libomniq-core/src/modules/noise/NoiseModel.cpp:34-64 | positive T1 and T2*, non-negative gate times and fidelities of at least 1/4 never make a constructor throw |
| NoiseModels.GateClassification | libomniq-core/src/modules/noise/NoiseModel.cpp:47-63 | any gate's noise equals that of a single-qubit gate given the fidelity and gate time its class selects, so only the class of the name matters |
| NoiseModels.MeasurementNoise | libomniq-core/src/modules/noise/NoiseModel.cpp:92-107 | the result is kept or flipped; it is flipped exactly when enabled, the draw falls below 1 − readout fidelity and flipping changes it; a bit stays a bit |
| NoiseModels.PerfectReadout | libomniq-core/src/modules/noise/NoiseModel.cpp:92-107 | a readout fidelity of 1 never flips a result |
| NoiseModels.NoiseModel.constructor | libomniq-core/src/modules/noise/NoiseModel.cpp:13-15 | the default hardware parameters and fidelities, enabled |
| NoiseModels.NoiseModel.SetHardwareParams | libomniq-core/src/modules/noise/NoiseModel.cpp:17-19 | the hardware parameters become the given ones |
| NoiseModels.NoiseModel.SetGateFidelities | libomniq-core/src/modules/noise/NoiseModel.cpp:21-23 | the fidelities become the given ones |
| NoiseModels.NoiseModel.SetEnabled | libomniq-core/include/omniq/Noise/NoiseModel.h:86 | the enabled flag becomes the given value |
| NoiseModels.NoiseModel.ApplyGateNoise | libomniq-core/src/modules/noise/NoiseModel.cpp:34-64 | nothing when disabled or for a multi-qubit matrix; every channel constructed is complete |
| NoiseModels.NoiseModel.ApplyIdleNoise | libomniq-core/src/modules/noise/NoiseModel.cpp:66-90 | nothing when disabled, idle time non-positive or multi-qubit; every channel constructed acts on the qubit and is complete |
| NoiseModels.NoiseModel.ApplyMeasurementNoise | libomniq-core/src/modules/noise/NoiseModel.cpp:92-107 | the result is kept or flipped, flipped exactly when enabled and the draw falls below 1 − readout fidelity |
| NoiseModels.CreateIdealModel | libomniq-core/src/modules/noise/NoiseModel.cpp:109-113 | a fresh model with the defaults and noise switched off |
| NoiseModels.CreateTypicalModel | libomniq-core/src/modules/noise/NoiseModel.cpp:115-119 | a fresh model with the defaults, enabled |
| NoiseModels.CreateNoisyModel | libomniq-core/src/modules/noise/NoiseModel.cpp:121-139 | a fresh model with the noisy preset's parameters, enabled |
| NoiseModels.PresetsSucceed | libomniq-core/src/modules/noise/NoiseModel.cpp:109-139 | with both presets, applyGateNoise never throws for any gate |
| PyNoise.Tuple | omniq-python/omniq/noise.py:18-24 | the tag names the channel kind, followed by one number for depolarizing and two for relaxation |
| PyNoise.FromTuple | omniq-python/omniq/noise.py:18-24 | whatever reads back is the channel whose tuple it was |
| PyNoise.TupleRoundTrip | omniq-python/omniq/noise.py:18-24 | every tuple the builders append reads back as the channel it came from |
| PyNoise.Tuples | omniq-python/omniq/noise.py:26-30 | one tuple per channel, in order |
| PyNoise.TuplesRoundTrip | omniq-python/omniq/noise.py:26-30 | the channel list reads back exactly from its tuples |
| PyNoise.NoiseModel.constructor | omniq-python/omniq/noise.py:5-8 | the name is kept and there are no channels |
| PyNoise.NoiseModel.AddDepolarizingNoise | omniq-python/omniq/noise.py:18-20 | one depolarizing channel is appended and the model itself is returned |
| PyNoise.NoiseModel.AddRelaxationNoise | omniq-python/omniq/noise.py:22-24 | one relaxation channel is appended and the model itself is returned |
| PyNoise.NoiseModel.ToDict | omniq-python/omniq/noise.py:26-30 | the name and the channels, which read back exactly |
| PyNoise.NoiseModel.Describe | omniq-python/omniq/noise.py:32-33 | the quoted name and the channel count inside NoiseModel(...) |
| PyNoise.NewNoiseModel | omniq-python/omniq/noise.py:5-8 | a fresh model with the default name and no channels |
| PyNoise.CreateTypicalModel | omniq-python/omniq/noise.py:10-16 | a fresh model named for the typical preset holding depolarizing 0.001 then relaxation (50, 70) |

## Left out

- The Qt user interface, its signals and the file and JSON I/O: `loadCircuit`, `saveCircuit`, `save_json`, `debug` and `show`. These are outside the simulator logic.
- Random number generation: every draw (`mt19937`, `uniform_real_distribution`) is a parameter of the operation that uses it.
- The Eigen eigensolvers: negativity and the entanglement test take the eigenvalues as an input.
- The numerics of the Hadamard and rotation gates, phase shifts, the QFT, Grover's diffusion gate and `GroversAlgorithm::execute`. They need `sqrt`, `cos` and `exp`. Only their shapes and checks are modelled.
- Grover's `build_oracle` and `build_diffusion`: they return empty circuits, and `execute` does not use them.
- `std::exp`, `std::sqrt` and the complex modulus are parameters. The laws the proofs need are stated as predicates (`ExpLaw`, `SqrtLaw`).
- The normalisation performed by the state-vector and density-matrix constructors and setters.
- Floating-point tolerance checks: `is_normalized`, `isUnitary`, `isHermitian` and `verifyCPTP`.
- The `partial_trace` methods of Statevector and DensityMatrix.
- DensityMatrix `apply_pauli_y` and `apply_hadamard` are outside the modelled core. Y only moves cells and multiplies them by ±i. The Hadamard needs `sqrt`.
- `applyKrausOperators` and each channel's `apply`: they update a density matrix numerically. The noise model returns the list of channels it would apply, in order, instead of mutating the matrix.
- NaN parameters: they pass the channels' range checks in C++ and have no counterpart over `real`.
- The divisions in `fromT1`, `fromT2` and `applyIdleNoise`. The model requires non-zero divisors instead of producing infinities.
- The C++ `NoiseModel::toString`, which only formats numbers. Where text is modelled (the channel descriptions, the Python `__str__`), the number format is a parameter.
- Python `to_dict` hands out the model's own channel list, so a caller can mutate it. The model returns a value and does not capture this aliasing.
- The 32-bit overflow of `1 << i` from i = 31 on: when results are packed for more than 31 qubits, in the power `1 << i` that `QPE::build_circuit` gives the i-th controlled unitary, and in the `1 << p` that divides a QPE measurement. Packing, powers and divisors are modelled on unbounded integers.
- `Syndrome(n)` with a negative `n`, which makes `std::vector` throw `length_error`. The size is a `nat`.
- `applyGateNoise` with an empty qubit list reads `qubits[0]` out of range. The model requires a non-empty list.
- PyAlgorithms.GraphColoringOracleAccepts: requires non-negative vertices. Python would index a negative `v * num_colors + c` from the end of the bit list, or raise IndexError below −len. The oracle is a total predicate here, so neither behaviour is modelled.
- The qubit-range preconditions of the Clifford tableau and simulator (`q < n`, indices typed `nat`) replace out-of-range Eigen accesses that the C++ never checks. What such an access does is not modelled.
- A SAT literal 0 reads `input_bits[-1]` in Python and index −1 in C++. The model requires non-zero literals.
- CoreInterface's state-analysis getters: purity, entropy, fidelity, tomography and the fixed tables of `getStateExpectationValues`. They are numeric or return constants, and only their surrounding bookkeeping is modelled.
- `create_phase_rotation_unitary` and the other QPE unitary factories: they are numeric or stubs.
- UnionFindDecoders.UnionFindDecoder.Decode: proves that close violations share a cluster and that only violations are clustered. It does not prove that the clusters are exactly the connected components of the "at most d apart" relation.
- CoreInterfaces.CoreInterface.ExecuteToStep: after a failed call, the stored error message is not stated.
- CoreInterfaces.CoreInterface.ExecuteFull: states only the outcome, the state, the cursor and the counter, not the stored error message or the summaries.

## Findings

| source | as written | input that shows it | evidently intended | confidence | as-written member | corrected member |
|---|---|---|---|---|---|---|
| libomniq-core/src/simulators/clifford/CliffordSimulator.cpp:43-54 | `rowsum` sets the sign to `(phase % 4) / 2` with C++'s truncating `%`, so a negative phase gives −1 | on two qubits, H(0), S(0), CNOT(0, 1), H(0), then `measure(0)` with drawn bit 0: the phase is −2 and row 1's sign becomes −1 | the remainder taken in [0, 4), so every sign stays 0 or 1 | not executed | CliffordTableau.MeasureCanLeaveNegativeSign | CliffordTableau.MeasureFixedKeepsBinary |
| libomniq-core/src/debugger/ExecutionEngine.cpp:61-72 | `stepForward` always appends to the history, even after `stepBackward` | three handled gates; forward, back, forward, forward, forward, back ends at step 2 holding the state after one gate | overwrite the history from the current step onwards | not executed | ExecutionEngines.StaleHistoryAfterStepBack | ExecutionEngines.TracksPreserved |
| libomniq-core/src/common/DensityMatrix.cpp:164-196 | the nested loops of `apply_pauli_x` and `apply_cnot` swap every cell pair twice, so both are the identity | one qubit in the initial state \|0⟩⟨0\|: X should give \|1⟩⟨1\|, but the matrix is unchanged | swap each pair once: ρ ↦ X ρ X and CNOT ρ CNOT | not executed | DensityMatrices.DoubleSwapMissesGate | DensityMatrices.PauliXConjTwice |
| libomniq-core/src/common/QuantumStates.cpp:131-146 | `partialTranspose` swaps each block entry twice and returns its input | the two-qubit matrix with a single 1 at (3, 0): the transpose has its 1 at (1, 2) | swap each pair once | not executed | QuantumStates.AsWrittenMissesTranspose | QuantumStates.PartialTransposeFirstTwice |
| libomniq-core/src/common/QuantumStates.cpp:102-118 | `calculateNegativity` takes the eigenvalues of `partialTranspose(ρ, 0, 2)`, which is ρ itself, so every density matrix gets negativity 0, up to rounding | the Bell state (\|00⟩ + \|11⟩)/√2: its eigenvalues are 1, 0, 0, 0, so the negativity is 0, although its partial transpose has eigenvalue −1/2 and negativity 1/2 | the negativity of the transpose on the first qubit | not executed | QuantumStates.AsWrittenSeesNoEntanglement | QuantumStates.CalculateNegativityCorrected |
| libomniq-core/src/common/QuantumStates.cpp:309-324 | `isEntangled` tests the eigenvalues of ρ itself for one below −10⁻¹², so no density matrix is reported entangled | the same Bell state is reported not entangled | the Peres–Horodecki test on the transpose on the first qubit | not executed | QuantumStates.AsWrittenSeesNoEntanglement | QuantumStates.IsEntangledCorrected |
| omniq-debugger/src/CoreInterface.cpp:415-431 | `importCircuit` calls `reset`, which only rewinds the cursor (omniq-debugger/src/QuantumBackend.cpp:262), so the three seed gates of `createCircuit` stay in front of the imported ones | importing a document with no gates leaves H, CNOT, H in the circuit | start the imported circuit empty | not executed | CoreInterfaces.ImportKeepsSeedGates | CoreInterfaces.CoreInterface.ImportCircuitCorrected |
| omniq-debugger/src/CoreInterface.cpp:446-451 | a CP record is decoded without its target, so its second qubit is −1, and executing it always throws | any record of type "CP" | read the target of CP records as for CNOT | not executed | CoreInterfaces.ImportedCpNeverRuns | CoreInterfaces.ImportedCpRuns |
| omniq-debugger/src/CoreInterface.cpp:127-131 | `resetExecution` sets only the interface counter back to 0 | after stepping to a cursor of 2, `executeStep(1)` runs gate 2 on the evolved state | rewind the circuit's cursor and state with the counter | not executed | CoreInterfaces.ResetLeavesCursor | CoreInterfaces.ResetAlignsCursor |
| libomniq-core/src/common/DensityMatrix.cpp:275-283 | `set_matrix` checks the row count and the length of row 0 only | the one-qubit matrix [[1, 0], [1]] is accepted | reject any row of the wrong length, as the matrix constructor does | not executed | DensityMatrices.SetMatrixAcceptsRagged | DensityMatrices.DensityMatrix.SetMatrix |
| libomniq-core/src/modules/algorithms/QPE.cpp:76-100 | `execute_with_measurements` runs `execute()` each shot, which applies build_circuit's circuit to a (p + e)-qubit state; its last gate, `QFTGate(p, true)`, throws invalid_argument because the state does not have p qubits (lines 145-148), so every call throws | any QPE (p, e ≥ 1) with `num_shots = 1` | apply the inverse QFT to the p precision qubits of the full state and return one estimate per shot | not executed | Qpe.Qpe.ExecuteWithMeasurements | Qpe.Qpe.ExecuteWithMeasurementsCorrected |
