# Brickwork circuits, partitions and result combiners of quantum-HPC

quantum-HPC is a collection of Qiskit scripts that build brickwork circuits of 4 to 60
qubits, cut 60-qubit circuits into 30-qubit halves (or put two halves side by side),
hand the circuits to a simulator, and merge what comes back. This project models the
bookkeeping those scripts do around the simulator calls, and proves what it produces.

- **Circuits** (`circuit.dfy`). A circuit is a qubit count and the ordered list of the
  instructions Qiskit records in `qc.data`: H, RX/RY/RZ with an angle, CX, a CX called
  with two lists of qubits (recorded as called), and the single marker that stands for
  one `measure_all()`. `Circuits.Circuit` is the mutable `QuantumCircuit`. Its `Append`
  accepts only instructions whose qubits lie inside the circuit, as Qiskit does.
- **Brickwork generators** (`pairs.dfy`, `schedule.dfy`, `brickwork.dfy`, `scripts.dfy`,
  `thirty.dfy`). Every layer appends a single-qubit block, then the pair list chosen by
  `layer % 2`. Some generators then append a measure step.
  - The single-qubit block is either `qc.h(range(n))` or a decoded schedule of
    `('h', q)` / `('rx', a, q)` tuples.
  - The schedule tuples come in two field orders, angle-first and qubit-first. Both are
    decoded exactly as the `if/elif` chains of the scripts read them, including the
    errors Python or Qiskit raise.
  - The pairs come from staggered pair lists, a stride-2 selection over a flat list, or
    a stride-2 selection over a list of lists.
- **Partitioners** (`partition.dfy`, `partition_scripts.dfy`). Every cutter walks the
  parent's instruction list once and maps each qubit through a rule. It keeps an
  instruction exactly when all its qubits map, and appends it relabelled. The rules are:
  `create_sub_circuit`'s index map, `extract_subcircuit`'s range, and the two halves of
  `split_into_subcircuits`. Also modelled:
  - `combine_circuits`, which places circuits side by side with an index shift;
  - `split_circuit`, which slices by position;
  - the position-indexed `create_sub_circuit` of sixty-part13.py.
- **Result combiners** (`counts.dfy`, `kron.dfy`, `dispatch.dfy`). Counts dicts are kept
  as their entry lists in insertion order. Modelled:
  - the same-key merges;
  - the Cartesian combiner of combine.py, with its `load_counts` and the rows
    `save_combined_counts` writes;
  - the `np.kron` index structure of `combine_results`, over a generic element type;
  - which circuit the counts run and the statevector run receive.

Inputs of the scripts that come from outside become parameters: the angles `thirty-bw.py`
samples, the rows a CSV reader yields, and the dicts a simulator returns. The simulator,
file writing and plotting are outside the model.

## Model

| member | source | states |
|---|---|---|
| Circuits.Relabel | sixty-part14.py:72 | `append(operation, qargs)` with other qubits keeps the gate and its parameters and takes exactly the given qubits |
| Circuits.RelabelIdentity | sixty-part14.py:72 | appending an instruction's operation with its own qubits gives back that instruction |
| Circuits.Range | sixty-part14.py:106-107 | `range(lo, hi)` has hi - lo elements, element i being lo + i |
| Circuits.MeasureAll | sixty-part7.py:16 | the marker that stands for one `measure_all()`: it names every qubit 0 .. n-1 of the circuit as measured |
| Circuits.MeasureEach | sixty-part7.py:16 | the per-qubit measurements `measure_all()` records, one per qubit lo .. hi-1, in qubit order |
| Circuits.HRange | sixty-part14.py:56-57 | H on qubits lo .. hi-1 in index order, one per qubit |
| Circuits.CXOps | sixty-part14.py:42-43 | one CX per pair of the list, in list order, with control and target as listed |
| Circuits.AllInRangeAppend | sixty-part14.py:42-46 | two instruction lists inside an n-qubit circuit stay inside it when concatenated |
| Circuits.CountAppend | sixty-bw2.py:38-59 | gate counts of a concatenation add up |
| Circuits.CountHRange | sixty-part7.py:9 | `qc.h(range)` adds hi - lo H gates and no gate of another kind |
| Circuits.CountCXOps | sixty-part7.py:11-15 | a pair list adds one CX per pair and no gate of another kind |
| Circuits.Circuit.constructor | sixty-part7.py:7 | `QuantumCircuit(n)` is an empty circuit of n qubits |
| Circuits.Circuit.Append | sixty-part14.py:72 | an instruction inside the circuit is added at the end; nothing else changes |
| Circuits.Circuit.MeasureAllQubits | sixty-part14.py:73 | `measure_all()` adds the measure step over all n qubits at the end |
| Pairs.StaggeredPairs | sixty-bw2.py:33-35 | `[(i, i+1) for i in range(start, stop, 2)]`: as many pairs as the range has steps, pair k being (start+2k, start+2k+1) |
| Pairs.StaggeredPairsInRange | sixty-part9.py:15-20 | with stop below n, every qubit of every pair is below n |
| Pairs.StaggeredPairsDisjoint | sixty-part9.py:15-20 | no two pairs of one layer share a qubit |
| Pairs.StaggeredPairsSnoc | sixty-part7.py:11-12 | one more iteration of the `range(start, stop, 2)` loop adds the pair (i, i+1) at the end |
| Pairs.StaggeredPairsSplit | sixty-part7.py:11-15 | the pair list splits at any aligned index into the pairs before and after it |
| Pairs.StrideSnoc | Four-Qubit3.py:33-38 | one more step of `for i in range(p, len(xs), 2)` appends xs[i] |
| Pairs.StridePrefix | Four-Qubit3.py:33-38 | the stride selection of a list is that of a prefix followed by that of the rest |
| Pairs.StrideAt | Four-Qubit3.py:33-38 | the stride selection from p has as many elements as `range(p, len, 2)`, element k being xs[p + 2k] |
| Pairs.CouplingRowShape | sixty-part4.py:31 | the row of i holds exactly the pairs (i, j) with j from the start to n-1, in increasing order |
| Pairs.CouplingRowsShape | sixty-part4.py:31 | the rows from i hold exactly the pairs i <= a < b < n, strictly increasing, n(n-1)/2-style count |
| Pairs.CouplingMapComplete | sixty-part4.py:31 | `coupling_map` lists every pair i < j < n once, has no self-loop, and holds n(n-1)/2 entries |
| Pairs.SixtyQubitCouplingMap | sixty-part4.py:31 | the 60-qubit coupling map holds 1770 pairs |
| Schedules.QubitArg | sixty-bw2.py:42 | Qiskit takes a qubit argument exactly when it is an int in -n .. n-1, and then the qubit it indexes, counting a negative int from the end; a float is refused |
| Schedules.DecodeEntry | sixty-bw2.py:40-48 | one pass of the `if/elif` chain appends at most one gate, on a qubit inside the circuit, or raises |
| Schedules.DecodeSchedule | sixty-bw2.py:40-48 | a pass over the schedule appends at most one gate per entry, all inside the circuit, or stops at the first error |
| Schedules.DecodeAppend | sixty-bw2.py:40-48 | decoding a concatenation succeeds exactly when both parts decode, and then yields the two gate lists in order |
| Schedules.DecodePrefixStep | sixty-bw2.py:40-48 | one more entry either raises its own error or appends its gates to those decoded so far |
| Schedules.AngleFirstTable | sixty-bw2.py:18-31 | an angle-first table of m rows holds 5m entries |
| Schedules.QubitFirstTable | sixty-bw5.py:15-27 | a qubit-first table of m rows holds 5m entries |
| Schedules.TableOps | sixty-bw2.py:18-31 | a table of m rows means 5m gates |
| Schedules.DecodeSingle | sixty-bw2.py:40-48 | a one-entry schedule decodes like its entry |
| Schedules.DecodeEach | sixty-bw2.py:40-48 | a schedule whose entries each decode to one known gate decodes to exactly those gates in order |
| Schedules.DecodeAngleFirstRow | sixty-bw2.py:41-48 | an angle-first row read angle-first is h, rx, rz, ry, rx on its five qubits |
| Schedules.DecodeQubitFirstRow | sixty-bw5.py:38-45 | a qubit-first row read qubit-first is the same five gates |
| Schedules.DecodeAngleFirstTable | sixty-bw2.py:40-48 | an angle-first table that fits the circuit, read angle-first, means the gates of its rows |
| Schedules.DecodeQubitFirstTable | sixty-bw5.py:37-45 | a qubit-first table that fits the circuit, read qubit-first, means the gates of its rows |
| Schedules.LayoutsAgree | sixty-bw5.py:38-45 | each layout read with its own field order appends the same gates in the same order |
| Schedules.TableOpsCover | sixty-bw2.py:18-31 | gate k of a table acts on qubit k alone, with kinds cycling h, rx, rz, ry, rx: every qubit is covered once |
| Schedules.RowOpsCount | sixty-bw2.py:18-31 | a row holds one h, two rx, one rz and one ry |
| Schedules.TableOpsCount | sixty-bw2.py:18-31 | a table of m rows holds m times a row's gates of each kind |
| Schedules.QubitFirstReadOfAngleFirstFails | thirty-bw.py:17-22 | an angle-first table read qubit-first raises at its first rotation, whose qubit slot holds a float |
| Schedules.FirstRowFails | thirty-bw.py:36-39 | row 0 read qubit-first: the h decodes, then the first rx raises |
| Schedules.FailurePropagates | thirty-bw.py:33-43 | the first error of a schedule is the error of any longer schedule beginning with it |
| ScheduleTables.SampledAngleFirst | thirty-bw.py:16-23 | the pre-sampled table has 30 entries |
| ScheduleTables.SixtySchedulesAgree | sixty-bw5.py:15-27 | sixty-bw2.py's angle-first and sixty-bw5.py's qubit-first schedules decode to the same 60 gates |
| ScheduleTables.ThirtySchedule | sixty-part14.py:14-21 | the 30-entry qubit-first schedule decodes to h, rx, rz, ry, rx on qubits 0..29 once each |
| ScheduleTables.FiveSchedule | sixty-bw3.py:13-16 | the five-entry schedule decodes to five gates on qubits 0..4 of the 60-qubit circuit |
| ScheduleTables.PlotSchedule | thirty-bw-plot4.py:18-24 | the 25-entry schedule decodes to four full rows and then h 20, rx 21, rz 22, ry 28, rx 29 |
| ScheduleTables.FourSchedule | Four-Qubit3.py:12-14 | the four-entry schedule decodes to H(0), RX(1), RZ(2), RY(3) |
| ScheduleTables.SampledScheduleRejected | thirty-bw.py:17-22 | whatever the sampled angles, reading the table qubit-first raises |
| ScheduleTables.SampledScheduleIntended | thirty-bw.py:16-23 | read angle-first, the sampled table means six rows of gates on qubits 0..29 |
| ScheduleTables.PlotScheduleCoverage | thirty-bw-plot4.py:18-24 | the 25 gates cover exactly qubits 0..22, 28 and 29: qubits 23..27 get no single-qubit gate |
| Brickwork.LayersStep | sixty-bw2.py:38-56 | one more layer appends the single-qubit block and the pair block of its parity |
| Brickwork.LayersLength | sixty-bw2.py:38-56 | L layers hold L single-qubit blocks, ceil(L/2) even blocks and floor(L/2) odd blocks |
| Brickwork.LayersCount | sixty-bw2.py:38-56 | the same count holds for the gates of every kind |
| Brickwork.LayersCountStep | sixty-bw2.py:38-56 | one more layer adds the count of its single-qubit block and of the pair block of its parity |
| Brickwork.LayersInRange | sixty-bw2.py:38-56 | if the three blocks stay inside the circuit, so does every layer |
| Brickwork.LayersPrefix | sixty-bw2.py:38 | the first l layers of a longer run are a prefix of it |
| Brickwork.LayerBlock | sixty-bw2.py:38-56 | layer l occupies its own stretch of the output: the single-qubit block, then the pairs of l's parity |
| Brickwork.LayersRepeat | thirty-bw.py:33-43 | every layer starts with the same single-qubit block: the schedule, and any sampled angle, is reused by each layer |
| Brickwork.LayersMembers | sixty-bw2.py:38-56 | every instruction comes from one of the three blocks |
| Brickwork.StaggeredCXInRange | sixty-part7.py:11-15 | the staggered CX of `range(p, n - 1, 2)` stay inside an n-qubit circuit |
| Brickwork.HBrickworkCount | sixty-part7.py:8-15 | the H/CX brickwork holds n H per layer, StepCount(0, n-1) CX per even layer, StepCount(1, n-1) per odd layer, and nothing else |
| Brickwork.HBrickworkLength | sixty-part7.py:8-15 | its length is the sum of those counts |
| Brickwork.HBrickworkInRange | sixty-part7.py:8-15 | every index it uses is below n |
| Brickwork.ApplyHAll | sixty-part7.py:9 | `qc.h(range(n))` appends one H per qubit in index order |
| Brickwork.ApplyStaggered | sixty-part7.py:11-15 | the staggered loop appends CX(i, i+1) for each i of `range(p, n - 1, 2)` |
| Brickwork.ApplyPairs | sixty-part14.py:42-43 | `for q1, q2 in pairs: qc.cx(q1, q2)` appends one CX per pair, in order |
| Brickwork.ApplyStride | Four-Qubit3.py:33-38 | the stride loop appends CX for pairs p, p+2, ... of the flat list |
| Brickwork.StrideBroadcastAt | thirty-bw2-wcsv7.py:43-48 | the stride loop over a list of lists makes one call per selected list, call k on list p + 2k, each with the first two pairs of that list |
| Brickwork.ApplyStrideBroadcast | thirty-bw2-wcsv7.py:43-48 | that loop appends exactly those calls |
| Brickwork.ApplySchedule | sixty-bw2.py:40-48 | the schedule loop succeeds exactly when the schedule decodes, and then appends the decoded gates; on an error the script stops |
| Brickwork.GenerateHBrickwork | sixty-part7.py:6-17 | `generate_brickwork_circuit(n, L)` yields L layers of H on every qubit and the staggered CX by parity, then the measure step where the script adds one |
| Brickwork.GenerateScheduled | sixty-bw5.py:35-52 | a schedule-driven generator succeeds exactly when there are no layers or the schedule decodes, and yields L layers of the decoded gates and the pair list of each parity, then the measure step |
| Brickwork.GenerateStrided | Four-Qubit3.py:20-41 | the flat-list generator yields the same layering with the even-position pairs on even layers and the odd-position pairs on odd layers |
| Brickwork.GenerateStridedBroadcast | thirty-bw2-wcsv7.py:30-51 | the list-of-lists generator yields the same layering with the broadcast calls of each parity |
| BrickworkScripts.PairListInRange | sixty-bw2.py:33-35 | `[(i, i+1) for i in range(s, t, 2)]` with t <= n lies inside an n-qubit circuit |
| BrickworkScripts.SixtyPairLists | sixty-bw2.py:33-35 | the 60-qubit lists hold 30 and 29 pairs, all below 60 |
| BrickworkScripts.ThirtyPairLists | thirty-bw.py:27-30 | the 30-qubit lists hold 15 and 14 pairs, all below 30 |
| BrickworkScripts.ScheduledCounts | sixty-bw2.py:38-56 | L layers hold L times the schedule's gates of each kind, plus ceil(L/2) even and floor(L/2) odd pair lists of CX |
| BrickworkScripts.SixtyBw2Generate | sixty-bw2.py:10-64 | `generate_data` yields 7 layers of the decoded 60-gate schedule and the 30/29 pair lists by parity, then the measure step; it draws nothing at random |
| BrickworkScripts.SixtyBw5Generate | sixty-bw5.py:7-57 | the qubit-first `generate_data` yields the same instruction list as sixty-bw2.py |
| BrickworkScripts.ScheduledMeasuredCount | sixty-bw2.py:38-59 | with the trailing measure step the counts are those of the layers plus one measure step |
| BrickworkScripts.SixtyScheduledCounts | sixty-bw2.py:38-59 | 84 h, 168 rx, 84 rz, 84 ry and 207 CX, 627 gates, then exactly one measure step |
| BrickworkScripts.ScheduledMeasuredShape | sixty-bw2.py:38-59 | a measured generator's length is the layers' length plus one, its last instruction is the measure step, and every index is inside the circuit |
| BrickworkScripts.ScheduledShape | sixty-bw2.py:38-56 | the layers' length follows from the three blocks, and every index is inside the circuit |
| BrickworkScripts.SixtyScheduledShape | sixty-bw2.py:38-59 | 628 instructions, all on qubits below 60 |
| BrickworkInstances.SixtyBw3Generate | sixty-bw3.py:5-49 | `generate_data` yields 7 layers of the five-entry schedule and the 60-qubit pair lists, then the measure step |
| BrickworkInstances.FiveOnSixtyShape | sixty-bw3.py:23-44 | 242 gates and the measure step, all below 60 |
| BrickworkInstances.FiveOnSixtyCounts | sixty-bw3.py:23-44 | 7 h, 14 rx, 7 rz, 7 ry and 207 CX, then one measure step |
| BrickworkInstances.FiveOnSixtyCoverage | sixty-bw3.py:13-20 | qubits 5..59 receive only CX gates |
| BrickworkInstances.ScheduledCoverage | sixty-bw3.py:23-44 | every gate other than CX and the measure step comes from the schedule |
| BrickworkInstances.SixtyPart9Generate | sixty-part9.py:5-23 | `generate_60_qubit_circuit` yields the 60-qubit H/CX brickwork of 5 layers, then the measure step |
| BrickworkInstances.FiveQubitGenerate | five-partion2.py:6-29 | `generate_brickwork_circuit_5_qubits` yields the 5-qubit brickwork of 3 layers, then the measure step; qc1 and qc2 of lines 32-33 are therefore equal |
| BrickworkInstances.SixtyBrickworkShape | sixty-part7.py:63 | the 60-qubit brickwork of 5 layers holds 300 H and 148 CX, 448 gates, all below 60 |
| BrickworkInstances.FiveBrickworkShape | five-partion2.py:13-25 | 15 H and 6 CX, (0,1),(2,3) on layers 0 and 2 and (1,2),(3,4) on layer 1, all below 5 |
| BrickworkInstances.FourBwGenerate | four-bw-statevec-v1.py:8-46 | `generate_brickwork_circuit` yields 2 layers of the 4-entry schedule with the even and odd lists, and no measure step |
| BrickworkInstances.FourBwShape | four-bw-statevec-v1.py:20-46 | the schedule, CX(0,1), CX(2,3), the schedule, CX(1,2): 11 gates, all below 4 |
| BrickworkInstances.FourRingGenerate | Four_Qubit_BW.py:5-40 | the module-level loop of Four_Qubit_BW.py and Four-Qubit3.py yields 3 layers with the stride-selected pairs, then the measure step |
| BrickworkInstances.FourRingShape | Four-Qubit3.py:15-41 | even layers take CX(0,1), CX(2,3), odd layers CX(1,2), CX(3,0): 18 gates, then the measure step |
| ThirtyQubitScripts.GenerateDataPartition | sixty-part14.py:6-48 | `generate_data_partition` never reads its argument: every call yields the same 30-qubit circuit |
| ThirtyQubitScripts.PartitionShape | partition-sixty.py:30-47 | 312 gates, then the measure step, all below 30 |
| ThirtyQubitScripts.PartitionCounts | split-sixty.py:27-44 | 42 h, 84 rx, 42 rz, 42 ry and 102 CX, then one measure step |
| ThirtyQubitScripts.PlotGenerate | thirty-bw-plot4.py:10-56 | `generate_data` yields 7 layers of the 25-gate schedule and the 15/14 pair lists, then the measure step |
| ThirtyQubitScripts.StatevecV4Generate | thirty-bw2-statevec-v4.py:7-43 | the module-level loop yields the same 7 layers and no measure step |
| ThirtyQubitScripts.PlotSingleCounts | thirty-bw-plot4.py:18-24 | the 25-gate schedule holds 5 h, 10 rx, 5 rz and 5 ry |
| ThirtyQubitScripts.PlotShape | thirty-bw2-wcsv11.py:29-47 | the 7 layers hold 277 gates, all below 30 |
| ThirtyQubitScripts.PlotCounts | thirty-bw2-wcsv11.py:29-47 | 35 h, 70 rx, 35 rz, 35 ry and 102 CX, and no measure step inside the layers |
| ThirtyQubitScripts.ThirtyListsFit | thirty-bw2-wcsv7.py:25-27 | each element of `two_qubit_gates` is a list of at least two pairs below 30 |
| ThirtyQubitScripts.BroadcastGenerate | thirty-bw2-wcsv7.py:9-56 | `generate_data` yields 7 layers of the schedule and one broadcast call per layer, then the measure step |
| ThirtyQubitScripts.BroadcastUsesOnePairOfPairs | thirty-bw2-statevec.py:33-38 | even layers make the single call cx((0,1),(2,3)) and odd layers cx((1,2),(3,4)); no other pair is ever passed |
| ThirtyQubitScripts.BroadcastCounts | thirty-bw2-statevec.py:20-38 | 182 instructions: 175 single-qubit gates, 7 broadcast calls and no plain CX |
| ThirtyQubitScripts.SampledGenerate | thirty-bw.py:33-51 | the module-level loop over the pre-sampled table raises, whatever the angles |
| ThirtyQubitScripts.SampledGenerateIntended | thirty-bw.py:16-51 | read as laid out, the table gives 7 layers of the sampled rows and the 15/14 pair lists, then the measure step |
| Dispatch.StripFinalMeasures | thirty-bw2-wcsv11.py:65 | the result is a prefix of the list that does not end in a measure step, and everything cut off is a measure step |
| Dispatch.StripIdempotent | thirty-bw2-wcsv11.py:65 | stripping twice strips nothing more |
| Dispatch.StripAddedMeasure | thirty-bw2-wcsv7.py:65 | a list without measure steps, followed by `measure_all`'s marker, strips back to the list |
| Dispatch.NoMeasureStep | thirty-bw2-wcsv7.py:65 | a list that counts no measure step holds none |
| Dispatch.RunInputs | thirty-bw2-wcsv11.py:57-71 | the counts run receives the circuit as built; the statevector run receives a prefix of it that does not end in a measure step, only measure steps being left off |
| Dispatch.Wcsv11Dispatch | thirty-bw2-wcsv11.py:57-71 | thirty-bw2-wcsv11.py's statevector run gets exactly the layers thirty-bw2-statevec-v4.py builds; its counts run keeps the measure step |
| Dispatch.Wcsv7Dispatch | thirty-bw2-wcsv7.py:58-70 | thirty-bw2-wcsv7.py's statevector run gets the broadcast layers without the measure step, which thirty-bw2-statevec.py:41-49 keeps |
| Partition.IndexMap | sixty-part14.py:67 | `{original: new for new, original in enumerate(qubits)}` maps exactly the listed qubits, each to a position where it is listed |
| Partition.IndexMapLast | sixty-part15.py:19 | a qubit listed twice maps to its last position: the later entry overwrites |
| Partition.IndexMapBijection | sixty-part14.py:67 | for a list without repeats `qubits[k]` maps to k, and different qubits map to different positions |
| Partition.Project | sixty-part14.py:69-72 | an instruction is kept exactly when all its qubits map, with the same gate and as many qubits |
| Partition.ProjectQubits | sixty-part14.py:69 | its i-th qubit is the mapped i-th qubit of the parent instruction |
| Partition.SomesAppend | sixty-part14.py:68-72 | dropping the skipped entries of a concatenation drops them part by part |
| Partition.SomesSound | sixty-part14.py:71-72 | every kept value is the value of one of the entries |
| Partition.SomesComplete | sixty-part14.py:71-72 | every present entry is kept |
| Partition.SomesAllSome | sixty-part14.py:71-72 | with every entry present, all are kept in order |
| Partition.SomesAllNone | sixty-part14.py:71-72 | with no entry present, nothing is kept |
| Partition.Projections | sixty-part14.py:68-69 | each parent instruction in order, as the sub-circuit would receive it, or None |
| Partition.ProjectionsAppend | sixty-part14.py:68-69 | projecting a concatenation projects its parts |
| Partition.RestrictAppend | sixty-part14.py:68-72 | cutting distributes over concatenation, so kept instructions keep their parent order |
| Partition.RestrictStep | sixty-part14.py:68-72 | one more parent instruction adds its relabelled form or nothing |
| Partition.RestrictSound | sixty-part14.py:68-72 | everything in the sub-circuit is the relabelling of a parent instruction whose qubits all map |
| Partition.RestrictComplete | sixty-part14.py:68-72 | every parent instruction whose qubits all map reaches the sub-circuit |
| Partition.RestrictAllKept | sixty-part14.py:68-72 | when every instruction maps, the sub-circuit is the parent relabelled one for one |
| Partition.RestrictAllDropped | sixty-part14.py:68-72 | when none maps, the sub-circuit receives nothing |
| Partition.RestrictSameOn | sixty-part7.py:25-27 | two rules that agree on every qubit of the circuit cut it the same way |
| Partition.RestrictInRange | sixty-part14.py:72 | the kept instructions use only indices of the sub-circuit |
| Partition.IndexMapOfRange | sixty-part14.py:67 | the index map of `range(lo, hi)` is `q in range(lo, hi)` followed by `q - lo` |
| Partition.IndexMapOfRangeAt | sixty-part14.py:67 | the same, for one qubit |
| Partition.IndexMapRangeInside | sixty-part14.py:67 | a qubit inside the range maps to q - lo |
| Partition.IndexMapRangeOutside | sixty-part14.py:67 | a qubit outside the range is not mapped |
| Partition.ExtractIsSubCircuit | sixty-part7.py:25-27 | `extract_subcircuit(c, s, e)` keeps and relabels exactly what `create_sub_circuit(c, list(range(s, e)))` does |
| Partition.SplitIsExtract | divide-sixty2.py:29-37 | the two loops of `split_into_subcircuits` are `extract_subcircuit` on [0, b) and on [b, n) |
| Partition.AppendRestricted | sixty-part14.py:68-72 | the cutter's loop appends exactly the kept instructions, relabelled, after what the sub-circuit held |
| Partition.CreateSubCircuit | sixty-part14.py:63-74 | `create_sub_circuit` yields a circuit of len(qubits) qubits holding the kept instructions in parent order, then the measure step; the parent is only read |
| Partition.ExtractSubcircuit | sixty-part7.py:19-30 | `extract_subcircuit` yields end - start qubits holding the instructions wholly inside [start, end) moved down by start, then the measure step |
| Partition.SplitIntoSubcircuits | divide-sixty2.py:23-39 | qc1 receives the instructions wholly below 30 unchanged, qc2 those wholly at or above 30 moved down by 30 |
| Partition.Shift | sixty-part4.py:24 | moving an instruction up by d keeps its gate and adds d to each qubit |
| Partition.Shifted | sixty-part4.py:24 | every instruction of the list moved up by d, in order |
| Partition.Compose | sixty-part4.py:23-24 | `compose(other, qubits=range(d, d + m), inplace=True)` appends the other circuit's instructions moved up by d |
| Partition.CombineCircuits | sixty-part4.py:19-25 | `combine_circuits` has n1 + n2 qubits, circuit1's instructions unchanged, then circuit2's moved up by n1 |
| Partition.CombineNoCrossing | sixty-part4.py:23-24 | the combined count is the sum of the two, and no instruction touches both parts |
| Partition.RestrictUnshift | sixty-part4.py:24 | cutting out the block a circuit was shifted into gives the circuit back |
| Partition.RestrictBelowStart | sixty-part7.py:26 | a circuit below lo loses every instruction to `extract_subcircuit(lo, hi)` |
| Partition.RestrictShiftedPastEnd | sixty-part7.py:26 | a circuit shifted to hi or above loses every instruction to `extract_subcircuit(lo, hi)` |
| Partition.ShiftedZero | sixty-part4.py:23 | composing at offset 0 leaves the instructions as they are |
| Partition.CombineThenExtract | sixty-part4.py:19-25 | cutting a combined circuit at the seam gives back both parts: extraction undoes `combine_circuits` |
| Partition.CombineThenExtractLow | sixty-part4.py:23 | the lower part comes back |
| Partition.CombineThenExtractHigh | sixty-part4.py:24 | the upper part comes back |
| Partition.SecondPartKept | sixty-part4.py:24 | the shifted part survives its own range |
| Partition.FirstPartDropped | sixty-part4.py:23 | the lower part loses every instruction to the upper range |
| PartitionScripts.RestrictHInside | sixty-part7.py:26-27 | H gates inside [start, end) are all kept and moved down by start |
| PartitionScripts.RestrictHOutside | sixty-part7.py:26 | H gates outside [start, end) are all dropped |
| PartitionScripts.RestrictStaggeredInside | sixty-part7.py:26-27 | staggered pairs inside [start, end) are all kept and moved down |
| PartitionScripts.RestrictStaggeredOutside | sixty-part7.py:26 | staggered pairs wholly outside [start, end) are all dropped |
| PartitionScripts.MeasureAllDropped | sixty-part7.py:26 | the marker for the parent's `measure_all()` is dropped by any range that misses one of its qubits |
| PartitionScripts.MeasureEachInside | sixty-part7.py:26-27 | per-qubit measurements inside [start, end) are all kept and moved down by start |
| PartitionScripts.MeasureEachOutside | sixty-part7.py:26 | per-qubit measurements outside [start, end) are all dropped |
| PartitionScripts.MeasureEachKept | sixty-part7.py:25-27 | of the per-qubit measurements of an n-qubit `measure_all()`, a cut to [start, end) keeps exactly those of its own qubits, moved down by start: the cutters would not drop them as they drop the marker |
| PartitionScripts.RestrictAppend3 | sixty-part7.py:25-27 | cutting distributes over three concatenated parts |
| PartitionScripts.RestrictLayers | sixty-part7.py:25-27 | cutting a layered circuit gives the same layering of the cut blocks |
| PartitionScripts.RestrictLayerStep | sixty-part7.py:25-27 | the cut of one more layer is one more layer of the cut blocks |
| PartitionScripts.EvenPairsHalves | sixty-part7.py:11-12 | the even-layer pairs of 2m qubits are the pairs of [0, m), then those of [m, 2m) |
| PartitionScripts.OddPairsHalves | sixty-part7.py:14-15 | the odd-layer pairs of 2m qubits are those of [0, m), the crossing pair (m-1, m), then those of [m, 2m) |
| PartitionScripts.RestrictJoin | sixty-part7.py:25-27 | the cut of a concatenation is the concatenation of the cuts |
| PartitionScripts.HalfHLow | sixty-part7.py:66 | the lower half keeps the H gates of qubits 0..m-1 |
| PartitionScripts.HalfHHigh | sixty-part7.py:67 | the upper half keeps the H gates of qubits m..2m-1, moved down to 0..m-1 |
| PartitionScripts.HalfEvenLow | sixty-part7.py:66 | on even layers the lower half keeps its own pairs |
| PartitionScripts.HalfEvenHigh | sixty-part7.py:67 | on even layers the upper half keeps its own pairs, moved down by m |
| PartitionScripts.LowPairsKept | sixty-part7.py:66 | pairs below m survive the lower range unchanged |
| PartitionScripts.HighPairsDropped | sixty-part7.py:66 | pairs at or above m are all dropped by the lower range |
| PartitionScripts.EvenBlockHalves | sixty-part7.py:11-12 | the even CX block splits at the middle |
| PartitionScripts.OddBlockHalves | sixty-part7.py:14-15 | the odd CX block splits at the middle around the crossing CX(m-1, m) |
| PartitionScripts.CrossingDropped | sixty-part7.py:66-67 | the crossing CX(m-1, m) is dropped by both halves |
| PartitionScripts.HalfOddLow | sixty-part7.py:66 | on odd layers the lower half keeps its own pairs |
| PartitionScripts.HalfOddHigh | sixty-part7.py:67 | on odd layers the upper half keeps its own pairs, moved down by m |
| PartitionScripts.RestrictJoin3 | sixty-part7.py:25-27 | the cut of three concatenated parts is the concatenation of their cuts |
| PartitionScripts.BrickworkHalves | sixty-part7.py:63-67 | cutting the 2m-qubit brickwork at the middle gives the m-qubit brickwork on both sides; only the crossing pair of each odd layer is lost |
| PartitionScripts.MeasuredBrickworkHalves | sixty-part7.py:63-67 | with the parent's measure marker too: neither half keeps the marker |
| PartitionScripts.SixtyHalvesKept | sixty-part7.py:63-67 | each half keeps 150 H and 73 CX: together all 300 H and 146 of the 148 CX, the two lost being CX(29, 30) of layers 1 and 3 |
| PartitionScripts.ThirtyBrickworkCounts | sixty-part4.py:51-52 | `generate_brickwork_circuit(30, 5)` holds 150 H and 73 CX |
| PartitionScripts.SixtyPartSevenSplit | sixty-part7.py:63-67 | both extracted halves are the 30-qubit brickwork of 5 layers followed by their own measure marker, the parent's marker being dropped |
| PartitionScripts.BridgePairs | sixty-part14.py:58-59 | m pairs, each joining a lower-half qubit k to the upper-half qubit k + m |
| PartitionScripts.ApplyHRange | sixty-part14.py:56-57 | `for i in range(lo, hi): qc.h(i)` appends H(lo .. hi-1) in order |
| PartitionScripts.ApplyBridgeDown | sixty-part14.py:58-59 | `for i in range(m, 2m): qc.cx(i - m, i)` appends the bridge pairs in order |
| PartitionScripts.ApplyBridgeUp | divide-sixty2.py:17-18 | `for i in range(m): qc.cx(i, i + m)` appends the same bridge pairs |
| PartitionScripts.CreateSixtyQubitCircuit | sixty-part15.py:5-13 | `create_60_qubit_circuit` yields 60 qubits: H(0..29), the 30 bridge CX, then the measure step |
| PartitionScripts.GenerateAndSplitCircuit | divide-sixty.py:5-21 | `generate_and_split_circuit` yields 60 qubits: H(0..59), the 30 bridge CX, then the measure step |
| PartitionScripts.CrossOpsShape | sixty-part13.py:5-13 | H on 0..m-1 in order, then CX(k, k+m), each crossing the halves, then the measure step last, all below 2m |
| PartitionScripts.BridgeDropped | sixty-part14.py:110-111 | no bridge CX lies wholly inside either half |
| PartitionScripts.CrossLow | sixty-part14.py:110 | the lower half of the fixture keeps exactly H(0..m-1), the parent's measure marker being dropped |
| PartitionScripts.CrossHigh | sixty-part14.py:111 | the upper half keeps nothing: every CX and the parent's measure marker are dropped |
| PartitionScripts.SubCircuitsOfCross | sixty-part15.py:46-51 | `create_sub_circuit` on the halves drops every CX and the parent's measure marker: the first gets the m H gates, the second no gate |
| PartitionScripts.SplitCrossCircuit | sixty-part14.py:103-111 | qc1 is H(0..29) then its own measure marker, qc2 only its own measure marker |
| PartitionScripts.DivideOpsParts | divide-sixty2.py:5-21 | H on both halves, the bridge, the measure step, in that order |
| PartitionScripts.DivideInRange | divide-sixty2.py:5-21 | every index is below 2m |
| PartitionScripts.DivideLow | divide-sixty2.py:29-31 | the lower range keeps exactly H(0..m-1); the parent's measure marker is dropped |
| PartitionScripts.DivideHigh | divide-sixty2.py:34-37 | the upper range keeps H(m..2m-1), moved down to H(0..m-1); the parent's measure marker is dropped |
| PartitionScripts.DivideHalves | divide-sixty2.py:29-37 | every CX crosses the halves and lands in neither, nor does the measure marker; each half receives H on its own qubits 0..m-1 |
| PartitionScripts.DivideSixtyTwoSplit | divide-sixty2.py:55-56 | both halves are H(0..29), with no measure marker |
| PartitionScripts.SplitAt | sixty-part12.py:17-18 | `circuit[:k]` and `circuit[k:]` concatenate back to the circuit, the first clamped to k instructions |
| PartitionScripts.PositionSplitOfCross | sixty-part12.py:15-19 | slicing at 30 cuts by position: the first slice is the H gates, the second the bridge and the measure step, whose qubits still reach up to 59 |
| PartitionScripts.SixtyPartTwelveSplit | sixty-part12.py:32-33 | the two slices of the fixture |
| PartitionScripts.Picked | sixty-part13.py:18-19 | one parent instruction per listed position, in list order |
| PartitionScripts.CreateSubCircuitByPosition | sixty-part13.py:15-21 | it succeeds exactly when every listed position names an instruction that fits the sub-circuit, and then holds those instructions and the measure step |
| PartitionScripts.PositionPickOfCross | sixty-part13.py:37-42 | `range(30)` picks the H gates by the coincidence that they come first; `range(30, 60)` picks bridge CX whose qubits do not fit, so that call fails |
| PartitionScripts.SixtyPartThirteenSplit | sixty-part13.py:34-42 | the first sub-circuit is H(0..29) and its measure step; the second raises |
| PartitionScripts.HBrickworkTouching | sixty-part4.py:7-17 | every brickwork instruction names at least one qubit |
| PartitionScripts.BrickworksSideBySide | sixty-part4.py:51-55 | cutting either half out of two combined brickworks gives the brickwork back: none is lost, none couples the halves |
| PartitionScripts.CombineTwoBrickworks | sixty-part4.py:19-25 | the combined circuit has 2n qubits and twice the instructions, and each half cuts back to the n-qubit brickwork |
| PartitionScripts.SixtyPartFourCombine | sixty-part4.py:51-55 | 446 instructions on 60 qubits, with no CX(29, 30); each 30-qubit half is the 5-layer brickwork |
| PartitionScripts.ThirtyBrickworkLength | sixty-part4.py:51 | `generate_brickwork_circuit(30, 5)` holds 223 instructions |
| Counts.KeySetAppend | combine.py:15-19 | the keys of a concatenation are those of both parts |
| Counts.Absent | sixty-part7.py:47 | `d.get(k, 0)` of a missing key is 0 |
| Counts.GetAt | partition-sixty.py:68 | entry i of a dict is found by its key, which no earlier entry holds |
| Counts.SumForDistinct | partition-sixty.py:68-72 | for a dict, summing what it pairs with k is looking k up |
| Counts.TotalAppend | sixty-part7.py:45-50 | totals of concatenated entry lists add |
| Counts.SumForAppend | combine.py:15-19 | per-key sums of concatenated entry lists add |
| Counts.PutSpec | combine.py:11 | `d[k] = v` reads back v at k, changes no other key, keeps existing keys in place, and appends a new key last |
| Counts.AddSpec | partition-sixty.py:69-72 | adding v at k raises k by v, leaves every other key alone and raises the total by v |
| Counts.AccumulateSpec | combine.py:15-19 | adding a list of entries: every key grows by all the values paired with it, the keys are the union, the total grows by the list's total |
| Counts.AccumulateAppend | combine.py:16-19 | adding two lists one after the other is adding their concatenation |
| Counts.AccumulateStep | partition-sixty.py:68-72 | one loop iteration adds one entry and leaves the rest of the work |
| Counts.MergeSpec | partition-sixty.py:65-73 | merging two dicts: the keys are the union, each reads the sum of its two lookups, the total is the sum of the totals, the first dict's keys keep their places |
| Counts.MergeSymmetric | sixty-part6.py:46-52 | both argument orders give the same keys with the same counts |
| Counts.MergeKeepsWidth | partition-sixty.py:93-102 | keys of one width keep that width after a merge: 30-bit keys stay 30 bits |
| Counts.CombineCounts | sixty-part7.py:44-50 | `combine_counts` yields a fresh dict with the union of keys, each reading counts1.get(k,0) + counts2.get(k,0); the total is the sum of the totals |
| Counts.MergeCounts | partition-sixty.py:65-73 | `merge_counts` and `combine_results` of five-partion2.py:50-57 yield the same merge from a copy of counts1 |
| Counts.MergeExample | partition-sixty.py:68-72 | {"00": 3, "01": 2} merged with {"00": 5} is {"00": 8, "01": 2} |
| Counts.MergeIfBothPresent | partition-sixty.py:101-105 | the merge happens exactly when both results are present and non-empty |
| Counts.CombineUnguarded | sixty-part6.py:42-44 | `combine_counts` on the results of `run_simulation` fails exactly when either is None (sixty-part6.py:75, sixty-part7.py:74) |
| Counts.CombineCartesian | combine.py:14-20 | the combined dict holds exactly the concatenations of a key of each input, each with the sum of count1 + count2 over the pairs giving it; at most the product of the sizes |
| Counts.CartesianAccumulated | combine.py:14-20 | the same, for the function the loops compute |
| Counts.CartesianOuterStep | combine.py:16 | one outer iteration adds the row of the current key and leaves the remaining rows |
| Counts.CartesianInnerStep | combine.py:17-19 | one inner iteration adds count1 + count2 at state1 + state2 |
| Counts.PairingsKeys | combine.py:18 | the keys produced are exactly the concatenations s1 + s2, partition 1's bits first |
| Counts.RowKeys | combine.py:17-18 | one row's keys are the key of counts1 followed by each key of counts2 |
| Counts.PairingsTotal | combine.py:19 | the total is len(counts2)·Total(counts1) + len(counts1)·Total(counts2): counts are added, not multiplied, so it is not the number of shots |
| Counts.RowTotal | combine.py:19 | one row's total is len(counts2)·count1 + Total(counts2) |
| Counts.CartesianInjective | combine.py:15-19 | when the keys of counts1 share one length, the combined count of s1 + s2 is exactly counts1[s1] + counts2[s2] |
| Counts.ConcatDiffers | combine.py:18 | concatenations whose first parts have one length are equal only part by part |
| Counts.RowSumMatch | combine.py:17-19 | in the row of s1, only s2 gives s1 + s2 |
| Counts.RowSumOtherSecond | combine.py:17-19 | a row without s2 gives nothing to s1 + s2 |
| Counts.RowSumOther | combine.py:17-19 | the row of another key of the same length gives nothing to s1 + s2 |
| Counts.PairingsSumOther | combine.py:16-19 | rows of keys other than s1 give nothing to s1 + s2 |
| Counts.CartesianExample | combine.py:14-20 | {"0": 1} combined with {"1": 1} is exactly {"01": 2} |
| Counts.DistinctAppend | combine.py:15-19 | two dicts with disjoint keys concatenate to a dict |
| Counts.AccumulateFresh | combine.py:15-19 | adding entries whose keys are all new appends them in order |
| Counts.RowDistinct | combine.py:17-18 | one row repeats no key |
| Counts.PairingsDistinct | combine.py:16-18 | when the keys of counts1 share one length, no pairing repeats a key |
| Counts.CartesianTable | combine.py:14-20 | in that case the combined dict is the table of pairings itself: len(counts1)·len(counts2) keys in loop order, empty when either input is |
| Counts.ShowNat | combine.py:27 | `str(n)` of n >= 0 is a string of decimal digits |
| Counts.DigitsOfShow | combine.py:27 | the digits `str(n)` writes read back as n |
| Counts.ParseNegative | combine.py:11 | `int` of a minus sign before digits is the negated value |
| Counts.ShowNegative | combine.py:27 | `str(n)` of a negative n is a minus sign before `str(-n)` |
| Counts.ParseShow | combine.py:11 | a count written by `str` reads back through `int` as the same integer |
| Counts.LoadCounts | combine.py:4-12 | `load_counts` fails exactly when the header is missing or a data row is malformed, naming the first bad row; otherwise every state holds the count of the last row naming it |
| Counts.LoadStep | combine.py:9-11 | one more well-formed row gives its state its count and keeps every other state |
| Counts.CountRows | combine.py:22-27 | `save_combined_counts` writes a header and one row per entry |
| Counts.LoadSavedCounts | combine.py:4-27 | writing a dict with `save_combined_counts` and loading it with `load_counts` gives every state its count again, and no other state |
| Products.Row | combine.py:17-18 | `[f(x, y) for y in ys]` holds f(x, ys[j]) at j |
| Products.OuterLength | divide-sixty2.py:51 | the outer product has len(xs)·len(ys) entries |
| Products.OuterEntry | divide-sixty.py:39 | entry i·len(ys) + j is f(xs[i], ys[j]) |
| Products.OuterAt | divide-sixty.py:39 | the same for every i and j: the first argument supplies the high-order part of the index |
| Products.OuterMembers | divide-sixty.py:39 | every entry is f of an element of each list |
| Products.Pow2 | divide-sixty2.py:51 | an n-qubit state vector has a positive length 2^n |
| Products.Pow2Add | divide-sixty2.py:51 | 2^a·2^b = 2^(a+b) |
| Products.CombinedStateVector | divide-sixty2.py:49-52 | `combine_results` of vectors of lengths 2^a and 2^b has length 2^(a+b), with sv1[i]·sv2[j] at i·len(sv2) + j |
| Products.CombinedEntry | divide-sixty.py:37-40 | one entry of that product |
| Products.CombinedLength | divide-sixty.py:37-40 | its length |

## Left out

- Simulator calls: `AerSimulator`, `transpile`, `run`, `assemble`, `execute`, `get_counts`, `get_statevector`, GPU options and the IBM provider are calls into Qiskit. Counts dicts and state vectors enter the model as parameters. This includes the `None` that `run_simulation_and_get_counts` returns on a `QiskitError` (sixty-part4.py:36-38). Only its consequence for `combine_counts` (Counts.CombineUnguarded) is modelled.
- sixty-bw2.py:68 calls an undefined `IBMQ`, so the 33-qubit guard at sixty-bw2.py:76-79 is never reached. It is not modelled.
- Gate semantics: no gate is a matrix. Angles are copied, never computed on.
- Amplitude arithmetic: `np.kron` is modelled over a generic element type with a given product. Only its length and index structure are proved. Normalisation and Qiskit's basis ordering are not claimed.
- Random angles: `random_angle` (thirty-bw.py:12-13) becomes a parameter, the six rows of sampled angles.
- The probability normalisation at thirty-bw-plot4.py:80-81 (floating point), all plotting, `print`/`draw`, argparse and `os.makedirs`.
- CSV and pandas I/O: `load_counts` is modelled on the rows the CSV reader yields, and `save_combined_counts` on the rows it writes. Quoting, newlines and file handling are not modelled, and neither are the other CSV writers.
- Counts.ParseInt: models `int()` on an optional sign and decimal digits only. Python's `int` also accepts surrounding whitespace and underscores between digits; no written count contains them.
- The `compose`-based `split_circuit` of sixty-part6.py:20-32 and the `truncate` split of divide-sixty.py:23-28: their meaning lies inside Qiskit.
- Qubit objects: the filters at sixty-part7.py:26, sixty-part14.py:69 and divide-sixty2.py:30 compare Qiskit `Qubit` objects against integers. The model uses the integer indices the code intends. The index map of sixty-part14.py:67 and sixty-part15.py:19 is likewise keyed by integers.
- Measurements: `measure_all()` is modelled by one marker over all the circuit's qubits. Qiskit records a barrier and then one measurement per qubit, each writing its own classical bit. The qubit filters of sixty-part7.py:26, sixty-part14.py:69, sixty-part15.py:21-23 and divide-sixty2.py:30 and divide-sixty2.py:35, read with integer indices, drop the barrier and the marker. They would keep every per-qubit measurement inside their range (PartitionScripts.MeasureEachKept). They would then `append` it with qubits only, and Qiskit raises on that, because a measurement needs a classical bit. Classical bits, and that failure, are not modelled. The members below are therefore statements about the marker, not about the programs' per-qubit measurements:
- PartitionScripts.MeasureAllDropped: the parent's marker is dropped. Its per-qubit measurements inside the range would be kept and their `append` would raise.
- PartitionScripts.MeasuredBrickworkHalves: neither half keeps the parent's marker. Each half would keep the 30 per-qubit measurements on its own qubits, and the cut would raise at the first of them.
- PartitionScripts.SixtyPartSevenSplit: each half ends in its own marker because the parent's marker is dropped. With per-qubit measurements, `extract_subcircuit` would raise before its own `measure_all()`.
- PartitionScripts.CrossLow: keeps exactly H(0..m-1) of the marker form. The per-qubit measurements on 0..m-1 would also be kept, and their `append` would raise.
- PartitionScripts.CrossHigh: keeps nothing of the marker form. The per-qubit measurements on m..2m-1 would be kept, and their `append` would raise.
- PartitionScripts.SubCircuitsOfCross: the parent's measurement is dropped only as a marker. Both sub-circuits would receive per-qubit measurements and raise.
- PartitionScripts.SplitCrossCircuit: qc2 holding only its own marker rests on the parent's marker being dropped. sixty-part14.py:110-111 would raise in both calls.
- PartitionScripts.DivideLow: holds of the marker. The per-qubit measurements on 0..29 would pass `all(q < 30 ...)`, and their `append` would raise.
- PartitionScripts.DivideHigh: holds of the marker. The per-qubit measurements on 30..59 would pass `all(q >= 30 ...)`, and their `append` would raise.
- PartitionScripts.DivideHalves: each half receiving only H gates rests on the marker. The per-qubit measurements would reach both halves.
- PartitionScripts.DivideSixtyTwoSplit: "no measure marker" holds of the marker. With per-qubit measurements, `split_into_subcircuits` would raise at the first measurement on qubit 0.
- PartitionScripts.CreateSubCircuitByPosition: sixty-part13.py:19 appends a whole `CircuitInstruction` together with the list `qubits`. The model keeps the picked instruction's own qubits and does not model how Qiskit reconciles the two argument lists.
- Broadcasting: the call `qc.cx(pair, pair)` of thirty-bw2-wcsv7.py:45 and thirty-bw2-statevec.py:35 is recorded as one broadcast instruction with its qubit lists. Qiskit's expansion into separate CX gates is not modelled.
- Dispatch.StripFinalMeasures: Qiskit's `remove_final_measurements` is modelled as dropping the trailing measure steps of the instruction list. Removing measurements followed only by barriers, and dropping idle classical registers, are not modelled.
- plot.py, play-one-mil-v2.py, play-one-mil-v3.py, quantum_simulation.py, test.py, gpusupp.py, gpuSupp2.py, random-unitary.py and sixty-part11.py are not part of this model. They hold plotting, subprocess loops, GPU library calls, backend probing and a fixed Bell circuit.

## Findings

| source | as written | input that shows it | evidently intended | confidence | as-written member | corrected member |
|---|---|---|---|---|---|---|
| thirty-bw.py:17-22, 38-43 | the table is laid out ('rx', angle, qubit), but the loop decodes `qc.rx(gate[2], gate[1])`, passing the sampled float as the qubit | any six rows of sampled angles: the first 'rx' entry, ('rx', a, 1), raises | decode angle-first, as the layout and the other 30-qubit scripts do | high, not executed | ScheduleTables.SampledScheduleRejected | ScheduleTables.SampledScheduleIntended |
| thirty-bw2-wcsv7.py:43-48 | the stride-2 loops run over `two_qubit_gates`, a list of two pair lists, so each layer makes one `cx` call on two whole pairs | `generate_data()`: even layers call cx((0,1),(2,3)), odd layers cx((1,2),(3,4)), and 13 of the 15 even pairs and 12 of the 14 odd pairs are never used | one CX per pair of the list chosen by parity, as in thirty-bw2-wcsv11.py:42-47 | high, not executed | ThirtyQubitScripts.BroadcastUsesOnePairOfPairs | ThirtyQubitScripts.PlotGenerate |
| sixty-part13.py:18-19 | `full_circuit.data[qubit]` picks the instruction at position `qubit`, not the instructions on that qubit | `create_sub_circuit(full_circuit, list(range(30, 60)))`: positions 30..59 hold the bridge CX, whose qubits do not fit a 30-qubit circuit, so the call fails | keep the instructions whose qubits all lie in the list, relabelled, as in sixty-part14.py:63-74 | high, not executed | PartitionScripts.PositionPickOfCross | PartitionScripts.SubCircuitsOfCross |
