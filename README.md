# circuite logic engine — a Dafny model

This project models the digital-logic evaluation engine of *circuite*, a small
logic-circuit editor (`src/main.rs`). The engine holds a table of components:
inputs, outputs, OR/AND/XOR/NOT gates and a multi-output placeholder. It also
holds a map that records which driver pin feeds each consumer pin. A tick
evaluates the circuit on demand. Every output pulls its value backwards
through the connections until it reaches inputs or unconnected pins. Gates
apply their truth tables over a three-valued signal (`Low`, `High`, `Invalid`)
along the way. Each output stores the value it settles to, and a per-tick
cache remembers the values inputs have emitted.

Modules:

- `Signal` holds the signal and the truth tables.
- `Circuit` holds pins, handles, component kinds and arities, the
  per-component accessors, and the faults that abort an operation.
- `Evaluation` specifies the recursive evaluator (`rev_sim`, `nsim`,
  `sim_pin`, `binary_sim`) and the tick as functions. Each function threads
  the component table and the cache, and returns either a result or the
  fault that aborted it.
- `Behaviour` states what each branch of the evaluator does.
- `Frame` shows that a tick does not depend on the outputs' previous values,
  and that ticking twice changes nothing the first tick did not change.
- `Caching` characterises what ends up in the cache.
- `Engine` holds the `Simulator` class: its fields and its methods. The
  evaluator methods are proved to compute exactly what the `Evaluation`
  functions specify.
- `Scenarios` contains the repository's unit-test circuits and a few more,
  evaluated end to end.

Modelling decisions:

- **Panics become faults.** A Rust panic is returned as a `Fault` value:
  - a failed `assert_eq!`;
  - an out-of-range index;
  - a second `borrow_mut` of a `RefCell`;
  - a `panic!` on the wrong component kind.
- **Borrows.** The `RefCell`s around components are replaced by the set
  `borrowed` of components on the current evaluation path. Re-entering one of
  them aborts, as the second `borrow_mut` does.
- **Termination.** The set of unborrowed components is the termination
  measure.

Three behaviours of the code are easy to miss:

- **Cycles.** A combinational cycle never recurses forever, but how it ends
  depends on the cache:
  - Usually the evaluation comes back to a component that is already
    borrowed, and the tick aborts (`Scenarios.SelfLoopAborts`).
  - The cache is consulted before any borrow. So when the pin that closes the
    loop is already cached, the loop is answered from the cache and the tick
    settles. An input records itself under the reading gate's pin 1, so this
    happens when the loop's driver pin is a binary gate's pin 1
    (`Scenarios.CachedLoopSettles`).
- **No short-circuit.** OR and AND do not short-circuit around `Invalid`. The
  `Invalid` arm is matched first, so any `Invalid` operand makes the result
  `Invalid` (`Signal.Or`, `Signal.And`).
- **Output order matters.** The order of the outputs can change the settled
  values:
  - Input components record their value under the key `sim_pin` hands them.
    That key is pin 1 of the reading gate, not the driver pin.
  - A NOT gate's output pin under the layout's numbering is pin 1.
  - So a second output fed from that pin finds a cached value and is never
    written (`Scenarios.FanOutFromPinOne`, `Scenarios.FanOutOrderMatters`).
  - The unit test wires the NOT gate's output as pin 2, which avoids the
    collision (`Scenarios.FanOutFromPinTwo`).

## Model

| member | source | states |
|---|---|---|
| Signal.Or | src/main.rs:372-376 | An `Invalid` operand gives `Invalid`. Otherwise the result is `High` exactly when either operand is `High`. |
| Signal.And | src/main.rs:389-393 | An `Invalid` operand gives `Invalid`. Otherwise the result is `High` exactly when both operands are `High`. |
| Signal.Xor | src/main.rs:406-411 | An `Invalid` operand gives `Invalid`. Otherwise the result is `High` exactly when the operands differ. |
| Signal.Not | src/main.rs:419-423 | `Invalid` stays `Invalid`. Otherwise the result is `High` exactly when the operand is `Low`. |
| Circuit.ToPinIdentifies | src/main.rs:171-175 | Two pins made from handles are equal exactly when they come from the same handle with the same pin number. |
| Circuit.InputLen | src/main.rs:189-200 | At most two input pins. None exactly for an input or a placeholder, two exactly for OR, AND and XOR (so one for an output or a NOT gate). |
| Circuit.OutputLen | src/main.rs:202-213 | No output pins exactly for an output or a placeholder declaring none. One exactly for an input, a gate, or a placeholder declaring one. A placeholder has as many as it declares. |
| Circuit.InputPin | src/main.rs:171-175 | The `k`-th input pin belongs to the handle's component. Its index is below the input count. |
| Circuit.OutputPin | src/element.rs:326 | Output pins are numbered after the inputs, in `[InputLen, InputLen + OutputLen)`. |
| Circuit.PinNumbering | src/element.rs:326 | No input pin equals an output pin. Distinct input positions get distinct pins, and so do distinct output positions; on each side pin numbers follow the positions' order. |
| Circuit.PinCoverage | src/element.rs:326 | Every pin number below `InputLen + OutputLen` is the input pin of that position or, past the inputs, the output pin at position `n - InputLen`. |
| Circuit.Label | src/main.rs:244-254 | Every label has at least five characters. A label ends in " gate" exactly when the component is a gate. |
| Circuit.LabelNamesKind | src/main.rs:244-254 | Two components share a label exactly when they are of the same kind. |
| Circuit.SetPin | src/main.rs:215-220 | Succeeds exactly on an output and stores the new value. Any other component faults, whatever the pin. |
| Circuit.GetPin | src/main.rs:222-227 | Succeeds exactly on an input and returns its value. Any other component faults. |
| Circuit.SetInput | src/main.rs:229-234 | Succeeds exactly on an input and stores the new value. Any other component faults. |
| Circuit.InspectPin | src/main.rs:236-242 | Succeeds exactly on inputs and outputs, returning their stored state. Gates and the placeholder fault. |
| Circuit.SetInputThenRead | src/main.rs:229-242 | A value stored with `SetInput` is read back by `InspectPin` and `GetPin`, on any pin. |
| Circuit.SetPinThenInspect | src/main.rs:215-242 | A value stored in an output with `SetPin` is read back by `InspectPin`. |
| Evaluation.OperandPins | src/main.rs:362-366 | A gate reads exactly its own input pins `0 .. InputLen-1`, in order. |
| Evaluation.GateOutput | src/main.rs:372-423 | A gate's result is `Invalid` exactly when some operand is. Otherwise it is `High` exactly when: some operand is `High` (OR), both are (AND), they differ (XOR), the operand is `Low` (NOT). |
| Evaluation.RevSim | src/main.rs:326-427 | A completed evaluation keeps every component's kind. Only outputs' settled values can change. |
| Evaluation.Nsim | src/main.rs:301-324 | Returns one value per operand pin, keeps every component's kind, and gives `Invalid` for every unconnected pin. |
| Evaluation.Operand | src/main.rs:308-318 | An unconnected operand is `Invalid` and evaluates nothing. |
| Evaluation.SimPin | src/main.rs:256-270 | A completed lookup keeps every component's kind. |
| Evaluation.BinarySim | src/main.rs:272-298 | A completed lookup keeps every component's kind. |
| Evaluation.TickStep | src/main.rs:517-527 | Evaluating one output keeps every component's kind. |
| Evaluation.TickPrefix | src/main.rs:514-528 | A tick over the first `n` outputs keeps every component's kind. |
| Evaluation.Tick | src/main.rs:514-528 | A whole tick keeps every component's kind. |
| Evaluation.NsimPrefixPanics | src/main.rs:306-321 | Once resolving some operands aborts, resolving all of them aborts with the same fault. |
| Evaluation.TickPrefixPanics | src/main.rs:517-527 | Once a tick aborts on one output, the whole tick aborts with the same fault. |
| Evaluation.TickPrefixAdvance | src/main.rs:517-527 | Evaluating one more output either ends the whole tick with a fault (an index past the table, or the evaluation's own fault) or extends the tick's prefix by the table and cache that evaluation leaves. |
| Evaluation.TickStepPanics | src/main.rs:517-527 | A tick whose evaluation of one output aborts ends with exactly that fault. |
| Behaviour.InputEvaluation | src/main.rs:328-332 | An input returns its stored value and records it in the cache under the key it was handed. Nothing else changes. |
| Behaviour.OutputEvaluation | src/main.rs:333-360 | An output must be asked for pin 0. Undriven, it gives `Invalid`. On a cache hit it returns the cached value without storing it. A driver past the table or on the path aborts. Otherwise the output stores the value it returns. |
| Behaviour.CustomEvaluation | src/main.rs:425 | The placeholder answers `Low` and changes nothing. |
| Behaviour.GateIgnoresRequestedPin | src/main.rs:361-424 | A gate's answer depends neither on the pin it is asked for nor on the key it is handed. |
| Behaviour.GateEvaluation | src/main.rs:361-424 | A gate applies its truth table to its operands in pin order. Faults propagate, and an `Invalid` operand makes the result `Invalid`. |
| Behaviour.UnconnectedOperand | src/main.rs:309-315 | A gate with an unconnected operand pin, when its evaluation completes, settles to `Invalid`. That the unconnected pin itself never aborts is `Evaluation.Operand`'s contract. |
| Behaviour.NsimUnconnected | src/main.rs:306-323 | When no operand is connected, every value is `Invalid` and the table and cache are untouched. |
| Behaviour.SimPinConsultsCacheFirst | src/main.rs:256-270 | A cached driver pin is answered from the cache, before any borrow. Otherwise a driver on the path or past the table aborts. |
| Behaviour.BinarySimAgreesWithNsim | src/main.rs:272-324 | The two-operand resolver returns `None` untouched when either pin is unconnected. Otherwise it agrees with the operand loop, value for value. |
| Frame.RevSimFrame | src/main.rs:326-427 | Two tables of the same shape evaluate alike: the same value, cache and fault, and the same writes to the same outputs. |
| Frame.NsimFrame | src/main.rs:301-324 | The same for resolving a list of operands. |
| Frame.OperandFrame | src/main.rs:308-318 | The same for one operand. |
| Frame.SimPinFrame | src/main.rs:256-270 | The same for one driver lookup. |
| Frame.TickPrefixFrame | src/main.rs:514-528 | The same for a tick over the first `n` outputs. |
| Frame.TickFrame | src/main.rs:514-528 | A tick's outcome does not depend on the outputs' previous settled values. |
| Frame.TickIdempotent | src/main.rs:514-528 | Ticking again with nothing changed reproduces the table the first tick left. |
| Caching.RevSimCaches | src/main.rs:326-360 | An evaluation removes no cache entry. Every entry it adds or overwrites is under the key handed in or a calling-side pin (an output's pin 0 or a gate's pin 1), and holds a value some input emits. |
| Caching.OutputCaches | src/main.rs:344-356 | An output's evaluation removes no cache entry. Every entry it adds or overwrites is under a calling-side pin, whatever key it was handed, and holds a value some input emits. |
| Caching.GateCaches | src/main.rs:256-270 | A gate's evaluation removes no cache entry. Every entry it adds or overwrites is under its own pin 1 or another calling-side pin, whatever key it was handed, and holds a value some input emits. |
| Caching.NsimCaches | src/main.rs:301-324 | Resolving operands keeps the same cache discipline. |
| Caching.SimPinCaches | src/main.rs:256-270 | A driver lookup keeps the same cache discipline. |
| Caching.TickPrefixCaches | src/main.rs:514-528 | After a tick over the first `n` outputs, every cache entry is under an output's pin 0 or a gate's pin 1 and holds a value some input emits. |
| Caching.TickCaches | src/main.rs:514-528 | The same after a whole tick. |
| Engine.RoleIndicesSound | src/main.rs:439-442 | Every index in the input (output) list is in the table and names an input (output). |
| Engine.RoleIndicesSorted | src/main.rs:439-442 | The list is strictly increasing, so it names each component at most once, in insertion order. |
| Engine.RoleIndicesComplete | src/main.rs:439-442 | Every input (output) of the table is in the list. |
| Engine.RoleIndicesLists | src/main.rs:468-479 | The list that inserting builds, one index per input (output) in table order, lists exactly the inputs (outputs) in increasing order. |
| Engine.RoleIndicesKeep | src/main.rs:486-505 | Changing components without changing which are inputs and which are outputs keeps both lists. |
| Engine.ShapeKeepsIndices | src/main.rs:514-528 | A table that only differs in the outputs' settled values has the same lists. |
| Engine.ValidTickCaches | src/main.rs:514-528 | A tick over the output list the table determines leaves only entries under an output's pin 0 or a gate's pin 1, each holding a value some input emits. |
| Engine.Simulator.ValidOutputsOnly | src/main.rs:439-442 | The output list of a valid simulator names output components only. |
| Engine.Simulator.constructor | src/main.rs:454-462 | A new simulator is empty and valid. |
| Engine.Simulator.GetComponent | src/main.rs:464-466 | Returns the component a handle refers to. A handle past the table faults. |
| Engine.Simulator.InsertComponent | src/main.rs:468-479 | Appends the component and returns its index. The index is added to the input or output list when the component is one. A valid simulator stays valid; nothing is required beforehand. |
| Engine.Simulator.Connect | src/main.rs:481-484 | Records the connection in both maps, overwriting earlier entries under the same keys. A valid simulator stays valid. |
| Engine.Simulator.SetPin | src/main.rs:486-491 | Overwrites an output's settled value. Any other component, or an index past the table, faults and changes nothing. A valid simulator stays valid. |
| Engine.Simulator.GetPin | src/main.rs:493-498 | Reads an input's value. Anything else faults. |
| Engine.Simulator.SetInput | src/main.rs:500-505 | Overwrites an input's value. Anything else, or an index past the table, faults and changes nothing. A valid simulator stays valid. |
| Engine.Simulator.InspectPin | src/main.rs:507-512 | Reads an input's or output's stored state. Anything else faults. |
| Engine.Simulator.RevSim | src/main.rs:326-427 | Leaves exactly the table, cache and result (or fault) that `Evaluation.RevSim` specifies. |
| Engine.Simulator.Nsim | src/main.rs:301-324 | Its loop leaves exactly what `Evaluation.Nsim` specifies. |
| Engine.Simulator.SimPin | src/main.rs:256-270 | Leaves exactly what `Evaluation.SimPin` specifies. |
| Engine.Simulator.BinarySim | src/main.rs:272-298 | Leaves exactly what `Evaluation.BinarySim` specifies. |
| Engine.Simulator.Tick | src/main.rs:514-528 | Its loop over the output list leaves exactly the table `Evaluation.Tick` specifies, or reports its fault, including an output index past the table. Every component keeps its kind, and a valid simulator stays valid. |
| Scenarios.TickTwo | src/main.rs:514-528 | A tick over two outputs evaluates the second on the table and cache the first left, unless the first aborts. |
| Scenarios.OutputStep | src/main.rs:344-356 | An output whose driver is neither cached nor on the path evaluates the driver with it borrowed, and stores the value it gets. |
| Scenarios.OperandFromInput | src/main.rs:256-270 | An operand driven by an uncached input reads the input's value and caches it under the reading gate's pin 1. |
| Scenarios.TwoInputOperands | src/main.rs:301-324 | The two-input test gate reads both inputs in pin order; the cache ends with the second value under the gate's pin 1. |
| Scenarios.BinaryGateCircuit | src/main.rs:535-668 | Two inputs wired into an OR, AND or XOR gate settle the output to the gate's truth table, whatever the output held before. |
| Scenarios.NotOfInput | src/main.rs:361-424 | A NOT gate fed by an uncached input answers the negated input on any pin, caching the input under its pin 1. |
| Scenarios.NotCircuit | src/main.rs:670-693 | The NOT test circuit settles its output to the negated input. |
| Scenarios.FanOutFirst | src/main.rs:514-528 | In the fan-out circuit, whichever output is evaluated first settles to the negated input and leaves the input cached under pin 1. |
| Scenarios.FanOutFromPinOne | src/main.rs:256-270 | Two outputs fed from a NOT gate's pin 1: the second output keeps its old value, because its driver pin was cached by the input. |
| Scenarios.FanOutOrderMatters | src/main.rs:514-528 | Listing the same two outputs in the other order settles the other one. The tick's result differs whenever either old value differs from the negated input. |
| Scenarios.FanOutSecondFromPinTwo | src/main.rs:344-356 | Fed from pin 2, the second output misses the cache, evaluates the NOT gate again and settles to the negated input. |
| Scenarios.FanOutFromPinTwo | src/main.rs:670-693 | Fed from pin 2, as the unit test wires it, both outputs settle to the negated input. |
| Scenarios.SelfLoopAborts | src/main.rs:256-270 | A NOT gate driving its own input aborts the tick, because the gate is borrowed twice. |
| Scenarios.CachedLoopOperands | src/main.rs:256-270 | An OR gate whose pin 1 is wired to itself reads its input, then finds pin 1 in the cache, where the input put it, and does not borrow itself again. |
| Scenarios.CachedLoopSettles | src/main.rs:256-270 | That loop does not abort: the tick settles the output to the input's value and leaves only the input cached under the gate's pin 1. |
| Scenarios.HalfConnectedOperands | src/main.rs:306-323 | The half-connected AND gate reads its input, then `Invalid` for its unconnected pin. |
| Scenarios.HalfConnectedAnd | src/main.rs:378-393 | An AND gate with only one operand connected settles its output to `Invalid`. |
| Scenarios.PlaceTwoInput | src/main.rs:537-543 | Inserting the unit tests' four components gives the expected table and output list. |
| Scenarios.BuildTwoInput | src/main.rs:537-547 | The inserted and connected unit-test circuit has the expected wiring. |
| Scenarios.SetTickInspect | src/main.rs:555-577 | Setting both inputs, ticking and inspecting the output returns the gate's truth table. |
| Scenarios.PlaceNot | src/main.rs:672-676 | Inserting the NOT test's three components gives the expected table and output list. |
| Scenarios.BuildNot | src/main.rs:672-679 | The NOT unit-test circuit has the expected table and wiring. |

## Left out

- OutputCaches: does not say which calling-side pin an entry lands under (its own pin 0 when it reads an input directly, a gate's pin 1 deeper down). The key handed to an output is not written as such, but it can coincide with a calling-side pin: an output at index 0 is handed `Pin(0, 0)` by a tick, which is its own pin 0.
- GateCaches: likewise does not exclude the key the gate was handed, because that key can itself be a calling-side pin the evaluation writes (a gate handed `Pin(0, 0)` that reads output 0).
- The `main` function and GUI event loop (src/main.rs:34-153). They are window and input handling around the engine.
- `Display` for `State` (src/main.rs:155-159). It is formatting only.
- The `eprintln!` warnings on unconnected pins. They are output only; the model returns the value the code returns after printing.
- `src/element.rs`, `src/render.rs` and `src/platform` are not part of this model. They lay out and draw the circuit.
- `Rc<RefCell<_>>` ownership. It is replaced by an index table and the set of components borrowed on the current path. Aliasing of the cells is not modelled.
- The `else { return Invalid }` arms after `nsim` (src/main.rs:368-370 and the like). They are unreachable, because `nsim` always returns `Some`; the model has no such branch.
- The table and cache after a fault. A Rust panic aborts the process, so the model only keeps the fault. Methods state nothing about the state after a fault beyond keeping its shape.
- Evaluation.RevSim: its own contract only says the shape is kept. The branch-by-branch behaviour is stated by the `Behaviour` lemmas and by `Engine.Simulator.RevSim`.
- Scenarios.TestOr, TestAnd, TestXor, TestNot and TestFanOutConnections: these restate the unit tests and `connect` fan-out as client code. Their assertions are checked in their bodies, not in contracts.
