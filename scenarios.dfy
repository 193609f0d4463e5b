/**
 * The repository's unit-test circuits, and a few more, evaluated end to end.
 */
module Scenarios {
  import opened Signal
  import opened Circuit
  import opened Evaluation
  import Behaviour
  import Engine

  /** Two inputs (0 and 1) into gate 2, whose pin 2 drives output 3, wired as the unit tests do. */
  function TwoInputWires(): (w: Wires)
  {
    map[Pin(2, 0) := Pin(0, 0), Pin(2, 1) := Pin(1, 0), Pin(3, 0) := Pin(2, 2)]
  }

  // Unfolding steps shared by the circuits below.

  /** A tick over one output is that output's step from an empty cache. */
  lemma TickOne(comps: seq<Component>, wires: Wires, o: nat)
    ensures Tick(comps, wires, [o]) == TickStep(comps, wires, o, map[])
  {
    assert TickPrefix(comps, wires, [o], 0) == Done((), comps, map[]);
  }

  /** A tick over two outputs runs the second step on what the first left. */
  lemma TickTwo(comps: seq<Component>, wires: Wires, o1: nat, o2: nat)
    ensures var first := TickStep(comps, wires, o1, map[]);
            Tick(comps, wires, [o1, o2]) ==
              if first.Panic? then Panic(first.fault) else TickStep(first.comps, wires, o2, first.cache)
  {
    assert TickPrefix(comps, wires, [o1, o2], 0) == Done((), comps, map[]);
    assert TickPrefix(comps, wires, [o1, o2], 1) == TickStep(comps, wires, o1, map[]);
  }

  /** An output whose driver pin is neither cached nor on the path evaluates the driver and stores the result. */
  lemma OutputStep(comps: seq<Component>, wires: Wires, o: nat, key: Pin, borrowed: set<nat>, cache: Cache)
    requires o < |comps| && o in borrowed && comps[o].Output?
    requires Pin(o, 0) in wires && wires[Pin(o, 0)] !in cache
    requires wires[Pin(o, 0)].component < |comps| && wires[Pin(o, 0)].component !in borrowed
    ensures var d := wires[Pin(o, 0)];
            var r := RevSim(comps, wires, d, Pin(o, 0), borrowed + {d.component}, cache);
            RevSim(comps, wires, Pin(o, 0), key, borrowed, cache) ==
              if r.Panic? then Panic(r.fault) else Done(r.value, r.comps[o := Output(r.value)], r.cache)
  {
  }

  /** An operand driven by an input that is neither cached nor on the path reads it, caching it under the gate's pin 1. */
  lemma OperandFromInput(comps: seq<Component>, wires: Wires, caller: nat, pin: Pin, borrowed: set<nat>, cache: Cache)
    requires pin in wires && wires[pin] !in cache
    requires wires[pin].component < |comps| && wires[pin].component !in borrowed
    requires comps[wires[pin].component].Input?
    ensures var s := comps[wires[pin].component].state;
            Operand(comps, wires, caller, pin, borrowed, cache) == Done(s, comps, cache[Pin(caller, 1) := s])
  {
    var d := wires[pin];
    assert SimPin(comps, wires, caller, d, borrowed, cache)
        == RevSim(comps, wires, d, Pin(caller, 1), borrowed + {d.component}, cache);
  }

  /** Resolving one operand. */
  lemma NsimOne(comps: seq<Component>, wires: Wires, caller: nat, p: Pin, borrowed: set<nat>, cache: Cache)
    ensures var r := Operand(comps, wires, caller, p, borrowed, cache);
            Nsim(comps, wires, caller, [p], borrowed, cache) ==
              if r.Panic? then Panic(r.fault) else Done([r.value], r.comps, r.cache)
  {
    assert [p][..0] == [];
    assert Nsim(comps, wires, caller, [], borrowed, cache) == Done([], comps, cache);
    var r := Operand(comps, wires, caller, p, borrowed, cache);
    if r.Done? {
      assert [] + [r.value] == [r.value];
    }
  }

  /** Resolving two operands: the first, then the second on what the first left. */
  lemma NsimTwo(comps: seq<Component>, wires: Wires, caller: nat, p: Pin, q: Pin, borrowed: set<nat>, cache: Cache)
    ensures var first := Nsim(comps, wires, caller, [p], borrowed, cache);
            first.Panic? ==> Nsim(comps, wires, caller, [p, q], borrowed, cache) == Panic(first.fault)
    ensures var first := Nsim(comps, wires, caller, [p], borrowed, cache);
            first.Done? ==>
              var r := Operand(first.comps, wires, caller, q, borrowed, first.cache);
              Nsim(comps, wires, caller, [p, q], borrowed, cache) ==
                if r.Panic? then Panic(r.fault) else Done(first.value + [r.value], r.comps, r.cache)
  {
    assert [p, q][..1] == [p];
  }

  /** The gate of the two-input circuit reads both inputs, in pin order, caching the second under its pin 1. */
  lemma TwoInputOperands(g: Component, a: State, b: State, prior: State)
    ensures Nsim([Input(a), Input(b), g, Output(prior)], TwoInputWires(), 2, [Pin(2, 0), Pin(2, 1)], {3, 2}, map[])
         == Done([a, b], [Input(a), Input(b), g, Output(prior)], map[Pin(2, 1) := b])
  {
    var comps := [Input(a), Input(b), g, Output(prior)];
    var wires := TwoInputWires();
    NsimTwo(comps, wires, 2, Pin(2, 0), Pin(2, 1), {3, 2}, map[]);
    NsimOne(comps, wires, 2, Pin(2, 0), {3, 2}, map[]);
    OperandFromInput(comps, wires, 2, Pin(2, 0), {3, 2}, map[]);
    OperandFromInput(comps, wires, 2, Pin(2, 1), {3, 2}, map[Pin(2, 1) := a]);
    assert [a] + [b] == [a, b];
  }

  /** A binary gate wired to two inputs settles its output to the gate's truth table, whatever the inputs hold. */
  lemma BinaryGateCircuit(g: Component, a: State, b: State, prior: State)
    requires g.OrGate? || g.AndGate? || g.XorGate?
    ensures var r := Tick([Input(a), Input(b), g, Output(prior)], TwoInputWires(), [3]);
            r.Done? && r.comps == [Input(a), Input(b), g, Output(GateOutput(g, [a, b]))]
  {
    var comps := [Input(a), Input(b), g, Output(prior)];
    var wires := TwoInputWires();
    assert {3} + {2} == {3, 2};
    TickOne(comps, wires, 3);
    OutputStep(comps, wires, 3, Pin(0, 0), {3}, map[]);
    Behaviour.GateEvaluation(comps, wires, Pin(2, 2), Pin(3, 0), {3, 2}, map[]);
    assert OperandPins(2, g) == [Pin(2, 0), Pin(2, 1)];
    TwoInputOperands(g, a, b, prior);
  }

  /** The NOT test's wiring: the gate's output is taken from pin 2. */
  function NotWires(): (w: Wires)
  {
    map[Pin(1, 0) := Pin(0, 0), Pin(2, 0) := Pin(1, 2)]
  }

  /**
   * A NOT gate at index 1 fed by an input at index 0 that is neither cached
   * nor on the path negates the input, whichever pin it is asked for; the
   * input is cached under the gate's pin 1.
   */
  lemma NotOfInput(comps: seq<Component>, wires: Wires, p: nat, key: Pin, a: State, borrowed: set<nat>, cache: Cache)
    requires |comps| >= 2 && comps[0] == Input(a) && comps[1] == NotGate
    requires Pin(1, 0) in wires && wires[Pin(1, 0)] == Pin(0, 0) && Pin(0, 0) !in cache
    requires 1 in borrowed && 0 !in borrowed
    ensures RevSim(comps, wires, Pin(1, p), key, borrowed, cache) == Done(Not(a), comps, cache[Pin(1, 1) := a])
  {
    Behaviour.GateEvaluation(comps, wires, Pin(1, p), key, borrowed, cache);
    assert OperandPins(1, NotGate) == [Pin(1, 0)];
    NsimOne(comps, wires, 1, Pin(1, 0), borrowed, cache);
    OperandFromInput(comps, wires, 1, Pin(1, 0), borrowed, cache);
  }

  /** A NOT gate wired as in the unit test settles its output to the negated input. */
  lemma NotCircuit(a: State, prior: State)
    ensures var r := Tick([Input(a), NotGate, Output(prior)], NotWires(), [2]);
            r.Done? && r.comps == [Input(a), NotGate, Output(Not(a))]
  {
    var comps := [Input(a), NotGate, Output(prior)];
    var wires := NotWires();
    assert {2} + {1} == {2, 1};
    TickOne(comps, wires, 2);
    OutputStep(comps, wires, 2, Pin(0, 0), {2}, map[]);
    NotOfInput(comps, wires, 2, Pin(2, 0), a, {2, 1}, map[]);
  }

  /** One input, a NOT gate, and two outputs both fed from the NOT gate's pin `p`. */
  function FanOutWires(p: nat): (w: Wires)
  {
    map[Pin(1, 0) := Pin(0, 0), Pin(2, 0) := Pin(1, p), Pin(3, 0) := Pin(1, p)]
  }

  /** In the fan-out circuit, the first output evaluated settles to the negated input, leaving the input cached under pin 1. */
  lemma FanOutFirst(a: State, p2: State, p3: State, p: nat, o: nat)
    requires o == 2 || o == 3
    ensures var comps := [Input(a), NotGate, Output(p2), Output(p3)];
            TickStep(comps, FanOutWires(p), o, map[]) == Done((), comps[o := Output(Not(a))], map[Pin(1, 1) := a])
  {
    var comps := [Input(a), NotGate, Output(p2), Output(p3)];
    var wires := FanOutWires(p);
    assert {o} + {1} == {o, 1};
    OutputStep(comps, wires, o, Pin(0, 0), {o}, map[]);
    NotOfInput(comps, wires, p, Pin(o, 0), a, {o, 1}, map[]);
  }

  /**
   * Fed from pin 1 (the NOT gate's output pin under the numbering the layout
   * uses), the second output finds that pin already in the cache, because
   * the input recorded its own value there when the NOT gate read it. So the
   * second output is never written: it keeps its previous value, while the
   * first settles to the negated input.
   */
  lemma FanOutFromPinOne(a: State, p2: State, p3: State)
    ensures var r := Tick([Input(a), NotGate, Output(p2), Output(p3)], FanOutWires(1), [2, 3]);
            r.Done? && r.comps == [Input(a), NotGate, Output(Not(a)), Output(p3)]
  {
    var comps := [Input(a), NotGate, Output(p2), Output(p3)];
    TickTwo(comps, FanOutWires(1), 2, 3);
    FanOutFirst(a, p2, p3, 1, 2);
  }

  /**
   * The same circuit ticked with its outputs in the other order: now the
   * first-listed output (3) settles and output 2 keeps its previous value, so
   * the settled table depends on the order of the output list.
   */
  lemma FanOutOrderMatters(a: State, p2: State, p3: State)
    ensures var r := Tick([Input(a), NotGate, Output(p2), Output(p3)], FanOutWires(1), [3, 2]);
            r.Done? && r.comps == [Input(a), NotGate, Output(p2), Output(Not(a))]
    ensures p2 != Not(a) || p3 != Not(a) ==>
              (Tick([Input(a), NotGate, Output(p2), Output(p3)], FanOutWires(1), [2, 3])
               != Tick([Input(a), NotGate, Output(p2), Output(p3)], FanOutWires(1), [3, 2]))
  {
    var comps := [Input(a), NotGate, Output(p2), Output(p3)];
    TickTwo(comps, FanOutWires(1), 3, 2);
    FanOutFirst(a, p2, p3, 1, 3);
    FanOutFromPinOne(a, p2, p3);
    var forward := [Input(a), NotGate, Output(Not(a)), Output(p3)];
    var backward := [Input(a), NotGate, Output(p2), Output(Not(a))];
    assert p2 != Not(a) ==> forward[2] != backward[2];
    assert p3 != Not(a) ==> forward[3] != backward[3];
  }

  /** Fed from pin 2, the second output misses the cache, re-evaluates the NOT gate and settles to the negated input. */
  lemma FanOutSecondFromPinTwo(a: State, p3: State)
    ensures var settled := [Input(a), NotGate, Output(Not(a)), Output(p3)];
            TickStep(settled, FanOutWires(2), 3, map[Pin(1, 1) := a])
            == Done((), settled[3 := Output(Not(a))], map[Pin(1, 1) := a])
  {
    var settled := [Input(a), NotGate, Output(Not(a)), Output(p3)];
    var wires := FanOutWires(2);
    var k := map[Pin(1, 1) := a];
    assert {3} + {1} == {3, 1};
    OutputStep(settled, wires, 3, Pin(0, 0), {3}, k);
    NotOfInput(settled, wires, 2, Pin(3, 0), a, {3, 1}, k);
    assert k[Pin(1, 1) := a] == k;
  }

  /** Fed from pin 2, as the unit test wires the NOT gate, both outputs settle to the negated input. */
  lemma FanOutFromPinTwo(a: State, p2: State, p3: State)
    ensures var r := Tick([Input(a), NotGate, Output(p2), Output(p3)], FanOutWires(2), [2, 3]);
            r.Done? && r.comps == [Input(a), NotGate, Output(Not(a)), Output(Not(a))]
  {
    var comps := [Input(a), NotGate, Output(p2), Output(p3)];
    TickTwo(comps, FanOutWires(2), 2, 3);
    FanOutFirst(a, p2, p3, 2, 2);
    assert comps[2 := Output(Not(a))] == [Input(a), NotGate, Output(Not(a)), Output(p3)];
    FanOutSecondFromPinTwo(a, p3);
  }

  /** A NOT gate whose input is driven by its own output: the tick aborts on re-entering the gate. */
  lemma SelfLoopAborts(prior: State)
    ensures Tick([NotGate, Output(prior)], map[Pin(0, 0) := Pin(0, 1), Pin(1, 0) := Pin(0, 1)], [1])
         == Panic(AlreadyBorrowed(0))
  {
    var comps := [NotGate, Output(prior)];
    var wires := map[Pin(0, 0) := Pin(0, 1), Pin(1, 0) := Pin(0, 1)];
    assert {1} + {0} == {1, 0};
    TickOne(comps, wires, 1);
    OutputStep(comps, wires, 1, Pin(0, 0), {1}, map[]);
    Behaviour.GateEvaluation(comps, wires, Pin(0, 1), Pin(1, 0), {1, 0}, map[]);
    assert OperandPins(0, NotGate) == [Pin(0, 0)];
    NsimOne(comps, wires, 0, Pin(0, 0), {1, 0}, map[]);
    assert Operand(comps, wires, 0, Pin(0, 0), {1, 0}, map[]) == Panic(AlreadyBorrowed(0));
  }

  /**
   * An OR gate fed by input 0 on pin 0 and by its own pin 1 on pin 1, driving
   * output 2 from pin 2. Pin 1 closes a loop, but it is also the key the input
   * is cached under.
   */
  function CachedLoopWires(): (w: Wires)
  {
    map[Pin(1, 0) := Pin(0, 0), Pin(1, 1) := Pin(1, 1), Pin(2, 0) := Pin(1, 2)]
  }

  /** The looped OR gate reads its input, then finds its own pin 1 in the cache, without borrowing itself again. */
  lemma CachedLoopOperands(a: State, prior: State)
    ensures Nsim([Input(a), OrGate, Output(prior)], CachedLoopWires(), 1, [Pin(1, 0), Pin(1, 1)], {2, 1}, map[])
         == Done([a, a], [Input(a), OrGate, Output(prior)], map[Pin(1, 1) := a])
  {
    var comps := [Input(a), OrGate, Output(prior)];
    var wires := CachedLoopWires();
    NsimTwo(comps, wires, 1, Pin(1, 0), Pin(1, 1), {2, 1}, map[]);
    NsimOne(comps, wires, 1, Pin(1, 0), {2, 1}, map[]);
    OperandFromInput(comps, wires, 1, Pin(1, 0), {2, 1}, map[]);
    assert Operand(comps, wires, 1, Pin(1, 1), {2, 1}, map[Pin(1, 1) := a]) == Done(a, comps, map[Pin(1, 1) := a]);
    assert [a] + [a] == [a, a];
  }

  /** A loop whose back edge is a cached pin does not abort: the tick settles the output to the input OR itself. */
  lemma CachedLoopSettles(a: State, prior: State)
    ensures var r := Tick([Input(a), OrGate, Output(prior)], CachedLoopWires(), [2]);
            r.Done? && r.comps == [Input(a), OrGate, Output(a)] && r.cache == map[Pin(1, 1) := a]
  {
    var comps := [Input(a), OrGate, Output(prior)];
    var wires := CachedLoopWires();
    assert {2} + {1} == {2, 1};
    TickOne(comps, wires, 2);
    OutputStep(comps, wires, 2, Pin(0, 0), {2}, map[]);
    Behaviour.GateEvaluation(comps, wires, Pin(1, 2), Pin(2, 0), {2, 1}, map[]);
    assert OperandPins(1, OrGate) == [Pin(1, 0), Pin(1, 1)];
    CachedLoopOperands(a, prior);
    assert GateOutput(OrGate, [a, a]) == a;
  }

  /** The AND gate of the half-connected circuit reads its input, then `Invalid` for the unconnected pin 1. */
  lemma HalfConnectedOperands(a: State, prior: State)
    ensures Nsim([Input(a), AndGate, Output(prior)], NotWires(), 1, [Pin(1, 0), Pin(1, 1)], {2, 1}, map[])
         == Done([a, Invalid], [Input(a), AndGate, Output(prior)], map[Pin(1, 1) := a])
  {
    var comps := [Input(a), AndGate, Output(prior)];
    var wires := NotWires();
    NsimTwo(comps, wires, 1, Pin(1, 0), Pin(1, 1), {2, 1}, map[]);
    NsimOne(comps, wires, 1, Pin(1, 0), {2, 1}, map[]);
    OperandFromInput(comps, wires, 1, Pin(1, 0), {2, 1}, map[]);
    assert [a] + [Invalid] == [a, Invalid];
  }

  /** An AND gate with only its first input connected settles to `Invalid`, without aborting. */
  lemma HalfConnectedAnd(a: State, prior: State)
    ensures var r := Tick([Input(a), AndGate, Output(prior)], NotWires(), [2]);
            r.Done? && r.comps == [Input(a), AndGate, Output(Invalid)]
  {
    var comps := [Input(a), AndGate, Output(prior)];
    var wires := NotWires();
    assert {2} + {1} == {2, 1};
    TickOne(comps, wires, 2);
    OutputStep(comps, wires, 2, Pin(0, 0), {2}, map[]);
    Behaviour.GateEvaluation(comps, wires, Pin(1, 2), Pin(2, 0), {2, 1}, map[]);
    assert OperandPins(1, AndGate) == [Pin(1, 0), Pin(1, 1)];
    HalfConnectedOperands(a, prior);
  }

  /** A simulator holding the two-input test circuit around gate `g`. */
  predicate TwoInputCircuit(sim: Engine.Simulator, g: Component)
    reads sim
  {
    && sim.Valid()
    && |sim.components| == 4 && sim.components[0].Input? && sim.components[1].Input?
    && sim.components[2] == g && sim.components[3].Output?
    && sim.outToIn == TwoInputWires() && sim.outputComponents == [3]
  }

  /** Inserts the unit tests' two-input circuit: inputs at 0 and 1, the gate at 2, the output at 3. */
  method PlaceTwoInput(g: Component) returns (sim: Engine.Simulator)
    requires g.OrGate? || g.AndGate? || g.XorGate?
    ensures fresh(sim) && sim.Valid() && sim.outToIn == map[]
    ensures sim.components == [Input(Low), Input(Low), g, Output(Low)] && sim.outputComponents == [3]
  {
    sim := new Engine.Simulator();
    var in1 := sim.InsertComponent(Input(Low));
    var in2 := sim.InsertComponent(Input(Low));
    var gate := sim.InsertComponent(g);
    var out := sim.InsertComponent(Output(Low));
    assert sim.components == [Input(Low), Input(Low), g, Output(Low)];
  }

  /** Wires the placed circuit: both inputs into the gate, the gate's output pin into the output. */
  method BuildTwoInput(g: Component) returns (sim: Engine.Simulator)
    requires g.OrGate? || g.AndGate? || g.XorGate?
    ensures fresh(sim) && TwoInputCircuit(sim, g)
  {
    sim := PlaceTwoInput(g);
    sim.Connect(Pin(0, 0), Pin(2, 0));
    sim.Connect(Pin(1, 0), Pin(2, 1));
    sim.Connect(Pin(2, 2), Pin(3, 0));
    assert sim.outToIn == TwoInputWires();
  }

  /** Sets both inputs, ticks, and reads the settled output back. */
  method SetTickInspect(sim: Engine.Simulator, g: Component, a: State, b: State) returns (settled: Result<State>)
    requires g.OrGate? || g.AndGate? || g.XorGate?
    requires TwoInputCircuit(sim, g)
    modifies sim
    ensures TwoInputCircuit(sim, g)
    ensures settled == Ok(GateOutput(g, [a, b]))
  {
    var ok := sim.SetInput(Pin(0, 0), a);
    ok := sim.SetInput(Pin(1, 0), b);
    BinaryGateCircuit(g, a, b, sim.components[3].state);
    assert sim.components == [Input(a), Input(b), g, Output(sim.components[3].state)];
    ok := sim.Tick();
    settled := sim.InspectPin(Pin(sim.outputComponents[0], 0));
  }

  method TestOr()
  {
    var sim := BuildTwoInput(OrGate);
    var s := SetTickInspect(sim, OrGate, Low, Low);
    assert s == Ok(Low);
    s := SetTickInspect(sim, OrGate, Low, High);
    assert s == Ok(High);
    s := SetTickInspect(sim, OrGate, High, Low);
    assert s == Ok(High);
    s := SetTickInspect(sim, OrGate, High, High);
    assert s == Ok(High);
  }

  method TestAnd()
  {
    var sim := BuildTwoInput(AndGate);
    var s := SetTickInspect(sim, AndGate, Low, Low);
    assert s == Ok(Low);
    s := SetTickInspect(sim, AndGate, Low, High);
    assert s == Ok(Low);
    s := SetTickInspect(sim, AndGate, High, Low);
    assert s == Ok(Low);
    s := SetTickInspect(sim, AndGate, High, High);
    assert s == Ok(High);
  }

  method TestXor()
  {
    var sim := BuildTwoInput(XorGate);
    var s := SetTickInspect(sim, XorGate, Low, Low);
    assert s == Ok(Low);
    s := SetTickInspect(sim, XorGate, Low, High);
    assert s == Ok(High);
    s := SetTickInspect(sim, XorGate, High, Low);
    assert s == Ok(High);
    s := SetTickInspect(sim, XorGate, High, High);
    assert s == Ok(Low);
  }

  /** Inserts the NOT test circuit: the input at 0, the inverter at 1, the output at 2. */
  method PlaceNot() returns (sim: Engine.Simulator)
    ensures fresh(sim) && sim.Valid() && sim.outToIn == map[]
    ensures sim.components == [Input(Low), NotGate, Output(Low)] && sim.outputComponents == [2]
  {
    sim := new Engine.Simulator();
    var in1 := sim.InsertComponent(Input(Low));
    var gate := sim.InsertComponent(NotGate);
    var out := sim.InsertComponent(Output(Low));
    assert sim.components == [Input(Low), NotGate, Output(Low)];
  }

  /** Wires the placed NOT circuit: the input into the gate, the gate's pin 2 into the output. */
  method BuildNot() returns (sim: Engine.Simulator)
    ensures fresh(sim) && sim.Valid() && sim.outToIn == NotWires()
    ensures sim.components == [Input(Low), NotGate, Output(Low)] && sim.outputComponents == [2]
  {
    sim := PlaceNot();
    sim.Connect(Pin(0, 0), Pin(1, 0));
    sim.Connect(Pin(1, 2), Pin(2, 0));
    assert sim.outToIn == NotWires();
  }

  method TestNot()
  {
    var sim := BuildNot();
    NotCircuit(Low, Low);
    var ok := sim.Tick();
    var s := sim.InspectPin(Pin(sim.outputComponents[0], 0));
    assert s == Ok(High);
    ok := sim.SetInput(Pin(0, 0), High);
    NotCircuit(High, High);
    assert sim.components == [Input(High), NotGate, Output(High)];
    ok := sim.Tick();
    s := sim.InspectPin(Pin(sim.outputComponents[0], 0));
    assert s == Ok(Low);
  }

  /**
   * Connecting one driver pin to two consumers keeps both consumers' driver
   * entries, but the driver-to-consumer map remembers only the last consumer.
   */
  method TestFanOutConnections()
  {
    var sim := new Engine.Simulator();
    sim.Connect(Pin(0, 0), Pin(1, 0));
    sim.Connect(Pin(0, 0), Pin(2, 0));
    assert sim.outToIn == map[Pin(1, 0) := Pin(0, 0), Pin(2, 0) := Pin(0, 0)];
    assert sim.inToOut == map[Pin(0, 0) := Pin(2, 0)];
  }
}
